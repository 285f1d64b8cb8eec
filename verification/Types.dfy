/** Vocabulary shared by the scheduler, the fibers and the IO registry. */
module Types {
  datatype Option<+T> = None | Some(value: T) {
    function GetOr(default: T): T {
      if Some? then value else default
    }
  }

  /** A callback (`std::function<void()>`) is known only by its identity. */
  type Callback = int
  type FiberId = int

  /** Kernel thread ids; -1 in a queue entry means "any thread" (scheduler.hpp:119). */
  type ThreadId = int
  const ANY: ThreadId := -1

  /** The six states of `Fiber::State` (fiber.hpp:18-25). */
  datatype FiberState = INIT | HOLD | EXEC | TERM | READY | EXCEPT

  /** What the protocol can see of a `Fiber`: `m_state` and `m_cb`. */
  datatype FiberRec = FiberRec(state: FiberState, cb: Option<Callback>)

  /** The payload of a queue entry: a fiber or a callback, never neither (scheduler.hpp:94, scheduler.cpp:172). */
  datatype Task = Fib(fiber: FiberId) | Call(cb: Callback)

  /** `Scheduler::FiberAndThread` */
  datatype Entry = Entry(task: Task, thread: ThreadId)

  /** How a running fiber gives up its thread: two yields, normal return, exception (fiber.cpp:180-217). */
  datatype Exit = ToReady | ToHold | Finish | Throw

  /** One bit of one file descriptor in the IO registry. */
  datatype Key = Key(fd: nat, write: bool)

  lemma Associative<T>(a: seq<T>, b: seq<T>, c: seq<T>)
    ensures a + (b + c) == a + b + c
  {
  }
}
