/**
 Loggers and their reconfiguration (source/log.cpp:241-376, 634-669, 783-846; source/config.hpp:347-362) on values:
 what one change of the "logs" setting does, and what a whole history of changes comes to.
 */
module Loggers {
  import opened Types
  import opened LogFormatterModel
  import opened Pattern

  /** `LogLevel::Level`: UNKNOWN is 0, DEBUG is 1. */
  type Level = int
  const UNKNOWN: Level := 0
  const DEBUG: Level := 1

  const DEFAULT_PATTERN := "%d{%Y-%m-%d %H:%M:%S}%T%t%T%N%T%F%T[%p]%T[%c]%T%f:%l%T%m%n"

  /** `LogAppenderDefine` (634-646); kind is its type, 1 for a file and 2 for standard output. */
  datatype AppenderDefine = AppenderDefine(kind: int, level: Level, formatter: string, file: string)

  /** `LogDefine` (648-669) */
  datatype LogDefine = LogDefine(name: string, level: Level, formatter: string, appenders: seq<AppenderDefine>)

  /**
   A `std::set<LogDefine>`: ordered and searched by name alone, compared with all fields.  The sequence is the set in
   the order of its names, so no name is there twice and equal sets are equal sequences.
   */
  type Defs = seq<LogDefine>

  predicate Distinct(defs: Defs) {
    forall i, j | 0 <= i < j < |defs| :: defs[i].name != defs[j].name
  }

  /** `set::find` of a definition with this name. */
  function Find(defs: Defs, name: string): (r: Option<LogDefine>)
    ensures r.Some? ==> r.value in defs && r.value.name == name
    ensures r.None? ==> forall d | d in defs :: d.name != name
  {
    if defs == [] then None
    else if defs[0].name == name then Some(defs[0])
    else Find(defs[1..], name)
  }

  /** `LogAppender`: its formatter is known by the pattern it was built from. */
  datatype Appender = Appender(kind: int, file: string, level: Level, hasFormatter: bool, formatter: Option<string>)

  /** `Logger` without its name, its lock and the root it falls back to. */
  datatype Logger = Logger(level: Level, formatter: string, appenders: seq<Appender>)

  /** The loggers of the manager by name. */
  type Book = map<string, Logger>

  /** Logger::Logger (241-245) */
  const NEW := Logger(DEBUG, DEFAULT_PATTERN, [])

  function At(m: Book, name: string): Option<Logger> { if name in m then Some(m[name]) else None }

  /** getLogger (608-622) makes a new logger for a name it does not know. */
  function Get(m: Book, name: string): Logger { At(m, name).GetOr(NEW) }

  // ---- operations of one logger -------------------------------------------------------------------------

  /** An appender takes over the logger's formatter unless it has its own (272-274). */
  function Inherit(a: Appender, pattern: string): Appender {
    if a.hasFormatter then a else a.(formatter := Some(pattern))
  }

  function InheritAll(appenders: seq<Appender>, pattern: string): (r: seq<Appender>)
    ensures |r| == |appenders| && forall i | 0 <= i < |r| :: r[i] == Inherit(appenders[i], pattern)
  {
    seq(|appenders|, i requires 0 <= i < |appenders| => Inherit(appenders[i], pattern))
  }

  /** setFormatter (251-276): a pattern with an error is ignored. */
  function SetFormatter(l: Logger, pattern: string): Logger {
    if IsErrorPattern(pattern) then l
    else l.(formatter := pattern, appenders := InheritAll(l.appenders, pattern))
  }

  /** addAppender (302-312) */
  function Attached(a: Appender, pattern: string): Appender {
    if a.formatter.None? then a.(formatter := Some(pattern)) else a
  }

  function AddAppender(l: Logger, a: Appender): Logger { l.(appenders := l.appenders + [Attached(a, l.formatter)]) }

  /** A new appender for its definition (815-832). */
  function Build(a: AppenderDefine): Appender {
    var own := a.formatter != "" && !IsErrorPattern(a.formatter);
    Appender(a.kind, if a.kind == 1 then a.file else "", a.level, own, if own then Some(a.formatter) else None)
  }

  /** The appenders of a definition, attached to a logger with this formatter. */
  function Built(defs: seq<AppenderDefine>, pattern: string): (r: seq<Appender>)
    ensures |r| == |defs| && forall i | 0 <= i < |r| :: r[i] == Attached(Build(defs[i]), pattern)
  {
    seq(|defs|, i requires 0 <= i < |defs| => Attached(Build(defs[i]), pattern))
  }

  /** The formatter after a definition: its own if it gives one without errors, else the one before. */
  function Formatter(d: LogDefine, before: string): string {
    if d.formatter != "" && !IsErrorPattern(d.formatter) then d.formatter else before
  }

  /** What the listener does to the logger of a new or changed definition (806-834). */
  function Define(l: Logger, d: LogDefine): Logger {
    var f := Formatter(d, l.formatter);
    Logger(d.level, f, Built(d.appenders, f))
  }

  /** What it does to the logger of a definition that is gone (842-843). */
  function Drop(l: Logger): Logger { l.(level := UNKNOWN, appenders := []) }

  // ---- the listener -------------------------------------------------------------------------------------

  /** One turn of the first loop (791-835). */
  function Changed(m: Book, was: Defs, d: LogDefine): Book {
    if Find(was, d.name) == Some(d) then m else m[d.name := Define(Get(m, d.name), d)]
  }

  function ApplyChanged(m: Book, was: Defs, todo: Defs): Book
    decreases |todo|
  {
    if todo == [] then m else ApplyChanged(Changed(m, was, todo[0]), was, todo[1..])
  }

  /** One turn of the second loop (837-845). */
  function Dropped(m: Book, now: Defs, d: LogDefine): Book {
    if Find(now, d.name).Some? then m else m[d.name := Drop(Get(m, d.name))]
  }

  function ApplyDropped(m: Book, now: Defs, todo: Defs): Book
    decreases |todo|
  {
    if todo == [] then m else ApplyDropped(Dropped(m, now, todo[0]), now, todo[1..])
  }

  /** The listener of `LogIniter` (785-846). */
  function OnChange(m: Book, was: Defs, now: Defs): Book {
    ApplyDropped(ApplyChanged(m, was, now), now, was)
  }

  /** What one change means for one name. */
  function Expected(l: Option<Logger>, was: Option<LogDefine>, now: Option<LogDefine>): Option<Logger> {
    if was == now then l
    else if now.Some? then Some(Define(l.GetOr(NEW), now.value))
    else Some(Drop(l.GetOr(NEW)))
  }

  lemma {:induction false} ChangedAt(m: Book, was: Defs, todo: Defs, name: string)
    requires Distinct(todo)
    ensures At(ApplyChanged(m, was, todo), name) ==
      var d := Find(todo, name);
      if d.None? || Find(was, name) == d then At(m, name) else Some(Define(Get(m, name), d.value))
    decreases |todo|
  {
    if todo != [] {
      ChangedAt(Changed(m, was, todo[0]), was, todo[1..], name);
      assert forall d | d in todo[1..] :: d.name != todo[0].name;
    }
  }

  lemma {:induction false} DroppedAt(m: Book, now: Defs, todo: Defs, name: string)
    requires Distinct(todo)
    ensures At(ApplyDropped(m, now, todo), name) ==
      if Find(todo, name).None? || Find(now, name).Some? then At(m, name) else Some(Drop(Get(m, name)))
    decreases |todo|
  {
    if todo != [] {
      DroppedAt(Dropped(m, now, todo[0]), now, todo[1..], name);
      assert forall d | d in todo[1..] :: d.name != todo[0].name;
    }
  }

  /** The two loops together, name by name. */
  lemma OnChangeAt(m: Book, was: Defs, now: Defs, name: string)
    requires Distinct(was) && Distinct(now)
    ensures At(OnChange(m, was, now), name) == Expected(At(m, name), Find(was, name), Find(now, name))
  {
    ChangedAt(m, was, now, name);
    DroppedAt(ApplyChanged(m, was, now), now, was, name);
  }

  // ---- setValue -----------------------------------------------------------------------------------------

  /** The setting and the loggers. */
  datatype Setup = Setup(value: Defs, book: Book)

  /** setValue (config.hpp:347-362): nothing for an equal value, else the listener, then the new value. */
  function SetValue(s: Setup, value: Defs): Setup {
    if s.value == value then s else Setup(value, OnChange(s.book, s.value, value))
  }

  /** A history of values, one after the other. */
  function SetAll(s: Setup, history: seq<Defs>): Setup
    decreases |history|
  {
    if history == [] then s else SetValue(SetAll(s, Before(history)), Latest(history))
  }

  function Before(history: seq<Defs>): seq<Defs> { if history == [] then [] else history[..|history| - 1] }

  /** The newest value; the setting starts empty. */
  function Latest(history: seq<Defs>): Defs { if history == [] then [] else history[|history| - 1] }

  /** Some value of the history names this logger. */
  predicate Named(history: seq<Defs>, name: string)
    decreases |history|
  {
    history != [] && (Find(Latest(history), name).Some? || Named(Before(history), name))
  }

  /** The last pattern without errors that any value of the history gave this name, else the one it had before. */
  function FormatterAfter(before: string, history: seq<Defs>, name: string): string
    decreases |history|
  {
    if history == [] then before
    else
      var f := FormatterAfter(before, Before(history), name);
      var d := Find(Latest(history), name);
      if d.Some? then Formatter(d.value, f) else f
  }

  /** What a history of settings comes to for one name, read off the newest value and the formatters ever given. */
  function Outcome(l: Option<Logger>, history: seq<Defs>, name: string): Option<Logger> {
    var f := FormatterAfter(l.GetOr(NEW).formatter, history, name);
    var d := Find(Latest(history), name);
    if d.Some? then Some(Logger(d.value.level, f, Built(d.value.appenders, f)))
    else if Named(history, name) then Some(Logger(UNKNOWN, f, []))
    else l
  }

  predicate AllDistinct(history: seq<Defs>) { forall defs | defs in history :: Distinct(defs) }

  /** Applying differences one after the other gives what the newest value and the formatters ever given say. */
  lemma {:induction false} HistoryAt(m: Book, history: seq<Defs>, name: string)
    requires AllDistinct(history)
    ensures SetAll(Setup([], m), history).value == Latest(history)
    ensures At(SetAll(Setup([], m), history).book, name) == Outcome(At(m, name), history, name)
    decreases |history|
  {
    if history != [] {
      var s := SetAll(Setup([], m), Before(history));
      HistoryAt(m, Before(history), name);
      assert Latest(history) in history;
      assert Before(history) != [] ==> Latest(Before(history)) in history;
      OnChangeAt(s.book, s.value, Latest(history), name);
      assert SetAll(Setup([], m), history) == SetValue(s, Latest(history));
      Step(At(m, name), history, name);
    }
  }

  /** One more value: what it means for the name is the outcome of the longer history. */
  lemma Step(l: Option<Logger>, history: seq<Defs>, name: string)
    requires history != []
    ensures Expected(Outcome(l, Before(history), name), Find(Latest(Before(history)), name), Find(Latest(history), name))
            == Outcome(l, history, name)
  {
    var f0 := l.GetOr(NEW).formatter;
    UnnamedFormatter(f0, Before(history), name);
    SettledFormatter(f0, Before(history), name);
  }

  lemma {:induction false} UnnamedFormatter(before: string, history: seq<Defs>, name: string)
    ensures !Named(history, name) ==> FormatterAfter(before, history, name) == before
    decreases |history|
  {
    if history != [] { UnnamedFormatter(before, Before(history), name); }
  }

  /** Applying the same definition again would not change the formatter. */
  lemma SettledFormatter(before: string, history: seq<Defs>, name: string)
    ensures
      var d := Find(Latest(history), name);
      var f := FormatterAfter(before, history, name);
      d.Some? ==> Named(history, name) && Formatter(d.value, f) == f
  {
  }

  // ---- what it does not depend on -----------------------------------------------------------------------

  /**
   Applying the newest value directly to the loggers as they were gives the same logger exactly when the formatters
   given before it do not show: all but the formatter depends on the newest value alone.
   */
  lemma DirectExact(m: Book, history: seq<Defs>, name: string)
    requires AllDistinct(history) && Find(Latest(history), name).Some?
    ensures
      var d := Find(Latest(history), name).value;
      var direct := Define(Get(m, name), d);
      var after := Get(SetAll(Setup([], m), history).book, name);
      && after.level == direct.level && |after.appenders| == |direct.appenders|
      && (forall i | 0 <= i < |after.appenders| ::
            after.appenders[i].(formatter := None) == direct.appenders[i].(formatter := None)
            && (after.appenders[i].hasFormatter ==> after.appenders[i] == direct.appenders[i]))
      && (after == direct <==>
            (d.formatter != "" && !IsErrorPattern(d.formatter))
            || FormatterAfter(Get(m, name).formatter, Before(history), name) == Get(m, name).formatter)
  {
    HistoryAt(m, history, name);
  }

  /**
   After any history whose newest value defines the name, its logger has the level of the definition and an appender for each
   of its appenders: of that kind and level, with the file if it is one, and with its own formatter if the definition gives one
   without errors, else with the logger's (806-834).
   */
  lemma AppendersExact(m: Book, history: seq<Defs>, name: string)
    requires AllDistinct(history) && Find(Latest(history), name).Some?
    ensures
      var d := Find(Latest(history), name).value;
      var l := Get(SetAll(Setup([], m), history).book, name);
      && l.level == d.level && |l.appenders| == |d.appenders|
      && l.formatter == (if d.formatter != "" && !IsErrorPattern(d.formatter) then d.formatter
                         else Get(SetAll(Setup([], m), Before(history)).book, name).formatter)
      && forall i | 0 <= i < |d.appenders| ::
        var a, x := d.appenders[i], l.appenders[i];
        && x.kind == a.kind && x.level == a.level && (a.kind == 1 ==> x.file == a.file)
        && (if a.formatter != "" && !IsErrorPattern(a.formatter) then x.hasFormatter && x.formatter == Some(a.formatter)
            else !x.hasFormatter && x.formatter == Some(l.formatter))
  {
    HistoryAt(m, history, name);
    HistoryAt(m, Before(history), name);
    UnnamedFormatter(Get(m, name).formatter, Before(history), name);
  }

  /** A name that is dropped keeps a logger, at level 0 and without appenders. */
  lemma DroppedSilent(m: Book, history: seq<Defs>, name: string)
    requires AllDistinct(history) && Named(history, name) && Find(Latest(history), name).None?
    ensures
      var l := At(SetAll(Setup([], m), history).book, name);
      l.Some? && l.value.level == 0 && l.value.appenders == []
  {
    HistoryAt(m, history, name);
  }

  /** Loggers no value names are neither made nor touched. */
  lemma UntouchedExact(m: Book, history: seq<Defs>, name: string)
    requires AllDistinct(history)
    ensures !Named(history, name) ==> At(SetAll(Setup([], m), history).book, name) == At(m, name)
    ensures Named(history, name) ==> At(SetAll(Setup([], m), history).book, name).Some?
  {
    HistoryAt(m, history, name);
  }

  /** A formatter outlives its definition: dropping it from the definition does not bring the default back. */
  lemma FormatterOutlives(name: string)
    ensures
      var first := [LogDefine(name, DEBUG, "%m", [])];
      var second := [LogDefine(name, DEBUG, "", [])];
      Get(SetAll(Setup([], map[]), [first, second]).book, name).formatter == "%m"
      && Define(NEW, second[0]).formatter == DEFAULT_PATTERN
  {
    MessageOnly();
    var first, second := [LogDefine(name, DEBUG, "%m", [])], [LogDefine(name, DEBUG, "", [])];
    var history := [first, second];
    assert Before(history) == [first] && Before([first]) == [];
    assert FormatterAfter(DEFAULT_PATTERN, [first], name) == "%m";
    assert FormatterAfter(DEFAULT_PATTERN, history, name) == "%m";
    HistoryAt(map[], history, name);
  }

  lemma MessageOnly()
    ensures !IsErrorPattern("%m")
  {
    var p := Conversion("m");
    assert "%m"[1..] == "m" && "m"[1..] == "";
    assert NameLen("m") == 1 + NameLen("") && "m"[..1] == "m";
    assert p == Piece(Conv("m", None), 1);
    assert Tokens("", "") == [];
    assert Compile("%m") == Flush("") + [p.token] + Tokens("%m"[2..], "");
    assert Compile("%m") == [Conv("m", None)];
  }

  // ---- formatters of appenders --------------------------------------------------------------------------

  /** An appender has a formatter, and without one of its own it has the logger's. */
  predicate Follows(a: Appender, pattern: string) {
    a.formatter.Some? && (!a.hasFormatter ==> a.formatter.value == pattern)
  }

  predicate WellFormatted(l: Logger) { forall a | a in l.appenders :: Follows(a, l.formatter) }

  /** What LogAppender::setFormatter (365-373) and the constructors keep. */
  predicate AppenderOk(a: Appender) { a.hasFormatter ==> a.formatter.Some? }

  /** addAppender keeps the logger so exactly when the appender is new, has its own formatter, or comes with the logger's. */
  lemma AddAppenderExact(l: Logger, a: Appender)
    requires WellFormatted(l) && AppenderOk(a)
    ensures AddAppender(l, a) == l.(appenders := l.appenders + [if a.formatter.None? then a.(formatter := Some(l.formatter)) else a])
    ensures WellFormatted(AddAppender(l, a)) <==> a.formatter.None? || a.hasFormatter || a.formatter.value == l.formatter
  {
    var l' := AddAppender(l, a);
    var b := Attached(a, l.formatter);
    assert b in l'.appenders && forall x | x in l.appenders :: x in l'.appenders;
    assert forall x | x in l'.appenders :: x in l.appenders || x == b;
    assert WellFormatted(l') <==> Follows(b, l.formatter);
  }

  /** An appender taken over from a logger with another formatter keeps that one. */
  lemma SharedAppenderStrays()
    ensures
      var first := AddAppender(SetFormatter(NEW, "%m"), Build(AppenderDefine(2, UNKNOWN, "", "")));
      first.appenders != [] && WellFormatted(NEW) && !WellFormatted(AddAppender(NEW, first.appenders[0]))
  {
    MessageOnly();
    var first := AddAppender(SetFormatter(NEW, "%m"), Build(AppenderDefine(2, UNKNOWN, "", "")));
    assert first.appenders == [Appender(2, "", UNKNOWN, false, Some("%m"))];
    AddAppenderExact(NEW, first.appenders[0]);
  }

  /** setFormatter repairs every appender, and keeps the pattern when the new one has an error. */
  lemma SetFormatterFollows(l: Logger, pattern: string)
    requires forall a | a in l.appenders :: AppenderOk(a)
    ensures !IsErrorPattern(pattern) ==> WellFormatted(SetFormatter(l, pattern)) && SetFormatter(l, pattern).formatter == pattern
    ensures IsErrorPattern(pattern) ==> SetFormatter(l, pattern) == l
    ensures SetFormatter(l, pattern).level == l.level && |SetFormatter(l, pattern).appenders| == |l.appenders|
    ensures !IsErrorPattern(pattern) ==> forall i | 0 <= i < |l.appenders| ::
      SetFormatter(l, pattern).appenders[i] ==
        if l.appenders[i].hasFormatter then l.appenders[i] else l.appenders[i].(formatter := Some(pattern))
  {
    var l' := SetFormatter(l, pattern);
    if !IsErrorPattern(pattern) {
      forall a | a in l'.appenders
        ensures Follows(a, pattern)
      {
        var i :| 0 <= i < |l'.appenders| && l'.appenders[i] == a;
        assert AppenderOk(l.appenders[i]);
      }
    }
  }

  predicate AllWellFormatted(m: Book) { forall name | name in m :: WellFormatted(m[name]) }

  /** Every attached appender has a formatter, and those without their own share their logger's, over any history. */
  lemma HistoryWellFormatted(m: Book, history: seq<Defs>)
    requires AllDistinct(history) && AllWellFormatted(m)
    ensures AllWellFormatted(SetAll(Setup([], m), history).book)
  {
    var book := SetAll(Setup([], m), history).book;
    forall name | name in book
      ensures WellFormatted(book[name])
    {
      HistoryAt(m, history, name);
      assert At(book, name) == Some(book[name]);
    }
  }

  lemma {:induction false} PatternAfter(before: string, history: seq<Defs>, name: string)
    ensures FormatterAfter(before, history, name) == before || !IsErrorPattern(FormatterAfter(before, history, name))
    decreases |history|
  {
    if history != [] { PatternAfter(before, Before(history), name); }
  }

  /** After any history a logger has the formatter it had before, or a pattern without errors. */
  lemma HistoryPattern(m: Book, history: seq<Defs>, name: string)
    requires AllDistinct(history)
    ensures
      var l := At(SetAll(Setup([], m), history).book, name);
      l.Some? ==> l.value.formatter == Get(m, name).formatter || !IsErrorPattern(l.value.formatter)
  {
    HistoryAt(m, history, name);
    PatternAfter(Get(m, name).formatter, history, name);
  }

  /** The listener's order of work (806-834) comes to Define. */
  lemma DefineSteps(l: Logger, d: LogDefine)
    ensures
      var l1 := l.(level := d.level);
      var l2 := if d.formatter != "" then SetFormatter(l1, d.formatter) else l1;
      AddAll(l2.(appenders := []), d.appenders) == Define(l, d)
  {
    var l1 := l.(level := d.level);
    var l2 := if d.formatter != "" then SetFormatter(l1, d.formatter) else l1;
    AddAllIs(l2.(appenders := []), d.appenders);
  }

  function AddAll(l: Logger, defs: seq<AppenderDefine>): Logger
    decreases |defs|
  {
    if defs == [] then l else AddAppender(AddAll(l, defs[..|defs| - 1]), Build(defs[|defs| - 1]))
  }

  lemma {:induction false} AddAllIs(l: Logger, defs: seq<AppenderDefine>)
    ensures AddAll(l, defs) == l.(appenders := l.appenders + Built(defs, l.formatter))
    decreases |defs|
  {
    if defs != [] {
      AddAllIs(l, defs[..|defs| - 1]);
      assert Built(defs, l.formatter) == Built(defs[..|defs| - 1], l.formatter) + [Attached(Build(defs[|defs| - 1]), l.formatter)];
    }
  }

  // ---- what a listener sees -----------------------------------------------------------------------------

  /** One call of a listener. */
  datatype Change<T> = Change(was: T, now: T)

  /** The calls a setting makes of each of its listeners. */
  function Calls<T(==)>(value: T, history: seq<T>): seq<Change<T>>
    decreases |history|
  {
    if history == [] then []
    else if value == history[0] then Calls(value, history[1..])
    else [Change(value, history[0])] + Calls(history[0], history[1..])
  }

  function Final<T>(value: T, history: seq<T>): T { if history == [] then value else history[|history| - 1] }

  /** The first call starts at the first value, each starts where the last one ended, and none is idle. */
  ghost predicate Linked<T(!new)>(value: T, c: seq<Change<T>>) {
    && (c != [] ==> c[0].was == value)
    && (forall i | 0 < i < |c| :: c[i].was == c[i - 1].now)
    && (forall i | 0 <= i < |c| :: c[i].was != c[i].now)
  }

  lemma LinkedFront<T(!new)>(value: T, next: T, c: seq<Change<T>>)
    requires value != next && Linked(next, c)
    ensures Linked(value, [Change(value, next)] + c)
  {
    var d := [Change(value, next)] + c;
    assert forall i | 1 <= i < |d| :: d[i] == c[i - 1];
  }

  /** A listener is handed a chain that ends at the newest value. */
  lemma {:induction false} CallsChain<T(!new)>(value: T, history: seq<T>)
    ensures Linked(value, Calls(value, history))
    ensures Final(value, history) == (var c := Calls(value, history); if c == [] then value else c[|c| - 1].now)
    decreases |history|
  {
    if history != [] {
      CallsChain(history[0], history[1..]);
      if value != history[0] {
        LinkedFront(value, history[0], Calls(history[0], history[1..]));
      }
    }
  }

  /** Replaying the calls is what the setting does to the loggers. */
  lemma {:induction false} CallsReplay(m: Book, value: Defs, history: seq<Defs>)
    ensures SetAll(Setup(value, m), history) == Setup(Final(value, history), Replay(m, Calls(value, history)))
    decreases |history|
  {
    if history != [] {
      var h, v := Before(history), Latest(history);
      CallsReplay(m, value, h);
      CallsSnoc(value, h, v);
      assert h + [v] == history;
      assert SetAll(Setup(value, m), history) == SetValue(SetAll(Setup(value, m), h), v);
      if Final(value, h) != v {
        ReplaySnoc(m, Calls(value, h), Change(Final(value, h), v));
      } else {
        assert Calls(value, history) == Calls(value, h);
      }
    }
  }

  function Replay(m: Book, calls: seq<Change<Defs>>): Book
    decreases |calls|
  {
    if calls == [] then m else Replay(OnChange(m, calls[0].was, calls[0].now), calls[1..])
  }

  lemma {:induction false} ReplaySnoc(m: Book, calls: seq<Change<Defs>>, c: Change<Defs>)
    ensures Replay(m, calls + [c]) == OnChange(Replay(m, calls), c.was, c.now)
    decreases |calls|
  {
    if calls == [] {
      assert calls + [c] == [c] && [c][1..] == [];
    } else {
      assert (calls + [c])[1..] == calls[1..] + [c];
      ReplaySnoc(OnChange(m, calls[0].was, calls[0].now), calls[1..], c);
    }
  }

  lemma {:induction false} CallsSnoc<T>(value: T, h: seq<T>, v: T)
    ensures Calls(value, h + [v]) == Calls(value, h) + (if Final(value, h) == v then [] else [Change(Final(value, h), v)])
    decreases |h|
  {
    if h == [] {
      assert [v][1..] == [] && h + [v] == [v];
    } else {
      assert (h + [v])[1..] == h[1..] + [v];
      CallsSnoc(if value == h[0] then value else h[0], h[1..], v);
    }
  }
}
