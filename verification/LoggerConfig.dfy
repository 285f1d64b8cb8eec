/**
 `Logger`, `LoggerManager`, the listener of `LogIniter` and `ConfigArg` (source/log.cpp, source/config.hpp) as objects
 changed in place.  Each method is the function of `Loggers` with the same meaning.
 */
module LoggerConfig {
  import opened Types
  import opened LogFormatterModel
  import L = Loggers

  class Logger {
    var m_level: L.Level
    var m_formatter: string
    var m_appenders: seq<L.Appender>

    /** Logger::Logger (241-245) */
    constructor ()
      ensures Abs() == L.NEW
      ensures m_level == 1 && m_appenders == []
      ensures m_formatter == "%d{%Y-%m-%d %H:%M:%S}%T%t%T%N%T%F%T[%p]%T[%c]%T%f:%l%T%m%n"
    {
      m_level, m_formatter, m_appenders := L.DEBUG, L.DEFAULT_PATTERN, [];
    }

    function Abs(): L.Logger
      reads this
    {
      L.Logger(m_level, m_formatter, m_appenders)
    }

    /** setFormatter(const std::string&) (251-263) */
    method SetFormatter(val: string)
      modifies this
      ensures Abs() == L.SetFormatter(old(Abs()), val)
    {
      var newVal := new LogFormatter(val);
      if newVal.m_error { return; }
      AdoptFormatter(val);
    }

    /** setFormatter(LogFormatter::ptr) (265-276) */
    method AdoptFormatter(val: string)
      modifies this
      ensures m_level == old(m_level) && m_formatter == val
      ensures m_appenders == L.InheritAll(old(m_appenders), val)
    {
      m_formatter := val;
      var i := 0;
      while i < |m_appenders|
        invariant 0 <= i <= |m_appenders| == |old(m_appenders)|
        invariant m_level == old(m_level) && m_formatter == val
        invariant forall k | 0 <= k < i :: m_appenders[k] == L.Inherit(old(m_appenders)[k], val)
        invariant forall k | i <= k < |m_appenders| :: m_appenders[k] == old(m_appenders)[k]
      {
        if !m_appenders[i].hasFormatter {
          m_appenders := m_appenders[i := m_appenders[i].(formatter := Some(val))];
        }
        i := i + 1;
      }
    }

    /** addAppender (302-312) */
    method AddAppender(appender: L.Appender)
      modifies this`m_appenders
      ensures Abs() == L.AddAppender(old(Abs()), appender)
    {
      var a := appender;
      if a.formatter.None? { a := a.(formatter := Some(m_formatter)); }
      m_appenders := m_appenders + [a];
    }

    /** A new appender with its level and, if it is given one without errors, its own formatter (815-832). */
    static method MakeAppender(a: L.AppenderDefine) returns (ap: L.Appender)
      ensures ap == L.Build(a)
    {
      ap := L.Appender(a.kind, if a.kind == 1 then a.file else "", a.level, false, None);
      if a.formatter != "" {
        var fmt := new LogFormatter(a.formatter);
        if !fmt.m_error { ap := ap.(formatter := Some(a.formatter), hasFormatter := true); }
      }
    }

    /** What the listener does to the logger of a new or changed definition (806-834). */
    method Configure(d: L.LogDefine)
      modifies this
      ensures Abs() == L.Define(old(Abs()), d)
    {
      L.DefineSteps(Abs(), d);
      m_level := d.level;
      if d.formatter != "" { SetFormatter(d.formatter); }
      m_appenders := [];
      AddAppenders(d.appenders);
    }

    method AddAppenders(defs: seq<L.AppenderDefine>)
      modifies this`m_appenders
      ensures Abs() == L.AddAll(old(Abs()), defs)
    {
      var i := 0;
      while i < |defs|
        invariant 0 <= i <= |defs|
        invariant Abs() == L.AddAll(old(Abs()), defs[..i])
      {
        assert defs[..i + 1][..i] == defs[..i];
        var ap := MakeAppender(defs[i]);
        AddAppender(ap);
        i := i + 1;
      }
      assert defs[..i] == defs;
    }

    /** What it does to the logger of a definition that is gone (842-843). */
    method Silence()
      modifies this`m_level, this`m_appenders
      ensures Abs() == L.Drop(old(Abs()))
    {
      m_level := L.UNKNOWN;
      m_appenders := [];
    }
  }

  class LoggerManager {
    var m_loggers: map<string, Logger>

    /** No logger has two names. */
    ghost predicate Separate()
      reads this
    {
      forall a, b | a in m_loggers && b in m_loggers && a != b :: m_loggers[a] != m_loggers[b]
    }

    ghost function Abs(): (m: L.Book)
      reads this, m_loggers.Values
      ensures m.Keys == m_loggers.Keys && forall name | name in m :: m[name] == m_loggers[name].Abs()
    {
      map name | name in m_loggers :: m_loggers[name].Abs()
    }

    /** getLogger (608-622) */
    method GetLogger(name: string) returns (logger: Logger)
      requires Separate()
      modifies this
      ensures Separate() && m_loggers == old(m_loggers)[name := logger]
      ensures if name in old(m_loggers) then logger == old(m_loggers)[name] else fresh(logger)
      ensures logger.Abs() == L.Get(old(Abs()), name)
    {
      if name in m_loggers { return m_loggers[name]; }
      logger := new Logger();
      m_loggers := m_loggers[name := logger];
    }

    /** One turn of the listener's first loop (791-835). */
    method Change(was: L.Defs, d: L.LogDefine)
      requires Separate()
      modifies this, m_loggers.Values
      ensures Separate() && fresh(m_loggers.Values - old(m_loggers.Values))
      ensures Abs() == L.Changed(old(Abs()), was, d)
    {
      if L.Find(was, d.name) != Some(d) { ConfigureNamed(d); }
    }

    method ConfigureNamed(d: L.LogDefine)
      requires Separate()
      modifies this, m_loggers.Values
      ensures Separate() && fresh(m_loggers.Values - old(m_loggers.Values))
      ensures Abs() == old(Abs())[d.name := L.Define(L.Get(old(Abs()), d.name), d)]
    {
      var logger := GetLogger(d.name);
      logger.Configure(d);
    }

    /** One turn of its second loop (837-845). */
    method Remove(now: L.Defs, d: L.LogDefine)
      requires Separate()
      modifies this, m_loggers.Values
      ensures Separate() && fresh(m_loggers.Values - old(m_loggers.Values))
      ensures Abs() == L.Dropped(old(Abs()), now, d)
    {
      if L.Find(now, d.name).None? { SilenceNamed(d.name); }
    }

    method SilenceNamed(name: string)
      requires Separate()
      modifies this, m_loggers.Values
      ensures Separate() && fresh(m_loggers.Values - old(m_loggers.Values))
      ensures Abs() == old(Abs())[name := L.Drop(L.Get(old(Abs()), name))]
    {
      var logger := GetLogger(name);
      logger.Silence();
    }

    /** The listener of LogIniter (785-846). */
    method OnChange(was: L.Defs, now: L.Defs)
      requires Separate()
      modifies this, m_loggers.Values
      ensures Separate() && fresh(m_loggers.Values - old(m_loggers.Values))
      ensures Abs() == L.OnChange(old(Abs()), was, now)
    {
      var i := 0;
      while i < |now|
        invariant 0 <= i <= |now| && Separate() && fresh(m_loggers.Values - old(m_loggers.Values))
        invariant L.ApplyChanged(Abs(), was, now[i..]) == L.ApplyChanged(old(Abs()), was, now)
      {
        Change(was, now[i]);
        i := i + 1;
      }
      var j := 0;
      while j < |was|
        invariant 0 <= j <= |was| && Separate() && fresh(m_loggers.Values - old(m_loggers.Values))
        invariant L.ApplyDropped(Abs(), now, was[j..]) == L.OnChange(old(Abs()), was, now)
      {
        Remove(now, was[j]);
        j := j + 1;
      }
    }
  }

  /** g_log_defines, the "logs" setting, with the listener of LogIniter (779-850). */
  class LogSetting {
    var m_val: L.Defs
    const manager: LoggerManager

    constructor (m: LoggerManager)
      ensures m_val == [] && manager == m
    {
      m_val, manager := [], m;
    }

    ghost function Abs(): L.Setup
      reads this, manager, manager.m_loggers.Values
    {
      L.Setup(m_val, manager.Abs())
    }

    /** setValue (config.hpp:347-362) */
    method SetValue(val: L.Defs)
      requires manager.Separate()
      modifies this, manager, manager.m_loggers.Values
      ensures manager.Separate() && fresh(manager.m_loggers.Values - old(manager.m_loggers.Values))
      ensures Abs() == L.SetValue(old(Abs()), val)
    {
      if m_val == val { return; }
      manager.OnChange(m_val, val);
      m_val := val;
    }
  }
}
