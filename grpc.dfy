/**
  The gRPC LoggerV2 adapter of integration/grpc/logger.go: every gRPC logging
  method makes one call of the leveled method of matching severity, and V maps
  gRPC verbosity onto levels for the optional LevelEnabler.
 */
module GrpcLogger {
  import opened Wrappers
  import Levels
  import opened Fields

  /** Go's `int` on a 64-bit platform. */
  newtype Int64 = x: int | -0x8000_0000_0000_0000 <= x < 0x8000_0000_0000_0000

  /** The adapter keeps the LevelEnabler of the wrapped logger, if it has one. */
  datatype Logger = Logger(levelEnabler: Option<Levels.Enabler>)

  /** New: captures the wrapped logger's LevelEnabler when it implements one. */
  function New(wrapped: Option<Levels.Enabler>): (l: Logger)
    ensures l.levelEnabler == wrapped
  {
    Logger(wrapped)
  }

  /** The twelve LoggerV2 logging methods. */
  datatype Method =
    | Info | Infoln | Infof
    | Warning | Warningln | Warningf
    | Error | Errorln | Errorf
    | Fatal | Fatalln | Fatalf

  /** The Println-style methods, whose text ends with the newline Sprintln adds. */
  predicate IsLn(m: Method) {
    m.Infoln? || m.Warningln? || m.Errorln? || m.Fatalln?
  }

  /** The leveled method a gRPC method calls; Fatal* log at Error and do not exit. */
  function Severity(m: Method): Levels.Level {
    match m
    case Info | Infoln | Infof => Levels.Info
    case Warning | Warningln | Warningf => Levels.Warn
    case Error | Errorln | Errorf | Fatal | Fatalln | Fatalf => Levels.Error
  }

  /** strings.TrimSuffix. */
  function TrimSuffix(s: string, suffix: string): (r: string)
    ensures |suffix| <= |s| && s[|s| - |suffix|..] == suffix ==> r + suffix == s
    ensures !(|suffix| <= |s| && s[|s| - |suffix|..] == suffix) ==> r == s
  {
    if |suffix| <= |s| && s[|s| - |suffix|..] == suffix then s[..|s| - |suffix|] else s
  }

  /**
    The call a gRPC method makes, given the text fmt produced from its arguments
    (Sprint, Sprintln or Sprintf): the Println-style methods drop one trailing
    newline; no fields and no context are passed.
   */
  function Forward(m: Method, printed: string): (c: Call)
    ensures c.fields == [] && c.ctx.None?
    ensures c.level == Levels.Info <==> (m.Info? || m.Infoln? || m.Infof?)
    ensures c.level == Levels.Warn <==> (m.Warning? || m.Warningln? || m.Warningf?)
    ensures c.level == Levels.Error <==> (m.Error? || m.Errorln? || m.Errorf? || m.Fatal? || m.Fatalln? || m.Fatalf?)
    ensures !IsLn(m) ==> c.msg == printed
    ensures IsLn(m) && |printed| > 0 && printed[|printed| - 1] == '\n' ==> c.msg + "\n" == printed
  {
    Call(Severity(m), if IsLn(m) then TrimSuffix(printed, "\n") else printed, [], None)
  }

  /** Go's `Level(x)` conversion of an int: the low 32 bits. */
  function ToLevel(x: int): Levels.Level {
    (x % 0x1_0000_0000) as Levels.Level
  }

  /**
    V: true without a LevelEnabler; otherwise verbosity 3 (fatal) is treated as
    2 and the enabler is asked about Level(verbosity + 2).
   */
  function V(l: Logger, level: Int64): (r: bool)
    ensures l.levelEnabler.None? ==> r
  {
    if l.levelEnabler.None? then true
    else
      var verbosity := if level == 3 then 2 else level as int;
      l.levelEnabler.value(ToLevel(verbosity + 2))
  }

  /** The level V asks about for verbosity 0 to 3. */
  function VerbosityLevel(v: Int64): Levels.Level
    requires 0 <= v <= 3
  {
    if v == 0 then Levels.Info else if v == 1 then Levels.Warn else Levels.Error
  }

  /** Verbosity 0, 1, 2 and 3 query Info, Warn, Error and Error. */
  lemma VQueriesLevel(e: Levels.Enabler, v: Int64)
    requires 0 <= v <= 3
    ensures V(Logger(Some(e)), v) == e(VerbosityLevel(v))
  {
  }

  /**
    With a LevelEnabler that follows the contract for minimum `min`, V(v) for
    v in 0..3 holds exactly when the queried level is at least `min`; V is
    therefore monotone in v.
   */
  lemma VFollowsMinimum(e: Levels.Enabler, min: Levels.Level, v: Int64)
    requires Levels.ConformsToMinimum(e, min) && 0 <= v <= 3
    ensures V(Logger(Some(e)), v) <==> min <= VerbosityLevel(v)
  {
    VQueriesLevel(e, v);
  }

  /**
    Verbosities above 3 (below 2^32 - 2) ask about a level that is not defined,
    which a conforming LevelEnabler reports enabled.
   */
  lemma VAboveFatalEnabled(e: Levels.Enabler, min: Levels.Level, v: Int64)
    requires Levels.ConformsToMinimum(e, min) && 4 <= v < 0x1_0000_0000 - 2
    ensures V(Logger(Some(e)), v)
  {
    assert !Levels.IsDefined(ToLevel(v as int + 2));
  }

  /**
    Computing verbosity + 2 in unbounded integers rather than with int64
    wrap-around changes nothing: the conversion keeps only the low 32 bits.
   */
  lemma ToLevelIgnoresInt64Wrap(x: int)
    ensures ToLevel(x + 0x1_0000_0000_0000_0000) == ToLevel(x)
    ensures ToLevel(x - 0x1_0000_0000_0000_0000) == ToLevel(x)
  {
    var m := 0x1_0000_0000;
    assert 0x1_0000_0000_0000_0000 == m * m;
    assert (x + m * m) % m == x % m by {
      var q := x / m;
      assert x == q * m + x % m;
      assert x + m * m == (q + m) * m + x % m;
    }
    assert (x - m * m) % m == x % m by {
      var q := x / m;
      assert x == q * m + x % m;
      assert x - m * m == (q - m) * m + x % m;
    }
  }
}
