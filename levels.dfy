/**
  The level model of the facade (levels.go): an ordered set of five severities
  stored in an unsigned 32-bit integer, their names, parsing, and the contract of
  the optional LevelEnabler capability.
 */
module Levels {
  import opened Wrappers

  /** Go's `type Level uint32`: values outside the five constants are representable. */
  newtype Level = x: int | 0 <= x < 0x1_0000_0000

  const Trace: Level := 0
  const Debug: Level := 1
  const Info: Level := 2
  const Warn: Level := 3
  const Error: Level := 4

  /** The level used by ParseLevel for "not found". */
  const Undefined: Level := 999

  /** One of the five declared constants. */
  predicate IsDefined(l: Level) {
    l <= Error
  }

  /** Levels(): the declared levels, in increasing order of severity. */
  function Levels(): (r: seq<Level>)
    ensures |r| == 5 && r[0] == Trace && r[4] == Error
    ensures forall i, j :: 0 <= i < j < |r| ==> r[i] < r[j]
    ensures forall l :: l in r <==> IsDefined(l)
  {
    [Trace, Debug, Info, Warn, Error]
  }

  /** strings.ToLower on one character, restricted to ASCII letters. */
  function LowerChar(c: char): char {
    if 'A' <= c <= 'Z' then (c as int + 32) as char else c
  }

  /** strings.ToLower, restricted to ASCII letters. */
  function ToLower(s: string): (r: string)
    ensures |r| == |s|
    ensures forall i :: 0 <= i < |s| ==> r[i] == LowerChar(s[i])
  {
    seq(|s|, i requires 0 <= i < |s| => LowerChar(s[i]))
  }

  predicate NoUpper(s: string) {
    forall i :: 0 <= i < |s| ==> !('A' <= s[i] <= 'Z')
  }

  lemma LowerOfLower(s: string)
    requires NoUpper(s)
    ensures ToLower(s) == s
  {
  }

  lemma ToLowerIdempotent(s: string)
    ensures ToLower(ToLower(s)) == ToLower(s)
  {
    LowerOfLower(ToLower(s));
  }

  /** The names ParseLevel accepts once lower-cased. */
  const LevelNames: set<string> := {"trace", "debug", "info", "warn", "warning", "error"}

  /**
    ParseLevel: case-insensitive; "warn" and "warning" both name Warn; any other
    string yields (Level(999), false).
   */
  function ParseLevel(name: string): (r: (Level, bool))
    ensures r.1 <==> ToLower(name) in LevelNames
    ensures r.1 ==> IsDefined(r.0)
    ensures !r.1 ==> r.0 == Undefined
  {
    var lower := ToLower(name);
    if lower == "trace" then (Trace, true)
    else if lower == "debug" then (Debug, true)
    else if lower == "info" then (Info, true)
    else if lower == "warn" || lower == "warning" then (Warn, true)
    else if lower == "error" then (Error, true)
    else (Undefined, false)
  }

  /** String: total; each defined level's own lower-case name, and "unknown" otherwise. */
  function String(l: Level): (r: string)
    ensures l == Trace ==> r == "trace"
    ensures l == Debug ==> r == "debug"
    ensures l == Info ==> r == "info"
    ensures l == Warn ==> r == "warn"
    ensures l == Error ==> r == "error"
    ensures IsDefined(l) <==> r != "unknown"
    ensures IsDefined(l) ==> r in LevelNames && r != "warning" && NoUpper(r)
  {
    if l == Trace then "trace"
    else if l == Debug then "debug"
    else if l == Info then "info"
    else if l == Warn then "warn"
    else if l == Error then "error"
    else "unknown"
  }

  /** Formatting then parsing a defined level gives it back. */
  lemma ParseString(l: Level)
    requires IsDefined(l)
    ensures ParseLevel(String(l)) == (l, true)
  {
    LowerOfLower(String(l));
  }

  /** Parsing ignores case: two names equal up to case parse alike. */
  lemma ParseIgnoresCase(a: string, b: string)
    requires ToLower(a) == ToLower(b)
    ensures ParseLevel(a) == ParseLevel(b)
  {
  }

  /** Every successful parse names the level whose String is the lower-cased input, except the "warning" alias. */
  lemma ParseThenString(name: string)
    requires ParseLevel(name).1
    ensures var lower := ToLower(name);
            String(ParseLevel(name).0) == (if lower == "warning" then "warn" else lower)
  {
  }

  /**
    The names the parser accepts, in any case, and the level each one gives:
    "warn" and "warning" both give Warn.
   */
  lemma ParseLevelNames()
    ensures ParseLevel("TRACE") == (Trace, true)
    ensures ParseLevel("Debug") == (Debug, true)
    ensures ParseLevel("info") == (Info, true)
    ensures ParseLevel("warn") == (Warn, true)
    ensures ParseLevel("warning") == (Warn, true)
    ensures ParseLevel("WARNING") == (Warn, true)
    ensures ParseLevel("error") == (Error, true)
    ensures ParseLevel("unknown") == (Undefined, false)
  {
    LowerOfLower("info");
    LowerOfLower("warn");
    LowerOfLower("warning");
    LowerOfLower("error");
    LowerOfLower("unknown");
    assert ToLower("TRACE") == "trace";
    assert ToLower("Debug") == "debug";
    assert ToLower("WARNING") == "warning";
  }

  /** String is injective on the defined levels. */
  lemma StringInjective(a: Level, b: Level)
    requires IsDefined(a) && IsDefined(b) && String(a) == String(b)
    ensures a == b
  {
    ParseString(a);
    ParseString(b);
  }

  /**
    A variable of type Level: the `*Level` receiver of UnmarshalText.
   */
  class LevelVar {
    var value: Level

    constructor (l: Level)
      ensures value == l
    {
      value := l;
    }

    /**
      UnmarshalText: sets the receiver exactly when ParseLevel succeeds, and
      otherwise reports an "undefined level" error and leaves it unchanged.
     */
    method UnmarshalText(text: string) returns (err: Option<string>)
      modifies this
      ensures ParseLevel(text).1 ==> err.None? && value == ParseLevel(text).0
      ensures !ParseLevel(text).1 ==> err == Some("undefined level: \"" + text + "\"") && value == old(value)
    {
      var parsed := ParseLevel(text);
      if !parsed.1 {
        return Some("undefined level: \"" + text + "\"");
      }
      value := parsed.0;
      err := None;
    }
  }

  /**
    LevelFunc: the level of the logger method it selects; each defined level selects
    its own method and every other value falls back to Info.
   */
  function LevelFunc(level: Level): (selected: Level)
    ensures IsDefined(selected)
    ensures IsDefined(level) ==> selected == level
    ensures !IsDefined(level) ==> selected == Info
  {
    if level == Trace then Trace
    else if level == Debug then Debug
    else if level == Info then Info
    else if level == Warn then Warn
    else if level == Error then Error
    else Info
  }

  /** A LevelEnabler: the LevelEnabled method of a logger that has one. */
  type Enabler = Level -> bool

  /**
    The LevelEnabler contract for a logger whose minimum level is `min`: a defined
    level is enabled iff it is at or above the minimum, and a level the logger
    cannot judge is reported enabled.
   */
  ghost predicate ConformsToMinimum(e: Enabler, min: Level) {
    forall l :: e(l) == (!IsDefined(l) || min <= l)
  }

  /**
    An enabler that follows the contract for minimum `min`; a helper for the
    scenarios, since the facade itself only declares the interface.
   */
  function MinimumEnabler(min: Level): (e: Enabler)
    ensures ConformsToMinimum(e, min)
  {
    l => !IsDefined(l) || min <= l
  }

  /** A conforming enabler is monotone on defined levels and reports Level(999) enabled. */
  lemma ConformingEnablerMonotone(e: Enabler, min: Level, a: Level, b: Level)
    requires ConformsToMinimum(e, min)
    requires IsDefined(b) && a <= b && e(a)
    ensures e(b) && e(Undefined)
  {
  }

  /**
    levelEnabled of the field wrappers: ask the captured LevelEnabler if there is
    one, and report enabled otherwise.
   */
  predicate LevelEnabled(enabler: Option<Enabler>, level: Level) {
    match enabler
    case None => true
    case Some(e) => e(level)
  }
}
