/**
 * The log-level mapping of build_default_logger: the resolved log_level is
 * turned into text, lower-cased and matched against the five severity names;
 * anything else means INFO.
 */
module Levels {
  import opened Wrappers
  import opened Values

  /** Lower-cases one ASCII letter and leaves every other character alone. */
  function Lower(c: char): char {
    if 'A' <= c <= 'Z' then (c as int + 32) as char else c
  }

  /** `String#downcase`. */
  function Downcase(s: string): (r: string)
    ensures |r| == |s|
    ensures forall i :: 0 <= i < |s| ==> r[i] == Lower(s[i])
  {
    if s == [] then [] else [Lower(s[0])] + Downcase(s[1..])
  }

  /** The two strings are equal once case is ignored. */
  predicate SameIgnoringCase(s: string, t: string) {
    |s| == |t| && forall i :: 0 <= i < |s| ==> Lower(s[i]) == Lower(t[i])
  }

  /** The name a severity is selected by. */
  function Name(sev: Severity): string {
    match sev
    case Fatal => "fatal"
    case Error => "error"
    case Warn => "warn"
    case Info => "info"
    case Debug => "debug"
  }

  /**
   * `v.to_s` for the values whose text can spell a severity name. The text of
   * nil (""), true, false, an integer, a proc and a logger never does.
   */
  function Text(v: Value): Option<string> {
    match v
    case Str(s) => Some(s)
    case Sym(name) => Some(name)
    case Object(_, text) => Some(text)
    case _ => None
  }

  /** The `case` over the lower-cased name. */
  function Named(name: string): Severity {
    if name == "fatal" then Fatal
    else if name == "error" then Error
    else if name == "warn" then Warn
    else if name == "info" then Info
    else if name == "debug" then Debug
    else Info
  }

  /** The severity build_default_logger gives a logger for this log_level. */
  function LevelFor(logLevel: Value): Severity {
    match Text(logLevel)
    case Some(s) => Named(Downcase(s))
    case None => Info
  }

  /** The value spells the name, ignoring case. */
  predicate Spells(v: Value, name: string) {
    Text(v).Some? && SameIgnoringCase(Text(v).value, name)
  }

  /** Strings that agree up to case lower-case to the same string. */
  lemma {:induction false} DowncaseIgnoresCase(s: string, t: string)
    requires SameIgnoringCase(s, t)
    ensures Downcase(s) == Downcase(t)
  {
    var ds, dt := Downcase(s), Downcase(t);
    assert |ds| == |dt|;
    forall i | 0 <= i < |ds| ensures ds[i] == dt[i] {
      assert ds[i] == Lower(s[i]) && dt[i] == Lower(t[i]);
    }
  }

  /** A string lower-cases to a lower-case name exactly when it spells that name. */
  lemma {:induction false} DowncaseMatches(s: string, name: string)
    requires forall i :: 0 <= i < |name| ==> Lower(name[i]) == name[i]
    ensures Downcase(s) == name <==> SameIgnoringCase(s, name)
  {
    if SameIgnoringCase(s, name) {
      var d := Downcase(s);
      assert |d| == |name|;
      forall i | 0 <= i < |d| ensures d[i] == name[i] {
        assert d[i] == Lower(s[i]) == Lower(name[i]);
      }
    }
    if Downcase(s) == name {
      forall i | 0 <= i < |s| ensures Lower(s[i]) == Lower(name[i]) {
        assert Downcase(s)[i] == Lower(s[i]);
      }
    }
  }

  /** The level does not depend on case, nor on whether log_level is a String or a Symbol. */
  lemma LevelIgnoresCase(s: string, t: string)
    requires SameIgnoringCase(s, t)
    ensures LevelFor(Str(s)) == LevelFor(Str(t)) == LevelFor(Sym(s)) == LevelFor(Sym(t))
  {
    DowncaseIgnoresCase(s, t);
  }

  /** The severity names are written in lower case. */
  lemma NameIsLowerCase(sev: Severity)
    ensures forall i :: 0 <= i < |Name(sev)| ==> Lower(Name(sev)[i]) == Name(sev)[i]
  {
    match sev
    case Fatal => assert Name(sev) == ['f', 'a', 't', 'a', 'l'];
    case Error => assert Name(sev) == ['e', 'r', 'r', 'o', 'r'];
    case Warn => assert Name(sev) == ['w', 'a', 'r', 'n'];
    case Info => assert Name(sev) == ['i', 'n', 'f', 'o'];
    case Debug => assert Name(sev) == ['d', 'e', 'b', 'u', 'g'];
  }

  /** The `case` gives each severity for its own name. */
  lemma NamedName(sev: Severity)
    ensures Named(Name(sev)) == sev
  {
    var n := Name(sev);
    match sev
    case Fatal =>
    case Error => assert n[0] != "fatal"[0];
    case Warn => assert n[0] != "fatal"[0] && n[0] != "error"[0];
    case Info => assert n[0] != "fatal"[0] && n[0] != "error"[0] && n[0] != "warn"[0];
    case Debug => assert n[0] != "fatal"[0] && n[0] != "error"[0] && n[0] != "warn"[0] && n[0] != "info"[0];
  }

  /** The `case` picks a severity exactly for its name, and INFO for any other text. */
  lemma NamedPicks(name: string, sev: Severity)
    ensures Named(name) == sev <==> name == Name(sev) || (sev == Info && forall other :: name != Name(other))
  {
    NamedName(sev);
    forall other | name == Name(other) ensures Named(name) == other {
      NamedName(other);
    }
    if forall other :: name != Name(other) {
      assert name != Name(Fatal) && name != Name(Error) && name != Name(Warn);
      assert name != Name(Info) && name != Name(Debug);
    }
  }

  /**
   * Each severity is chosen exactly when log_level spells its name, ignoring
   * case; INFO is chosen as well when log_level spells none of the five.
   */
  lemma LevelForSpelled(v: Value, sev: Severity)
    ensures LevelFor(v) == sev <==>
              Spells(v, Name(sev)) || (sev == Info && forall other :: !Spells(v, Name(other)))
  {
    if Text(v).Some? {
      var s := Text(v).value;
      forall other ensures Spells(v, Name(other)) <==> Downcase(s) == Name(other) {
        NameIsLowerCase(other);
        DowncaseMatches(s, Name(other));
      }
      NamedPicks(Downcase(s), sev);
    }
  }
}
