/**
 * The accessors that has_option generates. An accessor called with an
 * argument other than :not_provided stores it (set mode); called without one
 * it returns the stored value, first filling a nil slot from the option's
 * default and memoizing it (get mode).
 *
 * `Resolved` says declaratively what an option resolves to; `Get` is the
 * memoizing read, which changes the hash, and is proved to return that value
 * and to leave the resolution of every option unchanged.
 */
module Resolution {
  import opened Values
  import opened Levels

  /** A default: a literal, or the one computed default, build_default_logger. */
  datatype Default = Literal(value: Value) | BuildLogger

  /** The defaults declared with has_option. */
  function DefaultFor(o: OptionName): Default {
    match o
    case ConfigFile => Literal(Nil)
    case RackFile => Literal(Str("config.ru"))
    case Queue => Literal(Str("rack-rabbit"))
    case AppId => Literal(Str("rack-rabbit"))
    case Workers => Literal(Int(2))
    case MinWorkers => Literal(Int(1))
    case MaxWorkers => Literal(Int(100))
    case PreloadApp => Literal(Bool(false))
    case LogLevel => Literal(Sym("info"))
    case Logger => BuildLogger
  }

  /** The logger's default reads log_level, so it ranks above every other option. */
  function Rank(o: OptionName): nat {
    if o == Logger then 1 else 0
  }

  /**
   * The value an option resolves to: the stored value unless that is nil,
   * otherwise its default, where the default logger takes its level from the
   * resolved log_level.
   */
  function Resolved(m: Options, o: OptionName): Value
    decreases Rank(o)
  {
    var stored := Lookup(m, OptionKey(o));
    if stored != Nil then stored
    else match o
      case Logger => DefaultLogger(LevelFor(Resolved(m, LogLevel)))
      case _ => DefaultFor(o).value
  }

  /** The hash after an accessor call, what the call returned, and which defaults it ran, in order. */
  datatype Read = Read(opts: Options, value: Value, realized: seq<OptionName>)

  /** The key belongs to one of these options. */
  predicate Written(key: Key, os: seq<OptionName>) {
    key.OptionKey? && key.option in os
  }

  /** Get mode of an option accessor. */
  function Get(m: Options, o: OptionName): (r: Read)
    decreases Rank(o)
    ensures r.value == Resolved(m, o)
    ensures OptionKey(o) in r.opts && r.opts[OptionKey(o)] == r.value
    ensures Lookup(m, OptionKey(o)) != Nil ==> r.opts == m && r.realized == []
    ensures o in r.realized <==> Lookup(m, OptionKey(o)) == Nil
  {
    var stored := Lookup(m, OptionKey(o));
    if stored != Nil then Read(m, stored, [])
    else match DefaultFor(o)
      case Literal(d) => Read(m[OptionKey(o) := d], d, [o])
      case BuildLogger =>
        var level := Get(m, LogLevel);
        var logger := DefaultLogger(LevelFor(level.value));
        Read(level.opts[OptionKey(o) := logger], logger, level.realized + [o])
  }

  /** An option accessor called with `value`, which is :not_provided in get mode. */
  function Accessor(m: Options, o: OptionName, value: Value): Read {
    if value != NotProvided then Read(m[OptionKey(o) := value], value, [])
    else Get(m, o)
  }

  /** The hash after several accessor calls, and the defaults those calls ran. */
  datatype Step = Step(opts: Options, realized: seq<OptionName>)

  /**
   * A read changes only the keys of the options whose defaults it ran, and
   * those now hold what the options resolved to.
   */
  lemma {:induction false} GetFrame(m: Options, o: OptionName)
    decreases Rank(o)
    ensures var r := Get(m, o);
            forall x :: x in r.realized ==>
              Lookup(m, OptionKey(x)) == Nil && Lookup(r.opts, OptionKey(x)) == Resolved(m, x)
    ensures var r := Get(m, o);
            forall key :: !Written(key, r.realized) ==>
              (key in r.opts <==> key in m) && (key in m ==> r.opts[key] == m[key])
  {
    if Lookup(m, OptionKey(o)) == Nil {
      match DefaultFor(o)
      case Literal(d) =>
        assert Get(m, o) == Read(m[OptionKey(o) := d], d, [o]);
      case BuildLogger =>
        GetFrame(m, LogLevel);
    }
  }

  /** Reading one option leaves every option resolving to what it did before. */
  lemma {:induction false} GetPreservesResolution(m: Options, o: OptionName, other: OptionName)
    decreases Rank(other)
    ensures Resolved(Get(m, o).opts, other) == Resolved(m, other)
  {
    var r := Get(m, o);
    var k := OptionKey(other);
    GetFrame(m, o);
    if other in r.realized {
      assert Lookup(r.opts, k) == Resolved(m, other);
      if other == Logger {
        assert Lookup(r.opts, k).DefaultLogger?;
      }
    } else {
      assert !Written(k, r.realized);
      if other == Logger {
        GetPreservesResolution(m, o, LogLevel);
      }
    }
  }

  /**
   * A second read with no set in between returns the same value and leaves the
   * hash as the first left it. It runs no default unless the value is nil: only
   * config_file, whose default is nil, runs its default again.
   */
  lemma GetIsMemoized(m: Options, o: OptionName)
    ensures var first := Get(m, o); var second := Get(first.opts, o);
            second.opts == first.opts && second.value == first.value &&
            (second.realized == [] <==> first.value != Nil)
  {
    var first := Get(m, o);
    var second := Get(first.opts, o);
    if first.value == Nil {
      assert second.opts == first.opts[OptionKey(o) := Nil];
    }
  }

  /**
   * Set mode stores the argument verbatim, returns it, runs no default and
   * leaves every other key as it was.
   */
  lemma SetStoresVerbatim(m: Options, o: OptionName, value: Value)
    requires value != NotProvided
    ensures var s := Accessor(m, o, value);
            s.value == value && s.realized == [] &&
            Lookup(s.opts, OptionKey(o)) == value &&
            forall k :: k != OptionKey(o) ==> Lookup(s.opts, k) == Lookup(m, k)
  {
  }

  /**
   * An explicit non-nil value set before the first read is what every later
   * read returns; its default never runs.
   */
  lemma SetBypassesDefault(m: Options, o: OptionName, value: Value)
    requires value != NotProvided && value != Nil
    ensures var s := Accessor(m, o, value); Get(s.opts, o) == Read(s.opts, value, [])
  {
  }

  /**
   * An explicitly set nil is not told apart from "never resolved": the next
   * read runs the default again and returns what the option would resolve to
   * had it never been set.
   */
  lemma SetNilIsReResolved(m: Options, o: OptionName)
    ensures var g := Get(Accessor(m, o, Nil).opts, o);
            o in g.realized && g.value == Resolved(m - {OptionKey(o)}, o)
  {
    var s := Accessor(m, o, Nil);
    var unset := m - {OptionKey(o)};
    assert Lookup(s.opts, OptionKey(LogLevel)) == Lookup(unset, OptionKey(LogLevel)) || o == LogLevel;
    if o == Logger {
      assert Resolved(s.opts, LogLevel) == Resolved(unset, LogLevel);
    }
  }

  /**
   * Setting one option leaves the resolution of every other option alone,
   * except that an unset logger follows a new log_level. A logger already
   * stored keeps its level whatever log_level is set to later.
   */
  lemma SetKeepsOtherResolutions(m: Options, o: OptionName, value: Value, other: OptionName)
    requires other != o
    requires !(o == LogLevel && other == Logger && Lookup(m, OptionKey(Logger)) == Nil)
    ensures Resolved(Accessor(m, o, value).opts, other) == Resolved(m, other)
  {
    if value == NotProvided {
      GetPreservesResolution(m, o, other);
    } else {
      var after := m[OptionKey(o) := value];
      assert Lookup(after, OptionKey(other)) == Lookup(m, OptionKey(other));
      if other == Logger && Lookup(m, OptionKey(Logger)) == Nil {
        assert Lookup(after, OptionKey(LogLevel)) == Lookup(m, OptionKey(LogLevel));
      }
    }
  }

  /**
   * The default logger reads log_level through its accessor: an unset logger
   * resolves to a logger whose level is the one the most recently set
   * log_level names (a nil log_level falls back to :info).
   */
  lemma LoggerFollowsLogLevel(m: Options, level: Value)
    requires Lookup(m, OptionKey(Logger)) == Nil
    requires level != NotProvided
    ensures Resolved(Accessor(m, LogLevel, level).opts, Logger) ==
            DefaultLogger(LevelFor(if level == Nil then Sym("info") else level))
  {
    var after := Accessor(m, LogLevel, level).opts;
    assert Lookup(after, OptionKey(Logger)) == Nil && Lookup(after, OptionKey(LogLevel)) == level;
  }
}
