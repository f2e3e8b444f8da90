/**
 * RackRabbit::Config: the `@options` hash, the option and hook accessors that
 * update it in place, `validate`, `reload` and construction.
 *
 * The config script that reload evaluates is modelled as the sequence of
 * option sets and hook registrations it performs, and the file system as the
 * paths that exist, the paths that are readable and the scripts files hold.
 */
module RackRabbit {
  import opened Wrappers
  import opened Values
  import opened Levels
  import opened Resolution
  import opened Validation

  /** A statement of a config script: an option accessor called with a value, or a hook given a block. */
  datatype Command = SetOption(option: OptionName, value: Value) | RegisterHook(hook: HookName, block: nat)

  /** A config script: the statements it runs, and whether it raises after them. */
  datatype Script = Script(commands: seq<Command>, raises: bool)

  /** What File.exists?, File.readable? and File.read report. */
  datatype FileSystem = FileSystem(existing: set<string>, readable: set<string>, contents: map<string, Script>)

  /** One statement of a script run against the hash. */
  function Perform(m: Options, c: Command): Step {
    match c
    case SetOption(o, value) =>
      var a := Accessor(m, o, value);
      Step(a.opts, a.realized)
    case RegisterHook(h, block) => Step(m[HookKey(h) := Proc(block)], [])
  }

  /** The statements of a script run in order. */
  function Exec(m: Options, commands: seq<Command>): Step {
    if commands == [] then Step(m, [])
    else
      var before := Exec(m, commands[..|commands| - 1]);
      var last := Perform(before.opts, commands[|commands| - 1]);
      Step(last.opts, before.realized + last.realized)
  }

  function After(realized: seq<OptionName>, run: Run): Run {
    Run(run.opts, realized + run.realized, run.outcome)
  }

  /**
   * The first line of reload: when config_file resolves to a truthy value
   * naming an existing file, run the script it holds. File.exists? and
   * File.read take a path-like config_file; instance_eval then needs its file
   * name as a String, and raises TypeError for one that only responds to
   * to_path. The outcome is Pass when reload goes on to validate.
   */
  function Load(m: Options, fs: FileSystem): Run {
    var configFile := Get(m, ConfigFile);
    var value := configFile.value;
    if !Truthy(value) then Run(configFile.opts, configFile.realized, Pass)
    else if PathText(value).None? then Run(configFile.opts, configFile.realized, Fail(TypeError))
    else
      var path := PathText(value).value;
      if path !in fs.existing then Run(configFile.opts, configFile.realized, Pass)
      else if path !in fs.contents then Run(configFile.opts, configFile.realized, Fail(ReadError))
      else if StringText(value).None? then Run(configFile.opts, configFile.realized, Fail(TypeError))
      else
        var script := fs.contents[path];
        var ran := Exec(configFile.opts, script.commands);
        Run(ran.opts, configFile.realized + ran.realized, if script.raises then Fail(ScriptError) else Pass)
  }

  /** reload: load the config script, then validate unless loading raised. */
  function ReloadRun(m: Options, fs: FileSystem): Run {
    var loaded := Load(m, fs);
    if loaded.outcome.Fail? then loaded
    else After(loaded.realized, ValidationRun(loaded.opts, fs.readable))
  }

  /**
   * When config_file is unset, false, or names a file that does not exist,
   * reload runs no script: it validates the options as they stand, and leaves
   * every option resolving to what it did before.
   */
  lemma ReloadWithoutScript(m: Options, fs: FileSystem)
    requires var value := Resolved(m, ConfigFile);
             !Truthy(value) || (PathText(value).Some? && PathText(value).value !in fs.existing)
    ensures ReloadRun(m, fs).outcome == Verdict(ResolvedView(m), fs.readable)
    ensures forall o :: Resolved(ReloadRun(m, fs).opts, o) == Resolved(m, o)
  {
    var read := Get(m, ConfigFile);
    assert Load(m, fs) == Run(read.opts, read.realized, Pass);
    var run := ValidationRun(read.opts, fs.readable);
    assert ReloadRun(m, fs) == After(read.realized, run);
    forall o ensures Resolved(read.opts, o) == Resolved(m, o) {
      GetPreservesResolution(m, ConfigFile, o);
    }
    assert ResolvedView(read.opts) == ResolvedView(m);
    forall o ensures Resolved(run.opts, o) == Resolved(m, o) {
      ValidationPreservesResolution(read.opts, fs.readable, o);
    }
  }

  /** A configuration created without options is valid exactly when config.ru is readable. */
  lemma FreshConfigIsValid(fs: FileSystem)
    ensures ReloadRun(map[], fs).outcome == Pass <==> "config.ru" in fs.readable
  {
    ReloadWithoutScript(map[], fs);
    DefaultsPass(map[], fs.readable);
  }

  /**
   * An option the config script sets last, to anything but nil, is what that
   * option resolves to after reload, whether or not validation then passes.
   */
  lemma ScriptSetSticks(m: Options, fs: FileSystem, o: OptionName, v: Value)
    requires var path := StringText(Resolved(m, ConfigFile));
             path.Some? && path.value in fs.existing && path.value in fs.contents &&
             var commands := fs.contents[path.value].commands;
             |commands| > 0 && commands[|commands| - 1] == SetOption(o, v)
    requires v != NotProvided && v != Nil
    ensures Resolved(ReloadRun(m, fs).opts, o) == v
  {
    var read := Get(m, ConfigFile);
    var loaded := Load(m, fs);
    assert Resolved(loaded.opts, o) == v;
    if loaded.outcome.Pass? {
      ValidationPreservesResolution(loaded.opts, fs.readable, o);
    }
  }

  /**
   * When config_file names an existing script that runs without raising,
   * reload validates the options as that script left them.
   */
  lemma ReloadWithScript(m: Options, fs: FileSystem)
    requires var path := StringText(Resolved(m, ConfigFile));
             path.Some? && path.value in fs.existing && path.value in fs.contents &&
             !fs.contents[path.value].raises
    ensures var script := fs.contents[StringText(Resolved(m, ConfigFile)).value];
            var ran := Exec(Get(m, ConfigFile).opts, script.commands);
            ReloadRun(m, fs).outcome == Verdict(ResolvedView(ran.opts), fs.readable)
  {
    var value := Resolved(m, ConfigFile);
    assert PathText(value) == StringText(value);
  }

  /**
   * A config_file that File.exists? and File.read accept through to_path but
   * that is no String, such as a Pathname, makes instance_eval raise TypeError
   * before any statement of the script runs.
   */
  lemma PathOnlyConfigFileRunsNoScript(m: Options, fs: FileSystem)
    requires var value := Resolved(m, ConfigFile);
             RespondsTo(value, "to_path") && !RespondsTo(value, "to_str") &&
             PathText(value).value in fs.existing && PathText(value).value in fs.contents
    ensures ReloadRun(m, fs) == Run(Get(m, ConfigFile).opts, Get(m, ConfigFile).realized, Fail(TypeError))
  {
  }

  /** Regrouping the log of realized defaults; a proof hint for the methods below. */
  lemma AppendAssociative(a: seq<OptionName>, b: seq<OptionName>, c: seq<OptionName>)
    ensures (a + b) + c == a + (b + c)
  {
  }

  class Config {
    /** `@options`: option values and hook blocks, keyed by name. */
    var options: Options
    /** Every default realized so far, in the order they were stored. */
    ghost var Realized: seq<OptionName>
    /** Every call a hook made to a stored block, with its arguments. */
    ghost var Calls: seq<(Value, seq<Value>)>
    /** What calling a callable value with these arguments returns. */
    const Blocks: (Value, seq<Value>) -> Value

    /** `@options = options || {}` */
    constructor (initial: Option<Options>, blocks: (Value, seq<Value>) -> Value)
      ensures options == (if initial.Some? then initial.value else map[])
      ensures Realized == [] && Calls == [] && Blocks == blocks
    {
      options := if initial.Some? then initial.value else map[];
      Realized := [];
      Calls := [];
      Blocks := blocks;
    }

    /** `Config.new(options)`: initialize, then reload. */
    static method Create(initial: Option<Options>, fs: FileSystem, blocks: (Value, seq<Value>) -> Value)
      returns (config: Config, r: Outcome<ConfigError>)
      ensures fresh(config)
      ensures var run := ReloadRun(if initial.Some? then initial.value else map[], fs);
              config.options == run.opts && r == run.outcome && config.Realized == run.realized
      ensures config.Calls == [] && config.Blocks == blocks
    {
      config := new Config(initial, blocks);
      r := config.Reload(fs);
    }

    /** The accessor has_option generates for `o`; `value` is NotProvided in get mode. */
    method Access(o: OptionName, value: Value) returns (r: Value)
      modifies this
      decreases Rank(o), 1
      ensures var a := Accessor(old(options), o, value);
              options == a.opts && r == a.value && Realized == old(Realized) + a.realized
      ensures Calls == old(Calls)
    {
      var key := OptionKey(o);
      if value != NotProvided {
        options := options[key := value];
      } else if Lookup(options, key) == Nil {
        match DefaultFor(o)
        case Literal(d) =>
          options := options[key := d];
          Realized := Realized + [o];
        case BuildLogger =>
          var logger := BuildDefaultLogger();
          options := options[key := logger];
          Realized := Realized + [o];
      }
      r := Lookup(options, key);
    }

    /** build_default_logger, reduced to the level it chooses from log_level. */
    method BuildDefaultLogger() returns (logger: Value)
      modifies this
      decreases 1, 0
      ensures var level := Get(old(options), LogLevel);
              options == level.opts && logger == DefaultLogger(LevelFor(level.value)) &&
              Realized == old(Realized) + level.realized
      ensures Calls == old(Calls)
    {
      var level := Access(LogLevel, NotProvided);
      logger := DefaultLogger(LevelFor(level));
    }

    /**
     * The accessor has_hook generates for `h`. Given a block it stores it and
     * calls nothing; without one it calls the stored value with exactly
     * `params` when that value responds to call, and otherwise returns nil.
     */
    method Hook(h: HookName, params: seq<Value>, block: Option<nat>) returns (r: Value)
      modifies this
      ensures block.Some? ==>
                options == old(options)[HookKey(h) := Proc(block.value)] &&
                r == Proc(block.value) && Calls == old(Calls)
      ensures block.None? ==> options == old(options)
      ensures block.None? && RespondsTo(Lookup(old(options), HookKey(h)), "call") ==>
                r == Blocks(Lookup(old(options), HookKey(h)), params) &&
                Calls == old(Calls) + [(Lookup(old(options), HookKey(h)), params)]
      ensures block.None? && !RespondsTo(Lookup(old(options), HookKey(h)), "call") ==>
                r == Nil && Calls == old(Calls)
      ensures Realized == old(Realized)
    {
      var key := HookKey(h);
      if block.Some? {
        options := options[key := Proc(block.value)];
        r := Proc(block.value);
      } else if RespondsTo(Lookup(options, key), "call") {
        var callable := Lookup(options, key);
        Calls := Calls + [(callable, params)];
        r := Blocks(callable, params);
      } else {
        r := Nil;
      }
    }

    /**
     * Reads the next option in the order validate reads them, through its
     * accessor; the value read is what that option resolved to before
     * validation started.
     */
    method ReadNext(ghost m0: Options, ghost realized0: seq<OptionName>, k: nat) returns (value: Value)
      requires k < |ValidationOrder|
      requires options == ReadsUpTo(m0, k).opts
      requires Realized == realized0 + ReadsUpTo(m0, k).realized
      modifies this
      ensures options == ReadsUpTo(m0, k + 1).opts
      ensures Realized == realized0 + ReadsUpTo(m0, k + 1).realized
      ensures value == Resolved(m0, ValidationOrder[k])
      ensures Calls == old(Calls)
    {
      var o := ValidationOrder[k];
      ghost var before := ReadsUpTo(m0, k);
      ReadsPreserveResolution(m0, k, o);
      value := Access(o, NotProvided);
      AppendAssociative(realized0, before.realized, Get(before.opts, o).realized);
    }

    /**
     * validate: reads rack_file, workers, min_workers, max_workers and logger
     * through their accessors, in that order, and stops at the first check that
     * fails. Re-reading an option it has already read returns the same value and
     * changes nothing, so the comparisons use the values read first.
     */
    method Validate(readable: set<string>) returns (r: Outcome<ConfigError>)
      modifies this
      ensures var run := ValidationRun(old(options), readable);
              options == run.opts && r == run.outcome && Realized == old(Realized) + run.realized
      ensures Calls == old(Calls)
    {
      ghost var m0, realized0 := options, Realized;
      var rackFile := ReadNext(m0, realized0, 0);
      var path := PathText(rackFile);
      if path.None? {
        ValidationRunReads(m0, readable, 1);
        return Fail(TypeError);
      }
      if path.value !in readable {
        ValidationRunReads(m0, readable, 1);
        return Fail(ArgumentError("missing rack config file " + path.value));
      }
      r := ValidateWorkers(m0, realized0, readable);
    }

    /** The worker checks of validate, once rack_file has passed. */
    method ValidateWorkers(ghost m0: Options, ghost realized0: seq<OptionName>, readable: set<string>)
      returns (r: Outcome<ConfigError>)
      requires options == ReadsUpTo(m0, 1).opts && Realized == realized0 + ReadsUpTo(m0, 1).realized
      requires ReadCount(ResolvedView(m0), readable) > 1
      modifies this
      ensures var run := ValidationRun(m0, readable);
              options == run.opts && r == run.outcome && Realized == realized0 + run.realized
      ensures Calls == old(Calls)
    {
      ghost var view := ResolvedView(m0);
      var workers := ReadNext(m0, realized0, 1);
      assert workers == view.workers;
      if !IsFixnum(workers) {
        ValidationRunReads(m0, readable, 2);
        return Fail(ArgumentError("invalid workers"));
      }
      var minWorkers := ReadNext(m0, realized0, 2);
      assert minWorkers == view.minWorkers;
      if !IsFixnum(minWorkers) {
        ValidationRunReads(m0, readable, 3);
        return Fail(ArgumentError("invalid min_workers"));
      }
      var maxWorkers := ReadNext(m0, realized0, 3);
      assert maxWorkers == view.maxWorkers;
      if !IsFixnum(maxWorkers) {
        ValidationRunReads(m0, readable, 4);
        return Fail(ArgumentError("invalid max_workers"));
      }
      if workers.i < minWorkers.i {
        ValidationRunReads(m0, readable, 4);
        return Fail(ArgumentError("invalid workers < min_workers"));
      }
      if workers.i > maxWorkers.i {
        ValidationRunReads(m0, readable, 4);
        return Fail(ArgumentError("invalid workers > max_workers"));
      }
      if minWorkers.i > maxWorkers.i {
        return Fail(ArgumentError("invalid min_workers > max_workers"));
      }
      r := ValidateLogger(m0, realized0, readable);
    }

    /** The last check of validate, once every worker check has passed. */
    method ValidateLogger(ghost m0: Options, ghost realized0: seq<OptionName>, readable: set<string>)
      returns (r: Outcome<ConfigError>)
      requires options == ReadsUpTo(m0, 4).opts && Realized == realized0 + ReadsUpTo(m0, 4).realized
      requires ReadCount(ResolvedView(m0), readable) == 5
      modifies this
      ensures var run := ValidationRun(m0, readable);
              options == run.opts && r == run.outcome && Realized == realized0 + run.realized
      ensures Calls == old(Calls)
    {
      ghost var view := ResolvedView(m0);
      var logger := ReadNext(m0, realized0, 4);
      assert logger == view.logger;
      LoggerDecides(view, readable);
      ValidationRunReads(m0, readable, 5);
      if !HasLogMethods(logger) {
        return Fail(ArgumentError("invalid logger"));
      }
      return Pass;
    }

    /** Runs the statements of a config script against this configuration, in order. */
    method RunScript(commands: seq<Command>)
      modifies this
      ensures var ran := Exec(old(options), commands);
              options == ran.opts && Realized == old(Realized) + ran.realized
      ensures Calls == old(Calls)
    {
      var i := 0;
      while i < |commands|
        invariant 0 <= i <= |commands|
        invariant var ran := Exec(old(options), commands[..i]);
                  options == ran.opts && Realized == old(Realized) + ran.realized
        invariant Calls == old(Calls)
      {
        ghost var before := Exec(old(options), commands[..i]);
        ghost var step := Perform(before.opts, commands[i]);
        assert commands[..i + 1][..i] == commands[..i] && commands[..i + 1][i] == commands[i];
        match commands[i] {
          case SetOption(o, value) =>
            var ignored := Access(o, value);
          case RegisterHook(h, block) =>
            var ignored := Hook(h, [], Some(block));
        }
        AppendAssociative(old(Realized), before.realized, step.realized);
        i := i + 1;
      }
      assert commands[..i] == commands;
    }

    /** The first line of reload: run the config script, if config_file names one that exists. */
    method LoadConfigFile(fs: FileSystem) returns (r: Outcome<ConfigError>)
      modifies this
      ensures var loaded := Load(old(options), fs);
              options == loaded.opts && r == loaded.outcome && Realized == old(Realized) + loaded.realized
      ensures Calls == old(Calls)
    {
      ghost var realized0 := Realized;
      var configFile := Access(ConfigFile, NotProvided);
      r := Pass;
      if Truthy(configFile) {
        if PathText(configFile).None? {
          return Fail(TypeError);
        }
        var path := PathText(configFile).value;
        if path in fs.existing {
          if path !in fs.contents {
            return Fail(ReadError);
          }
          if StringText(configFile).None? {
            return Fail(TypeError);
          }
          var script := fs.contents[path];
          ghost var read := Get(old(options), ConfigFile);
          RunScript(script.commands);
          AppendAssociative(realized0, read.realized, Exec(read.opts, script.commands).realized);
          if script.raises {
            r := Fail(ScriptError);
          }
        }
      }
    }

    /** reload: run the config script if there is one, then validate. */
    method Reload(fs: FileSystem) returns (r: Outcome<ConfigError>)
      modifies this
      ensures var run := ReloadRun(old(options), fs);
              options == run.opts && r == run.outcome && Realized == old(Realized) + run.realized
      ensures Calls == old(Calls)
    {
      ghost var realized0 := Realized;
      r := LoadConfigFile(fs);
      if r.Fail? {
        return;
      }
      ghost var loaded := Load(old(options), fs);
      r := Validate(fs.readable);
      AppendAssociative(realized0, loaded.realized, ValidationRun(loaded.opts, fs.readable).realized);
    }
  }
}
