/**
 * `validate`: an ordered chain of checks over the resolved configuration that
 * raises ArgumentError on the first one that fails. It reads the options
 * through their accessors, so it also memoizes the defaults it reads.
 */
module Validation {
  import opened Wrappers
  import opened Values
  import opened Resolution

  /** The values validate reads, once resolved. */
  datatype View = View(rackFile: Value, workers: Value, minWorkers: Value, maxWorkers: Value, logger: Value)

  function ResolvedView(m: Options): View {
    View(Resolved(m, RackFile), Resolved(m, Workers), Resolved(m, MinWorkers),
         Resolved(m, MaxWorkers), Resolved(m, Logger))
  }

  /** The logger responds to all five logging methods. */
  predicate HasLogMethods(logger: Value) {
    RespondsTo(logger, "fatal") && RespondsTo(logger, "error") && RespondsTo(logger, "warn") &&
    RespondsTo(logger, "info") && RespondsTo(logger, "debug")
  }

  /**
   * The chain of checks, in source order. File.readable? raises TypeError on a
   * rack_file it cannot take as a path. The message interpolates rack_file's
   * to_s, which for a String or a path-like object is its path.
   */
  function Verdict(v: View, readable: set<string>): Outcome<ConfigError> {
    if PathText(v.rackFile).None? then Fail(TypeError)
    else if PathOf(v.rackFile) !in readable then Fail(ArgumentError("missing rack config file " + PathOf(v.rackFile)))
    else if !IsFixnum(v.workers) then Fail(ArgumentError("invalid workers"))
    else if !IsFixnum(v.minWorkers) then Fail(ArgumentError("invalid min_workers"))
    else if !IsFixnum(v.maxWorkers) then Fail(ArgumentError("invalid max_workers"))
    else if v.workers.i < v.minWorkers.i then Fail(ArgumentError("invalid workers < min_workers"))
    else if v.workers.i > v.maxWorkers.i then Fail(ArgumentError("invalid workers > max_workers"))
    else if v.minWorkers.i > v.maxWorkers.i then Fail(ArgumentError("invalid min_workers > max_workers"))
    else if !HasLogMethods(v.logger) then Fail(ArgumentError("invalid logger"))
    else Pass
  }

  /** What a valid configuration is, stated without an order of checks. */
  predicate Acceptable(v: View, readable: set<string>) {
    && PathText(v.rackFile).Some? && PathText(v.rackFile).value in readable
    && IsFixnum(v.workers) && IsFixnum(v.minWorkers) && IsFixnum(v.maxWorkers)
    && v.minWorkers.i <= v.workers.i <= v.maxWorkers.i
    && HasLogMethods(v.logger)
  }

  /** One check of the chain: whether it holds, and what is raised when it does not. */
  datatype Check = Check(holds: bool, failure: ConfigError)

  /** The chain walked front to back, stopping at the first check that fails. */
  function FirstFailure(checks: seq<Check>): (r: Outcome<ConfigError>)
    ensures r == Pass <==> forall i :: 0 <= i < |checks| ==> checks[i].holds
    ensures r.Fail? ==> exists i :: 0 <= i < |checks| && !checks[i].holds && r.error == checks[i].failure &&
                                    forall j :: 0 <= j < i ==> checks[j].holds
  {
    if checks == [] then Pass
    else if !checks[0].holds then Fail(checks[0].failure)
    else
      var rest := FirstFailure(checks[1..]);
      assert forall i :: 1 <= i < |checks| ==> checks[i] == checks[1..][i - 1];
      rest
  }

  /** The path File.readable? checks, for a value it can take as one. */
  function PathOf(v: Value): string {
    if PathText(v).Some? then PathText(v).value else ""
  }

  function IntOf(v: Value): int {
    if v.Int? then v.i else 0
  }

  /** The checks of validate as a list; each is only reached once those before it hold. */
  function Checks(v: View, readable: set<string>): seq<Check> {
    [ Check(PathText(v.rackFile).Some?, TypeError),
      Check(PathOf(v.rackFile) in readable, ArgumentError("missing rack config file " + PathOf(v.rackFile))),
      Check(IsFixnum(v.workers), ArgumentError("invalid workers")),
      Check(IsFixnum(v.minWorkers), ArgumentError("invalid min_workers")),
      Check(IsFixnum(v.maxWorkers), ArgumentError("invalid max_workers")),
      Check(IntOf(v.workers) >= IntOf(v.minWorkers), ArgumentError("invalid workers < min_workers")),
      Check(IntOf(v.workers) <= IntOf(v.maxWorkers), ArgumentError("invalid workers > max_workers")),
      Check(IntOf(v.minWorkers) <= IntOf(v.maxWorkers), ArgumentError("invalid min_workers > max_workers")),
      Check(HasLogMethods(v.logger), ArgumentError("invalid logger")) ]
  }

  /** The walk stops at the first check that does not hold. */
  lemma FirstFailureAt(checks: seq<Check>, k: nat)
    requires k < |checks| && !checks[k].holds
    requires forall j :: 0 <= j < k ==> checks[j].holds
    ensures FirstFailure(checks) == Fail(checks[k].failure)
  {
  }

  /** validate raises exactly the failure of the first check in the chain that does not hold. */
  lemma VerdictIsFirstFailure(v: View, readable: set<string>)
    ensures Verdict(v, readable) == FirstFailure(Checks(v, readable))
  {
    var cs := Checks(v, readable);
    if PathText(v.rackFile).None? {
      FirstFailureAt(cs, 0);
    } else if PathOf(v.rackFile) !in readable {
      FirstFailureAt(cs, 1);
    } else if !IsFixnum(v.workers) {
      FirstFailureAt(cs, 2);
    } else if !IsFixnum(v.minWorkers) {
      FirstFailureAt(cs, 3);
    } else if !IsFixnum(v.maxWorkers) {
      FirstFailureAt(cs, 4);
    } else if v.workers.i < v.minWorkers.i {
      FirstFailureAt(cs, 5);
    } else if v.workers.i > v.maxWorkers.i {
      FirstFailureAt(cs, 6);
    } else if !HasLogMethods(v.logger) {
      FirstFailureAt(cs, 8);
    }
  }

  /** validate passes exactly when the configuration is acceptable. */
  lemma PassIffAcceptable(v: View, readable: set<string>)
    ensures Verdict(v, readable) == Pass <==> Acceptable(v, readable)
  {
  }

  /**
   * The check "min_workers > max_workers" never fires: once workers is at
   * least min_workers and at most max_workers, min_workers is at most max_workers.
   */
  lemma MinAboveMaxNeverRaised(v: View, readable: set<string>)
    ensures Verdict(v, readable) != Fail(ArgumentError("invalid min_workers > max_workers"))
  {
    var raised := "invalid min_workers > max_workers";
    assert "invalid workers"[8] != raised[8];
    assert |"invalid min_workers"| != |raised|;
    assert "invalid max_workers"[9] != raised[9];
    assert "invalid workers < min_workers"[8] != raised[8];
    assert "invalid workers > max_workers"[8] != raised[8];
    assert "invalid logger"[8] != raised[8];
    assert ("missing rack config file " + PathOf(v.rackFile))[0] != raised[0];
  }

  /** The options validate reads, in the order it reads them. */
  const ValidationOrder: seq<OptionName> := [RackFile, Workers, MinWorkers, MaxWorkers, Logger]

  /** How many of those options validate reads before it reaches its verdict. */
  function ReadCount(v: View, readable: set<string>): nat {
    if PathText(v.rackFile).None? || PathOf(v.rackFile) !in readable then 1
    else if !IsFixnum(v.workers) then 2
    else if !IsFixnum(v.minWorkers) then 3
    else if !IsFixnum(v.maxWorkers) || !(v.minWorkers.i <= v.workers.i <= v.maxWorkers.i) then 4
    else 5
  }

  /** The hash after validate's first `k` reads, and the defaults those reads ran. */
  function ReadsUpTo(m: Options, k: nat): Step
    requires k <= |ValidationOrder|
  {
    if k == 0 then Step(m, [])
    else
      var before := ReadsUpTo(m, k - 1);
      var last := Get(before.opts, ValidationOrder[k - 1]);
      Step(last.opts, before.realized + last.realized)
  }

  /** Those reads leave every option resolving to what it did before. */
  lemma {:induction false} ReadsPreserveResolution(m: Options, k: nat, o: OptionName)
    requires k <= |ValidationOrder|
    ensures Resolved(ReadsUpTo(m, k).opts, o) == Resolved(m, o)
  {
    if k > 0 {
      ReadsPreserveResolution(m, k - 1, o);
      GetPreservesResolution(ReadsUpTo(m, k - 1).opts, ValidationOrder[k - 1], o);
    }
  }

  /** Once every other check has passed, the verdict rests on the logger alone. */
  lemma LoggerDecides(v: View, readable: set<string>)
    requires ReadCount(v, readable) == 5
    ensures Verdict(v, readable) == if HasLogMethods(v.logger) then Pass else Fail(ArgumentError("invalid logger"))
  {
  }

  /** The hash after a run, the defaults it realized, and how it ended. */
  datatype Run = Run(opts: Options, realized: seq<OptionName>, outcome: Outcome<ConfigError>)

  /** validate run against a hash: its verdict, and the memoizing reads it made on the way. */
  function ValidationRun(m: Options, readable: set<string>): Run {
    var view := ResolvedView(m);
    var done := ReadsUpTo(m, ReadCount(view, readable));
    Run(done.opts, done.realized, Verdict(view, readable))
  }

  /** A run that reads `k` options ends in the state those `k` reads leave. */
  lemma ValidationRunReads(m: Options, readable: set<string>, k: nat)
    requires ReadCount(ResolvedView(m), readable) == k
    ensures var done := ReadsUpTo(m, k);
            ValidationRun(m, readable) == Run(done.opts, done.realized, Verdict(ResolvedView(m), readable))
  {
  }

  /** Validating leaves every option resolving to what it did before. */
  lemma ValidationPreservesResolution(m: Options, readable: set<string>, o: OptionName)
    ensures Resolved(ValidationRun(m, readable).opts, o) == Resolved(m, o)
  {
    ReadsPreserveResolution(m, ReadCount(ResolvedView(m), readable), o);
  }

  /**
   * With rack_file, workers, min_workers, max_workers and logger all unset, the
   * defaults (config.ru, 2, 1, 100 and the default logger) pass validation
   * exactly when config.ru is readable.
   */
  lemma DefaultsPass(m: Options, readable: set<string>)
    requires Lookup(m, OptionKey(RackFile)) == Nil && Lookup(m, OptionKey(Workers)) == Nil
    requires Lookup(m, OptionKey(MinWorkers)) == Nil && Lookup(m, OptionKey(MaxWorkers)) == Nil
    requires Lookup(m, OptionKey(Logger)) == Nil
    ensures Verdict(ResolvedView(m), readable) == Pass <==> "config.ru" in readable
  {
    PassIffAcceptable(ResolvedView(m), readable);
  }
}
