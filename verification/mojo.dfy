/**
 * `ApiDocumentMojo.execute`: the guards that run before any bundle, the
 * fail-fast loop over the configured bundles, and the mapping of whatever a
 * bundle throws onto the goal's exceptions.
 *
 * A run is a pure function of the configuration and of an `Environment`
 * holding what the goal observes but does not decide: whether each legacy
 * swagger marker class is on the classpath, and how each bundle's calls end.
 * It yields the calls made, in order, and how the run ended.
 */
module Mojo {
  import opened Wrappers
  import opened Config
  import opened Validation
  import opened Failures
  import opened Pipeline

  /** What the goal observes: the two classpath probes and, per bundle position, that bundle's world. */
  datatype Environment = Environment(
    swagger11: bool,          // `com.wordnik.swagger.annotations.ApiErrors` resolves
    swagger13: bool,          // `com.wordnik.swagger.model.ApiListing` resolves
    world: nat -> BundleWorld)

  /** The calls made during a run, in order, and how it ended. */
  datatype Execution = Execution(trace: seq<Event>, result: RunResult)

  /**
   * One iteration of the loop: validate, then (for a valid bundle) make the
   * planned calls until one throws. A validation failure throws a
   * `GenerateException` with the rule's message before any call is made; a
   * valid bundle throws exactly what the first of its calls to throw threw,
   * and throws nothing exactly when every planned call completes.
   */
  function RunBundle(src: Option<ApiSource>, i: nat, w: BundleWorld): (p: Progress)
    ensures forall k | 0 <= k < |p.trace| :: p.trace[k].bundle == i
    ensures ValidateConfiguration(src).Fail? ==>
      p == Progress([], Some(GenerateException(Message(ValidateConfiguration(src).error))))
    ensures ValidateConfiguration(src).Pass? ==>
      && src.Some?
      && p.trace <= Plan(i, src.value, w)
      && (p.thrown.None? <==>
            forall k | 0 <= k < |Plan(i, src.value, w)| :: CallOutcome(Plan(i, src.value, w)[k].call, w).Completed?)
      && (p.thrown.None? ==> p.trace == Plan(i, src.value, w))
      && (p.thrown.Some? ==>
            && 0 < |p.trace|
            && CallOutcome(p.trace[|p.trace| - 1].call, w) == Threw(p.thrown.value)
            && forall k | 0 <= k < |p.trace| - 1 :: CallOutcome(p.trace[k].call, w).Completed?)
  {
    match ValidateConfiguration(src)
    case Fail(rule) => Progress([], Some(GenerateException(Message(rule))))
    case Pass =>
      ValidBundleIsComplete(src);
      PlanShape(i, src.value, w);
      RunSteps(Plan(i, src.value, w), w)
  }

  /** Each bundle's run, in list order. */
  function BundleRuns(srcs: seq<Option<ApiSource>>, world: nat -> BundleWorld): (runs: seq<Progress>)
    ensures |runs| == |srcs|
    ensures forall j | 0 <= j < |srcs| :: runs[j] == RunBundle(srcs[j], j, world(j))
  {
    seq(|srcs|, j requires 0 <= j < |srcs| => RunBundle(srcs[j], j, world(j)))
  }

  /** Every call of every run, run after run. */
  function Traces(runs: seq<Progress>): seq<Event>
  {
    if |runs| == 0 then [] else runs[0].trace + Traces(runs[1..])
  }

  /**
   * The loop over the bundles: each bundle's run in order, stopping at the
   * first that throws. A bundle's run depends only on its own configuration
   * and world, so the loop is the runs folded in order; the runs after the
   * first that throws contribute nothing.
   *
   * The loop ends normally exactly when no run throws, and its calls are a
   * prefix of all the runs' calls.
   */
  function RunBundles(runs: seq<Progress>): (p: Progress)
    ensures p.thrown.None? <==> forall j | 0 <= j < |runs| :: runs[j].thrown.None?
    ensures p.trace <= Traces(runs)
  {
    if |runs| == 0 then Progress([], None)
    else if runs[0].thrown.Some? then runs[0]
    else
      var rest := RunBundles(runs[1..]);
      Progress(runs[0].trace + rest.trace, rest.thrown)
  }

  /**
   * The whole goal. A missing `apiSources` list fails before either probe is
   * consulted; then the 1.1 probe, then the 1.3 probe, each ending the run
   * before any bundle. Otherwise the loop runs, and what it throws is
   * classified by the two catch clauses.
   */
  function Execute(apiSources: Option<seq<Option<ApiSource>>>, env: Environment): (x: Execution)
    ensures apiSources.None? ==> x == Execution([], MojoFailure(NoApiSourcesMessage))
    ensures apiSources.Some? && env.swagger11 ==>
      x == Execution([], MojoExecution(Swagger11Message))
    ensures apiSources.Some? && !env.swagger11 && env.swagger13 ==>
      x == Execution([], MojoExecution(Swagger13Message))
    ensures x.trace != [] ==> apiSources.Some? && !env.swagger11 && !env.swagger13
    ensures x.result.Success? ==> apiSources.Some? && !env.swagger11 && !env.swagger13
  {
    if apiSources.None? then Execution([], MojoFailure(NoApiSourcesMessage))
    else if env.swagger11 then Execution([], MojoExecution(Swagger11Message))
    else if env.swagger13 then Execution([], MojoExecution(Swagger13Message))
    else
      var p := RunBundles(BundleRuns(apiSources.value, env.world));
      Execution(p.trace, if p.thrown.None? then Success else Classify(p.thrown.value))
  }
}
