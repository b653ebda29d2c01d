/**
 * Properties of a run of the goal: fail-fast across bundles, the fixed
 * per-bundle order, and which calls the configuration allows.
 */
module ExecuteProperties {
  import opened Wrappers
  import opened Config
  import opened Validation
  import opened Failures
  import opened Pipeline
  import opened Mojo

  /** Bundles in list order; within a bundle, calls in the fixed order. */
  ghost predicate Ordered(t: seq<Event>)
  {
    forall a, b | 0 <= a < b < |t| ::
      t[a].bundle < t[b].bundle || (t[a].bundle == t[b].bundle && CallRank(t[a].call) < CallRank(t[b].call))
  }

  /** The `j`-th run only records calls of the bundle at position `base + j`. */
  ghost predicate Tagged(runs: seq<Progress>, base: nat)
  {
    forall j, k | 0 <= j < |runs| && 0 <= k < |runs[j].trace| :: runs[j].trace[k].bundle == base + j
  }

  // ---------------------------------------------------------------------
  // The loop, for any sequence of runs

  /**
   * When runs `0` to `k - 1` throw nothing and run `k` throws, the loop makes
   * every call of the earlier runs, then the calls of run `k`, and ends with
   * what run `k` threw; no later run contributes anything.
   */
  lemma {:induction false} StopsAtFirstFailure(runs: seq<Progress>, k: nat)
    requires k < |runs|
    requires forall j | 0 <= j < k :: runs[j].thrown.None?
    requires runs[k].thrown.Some?
    ensures RunBundles(runs).trace == Traces(runs[..k]) + runs[k].trace
    ensures RunBundles(runs).thrown == runs[k].thrown
  {
    if k == 0 {
      assert Traces(runs[..0]) == [];
    } else {
      StopsAtFirstFailure(runs[1..], k - 1);
      assert runs[1..][..k - 1] == runs[..k][1..];
      assert Traces(runs[..k]) == runs[0].trace + Traces(runs[1..][..k - 1]);
      var head := runs[0].trace;
      var middle := Traces(runs[1..][..k - 1]);
      assert head + (middle + runs[k].trace) == (head + middle) + runs[k].trace;
    }
  }

  /** When no run throws, the loop makes every call of every run and ends normally. */
  lemma {:induction false} CompletesEveryRun(runs: seq<Progress>)
    requires forall j | 0 <= j < |runs| :: runs[j].thrown.None?
    ensures RunBundles(runs) == Progress(Traces(runs), None)
  {
    if |runs| > 0 {
      CompletesEveryRun(runs[1..]);
    }
  }

  /** A call is among all the runs' calls exactly when some run made it. */
  lemma {:induction false} InTraces(runs: seq<Progress>, e: Event)
    ensures e in Traces(runs) <==> exists j | 0 <= j < |runs| :: e in runs[j].trace
  {
    if |runs| > 0 {
      InTraces(runs[1..], e);
      assert Traces(runs) == runs[0].trace + Traces(runs[1..]);
      if e in Traces(runs[1..]) {
        var j :| 0 <= j < |runs| - 1 && e in runs[1..][j].trace;
        assert e in runs[j + 1].trace;
      }
      if exists j | 0 <= j < |runs| :: e in runs[j].trace {
        var j :| 0 <= j < |runs| && e in runs[j].trace;
        if j > 0 {
          assert e in runs[1..][j - 1].trace;
        }
      }
    }
  }

  /** Runs that each keep the fixed order, for consecutive bundles, add up to an ordered sequence of calls. */
  lemma {:induction false} TracesOrdered(runs: seq<Progress>, base: nat)
    requires Tagged(runs, base)
    requires forall j | 0 <= j < |runs| :: StrictlyRanked(runs[j].trace)
    ensures Ordered(Traces(runs))
  {
    if |runs| > 0 {
      TracesOrdered(runs[1..], base + 1);
      var head := runs[0].trace;
      var rest := Traces(runs[1..]);
      var t := Traces(runs);
      assert t == head + rest;
      forall x, y | 0 <= x < y < |t|
        ensures t[x].bundle < t[y].bundle || (t[x].bundle == t[y].bundle && CallRank(t[x].call) < CallRank(t[y].call))
      {
        if y < |head| {
          assert t[x] == head[x] && t[y] == head[y];
        } else {
          InTraces(runs[1..], t[y]);
          var j :| 0 <= j < |runs| - 1 && t[y] in runs[1..][j].trace;
          var k :| 0 <= k < |runs[j + 1].trace| && runs[j + 1].trace[k] == t[y];
          assert t[y].bundle == base + j + 1;
          if x < |head| {
            assert t[x] == head[x] && t[x].bundle == base;
          } else {
            assert t[x] == rest[x - |head|] && t[y] == rest[y - |head|];
          }
        }
      }
    }
  }

  // ---------------------------------------------------------------------
  // One bundle

  /** A bundle whose run throws nothing passed validation and made every planned call. */
  lemma CompletedBundleRanItsPlan(src: Option<ApiSource>, i: nat, w: BundleWorld)
    requires RunBundle(src, i, w).thrown.None?
    ensures ValidateConfiguration(src).Pass? && src.Some?
    ensures RunBundle(src, i, w).trace == Plan(i, src.value, w)
  {
  }

  /** A prefix of calls in the fixed order is itself in the fixed order, and holds only calls of the whole. */
  lemma PrefixOfPlan(t: seq<Event>, plan: seq<Event>)
    requires t <= plan && StrictlyRanked(plan)
    ensures StrictlyRanked(t)
    ensures forall e | e in t :: e in plan
  {
  }

  /** Every call a bundle makes is planned for it, and its calls keep the fixed order. */
  lemma BundleRunFollowsPlan(src: Option<ApiSource>, i: nat, w: BundleWorld)
    ensures var t := RunBundle(src, i, w).trace;
      && StrictlyRanked(t)
      && (t != [] ==> ValidateConfiguration(src).Pass? && src.Some?)
      && forall e | e in t :: src.Some? && e in Plan(i, src.value, w)
  {
    if ValidateConfiguration(src).Pass? {
      PlanShape(i, src.value, w);
      PrefixOfPlan(RunBundle(src, i, w).trace, Plan(i, src.value, w));
    }
  }

  /**
   * What a planned call says about its bundle: the document source is of
   * the variant `springmvc` selects, templates are rendered only with a
   * template path, the directory is made only for a configured output path
   * whose parent is missing, and `toSwaggerDocuments` gets the UI override
   * of the base path when there is one and `basePath` otherwise.
   */
  lemma PlannedCallFacts(i: nat, src: ApiSource, w: BundleWorld, e: Event)
    requires e in Plan(i, src, w)
    ensures e.bundle == i
    ensures e.call.Construct? ==> (e.call.variant == SpringMavenDocumentSource <==> src.springmvc)
    ensures e.call == ToDocuments ==> src.templatePath.Some?
    ensures e.call.MakeDirs? ==> src.outputPath == Some(e.call.outputPath) && w.parent == ParentMissing
    ensures e.call.ToSwaggerDocuments? ==>
      e.call.basePath == (if src.swaggerUIDocBasePath.Some? then src.swaggerUIDocBasePath else src.basePath)
  {
  }

  /** The per-bundle runs are tagged with their positions and each keeps the fixed order. */
  lemma BundleRunsWellFormed(srcs: seq<Option<ApiSource>>, world: nat -> BundleWorld)
    ensures Tagged(BundleRuns(srcs, world), 0)
    ensures forall j | 0 <= j < |srcs| :: StrictlyRanked(BundleRuns(srcs, world)[j].trace)
  {
    var runs := BundleRuns(srcs, world);
    forall j | 0 <= j < |srcs|
      ensures StrictlyRanked(runs[j].trace)
    {
      BundleRunFollowsPlan(srcs[j], j, world(j));
    }
  }

  /** Bundle `j` throws: in validation or in one of its calls. */
  predicate Throws(srcs: seq<Option<ApiSource>>, world: nat -> BundleWorld, j: nat)
    requires j < |srcs|
  {
    RunBundle(srcs[j], j, world(j)).thrown.Some?
  }

  // ---------------------------------------------------------------------
  // The goal

  /** With both probes negative, an empty `apiSources` list makes no call and succeeds. */
  lemma EmptyListSucceeds(env: Environment)
    requires !env.swagger11 && !env.swagger13
    ensures Execute(Some([]), env) == Execution([], Success)
  {
  }

  /** The calls of a run are in bundle order and, within a bundle, in the fixed order. */
  lemma ExecuteOrdered(apiSources: Option<seq<Option<ApiSource>>>, env: Environment)
    ensures Ordered(Execute(apiSources, env).trace)
  {
    if apiSources.Some? && !env.swagger11 && !env.swagger13 {
      var runs := BundleRuns(apiSources.value, env.world);
      BundleRunsWellFormed(apiSources.value, env.world);
      TracesOrdered(runs, 0);
      var t := RunBundles(runs).trace;
      var all := Traces(runs);
      assert t == all[..|t|];
      forall x, y | 0 <= x < y < |t|
        ensures t[x].bundle < t[y].bundle || (t[x].bundle == t[y].bundle && CallRank(t[x].call) < CallRank(t[y].call))
      {
        assert t[x] == all[x] && t[y] == all[y];
      }
    }
  }

  /** Bundles that throw nothing passed validation and made all of their planned calls. */
  lemma EarlierBundlesCompleted(srcs: seq<Option<ApiSource>>, world: nat -> BundleWorld, k: nat)
    requires k <= |srcs|
    requires forall j | 0 <= j < k :: !Throws(srcs, world, j)
    ensures forall j | 0 <= j < k :: BundleRuns(srcs, world)[j].thrown.None?
    ensures forall j | 0 <= j < k ::
      && ValidateConfiguration(srcs[j]).Pass? && srcs[j].Some?
      && RunBundle(srcs[j], j, world(j)).trace == Plan(j, srcs[j].value, world(j))
  {
    forall j | 0 <= j < k
      ensures BundleRuns(srcs, world)[j].thrown.None?
      ensures ValidateConfiguration(srcs[j]).Pass? && srcs[j].Some?
      ensures RunBundle(srcs[j], j, world(j)).trace == Plan(j, srcs[j].value, world(j))
    {
      assert !Throws(srcs, world, j);
      CompletedBundleRanItsPlan(srcs[j], j, world(j));
    }
  }

  /** The calls of the first `k` bundles all belong to those bundles. */
  lemma FirstRunsStayBefore(srcs: seq<Option<ApiSource>>, world: nat -> BundleWorld, k: nat)
    requires k <= |srcs|
    ensures forall e | e in Traces(BundleRuns(srcs, world)[..k]) :: e.bundle < k
  {
    var runs := BundleRuns(srcs, world);
    BundleRunsWellFormed(srcs, world);
    forall e | e in Traces(runs[..k])
      ensures e.bundle < k
    {
      InTraces(runs[..k], e);
      var j :| 0 <= j < k && e in runs[..k][j].trace;
      var n :| 0 <= n < |runs[j].trace| && runs[j].trace[n] == e;
    }
  }

  /**
   * Fail-fast: when bundle `k` is the first to throw, the run ends with that
   * exception, classified; every earlier bundle passed validation and made
   * all of its planned calls; and no bundle after `k` made any call.
   */
  lemma FailFast(srcs: seq<Option<ApiSource>>, env: Environment, k: nat)
    requires !env.swagger11 && !env.swagger13
    requires k < |srcs|
    requires forall j | 0 <= j < k :: !Throws(srcs, env.world, j)
    requires Throws(srcs, env.world, k)
    ensures var x := Execute(Some(srcs), env);
      && x.result == Classify(RunBundle(srcs[k], k, env.world(k)).thrown.value)
      && x.trace == Traces(BundleRuns(srcs, env.world)[..k]) + RunBundle(srcs[k], k, env.world(k)).trace
      && (forall j | 0 <= j < k ::
            && ValidateConfiguration(srcs[j]).Pass? && srcs[j].Some?
            && RunBundle(srcs[j], j, env.world(j)).trace == Plan(j, srcs[j].value, env.world(j)))
      && forall e | e in x.trace :: e.bundle <= k
  {
    var runs := BundleRuns(srcs, env.world);
    EarlierBundlesCompleted(srcs, env.world, k);
    StopsAtFirstFailure(runs, k);
    FirstRunsStayBefore(srcs, env.world, k);
    BundleRunFollowsPlan(srcs[k], k, env.world(k));
    var x := Execute(Some(srcs), env);
    forall e | e in x.trace
      ensures e.bundle <= k
    {
      if e !in Traces(runs[..k]) {
        PlannedCallFacts(k, srcs[k].value, env.world(k), e);
      }
    }
  }

  /**
   * A bundle that fails validation, after bundles that all completed, ends
   * the run with a `MojoFailureException` carrying the broken rule's message,
   * and none of its own calls is made.
   */
  lemma ValidationFailureEndsRun(srcs: seq<Option<ApiSource>>, env: Environment, k: nat)
    requires !env.swagger11 && !env.swagger13
    requires k < |srcs|
    requires forall j | 0 <= j < k :: !Throws(srcs, env.world, j)
    requires ValidateConfiguration(srcs[k]).Fail?
    ensures var x := Execute(Some(srcs), env);
      && x.result == MojoFailure(Message(ValidateConfiguration(srcs[k]).error))
      && forall e | e in x.trace :: e.bundle < k
  {
    var last := RunBundle(srcs[k], k, env.world(k));
    assert last == Progress([], Some(GenerateException(Message(ValidateConfiguration(srcs[k]).error))));
    assert Throws(srcs, env.world, k);
    FailFast(srcs, env, k);
    FirstRunsStayBefore(srcs, env.world, k);
    assert Execute(Some(srcs), env).trace == Traces(BundleRuns(srcs, env.world)[..k]) + [];
  }

  /**
   * A failed `mkdirs` ends the run with a `MojoExecutionException` naming
   * the configured output path, right after the directory call: the
   * template and emission calls of that bundle are not made.
   */
  lemma DirectoryFailureEndsRun(srcs: seq<Option<ApiSource>>, env: Environment, k: nat)
    requires !env.swagger11 && !env.swagger13
    requires k < |srcs|
    requires forall j | 0 <= j < k :: !Throws(srcs, env.world, j)
    requires ValidateConfiguration(srcs[k]).Pass?
    requires env.world(k).construct.Completed?
    requires env.world(k).loadOverridingModels.Completed?
    requires env.world(k).loadDocuments.Completed?
    requires srcs[k].Some? && NeedsDirectory(srcs[k].value, env.world(k))
    requires !env.world(k).mkdirsSucceeds
    ensures var x := Execute(Some(srcs), env);
      && x.result == MojoExecution(CreateDirectoryMessage(srcs[k].value.outputPath.value))
      && x.trace != []
      && x.trace[|x.trace| - 1] == Event(k, MakeDirs(srcs[k].value.outputPath.value))
  {
    var src := srcs[k].value;
    var w := env.world(k);
    var plan := Plan(k, src, w);
    PlanShape(k, src, w);
    StopsAtFirstThrow(plan, w, 3);
    assert RunBundle(srcs[k], k, w) == RunSteps(plan, w);
    assert Throws(srcs, env.world, k);
    FailFast(srcs, env, k);
  }

  /**
   * A call of a valid bundle that throws, after bundles that all completed
   * and after that bundle's earlier calls completed, ends the run: its
   * exception is classified by the catch clauses (a `GenerateException`
   * becomes a `MojoFailureException` with the same message), and it is the
   * last call made.
   */
  lemma StageFailureEndsRun(srcs: seq<Option<ApiSource>>, env: Environment, k: nat, n: nat, t: Thrown)
    requires !env.swagger11 && !env.swagger13
    requires k < |srcs|
    requires forall j | 0 <= j < k :: !Throws(srcs, env.world, j)
    requires ValidateConfiguration(srcs[k]).Pass? && srcs[k].Some?
    requires n < |Plan(k, srcs[k].value, env.world(k))|
    requires forall m | 0 <= m < n ::
      CallOutcome(Plan(k, srcs[k].value, env.world(k))[m].call, env.world(k)).Completed?
    requires CallOutcome(Plan(k, srcs[k].value, env.world(k))[n].call, env.world(k)) == Threw(t)
    ensures var x := Execute(Some(srcs), env);
      && x.result == Classify(t)
      && (t.GenerateException? ==> x.result == MojoFailure(t.message))
      && x.trace == Traces(BundleRuns(srcs, env.world)[..k]) + Plan(k, srcs[k].value, env.world(k))[..n + 1]
      && x.trace[|x.trace| - 1] == Plan(k, srcs[k].value, env.world(k))[n]
  {
    var w := env.world(k);
    var plan := Plan(k, srcs[k].value, w);
    StopsAtFirstThrow(plan, w, n);
    assert RunBundle(srcs[k], k, w) == RunSteps(plan, w);
    assert Throws(srcs, env.world, k);
    FailFast(srcs, env, k);
  }

  /**
   * The run succeeds exactly when no bundle throws; then every bundle passed
   * validation and made all of its planned calls, in list order.
   */
  lemma SucceedsIffNoBundleThrows(srcs: seq<Option<ApiSource>>, env: Environment)
    requires !env.swagger11 && !env.swagger13
    ensures var x := Execute(Some(srcs), env);
      && (x.result.Success? <==> forall j | 0 <= j < |srcs| :: !Throws(srcs, env.world, j))
      && (x.result.Success? ==>
            && x.trace == Traces(BundleRuns(srcs, env.world))
            && forall j | 0 <= j < |srcs| ::
                 && ValidateConfiguration(srcs[j]).Pass? && srcs[j].Some?
                 && RunBundle(srcs[j], j, env.world(j)).trace == Plan(j, srcs[j].value, env.world(j)))
  {
    var runs := BundleRuns(srcs, env.world);
    var x := Execute(Some(srcs), env);
    if forall j | 0 <= j < |srcs| :: !Throws(srcs, env.world, j) {
      forall j | 0 <= j < |srcs|
        ensures runs[j].thrown.None?
        ensures ValidateConfiguration(srcs[j]).Pass? && srcs[j].Some?
        ensures RunBundle(srcs[j], j, env.world(j)).trace == Plan(j, srcs[j].value, env.world(j))
      {
        assert !Throws(srcs, env.world, j);
        CompletedBundleRanItsPlan(srcs[j], j, env.world(j));
      }
      CompletesEveryRun(runs);
    } else {
      var j :| 0 <= j < |srcs| && Throws(srcs, env.world, j);
      assert runs[j].thrown.Some?;
    }
  }

  /**
   * Every call made in a run belongs to a bundle that passed validation and
   * agrees with its configuration: the variant follows `springmvc`,
   * templates are rendered only with a template path, the directory is made
   * only for an output path whose parent is missing, and
   * `toSwaggerDocuments` gets the effective base path.
   */
  lemma CallsFollowConfiguration(srcs: seq<Option<ApiSource>>, env: Environment)
    ensures forall e | e in Execute(Some(srcs), env).trace ::
      && e.bundle < |srcs| && srcs[e.bundle].Some?
      && ValidateConfiguration(srcs[e.bundle]).Pass?
      && (e.call.Construct? ==> (e.call.variant == SpringMavenDocumentSource <==> srcs[e.bundle].value.springmvc))
      && (e.call == ToDocuments ==> srcs[e.bundle].value.templatePath.Some?)
      && (e.call.MakeDirs? ==>
            srcs[e.bundle].value.outputPath == Some(e.call.outputPath) && env.world(e.bundle).parent == ParentMissing)
      && (e.call.ToSwaggerDocuments? ==>
            e.call.basePath == (if srcs[e.bundle].value.swaggerUIDocBasePath.Some?
                                then srcs[e.bundle].value.swaggerUIDocBasePath
                                else srcs[e.bundle].value.basePath))
  {
    var x := Execute(Some(srcs), env);
    var runs := BundleRuns(srcs, env.world);
    forall e | e in x.trace
      ensures e.bundle < |srcs| && srcs[e.bundle].Some? && ValidateConfiguration(srcs[e.bundle]).Pass?
      ensures e in Plan(e.bundle, srcs[e.bundle].value, env.world(e.bundle))
    {
      var all := Traces(runs);
      var t := RunBundles(runs).trace;
      var n :| 0 <= n < |t| && t[n] == e;
      assert all[n] == e;
      InTraces(runs, e);
      var j :| 0 <= j < |runs| && e in runs[j].trace;
      BundleRunFollowsPlan(srcs[j], j, env.world(j));
      PlannedCallFacts(j, srcs[j].value, env.world(j), e);
    }
    forall e | e in x.trace
      ensures e.call.Construct? ==> (e.call.variant == SpringMavenDocumentSource <==> srcs[e.bundle].value.springmvc)
      ensures e.call == ToDocuments ==> srcs[e.bundle].value.templatePath.Some?
      ensures e.call.MakeDirs? ==>
        srcs[e.bundle].value.outputPath == Some(e.call.outputPath) && env.world(e.bundle).parent == ParentMissing
      ensures e.call.ToSwaggerDocuments? ==>
        e.call.basePath == (if srcs[e.bundle].value.swaggerUIDocBasePath.Some?
                            then srcs[e.bundle].value.swaggerUIDocBasePath
                            else srcs[e.bundle].value.basePath)
    {
      PlannedCallFacts(e.bundle, srcs[e.bundle].value, env.world(e.bundle), e);
    }
  }

  /**
   * In a successful run every bundle emits its specification with the
   * effective base path, and renders templates exactly when it has a
   * template path.
   */
  lemma SuccessfulRunEmitsEveryBundle(srcs: seq<Option<ApiSource>>, env: Environment, j: nat)
    requires j < |srcs|
    requires Execute(Some(srcs), env).result.Success?
    ensures srcs[j].Some?
    ensures var x := Execute(Some(srcs), env);
      && Event(j, ToSwaggerDocuments(
           if srcs[j].value.swaggerUIDocBasePath.Some? then srcs[j].value.swaggerUIDocBasePath
           else srcs[j].value.basePath)) in x.trace
      && (Event(j, ToDocuments) in x.trace <==> srcs[j].value.templatePath.Some?)
  {
    SucceedsIffNoBundleThrows(srcs, env);
    CallsFollowConfiguration(srcs, env);
    var x := Execute(Some(srcs), env);
    var runs := BundleRuns(srcs, env.world);
    var plan := Plan(j, srcs[j].value, env.world(j));
    PlanShape(j, srcs[j].value, env.world(j));
    assert runs[j].trace == plan;
    forall e | e in plan
      ensures e in x.trace
    {
      InTraces(runs, e);
    }
    assert plan[|plan| - 1] in plan;
  }
}
