/**
 * What the goal does with one validated bundle: it builds a document source
 * of the variant the bundle asks for and drives it through a fixed sequence
 * of stages, stopping at the first stage that throws.
 *
 * The stages themselves belong to `MavenDocumentSource` and
 * `SpringMavenDocumentSource`, which are not part of this model; each stage
 * is an outcome supplied from outside, as are the filesystem facts the
 * directory step depends on.
 */
module Pipeline {
  import opened Wrappers
  import opened Config
  import opened Failures

  /** The two document-source variants. */
  datatype Variant = MavenDocumentSource | SpringMavenDocumentSource

  /** The `springmvc` flag picks the variant; there is no other input to the choice. */
  function SelectVariant(src: ApiSource): (v: Variant)
    ensures v == SpringMavenDocumentSource <==> src.springmvc
  {
    if src.springmvc then SpringMavenDocumentSource else MavenDocumentSource
  }

  /** The base path handed to `toSwaggerDocuments`: the UI override when configured, else `basePath`. */
  function EffectiveBasePath(src: ApiSource): Option<string>
  {
    if src.swaggerUIDocBasePath.None? then src.basePath else src.swaggerUIDocBasePath
  }

  /** The calls the goal makes for one bundle. */
  datatype Call =
    | Construct(variant: Variant)                   // `new ...DocumentSource(apiSource, log)`
    | LoadOverridingModels
    | LoadDocuments
    | MakeDirs(outputPath: string)                  // `mkdirs` on the parent of this output path
    | ToDocuments
    | ToSwaggerDocuments(basePath: Option<string>)

  /** A call made on behalf of the bundle at position `bundle` of the list. */
  datatype Event = Event(bundle: nat, call: Call)

  /** The fixed order of calls within one bundle. */
  function CallRank(c: Call): nat
  {
    match c
    case Construct(_) => 0
    case LoadOverridingModels => 1
    case LoadDocuments => 2
    case MakeDirs(_) => 3
    case ToDocuments => 4
    case ToSwaggerDocuments(_) => 5
  }

  /** How one call ends. */
  datatype StageOutcome = Completed | Threw(thrown: Thrown)

  /** What `new File(outputPath).getParentFile()` denotes on the filesystem. */
  datatype Parent = NoParent | ParentExists | ParentMissing

  /** Everything outside the goal that decides how one bundle's calls end. */
  datatype BundleWorld = BundleWorld(
    construct: StageOutcome,
    loadOverridingModels: StageOutcome,
    loadDocuments: StageOutcome,
    parent: Parent,
    mkdirsSucceeds: bool,
    toDocuments: StageOutcome,
    toSwaggerDocuments: StageOutcome)

  /** How call `c` ends in world `w`; a failed `mkdirs` throws a `MojoExecutionException`. */
  function CallOutcome(c: Call, w: BundleWorld): StageOutcome
  {
    match c
    case Construct(_) => w.construct
    case LoadOverridingModels => w.loadOverridingModels
    case LoadDocuments => w.loadDocuments
    case MakeDirs(path) =>
      if w.mkdirsSucceeds then Completed else Threw(OtherException(CreateDirectoryMessage(path)))
    case ToDocuments => w.toDocuments
    case ToSwaggerDocuments(_) => w.toSwaggerDocuments
  }

  /** The directory step runs only for a configured output path whose parent exists in name but not on disk. */
  predicate NeedsDirectory(src: ApiSource, w: BundleWorld)
  {
    src.outputPath.Some? && w.parent == ParentMissing
  }

  /** Calls of one bundle ordered strictly by `CallRank`: no call twice, none out of order. */
  ghost predicate StrictlyRanked(t: seq<Event>)
  {
    forall a, b :: 0 <= a < b < |t| ==> CallRank(t[a].call) < CallRank(t[b].call)
  }

  /**
   * The calls bundle `i` makes when none of them throws: construction, the
   * two loads, and last the emission on the effective base path;
   * `PlanShape` states what lies between.
   */
  function Plan(i: nat, src: ApiSource, w: BundleWorld): (p: seq<Event>)
    ensures 4 <= |p|
    ensures p[0] == Event(i, Construct(SelectVariant(src)))
    ensures p[1] == Event(i, LoadOverridingModels) && p[2] == Event(i, LoadDocuments)
    ensures p[|p| - 1] == Event(i, ToSwaggerDocuments(
      if src.swaggerUIDocBasePath.Some? then src.swaggerUIDocBasePath else src.basePath))
  {
    var construct := Event(i, Construct(SelectVariant(src)));
    var emit := Event(i, ToSwaggerDocuments(EffectiveBasePath(src)));
    if NeedsDirectory(src, w) then
      var mkdirs := Event(i, MakeDirs(src.outputPath.value));
      if src.templatePath.Some? then
        [construct, Event(i, LoadOverridingModels), Event(i, LoadDocuments), mkdirs, Event(i, ToDocuments), emit]
      else
        [construct, Event(i, LoadOverridingModels), Event(i, LoadDocuments), mkdirs, emit]
    else if src.templatePath.Some? then
      [construct, Event(i, LoadOverridingModels), Event(i, LoadDocuments), Event(i, ToDocuments), emit]
    else
      [construct, Event(i, LoadOverridingModels), Event(i, LoadDocuments), emit]
  }

  /**
   * The plan of bundle `i` always starts with construction of the selected
   * variant, `loadOverridingModels` and `loadDocuments`, always ends with
   * `toSwaggerDocuments` on the effective base path, keeps the fixed order,
   * makes the output directory only when it is missing and renders templates
   * exactly when a template path is configured.
   */
  lemma PlanShape(i: nat, src: ApiSource, w: BundleWorld)
    ensures var p := Plan(i, src, w);
      && (forall k | 0 <= k < |p| :: p[k].bundle == i)
      && StrictlyRanked(p)
      && p[0].call == Construct(SelectVariant(src))
      && p[1].call == LoadOverridingModels && p[2].call == LoadDocuments
      && p[|p| - 1].call == ToSwaggerDocuments(
           if src.swaggerUIDocBasePath.Some? then src.swaggerUIDocBasePath else src.basePath)
      && (Event(i, ToDocuments) in p <==> src.templatePath.Some?)
      && (forall k | 0 <= k < |p| && p[k].call.MakeDirs? ::
            k == 3 && NeedsDirectory(src, w) && src.outputPath == Some(p[k].call.outputPath))
      && (NeedsDirectory(src, w) ==> p[3] == Event(i, MakeDirs(src.outputPath.value)))
  {
  }

  /** Calls made so far and, when one threw, what it threw. */
  datatype Progress = Progress(trace: seq<Event>, thrown: Option<Thrown>)

  /**
   * Makes the calls of `steps` in order until one throws. The trace is a
   * prefix of `steps`; it is all of `steps` exactly when every call
   * completes, and otherwise it ends with the call that threw, every
   * earlier call having completed.
   */
  function RunSteps(steps: seq<Event>, w: BundleWorld): (p: Progress)
    ensures p.trace <= steps
    ensures p.thrown.None? <==> forall k | 0 <= k < |steps| :: CallOutcome(steps[k].call, w).Completed?
    ensures p.thrown.None? ==> p.trace == steps
    ensures p.thrown.Some? ==>
      && 0 < |p.trace|
      && CallOutcome(p.trace[|p.trace| - 1].call, w) == Threw(p.thrown.value)
      && forall k | 0 <= k < |p.trace| - 1 :: CallOutcome(p.trace[k].call, w).Completed?
    decreases |steps|
  {
    if |steps| == 0 then Progress([], None)
    else
      match CallOutcome(steps[0].call, w)
      case Threw(t) => Progress([steps[0]], Some(t))
      case Completed =>
        var rest := RunSteps(steps[1..], w);
        assert forall k | 1 <= k < |steps| :: steps[1..][k - 1] == steps[k];
        Progress([steps[0]] + rest.trace, rest.thrown)
  }

  /** When the calls before position `n` complete and call `n` throws, the run stops right after call `n`. */
  lemma StopsAtFirstThrow(steps: seq<Event>, w: BundleWorld, n: nat)
    requires n < |steps|
    requires forall k | 0 <= k < n :: CallOutcome(steps[k].call, w).Completed?
    requires CallOutcome(steps[n].call, w).Threw?
    ensures RunSteps(steps, w) == Progress(steps[..n + 1], Some(CallOutcome(steps[n].call, w).thrown))
  {
  }
}
