/**
 * `validateConfiguration`: six mandatory-field rules checked in a fixed
 * order; the first broken rule is reported and the rest are not looked at.
 */
module Validation {
  import opened Wrappers
  import opened Config

  /** The rules, one per `GenerateException` the validator can throw. */
  datatype Rule =
    | MissingApiSource
    | MissingInfo
    | MissingTitle
    | MissingVersion
    | LicenseWithoutName
    | MissingLocations

  /** Position of a rule in the order the validator checks them. */
  function RuleRank(r: Rule): nat
  {
    match r
    case MissingApiSource => 0
    case MissingInfo => 1
    case MissingTitle => 2
    case MissingVersion => 3
    case LicenseWithoutName => 4
    case MissingLocations => 5
  }

  /** The message of the exception thrown for each rule. */
  function Message(r: Rule): string
  {
    match r
    case MissingApiSource => "You do not configure any apiSource!"
    case MissingInfo => "`<info>` is required by Swagger Spec."
    case MissingTitle => "`<info><title>` is required by Swagger Spec."
    case MissingVersion => "`<info><version>` is required by Swagger Spec."
    case LicenseWithoutName => "`<info><license><name>` is required by Swagger Spec."
    case MissingLocations => "<locations> is required by this plugin."
  }

  /**
   * Rule `r`, judged on its own: the field it demands is absent. A rule about
   * a nested field only speaks when the enclosing object is present.
   */
  predicate Violated(r: Rule, src: Option<ApiSource>)
  {
    match r
    case MissingApiSource => src.None?
    case MissingInfo => src.Some? && src.value.info.None?
    case MissingTitle =>
      src.Some? && src.value.info.Some? && src.value.info.value.title.None?
    case MissingVersion =>
      src.Some? && src.value.info.Some? && src.value.info.value.version.None?
    case LicenseWithoutName =>
      && src.Some? && src.value.info.Some?
      && src.value.info.value.license.Some?
      && src.value.info.value.license.value.name.None?
    case MissingLocations => src.Some? && src.value.locations.None?
  }

  /**
   * The validator: passes exactly when no rule is violated, and otherwise
   * reports the violated rule that comes first in checking order.
   */
  function ValidateConfiguration(src: Option<ApiSource>): (r: Outcome<Rule>)
    ensures r.Pass? ==> forall k: Rule :: !Violated(k, src)
    ensures r.Fail? ==>
      && Violated(r.error, src)
      && forall k: Rule :: RuleRank(k) < RuleRank(r.error) ==> !Violated(k, src)
  {
    if src.None? then Fail(MissingApiSource)
    else if src.value.info.None? then Fail(MissingInfo)
    else
      var info := src.value.info.value;
      if info.title.None? then Fail(MissingTitle)
      else if info.version.None? then Fail(MissingVersion)
      else if info.license.Some? && info.license.value.name.None? then Fail(LicenseWithoutName)
      else if src.value.locations.None? then Fail(MissingLocations)
      else Pass
  }

  /** A validated bundle is present and has every mandatory field. */
  lemma ValidBundleIsComplete(src: Option<ApiSource>)
    requires ValidateConfiguration(src).Pass?
    ensures src.Some? && src.value.info.Some? && src.value.locations.Some?
    ensures src.value.info.value.title.Some? && src.value.info.value.version.Some?
    ensures src.value.info.value.license.Some? ==> src.value.info.value.license.value.name.Some?
  {
  }

  /** Validation passes exactly when no rule is violated. */
  lemma PassesIffNoRuleViolated(src: Option<ApiSource>)
    ensures ValidateConfiguration(src).Pass? <==> forall k: Rule :: !Violated(k, src)
  {
  }

  /** Each rule has its own message, so the message identifies the rule. */
  lemma MessagesIdentifyRules(a: Rule, b: Rule)
    ensures Message(a) == Message(b) ==> a == b
  {
  }

  /**
   * Both directions of "first violated rule wins": the validator reports `k`
   * exactly when `k` is violated and no earlier rule is.
   */
  lemma ReportsFirstViolatedRule(src: Option<ApiSource>, k: Rule)
    ensures ValidateConfiguration(src) == Fail(k) <==>
      Violated(k, src) && forall j: Rule :: RuleRank(j) < RuleRank(k) ==> !Violated(j, src)
  {
  }

  /**
   * The license rule fires exactly when the earlier rules hold, a license is
   * given, and it has no name.
   */
  lemma LicenseRuleNeedsLicenseWithoutName(src: Option<ApiSource>)
    ensures ValidateConfiguration(src) == Fail(LicenseWithoutName) <==>
      && src.Some? && src.value.info.Some?
      && src.value.info.value.title.Some? && src.value.info.value.version.Some?
      && src.value.info.value.license.Some?
      && src.value.info.value.license.value.name.None?
  {
  }

  /** An absent license never makes validation fail. */
  lemma AbsentLicenseNeverFails(src: Option<ApiSource>)
    requires src.Some? && src.value.info.Some? && src.value.info.value.license.None?
    ensures ValidateConfiguration(src) != Fail(LicenseWithoutName)
  {
  }

  /** Only a missing `<locations>` is rejected; an empty one passes. */
  lemma EmptyLocationsAreAccepted(src: Option<ApiSource>)
    requires src.Some? && src.value.locations == Some([])
    ensures ValidateConfiguration(src) != Fail(MissingLocations)
    ensures ValidateConfiguration(src).Fail? ==> RuleRank(ValidateConfiguration(src).error) < RuleRank(MissingLocations)
  {
  }
}
