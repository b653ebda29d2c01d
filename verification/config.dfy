/**
 * The configuration Maven injects into the `generate` goal: one `ApiSource`
 * per `<apiSource>` element. Every reference the goal null-checks or passes
 * on as possibly `null` is an `Option`. Only the fields the goal reads are
 * modelled; the `ApiSource`, `Info` and `License` classes themselves are not
 * part of this model.
 */
module Config {
  import opened Wrappers

  /** `<info><license>`: the name is mandatory once a license is given. The goal never reads the URL, so it is left out. */
  datatype License = License(name: Option<string>)

  /** `<info>`: title and version are mandatory. The goal never reads the description, so it is left out. */
  datatype Info = Info(
    title: Option<string>,
    version: Option<string>,
    license: Option<License>)

  /** One configured API source bundle. */
  datatype ApiSource = ApiSource(
    info: Option<Info>,
    locations: Option<seq<string>>,
    basePath: Option<string>,
    swaggerUIDocBasePath: Option<string>,
    outputPath: Option<string>,
    templatePath: Option<string>,
    springmvc: bool)
}
