/**
 * What a run of the goal can end with, and how whatever a stage throws is
 * turned into the goal's own exceptions.
 */
module Failures {
  import opened Wrappers

  /** What a stage of a bundle can throw. */
  datatype Thrown =
    | GenerateException(message: string)   // the generator's checked exception
    | OtherException(message: string)      // any other `java.lang.Exception`
    | JvmError(message: string)            // a `java.lang.Error`, which `catch (Exception e)` does not catch

  /** How a run of the goal ends. */
  datatype RunResult =
    | Success
    | MojoFailure(message: string)         // `MojoFailureException`: a configuration or generation failure
    | MojoExecution(message: string)       // `MojoExecutionException`: an unexpected failure
    | Uncaught(message: string)            // a `java.lang.Error` leaving the goal unwrapped

  /**
   * The two catch clauses around the bundle loop: a generator failure becomes
   * a `MojoFailureException`, every other exception a
   * `MojoExecutionException`, both keeping the message; an `Error` is not
   * caught and leaves as it is.
   */
  function Classify(t: Thrown): (r: RunResult)
    ensures !r.Success? && r.message == t.message
    ensures r.MojoFailure? <==> t.GenerateException?
    ensures r.MojoExecution? <==> t.OtherException?
  {
    match t
    case GenerateException(m) => MojoFailure(m)
    case OtherException(m) => MojoExecution(m)
    case JvmError(m) => Uncaught(m)
  }

  /** Thrown when the `apiSources` list is not configured at all. */
  const NoApiSourcesMessage: string := "You must configure at least one apiSources element"

  /** Thrown when the swagger 1.1 marker class is on the classpath. */
  const Swagger11Message: string :=
    "You may use an old version of swagger which is not supported by swagger-maven-plugin 2.0+\n"
    + "swagger-maven-plugin 2.0+ only supports swagger-core 1.3.x"

  /** Thrown when the swagger 1.3 marker class is on the classpath. */
  const Swagger13Message: string :=
    "You may use an old version of swagger which is not supported by swagger-maven-plugin 3.0+\n"
    + "swagger-maven-plugin 3.0+ only supports swagger spec 2.0"

  const CreateDirectoryPrefix: string := "Create directory["
  const CreateDirectorySuffix: string := "] for output failed."

  /** The message of a failed `mkdirs`; it names the configured output path. */
  function CreateDirectoryMessage(outputPath: string): string
  {
    CreateDirectoryPrefix + outputPath + CreateDirectorySuffix
  }

  /** Reads the output path back out of a failed-`mkdirs` message. */
  function OutputPathOf(message: string): (p: Option<string>)
    ensures p.Some? ==> |p.value| + |CreateDirectoryPrefix| + |CreateDirectorySuffix| == |message|
  {
    var n := |CreateDirectoryPrefix|;
    var m := |CreateDirectorySuffix|;
    if n + m <= |message|
       && message[..n] == CreateDirectoryPrefix
       && message[|message| - m..] == CreateDirectorySuffix
    then Some(message[n..|message| - m])
    else None
  }

  /** The failed-`mkdirs` message names exactly the output path it was built from. */
  lemma CreateDirectoryMessageRoundTrip(outputPath: string)
    ensures OutputPathOf(CreateDirectoryMessage(outputPath)) == Some(outputPath)
  {
  }

  /** Hence distinct output paths give distinct messages. */
  lemma CreateDirectoryMessageInjective(p: string, q: string)
    ensures CreateDirectoryMessage(p) == CreateDirectoryMessage(q) ==> p == q
  {
    CreateDirectoryMessageRoundTrip(p);
    CreateDirectoryMessageRoundTrip(q);
  }
}
