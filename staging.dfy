/**
 * The part of `buildTransMeta` this model keeps: a project file that does not start with an
 * XML declaration is converted (by a JSON-to-XML library outside this model) and given one, and
 * the resulting text is staged at `new File(tmpFolder, executorId + tmpFileSuffix)` before the
 * engine loads it. The same path is what the `finally` blocks delete.
 */
module Staging {
  import opened Wrappers
  import opened JavaLang
  import opened Engine

  const XML_PREFIX: string := "<?xml"
  const XML_DECLARATION: string := XML_PREFIX + " version=\"1.0\" encoding=\"UTF-8\"?>"

  /** `new File(parent, child)`, kept as its two parts. */
  datatype Path = Path(parent: string, child: string)

  /** The staged file of an execution. */
  function TmpPath(tmpFolder: string, executorId: string, tmpFileSuffix: string): (p: Path)
    ensures p.parent == tmpFolder && StartsWith(p.child, executorId)
    ensures p.child[|executorId|..] == tmpFileSuffix
  {
    Path(tmpFolder, executorId + tmpFileSuffix)
  }

  /** Two executions with different ids never share a staged file, whatever the folder and suffix. */
  lemma TmpPathInjective(tmpFolder: string, suffix: string, id1: string, id2: string)
    requires TmpPath(tmpFolder, id1, suffix) == TmpPath(tmpFolder, id2, suffix)
    ensures id1 == id2
  {
    var c1, c2 := id1 + suffix, id2 + suffix;
    assert |id1| == |id2|;
    assert id1 == c1[..|id1|] && id2 == c2[..|id2|];
  }

  /**
   * The text `buildTransMeta` stages: the project file itself when it starts with `<?xml`,
   * otherwise the XML declaration followed by the converted document `converted`.
   */
  function StagedText(projectFile: string, converted: string): (xml: string)
    ensures StartsWith(xml, XML_PREFIX)
    ensures StartsWith(projectFile, XML_PREFIX) ==> xml == projectFile
    ensures !StartsWith(projectFile, XML_PREFIX) ==> xml == XML_DECLARATION + converted
  {
    if StartsWith(projectFile, XML_PREFIX) then projectFile
    else
      var xml := XML_DECLARATION + converted;
      assert xml[..|XML_PREFIX|] == XML_PREFIX;
      xml
  }

  /**
   * How the foreign part of starting an execution turns out: what the JSON-to-XML conversion
   * yields (only consulted for a non-XML project file; `Failure(m)`: it threw with message `m`),
   * whether loading the staged XML into a `TransMeta` threw, and whether `TransExecutor.start`
   * threw.
   */
  datatype BuildScript = BuildScript(
    converted: Result<string, string>,
    loadError: Option<string>)

  /** The staged text, or the message of the exception thrown before the file is written. */
  function StageOutcome(projectFile: string, b: BuildScript): (r: Result<string, string>)
    ensures r.Success? ==> StartsWith(r.value, XML_PREFIX)
    ensures StartsWith(projectFile, XML_PREFIX) ==> r == Success(projectFile)
  {
    if StartsWith(projectFile, XML_PREFIX) then Success(projectFile)
    else match b.converted
      case Success(c) => Success(StagedText(projectFile, c))
      case Failure(m) => Failure(m)
  }

  /**
   * The staging folder after `buildTransMeta` has run on `projectFile`: the staged text at `path`
   * once staging succeeds, whatever the load does next; untouched when the conversion threw.
   */
  function AfterStaging(files: map<Path, string>, path: Path, projectFile: string, b: BuildScript)
    : (f: map<Path, string>)
    ensures f - {path} == files - {path}
    ensures StageOutcome(projectFile, b).Success? ==> path in f && StartsWith(f[path], XML_PREFIX)
  {
    match StageOutcome(projectFile, b)
    case Failure(_) => files
    case Success(xml) => files[path := xml]
  }

  /**
   * How starting an execution turns out, apart from the staged file: the foreign conversion
   * and XML load (`build`), whether `TransExecutor.start` threw, and the handle's state after it.
   */
  datatype StartScript = StartScript(build: BuildScript, startFails: bool, engine: EngineState)

  /** Which of the three ways an `executeByFile` run takes, in either executor. */
  datatype Phase =
    | BuildFailed(message: string)  // buildTransMeta threw: caught as a plain Exception
    | StartFailed                   // TransExecutor.start threw
    | Started                       // the engine started and the poll loop ran

  function PhaseOf(projectFile: string, script: StartScript): (phase: Phase)
    // the engine starts exactly when staging and loading succeed and `start` does not throw
    ensures phase.Started? <==>
              StageOutcome(projectFile, script.build).Success? && script.build.loadError.None? && !script.startFails
    ensures phase.StartFailed? <==>
              StageOutcome(projectFile, script.build).Success? && script.build.loadError.None? && script.startFails
    // an XML project file never fails in the conversion: only its load can throw
    ensures StartsWith(projectFile, XML_PREFIX) && phase.BuildFailed? ==>
              script.build.loadError == Some(phase.message)
  {
    match StageOutcome(projectFile, script.build)
    case Failure(m) => BuildFailed(m)
    case Success(_) =>
      if script.build.loadError.Some? then BuildFailed(script.build.loadError.value)
      else if script.startFails then StartFailed
      else Started
  }
}
