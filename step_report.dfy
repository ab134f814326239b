/**
 * What `buildStepStatus` reports: one `ProjectExecutorStepDTO` per engine step, in step order.
 * The interactive executor also hands out a finished step's preview rows and removes them from
 * the preview buffer as it goes, so each preview is delivered once; the scheduled executor
 * reports no preview and leaves the buffer alone.
 */
module StepReport {
  import opened Wrappers
  import opened Dto
  import opened Engine

  /** The interactive builder's record for a step, given the preview data fetched for it. */
  function StepDtoWith(s: StepInfo, rows: Option<seq<seq<string>>>, fieldNames: Option<seq<string>>): (d: StepDto)
    ensures d.stepName == s.name && d.stepExecutionStatus == s.status
    ensures d.previewRows == rows && d.previewFieldNames == fieldNames
    ensures d.linesWritten.None?
  {
    StepDto(
      s.name, Some(s.copy), Some(s.priority),
      s.linesInput, s.linesOutput, s.linesRead,
      None,  // the builder sets linesOutput twice and never linesWritten
      s.linesUpdated, s.linesRejected, s.status, s.statusDescription, s.seconds, s.speed,
      rows, fieldNames,
      s.errors)
  }

  /** `transPreview.getData(stepName)`: `None` when nothing is buffered under that name. */
  function PreviewData(buffer: map<string, Preview>, stepName: string): (rows: Option<seq<seq<string>>>)
    ensures rows.Some? <==> stepName in buffer
  {
    if stepName in buffer then Some(buffer[stepName].rows) else None
  }

  /** `transPreview.getFieldNames(stepName)` */
  function PreviewFieldNames(buffer: map<string, Preview>, stepName: string): (names: Option<seq<string>>)
    ensures names.Some? <==> stepName in buffer
  {
    if stepName in buffer then Some(buffer[stepName].fieldNames) else None
  }

  /** The interactive report of one step, given the preview buffer as it is when the step is reached. */
  function InteractiveDto(s: StepInfo, buffer: map<string, Preview>): (d: StepDto)
    ensures d.stepName == s.name && d.stepExecutionStatus == s.status
    ensures d.previewRows.Some? <==> s.status == STATUS_FINISHED && s.name in buffer
    ensures d.previewRows.Some? ==>
              d.previewRows.value == buffer[s.name].rows && d.previewFieldNames == Some(buffer[s.name].fieldNames)
  {
    if s.status == STATUS_FINISHED then StepDtoWith(s, PreviewData(buffer, s.name), PreviewFieldNames(buffer, s.name))
    else StepDtoWith(s, None, None)
  }

  /** The buffer after a step is reported: a finished step's entry is removed. */
  function Consume(s: StepInfo, buffer: map<string, Preview>): map<string, Preview>
  {
    if s.status == STATUS_FINISHED then buffer - {s.name} else buffer
  }

  datatype Snapshot = Snapshot(dtos: seq<StepDto>, rest: map<string, Preview>)

  /** The names of the finished steps. */
  function FinishedNames(steps: seq<StepInfo>): set<string>
  {
    set i | 0 <= i < |steps| && steps[i].status == STATUS_FINISHED :: steps[i].name
  }

  /**
   * The interactive `buildStepStatus` loop over `steps` starting from preview buffer `buffer`:
   * the reports, and the buffer left behind.
   */
  function Interactive(steps: seq<StepInfo>, buffer: map<string, Preview>): (r: Snapshot)
    ensures |r.dtos| == |steps|
    decreases |steps|
  {
    if steps == [] then Snapshot([], buffer)
    else
      var init := Interactive(steps[..|steps| - 1], buffer);
      var last := steps[|steps| - 1];
      Snapshot(init.dtos + [InteractiveDto(last, init.rest)], Consume(last, init.rest))
  }

  /**
   * One report per step, in order, with the step's name and status, and a preview only for a
   * finished step whose name is buffered.
   */
  lemma {:induction false} InteractiveReports(steps: seq<StepInfo>, buffer: map<string, Preview>)
    ensures var r := Interactive(steps, buffer);
            forall i :: 0 <= i < |steps| ==>
              && r.dtos[i].stepName == steps[i].name
              && r.dtos[i].stepExecutionStatus == steps[i].status
              && (r.dtos[i].previewRows.Some? ==> steps[i].status == STATUS_FINISHED && steps[i].name in buffer)
    decreases |steps|
  {
    if steps != [] {
      var init := steps[..|steps| - 1];
      InteractiveReports(init, buffer);
      InteractiveRest(init, buffer);
      var r := Interactive(steps, buffer);
      var r0 := Interactive(init, buffer);
      forall i | 0 <= i < |steps| - 1
        ensures r.dtos[i] == r0.dtos[i] && steps[i] == init[i]
      {
      }
    }
  }

  /** The buffer left behind is the old one without the finished steps' names. */
  lemma {:induction false} InteractiveRest(steps: seq<StepInfo>, buffer: map<string, Preview>)
    ensures var r := Interactive(steps, buffer);
            && r.rest.Keys == buffer.Keys - FinishedNames(steps)
            && (forall n :: n in r.rest ==> r.rest[n] == buffer[n])
    decreases |steps|
  {
    if steps != [] {
      var init := steps[..|steps| - 1];
      var last := steps[|steps| - 1];
      InteractiveRest(init, buffer);
      assert FinishedNames(steps) == FinishedNames(init) + (if last.status == STATUS_FINISHED then {last.name} else {});
    }
  }

  /** The scheduled executor's report of one step: no copy, priority or preview. */
  function PlainDto(s: StepInfo): (d: StepDto)
    ensures d.stepName == s.name && d.stepExecutionStatus == s.status
    ensures d.previewRows.None? && d.previewFieldNames.None?
  {
    StepDto(
      s.name, None, None,
      s.linesInput, s.linesOutput, s.linesRead,
      None,
      s.linesUpdated, s.linesRejected, s.status, s.statusDescription, s.seconds, s.speed,
      None, None,
      s.errors)
  }

  /** The scheduled executor's `buildStepStatus`: one plain report per step, in order. */
  function Plain(steps: seq<StepInfo>): (r: seq<StepDto>)
    ensures |r| == |steps|
    ensures forall i :: 0 <= i < |steps| ==> r[i] == PlainDto(steps[i])
  {
    seq(|steps|, i requires 0 <= i < |steps| => PlainDto(steps[i]))
  }

  /**
   * A preview is delivered once: after a report, no later report, of whatever steps, carries a
   * preview for a step name that was finished in the first one, unless the engine has put a new
   * preview under that name into the buffer since.
   */
  lemma PreviewDeliveredOnce(steps: seq<StepInfo>, buffer: map<string, Preview>,
                             later: seq<StepInfo>, added: map<string, Preview>, i: nat, j: nat)
    requires i < |steps| && steps[i].status == STATUS_FINISHED
    requires j < |later| && later[j].name == steps[i].name && later[j].name !in added
    ensures Interactive(later, Interactive(steps, buffer).rest + added).dtos[j].previewRows.None?
  {
    assert steps[i].name in FinishedNames(steps);
    InteractiveRest(steps, buffer);
    InteractiveReports(later, Interactive(steps, buffer).rest + added);
  }

  /**
   * The first finished step of a name receives that name's buffered preview, when there is one.
   */
  lemma {:induction false} FirstFinishedGetsPreview(steps: seq<StepInfo>, buffer: map<string, Preview>, i: nat)
    requires i < |steps| && steps[i].status == STATUS_FINISHED && steps[i].name in buffer
    requires steps[i].name !in FinishedNames(steps[..i])
    ensures Interactive(steps, buffer).dtos[i].previewRows == Some(buffer[steps[i].name].rows)
    decreases |steps|
  {
    var init := steps[..|steps| - 1];
    InteractiveRest(init, buffer);
    if i < |steps| - 1 {
      assert init[..i] == steps[..i];
      FirstFinishedGetsPreview(init, buffer, i);
    } else {
      assert init == steps[..i];
    }
  }
}
