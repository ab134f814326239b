/**
 * `ProjectExecutorService`, the interactive executor: one execution per (user, project), guarded
 * by the field `projectId` of the Redis hash `di_executor_<userId>`, driven by a poll loop that
 * reports progress over the websocket callback, and always cleaned up in a `finally` block.
 *
 * Everything the service talks to is state of the service object here: the Redis store, the
 * history mapper's call log, the staged files, and the in-process `executorMap`. The messages a
 * call sends through its `ProjectExecuteCallback` are the call's result.
 */
module ProjectExecutor {
  import opened Wrappers
  import opened JavaLang
  import opened Dto
  import opened Redis
  import opened History
  import opened Engine
  import opened StepReport
  import opened Staging
  import opened RunningProjects

  const CACHE_PREFIX: string := "di_executor_"
  const INSTANCEID: string := "instanceId"

  /** The Redis hash holding a user's running projects. */
  function UserKey(userId: string): (key: string)
    ensures StartsWith(key, CACHE_PREFIX) && key[|CACHE_PREFIX|..] == userId
  {
    CACHE_PREFIX + userId
  }

  /** The fields `saveUserExecuteProject` writes: the request's JSON under its project id, then the instance id. */
  function ClaimFields(projectId: string, json: string, instanceId: string): (m: map<string, string>)
    ensures INSTANCEID in m && m[INSTANCEID] == instanceId
    ensures projectId in m && (projectId != INSTANCEID ==> m[projectId] == json)
    ensures m.Keys == {projectId, INSTANCEID}
  {
    map[projectId := json][INSTANCEID := instanceId]
  }

  /**
   * Claim then release, as one `executeByFile` does on its own: the guard field is gone afterwards,
   * the instance id stays written, and every other field and every other hash is as it was.
   */
  lemma {:induction false} ClaimRelease(r: Store, key: string, projectId: string, json: string, instanceId: string)
    requires projectId != INSTANCEID
    ensures var r' := HDel(HPutAll(r, key, ClaimFields(projectId, json, instanceId)), key, projectId);
            && !HasField(r', key, projectId)
            && HGet(r', key, INSTANCEID) == Some(instanceId)
            && (forall f :: f != projectId && f != INSTANCEID ==> HGet(r', key, f) == HGet(r, key, f))
            && (forall k :: k != key ==> Entries(r', k) == Entries(r, k))
  {
    var claimed := HPutAll(r, key, ClaimFields(projectId, json, instanceId));
    assert INSTANCEID in ClaimFields(projectId, json, instanceId);
    forall f | f != projectId && f != INSTANCEID
      ensures HGet(HDel(claimed, key, projectId), key, f) == HGet(r, key, f)
    {
      assert f !in ClaimFields(projectId, json, instanceId);
    }
  }

  /**
   * `checkExists` and `saveUserExecuteProject` are separate calls: two submissions of one project
   * that both check before either claims both pass, the later claim overwrites the earlier one,
   * and the first run's `finally` then deletes the guard while the second run is still going.
   */
  lemma {:induction false} CheckThenClaimRace(r: Store, userId: string, projectId: string,
                                              jsonA: string, instanceA: string, jsonB: string, instanceB: string)
    requires projectId != INSTANCEID
    requires !HasField(r, UserKey(userId), projectId)
    ensures var key := UserKey(userId);
            var both := HPutAll(HPutAll(r, key, ClaimFields(projectId, jsonA, instanceA)), key, ClaimFields(projectId, jsonB, instanceB));
            && HGet(both, key, projectId) == Some(jsonB)
            && HGet(both, key, INSTANCEID) == Some(instanceB)
            && !HasField(HDel(both, key, projectId), key, projectId)
  {
    var key := UserKey(userId);
    assert projectId in ClaimFields(projectId, jsonB, instanceB);
    assert INSTANCEID in ClaimFields(projectId, jsonB, instanceB);
  }

  /** A `/runningState` progress message of the interactive executor. */
  function Progress(executorId: string, requestId: string, steps: seq<StepDto>, s: EngineState, finished: bool): (m: Message)
    ensures m.topic == RUNNING_STATE_TOPIC && m.response.Ok?
    ensures IsFinal(m) == finished
    ensures m.response.data.executorSteps == Some(steps) && m.response.data.log == s.log
  {
    Message(RUNNING_STATE_TOPIC, Ok(ExecutorDto(Some(requestId), executorId, finished, Some(steps), Some(s.errors), s.log)))
  }

  /** The report `responseError` sends: a CODE_10010 failure that says the run is over. */
  function ErrorReport(requestId: string, executorId: string, log: string, steps: Option<seq<StepDto>>): (m: Message)
    ensures m.topic == RUNNING_STATE_TOPIC && m.response.Error? && m.response.code == CODE_10010
    ensures IsFinal(m) && m.response.data.log == log && m.response.data.executorSteps == steps
  {
    Message(RUNNING_STATE_TOPIC, Error(CODE_10010, ExecutorDto(Some(requestId), executorId, true, steps, None, log)))
  }

  datatype PollRun = PollRun(messages: seq<Message>, final: EngineState)

  /**
   * The `while (!isFinishedOrStopped())` loop of `execute` from engine state `s`, the world
   * behaving as `ticks` says: one progress message per iteration, taken before the sleep; an
   * interrupted sleep leaves the loop, with whatever the engine did before the interruption.
   */
  function PollLoop(s: EngineState, ticks: seq<Tick>, executorId: string, requestId: string): (r: PollRun)
    ensures FinishedOrStopped(s) ==> r == PollRun([], s)
    ensures r.final.hasTrans == s.hasTrans
    ensures s.stopped ==> r.final.stopped
    decreases |ticks|
  {
    if FinishedOrStopped(s) then PollRun([], s)
    else
      var snap := Interactive(s.steps, s.preview);
      var m := Progress(executorId, requestId, snap.dtos, s, false);
      var s1 := s.(preview := snap.rest);
      if |ticks| == 0 then PollRun([m], s1)
      else if ticks[0].interrupted then PollRun([m], Advance(s1, ticks[0].event))
      else
        var rest := PollLoop(Advance(s1, ticks[0].event), ticks[1..], executorId, requestId);
        PollRun([m] + rest.messages, rest.final)
  }

  /**
   * Every message the poll loop sends is a progress message on the running-state topic that
   * does not say the run is over; a loop that starts on a live engine sends at least one and
   * at most one per tick plus the one before the interrupted or last sleep.
   */
  lemma {:induction false} PollLoopShape(s: EngineState, ticks: seq<Tick>, executorId: string, requestId: string)
    ensures var r := PollLoop(s, ticks, executorId, requestId);
            && (!FinishedOrStopped(s) ==> 1 <= |r.messages| <= |ticks| + 1)
            && (forall i :: 0 <= i < |r.messages| ==> !IsFinal(r.messages[i]) && r.messages[i].topic == RUNNING_STATE_TOPIC)
    decreases |ticks|
  {
    if !FinishedOrStopped(s) && |ticks| > 0 && !ticks[0].interrupted {
      var snap := Interactive(s.steps, s.preview);
      PollLoopShape(Advance(s.(preview := snap.rest), ticks[0].event), ticks[1..], executorId, requestId);
    }
  }

  /** `execute` after a successful start: the poll loop, then exactly one final message. */
  function Run(s: EngineState, ticks: seq<Tick>, executorId: string, requestId: string): (r: PollRun)
    ensures r.final.hasTrans == s.hasTrans
  {
    var loop := PollLoop(s, ticks, executorId, requestId);
    var snap := Interactive(loop.final.steps, loop.final.preview);
    PollRun(loop.messages + [Progress(executorId, requestId, snap.dtos, loop.final, true)],
            loop.final.(preview := snap.rest))
  }

  /** A run sends one final message, last, after progress messages; all on the running-state topic. */
  lemma RunShape(s: EngineState, ticks: seq<Tick>, executorId: string, requestId: string)
    ensures var r := Run(s, ticks, executorId, requestId);
            && |r.messages| >= 1 && IsFinal(r.messages[|r.messages| - 1])
            && (forall i :: 0 <= i < |r.messages| - 1 ==> !IsFinal(r.messages[i]))
            && (forall i :: 0 <= i < |r.messages| ==> r.messages[i].topic == RUNNING_STATE_TOPIC)
            && (FinishedOrStopped(s) ==> |r.messages| == 1)
  {
    PollLoopShape(s, ticks, executorId, requestId);
  }

  /**
   * The messages one `executeByFile` sends, by the way the run goes: a failed build is reported
   * with the failure header and the exception's message and no steps; a failed start with the
   * half-started engine's log and steps; a started run by its poll loop and final message.
   */
  function Reported(projectFile: string, script: StartScript, ticks: seq<Tick>, executorId: string, requestId: string)
    : (sent: seq<Message>)
    requires !script.startFails ==> script.engine.hasTrans
    ensures !PhaseOf(projectFile, script).Started? ==> |sent| == 1 && sent[0].response.Error?
  {
    match PhaseOf(projectFile, script)
    case BuildFailed(m) => [ErrorReport(requestId, executorId, FailureLog(m), None)]
    case StartFailed =>
      var steps := if script.engine.hasTrans then Some(Interactive(script.engine.steps, script.engine.preview).dtos) else None;
      [ErrorReport(requestId, executorId, script.engine.log, steps)]
    case Started => Run(script.engine, ticks, executorId, requestId).messages
  }

  /** Whatever way the run goes, the last message and only it says the run is over. */
  lemma ReportedShape(projectFile: string, script: StartScript, ticks: seq<Tick>, executorId: string, requestId: string)
    requires !script.startFails ==> script.engine.hasTrans
    ensures var sent := Reported(projectFile, script, ticks, executorId, requestId);
            && |sent| >= 1 && IsFinal(sent[|sent| - 1])
            && (forall i :: 0 <= i < |sent| - 1 ==> !IsFinal(sent[i]))
            && (forall i :: 0 <= i < |sent| ==> sent[i].topic == RUNNING_STATE_TOPIC)
  {
    if PhaseOf(projectFile, script).Started? {
      RunShape(script.engine, ticks, executorId, requestId);
    }
  }

  /** One completed sleep of the loop, unfolded at poll `k`. */
  lemma PollLoopStep(s: EngineState, ticks: seq<Tick>, k: nat, executorId: string, requestId: string)
    requires !FinishedOrStopped(s) && k < |ticks| && !ticks[k].interrupted
    ensures var snap := Interactive(s.steps, s.preview);
            var rest := PollLoop(Advance(s.(preview := snap.rest), ticks[k].event), ticks[k + 1..], executorId, requestId);
            PollLoop(s, ticks[k..], executorId, requestId)
              == PollRun([Progress(executorId, requestId, snap.dtos, s, false)] + rest.messages, rest.final)
  {
    assert ticks[k..][0] == ticks[k] && ticks[k..][1..] == ticks[k + 1..];
  }

  /** `total` is the messages sent so far followed by the run `rest` still to come. */
  ghost predicate Resumes(total: PollRun, sent: seq<Message>, rest: PollRun)
  {
    total == PollRun(sent + rest.messages, rest.final)
  }

  /** One completed sleep moves the poll's message from the run to come into the messages sent. */
  lemma ResumeAfterSleep(total: PollRun, sent: seq<Message>, s: EngineState, ticks: seq<Tick>, k: nat,
                         executorId: string, requestId: string, m: Message, s': EngineState)
    requires k < |ticks| && !ticks[k].interrupted && !FinishedOrStopped(s)
    requires Resumes(total, sent, PollLoop(s, ticks[k..], executorId, requestId))
    requires m == Progress(executorId, requestId, Interactive(s.steps, s.preview).dtos, s, false)
    requires s' == Advance(s.(preview := Interactive(s.steps, s.preview).rest), ticks[k].event)
    ensures Resumes(total, sent + [m], PollLoop(s', ticks[k + 1..], executorId, requestId))
  {
    PollLoopStep(s, ticks, k, executorId, requestId);
    var rest := PollLoop(s', ticks[k + 1..], executorId, requestId);
    assert sent + ([m] + rest.messages) == sent + [m] + rest.messages;
  }

  /** Before the first poll the whole run is still to come. */
  lemma ResumesStart(total: PollRun, s: EngineState, ticks: seq<Tick>, executorId: string, requestId: string)
    requires total == PollLoop(s, ticks, executorId, requestId)
    ensures Resumes(total, [], PollLoop(s, ticks[0..], executorId, requestId))
  {
    assert ticks[0..] == ticks;
    assert [] + total.messages == total.messages;
  }

  /** A poll whose sleep was interrupted ends the run, with the engine's progress during that sleep. */
  lemma ResumeInterrupted(total: PollRun, sent: seq<Message>, s: EngineState, ticks: seq<Tick>, k: nat,
                          executorId: string, requestId: string)
    requires k < |ticks| && ticks[k].interrupted && !FinishedOrStopped(s)
    requires Resumes(total, sent, PollLoop(s, ticks[k..], executorId, requestId))
    ensures var snap := Interactive(s.steps, s.preview);
            total == PollRun(sent + [Progress(executorId, requestId, snap.dtos, s, false)],
                             Advance(s.(preview := snap.rest), ticks[k].event))
  {
    assert ticks[k..][0] == ticks[k];
  }

  /** When the run to come is empty, the messages sent are the whole run. */
  lemma ResumesDone(total: PollRun, sent: seq<Message>, rest: PollRun)
    requires Resumes(total, sent, rest)
    requires rest.messages == []
    ensures total == PollRun(sent, rest.final)
  {
    assert sent + [] == sent;
  }

  /**
   * A stop requested during the `j`-th sleep of a running loop (nothing having ended the run
   * before) is observed at the very next poll: the loop ends with the transformation stopped,
   * having sent exactly `j + 1` progress messages.
   */
  lemma {:induction false} StopObservedNextPoll(s: EngineState, ticks: seq<Tick>, executorId: string, requestId: string, j: nat)
    requires !FinishedOrStopped(s)
    requires j < |ticks| && ticks[j].event.stop
    requires forall i :: 0 <= i <= j ==> !ticks[i].interrupted
    requires forall i :: 0 <= i < j ==> !ticks[i].event.finish && !ticks[i].event.stop
    ensures PollLoop(s, ticks, executorId, requestId).final.stopped
    ensures |PollLoop(s, ticks, executorId, requestId).messages| == j + 1
    decreases j
  {
    var snap := Interactive(s.steps, s.preview);
    var s2 := Advance(s.(preview := snap.rest), ticks[0].event);
    if j > 0 {
      assert !FinishedOrStopped(s2);
      forall i | 0 <= i <= j - 1 ensures !ticks[1..][i].interrupted {
        assert ticks[1..][i] == ticks[i + 1];
      }
      forall i | 0 <= i < j - 1 ensures !ticks[1..][i].event.finish && !ticks[1..][i].event.stop {
        assert ticks[1..][i] == ticks[i + 1];
      }
      StopObservedNextPoll(s2, ticks[1..], executorId, requestId, j - 1);
    }
  }

  /** The items of `order` that parse, in order: what the `selectRunningProject` loop collects. */
  function Parsed(order: seq<string>, entries: map<string, string>, parse: string -> Option<ExecutorParam>): seq<ExecutorParam>
    requires forall i :: 0 <= i < |order| ==> order[i] in entries
    decreases |order|
  {
    if order == [] then []
    else
      var init := Parsed(order[..|order| - 1], entries, parse);
      match parse(entries[order[|order| - 1]])
      case Some(p) => init + [p]
      case None => init
  }

  /** `order` lists every element of `keys` exactly once. */
  ghost predicate Enumerates(order: seq<string>, keys: set<string>)
  {
    && (forall i, j :: 0 <= i < j < |order| ==> order[i] != order[j])
    && (forall i :: 0 <= i < |order| ==> order[i] in keys)
    && (forall k :: k in keys ==> k in order)
  }

  class ProjectExecutorService {
    /** `spring.cloud.consul.discovery.instance-id` */
    const instanceId: string
    /** `dp.project.execute.tmpFolder` */
    const tmpFolder: string
    /** `dp.project.execute.tmpFileSuffix` */
    const tmpFileSuffix: string
    /** `dp.project.execute.deleteTmpFile` */
    const deleteTmpFile: bool

    /** Running executions of this instance, by executor id. */
    var executorMap: map<string, TransExecutor>
    /** The shared Redis store. */
    var redis: Store
    /** Every call made to the history mapper, in order. */
    var historyOps: seq<Op>
    /** The file system under the staging folder: path to contents. */
    var files: map<Path, string>

    constructor (instanceId: string, tmpFolder: string, tmpFileSuffix: string, deleteTmpFile: bool,
                 redis: Store, historyOps: seq<Op>, files: map<Path, string>)
      ensures this.instanceId == instanceId && this.tmpFolder == tmpFolder
      ensures this.tmpFileSuffix == tmpFileSuffix && this.deleteTmpFile == deleteTmpFile
      ensures executorMap == map[] && this.redis == redis && this.historyOps == historyOps && this.files == files
    {
      this.instanceId, this.tmpFolder, this.tmpFileSuffix, this.deleteTmpFile := instanceId, tmpFolder, tmpFileSuffix, deleteTmpFile;
      executorMap, this.redis, this.historyOps, this.files := map[], redis, historyOps, files;
    }

    /** The staged file of execution `executorId`. */
    function StagedPath(executorId: string): Path
      reads this
    {
      TmpPath(tmpFolder, executorId, tmpFileSuffix)
    }

    /** `pauseResume(executorId)`: toggles a registered engine and reports whether it is now pausing. */
    method PauseResume(executorId: string) returns (pausing: bool)
      modifies if executorId in executorMap then {executorMap[executorId]} else {}
      ensures executorId !in executorMap ==> !pausing
      ensures executorId in executorMap ==>
                var e := executorMap[executorId];
                e.State() == old(e.State()).(pausing := !old(e.pausing)) && pausing == e.pausing
    {
      if executorId in executorMap {
        var e := executorMap[executorId];
        e.PauseResume();
        pausing := e.pausing;
      } else {
        pausing := false;
      }
    }

    /** `stop(executorId)`: true exactly when the id is registered, whose engine is then told to stop. */
    method Stop(executorId: string) returns (found: bool)
      modifies if executorId in executorMap then {executorMap[executorId]} else {}
      ensures found <==> executorId in executorMap
      ensures found ==> var e := executorMap[executorId]; e.State() == old(e.State()).(stopped := true)
    {
      if executorId in executorMap {
        executorMap[executorId].Stop();
        found := true;
      } else {
        found := false;
      }
    }

    /** `checkExists(userId, projectId)`: CODE_10010 exactly when the user's hash has the project's field. */
    method CheckExists(userId: string, projectId: string) returns (r: Outcome<StatusCode>)
      ensures r == Fail(CODE_10010) <==> HasField(redis, UserKey(userId), projectId)
      ensures r == Pass <==> !HasField(redis, UserKey(userId), projectId)
    {
      var cacheKey := UserKey(userId);
      if HasField(redis, cacheKey, projectId) {
        r := Fail(CODE_10010);
      } else {
        r := Pass;
      }
    }

    /** `stop(userId, projectStopVO)`: always drops the project's field, then stops by executor id. */
    method StopByUser(userId: string, projectId: string, executorId: string) returns (found: bool)
      modifies this`redis, if executorId in executorMap then {executorMap[executorId]} else {}
      ensures redis == HDel(old(redis), UserKey(userId), projectId)
      ensures !HasField(redis, UserKey(userId), projectId)
      ensures found <==> executorId in executorMap
      ensures found ==> var e := executorMap[executorId]; e.State() == old(e.State()).(stopped := true)
    {
      var cacheKey := UserKey(userId);
      redis := HDel(redis, cacheKey, projectId);
      found := Stop(executorId);
    }

    /** `executorIsExists(executorId)` */
    method ExecutorIsExists(executorId: string) returns (exists_: bool)
      ensures exists_ <==> executorId in executorMap
    {
      exists_ := executorId in executorMap;
    }

    /**
     * `saveUserExecuteProject`: writes the request's JSON and this instance's id into the user's
     * hash. It does not look first: `checkExists` is a separate call, so two submissions that both
     * passed it both get here, and the later write wins.
     */
    method SaveUserExecuteProject(p: ExecutorParam, json: string) returns (cacheKey: string)
      modifies this`redis
      ensures cacheKey == UserKey(p.userId)
      ensures redis == HPutAll(old(redis), cacheKey, ClaimFields(p.projectId, json, instanceId))
      ensures HasField(redis, cacheKey, p.projectId)
      ensures HGet(redis, cacheKey, INSTANCEID) == Some(instanceId)
    {
      cacheKey := UserKey(p.userId);
      redis := HPutAll(redis, cacheKey, ClaimFields(p.projectId, json, instanceId));
    }

    /** `saveExecuteHistory`: inserts a RUNNING row for the run, environment JCPT. */
    method SaveExecuteHistory(p: ExecutorParam, historyId: string, now: Long)
      modifies this`historyOps
      ensures historyOps == old(historyOps) + [Insert(StartRow(historyId, p, JCPT, now))]
    {
      historyOps := historyOps + [Insert(StartRow(historyId, p, JCPT, now))];
    }

    /** `updateHistoryStatus`: the one terminal update of the run's row. */
    method UpdateHistoryStatus(start: Long, historyId: string, executor: TransExecutor?, now: Long)
      modifies this`historyOps
      ensures historyOps == old(historyOps) + [Finish(historyId, executor != null, executor != null && executor.stopped, start, now)]
    {
      var status := if executor != null && executor.stopped then TERMINATIN else END;
      historyOps := historyOps + [UpdateSelective(historyId, status, now, ExecSecond(start, now))];
    }

    /**
     * `responseError`: sends a CODE_10010 report that the run is over, then unregisters the
     * executor id and stops its engine if one was registered.
     */
    method ResponseError(p: ExecutorParam, executorId: string, log: string, steps: Option<seq<StepDto>>)
      returns (sent: Message)
      modifies this`executorMap, if executorId in executorMap then {executorMap[executorId]} else {}
      ensures sent == ErrorReport(p.requestId, executorId, log, steps)
      ensures executorMap == old(executorMap) - {executorId}
      ensures executorId in old(executorMap) ==>
                var e := old(executorMap)[executorId]; e.State() == old(e.State()).(stopped := true)
    {
      sent := ErrorReport(p.requestId, executorId, log, steps);
      if executorId in executorMap {
        var e := executorMap[executorId];
        executorMap := executorMap - {executorId};
        e.Stop();
      }
    }

    /**
     * The interactive `buildStepStatus`: `None` without an engine or transformation; otherwise one
     * record per step, in order, each finished step taking (and removing) its buffered preview.
     */
    method BuildStepStatus(e: TransExecutor?) returns (r: Option<seq<StepDto>>)
      modifies e
      ensures e == null ==> r.None?
      ensures e != null && !old(e.hasTrans) ==> r.None? && e.State() == old(e.State())
      ensures e != null && old(e.hasTrans) ==>
                var snap := Interactive(old(e.steps), old(e.preview));
                r == Some(snap.dtos) && e.State() == old(e.State()).(preview := snap.rest)
    {
      if e == null || !e.hasTrans {
        return None;
      }
      var steps := e.steps;
      ghost var buffer := e.preview;
      var dtos: seq<StepDto> := [];
      for i := 0 to |steps|
        invariant Interactive(steps[..i], buffer) == Snapshot(dtos, e.preview)
        invariant e.State() == old(e.State()).(preview := e.preview)
      {
        var step := steps[i];
        var rows: Option<seq<seq<string>>> := None;
        var fieldNames: Option<seq<string>> := None;
        if step.status == STATUS_FINISHED {
          rows := PreviewData(e.preview, step.name);
          fieldNames := PreviewFieldNames(e.preview, step.name);
          e.RemovePreview(step.name);
        }
        dtos := dtos + [StepDtoWith(step, rows, fieldNames)];
        assert steps[..i + 1][..i] == steps[..i];
      }
      assert steps[..|steps|] == steps;
      r := Some(dtos);
    }

    /**
     * The XML-prefix and staging part of `buildTransMeta`: a failed conversion throws before
     * anything is written; otherwise the text is staged at the execution's path, and loading it may
     * still throw.
     */
    method BuildTransMeta(executorId: string, projectFile: string, build: BuildScript) returns (r: Outcome<string>)
      modifies this`files
      ensures match StageOutcome(projectFile, build)
              case Failure(m) => r == Fail(m) && files == old(files)
              case Success(xml) =>
                && files == old(files)[StagedPath(executorId) := xml]
                && r == (if build.loadError.Some? then Fail(build.loadError.value) else Pass)
    {
      var text := projectFile;
      if !StartsWith(projectFile, XML_PREFIX) {
        match build.converted {
          case Failure(m) =>
            return Fail(m);
          case Success(c) =>
            text := XML_DECLARATION + c;
        }
      }
      files := files[StagedPath(executorId) := text];
      match build.loadError {
        case Some(m) => r := Fail(m);
        case None => r := Pass;
      }
    }

    /**
     * The polling loop of `execute`: while the engine is neither finished nor stopped, sends the
     * step statuses and sleeps.
     */
    method Poll(executorId: string, requestId: string, engine: TransExecutor, ticks: seq<Tick>)
      returns (sent: seq<Message>)
      requires engine.hasTrans
      requires |ticks| > 0 && EndsRun(ticks[|ticks| - 1])
      modifies engine
      ensures var run := PollLoop(old(engine.State()), ticks, executorId, requestId);
              sent == run.messages && engine.State() == run.final
    {
      ghost var total := PollLoop(engine.State(), ticks, executorId, requestId);
      sent := [];
      var k := 0;
      ResumesStart(total, engine.State(), ticks, executorId, requestId);
      while !engine.IsFinishedOrStopped()
        invariant 0 <= k <= |ticks|
        invariant k == |ticks| ==> engine.IsFinishedOrStopped()
        invariant engine.hasTrans
        invariant Resumes(total, sent, PollLoop(engine.State(), ticks[k..], executorId, requestId))
        decreases |ticks| - k
      {
        ghost var before := engine.State();
        ghost var snap := Interactive(before.steps, before.preview);
        var steps := BuildStepStatus(engine);
        var m := Progress(executorId, requestId, steps.value, engine.State(), false);
        assert m == Progress(executorId, requestId, snap.dtos, before, false);
        if ticks[k].interrupted {
          engine.Run(ticks[k].event);
          ResumeInterrupted(total, sent, before, ticks, k, executorId, requestId);
          sent := sent + [m];
          break;
        }
        engine.Run(ticks[k].event);
        ResumeAfterSleep(total, sent, before, ticks, k, executorId, requestId, m, engine.State());
        sent := sent + [m];
        k := k + 1;
      }
      if engine.IsFinishedOrStopped() {
        ResumesDone(total, sent, PollLoop(engine.State(), ticks[k..], executorId, requestId));
      }
    }

    /**
     * `execute` once `start` has returned: registers the engine, polls it until it is finished or
     * stopped or the sleep is interrupted, and sends one final message.
     */
    method Execute(executorId: string, requestId: string, engine: TransExecutor, ticks: seq<Tick>)
      returns (sent: seq<Message>)
      requires engine.hasTrans
      requires |ticks| > 0 && EndsRun(ticks[|ticks| - 1])
      modifies this`executorMap, engine
      ensures executorMap == old(executorMap)[executorId := engine]
      ensures var run := Run(old(engine.State()), ticks, executorId, requestId);
              sent == run.messages && engine.State() == run.final
    {
      executorMap := executorMap[executorId := engine];
      sent := Poll(executorId, requestId, engine, ticks);
      var steps := BuildStepStatus(engine);
      sent := sent + [Progress(executorId, requestId, steps.value, engine.State(), true)];
    }

    /**
     * The `try`/`catch` part of `executeByFile`: `execute` (stage, load, start, poll), a
     * `ProjectExecuteException` from `start` reported with the half-started engine's steps and log,
     * any other exception reported with the failure header and its message. Returns the messages
     * sent and the executor `execute` returned, if it returned.
     */
    method Attempt(executorId: string, p: ExecutorParam, projectFile: string, script: StartScript, ticks: seq<Tick>)
      returns (sent: seq<Message>, executor: TransExecutor?)
      requires executorId !in executorMap
      requires !script.startFails ==> script.engine.hasTrans
      requires |ticks| > 0 && EndsRun(ticks[|ticks| - 1])
      modifies this`executorMap, this`files
      ensures files - {StagedPath(executorId)} == old(files) - {StagedPath(executorId)}
      // the staged XML stays as `buildTransMeta` wrote it
      ensures files == AfterStaging(old(files), StagedPath(executorId), projectFile, script.build)
      // the handle is registered only once `start` has returned
      ensures !PhaseOf(projectFile, script).Started? ==> executorMap == old(executorMap)
      ensures PhaseOf(projectFile, script).Started? ==> executor != null && executorMap == old(executorMap)[executorId := executor]
      ensures sent == Reported(projectFile, script, ticks, executorId, p.requestId)
      ensures executor == null <==> !PhaseOf(projectFile, script).Started?
      ensures executor != null ==> executor.stopped == Run(script.engine, ticks, executorId, p.requestId).final.stopped
    {
      executor := null;
      var built := BuildTransMeta(executorId, projectFile, script.build);
      if built.Fail? {
        var m := ResponseError(p, executorId, FailureLog(built.error), None);
        sent := [m];
        return;
      }
      var engine := new TransExecutor(script.engine);
      if script.startFails {
        var steps := BuildStepStatus(engine);
        var m := ResponseError(p, executorId, engine.log, steps);
        sent := [m];
      } else {
        sent := Execute(executorId, p.requestId, engine, ticks);
        executor := engine;
      }
    }

    /**
     * The `finally` block of `executeByFile`: unregisters the executor id, deletes the staged file
     * (when `deleteTmpFile`), drops the project's field from the user's hash and writes the
     * history row's terminal update.
     */
    method Finally(executorId: string, cacheKey: string, projectId: string, currentTimeMillis: Long,
                   historyId: string, executor: TransExecutor?, endNow: Long)
      modifies this`executorMap, this`redis, this`historyOps, this`files
      ensures executorMap == old(executorMap) - {executorId}
      ensures files - {StagedPath(executorId)} == old(files) - {StagedPath(executorId)}
      ensures deleteTmpFile ==> StagedPath(executorId) !in files
      ensures !deleteTmpFile ==> files == old(files)
      ensures redis == HDel(old(redis), cacheKey, projectId)
      ensures historyOps == old(historyOps) + [Finish(historyId, executor != null, executor != null && executor.stopped,
                                                      currentTimeMillis, endNow)]
    {
      executorMap := executorMap - {executorId};
      var tmpFile := StagedPath(executorId);
      if deleteTmpFile && tmpFile in files {
        files := files - {tmpFile};
      }
      redis := HDel(redis, cacheKey, projectId);
      UpdateHistoryStatus(currentTimeMillis, historyId, executor, endNow);
    }

    /**
     * `executeByFile`: claims the user's guard field, inserts the RUNNING history row, runs the
     * execution, and in its `finally` block unregisters the executor id, deletes the staged file
     * (when `deleteTmpFile`), drops the guard field and writes the row's one terminal update.
     * `now` is the submission instant, `endNow` the clock when the history row is finalised,
     * `toJson` the JSON library's rendering of a request, `historyId` the id `UUIDUtils.nextId()` yields.
     */
    method ExecuteByFile(projectFile: string, param: ExecutorParam, toJson: ExecutorParam -> string,
                         script: StartScript, ticks: seq<Tick>, historyId: string, now: Long, endNow: Long)
      returns (sent: seq<Message>)
      requires param.executorId !in executorMap
      requires !script.startFails ==> script.engine.hasTrans
      requires |ticks| > 0 && EndsRun(ticks[|ticks| - 1])
      modifies this`executorMap, this`redis, this`historyOps, this`files
      // every exit path: the registry, the guard and the staged file are cleaned up
      ensures executorMap == old(executorMap)
      ensures var key := UserKey(param.userId);
              redis == HDel(HPutAll(old(redis), key, ClaimFields(param.projectId, toJson(param.(startTime := now)), instanceId)),
                            key, param.projectId)
      ensures !HasField(redis, UserKey(param.userId), param.projectId)
      ensures files - {StagedPath(param.executorId)} == old(files) - {StagedPath(param.executorId)}
      ensures deleteTmpFile ==> StagedPath(param.executorId) !in files
      ensures !deleteTmpFile ==> files == AfterStaging(old(files), StagedPath(param.executorId), projectFile, script.build)
      // the history row: inserted RUNNING, then updated exactly once
      ensures var phase := PhaseOf(projectFile, script);
              var stopped := phase.Started? && Run(script.engine, ticks, param.executorId, param.requestId).final.stopped;
              historyOps == old(historyOps) + [Insert(StartRow(historyId, param.(startTime := now), JCPT, now)),
                                               Finish(historyId, phase.Started?, stopped, now, endNow)]
      // what the callback receives
      ensures sent == Reported(projectFile, script, ticks, param.executorId, param.requestId)
    {
      var p := param.(startTime := now);
      var executorId := p.executorId;
      var cacheKey := SaveUserExecuteProject(p, toJson(p));
      var currentTimeMillis := now;
      SaveExecuteHistory(p, historyId, now);
      var executor;
      sent, executor := Attempt(executorId, p, projectFile, script, ticks);
      UnregisterRestores(old(executorMap), executorId, executor);
      Finally(executorId, cacheKey, p.projectId, currentTimeMillis, historyId, executor, endNow);
    }

    /**
     * `selectRunningProject(userId)`: the parsable requests in the user's hash, the `instanceId`
     * field excluded and unparsable values skipped, latest start first. The hash is visited in
     * some order (`order`), which `HashMap` leaves unspecified.
     */
    method SelectRunningProject(userId: string, parse: string -> Option<ExecutorParam>)
      returns (result: seq<ExecutorParam>, ghost order: seq<string>)
      ensures var entries := Entries(redis, UserKey(userId)) - {INSTANCEID};
              && Enumerates(order, entries.Keys)
              && multiset(result) == multiset(Parsed(order, entries, parse))
      ensures SortedByStartDesc(result)
    {
      var entries := Entries(redis, UserKey(userId));
      entries := entries - {INSTANCEID};
      var collected: seq<ExecutorParam> := [];
      var remaining := entries.Keys;
      order := [];
      while remaining != {}
        invariant remaining <= entries.Keys
        invariant forall i :: 0 <= i < |order| ==> order[i] in entries && order[i] !in remaining
        invariant forall i, j :: 0 <= i < j < |order| ==> order[i] != order[j]
        invariant forall k :: k in entries ==> k in remaining || k in order
        invariant collected == Parsed(order, entries, parse)
        decreases remaining
      {
        var field :| field in remaining;
        match parse(entries[field]) {
          case Some(p) => collected := collected + [p];
          case None =>  // the IOException is logged and the value skipped
        }
        order := order + [field];
        remaining := remaining - {field};
      }
      result := SortByStartDesc(collected);
    }
  }
}
