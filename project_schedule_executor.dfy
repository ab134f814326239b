/**
 * `ProjectScheduleExecutorService`, the scheduled (REST) executor: one execution per project,
 * guarded by the string value `di_re_<projectId>` (the executor id), with the owning instance
 * under `instanceId_<projectId>` and a liveness timestamp in field `projectId` of the hash
 * `di_schedule_exec_heartbeat`. Its poll loop refreshes that timestamp at most once per
 * `heartbeatInterval` seconds; its `finally` block removes the guard and the heartbeat. A failed
 * run is reported once on the callback and its exception rethrown to the caller.
 */
module ProjectScheduleExecutor {
  import opened Wrappers
  import opened JavaLang
  import opened Dto
  import opened Redis
  import opened History
  import opened Engine
  import opened StepReport
  import opened Staging

  const INSTANCE_ID_CACHE_KEY_PREFIX: string := "instanceId_"
  const CACHE_PREFIX: string := "di_re_"
  const DI_SCHEDULE_EXEC_HEARTBEAT_CACHE_KEY: string := "di_schedule_exec_heartbeat"

  /**
   * The guard value of a project: the executor id of its running execution. A string key of its
   * own prefix, apart from the interactive executor's per-user hashes (`ProjectExecutor.UserKey`).
   */
  function GuardKey(projectId: string): (key: string)
    ensures StartsWith(key, CACHE_PREFIX) && key[|CACHE_PREFIX|..] == projectId
  {
    CACHE_PREFIX + projectId
  }

  /** The instance running a project's execution. */
  function InstanceKey(projectId: string): (key: string)
    ensures StartsWith(key, INSTANCE_ID_CACHE_KEY_PREFIX) && key[|INSTANCE_ID_CACHE_KEY_PREFIX|..] == projectId
  {
    INSTANCE_ID_CACHE_KEY_PREFIX + projectId
  }

  /**
   * The three kinds of key never collide: a guard key is not an instance key nor the heartbeat
   * hash, and different projects have different guard keys.
   */
  lemma {:induction false} KeysDistinct(p: string, q: string)
    ensures GuardKey(p) != InstanceKey(q)
    ensures GuardKey(p) != DI_SCHEDULE_EXEC_HEARTBEAT_CACHE_KEY
    ensures InstanceKey(q) != DI_SCHEDULE_EXEC_HEARTBEAT_CACHE_KEY
    ensures GuardKey(p) == GuardKey(q) ==> p == q
  {
    assert GuardKey(p)[0] == 'd' && InstanceKey(q)[0] == 'i';
    assert GuardKey(p)[3] == 'r' && DI_SCHEDULE_EXEC_HEARTBEAT_CACHE_KEY[3] == 's';
    assert InstanceKey(q)[0] == 'i' && DI_SCHEDULE_EXEC_HEARTBEAT_CACHE_KEY[0] == 'd';
    if GuardKey(p) == GuardKey(q) {
      assert p == GuardKey(p)[|CACHE_PREFIX|..] == GuardKey(q)[|CACHE_PREFIX|..] == q;
    }
  }

  // ---------------------------------------------------------------------------------------
  // Elapsed time, the throttle and the staleness test

  /** `(now - since) / 1000` on Java `long`s: the whole seconds elapsed, truncated. */
  function ElapsedSeconds(now: Long, since: Long): (s: Long)
    ensures 0 <= now - since <= LONG_MAX ==> 0 <= s && s * 1000 <= now - since < s * 1000 + 1000
    ensures now - since < 0 && LONG_MIN <= now - since ==> s <= 0
  {
    MillisToSeconds(LongSub(now, since))
  }

  /** For a forward clock step, "at least `n` whole seconds" means "at least `1000 * n` milliseconds". */
  lemma {:induction false} ElapsedAtLeast(now: Long, since: Long, n: int)
    requires 0 <= now - since <= LONG_MAX
    ensures ElapsedSeconds(now, since) >= n <==> now - since >= 1000 * n
  {
    var sec, d := ElapsedSeconds(now, since), now - since;
    assert LongSub(now, since) == d;
    assert 0 <= sec && sec * 1000 <= d < sec * 1000 + 1000;
    if sec >= n {
      assert sec * 1000 >= n * 1000 by {
        assert (sec - n) * 1000 >= 0;
      }
    } else {
      assert sec + 1 <= n;
      assert (sec + 1) * 1000 <= n * 1000 by {
        assert (n - (sec + 1)) * 1000 >= 0;
      }
    }
  }

  /** The throttle of the poll loop: a heartbeat is due once `interval` whole seconds have passed since the last one. */
  predicate HeartbeatDue(now: Long, last: Long, interval: Int): (due: bool)
    ensures 0 <= now - last <= LONG_MAX ==> (due <==> now - last >= 1000 * interval)
  {
    if 0 <= now - last <= LONG_MAX then
      ElapsedAtLeast(now, last, interval);
      ElapsedSeconds(now, last) >= interval
    else
      ElapsedSeconds(now, last) >= interval
  }

  /** What `checkExists(projectId)` does: return normally, throw CODE_10010, or fail to parse the heartbeat. */
  datatype CheckResult =
    | Admitted      // returns normally: the caller goes on to start the execution
    | Duplicate     // ValidationException with CODE_10010
    | BadHeartbeat  // NumberFormatException from Long.parseLong

  /** The heartbeat timestamp stored for a project, as text. */
  function HeartbeatText(r: Store, projectId: string): Option<string>
  {
    HGet(r, DI_SCHEDULE_EXEC_HEARTBEAT_CACHE_KEY, projectId)
  }

  /**
   * `checkExists` as written: with the guard present and a heartbeat stored, it throws CODE_10010
   * when the heartbeat is at least `heartbeatTimeout` seconds OLD, and lets the caller through when
   * it is recent.
   */
  function CheckAsWritten(r: Store, projectId: string, now: Long, heartbeatTimeout: Int): (c: CheckResult)
    ensures Get(r, GuardKey(projectId)).None? ==> c == Admitted
    ensures HeartbeatText(r, projectId).None? ==> c == Admitted
    ensures c == BadHeartbeat <==>
              Get(r, GuardKey(projectId)).Some? && HeartbeatText(r, projectId).Some?
              && ParseLong(HeartbeatText(r, projectId).value).None?
    ensures c == Duplicate <==>
              && Get(r, GuardKey(projectId)).Some? && HeartbeatText(r, projectId).Some?
              && var hb := ParseLong(HeartbeatText(r, projectId).value);
              hb.Some? && ElapsedSeconds(now, hb.value) >= heartbeatTimeout
  {
    if Get(r, GuardKey(projectId)).None? then Admitted
    else match HeartbeatText(r, projectId)
      case None => Admitted
      case Some(text) =>
        match ParseLong(text)
        case None => BadHeartbeat
        case Some(hb) => if ElapsedSeconds(now, hb) >= heartbeatTimeout then Duplicate else Admitted
  }

  /**
   * `checkExists` as its guard-plus-heartbeat structure calls for: the running execution refreshes
   * its heartbeat every `heartbeatInterval` seconds, so a project whose guard is held is refused
   * while its heartbeat is younger than `heartbeatTimeout`; a stale or missing heartbeat marks the
   * holder as abandoned and lets a new start take over.
   */
  function CheckIntended(r: Store, projectId: string, now: Long, heartbeatTimeout: Int): (c: CheckResult)
    ensures Get(r, GuardKey(projectId)).None? ==> c == Admitted
    ensures HeartbeatText(r, projectId).None? ==> c == Admitted
    ensures c == BadHeartbeat <==> CheckAsWritten(r, projectId, now, heartbeatTimeout) == BadHeartbeat
    ensures c == Duplicate <==>
              && Get(r, GuardKey(projectId)).Some? && HeartbeatText(r, projectId).Some?
              && var hb := ParseLong(HeartbeatText(r, projectId).value);
              hb.Some? && ElapsedSeconds(now, hb.value) < heartbeatTimeout
  {
    if Get(r, GuardKey(projectId)).None? then Admitted
    else match HeartbeatText(r, projectId)
      case None => Admitted
      case Some(text) =>
        match ParseLong(text)
        case None => BadHeartbeat
        case Some(hb) => if ElapsedSeconds(now, hb) < heartbeatTimeout then Duplicate else Admitted
  }

  /**
   * A heartbeat the service wrote `now - hb` milliseconds ago, with the guard still held: when it
   * is at least `heartbeatTimeout` seconds old the intended check lets a new start take over, but
   * the check as written refuses it; when it is younger, the intended check refuses the duplicate
   * and the check as written lets it through. The two always disagree.
   */
  lemma {:induction false} CheckInverted(r: Store, projectId: string, hb: Long, now: Long, heartbeatTimeout: Int)
    requires Get(r, GuardKey(projectId)).Some?
    requires HeartbeatText(r, projectId) == Some(ShowLong(hb))
    requires 0 <= now - hb <= LONG_MAX
    ensures now - hb >= 1000 * heartbeatTimeout ==>
              CheckIntended(r, projectId, now, heartbeatTimeout) == Admitted
              && CheckAsWritten(r, projectId, now, heartbeatTimeout) == Duplicate
    ensures now - hb < 1000 * heartbeatTimeout ==>
              CheckIntended(r, projectId, now, heartbeatTimeout) == Duplicate
              && CheckAsWritten(r, projectId, now, heartbeatTimeout) == Admitted
  {
    ParseShowLong(hb);
    ElapsedAtLeast(now, hb, heartbeatTimeout);
  }

  /**
   * An abandoned execution, with the default `heartbeatTimeout` of 180 s: no refresh for 200 s,
   * guard still held. The intended check lets the new start through; the check as written throws
   * CODE_10010.
   */
  lemma StaleGuardRefused(r: Store, projectId: string, hb: Long)
    requires Get(r, GuardKey(projectId)).Some?
    requires HeartbeatText(r, projectId) == Some(ShowLong(hb))
    requires 0 <= hb <= LONG_MAX - 200_000
    ensures CheckIntended(r, projectId, hb + 200_000, 180) == Admitted
    ensures CheckAsWritten(r, projectId, hb + 200_000, 180) == Duplicate
  {
    CheckInverted(r, projectId, hb, hb + 200_000, 180);
  }

  /**
   * A heartbeat the service wrote with `String.valueOf` never makes `checkExists` throw a
   * `NumberFormatException`, under either reading of the check.
   */
  lemma {:induction false} WrittenHeartbeatParses(r: Store, projectId: string, hb: Long, now: Long, heartbeatTimeout: Int)
    requires HeartbeatText(r, projectId) == Some(ShowLong(hb))
    ensures CheckAsWritten(r, projectId, now, heartbeatTimeout) != BadHeartbeat
    ensures CheckIntended(r, projectId, now, heartbeatTimeout) != BadHeartbeat
  {
    ParseShowLong(hb);
  }

  // ---------------------------------------------------------------------------------------
  // Messages and the poll loop

  /** A `/runningState` message of the scheduled executor: no request id and no error count. */
  function Progress(executorId: string, steps: seq<StepDto>, log: string, finished: bool): (m: Message)
    ensures m.topic == RUNNING_STATE_TOPIC && m.response.Ok? && IsFinal(m) == finished
    ensures m.response.data.requestId.None? && m.response.data.errors.None?
    ensures m.response.data.executorSteps == Some(steps) && m.response.data.log == log
  {
    Message(RUNNING_STATE_TOPIC, Ok(ExecutorDto(None, executorId, finished, Some(steps), None, log)))
  }

  /** The message the `catch` block sends before rethrowing: a success envelope with only the failure log. */
  function ErrorNotice(executorId: string, message: string): (m: Message)
    ensures m.topic == RUNNING_STATE_TOPIC && m.response.Ok? && !IsFinal(m)
    ensures m.response.data.executorSteps.None? && m.response.data.log == FailureLog(message)
  {
    Message(RUNNING_STATE_TOPIC, Ok(ExecutorDto(None, executorId, false, None, None, FailureLog(message))))
  }

  /**
   * A run of the poll loop: the progress messages, the engine state it ends in, the timestamps
   * of the heartbeats it wrote, for each completed sleep the heartbeat then stored, and the
   * heartbeat stored when it ends.
   */
  datatype LoopRun = LoopRun(messages: seq<Message>, final: EngineState, beats: seq<Long>, seen: seq<Long>, heartbeat: Long)

  /**
   * The `while (!isFinishedOrStopped())` loop of `execute` from engine state `s`, the world
   * behaving as `ticks` says. `last` is `lastHeartbeatTime`; `stored` is the timestamp in the
   * heartbeat hash. After each completed sleep the heartbeat is rewritten, and `last` moved, only
   * when the throttle says it is due; an interrupted sleep leaves the loop first, with whatever
   * the engine did before the interruption and no heartbeat.
   */
  function PollLoop(s: EngineState, ticks: seq<Tick>, executorId: string, interval: Int, stored: Long, last: Long)
    : (r: LoopRun)
    ensures FinishedOrStopped(s) ==> r == LoopRun([], s, [], [], stored)
    ensures r.final.hasTrans == s.hasTrans
    ensures s.stopped ==> r.final.stopped
    ensures |r.beats| <= |r.seen| <= |ticks|
    decreases |ticks|
  {
    if FinishedOrStopped(s) then LoopRun([], s, [], [], stored)
    else
      var m := Progress(executorId, Plain(s.steps), s.log, false);
      if |ticks| == 0 then LoopRun([m], s, [], [], stored)
      else if ticks[0].interrupted then LoopRun([m], Advance(s, ticks[0].event), [], [], stored)
      else
        var now := ticks[0].now;
        var due := HeartbeatDue(now, last, interval);
        var rest := PollLoop(Advance(s, ticks[0].event), ticks[1..], executorId, interval,
                             if due then now else stored, if due then now else last);
        LoopRun([m] + rest.messages, rest.final, (if due then [now] else []) + rest.beats, [stored] + rest.seen,
                rest.heartbeat)
  }

  /**
   * The shape of a run: at least one message unless the engine was already done, none of them
   * final and all on the running-state topic; no heartbeat after an interrupted first sleep.
   */
  lemma {:induction false} PollLoopShape(s: EngineState, ticks: seq<Tick>, executorId: string, interval: Int,
                                         stored: Long, last: Long)
    ensures var r := PollLoop(s, ticks, executorId, interval, stored, last);
            && (!FinishedOrStopped(s) ==> 1 <= |r.messages| <= |ticks| + 1)
            && (forall i :: 0 <= i < |r.messages| ==> !IsFinal(r.messages[i]) && r.messages[i].topic == RUNNING_STATE_TOPIC)
            && (|ticks| > 0 && ticks[0].interrupted ==> r.beats == [] && r.seen == [])
    decreases |ticks|
  {
    if !FinishedOrStopped(s) && |ticks| > 0 && !ticks[0].interrupted {
      var now := ticks[0].now;
      var due := HeartbeatDue(now, last, interval);
      PollLoopShape(Advance(s, ticks[0].event), ticks[1..], executorId, interval,
                    if due then now else stored, if due then now else last);
    }
  }

  /** The hash ends up holding the latest heartbeat the loop wrote, or the one stored before it. */
  lemma {:induction false} LatestHeartbeat(s: EngineState, ticks: seq<Tick>, executorId: string, interval: Int,
                                           stored: Long, last: Long)
    ensures var r := PollLoop(s, ticks, executorId, interval, stored, last);
            r.heartbeat == if r.beats == [] then stored else r.beats[|r.beats| - 1]
    decreases |ticks|
  {
    if !FinishedOrStopped(s) && |ticks| > 0 && !ticks[0].interrupted {
      var now := ticks[0].now;
      var due := HeartbeatDue(now, last, interval);
      LatestHeartbeat(Advance(s, ticks[0].event), ticks[1..], executorId, interval,
                      if due then now else stored, if due then now else last);
    }
  }

  /**
   * The heartbeat throttle: the first heartbeat the loop writes is due relative to `last`, and
   * each later one relative to the one before it.
   */
  lemma {:induction false} HeartbeatsThrottled(s: EngineState, ticks: seq<Tick>, executorId: string, interval: Int,
                                               stored: Long, last: Long)
    ensures var r := PollLoop(s, ticks, executorId, interval, stored, last);
            && (|r.beats| > 0 ==> HeartbeatDue(r.beats[0], last, interval))
            && (forall i :: 0 < i < |r.beats| ==> HeartbeatDue(r.beats[i], r.beats[i - 1], interval))
    decreases |ticks|
  {
    if !FinishedOrStopped(s) && |ticks| > 0 && !ticks[0].interrupted {
      var now := ticks[0].now;
      var due := HeartbeatDue(now, last, interval);
      var stored', last' := if due then now else stored, if due then now else last;
      HeartbeatsThrottled(Advance(s, ticks[0].event), ticks[1..], executorId, interval, stored', last');
      var rest := PollLoop(Advance(s, ticks[0].event), ticks[1..], executorId, interval, stored', last');
      var beats := PollLoop(s, ticks, executorId, interval, stored, last).beats;
      assert beats == (if due then [now] else []) + rest.beats;
      forall i | 0 < i < |beats|
        ensures HeartbeatDue(beats[i], beats[i - 1], interval)
      {
        if due {
          assert beats[i] == rest.beats[i - 1];
        }
      }
    }
  }

  /** One completed sleep of the loop, unfolded at poll `k`. */
  lemma PollLoopStep(s: EngineState, ticks: seq<Tick>, k: nat, executorId: string, interval: Int,
                     stored: Long, last: Long, stored': Long, last': Long, beat: seq<Long>)
    requires !FinishedOrStopped(s) && k < |ticks| && !ticks[k].interrupted
    requires HeartbeatDue(ticks[k].now, last, interval) ==>
               stored' == ticks[k].now && last' == ticks[k].now && beat == [ticks[k].now]
    requires !HeartbeatDue(ticks[k].now, last, interval) ==> stored' == stored && last' == last && beat == []
    ensures var rest := PollLoop(Advance(s, ticks[k].event), ticks[k + 1..], executorId, interval, stored', last');
            PollLoop(s, ticks[k..], executorId, interval, stored, last)
              == LoopRun([Progress(executorId, Plain(s.steps), s.log, false)] + rest.messages, rest.final,
                         beat + rest.beats, [stored] + rest.seen, rest.heartbeat)
  {
    assert ticks[k..][0] == ticks[k] && ticks[k..][1..] == ticks[k + 1..];
  }

  /** `total` is the run so far (`sent`, `beats`, `seen`) followed by the run `rest` still to come. */
  ghost predicate Resumes(total: LoopRun, sent: seq<Message>, beats: seq<Long>, seen: seq<Long>, rest: LoopRun)
  {
    total == LoopRun(sent + rest.messages, rest.final, beats + rest.beats, seen + rest.seen, rest.heartbeat)
  }

  /**
   * One completed sleep moves from the run to come into the run so far: the poll's message and the
   * heartbeat it saw are appended, and a due heartbeat becomes both the stored and the throttle's value.
   */
  lemma {:induction false} ResumeAfterSleep(total: LoopRun, sent: seq<Message>, beats: seq<Long>, seen: seq<Long>,
                                            s: EngineState, ticks: seq<Tick>, k: nat, executorId: string, interval: Int,
                                            stored: Long, last: Long,
                                            sent': seq<Message>, beats': seq<Long>, seen': seq<Long>,
                                            s': EngineState, stored': Long, last': Long)
    requires k < |ticks| && !ticks[k].interrupted && !FinishedOrStopped(s)
    requires Resumes(total, sent, beats, seen, PollLoop(s, ticks[k..], executorId, interval, stored, last))
    requires sent' == sent + [Progress(executorId, Plain(s.steps), s.log, false)]
    requires seen' == seen + [stored]
    requires s' == Advance(s, ticks[k].event)
    requires HeartbeatDue(ticks[k].now, last, interval) ==>
               beats' == beats + [ticks[k].now] && stored' == ticks[k].now && last' == ticks[k].now
    requires !HeartbeatDue(ticks[k].now, last, interval) ==> beats' == beats && stored' == stored && last' == last
    ensures Resumes(total, sent', beats', seen', PollLoop(s', ticks[k + 1..], executorId, interval, stored', last'))
  {
    var due := HeartbeatDue(ticks[k].now, last, interval);
    var beat := if due then [ticks[k].now] else [];
    PollLoopStep(s, ticks, k, executorId, interval, stored, last, stored', last', beat);
    assert beats' == beats + beat;
    ResumesShift(total, sent, beats, seen, Progress(executorId, Plain(s.steps), s.log, false), beat, stored,
                 PollLoop(s', ticks[k + 1..], executorId, interval, stored', last'));
  }

  /** Moving one poll's message, heartbeat and seen value from the run to come into the run so far. */
  lemma ResumesShift(total: LoopRun, sent: seq<Message>, beats: seq<Long>, seen: seq<Long>,
                     m: Message, beat: seq<Long>, stored: Long, rest: LoopRun)
    requires Resumes(total, sent, beats, seen,
                     LoopRun([m] + rest.messages, rest.final, beat + rest.beats, [stored] + rest.seen, rest.heartbeat))
    ensures Resumes(total, sent + [m], beats + beat, seen + [stored], rest)
  {
    assert sent + ([m] + rest.messages) == sent + [m] + rest.messages;
    assert seen + ([stored] + rest.seen) == seen + [stored] + rest.seen;
    assert beats + (beat + rest.beats) == beats + beat + rest.beats;
  }

  /** Before the first poll the whole run is still to come. */
  lemma ResumesStart(total: LoopRun, s: EngineState, ticks: seq<Tick>, executorId: string, interval: Int,
                     stored: Long, last: Long)
    requires total == PollLoop(s, ticks, executorId, interval, stored, last)
    ensures Resumes(total, [], [], [], PollLoop(s, ticks[0..], executorId, interval, stored, last))
  {
    assert ticks[0..] == ticks;
    assert [] + total.messages == total.messages && [] + total.beats == total.beats && [] + total.seen == total.seen;
  }

  /** A poll whose sleep was interrupted ends the run, with the engine's progress during that sleep. */
  lemma {:induction false} ResumeInterrupted(total: LoopRun, sent: seq<Message>, beats: seq<Long>, seen: seq<Long>,
                                             s: EngineState, ticks: seq<Tick>, k: nat, executorId: string, interval: Int,
                                             stored: Long, last: Long)
    requires k < |ticks| && ticks[k].interrupted && !FinishedOrStopped(s)
    requires Resumes(total, sent, beats, seen, PollLoop(s, ticks[k..], executorId, interval, stored, last))
    ensures total == LoopRun(sent + [Progress(executorId, Plain(s.steps), s.log, false)], Advance(s, ticks[k].event),
                             beats, seen, stored)
  {
    assert beats + [] == beats && seen + [] == seen;
  }

  /** When the run to come is empty, the run so far is the whole run. */
  lemma ResumesDone(total: LoopRun, sent: seq<Message>, beats: seq<Long>, seen: seq<Long>, rest: LoopRun)
    requires Resumes(total, sent, beats, seen, rest)
    requires rest.messages == [] && rest.beats == [] && rest.seen == []
    ensures total == LoopRun(sent, rest.final, beats, seen, rest.heartbeat)
  {
    assert sent + [] == sent && beats + [] == beats && seen + [] == seen;
  }

  /**
   * A running execution keeps its heartbeat fresh. Suppose the clock never goes back, every sleep
   * and the start-up take less than `gap` ms, and the stored heartbeat lags `last` by at most
   * `lag` ms. Then after every completed sleep the stored heartbeat is less than
   * `1000 * interval + gap + lag` ms old.
   */
  lemma {:induction false} HeartbeatStaysFresh(s: EngineState, ticks: seq<Tick>, executorId: string, interval: Int,
                                                stored: Long, last: Long, gap: int, lag: int)
    requires 0 <= interval && 0 <= stored <= last && last - stored <= lag
    requires |ticks| > 0 ==> last <= ticks[0].now && ticks[0].now - last < 1000 * interval + gap
    requires forall i :: 0 <= i < |ticks| - 1 ==> ticks[i].now <= ticks[i + 1].now < ticks[i].now + gap
    ensures var r := PollLoop(s, ticks, executorId, interval, stored, last);
            forall i :: 0 <= i < |r.seen| ==> 0 <= ticks[i].now - r.seen[i] < 1000 * interval + gap + lag
    decreases |ticks|
  {
    var r := PollLoop(s, ticks, executorId, interval, stored, last);
    if !FinishedOrStopped(s) && |ticks| > 0 && !ticks[0].interrupted {
      var now := ticks[0].now;
      var due := HeartbeatDue(now, last, interval);
      ElapsedAtLeast(now, last, interval);
      var stored', last' := if due then now else stored, if due then now else last;
      forall i | 0 <= i < |ticks[1..]| - 1
        ensures ticks[1..][i].now <= ticks[1..][i + 1].now < ticks[1..][i].now + gap
      {
        assert ticks[1..][i] == ticks[i + 1] && ticks[1..][i + 1] == ticks[i + 2];
      }
      if |ticks| > 1 {
        assert ticks[1..][0].now - last' < 1000 * interval + gap;
      }
      HeartbeatStaysFresh(Advance(s, ticks[0].event), ticks[1..], executorId, interval, stored', last', gap, lag);
      var rest := PollLoop(Advance(s, ticks[0].event), ticks[1..], executorId, interval, stored', last');
      assert r.seen == [stored] + rest.seen;
      forall i | 0 <= i < |r.seen|
        ensures 0 <= ticks[i].now - r.seen[i] < 1000 * interval + gap + lag
      {
        if i > 0 {
          assert r.seen[i] == rest.seen[i - 1] && ticks[i] == ticks[1..][i - 1];
        }
      }
    }
  }

  /**
   * What the finding costs a healthy run: if the timeout leaves room for the throttle interval,
   * one sleep and the start-up lag, then at every completed sleep of a running execution the
   * check as written lets a duplicate start through, while the intended check would refuse it.
   */
  lemma {:induction false} RunningExecutionUnguarded(s: EngineState, ticks: seq<Tick>, executorId: string,
                                                     interval: Int, stored: Long, last: Long, gap: int, lag: int,
                                                     timeout: Int, r: Store, projectId: string, i: nat)
    requires 0 <= interval && 0 <= stored <= last && last - stored <= lag
    requires |ticks| > 0 ==> last <= ticks[0].now && ticks[0].now - last < 1000 * interval + gap
    requires forall j :: 0 <= j < |ticks| - 1 ==> ticks[j].now <= ticks[j + 1].now < ticks[j].now + gap
    requires 1000 * interval + gap + lag <= 1000 * timeout
    requires i < |PollLoop(s, ticks, executorId, interval, stored, last).seen|
    requires Get(r, GuardKey(projectId)).Some?
    requires HeartbeatText(r, projectId) == Some(ShowLong(PollLoop(s, ticks, executorId, interval, stored, last).seen[i]))
    ensures CheckAsWritten(r, projectId, ticks[i].now, timeout) == Admitted
    ensures CheckIntended(r, projectId, ticks[i].now, timeout) == Duplicate
  {
    var run := PollLoop(s, ticks, executorId, interval, stored, last);
    HeartbeatStaysFresh(s, ticks, executorId, interval, stored, last, gap, lag);
    CheckInverted(r, projectId, run.seen[i], ticks[i].now, timeout);
  }

  /** `base` with `t` as the stored heartbeat of `projectId`. */
  function WithHeartbeat(base: Store, projectId: string, t: Long): Store
  {
    base.(hashes := base.hashes[DI_SCHEDULE_EXEC_HEARTBEAT_CACHE_KEY :=
                                  Entries(base, DI_SCHEDULE_EXEC_HEARTBEAT_CACHE_KEY)[projectId := ShowLong(t)]])
  }

  /** Writing the heartbeat field is `WithHeartbeat`, and a later write replaces an earlier one. */
  lemma HeartbeatWrite(base: Store, projectId: string, previous: Long, t: Long)
    ensures HPut(base, DI_SCHEDULE_EXEC_HEARTBEAT_CACHE_KEY, projectId, ShowLong(t)) == WithHeartbeat(base, projectId, t)
    ensures HPut(WithHeartbeat(base, projectId, previous), DI_SCHEDULE_EXEC_HEARTBEAT_CACHE_KEY, projectId, ShowLong(t))
              == WithHeartbeat(base, projectId, t)
  {
    var e := Entries(base, DI_SCHEDULE_EXEC_HEARTBEAT_CACHE_KEY);
    assert e + map[projectId := ShowLong(t)] == e[projectId := ShowLong(t)];
    var e' := e[projectId := ShowLong(previous)];
    assert e' + map[projectId := ShowLong(t)] == e[projectId := ShowLong(t)];
  }

  /**
   * What a scheduled `executeByFile` leaves in Redis: the guard value and the heartbeat field
   * are gone, but the instance key it set is never deleted.
   */
  function Released(r: Store, projectId: string, executorId: string, instanceId: string): Store
  {
    var claimed := Set(Set(r, GuardKey(projectId), executorId), InstanceKey(projectId), instanceId);
    HDel(Del(claimed, {GuardKey(projectId)}), DI_SCHEDULE_EXEC_HEARTBEAT_CACHE_KEY, projectId)
  }

  /**
   * After a scheduled `executeByFile` the guard is free and the heartbeat field gone, the
   * instance key holds this instance's id, and every other key and heartbeat field is as before.
   */
  lemma ReleasedEffect(r: Store, projectId: string, executorId: string, instanceId: string)
    ensures var r' := Released(r, projectId, executorId, instanceId);
            && Get(r', GuardKey(projectId)).None?
            && Get(r', InstanceKey(projectId)) == Some(instanceId)
            && HeartbeatText(r', projectId).None?
            && (forall k :: k != GuardKey(projectId) && k != InstanceKey(projectId) ==> Get(r', k) == Get(r, k))
            && (forall f :: f != projectId ==>
                  HGet(r', DI_SCHEDULE_EXEC_HEARTBEAT_CACHE_KEY, f) == HGet(r, DI_SCHEDULE_EXEC_HEARTBEAT_CACHE_KEY, f))
  {
    KeysDistinct(projectId, projectId);
  }

  /**
   * The `finally` block forgets every heartbeat the run wrote: deleting the guard and then the
   * heartbeat field leaves the same store whatever heartbeat was last written.
   */
  lemma {:induction false} ReleaseForgetsHeartbeat(r: Store, projectId: string, guard: string, t: Long)
    requires guard != DI_SCHEDULE_EXEC_HEARTBEAT_CACHE_KEY
    ensures HDel(Del(WithHeartbeat(r, projectId, t), {guard}), DI_SCHEDULE_EXEC_HEARTBEAT_CACHE_KEY, projectId)
              == HDel(Del(r, {guard}), DI_SCHEDULE_EXEC_HEARTBEAT_CACHE_KEY, projectId)
  {
    var key := DI_SCHEDULE_EXEC_HEARTBEAT_CACHE_KEY;
    var a := HDel(Del(WithHeartbeat(r, projectId, t), {guard}), key, projectId);
    var b := HDel(Del(r, {guard}), key, projectId);
    assert a.hashes[key] == b.hashes[key];
    assert a.hashes == b.hashes;
  }

  /**
   * How a scheduled `executeByFile` turns out: the messages sent, the message of the exception
   * rethrown to the caller if any, whether `execute` returned an executor, whether the engine it
   * returned ended stopped, and the heartbeats written by the poll loop.
   */
  datatype Report = Report(sent: seq<Message>, thrown: Option<string>, returned: bool, stopped: bool, beats: seq<Long>)

  /**
   * The outcome of one scheduled run. A failed build or start sends one failure notice, which
   * does not say the run is over, and rethrows. A started run sends its progress and one final
   * message; if the transformation counted errors it then sends a failure notice carrying the
   * caller's log and throws, so `execute` never returns and the history row ends END.
   * `stored` is the heartbeat written before the history insert, `startedAt` the clock after `start`.
   */
  function Reported(projectFile: string, script: StartScript, ticks: seq<Tick>, executorId: string, interval: Int,
                    stored: Long, startedAt: Long, callerLog: string): (rep: Report)
    requires !script.startFails ==> script.engine.hasTrans
    // an exception reaches the caller exactly when `execute` did not return an executor
    ensures rep.thrown.Some? <==> !rep.returned
    ensures !rep.returned ==> !rep.stopped
    // a failed build or start: one notice carrying the exception's message, no heartbeat written
    ensures !PhaseOf(projectFile, script).Started? ==>
              |rep.sent| == 1 && rep.thrown.Some? && rep.sent[0] == ErrorNotice(executorId, rep.thrown.value)
              && rep.beats == []
  {
    match PhaseOf(projectFile, script)
    case BuildFailed(m) => Report([ErrorNotice(executorId, m)], Some(m), false, false, [])
    case StartFailed => Report([ErrorNotice(executorId, script.engine.log)], Some(script.engine.log), false, false, [])
    case Started =>
      var run := PollLoop(script.engine, ticks, executorId, interval, stored, startedAt);
      var done := run.messages + [Progress(executorId, Plain(run.final.steps), run.final.log, true)];
      if run.final.errors > 0 then
        Report(done + [ErrorNotice(executorId, callerLog)], Some(callerLog), false, false, run.beats)
      else
        Report(done, None, true, run.final.stopped, run.beats)
  }

  /**
   * What the callback and the caller see of a scheduled run: a failed build or start sends one
   * failure notice, which does not say the run is over, and rethrows; a started run ends with
   * exactly one final message, followed by a failure notice carrying the caller's log when it
   * throws, in which case the history row ends END.
   */
  lemma ReportedShape(projectFile: string, script: StartScript, ticks: seq<Tick>, executorId: string, interval: Int,
                      stored: Long, startedAt: Long, callerLog: string)
    requires !script.startFails ==> script.engine.hasTrans
    ensures var rep := Reported(projectFile, script, ticks, executorId, interval, stored, startedAt, callerLog);
            && (|rep.sent| >= 1)
            && (rep.returned <==> rep.thrown.None?)
            && (rep.thrown.Some? ==> rep.sent[|rep.sent| - 1] == ErrorNotice(executorId, rep.thrown.value))
            && (rep.thrown.Some? ==> TerminalStatus(rep.returned, rep.stopped) == END)
            && (rep.thrown.None? ==> IsFinal(rep.sent[|rep.sent| - 1]))
            && (forall i :: 0 <= i < |rep.sent| ==> rep.sent[i].topic == RUNNING_STATE_TOPIC)
            && (!PhaseOf(projectFile, script).Started? ==>
                |rep.sent| == 1 && !IsFinal(rep.sent[0]) && rep.thrown.Some? && rep.beats == [])
            && (PhaseOf(projectFile, script).Started? ==>
                var k := if rep.thrown.Some? then 2 else 1;
                && |rep.sent| >= k && IsFinal(rep.sent[|rep.sent| - k])
                && (forall i :: 0 <= i < |rep.sent| && i != |rep.sent| - k ==> !IsFinal(rep.sent[i]))
                && (rep.thrown.Some? ==> rep.thrown == Some(callerLog)))
  {
    if PhaseOf(projectFile, script).Started? {
      PollLoopShape(script.engine, ticks, executorId, interval, stored, startedAt);
    }
  }

  class ProjectScheduleExecutorService {
    /** `spring.cloud.consul.discovery.instance-id` */
    const instanceId: string
    /** `dp.project.restExecute.heartbeatInterval` (seconds) */
    const heartbeatInterval: Int
    /** `dp.project.restExecute.heartbeatTimeout` (seconds) */
    const heartbeatTimeout: Int
    /** `dp.project.restExecute.tmpFolder` */
    const tmpFolder: string
    /** `dp.project.restExecute.tmpFileSuffix` */
    const tmpFileSuffix: string
    /** `dp.project.restExecute.deleteTmpFile` */
    const deleteTmpFile: bool

    /** Running executions of this instance, by executor id. */
    var executorMap: map<string, TransExecutor>
    /** The shared Redis store. */
    var redis: Store
    /** Every call made to the history mapper, in order. */
    var historyOps: seq<Op>
    /** The file system under the staging folder: path to contents. */
    var files: map<Path, string>

    constructor (instanceId: string, heartbeatInterval: Int, heartbeatTimeout: Int, tmpFolder: string,
                 tmpFileSuffix: string, deleteTmpFile: bool, redis: Store, historyOps: seq<Op>, files: map<Path, string>)
      ensures this.instanceId == instanceId
      ensures this.heartbeatInterval == heartbeatInterval && this.heartbeatTimeout == heartbeatTimeout
      ensures this.tmpFolder == tmpFolder && this.tmpFileSuffix == tmpFileSuffix && this.deleteTmpFile == deleteTmpFile
      ensures executorMap == map[] && this.redis == redis && this.historyOps == historyOps && this.files == files
    {
      this.instanceId, this.heartbeatInterval, this.heartbeatTimeout := instanceId, heartbeatInterval, heartbeatTimeout;
      this.tmpFolder, this.tmpFileSuffix, this.deleteTmpFile := tmpFolder, tmpFileSuffix, deleteTmpFile;
      executorMap, this.redis, this.historyOps, this.files := map[], redis, historyOps, files;
    }

    /** The staged file of execution `executorId`. */
    function StagedPath(executorId: string): Path
      reads this
    {
      TmpPath(tmpFolder, executorId, tmpFileSuffix)
    }

    /** The engine of the execution the project's guard names, if this instance runs it. */
    function GuardedEngine(projectId: string): set<TransExecutor>
      reads this
    {
      match Get(redis, GuardKey(projectId))
      case Some(id) => if id in executorMap then {executorMap[id]} else {}
      case None => {}
    }

    /**
     * `stop(projectId)`: without a guard value, false and nothing changes. Otherwise the guard,
     * the instance key and the heartbeat field are deleted, and the answer is whether this
     * instance runs the guarded executor id, whose engine is then told to stop.
     */
    method Stop(projectId: string) returns (found: bool)
      modifies this`redis, GuardedEngine(projectId)
      ensures Get(old(redis), GuardKey(projectId)).None? ==> !found && redis == old(redis)
      ensures Get(old(redis), GuardKey(projectId)).Some? ==>
                var id := Get(old(redis), GuardKey(projectId)).value;
                && redis == HDel(Del(old(redis), {GuardKey(projectId), InstanceKey(projectId)}),
                                 DI_SCHEDULE_EXEC_HEARTBEAT_CACHE_KEY, projectId)
                && (found <==> id in executorMap)
                && (found ==> executorMap[id].State() == old(executorMap[id].State()).(stopped := true))
    {
      var cacheKey := GuardKey(projectId);
      var executorId := Get(redis, cacheKey);
      if executorId.None? {
        return false;
      }
      redis := Del(redis, {cacheKey, InstanceKey(projectId)});
      redis := HDel(redis, DI_SCHEDULE_EXEC_HEARTBEAT_CACHE_KEY, projectId);
      if executorId.value in executorMap {
        executorMap[executorId.value].Stop();
        found := true;
      } else {
        found := false;
      }
    }

    /** `checkExists(projectId)` at clock `now`, as written. */
    method CheckExists(projectId: string, now: Long) returns (r: CheckResult)
      ensures r == CheckAsWritten(redis, projectId, now, heartbeatTimeout)
    {
      var cacheKey := GuardKey(projectId);
      r := Admitted;
      if Get(redis, cacheKey).Some? {
        var lastHeartbeatTime := HGet(redis, DI_SCHEDULE_EXEC_HEARTBEAT_CACHE_KEY, projectId);
        if lastHeartbeatTime.Some? {
          var hb := ParseLong(lastHeartbeatTime.value);
          if hb.None? {
            r := BadHeartbeat;
          } else if ElapsedSeconds(now, hb.value) >= heartbeatTimeout {
            r := Duplicate;
          }
        }
      }
    }

    /** `saveExecuteHistory`: inserts a RUNNING row for the run, environment JC_YXPT. */
    method SaveExecuteHistory(p: ExecutorParam, historyId: string, now: Long)
      modifies this`historyOps
      ensures historyOps == old(historyOps) + [Insert(StartRow(historyId, p, JC_YXPT, now))]
    {
      historyOps := historyOps + [Insert(StartRow(historyId, p, JC_YXPT, now))];
    }

    /** `updateHistoryStatus`: the one terminal update of the run's row. */
    method UpdateHistoryStatus(start: Long, historyId: string, executor: TransExecutor?, now: Long)
      modifies this`historyOps
      ensures historyOps == old(historyOps) + [Finish(historyId, executor != null, executor != null && executor.stopped, start, now)]
    {
      var status := if executor != null && executor.stopped then TERMINATIN else END;
      historyOps := historyOps + [UpdateSelective(historyId, status, now, ExecSecond(start, now))];
    }

    /** The scheduled `buildStepStatus`: one preview-free record per step, in step order. */
    method BuildStepStatus(e: TransExecutor) returns (r: seq<StepDto>)
      requires e.hasTrans
      ensures |r| == |e.steps|
      ensures forall i :: 0 <= i < |r| ==> r[i] == PlainDto(e.steps[i]) && r[i].previewRows.None?
    {
      var steps := e.steps;
      r := [];
      for i := 0 to |steps|
        invariant |r| == i
        invariant forall j :: 0 <= j < i ==> r[j] == PlainDto(steps[j])
      {
        r := r + [PlainDto(steps[i])];
      }
    }

    /** The staging part of `buildTransMeta`, as in the interactive executor. */
    method BuildTransMeta(executorId: string, projectFile: string, build: BuildScript) returns (r: Outcome<string>)
      modifies this`files
      ensures match StageOutcome(projectFile, build)
              case Failure(m) => r == Fail(m) && files == old(files)
              case Success(xml) =>
                && files == old(files)[StagedPath(executorId) := xml]
                && r == (if build.loadError.Some? then Fail(build.loadError.value) else Pass)
    {
      var text := projectFile;
      if !StartsWith(projectFile, XML_PREFIX) {
        match build.converted {
          case Failure(m) =>
            return Fail(m);
          case Success(c) =>
            text := XML_DECLARATION + c;
        }
      }
      files := files[StagedPath(executorId) := text];
      match build.loadError {
        case Some(m) => r := Fail(m);
        case None => r := Pass;
      }
    }

    /**
     * The heartbeat throttle after a completed sleep: when at least `heartbeatInterval` seconds
     * have passed since `lastHeartbeatTime`, `timeMillis` replaces the stored heartbeat and
     * becomes the new `lastHeartbeatTime`; otherwise nothing changes.
     */
    method Heartbeat(projectId: string, timeMillis: Long, lastHeartbeatTime: Long, ghost base: Store, ghost previous: Long)
      returns (last: Long, ghost stored: Long)
      requires redis == WithHeartbeat(base, projectId, previous)
      modifies this`redis
      ensures HeartbeatDue(timeMillis, lastHeartbeatTime, heartbeatInterval) ==> last == timeMillis && stored == timeMillis
      ensures !HeartbeatDue(timeMillis, lastHeartbeatTime, heartbeatInterval) ==>
                last == lastHeartbeatTime && stored == previous
      ensures redis == WithHeartbeat(base, projectId, stored)
    {
      last, stored := lastHeartbeatTime, previous;
      if HeartbeatDue(timeMillis, lastHeartbeatTime, heartbeatInterval) {
        HeartbeatWrite(base, projectId, previous, timeMillis);
        redis := HPut(redis, DI_SCHEDULE_EXEC_HEARTBEAT_CACHE_KEY, projectId, ShowLong(timeMillis));
        last, stored := timeMillis, timeMillis;
      }
    }

    /**
     * The sleep between two polls, during which the engine moves on as `tick` says, then the
     * heartbeat rewrite at the clock the sleep ended.
     */
    method Sleep(projectId: string, engine: TransExecutor, tick: Tick, lastHeartbeatTime: Long,
                 ghost base: Store, ghost previous: Long)
      returns (last: Long, ghost stored: Long)
      requires redis == WithHeartbeat(base, projectId, previous)
      modifies this`redis, engine
      ensures engine.State() == Advance(old(engine.State()), tick.event)
      ensures HeartbeatDue(tick.now, lastHeartbeatTime, heartbeatInterval) ==> last == tick.now && stored == tick.now
      ensures !HeartbeatDue(tick.now, lastHeartbeatTime, heartbeatInterval) ==>
                last == lastHeartbeatTime && stored == previous
      ensures redis == WithHeartbeat(base, projectId, stored)
    {
      engine.Run(tick.event);
      var timeMillis := tick.now;
      last, stored := Heartbeat(projectId, timeMillis, lastHeartbeatTime, base, previous);
    }

    /**
     * A completed sleep at poll `k` inside the loop: after it the run so far has grown by the poll's
     * message, the heartbeat it saw and any heartbeat it wrote, and the rest of the run starts from
     * the advanced engine.
     */
    method SleepThenResume(executorId: string, projectId: string, engine: TransExecutor, ticks: seq<Tick>, k: nat,
                           lastHeartbeatTime: Long, ghost base: Store, ghost hb: Long, ghost total: LoopRun,
                           ghost sent: seq<Message>, ghost beats: seq<Long>, ghost seen: seq<Long>)
      returns (last: Long, ghost hb': Long, ghost beats': seq<Long>)
      requires k < |ticks| && !ticks[k].interrupted && !FinishedOrStopped(engine.State())
      requires redis == WithHeartbeat(base, projectId, hb)
      requires Resumes(total, sent, beats, seen,
                       PollLoop(engine.State(), ticks[k..], executorId, heartbeatInterval, hb, lastHeartbeatTime))
      modifies this`redis, engine
      ensures engine.hasTrans == old(engine.hasTrans)
      ensures redis == WithHeartbeat(base, projectId, hb')
      ensures Resumes(total, sent + [Progress(executorId, Plain(old(engine.steps)), old(engine.log), false)], beats',
                      seen + [hb], PollLoop(engine.State(), ticks[k + 1..], executorId, heartbeatInterval, hb', last))
    {
      ghost var before := engine.State();
      ghost var due := HeartbeatDue(ticks[k].now, lastHeartbeatTime, heartbeatInterval);
      last, hb' := Sleep(projectId, engine, ticks[k], lastHeartbeatTime, base, hb);
      beats' := if due then beats + [ticks[k].now] else beats;
      ResumeAfterSleep(total, sent, beats, seen, before, ticks, k, executorId, heartbeatInterval, hb, lastHeartbeatTime,
                       sent + [Progress(executorId, Plain(before.steps), before.log, false)], beats', seen + [hb],
                       engine.State(), hb', last);
    }

    /**
     * The polling loop of `execute`: while the engine is neither finished nor stopped, sends the
     * step statuses, sleeps, and rewrites the heartbeat when the throttle allows it.
     */
    method Poll(executorId: string, projectId: string, engine: TransExecutor, startedAt: Long,
                ghost base: Store, ghost stored: Long, ticks: seq<Tick>)
      returns (sent: seq<Message>)
      requires engine.hasTrans
      requires |ticks| > 0 && EndsRun(ticks[|ticks| - 1])
      requires redis == WithHeartbeat(base, projectId, stored)
      modifies this`redis, engine
      ensures var run := PollLoop(old(engine.State()), ticks, executorId, heartbeatInterval, stored, startedAt);
              && sent == run.messages
              && engine.State() == run.final
              && redis == WithHeartbeat(base, projectId, run.heartbeat)
    {
      ghost var total := PollLoop(engine.State(), ticks, executorId, heartbeatInterval, stored, startedAt);
      var lastHeartbeatTime := startedAt;
      ghost var beats: seq<Long> := [];
      ghost var seen: seq<Long> := [];
      ghost var hb := stored;
      sent := [];
      var k := 0;
      ResumesStart(total, engine.State(), ticks, executorId, heartbeatInterval, hb, lastHeartbeatTime);
      while !engine.IsFinishedOrStopped()
        invariant 0 <= k <= |ticks|
        invariant k == |ticks| ==> engine.IsFinishedOrStopped()
        invariant engine.hasTrans
        invariant redis == WithHeartbeat(base, projectId, hb)
        invariant Resumes(total, sent, beats, seen,
                          PollLoop(engine.State(), ticks[k..], executorId, heartbeatInterval, hb, lastHeartbeatTime))
        decreases |ticks| - k
      {
        ghost var before := engine.State();
        var steps := BuildStepStatus(engine);
        var m := Progress(executorId, steps, engine.log, false);
        assert steps == Plain(before.steps);
        if ticks[k].interrupted {
          engine.Run(ticks[k].event);
          ResumeInterrupted(total, sent, beats, seen, before, ticks, k, executorId, heartbeatInterval, hb, lastHeartbeatTime);
          sent := sent + [m];
          break;
        }
        ghost var hb0 := hb;
        lastHeartbeatTime, hb, beats := SleepThenResume(executorId, projectId, engine, ticks, k, lastHeartbeatTime,
                                                        base, hb, total, sent, beats, seen);
        sent := sent + [m];
        seen := seen + [hb0];
        k := k + 1;
      }
      if engine.IsFinishedOrStopped() {
        ResumesDone(total, sent, beats, seen,
                    PollLoop(engine.State(), ticks[k..], executorId, heartbeatInterval, hb, lastHeartbeatTime));
      }
    }

    /**
     * `execute` once `start` has returned at clock `startedAt`: registers the engine, polls it
     * with the heartbeat throttle, sends one final message, and throws `DpException` carrying the
     * caller's log when the transformation counted errors. `stored` is the heartbeat already in
     * the hash.
     */
    method Execute(callerLog: string, executorId: string, projectId: string, engine: TransExecutor,
                   startedAt: Long, ghost base: Store, ghost stored: Long, ticks: seq<Tick>)
      returns (sent: seq<Message>, r: Outcome<string>)
      requires engine.hasTrans
      requires |ticks| > 0 && EndsRun(ticks[|ticks| - 1])
      requires redis == WithHeartbeat(base, projectId, stored)
      modifies this`executorMap, this`redis, engine
      ensures executorMap == old(executorMap)[executorId := engine]
      ensures var run := PollLoop(old(engine.State()), ticks, executorId, heartbeatInterval, stored, startedAt);
              && sent == run.messages + [Progress(executorId, Plain(run.final.steps), run.final.log, true)]
              && engine.State() == run.final
              && redis == WithHeartbeat(base, projectId, run.heartbeat)
              && r == (if run.final.errors > 0 then Fail(callerLog) else Pass)
    {
      executorMap := executorMap[executorId := engine];
      sent := Poll(executorId, projectId, engine, startedAt, base, stored, ticks);
      var steps := BuildStepStatus(engine);
      assert steps == Plain(engine.steps);
      sent := sent + [Progress(executorId, steps, engine.log, true)];
      if engine.hasTrans && engine.errors > 0 {
        r := Fail(callerLog);
      } else {
        r := Pass;
      }
    }

    /**
     * The start of `executeByFile`: the guard key names the executor id, the instance key this
     * instance, and the heartbeat field holds the submission clock `now`.
     */
    method Claim(executorId: string, projectId: string, now: Long)
      modifies this`redis
      ensures redis == WithHeartbeat(Set(Set(old(redis), GuardKey(projectId), executorId), InstanceKey(projectId), instanceId),
                                     projectId, now)
    {
      var cacheKey := GuardKey(projectId);
      redis := Set(redis, cacheKey, executorId);
      redis := Set(redis, InstanceKey(projectId), instanceId);
      HeartbeatWrite(redis, projectId, now, now);
      redis := HPut(redis, DI_SCHEDULE_EXEC_HEARTBEAT_CACHE_KEY, projectId, ShowLong(now));
    }

    /** The Redis part of the `finally` block: the guard key and the heartbeat field are deleted. */
    method Release(projectId: string, ghost claimed: Store, ghost heartbeat: Long)
      requires redis == WithHeartbeat(claimed, projectId, heartbeat)
      modifies this`redis
      ensures redis == HDel(Del(claimed, {GuardKey(projectId)}), DI_SCHEDULE_EXEC_HEARTBEAT_CACHE_KEY, projectId)
    {
      var cacheKey := GuardKey(projectId);
      redis := Del(redis, {cacheKey});
      redis := HDel(redis, DI_SCHEDULE_EXEC_HEARTBEAT_CACHE_KEY, projectId);
      KeysDistinct(projectId, projectId);
      ReleaseForgetsHeartbeat(claimed, projectId, cacheKey, heartbeat);
    }

    /**
     * The `try` and `catch` blocks of `executeByFile`. `execute` stages the file, starts the
     * engine and polls it. Whatever it throws is reported to the callback as a failure notice; the
     * executor id is removed from the map, its engine (if registered) is stopped, and the
     * exception's message is rethrown. `executor` is what `execute` returned, `heartbeat` the
     * heartbeat last stored.
     */
    method Attempt(callerLog: string, executorId: string, projectId: string, projectFile: string,
                   script: StartScript, ticks: seq<Tick>, startedAt: Long, ghost base: Store, ghost stored: Long)
      returns (sent: seq<Message>, r: Outcome<string>, executor: TransExecutor?, ghost heartbeat: Long)
      requires executorId !in executorMap
      requires !script.startFails ==> script.engine.hasTrans
      requires |ticks| > 0 && EndsRun(ticks[|ticks| - 1])
      requires redis == WithHeartbeat(base, projectId, stored)
      modifies this`executorMap, this`redis, this`files
      ensures files - {StagedPath(executorId)} == old(files) - {StagedPath(executorId)}
      // the staged XML stays as `buildTransMeta` wrote it
      ensures files == AfterStaging(old(files), StagedPath(executorId), projectFile, script.build)
      ensures redis == WithHeartbeat(base, projectId, heartbeat)
      ensures var rep := Reported(projectFile, script, ticks, executorId, heartbeatInterval, stored, startedAt, callerLog);
              && sent == rep.sent
              && r == (if rep.thrown.Some? then Fail(rep.thrown.value) else Pass)
              && (executor != null <==> rep.returned)
              && (executor != null && executor.stopped <==> rep.stopped)
      // the handle stays registered only when `execute` returned it
      ensures executor == null ==> executorMap == old(executorMap)
      ensures executor != null ==> executorMap == old(executorMap)[executorId := executor]
    {
      executor := null;
      heartbeat := stored;
      var built := BuildTransMeta(executorId, projectFile, script.build);
      if built.Fail? {
        sent := [ErrorNotice(executorId, built.error)];
        r := built;
        return;
      }
      var engine := new TransExecutor(script.engine);
      if script.startFails {
        sent := [ErrorNotice(executorId, engine.log)];
        r := Fail(engine.log);
        return;
      }
      var ran;
      sent, ran := Execute(callerLog, executorId, projectId, engine, startedAt, base, stored, ticks);
      heartbeat := PollLoop(script.engine, ticks, executorId, heartbeatInterval, stored, startedAt).heartbeat;
      if ran.Fail? {
        sent := sent + [ErrorNotice(executorId, ran.error)];
        var registered := executorMap[executorId];
        UnregisterRestores(old(executorMap), executorId, engine);
        executorMap := executorMap - {executorId};
        registered.Stop();
        r := ran;
      } else {
        executor := engine;
        r := Pass;
      }
    }

    /**
     * The `finally` block of `executeByFile`: unregisters the executor id, deletes the staged
     * file when `deleteTmpFile`, releases the guard key and the heartbeat field, and writes the
     * history row's terminal update from what `execute` returned.
     */
    method Finally(executorId: string, projectId: string, currentTimeMillis: Long, historyId: string,
                   executor: TransExecutor?, endNow: Long, ghost claimed: Store, ghost heartbeat: Long)
      requires redis == WithHeartbeat(claimed, projectId, heartbeat)
      modifies this`executorMap, this`redis, this`historyOps, this`files
      ensures executorMap == old(executorMap) - {executorId}
      ensures files - {StagedPath(executorId)} == old(files) - {StagedPath(executorId)}
      ensures deleteTmpFile ==> StagedPath(executorId) !in files
      ensures !deleteTmpFile ==> files == old(files)
      ensures redis == HDel(Del(claimed, {GuardKey(projectId)}), DI_SCHEDULE_EXEC_HEARTBEAT_CACHE_KEY, projectId)
      ensures historyOps == old(historyOps) + [Finish(historyId, executor != null, executor != null && executor.stopped,
                                                      currentTimeMillis, endNow)]
    {
      executorMap := executorMap - {executorId};
      var tmpFile := StagedPath(executorId);
      if deleteTmpFile && tmpFile in files {
        files := files - {tmpFile};
      }
      Release(projectId, claimed, heartbeat);
      UpdateHistoryStatus(currentTimeMillis, historyId, executor, endNow);
    }

    /**
     * The `try`/`finally` of a scheduled `executeByFile` once the keys are set and the history row
     * inserted: the attempt, then the `finally` block. `claimed` is the store with the guard and
     * instance keys set, `stored` the heartbeat already written over it.
     */
    method RunAndRelease(callerLog: string, executorId: string, projectId: string, projectFile: string,
                         script: StartScript, ticks: seq<Tick>, startedAt: Long, currentTimeMillis: Long,
                         historyId: string, endNow: Long, ghost claimed: Store, ghost stored: Long)
      returns (sent: seq<Message>, r: Outcome<string>)
      requires executorId !in executorMap
      requires !script.startFails ==> script.engine.hasTrans
      requires |ticks| > 0 && EndsRun(ticks[|ticks| - 1])
      requires redis == WithHeartbeat(claimed, projectId, stored)
      modifies this`executorMap, this`redis, this`historyOps, this`files
      ensures executorMap == old(executorMap)
      ensures redis == HDel(Del(claimed, {GuardKey(projectId)}), DI_SCHEDULE_EXEC_HEARTBEAT_CACHE_KEY, projectId)
      ensures files - {StagedPath(executorId)} == old(files) - {StagedPath(executorId)}
      ensures deleteTmpFile ==> StagedPath(executorId) !in files
      ensures !deleteTmpFile ==> files == AfterStaging(old(files), StagedPath(executorId), projectFile, script.build)
      ensures var rep := Reported(projectFile, script, ticks, executorId, heartbeatInterval, stored, startedAt, callerLog);
              && sent == rep.sent
              && r == (if rep.thrown.Some? then Fail(rep.thrown.value) else Pass)
              && historyOps == old(historyOps) + [Finish(historyId, rep.returned, rep.stopped, currentTimeMillis, endNow)]
    {
      var executor;
      ghost var heartbeat;
      sent, r, executor, heartbeat := Attempt(callerLog, executorId, projectId, projectFile, script, ticks, startedAt, claimed, stored);
      UnregisterRestores(old(executorMap), executorId, executor);
      Finally(executorId, projectId, currentTimeMillis, historyId, executor, endNow, claimed, heartbeat);
    }

    /**
     * `executeByFile`: sets the project's guard and instance keys, stores the first heartbeat,
     * inserts the RUNNING history row and runs the execution. Its `finally` block unregisters the
     * executor id, deletes the staged file (when `deleteTmpFile`), deletes the guard key and the
     * heartbeat field, and writes the row's one terminal update. `now` is the submission clock
     * (start time, first heartbeat and history start), `startedAt` the clock once `start` has
     * returned, `endNow` the clock when the row is finalised, `historyId` the id
     * `UUIDUtils.nextId()` yields.
     */
    method ExecuteByFile(callerLog: string, projectFile: string, param: ExecutorParam, script: StartScript,
                         ticks: seq<Tick>, historyId: string, now: Long, startedAt: Long, endNow: Long)
      returns (sent: seq<Message>, r: Outcome<string>)
      requires param.executorId !in executorMap
      requires !script.startFails ==> script.engine.hasTrans
      requires |ticks| > 0 && EndsRun(ticks[|ticks| - 1])
      modifies this`executorMap, this`redis, this`historyOps, this`files
      ensures executorMap == old(executorMap)
      // the guard and heartbeat are released; the instance key stays behind
      ensures redis == Released(old(redis), param.projectId, param.executorId, instanceId)
      ensures files - {StagedPath(param.executorId)} == old(files) - {StagedPath(param.executorId)}
      ensures deleteTmpFile ==> StagedPath(param.executorId) !in files
      ensures !deleteTmpFile ==> files == AfterStaging(old(files), StagedPath(param.executorId), projectFile, script.build)
      ensures var rep := Reported(projectFile, script, ticks, param.executorId, heartbeatInterval, now, startedAt, callerLog);
              && sent == rep.sent
              && r == (if rep.thrown.Some? then Fail(rep.thrown.value) else Pass)
              // the history row: inserted RUNNING, then updated exactly once
              && historyOps == old(historyOps) + [Insert(StartRow(historyId, param.(startTime := now), JC_YXPT, now)),
                                                  Finish(historyId, rep.returned, rep.stopped, now, endNow)]
    {
      var p := param.(startTime := now);
      var executorId := p.executorId;
      var projectId := p.projectId;
      ghost var claimed := Set(Set(redis, GuardKey(projectId), executorId), InstanceKey(projectId), instanceId);
      Claim(executorId, projectId, now);
      var currentTimeMillis := now;
      SaveExecuteHistory(p, historyId, now);
      sent, r := RunAndRelease(callerLog, executorId, projectId, projectFile, script, ticks, startedAt,
                               currentTimeMillis, historyId, endNow, claimed, now);
    }
  }
}
