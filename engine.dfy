/**
 * The Kettle engine behind a `TransExecutor`, reduced to the state the executors read and
 * change: whether a transformation (`getTrans()`) exists, its stopped / pausing / finished
 * flags, its error count, its steps, the preview buffer (`TransPreview`) and the log text
 * `LogBrowser` reads. The engine's own work between two polls of an executor is an
 * `EngineEvent`; a `Tick` is one sleep of an executor's poll loop.
 */
module Engine {
  import opened JavaLang
  import opened Dto

  /** One step as `StepInterface` and Kettle's `StepStatus` describe it. */
  datatype StepInfo = StepInfo(
    name: string,
    copy: int,
    priority: string,
    linesRead: int,
    linesWritten: int,
    linesInput: int,
    linesOutput: int,
    linesUpdated: int,
    linesRejected: int,
    status: StepExecutionStatus,
    statusDescription: string,
    seconds: real,
    speed: string,
    errors: int)

  /** Sample rows a finished step left in the preview buffer, with their field names. */
  datatype Preview = Preview(rows: seq<seq<string>>, fieldNames: seq<string>)

  datatype EngineState = EngineState(
    hasTrans: bool,
    stopped: bool,
    pausing: bool,
    finished: bool,
    errors: nat,
    steps: seq<StepInfo>,
    preview: map<string, Preview>,
    log: string)

  /**
   * What the engine and concurrent callers do while an executor sleeps: the transformation may
   * finish or be stopped, errors accrue, step counters move, finished steps leave previews
   * and the log grows.
   */
  datatype EngineEvent = EngineEvent(
    finish: bool,
    stop: bool,
    newErrors: nat,
    steps: seq<StepInfo>,
    newPreviews: map<string, Preview>,
    logTail: string)

  /** One `TimeUnit.MILLISECONDS.sleep(refreshRateMs)`: interrupted, or the clock after it and what happened meanwhile. */
  datatype Tick = Tick(interrupted: bool, now: Long, event: EngineEvent)

  predicate FinishedOrStopped(s: EngineState)
  {
    s.finished || s.stopped
  }

  /** The engine state after an event: flags only ever get set, errors and log only grow. */
  function Advance(s: EngineState, e: EngineEvent): (s': EngineState)
    ensures s'.hasTrans == s.hasTrans && s'.pausing == s.pausing
    ensures FinishedOrStopped(s) ==> FinishedOrStopped(s')
    ensures e.finish || e.stop ==> FinishedOrStopped(s')
    ensures s.stopped ==> s'.stopped
    ensures s.finished ==> s'.finished
    ensures s'.errors >= s.errors && StartsWith(s'.log, s.log)
  {
    s.(finished := s.finished || e.finish,
       stopped := s.stopped || e.stop,
       errors := s.errors + e.newErrors,
       steps := e.steps,
       preview := s.preview + e.newPreviews,
       log := s.log + e.logTail)
  }

  /** True of a tick after which the poll loop cannot go on: the sleep was interrupted or the run ended. */
  predicate EndsRun(t: Tick)
  {
    t.interrupted || t.event.finish || t.event.stop
  }

  /** The engine handle an executor creates in `start` and registers in its `executorMap`. */
  class TransExecutor {
    var hasTrans: bool
    var stopped: bool
    var pausing: bool
    var finished: bool
    var errors: nat
    var steps: seq<StepInfo>
    var preview: map<string, Preview>
    var log: string

    function State(): EngineState
      reads this
    {
      EngineState(hasTrans, stopped, pausing, finished, errors, steps, preview, log)
    }

    /** The handle as `new TransExecutor(transMeta)` and `start` leave it. */
    constructor (s: EngineState)
      ensures State() == s
    {
      hasTrans, stopped, pausing, finished := s.hasTrans, s.stopped, s.pausing, s.finished;
      errors, steps, preview, log := s.errors, s.steps, s.preview, s.log;
    }

    /** `isFinishedOrStopped()` */
    predicate IsFinishedOrStopped()
      reads this
    {
      finished || stopped
    }

    /** `pauseResume()`: pauses a running transformation, resumes a paused one. */
    method PauseResume()
      modifies this
      ensures State() == old(State()).(pausing := !old(pausing))
    {
      pausing := !pausing;
    }

    /** `stop()`: asks the transformation to stop. */
    method Stop()
      modifies this
      ensures State() == old(State()).(stopped := true)
    {
      stopped := true;
    }

    /** `transPreview.remove(stepName)` */
    method RemovePreview(stepName: string)
      modifies this
      ensures State() == old(State()).(preview := old(preview) - {stepName})
    {
      preview := preview - {stepName};
    }

    /** The engine's own progress while the executor sleeps. */
    method Run(e: EngineEvent)
      modifies this
      ensures State() == Advance(old(State()), e)
    {
      finished := finished || e.finish;
      stopped := stopped || e.stop;
      errors := errors + e.newErrors;
      steps := e.steps;
      preview := preview + e.newPreviews;
      log := log + e.logTail;
    }
  }

  /**
   * `executorMap.remove(executorId)` in a `finally` block: whether or not the run registered its
   * handle under the fresh id, removing the id restores the registry the run started with.
   */
  lemma UnregisterRestores(m: map<string, TransExecutor>, id: string, e: TransExecutor?)
    requires id !in m
    ensures e != null ==> m[id := e] - {id} == m
    ensures m - {id} == m
  {
    if e != null {
      assert m[id := e] - {id} == m by {
        forall k ensures k in m[id := e] - {id} <==> k in m {}
      }
    }
  }
}
