/**
 * The values that travel between the executors and their callers: the execution request
 * (`ProjectExecutorParam`), the per-step progress record (`ProjectExecutorStepDTO`), the
 * progress payload (`ProjectExecutorDTO`) wrapped in the web `Result`, and the websocket
 * messages the `ProjectExecuteCallback` receives.
 */
module Dto {
  import opened Wrappers
  import opened JavaLang

  /** `StatusCode.CODE_10010`, the one status code the executors raise and report. */
  datatype StatusCode = CODE_10010

  /** The request fields the executors read; `startTime` is overwritten on submission. */
  datatype ExecutorParam = ExecutorParam(
    executorId: string,
    projectId: string,
    userId: string,
    userName: string,
    requestId: string,
    startTime: Long)

  /** Kettle's `BaseStepData.StepExecutionStatus`. */
  datatype StepExecutionStatus =
    | STATUS_EMPTY | STATUS_INIT | STATUS_RUNNING | STATUS_IDLE | STATUS_FINISHED
    | STATUS_STOPPED | STATUS_DISPOSED | STATUS_HALTED | STATUS_PAUSED | STATUS_HALTING

  /** One row of a step's progress; the `Option` fields are the ones a builder may leave `null`. */
  datatype StepDto = StepDto(
    stepName: string,
    copy: Option<int>,
    priority: Option<string>,
    linesInput: int,
    linesOutput: int,
    linesRead: int,
    linesWritten: Option<int>,
    linesUpdated: int,
    linesRejected: int,
    stepExecutionStatus: StepExecutionStatus,
    statusDescription: string,
    seconds: real,
    speed: string,
    previewRows: Option<seq<seq<string>>>,
    previewFieldNames: Option<seq<string>>,
    errors: int)

  /** `ProjectExecutorDTO`; fields a builder does not set stay `None` (`false` for `transFinished`). */
  datatype ExecutorDto = ExecutorDto(
    requestId: Option<string>,
    executorId: string,
    transFinished: bool,
    executorSteps: Option<seq<StepDto>>,
    errors: Option<int>,
    log: string)

  /** `Result.success(data)` and `Result.fail(code, data, "")`. */
  datatype Response = Ok(data: ExecutorDto) | Error(code: StatusCode, data: ExecutorDto)

  /** One `executeCallback.onMessage(topic, response)` call. */
  datatype Message = Message(topic: string, response: Response)

  const RUNNING_STATE_TOPIC: string := "/runningState"

  /**
   * The fixed text the executors put before an exception's message in the log of a failure
   * report. Its characters are not legible in the repository's copy of the source, so it is
   * kept as a named constant here.
   */
  const FAILURE_HEADER: string := "execute failed"

  /** The log text reported for a caught exception: header, newline, `e.getMessage()`. */
  function FailureLog(message: string): (log: string)
    ensures StartsWith(log, FAILURE_HEADER)
    ensures log[|FAILURE_HEADER|..] == "\n" + message
  {
    FAILURE_HEADER + "\n" + message
  }

  /** True of a message whose payload says the run is over. */
  predicate IsFinal(m: Message)
  {
    m.response.data.transFinished
  }
}
