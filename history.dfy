/**
 * The execution-history table (`dp_de_project_exec_history`) as written through
 * `DpDeProjectExecHistoryMapper`: the mapper calls are kept as an append-only log, and the
 * table is what replaying that log leaves behind.
 */
module History {
  import opened Wrappers
  import opened JavaLang
  import opened Dto

  /** `ProjectExecuteStatus` (the source spells the cancelled state TERMINATIN). */
  datatype Status = RUNNING | END | TERMINATIN

  /** `ProjectExecuteEnv`: JCPT for interactive runs, JC_YXPT for scheduled ones. */
  datatype ExecEnv = JCPT | JC_YXPT

  datatype Row = Row(
    id: string,
    projectId: string,
    userId: string,
    userName: string,
    execEnv: ExecEnv,
    status: Status,
    startTime: Long,
    endTime: Option<Long>,
    execSecond: Option<Int>)

  /** `insert(row)` and `updateByPrimaryKeySelective(id, status, endTime, execSecond)`. */
  datatype Op =
    | Insert(row: Row)
    | UpdateSelective(id: string, status: Status, endTime: Long, execSecond: Int)

  /**
   * One mapper call applied to the table. An insert under an existing id is refused by the
   * primary key; a selective update writes its three columns into the row with that id, if any.
   */
  function Apply(t: map<string, Row>, op: Op): map<string, Row>
  {
    match op
    case Insert(row) => if row.id in t then t else t[row.id := row]
    case UpdateSelective(id, s, e, sec) =>
      if id in t then t[id := t[id].(status := s, endTime := Some(e), execSecond := Some(sec))] else t
  }

  /** The table after the logged mapper calls, in order. */
  function Rows(ops: seq<Op>): map<string, Row>
    decreases |ops|
  {
    if ops == [] then map[] else Apply(Rows(ops[..|ops| - 1]), ops[|ops| - 1])
  }

  lemma RowsAppend(ops: seq<Op>, op: Op)
    ensures Rows(ops + [op]) == Apply(Rows(ops), op)
  {
    assert (ops + [op])[..|ops|] == ops;
  }

  /** The row `saveExecuteHistory` inserts: status RUNNING, started now, not yet ended. */
  function StartRow(id: string, p: ExecutorParam, env: ExecEnv, now: Long): (row: Row)
    ensures row.id == id && row.status == RUNNING && row.execEnv == env && row.startTime == now
    ensures row.endTime.None? && row.execSecond.None?
  {
    Row(id, p.projectId, p.userId, p.userName, env, RUNNING, now, None, None)
  }

  /**
   * The status `updateHistoryStatus` writes: TERMINATIN when `execute` returned an executor whose
   * transformation is stopped, END otherwise (including every run that threw).
   */
  function TerminalStatus(executorReturned: bool, transStopped: bool): (s: Status)
    ensures s != RUNNING
    ensures s == TERMINATIN <==> executorReturned && transStopped
  {
    if executorReturned && transStopped then TERMINATIN else END
  }

  /** `(int) ((now - start) / 1000)` with Java's `long` and `int` arithmetic. */
  function ExecSecond(start: Long, now: Long): (sec: Int)
    ensures 0 <= now - start < 1000 * (INT_MAX + 1) ==>
              0 <= sec && sec * 1000 <= now - start < sec * 1000 + 1000
  {
    ToInt(MillisToSeconds(LongSub(now, start)))
  }

  /** The single update `updateHistoryStatus` issues. */
  function Finish(id: string, executorReturned: bool, transStopped: bool, start: Long, now: Long): (op: Op)
    ensures op.UpdateSelective? && op.id == id && op.status != RUNNING
  {
    UpdateSelective(id, TerminalStatus(executorReturned, transStopped), now, ExecSecond(start, now))
  }

  /**
   * A run's history: the row it inserts under a fresh id reads RUNNING until its one update,
   * after which it holds a terminal status, its end time and its duration; no other row changes.
   */
  lemma {:induction false} RunRecord(ops: seq<Op>, row: Row, fin: Op)
    requires row.id !in Rows(ops) && row.status == RUNNING
    requires fin.UpdateSelective? && fin.id == row.id && fin.status != RUNNING
    ensures Rows(ops + [Insert(row)]) == Rows(ops)[row.id := row]
    ensures var t := Rows(ops + [Insert(row), fin]);
            && row.id in t
            && t[row.id] == row.(status := fin.status, endTime := Some(fin.endTime), execSecond := Some(fin.execSecond))
            && t[row.id].status != RUNNING
            && forall id :: id != row.id ==> (id in t <==> id in Rows(ops)) && (id in t ==> t[id] == Rows(ops)[id])
  {
    RowsAppend(ops, Insert(row));
    assert ops + [Insert(row), fin] == (ops + [Insert(row)]) + [fin];
    RowsAppend(ops + [Insert(row)], fin);
  }
}
