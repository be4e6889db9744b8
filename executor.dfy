/** The task executor of adk_core/agent_executor.py: it runs one task at a time on its agent,
    records the current task and a status, and keeps the history of finished results.

    What the agent does is an input: whether `initialize()` raises, and the value
    `execute_task(task)` returns or the exception it raises. The clock reading that stamps a
    result is an input too. */
module Executor {
  import opened PyJson

  /** `TaskStatus`: the five status strings. */
  datatype TaskStatus = Pending | Running | Completed | Failed | Cancelled {
    function Name(): string {
      match this
      case Pending => "pending"
      case Running => "running"
      case Completed => "completed"
      case Failed => "failed"
      case Cancelled => "cancelled"
    }
  }

  /** `TaskResult`: a status, the agent's value, the error text, and the time it was made. */
  datatype TaskResult = TaskResult(status: TaskStatus, data: Json, error: Option<string>, timestamp: string) {
    /** `to_dict()`. */
    function ToDict(): (d: map<string, Json>)
      ensures d.Keys == {"status", "data", "error", "timestamp"}
      ensures d["status"] == JStr(status.Name()) && d["data"] == data && d["timestamp"] == JStr(timestamp)
      ensures d["error"] == (if error.Some? then JStr(error.value) else JNull)
    {
      map["status" := JStr(status.Name()),
          "data" := data,
          "error" := (match error case Some(e) => JStr(e) case None => JNull),
          "timestamp" := JStr(timestamp)]
    }
  }

  /** A result's dict determines the result: `get_history()` loses nothing. */
  lemma ToDictInjective(a: TaskResult, b: TaskResult)
    requires a.ToDict() == b.ToDict()
    ensures a == b
  {
    assert a.ToDict()["status"] == b.ToDict()["status"];
    assert a.ToDict()["error"] == b.ToDict()["error"];
    assert a.status.Name() == b.status.Name();
    match a.status
    case Pending =>
    case Running => assert b.status.Name()[0] == 'r';
    case Completed => assert b.status.Name()[..2] == "co";
    case Failed =>
    case Cancelled => assert b.status.Name()[..2] == "ca";
  }

  /** The exception `execute` meets before the agent's task starts: a failing `initialize()`,
      or, for a task that is not a dict, the `task.get('type', ...)` of its log line. */
  function StartError(task: Json, init: Outcome<()>): (r: Option<PyError>)
    ensures init.Raise? ==> r == Some(init.error)
    ensures init.Return? ==> (r.None? <==> task.JObj?)
    ensures init.Return? && r.Some? ==> r.value.AttributeError?
  {
    if init.Raise? then Some(init.error)
    else match DictGet(task, "type", JStr("unknown"))
      case Raise(e) => Some(e)
      case Return(_) => None
  }

  /** The result `execute` makes of a run that ends: a value returned by the agent completes
      the task; an exception raised on the way fails it with the exception's text. */
  function Settle(task: Json, init: Outcome<()>, run: Outcome<Json>, now: string): (r: TaskResult)
    ensures r.status == Completed <==> StartError(task, init).None? && run.Return?
    ensures r.status == Failed <==> StartError(task, init).Some? || run.Raise?
    ensures r.error.None? <==> r.status == Completed
    ensures r.status == Completed ==> r.data == run.value
    ensures StartError(task, init).Some? ==> r.error == Some(ErrorText(StartError(task, init).value))
    ensures StartError(task, init).None? && run.Raise? ==> r.error == Some(ErrorText(run.error))
    ensures !task.JObj? && init.Return? ==> r.status == Failed
    ensures r.status == Failed ==> r.data == JNull
    ensures r.timestamp == now
  {
    match StartError(task, init)
    case Some(e) => TaskResult(Failed, JNull, Some(ErrorText(e)), now)
    case None =>
      match run
      case Return(v) => TaskResult(Completed, v, None, now)
      case Raise(e) => TaskResult(Failed, JNull, Some(ErrorText(e)), now)
  }

  /** How a run guarded by `asyncio.wait_for` ends: it finishes, or the timer cancels it. */
  datatype Attempt = Finished(init: Outcome<()>, run: Outcome<Json>) | TimedOut

  /** The message of a timed-out result. */
  function TimeoutMessage(timeout: int): string {
    "Task timed out after " + IntToString(timeout) + " seconds"
  }

  class AgentExecutor {
    const agentId: string
    var currentTask: Json
    var taskStatus: TaskStatus
    var taskHistory: seq<TaskResult>

    constructor (agentId: string)
      ensures this.agentId == agentId
      ensures currentTask == JNull && taskStatus == Pending && taskHistory == []
    {
      this.agentId := agentId;
      currentTask := JNull;
      taskStatus := Pending;
      taskHistory := [];
    }

    /** `execute(task)`: the task becomes current, and the result of the run is returned,
        becomes the status and is appended to the history; earlier results stay in place.
        Every exception of the run is caught. */
    method Execute(task: Json, init: Outcome<()>, run: Outcome<Json>, now: string) returns (r: TaskResult)
      modifies this
      ensures r == Settle(task, init, run, now)
      ensures currentTask == task
      ensures taskStatus == r.status
      ensures taskHistory == old(taskHistory) + [r]
    {
      currentTask := task;
      taskStatus := Running;
      var start := StartError(task, init);
      if start.Some? {
        r := TaskResult(Failed, JNull, Some(ErrorText(start.value)), now);
        taskStatus := Failed;
        taskHistory := taskHistory + [r];
        return;
      }
      match run
      case Return(v) =>
        r := TaskResult(Completed, v, None, now);
        taskStatus := Completed;
        taskHistory := taskHistory + [r];
      case Raise(e) =>
        r := TaskResult(Failed, JNull, Some(ErrorText(e)), now);
        taskStatus := Failed;
        taskHistory := taskHistory + [r];
    }

    /** `execute_with_timeout(task, timeout)`: a run that finishes is `execute`'s. A run the
        timer cancels is interrupted by `CancelledError`, which `execute`'s `except Exception`
        does not catch: the task stays current with status "running", nothing is added to the
        history, and a cancelled result is returned. */
    method ExecuteWithTimeout(task: Json, attempt: Attempt, timeout: int, now: string)
      returns (r: TaskResult)
      modifies this
      ensures currentTask == task
      ensures attempt.Finished? ==> r == Settle(task, attempt.init, attempt.run, now) && taskStatus == r.status
                                    && taskHistory == old(taskHistory) + [r]
      ensures attempt.TimedOut? ==> r == TaskResult(Cancelled, JNull, Some(TimeoutMessage(timeout)), now)
                                    && taskStatus == Running && taskHistory == old(taskHistory)
    {
      match attempt
      case Finished(init, run) =>
        r := Execute(task, init, run, now);
      case TimedOut =>
        currentTask := task;
        taskStatus := Running;
        r := TaskResult(Cancelled, JNull, Some(TimeoutMessage(timeout)), now);
    }

    /** `get_status()`. */
    method GetStatus() returns (d: map<string, Json>)
      ensures d.Keys == {"agent_id", "task_status", "current_task", "history_count"}
      ensures d["agent_id"] == JStr(agentId) && d["task_status"] == JStr(taskStatus.Name())
      ensures d["current_task"] == currentTask
      ensures d["history_count"] == JInt(|taskHistory|)
    {
      d := map["agent_id" := JStr(agentId), "task_status" := JStr(taskStatus.Name()),
               "current_task" := currentTask, "history_count" := JInt(|taskHistory|)];
    }

    /** `get_history()`: one dict per result, in order. */
    method GetHistory() returns (h: seq<map<string, Json>>)
      ensures |h| == |taskHistory|
      ensures forall i :: 0 <= i < |h| ==> h[i] == taskHistory[i].ToDict()
    {
      h := [];
      var i := 0;
      while i < |taskHistory|
        invariant 0 <= i <= |taskHistory|
        invariant |h| == i
        invariant forall k :: 0 <= k < i ==> h[k] == taskHistory[k].ToDict()
      {
        h := h + [taskHistory[i].ToDict()];
        i := i + 1;
      }
    }
  }
}
