/** The records and status enumerations the engine works on: step statuses,
    task statuses, the per-step outcome record, the task configuration and
    the shared state threaded through a task. */
module Models {
  import opened Values

  /** Status of one step (`AgentStatus`, a `str` enumeration). */
  datatype AgentStatus = Pending | Running | Completed | Failed | Timeout | Retrying

  /** Status of one task (`TaskStatus`, a `str` enumeration). */
  datatype TaskStatus = TaskPending | TaskRunning | TaskCompleted | TaskFailed | TaskCancelled

  /** The string each `AgentStatus` member stands for. */
  function AgentStatusValue(s: AgentStatus): string {
    match s
    case Pending => "pending"
    case Running => "running"
    case Completed => "completed"
    case Failed => "failed"
    case Timeout => "timeout"
    case Retrying => "retrying"
  }

  /** `AgentStatus(text)`: look a member up by its value; `None` is Python's `ValueError`. */
  function ParseAgentStatus(text: string): (r: Option<AgentStatus>)
    ensures r.Some? ==> AgentStatusValue(r.value) == text
  {
    if text == "pending" then Some(Pending)
    else if text == "running" then Some(Running)
    else if text == "completed" then Some(Completed)
    else if text == "failed" then Some(Failed)
    else if text == "timeout" then Some(Timeout)
    else if text == "retrying" then Some(Retrying)
    else None
  }

  const AllAgentStatuses: seq<AgentStatus> := [Pending, Running, Completed, Failed, Timeout, Retrying]

  /** The enumeration has exactly six members, each with its own value, and
      looking a member up by its value gives the member back. */
  lemma AgentStatusEnumeration()
    ensures |AllAgentStatuses| == 6
    ensures forall s: AgentStatus :: s in AllAgentStatuses
    ensures forall i, j :: 0 <= i < j < 6 ==>
      AgentStatusValue(AllAgentStatuses[i]) != AgentStatusValue(AllAgentStatuses[j])
    ensures forall s: AgentStatus :: ParseAgentStatus(AgentStatusValue(s)) == Some(s)
  {
    forall s: AgentStatus ensures s in AllAgentStatuses {
      match s
      case Pending => assert AllAgentStatuses[0] == s;
      case Running => assert AllAgentStatuses[1] == s;
      case Completed => assert AllAgentStatuses[2] == s;
      case Failed => assert AllAgentStatuses[3] == s;
      case Timeout => assert AllAgentStatuses[4] == s;
      case Retrying => assert AllAgentStatuses[5] == s;
    }
  }

  function TaskStatusValue(s: TaskStatus): string {
    match s
    case TaskPending => "pending"
    case TaskRunning => "running"
    case TaskCompleted => "completed"
    case TaskFailed => "failed"
    case TaskCancelled => "cancelled"
  }

  function ParseTaskStatus(text: string): (r: Option<TaskStatus>)
    ensures r.Some? ==> TaskStatusValue(r.value) == text
  {
    if text == "pending" then Some(TaskPending)
    else if text == "running" then Some(TaskRunning)
    else if text == "completed" then Some(TaskCompleted)
    else if text == "failed" then Some(TaskFailed)
    else if text == "cancelled" then Some(TaskCancelled)
    else None
  }

  const AllTaskStatuses: seq<TaskStatus> := [TaskPending, TaskRunning, TaskCompleted, TaskFailed, TaskCancelled]

  lemma TaskStatusEnumeration()
    ensures |AllTaskStatuses| == 5
    ensures forall s: TaskStatus :: s in AllTaskStatuses
    ensures forall i, j :: 0 <= i < j < 5 ==>
      TaskStatusValue(AllTaskStatuses[i]) != TaskStatusValue(AllTaskStatuses[j])
    ensures forall s: TaskStatus :: ParseTaskStatus(TaskStatusValue(s)) == Some(s)
  {
    forall s: TaskStatus ensures s in AllTaskStatuses {
      match s
      case TaskPending => assert AllTaskStatuses[0] == s;
      case TaskRunning => assert AllTaskStatuses[1] == s;
      case TaskCompleted => assert AllTaskStatuses[2] == s;
      case TaskFailed => assert AllTaskStatuses[3] == s;
      case TaskCancelled => assert AllTaskStatuses[4] == s;
    }
  }

  /** The value a `str` enumeration member is stored as in `execution_metadata`. */
  function StatusEntry(s: TaskStatus): Value {
    Str(TaskStatusValue(s))
  }

  /** Outcome record of one step (`AgentResult`). `metadata` defaults to `None`, not to `{}`. */
  datatype AgentResult = AgentResult(
    agent_id: string,
    task_id: string,
    status: AgentStatus,
    result: Value,
    error: Option<string>,
    execution_time: real,
    retry_count: int,
    metadata: Option<map<string, Value>>)

  /** `AgentResult(agent_id=..., task_id=..., status=...)` with every other field defaulted. */
  function NewAgentResult(agent_id: string, task_id: string, status: AgentStatus): (r: AgentResult)
    ensures r.agent_id == agent_id && r.task_id == task_id && r.status == status
    ensures r.result == Null && r.error == None && r.metadata == None
    ensures r.execution_time == 0.0 && r.retry_count == 0
  {
    AgentResult(agent_id, task_id, status, Null, None, 0.0, 0, None)
  }

  /** Per-task configuration (`TaskConfig`); times in seconds. */
  datatype TaskConfig = TaskConfig(
    timeout: real,
    max_retries: int,
    retry_delay: real,
    retry_backoff: real,
    concurrent_agents: int)

  function DefaultTaskConfig(): (c: TaskConfig)
    ensures c.timeout == 300.0 && c.max_retries == 3 && c.retry_delay == 1.0
    ensures c.retry_backoff == 2.0 && c.concurrent_agents == 5
  {
    TaskConfig(300.0, 3, 1.0, 2.0, 5)
  }

  /** Shared state of one task (`AgentState`). */
  datatype AgentState = AgentState(
    task_id: string,
    agent_results: map<string, AgentResult>,
    shared_data: map<string, Value>,
    execution_metadata: map<string, Value>)

  /** The names of `AgentState`'s fields: a graph built over that state uses them as its
      state keys. */
  const StateKeys: set<string> := {"task_id", "agent_results", "shared_data", "execution_metadata"}

  /** `AgentState(task_id=...)`: every map defaults to empty. */
  function NewAgentState(task_id: string): (s: AgentState)
    ensures s.task_id == task_id
    ensures s.agent_results == map[] && s.shared_data == map[] && s.execution_metadata == map[]
  {
    AgentState(task_id, map[], map[], map[])
  }

  /** Key under which step `id` leaves its output in `shared_data`. */
  function ResultKey(id: string): string {
    id + "_result"
  }

  /** Different steps never share a result key. */
  lemma ResultKeyInjective(a: string, b: string)
    requires ResultKey(a) == ResultKey(b)
    ensures a == b
  {
    assert a == ResultKey(a)[..|a|];
    assert b == ResultKey(b)[..|b|];
  }
}
