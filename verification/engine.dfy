/** The orchestration engine: plan construction, per-step retry with
    backoff under a counting semaphore, fail-fast sequencing over the plan,
    the task-level outcomes (construction error, step failure, deadline,
    completion), and the engine's task bookkeeping.

    A step's behaviour is an oracle: for each attempt, either it hands back
    new shared data or it raises, after a given time; plus what its cleanup
    hook does. The graph library's compiled graph is replaced by the list
    of steps it chains together. */
module Engine {
  import opened Values
  import opened Backoff
  import opened Models

  // ---------------------------------------------------------------- plan

  const Start: string := "__start__"
  const End: string := "__end__"

  /** A registered agent class, or another opaque object the engine stores. */
  datatype Handle = Handle(tag: string)

  /** The graph `_build_agent_graph` compiles: its nodes and its edges in the order they are added. */
  datatype Plan = Plan(nodes: seq<string>, edges: seq<(string, string)>)

  /** The linear chain start -> s[0] -> s[1] -> ... -> s[last] -> end. */
  predicate Chain(edges: seq<(string, string)>, steps: seq<string>) {
    if |steps| == 0 then edges == []
    else
      && |edges| == |steps| + 1
      && edges[0] == (Start, steps[0])
      && (forall i :: 1 <= i < |steps| ==> edges[i] == (steps[i - 1], steps[i]))
      && edges[|steps|] == (steps[|steps| - 1], End)
  }

  function NotRegisteredMessage(id: string): string {
    "Agent " + id + " not registered"
  }

  /** Position of the first step name missing from the registry, if any. */
  function FirstUnregistered(agents: map<string, Handle>, steps: seq<string>): (r: Option<nat>)
    ensures r.None? <==> forall i :: 0 <= i < |steps| ==> steps[i] in agents
    ensures r.Some? ==> r.value < |steps| && steps[r.value] !in agents
                        && forall i :: 0 <= i < r.value ==> steps[i] in agents
  {
    if |steps| == 0 then None
    else if steps[0] !in agents then Some(0)
    else match FirstUnregistered(agents, steps[1..])
      case None => None
      case Some(i) => Some(i + 1)
  }

  /** The graph library refuses a node named after a key of its state. */
  function StateKeyMessage(id: string): string {
    "'" + id + "' is already being used as a state key"
  }

  /** The graph library refuses a node it already holds. */
  function AlreadyPresentMessage(id: string): string {
    "Node `" + id + "` already present."
  }

  /** The graph library refuses a node named after one of its two endpoints. */
  function ReservedMessage(id: string): string {
    "Node `" + id + "` is reserved."
  }

  /** Compiling a graph that has no edge out of the start fails. */
  const NoEntryMessage: string := "Graph must have an entrypoint: add at least one edge from START to another node"

  /** The checks `_build_agent_graph` meets from position i on, in the order it meets them:
      for each name, the registry lookup, then the graph library's refusal of a name that
      is a state key, of a name it already holds and of its reserved endpoints; after the
      last name, compiling a graph without an entry point. */
  function CheckFrom(agents: map<string, Handle>, steps: seq<string>, i: nat): Option<string>
    requires i <= |steps|
    decreases |steps| - i
  {
    if i == |steps| then (if |steps| == 0 then Some(NoEntryMessage) else None)
    else if steps[i] !in agents then Some(NotRegisteredMessage(steps[i]))
    else if steps[i] in StateKeys then Some(StateKeyMessage(steps[i]))
    else if steps[i] in steps[..i] then Some(AlreadyPresentMessage(steps[i]))
    else if steps[i] == Start || steps[i] == End then Some(ReservedMessage(steps[i]))
    else CheckFrom(agents, steps, i + 1)
  }

  /** The name at position j passes all of its checks. */
  predicate Admitted(agents: map<string, Handle>, steps: seq<string>, j: nat)
    requires j < |steps|
  {
    steps[j] in agents && steps[j] !in StateKeys && steps[j] !in steps[..j] && steps[j] != Start && steps[j] != End
  }

  lemma {:induction false} CheckFromNone(agents: map<string, Handle>, steps: seq<string>, i: nat)
    requires i <= |steps|
    ensures CheckFrom(agents, steps, i).None? <==>
              |steps| > 0 && forall j :: i <= j < |steps| ==> Admitted(agents, steps, j)
    decreases |steps| - i
  {
    if i < |steps| {
      CheckFromNone(agents, steps, i + 1);
      assert CheckFrom(agents, steps, i).None? <==>
               Admitted(agents, steps, i) && CheckFrom(agents, steps, i + 1).None?;
      if CheckFrom(agents, steps, i).None? {
        forall j | i <= j < |steps| ensures Admitted(agents, steps, j) {
          if j > i {
            assert i + 1 <= j;
          }
        }
      }
    }
  }

  /** Checks that pass leave the verdict to the names after them. */
  lemma {:induction false} CheckFromSkips(agents: map<string, Handle>, steps: seq<string>, i: nat, k: nat)
    requires i <= k <= |steps|
    requires forall j :: i <= j < k ==> Admitted(agents, steps, j)
    ensures CheckFrom(agents, steps, i) == CheckFrom(agents, steps, k)
    decreases k - i
  {
    if i < k {
      assert Admitted(agents, steps, i);
      CheckFromSkips(agents, steps, i + 1, k);
    }
  }

  /** Every name passing its checks is the same as: all registered, distinct, none reserved
      and none a state key. */
  lemma AdmittedIffPlain(agents: map<string, Handle>, steps: seq<string>)
    ensures (forall j :: 0 <= j < |steps| ==> Admitted(agents, steps, j)) <==>
              (forall i :: 0 <= i < |steps| ==> steps[i] in agents) && PlainNames(steps)
  {
    if forall j :: 0 <= j < |steps| ==> Admitted(agents, steps, j) {
      forall i, j | 0 <= i < j < |steps| ensures steps[i] != steps[j] {
        assert Admitted(agents, steps, j);
        assert steps[..j][i] == steps[i];
      }
      forall i | 0 <= i < |steps| ensures steps[i] in agents && steps[i] != Start && steps[i] != End && steps[i] !in StateKeys {
        assert Admitted(agents, steps, i);
      }
    }
  }

  /** The error `_build_agent_graph` raises for a list of steps, if any. It raises none
      exactly when the list is non-empty, every name is registered, and the names are
      distinct and none is a reserved endpoint or a state key. */
  function PlanError(agents: map<string, Handle>, steps: seq<string>): (r: Option<string>)
    ensures r.None? <==>
              |steps| > 0 && (forall i :: 0 <= i < |steps| ==> steps[i] in agents) && PlainNames(steps)
  {
    CheckFromNone(agents, steps, 0);
    AdmittedIffPlain(agents, steps);
    CheckFrom(agents, steps, 0)
  }

  /** Among distinct, plain names, the first unregistered one is the one reported. */
  lemma {:induction false} UnregisteredReported(agents: map<string, Handle>, steps: seq<string>)
    requires PlainNames(steps) && FirstUnregistered(agents, steps).Some?
    ensures PlanError(agents, steps) == Some(NotRegisteredMessage(steps[FirstUnregistered(agents, steps).value]))
  {
    var k := FirstUnregistered(agents, steps).value;
    CheckFromSkips(agents, steps, 0, k);
  }

  /** `_build_agent_graph`: add each name as a node, failing at the first check that does
      not pass, chain the nodes from the start to the end, and compile. */
  method BuildPlan(agents: map<string, Handle>, steps: seq<string>) returns (r: Result<Plan>)
    ensures r.Err? <==> PlanError(agents, steps).Some?
    ensures r.Err? ==> r.error == PlanError(agents, steps).value
    ensures r.Ok? ==> r.value.nodes == steps && Chain(r.value.edges, steps) && PlainNames(steps)
  {
    var nodes: seq<string> := [];
    var i := 0;
    while i < |steps|
      invariant 0 <= i <= |steps|
      invariant nodes == steps[..i]
      invariant CheckFrom(agents, steps, i) == CheckFrom(agents, steps, 0)
    {
      if steps[i] !in agents {
        return Err(NotRegisteredMessage(steps[i]));
      }
      if steps[i] in StateKeys {
        return Err(StateKeyMessage(steps[i]));
      }
      if steps[i] in nodes {
        return Err(AlreadyPresentMessage(steps[i]));
      }
      if steps[i] == Start || steps[i] == End {
        return Err(ReservedMessage(steps[i]));
      }
      nodes := nodes + [steps[i]];
      i := i + 1;
    }
    var edges: seq<(string, string)> := [];
    if |steps| > 0 {
      edges := [(Start, steps[0])];
      var k := 0;
      while k < |steps| - 1
        invariant 0 <= k <= |steps| - 1
        invariant |edges| == k + 1
        invariant edges[0] == (Start, steps[0])
        invariant forall j :: 1 <= j <= k ==> edges[j] == (steps[j - 1], steps[j])
      {
        edges := edges + [(steps[k], steps[k + 1])];
        k := k + 1;
      }
      edges := edges + [(steps[|steps| - 1], End)];
    }
    if |steps| == 0 {
      return Err(NoEntryMessage);
    }
    assert PlanError(agents, steps).None?;
    return Ok(Plan(nodes, edges));
  }

  /** Target of the first edge leaving `n`. */
  function Next(edges: seq<(string, string)>, n: string): Option<string> {
    if |edges| == 0 then None
    else if edges[0].0 == n then Some(edges[0].1)
    else Next(edges[1..], n)
  }

  /** Follow `Next` from `n` for at most `hops` edges. */
  function Walk(edges: seq<(string, string)>, n: string, hops: nat): seq<string>
    decreases hops
  {
    if hops == 0 then []
    else match Next(edges, n)
      case None => []
      case Some(m) => [m] + Walk(edges, m, hops - 1)
  }

  lemma {:induction false} NextInChain(edges: seq<(string, string)>, steps: seq<string>, i: nat)
    requires Chain(edges, steps) && |steps| > 0
    requires PlainNames(steps)
    requires i <= |steps|
    ensures Next(edges, if i == 0 then Start else steps[i - 1]) == Some(if i == |steps| then End else steps[i])
  {
    var n := if i == 0 then Start else steps[i - 1];
    forall j | 0 <= j < i ensures edges[j].0 != n {
      if j > 0 {
        assert edges[j].0 == steps[j - 1];
      }
    }
    NextFindsFirst(edges, n, i);
  }

  lemma {:induction false} NextFindsFirst(edges: seq<(string, string)>, n: string, i: nat)
    requires i < |edges| && edges[i].0 == n
    requires forall j :: 0 <= j < i ==> edges[j].0 != n
    ensures Next(edges, n) == Some(edges[i].1)
  {
    if i > 0 {
      NextFindsFirst(edges[1..], n, i - 1);
    }
  }

  /** Step names that are distinct, differ from the two reserved endpoints and are not
      state keys. */
  predicate PlainNames(steps: seq<string>) {
    && (forall i, j :: 0 <= i < j < |steps| ==> steps[i] != steps[j])
    && (forall i :: 0 <= i < |steps| ==> steps[i] != Start && steps[i] != End && steps[i] !in StateKeys)
  }

  /** Walking the chain from the start visits the steps in the listed order, then the end. */
  lemma ChainWalksInOrder(edges: seq<(string, string)>, steps: seq<string>)
    requires Chain(edges, steps) && |steps| > 0
    requires PlainNames(steps)
    ensures Walk(edges, Start, |steps| + 1) == steps + [End]
  {
    WalkFrom(edges, steps, 0);
  }

  lemma {:induction false} WalkFrom(edges: seq<(string, string)>, steps: seq<string>, i: nat)
    requires Chain(edges, steps) && |steps| > 0
    requires PlainNames(steps)
    requires i <= |steps|
    ensures Walk(edges, if i == 0 then Start else steps[i - 1], |steps| + 1 - i) == steps[i..] + [End]
    decreases |steps| - i
  {
    var n := if i == 0 then Start else steps[i - 1];
    assert Next(edges, n) == Some(if i == |steps| then End else steps[i]) by {
      NextInChain(edges, steps, i);
    }
    if i < |steps| {
      assert Walk(edges, steps[i], |steps| - i) == steps[i + 1..] + [End] by {
        WalkFrom(edges, steps, i + 1);
      }
      assert Walk(edges, n, |steps| + 1 - i) == [steps[i]] + Walk(edges, steps[i], |steps| - i);
      assert steps[i..] + [End] == [steps[i]] + (steps[i + 1..] + [End]);
    }
  }

  // ---------------------------------------------------------------- one step

  /** What one call of a step's `execute` does: hand back the shared data it leaves
      behind, or raise, after `took` seconds. */
  datatype StepAttempt =
    | Succeeds(data: map<string, Value>, took: Duration)
    | Fails(error: Exception, took: Duration)

  /** A step's scripted behaviour: one entry per attempt it may be given, and the
      exception its cleanup hook raises, if it raises one. */
  datatype StepBehaviour = StepBehaviour(attempts: seq<StepAttempt>, cleanup: Option<Exception>)

  /** What a step does to the shared semaphore and the clock, in order. */
  datatype Event = Slept(delay: real) | Acquired | Ran(attempt: nat) | Released

  datatype StepOutcome = Returned(data: map<string, Value>) | Raised(error: Exception) | Blocked

  /** Outcome of `_execute_agent_with_retry`: how it ended, the outcome record as the
      loop left it, the attempts begun, the events, and the time spent. */
  datatype StepRun = StepRun(outcome: StepOutcome, record: AgentResult, attempts: nat, trace: seq<Event>, elapsed: real)

  /** The `TypeError` that `raise None` produces when the loop made no attempt. */
  const NoException: Exception := Exception("exceptions must derive from BaseException", false)

  /** The exception a failing attempt raises. */
  function AttemptException(a: StepAttempt): Exception {
    match a
    case Fails(x, _) => x
    case Succeeds(_, _) => NoException
  }

  /** Index of the first attempt at or after k that succeeds, or `budget` if none does. */
  function FirstSuccess(script: seq<StepAttempt>, k: nat, budget: nat): (j: nat)
    requires k <= budget <= |script|
    ensures k <= j <= budget
    ensures j < budget ==> script[j].Succeeds?
    ensures forall i :: k <= i < j ==> script[i].Fails?
    decreases budget - k
  {
    if k == budget then budget
    else if script[k].Succeeds? then k
    else FirstSuccess(script, k + 1, budget)
  }

  /** The record as attempt k leaves it: from the first retry on, RETRYING with `retry_count = k`. */
  function MarkAttempt(record: AgentResult, k: nat): AgentResult {
    if k > 0 then record.(status := Retrying, retry_count := k) else record
  }

  /** A later attempt's mark replaces an earlier one. */
  lemma MarkAgain(record: AgentResult, k: nat, m: nat)
    requires m > 0
    ensures MarkAttempt(MarkAttempt(record, k), m) == MarkAttempt(record, m)
  {
  }

  function StepWait(cfg: TaskConfig, k: nat): real {
    if k == 0 then 0.0 else Delay(cfg.retry_delay, cfg.retry_backoff, k)
  }

  /** The retry loop from attempt k on. `free` is the number of semaphore permits other
      tasks leave available; with none, the acquisition waits forever. */
  function RetryStep(cfg: TaskConfig, free: int, script: seq<StepAttempt>, k: nat,
                     record: AgentResult, last: Option<Exception>): (r: StepRun)
    requires k <= AttemptBudget(cfg.max_retries) <= |script|
    ensures r.attempts <= AttemptBudget(cfg.max_retries) - k
    ensures r.attempts == 0 <==> k == AttemptBudget(cfg.max_retries)
    ensures r.attempts == 0 ==> r.trace == [] && r.elapsed == 0.0
    decreases AttemptBudget(cfg.max_retries) - k
  {
    var budget := AttemptBudget(cfg.max_retries);
    if k == budget then
      StepRun(Raised(last.GetOr(NoException)), record, 0, [], 0.0)
    else
      var rec := MarkAttempt(record, k);
      var wait := StepWait(cfg, k);
      var pause := if k > 0 then [Slept(wait)] else [];
      if free <= 0 then
        StepRun(Blocked, rec, 1, pause, SleepTime(wait))
      else
        var block := pause + [Acquired, Ran(k), Released];
        match script[k]
        case Succeeds(data, took) =>
          StepRun(Returned(data), rec, 1, block, SleepTime(wait) + took)
        case Fails(x, took) =>
          var rest := RetryStep(cfg, free, script, k + 1, rec, Some(x));
          StepRun(rest.outcome, rest.record, rest.attempts + 1, block + rest.trace,
                  SleepTime(wait) + took + rest.elapsed)
  }

  /** How the retry loop from attempt k ends: with no attempt left it re-raises the last
      exception (a `TypeError` if there was none); with no permit free it waits forever
      on its first acquisition; otherwise it returns the data of the first attempt that
      succeeds, or raises the last attempt's exception. Each attempt after the first
      marks the record RETRYING with its index. */
  lemma {:induction false} RetryStepOutcome(cfg: TaskConfig, free: int, script: seq<StepAttempt>, k: nat,
                                            record: AgentResult, last: Option<Exception>)
    requires k <= AttemptBudget(cfg.max_retries) <= |script|
    ensures var r := RetryStep(cfg, free, script, k, record, last);
            var budget := AttemptBudget(cfg.max_retries);
            var j := FirstSuccess(script, k, budget);
            && (k == budget ==> r == StepRun(Raised(last.GetOr(NoException)), record, 0, [], 0.0))
            && (k < budget && free <= 0 ==> r.outcome == Blocked && r.attempts == 1)
            && (k < budget && free > 0 && j < budget ==>
                  r.outcome == Returned(script[j].data) && r.attempts == j - k + 1)
            && (k < budget && free > 0 && j == budget ==>
                  r.outcome == Raised(AttemptException(script[budget - 1])) && r.attempts == budget - k)
    decreases AttemptBudget(cfg.max_retries) - k
  {
    var budget := AttemptBudget(cfg.max_retries);
    if k < budget && free > 0 && script[k].Fails? {
      var rec := MarkAttempt(record, k);
      var r := RetryStep(cfg, free, script, k, record, last);
      var rest := RetryStep(cfg, free, script, k + 1, rec, Some(script[k].error));
      assert r.outcome == rest.outcome && r.attempts == rest.attempts + 1 by {
        RetryStepFailed(cfg, free, script, k, record, last);
      }
      assert FirstSuccess(script, k, budget) == FirstSuccess(script, k + 1, budget);
      RetryStepOutcome(cfg, free, script, k + 1, rec, Some(script[k].error));
    }
  }

  /** The record the loop leaves is marked by the last attempt it began. */
  lemma {:induction false} RetryStepRecord(cfg: TaskConfig, free: int, script: seq<StepAttempt>, k: nat,
                                           record: AgentResult, last: Option<Exception>)
    requires k <= AttemptBudget(cfg.max_retries) <= |script|
    ensures var r := RetryStep(cfg, free, script, k, record, last);
            r.attempts > 0 ==> r.record == MarkAttempt(record, k + r.attempts - 1)
    decreases AttemptBudget(cfg.max_retries) - k
  {
    var budget := AttemptBudget(cfg.max_retries);
    if k < budget && free > 0 && script[k].Fails? {
      var rec := MarkAttempt(record, k);
      var r := RetryStep(cfg, free, script, k, record, last);
      var rest := RetryStep(cfg, free, script, k + 1, rec, Some(script[k].error));
      assert r.record == rest.record && r.attempts == rest.attempts + 1 by {
        RetryStepFailed(cfg, free, script, k, record, last);
      }
      if rest.attempts > 0 {
        assert rest.record == MarkAttempt(rec, k + rest.attempts) by {
          RetryStepRecord(cfg, free, script, k + 1, rec, Some(script[k].error));
        }
        MarkAgain(record, k, k + rest.attempts);
      } else {
        assert rest.record == rec;
      }
    }
  }

  // ---------------------------------------------------------------- semaphore discipline

  function Effect(e: Event): int {
    match e
    case Acquired => 1
    case Released => -1
    case _ => 0
  }

  /** Permits the step holds after the events of t. */
  function Held(t: seq<Event>): int {
    if |t| == 0 then 0 else Held(t[..|t| - 1]) + Effect(t[|t| - 1])
  }

  /** Every attempt runs inside exactly one permit, the step never holds two, backoff
      sleeps happen with no permit held, and every permit taken is given back. */
  predicate PermitDiscipline(t: seq<Event>) {
    && Held(t) == 0
    && forall i :: 0 <= i < |t| ==>
         && 0 <= Held(t[..i]) <= 1
         && (t[i].Slept? ==> Held(t[..i]) == 0)
         && (t[i].Ran? ==> Held(t[..i]) == 1)
  }

  /** Total backoff requested by the events of t. */
  function SleptTotal(t: seq<Event>): real {
    if |t| == 0 then 0.0 else (if t[0].Slept? then t[0].delay else 0.0) + SleptTotal(t[1..])
  }

  /** Number of attempts actually run in t. */
  function RunCount(t: seq<Event>): nat {
    if |t| == 0 then 0 else (if t[0].Ran? then 1 else 0) + RunCount(t[1..])
  }

  lemma {:induction false} HeldAppend(a: seq<Event>, b: seq<Event>)
    ensures Held(a + b) == Held(a) + Held(b)
    decreases |b|
  {
    if |b| > 0 {
      assert (a + b)[..|a + b| - 1] == a + b[..|b| - 1];
      HeldAppend(a, b[..|b| - 1]);
    } else {
      assert a + b == a;
    }
  }

  lemma {:induction false} SleptAppend(a: seq<Event>, b: seq<Event>)
    ensures SleptTotal(a + b) == SleptTotal(a) + SleptTotal(b)
    ensures RunCount(a + b) == RunCount(a) + RunCount(b)
    decreases |a|
  {
    if |a| > 0 {
      assert (a + b)[1..] == a[1..] + b;
      SleptAppend(a[1..], b);
    } else {
      assert a + b == b;
    }
  }

  lemma DisciplineAppend(a: seq<Event>, b: seq<Event>)
    requires PermitDiscipline(a) && PermitDiscipline(b)
    ensures PermitDiscipline(a + b)
  {
    HeldAppend(a, b);
    forall i | 0 <= i < |a + b|
      ensures && 0 <= Held((a + b)[..i]) <= 1
              && ((a + b)[i].Slept? ==> Held((a + b)[..i]) == 0)
              && ((a + b)[i].Ran? ==> Held((a + b)[..i]) == 1)
    {
      if i < |a| {
        assert (a + b)[..i] == a[..i];
      } else {
        assert (a + b)[..i] == a + b[..i - |a|];
        HeldAppend(a, b[..i - |a|]);
      }
    }
  }

  /** One attempt's events: an optional backoff sleep, then acquire, run, release. */
  lemma BlockDiscipline(pause: seq<Event>, k: nat, w: real)
    requires pause == [] || pause == [Slept(w)]
    ensures PermitDiscipline(pause)
    ensures PermitDiscipline(pause + [Acquired, Ran(k), Released])
  {
    var t := pause + [Acquired, Ran(k), Released];
    var n := |pause|;
    BlockHeld(pause, k, w);
    if pause != [] {
      assert pause[..0] == [];
    }
    forall i | 0 <= i < |t|
      ensures && 0 <= Held(t[..i]) <= 1
              && (t[i].Slept? ==> Held(t[..i]) == 0)
              && (t[i].Ran? ==> Held(t[..i]) == 1)
    {
      if i < n {
        assert t[..i] == [];
      } else if i == n {
        assert t[..i] == pause;
      } else if i == n + 1 {
        assert t[..i] == pause + [Acquired];
      } else {
        assert t[..i] == pause + [Acquired, Ran(k)];
      }
    }
  }

  /** Permits held along one attempt's events. */
  lemma BlockHeld(pause: seq<Event>, k: nat, w: real)
    requires pause == [] || pause == [Slept(w)]
    ensures Held(pause) == 0
    ensures Held(pause + [Acquired]) == 1
    ensures Held(pause + [Acquired, Ran(k)]) == 1
    ensures Held(pause + [Acquired, Ran(k), Released]) == 0
  {
    if pause != [] {
      assert pause[..0] == [];
    }
    var t1 := pause + [Acquired];
    var t2 := pause + [Acquired, Ran(k)];
    var t3 := pause + [Acquired, Ran(k), Released];
    assert t1[..|t1| - 1] == pause;
    assert t2[..|t2| - 1] == t1;
    assert t3[..|t3| - 1] == t2;
  }

  /** Backoff and attempt count of one attempt's events. */
  lemma BlockTotals(pause: seq<Event>, k: nat, w: real)
    requires pause == [] || pause == [Slept(w)]
    ensures SleptTotal(pause) == (if pause == [] then 0.0 else w) && RunCount(pause) == 0
    ensures SleptTotal(pause + [Acquired, Ran(k), Released]) == SleptTotal(pause)
    ensures RunCount(pause + [Acquired, Ran(k), Released]) == 1
  {
    if pause != [] {
      assert pause[1..] == [];
    }
    var acq: seq<Event> := [Acquired, Ran(k), Released];
    assert acq[1..][1..][1..] == [];
    assert SleptTotal(acq[1..][1..]) == 0.0 && RunCount(acq[1..][1..]) == 0;
    assert SleptTotal(acq[1..]) == 0.0 && RunCount(acq[1..]) == 1;
    assert SleptTotal(acq) == 0.0 && RunCount(acq) == 1;
    SleptAppend(pause, acq);
  }

  /** The events of a retry run keep the semaphore discipline. */
  lemma {:induction false} RetryStepDiscipline(cfg: TaskConfig, free: int, script: seq<StepAttempt>, k: nat,
                                               record: AgentResult, last: Option<Exception>)
    requires k <= AttemptBudget(cfg.max_retries) <= |script|
    ensures PermitDiscipline(RetryStep(cfg, free, script, k, record, last).trace)
    decreases AttemptBudget(cfg.max_retries) - k
  {
    var r := RetryStep(cfg, free, script, k, record, last);
    if k < AttemptBudget(cfg.max_retries) {
      var wait := StepWait(cfg, k);
      var pause := if k > 0 then [Slept(wait)] else [];
      var block := pause + [Acquired, Ran(k), Released];
      assert PermitDiscipline(pause) && PermitDiscipline(block) by {
        BlockDiscipline(pause, k, wait);
      }
      if free > 0 && script[k].Fails? {
        var rec := MarkAttempt(record, k);
        var rest := RetryStep(cfg, free, script, k + 1, rec, Some(script[k].error));
        assert r.trace == block + rest.trace by {
          RetryStepFailed(cfg, free, script, k, record, last);
        }
        assert PermitDiscipline(rest.trace) by {
          RetryStepDiscipline(cfg, free, script, k + 1, rec, Some(script[k].error));
        }
        DisciplineAppend(block, rest.trace);
      } else {
        RetryStepEnded(cfg, free, script, k, record, last);
      }
    } else {
      assert r.trace == [];
    }
  }

  /** A retry run with permits free runs exactly the attempts it begins. */
  lemma {:induction false} RetryStepRuns(cfg: TaskConfig, free: int, script: seq<StepAttempt>, k: nat,
                                         record: AgentResult, last: Option<Exception>)
    requires k <= AttemptBudget(cfg.max_retries) <= |script|
    requires free > 0
    ensures var r := RetryStep(cfg, free, script, k, record, last);
            RunCount(r.trace) == r.attempts
    decreases AttemptBudget(cfg.max_retries) - k
  {
    var r := RetryStep(cfg, free, script, k, record, last);
    if k < AttemptBudget(cfg.max_retries) {
      var wait := StepWait(cfg, k);
      var pause := if k > 0 then [Slept(wait)] else [];
      var block := pause + [Acquired, Ran(k), Released];
      assert RunCount(block) == 1 by {
        BlockTotals(pause, k, wait);
      }
      if script[k].Fails? {
        var rec := MarkAttempt(record, k);
        var rest := RetryStep(cfg, free, script, k + 1, rec, Some(script[k].error));
        assert r.trace == block + rest.trace && r.attempts == rest.attempts + 1 by {
          RetryStepFailed(cfg, free, script, k, record, last);
        }
        assert RunCount(rest.trace) == rest.attempts by {
          RetryStepRuns(cfg, free, script, k + 1, rec, Some(script[k].error));
        }
        SleptAppend(block, rest.trace);
      } else {
        RetryStepEnded(cfg, free, script, k, record, last);
      }
    }
  }

  /** The waits requested before attempts k .. k+n-1. */
  function WaitSum(cfg: TaskConfig, k: nat, n: nat): real
    decreases n
  {
    if n == 0 then 0.0 else StepWait(cfg, k) + WaitSum(cfg, k + 1, n - 1)
  }

  /** The waits before the first n + 1 attempts add up to the total backoff of n retries. */
  lemma {:induction false} WaitSumIsTotal(cfg: TaskConfig, n: nat)
    ensures WaitSum(cfg, 0, n + 1) == TotalDelay(cfg.retry_delay, cfg.retry_backoff, n)
  {
    WaitSumShift(cfg, n);
  }

  lemma {:induction false} WaitSumShift(cfg: TaskConfig, n: nat)
    ensures WaitSum(cfg, 1, n) == TotalDelay(cfg.retry_delay, cfg.retry_backoff, n)
  {
    if n > 0 {
      WaitSumShift(cfg, n - 1);
      WaitSumSplit(cfg, 1, n - 1);
    }
  }

  /** Peeling the last wait off a sum. */
  lemma {:induction false} WaitSumSplit(cfg: TaskConfig, k: nat, n: nat)
    ensures WaitSum(cfg, k, n + 1) == WaitSum(cfg, k, n) + StepWait(cfg, k + n)
    decreases n
  {
    if n > 0 {
      WaitSumSplit(cfg, k + 1, n - 1);
    }
  }

  /** A retry run requests exactly the backoff waits before the attempts it begins. */
  lemma {:induction false} RetryStepSleeps(cfg: TaskConfig, free: int, script: seq<StepAttempt>, k: nat,
                                           record: AgentResult, last: Option<Exception>)
    requires k <= AttemptBudget(cfg.max_retries) <= |script|
    ensures var r := RetryStep(cfg, free, script, k, record, last);
            SleptTotal(r.trace) == WaitSum(cfg, k, r.attempts)
    decreases AttemptBudget(cfg.max_retries) - k
  {
    var r := RetryStep(cfg, free, script, k, record, last);
    if k < AttemptBudget(cfg.max_retries) {
      var wait := StepWait(cfg, k);
      var pause := if k > 0 then [Slept(wait)] else [];
      var block := pause + [Acquired, Ran(k), Released];
      assert SleptTotal(block) == wait && SleptTotal(pause) == wait by {
        BlockTotals(pause, k, wait);
      }
      if free > 0 && script[k].Fails? {
        var rec := MarkAttempt(record, k);
        var rest := RetryStep(cfg, free, script, k + 1, rec, Some(script[k].error));
        assert r.trace == block + rest.trace && r.attempts == rest.attempts + 1 by {
          RetryStepFailed(cfg, free, script, k, record, last);
        }
        assert SleptTotal(rest.trace) == WaitSum(cfg, k + 1, rest.attempts) by {
          RetryStepSleeps(cfg, free, script, k + 1, rec, Some(script[k].error));
        }
        SleptAppend(block, rest.trace);
      } else {
        RetryStepEnded(cfg, free, script, k, record, last);
      }
    }
  }

  /** An attempt that runs and fails is followed by the rest of the loop. */
  lemma RetryStepFailed(cfg: TaskConfig, free: int, script: seq<StepAttempt>, k: nat,
                        record: AgentResult, last: Option<Exception>)
    requires k < AttemptBudget(cfg.max_retries) <= |script|
    requires free > 0 && script[k].Fails?
    ensures var r := RetryStep(cfg, free, script, k, record, last);
            var rest := RetryStep(cfg, free, script, k + 1, MarkAttempt(record, k), Some(script[k].error));
            var pause := if k > 0 then [Slept(StepWait(cfg, k))] else [];
            && r.trace == pause + [Acquired, Ran(k), Released] + rest.trace
            && r.attempts == rest.attempts + 1
            && r.outcome == rest.outcome && r.record == rest.record
  {
  }

  /** An attempt that succeeds, or cannot start, ends the loop after its own events. */
  lemma RetryStepEnded(cfg: TaskConfig, free: int, script: seq<StepAttempt>, k: nat,
                       record: AgentResult, last: Option<Exception>)
    requires k < AttemptBudget(cfg.max_retries) <= |script|
    requires free <= 0 || script[k].Succeeds?
    ensures var r := RetryStep(cfg, free, script, k, record, last);
            var pause := if k > 0 then [Slept(StepWait(cfg, k))] else [];
            && r.trace == (if free <= 0 then pause else pause + [Acquired, Ran(k), Released])
            && r.attempts == 1
  {
  }

  // ---------------------------------------------------------------- node

  /** How a node ends: the plan goes on, the node raises, or it waits forever for a permit. */
  datatype NodeOutcome = Continue | Stop(error: Exception) | Stuck

  /** Outcome of one graph node: how it ended, the state it leaves (with its record
      under `agent_results`), its events and its time. */
  datatype NodeRun = NodeRun(outcome: NodeOutcome, state: AgentState, trace: seq<Event>, elapsed: real)

  /** The node built by `_create_agent_node` for step `id`. The cleanup hook runs on
      every exit path; an exception it raises replaces the node's own outcome. */
  function RunNode(cfg: TaskConfig, free: int, id: string, state: AgentState, b: StepBehaviour): (r: NodeRun)
    requires AttemptBudget(cfg.max_retries) <= |b.attempts|
    ensures r.state.task_id == state.task_id
  {
    var run := RetryStep(cfg, free, b.attempts, 0, NewAgentResult(id, state.task_id, Running), None);
    match run.outcome
    case Blocked => NodeRun(Stuck, state, run.trace, run.elapsed)
    case Returned(data) =>
      var rec := run.record.(execution_time := run.elapsed, status := Completed,
                             result := Get(data, ResultKey(id), Null));
      var s := state.(shared_data := data, agent_results := state.agent_results[id := rec]);
      NodeRun(if b.cleanup.Some? then Stop(b.cleanup.value) else Continue, s, run.trace, run.elapsed)
    case Raised(x) =>
      var rec := run.record.(execution_time := run.elapsed, status := Failed, error := Some(x.text));
      var s := state.(agent_results := state.agent_results[id := rec],
                      execution_metadata := state.execution_metadata["error" := Str(x.text)]);
      NodeRun(Stop(b.cleanup.GetOr(x)), s, run.trace, run.elapsed)
  }

  /** How a step ends, decided from its script alone: stuck when no permit is ever free,
      otherwise by its first successful attempt and by its cleanup hook. */
  function Verdict(cfg: TaskConfig, free: int, b: StepBehaviour): NodeOutcome
    requires AttemptBudget(cfg.max_retries) <= |b.attempts|
  {
    var budget := AttemptBudget(cfg.max_retries);
    if budget > 0 && free <= 0 then Stuck
    else if FirstSuccess(b.attempts, 0, budget) < budget then
      (if b.cleanup.Some? then Stop(b.cleanup.value) else Continue)
    else
      Stop(b.cleanup.GetOr(if budget == 0 then NoException else AttemptException(b.attempts[budget - 1])))
  }

  lemma NodeFollowsVerdict(cfg: TaskConfig, free: int, id: string, state: AgentState, b: StepBehaviour)
    requires AttemptBudget(cfg.max_retries) <= |b.attempts|
    ensures RunNode(cfg, free, id, state, b).outcome == Verdict(cfg, free, b)
  {
    RetryStepOutcome(cfg, free, b.attempts, 0, NewAgentResult(id, state.task_id, Running), None);
  }

  /** The retry loop over a script whose first k attempts fail and whose next one
      succeeds returns that attempt's data after k + 1 attempts, with the record marked
      by attempt k, the geometric backoff of k waits and the permit discipline kept. */
  lemma RetrySucceedsAt(cfg: TaskConfig, free: int, script: seq<StepAttempt>, record: AgentResult, k: nat)
    requires AttemptBudget(cfg.max_retries) <= |script|
    requires free > 0 && k <= cfg.max_retries
    requires forall i :: 0 <= i < k ==> script[i].Fails?
    requires script[k].Succeeds?
    ensures var run := RetryStep(cfg, free, script, 0, record, None);
            && run.outcome == Returned(script[k].data)
            && run.record == MarkAttempt(record, k)
            && SleptTotal(run.trace) == TotalDelay(cfg.retry_delay, cfg.retry_backoff, k)
            && RunCount(run.trace) == k + 1
            && PermitDiscipline(run.trace)
  {
    var budget := AttemptBudget(cfg.max_retries);
    assert FirstSuccess(script, 0, budget) == k;
    RetryStepOutcome(cfg, free, script, 0, record, None);
    RetryStepRecord(cfg, free, script, 0, record, None);
    RetryStepSleeps(cfg, free, script, 0, record, None);
    WaitSumIsTotal(cfg, k);
    RetryStepRuns(cfg, free, script, 0, record, None);
    RetryStepDiscipline(cfg, free, script, 0, record, None);
  }

  /** A step whose first k attempts fail and whose next one succeeds, with k within the
      retry limit, ends COMPLETED with `retry_count = k`, its result read from
      `shared_data["<id>_result"]`, its record stored under its id and the requested
      backoff equal to the geometric sum of k waits. Every attempt takes and gives back
      one permit, and the backoff sleeps hold none. */
  lemma StepSucceedsAfterRetries(cfg: TaskConfig, free: int, id: string, state: AgentState,
                                 b: StepBehaviour, k: nat)
    requires AttemptBudget(cfg.max_retries) <= |b.attempts|
    requires free > 0 && k <= cfg.max_retries
    requires forall i :: 0 <= i < k ==> b.attempts[i].Fails?
    requires b.attempts[k].Succeeds?
    ensures var r := RunNode(cfg, free, id, state, b);
            var data := b.attempts[k].data;
            && r.state.shared_data == data
            && id in r.state.agent_results
            && r.state.agent_results[id].status == Completed
            && r.state.agent_results[id].retry_count == k
            && r.state.agent_results[id].result == Get(data, ResultKey(id), Null)
            && r.state.agent_results[id].error == None
            && (b.cleanup.None? ==> r.outcome == Continue)
            && SleptTotal(r.trace) == TotalDelay(cfg.retry_delay, cfg.retry_backoff, k)
            && RunCount(r.trace) == k + 1
            && PermitDiscipline(r.trace)
  {
    RetrySucceedsAt(cfg, free, b.attempts, NewAgentResult(id, state.task_id, Running), k);
  }

  /** A step that fails every attempt ends FAILED with `retry_count = max_retries` and the
      last exception's text, which is also written to `execution_metadata["error"]`; the
      node raises, so the plan stops here. */
  lemma StepExhaustsRetries(cfg: TaskConfig, free: int, id: string, state: AgentState, b: StepBehaviour)
    requires AttemptBudget(cfg.max_retries) <= |b.attempts|
    requires free > 0 && cfg.max_retries >= 0
    requires forall i :: 0 <= i <= cfg.max_retries ==> b.attempts[i].Fails?
    ensures var r := RunNode(cfg, free, id, state, b);
            var x := AttemptException(b.attempts[cfg.max_retries]);
            && id in r.state.agent_results
            && r.state.agent_results[id].status == Failed
            && r.state.agent_results[id].retry_count == cfg.max_retries
            && r.state.agent_results[id].error == Some(x.text)
            && r.state.execution_metadata == state.execution_metadata["error" := Str(x.text)]
            && r.state.shared_data == state.shared_data
            && r.outcome == Stop(b.cleanup.GetOr(x))
            && SleptTotal(r.trace) == TotalDelay(cfg.retry_delay, cfg.retry_backoff, cfg.max_retries)
  {
    var budget := AttemptBudget(cfg.max_retries);
    assert FirstSuccess(b.attempts, 0, budget) == budget;
    var rec0 := NewAgentResult(id, state.task_id, Running);
    RetryStepOutcome(cfg, free, b.attempts, 0, rec0, None);
    RetryStepRecord(cfg, free, b.attempts, 0, rec0, None);
    RetryStepSleeps(cfg, free, b.attempts, 0, rec0, None);
    WaitSumIsTotal(cfg, cfg.max_retries);
  }

  // ---------------------------------------------------------------- plan execution

  datatype PlanOutcome = Finished | Aborted(error: Exception) | Hung

  /** Outcome of running the compiled plan: how it ended, the final state, the steps
      that started (in order) with their start times, and the time spent. */
  datatype PlanRun = PlanRun(outcome: PlanOutcome, state: AgentState, ran: seq<string>, starts: seq<real>, elapsed: real)

  predicate Scripted(cfg: TaskConfig, behaviours: seq<StepBehaviour>) {
    forall i :: 0 <= i < |behaviours| ==> AttemptBudget(cfg.max_retries) <= |behaviours[i].attempts|
  }

  /** Position of the first step whose verdict halts the plan, or the plan's length. */
  function FirstHalt(cfg: TaskConfig, free: int, behaviours: seq<StepBehaviour>): (f: nat)
    requires Scripted(cfg, behaviours)
    ensures f <= |behaviours|
  {
    if |behaviours| == 0 then 0
    else if Verdict(cfg, free, behaviours[0]) != Continue then 0
    else 1 + FirstHalt(cfg, free, behaviours[1..])
  }

  /** Every step before the first halting one continues the chain. */
  lemma {:induction false} ContinuesBeforeHalt(cfg: TaskConfig, free: int, behaviours: seq<StepBehaviour>, i: nat)
    requires Scripted(cfg, behaviours)
    requires i < FirstHalt(cfg, free, behaviours)
    ensures Verdict(cfg, free, behaviours[i]) == Continue
  {
    if i > 0 {
      ContinuesBeforeHalt(cfg, free, behaviours[1..], i - 1);
    }
  }

  function PlanOutcomeOf(v: NodeOutcome): PlanOutcome {
    match v
    case Continue => Finished
    case Stop(m) => Aborted(m)
    case Stuck => Hung
  }

  function Shift(xs: seq<real>, d: real): (ys: seq<real>)
    ensures |ys| == |xs| && forall i :: 0 <= i < |xs| ==> ys[i] == xs[i] + d
  {
    seq(|xs|, i requires 0 <= i < |xs| => xs[i] + d)
  }

  /** The compiled chain, run: each step in turn, each seeing the state the previous one
      left; the first node that raises or never gets a permit ends the run. */
  function RunPlan(cfg: TaskConfig, free: int, steps: seq<string>, behaviours: seq<StepBehaviour>,
                   state: AgentState): (r: PlanRun)
    requires |behaviours| == |steps| && Scripted(cfg, behaviours)
    ensures |r.starts| == |r.ran| && |r.ran| <= |steps| && r.ran == steps[..|r.ran|]
    ensures r.state.task_id == state.task_id
    ensures r.elapsed >= 0.0
  {
    if |steps| == 0 then PlanRun(Finished, state, [], [], 0.0)
    else
      var node := RunNode(cfg, free, steps[0], state, behaviours[0]);
      NodeFollowsVerdict(cfg, free, steps[0], state, behaviours[0]);
      RetryElapsedNonNegative(cfg, free, behaviours[0].attempts, 0,
                              NewAgentResult(steps[0], state.task_id, Running), None);
      match node.outcome
      case Stuck => PlanRun(Hung, node.state, [steps[0]], [0.0], node.elapsed)
      case Stop(x) => PlanRun(Aborted(x), node.state, [steps[0]], [0.0], node.elapsed)
      case Continue =>
        var rest := RunPlan(cfg, free, steps[1..], behaviours[1..], node.state);
        assert steps == [steps[0]] + steps[1..];
        PlanRun(rest.outcome, rest.state, [steps[0]] + rest.ran, [0.0] + Shift(rest.starts, node.elapsed),
                node.elapsed + rest.elapsed)
  }

  /** The step at the halting position does halt the chain. */
  lemma {:induction false} HaltingStepHalts(cfg: TaskConfig, free: int, behaviours: seq<StepBehaviour>)
    requires Scripted(cfg, behaviours)
    ensures var f := FirstHalt(cfg, free, behaviours);
            f < |behaviours| ==> Verdict(cfg, free, behaviours[f]) != Continue
  {
    if |behaviours| > 0 && Verdict(cfg, free, behaviours[0]) == Continue {
      HaltingStepHalts(cfg, free, behaviours[1..]);
    }
  }

  /** Fail-fast, by position: the plan finishes exactly when no step halts it, and
      otherwise runs every step up to the halting one, that one included. */
  lemma {:induction false} PlanShape(cfg: TaskConfig, free: int, steps: seq<string>,
                                     behaviours: seq<StepBehaviour>, state: AgentState)
    requires |behaviours| == |steps| && Scripted(cfg, behaviours)
    ensures var r := RunPlan(cfg, free, steps, behaviours, state);
            var f := FirstHalt(cfg, free, behaviours);
            && (r.outcome == Finished <==> f == |steps|)
            && (f == |steps| ==> r.ran == steps)
            && (f < |steps| ==> r.ran == steps[..f + 1])
  {
    if |steps| > 0 {
      var node := RunNode(cfg, free, steps[0], state, behaviours[0]);
      var r := RunPlan(cfg, free, steps, behaviours, state);
      var f := FirstHalt(cfg, free, behaviours);
      assert node.outcome == Verdict(cfg, free, behaviours[0]) by {
        NodeFollowsVerdict(cfg, free, steps[0], state, behaviours[0]);
      }
      if node.outcome == Continue {
        var rest := RunPlan(cfg, free, steps[1..], behaviours[1..], node.state);
        var g := FirstHalt(cfg, free, behaviours[1..]);
        assert f == 1 + g;
        assert r.outcome == rest.outcome && r.ran == [steps[0]] + rest.ran;
        assert && (rest.outcome == Finished <==> g == |steps| - 1)
               && (g == |steps| - 1 ==> rest.ran == steps[1..])
               && (g < |steps| - 1 ==> rest.ran == steps[1..][..g + 1]) by {
          PlanShape(cfg, free, steps[1..], behaviours[1..], node.state);
        }
        assert steps == [steps[0]] + steps[1..];
        if g < |steps| - 1 {
          assert steps[..f + 1] == [steps[0]] + steps[1..][..g + 1];
        }
      } else {
        assert f == 0 && r.ran == steps[..1] && r.outcome != Finished;
      }
    }
  }

  lemma PlanFinishesIff(cfg: TaskConfig, free: int, steps: seq<string>,
                        behaviours: seq<StepBehaviour>, state: AgentState)
    requires |behaviours| == |steps| && Scripted(cfg, behaviours)
    ensures RunPlan(cfg, free, steps, behaviours, state).outcome == Finished
            <==> FirstHalt(cfg, free, behaviours) == |steps|
  {
    PlanShape(cfg, free, steps, behaviours, state);
  }

  lemma FinishedPlanShape(cfg: TaskConfig, free: int, steps: seq<string>,
                          behaviours: seq<StepBehaviour>, state: AgentState)
    requires |behaviours| == |steps| && Scripted(cfg, behaviours)
    requires RunPlan(cfg, free, steps, behaviours, state).outcome == Finished
    ensures var r := RunPlan(cfg, free, steps, behaviours, state);
            && FirstHalt(cfg, free, behaviours) == |steps| && r.ran == steps
            && r.state.execution_metadata == state.execution_metadata
  {
    PlanShape(cfg, free, steps, behaviours, state);
    FinishedRecordsEveryStep(cfg, free, steps, behaviours, state);
  }

  lemma AbortedPlanShape(cfg: TaskConfig, free: int, steps: seq<string>,
                         behaviours: seq<StepBehaviour>, state: AgentState)
    requires |behaviours| == |steps| && Scripted(cfg, behaviours)
    requires RunPlan(cfg, free, steps, behaviours, state).outcome.Aborted?
    ensures var f := FirstHalt(cfg, free, behaviours);
            f < |steps| && RunPlan(cfg, free, steps, behaviours, state).ran == steps[..f + 1]
  {
    PlanShape(cfg, free, steps, behaviours, state);
  }

  /** Fail-fast, by outcome: a plan that does not finish ends the way the verdict of its
      first halting step says. */
  lemma {:induction false} PlanHaltsAtFirstStop(cfg: TaskConfig, free: int, steps: seq<string>,
                                                behaviours: seq<StepBehaviour>, state: AgentState)
    requires |behaviours| == |steps| && Scripted(cfg, behaviours)
    ensures var f := FirstHalt(cfg, free, behaviours);
            f < |steps| ==> RunPlan(cfg, free, steps, behaviours, state).outcome
                              == PlanOutcomeOf(Verdict(cfg, free, behaviours[f]))
  {
    if |steps| > 0 {
      var node := RunNode(cfg, free, steps[0], state, behaviours[0]);
      NodeFollowsVerdict(cfg, free, steps[0], state, behaviours[0]);
      if node.outcome == Continue {
        PlanHaltsAtFirstStop(cfg, free, steps[1..], behaviours[1..], node.state);
      }
    }
  }

  lemma {:induction false} RetryElapsedNonNegative(cfg: TaskConfig, free: int, script: seq<StepAttempt>, k: nat,
                                                   record: AgentResult, last: Option<Exception>)
    requires k <= AttemptBudget(cfg.max_retries) <= |script|
    ensures RetryStep(cfg, free, script, k, record, last).elapsed >= 0.0
    decreases AttemptBudget(cfg.max_retries) - k
  {
    if k < AttemptBudget(cfg.max_retries) && free > 0 && script[k].Fails? {
      RetryElapsedNonNegative(cfg, free, script, k + 1, MarkAttempt(record, k), Some(script[k].error));
    }
  }

  /** A plan that finishes leaves every one of its steps recorded as COMPLETED, and
      keeps the COMPLETED records it started with. */
  lemma {:induction false} FinishedRecordsEveryStep(cfg: TaskConfig, free: int, steps: seq<string>,
                                                    behaviours: seq<StepBehaviour>, state: AgentState)
    requires |behaviours| == |steps| && Scripted(cfg, behaviours)
    ensures var r := RunPlan(cfg, free, steps, behaviours, state);
            r.outcome == Finished ==>
              && (forall i :: 0 <= i < |steps| ==>
                    steps[i] in r.state.agent_results && r.state.agent_results[steps[i]].status == Completed)
              && (forall id :: id in state.agent_results && state.agent_results[id].status == Completed ==>
                    id in r.state.agent_results && r.state.agent_results[id].status == Completed)
              && r.state.execution_metadata == state.execution_metadata
  {
    var r := RunPlan(cfg, free, steps, behaviours, state);
    if |steps| > 0 && r.outcome == Finished {
      var node := RunNode(cfg, free, steps[0], state, behaviours[0]);
      var rest := RunPlan(cfg, free, steps[1..], behaviours[1..], node.state);
      assert node.outcome == Continue && r.state == rest.state by {
        NodeFollowsVerdict(cfg, free, steps[0], state, behaviours[0]);
      }
      ContinueRecordsStep(cfg, free, steps[0], state, behaviours[0]);
      FinishedRecordsEveryStep(cfg, free, steps[1..], behaviours[1..], node.state);
      forall i | 0 <= i < |steps|
        ensures steps[i] in r.state.agent_results && r.state.agent_results[steps[i]].status == Completed
      {
        if i > 0 {
          assert steps[i] == steps[1..][i - 1];
        }
      }
    }
  }

  /** A node that lets the chain go on has recorded its step as COMPLETED and touched no
      other record and no metadata. */
  lemma ContinueRecordsStep(cfg: TaskConfig, free: int, id: string, state: AgentState, b: StepBehaviour)
    requires AttemptBudget(cfg.max_retries) <= |b.attempts|
    requires RunNode(cfg, free, id, state, b).outcome == Continue
    ensures var n := RunNode(cfg, free, id, state, b);
            && id in n.state.agent_results && n.state.agent_results[id].status == Completed
            && (forall other :: other in state.agent_results && other != id ==>
                  other in n.state.agent_results && n.state.agent_results[other] == state.agent_results[other])
            && n.state.execution_metadata == state.execution_metadata
  {
  }

  // ---------------------------------------------------------------- the engine

  /** `AgentOrchestrator`: its configuration, registered agent classes and tools, the
      task maps it declares, and the permits of its semaphore. */
  datatype Engine = Engine(
    config: TaskConfig,
    agents: map<string, Handle>,
    tools: map<string, Handle>,
    running: map<string, Handle>,
    results: map<string, AgentState>,
    permits: nat)

  const SemaphoreError: string := "Semaphore initial value must be >= 0"

  /** `AgentOrchestrator(config)`: the semaphore is sized once, from this configuration;
      a negative size is rejected by the semaphore. */
  function NewEngine(config: Option<TaskConfig>): (r: Result<Engine>)
    ensures var c := config.GetOr(DefaultTaskConfig());
            && (r.Ok? <==> c.concurrent_agents >= 0)
            && (r.Err? ==> r.error == SemaphoreError)
            && (r.Ok? ==> r.value.config == c && r.value.permits == c.concurrent_agents
                          && r.value.agents == map[] && r.value.tools == map[]
                          && r.value.running == map[] && r.value.results == map[])
  {
    var c := config.GetOr(DefaultTaskConfig());
    if c.concurrent_agents < 0 then Err(SemaphoreError)
    else Ok(Engine(c, map[], map[], map[], map[], c.concurrent_agents))
  }

  function RegisterAgent(e: Engine, cls: Handle, id: string): (r: Engine)
    ensures r.agents == e.agents[id := cls]
    ensures r == e.(agents := r.agents)
  {
    e.(agents := e.agents[id := cls])
  }

  function RegisterTool(e: Engine, name: string, tool: Handle): (r: Engine)
    ensures r.tools == e.tools[name := tool]
    ensures r == e.(tools := r.tools)
  {
    e.(tools := e.tools[name := tool])
  }

  /** The state a task starts from; `initial_data or {}`. */
  function InitialState(task_id: string, initial: Option<map<string, Value>>): (s: AgentState)
    ensures s == NewAgentState(task_id).(shared_data := initial.GetOr(map[]))
  {
    AgentState(task_id, map[], initial.GetOr(map[]), map[])
  }

  /** The task's own state, marked as failed with the given error text. */
  function FailedState(s: AgentState, msg: string): (f: AgentState)
    ensures f.execution_metadata.Keys == s.execution_metadata.Keys + {"error", "status"}
    ensures f.execution_metadata["error"] == Str(msg) && f.execution_metadata["status"] == Str("failed")
    ensures f == s.(execution_metadata := f.execution_metadata)
  {
    s.(execution_metadata := s.execution_metadata["error" := Str(msg)]["status" := StatusEntry(TaskFailed)])
  }

  const TimeoutText: string := "Task timeout"

  /** Number of leading start times at or before the deadline. */
  function StartedBy(starts: seq<real>, deadline: real): (n: nat)
    ensures n <= |starts|
  {
    if |starts| == 0 || starts[0] > deadline then 0 else 1 + StartedBy(starts[1..], deadline)
  }

  /** What `execute_task` returns, with the steps that started. */
  datatype TaskRun = TaskRun(state: AgentState, ran: seq<string>)

  /** `execute_task`. Retries and permits follow the engine's own configuration; a custom
      configuration only moves the deadline. `busy` permits are held by other tasks
      throughout. */
  function ExecuteTask(e: Engine, task_id: string, steps: seq<string>, initial: Option<map<string, Value>>,
                       custom: Option<TaskConfig>, behaviours: seq<StepBehaviour>, busy: nat): (r: TaskRun)
    requires |behaviours| == |steps| && Scripted(e.config, behaviours)
    ensures r.state.task_id == task_id
    ensures r.ran <= steps
  {
    var s0 := InitialState(task_id, initial);
    var err := PlanError(e.agents, steps);
    if err.Some? then TaskRun(FailedState(s0, err.value), [])
    else Conclude(s0, RunPlan(e.config, e.permits - busy, steps, behaviours, s0), custom.GetOr(e.config).timeout)
  }

  /** The text `execute_task` records for an exception out of its plan: a `TimeoutError`,
      even one a step raised itself, meets the `asyncio.TimeoutError` handler first and
      reads "Task timeout"; any other exception gives its own text. */
  function TaskErrorText(x: Exception): string {
    if x.isTimeout then TimeoutText else x.text
  }

  /** The task's result once its plan has run: on every failure path the task's own
      starting state, marked failed, is returned. */
  function Conclude(s0: AgentState, plan: PlanRun, deadline: real): (r: TaskRun)
    requires |plan.starts| == |plan.ran| && plan.state.task_id == s0.task_id
    ensures r.state.task_id == s0.task_id
    ensures r.ran <= plan.ran
  {
    if plan.outcome == Hung || plan.elapsed > deadline then
      TaskRun(FailedState(s0, TimeoutText), plan.ran[..StartedBy(plan.starts, deadline)])
    else
      match plan.outcome
      case Aborted(x) => TaskRun(FailedState(s0, TaskErrorText(x)), plan.ran)
      case _ =>
        var meta := plan.state.execution_metadata["total_execution_time" := Num(plan.elapsed)];
        TaskRun(plan.state.(execution_metadata := meta), plan.ran)
  }

  /** A list of steps the graph cannot be built from fails the task before any step
      runs, with the construction error's text and the initial state otherwise intact. */
  lemma TaskRejected(e: Engine, task_id: string, steps: seq<string>, initial: Option<map<string, Value>>,
                     custom: Option<TaskConfig>, behaviours: seq<StepBehaviour>, busy: nat)
    requires |behaviours| == |steps| && Scripted(e.config, behaviours)
    requires PlanError(e.agents, steps).Some?
    ensures var r := ExecuteTask(e, task_id, steps, initial, custom, behaviours, busy);
            && r.ran == []
            && r.state == FailedState(InitialState(task_id, initial), PlanError(e.agents, steps).value)
  {
  }

  /** Among distinct, plain step names, a step missing from the registry fails the task
      with "Agent <id> not registered" for the first such step, before anything runs. */
  lemma {:induction false} TaskMissingStep(e: Engine, task_id: string, steps: seq<string>,
                                           initial: Option<map<string, Value>>, custom: Option<TaskConfig>,
                                           behaviours: seq<StepBehaviour>, busy: nat)
    requires |behaviours| == |steps| && Scripted(e.config, behaviours)
    requires PlainNames(steps) && FirstUnregistered(e.agents, steps).Some?
    ensures var i := FirstUnregistered(e.agents, steps).value;
            ExecuteTask(e, task_id, steps, initial, custom, behaviours, busy)
              == TaskRun(FailedState(InitialState(task_id, initial), NotRegisteredMessage(steps[i])), [])
  {
    UnregisteredReported(e.agents, steps);
  }

  /** An empty list of steps fails the task: the compiled graph would have no entry point. */
  lemma {:induction false} EmptyTaskRejected(e: Engine, task_id: string, initial: Option<map<string, Value>>,
                                             custom: Option<TaskConfig>)
    ensures ExecuteTask(e, task_id, [], initial, custom, [], 0)
            == TaskRun(FailedState(InitialState(task_id, initial), NoEntryMessage), [])
  {
    assert PlanError(e.agents, []) == Some(NoEntryMessage);
  }

  /** A step listed twice fails the task when its second occurrence is added, before any
      step runs. */
  lemma {:induction false} RepeatedStepRejected(e: Engine, task_id: string, initial: Option<map<string, Value>>,
                                                custom: Option<TaskConfig>, b: StepBehaviour)
    requires "a" in e.agents && Scripted(e.config, [b, b])
    ensures ExecuteTask(e, task_id, ["a", "a"], initial, custom, [b, b], 0)
            == TaskRun(FailedState(InitialState(task_id, initial), AlreadyPresentMessage("a")), [])
  {
    var steps := ["a", "a"];
    assert steps[..0] == [] && steps[..1] == ["a"];
    assert CheckFrom(e.agents, steps, 1) == Some(AlreadyPresentMessage("a"));
    assert PlanError(e.agents, steps) == Some(AlreadyPresentMessage("a"));
  }

  /** A step named after a field of the shared state fails the task, even when an agent
      is registered under that name. */
  lemma {:induction false} StateKeyStepRejected(e: Engine, task_id: string, initial: Option<map<string, Value>>,
                                                custom: Option<TaskConfig>, b: StepBehaviour)
    requires "shared_data" in e.agents && Scripted(e.config, [b])
    ensures ExecuteTask(e, task_id, ["shared_data"], initial, custom, [b], 0)
            == TaskRun(FailedState(InitialState(task_id, initial), StateKeyMessage("shared_data")), [])
  {
    var steps := ["shared_data"];
    assert steps[0] in StateKeys;
    assert PlanError(e.agents, steps) == Some(StateKeyMessage("shared_data"));
  }

  /** A step named after the graph's end node fails the task. */
  lemma {:induction false} ReservedStepRejected(e: Engine, task_id: string, initial: Option<map<string, Value>>,
                                                custom: Option<TaskConfig>, b: StepBehaviour)
    requires End in e.agents && Scripted(e.config, [b])
    ensures ExecuteTask(e, task_id, [End], initial, custom, [b], 0)
            == TaskRun(FailedState(InitialState(task_id, initial), ReservedMessage(End)), [])
  {
    var steps := [End];
    assert steps[..0] == [];
    assert PlanError(e.agents, steps) == Some(ReservedMessage(End));
  }

  /** Once the graph can be built, the task's result is its plan's run, concluded. */
  lemma TaskRunsPlan(e: Engine, task_id: string, steps: seq<string>, initial: Option<map<string, Value>>,
                     custom: Option<TaskConfig>, behaviours: seq<StepBehaviour>, busy: nat)
    requires |behaviours| == |steps| && Scripted(e.config, behaviours)
    requires PlanError(e.agents, steps).None?
    ensures var s0 := InitialState(task_id, initial);
            ExecuteTask(e, task_id, steps, initial, custom, behaviours, busy)
              == Conclude(s0, RunPlan(e.config, e.permits - busy, steps, behaviours, s0), custom.GetOr(e.config).timeout)
  {
  }

  lemma ConcludeTimedOut(s0: AgentState, plan: PlanRun, deadline: real)
    requires |plan.starts| == |plan.ran| && plan.state.task_id == s0.task_id
    requires plan.outcome == Hung || plan.elapsed > deadline
    ensures Conclude(s0, plan, deadline) == TaskRun(FailedState(s0, TimeoutText), plan.ran[..StartedBy(plan.starts, deadline)])
  {
  }

  lemma ConcludeAborted(s0: AgentState, plan: PlanRun, deadline: real)
    requires |plan.starts| == |plan.ran| && plan.state.task_id == s0.task_id
    requires plan.outcome.Aborted? && plan.elapsed <= deadline
    ensures !plan.outcome.error.isTimeout ==>
              Conclude(s0, plan, deadline) == TaskRun(FailedState(s0, plan.outcome.error.text), plan.ran)
    ensures plan.outcome.error.isTimeout ==>
              Conclude(s0, plan, deadline) == TaskRun(FailedState(s0, TimeoutText), plan.ran)
  {
  }

  lemma ConcludeFinished(s0: AgentState, plan: PlanRun, deadline: real)
    requires |plan.starts| == |plan.ran| && plan.state.task_id == s0.task_id
    requires plan.outcome == Finished && plan.elapsed <= deadline
    ensures var meta := plan.state.execution_metadata["total_execution_time" := Num(plan.elapsed)];
            Conclude(s0, plan, deadline) == TaskRun(plan.state.(execution_metadata := meta), plan.ran)
  {
  }

  /** Overrunning the deadline, or waiting forever for a permit, fails the task with
      "Task timeout"; only the steps started by the deadline have run. */
  lemma {:induction false} TaskTimesOut(e: Engine, task_id: string, steps: seq<string>, initial: Option<map<string, Value>>,
                     custom: Option<TaskConfig>, behaviours: seq<StepBehaviour>, busy: nat)
    requires |behaviours| == |steps| && Scripted(e.config, behaviours)
    requires PlanError(e.agents, steps).None?
    requires var plan := RunPlan(e.config, e.permits - busy, steps, behaviours, InitialState(task_id, initial));
             plan.outcome == Hung || plan.elapsed > custom.GetOr(e.config).timeout
    ensures var plan := RunPlan(e.config, e.permits - busy, steps, behaviours, InitialState(task_id, initial));
            var r := ExecuteTask(e, task_id, steps, initial, custom, behaviours, busy);
            && r.state == FailedState(InitialState(task_id, initial), TimeoutText)
            && r.ran == plan.ran[..StartedBy(plan.starts, custom.GetOr(e.config).timeout)]
  {
    var s0 := InitialState(task_id, initial);
    var plan := RunPlan(e.config, e.permits - busy, steps, behaviours, s0);
    var deadline := custom.GetOr(e.config).timeout;
    assert ExecuteTask(e, task_id, steps, initial, custom, behaviours, busy) == Conclude(s0, plan, deadline) by {
      TaskRunsPlan(e, task_id, steps, initial, custom, behaviours, busy);
    }
    ConcludeTimedOut(s0, plan, deadline);
  }

  /** A step that raises within the deadline fails the task with its error text, after
      exactly the steps up to and including it have run. */
  lemma TaskAborts(e: Engine, task_id: string, steps: seq<string>, initial: Option<map<string, Value>>,
                   custom: Option<TaskConfig>, behaviours: seq<StepBehaviour>, busy: nat)
    requires |behaviours| == |steps| && Scripted(e.config, behaviours)
    requires PlanError(e.agents, steps).None?
    requires var plan := RunPlan(e.config, e.permits - busy, steps, behaviours, InitialState(task_id, initial));
             plan.outcome.Aborted? && plan.elapsed <= custom.GetOr(e.config).timeout
    ensures var plan := RunPlan(e.config, e.permits - busy, steps, behaviours, InitialState(task_id, initial));
            var f := FirstHalt(e.config, e.permits - busy, behaviours);
            var r := ExecuteTask(e, task_id, steps, initial, custom, behaviours, busy);
            && f < |steps|
            && r.ran == steps[..f + 1]
            && (!plan.outcome.error.isTimeout ==>
                  r.state == FailedState(InitialState(task_id, initial), plan.outcome.error.text))
            && (plan.outcome.error.isTimeout ==>
                  r.state == FailedState(InitialState(task_id, initial), TimeoutText))
  {
    var s0 := InitialState(task_id, initial);
    TaskRunsPlan(e, task_id, steps, initial, custom, behaviours, busy);
    AbortedPlanShape(e.config, e.permits - busy, steps, behaviours, s0);
    ConcludeAborted(s0, RunPlan(e.config, e.permits - busy, steps, behaviours, s0), custom.GetOr(e.config).timeout);
  }

  /** A plan that finishes within the deadline completes the task: every step ran and
      is recorded COMPLETED, and the only metadata is the total execution time. */
  lemma TaskCompletes(e: Engine, task_id: string, steps: seq<string>, initial: Option<map<string, Value>>,
                      custom: Option<TaskConfig>, behaviours: seq<StepBehaviour>, busy: nat)
    requires |behaviours| == |steps| && Scripted(e.config, behaviours)
    requires PlanError(e.agents, steps).None?
    requires var plan := RunPlan(e.config, e.permits - busy, steps, behaviours, InitialState(task_id, initial));
             plan.outcome == Finished && plan.elapsed <= custom.GetOr(e.config).timeout
    ensures var r := ExecuteTask(e, task_id, steps, initial, custom, behaviours, busy);
            var plan := RunPlan(e.config, e.permits - busy, steps, behaviours, InitialState(task_id, initial));
            && FirstHalt(e.config, e.permits - busy, behaviours) == |steps|
            && r.ran == steps
            && r.state.execution_metadata == map["total_execution_time" := Num(plan.elapsed)]
            && r.state.shared_data == plan.state.shared_data
            && r.state.agent_results == plan.state.agent_results
  {
    var s0 := InitialState(task_id, initial);
    TaskRunsPlan(e, task_id, steps, initial, custom, behaviours, busy);
    FinishedPlanShape(e.config, e.permits - busy, steps, behaviours, s0);
    ConcludeFinished(s0, RunPlan(e.config, e.permits - busy, steps, behaviours, s0), custom.GetOr(e.config).timeout);
  }

  /** A task fails, with an "error" entry, exactly when the graph cannot be built from
      its steps, the plan does not run to its end, or it overruns the deadline.  `PlanFinishesIff`
      says the plan runs to its end exactly when no step halts the chain. */
  lemma {:induction false} TaskFailsIff(e: Engine, task_id: string, steps: seq<string>, initial: Option<map<string, Value>>,
                     custom: Option<TaskConfig>, behaviours: seq<StepBehaviour>, busy: nat)
    requires |behaviours| == |steps| && Scripted(e.config, behaviours)
    ensures var r := ExecuteTask(e, task_id, steps, initial, custom, behaviours, busy);
            var free := e.permits - busy;
            var plan := RunPlan(e.config, free, steps, behaviours, InitialState(task_id, initial));
            ("error" in r.state.execution_metadata) <==>
              (|| PlanError(e.agents, steps).Some?
               || plan.outcome != Finished
               || plan.elapsed > custom.GetOr(e.config).timeout)
  {
    if PlanError(e.agents, steps).Some? {
      TaskRejected(e, task_id, steps, initial, custom, behaviours, busy);
    } else if RunPlan(e.config, e.permits - busy, steps, behaviours, InitialState(task_id, initial)).outcome == Hung
              || RunPlan(e.config, e.permits - busy, steps, behaviours, InitialState(task_id, initial)).elapsed > custom.GetOr(e.config).timeout {
      TaskTimesOut(e, task_id, steps, initial, custom, behaviours, busy);
    } else if RunPlan(e.config, e.permits - busy, steps, behaviours, InitialState(task_id, initial)).outcome.Aborted? {
      TaskAborts(e, task_id, steps, initial, custom, behaviours, busy);
    } else {
      TaskCompletes(e, task_id, steps, initial, custom, behaviours, busy);
    }
  }

  /** A concluded plan carries an "error" entry exactly when some step halts the chain
      or the plan overruns the deadline. */
  lemma PlanFailsIff(s0: AgentState, cfg: TaskConfig, free: int, steps: seq<string>,
                     behaviours: seq<StepBehaviour>, deadline: real)
    requires |behaviours| == |steps| && Scripted(cfg, behaviours)
    requires s0.execution_metadata == map[]
    ensures var plan := RunPlan(cfg, free, steps, behaviours, s0);
            ("error" in Conclude(s0, plan, deadline).state.execution_metadata) <==>
              (FirstHalt(cfg, free, behaviours) < |steps| || plan.elapsed > deadline)
  {
    var plan := RunPlan(cfg, free, steps, behaviours, s0);
    if plan.outcome == Hung || plan.elapsed > deadline {
      ConcludeTimedOut(s0, plan, deadline);
      PlanFinishesIff(cfg, free, steps, behaviours, s0);
    } else if plan.outcome.Aborted? {
      ConcludeAborted(s0, plan, deadline);
      PlanFinishesIff(cfg, free, steps, behaviours, s0);
    } else {
      FinishedPlanShape(cfg, free, steps, behaviours, s0);
      ConcludeFinished(s0, plan, deadline);
    }
  }

  /** When other tasks hold every permit, the first step waits on the semaphore for good:
      it never acquires a permit and no attempt of it runs, so no later step starts and
      the task ends at its deadline. */
  lemma {:induction false} NoPermitTimesOut(e: Engine, task_id: string, steps: seq<string>, initial: Option<map<string, Value>>,
                         custom: Option<TaskConfig>, behaviours: seq<StepBehaviour>, busy: nat)
    requires |behaviours| == |steps| && Scripted(e.config, behaviours)
    requires PlanError(e.agents, steps).None?
    requires busy >= e.permits && e.config.max_retries >= 0
    ensures var n := RunNode(e.config, e.permits - busy, steps[0], InitialState(task_id, initial), behaviours[0]);
            n.outcome == Stuck && n.trace == []
    ensures var r := ExecuteTask(e, task_id, steps, initial, custom, behaviours, busy);
            r.state == FailedState(InitialState(task_id, initial), TimeoutText) && r.ran <= steps[..1]
  {
    assert FirstHalt(e.config, e.permits - busy, behaviours) == 0;
    TaskTimesOut(e, task_id, steps, initial, custom, behaviours, busy);
  }

  const ExampleConfig: TaskConfig := DefaultTaskConfig().(max_retries := 2, retry_delay := 0.1, retry_backoff := 2.0)
  const Boom: Exception := Exception("boom", false)
  const ExampleA: StepBehaviour := StepBehaviour([Succeeds(map[], 0.01), Succeeds(map[], 0.01), Succeeds(map[], 0.01)], None)
  const ExampleB: StepBehaviour := StepBehaviour([Fails(Boom, 0.0), Fails(Boom, 0.0), Fails(Boom, 0.0)], None)

  lemma ExampleNodeA(s: AgentState)
    ensures var n := RunNode(ExampleConfig, 1, "a", s, ExampleA);
            n.outcome == Continue && n.elapsed == 0.01
            && n.state == s.(shared_data := map[], agent_results := n.state.agent_results)
            && "a" in n.state.agent_results && n.state.agent_results["a"].status == Completed
  {
    var start := NewAgentResult("a", s.task_id, Running);
    assert RetryStep(ExampleConfig, 1, ExampleA.attempts, 0, start, None)
        == StepRun(Returned(map[]), start, 1, [Acquired, Ran(0), Released], 0.01);
  }

  lemma ExampleNodeB(s: AgentState)
    ensures var n := RunNode(ExampleConfig, 1, "b", s, ExampleB);
            n.outcome == Stop(Boom) && n.elapsed == 0.3
            && (forall id :: id in s.agent_results && id != "b" ==>
                  id in n.state.agent_results && n.state.agent_results[id] == s.agent_results[id])
            && "b" in n.state.agent_results && n.state.agent_results["b"].status == Failed
            && n.state.agent_results["b"].retry_count == 2
  {
    var cfg := ExampleConfig;
    var b := ExampleB.attempts;
    var start := NewAgentResult("b", s.task_id, Running);
    assert Pow(2.0, 0) == 1.0 && Pow(2.0, 1) == 2.0;
    assert StepWait(cfg, 1) == 0.1 && StepWait(cfg, 2) == 0.2;
    var run2 := RetryStep(cfg, 1, b, 2, MarkAttempt(start, 1), Some(Boom));
    var run1 := RetryStep(cfg, 1, b, 1, start, Some(Boom));
    var run0 := RetryStep(cfg, 1, b, 0, start, None);
    assert run2.outcome == Raised(Boom) && run2.elapsed == 0.2 && run2.record.retry_count == 2;
    assert run1.outcome == Raised(Boom) && run1.elapsed == 0.3 && run1.record.retry_count == 2;
    assert run0.outcome == Raised(Boom) && run0.elapsed == 0.3 && run0.record.retry_count == 2;
  }

  /** The plan of the two-step example: "a" succeeds at once, "b" fails every time, with
      two retries spaced 0.1s and 0.2s apart. "a" ends COMPLETED, "b" FAILED after two
      retries, both ran, and 0.31s pass. */
  lemma ExamplePlan()
    ensures var plan := RunPlan(ExampleConfig, 1, ["a", "b"], [ExampleA, ExampleB], InitialState("t", None));
            && plan.outcome == Aborted(Boom)
            && "a" in plan.state.agent_results && plan.state.agent_results["a"].status == Completed
            && "b" in plan.state.agent_results && plan.state.agent_results["b"].status == Failed
            && plan.state.agent_results["b"].retry_count == 2
            && plan.elapsed == 0.31
            && plan.ran == ["a", "b"]
  {
    var cfg := ExampleConfig;
    var steps := ["a", "b"];
    var bs := [ExampleA, ExampleB];
    var s0 := InitialState("t", None);
    ExampleNodeA(s0);
    var sa := RunNode(cfg, 1, "a", s0, ExampleA).state;
    assert steps[1..] == ["b"] && bs[1..] == [ExampleB];
    ExampleRest(sa);
  }

  lemma ExampleRest(sa: AgentState)
    ensures var rest := RunPlan(ExampleConfig, 1, ["b"], [ExampleB], sa);
            && rest.outcome == Aborted(Boom) && rest.elapsed == 0.3 && rest.ran == ["b"]
            && (forall id :: id in sa.agent_results && id != "b" ==>
                  id in rest.state.agent_results && rest.state.agent_results[id] == sa.agent_results[id])
            && "b" in rest.state.agent_results && rest.state.agent_results["b"].status == Failed
            && rest.state.agent_results["b"].retry_count == 2
  {
    ExampleNodeB(sa);
  }

  /** The task of the two-step example fails with b's error after running both steps. */
  lemma TwoStepExample(e: Engine)
    requires e.config == ExampleConfig && e.permits == 1 && "a" in e.agents && "b" in e.agents
    ensures var r := ExecuteTask(e, "t", ["a", "b"], None, None, [ExampleA, ExampleB], 0);
            && r.ran == ["a", "b"]
            && "error" in r.state.execution_metadata && r.state.execution_metadata["error"] == Str("boom")
            && "status" in r.state.execution_metadata && r.state.execution_metadata["status"] == Str("failed")
  {
    var steps := ["a", "b"];
    var bs := [ExampleA, ExampleB];
    var s0 := InitialState("t", None);
    assert steps[..0] == [] && steps[..1] == ["a"];
    assert PlanError(e.agents, steps).None?;
    ExamplePlan();
    var plan := RunPlan(e.config, 1, steps, bs, s0);
    TaskRunsPlan(e, "t", steps, None, None, bs, 0);
    ConcludeAborted(s0, plan, DefaultTaskConfig().timeout);
  }

  // ---------------------------------------------------------------- task bookkeeping

  /** `cancel_task`: only a task in the running map is cancelled and removed. */
  function CancelTask(e: Engine, task_id: string): (r: (bool, Engine))
    ensures r.0 <==> task_id in e.running
    ensures r.1.running.Keys == e.running.Keys - {task_id}
    ensures forall id :: id in r.1.running ==> r.1.running[id] == e.running[id]
    ensures r.1 == e.(running := r.1.running)
  {
    if task_id in e.running then (true, e.(running := e.running - {task_id})) else (false, e)
  }

  datatype StepSummary = StepSummary(status: AgentStatus, execution_time: real, retry_count: int, error: Option<string>)

  datatype StatusReport = StatusReport(
    task_id: string,
    status: Value,
    agent_results: map<string, StepSummary>,
    execution_metadata: map<string, Value>)

  function Summary(a: AgentResult): StepSummary {
    StepSummary(a.status, a.execution_time, a.retry_count, a.error)
  }

  /** `get_task_status`: a report for a stored task, with "running" when no status
      was recorded; nothing for an unknown task. */
  function GetTaskStatus(e: Engine, task_id: string): (r: Option<StatusReport>)
    ensures r.Some? <==> task_id in e.results
    ensures r.Some? ==> var s := e.results[task_id];
            && r.value.task_id == task_id
            && r.value.execution_metadata == s.execution_metadata
            && r.value.status == Get(s.execution_metadata, "status", StatusEntry(TaskRunning))
            && r.value.agent_results.Keys == s.agent_results.Keys
            && forall id :: id in s.agent_results ==>
                 r.value.agent_results[id].status == s.agent_results[id].status
                 && r.value.agent_results[id].retry_count == s.agent_results[id].retry_count
                 && r.value.agent_results[id].error == s.agent_results[id].error
                 && r.value.agent_results[id].execution_time == s.agent_results[id].execution_time
  {
    if task_id in e.results then
      var s := e.results[task_id];
      Some(StatusReport(task_id, Get(s.execution_metadata, "status", StatusEntry(TaskRunning)),
                        map id | id in s.agent_results :: Summary(s.agent_results[id]), s.execution_metadata))
    else None
  }

  /** The public operations on an engine. Executing a task leaves the engine as it is. */
  datatype EngineOp =
    | AddAgent(cls: Handle, id: string)
    | AddTool(name: string, tool: Handle)
    | Execute(task_id: string)
    | Cancel(task_id: string)

  function Apply(e: Engine, ops: seq<EngineOp>): Engine
    decreases |ops|
  {
    if |ops| == 0 then e
    else
      var next := match ops[0]
        case AddAgent(cls, id) => RegisterAgent(e, cls, id)
        case AddTool(name, tool) => RegisterTool(e, name, tool)
        case Execute(_) => e
        case Cancel(id) => CancelTask(e, id).1;
      Apply(next, ops[1..])
  }

  /** Nothing ever fills the running and result maps, so on an engine built by the
      constructor every cancel answers false and every status query answers nothing. */
  lemma {:induction false} NothingTracked(config: Option<TaskConfig>, ops: seq<EngineOp>, task_id: string)
    requires NewEngine(config).Ok?
    ensures var e := Apply(NewEngine(config).value, ops);
            !CancelTask(e, task_id).0 && GetTaskStatus(e, task_id) == None
  {
    ApplyKeepsMapsEmpty(NewEngine(config).value, ops);
  }

  lemma {:induction false} ApplyKeepsMapsEmpty(e: Engine, ops: seq<EngineOp>)
    requires e.running == map[] && e.results == map[]
    ensures Apply(e, ops).running == map[] && Apply(e, ops).results == map[]
    decreases |ops|
  {
    if |ops| > 0 {
      var next := match ops[0]
        case AddAgent(cls, id) => RegisterAgent(e, cls, id)
        case AddTool(name, tool) => RegisterTool(e, name, tool)
        case Execute(_) => e
        case Cancel(id) => CancelTask(e, id).1;
      ApplyKeepsMapsEmpty(next, ops[1..]);
    }
  }
}
