/** The tool invocation layer: a tool's result record, its configuration,
    the retry wrapper around the tool's own `execute`, and the result cache
    consulted by a call. The tool's `execute` is an oracle: one scripted
    outcome per attempt. The clock is an explicit parameter. */
module Tools {
  import opened Values
  import opened Backoff
  import Text
  import opened CacheKeys

  datatype ToolStatus = Idle | Running | Completed | Failed | Timeout

  /** `ToolResult`; `metadata` is never null. */
  datatype ToolResult = ToolResult(
    tool_name: string,
    status: ToolStatus,
    result: Value,
    error: Option<string>,
    execution_time: real,
    metadata: map<string, Value>)

  /** The dataclass constructor with `__post_init__`: a missing metadata map becomes `{}`. */
  function MakeToolResult(tool_name: string, status: ToolStatus, result: Value, error: Option<string>,
                          execution_time: real, metadata: Option<map<string, Value>>): (r: ToolResult)
    ensures r.tool_name == tool_name && r.status == status && r.result == result
    ensures r.error == error && r.execution_time == execution_time
    ensures metadata.None? ==> r.metadata == map[]
    ensures metadata.Some? ==> r.metadata == metadata.value
  {
    ToolResult(tool_name, status, result, error, execution_time, metadata.GetOr(map[]))
  }

  /** `ToolResult(tool_name=name, status=FAILED, error=error)`. */
  function FailedResult(tool_name: string, error: string): ToolResult {
    MakeToolResult(tool_name, Failed, Null, Some(error), 0.0, None)
  }

  /** A timeout in whole seconds, no more than 2^53: the range in which a float holds
      every whole number exactly and `str` writes it as its digits followed by ".0". */
  type Seconds = t: nat | t <= 9007199254740992

  /** `ToolConfig`. The timeout is kept in whole seconds so that its text can be rendered. */
  datatype ToolConfig = ToolConfig(
    timeout: Seconds,
    max_retries: int,
    retry_delay: real,
    cache_enabled: bool,
    cache_ttl: int)

  function DefaultToolConfig(): (c: ToolConfig)
    ensures c.timeout == 30 && c.max_retries == 2 && c.retry_delay == 1.0
    ensures c.cache_enabled && c.cache_ttl == 300
  {
    ToolConfig(30, 2, 1.0, true, 300)
  }

  /** What one call of the tool's `execute` does: return a result, or raise, after `took` seconds. */
  datatype ToolAttempt =
    | Returns(value: ToolResult, took: Duration)
    | Throws(error: Exception, took: Duration)

  /** `asyncio.wait_for` gives up on an attempt that runs longer than the timeout; with a
      zero timeout it cancels the call before it starts, so every attempt times out. */
  predicate TooSlow(cfg: ToolConfig, a: ToolAttempt) {
    cfg.timeout == 0 || a.took > cfg.timeout as real
  }

  /** An attempt that ends in a `TimeoutError`: cut off by `wait_for`, or raising one itself. */
  predicate TimesOut(cfg: ToolConfig, a: ToolAttempt) {
    TooSlow(cfg, a) || (a.Throws? && a.error.isTimeout)
  }

  /** `f"Tool {name} timed out after {timeout}s"` for a whole-second float timeout: the
      fixed prefix, the decimal digits of the timeout, and ".0s". Reading the digits back
      gives the timeout, so distinct timeouts are reported distinctly. */
  function TimeoutMessage(name: string, timeout: Seconds): (m: string)
    ensures var p := "Tool " + name + " timed out after ";
            && |p| + 4 <= |m| && m[..|p|] == p && m[|m| - 3..] == ".0s"
            && (forall i :: |p| <= i < |m| - 3 ==> '0' <= m[i] <= '9')
            && Text.ParseDigits(m[|p|..|m| - 3]) == timeout
  {
    var p := "Tool " + name + " timed out after ";
    var t := Text.NatText(timeout);
    Text.NatTextRoundTrip(timeout);
    assert (p + t + ".0s")[|p|..|p| + |t|] == t;
    p + t + ".0s"
  }

  /** An attempt that hands its result back: it returned within the timeout. */
  predicate Delivers(cfg: ToolConfig, a: ToolAttempt) {
    a.Returns? && !TooSlow(cfg, a)
  }

  /** The exception text a failed attempt leaves in `last_exception`: the
      `asyncio.TimeoutError` handler replaces any `TimeoutError` with the timeout text. */
  function AttemptError(cfg: ToolConfig, name: string, a: ToolAttempt): string {
    if TimesOut(cfg, a) then TimeoutMessage(name, cfg.timeout)
    else if a.Throws? then a.error.text
    else ""
  }

  /** Time an attempt occupies: its own duration, cut off at the timeout. */
  function AttemptTime(cfg: ToolConfig, a: ToolAttempt): real {
    if TooSlow(cfg, a) then cfg.timeout as real else a.took
  }

  /** Index of the first attempt at or after k that delivers, or `budget` if none does. */
  function FirstDelivery(cfg: ToolConfig, script: seq<ToolAttempt>, k: nat, budget: nat): (j: nat)
    requires k <= budget <= |script|
    ensures k <= j <= budget
    ensures j < budget ==> Delivers(cfg, script[j])
    ensures forall i :: k <= i < j ==> !Delivers(cfg, script[i])
    decreases budget - k
  {
    if k == budget then budget
    else if Delivers(cfg, script[k]) then k
    else FirstDelivery(cfg, script, k + 1, budget)
  }

  /** Outcome of `execute_with_retry`: the result, how many attempts were made,
      the total of the backoff delays requested, and the time spent. */
  datatype ToolRun = ToolRun(result: ToolResult, attempts: nat, waited: real, elapsed: real)

  function RetryWait(cfg: ToolConfig, k: nat): real {
    if k == 0 then 0.0 else Delay(cfg.retry_delay, 2.0, k)
  }

  /** Index of the retry whose delays precede attempt k: 0 for the first attempt. */
  function Before(k: nat): nat {
    if k == 0 then 0 else k - 1
  }

  /** The wait before attempt k is what it adds to the total of the waits before it. */
  lemma WaitIsTotalStep(cfg: ToolConfig, k: nat)
    ensures RetryWait(cfg, k) == TotalDelay(cfg.retry_delay, 2.0, k) - TotalDelay(cfg.retry_delay, 2.0, Before(k))
  {
  }

  /** The retry loop from attempt k on; `last` is the text of the last exception so far. */
  function RetryFrom(cfg: ToolConfig, name: string, script: seq<ToolAttempt>, k: nat, last: Option<string>): (r: ToolRun)
    requires k <= AttemptBudget(cfg.max_retries) <= |script|
    ensures r.attempts <= AttemptBudget(cfg.max_retries) - k
    ensures r.attempts == 0 <==> k == AttemptBudget(cfg.max_retries)
    decreases AttemptBudget(cfg.max_retries) - k
  {
    var budget := AttemptBudget(cfg.max_retries);
    if k == budget then
      ToolRun(FailedResult(name, last.GetOr("None")), 0, 0.0, 0.0)
    else
      var wait := RetryWait(cfg, k);
      var a := script[k];
      var spent := SleepTime(wait) + AttemptTime(cfg, a);
      if Delivers(cfg, a) then
        ToolRun(a.value, 1, wait, spent)
      else
        var rest := RetryFrom(cfg, name, script, k + 1, Some(AttemptError(cfg, name, a)));
        ToolRun(rest.result, rest.attempts + 1, wait + rest.waited, spent + rest.elapsed)
  }

  /** How the retry loop from attempt k ends: with the first delivered result, else a
      FAILED result carrying the last attempt's error text, else (no attempt left) the
      last error seen so far. A last attempt that timed out, or raised a `TimeoutError`
      of its own, is reported with the timeout text; any other last attempt raised, and
      its own text is reported. */
  lemma {:induction false} RetryFromOutcome(cfg: ToolConfig, name: string, script: seq<ToolAttempt>, k: nat,
                                            last: Option<string>)
    requires k <= AttemptBudget(cfg.max_retries) <= |script|
    ensures var r := RetryFrom(cfg, name, script, k, last);
            var budget := AttemptBudget(cfg.max_retries);
            var j := FirstDelivery(cfg, script, k, budget);
            && (j < budget ==> r.result == script[j].value && r.attempts == j - k + 1)
            && (j == budget && k < budget ==>
                  r.result == FailedResult(name, AttemptError(cfg, name, script[budget - 1]))
                  && r.attempts == budget - k)
            && (j == budget && k < budget && TimesOut(cfg, script[budget - 1]) ==>
                  r.result == FailedResult(name, TimeoutMessage(name, cfg.timeout)))
            && (j == budget && k < budget && !TimesOut(cfg, script[budget - 1]) ==>
                  script[budget - 1].Throws?
                  && r.result == FailedResult(name, script[budget - 1].error.text))
            && (k == budget ==> r.result == FailedResult(name, last.GetOr("None")))
    decreases AttemptBudget(cfg.max_retries) - k
  {
    var budget := AttemptBudget(cfg.max_retries);
    if k < budget && !Delivers(cfg, script[k]) {
      assert FirstDelivery(cfg, script, k, budget) == FirstDelivery(cfg, script, k + 1, budget);
      RetryFromOutcome(cfg, name, script, k + 1, Some(AttemptError(cfg, name, script[k])));
    }
  }

  /** The waits the loop from attempt k requests add up to the doubling backoff of the
      retries it makes. */
  lemma {:induction false} RetryFromWaits(cfg: ToolConfig, name: string, script: seq<ToolAttempt>, k: nat,
                                          last: Option<string>)
    requires k <= AttemptBudget(cfg.max_retries) <= |script|
    ensures var r := RetryFrom(cfg, name, script, k, last);
            r.attempts > 0 ==>
              r.waited == TotalDelay(cfg.retry_delay, 2.0, k + r.attempts - 1)
                          - TotalDelay(cfg.retry_delay, 2.0, Before(k))
    decreases AttemptBudget(cfg.max_retries) - k
  {
    var budget := AttemptBudget(cfg.max_retries);
    if k < budget && !Delivers(cfg, script[k]) {
      var d := cfg.retry_delay;
      var r := RetryFrom(cfg, name, script, k, last);
      var rest := RetryFrom(cfg, name, script, k + 1, Some(AttemptError(cfg, name, script[k])));
      var n := rest.attempts;
      assert r.waited == RetryWait(cfg, k) + rest.waited && r.attempts == n + 1;
      var before, mid, after := TotalDelay(d, 2.0, Before(k)), TotalDelay(d, 2.0, k), TotalDelay(d, 2.0, k + n);
      assert RetryWait(cfg, k) == mid - before by {
        WaitIsTotalStep(cfg, k);
      }
      if n > 0 {
        assert rest.waited == after - mid by {
          RetryFromWaits(cfg, name, script, k + 1, Some(AttemptError(cfg, name, script[k])));
        }
      } else {
        assert rest.waited == 0.0;
      }
      Telescope(RetryWait(cfg, k), rest.waited, before, mid, after, n);
      assert r.waited == after - before && k + r.attempts - 1 == k + n;
    } else if k < budget {
      WaitIsTotalStep(cfg, k);
    }
  }

  /** `execute_with_retry`: never raises; every outcome is a `ToolResult`. */
  function ExecuteWithRetry(cfg: ToolConfig, name: string, script: seq<ToolAttempt>): (r: ToolRun)
    requires AttemptBudget(cfg.max_retries) <= |script|
    ensures r.attempts <= AttemptBudget(cfg.max_retries)
    ensures r.attempts > 0 ==> r.waited == TotalDelay(cfg.retry_delay, 2.0, r.attempts - 1)
  {
    RetryFromWaits(cfg, name, script, 0, None);
    RetryFrom(cfg, name, script, 0, None)
  }

  /** The result a retry run ends with, stated without the loop: the first delivered
      result, else a FAILED result carrying the last attempt's error text, which is the
      timeout text when that attempt timed out or raised a `TimeoutError` itself. */
  lemma RetryOutcome(cfg: ToolConfig, name: string, script: seq<ToolAttempt>)
    requires AttemptBudget(cfg.max_retries) <= |script|
    ensures var budget := AttemptBudget(cfg.max_retries);
            var r := ExecuteWithRetry(cfg, name, script);
            var j := FirstDelivery(cfg, script, 0, budget);
            && (j < budget ==> r.result == script[j].value && r.attempts == j + 1)
            && (j == budget && budget > 0 ==>
                  r.result.status == Failed
                  && r.result.error == Some(AttemptError(cfg, name, script[budget - 1]))
                  && r.attempts == budget)
            && (j == budget && budget > 0 && TimesOut(cfg, script[budget - 1]) ==>
                  r.result.error == Some(TimeoutMessage(name, cfg.timeout)))
            && (j == budget && budget > 0 && !TimesOut(cfg, script[budget - 1]) ==>
                  script[budget - 1].Throws? && r.result.error == Some(script[budget - 1].error.text))
            && (budget == 0 ==> r.result == FailedResult(name, "None") && r.attempts == 0)
  {
    RetryFromOutcome(cfg, name, script, 0, None);
  }

  /** A result the tool returns is handed back at once, even a FAILED one: no retry follows. */
  lemma ReturnedResultNotRetried(cfg: ToolConfig, name: string, script: seq<ToolAttempt>)
    requires 1 <= AttemptBudget(cfg.max_retries) <= |script|
    requires script[0].Returns? && 0 < cfg.timeout && script[0].took <= cfg.timeout as real
    ensures ExecuteWithRetry(cfg, name, script).result == script[0].value
    ensures ExecuteWithRetry(cfg, name, script).attempts == 1
  {
  }

  /** When no attempt delivers and the last one timed out, or raised a `TimeoutError` of
      its own, every attempt is made and the run is reported with the timeout text. */
  lemma TimeoutReported(cfg: ToolConfig, name: string, script: seq<ToolAttempt>)
    requires 1 <= AttemptBudget(cfg.max_retries) <= |script|
    requires forall i :: 0 <= i < AttemptBudget(cfg.max_retries) ==> !Delivers(cfg, script[i])
    requires TimesOut(cfg, script[AttemptBudget(cfg.max_retries) - 1])
    ensures ExecuteWithRetry(cfg, name, script).result == FailedResult(name, TimeoutMessage(name, cfg.timeout))
    ensures ExecuteWithRetry(cfg, name, script).attempts == AttemptBudget(cfg.max_retries)
  {
    var budget := AttemptBudget(cfg.max_retries);
    assert FirstDelivery(cfg, script, 0, budget) == budget;
    RetryFromOutcome(cfg, name, script, 0, None);
  }

  /** With a zero timeout no attempt is ever handed back: every attempt is made and the
      run fails with "Tool <name> timed out after 0.0s". */
  lemma ZeroTimeoutNeverDelivers(cfg: ToolConfig, name: string, script: seq<ToolAttempt>)
    requires 1 <= AttemptBudget(cfg.max_retries) <= |script|
    requires cfg.timeout == 0
    ensures ExecuteWithRetry(cfg, name, script).result == FailedResult(name, TimeoutMessage(name, 0))
    ensures ExecuteWithRetry(cfg, name, script).attempts == AttemptBudget(cfg.max_retries)
  {
    TimeoutReported(cfg, name, script);
  }

  datatype CacheEntry = CacheEntry(result: ToolResult, stamp: real)

  /** A tool instance: its name, configuration and cache (`_cache` with `_cache_timestamps`). */
  datatype Tool = Tool(name: string, config: ToolConfig, cache: map<CacheKey, CacheEntry>)

  /** `_is_cache_valid`: caching on, an entry present, and younger than the TTL (strictly). */
  predicate CacheValid(tool: Tool, key: CacheKey, now: real) {
    && tool.config.cache_enabled
    && key in tool.cache
    && now - tool.cache[key].stamp < tool.config.cache_ttl as real
  }

  /** The window an entry is served in: a result stored at time `stamp` is valid strictly
      before `stamp + cache_ttl` and never from then on; with caching off nothing is stored,
      so nothing is ever valid. */
  lemma {:induction false} CacheWindow(tool: Tool, key: CacheKey, result: ToolResult, stamp: real, now: real)
    ensures CacheValid(StoreResult(tool, key, result, stamp), key, now)
            <==> tool.config.cache_enabled && now < stamp + tool.config.cache_ttl as real
  {
  }

  /** `_get_cached_result`. */
  function CachedResult(tool: Tool, key: CacheKey, now: real): (r: Option<ToolResult>)
    ensures r.Some? <==> CacheValid(tool, key, now)
    ensures r.Some? ==> r.value == tool.cache[key].result
  {
    if CacheValid(tool, key, now) then Some(tool.cache[key].result) else None
  }

  /** `_cache_result`: store and stamp the result, only when caching is on. */
  function StoreResult(tool: Tool, key: CacheKey, result: ToolResult, now: real): (t: Tool)
    ensures t.name == tool.name && t.config == tool.config
    ensures tool.config.cache_enabled ==> t.cache == tool.cache[key := CacheEntry(result, now)]
    ensures !tool.config.cache_enabled ==> t == tool
  {
    if tool.config.cache_enabled then tool.(cache := tool.cache[key := CacheEntry(result, now)]) else tool
  }

  /** Outcome of one call: the result, the tool with its updated cache, and the
      number of times `execute` ran (0 on a cache hit). */
  datatype Invocation = Invocation(result: ToolResult, tool: Tool, attempts: nat)

  /** `BaseTool.__call__` at clock reading `now`; a result is stamped when it is cached,
      after the attempts and waits have taken their time. */
  function Invoke(tool: Tool, kw: KwArgs, now: real, script: seq<ToolAttempt>): (r: Invocation)
    requires WellFormed(kw)
    requires AttemptBudget(tool.config.max_retries) <= |script|
    ensures r.tool.name == tool.name && r.tool.config == tool.config
    ensures CacheValid(tool, KeyOf(tool.name, kw), now) ==>
              r.result == tool.cache[KeyOf(tool.name, kw)].result && r.attempts == 0 && r.tool == tool
    ensures !CacheValid(tool, KeyOf(tool.name, kw), now) ==>
              var run := ExecuteWithRetry(tool.config, tool.name, script);
              && r.result == run.result && r.attempts == run.attempts
              && (if run.result.status == Completed && tool.config.cache_enabled
                  then r.tool.cache == tool.cache[KeyOf(tool.name, kw) := CacheEntry(run.result, now + run.elapsed)]
                  else r.tool == tool)
  {
    var key := KeyOf(tool.name, kw);
    match CachedResult(tool, key, now)
    case Some(hit) => Invocation(hit, tool, 0)
    case None =>
      var run := ExecuteWithRetry(tool.config, tool.name, script);
      if run.result.status == Completed then
        Invocation(run.result, StoreResult(tool, key, run.result, now + run.elapsed), run.attempts)
      else
        Invocation(run.result, tool, run.attempts)
  }

  /** Every cached result is a COMPLETED one. */
  predicate CacheHoldsCompleted(tool: Tool) {
    forall k :: k in tool.cache ==> tool.cache[k].result.status == Completed
  }

  /** A call keeps the cache free of failures, and touches no other key. */
  lemma InvokeKeepsCache(tool: Tool, kw: KwArgs, now: real, script: seq<ToolAttempt>)
    requires WellFormed(kw)
    requires AttemptBudget(tool.config.max_retries) <= |script|
    requires CacheHoldsCompleted(tool)
    ensures CacheHoldsCompleted(Invoke(tool, kw, now, script).tool)
    ensures Invoke(tool, kw, now, script).result.status != Completed ==> Invoke(tool, kw, now, script).tool == tool
    ensures forall k :: k != KeyOf(tool.name, kw) && k in tool.cache ==>
              k in Invoke(tool, kw, now, script).tool.cache
              && Invoke(tool, kw, now, script).tool.cache[k] == tool.cache[k]
  {
  }

  /** A second call with the same arguments, in any order, while the entry the first
      call stored is younger than the TTL, returns the stored result without running
      the tool; once the entry has aged to the TTL, the tool runs again. */
  lemma RepeatedCall(tool: Tool, kw1: KwArgs, kw2: KwArgs, t1: real, t2: real,
                     s1: seq<ToolAttempt>, s2: seq<ToolAttempt>)
    requires WellFormed(kw1) && WellFormed(kw2) && SameArguments(kw1, kw2)
    requires AttemptBudget(tool.config.max_retries) <= |s1| && AttemptBudget(tool.config.max_retries) <= |s2|
    requires tool.config.cache_enabled
    requires !CacheValid(tool, KeyOf(tool.name, kw1), t1)
    requires ExecuteWithRetry(tool.config, tool.name, s1).result.status == Completed
    ensures var first := Invoke(tool, kw1, t1, s1);
            var stamp := t1 + ExecuteWithRetry(tool.config, tool.name, s1).elapsed;
            var second := Invoke(first.tool, kw2, t2, s2);
            && (t2 - stamp < tool.config.cache_ttl as real ==>
                  second.result == first.result && second.attempts == 0)
            && (t2 - stamp >= tool.config.cache_ttl as real ==>
                  second.result == ExecuteWithRetry(tool.config, tool.name, s2).result
                  && second.attempts == ExecuteWithRetry(tool.config, tool.name, s2).attempts)
  {
    KeyIgnoresOrder(tool.name, kw1, kw2);
  }
}
