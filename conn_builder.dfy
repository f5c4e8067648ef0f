/** `juju_spell/connections/conn_builder.py`: the translation of a
    controller's retry policy into tenacity stop and wait rules, and the
    retry loop that dials the controller's connector until it connects, an
    error that is not retried occurs, or a stop rule fires. Delays are not
    modelled: the clock enters as the time elapsed after each attempt. */
module ConnBuilder {
  import opened Common
  import Config
  import Juju

  /** The constants of the settings module the code reads. */
  datatype Settings = Settings(
    /** `DEFAULT_CONNECTION_WAIT`, the wait used when a policy sets none. */
    connectionWait: int,
    /** `DEFAULT_CONNECTIN_WAIT` / `DEFAULT_CONNECTIN_TIMEOUT`, the
        defaults of `RetryPolicy()`. */
    policyWait: int,
    policyTimeout: int,
    /** `DEFAULT_MAX_FRAME_SIZE`. */
    maxFrameSize: int)

  /** `RetryPolicy()`: three attempts and the settings' wait and timeout. */
  function DefaultPolicy(s: Settings): Config.RetryPolicy
  {
    Config.RetryPolicy(Some(3), Some(s.policyWait), Some(s.policyTimeout))
  }

  /** A tenacity stop rule. */
  datatype StopRule =
    | AfterAttempt(attempts: int)
    | AfterDelay(seconds: int)

  /** An `Optional[int]` policy field that is truthy. */
  predicate Set(x: Option<int>)
  {
    x.Some? && x.value != 0
  }

  /** The policy `build_controller_conn` goes by. */
  function EffectivePolicy(policy: Option<Config.RetryPolicy>, s: Settings): Config.RetryPolicy
  {
    if policy.None? then DefaultPolicy(s) else policy.value
  }

  /** The stop and wait rules of `build_controller_conn`: a stop after the
      policy's attempt count when it is set, then a stop after its timeout
      when that is set; the policy's wait when set, else the settings'
      connection wait. Only `JujuConnectionError` is retried (`Retryable`). */
  method RetryRules(policy: Option<Config.RetryPolicy>, s: Settings) returns (stops: seq<StopRule>, wait: int)
    ensures var p := EffectivePolicy(policy, s);
      (forall n :: AfterAttempt(n) in stops <==> Set(p.attempt) && n == p.attempt.value) &&
      (forall t :: AfterDelay(t) in stops <==> Set(p.timeout) && t == p.timeout.value) &&
      |stops| == (if Set(p.attempt) then 1 else 0) + (if Set(p.timeout) then 1 else 0) &&
      (Set(p.attempt) ==> stops[0].AfterAttempt?) &&
      wait == (if Set(p.wait) then p.wait.value else s.connectionWait)
  {
    var p := if policy.None? then DefaultPolicy(s) else policy.value;
    wait := s.connectionWait;
    stops := [];
    if Set(p.attempt) {
      stops := stops + [AfterAttempt(p.attempt.value)];
    }
    if Set(p.wait) {
      wait := p.wait.value;
    }
    if Set(p.timeout) {
      stops := stops + [AfterDelay(p.timeout.value)];
    }
  }

  /** `retry_if_exception_type(JujuConnectionError)`. */
  predicate Retryable(e: Error)
  {
    e.JujuConnectionError?
  }

  /** `stop_any(*rules)` after attempt number `n`, `elapsed` seconds after
      the first attempt started; with no rules it never stops. */
  predicate Stops(rules: seq<StopRule>, n: nat, elapsed: int)
  {
    exists i :: 0 <= i < |rules| && Fires(rules[i], n, elapsed)
  }

  predicate Fires(rule: StopRule, n: nat, elapsed: int)
  {
    match rule
    case AfterAttempt(a) => n >= a
    case AfterDelay(t) => elapsed >= t
  }

  /** Attempt `i` (from 0) ends the loop: it connected, raised an error
      that is not retried, or a stop rule fired after it. */
  predicate Final(rules: seq<StopRule>, outcomes: seq<Try<()>>, elapsed: seq<int>, i: nat)
    requires i < |outcomes| && i < |elapsed|
  {
    outcomes[i].Ok? || !Retryable(outcomes[i].error) || Stops(rules, i + 1, elapsed[i])
  }

  /** The attempt, from `i` on, that ends the loop, if the answers given
      reach one. */
  function LastAttempt(rules: seq<StopRule>, outcomes: seq<Try<()>>, elapsed: seq<int>, i: nat): (r: Option<nat>)
    requires |outcomes| == |elapsed|
    ensures r.Some? ==> i <= r.value < |outcomes| && Final(rules, outcomes, elapsed, r.value)
    ensures r.Some? ==> forall j :: i <= j < r.value ==> !Final(rules, outcomes, elapsed, j)
    ensures r.None? ==> forall j :: i <= j < |outcomes| ==> !Final(rules, outcomes, elapsed, j)
    decreases |outcomes| - i
  {
    if i >= |outcomes| then None
    else if Final(rules, outcomes, elapsed, i) then Some(i)
    else LastAttempt(rules, outcomes, elapsed, i + 1)
  }

  /** `_conn`: dials the connector once per attempt with the library's own
      retries switched off, and names the controller once a dial succeeds.
      `outcomes[i]` is the answer to the `i`-th dial and `elapsed[i]` the
      seconds passed when it returned; enough answers are given to end the
      loop. The outcome is that of the last attempt: with `reraise` set the
      last error itself is raised, not a `RetryError`. */
  method Conn(controller: Juju.Controller, uuid: string, name: string, dial: Juju.Dial,
              rules: seq<StopRule>, outcomes: seq<Try<()>>, elapsed: seq<int>)
    returns (r: Try<()>)
    requires |outcomes| == |elapsed|
    requires LastAttempt(rules, outcomes, elapsed, 0).Some?
    modifies controller
    ensures var k := LastAttempt(rules, outcomes, elapsed, 0).value;
      r == outcomes[k] &&
      controller.dials == old(controller.dials) + seq(k + 1, _ => dial)
    ensures r.Ok? ==> controller.uuid == uuid && controller.name == name && controller.connected
    ensures r.Raise? ==> controller.uuid == old(controller.uuid) && controller.name == old(controller.name)
  {
    ghost var k := LastAttempt(rules, outcomes, elapsed, 0).value;
    var i := 0;
    while true
      invariant 0 <= i <= k
      invariant controller.dials == old(controller.dials) + seq(i, _ => dial)
      invariant controller.uuid == old(controller.uuid) && controller.name == old(controller.name)
      decreases k - i
    {
      r := controller.Connect(dial, outcomes[i]);
      assert seq(i, _ => dial) + [dial] == seq(i + 1, _ => dial);
      if r.Ok? {
        assert Final(rules, outcomes, elapsed, i);
        controller.uuid := uuid;
        controller.name := name;
        return;
      }
      if !Retryable(r.error) || Stops(rules, i + 1, elapsed[i]) {
        assert Final(rules, outcomes, elapsed, i);
        return;
      }
      i := i + 1;
    }
  }

  /** `build_controller_conn`: `_conn` under the rules of the policy (or
      of `RetryPolicy()` when there is none), dialling with the settings'
      frame size and no retries or backoff of the library's own. */
  method BuildControllerConn(controller: Juju.Controller, uuid: string, name: string,
                             endpoint: string, username: string, password: string, cacert: string,
                             policy: Option<Config.RetryPolicy>, s: Settings,
                             outcomes: seq<Try<()>>, elapsed: seq<int>)
    returns (r: Try<()>)
    requires |outcomes| == |elapsed|
    requires LastAttempt(Rules(EffectivePolicy(policy, s)), outcomes, elapsed, 0).Some?
    modifies controller
    ensures var k := LastAttempt(Rules(EffectivePolicy(policy, s)), outcomes, elapsed, 0).value;
      r == outcomes[k] &&
      controller.dials == old(controller.dials) +
        seq(k + 1, _ => Juju.Dial(endpoint, username, password, cacert, Some(s.maxFrameSize), Some(0), Some(0)))
    ensures r.Ok? ==> controller.uuid == uuid && controller.name == name && controller.connected
    ensures r.Raise? ==> controller.uuid == old(controller.uuid) && controller.name == old(controller.name)
  {
    var stops, wait := RetryRules(policy, s);
    RulesOf(EffectivePolicy(policy, s), stops);
    r := Conn(controller, uuid, name,
              Juju.Dial(endpoint, username, password, cacert, Some(s.maxFrameSize), Some(0), Some(0)),
              stops, outcomes, elapsed);
  }

  /** The stop rules of a policy, in the order `build_controller_conn`
      appends them. */
  function Rules(p: Config.RetryPolicy): seq<StopRule>
  {
    (if Set(p.attempt) then [AfterAttempt(p.attempt.value)] else [])
      + (if Set(p.timeout) then [AfterDelay(p.timeout.value)] else [])
  }

  /** The rules `RetryRules` builds are `Rules` of the policy. */
  lemma RulesOf(p: Config.RetryPolicy, stops: seq<StopRule>)
    requires forall n :: AfterAttempt(n) in stops <==> Set(p.attempt) && n == p.attempt.value
    requires forall t :: AfterDelay(t) in stops <==> Set(p.timeout) && t == p.timeout.value
    requires |stops| == (if Set(p.attempt) then 1 else 0) + (if Set(p.timeout) then 1 else 0)
    requires Set(p.attempt) ==> stops[0].AfterAttempt?
    ensures stops == Rules(p)
  {
    if Set(p.attempt) {
      assert stops[0] in stops;
      if Set(p.timeout) {
        assert stops[1] in stops;
      }
    } else if Set(p.timeout) {
      assert stops[0] in stops;
    }
  }

  // ---------------------------------------------------------------------
  // What the loop promises
  // ---------------------------------------------------------------------

  /** With a stop after `n >= 1` attempts among the rules, the loop makes
      at most `n` dials: `n` answers always suffice to end it. */
  lemma {:induction false} AttemptsBounded(rules: seq<StopRule>, n: int, outcomes: seq<Try<()>>, elapsed: seq<int>)
    requires AfterAttempt(n) in rules && n >= 1
    requires |outcomes| == |elapsed| && |outcomes| >= n
    ensures LastAttempt(rules, outcomes, elapsed, 0).Some?
    ensures LastAttempt(rules, outcomes, elapsed, 0).value < n
  {
    var i :| 0 <= i < |rules| && rules[i] == AfterAttempt(n);
    assert Fires(rules[i], n, elapsed[n - 1]);
    assert Final(rules, outcomes, elapsed, n - 1);
  }

  /** A dial that fails with an error other than `JujuConnectionError` is
      not retried: one dial, and that error is the outcome. */
  lemma NotRetried(rules: seq<StopRule>, outcomes: seq<Try<()>>, elapsed: seq<int>)
    requires |outcomes| == |elapsed| && |outcomes| > 0
    requires outcomes[0].Raise? && !Retryable(outcomes[0].error)
    ensures LastAttempt(rules, outcomes, elapsed, 0) == Some(0)
  {
  }

  /** Without stop rules the loop retries every `JujuConnectionError`: it
      ends at the first answer that is a success or another error. */
  lemma {:induction false} RetriedForever(outcomes: seq<Try<()>>, elapsed: seq<int>, k: nat)
    requires |outcomes| == |elapsed| && k < |outcomes|
    requires outcomes[k].Ok? || !Retryable(outcomes[k].error)
    requires forall j :: 0 <= j < k ==> outcomes[j].Raise? && Retryable(outcomes[j].error)
    ensures LastAttempt([], outcomes, elapsed, 0) == Some(k)
  {
    assert Final([], outcomes, elapsed, k);
    forall j | 0 <= j < k
      ensures !Final([], outcomes, elapsed, j)
    {
      assert !Stops([], j + 1, elapsed[j]);
    }
  }

  /** `RetryPolicy(attempt=2)` with a refused dial and then a successful
      one, inside the timeout: exactly two dials, and success. */
  lemma TwoAttempts(s: Settings, elapsed: seq<int>)
    requires |elapsed| == 2 && elapsed[0] < s.policyTimeout
    ensures var rules := Rules(Config.RetryPolicy(Some(2), Some(s.policyWait), Some(s.policyTimeout)));
      var outcomes := [Raise(JujuConnectionError("refused")), Ok(())];
      LastAttempt(rules, outcomes, elapsed, 0) == Some(1)
  {
    var rules := Rules(Config.RetryPolicy(Some(2), Some(s.policyWait), Some(s.policyTimeout)));
    var outcomes: seq<Try<()>> := [Raise(JujuConnectionError("refused")), Ok(())];
    assert !Stops(rules, 1, elapsed[0]) by {
      forall i | 0 <= i < |rules|
        ensures !Fires(rules[i], 1, elapsed[0])
      {
      }
    }
    assert !Final(rules, outcomes, elapsed, 0);
    assert Final(rules, outcomes, elapsed, 1);
  }
}
