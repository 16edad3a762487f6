/**
 * Waiting for an environment update to finish and verifying the result.
 *
 * The remote environment-health lookups are an oracle: `health(k)` is the
 * snapshot the k-th lookup (counting from 0) returns. Whether the version is
 * deployed in the environment is a boolean answer given as a parameter. The
 * remote calls and sleeps the code makes are recorded, in order, as a trace
 * of effects.
 */
module Rollout {
  import opened Wrappers

  /** The fields of an environment-health response that the code reads. */
  datatype HealthSnapshot = HealthSnapshot(status: string, color: string)

  const ReadyStatus: string := "Ready"
  const GreenColor: string := "Green"

  /** Default overall wait, in seconds (20 minutes). */
  const DefaultWaitTimeout: int := 20 * 60
  /** Default pause between two health lookups, in seconds. */
  const DefaultWaitTimeStep: int := 8

  /** A remote call or a pause, as the code makes them. */
  datatype Effect =
    | DescribeHealth(step: nat)   // environment-health lookup of loop iteration `step`
    | Sleep(seconds: int)         // pause between two lookups
    | DescribeEnvironments        // the "is the version deployed" lookup

  /** What waiting for the update produces: the Ready snapshot, or a timeout. */
  datatype PollResult = Ready(snapshot: HealthSnapshot) | TimedOut

  /** How a whole wait-and-verify run ends. */
  datatype Outcome =
    | Succeeded                          // "Deployment successful"
    | TimeoutError                       // the step budget ran out without Ready
    | Unhealthy(snapshot: HealthSnapshot) // Ready, but the colour is not Green
    | NotDeployed                        // Ready and Green, but the version is not deployed

  predicate IsReady(s: HealthSnapshot)
  {
    s.status == ReadyStatus
  }

  /**
   * The number of health lookups the loop may make: ceil(timeout / waitTime),
   * the fewest pauses of `waitTime` seconds that cover `timeout` seconds.
   */
  function Steps(timeout: int, waitTime: int): (s: int)
    requires waitTime > 0
    ensures (s - 1) * waitTime < timeout <= s * waitTime
  {
    var q := (timeout + waitTime - 1) / waitTime;
    var m := (timeout + waitTime - 1) % waitTime;
    assert q * waitTime + m == timeout + waitTime - 1;
    assert (q - 1) * waitTime == q * waitTime - waitTime;
    q
  }

  /** The number of iterations of a loop over `range(steps)`. */
  function Iterations(steps: int): (n: nat)
    ensures steps <= 0 ==> n == 0
    ensures steps > 0 ==> n == steps
  {
    if steps > 0 then steps else 0
  }

  /** The budget is the least number of lookups whose pauses cover the timeout. */
  lemma {:induction false} BudgetIsLeast(timeout: int, waitTime: int, m: nat)
    requires waitTime > 0
    requires m * waitTime >= timeout
    ensures Iterations(Steps(timeout, waitTime)) <= m
  {
  }

  /** With the default timeout and pause the loop makes at most 150 lookups. */
  lemma DefaultBudget()
    ensures Iterations(Steps(DefaultWaitTimeout, DefaultWaitTimeStep)) == 150
  {
  }

  /** The index of the first Ready snapshot among the first `n` lookups, if any. */
  function FirstReady(health: nat -> HealthSnapshot, n: nat): (r: Option<nat>)
    ensures r.Some? ==>
      r.value < n && IsReady(health(r.value)) &&
      forall j :: 0 <= j < r.value ==> !IsReady(health(j))
    ensures r.None? ==> forall j :: 0 <= j < n ==> !IsReady(health(j))
  {
    if n == 0 then None
    else match FirstReady(health, n - 1)
      case Some(k) => Some(k)
      case None => if IsReady(health(n - 1)) then Some(n - 1) else None
  }

  /**
   * The effects of `k` lookups that were all not Ready: lookup 0, a pause,
   * lookup 1, a pause, ..., lookup k-1, a pause.
   */
  function SleepingLookups(k: nat, waitTime: int): (r: seq<Effect>)
    ensures |r| == 2 * k
    ensures forall i :: 0 <= i < |r| ==>
      r[i] == if i % 2 == 0 then DescribeHealth(i / 2) else Sleep(waitTime)
  {
    if k == 0 then []
    else SleepingLookups(k - 1, waitTime) + [DescribeHealth(k - 1), Sleep(waitTime)]
  }

  /** The number of health lookups in a trace. */
  function LookupCount(t: seq<Effect>): nat
  {
    if t == [] then 0
    else (if t[0].DescribeHealth? then 1 else 0) + LookupCount(t[1..])
  }

  lemma {:induction false} LookupCountAppend(a: seq<Effect>, b: seq<Effect>)
    ensures LookupCount(a + b) == LookupCount(a) + LookupCount(b)
  {
    if a == [] {
      assert a + b == b;
    } else {
      assert (a + b)[0] == a[0];
      assert (a + b)[1..] == a[1..] + b;
      LookupCountAppend(a[1..], b);
    }
  }

  lemma {:induction false} LookupCountSleepingLookups(k: nat, waitTime: int)
    ensures LookupCount(SleepingLookups(k, waitTime)) == k
  {
    if k > 0 {
      LookupCountSleepingLookups(k - 1, waitTime);
      var two := [DescribeHealth(k - 1), Sleep(waitTime)];
      LookupCountAppend(SleepingLookups(k - 1, waitTime), two);
      assert two[1..] == [Sleep(waitTime)];
      assert [Sleep(waitTime)][1..] == [];
      assert LookupCount([Sleep(waitTime)]) == 0;
      assert LookupCount(two) == 1;
    }
  }

  /**
   * What the polling loop does with a budget of `n` lookups: stop at the first
   * Ready snapshot, right after its lookup; otherwise pause after every lookup
   * and time out after the n-th.
   */
  function Poll(health: nat -> HealthSnapshot, n: nat, waitTime: int): (PollResult, seq<Effect>)
  {
    match FirstReady(health, n)
    case Some(k) => (Ready(health(k)), SleepingLookups(k, waitTime) + [DescribeHealth(k)])
    case None => (TimedOut, SleepingLookups(n, waitTime))
  }

  /**
   * Polls environment health until it is Ready, pausing `waitTime` seconds
   * after each lookup that is not, for at most ceil(timeout / waitTime) lookups.
   */
  method WaitForUpdateIsReady(health: nat -> HealthSnapshot, timeout: int, waitTime: int)
    returns (result: PollResult, trace: seq<Effect>)
    requires waitTime > 0
    ensures (result, trace) == Poll(health, Iterations(Steps(timeout, waitTime)), waitTime)
  {
    var steps := Steps(timeout, waitTime);
    ghost var n := Iterations(steps);
    trace := [];
    var step := 0;
    while step < steps
      invariant 0 <= step <= n
      invariant FirstReady(health, step) == None
      invariant trace == SleepingLookups(step, waitTime)
      decreases steps - step
    {
      var status := health(step);
      trace := trace + [DescribeHealth(step)];
      if status.status == ReadyStatus {
        result := Ready(status);
        return;
      }
      trace := trace + [Sleep(waitTime)];
      step := step + 1;
    }
    result := TimedOut;
  }

  /** The colour and deployment gate applied to the Ready snapshot. */
  function Gate(s: HealthSnapshot, versionDeployed: bool): (r: (Outcome, seq<Effect>))
    ensures r.0 == Succeeded <==> s.color == GreenColor && versionDeployed
    ensures r.0 == Unhealthy(s) <==> s.color != GreenColor
    ensures r.0 == NotDeployed <==> s.color == GreenColor && !versionDeployed
    ensures r.1 == if s.color == GreenColor then [DescribeEnvironments] else []
  {
    if s.color != GreenColor then (Unhealthy(s), [])
    else if !versionDeployed then (NotDeployed, [DescribeEnvironments])
    else (Succeeded, [DescribeEnvironments])
  }

  /** The outcome and effects of a whole wait-and-verify run with `n` lookups. */
  function Deploy(health: nat -> HealthSnapshot, versionDeployed: bool, n: nat, waitTime: int): (Outcome, seq<Effect>)
  {
    var (p, t) := Poll(health, n, waitTime);
    match p
    case TimedOut => (TimeoutError, t)
    case Ready(s) => var (o, g) := Gate(s, versionDeployed); (o, t + g)
  }

  /**
   * Waits for the environment to become Ready, then requires a Green colour
   * and the version to be deployed in the environment.
   */
  method WaitUntilDeploymentSuccessfulFinished(
    health: nat -> HealthSnapshot,
    versionDeployed: bool,
    waitTimeout: int := DefaultWaitTimeout,
    waitTimeStep: int := DefaultWaitTimeStep)
    returns (outcome: Outcome, trace: seq<Effect>)
    requires waitTimeStep > 0
    ensures (outcome, trace) == Deploy(health, versionDeployed, Iterations(Steps(waitTimeout, waitTimeStep)), waitTimeStep)
  {
    var status;
    status, trace := WaitForUpdateIsReady(health, waitTimeout, waitTimeStep);
    ghost var n := Iterations(Steps(waitTimeout, waitTimeStep));
    assert Poll(health, n, waitTimeStep) == (status, trace);
    if status.TimedOut? {
      outcome := TimeoutError;
      return;
    }
    var snapshot := status.snapshot;
    if snapshot.color != GreenColor {
      outcome := Unhealthy(snapshot);
      assert trace + [] == trace;
      return;
    }
    trace := trace + [DescribeEnvironments];
    if !versionDeployed {
      outcome := NotDeployed;
      return;
    }
    outcome := Succeeded;
  }

  // ---------------------------------------------------------------------------
  // Properties of polling

  /**
   * Polling returns a snapshot exactly when one of the first `n` lookups is
   * Ready, and then it is the first Ready one, after exactly that many + 1
   * lookups; otherwise it makes exactly `n` lookups. Never more than `n`.
   */
  lemma {:induction false} PollLookups(health: nat -> HealthSnapshot, n: nat, waitTime: int)
    ensures Poll(health, n, waitTime).0.Ready? <==> exists k :: 0 <= k < n && IsReady(health(k))
    ensures Poll(health, n, waitTime).0.Ready? ==>
      var k := FirstReady(health, n).value;
      Poll(health, n, waitTime).0.snapshot == health(k) &&
      LookupCount(Poll(health, n, waitTime).1) == k + 1
    ensures Poll(health, n, waitTime).0.TimedOut? ==> LookupCount(Poll(health, n, waitTime).1) == n
    ensures LookupCount(Poll(health, n, waitTime).1) <= n
  {
    match FirstReady(health, n)
    case Some(k) =>
      LookupCountSleepingLookups(k, waitTime);
      LookupCountAppend(SleepingLookups(k, waitTime), [DescribeHealth(k)]);
      assert [DescribeHealth(k)][1..] == [];
    case None =>
      LookupCountSleepingLookups(n, waitTime);
  }

  /**
   * The shape of the polling effects: lookups numbered 0, 1, 2, ... in order,
   * each followed by a pause except a Ready one, which ends the trace. A
   * timed-out poll ends with the pause after its last lookup.
   */
  lemma PollTraceShape(health: nat -> HealthSnapshot, n: nat, waitTime: int)
    ensures var (p, t) := Poll(health, n, waitTime);
      (forall i :: 0 <= i < |t| ==>
        t[i] == if i % 2 == 0 then DescribeHealth(i / 2) else Sleep(waitTime)) &&
      (p.Ready? <==> |t| % 2 == 1) &&
      (p.Ready? ==> IsReady(health(|t| / 2)) && p.snapshot == health(|t| / 2)) &&
      (p.TimedOut? ==> |t| == 2 * n)
  {
    match FirstReady(health, n)
    case Some(k) =>
      var t := SleepingLookups(k, waitTime) + [DescribeHealth(k)];
      assert |t| == 2 * k + 1;
      forall i | 0 <= i < |t|
        ensures t[i] == if i % 2 == 0 then DescribeHealth(i / 2) else Sleep(waitTime)
      {
        if i == 2 * k {
          assert t[i] == DescribeHealth(k);
        } else {
          assert t[i] == SleepingLookups(k, waitTime)[i];
        }
      }
    case None =>
  }

  // ---------------------------------------------------------------------------
  // Properties of the whole wait-and-verify run

  /**
   * A run succeeds exactly when a Ready snapshot arrives within the budget, the
   * first one is Green, and the version is deployed.
   */
  lemma DeploySucceedsIff(health: nat -> HealthSnapshot, versionDeployed: bool, n: nat, waitTime: int)
    ensures Deploy(health, versionDeployed, n, waitTime).0 == Succeeded <==>
      FirstReady(health, n).Some? &&
      health(FirstReady(health, n).value).color == GreenColor &&
      versionDeployed
  {
  }

  /** A run times out exactly when none of the first `n` snapshots is Ready, after `n` lookups. */
  lemma DeployTimesOutIff(health: nat -> HealthSnapshot, versionDeployed: bool, n: nat, waitTime: int)
    ensures Deploy(health, versionDeployed, n, waitTime).0 == TimeoutError <==>
      forall j :: 0 <= j < n ==> !IsReady(health(j))
    ensures Deploy(health, versionDeployed, n, waitTime).0 == TimeoutError ==>
      Deploy(health, versionDeployed, n, waitTime).1 == SleepingLookups(n, waitTime) &&
      DescribeEnvironments !in Deploy(health, versionDeployed, n, waitTime).1
  {
  }

  /**
   * A non-Green Ready snapshot fails the run before the deployment lookup is
   * made: the trace holds no DescribeEnvironments effect.
   */
  lemma NonGreenFailsBeforeDeploymentCheck(health: nat -> HealthSnapshot, versionDeployed: bool, n: nat, waitTime: int)
    requires FirstReady(health, n).Some?
    requires health(FirstReady(health, n).value).color != GreenColor
    ensures Deploy(health, versionDeployed, n, waitTime).0 == Unhealthy(health(FirstReady(health, n).value))
    ensures DescribeEnvironments !in Deploy(health, versionDeployed, n, waitTime).1
  {
  }

  /**
   * A Green Ready snapshot makes exactly one deployment lookup, as the last
   * effect, and the run fails when the version is not deployed.
   */
  lemma GreenConsultsDeploymentCheck(health: nat -> HealthSnapshot, versionDeployed: bool, n: nat, waitTime: int)
    requires FirstReady(health, n).Some?
    requires health(FirstReady(health, n).value).color == GreenColor
    ensures var (o, t) := Deploy(health, versionDeployed, n, waitTime);
      |t| > 0 && t[|t| - 1] == DescribeEnvironments &&
      multiset(t)[DescribeEnvironments] == 1 &&
      (o == Succeeded <==> versionDeployed) &&
      (!versionDeployed ==> o == NotDeployed)
  {
    var k := FirstReady(health, n).value;
    var lookups := SleepingLookups(k, waitTime);
    assert DescribeEnvironments !in lookups;
    var t := lookups + [DescribeHealth(k)] + [DescribeEnvironments];
    assert multiset(t) == multiset(lookups) + multiset([DescribeHealth(k)]) + multiset([DescribeEnvironments]);
  }
}
