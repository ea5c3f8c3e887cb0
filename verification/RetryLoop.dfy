/**
 * The watcher's loop over the runs of one session (service/src/supervisor.rs), with its
 * timing: each run has its own scanner, and only a fast failure while connecting is retried.
 */
module RetryLoop {
  import opened Options
  import opened CertTrust
  import opened ServiceStates
  import opened Lifecycle

  const FAST_FAILURE_WINDOW := 10.0
  const RETRY_DELAY := 3.0

  /** What the environment makes of one run. Times are in seconds. */
  datatype Run = Run(
    torndown: bool,           // a stop request, or the loss of the handle, came before the exit
    success: bool,            // the exit status
    lines: seq<string>,       // all the output, as observed by the end of the drain
    elapsed: real,            // child lifetime and drain
    connecting: bool,         // the service is still Starting when the exit is classified
    stopInBackoff: bool,
    respawns: bool,           // the re-launch succeeds
    latency: real)            // scheduling, spawning and feeding before the next run is timed

  predicate Plausible(r: Run) {
    r.elapsed >= 0.0 && r.latency >= 0.0
  }

  datatype Ending =
    | TornDown                // stopped on request, or abandoned: nothing is reported
    | ClosedCleanly
    | Failed(prompted: Option<string>)

  function Decision(r: Run, retries: nat): ExitAction {
    ClassifyExit(Verdict(r.lines), r.elapsed < FAST_FAILURE_WINDOW, r.connecting, retries, MAX_RETRIES)
  }

  /** Run number `k` is followed by another one. */
  predicate Relaunches(r: Run, k: nat) {
    !r.torndown && !r.success && Decision(r, k).Retry? && !r.stopInBackoff && r.respawns
  }

  /** How the session ends if run number `k` is its last. */
  function EndingOf(r: Run, k: nat): Ending {
    if r.torndown then TornDown
    else if r.success then ClosedCleanly
    else
      match Decision(r, k)
      case Retry => if r.stopInBackoff then TornDown else Failed(None)
      case PromptCert(d) => Failed(Some(d))
      case GiveUp => Failed(None)
  }

  /** The one request made of the state machine. */
  function Report(e: Ending): Option<Call> {
    match e
    case TornDown => None
    case ClosedCleanly => Some(To(Stopped))
    case Failed(_) => Some(Fail(ConnectFailed))
  }

  function TotalLatency(env: nat -> Run, k: nat): real {
    if k == 0 then 0.0 else TotalLatency(env, k - 1) + env(k - 1).latency
  }

  /** The loop goes through exactly `n` runs. */
  ghost predicate Lasts(env: nat -> Run, n: nat) {
    && n >= 1
    && (forall k: nat :: k < n - 1 ==> Relaunches(env(k), k))
    && !Relaunches(env(n - 1), n - 1)
  }

  /** Each re-launch comes 3 s after the run before it was over, plus latency. */
  ghost predicate Spaced(env: nat -> Run, launches: seq<real>) {
    forall k :: 0 < k < |launches| ==>
      launches[k] == launches[k - 1] + env(k - 1).elapsed + 3.0 + env(k - 1).latency
  }

  lemma {:induction false} LaunchBound(env: nat -> Run, launches: seq<real>)
    requires Spaced(env, launches) && forall k :: 0 <= k < |launches| - 1 ==> Relaunches(env(k), k)
    ensures forall k :: 0 < k < |launches| ==>
      launches[k] < launches[0] + 13.0 * k as real + TotalLatency(env, k)
    decreases |launches|
  {
    var n := |launches| - 1;
    if n <= 0 {
    } else {
      LaunchBound(env, launches[..n]);
      assert Relaunches(env(n - 1), n - 1);
      assert launches[n] == launches[n - 1] + env(n - 1).elapsed + 3.0 + env(n - 1).latency;
    }
  }

  /**
   * Watch a session whose runs go as `env` says, the first being launched at `start`.
   * There are at most 3 launches, each re-launch comes 3 s after the run before it and less than
   * 13 s after its launch, plus latency, and what is prompted for comes from the last run's output.
   */
  method Watch(env: nat -> Run, start: real)
    returns (launches: seq<real>, ending: Ending, report: Option<Call>)
    requires forall k: nat :: Plausible(env(k))
    ensures 1 <= |launches| <= 3 && launches[0] == start
    ensures Spaced(env, launches)
    ensures Lasts(env, |launches|)
    ensures forall k :: 0 < k < |launches| ==>
      launches[k] < start + 13.0 * k as real + TotalLatency(env, k)
    ensures ending == EndingOf(env(|launches| - 1), |launches| - 1) && report == Report(ending)
    ensures ending.Failed? && ending.prompted.Some? ==>
      ending.prompted == Verdict(env(|launches| - 1).lines)
  {
    var retries: nat := 0;
    launches := [start];
    while true
      invariant |launches| == retries + 1 <= MAX_RETRIES + 1 && launches[0] == start
      invariant forall k :: 0 <= k < retries ==> Relaunches(env(k), k)
      invariant Spaced(env, launches)
      decreases MAX_RETRIES - retries
    {
      LaunchBound(env, launches);
      var launched := launches[retries];
      var run := env(retries);
      var over := AfterRun(run, retries);
      if over.Some? {
        return launches, over.value, Report(over.value);
      }
      retries := retries + 1;
      launches := launches + [launched + run.elapsed + RETRY_DELAY + run.latency];
    }
  }

  /** From the end of run number `retries` to the next one, if there is one. */
  method AfterRun(run: Run, retries: nat) returns (over: Option<Ending>)
    ensures over.None? <==> Relaunches(run, retries)
    ensures over.Some? ==> over.value == EndingOf(run, retries)
    ensures over.Some? && over.value.Failed? && over.value.prompted.Some? ==> over.value.prompted == Verdict(run.lines)
  {
    if run.torndown {
      return Some(TornDown);
    }
    if run.success {
      return Some(ClosedCleanly);
    }
    var change := ScanRun(run.lines);
    var fast := run.elapsed < FAST_FAILURE_WINDOW;
    match ClassifyExit(change, fast, run.connecting, retries, MAX_RETRIES) {
      case Retry =>
        if run.stopInBackoff {
          return Some(TornDown);
        }
        if !run.respawns {
          return Some(Failed(None));
        }
        return None;
      case PromptCert(d) =>
        return Some(Failed(Some(d)));
      case GiveUp =>
        return Some(Failed(None));
    }
  }

  // ----- The decision, from what happened -----

  /**
   * A run is followed by another one exactly if it failed within 10 s while connecting, without a
   * rejected certificate, as the first or second, and nothing stopped the wait or the re-launch.
   */
  lemma RelaunchesExactly(r: Run, k: nat)
    ensures Relaunches(r, k) <==>
      && !r.torndown && !r.success && r.connecting && r.elapsed < 10.0
      && Verdict(r.lines).None? && k < 2 && !r.stopInBackoff && r.respawns
  {
  }

  /**
   * The session ends with a prompt exactly if its last run failed while connecting with a rejected
   * certificate, however fast and however many runs are left.
   */
  lemma PromptsExactly(r: Run, k: nat, digest: string)
    ensures EndingOf(r, k) == Failed(Some(digest)) <==>
      !r.torndown && !r.success && r.connecting && Verdict(r.lines) == Some(digest)
  {
  }

  /** The session is torn down, closes cleanly or fails by what ended its last run. */
  lemma EndsExactly(r: Run, k: nat)
    requires !Relaunches(r, k)
    ensures EndingOf(r, k) == ClosedCleanly <==> !r.torndown && r.success
    ensures EndingOf(r, k) == TornDown <==>
      || r.torndown
      || (!r.success && r.connecting && r.elapsed < 10.0 && Verdict(r.lines).None? && k < 2 && r.stopInBackoff)
  {
  }

  lemma ReportsExactly(e: Ending)
    ensures Report(e) == (
      match e
      case TornDown => None
      case ClosedCleanly => Some(To(Stopped))
      case Failed(_) => Some(Fail(ConnectFailed)))
  {
  }
}
