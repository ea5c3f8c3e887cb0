/**
 * A session of the lifecycle is a run of the retry loop: along every run of the whole system a
 * session's launches, its prompt and its one report are those of `RetryLoop.Watch` in some
 * environment.
 */
module SessionRuns {
  import opened Options
  import opened ServiceStates
  import opened CertTrust
  import opened Lifecycle
  import opened Ownership
  import opened Sessions
  import opened RetryLoop

  /** The session's child has been launched and its run is not yet over. */
  predicate RunUnderway(pc: WatcherPc) {
    pc.Unstarted? || pc.Selecting? || pc.PolledStop? || pc.Feeding? || pc.Draining? || pc.Classifying?
  }

  /** The run that ended last is followed by another one, unless a stop or a failed launch intervenes. */
  predicate Retrying(pc: WatcherPc) {
    pc.Backoff? || pc.PolledBackoff? || pc.Respawning?
  }

  /** What the session has asked of the state machine by the time it ends. */
  function Reported(ending: Ending): seq<Call> {
    var report := Report(ending);
    if report.Some? then [report.value] else []
  }

  /** All runs but the last `rest` were followed by another one. */
  ghost predicate AllRelaunch(runs: seq<Run>, rest: nat) {
    && rest <= |runs|
    && (forall k :: 0 <= k < |runs| ==> Plausible(runs[k]))
    && (forall k :: 0 <= k < |runs| - rest ==> Relaunches(runs[k], k))
  }

  /** How the last run ended, as far as the session's place tells. */
  predicate EndedAs(ending: Ending, v: Watcher, calls: seq<Call>) {
    match v.pc
    case CleanExit => ending == ClosedCleanly && calls == [] && v.prompts == 0
    case Prompting => ending.Failed? && ending.prompted.Some? && calls == [] && v.prompts == 0
    case Failing => ending.Failed? && (ending.prompted.Some? <==> v.prompts == 1) && calls == []
    case TearingDown(_) => ending == TornDown && calls == [] && v.prompts == 0
    case Answering(_) => ending == TornDown && calls == [] && v.prompts == 0
    case Leaving => calls == Reported(ending) && (v.prompts == 1 <==> ending.Failed? && ending.prompted.Some?)
    case Finished => calls == Reported(ending) && (v.prompts == 1 <==> ending.Failed? && ending.prompted.Some?)
    case _ => false
  }

  /** `runs` are the runs that the session has been through, and `calls` what it has asked for. */
  ghost predicate Explains(runs: seq<Run>, v: Watcher, calls: seq<Call>) {
    if RunUnderway(v.pc) then
      && AllRelaunch(runs, 0)
      && v.spawns == |runs| + 1 && v.retries == |runs| && v.prompts == 0 && calls == []
      && (v.pc.Classifying? && v.pc.certChange.Some? ==> IsDigest(v.pc.certChange.value))
    else if Retrying(v.pc) then
      && runs != [] && AllRelaunch(runs, 0)
      && v.spawns == |runs| == v.retries && v.prompts == 0 && calls == []
    else
      && AllRelaunch(runs, 1)
      && v.spawns == |runs|
      && !Relaunches(runs[|runs| - 1], |runs| - 1)
      && EndedAs(EndingOf(runs[|runs| - 1], |runs| - 1), v, calls)
  }

  // ----- Output with a given verdict -----

  const DIGEST_LABEL := "sha256 digest: "

  lemma DigestLine(digest: string)
    requires IsDigest(digest)
    ensures BearsDigest(DIGEST_LABEL + digest) && ExtractSha256(DIGEST_LABEL + digest) == Some(digest)
  {
    var line := DIGEST_LABEL + digest;
    assert OccursAt(line, "digest", 7);
    assert forall j :: 15 <= j < 79 ==> line[j] == digest[j - 15];
    assert DigestAt(line, 15);
    assert forall j :: j < 15 ==> !DigestAt(line, j) by {
      assert line[14] == ' ';
    }
    ExtractFindsFirstRun(line);
    assert line[15..79] == digest;
  }

  lemma MarkerLine()
    ensures BearsMarker(UNTRUSTED_MARKER) && !BearsDigest(UNTRUSTED_MARKER)
  {
    assert OccursAt(UNTRUSTED_MARKER, UNTRUSTED_MARKER, 0);
    ExtractFindsFirstRun(UNTRUSTED_MARKER);
  }

  lemma TwoLines(first: string, second: string, digest: string)
    requires BearsMarker(first) && !BearsDigest(first)
    requires BearsDigest(second) && ExtractSha256(second) == Some(digest)
    ensures Verdict([first, second]) == Some(digest)
  {
    var lines := [first, second];
    assert first in lines && second in lines;
    VerdictCharacterised(lines);
    var i :| FirstBearing(lines, i) && Verdict(lines) == ExtractSha256(lines[i]);
    assert i == 1;
  }

  /** Whatever the scanner may report, some output makes it report that. */
  lemma SomeOutput(change: Option<string>) returns (lines: seq<string>)
    requires change.Some? ==> IsDigest(change.value)
    ensures Verdict(lines) == change
  {
    if change.None? {
      lines := [];
      VerdictCharacterised(lines);
    } else {
      lines := [UNTRUSTED_MARKER, DIGEST_LABEL + change.value];
      MarkerLine();
      DigestLine(change.value);
      TwoLines(UNTRUSTED_MARKER, DIGEST_LABEL + change.value, change.value);
    }
  }

  // ----- One step of a session -----

  const TORN_DOWN := Run(true, false, [], 0.0, false, false, true, 0.0)
  const CLOSED := Run(false, true, [], 0.0, false, false, true, 0.0)

  function CallsIn(v: Watcher, e: WatcherEvent): seq<Call> {
    var call := CallOf(v, e);
    if call.Some? then [call.value] else []
  }

  /** One more run, and another one follows it. */
  lemma RunContinues(runs: seq<Run>, run: Run)
    requires AllRelaunch(runs, 0) && Plausible(run) && Relaunches(run, |runs|)
    ensures AllRelaunch(runs + [run], 0)
  {
  }

  /** One more run, and it is the last. */
  lemma RunEnds(runs: seq<Run>, run: Run)
    requires AllRelaunch(runs, 0) && Plausible(run) && !Relaunches(run, |runs|)
    ensures
      var all := runs + [run];
      AllRelaunch(all, 1) && all[|all| - 1] == run && !Relaunches(all[|all| - 1], |all| - 1)
  {
  }

  /** The last run turns out not to be followed by another one after all. */
  lemma RunIsLast(runs: seq<Run>, run: Run)
    requires AllRelaunch(runs, 0) && runs != [] && Plausible(run) && !Relaunches(run, |runs| - 1)
    ensures
      var all := runs[|runs| - 1 := run];
      AllRelaunch(all, 1) && all[|all| - 1] == run && !Relaunches(all[|all| - 1], |all| - 1)
  {
  }

  /** The exit of a failed run is classified. */
  lemma ClassifiedExplained(runs: seq<Run>, v: Watcher, calls: seq<Call>, current: ServiceState)
    returns (next: seq<Run>)
    requires Explains(runs, v, calls) && v.pc.Classifying?
    ensures Explains(next, Classified(v, current), calls)
  {
    var lines := SomeOutput(v.pc.certChange);
    var elapsed := if v.pc.fast then 0.0 else FAST_FAILURE_WINDOW;
    var run := Run(false, false, lines, elapsed, current == Starting, false, true, 0.0);
    next := runs + [run];
    assert Decision(run, |runs|)
      == ClassifyExit(v.pc.certChange, v.pc.fast, current == Starting, v.retries, MAX_RETRIES);
    if Decision(run, |runs|).Retry? {
      RunContinues(runs, run);
    } else {
      RunEnds(runs, run);
    }
    DecisionExplained(next, run, v, calls, current);
  }

  lemma DecisionExplained(runs: seq<Run>, run: Run, v: Watcher, calls: seq<Call>, current: ServiceState)
    requires v.pc.Classifying? && |runs| == v.retries + 1 == v.spawns && runs[|runs| - 1] == run
    requires v.prompts == 0 && calls == [] && !run.torndown && !run.success && !run.stopInBackoff && run.respawns
    requires Decision(run, v.retries)
      == ClassifyExit(v.pc.certChange, v.pc.fast, current == Starting, v.retries, MAX_RETRIES)
    requires if Decision(run, v.retries).Retry? then AllRelaunch(runs, 0) else AllRelaunch(runs, 1)
    ensures Explains(runs, Classified(v, current), calls)
  {
  }

  /** The session is torn down while its child runs, or while it waits to retry. */
  lemma StopExplained(runs: seq<Run>, v: Watcher, calls: seq<Call>) returns (next: seq<Run>)
    requires Explains(runs, v, calls) && StopReady(v) && (v.pc.Selecting? || v.pc.Backoff?)
    ensures Explains(next, TakeStop(v, if v.pc.Selecting? then TearingDown(v.pending) else Answering(v.pending)), calls)
  {
    if v.pc.Selecting? {
      RunEnds(runs, TORN_DOWN);
      next := runs + [TORN_DOWN];
    } else {
      var last := runs[|runs| - 1].(stopInBackoff := true);
      assert Decision(last, |runs| - 1) == Decision(runs[|runs| - 1], |runs| - 1);
      RunIsLast(runs, last);
      next := runs[|runs| - 1 := last];
    }
  }

  /** The child could not be launched again. */
  lemma NoRelaunchExplained(runs: seq<Run>, v: Watcher, calls: seq<Call>) returns (next: seq<Run>)
    requires Explains(runs, v, calls) && v.pc.Respawning?
    ensures Explains(next, v.(pc := Failing), calls)
  {
    var last := runs[|runs| - 1].(respawns := false);
    assert Decision(last, |runs| - 1) == Decision(runs[|runs| - 1], |runs| - 1);
    RunIsLast(runs, last);
    next := runs[|runs| - 1 := last];
  }

  lemma CleanExitExplained(runs: seq<Run>, v: Watcher, calls: seq<Call>) returns (next: seq<Run>)
    requires Explains(runs, v, calls) && v.pc.PolledStop?
    ensures Explains(next, v.(pc := CleanExit), calls)
  {
    RunEnds(runs, CLOSED);
    next := runs + [CLOSED];
  }

  /** While a run is under way, or a retry is due, the session only moves on. */
  lemma MoveExplained(runs: seq<Run>, v: Watcher, calls: seq<Call>, current: ServiceState)
    requires Explains(runs, v, calls) && CanStep(v, Advance) && !v.pc.Classifying?
    requires RunUnderway(v.pc) || Retrying(v.pc)
    requires !(StopReady(v) && (v.pc.Selecting? || v.pc.Backoff?))
    ensures Explains(runs, Advanced(v, current), calls)
  {
  }

  /** Once its last run is over, the session goes towards its end as that run decides. */
  lemma EndExplained(runs: seq<Run>, v: Watcher, calls: seq<Call>, current: ServiceState)
    requires Explains(runs, v, calls) && CanStep(v, Advance)
    requires !RunUnderway(v.pc) && !Retrying(v.pc)
    ensures Explains(runs, Advanced(v, current), calls + CallsIn(v, Advance))
  {
    assert calls + [] == calls;
    var ending := EndingOf(runs[|runs| - 1], |runs| - 1);
    EndedAsAdvances(ending, v, calls, current);
  }

  lemma EndedAsAdvances(ending: Ending, v: Watcher, calls: seq<Call>, current: ServiceState)
    requires EndedAs(ending, v, calls) && CanStep(v, Advance)
    ensures EndedAs(ending, Advanced(v, current), calls + CallsIn(v, Advance))
    ensures Advanced(v, current).spawns == v.spawns
    ensures !RunUnderway(Advanced(v, current).pc) && !Retrying(Advanced(v, current).pc)
  {
    if v.pc.CleanExit? || v.pc.Failing? {
      ReportsEnding(ending, v, calls);
    } else {
      assert CallsIn(v, Advance) == [] && calls + [] == calls;
    }
  }

  lemma ReportsEnding(ending: Ending, v: Watcher, calls: seq<Call>)
    requires EndedAs(ending, v, calls) && (v.pc.CleanExit? || v.pc.Failing?)
    ensures EndedAs(ending, v.(pc := Leaving), calls + CallsIn(v, Advance))
  {
    assert calls + CallsIn(v, Advance) == CallsIn(v, Advance) == Reported(ending);
  }

  lemma AdvanceExplained(runs: seq<Run>, v: Watcher, calls: seq<Call>, current: ServiceState)
    returns (next: seq<Run>)
    requires Explains(runs, v, calls) && CanStep(v, Advance)
    ensures Explains(next, Advanced(v, current), calls + CallsIn(v, Advance))
  {
    assert calls + [] == calls;
    if v.pc.Classifying? {
      next := ClassifiedExplained(runs, v, calls, current);
    } else if StopReady(v) && (v.pc.Selecting? || v.pc.Backoff?) {
      next := StopExplained(runs, v, calls);
    } else if RunUnderway(v.pc) || Retrying(v.pc) {
      MoveExplained(runs, v, calls, current);
      next := runs;
    } else {
      EndExplained(runs, v, calls, current);
      next := runs;
    }
  }

  lemma EventExplained(runs: seq<Run>, v: Watcher, calls: seq<Call>, e: WatcherEvent, current: ServiceState)
    returns (next: seq<Run>)
    requires Explains(runs, v, calls) && CanStep(v, e) && !e.Advance?
    ensures Explains(next, WatcherStep(v, e, current), calls)
  {
    if e == SeeExit(true) {
      next := CleanExitExplained(runs, v, calls);
    } else if e == Spawned(false) {
      next := NoRelaunchExplained(runs, v, calls);
    } else {
      next := runs;
    }
  }

  lemma StepExplained(runs: seq<Run>, v: Watcher, calls: seq<Call>, e: WatcherEvent, current: ServiceState)
    returns (next: seq<Run>)
    requires Explains(runs, v, calls) && CanStep(v, e)
    ensures Explains(next, WatcherStep(v, e, current), calls + CallsIn(v, e))
  {
    if e.Advance? {
      next := AdvanceExplained(runs, v, calls, current);
    } else {
      next := EventExplained(runs, v, calls, e, current);
      assert calls + [] == calls;
    }
  }

  // ----- A whole run of the system -----

  function CallsBy(s: World, a: Action, w: nat): seq<Call> {
    if a.Watch? && a.w == w < |s.watchers| then CallsIn(s.watchers[w], a.event) else []
  }

  /** What session `w` asks of the state machine before step `j`. */
  function CallsOf(states: seq<World>, actions: seq<Action>, w: nat, j: nat): seq<Call>
    requires j <= |actions| < |states|
  {
    if j == 0 then [] else CallsOf(states, actions, w, j - 1) + CallsBy(states[j - 1], actions[j - 1], w)
  }

  lemma NewSession(s: World, a: Action, w: nat)
    requires Step(s, a).Some? && |s.watchers| <= w < |Step(s, a).value.watchers|
    ensures Step(s, a).value.watchers[w] == NEW_WATCHER
  {
  }

  /** What explains session `w` before a step of the system can be continued to explain it after. */
  ghost predicate Explained(s: World, w: nat, runs: seq<Run>, calls: seq<Call>) {
    if w < |s.watchers| then Explains(runs, s.watchers[w], calls) else calls == []
  }

  lemma WorldStepExplained(s: World, a: Action, t: World, w: nat, runs: seq<Run>, calls: seq<Call>)
    returns (next: seq<Run>)
    requires Inv(s) && Step(s, a) == Some(t) && Explained(s, w, runs, calls)
    ensures Explained(t, w, next, calls + CallsBy(s, a, w))
  {
    assert calls + [] == calls;
    if w >= |s.watchers| {
      next := [];
      if w < |t.watchers| {
        NewSession(s, a, w);
      }
    } else if a.Watch? && a.w == w {
      next := StepExplained(runs, s.watchers[w], calls, a.event, s.machine.state);
    } else {
      next := runs;
      StepEvolvesPassively(s, a, w);
    }
  }

  /** At every point of every run, some runs of the retry loop explain where a session stands. */
  lemma {:induction false} SessionIsExplained(states: seq<World>, actions: seq<Action>, w: nat, j: nat)
    returns (runs: seq<Run>)
    requires IsRun(states, actions) && j < |states|
    ensures Explained(states[j], w, runs, CallsOf(states, actions, w, j))
  {
    if j == 0 {
      runs := [];
    } else {
      runs := SessionIsExplained(states, actions, w, j - 1);
      InvAlongRun(states, actions, j - 1);
      assert Step(states[j - 1], actions[j - 1]) == Some(states[j]);
      runs := WorldStepExplained(
        states[j - 1], actions[j - 1], states[j], w, runs, CallsOf(states, actions, w, j - 1));
    }
  }

  function EnvOf(runs: seq<Run>): nat -> Run {
    (k: nat) => if k < |runs| then runs[k] else CLOSED
  }

  lemma LastsOnce(env: nat -> Run, m: nat, n: nat)
    requires Lasts(env, m) && Lasts(env, n)
    ensures m == n
  {
    assert !Relaunches(env(m - 1), m - 1) && !Relaunches(env(n - 1), n - 1);
  }

  /**
   * A session that is done went through the retry loop: in some environment the loop takes as
   * many launches as the session made, it cannot take another number, and it ends with the
   * session's prompt and with exactly what the session asked of the state machine.
   */
  lemma SessionIsRetryLoop(states: seq<World>, actions: seq<Action>, w: nat, j: nat) returns (env: nat -> Run)
    requires IsRun(states, actions) && j < |states| && w < |states[j].watchers|
    requires Settled(states[j].watchers[w])
    ensures forall k: nat :: Plausible(env(k))
    ensures
      var v := states[j].watchers[w];
      && Lasts(env, v.spawns) && (forall n: nat :: Lasts(env, n) ==> n == v.spawns)
      && var ending := EndingOf(env(v.spawns - 1), v.spawns - 1);
      && CallsOf(states, actions, w, j) == Reported(ending)
      && (v.prompts == 1 <==> ending.Failed? && ending.prompted.Some?)
  {
    var runs := SessionIsExplained(states, actions, w, j);
    env := EnvOf(runs);
    EnvLasts(runs);
  }

  lemma EnvLasts(runs: seq<Run>)
    requires runs != [] && AllRelaunch(runs, 1) && !Relaunches(runs[|runs| - 1], |runs| - 1)
    ensures forall k: nat :: Plausible(EnvOf(runs)(k))
    ensures Lasts(EnvOf(runs), |runs|)
    ensures forall n: nat :: Lasts(EnvOf(runs), n) ==> n == |runs|
  {
    var env := EnvOf(runs);
    assert forall k: nat :: k < |runs| ==> env(k) == runs[k];
    forall n: nat | Lasts(env, n)
      ensures n == |runs|
    {
      LastsOnce(env, n, |runs|);
    }
  }
}
