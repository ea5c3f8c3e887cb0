/**
 * The rules about lifecycle calls that NetworkManager may or may not keep to, and the runs that
 * keep to a given set of them.
 */
module CallRules {
  import opened Options
  import opened Lifecycle

  datatype Rule =
    | ConnectsApart            // no Connect (or NewSecrets) arrives while another is in progress
    | ConnectAfterDisconnect   // no Connect arrives while a Disconnect is in progress
    | DisconnectAfterConnect   // no Disconnect arrives while a Connect is in progress
    | NoStopTimeout            // no stop() runs into its 10 s limit
    | NoShutdown               // the service is not shut down

  const ALL_RULES := {ConnectsApart, ConnectAfterDisconnect, DisconnectAfterConnect, NoStopTimeout, NoShutdown}

  predicate InProgress(h: Handler, kind: Kind) {
    h.kind == kind && !h.pc.Returned?
  }

  ghost predicate NoneInProgress(s: World, kind: Kind) {
    forall h :: 0 <= h < |s.handlers| ==> !InProgress(s.handlers[h], kind)
  }

  ghost predicate Obeys(r: Rule, s: World, a: Action) {
    match r
    case ConnectsApart => a == Invoke(Connect) ==> NoneInProgress(s, Connect)
    case ConnectAfterDisconnect => a == Invoke(Connect) ==> NoneInProgress(s, Disconnect)
    case DisconnectAfterConnect => a == Invoke(Disconnect) ==> NoneInProgress(s, Connect)
    case NoStopTimeout => !a.StopTimesOut?
    case NoShutdown => a != Invoke(Shutdown)
  }

  ghost predicate ObeysAll(rules: set<Rule>, s: World, a: Action) {
    forall r <- rules :: Obeys(r, s, a)
  }

  /** A run that keeps to `rules`. */
  ghost predicate RunUnder(states: seq<World>, actions: seq<Action>, rules: set<Rule>) {
    IsRun(states, actions) && forall i :: 0 <= i < |actions| ==> ObeysAll(rules, states[i], actions[i])
  }

  lemma StepOfRun(states: seq<World>, actions: seq<Action>, rules: set<Rule>, i: nat)
    requires RunUnder(states, actions, rules) && i < |actions|
    ensures Step(states[i], actions[i]) == Some(states[i + 1]) && ObeysAll(rules, states[i], actions[i])
  {
  }

  ghost predicate LeadsTo(states: seq<World>, actions: seq<Action>, rules: set<Rule>, s: World) {
    RunUnder(states, actions, rules) && states[|actions|] == s
  }

  /** Some run that keeps to `rules` comes through `s`. */
  ghost predicate Reachable(s: World, rules: set<Rule>) {
    exists states, actions :: LeadsTo(states, actions, rules, s)
  }

  lemma StartIsReachable(rules: set<Rule>)
    ensures Reachable(START, rules)
  {
    assert LeadsTo([START], [], rules, START);
  }

  lemma StepIsReachable(s: World, a: Action, rules: set<Rule>)
    requires Reachable(s, rules) && Step(s, a).Some? && ObeysAll(rules, s, a)
    ensures Reachable(Step(s, a).value, rules)
  {
    var states, actions :| LeadsTo(states, actions, rules, s);
    var t := Step(s, a).value;
    assert LeadsTo(states + [t], actions + [a], rules, t);
  }

  /** A step that no rule is about. */
  lemma Go(s: World, a: Action, rules: set<Rule>) returns (t: World)
    requires Reachable(s, rules) && Step(s, a).Some? && (a.Handle? || a.Watch?)
    ensures Step(s, a) == Some(t) && Reachable(t, rules)
  {
    t := Step(s, a).value;
    StepIsReachable(s, a, rules);
  }

  lemma FewerRules(s: World, rules: set<Rule>, fewer: set<Rule>)
    requires Reachable(s, rules) && fewer <= rules
    ensures Reachable(s, fewer)
  {
    var states, actions :| LeadsTo(states, actions, rules, s);
    assert LeadsTo(states, actions, fewer, s) by {
      forall i | 0 <= i < |actions| ensures ObeysAll(fewer, states[i], actions[i]) {
        assert ObeysAll(rules, states[i], actions[i]);
      }
    }
  }
}
