/**
 * Stretches of runs, for building a run that has a given property: calls that come, launch a
 * session, store its handle, or find nothing to stop.
 */
module RunPieces {
  import opened Options
  import opened ServiceStates
  import opened Lifecycle
  import opened CallRules

  lemma Comes(s: World, kind: Kind, rules: set<Rule>) returns (t: World)
    requires Reachable(s, rules) && ObeysAll(rules, s, Invoke(kind))
    ensures t == s.(handlers := s.handlers + [Handler(kind, Begin)]) && Reachable(t, rules)
  {
    t := Step(s, Invoke(kind)).value;
    StepIsReachable(s, Invoke(kind), rules);
  }

  /** A Connect comes and finds the slot empty. */
  lemma Arrives(s: World, rules: set<Rule>) returns (t: World)
    requires Reachable(s, rules) && ObeysAll(rules, s, Invoke(Connect)) && s.slot == None && s.lock == None
    ensures Reachable(t, rules) && t == s.(handlers := s.handlers + [Handler(Connect, Arm)])
  {
    var h := |s.handlers|;
    t := Comes(s, Connect, rules);
    t := Go(t, Handle(h, true), rules);
    t := Go(t, Handle(h, true), rules);
    assert t.handlers == s.handlers + [Handler(Connect, Arm)];
  }

  /** A Connect asks for Starting, spawns its session and feeds it. */
  lemma Launches(s: World, h: nat, rules: set<Rule>) returns (t: World)
    requires Reachable(s, rules) && h < |s.handlers| && s.handlers[h] == Handler(Connect, Arm)
    requires s.machine.state in {Starting, Stopped}
    ensures Reachable(t, rules) && t.machine == Apply(s.machine, To(Starting)) && t.machine.state == Starting
    ensures t.slot == s.slot && t.lock == s.lock
    ensures t.watchers == s.watchers + [NEW_WATCHER.(pc := Selecting)]
    ensures t.handlers == s.handlers[h := Handler(Connect, Install(|s.watchers|, true))]
  {
    t := Go(s, Handle(h, true), rules);
    t := Go(t, Handle(h, true), rules);
    t := Go(t, Handle(h, true), rules);
    assert t.watchers == s.watchers + [NEW_WATCHER.(pc := Selecting)];
    assert t.handlers == s.handlers[h := Handler(Connect, Install(|s.watchers|, true))];
  }

  lemma Stores(s: World, h: nat, w: nat, rules: set<Rule>) returns (t: World)
    requires Reachable(s, rules) && h < |s.handlers| && s.handlers[h] == Handler(Connect, Install(w, true))
    requires s.slot == None && s.lock == None
    ensures Reachable(t, rules)
    ensures t == s.(slot := Some(w), handlers := s.handlers[h := Handler(Connect, Returned)])
  {
    t := Go(s, Handle(h, true), rules);
  }

  /** A Disconnect comes and finds the slot empty. */
  lemma FindsNothing(s: World, rules: set<Rule>) returns (t: World)
    requires Reachable(s, rules) && ObeysAll(rules, s, Invoke(Disconnect)) && s.slot == None && s.lock == None
    requires s.machine.state in {Starting, Stopped}
    ensures Reachable(t, rules) && t.slot == None && t.lock == None && t.watchers == s.watchers
    ensures t.machine.state == if s.machine.state == Starting then Stopping else Stopped
    ensures t.handlers == s.handlers + [Handler(Disconnect, Settle)]
  {
    var h := |s.handlers|;
    t := Comes(s, Disconnect, rules);
    t := Go(t, Handle(h, true), rules);
    t := Go(t, Handle(h, true), rules);
    assert t.handlers == s.handlers + [Handler(Disconnect, Settle)];
  }

  /** A Disconnect asks for its final Stopped. */
  lemma Settles(s: World, h: nat, rules: set<Rule>) returns (t: World)
    requires Reachable(s, rules) && h < |s.handlers| && s.handlers[h] == Handler(Disconnect, Settle)
    requires s.machine.state in {Starting, Stopping}
    ensures Reachable(t, rules) && t.machine.state == Stopped
    ensures t.slot == s.slot && t.lock == s.lock && t.watchers == s.watchers
    ensures t.handlers == s.handlers[h := Handler(Disconnect, Returned)]
  {
    t := Go(s, Handle(h, true), rules);
  }

  /** A session moves, with whatever it asks of the state machine. */
  lemma Moves(s: World, w: nat, e: WatcherEvent, rules: set<Rule>) returns (t: World)
    requires Reachable(s, rules) && w < |s.watchers| && CanStep(s.watchers[w], e)
    ensures Reachable(t, rules)
    ensures
      var call := CallOf(s.watchers[w], e);
      t == s.(watchers := s.watchers[w := WatcherStep(s.watchers[w], e, s.machine.state)],
              machine := if call.Some? then Apply(s.machine, call.value) else s.machine)
  {
    t := Go(s, Watch(w, e), rules);
  }

  lemma StartObeys(rules: set<Rule>, kind: Kind)
    requires !kind.Shutdown?
    ensures ObeysAll(rules, START, Invoke(kind))
  {
  }
}
