/**
 * The rules of `OneSession` and `Supervision` are exactly the ones needed: without any one of
 * them some run, keeping to all the others, has two children alive or loses track of its session.
 */
module RulesNeeded {
  import opened Options
  import opened ServiceStates
  import opened CertTrust
  import opened Lifecycle
  import opened CallRules
  import opened OneSession
  import opened Supervision
  import opened RunPieces

  /** One Connect has launched its session and not yet stored its handle. */
  lemma Launched(rules: set<Rule>) returns (t: World)
    ensures Reachable(t, rules) && t.machine.state == Starting && t.slot == None && t.lock == None
    ensures t.watchers == [NEW_WATCHER.(pc := Selecting)] && t.handlers == [Handler(Connect, Install(0, true))]
  {
    StartIsReachable(rules);
    StartObeys(rules, Connect);
    t := Arrives(START, rules);
    t := Launches(t, 0, rules);
  }

  /** One Connect has returned and its session is waiting. */
  lemma Connected(rules: set<Rule>) returns (t: World)
    ensures Reachable(t, rules) && t.machine.state == Starting && t.slot == Some(0) && t.lock == None
    ensures t.watchers == [NEW_WATCHER.(pc := Selecting)] && t.handlers == [Handler(Connect, Returned)]
  {
    t := Launched(rules);
    t := Stores(t, 0, 0, rules);
  }

  // ----- Two children -----

  ghost predicate TwoChildren(s: World) {
    |s.watchers| >= 2 && s.watchers[0].childAlive && s.watchers[1].childAlive
  }

  /** Two Connects overlap and each launches its session. */
  lemma LaunchedTwice(rules: set<Rule>) returns (t: World)
    requires ConnectsApart !in rules
    ensures Reachable(t, rules) && t.machine.state == Starting && t.slot == None && t.lock == None
    ensures t.watchers == [NEW_WATCHER.(pc := Selecting), NEW_WATCHER.(pc := Selecting)]
    ensures t.handlers == [Handler(Connect, Install(0, true)), Handler(Connect, Install(1, true))]
  {
    t := Launched(rules);
    assert ObeysAll(rules, t, Invoke(Connect));
    t := Arrives(t, rules);
    assert t.handlers == [Handler(Connect, Install(0, true)), Handler(Connect, Arm)];
    t := Launches(t, 1, rules);
  }

  /** A second Connect has asked the session in the slot to stop. */
  lemma AsksOld(s: World, v: Watcher, rules: set<Rule>) returns (t: World)
    requires Reachable(s, rules)
    requires s.machine.state == Starting && s.slot == Some(0) && s.lock == None
    requires s.watchers == [v] && !v.pc.Finished? && !v.pending && s.handlers == [Handler(Connect, Returned)]
    ensures Reachable(t, rules) && t.machine == s.machine && t.slot == None && t.lock == Some(1)
    ensures t.watchers == [v.(pending := true, requests := v.requests + 1)]
    ensures t.handlers == [Handler(Connect, Returned), Handler(Connect, StopOld(0, Await))]
  {
    assert ObeysAll(rules, s, Invoke(Connect));
    t := Comes(s, Connect, rules);
    t := Go(t, Handle(1, true), rules);
    t := Go(t, Handle(1, true), rules);
    t := Go(t, Handle(1, true), rules);
  }

  /** The second Connect gives up waiting for the answer and goes on. */
  lemma GivesUp(s: World, v: Watcher, rules: set<Rule>) returns (t: World)
    requires NoStopTimeout !in rules && Reachable(s, rules)
    requires s.machine.state == Starting && s.slot == None && s.watchers == [v]
    requires s.handlers == [Handler(Connect, Returned), Handler(Connect, StopOld(0, Await))]
    ensures Reachable(t, rules) && t.machine.state == Stopped && t.slot == None && t.lock == None
    ensures t.watchers == [v.(senderOpen := false)]
    ensures t.handlers == [Handler(Connect, Returned), Handler(Connect, Arm)]
  {
    t := WaitElapses(s, 1, rules);
    t := Go(t, Handle(1, true), rules);
    t := Go(t, Handle(1, true), rules);
    assert t.handlers == [Handler(Connect, Returned), Handler(Connect, Arm)];
  }

  lemma WaitElapses(s: World, h: nat, rules: set<Rule>) returns (t: World)
    requires NoStopTimeout !in rules && Reachable(s, rules) && h < |s.handlers|
    requires s.handlers[h].kind.Connect? && s.handlers[h].pc == StopOld(0, Await)
    ensures Reachable(t, rules) && t == s.(handlers := s.handlers[h := Handler(Connect, StopOld(0, Reset))])
  {
    t := Step(s, StopTimesOut(h)).value;
    StepIsReachable(s, StopTimesOut(h), rules);
  }

  /** Two overlapping Connects can leave two children alive. */
  lemma OverlappingConnectsStartTwo(rules: set<Rule>)
    requires ConnectsApart !in rules
    ensures exists s :: Reachable(s, rules) && TwoChildren(s)
  {
    var s := LaunchedTwice(rules);
  }

  /**
   * A Connect that follows a timed-out stop() can leave two children alive: the old session has
   * taken the request, but its child does not die.
   */
  lemma TimedOutStopStartsTwo(rules: set<Rule>)
    requires NoStopTimeout !in rules
    ensures exists s :: Reachable(s, rules) && TwoChildren(s)
  {
    var s := Connected(rules);
    s := AsksOld(s, s.watchers[0], rules);
    s := Go(s, Watch(0, Advance), rules);
    assert s.watchers[0].pc == TearingDown(true) && s.watchers == [s.watchers[0]];
    s := GivesUp(s, s.watchers[0], rules);
    s := Launches(s, 1, rules);
  }

  /**
   * At most one child is alive in every run under a set of rules if and only if the set keeps
   * Connects apart and stop() from timing out.
   */
  lemma OneChildExactly(rules: set<Rule>)
    ensures (forall s :: Reachable(s, rules) ==> OneChild(s)) <==> CHILD_RULES <= rules
  {
    if CHILD_RULES <= rules {
      forall s | Reachable(s, rules)
        ensures OneChild(s)
      {
        FewerRules(s, rules, CHILD_RULES);
        var states, actions :| LeadsTo(states, actions, CHILD_RULES, s);
        OneChildAtMost(states, actions, |actions|);
      }
    } else if ConnectsApart !in rules {
      OverlappingConnectsStartTwo(rules);
    } else {
      TimedOutStopStartsTwo(rules);
    }
  }

  // ----- Losing track of the session -----

  /** No lifecycle call is in progress, yet the state and the slot disagree. */
  ghost predicate LostTrack(s: World) {
    NoneBusy(s) && !Tracks(s)
  }

  /** The first of two overlapping Connects ends the state of the second one's session. */
  lemma ConnectDuringConnect(rules: set<Rule>)
    requires ConnectsApart !in rules
    ensures exists s :: Reachable(s, rules) && LostTrack(s)
  {
    var s := LaunchedTwice(rules);
    s := Go(s, Watch(0, Advance), rules);
    s := Go(s, Watch(0, ChildDies), rules);
    s := Go(s, Watch(0, SeeExit(true)), rules);
    s := Go(s, Watch(0, Advance), rules);
    assert s.machine.state == Stopped;
    assert s.watchers[1] == NEW_WATCHER.(pc := Selecting) && |s.watchers| == 2;
    s := Stores(s, 0, 0, rules);
    s := Go(s, Handle(1, true), rules);
    assert s.handlers == [Handler(Connect, Returned), Handler(Connect, Returned)] && s.slot == Some(1);
  }

  /** A Disconnect goes by before Connect has stored its session. */
  lemma DisconnectDuringConnect(rules: set<Rule>)
    requires DisconnectAfterConnect !in rules
    ensures exists s :: Reachable(s, rules) && LostTrack(s)
  {
    var s := Launched(rules);
    assert ObeysAll(rules, s, Invoke(Disconnect));
    s := FindsNothing(s, rules);
    s := Settles(s, 1, rules);
    s := Stores(s, 0, 0, rules);
    assert s.handlers == [Handler(Connect, Returned), Handler(Disconnect, Returned)];
  }

  /** A Connect has come and gone through the slot while a Disconnect still has to ask for Stopped. */
  lemma ArrivedDuringDisconnect(rules: set<Rule>) returns (s: World)
    requires ConnectAfterDisconnect !in rules
    ensures Reachable(s, rules) && s.machine.state == Stopped && s.slot == None && s.lock == None
    ensures s.watchers == [] && s.handlers == [Handler(Disconnect, Settle), Handler(Connect, Arm)]
  {
    StartIsReachable(rules);
    StartObeys(rules, Disconnect);
    s := FindsNothing(START, rules);
    assert s.handlers == [Handler(Disconnect, Settle)];
    assert ObeysAll(rules, s, Invoke(Connect));
    s := Arrives(s, rules);
  }

  /** A Connect goes by before Disconnect asks for its final Stopped. */
  lemma ConnectDuringDisconnect(rules: set<Rule>)
    requires ConnectAfterDisconnect !in rules
    ensures exists s :: Reachable(s, rules) && LostTrack(s)
  {
    var s := ArrivedDuringDisconnect(rules);
    s := Launches(s, 1, rules);
    assert s.handlers == [Handler(Disconnect, Settle), Handler(Connect, Install(0, true))];
    s := Stores(s, 1, 0, rules);
    assert s.handlers == [Handler(Disconnect, Settle), Handler(Connect, Returned)];
    s := Settles(s, 0, rules);
    assert s.handlers == [Handler(Disconnect, Returned), Handler(Connect, Returned)];
  }

  /** The session that a stop() gave up on fails later and takes the new session's state with it. */
  lemma LateFailure(rules: set<Rule>)
    requires NoStopTimeout !in rules
    ensures exists s :: Reachable(s, rules) && LostTrack(s)
  {
    var s := PromptingSession(rules);
    s := AsksOld(s, s.watchers[0], rules);
    s := GivesUp(s, s.watchers[0], rules);
    s := Launches(s, 1, rules);
    assert s.handlers == [Handler(Connect, Returned), Handler(Connect, Install(1, true))];
    s := Stores(s, 1, 1, rules);
    s := Fails(s, 0, rules);
    assert s.handlers == [Handler(Connect, Returned), Handler(Connect, Returned)];
  }

  /** A session that was about to prompt reports its failure. */
  lemma Fails(s: World, w: nat, rules: set<Rule>) returns (t: World)
    requires Reachable(s, rules) && w < |s.watchers| && s.watchers[w].pc == Prompting
    requires s.machine.state == Starting
    ensures Reachable(t, rules) && t.machine.state == Stopped && t.slot == s.slot && t.handlers == s.handlers
    ensures |t.watchers| == |s.watchers| && forall v :: 0 <= v < |s.watchers| && v != w ==> t.watchers[v] == s.watchers[v]
  {
    t := Go(s, Watch(w, Advance), rules);
    t := Go(t, Watch(w, Advance), rules);
  }

  const DIGEST := seq(64, _ => 'a')

  /** The session in the slot has met a changed certificate and is about to prompt. */
  lemma PromptingSession(rules: set<Rule>) returns (s: World)
    ensures Reachable(s, rules) && s.machine.state == Starting && s.slot == Some(0) && s.lock == None
    ensures s.watchers == [NEW_WATCHER.(pc := Prompting, childAlive := false)]
    ensures s.handlers == [Handler(Connect, Returned)]
  {
    s := Connected(rules);
    s := Go(s, Watch(0, Advance), rules);
    s := Go(s, Watch(0, ChildDies), rules);
    s := Go(s, Watch(0, SeeExit(false)), rules);
    assert s.watchers == [NEW_WATCHER.(pc := Draining, childAlive := false)];
    s := Go(s, Watch(0, Drained(Some(DIGEST), false)), rules);
    s := Go(s, Watch(0, Advance), rules);
  }

  /** The shutdown path has asked the session in the slot to stop, and the session has answered. */
  lemma ShutdownAnswered(rules: set<Rule>) returns (s: World)
    requires NoShutdown !in rules
    ensures Reachable(s, rules) && s.machine.state == Starting && s.slot == None
    ensures |s.watchers| == 1 && s.watchers[0].answered
    ensures s.handlers == [Handler(Connect, Returned), Handler(Kind.Shutdown, StopOld(0, Await))]
  {
    s := Connected(rules);
    assert ObeysAll(rules, s, Invoke(Kind.Shutdown));
    s := Comes(s, Kind.Shutdown, rules);
    s := Go(s, Handle(1, true), rules);
    s := Go(s, Handle(1, true), rules);
    s := Go(s, Handle(1, true), rules);
    assert s.watchers == [NEW_WATCHER.(pc := Selecting, pending := true, requests := 1)];
    s := Go(s, Watch(0, Advance), rules);
    s := Go(s, Watch(0, ChildDies), rules);
    s := Go(s, Watch(0, Advance), rules);
    s := Go(s, Watch(0, Advance), rules);
  }

  /** The shutdown path stops the session and asks the state machine for nothing. */
  lemma ShutDown(rules: set<Rule>)
    requires NoShutdown !in rules
    ensures exists s :: Reachable(s, rules) && LostTrack(s)
  {
    var s := ShutdownAnswered(rules);
    s := Go(s, Handle(1, true), rules);
    s := Go(s, Handle(1, true), rules);
    assert s.handlers == [Handler(Connect, Returned), Handler(Kind.Shutdown, Returned)];
  }

  /**
   * The announced state tracks the session between lifecycle calls in every run under a set of
   * rules if and only if the set has all five.
   */
  lemma TrackingExactly(rules: set<Rule>)
    ensures (forall s :: Reachable(s, rules) && NoneBusy(s) ==> Tracks(s)) <==> ALL_RULES <= rules
  {
    if ALL_RULES <= rules {
      forall s | Reachable(s, rules) && NoneBusy(s)
        ensures Tracks(s)
      {
        FewerRules(s, rules, ALL_RULES);
        var states, actions :| LeadsTo(states, actions, ALL_RULES, s);
        StateTracksSession(states, actions, |actions|);
      }
    } else {
      LosesTrack(rules);
      var s :| Reachable(s, rules) && LostTrack(s);
    }
  }

  lemma LosesTrack(rules: set<Rule>)
    requires !(ALL_RULES <= rules)
    ensures exists s :: Reachable(s, rules) && LostTrack(s)
  {
    var r :| r in ALL_RULES && r !in rules;
    match r
    case ConnectsApart => ConnectDuringConnect(rules);
    case ConnectAfterDisconnect => ConnectDuringDisconnect(rules);
    case DisconnectAfterConnect => DisconnectDuringConnect(rules);
    case NoStopTimeout => LateFailure(rules);
    case NoShutdown => ShutDown(rules);
  }
}
