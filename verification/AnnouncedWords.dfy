/**
 * Which sequences of states the service can announce: exactly the prefixes of connection cycles,
 * even when every rule about its callers is kept.
 */
module AnnouncedWords {
  import opened Options
  import opened ServiceStates
  import opened Lifecycle
  import opened SignalLog
  import opened CallRules
  import opened Supervision
  import opened RunPieces

  const WAITING := NEW_WATCHER.(pc := Selecting)

  /** The slot holds a session that waits for its child. */
  predicate Holding(s: World) {
    s.slot.Some? && s.slot.value < |s.watchers| && s.watchers[s.slot.value] == WAITING
  }

  /** The slot holds no session, or one that is over. */
  predicate Vacant(s: World) {
    s.slot.Some? ==> s.slot.value < |s.watchers| && s.watchers[s.slot.value].pc.Finished?
  }

  /** A Disconnect has asked for Stopping, and nobody else is busy. */
  ghost predicate Disconnecting(s: World) {
    var n := |s.handlers| - 1;
    n >= 0 && s.handlers[n] == Handler(Disconnect, TakeSlot) && forall h :: 0 <= h < n ==> !Busy(s.handlers[h])
  }

  /** A world from which every legal edge can be taken next. */
  ghost predicate Stage(s: World) {
    && s.lock == None
    && (match s.machine.state
        case Stopped => NoneBusy(s) && Vacant(s)
        case Starting => NoneBusy(s) && Holding(s)
        case Started => NoneBusy(s) && Holding(s)
        case Stopping => Disconnecting(s) && Holding(s)
        case _ => false)
  }

  lemma CallObeys(s: World, kind: Kind)
    requires NoneBusy(s) && !kind.Shutdown?
    ensures ObeysAll(ALL_RULES, s, Invoke(kind))
  {
    assert forall h :: 0 <= h < |s.handlers| ==> !Busy(s.handlers[h]);
  }

  // ----- Stopped to Starting -----

  /** A Connect comes, and the session it finds in the slot is already over. */
  lemma ClearsSlot(s: World, w: nat) returns (t: World)
    requires Reachable(s, ALL_RULES) && NoneBusy(s) && s.lock == None && s.machine.state == Stopped
    requires s.slot == Some(w) && w < |s.watchers| && s.watchers[w].pc.Finished?
    ensures Reachable(t, ALL_RULES) && t.machine == s.machine && t.slot == None && t.lock == None
    ensures t.handlers == s.handlers + [Handler(Connect, Arm)]
  {
    var h, move := |s.handlers|, Handle(|s.handlers|, true);
    CallObeys(s, Connect);
    t := Comes(s, Connect, ALL_RULES);
    t := Go(t, move, ALL_RULES);
    t := Go(t, move, ALL_RULES);
    assert t.handlers[h] == Handler(Connect, StopOld(w, Send)) && t.watchers == s.watchers;
    t := Go(t, move, ALL_RULES);
    t := Go(t, move, ALL_RULES);
    t := Go(t, move, ALL_RULES);
    assert t.handlers == s.handlers + [Handler(Connect, Arm)];
  }

  lemma Starts(s: World) returns (t: World)
    requires Reachable(s, ALL_RULES) && Stage(s) && s.machine.state == Stopped
    ensures Reachable(t, ALL_RULES) && Stage(t) && t.machine == Apply(s.machine, To(Starting))
  {
    var h := |s.handlers|;
    if s.slot.None? {
      CallObeys(s, Connect);
      t := Arrives(s, ALL_RULES);
    } else {
      t := ClearsSlot(s, s.slot.value);
    }
    var w := |t.watchers|;
    t := Launches(t, h, ALL_RULES);
    t := Stores(t, h, w, ALL_RULES);
    assert t.handlers == s.handlers + [Handler(Connect, Returned)];
  }

  // ----- Starting to Started -----

  lemma Announces(s: World) returns (t: World)
    requires Reachable(s, ALL_RULES) && Stage(s) && s.machine.state == Starting
    ensures Reachable(t, ALL_RULES) && Stage(t)
    ensures t.machine == Apply(Apply(s.machine, Emit(Ip4Config)), To(Started))
  {
    CallObeys(s, SetIp4Config);
    t := Comes(s, SetIp4Config, ALL_RULES);
    t := Go(t, Handle(|s.handlers|, true), ALL_RULES);
    t := Go(t, Handle(|s.handlers|, true), ALL_RULES);
    assert t.handlers == s.handlers + [Handler(SetIp4Config, Returned)];
  }

  // ----- Starting or Started to Stopped -----

  /** The child of the waiting session exits with success. */
  lemma Exits(s: World, w: nat) returns (t: World)
    requires Reachable(s, ALL_RULES) && w < |s.watchers| && s.watchers[w] == WAITING
    ensures Reachable(t, ALL_RULES)
    ensures t == s.(watchers := s.watchers[w := WAITING.(pc := CleanExit, childAlive := false)])
  {
    t := Moves(s, w, Advance, ALL_RULES);
    t := Moves(t, w, ChildDies, ALL_RULES);
    t := Moves(t, w, SeeExit(true), ALL_RULES);
  }

  /** The session whose child exited reports it and is over. */
  lemma ClosesCleanly(s: World) returns (t: World)
    requires Reachable(s, ALL_RULES) && Stage(s) && s.machine.state in {Starting, Started}
    ensures Reachable(t, ALL_RULES) && Stage(t) && t.machine == Apply(s.machine, To(Stopped))
  {
    var w := s.slot.value;
    t := Exits(s, w);
    t := Moves(t, w, Advance, ALL_RULES);
    t := Moves(t, w, Advance, ALL_RULES);
    assert t.handlers == s.handlers;
  }

  // ----- Starting or Started to Stopping -----

  lemma Withdraws(s: World) returns (t: World)
    requires Reachable(s, ALL_RULES) && Stage(s) && s.machine.state in {Starting, Started}
    ensures Reachable(t, ALL_RULES) && Stage(t) && t.machine == Apply(s.machine, To(Stopping))
  {
    CallObeys(s, Disconnect);
    t := Comes(s, Disconnect, ALL_RULES);
    t := Go(t, Handle(|s.handlers|, true), ALL_RULES);
    assert t.handlers == s.handlers + [Handler(Disconnect, TakeSlot)];
  }

  // ----- Stopping to Stopped -----

  /** The Disconnect asks the waiting session to stop. */
  lemma AsksToStop(s: World) returns (t: World)
    requires Reachable(s, ALL_RULES) && Stage(s) && s.machine.state == Stopping
    ensures Reachable(t, ALL_RULES) && t.machine == s.machine && t.slot == None
    ensures |t.watchers| == |s.watchers| && s.slot.value < |t.watchers|
    ensures t.watchers[s.slot.value] == WAITING.(pending := true, requests := 1)
    ensures t.handlers == s.handlers[|s.handlers| - 1 := Handler(Disconnect, StopOld(s.slot.value, Await))]
  {
    t := Go(s, Handle(|s.handlers| - 1, true), ALL_RULES);
    t := Go(t, Handle(|s.handlers| - 1, true), ALL_RULES);
    assert t.handlers == s.handlers[|s.handlers| - 1 := Handler(Disconnect, StopOld(s.slot.value, Await))];
  }

  /** The session takes the request, its child dies, and it answers. */
  lemma Answers(s: World, w: nat) returns (t: World)
    requires Reachable(s, ALL_RULES) && w < |s.watchers|
    requires s.watchers[w] == WAITING.(pending := true, requests := 1)
    ensures Reachable(t, ALL_RULES) && t.machine == s.machine && t.slot == s.slot && t.handlers == s.handlers
    ensures w < |t.watchers| && t.watchers[w].answered
  {
    t := Moves(s, w, Advance, ALL_RULES);
    t := Moves(t, w, ChildDies, ALL_RULES);
    t := Moves(t, w, Advance, ALL_RULES);
    t := Moves(t, w, Advance, ALL_RULES);
  }

  lemma Stops(s: World) returns (t: World)
    requires Reachable(s, ALL_RULES) && Stage(s) && s.machine.state == Stopping
    ensures Reachable(t, ALL_RULES) && Stage(t) && t.machine == Apply(s.machine, To(Stopped))
  {
    var h, w := |s.handlers| - 1, s.slot.value;
    t := AsksToStop(s);
    t := Answers(t, w);
    assert t.handlers[h] == Handler(Disconnect, StopOld(w, Await));
    t := Go(t, Handle(h, true), ALL_RULES);
    t := Go(t, Handle(h, true), ALL_RULES);
    assert t.handlers[h] == Handler(Disconnect, Settle);
    t := Go(t, Handle(h, true), ALL_RULES);
    assert t.handlers == s.handlers[h := Handler(Disconnect, Returned)];
  }

  // ----- Words -----

  lemma NextStage(s: World, next: ServiceState) returns (t: World)
    requires Reachable(s, ALL_RULES) && Stage(s) && Legal(s.machine.state, next)
    ensures Reachable(t, ALL_RULES) && Stage(t) && t.machine.state == next
    ensures StateChanges(t.machine.log) == StateChanges(s.machine.log) + [next]
  {
    match next
    case Starting =>
      t := Starts(s);
      AppendSignal(s.machine.log, StateChanged(Starting));
    case Started =>
      t := Announces(s);
      AppendSignal(s.machine.log, Ip4Config);
      AppendSignal(s.machine.log + [Ip4Config], StateChanged(Started));
      assert StateChanges(s.machine.log) + [] == StateChanges(s.machine.log);
    case Stopping =>
      t := Withdraws(s);
      AppendSignal(s.machine.log, StateChanged(Stopping));
    case Stopped =>
      if s.machine.state == Stopping {
        t := Stops(s);
      } else {
        t := ClosesCleanly(s);
      }
      AppendSignal(s.machine.log, StateChanged(Stopped));
  }

  lemma {:induction false} WordIsAnnounced(s: World, w: seq<ServiceState>) returns (t: World)
    requires Reachable(s, ALL_RULES) && Stage(s) && LegalPath(s.machine.state, w)
    ensures Reachable(t, ALL_RULES) && StateChanges(t.machine.log) == StateChanges(s.machine.log) + w
    decreases |w|
  {
    if w == [] {
      t := s;
    } else {
      var u := NextStage(s, w[0]);
      t := WordIsAnnounced(u, w[1..]);
      assert StateChanges(s.machine.log) + [w[0]] + w[1..] == StateChanges(s.machine.log) + w;
    }
  }

  ghost predicate Announceable(w: seq<ServiceState>, rules: set<Rule>) {
    exists s :: Reachable(s, rules) && StateChanges(s.machine.log) == w
  }

  /**
   * Whatever rules about its callers are kept, a word is announced by some run of the service if
   * and only if it is a prefix of (Starting Started? Stopping? Stopped)*.
   */
  lemma AnnouncedExactly(w: seq<ServiceState>, rules: set<Rule>)
    ensures Announceable(w, rules) <==> PrefixOfCycles(w)
  {
    if Announceable(w, rules) {
      var s :| Reachable(s, rules) && StateChanges(s.machine.log) == w;
      var states, actions :| LeadsTo(states, actions, rules, s);
      LogLanguageInEveryRun(states, actions, |actions|);
    }
    if PrefixOfCycles(w) {
      var cs :| w <= Words(cs);
      PrefixIsLegalPath(w, cs);
      StartIsReachable(ALL_RULES);
      var s := WordIsAnnounced(START, w);
      assert [] + w == w;
      NoOtherRules(rules);
      FewerRules(s, ALL_RULES, rules);
    }
  }

  lemma NoOtherRules(rules: set<Rule>)
    ensures rules <= ALL_RULES
  {
    forall r | r in rules
      ensures r in ALL_RULES
    {
      assert r.ConnectsApart? || r.ConnectAfterDisconnect? || r.DisconnectAfterConnect?
        || r.NoStopTimeout? || r.NoShutdown?;
    }
  }
}
