/**
 * Runs in which a Connect comes alone, no stop() times out and the service is not shut down,
 * while Disconnects overlap each other and watchers, child exits and late SetIp4Config calls
 * interleave freely: the announced state then tracks the supervised session.
 */
module Supervision {
  import opened Options
  import opened ServiceStates
  import opened Lifecycle
  import opened Ownership
  import opened SignalLog
  import opened CallRules
  import opened OneSession

  /** A Connect (or NewSecrets) or Disconnect call in progress. */
  predicate Busy(h: Handler) {
    InProgress(h, Connect) || InProgress(h, Disconnect)
  }

  ghost predicate NoneBusy(s: World) {
    forall h :: 0 <= h < |s.handlers| ==> !Busy(s.handlers[h])
  }

  /** The call has begun to change what the slot or the state says. */
  predicate Underway(h: Handler) {
    PastSlot(h.pc) || (InProgress(h, Disconnect) && !h.pc.Begin?)
  }

  ghost predicate NoneUnderway(s: World) {
    forall h :: 0 <= h < |s.handlers| ==> !Underway(s.handlers[h])
  }

  predicate InSession(state: ServiceState) {
    state.Starting? || state.Started?
  }

  predicate Calm(state: ServiceState) {
    InSession(state) || state.Stopped?
  }

  predicate WindingDown(state: ServiceState) {
    state.Stopping? || state.Stopped?
  }

  /**
   * The state is Starting or Started exactly when the slot holds a session that has not yet made
   * its last report, and Stopped otherwise.
   */
  predicate Tracks(s: World) {
    var live := s.slot.Some? && Live(s, s.slot.value);
    (InSession(s.machine.state) <==> live) && (s.machine.state == Stopped <==> !live)
  }

  /** What holds of the state while Connect stands where it stands. */
  predicate ConnectInv(s: World, pc: HandlerPc) {
    match pc
    case StopOld(_, phase) => if phase.Release? then s.machine.state.Stopped? else Calm(s.machine.state)
    case Arm => s.machine.state.Stopped?
    case Spawn => InSession(s.machine.state)
    case ReportSpawnFailure => InSession(s.machine.state)
    case Install(w, _) => Calm(s.machine.state) && (InSession(s.machine.state) <==> Live(s, w))
    case Settle => false
    case AnnounceStarted => false
    case _ => true
  }

  predicate DisconnectInv(s: World, pc: HandlerPc) {
    match pc
    case Begin => true
    case TakeSlot => WindingDown(s.machine.state)
    case StopOld(_, phase) => WindingDown(s.machine.state) && !phase.Reset?
    case Settle => WindingDown(s.machine.state) && s.slot.None?
    case Returned => true
    case _ => false
  }

  predicate CallInv(s: World, h: Handler) {
    match h.kind
    case Connect => ConnectInv(s, h.pc)
    case Disconnect => DisconnectInv(s, h.pc)
    case SetIp4Config => h.pc.Begin? || h.pc.AnnounceStarted? || h.pc.Returned?
    case Shutdown => false
  }

  /** A Connect in progress is alone. */
  ghost predicate ConnectAlone(s: World) {
    forall g, h | 0 <= g < |s.handlers| && 0 <= h < |s.handlers| ::
      InProgress(s.handlers[g], Connect) && Busy(s.handlers[h]) ==> g == h
  }

  ghost predicate SupInv(s: World) {
    && ConnectAlone(s)
    && (forall h :: 0 <= h < |s.handlers| ==> CallInv(s, s.handlers[h]))
    && (NoneUnderway(s) ==> Tracks(s))
  }

  /** Everything known of a world that such a run comes through. */
  ghost predicate AllInv(s: World) {
    Inv(s) && MachineInv(s.machine) && ApartInv(s) && SupInv(s)
  }

  // ----- Steps of a session -----

  /** What a session's step may do to the state and to itself. */
  ghost predicate SessionStep(s: World, t: World, w: nat) {
    && w < |s.watchers| == |t.watchers|
    && t.slot == s.slot && t.handlers == s.handlers
    && (forall v :: 0 <= v < |s.watchers| && v != w ==> t.watchers[v] == s.watchers[v])
    && (!Live(s, w) ==> !Live(t, w) && t.machine.state == s.machine.state)
    && (t.machine.state == s.machine.state
        || (t.machine.state.Stopped? && (s.machine.state.Stopping? || InSession(s.machine.state))))
    && (Unasked(s.watchers[w]) && Calm(s.machine.state) && Live(s, w) ==>
          if Live(t, w) then t.machine.state == s.machine.state else t.machine.state.Stopped?)
  }

  lemma WatchIsSessionStep(s: World, w: nat, e: WatcherEvent)
    requires w < |s.watchers| && WatcherInv(s.watchers[w]) && CanStep(s.watchers[w], e)
    requires MachineInv(s.machine)
    ensures SessionStep(s, WatchStep(s, w, e), w)
  {
    if e.Advance? && s.watchers[w].pc.Classifying? {
      ClassifiedKeepsInv(s.watchers[w], s.machine.state);
    }
  }

  /** The handler past the slot holds whatever session is unfinished. */
  lemma HolderOfLive(s: World, h: nat, w: nat)
    requires Inv(s) && ApartInv(s) && h < |s.handlers| && PastSlot(s.handlers[h].pc) && Live(s, w)
    ensures Holds(s.handlers[h]) == Some(w) && OwnerInv(s, s.handlers[h].pc, w)
  {
    assert PlaceInv(s, s.handlers[h]);
    Whereabouts(s, w);
  }

  lemma SessionStepKeepsCall(s: World, t: World, w: nat, h: nat)
    requires AllInv(s) && SessionStep(s, t, w) && h < |s.handlers|
    ensures CallInv(t, s.handlers[h])
  {
    assert CallInv(s, s.handlers[h]) && PlaceInv(s, s.handlers[h]);
    if PastSlot(s.handlers[h].pc) && Live(s, w) {
      HolderOfLive(s, h, w);
    }
  }

  lemma WatchKeepsSupInv(s: World, w: nat, e: WatcherEvent)
    requires AllInv(s) && w < |s.watchers| && CanStep(s.watchers[w], e)
    ensures SupInv(WatchStep(s, w, e))
  {
    var t := WatchStep(s, w, e);
    WatchIsSessionStep(s, w, e);
    forall h | 0 <= h < |t.handlers|
      ensures CallInv(t, t.handlers[h])
    {
      SessionStepKeepsCall(s, t, w, h);
    }
    if NoneUnderway(t) && Live(s, w) {
      assert NoneUnderway(s);
      Whereabouts(s, w);
    }
  }

  // ----- Steps of a call -----

  lemma CallInvStays(s: World, t: World, h: Handler)
    requires CallInv(s, h) && !InProgress(h, Connect)
    requires t.slot == s.slot || t.slot.None?
    requires InProgress(h, Disconnect) && !h.pc.Begin? ==> WindingDown(t.machine.state)
    ensures CallInv(t, h)
  {
  }

  /** Connect is alone, so the others' conditions do not speak of the state. */
  lemma ConnectStepKeeps(s: World, t: World, h: nat)
    requires SupInv(s) && h < |s.handlers| == |t.handlers| && InProgress(s.handlers[h], Connect)
    requires OthersUnchanged(s, t, h) && t.handlers[h].kind.Connect? && CallInv(t, t.handlers[h])
    requires !PastSlot(t.handlers[h].pc) ==> Tracks(t)
    ensures SupInv(t)
  {
    forall g | 0 <= g < |t.handlers|
      ensures CallInv(t, t.handlers[g])
      ensures g != h ==> t.handlers[g] == s.handlers[g] && !Busy(t.handlers[g])
    {
      if g != h {
        assert t.handlers[g] == s.handlers[g] && CallInv(s, s.handlers[g]);
      }
    }
  }

  /** Disconnects only overlap each other, and all of them wind the state down. */
  lemma DisconnectStepKeeps(s: World, t: World, h: nat)
    requires SupInv(s) && h < |s.handlers| == |t.handlers| && InProgress(s.handlers[h], Disconnect)
    requires OthersUnchanged(s, t, h) && t.handlers[h].kind.Disconnect? && CallInv(t, t.handlers[h])
    requires (t.slot == s.slot || t.slot.None?) && WindingDown(t.machine.state)
    requires t.handlers[h].pc.Returned? ==> Tracks(t)
    requires !t.handlers[h].pc.Begin?
    ensures SupInv(t)
  {
    forall g | 0 <= g < |t.handlers|
      ensures CallInv(t, t.handlers[g])
      ensures g != h ==> t.handlers[g] == s.handlers[g]
    {
      if g != h {
        assert t.handlers[g] == s.handlers[g] && CallInv(s, s.handlers[g]);
        CallInvStays(s, t, s.handlers[g]);
      }
    }
    assert Underway(t.handlers[h]) || t.handlers[h].pc.Returned?;
  }

  lemma ConnectTakesSlot(s: World, h: nat)
    requires AllInv(s) && h < |s.handlers| && InProgress(s.handlers[h], Connect)
    requires s.handlers[h].pc == HandlerPc.TakeSlot && TakeSlotStep(s, h).Some?
    ensures SupInv(TakeSlotStep(s, h).value)
  {
    assert NoneUnderway(s) by {
      assert forall g :: 0 <= g < |s.handlers| ==> PlaceInv(s, s.handlers[g]);
      assert forall g :: 0 <= g < |s.handlers| ==> (HoldsLock(s.handlers[g]) <==> s.lock == Some(g));
    }
    ConnectStepKeeps(s, TakeSlotStep(s, h).value, h);
  }

  lemma ConnectStops(s: World, h: nat, ok: bool)
    requires AllInv(s) && h < |s.handlers| && InProgress(s.handlers[h], Connect)
    requires s.handlers[h].pc.StopOld? && HandlerStep(s, h, ok).Some?
    ensures SupInv(HandlerStep(s, h, ok).value)
  {
    assert CallInv(s, s.handlers[h]);
    ConnectStepKeeps(s, HandlerStep(s, h, ok).value, h);
  }

  lemma ConnectInstalls(s: World, h: nat, ok: bool)
    requires AllInv(s) && h < |s.handlers| && InProgress(s.handlers[h], Connect)
    requires s.handlers[h].pc.Install? && HandlerStep(s, h, ok).Some?
    ensures SupInv(HandlerStep(s, h, ok).value)
  {
    assert CallInv(s, s.handlers[h]) && PlaceInv(s, s.handlers[h]);
    assert OwnerInv(s, s.handlers[h].pc, s.handlers[h].pc.session);
    ConnectStepKeeps(s, HandlerStep(s, h, ok).value, h);
  }

  lemma ConnectMoves(s: World, h: nat, ok: bool)
    requires AllInv(s) && h < |s.handlers| && InProgress(s.handlers[h], Connect)
    requires s.handlers[h].pc.Begin? || (Launching(s.handlers[h].pc) && !s.handlers[h].pc.Install?)
    requires HandlerStep(s, h, ok).Some?
    ensures SupInv(HandlerStep(s, h, ok).value)
  {
    assert CallInv(s, s.handlers[h]) && PlaceInv(s, s.handlers[h]);
    if s.handlers[h].pc.Begin? {
      assert forall g :: 0 <= g < |s.handlers| ==> PlaceInv(s, s.handlers[g]);
    }
    ConnectStepKeeps(s, HandlerStep(s, h, ok).value, h);
  }

  lemma DisconnectBegins(s: World, h: nat, ok: bool)
    requires AllInv(s) && h < |s.handlers| && InProgress(s.handlers[h], Disconnect)
    requires s.handlers[h].pc.Begin? && HandlerStep(s, h, ok).Some?
    ensures SupInv(HandlerStep(s, h, ok).value)
  {
    if g :| 0 <= g < |s.handlers| && Underway(s.handlers[g]) {
      assert CallInv(s, s.handlers[g]) && PlaceInv(s, s.handlers[g]);
    } else {
      assert NoneUnderway(s);
    }
    DisconnectStepKeeps(s, HandlerStep(s, h, ok).value, h);
  }

  lemma DisconnectGoesOn(s: World, h: nat, ok: bool)
    requires AllInv(s) && h < |s.handlers| && InProgress(s.handlers[h], Disconnect)
    requires !s.handlers[h].pc.Begin? && HandlerStep(s, h, ok).Some?
    ensures SupInv(HandlerStep(s, h, ok).value)
  {
    assert CallInv(s, s.handlers[h]) && PlaceInv(s, s.handlers[h]);
    DisconnectStepKeeps(s, HandlerStep(s, h, ok).value, h);
  }

  /** A late or timely SetIp4Config can only turn Starting into Started. */
  lemma AnnouncementMoves(s: World, h: nat, ok: bool)
    requires h < |s.handlers| && CallInv(s, s.handlers[h]) && !Busy(s.handlers[h]) && HandlerStep(s, h, ok).Some?
    ensures
      var t := HandlerStep(s, h, ok).value;
      && t.slot == s.slot && t.watchers == s.watchers
      && (t.machine.state == s.machine.state || (s.machine.state.Starting? && t.machine.state.Started?))
      && |t.handlers| == |s.handlers| && t.handlers == s.handlers[h := t.handlers[h]]
      && s.handlers[h].kind.SetIp4Config? && t.handlers[h].kind.SetIp4Config?
      && (t.handlers[h].pc.AnnounceStarted? || t.handlers[h].pc.Returned?)
  {
  }

  lemma AnnouncementKeeps(s: World, t: World, h: nat)
    requires SupInv(s) && h < |s.handlers| == |t.handlers|
    requires t.slot == s.slot && t.watchers == s.watchers
    requires t.machine.state == s.machine.state || (s.machine.state.Starting? && t.machine.state.Started?)
    requires t.handlers == s.handlers[h := t.handlers[h]]
    requires s.handlers[h].kind.SetIp4Config? && t.handlers[h].kind.SetIp4Config?
    requires t.handlers[h].pc.AnnounceStarted? || t.handlers[h].pc.Returned?
    ensures SupInv(t)
  {
    assert CallInv(s, s.handlers[h]);
    forall g | 0 <= g < |t.handlers|
      ensures CallInv(t, t.handlers[g])
      ensures g != h ==> t.handlers[g] == s.handlers[g]
      ensures Underway(t.handlers[g]) == Underway(s.handlers[g])
    {
      assert CallInv(s, s.handlers[g]);
    }
  }

  lemma InvokeKeeps(s: World, kind: Kind)
    requires SupInv(s) && ObeysAll(ALL_RULES, s, Invoke(kind))
    ensures SupInv(Step(s, Invoke(kind)).value)
  {
    var t := Step(s, Invoke(kind)).value;
    assert Obeys(ConnectsApart, s, Invoke(kind)) && Obeys(ConnectAfterDisconnect, s, Invoke(kind));
    assert Obeys(DisconnectAfterConnect, s, Invoke(kind)) && Obeys(NoShutdown, s, Invoke(kind));
    forall g | 0 <= g < |t.handlers|
      ensures CallInv(t, t.handlers[g])
      ensures g < |s.handlers| ==> t.handlers[g] == s.handlers[g]
    {
      if g < |s.handlers| {
        assert CallInv(s, s.handlers[g]);
      }
    }
  }

  lemma HandleKeepsSupInv(s: World, h: nat, ok: bool)
    requires AllInv(s) && h < |s.handlers| && HandlerStep(s, h, ok).Some?
    ensures SupInv(HandlerStep(s, h, ok).value)
  {
    assert CallInv(s, s.handlers[h]);
    if !Busy(s.handlers[h]) {
      AnnouncementMoves(s, h, ok);
      AnnouncementKeeps(s, HandlerStep(s, h, ok).value, h);
    } else if s.handlers[h].kind.Disconnect? {
      if s.handlers[h].pc.Begin? {
        DisconnectBegins(s, h, ok);
      } else {
        DisconnectGoesOn(s, h, ok);
      }
    } else if s.handlers[h].pc.TakeSlot? {
      ConnectTakesSlot(s, h);
    } else if s.handlers[h].pc.StopOld? {
      ConnectStops(s, h, ok);
    } else if s.handlers[h].pc.Install? {
      ConnectInstalls(s, h, ok);
    } else {
      ConnectMoves(s, h, ok);
    }
  }

  lemma StepKeepsSupInv(s: World, a: Action)
    requires AllInv(s) && ObeysAll(ALL_RULES, s, a) && Step(s, a).Some?
    ensures SupInv(Step(s, a).value)
  {
    assert Obeys(NoStopTimeout, s, a);
    match a
    case Invoke(kind) => InvokeKeeps(s, kind);
    case Handle(h, ok) => HandleKeepsSupInv(s, h, ok);
    case Watch(w, e) => WatchKeepsSupInv(s, w, e);
  }

  // ----- Runs -----

  lemma NextIsSupervised(s: World, a: Action, t: World)
    requires AllInv(s) && Step(s, a) == Some(t) && ObeysAll(ALL_RULES, s, a)
    ensures AllInv(t)
  {
    StepKeepsInv(s, a);
    StepKeepsMachine(s, a);
    NextIsApart(s, a, t, ALL_RULES);
    StepKeepsSupInv(s, a);
  }

  lemma {:induction false} SupInvAlongRun(states: seq<World>, actions: seq<Action>, i: nat)
    requires RunUnder(states, actions, ALL_RULES) && i < |states|
    ensures AllInv(states[i])
    decreases i
  {
    if i == 0 {
    } else {
      SupInvAlongRun(states, actions, i - 1);
      StepOfRun(states, actions, ALL_RULES, i - 1);
      NextIsSupervised(states[i - 1], actions[i - 1], states[i]);
    }
  }

  /**
   * Whenever no lifecycle call is in progress, the state is Starting or Started exactly when the
   * slot holds a session that has not yet made its last report, and Stopped otherwise.
   */
  lemma StateTracksSession(states: seq<World>, actions: seq<Action>, i: nat)
    requires RunUnder(states, actions, ALL_RULES) && i < |states| && NoneBusy(states[i])
    ensures Tracks(states[i])
  {
    SupInvAlongRun(states, actions, i);
    var s := states[i];
    forall h | 0 <= h < |s.handlers|
      ensures !Underway(s.handlers[h])
    {
      assert CallInv(s, s.handlers[h]) && !Busy(s.handlers[h]);
    }
  }

  /** Connect's request for Starting is never dropped: it is always announced. */
  lemma StartingIsAnnounced(states: seq<World>, actions: seq<Action>, i: nat, h: nat, ok: bool)
    requires RunUnder(states, actions, ALL_RULES) && i < |actions| && h < |states[i].handlers|
    requires states[i].handlers[h].kind.Connect? && states[i].handlers[h].pc.Arm?
    requires actions[i] == Handle(h, ok)
    ensures states[i + 1].machine.state == Starting
    ensures states[i + 1].machine.log == states[i].machine.log + [StateChanged(Starting)]
  {
    SupInvAlongRun(states, actions, i);
    assert CallInv(states[i], states[i].handlers[h]);
    assert Step(states[i], actions[i]) == Some(states[i + 1]);
  }

  ghost predicate NoChildAlive(s: World) {
    forall w :: 0 <= w < |s.watchers| ==> !s.watchers[w].childAlive
  }

  /**
   * When a Disconnect returns, the state is Stopped and the slot is empty; and no child runs,
   * unless another Disconnect holds the lock because it is still stopping the session.
   */
  lemma DisconnectLeavesNothing(states: seq<World>, actions: seq<Action>, i: nat, h: nat, ok: bool)
    requires RunUnder(states, actions, ALL_RULES) && i < |actions| && h < |states[i].handlers|
    requires actions[i] == Handle(h, ok)
    requires states[i].handlers[h].kind.Disconnect? && states[i + 1].handlers[h].pc.Returned?
    ensures states[i + 1].machine.state == Stopped && states[i + 1].slot == None
    ensures states[i + 1].lock == None ==> NoChildAlive(states[i + 1])
    ensures NoneBusy(states[i + 1]) ==> states[i + 1].lock == None
  {
    SupInvAlongRun(states, actions, i);
    assert Step(states[i], actions[i]) == Some(states[i + 1]);
    SettleLeavesNothing(states[i], h, ok);
  }

  lemma SettleLeavesNothing(s: World, h: nat, ok: bool)
    requires AllInv(s) && h < |s.handlers| && s.handlers[h].kind.Disconnect? && HandlerStep(s, h, ok).Some?
    requires HandlerStep(s, h, ok).value.handlers[h].pc.Returned?
    ensures
      var t := HandlerStep(s, h, ok).value;
      && t.machine.state == Stopped && t.slot == None
      && (t.lock == None ==> NoChildAlive(t))
      && (NoneBusy(t) ==> t.lock == None)
  {
    var t := HandlerStep(s, h, ok).value;
    assert CallInv(s, s.handlers[h]);
    assert s.handlers[h].pc.Settle?;
    NoChildAtSettle(s, h);
    if s.lock.Some? {
      var g := s.lock.value;
      assert HoldsLock(s.handlers[g]) && CallInv(s, s.handlers[g]);
      assert t.handlers[g] == s.handlers[g];
    }
  }

  lemma NoChildAtSettle(s: World, h: nat)
    requires AllInv(s) && h < |s.handlers| && InProgress(s.handlers[h], Disconnect) && s.handlers[h].pc.Settle?
    ensures s.lock == None ==> NoChildAlive(s)
  {
    assert CallInv(s, s.handlers[h]);
    if s.lock == None {
      forall w | 0 <= w < |s.watchers|
        ensures !s.watchers[w].childAlive
      {
        assert WatcherInv(s.watchers[w]);
        if Live(s, w) {
          Whereabouts(s, w);
          var g :| 0 <= g < |s.handlers| && PastSlot(s.handlers[g].pc) && Holds(s.handlers[g]) == Some(w);
          assert PlaceInv(s, s.handlers[g]);
          assert HoldsLock(s.handlers[g]) <==> s.lock == Some(g);
          assert InProgress(s.handlers[g], Connect);
        }
      }
    }
  }
}
