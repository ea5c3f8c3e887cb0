/**
 * What holds in every run of the lifecycle, whatever calls overlap and even if stop()
 * times out: what each session's watcher keeps at its every point, and who owns the session.
 */
module Ownership {
  import opened Options
  import opened ServiceStates
  import opened Lifecycle

  // ----- One watcher -----

  /** No child can be running at these points. */
  predicate ChildGone(pc: WatcherPc) {
    !(pc.Unstarted? || pc.Selecting? || pc.PolledStop? || pc.Feeding? || pc.TearingDown?)
  }

  /** The points after a stop request has been taken. */
  predicate Stopping(pc: WatcherPc) {
    pc == TearingDown(true) || pc == Answering(true)
  }

  predicate StopInv(w: Watcher) {
    && (w.pc.Unstarted? ==> w.requests == 0)
    && w.requests <= 1
    && (w.pending ==> w.requests == 1 && !w.taken && !w.pc.Finished?)
    && (w.taken ==> w.requests == 1 && (Stopping(w.pc) || Settled(w)))
    && (Stopping(w.pc) ==> w.taken)
    && (w.pc == TearingDown(false) || w.pc == Answering(false) ==> !w.senderOpen)
    && (w.answered <==> w.taken && Settled(w))
  }

  predicate ChildInv(w: Watcher) {
    && (ChildGone(w.pc) ==> !w.childAlive)
    && w.retries <= MAX_RETRIES
    && w.spawns <= w.retries + 1
    && (w.pc.Backoff? || w.pc.PolledBackoff? || w.pc.Respawning? ==> w.spawns <= w.retries)
    && w.prompts <= 1
    && (w.prompts == 1 ==> w.pc.Failing? || Settled(w))
  }

  predicate WatcherInv(w: Watcher) {
    StopInv(w) && ChildInv(w)
  }

  /** A watcher's own step never touches these. */
  predicate SameChannel(v: Watcher, w: Watcher) {
    v.senderOpen == w.senderOpen && v.requests == w.requests && (v.pc.Unstarted? <==> w.pc.Unstarted?)
  }

  lemma ClassifiedKeepsInv(w: Watcher, current: ServiceState)
    requires WatcherInv(w) && w.pc.Classifying?
    ensures WatcherInv(Classified(w, current)) && SameChannel(Classified(w, current), w)
  {
  }

  lemma AdvancedKeepsStopInv(w: Watcher, current: ServiceState)
    requires StopInv(w) && CanStep(w, Advance) && !w.pc.Classifying?
    ensures StopInv(Advanced(w, current))
  {
  }

  lemma AdvancedKeepsChildInv(w: Watcher, current: ServiceState)
    requires ChildInv(w) && CanStep(w, Advance) && !w.pc.Classifying?
    ensures ChildInv(Advanced(w, current)) && SameChannel(Advanced(w, current), w)
  {
  }

  lemma EventKeepsInv(w: Watcher, e: WatcherEvent, current: ServiceState)
    requires WatcherInv(w) && CanStep(w, e) && !e.Advance?
    ensures WatcherInv(WatcherStep(w, e, current)) && SameChannel(WatcherStep(w, e, current), w)
  {
  }

  lemma WatcherStepKeepsInv(w: Watcher, e: WatcherEvent, current: ServiceState)
    requires WatcherInv(w) && CanStep(w, e)
    ensures WatcherInv(WatcherStep(w, e, current)) && SameChannel(WatcherStep(w, e, current), w)
  {
    if !e.Advance? {
      EventKeepsInv(w, e, current);
    } else if w.pc.Classifying? {
      ClassifiedKeepsInv(w, current);
    } else {
      AdvancedKeepsStopInv(w, current);
      AdvancedKeepsChildInv(w, current);
    }
  }

  // ----- The whole system -----

  /** A session that nobody has been asked to stop. */
  predicate Unasked(w: Watcher) {
    w.senderOpen && w.requests == 0
  }

  predicate SlotInv(s: World) {
    s.slot.Some? ==>
      && s.slot.value < |s.watchers|
      && Unasked(s.watchers[s.slot.value])
      && !s.watchers[s.slot.value].pc.Unstarted?
  }

  predicate LockInv(s: World) {
    && (s.lock.Some? ==> s.lock.value < |s.handlers|)
    && forall h :: 0 <= h < |s.handlers| ==> (HoldsLock(s.handlers[h]) <==> s.lock == Some(h))
  }

  /** The handler with program counter `pc` owns session `w`. */
  predicate OwnerInv(s: World, pc: HandlerPc, w: nat) {
    && w < |s.watchers|
    && s.slot != Some(w)
    && s.watchers[w].senderOpen
    && (pc.Install? || (pc.StopOld? && pc.phase.Send?) ==> Unasked(s.watchers[w]))
    && (pc.Install? && !pc.watched <==> s.watchers[w].pc.Unstarted?)
  }

  ghost predicate UniqueOwners(s: World) {
    forall g, h :: 0 <= g < h < |s.handlers| && Holds(s.handlers[g]).Some? ==>
      Holds(s.handlers[g]) != Holds(s.handlers[h])
  }

  ghost predicate OwnersInv(s: World) {
    && (forall h :: 0 <= h < |s.handlers| && Holds(s.handlers[h]).Some? ==>
          OwnerInv(s, s.handlers[h].pc, Holds(s.handlers[h]).value))
    && UniqueOwners(s)
  }

  ghost predicate Owned(s: World, w: nat) {
    s.slot == Some(w) || exists h :: 0 <= h < |s.handlers| && Holds(s.handlers[h]) == Some(w)
  }

  ghost predicate Inv(s: World) {
    && (forall w :: 0 <= w < |s.watchers| ==> WatcherInv(s.watchers[w]))
    && SlotInv(s)
    && LockInv(s)
    && OwnersInv(s)
    && (forall w :: 0 <= w < |s.watchers| && s.watchers[w].senderOpen ==> Owned(s, w))
  }

  /** A change to one watcher that ownership does not depend on. */
  lemma WatcherChangeKeepsInv(s: World, t: World, w: nat)
    requires Inv(s) && w < |s.watchers| == |t.watchers|
    requires t.handlers == s.handlers && t.slot == s.slot && t.lock == s.lock
    requires forall v :: 0 <= v < |s.watchers| && v != w ==> t.watchers[v] == s.watchers[v]
    requires WatcherInv(t.watchers[w]) && SameChannel(t.watchers[w], s.watchers[w])
    ensures Inv(t)
  {
    forall v | 0 <= v < |t.watchers| && t.watchers[v].senderOpen
      ensures Owned(t, v)
    {
      assert Owned(s, v);
    }
  }

  lemma WatchKeepsInv(s: World, w: nat, e: WatcherEvent)
    requires Inv(s) && Step(s, Watch(w, e)).Some?
    ensures Inv(Step(s, Watch(w, e)).value)
  {
    WatcherStepKeepsInv(s.watchers[w], e, s.machine.state);
    WatcherChangeKeepsInv(s, Step(s, Watch(w, e)).value, w);
  }

  /** Every handler but `h` is where it was. */
  predicate OthersUnchanged(s: World, t: World, h: nat) {
    && |s.handlers| <= |t.handlers|
    && forall g :: 0 <= g < |s.handlers| && g != h ==> t.handlers[g] == s.handlers[g]
  }

  ghost predicate HeldBySome(s: World, w: nat) {
    exists h :: 0 <= h < |s.handlers| && Holds(s.handlers[h]) == Some(w)
  }

  predicate HeldBy(s: World, h: nat, w: nat) {
    h < |s.handlers| && Holds(s.handlers[h]) == Some(w)
  }

  /** Whatever the others own they still own, and `h` shares with none of them. */
  lemma OthersKeepTheirs(s: World, t: World, h: nat)
    requires OthersUnchanged(s, t, h) && h < |t.handlers| <= |s.handlers| + 1 && UniqueOwners(s)
    requires |t.handlers| > |s.handlers| ==> h == |s.handlers|
    requires
      var held := Holds(t.handlers[h]);
      held.Some? ==> HeldBy(s, h, held.value) || !HeldBySome(s, held.value)
    ensures UniqueOwners(t)
    ensures forall w: nat :: Owned(s, w) && s.slot != Some(w) && !HeldBy(s, h, w) ==> Owned(t, w)
  {
    forall f, g | 0 <= f < g < |t.handlers| && Holds(t.handlers[f]).Some?
      ensures Holds(t.handlers[f]) != Holds(t.handlers[g])
    {
      assert f != h ==> t.handlers[f] == s.handlers[f];
      assert g != h ==> t.handlers[g] == s.handlers[g];
    }
    forall w: nat | Owned(s, w) && s.slot != Some(w) && !HeldBy(s, h, w)
      ensures Owned(t, w)
    {
      var g :| 0 <= g < |s.handlers| && Holds(s.handlers[g]) == Some(w);
      assert t.handlers[g] == s.handlers[g];
    }
  }

  lemma InvokeKeepsInv(s: World, kind: Kind)
    requires Inv(s)
    ensures Inv(Step(s, Invoke(kind)).value)
  {
    OthersKeepTheirs(s, Step(s, Invoke(kind)).value, |s.handlers|);
  }

  /** A step that neither takes, creates, stores nor drops a handle, and touches no watcher. */
  lemma SameHandlesKeepsInv(s: World, t: World, h: nat)
    requires Inv(s) && h < |s.handlers| == |t.handlers| && OthersUnchanged(s, t, h)
    requires Holds(t.handlers[h]) == Holds(s.handlers[h])
    requires HoldsLock(t.handlers[h]) == HoldsLock(s.handlers[h])
    requires t.slot == s.slot && t.lock == s.lock && t.watchers == s.watchers
    requires Holds(s.handlers[h]).Some? ==> OwnerInv(s, t.handlers[h].pc, Holds(s.handlers[h]).value)
    ensures Inv(t)
  {
    OthersKeepTheirs(s, t, h);
    forall g | 0 <= g < |t.handlers| && Holds(t.handlers[g]).Some?
      ensures OwnerInv(t, t.handlers[g].pc, Holds(t.handlers[g]).value)
    {
      assert g != h ==> t.handlers[g] == s.handlers[g];
    }
  }

  lemma PlainStepKeepsInv(s: World, h: nat, ok: bool)
    requires Inv(s) && h < |s.handlers| && PlainStep(s, h, ok).Some?
    ensures Inv(PlainStep(s, h, ok).value)
  {
    SameHandlesKeepsInv(s, PlainStep(s, h, ok).value, h);
  }

  lemma TakeSlotKeepsInv(s: World, h: nat)
    requires Inv(s) && h < |s.handlers| && s.handlers[h].pc == HandlerPc.TakeSlot && TakeSlotStep(s, h).Some?
    ensures Inv(TakeSlotStep(s, h).value)
  {
    var t := TakeSlotStep(s, h).value;
    if s.slot.None? {
      SameHandlesKeepsInv(s, t, h);
    } else {
      OthersKeepTheirs(s, t, h);
      assert Holds(t.handlers[h]) == s.slot;
    }
  }

  lemma SendStopKeepsInv(s: World, h: nat, w: nat)
    requires Inv(s) && h < |s.handlers| && s.handlers[h].pc == StopOld(w, Send) && SendStopStep(s, h, w).Some?
    ensures Inv(SendStopStep(s, h, w).value)
  {
    var t := SendStopStep(s, h, w).value;
    if s.watchers[w].pc.Finished? {
      SameHandlesKeepsInv(s, t, h);
    } else {
      OthersKeepTheirs(s, t, h);
      assert Holds(t.handlers[h]) == Some(w);
    }
  }

  lemma ReleaseOldKeepsInv(s: World, h: nat, w: nat)
    requires Inv(s) && h < |s.handlers| && s.handlers[h].pc == StopOld(w, Release)
    ensures Inv(ReleaseOldStep(s, h, w))
  {
    OthersKeepTheirs(s, ReleaseOldStep(s, h, w), h);
  }

  lemma SpawnKeepsInv(s: World, h: nat)
    requires Inv(s) && h < |s.handlers| && s.handlers[h].pc == HandlerPc.Spawn
    ensures Inv(SpawnStep(s, h))
  {
    var t := SpawnStep(s, h);
    OthersKeepTheirs(s, t, h);
    assert Holds(t.handlers[h]) == Some(|s.watchers|);
    forall g | 0 <= g < |t.handlers| && Holds(t.handlers[g]).Some?
      ensures OwnerInv(t, t.handlers[g].pc, Holds(t.handlers[g]).value)
    {
      assert g != h ==> t.handlers[g] == s.handlers[g];
    }
  }

  lemma FeedNewKeepsInv(s: World, h: nat, w: nat)
    requires Inv(s) && h < |s.handlers| && s.handlers[h].pc == Install(w, false) && FeedNewStep(s, h, w).Some?
    ensures Inv(FeedNewStep(s, h, w).value)
  {
    var t := FeedNewStep(s, h, w).value;
    OthersKeepTheirs(s, t, h);
    assert Holds(t.handlers[h]) == Some(w);
    forall g | 0 <= g < |t.handlers| && Holds(t.handlers[g]).Some?
      ensures OwnerInv(t, t.handlers[g].pc, Holds(t.handlers[g]).value)
    {
      assert g != h ==> t.handlers[g] == s.handlers[g];
    }
  }

  lemma StoreNewKeepsInv(s: World, h: nat, w: nat)
    requires Inv(s) && h < |s.handlers| && s.handlers[h].pc == Install(w, true) && StoreNewStep(s, h, w).Some?
    ensures Inv(StoreNewStep(s, h, w).value)
  {
    var t := StoreNewStep(s, h, w).value;
    OthersKeepTheirs(s, t, h);
    forall g | 0 <= g < |t.handlers| && Holds(t.handlers[g]).Some?
      ensures OwnerInv(t, t.handlers[g].pc, Holds(t.handlers[g]).value)
    {
      assert g != h ==> t.handlers[g] == s.handlers[g];
    }
  }

  lemma HandleKeepsInv(s: World, h: nat, ok: bool)
    requires Inv(s) && h < |s.handlers| && HandlerStep(s, h, ok).Some?
    ensures Inv(HandlerStep(s, h, ok).value)
  {
    match s.handlers[h].pc
    case TakeSlot => TakeSlotKeepsInv(s, h);
    case StopOld(w, Send) => SendStopKeepsInv(s, h, w);
    case StopOld(w, Await) => SameHandlesKeepsInv(s, AwaitAnswerStep(s, h, w).value, h);
    case StopOld(w, Release) => ReleaseOldKeepsInv(s, h, w);
    case Install(w, false) => FeedNewKeepsInv(s, h, w);
    case Install(w, true) => StoreNewKeepsInv(s, h, w);
    case Spawn => if ok { SpawnKeepsInv(s, h); } else { PlainStepKeepsInv(s, h, ok); }
    case _ => PlainStepKeepsInv(s, h, ok);
  }

  lemma StepKeepsInv(s: World, a: Action)
    requires Inv(s) && Step(s, a).Some?
    ensures Inv(Step(s, a).value)
  {
    match a
    case Invoke(kind) => InvokeKeepsInv(s, kind);
    case Handle(h, ok) => HandleKeepsInv(s, h, ok);
    case StopTimesOut(h) => SameHandlesKeepsInv(s, Step(s, a).value, h);
    case Watch(w, e) => WatchKeepsInv(s, w, e);
  }

  lemma {:induction false} InvAlongRun(states: seq<World>, actions: seq<Action>, i: nat)
    requires IsRun(states, actions) && i < |states|
    ensures Inv(states[i])
  {
    if i == 0 {
    } else {
      InvAlongRun(states, actions, i - 1);
      assert Step(states[i - 1], actions[i - 1]) == Some(states[i]);
      StepKeepsInv(states[i - 1], actions[i - 1]);
    }
  }

  /**
   * In every run, a session's stop channel is open exactly while its handle is in the slot or
   * in the hands of a handler, never in two places, and it carries at most one request ever.
   */
  lemma ExactlyOneOwner(states: seq<World>, actions: seq<Action>, i: nat, w: nat)
    requires IsRun(states, actions) && i < |states| && w < |states[i].watchers|
    ensures
      var s := states[i];
      && (s.watchers[w].senderOpen <==> Owned(s, w))
      && (s.slot == Some(w) ==> !HeldBySome(s, w))
      && (forall g, h :: HeldBy(s, g, w) && HeldBy(s, h, w) ==> g == h)
      && s.watchers[w].requests <= 1
  {
    InvAlongRun(states, actions, i);
  }

  /** The slot's lock is held exactly by the handler that is stopping an old session. */
  lemma LockHeldWhileStopping(states: seq<World>, actions: seq<Action>, i: nat, g: nat, h: nat)
    requires IsRun(states, actions) && i < |states| && g < |states[i].handlers| && h < |states[i].handlers|
    requires states[i].handlers[g].pc.StopOld? && states[i].handlers[h].pc.StopOld?
    ensures g == h && states[i].lock == Some(g)
  {
    InvAlongRun(states, actions, i);
  }
}
