/**
 * Runs in which Connects come one at a time and no stop() times out, while Disconnects, the
 * shutdown path, SetIp4Config, watchers and child exits interleave freely: at most one session
 * is unfinished, so at most one crosswire child is alive.
 */
module OneSession {
  import opened Options
  import opened Lifecycle
  import opened Ownership
  import opened CallRules

  /** The rules that keep children from coexisting. */
  const CHILD_RULES := {ConnectsApart, NoStopTimeout}

  /** The handler has been through the slot and may hold a session, or be about to start one. */
  predicate PastSlot(pc: HandlerPc) {
    pc.StopOld? || Launching(pc)
  }

  predicate Launching(pc: HandlerPc) {
    pc.Arm? || pc.Spawn? || pc.ReportSpawnFailure? || pc.Install?
  }

  predicate Live(s: World, w: nat) {
    w < |s.watchers| && !Settled(s.watchers[w])
  }

  ghost predicate PlaceInv(s: World, h: Handler) {
    && (PastSlot(h.pc) ==> s.slot.None?)
    && (Launching(h.pc) ==> h.kind.Connect?)
    && (h.pc.StopOld? && (h.pc.phase.Reset? || h.pc.phase.Release?) ==> !Live(s, h.pc.session))
  }

  ghost predicate AbandonedAreSettled(s: World) {
    forall w :: 0 <= w < |s.watchers| && !s.watchers[w].senderOpen ==> Settled(s.watchers[w])
  }

  ghost predicate ApartInv(s: World) {
    && (forall h :: 0 <= h < |s.handlers| ==> PlaceInv(s, s.handlers[h]))
    && (forall g, h :: 0 <= g < h < |s.handlers| ==> !(PastSlot(s.handlers[g].pc) && PastSlot(s.handlers[h].pc)))
    && (forall g, h :: 0 <= g < h < |s.handlers| ==>
          !(InProgress(s.handlers[g], Connect) && InProgress(s.handlers[h], Connect)))
    && AbandonedAreSettled(s)
  }

  // ----- Steps -----

  /** No session comes back to life. */
  ghost predicate SettledStay(s: World, t: World) {
    forall w: nat :: w < |s.watchers| && Live(t, w) ==> Live(s, w)
  }

  ghost predicate NobodyPastSlot(s: World) {
    forall h :: 0 <= h < |s.handlers| ==> !PastSlot(s.handlers[h].pc)
  }

  /** What a step of handler `h` must ensure for the others. */
  lemma MoveKeepsApart(s: World, t: World, h: nat)
    requires Inv(s) && ApartInv(s) && h < |s.handlers| == |t.handlers| && OthersUnchanged(s, t, h)
    requires t.handlers[h].kind == s.handlers[h].kind && !s.handlers[h].pc.Returned?
    requires PlaceInv(t, t.handlers[h]) && AbandonedAreSettled(t) && SettledStay(s, t)
    requires t.slot == s.slot || t.slot.None? || PastSlot(s.handlers[h].pc)
    requires PastSlot(t.handlers[h].pc) ==> PastSlot(s.handlers[h].pc) || NobodyPastSlot(s)
    ensures ApartInv(t)
  {
    forall g | 0 <= g < |t.handlers|
      ensures PlaceInv(t, t.handlers[g])
      ensures g != h ==> t.handlers[g] == s.handlers[g]
    {
      if g != h {
        assert t.handlers[g] == s.handlers[g] && PlaceInv(s, s.handlers[g]);
        if Holds(s.handlers[g]).Some? {
          assert OwnerInv(s, s.handlers[g].pc, Holds(s.handlers[g]).value);
        }
      }
    }
  }

  lemma WatchKeepsApart(s: World, w: nat, e: WatcherEvent)
    requires Inv(s) && ApartInv(s) && w < |s.watchers| && CanStep(s.watchers[w], e)
    ensures ApartInv(WatchStep(s, w, e))
  {
    var t := WatchStep(s, w, e);
    WatcherStepKeepsInv(s.watchers[w], e, s.machine.state);
    assert Settled(s.watchers[w]) ==> Settled(t.watchers[w]);
    forall h | 0 <= h < |t.handlers|
      ensures PlaceInv(t, t.handlers[h])
    {
      assert PlaceInv(s, s.handlers[h]);
    }
  }

  lemma TakeSlotKeepsApart(s: World, h: nat)
    requires Inv(s) && ApartInv(s) && h < |s.handlers|
    requires s.handlers[h].pc == HandlerPc.TakeSlot && TakeSlotStep(s, h).Some?
    ensures ApartInv(TakeSlotStep(s, h).value)
  {
    var t := TakeSlotStep(s, h).value;
    if PastSlot(t.handlers[h].pc) {
      forall g | 0 <= g < |s.handlers|
        ensures !PastSlot(s.handlers[g].pc)
      {
        assert PlaceInv(s, s.handlers[g]);
        assert HoldsLock(s.handlers[g]) <==> s.lock == Some(g);
      }
    }
    MoveKeepsApart(s, t, h);
  }

  lemma StopOldKeepsApart(s: World, h: nat, ok: bool)
    requires Inv(s) && ApartInv(s) && h < |s.handlers|
    requires s.handlers[h].pc.StopOld? && HandlerStep(s, h, ok).Some?
    ensures ApartInv(HandlerStep(s, h, ok).value)
  {
    var w := s.handlers[h].pc.session;
    assert PlaceInv(s, s.handlers[h]);
    assert OwnerInv(s, s.handlers[h].pc, w);
    assert WatcherInv(s.watchers[w]);
    MoveKeepsApart(s, HandlerStep(s, h, ok).value, h);
  }

  lemma InstallKeepsApart(s: World, h: nat, ok: bool)
    requires Inv(s) && ApartInv(s) && h < |s.handlers|
    requires s.handlers[h].pc.Install? && HandlerStep(s, h, ok).Some?
    ensures ApartInv(HandlerStep(s, h, ok).value)
  {
    assert PlaceInv(s, s.handlers[h]);
    assert OwnerInv(s, s.handlers[h].pc, s.handlers[h].pc.session);
    MoveKeepsApart(s, HandlerStep(s, h, ok).value, h);
  }

  lemma SpawnKeepsApart(s: World, h: nat)
    requires Inv(s) && ApartInv(s) && h < |s.handlers| && s.handlers[h].pc.Spawn?
    ensures ApartInv(SpawnStep(s, h))
  {
    assert PlaceInv(s, s.handlers[h]);
    MoveKeepsApart(s, SpawnStep(s, h), h);
  }

  lemma PlainKeepsApart(s: World, h: nat, ok: bool)
    requires Inv(s) && ApartInv(s) && h < |s.handlers|
    requires !s.handlers[h].pc.StopOld? && PlainStep(s, h, ok).Some?
    ensures ApartInv(PlainStep(s, h, ok).value)
  {
    assert PlaceInv(s, s.handlers[h]);
    MoveKeepsApart(s, PlainStep(s, h, ok).value, h);
  }

  lemma InvokeKeepsApart(s: World, kind: Kind)
    requires ApartInv(s) && Obeys(ConnectsApart, s, Invoke(kind))
    ensures ApartInv(Step(s, Invoke(kind)).value)
  {
    var t := Step(s, Invoke(kind)).value;
    forall h | 0 <= h < |t.handlers|
      ensures PlaceInv(t, t.handlers[h])
      ensures h < |s.handlers| ==> t.handlers[h] == s.handlers[h]
    {
      if h < |s.handlers| {
        assert PlaceInv(s, s.handlers[h]);
      }
    }
  }

  lemma StepKeepsApart(s: World, a: Action)
    requires Inv(s) && ApartInv(s) && Step(s, a).Some? && ObeysAll(CHILD_RULES, s, a)
    ensures ApartInv(Step(s, a).value)
  {
    assert Obeys(ConnectsApart, s, a) && Obeys(NoStopTimeout, s, a);
    match a
    case Invoke(kind) => InvokeKeepsApart(s, kind);
    case Handle(h, ok) =>
      if s.handlers[h].pc.TakeSlot? {
        TakeSlotKeepsApart(s, h);
      } else if s.handlers[h].pc.StopOld? {
        StopOldKeepsApart(s, h, ok);
      } else if s.handlers[h].pc.Install? {
        InstallKeepsApart(s, h, ok);
      } else if s.handlers[h].pc.Spawn? && ok {
        SpawnKeepsApart(s, h);
      } else {
        PlainKeepsApart(s, h, ok);
      }
    case Watch(w, e) => WatchKeepsApart(s, w, e);
  }

  lemma NextIsApart(s: World, a: Action, t: World, rules: set<Rule>)
    requires Inv(s) && ApartInv(s) && Step(s, a) == Some(t) && ObeysAll(rules, s, a) && CHILD_RULES <= rules
    ensures ApartInv(t)
  {
    assert ObeysAll(CHILD_RULES, s, a);
    StepKeepsApart(s, a);
  }

  lemma {:induction false} ApartAlongRun(states: seq<World>, actions: seq<Action>, rules: set<Rule>, i: nat)
    requires RunUnder(states, actions, rules) && CHILD_RULES <= rules && i < |states|
    ensures ApartInv(states[i])
    decreases i
  {
    if i == 0 {
    } else {
      ApartAlongRun(states, actions, rules, i - 1);
      InvAlongRun(states, actions, i - 1);
      StepOfRun(states, actions, rules, i - 1);
      NextIsApart(states[i - 1], actions[i - 1], states[i], rules);
    }
  }

  // ----- At most one session -----

  /** An unfinished session is in the slot, or in the hands of the one handler past it. */
  lemma Whereabouts(s: World, w: nat)
    requires Inv(s) && ApartInv(s) && Live(s, w)
    ensures s.slot == Some(w) ||
      exists h :: 0 <= h < |s.handlers| && PastSlot(s.handlers[h].pc) && Holds(s.handlers[h]) == Some(w)
  {
    assert Owned(s, w);
  }

  lemma OneLive(s: World, v: nat, w: nat)
    requires Inv(s) && ApartInv(s) && Live(s, v) && Live(s, w)
    ensures v == w
  {
    Whereabouts(s, v);
    Whereabouts(s, w);
    if s.slot == None {
      var g :| 0 <= g < |s.handlers| && PastSlot(s.handlers[g].pc) && Holds(s.handlers[g]) == Some(v);
      var h :| 0 <= h < |s.handlers| && PastSlot(s.handlers[h].pc) && Holds(s.handlers[h]) == Some(w);
      assert g == h;
    } else {
      assert NobodyPastSlot(s) by {
        assert forall h :: 0 <= h < |s.handlers| ==> PlaceInv(s, s.handlers[h]);
      }
    }
  }

  ghost predicate OneChild(s: World) {
    forall v: nat, w: nat ::
      v < |s.watchers| && w < |s.watchers| && s.watchers[v].childAlive && s.watchers[w].childAlive ==> v == w
  }

  /**
   * If Connects do not overlap each other and no stop() times out, at most one session is
   * unfinished and at most one crosswire child is alive at any moment.
   */
  lemma OneChildAtMost(states: seq<World>, actions: seq<Action>, i: nat)
    requires RunUnder(states, actions, CHILD_RULES) && i < |states|
    ensures OneChild(states[i])
    ensures forall v: nat, w: nat :: Live(states[i], v) && Live(states[i], w) ==> v == w
  {
    var s := states[i];
    InvAlongRun(states, actions, i);
    ApartAlongRun(states, actions, CHILD_RULES, i);
    forall v: nat, w: nat | Live(s, v) && Live(s, w)
      ensures v == w
    {
      OneLive(s, v, w);
    }
    forall v: nat | v < |s.watchers| && s.watchers[v].childAlive
      ensures Live(s, v)
    {
      assert WatcherInv(s.watchers[v]);
    }
  }
}
