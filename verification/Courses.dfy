/**
 * What moves a session or a handler from one place to another, and what keeps it waiting: the
 * causes of each launch, exit, teardown and answer, and the only things a handler waits for.
 */
module Courses {
  import opened Options
  import opened ServiceStates
  import opened CertTrust
  import opened Lifecycle
  import opened Ownership
  import opened Sessions

  // ----- Sessions -----

  /** Moving on by itself, a session neither launches nor loses a child. */
  lemma AdvancesInPlace(v: Watcher, current: ServiceState)
    requires CanStep(v, Advance)
    ensures
      var u := Advanced(v, current);
      u.spawns == v.spawns && u.childAlive == v.childAlive && u.senderOpen == v.senderOpen
  {
    if v.pc.Classifying? {
      ClassifiedExactly(v, current);
    }
  }

  /** Where only an event of the environment takes a session. */
  lemma AdvancesElsewhere(v: Watcher, current: ServiceState)
    requires CanStep(v, Advance)
    ensures
      var pc := Advanced(v, current).pc;
      !pc.Respawning? && !pc.CleanExit? && !pc.Draining? && !pc.Classifying?
  {
    if v.pc.Classifying? {
      ClassifiedExactly(v, current);
    }
  }

  /** A child lives until it dies; one is launched only where the retry delay is over. */
  lemma LaunchesExactly(v: Watcher, e: WatcherEvent, current: ServiceState)
    requires CanStep(v, e)
    ensures
      var u := WatcherStep(v, e, current);
      && u.spawns == v.spawns + (if e == Spawned(true) then 1 else 0)
      && (u.childAlive <==> e == Spawned(true) || (v.childAlive && e != ChildDies))
      && (u.pc.Respawning? <==> (v.pc.Respawning? && e == ChildDies) || e == DelayOver)
      && (e == DelayOver ==> v.pc.PolledBackoff?)
      && (e.Spawned? ==> v.pc.Respawning? && u.pc == if e.ok then Feeding else Failing)
  {
    if e.Advance? {
      AdvancesInPlace(v, current);
      AdvancesElsewhere(v, current);
    }
  }

  /** An exit is clean or drained by its status, and what the drain found is classified. */
  lemma ExitsExactly(v: Watcher, e: WatcherEvent, current: ServiceState)
    requires CanStep(v, e) && e != ChildDies
    ensures
      var u := WatcherStep(v, e, current);
      && (u.pc.CleanExit? <==> e == SeeExit(true))
      && (u.pc.Draining? <==> e == SeeExit(false))
      && (e.SeeExit? ==> v.pc.PolledStop? && !v.childAlive)
      && (u.pc.Classifying? <==> e.Drained?)
      && (e.Drained? ==> v.pc.Draining? && u.pc == Classifying(e.certChange, e.fast))
  {
    if e.Advance? {
      AdvancesElsewhere(v, current);
    }
  }

  /** The session looks at its channel and there is a request, or nobody left to send one. */
  predicate SeesStop(v: Watcher) {
    (v.pc.Selecting? || v.pc.Backoff?) && (v.pending || !v.senderOpen)
  }

  /** A session that sees a stop tears its child down, or has none to tear down. */
  lemma StopsAtOnce(v: Watcher, current: ServiceState)
    requires SeesStop(v)
    ensures
      var u := WatcherStep(v, Advance, current);
      && u.pc == (if v.pc.Selecting? then TearingDown(v.pending) else Answering(v.pending))
      && u.taken == (v.taken || v.pending) && !u.pending && u.answered == v.answered
  {
  }

  /** It tears down and answers for no other reason, and only once its child is dead. */
  lemma StopsOnlyThen(v: Watcher, current: ServiceState)
    requires CanStep(v, Advance) && !SeesStop(v)
    ensures
      var u := WatcherStep(v, Advance, current);
      && !u.pc.TearingDown? && (u.pc.Answering? <==> v.pc.TearingDown?)
      && (v.pc.TearingDown? ==> !v.childAlive && u.pc == Answering(v.pc.answer))
      && u.taken == v.taken && (u.answered <==> v.answered || v.pc == Answering(true))
  {
    if v.pc.Classifying? {
      ClassifiedExactly(v, current);
    }
  }

  /** While there is nothing to see, a session goes on waiting where it waits. */
  lemma WaitsOtherwise(v: Watcher, current: ServiceState)
    requires CanStep(v, Advance) && !v.pending && v.senderOpen
    ensures
      var u := WatcherStep(v, Advance, current);
      && (v.pc in {Selecting, PolledStop, Feeding} ==> u == v.(pc := if v.pc == Selecting then PolledStop else Selecting))
      && (v.pc in {Backoff, PolledBackoff} ==> u == v.(pc := if v.pc == Backoff then PolledBackoff else Backoff))
  {
  }

  /** How a session gets to its end. */
  lemma EndsInOrder(v: Watcher, current: ServiceState)
    requires CanStep(v, Advance)
    ensures
      var u := WatcherStep(v, Advance, current);
      && (u.pc.Leaving? <==> v.pc.CleanExit? || v.pc.Failing? || v.pc.Answering?)
      && (u.pc.Finished? <==> v.pc.Leaving?)
  {
    if v.pc.Classifying? {
      ClassifiedExactly(v, current);
    }
  }

  lemma PromptsInOrder(v: Watcher, current: ServiceState)
    requires CanStep(v, Advance)
    ensures
      var u := WatcherStep(v, Advance, current);
      && (v.pc.Prompting? ==> u.pc.Failing?)
      && u.prompts == v.prompts + if v.pc.Prompting? then 1 else 0
  {
    if v.pc.Classifying? {
      ClassifiedExactly(v, current);
    }
  }

  /** In every run, a session answers exactly the request it took, when it is done. */
  lemma RequestsAreAnswered(states: seq<World>, actions: seq<Action>, i: nat, w: nat)
    requires IsRun(states, actions) && i < |states| && w < |states[i].watchers|
    ensures
      var v := states[i].watchers[w];
      v.answered <==> v.taken && (v.pc.Leaving? || v.pc.Finished?)
  {
    InvAlongRun(states, actions, i);
    assert WatcherInv(states[i].watchers[w]);
  }

  // ----- Handlers -----

  /** The places to which a handler can go next. */
  predicate Follows(s: World, h: Handler, ok: bool, next: HandlerPc) {
    match h.pc
    case Begin =>
      (match h.kind
       case Connect => next == if ok then TakeSlot else Returned
       case SetIp4Config => next == AnnounceStarted
       case _ => next == TakeSlot)
    case TakeSlot =>
      if s.slot.Some? then next == StopOld(s.slot.value, Send)
      else next == AfterLock(h.kind)
    case StopOld(w, Send) => next in {StopOld(w, Await), AfterAnswer(h.kind, w)}
    case StopOld(w, Await) => next == AfterAnswer(h.kind, w)
    case StopOld(w, Reset) => next == StopOld(w, Release)
    case StopOld(w, Release) => next == AfterLock(h.kind)
    case Arm => next == Spawn
    case Spawn => next == if ok then Install(|s.watchers|, false) else ReportSpawnFailure
    case Install(w, watched) => next == if watched then Returned else Install(w, true)
    case _ => next == Returned
  }

  /** Connect goes on to launch, Disconnect to its final Stopped, and the shutdown path is done. */
  function AfterLock(kind: Kind): HandlerPc {
    if kind == Connect then Arm else if kind == Disconnect then Settle else Returned
  }

  /** Only Connect resets the state once the old session is stopped. */
  function AfterAnswer(kind: Kind, w: nat): HandlerPc {
    StopOld(w, if kind == Connect then Reset else Release)
  }

  lemma HandlerFollows(s: World, h: nat, ok: bool)
    requires h < |s.handlers| && HandlerStep(s, h, ok).Some?
    ensures
      var t := HandlerStep(s, h, ok).value;
      && |t.handlers| == |s.handlers| && t.handlers[h].kind == s.handlers[h].kind
      && Follows(s, s.handlers[h], ok, t.handlers[h].pc)
  {
  }

  /**
   * A handler waits only for the slot's lock, or for the answer of the session it is stopping,
   * and that wait ends with the session.
   */
  lemma HandlerWaitsExactly(s: World, h: nat, ok: bool)
    requires Inv(s) && h < |s.handlers| && !s.handlers[h].pc.Returned?
    ensures
      var pc := s.handlers[h].pc;
      HandlerStep(s, h, ok).None? <==>
        || ((pc.TakeSlot? || (pc.Install? && pc.watched)) && s.lock.Some?)
        || (pc.StopOld? && pc.phase.Await?
            && !s.watchers[pc.session].answered && !s.watchers[pc.session].pc.Finished?)
  {
    var pc := s.handlers[h].pc;
    if Holds(s.handlers[h]).Some? {
      assert OwnerInv(s, pc, pc.session);
      assert WatcherInv(s.watchers[pc.session]);
    }
  }

  /** Whatever the step, the slot changes only while nobody else holds its lock. */
  lemma SlotChangesUnderLock(s: World, a: Action)
    requires Step(s, a).Some? && Step(s, a).value.slot != s.slot
    ensures s.lock.None? && a.Handle?
  {
  }

  /** A request is queued, or the session is found over and nothing is sent. */
  lemma SendsExactly(s: World, h: nat, ok: bool)
    requires Inv(s) && h < |s.handlers| && s.handlers[h].pc.StopOld? && s.handlers[h].pc.phase.Send?
    ensures HandlerStep(s, h, ok).Some?
    ensures
      var w, t := s.handlers[h].pc.session, HandlerStep(s, h, ok).value;
      && w < |s.watchers|
      && (if s.watchers[w].pc.Finished? then t.watchers == s.watchers && !t.handlers[h].pc.phase.Await?
          else t.watchers == s.watchers[w := s.watchers[w].(pending := true, requests := 1)]
               && t.handlers[h].pc.phase.Await?)
  {
    var w := s.handlers[h].pc.session;
    assert OwnerInv(s, s.handlers[h].pc, w);
    assert WatcherInv(s.watchers[w]);
  }
}
