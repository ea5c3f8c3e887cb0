/**
 * What becomes of one session over a whole run, under unrestricted concurrency: a returned
 * stop() leaves it quiet, it reports at most once and last, a session that is asked to stop or that
 * nobody owns is soon over, and relaunches and prompts are bounded.
 */
module Sessions {
  import opened Options
  import opened ServiceStates
  import opened Lifecycle
  import opened Ownership

  /** The ways a session can change in one step of the system. */
  ghost predicate Evolves(v: Watcher, u: Watcher) {
    || u == v
    || u == v.(senderOpen := false)
    || (v.pc.Unstarted? && u == v.(pc := Selecting))
    || (!v.pc.Finished? && !v.pending && u == v.(pending := true, requests := v.requests + 1))
    || exists e, current :: Moves(v, u, e, current)
  }

  predicate Moves(v: Watcher, u: Watcher, e: WatcherEvent, current: ServiceState) {
    CanStep(v, e) && u == WatcherStep(v, e, current)
  }

  lemma StepEvolves(s: World, a: Action, w: nat)
    requires Inv(s) && Step(s, a).Some? && w < |s.watchers|
    ensures w < |Step(s, a).value.watchers| && Evolves(s.watchers[w], Step(s, a).value.watchers[w])
  {
    var t := Step(s, a).value;
    match a
    case Watch(v, e) =>
      if v == w {
        assert Moves(s.watchers[w], t.watchers[w], e, s.machine.state);
      }
    case Handle(h, ok) =>
      HandlerEvolves(s, h, ok, w);
    case _ =>
  }

  lemma HandlerEvolves(s: World, h: nat, ok: bool, w: nat)
    requires Inv(s) && h < |s.handlers| && HandlerStep(s, h, ok).Some? && w < |s.watchers|
    ensures
      var t := HandlerStep(s, h, ok).value;
      w < |t.watchers| && Evolves(s.watchers[w], t.watchers[w])
  {
    match s.handlers[h].pc
    case Install(v, false) => assert OwnerInv(s, s.handlers[h].pc, v);
    case _ =>
  }

  /** A property kept by every change a session can undergo. */
  ghost predicate Persistent(p: Watcher -> bool) {
    forall v, u :: p(v) && WatcherInv(v) && Evolves(v, u) ==> p(u)
  }

  lemma {:induction false} Persists(states: seq<World>, actions: seq<Action>, i: nat, j: nat, w: nat, p: Watcher -> bool)
    requires IsRun(states, actions) && i <= j < |states| && w < |states[i].watchers|
    requires Persistent(p) && p(states[i].watchers[w])
    ensures w < |states[j].watchers| && p(states[j].watchers[w])
    decreases j
  {
    if i == j {
    } else {
      Persists(states, actions, i, j - 1, w, p);
      InvAlongRun(states, actions, j - 1);
      assert Step(states[j - 1], actions[j - 1]) == Some(states[j]);
      StepEvolves(states[j - 1], actions[j - 1], w);
      assert WatcherInv(states[j - 1].watchers[w]);
    }
  }

  /** This action is a state-changing call made by session `w`. */
  predicate CallsState(s: World, a: Action, w: nat) {
    a.Watch? && a.w == w < |s.watchers| && CallOf(s.watchers[w], a.event).Some?
  }

  // ----- Quiet and doomed sessions -----

  /** Nothing is left to do but to drop the stop receiver. */
  predicate Quiet(w: Watcher) {
    Settled(w) && !w.childAlive
  }

  lemma QuietPersists(spawns: nat)
    ensures Persistent((w: Watcher) => Quiet(w) && w.spawns == spawns)
  {
    forall v: Watcher, u | Quiet(v) && Evolves(v, u)
      ensures Quiet(u) && u.spawns == v.spawns
    {
      if e, current :| Moves(v, u, e, current) {
      }
    }
  }

  /**
   * When stop() returns because of an answer or a closed channel, the session is quiet: from
   * then on it makes no state call, starts no child, and none of its children runs.
   */
  lemma StopLeavesQuiet(states: seq<World>, actions: seq<Action>, i: nat, j: nat, h: nat, ok: bool, w: nat)
    requires IsRun(states, actions) && i < j < |states|
    requires actions[i] == Handle(h, ok) && h < |states[i].handlers|
    requires states[i].handlers[h].pc in {StopOld(w, Send), StopOld(w, Await)}
    requires states[i + 1].handlers[h].pc !in {StopOld(w, Send), StopOld(w, Await)}
    ensures w < |states[i].watchers| && w < |states[j].watchers|
    ensures Quiet(states[j].watchers[w]) && states[j].watchers[w].spawns == states[i].watchers[w].spawns
    ensures j < |actions| ==> !CallsState(states[j], actions[j], w)
  {
    InvAlongRun(states, actions, i);
    assert Step(states[i], actions[i]) == Some(states[i + 1]);
    assert OwnerInv(states[i], states[i].handlers[h].pc, w);
    var spawns := states[i].watchers[w].spawns;
    QuietPersists(spawns);
    assert WatcherInv(states[i].watchers[w]);
    Persists(states, actions, i + 1, j, w, (v: Watcher) => Quiet(v) && v.spawns == spawns);
  }

  /** A session makes at most one state-changing call, and it is the last thing it does. */
  lemma OneCallAndLast(states: seq<World>, actions: seq<Action>, i: nat, j: nat, w: nat)
    requires IsRun(states, actions) && i < j < |actions|
    requires CallsState(states[i], actions[i], w)
    ensures w < |states[j].watchers|
    ensures Quiet(states[j].watchers[w]) && !CallsState(states[j], actions[j], w)
  {
    InvAlongRun(states, actions, i);
    assert Step(states[i], actions[i]) == Some(states[i + 1]);
    assert WatcherInv(states[i].watchers[w]);
    var spawns := states[i].watchers[w].spawns;
    QuietPersists(spawns);
    Persists(states, actions, i + 1, j, w, (v: Watcher) => Quiet(v) && v.spawns == spawns);
  }

  /** Either asked to stop, or abandoned and about to look at its stop channel. */
  predicate Doomed(w: Watcher) {
    || w.pc.TearingDown? || w.pc.Answering? || Settled(w)
    || (!w.senderOpen && (w.pc.Selecting? || w.pc.Backoff?))
  }

  lemma DoomedMoves(v: Watcher, e: WatcherEvent, current: ServiceState)
    requires Doomed(v) && CanStep(v, e)
    ensures Doomed(WatcherStep(v, e, current)) && WatcherStep(v, e, current).spawns == v.spawns
  {
  }

  lemma DoomedPersists(spawns: nat)
    ensures Persistent((w: Watcher) => Doomed(w) && w.spawns == spawns)
  {
    forall v: Watcher, u | Doomed(v) && Evolves(v, u)
      ensures Doomed(u) && u.spawns == v.spawns
    {
      if e, current :| Moves(v, u, e, current) {
        DoomedMoves(v, e, current);
      }
    }
  }

  /**
   * A session that nobody owns and that is about to look at its stop channel, or that has
   * taken a stop request, never again asks the state machine for anything nor starts a child.
   */
  lemma DoomedIsSilent(states: seq<World>, actions: seq<Action>, i: nat, j: nat, w: nat)
    requires IsRun(states, actions) && i <= j < |actions| && w < |states[i].watchers|
    requires
      var v := states[i].watchers[w];
      v.taken || (!Owned(states[i], w) && (v.pc.Selecting? || v.pc.Backoff?))
    ensures w < |states[j].watchers| && states[j].watchers[w].spawns == states[i].watchers[w].spawns
    ensures !CallsState(states[j], actions[j], w)
  {
    InvAlongRun(states, actions, i);
    assert WatcherInv(states[i].watchers[w]);
    var spawns := states[i].watchers[w].spawns;
    DoomedPersists(spawns);
    Persists(states, actions, i, j, w, (v: Watcher) => Doomed(v) && v.spawns == spawns);
  }

  /**
   * The next look of an abandoned session at its stop channel starts the teardown, or ends the
   * wait before a retry, and leaves the state machine alone. (One that is past its last look may
   * still report.)
   */
  lemma AbandonedTearsDown(s: World, w: nat, e: WatcherEvent)
    requires Inv(s) && w < |s.watchers| && !Owned(s, w) && (s.watchers[w].pc.Selecting? || s.watchers[w].pc.Backoff?)
    requires CanStep(s.watchers[w], e) && e != ChildDies
    ensures WatchStep(s, w, e).machine == s.machine
    ensures
      var u := WatchStep(s, w, e).watchers[w];
      if s.watchers[w].pc.Selecting? then u.pc.TearingDown? else u.pc.Answering? && !u.childAlive
  {
    assert WatcherInv(s.watchers[w]);
  }

  // ----- A stop request is always answered, an abandoned session always ends -----

  /** A stop request has reached the session, its handle is gone, or it is already over. */
  predicate Unwanted(w: Watcher) {
    w.pending || w.taken || !w.senderOpen || w.pc.Finished?
  }

  /** An upper bound on the steps an unwanted session still takes by itself. */
  function StepsLeft(pc: WatcherPc): nat {
    match pc
    case PolledStop => 11
    case Draining => 10
    case Classifying(_, _) => 9
    case PolledBackoff => 7
    case Respawning => 6
    case Feeding => 5
    case Unstarted => 5
    case Selecting => 4
    case TearingDown(_) => 3
    case Backoff => 3
    case Prompting => 3
    case Answering(_) => 2
    case CleanExit => 2
    case Failing => 2
    case Leaving => 1
    case Finished => 0
  }

  lemma UnwantedSessionAdvances(v: Watcher, e: WatcherEvent, current: ServiceState)
    requires WatcherInv(v) && Unwanted(v) && CanStep(v, e)
    ensures Unwanted(WatcherStep(v, e, current))
    ensures StepsLeft(WatcherStep(v, e, current).pc) + (if e.ChildDies? then 0 else 1) <= StepsLeft(v.pc)
  {
    if e.Advance? && v.pc.Classifying? {
      assert WatcherStep(v, e, current) == Classified(v, current);
    }
  }

  /** A session that is not over can always move, unless it waits for its child to die. */
  lemma NeverStuck(v: Watcher)
    requires !v.pc.Finished? && !v.pc.Unstarted?
    ensures (v.pc.TearingDown? && v.childAlive) <==> forall e :: CanStep(v, e) ==> e == ChildDies
  {
    if v.pc.Draining? {
      assert CanStep(v, Drained(None, false));
    } else if v.pc.Respawning? {
      assert CanStep(v, Spawned(true));
    } else if !(v.pc.TearingDown? && v.childAlive) {
      assert CanStep(v, Advance);
    }
  }

  /** 1 if the action is a move of session `w` itself. */
  function OwnStep(a: Action, w: nat): nat {
    if a.Watch? && a.w == w && !a.event.ChildDies? then 1 else 0
  }

  /** How often session `w` moves by itself between states `i` and `j`. */
  function OwnSteps(actions: seq<Action>, w: nat, i: nat, j: nat): nat
    requires i <= j <= |actions|
    decreases j - i
  {
    if i == j then 0 else OwnStep(actions[i], w) + OwnSteps(actions, w, i + 1, j)
  }

  /** Session `w` is unwanted and has at most `budget` steps of its own left. */
  ghost predicate UnwantedWithin(s: World, w: nat, budget: int) {
    w < |s.watchers| && Unwanted(s.watchers[w]) && StepsLeft(s.watchers[w].pc) <= budget
  }

  lemma StepOfUnwanted(s: World, a: Action, t: World, w: nat, budget: int)
    requires Inv(s) && Step(s, a) == Some(t) && UnwantedWithin(s, w, budget)
    ensures UnwantedWithin(t, w, budget - OwnStep(a, w))
  {
    if a.Watch? && a.w == w {
      UnwantedSessionAdvances(s.watchers[w], a.event, s.machine.state);
    } else {
      StepEvolvesPassively(s, a, w);
    }
  }

  /** The counters that only the session's own steps move. */
  predicate SameHistory(v: Watcher, u: Watcher) {
    u.retries == v.retries && u.spawns == v.spawns && u.prompts == v.prompts
  }

  /** What others' steps may do to a session. */
  predicate Passive(v: Watcher, u: Watcher) {
    && (u.pc == v.pc || (v.pc.Unstarted? && u.pc.Selecting?))
    && (Unwanted(v) ==> Unwanted(u))
    && SameHistory(v, u)
  }

  lemma HandlerIsPassive(s: World, h: nat, ok: bool, w: nat)
    requires Inv(s) && h < |s.handlers| && HandlerStep(s, h, ok).Some? && w < |s.watchers|
    ensures
      var t := HandlerStep(s, h, ok).value;
      w < |t.watchers| && Passive(s.watchers[w], t.watchers[w])
  {
    match s.handlers[h].pc
    case Install(v, false) => assert OwnerInv(s, s.handlers[h].pc, v);
    case _ =>
  }

  lemma StepEvolvesPassively(s: World, a: Action, w: nat)
    requires Inv(s) && Step(s, a).Some? && w < |s.watchers| && !(a.Watch? && a.w == w)
    ensures
      var t := Step(s, a).value;
      w < |t.watchers| && Passive(s.watchers[w], t.watchers[w])
  {
    match a
    case Handle(h, ok) => HandlerIsPassive(s, h, ok, w);
    case _ =>
  }

  lemma RunStepOfUnwanted(states: seq<World>, actions: seq<Action>, w: nat, j: nat, budget: int)
    requires IsRun(states, actions) && j < |actions| && UnwantedWithin(states[j], w, budget)
    ensures UnwantedWithin(states[j + 1], w, budget - OwnStep(actions[j], w))
  {
    InvAlongRun(states, actions, j);
    StepOfUnwanted(states[j], actions[j], states[j + 1], w, budget);
  }

  lemma {:induction false} UnwantedAlongRun(
    states: seq<World>, actions: seq<Action>, w: nat, i: nat, j: nat, budget: int)
    requires IsRun(states, actions) && i <= j <= |actions| && UnwantedWithin(states[i], w, budget)
    ensures UnwantedWithin(states[j], w, budget - OwnSteps(actions, w, i, j))
    decreases j - i
  {
    if i == j {
    } else {
      RunStepOfUnwanted(states, actions, w, i, budget);
      UnwantedAlongRun(states, actions, w, i + 1, j, budget - OwnStep(actions[i], w));
    }
  }

  /**
   * From the moment a stop request reaches it, or its last handle is dropped, a session takes at
   * most 11 more steps of its own before it is over, in every run and whatever the others do:
   * stop() waits only for those and for the child to die.
   */
  lemma UnwantedSessionEnds(states: seq<World>, actions: seq<Action>, w: nat, i: nat, j: nat)
    requires IsRun(states, actions) && i <= j <= |actions| && w < |states[i].watchers|
    requires Unwanted(states[i].watchers[w]) || !Owned(states[i], w)
    ensures w < |states[j].watchers|
    ensures OwnSteps(actions, w, i, j) + StepsLeft(states[j].watchers[w].pc) <= 11
    ensures OwnSteps(actions, w, i, j) == 11 ==> states[j].watchers[w].pc.Finished?
  {
    ExactlyOneOwner(states, actions, i, w);
    UnwantedAlongRun(states, actions, w, i, j, 11);
  }

  // ----- Bounds -----

  /** A session starts at most 3 children and prompts at most once. */
  lemma BoundedRelaunches(states: seq<World>, actions: seq<Action>, i: nat, w: nat)
    requires IsRun(states, actions) && i < |states| && w < |states[i].watchers|
    ensures states[i].watchers[w].spawns <= 3
    ensures states[i].watchers[w].prompts <= 1
  {
    InvAlongRun(states, actions, i);
    assert WatcherInv(states[i].watchers[w]);
  }

  lemma PromptedMoves(v: Watcher, e: WatcherEvent, current: ServiceState)
    requires WatcherInv(v) && v.prompts == 1 && CanStep(v, e)
    ensures WatcherStep(v, e, current).prompts == 1 && WatcherStep(v, e, current).spawns == v.spawns
  {
  }

  lemma PromptedPersists(spawns: nat)
    ensures Persistent((w: Watcher) => w.prompts == 1 && w.spawns == spawns)
  {
    forall v: Watcher, u | WatcherInv(v) && v.prompts == 1 && Evolves(v, u)
      ensures u.prompts == 1 && u.spawns == v.spawns
    {
      if e, current :| Moves(v, u, e, current) {
        PromptedMoves(v, e, current);
      }
    }
  }

  /** Once a session has prompted it never starts another child. */
  lemma NoRelaunchAfterPrompt(states: seq<World>, actions: seq<Action>, i: nat, j: nat, w: nat)
    requires IsRun(states, actions) && i <= j < |states| && w < |states[i].watchers|
    requires states[i].watchers[w].prompts >= 1
    ensures w < |states[j].watchers| && states[j].watchers[w].spawns == states[i].watchers[w].spawns
  {
    InvAlongRun(states, actions, i);
    assert WatcherInv(states[i].watchers[w]);
    var spawns := states[i].watchers[w].spawns;
    PromptedPersists(spawns);
    Persists(states, actions, i, j, w, (v: Watcher) => v.prompts == 1 && v.spawns == spawns);
  }

  // ----- The decision at an exit -----

  /** How a session goes on once the exit of its child is classified. */
  lemma ClassifiedExactly(v: Watcher, current: ServiceState)
    requires v.pc.Classifying?
    ensures
      var u := Classified(v, current);
      && (u.pc.Prompting? <==> current == Starting && v.pc.certChange.Some?)
      && (u.pc.Backoff? <==> current == Starting && v.pc.certChange.None? && v.pc.fast && v.retries < 2)
      && (u.pc.Prompting? || u.pc.Backoff? || u.pc.Failing?)
      && u == v.(pc := u.pc, retries := if u.pc.Backoff? then v.retries + 1 else v.retries)
  {
  }
}
