/**
 * The idle-quit task (`idle_quit` in service/src/main.rs) over the watch channel that the state
 * machine publishes its activity on (service/src/state.rs, `Inner::set`).
 *
 * Time is in seconds. A ready task is polled before time advances. The channel's version is
 * the number of publications; `changed()` is ready when the receiver has not seen the latest.
 */
module IdleQuit {
  import opened Options
  import ServiceStates

  const QUIT_TIMER := 180.0

  datatype Publication = Publication(time: real, active: bool)

  datatype Pc =
    | Persisting                             // --persist: the future never resolves
    | Looking                                // about to read the flag
    | AwaitingChange                         // the flag was up
    | Sleeping(deadline: real, before: nat)  // the flag was down after `before` publications
    | QuitByTimer(at: real)
    | QuitByClose

  datatype Idle = Idle(now: real, published: seq<Publication>, senderAlive: bool, seen: nat, pc: Pc)

  function Start(persist: bool): Idle {
    Idle(0.0, [], true, 0, if persist then Persisting else Looking)
  }

  /** The published flag after a list of publications; it starts down. */
  function Flag(published: seq<Publication>): bool {
    published != [] && published[|published| - 1].active
  }

  /** When the flag last changed hands: the time of the last publication, or the start. */
  function LastTime(published: seq<Publication>): real {
    if published == [] then 0.0 else published[|published| - 1].time
  }

  datatype Action =
    | Publish(active: bool)
    | DropSender
    | Poll(timerFirst: bool)   // when both select branches are ready, which one is taken
    | Tick(seconds: real)

  predicate Unseen(s: Idle) {
    s.seen != |s.published|
  }

  predicate Ready(s: Idle) {
    match s.pc
    case Looking => true
    case AwaitingChange => Unseen(s) || !s.senderAlive
    case Sleeping(deadline, _) => s.now >= deadline || Unseen(s) || !s.senderAlive
    case _ => false
  }

  /** `changed()` resolves: with the new version if there is one, else with an error. */
  function Changed(s: Idle): Idle {
    if Unseen(s) then s.(seen := |s.published|, pc := Looking) else s.(pc := QuitByClose)
  }

  function Polled(s: Idle, timerFirst: bool): Idle
    requires Ready(s)
  {
    match s.pc
    case Looking =>
      if Flag(s.published) then s.(pc := AwaitingChange)
      else s.(pc := Sleeping(s.now + QUIT_TIMER, |s.published|))
    case AwaitingChange => Changed(s)
    case Sleeping(deadline, _) =>
      if s.now >= deadline && (timerFirst || !(Unseen(s) || !s.senderAlive)) then s.(pc := QuitByTimer(s.now))
      else Changed(s)
  }

  function Step(s: Idle, a: Action): Option<Idle> {
    match a
    case Publish(active) =>
      if s.senderAlive then Some(s.(published := s.published + [Publication(s.now, active)])) else None
    case DropSender => Some(s.(senderAlive := false))
    case Poll(timerFirst) => if Ready(s) then Some(Polled(s, timerFirst)) else None
    case Tick(seconds) =>
      if seconds <= 0.0 || Ready(s) || (s.pc.Sleeping? && s.now + seconds > s.pc.deadline) then None
      else Some(s.(now := s.now + seconds))
  }

  ghost predicate IsRun(states: seq<Idle>, actions: seq<Action>, persist: bool) {
    && |states| == |actions| + 1
    && states[0] == Start(persist)
    && forall i :: 0 <= i < |actions| ==> Step(states[i], actions[i]) == Some(states[i + 1])
  }

  // ----- Invariant -----

  /** The flag was down after `before` publications, all made by `since`; the others came from `until` on. */
  ghost predicate DownBetween(published: seq<Publication>, before: nat, since: real, until: real) {
    && before <= |published|
    && !Flag(published[..before])
    && (forall i :: 0 <= i < before ==> published[i].time <= since)
    && (forall i :: before <= i < |published| ==> published[i].time >= until)
  }

  /** The sleep that ends at `at` began at the last of the first `before` publications and saw no other. */
  ghost predicate SleptUntil(published: seq<Publication>, before: nat, at: real) {
    && DownBetween(published, before, at - QUIT_TIMER, at)
    && at == LastTime(published[..before]) + QUIT_TIMER
  }

  /** The task is about to look at what was published this very instant. */
  predicate Woken(s: Idle) {
    s.pc.Looking? || ((s.pc.AwaitingChange? || s.pc.Sleeping?) && Unseen(s))
  }

  ghost predicate Inv(s: Idle, persist: bool) {
    && (s.pc.Persisting? <==> persist)
    && s.seen <= |s.published|
    && (forall i :: 0 <= i < |s.published| ==> s.published[i].time <= s.now)
    && (Woken(s) ==> s.now == LastTime(s.published))
    && (s.pc.Sleeping? ==>
          && s.pc.deadline - QUIT_TIMER <= s.now <= s.pc.deadline
          && s.seen <= s.pc.before
          && DownBetween(s.published, s.pc.before, s.pc.deadline - QUIT_TIMER, s.now)
          && s.pc.deadline == LastTime(s.published[..s.pc.before]) + QUIT_TIMER)
    && (s.pc.QuitByTimer? ==>
          && s.pc.at <= s.now
          && exists before :: SleptUntil(s.published, before, s.pc.at))
  }

  lemma PublishKeepsDown(published: seq<Publication>, p: Publication, before: nat, since: real, until: real)
    requires DownBetween(published, before, since, until) && p.time >= until
    ensures DownBetween(published + [p], before, since, until)
    ensures (published + [p])[..before] == published[..before]
  {
    assert (published + [p])[..before] == published[..before];
  }

  lemma PublishKeepsInv(s: Idle, active: bool, persist: bool)
    requires Inv(s, persist) && s.senderAlive
    ensures Inv(Step(s, Publish(active)).value, persist)
  {
    var p := Publication(s.now, active);
    if s.pc.Sleeping? {
      PublishKeepsDown(s.published, p, s.pc.before, s.pc.deadline - QUIT_TIMER, s.now);
    } else if s.pc.QuitByTimer? {
      var before :| SleptUntil(s.published, before, s.pc.at);
      PublishKeepsDown(s.published, p, before, s.pc.at - QUIT_TIMER, s.pc.at);
      assert SleptUntil(s.published + [p], before, s.pc.at);
    }
  }

  lemma PollKeepsInv(s: Idle, timerFirst: bool, persist: bool)
    requires Inv(s, persist) && Ready(s)
    ensures Inv(Polled(s, timerFirst), persist)
  {
    var t := Polled(s, timerFirst);
    assert s.published[..|s.published|] == s.published;
    if t.pc.QuitByTimer? {
      assert SleptUntil(t.published, s.pc.before, t.pc.at);
    }
  }

  lemma StepKeepsInv(s: Idle, a: Action, persist: bool)
    requires Inv(s, persist) && Step(s, a).Some?
    ensures Inv(Step(s, a).value, persist)
  {
    match a
    case Publish(active) => PublishKeepsInv(s, active, persist);
    case Poll(timerFirst) => PollKeepsInv(s, timerFirst, persist);
    case _ =>
      var t := Step(s, a).value;
      assert t.pc == s.pc && t.published == s.published;
  }

  lemma {:induction false} InvAlongRun(states: seq<Idle>, actions: seq<Action>, persist: bool, i: nat)
    requires IsRun(states, actions, persist) && i < |states|
    ensures Inv(states[i], persist)
  {
    if i == 0 {
    } else {
      InvAlongRun(states, actions, persist, i - 1);
      assert Step(states[i - 1], actions[i - 1]) == Some(states[i]);
      StepKeepsInv(states[i - 1], actions[i - 1], persist);
    }
  }

  // ----- Soundness -----

  /** The flag as it stood at the end of instant `t`. */
  function FlagAt(published: seq<Publication>, t: real): bool {
    if published == [] then false
    else if published[|published| - 1].time <= t then published[|published| - 1].active
    else FlagAt(published[..|published| - 1], t)
  }

  lemma {:induction false} FlagAtIsDown(published: seq<Publication>, before: nat, since: real, until: real, t: real)
    requires DownBetween(published, before, since, until) && since <= t < until
    ensures !FlagAt(published, t)
    decreases |published|
  {
    var n := |published|;
    if n > before {
      assert published[..n - 1][..before] == published[..before];
      FlagAtIsDown(published[..n - 1], before, since, until, t);
    } else {
      assert published[..before] == published;
    }
  }

  /**
   * If the task resolves by its timer at time t, the service was inactive throughout
   * [t - 180, t) and nothing was published strictly between t - 180 and t.
   */
  lemma TimerQuitIsSound(states: seq<Idle>, actions: seq<Action>, persist: bool, i: nat)
    requires IsRun(states, actions, persist) && i < |states| && states[i].pc.QuitByTimer?
    ensures
      var at, published := states[i].pc.at, states[i].published;
      && (forall k :: 0 <= k < |published| ==> published[k].time <= at - QUIT_TIMER || published[k].time >= at)
      && (forall t :: at - QUIT_TIMER <= t < at ==> !FlagAt(published, t))
  {
    InvAlongRun(states, actions, persist, i);
    var at, published := states[i].pc.at, states[i].published;
    var before :| SleptUntil(published, before, at);
    forall t | at - QUIT_TIMER <= t < at
      ensures !FlagAt(published, t)
    {
      FlagAtIsDown(published, before, at - QUIT_TIMER, at, t);
    }
  }

  /** With --persist the task never resolves. */
  lemma PersistNeverQuits(states: seq<Idle>, actions: seq<Action>, i: nat)
    requires IsRun(states, actions, true) && i < |states|
    ensures !states[i].pc.QuitByTimer? && !states[i].pc.QuitByClose?
  {
    InvAlongRun(states, actions, true, i);
  }

  /** The last publication strictly before `at`, if there is one. */
  function LastBefore(published: seq<Publication>, at: real): Option<Publication> {
    if published == [] then None
    else if published[|published| - 1].time < at then Some(published[|published| - 1])
    else LastBefore(published[..|published| - 1], at)
  }

  lemma {:induction false} LastBeforeIs(published: seq<Publication>, before: nat, at: real)
    requires before <= |published| && forall i :: before <= i < |published| ==> published[i].time >= at
    requires before > 0 ==> published[before - 1].time < at
    ensures LastBefore(published, at) == if before == 0 then None else Some(published[before - 1])
    decreases |published|
  {
    if |published| == before {
    } else {
      LastBeforeIs(published[..|published| - 1], before, at);
    }
  }

  /**
   * The timer fires exactly 180 s after the last publication before it, which said inactive, or
   * 180 s after the start if there was none. So something was published at the very instant
   * t - 180 if and only if anything was published before t.
   */
  lemma TimerQuitExactly(states: seq<Idle>, actions: seq<Action>, persist: bool, i: nat)
    requires IsRun(states, actions, persist) && i < |states| && states[i].pc.QuitByTimer?
    ensures
      var at, published := states[i].pc.at, states[i].published;
      var last := LastBefore(published, at);
      && at == (if last.Some? then last.value.time else 0.0) + QUIT_TIMER
      && (last.Some? ==> !last.value.active)
      && ((exists k :: 0 <= k < |published| && published[k].time == at - QUIT_TIMER) <==>
            exists k :: 0 <= k < |published| && published[k].time < at)
  {
    InvAlongRun(states, actions, persist, i);
    var at, published := states[i].pc.at, states[i].published;
    var before :| SleptUntil(published, before, at);
    LastBeforeIs(published, before, at);
  }

  // ----- The left end is reached -----

  function FlagsOf(published: seq<Publication>): seq<bool> {
    seq(|published|, i requires 0 <= i < |published| => published[i].active)
  }

  /** What the state machine publishes when it announces `w`. */
  function FlagsFor(w: seq<ServiceStates.ServiceState>): seq<bool> {
    seq(|w|, i requires 0 <= i < |w| => ServiceStates.Active(w[i]))
  }

  const SESSION := [ServiceStates.Starting, ServiceStates.Stopped]

  /** What the machine announces when it is asked for a session's states in turn. */
  function SessionLog(): seq<ServiceStates.ServiceState> {
    ServiceStates.StateChanges(ServiceStates.RunCalls(ServiceStates.INITIAL, ServiceStates.Requests(SESSION)).log)
  }

  lemma SessionFlags()
    ensures FlagsFor(SessionLog()) == [true, false]
  {
    ServiceStates.LegalPathPrepend(ServiceStates.Starting, ServiceStates.Stopped, []);
    ServiceStates.LegalPathPrepend(ServiceStates.Stopped, ServiceStates.Starting, [ServiceStates.Stopped]);
    assert SESSION == [ServiceStates.Starting] + [ServiceStates.Stopped];
    ServiceStates.LanguageIsReached(ServiceStates.INITIAL, SESSION);
    assert SessionLog() == [] + SESSION == SESSION;
  }

  const START_THEN_STOP := [Publication(0.0, true), Publication(60.0, false)]

  lemma LeftEndRun() returns (states: seq<Idle>, actions: seq<Action>)
    ensures IsRun(states, actions, false)
    ensures states[|actions|] == Idle(240.0, START_THEN_STOP, true, 2, QuitByTimer(240.0))
  {
    var poll := Poll(true);
    var started := [Publication(0.0, true)];
    var s0, s1 := Start(false), Idle(0.0, started, true, 0, Looking);
    var s2, s3 := s1.(pc := AwaitingChange), s1.(seen := 1);
    var s4, s5 := s3.(pc := AwaitingChange), s3.(pc := AwaitingChange, now := 60.0);
    var s6 := s5.(published := START_THEN_STOP);
    var s7, s8 := s6.(seen := 2, pc := Looking), s6.(seen := 2, pc := Sleeping(240.0, 2));
    var s9, s10 := s8.(now := 240.0), s8.(now := 240.0, pc := QuitByTimer(240.0));
    states := [s0, s1, s2, s3, s4, s5, s6, s7, s8, s9, s10];
    actions := [Publish(true), poll, poll, poll, Tick(60.0), Publish(false), poll, poll, Tick(QUIT_TIMER), poll];
    assert s0.published + started == started;
    assert started + [Publication(60.0, false)] == START_THEN_STOP;
  }

  /**
   * A run of the service's own publications: a session starts at 0 and stops at 60, and the
   * task quits at 240, with the last publication on the left end of its 180 s.
   */
  lemma PublicationAtLeftEnd()
    ensures exists states: seq<Idle>, actions: seq<Action> ::
      && IsRun(states, actions, false)
      && states[|actions|].pc == QuitByTimer(240.0)
      && states[|actions|].published == START_THEN_STOP
    ensures FlagsOf(START_THEN_STOP) == FlagsFor(SessionLog())
  {
    var states, actions := LeftEndRun();
    SessionFlags();
  }

  // ----- What else makes it quit, and what does not -----

  /** The task resolves without its timer only when the sender is gone. */
  lemma {:induction false} ClosesOnlyWithoutSender(
    states: seq<Idle>, actions: seq<Action>, persist: bool, i: nat)
    requires IsRun(states, actions, persist) && i < |states|
    ensures states[i].pc.QuitByClose? ==> !states[i].senderAlive
  {
    if i == 0 {
    } else {
      ClosesOnlyWithoutSender(states, actions, persist, i - 1);
      InvAlongRun(states, actions, persist, i - 1);
      assert Step(states[i - 1], actions[i - 1]) == Some(states[i]);
    }
  }

  /** A publication before the deadline sends a sleeping task back to looking. */
  lemma PublicationWakes(s: Idle, timerFirst: bool)
    requires (s.pc.Sleeping? && s.now < s.pc.deadline) || s.pc.AwaitingChange?
    requires Unseen(s)
    ensures Step(s, Poll(timerFirst)) == Some(s.(pc := Looking, seen := |s.published|))
  {
  }

  /** A task that looks waits for a change while active, and for 180 s while inactive. */
  lemma LookingGoesOn(s: Idle, timerFirst: bool)
    requires s.pc.Looking?
    ensures
      var active := s.published != [] && s.published[|s.published| - 1].active;
      Step(s, Poll(timerFirst))
        == Some(s.(pc := if active then AwaitingChange else Sleeping(s.now + 180.0, |s.published|)))
  {
  }

  /** Left alone, a sleeping task quits at its deadline and not before. */
  lemma DeadlineFires(s: Idle, timerFirst: bool)
    requires s.pc.Sleeping? && !Unseen(s) && s.senderAlive
    ensures Step(s, Poll(timerFirst)) == if s.now < s.pc.deadline then None else Some(s.(pc := QuitByTimer(s.now)))
  {
  }

  /** When the deadline and something else come together, either may be taken. */
  lemma RaceAtDeadline(s: Idle)
    requires s.pc.Sleeping? && s.now >= s.pc.deadline && (Unseen(s) || !s.senderAlive)
    ensures Step(s, Poll(true)) == Some(s.(pc := QuitByTimer(s.now)))
    ensures Step(s, Poll(false))
      == Some(if Unseen(s) then s.(pc := Looking, seen := |s.published|) else s.(pc := QuitByClose))
  {
  }

  /** Any time passes as long as the task has nothing to do meanwhile. */
  lemma TimePasses(s: Idle, seconds: real)
    ensures Step(s, Tick(seconds)).Some? <==>
      && seconds > 0.0 && Step(s, Poll(true)).None?
      && (s.pc.Sleeping? ==> s.now + seconds <= s.pc.deadline)
    ensures Step(s, Tick(seconds)).Some? ==> Step(s, Tick(seconds)).value == s.(now := s.now + seconds)
  {
  }
}
