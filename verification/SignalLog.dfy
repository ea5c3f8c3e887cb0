/**
 * The signals NetworkManager sees, in every run of the lifecycle and under any interleaving:
 * the announced states, the failures, the activity flag, and what a Started costs.
 */
module SignalLog {
  import opened Options
  import opened ServiceStates
  import opened Lifecycle

  /** What one step of the system asks of the state machine or emits beside it. */
  function CallIn(s: World, a: Action): Option<Call> {
    match a
    case Handle(h, ok) =>
      if h >= |s.handlers| then None
      else
        var p := PlainMove(s.handlers[h], ok);
        if p.Some? then p.value.call else None
    case Watch(w, e) => if w < |s.watchers| then CallOf(s.watchers[w], e) else None
    case _ => None
  }

  lemma StepMakesOneCall(s: World, a: Action)
    requires Step(s, a).Some?
    ensures CallIn(s, a).None? ==> Step(s, a).value.machine == s.machine
    ensures CallIn(s, a).Some? ==>
      WellFormedCall(CallIn(s, a).value) && Step(s, a).value.machine == Apply(s.machine, CallIn(s, a).value)
  {
  }

  lemma StepKeepsMachine(s: World, a: Action)
    requires Step(s, a).Some? && MachineInv(s.machine)
    ensures MachineInv(Step(s, a).value.machine)
  {
    StepMakesOneCall(s, a);
    if CallIn(s, a).Some? {
      ApplyKeepsInv(s.machine, CallIn(s, a).value);
    }
  }

  lemma {:induction false} MachineAlongRun(states: seq<World>, actions: seq<Action>, i: nat)
    requires IsRun(states, actions) && i < |states|
    ensures MachineInv(states[i].machine)
  {
    if i == 0 {
    } else {
      MachineAlongRun(states, actions, i - 1);
      assert Step(states[i - 1], actions[i - 1]) == Some(states[i]);
      StepKeepsMachine(states[i - 1], actions[i - 1]);
    }
  }

  /**
   * In every run the announced states are a prefix of (Starting Started? Stopping? Stopped)*,
   * every Failure under the lock sits directly between Starting or Started and Stopped, and the
   * published flag is the number of Starting minus the number of Stopped.
   */
  lemma LogLanguageInEveryRun(states: seq<World>, actions: seq<Action>, i: nat)
    requires IsRun(states, actions) && i < |states|
    ensures
      var m := states[i].machine;
      var w := StateChanges(m.log);
      && PrefixOfCycles(w)
      && FailuresPlaced(LockSignals(m.log))
      && Count(Starting, w) - Count(Stopped, w) == if m.active then 1 else 0
  {
    MachineAlongRun(states, actions, i);
    LegalPathIsPrefix(StateChanges(states[i].machine.log));
  }

  // ----- Every Started is paid for -----

  /** Handlers that have emitted Ip4Config and not yet asked for Started. */
  function Announcing(hs: seq<Handler>): nat {
    if hs == [] then 0
    else Announcing(hs[..|hs| - 1]) + Weight(hs[|hs| - 1])
  }

  function Weight(h: Handler): nat {
    if h.pc.AnnounceStarted? then 1 else 0
  }

  lemma {:induction false} AnnouncingUpdate(hs: seq<Handler>, h: nat, v: Handler)
    requires h < |hs|
    ensures Announcing(hs[h := v]) == Announcing(hs) - Weight(hs[h]) + Weight(v)
    decreases |hs|
  {
    var n := |hs| - 1;
    if h == n {
      assert hs[h := v][..n] == hs[..n];
    } else {
      assert hs[h := v][..n] == hs[..n][h := v];
      AnnouncingUpdate(hs[..n], h, v);
    }
  }

  function Debt(log: seq<Signal>): int {
    Count(StateChanged(Started), log) - Count(Ip4Config, log)
  }

  /** No prefix of the log has more Started than Ip4Config. */
  predicate PaidThroughout(log: seq<Signal>) {
    log == [] || (Debt(log) <= 0 && PaidThroughout(log[..|log| - 1]))
  }

  lemma DebtAppend(log: seq<Signal>, x: Signal)
    ensures Debt(log + [x]) == Debt(log)
      + (if x == StateChanged(Started) then 1 else 0) - (if x == Ip4Config then 1 else 0)
    ensures PaidThroughout(log) && Debt(log + [x]) <= 0 ==> PaidThroughout(log + [x])
  {
    CountAppend(StateChanged(Started), log, x);
    CountAppend(Ip4Config, log, x);
    assert (log + [x])[..|log|] == log;
  }

  ghost predicate PaidInv(s: World) {
    && Debt(s.machine.log) + Announcing(s.handlers) <= 0
    && PaidThroughout(s.machine.log)
  }

  /** What a call adds to the debt: only a request for Started can raise it. */
  lemma CallDebt(m: Machine, c: Call)
    requires WellFormedCall(c) && PaidThroughout(m.log)
    requires Debt(m.log) + (if c == To(Started) then 1 else 0) <= 0
    ensures Debt(Apply(m, c).log) <= Debt(m.log)
      + (if c == To(Started) then 1 else 0) - (if c == Emit(Ip4Config) then 1 else 0)
    ensures PaidThroughout(Apply(m, c).log)
  {
    match c
    case To(next) => DebtAppend(m.log, StateChanged(next));
    case Fail(reason) =>
      DebtAppend(m.log, Failure(reason));
      DebtAppend(m.log + [Failure(reason)], StateChanged(Stopped));
    case Emit(signal) => DebtAppend(m.log, signal);
  }

  lemma HandlerWeight(s: World, h: nat, ok: bool)
    requires h < |s.handlers| && HandlerStep(s, h, ok).Some?
    ensures
      var t := HandlerStep(s, h, ok).value;
      var call := CallIn(s, Handle(h, ok));
      && |t.handlers| == |s.handlers|
      && t.handlers == s.handlers[h := t.handlers[h]]
      && Weight(t.handlers[h]) - Weight(s.handlers[h])
         == (if call == Some(Emit(Ip4Config)) then 1 else 0) - (if call == Some(To(Started)) then 1 else 0)
  {
    var t := HandlerStep(s, h, ok).value;
    if s.handlers[h].pc.StopOld? || s.handlers[h].pc.Install? {
      assert t.handlers == s.handlers[h := t.handlers[h]];
    }
  }

  /** How a step changes the number of announcing handlers. */
  lemma StepAnnouncing(s: World, a: Action)
    requires Step(s, a).Some?
    ensures Announcing(Step(s, a).value.handlers) == Announcing(s.handlers)
      + (if CallIn(s, a) == Some(Emit(Ip4Config)) then 1 else 0)
      - (if CallIn(s, a) == Some(To(Started)) then 1 else 0)
  {
    var t := Step(s, a).value;
    match a
    case Invoke(kind) =>
      assert t.handlers[..|s.handlers|] == s.handlers;
    case Handle(h, ok) =>
      HandlerWeight(s, h, ok);
      AnnouncingUpdate(s.handlers, h, t.handlers[h]);
    case StopTimesOut(h) =>
      AnnouncingUpdate(s.handlers, h, t.handlers[h]);
      assert t.handlers == s.handlers[h := t.handlers[h]];
    case Watch(_, _) =>
  }

  lemma StepKeepsPaid(s: World, a: Action)
    requires PaidInv(s) && Step(s, a).Some?
    ensures PaidInv(Step(s, a).value)
  {
    StepMakesOneCall(s, a);
    StepAnnouncing(s, a);
    if CallIn(s, a).Some? {
      CallDebt(s.machine, CallIn(s, a).value);
    }
  }

  /**
   * At every point of every run, no prefix of the log has more Started than Ip4Config, even
   * counting the handlers that are between the two.
   */
  lemma EveryStartedIsPaid(states: seq<World>, actions: seq<Action>, i: nat)
    requires IsRun(states, actions) && i < |states|
    ensures
      var s := states[i];
      && Count(StateChanged(Started), s.machine.log) + Announcing(s.handlers) <= Count(Ip4Config, s.machine.log)
      && PaidThroughout(s.machine.log)
  {
    PaidAlongRun(states, actions, i);
  }

  lemma {:induction false} PaidAlongRun(states: seq<World>, actions: seq<Action>, i: nat)
    requires IsRun(states, actions) && i < |states|
    ensures PaidInv(states[i])
  {
    if i == 0 {
    } else {
      PaidAlongRun(states, actions, i - 1);
      assert Step(states[i - 1], actions[i - 1]) == Some(states[i]);
      StepKeepsPaid(states[i - 1], actions[i - 1]);
    }
  }

  // ----- What each party says -----

  /** What is announced when `next` is asked for: the state, if it can come next. */
  function Announced(s: World, froms: set<ServiceState>, next: ServiceState): seq<Signal> {
    if s.machine.state in froms then [StateChanged(next)] else []
  }

  function AnnouncedFailure(s: World): seq<Signal> {
    if s.machine.state in {Starting, Started} then [Failure(ConnectFailed), StateChanged(Stopped)] else []
  }

  /**
   * A session that fails is announced as ConnectFailed and then Stopped, one that ends by itself
   * as Stopped, and nothing else that a session does is announced.
   */
  lemma WhatASessionSays(s: World, w: nat, e: WatcherEvent)
    requires w < |s.watchers| && CanStep(s.watchers[w], e)
    requires s.machine.state in {Starting, Started, Stopping, Stopped}
    ensures
      var pc, log := s.watchers[w].pc, WatchStep(s, w, e).machine.log;
      log == s.machine.log
        + (if e != Advance then []
           else if pc.Failing? then AnnouncedFailure(s)
           else if pc.CleanExit? then Announced(s, {Starting, Started, Stopping}, Stopped)
           else [])
  {
    FailureIsAnnounced(s.machine, ConnectFailed);
    assert s.machine.log + [] == s.machine.log;
  }

  /** What each step of a handler announces. */
  lemma WhatAHandlerSays(s: World, h: nat, ok: bool)
    requires h < |s.handlers| && HandlerStep(s, h, ok).Some?
    requires s.machine.state in {Starting, Started, Stopping, Stopped}
    ensures
      var kind, pc := s.handlers[h].kind, s.handlers[h].pc;
      HandlerStep(s, h, ok).value.machine.log == s.machine.log
        + (match pc
           case Begin =>
             (match kind
              case Connect => if ok then [] else [SecretsRequired]
              case Disconnect => Announced(s, {Starting, Started}, Stopping)
              case SetIp4Config => [Ip4Config]
              case Shutdown => [])
           case StopOld(_, Reset) => Announced(s, {Starting, Started, Stopping}, Stopped)
           case Arm => Announced(s, {Stopped}, Starting)
           case ReportSpawnFailure => AnnouncedFailure(s)
           case Settle => Announced(s, {Starting, Started, Stopping}, Stopped)
           case AnnounceStarted => Announced(s, {Starting}, Started)
           case _ => [])
  {
    FailureIsAnnounced(s.machine, ConnectFailed);
    assert s.machine.log + [] == s.machine.log;
  }
}
