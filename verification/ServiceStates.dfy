/**
 * The connection state machine (service/src/state.rs): the single owner of the
 * service state, of the published activity flag and of every StateChanged signal.
 *
 * `Machine` is the value of the locked `Inner`; `State` is the object that updates it.
 * The bus log also carries signals that other code emits without the lock.
 */
module ServiceStates {
  import opened Text

  datatype ServiceState = Unknown | Init | Shutdown | Starting | Started | Stopping | Stopped

  datatype FailureReason = LoginFailed | ConnectFailed | BadIpConfig

  datatype Signal =
    | StateChanged(state: ServiceState)
    | Failure(reason: FailureReason)
    | Ip4Config
    | SecretsRequired

  datatype Machine = Machine(state: ServiceState, active: bool, log: seq<Signal>)

  const INITIAL := Machine(Stopped, false, [])

  /** Which state may follow which. */
  predicate Legal(from: ServiceState, to: ServiceState) {
    match to
    case Starting => from in {Unknown, Init, Stopped}
    case Started => from == Starting
    case Stopping => from in {Starting, Started}
    case Stopped => from in {Starting, Started, Stopping}
    case _ => false
  }

  predicate Active(s: ServiceState) {
    s !in {Stopped, Init, Shutdown, Unknown}
  }

  /** What one locked operation, or one unlocked emission, does to the machine. */
  datatype Call = To(next: ServiceState) | Fail(reason: FailureReason) | Emit(signal: Signal)

  function Set(m: Machine, next: ServiceState): Machine {
    Machine(next, Active(next), m.log + [StateChanged(next)])
  }

  function Apply(m: Machine, c: Call): Machine {
    match c
    case To(next) =>
      if m.state == next || !Legal(m.state, next) then m else Set(m, next)
    case Fail(reason) =>
      if m.state !in {Starting, Started} then m
      else Set(m.(log := m.log + [Failure(reason)]), Stopped)
    case Emit(signal) =>
      m.(log := m.log + [signal])
  }

  /** Emissions made outside the lock are never StateChanged or Failure. */
  predicate WellFormedCall(c: Call) {
    c.Emit? ==> c.signal.Ip4Config? || c.signal.SecretsRequired?
  }

  function RunCalls(m: Machine, calls: seq<Call>): Machine
    decreases |calls|
  {
    if calls == [] then m else RunCalls(Apply(m, calls[0]), calls[1..])
  }

  /** The state machine object, updated in place under its lock. */
  class State {
    var state: ServiceState
    var active: bool
    var log: seq<Signal>

    ghost function View(): Machine
      reads this
    {
      Machine(state, active, log)
    }

    constructor ()
      ensures View() == INITIAL
    {
      state, active, log := Stopped, false, [];
    }

    /** The one place where the state changes: the flag and the log follow it. */
    method Set(next: ServiceState)
      modifies this
      ensures state == next && active == Active(next)
      ensures log == old(log) + [StateChanged(next)]
    {
      state := next;
      active := !(next in {Stopped, Init, Shutdown, Unknown});
      log := log + [StateChanged(next)];
    }

    method To(next: ServiceState)
      modifies this
      ensures View() == Apply(old(View()), Call.To(next))
    {
      if state == next {
        return;
      }
      if !Legal(state, next) {
        return;
      }
      Set(next);
    }

    method Fail(reason: FailureReason)
      modifies this
      ensures View() == Apply(old(View()), Call.Fail(reason))
      ensures old(state) in {Starting, Started} ==>
        state == Stopped && !active && log == old(log) + [Failure(reason), StateChanged(Stopped)]
      ensures old(state) !in {Starting, Started} ==> View() == old(View())
    {
      if state !in {Starting, Started} {
        return;
      }
      log := log + [Failure(reason)];
      Set(Stopped);
      assert log == old(log) + [Failure(reason), StateChanged(Stopped)];
    }
  }

  // ----- What the log may look like -----

  /** The states announced, in order. */
  function StateChanges(log: seq<Signal>): seq<ServiceState> {
    if log == [] then []
    else
      var front := StateChanges(log[..|log| - 1]);
      var last := log[|log| - 1];
      if last.StateChanged? then front + [last.state] else front
  }

  /** The signals emitted while holding the lock, in order. */
  function LockSignals(log: seq<Signal>): seq<Signal> {
    if log == [] then []
    else
      var front := LockSignals(log[..|log| - 1]);
      var last := log[|log| - 1];
      if last.StateChanged? || last.Failure? then front + [last] else front
  }

  function Count<T(==)>(x: T, s: seq<T>): nat {
    if s == [] then 0
    else Count(x, s[..|s| - 1]) + if s[|s| - 1] == x then 1 else 0
  }

  /** One connection as NetworkManager sees it: Starting Started? Stopping? Stopped. */
  datatype Cycle = Cycle(reachedStarted: bool, stoppedOnRequest: bool)

  function CycleWord(c: Cycle): seq<ServiceState> {
    [Starting] + (if c.reachedStarted then [Started] else [])
    + (if c.stoppedOnRequest then [Stopping] else []) + [Stopped]
  }

  function Words(cs: seq<Cycle>): seq<ServiceState> {
    if cs == [] then [] else CycleWord(cs[0]) + Words(cs[1..])
  }

  /** A prefix of (Starting Started? Stopping? Stopped)*. */
  ghost predicate PrefixOfCycles(w: seq<ServiceState>) {
    exists cs :: w <= Words(cs)
  }

  /** `w` follows legal edges from `from`. */
  predicate LegalPath(from: ServiceState, w: seq<ServiceState>)
    decreases |w|
  {
    w == [] || (Legal(from, w[0]) && LegalPath(w[0], w[1..]))
  }

  function Last(from: ServiceState, w: seq<ServiceState>): ServiceState {
    if w == [] then from else w[|w| - 1]
  }

  lemma {:induction false} LegalPathExtend(from: ServiceState, w: seq<ServiceState>, s: ServiceState)
    requires LegalPath(from, w) && Legal(Last(from, w), s)
    ensures LegalPath(from, w + [s])
    decreases |w|
  {
    if w == [] {
      assert (w + [s])[1..] == [];
    } else {
      LegalPathExtend(w[0], w[1..], s);
      assert (w + [s])[1..] == w[1..] + [s];
    }
  }

  /** What is left of a cycle once it has announced `from`. */
  function Rest(from: ServiceState, c: Cycle): seq<ServiceState> {
    match from
    case Starting => CycleWord(c)[1..]
    case Started => if c.stoppedOnRequest then [Stopping, Stopped] else [Stopped]
    case Stopping => [Stopped]
    case _ => []
  }

  /** The cycle in which `next` follows `from`, given how it goes on after `next`. */
  function Before(from: ServiceState, next: ServiceState, after: Cycle): Cycle {
    if from == Started then Cycle(true, next == Stopping)
    else Cycle(next == Started, next == Stopping || (next == Started && after.stoppedOnRequest))
  }

  lemma RestBefore(from: ServiceState, next: ServiceState, after: Cycle)
    requires from in {Starting, Started, Stopping} && Legal(from, next)
    ensures Rest(from, Before(from, next, after)) == [next] + Rest(next, after)
  {
  }

  lemma FirstCycle(c: Cycle, cs: seq<Cycle>)
    ensures Words([c] + cs) == [Starting] + (Rest(Starting, c) + Words(cs))
  {
    assert ([c] + cs)[1..] == cs;
    assert CycleWord(c) == [Starting] + Rest(Starting, c);
  }

  /** What `c` and `cs` are once the announcement of `next` after `from` goes before them. */
  function Extended(from: ServiceState, next: ServiceState, c: Cycle, cs: seq<Cycle>): (Cycle, seq<Cycle>) {
    if from == Stopped then (c, [c] + cs) else (Before(from, next, c), cs)
  }

  lemma ExtendedCovers(from: ServiceState, next: ServiceState, c: Cycle, cs: seq<Cycle>)
    requires from in {Starting, Started, Stopping, Stopped} && Legal(from, next)
    ensures
      var (d, ds) := Extended(from, next, c, cs);
      Rest(from, d) + Words(ds) == [next] + (Rest(next, c) + Words(cs))
  {
    if from == Stopped {
      FirstCycle(c, cs);
      assert Rest(Stopped, c) + Words([c] + cs) == Words([c] + cs);
    } else {
      RestBefore(from, next, c);
      ConcatAssociates([next], Rest(next, c), Words(cs));
    }
  }

  lemma {:induction false} LegalPathContinues(from: ServiceState, w: seq<ServiceState>)
    returns (c: Cycle, cs: seq<Cycle>)
    requires from in {Starting, Started, Stopping, Stopped} && LegalPath(from, w)
    ensures w <= Rest(from, c) + Words(cs)
    decreases |w|
  {
    c, cs := Cycle(false, false), [];
    if w == [] {
    } else {
      c, cs := LegalPathContinues(w[0], w[1..]);
      ExtendedCovers(from, w[0], c, cs);
      assert w == [w[0]] + w[1..] <= [w[0]] + (Rest(w[0], c) + Words(cs));
      var (d, ds) := Extended(from, w[0], c, cs);
      c, cs := d, ds;
    }
  }

  /** Every legal path from Stopped is a prefix of a sequence of connection cycles. */
  lemma LegalPathIsPrefix(w: seq<ServiceState>)
    requires LegalPath(Stopped, w)
    ensures PrefixOfCycles(w)
  {
    var c, cs := LegalPathContinues(Stopped, w);
    assert Rest(Stopped, c) + Words(cs) == Words(cs);
  }

  lemma {:induction false} PrefixIsLegalPath(w: seq<ServiceState>, cs: seq<Cycle>)
    requires w <= Words(cs)
    ensures LegalPath(Stopped, w)
    decreases |cs|
  {
    if cs == [] {
    } else {
      var c := CycleWord(cs[0]);
      if |w| <= |c| {
        LegalPathOfCycle(cs[0], w);
      } else {
        assert w == c + w[|c|..];
        PrefixIsLegalPath(w[|c|..], cs[1..]);
        CycleThenPath(cs[0], w[|c|..]);
      }
    }
  }

  lemma LegalPathOfCycle(c: Cycle, w: seq<ServiceState>)
    requires w <= CycleWord(c)
    ensures LegalPath(Stopped, w)
  {
    CycleThenPath(c, []);
    assert CycleWord(c) + [] == CycleWord(c);
    LegalPathTake(Stopped, CycleWord(c), |w|);
    assert CycleWord(c)[..|w|] == w;
  }

  lemma {:induction false} LegalPathTake(from: ServiceState, w: seq<ServiceState>, n: nat)
    requires n <= |w| && LegalPath(from, w)
    ensures LegalPath(from, w[..n])
    decreases n
  {
    if n == 0 {
    } else {
      LegalPathTake(w[0], w[1..], n - 1);
      assert w[..n][1..] == w[1..][..n - 1];
    }
  }

  lemma LegalPathPrepend(from: ServiceState, next: ServiceState, w: seq<ServiceState>)
    requires Legal(from, next) && LegalPath(next, w)
    ensures LegalPath(from, [next] + w)
  {
    assert ([next] + w)[1..] == w;
  }

  lemma CycleThenPath(c: Cycle, w: seq<ServiceState>)
    requires LegalPath(Stopped, w)
    ensures LegalPath(Stopped, CycleWord(c) + w)
  {
    var last := if c.reachedStarted then Started else Starting;
    var end := if c.stoppedOnRequest then [Stopping, Stopped] + w else [Stopped] + w;
    EndOfCycle(last, c.stoppedOnRequest, w);
    if c.reachedStarted {
      LegalPathPrepend(Starting, Started, end);
      LegalPathPrepend(Stopped, Starting, [Started] + end);
      assert CycleWord(c) + w == [Starting] + ([Started] + end);
    } else {
      LegalPathPrepend(Stopped, Starting, end);
      assert CycleWord(c) + w == [Starting] + end;
    }
  }

  lemma EndOfCycle(last: ServiceState, stopping: bool, w: seq<ServiceState>)
    requires last in {Starting, Started} && LegalPath(Stopped, w)
    ensures LegalPath(last, if stopping then [Stopping, Stopped] + w else [Stopped] + w)
  {
    LegalPathPrepend(last, Stopped, w);
    if stopping {
      LegalPathPrepend(Stopping, Stopped, w);
      LegalPathPrepend(last, Stopping, [Stopped] + w);
      assert [Stopping, Stopped] + w == [Stopping] + ([Stopped] + w);
    }
  }

  // ----- The machine's invariant -----

  /** Each Failure sits directly between Starting or Started and Stopped. */
  predicate FailuresPlaced(locked: seq<Signal>) {
    forall i :: 0 <= i < |locked| && locked[i].Failure? ==>
      && 0 < i < |locked| - 1
      && locked[i - 1] in {StateChanged(Starting), StateChanged(Started)}
      && locked[i + 1] == StateChanged(Stopped)
  }

  function StoppedOrLast(locked: seq<Signal>): Signal {
    if locked == [] then StateChanged(Stopped) else locked[|locked| - 1]
  }

  /** What holds between any two locked operations. */
  ghost predicate MachineInv(m: Machine) {
    var w := StateChanges(m.log);
    var locked := LockSignals(m.log);
    && LegalPath(Stopped, w)
    && m.state == Last(Stopped, w)
    && m.state in {Starting, Started, Stopping, Stopped}
    && m.active == Active(m.state)
    && Count(Starting, w) == Count(Stopped, w) + (if m.active then 1 else 0)
    && FailuresPlaced(locked)
    && StoppedOrLast(locked) == StateChanged(m.state)
  }

  lemma AppendSignal(log: seq<Signal>, x: Signal)
    ensures StateChanges(log + [x]) == StateChanges(log) + if x.StateChanged? then [x.state] else []
    ensures LockSignals(log + [x]) == LockSignals(log) + if x.StateChanged? || x.Failure? then [x] else []
  {
    assert (log + [x])[..|log|] == log;
  }

  lemma CountAppend<T>(x: T, s: seq<T>, y: T)
    ensures Count(x, s + [y]) == Count(x, s) + if y == x then 1 else 0
  {
    assert (s + [y])[..|s|] == s;
  }

  lemma SetKeepsInv(m: Machine, next: ServiceState)
    requires MachineInv(m) && Legal(m.state, next)
    ensures MachineInv(Set(m, next))
  {
    var w := StateChanges(m.log);
    AppendSignal(m.log, StateChanged(next));
    LegalPathExtend(Stopped, w, next);
    CountAppend(Starting, w, next);
    CountAppend(Stopped, w, next);
  }

  lemma FailKeepsInv(m: Machine, reason: FailureReason)
    requires MachineInv(m) && m.state in {Starting, Started}
    ensures MachineInv(Apply(m, Fail(reason)))
  {
    var w, locked := StateChanges(m.log), LockSignals(m.log);
    var failed := m.log + [Failure(reason)];
    AppendSignal(m.log, Failure(reason));
    AppendSignal(failed, StateChanged(Stopped));
    assert Apply(m, Fail(reason)) == Machine(Stopped, false, failed + [StateChanged(Stopped)]);
    LegalPathExtend(Stopped, w, Stopped);
    CountAppend(Starting, w, Stopped);
    CountAppend(Stopped, w, Stopped);
    FailureGoesBefore(locked, reason);
    assert locked + [Failure(reason)] + [StateChanged(Stopped)] == locked + [Failure(reason), StateChanged(Stopped)];
  }

  lemma FailureGoesBefore(locked: seq<Signal>, reason: FailureReason)
    requires FailuresPlaced(locked)
    requires StoppedOrLast(locked) in {StateChanged(Starting), StateChanged(Started)}
    ensures FailuresPlaced(locked + [Failure(reason), StateChanged(Stopped)])
  {
  }

  /** Every locked operation and every unlocked emission keeps the invariant. */
  lemma ApplyKeepsInv(m: Machine, c: Call)
    requires MachineInv(m) && WellFormedCall(c)
    ensures MachineInv(Apply(m, c))
  {
    match c
    case To(next) =>
      if m.state != next && Legal(m.state, next) {
        SetKeepsInv(m, next);
      }
    case Fail(reason) =>
      if m.state in {Starting, Started} {
        FailKeepsInv(m, reason);
      }
    case Emit(signal) =>
      AppendSignal(m.log, signal);
  }

  lemma {:induction false} CallsKeepInv(m: Machine, calls: seq<Call>)
    requires MachineInv(m) && forall c <- calls :: WellFormedCall(c)
    ensures MachineInv(RunCalls(m, calls))
    decreases |calls|
  {
    if calls == [] {
    } else {
      ApplyKeepsInv(m, calls[0]);
      CallsKeepInv(Apply(m, calls[0]), calls[1..]);
    }
  }

  // ----- The log language, exactly -----

  /**
   * Whatever is asked of the machine, in any order: the announced states are a prefix of
   * (Starting Started? Stopping? Stopped)*, failures sit where they belong, and the published
   * flag is the number of Starting minus the number of Stopped.
   */
  lemma LogIsInLanguage(calls: seq<Call>)
    requires forall c <- calls :: WellFormedCall(c)
    ensures
      var m := RunCalls(INITIAL, calls);
      var w := StateChanges(m.log);
      && PrefixOfCycles(w)
      && FailuresPlaced(LockSignals(m.log))
      && m.state == Last(Stopped, w)
      && Count(Starting, w) - Count(Stopped, w) == if m.active then 1 else 0
  {
    CallsKeepInv(INITIAL, calls);
    LegalPathIsPrefix(StateChanges(RunCalls(INITIAL, calls).log));
  }

  /** Ask for each state of `w` in turn. */
  function Requests(w: seq<ServiceState>): seq<Call> {
    if w == [] then [] else [To(w[0])] + Requests(w[1..])
  }

  lemma RunCallsCons(m: Machine, c: Call, calls: seq<Call>)
    ensures RunCalls(m, [c] + calls) == RunCalls(Apply(m, c), calls)
  {
    assert ([c] + calls)[1..] == calls;
  }

  lemma {:induction false} LanguageIsReached(m: Machine, w: seq<ServiceState>)
    requires LegalPath(m.state, w)
    ensures StateChanges(RunCalls(m, Requests(w)).log) == StateChanges(m.log) + w
    ensures forall c <- Requests(w) :: WellFormedCall(c)
    decreases |w|
  {
    if w == [] {
    } else {
      var next := Apply(m, To(w[0]));
      AppendSignal(m.log, StateChanged(w[0]));
      LanguageIsReached(next, w[1..]);
      RunCallsCons(m, To(w[0]), Requests(w[1..]));
      assert StateChanges(m.log) + [w[0]] + w[1..] == StateChanges(m.log) + w;
    }
  }

  /** A word is announced by some requests if and only if it is a prefix of cycles. */
  lemma LogLanguage(w: seq<ServiceState>)
    ensures PrefixOfCycles(w) <==>
      exists calls ::
        && (forall c <- calls :: WellFormedCall(c))
        && StateChanges(RunCalls(INITIAL, calls).log) == w
  {
    if PrefixOfCycles(w) {
      var cs :| w <= Words(cs);
      PrefixIsLegalPath(w, cs);
      LanguageIsReached(INITIAL, w);
      assert StateChanges(INITIAL.log) + w == w;
    }
    forall calls | (forall c <- calls :: WellFormedCall(c))
      && StateChanges(RunCalls(INITIAL, calls).log) == w
      ensures PrefixOfCycles(w)
    {
      LogIsInLanguage(calls);
    }
  }

  // ----- Failures are announced -----

  /** While connecting or connected a failure is announced with its reason, and the machine settles in Stopped. */
  lemma FailureIsAnnounced(m: Machine, reason: FailureReason)
    ensures m.state in {Starting, Started} ==>
      && Apply(m, Fail(reason)).log == m.log + [Failure(reason), StateChanged(Stopped)]
      && Apply(m, Fail(reason)).state == Stopped
    ensures m.state !in {Starting, Started} ==> Apply(m, Fail(reason)) == m
  {
    assert m.log + [Failure(reason)] + [StateChanged(Stopped)] == m.log + [Failure(reason), StateChanged(Stopped)];
  }
}
