/**
 * The connection lifecycle as a concurrent step system: D-Bus handlers
 * (service/src/plugin.rs), the watcher task of each session
 * (service/src/supervisor.rs) and the shutdown path (service/src/main.rs), interleaved
 * in any order over the shared state machine and the supervisor slot.
 *
 * A step is what runs between two await points. Each State operation is one step because
 * its lock covers the emission. The slot's lock is held by `TakeSlot` until `ReleaseOld`.
 */
module Lifecycle {
  import opened Options
  import opened ServiceStates
  import opened CertTrust

  const MAX_RETRIES: nat := 2

  // ----- The watcher task -----

  datatype WatcherPc =
    | Unstarted            // Connect has spawned the child; the task does not run yet
    | Selecting            // about to poll the stop channel
    | PolledStop           // the stop channel was empty and open; about to poll child.wait()
    | CleanExit            // the child succeeded; about to ask for Stopped
    | Draining             // the child failed; waiting for the output readers
    | Classifying(certChange: Option<string>, fast: bool)
    | Backoff              // about to poll the stop channel during the retry delay
    | PolledBackoff        // it was empty and open; about to poll the timer
    | Respawning
    | Feeding              // the new child runs; its stdin is being written
    | Prompting
    | Failing              // about to call fail
    | TearingDown(answer: bool)
    | Answering(answer: bool)
    | Leaving              // nothing left but to drop the stop receiver
    | Finished

  /**
   * One session. `senderOpen` says whether the Supervisor handle still exists; `pending` is
   * the stop channel's content (capacity 1); `answered` is the stop request's reply.
   * The remaining fields record what happened so far.
   */
  datatype Watcher = Watcher(
    pc: WatcherPc, childAlive: bool, senderOpen: bool, pending: bool, answered: bool, retries: nat,
    requests: nat, taken: bool, spawns: nat, prompts: nat)

  const NEW_WATCHER := Watcher(Unstarted, true, true, false, false, 0, 0, false, 1, 0)

  datatype WatcherEvent =
    | ChildDies            // the environment ends the child
    | Advance              // the task moves on by itself
    | SeeExit(success: bool)
    | Drained(certChange: Option<string>, fast: bool)
    | DelayOver
    | Spawned(ok: bool)

  /** The stop channel has a request or its last sender is gone, so recv() is ready. */
  predicate StopReady(w: Watcher) {
    w.pending || !w.senderOpen
  }

  /** recv() returns: with the request, if there is one. */
  function TakeStop(w: Watcher, pc: WatcherPc): Watcher {
    if w.pending then w.(pc := pc, pending := false, taken := true) else w.(pc := pc)
  }

  function Classified(w: Watcher, current: ServiceState): Watcher
    requires w.pc.Classifying?
  {
    match ClassifyExit(w.pc.certChange, w.pc.fast, current == Starting, w.retries, MAX_RETRIES)
    case Retry => w.(pc := Backoff, retries := w.retries + 1)
    case PromptCert(_) => w.(pc := Prompting)
    case GiveUp => w.(pc := Failing)
  }

  /** The events that can happen to a watcher where it stands. The scanner reports only digests. */
  predicate CanStep(w: Watcher, e: WatcherEvent) {
    match e
    case ChildDies => w.childAlive
    case Advance =>
      !(w.pc.Unstarted? || w.pc.Draining? || w.pc.Respawning? || w.pc.Finished? || (w.pc.TearingDown? && w.childAlive))
    case SeeExit(_) => w.pc.PolledStop? && !w.childAlive
    case Drained(change, _) => w.pc.Draining? && (change.Some? ==> IsDigest(change.value))
    case DelayOver => w.pc.PolledBackoff?
    case Spawned(_) => w.pc.Respawning?
  }

  function Advanced(w: Watcher, current: ServiceState): Watcher
    requires CanStep(w, Advance)
  {
    match w.pc
    case Selecting => if StopReady(w) then TakeStop(w, TearingDown(w.pending)) else w.(pc := PolledStop)
    case PolledStop => w.(pc := Selecting)
    case CleanExit => w.(pc := Leaving)
    case Classifying(_, _) => Classified(w, current)
    case Backoff => if StopReady(w) then TakeStop(w, Answering(w.pending)) else w.(pc := PolledBackoff)
    case PolledBackoff => w.(pc := Backoff)
    case Feeding => w.(pc := Selecting)
    case Prompting => w.(pc := Failing, prompts := w.prompts + 1)
    case Failing => w.(pc := Leaving)
    case TearingDown(answer) => w.(pc := Answering(answer))
    case Answering(answer) => w.(pc := Leaving, answered := w.answered || answer)
    case Leaving => w.(pc := Finished, pending := false)
  }

  /** One step of a watcher. */
  function WatcherStep(w: Watcher, e: WatcherEvent, current: ServiceState): Watcher
    requires CanStep(w, e)
  {
    match e
    case ChildDies => w.(childAlive := false)
    case Advance => Advanced(w, current)
    case SeeExit(success) => w.(pc := if success then CleanExit else Draining)
    case Drained(certChange, fast) => w.(pc := Classifying(certChange, fast))
    case DelayOver => w.(pc := Respawning)
    case Spawned(ok) =>
      if ok then w.(pc := Feeding, childAlive := true, spawns := w.spawns + 1) else w.(pc := Failing)
  }

  /** What the step asks of the state machine. */
  function CallOf(w: Watcher, e: WatcherEvent): Option<Call> {
    if e.Advance? && w.pc.CleanExit? then Some(To(Stopped))
    else if e.Advance? && w.pc.Failing? then Some(Fail(ConnectFailed))
    else None
  }

  // ----- The handlers -----

  datatype Kind = Connect | Disconnect | SetIp4Config | Shutdown

  /** Stopping the old session, with its handle and the slot's lock in hand. */
  datatype StopPhase =
    | Send                 // about to send the stop request
    | Await                // waiting for the answer
    | Reset                // Connect: about to ask for Stopped
    | Release              // about to drop the handle and the lock

  datatype HandlerPc =
    | Begin
    | TakeSlot
    | StopOld(session: nat, phase: StopPhase)
    | Arm                  // Connect: about to ask for Starting
    | Spawn
    | Install(session: nat, watched: bool) // the child is fed; once watched, its handle goes into the slot
    | ReportSpawnFailure
    | Settle               // Disconnect: about to ask for the final Stopped
    | AnnounceStarted      // SetIp4Config: Ip4Config is out; about to ask for Started
    | Returned

  datatype Handler = Handler(kind: Kind, pc: HandlerPc)

  datatype World = World(
    machine: Machine, slot: Option<nat>, lock: Option<nat>, watchers: seq<Watcher>, handlers: seq<Handler>)

  const START := World(INITIAL, None, None, [], [])

  datatype Action =
    | Invoke(kind: Kind)                 // a call arrives
    | Handle(h: nat, ok: bool)           // handler h moves; `ok` is the environment's answer
    | StopTimesOut(h: nat)               // the 10 s wait for the answer elapses
    | Watch(w: nat, event: WatcherEvent)

  function At(s: World, h: nat, pc: HandlerPc): World
    requires h < |s.handlers|
  {
    s.(handlers := s.handlers[h := s.handlers[h].(pc := pc)])
  }

  function Ask(s: World, c: Call): World {
    s.(machine := Apply(s.machine, c))
  }

  function SetWatcher(s: World, w: nat, v: Watcher): World
    requires w < |s.watchers|
  {
    s.(watchers := s.watchers[w := v])
  }

  function CloseSender(s: World, w: nat): World {
    if w < |s.watchers| then SetWatcher(s, w, s.watchers[w].(senderOpen := false)) else s
  }

  function AfterStop(kind: Kind, session: nat): HandlerPc {
    StopOld(session, if kind.Connect? then Reset else Release)
  }

  function AfterSlot(kind: Kind): HandlerPc {
    match kind
    case Connect => Arm
    case Disconnect => Settle
    case _ => Returned
  }

  /** Take the handle out of the slot and keep the lock, or find the slot empty. */
  function TakeSlotStep(s: World, h: nat): Option<World>
    requires h < |s.handlers|
  {
    if s.lock.Some? then None
    else if s.slot.None? then Some(At(s, h, AfterSlot(s.handlers[h].kind)))
    else Some(At(s, h, StopOld(s.slot.value, Send)).(slot := None, lock := Some(h)))
  }

  /** Queue a stop request; sending fails at once when the receiver is gone. */
  function SendStopStep(s: World, h: nat, w: nat): Option<World>
    requires h < |s.handlers|
  {
    if w >= |s.watchers| then None
    else if s.watchers[w].pc.Finished? then Some(At(s, h, AfterStop(s.handlers[h].kind, w)))
    else if s.watchers[w].pending then None
    else
      var asked := s.watchers[w].(pending := true, requests := s.watchers[w].requests + 1);
      Some(At(SetWatcher(s, w, asked), h, StopOld(w, Await)))
  }

  /** The wait ends when the answer arrives or its sender is dropped. */
  function AwaitAnswerStep(s: World, h: nat, w: nat): Option<World>
    requires h < |s.handlers|
  {
    if w < |s.watchers| && (s.watchers[w].answered || s.watchers[w].pc.Finished?)
    then Some(At(s, h, AfterStop(s.handlers[h].kind, w))) else None
  }

  function ReleaseOldStep(s: World, h: nat, w: nat): World
    requires h < |s.handlers|
  {
    At(CloseSender(s, w), h, AfterSlot(s.handlers[h].kind)).(lock := None)
  }

  function SpawnStep(s: World, h: nat): World
    requires h < |s.handlers|
  {
    At(s, h, Install(|s.watchers|, false)).(watchers := s.watchers + [NEW_WATCHER])
  }

  function FeedNewStep(s: World, h: nat, w: nat): Option<World>
    requires h < |s.handlers|
  {
    if w < |s.watchers| then Some(At(SetWatcher(s, w, s.watchers[w].(pc := Selecting)), h, Install(w, true))) else None
  }

  /** Storing the new handle drops whatever handle the slot held. */
  function StoreNewStep(s: World, h: nat, w: nat): Option<World>
    requires h < |s.handlers|
  {
    if s.lock.Some? then None
    else
      var t := if s.slot.Some? then CloseSender(s, s.slot.value) else s;
      Some(At(t, h, Returned).(slot := Some(w)))
  }

  datatype Plain = Plain(call: Option<Call>, next: HandlerPc)

  /** The steps that only ask the state machine for something. */
  function PlainMove(h: Handler, ok: bool): Option<Plain> {
    match h.pc
    case Begin =>
      (match h.kind
       case Connect => Some(if ok then Plain(None, TakeSlot) else Plain(Some(Emit(SecretsRequired)), Returned))
       case Disconnect => Some(Plain(Some(To(Stopping)), TakeSlot))
       case SetIp4Config => Some(Plain(Some(Emit(Ip4Config)), AnnounceStarted))
       case Shutdown => Some(Plain(None, TakeSlot)))
    case StopOld(w, Reset) => Some(Plain(Some(To(Stopped)), StopOld(w, Release)))
    case Arm => Some(Plain(Some(To(Starting)), Spawn))
    case Spawn => if ok then None else Some(Plain(None, ReportSpawnFailure))
    case ReportSpawnFailure => Some(Plain(Some(Fail(ConnectFailed)), Returned))
    case Settle => Some(Plain(Some(To(Stopped)), Returned))
    case AnnounceStarted => Some(Plain(Some(To(Started)), Returned))
    case _ => None
  }

  function PlainStep(s: World, h: nat, ok: bool): Option<World>
    requires h < |s.handlers|
  {
    var p := PlainMove(s.handlers[h], ok);
    if p.None? then None
    else if p.value.call.None? then Some(At(s, h, p.value.next))
    else Some(At(Ask(s, p.value.call.value), h, p.value.next))
  }

  function HandlerStep(s: World, h: nat, ok: bool): Option<World>
    requires h < |s.handlers|
  {
    match s.handlers[h].pc
    case TakeSlot => TakeSlotStep(s, h)
    case StopOld(w, Send) => SendStopStep(s, h, w)
    case StopOld(w, Await) => AwaitAnswerStep(s, h, w)
    case StopOld(w, Release) => Some(ReleaseOldStep(s, h, w))
    case Install(w, false) => FeedNewStep(s, h, w)
    case Install(w, true) => StoreNewStep(s, h, w)
    case Spawn => if ok then Some(SpawnStep(s, h)) else PlainStep(s, h, ok)
    case _ => PlainStep(s, h, ok)
  }

  function WatchStep(s: World, w: nat, event: WatcherEvent): World
    requires w < |s.watchers| && CanStep(s.watchers[w], event)
  {
    var t := SetWatcher(s, w, WatcherStep(s.watchers[w], event, s.machine.state));
    var call := CallOf(s.watchers[w], event);
    if call.Some? then Ask(t, call.value) else t
  }

  function Step(s: World, a: Action): Option<World> {
    match a
    case Invoke(kind) => Some(s.(handlers := s.handlers + [Handler(kind, Begin)]))
    case Handle(h, ok) => if h < |s.handlers| then HandlerStep(s, h, ok) else None
    case StopTimesOut(h) =>
      if h < |s.handlers| && s.handlers[h].pc.StopOld? && s.handlers[h].pc.phase.Await?
      then Some(At(s, h, AfterStop(s.handlers[h].kind, s.handlers[h].pc.session))) else None
    case Watch(w, event) =>
      if w < |s.watchers| && CanStep(s.watchers[w], event) then Some(WatchStep(s, w, event)) else None
  }

  // ----- Runs -----

  /** `states` is a run from the start under `actions`. */
  ghost predicate IsRun(states: seq<World>, actions: seq<Action>) {
    && |states| == |actions| + 1
    && states[0] == START
    && forall i :: 0 <= i < |actions| ==> Step(states[i], actions[i]) == Some(states[i + 1])
  }

  /** The watcher whose Supervisor handle this handler holds. */
  function Holds(h: Handler): Option<nat> {
    if h.pc.StopOld? || h.pc.Install? then Some(h.pc.session) else None
  }

  predicate HoldsLock(h: Handler) {
    h.pc.StopOld?
  }

  /** The watcher has made its last state call, if it makes any. */
  predicate Settled(w: Watcher) {
    w.pc.Leaving? || w.pc.Finished?
  }
}
