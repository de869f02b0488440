/** The delivery protocol of audit.Client as a state machine.

    One event is one atomic action of one goroutine: a producer inside Send, the loop of a message sender, the
    connection manager (startConnManager, deferredConnect, manageSender and reconnect run one after the other on
    it), a closer started by closeAuditConn, or the consumer of Notify(). What create() and conn.Write return, and
    whether a background task could be started, is part of the event, so a run is any interleaving with any
    outcomes. */
module Protocol {
  import opened Notices

  // --- Messages -------------------------------------------------------------------------------------------

  type MsgType = t: int | 0 <= t < 256

  const AT_UNKNOWN: MsgType := 0
  const DATA_PLANE: MsgType := 1
  const CONTROL_PLANE: MsgType := 2
  const HEARTBEAT: MsgType := 3
  const DIAGNOSTIC: MsgType := 4

  /** The types Send lets a user send. */
  predicate Sendable(t: MsgType) {
    !(t == AT_UNKNOWN || t > CONTROL_PLANE)
  }

  /** The types write treats as user messages. */
  predicate UserType(t: MsgType) {
    t == DATA_PLANE || t == CONTROL_PLANE
  }

  /** An accepted message is identified by its position in the order of acceptance. */
  datatype Msg = Msg(typ: MsgType, id: nat)

  const BEAT := Msg(HEARTBEAT, 0)

  // --- State ----------------------------------------------------------------------------------------------

  datatype Config = Config(
    queueSize: nat,
    notifierCap: nat,
    maxClosers: nat,
    deferredConn: bool,
    linux: bool,
    wired: bool)       // newMsgSender accepts the client's channels and metrics
  {
    predicate Valid() {
      queueSize >= 1
    }
  }

  datatype Metrics = Metrics(
    sent: nat, requeued: nat, dropped: nat, errs: nat, beatDropped: nat, diagnosticDropped: nat,
    unknown: nat)      // times an unknown message type was logged

  /** Where the loop of one message sender stands. */
  datatype Pc =
    | Top                      // about to look at ctx.Err()
    | Select                   // in the select of serviceMsg
    | Writing(m: Msg, beat: bool)  // in conn.Write; beat: write was called with the sender's own heartbeat
    | Failed(m: Msg, beat: bool)   // conn.Write failed; about to requeue or drop
    | Reporting                // about to sendNotify the failure
    | Returned(clean: bool)    // the loop is over; clean: without an error

  datatype Wrote = User | Beat

  datatype Sender = Sender(
    noop: bool,                // its connection has type NoOP
    builtin: bool,             // the no-op sender of deferredConnect
    cancelled: bool,           // its context is cancelled
    pc: Pc,
    ticker: bool,              // ticker != nil
    log: seq<Wrote>,           // successful writes, in order
    failures: nat,             // failed writes
    mark: nat,                 // messages accepted when it last dequeued
    room: nat,                 // queue length just after it last dequeued
    late: nat)                 // messages it dequeued after its context was cancelled

  function NewSender(noop: bool, builtin: bool, started: bool): Sender {
    Sender(noop, builtin, false, if started then Top else Returned(false), false, [], 0, 0, 0, 0)
  }

  datatype Option<T> = None | Some(value: T)

  /** Where the connection manager stands. */
  datatype Manager =
    | Boot                          // New: the first createSender
    | Refused                       // New returned an error
    | Launching(noop: bool)         // launchManager
    | Deferring(fault: Fault)       // startDeferred
    | Unmanaged                     // New returned a client whose background task could not be started
    | NotifyStart(fault: Fault)     // deferredConnect: report the degraded start
    | StartingNoop                  // deferredConnect: noop.start
    | Attempting                    // reconnect: top of the retried operation
    | NotifyFault(fault: Fault)     // reconnect: report the failed attempt
    | DyingPut(fault: Fault)        // sendNotifyDead: TryPut
    | DyingGet(fault: Fault)        // sendNotifyDead: TryGet
    | StoringDead(fault: Fault)     // reconnect: clientDead.Store(true)
    | Cancelling(next: Option<bool>)   // deferredConnect: cancelNoop
    | JoiningNoop(next: Option<bool>)  // deferredConnect: <-noopDone
    | Starting(noop: bool)          // manageSender: sender.start
    | Awaiting                      // manageSender: <-
    | NotifyEnded                   // manageSender: report that the sender ended
    | NotifyBug                     // manageSender: report a sender that ended without an error
    | Stopped

  /** What happened so far; nothing in the protocol reads it. */
  datatype History = History(
    accepted: seq<Msg>,
    written: seq<Msg>,      // user messages successfully written to a real connection
    lost: seq<Msg>,         // user messages dropped because the queue was full on requeue
    swallowed: seq<Msg>,    // user messages written to a no-op connection
    beatsSent: nat,
    beatsLost: nat,
    beatsSwallowed: nat,
    faults: seq<Fault>,     // failed attempts inside reconnect
    closersStarted: nat,
    closersAtDeath: nat,    // closers running when sendNotifyDead was entered
    putFailures: nat)       // failed TryPuts inside sendNotifyDead

  datatype State = State(
    cfg: Config,
    queue: seq<Msg>,
    dead: bool,
    metrics: Metrics,
    notifier: Notifier,
    closers: nat,                    // closers.Running()
    published: bool,                 // New has returned the client
    producers: map<nat, MsgType>,    // Sends between the dead check and TryPut
    mgr: Manager,
    handoff: bool,                   // reconnect was called by deferredConnect
    senders: seq<Sender>,            // every sender ever started, oldest first
    hist: History)

  function Init(cfg: Config): State {
    State(cfg, [], false, Metrics(0, 0, 0, 0, 0, 0, 0), NewNotifier(cfg.notifierCap), 0, false, map[], Boot,
          false, [], History([], [], [], [], 0, 0, 0, [], 0, 0, 0))
  }

  /** The user messages a sender has dequeued and not yet disposed of. */
  function Held(x: Sender): seq<Msg> {
    if (x.pc.Writing? || x.pc.Failed?) && !x.pc.beat then [x.pc.m] else []
  }

  function InFlight(xs: seq<Sender>): seq<Msg> {
    if xs == [] then [] else InFlight(xs[..|xs| - 1]) + Held(xs[|xs| - 1])
  }

  // --- Events ---------------------------------------------------------------------------------------------

  /** What the user's create function returns. */
  datatype Outcome = Opens(noop: bool) | Fails(code: nat, retryable: bool)

  /** One step of the loop of a message sender. */
  datatype SenderAct =
    | LoopTop
    | Take
    | Tick
    | Quit                  // the select sees ctx.Done()
    | WriteDone(ok: bool)
    | Settle                // requeue or drop
    | Report

  /** One step of the connection manager. */
  datatype ManagerAct =
    | Create(outcome: Outcome)
    | Launch(ok: bool)      // ok: the background task was started
    | Notify
    | Start(ok: bool)       // ok: the sender's task was started
    | Join
    | DeathPut
    | DeathGet
    | StoreDead
    | Cancel

  datatype Event =
    | Check(p: nat, typ: MsgType, valid: bool)  // Send: dead check, then type check and Validate
    | Put(p: nat)                               // Send: TryPut
    | Snd(i: nat, step: SenderAct)
    | Mgr(act: ManagerAct)
    | CloserDone(failed: bool)
    | Read                                      // the consumer of Notify()

  /** The goroutine an event belongs to; the closers and the consumer of Notify() are the environment. */
  datatype Actor = Producer(p: nat) | Loop(i: nat) | Manager | Environment

  function ActorOf(e: Event): Actor {
    match e
    case Check(p, _, _) => Producer(p)
    case Put(p) => Producer(p)
    case Snd(i, _) => Loop(i)
    case Mgr(_) => Actor.Manager
    case CloserDone(_) => Environment
    case Read => Environment
  }

  // --- Producers ------------------------------------------------------------------------------------------

  function CheckStep(s: State, p: nat, typ: MsgType, valid: bool): State {
    if s.dead || !Sendable(typ) || !valid then s else s.(producers := s.producers[p := typ])
  }

  function PutStep(s: State, p: nat): State
    requires p in s.producers
  {
    var rest := s.producers - {p};
    if |s.queue| < s.cfg.queueSize then
      var m := Msg(s.producers[p], |s.hist.accepted|);
      s.(producers := rest, queue := s.queue + [m], hist := s.hist.(accepted := s.hist.accepted + [m]))
    else
      s.(producers := rest)
  }

  // --- Senders --------------------------------------------------------------------------------------------

  predicate SenderEnabled(s: State, i: nat, a: SenderAct) {
    i < |s.senders| &&
    var x := s.senders[i];
    match a
    case LoopTop => x.pc.Top?
    case Take => x.pc.Select? && s.queue != []
    case Tick => x.pc.Select? && x.ticker
    case Quit => x.pc.Select? && x.cancelled
    case WriteDone(ok) => x.pc.Writing? && (x.noop ==> ok)
    case Settle => x.pc.Failed?
    case Report => x.pc.Reporting?
  }

  /** The sender after its write succeeded: a first heartbeat follows a first user message and sets the ticker. */
  function AfterWrite(x: Sender): Sender
    requires x.pc.Writing?
  {
    if x.pc.beat then x.(pc := Top, ticker := true, log := x.log + [Beat])
    else x.(pc := if x.ticker then Top else Writing(BEAT, true), log := x.log + [User])
  }

  /** The counters write bumps for a message that a no-op connection swallowed or a failure dropped. */
  function CountDrop(c: Metrics, typ: MsgType): Metrics {
    if UserType(typ) then c.(dropped := c.dropped + 1)
    else if typ == HEARTBEAT then c.(beatDropped := c.beatDropped + 1)
    else if typ == DIAGNOSTIC then c.(diagnosticDropped := c.diagnosticDropped + 1)
    else c.(unknown := c.unknown + 1)
  }

  function CountWrite(c: Metrics, x: Sender): Metrics
    requires x.pc.Writing?
  {
    if x.noop then CountDrop(c, x.pc.m.typ) else c.(sent := c.sent + 1)
  }

  function LogWrite(h: History, x: Sender): History
    requires x.pc.Writing?
  {
    if x.pc.beat then
      if x.noop then h.(beatsSwallowed := h.beatsSwallowed + 1) else h.(beatsSent := h.beatsSent + 1)
    else
      if x.noop then h.(swallowed := h.swallowed + [x.pc.m]) else h.(written := h.written + [x.pc.m])
  }

  /** Whether write puts the failed message back on the queue. */
  predicate Requeues(s: State, m: Msg) {
    UserType(m.typ) && |s.queue| < s.cfg.queueSize
  }

  function LogLoss(h: History, x: Sender): History
    requires x.pc.Failed?
  {
    if x.pc.beat then h.(beatsLost := h.beatsLost + 1) else h.(lost := h.lost + [x.pc.m])
  }

  /** The sender itself after one of its steps. */
  function Advance(s: State, x: Sender, a: SenderAct): Sender
    requires a.Take? ==> s.queue != []
    requires a.WriteDone? ==> x.pc.Writing?
  {
    match a
    case LoopTop => x.(pc := if x.cancelled then Returned(true) else Select)
    case Take =>
      x.(pc := Writing(s.queue[0], false), mark := |s.hist.accepted|, room := |s.queue| - 1,
         late := if x.cancelled then x.late + 1 else x.late)
    case Tick => x.(pc := Writing(BEAT, true))
    case Quit => x.(pc := Returned(false))
    case WriteDone(ok) =>
      if ok then AfterWrite(x) else x.(pc := Failed(x.pc.m, x.pc.beat), failures := x.failures + 1)
    case Settle => x.(pc := Reporting)
    case Report => x.(pc := Returned(false))
  }

  function SenderStep(s: State, i: nat, a: SenderAct): State
    requires SenderEnabled(s, i, a)
  {
    var x := s.senders[i];
    var xs := s.senders[i := Advance(s, x, a)];
    match a
    case LoopTop | Tick | Quit => s.(senders := xs)
    case Take => s.(senders := xs, queue := s.queue[1..])
    case WriteDone(ok) =>
      if ok then s.(senders := xs, metrics := CountWrite(s.metrics, x), hist := LogWrite(s.hist, x))
      else s.(senders := xs, metrics := s.metrics.(errs := s.metrics.errs + 1))
    case Settle =>
      if Requeues(s, x.pc.m) then
        s.(senders := xs, queue := s.queue + [x.pc.m], metrics := s.metrics.(requeued := s.metrics.requeued + 1))
      else
        s.(senders := xs, metrics := CountDrop(s.metrics, x.pc.m.typ), hist := LogLoss(s.hist, x))
    case Report => s.(senders := xs, notifier := s.notifier.Offer(WriteFault))
  }

  // --- Manager --------------------------------------------------------------------------------------------

  /** createSender: the fault it returns, if any. */
  function CreateFaultOf(cfg: Config, o: Outcome): Option<Fault> {
    match o
    case Fails(code, retryable) => Some(CreateFault(code, retryable))
    case Opens(noop) =>
      if !cfg.linux && !noop then Some(PlatformFault)
      else if !cfg.wired then Some(WiringFault)
      else None
  }

  /** createSender launches CloseSend exactly when it opened a connection it then rejects. */
  function Spawned(cfg: Config, o: Outcome): nat {
    if o.Opens? && CreateFaultOf(cfg, o).Some? then 1 else 0
  }

  function AfterBoot(cfg: Config, o: Outcome): Manager {
    match CreateFaultOf(cfg, o)
    case None => Launching(o.noop)
    case Some(f) => if !cfg.deferredConn || f.Permanent() || !cfg.wired then Refused else Deferring(f)
  }

  /** Where reconnect's caller goes on: deferredConnect or manageSender. */
  function Resume(handoff: bool, next: Option<bool>): Manager {
    if handoff then Cancelling(next)
    else match next case None => Stopped case Some(noop) => Starting(noop)
  }

  function GiveUp(s: State, f: Fault): State {
    s.(mgr := DyingPut(f), hist := s.hist.(closersAtDeath := s.closers, putFailures := 0))
  }

  function BootStep(s: State, o: Outcome): State {
    var n := Spawned(s.cfg, o);
    s.(mgr := AfterBoot(s.cfg, o), closers := s.closers + n,
       hist := s.hist.(closersStarted := s.hist.closersStarted + n))
  }

  function AttemptStep(s: State, o: Outcome): State {
    if s.closers > s.cfg.maxClosers then GiveUp(s, ClosersFault)
    else
      match CreateFaultOf(s.cfg, o)
      case None => s.(mgr := Resume(s.handoff, Some(o.noop)))
      case Some(f) =>
        var n := Spawned(s.cfg, o);
        s.(mgr := NotifyFault(f), closers := s.closers + n,
           hist := s.hist.(closersStarted := s.hist.closersStarted + n, faults := s.hist.faults + [f]))
  }

  /** The notice the manager is about to send. */
  function PendingNotice(m: Manager): Notice
    requires m.NotifyStart? || m.NotifyFault? || m.NotifyEnded? || m.NotifyBug?
  {
    match m
    case NotifyStart(f) => InitialFault(f)
    case NotifyFault(f) => AttemptFault(f)
    case NotifyEnded => SenderEnded
    case NotifyBug => Bug
  }

  function NotifyStep(s: State): State
    requires s.mgr.NotifyStart? || s.mgr.NotifyFault? || s.mgr.NotifyEnded? || s.mgr.NotifyBug?
  {
    var n := s.notifier.Offer(PendingNotice(s.mgr));
    match s.mgr
    case NotifyStart(f) => s.(notifier := n, mgr := StartingNoop)
    case NotifyFault(f) =>
      if f.Permanent() then GiveUp(s, f).(notifier := n) else s.(notifier := n, mgr := Attempting)
    case NotifyEnded => s.(notifier := n, mgr := Attempting)
    case NotifyBug => s.(notifier := n, mgr := Stopped)
  }

  function JoinStep(s: State): State
    requires s.mgr.Awaiting? || s.mgr.JoiningNoop?
    requires s.senders != [] && s.senders[|s.senders| - 1].pc.Returned?
  {
    if s.mgr.JoiningNoop? then s.(handoff := false, mgr := Resume(false, s.mgr.next))
    else s.(mgr := if s.senders[|s.senders| - 1].pc.clean then NotifyBug else NotifyEnded)
  }

  predicate ManagerEnabled(s: State, a: ManagerAct) {
    match a
    case Create(_) => s.mgr.Boot? || s.mgr.Attempting?
    case Launch(_) => s.mgr.Launching? || s.mgr.Deferring?
    case Notify => s.mgr.NotifyStart? || s.mgr.NotifyFault? || s.mgr.NotifyEnded? || s.mgr.NotifyBug?
    case Start(_) => s.mgr.StartingNoop? || s.mgr.Starting?
    case Join =>
      && (s.mgr.Awaiting? || s.mgr.JoiningNoop?)
      && s.senders != [] && s.senders[|s.senders| - 1].pc.Returned?
    case DeathPut => s.mgr.DyingPut?
    case DeathGet => s.mgr.DyingGet?
    case StoreDead => s.mgr.StoringDead?
    case Cancel => s.mgr.Cancelling? && s.senders != []
  }

  function DeathPutStep(s: State, f: Fault): State {
    if s.notifier.cap == 0 then s.(notifier := s.notifier.Discard(Dead(f)), mgr := StoringDead(f))
    else if s.notifier.Full() then
      s.(mgr := DyingGet(f), hist := s.hist.(putFailures := s.hist.putFailures + 1))
    else s.(notifier := s.notifier.Land(Dead(f)), mgr := StoringDead(f))
  }

  function ManagerStep(s: State, a: ManagerAct): State
    requires ManagerEnabled(s, a)
  {
    match a
    case Create(o) => if s.mgr.Boot? then BootStep(s, o) else AttemptStep(s, o)
    case Launch(ok) =>
      s.(published := true,
         mgr := if !ok then Unmanaged
         else if s.mgr.Launching? then Starting(s.mgr.noop)
         else NotifyStart(s.mgr.fault))
    case Notify => NotifyStep(s)
    case Start(ok) =>
      if s.mgr.StartingNoop? then
        s.(senders := s.senders + [NewSender(true, true, ok)], mgr := Attempting, handoff := true)
      else
        s.(senders := s.senders + [NewSender(s.mgr.noop, false, ok)], mgr := Awaiting)
    case Join => JoinStep(s)
    case DeathPut => DeathPutStep(s, s.mgr.fault)
    case DeathGet => s.(notifier := s.notifier.Evict(), mgr := DyingPut(s.mgr.fault))
    case StoreDead => s.(dead := true, mgr := Resume(s.handoff, None))
    case Cancel =>
      var i := |s.senders| - 1;
      s.(senders := s.senders[i := s.senders[i].(cancelled := true)], mgr := JoiningNoop(s.mgr.next))
  }

  // --- The machine ----------------------------------------------------------------------------------------

  predicate Enabled(s: State, e: Event) {
    match e
    case Check(p, _, _) => s.published && p !in s.producers
    case Put(p) => p in s.producers
    case Snd(i, a) => SenderEnabled(s, i, a)
    case Mgr(a) => ManagerEnabled(s, a)
    case CloserDone(_) => s.closers > 0
    case Read => s.notifier.chan != []
  }

  function Next(s: State, e: Event): State
    requires Enabled(s, e)
  {
    match e
    case Check(p, typ, valid) => CheckStep(s, p, typ, valid)
    case Put(p) => PutStep(s, p)
    case Snd(i, a) => SenderStep(s, i, a)
    case Mgr(a) => ManagerStep(s, a)
    case CloserDone(failed) =>
      s.(closers := s.closers - 1, notifier := if failed then s.notifier.Offer(CloseFault) else s.notifier)
    case Read => s.(notifier := s.notifier.Read())
  }

  /** The state a list of events leads to, if every one of them is enabled when it comes. */
  function After(s: State, es: seq<Event>): Option<State> {
    if es == [] then Some(s)
    else
      var k := |es| - 1;
      match After(s, es[..k])
      case None => None
      case Some(t) => if Enabled(t, es[k]) then Some(Next(t, es[k])) else None
  }

  ghost predicate Reachable(s: State) {
    s.cfg.Valid() && exists es :: After(Init(s.cfg), es) == Some(s)
  }

  /** One event more. */
  function Then(r: Option<State>, e: Event): Option<State> {
    if r.Some? && Enabled(r.value, e) then Some(Next(r.value, e)) else None
  }

  lemma AfterLast(s: State, es: seq<Event>, e: Event)
    ensures After(s, es + [e]) == Then(After(s, es), e)
  {
    assert (es + [e])[..|es|] == es;
  }

  lemma AfterSnoc(s: State, es: seq<Event>, e: Event)
    requires After(s, es).Some? && Enabled(After(s, es).value, e)
    ensures After(s, es + [e]) == Some(Next(After(s, es).value, e))
  {
    AfterLast(s, es, e);
  }

  lemma {:induction false} AfterConcat(s: State, es: seq<Event>, fs: seq<Event>)
    requires After(s, es).Some?
    ensures After(s, es + fs) == After(After(s, es).value, fs)
  {
    if fs == [] {
      assert es + fs == es;
    } else {
      var k := |fs| - 1;
      AfterConcat(s, es, fs[..k]);
      assert es + fs == es + fs[..k] + [fs[k]] && fs == fs[..k] + [fs[k]];
      AfterLast(s, es + fs[..k], fs[k]);
      AfterLast(After(s, es).value, fs[..k], fs[k]);
    }
  }

  lemma FirstThen(s: State, e: Event, rest: seq<Event>)
    requires Enabled(s, e)
    ensures After(s, [e] + rest) == After(Next(s, e), rest)
  {
    AfterSnoc(s, [], e);
    assert [] + [e] == [e];
    AfterConcat(s, [e], rest);
  }
}
