/** The message ledger: every accepted message is in exactly one place, and what kinds of message are where. */
module Ledger {
  import opened Notices
  import opened Protocol
  import opened Frames
  import opened Control

  // --- Types of messages ----------------------------------------------------------------------------------

  /** A sender writes user messages from the queue, or its own heartbeat. */
  ghost predicate SenderTyped(x: Sender) {
    x.pc.Writing? || x.pc.Failed? ==> if x.pc.beat then x.pc.m == BEAT else UserType(x.pc.m.typ)
  }

  ghost predicate TypesInv(s: State) {
    && (forall p <- s.producers :: UserType(s.producers[p]))
    && (forall k :: 0 <= k < |s.queue| ==> UserType(s.queue[k].typ))
    && (forall i :: 0 <= i < |s.senders| ==> SenderTyped(s.senders[i]))
    && (forall k :: 0 <= k < |s.hist.accepted| ==>
          s.hist.accepted[k].id == k && UserType(s.hist.accepted[k].typ))
    && s.metrics.diagnosticDropped == s.metrics.unknown == 0
  }

  lemma SenderStepTypes(s: State, i: nat, a: SenderAct)
    requires TypesInv(s) && SenderEnabled(s, i, a)
    ensures TypesInv(SenderStep(s, i, a))
  {
    SenderFrame(s, i, a);
    var t := SenderStep(s, i, a);
    assert SenderTyped(s.senders[i]);
    assert SenderTyped(Advance(s, s.senders[i], a));
    SenderQueue(s, i, a);
    SenderCounts(s, i, a);
  }

  lemma SenderQueue(s: State, i: nat, a: SenderAct)
    requires SenderEnabled(s, i, a)
    ensures SenderStep(s, i, a).queue
            == if a.Take? then s.queue[1..]
               else if a.Settle? && Requeues(s, s.senders[i].pc.m) then s.queue + [s.senders[i].pc.m]
               else s.queue
  {
  }

  /** The counters that stay at 0. */
  lemma SenderCounts(s: State, i: nat, a: SenderAct)
    requires SenderEnabled(s, i, a) && SenderTyped(s.senders[i])
    ensures var t := SenderStep(s, i, a);
      t.metrics.diagnosticDropped == s.metrics.diagnosticDropped && t.metrics.unknown == s.metrics.unknown
  {
  }

  lemma ManagerStepTypes(s: State, a: ManagerAct)
    requires TypesInv(s) && ManagerEnabled(s, a)
    ensures TypesInv(ManagerStep(s, a))
  {
    ManagerFrame(s, a);
    match a
    case Start(ok) => StartEffect(s, ok);
    case Cancel => CancelEffect(s);
    case _ =>
  }

  lemma StepTypes(s: State, e: Event)
    requires TypesInv(s) && Enabled(s, e)
    ensures TypesInv(Next(s, e))
  {
    match e
    case Snd(i, a) => SenderStepTypes(s, i, a);
    case Mgr(a) => ManagerStepTypes(s, a);
    case _ =>
  }

  // --- The ledger -----------------------------------------------------------------------------------------

  ghost function Placed(h: History, queue: seq<Msg>, inFlight: seq<Msg>): multiset<Msg> {
    multiset(h.written) + multiset(h.lost) + multiset(h.swallowed) + multiset(queue) + multiset(inFlight)
  }

  ghost predicate LedgerInv(s: State) {
    && multiset(s.hist.accepted) == Placed(s.hist, s.queue, InFlight(s.senders))
    && |s.queue| <= s.cfg.queueSize
  }

  /** Only the last sender can hold a message. */
  lemma {:induction false} NothingHeld(xs: seq<Sender>)
    requires AllReturned(xs)
    ensures InFlight(xs) == []
  {
    if xs != [] { NothingHeld(xs[..|xs| - 1]); }
  }

  lemma OnlyLastHolds(s: State, i: nat)
    requires ControlInv(s) && i < |s.senders| && !s.senders[i].pc.Returned?
    ensures i == |s.senders| - 1 && InFlight(s.senders) == Held(s.senders[i])
  {
    OnlyLastRuns(s);
    NothingHeld(s.senders[..i]);
  }

  lemma InFlightAfter(s: State, i: nat, x: Sender)
    requires ControlInv(s) && i < |s.senders| && !s.senders[i].pc.Returned?
    ensures InFlight(s.senders[i := x]) == Held(x)
  {
    OnlyLastRuns(s);
    assert s.senders[i := x][..i] == s.senders[..i];
    NothingHeld(s.senders[..i]);
  }

  lemma TakePlaces(s: State, i: nat)
    requires SenderEnabled(s, i, Take)
    ensures var t := SenderStep(s, i, Take);
      Placed(t.hist, t.queue, Held(t.senders[i])) == Placed(s.hist, s.queue, Held(s.senders[i]))
  {
    PopSplits(s.queue);
    var t := SenderStep(s, i, Take);
    assert Held(t.senders[i]) == [s.queue[0]] && Held(s.senders[i]) == [];
  }

  lemma WritePlaces(s: State, i: nat, ok: bool)
    requires SenderEnabled(s, i, WriteDone(ok))
    ensures var t := SenderStep(s, i, WriteDone(ok));
      Placed(t.hist, t.queue, Held(t.senders[i])) == Placed(s.hist, s.queue, Held(s.senders[i]))
  {
    var x := s.senders[i];
    WriteEffect(s, i, ok);
    SenderFrame(s, i, WriteDone(ok));
    HeldAfterWrite(s, x, ok);
    if ok { LoggedPlaces(s.hist, x, s.queue); }
  }

  lemma HeldAfterWrite(s: State, x: Sender, ok: bool)
    requires x.pc.Writing?
    ensures Held(Advance(s, x, WriteDone(ok))) == if ok then [] else Held(x)
  {
  }

  lemma LoggedPlaces(h: History, x: Sender, queue: seq<Msg>)
    requires x.pc.Writing?
    ensures Placed(LogWrite(h, x), queue, []) == Placed(h, queue, Held(x))
  {
    LogPlaces(h, x);
  }

  lemma LogPlaces(h: History, x: Sender)
    requires x.pc.Writing?
    ensures var g := LogWrite(h, x);
      && g.lost == h.lost
      && multiset(g.written) + multiset(g.swallowed)
         == multiset(h.written) + multiset(h.swallowed) + multiset(Held(x))
  {
  }

  lemma SettlePlaces(s: State, i: nat)
    requires SenderEnabled(s, i, Settle) && SenderTyped(s.senders[i])
    ensures var t := SenderStep(s, i, Settle);
      Placed(t.hist, t.queue, Held(t.senders[i])) == Placed(s.hist, s.queue, Held(s.senders[i]))
  {
    var x := s.senders[i];
    SettleEffect(s, i);
    SenderFrame(s, i, Settle);
    assert Held(Advance(s, x, Settle)) == [];
    if Requeues(s, x.pc.m) {
      assert Held(x) == [x.pc.m];
    } else {
      LostPlaces(s.hist, x, s.queue);
    }
  }

  lemma LostPlaces(h: History, x: Sender, queue: seq<Msg>)
    requires x.pc.Failed?
    ensures Placed(LogLoss(h, x), queue, []) == Placed(h, queue, Held(x))
  {
    assert LogLoss(h, x).lost == h.lost + Held(x);
  }

  /** A sender's step moves at most one message from one place to another. */
  lemma SenderStepPlaces(s: State, i: nat, a: SenderAct)
    requires TypesInv(s) && SenderEnabled(s, i, a)
    ensures var t := SenderStep(s, i, a);
      Placed(t.hist, t.queue, Held(t.senders[i])) == Placed(s.hist, s.queue, Held(s.senders[i]))
  {
    match a
    case Take => TakePlaces(s, i);
    case WriteDone(ok) => WritePlaces(s, i, ok);
    case Settle =>
      assert SenderTyped(s.senders[i]);
      SettlePlaces(s, i);
    case _ =>
      assert SenderStep(s, i, a).hist == s.hist && SenderStep(s, i, a).queue == s.queue;
      assert Held(SenderStep(s, i, a).senders[i]) == Held(s.senders[i]) == [];
  }

  lemma SenderStepLedger(s: State, i: nat, a: SenderAct)
    requires ControlInv(s) && TypesInv(s) && LedgerInv(s) && SenderEnabled(s, i, a)
    ensures LedgerInv(SenderStep(s, i, a))
  {
    SenderFrame(s, i, a);
    OnlyLastHolds(s, i);
    InFlightAfter(s, i, Advance(s, s.senders[i], a));
    SenderStepPlaces(s, i, a);
    QueueBound(s, i, a);
  }

  lemma QueueBound(s: State, i: nat, a: SenderAct)
    requires |s.queue| <= s.cfg.queueSize && SenderEnabled(s, i, a)
    ensures |SenderStep(s, i, a).queue| <= s.cfg.queueSize
  {
    SenderQueue(s, i, a);
  }

  lemma {:induction false} InFlightOfAppend(xs: seq<Sender>, x: Sender)
    requires Held(x) == []
    ensures InFlight(xs + [x]) == InFlight(xs)
  {
    assert (xs + [x])[..|xs|] == xs;
  }

  lemma ManagerKeepsInFlight(s: State, a: ManagerAct)
    requires ManagerEnabled(s, a)
    ensures InFlight(ManagerStep(s, a).senders) == InFlight(s.senders)
  {
    ManagerFrame(s, a);
    match a
    case Start(ok) =>
      StartEffect(s, ok);
      var x :| ManagerStep(s, a).senders == s.senders + [x] && x == NewSender(x.noop, x.builtin, ok);
      InFlightOfAppend(s.senders, x);
    case Cancel =>
      CancelEffect(s);
      var k := |s.senders| - 1;
      assert ManagerStep(s, a).senders[..k] == s.senders[..k];
    case _ =>
  }

  lemma StepLedger(s: State, e: Event)
    requires ControlInv(s) && TypesInv(s) && LedgerInv(s) && Enabled(s, e)
    ensures LedgerInv(Next(s, e))
  {
    match e
    case Snd(i, a) => SenderStepLedger(s, i, a);
    case Mgr(a) =>
      ManagerFrame(s, a);
      ManagerKeepsInFlight(s, a);
    case Put(p) =>
      OutsiderFrame(s, e);
      PutPlaces(s, p);
    case _ => OutsiderFrame(s, e);
  }

  lemma PutPlaces(s: State, p: nat)
    requires LedgerInv(s) && Enabled(s, Put(p))
    ensures LedgerInv(Next(s, Put(p)))
  {
    OutsiderFrame(s, Put(p));
    PutEffect(s, p);
  }

  lemma {:induction false} LedgerHolds(cfg: Config, es: seq<Event>)
    requires After(Init(cfg), es).Some?
    ensures TypesInv(After(Init(cfg), es).value) && LedgerInv(After(Init(cfg), es).value)
  {
    if es != [] {
      var k := |es| - 1;
      var s := After(Init(cfg), es[..k]).value;
      LedgerHolds(cfg, es[..k]);
      ControlHolds(cfg, es[..k]);
      StepTypes(s, es[k]);
      StepLedger(s, es[k]);
    }
  }

  lemma ReachableLedger(s: State)
    requires Reachable(s)
    ensures ControlInv(s) && TypesInv(s) && LedgerInv(s)
  {
    var es :| After(Init(s.cfg), es) == Some(s);
    ControlHolds(s.cfg, es);
    LedgerHolds(s.cfg, es);
  }

  // --- Theorems -------------------------------------------------------------------------------------------

  lemma {:induction false} NumberedOnce(ms: seq<Msg>, k: nat)
    requires forall j :: 0 <= j < |ms| ==> ms[j].id == j
    requires k < |ms|
    ensures multiset(ms)[ms[k]] == 1
  {
    var n := |ms| - 1;
    assert ms == ms[..n] + [ms[n]];
    if k < n {
      NumberedOnce(ms[..n], k);
    } else {
      assert ms[k] !in ms[..n];
    }
  }

  /** Every accepted message is exactly once among the written, the dropped (on a failed requeue or by a no-op
      connection), the queued and the ones a sender holds; nothing else is anywhere; and the queue never exceeds
      its size, requeues included. */
  lemma EachMessageInOnePlace(s: State, m: Msg)
    requires Reachable(s)
    ensures var n := multiset(s.hist.written)[m] + multiset(s.hist.lost)[m] + multiset(s.hist.swallowed)[m]
                     + multiset(s.queue)[m] + multiset(InFlight(s.senders))[m];
      n == if m.id < |s.hist.accepted| && s.hist.accepted[m.id] == m then 1 else 0
    ensures |s.queue| <= s.cfg.queueSize
  {
    ReachableLedger(s);
    assert multiset(s.hist.accepted)[m] == Placed(s.hist, s.queue, InFlight(s.senders))[m];
    if m.id < |s.hist.accepted| && s.hist.accepted[m.id] == m {
      NumberedOnce(s.hist.accepted, m.id);
    } else {
      assert m !in s.hist.accepted;
    }
  }

  /** Only DataPlane and ControlPlane messages are ever queued, write is only called with those or a heartbeat, and
      so the branches for diagnostics (whose counter is never initialised) and unknown types are never taken. */
  lemma OnlyUserTypesQueued(s: State)
    requires Reachable(s)
    ensures forall m <- s.queue :: m.typ == DATA_PLANE || m.typ == CONTROL_PLANE
    ensures forall x <- s.senders | x.pc.Writing? || x.pc.Failed? ::
              if x.pc.beat then x.pc.m.typ == HEARTBEAT
              else x.pc.m.typ == DATA_PLANE || x.pc.m.typ == CONTROL_PLANE
    ensures s.metrics.diagnosticDropped == 0 && s.metrics.unknown == 0
  {
    ReachableLedger(s);
    forall x <- s.senders ensures SenderTyped(x) {
      var i :| 0 <= i < |s.senders| && s.senders[i] == x;
    }
  }
}
