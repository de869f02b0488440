/** In what order messages are delivered, and when a failed write costs a message. */
module Delivery {
  import opened Notices
  import opened Protocol
  import opened Frames
  import opened Control
  import opened Ledger

  // --- What is carried ------------------------------------------------------------------------------------

  /** What a sender holds, then what is queued: the messages still to be delivered. */
  ghost function Carried(s: State): seq<Msg> {
    InFlight(s.senders) + s.queue
  }

  lemma SenderCarries(s: State, i: nat, a: SenderAct)
    requires ControlInv(s) && SenderEnabled(s, i, a)
    ensures Carried(s) == Held(s.senders[i]) + s.queue
    ensures Carried(SenderStep(s, i, a)) == Held(Advance(s, s.senders[i], a)) + SenderStep(s, i, a).queue
  {
    SenderFrame(s, i, a);
    OnlyLastHolds(s, i);
    InFlightAfter(s, i, Advance(s, s.senders[i], a));
  }

  /** A sender delivers the head of what is carried. */
  lemma SentCarries(s: State, i: nat)
    requires ControlInv(s) && SenderEnabled(s, i, WriteDone(true)) && !s.senders[i].pc.beat
    ensures var t := SenderStep(s, i, WriteDone(true));
      && Carried(s) == [s.senders[i].pc.m] + Carried(t)
      && t.hist == LogWrite(s.hist, s.senders[i]) && t.metrics.requeued == s.metrics.requeued
  {
    SenderCarries(s, i, WriteDone(true));
    WriteEffect(s, i, true);
  }

  /** A failed message goes from the head to the tail, or is lost if other messages have taken its room. */
  lemma SettleCarries(s: State, i: nat)
    requires ControlInv(s) && SenderEnabled(s, i, Settle) && !s.senders[i].pc.beat && SenderTyped(s.senders[i])
    ensures var m := s.senders[i].pc.m;
      var t := SenderStep(s, i, Settle);
      && Carried(s) == [m] + s.queue
      && if |s.queue| < s.cfg.queueSize then
           && Carried(t) == s.queue + [m] && t.hist == s.hist
           && t.metrics.requeued == s.metrics.requeued + 1
         else
           && Carried(t) == s.queue && t.hist == s.hist.(lost := s.hist.lost + [m])
           && t.metrics.requeued == s.metrics.requeued
  {
    SenderCarries(s, i, Settle);
    SettleEffect(s, i);
  }

  /** Whether a step delivers a user message or settles a failed one. */
  predicate MovesMessage(x: Sender, a: SenderAct) {
    (a == WriteDone(true) && x.pc.Writing? && !x.pc.beat) || (a.Settle? && x.pc.Failed? && !x.pc.beat)
  }

  /** What every other step leaves alone. */
  ghost predicate SameDeliveries(s: State, t: State) {
    && t.hist.written == s.hist.written && t.hist.lost == s.hist.lost && t.hist.swallowed == s.hist.swallowed
    && t.metrics.requeued == s.metrics.requeued
  }

  lemma TakeCarries(s: State, i: nat)
    requires ControlInv(s) && SenderEnabled(s, i, Take)
    ensures var t := SenderStep(s, i, Take); Carried(t) == Carried(s) && SameDeliveries(s, t)
  {
    SenderCarries(s, i, Take);
    TakeEffect(s, i);
    assert s.queue == [s.queue[0]] + s.queue[1..];
  }

  lemma BeatSettles(s: State, i: nat)
    requires ControlInv(s) && SenderEnabled(s, i, Settle) && s.senders[i].pc.beat && SenderTyped(s.senders[i])
    ensures var t := SenderStep(s, i, Settle); Carried(t) == Carried(s) && SameDeliveries(s, t)
  {
    SenderCarries(s, i, Settle);
    SettleEffect(s, i);
  }

  lemma WriteCarries(s: State, i: nat, ok: bool)
    requires ControlInv(s) && SenderEnabled(s, i, WriteDone(ok)) && (!ok || s.senders[i].pc.beat)
    ensures var t := SenderStep(s, i, WriteDone(ok)); Carried(t) == Carried(s) && SameDeliveries(s, t)
  {
    SenderCarries(s, i, WriteDone(ok));
    WriteEffect(s, i, ok);
  }

  lemma OtherCarries(s: State, i: nat, a: SenderAct)
    requires ControlInv(s) && TypesInv(s) && SenderEnabled(s, i, a) && !MovesMessage(s.senders[i], a)
    ensures var t := SenderStep(s, i, a); Carried(t) == Carried(s) && SameDeliveries(s, t)
  {
    assert SenderTyped(s.senders[i]);
    match a
    case Take => TakeCarries(s, i);
    case WriteDone(ok) => WriteCarries(s, i, ok);
    case Settle => BeatSettles(s, i);
    case _ =>
      SenderCarries(s, i, a);
      IdleEffect(s, i, a);
  }

  lemma ManagerCarries(s: State, a: ManagerAct)
    requires ManagerEnabled(s, a)
    ensures var t := ManagerStep(s, a); Carried(t) == Carried(s) && SameDeliveries(s, t)
  {
    ManagerFrame(s, a);
    ManagerKeepsInFlight(s, a);
  }

  // --- Order ----------------------------------------------------------------------------------------------

  /** No message was ever requeued, dropped or swallowed by a no-op connection. */
  ghost predicate Undisturbed(s: State) {
    s.metrics.requeued == 0 && s.hist.lost == [] && s.hist.swallowed == []
  }

  ghost predicate OrderInv(s: State) {
    Undisturbed(s) ==> s.hist.written + Carried(s) == s.hist.accepted
  }

  lemma SenderStepOrder(s: State, i: nat, a: SenderAct)
    requires ControlInv(s) && TypesInv(s) && OrderInv(s) && SenderEnabled(s, i, a)
    ensures OrderInv(SenderStep(s, i, a))
  {
    var x := s.senders[i];
    assert SenderTyped(x);
    SenderFrame(s, i, a);
    if a == WriteDone(true) && !x.pc.beat {
      SentCarries(s, i);
    } else if a.Settle? && !x.pc.beat {
      SettleCarries(s, i);
    } else {
      OtherCarries(s, i, a);
    }
  }

  lemma StepOrder(s: State, e: Event)
    requires ControlInv(s) && TypesInv(s) && OrderInv(s) && Enabled(s, e)
    ensures OrderInv(Next(s, e))
  {
    match e
    case Snd(i, a) => SenderStepOrder(s, i, a);
    case Mgr(a) =>
      ManagerFrame(s, a);
      ManagerCarries(s, a);
    case Put(p) =>
      OutsiderFrame(s, e);
      PutEffect(s, p);
    case _ => OutsiderFrame(s, e);
  }

  lemma {:induction false} OrderHolds(cfg: Config, es: seq<Event>)
    requires After(Init(cfg), es).Some?
    ensures OrderInv(After(Init(cfg), es).value)
  {
    if es != [] {
      var k := |es| - 1;
      OrderHolds(cfg, es[..k]);
      ControlHolds(cfg, es[..k]);
      LedgerHolds(cfg, es[..k]);
      StepOrder(After(Init(cfg), es[..k]).value, es[k]);
    }
  }

  /** While no write has failed on a user message and no no-op connection has served, messages are delivered in the
      order in which they were accepted: what is written, then held, then queued is the accept sequence. */
  lemma DeliveredInOrder(s: State)
    requires Reachable(s) && s.metrics.requeued == 0 && s.hist.lost == [] && s.hist.swallowed == []
    ensures s.hist.written + InFlight(s.senders) + s.queue == s.hist.accepted
  {
    var es :| After(Init(s.cfg), es) == Some(s);
    OrderHolds(s.cfg, es);
    Regroup(s.hist.written, InFlight(s.senders), s.queue);
  }

  // --- Losing a message -----------------------------------------------------------------------------------

  /** The queue has only grown, and only by accepted messages, since the holder of a message took it. */
  ghost predicate SenderRoom(s: State, x: Sender) {
    (x.pc.Writing? || x.pc.Failed?) && !x.pc.beat ==>
      && x.mark <= |s.hist.accepted|
      && x.room < s.cfg.queueSize
      && |s.queue| == x.room + |s.hist.accepted| - x.mark
  }

  ghost predicate RoomInv(s: State) {
    forall i :: 0 <= i < |s.senders| ==> SenderRoom(s, s.senders[i])
  }

  lemma AdvanceRoom(s: State, i: nat, a: SenderAct)
    requires LedgerInv(s) && SenderEnabled(s, i, a) && SenderRoom(s, s.senders[i])
    ensures SenderRoom(SenderStep(s, i, a), Advance(s, s.senders[i], a))
  {
    SenderFrame(s, i, a);
    match a
    case Take => TakeEffect(s, i);
    case WriteDone(ok) => WriteEffect(s, i, ok);
    case Settle =>
    case _ => IdleEffect(s, i, a);
  }

  lemma SenderStepRoom(s: State, i: nat, a: SenderAct)
    requires ControlInv(s) && LedgerInv(s) && RoomInv(s) && SenderEnabled(s, i, a)
    ensures RoomInv(SenderStep(s, i, a))
  {
    OnlyLastRuns(s);
    SenderFrame(s, i, a);
    assert SenderRoom(s, s.senders[i]);
    AdvanceRoom(s, i, a);
    var t := SenderStep(s, i, a);
    forall j | 0 <= j < |t.senders| ensures SenderRoom(t, t.senders[j]) {
      if j != i { assert t.senders[j].pc.Returned?; }
    }
  }

  lemma PutRoom(s: State, p: nat)
    requires RoomInv(s) && LedgerInv(s) && Enabled(s, Put(p))
    ensures RoomInv(Next(s, Put(p)))
  {
    OutsiderFrame(s, Put(p));
    PutEffect(s, p);
    var t := Next(s, Put(p));
    forall j | 0 <= j < |t.senders| ensures SenderRoom(t, t.senders[j]) {
      assert SenderRoom(s, s.senders[j]);
    }
  }

  lemma ManagerStepRoom(s: State, a: ManagerAct)
    requires RoomInv(s) && ManagerEnabled(s, a)
    ensures RoomInv(ManagerStep(s, a))
  {
    ManagerFrame(s, a);
    var t := ManagerStep(s, a);
    if a.Start? { StartEffect(s, a.ok); }
    if a.Cancel? { CancelEffect(s); }
    forall j | 0 <= j < |t.senders| ensures SenderRoom(t, t.senders[j]) {
      if j < |s.senders| { assert SenderRoom(s, s.senders[j]); }
    }
  }

  lemma StepRoom(s: State, e: Event)
    requires ControlInv(s) && LedgerInv(s) && RoomInv(s) && Enabled(s, e)
    ensures RoomInv(Next(s, e))
  {
    match e
    case Snd(i, a) => SenderStepRoom(s, i, a);
    case Mgr(a) => ManagerStepRoom(s, a);
    case Put(p) => PutRoom(s, p);
    case _ =>
      OutsiderFrame(s, e);
      forall j | 0 <= j < |s.senders| ensures SenderRoom(Next(s, e), s.senders[j]) {
        assert SenderRoom(s, s.senders[j]);
      }
  }

  lemma {:induction false} RoomHolds(cfg: Config, es: seq<Event>)
    requires After(Init(cfg), es).Some?
    ensures RoomInv(After(Init(cfg), es).value)
  {
    if es != [] {
      var k := |es| - 1;
      RoomHolds(cfg, es[..k]);
      ControlHolds(cfg, es[..k]);
      LedgerHolds(cfg, es[..k]);
      StepRoom(After(Init(cfg), es[..k]).value, es[k]);
    }
  }

  /** A failed message is dropped exactly when messages accepted since it was dequeued have filled the queue, so
      never without at least one of them. */
  lemma LostOnlyToAThief(s: State, i: nat)
    requires Reachable(s) && SenderEnabled(s, i, Settle) && !s.senders[i].pc.beat
    ensures var x := s.senders[i];
      var thieves := |s.hist.accepted| - x.mark;
      var t := SenderStep(s, i, Settle);
      && (t.hist.lost == s.hist.lost + [x.pc.m] <==> x.room + thieves == s.cfg.queueSize)
      && (t.hist.lost != s.hist.lost ==> thieves >= 1)
      && (t.hist.lost == s.hist.lost ==> t.queue == s.queue + [x.pc.m])
  {
    var es :| After(Init(s.cfg), es) == Some(s);
    RoomHolds(s.cfg, es);
    ReachableLedger(s);
    assert SenderRoom(s, s.senders[i]) && SenderTyped(s.senders[i]);
    SettleEffect(s, i);
  }

  // --- Failing without new messages -----------------------------------------------------------------------

  /** q with its head moved to the tail. */
  function Turn(q: seq<Msg>): seq<Msg> {
    if q == [] then [] else q[1..] + [q[0]]
  }

  /** q with its head moved to the tail k times. */
  function Rotate(q: seq<Msg>, k: nat): seq<Msg> {
    if k == 0 then q else Turn(Rotate(q, k - 1))
  }

  lemma {:induction false} RotateWithin(q: seq<Msg>, k: nat)
    requires k <= |q|
    ensures Rotate(q, k) == q[k..] + q[..k]
  {
    if k > 0 {
      RotateWithin(q, k - 1);
      assert q[k - 1..] == [q[k - 1]] + q[k..];
      assert q[..k] == q[..k - 1] + [q[k - 1]];
    }
  }

  lemma {:induction false} RotateTwice(q: seq<Msg>, j: nat, k: nat)
    ensures Rotate(Rotate(q, j), k) == Rotate(q, j + k)
  {
    if k > 0 { RotateTwice(q, j, k - 1); }
  }

  lemma RotateRound(q: seq<Msg>, k: nat)
    requires |q| <= k
    ensures Rotate(q, k) == Rotate(q, k - |q|)
  {
    RotateWithin(q, |q|);
    assert q[|q|..] + q[..|q|] == q;
    RotateTwice(q, |q|, k - |q|);
  }

  /** q cut at k mod its length, the two parts exchanged. */
  function Cut(q: seq<Msg>, k: nat): seq<Msg>
    requires q != []
  {
    var at := k % |q|;
    q[at..] + q[..at]
  }

  lemma Multiple(n: nat, d: int)
    requires 0 < n
    ensures (d >= 1 ==> n * d >= n) && (d <= -1 ==> n * d <= -(n as int))
  {
  }

  /** Division with remainder has one answer. */
  lemma Remainder(k: nat, n: nat, q: int, r: nat)
    requires 0 < n && r < n && k == n * q + r
    ensures k % n == r
  {
    assert n * (k / n - q) == r - k % n;
    Multiple(n, k / n - q);
  }

  lemma RemainderRound(k: nat, n: nat)
    requires 0 < n <= k
    ensures k % n == (k - n) % n
  {
    var q := (k - n) / n;
    assert k == n * (q + 1) + (k - n) % n;
    Remainder(k, n, q + 1, (k - n) % n);
  }

  lemma CutRound(q: seq<Msg>, k: nat)
    requires 0 < |q| <= k
    ensures Cut(q, k) == Cut(q, k - |q|)
  {
    RemainderRound(k, |q|);
  }

  lemma CutWithin(q: seq<Msg>, k: nat)
    requires k < |q|
    ensures Cut(q, k) == q[k..] + q[..k]
  {
    Remainder(k, |q|, 0, k);
  }

  /** Rotating n messages k times is cutting them at k mod n. */
  lemma {:induction false} RotateCuts(q: seq<Msg>, k: nat)
    requires q != []
    ensures Rotate(q, k) == Cut(q, k)
  {
    if k < |q| {
      RotateWithin(q, k);
      CutWithin(q, k);
    } else {
      RotateCuts(q, k - |q|);
      RotateRound(q, k);
      CutRound(q, k);
    }
  }

  /** Histories only grow. */
  ghost predicate Grows(s: State, t: State) {
    && s.hist.accepted <= t.hist.accepted && s.hist.written <= t.hist.written
    && s.hist.swallowed <= t.hist.swallowed && s.metrics.requeued <= t.metrics.requeued
  }

  lemma SenderStepGrows(s: State, i: nat, a: SenderAct)
    requires SenderEnabled(s, i, a)
    ensures Grows(s, SenderStep(s, i, a))
  {
    SenderFrame(s, i, a);
    match a
    case Take => TakeEffect(s, i);
    case WriteDone(ok) => WriteEffect(s, i, ok);
    case Settle => SettleEffect(s, i);
    case _ => IdleEffect(s, i, a);
  }

  lemma StepGrows(s: State, e: Event)
    requires Enabled(s, e)
    ensures Grows(s, Next(s, e))
  {
    match e
    case Snd(i, a) => SenderStepGrows(s, i, a);
    case Mgr(a) => ManagerFrame(s, a);
    case Put(p) =>
      OutsiderFrame(s, e);
      PutEffect(s, p);
    case _ => OutsiderFrame(s, e);
  }

  lemma {:induction false} RunGrows(s: State, es: seq<Event>)
    requires After(s, es).Some?
    ensures Grows(s, After(s, es).value)
  {
    if es != [] {
      var k := |es| - 1;
      RunGrows(s, es[..k]);
      StepGrows(After(s, es[..k]).value, es[k]);
    }
  }

  /** Nothing was accepted, delivered or swallowed in between. */
  ghost predicate NoTraffic(s: State, t: State) {
    t.hist.accepted == s.hist.accepted && t.hist.written == s.hist.written && t.hist.swallowed == s.hist.swallowed
  }

  lemma SenderStepRotates(s: State, i: nat, a: SenderAct)
    requires ControlInv(s) && TypesInv(s) && SenderEnabled(s, i, a) && NoTraffic(s, SenderStep(s, i, a))
    requires |Carried(s)| <= s.cfg.queueSize
    ensures var t := SenderStep(s, i, a);
      && t.hist.lost == s.hist.lost
      && if t.metrics.requeued == s.metrics.requeued then Carried(t) == Carried(s)
         else t.metrics.requeued == s.metrics.requeued + 1 && Carried(t) == Turn(Carried(s))
  {
    assert SenderTyped(s.senders[i]);
    if a == WriteDone(true) && !s.senders[i].pc.beat {
      SentCarries(s, i);
    } else if a.Settle? && !s.senders[i].pc.beat {
      SettleCarries(s, i);
    } else {
      OtherCarries(s, i, a);
    }
  }

  /** One step without traffic rotates what is carried once for each requeue, and loses nothing if it fits. */
  lemma StepRotates(s: State, e: Event)
    requires ControlInv(s) && TypesInv(s) && Enabled(s, e) && NoTraffic(s, Next(s, e))
    requires |Carried(s)| <= s.cfg.queueSize
    ensures var t := Next(s, e);
      && t.hist.lost == s.hist.lost
      && if t.metrics.requeued == s.metrics.requeued then Carried(t) == Carried(s)
         else t.metrics.requeued == s.metrics.requeued + 1 && Carried(t) == Turn(Carried(s))
  {
    match e
    case Snd(i, a) => SenderStepRotates(s, i, a);
    case Mgr(a) =>
      ManagerFrame(s, a);
      ManagerCarries(s, a);
    case Put(p) =>
      OutsiderFrame(s, e);
      PutEffect(s, p);
    case _ => OutsiderFrame(s, e);
  }

  lemma ReachableNext(s: State, e: Event)
    requires Reachable(s) && Enabled(s, e)
    ensures Reachable(Next(s, e)) && Next(s, e).cfg == s.cfg
  {
    var es :| After(Init(s.cfg), es) == Some(s);
    AfterSnoc(Init(s.cfg), es, e);
    ControlHolds(s.cfg, es + [e]);
  }

  /** Between s and t: what is carried was rotated once for each requeue, and nothing was lost. */
  ghost predicate Rotated(s: State, t: State) {
    && t.metrics.requeued >= s.metrics.requeued
    && Carried(t) == Rotate(Carried(s), t.metrics.requeued - s.metrics.requeued)
    && t.hist.lost == s.hist.lost
  }

  lemma {:induction false} RotateLength(q: seq<Msg>, k: nat)
    ensures |Rotate(q, k)| == |q|
  {
    if k > 0 { RotateLength(q, k - 1); }
  }

  lemma RotatedStep(s: State, u: State, e: Event)
    requires Rotated(s, u) && |Carried(s)| <= u.cfg.queueSize
    requires Reachable(u) && Enabled(u, e) && NoTraffic(u, Next(u, e))
    ensures Rotated(s, Next(u, e))
  {
    ReachableLedger(u);
    RotateLength(Carried(s), u.metrics.requeued - s.metrics.requeued);
    StepRotates(u, e);
    RotatedOnce(s, u, Next(u, e));
  }

  lemma RotatedOnce(s: State, u: State, t: State)
    requires Rotated(s, u) && t.hist.lost == u.hist.lost
    requires if t.metrics.requeued == u.metrics.requeued then Carried(t) == Carried(u)
             else t.metrics.requeued == u.metrics.requeued + 1 && Carried(t) == Turn(Carried(u))
    ensures Rotated(s, t)
  {
  }

  lemma NoTrafficSplits(s: State, u: State, t: State)
    requires Grows(s, u) && Grows(u, t) && NoTraffic(s, t)
    ensures NoTraffic(s, u) && NoTraffic(u, t)
  {
  }

  /** Over any stretch of a run in which nothing is accepted, delivered or swallowed, whatever fails, reconnects or
      dies: the messages held and queued are rotated left once for every requeue counted, and none is lost. */
  lemma {:induction false} FailuresOnlyRotate(s: State, es: seq<Event>)
    requires Reachable(s) && After(s, es).Some? && NoTraffic(s, After(s, es).value)
    requires |InFlight(s.senders) + s.queue| <= s.cfg.queueSize
    ensures var t := After(s, es).value;
      Rotated(s, t) && Reachable(t) && t.cfg == s.cfg
  {
    if es != [] {
      var k := |es| - 1;
      var u := After(s, es[..k]).value;
      RunGrows(s, es[..k]);
      StepGrows(u, es[k]);
      NoTrafficSplits(s, u, Next(u, es[k]));
      FailuresOnlyRotate(s, es[..k]);
      ReachableNext(u, es[k]);
      RotatedStep(s, u, es[k]);
    }
  }

  /** So with nothing held before or after, k requeues rotate the queue k times: they cut it at k mod its length. */
  lemma FailuresCutTheQueue(s: State, es: seq<Event>, t: State, k: nat)
    requires Reachable(s) && After(s, es) == Some(t) && NoTraffic(s, t)
    requires InFlight(s.senders) == [] && InFlight(t.senders) == [] && s.queue != []
    requires t.metrics.requeued == s.metrics.requeued + k
    ensures t.hist.lost == s.hist.lost && t.queue == Cut(s.queue, k)
  {
    ReachableLedger(s);
    CarriedAlone(s);
    FailuresOnlyRotate(s, es);
    QueueRotated(s, t, k);
    RotateCuts(s.queue, k);
  }

  lemma QueueRotated(s: State, t: State, k: nat)
    requires Rotated(s, t) && InFlight(s.senders) == [] && InFlight(t.senders) == []
    requires t.metrics.requeued == s.metrics.requeued + k
    ensures t.queue == Rotate(s.queue, k)
  {
    CarriedAlone(s);
    CarriedAlone(t);
  }

  lemma CarriedAlone(s: State)
    requires InFlight(s.senders) == []
    ensures InFlight(s.senders) + s.queue == s.queue && Carried(s) == s.queue
  {
  }
}
