/** What each kind of event leaves alone. */
module Frames {
  import opened Notices
  import opened Protocol

  /** What a sender's step leaves alone, and the one sender it changes. */
  ghost predicate Moved(s: State, i: nat, x: Sender, t: State) {
    && i < |s.senders| && t.senders == s.senders[i := x]
    && t.mgr == s.mgr && t.handoff == s.handoff && t.published == s.published && t.producers == s.producers
    && t.cfg == s.cfg && t.dead == s.dead && t.closers == s.closers
  }

  lemma WriteMoves(s: State, i: nat, ok: bool)
    requires SenderEnabled(s, i, WriteDone(ok))
    ensures Moved(s, i, Advance(s, s.senders[i], WriteDone(ok)), SenderStep(s, i, WriteDone(ok)))
  {
  }

  lemma SettleMoves(s: State, i: nat)
    requires SenderEnabled(s, i, Settle)
    ensures Moved(s, i, Advance(s, s.senders[i], Settle), SenderStep(s, i, Settle))
  {
  }

  lemma IdleMoves(s: State, i: nat, a: SenderAct)
    requires SenderEnabled(s, i, a) && !a.WriteDone? && !a.Settle?
    ensures Moved(s, i, Advance(s, s.senders[i], a), SenderStep(s, i, a))
  {
  }

  lemma StepMoves(s: State, i: nat, a: SenderAct)
    requires SenderEnabled(s, i, a)
    ensures Moved(s, i, Advance(s, s.senders[i], a), SenderStep(s, i, a))
  {
    match a
    case WriteDone(ok) => WriteMoves(s, i, ok);
    case Settle => SettleMoves(s, i);
    case _ => IdleMoves(s, i, a);
  }

  lemma SenderHistory(s: State, i: nat, a: SenderAct)
    requires SenderEnabled(s, i, a)
    ensures var t := SenderStep(s, i, a);
      && t.hist.accepted == s.hist.accepted && t.hist.faults == s.hist.faults
      && t.hist.closersStarted == s.hist.closersStarted && t.hist.closersAtDeath == s.hist.closersAtDeath
      && t.hist.putFailures == s.hist.putFailures
      && t.notifier.read == s.notifier.read
      && (a.Report? || t.notifier == s.notifier)
  {
    if a.WriteDone? && a.ok { WriteHistory(s.hist, s.senders[i]); }
  }

  lemma WriteHistory(h: History, x: Sender)
    requires x.pc.Writing?
    ensures LogWrite(h, x) == h.(written := LogWrite(h, x).written, swallowed := LogWrite(h, x).swallowed,
                                 beatsSent := LogWrite(h, x).beatsSent,
                                 beatsSwallowed := LogWrite(h, x).beatsSwallowed)
  {
  }

  /** A sender's step changes nothing of the manager's, and no sender but itself. */
  lemma SenderFrame(s: State, i: nat, a: SenderAct)
    requires SenderEnabled(s, i, a)
    ensures var t := SenderStep(s, i, a);
      && t.senders == s.senders[i := Advance(s, s.senders[i], a)]
      && t.mgr == s.mgr && t.handoff == s.handoff && t.published == s.published && t.producers == s.producers
      && t.cfg == s.cfg && t.dead == s.dead && t.closers == s.closers
      && t.hist.accepted == s.hist.accepted && t.hist.faults == s.hist.faults
      && t.hist.closersStarted == s.hist.closersStarted && t.hist.closersAtDeath == s.hist.closersAtDeath
      && t.hist.putFailures == s.hist.putFailures
      && t.notifier.read == s.notifier.read
      && (a.Report? || t.notifier == s.notifier)
  {
    StepMoves(s, i, a);
    SenderHistory(s, i, a);
  }

  /** The parts of the state that belong to the producers and the senders. */
  ghost predicate SameTraffic(s: State, t: State) {
    && t.cfg == s.cfg && t.queue == s.queue && t.producers == s.producers && t.metrics == s.metrics
    && t.hist.accepted == s.hist.accepted && t.hist.written == s.hist.written && t.hist.lost == s.hist.lost
    && t.hist.swallowed == s.hist.swallowed && t.hist.beatsSent == s.hist.beatsSent
    && t.hist.beatsLost == s.hist.beatsLost && t.hist.beatsSwallowed == s.hist.beatsSwallowed
    && t.notifier.read == s.notifier.read
  }

  lemma CreateFrame(s: State, o: Outcome)
    requires ManagerEnabled(s, Create(o))
    ensures var t := ManagerStep(s, Create(o));
      SameTraffic(s, t) && t.senders == s.senders && t.dead == s.dead && t.notifier == s.notifier
  {
  }

  lemma NotifyFrame(s: State)
    requires ManagerEnabled(s, Notify)
    ensures var t := ManagerStep(s, Notify);
      && SameTraffic(s, t) && t.senders == s.senders && t.dead == s.dead
      && t.notifier == s.notifier.Offer(PendingNotice(s.mgr))
  {
  }

  /** The manager never touches the send channel, the producers or the message counters. */
  lemma ManagerFrame(s: State, a: ManagerAct)
    requires ManagerEnabled(s, a)
    ensures var t := ManagerStep(s, a);
      && SameTraffic(s, t) && (s.dead ==> t.dead)
      && (!a.Start? && !a.Cancel? ==> t.senders == s.senders)
  {
    match a
    case Create(o) => CreateFrame(s, o);
    case Notify => NotifyFrame(s);
    case Launch(_) =>
    case Start(_) =>
    case Join =>
    case DeathPut =>
    case DeathGet =>
    case StoreDead =>
    case Cancel =>
  }

  /** The sender Start adds: it has neither dequeued nor written anything. */
  lemma StartEffect(s: State, ok: bool)
    requires ManagerEnabled(s, Start(ok))
    ensures var t := ManagerStep(s, Start(ok));
      exists x :: t.senders == s.senders + [x] && x == NewSender(x.noop, x.builtin, ok)
  {
    var t := ManagerStep(s, Start(ok));
    var x := t.senders[|s.senders|];
    assert t.senders == s.senders + [x];
  }

  lemma JoinEffect(s: State)
    requires ManagerEnabled(s, Join)
    ensures var t := ManagerStep(s, Join);
      && SameTraffic(s, t) && t.senders == s.senders && t.dead == s.dead && t.notifier == s.notifier
      && t.closers == s.closers && t.hist == s.hist && t.published == s.published
      && if s.mgr.JoiningNoop? then !t.handoff && t.mgr == Resume(false, s.mgr.next)
         else
           && t.handoff == s.handoff
           && t.mgr == if s.senders[|s.senders| - 1].pc.clean then NotifyBug else NotifyEnded
  {
  }

  lemma CancelEffect(s: State)
    requires ManagerEnabled(s, Cancel)
    ensures var k := |s.senders| - 1;
      ManagerStep(s, Cancel).senders == s.senders[k := s.senders[k].(cancelled := true)]
  {
  }

  // --- What each step of a sender does to the rest of the state --------------------------------------------

  lemma TakeEffect(s: State, i: nat)
    requires SenderEnabled(s, i, Take)
    ensures var t := SenderStep(s, i, Take);
      t.queue == s.queue[1..] && t.hist == s.hist && t.metrics == s.metrics && t.notifier == s.notifier
  {
  }

  lemma WriteEffect(s: State, i: nat, ok: bool)
    requires SenderEnabled(s, i, WriteDone(ok))
    ensures var t := SenderStep(s, i, WriteDone(ok));
      && t.queue == s.queue && t.notifier == s.notifier
      && t.hist == (if ok then LogWrite(s.hist, s.senders[i]) else s.hist)
      && t.metrics == (if ok then CountWrite(s.metrics, s.senders[i])
                       else s.metrics.(errs := s.metrics.errs + 1))
  {
  }

  lemma SettleEffect(s: State, i: nat)
    requires SenderEnabled(s, i, Settle)
    ensures var m := s.senders[i].pc.m;
      var t := SenderStep(s, i, Settle);
      && t.notifier == s.notifier
      && if Requeues(s, m) then
           t.queue == s.queue + [m] && t.hist == s.hist
           && t.metrics == s.metrics.(requeued := s.metrics.requeued + 1)
         else
           t.queue == s.queue && t.hist == LogLoss(s.hist, s.senders[i])
           && t.metrics == CountDrop(s.metrics, m.typ)
  {
  }

  /** A user message whose write failed is back on the queue or counted as lost. */
  lemma SettledSomewhere(s: State, i: nat)
    requires SenderEnabled(s, i, Settle) && !s.senders[i].pc.beat
    ensures var t := SenderStep(s, i, Settle);
      s.senders[i].pc.m in t.queue || s.senders[i].pc.m in t.hist.lost
  {
    SettleEffect(s, i);
  }

  /** The other steps. */
  lemma IdleEffect(s: State, i: nat, a: SenderAct)
    requires SenderEnabled(s, i, a) && !a.Take? && !a.WriteDone? && !a.Settle?
    ensures var t := SenderStep(s, i, a);
      && t.queue == s.queue && t.hist == s.hist && t.metrics == s.metrics
      && t.notifier == (if a.Report? then s.notifier.Offer(WriteFault) else s.notifier)
  {
  }

  /** Neither do producers, closers and the consumer of Notify() touch the senders or the counters. */
  lemma OutsiderFrame(s: State, e: Event)
    requires Enabled(s, e) && !e.Snd? && !e.Mgr?
    ensures var t := Next(s, e);
      && t.cfg == s.cfg && t.senders == s.senders && t.metrics == s.metrics && t.mgr == s.mgr && t.dead == s.dead
      && t.handoff == s.handoff && t.published == s.published
      && t.hist == s.hist.(accepted := t.hist.accepted)
      && (e.Put? || (t.queue == s.queue && t.hist.accepted == s.hist.accepted))
      && (e.Read? || t.notifier.read == s.notifier.read)
  {
  }

  lemma PutEffect(s: State, p: nat)
    requires Enabled(s, Put(p))
    ensures var t := Next(s, Put(p));
      && t.notifier == s.notifier && t.producers == s.producers - {p}
      && if |s.queue| < s.cfg.queueSize then
           var m := Msg(s.producers[p], |s.hist.accepted|);
           t.queue == s.queue + [m] && t.hist.accepted == s.hist.accepted + [m]
         else
           t.queue == s.queue && t.hist.accepted == s.hist.accepted
  {
  }
}
