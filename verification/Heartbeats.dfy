/** What one connection gets to see: the heartbeat grammar, and the one failure that ends it. */
module Heartbeats {
  import opened Protocol
  import opened Frames

  /** A prefix of: a user message, a heartbeat, then any mix of the two. */
  ghost predicate InGrammar(log: seq<Wrote>) {
    exists rest :: log <= [User, Beat] + rest
  }

  ghost predicate SenderBeats(x: Sender) {
    && (|x.log| >= 1 ==> x.log[0] == User)
    && (|x.log| >= 2 ==> x.log[1] == Beat)
    && (x.ticker <==> |x.log| >= 2)
    && (|x.log| == 1 ==> !x.pc.Top? && !x.pc.Select?)
    && (x.pc.Writing? && x.pc.beat ==> |x.log| >= 1)
    && (x.pc.Writing? && !x.pc.beat ==> |x.log| != 1)
    && x.failures <= 1
    && (x.failures == 1 ==> x.pc.Failed? || x.pc.Reporting? || x.pc == Returned(false))
    && (x.pc.Failed? || x.pc.Reporting? ==> x.failures == 1)
  }

  ghost predicate BeatsInv(s: State) {
    forall i :: 0 <= i < |s.senders| ==> SenderBeats(s.senders[i])
  }

  lemma AdvanceBeats(s: State, x: Sender, a: SenderAct)
    requires SenderBeats(x)
    requires a.Take? ==> s.queue != []
    requires a.WriteDone? ==> x.pc.Writing?
    requires a.LoopTop? ==> x.pc.Top?
    requires a.Take? || a.Quit? ==> x.pc.Select?
    requires a.Tick? ==> x.pc.Select? && x.ticker
    requires a.Settle? ==> x.pc.Failed?
    requires a.Report? ==> x.pc.Reporting?
    ensures SenderBeats(Advance(s, x, a))
  {
  }

  lemma StepBeats(s: State, e: Event)
    requires BeatsInv(s) && Enabled(s, e)
    ensures BeatsInv(Next(s, e))
  {
    match e
    case Snd(i, a) =>
      SenderFrame(s, i, a);
      AdvanceBeats(s, s.senders[i], a);
    case Mgr(a) =>
      ManagerFrame(s, a);
      if a.Start? { StartEffect(s, a.ok); }
      if a.Cancel? { CancelEffect(s); }
    case _ => OutsiderFrame(s, e);
  }

  lemma {:induction false} BeatsHold(cfg: Config, es: seq<Event>)
    requires After(Init(cfg), es).Some?
    ensures BeatsInv(After(Init(cfg), es).value)
  {
    if es != [] {
      var k := |es| - 1;
      BeatsHold(cfg, es[..k]);
      StepBeats(After(Init(cfg), es[..k]).value, es[k]);
    }
  }

  lemma ReachableBeats(s: State)
    requires Reachable(s)
    ensures BeatsInv(s)
  {
    var es :| After(Init(s.cfg), es) == Some(s);
    BeatsHold(s.cfg, es);
  }

  // --- Theorems -------------------------------------------------------------------------------------------

  /** On every connection: no heartbeat comes before the first user message, the first user message is followed by a
      heartbeat before anything else, and the ticker runs exactly when a first heartbeat has got through. */
  lemma HeartbeatGrammar(s: State, i: nat)
    requires Reachable(s) && i < |s.senders|
    ensures InGrammar(s.senders[i].log)
    ensures s.senders[i].ticker <==> Beat in s.senders[i].log
    ensures s.senders[i].failures <= 1
  {
    var es :| After(Init(s.cfg), es) == Some(s);
    BeatsHold(s.cfg, es);
    assert SenderBeats(s.senders[i]);
    GrammarOf(s.senders[i]);
  }

  lemma GrammarOf(x: Sender)
    requires SenderBeats(x)
    ensures InGrammar(x.log) && (x.ticker <==> Beat in x.log)
  {
    var log := x.log;
    if |log| >= 2 {
      assert log == [User, Beat] + log[2..];
    } else {
      assert log <= [User, Beat] + [];
    }
  }

  /** A failed write is the last thing a connection is asked for. */
  lemma {:induction false} FailureIsLast(s: State, i: nat, es: seq<Event>)
    requires Reachable(s) && i < |s.senders| && s.senders[i].failures > 0
    requires After(s, es).Some?
    ensures var t := After(s, es).value;
      i < |t.senders| && t.senders[i].log == s.senders[i].log && t.senders[i].failures == 1
      && SenderBeats(t.senders[i])
  {
    if es == [] {
      var fs :| After(Init(s.cfg), fs) == Some(s);
      BeatsHold(s.cfg, fs);
      assert SenderBeats(s.senders[i]);
    } else {
      var k := |es| - 1;
      FailureIsLast(s, i, es[..k]);
      FailedStaysPut(After(s, es[..k]).value, i, es[k]);
    }
  }

  lemma FailedStaysPut(s: State, i: nat, e: Event)
    requires i < |s.senders| && SenderBeats(s.senders[i]) && s.senders[i].failures == 1 && Enabled(s, e)
    ensures var t := Next(s, e);
      i < |t.senders| && t.senders[i].log == s.senders[i].log && t.senders[i].failures == 1
      && SenderBeats(t.senders[i])
  {
    match e
    case Snd(j, a) =>
      SenderFrame(s, j, a);
      if j == i { AdvanceBeats(s, s.senders[i], a); }
    case Mgr(a) =>
      ManagerFrame(s, a);
      if a.Start? { StartEffect(s, a.ok); }
      if a.Cancel? { CancelEffect(s); }
    case _ => OutsiderFrame(s, e);
  }
}
