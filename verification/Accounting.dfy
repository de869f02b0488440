/** The metric identities and the ledger of notices. */
module Accounting {
  import opened Notices
  import opened Protocol
  import opened Frames
  import opened Control
  import opened Ledger

  // --- Metrics --------------------------------------------------------------------------------------------

  /** Senders that have counted an error and not yet requeued or dropped. */
  function Unsettled(xs: seq<Sender>): nat {
    if xs == [] then 0
    else Unsettled(xs[..|xs| - 1]) + (if xs[|xs| - 1].pc.Failed? then 1 else 0)
  }

  ghost predicate MetricsInv(s: State) {
    && s.metrics.sent == |s.hist.written| + s.hist.beatsSent
    && s.metrics.dropped == |s.hist.lost| + |s.hist.swallowed|
    && s.metrics.beatDropped == s.hist.beatsLost + s.hist.beatsSwallowed
    && s.metrics.errs
       == s.metrics.requeued + |s.hist.lost| + s.hist.beatsLost + Unsettled(s.senders)
  }

  lemma {:induction false} NoneUnsettled(xs: seq<Sender>)
    requires forall i :: 0 <= i < |xs| ==> !xs[i].pc.Failed?
    ensures Unsettled(xs) == 0
  {
    if xs != [] { NoneUnsettled(xs[..|xs| - 1]); }
  }

  lemma UnsettledAfter(s: State, i: nat, x: Sender)
    requires ControlInv(s) && i < |s.senders| && !s.senders[i].pc.Returned?
    ensures Unsettled(s.senders[i := x]) == if x.pc.Failed? then 1 else 0
    ensures Unsettled(s.senders) == if s.senders[i].pc.Failed? then 1 else 0
  {
    OnlyLastRuns(s);
    assert s.senders[i := x][..i] == s.senders[..i];
    NoneUnsettled(s.senders[..i]);
  }

  lemma SenderStepMetrics(s: State, i: nat, a: SenderAct)
    requires ControlInv(s) && TypesInv(s) && MetricsInv(s) && SenderEnabled(s, i, a)
    ensures MetricsInv(SenderStep(s, i, a))
  {
    SenderFrame(s, i, a);
    UnsettledAfter(s, i, Advance(s, s.senders[i], a));
    assert SenderTyped(s.senders[i]);
    match a
    case Take => TakeEffect(s, i);
    case WriteDone(ok) => WriteMetrics(s, i, ok);
    case Settle => SettleMetrics(s, i);
    case _ => IdleEffect(s, i, a);
  }

  lemma WriteMetrics(s: State, i: nat, ok: bool)
    requires ControlInv(s) && MetricsInv(s) && SenderEnabled(s, i, WriteDone(ok)) && SenderTyped(s.senders[i])
    ensures MetricsInv(SenderStep(s, i, WriteDone(ok)))
  {
    SenderFrame(s, i, WriteDone(ok));
    UnsettledAfter(s, i, Advance(s, s.senders[i], WriteDone(ok)));
    WriteEffect(s, i, ok);
  }

  lemma SettleMetrics(s: State, i: nat)
    requires ControlInv(s) && MetricsInv(s) && SenderEnabled(s, i, Settle) && SenderTyped(s.senders[i])
    ensures MetricsInv(SenderStep(s, i, Settle))
  {
    SenderFrame(s, i, Settle);
    UnsettledAfter(s, i, Advance(s, s.senders[i], Settle));
    SettleEffect(s, i);
  }

  lemma {:induction false} ManagerKeepsUnsettled(s: State, a: ManagerAct)
    requires ManagerEnabled(s, a)
    ensures Unsettled(ManagerStep(s, a).senders) == Unsettled(s.senders)
  {
    ManagerFrame(s, a);
    match a
    case Start(ok) =>
      StartEffect(s, ok);
      assert ManagerStep(s, a).senders[..|s.senders|] == s.senders;
    case Cancel =>
      CancelEffect(s);
      var k := |s.senders| - 1;
      assert ManagerStep(s, a).senders[..k] == s.senders[..k];
    case _ =>
  }

  lemma StepMetrics(s: State, e: Event)
    requires ControlInv(s) && TypesInv(s) && MetricsInv(s) && Enabled(s, e)
    ensures MetricsInv(Next(s, e))
  {
    match e
    case Snd(i, a) => SenderStepMetrics(s, i, a);
    case Mgr(a) =>
      ManagerFrame(s, a);
      ManagerKeepsUnsettled(s, a);
    case _ => OutsiderFrame(s, e);
  }

  lemma {:induction false} MetricsHold(cfg: Config, es: seq<Event>)
    requires After(Init(cfg), es).Some?
    ensures MetricsInv(After(Init(cfg), es).value)
  {
    if es != [] {
      var k := |es| - 1;
      MetricsHold(cfg, es[..k]);
      ControlHolds(cfg, es[..k]);
      LedgerHolds(cfg, es[..k]);
      StepMetrics(After(Init(cfg), es[..k]).value, es[k]);
    }
  }

  /** Whenever no sender is between counting an error and settling it, the counters tell exactly what happened. */
  lemma MetricIdentities(s: State)
    requires Reachable(s) && forall i :: 0 <= i < |s.senders| ==> !s.senders[i].pc.Failed?
    ensures s.metrics.errs == s.metrics.requeued + |s.hist.lost| + s.hist.beatsLost
    ensures s.metrics.dropped == |s.hist.lost| + |s.hist.swallowed|
    ensures s.metrics.sent == |s.hist.written| + s.hist.beatsSent
    ensures s.metrics.beatDropped == s.hist.beatsLost + s.hist.beatsSwallowed
  {
    var es :| After(Init(s.cfg), es) == Some(s);
    MetricsHold(s.cfg, es);
    NoneUnsettled(s.senders);
  }

  // --- Notices --------------------------------------------------------------------------------------------

  /** The failed attempts reported so far: all of them, up to the one being reported. */
  ghost function Reported(s: State): seq<Fault> {
    if s.mgr.NotifyFault? && s.hist.faults != [] then s.hist.faults[..|s.hist.faults| - 1] else s.hist.faults
  }

  ghost predicate NoticesInv(s: State) {
    && s.notifier.Balanced()
    && (s.mgr.NotifyFault? ==> s.hist.faults != [] && s.mgr.fault == s.hist.faults[|s.hist.faults| - 1])
    && Attempts(s.notifier.offered) == Reported(s)
  }

  lemma OfferBalances(n: Notifier, x: Notice)
    requires n.Balanced()
    ensures n.Offer(x).Balanced()
    ensures Attempts(n.Offer(x).offered) == Attempts(n.offered) + (if x.AttemptFault? then [x.fault] else [])
  {
    DeathsOfAppend(n.offered, x);
  }

  lemma PopBalances(n: Notifier)
    requires n.Balanced() && n.chan != []
    ensures n.Read().Balanced() && n.Evict().Balanced()
  {
    PopSplits(n.chan);
  }

  lemma LandBalances(n: Notifier, f: Fault)
    requires n.Balanced()
    ensures !n.Full() ==> n.Land(Dead(f)).Balanced()
    ensures n.Discard(Dead(f)).Balanced()
    ensures Attempts(n.offered + [Dead(f)]) == Attempts(n.offered)
  {
    DeathsOfAppend(n.offered, Dead(f));
  }

  lemma DeathPutReports(s: State)
    requires NoticesInv(s) && ManagerEnabled(s, DeathPut)
    ensures NoticesInv(ManagerStep(s, DeathPut))
  {
    LandBalances(s.notifier, s.mgr.fault);
  }

  lemma DeathGetReports(s: State)
    requires NoticesInv(s) && ManagerEnabled(s, DeathGet)
    ensures NoticesInv(ManagerStep(s, DeathGet))
  {
    if s.notifier.chan != [] { PopBalances(s.notifier); }
  }

  lemma AttemptReports(s: State, o: Outcome)
    requires NoticesInv(s) && ManagerEnabled(s, Create(o))
    ensures NoticesInv(ManagerStep(s, Create(o)))
  {
    CreateFrame(s, o);
    AttemptEffect(s, o);
    AttemptAccounted(s, ManagerStep(s, Create(o)));
  }

  lemma AttemptEffect(s: State, o: Outcome)
    requires ManagerEnabled(s, Create(o))
    ensures var t := ManagerStep(s, Create(o));
      t.hist.faults == if t.mgr.NotifyFault? then s.hist.faults + [t.mgr.fault] else s.hist.faults
  {
  }

  lemma AttemptAccounted(s: State, t: State)
    requires NoticesInv(s) && !s.mgr.NotifyFault? && t.notifier == s.notifier
    requires t.hist.faults == if t.mgr.NotifyFault? then s.hist.faults + [t.mgr.fault] else s.hist.faults
    ensures NoticesInv(t)
  {
  }

  /** The report of a failed attempt. */
  lemma FaultReports(s: State)
    requires NoticesInv(s) && s.mgr.NotifyFault?
    ensures NoticesInv(ManagerStep(s, Notify))
  {
    FaultEffect(s);
    Reports(s, ManagerStep(s, Notify), AttemptFault(s.mgr.fault));
  }

  /** t is s after a notice of the manager. */
  lemma Reports(s: State, t: State, x: Notice)
    requires NoticesInv(s) && t.notifier == s.notifier.Offer(x)
    requires t.hist.faults == s.hist.faults && !t.mgr.NotifyFault?
    requires if s.mgr.NotifyFault? then x == AttemptFault(s.mgr.fault) else !x.AttemptFault?
    ensures NoticesInv(t)
  {
    OfferBalances(s.notifier, x);
    if s.mgr.NotifyFault? { LastSplits(s.hist.faults); }
  }

  lemma FaultEffect(s: State)
    requires s.mgr.NotifyFault?
    ensures var t := ManagerStep(s, Notify);
      t.notifier == s.notifier.Offer(AttemptFault(s.mgr.fault)) && t.hist.faults == s.hist.faults
      && !t.mgr.NotifyFault?
  {
  }

  /** The manager's other notices. */
  lemma NotifyReports(s: State)
    requires NoticesInv(s) && ManagerEnabled(s, Notify) && !s.mgr.NotifyFault?
    ensures NoticesInv(ManagerStep(s, Notify))
  {
    NotifyFrame(s);
    NoFaultEffect(s);
    Reports(s, ManagerStep(s, Notify), PendingNotice(s.mgr));
  }

  lemma NoFaultEffect(s: State)
    requires ManagerEnabled(s, Notify) && !s.mgr.NotifyFault?
    ensures var t := ManagerStep(s, Notify);
      t.hist.faults == s.hist.faults && !t.mgr.NotifyFault? && !PendingNotice(s.mgr).AttemptFault?
  {
  }

  lemma OtherEffect(s: State, a: ManagerAct)
    requires ManagerEnabled(s, a) && !a.Create? && !a.Notify? && !a.DeathPut? && !a.DeathGet?
    ensures var t := ManagerStep(s, a);
      t.hist.faults == s.hist.faults && t.notifier == s.notifier && !t.mgr.NotifyFault? && !s.mgr.NotifyFault?
  {
  }

  lemma OfferReports(s: State, t: State, x: Notice)
    requires NoticesInv(s) && t.notifier == s.notifier.Offer(x) && !x.AttemptFault?
    requires t.hist.faults == s.hist.faults && t.mgr == s.mgr
    ensures NoticesInv(t)
  {
    OfferBalances(s.notifier, x);
  }

  lemma SenderReports(s: State, i: nat, a: SenderAct)
    requires NoticesInv(s) && SenderEnabled(s, i, a)
    ensures NoticesInv(SenderStep(s, i, a))
  {
    SenderFrame(s, i, a);
    if a.Report? {
      IdleEffect(s, i, a);
      OfferReports(s, SenderStep(s, i, a), WriteFault);
    }
  }

  lemma ManagerReports(s: State, a: ManagerAct)
    requires NoticesInv(s) && ManagerEnabled(s, a)
    ensures NoticesInv(ManagerStep(s, a))
  {
    match a
    case Create(o) => AttemptReports(s, o);
    case Notify => if s.mgr.NotifyFault? { FaultReports(s); } else { NotifyReports(s); }
    case DeathPut => DeathPutReports(s);
    case DeathGet => DeathGetReports(s);
    case _ => OtherEffect(s, a);
  }

  lemma StepNotices(s: State, e: Event)
    requires NoticesInv(s) && Enabled(s, e)
    ensures NoticesInv(Next(s, e))
  {
    match e
    case Snd(i, a) => SenderReports(s, i, a);
    case Mgr(a) => ManagerReports(s, a);
    case _ => OutsiderReports(s, e);
  }

  lemma OutsiderReports(s: State, e: Event)
    requires NoticesInv(s) && Enabled(s, e) && !e.Snd? && !e.Mgr?
    ensures NoticesInv(Next(s, e))
  {
    OutsiderFrame(s, e);
    match e
    case CloserDone(failed) => if failed { OfferReports(s, Next(s, e), CloseFault); }
    case Read => PopBalances(s.notifier);
    case Put(p) => PutEffect(s, p);
    case Check(_, _, _) =>
  }

  lemma {:induction false} NoticesHold(cfg: Config, es: seq<Event>)
    requires After(Init(cfg), es).Some?
    ensures NoticesInv(After(Init(cfg), es).value)
  {
    if es != [] {
      var k := |es| - 1;
      NoticesHold(cfg, es[..k]);
      StepNotices(After(Init(cfg), es[..k]).value, es[k]);
    }
  }

  /** Every notice offered was read, is in the channel, or was logged as dropped or evicted; the channel never holds
      more than its capacity; and reconnect has offered one notice per failed attempt, in order. */
  lemma NoticeLedger(s: State)
    requires Reachable(s)
    ensures multiset(s.notifier.offered)
            == multiset(s.notifier.read) + multiset(s.notifier.chan) + multiset(s.notifier.dropped)
               + multiset(s.notifier.evicted)
    ensures |s.notifier.chan| <= s.notifier.cap
    ensures !s.mgr.NotifyFault? ==> Attempts(s.notifier.offered) == s.hist.faults
  {
    var es :| After(Init(s.cfg), es) == Some(s);
    NoticesHold(s.cfg, es);
  }
}
