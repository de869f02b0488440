/** The counters of the client against the logs of its connections: what each connection was written, and how it ended,
    is recorded per sender; the totals over real and over no-op connections are what the counters say. */
module Logs {
  import opened Protocol
  import opened Frames
  import opened Accounting

  function Count(log: seq<Wrote>, w: Wrote): nat {
    if log == [] then 0 else Count(log[..|log| - 1], w) + (if log[|log| - 1] == w then 1 else 0)
  }

  lemma CountOfAppend(log: seq<Wrote>, v: Wrote, w: Wrote)
    ensures Count(log + [v], w) == Count(log, w) + (if v == w then 1 else 0)
  {
    assert (log + [v])[..|log|] == log;
  }

  /** How often w was written to the connection of x, if that is of the given kind. */
  function WroteBy(x: Sender, noop: bool, w: Wrote): nat {
    if x.noop == noop then Count(x.log, w) else 0
  }

  /** How often w was written to connections of the given kind. */
  function Total(xs: seq<Sender>, noop: bool, w: Wrote): nat {
    if xs == [] then 0 else Total(xs[..|xs| - 1], noop, w) + WroteBy(xs[|xs| - 1], noop, w)
  }

  /** How many writes failed. */
  function Failures(xs: seq<Sender>): nat {
    if xs == [] then 0 else Failures(xs[..|xs| - 1]) + xs[|xs| - 1].failures
  }

  lemma {:induction false} TotalOfUpdate(xs: seq<Sender>, i: nat, x: Sender, noop: bool, w: Wrote)
    requires i < |xs|
    ensures Total(xs[i := x], noop, w) + WroteBy(xs[i], noop, w) == Total(xs, noop, w) + WroteBy(x, noop, w)
    ensures Failures(xs[i := x]) + xs[i].failures == Failures(xs) + x.failures
  {
    var k := |xs| - 1;
    if i == k {
      assert xs[i := x][..k] == xs[..k];
    } else {
      assert xs[i := x][..k] == xs[..k][i := x];
      TotalOfUpdate(xs[..k], i, x, noop, w);
    }
  }

  lemma TotalOfAppend(xs: seq<Sender>, x: Sender, noop: bool, w: Wrote)
    requires x.log == [] && x.failures == 0
    ensures Total(xs + [x], noop, w) == Total(xs, noop, w)
    ensures Failures(xs + [x]) == Failures(xs)
  {
    assert (xs + [x])[..|xs|] == xs;
  }

  /** What the history and the counters say about writes of w on connections of the given kind. */
  function Counted(h: History, noop: bool, w: Wrote): nat {
    match w
    case User => if noop then |h.swallowed| else |h.written|
    case Beat => if noop then h.beatsSwallowed else h.beatsSent
  }

  ghost predicate LogsInv(s: State) {
    && (forall noop: bool, w: Wrote :: Agrees(s, noop, w))
    && s.metrics.errs == Failures(s.senders)
  }

  ghost predicate Agrees(s: State, noop: bool, w: Wrote) {
    Counted(s.hist, noop, w) == Total(s.senders, noop, w)
  }

  lemma WriteAgrees(s: State, i: nat, ok: bool, noop: bool, w: Wrote)
    requires SenderEnabled(s, i, WriteDone(ok)) && Agrees(s, noop, w)
    ensures Agrees(SenderStep(s, i, WriteDone(ok)), noop, w)
  {
    var x := s.senders[i];
    WriteEffect(s, i, ok);
    SenderFrame(s, i, WriteDone(ok));
    TotalOfUpdate(s.senders, i, Advance(s, x, WriteDone(ok)), noop, w);
    CountOfAppend(x.log, if x.pc.beat then Beat else User, w);
  }

  lemma QuietAgrees(s: State, i: nat, a: SenderAct, noop: bool, w: Wrote)
    requires SenderEnabled(s, i, a) && !a.WriteDone? && Agrees(s, noop, w)
    ensures Agrees(SenderStep(s, i, a), noop, w)
  {
    SenderFrame(s, i, a);
    TotalOfUpdate(s.senders, i, Advance(s, s.senders[i], a), noop, w);
    match a
    case Take => TakeEffect(s, i);
    case Settle => SettleEffect(s, i);
    case _ => IdleEffect(s, i, a);
  }

  lemma SenderFails(s: State, i: nat, a: SenderAct)
    requires SenderEnabled(s, i, a) && s.metrics.errs == Failures(s.senders)
    ensures SenderStep(s, i, a).metrics.errs == Failures(SenderStep(s, i, a).senders)
  {
    SenderFrame(s, i, a);
    TotalOfUpdate(s.senders, i, Advance(s, s.senders[i], a), true, User);
    match a
    case Take => TakeEffect(s, i);
    case WriteDone(ok) => WriteEffect(s, i, ok);
    case Settle => SettleEffect(s, i);
    case _ => IdleEffect(s, i, a);
  }

  lemma ManagerAgrees(s: State, a: ManagerAct, noop: bool, w: Wrote)
    requires ManagerEnabled(s, a) && Agrees(s, noop, w)
    ensures Agrees(ManagerStep(s, a), noop, w)
    ensures Failures(ManagerStep(s, a).senders) == Failures(s.senders)
  {
    ManagerFrame(s, a);
    match a
    case Start(ok) =>
      StartEffect(s, ok);
      var x := ManagerStep(s, a).senders[|s.senders|];
      assert ManagerStep(s, a).senders == s.senders + [x];
      TotalOfAppend(s.senders, x, noop, w);
    case Cancel =>
      CancelEffect(s);
      var k := |s.senders| - 1;
      TotalOfUpdate(s.senders, k, s.senders[k].(cancelled := true), noop, w);
    case _ =>
  }

  lemma StepLogs(s: State, e: Event)
    requires LogsInv(s) && Enabled(s, e)
    ensures LogsInv(Next(s, e))
  {
    match e
    case Snd(i, a) =>
      SenderFails(s, i, a);
      forall noop: bool, w: Wrote ensures Agrees(Next(s, e), noop, w) {
        assert Agrees(s, noop, w);
        if a.WriteDone? { WriteAgrees(s, i, a.ok, noop, w); } else { QuietAgrees(s, i, a, noop, w); }
      }
    case Mgr(a) =>
      ManagerFrame(s, a);
      forall noop: bool, w: Wrote
        ensures Agrees(Next(s, e), noop, w) && Failures(Next(s, e).senders) == Failures(s.senders)
      {
        assert Agrees(s, noop, w);
        ManagerAgrees(s, a, noop, w);
      }
    case _ => OutsiderLogs(s, e);
  }

  lemma OutsiderLogs(s: State, e: Event)
    requires LogsInv(s) && Enabled(s, e) && !e.Snd? && !e.Mgr?
    ensures LogsInv(Next(s, e))
  {
    OutsiderFrame(s, e);
    forall noop: bool, w: Wrote ensures Agrees(Next(s, e), noop, w) { assert Agrees(s, noop, w); }
  }

  lemma {:induction false} LogsHold(cfg: Config, es: seq<Event>)
    requires After(Init(cfg), es).Some?
    ensures LogsInv(After(Init(cfg), es).value)
  {
    if es != [] {
      var k := |es| - 1;
      LogsHold(cfg, es[..k]);
      StepLogs(After(Init(cfg), es[..k]).value, es[k]);
    }
  }

  /** What the counters mean for the connections: sent counts exactly the writes to real ones, user messages and
      heartbeats; what no-op ones swallowed is counted as dropped with what was given up; and errors are the failed
      writes. */
  lemma CountersMatchLogs(s: State)
    requires Reachable(s)
    ensures |s.hist.written| == Total(s.senders, false, User) && s.hist.beatsSent == Total(s.senders, false, Beat)
    ensures |s.hist.swallowed| == Total(s.senders, true, User) && s.hist.beatsSwallowed == Total(s.senders, true, Beat)
    ensures s.metrics.sent == Total(s.senders, false, User) + Total(s.senders, false, Beat)
    ensures s.metrics.dropped == |s.hist.lost| + Total(s.senders, true, User)
    ensures s.metrics.beatDropped == s.hist.beatsLost + Total(s.senders, true, Beat)
    ensures s.metrics.errs == Failures(s.senders)
  {
    var es :| After(Init(s.cfg), es) == Some(s);
    LogsHold(s.cfg, es);
    MetricsHold(s.cfg, es);
    assert Agrees(s, false, User) && Agrees(s, false, Beat) && Agrees(s, true, User) && Agrees(s, true, Beat);
  }
}
