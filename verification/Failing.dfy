/** Failing over and over is possible, for any number of times, and only turns the queue. */
module Failing {
  import opened Protocol
  import opened Frames
  import opened Control
  import opened Ledger
  import opened Delivery
  import opened Death

  /** A real sender waits for messages, and there are some. */
  ghost predicate Serving(s: State) {
    && s.cfg.linux && s.cfg.wired
    && s.mgr.Awaiting? && s.senders != [] && s.queue != []
    && s.senders[|s.senders| - 1].pc.Select? && !s.senders[|s.senders| - 1].noop
  }

  /** t is s after its last sender failed to write the head of the queue, which has gone to the tail. */
  ghost predicate Turned(s: State, t: State) {
    && t.queue == Turn(s.queue) && t.metrics.requeued == s.metrics.requeued + 1
    && NoTraffic(s, t) && s.senders != [] && |t.senders| == |s.senders|
    && var k := |s.senders| - 1;
       t.senders == s.senders[k := t.senders[k]] && FailedOnce(s.senders[k], t.senders[k])
  }

  /** y is x after a write that failed, and nothing else. */
  ghost predicate FailedOnce(x: Sender, y: Sender) {
    y.pc == Returned(false) && y.log == x.log && y.failures == x.failures + 1 && y.noop == x.noop
  }

  lemma ReachableAfter(s: State, es: seq<Event>)
    requires Reachable(s) && After(s, es).Some?
    ensures Reachable(After(s, es).value) && After(s, es).value.cfg == s.cfg
  {
    var fs :| After(Init(s.cfg), fs) == Some(s);
    AfterConcat(Init(s.cfg), fs, es);
    ControlHolds(s.cfg, fs + es);
  }

  lemma TwoSteps(s: State, e: Event, f: Event)
    requires Enabled(s, e) && Enabled(Next(s, e), f)
    ensures After(s, [e, f]) == Some(Next(Next(s, e), f))
  {
    var t := Next(s, e);
    FirstThen(s, e, [f]);
    FirstThen(t, f, []);
    assert [e] + [f] == [e, f] && [f] + [] == [f];
  }

  // --- A write fails --------------------------------------------------------------------------------------

  lemma TakeAndFail(s: State) returns (t: State)
    requires Reachable(s) && Serving(s)
    ensures var k := |s.senders| - 1;
      && After(s, [Snd(k, Take), Snd(k, WriteDone(false))]) == Some(t)
      && NoTraffic(s, t) && t.queue == s.queue[1..] && t.metrics.requeued == s.metrics.requeued
      && t.mgr.Awaiting? && t.senders == s.senders[k := t.senders[k]]
      && var x, y := s.senders[k], t.senders[k];
         y.pc == Failed(s.queue[0], false) && y.log == x.log && y.failures == x.failures + 1 && y.noop == x.noop
  {
    var k := |s.senders| - 1;
    var u := Next(s, Snd(k, Take));
    TakeEffect(s, k);
    SenderFrame(s, k, Take);
    t := Next(u, Snd(k, WriteDone(false)));
    WriteEffect(u, k, false);
    SenderFrame(u, k, WriteDone(false));
    TwoSteps(s, Snd(k, Take), Snd(k, WriteDone(false)));
  }

  lemma SettleAndReport(s: State) returns (t: State)
    requires s.mgr.Awaiting? && s.senders != [] && s.senders[|s.senders| - 1].pc.Failed?
    requires var m := s.senders[|s.senders| - 1].pc.m; UserType(m.typ) && |s.queue| < s.cfg.queueSize
    ensures var k := |s.senders| - 1;
      && After(s, [Snd(k, Settle), Snd(k, Report)]) == Some(t)
      && NoTraffic(s, t) && t.queue == s.queue + [s.senders[k].pc.m]
      && t.metrics.requeued == s.metrics.requeued + 1
      && t.mgr.Awaiting? && t.senders == s.senders[k := s.senders[k].(pc := Returned(false))]
  {
    var k := |s.senders| - 1;
    var u := Next(s, Snd(k, Settle));
    SettleEffect(s, k);
    SenderFrame(s, k, Settle);
    t := Next(u, Snd(k, Report));
    IdleEffect(u, k, Report);
    SenderFrame(u, k, Report);
    TwoSteps(s, Snd(k, Settle), Snd(k, Report));
  }

  /** The manager waits for a sender that has just failed. */
  ghost predicate Broken(s: State) {
    && s.cfg.linux && s.cfg.wired
    && s.mgr.Awaiting? && s.senders != [] && s.queue != []
    && s.senders[|s.senders| - 1].pc == Returned(false)
  }

  lemma FailedWrite(s: State) returns (t: State, es: seq<Event>)
    requires Reachable(s) && Serving(s)
    ensures After(s, es) == Some(t) && Turned(s, t) && Reachable(t) && Broken(t)
  {
    var u := TakeAndFail(s);
    var k := |s.senders| - 1;
    var ds := [Snd(k, Take), Snd(k, WriteDone(false))];
    ReachableLedger(s);
    ReachableAfter(s, ds);
    assert s.queue[0] in s.queue && UserType(s.queue[0].typ);
    t := SettleAndReport(u);
    es := ds + [Snd(k, Settle), Snd(k, Report)];
    AfterConcat(s, ds, [Snd(k, Settle), Snd(k, Report)]);
    ReachableAfter(s, es);
  }

  // --- And the manager reconnects -------------------------------------------------------------------------

  lemma ReportEnd(s: State) returns (t: State)
    requires Reachable(s) && Broken(s)
    ensures After(s, [Mgr(Join), Mgr(Notify)]) == Some(t)
    ensures t.mgr.Attempting? && !t.handoff && t.senders == s.senders && SameTraffic(s, t)
  {
    ReachableControl(s);
    var u := Next(s, Mgr(Join));
    ManagerFrame(s, Join);
    t := Next(u, Mgr(Notify));
    NotifyFrame(u);
    TwoSteps(s, Mgr(Join), Mgr(Notify));
  }

  lemma Reconnects(s: State) returns (t: State)
    requires Reachable(s) && s.mgr.Attempting? && !s.handoff && s.cfg.linux && s.cfg.wired
    ensures After(s, [Mgr(Create(Opens(false))), Mgr(Start(true))]) == Some(t)
    ensures t.mgr.Awaiting? && t.senders == s.senders + [NewSender(false, false, true)] && SameTraffic(s, t)
  {
    ClosersGuardNeverFires(s);
    var u := Next(s, Mgr(Create(Opens(false))));
    CreateFrame(s, Opens(false));
    t := Next(u, Mgr(Start(true)));
    ManagerFrame(u, Start(true));
    TwoSteps(s, Mgr(Create(Opens(false))), Mgr(Start(true)));
  }

  lemma Serves(s: State) returns (t: State)
    requires s.mgr.Awaiting? && s.senders != [] && s.senders[|s.senders| - 1] == NewSender(false, false, true)
    requires s.queue != [] && s.cfg.linux && s.cfg.wired
    ensures After(s, [Snd(|s.senders| - 1, LoopTop)]) == Some(t)
    ensures Serving(t) && NoTraffic(s, t) && t.queue == s.queue && t.metrics.requeued == s.metrics.requeued
    ensures t.senders == s.senders[|s.senders| - 1 := NewSender(false, false, true).(pc := Select)]
  {
    var k := |s.senders| - 1;
    t := Next(s, Snd(k, LoopTop));
    IdleEffect(s, k, LoopTop);
    SenderFrame(s, k, LoopTop);
    FirstThen(s, Snd(k, LoopTop), []);
    assert [Snd(k, LoopTop)] + [] == [Snd(k, LoopTop)];
  }

  lemma Replaced(s: State) returns (t: State, es: seq<Event>)
    requires Reachable(s) && Broken(s)
    ensures After(s, es) == Some(t) && Serving(t) && NoTraffic(s, t)
    ensures t.senders == s.senders + [NewSender(false, false, true).(pc := Select)]
    ensures t.queue == s.queue && t.metrics.requeued == s.metrics.requeued && Reachable(t)
  {
    var u := ReportEnd(s);
    var ds := [Mgr(Join), Mgr(Notify)];
    ReachableAfter(s, ds);
    var v := Reconnects(u);
    var fs := [Mgr(Create(Opens(false))), Mgr(Start(true))];
    AfterConcat(s, ds, fs);
    t := Serves(v);
    var gs := [Snd(|v.senders| - 1, LoopTop)];
    AfterConcat(s, ds + fs, gs);
    es := ds + fs + gs;
    ReachableAfter(s, es);
  }

  // --- As often as you like -------------------------------------------------------------------------------

  /** From s to t, k connections were used up: each of them failed at its first write since s, and the one that
      serves now has written nothing. */
  ghost predicate UsedUp(s: State, k: nat, t: State) {
    && s.senders != [] && |t.senders| == |s.senders| + k
    && var n := |s.senders| - 1;
       && t.senders[..n] == s.senders[..n]
       && (k == 0 ==> t.senders[n] == s.senders[n])
       && (k > 0 ==>
             && FailedOnce(s.senders[n], t.senders[n])
             && t.senders[n + k].log == [] && t.senders[n + k].failures == 0)
       && forall i :: n < i < n + k ==> FailedOnce(NewSender(false, false, true), t.senders[i])
  }

  /** t can be reached from s by k failed writes of user messages, each followed by a reconnect. */
  ghost predicate FailsTo(s: State, k: nat, t: State) {
    && Serving(t) && Reachable(t) && NoTraffic(s, t) && UsedUp(s, k, t)
    && t.metrics.requeued == s.metrics.requeued + k && t.queue == Rotate(s.queue, k)
    && LeadsTo(s, t)
  }

  ghost predicate LeadsTo(s: State, t: State) {
    exists es :: After(s, es) == Some(t)
  }

  /** From a serving sender and any number k, there is a run in which k connections in a row fail at their first write:
      it counts k requeues and leaves the queue rotated k times. */
  lemma {:induction false} FirstWritesFail(s: State, k: nat)
    requires Reachable(s) && Serving(s)
    ensures exists t :: FailsTo(s, k, t)
  {
    if k == 0 {
      assert After(s, []) == Some(s);
      assert FailsTo(s, 0, s);
    } else {
      FirstWritesFail(s, k - 1);
      var u :| FailsTo(s, k - 1, u);
      var t := OnceMore(s, k, u);
      assert FailsTo(s, k, t);
    }
  }

  lemma OnceMore(s: State, k: nat, u: State) returns (t: State)
    requires k > 0 && FailsTo(s, k - 1, u)
    ensures FailsTo(s, k, t)
  {
    var v, fs := FailedWrite(u);
    var gs;
    t, gs := Replaced(v);
    OneMoreRun(s, u, v, fs, t, gs);
    OneMoreUsedUp(s, k, u, v, t);
    OneMoreTurn(s.queue, k, u.queue, t.queue);
  }

  lemma OneMoreTurn(q: seq<Msg>, k: nat, r: seq<Msg>, t: seq<Msg>)
    requires k > 0 && r == Rotate(q, k - 1) && t == Turn(r)
    ensures t == Rotate(q, k)
  {
  }

  lemma OneMoreRun(s: State, u: State, v: State, fs: seq<Event>, t: State, gs: seq<Event>)
    requires LeadsTo(s, u) && After(u, fs) == Some(v) && After(v, gs) == Some(t)
    ensures LeadsTo(s, t)
  {
    var es :| After(s, es) == Some(u);
    AfterConcat(s, es, fs);
    AfterConcat(s, es + fs, gs);
  }

  lemma OneMoreUsedUp(s: State, k: nat, u: State, v: State, t: State)
    requires k > 0 && UsedUp(s, k - 1, u) && Turned(u, v)
    requires k > 1 ==> !u.senders[|u.senders| - 1].noop
    requires t.senders == v.senders + [NewSender(false, false, true).(pc := Select)]
    ensures UsedUp(s, k, t)
  {
    var n := |s.senders| - 1;
    assert t.senders[..n] == u.senders[..n];
  }
}
