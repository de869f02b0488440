/** What a goroutine can rely on while the others run. */
module Interference {
  import opened Notices
  import opened Protocol
  import opened Frames
  import opened Control
  import opened Delivery
  import opened Heartbeats

  /** A sender's own state is its own, but for its context. While its loop runs, nobody else takes from the queue. */
  ghost predicate SenderKept(i: nat, s: State, t: State) {
    i < |s.senders| ==>
      && i < |t.senders|
      && t.senders[i] == s.senders[i].(cancelled := t.senders[i].cancelled)
      && (!s.senders[i].pc.Returned? ==> s.queue <= t.queue && s.hist.lost <= t.hist.lost)
  }

  /** What connections the senders were started on. */
  datatype Kind = Kind(noop: bool, builtin: bool)

  function KindsOf(xs: seq<Sender>): (ks: seq<Kind>)
    ensures |ks| == |xs| && forall i :: 0 <= i < |xs| ==> ks[i] == Kind(xs[i].noop, xs[i].builtin)
  {
    seq(|xs|, i requires 0 <= i < |xs| => Kind(xs[i].noop, xs[i].builtin))
  }

  lemma KindsOfAppend(xs: seq<Sender>, x: Sender)
    ensures KindsOf(xs + [x]) == KindsOf(xs) + [Kind(x.noop, x.builtin)]
  {
  }

  lemma KindsStay(xs: seq<Sender>, i: nat, x: Sender)
    requires i < |xs| && x.noop == xs[i].noop && x.builtin == xs[i].builtin
    ensures KindsOf(xs[i := x]) == KindsOf(xs)
  {
  }

  /** The same connections. */
  ghost predicate SendersKept(xs: seq<Sender>, ys: seq<Sender>) {
    KindsOf(xs) == KindsOf(ys) && |xs| == |ys| && forall i :: 0 <= i < |xs| ==> SenderLater(xs[i], ys[i])
  }

  /** y is x some time later: a loop that has ended does not run again, and one that ends with an error was cancelled or
      has failed to write. */
  ghost predicate SenderLater(x: Sender, y: Sender) {
    && x.failures <= y.failures && (x.cancelled ==> y.cancelled)
    && (x.pc.Returned? ==> y.pc == x.pc && y.failures == x.failures)
    && (!x.pc.Returned? && y.pc == Returned(false) && !y.cancelled ==> y.failures > 0)
  }

  lemma SenderLaterThen(x: Sender, y: Sender, z: Sender)
    requires SenderLater(x, y) && SenderLater(y, z)
    ensures SenderLater(x, z)
  {
  }

  lemma StepIsLater(s: State, i: nat, a: SenderAct)
    requires BeatsInv(s) && SenderEnabled(s, i, a)
    ensures var x := Advance(s, s.senders[i], a);
      SenderLater(s.senders[i], x) && x.noop == s.senders[i].noop && x.builtin == s.senders[i].builtin
  {
    assert SenderBeats(s.senders[i]);
  }

  lemma OneLater(xs: seq<Sender>, i: nat, x: Sender)
    requires i < |xs| && SenderLater(xs[i], x) && x.noop == xs[i].noop && x.builtin == xs[i].builtin
    ensures SendersKept(xs, xs[i := x])
  {
    KindsStay(xs, i, x);
  }

  lemma CancelKeepsSenders(xs: seq<Sender>, i: nat)
    requires i < |xs|
    ensures SendersKept(xs, xs[i := xs[i].(cancelled := true)])
  {
    OneLater(xs, i, xs[i].(cancelled := true));
  }

  lemma SendersKeptThen(xs: seq<Sender>, ys: seq<Sender>, zs: seq<Sender>)
    requires SendersKept(xs, ys) && SendersKept(ys, zs)
    ensures SendersKept(xs, zs)
  {
    forall i | 0 <= i < |xs| ensures SenderLater(xs[i], zs[i]) { SenderLaterThen(xs[i], ys[i], zs[i]); }
  }

  lemma OneMoreKept(xs: seq<Sender>, x: Sender, ys: seq<Sender>)
    requires SendersKept(xs + [x], ys)
    ensures SendersKept(xs, ys[..|xs|]) && SenderLater(x, ys[|xs|])
  {
    assert KindsOf(xs) == KindsOf(ys[..|xs|]) by {
      assert forall i :: 0 <= i < |xs| ==> KindsOf(xs + [x])[i] == KindsOf(ys)[i];
    }
    assert (xs + [x])[|xs|] == x && forall i :: 0 <= i < |xs| ==> (xs + [x])[i] == xs[i];
  }

  ghost predicate ManagerKept(s: State, t: State) {
    && t.mgr == s.mgr && t.handoff == s.handoff && t.published == s.published && t.dead == s.dead
    && t.hist.faults == s.hist.faults && t.hist.closersStarted == s.hist.closersStarted
    && t.hist.closersAtDeath == s.hist.closersAtDeath && t.hist.putFailures == s.hist.putFailures
    && SendersKept(s.senders, t.senders)
    && Attempts(t.notifier.offered) == Attempts(s.notifier.offered)
    && Deaths(t.notifier.offered) == Deaths(s.notifier.offered)
  }

  /** t comes after s by steps of goroutines other than me. */
  ghost predicate Relies(me: Actor, s: State, t: State) {
    && t.cfg == s.cfg && (s.dead ==> t.dead) && (s.published ==> t.published) && Grows(s, t)
    && t.notifier.cap == s.notifier.cap
    && match me
       case Producer(p) =>
         (p in t.producers <==> p in s.producers) && (p in s.producers ==> t.producers[p] == s.producers[p])
       case Loop(i) => SenderKept(i, s, t)
       case Manager => ManagerKept(s, t)
       case Environment => true
  }

  lemma SenderKeepsManager(s: State, i: nat, a: SenderAct)
    requires BeatsInv(s) && SenderEnabled(s, i, a)
    ensures ManagerKept(s, SenderStep(s, i, a))
  {
    SenderFrame(s, i, a);
    StepIsLater(s, i, a);
    OneLater(s.senders, i, Advance(s, s.senders[i], a));
    if a.Report? {
      DeathsOfAppend(s.notifier.offered, WriteFault);
      IdleEffect(s, i, a);
    }
  }

  lemma OutsiderKeepsManager(s: State, e: Event)
    requires Enabled(s, e) && !e.Snd? && !e.Mgr?
    ensures ManagerKept(s, Next(s, e))
  {
    OutsiderFrame(s, e);
    DeathsOfAppend(s.notifier.offered, CloseFault);
    if e.Put? { PutEffect(s, e.p); }
  }

  lemma OthersKeepManager(s: State, e: Event)
    requires BeatsInv(s) && Enabled(s, e) && !e.Mgr?
    ensures ManagerKept(s, Next(s, e))
  {
    if e.Snd? { SenderKeepsManager(s, e.i, e.step); } else { OutsiderKeepsManager(s, e); }
  }

  lemma OthersKeepSender(s: State, e: Event, i: nat)
    requires ControlInv(s) && Enabled(s, e) && ActorOf(e) != Loop(i)
    ensures SenderKept(i, s, Next(s, e))
  {
    match e
    case Snd(j, a) =>
      SenderFrame(s, j, a);
      OnlyLastRuns(s);
    case Mgr(a) =>
      ManagerFrame(s, a);
      if a.Start? { StartEffect(s, a.ok); }
      if a.Cancel? { CancelEffect(s); }
    case Put(p) =>
      OutsiderFrame(s, e);
      PutEffect(s, p);
    case Check(_, _, _) => OutsiderFrame(s, e);
    case CloserDone(_) => OutsiderFrame(s, e);
    case Read => OutsiderFrame(s, e);
  }

  lemma OthersKeepProducer(s: State, e: Event, p: nat)
    requires Enabled(s, e) && ActorOf(e) != Producer(p)
    ensures var t := Next(s, e);
      (p in t.producers <==> p in s.producers) && (p in s.producers ==> t.producers[p] == s.producers[p])
  {
    match e
    case Snd(j, a) => SenderFrame(s, j, a);
    case Mgr(a) => ManagerFrame(s, a);
    case _ =>
  }

  lemma Basics(s: State, e: Event)
    requires Enabled(s, e)
    ensures var t := Next(s, e);
      t.cfg == s.cfg && (s.dead ==> t.dead) && (s.published ==> t.published) && Grows(s, t)
      && t.notifier.cap == s.notifier.cap
  {
    StepGrows(s, e);
    match e
    case Snd(i, a) =>
      SenderFrame(s, i, a);
      if a.Report? { IdleEffect(s, i, a); }
    case Mgr(a) =>
      ManagerFrame(s, a);
      if a.Notify? { NotifyFrame(s); }
    case _ => OutsiderFrame(s, e);
  }

  lemma OneMoreStep(me: Actor, s: State, t: State, e: Event)
    requires Relies(me, s, t) && ControlInv(t) && BeatsInv(t) && Enabled(t, e) && ActorOf(e) != me
    ensures Relies(me, s, Next(t, e))
  {
    Basics(t, e);
    match me
    case Producer(p) => OthersKeepProducer(t, e, p);
    case Loop(i) => OthersKeepSender(t, e, i);
    case Manager =>
      OthersKeepManager(t, e);
      SendersKeptThen(s.senders, t.senders, Next(t, e).senders);
    case Environment =>
  }
}
