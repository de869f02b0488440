/** How fast a working connection delivers: in any run in which its writes succeed, whatever everyone else does. */
module Service {
  import opened Protocol
  import opened Frames
  import opened Control
  import opened Ledger
  import opened Delivery

  /** The manager waits for sender k, which runs on a real connection and is not in the middle of a failure. */
  ghost predicate Serves(s: State, k: nat) {
    && s.mgr.Awaiting? && |s.senders| == k + 1 && !s.senders[k].noop
    && (s.senders[k].pc.Top? || s.senders[k].pc.Select? || s.senders[k].pc.Writing?)
  }

  /** Sender k makes a step of its own. */
  predicate Own(e: Event, k: nat) {
    e.Snd? && e.i == k
  }

  /** How many steps sender k makes in a run. */
  function OwnSteps(es: seq<Event>, k: nat): nat {
    if es == [] then 0 else OwnSteps(es[..|es| - 1], k) + (if Own(es[|es| - 1], k) then 1 else 0)
  }

  /** How many of them see a tick. */
  function Ticks(es: seq<Event>, k: nat): nat {
    if es == [] then 0
    else Ticks(es[..|es| - 1], k) + (if Own(es[|es| - 1], k) && es[|es| - 1].step.Tick? then 1 else 0)
  }

  /** No write fails. */
  predicate NoFailure(es: seq<Event>) {
    forall e <- es :: !(e.Snd? && e.step == WriteDone(false))
  }

  /** How far the sender is in its round: a round is three steps, one that starts with a tick is paid for in advance. */
  function Phase(x: Sender): int {
    match x.pc
    case Top => 0
    case Select => 1
    case Writing(_, beat) => if !beat then 2 else if x.ticker then -1 else 0
    case _ => 0
  }

  function First(x: Sender): nat {
    if x.ticker then 1 else 0
  }

  /** The round of x is paid for: its steps are three for each message delivered and each tick, and one for the first
      heartbeat. */
  lemma SenderPays(s: State, k: nat, a: SenderAct)
    requires Serves(s, k) && ControlInv(s) && TypesInv(s) && SenderEnabled(s, k, a) && a != WriteDone(false)
    ensures var t := SenderStep(s, k, a);
      && Serves(t, k)
      && 1 + Phase(s.senders[k]) + First(s.senders[k])
         == 3 * (|t.hist.written| - |s.hist.written|) + (if a.Tick? then 3 else 0)
            + Phase(t.senders[k]) + First(t.senders[k])
  {
    SenderFrame(s, k, a);
    assert SenderSane(s.senders[k]);
    match a
    case Take => TakeEffect(s, k);
    case WriteDone(ok) => WriteEffect(s, k, ok);
    case Settle =>
    case _ => IdleEffect(s, k, a);
  }

  /** From s to t messages were written in the order in which they were held, queued and accepted. */
  ghost predicate InTurn(s: State, t: State) {
    && s.hist.accepted <= t.hist.accepted
    && t.hist.written + Carried(t) == s.hist.written + Carried(s) + t.hist.accepted[|s.hist.accepted|..]
  }

  lemma SenderInTurn(s: State, k: nat, a: SenderAct)
    requires Serves(s, k) && ControlInv(s) && TypesInv(s) && SenderEnabled(s, k, a) && a != WriteDone(false)
    ensures InTurn(s, SenderStep(s, k, a))
  {
    SenderFrame(s, k, a);
    if MovesMessage(s.senders[k], a) {
      SentCarries(s, k);
    } else {
      OtherCarries(s, k, a);
    }
  }

  /** The others take nothing from the queue and leave the sender alone. */
  lemma OthersWait(s: State, k: nat, e: Event)
    requires Serves(s, k) && ControlInv(s) && Enabled(s, e) && !Own(e, k)
    ensures var t := Next(s, e);
      Serves(t, k) && InTurn(s, t) && t.hist.written == s.hist.written && t.senders == s.senders
  {
    OnlyLastRuns(s);
    OutsiderFrame(s, e);
    if e.Put? { PutEffect(s, e.p); }
  }

  lemma InTurnThen(s: State, u: State, t: State)
    requires InTurn(s, u) && InTurn(u, t)
    ensures InTurn(s, t)
  {
    var n, m := |s.hist.accepted|, |u.hist.accepted|;
    assert t.hist.accepted[n..] == u.hist.accepted[n..] + t.hist.accepted[m..];
  }

  /** What the steps of the sender were spent on. */
  ghost predicate Paid(s: State, es: seq<Event>, t: State, k: nat)
    requires k < |s.senders| && k < |t.senders|
  {
    OwnSteps(es, k) + Phase(s.senders[k]) + First(s.senders[k])
    == 3 * (|t.hist.written| - |s.hist.written|) + 3 * Ticks(es, k) + Phase(t.senders[k]) + First(t.senders[k])
  }

  /** In any run without a failed write, of any goroutines in any order: the sender keeps serving, messages are
      delivered in turn, and its steps are three for each message and each tick, up to the round it is in and one first
      heartbeat. */
  lemma {:induction false} StepsDeliver(s: State, es: seq<Event>, k: nat)
    requires ControlInv(s) && TypesInv(s) && Serves(s, k) && After(s, es).Some? && NoFailure(es)
    ensures var t := After(s, es).value;
      ControlInv(t) && TypesInv(t) && Serves(t, k) && InTurn(s, t) && Paid(s, es, t, k)
  {
    if es != [] {
      var i := |es| - 1;
      var u := After(s, es[..i]).value;
      var e := es[i];
      StepsDeliver(s, es[..i], k);
      StepControl(u, e);
      StepTypes(u, e);
      if Own(e, k) {
        SenderPays(u, k, e.step);
        SenderInTurn(u, k, e.step);
      } else {
        OthersWait(u, k, e);
      }
      InTurnThen(s, u, Next(u, e));
    }
  }

  /** So a working connection delivers: once its sender has made more than three steps for each message held, for each
      of the first n queued and for each tick it saw, these messages have been written, in order. */
  lemma FirstAreDelivered(s: State, es: seq<Event>, k: nat, n: nat)
    requires Reachable(s) && Serves(s, k) && After(s, es).Some? && NoFailure(es) && n <= |s.queue|
    requires OwnSteps(es, k) > 3 * (|InFlight(s.senders)| + n + Ticks(es, k))
    ensures s.hist.written + InFlight(s.senders) + s.queue[..n] <= After(s, es).value.hist.written
  {
    ReachableLedger(s);
    StepsDeliver(s, es, k);
    var t := After(s, es).value;
    EnoughSteps(s, es, t, k, |InFlight(s.senders)| + n);
    DueFirst(s.hist.written, InFlight(s.senders), s.queue, t.hist.accepted[|s.hist.accepted|..], n,
             t.hist.written, Carried(t));
  }

  lemma EnoughSteps(s: State, es: seq<Event>, t: State, k: nat, n: nat)
    requires Serves(s, k) && Serves(t, k) && Paid(s, es, t, k) && OwnSteps(es, k) > 3 * (n + Ticks(es, k))
    ensures |t.hist.written| >= |s.hist.written| + n
  {
    assert 0 <= Phase(s.senders[k]) + First(s.senders[k]);
    assert Phase(t.senders[k]) + First(t.senders[k]) <= 3;
  }

  lemma DueFirst(w: seq<Msg>, f: seq<Msg>, q: seq<Msg>, more: seq<Msg>, n: nat, x: seq<Msg>, c: seq<Msg>)
    requires x + c == w + (f + q) + more && n <= |q| && |x| >= |w| + |f| + n
    ensures w + f + q[..n] <= x
  {
    var due := w + f + q[..n];
    assert x == (x + c)[..|x|];
    assert due == (w + (f + q) + more)[..|due|];
  }
}
