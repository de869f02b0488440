/** A live client never wedges: from every reachable state in which it can still connect, there is a way on in which
    everything queued is delivered. */
module Recovery {
  import opened Protocol
  import opened Frames
  import opened Control
  import opened Ledger
  import opened Delivery
  import opened Death

  function Last(s: State): Sender
    requires s.senders != []
  {
    s.senders[|s.senders| - 1]
  }

  /** The client is neither dead nor dying nor without a manager, and is not served by a no-op connection that the
      user's create function returned: such a connection never breaks. */
  ghost predicate Hopeful(s: State) {
    && s.cfg.Valid() && s.cfg.linux && s.cfg.wired
    && match s.mgr
       case Boot | Launching(_) | Deferring(_) | NotifyStart(_) | StartingNoop => true
       case Attempting | Starting(_) | NotifyEnded => true
       case Cancelling(next) => next.Some?
       case JoiningNoop(next) => next.Some?
       case NotifyFault(f) => !f.Permanent()
       case Awaiting => s.senders != [] && (Last(s).noop ==> Last(s).pc.Returned?)
       case Refused | Unmanaged | DyingPut(_) | DyingGet(_) | StoringDead(_) | NotifyBug | Stopped => false
  }

  /** Idle on a working connection with nothing left to send. */
  ghost predicate Settled(s: State) {
    s.mgr.Awaiting? && s.senders != [] && Last(s).pc.Select? && s.queue == []
  }

  // --- The favourable next step ---------------------------------------------------------------------------

  function LoopAct(x: Sender): SenderAct
    requires !x.pc.Returned?
  {
    match x.pc
    case Top => LoopTop
    case Select => if x.cancelled then Quit else Take
    case Writing(_, _) => WriteDone(true)
    case Failed(_, _) => Settle
    case Reporting => Report
  }

  /** A real sender is started; one on a no-op connection, which would serve for ever, is not. */
  function ManagerWay(m: Manager): ManagerAct {
    match m
    case Boot | Attempting => Create(Opens(false))
    case Launching(_) | Deferring(_) => Launch(true)
    case StartingNoop => Start(true)
    case Starting(noop) => Start(!noop)
    case Cancelling(_) => Cancel
    case Awaiting | JoiningNoop(_) => Join
    case _ => Notify
  }

  predicate SenderRuns(s: State) {
    (s.mgr.Awaiting? || s.mgr.JoiningNoop?) && s.senders != [] && !Last(s).pc.Returned?
  }

  function Way(s: State): Event {
    if SenderRuns(s) then Snd(|s.senders| - 1, LoopAct(Last(s))) else Mgr(ManagerWay(s.mgr))
  }

  /** How far the sender is from the select of its loop. */
  function PcRank(pc: Pc): nat {
    match pc
    case Writing(_, beat) => if beat then 4 else 1
    case Select => 2
    case Top => 3
    case Returned(_) => 13
    case Reporting => 14
    case Failed(_, _) => 15
  }

  /** How far the manager is from a connected sender. */
  function Rank(s: State): nat {
    match s.mgr
    case Awaiting => if s.senders == [] then 0 else PcRank(Last(s).pc)
    case Starting(noop) => 5 + Detour(noop)
    case JoiningNoop(next) => if s.senders == [] then 0 else NoopRank(Last(s).pc) + Detour(next == Some(true))
    case Launching(noop) => 6 + Detour(noop)
    case Boot => 7
    case Cancelling(next) => 10 + Detour(next == Some(true))
    case Attempting => 11
    case NotifyFault(_) => 12
    case NotifyEnded => 12
    case StartingNoop => 12
    case NotifyStart(_) => 13
    case Deferring(_) => 14
    case _ => 0
  }

  /** A sender on a no-op connection has to be got rid of first. */
  function Detour(noop: bool): nat {
    if noop then 15 else 0
  }

  function NoopRank(pc: Pc): nat {
    match pc
    case Returned(_) => 6
    case Top => 7
    case Select => 8
    case _ => 9
  }

  // --- What it costs --------------------------------------------------------------------------------------

  /** Messages dropped so far, and those a sender holds without being able to write them to a real connection. */
  ghost function Waste(s: State): multiset<Msg> {
    multiset(s.hist.lost) + multiset(s.hist.swallowed) + multiset(AtRisk(s))
  }

  ghost function AtRisk(s: State): seq<Msg> {
    if s.mgr.Awaiting? && s.senders != [] && Last(s).pc.Writing? then [] else InFlight(s.senders)
  }

  /** From s to t: nothing accepted, nothing more put at risk, and closer to being settled. */
  ghost predicate Progress(s: State, t: State) {
    && t.hist.accepted == s.hist.accepted
    && Waste(t) <= Waste(s)
    && (|Carried(t)| < |Carried(s)| || (|Carried(t)| == |Carried(s)| && Rank(t) < Rank(s)))
  }

  ghost predicate Sound(s: State) {
    ControlInv(s) && TypesInv(s) && LedgerInv(s) && ClosersInv(s)
  }

  /** A step of the manager towards a connected sender. */
  ghost predicate Nearer(s: State, a: ManagerAct) {
    ManagerEnabled(s, a) && Hopeful(ManagerStep(s, a)) && Rank(ManagerStep(s, a)) < Rank(s)
  }

  lemma CreateNearer(s: State)
    requires Hopeful(s) && (s.mgr.Boot? || s.mgr.Attempting?) && s.closers <= s.cfg.maxClosers
    ensures Nearer(s, Create(Opens(false)))
  {
  }

  lemma StartNearer(s: State)
    requires Hopeful(s) && (s.mgr.StartingNoop? || s.mgr.Starting?)
    ensures Nearer(s, ManagerWay(s.mgr))
  {
  }

  lemma JoinNearer(s: State)
    requires Hopeful(s) && (s.mgr.Awaiting? || s.mgr.JoiningNoop?)
    requires s.senders != [] && Last(s).pc.Returned? && (s.mgr.Awaiting? ==> !Last(s).pc.clean)
    ensures Nearer(s, Join)
  {
  }

  lemma NotifyNearer(s: State)
    requires Hopeful(s) && (s.mgr.NotifyStart? || s.mgr.NotifyFault? || s.mgr.NotifyEnded?)
    ensures Nearer(s, Notify)
  {
  }

  lemma OtherNearer(s: State)
    requires Hopeful(s) && (s.mgr.Launching? || s.mgr.Deferring? || (s.mgr.Cancelling? && s.senders != []))
    ensures Nearer(s, ManagerWay(s.mgr))
  {
  }

  lemma ManagerProgress(s: State)
    requires Sound(s) && Hopeful(s) && !SenderRuns(s)
    ensures Nearer(s, ManagerWay(s.mgr))
  {
    match ManagerWay(s.mgr)
    case Create(_) => CreateNearer(s);
    case Start(_) => StartNearer(s);
    case Join =>
      assert SenderSane(Last(s));
      JoinNearer(s);
    case Notify => NotifyNearer(s);
    case _ => OtherNearer(s);
  }

  lemma ManagerCosts(s: State)
    requires Sound(s) && Hopeful(s) && !SenderRuns(s) && ManagerEnabled(s, ManagerWay(s.mgr))
    ensures var t := ManagerStep(s, ManagerWay(s.mgr));
      t.hist.accepted == s.hist.accepted && Waste(t) <= Waste(s) && Carried(t) == Carried(s)
  {
    ManagerFrame(s, ManagerWay(s.mgr));
    ManagerCarries(s, ManagerWay(s.mgr));
    ManagerKeepsInFlight(s, ManagerWay(s.mgr));
    assert AtRisk(s) == InFlight(s.senders);
  }

  lemma SenderWay(s: State)
    requires Sound(s) && Hopeful(s) && SenderRuns(s) && !Settled(s)
    ensures var i := |s.senders| - 1;
      var a := LoopAct(Last(s));
      && SenderEnabled(s, i, a)
      && Hopeful(SenderStep(s, i, a))
      && (!MovesMessage(Last(s), a) || a.Settle? ==> Rank(SenderStep(s, i, a)) < Rank(s))
  {
    var i := |s.senders| - 1;
    assert SenderSane(s.senders[i]) && SenderTyped(s.senders[i]);
    SenderNearer(s);
  }

  lemma SenderNearer(s: State)
    requires Hopeful(s) && SenderRuns(s) && !Settled(s) && SenderSane(Last(s))
    requires s.mgr.JoiningNoop? ==> Last(s).noop && Last(s).cancelled
    ensures var i := |s.senders| - 1;
      var a := LoopAct(Last(s));
      && SenderEnabled(s, i, a)
      && Hopeful(SenderStep(s, i, a))
      && (!MovesMessage(Last(s), a) || a.Settle? ==> Rank(SenderStep(s, i, a)) < Rank(s))
  {
    SenderFrame(s, |s.senders| - 1, LoopAct(Last(s)));
  }

  /** What a running sender holds is at risk, unless it is writing it to a real connection. */
  lemma RiskOf(s: State, i: nat, a: SenderAct)
    requires ControlInv(s) && SenderEnabled(s, i, a)
    ensures i == |s.senders| - 1
    ensures AtRisk(s) == if s.mgr.Awaiting? && s.senders[i].pc.Writing? then [] else Held(s.senders[i])
    ensures var t := SenderStep(s, i, a);
      var y := Advance(s, s.senders[i], a);
      AtRisk(t) == if s.mgr.Awaiting? && y.pc.Writing? then [] else Held(y)
  {
    SenderFrame(s, i, a);
    OnlyLastHolds(s, i);
    InFlightAfter(s, i, Advance(s, s.senders[i], a));
  }

  lemma SentCosts(s: State, i: nat)
    requires ControlInv(s) && SenderEnabled(s, i, WriteDone(true)) && !s.senders[i].pc.beat
    requires s.mgr.Awaiting? <==> !s.senders[i].noop
    ensures var t := SenderStep(s, i, WriteDone(true)); Waste(t) <= Waste(s) && |Carried(t)| < |Carried(s)|
  {
    RiskOf(s, i, WriteDone(true));
    SentCarries(s, i);
    SentWastes(s, SenderStep(s, i, WriteDone(true)), s.senders[i]);
  }

  /** What is written to a no-op connection was at risk before. */
  lemma SentWastes(s: State, t: State, x: Sender)
    requires x.pc.Writing? && !x.pc.beat && t.hist == LogWrite(s.hist, x)
    requires AtRisk(s) == (if x.noop then [x.pc.m] else []) && AtRisk(t) == []
    ensures Waste(t) <= Waste(s)
  {
  }

  lemma SettleCosts(s: State, i: nat)
    requires ControlInv(s) && SenderEnabled(s, i, Settle) && !s.senders[i].pc.beat && SenderTyped(s.senders[i])
    ensures var t := SenderStep(s, i, Settle); Waste(t) <= Waste(s) && |Carried(t)| <= |Carried(s)|
  {
    RiskOf(s, i, Settle);
    SettleCarries(s, i);
    SettledWastes(s, SenderStep(s, i, Settle), s.senders[i].pc.m);
  }

  /** What is settled was at risk before. */
  lemma SettledWastes(s: State, t: State, m: Msg)
    requires t.hist == s.hist || t.hist == s.hist.(lost := s.hist.lost + [m])
    requires AtRisk(s) == [m] && AtRisk(t) == []
    ensures Waste(t) <= Waste(s)
  {
  }

  lemma OtherCosts(s: State, i: nat, a: SenderAct)
    requires ControlInv(s) && TypesInv(s) && SenderEnabled(s, i, a) && !MovesMessage(s.senders[i], a)
    requires a.WriteDone? ==> a.ok
    requires a.Take? ==> s.mgr.Awaiting?
    ensures var t := SenderStep(s, i, a); Waste(t) <= Waste(s) && |Carried(t)| <= |Carried(s)|
  {
    RiskOf(s, i, a);
    OtherCarries(s, i, a);
    assert SenderTyped(s.senders[i]);
    assert AtRisk(SenderStep(s, i, a)) == [];
  }

  lemma SenderCosts(s: State)
    requires Sound(s) && Hopeful(s) && SenderRuns(s) && SenderEnabled(s, |s.senders| - 1, LoopAct(Last(s)))
    ensures var i := |s.senders| - 1;
      var a := LoopAct(Last(s));
      var t := SenderStep(s, i, a);
      && Waste(t) <= Waste(s) && |Carried(t)| <= |Carried(s)|
      && (MovesMessage(Last(s), a) && !a.Settle? ==> |Carried(t)| < |Carried(s)|)
  {
    var i := |s.senders| - 1;
    var x := s.senders[i];
    var a := LoopAct(x);
    assert SenderSane(x) && SenderTyped(x);
    if MovesMessage(x, a) {
      if a.Settle? { SettleCosts(s, i); } else { SentCosts(s, i); }
    } else {
      OtherCosts(s, i, a);
    }
  }

  lemma SoundNext(s: State, e: Event)
    requires Sound(s) && Enabled(s, e)
    ensures Sound(Next(s, e))
  {
    StepControl(s, e);
    StepTypes(s, e);
    StepLedger(s, e);
    StepClosers(s, e);
  }

  lemma SenderOneStep(s: State)
    requires Sound(s) && Hopeful(s) && !Settled(s) && SenderRuns(s)
    ensures Enabled(s, Way(s))
    ensures var t := Next(s, Way(s)); Hopeful(t) && Progress(s, t)
  {
    SenderWay(s);
    SenderCosts(s);
    var i := |s.senders| - 1;
    var a := LoopAct(Last(s));
    assert Way(s) == Snd(i, a) && Next(s, Way(s)) == SenderStep(s, i, a);
    SenderFrame(s, i, a);
  }

  lemma ManagerOneStep(s: State)
    requires Sound(s) && Hopeful(s) && !SenderRuns(s)
    ensures Enabled(s, Way(s))
    ensures var t := Next(s, Way(s)); Hopeful(t) && Progress(s, t)
  {
    ManagerProgress(s);
    ManagerCosts(s);
  }

  lemma OneStep(s: State)
    requires Sound(s) && Hopeful(s) && !Settled(s)
    ensures Enabled(s, Way(s))
    ensures var t := Next(s, Way(s)); Sound(t) && Hopeful(t) && Progress(s, t)
  {
    if SenderRuns(s) { SenderOneStep(s); } else { ManagerOneStep(s); }
    SoundNext(s, Way(s));
  }

  lemma {:induction false} Recover(s: State) returns (es: seq<Event>)
    requires Sound(s) && Hopeful(s)
    ensures After(s, es).Some?
    ensures var t := After(s, es).value;
      Sound(t) && Hopeful(t) && Settled(t) && t.hist.accepted == s.hist.accepted && Waste(t) <= Waste(s)
    decreases |Carried(s)|, Rank(s)
  {
    if Settled(s) {
      es := [];
    } else {
      OneStep(s);
      var t := Next(s, Way(s));
      var rest := Recover(t);
      es := [Way(s)] + rest;
      FirstThen(s, Way(s), rest);
    }
  }

  /** From s to t nothing was accepted, and everything that was queued or held at s is accounted for. */
  ghost predicate Delivered(s: State, t: State) {
    && t.queue == [] && InFlight(t.senders) == [] && t.hist.accepted == s.hist.accepted
    && (forall m <- s.queue :: m in t.hist.written)
    && (forall m <- s.hist.accepted ::
          m in t.hist.written || m in s.hist.lost || m in s.hist.swallowed || m in InFlight(s.senders))
  }

  ghost predicate CanDeliver(s: State) {
    exists es :: After(s, es).Some? && Delivered(s, After(s, es).value)
  }

  /** The messages queued by a client that can still connect are never stranded: there is a continuation without new
      Sends after which nothing is queued or held, and every message that was queued has been written to a real
      connection. Only a message that a sender was already holding may have been dropped instead. */
  lemma HopefulDelivers(s: State)
    requires Reachable(s) && Hopeful(s)
    ensures CanDeliver(s)
  {
    ReachableDeath(s);
    ReachableLedger(s);
    var es := Recover(s);
    var t := After(s, es).value;
    OnlyLastHolds(t, |t.senders| - 1);
    SettledDelivers(s, t);
  }

  lemma SettledDelivers(s: State, t: State)
    requires Reachable(s) && LedgerInv(t) && t.queue == [] && InFlight(t.senders) == []
    requires t.hist.accepted == s.hist.accepted && Waste(t) <= Waste(s)
    ensures Delivered(s, t)
  {
    forall m <- s.hist.accepted
      ensures m in t.hist.written || m in s.hist.lost || m in s.hist.swallowed || m in InFlight(s.senders)
    {
      WrittenUnlessWasted(s, t, m);
    }
    forall m <- s.queue ensures m in t.hist.written {
      QueuedOnlyOnce(s, m);
      WrittenUnlessWasted(s, t, m);
    }
  }

  lemma QueuedOnlyOnce(s: State, m: Msg)
    requires Reachable(s) && m in s.queue
    ensures m in s.hist.accepted && m !in s.hist.lost && m !in s.hist.swallowed && m !in InFlight(s.senders)
  {
    EachMessageInOnePlace(s, m);
    assert multiset(s.queue)[m] >= 1;
  }

  lemma WrittenUnlessWasted(s: State, t: State, m: Msg)
    requires LedgerInv(t) && t.queue == [] && InFlight(t.senders) == [] && m in s.hist.accepted
    requires t.hist.accepted == s.hist.accepted && Waste(t) <= Waste(s)
    ensures m in t.hist.written || m in s.hist.lost || m in s.hist.swallowed || m in InFlight(s.senders)
  {
    assert m in multiset(t.hist.accepted);
    assert m in Placed(t.hist, t.queue, InFlight(t.senders));
    if m !in t.hist.written {
      assert m in Waste(t);
      assert m in Waste(s);
    }
  }

  // --- No way on from anywhere else -----------------------------------------------------------------------

  /** Whether the connection that the next sender will get is a no-op one, if there is one. */
  function Pending(m: Manager): Option<bool> {
    match m
    case Launching(noop) => Some(noop)
    case Starting(noop) => Some(noop)
    case Cancelling(next) => next
    case JoiningNoop(next) => next
    case _ => None
  }

  /** There are real connections on linux only, and none at all for a client without its channels and metrics. */
  ghost predicate PlatformInv(s: State) {
    && s.cfg.Valid()
    && (!s.cfg.wired ==> s.mgr.Boot? || s.mgr.Refused?)
    && (!s.cfg.linux ==>
          Pending(s.mgr) != Some(false) && forall i :: 0 <= i < |s.senders| ==> s.senders[i].noop)
  }

  lemma AttemptPlatform(s: State, o: Outcome)
    requires PlatformInv(s) && ManagerEnabled(s, Create(o))
    ensures PlatformInv(ManagerStep(s, Create(o)))
  {
    CreateFrame(s, o);
  }

  lemma NotifyPlatform(s: State)
    requires PlatformInv(s) && ManagerEnabled(s, Notify)
    ensures PlatformInv(ManagerStep(s, Notify))
  {
    NotifyFrame(s);
  }

  lemma OtherPlatform(s: State, a: ManagerAct)
    requires PlatformInv(s) && ManagerEnabled(s, a) && !a.Create? && !a.Notify?
    ensures PlatformInv(ManagerStep(s, a))
  {
    ManagerFrame(s, a);
    if a.Cancel? { CancelEffect(s); }
  }

  lemma StepPlatform(s: State, e: Event)
    requires PlatformInv(s) && Enabled(s, e)
    ensures PlatformInv(Next(s, e))
  {
    match e
    case Snd(i, a) => SenderFrame(s, i, a);
    case Mgr(a) =>
      match a {
        case Create(o) => AttemptPlatform(s, o);
        case Notify => NotifyPlatform(s);
        case _ => OtherPlatform(s, a);
      }
    case _ => OutsiderFrame(s, e);
  }

  lemma {:induction false} PlatformHolds(cfg: Config, es: seq<Event>)
    requires cfg.Valid() && After(Init(cfg), es).Some?
    ensures PlatformInv(After(Init(cfg), es).value)
  {
    if es != [] {
      var k := |es| - 1;
      PlatformHolds(cfg, es[..k]);
      StepPlatform(After(Init(cfg), es[..k]).value, es[k]);
    }
  }

  /** Whoever still runs then writes to a no-op connection. */
  lemma OnlyNoopsRun(s: State, i: nat)
    requires ControlInv(s) && PlatformInv(s) && !Hopeful(s) && Consumes(s, i)
    ensures s.senders[i].noop
  {
    OnlyLastRuns(s);
    assert SenderSane(s.senders[i]);
  }

  lemma SenderStaysHopeless(s: State, i: nat, a: SenderAct)
    requires ControlInv(s) && PlatformInv(s) && !Hopeful(s) && SenderEnabled(s, i, a)
    ensures var t := SenderStep(s, i, a); !Hopeful(t) && t.hist.written == s.hist.written
  {
    OnlyNoopsRun(s, i);
    OnlyLastRuns(s);
    assert SenderSane(s.senders[i]);
    SenderFrame(s, i, a);
    NoopWrites(s, i, a);
  }

  lemma NoopWrites(s: State, i: nat, a: SenderAct)
    requires SenderEnabled(s, i, a) && s.senders[i].noop && SenderSane(s.senders[i])
    ensures SenderStep(s, i, a).hist.written == s.hist.written
    ensures !s.senders[i].cancelled ==> !Advance(s, s.senders[i], a).pc.Returned?
    ensures Advance(s, s.senders[i], a).noop
  {
    match a
    case Take => TakeEffect(s, i);
    case WriteDone(ok) => WriteEffect(s, i, ok);
    case Settle =>
    case _ => IdleEffect(s, i, a);
  }

  lemma ManagerStaysHopeless(s: State, a: ManagerAct)
    requires ControlInv(s) && PlatformInv(s) && !Hopeful(s) && ManagerEnabled(s, a)
    ensures var t := ManagerStep(s, a); !Hopeful(t) && t.hist.written == s.hist.written
  {
    ManagerFrame(s, a);
  }

  lemma StaysHopeless(s: State, e: Event)
    requires ControlInv(s) && PlatformInv(s) && !Hopeful(s) && Enabled(s, e)
    ensures var t := Next(s, e); !Hopeful(t) && t.hist.written == s.hist.written
  {
    match e
    case Snd(i, a) => SenderStaysHopeless(s, i, a);
    case Mgr(a) => ManagerStaysHopeless(s, a);
    case _ => OutsiderFrame(s, e);
  }

  lemma {:induction false} HopelessAlong(s: State, es: seq<Event>)
    requires ControlInv(s) && PlatformInv(s) && !Hopeful(s) && After(s, es).Some?
    ensures var t := After(s, es).value;
      ControlInv(t) && PlatformInv(t) && !Hopeful(t) && t.hist.written == s.hist.written
  {
    if es != [] {
      var k := |es| - 1;
      var u := After(s, es[..k]).value;
      HopelessAlong(s, es[..k]);
      StaysHopeless(u, es[k]);
      StepControl(u, es[k]);
      StepPlatform(u, es[k]);
    }
  }

  /** From any other reachable state no run ever writes a user message to a real connection again. */
  lemma HopelessWritesNothing(s: State, es: seq<Event>)
    requires Reachable(s) && !Hopeful(s) && After(s, es).Some?
    ensures After(s, es).value.hist.written == s.hist.written
  {
    var fs :| After(Init(s.cfg), fs) == Some(s);
    ReachableControl(s);
    PlatformHolds(s.cfg, fs);
    HopelessAlong(s, es);
  }

  // --- Exactly when ---------------------------------------------------------------------------------------

  /** A client with messages in its queue can still deliver them exactly if it is hopeful. */
  lemma NeverWedged(s: State)
    requires Reachable(s) && s.queue != []
    ensures CanDeliver(s) <==> Hopeful(s)
  {
    if Hopeful(s) {
      HopefulDelivers(s);
    } else if CanDeliver(s) {
      var es :| After(s, es).Some? && Delivered(s, After(s, es).value);
      HopelessWritesNothing(s, es);
      assert s.queue[0] in s.hist.written;
      QueuedNotWritten(s, s.queue[0]);
    }
  }

  lemma QueuedNotWritten(s: State, m: Msg)
    requires Reachable(s) && m in s.queue
    ensures m !in s.hist.written
  {
    EachMessageInOnePlace(s, m);
    assert multiset(s.queue)[m] >= 1;
  }

  /** Some run goes on to write another user message to a real connection. */
  ghost predicate WritesAgain(s: State) {
    exists es :: After(s, es).Some? && s.hist.written < After(s, es).value.hist.written
  }

  /** And whatever is queued, it will write another message in some run exactly if it is hopeful. */
  lemma WritesAgainIffHopeful(s: State)
    requires Reachable(s)
    ensures WritesAgain(s) <==> Hopeful(s)
  {
    if Hopeful(s) {
      HopefulWrites(s);
    } else if WritesAgain(s) {
      var es :| After(s, es).Some? && s.hist.written < After(s, es).value.hist.written;
      HopelessWritesNothing(s, es);
    }
  }

  lemma HopefulWrites(s: State)
    requires Reachable(s) && Hopeful(s)
    ensures WritesAgain(s)
  {
    ReachableDeath(s);
    ReachableLedger(s);
    var es := Recover(s);
    var t := After(s, es).value;
    var fs := OneMoreSend(t);
    AfterConcat(s, es, fs);
    RunGrows(s, es);
    assert s.hist.written < After(s, es + fs).value.hist.written;
  }

  lemma PassesCheck(s: State) returns (p: nat, es: seq<Event>, t: State)
    requires s.published && !s.dead
    ensures After(s, es) == Some(t) && p in t.producers
    ensures t.senders == s.senders && t.queue == s.queue && t.hist == s.hist && t.cfg == s.cfg
  {
    if s.producers == map[] {
      p, es, t := 0, [Check(0, DATA_PLANE, true)], Next(s, Check(0, DATA_PLANE, true));
      FirstThen(s, es[0], []);
      assert es == [es[0]] + [];
    } else {
      p :| p in s.producers;
      es, t := [], s;
    }
  }

  /** One more Send, accepted and delivered. */
  lemma OneMoreSend(s: State) returns (es: seq<Event>)
    requires Sound(s) && Hopeful(s) && Settled(s)
    ensures After(s, es).Some? && s.hist.written < After(s, es).value.hist.written
  {
    var p, ds, t := PassesCheck(s);
    var fs := PutAndWrite(t, p);
    AfterConcat(s, ds, fs);
    es := ds + fs;
  }

  lemma PutAndWrite(s: State, p: nat) returns (es: seq<Event>)
    requires p in s.producers && s.queue == [] && s.cfg.Valid()
    requires s.senders != [] && Last(s).pc.Select? && !Last(s).noop
    ensures After(s, es).Some? && s.hist.written < After(s, es).value.hist.written
  {
    var k := |s.senders| - 1;
    var t := Next(s, Put(p));
    PutEffect(s, p);
    OutsiderFrame(s, Put(p));
    var u := Next(t, Snd(k, Take));
    TakeEffect(t, k);
    SenderFrame(t, k, Take);
    WriteEffect(u, k, true);
    es := [Put(p), Snd(k, Take), Snd(k, WriteDone(true))];
    ThreeSteps(s, Put(p), Snd(k, Take), Snd(k, WriteDone(true)));
  }

  lemma ThreeSteps(s: State, e: Event, f: Event, g: Event)
    requires Enabled(s, e) && Enabled(Next(s, e), f) && Enabled(Next(Next(s, e), f), g)
    ensures After(s, [e, f, g]) == Some(Next(Next(Next(s, e), f), g))
  {
    FirstThen(s, e, [f, g]);
    FirstThen(Next(s, e), f, [g]);
    FirstThen(Next(Next(s, e), f), g, []);
    assert [e, f, g] == [e] + [f, g] && [f, g] == [f] + [g] && [g] == [g] + [];
  }
}
