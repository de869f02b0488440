/** How a client dies: the closers, the cause, the death notice, and what Send can still do afterwards. */
module Death {
  import opened Notices
  import opened Protocol
  import opened Frames
  import opened Control

  // --- Causes and closers ---------------------------------------------------------------------------------

  /** sendNotifyDead has returned. */
  predicate Over(m: Manager) {
    m.StoringDead? || m == Cancelling(None) || m == JoiningNoop(None) || m.Stopped?
  }

  predicate Dying(m: Manager) {
    m.DyingPut? || m.DyingGet?
  }

  function LastFault(s: State): Fault
    requires s.hist.faults != []
  {
    s.hist.faults[|s.hist.faults| - 1]
  }

  /** The cause is the last failed attempt, and it is permanent and not the closers guard. */
  ghost predicate Doomed(s: State) {
    s.hist.faults != [] && LastFault(s).Permanent() && !LastFault(s).ClosersFault?
  }

  ghost predicate ClosersInv(s: State) {
    && s.closers <= s.hist.closersStarted <= 1
    && (s.hist.closersStarted == 1 ==>
          s.mgr.Refused? || s.mgr.NotifyFault? || Dying(s.mgr) || Over(s.mgr))
    && (s.mgr.NotifyFault? ==> s.hist.faults != [] && s.mgr.fault == LastFault(s) && !s.mgr.fault.ClosersFault?)
    && (s.mgr.NotifyFault? && s.hist.closersStarted == 1 ==> s.mgr.fault.Permanent())
    && (Dying(s.mgr) || Over(s.mgr) ==> Doomed(s))
    && (Dying(s.mgr) || s.mgr.StoringDead? ==> s.mgr.fault == LastFault(s))
    && (s.dead <==> Over(s.mgr) && !s.mgr.StoringDead?)
  }

  lemma AttemptClosers(s: State, o: Outcome)
    requires ClosersInv(s) && (s.mgr.Boot? || s.mgr.Attempting?)
    ensures ClosersInv(ManagerStep(s, Create(o)))
  {
    assert s.closers == s.hist.closersStarted == 0;
  }

  lemma NotifyClosers(s: State)
    requires ClosersInv(s) && ManagerEnabled(s, Notify)
    ensures ClosersInv(ManagerStep(s, Notify)) || s.mgr.NotifyBug?
  {
  }

  lemma OtherCounts(s: State, a: ManagerAct)
    requires ManagerEnabled(s, a) && !a.Create? && !a.Notify?
    ensures var t := ManagerStep(s, a);
      && t.closers == s.closers && t.hist.closersStarted == s.hist.closersStarted && t.hist.faults == s.hist.faults
      && t.dead == (s.dead || a.StoreDead?)
  {
  }

  /** The manager goes from m to n on its way to or past the end of sendNotifyDead, or away from both. */
  ghost predicate Goes(m: Manager, n: Manager, stores: bool) {
    && !n.NotifyFault? && !n.Refused? && !m.Refused?
    && (Dying(n) || n.StoringDead? ==> Dying(m) && n.fault == m.fault)
    && (Dying(m) || Over(m) <==> Dying(n) || Over(n))
    && (Over(n) && !n.StoringDead? <==> stores || (Over(m) && !m.StoringDead?))
  }

  lemma DeathMoves(s: State, a: ManagerAct)
    requires ManagerEnabled(s, a) && (a.DeathPut? || a.DeathGet? || a.StoreDead?)
    ensures Goes(s.mgr, ManagerStep(s, a).mgr, a.StoreDead?)
  {
  }

  lemma OtherMoves(s: State, a: ManagerAct)
    requires ManagerEnabled(s, a) && (a.Launch? || a.Start? || a.Join? || a.Cancel?)
    ensures Goes(s.mgr, ManagerStep(s, a).mgr, false)
  {
  }

  lemma ManagerStepClosers(s: State, a: ManagerAct)
    requires ControlInv(s) && ClosersInv(s) && ManagerEnabled(s, a)
    ensures ClosersInv(ManagerStep(s, a))
  {
    match a
    case Create(o) => AttemptClosers(s, o);
    case Notify => NotifyClosers(s);
    case _ =>
      OtherCounts(s, a);
      if a.DeathPut? || a.DeathGet? || a.StoreDead? { DeathMoves(s, a); } else { OtherMoves(s, a); }
  }

  lemma StepClosers(s: State, e: Event)
    requires ControlInv(s) && ClosersInv(s) && Enabled(s, e)
    ensures ClosersInv(Next(s, e))
  {
    match e
    case Mgr(a) => ManagerStepClosers(s, a);
    case Snd(i, a) =>
      SenderFrame(s, i, a);
      ClosersKept(s, Next(s, e));
    case _ =>
      OutsiderFrame(s, e);
      OutsiderClosers(s, e);
      ClosersKept(s, Next(s, e));
  }

  lemma OutsiderClosers(s: State, e: Event)
    requires Enabled(s, e) && !e.Snd? && !e.Mgr?
    ensures Next(s, e).closers <= s.closers
  {
  }

  lemma ClosersKept(s: State, t: State)
    requires ClosersInv(s) && t.mgr == s.mgr && t.dead == s.dead && t.closers <= s.closers
    requires t.hist.closersStarted == s.hist.closersStarted && t.hist.faults == s.hist.faults
    ensures ClosersInv(t)
  {
  }

  // --- The notice -----------------------------------------------------------------------------------------

  /** No death notice has been offered. */
  ghost predicate Quiet(n: Notifier) {
    Deaths(n.offered) == [] && Deaths(n.chan) == [] && Deaths(n.read) == [] && Deaths(n.dropped) == []
    && Deaths(n.evicted) == []
  }

  /** The death notice was offered exactly once; unless the channel has no buffer it got in and is still there or
      was read, and it was neither dropped nor evicted. */
  ghost predicate Told(n: Notifier, f: Fault) {
    && Deaths(n.offered) == [f]
    && Deaths(n.evicted) == []
    && if n.cap == 0 then Deaths(n.chan) == [] && Deaths(n.read) == [] && Deaths(n.dropped) == [f]
       else Deaths(n.read) + Deaths(n.chan) == [f] && Deaths(n.dropped) == []
  }

  ghost predicate NoticeInv(s: State) {
    if Over(s.mgr) then s.hist.faults != [] && Told(s.notifier, LastFault(s)) else Quiet(s.notifier)
  }

  lemma OfferKeeps(n: Notifier, x: Notice)
    requires !x.Dead?
    ensures Deaths(n.Offer(x).offered) == Deaths(n.offered)
    ensures Deaths(n.Offer(x).chan) == Deaths(n.chan)
    ensures Deaths(n.Offer(x).dropped) == Deaths(n.dropped)
  {
    DeathsOfAppend(n.offered, x);
    if n.Full() { DeathsOfAppend(n.dropped, x); } else { DeathsOfAppend(n.chan, x); }
  }

  lemma ReadKeeps(n: Notifier)
    requires n.chan != []
    ensures Deaths(n.Read().read) + Deaths(n.Read().chan) == Deaths(n.read) + Deaths(n.chan)
  {
    DeathsOfPop(n.chan);
    DeathsOfAppend(n.read, n.chan[0]);
  }

  lemma EvictKeeps(n: Notifier)
    requires Deaths(n.chan) == []
    ensures Deaths(n.Evict().chan) == [] && Deaths(n.Evict().evicted) == Deaths(n.evicted)
  {
    if n.chan != [] {
      DeathsOfPop(n.chan);
      DeathsOfAppend(n.evicted, n.chan[0]);
    }
  }

  lemma LandTells(n: Notifier, f: Fault)
    requires Quiet(n)
    ensures n.cap > 0 ==> Told(n.Land(Dead(f)), f)
    ensures n.cap == 0 ==> Told(n.Discard(Dead(f)), f)
  {
    DeathsOfAppend(n.offered, Dead(f));
    if n.cap > 0 { DeathsOfAppend(n.chan, Dead(f)); } else { DeathsOfAppend(n.dropped, Dead(f)); }
  }

  lemma NotifyEffect(s: State)
    requires ManagerEnabled(s, Notify) && !s.mgr.NotifyBug?
    ensures var t := ManagerStep(s, Notify);
      t.notifier == s.notifier.Offer(PendingNotice(s.mgr)) && !Over(t.mgr) && !Over(s.mgr)
  {
  }

  lemma NotifyNotice(s: State)
    requires NoticeInv(s) && ManagerEnabled(s, Notify) && !s.mgr.NotifyBug?
    ensures NoticeInv(ManagerStep(s, Notify))
  {
    NotifyEffect(s);
    OfferKeeps(s.notifier, PendingNotice(s.mgr));
  }

  lemma DeathPutEffect(s: State)
    requires ManagerEnabled(s, DeathPut)
    ensures var t := ManagerStep(s, DeathPut);
      && t.hist.faults == s.hist.faults && !Over(s.mgr)
      && if t.mgr.StoringDead? then
           t.notifier == if s.notifier.cap == 0 then s.notifier.Discard(Dead(s.mgr.fault))
                         else s.notifier.Land(Dead(s.mgr.fault))
         else t.mgr.DyingGet? && t.notifier == s.notifier
  {
  }

  lemma DeathPutNotice(s: State)
    requires ClosersInv(s) && NoticeInv(s) && ManagerEnabled(s, DeathPut)
    ensures NoticeInv(ManagerStep(s, DeathPut))
  {
    DeathPutEffect(s);
    LandTells(s.notifier, s.mgr.fault);
  }

  lemma DeathGetNotice(s: State)
    requires NoticeInv(s) && ManagerEnabled(s, DeathGet)
    ensures NoticeInv(ManagerStep(s, DeathGet))
  {
    EvictKeeps(s.notifier);
  }

  /** The manager's other steps leave the channel alone and do not cross the end of sendNotifyDead. */
  lemma OtherNotice(s: State, a: ManagerAct)
    requires ManagerEnabled(s, a) && !a.Notify? && !a.DeathPut? && !a.DeathGet?
    requires ControlInv(s) && ClosersInv(s)
    ensures var t := ManagerStep(s, a);
      t.notifier == s.notifier && Over(t.mgr) == Over(s.mgr) && (Over(s.mgr) ==> t.hist.faults == s.hist.faults)
  {
  }

  lemma ManagerStepNotice(s: State, a: ManagerAct)
    requires ControlInv(s) && ClosersInv(s) && NoticeInv(s) && ManagerEnabled(s, a)
    ensures NoticeInv(ManagerStep(s, a))
  {
    match a
    case Notify => NotifyNotice(s);
    case DeathPut => DeathPutNotice(s);
    case DeathGet => DeathGetNotice(s);
    case _ => OtherNotice(s, a);
  }

  lemma OfferNotice(s: State, t: State, x: Notice)
    requires NoticeInv(s) && !x.Dead? && t.notifier == s.notifier.Offer(x)
    requires t.mgr == s.mgr && t.hist.faults == s.hist.faults
    ensures NoticeInv(t)
  {
    if Over(s.mgr) {
      OfferKeepsTold(s.notifier, x, LastFault(s));
    } else {
      OfferKeepsQuiet(s.notifier, x);
    }
  }

  lemma OfferKeepsTold(n: Notifier, x: Notice, f: Fault)
    requires Told(n, f) && !x.Dead?
    ensures Told(n.Offer(x), f)
  {
    OfferKeeps(n, x);
  }

  lemma OfferKeepsQuiet(n: Notifier, x: Notice)
    requires Quiet(n) && !x.Dead?
    ensures Quiet(n.Offer(x))
  {
    OfferKeeps(n, x);
  }

  lemma SenderNotice(s: State, i: nat, a: SenderAct)
    requires NoticeInv(s) && SenderEnabled(s, i, a)
    ensures NoticeInv(SenderStep(s, i, a))
  {
    SenderFrame(s, i, a);
    if a.Report? {
      IdleEffect(s, i, a);
      OfferNotice(s, SenderStep(s, i, a), WriteFault);
    }
  }

  lemma ReadNotice(s: State)
    requires NoticeInv(s) && s.notifier.chan != []
    ensures NoticeInv(Next(s, Read))
  {
    ReadKeeps(s.notifier);
  }

  lemma StepNotice(s: State, e: Event)
    requires ControlInv(s) && ClosersInv(s) && NoticeInv(s) && Enabled(s, e)
    ensures NoticeInv(Next(s, e))
  {
    match e
    case Mgr(a) => ManagerStepNotice(s, a);
    case Snd(i, a) => SenderNotice(s, i, a);
    case CloserDone(failed) => if failed { OfferNotice(s, Next(s, e), CloseFault); }
    case Read => ReadNotice(s);
    case Check(_, _, _) => OutsiderFrame(s, e);
    case Put(p) =>
      OutsiderFrame(s, e);
      PutEffect(s, p);
  }

  // --- How long sendNotifyDead takes ----------------------------------------------------------------------

  /** Closers that have finished since sendNotifyDead was entered bound its failed puts: none is started any more,
      and after an eviction only one of them can fill the channel again. */
  ghost predicate LoopInv(s: State) {
    Dying(s.mgr) || Over(s.mgr) ==>
      && s.closers <= s.hist.closersAtDeath
      && var finished := s.hist.closersAtDeath - s.closers;
      && s.hist.putFailures <= finished + 1
      && (s.mgr.DyingPut? && s.hist.putFailures > 0 && s.notifier.Full() && s.notifier.cap > 0 ==>
            s.hist.putFailures <= finished)
      && (s.mgr.DyingGet? ==> s.notifier.cap > 0)
  }

  lemma NotifyLoop(s: State)
    requires ControlInv(s) && LoopInv(s) && |s.notifier.chan| <= s.notifier.cap && ManagerEnabled(s, Notify)
    ensures LoopInv(ManagerStep(s, Notify))
    ensures |ManagerStep(s, Notify).notifier.chan| <= ManagerStep(s, Notify).notifier.cap
  {
    NotifyFrame(s);
  }

  lemma CreateLoop(s: State, o: Outcome)
    requires LoopInv(s) && |s.notifier.chan| <= s.notifier.cap && ManagerEnabled(s, Create(o))
    ensures LoopInv(ManagerStep(s, Create(o)))
    ensures |ManagerStep(s, Create(o)).notifier.chan| <= ManagerStep(s, Create(o)).notifier.cap
  {
    CreateFrame(s, o);
  }

  lemma ManagerStepLoop(s: State, a: ManagerAct)
    requires ControlInv(s) && LoopInv(s) && |s.notifier.chan| <= s.notifier.cap && ManagerEnabled(s, a)
    ensures LoopInv(ManagerStep(s, a))
    ensures |ManagerStep(s, a).notifier.chan| <= ManagerStep(s, a).notifier.cap
  {
    match a
    case Notify => NotifyLoop(s);
    case Create(o) => CreateLoop(s, o);
    case _ =>
  }

  /** A sender that can report a failure is not running by then: only the no-op sender may be, and it never fails. */
  lemma SenderStepLoop(s: State, i: nat, a: SenderAct)
    requires ControlInv(s) && LoopInv(s) && |s.notifier.chan| <= s.notifier.cap && SenderEnabled(s, i, a)
    ensures LoopInv(SenderStep(s, i, a))
    ensures |SenderStep(s, i, a).notifier.chan| <= SenderStep(s, i, a).notifier.cap
  {
    SenderFrame(s, i, a);
    if Dying(s.mgr) || Over(s.mgr) { assert !a.Report?; }
  }

  lemma StepLoop(s: State, e: Event)
    requires ControlInv(s) && LoopInv(s) && |s.notifier.chan| <= s.notifier.cap && Enabled(s, e)
    ensures LoopInv(Next(s, e))
    ensures |Next(s, e).notifier.chan| <= Next(s, e).notifier.cap
  {
    match e
    case Mgr(a) => ManagerStepLoop(s, a);
    case Snd(i, a) => SenderStepLoop(s, i, a);
    case _ =>
  }

  // --- What it costs --------------------------------------------------------------------------------------

  /** Each eviction follows a failed put, and nothing is evicted for any other reason. */
  ghost predicate EvictInv(s: State) {
    if Dying(s.mgr) || Over(s.mgr) then
      |s.notifier.evicted| + (if s.mgr.DyingGet? then 1 else 0) <= s.hist.putFailures
    else
      s.notifier.evicted == []
  }

  lemma AttemptEvicts(s: State, o: Outcome)
    requires EvictInv(s) && ManagerEnabled(s, Create(o))
    ensures EvictInv(ManagerStep(s, Create(o)))
  {
    CreateFrame(s, o);
  }

  lemma NotifyEvicts(s: State)
    requires EvictInv(s) && ManagerEnabled(s, Notify)
    ensures EvictInv(ManagerStep(s, Notify))
  {
    NotifyFrame(s);
  }

  lemma DeathEvicts(s: State, a: ManagerAct)
    requires EvictInv(s) && ManagerEnabled(s, a) && (a.DeathPut? || a.DeathGet?)
    ensures EvictInv(ManagerStep(s, a))
  {
  }

  lemma OtherEvicts(s: State, a: ManagerAct)
    requires EvictInv(s) && ManagerEnabled(s, a) && !a.Create? && !a.Notify? && !a.DeathPut? && !a.DeathGet?
    ensures EvictInv(ManagerStep(s, a))
  {
  }

  lemma StepEvicts(s: State, e: Event)
    requires EvictInv(s) && Enabled(s, e)
    ensures EvictInv(Next(s, e))
  {
    match e
    case Mgr(a) => ManagerEvicts(s, a);
    case Snd(i, a) =>
      SenderFrame(s, i, a);
      if a.Report? { IdleEffect(s, i, a); }
    case _ => OutsiderFrame(s, e);
  }

  lemma ManagerEvicts(s: State, a: ManagerAct)
    requires EvictInv(s) && ManagerEnabled(s, a)
    ensures EvictInv(ManagerStep(s, a))
  {
    match a
    case Create(o) => AttemptEvicts(s, o);
    case Notify => NotifyEvicts(s);
    case DeathPut => DeathEvicts(s, a);
    case DeathGet => DeathEvicts(s, a);
    case _ => OtherEvicts(s, a);
  }

  // --- All of it, along every run -------------------------------------------------------------------------

  ghost predicate DeathInv(s: State) {
    ClosersInv(s) && NoticeInv(s) && LoopInv(s) && EvictInv(s) && |s.notifier.chan| <= s.notifier.cap
  }

  lemma {:induction false} DeathHolds(cfg: Config, es: seq<Event>)
    requires After(Init(cfg), es).Some?
    ensures DeathInv(After(Init(cfg), es).value)
  {
    if es != [] {
      var k := |es| - 1;
      var s := After(Init(cfg), es[..k]).value;
      DeathHolds(cfg, es[..k]);
      ControlHolds(cfg, es[..k]);
      StepClosers(s, es[k]);
      StepNotice(s, es[k]);
      StepLoop(s, es[k]);
      StepEvicts(s, es[k]);
    }
  }

  lemma ReachableDeath(s: State)
    requires Reachable(s)
    ensures ControlInv(s) && DeathInv(s)
  {
    var es :| After(Init(s.cfg), es) == Some(s);
    ControlHolds(s.cfg, es);
    DeathHolds(s.cfg, es);
  }

  // --- Theorems -------------------------------------------------------------------------------------------

  /** Every dead client has offered exactly one death notice. It names the last failed attempt, which was permanent.
      With a buffered channel the notice is in the channel or was read by the consumer, whatever happened since. */
  lemma DeathIsAnnounced(s: State)
    requires Reachable(s) && s.dead
    ensures s.hist.faults != [] && LastFault(s).Permanent()
    ensures Deaths(s.notifier.offered) == [LastFault(s)]
    ensures Deaths(s.notifier.evicted) == []
    ensures s.notifier.cap > 0 <==> Deaths(s.notifier.read) + Deaths(s.notifier.chan) == [LastFault(s)]
    ensures s.notifier.cap == 0 <==> Deaths(s.notifier.dropped) == [LastFault(s)]
  {
    ReachableDeath(s);
  }

  /** sendNotifyDead delivers at most once per client, and not before the client is dying. */
  lemma AtMostOneDeathNotice(s: State)
    requires Reachable(s)
    ensures |Deaths(s.notifier.offered)| <= 1
    ensures Deaths(s.notifier.offered) != [] <==> Over(s.mgr)
  {
    ReachableDeath(s);
  }

  /** Once the notice is in the channel, only a read takes it out, also before the client is marked dead. */
  lemma OnlyTheReaderTakesIt(s: State, e: Event)
    requires Reachable(s) && Enabled(s, e) && Deaths(s.notifier.chan) != []
    ensures e.Read? || Deaths(Next(s, e).notifier.chan) == Deaths(s.notifier.chan)
  {
    ReachableDeath(s);
    if !e.Read? {
      ToldStays(s, e);
      ReadUntouched(s, e);
      OneNoticeOnly(s.notifier, Next(s, e).notifier, LastFault(s));
    }
  }

  lemma ToldStays(s: State, e: Event)
    requires Reachable(s) && Over(s.mgr) && Enabled(s, e)
    ensures s.hist.faults != [] && Told(s.notifier, LastFault(s)) && Told(Next(s, e).notifier, LastFault(s))
    ensures Next(s, e).notifier.cap == s.notifier.cap
  {
    ReachableDeath(s);
    StepNotice(s, e);
    OverStays(s, e);
  }

  lemma OneNoticeOnly(n: Notifier, m: Notifier, f: Fault)
    requires Told(n, f) && Told(m, f) && m.read == n.read && m.cap == n.cap
    ensures Deaths(m.chan) == Deaths(n.chan)
  {
    var a := Deaths(n.read);
    assert (a + Deaths(n.chan))[|a|..] == Deaths(n.chan);
    assert (a + Deaths(m.chan))[|a|..] == Deaths(m.chan);
  }

  lemma OverStays(s: State, e: Event)
    requires Over(s.mgr) && Enabled(s, e)
    ensures var t := Next(s, e); Over(t.mgr) && t.hist.faults == s.hist.faults && t.notifier.cap == s.notifier.cap
  {
    match e
    case Snd(i, a) =>
      SenderFrame(s, i, a);
      if a.Report? { IdleEffect(s, i, a); }
    case Mgr(a) =>
    case _ => OutsiderFrame(s, e);
  }

  lemma ReadUntouched(s: State, e: Event)
    requires Enabled(s, e) && !e.Read?
    ensures Next(s, e).notifier.read == s.notifier.read
  {
    match e
    case Mgr(a) => ManagerFrame(s, a);
    case Snd(i, a) => SenderFrame(s, i, a);
    case _ =>
  }

  /** Failed puts of the death notice are at most one more than the closers that were running, so the loop ends;
      and at most one closer is ever started. */
  lemma DeathLoopIsShort(s: State)
    requires Reachable(s) && (Dying(s.mgr) || Over(s.mgr))
    ensures s.hist.putFailures <= s.hist.closersAtDeath + 1 <= 2
  {
    ReachableDeath(s);
    AtDeathAtMostStarted(s);
  }

  /** What the death notice costs: nothing is evicted before the client is dying, and then no more notices than there
      were failed puts, so at most two. */
  lemma DeathNoticeCost(s: State)
    requires Reachable(s)
    ensures s.notifier.evicted != [] ==> Dying(s.mgr) || Over(s.mgr)
    ensures Dying(s.mgr) || Over(s.mgr) ==>
              |s.notifier.evicted| <= s.hist.putFailures <= s.hist.closersAtDeath + 1 <= 2
  {
    ReachableDeath(s);
    AtDeathAtMostStarted(s);
  }

  /** The bound on failed puts for any number of closers and any capacity, whatever the reader does: from the first
      TryPut on, the loop fails at most once more than there are closers that may still notify. */
  lemma {:induction false} LoopFailsAtMost(s: State, es: seq<Event>)
    requires ControlInv(s) && s.mgr.DyingPut? && |s.notifier.chan| <= s.notifier.cap
    requires s.hist.closersAtDeath == s.closers && s.hist.putFailures == 0
    requires After(s, es).Some?
    ensures var t := After(s, es).value;
      && t.hist.putFailures <= s.closers + 1
      && (Dying(t.mgr) || Over(t.mgr)) && t.hist.closersAtDeath == s.closers
      && ControlInv(t) && LoopInv(t) && |t.notifier.chan| <= t.notifier.cap
  {
    if es != [] {
      var k := |es| - 1;
      var u := After(s, es[..k]).value;
      LoopFailsAtMost(s, es[..k]);
      StepControl(u, es[k]);
      StepLoop(u, es[k]);
      DyingGoesOn(u, es[k]);
    }
  }

  lemma DyingGoesOn(s: State, e: Event)
    requires (Dying(s.mgr) || Over(s.mgr)) && Enabled(s, e)
    ensures var t := Next(s, e);
      (Dying(t.mgr) || Over(t.mgr)) && t.hist.closersAtDeath == s.hist.closersAtDeath
  {
    match e
    case Snd(i, a) => SenderFrame(s, i, a);
    case Mgr(_) =>
    case _ => OutsiderFrame(s, e);
  }

  ghost predicate AtDeathInv(s: State) {
    s.hist.closersAtDeath <= s.hist.closersStarted
  }

  lemma StepAtDeath(s: State, e: Event)
    requires ClosersInv(s) && AtDeathInv(s) && Enabled(s, e)
    ensures AtDeathInv(Next(s, e))
  {
    if e.Snd? { SenderFrame(s, e.i, e.step); }
  }

  lemma {:induction false} AtDeathHolds(cfg: Config, es: seq<Event>)
    requires After(Init(cfg), es).Some?
    ensures AtDeathInv(After(Init(cfg), es).value)
  {
    if es != [] {
      var k := |es| - 1;
      AtDeathHolds(cfg, es[..k]);
      DeathHolds(cfg, es[..k]);
      StepAtDeath(After(Init(cfg), es[..k]).value, es[k]);
    }
  }

  lemma AtDeathAtMostStarted(s: State)
    requires Reachable(s)
    ensures AtDeathInv(s)
  {
    var es :| After(Init(s.cfg), es) == Some(s);
    AtDeathHolds(s.cfg, es);
  }

  /** At most one closer is ever started, always for a permanent failure; whenever reconnect looks, none is
      running, so the guard against too many closers never fires and is never the cause of a death. */
  lemma ClosersGuardNeverFires(s: State)
    requires Reachable(s)
    ensures s.hist.closersStarted <= 1
    ensures s.hist.closersStarted == 1 ==>
              s.mgr.Refused? || (s.mgr.NotifyFault? && s.mgr.fault.Permanent()) || Dying(s.mgr) || Over(s.mgr)
    ensures s.mgr.Attempting? ==> s.hist.closersStarted == s.closers == 0
    ensures s.mgr.Attempting? ==> !(s.closers > s.cfg.maxClosers)
    ensures Dying(s.mgr) || Over(s.mgr) ==> s.hist.faults != [] && !LastFault(s).ClosersFault?
  {
    ReachableDeath(s);
  }

  /** clientDead is never reset, and a message accepted after it was set comes from a Send that had passed the dead
      check before: each such Send adds at most one, and no new one starts. */
  lemma {:induction false} AcceptedAfterDeath(s: State, es: seq<Event>)
    requires s.dead && After(s, es).Some?
    ensures var t := After(s, es).value;
      && t.dead
      && |t.hist.accepted| + |t.producers| <= |s.hist.accepted| + |s.producers|
      && t.producers.Keys <= s.producers.Keys
  {
    if es != [] {
      var k := |es| - 1;
      AcceptedAfterDeath(s, es[..k]);
      OneAcceptAfterDeath(After(s, es[..k]).value, es[k]);
    }
  }

  lemma OneAcceptAfterDeath(s: State, e: Event)
    requires s.dead && Enabled(s, e)
    ensures var t := Next(s, e);
      && t.dead && t.producers.Keys <= s.producers.Keys
      && |t.hist.accepted| + |t.producers| <= |s.hist.accepted| + |s.producers|
  {
    match e
    case Put(p) =>
      assert (s.producers - {p}).Keys == s.producers.Keys - {p};
      assert |(s.producers - {p}).Keys| == |s.producers.Keys| - 1;
    case Snd(i, a) => SenderFrame(s, i, a);
    case Mgr(a) => ManagerFrame(s, a);
    case _ =>
  }

  /** Once the manager has stopped nothing leaves the queue: what is in it is stranded. */
  lemma {:induction false} StrandedAfterStop(s: State, es: seq<Event>)
    requires Reachable(s) && s.mgr.Stopped? && After(s, es).Some?
    ensures var t := After(s, es).value;
      && t.mgr.Stopped? && AllReturned(t.senders) && s.queue <= t.queue
  {
    ReachableControl(s);
    if es != [] {
      var k := |es| - 1;
      var u := After(s, es[..k]).value;
      StrandedAfterStop(s, es[..k]);
      StoppedStep(u, es[k]);
    }
  }

  lemma StoppedStep(s: State, e: Event)
    requires s.mgr.Stopped? && AllReturned(s.senders) && Enabled(s, e)
    ensures var t := Next(s, e); t.mgr.Stopped? && t.senders == s.senders && s.queue <= t.queue
  {
    assert e.Mgr? ==> false;
  }

  // --- A message accepted after death ---------------------------------------------------------------------

  /** A client as New makes it. */
  const NEW_CLIENT := Config(2048, 2, 1000, false, true, true)

  lemma ReachableStep(s: State, e: Event)
    requires Reachable(s) && Enabled(s, e)
    ensures Reachable(Next(s, e))
  {
    var es :| After(Init(s.cfg), es) == Some(s);
    AfterSnoc(Init(s.cfg), es, e);
    ControlHolds(s.cfg, es + [e]);
  }

  /** A client with a Send under way, before its first sender is started. */
  lemma StartedClient() returns (s: State)
    ensures Reachable(s) && s.cfg == NEW_CLIENT && s.mgr == Starting(false) && !s.handoff && s.senders == []
    ensures s.producers == map[0 := DATA_PLANE] && s.queue == [] && s.hist.accepted == [] && s.closers == 0
    ensures s.notifier == NewNotifier(2) && !s.dead
  {
    s := Init(NEW_CLIENT);
    assert After(Init(NEW_CLIENT), []) == Some(s);
    ReachableStep(s, Mgr(Create(Opens(false))));
    s := Next(s, Mgr(Create(Opens(false))));
    ReachableStep(s, Mgr(Launch(true)));
    s := Next(s, Mgr(Launch(true)));
    ReachableStep(s, Check(0, DATA_PLANE, true));
    s := Next(s, Check(0, DATA_PLANE, true));
  }

  /** Its sender could not be started, and now no connection can be made any more. */
  lemma EndedClient() returns (s: State)
    ensures Reachable(s) && s.cfg == NEW_CLIENT && s.mgr == Attempting && !s.handoff && s.closers == 0
    ensures s.producers == map[0 := DATA_PLANE] && s.queue == [] && s.hist.accepted == []
    ensures s.notifier.chan == [SenderEnded] && s.notifier.cap == 2 && !s.dead
  {
    s := StartedClient();
    ReachableStep(s, Mgr(Start(false)));
    s := Next(s, Mgr(Start(false)));
    assert s.senders == [NewSender(false, false, false)];
    ReachableStep(s, Mgr(Join));
    s := Next(s, Mgr(Join));
    ReachableStep(s, Mgr(Notify));
    s := Next(s, Mgr(Notify));
  }

  lemma DoomedClient() returns (s: State)
    ensures Reachable(s) && s.cfg == NEW_CLIENT && s.mgr == NotifyFault(CreateFault(0, false)) && !s.handoff
    ensures s.producers == map[0 := DATA_PLANE] && s.queue == [] && s.hist.accepted == []
    ensures s.notifier.chan == [SenderEnded] && s.notifier.cap == 2 && !s.dead
  {
    s := EndedClient();
    CreateFrame(s, Fails(0, false));
    ReachableStep(s, Mgr(Create(Fails(0, false))));
    s := Next(s, Mgr(Create(Fails(0, false))));
  }

  lemma DeadClient() returns (s: State)
    ensures Reachable(s) && s.dead && s.mgr.Stopped?
    ensures s.producers == map[0 := DATA_PLANE] && s.queue == [] && s.hist.accepted == [] && s.cfg == NEW_CLIENT
  {
    s := DoomedClient();
    ReachableStep(s, Mgr(Notify));
    s := Next(s, Mgr(Notify));
    ReachableStep(s, Read);
    s := Next(s, Read);
    ReachableStep(s, Mgr(DeathPut));
    s := Next(s, Mgr(DeathPut));
    ReachableStep(s, Mgr(StoreDead));
    s := Next(s, Mgr(StoreDead));
  }

  /** A Send that passed the dead check in time does put its message on the queue of a dead client. */
  lemma LateSendIsAccepted()
    ensures exists s, p :: Reachable(s) && s.dead && s.mgr.Stopped? && p in s.producers
                           && Next(s, Put(p)).queue == [Msg(DATA_PLANE, 0)]
                           && Next(s, Put(p)).hist.accepted == [Msg(DATA_PLANE, 0)]
  {
    var s := DeadClient();
    assert 0 in s.producers;
    assert Next(s, Put(0)).queue == [Msg(DATA_PLANE, 0)];
  }

  // --- The bound is reached -------------------------------------------------------------------------------

  /** The same client on a host that is not linux. */
  const OTHER_HOST := Config(2048, 2, 1000, false, false, true)

  /** Its no-op sender could not be started, and the next connection is a real one: the client is dying, with one
      closer running and the notifier full. */
  lemma DyingClient() returns (s: State)
    ensures Reachable(s) && s.mgr == DyingPut(PlatformFault) && s.closers == 1 && s.hist.closersAtDeath == 1
    ensures s.notifier.chan == [SenderEnded, AttemptFault(PlatformFault)] && s.notifier.cap == 2
    ensures s.notifier.evicted == [] && s.hist.putFailures == 0
  {
    s := RejectedClient();
    ReachableStep(s, Mgr(Notify));
    s := Next(s, Mgr(Notify));
  }

  lemma RejectedClient() returns (s: State)
    ensures Reachable(s) && s.mgr == NotifyFault(PlatformFault) && s.closers == 1
    ensures s.notifier.chan == [SenderEnded] && s.notifier.cap == 2 && s.notifier.evicted == []
  {
    s := UnstartedClient();
    ReachableStep(s, Mgr(Join));
    s := Next(s, Mgr(Join));
    ReachableStep(s, Mgr(Notify));
    s := Next(s, Mgr(Notify));
    ReachableStep(s, Mgr(Create(Opens(false))));
    s := Next(s, Mgr(Create(Opens(false))));
  }

  lemma UnstartedClient() returns (s: State)
    ensures Reachable(s) && s.cfg == OTHER_HOST && s.mgr == Awaiting && !s.handoff && s.closers == 0
    ensures s.senders == [NewSender(true, false, false)] && s.notifier == NewNotifier(2)
  {
    s := LaunchedClient();
    ReachableStep(s, Mgr(Start(false)));
    var t := Next(s, Mgr(Start(false)));
    assert t == s.(senders := s.senders + [NewSender(true, false, false)], mgr := Awaiting);
    s := t;
  }

  lemma LaunchedClient() returns (s: State)
    ensures Reachable(s) && s.cfg == OTHER_HOST && s.mgr == Starting(true) && !s.handoff && s.closers == 0
    ensures s.senders == [] && s.notifier == NewNotifier(2)
  {
    s := Init(OTHER_HOST);
    assert After(Init(OTHER_HOST), []) == Some(s);
    ReachableStep(s, Mgr(Create(Opens(true))));
    s := Next(s, Mgr(Create(Opens(true))));
    assert s.mgr == Launching(true);
    ReachableStep(s, Mgr(Launch(true)));
    s := Next(s, Mgr(Launch(true)));
  }

  /** The bounds on failed puts and evictions are reached: the closer can take the room that the first eviction has
      made, so that a second notice has to go before the death notice lands. */
  lemma TwoEvictionsHappen()
    ensures exists s :: Reachable(s) && s.mgr.StoringDead? && s.hist.putFailures == 2 && |s.notifier.evicted| == 2
  {
    var s := DyingClient();
    ReachableStep(s, Mgr(DeathPut));
    s := Next(s, Mgr(DeathPut));
    ReachableStep(s, Mgr(DeathGet));
    s := Next(s, Mgr(DeathGet));
    ReachableStep(s, CloserDone(true));
    s := Next(s, CloserDone(true));
    assert s.mgr == DyingPut(PlatformFault) && |s.notifier.chan| == 2 && |s.notifier.evicted| == 1;
    s := SecondTry(s);
  }

  lemma SecondTry(s: State) returns (t: State)
    requires Reachable(s) && s.mgr.DyingPut? && |s.notifier.chan| == 2 == s.notifier.cap
    requires |s.notifier.evicted| == 1 == s.hist.putFailures
    ensures Reachable(t) && t.mgr.StoringDead? && t.hist.putFailures == 2 && |t.notifier.evicted| == 2
  {
    ReachableStep(s, Mgr(DeathPut));
    t := Next(s, Mgr(DeathPut));
    ReachableStep(t, Mgr(DeathGet));
    t := Next(t, Mgr(DeathGet));
    ReachableStep(t, Mgr(DeathPut));
    t := Next(t, Mgr(DeathPut));
  }
}
