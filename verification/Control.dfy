/** Who may run when: one consumer of the send channel at a time, the handoff from the no-op sender, and the
    closers. */
module Control {
  import opened Protocol
  import opened Frames

  ghost predicate AllReturned(xs: seq<Sender>) {
    forall i :: 0 <= i < |xs| ==> xs[i].pc.Returned?
  }

  /** The last sender is the no-op sender of deferredConnect. */
  ghost predicate EndsInNoop(xs: seq<Sender>, cancelled: bool) {
    |xs| == 1 && xs[0].builtin && xs[0].cancelled == cancelled
  }

  /** What the position of the manager says about the senders. */
  ghost predicate Roles(s: State) {
    match s.mgr
    case Boot | Refused | Launching(_) | Deferring(_) => s.senders == [] && !s.handoff && !s.published
    case Unmanaged | NotifyStart(_) | StartingNoop => s.senders == [] && !s.handoff && s.published
    case Attempting | NotifyFault(_) | DyingPut(_) | DyingGet(_) | StoringDead(_) =>
      s.published && if s.handoff then EndsInNoop(s.senders, false) else AllReturned(s.senders)
    case Cancelling(_) => s.published && s.handoff && EndsInNoop(s.senders, false)
    case JoiningNoop(_) => s.published && s.handoff && EndsInNoop(s.senders, true)
    case Starting(_) | NotifyEnded | Stopped => s.published && !s.handoff && AllReturned(s.senders)
    case Awaiting =>
      && s.published && !s.handoff && s.senders != []
      && AllReturned(s.senders[..|s.senders| - 1])
      && !s.senders[|s.senders| - 1].builtin
    case NotifyBug => false
  }

  ghost predicate SenderSane(x: Sender) {
    && (x.builtin ==> x.noop)
    && (x.noop ==> !x.pc.Failed? && !x.pc.Reporting? && x.failures == 0)
    && (x.cancelled ==> x.builtin)
    && (x.pc == Returned(true) ==> x.cancelled)
    && (!x.cancelled ==> x.late == 0)
    && x.late <= 1
    && (x.late == 1 ==> !x.pc.Select?)
  }

  ghost predicate ControlInv(s: State) {
    && Roles(s)
    && (forall i :: 0 <= i < |s.senders| ==> SenderSane(s.senders[i]))
    && (!s.published ==> s.producers == map[])
  }

  /** Every sender but the last has returned. */
  lemma OnlyLastRuns(s: State)
    requires ControlInv(s)
    ensures forall i :: 0 <= i < |s.senders| - 1 ==> s.senders[i].pc.Returned?
  {
    if s.mgr.Awaiting? {
      assert forall i :: 0 <= i < |s.senders| - 1 ==> s.senders[..|s.senders| - 1][i] == s.senders[i];
    }
  }

  lemma SenderStaysSane(s: State, i: nat, a: SenderAct)
    requires SenderEnabled(s, i, a) && SenderSane(s.senders[i])
    ensures var x := Advance(s, s.senders[i], a);
      SenderSane(x) && x.builtin == s.senders[i].builtin && x.cancelled == s.senders[i].cancelled
  {
  }

  lemma SenderStepControl(s: State, i: nat, a: SenderAct)
    requires ControlInv(s) && SenderEnabled(s, i, a)
    ensures i == |s.senders| - 1
    ensures ControlInv(SenderStep(s, i, a))
  {
    OnlyLastRuns(s);
    SenderFrame(s, i, a);
    SenderStaysSane(s, i, a);
    ReplaceLast(s, SenderStep(s, i, a));
  }

  lemma ReplaceLast(s: State, t: State)
    requires ControlInv(s) && s.senders != [] && !s.senders[|s.senders| - 1].pc.Returned?
    requires |t.senders| == |s.senders|
    requires var k := |s.senders| - 1;
      && t.senders == s.senders[k := t.senders[k]]
      && SenderSane(t.senders[k])
      && t.senders[k].builtin == s.senders[k].builtin && t.senders[k].cancelled == s.senders[k].cancelled
    requires t.mgr == s.mgr && t.handoff == s.handoff && t.published == s.published && t.producers == s.producers
    ensures ControlInv(t)
  {
    var k := |s.senders| - 1;
    assert t.senders[..k] == s.senders[..k];
  }

  lemma CreateControl(s: State, o: Outcome)
    requires Roles(s) && ManagerEnabled(s, Create(o))
    ensures Roles(ManagerStep(s, Create(o)))
    ensures ManagerStep(s, Create(o)).published == s.published
  {
    CreateFrame(s, o);
  }

  lemma NotifyControl(s: State)
    requires Roles(s) && ManagerEnabled(s, Notify)
    ensures Roles(ManagerStep(s, Notify))
    ensures ManagerStep(s, Notify).published == s.published
  {
    NotifyFrame(s);
  }

  lemma StartNoopControl(s: State, ok: bool)
    requires ControlInv(s) && s.mgr.StartingNoop?
    ensures ControlInv(ManagerStep(s, Start(ok)))
  {
    var t := ManagerStep(s, Start(ok));
    assert s.senders == [] && t.senders == [NewSender(true, true, ok)];
    assert t.published && t.producers == s.producers && t.handoff && t.mgr == Attempting;
  }

  lemma StartRealControl(s: State, ok: bool)
    requires ControlInv(s) && s.mgr.Starting?
    ensures ControlInv(ManagerStep(s, Start(ok)))
  {
    var t := ManagerStep(s, Start(ok));
    var x := NewSender(s.mgr.noop, false, ok);
    assert t == s.(senders := s.senders + [x], mgr := Awaiting);
    assert SenderSane(x) && !x.builtin;
    AwaitingRoles(s, t, x);
  }

  lemma AwaitingRoles(s: State, t: State, x: Sender)
    requires s.published && !s.handoff && AllReturned(s.senders) && !x.builtin && SenderSane(x)
    requires forall i :: 0 <= i < |s.senders| ==> SenderSane(s.senders[i])
    requires t == s.(senders := s.senders + [x], mgr := Awaiting)
    ensures ControlInv(t)
  {
    assert t.senders[..|t.senders| - 1] == s.senders;
  }

  lemma JoinControl(s: State)
    requires ControlInv(s) && ManagerEnabled(s, Join)
    ensures ControlInv(ManagerStep(s, Join))
  {
    OnlyLastRuns(s);
    assert ManagerStep(s, Join).senders == s.senders;
  }

  lemma CancelControl(s: State)
    requires ControlInv(s) && ManagerEnabled(s, Cancel)
    ensures ControlInv(ManagerStep(s, Cancel))
  {
  }

  lemma DeathControl(s: State, a: ManagerAct)
    requires ControlInv(s) && ManagerEnabled(s, a) && (a.DeathPut? || a.DeathGet? || a.StoreDead? || a.Launch?)
    ensures ControlInv(ManagerStep(s, a))
  {
    ManagerFrame(s, a);
  }

  lemma ManagerStepControl(s: State, a: ManagerAct)
    requires ControlInv(s) && ManagerEnabled(s, a)
    ensures ControlInv(ManagerStep(s, a))
  {
    match a
    case Create(o) =>
      CreateControl(s, o);
      CreateFrame(s, o);
    case Notify =>
      NotifyControl(s);
      NotifyFrame(s);
    case Start(ok) => if s.mgr.StartingNoop? { StartNoopControl(s, ok); } else { StartRealControl(s, ok); }
    case Join => JoinControl(s);
    case Cancel => CancelControl(s);
    case DeathPut => DeathControl(s, a);
    case DeathGet => DeathControl(s, a);
    case StoreDead => DeathControl(s, a);
    case Launch(_) => DeathControl(s, a);
  }

  lemma StepControl(s: State, e: Event)
    requires ControlInv(s) && Enabled(s, e)
    ensures ControlInv(Next(s, e))
  {
    match e
    case Snd(i, a) => SenderStepControl(s, i, a);
    case Mgr(a) => ManagerStepControl(s, a);
    case _ =>
  }

  lemma {:induction false} ControlHolds(cfg: Config, es: seq<Event>)
    requires After(Init(cfg), es).Some?
    ensures ControlInv(After(Init(cfg), es).value)
    ensures After(Init(cfg), es).value.cfg == cfg
  {
    if es != [] {
      var k := |es| - 1;
      ControlHolds(cfg, es[..k]);
      StepControl(After(Init(cfg), es[..k]).value, es[k]);
    }
  }

  lemma ReachableControl(s: State)
    requires Reachable(s)
    ensures ControlInv(s)
  {
    var es :| After(Init(s.cfg), es) == Some(s);
    ControlHolds(s.cfg, es);
  }

  // --- What follows from it -------------------------------------------------------------------------------

  /** A sender that may still receive from the send channel. */
  predicate Consumes(s: State, i: nat) {
    i < |s.senders| && !s.senders[i].pc.Returned?
  }

  /** At most one sender, no-op or real, can receive from the send channel. */
  lemma SingleConsumer(s: State, i: nat, j: nat)
    requires Reachable(s) && Consumes(s, i) && Consumes(s, j)
    ensures i == j
  {
    ReachableControl(s);
    OnlyLastRuns(s);
  }

  /** A sender is started only when the loop of every earlier one, the no-op sender included, has returned; and a
      loop that has returned never runs again. */
  lemma StartsAlone(s: State, e: Event, i: nat)
    requires Reachable(s) && Enabled(s, e) && Consumes(Next(s, e), i) && !Consumes(s, i)
    ensures i == |s.senders| && AllReturned(s.senders)
    ensures e.Mgr? && e.act.Start?
  {
    ReachableControl(s);
    match e
    case Snd(j, a) => SenderFrame(s, j, a);
    case Mgr(a) =>
      ManagerFrame(s, a);
      if a.Start? { StartEffect(s, a.ok); }
      if a.Cancel? { CancelEffect(s); }
    case _ => OutsiderFrame(s, e);
  }

  /** After cancelNoop the no-op sender takes at most one more message, and no other sender is ever cancelled. */
  lemma HandoffTakesAtMostOne(s: State, i: nat)
    requires Reachable(s) && i < |s.senders|
    ensures s.senders[i].late <= 1
    ensures s.senders[i].cancelled ==> s.senders[i].builtin && i == 0
  {
    ReachableControl(s);
    BuiltinIsFirst(s);
  }

  ghost predicate OnlyFirstBuiltin(xs: seq<Sender>) {
    forall i :: 0 < i < |xs| ==> !xs[i].builtin
  }

  lemma {:induction false} BuiltinIsFirstAlong(cfg: Config, es: seq<Event>)
    requires After(Init(cfg), es).Some?
    ensures OnlyFirstBuiltin(After(Init(cfg), es).value.senders)
  {
    if es != [] {
      var k := |es| - 1;
      var s := After(Init(cfg), es[..k]).value;
      BuiltinIsFirstAlong(cfg, es[..k]);
      ControlHolds(cfg, es[..k]);
      StepBuiltin(s, es[k]);
    }
  }

  lemma StepBuiltin(s: State, e: Event)
    requires ControlInv(s) && OnlyFirstBuiltin(s.senders) && Enabled(s, e)
    ensures OnlyFirstBuiltin(Next(s, e).senders)
  {
    match e
    case Snd(i, a) =>
      SenderFrame(s, i, a);
      SenderStaysSane(s, i, a);
    case Mgr(a) =>
      ManagerFrame(s, a);
      if a.Cancel? { CancelEffect(s); }
    case _ => OutsiderFrame(s, e);
  }

  lemma BuiltinIsFirst(s: State)
    requires Reachable(s)
    ensures OnlyFirstBuiltin(s.senders)
  {
    var es :| After(Init(s.cfg), es) == Some(s);
    BuiltinIsFirstAlong(s.cfg, es);
  }

  /** manageSender's branch for a sender that ended without an error is never taken. */
  lemma NoCleanEnd(s: State)
    requires Reachable(s)
    ensures !s.mgr.NotifyBug?
    ensures forall i :: 0 <= i < |s.senders| && s.senders[i].pc == Returned(true) ==> s.senders[i].builtin
  {
    ReachableControl(s);
  }
}
