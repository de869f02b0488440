/** audit.Client and its methods, step by step, with the other goroutines running in between.

    The fields of the class are those of the Go struct, the log of its notifier channel, and where the goroutines
    stand. Every atomic action of a method is committed as one event of the protocol, so a valid client is always in
    a reachable state of it. */
module Client {
  import opened Notices
  import opened Protocol
  import opened Frames
  import opened Control
  import opened Ledger
  import opened Death
  import opened Heartbeats
  import opened Interference
  import Records

  datatype SendResult = Accepted | ErrValidation | ErrClientDead | ErrQueueFull

  // --- What reconnect does with the outcomes of create ------------------------------------------------------

  datatype Reconnected = Connected(noop: bool) | Died(fault: Fault) | Retrying

  /** The first success or permanent failure decides. */
  function Decide(cfg: Config, outcomes: seq<Outcome>): Reconnected {
    if outcomes == [] then Retrying
    else
      match CreateFaultOf(cfg, outcomes[0])
      case None => Connected(outcomes[0].noop)
      case Some(f) => if f.Permanent() then Died(f) else Decide(cfg, outcomes[1..])
  }

  /** The failures up to the decision. */
  function FailuresOf(cfg: Config, outcomes: seq<Outcome>): seq<Fault> {
    if outcomes == [] then []
    else
      match CreateFaultOf(cfg, outcomes[0])
      case None => []
      case Some(f) => if f.Permanent() then [f] else [f] + FailuresOf(cfg, outcomes[1..])
  }

  function Verdict(cfg: Config, o: Outcome): Reconnected {
    match CreateFaultOf(cfg, o)
    case None => Connected(o.noop)
    case Some(f) => if f.Permanent() then Died(f) else Retrying
  }

  function FailureOf(cfg: Config, o: Outcome): seq<Fault> {
    match CreateFaultOf(cfg, o)
    case None => []
    case Some(f) => [f]
  }

  /** Where manageSender goes on after a round whose sender has ended. */
  function AfterRound(cfg: Config, outcomes: seq<Outcome>): Protocol.Manager {
    match Decide(cfg, outcomes)
    case Connected(noop) => Starting(noop)
    case Died(_) => Stopped
    case Retrying => Attempting
  }

  /** What happens to manageSender in one round: whether the sender's task could be started, and what create returns
      once the sender has ended. */
  datatype Round = Round(started: bool, outcomes: seq<Outcome>)

  /** The connections of the senders that these rounds start: the first on the given one, each other one on what the
      round before has got. */
  function KindsOver(cfg: Config, first: bool, rounds: seq<Round>): (ks: seq<Kind>)
    ensures |ks| == |rounds|
  {
    if rounds == [] then []
    else
      var k := |rounds| - 1;
      KindsOver(cfg, first, rounds[..k]) + [Kind(ConnectionOf(cfg, first, rounds[..k]), false)]
  }

  /** The connection the next sender gets after these rounds. */
  function ConnectionOf(cfg: Config, first: bool, rounds: seq<Round>): bool {
    if rounds == [] then first
    else
      match Decide(cfg, rounds[|rounds| - 1].outcomes)
      case Connected(noop) => noop
      case _ => first
  }

  lemma RoundKinds(cfg: Config, first: bool, rounds: seq<Round>, k: nat, before: seq<Kind>, now: seq<Kind>)
    requires k < |rounds|
    requires now == before + KindsOver(cfg, first, rounds[..k])
    ensures now + [Kind(ConnectionOf(cfg, first, rounds[..k]), false)]
            == before + KindsOver(cfg, first, rounds[..k + 1])
  {
    assert rounds[..k + 1][..k] == rounds[..k];
  }

  lemma NextConnection(cfg: Config, first: bool, rounds: seq<Round>, k: nat)
    requires k < |rounds| && AfterRound(cfg, rounds[k].outcomes).Starting?
    ensures AfterRound(cfg, rounds[k].outcomes) == Starting(ConnectionOf(cfg, first, rounds[..k + 1]))
  {
    assert rounds[..k + 1][k] == rounds[k];
  }

  /** The sender has ended: with a failed write if it was started, at once if not. */
  predicate EndedAs(x: Sender, started: bool) {
    x.pc.Returned? && (started <==> x.failures > 0)
  }

  /** So have the senders of the first k rounds, of which the first is at index base. */
  ghost predicate EndedRounds(xs: seq<Sender>, base: nat, rounds: seq<Round>, k: nat) {
    && base + k <= |xs| && k <= |rounds|
    && forall j :: 0 <= j < k ==> EndedAs(xs[base + j], rounds[j].started)
  }

  lemma EndedRoundsStay(xs: seq<Sender>, ys: seq<Sender>, base: nat, rounds: seq<Round>, k: nat)
    requires EndedRounds(xs, base, rounds, k) && SendersKept(xs, ys)
    ensures EndedRounds(ys, base, rounds, k)
  {
    forall j | 0 <= j < k ensures EndedAs(ys[base + j], rounds[j].started) {
      assert EndedAs(xs[base + j], rounds[j].started) && SenderLater(xs[base + j], ys[base + j]);
    }
  }

  /** One sender more. */
  lemma EndedRoundsThen(xs: seq<Sender>, ys: seq<Sender>, base: nat, rounds: seq<Round>, k: nat)
    requires EndedRounds(xs, base, rounds, k) && ys != [] && SendersKept(xs, ys[..|ys| - 1])
    requires |xs| == base + k && k < |rounds|
    ensures EndedRounds(ys, base, rounds, k)
    ensures EndedAs(ys[|ys| - 1], rounds[k].started) ==> EndedRounds(ys, base, rounds, k + 1)
  {
    var zs := ys[..|ys| - 1];
    EndedRoundsStay(xs, zs, base, rounds, k);
  }

  lemma EndOf(x: Sender, y: Sender, started: bool)
    requires x == Protocol.NewSender(x.noop, x.builtin, started) && SenderLater(x, y)
    ensures y.pc == Returned(false) && !y.cancelled ==> EndedAs(y, started)
    ensures !started ==> y.pc.Returned?
  {
  }

  lemma EndStays(others: seq<Sender>, xs: seq<Sender>, ys: seq<Sender>, started: bool)
    requires xs != [] && SendersKept(others, xs[..|xs| - 1]) && SendersKept(xs, ys)
    requires EndedAs(xs[|xs| - 1], started)
    ensures |ys| == |xs| && SendersKept(others, ys[..|ys| - 1]) && EndedAs(ys[|ys| - 1], started)
  {
    var k := |xs| - 1;
    assert xs == xs[..k] + [xs[k]];
    OneMoreKept(xs[..k], xs[k], ys);
    SendersKeptThen(others, xs[..k], ys[..k]);
  }

  lemma DecideOnce(cfg: Config, outcomes: seq<Outcome>)
    requires outcomes != []
    ensures var v := Verdict(cfg, outcomes[0]);
      && Decide(cfg, outcomes) == (if v.Retrying? then Decide(cfg, outcomes[1..]) else v)
      && FailuresOf(cfg, outcomes)
         == (if v.Retrying? then FailureOf(cfg, outcomes[0]) + FailuresOf(cfg, outcomes[1..])
             else FailureOf(cfg, outcomes[0]))
  {
  }

  class Client {
    const cfg: Config
    const serviceTreeID: string
    // The struct: sendCh, clientDead, metrics, notifier, closers.Running().
    var sendCh: seq<Msg>
    var clientDead: bool
    var metrics: Metrics
    var notifier: Notifier
    var closers: nat
    // Where the goroutines stand, and what has happened.
    var published: bool
    var producers: map<nat, MsgType>
    var mgr: Protocol.Manager
    var handoff: bool
    var senders: seq<Sender>
    var hist: History
    ghost var trace: seq<Event>

    function View(): State
      reads this
    {
      State(cfg, sendCh, clientDead, metrics, notifier, closers, published, producers, mgr, handoff, senders, hist)
    }

    ghost predicate Valid()
      reads this
    {
      cfg.Valid() && After(Init(cfg), trace) == Some(View())
    }

    constructor (cfg: Config, serviceTreeID: string)
      requires cfg.Valid()
      ensures Valid() && View() == Init(cfg) && this.cfg == cfg && this.serviceTreeID == serviceTreeID
    {
      this.cfg, this.serviceTreeID := cfg, serviceTreeID;
      sendCh, clientDead, metrics := [], false, Metrics(0, 0, 0, 0, 0, 0, 0);
      notifier, closers := NewNotifier(cfg.notifierCap), 0;
      published, producers, mgr, handoff, senders := false, map[], Boot, false, [];
      hist := History([], [], [], [], 0, 0, 0, [], 0, 0, 0);
      trace := [];
    }

    lemma ValidReachable()
      requires Valid()
      ensures Reachable(View())
    {
    }

    /** The step from s to the present values of the struct's fields is event e: note it. */
    method Commit(s: State, e: Event)
      requires cfg.Valid() && s.cfg == cfg && After(Init(cfg), trace) == Some(s) && Enabled(s, e)
      requires var t := Next(s, e);
        && sendCh == t.queue && clientDead == t.dead && metrics == t.metrics && notifier == t.notifier
        && closers == t.closers && t.cfg == cfg
      modifies this`published, this`producers, this`mgr, this`handoff, this`senders, this`hist, this`trace
      ensures Valid() && View() == Next(s, e) && trace == old(trace) + [e]
    {
      var t := Next(s, e);
      published, producers, mgr, handoff, senders, hist :=
        t.published, t.producers, t.mgr, t.handoff, t.senders, t.hist;
      trace := trace + [e];
      AfterSnoc(Init(cfg), old(trace), e);
    }

    /** Any number of steps of the other goroutines, of the reader of Notify() and of the closers. */
    method Interfere(me: Actor)
      requires Valid()
      modifies this
      ensures Valid() && Relies(me, old(View()), View())
    {
      var n: nat :| n >= 0;
      for k := 0 to n
        invariant Valid() && Relies(me, old(View()), View())
      {
        var e: Event :| true;
        if ActorOf(e) != me && Enabled(View(), e) {
          ghost var before := View();
          ReachableControl(before);
          ReachableBeats(before);
          Perform(e);
          OneMoreStep(me, old(View()), before, e);
        }
      }
    }

    method Perform(e: Event)
      requires Valid() && Enabled(View(), e)
      modifies this
      ensures Valid() && View() == Next(old(View()), e)
    {
      var s := View();
      var t := Next(s, e);
      Basics(s, e);
      sendCh, clientDead, metrics, notifier, closers := t.queue, t.dead, t.metrics, t.notifier, t.closers;
      Commit(s, e);
    }

    // --- Producers ----------------------------------------------------------------------------------------

    /** Send, on goroutine p. before is the state in which it tries to put the message on the queue. */
    method Send(p: nat, typ: MsgType, record: Records.Record) returns (r: SendResult, ghost before: State)
      requires Valid() && published && p !in producers
      modifies this
      ensures Valid() && published && p !in producers
      // The verdict on the arguments and on the client's life is taken at the dead check, and then nothing is changed.
      ensures r.ErrClientDead? <==> old(clientDead)
      ensures r.ErrValidation? <==>
                !old(clientDead)
                && !(Sendable(typ) && Records.IsValid(record.(serviceTreeID := serviceTreeID)))
      ensures r.ErrClientDead? || r.ErrValidation? ==> View() == old(View())
      // A dead client has told why, and only the consumer of Notify() can have taken the notice.
      ensures r.ErrClientDead? ==>
                && hist.faults != [] && LastFault(View()).Permanent()
                && (notifier.cap > 0 ==> Deaths(notifier.read) + Deaths(notifier.chan) == [LastFault(View())])
      // Otherwise only others have moved up to the put, and whether there is room then decides.
      ensures r.Accepted? || r.ErrQueueFull? ==>
                && Relies(Producer(p), CheckStep(old(View()), p, typ, true), before)
                && (r.Accepted? <==> |before.queue| < cfg.queueSize)
      ensures r.Accepted? ==>
                var m := Msg(typ, |before.hist.accepted|);
                sendCh == before.queue + [m] && hist.accepted == before.hist.accepted + [m]
      ensures r.ErrQueueFull? ==> sendCh == before.queue && hist.accepted == before.hist.accepted
    {
      before := View();
      if clientDead {
        ValidReachable();
        DeathIsAnnounced(View());
        return ErrClientDead, before;
      }
      if typ == AT_UNKNOWN || typ > CONTROL_PLANE {
        return ErrValidation, before;
      }
      var stamped := record.(serviceTreeID := serviceTreeID);
      var v := Records.Validate(stamped);
      if v.Invalid? {
        return ErrValidation, before;
      }
      var s := View();
      Commit(s, Check(p, typ, true));
      Interfere(Producer(p));
      ValidReachable();
      ReachableLedger(View());
      s := View();
      before := s;
      if |sendCh| < cfg.queueSize {
        sendCh := sendCh + [Msg(typ, |hist.accepted|)];
        Commit(s, Put(p));
        return Accepted, before;
      }
      Commit(s, Put(p));
      return ErrQueueFull, before;
    }

    // --- The notifier -------------------------------------------------------------------------------------

    /** sendNotify: put the notice, or drop it if the channel is full. */
    method SendNotify(n: Notice)
      modifies this`notifier
      ensures notifier == old(notifier).Offer(n)
    {
      if |notifier.chan| < notifier.cap {
        notifier := notifier.(offered := notifier.offered + [n], chan := notifier.chan + [n]);
      } else {
        notifier := notifier.(offered := notifier.offered + [n], dropped := notifier.dropped + [n]);
      }
    }

    /** sendNotifyDead: evict the oldest notice until the death notice fits. Closers and senders may fill the room
        again and the reader may drain the channel at any time; the loop still ends, after at most one failed put
        more than there were closers. */
    method SendNotifyDead(f: Fault)
      requires Valid() && mgr == DyingPut(f)
      modifies this
      ensures Valid() && mgr == StoringDead(f) && handoff == old(handoff) && clientDead == old(clientDead)
      ensures SendersKept(old(senders), senders)
      ensures notifier.cap == old(notifier.cap)
      ensures Deaths(notifier.offered) == [f] && Attempts(notifier.offered) == old(Attempts(notifier.offered))
      ensures notifier.cap > 0 ==> Deaths(notifier.read) + Deaths(notifier.chan) == [f]
      ensures hist.putFailures <= hist.closersAtDeath + 1
      ensures hist.faults == old(hist.faults)
    {
      Interfere(Actor.Manager);
      Bounds(f);
      if notifier.cap == 0 {
        DiscardDead(f);
        return;
      }
      ghost var between := senders;
      PutUntilLanded(f);
      SendersKeptThen(old(senders), between, senders);
      Announced(f);
    }

    /** The loop itself. */
    method PutUntilLanded(f: Fault)
      requires Valid() && mgr == DyingPut(f) && notifier.cap > 0
      modifies this
      ensures Valid() && mgr == StoringDead(f) && handoff == old(handoff) && clientDead == old(clientDead)
      ensures SendersKept(old(senders), senders)
      ensures notifier.cap == old(notifier.cap)
      ensures Attempts(notifier.offered) == old(Attempts(notifier.offered)) && hist.faults == old(hist.faults)
      ensures hist.putFailures <= hist.closersAtDeath + 1
    {
      var landed := TryPutDead(f);
      while !landed
        invariant Valid() && handoff == old(handoff) && clientDead == old(clientDead)
        invariant SendersKept(old(senders), senders)
        invariant mgr == if landed then StoringDead(f) else DyingGet(f)
        invariant notifier.cap == old(notifier.cap) && notifier.cap > 0
        invariant Attempts(notifier.offered) == old(Attempts(notifier.offered)) && hist.faults == old(hist.faults)
        invariant hist.putFailures <= hist.closersAtDeath + 1
        decreases hist.closersAtDeath + 1 - hist.putFailures, !landed
      {
        ghost var between := senders;
        landed := EvictAndTry(f);
        SendersKeptThen(old(senders), between, senders);
      }
    }

    /** One round of the loop, with the others running before each of its two steps. */
    method EvictAndTry(f: Fault) returns (landed: bool)
      requires Valid() && mgr == DyingGet(f) && notifier.cap > 0
      modifies this
      ensures Valid() && handoff == old(handoff) && clientDead == old(clientDead)
      ensures SendersKept(old(senders), senders)
      ensures Attempts(notifier.offered) == old(Attempts(notifier.offered)) && notifier.cap == old(notifier.cap)
      ensures mgr == if landed then StoringDead(f) else DyingGet(f)
      ensures hist.faults == old(hist.faults) && hist.closersAtDeath == old(hist.closersAtDeath)
      ensures hist.putFailures == old(hist.putFailures) + (if landed then 0 else 1)
      ensures hist.putFailures <= hist.closersAtDeath + 1
    {
      Interfere(Actor.Manager);
      ghost var between := senders;
      EvictOldest(f);
      Interfere(Actor.Manager);
      SendersKeptThen(old(senders), between, senders);
      landed := TryPutDead(f);
    }

    /** A channel without a buffer can never take the notice. */
    method DiscardDead(f: Fault)
      requires Valid() && mgr == DyingPut(f) && notifier.cap == 0
      modifies this
      ensures Valid() && mgr == StoringDead(f) && handoff == old(handoff) && clientDead == old(clientDead)
      ensures SendersKept(old(senders), senders)
      ensures notifier == old(notifier).Discard(Dead(f)) && hist == old(hist)
      ensures Deaths(notifier.offered) == [f] && Attempts(notifier.offered) == old(Attempts(notifier.offered))
      ensures hist.putFailures <= hist.closersAtDeath + 1
    {
      var s := View();
      notifier := notifier.Discard(Dead(f));
      DeathsOfAppend(s.notifier.offered, Dead(f));
      Commit(s, Mgr(DeathPut));
      Announced(f);
    }

    /** The TryPut of the loop: the notice lands exactly if there is room. */
    method TryPutDead(f: Fault) returns (landed: bool)
      requires Valid() && mgr == DyingPut(f) && notifier.cap > 0
      modifies this
      ensures Valid() && handoff == old(handoff) && clientDead == old(clientDead) && senders == old(senders)
      ensures landed <==> |old(notifier.chan)| < notifier.cap
      ensures notifier == if landed then old(notifier).Land(Dead(f)) else old(notifier)
      ensures Attempts(notifier.offered) == old(Attempts(notifier.offered)) && notifier.cap == old(notifier.cap)
      ensures mgr == if landed then StoringDead(f) else DyingGet(f)
      ensures hist == if landed then old(hist) else old(hist).(putFailures := old(hist.putFailures) + 1)
      ensures hist.putFailures <= hist.closersAtDeath + 1
    {
      var s := View();
      landed := |notifier.chan| < notifier.cap;
      if landed {
        notifier := notifier.Land(Dead(f));
        DeathsOfAppend(s.notifier.offered, Dead(f));
      }
      Commit(s, Mgr(DeathPut));
      if landed { Announced(f); } else { Bounds(f); }
    }

    /** The TryGet of the loop: the oldest notice goes, if the reader has not emptied the channel meanwhile. */
    method EvictOldest(f: Fault)
      requires Valid() && mgr == DyingGet(f)
      modifies this
      ensures Valid() && handoff == old(handoff) && clientDead == old(clientDead) && hist == old(hist)
      ensures senders == old(senders)
      ensures mgr == DyingPut(f) && notifier.cap == old(notifier.cap)
      ensures Attempts(notifier.offered) == old(Attempts(notifier.offered))
      ensures if old(notifier.chan) == [] then notifier == old(notifier)
              else notifier == old(notifier).(chan := old(notifier.chan)[1..],
                                              evicted := old(notifier.evicted) + [old(notifier.chan)[0]])
    {
      var s := View();
      notifier := notifier.Evict();
      Commit(s, Mgr(DeathGet));
    }

    lemma Bounds(f: Fault)
      requires Valid() && (mgr == DyingPut(f) || mgr == DyingGet(f))
      ensures hist.putFailures <= hist.closersAtDeath + 1
    {
      ReachableDeath(View());
    }

    lemma Announced(f: Fault)
      requires Valid() && mgr == StoringDead(f)
      ensures Deaths(notifier.offered) == [f]
      ensures notifier.cap > 0 ==> Deaths(notifier.read) + Deaths(notifier.chan) == [f]
      ensures hist.putFailures <= hist.closersAtDeath + 1
    {
      ReachableDeath(View());
    }

    // --- The connection manager ---------------------------------------------------------------------------

    /** newSender: on a rejected connection it starts a closer. */
    method NewSender(o: Outcome) returns (fault: Option<Fault>)
      modifies this`closers
      ensures fault == CreateFaultOf(cfg, o) && closers == old(closers) + Spawned(cfg, o)
      // Outright: the error of create is passed on, and a connection that is rejected is closed in the background.
      ensures o.Fails? ==> fault == Some(CreateFault(o.code, o.retryable)) && closers == old(closers)
      ensures o.Opens? ==> (fault.None? <==> (cfg.linux || o.noop) && cfg.wired)
      ensures o.Opens? && fault.Some? ==>
                && fault.value == (if cfg.linux || o.noop then WiringFault else PlatformFault)
                && closers == old(closers) + 1
    {
      if o.Fails? {
        return Some(CreateFault(o.code, o.retryable));
      }
      if !cfg.linux && !o.noop {
        closers := closers + 1;
        return Some(PlatformFault);
      }
      if !cfg.wired {
        closers := closers + 1;
        return Some(WiringFault);
      }
      return None;
    }

    lemma Calm()
      requires Valid() && mgr.Attempting?
      ensures closers == 0 && !clientDead && Deaths(notifier.offered) == []
    {
      ReachableDeath(View());
    }

    /** reconnect, when create returns the given outcomes in turn: it offers one notice for each failed attempt, in
        order, and returns a sender at the first success; at the first permanent failure it offers one death notice
        more, marks the client dead and returns none. */
    method Reconnect(outcomes: seq<Outcome>) returns (r: Reconnected)
      requires Valid() && mgr.Attempting?
      modifies this
      ensures Valid() && handoff == old(handoff)
      ensures SendersKept(old(senders), senders)
      ensures r == Decide(cfg, outcomes)
      ensures Attempts(notifier.offered) == old(Attempts(notifier.offered)) + FailuresOf(cfg, outcomes)
      ensures clientDead <==> r.Died?
      ensures Deaths(notifier.offered) == if r.Died? then [r.fault] else []
      ensures mgr == match r
                     case Connected(noop) => Resume(handoff, Some(noop))
                     case Died(_) => Resume(handoff, None)
                     case Retrying => Attempting
    {
      Calm();
      var rest := outcomes;
      ghost var all := Attempts(notifier.offered) + FailuresOf(cfg, outcomes);
      r := Retrying;
      while rest != []
        invariant Valid() && mgr.Attempting? && handoff == old(handoff)
        invariant SendersKept(old(senders), senders)
        invariant r.Retrying? && !clientDead && Deaths(notifier.offered) == []
        invariant Decide(cfg, outcomes) == Decide(cfg, rest)
        invariant Attempts(notifier.offered) + FailuresOf(cfg, rest) == all
      {
        DecideOnce(cfg, rest);
        ghost var before := Attempts(notifier.offered);
        r := AttemptOnce(rest[0]);
        if !r.Retrying? {
          return;
        }
        Regroup(before, FailureOf(cfg, rest[0]), FailuresOf(cfg, rest[1..]));
        rest := rest[1..];
      }
    }

    /** One attempt, with its report, and if it failed for good the death of the client. */
    method AttemptOnce(o: Outcome) returns (r: Reconnected)
      requires Valid() && mgr.Attempting?
      modifies this
      ensures Valid() && handoff == old(handoff)
      ensures SendersKept(old(senders), senders)
      ensures r == Verdict(cfg, o)
      // Outright: an error that can be retried is, any other failure is the end.
      ensures r.Retrying? <==> o.Fails? && o.retryable
      ensures r.Connected? <==> o.Opens? && (cfg.linux || o.noop) && cfg.wired
      ensures r.Connected? ==> r.noop == o.noop
      ensures r.Died? && o.Fails? ==> r.fault == CreateFault(o.code, false)
      ensures Attempts(notifier.offered) == old(Attempts(notifier.offered)) + FailureOf(cfg, o)
      ensures clientDead <==> r.Died?
      ensures Deaths(notifier.offered) == if r.Died? then [r.fault] else []
      ensures mgr == match r
                     case Connected(noop) => Resume(handoff, Some(noop))
                     case Died(_) => Resume(handoff, None)
                     case Retrying => Attempting
    {
      var fault := Attempt(o);
      if fault.None? {
        return Connected(o.noop);
      }
      ReportFailure(fault.value);
      if fault.value.Permanent() {
        Die(fault.value);
        return Died(fault.value);
      }
      Calm();
      return Retrying;
    }

    /** One run of the retried operation, up to the report of its failure. */
    method Attempt(o: Outcome) returns (fault: Option<Fault>)
      requires Valid() && mgr.Attempting?
      modifies this
      ensures Valid() && handoff == old(handoff) && !clientDead && Deaths(notifier.offered) == []
      ensures SendersKept(old(senders), senders)
      ensures fault == CreateFaultOf(cfg, o)
      ensures mgr == match fault case None => Resume(handoff, Some(o.noop)) case Some(f) => NotifyFault(f)
      ensures Attempts(notifier.offered) == old(Attempts(notifier.offered))
    {
      Interfere(Actor.Manager);
      Calm();
      if closers > cfg.maxClosers {
        assert false;  // the guard never fires
      }
      var s := View();
      fault := NewSender(o);
      Commit(s, Mgr(Create(o)));
    }

    /** The failed attempt inside the retried operation. */
    method ReportFailure(f: Fault)
      requires Valid() && mgr == NotifyFault(f)
      modifies this
      ensures Valid() && handoff == old(handoff)
      ensures SendersKept(old(senders), senders)
      ensures Attempts(notifier.offered) == old(Attempts(notifier.offered)) + [f]
      ensures LastOffered() == Some(AttemptFault(f))
      ensures mgr == if f.Permanent() then DyingPut(f) else Attempting
    {
      Interfere(Actor.Manager);
      var s := View();
      NotifyFrame(s);
      DeathsOfAppend(s.notifier.offered, AttemptFault(f));
      SendNotify(AttemptFault(f));
      Commit(s, Mgr(Notify));
    }

    /** The end of reconnect: the death notice first, then the flag. */
    method Die(f: Fault)
      requires Valid() && mgr == DyingPut(f)
      modifies this
      ensures Valid() && handoff == old(handoff) && clientDead && mgr == Resume(handoff, None)
      ensures SendersKept(old(senders), senders)
      ensures Deaths(notifier.offered) == [f]
      ensures Attempts(notifier.offered) == old(Attempts(notifier.offered))
      ensures trace != [] && After(Init(cfg), trace[..|trace| - 1]).Some?
      ensures var last := After(Init(cfg), trace[..|trace| - 1]).value;
        && !last.dead && Deaths(last.notifier.offered) == [f]
        && (last.notifier.cap > 0 ==> Deaths(last.notifier.read) + Deaths(last.notifier.chan) == [f])
    {
      SendNotifyDead(f);
      Interfere(Actor.Manager);
      Announced(f);
      Undead(f);
      label Stored:
      var s := View();
      clientDead := true;
      Commit(s, Mgr(StoreDead));
      assert trace[..|trace| - 1] == old@Stored(trace);
    }

    lemma Undead(f: Fault)
      requires Valid() && mgr == StoringDead(f)
      ensures !clientDead
    {
      ReachableDeath(View());
    }

    /** One round of manageSender: run one sender more until it ends, report that, and reconnect. A round ends early,
        with the manager waiting, only while that sender still runs; otherwise it goes on as reconnect decides. */
    method ManageOnce(round: Round) returns (again: bool)
      requires Valid() && mgr.Starting?
      modifies this
      ensures Valid() && !handoff
      ensures KindsOf(senders) == old(KindsOf(senders)) + [Kind(old(mgr).noop, false)]
      ensures mgr.Awaiting? ==> round.started && !senders[|senders| - 1].pc.Returned?
      ensures !mgr.Awaiting? ==> EndedAs(senders[|senders| - 1], round.started)
      ensures SendersKept(old(senders), senders[..|senders| - 1])
      ensures !mgr.Awaiting? ==> mgr == AfterRound(cfg, round.outcomes)
      ensures again <==> mgr.Starting?
      ensures clientDead <==> mgr.Stopped?
    {
      var ended := RunSender(round.started);
      if !ended {
        return false;
      }
      ghost var between := senders;
      again := GoOn(round.outcomes);
      EndStays(old(senders), between, senders, round.started);
    }

    /** The second half of a round: report the end and reconnect. */
    method GoOn(outcomes: seq<Outcome>) returns (again: bool)
      requires Valid() && mgr.NotifyEnded? && !handoff
      modifies this
      ensures Valid() && !handoff && SendersKept(old(senders), senders)
      ensures mgr == AfterRound(cfg, outcomes)
      ensures again <==> mgr.Starting?
      ensures clientDead <==> mgr.Stopped?
    {
      ReportEnd();
      ghost var between := senders;
      var r := Reconnect(outcomes);
      SendersKeptThen(old(senders), between, senders);
      return r.Connected?;
    }

    /** The first half of a round: start a sender and wait for its end, which it may not have reached yet. */
    method RunSender(started: bool) returns (ended: bool)
      requires Valid() && mgr.Starting?
      modifies this
      ensures Valid() && !handoff && !clientDead && senders != []
      ensures KindsOf(senders) == old(KindsOf(senders)) + [Kind(old(mgr).noop, false)]
      ensures SendersKept(old(senders), senders[..|senders| - 1])
      ensures if ended then mgr.NotifyEnded? && EndedAs(senders[|senders| - 1], started)
              else mgr.Awaiting? && started && !senders[|senders| - 1].pc.Returned?
    {
      StartIt(started);
      ghost var x := senders[|senders| - 1];
      ghost var others := senders[..|senders| - 1];
      assert senders == others + [x];
      ended := AwaitIt();
      OneMoreKept(others, x, senders);
      SendersKeptThen(old(senders), others, senders[..|others|]);
      EndOf(x, senders[|senders| - 1], started);
    }

    method StartIt(started: bool)
      requires Valid() && mgr.Starting?
      modifies this
      ensures Valid() && mgr.Awaiting? && senders != []
      ensures KindsOf(senders) == old(KindsOf(senders)) + [Kind(old(mgr).noop, false)]
      ensures SendersKept(old(senders), senders[..|senders| - 1])
      ensures senders[|senders| - 1] == Protocol.NewSender(old(mgr).noop, false, started)
    {
      Interfere(Actor.Manager);
      ManagerAlone();
      ghost var between := senders;
      StartReal(started);
      assert senders[..|senders| - 1] == between;
    }

    /** The receive from the sender's channel, unless its loop goes on. */
    method AwaitIt() returns (ended: bool)
      requires Valid() && mgr.Awaiting?
      modifies this
      ensures Valid() && !handoff && !clientDead && senders != [] && SendersKept(old(senders), senders)
      ensures if ended then mgr.NotifyEnded? && !senders[|senders| - 1].cancelled
              else mgr.Awaiting?
      ensures if ended then senders[|senders| - 1].pc == Returned(false) else !senders[|senders| - 1].pc.Returned?
    {
      Interfere(Actor.Manager);
      ManagerAlone();
      if !senders[|senders| - 1].pc.Returned? {
        return false;
      }
      RealSender();
      JoinReal();
      return true;
    }

    /** sender.start. */
    method StartReal(started: bool)
      requires Valid() && mgr.Starting? && !handoff && !clientDead
      modifies this
      ensures Valid() && mgr.Awaiting? && !handoff && !clientDead
      ensures senders == old(senders) + [Protocol.NewSender(old(mgr).noop, false, started)]
      ensures KindsOf(senders) == old(KindsOf(senders)) + [Kind(old(mgr).noop, false)]
    {
      var s := View();
      KindsOfAppend(senders, Protocol.NewSender(mgr.noop, false, started));
      Commit(s, Mgr(Start(started)));
    }

    /** The receive from the sender's channel. */
    method JoinReal()
      requires Valid() && mgr.Awaiting? && senders != [] && senders[|senders| - 1].pc.Returned?
      modifies this
      ensures Valid() && mgr.NotifyEnded? && handoff == old(handoff) && clientDead == old(clientDead)
      ensures senders == old(senders)
    {
      var s := View();
      JoinEffect(s);
      Commit(s, Mgr(Join));
      if mgr.NotifyBug? {
        ManagerAlone();
        assert false;  // no sender of manageSender ends without an error
      }
    }

    /** manageSender cancels no sender, so none of its senders ends without an error. */
    lemma RealSender()
      requires Valid() && mgr.Awaiting? && senders != []
      ensures !senders[|senders| - 1].cancelled && senders[|senders| - 1].pc != Returned(true)
    {
      ReachableControl(View());
      assert SenderSane(senders[|senders| - 1]);
    }

    /** What the position of the manager says about the rest. */
    lemma ManagerAlone()
      requires Valid()
      ensures mgr.Starting? ==> !handoff && !clientDead
      ensures mgr.Awaiting? ==> !handoff && !clientDead && senders != []
      ensures mgr.Cancelling? || mgr.JoiningNoop? ==> senders != [] && handoff
      ensures !mgr.NotifyBug?
    {
      ReachableDeath(View());
    }

    function LastOffered(): Option<Notice>
      reads this
    {
      if notifier.offered == [] then None else Some(notifier.offered[|notifier.offered| - 1])
    }

    method ReportEnd()
      requires Valid() && mgr.NotifyEnded?
      modifies this
      ensures Valid() && mgr.Attempting? && handoff == old(handoff)
      ensures SendersKept(old(senders), senders)
      ensures LastOffered() == Some(SenderEnded)
    {
      Interfere(Actor.Manager);
      var s := View();
      NotifyFrame(s);
      SendNotify(SenderEnded);
      Commit(s, Mgr(Notify));
    }

    /** manageSender has run the first k of these rounds, beginning with a sender on the given connection, and has a
        connection for the next. */
    ghost predicate BeforeRound(before: seq<Kind>, first: bool, rounds: seq<Round>, k: nat)
      reads this
    {
      && k <= |rounds| && mgr == Starting(ConnectionOf(cfg, first, rounds[..k]))
      && KindsOf(senders) == before + KindsOver(cfg, first, rounds[..k])
      && EndedRounds(senders, |before|, rounds, k)
      && forall j :: 0 <= j < k ==> AfterRound(cfg, rounds[j].outcomes).Starting?
    }

    /** manageSender has run the first k of these rounds and ended with the last of them. */
    ghost predicate EndedInRound(before: seq<Kind>, first: bool, rounds: seq<Round>, k: nat)
      reads this
    {
      && 0 < k <= |rounds|
      && KindsOf(senders) == before + KindsOver(cfg, first, rounds[..k])
      && EndedRounds(senders, |before|, rounds, if mgr.Awaiting? then k - 1 else k)
      && (forall j :: 0 <= j < k - 1 ==> AfterRound(cfg, rounds[j].outcomes).Starting?)
      && if mgr.Awaiting? then rounds[k - 1].started && senders != [] && !senders[|senders| - 1].pc.Returned?
         else mgr == AfterRound(cfg, rounds[k - 1].outcomes) && !mgr.Starting?
    }

    /** manageSender, for the given number of rounds: each starts one sender more, on the connection that the round
        before has got. Unless it runs all of them, it ends with the round that did not end in a new connection, and it
        returns only because the client is dead. */
    method ManageSender(rounds: seq<Round>) returns (stopped: bool, ghost used: nat)
      requires Valid() && mgr.Starting?
      modifies this
      ensures Valid() && !handoff
      ensures if mgr.Starting? then
                used == |rounds| && BeforeRound(old(KindsOf(senders)), old(mgr).noop, rounds, used)
              else
                EndedInRound(old(KindsOf(senders)), old(mgr).noop, rounds, used)
      ensures stopped <==> mgr.Stopped?
      ensures stopped ==> clientDead
    {
      ManagerAlone();
      used := 0;
      ghost var before, first := KindsOf(senders), mgr.noop;
      assert rounds[..0] == [] && KindsOver(cfg, first, rounds[..0]) == [];
      for k := 0 to |rounds|
        invariant Valid() && !handoff && used == k && BeforeRound(before, first, rounds, k)
      {
        var again := RunRound(before, first, rounds, k);
        used := k + 1;
        if !again {
          return mgr.Stopped?, used;
        }
      }
      return false, used;
    }

    method RunRound(ghost before: seq<Kind>, ghost first: bool, rounds: seq<Round>, k: nat) returns (again: bool)
      requires Valid() && k < |rounds| && BeforeRound(before, first, rounds, k)
      modifies this
      ensures Valid() && !handoff && (clientDead <==> mgr.Stopped?)
      ensures again <==> mgr.Starting?
      ensures if again then BeforeRound(before, first, rounds, k + 1)
              else EndedInRound(before, first, rounds, k + 1)
    {
      ghost var earlier := senders;
      again := ManageOnce(rounds[k]);
      RoundRun(earlier, before, first, rounds, k);
    }

    lemma RoundRun(earlier: seq<Sender>, before: seq<Kind>, first: bool, rounds: seq<Round>, k: nat)
      requires k < |rounds|
      requires KindsOf(earlier) == before + KindsOver(cfg, first, rounds[..k])
      requires KindsOf(senders) == KindsOf(earlier) + [Kind(ConnectionOf(cfg, first, rounds[..k]), false)]
      requires EndedRounds(earlier, |before|, rounds, k) && SendersKept(earlier, senders[..|senders| - 1])
      requires forall j :: 0 <= j < k ==> AfterRound(cfg, rounds[j].outcomes).Starting?
      requires if mgr.Awaiting? then rounds[k].started && !senders[|senders| - 1].pc.Returned?
               else mgr == AfterRound(cfg, rounds[k].outcomes) && EndedAs(senders[|senders| - 1], rounds[k].started)
      ensures if mgr.Starting? then BeforeRound(before, first, rounds, k + 1)
              else EndedInRound(before, first, rounds, k + 1)
    {
      RoundKinds(cfg, first, rounds, k, before, KindsOf(earlier));
      EndedRoundsThen(earlier, senders, |before|, rounds, k);
      if mgr.Starting? {
        NextConnection(cfg, first, rounds, k);
        assert BeforeRound(before, first, rounds, k + 1);
      } else {
        assert EndedInRound(before, first, rounds, k + 1);
      }
    }

    /** Where deferredConnect stands after reconnect has decided. The no-op sender is cancelled then; until its loop,
        which was started, has ended, the handoff waits for it. After that a failure for good is the end, and with a
        connection manageSender runs. */
    ghost predicate HandedOver(r: Reconnected, started: bool, rounds: seq<Round>, used: nat)
      reads this
    {
      if handoff then
        && mgr == JoiningNoop(if r.Connected? then Some(r.noop) else None)
        && EndsInNoop(senders, true) && started && !senders[0].pc.Returned? && used == 0
      else if !r.Connected? then
        mgr.Stopped? && used == 0
      else if mgr.Starting? then
        used == |rounds| && BeforeRound([Kind(true, true)], r.noop, rounds, used)
      else
        EndedInRound([Kind(true, true)], r.noop, rounds, used)
    }

    /** deferredConnect: the no-op sender serves until reconnect decides; only when its loop has ended does the real
        sender start, or the manager stop. used is the number of rounds of manageSender that were run. */
    method DeferredConnect(f: Fault, started: bool, outcomes: seq<Outcome>, rounds: seq<Round>)
        returns (stopped: bool, ghost used: nat)
      requires Valid() && mgr == NotifyStart(f)
      modifies this
      ensures Valid()
      ensures stopped <==> mgr.Stopped?
      ensures stopped ==> clientDead
      // Until the handoff is over, the no-op sender is the only one; it is cancelled only after the decision, and the
      // handoff then waits only for its loop to end.
      ensures if Decide(cfg, outcomes).Retrying? then
                handoff && mgr.Attempting? && EndsInNoop(senders, false) && used == 0
              else
                HandedOver(Decide(cfg, outcomes), started, rounds, used)
    {
      ReportStart(f);
      StartNoop(started);
      var r := Reconnect(outcomes);
      if r.Retrying? {
        NoopServes();
        return false, 0;
      }
      stopped, used := HandOver(r, started, rounds);
    }

    /** The end of deferredConnect, once reconnect has decided. */
    method HandOver(r: Reconnected, started: bool, rounds: seq<Round>) returns (stopped: bool, ghost used: nat)
      requires Valid() && handoff && !r.Retrying? && KindsOf(senders) == [Kind(true, true)]
      requires !started ==> senders[0].pc.Returned?
      requires mgr == Cancelling(if r.Connected? then Some(r.noop) else None) && (clientDead <==> r.Died?)
      modifies this
      ensures Valid()
      ensures stopped <==> mgr.Stopped?
      ensures stopped ==> clientDead
      ensures HandedOver(r, started, rounds, used)
    {
      var joined := StopNoop(if r.Connected? then Some(r.noop) else None);
      if !joined {
        NoopServes();
        return false, 0;
      }
      if r.Died? {
        return true, 0;
      }
      stopped, used := ManageSender(rounds);
    }

    /** noop.start. */
    method StartNoop(started: bool)
      requires Valid() && mgr == StartingNoop
      modifies this
      ensures Valid() && mgr.Attempting? && handoff && senders == [Protocol.NewSender(true, true, started)]
    {
      Interfere(Actor.Manager);
      NoSenderYet();
      var s := View();
      Commit(s, Mgr(Start(started)));
    }

    lemma NoSenderYet()
      requires Valid() && mgr == StartingNoop
      ensures senders == []
    {
      ReachableControl(View());
    }

    lemma NoopServes()
      requires Valid() && handoff && (mgr.Attempting? || mgr.JoiningNoop?)
      ensures EndsInNoop(senders, mgr.JoiningNoop?)
    {
      ReachableControl(View());
    }

    method ReportStart(f: Fault)
      requires Valid() && mgr == NotifyStart(f)
      modifies this
      ensures Valid() && mgr == StartingNoop && LastOffered() == Some(InitialFault(f))
    {
      Interfere(Actor.Manager);
      var s := View();
      NotifyFrame(s);
      SendNotify(InitialFault(f));
      Commit(s, Mgr(Notify));
    }

    /** cancelNoop and <-noopDone. */
    method StopNoop(next: Option<bool>) returns (joined: bool)
      requires Valid() && mgr == Cancelling(next)
      modifies this
      ensures Valid() && clientDead == old(clientDead) && handoff == !joined && senders != []
      ensures if joined then mgr == Resume(false, next) && AllReturned(senders)
              else mgr == JoiningNoop(next) && !senders[|senders| - 1].pc.Returned?
      ensures SendersKept(old(senders), senders)
    {
      CancelNoop(next);
      ghost var between := senders;
      joined := JoinedNoop(next);
      SendersKeptThen(old(senders), between, senders);
    }

    /** The receive from the no-op sender's channel, unless its loop goes on. */
    method JoinedNoop(next: Option<bool>) returns (joined: bool)
      requires Valid() && mgr == JoiningNoop(next)
      modifies this
      ensures Valid() && clientDead == old(clientDead) && handoff == !joined && senders != []
      ensures if joined then mgr == Resume(false, next) && AllReturned(senders)
              else mgr == JoiningNoop(next) && !senders[|senders| - 1].pc.Returned?
      ensures SendersKept(old(senders), senders)
    {
      Interfere(Actor.Manager);
      ManagerAlone();
      if !senders[|senders| - 1].pc.Returned? {
        return false;
      }
      JoinNoop(next);
      return true;
    }

    method CancelNoop(next: Option<bool>)
      requires Valid() && mgr == Cancelling(next)
      modifies this
      ensures Valid() && clientDead == old(clientDead) && mgr == JoiningNoop(next)
      ensures SendersKept(old(senders), senders)
    {
      Interfere(Actor.Manager);
      ghost var between := senders;
      CancelNow(next);
      SendersKeptThen(old(senders), between, senders);
    }

    method CancelNow(next: Option<bool>)
      requires Valid() && mgr == Cancelling(next)
      modifies this
      ensures Valid() && clientDead == old(clientDead) && mgr == JoiningNoop(next)
      ensures SendersKept(old(senders), senders)
    {
      ManagerAlone();
      var s := View();
      CancelEffect(s);
      CancelKeepsSenders(senders, |senders| - 1);
      Commit(s, Mgr(Cancel));
    }

    method JoinNoop(next: Option<bool>)
      requires Valid() && mgr == JoiningNoop(next) && senders != [] && senders[|senders| - 1].pc.Returned?
      modifies this
      ensures Valid() && clientDead == old(clientDead) && !handoff && mgr == Resume(false, next)
      ensures senders == old(senders) && AllReturned(senders)
    {
      var s := View();
      JoinEffect(s);
      Commit(s, Mgr(Join));
      ReachableControl(View());
    }

    /** startConnManager: New fails unless the first connection succeeds, or its failure may be deferred. */
    method StartConnManager(o: Outcome, launched: bool) returns (failed: bool)
      requires Valid() && mgr.Boot?
      modifies this
      ensures Valid() && published == !failed
      ensures var f := CreateFaultOf(cfg, o);
        && (failed <==> f.Some? && (!cfg.deferredConn || f.value.Permanent() || !cfg.wired))
        && (failed ==> mgr.Refused?)
        && (!failed ==>
              mgr == if !launched then Unmanaged
                     else match f case None => Starting(o.noop) case Some(fault) => NotifyStart(fault))
      // Outright: only an error of create that can be retried may be deferred.
      ensures !failed <==>
                || (o.Opens? && (cfg.linux || o.noop) && cfg.wired)
                || (o.Fails? && o.retryable && cfg.deferredConn && cfg.wired)
    {
      ReachableControl(View());
      var s := View();
      var fault := NewSender(o);
      Commit(s, Mgr(Create(o)));
      if fault.Some? {
        if !cfg.deferredConn {
          return true;
        }
        if fault.value.Permanent() {
          return true;
        }
        if !cfg.wired {
          return true;
        }
      }
      LaunchTask(launched);
      return false;
    }

    /** Tasks.Once: the background task is started, or it is not. */
    method LaunchTask(launched: bool)
      requires Valid() && (mgr.Launching? || mgr.Deferring?)
      modifies this
      ensures Valid() && published
      ensures mgr == if !launched then Unmanaged
                     else old(if mgr.Launching? then Starting(mgr.noop) else NotifyStart(mgr.fault))
    {
      Interfere(Actor.Manager);
      var s := View();
      Commit(s, Mgr(Launch(launched)));
    }
  }

  /** Send on a client that may be nil: it is treated like a dead one. */
  method SendOn(c: Client?, p: nat, typ: MsgType, record: Records.Record) returns (r: SendResult, ghost before: State)
    requires c != null ==> c.Valid() && c.published && p !in c.producers
    modifies c
    ensures r.ErrClientDead? <==> c == null || old(c.clientDead)
    ensures c != null ==> c.Valid() && c.published && p !in c.producers
    ensures c != null ==>
              (r.ErrValidation? <==>
                 !old(c.clientDead)
                 && !(Sendable(typ) && Records.IsValid(record.(serviceTreeID := c.serviceTreeID))))
    ensures c != null && (r.ErrClientDead? || r.ErrValidation?) ==> c.View() == old(c.View())
    ensures r.Accepted? || r.ErrQueueFull? ==>
              && Relies(Producer(p), CheckStep(old(c.View()), p, typ, true), before)
              && (r.Accepted? <==> |before.queue| < c.cfg.queueSize)
    ensures r.Accepted? ==>
              var m := Msg(typ, |before.hist.accepted|);
              c.sendCh == before.queue + [m] && c.hist.accepted == before.hist.accepted + [m]
    ensures r.ErrQueueFull? ==> c.sendCh == before.queue && c.hist.accepted == before.hist.accepted
  {
    if c == null {
      return ErrClientDead, Init(Config(0, 0, 0, false, false, false));
    }
    r, before := c.Send(p, typ, record);
  }
}
