/** audit.msgSender and its methods, with the other goroutines running between their steps. */
module MsgSenders {
  import opened Notices
  import opened Protocol
  import opened Frames
  import opened Interference
  import Clients = Client

  datatype Service = Served | Broken | Ended | Blocked

  /** The branches of the select in serviceMsg. */
  datatype Branch = OnDone | OnMessage | OnTick

  /** What happens to serviceMsg once: which ready branch the select prefers, and whether a real connection takes its
      first and its second write. */
  datatype Turn = Turn(pick: Branch, first: bool, second: bool)

  /** Whether a branch is ready for sender i: its context is done, there is a message, or its ticker is set. */
  ghost predicate Ready(s: State, i: nat, b: Branch)
    requires i < |s.senders|
  {
    match b
    case OnDone => s.senders[i].cancelled
    case OnMessage => s.queue != []
    case OnTick => s.senders[i].ticker
  }

  /** select: any branch that is ready may be taken, and the one picked is if it is. */
  method Choose(pick: Branch, done: bool, message: bool, tick: bool) returns (b: Option<Branch>)
    ensures b.None? <==> !done && !message && !tick
    ensures b.Some? ==> match b.value case OnDone => done case OnMessage => message case OnTick => tick
    ensures (match pick case OnDone => done case OnMessage => message case OnTick => tick) ==> b == Some(pick)
  {
    if (pick.OnDone? && done) || (pick.OnMessage? && message) || (pick.OnTick? && tick) {
      return Some(pick);
    }
    if {
      case done => return Some(OnDone);
      case message => return Some(OnMessage);
      case tick => return Some(OnTick);
      case !done && !message && !tick => return None;
    }
  }

  class MsgSender {
    const client: Clients.Client
    const i: nat          // its place among the senders the client has started
    const noop: bool      // conn.Type() == conn.TypeNoOP
    var ticker: bool      // ticker != nil

    /** Its loop is running. */
    ghost predicate Valid()
      reads this, client
    {
      && client.Valid() && i < |client.senders| && !client.senders[i].pc.Returned?
      && client.senders[i].noop == noop && client.senders[i].ticker == ticker
    }

    /** Its loop has returned; clean: without an error. */
    ghost predicate Over(clean: bool)
      reads this, client
    {
      client.Valid() && i < |client.senders| && client.senders[i].pc == Returned(clean)
    }

    constructor (client: Clients.Client, i: nat)
      requires client.Valid() && i < |client.senders| && client.senders[i].pc.Top?
      ensures Valid() && this.client == client && this.i == i
    {
      this.client, this.i := client, i;
      noop, ticker := client.senders[i].noop, client.senders[i].ticker;
    }

    /** write: hand the message to the connection; on failure count the error, requeue a user message or drop it,
        and notify. A no-op connection never fails, and what it swallows is counted as dropped. The other goroutines
        run during conn.Write: during is the state in which it returns. works: whether a real connection would take
        it. */
    method Write(m: Msg, beat: bool, works: bool) returns (ok: bool, ghost during: State)
      requires Valid() && client.senders[i].pc == Writing(m, beat)
      modifies client
      ensures client.Valid() && i < |client.senders| && client.senders[i].noop == noop
      ensures Relies(Loop(i), old(client.View()), during) && SenderEnabled(during, i, WriteDone(ok))
      ensures ok <==> noop || works
      ensures ok ==> client.View() == SenderStep(during, i, WriteDone(true))
      ensures ok ==> var x := during.senders[i];
                     && client.senders[i] == AfterWrite(x)
                     && client.metrics == CountWrite(during.metrics, x)
                     && client.hist == LogWrite(during.hist, x)
      ensures !ok ==> client.senders[i].pc == Returned(false) && client.senders[i].log == old(client.senders[i].log)
      ensures !ok ==> client.senders[i].failures == old(client.senders[i].failures) + 1
      ensures !ok && !beat ==> m in client.sendCh || m in client.hist.lost
    {
      client.Interfere(Loop(i));
      during := client.View();
      ok := works;
      if noop {
        ok := true;
      }
      if ok {
        CountWritten(m);
        WriteEffect(during, i, true);
        SenderFrame(during, i, WriteDone(true));
      } else {
        Fail(m);
      }
    }

    /** The end of write when conn.Write returned nil. */
    method CountWritten(m: Msg)
      requires client.Valid() && i < |client.senders| && client.senders[i].pc.Writing?
      requires client.senders[i].pc.m == m && client.senders[i].noop == noop
      modifies client
      ensures client.Valid() && client.View() == SenderStep(old(client.View()), i, WriteDone(true))
      ensures client.hist == LogWrite(old(client.hist), old(client.senders[i]))
    {
      var s := client.View();
      if noop {
        Drop(m.typ);
      } else {
        client.metrics := client.metrics.(sent := client.metrics.sent + 1);
      }
      WriteEffect(s, i, true);
      SenderFrame(s, i, WriteDone(true));
      client.Commit(s, Snd(i, WriteDone(true)));
    }

    /** The end of write when conn.Write failed. */
    method Fail(m: Msg)
      requires client.Valid() && i < |client.senders| && client.senders[i].pc.Writing?
      requires client.senders[i].pc.m == m && client.senders[i].noop == noop && !noop
      modifies client
      ensures client.Valid() && i < |client.senders| && client.senders[i].noop == noop
      ensures client.senders[i].pc == Returned(false) && client.senders[i].log == old(client.senders[i].log)
      ensures client.senders[i].failures == old(client.senders[i].failures) + 1
      ensures !old(client.senders[i].pc.beat) ==> m in client.sendCh || m in client.hist.lost
    {
      CountError();
      client.Interfere(Loop(i));
      SettleAndReport(m);
    }

    method SettleAndReport(m: Msg)
      requires client.Valid() && i < |client.senders| && client.senders[i].pc.Failed?
      requires client.senders[i].pc.m == m
      modifies client
      ensures client.Valid() && i < |client.senders| && client.senders[i].noop == old(client.senders[i].noop)
      ensures client.senders[i].pc == Returned(false) && client.senders[i].log == old(client.senders[i].log)
      ensures client.senders[i].failures == old(client.senders[i].failures)
      ensures !old(client.senders[i].pc.beat) ==> m in client.sendCh || m in client.hist.lost
    {
      SettleOnly(m);
      client.Interfere(Loop(i));
      Report();
    }

    method SettleOnly(m: Msg)
      requires client.Valid() && i < |client.senders| && client.senders[i].pc.Failed?
      requires client.senders[i].pc.m == m
      modifies client
      ensures client.Valid() && i < |client.senders|
      ensures client.senders[i] == old(client.senders[i]).(pc := Reporting)
      ensures !old(client.senders[i].pc.beat) ==> m in client.sendCh || m in client.hist.lost
    {
      ghost var s := client.View();
      Settle(m);
      SenderFrame(s, i, SenderAct.Settle);
      if !s.senders[i].pc.beat { SettledSomewhere(s, i); }
    }

    method CountError()
      requires client.Valid() && i < |client.senders| && client.senders[i].pc.Writing?
      requires client.senders[i].noop == noop && !noop
      modifies client
      ensures client.Valid() && client.View() == SenderStep(old(client.View()), i, WriteDone(false))
    {
      var s := client.View();
      client.metrics := client.metrics.(errs := client.metrics.errs + 1);
      WriteEffect(s, i, false);
      SenderFrame(s, i, WriteDone(false));
      client.Commit(s, Snd(i, WriteDone(false)));
    }

    /** The counters for a message that is given up. */
    method Drop(typ: MsgType)
      modifies client`metrics
      ensures client.metrics == CountDrop(old(client.metrics), typ)
    {
      if typ == DATA_PLANE || typ == CONTROL_PLANE {
        client.metrics := client.metrics.(dropped := client.metrics.dropped + 1);
      } else if typ == HEARTBEAT {
        client.metrics := client.metrics.(beatDropped := client.metrics.beatDropped + 1);
      } else if typ == DIAGNOSTIC {
        client.metrics := client.metrics.(diagnosticDropped := client.metrics.diagnosticDropped + 1);
      } else {
        client.metrics := client.metrics.(unknown := client.metrics.unknown + 1);
      }
    }

    /** The switch on the type of a message whose write failed. */
    method Settle(m: Msg)
      requires client.Valid() && i < |client.senders| && client.senders[i].pc.Failed?
      requires client.senders[i].pc.m == m
      modifies client
      ensures client.Valid() && client.View() == SenderStep(old(client.View()), i, SenderAct.Settle)
    {
      var s := client.View();
      if (m.typ == DATA_PLANE || m.typ == CONTROL_PLANE) && |client.sendCh| < client.cfg.queueSize {
        client.sendCh := client.sendCh + [m];
        client.metrics := client.metrics.(requeued := client.metrics.requeued + 1);
      } else {
        Drop(m.typ);
      }
      SettleEffect(s, i);
      SenderFrame(s, i, SenderAct.Settle);
      client.Commit(s, Snd(i, SenderAct.Settle));
    }

    method Report()
      requires client.Valid() && i < |client.senders| && client.senders[i].pc.Reporting?
      modifies client
      ensures client.Valid() && client.View() == SenderStep(old(client.View()), i, SenderAct.Report)
    {
      var s := client.View();
      IdleEffect(s, i, SenderAct.Report);
      SenderFrame(s, i, SenderAct.Report);
      client.SendNotify(WriteFault);
      client.Commit(s, Snd(i, SenderAct.Report));
    }

    // --- The loop -----------------------------------------------------------------------------------------

    /** serviceMsg: one message from the send channel, or one heartbeat, or the end. at is the state in which the select
        looks, and took the branch it takes: the one picked if that is ready, any other ready one otherwise. It blocks
        exactly if none is ready. A first message is followed by a heartbeat, which sets the ticker. */
    method ServiceMsg(turn: Turn) returns (r: Service, ghost at: State, ghost took: Branch)
      requires Valid() && client.senders[i].pc.Select?
      modifies client, this
      ensures Relies(Loop(i), old(client.View()), at) && i < |at.senders|
      ensures r.Blocked? <==> forall b: Branch :: !Ready(at, i, b)
      ensures !r.Blocked? ==> Ready(at, i, took) && (Ready(at, i, turn.pick) ==> took == turn.pick)
      ensures r.Served? ==> noop || (turn.first && (took.OnTick? || old(ticker) || turn.second))
      ensures r.Broken? ==> !turn.first || !turn.second
      ensures !r.Blocked? ==> (r.Ended? <==> took.OnDone?)
      ensures r.Served? ==>
                && Valid() && client.senders[i].pc.Top? && ticker
                && client.senders[i].log
                   == old(client.senders[i].log)
                      + (if took.OnTick? then [Beat] else if old(ticker) then [User] else [User, Beat])
                && client.senders[i].failures == old(client.senders[i].failures)
      ensures r.Broken? ==>
                Over(false) && !noop && client.senders[i].failures == old(client.senders[i].failures) + 1
      ensures r.Ended? ==>
                && Over(false) && client.senders[i].cancelled
                && client.senders[i].log == old(client.senders[i].log)
      ensures r.Blocked? ==> Valid() && client.View() == at
    {
      client.Interfere(Loop(i));
      at := client.View();
      var cancelled := client.senders[i].cancelled;
      var branch := Choose(turn.pick, cancelled, client.sendCh != [], ticker);
      if branch.None? {
        took := turn.pick;
        NoneReady(at, i);
        return Blocked, at, took;
      }
      took := branch.value;
      assert Ready(at, i, took);
      r := Serve(branch.value, turn);
    }

    /** The branch the select has taken. */
    method Serve(b: Branch, turn: Turn) returns (r: Service)
      requires Valid() && client.senders[i].pc.Select? && Ready(client.View(), i, b)
      modifies client, this
      ensures !r.Blocked? && (r.Ended? <==> b.OnDone?)
      ensures r.Served? ==> noop || (turn.first && (b.OnTick? || old(ticker) || turn.second))
      ensures r.Broken? ==> !turn.first || !turn.second
      ensures r.Served? ==>
                && Valid() && client.senders[i].pc.Top? && ticker
                && client.senders[i].log
                   == old(client.senders[i].log)
                      + (if b.OnTick? then [Beat] else if old(ticker) then [User] else [User, Beat])
                && client.senders[i].failures == old(client.senders[i].failures)
      ensures r.Broken? ==>
                Over(false) && !noop && client.senders[i].failures == old(client.senders[i].failures) + 1
      ensures r.Ended? ==>
                && Over(false) && client.senders[i].cancelled
                && client.senders[i].log == old(client.senders[i].log)
    {
      match b {
        case OnDone =>
          Step(SenderAct.Quit);
          return Ended;
        case OnMessage =>
          var ok := ServiceUser(turn.first, turn.second);
          return if ok then Served else Broken;
        case OnTick =>
          var ok := ServiceTick(turn.first);
          return if ok then Served else Broken;
      }
    }

    lemma NoneReady(s: State, i: nat)
      requires i < |s.senders| && !s.senders[i].cancelled && s.queue == [] && !s.senders[i].ticker
      ensures forall b: Branch :: !Ready(s, i, b)
    {
    }

    /** The branch of the select for a tick. */
    method ServiceTick(works: bool) returns (ok: bool)
      requires Valid() && client.senders[i].pc.Select? && ticker
      modifies client, this
      ensures ok <==> noop || works
      ensures client.Valid() && i < |client.senders| && client.senders[i].noop == noop && ticker
      ensures ok ==> Valid() && client.senders[i].pc.Top?
      ensures ok ==> client.senders[i].log == old(client.senders[i].log) + [Beat]
      ensures ok ==> client.senders[i].failures == old(client.senders[i].failures)
      ensures !ok ==> Over(false) && !noop && client.senders[i].failures == old(client.senders[i].failures) + 1
    {
      Step(SenderAct.Tick);
      ghost var during;
      ok, during := Write(BEAT, true, works);
    }

    /** The branch of the select for a message on the send channel. */
    method ServiceUser(first: bool, second: bool) returns (ok: bool)
      requires Valid() && client.senders[i].pc.Select? && client.sendCh != []
      modifies client, this
      ensures ok <==> noop || (first && (old(ticker) || second))
      ensures client.Valid() && i < |client.senders| && client.senders[i].noop == noop
      ensures ok ==>
                && Valid() && client.senders[i].pc.Top? && ticker
                && client.senders[i].log
                   == old(client.senders[i].log) + (if old(ticker) then [User] else [User, Beat])
                && client.senders[i].failures == old(client.senders[i].failures)
      ensures !ok ==> Over(false) && !noop && client.senders[i].failures == old(client.senders[i].failures) + 1
    {
      var m := client.sendCh[0];
      Receive();
      ghost var during;
      ok, during := Write(m, false, first);
      if !ok {
        return;
      }
      if !ticker {
        ok, during := Write(BEAT, true, second);
        if !ok {
          return;
        }
        ticker := true;
      }
    }

    /** The receive from the send channel. */
    method Receive()
      requires client.Valid() && i < |client.senders| && client.senders[i].pc.Select? && client.sendCh != []
      modifies client
      ensures client.Valid() && client.View() == SenderStep(old(client.View()), i, SenderAct.Take)
    {
      var s := client.View();
      client.sendCh := client.sendCh[1..];
      TakeEffect(s, i);
      SenderFrame(s, i, SenderAct.Take);
      client.Commit(s, Snd(i, SenderAct.Take));
    }

    /** A step that touches nothing but the sender itself. */
    method Step(a: SenderAct)
      requires client.Valid() && SenderEnabled(client.View(), i, a) && (a.LoopTop? || a.Tick? || a.Quit?)
      modifies client
      ensures client.Valid() && client.View() == SenderStep(old(client.View()), i, a)
    {
      var s := client.View();
      IdleEffect(s, i, a);
      SenderFrame(s, i, a);
      client.Commit(s, Snd(i, a));
    }

    /** sender: serve until the connection breaks or the context is cancelled, for at most as many rounds as there are
        turns. Served means that every round wrote at least one message. A clean end means it was cancelled. */
    method Run(turns: seq<Turn>) returns (r: Service)
      requires Valid() && client.senders[i].pc.Top?
      modifies client, this
      ensures r.Served? ==>
                && Valid() && client.senders[i].pc.Top?
                && |client.senders[i].log| >= |old(client.senders[i].log)| + |turns|
      ensures r.Broken? ==>
                && Over(false) && !noop && client.senders[i].failures == old(client.senders[i].failures) + 1
                && exists k :: 0 <= k < |turns| && !(turns[k].first && turns[k].second)
      ensures r.Ended? ==> (Over(true) || Over(false)) && client.senders[i].cancelled
      ensures r.Blocked? ==>
                && Valid() && client.senders[i].pc.Select?
                && client.sendCh == [] && !ticker && !client.senders[i].cancelled
    {
      for k := 0 to |turns|
        invariant Valid() && client.senders[i].pc.Top?
        invariant client.senders[i].failures == old(client.senders[i].failures)
        invariant |client.senders[i].log| >= |old(client.senders[i].log)| + k
      {
        client.Interfere(Loop(i));
        var cancelled := client.senders[i].cancelled;
        Step(SenderAct.LoopTop);
        if cancelled {
          return Ended;
        }
        ghost var at, took;
        r, at, took := ServiceMsg(turns[k]);
        if !r.Served? {
          if r.Blocked? { AllOf(at, i); }
          return;
        }
      }
      return Served;
    }

    lemma AllOf(s: State, i: nat)
      requires i < |s.senders| && forall b: Branch :: !Ready(s, i, b)
      ensures s.queue == [] && !s.senders[i].ticker && !s.senders[i].cancelled
    {
      assert !Ready(s, i, OnMessage) && !Ready(s, i, OnTick) && !Ready(s, i, OnDone);
    }
  }
}
