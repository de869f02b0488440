/** What goes over the wire in a run of the client: the protocol, and the records of its messages on the heap. */
module Wire {
  import opened Slices
  import opened Protocol
  import opened Frames
  import opened Control
  import opened Ledger
  import opened Delivery
  import opened Marshal
  import Records

  // --- Attempts -------------------------------------------------------------------------------------------

  /** The message that an event ends an attempt to write to a real connection. A no-op connection marshals nothing, and
      a heartbeat has no record. */
  function AttemptOf(s: State, e: Event): Option<nat> {
    match e
    case Snd(i, a) =>
      if i < |s.senders| && a.WriteDone? && s.senders[i].pc.Writing? && !s.senders[i].pc.beat && !s.senders[i].noop
      then Some(s.senders[i].pc.m.id) else None
    case _ => None
  }

  function Succeeds(e: Event): bool {
    e.Snd? && e.step == WriteDone(true)
  }

  function Hits(s: State, e: Event, template: seq<nat>, g: nat): nat {
    var id := AttemptOf(s, e);
    if id.Some? && id.value < |template| && template[id.value] == g then 1 else 0
  }

  /** How many attempts a run made at messages of template g; message number id was built from template[id]. */
  function Tries(cfg: Config, es: seq<Event>, template: seq<nat>, g: nat): nat {
    if es == [] then 0
    else
      var k := |es| - 1;
      match After(Init(cfg), es[..k])
      case None => 0
      case Some(s) => Tries(cfg, es[..k], template, g) + Hits(s, es[k], template, g)
  }

  /** How many of the attempts at message number id failed. */
  function Failed(cfg: Config, es: seq<Event>, id: nat): nat {
    if es == [] then 0
    else
      var k := |es| - 1;
      match After(Init(cfg), es[..k])
      case None => 0
      case Some(s) =>
        Failed(cfg, es[..k], id) + (if AttemptOf(s, es[k]) == Some(id) && !Succeeds(es[k]) then 1 else 0)
  }

  /** What a successful attempt puts on the wire, if e is one after the run es. */
  function Payloads(cfg: Config, es: seq<Event>, s: State, e: Event, was: seq<Records.Record>, template: seq<nat>)
    : seq<Packet>
  {
    var id := AttemptOf(s, e);
    if id.Some? && id.value < |was| == |template| && Succeeds(e) then
      [Packet(s.senders[e.i].pc.m.typ,
              Normalised(ScrubbedAfter(was[id.value], Tries(cfg, es, template, template[id.value]))))]
    else []
  }

  /** What a run writes to real connections, for messages whose records were was: the type of the message, and its
      record normalised from what all earlier attempts at messages of its template have left. */
  function Sent(cfg: Config, es: seq<Event>, was: seq<Records.Record>, template: seq<nat>): seq<Packet> {
    if es == [] then []
    else
      var k := |es| - 1;
      match After(Init(cfg), es[..k])
      case None => []
      case Some(s) =>
        Sent(cfg, es[..k], was, template) + Payloads(cfg, es[..k], s, es[k], was, template)
  }

  // --- On the heap ----------------------------------------------------------------------------------------

  /** Messages of one template were given the same two slices; those of different templates share no array. */
  ghost predicate Layout(ms: seq<Message>, template: seq<nat>) {
    && |ms| == |template|
    && (forall m <- ms :: m.Valid() && UserType(m.typ))
    && forall i, j :: 0 <= i < |ms| && 0 <= j < |ms| ==>
         if template[i] == template[j] then
           ms[i].categories == ms[j].categories && ms[i].levels == ms[j].levels
         else
           ms[i].categories.arr != ms[j].categories.arr && ms[i].levels.arr != ms[j].levels.arr
  }

  /** What the headers of the messages see after ns[i] attempts at the template of message i. */
  ghost predicate Seen(ms: seq<Message>, was: seq<Records.Record>, ns: seq<nat>)
    requires forall m <- ms :: m.Valid()
    reads set m <- ms :: m.categories.arr, set m <- ms :: m.levels.arr
  {
    |ms| == |was| == |ns| && forall i :: 0 <= i < |ms| ==> ms[i].Seen() == ScrubbedAfter(was[i], ns[i])
  }

  ghost function TriesOf(cfg: Config, es: seq<Event>, template: seq<nat>): (ns: seq<nat>)
    ensures |ns| == |template|
  {
    seq(|template|, i requires 0 <= i < |template| => Tries(cfg, es, template, template[i]))
  }

  lemma HeldIsAccepted(s: State, i: nat)
    requires Reachable(s) && i < |s.senders| && s.senders[i].pc.Writing? && !s.senders[i].pc.beat
    ensures s.senders[i].pc.m in s.hist.accepted && s.senders[i].pc.m !in s.hist.written
    ensures var m := s.senders[i].pc.m; m.id < |s.hist.accepted| && s.hist.accepted[m.id] == m
  {
    ReachableLedger(s);
    OnlyLastHolds(s, i);
    var m := s.senders[i].pc.m;
    EachMessageInOnePlace(s, m);
    assert Held(s.senders[i]) == [m] && multiset(InFlight(s.senders))[m] == 1;
  }

  lemma AttemptIsAccepted(s: State, e: Event)
    requires Reachable(s) && AttemptOf(s, e).Some?
    ensures AttemptOf(s, e).value < |s.hist.accepted|
    ensures s.hist.accepted[AttemptOf(s, e).value] == s.senders[e.i].pc.m
    ensures s.hist.accepted[AttemptOf(s, e).value] !in s.hist.written
  {
    HeldIsAccepted(s, e.i);
  }

  /** One attempt on the heap: every header of the template sees its list scrubbed once more, and no other does. */
  method Attempt(ms: seq<Message>, template: seq<nat>, id: nat) returns (sent: Packet)
    requires Layout(ms, template) && id < |ms|
    modifies set m <- ms :: m.categories.arr, set m <- ms :: m.levels.arr
    ensures sent == Packet(ms[id].typ, Normalised(old(ms[id].Seen())))
    ensures forall i :: 0 <= i < |ms| ==>
              ms[i].Seen() == if template[i] == template[id] then Scrubbed(old(ms[i].Seen())) else old(ms[i].Seen())
  {
    assert ms[id] in ms;
    var r := MarshalPrep(ms[id]);
    sent := Packet(r.msg.typ, r.msg.Seen());
    forall i | 0 <= i < |ms|
      ensures ms[i].Seen() == if template[i] == template[id] then Scrubbed(old(ms[i].Seen())) else old(ms[i].Seen())
    {
      assert ms[i] in ms;
      if template[i] == template[id] {
        assert ms[id].Seen().operationCategories == ms[i].categories.Value();
        assert ms[id].Seen().callerAccessLevels == ms[i].levels.Value();
      }
    }
  }

  /** The numbers after one attempt more at message number id. */
  ghost function TriedOnceMore(ns: seq<nat>, template: seq<nat>, id: nat): (r: seq<nat>)
    requires |ns| == |template| && id < |template|
    ensures |r| == |ns|
  {
    seq(|ns|, i requires 0 <= i < |ns| => if template[i] == template[id] then ns[i] + 1 else ns[i])
  }

  method AttemptSeen(ms: seq<Message>, template: seq<nat>, id: nat, ghost was: seq<Records.Record>, ghost ns: seq<nat>)
      returns (sent: Packet)
    requires Layout(ms, template) && Seen(ms, was, ns) && id < |ms|
    modifies set m <- ms :: m.categories.arr, set m <- ms :: m.levels.arr
    ensures sent == Packet(ms[id].typ, Normalised(ScrubbedAfter(was[id], ns[id])))
    ensures Seen(ms, was, TriedOnceMore(ns, template, id))
  {
    sent := Attempt(ms, template, id);
    forall i | 0 <= i < |ms|
      ensures ms[i].Seen() == ScrubbedAfter(was[i], TriedOnceMore(ns, template, id)[i])
    {
      ScrubbedNext(was[i], ns[i]);
    }
  }

  // --- Along a run ----------------------------------------------------------------------------------------

  lemma SentNext(cfg: Config, es: seq<Event>, s: State, e: Event, was: seq<Records.Record>, template: seq<nat>)
    requires After(Init(cfg), es) == Some(s)
    ensures Sent(cfg, es + [e], was, template)
            == Sent(cfg, es, was, template) + Payloads(cfg, es, s, e, was, template)
  {
    assert (es + [e])[..|es|] == es;
  }

  lemma TriesNext(cfg: Config, es: seq<Event>, s: State, e: Event, template: seq<nat>, g: nat)
    requires After(Init(cfg), es) == Some(s)
    ensures Tries(cfg, es + [e], template, g) == Tries(cfg, es, template, g) + Hits(s, e, template, g)
  {
    assert (es + [e])[..|es|] == es;
  }

  lemma TriesOfNext(cfg: Config, es: seq<Event>, s: State, e: Event, template: seq<nat>)
    requires After(Init(cfg), es) == Some(s)
    ensures TriesOf(cfg, es + [e], template) == TriedNext(TriesOf(cfg, es, template), s, e, template)
  {
    forall i | 0 <= i < |template|
      ensures TriesOf(cfg, es + [e], template)[i] == TriedNext(TriesOf(cfg, es, template), s, e, template)[i]
    {
      TriesNext(cfg, es, s, e, template, template[i]);
    }
  }

  ghost function TriedNext(ns: seq<nat>, s: State, e: Event, template: seq<nat>): (r: seq<nat>)
    requires |ns| == |template|
    ensures |r| == |ns|
  {
    var id := AttemptOf(s, e);
    if id.Some? && id.value < |template| then TriedOnceMore(ns, template, id.value) else ns
  }

  /** One event of a run, with its effect on the heap. */
  method Perform(cfg: Config, ghost es: seq<Event>, s: State, e: Event, ms: seq<Message>, template: seq<nat>,
                 ghost was: seq<Records.Record>)
      returns (more: seq<Packet>)
    requires Layout(ms, template) && Seen(ms, was, TriesOf(cfg, es, template)) && After(Init(cfg), es) == Some(s)
    requires AttemptOf(s, e).Some? ==>
               AttemptOf(s, e).value < |ms| && ms[AttemptOf(s, e).value].typ == s.senders[e.i].pc.m.typ
    modifies set m <- ms :: m.categories.arr, set m <- ms :: m.levels.arr
    ensures Seen(ms, was, TriesOf(cfg, es + [e], template))
    ensures more == Payloads(cfg, es, s, e, was, template)
  {
    TriesOfNext(cfg, es, s, e, template);
    more := [];
    var id := AttemptOf(s, e);
    if id.Some? {
      var sent := AttemptSeen(ms, template, id.value, was, TriesOf(cfg, es, template));
      if Succeeds(e) {
        more := [sent];
      }
    }
  }

  lemma {:induction false} PrefixRuns(s: State, es: seq<Event>, i: nat)
    requires After(s, es).Some? && i < |es|
    ensures After(s, es[..i]).Some? && Enabled(After(s, es[..i]).value, es[i])
    ensures After(s, es[..i + 1]) == Some(Next(After(s, es[..i]).value, es[i]))
  {
    var k := |es| - 1;
    if i < k {
      PrefixRuns(s, es[..k], i);
      assert es[..k][..i] == es[..i] && es[..k][..i + 1] == es[..i + 1];
    } else {
      assert es[..i + 1] == es;
    }
  }

  /** What was accepted by then is accepted at the end of the run. */
  lemma PrefixAccepts(s: State, es: seq<Event>, i: nat)
    requires After(s, es).Some? && i <= |es| && After(s, es[..i]).Some?
    ensures After(s, es[..i]).value.hist.accepted <= After(s, es).value.hist.accepted
  {
    assert es[..i] + es[i..] == es;
    AfterConcat(s, es[..i], es[i..]);
    RunGrows(After(s, es[..i]).value, es[i..]);
  }

  lemma AttemptInRange(cfg: Config, es: seq<Event>, i: nat)
    requires cfg.Valid() && After(Init(cfg), es).Some? && i < |es| && After(Init(cfg), es[..i]).Some?
    ensures var s := After(Init(cfg), es[..i]).value;
      var accepted := After(Init(cfg), es).value.hist.accepted;
      AttemptOf(s, es[i]).Some? ==>
        var id := AttemptOf(s, es[i]).value;
        id < |accepted| && accepted[id] == s.senders[es[i].i].pc.m
  {
    var s := After(Init(cfg), es[..i]).value;
    ControlHolds(cfg, es[..i]);
    PrefixAccepts(Init(cfg), es, i);
    if AttemptOf(s, es[i]).Some? { AttemptIsAccepted(s, es[i]); }
  }

  lemma NextEvent(cfg: Config, es: seq<Event>, i: nat, s: State, was: seq<Records.Record>, template: seq<nat>)
    requires cfg.Valid() && After(Init(cfg), es).Some? && i < |es| && After(Init(cfg), es[..i]) == Some(s)
    ensures Enabled(s, es[i]) && After(Init(cfg), es[..i + 1]) == Some(Next(s, es[i]))
    ensures var accepted := After(Init(cfg), es).value.hist.accepted;
      AttemptOf(s, es[i]).Some? ==>
        var id := AttemptOf(s, es[i]).value;
        id < |accepted| && accepted[id] == s.senders[es[i].i].pc.m
    ensures es[..i] + [es[i]] == es[..i + 1]
    ensures Sent(cfg, es[..i + 1], was, template)
            == Sent(cfg, es[..i], was, template) + Payloads(cfg, es[..i], s, es[i], was, template)
  {
    PrefixRuns(Init(cfg), es, i);
    AttemptInRange(cfg, es, i);
    SentNext(cfg, es[..i], s, es[i], was, template);
    assert es[..i] + [es[i]] == es[..i + 1];
  }

  /** Message number id is the one accepted under that number. */
  ghost predicate GivenTo(ms: seq<Message>, accepted: seq<Msg>) {
    |accepted| <= |ms| && forall id :: 0 <= id < |accepted| ==> ms[id].typ == accepted[id].typ
  }

  /** Any run of a client, with the messages it accepted on the heap: every attempt to write one to a real connection
      marshals it in place. What is written is what Sent says. */
  method Transmit(cfg: Config, es: seq<Event>, ms: seq<Message>, template: seq<nat>, ghost was: seq<Records.Record>)
      returns (wire: seq<Packet>)
    requires cfg.Valid() && After(Init(cfg), es).Some? && GivenTo(ms, After(Init(cfg), es).value.hist.accepted)
    requires Layout(ms, template) && |was| == |ms| && forall i :: 0 <= i < |ms| ==> was[i] == ms[i].Seen()
    modifies set m <- ms :: m.categories.arr, set m <- ms :: m.levels.arr
    ensures wire == Sent(cfg, es, was, template)
    ensures Seen(ms, was, TriesOf(cfg, es, template))
  {
    wire := [];
    var s := Init(cfg);
    assert es[..0] == [];
    for i := 0 to |es|
      invariant After(Init(cfg), es[..i]) == Some(s) && wire == Sent(cfg, es[..i], was, template)
      invariant Seen(ms, was, TriesOf(cfg, es[..i], template))
    {
      NextEvent(cfg, es, i, s, was, template);
      var more := Perform(cfg, es[..i], s, es[i], ms, template, was);
      wire := wire + more;
      s := Next(s, es[i]);
    }
    assert es[..|es|] == es;
  }

  // --- Messages with arrays of their own ------------------------------------------------------------------

  /** No two messages were built from one template. */
  ghost predicate Apart(template: seq<nat>) {
    forall i, j :: 0 <= i < j < |template| ==> template[i] != template[j]
  }

  /** Whether the message number id is among those written. */
  predicate Written(s: State, id: nat) {
    exists m <- s.hist.written :: m.id == id
  }

  function NewlyWritten(s: State, e: Event): seq<Msg> {
    if AttemptOf(s, e).Some? && Succeeds(e) then [s.senders[e.i].pc.m] else []
  }

  /** A run's step is an attempt at message number id and fails, or succeeds, or writes no message of that number. */
  lemma WrittenNext(s: State, e: Event, id: nat)
    requires Reachable(s) && Enabled(s, e)
    ensures Written(Next(s, e), id) <==> Written(s, id) || (AttemptOf(s, e) == Some(id) && Succeeds(e))
    ensures AttemptOf(s, e) == Some(id) ==> !Written(s, id)
  {
    WrittenGrows(s, e);
    if AttemptOf(s, e) == Some(id) { NotYetWritten(s, e.i); }
  }

  lemma WrittenGrows(s: State, e: Event)
    requires Enabled(s, e)
    ensures Next(s, e).hist.written == s.hist.written + NewlyWritten(s, e)
  {
    match e
    case Snd(i, a) => SenderWrites(s, i, a);
    case Mgr(a) => ManagerFrame(s, a);
    case _ => OutsiderFrame(s, e);
  }

  lemma SenderWrites(s: State, i: nat, a: SenderAct)
    requires SenderEnabled(s, i, a)
    ensures SenderStep(s, i, a).hist.written == s.hist.written + NewlyWritten(s, Snd(i, a))
  {
    match a
    case Take => TakeEffect(s, i);
    case WriteDone(ok) => WriteEffect(s, i, ok);
    case Settle => SettleEffect(s, i);
    case _ => IdleEffect(s, i, a);
  }

  lemma NotYetWritten(s: State, i: nat)
    requires Reachable(s) && i < |s.senders| && s.senders[i].pc.Writing? && !s.senders[i].pc.beat
    ensures !Written(s, s.senders[i].pc.m.id)
  {
    HeldIsAccepted(s, i);
    var m := s.senders[i].pc.m;
    ReachableLedger(s);
    forall w <- s.hist.written ensures w.id != m.id {
      EachMessageInOnePlace(s, w);
      assert multiset(s.hist.written)[w] >= 1;
    }
  }

  /** The attempts at a message that shares nothing are its failed writes and at most one more, which succeeded. */
  lemma {:induction false} TriesAreOwn(cfg: Config, es: seq<Event>, template: seq<nat>, id: nat)
    requires cfg.Valid() && After(Init(cfg), es).Some? && Apart(template) && id < |template|
    ensures Tries(cfg, es, template, template[id])
            == Failed(cfg, es, id) + (if Written(After(Init(cfg), es).value, id) then 1 else 0)
  {
    if es != [] {
      var k := |es| - 1;
      var s := After(Init(cfg), es[..k]).value;
      TriesAreOwn(cfg, es[..k], template, id);
      ControlHolds(cfg, es[..k]);
      WrittenNext(s, es[k], id);
      OwnHits(s, es[k], template, id);
    }
  }

  lemma OwnHits(s: State, e: Event, template: seq<nat>, id: nat)
    requires Apart(template) && id < |template|
    ensures Hits(s, e, template, template[id]) == if AttemptOf(s, e) == Some(id) then 1 else 0
  {
  }

  /** sent is what was written for the messages of this list, each after its own failed writes in the run es. */
  ghost predicate SentFor(cfg: Config, es: seq<Event>, was: seq<Records.Record>, written: seq<Msg>,
                          sent: seq<Packet>)
  {
    |sent| == |written| && forall j :: 0 <= j < |written| ==> SentOnce(cfg, es, was, written[j], sent[j])
  }

  ghost predicate SentOnce(cfg: Config, es: seq<Event>, was: seq<Records.Record>, m: Msg, sent: Packet) {
    m.id < |was| && sent == Packet(m.typ, Normalised(ScrubbedAfter(was[m.id], Failed(cfg, es, m.id))))
  }

  lemma FailedNext(cfg: Config, es: seq<Event>, s: State, e: Event, id: nat)
    requires After(Init(cfg), es) == Some(s)
    ensures Failed(cfg, es + [e], id)
            == Failed(cfg, es, id) + (if AttemptOf(s, e) == Some(id) && !Succeeds(e) then 1 else 0)
  {
    assert (es + [e])[..|es|] == es;
  }

  /** What was sent before stays accounted for: a message that is written is not written again. */
  lemma SentStays(cfg: Config, es: seq<Event>, s: State, e: Event, was: seq<Records.Record>, sent: seq<Packet>)
    requires After(Init(cfg), es) == Some(s) && Reachable(s) && Enabled(s, e)
    requires SentFor(cfg, es, was, s.hist.written, sent)
    ensures SentFor(cfg, es + [e], was, s.hist.written, sent)
  {
    forall j | 0 <= j < |s.hist.written|
      ensures SentOnce(cfg, es + [e], was, s.hist.written[j], sent[j])
    {
      var id := s.hist.written[j].id;
      assert s.hist.written[j] in s.hist.written;
      WrittenNext(s, e, id);
      FailedNext(cfg, es, s, e, id);
      assert SentOnce(cfg, es, was, s.hist.written[j], sent[j]);
    }
  }

  lemma NewlySent(cfg: Config, es: seq<Event>, s: State, e: Event, was: seq<Records.Record>, template: seq<nat>)
    requires cfg.Valid() && After(Init(cfg), es) == Some(s) && Reachable(s) && Enabled(s, e)
    requires Apart(template) && |was| == |template| && |s.hist.accepted| <= |was|
    ensures SentFor(cfg, es + [e], was, NewlyWritten(s, e), Payloads(cfg, es, s, e, was, template))
  {
    if AttemptOf(s, e).Some? && Succeeds(e) {
      var id := AttemptOf(s, e).value;
      AttemptIsAccepted(s, e);
      WrittenNext(s, e, id);
      TriesAreOwn(cfg, es, template, id);
      FailedNext(cfg, es, s, e, id);
    }
  }

  lemma SentForBoth(cfg: Config, es: seq<Event>, was: seq<Records.Record>, a: seq<Msg>, p: seq<Packet>,
                    b: seq<Msg>, q: seq<Packet>)
    requires SentFor(cfg, es, was, a, p) && SentFor(cfg, es, was, b, q)
    ensures SentFor(cfg, es, was, a + b, p + q)
  {
    forall j | 0 <= j < |a + b| ensures SentOnce(cfg, es, was, (a + b)[j], (p + q)[j]) {
      if j >= |a| { assert SentOnce(cfg, es, was, b[j - |a|], q[j - |a|]); }
    }
  }

  /** Messages that share no arrays, in any run: for every message written to a real connection, the record on the wire
      is what its arrays hold after its own failed writes, normalised; the order is that of the writes. */
  lemma {:induction false} OwnRecordsSent(cfg: Config, es: seq<Event>, was: seq<Records.Record>, template: seq<nat>)
    requires cfg.Valid() && After(Init(cfg), es).Some? && Apart(template) && |was| == |template|
    requires |After(Init(cfg), es).value.hist.accepted| <= |was|
    ensures SentFor(cfg, es, was, After(Init(cfg), es).value.hist.written, Sent(cfg, es, was, template))
  {
    if es != [] {
      var k := |es| - 1;
      var s := After(Init(cfg), es[..k]).value;
      PrefixAccepts(Init(cfg), es, k);
      OwnRecordsSent(cfg, es[..k], was, template);
      assert es == es[..k] + [es[k]];
      OneMoreRecord(cfg, es[..k], s, es[k], was, template);
    }
  }

  lemma OneMoreRecord(cfg: Config, es: seq<Event>, s: State, e: Event, was: seq<Records.Record>, template: seq<nat>)
    requires cfg.Valid() && After(Init(cfg), es) == Some(s) && Enabled(s, e)
    requires Apart(template) && |was| == |template| && |s.hist.accepted| <= |was|
    requires SentFor(cfg, es, was, s.hist.written, Sent(cfg, es, was, template))
    ensures SentFor(cfg, es + [e], was, Next(s, e).hist.written, Sent(cfg, es + [e], was, template))
  {
    ControlHolds(cfg, es);
    var sent := Sent(cfg, es, was, template);
    SentStays(cfg, es, s, e, was, sent);
    NewlySent(cfg, es, s, e, was, template);
    SentForBoth(cfg, es + [e], was, s.hist.written, sent, NewlyWritten(s, e),
                Payloads(cfg, es, s, e, was, template));
    SentNext(cfg, es, s, e, was, template);
    WrittenGrows(s, e);
  }

  /** The sent record is the validated one, normalised, exactly if no write failed or there are no duplicates (0 among
      the categories apart). */
  ghost predicate Faithful(a: Records.Record, failed: nat, sent: Records.Record) {
    sent == Normalised(a)
    <==> failed == 0 || ((NoDuplicates(a.operationCategories) || 0 in a.operationCategories)
                         && NoDuplicates(a.callerAccessLevels))
  }

  lemma FaithfulAfter(a: Records.Record, n: nat)
    requires Records.IsValid(a)
    ensures Faithful(a, n, Normalised(ScrubbedAfter(a, n)))
  {
    if n == 0 {
      assert ScrubbedAfter(a, 0) == a;
    } else {
      RetrySendsTheSame(a, n);
    }
  }

  /** So for every message written in any run, if its record was valid and shared no array with another message: what is
      on the wire is that record, normalised, exactly if none of its writes failed or it has no duplicates. */
  lemma SentAsValidated(cfg: Config, es: seq<Event>, was: seq<Records.Record>, template: seq<nat>, t: State, j: nat)
    requires cfg.Valid() && After(Init(cfg), es) == Some(t) && Apart(template) && |was| == |template|
    requires |t.hist.accepted| <= |was| && j < |t.hist.written|
    ensures j < |Sent(cfg, es, was, template)| && t.hist.written[j].id < |was|
    ensures var id := t.hist.written[j].id;
      && Sent(cfg, es, was, template)[j].typ == t.hist.written[j].typ
      && (Records.IsValid(was[id]) ==>
            Faithful(was[id], Failed(cfg, es, id), Sent(cfg, es, was, template)[j].record))
  {
    OwnRecordsSent(cfg, es, was, template);
    var id := t.hist.written[j].id;
    assert SentOnce(cfg, es, was, t.hist.written[j], Sent(cfg, es, was, template)[j]);
    if Records.IsValid(was[id]) { FaithfulAfter(was[id], Failed(cfg, es, id)); }
  }
}
