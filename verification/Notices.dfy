/** The notification channel of a Client: what is put on it, and a ledger of where every notice went. */
module Notices {

  /** Why no sender could be created. */
  datatype Fault =
    | CreateFault(code: nat, retryable: bool)  // create() returned an error
    | PlatformFault                            // a real connection on a host that is not linux
    | WiringFault                              // newMsgSender rejected its arguments
    | ClosersFault                             // too many CloseSend calls are stuck
  {
    /** Whether the error wraps exponential.ErrPermanent. */
    predicate Permanent() {
      !CreateFault? || !retryable
    }
  }

  datatype Notice =
    | InitialFault(fault: Fault)  // deferred start: the first connection failed
    | AttemptFault(fault: Fault)  // one attempt inside reconnect failed
    | SenderEnded                 // a sender's loop returned an error
    | WriteFault                  // a write failed
    | CloseFault                  // CloseSend failed
    | Dead(fault: Fault)          // the client died of this fault
    | Bug                         // a sender returned without an error

  /** The buffered channel, with the notices that left it or never got in. */
  datatype Notifier = Notifier(
    cap: nat,
    chan: seq<Notice>,
    offered: seq<Notice>,  // handed to sendNotify or sendNotifyDead, once each
    read: seq<Notice>,     // received by the consumer of Notify()
    dropped: seq<Notice>,  // logged as dropped
    evicted: seq<Notice>)  // logged as evicted
  {
    predicate Full() {
      |chan| >= cap
    }

    /** sendNotify: put or drop. */
    function Offer(n: Notice): Notifier {
      if Full() then
        this.(offered := offered + [n], dropped := dropped + [n])
      else
        Land(n)
    }

    /** A successful TryPut of the death notice. */
    function Land(n: Notice): Notifier {
      this.(offered := offered + [n], chan := chan + [n])
    }

    /** The death notice meets a channel without a buffer. */
    function Discard(n: Notice): Notifier {
      this.(offered := offered + [n], dropped := dropped + [n])
    }

    /** TryGet inside sendNotifyDead. */
    function Evict(): Notifier {
      if chan == [] then this
      else this.(chan := chan[1..], evicted := evicted + [chan[0]])
    }

    /** A receive by the consumer of Notify(). */
    function Read(): Notifier {
      if chan == [] then this
      else this.(chan := chan[1..], read := read + [chan[0]])
    }

    /** Every notice offered is in exactly one place, counted with multiplicity. */
    ghost predicate Balanced() {
      && |chan| <= cap
      && multiset(offered) == multiset(read) + multiset(chan) + multiset(dropped) + multiset(evicted)
    }
  }

  function NewNotifier(cap: nat): Notifier {
    Notifier(cap, [], [], [], [], [])
  }

  /** The faults of the death notices in a list, in order. */
  function Deaths(ns: seq<Notice>): seq<Fault> {
    if ns == [] then []
    else Deaths(ns[..|ns| - 1]) + (if ns[|ns| - 1].Dead? then [ns[|ns| - 1].fault] else [])
  }

  /** The faults of the failed attempts in a list, in order. */
  function Attempts(ns: seq<Notice>): seq<Fault> {
    if ns == [] then []
    else Attempts(ns[..|ns| - 1]) + (if ns[|ns| - 1].AttemptFault? then [ns[|ns| - 1].fault] else [])
  }

  lemma {:induction false} DeathsOfPrepend(n: Notice, ns: seq<Notice>)
    ensures Deaths([n] + ns) == (if n.Dead? then [n.fault] else []) + Deaths(ns)
  {
    if ns == [] {
      assert [n] + ns == [n] && [n][..0] == [];
    } else {
      var k := |ns| - 1;
      assert ([n] + ns)[..k + 1] == [n] + ns[..k];
      DeathsOfPrepend(n, ns[..k]);
    }
  }

  lemma DeathsOfAppend(ns: seq<Notice>, n: Notice)
    ensures Deaths(ns + [n]) == Deaths(ns) + (if n.Dead? then [n.fault] else [])
    ensures Attempts(ns + [n]) == Attempts(ns) + (if n.AttemptFault? then [n.fault] else [])
  {
    assert (ns + [n])[..|ns|] == ns;
  }

  /** Taking the head off a list takes its death notice, if it is one, and no other. */
  lemma DeathsOfPop(ns: seq<Notice>)
    requires ns != []
    ensures Deaths(ns) == (if ns[0].Dead? then [ns[0].fault] else []) + Deaths(ns[1..])
  {
    assert ns == [ns[0]] + ns[1..];
    DeathsOfPrepend(ns[0], ns[1..]);
  }

  lemma Regroup<T>(a: seq<T>, b: seq<T>, c: seq<T>)
    ensures a + b + c == a + (b + c)
  {
  }

  lemma LastSplits<T>(q: seq<T>)
    requires q != []
    ensures q[..|q| - 1] + [q[|q| - 1]] == q
  {
  }

  lemma PopSplits<T>(q: seq<T>)
    requires q != []
    ensures multiset(q) == multiset{q[0]} + multiset(q[1..])
  {
    assert q == [q[0]] + q[1..];
  }
}
