/** Subscription channels (runtime/runtime.go: Subscribe, unsubscribe, broadcast, end of run). */
module Subscriptions {
  import opened Types

  const CAPACITY := 256

  /** A bounded Go channel. Sending to or closing a closed channel would panic, so both require it open.
      `offered` is everything broadcast while the channel was registered, `kept` the positions of what
      the buffer had room for, `received` what the consumer has taken. */
  class Channel {
    var buffer: seq<Event>
    var closed: bool
    ghost var offered: seq<Event>
    ghost var kept: seq<nat>
    ghost var received: seq<Event>

    /** What the consumer got, and will get from the buffer, is a subsequence of what was offered. */
    ghost predicate Valid()
      reads this
    {
      && |buffer| <= CAPACITY
      && |kept| == |received + buffer|
      && (forall i :: 0 <= i < |kept| ==> kept[i] < |offered| && (received + buffer)[i] == offered[kept[i]])
      && (forall i, j :: 0 <= i < j < |kept| ==> kept[i] < kept[j])
    }

    constructor ()
      ensures Valid() && !closed && buffer == [] && offered == [] && received == []
    {
      buffer, closed, offered, kept, received := [], false, [], [], [];
    }

    method TrySend(e: Event)
      requires Valid() && !closed
      modifies this
      ensures Valid() && !closed && offered == old(offered) + [e] && received == old(received)
      ensures buffer == old(buffer) + if |old(buffer)| < CAPACITY then [e] else []
    {
      if |buffer| < CAPACITY {
        kept := kept + [|offered|];
        buffer := buffer + [e];
        assert received + buffer == old(received + buffer) + [e];
      }
      offered := offered + [e];
    }

    /** A receive: an event, or the news that the channel is closed and empty, or nothing yet. */
    method Receive() returns (e: Option<Event>, open: bool)
      requires Valid()
      modifies this
      ensures Valid() && closed == old(closed) && offered == old(offered)
      ensures if old(buffer) != [] then e == Some(old(buffer)[0]) && open && buffer == old(buffer)[1..]
                                        && received == old(received) + [old(buffer)[0]]
              else e == None && open == !closed && buffer == [] && received == old(received)
    {
      if buffer != [] {
        e, open := Some(buffer[0]), true;
        assert received + [buffer[0]] + buffer[1..] == received + buffer;
        received := received + [buffer[0]];
        buffer := buffer[1..];
      } else {
        e, open := None, !closed;
      }
    }

    method Close()
      requires Valid() && !closed
      modifies this`closed
      ensures closed && Valid()
    {
      closed := true;
    }
  }

  /** The table of subscriptions, read backwards. */
  ghost predicate Owned(subs: map<string, set<Channel>>, owner: map<Channel, string>) {
    && (forall run :: run in subs ==> subs[run] != {})
    && (forall run, ch :: run in subs && ch in subs[run] ==> ch in owner && owner[ch] == run)
    && (forall ch :: ch in owner ==> owner[ch] in subs && ch in subs[owner[ch]])
  }

  ghost function Without(owner: map<Channel, string>, run: string): map<Channel, string> {
    map ch | ch in owner && owner[ch] != run :: owner[ch]
  }

  lemma OwnedWithout(subs: map<string, set<Channel>>, owner: map<Channel, string>, run: string)
    requires Owned(subs, owner)
    ensures Owned(subs - {run}, Without(owner, run))
    ensures Without(owner, run).Keys == owner.Keys - if run in subs then subs[run] else {}
  {}

  /** The registry. Each method is one critical section; a channel taken out of the registry is closed
      afterwards, outside the lock, by whoever took it out: until then it is in `closing`. */
  class Registry {
    var subs: map<string, set<Channel>>
    ghost var closing: set<Channel>
    ghost var all: set<Channel>

    ghost var owner: map<Channel, string>

    ghost predicate Valid()
      reads this, all
    {
      && Owned(subs, owner)
      && owner.Keys <= all && closing <= all && owner.Keys !! closing
      && (forall ch :: ch in all ==> ch.Valid() && (ch.closed <==> ch !in owner && ch !in closing))
    }

    function Of(run: string): set<Channel>
      reads this
    {
      if run in subs then subs[run] else {}
    }

    constructor ()
      ensures Valid() && subs == map[] && closing == {} && all == {}
    {
      subs, closing, all, owner := map[], {}, {}, map[];
    }

    method Subscribe(run: string) returns (ch: Channel)
      requires Valid()
      modifies this
      ensures Valid() && fresh(ch) && all == old(all) + {ch} && closing == old(closing)
      ensures subs == old(subs)[run := old(Of(run)) + {ch}]
      ensures ch.buffer == [] && ch.received == [] && !ch.closed
    {
      ch := new Channel();
      subs := subs[run := Of(run) + {ch}];
      all, owner := all + {ch}, owner[ch := run];
    }

    /** The locked part of unsubscribe: it takes the channel out only if it is still registered. */
    method TakeOut(run: string, ch: Channel) returns (mine: bool)
      requires Valid()
      modifies this
      ensures Valid() && all == old(all) && mine == (ch in old(Of(run)))
      ensures closing == old(closing) + if mine then {ch} else {}
      ensures forall r :: Of(r) == old(Of(r)) - if mine && r == run then {ch} else {}
    {
      mine := ch in Of(run);
      if mine {
        var rest := subs[run] - {ch};
        subs := if rest == {} then subs - {run} else subs[run := rest];
        closing, owner := closing + {ch}, owner - {ch};
      }
    }

    /** The locked part of the end of a run: every channel still registered is taken out. */
    method TakeOutAll(run: string) returns (taken: set<Channel>)
      requires Valid()
      modifies this
      ensures Valid() && all == old(all) && taken == old(Of(run)) && closing == old(closing) + taken
      ensures subs == old(subs) - {run}
    {
      taken := Of(run);
      OwnedWithout(subs, owner, run);
      closing, owner := closing + taken, Without(owner, run);
      subs := subs - {run};
    }

    /** The close after a take-out; it is always the first one and no send can follow it. */
    method CloseTaken(ch: Channel)
      requires Valid() && ch in closing
      modifies this`closing, ch`closed
      ensures Valid() && all == old(all) && closing == old(closing) - {ch} && ch.closed
    {
      ch.Close();
      closing := closing - {ch};
      assert forall c :: c in all && c != ch ==> c.closed == old(c.closed) && c.Valid();
    }

    twostate predicate Offered(ch: Channel, e: Event)
      reads ch
    {
      && ch.offered == old(ch.offered) + [e]
      && ch.buffer == old(ch.buffer) + (if |old(ch.buffer)| < CAPACITY then [e] else [])
    }

    method Broadcast(run: string, e: Event)
      requires Valid()
      modifies Of(run)
      ensures Valid()
      ensures forall ch :: ch in Of(run) ==> Offered(ch, e)
    {
      var todo := Of(run);
      while todo != {}
        invariant todo <= Of(run)
        invariant forall ch :: ch in all ==> ch.Valid() && ch.closed == old(ch.closed)
        invariant forall ch :: ch in todo ==> ch.offered == old(ch.offered) && ch.buffer == old(ch.buffer)
        invariant forall ch :: ch in Of(run) - todo ==> Offered(ch, e)
        decreases todo
      {
        var ch :| ch in todo;
        ch.TrySend(e);
        todo := todo - {ch};
      }
    }
  }
}
