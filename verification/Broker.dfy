/** The approval rendezvous between a waiting run and an outside decision (agent/approval.go). */
module Broker {
  import opened Types

  /** What a waiter ends up with. */
  datatype Verdict = Decided(approved: bool) | RunEnded

  datatype Refusal = RunNotFound | DuplicateCall | NotPending

  /** One decision channel of capacity one. Sending on a closed channel or closing it again would
      panic, and a second send would block, so both demand an untouched channel. `callId` and `run`
      name the waiter it was made for. */
  class Decision {
    const run: string
    const callId: string
    var verdict: Option<Verdict>

    constructor (run: string, callId: string)
      ensures this.run == run && this.callId == callId && verdict == None
    {
      this.run, this.callId, verdict := run, callId, None;
    }

    method Send(approved: bool)
      requires verdict == None
      modifies this
      ensures verdict == Some(Decided(approved))
    {
      verdict := Some(Decided(approved));
    }

    method Close()
      requires verdict == None
      modifies this
      ensures verdict == Some(RunEnded)
    {
      verdict := Some(RunEnded);
    }
  }

  /** Each method is one critical section, or the single channel operation that follows it outside the
      lock. Between the two the channel belongs to whoever took it out: `promised` holds the channels a
      Resolve will send on with the decision it carries, `dropped` those an End will close, `abandoned`
      those whose waiter left. Any interleaving of the methods is a run of the broker. */
  class Broker {
    var runs: map<string, map<string, Decision>>
    ghost var promised: map<Decision, bool>
    ghost var dropped: set<Decision>
    ghost var abandoned: set<Decision>
    ghost var all: set<Decision>

    ghost predicate Pending(d: Decision)
      reads this
    {
      d.run in runs && d.callId in runs[d.run] && runs[d.run][d.callId] == d
    }

    ghost predicate Valid()
      reads this, all
    {
      && (forall r, c :: r in runs && c in runs[r] ==>
            runs[r][c] in all && runs[r][c].run == r && runs[r][c].callId == c)
      && promised.Keys <= all && dropped <= all && abandoned <= all
      && promised.Keys !! dropped && promised.Keys !! abandoned && dropped !! abandoned
      && (forall d :: d in all ==>
            && (Pending(d) ==> d !in promised && d !in dropped && d !in abandoned)
            && (d.verdict == None <==> Pending(d) || d in promised || d in dropped || d in abandoned))
    }

    constructor ()
      ensures Valid() && runs == map[] && all == {}
    {
      runs, promised, dropped, abandoned, all := map[], map[], {}, {}, {};
    }

    /** Begin and Bind: make sure the run is known; Begin draws an id that is not. */
    method Bind(run: string)
      requires Valid()
      modifies this`runs
      ensures Valid()
      ensures runs == if run in old(runs) then old(runs) else old(runs)[run := map[]]
    {
      if run !in runs { runs := runs[run := map[]]; }
    }

    /** The first section of waitReady: register a fresh channel. */
    method Register(run: string, callId: string) returns (d: Decision?, refused: Option<Refusal>)
      requires Valid()
      modifies this`runs, this`all
      ensures Valid()
      ensures refused == if run !in old(runs) then Some(RunNotFound)
                         else if callId in old(runs)[run] then Some(DuplicateCall) else None
      ensures refused.Some? ==> d == null && runs == old(runs) && all == old(all)
      ensures refused.None? ==>
                && d != null && fresh(d) && d.run == run && d.callId == callId && d.verdict == None
                && runs == old(runs)[run := old(runs)[run][callId := d]] && all == old(all) + {d}
    {
      if run !in runs { return null, Some(RunNotFound); }
      if callId in runs[run] { return null, Some(DuplicateCall); }
      d := new Decision(run, callId);
      runs := runs[run := runs[run][callId := d]];
      all := all + {d};
      refused := None;
    }

    /** The deferred section of waitReady: a waiter removes its own channel, never a later one's. */
    method Unregister(d: Decision)
      requires Valid() && d in all
      modifies this`runs, this`abandoned
      ensures Valid() && !Pending(d)
      ensures forall e :: e in all && e != d ==> Pending(e) == old(Pending(e))
      ensures abandoned == old(abandoned) + if old(Pending(d)) then {d} else {}
    {
      if d.run in runs && d.callId in runs[d.run] && runs[d.run][d.callId] == d {
        abandoned := abandoned + {d};
        runs := runs[d.run := runs[d.run] - {d.callId}];
      }
    }

    /** The locked part of Resolve: take the registered channel out, for this decision. */
    method TakeForDecision(run: string, callId: string, approved: bool) returns (d: Decision?, refused: Option<Refusal>)
      requires Valid()
      modifies this`runs, this`promised
      ensures Valid()
      ensures refused == if run !in old(runs) then Some(RunNotFound)
                         else if callId !in old(runs)[run] then Some(NotPending) else None
      ensures refused.Some? ==> d == null && runs == old(runs) && promised == old(promised)
      ensures refused.None? ==>
                && d != null && d == old(runs)[run][callId] && d in all && d.verdict == None
                && promised == old(promised)[d := approved] && !Pending(d)
                && forall e :: e in all && e != d ==> Pending(e) == old(Pending(e))
    {
      if run !in runs { return null, Some(RunNotFound); }
      if callId !in runs[run] { return null, Some(NotPending); }
      d := runs[run][callId];
      promised := promised[d := approved];
      runs := runs[run := runs[run] - {callId}];
      refused := None;
    }

    /** The send of Resolve: it neither blocks nor meets a closed channel. */
    method SendDecision(d: Decision, approved: bool)
      requires Valid() && d in promised && promised[d] == approved
      modifies this`promised, d
      ensures Valid() && d.verdict == Some(Decided(approved)) && promised == old(promised) - {d}
    {
      d.Send(approved);
      promised := promised - {d};
    }

    /** The locked part of End: the run disappears with all its waiters. */
    method TakeAll(run: string) returns (taken: set<Decision>)
      requires Valid()
      modifies this`runs, this`dropped
      ensures Valid() && run !in runs && runs == old(runs) - {run}
      ensures taken == (set c | run in old(runs) && c in old(runs)[run] :: old(runs)[run][c])
      ensures dropped == old(dropped) + taken
      ensures forall d :: d in all && d.run == run ==>
                !Pending(d) && (d.verdict.Some? || d in promised || d in dropped || d in abandoned)
    {
      taken := if run in runs then set c | c in runs[run] :: runs[run][c] else {};
      dropped := dropped + taken;
      runs := runs - {run};
    }

    /** One close of End. */
    method CloseDropped(d: Decision)
      requires Valid() && d in dropped
      modifies this`dropped, d
      ensures Valid() && d.verdict == Some(RunEnded) && dropped == old(dropped) - {d}
    {
      d.Close();
      dropped := dropped - {d};
    }
  }
}
