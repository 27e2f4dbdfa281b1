/** The table of managed runs and its bounded cache of finished ones (client.go). */
module ClientTable {
  import opened Types

  /** One execution attempt. `completed` is its place in the order of completion, 0 while it runs. */
  class RunState {
    const run: string
    var completed: nat
    var done: bool

    constructor (run: string)
      ensures this.run == run && completed == 0 && !done
    {
      this.run, completed, done := run, 0, false;
    }
  }

  /** For every cached run its place in the order of completion, 0 while unfinished. */
  type Places = map<string, nat>

  function Finished(places: Places): set<string> {
    set run | run in places && places[run] != 0
  }

  ghost predicate Distinct(places: Places) {
    forall a, b :: a in Finished(places) && b in Finished(places) && a != b ==> places[a] != places[b]
  }

  ghost predicate First(places: Places, oldest: string) {
    oldest in Finished(places) && forall run :: run in Finished(places) ==> places[oldest] <= places[run]
  }

  /** Pruning took out finished runs only, and each completed before every finished run that was kept. */
  ghost predicate Pruned(before: Places, now: Places) {
    && now.Keys <= before.Keys && (forall run :: run in now ==> now[run] == before[run])
    && (forall out :: out in before.Keys - now.Keys ==> before[out] != 0)
    && (forall out, kept :: out in before.Keys - now.Keys && kept in Finished(now) ==> before[out] < now[kept])
  }

  lemma PrunedFurther(before: Places, now: Places, oldest: string)
    requires Pruned(before, now) && Distinct(now) && First(now, oldest)
    ensures Pruned(before, now - {oldest}) && Distinct(now - {oldest})
    ensures Finished(now - {oldest}) == Finished(now) - {oldest}
  {
    var rest := now - {oldest};
    assert Finished(rest) == Finished(now) - {oldest};
    assert before.Keys - rest.Keys == before.Keys - now.Keys + {oldest};
    assert forall kept :: kept in Finished(rest) ==> now[oldest] < now[kept];
  }

  datatype LaunchError = ClientClosed | RunActive

  /** Each method is one critical section of the client; any interleaving of them is a run.
      `all` holds every attempt ever launched. */
  class Client {
    const maxCompleted: nat
    var runs: map<string, RunState>
    var completionSeq: nat
    var closed: bool
    ghost var all: set<RunState>

    /** An attempt is done exactly when it has a place in the order; places are distinct and given out
        in order; no run has two unfinished attempts. */
    ghost predicate Attempts()
      reads this`all, this`completionSeq, all
    {
      && (forall st :: st in all ==> (st.done <==> st.completed > 0) && st.completed <= completionSeq)
      && (forall a, b :: a in all && b in all && a != b && a.done ==> a.completed != b.completed)
      && (forall a, b :: a in all && b in all && !a.done && !b.done && a.run == b.run ==> a == b)
    }

    /** A table files every attempt under its run, and every attempt that still runs is in it unless the
        client was closed. */
    ghost predicate Files(table: map<string, RunState>)
      reads this`all, this`closed, all
    {
      && (forall run :: run in table ==> table[run] in all && table[run].run == run)
      && (!closed ==> forall st :: st in all && !st.done ==> st.run in table && table[st.run] == st)
    }

    ghost predicate Valid()
      reads this, all
    {
      Attempts() && Files(runs)
    }

    function Table(): Places
      reads this`runs, runs.Values
    {
      map run | run in runs :: runs[run].completed
    }

    ghost predicate Bounded()
      reads this`runs, runs.Values
    {
      |Finished(Table())| <= maxCompleted
    }

    ghost predicate Submap(now: map<string, RunState>, before: map<string, RunState>) {
      forall run :: run in now ==> run in before && now[run] == before[run]
    }

    lemma TableDistinct()
      requires Valid()
      ensures Distinct(Table())
    {
      forall a, b | a in Finished(Table()) && b in Finished(Table()) && a != b ensures Table()[a] != Table()[b] {
        assert runs[a].run == a && runs[b].run == b;
      }
    }

    /** Taking finished runs out leaves a table in order. */
    lemma FilesFewer(before: map<string, RunState>, now: map<string, RunState>)
      requires Attempts() && Files(before)
      requires forall run :: run in now ==> run in before && now[run] == before[run]
      requires forall run :: run in before && run !in now ==> before[run].completed != 0
      ensures Files(now)
    {
      forall st | st in all && !st.done && !closed ensures st.run in now && now[st.run] == st {
        assert before[st.run] == st;
      }
    }

    constructor (maxCompleted: nat)
      ensures Valid() && Bounded() && this.maxCompleted == maxCompleted && runs == map[] && !closed && all == {}
    {
      this.maxCompleted, runs, completionSeq, closed, all := maxCompleted, map[], 0, false, {};
      new;
      assert Finished(Table()) == {};
    }

    /** The critical section of launch: a run that is still going is refused. */
    method Launch(run: string) returns (st: RunState?, refused: Option<LaunchError>)
      requires Valid() && Bounded()
      modifies this`runs, this`all
      ensures Valid() && Bounded()
      ensures refused == if closed then Some(ClientClosed)
                         else if run in old(runs) && !old(runs)[run].done then Some(RunActive) else None
      ensures refused.Some? ==> st == null && runs == old(runs) && all == old(all)
      ensures refused.None? ==>
                st != null && fresh(st) && st.run == run && !st.done
                && runs == old(runs)[run := st] && all == old(all) + {st}
    {
      if closed { return null, Some(ClientClosed); }
      if run in runs && !runs[run].done { return null, Some(RunActive); }
      st := Admit(run);
      refused := None;
    }

    method Admit(run: string) returns (st: RunState)
      requires Valid() && Bounded() && !closed && (run in runs ==> runs[run].done)
      modifies this`runs, this`all
      ensures Valid() && Bounded()
      ensures fresh(st) && st.run == run && !st.done && runs == old(runs)[run := st] && all == old(all) + {st}
    {
      ghost var before := Finished(Table());
      st := new RunState(run);
      File(st);
      FewerFinished(before);
    }

    method File(st: RunState)
      requires Valid() && !closed && (st.run in runs ==> runs[st.run].done)
      requires st !in all && !st.done && st.completed == 0
      modifies this`runs, this`all
      ensures Valid() && runs == old(runs)[st.run := st] && all == old(all) + {st}
    {
      runs := runs[st.run := st];
      all := all + {st};
    }

    lemma FewerFinished(before: set<string>)
      requires Finished(Table()) <= before && |before| <= maxCompleted
      ensures Bounded()
    {
      SubsetSize(Finished(Table()), before);
    }

    /** One look at the table: how many finished runs it holds, and which of them completed first. */
    method Oldest() returns (count: nat, oldest: string)
      requires Valid()
      ensures count == |Finished(Table())| && (count > 0 ==> First(Table(), oldest))
    {
      count, oldest := 0, "";
      var todo, seen := runs.Keys, {};
      while todo != {}
        invariant todo <= runs.Keys && seen == (set run | run in Finished(Table()) && run !in todo)
        invariant count == |seen|
        invariant count > 0 ==> oldest in seen
        invariant count > 0 ==> forall run :: run in seen ==> runs[oldest].completed <= runs[run].completed
        decreases todo
      {
        var id :| id in todo;
        todo := todo - {id};
        if runs[id].completed != 0 {
          if count == 0 || runs[id].completed < runs[oldest].completed { oldest := id; }
          seen := seen + {id};
          count := count + 1;
        }
      }
      assert seen == Finished(Table());
    }

    /** The prune loop: it evicts finished runs only, oldest completion first, until the bound holds. */
    method Prune()
      requires Valid()
      modifies this`runs
      ensures Valid() && Bounded() && Submap(runs, old(runs)) && Pruned(old(Table()), Table())
      ensures |Finished(Table())| ==
                if |old(Finished(Table()))| <= maxCompleted then |old(Finished(Table()))| else maxCompleted
    {
      ghost var table, before, size := runs, Table(), |Finished(Table())|;
      while true
        invariant Valid() && Submap(runs, table) && Pruned(before, Table())
        invariant size <= maxCompleted ==> |Finished(Table())| == size
        invariant size > maxCompleted ==> |Finished(Table())| >= maxCompleted
        decreases |Finished(Table())|
      {
        var more := PruneOne(before);
        if !more { return; }
      }
    }

    /** One pass of the prune loop. */
    method PruneOne(ghost before: Places) returns (more: bool)
      requires Valid() && Pruned(before, Table())
      modifies this`runs
      ensures Valid() && Submap(runs, old(runs)) && Pruned(before, Table())
      ensures more == (|old(Finished(Table()))| > maxCompleted)
      ensures |Finished(Table())| == |old(Finished(Table()))| - if more then 1 else 0
    {
      var oldest;
      more, oldest := Choose(before);
      if !more { return; }
      ghost var rest := Table() - {oldest};
      Evict(oldest);
      assert Table() == rest;
    }

    /** The run the prune loop evicts next, if any. */
    method Choose(ghost before: Places) returns (more: bool, oldest: string)
      requires Valid() && Pruned(before, Table())
      ensures more == (|Finished(Table())| > maxCompleted)
      ensures more ==> oldest in Finished(Table()) && Pruned(before, Table() - {oldest})
      ensures more ==> |Finished(Table() - {oldest})| == |Finished(Table())| - 1
    {
      var count;
      count, oldest := Oldest();
      more := count > maxCompleted;
      if more { OldestPrunes(before, oldest); }
    }

    lemma OldestPrunes(before: Places, oldest: string)
      requires Valid() && Pruned(before, Table()) && First(Table(), oldest)
      ensures oldest in Finished(Table()) && Pruned(before, Table() - {oldest})
      ensures |Finished(Table() - {oldest})| == |Finished(Table())| - 1
    {
      TableDistinct();
      PrunedFurther(before, Table(), oldest);
    }

    method Evict(oldest: string)
      requires Valid() && oldest in Finished(Table())
      modifies this`runs
      ensures Valid() && runs == old(runs) - {oldest} && Table() == old(Table()) - {oldest}
    {
      ghost var before := runs;
      runs := runs - {oldest};
      FilesFewer(before, runs);
    }

    /** The completion section: the attempt takes the next place in the order, then the cache is pruned. */
    method Complete(st: RunState)
      requires Valid() && Bounded() && st in all && !st.done
      modifies this`completionSeq, this`runs, st
      ensures Valid() && Bounded() && st.done && st.completed == completionSeq == old(completionSeq) + 1
      ensures forall s :: s in all && s != st ==> s.completed < st.completed
      ensures Submap(runs, old(runs))
      ensures var was := old(Table());
              Pruned(if st.run in was && old(runs)[st.run] == st then was[st.run := completionSeq] else was, Table())
    {
      Number(st);
      NumberedTable(st);
      Prune();
    }

    twostate lemma NumberedTable(st: RunState)
      requires runs == old(runs) && Files(runs)
      requires forall s :: s in runs.Values && s != st ==> s.completed == old(s.completed)
      ensures var was := old(Table());
              Table() == if st.run in was && runs[st.run] == st then was[st.run := st.completed] else was
    {}

    method Number(st: RunState)
      requires Valid() && st in all && !st.done
      modifies this`completionSeq, st
      ensures Valid() && st.done && st.completed == completionSeq == old(completionSeq) + 1
      ensures forall s :: s in all && s != st ==> s.completed < st.completed
    {
      completionSeq := completionSeq + 1;
      st.completed := completionSeq;
      st.done := true;
    }

    /** Forget removes a finished run only. */
    method Forget(run: string) returns (forgotten: bool)
      requires Valid() && Bounded()
      modifies this`runs
      ensures Valid() && Bounded()
      ensures forgotten == (run in old(runs) && old(runs)[run].done)
      ensures runs == if forgotten then old(runs) - {run} else old(runs)
    {
      if run !in runs || !runs[run].done { return false; }
      ghost var before := Finished(Table());
      runs := runs - {run};
      assert Finished(Table()) == before - {run};
      SubsetSize(Finished(Table()), before);
      return true;
    }

    /** Close releases the table; the attempts it held are cancelled and awaited by the caller. */
    method Close() returns (states: set<RunState>)
      requires Valid() && Bounded()
      modifies this`closed, this`runs
      ensures Valid() && Bounded() && closed && runs == map[] && states == old(runs).Values
      ensures !old(closed) ==> forall st :: st in all && !st.done ==> st in states
    {
      states := runs.Values;
      closed, runs := true, map[];
      assert Finished(Table()) == {};
    }
  }

  lemma {:induction false} SubsetSize<A>(a: set<A>, b: set<A>)
    requires a <= b
    ensures |a| <= |b|
    decreases a
  {
    if a != {} {
      var x :| x in a;
      SubsetSize(a - {x}, b - {x});
    }
  }
}
