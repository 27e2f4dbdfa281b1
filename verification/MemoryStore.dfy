/** The in-memory stores (runtime/memory/memory.go): the reference for what a write that succeeds does. */
module MemoryStore {
  import opened Types
  import opened Protocol

  function Lookup<V>(m: map<string, V>, run: string): Option<V> { if run in m then Some(m[run]) else None }

  /** Every run with one of the statuses, once; every run when no status is given. */
  ghost predicate Listing(runs: map<string, Record>, statuses: set<Status>, out: seq<(string, Record)>) {
    && (forall i, j :: 0 <= i < j < |out| ==> out[i].0 != out[j].0)
    && forall run, record ::
         (run, record) in out <==> Lookup(runs, run) == Some(record) && (statuses == {} || record.status in statuses)
  }

  class RunStore {
    var runs: map<string, Record>

    constructor ()
      ensures runs == map[]
    {
      runs := map[];
    }

    function Of(run: string): Option<Record>
      reads this
    {
      Lookup(runs, run)
    }

    method Create(run: string, record: Record)
      modifies this
      ensures runs == old(runs)[run := record]
    {
      runs := runs[run := record];
    }

    method Update(run: string, record: Record)
      modifies this
      ensures runs == old(runs)[run := record]
    {
      runs := runs[run := record];
    }

    method List(statuses: set<Status>) returns (out: seq<(string, Record)>)
      ensures Listing(runs, statuses, out)
    {
      out := [];
      var todo := runs.Keys;
      while todo != {}
        invariant todo <= runs.Keys
        invariant forall i, j :: 0 <= i < j < |out| ==> out[i].0 != out[j].0
        invariant forall run, record ::
                    (run, record) in out <==>
                    run !in todo && Of(run) == Some(record) && (statuses == {} || record.status in statuses)
        decreases todo
      {
        var run :| run in todo;
        todo := todo - {run};
        if statuses == {} || runs[run].status in statuses {
          assert forall i :: 0 <= i < |out| ==> (out[i].0, out[i].1) in out;
          out := out + [(run, runs[run])];
        }
      }
    }
  }

  class EventStore {
    var events: map<string, seq<Event>>

    constructor ()
      ensures events == map[]
    {
      events := map[];
    }

    /** The events of a run in the order they were appended; none for a run nobody wrote to. */
    function Of(run: string): seq<Event>
      reads this
    {
      if run in events then events[run] else []
    }

    method Append(run: string, more: seq<Event>)
      modifies this
      ensures events == old(events)[run := old(Of(run)) + more]
    {
      events := events[run := Of(run) + more];
    }
  }

  class CheckpointStore {
    var checkpoints: map<string, seq<Message>>

    constructor ()
      ensures checkpoints == map[]
    {
      checkpoints := map[];
    }

    function Of(run: string): Option<seq<Message>>
      reads this
    {
      Lookup(checkpoints, run)
    }

    method Save(run: string, messages: seq<Message>)
      modifies this
      ensures checkpoints == old(checkpoints)[run := messages]
    {
      checkpoints := checkpoints[run := messages];
    }
  }
}
