/** The runtime around one attempt, in the form the repository gives it: stores that are overwritten or
    appended to, captured variables, early returns (runtime/runtime.go). A Session carries the protocol run
    it performs; every method leaves it a legal one. */
module Runtime {
  import opened Types
  import opened Reconcile
  import opened Protocol
  import opened ProtocolEffects
  import opened ProtocolOutcome
  import opened MemoryStore
  import T = Trajectory

  class Runtime {
    const runs: RunStore
    const events: EventStore
    const checkpoints: CheckpointStore
    var cancels: set<string>
    var seqs: map<string, int>

    constructor (runs: RunStore, events: EventStore, checkpoints: CheckpointStore)
      ensures this.runs == runs && this.events == events && this.checkpoints == checkpoints
      ensures Valid() && cancels == {} && seqs == map[]
    {
      this.runs, this.events, this.checkpoints, cancels, seqs := runs, events, checkpoints, {}, map[];
    }

    /** A sequence counter exists only while its run is active. */
    ghost predicate Valid()
      reads this
    {
      seqs.Keys <= cancels
    }

    function SeqOf(run: string): int
      reads this
    {
      if run in seqs then seqs[run] else 0
    }

    /** The locked sections of `run` that claim a run, set its counter, and release both. */
    method Claim(run: string)
      modifies this`cancels
      ensures cancels == old(cancels) + {run} && OthersKept(this, run)
    {
      cancels := cancels + {run};
    }

    method Count(run: string, sq: int)
      modifies this`seqs
      ensures seqs == old(seqs)[run := sq] && OthersKept(this, run)
    {
      seqs := seqs[run := sq];
    }

    method Forget(run: string)
      modifies this`cancels, this`seqs
      ensures cancels == old(cancels) - {run} && seqs == old(seqs) - {run} && OthersKept(this, run)
    {
      cancels, seqs := cancels - {run}, seqs - {run};
    }

    /** Recover: every run that is not in a final status becomes failed, keeping its pending approval.
        `broken` holds the runs whose update fails; the first of them ends the pass. */
    method Recover(broken: set<string>) returns (ok: bool)
      modifies runs
      ensures forall run :: runs.Of(run) == old(runs.Of(run)) || Stuck(old(runs.Of(run)), runs.Of(run))
      ensures forall run :: old(runs.Of(run)).Some? ==>
                runs.Of(run).Some? && runs.Of(run).value.pending == old(runs.Of(run)).value.pending
                && runs.Of(run).value.lastStep == old(runs.Of(run)).value.lastStep
      ensures forall run :: runs.Of(run) != old(runs.Of(run)) ==>
                old(runs.Of(run)).Some? && old(runs.Of(run)).value.status in {Pending, Running, WaitingApproval}
                && runs.Of(run).value.status == Failed
      ensures ok ==> forall run :: runs.Of(run).Some? ==> Ended(runs.Of(run).value.status)
      ensures ok <==> forall run :: old(runs.Of(run)).Some? && !Ended(old(runs.Of(run)).value.status) ==> run !in broken
    {
      var stuck := runs.List(UNFINISHED);
      ghost var before := runs.runs;
      for i := 0 to |stuck|
        invariant forall j :: 0 <= j < i ==> stuck[j].0 !in broken
        invariant runs.runs == Marked(before, stuck[..i])
      {
        if stuck[i].0 in broken {
          StoppedAt(before, stuck, i);
          return false;
        }
        assert stuck[..i + 1][..i] == stuck[..i];
        runs.Update(stuck[i].0, stuck[i].1.(status := Failed));
      }
      ok := true;
      assert stuck[..|stuck|] == stuck;
      StoppedAt(before, stuck, |stuck|);
    }
  }

  const UNFINISHED := {Pending, Running, WaitingApproval}

  /** The records after the listed ones were marked as failed. */
  function Marked(before: map<string, Record>, done: seq<(string, Record)>): map<string, Record> {
    if done == [] then before
    else
      var last := done[|done| - 1];
      Marked(before, done[..|done| - 1])[last.0 := last.1.(status := Failed)]
  }

  lemma {:induction false} MarkedRun(before: map<string, Record>, stuck: seq<(string, Record)>, n: nat, run: string)
    requires n <= |stuck| && Listing(before, UNFINISHED, stuck)
    ensures (forall j :: 0 <= j < n ==> stuck[j].0 != run) ==>
              Lookup(Marked(before, stuck[..n]), run) == Lookup(before, run)
    ensures (exists j :: 0 <= j < n && stuck[j].0 == run) ==>
              Stuck(Lookup(before, run), Lookup(Marked(before, stuck[..n]), run))
    decreases n
  {
    if n > 0 {
      assert stuck[..n][..n - 1] == stuck[..n - 1];
      assert (stuck[n - 1].0, stuck[n - 1].1) in stuck;
      MarkedRun(before, stuck, n - 1, run);
    }
  }

  /** What the records look like when the pass ends after `n` updates. */
  lemma StoppedAt(before: map<string, Record>, stuck: seq<(string, Record)>, n: nat)
    requires n <= |stuck| && Listing(before, UNFINISHED, stuck)
    ensures var now := Marked(before, stuck[..n]);
            && (forall run :: Lookup(now, run) == Lookup(before, run) || Stuck(Lookup(before, run), Lookup(now, run)))
            && (n == |stuck| ==> forall run :: Lookup(now, run).Some? ==> Ended(Lookup(now, run).value.status))
    ensures n < |stuck| ==> Lookup(before, stuck[n].0).Some? && !Ended(Lookup(before, stuck[n].0).value.status)
    ensures forall run :: Lookup(before, run).Some? && !Ended(Lookup(before, run).value.status) ==>
              exists j :: 0 <= j < |stuck| && stuck[j].0 == run
  {
    var now := Marked(before, stuck[..n]);
    forall run
      ensures Lookup(now, run) == Lookup(before, run) || Stuck(Lookup(before, run), Lookup(now, run))
      ensures n == |stuck| && Lookup(now, run).Some? ==> Ended(Lookup(now, run).value.status)
    {
      MarkedRun(before, stuck, n, run);
      if run in before && !Ended(before[run].status) { assert (run, before[run]) in stuck; }
    }
    if n < |stuck| { assert (stuck[n].0, stuck[n].1) in stuck; }
    forall run | Lookup(before, run).Some? && !Ended(Lookup(before, run).value.status)
      ensures exists j :: 0 <= j < |stuck| && stuck[j].0 == run
    {
      assert (run, before[run]) in stuck;
    }
  }

  method LastSeq(events: seq<Event>) returns (last: int)
    ensures last == MaxSeq(events)
  {
    last := 0;
    for i := 0 to |events|
      invariant last == MaxSeq(events[..i])
    {
      assert events[..i + 1][..i] == events[..i];
      if events[i].sq > last { last := events[i].sq; }
    }
    assert events[..|events|] == events;
  }

  /** What Recover does to a record it touches. */
  predicate Stuck(before: Option<Record>, now: Option<Record>) {
    before.Some? && !Ended(before.value.status) && now == Some(before.value.(status := Failed))
  }

  /** What the stores of a runtime hold for a run. */
  ghost predicate Holds(rt: Runtime, run: string, s: State)
    reads rt.runs, rt.events, rt.checkpoints
  {
    rt.events.Of(run) == s.log && rt.checkpoints.Of(run) == s.cp && rt.runs.Of(run) == s.rec
  }

  datatype View = View(runs: map<string, Record>, events: map<string, seq<Event>>,
                       checkpoints: map<string, seq<Message>>, seqs: map<string, int>, cancels: set<string>)

  /** What the shared stores and tables hold for the other runs. */
  ghost function Others(rt: Runtime, run: string): View
    reads rt, rt.runs, rt.events, rt.checkpoints
  {
    View(rt.runs.runs - {run}, rt.events.events - {run}, rt.checkpoints.checkpoints - {run},
         rt.seqs - {run}, rt.cancels - {run})
  }

  /** Only this run's entries change. */
  twostate predicate OthersKept(rt: Runtime, run: string)
    reads rt, rt.runs, rt.events, rt.checkpoints
  {
    Others(rt, run) == old(Others(rt, run))
  }

  /** What a resumed attempt still has of the index it began with: no receipt that was not recorded, and an
      uncertain call that must not run again stays in flight or blocked. */
  ghost predicate Consistent(idx: Index, wrap: Index, safe: set<string>) {
    forall k :: ConsistentAt(idx, wrap, safe, k)
  }

  ghost predicate ConsistentAt(idx: Index, wrap: Index, safe: set<string>, k: Key) {
    && (forall rec :: rec in Results(idx, k) ==> rec in Results(wrap, k))
    && (MayRun(wrap, k, safe) ==> k !in idx.blocked && MayRun(idx, k, safe))
    && (!MayRun(wrap, k, safe) ==> k in idx.blocked || Inflight(idx, k) > 0)
  }

  lemma ConsistentAtFirst(idx: Index, safe: set<string>)
    requires idx.blocked == {}
    ensures Consistent(idx, idx, safe)
  {
    forall k ensures ConsistentAt(idx, idx, safe, k) {}
  }

  lemma ConsistentStays(idx: Index, wrap: Index, safe: set<string>, k: Key)
    requires Consistent(idx, wrap, safe)
    ensures Consistent(Take(idx, k, k.name in safe).0, wrap, safe)
    ensures match Take(idx, k, k.name in safe).1
            case Reuse(rec) => rec in Results(wrap, k)
            case Notice => !MayRun(wrap, k, safe)
            case RunBody => MayRun(wrap, k, safe)
  {
    assert ConsistentAt(idx, wrap, safe, k);
    forall other ensures ConsistentAt(Take(idx, k, k.name in safe).0, wrap, safe, other) {
      assert ConsistentAt(idx, wrap, safe, other);
      TakeState(idx, k, k.name in safe, other);
    }
  }

  /** What one append does to the log: nothing when it is refused, else the event joins it with its number. */
  predicate Appended(before: seq<Event>, now: seq<Event>, e: Event, w: Write) {
    if w == Refused then now == before
    else |now| == |before| + 1 && now[..|before|] == before && now[|before|].(sq := e.sq) == e
  }

  /** Nothing, or one event of this type about this call, was added to the log. */
  predicate Logs(before: seq<Event>, now: seq<Event>, typ: EventType, callId: string, toolName: string) {
    || now == before
    || (&& |now| == |before| + 1 && now[..|before|] == before
        && now[|before|].typ == typ && now[|before|].callId == callId && now[|before|].toolName == toolName)
  }

  /** A record that is read before it is written. */
  function Base(record: Option<Record>): Record { if record.Some? then record.value else Record(Pending, None, 0) }

  /** The variables `run` and the agent loop share within one attempt. */
  class Session {
    const rt: Runtime
    const run: string
    const cfg: Config
    const index: ResumeIndex?
    const safe: set<string>
    var canceled: bool
    var persistErr: bool
    var messages: seq<Message>
    var step: nat
    /** Every call id of the run so far; only the assumption that the model reuses none reads it. */
    var used: set<string>
    /** The protocol run of the attempt. */
    ghost const from: State
    ghost var did: seq<Step>
    ghost var now: State
    /** What the other runs hold, and what the index held when the attempt began. */
    ghost const others: View
    ghost const wrap: Option<Index>

    /** The stores and the captured variables are what the protocol state says. */
    ghost predicate Matches(s: State)
      reads this`canceled, this`persistErr, rt, rt.runs, rt.events, rt.checkpoints, index
    {
      && s.live.Some? && Holds(rt, run, s) && Others(rt, run) == others
      && rt.Valid() && run in rt.cancels && rt.SeqOf(run) == s.live.value.sq
      && canceled == s.live.value.canceled && persistErr == s.live.value.persistErr && (persistErr ==> canceled)
      && s.live.value.idx == if index == null then None else Some(index.Value())
    }

    /** The session is where a legal protocol run leads that began with its launch. */
    ghost predicate Traced()
      reads this`did, this`now, this`messages, this`step, this`used
    {
      && Legal(from, did) && Run(from, did) == now && now.live.Some?
      && messages == now.live.value.messages && step == now.live.value.step && cfg == now.live.value.cfg
      && safe == now.safe && used == now.used
    }

    /** The index holds nothing that it did not hold when the attempt began. */
    ghost predicate Backed()
      reads index
    {
      if index == null then wrap == None else wrap.Some? && Consistent(index.Value(), wrap.value, safe)
    }

    ghost predicate Valid()
      reads this, rt, rt.runs, rt.events, rt.checkpoints, index
    {
      Matches(now) && Traced() && Backed()
    }

    ghost predicate At(pc: Pc)
      reads this`now
    {
      now.live.Some? && now.live.value.pc == pc
    }

    /** A first attempt: the run is claimed and nothing is stored yet. */
    constructor First(rt: Runtime, run: string, cfg: Config, safe: set<string>, used: set<string>,
                      initial: seq<Message>, ghost s: State)
      requires rt.Valid() && run !in rt.cancels && Holds(rt, run, s) && s.live.None? && s.rec.None?
      requires !cfg.resumed && safe == s.safe && used == s.used
      modifies rt`cancels
      ensures this.rt == rt && this.run == run && this.cfg == cfg && index == null && step == 1
      ensures rt.cancels == old(rt.cancels) + {run} && Valid() && At(Creating) && from == s
      ensures OthersKept(rt, run) && messages == initial
      ensures did == [Launch(StartRun(initial, cfg.tools, cfg.parallel, cfg.maxSteps, cfg.maxBytes))]
    {
      this.rt, this.run, this.cfg, this.safe, index := rt, run, cfg, safe, null;
      canceled, persistErr, messages, step, this.used := false, false, initial, 1, used + CallIds(initial);
      from, did, now := s, [], s;
      others, wrap := Others(rt, run), None;
      new;
      rt.Claim(run);
      Did(Launch(StartRun(initial, cfg.tools, cfg.parallel, cfg.maxSteps, cfg.maxBytes)));
    }

    /** A resumed attempt: the sequence counter is rebuilt from the log. */
    constructor Resumed(rt: Runtime, run: string, cfg: Config, safe: set<string>, used: set<string>,
                        index: ResumeIndex?, trimmed: seq<Message>, ghost idx: Index, ghost s: State)
      requires rt.Valid() && run !in rt.cancels && Holds(rt, run, s) && cfg.resumed && safe == s.safe && used == s.used
      requires CanLaunch(s, Resume(cfg.tools, cfg.parallel, cfg.maxSteps, cfg.maxBytes, idx))
      requires trimmed == T.Trim(s.cp.value)
      requires if cfg.tools == {} || Empty(idx) then index == null else index != null && index.Value() == idx
      modifies rt`cancels, rt`seqs
      ensures this.rt == rt && this.run == run && this.cfg == cfg && this.index == index
      ensures messages == trimmed && step == 1 && wrap == if index == null then None else Some(idx)
      ensures OthersKept(rt, run) && rt.cancels == old(rt.cancels) + {run} && Valid() && At(Resetting) && from == s
      ensures did == [Launch(Resume(cfg.tools, cfg.parallel, cfg.maxSteps, cfg.maxBytes, idx))]
    {
      this.rt, this.run, this.cfg, this.safe, this.index := rt, run, cfg, safe, index;
      canceled, persistErr, messages, step, this.used := false, false, trimmed, 1, used;
      from, did, now := s, [], s;
      others, wrap := Others(rt, run), if index == null then None else Some(idx);
      new;
      if index != null { ConsistentAtFirst(idx, safe); }
      rt.Claim(run);
      var last := LastSeq(rt.events.Of(run));
      rt.Count(run, last);
      assert Backed();
      Did(Launch(Resume(cfg.tools, cfg.parallel, cfg.maxSteps, cfg.maxBytes, idx)));
    }

    ghost method Did(step: Step)
      requires Legal(from, did) && Run(from, did) == now && Enabled(now, step)
      modifies this`did, this`now
      ensures did == old(did) + [step] && now == Apply(old(now), step)
      ensures Legal(from, did) && Run(from, did) == now
    {
      RunSnoc(from, did, step);
      did, now := did + [step], Apply(now, step);
    }

    // -------------------------------------------------------------- what may come between any two writes

    /** The caller's context is cancelled, or Runtime.Cancel is called. */
    method Cancel()
      requires Valid()
      modifies this`did, this`now, this`canceled
      ensures Valid() && canceled && did == old(did) + [Outside(OutsideStep.Cancel)]
      ensures now.live.Some? && now.live.value.pc == old(now.live.value.pc) && now.trace == old(now.trace)
    {
      canceled := true;
      Did(Outside(OutsideStep.Cancel));
    }

    /** A cancellation may come here. */
    method Interfere()
      requires Valid()
      modifies this`did, this`now, this`canceled
      ensures Valid() && (old(canceled) ==> canceled)
      ensures now.live.Some? && now.live.value.pc == old(now.live.value.pc) && now.trace == old(now.trace)
    {
      var cancel: bool := *;
      if cancel { Cancel(); }
    }

    /** The process dies here. The stores stay as they are; a new process knows nothing else. */
    method Crash() returns (next: Runtime)
      requires Valid()
      modifies this`did, this`now
      ensures fresh(next) && next.runs == rt.runs && next.events == rt.events && next.checkpoints == rt.checkpoints
      ensures next.Valid() && next.cancels == {} && Holds(next, run, now) && now.live.None?
      ensures now.safe == safe && now.used == used
      ensures Legal(from, did) && Run(from, did) == now && did == old(did) + [Outside(OutsideStep.Crash)]
    {
      next := new Runtime(rt.runs, rt.events, rt.checkpoints);
      Did(Outside(OutsideStep.Crash));
    }

    // -------------------------------------------------------------- writes

    /** The first failure becomes the error of the attempt and cancels it; later ones change nothing. */
    method FailClosed()
      requires persistErr ==> canceled
      modifies this`canceled, this`persistErr
      ensures canceled && persistErr
    {
      if !persistErr { persistErr, canceled := true, true; }
    }

    /** The wrapped emitter. */
    method Wrapped(e: Event, w: Write)
      requires Matches(now)
      modifies this`canceled, this`persistErr, rt`seqs, rt.events
      ensures Matches(Emit(now, e, w)) && persistErr == (old(persistErr) || w != Stored)
      ensures Appended(old(rt.events.Of(run)), rt.events.Of(run), e, w)
    {
      var sq := rt.SeqOf(run) + 1;
      rt.Count(run, sq);
      if w != Refused { rt.events.Append(run, [e.(sq := sq)]); }
      if w != Stored { FailClosed(); }
    }

    method SaveCheckpoint(ghost s: State, w: Write)
      requires Matches(s) && messages == s.live.value.messages
      modifies this`canceled, this`persistErr, rt.checkpoints
      ensures Matches(Protocol.SaveCheckpoint(s, w))
      ensures rt.checkpoints.Of(run) == if w == Refused then old(rt.checkpoints.Of(run)) else Some(messages)
    {
      if w != Refused { rt.checkpoints.Save(run, messages); }
      if w != Stored { FailClosed(); }
    }

    /** updateRecord: the caller decides what a failed write means. */
    method UpdateRecord(record: Record, w: Write) returns (ok: bool)
      requires Matches(now)
      modifies rt.runs
      ensures Matches(PutRecord(now, record, w)) && ok == (w == Stored)
      ensures rt.runs.Of(run) == if w == Refused then old(rt.runs.Of(run)) else Some(record)
    {
      if w != Refused { rt.runs.Update(run, record); }
      ok := w == Stored;
    }

    function CurrentRecord(): Record
      reads rt.runs
    {
      Base(rt.runs.Of(run))
    }

    // -------------------------------------------------------------- steps of the runtime

    /** Writes the record the protocol plans at this point. */
    method Advance(record: Record, w: Write) returns (ok: bool)
      requires Valid() && RecordPlan(now).Some? && !At(StepRecord) && record == RecordPlan(now).value.0
      modifies this`did, this`now, rt.runs
      ensures Valid() && ok == (w == Stored)
      ensures At(if ok then old(RecordPlan(now)).value.1 else old(RecordPlan(now)).value.2)
      ensures did == old(did) + [Loop(RecordWrite(w))]
      ensures rt.runs.Of(run) == if w == Refused then old(rt.runs.Of(run)) else Some(record)
    {
      ok := UpdateRecord(record, w);
      RecordWriteEffect(now, w);
      DidWrite(w);
    }

    ghost method DidWrite(w: Write)
      requires Traced() && Backed() && RecordPlan(now).Some? && Matches(WriteRecord(now, w))
      modifies this`did, this`now
      ensures Valid() && did == old(did) + [Loop(RecordWrite(w))]
      ensures At(if w == Stored then old(RecordPlan(now)).value.1 else old(RecordPlan(now)).value.2)
    {
      hide Session.Matches;
      RecordWriteEffect(now, w);
      Did(Loop(RecordWrite(w)));
    }

    method EmitEvent(e: Event, w: Write)
      requires Valid() && EventPlan(now.live.value).Some? && e == PlannedEvent(now.live.value)
      modifies this`canceled, this`persistErr, rt`seqs, rt.events
      ensures Matches(LoopEmit(now, w)) && persistErr == (old(persistErr) || w != Stored)
      ensures Appended(old(rt.events.Of(run)), rt.events.Of(run), e, w)
    {
      Wrapped(e, w);
      PlainEmitEffect(now, w);
    }

    /** Emits the event the protocol plans at this point. */
    method EmitPlanned(e: Event, w: Write)
      requires Valid() && EventPlan(now.live.value).Some? && e == PlannedEvent(now.live.value)
      requires !now.live.value.pc.StepEmit?
      modifies this`did, this`now, this`canceled, this`persistErr, rt`seqs, rt.events
      ensures Valid() && persistErr == (old(persistErr) || w != Stored)
      ensures At(if old(now.live.value.pc.Terminal?) && w != Stored && !old(persistErr) then Downgrade
                 else old(EventPlan(now.live.value)).value.1)
      ensures did == old(did) + [Loop(PlainEmit(w))]
      ensures Appended(old(rt.events.Of(run)), rt.events.Of(run), e, w)
    {
      EmitEvent(e, w);
      DidEmit(w);
    }

    ghost method DidEmit(w: Write)
      requires Traced() && Backed() && EventPlan(now.live.value).Some? && !now.live.value.pc.StepEmit?
      requires Matches(LoopEmit(now, w))
      modifies this`did, this`now
      ensures Valid() && did == old(did) + [Loop(PlainEmit(w))]
      ensures At(if old(now.live.value.pc.Terminal?) && w != Stored && !old(now.live.value.persistErr) then Downgrade
                 else old(EventPlan(now.live.value)).value.1)
    {
      hide Session.Matches;
      PlainEmitEffect(now, w);
      Did(Loop(PlainEmit(w)));
    }

    /** The end of a step also counts it. */
    ghost method DidStep(w: Write)
      requires Backed() && AtPc(now, StepEmit) && Matches(LoopEmit(now, w)) && Legal(from, did) && Run(from, did) == now
      requires messages == now.live.value.messages && step == now.live.value.step + 1 && cfg == now.live.value.cfg
      requires safe == now.safe && used == now.used
      modifies this`did, this`now
      ensures Valid() && At(Top) && did == old(did) + [Loop(PlainEmit(w))]
    {
      hide Legal, Run;
      hide Session.Matches;
      PlainEmitEffect(now, w);
      Did(Loop(PlainEmit(w)));
    }

    /** Registration up to the point where the runner takes over: any failed write ends the attempt. */
    method Prelude() returns (started: bool)
      requires Valid() && At(if cfg.resumed then Resetting else Creating)
      modifies this`did, this`now, this`canceled, this`persistErr, rt`seqs, rt.runs, rt.events, rt.checkpoints
      ensures Valid() && At(if started then Opening else Leaving(false))
    {
      started := Register();
      if started { started := MarkAsRunning(); }
      if started { started := Announce(); }
    }

    /** The record is created, or reset with the last step it had. */
    method Register() returns (started: bool)
      requires Valid() && At(if cfg.resumed then Resetting else Creating)
      modifies this`did, this`now, rt.runs
      ensures Valid() && At(if started then MarkRunning else Leaving(false))
      ensures var before, after := old(rt.runs.Of(run)), rt.runs.Of(run);
              after == before || after == Some(Record(Pending, None, if cfg.resumed then Base(before).lastStep else 0))
    {
      var w: Write := *;
      var record := if cfg.resumed then CurrentRecord().(status := Pending, pending := None)
                    else Record(Pending, None, 0);
      started := Advance(record, w);
    }

    method MarkAsRunning() returns (started: bool)
      requires Valid() && At(MarkRunning)
      modifies this`did, this`now, this`canceled, rt.runs
      ensures Valid()
      ensures At(if !started then Leaving(false) else if cfg.resumed then Announcing else FirstSave)
      ensures rt.runs.Of(run) in {old(rt.runs.Of(run)), Some(Base(old(rt.runs.Of(run))).(status := Running))}
    {
      Interfere();
      var w: Write := *;
      started := Advance(CurrentRecord().(status := Running), w);
    }

    method Announce() returns (started: bool)
      requires Valid() && At(if cfg.resumed then Announcing else FirstSave)
      modifies this`did, this`now, this`canceled, this`persistErr, rt`seqs, rt.events, rt.checkpoints
      ensures Valid() && At(if started then Opening else Leaving(false))
      ensures if cfg.resumed then Logs(old(rt.events.Of(run)), rt.events.Of(run), RunResumed, "", "")
              else rt.events.Of(run) == old(rt.events.Of(run))
    {
      Interfere();
      var w: Write := *;
      started := true;
      if cfg.resumed { EmitPlanned(PlainEvent(RunResumed), w); } else { started := FirstCheckpoint(w); }
    }

    method FirstCheckpoint(w: Write) returns (ok: bool)
      requires Valid() && At(FirstSave)
      modifies this`did, this`now, rt.checkpoints
      ensures Valid() && At(if ok then Opening else Leaving(false)) && ok == (w == Stored)
      ensures did == old(did) + [Loop(CheckpointWrite(w))]
      ensures rt.checkpoints.Of(run) == if w == Refused then old(rt.checkpoints.Of(run)) else Some(messages)
    {
      hide Legal, Run;
      if w != Refused { rt.checkpoints.Save(run, messages); }
      ok := w == Stored;
      Did(Loop(CheckpointWrite(w)));
    }

    /** OnToolDone: the answer of the call joins the trajectory, which is saved. */
    method OnToolDone(message: Message, w: Write)
      requires Valid() && CanCollect(now) && message == now.live.value.pc.cells[now.live.value.pc.collected].msg
      modifies this`did, this`now, this`canceled, this`persistErr, this`messages, rt.checkpoints
      ensures Valid() && did == old(did) + [Loop(Collect(w))]
      ensures At(old(now.live.value.pc).(collected := old(now.live.value.pc.collected) + 1))
      ensures messages == old(messages) + [message]
      ensures rt.checkpoints.Of(run) == if w == Refused then old(rt.checkpoints.Of(run)) else Some(messages)
    {
      hide Legal, Run;
      hide Session.Matches;
      CollectEffect(now, w);
      SaveAnswer(message, w);
      Did(Loop(Collect(w)));
    }

    method SaveAnswer(message: Message, w: Write)
      requires Valid() && CanCollect(now) && message == now.live.value.pc.cells[now.live.value.pc.collected].msg
      modifies this`canceled, this`persistErr, this`messages, rt.checkpoints
      ensures Matches(CollectNext(now, w)) && messages == old(messages) + [message]
      ensures rt.checkpoints.Of(run) == if w == Refused then old(rt.checkpoints.Of(run)) else Some(messages)
    {
      messages := messages + [message];
      SaveCheckpoint(Collected(now), w);
    }

    /** OnStep: the trajectory is saved once more and the step is recorded. */
    method OnStep()
      requires Valid() && At(StepSave)
      modifies this`did, this`now, this`canceled, this`persistErr, rt.runs, rt.checkpoints
      ensures Valid() && At(StepEmit)
      ensures rt.checkpoints.Of(run) in {old(rt.checkpoints.Of(run)), Some(messages)}
      ensures rt.runs.Of(run) in {old(rt.runs.Of(run)), Some(Base(old(rt.runs.Of(run))).(lastStep := step))}
    {
      hide Session.Valid;
      Interfere();
      var w: Write := *;
      SaveStep(w);
      Interfere();
      w := *;
      RecordStep(w);
    }

    method SaveStep(w: Write)
      requires Valid() && At(StepSave)
      modifies this`did, this`now, this`canceled, this`persistErr, rt.checkpoints
      ensures Valid() && At(StepRecord) && did == old(did) + [Loop(CheckpointWrite(w))]
      ensures rt.checkpoints.Of(run) == if w == Refused then old(rt.checkpoints.Of(run)) else Some(messages)
    {
      SaveCheckpoint(now, w);
      Did(Loop(CheckpointWrite(w)));
    }

    method RecordStep(w: Write)
      requires Valid() && At(StepRecord)
      modifies this`did, this`now, this`canceled, this`persistErr, rt.runs
      ensures Valid() && At(StepEmit) && did == old(did) + [Loop(RecordWrite(w))]
      ensures rt.runs.Of(run) == if w == Refused then old(rt.runs.Of(run))
                                 else Some(Base(old(rt.runs.Of(run))).(lastStep := step))
    {
      hide Session.Matches;
      WriteLastStep(w);
      DidWrite(w);
    }

    method WriteLastStep(w: Write)
      requires Valid() && At(StepRecord)
      modifies this`canceled, this`persistErr, rt.runs
      ensures Matches(WriteRecord(now, w))
      ensures rt.runs.Of(run) == if w == Refused then old(rt.runs.Of(run))
                                 else Some(Base(old(rt.runs.Of(run))).(lastStep := step))
    {
      var ok := UpdateRecord(CurrentRecord().(lastStep := step), w);
      if !ok { FailClosed(); }
      RecordWriteEffect(now, w);
    }

    /** The end of an attempt: the record first, then the terminal event; a terminal event that cannot be
        stored turns the record to failed. The result is what `run` returns: true for a nil error. */
    method Finish(failed: bool) returns (ok: bool)
      requires Valid() && At(RunnerDone(!failed))
      modifies this`did, this`now, this`canceled, this`persistErr, rt`seqs, rt.runs, rt.events
      ensures Valid() && At(Leaving(ok))
      ensures Logs(old(rt.events.Of(run)), rt.events.Of(run),
                   if !failed && !old(persistErr) then RunDone else RunError, "", "")
    {
      hide Session.Valid;
      Interfere();
      ok := Settle(failed);
    }

    method Settle(failed: bool) returns (ok: bool)
      requires Valid() && At(RunnerDone(!failed))
      modifies this`did, this`now, this`canceled, this`persistErr, rt`seqs, rt.runs, rt.events
      ensures Valid() && At(Leaving(ok))
      ensures Logs(old(rt.events.Of(run)), rt.events.Of(run),
                   if !failed && !old(persistErr) then RunDone else RunError, "", "")
    {
      hide Session.Valid;
      var w: Write := *;
      var stored := Conclude(failed, w);
      if !stored { return false; }
      ok := EndWith(!failed && !persistErr);
    }

    /** The final status, unless the write is refused. */
    method Conclude(failed: bool, w: Write) returns (stored: bool)
      requires Valid() && At(RunnerDone(!failed))
      modifies this`did, this`now, rt.runs
      ensures Valid() && stored == (w == Stored)
      ensures At(if stored then Terminal(!failed && !persistErr) else Leaving(false))
      ensures rt.runs.Of(run) ==
                if w == Refused then old(rt.runs.Of(run))
                else Some(Record(if persistErr then Failed
                                 else if !failed then Succeeded else if canceled then Canceled else Failed,
                                 None, Base(old(rt.runs.Of(run))).lastStep))
    {
      var final := Succeeded;
      if failed { final := if canceled then Canceled else Failed; }
      if persistErr { final := Failed; }
      var record := CurrentRecord().(status := final, pending := None);
      assert RecordPlan(now) == Some((record, Terminal(!failed && !persistErr), Leaving(false)));
      hide Session.Matches, RecordPlan;
      stored := Advance(record, w);
    }

    /** The terminal event. */
    method EndWith(succeeded: bool) returns (ok: bool)
      requires Valid() && At(Terminal(succeeded))
      modifies this`did, this`now, this`canceled, this`persistErr, rt`seqs, rt.runs, rt.events
      ensures Valid() && At(Leaving(ok))
      ensures Logs(old(rt.events.Of(run)), rt.events.Of(run), if succeeded then RunDone else RunError, "", "")
    {
      hide Session.Valid;
      Interfere();
      ok := succeeded;
      var w: Write := *;
      var before := persistErr;
      EmitTerminal(ok, w);
      if persistErr != before {
        Degrade();
        ok := false;
      }
    }

    method EmitTerminal(succeeded: bool, w: Write)
      requires Valid() && At(Terminal(succeeded))
      modifies this`did, this`now, this`canceled, this`persistErr, rt`seqs, rt.events
      ensures Valid() && persistErr == (old(persistErr) || w != Stored)
      ensures At(if w != Stored && !old(persistErr) then Downgrade else Leaving(succeeded))
      ensures Logs(old(rt.events.Of(run)), rt.events.Of(run), if succeeded then RunDone else RunError, "", "")
    {
      EmitPlanned(PlainEvent(if succeeded then RunDone else RunError), w);
    }

    /** Best effort: whether this write succeeds is not looked at. */
    method Degrade()
      requires Valid() && At(Downgrade)
      modifies this`did, this`now, rt.runs
      ensures Valid() && At(Leaving(false))
      ensures rt.runs.Of(run) in {old(rt.runs.Of(run)), Some(Base(old(rt.runs.Of(run))).(status := Failed))}
    {
      var w: Write := *;
      var ok := Advance(CurrentRecord().(status := Failed), w);
    }

    /** The deferred cleanup of `run`. */
    method Release(ghost ok: bool)
      requires Valid() && At(Leaving(ok))
      modifies this`did, this`now, rt`cancels, rt`seqs
      ensures rt.Valid() && rt.cancels == old(rt.cancels) - {run} && OthersKept(rt, run)
      ensures Holds(rt, run, now) && now.live.None?
      ensures Legal(from, did) && Run(from, did) == now && did == old(did) + [Loop(Leave)]
      ensures now.trace.outcomes == old(now.trace.outcomes) + [ok]
      ensures now.log == old(now.log) && now.rec == old(now.rec)
    {
      rt.Forget(run);
      Did(Loop(Leave));
    }

    // -------------------------------------------------------------- steps of one call

    /** The session works on call `i` of the step `pc`, which stands at `cell`; the other calls stand as
        they do in `pc`. */
    ghost predicate OnCell(pc: Pc, i: nat, cell: Cell)
      reads this`now
    {
      && pc.InStep? && i < |pc.cells| == |pc.calls|
      && ((cfg.parallel && |pc.calls| > 1) || i == pc.collected)
      && At(pc.(cells := pc.cells[i := cell]))
    }

    lemma CallLands(pc: Pc, i: nat, cell: Cell, step: CallStep)
      requires Traced() && OnCell(pc, i, cell) && CanCall(now, i, step)
      ensures var t := ApplyCall(now, i, step);
              && t.live.Some? && t.live.value.pc == pc.(cells := pc.cells[i := NextCell(now, i, step)])
              && t.live.value.messages == messages && t.live.value.step == this.step
              && t.live.value.cfg == cfg && t.safe == safe && t.used == used
    {
      CallEffect(now, i, step);
      CallRecordEffect(now, i, step);
    }

    /** The call has moved: the real part of the step is done. */
    ghost method DidCall(pc: Pc, i: nat, cell: Cell, step: CallStep)
      requires Traced() && Backed() && OnCell(pc, i, cell) && CanCall(now, i, step)
      requires Matches(ApplyCall(now, i, step))
      modifies this`did, this`now
      ensures Valid() && OnCell(pc, i, NextCell(old(now), i, step)) && did == old(did) + [OnCall(i, step)]
    {
      CallLands(pc, i, cell, step);
      Did(OnCall(i, step));
    }

    lemma MayMove(pc: Pc, i: nat, cell: Cell, choice: Choice, w: Write)
      requires Traced() && OnCell(pc, i, cell) && Permits(pc.calls[i], cell, choice, cfg.tools)
      requires canceled == now.live.value.canceled
      requires CellMove(pc.calls[i], cell, choice, cfg.maxBytes, canceled || w != Stored).Some?
      ensures CanCall(now, i, Move(choice, w))
      ensures CellEmission(now, i, choice, w) ==
                CellMove(pc.calls[i], cell, choice, cfg.maxBytes, canceled || w != Stored).value
    {
      CellNow(pc, i, cell);
    }

    lemma CellNow(pc: Pc, i: nat, cell: Cell)
      requires Traced() && OnCell(pc, i, cell)
      ensures Active(now, i) && CellAt(now, i) == cell && CallAt(now, i) == pc.calls[i]
      ensures cfg == now.live.value.cfg
    {}

    /** A move of a call that emits an event. */
    method EmitMove(ghost pc: Pc, ghost i: nat, ghost cell: Cell, ghost choice: Choice, e: Event, w: Write)
      requires Valid() && OnCell(pc, i, cell) && Permits(pc.calls[i], cell, choice, cfg.tools)
      requires CellMove(pc.calls[i], cell, choice, cfg.maxBytes, canceled || w != Stored).Some?
      requires e == CellMove(pc.calls[i], cell, choice, cfg.maxBytes, canceled || w != Stored).value.0
      modifies this`did, this`now, this`canceled, this`persistErr, rt`seqs, rt.events
      ensures Valid() && canceled == (old(canceled) || w != Stored)
      ensures CellMove(pc.calls[i], cell, choice, cfg.maxBytes, canceled).Some?
      ensures OnCell(pc, i, CellMove(pc.calls[i], cell, choice, cfg.maxBytes, canceled).value.1)
      ensures Appended(old(rt.events.Of(run)), rt.events.Of(run), e, w)
    {
      MayMove(pc, i, cell, choice, w);
      EmitCall(i, choice, e, w);
      DidCall(pc, i, cell, Move(choice, w));
    }

    method EmitCall(ghost i: nat, ghost choice: Choice, e: Event, w: Write)
      requires Valid() && CanCall(now, i, Move(choice, w)) && e == CellEmission(now, i, choice, w).0
      modifies this`canceled, this`persistErr, rt`seqs, rt.events
      ensures Matches(ApplyCall(now, i, Move(choice, w)))
      ensures canceled == (old(canceled) || w != Stored)
      ensures Appended(old(rt.events.Of(run)), rt.events.Of(run), e, w)
    {
      Wrapped(e, w);
      CallEffect(now, i, Move(choice, w));
      CallRecordEffect(now, i, Move(choice, w));
    }

    /** The record starts to wait for an approval. */
    method AskApproval(ghost pc: Pc, i: nat, callId: string, w: Write) returns (ok: bool)
      requires Valid() && OnCell(pc, i, Proposed) && callId == pc.calls[i].id
      modifies this`did, this`now, rt.runs
      ensures Valid() && ok == (w == Stored)
      ensures OnCell(pc, i, if ok then Asking else Answered(Broken))
      ensures rt.runs.Of(run) ==
                if w == Refused then old(rt.runs.Of(run))
                else Some(Record(WaitingApproval, Some(callId), Base(old(rt.runs.Of(run))).lastStep))
    {
      CellNow(pc, i, Proposed);
      CallEffect(now, i, AskRecord(w));
      CallRecordEffect(now, i, AskRecord(w));
      ok := UpdateRecord(CurrentRecord().(status := WaitingApproval, pending := Some(callId)), w);
      DidCall(pc, i, Proposed, AskRecord(w));
    }

    /** The record stops waiting, whatever came of the approval. */
    method AnswerApproval(ghost pc: Pc, i: nat, ghost d: Decision, w: Write) returns (ok: bool)
      requires Valid() && OnCell(pc, i, Answered(d))
      modifies this`did, this`now, rt.runs
      ensures Valid() && ok == (w == Stored)
      ensures OnCell(pc, i, Settled(if ok then d else Broken))
      ensures rt.runs.Of(run) ==
                if w == Refused then old(rt.runs.Of(run))
                else Some(Record(Running, None, Base(old(rt.runs.Of(run))).lastStep))
    {
      CellNow(pc, i, Answered(d));
      CallEffect(now, i, AnswerRecord(w));
      CallRecordEffect(now, i, AnswerRecord(w));
      ok := UpdateRecord(CurrentRecord().(status := Running, pending := None), w);
      DidCall(pc, i, Answered(d), AnswerRecord(w));
    }

    /** A step of a call that writes nothing. */
    ghost method Quiet(pc: Pc, i: nat, cell: Cell, step: CallStep)
      requires Valid() && OnCell(pc, i, cell) && CanCall(now, i, step)
      requires step.Decide? || step.Check? || step.BodyReturn?
      modifies this`did, this`now
      ensures Valid() && OnCell(pc, i, NextCell(old(now), i, step))
    {
      CallEffect(now, i, step);
      CallRecordEffect(now, i, step);
      DidCall(pc, i, cell, step);
    }

    /** The wrapped Execute consults the index; the body runs outside its lock. */
    method Consult(ghost pc: Pc, i: nat, c: Call, ghost clean: bool) returns (hit: Hit)
      requires Valid() && OnCell(pc, i, Cleared(clean)) && c == pc.calls[i]
      modifies this`did, this`now, index
      ensures Valid() && OnCell(pc, i, HitCell(hit)) && Allows(c, hit)
    {
      CellNow(pc, i, Cleared(clean));
      CallEffect(now, i, CallStep.Execute);
      CallRecordEffect(now, i, CallStep.Execute);
      ghost var expected := Consulted(now, i);
      hit := TakeHit(c);
      assert hit == expected.1;
      DidCall(pc, i, Cleared(clean), CallStep.Execute);
    }

    /** The critical section of a wrapped call; a tool that is not wrapped always runs. */
    method TakeHit(c: Call) returns (hit: Hit)
      requires Backed()
      modifies index
      ensures Backed() && Allows(c, hit)
      ensures if index == null then hit == RunBody
              else (index.Value(), hit) == Take(old(index.Value()), CallKey(c), c.name in safe)
    {
      hit := RunBody;
      if index != null {
        ConsistentStays(index.Value(), wrap.value, safe, CallKey(c));
        hit := index.Consult(CallKey(c), c.name in safe);
      }
    }

    /** What the index the attempt began with allows for a call. */
    ghost predicate Allows(c: Call, hit: Hit) {
      match hit
      case Reuse(rec) => wrap.Some? && rec in Results(wrap.value, CallKey(c))
      case Notice => wrap.Some? && !MayRun(wrap.value, CallKey(c), safe)
      case RunBody => MayExecute(c)
    }

    ghost predicate MayExecute(c: Call) { wrap.None? || MayRun(wrap.value, CallKey(c), safe) }
  }
}
