/** What the resume index means for the tool bodies of a whole attempt (runtime/resume.go). */
module ProtocolRequests {
  import opened Types
  import opened ToolRun
  import opened Reconcile
  import opened Protocol
  import opened ProtocolEffects
  import T = Trajectory

  /** Steps that neither begin nor end an attempt. */
  predicate Within(step: Step) { !step.Launch? && step != Loop(Leave) && step != Outside(Crash) }

  predicate SameAttempt(steps: seq<Step>) { forall i :: 0 <= i < |steps| ==> Within(steps[i]) }

  /** The step is a wrapped Execute of this key. */
  predicate Asks(s: State, step: Step, k: Key) {
    step.OnCall? && step.call.Execute? && Active(s, step.i) && CallKey(CallAt(s, step.i)) == k
  }

  /** How often the key is requested. */
  ghost function Asked(s: State, steps: seq<Step>, k: Key): nat
    requires Legal(s, steps)
    decreases |steps|
  {
    if steps == [] then 0
    else (if Asks(s, steps[0], k) then 1 else 0) + Asked(Apply(s, steps[0]), steps[1..], k)
  }

  /** How many bodies ran for the key. */
  function Ran(execs: seq<Exec>, k: Key): nat {
    if execs == [] then 0
    else Ran(execs[..|execs| - 1], k) + if execs[|execs| - 1].key == k then 1 else 0
  }

  /** How many bodies `r` requests of a key lead to, from any state of the index. */
  function BodiesFor(idx: Index, k: Key, safe: set<string>, r: nat): nat {
    var q := |Results(idx, k)|;
    if k !in idx.blocked && MayRun(idx, k, safe) && q < r then r - q else 0
  }

  predicate Wrapped(s: State) { s.live.Some? && s.live.value.idx.Some? }

  lemma NoRequest(s: State, step: Step)
    requires Wrapped(s) && Enabled(s, step) && Within(step) && !(step.OnCall? && step.call.Execute?)
    ensures var t := Apply(s, step);
            Wrapped(t) && t.live.value.idx == s.live.value.idx && t.safe == s.safe && t.trace.execs == s.trace.execs
  {
    match step
    case OnCall(i, call) => CallEffect(s, i, call);
    case Loop(PlainEmit(w)) => PlainEmitEffect(s, w);
    case Loop(RecordWrite(w)) => RecordWriteEffect(s, w);
    case _ =>
  }

  lemma Request(s: State, i: nat)
    requires Wrapped(s) && CanCall(s, i, CallStep.Execute)
    ensures var t, c := Apply(s, OnCall(i, CallStep.Execute)), CallAt(s, i);
            var taken := Take(s.live.value.idx.value, CallKey(c), c.name in s.safe);
            && t.live.Some? && t.live.value.idx == Some(taken.0) && t.safe == s.safe
            && t.trace.execs == s.trace.execs +
                 if taken.1.RunBody? then [Exec(c.id, CallKey(c), CellAt(s, i).clean)] else []
  {
    CallEffect(s, i, CallStep.Execute);
  }

  lemma RanOneMore(execs: seq<Exec>, x: Exec, k: Key)
    ensures Ran(execs + [x], k) == Ran(execs, k) + if x.key == k then 1 else 0
  {
    assert (execs + [x])[..|execs|] == execs;
  }

  /** One step, for one key: what it takes from the queue, and the bodies that remain to be run. */
  lemma OneStep(s: State, step: Step, k: Key, r: nat)
    requires Wrapped(s) && Enabled(s, step) && Within(step)
    ensures var t, n := Apply(s, step), if Asks(s, step, k) then 1 else 0;
            && Wrapped(t) && t.safe == s.safe
            && Results(t.live.value.idx.value, k) == Remaining(Results(s.live.value.idx.value, k), n)
            && Ran(t.trace.execs, k) + BodiesFor(t.live.value.idx.value, k, s.safe, r)
               == Ran(s.trace.execs, k) + BodiesFor(s.live.value.idx.value, k, s.safe, n + r)
  {
    if step.OnCall? && step.call.Execute? {
      var c := CallAt(s, step.i);
      Request(s, step.i);
      TakeState(s.live.value.idx.value, CallKey(c), c.name in s.safe, k);
      RanOneMore(s.trace.execs, Exec(c.id, CallKey(c), CellAt(s, step.i).clean), k);
    } else {
      NoRequest(s, step);
    }
  }

  /** Over any steps of one attempt, in any interleaving of its calls: the queue of a key loses a receipt for
      every request, and real executions are the requests beyond the receipts, or none while the key is
      held back. */
  lemma {:induction false} KeyExecutions(s: State, steps: seq<Step>, k: Key)
    requires Wrapped(s) && Legal(s, steps) && SameAttempt(steps)
    ensures var t, idx, r := Run(s, steps), s.live.value.idx.value, Asked(s, steps, k);
            && Wrapped(t)
            && Results(t.live.value.idx.value, k) == Remaining(Results(idx, k), r)
            && Ran(t.trace.execs, k) == Ran(s.trace.execs, k) + BodiesFor(idx, k, s.safe, r)
    decreases |steps|
  {
    if steps != [] {
      var s' := Apply(s, steps[0]);
      OneStep(s, steps[0], k, Asked(s', steps[1..], k));
      KeyExecutions(s', steps[1..], k);
    }
  }

  /** Without an index every request of an attempt runs the tool. */
  lemma {:induction false} BareExecutions(s: State, steps: seq<Step>, k: Key)
    requires s.live.Some? && s.live.value.idx.None? && Legal(s, steps) && SameAttempt(steps)
    ensures Ran(Run(s, steps).trace.execs, k) == Ran(s.trace.execs, k) + Asked(s, steps, k)
    decreases |steps|
  {
    if steps != [] {
      BareStep(s, steps[0], k);
      BareExecutions(Apply(s, steps[0]), steps[1..], k);
    }
  }

  lemma BareStep(s: State, step: Step, k: Key)
    requires s.live.Some? && s.live.value.idx.None? && Enabled(s, step) && Within(step)
    ensures var t := Apply(s, step);
            && t.live.Some? && t.live.value.idx.None?
            && Ran(t.trace.execs, k) == Ran(s.trace.execs, k) + if Asks(s, step, k) then 1 else 0
  {
    match step
    case OnCall(i, call) =>
      CallEffect(s, i, call);
      if call.Execute? {
        RanOneMore(s.trace.execs, Exec(CallAt(s, i).id, CallKey(CallAt(s, i)), CellAt(s, i).clean), k);
      }
    case Loop(PlainEmit(w)) => PlainEmitEffect(s, w);
    case Loop(RecordWrite(w)) => RecordWriteEffect(s, w);
    case _ =>
  }

  /** A resumed attempt with tools, from any state and over any of its steps: the bodies it runs for a key
      number its requests beyond the reusable receipts the log holds for the key, or none at all when the
      tool is not RetrySafe and the log shows an uncertain call of the key. */
  lemma ResumedExecutions(s: State, resume: LaunchStep, steps: seq<Step>, k: Key)
    requires resume.Resume? && CanLaunch(s, resume) && resume.rtools != {}
    requires Legal(ApplyLaunch(s, resume), steps) && SameAttempt(steps)
    ensures var covered := T.ToolIds(T.Trim(s.cp.value));
            var r, q := Asked(ApplyLaunch(s, resume), steps, k), |Queue(s.log, |s.log|, covered, k)|;
            var mayRun := k.name in s.safe || Uncertainties(s.log, |s.log|, covered, k) == 0;
            Ran(Run(ApplyLaunch(s, resume), steps).trace.execs, k) ==
              Ran(s.trace.execs, k) + if mayRun && q < r then r - q else 0
  {
    var s' := ApplyLaunch(s, resume);
    if Empty(resume.idx) {
      assert Results(resume.idx, k) == [] && Inflight(resume.idx, k) == 0;
      BareExecutions(s', steps, k);
    } else {
      KeyExecutions(s', steps, k);
    }
  }

  /** The same in terms of log and trajectory: the receipts are those of started calls of the key that the
      rolled-back checkpoint does not answer, and an uncertain call is a start without receipt that it does
      not answer. */
  lemma ResumedBodies(s: State, resume: LaunchStep, steps: seq<Step>, k: Key) returns (ps: seq<nat>, qs: seq<nat>)
    requires resume.Resume? && CanLaunch(s, resume) && resume.rtools != {}
    requires Legal(ApplyLaunch(s, resume), steps) && SameAttempt(steps)
    ensures Surveyed(s.log, T.Trim(s.cp.value), k, ps, qs)
    ensures var r := Asked(ApplyLaunch(s, resume), steps, k);
            Ran(Run(ApplyLaunch(s, resume), steps).trace.execs, k) == Ran(s.trace.execs, k) +
              if (k.name in s.safe || qs == []) && |ps| < r then r - |ps| else 0
  {
    ps, qs := IndexExplained(resume.idx, s.log, T.Trim(s.cp.value), k);
    ResumedExecutions(s, resume, steps, k);
  }

  /** A recorded receipt that answers a call of a resumed attempt is that of a started call of the same key,
      and the trajectory the attempt resumed with does not hold the answer to that call. */
  lemma ReusedReceiptIsOrphan(s: State, resume: LaunchStep, steps: seq<Step>, i: nat, rec: Recorded) returns (p: nat)
    requires resume.Resume? && CanLaunch(s, resume)
    requires Legal(ApplyLaunch(s, resume), steps) && SameAttempt(steps)
    requires CanCall(Run(ApplyLaunch(s, resume), steps), i, CallStep.Execute)
    requires Consulted(Run(ApplyLaunch(s, resume), steps), i).1 == Reuse(rec)
    ensures Orphan(s.log, T.Trim(s.cp.value), CallKey(CallAt(Run(ApplyLaunch(s, resume), steps), i)), p)
    ensures rec == RecordOf(s.log[p]) && rec.callId == s.log[p].callId
    ensures forall m :: m in T.Trim(s.cp.value) && m.role == Tool ==> m.callId != rec.callId
  {
    var s' := ApplyLaunch(s, resume);
    var k := CallKey(CallAt(Run(s', steps), i));
    TakenFromQueue(s', steps, i, rec);
    var ps, qs := IndexExplained(resume.idx, s.log, T.Trim(s.cp.value), k);
    hide *;
    p := ps[Asked(s', steps, k)];
    assert p in ps;
    OrphanIsUnanswered(s.log, T.Trim(s.cp.value), k, p);
  }

  lemma OrphanIsUnanswered(log: seq<Event>, messages: seq<Message>, k: Key, p: nat)
    requires Orphan(log, messages, k, p)
    ensures p < |log| && forall m :: m in messages && m.role == Tool ==> m.callId != log[p].callId
  {}

  lemma TakenFromQueue(s: State, steps: seq<Step>, i: nat, rec: Recorded)
    requires s.live.Some? && Legal(s, steps) && SameAttempt(steps)
    requires CanCall(Run(s, steps), i, CallStep.Execute) && Consulted(Run(s, steps), i).1 == Reuse(rec)
    ensures var k := CallKey(CallAt(Run(s, steps), i));
            && Wrapped(s)
            && var m, queue := Asked(s, steps, k), Results(s.live.value.idx.value, k);
               m < |queue| && queue[m] == rec
  {
    if s.live.value.idx.None? {
      StaysBare(s, steps);
    } else {
      KeyExecutions(s, steps, CallKey(CallAt(Run(s, steps), i)));
    }
  }

  lemma {:induction false} StaysBare(s: State, steps: seq<Step>)
    requires s.live.Some? && s.live.value.idx.None? && Legal(s, steps) && SameAttempt(steps)
    ensures Run(s, steps).live.Some? && Run(s, steps).live.value.idx.None?
    decreases |steps|
  {
    if steps != [] {
      BareStep(s, steps[0], Key("", ""));
      StaysBare(Apply(s, steps[0]), steps[1..]);
    }
  }

  /** The m-th request of a key within a resumed attempt is answered by the m-th receipt of the key, in log
      order, while there are any, and never by a receipt afterwards. */
  lemma ReceiptsDelivered(s: State, steps: seq<Step>, i: nat)
    requires Wrapped(s) && Legal(s, steps) && SameAttempt(steps) && CanCall(Run(s, steps), i, CallStep.Execute)
    ensures var t := Run(s, steps);
            var k := CallKey(CallAt(t, i));
            var m, queue := Asked(s, steps, k), Results(s.live.value.idx.value, k);
            if m < |queue| then NextCell(t, i, CallStep.Execute) == Returned(Replayed(queue[m]))
            else !Consulted(t, i).1.Reuse?
  {
    KeyExecutions(s, steps, CallKey(CallAt(Run(s, steps), i)));
  }
}
