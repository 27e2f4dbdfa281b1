/** Recovery never repeats an uncertain side effect (runtime/resume.go). */
module ProtocolRecovery {
  import opened Types
  import opened ToolRun
  import opened Reconcile
  import opened Protocol
  import opened ProtocolEffects
  import opened ProtocolLog
  import opened ProtocolCalls
  import T = Trajectory

  /** The calls answered in the checkpoint after the rollback. */
  function Covered(s: State): set<string> {
    if s.cp.None? then {} else T.ToolIds(T.Trim(s.cp.value))
  }

  /** The attempt cannot run a body for the key: it has no tools, or its index holds the key back. */
  predicate HeldBack(a: Attempt, k: Key) {
    || a.cfg.tools == {}
    || (a.idx.Some? && (k in a.idx.value.blocked || Inflight(a.idx.value, k) > 0))
  }

  /** A started call of a tool that is not safe to retry, without receipt and without tool message. */
  predicate Unresolved(s: State, id: string, k: Key) {
    && id != "" && id in s.used && k.name !in s.safe
    && Accounted(s.log, id, k) && !HasResult(s.log, id) && id !in Covered(s)
  }

  /** ... whose key is held back by the live attempt, if any, and whose id never comes back. */
  predicate Quarantined(s: State, id: string, k: Key) {
    && s.rec.Some? && Unresolved(s, id, k)
    && (s.live.Some? ==>
          && HeldBack(s.live.value, k)
          && id !in T.ToolIds(s.live.value.messages)
          && (s.live.value.pc.InStep? ==>
                forall j :: 0 <= j < |s.live.value.pc.calls| ==> s.live.value.pc.calls[j].id != id))
  }

  // ---------------------------------------------------------------- what keeps a call quarantined

  lemma PrefixIds(a: seq<Message>, b: seq<Message>)
    requires a <= b
    ensures T.ToolIds(a) <= T.ToolIds(b)
  {
    forall id | id in T.ToolIds(a) ensures id in T.ToolIds(b) {
      var i :| 0 <= i < |a| && a[i].role == Tool && a[i].callId != "" && a[i].callId == id;
      assert b[i] == a[i];
    }
  }

  lemma AppendIds(ms: seq<Message>, m: Message)
    ensures T.ToolIds(ms + [m]) == T.ToolIds(ms) + if m.role == Tool && m.callId != "" then {m.callId} else {}
  {
    assert forall i :: 0 <= i < |ms| ==> (ms + [m])[i] == ms[i];
    assert (ms + [m])[|ms|] == m;
  }

  lemma SavedIds(ms: seq<Message>)
    ensures T.ToolIds(T.Trim(ms)) <= T.ToolIds(ms)
  {
    T.TrimIsPrefix(ms, |ms|);
    PrefixIds(T.Trim(ms), ms);
  }

  lemma UnresolvedEmit(s: State, e: Event, w: Write, id: string, k: Key)
    requires s.live.Some? && Unresolved(s, id, k) && e.callId != id
    ensures Unresolved(Emit(s, e, w), id, k)
  {
    var e' := e.(sq := s.live.value.sq + 1);
    GrownLog(s.log, e', id, k.name);
    AppendedFacts(s.log, e', id);
  }

  lemma UnresolvedFrame(s: State, t: State, id: string, k: Key)
    requires Unresolved(s, id, k) && t.log == s.log && s.used <= t.used && t.safe == s.safe
    requires t.cp == s.cp ||
             (s.live.Some? && id !in T.ToolIds(s.live.value.messages) && t.cp == Some(s.live.value.messages))
    ensures Unresolved(t, id, k)
  {
    if t.cp.Some? { SavedIds(t.cp.value); }
  }

  /** Resuming rebuilds the index from a log that still shows the call as started without receipt. */
  lemma ResumeHoldsBack(s: State, idx: Index, id: string, k: Key)
    requires Unresolved(s, id, k) && Reflects(idx, s.log, Covered(s))
    ensures Inflight(idx, k) > 0 && !Empty(idx)
  {
    var p :| 0 <= p < |s.log| && s.log[p].typ == ToolStarted && s.log[p].callId == id && s.log[p].toolName == k.name;
    assert Uncertain(s.log, s.log[p], Covered(s));
    assert EventKey(s.log, s.log[p]) == k;
    UncertainIsCounted(s.log, |s.log|, Covered(s), p);
    assert k in idx.inflight;
  }

  lemma QuarantineCall(s: State, i: nat, step: CallStep, id: string, k: Key)
    requires CallsInv(s) && Quarantined(s, id, k) && CanCall(s, i, step)
    ensures var t := ApplyCall(s, i, step);
            && Quarantined(t, id, k)
            && (t.trace.execs == s.trace.execs ||
                (|t.trace.execs| == |s.trace.execs| + 1 && t.trace.execs[..|s.trace.execs|] == s.trace.execs
                 && t.trace.execs[|s.trace.execs|].key != k))
  {
    CallEffect(s, i, step);
    var t, c := ApplyCall(s, i, step), CallAt(s, i);
    assert c.id != id;
    assert CellFacts(s.log, s.live.value, c, CellAt(s, i));
    if step.Move? {
      MoveFacts(s, i, step.choice, step.mw);
      var e := CellEmission(s, i, step.choice, step.mw).0;
      UnresolvedEmit(s, e, step.mw, id, k);
      UnresolvedFrame(Emit(s, e, step.mw), t, id, k);
    } else {
      UnresolvedFrame(s, t, id, k);
      if step.Execute? && s.live.value.idx.Some? {
        TakeState(s.live.value.idx.value, CallKey(c), c.name in s.safe, k);
      }
    }
  }

  lemma QuarantinePlainEmit(s: State, w: Write, id: string, k: Key)
    requires Quarantined(s, id, k) && CanLoop(s, PlainEmit(w))
    ensures var t := LoopEmit(s, w); Quarantined(t, id, k) && t.trace.execs == s.trace.execs
  {
    var e := PlannedEvent(s.live.value);
    UnresolvedEmit(s, e, w, id, k);
    PlainEmitEffect(s, w);
    UnresolvedFrame(Emit(s, e, w), LoopEmit(s, w), id, k);
  }

  lemma QuarantineModel(s: State, step: LoopStep, id: string, k: Key)
    requires CallsInv(s) && Quarantined(s, id, k) && CanLoop(s, step)
    requires step.ModelFails? || step.ModelAnswers? || step.ModelCalls?
    ensures var t := ApplyLoop(s, step); Quarantined(t, id, k) && t.trace.execs == s.trace.execs
  {
    match step {
      case ModelFails(partial) => AppendIds(s.live.value.messages, AssistantMessage(partial, []));
      case ModelAnswers(answer) => AppendIds(s.live.value.messages, AssistantMessage(answer, []));
      case ModelCalls(text, calls) => AppendIds(s.live.value.messages, AssistantMessage(text, calls));
    }
    UnresolvedFrame(s, ApplyLoop(s, step), id, k);
  }

  lemma QuarantineCollect(s: State, w: Write, id: string, k: Key)
    requires CallsInv(s) && Quarantined(s, id, k) && CanCollect(s)
    ensures var t := CollectNext(s, w); Quarantined(t, id, k) && t.trace.execs == s.trace.execs
  {
    var pc, t := s.live.value.pc, CollectNext(s, w);
    assert CellFacts(s.log, s.live.value, pc.calls[pc.collected], pc.cells[pc.collected]);
    AppendIds(s.live.value.messages, pc.cells[pc.collected].msg);
    UnresolvedFrame(s.(live := Some(s.live.value.(messages := t.live.value.messages))), t, id, k);
  }

  lemma QuarantineRecord(s: State, w: Write, id: string, k: Key)
    requires Quarantined(s, id, k) && CanLoop(s, RecordWrite(w))
    ensures Quarantined(WriteRecord(s, w), id, k) && WriteRecord(s, w).trace.execs == s.trace.execs
  {
    RecordWriteEffect(s, w);
    hide WriteRecord;
    UnresolvedFrame(s, WriteRecord(s, w), id, k);
  }

  lemma QuarantineLoop(s: State, step: LoopStep, id: string, k: Key)
    requires CallsInv(s) && Quarantined(s, id, k) && CanLoop(s, step)
    ensures var t := ApplyLoop(s, step); Quarantined(t, id, k) && t.trace.execs == s.trace.execs
  {
    match step
    case PlainEmit(w) => QuarantinePlainEmit(s, w, id, k);
    case Delta(w) => UnresolvedEmit(s, PlainEvent(ModelDelta), w, id, k);
    case ModelFails(_) => QuarantineModel(s, step, id, k);
    case ModelAnswers(_) => QuarantineModel(s, step, id, k);
    case ModelCalls(_, _) => QuarantineModel(s, step, id, k);
    case Collect(w) => QuarantineCollect(s, w, id, k);
    case RecordWrite(w) => QuarantineRecord(s, w, id, k);
    case _ => UnresolvedFrame(s, ApplyLoop(s, step), id, k);
  }

  lemma QuarantineStep(s: State, step: Step, id: string, k: Key)
    requires CallsInv(s) && Quarantined(s, id, k) && Enabled(s, step)
    ensures var t := Apply(s, step);
            && Quarantined(t, id, k)
            && (t.trace.execs == s.trace.execs ||
                (|t.trace.execs| == |s.trace.execs| + 1 && t.trace.execs[..|s.trace.execs|] == s.trace.execs
                 && t.trace.execs[|s.trace.execs|].key != k))
  {
    match step
    case Launch(Resume(_, _, _, _, idx)) => ResumeHoldsBack(s, idx, id, k); UnresolvedFrame(s, Apply(s, step), id, k);
    case Launch(_) =>
    case Loop(loop) => QuarantineLoop(s, loop, id, k);
    case OnCall(i, call) => QuarantineCall(s, i, call, id, k);
    case Outside(_) => UnresolvedFrame(s, Apply(s, step), id, k);
  }

  lemma {:induction false} QuarantineRun(s: State, steps: seq<Step>, id: string, k: Key)
    requires CallsInv(s) && Quarantined(s, id, k) && Legal(s, steps)
    ensures var t := Run(s, steps);
            |s.trace.execs| <= |t.trace.execs|
            && forall j :: |s.trace.execs| <= j < |t.trace.execs| ==> t.trace.execs[j].key != k
    decreases |steps|
  {
    hide Quarantined, CallsInv;
    if steps != [] {
      QuarantineStep(s, steps[0], id, k);
      CallsInvStep(s, steps[0]);
      QuarantineRun(Apply(s, steps[0]), steps[1..], id, k);
      ExecsAreAppended(Apply(s, steps[0]), steps[1..]);
    }
  }

  // ---------------------------------------------------------------- reachable states

  lemma ExecsStepPrefix(s: State, step: Step)
    requires Enabled(s, step)
    ensures s.trace.execs <= Apply(s, step).trace.execs
  {
    match step
    case OnCall(i, call) => CallEffect(s, i, call);
    case Loop(PlainEmit(w)) => PlainEmitEffect(s, w);
    case _ =>
  }

  lemma {:induction false} ExecsAreAppended(s: State, steps: seq<Step>)
    requires Legal(s, steps)
    ensures s.trace.execs <= Run(s, steps).trace.execs
    decreases |steps|
  {
    if steps != [] {
      ExecsStepPrefix(s, steps[0]);
      ExecsAreAppended(Apply(s, steps[0]), steps[1..]);
    }
  }

  lemma {:induction false} InvRun(s: State, steps: seq<Step>)
    requires Legal(s, steps) && Registered(s) && SeqInv(s) && CallsInv(s) && ExecsInv(s)
    ensures var t := Run(s, steps); Registered(t) && CallsInv(t) && ExecsInv(t)
    decreases |steps|
  {
    if steps != [] {
      SeqStep(s, steps[0]);
      CallsInvStep(s, steps[0]);
      ExecsStep(s, steps[0]);
      InvRun(Apply(s, steps[0]), steps[1..]);
    }
  }

  lemma ReachableInv(s: State)
    requires Reachable(s)
    ensures Registered(s) && CallsInv(s) && ExecsInv(s)
  {
    var safe: set<string>, steps: seq<Step> :| Legal(Init(safe), steps) && Run(Init(safe), steps) == s;
    InvRun(Init(safe), steps);
  }

  /** Take any reachable state between two attempts, after any crashes. If the body of a call of a tool
      that is not RetrySafe ran, and the call has neither a stored receipt nor a tool message in the
      rolled-back checkpoint, then however the run goes on, with any further attempts, crashes and
      recoveries, no body ever runs again for that tool name and those arguments. */
  lemma UncertainCallNeverRerun(s: State, steps: seq<Step>, x: Exec)
    requires Reachable(s) && s.live.None? && Legal(s, steps)
    requires x in s.trace.execs && x.key.name !in s.safe
    requires !HasResult(s.log, x.callId) && x.callId !in Covered(s)
    ensures s.trace.execs <= Run(s, steps).trace.execs
    ensures forall y :: y in Run(s, steps).trace.execs[|s.trace.execs|..] ==> y.key != x.key
  {
    ReachableInv(s);
    QuarantineRun(s, steps, x.callId, x.key);
    ExecsAreAppended(s, steps);
  }

  /** A body runs only after its proposal and start are stored, and only when no append or save had
      failed before its start check. */
  lemma BodiesAreAccountedFor(s: State, x: Exec)
    requires Reachable(s) && x in s.trace.execs
    ensures x.clean && Accounted(s.log, x.callId, x.key)
  {
    ReachableInv(s);
  }
}
