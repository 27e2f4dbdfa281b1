/** Every prompt sent to the model is protocol-closed (agent/agent.go, runtime/runtime.go). */
module ProtocolTrajectory {
  import opened Types
  import opened Protocol
  import opened ProtocolEffects
  import opened ProtocolLog
  import opened ProtocolCalls
  import opened ProtocolRecovery
  import T = Trajectory

  /** The trajectory of a live attempt: closed between steps, closed plus one segment inside a step. */
  predicate LiveShape(a: Attempt) {
    match a.pc
    case InStep(base, calls, cells, collected) =>
      && |a.messages| == |base| + 1 + collected
      && a.messages[..|base|] == base && T.Closed(base)
      && T.Segment(a.messages[|base|..]) && a.messages[|base|].calls == calls
    case Finale => true
    case RunnerDone(_) => true
    case Terminal(_) => true
    case Downgrade => true
    case Leaving(_) => true
    case _ => T.Closed(a.messages)
  }

  ghost predicate TrajectoryInv(s: State) {
    s.trace.closedInput ==>
      && (s.cp.Some? && T.NoZero(s.cp.value) ==> T.NearlyClosed(s.cp.value))
      && (s.live.Some? && T.NoZero(s.live.value.messages) ==> LiveShape(s.live.value))
      && (forall p :: p in s.trace.prompts && T.NoZero(p) ==> T.Closed(p))
  }

  lemma ClosedIsNearlyClosed(ms: seq<Message>)
    requires T.Closed(ms)
    ensures T.NearlyClosed(ms)
  {
    assert ms[..|ms|] == ms && ms[|ms|..] == [];
  }

  lemma TrajectoryFrame(s: State, t: State)
    requires TrajectoryInv(s) && t.cp == s.cp && t.trace.prompts == s.trace.prompts
    requires t.trace.closedInput ==> s.trace.closedInput
    requires t.live.Some? ==>
               && s.live.Some? && t.live.value.messages == s.live.value.messages
               && (LiveShape(s.live.value) ==> LiveShape(t.live.value))
    ensures TrajectoryInv(t)
  {}

  /** An answer to the next call extends the segment at the end of a trajectory. */
  lemma SegmentGrows(base: seq<Message>, ms: seq<Message>, c: Call, msg: Message)
    requires |base| < |ms| && ms[..|base|] == base && T.Closed(base) && T.Segment(ms[|base|..])
    requires |ms| - |base| - 1 < |ms[|base|].calls| && c == ms[|base|].calls[|ms| - |base| - 1] && AnswerOf(c, msg)
    ensures (ms + [msg])[..|base|] == base && T.Segment((ms + [msg])[|base|..]) && T.NearlyClosed(ms + [msg])
  {
    var n, tail := |base|, ms[|base|..];
    assert (ms + [msg])[n..] == tail + [msg];
    assert (tail + [msg])[1..] == tail[1..] + [msg];
    assert (ms + [msg])[..n] == base;
  }

  lemma NoZeroPrefix(ms: seq<Message>, m: Message)
    requires T.NoZero(ms + [m])
    ensures T.NoZero(ms) && m.role != NoRole
  {
    assert (ms + [m])[|ms|] == m;
    assert forall i :: 0 <= i < |ms| ==> ms[i] == (ms + [m])[i];
  }

  lemma CollectedShape(s: State, w: Write)
    requires CallsInv(s) && TrajectoryInv(s) && CanCollect(s) && s.trace.closedInput
    requires T.NoZero(CollectNext(s, w).live.value.messages)
    ensures var b := CollectNext(s, w).live.value; LiveShape(b) && T.NearlyClosed(b.messages)
  {
    var a := s.live.value;
    var pc, msg := a.pc, a.pc.cells[a.pc.collected].msg;
    NoZeroPrefix(a.messages, msg);
    assert AnswerOf(pc.calls[pc.collected], msg) by {
      assert CellFacts(s.log, a, pc.calls[pc.collected], pc.cells[pc.collected]);
    }
    SegmentGrows(pc.base, a.messages, pc.calls[pc.collected], msg);
  }

  lemma TrajectoryCollect(s: State, w: Write)
    requires CallsInv(s) && TrajectoryInv(s) && CanCollect(s)
    ensures TrajectoryInv(CollectNext(s, w))
  {
    hide CallsInv, LiveShape, T.NearlyClosed, T.Closed;
    if s.trace.closedInput && T.NoZero(CollectNext(s, w).live.value.messages) { CollectedShape(s, w); }
  }

  lemma TrajectoryComplete(s: State)
    requires TrajectoryInv(s) && CanComplete(s) && CallsInv(s)
    ensures TrajectoryInv(Goto(s, StepSave))
  {
    var a := s.live.value;
    if s.trace.closedInput && T.NoZero(a.messages) {
      T.AnsweredSegmentClosed(a.pc.base, a.messages[|a.pc.base|..]);
      assert a.pc.base + a.messages[|a.pc.base|..] == a.messages;
    }
  }

  lemma TrajectoryBegin(s: State, text: Text, calls: seq<Call>)
    requires TrajectoryInv(s) && CanLoop(s, ModelCalls(text, calls))
    ensures TrajectoryInv(BeginStep(s, text, calls))
  {
    var t, a := BeginStep(s, text, calls), s.live.value;
    var ms := t.live.value.messages;
    if T.NoZero(ms) { NoZeroPrefix(a.messages, AssistantMessage(text, calls)); }
    assert ms[|a.messages|..] == [AssistantMessage(text, calls)];
    assert ms[..|a.messages|] == a.messages;
  }

  lemma TrajectoryModel(s: State, step: LoopStep)
    requires TrajectoryInv(s) && CanLoop(s, step)
    requires step.CallModel? || step.ModelFails? || step.ModelAnswers? || step.CheckpointWrite?
    ensures TrajectoryInv(ApplyLoop(s, step))
  {
    match step
    case CheckpointWrite(w) => if T.Closed(s.live.value.messages) { ClosedIsNearlyClosed(s.live.value.messages); }
    case CallModel =>
    case _ =>
  }

  lemma TrajectoryEmits(s: State, w: Write)
    requires TrajectoryInv(s) && CanLoop(s, PlainEmit(w))
    ensures TrajectoryInv(LoopEmit(s, w))
  {
    PlainEmitEffect(s, w);
    hide LoopEmit, TrajectoryInv;
    TrajectoryFrame(s, LoopEmit(s, w));
  }

  lemma TrajectoryRecords(s: State, w: Write)
    requires TrajectoryInv(s) && CanLoop(s, RecordWrite(w))
    ensures TrajectoryInv(WriteRecord(s, w))
  {
    RecordWriteEffect(s, w);
    hide WriteRecord, TrajectoryInv;
    TrajectoryFrame(s, WriteRecord(s, w));
  }

  lemma TrajectoryLoop(s: State, step: LoopStep)
    requires CallsInv(s) && TrajectoryInv(s) && CanLoop(s, step)
    ensures TrajectoryInv(ApplyLoop(s, step))
  {
    match step
    case PlainEmit(w) => TrajectoryEmits(s, w);
    case RecordWrite(w) => TrajectoryRecords(s, w);
    case CheckpointWrite(_) => TrajectoryModel(s, step);
    case Collect(w) => TrajectoryCollect(s, w);
    case StepCompletes => TrajectoryComplete(s);
    case ModelCalls(text, calls) => TrajectoryBegin(s, text, calls);
    case CallModel => TrajectoryModel(s, step);
    case ModelFails(_) => TrajectoryModel(s, step);
    case ModelAnswers(_) => TrajectoryModel(s, step);
    case _ => TrajectoryFrame(s, ApplyLoop(s, step));
  }

  lemma TrajectoryResume(s: State, step: LaunchStep)
    requires TrajectoryInv(s) && CanLaunch(s, step) && step.Resume?
    ensures TrajectoryInv(ApplyLaunch(s, step))
  {
    var ms := s.cp.value;
    T.TrimKeepsZero(ms, |ms|);
    if T.NearlyClosed(ms) { T.TrimLongestClosed(ms); }
  }

  lemma TrajectoryStep(s: State, step: Step)
    requires Registered(s) && CallsInv(s) && TrajectoryInv(s) && Enabled(s, step)
    ensures TrajectoryInv(Apply(s, step))
  {
    match step
    case Launch(Resume(_, _, _, _, _)) => TrajectoryResume(s, step.launch);
    case Launch(_) =>
    case Loop(loop) => TrajectoryLoop(s, loop);
    case OnCall(i, call) =>
      CallEffect(s, i, call);
      TrajectoryFrame(s, Apply(s, step));
    case Outside(_) => TrajectoryFrame(s, Apply(s, step));
  }

  lemma {:induction false} TrajectoryRun(s: State, steps: seq<Step>)
    requires Legal(s, steps) && Registered(s) && SeqInv(s) && CallsInv(s) && TrajectoryInv(s)
    ensures TrajectoryInv(Run(s, steps))
    decreases |steps|
  {
    if steps != [] {
      SeqStep(s, steps[0]);
      CallsInvStep(s, steps[0]);
      TrajectoryStep(s, steps[0]);
      TrajectoryRun(Apply(s, steps[0]), steps[1..]);
    }
  }

  /** In every reachable state of a run with closed initial input, a prompt sent to the model is
      closed exactly when it holds no zero message of an aborted parallel call. */
  lemma PromptClosedIffNoAbort(s: State, prompt: seq<Message>)
    requires Reachable(s) && s.trace.closedInput && prompt in s.trace.prompts
    ensures T.Closed(prompt) <==> T.NoZero(prompt)
  {
    var safe: set<string>, steps: seq<Step> :| Legal(Init(safe), steps) && Run(Init(safe), steps) == s;
    TrajectoryRun(Init(safe), steps);
    if T.Closed(prompt) { T.ClosedHasNoZero(prompt); }
  }
}
