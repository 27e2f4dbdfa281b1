/** When prompts stay closed: without an aborted parallel call they always do, with one they may not
    (agent/agent.go: Run and execCall, runtime/resume.go: trimDangling). */
module ProtocolAborts {
  import opened Types
  import opened ToolRun
  import opened Reconcile
  import opened Protocol
  import opened ProtocolEffects
  import opened ProtocolLog
  import opened ProtocolCalls
  import opened ProtocolScenes
  import opened ProtocolTrajectory
  import T = Trajectory

  // ---------------------------------------------------------------- runs without an aborted call

  /** The step appends the zero message of a call that was aborted at its start check. */
  predicate CollectsAbort(s: State, step: Step) {
    && step.Loop? && step.loop.Collect? && CanCollect(s)
    && s.live.value.pc.cells[s.live.value.pc.collected].msg == ZERO_MESSAGE
  }

  ghost predicate NoAbortCollected(s: State, steps: seq<Step>)
    requires Legal(s, steps)
    decreases |steps|
  {
    steps == [] || (!CollectsAbort(s, steps[0]) && NoAbortCollected(Apply(s, steps[0]), steps[1..]))
  }

  predicate NoZeroInv(s: State) {
    s.trace.closedInput ==>
      && (s.cp.Some? ==> T.NoZero(s.cp.value))
      && (s.live.Some? ==> T.NoZero(s.live.value.messages))
      && (forall p :: p in s.trace.prompts ==> T.NoZero(p))
  }

  lemma NoZeroFrame(s: State, t: State)
    requires NoZeroInv(s) && t.trace.prompts == s.trace.prompts && (t.trace.closedInput ==> s.trace.closedInput)
    requires t.cp == s.cp || (s.live.Some? && t.cp == Some(s.live.value.messages))
    requires t.live.Some? ==> s.live.Some? && t.live.value.messages == s.live.value.messages
    ensures NoZeroInv(t)
  {}

  lemma NoZeroCollect(s: State, w: Write)
    requires CallsInv(s) && NoZeroInv(s) && CanCollect(s) && !CollectsAbort(s, Loop(Collect(w)))
    ensures NoZeroInv(CollectNext(s, w))
  {
    var pc := s.live.value.pc;
    assert CellFacts(s.log, s.live.value, pc.calls[pc.collected], pc.cells[pc.collected]);
  }

  lemma NoZeroLoop(s: State, step: LoopStep)
    requires CallsInv(s) && NoZeroInv(s) && CanLoop(s, step) && !CollectsAbort(s, Loop(step))
    ensures NoZeroInv(ApplyLoop(s, step))
  {
    match step
    case Collect(w) => NoZeroCollect(s, w);
    case PlainEmit(w) => PlainEmitEffect(s, w); NoZeroFrame(s, ApplyLoop(s, step));
    case RecordWrite(w) => RecordWriteEffect(s, w); NoZeroFrame(s, ApplyLoop(s, step));
    case CallModel =>
    case ModelFails(_) =>
    case ModelAnswers(_) =>
    case ModelCalls(_, _) =>
    case _ => NoZeroFrame(s, ApplyLoop(s, step));
  }

  lemma NoZeroStep(s: State, step: Step)
    requires Registered(s) && CallsInv(s) && NoZeroInv(s) && Enabled(s, step) && !CollectsAbort(s, step)
    ensures NoZeroInv(Apply(s, step))
  {
    match step
    case Launch(Resume(_, _, _, _, _)) => T.TrimIsPrefix(s.cp.value, |s.cp.value|);
    case Launch(StartRun(initial, _, _, _, _)) => if T.Closed(initial) { T.ClosedHasNoZero(initial); }
    case Loop(loop) => NoZeroLoop(s, loop);
    case OnCall(i, call) => CallEffect(s, i, call); NoZeroFrame(s, Apply(s, step));
    case Outside(_) => NoZeroFrame(s, Apply(s, step));
  }

  lemma {:induction false} NoZeroRun(s: State, steps: seq<Step>)
    requires Legal(s, steps) && NoAbortCollected(s, steps)
    requires Registered(s) && SeqInv(s) && CallsInv(s) && NoZeroInv(s)
    ensures NoZeroInv(Run(s, steps))
    decreases |steps|
  {
    if steps != [] {
      SeqStep(s, steps[0]);
      CallsInvStep(s, steps[0]);
      NoZeroStep(s, steps[0]);
      NoZeroRun(Apply(s, steps[0]), steps[1..]);
    }
  }

  /** A run from closed inputs in which no step collects a call aborted at its start check sends only
      closed prompts, through any crashes, failed writes, rejected or interrupted approvals and resumes. */
  lemma PromptsClosedWithoutAborts(safe: set<string>, steps: seq<Step>, prompt: seq<Message>)
    requires Legal(Init(safe), steps) && NoAbortCollected(Init(safe), steps)
    requires Run(Init(safe), steps).trace.closedInput && prompt in Run(Init(safe), steps).trace.prompts
    ensures T.Closed(prompt)
  {
    NoZeroRun(Init(safe), steps);
    PromptClosedIffNoAbort(Run(Init(safe), steps), prompt);
  }

  // ---------------------------------------------------------------- sequential attempts

  predicate SequentialLaunch(step: Step) {
    match step
    case Launch(StartRun(_, _, parallel, _, _)) => !parallel
    case Launch(Resume(_, parallel, _, _, _)) => !parallel
    case _ => true
  }

  predicate SequentialLive(s: State) { s.live.Some? ==> !s.live.value.cfg.parallel }

  lemma SequentialStep(s: State, step: Step)
    requires SequentialLive(s) && Enabled(s, step) && SequentialLaunch(step) && CallsInv(s)
    ensures SequentialLive(Apply(s, step)) && !CollectsAbort(s, step)
  {
    match step
    case Loop(PlainEmit(w)) => PlainEmitEffect(s, w);
    case Loop(RecordWrite(w)) => RecordWriteEffect(s, w);
    case Loop(Collect(w)) =>
      var pc := s.live.value.pc;
      assert CellFacts(s.log, s.live.value, pc.calls[pc.collected], pc.cells[pc.collected]);
    case OnCall(i, call) => CallEffect(s, i, call);
    case _ =>
  }

  lemma {:induction false} SequentialRun(s: State, steps: seq<Step>)
    requires Legal(s, steps) && SequentialLive(s) && CallsInv(s)
    requires forall i :: 0 <= i < |steps| ==> SequentialLaunch(steps[i])
    ensures NoAbortCollected(s, steps)
    decreases |steps|
  {
    if steps != [] {
      SequentialStep(s, steps[0]);
      CallsInvStep(s, steps[0]);
      SequentialRun(Apply(s, steps[0]), steps[1..]);
    }
  }

  /** When every attempt is configured for sequential execution, every prompt is closed. */
  lemma SequentialPromptsClosed(safe: set<string>, steps: seq<Step>, prompt: seq<Message>)
    requires Legal(Init(safe), steps) && forall i :: 0 <= i < |steps| ==> SequentialLaunch(steps[i])
    requires Run(Init(safe), steps).trace.closedInput && prompt in Run(Init(safe), steps).trace.prompts
    ensures T.Closed(prompt)
  {
    SequentialRun(Init(safe), steps);
    PromptsClosedWithoutAborts(safe, steps, prompt);
  }

  // ---------------------------------------------------------------- an aborted parallel call

  const FIRST := Call("a", "none", "{}")
  const SECOND := Call("b", "t", "{}")
  const BOTH := AssistantMessage([], [FIRST, SECOND])
  const REFUSED := ErrorMessage(FIRST, UNKNOWN)
  const NO_ANSWER := [ASK, BOTH, REFUSED, ZERO_MESSAGE]

  const WIDE := Config(false, {"t"}, true, 6, 100)

  function Parallel(pc: Pc, messages: seq<Message>, sq: int, canceled: bool): Attempt {
    FirstAttempt(WIDE, pc, messages, sq, canceled)
  }

  function Stage(log: seq<Event>, cp: seq<Message>, a: Attempt, used: set<string>): State {
    State(log, Some(cp), Some(Record(Running, None, 0)), Some(a), used, {}, Trace([], [[ASK]], [], true))
  }

  function StepOf(first: Cell, second: Cell): Pc { InStep([ASK], [FIRST, SECOND], [first, second], 0) }

  const LOG := OPENED + [Numbered(ErrorEvent(FIRST, UNKNOWN), 2)]

  lemma BothIds()
    ensures (set i | 0 <= i < |[FIRST, SECOND]| :: [FIRST, SECOND][i].id) == {"a", "b"}
  {
    assert [FIRST, SECOND][0].id == "a" && [FIRST, SECOND][1].id == "b";
  }

  lemma Calling() returns (s: State)
    ensures Reachable(s)
    ensures s == Stage(OPENED, [ASK], Parallel(StepOf(Idle, Idle), [ASK, BOTH], 1, false), {"a", "b"})
  {
    var s6 := Prompting(WIDE);
    var step := Loop(ModelCalls([], [FIRST, SECOND]));
    Reach(s6, step);
    s := Apply(s6, step);
    BothIds();
    assert s.live.value.pc.cells == [Idle, Idle];
    assert s.live.value.messages == [ASK, BOTH];
    assert s.live.value == Parallel(StepOf(Idle, Idle), [ASK, BOTH], 1, false);
    assert s.used == {"a", "b"};
  }

  lemma Refusing() returns (s: State)
    ensures Reachable(s)
    ensures s == Stage(LOG, [ASK], Parallel(StepOf(Done(REFUSED), Idle), [ASK, BOTH], 2, false), {"a", "b"})
  {
    var s7 := Calling();
    var step := OnCall(0, Move(Reject(UNKNOWN), Stored));
    Reach(s7, step);
    s := Apply(s7, step);
    assert s.live.value.pc.cells == [Done(REFUSED), Idle];
  }

  /** The second call is proposed and logged as started, then the run is cancelled: its start check
      aborts it with the zero message. */
  lemma Starting() returns (s: State, log: seq<Event>)
    ensures Reachable(s)
    ensures s == Stage(log, [ASK], Parallel(StepOf(Done(REFUSED), StartLogged), [ASK, BOTH], 4, false), {"a", "b"})
  {
    var s8 := Refusing();
    var move := OnCall(1, Move(Proceed, Stored));
    Reach(s8, move);
    var s9 := Apply(s8, move);
    Reach(s9, move);
    s := Apply(s9, move);
    log := s.log;
    assert s.live.value.pc.cells == [Done(REFUSED), StartLogged];
  }

  lemma Aborting() returns (s: State, log: seq<Event>)
    ensures Reachable(s)
    ensures s == Stage(log, [ASK], Parallel(StepOf(Done(REFUSED), Aborted(ZERO_MESSAGE)), [ASK, BOTH], 4, true),
                       {"a", "b"})
  {
    var s10, l := Starting();
    Reach(s10, Outside(Cancel));
    var s11 := Apply(s10, Outside(Cancel));
    Reach(s11, OnCall(1, Check));
    s, log := Apply(s11, OnCall(1, Check)), l;
    assert s.live.value.pc.cells == [Done(REFUSED), Aborted(ZERO_MESSAGE)];
  }

  /** Both outcomes are written back and checkpointed before the step gives up. */
  lemma Collecting() returns (s: State, log: seq<Event>)
    ensures Reachable(s)
    ensures s == Stage(log, NO_ANSWER, Parallel(RunnerDone(false), NO_ANSWER, 4, true), {"a", "b"})
  {
    var s12, l := Aborting();
    Reach(s12, Loop(Collect(Stored)));
    var s13 := Apply(s12, Loop(Collect(Stored)));
    Reach(s13, Loop(Collect(Stored)));
    var s14 := Apply(s13, Loop(Collect(Stored)));
    assert s14.live.value.messages == NO_ANSWER;
    assert s14.live.value.pc.cells[1].Aborted?;
    Reach(s14, Loop(StepAborts));
    s, log := Apply(s14, Loop(StepAborts)), l;
  }

  lemma Finishing() returns (s: State)
    ensures Reachable(s) && s.live.None? && s.cp == Some(NO_ANSWER) && s.trace.closedInput
    ensures s.rec == Some(Record(Canceled, None, 0))
  {
    var s15, _ := Collecting();
    Reach(s15, Loop(RecordWrite(Stored)));
    var s16 := Apply(s15, Loop(RecordWrite(Stored)));
    Reach(s16, Loop(PlainEmit(Stored)));
    var s17 := Apply(s16, Loop(PlainEmit(Stored)));
    Reach(s17, Loop(Leave));
    s := Apply(s17, Loop(Leave));
  }

  lemma Resuming() returns (s: State)
    ensures Reachable(s) && AtPc(s, MarkRunning) && s.trace.closedInput && s.rec.Some?
    ensures s.live.value.messages == NO_ANSWER && s.live.value.cfg == Config(true, {}, false, 6, 100)
    ensures !s.live.value.canceled && s.live.value.step == 1
  {
    var s18 := Finishing();
    assert T.Trim(NO_ANSWER) == NO_ANSWER;
    var idx := IndexExists(s18.log, |s18.log|, T.ToolIds(NO_ANSWER));
    var resume := Launch(Resume({}, false, 6, 100, idx));
    Reach(s18, resume);
    var s19 := Apply(s18, resume);
    Reach(s19, Loop(RecordWrite(Stored)));
    s := Apply(s19, Loop(RecordWrite(Stored)));
  }

  lemma Reopening() returns (s: State)
    ensures Reachable(s) && s.trace.closedInput && AtPc(s, Announcing) && s.live.value.messages == NO_ANSWER
    ensures !s.live.value.canceled && s.live.value.step == 1 && s.live.value.cfg.maxSteps == 6
  {
    var s20 := Resuming();
    Reach(s20, Loop(RecordWrite(Stored)));
    s := Apply(s20, Loop(RecordWrite(Stored)));
  }

  /** A reachable run from a closed input whose resumed attempt sends a prompt that is not closed: the
      call logged as started has no answer, a zero message stands in its place. */
  lemma AbortedCallBreaksPrompt() returns (s: State)
    ensures Reachable(s) && s.trace.closedInput
    ensures NO_ANSWER in s.trace.prompts && !T.Closed(NO_ANSWER)
  {
    var s21 := Reopening();
    Reach(s21, Loop(PlainEmit(Stored)));
    var s22 := Apply(s21, Loop(PlainEmit(Stored)));
    Reach(s22, Loop(PlainEmit(Stored)));
    var s23 := Apply(s22, Loop(PlainEmit(Stored)));
    Reach(s23, Loop(CallModel));
    s := Apply(s23, Loop(CallModel));
    assert NO_ANSWER[3].role == NoRole;
    if T.Closed(NO_ANSWER) { T.ClosedHasNoZero(NO_ANSWER); }
  }
}
