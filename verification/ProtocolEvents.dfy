/** What the events an attempt stores say about it (runtime/runtime.go, agent/agent.go). */
module ProtocolEvents {
  import opened Types
  import opened Protocol
  import opened ProtocolEffects
  import opened ProtocolLog

  /** How often a type of event occurs. */
  function Times(log: seq<Event>, typ: EventType): nat {
    if log == [] then 0 else Times(log[..|log| - 1], typ) + if log[|log| - 1].typ == typ then 1 else 0
  }

  lemma TimesNext(log: seq<Event>, e: Event, typ: EventType)
    ensures Times(log + [e], typ) == Times(log, typ) + if e.typ == typ then 1 else 0
  {
    assert (log + [e])[..|log|] == log;
  }

  // ---------------------------------------------------------------- terminal events

  /** An attempt has stored no terminal event before its record was final. The one it may have stored then
      is the last event of the log, and it is run_done exactly when the runner ended without an error and
      no append or save had failed; otherwise it is run_error. */
  predicate TerminalsInv(log: seq<Event>, a: Attempt) {
    && a.past.logStart <= |log|
    && (forall p :: a.past.logStart <= p < |log| && (log[p].typ == RunDone || log[p].typ == RunError) ==>
          && p == |log| - 1 && (a.pc.Downgrade? || a.pc.Leaving?)
          && (log[p].typ == RunDone <==> a.past.won))
    && (a.pc.Terminal? ==> (a.pc.ok <==> a.past.won))
  }

  // ---------------------------------------------------------------- the events of an attempt

  /** Nothing is emitted yet. */
  predicate Registering(pc: Pc) {
    pc.Creating? || pc.Resetting? || pc.MarkRunning? || pc.FirstSave? || pc.Announcing?
  }

  /** The runner is at work. */
  predicate AtWork(pc: Pc) {
    pc.Top? || pc.InModel? || pc.Finale? || pc.InStep? || pc.StepSave? || pc.StepRecord? || pc.StepEmit?
  }

  predicate Closing(pc: Pc) { pc == RunnerDone(true) || pc.Terminal? || pc.Downgrade? || pc.Leaving? }

  /** It begins with run_resumed, exactly if it is a resumed one, then run_start, and neither comes again. */
  predicate Opens(log: seq<Event>, a: Attempt) {
    var n, first := a.past.logStart, a.past.logStart + if a.cfg.resumed then 1 else 0;
    && n <= |log|
    && (Registering(a.pc) ==> |log| == n) && (a.pc.Opening? ==> |log| == first)
    && (AtWork(a.pc) || a.pc.RunnerDone? || a.pc.Terminal? ==> first < |log|)
    && (forall p :: n <= p < |log| ==>
          && (log[p].typ == RunResumed <==> a.cfg.resumed && p == n)
          && (log[p].typ == RunStart <==> p == first))
  }

  /** It holds a final answer only when the runner has ended, with at most the terminal event behind it; and
      always when the runner ended without an error. */
  predicate Closes(log: seq<Event>, a: Attempt) {
    && a.past.logStart <= |log|
    && (forall p :: a.past.logStart <= p < |log| && log[p].typ == FinalAnswer ==>
          Closing(a.pc) && |log| - (if a.pc.Downgrade? || a.pc.Leaving? then 2 else 1) <= p)
    && (a.pc == RunnerDone(true) || a.pc == Terminal(true) ==>
          a.past.logStart < |log| && log[|log| - 1].typ == FinalAnswer)
    && (a.pc == Leaving(true) ==>
          a.past.logStart + 2 <= |log| && log[|log| - 2].typ == FinalAnswer && log[|log| - 1].typ == RunDone)
  }

  /** What an attempt whose appends all succeeded has stored, with a step_done for each step behind it. */
  predicate Script(log: seq<Event>, a: Attempt) {
    Opens(log, a) && Closes(log, a) && Times(log[a.past.logStart..], StepDone) == a.step - 1
  }

  predicate ScriptInv(s: State) {
    s.live.Some? ==>
      var a := s.live.value;
      && TerminalsInv(s.log, a)
      && (a.pc.Announcing? ==> a.cfg.resumed) && (a.pc.FirstSave? ==> !a.cfg.resumed)
      && (a.past.appendsOk ==> Script(s.log, a))
  }

  // ---------------------------------------------------------------- steps that emit

  /** An event between the opening and the end. */
  predicate Middle(typ: EventType) {
    || typ == ModelDelta || typ == ToolProposed || typ == ApprovalRequired || typ == ToolStarted
    || typ == ToolResult || typ == ToolError
  }

  /** The attempts differ in nothing the script is about but program point, step number and counters. */
  predicate Same(a: Attempt, b: Attempt) {
    b.cfg == a.cfg && b.past.logStart == a.past.logStart && b.past.won == a.past.won
  }

  lemma TerminalsGrow(log: seq<Event>, a: Attempt, e: Event, b: Attempt)
    requires TerminalsInv(log, a) && Same(a, b) && !a.pc.Downgrade? && !a.pc.Leaving?
    requires if e.typ == RunDone || e.typ == RunError
             then a.pc.Terminal? && (b.pc.Downgrade? || b.pc.Leaving?) && (e.typ == RunDone <==> a.pc.ok)
             else !b.pc.Terminal?
    ensures TerminalsInv(log + [e], b)
  {
    assert forall p :: 0 <= p < |log| ==> (log + [e])[p] == log[p];
  }

  lemma SuffixNext(log: seq<Event>, n: nat, e: Event)
    requires n <= |log|
    ensures (log + [e])[n..] == log[n..] + [e]
  {}

  /** What an attempt emits where, and where it goes on. */
  predicate Emission(a: Attempt, e: Event, b: Attempt) {
    && Same(a, b) && b.step == a.step + (if e.typ == StepDone then 1 else 0)
    && (|| (AtWork(a.pc) && AtWork(b.pc) && Middle(e.typ))
        || (a.pc.Announcing? && a.cfg.resumed && b.pc.Opening? && e.typ == RunResumed)
        || (a.pc.Opening? && b.pc.Top? && e.typ == RunStart)
        || (a.pc.StepEmit? && b.pc.Top? && e.typ == StepDone)
        || (a.pc.Finale? && b.pc == RunnerDone(true) && e.typ == FinalAnswer)
        || (a.pc.Terminal? && b.pc == Leaving(a.pc.ok) && e.typ == if a.pc.ok then RunDone else RunError))
  }

  lemma OpensGrow(log: seq<Event>, a: Attempt, e: Event, b: Attempt)
    requires Opens(log, a) && Emission(a, e, b)
    ensures Opens(log + [e], b)
  {
    assert forall p :: 0 <= p < |log| ==> (log + [e])[p] == log[p];
  }

  lemma ClosesGrow(log: seq<Event>, a: Attempt, e: Event, b: Attempt)
    requires Closes(log, a) && Emission(a, e, b)
    ensures Closes(log + [e], b)
  {
    assert forall p :: 0 <= p < |log| ==> (log + [e])[p] == log[p];
  }

  lemma ScriptGrows(log: seq<Event>, a: Attempt, e: Event, b: Attempt)
    requires Script(log, a) && Emission(a, e, b)
    ensures Script(log + [e], b)
  {
    OpensGrow(log, a, e, b);
    ClosesGrow(log, a, e, b);
    SuffixNext(log, a.past.logStart, e);
    TimesNext(log[a.past.logStart..], e, StepDone);
  }

  lemma MoveIsMiddle(s: State, i: nat, choice: Choice, w: Write)
    requires CanCall(s, i, Move(choice, w))
    ensures Middle(CellEmission(s, i, choice, w).0.typ)
  {
    match CellAt(s, i) case Settled(d) => match d { case _ => } case _ =>
  }

  /** A step without an event that leaves the runner at work, ends it with an error, or opens the run. */
  predicate QuietMove(a: Attempt, b: Attempt) {
    && Same(a, b) && b.step == a.step && (b.past.appendsOk ==> a.past.appendsOk)
    && (|| b.pc == a.pc
        || (AtWork(a.pc) && (AtWork(b.pc) || b.pc == RunnerDone(false)))
        || (a.pc.FirstSave? && (b.pc.Opening? || b.pc == Leaving(false))))
  }

  lemma ScriptQuiet(s: State, t: State)
    requires ScriptInv(s) && s.live.Some? && t.live.Some? && t.log == s.log
    requires QuietMove(s.live.value, t.live.value)
    ensures ScriptInv(t)
  {}

  lemma ScriptCall(s: State, i: nat, step: CallStep)
    requires ScriptInv(s) && CanCall(s, i, step)
    ensures ScriptInv(ApplyCall(s, i, step))
  {
    hide ScriptInv;
    CallEffect(s, i, step);
    CallRecordEffect(s, i, step);
    NumberingCall(s, i, step);
    if step.Move? && Persisted(step.mw) {
      MoveIsMiddle(s, i, step.choice, step.mw);
      var e := CellEmission(s, i, step.choice, step.mw).0.(sq := s.live.value.sq + 1);
      ScriptEmit(s, e, ApplyCall(s, i, step));
    } else {
      ScriptQuiet(s, ApplyCall(s, i, step));
    }
  }

  /** A stored event of a move of a call or a fragment of the model. */
  lemma ScriptEmit(s: State, e: Event, t: State)
    requires ScriptInv(s) && s.live.Some? && t.live.Some? && t.log == s.log + [e]
    requires AtWork(s.live.value.pc) && AtWork(t.live.value.pc) && Middle(e.typ)
    requires Emission(s.live.value, e, t.live.value)
    requires t.live.value.past.appendsOk ==> s.live.value.past.appendsOk
    ensures ScriptInv(t)
  {
    hide Script;
    TerminalsGrow(s.log, s.live.value, e, t.live.value);
    if t.live.value.past.appendsOk { ScriptGrows(s.log, s.live.value, e, t.live.value); }
  }

  lemma ScriptEmits(s: State, w: Write)
    requires ScriptInv(s) && CanLoop(s, PlainEmit(w))
    ensures ScriptInv(LoopEmit(s, w))
  {
    PlainEmitEffect(s, w);
    NumberingLoop(s, PlainEmit(w));
    var a, b := s.live.value, LoopEmit(s, w).live.value;
    var e := PlannedEvent(a).(sq := a.sq + 1);
    hide Script;
    if Persisted(w) {
      TerminalsGrow(s.log, a, e, b);
      if b.past.appendsOk { ScriptGrows(s.log, a, e, b); }
    }
  }

  lemma ScriptDelta(s: State, w: Write)
    requires ScriptInv(s) && CanLoop(s, Delta(w))
    ensures ScriptInv(ApplyLoop(s, Delta(w)))
  {
    hide ScriptInv;
    var t := ApplyLoop(s, Delta(w));
    if Persisted(w) {
      ScriptEmit(s, PlainEvent(ModelDelta).(sq := s.live.value.sq + 1), t);
    } else {
      ScriptQuiet(s, t);
    }
  }

  // ---------------------------------------------------------------- steps that do not

  lemma ScriptRecord(s: State, w: Write)
    requires ScriptInv(s) && CanLoop(s, RecordWrite(w))
    ensures ScriptInv(WriteRecord(s, w))
  {
    RecordWriteEffect(s, w);
  }

  lemma ScriptCollect(s: State, w: Write)
    requires ScriptInv(s) && CanCollect(s)
    ensures ScriptInv(CollectNext(s, w))
  {
    hide ScriptInv;
    CollectEffect(s, w);
    NumberingLoop(s, Collect(w));
    ScriptQuiet(s, CollectNext(s, w));
  }

  lemma ScriptWork(s: State, step: LoopStep)
    requires ScriptInv(s) && CanLoop(s, step)
    requires step.CallModel? || step.ModelFails? || step.ModelAnswers? || step.ModelCalls? || step.CheckpointWrite?
             || step.StepAborts? || step.StepCompletes?
    ensures ScriptInv(ApplyLoop(s, step))
  {
    hide ScriptInv;
    ScriptQuiet(s, ApplyLoop(s, step));
  }

  lemma ScriptLoop(s: State, step: LoopStep)
    requires ScriptInv(s) && CanLoop(s, step)
    ensures ScriptInv(ApplyLoop(s, step))
  {
    match step
    case PlainEmit(w) => ScriptEmits(s, w);
    case Delta(w) => ScriptDelta(s, w);
    case RecordWrite(w) => ScriptRecord(s, w);
    case Collect(w) => ScriptCollect(s, w);
    case Leave =>
    case _ => ScriptWork(s, step);
  }

  lemma ScriptStep(s: State, step: Step)
    requires ScriptInv(s) && Enabled(s, step)
    ensures ScriptInv(Apply(s, step))
  {
    match step
    case Launch(_) => assert s.log[|s.log|..] == [];
    case Loop(loop) => ScriptLoop(s, loop);
    case OnCall(i, call) => ScriptCall(s, i, call);
    case Outside(Crash) =>
    case Outside(_) => if s.live.Some? { ScriptQuiet(s, Apply(s, step)); }
  }

  lemma {:induction false} ScriptRun(s: State, steps: seq<Step>)
    requires ScriptInv(s) && Legal(s, steps)
    ensures ScriptInv(Run(s, steps))
    decreases |steps|
  {
    if steps != [] {
      ScriptStep(s, steps[0]);
      ScriptRun(Apply(s, steps[0]), steps[1..]);
    }
  }

  /** In every reachable state the events a live attempt has stored tell how it stands. */
  lemma StoredEventsTell(s: State)
    requires Reachable(s) && s.live.Some?
    ensures TerminalsInv(s.log, s.live.value)
    ensures s.live.value.past.appendsOk ==> Script(s.log, s.live.value)
  {
    var safe: set<string>, steps: seq<Step> :| Legal(Init(safe), steps) && Run(Init(safe), steps) == s;
    ScriptRun(Init(safe), steps);
  }
}
