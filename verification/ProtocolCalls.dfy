/** What every step keeps about the calls of the running step and the bodies that ran
    (agent/agent.go, execCall; runtime/resume.go). */
module ProtocolCalls {
  import opened Types
  import opened ToolRun
  import opened Reconcile
  import opened Protocol
  import opened ProtocolEffects
  import T = Trajectory

  // ---------------------------------------------------------------- one call

  predicate StartLoggedFor(log: seq<Event>, id: string, name: string) {
    exists p :: 0 <= p < |log| && log[p].typ == ToolStarted && log[p].callId == id && log[p].toolName == name
  }

  predicate Mentions(log: seq<Event>, id: string) {
    exists p :: 0 <= p < |log| && log[p].callId == id
  }

  /** The log accounts for a call: it was proposed with its arguments and its start is stored. */
  predicate Accounted(log: seq<Event>, id: string, k: Key) {
    StartLoggedFor(log, id, k.name) && ArgsOf(log, id) == k.args
  }

  predicate AnswerOf(c: Call, m: Message) { m.role == Tool && m.callId == c.id }

  predicate Pristine(cell: Cell) { cell.Idle? || cell.Done? || cell.Aborted? }

  /** What is known of a call from the state of its cell. */
  predicate CellFacts(log: seq<Event>, a: Attempt, c: Call, cell: Cell) {
    && (cell.Done? ==> AnswerOf(c, cell.msg))
    && (cell.Aborted? ==> cell.msg == ZERO_MESSAGE || AnswerOf(c, cell.msg))
    && (cell.Idle? ==> !Mentions(log, c.id))
    && (!Pristine(cell) ==> c.name in a.cfg.tools)
    && (!Pristine(cell) && !a.persistErr ==> ArgsOf(log, c.id) == c.args)
    && (cell.StartLogged? && !a.persistErr ==> StartLoggedFor(log, c.id, c.name))
    && (cell.Cleared? ==> cell.clean && Accounted(log, c.id, CallKey(c)))
  }

  /** The cells of the running step fit their calls. */
  predicate StepShape(a: Attempt, used: set<string>)
    requires a.pc.InStep?
  {
    var pc := a.pc;
    && pc.collected <= |pc.cells| == |pc.calls|
    && T.DistinctIds(pc.calls)
    && (forall j :: 0 <= j < |pc.calls| ==> pc.calls[j].id != "" && pc.calls[j].id in used)
    && (forall j :: 0 <= j < pc.collected ==> if Concurrent(a) then Ready(pc.cells[j]) else pc.cells[j].Done?)
    && (Concurrent(a) && 0 < pc.collected ==> forall j :: 0 <= j < |pc.cells| ==> Ready(pc.cells[j]))
  }

  predicate CallsInv(s: State) {
    && (forall p :: 0 <= p < |s.log| ==> s.log[p].callId == "" || s.log[p].callId in s.used)
    && (s.live.Some? ==> s.live.value.persistErr ==> s.live.value.canceled)
    && (s.live.Some? && s.live.value.pc.InStep? ==>
          && StepShape(s.live.value, s.used)
          && forall j :: 0 <= j < |s.live.value.pc.cells| ==>
               CellFacts(s.log, s.live.value, s.live.value.pc.calls[j], s.live.value.pc.cells[j]))
  }

  /** The events and cells of emitting moves. */
  lemma MoveFacts(s: State, i: nat, choice: Choice, w: Write)
    requires CanCall(s, i, Move(choice, w))
    ensures var (e, next) := CellEmission(s, i, choice, w);
            var c, cell := CallAt(s, i), CellAt(s, i);
            && e.callId == c.id && e.toolName == c.name
            && (e.typ == ToolProposed <==> cell.Idle? && next == Proposed)
            && (e.typ == ToolProposed ==> e.args == c.args)
            && (next == StartLogged ==> e.typ == ToolStarted)
            && (IsResult(e) ==> Ready(next))
            && !next.Idle? && !next.Cleared? && !next.InBody?
            && (next.Done? ==> AnswerOf(c, next.msg)) && (next.Aborted? ==> AnswerOf(c, next.msg))
            && (!Pristine(next) ==> !Pristine(cell) || c.name in s.live.value.cfg.tools)
            && (cell.Idle? ==> next.Proposed? || next.Done?)
  {
    match CellAt(s, i) case Settled(d) => match d { case _ => } case _ =>
  }

  // ---------------------------------------------------------------- growing logs

  lemma GrownLog(log: seq<Event>, e: Event, id: string, name: string)
    ensures Mentions(log + [e], id) <==> Mentions(log, id) || e.callId == id
    ensures StartLoggedFor(log + [e], id, name) <==>
              StartLoggedFor(log, id, name) || (e.typ == ToolStarted && e.callId == id && e.toolName == name)
    ensures ArgsOf(log + [e], id) ==
              if e.typ == ToolProposed && e.callId == id && id != "" then e.args else ArgsOf(log, id)
  {
    AppendedFacts(log, e, id);
    assert (log + [e])[|log|] == e;
    assert forall p :: 0 <= p < |log| ==> (log + [e])[p] == log[p];
  }

  /** An event about another call leaves the facts of this one. */
  lemma OtherEvent(log: seq<Event>, e: Event, a: Attempt, b: Attempt, c: Call, cell: Cell)
    requires CellFacts(log, a, c, cell) && c.id != "" && e.callId != c.id
    requires b.cfg == a.cfg && (a.persistErr ==> b.persistErr)
    ensures CellFacts(log + [e], b, c, cell)
  {
    GrownLog(log, e, c.id, c.name);
  }

  /** Later failures and cancellation take nothing away from the facts of a call. */
  lemma LaterAttempt(log: seq<Event>, a: Attempt, b: Attempt, c: Call, cell: Cell)
    requires CellFacts(log, a, c, cell) && b.cfg == a.cfg && (a.persistErr ==> b.persistErr)
    ensures CellFacts(log, b, c, cell)
  {}

  // ---------------------------------------------------------------- steps of calls

  lemma MovedCell(s: State, i: nat, choice: Choice, w: Write)
    requires CallsInv(s) && CanCall(s, i, Move(choice, w))
    ensures var t := ApplyCall(s, i, Move(choice, w));
            t.live.Some? && CellFacts(t.log, t.live.value, CallAt(s, i), NextCell(s, i, Move(choice, w)))
  {
    CallEffect(s, i, Move(choice, w));
    MoveFacts(s, i, choice, w);
    var c, e := CallAt(s, i), CellEmission(s, i, choice, w).0;
    assert CellFacts(s.log, s.live.value, c, CellAt(s, i));
    GrownLog(s.log, e.(sq := s.live.value.sq + 1), c.id, c.name);
  }

  lemma SettledCell(s: State, i: nat, step: CallStep)
    requires CallsInv(s) && CanCall(s, i, step) && !step.Move?
    ensures var t := ApplyCall(s, i, step);
            t.live.Some? && CellFacts(t.log, t.live.value, CallAt(s, i), NextCell(s, i, step))
  {
    CallEffect(s, i, step);
    assert CellFacts(s.log, s.live.value, CallAt(s, i), CellAt(s, i));
    match step case Execute => match Consulted(s, i).1 { case _ => } case _ =>
  }

  lemma OtherCell(s: State, i: nat, step: CallStep, j: nat)
    requires CallsInv(s) && CanCall(s, i, step) && j < |s.live.value.pc.cells| && j != i
    ensures var t := ApplyCall(s, i, step);
            t.live.Some? && CellFacts(t.log, t.live.value, s.live.value.pc.calls[j], s.live.value.pc.cells[j])
  {
    CallEffect(s, i, step);
    var pc := s.live.value.pc;
    var t := ApplyCall(s, i, step);
    assert CellFacts(s.log, s.live.value, pc.calls[j], pc.cells[j]);
    assert pc.calls[i].id != pc.calls[j].id;
    LaterAttempt(s.log, s.live.value, t.live.value, pc.calls[j], pc.cells[j]);
    if step.Move? {
      MoveFacts(s, i, step.choice, step.mw);
      var e := CellEmission(s, i, step.choice, step.mw).0.(sq := s.live.value.sq + 1);
      OtherEvent(s.log, e, s.live.value, t.live.value, pc.calls[j], pc.cells[j]);
    }
  }

  lemma ShapeAfterCall(s: State, i: nat, step: CallStep)
    requires CallsInv(s) && CanCall(s, i, step)
    ensures var t := ApplyCall(s, i, step);
            && t.live.Some? && t.live.value.pc.InStep? && StepShape(t.live.value, t.used)
            && forall p :: 0 <= p < |t.log| ==> t.log[p].callId == "" || t.log[p].callId in t.used
  {
    CallEffect(s, i, step);
    if step.Move? { MoveFacts(s, i, step.choice, step.mw); }
  }

  lemma CallsInvCall(s: State, i: nat, step: CallStep)
    requires CallsInv(s) && CanCall(s, i, step)
    ensures CallsInv(ApplyCall(s, i, step))
  {
    var t := ApplyCall(s, i, step);
    CallEffect(s, i, step);
    ShapeAfterCall(s, i, step);
    var pc := s.live.value.pc;
    forall j | 0 <= j < |pc.cells|
      ensures CellFacts(t.log, t.live.value, t.live.value.pc.calls[j], t.live.value.pc.cells[j])
    {
      if j != i { OtherCell(s, i, step, j); }
      else if step.Move? { MovedCell(s, i, step.choice, step.mw); }
      else { SettledCell(s, i, step); }
    }
  }

  // ---------------------------------------------------------------- the other steps

  lemma CallsInvBegin(s: State, text: Text, calls: seq<Call>)
    requires CallsInv(s) && CanLoop(s, ModelCalls(text, calls))
    ensures CallsInv(BeginStep(s, text, calls))
  {
    var t := BeginStep(s, text, calls);
    assert forall j :: 0 <= j < |calls| ==> calls[j].id in t.used && !Mentions(s.log, calls[j].id);
  }

  lemma CallsInvCollect(s: State, w: Write)
    requires CallsInv(s) && CanCollect(s)
    ensures CallsInv(CollectNext(s, w))
  {
    var t, pc := CollectNext(s, w), s.live.value.pc;
    forall j | 0 <= j < |pc.cells| ensures CellFacts(t.log, t.live.value, pc.calls[j], pc.cells[j]) {
      LaterAttempt(s.log, s.live.value, t.live.value, pc.calls[j], pc.cells[j]);
    }
  }

  lemma CallsInvEmit(s: State, w: Write)
    requires CallsInv(s) && CanLoop(s, PlainEmit(w))
    ensures CallsInv(LoopEmit(s, w))
  {
    PlainEmitEffect(s, w);
    hide LoopEmit;
  }

  lemma CallsInvRecord(s: State, w: Write)
    requires CallsInv(s) && CanLoop(s, RecordWrite(w))
    ensures CallsInv(WriteRecord(s, w))
  {
    RecordWriteEffect(s, w);
    hide WriteRecord;
  }

  lemma CallsInvLoop(s: State, step: LoopStep)
    requires CallsInv(s) && CanLoop(s, step)
    ensures CallsInv(ApplyLoop(s, step))
  {
    match step
    case ModelCalls(text, calls) => CallsInvBegin(s, text, calls);
    case Collect(w) => CallsInvCollect(s, w);
    case PlainEmit(w) => CallsInvEmit(s, w);
    case RecordWrite(w) => CallsInvRecord(s, w);
    case _ =>
  }

  lemma CallsInvStep(s: State, step: Step)
    requires CallsInv(s) && Enabled(s, step)
    ensures CallsInv(Apply(s, step))
  {
    match step
    case Loop(loop) => CallsInvLoop(s, loop);
    case OnCall(i, call) => CallsInvCall(s, i, call);
    case Outside(Cancel) =>
      var t := Apply(s, step);
      if s.live.value.pc.InStep? {
        var pc := s.live.value.pc;
        forall j | 0 <= j < |pc.cells| ensures CellFacts(t.log, t.live.value, pc.calls[j], pc.cells[j]) {
          LaterAttempt(s.log, s.live.value, t.live.value, pc.calls[j], pc.cells[j]);
        }
      }
    case _ =>
  }

  // ---------------------------------------------------------------- bodies that ran

  /** Every body that ran is accounted for in the log, and its start check found no failed write. */
  predicate ExecsInv(s: State) {
    forall x :: x in s.trace.execs ==>
      x.clean && x.callId != "" && x.callId in s.used && Accounted(s.log, x.callId, x.key)
  }

  lemma AccountedGrows(log: seq<Event>, e: Event, id: string, k: Key)
    requires Accounted(log, id, k) && (e.typ == ToolProposed ==> e.callId != id)
    ensures Accounted(log + [e], id, k)
  {
    GrownLog(log, e, id, k.name);
  }

  lemma ExecsEmit(s: State, e: Event, w: Write)
    requires s.live.Some? && ExecsInv(s)
    requires e.typ == ToolProposed ==> !Mentions(s.log, e.callId)
    ensures ExecsInv(Emit(s, e, w))
  {
    var t := Emit(s, e, w);
    forall x | x in s.trace.execs ensures Accounted(t.log, x.callId, x.key) {
      if Persisted(w) { AccountedGrows(s.log, e.(sq := s.live.value.sq + 1), x.callId, x.key); }
    }
  }

  lemma ExecsFrame(s: State, t: State)
    requires ExecsInv(s) && t.log == s.log && t.trace.execs == s.trace.execs && s.used <= t.used
    ensures ExecsInv(t)
  {}

  lemma ExecsCall(s: State, i: nat, step: CallStep)
    requires CallsInv(s) && ExecsInv(s) && CanCall(s, i, step)
    ensures ExecsInv(ApplyCall(s, i, step))
  {
    CallEffect(s, i, step);
    var t := ApplyCall(s, i, step);
    assert CellFacts(s.log, s.live.value, CallAt(s, i), CellAt(s, i));
    if step.Move? {
      MoveFacts(s, i, step.choice, step.mw);
      var e := CellEmission(s, i, step.choice, step.mw).0;
      ExecsEmit(s, e, step.mw);
      ExecsFrame(Emit(s, e, step.mw), t);
    } else if !step.Execute? {
      ExecsFrame(s, t);
    }
  }

  lemma ExecsLoop(s: State, step: LoopStep)
    requires ExecsInv(s) && CanLoop(s, step)
    ensures ExecsInv(ApplyLoop(s, step))
  {
    var t := ApplyLoop(s, step);
    match step
    case PlainEmit(w) =>
      var e := PlannedEvent(s.live.value);
      ExecsEmit(s, e, w);
      PlainEmitEffect(s, w);
      ExecsFrame(Emit(s, e, w), t);
    case Delta(w) => ExecsEmit(s, PlainEvent(ModelDelta), w);
    case _ => ExecsFrame(s, t);
  }

  lemma ExecsStep(s: State, step: Step)
    requires CallsInv(s) && ExecsInv(s) && Enabled(s, step)
    ensures ExecsInv(Apply(s, step))
  {
    match step
    case Loop(loop) => ExecsLoop(s, loop);
    case OnCall(i, call) => ExecsCall(s, i, call);
    case _ => ExecsFrame(s, Apply(s, step));
  }
}
