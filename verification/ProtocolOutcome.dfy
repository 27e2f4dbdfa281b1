/** Fail-closed outcomes and the life of the run record (runtime/runtime.go). */
module ProtocolOutcome {
  import opened Types
  import opened Protocol
  import opened ProtocolEffects
  import opened ProtocolLog
  import opened ProtocolCalls

  // ---------------------------------------------------------------- fail-closed

  /** A cell whose approval went wrong or whose call aborted: the step ends the attempt with an error. */
  predicate BadCell(cell: Cell) { cell == Answered(Broken) || cell == Settled(Broken) || cell.Aborted? }

  predicate Failing(pc: Pc) {
    match pc
    case InStep(_, _, cells, _) => exists j :: 0 <= j < |cells| && BadCell(cells[j])
    case RunnerDone(ok) => !ok
    case Terminal(ok) => !ok
    case Downgrade => true
    case Leaving(ok) => !ok
    case _ => false
  }

  predicate SucceededRecord(s: State) {
    s.rec.Some? && s.rec.value.status == Succeeded && s.rec.value.pending == None
  }

  /** A failed write of the attempt is never forgotten. */
  predicate FailClosedInv(s: State) {
    s.live.Some? ==>
      var a := s.live.value;
      && (a.past.writesOk || a.persistErr || Failing(a.pc))
      && (a.pc == Terminal(true) ==> a.past.writesOk && !a.persistErr && SucceededRecord(s))
      && (a.pc == Leaving(true) ==>
            a.past.writesOk && SucceededRecord(s) && s.log != [] && s.log[|s.log| - 1].typ == RunDone)
  }

  lemma FailClosedCall(s: State, i: nat, step: CallStep)
    requires FailClosedInv(s) && CanCall(s, i, step)
    ensures FailClosedInv(ApplyCall(s, i, step))
  {
    CallEffect(s, i, step);
    CallRecordEffect(s, i, step);
    var t, cells := ApplyCall(s, i, step), s.live.value.pc.cells;
    var cells' := t.live.value.pc.cells;
    assert cells'[i] == NextCell(s, i, step);
    if Failing(s.live.value.pc) {
      var j :| 0 <= j < |cells| && BadCell(cells[j]);
      assert j != i ==> cells'[j] == cells[j];
      assert BadCell(cells'[j]);
    }
  }

  /** A completed step has only answered calls. */
  lemma CompletedStepIsClean(s: State)
    requires CallsInv(s) && CanComplete(s)
    ensures forall j :: 0 <= j < |s.live.value.pc.cells| ==> s.live.value.pc.cells[j].Done?
  {}

  lemma FailClosedWrites(s: State, step: LoopStep)
    requires FailClosedInv(s) && CanLoop(s, step) && (step.PlainEmit? || step.RecordWrite?)
    ensures FailClosedInv(ApplyLoop(s, step))
  {
    match step
    case PlainEmit(w) => PlainEmitEffect(s, w);
    case RecordWrite(w) => RecordWriteEffect(s, w);
  }

  lemma FailClosedStepEnd(s: State, step: LoopStep)
    requires CallsInv(s) && FailClosedInv(s) && CanLoop(s, step)
    requires step.StepCompletes? || step.StepAborts? || step.Collect?
    ensures FailClosedInv(ApplyLoop(s, step))
  {
    match step
    case StepCompletes => CompletedStepIsClean(s);
    case StepAborts =>
    case Collect(w) => assert s.live.value.pc.cells == CollectNext(s, w).live.value.pc.cells;
  }

  lemma FailClosedLoop(s: State, step: LoopStep)
    requires CallsInv(s) && FailClosedInv(s) && CanLoop(s, step)
    ensures FailClosedInv(ApplyLoop(s, step))
  {
    match step
    case PlainEmit(_) => FailClosedWrites(s, step);
    case RecordWrite(_) => FailClosedWrites(s, step);
    case StepCompletes => FailClosedStepEnd(s, step);
    case StepAborts => FailClosedStepEnd(s, step);
    case Collect(_) => FailClosedStepEnd(s, step);
    case _ =>
  }

  lemma FailClosedStep(s: State, step: Step)
    requires CallsInv(s) && FailClosedInv(s) && Enabled(s, step)
    ensures FailClosedInv(Apply(s, step))
  {
    match step
    case Loop(loop) => FailClosedLoop(s, loop);
    case OnCall(i, call) => FailClosedCall(s, i, call);
    case _ =>
  }

  // ---------------------------------------------------------------- the record

  predicate WaitingCell(cell: Cell) {
    cell.Asking? || cell.Asked? || cell.Answered? || cell == Settled(Broken) || cell.Aborted?
  }

  /** The statuses a record can have at a program point when no Recover ran beside the attempt. */
  predicate StatusAt(st: Status, pc: Pc) {
    match pc
    case Creating => false
    case Resetting => st == Failed || st == Canceled
    case MarkRunning => st == Pending
    case InStep(_, _, cells, _) =>
      st == Running || (st == WaitingApproval && exists j :: 0 <= j < |cells| && WaitingCell(cells[j]))
    case RunnerDone(ok) => st == Running || (!ok && st == WaitingApproval)
    case Terminal(ok) => Ended(st) && (ok ==> st == Succeeded)
    case Downgrade => Ended(st)
    case Leaving(_) => true
    case _ => st == Running
  }

  predicate RecordInv(s: State) {
    && (s.rec.Some? && s.rec.value.pending.Some? ==>
          s.rec.value.status == WaitingApproval || s.rec.value.status == Failed)
    && (s.live.Some? ==>
          var a := s.live.value;
          && (a.pc.Creating? ==> s.rec.None?)
          && (a.pc.MarkRunning? || a.pc.Terminal? || a.pc.Downgrade? ==> s.rec.Some? ==> s.rec.value.pending == None)
          && (!a.past.disturbed && s.rec.Some? ==> StatusAt(s.rec.value.status, a.pc)))
  }

  lemma RecordCall(s: State, i: nat, step: CallStep)
    requires Registered(s) && RecordInv(s) && CanCall(s, i, step)
    ensures RecordInv(ApplyCall(s, i, step))
  {
    CallEffect(s, i, step);
    CallRecordEffect(s, i, step);
    var t := ApplyCall(s, i, step);
    if s.rec.value.status == WaitingApproval {
      WaitingStays(s.live.value.pc.cells, i, t.live.value.pc.cells);
    }
    assert t.live.value.pc.cells[i] == NextCell(s, i, step);
  }

  lemma WaitingStays(cells: seq<Cell>, i: nat, now: seq<Cell>)
    requires i < |cells| == |now| && forall j :: 0 <= j < |cells| && j != i ==> now[j] == cells[j]
    ensures (exists j :: 0 <= j < |cells| && j != i && WaitingCell(cells[j])) || WaitingCell(now[i]) ==>
              exists j :: 0 <= j < |now| && WaitingCell(now[j])
  {}

  lemma RecordWrites(s: State, step: LoopStep)
    requires Registered(s) && RecordInv(s) && CanLoop(s, step) && (step.PlainEmit? || step.RecordWrite?)
    ensures RecordInv(ApplyLoop(s, step))
  {
    match step
    case PlainEmit(w) => PlainEmitEffect(s, w);
    case RecordWrite(w) => RecordWriteEffect(s, w);
  }

  lemma RecordStepEnd(s: State, step: LoopStep)
    requires Registered(s) && CallsInv(s) && RecordInv(s) && CanLoop(s, step)
    requires step.StepCompletes? || step.StepAborts? || step.Collect?
    ensures RecordInv(ApplyLoop(s, step))
  {
    match step
    case StepCompletes => CompletedStepIsClean(s);
    case StepAborts =>
    case Collect(w) => assert s.live.value.pc.cells == CollectNext(s, w).live.value.pc.cells;
  }

  lemma RecordLoop(s: State, step: LoopStep)
    requires Registered(s) && CallsInv(s) && RecordInv(s) && CanLoop(s, step)
    ensures RecordInv(ApplyLoop(s, step))
  {
    match step
    case PlainEmit(_) => RecordWrites(s, step);
    case RecordWrite(_) => RecordWrites(s, step);
    case StepCompletes => RecordStepEnd(s, step);
    case StepAborts => RecordStepEnd(s, step);
    case Collect(_) => RecordStepEnd(s, step);
    case _ =>
  }

  lemma RecordStep(s: State, step: Step)
    requires Registered(s) && CallsInv(s) && RecordInv(s) && Enabled(s, step)
    ensures RecordInv(Apply(s, step))
  {
    match step
    case Loop(loop) => RecordLoop(s, loop);
    case OnCall(i, call) => RecordCall(s, i, call);
    case _ =>
  }

  /** The moves of the record's status. Unlike the documented machine, a finished run may return to
      pending (Resume) and any final status may still become failed (the terminal event was not stored). */
  predicate LegalMove(from: Option<Record>, to: Option<Record>) {
    || to == from
    || (from == None && to.Some? && to.value.status == Pending)
    || (from.Some? && to.Some? &&
        var a, b := from.value.status, to.value.status;
        || a == b
        || ((a == Failed || a == Canceled) && b == Pending)
        || (a == Pending && (b == Running || b == Failed))
        || (a == Running && (b == WaitingApproval || Ended(b)))
        || (a == WaitingApproval && (b == Running || b == Failed || b == Canceled))
        || ((a == Succeeded || a == Canceled) && b == Failed))
  }

  lemma MoveOfStep(s: State, step: Step)
    requires Registered(s) && RecordInv(s) && Enabled(s, step)
    requires s.live.Some? ==> !s.live.value.past.disturbed
    ensures LegalMove(s.rec, Apply(s, step).rec)
  {
    match step
    case Loop(RecordWrite(w)) => RecordWriteEffect(s, w);
    case Loop(PlainEmit(w)) => PlainEmitEffect(s, w);
    case OnCall(i, call) => CallRecordEffect(s, i, call);
    case _ =>
  }

  // ---------------------------------------------------------------- reachable states

  lemma {:induction false} OutcomeRun(s: State, steps: seq<Step>)
    requires Legal(s, steps) && Registered(s) && SeqInv(s) && CallsInv(s) && FailClosedInv(s) && RecordInv(s)
    ensures var t := Run(s, steps); Registered(t) && FailClosedInv(t) && RecordInv(t)
    decreases |steps|
  {
    if steps != [] {
      SeqStep(s, steps[0]);
      CallsInvStep(s, steps[0]);
      FailClosedStep(s, steps[0]);
      RecordStep(s, steps[0]);
      OutcomeRun(Apply(s, steps[0]), steps[1..]);
    }
  }

  lemma ReachableOutcome(s: State)
    requires Reachable(s)
    ensures Registered(s) && FailClosedInv(s) && RecordInv(s)
  {
    var safe: set<string>, steps: seq<Step> :| Legal(Init(safe), steps) && Run(Init(safe), steps) == s;
    OutcomeRun(Init(safe), steps);
  }

  /** An attempt about to return nil has had every append, checkpoint save and record update succeed,
      its record says succeeded with no pending approval, and the last stored event is run_done. */
  lemma NilOnlyWhenEverythingIsStored(s: State)
    requires Reachable(s) && s.live.Some? && s.live.value.pc == Leaving(true)
    ensures s.live.value.past.writesOk
    ensures s.rec.Some? && s.rec.value.status == Succeeded && s.rec.value.pending == None
    ensures s.log != [] && s.log[|s.log| - 1].typ == RunDone
  {
    ReachableOutcome(s);
  }

  lemma {:induction false} SucceededIsFinal(s: State, steps: seq<Step>)
    requires s.live.None? && SucceededRecord(s) && Legal(s, steps)
    ensures var t := Run(s, steps); t.log == s.log && t.cp == s.cp && t.rec == s.rec && t.live.None?
    decreases |steps|
  {
    if steps != [] { SucceededIsFinal(Apply(s, steps[0]), steps[1..]); }
  }

  /** After an attempt has returned nil, nothing changes the record, the log or the checkpoint. */
  lemma NilIsFinal(s: State, steps: seq<Step>)
    requires Reachable(s) && AtPc(s, Leaving(true)) && Legal(Apply(s, Loop(Leave)), steps)
    ensures var t := Run(Apply(s, Loop(Leave)), steps); t.log == s.log && t.cp == s.cp && t.rec == s.rec
  {
    ReachableOutcome(s);
    SucceededIsFinal(Apply(s, Loop(Leave)), steps);
  }

  predicate FailedWaiting(rec: Option<Record>) {
    rec.Some? && rec.value.status == Failed && rec.value.pending.Some?
  }

  /** A failed record with a pending approval comes from Recover: any other step that leaves one has found
      the status and the approval there. */
  lemma FailedWaitingIsRecovered(s: State, step: Step)
    requires Registered(s) && RecordInv(s) && Enabled(s, step) && FailedWaiting(Apply(s, step).rec)
    ensures step.Outside? || (FailedWaiting(s.rec) && s.rec.value.pending == Apply(s, step).rec.value.pending)
  {
    match step
    case Loop(RecordWrite(w)) => RecordWriteEffect(s, w);
    case Loop(PlainEmit(w)) => PlainEmitEffect(s, w);
    case OnCall(i, call) => CallRecordEffect(s, i, call);
    case _ =>
  }

  predicate Undisturbed(s: State) { s.live.Some? ==> !s.live.value.past.disturbed }

  /** A pending approval is on record only while waiting for it or after Recover marked the run failed;
      only Recover brings the two together; and every step moves the status along LegalMove unless a
      Recover ran beside the live attempt. */
  lemma RecordLife(s: State, step: Step)
    requires Reachable(s) && Enabled(s, step)
    ensures s.rec.Some? && s.rec.value.pending.Some? ==>
              s.rec.value.status == WaitingApproval || s.rec.value.status == Failed
    ensures FailedWaiting(Apply(s, step).rec) ==>
              || (step.Outside? && step.outside.Recover?)
              || (FailedWaiting(s.rec) && s.rec.value.pending == Apply(s, step).rec.value.pending)
    ensures Undisturbed(s) ==> LegalMove(s.rec, Apply(s, step).rec)
  {
    ReachableOutcome(s);
    if FailedWaiting(Apply(s, step).rec) { FailedWaitingIsRecovered(s, step); }
    if Undisturbed(s) { MoveOfStep(s, step); }
  }

  // ---------------------------------------------------------------- finished runs

  /** The writes that change the record of a finished run: the reset of a resumed attempt, and the
      downgrade after a terminal event that was not stored. */
  predicate Reopens(s: State, step: Step) {
    && step.Loop? && step.loop.RecordWrite? && Persisted(step.loop.rw)
    && (AtPc(s, Resetting) || (AtPc(s, Downgrade) && s.rec.Some? && s.rec.value.status != Failed))
  }

  /** The record of a finished run changes exactly by these writes, and then to pending or to failed. */
  lemma FinishedRunChangesIff(s: State, step: Step)
    requires Reachable(s) && Enabled(s, step) && Undisturbed(s)
    requires s.rec.Some? && Ended(s.rec.value.status)
    ensures Apply(s, step).rec != s.rec <==> Reopens(s, step)
    ensures Reopens(s, step) ==>
              Apply(s, step).rec.Some?
              && Apply(s, step).rec.value.status == if AtPc(s, Resetting) then Pending else Failed
  {
    ReachableOutcome(s);
    match step
    case Loop(RecordWrite(w)) => RecordWriteEffect(s, w);
    case Loop(PlainEmit(w)) => PlainEmitEffect(s, w);
    case OnCall(i, call) => CallRecordEffect(s, i, call);
    case _ =>
  }
}
