/** The steps of the protocol, field by field. */
module ProtocolEffects {
  import opened Types
  import opened Reconcile
  import opened Protocol

  function NextCell(s: State, i: nat, step: CallStep): Cell
    requires CanCall(s, i, step)
  {
    match step
    case Move(choice, w) => CellEmission(s, i, choice, w).1
    case AskRecord(w) => if w == Stored then Asking else Answered(Broken)
    case Decide(d) => Answered(d)
    case AnswerRecord(w) => Settled(if w == Stored then CellAt(s, i).d else Broken)
    case Check => if s.live.value.canceled then Aborted(ZERO_MESSAGE) else Cleared(!s.live.value.persistErr)
    case Execute => HitCell(Consulted(s, i).1)
    case BodyReturn(r) => Returned(r)
  }

  lemma CallEffect(s: State, i: nat, step: CallStep)
    requires CanCall(s, i, step)
    ensures var t := ApplyCall(s, i, step);
            && t.live.Some?
            && var a, b := s.live.value, t.live.value;
               && b.pc == a.pc.(cells := a.pc.cells[i := NextCell(s, i, step)])
               && b.cfg == a.cfg && b.messages == a.messages
               && t.cp == s.cp && t.used == s.used && t.safe == s.safe
               && t.log == (if step.Move? then Emit(s, CellEmission(s, i, step.choice, step.mw).0, step.mw).log
                            else s.log)
               && b.persistErr == (a.persistErr || (step.Move? && step.mw != Stored))
               && b.canceled == (a.canceled || (step.Move? && step.mw != Stored))
               && b.idx == (if step.Execute? then Consulted(s, i).0 else a.idx)
               && t.trace == (if step.Execute? && Consulted(s, i).1.RunBody?
                              then s.trace.(execs := s.trace.execs +
                                     [Exec(CallAt(s, i).id, CallKey(CallAt(s, i)), CellAt(s, i).clean)])
                              else s.trace)
  {
    match step case Move(_, _) => case Execute => case _ =>
  }

  lemma PlainEmitEffect(s: State, w: Write)
    requires CanLoop(s, PlainEmit(w))
    ensures var e, t := Emit(s, PlannedEvent(s.live.value), w), LoopEmit(s, w);
            && t.live.Some?
            && t.log == e.log && t.cp == s.cp && t.rec == s.rec && t.used == s.used && t.safe == s.safe
            && t.trace == s.trace
            && var a, b, c := s.live.value, t.live.value, e.live.value;
               && b.pc == (if a.pc.Terminal? && w != Stored && !a.persistErr then Downgrade else EventPlan(a).value.1)
               && b.cfg == a.cfg && b.idx == a.idx && b.messages == a.messages && b.sq == c.sq
               && b.step == (if a.pc.StepEmit? then a.step + 1 else a.step)
               && b.persistErr == c.persistErr && b.canceled == c.canceled && b.past == c.past
  {
    if s.live.value.pc.Terminal? {} else if s.live.value.pc.StepEmit? {} else {}
  }

  lemma RecordWriteEffect(s: State, w: Write)
    requires CanLoop(s, RecordWrite(w))
    ensures var plan, t := RecordPlan(s).value, WriteRecord(s, w);
            && t.live.Some?
            && t.log == s.log && t.cp == s.cp && t.used == s.used && t.safe == s.safe && t.trace == s.trace
            && t.rec == (if Persisted(w) then Some(plan.0) else s.rec)
            && var a, b := s.live.value, t.live.value;
               && b.pc == (if w == Stored then plan.1 else plan.2)
               && b.cfg == a.cfg && b.idx == a.idx && b.messages == a.messages && b.sq == a.sq
               && b.persistErr == (a.persistErr || (a.pc.StepRecord? && w != Stored))
               && b.canceled == (a.canceled || (a.pc.StepRecord? && w != Stored)) && b.step == a.step
               && b.past == Wrote(a.past, w).(won := if a.pc.RunnerDone? then a.pc.ok && !a.persistErr else a.past.won)
  {
    if s.live.value.pc.StepRecord? {} else if s.live.value.pc.RunnerDone? {} else {}
  }

  lemma CollectEffect(s: State, w: Write)
    requires CanCollect(s)
    ensures var t := CollectNext(s, w);
            && t.live.Some? && t.used == s.used && t.safe == s.safe
            && var a, b := s.live.value, t.live.value;
               && b.pc == a.pc.(collected := a.pc.collected + 1) && b.cfg == a.cfg && b.step == a.step
               && b.messages == a.messages + [a.pc.cells[a.pc.collected].msg]
  {}

  function CallRecord(s: State, i: nat, step: CallStep): Option<Record>
    requires CanCall(s, i, step)
  {
    match step
    case AskRecord(w) =>
      if Persisted(w) then Some(Current(s).(status := WaitingApproval, pending := Some(CallAt(s, i).id))) else s.rec
    case AnswerRecord(w) =>
      if Persisted(w) then Some(Current(s).(status := Running, pending := None)) else s.rec
    case _ => s.rec
  }

  function CallWrite(step: CallStep): Write {
    match step
    case Move(_, w) => w
    case AskRecord(w) => w
    case AnswerRecord(w) => w
    case _ => Stored
  }

  lemma CallRecordEffect(s: State, i: nat, step: CallStep)
    requires CanCall(s, i, step)
    ensures var t := ApplyCall(s, i, step);
            && t.live.Some? && t.rec == CallRecord(s, i, step)
            && t.live.value.sq == s.live.value.sq + (if step.Move? then 1 else 0)
            && t.live.value.step == s.live.value.step
            && t.live.value.past.writesOk == (s.live.value.past.writesOk && CallWrite(step) == Stored)
            && t.live.value.past.disturbed == s.live.value.past.disturbed
            && t.live.value.past.won == s.live.value.past.won
  {
    match step case Move(_, _) => case Execute => case _ =>
  }

  lemma {:induction false} RunSnoc(s: State, steps: seq<Step>, step: Step)
    requires Legal(s, steps) && Enabled(Run(s, steps), step)
    ensures Legal(s, steps + [step]) && Run(s, steps + [step]) == Apply(Run(s, steps), step)
    decreases |steps|
  {
    var longer := steps + [step];
    if steps == [] {
      assert longer == [step] && longer[1..] == [];
      assert Run(Apply(s, step), []) == Apply(s, step);
    } else {
      assert longer[1..] == steps[1..] + [step];
      RunSnoc(Apply(s, steps[0]), steps[1..], step);
    }
  }

  lemma Reach(s: State, step: Step)
    requires Reachable(s) && Enabled(s, step)
    ensures Reachable(Apply(s, step))
  {
    var safe: set<string>, steps: seq<Step> :| Legal(Init(safe), steps) && Run(Init(safe), steps) == s;
    RunSnoc(Init(safe), steps, step);
  }

  lemma {:induction false} ReachRun(s: State, steps: seq<Step>)
    requires Reachable(s) && Legal(s, steps)
    ensures Reachable(Run(s, steps))
    decreases |steps|
  {
    if steps != [] {
      Reach(s, steps[0]);
      ReachRun(Apply(s, steps[0]), steps[1..]);
    }
  }
}
