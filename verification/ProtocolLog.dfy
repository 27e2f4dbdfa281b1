/** Sequence numbers of the stored events over any sequence of attempts (runtime/runtime.go). */
module ProtocolLog {
  import opened Types
  import opened Protocol

  /** Before its record exists a run has stored nothing. */
  predicate Registered(s: State) {
    s.rec.None? ==>
      && s.log == [] && s.cp.None? && s.trace.execs == [] && s.trace.prompts == []
      && (s.live.Some? ==> s.live.value.pc.Creating? || s.live.value.pc.Leaving?)
  }

  predicate Increasing(log: seq<Event>) {
    && (forall i :: 0 <= i < |log| ==> 1 <= log[i].sq)
    && (forall i, j :: 0 <= i < j < |log| ==> log[i].sq < log[j].sq)
  }

  /** The events of the current attempt, while all its appends succeed, are numbered without gaps. */
  predicate Contiguous(log: seq<Event>, a: Attempt) {
    && a.past.logStart <= |log| && |log| - a.past.logStart == a.sq - a.past.sqStart
    && forall j :: a.past.logStart <= j < |log| ==> log[j].sq == a.past.sqStart + 1 + (j - a.past.logStart)
  }

  /** The in-memory counter is never behind the log. */
  predicate SeqInv(s: State) {
    && Increasing(s.log)
    && (s.live.Some? ==>
          var a := s.live.value;
          && 0 <= a.sq && (forall i :: 0 <= i < |s.log| ==> s.log[i].sq <= a.sq)
          && (a.past.appendsOk ==> Contiguous(s.log, a)))
  }

  lemma RegisteredLoop(s: State, step: LoopStep)
    requires Registered(s) && CanLoop(s, step)
    ensures Registered(ApplyLoop(s, step))
  {}

  lemma RegisteredCall(s: State, i: nat, step: CallStep)
    requires Registered(s) && CanCall(s, i, step)
    ensures Registered(ApplyCall(s, i, step))
  {}

  lemma EmitSeq(s: State, e: Event, w: Write)
    requires s.live.Some? && SeqInv(s)
    ensures SeqInv(Emit(s, e, w))
  {}

  lemma {:induction false} MaxSeqBounds(log: seq<Event>)
    ensures 0 <= MaxSeq(log)
    ensures forall i :: 0 <= i < |log| ==> log[i].sq <= MaxSeq(log)
    decreases |log|
  {
    if log != [] {
      MaxSeqBounds(log[..|log| - 1]);
      assert forall i :: 0 <= i < |log| - 1 ==> log[i] == log[..|log| - 1][i];
    }
  }

  /** `t` has the log of `s`, and its live attempt, if any, the numbering of the one in `s`. */
  predicate SameNumbering(s: State, t: State) {
    && t.log == s.log
    && (t.live.Some? ==>
          && s.live.Some?
          && var a, b := s.live.value, t.live.value;
             a.sq == b.sq && a.past.sqStart == b.past.sqStart && a.past.logStart == b.past.logStart
             && a.past.appendsOk == b.past.appendsOk)
  }

  lemma SeqFrame(s: State, t: State)
    requires SeqInv(s) && SameNumbering(s, t)
    ensures SeqInv(t)
  {}

  lemma EmitThenFrame(s: State, e: Event, w: Write, t: State)
    requires s.live.Some? && SeqInv(s) && SameNumbering(Emit(s, e, w), t)
    ensures SeqInv(t)
  {
    EmitSeq(s, e, w);
    SeqFrame(Emit(s, e, w), t);
  }

  lemma NumberingLoop(s: State, step: LoopStep)
    requires CanLoop(s, step)
    ensures var t := ApplyLoop(s, step);
            match step
            case PlainEmit(w) => SameNumbering(Emit(s, PlannedEvent(s.live.value), w), t)
            case Delta(w) => SameNumbering(Emit(s, PlainEvent(ModelDelta), w), t)
            case _ => SameNumbering(s, t)
  {
    match step
    case PlainEmit(w) => if s.live.value.pc.Terminal? {} else if s.live.value.pc.StepEmit? {} else {}
    case RecordWrite(w) =>
    case _ =>
  }

  lemma NumberingCall(s: State, i: nat, step: CallStep)
    requires CanCall(s, i, step)
    ensures var t := ApplyCall(s, i, step);
            if step.Move? then SameNumbering(Emit(s, CellEmission(s, i, step.choice, step.mw).0, step.mw), t)
            else SameNumbering(s, t)
  {
    match step case Move(_, _) => case Execute => case _ =>
  }

  /** One step of any kind keeps the numbering. */
  lemma SeqStep(s: State, step: Step)
    requires Registered(s) && SeqInv(s) && Enabled(s, step)
    ensures Registered(Apply(s, step)) && SeqInv(Apply(s, step))
  {
    match step
    case Launch(_) => MaxSeqBounds(s.log);
    case Loop(loop) =>
      RegisteredLoop(s, loop);
      NumberingLoop(s, loop);
      match loop {
        case PlainEmit(w) => EmitThenFrame(s, PlannedEvent(s.live.value), w, Apply(s, step));
        case Delta(w) => EmitThenFrame(s, PlainEvent(ModelDelta), w, Apply(s, step));
        case _ => SeqFrame(s, Apply(s, step));
      }
    case OnCall(i, call) =>
      RegisteredCall(s, i, call);
      NumberingCall(s, i, call);
      if call.Move? { EmitThenFrame(s, CellEmission(s, i, call.choice, call.mw).0, call.mw, Apply(s, step)); }
      else { SeqFrame(s, Apply(s, step)); }
    case Outside(_) =>
  }

  lemma {:induction false} SeqRun(s: State, steps: seq<Step>)
    requires Registered(s) && SeqInv(s) && Legal(s, steps)
    ensures Registered(Run(s, steps)) && SeqInv(Run(s, steps))
    decreases |steps|
  {
    if steps != [] {
      SeqStep(s, steps[0]);
      SeqRun(Apply(s, steps[0]), steps[1..]);
    }
  }

  /** In every reachable state the stored numbers are positive and strictly increasing over all
      attempts, the order of the log is the order of emission, and an attempt whose appends have all
      succeeded has stored every event it emitted, numbered without gaps. */
  lemma StoredSeqs(s: State)
    requires Reachable(s)
    ensures Increasing(s.log)
    ensures s.live.Some? && s.live.value.past.appendsOk ==> Contiguous(s.log, s.live.value)
  {
    var safe: set<string>, steps: seq<Step> :| Legal(Init(safe), steps) && Run(Init(safe), steps) == s;
    SeqRun(Init(safe), steps);
  }
}
