/** Runs in which a final status changes, one for each kind of change (runtime/runtime.go). */
module ProtocolFinality {
  import opened Types
  import opened Reconcile
  import opened Protocol
  import opened ProtocolEffects
  import opened ProtocolScenes
  import T = Trajectory

  const NARROW := Config(false, {}, false, 6, 100)

  /** The step leads from a reachable state with status `before` to one with status `after`. */
  ghost predicate Moves(s: State, step: Step, before: Status, after: Status) {
    && Reachable(s) && Enabled(s, step)
    && s.rec.Some? && s.rec.value.status == before
    && Apply(s, step).rec.Some? && Apply(s, step).rec.value.status == after
  }

  const WRITE := Loop(RecordWrite(Stored))

  lemma Answering() returns (s: State)
    ensures Reachable(s) && s.rec == Some(Record(Running, None, 0)) && AtPc(s, Finale)
    ensures !s.live.value.persistErr && !s.live.value.canceled
  {
    var s0 := Prompting(NARROW);
    Reach(s0, Loop(ModelAnswers([])));
    s := Apply(s0, Loop(ModelAnswers([])));
  }

  lemma Answered() returns (s: State)
    ensures Reachable(s) && s.rec == Some(Record(Running, None, 0)) && AtPc(s, RunnerDone(true))
    ensures !s.live.value.persistErr && !s.live.value.canceled
  {
    var s1 := Answering();
    Reach(s1, Loop(PlainEmit(Stored)));
    s := Apply(s1, Loop(PlainEmit(Stored)));
  }

  lemma Succeeding() returns (s: State)
    ensures Reachable(s) && s.rec == Some(Record(Succeeded, None, 0)) && AtPc(s, Terminal(true))
    ensures !s.live.value.persistErr
  {
    var s2 := Answered();
    Reach(s2, WRITE);
    s := Apply(s2, WRITE);
  }

  lemma EmitReach(s: State, w: Write)
    requires Reachable(s) && CanLoop(s, PlainEmit(w))
    ensures Reachable(LoopEmit(s, w))
  {
    Reach(s, Loop(PlainEmit(w)));
  }

  /** The terminal event of a finished run cannot be stored. */
  lemma Unstored(s: State) returns (t: State)
    requires Reachable(s) && s.live.Some? && s.live.value.pc.Terminal? && !s.live.value.persistErr
    ensures Reachable(t) && AtPc(t, Downgrade) && t.rec == s.rec && t.cp == s.cp
  {
    PlainEmitEffect(s, Refused);
    EmitReach(s, Refused);
    t := LoopEmit(s, Refused);
  }

  /** The model has answered, the record says succeeded, and then run_done cannot be stored. */
  lemma SucceededTurnsFailed() returns (s: State)
    ensures Moves(s, WRITE, Succeeded, Failed)
  {
    var s3 := Succeeding();
    s := Unstored(s3);
    RecordWriteEffect(s, Stored);
  }

  /** The caller cancels before the first prompt. */
  lemma Stopping() returns (s: State)
    ensures Reachable(s) && s.rec == Some(Record(Running, None, 0)) && s.cp == Some([ASK])
    ensures AtPc(s, RunnerDone(false)) && !s.live.value.persistErr && s.live.value.canceled
  {
    var s0 := AtTheTop(NARROW);
    Reach(s0, Outside(Cancel));
    var s1 := Apply(s0, Outside(Cancel));
    Reach(s1, Loop(CallModel));
    s := Apply(s1, Loop(CallModel));
  }

  lemma Stopped() returns (s: State)
    ensures Reachable(s) && s.rec == Some(Record(Canceled, None, 0)) && s.cp == Some([ASK])
    ensures AtPc(s, Terminal(false)) && !s.live.value.persistErr
  {
    var s2 := Stopping();
    Reach(s2, WRITE);
    s := Apply(s2, WRITE);
  }

  lemma CanceledTurnsFailed() returns (s: State)
    ensures Moves(s, WRITE, Canceled, Failed) && AtPc(s, Downgrade) && s.cp == Some([ASK])
  {
    var s3 := Stopped();
    s := Unstored(s3);
    RecordWriteEffect(s, Stored);
  }

  /** A finished attempt is over, the run is resumed, and its record is about to be reset. */
  lemma Reopened(s: State) returns (t: State)
    requires Reachable(s) && AtPc(s, Leaving(false)) && s.rec.Some? && s.rec.value.status in {Failed, Canceled}
    requires s.cp.Some?
    ensures Moves(t, WRITE, s.rec.value.status, Pending)
  {
    Reach(s, Loop(Leave));
    var s1 := Apply(s, Loop(Leave));
    var idx := IndexExists(s1.log, |s1.log|, T.ToolIds(T.Trim(s1.cp.value)));
    var resume := Launch(Resume({}, false, 6, 100, idx));
    Reach(s1, resume);
    t := Apply(s1, resume);
  }

  lemma Closed(s: State) returns (t: State)
    requires Reachable(s) && AtPc(s, Terminal(false))
    ensures Reachable(t) && AtPc(t, Leaving(false)) && t.rec == s.rec && t.cp == s.cp
  {
    PlainEmitEffect(s, Stored);
    EmitReach(s, Stored);
    hide LoopEmit;
    t := LoopEmit(s, Stored);
  }

  lemma CanceledTurnsPending() returns (s: State)
    ensures Moves(s, WRITE, Canceled, Pending)
  {
    var s3 := Stopped();
    var s4 := Closed(s3);
    s := Reopened(s4);
  }

  lemma FailedTurnsPending() returns (s: State)
    ensures Moves(s, WRITE, Failed, Pending)
  {
    var s0 := CanceledTurnsFailed();
    Reach(s0, WRITE);
    s := Reopened(Apply(s0, WRITE));
  }
}
