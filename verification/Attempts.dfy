/** Whole attempts, from the claim of the run to its release, and what may come between them: a process that
    dies, Recover, and Resume (runtime/runtime.go). */
module Attempts {
  import opened Types
  import opened Reconcile
  import opened Protocol
  import opened ProtocolEffects
  import opened ProtocolOutcome
  import opened MemoryStore
  import opened R = Runtime
  import opened AgentLoop
  import T = Trajectory

  // ---------------------------------------------------------------- one attempt

  /** The run is on record as succeeded with nothing pending, and its last stored event is run_done. */
  predicate Completed(s: State) {
    SucceededRecord(s) && s.log != [] && s.log[|s.log| - 1].typ == RunDone
  }

  lemma WhatNilMeans(ses: Session, ok: bool)
    requires ses.Traced() && ses.At(Leaving(ok))
    ensures Reachable(ses.from) && ok ==> Completed(ses.now)
  {
    if Reachable(ses.from) && ok {
      ReachRun(ses.from, ses.did);
      NilOnlyWhenEverythingIsStored(ses.now);
    }
  }

  method Work(ses: Session) returns (ok: bool)
    requires ses.Valid() && ses.At(if ses.cfg.resumed then Resetting else Creating) && ses.step == 1
    modifies ses`did, ses`now, ses`canceled, ses`persistErr, ses`messages, ses`step, ses`used
    modifies ses.rt`seqs, ses.rt.runs, ses.rt.events, ses.rt.checkpoints, ses.index
    ensures ses.Valid() && ses.At(Leaving(ok))
  {
    hide Session.Valid;
    ok := ses.Prelude();
    if ok {
      var failed := RunLoop(ses);
      ok := ses.Finish(failed);
    }
  }

  /** One whole attempt. Whatever the oracles and the stores do and whenever it is cancelled, it is a legal
      run of the protocol and leaves the other runs alone; and when it began in a reachable state, nil is
      returned only for a run that is complete. */
  method Attempt(ses: Session) returns (ok: bool)
    requires ses.Valid() && ses.At(if ses.cfg.resumed then Resetting else Creating) && ses.step == 1
    modifies ses`did, ses`now, ses`canceled, ses`persistErr, ses`messages, ses`step, ses`used
    modifies ses.rt`cancels, ses.rt`seqs, ses.rt.runs, ses.rt.events, ses.rt.checkpoints, ses.index
    ensures Legal(ses.from, ses.did) && Run(ses.from, ses.did) == ses.now && ses.now.live.None?
    ensures Holds(ses.rt, ses.run, ses.now) && OthersKept(ses.rt, ses.run)
    ensures ses.rt.Valid() && ses.rt.cancels == old(ses.rt.cancels) - {ses.run}
    ensures Returned(ses.now) == Some(ok)
    ensures Reachable(ses.from) ==> Reachable(ses.now)
    ensures Reachable(ses.from) && ok ==> Completed(ses.now)
  {
    ok := Work(ses);
    WhatNilMeans(ses, ok);
    Leave(ses, ok);
    if Reachable(ses.from) { ReachRun(ses.from, ses.did); }
  }

  /** What the last attempt returned. */
  function Returned(s: State): Option<bool> {
    var outcomes := s.trace.outcomes;
    if outcomes == [] then None else Some(outcomes[|outcomes| - 1])
  }

  method Leave(ses: Session, ghost ok: bool)
    requires ses.Valid() && ses.At(Leaving(ok))
    modifies ses`did, ses`now, ses.rt`cancels, ses.rt`seqs
    ensures ses.rt.Valid() && ses.rt.cancels == old(ses.rt.cancels) - {ses.run}
    ensures Others(ses.rt, ses.run) == ses.others && Holds(ses.rt, ses.run, ses.now) && ses.now.live.None?
    ensures Legal(ses.from, ses.did) && Run(ses.from, ses.did) == ses.now
    ensures Returned(ses.now) == Some(ok) && (Completed(ses.now) <==> Completed(old(ses.now)))
  {
    ses.Release(ok);
  }

  // ---------------------------------------------------------------- a first attempt

  datatype Refusal = NotFound | StillActive | Finished | NoCheckpoint

  /** Why Run refuses a run in a given state, if it does. */
  function StartRefusal(s: State): Option<Refusal> {
    if s.live.Some? then Some(StillActive)
    else if s.rec.Some? then Some(if Ended(s.rec.value.status) then Finished else StillActive)
    else None
  }

  /** Run is refused exactly when the protocol cannot start the run. */
  lemma StartRefusedIff(s: State)
    ensures StartRefusal(s).None? <==> exists launch: LaunchStep :: launch.StartRun? && CanLaunch(s, launch)
    ensures StartRefusal(s) == Some(Finished) <==>
              s.live.None? && s.rec.Some? && s.rec.value.status in {Succeeded, Failed, Canceled}
  {
    if StartRefusal(s).None? { assert CanLaunch(s, StartRun([], {}, false, 0, 0)); }
  }

  /** Run: a run that is known already is refused. */
  method RunReady(rt: Runtime, run: string, cfg: Config, safe: set<string>, used: set<string>,
                  initial: seq<Message>, ghost s: State)
    returns (session: Session?, refused: Option<Refusal>)
    requires rt.Valid() && Holds(rt, run, s) && (run in rt.cancels <==> s.live.Some?)
    requires !cfg.resumed && safe == s.safe && used == s.used
    modifies rt`cancels
    ensures refused == StartRefusal(s)
    ensures refused.Some? ==> session == null && rt.cancels == old(rt.cancels)
    ensures refused.None? ==>
              && session != null && fresh(session) && session.rt == rt && session.run == run && session.Valid()
              && session.At(Creating) && session.from == s && session.cfg == cfg && session.step == 1
              && session.messages == initial
              && session.index == null && OthersKept(rt, run) && rt.cancels == old(rt.cancels) + {run}
              && session.did == [Launch(StartRun(initial, cfg.tools, cfg.parallel, cfg.maxSteps, cfg.maxBytes))]
  {
    if run in rt.cancels { return null, Some(StillActive); }
    var existing := rt.runs.Of(run);
    if existing.Some? { return null, Some(if Ended(existing.value.status) then Finished else StillActive); }
    session := new Session.First(rt, run, cfg, safe, used, initial, s);
    refused := None;
  }

  // ---------------------------------------------------------------- a resumed attempt

  /** Why Resume refuses a run in a given state, if it does. */
  function ResumeRefusal(s: State): Option<Refusal> {
    if s.rec.None? then Some(NotFound)
    else if s.rec.value.status == Succeeded then Some(Finished)
    else if !Ended(s.rec.value.status) then Some(StillActive)
    else if s.cp.None? then Some(NoCheckpoint)
    else if s.live.Some? then Some(StillActive)
    else None
  }

  /** Resume is refused exactly when the protocol cannot resume the run. */
  lemma ResumeRefusedIff(s: State)
    ensures ResumeRefusal(s).None? <==> exists launch: LaunchStep :: launch.Resume? && CanLaunch(s, launch)
    ensures ResumeRefusal(s) == Some(Finished) <==> s.rec.Some? && s.rec.value.status == Succeeded
    ensures ResumeRefusal(s) == Some(NotFound) <==> s.rec.None?
    ensures ResumeRefusal(s) == Some(NoCheckpoint) <==>
              s.rec.Some? && s.rec.value.status in {Failed, Canceled} && s.cp.None?
  {
    if ResumeRefusal(s).None? {
      var idx := IndexExists(s.log, |s.log|, T.ToolIds(T.Trim(s.cp.value)));
      assert CanLaunch(s, LaunchStep.Resume({}, false, 0, 0, idx));
    }
  }

  /** Resume: the checkpoint is rolled back to a safe boundary, the log is reconciled with it, and the
      attempt starts where the protocol resumes. */
  method ResumeReady(rt: Runtime, run: string, cfg: Config, safe: set<string>, used: set<string>, ghost s: State)
    returns (session: Session?, refused: Option<Refusal>)
    requires rt.Valid() && Holds(rt, run, s) && (run in rt.cancels <==> s.live.Some?)
    requires cfg.resumed && safe == s.safe && used == s.used
    modifies rt`cancels, rt`seqs
    ensures refused == ResumeRefusal(s)
    ensures refused.Some? ==> session == null && rt.cancels == old(rt.cancels) && rt.seqs == old(rt.seqs)
    ensures refused.None? ==>
              && session != null && fresh(session) && session.rt == rt && session.run == run && session.Valid()
              && session.At(Resetting) && session.from == s && session.messages == T.Trim(s.cp.value)
              && session.cfg == cfg && session.step == 1 && (session.index == null || fresh(session.index))
              && OthersKept(rt, run) && rt.cancels == old(rt.cancels) + {run}
              && (session.wrap.Some? ==> forall k :: Explains(session.wrap.value, s.log, T.Trim(s.cp.value), k))
  {
    var record := rt.runs.Of(run);
    if record.None? { return null, Some(NotFound); }
    match record.value.status {
      case Succeeded => return null, Some(Finished);
      case Failed =>
      case Canceled =>
      case _ => return null, Some(StillActive);
    }
    var checkpoint := rt.checkpoints.Of(run);
    if checkpoint.None? { return null, Some(NoCheckpoint); }
    if run in rt.cancels { return null, Some(StillActive); }
    var messages := T.TrimDangling(checkpoint.value);
    var index, idx := Reconciled(cfg.tools, rt.events.Of(run), messages);
    session := new Session.Resumed(rt, run, cfg, safe, used, index, messages, idx, s);
    refused := None;
  }

  /** The index that wraps the tools, unless there are no tools or it would change nothing. */
  method Reconciled(tools: set<string>, events: seq<Event>, messages: seq<Message>)
    returns (index: ResumeIndex?, ghost idx: Index)
    ensures Reflects(idx, events, T.ToolIds(messages))
    ensures forall k :: Explains(idx, events, messages, k)
    ensures if tools == {} || Empty(idx) then index == null
            else index != null && fresh(index) && index.Value() == idx
  {
    index := null;
    if tools == {} {
      idx := IndexExists(events, |events|, T.ToolIds(messages));
      forall k ensures Explains(idx, events, messages, k) { var ps, qs := IndexExplained(idx, events, messages, k); }
    } else {
      var built := new ResumeIndex.Build(events, messages);
      idx := built.Value();
      if !Empty(built.Value()) { index := built; }
    }
  }

  // ---------------------------------------------------------------- from one state of the run to another

  /** Run from beginning to end. */
  method Start(rt: Runtime, run: string, cfg: Config, safe: set<string>, used: set<string>,
               initial: seq<Message>, ghost s: State)
    returns (ok: bool, refused: Option<Refusal>, ghost after: State)
    requires rt.Valid() && Holds(rt, run, s) && (run in rt.cancels <==> s.live.Some?)
    requires !cfg.resumed && safe == s.safe && used == s.used
    modifies rt`cancels, rt`seqs, rt.runs, rt.events, rt.checkpoints
    ensures refused == StartRefusal(s) && (refused.Some? ==> !ok && after == s)
    ensures rt.Valid() && Holds(rt, run, after) && OthersKept(rt, run) && rt.cancels == old(rt.cancels)
    ensures Reachable(s) ==> Reachable(after)
    ensures Reachable(s) && ok ==> Completed(after)
  {
    var session;
    session, refused := RunReady(rt, run, cfg, safe, used, initial, s);
    if refused.Some? { return false, refused, s; }
    ok := Attempt(session);
    after := session.now;
  }

  /** Resume from beginning to end: from a state of the protocol to another one, with the stores of this
      run in step and those of other runs untouched. */
  method Resume(rt: Runtime, run: string, cfg: Config, safe: set<string>, used: set<string>, ghost s: State)
    returns (ok: bool, refused: Option<Refusal>, ghost after: State)
    requires rt.Valid() && Holds(rt, run, s) && (run in rt.cancels <==> s.live.Some?)
    requires cfg.resumed && safe == s.safe && used == s.used
    modifies rt`cancels, rt`seqs, rt.runs, rt.events, rt.checkpoints
    ensures refused == ResumeRefusal(s) && (refused.Some? ==> !ok && after == s)
    ensures rt.Valid() && Holds(rt, run, after) && OthersKept(rt, run) && rt.cancels == old(rt.cancels)
    ensures Reachable(s) ==> Reachable(after)
    ensures Reachable(s) && ok ==> Completed(after)
  {
    var session;
    session, refused := ResumeReady(rt, run, cfg, safe, used, s);
    if refused.Some? { return false, refused, s; }
    ok := Attempt(session);
    after := session.now;
  }

  // ---------------------------------------------------------------- a process that dies

  /** What Recover did to one run: nothing, or the protocol's step. */
  ghost predicate RecoveredTo(s: State, after: State) {
    after == s || (CanOutside(s, Recover(Stored)) && after == Apply(s, Outside(Recover(Stored))))
  }

  /** Recover, as one run sees it. */
  method RecoverRun(rt: Runtime, run: string, broken: set<string>, ghost s: State)
    returns (ok: bool, ghost after: State)
    requires Holds(rt, run, s)
    modifies rt.runs
    ensures Holds(rt, run, after) && RecoveredTo(s, after) && (Reachable(s) ==> Reachable(after))
    ensures ok && s.rec.Some? ==> after.rec.Some? && Ended(after.rec.value.status)
    ensures after.safe == s.safe && after.used == s.used && (after.live.Some? <==> s.live.Some?)
  {
    ok := rt.Recover(broken);
    after := s;
    if rt.runs.Of(run) != s.rec {
      after := Apply(s, Outside(Recover(Stored)));
      if Reachable(s) { Reach(s, Outside(Recover(Stored))); }
    }
  }

  /** A process dies in the middle of an attempt, wherever that is; a new one over the same stores recovers
      the run and resumes it. What was reachable stays reachable throughout. */
  method DieAndResume(ses: Session, cfg: Config)
    returns (ok: bool, refused: Option<Refusal>, next: Runtime, ghost after: State)
    requires ses.Valid() && cfg.resumed
    modifies ses`did, ses`now, ses.rt.runs, ses.rt.events, ses.rt.checkpoints
    ensures fresh(next) && Holds(next, ses.run, after) && next.cancels == {}
    ensures Legal(ses.from, ses.did) && ses.did == old(ses.did) + [Outside(OutsideStep.Crash)]
    ensures Reachable(ses.from) ==> Reachable(after)
    ensures Reachable(ses.from) && ok ==> Completed(after)
  {
    next := ses.Crash();
    if Reachable(ses.from) { ReachRun(ses.from, ses.did); }
    ghost var recovered;
    ok, recovered := RecoverRun(next, ses.run, {}, ses.now);
    ok, refused, after := Resume(next, ses.run, cfg, ses.safe, ses.used, recovered);
  }

  /** A run of steps can end in a crash after any of them; what is stored then is what was stored there. */
  lemma CrashAnywhere(s: State, steps: seq<Step>, k: nat)
    requires Legal(s, steps) && k <= |steps|
    ensures Legal(s, steps[..k]) && Legal(s, steps[..k] + [Outside(OutsideStep.Crash)])
    ensures var here, dead := Run(s, steps[..k]), Run(s, steps[..k] + [Outside(OutsideStep.Crash)]);
            dead == here.(live := None)
  {
    PrefixLegal(s, steps, k);
    RunSnoc(s, steps[..k], Outside(OutsideStep.Crash));
  }

  lemma {:induction false} PrefixLegal(s: State, steps: seq<Step>, k: nat)
    requires Legal(s, steps) && k <= |steps|
    ensures Legal(s, steps[..k])
    decreases k
  {
    if k > 0 {
      assert steps[..k][0] == steps[0] && steps[..k][1..] == steps[1..][..k - 1];
      PrefixLegal(Apply(s, steps[0]), steps[1..], k - 1);
    }
  }
}
