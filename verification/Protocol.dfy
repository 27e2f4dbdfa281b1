/** The durable run of one run id as a step system (runtime/runtime.go, agent/agent.go).

    Three stores survive a crash: the event log, the checkpoint and the run record. A live attempt is
    lost by a crash. Every store write is a step of its own and may fail, with or without having
    stored its data; tool bodies and the model are oracles. */
module Protocol {
  import opened Types
  import opened ToolRun
  import opened Reconcile
  import T = Trajectory

  // ---------------------------------------------------------------- persistent state

  datatype Status = Pending | Running | WaitingApproval | Succeeded | Failed | Canceled

  predicate Ended(st: Status) { st == Succeeded || st == Failed || st == Canceled }

  datatype Record = Record(status: Status, pending: Option<string>, lastStep: nat)

  /** The result of one write: stored, refused, or reported as failed although stored. */
  datatype Write = Stored | Refused | Torn

  predicate Persisted(w: Write) { w != Refused }

  // ---------------------------------------------------------------- one attempt

  datatype Decision = Approved | Denied | Broken

  /** How far the execution of one call has come. `clean` remembers that no append or save had
      failed when the start check passed. */
  datatype Cell =
    | Idle | Proposed | Asking | Asked(cut: bool) | Answered(d: Decision) | Settled(d: Decision)
    | Granted | Declined | StartLogged | Cleared(clean: bool) | InBody | Returned(r: Outcome)
    | Done(msg: Message) | Aborted(msg: Message)

  datatype Pc =
    | Creating | Resetting | MarkRunning | FirstSave | Announcing | Opening
    | Top | InModel | Finale
    | InStep(base: seq<Message>, calls: seq<Call>, cells: seq<Cell>, collected: nat)
    | StepSave | StepRecord | StepEmit
    | RunnerDone(ok: bool) | Terminal(ok: bool) | Downgrade | Leaving(ok: bool)

  /** What the caller chose for an attempt. */
  datatype Config = Config(resumed: bool, tools: set<string>, parallel: bool, maxSteps: nat, maxBytes: nat)

  /** History of an attempt: where its log began, and whether its appends and its writes all succeeded
      and no Recover ran beside it; and whether its runner ended without an error while no append or save had
      failed. It steers nothing. */
  datatype Past = Past(logStart: nat, sqStart: int, appendsOk: bool, writesOk: bool, disturbed: bool, won: bool)

  datatype Attempt = Attempt(
    cfg: Config, idx: Option<Index>, sq: int, canceled: bool, persistErr: bool,
    messages: seq<Message>, step: nat, pc: Pc, past: Past)

  datatype Exec = Exec(callId: string, key: Key, clean: bool)

  /** History of the run: bodies run, prompts sent, results given back, and whether every initial
      input was closed. It steers nothing. */
  datatype Trace = Trace(execs: seq<Exec>, prompts: seq<seq<Message>>, outcomes: seq<bool>, closedInput: bool)

  /** `safe` holds the names of the RetrySafe tools; `used` every call id ever seen. */
  datatype State = State(
    log: seq<Event>, cp: Option<seq<Message>>, rec: Option<Record>, live: Option<Attempt>,
    used: set<string>, safe: set<string>, trace: Trace)

  function Init(safe: set<string>): State {
    State([], None, None, None, {}, safe, Trace([], [], [], true))
  }

  // ---------------------------------------------------------------- writes

  function Wrote(past: Past, w: Write): Past { past.(writesOk := past.writesOk && w == Stored) }

  /** failClosed: the first failure cancels the attempt and becomes its error. */
  function FailClosed(a: Attempt, w: Write): Attempt {
    a.(canceled := a.canceled || w != Stored, persistErr := a.persistErr || w != Stored, past := Wrote(a.past, w))
  }

  /** The wrapped emitter: the sequence number advances even when the append fails. */
  function Emit(s: State, e: Event, w: Write): State
    requires s.live.Some?
  {
    var a := s.live.value;
    s.(log := if Persisted(w) then s.log + [e.(sq := a.sq + 1)] else s.log,
       live := Some(FailClosed(a, w).(
         sq := a.sq + 1, past := Wrote(a.past, w).(appendsOk := a.past.appendsOk && w == Stored))))
  }

  function SaveCheckpoint(s: State, w: Write): State
    requires s.live.Some?
  {
    s.(cp := if Persisted(w) then Some(s.live.value.messages) else s.cp,
       live := Some(FailClosed(s.live.value, w)))
  }

  /** A record write whose failure the caller handles by itself. */
  function PutRecord(s: State, r: Record, w: Write): State
    requires s.live.Some?
  {
    s.(rec := if Persisted(w) then Some(r) else s.rec,
       live := Some(s.live.value.(past := Wrote(s.live.value.past, w))))
  }

  function Goto(s: State, pc: Pc): State
    requires s.live.Some?
  {
    s.(live := Some(s.live.value.(pc := pc)))
  }

  function Current(s: State): Record { if s.rec.Some? then s.rec.value else Record(Pending, None, 0) }

  // ---------------------------------------------------------------- cells

  const UNKNOWN := Ascii("model requested an unknown or unauthorized tool")
  const BAD_ARGUMENTS := Ascii("tool arguments are not valid JSON: ")
  const INTERRUPTED := Ascii("tool approval interrupted: ")
  const DENIED := Ascii("tool is denied by policy")
  const NOT_APPROVED := Ascii("tool call was not approved by the user")
  const NOTICE := Ascii("Recovery notice: this call was started before the previous interruption")

  datatype Choice = Proceed | Reject(reason: Text) | Deny

  /** The emitting moves of one call: the event and the next cell. */
  function CellMove(c: Call, cell: Cell, choice: Choice, maxBytes: nat, cut: bool): Option<(Event, Cell)> {
    match (cell, choice)
    case (Idle, Reject(reason)) => Some((ErrorEvent(c, reason), Done(ErrorMessage(c, reason))))
    case (Idle, Proceed) => Some((CallEvent(ToolProposed, c), Proposed))
    case (Proposed, Deny) => Some((ErrorEvent(c, DENIED), Done(ErrorMessage(c, DENIED))))
    case (Proposed, Proceed) => Some((CallEvent(ToolStarted, c), StartLogged))
    case (Asking, Proceed) => Some((CallEvent(ApprovalRequired, c), Asked(cut)))
    case (Settled(Approved), Proceed) => Some((CallEvent(ApprovalRequired, c), Granted))
    case (Settled(Denied), Proceed) => Some((CallEvent(ApprovalRequired, c), Declined))
    case (Settled(Broken), Reject(reason)) => Some((ErrorEvent(c, reason), Aborted(ErrorMessage(c, reason))))
    case (Declined, Proceed) => Some((ErrorEvent(c, NOT_APPROVED), Done(ErrorMessage(c, NOT_APPROVED))))
    case (Granted, Proceed) => Some((CallEvent(ToolStarted, c), StartLogged))
    case (Returned(r), Proceed) => Some((ResultEvent(c, r, maxBytes), Done(ResultMessage(c, r, maxBytes))))
    case _ => None
  }

  /** Which branch a call may take: unknown tools and arguments that do not parse are refused with their
      own reason, and only known tools go on. */
  predicate Permits(c: Call, cell: Cell, choice: Choice, tools: set<string>) {
    match (cell, choice)
    case (Idle, Proceed) => c.name in tools
    case (Idle, Reject(reason)) => if c.name in tools then BAD_ARGUMENTS <= reason else reason == UNKNOWN
    case (Settled(_), Reject(reason)) => INTERRUPTED <= reason
    case _ => true
  }

  predicate Ready(cell: Cell) { cell.Done? || cell.Aborted? }

  predicate Concurrent(a: Attempt)
    requires a.pc.InStep?
  {
    a.cfg.parallel && |a.pc.calls| > 1
  }

  /** Sequential steps work on the first uncollected call only. */
  predicate Active(s: State, i: nat) {
    && s.live.Some? && s.live.value.pc.InStep?
    && var a := s.live.value;
       i < |a.pc.cells| == |a.pc.calls| && (Concurrent(a) || i == a.pc.collected)
  }

  function CellAt(s: State, i: nat): Cell
    requires Active(s, i)
  {
    s.live.value.pc.cells[i]
  }

  function CallAt(s: State, i: nat): Call
    requires Active(s, i)
  {
    s.live.value.pc.calls[i]
  }

  function SetCell(s: State, i: nat, cell: Cell): State
    requires Active(s, i)
  {
    var pc := s.live.value.pc;
    Goto(s, pc.(cells := pc.cells[i := cell]))
  }

  /** The locked part of Execute; a tool that is not wrapped always runs. */
  function Consulted(s: State, i: nat): (Option<Index>, Hit)
    requires Active(s, i)
  {
    var a, c := s.live.value, CallAt(s, i);
    if a.idx.None? then (None, RunBody)
    else (Some(Take(a.idx.value, CallKey(c), c.name in s.safe).0), Take(a.idx.value, CallKey(c), c.name in s.safe).1)
  }

  function HitCell(hit: Hit): Cell {
    match hit
    case Reuse(rec) => Returned(Replayed(rec))
    case Notice => Returned(Result(NOTICE, true, []))
    case RunBody => InBody
  }

  /** The lock of the resume index, then the body outside the lock. */
  function ExecuteCell(s: State, i: nat): State
    requires Active(s, i) && CellAt(s, i).Cleared?
  {
    var c, r, pc := CallAt(s, i), Consulted(s, i), s.live.value.pc;
    s.(live := Some(s.live.value.(idx := r.0, pc := pc.(cells := pc.cells[i := HitCell(r.1)]))),
       trace := if r.1.RunBody?
                then s.trace.(execs := s.trace.execs + [Exec(c.id, CallKey(c), CellAt(s, i).clean)])
                else s.trace)
  }

  /** The event a cell emits and the cell it becomes when the append has result `w`. */
  function CellEmission(s: State, i: nat, choice: Choice, w: Write): (Event, Cell)
    requires Active(s, i)
    requires CellMove(CallAt(s, i), CellAt(s, i), choice, s.live.value.cfg.maxBytes, false).Some?
  {
    var a := s.live.value;
    CellMove(CallAt(s, i), CellAt(s, i), choice, a.cfg.maxBytes, a.canceled || w != Stored).value
  }

  function EmitCell(s: State, i: nat, choice: Choice, w: Write): State
    requires Active(s, i)
    requires CellMove(CallAt(s, i), CellAt(s, i), choice, s.live.value.cfg.maxBytes, false).Some?
  {
    var emission := CellEmission(s, i, choice, w);
    SetCell(Emit(s, emission.0, w), i, emission.1)
  }

  // ---------------------------------------------------------------- record writes by program point

  /** The record a program point writes, and where it goes when the write succeeds or fails. */
  function RecordPlan(s: State): Option<(Record, Pc, Pc)>
    requires s.live.Some?
  {
    var a, r := s.live.value, Current(s);
    match a.pc
    case Creating => Some((Record(Pending, None, 0), MarkRunning, Leaving(false)))
    case Resetting => Some((r.(status := Pending, pending := None), MarkRunning, Leaving(false)))
    case MarkRunning => Some((r.(status := Running), if a.cfg.resumed then Announcing else FirstSave, Leaving(false)))
    case StepRecord => Some((r.(lastStep := a.step), StepEmit, StepEmit))
    case RunnerDone(ok) =>
      var final := if a.persistErr then Failed else if ok then Succeeded else if a.canceled then Canceled else Failed;
      Some((r.(status := final, pending := None), Terminal(ok && !a.persistErr), Leaving(false)))
    case Downgrade => Some((r.(status := Failed), Leaving(false), Leaving(false)))
    case _ => None
  }

  function Judged(a: Attempt, ok: bool): Attempt { a.(past := a.past.(won := ok && !a.persistErr)) }

  function WriteRecord(s: State, w: Write): State
    requires s.live.Some? && RecordPlan(s).Some?
  {
    var (r, yes, no) := RecordPlan(s).value;
    var s' := Goto(PutRecord(s, r, w), if w == Stored then yes else no);
    if s.live.value.pc.StepRecord? then s'.(live := Some(FailClosed(s'.live.value, w)))
    else if s.live.value.pc.RunnerDone? then s'.(live := Some(Judged(s'.live.value, s.live.value.pc.ok)))
    else s'
  }

  // ---------------------------------------------------------------- events by program point

  function EventPlan(a: Attempt): Option<(EventType, Pc)> {
    match a.pc
    case Announcing => Some((RunResumed, Opening))
    case Opening => Some((RunStart, Top))
    case StepEmit => Some((StepDone, Top))
    case Finale => Some((FinalAnswer, RunnerDone(true)))
    case Terminal(ok) => Some((if ok then RunDone else RunError, Leaving(ok)))
    case _ => None
  }

  function PlannedEvent(a: Attempt): Event
    requires EventPlan(a).Some?
  {
    PlainEvent(EventPlan(a).value.0)
  }

  function LoopEmit(s: State, w: Write): State
    requires s.live.Some? && EventPlan(s.live.value).Some?
  {
    var a := s.live.value;
    var s', next := Emit(s, PlannedEvent(a), w), EventPlan(a).value.1;
    if a.pc.Terminal? && w != Stored && !a.persistErr then Goto(s', Downgrade)
    else if a.pc.StepEmit? then Goto(s'.(live := Some(s'.live.value.(step := a.step + 1))), next)
    else Goto(s', next)
  }

  // ---------------------------------------------------------------- steps

  datatype LaunchStep =
    | StartRun(initial: seq<Message>, tools: set<string>, parallel: bool, maxSteps: nat, maxBytes: nat)
    | Resume(rtools: set<string>, rparallel: bool, rmaxSteps: nat, rmaxBytes: nat, idx: Index)

  /** Writes of the runtime around the runner, and the runner's own loop. */
  datatype LoopStep =
    | RecordWrite(rw: Write) | CheckpointWrite(cw: Write) | PlainEmit(ew: Write) | Leave
    | CallModel | Delta(dw: Write) | ModelFails(partial: Text) | ModelAnswers(answer: Text)
    | ModelCalls(text: Text, calls: seq<Call>)
    | Collect(w: Write) | StepAborts | StepCompletes

  /** Progress of one call; in a parallel step any call may move next. A handler may decide without
      announcing the call first, and then no wait is recorded. */
  datatype CallStep =
    | Move(choice: Choice, mw: Write) | AskRecord(aw: Write) | Decide(d: Decision) | AnswerRecord(nw: Write)
    | Check | Execute | BodyReturn(r: Outcome)

  datatype OutsideStep = Cancel | Crash | Recover(vw: Write)

  datatype Step = Launch(launch: LaunchStep) | Loop(loop: LoopStep) | OnCall(i: nat, call: CallStep)
                | Outside(outside: OutsideStep)

  function CallIds(ms: seq<Message>): set<string> {
    (set i, j | 0 <= i < |ms| && 0 <= j < |ms[i].calls| :: ms[i].calls[j].id) + T.ToolIds(ms)
  }

  /** Call ids are unique over the whole log of a run: an explicit assumption about the model. */
  predicate FreshCalls(s: State, calls: seq<Call>) {
    && T.DistinctIds(calls)
    && forall i :: 0 <= i < |calls| ==> calls[i].id != "" && calls[i].id !in s.used
  }

  predicate AtPc(s: State, pc: Pc) { s.live.Some? && s.live.value.pc == pc }

  predicate CanCollect(s: State) {
    && s.live.Some? && s.live.value.pc.InStep?
    && var pc := s.live.value.pc;
       && pc.collected < |pc.cells| == |pc.calls|
       && if Concurrent(s.live.value) then forall i :: 0 <= i < |pc.cells| ==> Ready(pc.cells[i])
          else pc.cells[pc.collected].Done?
  }

  predicate CanAbort(s: State) {
    && s.live.Some? && s.live.value.pc.InStep?
    && var pc := s.live.value.pc;
       && pc.collected <= |pc.cells| == |pc.calls|
       && if Concurrent(s.live.value)
          then pc.collected == |pc.cells| && exists i :: 0 <= i < |pc.cells| && pc.cells[i].Aborted?
          else pc.collected < |pc.cells| && pc.cells[pc.collected].Aborted?
  }

  predicate CanComplete(s: State) {
    && s.live.Some? && s.live.value.pc.InStep?
    && var pc := s.live.value.pc;
       pc.collected == |pc.cells| && forall i :: 0 <= i < |pc.cells| ==> !pc.cells[i].Aborted?
  }

  ghost predicate CanLaunch(s: State, step: LaunchStep) {
    match step
    case StartRun(_, _, _, _, _) => s.live.None? && s.rec.None?
    case Resume(_, _, _, _, idx) =>
      && s.live.None? && s.rec.Some? && s.rec.value.status in {Failed, Canceled} && s.cp.Some?
      && Reflects(idx, s.log, T.ToolIds(T.Trim(s.cp.value)))
  }

  predicate CanLoop(s: State, step: LoopStep) {
    match step
    case RecordWrite(_) => s.live.Some? && RecordPlan(s).Some?
    case CheckpointWrite(_) => AtPc(s, FirstSave) || AtPc(s, StepSave)
    case PlainEmit(_) => s.live.Some? && EventPlan(s.live.value).Some?
    case Leave => s.live.Some? && s.live.value.pc.Leaving?
    case CallModel => AtPc(s, Top)
    case Delta(_) => AtPc(s, InModel)
    case ModelFails(_) => AtPc(s, InModel)
    case ModelAnswers(_) => AtPc(s, InModel)
    case ModelCalls(_, calls) =>
      AtPc(s, InModel) && s.live.value.step <= s.live.value.cfg.maxSteps && calls != [] && FreshCalls(s, calls)
    case Collect(_) => CanCollect(s)
    case StepAborts => CanAbort(s)
    case StepCompletes => CanComplete(s)
  }

  predicate CanCall(s: State, i: nat, step: CallStep) {
    && Active(s, i)
    && match step
       case Move(choice, _) =>
         && CellMove(CallAt(s, i), CellAt(s, i), choice, s.live.value.cfg.maxBytes, false).Some?
         && Permits(CallAt(s, i), CellAt(s, i), choice, s.live.value.cfg.tools)
       case AskRecord(_) => CellAt(s, i).Proposed?
       case Decide(d) => CellAt(s, i).Proposed? || (CellAt(s, i).Asked? && (CellAt(s, i).cut ==> d == Broken))
       case AnswerRecord(_) => CellAt(s, i).Answered?
       case Check => CellAt(s, i).StartLogged?
       case Execute => CellAt(s, i).Cleared?
       case BodyReturn(_) => CellAt(s, i).InBody?
  }

  predicate CanOutside(s: State, step: OutsideStep) {
    match step
    case Cancel => s.live.Some?
    case Crash => true
    case Recover(_) => s.rec.Some? && !Ended(s.rec.value.status)
  }

  ghost predicate Enabled(s: State, step: Step) {
    match step
    case Launch(launch) => CanLaunch(s, launch)
    case Loop(loop) => CanLoop(s, loop)
    case OnCall(i, call) => CanCall(s, i, call)
    case Outside(outside) => CanOutside(s, outside)
  }

  function MaxSeq(log: seq<Event>): int {
    if log == [] then 0
    else
      var m := MaxSeq(log[..|log| - 1]);
      if log[|log| - 1].sq > m then log[|log| - 1].sq else m
  }

  ghost function ApplyLaunch(s: State, step: LaunchStep): State
    requires CanLaunch(s, step)
  {
    match step
    case StartRun(initial, tools, parallel, maxSteps, maxBytes) =>
      s.(live := Some(Attempt(Config(false, tools, parallel, maxSteps, maxBytes), None, 0, false, false,
                              initial, 1, Creating, Past(|s.log|, 0, true, true, false, false))),
         used := s.used + CallIds(initial),
         trace := s.trace.(closedInput := s.trace.closedInput && T.Closed(initial)))
    case Resume(tools, parallel, maxSteps, maxBytes, idx) =>
      var last := MaxSeq(s.log);
      s.(live := Some(Attempt(Config(true, tools, parallel, maxSteps, maxBytes),
                              if tools == {} || Empty(idx) then None else Some(idx), last, false, false,
                              T.Trim(s.cp.value), 1, Resetting, Past(|s.log|, last, true, true, false, false))))
  }

  function WriteCheckpoint(s: State, w: Write): State
    requires s.live.Some?
  {
    if AtPc(s, StepSave) then Goto(SaveCheckpoint(s, w), StepRecord)
    else
      s.(cp := if Persisted(w) then Some(s.live.value.messages) else s.cp,
         live := Some(s.live.value.(past := Wrote(s.live.value.past, w),
                                    pc := if w == Stored then Opening else Leaving(false))))
  }

  function AskModel(s: State): State
    requires s.live.Some?
  {
    var a := s.live.value;
    if a.step <= a.cfg.maxSteps && a.canceled then Goto(s, RunnerDone(false))
    else Goto(s, InModel).(trace := s.trace.(prompts := s.trace.prompts + [a.messages]))
  }

  function BeginStep(s: State, text: Text, calls: seq<Call>): State
    requires s.live.Some?
  {
    var a := s.live.value;
    s.(live := Some(a.(messages := a.messages + [AssistantMessage(text, calls)],
                       pc := InStep(a.messages, calls, seq(|calls|, _ => Idle), 0))),
       used := s.used + set i | 0 <= i < |calls| :: calls[i].id)
  }

  function Collected(s: State): State
    requires CanCollect(s)
  {
    var a := s.live.value;
    s.(live := Some(a.(messages := a.messages + [a.pc.cells[a.pc.collected].msg],
                       pc := a.pc.(collected := a.pc.collected + 1))))
  }

  function CollectNext(s: State, w: Write): State
    requires CanCollect(s)
  {
    SaveCheckpoint(Collected(s), w)
  }

  function ApplyLoop(s: State, step: LoopStep): State
    requires CanLoop(s, step)
  {
    match step
    case RecordWrite(w) => WriteRecord(s, w)
    case CheckpointWrite(w) => WriteCheckpoint(s, w)
    case PlainEmit(w) => LoopEmit(s, w)
    case Leave => s.(live := None, trace := s.trace.(outcomes := s.trace.outcomes + [s.live.value.pc.ok]))
    case CallModel => AskModel(s)
    case Delta(w) => Emit(s, PlainEvent(ModelDelta), w)
    case ModelFails(partial) =>
      var a := s.live.value;
      var messages := if partial != [] && a.step <= a.cfg.maxSteps then a.messages + [AssistantMessage(partial, [])]
                      else a.messages;
      s.(live := Some(a.(messages := messages, pc := RunnerDone(false))))
    case ModelAnswers(answer) =>
      var a := s.live.value;
      s.(live := Some(a.(messages := a.messages + [AssistantMessage(answer, [])], pc := Finale)))
    case ModelCalls(text, calls) => BeginStep(s, text, calls)
    case Collect(w) => CollectNext(s, w)
    case StepAborts => Goto(s, RunnerDone(false))
    case StepCompletes => Goto(s, StepSave)
  }

  function ApplyCall(s: State, i: nat, step: CallStep): State
    requires CanCall(s, i, step)
  {
    match step
    case Move(choice, w) => EmitCell(s, i, choice, w)
    case AskRecord(w) =>
      SetCell(PutRecord(s, Current(s).(status := WaitingApproval, pending := Some(CallAt(s, i).id)), w), i,
              if w == Stored then Asking else Answered(Broken))
    case Decide(d) => SetCell(s, i, Answered(d))
    case AnswerRecord(w) =>
      SetCell(PutRecord(s, Current(s).(status := Running, pending := None), w), i,
              Settled(if w == Stored then CellAt(s, i).d else Broken))
    case Check =>
      SetCell(s, i, if s.live.value.canceled then Aborted(ZERO_MESSAGE) else Cleared(!s.live.value.persistErr))
    case Execute => ExecuteCell(s, i)
    case BodyReturn(r) => SetCell(s, i, Returned(r))
  }

  function ApplyOutside(s: State, step: OutsideStep): State
    requires CanOutside(s, step)
  {
    match step
    case Cancel => s.(live := Some(s.live.value.(canceled := true)))
    case Crash => s.(live := None)
    case Recover(w) =>
      s.(rec := if Persisted(w) then Some(s.rec.value.(status := Failed)) else s.rec,
         live := if s.live.Some? then Some(s.live.value.(past := s.live.value.past.(disturbed := true))) else None)
  }

  ghost function Apply(s: State, step: Step): State
    requires Enabled(s, step)
  {
    match step
    case Launch(launch) => ApplyLaunch(s, launch)
    case Loop(loop) => ApplyLoop(s, loop)
    case OnCall(i, call) => ApplyCall(s, i, call)
    case Outside(outside) => ApplyOutside(s, outside)
  }

  ghost predicate Legal(s: State, steps: seq<Step>)
    decreases |steps|
  {
    steps == [] || (Enabled(s, steps[0]) && Legal(Apply(s, steps[0]), steps[1..]))
  }

  ghost function Run(s: State, steps: seq<Step>): State
    requires Legal(s, steps)
    decreases |steps|
  {
    if steps == [] then s else Run(Apply(s, steps[0]), steps[1..])
  }

  /** Every state some run leads to, with any crashes, failed writes and attempts in between. */
  ghost predicate Reachable(s: State) {
    exists safe: set<string>, steps: seq<Step> :: Legal(Init(safe), steps) && Run(Init(safe), steps) == s
  }
}
