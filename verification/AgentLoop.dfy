/** The agent loop and the execution of one call, as the code performs them on the variables of a session
    (agent/agent.go). The runner itself has no state. Every method leaves the session a legal protocol run;
    a cancellation may come before every action. */
module AgentLoop {
  import opened Types
  import opened ToolRun
  import opened Reconcile
  import opened Protocol
  import opened R = Runtime
  import T = Trajectory

  // ---------------------------------------------------------------- what a call meets

  /** The policies of a tool call. */
  datatype Policy = Auto | Confirm | DenyCall

  /** Everything outside that one call meets: whether its arguments parse, its policy, what becomes of its
      approval, what its body produces, and the error text that goes into an error receipt. */
  datatype Oracle = Oracle(malformed: bool, reason: Text, policy: Policy, announces: bool, interrupted: bool,
                           approved: bool, result: Outcome)

  method Guess(n: nat) returns (oracles: seq<Oracle>)
    ensures |oracles| == n
  {
    oracles := [];
    while |oracles| < n
      invariant |oracles| <= n
    {
      var o: Oracle := *;
      oracles := oracles + [o];
    }
  }

  function RefusalReason(c: Call, o: Oracle, tools: set<string>): Text {
    if c.name !in tools then UNKNOWN else BAD_ARGUMENTS + o.reason
  }

  function Wish(o: Oracle): Decision { if o.approved then Approved else Denied }

  predicate Sound(c: Call, o: Oracle, cfg: Config) { c.name in cfg.tools && !o.malformed }

  predicate MayStart(c: Call, o: Oracle, cfg: Config) {
    Sound(c, o, cfg) && (o.policy == Auto || (o.policy == Confirm && o.approved && !o.interrupted))
  }

  /** What the tool may answer. Wrapped by an index it gives a receipt recorded for the key, or the notice
      for a call that may have run and must not run again; otherwise what its body produced. */
  ghost predicate Receipt(ses: Session, r: Outcome, c: Call, o: Oracle) {
    || (ses.MayExecute(c) && r == o.result)
    || (!ses.MayExecute(c) && r == Result(NOTICE, true, []))
    || (ses.wrap.Some? && exists rec :: rec in Results(ses.wrap.value, CallKey(c)) && r == Replayed(rec))
  }

  /** The answer to a call that ends without an abort. */
  ghost predicate Answers(ses: Session, m: Message, c: Call, o: Oracle) {
    if !Sound(c, o, ses.cfg) then m == ErrorMessage(c, RefusalReason(c, o, ses.cfg.tools))
    else if o.policy == DenyCall then m == ErrorMessage(c, DENIED)
    else if MayStart(c, o, ses.cfg) then
      exists r :: Receipt(ses, r, c, o) && m == ResultMessage(c, r, ses.cfg.maxBytes)
    else !o.interrupted && m == ErrorMessage(c, NOT_APPROVED)
  }

  /** The message of a call that aborts the run. */
  ghost predicate Aborts(ses: Session, m: Message, c: Call, o: Oracle) {
    && Sound(c, o, ses.cfg)
    && ((MayStart(c, o, ses.cfg) && m == ZERO_MESSAGE)
        || (o.policy == Confirm && m == ErrorMessage(c, INTERRUPTED + o.reason)))
  }

  /** Where a call may stand, given its oracle. */
  ghost predicate Tracked(ses: Session, cell: Cell, c: Call, o: Oracle) {
    match cell
    case Idle => true
    case Done(m) => Answers(ses, m, c, o)
    case Aborted(m) => Aborts(ses, m, c, o)
    case Proposed => Sound(c, o, ses.cfg)
    case Asking => Sound(c, o, ses.cfg) && o.policy == Confirm
    case Asked(_) => Sound(c, o, ses.cfg) && o.policy == Confirm
    case Answered(d) => Sound(c, o, ses.cfg) && o.policy == Confirm && Heard(d, o)
    case Settled(d) => Sound(c, o, ses.cfg) && o.policy == Confirm && Heard(d, o)
    case Declined => Sound(c, o, ses.cfg) && o.policy == Confirm && !o.interrupted && !o.approved
    case InBody => MayStart(c, o, ses.cfg) && ses.MayExecute(c)
    case Returned(r) => MayStart(c, o, ses.cfg) && Receipt(ses, r, c, o)
    case _ => MayStart(c, o, ses.cfg)
  }

  predicate Heard(d: Decision, o: Oracle) { d == Broken || (!o.interrupted && d == Wish(o)) }

  /** What one action of a call can lead to. */
  predicate Follows(cell: Cell, next: Cell) {
    match next
    case Proposed => cell.Idle?
    case Asking => cell.Proposed?
    case Asked(_) => cell.Asking?
    case Answered(_) => cell.Proposed? || cell.Asked?
    case Settled(_) => cell.Answered?
    case Granted => cell.Settled?
    case Declined => cell.Settled?
    case StartLogged => cell.Proposed? || cell.Granted?
    case Cleared(_) => cell.StartLogged?
    case InBody => cell.Cleared?
    case Returned(_) => cell.Cleared? || cell.InBody?
    case Done(_) => cell.Idle? || cell.Proposed? || cell.Declined? || cell.Returned?
    case Aborted(_) => cell.Settled? || cell.StartLogged?
    case Idle => false
  }

  /** How many actions a call has left at most. */
  function Rank(cell: Cell): nat {
    match cell
    case Idle => 12
    case Proposed => 11
    case Asking => 10
    case Asked(_) => 9
    case Answered(_) => 8
    case Settled(_) => 7
    case Granted => 6
    case Declined => 6
    case StartLogged => 5
    case Cleared(_) => 4
    case InBody => 3
    case Returned(_) => 2
    case _ => 0
  }

  lemma ActionsEnd(cell: Cell, next: Cell)
    requires Follows(cell, next)
    ensures Rank(next) < Rank(cell)
  {}

  // ---------------------------------------------------------------- the receipts and notices of one call

  /** An unknown tool or arguments that do not parse. */
  method Refuse(ses: Session, ghost pc: Pc, i: nat, c: Call, o: Oracle) returns (out: Message)
    requires ses.Valid() && ses.OnCell(pc, i, Idle) && c == pc.calls[i] && !Sound(c, o, ses.cfg)
    modifies ses`did, ses`now, ses`canceled, ses`persistErr, ses.rt`seqs, ses.rt.events
    ensures ses.Valid() && ses.OnCell(pc, i, Done(out))
    ensures out == ErrorMessage(c, RefusalReason(c, o, ses.cfg.tools))
    ensures Logs(old(ses.rt.events.Of(ses.run)), ses.rt.events.Of(ses.run), ToolError, c.id, c.name)
  {
    var w: Write := *;
    var reason := RefusalReason(c, o, ses.cfg.tools);
    out := ErrorMessage(c, reason);
    ses.EmitMove(pc, i, Idle, Reject(reason), ErrorEvent(c, reason), w);
  }

  method Propose(ses: Session, ghost pc: Pc, i: nat, c: Call)
    requires ses.Valid() && ses.OnCell(pc, i, Idle) && c.name in ses.cfg.tools && c == pc.calls[i]
    modifies ses`did, ses`now, ses`canceled, ses`persistErr, ses.rt`seqs, ses.rt.events
    ensures ses.Valid() && ses.OnCell(pc, i, Proposed)
    ensures Logs(old(ses.rt.events.Of(ses.run)), ses.rt.events.Of(ses.run), ToolProposed, c.id, c.name)
  {
    var w: Write := *;
    ses.EmitMove(pc, i, Idle, Proceed, CallEvent(ToolProposed, c), w);
  }

  method DenyByPolicy(ses: Session, ghost pc: Pc, i: nat, c: Call) returns (out: Message)
    requires ses.Valid() && ses.OnCell(pc, i, Proposed) && c == pc.calls[i]
    modifies ses`did, ses`now, ses`canceled, ses`persistErr, ses.rt`seqs, ses.rt.events
    ensures ses.Valid() && ses.OnCell(pc, i, Done(out)) && out == ErrorMessage(c, DENIED)
    ensures Logs(old(ses.rt.events.Of(ses.run)), ses.rt.events.Of(ses.run), ToolError, c.id, c.name)
  {
    var w: Write := *;
    out := ErrorMessage(c, DENIED);
    ses.EmitMove(pc, i, Proposed, Deny, ErrorEvent(c, DENIED), w);
  }

  method LogStart(ses: Session, ghost pc: Pc, i: nat, c: Call, ghost cell: Cell)
    requires ses.Valid() && ses.OnCell(pc, i, cell) && (cell == Proposed || cell == Granted) && c == pc.calls[i]
    modifies ses`did, ses`now, ses`canceled, ses`persistErr, ses.rt`seqs, ses.rt.events
    ensures ses.Valid() && ses.OnCell(pc, i, StartLogged)
    ensures Logs(old(ses.rt.events.Of(ses.run)), ses.rt.events.Of(ses.run), ToolStarted, c.id, c.name)
  {
    var w: Write := *;
    ses.EmitMove(pc, i, cell, Proceed, CallEvent(ToolStarted, c), w);
  }

  /** The announcement reports whether the attempt was cancelled by then. */
  method AnnounceWait(ses: Session, ghost pc: Pc, i: nat, c: Call)
    requires ses.Valid() && ses.OnCell(pc, i, Asking) && c == pc.calls[i]
    modifies ses`did, ses`now, ses`canceled, ses`persistErr, ses.rt`seqs, ses.rt.events
    ensures ses.Valid() && ses.OnCell(pc, i, Asked(ses.canceled))
    ensures Logs(old(ses.rt.events.Of(ses.run)), ses.rt.events.Of(ses.run), ApprovalRequired, c.id, c.name)
  {
    var w: Write := *;
    ses.EmitMove(pc, i, Asking, Proceed, CallEvent(ApprovalRequired, c), w);
  }

  method LogDecision(ses: Session, ghost pc: Pc, i: nat, c: Call, approved: bool)
    requires ses.Valid() && ses.OnCell(pc, i, Settled(if approved then Approved else Denied)) && c == pc.calls[i]
    modifies ses`did, ses`now, ses`canceled, ses`persistErr, ses.rt`seqs, ses.rt.events
    ensures ses.Valid() && ses.OnCell(pc, i, if approved then Granted else Declined)
    ensures Logs(old(ses.rt.events.Of(ses.run)), ses.rt.events.Of(ses.run), ApprovalRequired, c.id, c.name)
  {
    var w: Write := *;
    ses.EmitMove(pc, i, Settled(if approved then Approved else Denied), Proceed, CallEvent(ApprovalRequired, c), w);
  }

  method LogBroken(ses: Session, ghost pc: Pc, i: nat, c: Call, o: Oracle) returns (out: Message)
    requires ses.Valid() && ses.OnCell(pc, i, Settled(Broken)) && c == pc.calls[i]
    modifies ses`did, ses`now, ses`canceled, ses`persistErr, ses.rt`seqs, ses.rt.events
    ensures ses.Valid() && ses.OnCell(pc, i, Aborted(out)) && out == ErrorMessage(c, INTERRUPTED + o.reason)
    ensures Logs(old(ses.rt.events.Of(ses.run)), ses.rt.events.Of(ses.run), ToolError, c.id, c.name)
  {
    var w: Write := *;
    var reason := INTERRUPTED + o.reason;
    out := ErrorMessage(c, reason);
    ses.EmitMove(pc, i, Settled(Broken), Reject(reason), ErrorEvent(c, reason), w);
  }

  method LogDeclined(ses: Session, ghost pc: Pc, i: nat, c: Call) returns (out: Message)
    requires ses.Valid() && ses.OnCell(pc, i, Declined) && c == pc.calls[i]
    modifies ses`did, ses`now, ses`canceled, ses`persistErr, ses.rt`seqs, ses.rt.events
    ensures ses.Valid() && ses.OnCell(pc, i, Done(out)) && out == ErrorMessage(c, NOT_APPROVED)
    ensures Logs(old(ses.rt.events.Of(ses.run)), ses.rt.events.Of(ses.run), ToolError, c.id, c.name)
  {
    var w: Write := *;
    out := ErrorMessage(c, NOT_APPROVED);
    ses.EmitMove(pc, i, Declined, Proceed, ErrorEvent(c, NOT_APPROVED), w);
  }

  method Deliver(ses: Session, ghost pc: Pc, i: nat, c: Call, r: Outcome) returns (out: Message)
    requires ses.Valid() && ses.OnCell(pc, i, Returned(r)) && c == pc.calls[i]
    modifies ses`did, ses`now, ses`canceled, ses`persistErr, ses.rt`seqs, ses.rt.events
    ensures ses.Valid() && ses.OnCell(pc, i, Done(out)) && out == ResultMessage(c, r, ses.cfg.maxBytes)
    ensures Logs(old(ses.rt.events.Of(ses.run)), ses.rt.events.Of(ses.run),
                 if r.Failure? || r.isError then ToolError else ToolResult, c.id, c.name)
  {
    var w: Write := *;
    out := ResultMessage(c, r, ses.cfg.maxBytes);
    ses.EmitMove(pc, i, Returned(r), Proceed, ResultEvent(c, r, ses.cfg.maxBytes), w);
  }

  // ---------------------------------------------------------------- one action of a call

  predicate Waits(cell: Cell) { cell.Asking? || cell.Asked? || cell.Answered? || cell.Settled? }

  /** One action of a call, which stands at `cell` of execCall. The start check aborts the call exactly when
      the attempt was cancelled by then. */
  method Act(ses: Session, ghost pc: Pc, i: nat, c: Call, cell: Cell, o: Oracle) returns (next: Cell)
    requires ses.Valid() && ses.OnCell(pc, i, cell) && c == pc.calls[i] && !Ready(cell) && Tracked(ses, cell, c, o)
    modifies ses`did, ses`now, ses`canceled, ses`persistErr, ses.rt`seqs, ses.rt.runs, ses.rt.events, ses.index
    ensures ses.Valid() && ses.OnCell(pc, i, next) && Follows(cell, next) && Tracked(ses, next, c, o)
    ensures cell.StartLogged? ==> (next.Aborted? <==> ses.canceled) && (old(ses.canceled) ==> ses.canceled)
  {
    ses.Interfere();
    if cell.Idle? || cell.Proposed? {
      next := ActBefore(ses, pc, i, c, cell, o);
    } else if Waits(cell) {
      next := ActApproval(ses, pc, i, c, cell, o);
    } else {
      next := ActAfter(ses, pc, i, c, cell, o);
    }
  }

  /** Up to the decision how the call goes on. */
  method ActBefore(ses: Session, ghost pc: Pc, i: nat, c: Call, cell: Cell, o: Oracle) returns (next: Cell)
    requires ses.Valid() && ses.OnCell(pc, i, cell) && c == pc.calls[i] && Tracked(ses, cell, c, o)
    requires cell.Idle? || cell.Proposed?
    modifies ses`did, ses`now, ses`canceled, ses`persistErr, ses.rt`seqs, ses.rt.runs, ses.rt.events
    ensures ses.Valid() && ses.OnCell(pc, i, next) && Follows(cell, next) && Tracked(ses, next, c, o)
  {
    if cell.Idle? && !Sound(c, o, ses.cfg) {
      var out := Refuse(ses, pc, i, c, o);
      return Done(out);
    }
    if cell.Idle? {
      Propose(ses, pc, i, c);
      return Proposed;
    }
    match o.policy {
      case DenyCall =>
        var out := DenyByPolicy(ses, pc, i, c);
        next := Done(out);
      case Auto =>
        LogStart(ses, pc, i, c, cell);
        next := StartLogged;
      case Confirm => next := ActConfirm(ses, pc, i, c, o);
    }
  }

  /** The request for an approval: unless the handler decides without announcing it, the wait is recorded
      before it is announced. */
  method ActConfirm(ses: Session, ghost pc: Pc, i: nat, c: Call, o: Oracle) returns (next: Cell)
    requires ses.Valid() && ses.OnCell(pc, i, Proposed) && c == pc.calls[i]
    requires Sound(c, o, ses.cfg) && o.policy == Confirm
    modifies ses`did, ses`now, ses.rt.runs
    ensures ses.Valid() && ses.OnCell(pc, i, next) && Follows(Proposed, next) && Tracked(ses, next, c, o)
    ensures if o.announces then next in {Asking, Answered(Broken)}
            else next == Answered(if o.interrupted then Broken else Wish(o))
  {
    if o.announces {
      var w: Write := *;
      var asked := ses.AskApproval(pc, i, c.id, w);
      return if asked then Asking else Answered(Broken);
    }
    next := Answered(if o.interrupted then Broken else Wish(o));
    ses.CellNow(pc, i, Proposed);
    ses.Quiet(pc, i, Proposed, Decide(next.d));
  }

  /** The wait for an approval and what comes of it: a cancelled announcement or an interruption breaks the
      approval, and the record is set back before the decision counts. */
  method ActApproval(ses: Session, ghost pc: Pc, i: nat, c: Call, cell: Cell, o: Oracle) returns (next: Cell)
    requires ses.Valid() && ses.OnCell(pc, i, cell) && c == pc.calls[i] && Tracked(ses, cell, c, o) && Waits(cell)
    modifies ses`did, ses`now, ses`canceled, ses`persistErr, ses.rt`seqs, ses.rt.runs, ses.rt.events
    ensures ses.Valid() && ses.OnCell(pc, i, next) && Follows(cell, next) && Tracked(ses, next, c, o)
    ensures match cell
            case Asking => next == Asked(ses.canceled)
            case Asked(cut) => next == Answered(if cut || o.interrupted then Broken else Wish(o))
            case Answered(d) => next in {Settled(d), Settled(Broken)}
            case _ => next.Aborted? <==> cell == Settled(Broken)
  {
    if cell.Asking? {
      AnnounceWait(ses, pc, i, c);
      next := Asked(ses.canceled);
    } else if cell.Asked? {
      next := Answered(if cell.cut || o.interrupted then Broken else Wish(o));
      ses.CellNow(pc, i, cell);
      ses.Quiet(pc, i, cell, Decide(next.d));
    } else if cell.Answered? {
      var w: Write := *;
      var stored := ses.AnswerApproval(pc, i, cell.d, w);
      next := Settled(if stored then cell.d else Broken);
    } else {
      next := ActSettled(ses, pc, i, c, cell.d, o);
    }
  }

  method ActSettled(ses: Session, ghost pc: Pc, i: nat, c: Call, d: Decision, o: Oracle) returns (next: Cell)
    requires ses.Valid() && ses.OnCell(pc, i, Settled(d)) && c == pc.calls[i] && Tracked(ses, Settled(d), c, o)
    modifies ses`did, ses`now, ses`canceled, ses`persistErr, ses.rt`seqs, ses.rt.events
    ensures ses.Valid() && ses.OnCell(pc, i, next) && Follows(Settled(d), next) && Tracked(ses, next, c, o)
    ensures next.Aborted? <==> d == Broken
  {
    hide Session.Valid, Session.OnCell, Session.At;
    match d {
      case Broken =>
        var out := LogBroken(ses, pc, i, c, o);
        next := Aborted(out);
      case Approved =>
        LogDecision(ses, pc, i, c, true);
        next := Granted;
      case Denied =>
        LogDecision(ses, pc, i, c, false);
        next := Declined;
    }
  }

  /** From the decision to the receipt. */
  method ActAfter(ses: Session, ghost pc: Pc, i: nat, c: Call, cell: Cell, o: Oracle) returns (next: Cell)
    requires ses.Valid() && ses.OnCell(pc, i, cell) && c == pc.calls[i] && Tracked(ses, cell, c, o)
    requires !Ready(cell) && !Waits(cell) && !cell.Idle? && !cell.Proposed?
    modifies ses`did, ses`now, ses`canceled, ses`persistErr, ses.rt`seqs, ses.rt.events, ses.index
    ensures ses.Valid() && ses.OnCell(pc, i, next) && Follows(cell, next) && Tracked(ses, next, c, o)
    ensures cell.StartLogged? ==> (next.Aborted? <==> ses.canceled) && ses.canceled == old(ses.canceled)
  {
    hide Session.Valid, Session.OnCell, Session.At;
    if cell.Granted? {
      LogStart(ses, pc, i, c, cell);
      next := StartLogged;
    } else if cell.Declined? {
      var out := LogDeclined(ses, pc, i, c);
      next := Done(out);
    } else if cell.Returned? {
      var out := Deliver(ses, pc, i, c, cell.r);
      next := Done(out);
    } else {
      next := ActBody(ses, pc, i, c, cell, o);
    }
  }

  /** The start check, the wrapped tool, and the return of the body. */
  method ActBody(ses: Session, ghost pc: Pc, i: nat, c: Call, cell: Cell, o: Oracle) returns (next: Cell)
    requires ses.Valid() && ses.OnCell(pc, i, cell) && c == pc.calls[i] && Tracked(ses, cell, c, o)
    requires cell.StartLogged? || cell.Cleared? || cell.InBody?
    modifies ses`did, ses`now, ses.index
    ensures ses.Valid() && ses.OnCell(pc, i, next) && Follows(cell, next) && Tracked(ses, next, c, o)
    ensures cell.StartLogged? ==> (next.Aborted? <==> ses.canceled)
  {
    if cell.Cleared? {
      var hit := ses.Consult(pc, i, c, cell.clean);
      return HitCell(hit);
    }
    ses.CellNow(pc, i, cell);
    if cell.StartLogged? {
      next := if ses.canceled then Aborted(ZERO_MESSAGE) else Cleared(!ses.persistErr);
      ses.Quiet(pc, i, cell, Check);
    } else {
      next := Returned(o.result);
      ses.Quiet(pc, i, cell, BodyReturn(o.result));
    }
  }

  // ---------------------------------------------------------------- the calls of a step, one after the other

  /** execCall from beginning to end. */
  method ExecCall(ses: Session, ghost pc: Pc, i: nat, c: Call, o: Oracle) returns (cell: Cell)
    requires ses.Valid() && ses.OnCell(pc, i, Idle) && c == pc.calls[i]
    modifies ses`did, ses`now, ses`canceled, ses`persistErr, ses.rt`seqs, ses.rt.runs, ses.rt.events, ses.index
    ensures ses.Valid() && ses.OnCell(pc, i, cell) && Ready(cell) && Tracked(ses, cell, c, o)
  {
    cell := Idle;
    while !Ready(cell)
      invariant ses.Valid() && ses.OnCell(pc, i, cell) && Tracked(ses, cell, c, o)
      decreases Rank(cell)
    {
      var next := Act(ses, pc, i, c, cell, o);
      ActionsEnd(cell, next);
      cell := next;
    }
  }

  /** The calls before `i` are done, the others have not begun. */
  ghost predicate Walked(cells: seq<Cell>, calls: seq<Call>, i: nat) {
    && |cells| == |calls| && i <= |calls|
    && (forall j :: 0 <= j < i ==> cells[j].Done?) && (forall j :: i <= j < |calls| ==> cells[j] == Idle)
  }

  lemma WalkedOn(cells: seq<Cell>, calls: seq<Call>, i: nat, cell: Cell)
    requires i < |calls| && Walked(cells, calls, i) && cell.Done?
    ensures Walked(cells[i := cell], calls, i + 1)
  {}

  method RunCall(ses: Session, base: seq<Message>, calls: seq<Call>, ghost cells: seq<Cell>, i: nat, o: Oracle)
    returns (cell: Cell, ghost after: seq<Cell>)
    requires ses.Valid() && i < |calls| && Walked(cells, calls, i) && ses.At(InStep(base, calls, cells, i))
    requires !(ses.cfg.parallel && |calls| > 1)
    modifies ses`did, ses`now, ses`canceled, ses`persistErr, ses`messages
    modifies ses.rt`seqs, ses.rt.runs, ses.rt.events, ses.rt.checkpoints, ses.index
    ensures ses.Valid() && Ready(cell) && Tracked(ses, cell, calls[i], o)
    ensures cell.Aborted? ==> ses.At(RunnerDone(false)) && ses.messages == old(ses.messages)
    ensures cell.Done? ==> Walked(after, calls, i + 1) && ses.At(InStep(base, calls, after, i + 1))
    ensures cell.Done? ==> ses.messages == old(ses.messages) + [cell.msg]
  {
    ghost var pc := InStep(base, calls, cells, i);
    assert ses.OnCell(pc, i, Idle) by { assert cells[i := Idle] == cells; }
    cell := ExecCall(ses, pc, i, calls[i], o);
    after := cells[i := cell];
    if cell.Aborted? { GiveUp(ses, pc, i, cell.msg); return; }
    Keep(ses, pc, i, cell.msg);
    WalkedOn(cells, calls, i, cell);
  }

  method Keep(ses: Session, ghost pc: Pc, i: nat, out: Message)
    requires ses.Valid() && ses.OnCell(pc, i, Done(out)) && pc.collected == i
    requires !(ses.cfg.parallel && |pc.calls| > 1)
    modifies ses`did, ses`now, ses`canceled, ses`persistErr, ses`messages, ses.rt.checkpoints
    ensures ses.Valid() && ses.At(pc.(cells := pc.cells[i := Done(out)], collected := i + 1))
    ensures ses.messages == old(ses.messages) + [out]
    ensures ses.rt.checkpoints.Of(ses.run) in {old(ses.rt.checkpoints.Of(ses.run)), Some(ses.messages)}
  {
    ses.Interfere();
    ghost var now := pc.(cells := pc.cells[i := Done(out)]);
    SaveReceipt(ses, now, i, out);
  }

  method SaveReceipt(ses: Session, ghost pc: Pc, i: nat, out: Message)
    requires ses.Valid() && ses.At(pc) && CanCollect(ses.now) && pc.InStep? && pc.collected == i < |pc.cells|
    requires out == pc.cells[i].msg
    modifies ses`did, ses`now, ses`canceled, ses`persistErr, ses`messages, ses.rt.checkpoints
    ensures ses.Valid() && ses.At(pc.(collected := i + 1)) && ses.messages == old(ses.messages) + [out]
    ensures ses.rt.checkpoints.Of(ses.run) in {old(ses.rt.checkpoints.Of(ses.run)), Some(ses.messages)}
  {
    var w: Write := *;
    ses.OnToolDone(out, w);
  }

  ghost method GiveUp(ses: Session, pc: Pc, i: nat, out: Message)
    requires ses.Valid() && ses.OnCell(pc, i, Aborted(out)) && pc.collected == i
    requires !(ses.cfg.parallel && |pc.calls| > 1)
    modifies ses`did, ses`now
    ensures ses.Valid() && ses.At(RunnerDone(false))
  {
    ses.Did(Loop(StepAborts));
  }

  ghost method Complete(ses: Session, base: seq<Message>, calls: seq<Call>, cells: seq<Cell>)
    requires ses.Valid() && Walked(cells, calls, |calls|) && ses.At(InStep(base, calls, cells, |calls|))
    modifies ses`did, ses`now
    ensures ses.Valid() && ses.At(StepSave)
  {
    ses.Did(Loop(StepCompletes));
  }

  /** The answers so far are those of the first calls, each what its oracle leads to. */
  ghost predicate Given(ses: Session, calls: seq<Call>, oracles: seq<Oracle>, answers: seq<Message>) {
    && |answers| <= |calls| == |oracles|
    && forall j :: 0 <= j < |answers| ==> Answers(ses, answers[j], calls[j], oracles[j])
  }

  method RunNext(ses: Session, base: seq<Message>, calls: seq<Call>, oracles: seq<Oracle>, ghost cells: seq<Cell>,
                 i: nat, ghost start: seq<Message>, ghost answers: seq<Message>)
    returns (aborted: bool, ghost after: seq<Cell>, ghost more: seq<Message>)
    requires ses.Valid() && i < |calls| && Walked(cells, calls, i) && ses.At(InStep(base, calls, cells, i))
    requires !(ses.cfg.parallel && |calls| > 1) && ses.messages == start + answers && |answers| == i
    requires Given(ses, calls, oracles, answers)
    modifies ses`did, ses`now, ses`canceled, ses`persistErr, ses`messages
    modifies ses.rt`seqs, ses.rt.runs, ses.rt.events, ses.rt.checkpoints, ses.index
    ensures ses.Valid() && ses.messages == start + more && Given(ses, calls, oracles, more)
    ensures aborted ==> ses.At(RunnerDone(false)) && |more| == i
    ensures !aborted ==> Walked(after, calls, i + 1) && ses.At(InStep(base, calls, after, i + 1)) && |more| == i + 1
  {
    hide Session.Valid;
    var cell;
    cell, after := RunCall(ses, base, calls, cells, i, oracles[i]);
    aborted := cell.Aborted?;
    more := if aborted then answers else answers + [cell.msg];
    Regroup(start, answers, [cell.msg]);
  }

  /** The calls of one step, one after the other. */
  method RunCalls(ses: Session, base: seq<Message>, calls: seq<Call>, oracles: seq<Oracle>)
    returns (aborted: bool, ghost answers: seq<Message>)
    requires ses.Valid() && ses.At(InStep(base, calls, Unstarted(calls), 0)) && !(ses.cfg.parallel && |calls| > 1)
    requires |oracles| == |calls|
    modifies ses`did, ses`now, ses`canceled, ses`persistErr, ses`messages
    modifies ses.rt`seqs, ses.rt.runs, ses.rt.events, ses.rt.checkpoints, ses.index
    ensures ses.Valid() && ses.At(if aborted then RunnerDone(false) else StepSave)
    ensures ses.messages == old(ses.messages) + answers && Given(ses, calls, oracles, answers)
    ensures if aborted then |answers| < |calls| else |answers| == |calls|
  {
    hide Session.Valid;
    ghost var cells, start := Unstarted(calls), ses.messages;
    answers := [];
    assert start + answers == ses.messages;
    for i := 0 to |calls|
      invariant ses.Valid() && Walked(cells, calls, i) && ses.At(InStep(base, calls, cells, i))
      invariant ses.messages == start + answers && |answers| == i && Given(ses, calls, oracles, answers)
    {
      aborted, cells, answers := RunNext(ses, base, calls, oracles, cells, i, start, answers);
      if aborted { return; }
    }
    aborted := false;
    Complete(ses, base, calls, cells);
  }

  // ---------------------------------------------------------------- parallel calls

  predicate AllReady(cells: seq<Cell>) { forall i :: 0 <= i < |cells| ==> Ready(cells[i]) }

  /** The messages of the first `n` cells, in the order of their calls. */
  function Receipts(cells: seq<Cell>, n: nat): (ms: seq<Message>)
    requires n <= |cells| && AllReady(cells)
    ensures |ms| == n
  {
    if n == 0 then [] else Receipts(cells, n - 1) + [cells[n - 1].msg]
  }

  predicate AnyAborted(cells: seq<Cell>, n: nat)
    requires n <= |cells|
  {
    n > 0 && (cells[n - 1].Aborted? || AnyAborted(cells, n - 1))
  }

  lemma {:induction false} AnyMeansSome(cells: seq<Cell>, n: nat)
    requires n <= |cells|
    ensures AnyAborted(cells, n) <==> exists j :: 0 <= j < n && cells[j].Aborted?
    decreases n
  {
    if n > 0 { AnyMeansSome(cells, n - 1); }
  }

  lemma {:induction false} ReceiptsAt(cells: seq<Cell>, n: nat)
    requires n <= |cells| && AllReady(cells)
    ensures forall i :: 0 <= i < n ==> Receipts(cells, n)[i] == cells[i].msg
    decreases n
  {
    if n > 0 { ReceiptsAt(cells, n - 1); }
  }

  function Left(cells: seq<Cell>): nat {
    if cells == [] then 0 else Left(cells[..|cells| - 1]) + Rank(cells[|cells| - 1])
  }

  lemma {:induction false} LeftDrops(cells: seq<Cell>, i: nat, next: Cell)
    requires i < |cells| && Follows(cells[i], next)
    ensures Left(cells[i := next]) < Left(cells)
    decreases |cells|
  {
    var n := |cells| - 1;
    if i == n {
      assert cells[i := next][..n] == cells[..n];
      ActionsEnd(cells[i], next);
    } else {
      assert cells[i := next][..n] == cells[..n][i := next];
      LeftDrops(cells[..n], i, next);
    }
  }

  /** Every goroutine stands where its oracle leads. */
  ghost predicate AllTracked(ses: Session, cells: seq<Cell>, calls: seq<Call>, oracles: seq<Oracle>) {
    && |cells| == |calls| == |oracles|
    && forall j :: 0 <= j < |cells| ==> Tracked(ses, cells[j], calls[j], oracles[j])
  }

  method ActOn(ses: Session, base: seq<Message>, calls: seq<Call>, oracles: seq<Oracle>, cells: seq<Cell>, i: nat)
    returns (after: seq<Cell>)
    requires ses.Valid() && ses.At(InStep(base, calls, cells, 0)) && ses.cfg.parallel && |calls| > 1
    requires AllTracked(ses, cells, calls, oracles) && i < |calls| && !Ready(cells[i])
    modifies ses`did, ses`now, ses`canceled, ses`persistErr, ses.rt`seqs, ses.rt.runs, ses.rt.events, ses.index
    ensures ses.Valid() && ses.At(InStep(base, calls, after, 0))
    ensures AllTracked(ses, after, calls, oracles) && Left(after) < Left(cells)
  {
    hide Session.Valid;
    ghost var pc := InStep(base, calls, cells, 0);
    assert ses.OnCell(pc, i, cells[i]) by { assert cells[i := cells[i]] == cells; }
    var next := Act(ses, pc, i, calls[i], cells[i], oracles[i]);
    after := cells[i := next];
    LeftDrops(cells, i, next);
  }

  /** The goroutines of one step, in whatever order their actions and cancellations come; the wait for all
      of them ends. */
  method Interleave(ses: Session, base: seq<Message>, calls: seq<Call>, oracles: seq<Oracle>)
    returns (cells: seq<Cell>)
    requires ses.Valid() && ses.At(InStep(base, calls, Unstarted(calls), 0)) && ses.cfg.parallel && |calls| > 1
    requires |oracles| == |calls|
    modifies ses`did, ses`now, ses`canceled, ses`persistErr, ses.rt`seqs, ses.rt.runs, ses.rt.events, ses.index
    ensures ses.Valid() && ses.At(InStep(base, calls, cells, 0))
    ensures AllTracked(ses, cells, calls, oracles) && AllReady(cells)
  {
    cells := Unstarted(calls);
    while !AllReady(cells)
      invariant ses.Valid() && ses.At(InStep(base, calls, cells, 0)) && AllTracked(ses, cells, calls, oracles)
      decreases Left(cells)
    {
      var i :| 0 <= i < |cells| && !Ready(cells[i]);
      cells := ActOn(ses, base, calls, oracles, cells, i);
    }
  }

  method KeepReady(ses: Session, base: seq<Message>, calls: seq<Call>, cells: seq<Cell>, i: nat)
    requires ses.Valid() && ses.At(InStep(base, calls, cells, i)) && ses.cfg.parallel && |calls| > 1
    requires i < |cells| == |calls| && AllReady(cells)
    modifies ses`did, ses`now, ses`canceled, ses`persistErr, ses`messages, ses.rt.checkpoints
    ensures ses.Valid() && ses.At(InStep(base, calls, cells, i + 1))
    ensures ses.messages == old(ses.messages) + [cells[i].msg]
    ensures ses.rt.checkpoints.Of(ses.run) in {old(ses.rt.checkpoints.Of(ses.run)), Some(ses.messages)}
  {
    ses.Interfere();
    SaveReceipt(ses, InStep(base, calls, cells, i), i, cells[i].msg);
  }

  method CollectNext(ses: Session, base: seq<Message>, calls: seq<Call>, cells: seq<Cell>, i: nat,
                     ghost start: seq<Message>)
    requires ses.Valid() && ses.At(InStep(base, calls, cells, i)) && ses.cfg.parallel && |calls| > 1
    requires i < |cells| == |calls| && AllReady(cells) && ses.messages == start + Receipts(cells, i)
    modifies ses`did, ses`now, ses`canceled, ses`persistErr, ses`messages, ses.rt.checkpoints
    ensures ses.Valid() && ses.At(InStep(base, calls, cells, i + 1))
    ensures ses.messages == start + Receipts(cells, i + 1)
  {
    Regroup(start, Receipts(cells, i), [cells[i].msg]);
    KeepReady(ses, base, calls, cells, i);
  }

  /** Every outcome is written back and saved, an aborted one too; then the step ends or aborts. */
  method CollectAll(ses: Session, base: seq<Message>, calls: seq<Call>, cells: seq<Cell>) returns (aborted: bool)
    requires ses.Valid() && ses.At(InStep(base, calls, cells, 0)) && ses.cfg.parallel && |calls| > 1
    requires |cells| == |calls| && AllReady(cells)
    modifies ses`did, ses`now, ses`canceled, ses`persistErr, ses`messages, ses.rt.checkpoints
    ensures ses.Valid() && ses.At(if aborted then RunnerDone(false) else StepSave)
    ensures aborted == AnyAborted(cells, |cells|) && ses.messages == old(ses.messages) + Receipts(cells, |cells|)
  {
    hide Session.Valid;
    ghost var start := ses.messages;
    aborted := false;
    assert start + Receipts(cells, 0) == ses.messages;
    for i := 0 to |calls|
      invariant ses.Valid() && ses.At(InStep(base, calls, cells, i))
      invariant aborted == AnyAborted(cells, i) && ses.messages == start + Receipts(cells, i)
    {
      if cells[i].Aborted? { aborted := true; }
      CollectNext(ses, base, calls, cells, i, start);
    }
    EndParallel(ses, base, calls, cells, aborted);
  }

  ghost method EndParallel(ses: Session, base: seq<Message>, calls: seq<Call>, cells: seq<Cell>, aborted: bool)
    requires ses.Valid() && ses.At(InStep(base, calls, cells, |calls|)) && ses.cfg.parallel && |calls| > 1
    requires |cells| == |calls| && aborted == AnyAborted(cells, |cells|)
    modifies ses`did, ses`now
    ensures ses.Valid() && ses.At(if aborted then RunnerDone(false) else StepSave)
  {
    AnyMeansSome(cells, |cells|);
    if aborted { ses.Did(Loop(StepAborts)); } else { ses.Did(Loop(StepCompletes)); }
  }

  /** Every call left a message: its answer, or the message it aborted with. */
  ghost predicate AllSpoke(ses: Session, calls: seq<Call>, oracles: seq<Oracle>, answers: seq<Message>) {
    && |answers| == |calls| == |oracles|
    && forall j :: 0 <= j < |answers| ==>
         Answers(ses, answers[j], calls[j], oracles[j]) || Aborts(ses, answers[j], calls[j], oracles[j])
  }

  lemma Spoke(ses: Session, cell: Cell, c: Call, o: Oracle)
    requires Tracked(ses, cell, c, o) && Ready(cell)
    ensures if cell.Done? then Answers(ses, cell.msg, c, o) else Aborts(ses, cell.msg, c, o)
  {}

  /** What the goroutines left, call by call. */
  lemma Collected(ses: Session, cells: seq<Cell>, calls: seq<Call>, oracles: seq<Oracle>)
    requires AllTracked(ses, cells, calls, oracles) && AllReady(cells)
    ensures AllSpoke(ses, calls, oracles, Receipts(cells, |cells|))
    ensures !AnyAborted(cells, |cells|) ==> Given(ses, calls, oracles, Receipts(cells, |cells|))
  {
    var answers := Receipts(cells, |cells|);
    AnyMeansSome(cells, |cells|);
    forall j | 0 <= j < |cells|
      ensures Answers(ses, answers[j], calls[j], oracles[j])
              || (cells[j].Aborted? && Aborts(ses, answers[j], calls[j], oracles[j]))
    {
      CollectedAt(ses, cells, calls, oracles, j);
    }
    hide *;
    AllCollected(ses, cells, calls, oracles, answers);
  }

  lemma AllCollected(ses: Session, cells: seq<Cell>, calls: seq<Call>, oracles: seq<Oracle>, answers: seq<Message>)
    requires |answers| == |cells| == |calls| == |oracles|
    requires forall j :: 0 <= j < |cells| ==>
               Answers(ses, answers[j], calls[j], oracles[j])
               || (cells[j].Aborted? && Aborts(ses, answers[j], calls[j], oracles[j]))
    ensures AllSpoke(ses, calls, oracles, answers)
    ensures (forall j :: 0 <= j < |cells| ==> !cells[j].Aborted?) ==> Given(ses, calls, oracles, answers)
  {
    hide Answers, Aborts;
  }

  lemma CollectedAt(ses: Session, cells: seq<Cell>, calls: seq<Call>, oracles: seq<Oracle>, j: nat)
    requires AllTracked(ses, cells, calls, oracles) && AllReady(cells) && j < |cells|
    ensures var m := Receipts(cells, |cells|)[j];
            Answers(ses, m, calls[j], oracles[j]) || (cells[j].Aborted? && Aborts(ses, m, calls[j], oracles[j]))
  {
    hide Answers, Aborts, Tracked;
    ReceiptsAt(cells, |cells|);
    Spoke(ses, cells[j], calls[j], oracles[j]);
  }

  /** The parallel branch. */
  method RunParallel(ses: Session, base: seq<Message>, calls: seq<Call>, oracles: seq<Oracle>)
    returns (aborted: bool, ghost answers: seq<Message>)
    requires ses.Valid() && ses.At(InStep(base, calls, Unstarted(calls), 0)) && ses.cfg.parallel && |calls| > 1
    requires |oracles| == |calls|
    modifies ses`did, ses`now, ses`canceled, ses`persistErr, ses`messages
    modifies ses.rt`seqs, ses.rt.runs, ses.rt.events, ses.rt.checkpoints, ses.index
    ensures ses.Valid() && ses.At(if aborted then RunnerDone(false) else StepSave)
    ensures ses.messages == old(ses.messages) + answers && AllSpoke(ses, calls, oracles, answers)
    ensures !aborted ==> Given(ses, calls, oracles, answers)
  {
    var cells := Interleave(ses, base, calls, oracles);
    aborted := CollectAll(ses, base, calls, cells);
    answers := Receipts(cells, |cells|);
    Collected(ses, cells, calls, oracles);
  }

  function Unstarted(calls: seq<Call>): (cells: seq<Cell>)
    ensures |cells| == |calls| && forall j :: 0 <= j < |cells| ==> cells[j] == Idle
  {
    seq(|calls|, _ => Idle)
  }

  // ---------------------------------------------------------------- one turn of the loop

  /** The calls of a step, in the configured way. */
  method RunBranch(ses: Session, base: seq<Message>, calls: seq<Call>, oracles: seq<Oracle>)
    returns (aborted: bool, ghost answers: seq<Message>)
    requires ses.Valid() && ses.At(InStep(base, calls, Unstarted(calls), 0)) && |oracles| == |calls|
    modifies ses`did, ses`now, ses`canceled, ses`persistErr, ses`messages
    modifies ses.rt`seqs, ses.rt.runs, ses.rt.events, ses.rt.checkpoints, ses.index
    ensures ses.Valid() && ses.At(if aborted then RunnerDone(false) else StepSave)
    ensures ses.messages == old(ses.messages) + answers
    ensures !aborted ==> |answers| == |calls| && Given(ses, calls, oracles, answers)
  {
    if ses.cfg.parallel && |calls| > 1 {
      aborted, answers := RunParallel(ses, base, calls, oracles);
    } else {
      aborted, answers := RunCalls(ses, base, calls, oracles);
    }
  }

  method RunStep(ses: Session, base: seq<Message>, calls: seq<Call>, oracles: seq<Oracle>)
    returns (aborted: bool, ghost answers: seq<Message>)
    requires ses.Valid() && ses.At(InStep(base, calls, Unstarted(calls), 0)) && |oracles| == |calls|
    modifies ses`did, ses`now, ses`canceled, ses`persistErr, ses`messages, ses`step
    modifies ses.rt`seqs, ses.rt.runs, ses.rt.events, ses.rt.checkpoints, ses.index
    ensures ses.Valid()
    ensures if aborted then ses.At(RunnerDone(false)) else ses.At(Top) && ses.step == old(ses.step) + 1
    ensures ses.messages == old(ses.messages) + answers
    ensures !aborted ==> |answers| == |calls| && Given(ses, calls, oracles, answers)
  {
    hide *;
    aborted, answers := RunBranch(ses, base, calls, oracles);
    if !aborted {
      ses.OnStep();
      EndStep(ses);
    }
  }

  /** The end of a step, after OnStep. */
  method EndStep(ses: Session)
    requires ses.Valid() && ses.At(StepEmit)
    modifies ses`did, ses`now, ses`canceled, ses`persistErr, ses`step, ses.rt`seqs, ses.rt.events
    ensures ses.Valid() && ses.At(Top) && ses.step == old(ses.step) + 1
    ensures Logs(old(ses.rt.events.Of(ses.run)), ses.rt.events.Of(ses.run), StepDone, "", "")
  {
    ses.Interfere();
    CountStep(ses);
  }

  method CountStep(ses: Session)
    requires ses.Valid() && ses.At(StepEmit)
    modifies ses`did, ses`now, ses`canceled, ses`persistErr, ses`step, ses.rt`seqs, ses.rt.events
    ensures ses.Valid() && ses.At(Top) && ses.step == old(ses.step) + 1
    ensures Logs(old(ses.rt.events.Of(ses.run)), ses.rt.events.Of(ses.run), StepDone, "", "")
  {
    hide Session.Matches;
    var w: Write := *;
    ses.EmitEvent(PlainEvent(StepDone), w);
    ses.step := ses.step + 1;
    ses.DidStep(w);
  }

  /** The check at the top of the loop, and the prompt. After the last step there is no check. */
  method Ask(ses: Session) returns (stopped: bool)
    requires ses.Valid() && ses.At(Top)
    modifies ses`did, ses`now
    ensures ses.Valid() && ses.At(if stopped then RunnerDone(false) else InModel)
    ensures stopped == (ses.step <= ses.cfg.maxSteps && ses.canceled)
    ensures !stopped ==> ses.now.trace.prompts == old(ses.now.trace.prompts) + [ses.messages]
  {
    stopped := ses.step <= ses.cfg.maxSteps && ses.canceled;
    ses.Did(Loop(CallModel));
  }

  /** One streamed fragment of the model's answer. */
  method StreamDelta(ses: Session)
    requires ses.Valid() && ses.At(InModel)
    modifies ses`did, ses`now, ses`canceled, ses`persistErr, ses.rt`seqs, ses.rt.events
    ensures ses.Valid() && ses.At(InModel)
    ensures Logs(old(ses.rt.events.Of(ses.run)), ses.rt.events.Of(ses.run), ModelDelta, "", "")
  {
    hide Session.Matches;
    var w: Write := *;
    ses.Wrapped(PlainEvent(ModelDelta), w);
    ses.Did(Loop(Delta(w)));
  }

  method StreamDeltas(ses: Session)
    requires ses.Valid() && ses.At(InModel)
    modifies ses`did, ses`now, ses`canceled, ses`persistErr, ses.rt`seqs, ses.rt.events
    ensures ses.Valid() && ses.At(InModel)
  {
    var fragments: seq<Text> := *;
    for k := 0 to |fragments|
      invariant ses.Valid() && ses.At(InModel)
    {
      ses.Interfere();
      StreamDelta(ses);
    }
    ses.Interfere();
  }

  /** The prompt, and what the model streams. */
  method Prompt(ses: Session) returns (stopped: bool)
    requires ses.Valid() && ses.At(Top)
    modifies ses`did, ses`now, ses`canceled, ses`persistErr, ses.rt`seqs, ses.rt.events
    ensures ses.Valid() && ses.At(if stopped then RunnerDone(false) else InModel)
    ensures stopped ==> ses.step <= ses.cfg.maxSteps && ses.canceled
  {
    ses.Interfere();
    stopped := Ask(ses);
    if !stopped { StreamDeltas(ses); }
  }

  method ModelFailed(ses: Session, partial: Text)
    requires ses.Valid() && ses.At(InModel)
    modifies ses`did, ses`now, ses`messages
    ensures ses.Valid() && ses.At(RunnerDone(false))
    ensures ses.messages == old(ses.messages) +
              if partial != [] && ses.step <= ses.cfg.maxSteps then [AssistantMessage(partial, [])] else []
  {
    if partial != [] && ses.step <= ses.cfg.maxSteps {
      ses.messages := ses.messages + [AssistantMessage(partial, [])];
    }
    ses.Did(Loop(ModelFails(partial)));
  }

  method ModelAnswered(ses: Session, answer: Text)
    requires ses.Valid() && ses.At(InModel)
    modifies ses`did, ses`now, ses`messages, ses`canceled, ses`persistErr, ses.rt`seqs, ses.rt.events
    ensures ses.Valid() && ses.At(RunnerDone(true))
    ensures ses.messages == old(ses.messages) + [AssistantMessage(answer, [])]
    ensures Logs(old(ses.rt.events.Of(ses.run)), ses.rt.events.Of(ses.run), FinalAnswer, "", "")
  {
    hide Session.Valid;
    AppendAnswer(ses, answer);
    ses.Interfere();
    var w: Write := *;
    ses.EmitPlanned(PlainEvent(FinalAnswer), w);
  }

  method AppendAnswer(ses: Session, answer: Text)
    requires ses.Valid() && ses.At(InModel)
    modifies ses`did, ses`now, ses`messages
    ensures ses.Valid() && ses.At(Finale) && ses.messages == old(ses.messages) + [AssistantMessage(answer, [])]
  {
    ses.messages := ses.messages + [AssistantMessage(answer, [])];
    ses.Did(Loop(ModelAnswers(answer)));
  }

  /** What a prompt to the model leads to; a reply with calls brings at least one. */
  datatype Reply = Fails(partial: Text) | Answer(text: Text) | Calls(ctext: Text, calls: seq<Call>)

  predicate NoIdReused(reply: Reply, used: set<string>) {
    reply.Calls? ==> reply.calls != [] && T.DistinctIds(reply.calls)
                     && forall c :: c in reply.calls ==> c.id != "" && c.id !in used
  }

  /** What a reply appends to the trajectory. */
  function Grown(before: seq<Message>, reply: Reply, answers: seq<Message>): seq<Message> {
    match reply
    case Fails(partial) => before + if partial != [] then [AssistantMessage(partial, [])] else []
    case Answer(text) => before + [AssistantMessage(text, [])]
    case Calls(text, calls) => before + [AssistantMessage(text, calls)] + answers
  }

  /** The trajectory ends with an answer of the model that asks for no calls. */
  predicate EndsAnswered(messages: seq<Message>) {
    messages != [] && messages[|messages| - 1].role == Assistant && messages[|messages| - 1].calls == []
  }

  lemma GrownMeans(before: seq<Message>, reply: Reply, answers: seq<Message>)
    ensures before <= Grown(before, reply, answers)
    ensures reply.Answer? ==> EndsAnswered(Grown(before, reply, answers))
  {}

  /** The model asks for calls: they are appended before any of them runs. */
  method BeginCalls(ses: Session, text: Text, calls: seq<Call>)
    requires ses.Valid() && ses.At(InModel) && ses.step <= ses.cfg.maxSteps
    requires NoIdReused(Calls(text, calls), ses.used)
    modifies ses`did, ses`now, ses`messages, ses`used
    ensures ses.Valid() && ses.At(InStep(old(ses.messages), calls, Unstarted(calls), 0))
    ensures ses.messages == old(ses.messages) + [AssistantMessage(text, calls)]
  {
    assert FreshCalls(ses.now, calls);
    ses.messages := ses.messages + [AssistantMessage(text, calls)];
    ses.used := ses.used + set i | 0 <= i < |calls| :: calls[i].id;
    ses.Did(Loop(ModelCalls(text, calls)));
  }

  /** What a reply leads to. `oracles` answer its calls. */
  method Take(ses: Session, reply: Reply, oracles: seq<Oracle>)
    returns (over: bool, failed: bool, ghost answers: seq<Message>)
    requires ses.Valid() && ses.At(InModel) && ses.step <= ses.cfg.maxSteps && NoIdReused(reply, ses.used)
    requires reply.Calls? ==> |oracles| == |reply.calls|
    modifies ses`did, ses`now, ses`canceled, ses`persistErr, ses`messages, ses`step, ses`used
    modifies ses.rt`seqs, ses.rt.runs, ses.rt.events, ses.rt.checkpoints, ses.index
    ensures ses.Valid()
    ensures if over then ses.At(RunnerDone(!failed)) else ses.At(Top) && ses.step == old(ses.step) + 1
    ensures ses.messages == Grown(old(ses.messages), reply, answers)
    ensures over == (if reply.Calls? then failed else true)
    ensures (reply.Fails? ==> failed) && (reply.Answer? ==> !failed)
    ensures reply.Calls? && !over ==> |answers| == |reply.calls| && Given(ses, reply.calls, oracles, answers)
  {
    hide Session.Matches;
    answers := [];
    match reply {
      case Fails(partial) =>
        ModelFailed(ses, partial);
        over, failed := true, true;
      case Answer(text) =>
        ModelAnswered(ses, text);
        over, failed := true, false;
      case Calls(text, calls) =>
        var base := ses.messages;
        BeginCalls(ses, text, calls);
        over, answers := RunStep(ses, base, calls, oracles);
        failed := over;
    }
  }

  /** One turn of the loop. */
  method Turn(ses: Session) returns (over: bool, failed: bool)
    requires ses.Valid() && ses.At(Top) && ses.step <= ses.cfg.maxSteps
    modifies ses`did, ses`now, ses`canceled, ses`persistErr, ses`messages, ses`step, ses`used
    modifies ses.rt`seqs, ses.rt.runs, ses.rt.events, ses.rt.checkpoints, ses.index
    ensures ses.Valid()
    ensures if over then ses.At(RunnerDone(!failed)) else ses.At(Top) && ses.step == old(ses.step) + 1
    ensures old(ses.messages) <= ses.messages && (over && !failed ==> EndsAnswered(ses.messages))
  {
    hide Session.Valid;
    over := Prompt(ses);
    if over { return true, true; }
    assert NoIdReused(Fails([]), ses.used);
    var reply: Reply :| NoIdReused(reply, ses.used);
    var oracles := Guess(if reply.Calls? then |reply.calls| else 0);
    ghost var answers;
    over, failed, answers := Take(ses, reply, oracles);
    GrownMeans(old(ses.messages), reply, answers);
  }

  method OpenRun(ses: Session)
    requires ses.Valid() && ses.At(Opening)
    modifies ses`did, ses`now, ses`canceled, ses`persistErr, ses.rt`seqs, ses.rt.events
    ensures ses.Valid() && ses.At(Top)
    ensures Logs(old(ses.rt.events.Of(ses.run)), ses.rt.events.Of(ses.run), RunStart, "", "")
  {
    ses.Interfere();
    var w: Write := *;
    ses.EmitPlanned(PlainEvent(RunStart), w);
  }

  /** The agent loop: turns until the model answers without calls, or a last answer without tools. */
  method RunLoop(ses: Session) returns (failed: bool)
    requires ses.Valid() && ses.At(Opening) && ses.step == 1
    modifies ses`did, ses`now, ses`canceled, ses`persistErr, ses`messages, ses`step, ses`used
    modifies ses.rt`seqs, ses.rt.runs, ses.rt.events, ses.rt.checkpoints, ses.index
    ensures ses.Valid() && ses.At(RunnerDone(!failed))
    ensures old(ses.messages) <= ses.messages && (!failed ==> EndsAnswered(ses.messages))
  {
    hide Session.Valid;
    OpenRun(ses);
    while ses.step <= ses.cfg.maxSteps
      invariant ses.Valid() && ses.At(Top) && old(ses.messages) <= ses.messages
      decreases ses.cfg.maxSteps + 1 - ses.step
    {
      var over;
      over, failed := Turn(ses);
      if over { return; }
    }
    failed := Summarize(ses);
  }

  /** The steps are used up: one more prompt, without tools and without a look at the cancellation. */
  method Summarize(ses: Session) returns (failed: bool)
    requires ses.Valid() && ses.At(Top) && ses.step > ses.cfg.maxSteps
    modifies ses`did, ses`now, ses`canceled, ses`persistErr, ses`messages, ses.rt`seqs, ses.rt.events
    ensures ses.Valid() && ses.At(RunnerDone(!failed))
    ensures old(ses.messages) <= ses.messages && (!failed ==> EndsAnswered(ses.messages))
  {
    var stopped := Prompt(ses);
    failed := TakeSummary(ses);
  }

  method TakeSummary(ses: Session) returns (failed: bool)
    requires ses.Valid() && ses.At(InModel) && ses.step > ses.cfg.maxSteps
    modifies ses`did, ses`now, ses`canceled, ses`persistErr, ses`messages, ses.rt`seqs, ses.rt.events
    ensures ses.Valid() && ses.At(RunnerDone(!failed))
    ensures old(ses.messages) <= ses.messages && (!failed ==> EndsAnswered(ses.messages))
  {
    failed := *;
    if failed {
      ModelFailed(ses, []);
    } else {
      var summary: Text := *;
      ModelAnswered(ses, summary);
    }
  }

  // ---------------------------------------------------------------- a cancelled run

  /** A cancellation while the loop is between two steps ends the run there, and with a record that can be
      written it ends as canceled, with nothing pending. */
  method CanceledBetweenSteps(ses: Session)
    requires ses.Valid() && ses.At(Top) && ses.step <= ses.cfg.maxSteps && !ses.persistErr
    modifies ses`did, ses`now, ses`canceled, ses.rt.runs
    ensures ses.Valid() && ses.At(Terminal(false))
    ensures ses.rt.runs.Of(ses.run).Some?
    ensures ses.rt.runs.Of(ses.run).value.status == Canceled && ses.rt.runs.Of(ses.run).value.pending == None
  {
    hide Session.Valid;
    ses.Cancel();
    var stopped := Ask(ses);
    var stored := ses.Conclude(stopped, Stored);
  }
}
