/** One step of tool calls, run one after the other or in parallel (agent/agent.go). */
module ToolStep {
  import opened Strings
  import opened Types
  import T = Trajectory

  // ---------------------------------------------------------------- citations

  /** What two citations are compared by; a citation without a key is dropped. */
  function CitationKey(c: Citation): string {
    if c.docId > 0 then "doc:" + Decimal(c.docId) else c.url
  }

  predicate Seen(cs: seq<Citation>, key: string) {
    exists i :: 0 <= i < |cs| && CitationKey(cs[i]) == key
  }

  function Add(cs: seq<Citation>, c: Citation): seq<Citation> {
    if CitationKey(c) == "" || Seen(cs, CitationKey(c)) then cs else cs + [c]
  }

  /** The first citation of every non-empty key, in order. */
  function Dedup(cs: seq<Citation>): seq<Citation> {
    if cs == [] then [] else Add(Dedup(cs[..|cs| - 1]), cs[|cs| - 1])
  }

  lemma SeenSnoc(cs: seq<Citation>, c: Citation)
    ensures forall key :: Seen(cs + [c], key) <==> Seen(cs, key) || key == CitationKey(c)
  {
    assert (cs + [c])[|cs|] == c;
    assert forall i :: 0 <= i < |cs| ==> (cs + [c])[i] == cs[i];
  }

  method MergeCitations(current: seq<Citation>, incoming: seq<Citation>) returns (result: seq<Citation>)
    ensures result == Dedup(current + incoming)
  {
    var all, seen: set<string> := current + incoming, {};
    result := [];
    for i := 0 to |all|
      invariant result == Dedup(all[..i])
      invariant forall key :: key in seen <==> Seen(result, key)
    {
      assert all[..i + 1][..i] == all[..i];
      var key := CitationKey(all[i]);
      if key == "" { continue; }
      if key in seen { continue; }
      seen := seen + {key};
      SeenSnoc(result, all[i]);
      result := result + [all[i]];
    }
    assert all[..|all|] == all;
  }

  lemma {:induction false} DedupSeen(cs: seq<Citation>)
    ensures forall key :: Seen(Dedup(cs), key) <==> key != "" && Seen(cs, key)
    decreases |cs|
  {
    if cs != [] {
      var front, c := cs[..|cs| - 1], cs[|cs| - 1];
      DedupSeen(front);
      assert front + [c] == cs;
      SeenSnoc(front, c);
      SeenSnoc(Dedup(front), c);
    }
  }

  predicate FirstOfKey(cs: seq<Citation>, p: nat)
    requires p < |cs|
  {
    CitationKey(cs[p]) != "" && !Seen(cs[..p], CitationKey(cs[p]))
  }

  lemma FirstInFront(cs: seq<Citation>, n: nat, p: nat)
    requires p < n <= |cs|
    ensures FirstOfKey(cs[..n], p) <==> FirstOfKey(cs, p)
  {
    assert cs[..n][..p] == cs[..p];
  }

  lemma Snoc(ps: seq<nat>, n: nat)
    ensures forall p :: p in ps + [n] <==> p in ps || p == n
  {
    assert (ps + [n])[|ps|] == n;
    assert forall i :: 0 <= i < |ps| ==> (ps + [n])[i] == ps[i];
  }

  /** `ps` are the places of the first citations of their keys, and the merged list holds what stands there. */
  ghost predicate Firsts(cs: seq<Citation>, ps: seq<nat>) {
    && |ps| == |Dedup(cs)|
    && (forall j :: 0 <= j < |ps| ==> ps[j] < |cs| && Dedup(cs)[j] == cs[ps[j]])
    && (forall i, j :: 0 <= i < j < |ps| ==> ps[i] < ps[j])
    && (forall p :: 0 <= p < |cs| ==> (p in ps <==> FirstOfKey(cs, p)))
  }

  lemma DedupNext(cs: seq<Citation>)
    requires cs != []
    ensures var n := |cs| - 1;
            Dedup(cs) == Dedup(cs[..n]) + if FirstOfKey(cs, n) then [cs[n]] else []
  {
    DedupSeen(cs[..|cs| - 1]);
  }

  lemma FirstsStay(cs: seq<Citation>, before: seq<nat>)
    requires cs != [] && Firsts(cs[..|cs| - 1], before) && !FirstOfKey(cs, |cs| - 1)
    ensures Firsts(cs, before)
  {
    var n := |cs| - 1;
    DedupNext(cs);
    forall p | 0 <= p < n ensures FirstOfKey(cs[..n], p) <==> FirstOfKey(cs, p) { FirstInFront(cs, n, p); }
    hide Dedup, FirstOfKey;
  }

  lemma FirstsGrow(cs: seq<Citation>, before: seq<nat>)
    requires cs != [] && Firsts(cs[..|cs| - 1], before) && FirstOfKey(cs, |cs| - 1)
    ensures Firsts(cs, before + [|cs| - 1])
  {
    var n := |cs| - 1;
    DedupNext(cs);
    Snoc(before, n);
    forall p | 0 <= p < n ensures FirstOfKey(cs[..n], p) <==> FirstOfKey(cs, p) { FirstInFront(cs, n, p); }
    hide Dedup, FirstOfKey;
    var ps := before + [n];
    assert forall j :: 0 <= j < |before| ==> ps[j] == before[j] && Dedup(cs)[j] == Dedup(cs[..n])[j];
  }

  /** The merged list holds exactly the citations no earlier one shares its key with, in their order. */
  lemma {:induction false} DedupKeepsFirsts(cs: seq<Citation>) returns (ps: seq<nat>)
    ensures |ps| == |Dedup(cs)|
    ensures forall j :: 0 <= j < |ps| ==> ps[j] < |cs| && Dedup(cs)[j] == cs[ps[j]]
    ensures forall i, j :: 0 <= i < j < |ps| ==> ps[i] < ps[j]
    ensures forall p :: 0 <= p < |cs| ==> (p in ps <==> FirstOfKey(cs, p))
    decreases |cs|
  {
    if cs == [] {
      ps := [];
    } else {
      var n := |cs| - 1;
      var before := DedupKeepsFirsts(cs[..n]);
      if FirstOfKey(cs, n) {
        ps := before + [n];
        FirstsGrow(cs, before);
      } else {
        ps := before;
        FirstsStay(cs, before);
      }
    }
  }

  /** Two citations name the same source: the same document, or the same address when neither names a
      document; or the address of one reads like the key of the other's document. */
  predicate SameSource(a: Citation, b: Citation) {
    if a.docId > 0 && b.docId > 0 then a.docId == b.docId
    else if a.docId > 0 then b.url == "doc:" + Decimal(a.docId)
    else if b.docId > 0 then a.url == "doc:" + Decimal(b.docId)
    else a.url == b.url
  }

  predicate NamesSource(c: Citation) { c.docId > 0 || c.url != "" }

  lemma KeysMean(a: Citation, b: Citation)
    ensures CitationKey(a) != "" <==> NamesSource(a)
    ensures CitationKey(a) == CitationKey(b) <==> SameSource(a, b)
  {
    if a.docId > 0 && b.docId > 0 && CitationKey(a) == CitationKey(b) {
      assert CitationKey(a)[4..] == Decimal(a.docId) && CitationKey(b)[4..] == Decimal(b.docId);
      DecimalInjective(a.docId, b.docId);
    }
  }

  /** In documents and addresses: a citation is kept exactly when it names a source that no earlier one names. */
  lemma DedupKeepsSources(cs: seq<Citation>) returns (ps: seq<nat>)
    ensures |ps| == |Dedup(cs)|
    ensures forall j :: 0 <= j < |ps| ==> ps[j] < |cs| && Dedup(cs)[j] == cs[ps[j]]
    ensures forall i, j :: 0 <= i < j < |ps| ==> ps[i] < ps[j]
    ensures forall p :: 0 <= p < |cs| ==>
              (p in ps <==> NamesSource(cs[p]) && forall q :: 0 <= q < p ==> !SameSource(cs[q], cs[p]))
  {
    ps := DedupKeepsFirsts(cs);
    forall p | 0 <= p < |cs|
      ensures p in ps <==> NamesSource(cs[p]) && forall q :: 0 <= q < p ==> !SameSource(cs[q], cs[p])
    {
      FirstOfSource(cs, p);
    }
  }

  lemma FirstOfSource(cs: seq<Citation>, p: nat)
    requires p < |cs|
    ensures FirstOfKey(cs, p) <==> NamesSource(cs[p]) && forall q :: 0 <= q < p ==> !SameSource(cs[q], cs[p])
  {
    KeysMean(cs[p], cs[p]);
    forall q | 0 <= q < p
      ensures cs[..p][q] == cs[q] && (CitationKey(cs[q]) == CitationKey(cs[p]) <==> SameSource(cs[q], cs[p]))
    {
      KeysMean(cs[q], cs[p]);
    }
    hide SameSource, CitationKey;
  }

  lemma DedupSnoc(cs: seq<Citation>, c: Citation)
    ensures Dedup(cs + [c]) == Add(Dedup(cs), c)
  {
    assert (cs + [c])[..|cs|] == cs;
  }

  lemma {:induction false} DedupIdempotent(cs: seq<Citation>)
    ensures Dedup(Dedup(cs)) == Dedup(cs)
    decreases |cs|
  {
    if cs != [] {
      var d, c := Dedup(cs[..|cs| - 1]), cs[|cs| - 1];
      DedupIdempotent(cs[..|cs| - 1]);
      DedupSnoc(d, c);
    }
  }

  lemma DedupStep(a: seq<Citation>, b: seq<Citation>)
    requires b != []
    ensures Dedup(a + b) == Add(Dedup(a + b[..|b| - 1]), b[|b| - 1])
  {
    var front, c := b[..|b| - 1], b[|b| - 1];
    assert front + [c] == b;
    assert a + b == (a + front) + [c];
    DedupSnoc(a + front, c);
  }

  /** Merging what is already merged with more gives the merge of everything. */
  lemma {:induction false} DedupAbsorbs(a: seq<Citation>, b: seq<Citation>)
    ensures Dedup(Dedup(a) + b) == Dedup(a + b)
    decreases |b|
  {
    if b == [] {
      DedupIdempotent(a);
      assert Dedup(a) + b == Dedup(a) && a + b == a;
    } else {
      DedupAbsorbs(a, b[..|b| - 1]);
      DedupStep(a, b);
      DedupStep(Dedup(a), b);
    }
  }

  // ---------------------------------------------------------------- outcomes

  /** `abort` ends the run after the step. */
  datatype CallOutcome = CallOutcome(message: Message, citations: seq<Citation>, abort: Option<string>)

  const NO_OUTCOME := CallOutcome(ZERO_MESSAGE, [], None)

  /** The trajectory and citations so far, and every checkpoint asked for (OnToolDone). */
  datatype Progress = Progress(messages: seq<Message>, citations: seq<Citation>, saved: seq<seq<Message>>)

  function Written(p: Progress, out: CallOutcome): Progress {
    Progress(p.messages + [out.message], Dedup(p.citations + out.citations), p.saved + [p.messages + [out.message]])
  }

  function WriteBack(p: Progress, outs: seq<CallOutcome>): Progress {
    if outs == [] then p else Written(WriteBack(p, outs[..|outs| - 1]), outs[|outs| - 1])
  }

  lemma WriteBackNext(p: Progress, outs: seq<CallOutcome>, i: nat)
    requires i < |outs|
    ensures WriteBack(p, outs[..i + 1]) == Written(WriteBack(p, outs[..i]), outs[i])
  {
    assert outs[..i + 1][..i] == outs[..i];
  }

  function Outcomes(calls: seq<Call>, outcome: Call -> CallOutcome): seq<CallOutcome> {
    seq(|calls|, i requires 0 <= i < |calls| => outcome(calls[i]))
  }

  function FirstAbort(outs: seq<CallOutcome>): (k: nat)
    ensures k <= |outs| && (forall i :: 0 <= i < k ==> outs[i].abort == None) && (k < |outs| ==> outs[k].abort.Some?)
  {
    if outs == [] || outs[0].abort.Some? then 0 else 1 + FirstAbort(outs[1..])
  }

  function LastAbort(outs: seq<CallOutcome>): Option<string> {
    if outs == [] then None
    else if outs[|outs| - 1].abort.Some? then outs[|outs| - 1].abort
    else LastAbort(outs[..|outs| - 1])
  }

  /** The error of the first call that aborted, or none when none did. */
  predicate FirstOne(outs: seq<CallOutcome>, aborted: Option<string>) {
    if aborted == None then forall i :: 0 <= i < |outs| ==> outs[i].abort == None
    else exists k :: 0 <= k < |outs| && outs[k].abort == aborted && forall i :: 0 <= i < k ==> outs[i].abort == None
  }

  /** The error of the last call that aborted, or none when none did. */
  predicate LastOne(outs: seq<CallOutcome>, aborted: Option<string>) {
    if aborted == None then forall i :: 0 <= i < |outs| ==> outs[i].abort == None
    else exists k :: 0 <= k < |outs| && outs[k].abort == aborted && forall i :: k < i < |outs| ==> outs[i].abort == None
  }

  lemma {:induction false} LastAbortIsLast(outs: seq<CallOutcome>)
    ensures LastOne(outs, LastAbort(outs))
    decreases |outs|
  {
    if outs != [] {
      var front := outs[..|outs| - 1];
      LastAbortIsLast(front);
      assert forall i :: 0 <= i < |front| ==> front[i] == outs[i];
      if outs[|outs| - 1].abort == None && LastAbort(front).Some? {
        var k :| 0 <= k < |front| && front[k].abort == LastAbort(front)
                 && forall i :: k < i < |front| ==> front[i].abort == None;
        assert outs[k].abort == LastAbort(outs);
      }
    }
  }

  /** The sequential branch stops at the first aborted call; the parallel one writes every outcome back. */
  function Sequential(p: Progress, outs: seq<CallOutcome>): (Progress, Option<string>) {
    var k := FirstAbort(outs);
    (WriteBack(p, outs[..k]), if k < |outs| then outs[k].abort else None)
  }

  function Parallel(p: Progress, outs: seq<CallOutcome>): (Progress, Option<string>) {
    (WriteBack(p, outs), LastAbort(outs))
  }

  // ---------------------------------------------------------------- the two branches

  /** Events as they reach the emitter, each with the index of the call it belongs to. */
  type Log = seq<(nat, Event)>

  function EventsOf(log: Log, i: nat): seq<Event> {
    if log == [] then []
    else
      var last := log[|log| - 1];
      EventsOf(log[..|log| - 1], i) + if last.0 == i then [last.1] else []
  }

  function Tagged(i: nat, events: seq<Event>): Log { seq(|events|, j requires 0 <= j < |events| => (i, events[j])) }

  lemma {:induction false} TaggedEvents(log: Log, i: nat, events: seq<Event>, other: nat)
    ensures EventsOf(log + Tagged(i, events), other) == EventsOf(log, other) + if other == i then events else []
    decreases |events|
  {
    var whole := log + Tagged(i, events);
    if events == [] {
      assert whole == log;
    } else {
      var n := |events| - 1;
      assert whole[..|whole| - 1] == log + Tagged(i, events[..n]);
      TaggedEvents(log, i, events[..n], other);
      assert events[..n] + [events[n]] == events;
    }
  }

  /** The first `n` calls have emitted their events, the others nothing. */
  ghost predicate Emitted(calls: seq<Call>, program: Call -> seq<Event>, n: nat, log: Log) {
    forall j :: 0 <= j < |calls| ==> EventsOf(log, j) == if j < n then program(calls[j]) else []
  }

  lemma EmittedNext(calls: seq<Call>, program: Call -> seq<Event>, n: nat, log: Log)
    requires n < |calls| && Emitted(calls, program, n, log)
    ensures Emitted(calls, program, n + 1, log + Tagged(n, program(calls[n])))
  {
    forall j: nat { TaggedEvents(log, n, program(calls[n]), j); }
  }

  /** The message and the citations of one call are kept, and a checkpoint is asked for. */
  method KeepOutcome(p: Progress, out: CallOutcome) returns (r: Progress)
    ensures r == Written(p, out)
  {
    var messages := p.messages + [out.message];
    var citations := MergeCitations(p.citations, out.citations);
    r := Progress(messages, citations, p.saved + [messages]);
  }

  lemma SequentialStops(p: Progress, outs: seq<CallOutcome>, i: nat)
    requires i <= FirstAbort(outs) && (i < |outs| ==> outs[i].abort.Some?)
    ensures FirstAbort(outs) == i
    ensures i < |outs| ==> Sequential(p, outs) == (WriteBack(p, outs[..i]), outs[i].abort)
    ensures i == |outs| ==> Sequential(p, outs) == (WriteBack(p, outs), None)
    ensures FirstOne(outs, if i < |outs| then outs[i].abort else None)
  {
    assert outs[..|outs|] == outs;
  }

  /** What a call emits and what becomes of it are given by `program` and `outcome`. */
  method RunSequential(start: Progress, calls: seq<Call>, program: Call -> seq<Event>, outcome: Call -> CallOutcome)
    returns (p: Progress, aborted: Option<string>, log: Log)
    ensures (p, aborted) == Sequential(start, Outcomes(calls, outcome))
    ensures FirstOne(Outcomes(calls, outcome), aborted)
    ensures Emitted(calls, program, FirstAbort(Outcomes(calls, outcome)) + 1, log)
  {
    p, aborted, log := start, None, [];
    ghost var outs := Outcomes(calls, outcome);
    for i := 0 to |calls|
      invariant p == WriteBack(start, outs[..i]) && i <= FirstAbort(outs)
      invariant Emitted(calls, program, i, log)
    {
      var out := outcome(calls[i]);
      EmittedNext(calls, program, i, log);
      log := log + Tagged(i, program(calls[i]));
      assert out == outs[i];
      if out.abort.Some? {
        SequentialStops(start, outs, i);
        return p, out.abort, log;
      }
      WriteBackNext(start, outs, i);
      p := KeepOutcome(p, out);
    }
    assert outs[..|calls|] == outs;
    SequentialStops(start, outs, |calls|);
  }

  function Turns(schedule: seq<nat>, i: nat): nat {
    if schedule == [] then 0
    else Turns(schedule[..|schedule| - 1], i) + if schedule[|schedule| - 1] == i then 1 else 0
  }

  /** A schedule gives each goroutine one turn for every event it emits and one to write its outcome. */
  ghost predicate RunsToEnd(schedule: seq<nat>, calls: seq<Call>, program: Call -> seq<Event>) {
    && (forall t :: 0 <= t < |schedule| ==> schedule[t] < |calls|)
    && (forall i :: 0 <= i < |calls| ==> Turns(schedule, i) == |program(calls[i])| + 1)
  }

  function Upto<A>(s: seq<A>, n: nat): seq<A> { if n <= |s| then s[..n] else s }

  lemma EventsSnoc(log: Log, i: nat, e: Event, other: nat)
    ensures EventsOf(log + [(i, e)], other) == EventsOf(log, other) + if other == i then [e] else []
  {
    assert (log + [(i, e)])[..|log|] == log;
  }

  /** Where every goroutine stands: the turns it had, the events it emitted. */
  ghost predicate Standing(calls: seq<Call>, program: Call -> seq<Event>, turn: seq<nat>, log: Log) {
    |turn| == |calls| && forall i :: 0 <= i < |calls| ==> EventsOf(log, i) == Upto(program(calls[i]), turn[i])
  }

  lemma StandingEmits(calls: seq<Call>, program: Call -> seq<Event>, turn: seq<nat>, log: Log, i: nat)
    requires i < |calls| && Standing(calls, program, turn, log) && turn[i] < |program(calls[i])|
    ensures Standing(calls, program, turn[i := turn[i] + 1], log + [(i, program(calls[i])[turn[i]])])
  {
    var e := program(calls[i])[turn[i]];
    forall j | 0 <= j < |calls|
      ensures EventsOf(log + [(i, e)], j) == Upto(program(calls[j]), turn[i := turn[i] + 1][j])
    {
      EventsSnoc(log, i, e, j);
    }
  }

  lemma TurnsSnoc(schedule: seq<nat>, t: nat, i: nat)
    requires t < |schedule|
    ensures Turns(schedule[..t + 1], i) == Turns(schedule[..t], i) + if schedule[t] == i then 1 else 0
  {
    assert schedule[..t + 1][..t] == schedule[..t];
  }

  /** The goroutines, in the order a schedule interleaves them, fill the outcome slots. */
  method RunGoroutines(calls: seq<Call>, program: Call -> seq<Event>, outcome: Call -> CallOutcome, schedule: seq<nat>)
    returns (outs: array<CallOutcome>, log: Log)
    requires RunsToEnd(schedule, calls, program)
    ensures fresh(outs) && outs[..] == Outcomes(calls, outcome)
    ensures forall i :: 0 <= i < |calls| ==> EventsOf(log, i) == program(calls[i])
  {
    outs := new CallOutcome[|calls|](_ => NO_OUTCOME);
    var turn: seq<nat> := seq(|calls|, _ => 0);
    log := [];
    for t := 0 to |schedule|
      invariant Standing(calls, program, turn, log)
      invariant forall i :: 0 <= i < |calls| ==> turn[i] == Turns(schedule[..t], i)
      invariant forall i :: 0 <= i < |calls| && turn[i] > |program(calls[i])| ==> outs[i] == outcome(calls[i])
    {
      var i := schedule[t];
      forall j: nat { TurnsSnoc(schedule, t, j); }
      if turn[i] < |program(calls[i])| {
        StandingEmits(calls, program, turn, log, i);
        log := log + [(i, program(calls[i])[turn[i]])];
      } else {
        outs[i] := outcome(calls[i]);
      }
      turn := turn[i := turn[i] + 1];
    }
    assert schedule[..|schedule|] == schedule;
  }

  method RunParallel(start: Progress, calls: seq<Call>, program: Call -> seq<Event>, outcome: Call -> CallOutcome,
                     schedule: seq<nat>)
    returns (p: Progress, aborted: Option<string>, log: Log)
    requires RunsToEnd(schedule, calls, program)
    ensures (p, aborted) == Parallel(start, Outcomes(calls, outcome))
    ensures LastOne(Outcomes(calls, outcome), aborted)
    ensures forall i :: 0 <= i < |calls| ==> EventsOf(log, i) == program(calls[i])
  {
    var slots;
    slots, log := RunGoroutines(calls, program, outcome, schedule);
    p, aborted := start, None;
    ghost var outs := Outcomes(calls, outcome);
    for i := 0 to slots.Length
      invariant slots[..] == outs
      invariant p == WriteBack(start, outs[..i]) && aborted == LastAbort(outs[..i])
    {
      var out := slots[i];
      assert out == slots[..][i] && outs[..i + 1][..i] == outs[..i];
      if out.abort.Some? { aborted := out.abort; }
      WriteBackNext(start, outs, i);
      p := KeepOutcome(p, out);
    }
    assert outs[..|outs|] == outs;
    LastAbortIsLast(outs);
  }

  // ---------------------------------------------------------------- parallel refines sequential

  function Messages(outs: seq<CallOutcome>): seq<Message> {
    seq(|outs|, i requires 0 <= i < |outs| => outs[i].message)
  }

  /** The messages written back are those of the calls, one to one and in order. */
  lemma {:induction false} WrittenMessages(p: Progress, outs: seq<CallOutcome>)
    ensures WriteBack(p, outs).messages == p.messages + Messages(outs)
    decreases |outs|
  {
    if outs != [] {
      var front := outs[..|outs| - 1];
      WrittenMessages(p, front);
      assert Messages(outs) == Messages(front) + [outs[|outs| - 1].message];
    }
  }

  /** Each call asks for a checkpoint of the trajectory up to its own message. */
  lemma {:induction false} SavedCheckpoints(p: Progress, outs: seq<CallOutcome>)
    ensures var r := WriteBack(p, outs);
            && |r.saved| == |p.saved| + |outs|
            && forall i :: |p.saved| <= i < |r.saved| ==> r.saved[i] == p.messages + Messages(outs)[..i + 1 - |p.saved|]
    decreases |outs|
  {
    if outs != [] {
      var n := |outs| - 1;
      var front := outs[..n];
      SavedCheckpoints(p, front);
      WrittenMessages(p, front);
      WrittenMessages(p, outs);
      assert Messages(outs)[..n + 1] == Messages(outs);
      forall i {:trigger Messages(outs)[..i + 1]} | 0 <= i < n
        ensures Messages(front)[..i + 1] == Messages(outs)[..i + 1]
      {}
    }
  }

  lemma {:induction false} NoLastAbort(outs: seq<CallOutcome>)
    ensures LastAbort(outs) == None <==> forall i :: 0 <= i < |outs| ==> outs[i].abort == None
    decreases |outs|
  {
    if outs != [] { NoLastAbort(outs[..|outs| - 1]); }
  }

  /** The branches give the same trajectory, citations, checkpoints and result exactly when no call
      aborts, for every schedule of the goroutines. */
  lemma ParallelRefinesSequential(p: Progress, outs: seq<CallOutcome>)
    ensures Parallel(p, outs) == Sequential(p, outs) <==> forall i :: 0 <= i < |outs| ==> outs[i].abort == None
  {
    var k := FirstAbort(outs);
    NoLastAbort(outs);
    if k == |outs| {
      assert outs[..k] == outs;
    } else {
      WrittenMessages(p, outs);
      WrittenMessages(p, outs[..k]);
    }
  }

  function AllCitations(outs: seq<CallOutcome>): seq<Citation> {
    if outs == [] then [] else AllCitations(outs[..|outs| - 1]) + outs[|outs| - 1].citations
  }

  /** The citations of a step are those of all its calls merged at once. */
  lemma {:induction false} StepCitations(p: Progress, outs: seq<CallOutcome>)
    ensures outs != [] ==> WriteBack(p, outs).citations == Dedup(p.citations + AllCitations(outs))
    decreases |outs|
  {
    if |outs| == 1 {
      assert outs[..0] == [] && AllCitations(outs) == outs[0].citations;
    } else if outs != [] {
      var front, last := outs[..|outs| - 1], outs[|outs| - 1].citations;
      StepCitations(p, front);
      DedupAbsorbs(p.citations + AllCitations(front), last);
      Regroup(p.citations, AllCitations(front), last);
    }
  }

  predicate Answers(base: seq<Message>, asst: Message, outs: seq<CallOutcome>) {
    && T.Closed(base) && T.Calling(asst) && T.DistinctIds(asst.calls)
    && |outs| == |asst.calls| && T.AnswersPrefix(asst.calls, Messages(outs))
  }

  /** When each call is answered by its own tool message, the step leaves a closed trajectory ... */
  lemma StepStaysClosed(base: seq<Message>, asst: Message, citations: seq<Citation>, outs: seq<CallOutcome>)
    requires Answers(base, asst, outs)
    ensures T.Closed(WriteBack(Progress(base + [asst], citations, []), outs).messages)
  {
    WrittenMessages(Progress(base + [asst], citations, []), outs);
    WholeStep(base, asst, Messages(outs));
  }

  lemma WholeStep(base: seq<Message>, asst: Message, answers: seq<Message>)
    requires T.Closed(base) && T.Calling(asst) && T.DistinctIds(asst.calls)
    requires |answers| == |asst.calls| && T.AnswersPrefix(asst.calls, answers)
    ensures T.Closed(base + [asst] + answers)
  {
    var seg := [asst] + answers;
    assert seg[1..] == answers;
    Regroup(base, [asst], answers);
    T.AnsweredSegmentClosed(base, seg);
  }

  /** ... and every checkpoint it asks for resumes to a closed one. */
  lemma StepSavesClosed(base: seq<Message>, asst: Message, citations: seq<Citation>, outs: seq<CallOutcome>, i: nat)
    requires Answers(base, asst, outs)
    requires i < |WriteBack(Progress(base + [asst], citations, []), outs).saved|
    ensures T.Closed(T.Trim(WriteBack(Progress(base + [asst], citations, []), outs).saved[i]))
  {
    SavedCheckpoints(Progress(base + [asst], citations, []), outs);
    T.StepCheckpointResumesClosed(base, asst, Messages(outs)[..i + 1]);
  }
}
