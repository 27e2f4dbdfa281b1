/** Recovery reconciliation: which recorded results are reused and which calls are blocked
    (runtime/resume.go). */
module Reconcile {
  import opened Types
  import opened ToolRun
  import Trajectory

  // ---------------------------------------------------------------- what the log says about a call

  /** The arguments recorded when the call was proposed; a call never proposed has none. */
  function ArgsOf(log: seq<Event>, id: string): string {
    if log == [] then "{}"
    else
      var e := log[|log| - 1];
      if e.typ == ToolProposed && e.callId == id && id != "" then e.args else ArgsOf(log[..|log| - 1], id)
  }

  predicate Started(log: seq<Event>, id: string) {
    exists i :: 0 <= i < |log| && log[i].typ == ToolStarted && log[i].callId == id
  }

  predicate HasResult(log: seq<Event>, id: string) {
    exists i :: 0 <= i < |log| && IsResult(log[i]) && log[i].callId == id
  }

  function EventKey(log: seq<Event>, e: Event): Key { Key(e.toolName, ArgsOf(log, e.callId)) }

  predicate Considered(e: Event, covered: set<string>) { e.callId != "" && e.callId !in covered }

  /** A receipt that resumption may reuse: the call really started and the checkpoint lacks it. */
  predicate Reusable(log: seq<Event>, e: Event, covered: set<string>) {
    Considered(e, covered) && IsResult(e) && Started(log, e.callId)
  }

  /** A start without any receipt: the side effect may have happened. */
  predicate Uncertain(log: seq<Event>, e: Event, covered: set<string>) {
    Considered(e, covered) && e.typ == ToolStarted && !HasResult(log, e.callId)
  }

  predicate ReusableFor(log: seq<Event>, e: Event, covered: set<string>, k: Key) {
    Reusable(log, e, covered) && EventKey(log, e) == k
  }

  predicate UncertainFor(log: seq<Event>, e: Event, covered: set<string>, k: Key) {
    Uncertain(log, e, covered) && EventKey(log, e) == k
  }

  /** The reusable receipts of a key among the first `n` events, in log order. */
  function Queue(log: seq<Event>, n: nat, covered: set<string>, k: Key): seq<Recorded>
    requires n <= |log|
  {
    if n == 0 then []
    else
      var e := log[n - 1];
      Queue(log, n - 1, covered, k) + if ReusableFor(log, e, covered, k) then [RecordOf(e)] else []
  }

  function Uncertainties(log: seq<Event>, n: nat, covered: set<string>, k: Key): nat
    requires n <= |log|
  {
    if n == 0 then 0
    else
      var e := log[n - 1];
      Uncertainties(log, n - 1, covered, k) + if UncertainFor(log, e, covered, k) then 1 else 0
  }

  // ---------------------------------------------------------------- the index

  datatype Index = Index(results: map<Key, seq<Recorded>>, inflight: map<Key, nat>, blocked: set<Key>)

  function Results(idx: Index, k: Key): seq<Recorded> { if k in idx.results then idx.results[k] else [] }

  function Inflight(idx: Index, k: Key): nat { if k in idx.inflight then idx.inflight[k] else 0 }

  predicate Empty(idx: Index) {
    (forall k :: k in idx.results ==> idx.results[k] == []) && (forall k :: k in idx.inflight ==> idx.inflight[k] == 0)
    && idx.blocked == {}
  }

  /** The index holds exactly what the log says about the calls the checkpoint does not cover. */
  ghost predicate Reflects(idx: Index, log: seq<Event>, covered: set<string>) {
    && idx.blocked == {}
    && (forall k :: Results(idx, k) == Queue(log, |log|, covered, k))
    && (forall k :: Inflight(idx, k) == Uncertainties(log, |log|, covered, k))
  }

  datatype Hit = Reuse(rec: Recorded) | Notice | RunBody

  /** The critical section of a wrapped tool call; `safe` says the tool declares RetrySafe. */
  function Take(idx: Index, k: Key, safe: bool): (Index, Hit) {
    var queue := Results(idx, k);
    if queue != [] then
      (idx.(results := idx.results[k := queue[1..]]), Reuse(queue[0]))
    else if k in idx.blocked then (idx, Notice)
    else if Inflight(idx, k) > 0 then
      var idx' := idx.(inflight := idx.inflight[k := Inflight(idx, k) - 1]);
      if safe then (idx', RunBody) else (idx'.(blocked := idx.blocked + {k}), Notice)
    else (idx, RunBody)
  }

  method CoveredCalls(messages: seq<Message>) returns (covered: set<string>)
    ensures covered == Trajectory.ToolIds(messages)
  {
    covered := {};
    for i := 0 to |messages|
      invariant covered == Trajectory.ToolIds(messages[..i])
    {
      var m := messages[i];
      assert forall j :: 0 <= j < i ==> messages[..i + 1][j] == messages[..i][j];
      assert messages[..i + 1][i] == m;
      if m.role == Tool && m.callId != "" { covered := covered + {m.callId}; }
    }
    assert messages[..|messages|] == messages;
  }

  lemma AppendedFacts(log: seq<Event>, e: Event, id: string)
    ensures ArgsOf(log + [e], id) ==
              if e.typ == ToolProposed && e.callId == id && id != "" then e.args else ArgsOf(log, id)
    ensures Started(log + [e], id) <==> Started(log, id) || (e.typ == ToolStarted && e.callId == id)
    ensures HasResult(log + [e], id) <==> HasResult(log, id) || (IsResult(e) && e.callId == id)
  {
    var now := log + [e];
    assert now[..|log|] == log && now[|log|] == e;
    assert forall j :: 0 <= j < |log| ==> now[j] == log[j];
  }

  /** What the first pass knows of every call. */
  ghost predicate Scanned(log: seq<Event>, arguments: map<string, string>,
                          started: set<string>, hasResult: set<string>)
  {
    && (forall id :: (if id in arguments then arguments[id] else "{}") == ArgsOf(log, id))
    && (forall id :: id in started <==> Started(log, id))
    && (forall id :: id in hasResult <==> HasResult(log, id))
  }

  lemma ScannedOnce(log: seq<Event>, e: Event, arguments: map<string, string>,
                    started: set<string>, hasResult: set<string>)
    requires Scanned(log, arguments, started, hasResult)
    ensures Scanned(log + [e],
                    if e.typ == ToolProposed && e.callId != "" then arguments[e.callId := e.args] else arguments,
                    if e.typ == ToolStarted then started + {e.callId} else started,
                    if IsResult(e) then hasResult + {e.callId} else hasResult)
  {
    forall id
      ensures ArgsOf(log + [e], id) ==
                if e.typ == ToolProposed && e.callId == id && id != "" then e.args else ArgsOf(log, id)
      ensures Started(log + [e], id) <==> Started(log, id) || (e.typ == ToolStarted && e.callId == id)
      ensures HasResult(log + [e], id) <==> HasResult(log, id) || (IsResult(e) && e.callId == id)
    {
      AppendedFacts(log, e, id);
    }
  }

  /** The first pass: arguments, starts and receipts of every call. */
  method ScanCalls(events: seq<Event>)
    returns (arguments: map<string, string>, started: set<string>, hasResult: set<string>)
    ensures Scanned(events, arguments, started, hasResult)
  {
    arguments, started, hasResult := map[], {}, {};
    for i := 0 to |events|
      invariant Scanned(events[..i], arguments, started, hasResult)
    {
      var e := events[i];
      assert events[..i + 1] == events[..i] + [e];
      ScannedOnce(events[..i], e, arguments, started, hasResult);
      if e.typ == ToolProposed {
        if e.callId != "" { arguments := arguments[e.callId := e.args]; }
      } else if e.typ == ToolStarted {
        started := started + {e.callId};
      } else if IsResult(e) {
        hasResult := hasResult + {e.callId};
      }
    }
    assert events[..|events|] == events;
  }

  /** The index after the first `n` events. */
  ghost predicate ReflectsUpto(idx: Index, log: seq<Event>, n: nat, covered: set<string>)
    requires n <= |log|
  {
    && idx.blocked == {}
    && (forall k :: Results(idx, k) == Queue(log, n, covered, k))
    && (forall k :: Inflight(idx, k) == Uncertainties(log, n, covered, k))
  }

  /** What the scan does to the index at one event. */
  function Indexed(idx: Index, log: seq<Event>, e: Event, covered: set<string>): Index {
    var k := EventKey(log, e);
    if Reusable(log, e, covered) then idx.(results := idx.results[k := Results(idx, k) + [RecordOf(e)]])
    else if Uncertain(log, e, covered) then idx.(inflight := idx.inflight[k := Inflight(idx, k) + 1])
    else idx
  }

  lemma IndexedOnce(idx: Index, log: seq<Event>, n: nat, covered: set<string>)
    requires n < |log| && ReflectsUpto(idx, log, n, covered)
    ensures ReflectsUpto(Indexed(idx, log, log[n], covered), log, n + 1, covered)
  {
    var e, next := log[n], Indexed(idx, log, log[n], covered);
    forall k
      ensures Results(next, k) == Queue(log, n + 1, covered, k)
      ensures Inflight(next, k) == Uncertainties(log, n + 1, covered, k)
    {
      QueueOnce(log, n, covered, k);
    }
  }

  lemma QueueOnce(log: seq<Event>, n: nat, covered: set<string>, k: Key)
    requires n < |log|
    ensures Queue(log, n + 1, covered, k) ==
              Queue(log, n, covered, k) + if ReusableFor(log, log[n], covered, k) then [RecordOf(log[n])] else []
    ensures Uncertainties(log, n + 1, covered, k) ==
              Uncertainties(log, n, covered, k) + if UncertainFor(log, log[n], covered, k) then 1 else 0
  {}

  /** Every log has an index that reflects it. */
  lemma {:induction false} IndexExists(log: seq<Event>, n: nat, covered: set<string>) returns (idx: Index)
    requires n <= |log|
    ensures ReflectsUpto(idx, log, n, covered)
    decreases n
  {
    if n == 0 {
      idx := Index(map[], map[], {});
    } else {
      var before := IndexExists(log, n - 1, covered);
      IndexedOnce(before, log, n - 1, covered);
      idx := Indexed(before, log, log[n - 1], covered);
    }
  }

  // ---------------------------------------------------------------- the index in terms of log and trajectory

  /** The trajectory holds the answer to a call. */
  predicate HasAnswer(messages: seq<Message>, id: string) {
    exists i :: 0 <= i < |messages| && messages[i].role == Tool && messages[i].callId == id
  }

  /** The arguments of the last proposal of a call; none when it was never proposed. */
  predicate LastProposed(log: seq<Event>, id: string, args: string) {
    if forall i :: 0 <= i < |log| ==> !(log[i].typ == ToolProposed && log[i].callId == id) then args == "{}"
    else
      exists i :: 0 <= i < |log| && log[i].typ == ToolProposed && log[i].callId == id && log[i].args == args
                  && forall j :: i < j < |log| ==> !(log[j].typ == ToolProposed && log[j].callId == id)
  }

  /** The receipt of a call of this key that started and whose answer the trajectory lacks. */
  predicate Orphan(log: seq<Event>, messages: seq<Message>, k: Key, p: nat) {
    && p < |log| && (log[p].typ == ToolResult || log[p].typ == ToolError) && log[p].callId != ""
    && (exists i :: 0 <= i < |log| && log[i].typ == ToolStarted && log[i].callId == log[p].callId)
    && !HasAnswer(messages, log[p].callId)
    && log[p].toolName == k.name && LastProposed(log, log[p].callId, k.args)
  }

  /** The start of a call of this key that has no receipt and whose answer the trajectory lacks. */
  predicate Unsettled(log: seq<Event>, messages: seq<Message>, k: Key, p: nat) {
    && p < |log| && log[p].typ == ToolStarted && log[p].callId != ""
    && (forall i :: 0 <= i < |log| ==>
          !((log[i].typ == ToolResult || log[i].typ == ToolError) && log[i].callId == log[p].callId))
    && !HasAnswer(messages, log[p].callId)
    && log[p].toolName == k.name && LastProposed(log, log[p].callId, k.args)
  }

  predicate Rising(ps: seq<nat>) { forall i, j :: 0 <= i < j < |ps| ==> ps[i] < ps[j] }

  /** `ps` are the orphans of a key and `qs` its unsettled starts, all of them, each once, in log order. */
  ghost predicate Surveyed(log: seq<Event>, messages: seq<Message>, k: Key, ps: seq<nat>, qs: seq<nat>) {
    && Rising(ps) && (forall p: nat :: p in ps <==> Orphan(log, messages, k, p))
    && Rising(qs) && (forall q: nat :: q in qs <==> Unsettled(log, messages, k, q))
  }

  /** For one key the index holds the records of the orphans in log order, and counts the unsettled starts. */
  ghost predicate Explained(idx: Index, log: seq<Event>, messages: seq<Message>, k: Key, ps: seq<nat>, qs: seq<nat>) {
    && Surveyed(log, messages, k, ps, qs)
    && |Results(idx, k)| == |ps| && Inflight(idx, k) == |qs|
    && forall j :: 0 <= j < |ps| ==>
         ps[j] < |log| && Results(idx, k)[j] == RecordOf(log[ps[j]]) && Results(idx, k)[j].callId == log[ps[j]].callId
  }

  ghost predicate Explains(idx: Index, log: seq<Event>, messages: seq<Message>, k: Key) {
    exists ps, qs :: Explained(idx, log, messages, k, ps, qs)
  }

  lemma {:induction false} ArgsAreLastProposed(log: seq<Event>, id: string)
    requires id != ""
    ensures forall args :: LastProposed(log, id, args) <==> args == ArgsOf(log, id)
    decreases |log|
  {
    if log != [] {
      var n := |log| - 1;
      ArgsAreLastProposed(log[..n], id);
      forall args ensures LastProposed(log, id, args) <==> args == ArgsOf(log, id) {
        LastProposedNext(log, id, args);
      }
    }
  }

  lemma LastProposedNext(log: seq<Event>, id: string, args: string)
    requires log != []
    ensures var e := log[|log| - 1];
            LastProposed(log, id, args) <==>
              if e.typ == ToolProposed && e.callId == id then args == e.args
              else LastProposed(log[..|log| - 1], id, args)
  {
    var n := |log| - 1;
    assert forall i :: 0 <= i < n ==> log[..n][i] == log[i];
    if log[n].typ == ToolProposed && log[n].callId == id {
      assert log[n].args == args ==> LastProposed(log, id, args);
    } else if LastProposed(log[..n], id, args) {
      if i :| 0 <= i < n && log[..n][i].typ == ToolProposed && log[..n][i].callId == id && log[..n][i].args == args
              && forall j :: i < j < n ==> !(log[..n][j].typ == ToolProposed && log[..n][j].callId == id) {
        assert log[i].typ == ToolProposed;
      }
    }
  }

  lemma CoveredIffHasAnswer(messages: seq<Message>, id: string)
    requires id != ""
    ensures id in Trajectory.ToolIds(messages) <==> HasAnswer(messages, id)
  {}

  lemma OrphanIffReusable(log: seq<Event>, messages: seq<Message>, k: Key, p: nat)
    requires p < |log|
    ensures Orphan(log, messages, k, p) <==> ReusableFor(log, log[p], Trajectory.ToolIds(messages), k)
    ensures Unsettled(log, messages, k, p) <==> UncertainFor(log, log[p], Trajectory.ToolIds(messages), k)
  {
    if log[p].callId != "" {
      CoveredIffHasAnswer(messages, log[p].callId);
      ArgsAreLastProposed(log, log[p].callId);
    }
  }

  /** The uncertain starts that are counted, in log order. */
  lemma {:induction false} UncertainListed(log: seq<Event>, n: nat, covered: set<string>, k: Key) returns (qs: seq<nat>)
    requires n <= |log|
    ensures |qs| == Uncertainties(log, n, covered, k) && Rising(qs)
    ensures forall q: nat :: q in qs <==> q < n && UncertainFor(log, log[q], covered, k)
    decreases n
  {
    if n == 0 {
      qs := [];
    } else {
      var before := UncertainListed(log, n - 1, covered, k);
      if UncertainFor(log, log[n - 1], covered, k) {
        qs := before + [n - 1];
        assert qs[|before|] == n - 1;
        assert forall q: nat :: q in qs <==> q in before || q == n - 1;
        assert forall i :: 0 <= i < |before| ==> before[i] in before;
      } else {
        qs := before;
      }
    }
  }

  /** An index that reflects a log holds exactly what log and trajectory say about every key. */
  lemma IndexExplained(idx: Index, log: seq<Event>, messages: seq<Message>, k: Key) returns (ps: seq<nat>, qs: seq<nat>)
    requires Reflects(idx, log, Trajectory.ToolIds(messages))
    ensures Explained(idx, log, messages, k, ps, qs)
  {
    var covered := Trajectory.ToolIds(messages);
    ps := QueueIsLogOrder(log, |log|, covered, k);
    qs := UncertainListed(log, |log|, covered, k);
    forall p: nat ensures p in ps <==> Orphan(log, messages, k, p) {
      if p < |log| { OrphanIffReusable(log, messages, k, p); }
      if p in ps { var j :| 0 <= j < |ps| && ps[j] == p; }
    }
    forall q: nat ensures q in qs <==> Unsettled(log, messages, k, q) {
      if q < |log| { OrphanIffReusable(log, messages, k, q); }
    }
  }

  class ResumeIndex {
    var results: map<Key, seq<Recorded>>
    var inflight: map<Key, nat>
    var blocked: set<Key>

    function Value(): Index
      reads this
    {
      Index(results, inflight, blocked)
    }

    /** Scans the log against the trajectory rolled back to a safe boundary. */
    constructor Build(events: seq<Event>, messages: seq<Message>)
      ensures Reflects(Value(), events, Trajectory.ToolIds(messages))
      ensures forall k :: Explains(Value(), events, messages, k)
    {
      results, inflight, blocked := map[], map[], {};
      new;
      var covered := CoveredCalls(messages);
      var arguments, started, hasResult := ScanCalls(events);
      for i := 0 to |events|
        invariant ReflectsUpto(Value(), events, i, covered)
      {
        var e := events[i];
        IndexedOnce(Value(), events, i, covered);
        var key := Key(e.toolName, if e.callId in arguments then arguments[e.callId] else "{}");
        IndexEvent(events, covered, e, key, e.callId in started, e.callId in hasResult);
      }
      forall k ensures Explains(Value(), events, messages, k) {
        var ps, qs := IndexExplained(Value(), events, messages, k);
      }
    }

    /** The second pass at one event. */
    method IndexEvent(ghost log: seq<Event>, covered: set<string>, e: Event, key: Key, started: bool, hasResult: bool)
      requires key == EventKey(log, e) && started == Started(log, e.callId) && hasResult == HasResult(log, e.callId)
      modifies this
      ensures Value() == Indexed(old(Value()), log, e, covered)
    {
      if e.callId == "" || e.callId in covered { return; }
      if IsResult(e) {
        if !started { return; }
        results := results[key := (if key in results then results[key] else []) + [RecordOf(e)]];
      } else if e.typ == ToolStarted {
        if !hasResult { inflight := inflight[key := (if key in inflight then inflight[key] else 0) + 1]; }
      }
    }

    /** The locked part of the wrapped Execute. */
    method Consult(key: Key, safe: bool) returns (hit: Hit)
      modifies this
      ensures (Value(), hit) == Take(old(Value()), key, safe)
    {
      if key in results && results[key] != [] {
        hit := Reuse(results[key][0]);
        results := results[key := results[key][1..]];
        return;
      }
      var isBlocked := key in blocked;
      if !isBlocked && key in inflight && inflight[key] > 0 {
        inflight := inflight[key := inflight[key] - 1];
        if !safe {
          blocked := blocked + {key};
          isBlocked := true;
        }
      }
      hit := if isBlocked then Notice else RunBody;
    }
  }

  // ---------------------------------------------------------------- reuse in log order

  /** The queue of a key lists its reusable receipts in log order, each once. */
  lemma {:induction false} QueueIsLogOrder(log: seq<Event>, n: nat, covered: set<string>, k: Key) returns (ps: seq<nat>)
    requires n <= |log|
    ensures |ps| == |Queue(log, n, covered, k)|
    ensures forall j :: 0 <= j < |ps| ==>
              ps[j] < n && ReusableFor(log, log[ps[j]], covered, k)
              && Queue(log, n, covered, k)[j] == RecordOf(log[ps[j]])
    ensures forall i, j :: 0 <= i < j < |ps| ==> ps[i] < ps[j]
    ensures forall p :: 0 <= p < n && ReusableFor(log, log[p], covered, k) ==> p in ps
    decreases n
  {
    if n == 0 {
      ps := [];
    } else {
      var before := QueueIsLogOrder(log, n - 1, covered, k);
      var e := log[n - 1];
      if ReusableFor(log, e, covered, k) {
        ps := before + [n - 1];
        assert ps[|before|] == n - 1;
        assert forall p :: p in before ==> p in ps;
      } else {
        ps := before;
      }
    }
  }

  lemma {:induction false} UncertainIsCounted(log: seq<Event>, n: nat, covered: set<string>, p: nat)
    requires p < n <= |log| && Uncertain(log, log[p], covered)
    ensures Uncertainties(log, n, covered, EventKey(log, log[p])) > 0
    decreases n
  {
    if p < n - 1 { UncertainIsCounted(log, n - 1, covered, p); }
  }

  // ---------------------------------------------------------------- any interleaving of requests

  function Requests(reqs: seq<Key>, k: Key): nat {
    if reqs == [] then 0
    else Requests(reqs[..|reqs| - 1], k) + if reqs[|reqs| - 1] == k then 1 else 0
  }

  /** The hits of a sequence of critical sections, in the order the lock was taken. */
  function Serve(idx: Index, reqs: seq<Key>, safe: set<string>): (r: (Index, seq<Hit>))
    ensures |r.1| == |reqs|
  {
    if reqs == [] then (idx, [])
    else
      var k := reqs[|reqs| - 1];
      var (before, hits) := Serve(idx, reqs[..|reqs| - 1], safe);
      var (after, hit) := Take(before, k, k.name in safe);
      (after, hits + [hit])
  }

  function Bodies(reqs: seq<Key>, hits: seq<Hit>, k: Key): nat
    requires |reqs| == |hits|
  {
    if reqs == [] then 0
    else
      var n := |reqs| - 1;
      Bodies(reqs[..n], hits[..n], k) + if reqs[n] == k && hits[n] == RunBody then 1 else 0
  }

  function Remaining<T>(queue: seq<T>, n: nat): seq<T> { if n <= |queue| then queue[n..] else [] }

  /** Calls of this key may run again: the tool is safe to retry, or nothing with the key is in flight. */
  predicate MayRun(idx: Index, k: Key, safe: set<string>) {
    k.name in safe || Inflight(idx, k) == 0
  }

  /** What one critical section does to one key. */
  lemma TakeState(idx: Index, other: Key, safe: bool, k: Key)
    ensures var (after, hit) := Take(idx, other, safe);
            if other != k then
              Results(after, k) == Results(idx, k) && Inflight(after, k) == Inflight(idx, k)
              && (k in after.blocked <==> k in idx.blocked)
            else if Results(idx, k) != [] then
              Results(after, k) == Results(idx, k)[1..] && hit == Reuse(Results(idx, k)[0])
              && Inflight(after, k) == Inflight(idx, k) && after.blocked == idx.blocked
            else
              && Results(after, k) == []
              && Inflight(after, k) <= Inflight(idx, k)
              && (k in after.blocked <==> k in idx.blocked || (!safe && Inflight(idx, k) > 0))
              && (hit == if k in after.blocked then Notice else RunBody)
  {}

  /** What the index looks like for one key after any requests. */
  lemma {:induction false} ServeState(idx: Index, reqs: seq<Key>, safe: set<string>, k: Key)
    requires idx.blocked == {}
    ensures var after := Serve(idx, reqs, safe).0;
            && Results(after, k) == Remaining(Results(idx, k), Requests(reqs, k))
            && (MayRun(idx, k, safe) ==> k !in after.blocked && MayRun(after, k, safe))
            && (!MayRun(idx, k, safe) ==> k in after.blocked || Inflight(after, k) > 0)
    decreases |reqs|
  {
    if reqs != [] {
      var last := reqs[|reqs| - 1];
      ServeState(idx, reqs[..|reqs| - 1], safe, k);
      TakeState(Serve(idx, reqs[..|reqs| - 1], safe).0, last, last.name in safe, k);
    }
  }

  /** Real executions of a key: the requests beyond the recorded receipts, or none at all once an
      uncertain call of a tool that is not safe to retry is in flight. */
  lemma {:induction false} ExecutionsOfKey(idx: Index, reqs: seq<Key>, safe: set<string>, k: Key)
    requires idx.blocked == {}
    ensures var r, q := Requests(reqs, k), |Results(idx, k)|;
            Bodies(reqs, Serve(idx, reqs, safe).1, k) == if MayRun(idx, k, safe) && q < r then r - q else 0
    decreases |reqs|
  {
    if reqs != [] {
      var n := |reqs| - 1;
      assert Serve(idx, reqs, safe).1[..n] == Serve(idx, reqs[..n], safe).1;
      ExecutionsOfKey(idx, reqs[..n], safe, k);
      ServeState(idx, reqs[..n], safe, k);
      TakeState(Serve(idx, reqs[..n], safe).0, reqs[n], reqs[n].name in safe, k);
    }
  }

  /** The m-th request of a key receives its m-th receipt while receipts last, and none afterwards. */
  lemma ReceiptsInOrder(idx: Index, reqs: seq<Key>, safe: set<string>, i: nat)
    requires idx.blocked == {} && i < |reqs|
    ensures var k := reqs[i];
            var m, hit := Requests(reqs[..i], k), Serve(idx, reqs, safe).1[i];
            if m < |Results(idx, k)| then hit == Reuse(Results(idx, k)[m]) else !hit.Reuse?
    decreases |reqs|
  {
    var n := |reqs| - 1;
    if i == n {
      ServeState(idx, reqs[..n], safe, reqs[i]);
      TakeState(Serve(idx, reqs[..n], safe).0, reqs[n], reqs[n].name in safe, reqs[n]);
    } else {
      ReceiptsInOrder(idx, reqs[..n], safe, i);
      assert reqs[..n][..i] == reqs[..i];
    }
  }

  /** An index counts as empty exactly when no key has a receipt, a start in flight, or a block. */
  lemma EmptyIff(idx: Index)
    ensures Empty(idx) <==> forall k :: Results(idx, k) == [] && Inflight(idx, k) == 0 && k !in idx.blocked
  {
    if Empty(idx) {
      forall k ensures Results(idx, k) == [] && Inflight(idx, k) == 0 && k !in idx.blocked {}
    }
    if forall k :: Results(idx, k) == [] && Inflight(idx, k) == 0 && k !in idx.blocked {
      forall k | k in idx.results ensures idx.results[k] == [] { assert Results(idx, k) == []; }
      forall k | k in idx.inflight ensures idx.inflight[k] == 0 { assert Inflight(idx, k) == 0; }
      assert forall k :: k in idx.blocked ==> Results(idx, k) == [] && k !in idx.blocked;
    }
  }

  /** An empty index changes nothing: every request runs the tool. */
  lemma {:induction false} EmptyIsTransparent(idx: Index, reqs: seq<Key>, safe: set<string>)
    requires Empty(idx)
    ensures Empty(Serve(idx, reqs, safe).0)
    ensures forall i :: 0 <= i < |reqs| ==> Serve(idx, reqs, safe).1[i] == RunBody
    decreases |reqs|
  {
    if reqs != [] { EmptyIsTransparent(idx, reqs[..|reqs| - 1], safe); }
  }
}
