/** Replay, live events and gap backfills of one stream (runtime/runtime.go, Stream). */
module Stream {
  import opened Types
  import Protocol
  import ProtocolLog

  /** The record as Stream reads it. */
  datatype Registration = Registration(status: Protocol.Status, error: Text)

  /** Everything a stream meets while it runs: its first log read, the record read after it, the events
      its bounded channel kept, what the log would return when each of them arrives, whether the channel
      is closed after them (otherwise the caller's context ends the wait), and the last reads. `None` is
      a failed read. */
  datatype World = World(
    snapshot: Option<seq<Event>>, record: Option<Registration>,
    deliveries: seq<Event>, backfills: seq<Option<seq<Event>>>, closes: bool,
    finalLog: Option<seq<Event>>, finalRecord: Option<Registration>)

  /** The non-terminal events after a sequence number, in order. */
  function Rest(log: seq<Event>, after: int): seq<Event> {
    if log == [] then []
    else
      var e := log[|log| - 1];
      Rest(log[..|log| - 1], after) + if e.sq > after && !IsTerminal(e) then [e] else []
  }

  predicate Climbing(out: seq<Event>, low: int, high: int) {
    && (forall i :: 0 <= i < |out| ==> low < out[i].sq <= high)
    && (forall i, j :: 0 <= i < j < |out| ==> out[i].sq < out[j].sq)
  }

  /** The terminal event made up from the record when the log has none to offer. */
  function Synthetic(r: Registration, last: int): Event {
    PlainEvent(if r.status == Protocol.Succeeded then RunDone else RunError).(sq := last + 1, error := r.error)
  }

  /** `n` splits the log at the sequence number `last`. */
  predicate SplitAt(log: seq<Event>, n: nat, last: int) {
    && n <= |log|
    && (forall i :: 0 <= i < n ==> log[i].sq <= last)
    && (forall i :: n <= i < |log| ==> last < log[i].sq)
  }

  /** Where a stream gets its events from: `log` is what the run has stored when it ends; the store is
      reliable; the channel was subscribed when `m` events were stored and delivers, in order, any part
      of the later ones; no new attempt begins meanwhile. Nothing is said about the status read. */
  ghost predicate Sourced(w: World, log: seq<Event>, m: nat, pos: seq<nat>) {
    && ProtocolLog.Increasing(log) && log != [] && IsTerminal(log[|log| - 1])
    && m <= |log| && (forall i :: m <= i < |log| - 1 ==> !IsTerminal(log[i]))
    && w.record.Some? && w.snapshot.Some? && w.snapshot.value <= log && m <= |w.snapshot.value|
    && |pos| == |w.deliveries| && |w.backfills| == |w.deliveries|
    && (forall i :: 0 <= i < |pos| ==>
          && m <= pos[i] < |log| && w.deliveries[i] == log[pos[i]]
          && w.backfills[i].Some? && w.backfills[i].value <= log && pos[i] < |w.backfills[i].value|)
    && (forall i, j :: 0 <= i < j < |pos| ==> pos[i] < pos[j])
    && w.finalLog == Some(log)
  }

  /** The situation Stream is made for: the status read is terminal exactly when the snapshot already ends
      with the terminal event. */
  ghost predicate Reliable(w: World, log: seq<Event>, m: nat, pos: seq<nat>) {
    Sourced(w, log, m, pos) && (Protocol.Ended(w.record.value.status) <==> w.snapshot.value == log)
  }

  predicate Over(record: Option<Registration>) { record.Some? && Protocol.Ended(record.value.status) }

  /** A snapshot that lacks no event after `after` but terminal ones. */
  predicate NothingMissed(part: seq<Event>, log: seq<Event>, after: int) {
    forall i :: |part| <= i < |log| && log[i].sq > after ==> IsTerminal(log[i])
  }

  /** The status read fits the log read before it: a terminal status with a snapshot that lacks nothing but
      the terminal event; any other status with a snapshot taken before the end, unless the last status
      read is terminal. */
  predicate Timely(w: World, log: seq<Event>, after: int) {
    w.snapshot.Some? &&
    if Over(w.record) then NothingMissed(w.snapshot.value, log, after)
    else w.snapshot.value == log ==> Over(w.finalRecord)
  }

  /** All stored non-terminal events after `after`, in order and once each, then a terminal event. */
  predicate Whole(out: seq<Event>, log: seq<Event>, after: int) {
    out != [] && IsTerminal(out[|out| - 1]) && out[..|out| - 1] == Rest(log, after)
  }

  // ---------------------------------------------------------------- what a stream gives and how it ends

  /** An event one of the reads or the channel brought. */
  ghost predicate Brought(w: World, e: Event) {
    || (w.snapshot.Some? && e in w.snapshot.value)
    || e in w.deliveries
    || (exists i :: 0 <= i < |w.backfills| && w.backfills[i].Some? && e in w.backfills[i].value)
    || (w.finalLog.Some? && e in w.finalLog.value)
  }

  predicate HasTerminal(events: seq<Event>) { exists i :: 0 <= i < |events| && IsTerminal(events[i]) }

  /** `low` is the last position a stream has reached: the highest number in its first read and among the
      events it gave, or where it began. */
  predicate Reached(w: World, after: int, given: seq<Event>, low: int)
    requires w.snapshot.Some?
  {
    && after <= low
    && (forall i :: 0 <= i < |w.snapshot.value| ==> w.snapshot.value[i].sq <= low)
    && (forall i :: 0 <= i < |given| ==> given[i].sq <= low)
    && (|| low == after
        || (exists i :: 0 <= i < |w.snapshot.value| && w.snapshot.value[i].sq == low)
        || (exists i :: 0 <= i < |given| && given[i].sq == low))
  }

  /** Everything given was brought by a read or the channel, and nothing terminal was among it. */
  ghost predicate Standing(w: World, after: int, given: seq<Event>, low: int) {
    && w.snapshot.Some? && (forall i :: 0 <= i < |given| ==> Brought(w, given[i]))
    && !HasTerminal(given) && Reached(w, after, given, low)
  }

  /** How a stream ends: with a terminal event that was brought; or, when none was and the deciding status
      is terminal, with one made up from the record, numbered one past the last position; or with neither. */
  ghost predicate Ending(w: World, after: int, out: seq<Event>, given: seq<Event>, decider: Option<Registration>) {
    && w.snapshot.Some? && (forall i :: 0 <= i < |given| ==> Brought(w, given[i]))
    && if HasTerminal(given) || !Over(decider) then out == given
       else exists low :: Reached(w, after, given, low)
              && out == given + [Event(if decider.value.status == Protocol.Succeeded then RunDone else RunError,
                                       low + 1, "", "", "", [], decider.value.error, [])]
  }

  ghost predicate Ends(w: World, after: int, out: seq<Event>, decider: Option<Registration>) {
    exists given :: Ending(w, after, out, given, decider)
  }

  // ---------------------------------------------------------------- the three scans of the log

  /** The events emitted so far, the last sequence number passed, and whether a terminal event was emitted. */
  datatype Scan = Scan(last: int, out: seq<Event>, ended: bool)

  function Emitted(s: Scan, e: Event): Scan { Scan(e.sq, s.out + [e], IsTerminal(e)) }

  /** The first read: old terminal events are passed over, the current one ends the stream. */
  function SnapshotScan(log: seq<Event>, i: nat, last: int, maxSeq: int, over: bool): Scan
    requires i <= |log|
  {
    if i == 0 then Scan(last, [], false)
    else
      var s, e := SnapshotScan(log, i - 1, last, maxSeq, over), log[i - 1];
      if s.ended || e.sq <= s.last then s
      else if IsTerminal(e) && (e.sq < maxSeq || !over) then s.(last := e.sq)
      else Emitted(s, e)
  }

  /** The gap between `last` and `upper`, exclusive; terminal events are not backfilled. */
  function GapScan(log: seq<Event>, i: nat, last: int, upper: int): Scan
    requires i <= |log|
  {
    if i == 0 then Scan(last, [], false)
    else
      var s, e := GapScan(log, i - 1, last, upper), log[i - 1];
      if e.sq <= s.last || e.sq >= upper || IsTerminal(e) then s else Emitted(s, e)
  }

  /** The last read: only the last stored event may end the stream. */
  function FinalScan(log: seq<Event>, i: nat, last: int): Scan
    requires i <= |log|
  {
    if i == 0 then Scan(last, [], false)
    else
      var s, e := FinalScan(log, i - 1, last), log[i - 1];
      if e.sq <= s.last || (IsTerminal(e) && e.sq != log[|log| - 1].sq) then s
      else Emitted(s, e).(ended := s.ended || IsTerminal(e))
  }

  method StreamBackfillRange(events: seq<Event>, last: int, upper: int) returns (filled: int, out: seq<Event>)
    ensures Scan(filled, out, false) == GapScan(events, |events|, last, upper)
  {
    filled, out := last, [];
    for i := 0 to |events|
      invariant Scan(filled, out, false) == GapScan(events, i, last, upper)
    {
      var event := events[i];
      if event.sq <= filled || event.sq >= upper { continue; }
      if IsTerminal(event) { continue; }
      filled := event.sq;
      out := out + [event];
    }
  }

  method StreamFinalBackfill(events: seq<Event>, last: int, record: Option<Registration>) returns (out: seq<Event>)
    ensures var s := FinalScan(events, |events|, last);
            out == s.out + if !s.ended && record.Some? && Protocol.Ended(record.value.status)
                           then [Synthetic(record.value, s.last)] else []
  {
    var passed, sawTerminal := last, false;
    out := [];
    if |events| > 0 {
      var maxSeq := events[|events| - 1].sq;
      for i := 0 to |events|
        invariant Scan(passed, out, sawTerminal) == FinalScan(events, i, last)
      {
        var event := events[i];
        if event.sq <= passed { continue; }
        var terminal := IsTerminal(event);
        if terminal && event.sq != maxSeq { continue; }
        passed := event.sq;
        out := out + [event];
        if terminal { sawTerminal := true; }
      }
    }
    if !sawTerminal && record.Some? && Protocol.Ended(record.value.status) {
      out := out + [Synthetic(record.value, passed)];
    }
  }

  // ---------------------------------------------------------------- what the scans emit

  /** The scans emit rising sequence numbers, whatever the log holds. */
  lemma {:induction false} SnapshotClimbs(log: seq<Event>, i: nat, last: int, maxSeq: int, over: bool)
    requires i <= |log|
    ensures var s := SnapshotScan(log, i, last, maxSeq, over); last <= s.last && Climbing(s.out, last, s.last)
    decreases i
  {
    if i > 0 { SnapshotClimbs(log, i - 1, last, maxSeq, over); }
  }

  lemma {:induction false} GapClimbs(log: seq<Event>, i: nat, last: int, upper: int)
    requires i <= |log|
    ensures var s := GapScan(log, i, last, upper);
            last <= s.last && (s.last < upper || s.last == last) && Climbing(s.out, last, s.last) && !s.ended
    decreases i
  {
    if i > 0 { GapClimbs(log, i - 1, last, upper); }
  }

  lemma {:induction false} FinalClimbs(log: seq<Event>, i: nat, last: int)
    requires i <= |log|
    ensures var s := FinalScan(log, i, last); last <= s.last && Climbing(s.out, last, s.last)
    decreases i
  {
    if i > 0 { FinalClimbs(log, i - 1, last); }
  }

  /** A slice of what was read, with at most one terminal event at its end. */
  lemma {:induction false} SnapshotBrings(log: seq<Event>, i: nat, last: int, maxSeq: int, over: bool)
    requires i <= |log|
    ensures var s := SnapshotScan(log, i, last, maxSeq, over);
            && (forall k :: 0 <= k < |s.out| ==> s.out[k] in log)
            && (s.ended <==> HasTerminal(s.out))
            && (!s.ended ==>
                  && (forall k :: 0 <= k < i ==> log[k].sq <= s.last)
                  && (s.last == last || exists k :: 0 <= k < i && log[k].sq == s.last))
    decreases i
  {
    if i > 0 {
      SnapshotBrings(log, i - 1, last, maxSeq, over);
      TerminalNext(SnapshotScan(log, i - 1, last, maxSeq, over).out, log[i - 1]);
    }
  }

  lemma TerminalNext(events: seq<Event>, e: Event)
    ensures HasTerminal(events + [e]) <==> HasTerminal(events) || IsTerminal(e)
  {
    assert (events + [e])[|events|] == e;
    assert forall i :: 0 <= i < |events| ==> (events + [e])[i] == events[i];
  }

  lemma {:induction false} GapBrings(log: seq<Event>, i: nat, last: int, upper: int)
    requires i <= |log|
    ensures var s := GapScan(log, i, last, upper);
            (forall k :: 0 <= k < |s.out| ==> s.out[k] in log) && !HasTerminal(s.out)
    decreases i
  {
    if i > 0 {
      GapBrings(log, i - 1, last, upper);
      TerminalNext(GapScan(log, i - 1, last, upper).out, log[i - 1]);
    }
  }

  lemma {:induction false} FinalBrings(log: seq<Event>, i: nat, last: int)
    requires i <= |log|
    ensures var s := FinalScan(log, i, last);
            && (forall k :: 0 <= k < |s.out| ==> s.out[k] in log)
            && (s.ended <==> HasTerminal(s.out))
            && (if s.out == [] then s.last == last else s.last == s.out[|s.out| - 1].sq)
    decreases i
  {
    if i > 0 {
      FinalBrings(log, i - 1, last);
      TerminalNext(FinalScan(log, i - 1, last).out, log[i - 1]);
    }
  }

  lemma TerminalAppend(a: seq<Event>, b: seq<Event>)
    ensures HasTerminal(a + b) <==> HasTerminal(a) || HasTerminal(b)
  {
    forall i | 0 <= i < |a| ensures (a + b)[i] == a[i] {}
    forall i | 0 <= i < |b| ensures (a + b)[|a| + i] == b[i] {}
  }

  /** More events, rising from `low` to `high`, move the stream on. */
  lemma StandingOn(w: World, after: int, given: seq<Event>, low: int, more: seq<Event>, high: int)
    requires Standing(w, after, given, low) && Climbing(more, low, high) && low <= high
    requires forall i :: 0 <= i < |more| ==> Brought(w, more[i])
    requires if more == [] then high == low else more[|more| - 1].sq == high
    ensures forall i :: 0 <= i < |given + more| ==> Brought(w, (given + more)[i])
    ensures Reached(w, after, given + more, high)
    ensures HasTerminal(given + more) <==> HasTerminal(more)
  {
    var all := given + more;
    TerminalAppend(given, more);
    forall i | 0 <= i < |all| ensures Brought(w, all[i]) && all[i].sq <= high {
      if i < |given| { assert all[i] == given[i]; } else { assert all[i] == more[i - |given|]; }
    }
    if more == [] {
      assert all == given;
    } else {
      assert all[|all| - 1].sq == high;
    }
  }

  lemma {:induction false} RestOfSlice(log: seq<Event>, n: nat, after: int)
    requires n < |log|
    ensures Rest(log[..n + 1], after) ==
              Rest(log[..n], after) + if log[n].sq > after && !IsTerminal(log[n]) then [log[n]] else []
  {
    assert log[..n + 1][..n] == log[..n];
  }

  /** The rest of a log: exactly its events after `after` that are neither run_done nor run_error, in order. */
  lemma {:induction false} RestMeans(log: seq<Event>, after: int) returns (ps: seq<nat>)
    ensures |ps| == |Rest(log, after)|
    ensures forall j :: 0 <= j < |ps| ==> ps[j] < |log| && Rest(log, after)[j] == log[ps[j]]
    ensures forall i, j :: 0 <= i < j < |ps| ==> ps[i] < ps[j]
    ensures forall p: nat :: p in ps <==>
              p < |log| && log[p].sq > after && log[p].typ != RunDone && log[p].typ != RunError
    decreases |log|
  {
    if log == [] {
      ps := [];
    } else {
      var n := |log| - 1;
      var before := RestMeans(log[..n], after);
      if log[n].sq > after && !IsTerminal(log[n]) {
        ps := before + [n];
        PositionNext(before, n);
      } else {
        ps := before;
      }
    }
  }

  lemma PositionNext(ps: seq<nat>, n: nat)
    ensures forall p: nat :: p in ps + [n] <==> p in ps || p == n
  {
    assert (ps + [n])[|ps|] == n;
    assert forall i :: 0 <= i < |ps| ==> (ps + [n])[i] == ps[i];
  }

  /** On a stored log the snapshot yields its non-terminal events, and ends at the current terminal event. */
  lemma {:induction false} SnapshotRest(log: seq<Event>, i: nat, after: int, over: bool)
    requires ProtocolLog.Increasing(log) && i <= |log|
    ensures log != [] ==>
              var s := SnapshotScan(log, i, after, log[|log| - 1].sq, over);
              var ends := i == |log| && over && IsTerminal(log[|log| - 1]) && after < log[|log| - 1].sq;
              && s.out == Rest(log[..i], after) + (if ends then [log[|log| - 1]] else [])
              && s.ended == ends
              && s.last == (if 0 < i && after < log[i - 1].sq then log[i - 1].sq else after)
    decreases i
  {
    if i > 0 {
      SnapshotRest(log, i - 1, after, over);
      RestOfSlice(log, i - 1, after);
    }
  }

  lemma {:induction false} GapLast(log: seq<Event>, i: nat, last: int, upper: int)
    requires ProtocolLog.Increasing(log) && i <= |log|
    ensures var s := GapScan(log, i, last, upper); s.last == last || (0 < i && s.last <= log[i - 1].sq)
    decreases i
  {
    if i > 0 { GapLast(log, i - 1, last, upper); }
  }

  /** Before the gap a backfill is silent ... */
  lemma {:induction false} GapSilent(log: seq<Event>, i: nat, n: nat, last: int, upper: int)
    requires i <= n <= |log| && SplitAt(log, n, last)
    ensures GapScan(log, i, last, upper) == Scan(last, [], false)
    decreases i
  {
    if i > 0 { GapSilent(log, i - 1, n, last, upper); }
  }

  /** ... up to the event at `p` it completes the non-terminal events ... */
  lemma {:induction false} GapInside(log: seq<Event>, i: nat, n: nat, p: nat, last: int, after: int)
    requires ProtocolLog.Increasing(log) && n <= i <= p < |log| && after <= last && SplitAt(log, n, last)
    ensures Rest(log[..n], after) + GapScan(log, i, last, log[p].sq).out == Rest(log[..i], after)
    decreases i
  {
    if i == n {
      GapSilent(log, i, n, last, log[p].sq);
    } else {
      var s, e := GapScan(log, i - 1, last, log[p].sq), log[i - 1];
      GapInside(log, i - 1, n, p, last, after);
      GapLast(log, i - 1, last, log[p].sq);
      RestOfSlice(log, i - 1, after);
      Regroup(Rest(log[..n], after), s.out, [e]);
    }
  }

  /** ... and afterwards it is silent again. */
  lemma {:induction false} GapRest(log: seq<Event>, i: nat, n: nat, p: nat, last: int, after: int)
    requires ProtocolLog.Increasing(log) && n <= p < |log| && p <= i <= |log| && after <= last && SplitAt(log, n, last)
    ensures Rest(log[..n], after) + GapScan(log, i, last, log[p].sq).out == Rest(log[..p], after)
    decreases i
  {
    if i == p { GapInside(log, p, n, p, last, after); } else { GapRest(log, i - 1, n, p, last, after); }
  }

  /** A last read of the whole log completes it. */
  lemma {:induction false} FinalRest(log: seq<Event>, i: nat, n: nat, last: int, after: int)
    requires ProtocolLog.Increasing(log) && n < |log| && i <= |log| && after <= last && SplitAt(log, n, last)
    requires IsTerminal(log[|log| - 1])
    ensures var s := FinalScan(log, i, last); s.last == last || (0 < i && s.last <= log[i - 1].sq)
    ensures var s, ends := FinalScan(log, i, last), i == |log|;
            && s.ended == ends
            && (if i <= n then s == Scan(last, [], false)
                else Rest(log[..n], after) + s.out == Rest(log[..i], after) + (if ends then [log[|log| - 1]] else []))
    decreases i
  {
    if i > 0 {
      FinalRest(log, i - 1, n, last, after);
      RestOfSlice(log, i - 1, after);
      var s, e := FinalScan(log, i - 1, last), log[i - 1];
      Regroup(Rest(log[..n], after), s.out, [e]);
    }
  }

  // ---------------------------------------------------------------- the stream

  method StreamSnapshot(events: seq<Event>, over: bool, afterSeq: int) returns (out: seq<Event>, last: int, ended: bool)
    ensures Scan(last, out, ended) == SnapshotScan(events, |events|, afterSeq, Protocol.MaxSeq(events), over)
  {
    var maxSeq := 0;
    for i := 0 to |events|
      invariant maxSeq == Protocol.MaxSeq(events[..i])
    {
      assert events[..i + 1][..i] == events[..i];
      if events[i].sq > maxSeq { maxSeq := events[i].sq; }
    }
    assert events[..|events|] == events;
    last, out, ended := afterSeq, [], false;
    var i := 0;
    while i < |events|
      invariant i <= |events| && !ended
      invariant Scan(last, out, ended) == SnapshotScan(events, i, afterSeq, maxSeq, over)
    {
      var event := events[i];
      i := i + 1;
      if event.sq <= last { continue; }
      last := event.sq;
      var terminal := IsTerminal(event);
      if terminal && (event.sq < maxSeq || !over) { continue; }
      out := out + [event];
      if terminal {
        ended := true;
        SnapshotStops(events, i, afterSeq, maxSeq, over, |events|);
        return;
      }
    }
  }

  lemma {:induction false} SnapshotStops(log: seq<Event>, i: nat, last: int, maxSeq: int, over: bool, j: nat)
    requires i <= j <= |log| && SnapshotScan(log, i, last, maxSeq, over).ended
    ensures SnapshotScan(log, j, last, maxSeq, over) == SnapshotScan(log, i, last, maxSeq, over)
    decreases j
  {
    if i < j { SnapshotStops(log, i, last, maxSeq, over, j - 1); }
  }

  lemma {:induction false} MaxSeqOfIncreasing(log: seq<Event>)
    requires ProtocolLog.Increasing(log) && log != []
    ensures Protocol.MaxSeq(log) == log[|log| - 1].sq
    decreases |log|
  {
    if |log| > 1 { MaxSeqOfIncreasing(log[..|log| - 1]); }
  }

  /** Where a stream stands in the log: everything up to `last` has been given. */
  ghost predicate Caught(log: seq<Event>, out: seq<Event>, last: int, after: int) {
    log != [] && after <= last && last < log[|log| - 1].sq &&
    exists n: nat :: SplitAt(log, n, last) && out == Rest(log[..n], after)
  }

  lemma SnapshotOutcome(log: seq<Event>, after: int, over: bool)
    requires over && ProtocolLog.Increasing(log)
    ensures var s := SnapshotScan(log, |log|, after, Protocol.MaxSeq(log), over);
            && s.out == Rest(log, after) + (if s.ended then [log[|log| - 1]] else [])
            && (s.ended <==> log != [] && IsTerminal(log[|log| - 1]) && after < log[|log| - 1].sq)
  {
    if log != [] {
      MaxSeqOfIncreasing(log);
      SnapshotRest(log, |log|, after, over);
      assert log[..|log|] == log;
    }
  }

  lemma {:induction false} SplitExists(log: seq<Event>, last: int) returns (n: nat)
    requires ProtocolLog.Increasing(log)
    ensures SplitAt(log, n, last)
    decreases |log|
  {
    if log == [] || log[|log| - 1].sq <= last {
      n := |log|;
    } else {
      n := SplitExists(log[..|log| - 1], last);
      assert forall i :: 0 <= i < |log| - 1 ==> log[i] == log[..|log| - 1][i];
    }
  }

  lemma {:induction false} RestBelow(log: seq<Event>, after: int)
    requires forall i :: 0 <= i < |log| ==> log[i].sq <= after
    ensures Rest(log, after) == []
    decreases |log|
  {
    if log != [] { RestBelow(log[..|log| - 1], after); }
  }

  lemma SnapshotCatches(part: seq<Event>, log: seq<Event>, after: int)
    requires ProtocolLog.Increasing(log) && part <= log && part != log && after < log[|log| - 1].sq
    ensures var s := SnapshotScan(part, |part|, after, Protocol.MaxSeq(part), false);
            !s.ended && Caught(log, s.out, s.last, after)
  {
    assert part == log[..|part|];
    if part != [] {
      MaxSeqOfIncreasing(part);
      SnapshotRest(part, |part|, after, false);
      assert part[..|part|] == part;
    }
    if part != [] && after < part[|part| - 1].sq {
      assert SplitAt(log, |part|, part[|part| - 1].sq);
    } else {
      RestBelow(part, after);
      var n := SplitExists(log, after);
      RestBelow(log[..n], after);
    }
  }

  lemma GapFill(log: seq<Event>, p: nat, part: seq<Event>, n: nat, low: int, after: int)
    requires ProtocolLog.Increasing(log) && p < |log| && part <= log && p < |part|
    requires n <= p && after <= low && SplitAt(log, n, low)
    ensures Rest(log[..n], after) + GapScan(part, |part|, low, log[p].sq).out == Rest(log[..p], after)
  {
    assert part == log[..|part|];
    GapRest(part, |part|, n, p, low, after);
    assert part[..n] == log[..n] && part[..p] == log[..p];
  }

  /** What fills the gap before a delivered event. */
  function GapOf(event: Event, backfill: Option<seq<Event>>, last: int): seq<Event> {
    if event.sq > last + 1 && backfill.Some? then GapScan(backfill.value, |backfill.value|, last, event.sq).out else []
  }

  lemma GapReaches(log: seq<Event>, p: nat, part: seq<Event>, before: seq<Event>, low: int, after: int)
    requires ProtocolLog.Increasing(log) && p < |log| && part <= log && p < |part| && low < log[p].sq
    requires Caught(log, before, low, after)
    ensures before + GapOf(log[p], Some(part), low) == Rest(log[..p], after)
  {
    var n: nat :| SplitAt(log, n, low) && before == Rest(log[..n], after);
    assert n <= p && low < log[n].sq <= log[p].sq;
    if log[p].sq > low + 1 { GapFill(log, p, part, n, low, after); }
  }

  /** One delivered event, after its gap was filled, moves the stream on in the log. */
  lemma DeliveryCatches(log: seq<Event>, p: nat, part: seq<Event>, before: seq<Event>, low: int, after: int)
    requires ProtocolLog.Increasing(log) && p < |log| && part <= log && p < |part| && low < log[p].sq
    requires IsTerminal(log[p]) <==> p == |log| - 1
    requires Caught(log, before, low, after)
    ensures var e := log[p];
            var given := before + GapOf(e, Some(part), low) + [e];
            if IsTerminal(e) then given == Rest(log, after) + [e] else Caught(log, given, e.sq, after)
  {
    GapReaches(log, p, part, before, low, after);
    RestOfSlice(log, p, after);
    if IsTerminal(log[p]) {
      assert log[..p + 1] == log;
    } else {
      assert SplitAt(log, p + 1, log[p].sq);
    }
  }

  lemma FinalCatches(log: seq<Event>, out: seq<Event>, last: int, after: int)
    requires ProtocolLog.Increasing(log) && log != [] && IsTerminal(log[|log| - 1]) && Caught(log, out, last, after)
    ensures var s := FinalScan(log, |log|, last); s.ended && out + s.out == Rest(log, after) + [log[|log| - 1]]
  {
    var n: nat :| SplitAt(log, n, last) && out == Rest(log[..n], after);
    FinalRest(log, |log|, n, last, after);
    assert log[..|log|] == log;
  }

  lemma ClimbOn(a: seq<Event>, b: seq<Event>, low: int, mid: int, high: int)
    requires Climbing(a, low, mid) && Climbing(b, mid, high) && low <= mid <= high
    ensures Climbing(a + b, low, high)
  {}

  /** One delivery: fill the gap before it, then give it. */
  method StreamDelivery(event: Event, backfill: Option<seq<Event>>, given: seq<Event>, last: int, ghost after: int)
    returns (out: seq<Event>, passed: int, failed: bool)
    requires last < event.sq && after <= last && Climbing(given, after, last)
    ensures failed <==> event.sq > last + 1 && backfill.None?
    ensures failed ==> out == given && passed == last
    ensures !failed ==> passed == event.sq && Climbing(out, after, passed)
    ensures !failed ==> out == given + GapOf(event, backfill, last) + [event]
  {
    out, passed, failed := given, last, false;
    if event.sq > last + 1 {
      if backfill.None? { failed := true; return; }
      var filled, gap := StreamBackfillRange(backfill.value, last, event.sq);
      GapClimbs(backfill.value, |backfill.value|, last, event.sq);
      ClimbOn(out, gap, after, last, filled);
      out, passed := out + gap, filled;
    }
    ClimbOn(out, [event], after, passed, event.sq);
    out, passed := out + [event], event.sq;
  }

  /** Everything in the log was passed already. */
  ghost predicate Drained(log: seq<Event>, last: int) { forall i :: 0 <= i < |log| ==> log[i].sq <= last }

  lemma {:induction false} FinalSilent(log: seq<Event>, i: nat, last: int)
    requires i <= |log| && Drained(log, last)
    ensures FinalScan(log, i, last) == Scan(last, [], false)
    decreases i
  {
    if i > 0 { FinalSilent(log, i - 1, last); }
  }

  /** A delivered event, after its gap was filled, moves the stream on. */
  lemma DeliveryStands(w: World, i: nat, after: int, given: seq<Event>, low: int)
    requires |w.backfills| == |w.deliveries| && i < |w.deliveries| && Standing(w, after, given, low)
    requires low < w.deliveries[i].sq && (w.deliveries[i].sq <= low + 1 || w.backfills[i].Some?)
    ensures var event := w.deliveries[i];
            var out := given + GapOf(event, w.backfills[i], low) + [event];
            if IsTerminal(event) then Ends(w, after, out, w.finalRecord) else Standing(w, after, out, event.sq)
  {
    var event := w.deliveries[i];
    var gap := GapOf(event, w.backfills[i], low);
    if event.sq > low + 1 {
      var log := w.backfills[i].value;
      GapClimbs(log, |log|, low, event.sq);
      GapBrings(log, |log|, low, event.sq);
    }
    TerminalNext(gap, event);
    StandingOn(w, after, given, low, gap + [event], event.sq);
    Regroup(given, gap, [event]);
    var out := given + gap + [event];
    assert IsTerminal(event) ==> Ending(w, after, out, out, w.finalRecord);
  }

  /** The last read, and the terminal event made up after it. */
  lemma FinalStands(w: World, after: int, given: seq<Event>, low: int)
    requires Standing(w, after, given, low) && w.finalLog.Some?
    ensures var s := FinalScan(w.finalLog.value, |w.finalLog.value|, low);
            var tail := if !s.ended && Over(w.finalRecord) then [Synthetic(w.finalRecord.value, s.last)] else [];
            Ends(w, after, given + (s.out + tail), w.finalRecord)
  {
    var log := w.finalLog.value;
    FinalClimbs(log, |log|, low);
    FinalBrings(log, |log|, low);
    var s := FinalScan(log, |log|, low);
    StandingOn(w, after, given, low, s.out, s.last);
    var tail := if !s.ended && Over(w.finalRecord) then [Synthetic(w.finalRecord.value, s.last)] else [];
    Regroup(given, s.out, tail);
    if tail == [] { assert given + (s.out + tail) == given + s.out; }
    assert Ending(w, after, given + (s.out + tail), given + s.out, w.finalRecord);
  }

  lemma FinalClimbsOn(log: seq<Event>, given: seq<Event>, low: int, record: Option<Registration>,
                      rest: seq<Event>, after: int)
    requires Climbing(given, after, low) && after <= low
    requires var s := FinalScan(log, |log|, low);
             rest == s.out + if !s.ended && record.Some? && Protocol.Ended(record.value.status)
                             then [Synthetic(record.value, s.last)] else []
    ensures exists high :: after <= high && Climbing(given + rest, after, high)
  {
    var s := FinalScan(log, |log|, low);
    FinalClimbs(log, |log|, low);
    hide FinalScan;
    assert Climbing(rest, low, s.last + 1);
    ClimbOn(given, rest, after, low, s.last + 1);
    hide Climbing;
  }

  /** The live part: deliveries until a terminal event, the end of the channel, or a failure. */
  method StreamLive(w: World, start: seq<Event>, from: int, after: int,
                    ghost log: seq<Event>, ghost m: nat, ghost pos: seq<nat>)
    returns (out: seq<Event>, failed: bool)
    requires |w.backfills| == |w.deliveries| && after <= from && Climbing(start, after, from)
    ensures exists high :: after <= high && Climbing(out, after, high)
    ensures !failed && Sourced(w, log, m, pos) && Caught(log, start, from, after) ==>
              out == Rest(log, after) + [log[|log| - 1]]
    ensures !failed && Sourced(w, log, m, pos) && Drained(log, from) ==>
              out == start + if Over(w.finalRecord) then [Synthetic(w.finalRecord.value, from)] else []
    ensures !failed && Standing(w, after, start, from) ==> Ends(w, after, out, w.finalRecord)
  {
    hide Standing, Ends;
    out, failed := start, true;
    var last := from;
    ghost var reliable := Sourced(w, log, m, pos) && Caught(log, start, from, after);
    ghost var drained := Sourced(w, log, m, pos) && Drained(log, from);
    ghost var standing := Standing(w, after, start, from);
    for i := 0 to |w.deliveries|
      invariant after <= last && Climbing(out, after, last)
      invariant reliable ==> Caught(log, out, last, after)
      invariant drained ==> out == start && last == from
      invariant standing ==> Standing(w, after, out, last)
    {
      var event := w.deliveries[i];
      if event.sq <= last { continue; }
      if reliable && w.backfills[i].Some? { DeliveryCatches(log, pos[i], w.backfills[i].value, out, last, after); }
      if standing && (event.sq <= last + 1 || w.backfills[i].Some?) { DeliveryStands(w, i, after, out, last); }
      var broken;
      out, last, broken := StreamDelivery(event, w.backfills[i], out, last, after);
      if broken { return; }
      if IsTerminal(event) {
        failed := false;
        return;
      }
    }
    if !w.closes || w.finalLog.None? { return; }
    failed := false;
    var rest := StreamFinalBackfill(w.finalLog.value, last, w.finalRecord);
    FinalClimbsOn(w.finalLog.value, out, last, w.finalRecord, rest, after);
    if standing { FinalStands(w, after, out, last); }
    if reliable { FinalCatches(log, out, last, after); }
    if drained { FinalSilent(log, |log|, last); }
    out := out + rest;
  }

  /** The snapshot as Stream reads it. */
  function FirstRead(w: World, after: int): Scan
    requires w.snapshot.Some? && w.record.Some?
  {
    var log := w.snapshot.value;
    SnapshotScan(log, |log|, after, Protocol.MaxSeq(log), Protocol.Ended(w.record.value.status))
  }

  /** Without a terminal status the snapshot catches the stream up with the log, or drains it when it
      holds the terminal event already. */
  lemma OpenFirstRead(w: World, log: seq<Event>, m: nat, pos: seq<nat>, after: int)
    requires Sourced(w, log, m, pos) && after < log[|log| - 1].sq && !Over(w.record)
    ensures var s := FirstRead(w, after);
            && !s.ended
            && (if w.snapshot.value == log then s.out == Rest(log, after) && Drained(log, s.last)
                else Caught(log, s.out, s.last, after))
  {
    if w.snapshot.value == log {
      MaxSeqOfIncreasing(log);
      SnapshotRest(log, |log|, after, false);
      assert log[..|log|] == log;
    } else {
      SnapshotCatches(w.snapshot.value, log, after);
    }
  }

  /** With a terminal status the snapshot is all there is. */
  lemma ClosedFirstRead(w: World, log: seq<Event>, m: nat, pos: seq<nat>, after: int)
    requires Sourced(w, log, m, pos) && Over(w.record)
    ensures var s, part := FirstRead(w, after), w.snapshot.value;
            && s.out == Rest(part, after) + (if s.ended then [part[|part| - 1]] else [])
            && (s.ended ==> part != [] && IsTerminal(part[|part| - 1]))
            && (Rest(part, after) == Rest(log, after) <==> Timely(w, log, after))
            && (part == log && after < log[|log| - 1].sq ==> s.ended)
  {
    SnapshotOutcome(w.snapshot.value, after, true);
    assert log[..|log|] == log;
    RestOfExtension(w.snapshot.value, log, |log|, after);
  }

  /** The emitted sequence numbers rise strictly, whatever the store and the channel do. When the status
      read is terminal the stream gives the snapshot and one terminal event, a made-up one when the
      snapshot does not end with the current one. For every pattern of dropped events, a stream that ends
      without error gives all stored non-terminal events after `afterSeq`, in order and once each, and then
      a terminal event, exactly when the status read is timely; in a reliable situation the terminal event
      is the stored one. */
  method Stream(w: World, afterSeq: int, ghost log: seq<Event>, ghost m: nat, ghost pos: seq<nat>)
    returns (out: seq<Event>, failed: bool)
    requires |w.backfills| == |w.deliveries|
    ensures forall i :: 0 <= i < |out| ==> afterSeq < out[i].sq
    ensures forall i, j :: 0 <= i < j < |out| ==> out[i].sq < out[j].sq
    ensures w.snapshot.Some? && Over(w.record) ==> !failed && out == ClosedOutput(w, afterSeq)
    ensures !failed ==> Ends(w, afterSeq, out, if Over(w.record) then w.record else w.finalRecord)
    ensures !failed && Sourced(w, log, m, pos) && afterSeq < log[|log| - 1].sq ==>
              (Whole(out, log, afterSeq) <==> Timely(w, log, afterSeq))
    ensures !failed && Reliable(w, log, m, pos) && afterSeq < log[|log| - 1].sq ==>
              out == Rest(log, afterSeq) + [log[|log| - 1]]
  {
    out, failed := [], true;
    if w.snapshot.None? || w.record.None? { return; }
    var last, ended;
    out, last, ended := StreamSnapshot(w.snapshot.value, Protocol.Ended(w.record.value.status), afterSeq);
    FirstReadClimbs(w, afterSeq);
    FirstReadStands(w, afterSeq);
    if ended {
      EndedIsOver(w, afterSeq);
      ClosedIsWholeIff(w, log, m, pos, afterSeq);
      return out, false;
    }
    if Protocol.Ended(w.record.value.status) {
      ClosedIsWholeIff(w, log, m, pos, afterSeq);
      return out + [Synthetic(w.record.value, last)], false;
    }
    out, failed := StreamOpen(w, out, last, afterSeq, log, m, pos);
  }

  /** The first read leaves the stream standing, or ends it. */
  lemma FirstReadStands(w: World, after: int)
    requires w.snapshot.Some? && w.record.Some?
    ensures var s := FirstRead(w, after);
            && (if s.ended then Ends(w, after, s.out, w.record) else Standing(w, after, s.out, s.last))
            && (!s.ended && Over(w.record) ==> Ends(w, after, s.out + [Synthetic(w.record.value, s.last)], w.record))
  {
    var log, s := w.snapshot.value, FirstRead(w, after);
    SnapshotBrings(log, |log|, after, Protocol.MaxSeq(log), Protocol.Ended(w.record.value.status));
    FirstReadClimbs(w, after);
    forall i | 0 <= i < |s.out| ensures Brought(w, s.out[i]) {}
    if s.ended {
      assert Ending(w, after, s.out, s.out, w.record);
    } else if Over(w.record) {
      assert Reached(w, after, s.out, s.last) && !HasTerminal(s.out);
      assert Ending(w, after, s.out + [Synthetic(w.record.value, s.last)], s.out, w.record);
    }
  }

  /** What a stream gives when the status read is terminal. */
  function ClosedOutput(w: World, after: int): seq<Event>
    requires w.snapshot.Some? && Over(w.record)
  {
    var s := FirstRead(w, after);
    s.out + if s.ended then [] else [Synthetic(w.record.value, s.last)]
  }

  lemma ClosedIsWholeIff(w: World, log: seq<Event>, m: nat, pos: seq<nat>, after: int)
    requires w.snapshot.Some? && Over(w.record)
    ensures Sourced(w, log, m, pos) && after < log[|log| - 1].sq ==>
              && (Whole(ClosedOutput(w, after), log, after) <==> Timely(w, log, after))
              && (w.snapshot.value == log ==> ClosedOutput(w, after) == Rest(log, after) + [log[|log| - 1]])
  {
    if Sourced(w, log, m, pos) && after < log[|log| - 1].sq {
      ClosedFirstRead(w, log, m, pos, after);
      var s, part := FirstRead(w, after), w.snapshot.value;
      var end := if s.ended then part[|part| - 1] else Synthetic(w.record.value, s.last);
      WholeOfPart(ClosedOutput(w, after), Rest(part, after), end, log, after);
    }
  }

  lemma WholeOfPart(out: seq<Event>, given: seq<Event>, end: Event, log: seq<Event>, after: int)
    requires out == given + [end] && IsTerminal(end)
    ensures Whole(out, log, after) <==> given == Rest(log, after)
  {
    assert out[..|out| - 1] == given;
  }

  lemma WholeOfRest(out: seq<Event>, tail: seq<Event>, log: seq<Event>, after: int)
    requires out == Rest(log, after) + tail && |tail| <= 1 && (tail != [] ==> IsTerminal(tail[0]))
    ensures Whole(out, log, after) <==> tail != []
  {
    if tail == [] {
      RestHasNoTerminal(log, after);
      assert out == Rest(log, after);
    } else {
      WholeOfPart(out, Rest(log, after), tail[0], log, after);
    }
  }

  /** The stream after a snapshot that did not end it, without a terminal status. */
  method StreamOpen(w: World, start: seq<Event>, from: int, after: int,
                    ghost log: seq<Event>, ghost m: nat, ghost pos: seq<nat>)
    returns (out: seq<Event>, failed: bool)
    requires |w.backfills| == |w.deliveries| && w.snapshot.Some? && w.record.Some? && !Over(w.record)
    requires start == FirstRead(w, after).out && from == FirstRead(w, after).last
    requires Standing(w, after, start, from)
    ensures exists high :: after <= high && Climbing(out, after, high)
    ensures !failed ==> Ends(w, after, out, w.finalRecord)
    ensures !failed && Sourced(w, log, m, pos) && after < log[|log| - 1].sq ==>
              && (Whole(out, log, after) <==> Timely(w, log, after))
              && (w.snapshot.value != log ==> out == Rest(log, after) + [log[|log| - 1]])
  {
    FirstReadClimbs(w, after);
    ghost var sourced := Sourced(w, log, m, pos) && after < log[|log| - 1].sq;
    if sourced { OpenFirstRead(w, log, m, pos, after); }
    out, failed := StreamLive(w, start, from, after, log, m, pos);
    if sourced && !failed {
      ghost var tail := if w.snapshot.value != log then [log[|log| - 1]]
                        else if Over(w.finalRecord) then [Synthetic(w.finalRecord.value, from)] else [];
      WholeOfRest(out, tail, log, after);
    }
  }

  /** Only a terminal status lets the snapshot end the stream. */
  lemma EndedIsOver(w: World, after: int)
    requires w.snapshot.Some? && w.record.Some? && FirstRead(w, after).ended
    ensures Over(w.record)
  {
    var log := w.snapshot.value;
    SnapshotNeedsOver(log, |log|, after, Protocol.MaxSeq(log), Protocol.Ended(w.record.value.status));
  }

  lemma {:induction false} SnapshotNeedsOver(log: seq<Event>, i: nat, last: int, maxSeq: int, over: bool)
    requires i <= |log| && SnapshotScan(log, i, last, maxSeq, over).ended
    ensures over
    decreases i
  {
    if i > 0 && SnapshotScan(log, i - 1, last, maxSeq, over).ended {
      SnapshotNeedsOver(log, i - 1, last, maxSeq, over);
    }
  }

  lemma {:induction false} RestHasNoTerminal(log: seq<Event>, after: int)
    ensures forall i :: 0 <= i < |Rest(log, after)| ==> !IsTerminal(Rest(log, after)[i])
    decreases |log|
  {
    if log != [] { RestHasNoTerminal(log[..|log| - 1], after); }
  }

  lemma FirstReadClimbs(w: World, after: int)
    requires w.snapshot.Some? && w.record.Some?
    ensures after <= FirstRead(w, after).last && Climbing(FirstRead(w, after).out, after, FirstRead(w, after).last)
  {
    var log := w.snapshot.value;
    SnapshotClimbs(log, |log|, after, Protocol.MaxSeq(log), Protocol.Ended(w.record.value.status));
  }

  lemma {:induction false} RestOfExtension(part: seq<Event>, log: seq<Event>, n: nat, after: int)
    requires |part| <= n <= |log| && part == log[..|part|]
    ensures |Rest(part, after)| <= |Rest(log[..n], after)|
    ensures Rest(log[..n], after) == Rest(part, after) <==>
              forall i :: |part| <= i < n && log[i].sq > after ==> IsTerminal(log[i])
    decreases n
  {
    if n > |part| {
      RestOfExtension(part, log, n - 1, after);
      RestOfSlice(log, n - 1, after);
    }
  }

  const SHORT_RUN := [PlainEvent(RunStart).(sq := 1), PlainEvent(FinalAnswer).(sq := 2), PlainEvent(RunDone).(sq := 3)]
  const SUCCESS := Registration(Protocol.Succeeded, [])

  /** The run starts, answers and succeeds between the two reads of a stream. */
  const EARLY := World(Some([]), Some(SUCCESS), [], [], true, Some(SHORT_RUN), Some(SUCCESS))

  lemma ShortRest()
    ensures Rest(SHORT_RUN, 0) == SHORT_RUN[..2]
  {
    assert SHORT_RUN[..0] == [] && SHORT_RUN[..3] == SHORT_RUN;
    RestOfSlice(SHORT_RUN, 0, 0);
    RestOfSlice(SHORT_RUN, 1, 0);
    RestOfSlice(SHORT_RUN, 2, 0);
  }

  lemma EarlyWorld()
    ensures Sourced(EARLY, SHORT_RUN, 0, []) && !Timely(EARLY, SHORT_RUN, 0)
  {
    assert !IsTerminal(SHORT_RUN[0]) && SHORT_RUN[0].sq > 0;
  }

  lemma EarlyOutput()
    ensures ClosedOutput(EARLY, 0) == [PlainEvent(RunDone).(sq := 1)]
  {
    assert FirstRead(EARLY, 0) == Scan(0, [], false);
  }

  /** In that world the stream gives no event of the log, only a made-up run_done with number 1. */
  method EarlyEndLosesEvents() returns (out: seq<Event>)
    ensures Sourced(EARLY, SHORT_RUN, 0, []) && !Timely(EARLY, SHORT_RUN, 0) && !Whole(out, SHORT_RUN, 0)
    ensures Rest(SHORT_RUN, 0) == SHORT_RUN[..2] && out == [PlainEvent(RunDone).(sq := 1)]
  {
    EarlyWorld();
    EarlyOutput();
    ShortRest();
    var failed;
    out, failed := Stream(EARLY, 0, SHORT_RUN, 0, []);
  }
}
