/** The message trajectory and the rollback to a protocol-safe boundary (runtime/resume.go). */
module Trajectory {
  import opened Types

  /** Messages that neither make nor answer tool calls. */
  predicate Plain(m: Message) {
    m.role == System || m.role == User || (m.role == Assistant && m.calls == [])
  }

  predicate Calling(m: Message) { m.role == Assistant && m.calls != [] }

  /** `answers` are the tool messages of the first calls, one to one and in order. */
  predicate AnswersPrefix(calls: seq<Call>, answers: seq<Message>) {
    && |answers| <= |calls|
    && forall i :: 0 <= i < |answers| ==> answers[i].role == Tool && answers[i].callId == calls[i].id
  }

  predicate DistinctIds(calls: seq<Call>) {
    forall i, j :: 0 <= i < j < |calls| ==> calls[i].id != calls[j].id
  }

  /** Every assistant tool call is answered by the tool messages right after it. */
  predicate Closed(ms: seq<Message>) {
    if ms == [] then true
    else if Plain(ms[0]) then Closed(ms[1..])
    else
      && Calling(ms[0])
      && |ms[0].calls| < |ms|
      && AnswersPrefix(ms[0].calls, ms[1..1 + |ms[0].calls|])
      && Closed(ms[1 + |ms[0].calls|..])
  }

  /** Nothing, or one calling message followed by answers to its first calls. */
  predicate Segment(tail: seq<Message>) {
    tail == [] || (Calling(tail[0]) && DistinctIds(tail[0].calls) && AnswersPrefix(tail[0].calls, tail[1..]))
  }

  /** A closed trajectory plus at most one segment that may still miss answers. */
  ghost predicate NearlyClosed(ms: seq<Message>) {
    exists n :: 0 <= n <= |ms| && Closed(ms[..n]) && Segment(ms[n..])
  }

  predicate NoZero(ms: seq<Message>) {
    forall i :: 0 <= i < |ms| ==> ms[i].role != NoRole
  }

  function ToolIds(ms: seq<Message>): set<string> {
    set i | 0 <= i < |ms| && ms[i].role == Tool && ms[i].callId != "" :: ms[i].callId
  }

  predicate Answered(c: Call, answers: seq<Message>) {
    exists i :: 0 <= i < |answers| && answers[i].callId == c.id
  }

  /** The rollback as a recursion from the end; `n` messages are still to be looked at. */
  function TrimFrom(ms: seq<Message>, n: nat): seq<Message>
    requires n <= |ms|
  {
    if n == 0 then ms
    else if ms[n - 1].role == Tool then TrimFrom(ms, n - 1)
    else if Calling(ms[n - 1]) && exists c :: c in ms[n - 1].calls && !Answered(c, ms[n..]) then ms[..n - 1]
    else ms
  }

  function Trim(ms: seq<Message>): seq<Message> { TrimFrom(ms, |ms|) }

  method TrimDangling(messages: seq<Message>) returns (r: seq<Message>)
    ensures r == Trim(messages)
  {
    var i := |messages| - 1;
    while i >= 0
      invariant -1 <= i < |messages|
      invariant forall j :: i < j < |messages| ==> messages[j].role == Tool
      invariant Trim(messages) == TrimFrom(messages, i + 1)
      decreases i
    {
      match messages[i].role {
      case Tool =>
      case Assistant =>
        if messages[i].calls == [] { return messages; }
        var answered: set<string> := {};
        var j := i + 1;
        while j < |messages| && messages[j].role == Tool
          invariant i < j <= |messages|
          invariant forall id :: id in answered <==> exists k :: i < k < j && messages[k].callId == id
        {
          answered := answered + {messages[j].callId};
          j := j + 1;
        }
        assert j == |messages|;
        var answers := messages[i + 1..];
        var c := 0;
        while c < |messages[i].calls|
          invariant 0 <= c <= |messages[i].calls|
          invariant forall k :: 0 <= k < c ==> Answered(messages[i].calls[k], answers)
        {
          var call := messages[i].calls[c];
          if call.id !in answered {
            forall k | 0 <= k < |answers| ensures answers[k].callId != call.id {
              assert messages[i + 1 + k] == answers[k];
            }
            assert call in messages[i].calls && !Answered(call, answers);
            return messages[..i];
          }
          var k :| i < k < j && messages[k].callId == call.id;
          assert answers[k - i - 1].callId == call.id;
          c := c + 1;
        }
        return messages;
      case _ => return messages;
      }
      i := i - 1;
    }
    return messages;
  }

  // ---------------------------------------------------------------- closed trajectories

  lemma SplitAfter(a: seq<Message>, b: seq<Message>, k: nat)
    requires k <= |a|
    ensures (a + b)[k..] == a[k..] + b
  {}

  lemma {:induction false} ClosedAppend(a: seq<Message>, b: seq<Message>)
    requires Closed(a) && Closed(b)
    ensures Closed(a + b)
    decreases |a|
  {
    if a == [] {
      assert a + b == b;
    } else {
      var k := if Plain(a[0]) then 1 else 1 + |a[0].calls|;
      ClosedAppend(a[k..], b);
      SplitAfter(a, b, k);
      assert !Plain(a[0]) ==> (a + b)[1..k] == a[1..k];
    }
  }

  /** Closed trajectories parse in one way: what follows a closed prefix of one is closed. */
  lemma {:induction false} ClosedSplit(a: seq<Message>, b: seq<Message>)
    requires Closed(a) && Closed(a + b)
    ensures Closed(b)
    decreases |a|
  {
    if a == [] {
      assert a + b == b;
    } else {
      var k := if Plain(a[0]) then 1 else 1 + |a[0].calls|;
      assert Closed(a[k..]);
      assert (a + b)[0] == a[0];
      SplitAfter(a, b, k);
      ClosedSplit(a[k..], b);
    }
  }

  /** The calls of the message at `i` are answered by the tool messages right behind it, in their order. */
  predicate AnsweredAt(ms: seq<Message>, i: nat)
    requires i < |ms|
  {
    && i + |ms[i].calls| < |ms|
    && forall q :: i < q <= i + |ms[i].calls| ==> ms[q].role == Tool && ms[q].callId == ms[i].calls[q - i - 1].id
  }

  /** A tool message stands behind an assistant message, no further than that has calls. */
  predicate AnswersAt(ms: seq<Message>, p: nat) {
    exists i :: 0 <= i < p < |ms| && ms[i].role == Assistant && p - i <= |ms[i].calls|
  }

  /** In place: no zero message, each assistant message with its answers behind it, no other tool message. */
  predicate InPlace(ms: seq<Message>) {
    && (forall i :: 0 <= i < |ms| ==> ms[i].role != NoRole)
    && (forall i :: 0 <= i < |ms| && ms[i].role == Assistant ==> AnsweredAt(ms, i))
    && (forall p :: 0 <= p < |ms| && ms[p].role == Tool ==> AnswersAt(ms, p))
  }

  /** Closed trajectories are exactly those with every call answered right behind it and no stray answer. */
  lemma {:induction false} ClosedIffInPlace(ms: seq<Message>)
    ensures Closed(ms) <==> InPlace(ms)
    decreases |ms|
  {
    if ms != [] && (Plain(ms[0]) || (Calling(ms[0]) && AnsweredAt(ms, 0))) {
      var k := if Plain(ms[0]) then 1 else 1 + |ms[0].calls|;
      ClosedIffInPlace(ms[k..]);
      InPlaceBehind(ms, k);
      if Calling(ms[0]) { FrontAnswered(ms); }
    } else if ms != [] && Calling(ms[0]) && |ms[0].calls| < |ms| {
      FrontAnswered(ms);
    }
  }

  lemma FrontAnswered(ms: seq<Message>)
    requires ms != [] && Calling(ms[0]) && |ms[0].calls| < |ms|
    ensures AnswersPrefix(ms[0].calls, ms[1..1 + |ms[0].calls|]) <==> AnsweredAt(ms, 0)
  {
    var answers := ms[1..1 + |ms[0].calls|];
    assert forall i :: 0 <= i < |answers| ==> answers[i] == ms[i + 1];
    if AnswersPrefix(ms[0].calls, answers) {
      forall q | 0 < q <= |ms[0].calls| ensures ms[q].role == Tool && ms[q].callId == ms[0].calls[q - 1].id {
        assert answers[q - 1] == ms[q];
      }
    }
  }

  /** Behind a message and its answers a trajectory is in place exactly if the whole is. */
  lemma InPlaceBehind(ms: seq<Message>, k: nat)
    requires ms != [] && k <= |ms|
    requires (k == 1 && Plain(ms[0])) || (Calling(ms[0]) && AnsweredAt(ms, 0) && k == 1 + |ms[0].calls|)
    ensures InPlace(ms) <==> InPlace(ms[k..])
  {
    var rest := ms[k..];
    forall q | 1 <= q < k ensures ms[q].role == Tool && AnswersAt(ms, q) { assert 0 < q <= |ms[0].calls|; }
    forall i | 0 <= i < |rest| ensures AnsweredAt(rest, i) <==> AnsweredAt(ms, i + k) {
      AnsweredBehind(ms, k, i);
    }
    forall p | 0 <= p < |rest| ensures AnswersAt(rest, p) <==> AnswersAt(ms, p + k) {
      AnswersBehind(ms, k, p);
    }
    if InPlace(rest) {
      forall i | 0 <= i < |ms| ensures ms[i].role != NoRole && (ms[i].role == Assistant ==> AnsweredAt(ms, i)) {
        if k <= i { assert rest[i - k] == ms[i]; }
      }
      forall p | 0 <= p < |ms| && ms[p].role == Tool ensures AnswersAt(ms, p) {
        if k <= p { assert rest[p - k] == ms[p]; }
      }
    }
  }

  lemma AnsweredBehind(ms: seq<Message>, k: nat, i: nat)
    requires k <= |ms| && i < |ms[k..]|
    ensures AnsweredAt(ms[k..], i) <==> AnsweredAt(ms, i + k)
  {
    var rest := ms[k..];
    assert forall q :: 0 <= q < |rest| ==> rest[q] == ms[q + k];
    if AnsweredAt(rest, i) {
      forall q | i + k < q <= i + k + |ms[i + k].calls|
        ensures ms[q].role == Tool && ms[q].callId == ms[i + k].calls[q - i - k - 1].id
      {
        assert rest[q - k] == ms[q];
      }
    }
  }

  lemma AnswersBehind(ms: seq<Message>, k: nat, p: nat)
    requires 0 < k <= |ms| && p < |ms[k..]|
    requires forall i :: 0 <= i < k && ms[i].role == Assistant ==> |ms[i].calls| < k - i
    ensures AnswersAt(ms[k..], p) <==> AnswersAt(ms, p + k)
  {
    if AnswersAt(ms[k..], p) {
      var i :| 0 <= i < p && ms[k..][i].role == Assistant && p - i <= |ms[k..][i].calls|;
      assert ms[k..][i] == ms[i + k];
    }
    if AnswersAt(ms, p + k) {
      var i :| 0 <= i < p + k && ms[i].role == Assistant && p + k - i <= |ms[i].calls|;
      assert k <= i && ms[i] == ms[k..][i - k];
    }
  }

  lemma {:induction false} ClosedHasNoZero(ms: seq<Message>)
    requires Closed(ms)
    ensures NoZero(ms)
    decreases |ms|
  {
    if ms != [] {
      var k := if Plain(ms[0]) then 1 else 1 + |ms[0].calls|;
      ClosedHasNoZero(ms[k..]);
      forall i | 0 <= i < |ms| ensures ms[i].role != NoRole {
        if k <= i { assert ms[i] == ms[k..][i - k]; }
        else if 0 < i { assert ms[i] == ms[1..k][i - 1]; }
      }
    }
  }

  /** A closed trajectory with an answered calling message at its end stays as it is. */
  lemma {:induction false} AnsweredSegmentClosed(base: seq<Message>, seg: seq<Message>)
    requires Closed(base) && Segment(seg) && seg != [] && |seg| == 1 + |seg[0].calls|
    ensures Closed(base + seg)
  {
    assert seg[1..1 + |seg[0].calls|] == seg[1..];
    assert seg[1 + |seg[0].calls|..] == [];
    ClosedAppend(base, seg);
  }

  // ---------------------------------------------------------------- the rollback

  /** The first segment of a closed trajectory followed by a closed part of the rest. */
  lemma ClosedFront(ms: seq<Message>, k: nat, n: nat)
    requires ms != [] && Closed(ms) && k == if Plain(ms[0]) then 1 else 1 + |ms[0].calls|
    requires k <= n <= |ms| && Closed(ms[k..][..n - k])
    ensures Closed(ms[..n])
  {
    assert ms[..n][k..] == ms[k..][..n - k];
    assert !Plain(ms[0]) ==> ms[..n][1..k] == ms[1..k];
  }

  /** The last segment of a closed trajectory. */
  lemma {:induction false} ClosedLast(ms: seq<Message>) returns (n: nat)
    requires Closed(ms) && ms != []
    ensures n < |ms| && Closed(ms[..n])
    ensures Plain(ms[n]) ==> n + 1 == |ms|
    ensures !Plain(ms[n]) ==>
              Calling(ms[n]) && |ms| == n + 1 + |ms[n].calls| && AnswersPrefix(ms[n].calls, ms[n + 1..])
    decreases |ms|
  {
    var k := if Plain(ms[0]) then 1 else 1 + |ms[0].calls|;
    if k == |ms| {
      n := 0;
      assert ms[1..k] == ms[1..];
    } else {
      var rest := ms[k..];
      var n' := ClosedLast(rest);
      n := k + n';
      assert ms[n] == rest[n'] && ms[n + 1..] == rest[n' + 1..];
      ClosedFront(ms, k, n);
    }
  }

  lemma {:induction false} TrimSkipsTools(ms: seq<Message>, n: nat, k: nat)
    requires n <= k <= |ms|
    requires forall i :: n <= i < k ==> ms[i].role == Tool
    ensures TrimFrom(ms, k) == TrimFrom(ms, n)
    decreases k
  {
    if n < k { TrimSkipsTools(ms, n, k - 1); }
  }

  /** What the rollback does to a closed trajectory followed by one segment. */
  lemma TrimSegment(base: seq<Message>, seg: seq<Message>)
    requires seg != [] && Calling(seg[0]) && AnswersPrefix(seg[0].calls, seg[1..])
    requires DistinctIds(seg[0].calls) || |seg| == 1 + |seg[0].calls|
    ensures Trim(base + seg) == if |seg| == 1 + |seg[0].calls| then base + seg else base
  {
    var ms, n := base + seg, |base| + 1;
    forall i | n <= i < |ms| ensures ms[i].role == Tool { assert ms[i] == seg[1..][i - n]; }
    TrimSkipsTools(ms, n, |ms|);
    assert ms[n - 1] == seg[0] && ms[n..] == seg[1..] && ms[..n - 1] == base;
    var calls, answers := seg[0].calls, seg[1..];
    if |answers| == |calls| {
      forall c | c in calls ensures Answered(c, answers) {
        var i :| 0 <= i < |calls| && calls[i] == c;
        assert answers[i].callId == c.id;
      }
    } else {
      assert !Answered(calls[|answers|], answers);
    }
  }

  lemma TrimClosed(ms: seq<Message>)
    requires Closed(ms)
    ensures Trim(ms) == ms
  {
    if ms != [] {
      var n := ClosedLast(ms);
      if !Plain(ms[n]) {
        var base, seg := ms[..n], ms[n..];
        assert seg[0] == ms[n] && seg[1..] == ms[n + 1..] && base + seg == ms;
        TrimSegment(base, seg);
      }
    }
  }

  lemma TrimIsPrefix(ms: seq<Message>, n: nat)
    requires n <= |ms|
    ensures TrimFrom(ms, n) <= ms
  {}

  /** No closed prefix reaches into a segment that misses answers. */
  lemma ClosedStopsBeforePartial(base: seq<Message>, seg: seq<Message>, n: nat)
    requires Closed(base) && seg != [] && Calling(seg[0]) && |seg| <= |seg[0].calls|
    requires |base| < n <= |base + seg|
    ensures !Closed((base + seg)[..n])
  {
    var part := seg[..n - |base|];
    assert (base + seg)[..n] == base + part;
    if Closed(base + part) {
      ClosedSplit(base, part);
      assert false;
    }
  }

  lemma TrimSplit(base: seq<Message>, seg: seq<Message>)
    requires Closed(base) && Segment(seg)
    ensures var r := Trim(base + seg);
            Closed(r) && (r == base + seg || (r == base && seg != [] && |seg| <= |seg[0].calls|))
  {
    if seg == [] {
      assert base + seg == base;
      TrimClosed(base);
    } else {
      TrimSegment(base, seg);
      if |seg| == 1 + |seg[0].calls| { AnsweredSegmentClosed(base, seg); }
    }
  }

  /** The rollback yields the longest closed prefix and is idempotent. */
  lemma TrimLongestClosed(ms: seq<Message>)
    requires NearlyClosed(ms)
    ensures Trim(ms) <= ms && Closed(Trim(ms))
    ensures forall n :: 0 <= n <= |ms| && Closed(ms[..n]) ==> n <= |Trim(ms)|
    ensures Trim(Trim(ms)) == Trim(ms)
  {
    var k :| 0 <= k <= |ms| && Closed(ms[..k]) && Segment(ms[k..]);
    var base, seg := ms[..k], ms[k..];
    assert base + seg == ms;
    TrimSplit(base, seg);
    TrimClosed(Trim(ms));
    if Trim(ms) != ms {
      forall n | k < n <= |ms| ensures !Closed(ms[..n]) { ClosedStopsBeforePartial(base, seg, n); }
    }
  }

  /** The rollback never removes a zero message. */
  lemma {:induction false} TrimKeepsZero(ms: seq<Message>, n: nat)
    requires n <= |ms| && forall i :: n <= i < |ms| ==> ms[i].role == Tool
    ensures NoZero(TrimFrom(ms, n)) <==> NoZero(ms)
    decreases n
  {
    if n > 0 {
      if ms[n - 1].role == Tool {
        TrimKeepsZero(ms, n - 1);
      } else if TrimFrom(ms, n) != ms {
        forall i | 0 <= i < n - 1 ensures TrimFrom(ms, n)[i] == ms[i] {}
      }
    }
  }

  /** What a step has appended so far: the answer of each call, or a zero message where it aborted. */
  predicate StepMessages(calls: seq<Call>, outs: seq<Message>) {
    && |outs| <= |calls|
    && forall i :: 0 <= i < |outs| ==>
         outs[i] == ZERO_MESSAGE || (outs[i].role == Tool && outs[i].callId == calls[i].id)
  }

  /** A checkpoint saved inside a step resumes to a closed trajectory exactly when no aborted call is in it. */
  lemma StepCheckpointResumesClosed(base: seq<Message>, asst: Message, outs: seq<Message>)
    requires Closed(base) && Calling(asst) && DistinctIds(asst.calls) && StepMessages(asst.calls, outs)
    ensures Closed(Trim(base + [asst] + outs)) <==> NoZero(outs)
  {
    var ms := base + [asst] + outs;
    assert ms == base + ([asst] + outs);
    if NoZero(outs) {
      var seg := [asst] + outs;
      assert seg[1..] == outs;
      TrimSegment(base, seg);
      if |seg| == 1 + |asst.calls| { AnsweredSegmentClosed(base, seg); }
    } else {
      var i :| 0 <= i < |outs| && outs[i].role == NoRole;
      assert ms[|base| + 1 + i].role == NoRole;
      TrimKeepsZero(ms, |ms|);
      if Closed(Trim(ms)) { ClosedHasNoZero(Trim(ms)); }
    }
  }
}
