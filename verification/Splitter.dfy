/** Splitting a document into chunks along its headings (rag/splitter.go). Texts are sequences of runes. */
module Splitter {
  import opened Strings
  import opened Types

  datatype Chunk = Chunk(section: string, sq: nat, content: string, startLine: int, endLine: int)

  const DEFAULT_CHUNK_SIZE := 900
  const WHOLE_TEXT := "\U{6B63}\U{6587}"
  const PREFACE := "\U{524D}\U{8A00}"

  // ---------------------------------------------------------------- visible characters

  /** The characters that are not white space, in order. */
  function Visible(s: string): string {
    if s == "" then "" else Visible(s[..|s| - 1]) + if IsSpace(s[|s| - 1]) then "" else [s[|s| - 1]]
  }

  lemma {:induction false} VisibleAppend(a: string, b: string)
    ensures Visible(a + b) == Visible(a) + Visible(b)
    decreases |b|
  {
    if b == "" {
      assert a + b == a;
    } else {
      assert (a + b)[..|a + b| - 1] == a + b[..|b| - 1];
      VisibleAppend(a, b[..|b| - 1]);
    }
  }

  lemma {:induction false} TrimKeepsVisible(s: string)
    ensures Visible(Trimmed(s)) == Visible(s)
    decreases |s|
  {
    if s != "" {
      if IsSpace(s[0]) {
        TrimKeepsVisible(s[1..]);
        assert s == s[..1] + s[1..];
        VisibleAppend(s[..1], s[1..]);
      } else if IsSpace(s[|s| - 1]) {
        TrimKeepsVisible(s[..|s| - 1]);
      }
    }
  }

  // ---------------------------------------------------------------- cutting a long body

  method LastIndexRune(runes: string, target: char) returns (i: int)
    ensures -1 <= i < |runes| && (i >= 0 ==> runes[i] == target)
    ensures forall j :: i < j < |runes| ==> runes[j] != target
  {
    i := |runes| - 1;
    while i >= 0
      invariant -1 <= i < |runes|
      invariant forall j :: i < j < |runes| ==> runes[j] != target
    {
      if runes[i] == target { return; }
      i := i - 1;
    }
  }

  /** Where a piece that begins at `from` ends: with the body when the rest fits, else just behind the last
      newline of the next `size` runes unless that lies in their first half, else after `size` runes. */
  predicate CutsAt(body: string, from: nat, size: nat, end: nat)
    requires from <= |body|
  {
    if |body| - from <= size then end == |body|
    else
      && from + size / 2 + 1 <= end <= from + size
      && (if body[end - 1] == '\n' then forall j :: end <= j < from + size ==> body[j] != '\n'
          else end == from + size && forall j :: from + size / 2 <= j < from + size ==> body[j] != '\n')
  }

  /** The cut positions of a body, from 0 to its end. */
  ghost predicate IsCut(body: string, size: nat, cuts: seq<nat>) {
    && cuts != [] && cuts[0] == 0
    && (forall k :: 0 <= k < |cuts| ==> cuts[k] <= |body|)
    && (forall k :: 0 < k < |cuts| ==> cuts[k - 1] < cuts[k] && CutsAt(body, cuts[k - 1], size, cuts[k]))
  }

  function Piece(body: string, low: nat, high: nat): string { if low <= high <= |body| then body[low..high] else "" }

  /** The parts are the trimmed pieces between the cuts. */
  ghost predicate Trims(body: string, size: nat, cuts: seq<nat>, parts: seq<string>) {
    && IsCut(body, size, cuts) && |cuts| == |parts| + 1
    && forall k :: 0 <= k < |parts| ==> parts[k] == Trimmed(Piece(body, cuts[k], cuts[k + 1]))
  }

  ghost predicate Parts(body: string, size: nat, parts: seq<string>) {
    if |body| <= size then parts == [body]
    else exists cuts :: Trims(body, size, cuts, parts) && cuts[|cuts| - 1] == |body|
  }

  function SizeOf(size: int): nat { if size <= 0 then DEFAULT_CHUNK_SIZE else size }

  lemma CutOnce(body: string, size: nat, cuts: seq<nat>, parts: seq<string>, end: nat)
    requires Trims(body, size, cuts, parts)
    requires cuts[|cuts| - 1] < end <= |body| && CutsAt(body, cuts[|cuts| - 1], size, end)
    ensures Trims(body, size, cuts + [end], parts + [Trimmed(body[cuts[|cuts| - 1]..end])])
  {
    var last, cuts' := cuts[|cuts| - 1], cuts + [end];
    var parts' := parts + [Trimmed(body[last..end])];
    IsCutOnce(body, size, cuts, end);
    forall k | 0 <= k < |parts'| ensures parts'[k] == Trimmed(Piece(body, cuts'[k], cuts'[k + 1])) {
      if k < |parts| {
        assert parts'[k] == parts[k] && cuts'[k] == cuts[k] && cuts'[k + 1] == cuts[k + 1];
      }
    }
  }

  lemma IsCutOnce(body: string, size: nat, cuts: seq<nat>, end: nat)
    requires IsCut(body, size, cuts)
    requires cuts[|cuts| - 1] < end <= |body| && CutsAt(body, cuts[|cuts| - 1], size, end)
    ensures IsCut(body, size, cuts + [end])
  {
    var cuts' := cuts + [end];
    forall k | 0 < k < |cuts'| ensures cuts'[k - 1] < cuts'[k] && CutsAt(body, cuts'[k - 1], size, cuts'[k]) {
      if k < |cuts| { assert cuts'[k - 1] == cuts[k - 1] && cuts'[k] == cuts[k]; }
    }
  }

  lemma TrimsBefore(body: string, size: nat, cuts: seq<nat>, parts: seq<string>, n: nat)
    requires Trims(body, size, cuts, parts) && n <= |parts|
    ensures Trims(body, size, cuts[..n + 1], parts[..n])
  {
    assert IsCut(body, size, cuts[..n + 1]);
    forall k | 0 <= k < n ensures parts[..n][k] == Trimmed(Piece(body, cuts[..n + 1][k], cuts[..n + 1][k + 1])) {
      assert parts[..n][k] == parts[k];
    }
  }

  method SplitLongBody(body: string, chunkSize: int) returns (parts: seq<string>)
    ensures Parts(body, SizeOf(chunkSize), parts)
  {
    var size := SizeOf(chunkSize);
    if |body| <= size { return [body]; }
    parts := [];
    ghost var cuts: seq<nat> := [0];
    var i := 0;
    while i < |body|
      invariant i <= |body| && Trims(body, size, cuts, parts) && cuts[|cuts| - 1] == i
    {
      var end := CutEnd(body, i, size);
      CutOnce(body, size, cuts, parts, end);
      parts, cuts := parts + [Trimmed(body[i..end])], cuts + [end];
      i := end;
    }
  }

  /** The end of the piece that begins at `i`. */
  method CutEnd(body: string, i: nat, size: nat) returns (end: nat)
    requires i < |body| && 0 < size
    ensures i < end <= |body| && CutsAt(body, i, size, end)
    ensures if |body| - i <= size then end == |body|
            else if exists j :: i + size / 2 <= j < i + size && body[j] == '\n' then
              && i + size / 2 < end <= i + size && body[end - 1] == '\n'
              && forall j :: end <= j < i + size ==> body[j] != '\n'
            else end == i + size
  {
    end := if i + size > |body| then |body| else i + size;
    if end < |body| {
      var j := LastIndexRune(body[i..end], '\n');
      assert forall k :: i <= k < end ==> body[k] == body[i..end][k - i];
      if j >= size / 2 { end := i + j + 1; }
    }
  }

  // ---------------------------------------------------------------- what cutting keeps

  lemma VisibleUpto(body: string, low: nat, high: nat)
    requires low <= high <= |body|
    ensures Visible(body[..high]) == Visible(body[..low]) + Visible(Trimmed(Piece(body, low, high)))
  {
    TrimKeepsVisible(body[low..high]);
    VisibleAppend(body[..low], body[low..high]);
    assert body[..low] + body[low..high] == body[..high];
  }

  /** No visible character of a body is lost, moved or added. */
  lemma {:induction false} CutKeepsVisible(body: string, size: nat, cuts: seq<nat>, parts: seq<string>)
    requires Trims(body, size, cuts, parts)
    ensures Visible(Flat(parts)) == Visible(body[..cuts[|cuts| - 1]])
    decreases |parts|
  {
    if parts != [] {
      var n := |parts| - 1;
      TrimsBefore(body, size, cuts, parts, n);
      CutKeepsVisible(body, size, cuts[..n + 1], parts[..n]);
      assert parts[n] == Trimmed(Piece(body, cuts[n], cuts[n + 1]));
      VisibleAppend(Flat(parts[..n]), parts[n]);
      VisibleUpto(body, cuts[n], cuts[n + 1]);
    }
  }

  lemma OneMoreTimes(count: nat, least: nat)
    ensures (count + 1) * least == count * least + least
  {}

  /** Every piece but the last is longer than half the size, so there are few of them. */
  lemma {:induction false} FewPieces(body: string, size: nat, cuts: seq<nat>)
    requires IsCut(body, size, cuts) && |cuts| > 1
    ensures forall k :: 0 < k < |cuts| - 1 ==> size / 2 + 1 <= cuts[k] - cuts[k - 1] <= size
    ensures (|cuts| - 2) * (size / 2 + 1) <= cuts[|cuts| - 2] < cuts[|cuts| - 1] <= |body|
    ensures cuts[|cuts| - 1] - cuts[|cuts| - 2] <= size
    decreases |cuts|
  {
    var n := |cuts| - 1;
    assert CutsAt(body, cuts[n - 1], size, cuts[n]);
    if n > 1 {
      FewPieces(body, size, cuts[..n]);
      assert CutsAt(body, cuts[n - 2], size, cuts[n - 1]);
      assert size / 2 + 1 <= cuts[n - 1] - cuts[n - 2];
      OneMoreTimes(n - 2, size / 2 + 1);
    }
  }

  /** Splitting a body into parts keeps its visible characters ... */
  lemma PartsKeepVisible(body: string, size: nat, parts: seq<string>)
    requires Parts(body, size, parts)
    ensures Visible(Flat(parts)) == Visible(body)
  {
    if |body| <= size {
      assert Flat(parts) == "" + body == body;
    } else {
      var cuts :| Trims(body, size, cuts, parts) && cuts[|cuts| - 1] == |body|;
      CutKeepsVisible(body, size, cuts, parts);
      assert body[..|body|] == body;
    }
  }

  lemma PieceFits(body: string, size: nat, cuts: seq<nat>, parts: seq<string>, i: nat)
    requires Trims(body, size, cuts, parts) && i < |parts|
    ensures |parts[i]| <= size
  {
    assert parts[i] == Trimmed(Piece(body, cuts[i], cuts[i + 1]));
    assert CutsAt(body, cuts[i + 1 - 1], size, cuts[i + 1]);
  }

  /** ... every part has at most `size` runes ... */
  lemma PartsFit(body: string, size: nat, parts: seq<string>)
    requires Parts(body, size, parts)
    ensures forall i :: 0 <= i < |parts| ==> |parts[i]| <= size
  {
    if size < |body| {
      var cuts :| Trims(body, size, cuts, parts) && cuts[|cuts| - 1] == |body|;
      forall i | 0 <= i < |parts| ensures |parts[i]| <= size { PieceFits(body, size, cuts, parts, i); }
    }
  }

  /** ... and there are few of them: all but one have more than half the size. */
  lemma PartsAreFew(body: string, size: nat, parts: seq<string>)
    requires body != "" && Parts(body, size, parts)
    ensures 0 < |parts| && (|parts| - 1) * (size / 2 + 1) <= |body| - 1
  {
    if size < |body| {
      var cuts :| Trims(body, size, cuts, parts) && cuts[|cuts| - 1] == |body|;
      FewPieces(body, size, cuts);
      assert |parts| - 1 == |cuts| - 2;
    }
  }

  /** A body of n > 0 runes yields at most (n - 1) / (size / 2 + 1) + 1 parts. */
  lemma MostParts(body: string, size: nat, parts: seq<string>)
    requires body != "" && Parts(body, size, parts)
    ensures |parts| <= (|body| - 1) / (size / 2 + 1) + 1
  {
    PartsAreFew(body, size, parts);
    AtMost(|parts| - 1, size / 2 + 1, |body| - 1);
  }

  lemma Scale(a: nat, b: nat, c: nat)
    requires a <= b
    ensures a * c <= b * c
  {}

  lemma AtMost(count: nat, least: nat, total: nat)
    requires 0 < least && count * least <= total
    ensures count <= total / least
  {
    var q := total / least;
    assert (q + 1) * least == q * least + least;
    if q + 1 <= count { Scale(q + 1, count, least); }
  }

  // ---------------------------------------------------------------- lines and headings

  /** The lines of a text, without their newlines (strings.Split). */
  function Lines(text: string): (lines: seq<string>)
    ensures lines != []
  {
    if text == "" then [""]
    else
      var n := |text| - 1;
      var front := Lines(text[..n]);
      var k := |front| - 1;
      if text[n] == '\n' then front + [""] else front[..k] + [front[k] + [text[n]]]
  }

  /** The lines put together again (strings.Join). */
  function Joined(lines: seq<string>): string {
    if lines == [] then ""
    else if |lines| == 1 then lines[0]
    else Joined(lines[..|lines| - 1]) + "\n" + lines[|lines| - 1]
  }

  lemma {:induction false} LinesRoundTrip(text: string)
    ensures Joined(Lines(text)) == text
    decreases |text|
  {
    if text != "" {
      var n := |text| - 1;
      var front := Lines(text[..n]);
      var k := |front| - 1;
      LinesRoundTrip(text[..n]);
      assert text == text[..n] + [text[n]];
      if text[n] == '\n' {
        assert (front + [""])[..k + 1] == front;
      } else {
        assert (front[..k] + [front[k] + [text[n]]])[..k] == front[..k];
      }
    }
  }

  /** No line holds a newline: with the round trip above there is only one way to cut a text into lines. */
  lemma {:induction false} LinesAreLines(text: string)
    ensures forall k :: 0 <= k < |Lines(text)| ==> '\n' !in Lines(text)[k]
    decreases |text|
  {
    if text != "" { LinesAreLines(text[..|text| - 1]); }
  }

  /** A contiguous piece of a text. */
  ghost predicate Within(part: string, whole: string) {
    exists i: nat, j: nat :: i <= j <= |whole| && part == whole[i..j]
  }

  lemma SliceOfSlice(s: string, k: nat, l: nat, i: nat, j: nat)
    requires k <= l <= |s| && i <= j <= l - k
    ensures s[k..l][i..j] == s[k + i..k + j]
  {
    forall t | 0 <= t < j - i ensures s[k..l][i..j][t] == s[k + i..k + j][t] {
      assert s[k..l][i + t] == s[k + (i + t)];
    }
  }

  lemma WithinWithin(a: string, b: string, c: string)
    requires Within(a, b) && Within(b, c)
    ensures Within(a, c)
  {
    var i: nat, j: nat :| i <= j <= |b| && a == b[i..j];
    var k: nat, l: nat :| k <= l <= |c| && b == c[k..l];
    SliceOfSlice(c, k, l, i, j);
  }

  lemma TrimmedWithin(s: string)
    ensures Within(Trimmed(s), s)
  {
    var i, j := TrimmedIsSlice(s);
  }

  lemma {:induction false} JoinedFront(lines: seq<string>, n: nat) returns (rest: string)
    requires n <= |lines|
    ensures Joined(lines) == Joined(lines[..n]) + rest
    decreases |lines|
  {
    if n == |lines| {
      assert lines[..n] == lines;
      rest := "";
    } else if n == 0 {
      rest := Joined(lines);
    } else {
      var m := |lines| - 1;
      var before := JoinedFront(lines[..m], n);
      assert lines[..m][..n] == lines[..n];
      rest := before + ("\n" + lines[m]);
    }
  }

  lemma {:induction false} JoinedBack(lines: seq<string>, n: nat) returns (front: string)
    requires n <= |lines|
    ensures Joined(lines) == front + Joined(lines[n..])
    decreases |lines|
  {
    var m := |lines| - 1;
    if n == |lines| {
      front := Joined(lines);
    } else if n == 0 {
      assert lines[0..] == lines;
      front := "";
    } else if n == m {
      assert lines[m..] == [lines[m]];
      front := Joined(lines[..m]) + "\n";
    } else {
      front := JoinedBack(lines[..m], n);
      assert lines[n..][..m - n] == lines[..m][n..] && lines[n..][m - n] == lines[m];
      assert Joined(lines) == (front + Joined(lines[..m][n..])) + "\n" + lines[m];
    }
  }

  lemma JoinedWithin(lines: seq<string>, from: nat, upto: nat)
    requires from <= upto <= |lines|
    ensures Within(Joined(lines[from..upto]), Joined(lines))
  {
    var rest := JoinedFront(lines, upto);
    var front := JoinedBack(lines[..upto], from);
    assert lines[..upto][from..] == lines[from..upto];
    var part := Joined(lines[from..upto]);
    assert Joined(lines) == front + part + rest;
    assert part == Joined(lines)[|front|..|front| + |part|];
  }

  lemma {:induction false} JoinedVisible(lines: seq<string>)
    ensures Visible(Joined(lines)) == Visible(Flat(lines))
    decreases |lines|
  {
    if |lines| == 1 {
      assert Flat(lines) == "" + lines[0] == lines[0];
    } else if lines != [] {
      var n := |lines| - 1;
      JoinedVisible(lines[..n]);
      NewlineInvisible();
      InvisibleBetween(Joined(lines[..n]), "\n", lines[n]);
      VisibleAppend(Flat(lines[..n]), lines[n]);
    }
  }

  lemma InvisibleBetween(a: string, gap: string, b: string)
    requires Visible(gap) == ""
    ensures Visible((a + gap) + b) == Visible(a) + Visible(b)
  {
    VisibleAppend(a, gap);
    VisibleAppend(a + gap, b);
  }

  lemma NewlineInvisible()
    ensures Visible("\n") == ""
  {}

  datatype Section = Section(title: string, start: nat)

  /** The headings among the first `n` lines; `heading` yields the title a line matches with, if any. */
  function Headings(lines: seq<string>, heading: string -> Option<string>, n: nat): seq<Section>
    requires n <= |lines|
  {
    if n == 0 then []
    else
      Headings(lines, heading, n - 1) +
      match heading(lines[n - 1]) { case Some(t) => [Section(Trimmed(t), n - 1)] case None => [] }
  }

  lemma {:induction false} HeadingAt(lines: seq<string>, heading: string -> Option<string>, n: nat, k: nat)
    requires n <= |lines| && k < |Headings(lines, heading, n)|
    ensures var s := Headings(lines, heading, n)[k];
            s.start < n && heading(lines[s.start]).Some? && s.title == Trimmed(heading(lines[s.start]).value)
    decreases n
  {
    if k < |Headings(lines, heading, n - 1)| { HeadingAt(lines, heading, n - 1, k); }
  }

  /** The sections are exactly the lines that match, each with its trimmed title. */
  lemma HeadingsMean(lines: seq<string>, heading: string -> Option<string>, n: nat)
    requires n <= |lines|
    ensures var sections := Headings(lines, heading, n);
            && (forall k :: 0 <= k < |sections| ==>
                  && sections[k].start < n && heading(lines[sections[k].start]).Some?
                  && sections[k].title == Trimmed(heading(lines[sections[k].start]).value))
            && (forall p :: 0 <= p < n && heading(lines[p]).Some? ==>
                  exists k :: 0 <= k < |sections| && sections[k].start == p)
  {
    var sections := Headings(lines, heading, n);
    forall k | 0 <= k < |sections|
      ensures sections[k].start < n && heading(lines[sections[k].start]).Some?
      ensures sections[k].title == Trimmed(heading(lines[sections[k].start]).value)
    {
      HeadingAt(lines, heading, n, k);
    }
    forall p | 0 <= p < n && heading(lines[p]).Some? ensures exists k :: 0 <= k < |sections| && sections[k].start == p {
      var k := HeadingFound(lines, heading, n, p);
    }
  }

  lemma {:induction false} HeadingFound(lines: seq<string>, heading: string -> Option<string>, n: nat, p: nat)
    returns (k: nat)
    requires p < n <= |lines| && heading(lines[p]).Some?
    ensures k < |Headings(lines, heading, n)| && Headings(lines, heading, n)[k].start == p
    decreases n
  {
    if p == n - 1 {
      k := |Headings(lines, heading, n - 1)|;
    } else {
      k := HeadingFound(lines, heading, n - 1, p);
    }
  }

  lemma NoHeadingBetween(lines: seq<string>, heading: string -> Option<string>, from: int, upto: nat)
    requires -1 <= from && upto <= |lines|
    requires var sections := Headings(lines, heading, |lines|);
             forall j :: 0 <= j < |sections| ==> sections[j].start <= from || upto <= sections[j].start
    ensures forall k :: from < k < upto ==> heading(lines[k]).None?
  {
    forall k | from < k < upto ensures heading(lines[k]).None? {
      if heading(lines[k]).Some? { var j := HeadingFound(lines, heading, |lines|, k); }
    }
  }

  predicate Ordered(sections: seq<Section>, n: nat) {
    && (forall i :: 0 <= i < |sections| ==> sections[i].start < n)
    && (forall i, j :: 0 <= i < j < |sections| ==> sections[i].start < sections[j].start)
  }

  lemma {:induction false} HeadingsOrdered(lines: seq<string>, heading: string -> Option<string>, n: nat)
    requires n <= |lines|
    ensures Ordered(Headings(lines, heading, n), n)
    decreases n
  {
    if n > 0 { HeadingsOrdered(lines, heading, n - 1); }
  }

  // ---------------------------------------------------------------- blocks

  /** Consecutive lines that are chunked together under one title. */
  datatype Block = Block(title: string, from: nat, upto: nat, endLine: nat)

  /** The whole text when it has no heading, else the preface in front of the first one, if any. */
  function Opening(lines: seq<string>, sections: seq<Section>): seq<Block> {
    if sections == [] then [Block(WHOLE_TEXT, 0, |lines|, |lines|)]
    else if sections[0].start > 0 then [Block(PREFACE, 0, sections[0].start, sections[0].start)]
    else []
  }

  function SectionBlock(lines: seq<string>, sections: seq<Section>, i: nat): Block
    requires i < |sections| && Ordered(sections, |lines|)
  {
    var end := if i + 1 < |sections| then sections[i + 1].start else |lines|;
    Block(sections[i].title, sections[i].start, end, end - 1)
  }

  function Blocks(lines: seq<string>, sections: seq<Section>, n: nat): seq<Block>
    requires n <= |sections| && Ordered(sections, |lines|)
  {
    if n == 0 then Opening(lines, sections)
    else Blocks(lines, sections, n - 1) + [SectionBlock(lines, sections, n - 1)]
  }

  function Body(lines: seq<string>, b: Block): string {
    if b.from <= b.upto <= |lines| then Trimmed(Joined(lines[b.from..b.upto])) else ""
  }

  function Numbered(section: string, parts: seq<string>, endLine: int): seq<Chunk> {
    seq(|parts|, i requires 0 <= i < |parts| => Chunk(section, i, parts[i], 0, endLine))
  }

  /** The chunks of one block: its parts, numbered from zero; a block of white space has none. */
  ghost predicate ChunksOf(lines: seq<string>, b: Block, size: nat, chunks: seq<Chunk>) {
    if Body(lines, b) == "" then chunks == []
    else exists parts :: Parts(Body(lines, b), size, parts) && chunks == Numbered(b.title, parts, b.endLine)
  }

  /** The chunks of all blocks, block after block. */
  ghost predicate Chunked(lines: seq<string>, blocks: seq<Block>, size: nat, chunks: seq<Chunk>)
    decreases |blocks|
  {
    if blocks == [] then chunks == []
    else exists k :: 0 <= k <= |chunks| && Chunked(lines, blocks[..|blocks| - 1], size, chunks[..k])
                     && ChunksOf(lines, blocks[|blocks| - 1], size, chunks[k..])
  }

  lemma ChunkedNext(lines: seq<string>, blocks: seq<Block>, b: Block, size: nat, chunks: seq<Chunk>, more: seq<Chunk>)
    requires Chunked(lines, blocks, size, chunks) && ChunksOf(lines, b, size, more)
    ensures Chunked(lines, blocks + [b], size, chunks + more)
  {
    var all := chunks + more;
    assert (blocks + [b])[..|blocks|] == blocks;
    assert all[..|chunks|] == chunks && all[|chunks|..] == more;
  }

  lemma NumberedNext(section: string, parts: seq<string>, i: nat, endLine: int)
    requires i < |parts|
    ensures Numbered(section, parts[..i + 1], endLine) ==
              Numbered(section, parts[..i], endLine) + [Chunk(section, i, parts[i], 0, endLine)]
  {}

  method ChunksFromBody(body: string, section: string, size: int, endLine: int)
    returns (out: seq<Chunk>)
    ensures exists parts :: Parts(body, SizeOf(size), parts) && out == Numbered(section, parts, endLine)
  {
    var parts := SplitLongBody(body, size);
    out := [];
    for i := 0 to |parts|
      invariant out == Numbered(section, parts[..i], endLine)
    {
      NumberedNext(section, parts, i, endLine);
      out := out + [Chunk(section, i, parts[i], 0, endLine)];
    }
    assert parts[..|parts|] == parts;
  }

  method BlockChunks(lines: seq<string>, b: Block, size: int) returns (chunks: seq<Chunk>)
    ensures ChunksOf(lines, b, SizeOf(size), chunks)
  {
    chunks := [];
    var body := Body(lines, b);
    if body != "" { chunks := ChunksFromBody(body, b.title, size, b.endLine); }
  }

  method FindSections(lines: seq<string>, heading: string -> Option<string>) returns (sections: seq<Section>)
    ensures sections == Headings(lines, heading, |lines|) && Ordered(sections, |lines|)
  {
    sections := [];
    for i := 0 to |lines|
      invariant sections == Headings(lines, heading, i)
    {
      match heading(lines[i]) {
        case Some(t) => sections := sections + [Section(Trimmed(t), i)];
        case None =>
      }
    }
    HeadingsOrdered(lines, heading, |lines|);
  }

  method Split(text: string, size: int, heading: string -> Option<string>) returns (out: seq<Chunk>)
    ensures var lines := Lines(text);
            var sections := Headings(lines, heading, |lines|);
            Ordered(sections, |lines|) && Chunked(lines, Blocks(lines, sections, |sections|), SizeOf(size), out)
    ensures Visible(Flat(Contents(out))) == Visible(text)
    ensures forall i :: 0 <= i < |out| ==> |out[i].content| <= if size <= 0 then 900 else size
    ensures forall i :: 0 <= i < |out| ==> Within(out[i].content, text)
    ensures exists origins :: Labelled(Lines(text), heading, out, origins)
  {
    var lines := Lines(text);
    var sections := FindSections(lines, heading);
    out := [];
    var opening := Opening(lines, sections);
    if opening != [] {
      out := BlockChunks(lines, opening[0], size);
      ChunkedNext(lines, [], opening[0], SizeOf(size), [], out);
      assert [] + [opening[0]] == opening && [] + out == out;
    }
    for i := 0 to |sections|
      invariant Chunked(lines, Blocks(lines, sections, i), SizeOf(size), out)
    {
      var b := SectionBlock(lines, sections, i);
      var more := BlockChunks(lines, b, size);
      ChunkedNext(lines, Blocks(lines, sections, i), b, SizeOf(size), out, more);
      out := out + more;
    }
    SplitConserves(text, size, heading, sections, out);
    SplitLabels(text, size, heading, sections, out);
  }

  // ---------------------------------------------------------------- what splitting keeps

  function Contents(chunks: seq<Chunk>): seq<string> {
    seq(|chunks|, i requires 0 <= i < |chunks| => chunks[i].content)
  }

  lemma NumberedContents(section: string, parts: seq<string>, endLine: int)
    ensures Contents(Numbered(section, parts, endLine)) == parts
  {}

  lemma BlockKeepsVisible(lines: seq<string>, b: Block, size: nat, chunks: seq<Chunk>)
    requires b.from <= b.upto <= |lines| && ChunksOf(lines, b, size, chunks)
    ensures Visible(Flat(Contents(chunks))) == Visible(Flat(lines[b.from..b.upto]))
  {
    var slice := lines[b.from..b.upto];
    JoinedVisible(slice);
    TrimKeepsVisible(Joined(slice));
    if Body(lines, b) != "" {
      var parts :| Parts(Body(lines, b), size, parts) && chunks == Numbered(b.title, parts, b.endLine);
      PartsKeepVisible(Body(lines, b), size, parts);
      NumberedContents(b.title, parts, b.endLine);
    }
  }

  /** The blocks tile the lines from the first to `end`. */
  predicate Tiles(blocks: seq<Block>, end: nat)
    decreases |blocks|
  {
    if blocks == [] then end == 0
    else
      var b := blocks[|blocks| - 1];
      b.from <= b.upto == end && Tiles(blocks[..|blocks| - 1], b.from)
  }

  lemma {:induction false} BlocksTile(lines: seq<string>, sections: seq<Section>, n: nat)
    requires n <= |sections| && Ordered(sections, |lines|)
    ensures Tiles(Blocks(lines, sections, n), if n < |sections| then sections[n].start else |lines|)
    decreases n
  {
    if n > 0 {
      BlocksTile(lines, sections, n - 1);
      var b := SectionBlock(lines, sections, n - 1);
      assert Blocks(lines, sections, n)[..|Blocks(lines, sections, n)| - 1] == Blocks(lines, sections, n - 1);
    }
  }

  lemma {:induction false} TiledVisible(lines: seq<string>, blocks: seq<Block>, end: nat, size: nat, chunks: seq<Chunk>)
    requires end <= |lines| && Tiles(blocks, end) && Chunked(lines, blocks, size, chunks)
    ensures Visible(Flat(Contents(chunks))) == Visible(Flat(lines[..end]))
    decreases |blocks|
  {
    if blocks != [] {
      var b := blocks[|blocks| - 1];
      var k :| 0 <= k <= |chunks| && Chunked(lines, blocks[..|blocks| - 1], size, chunks[..k])
               && ChunksOf(lines, b, size, chunks[k..]);
      TiledVisible(lines, blocks[..|blocks| - 1], b.from, size, chunks[..k]);
      BlockKeepsVisible(lines, b, size, chunks[k..]);
      ContentsSplit(chunks, k);
      VisibleSplit(Contents(chunks), Contents(chunks[..k]), Contents(chunks[k..]));
      Rejoin(lines, b.from, end);
      VisibleSplit(lines[..end], lines[..b.from], lines[b.from..end]);
    }
  }

  lemma ContentsSplit(chunks: seq<Chunk>, k: nat)
    requires k <= |chunks|
    ensures Contents(chunks) == Contents(chunks[..k]) + Contents(chunks[k..])
  {}

  lemma Rejoin(lines: seq<string>, k: nat, end: nat)
    requires k <= end <= |lines|
    ensures lines[..end] == lines[..k] + lines[k..end]
  {}

  lemma VisibleSplit(all: seq<string>, a: seq<string>, b: seq<string>)
    requires all == a + b
    ensures Visible(Flat(all)) == Visible(Flat(a)) + Visible(Flat(b))
  {
    FlatAppend(a, b);
    VisibleAppend(Flat(a), Flat(b));
  }

  lemma {:induction false} ChunksFit(lines: seq<string>, blocks: seq<Block>, size: nat, chunks: seq<Chunk>)
    requires Chunked(lines, blocks, size, chunks)
    ensures forall i :: 0 <= i < |chunks| ==> |chunks[i].content| <= size
    decreases |blocks|
  {
    if blocks != [] {
      var b := blocks[|blocks| - 1];
      var k :| 0 <= k <= |chunks| && Chunked(lines, blocks[..|blocks| - 1], size, chunks[..k])
               && ChunksOf(lines, b, size, chunks[k..]);
      ChunksFit(lines, blocks[..|blocks| - 1], size, chunks[..k]);
      forall i | 0 <= i < |chunks| ensures |chunks[i].content| <= size {
        if i < k {
          assert chunks[i] == chunks[..k][i];
        } else {
          var parts :| Parts(Body(lines, b), size, parts) && chunks[k..] == Numbered(b.title, parts, b.endLine);
          PartsFit(Body(lines, b), size, parts);
          assert chunks[i] == chunks[k..][i - k];
        }
      }
    }
  }

  /** For every text, size and heading pattern, the visible characters of all chunks in order are those of
      the text, and no chunk is longer than the size. */
  lemma SplitConserves(text: string, size: int, heading: string -> Option<string>,
                       sections: seq<Section>, out: seq<Chunk>)
    requires sections == Headings(Lines(text), heading, |Lines(text)|) && Ordered(sections, |Lines(text)|)
    requires Chunked(Lines(text), Blocks(Lines(text), sections, |sections|), SizeOf(size), out)
    ensures Visible(Flat(Contents(out))) == Visible(text)
    ensures forall i :: 0 <= i < |out| ==> |out[i].content| <= SizeOf(size)
  {
    var lines := Lines(text);
    BlocksTile(lines, sections, |sections|);
    TiledVisible(lines, Blocks(lines, sections, |sections|), |lines|, SizeOf(size), out);
    ChunksFit(lines, Blocks(lines, sections, |sections|), SizeOf(size), out);
    assert lines[..|lines|] == lines;
    JoinedVisible(lines);
    LinesRoundTrip(text);
  }

  // ---------------------------------------------------------------- where the chunks come from

  /** The chunk is a piece of the lines `from` to `upto`: those of one heading, or all in front of the first. */
  ghost predicate Origin(lines: seq<string>, heading: string -> Option<string>, c: Chunk, from: nat, upto: nat) {
    && from < upto <= |lines| && Within(c.content, Joined(lines[from..upto])) && c.startLine == 0
    && Titled(lines, heading, from, upto, c.section, c.endLine)
  }

  /** A heading begins these lines and gives them its trimmed title, or they begin the text and have no
      heading; the next heading ends them. */
  predicate Titled(lines: seq<string>, heading: string -> Option<string>, from: nat, upto: nat,
                   title: string, endLine: int)
    requires from < upto <= |lines|
  {
    && (forall k :: from < k < upto ==> heading(lines[k]).None?)
    && (upto < |lines| ==> heading(lines[upto]).Some?)
    && match heading(lines[from]) {
         case Some(t) => title == Trimmed(t) && endLine == upto - 1
         case None =>
           from == 0 && endLine == upto
           && title == if upto == |lines| then "\U{6B63}\U{6587}" else "\U{524D}\U{8A00}"
       }
  }

  /** Chunks stand in the order of their lines and are numbered from zero within them. */
  ghost predicate Labelled(lines: seq<string>, heading: string -> Option<string>, out: seq<Chunk>,
                           origins: seq<(nat, nat)>)
  {
    && |origins| == |out|
    && (forall i :: 0 <= i < |out| ==> Origin(lines, heading, out[i], origins[i].0, origins[i].1))
    && (forall i, j :: 0 <= i < j < |out| ==> origins[i] == origins[j] || origins[i].1 <= origins[j].0)
    && (forall i :: 0 <= i < |out| ==> NumberedAt(out, origins, i))
  }

  predicate NumberedAt(out: seq<Chunk>, origins: seq<(nat, nat)>, i: nat)
    requires i < |out| == |origins|
  {
    out[i].sq == if i > 0 && origins[i - 1] == origins[i] then out[i - 1].sq + 1 else 0
  }

  lemma PartWithin(body: string, size: nat, parts: seq<string>, i: nat)
    requires Parts(body, size, parts) && i < |parts|
    ensures Within(parts[i], body)
  {
    if |body| <= size {
      assert parts[i] == body[0..|body|];
    } else {
      var cuts :| Trims(body, size, cuts, parts) && cuts[|cuts| - 1] == |body|;
      assert parts[i] == Trimmed(Piece(body, cuts[i], cuts[i + 1]));
      TrimmedWithin(Piece(body, cuts[i], cuts[i + 1]));
      assert cuts[i + 1 - 1] < cuts[i + 1];
      assert Within(Piece(body, cuts[i], cuts[i + 1]), body);
      WithinWithin(parts[i], Piece(body, cuts[i], cuts[i + 1]), body);
    }
  }

  /** The chunks of one block, each with the lines of the block. */
  lemma BlockLabels(lines: seq<string>, heading: string -> Option<string>, b: Block, size: nat, chunks: seq<Chunk>)
    requires b.from < b.upto <= |lines| && ChunksOf(lines, b, size, chunks)
    requires Titled(lines, heading, b.from, b.upto, b.title, b.endLine)
    ensures forall i :: 0 <= i < |chunks| ==> Origin(lines, heading, chunks[i], b.from, b.upto) && chunks[i].sq == i
  {
    var body := Body(lines, b);
    if body != "" {
      var parts :| Parts(body, size, parts) && chunks == Numbered(b.title, parts, b.endLine);
      TrimmedWithin(Joined(lines[b.from..b.upto]));
      forall i | 0 <= i < |chunks| ensures Origin(lines, heading, chunks[i], b.from, b.upto) {
        PartWithin(body, size, parts, i);
        WithinWithin(parts[i], body, Joined(lines[b.from..b.upto]));
      }
    }
  }

  /** Every block is where a heading, or the beginning of the text, puts it. */
  ghost predicate Placed(lines: seq<string>, heading: string -> Option<string>, b: Block) {
    b.from < b.upto <= |lines| && Titled(lines, heading, b.from, b.upto, b.title, b.endLine)
  }

  lemma {:induction false} BlocksPlaced(lines: seq<string>, heading: string -> Option<string>, sections: seq<Section>,
                                        n: nat)
    requires sections == Headings(lines, heading, |lines|) && Ordered(sections, |lines|)
    requires n <= |sections| && lines != []
    ensures forall i :: 0 <= i < |Blocks(lines, sections, n)| ==> Placed(lines, heading, Blocks(lines, sections, n)[i])
    decreases n
  {
    if n == 0 {
      OpeningPlaced(lines, heading, sections);
    } else {
      BlocksPlaced(lines, heading, sections, n - 1);
      SectionPlaced(lines, heading, sections, n - 1);
    }
  }

  lemma OpeningPlaced(lines: seq<string>, heading: string -> Option<string>, sections: seq<Section>)
    requires sections == Headings(lines, heading, |lines|) && Ordered(sections, |lines|) && lines != []
    ensures forall i :: 0 <= i < |Opening(lines, sections)| ==> Placed(lines, heading, Opening(lines, sections)[i])
  {
    HeadingsMean(lines, heading, |lines|);
    NoHeadingBetween(lines, heading, -1, if sections == [] then |lines| else sections[0].start);
  }

  lemma SectionsApart(sections: seq<Section>, n: nat, i: nat)
    requires Ordered(sections, n) && i < |sections|
    ensures forall j :: 0 <= j < |sections| ==>
              sections[j].start <= sections[i].start
              || (i + 1 < |sections| && sections[i + 1].start <= sections[j].start)
  {
    forall j | 0 <= j < |sections|
      ensures sections[j].start <= sections[i].start
              || (i + 1 < |sections| && sections[i + 1].start <= sections[j].start)
    {
      if i < j { assert j == i + 1 || i + 1 < j; }
    }
  }

  lemma SectionPlaced(lines: seq<string>, heading: string -> Option<string>, sections: seq<Section>, i: nat)
    requires sections == Headings(lines, heading, |lines|) && Ordered(sections, |lines|) && i < |sections|
    ensures Placed(lines, heading, SectionBlock(lines, sections, i))
  {
    hide Headings;
    HeadingAt(lines, heading, |lines|, i);
    var b := SectionBlock(lines, sections, i);
    assert i + 1 < |sections| ==> heading(lines[sections[i + 1].start]).Some? by {
      if i + 1 < |sections| { HeadingAt(lines, heading, |lines|, i + 1); }
    }
    SectionsApart(sections, |lines|, i);
    NoHeadingBetween(lines, heading, b.from, b.upto);
  }

  lemma {:induction false} TiledLabels(lines: seq<string>, heading: string -> Option<string>, blocks: seq<Block>,
                                       end: nat, size: nat, chunks: seq<Chunk>)
    returns (origins: seq<(nat, nat)>)
    requires end <= |lines| && Tiles(blocks, end) && Chunked(lines, blocks, size, chunks)
    requires forall i :: 0 <= i < |blocks| ==> Placed(lines, heading, blocks[i])
    ensures Labelled(lines, heading, chunks, origins)
    ensures forall i :: 0 <= i < |origins| ==> origins[i].1 <= end
    decreases |blocks|
  {
    if blocks == [] {
      origins := [];
    } else {
      var n := |blocks| - 1;
      var b := blocks[n];
      var k :| 0 <= k <= |chunks| && Chunked(lines, blocks[..n], size, chunks[..k])
               && ChunksOf(lines, b, size, chunks[k..]);
      var before := TiledLabels(lines, heading, blocks[..n], b.from, size, chunks[..k]);
      assert Placed(lines, heading, b);
      BlockLabels(lines, heading, b, size, chunks[k..]);
      LabelledOn(lines, heading, chunks, k, before, (b.from, b.upto));
      origins := before + seq(|chunks| - k, _ => (b.from, b.upto));
    }
  }

  lemma LabelledOn(lines: seq<string>, heading: string -> Option<string>, chunks: seq<Chunk>, k: nat,
                   before: seq<(nat, nat)>, at: (nat, nat))
    requires k <= |chunks| && Labelled(lines, heading, chunks[..k], before)
    requires forall i :: 0 <= i < |before| ==> before[i].1 <= at.0
    requires forall i :: 0 <= i < |chunks| - k ==>
               Origin(lines, heading, chunks[k..][i], at.0, at.1) && chunks[k..][i].sq == i
    ensures Labelled(lines, heading, chunks, before + seq(|chunks| - k, _ => at))
  {
    var origins := before + seq(|chunks| - k, _ => at);
    forall i | 0 <= i < |chunks|
      ensures Origin(lines, heading, chunks[i], origins[i].0, origins[i].1) && NumberedAt(chunks, origins, i)
    {
      if i < k {
        assert NumberedAt(chunks[..k], before, i);
        assert chunks[i] == chunks[..k][i] && origins[i] == before[i];
        if i > 0 { assert chunks[i - 1] == chunks[..k][i - 1] && origins[i - 1] == before[i - 1]; }
      } else {
        assert chunks[i] == chunks[k..][i - k];
        if i > k { assert chunks[i - 1] == chunks[k..][i - 1 - k]; }
        else if i > 0 {
          assert Origin(lines, heading, chunks[..k][i - 1], before[i - 1].0, before[i - 1].1);
          assert origins[i - 1] == before[i - 1] && origins[i] == at && before[i - 1].0 < before[i - 1].1 <= at.0;
        }
      }
    }
  }

  /** Every chunk is a piece of the text, labelled with the heading its lines stand under. */
  lemma SplitLabels(text: string, size: int, heading: string -> Option<string>,
                    sections: seq<Section>, out: seq<Chunk>)
    requires sections == Headings(Lines(text), heading, |Lines(text)|) && Ordered(sections, |Lines(text)|)
    requires Chunked(Lines(text), Blocks(Lines(text), sections, |sections|), SizeOf(size), out)
    ensures forall i :: 0 <= i < |out| ==> Within(out[i].content, text)
    ensures exists origins :: Labelled(Lines(text), heading, out, origins)
  {
    var lines := Lines(text);
    var blocks := Blocks(lines, sections, |sections|);
    BlocksTile(lines, sections, |sections|);
    BlocksPlaced(lines, heading, sections, |sections|);
    var origins := TiledLabels(lines, heading, blocks, |lines|, SizeOf(size), out);
    LinesRoundTrip(text);
    forall i | 0 <= i < |out| ensures Within(out[i].content, text) {
      assert Origin(lines, heading, out[i], origins[i].0, origins[i].1);
      JoinedWithin(lines, origins[i].0, origins[i].1);
      WithinWithin(out[i].content, Joined(lines[origins[i].0..origins[i].1]), text);
    }
  }
}
