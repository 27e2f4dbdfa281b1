/** The receipts of one tool call (agent/agent.go, execCall and errOutcome) and their replay. */
module ToolRun {
  import opened Types
  import opened Utf8

  const EMPTY_NOTE := Ascii("tool executed but returned no text content")
  const ERROR_PREFIX := Ascii("error: ")

  function ShownText(content: Text, maxBytes: nat): Text {
    var text := Truncated(content, maxBytes);
    if text == [] then EMPTY_NOTE else text
  }

  function ErrorEvent(c: Call, reason: Text): Event { CallEvent(ToolError, c).(error := reason) }

  function ErrorMessage(c: Call, reason: Text): Message {
    ToolMessage(c.id, c.name, ERROR_PREFIX + reason, [])
  }

  /** The event logged for an executed call. */
  function ResultEvent(c: Call, r: Outcome, maxBytes: nat): Event {
    match r
    case Failure(reason) => ErrorEvent(c, reason)
    case Result(content, isError, citations) =>
      CallEvent(if isError then ToolError else ToolResult, c)
        .(args := "", result := ShownText(content, maxBytes), citations := citations)
  }

  /** The tool message of an executed call. */
  function ResultMessage(c: Call, r: Outcome, maxBytes: nat): Message {
    match r
    case Failure(reason) => ErrorMessage(c, reason)
    case Result(content, isError, citations) =>
      ToolMessage(c.id, c.name, ShownText(content, maxBytes), citations)
  }

  /** An executed call as the resume index remembers it (runtime/resume.go). */
  datatype Recorded = Recorded(callId: string, content: Text, citations: seq<Citation>, isError: bool)

  function RecordOf(e: Event): Recorded {
    var content := if e.result == [] && e.error != [] then ERROR_PREFIX + e.error else e.result;
    Recorded(e.callId, content, e.citations, e.typ == ToolError && e.result != [])
  }

  /** What the wrapped tool hands back instead of running. */
  function Replayed(rec: Recorded): Outcome { Result(rec.content, rec.isError, rec.citations) }

  /** The longest well-formed prefix within the limit, with the notice behind it. */
  ghost predicate CutShort(content: Text, maxBytes: nat, shown: Text)
    requires maxBytes < |content|
  {
    exists n: nat ::
      && n <= maxBytes && shown == content[..n] + Ascii("\n\n[tool result truncated: too large]")
      && Valid(content[..n]) && forall k :: n < k <= maxBytes ==> !Valid(content[..k])
  }

  /** What a call that returned shows, in its message and in the log: content that fits unchanged, longer
      content as its longest well-formed prefix with the notice behind it, and the note for an empty one
      exactly when there is nothing to show or the content is that note. A limit of zero cuts nothing. */
  lemma ShownResult(c: Call, content: Text, isError: bool, citations: seq<Citation>, maxBytes: nat)
    ensures var m, e := ResultMessage(c, Result(content, isError, citations), maxBytes),
                        ResultEvent(c, Result(content, isError, citations), maxBytes);
            var fits := maxBytes == 0 || |content| <= maxBytes;
            && m == Message(Tool, e.result, [], c.id, c.name, citations)
            && e == Event(if isError then ToolError else ToolResult, 0, c.id, c.name, "", e.result, [], citations)
            && (fits && content != [] ==> e.result == content)
            && (!fits ==> CutShort(content, maxBytes, e.result))
            && (e.result == Ascii("tool executed but returned no text content") <==>
                content == [] || (fits && content == Ascii("tool executed but returned no text content")))
  {
    if 0 < maxBytes < |content| {
      TruncationIsTight(content, maxBytes);
      var cut := Truncated(content, maxBytes);
      assert TRUNCATED[|TRUNCATED| - 1] == 93 && cut[|cut| - 1] == 93;
      assert EMPTY_NOTE[|EMPTY_NOTE| - 1] == 116;
    }
  }

  /** What a call that failed shows. */
  lemma ShownFailure(c: Call, reason: Text)
    ensures ErrorMessage(c, reason) == Message(Tool, Ascii("error: ") + reason, [], c.id, c.name, [])
    ensures ErrorEvent(c, reason) == Event(ToolError, 0, c.id, c.name, c.args, [], reason, [])
    ensures forall maxBytes: nat :: ResultMessage(c, Failure(reason), maxBytes) == ErrorMessage(c, reason)
                                    && ResultEvent(c, Failure(reason), maxBytes) == ErrorEvent(c, reason)
  {}

  /** The receipt rebuilt from the log equals the original, but for a failure without a reason. */
  lemma RecordedContent(c: Call, r: Outcome, maxBytes: nat)
    ensures RecordOf(ResultEvent(c, r, maxBytes)).content ==
              if r == Failure([]) then [] else ResultMessage(c, r, maxBytes).content
    ensures RecordOf(ResultEvent(c, r, maxBytes)).isError == (r.Result? && r.isError)
    ensures RecordOf(ResultEvent(c, r, maxBytes)).citations == ResultMessage(c, r, maxBytes).citations
  {
    assert |EMPTY_NOTE| > 0;
  }

  /** Executing a call, logging it, and answering the call `again` from the log after a resume with
      the limit `limit` gives the same content exactly when the content settles under that limit and
      the failure, if any, has a reason; and it is logged as what it was, result or business error, except
      that a failure comes back as a result. */
  lemma ReplayRoundTrip(c: Call, r: Outcome, maxBytes: nat, again: Call, limit: nat)
    requires 0 < limit
    ensures var original := ResultMessage(c, r, maxBytes);
            var second := Replayed(RecordOf(ResultEvent(c, r, maxBytes)));
            var replay := ResultMessage(again, second, limit);
            && replay.citations == original.citations
            && (ResultEvent(again, second, limit).typ == ResultEvent(c, r, maxBytes).typ <==> r.Result?)
            && (replay.content == original.content <==>
                r != Failure([]) && Settled(original.content, limit))
  {
    RecordedContent(c, r, maxBytes);
    var content := ResultMessage(c, r, maxBytes).content;
    TruncationSettles(content, limit);
    assert |EMPTY_NOTE| == 42 && |ERROR_PREFIX| == 7;
    if r != Failure([]) {
      assert content != [];
    }
  }

  /** Two two-byte characters: a limit of three bytes keeps the first. */
  const TWO_CHARACTERS: Text := [0xC3, 0xA9, 0xC3, 0xA9]

  /** A result that was cut below its limit is cut again when it is delivered from the log under the same
      limit: the replayed content differs from the recorded one. */
  lemma ReplayCutsAgain(c: Call, again: Call)
    ensures var r := Result(TWO_CHARACTERS, false, []);
            var original := ResultMessage(c, r, 3);
            var replay := ResultMessage(again, Replayed(RecordOf(ResultEvent(c, r, 3))), 3);
            && original.content == TWO_CHARACTERS[..2] + TRUNCATED
            && replay.content != original.content
  {
    var r := Result(TWO_CHARACTERS, false, []);
    var cut := TWO_CHARACTERS[..3];
    assert cut == [0xC3, 0xA9, 0xC3];
    assert cut[2..] == [0xC3] && CharLen(cut[2..]) == 0 && CharLen(cut) == 2;
    assert !Valid(cut);
    assert cut[..2] == [0xC3, 0xA9] == TWO_CHARACTERS[..2];
    assert cut[..2][2..] == [] && CharLen(cut[..2]) == 2 && Valid(cut[..2]);
    assert cut[..3] == cut && LongestValid(cut) == 2;
    var content := TWO_CHARACTERS[..2] + TRUNCATED;
    assert |TRUNCATED| == 36 && content[3..] == TRUNCATED[1..];
    assert !Settled(content, 3);
    ReplayRoundTrip(c, r, 3, again, 3);
  }
}
