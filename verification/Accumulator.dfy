/** Putting streamed tool calls together from their fragments (agent/accumulator.go). */
module Accumulator {
  import opened Strings
  import opened Types

  datatype Delta = Delta(index: int, id: string, name: string, arguments: string)

  datatype BuiltCall = BuiltCall(id: string, name: string, arguments: string)

  // ---------------------------------------------------------------- what a stream of fragments says

  /** The fragments of one call, in the order they came. */
  function Of(ds: seq<Delta>, index: int): seq<Delta> {
    if ds == [] then []
    else
      var d := ds[|ds| - 1];
      Of(ds[..|ds| - 1], index) + if d.index == index then [d] else []
  }

  /** Everything the fragments of one call say: its last id that is not empty, and its name and
      arguments put together. */
  datatype Said = Said(id: string, name: string, arguments: string)

  const NOTHING := Said("", "", "")

  function Extended(s: Said, d: Delta): Said {
    Said(if d.id != "" then d.id else s.id, s.name + d.name, s.arguments + d.arguments)
  }

  function SaidOf(ds: seq<Delta>, index: int): Said {
    if ds == [] then NOTHING
    else
      var before, d := SaidOf(ds[..|ds| - 1], index), ds[|ds| - 1];
      if d.index == index then Extended(before, d) else before
  }

  predicate Mentioned(ds: seq<Delta>, index: int) {
    exists i :: 0 <= i < |ds| && ds[i].index == index
  }

  lemma OneMore(ds: seq<Delta>, d: Delta, index: int)
    ensures SaidOf(ds + [d], index) == if d.index == index then Extended(SaidOf(ds, index), d) else SaidOf(ds, index)
    ensures Mentioned(ds + [d], index) <==> Mentioned(ds, index) || d.index == index
  {
    assert (ds + [d])[..|ds|] == ds && (ds + [d])[|ds|] == d;
    assert forall i :: 0 <= i < |ds| ==> (ds + [d])[i] == ds[i];
  }

  lemma {:induction false} UnmentionedIsEmpty(ds: seq<Delta>, index: int)
    requires !Mentioned(ds, index)
    ensures SaidOf(ds, index) == NOTHING
    decreases |ds|
  {
    if ds != [] {
      assert forall i :: 0 <= i < |ds| - 1 ==> ds[..|ds| - 1][i] == ds[i];
      UnmentionedIsEmpty(ds[..|ds| - 1], index);
    }
  }

  // ---------------------------------------------------------------- the calls it stands for

  /** JSON validity and quoting are library functions the repository calls. */
  datatype Json = Json(valid: string -> bool, quote: string -> string)

  function Arguments(json: Json, raw: string): string {
    var text := if Trimmed(raw) == "" then "{}" else Trimmed(raw);
    if json.valid(text) then text else json.quote(text)
  }

  function CallFor(json: Json, step: int, index: int, s: Said): BuiltCall {
    BuiltCall(if s.id == "" then "call_" + Decimal(step) + "_" + Decimal(index) else s.id,
              s.name, Arguments(json, s.arguments))
  }

  predicate Ascending(indexes: seq<int>) {
    forall i, j :: 0 <= i < j < |indexes| ==> indexes[i] < indexes[j]
  }

  /** `indexes` are those with a name, in increasing order, and `out` holds one call for each. */
  ghost predicate Built(json: Json, step: int, ds: seq<Delta>, indexes: seq<int>, out: seq<BuiltCall>) {
    && Ascending(indexes)
    && (forall index :: index in indexes <==> SaidOf(ds, index).name != "")
    && |out| == |indexes|
    && forall k :: 0 <= k < |out| ==> out[k] == CallFor(json, step, indexes[k], SaidOf(ds, indexes[k]))
  }

  // ---------------------------------------------------------------- the same in terms of the fragments

  function Names(own: seq<Delta>): seq<string> { seq(|own|, i requires 0 <= i < |own| => own[i].name) }

  function Pieces(own: seq<Delta>): seq<string> { seq(|own|, i requires 0 <= i < |own| => own[i].arguments) }

  /** The last id that is not empty, if there is one. */
  predicate LastId(own: seq<Delta>, id: string) {
    if id == "" then forall i :: 0 <= i < |own| ==> own[i].id == ""
    else exists i :: 0 <= i < |own| && own[i].id == id && forall j :: i < j < |own| ==> own[j].id == ""
  }

  lemma LastIdNext(own: seq<Delta>, d: Delta, id: string)
    requires LastId(own, id)
    ensures LastId(own + [d], if d.id != "" then d.id else id)
  {
    var more := own + [d];
    assert more[|own|] == d;
    if d.id == "" && id != "" {
      var i :| 0 <= i < |own| && own[i].id == id && forall j :: i < j < |own| ==> own[j].id == "";
      assert more[i].id == id;
    }
  }

  /** What the fragments of one call say: names and arguments one after the other, and the last id. */
  lemma {:induction false} SaidMeans(ds: seq<Delta>, index: int)
    ensures var own, s := Of(ds, index), SaidOf(ds, index);
            s.name == Flat(Names(own)) && s.arguments == Flat(Pieces(own)) && LastId(own, s.id)
    decreases |ds|
  {
    if ds != [] {
      var front, d := ds[..|ds| - 1], ds[|ds| - 1];
      SaidMeans(front, index);
      if d.index == index {
        var own := Of(front, index);
        LastIdNext(own, d, SaidOf(front, index).id);
        assert Names(own + [d]) == Names(own) + [d.name] && Pieces(own + [d]) == Pieces(own) + [d.arguments];
        assert Names(own + [d])[..|own|] == Names(own) && Pieces(own + [d])[..|own|] == Pieces(own);
      } else {
        assert Of(ds, index) == Of(front, index);
      }
    }
  }

  /** One built call, field by field: the joined names; the joined arguments without the white space around
      them, or an empty object, quoted when they are not valid; and the last id, or one made up from step
      and index. */
  ghost predicate Spelled(json: Json, step: int, index: int, own: seq<Delta>, call: BuiltCall) {
    var raw := Trimmed(Flat(Pieces(own)));
    var text := if raw == "" then "{}" else raw;
    && call.name == Flat(Names(own))
    && call.arguments == (if json.valid(text) then text else json.quote(text))
    && if forall i :: 0 <= i < |own| ==> own[i].id == ""
       then call.id == "call_" + Decimal(step) + "_" + Decimal(index)
       else call.id != "" && LastId(own, call.id)
  }

  /** One call for every index whose fragments bring a name, in the order of the indexes. */
  ghost predicate SpelledAll(json: Json, step: int, ds: seq<Delta>, indexes: seq<int>, out: seq<BuiltCall>) {
    && Ascending(indexes) && |out| == |indexes|
    && (forall index :: index in indexes <==> Flat(Names(Of(ds, index))) != "")
    && forall k :: 0 <= k < |out| ==> Spelled(json, step, indexes[k], Of(ds, indexes[k]), out[k])
  }

  lemma BuiltIsSpelled(json: Json, step: int, ds: seq<Delta>, indexes: seq<int>, out: seq<BuiltCall>)
    requires Built(json, step, ds, indexes, out)
    ensures SpelledAll(json, step, ds, indexes, out)
  {
    forall index ensures SaidOf(ds, index).name == Flat(Names(Of(ds, index))) { SaidMeans(ds, index); }
    forall k | 0 <= k < |out| ensures Spelled(json, step, indexes[k], Of(ds, indexes[k]), out[k]) {
      SaidMeans(ds, indexes[k]);
    }
  }

  // ---------------------------------------------------------------- the accumulator

  class AccumulatedCall {
    var id: string
    var name: string
    var arguments: string

    constructor ()
      ensures id == "" && name == "" && arguments == ""
    {
      id, name, arguments := "", "", "";
    }

    method Extend(delta: Delta)
      modifies this
      ensures id == (if delta.id != "" then delta.id else old(id))
      ensures name == old(name) + delta.name && arguments == old(arguments) + delta.arguments
    {
      if delta.id != "" { id := delta.id; }
      if delta.name != "" { name := name + delta.name; }
      if delta.arguments != "" { arguments := arguments + delta.arguments; }
    }
  }

  lemma Inhabited(keys: set<int>)
    requires keys != {}
    ensures exists k :: k in keys
  {
    assert (forall k :: k !in keys) ==> keys == {};
  }

  method SortedIndexes(keys: set<int>) returns (indexes: seq<int>)
    ensures Ascending(indexes) && forall k :: k in indexes <==> k in keys
  {
    indexes := [];
    var todo := keys;
    while todo != {}
      invariant todo <= keys && Ascending(indexes)
      invariant forall k :: k in indexes <==> k in keys && k !in todo
      invariant forall i, k :: 0 <= i < |indexes| && k in todo ==> indexes[i] < k
      decreases todo
    {
      var least := Least(todo);
      todo := todo - {least};
      indexes := indexes + [least];
    }
  }

  method Least(keys: set<int>) returns (least: int)
    requires keys != {}
    ensures least in keys && forall k :: k in keys ==> least <= k
  {
    Inhabited(keys);
    least :| least in keys;
    var todo := keys;
    while todo != {}
      invariant todo <= keys && least in keys
      invariant forall k :: k in keys && k !in todo ==> least <= k
      decreases todo
    {
      Inhabited(todo);
      var k :| k in todo;
      todo := todo - {k};
      if k < least { least := k; }
    }
  }

  class CallAccumulator {
    const step: int
    const json: Json
    var calls: map<int, AccumulatedCall>
    ghost var fed: seq<Delta>

    ghost predicate Holds(index: int, call: AccumulatedCall)
      reads this, call
    {
      Said(call.id, call.name, call.arguments) == SaidOf(fed, index)
    }

    /** Every mentioned index has a builder of its own that holds what its fragments say. */
    ghost predicate Valid()
      reads this, calls.Values
    {
      && (forall index :: index in calls <==> Mentioned(fed, index))
      && (forall index :: index in calls ==> Holds(index, calls[index]))
      && (forall a, b :: a in calls && b in calls && a != b ==> calls[a] != calls[b])
    }

    constructor (step: int, json: Json)
      ensures Valid() && fed == [] && this.step == step && this.json == json && calls == map[]
    {
      this.step, this.json, calls, fed := step, json, map[], [];
    }

    /** The builder of an index, made when its first fragment comes. */
    method BuilderOf(index: int) returns (call: AccumulatedCall, ghost known: bool)
      requires Valid()
      modifies this`calls
      ensures known == (index in old(calls)) && (if known then calls == old(calls) else fresh(call))
      ensures calls == old(calls)[index := call] && calls[index] == call
      ensures forall a :: a in calls && a != index ==> calls[a] != call
      ensures forall a :: a in calls ==> Holds(a, calls[a])
    {
      known := index in calls;
      if index !in calls {
        UnmentionedIsEmpty(fed, index);
        var made := new AccumulatedCall();
        calls := calls[index := made];
      }
      call := calls[index];
    }

    method AddOne(delta: Delta)
      requires Valid()
      modifies this`calls, this`fed, calls.Values
      ensures Valid() && fed == old(fed) + [delta] && fresh(calls.Values - old(calls.Values))
    {
      hide SaidOf, Mentioned;
      var call, known := BuilderOf(delta.index);
      call.Extend(delta);
      ghost var before := fed;
      fed := fed + [delta];
      forall index | index in calls ensures Holds(index, calls[index]) { OneMore(before, delta, index); }
      forall index ensures index in calls <==> Mentioned(fed, index) { OneMore(before, delta, index); }
    }

    method Add(deltas: seq<Delta>)
      requires Valid()
      modifies this, calls.Values
      ensures Valid() && fed == old(fed) + deltas && fresh(calls.Values - old(calls.Values))
    {
      for i := 0 to |deltas|
        invariant Valid() && fed == old(fed) + deltas[..i] && fresh(calls.Values - old(calls.Values))
      {
        AddOne(deltas[i]);
      }
    }

    method Build() returns (out: seq<BuiltCall>)
      requires Valid()
      ensures exists indexes :: Built(json, step, fed, indexes, out)
      ensures exists indexes :: SpelledAll(json, step, fed, indexes, out)
    {
      var sorted := SortedIndexes(calls.Keys);
      out := [];
      ghost var indexes := [];
      for i := 0 to |sorted|
        invariant Ascending(indexes) && |out| == |indexes|
        invariant forall k :: k in indexes <==> k in sorted[..i] && SaidOf(fed, k).name != ""
        invariant forall k :: 0 <= k < |out| ==> out[k] == CallFor(json, step, indexes[k], SaidOf(fed, indexes[k]))
      {
        var index := sorted[i];
        var call := calls[index];
        if call.name == "" { continue; }
        var arguments := Trimmed(call.arguments);
        if arguments == "" { arguments := "{}"; }
        if !json.valid(arguments) { arguments := json.quote(arguments); }
        var id := if call.id == "" then "call_" + Decimal(step) + "_" + Decimal(index) else call.id;
        out, indexes := out + [BuiltCall(id, call.name, arguments)], indexes + [index];
      }
      forall k | SaidOf(fed, k).name != "" ensures k in indexes {
        if !Mentioned(fed, k) { UnmentionedIsEmpty(fed, k); }
        assert sorted[..|sorted|] == sorted;
      }
      assert Built(json, step, fed, indexes, out);
      BuiltIsSpelled(json, step, fed, indexes, out);
    }
  }

  // ---------------------------------------------------------------- refragmentation

  /** The streams say the same about every call: name, arguments and id. */
  ghost predicate Agree(a: seq<Delta>, b: seq<Delta>) {
    forall index :: SaidOf(a, index) == SaidOf(b, index)
  }

  lemma {:induction false} AscendingIsUnique(a: seq<int>, b: seq<int>)
    requires Ascending(a) && Ascending(b) && forall k :: k in a <==> k in b
    ensures a == b
    decreases |a|
  {
    if a != [] { assert a[|a| - 1] in a; }
    if b != [] { assert b[|b| - 1] in b; }
    if a != [] && b != [] {
      var n, m := |a| - 1, |b| - 1;
      assert a[n] == b[m];
      forall k ensures k in a[..n] <==> k in b[..m] {
        assert k in a[..n] ==> k in a && k != a[n];
        assert k in b[..m] ==> k in b && k != b[m];
      }
      AscendingIsUnique(a[..n], b[..m]);
      assert a == a[..n] + [a[n]] && b == b[..m] + [b[m]];
    }
  }

  /** Streams that agree build the same calls, however they are cut into fragments and batches. */
  lemma Refragmentation(json: Json, step: int, a: seq<Delta>, b: seq<Delta>, out: seq<BuiltCall>, out': seq<BuiltCall>)
    requires Agree(a, b)
    requires exists ks :: Built(json, step, a, ks, out)
    requires exists js :: Built(json, step, b, js, out')
    ensures out == out'
  {
    var ks :| Built(json, step, a, ks, out);
    var js :| Built(json, step, b, js, out');
    AscendingIsUnique(ks, js);
  }

  lemma {:induction false} OnlyOwnFragments(ds: seq<Delta>, index: int)
    ensures SaidOf(Of(ds, index), index) == SaidOf(ds, index)
    decreases |ds|
  {
    if ds != [] {
      var front, d := ds[..|ds| - 1], ds[|ds| - 1];
      OnlyOwnFragments(front, index);
      if d.index == index { OneMore(Of(front, index), d, index); } else { assert Of(ds, index) == Of(front, index); }
    }
  }

  /** Interleaving the fragments of different calls in another way changes nothing. */
  lemma Interleaving(a: seq<Delta>, b: seq<Delta>)
    requires forall index :: Of(a, index) == Of(b, index)
    ensures Agree(a, b)
  {
    forall index ensures SaidOf(a, index) == SaidOf(b, index) {
      OnlyOwnFragments(a, index);
      OnlyOwnFragments(b, index);
    }
  }

  lemma ExtendedTwice(s: Said, d: Delta, first: Delta, second: Delta)
    requires first.id == d.id && second.id == ""
    requires d.name == first.name + second.name && d.arguments == first.arguments + second.arguments
    ensures Extended(Extended(s, first), second) == Extended(s, d)
  {
    assert (s.name + first.name) + second.name == s.name + (first.name + second.name);
    assert (s.arguments + first.arguments) + second.arguments == s.arguments + (first.arguments + second.arguments);
  }

  lemma CutAt(before: seq<Delta>, d: Delta, first: Delta, second: Delta, index: int)
    requires d.index == first.index == second.index && first.id == d.id && second.id == ""
    requires d.name == first.name + second.name && d.arguments == first.arguments + second.arguments
    ensures SaidOf(before + [d], index) == SaidOf(before + [first] + [second], index)
  {
    OneMore(before, d, index);
    OneMore(before, first, index);
    OneMore(before + [first], second, index);
    ExtendedTwice(SaidOf(before, index), d, first, second);
  }

  lemma {:induction false} AgreeOn(a: seq<Delta>, b: seq<Delta>, after: seq<Delta>)
    requires Agree(a, b)
    ensures Agree(a + after, b + after)
    decreases |after|
  {
    if after == [] {
      assert a + after == a && b + after == b;
    } else {
      var front, d := after[..|after| - 1], after[|after| - 1];
      AgreeOn(a, b, front);
      assert a + after == (a + front) + [d] && b + after == (b + front) + [d];
      forall index ensures SaidOf(a + after, index) == SaidOf(b + after, index) {
        OneMore(a + front, d, index);
        OneMore(b + front, d, index);
      }
    }
  }

  /** Cutting any fragment of a stream in two, the id staying with the first part, changes nothing. */
  lemma FragmentCut(before: seq<Delta>, d: Delta, n: nat, m: nat, after: seq<Delta>)
    requires n <= |d.name| && m <= |d.arguments|
    ensures Agree(before + [d] + after,
                  before + [Delta(d.index, d.id, d.name[..n], d.arguments[..m])]
                         + [Delta(d.index, "", d.name[n..], d.arguments[m..])] + after)
  {
    var first := Delta(d.index, d.id, d.name[..n], d.arguments[..m]);
    var second := Delta(d.index, "", d.name[n..], d.arguments[m..]);
    assert d.name == first.name + second.name && d.arguments == first.arguments + second.arguments;
    forall index ensures SaidOf(before + [d], index) == SaidOf(before + [first] + [second], index) {
      CutAt(before, d, first, second, index);
    }
    AgreeOn(before + [d], before + [first] + [second], after);
  }
}
