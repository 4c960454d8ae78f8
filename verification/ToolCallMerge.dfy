/**
 Folding a streamed tool call's fragments back into whole calls (signal.go).

 The loop of the source is method MergeStreamedToolCalls; Merge is the fold it
 computes, and MergeIsByKey ties that fold to an independent description: per key,
 arguments concatenated in arrival order, first non-empty name and id, first-seen key order.
 */
module ToolCallMerge {
  import opened Common
  import opened Decimal
  import opened Order

  /** rest stands for the fields a fragment carries unchanged (type, extras). */
  datatype ToolCall = ToolCall(index: Option<Int64>, id: string, name: string, arguments: string, rest: string)

  // ---------- itoa ----------

  /** What itoa returns. Negating the smallest int leaves it negative, so its digit loop does not run. */
  function ItoaText(i: Int64): string {
    if i == 0 then "0"
    else if i == MIN_INT64 then "-"
    else if i < 0 then "-" + Digits(-i)
    else Digits(i)
  }

  /** The digits the loop of Itoa has still to write. */
  ghost function Remaining(n: int): string { if n > 0 then Digits(n) else "" }

  /** The 20-byte buffer is never overrun: that is what the array bounds of this body prove. */
  method Itoa(i: Int64) returns (s: string)
    ensures s == ItoaText(i)
  {
    if i == 0 { return "0"; }
    var neg := i < 0;
    var n: Int64 := i;
    if neg {
      n := if i == MIN_INT64 then MIN_INT64 else -i;
    }
    var buf := new char[20](_ => '0');
    var p := 20;
    ghost var target := Remaining(n);
    RemainingFits(n);
    while n > 0
      invariant n < 0 ==> p == 20 && target == ""
      invariant 0 <= p <= 20
      invariant Remaining(n) + buf[p..] == target
      invariant |target| <= 19
    {
      ghost var before := buf[p..];
      RemainingStep(n, before);
      p := p - 1;
      buf[p] := Digit(n % 10);
      assert buf[p..] == [Digit(n % 10)] + before;
      n := n / 10;
    }
    assert buf[p..] == target;
    if neg {
      p := p - 1;
      buf[p] := '-';
      assert buf[p..] == ['-'] + target;
    }
    s := buf[p..];
  }

  lemma RemainingFits(n: Int64)
    ensures |Remaining(n)| <= 19
  {
    Int64Digits();
    if n > 0 { DigitsLength(n, 19); }
  }

  lemma RemainingStep(n: int, written: string)
    requires n > 0
    ensures Remaining(n) + written == Remaining(n / 10) + ([Digit(n % 10)] + written)
    ensures Remaining(n) != ""
  {
    assert Remaining(n) == Remaining(n / 10) + [Digit(n % 10)];
  }

  /** Distinct indices never share a text, so never share a merge key. */
  lemma ItoaInjective(i: Int64, j: Int64)
    requires ItoaText(i) == ItoaText(j)
    ensures i == j
  {
    NoSign(i);
    NoSign(j);
    if i < 0 {
      assert ItoaText(i)[1..] == (if i == MIN_INT64 then "" else Digits(-i));
      assert ItoaText(j)[1..] == (if j == MIN_INT64 then "" else Digits(-j));
    } else {
      assert Value(ItoaText(i)) == i by { assert Value("0") == 0 by { assert "0" == Digits(0); } }
      assert Value(ItoaText(j)) == j by { assert Value("0") == 0 by { assert "0" == Digits(0); } }
    }
  }

  lemma NoSign(i: Int64)
    ensures ItoaText(i)[0] == '-' <==> i < 0
  {
    if i > 0 { assert IsDigit(Digits(i)[0]); }
  }

  // ---------- the fold ----------

  /** The map key of a fragment: its index when it has one, else its id. */
  function Key(c: ToolCall): string {
    match c.index
    case Some(i) => "i" + ItoaText(i)
    case None => c.id
  }

  /** Two fragments meet under one key only through the same index, the same id, or an id spelling an index. */
  lemma KeysCollide(c: ToolCall, d: ToolCall)
    ensures Key(c) == Key(d) <==>
            match (c.index, d.index)
            case (Some(i), Some(j)) => i == j
            case (None, None) => c.id == d.id
            case (Some(i), None) => d.id == "i" + ItoaText(i)
            case (None, Some(j)) => c.id == "i" + ItoaText(j)
  {
    if c.index.Some? && d.index.Some? && Key(c) == Key(d) {
      assert ItoaText(c.index.value) == Key(c)[1..] && ItoaText(d.index.value) == Key(d)[1..];
      ItoaInjective(c.index.value, d.index.value);
    }
  }

  datatype Acc = Acc(order: seq<string>, byKey: map<string, ToolCall>)

  const EMPTY := Acc([], map[])

  function Extend(e: ToolCall, c: ToolCall): ToolCall {
    e.(name := if e.name == "" then c.name else e.name,
       arguments := e.arguments + c.arguments,
       id := if e.id == "" then c.id else e.id)
  }

  function Absorb(acc: Acc, c: ToolCall): Acc {
    var k := Key(c);
    if k in acc.byKey then acc.(byKey := acc.byKey[k := Extend(acc.byKey[k], c)])
    else Acc(acc.order + [k], acc.byKey[k := Extend(c.(arguments := ""), c)])
  }

  function Fold(acc: Acc, chunks: seq<ToolCall>): Acc
    decreases |chunks|
  {
    if chunks == [] then acc
    else Absorb(Fold(acc, chunks[..|chunks| - 1]), chunks[|chunks| - 1])
  }

  /** order lists the keys once each, and every entry still has the key it is filed under. */
  ghost predicate Consistent(acc: Acc) {
    && Distinct(acc.order)
    && (forall k :: k in acc.order <==> k in acc.byKey)
    && (forall k :: k in acc.byKey ==> Key(acc.byKey[k]) == k)
  }

  function Calls(acc: Acc): (out: seq<ToolCall>)
    requires Consistent(acc)
    ensures |out| == |acc.order|
  {
    seq(|acc.order|, i requires 0 <= i < |acc.order| =>
      assert acc.order[i] in acc.order; acc.byKey[acc.order[i]])
  }

  lemma {:induction false} FoldConsistent(acc: Acc, chunks: seq<ToolCall>)
    requires Consistent(acc)
    ensures Consistent(Fold(acc, chunks))
    decreases |chunks|
  {
    if chunks != [] { FoldConsistent(acc, chunks[..|chunks| - 1]); }
  }

  lemma {:induction false} FoldAppend(acc: Acc, a: seq<ToolCall>, b: seq<ToolCall>)
    ensures Fold(acc, a + b) == Fold(Fold(acc, a), b)
    decreases |b|
  {
    if b == [] {
      assert a + b == a;
    } else {
      var front := b[..|b| - 1];
      FoldAppend(acc, a, front);
      assert (a + b)[..|a + b| - 1] == a + front;
    }
  }

  function Merge(chunks: seq<ToolCall>): seq<ToolCall> {
    FoldConsistent(EMPTY, chunks);
    Calls(Fold(EMPTY, chunks))
  }

  method MergeStreamedToolCalls(chunks: seq<ToolCall>) returns (out: seq<ToolCall>)
    ensures out == Merge(chunks)
  {
    if |chunks| == 0 { return []; }
    var byKey: map<string, ToolCall> := map[];
    var order: seq<string> := [];
    for n := 0 to |chunks|
      invariant Acc(order, byKey) == Fold(EMPTY, chunks[..n])
    {
      assert chunks[..n + 1][..n] == chunks[..n];
      var c := chunks[n];
      var key := c.id;
      if c.index.Some? {
        var text := Itoa(c.index.value);
        key := "i" + text;
      }
      var e: ToolCall;
      if key in byKey {
        e := byKey[key];
      } else {
        e := c.(arguments := "");
        order := order + [key];
      }
      if e.name == "" && c.name != "" { e := e.(name := c.name); }
      if c.arguments != "" { e := e.(arguments := e.arguments + c.arguments); }
      if c.id != "" && e.id == "" { e := e.(id := c.id); }
      assert forall t: string :: t + "" == t;
      byKey := byKey[key := e];
      assert Acc(order, byKey) == Absorb(Fold(EMPTY, chunks[..n]), c);
    }
    assert chunks[..|chunks|] == chunks;
    FoldConsistent(EMPTY, chunks);
    out := [];
    for n := 0 to |order|
      invariant |out| == n
      invariant forall i :: 0 <= i < n ==> order[i] in byKey && out[i] == byKey[order[i]]
    {
      assert order[n] in order;
      out := out + [byKey[order[n]]];
    }
  }

  // ---------- the reference description ----------

  function Fragments(chunks: seq<ToolCall>, k: string): seq<ToolCall>
    decreases |chunks|
  {
    if chunks == [] then []
    else
      var front := Fragments(chunks[..|chunks| - 1], k);
      if Key(chunks[|chunks| - 1]) == k then front + [chunks[|chunks| - 1]] else front
  }

  function FirstNonEmpty(texts: seq<string>): string {
    if texts == [] then "" else if texts[0] != "" then texts[0] else FirstNonEmpty(texts[1..])
  }

  function Concat(texts: seq<string>): string {
    if texts == [] then "" else texts[0] + Concat(texts[1..])
  }

  function Names(cs: seq<ToolCall>): seq<string> { seq(|cs|, i requires 0 <= i < |cs| => cs[i].name) }
  function Ids(cs: seq<ToolCall>): seq<string> { seq(|cs|, i requires 0 <= i < |cs| => cs[i].id) }
  function Args(cs: seq<ToolCall>): seq<string> { seq(|cs|, i requires 0 <= i < |cs| => cs[i].arguments) }

  /** The call a run of fragments with one key stands for. */
  function Whole(cs: seq<ToolCall>): ToolCall
    requires cs != []
  {
    ToolCall(cs[0].index, FirstNonEmpty(Ids(cs)), FirstNonEmpty(Names(cs)), Concat(Args(cs)), cs[0].rest)
  }

  /** The keys in order of first appearance. */
  function KeysInOrder(chunks: seq<ToolCall>): seq<string>
    decreases |chunks|
  {
    if chunks == [] then []
    else
      var front := KeysInOrder(chunks[..|chunks| - 1]);
      var k := Key(chunks[|chunks| - 1]);
      if k in front then front else front + [k]
  }

  lemma {:induction false} FirstNonEmptySnoc(texts: seq<string>, t: string)
    ensures FirstNonEmpty(texts + [t]) == if FirstNonEmpty(texts) == "" then t else FirstNonEmpty(texts)
  {
    if texts == [] {
      assert (texts + [t])[1..] == [];
    } else {
      assert (texts + [t])[1..] == texts[1..] + [t];
      FirstNonEmptySnoc(texts[1..], t);
    }
  }

  lemma {:induction false} ConcatSnoc(texts: seq<string>, t: string)
    ensures Concat(texts + [t]) == Concat(texts) + t
  {
    if texts == [] {
      assert (texts + [t])[1..] == [];
    } else {
      assert (texts + [t])[1..] == texts[1..] + [t];
      ConcatSnoc(texts[1..], t);
    }
  }

  lemma WholeSnoc(cs: seq<ToolCall>, c: ToolCall)
    ensures Whole(cs + [c]) == if cs == [] then Extend(c.(arguments := ""), c) else Extend(Whole(cs), c)
  {
    var all := cs + [c];
    assert Names(all) == Names(cs) + [c.name];
    assert Ids(all) == Ids(cs) + [c.id];
    assert Args(all) == Args(cs) + [c.arguments];
    FirstNonEmptySnoc(Names(cs), c.name);
    FirstNonEmptySnoc(Ids(cs), c.id);
    ConcatSnoc(Args(cs), c.arguments);
  }

  lemma {:induction false} FoldIsByKey(chunks: seq<ToolCall>)
    ensures var acc := Fold(EMPTY, chunks);
            && acc.order == KeysInOrder(chunks)
            && (forall k :: k in acc.byKey <==> Fragments(chunks, k) != [])
            && (forall k :: k in acc.byKey <==> k in acc.order)
            && (forall k :: k in acc.byKey ==> acc.byKey[k] == Whole(Fragments(chunks, k)))
    decreases |chunks|
  {
    if chunks != [] {
      var front, c := chunks[..|chunks| - 1], chunks[|chunks| - 1];
      FoldIsByKey(front);
      var k := Key(c);
      WholeSnoc(Fragments(front, k), c);
      FoldConsistent(EMPTY, front);
    }
  }

  /** Merge, described without the fold: one call per key in first-seen order, each the whole of its own fragments. */
  lemma MergeIsByKey(chunks: seq<ToolCall>)
    ensures |Merge(chunks)| == |KeysInOrder(chunks)|
    ensures forall i :: 0 <= i < |Merge(chunks)| ==>
              && Fragments(chunks, KeysInOrder(chunks)[i]) != []
              && Merge(chunks)[i] == Whole(Fragments(chunks, KeysInOrder(chunks)[i]))
    ensures Distinct(KeysInOrder(chunks))
    ensures forall k :: k in KeysInOrder(chunks) <==> Fragments(chunks, k) != []
  {
    FoldIsByKey(chunks);
    FoldConsistent(EMPTY, chunks);
    forall i | 0 <= i < |Merge(chunks)|
      ensures Fragments(chunks, KeysInOrder(chunks)[i]) != []
      ensures Merge(chunks)[i] == Whole(Fragments(chunks, KeysInOrder(chunks)[i]))
    {
      assert KeysInOrder(chunks)[i] in Fold(EMPTY, chunks).order;
    }
  }

  /** Re-reading merged calls rebuilds the accumulator they came from. */
  lemma {:induction false} RefoldPrefix(acc: Acc, n: nat)
    requires Consistent(acc) && n <= |acc.order|
    ensures var again := Fold(EMPTY, Calls(acc)[..n]);
            && again.order == acc.order[..n]
            && (forall k :: k in again.byKey <==> k in acc.order[..n])
            && (forall k :: k in again.byKey ==> k in acc.byKey && again.byKey[k] == acc.byKey[k])
  {
    if n > 0 {
      RefoldPrefix(acc, n - 1);
      var calls := Calls(acc);
      assert calls[..n][..n - 1] == calls[..n - 1];
      assert acc.order[..n] == acc.order[..n - 1] + [acc.order[n - 1]];
      var e := calls[n - 1];
      assert acc.order[n - 1] in acc.order;
      assert Key(e) == acc.order[n - 1];
      assert Key(e) !in acc.order[..n - 1];
      assert "" + e.arguments == e.arguments;
      assert Extend(e.(arguments := ""), e) == e;
    }
  }

  /** Merging may be done in stages: what was merged already can stand in for its fragments. */
  lemma MergeInStages(a: seq<ToolCall>, b: seq<ToolCall>)
    ensures Merge(Merge(a) + b) == Merge(a + b)
  {
    var acc := Fold(EMPTY, a);
    FoldConsistent(EMPTY, a);
    RefoldPrefix(acc, |acc.order|);
    assert Calls(acc)[..|acc.order|] == Merge(a) && acc.order[..|acc.order|] == acc.order;
    assert Fold(EMPTY, Merge(a)).byKey == acc.byKey;
    FoldAppend(EMPTY, Merge(a), b);
    FoldAppend(EMPTY, a, b);
  }

  lemma MergeIdempotent(a: seq<ToolCall>)
    ensures Merge(Merge(a)) == Merge(a)
  {
    MergeInStages(a, []);
    assert Merge(a) + [] == Merge(a) && a + [] == a;
  }

  /** Interleaving fragments of different keys changes no call, only the order calls are listed in. */
  lemma InterleavingKeepsCalls(a: seq<ToolCall>, b: seq<ToolCall>)
    requires forall k :: Fragments(a, k) == Fragments(b, k)
    ensures forall c :: c in Merge(a) <==> c in Merge(b)
    ensures |Merge(a)| == |Merge(b)|
  {
    MergeIsByKey(a);
    MergeIsByKey(b);
    MergedIn(a, b);
    MergedIn(b, a);
    SameKeysSameLength(KeysInOrder(a), KeysInOrder(b));
  }

  lemma MergedIn(a: seq<ToolCall>, b: seq<ToolCall>)
    requires forall k :: Fragments(a, k) == Fragments(b, k)
    ensures forall c :: c in Merge(a) ==> c in Merge(b)
  {
    MergeIsByKey(a);
    MergeIsByKey(b);
    forall c | c in Merge(a) ensures c in Merge(b) {
      var i :| 0 <= i < |Merge(a)| && Merge(a)[i] == c;
      var k := KeysInOrder(a)[i];
      assert k in KeysInOrder(a);
      assert k in KeysInOrder(b);
      var j :| 0 <= j < |KeysInOrder(b)| && KeysInOrder(b)[j] == k;
      assert Merge(b)[j] == c;
    }
  }

  lemma SameKeysSameLength(a: seq<string>, b: seq<string>)
    requires Distinct(a) && Distinct(b) && (forall k :: k in a <==> k in b)
    ensures |a| == |b|
  {
    DistinctSize(a);
    DistinctSize(b);
    assert (set k | k in a) == (set k | k in b);
  }

  lemma {:induction false} DistinctSize(a: seq<string>)
    requires Distinct(a)
    ensures |set k | k in a| == |a|
  {
    if a != [] {
      DistinctSize(a[1..]);
      assert a[0] !in a[1..];
      assert (set k | k in a) == {a[0]} + (set k | k in a[1..]);
    }
  }
}
