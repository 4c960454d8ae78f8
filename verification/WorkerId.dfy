/** Minting worker ids and reading their number back (spawn.go, restore.go). */
module WorkerId {
  import opened Common
  import opened Decimal

  /** fmt's %d for an int. */
  function Format(n: Int64): string {
    var m: int := n;
    if m < 0 then "-" + Digits(-m) else Digits(m)
  }

  /** The id of the worker of this role with this number. */
  function Mint(role: string, n: Int64): string { role + "-" + Format(n) }

  /** The position of the last dash, or -1. */
  function LastDash(id: string): (i: int)
    ensures -1 <= i < |id|
    ensures 0 <= i ==> id[i] == '-'
    ensures forall k :: i < k < |id| ==> id[k] != '-'
  {
    if id == "" then -1
    else if id[|id| - 1] == '-' then |id| - 1
    else LastDash(id[..|id| - 1])
  }

  predicate AllDigits(s: string) { forall i :: 0 <= i < |s| ==> IsDigit(s[i]) }

  /** strconv.Atoi where no minus sign can occur: an optional plus, digits, in range. */
  function Atoi(s: string): Option<Int64> {
    var body := if s != "" && s[0] == '+' then s[1..] else s;
    if body == "" || !AllDigits(body) || Value(body) > MAX_INT64 then None else Some(Value(body))
  }

  function TrailingSeq(id: string): (n: Int64)
    ensures n >= 0
  {
    var i := LastDash(id);
    if i < 0 || i + 1 >= |id| then 0
    else
      match Atoi(id[i + 1..])
      case None => 0
      case Some(n) => n
  }

  lemma LastDashIs(id: string, i: nat)
    requires i < |id| && id[i] == '-' && (forall k :: i < k < |id| ==> id[k] != '-')
    ensures LastDash(id) == i
  {
    hide LastDash;
  }

  lemma DashThenTail(role: string, tail: string)
    requires forall k :: 0 <= k < |tail| ==> tail[k] != '-'
    ensures LastDash(role + "-" + tail) == |role|
    ensures (role + "-" + tail)[|role| + 1..] == tail && (role + "-" + tail)[..|role|] == role
  {
    hide LastDash;
    var id := role + "-" + tail;
    LastDashIs(id, |role|);
  }

  lemma DigitsTail(role: string, k: nat)
    ensures LastDash(role + "-" + Digits(k)) == |role|
    ensures (role + "-" + Digits(k))[|role| + 1..] == Digits(k)
    ensures (role + "-" + Digits(k))[..|role|] == role
  {
    hide Digits, Value, LastDash;
    forall i | 0 <= i < |Digits(k)| ensures Digits(k)[i] != '-' { assert IsDigit(Digits(k)[i]); }
    DashThenTail(role, Digits(k));
  }

  lemma TailValue(role: string, k: nat)
    ensures TrailingSeq(role + "-" + Digits(k)) == if k <= MAX_INT64 then k else 0
  {
    hide Digits, Value, LastDash;
    DigitsTail(role, k);
    assert IsDigit(Digits(k)[0]);
  }

  /** The number read back from a minted id is the number it was minted with, whatever text the role is. */
  lemma ReadBack(role: string, n: Int64)
    requires n >= 0
    ensures TrailingSeq(Mint(role, n)) == n
  {
    TailValue(role, n);
  }

  /**
   Of any id the number is what stands after its last dash, if that is a decimal number an int can hold, with
   or without a plus sign; of an id that ends otherwise, or has no dash, it is zero.
   */
  lemma TrailingSeqReads(head: string, tail: string, id: string)
    requires forall k :: 0 <= k < |tail| ==> tail[k] != '-'
    ensures TrailingSeq(head + "-" + tail) ==
              if tail != "" && AllDigits(tail) && Value(tail) <= MAX_INT64 then Value(tail)
              else if |tail| > 1 && tail[0] == '+' && AllDigits(tail[1..]) && Value(tail[1..]) <= MAX_INT64 then Value(tail[1..])
              else 0
    ensures (forall k :: 0 <= k < |id| ==> id[k] != '-') ==> TrailingSeq(id) == 0
  {
    hide LastDash, Value;
    DashThenTail(head, tail);
    if tail != "" && AllDigits(tail) { assert IsDigit(tail[0]); }
  }

  /** Ids stay distinct across roles as well: the text before the last dash is the role. */
  lemma MintInjective(role: string, n: Int64, role': string, n': Int64)
    requires n >= 0 && n' >= 0 && Mint(role, n) == Mint(role', n')
    ensures role == role' && n == n'
  {
    ReadBack(role, n);
    ReadBack(role', n');
    DigitsTail(role, n);
    DigitsTail(role', n');
  }

  /**
   A counter at least the number of every known id mints an id none of them has, exactly while it is
   below the largest int. At the largest int it wraps, and an id already known may come out again.
   */
  lemma FreshWhileBelowMax(role: string, last: Int64)
    requires last >= 0
    ensures (forall id :: TrailingSeq(id) <= last ==> id != Mint(role, Increment(last))) <==> last < MAX_INT64
  {
    hide Digits, Value, LastDash, TrailingSeq;
    if last < MAX_INT64 {
      ReadBack(role, last + 1);
    } else {
      var id := Mint(role, MIN_INT64);
      assert id == (role + "-") + "-" + Digits(MAX_INT64 + 1);
      TailValue(role + "-", MAX_INT64 + 1);
      assert TrailingSeq(id) <= last;
    }
  }
}
