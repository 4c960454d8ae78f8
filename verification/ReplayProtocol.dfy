/**
 What a replay promises (handoff.go, handoff_orphan_test.go): it is a legal tool conversation for
 every history, it loses nothing, it answers exactly what was answered, and replaying it again
 changes nothing unless the worker's task text is itself the handoff instruction.
 */
module ReplayProtocol {
  import opened Common
  import opened Order
  import opened Replay

  // ---------- legality ----------

  function CallIds(calls: seq<Call>): set<string> { set c | c in calls :: c.id }

  /** Reads a conversation by the protocol: the ids still to be answered, or None once a rule is broken. */
  function Scan(ms: seq<Message>): Option<set<string>>
    decreases |ms|
  {
    if ms == [] then Some({})
    else
      var m := ms[|ms| - 1];
      match Scan(ms[..|ms| - 1])
      case None => None
      case Some(open) =>
        if m.role == Tool then (if m.callId in open then Some(open - {m.callId}) else None)
        else if open == {} then Some(CallIds(m.calls)) else None
  }

  /** Every tool message answers an open call of the last other message, and none is left open. */
  predicate Legal(ms: seq<Message>) { Scan(ms) == Some({}) }

  lemma ScanSnoc(ms: seq<Message>, m: Message)
    ensures Scan(ms + [m]) ==
            match Scan(ms)
            case None => None
            case Some(open) =>
              if m.role == Tool then (if m.callId in open then Some(open - {m.callId}) else None)
              else if open == {} then Some(CallIds(m.calls)) else None
  {
    assert (ms + [m])[..|ms|] == ms;
  }

  /** Messages that neither answer nor declare calls leave a settled conversation settled. */
  lemma {:induction false} ScanPlain(ms: seq<Message>, more: seq<Message>)
    requires Legal(ms)
    requires forall k :: 0 <= k < |more| ==> more[k].role != Tool && more[k].calls == []
    ensures Legal(ms + more)
    decreases |more|
  {
    if more == [] {
      assert ms + more == ms;
    } else {
      var front, m := more[..|more| - 1], more[|more| - 1];
      ScanPlain(ms, front);
      ScanSnoc(ms + front, m);
      assert CallIds(m.calls) == {};
      assert ms + more == (ms + front) + [m];
    }
  }

  lemma {:induction false} ScanAnswers(ms: seq<Message>, answers: seq<Message>, ids: seq<string>)
    requires Scan(ms).Some? && |answers| == |ids| && Distinct(ids)
    requires forall k :: 0 <= k < |ids| ==> ids[k] in Scan(ms).value
    requires forall k :: 0 <= k < |ids| ==> answers[k].role == Tool && answers[k].callId == ids[k]
    ensures Scan(ms + answers) == Some(Scan(ms).value - (set id | id in ids))
    decreases |ids|
  {
    if ids == [] {
      assert ms + answers == ms;
      assert Scan(ms).value - (set id | id in ids) == Scan(ms).value;
    } else {
      var n := |ids| - 1;
      ScanAnswers(ms, answers[..n], ids[..n]);
      ScanSnoc(ms + answers[..n], answers[n]);
      assert ids[n] !in ids[..n];
      assert ms + answers == (ms + answers[..n]) + [answers[n]];
      assert (set id | id in ids) == (set id | id in ids[..n]) + {ids[n]};
      assert Scan(ms).value - (set id | id in ids[..n]) - {ids[n]} == Scan(ms).value - (set id | id in ids);
    }
  }

  lemma ScanSeal(ms: seq<Message>, open: map<string, Call>)
    requires Scan(ms) == Some(open.Keys)
    ensures Legal(ms + UnknownResults(open))
  {
    var ids := Ordered(open.Keys);
    hide UnknownResults, Scan;
    UnknownResultsAt(open);
    ScanAnswers(ms, UnknownResults(open), ids);
    assert (set id | id in ids) == open.Keys;
    assert open.Keys - open.Keys == {};
  }

  lemma {:induction false} DeclareKeys(calls: seq<Call>)
    ensures Declare(calls).Keys == CallIds(calls)
    decreases |calls|
  {
    if calls != [] {
      var front := calls[..|calls| - 1];
      DeclareKeys(front);
      assert calls == front + [calls[|calls| - 1]];
    }
  }

  lemma HeldBackPlain(h: seq<Message>, n: nat)
    requires n <= |h|
    ensures forall k :: 0 <= k < |HeldBack(h, n)| ==> HeldBack(h, n)[k].role != Tool && HeldBack(h, n)[k].calls == []
  {
  }

  /** What was written so far is legal up to exactly the calls the loop holds open. */
  lemma {:induction false} WrittenScans(task: Body, h: seq<Message>, n: nat)
    requires n <= |h|
    ensures Scan(Written(task, h, n)) == Some(Run(h, n).open.Keys)
    ensures Run(h, n).open == map[] ==> HeldBack(h, n) == []
  {
    if n == 0 {
      assert Written(task, h, 0) == [] && HeldBack(h, 0) == [] && Run(h, 0) == START;
      assert START.open.Keys == {};
    } else {
      hide Run, Written, HeldBack, UnknownResults, Declare, Scan;
      WrittenScans(task, h, n - 1);
      var before, open, m := Written(task, h, n - 1), Run(h, n - 1).open, h[n - 1];
      if IsInstruction(m) {
        ReadInstruction(task, h, n - 1);
      } else if m.role == Tool {
        ReadResult(task, h, n - 1);
        WrittenScansResult(task, h, n);
      } else {
        ReadSpeech(task, h, n - 1);
        ScanSeal(before, open);
        HeldBackPlain(h, n - 1);
        ScanPlain(before + UnknownResults(open), HeldBack(h, n - 1));
        ScanSnoc(before + UnknownResults(open) + HeldBack(h, n - 1), m);
        DeclareKeys(m.calls);
      }
    }
  }

  lemma WrittenScansResult(task: Body, h: seq<Message>, n: nat)
    requires 0 < n <= |h| && h[n - 1].role == Tool
    requires Scan(Written(task, h, n - 1)) == Some(Run(h, n - 1).open.Keys)
    requires Run(h, n - 1).open == map[] ==> HeldBack(h, n - 1) == []
    ensures Scan(Written(task, h, n)) == Some(Run(h, n).open.Keys)
    ensures Run(h, n).open == map[] ==> HeldBack(h, n) == []
  {
    hide Run, Written, HeldBack, Scan;
    ReadResult(task, h, n - 1);
    var p, q, m := Run(h, n - 1), Run(h, n), h[n - 1];
    var before, held := Written(task, h, n - 1), HeldBack(h, n - 1);
    HeldBackPlain(h, n - 1);
    if m.callId in p.open {
      ScanSnoc(before, m);
      assert q.open.Keys == p.open.Keys - {m.callId};
      if q.open == map[] {
        assert q.open.Keys == {};
        ScanPlain(before + [m], held);
      }
    } else if q.open == map[] {
      assert p.open.Keys == {};
      ScanPlain(before, held + [HistoricalToolResult(m)]);
    }
  }

  /** The replay of any history, whatever was cut from it or left unfinished in it, is legal. */
  lemma ReplayLegal(task: Body, h: seq<Message>)
    ensures Legal(Replayed(task, h))
  {
    hide Run, Written, HeldBack, UnknownResults, Replayed, Scan;
    var p, done := Run(h, |h|), Written(task, h, |h|);
    WrittenScans(task, h, |h|);
    ReadAll(task, h);
    ScanSeal(done, p.open);
    HeldBackPlain(h, |h|);
    ScanPlain(done + UnknownResults(p.open), HeldBack(h, |h|));
    ScanPlain(done + UnknownResults(p.open) + HeldBack(h, |h|), Cues(task, p.replayed, p.resuming));
  }

  // ---------- nothing is lost, nothing is answered twice ----------

  /** id was declared by the last spoken message before n and no tool message answered it since. */
  predicate Awaiting(h: seq<Message>, n: nat, id: string)
    requires n <= |h|
  {
    exists j :: 0 <= j < n && IsSpeech(h[j]) && AwaitingSince(h, j, n, id)
  }

  predicate AwaitingSince(h: seq<Message>, j: nat, n: nat, id: string)
    requires j < n <= |h|
  {
    && id in CallIds(h[j].calls)
    && (forall k :: j < k < n ==> !IsSpeech(h[k]))
    && (forall k :: j < k < n && h[k].role == Tool ==> h[k].callId != id)
  }

  lemma AwaitingAfterSpeech(h: seq<Message>, n: nat, id: string)
    requires 0 < n <= |h| && IsSpeech(h[n - 1])
    ensures Awaiting(h, n, id) <==> id in CallIds(h[n - 1].calls)
  {
    if id in CallIds(h[n - 1].calls) { assert AwaitingSince(h, n - 1, n, id); }
  }

  lemma AwaitingAfterOther(h: seq<Message>, n: nat, id: string)
    requires 0 < n <= |h| && !IsSpeech(h[n - 1])
    ensures Awaiting(h, n, id) <==> Awaiting(h, n - 1, id) && !(h[n - 1].role == Tool && h[n - 1].callId == id)
  {
    if Awaiting(h, n - 1, id) && !(h[n - 1].role == Tool && h[n - 1].callId == id) {
      var j :| 0 <= j < n - 1 && IsSpeech(h[j]) && AwaitingSince(h, j, n - 1, id);
      assert AwaitingSince(h, j, n, id);
    }
    if Awaiting(h, n, id) {
      var j :| 0 <= j < n && IsSpeech(h[j]) && AwaitingSince(h, j, n, id);
      assert AwaitingSince(h, j, n - 1, id);
    }
  }

  /** The loop's open map means exactly that, without the loop. */
  lemma RunOpen(h: seq<Message>, n: nat, id: string)
    requires n < |h|
    ensures id in Run(h, n + 1).open <==>
              if IsSpeech(h[n]) then id in Declare(h[n].calls)
              else id in Run(h, n).open && !(h[n].role == Tool && h[n].callId == id)
  {
    hide Receipts, Unanswered, Declare;
  }

  lemma NothingOpen(h: seq<Message>, id: string)
    ensures id !in Run(h, 0).open && !Awaiting(h, 0, id)
  {
  }

  lemma {:induction false} OpenIsAwaiting(h: seq<Message>, n: nat, id: string)
    requires n <= |h|
    ensures id in Run(h, n).open <==> Awaiting(h, n, id)
  {
    hide Run, Awaiting, Declare;
    if n > 0 {
      OpenIsAwaiting(h, n - 1, id);
      RunOpen(h, n - 1, id);
      var m := h[n - 1];
      if IsSpeech(m) {
        DeclareKeys(m.calls);
        AwaitingAfterSpeech(h, n, id);
      } else {
        AwaitingAfterOther(h, n, id);
      }
    } else {
      NothingOpen(h, id);
    }
  }

  /** Verbatim messages and receipts each keep their order of arrival. */
  predicate InOrder(items: seq<Item>) {
    && (forall a, b :: 0 <= a < b < |items| && items[a].Kept? && items[b].Kept? ==> items[a].at < items[b].at)
    && (forall a, b :: 0 <= a < b < |items| && items[a].Historic? && items[b].Historic? ==> items[a].at < items[b].at)
  }

  /** What becomes of position i: a kept message, a receipt, or, for the instruction only, nothing. */
  predicate Accounted(items: seq<Item>, h: seq<Message>, i: nat)
    requires i < |h|
  {
    && (Kept(i) in items <==> IsSpeech(h[i]) || (h[i].role == Tool && Awaiting(h, i, h[i].callId)))
    && (Historic(i) in items <==> h[i].role == Tool && !Awaiting(h, i, h[i].callId))
  }

  lemma AppendInert(items: seq<Item>, more: seq<Item>, receipts: seq<Item>, h: seq<Message>)
    requires InOrder(items + receipts)
    requires forall k :: 0 <= k < |more| ==> !more[k].Kept? && !more[k].Historic?
    ensures InOrder(items + more + receipts)
    ensures forall i: nat :: Kept(i) in items + more + receipts <==> Kept(i) in items + receipts
    ensures forall i: nat :: Historic(i) in items + more + receipts <==> Historic(i) in items + receipts
  {
    var was, now := items + receipts, items + more + receipts;
    var shift := |more|;
    forall a, b | 0 <= a < b < |now| && ((now[a].Kept? && now[b].Kept?) || (now[a].Historic? && now[b].Historic?))
      ensures now[a].at < now[b].at
    {
      var x := if a < |items| then a else a - shift;
      var y := if b < |items| then b else b - shift;
      assert now[a] == was[x] && now[b] == was[y];
    }
  }

  lemma AppendAt(items: seq<Item>, receipts: seq<Item>, n: nat, kept: bool)
    requires InOrder(items + receipts)
    requires forall k :: 0 <= k < |items| ==> (items[k].Kept? || items[k].Historic?) ==> items[k].at < n
    requires forall k :: 0 <= k < |receipts| ==> receipts[k].Historic? && receipts[k].at < n
    ensures var now := if kept then items + [Kept(n)] + receipts else items + (receipts + [Historic(n)]);
            && InOrder(now)
            && (forall i: nat :: Kept(i) in now <==> Kept(i) in items + receipts || (kept && i == n))
            && (forall i: nat :: Historic(i) in now <==> Historic(i) in items + receipts || (!kept && i == n))
  {
    var was := items + receipts;
    if kept {
      var now := items + [Kept(n)] + receipts;
      forall a, b | 0 <= a < b < |now| && ((now[a].Kept? && now[b].Kept?) || (now[a].Historic? && now[b].Historic?))
        ensures now[a].at < now[b].at
      {
        if a < |items| { assert now[a] == was[a]; } else if a > |items| { assert now[a] == was[a - 1]; }
        if b < |items| { assert now[b] == was[b]; } else if b > |items| { assert now[b] == was[b - 1]; }
      }
    } else {
      assert items + (receipts + [Historic(n)]) == was + [Historic(n)];
    }
  }

  lemma ReceiptsAt(waiting: seq<nat>)
    ensures forall i: nat :: Historic(i) in Receipts(waiting) <==> i in waiting
    ensures |Receipts(waiting)| == |waiting|
    ensures forall k :: 0 <= k < |waiting| ==> Receipts(waiting)[k] == Historic(waiting[k])
  {
    forall i | i in waiting ensures Historic(i) in Receipts(waiting) {
      var k :| 0 <= k < |waiting| && waiting[k] == i;
      assert Receipts(waiting)[k] == Historic(i);
    }
  }

  /** The account of the first n messages, receipts still waiting counted as written. */
  ghost predicate AccountedTo(h: seq<Message>, n: nat, items: seq<Item>)
    requires n <= |h|
  {
    && InOrder(items)
    && (forall i :: 0 <= i < n ==> Accounted(items, h, i))
    && (forall i: nat :: Kept(i) in items || Historic(i) in items ==> i < n)
  }

  function WithWaiting(p: Progress): seq<Item> { p.items + Receipts(p.waiting) }

  lemma TakeItems(p: Progress, m: Message, n: nat)
    ensures var q := Take(p, m, n);
            WithWaiting(q) ==
            if IsInstruction(m) then WithWaiting(p)
            else if m.role == Tool then
              (if m.callId in p.open then p.items + [Kept(n)] + Receipts(p.waiting)
               else p.items + (Receipts(p.waiting) + [Historic(n)]))
            else p.items + Unanswered(p.open) + Receipts(p.waiting) + [Kept(n)]
  {
    assert Receipts([]) == [];
    if m.role == Tool && m.callId !in p.open {
      assert Receipts(p.waiting + [n]) == Receipts(p.waiting) + [Historic(n)];
    }
  }

  lemma {:induction false} RunAccounted(h: seq<Message>, n: nat)
    requires n <= |h|
    ensures AccountedTo(h, n, WithWaiting(Run(h, n)))
  {
    if n == 0 {
      assert WithWaiting(Run(h, 0)) == [];
    } else {
      RunAccounted(h, n - 1);
      RunBounded(h, n - 1);
      TakeItems(Run(h, n - 1), h[n - 1], n - 1);
      AccountStep(h, n);
    }
  }

  /** Adding position n-1, as itself or as a receipt, extends the account when that is what it should become. */
  lemma AccountOne(h: seq<Message>, n: nat, was: seq<Item>, now: seq<Item>, kept: bool, historic: bool)
    requires 0 < n <= |h| && AccountedTo(h, n - 1, was) && InOrder(now)
    requires forall i: nat :: Kept(i) in now <==> Kept(i) in was || (kept && i == n - 1)
    requires forall i: nat :: Historic(i) in now <==> Historic(i) in was || (historic && i == n - 1)
    requires kept <==> IsSpeech(h[n - 1]) || (h[n - 1].role == Tool && Awaiting(h, n - 1, h[n - 1].callId))
    requires historic <==> h[n - 1].role == Tool && !Awaiting(h, n - 1, h[n - 1].callId)
    ensures AccountedTo(h, n, now)
  {
    hide Awaiting, InOrder;
    forall i | 0 <= i < n ensures Accounted(now, h, i) {
      if i < n - 1 { assert Accounted(was, h, i); }
    }
  }

  lemma AccountStep(h: seq<Message>, n: nat)
    requires 0 < n <= |h|
    requires AccountedTo(h, n - 1, WithWaiting(Run(h, n - 1)))
    ensures AccountedTo(h, n, WithWaiting(Run(h, n)))
  {
    hide Run, Take, Awaiting, Accounted, InOrder, Receipts, Unanswered;
    var p, m, at := Run(h, n - 1), h[n - 1], n - 1;
    var was, now, receipts := WithWaiting(p), WithWaiting(Run(h, n)), Receipts(p.waiting);
    RunBounded(h, n - 1);
    RunStep(h, n);
    TakeItems(p, m, at);
    ReceiptsAt(p.waiting);
    OpenIsAwaiting(h, at, m.callId);
    if IsInstruction(m) {
      AccountOne(h, n, was, now, false, false);
    } else if m.role == Tool {
      var answers := m.callId in p.open;
      AppendAt(p.items, receipts, at, answers);
      AccountOne(h, n, was, now, answers, !answers);
    } else {
      AccountSpeech(h, n, p);
    }
  }

  lemma AccountSpeech(h: seq<Message>, n: nat, p: Progress)
    requires 0 < n <= |h| && IsSpeech(h[n - 1])
    requires AccountedTo(h, n - 1, WithWaiting(p))
    ensures AccountedTo(h, n, p.items + Unanswered(p.open) + Receipts(p.waiting) + [Kept(n - 1)])
  {
    hide Awaiting, Accounted, InOrder, Receipts;
    var receipts, at := Receipts(p.waiting), n - 1;
    var mid := p.items + Unanswered(p.open) + receipts;
    AppendInert(p.items, Unanswered(p.open), receipts, h);
    assert mid + [] == mid && mid + [Kept(at)] + [] == mid + [Kept(at)];
    MidBounded(mid, WithWaiting(p), at);
    AppendAt(mid, [], at, true);
    AccountOne(h, n, WithWaiting(p), mid + [Kept(at)], true, false);
  }

  lemma RunStep(h: seq<Message>, n: nat)
    requires 0 < n <= |h|
    ensures Run(h, n) == Take(Run(h, n - 1), h[n - 1], n - 1)
  {
  }

  lemma MidBounded(mid: seq<Item>, was: seq<Item>, n: nat)
    requires forall i: nat :: Kept(i) in mid <==> Kept(i) in was
    requires forall i: nat :: Historic(i) in mid <==> Historic(i) in was
    requires forall i: nat :: Kept(i) in was || Historic(i) in was ==> i < n
    ensures forall k :: 0 <= k < |mid| ==> (mid[k].Kept? || mid[k].Historic?) ==> mid[k].at < n
  {
    forall k | 0 <= k < |mid| && (mid[k].Kept? || mid[k].Historic?) ensures mid[k].at < n {
      assert mid[k] in mid;
      if mid[k].Kept? { assert mid[k] == Kept(mid[k].at); } else { assert mid[k] == Historic(mid[k].at); }
    }
  }

  lemma UnansweredInert(open: map<string, Call>)
    ensures forall k :: 0 <= k < |Unanswered(open)| ==> Unanswered(open)[k].Sealed?
  {
  }

  /**
   Nothing is lost and nothing repeated: every spoken message is kept, every tool message is kept
   exactly when its call was awaiting an answer and otherwise becomes one receipt, only the handoff
   instruction disappears, and both kinds keep their order.
   */
  lemma ReplayLossless(h: seq<Message>)
    ensures InOrder(Items(h))
    ensures forall i :: 0 <= i < |h| ==> Accounted(Items(h), h, i)
  {
    hide Run, Awaiting, Receipts, Unanswered;
    var p := Run(h, |h|);
    RunAccounted(h, |h|);
    UnansweredInert(p.open);
    var sealed := Seal(p).items;
    assert sealed == p.items + Unanswered(p.open) + Receipts(p.waiting);
    AppendInert(p.items, Unanswered(p.open), Receipts(p.waiting), h);
    var cues := CueItems(p.replayed, p.resuming);
    AppendInert(sealed, cues, [], h);
    assert sealed + cues + [] == Items(h) && sealed + [] == sealed;
    forall i | 0 <= i < |h| ensures Accounted(Items(h), h, i) {
      assert Accounted(WithWaiting(p), h, i);
    }
  }

  // ---------- replaying a replay ----------

  predicate HasInstruction(h: seq<Message>) { exists i :: 0 <= i < |h| && IsInstruction(h[i]) }

  /** Legal scanning of a prefix never failed if the whole did not. */
  lemma {:induction false} ScanPrefix(ms: seq<Message>, n: nat)
    requires n <= |ms| && Scan(ms).Some?
    ensures Scan(ms[..n]).Some?
    decreases |ms|
  {
    if n == |ms| {
      assert ms[..n] == ms;
    } else {
      ScanPrefix(ms[..|ms| - 1], n);
      assert ms[..|ms| - 1][..n] == ms[..n];
    }
  }

  lemma NothingUnknown(open: map<string, Call>)
    requires open.Keys == {}
    ensures open == map[] && UnknownResults(open) == []
  {
  }

  /** A legal conversation without the instruction passes through the loop untouched. */
  lemma {:induction false} LegalPassesThrough(task: Body, h: seq<Message>, n: nat)
    requires n <= |h| && Legal(h) && !HasInstruction(h)
    ensures Written(task, h, n) == h[..n] && HeldBack(h, n) == []
    ensures !Run(h, n).resuming && (Run(h, n).replayed <==> n > 0)
  {
    if n == 0 {
      assert Written(task, h, 0) == [] && HeldBack(h, 0) == [] && Run(h, 0) == START;
    } else {
      LegalPassesThrough(task, h, n - 1);
      LegalPassesOne(task, h, n);
    }
  }

  lemma LegalPassesOne(task: Body, h: seq<Message>, n: nat)
    requires 0 < n <= |h| && Legal(h) && !HasInstruction(h)
    requires Written(task, h, n - 1) == h[..n - 1] && HeldBack(h, n - 1) == []
    requires !Run(h, n - 1).resuming && (Run(h, n - 1).replayed <==> n - 1 > 0)
    ensures Written(task, h, n) == h[..n] && HeldBack(h, n) == []
    ensures !Run(h, n).resuming && Run(h, n).replayed
  {
    hide Run, Written, HeldBack, Declare, Scan, UnknownResults;
    WrittenScans(task, h, n - 1);
    ScanPrefix(h, n);
    ScanSnoc(h[..n - 1], h[n - 1]);
    assert h[..n] == h[..n - 1] + [h[n - 1]];
    assert !IsInstruction(h[n - 1]);
    if h[n - 1].role == Tool {
      ReadResult(task, h, n - 1);
      assert h[..n] + [] == h[..n];
      LegalStartsSpoken(h);
    } else {
      ReadSpeech(task, h, n - 1);
      NothingUnknown(Run(h, n - 1).open);
      assert h[..n - 1] + [] + [] + [h[n - 1]] == h[..n];
    }
  }

  lemma LegalStartsSpoken(h: seq<Message>)
    requires Legal(h) && h != []
    ensures h[0].role != Tool
  {
    ScanPrefix(h, 1);
    ScanSnoc([], h[0]);
    assert h[..1] == [] + [h[0]];
  }

  lemma LegalIsFixed(task: Body, h: seq<Message>)
    requires Legal(h) && !HasInstruction(h) && h != []
    ensures Replayed(task, h) == h
  {
    LegalPassesThrough(task, h, |h|);
    WrittenScans(task, h, |h|);
    ReadAll(task, h);
    hide Run, Written, HeldBack, Replayed, Scan;
    assert h[..|h|] == h;
    assert Run(h, |h|).open.Keys == {};
    NothingUnknown(Run(h, |h|).open);
  }

  lemma RunFlags(h: seq<Message>, n: nat)
    requires n < |h|
    ensures Run(h, n + 1).replayed == (Run(h, n).replayed || IsSpeech(h[n]))
    ensures Run(h, n + 1).resuming == (Run(h, n).resuming || IsInstruction(h[n]))
  {
    hide Declare, Receipts, Unanswered;
  }

  lemma RunNothing(h: seq<Message>)
    ensures !Run(h, 0).replayed && !Run(h, 0).resuming && !HasSpeech(h[..0])
  {
  }

  lemma SpeechSnoc(h: seq<Message>, n: nat)
    requires n < |h|
    ensures HasSpeech(h[..n + 1]) <==> HasSpeech(h[..n]) || IsSpeech(h[n])
  {
    if IsSpeech(h[n]) { assert IsSpeech(h[..n + 1][n]); }
    if HasSpeech(h[..n]) {
      var i :| 0 <= i < n && IsSpeech(h[..n][i]);
      assert IsSpeech(h[..n + 1][i]);
    }
    if HasSpeech(h[..n + 1]) && !IsSpeech(h[n]) {
      var i :| 0 <= i < n + 1 && IsSpeech(h[..n + 1][i]);
      assert IsSpeech(h[..n][i]);
    }
  }

  lemma {:induction false} RunReplayed(h: seq<Message>, n: nat)
    requires n <= |h|
    ensures Run(h, n).replayed <==> HasSpeech(h[..n])
  {
    hide Run, HasSpeech;
    RunNothing(h);
    if n > 0 {
      RunReplayed(h, n - 1);
      RunFlags(h, n - 1);
      SpeechSnoc(h, n - 1);
    }
  }

  /** The instruction survives a replay only as the cue with the worker's task. */
  lemma ReplayHasInstruction(task: Body, h: seq<Message>)
    ensures HasInstruction(Replayed(task, h)) <==> task == HANDOFF_INSTRUCTION && !HasSpeech(h)
  {
    var items, out := Items(h), Replayed(task, h);
    ItemsInRange(h);
    ReplayLossless(h);
    RunReplayed(h, |h|);
    assert h[..|h|] == h;
    CueIsLast(h);
    forall k | 0 <= k < |out| ensures IsInstruction(out[k]) <==> items[k] == TaskCue && task == HANDOFF_INSTRUCTION {
      assert out[k] == Render(items[k], task, h);
      assert items[k] in items;
      if items[k].Kept? { assert Accounted(items, h, items[k].at); }
    }
    if !HasSpeech(h) && task == HANDOFF_INSTRUCTION {
      var k :| 0 <= k < |items| && items[k] == TaskCue;
      assert IsInstruction(out[k]);
    }
  }

  lemma CueIsLast(h: seq<Message>)
    ensures TaskCue in Items(h) <==> !Run(h, |h|).replayed
  {
    var p := Run(h, |h|);
    RunBounded(h, |h|);
    SealBounded(p, |h|);
    hide Run, Seal;
    var cues := CueItems(p.replayed, p.resuming);
    assert p.replayed || cues[0] == TaskCue;
  }

  lemma ReplayNotEmpty(task: Body, h: seq<Message>)
    ensures Replayed(task, h) != []
  {
    RunReplayed(h, |h|);
    assert h[..|h|] == h;
    if HasSpeech(h) {
      ReplayLossless(h);
      var i :| 0 <= i < |h| && IsSpeech(h[i]);
      assert Accounted(Items(h), h, i);
      assert Items(h) != [];
    } else {
      CueIsLast(h);
    }
  }

  /**
   Replaying a replay changes nothing exactly when the worker's task is not the handoff instruction, or
   some message of the history was spoken, so that its text was not needed.
   */
  lemma ReplayIdempotent(task: Body, h: seq<Message>)
    ensures Replayed(task, Replayed(task, h)) == Replayed(task, h) <==> task != HANDOFF_INSTRUCTION || HasSpeech(h)
  {
    var out := Replayed(task, h);
    ReplayLegal(task, h);
    ReplayHasInstruction(task, h);
    ReplayNotEmpty(task, h);
    hide Replayed;
    if task != HANDOFF_INSTRUCTION || HasSpeech(h) {
      LegalIsFixed(task, out);
    } else if Replayed(task, out) == out {
      InstructionAlone(task, h);
    }
  }

  lemma {:induction false} RunResuming(h: seq<Message>, n: nat)
    requires n <= |h|
    ensures Run(h, n).resuming <==> exists i :: 0 <= i < n && IsInstruction(h[i])
  {
    hide Run, IsInstruction;
    RunNothing(h);
    if n > 0 {
      RunResuming(h, n - 1);
      RunFlags(h, n - 1);
    }
  }

  /** Any message at all leaves something spoken in the replay. */
  lemma OnlyEmptyIsSilent(task: Body, h: seq<Message>)
    requires h != []
    ensures HasSpeech(Replayed(task, h))
  {
    hide Run, Seal;
    var items, out := Items(h), Replayed(task, h);
    ItemsInRange(h);
    ReplayLossless(h);
    RunResuming(h, |h|);
    assert Accounted(items, h, 0);
    assert !Awaiting(h, 0, h[0].callId);
    var item := if IsSpeech(h[0]) then Kept(0) else if h[0].role == Tool then Historic(0) else ResumeCue;
    var cues := CueItems(Run(h, |h|).replayed, Run(h, |h|).resuming);
    if item == ResumeCue {
      assert IsInstruction(h[0]);
      assert cues[|cues| - 1] == ResumeCue;
      assert ResumeCue in cues;
    }
    assert item in items;
    var k :| 0 <= k < |items| && items[k] == item;
    assert out[k] == Render(item, task, h);
    assert IsSpeech(out[k]);
  }

  /** With the instruction as task and nothing spoken, the second replay reads its own task cue as an instruction. */
  lemma InstructionAlone(task: Body, h: seq<Message>)
    requires task == HANDOFF_INSTRUCTION && !HasSpeech(h)
    ensures Replayed(task, Replayed(task, h)) != Replayed(task, h)
  {
    hide Replayed, Run, Seal, HasSpeech;
    ReplayHasInstruction(task, h);
    ReplayHasInstruction(task, Replayed(task, h));
    if h == [] { EmptyReplay(task); } else { OnlyEmptyIsSilent(task, h); }
  }

  lemma EmptyReplay(task: Body)
    requires task == HANDOFF_INSTRUCTION
    ensures Replayed(task, Replayed(task, [])) != Replayed(task, [])
  {
    var out := Replayed(task, []);
    ReplayHasInstruction(task, []);
    ReplayHasInstruction(task, out);
    ReadAll(task, []);
    assert Run([], 0) == START;
    assert START.open.Keys == {};
    NothingUnknown(START.open);
    assert out == [UserMessage(task)];
    ReadInstruction(task, out, 0);
    ReadAll(task, out);
    assert |Cues(task, false, true)| == 2;
    assert |Replayed(task, out)| >= 2;
  }

  // ---------- how a replay ends, and what its messages say ----------

  /** Some message of the history is the host's own request to hand off. */
  predicate WasAsked(h: seq<Message>) { exists i :: 0 <= i < |h| && h[i].role == User && h[i].content == HANDOFF_INSTRUCTION }

  /** Some message is neither a tool's answer nor that request. */
  predicate WasSpoken(h: seq<Message>) {
    exists i :: 0 <= i < |h| && h[i].role != Tool && !(h[i].role == User && h[i].content == HANDOFF_INSTRUCTION)
  }

  lemma SpokenIs(h: seq<Message>)
    ensures WasSpoken(h) <==> HasSpeech(h)
  {
    if HasSpeech(h) { var i :| 0 <= i < |h| && IsSpeech(h[i]); }
    if i :| 0 <= i < |h| && h[i].role != Tool && !(h[i].role == User && h[i].content == HANDOFF_INSTRUCTION) { assert IsSpeech(h[i]); }
  }

  lemma AskedIs(h: seq<Message>)
    ensures WasAsked(h) <==> exists i :: 0 <= i < |h| && IsInstruction(h[i])
  {
    if i :| 0 <= i < |h| && h[i].role == User && h[i].content == HANDOFF_INSTRUCTION { assert IsInstruction(h[i]); }
  }

  /**
   A replay ends in the cue to resume exactly if the history holds the handoff request, and right before that
   it gives the worker's task exactly if nothing in the history was spoken. Both come once, and everything
   before them comes from the history or answers one of its calls.
   */
  lemma CuesAtTheEnd(task: Body, h: seq<Message>)
    ensures var items, out := Items(h), Replayed(task, h);
            var n := |out| - (if WasAsked(h) then 1 else 0);
            && |items| == |out|
            && (forall k :: 0 <= k < |out| ==> (items[k] == ResumeCue <==> WasAsked(h) && k == |out| - 1))
            && (forall k :: 0 <= k < |out| ==> (items[k] == TaskCue <==> !WasSpoken(h) && k == n - 1))
            && (WasAsked(h) ==> out != [] && out[|out| - 1] == UserMessage(RESUME_CUE))
            && (!WasSpoken(h) ==> n > 0 && out[n - 1] == UserMessage(task))
  {
    var p := Run(h, |h|);
    SpokenIs(h);
    AskedIs(h);
    RunReplayed(h, |h|);
    RunResuming(h, |h|);
    assert h[..|h|] == h;
    RunBounded(h, |h|);
    SealBounded(p, |h|);
    ItemsInRange(h);
    hide Run, Seal, HasSpeech, WasAsked, WasSpoken;
    var sealed, cues := Seal(p).items, CueItems(p.replayed, p.resuming);
    assert forall k :: 0 <= k < |sealed| ==> Before(sealed[k], |h|);
    assert Items(h) == sealed + cues;
  }

  /** A tool message whose call is not known any more stays readable: who called, which tool, and what it said. */
  lemma ReceiptsTellTheirMessage(task: Body, h: seq<Message>, i: nat)
    requires i < |h| && h[i].role == Tool && !Awaiting(h, i, h[i].callId)
    ensures exists k :: 0 <= k < |Replayed(task, h)| && Items(h)[k] == Historic(i)
              && Replayed(task, h)[k].role == User && Replayed(task, h)[k].runtime && Replayed(task, h)[k].calls == []
              && Replayed(task, h)[k].content == Receipt(h[i].callId, h[i].toolName, h[i].content)
  {
    hide Run, Seal, Awaiting;
    ItemsInRange(h);
    ReplayLossless(h);
    assert Accounted(Items(h), h, i);
    var k :| 0 <= k < |Items(h)| && Items(h)[k] == Historic(i);
    assert Replayed(task, h)[k] == Render(Items(h)[k], task, h);
  }

  /** The item answers the last call declared under its id in this list, with that call's name. */
  predicate Answers(item: Item, calls: seq<Call>)
    requires item.Sealed?
  {
    exists c :: 0 <= c < |calls| && calls[c].id == item.id && calls[c].name == item.name && forall d :: c < d < |calls| ==> calls[d].id != item.id
  }

  predicate AnswersACall(item: Item, h: seq<Message>) {
    item.Sealed? ==> exists j :: 0 <= j < |h| && IsSpeech(h[j]) && Answers(item, h[j].calls)
  }

  /** The loop's open map holds calls of the last spoken message, under their own ids, the later of two with one id. */
  predicate OpenFrom(open: map<string, Call>, calls: seq<Call>) {
    forall id :: id in open ==> exists c :: 0 <= c < |calls| && calls[c].id == id && calls[c] == open[id]
                                            && forall d :: c < d < |calls| ==> calls[d].id != id
  }

  lemma {:induction false} DeclaresLast(calls: seq<Call>)
    ensures OpenFrom(Declare(calls), calls)
    decreases |calls|
  {
    if calls != [] {
      var n := |calls| - 1;
      DeclaresLast(calls[..n]);
      forall id | id in Declare(calls)
        ensures exists c :: 0 <= c < |calls| && calls[c].id == id && calls[c] == Declare(calls)[id]
                            && forall d :: c < d < |calls| ==> calls[d].id != id
      {
        if id == calls[n].id {
          assert calls[n] == Declare(calls)[id];
        } else {
          var c :| 0 <= c < n && calls[..n][c].id == id && calls[..n][c] == Declare(calls[..n])[id]
                   && forall d :: c < d < n ==> calls[..n][d].id != id;
          assert forall d :: c < d < n ==> calls[d].id == calls[..n][d].id;
          assert calls[c] == Declare(calls)[id];
        }
      }
    }
  }

  predicate OpenFromSpeech(open: map<string, Call>, h: seq<Message>) {
    open == map[] || exists j :: 0 <= j < |h| && IsSpeech(h[j]) && OpenFrom(open, h[j].calls)
  }

  ghost predicate AllAnswerCalls(items: seq<Item>, h: seq<Message>) {
    forall k :: 0 <= k < |items| ==> AnswersACall(items[k], h)
  }

  lemma UnansweredAnswer(open: map<string, Call>, h: seq<Message>)
    requires OpenFromSpeech(open, h)
    ensures AllAnswerCalls(Unanswered(open), h)
  {
    var items := Unanswered(open);
    forall k | 0 <= k < |items| ensures AnswersACall(items[k], h) {
      assert items[k].id in open;
      var j :| 0 <= j < |h| && IsSpeech(h[j]) && OpenFrom(open, h[j].calls);
      assert Answers(items[k], h[j].calls);
    }
  }

  lemma SealAnswers(p: Progress, h: seq<Message>)
    requires AllAnswerCalls(p.items, h) && OpenFromSpeech(p.open, h)
    ensures AllAnswerCalls(Seal(p).items, h)
  {
    hide OpenFromSpeech, Unanswered, AnswersACall;
    UnansweredAnswer(p.open, h);
    ReceiptsAnswer(p.waiting, h);
    assert Seal(p).items == p.items + Unanswered(p.open) + Receipts(p.waiting);
  }

  lemma ReceiptsAnswer(waiting: seq<nat>, h: seq<Message>)
    ensures AllAnswerCalls(Receipts(waiting), h)
  {
  }

  lemma TakeAnswers(p: Progress, h: seq<Message>, at: nat)
    requires at < |h| && AllAnswerCalls(p.items, h) && OpenFromSpeech(p.open, h)
    ensures AllAnswerCalls(Take(p, h[at], at).items, h) && OpenFromSpeech(Take(p, h[at], at).open, h)
  {
    hide OpenFromSpeech, TakeResult, TakeSpeech;
    if h[at].role == Tool { ResultAnswers(p, h, at); }
    if IsSpeech(h[at]) { SpeechAnswers(p, h, at); }
  }

  lemma ResultAnswers(p: Progress, h: seq<Message>, at: nat)
    requires at < |h| && AllAnswerCalls(p.items, h) && OpenFromSpeech(p.open, h)
    ensures AllAnswerCalls(TakeResult(p, h[at], at).items, h) && OpenFromSpeech(TakeResult(p, h[at], at).open, h)
  {
    hide OpenFromSpeech, Receipts;
    assert AnswersACall(Kept(at), h);
    hide AnswersACall;
    ReceiptsAnswer(p.waiting, h);
    ReceiptsAnswer(p.waiting + [at], h);
    FewerOpen(p.open, h[at].callId, h);
  }

  lemma SpeechAnswers(p: Progress, h: seq<Message>, at: nat)
    requires at < |h| && IsSpeech(h[at]) && AllAnswerCalls(p.items, h) && OpenFromSpeech(p.open, h)
    ensures AllAnswerCalls(TakeSpeech(p, h[at], at).items, h) && OpenFromSpeech(TakeSpeech(p, h[at], at).open, h)
  {
    hide OpenFromSpeech, Seal, OpenFrom, Answers;
    SealAnswers(p, h);
    DeclaresLast(h[at].calls);
    SpeechOpens(h, at);
  }

  lemma FewerOpen(open: map<string, Call>, id: string, h: seq<Message>)
    requires OpenFromSpeech(open, h)
    ensures OpenFromSpeech(open - {id}, h)
  {
    if open != map[] {
      var j :| 0 <= j < |h| && IsSpeech(h[j]) && OpenFrom(open, h[j].calls);
      assert OpenFrom(open - {id}, h[j].calls);
    }
  }

  lemma SpeechOpens(h: seq<Message>, at: nat)
    requires at < |h| && IsSpeech(h[at]) && OpenFrom(Declare(h[at].calls), h[at].calls)
    ensures OpenFromSpeech(Declare(h[at].calls), h)
  {
  }

  lemma {:induction false} RunAnswers(h: seq<Message>, n: nat)
    requires n <= |h|
    ensures AllAnswerCalls(Run(h, n).items, h) && OpenFromSpeech(Run(h, n).open, h)
  {
    hide Take, AllAnswerCalls, OpenFromSpeech;
    if n == 0 {
      NothingAnswered(h);
    } else {
      RunAnswers(h, n - 1);
      TakeAnswers(Run(h, n - 1), h, n - 1);
    }
  }

  lemma NothingAnswered(h: seq<Message>)
    ensures AllAnswerCalls(START.items, h) && OpenFromSpeech(START.open, h)
  {
  }

  /**
   Every message of a replay is one of the history's, a receipt of one, one of the two cues, or the unknown
   outcome of a call the history declares: under that call's id, with the name its last declaration gives it.
   */
  lemma InventedAnswersNameTheirCall(task: Body, h: seq<Message>, k: nat)
    requires k < |Replayed(task, h)| && Items(h)[k].Sealed?
    ensures var m := Replayed(task, h)[k];
            && m.role == Tool && m.content == UNKNOWN_OUTCOME && m.calls == []
            && exists j, c :: 0 <= j < |h| && IsSpeech(h[j]) && 0 <= c < |h[j].calls| && h[j].calls[c].id == m.callId
                 && h[j].calls[c].name == m.toolName && forall d :: c < d < |h[j].calls| ==> h[j].calls[d].id != m.callId
  {
    var p := Run(h, |h|);
    RunAnswers(h, |h|);
    SealAnswers(p, h);
    ItemsInRange(h);
    hide Run, Seal;
    var cues := CueItems(p.replayed, p.resuming);
    assert Items(h) == Seal(p).items + cues;
    var item := Items(h)[k];
    assert AnswersACall(item, h);
    var j :| 0 <= j < |h| && IsSpeech(h[j]) && Answers(item, h[j].calls);
    assert Replayed(task, h)[k] == Render(item, task, h);
  }
}
