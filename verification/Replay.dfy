/**
 Turning a worker's saved conversation back into a legal tool-call conversation (handoff.go).

 Items is what the loop of restoredWorkerMessages builds, message by message, remembering
 where each output message came from; Replay renders it. Legal is the protocol the host model
 demands, stated by itself. The theorems say the replay is legal for every history, loses
 nothing, answers exactly the calls that were answered, and is a fixed point of itself.
 */
module Replay {
  import opened Common
  import opened Order

  datatype Role = User | Assistant | System | Tool

  /** Message text. A historical receipt is the JSON object the source builds from a tool message. */
  datatype Body = Text(text: string) | Receipt(callId: string, toolName: string, content: Body)

  datatype Call = Call(id: string, name: string, arguments: string)

  /** runtime marks a message the host produced itself; rest stands for the remaining fields. */
  datatype Message = Message(role: Role, content: Body, callId: string, toolName: string,
                             calls: seq<Call>, runtime: bool, rest: string)

  // The host's fixed texts, by their opening words.
  const HANDOFF_INSTRUCTION := Text("The host is restarting.")
  const UNKNOWN_OUTCOME := Text("outcome_unknown")
  const RESUME_CUE := Text("The host has restarted.")

  function UserMessage(content: Body): Message {
    Message(User, content, "", "", [], false, "")
  }

  function ToolMessage(content: Body, callId: string, toolName: string): Message {
    Message(Tool, content, callId, toolName, [], false, "")
  }

  /** The answer seal gives a call nobody answered. */
  function UnknownResult(id: string, name: string): Message { ToolMessage(UNKNOWN_OUTCOME, id, name) }

  function HistoricalToolResult(m: Message): Message {
    UserMessage(Receipt(m.callId, m.toolName, m.content)).(runtime := true)
  }

  /** cloneMessages: a copy without the nil entries. */
  function CloneMessages(ms: seq<Option<Message>>): (out: seq<Message>)
    ensures forall m :: m in out <==> Some(m) in ms
  {
    if ms == [] then []
    else if ms[0].None? then CloneMessages(ms[1..])
    else [ms[0].value] + CloneMessages(ms[1..])
  }

  /** The messages that are not nil. */
  function Present(ms: seq<Option<Message>>): nat {
    if ms == [] then 0 else (if ms[0].Some? then 1 else 0) + Present(ms[1..])
  }

  lemma {:induction false} ClonesAt(a: seq<Option<Message>>, i: nat)
    requires i < |a| && a[i].Some?
    ensures Present(a[..i]) < |CloneMessages(a)| && CloneMessages(a)[Present(a[..i])] == a[i].value
    decreases i
  {
    if i > 0 {
      ClonesAt(a[1..], i - 1);
      assert a[..i][1..] == a[1..][..i - 1];
    }
  }

  lemma {:induction false} ClonesCount(a: seq<Option<Message>>)
    ensures |CloneMessages(a)| == Present(a)
  {
    if a != [] { ClonesCount(a[1..]); }
  }

  /**
   The copy is the messages that are not nil, each as often as it occurs and in their order: there are as
   many, and an entry that is not nil lands at the place the entries before it leave it.
   */
  lemma ClonesInOrder(a: seq<Option<Message>>)
    ensures |CloneMessages(a)| == Present(a)
    ensures forall i :: 0 <= i < |a| && a[i].Some? ==>
              Present(a[..i]) < |CloneMessages(a)| && CloneMessages(a)[Present(a[..i])] == a[i].value
  {
    hide CloneMessages, Present;
    ClonesCount(a);
    forall i | 0 <= i < |a| && a[i].Some?
      ensures Present(a[..i]) < |CloneMessages(a)| && CloneMessages(a)[Present(a[..i])] == a[i].value
    {
      ClonesAt(a, i);
    }
  }

  predicate IsInstruction(m: Message) { m.role == User && m.content == HANDOFF_INSTRUCTION }

  /** A message the replay carries over as itself and lets declare calls. */
  predicate IsSpeech(m: Message) { m.role != Tool && !IsInstruction(m) }

  predicate HasSpeech(h: seq<Message>) { exists i :: 0 <= i < |h| && IsSpeech(h[i]) }

  // ---------- provenance of the output ----------

  /** Where an output message comes from; positions index the input history. */
  datatype Item =
    | Kept(at: nat)
    | Historic(at: nat)
    | Sealed(id: string, name: string)
    | TaskCue
    | ResumeCue

  predicate InRange(item: Item, h: seq<Message>) {
    (item.Kept? || item.Historic?) ==> item.at < |h|
  }

  function Render(item: Item, task: Body, h: seq<Message>): Message
    requires InRange(item, h)
  {
    match item
    case Kept(i) => h[i]
    case Historic(i) => HistoricalToolResult(h[i])
    case Sealed(id, name) => UnknownResult(id, name)
    case TaskCue => UserMessage(task)
    case ResumeCue => UserMessage(RESUME_CUE)
  }

  predicate AllInRange(items: seq<Item>, h: seq<Message>) {
    forall k :: 0 <= k < |items| ==> InRange(items[k], h)
  }

  function RenderAll(items: seq<Item>, task: Body, h: seq<Message>): (out: seq<Message>)
    requires AllInRange(items, h)
    ensures |out| == |items|
    ensures forall k :: 0 <= k < |out| ==> out[k] == Render(items[k], task, h)
  {
    seq(|items|, k requires 0 <= k < |items| => Render(items[k], task, h))
  }

  // ---------- the loop, as a fold ----------

  /** open: calls declared and not answered. waiting: receipts held back until they are. */
  datatype Progress = Progress(items: seq<Item>, open: map<string, Call>, waiting: seq<nat>, resuming: bool, replayed: bool)

  const START := Progress([], map[], [], false, false)

  function Receipts(waiting: seq<nat>): seq<Item> {
    seq(|waiting|, k requires 0 <= k < |waiting| => Historic(waiting[k]))
  }

  function Unanswered(open: map<string, Call>): seq<Item> {
    var ids := Ordered(open.Keys);
    seq(|ids|, k requires 0 <= k < |ids| => assert ids[k] in ids; Sealed(ids[k], open[ids[k]].name))
  }

  function Flush(p: Progress): Progress {
    p.(items := p.items + Receipts(p.waiting), waiting := [])
  }

  function Seal(p: Progress): Progress {
    Flush(p.(items := p.items + Unanswered(p.open), open := map[]))
  }

  /** Later calls with a repeated id replace earlier ones, as assignments to the source's map do. */
  function Declare(calls: seq<Call>): map<string, Call>
    decreases |calls|
  {
    if calls == [] then map[]
    else
      var last := calls[|calls| - 1];
      Declare(calls[..|calls| - 1])[last.id := last]
  }

  function TakeResult(p: Progress, m: Message, at: nat): Progress {
    var q := if m.callId in p.open
             then p.(items := p.items + [Kept(at)], open := p.open - {m.callId})
             else p.(waiting := p.waiting + [at]);
    if q.open == map[] then Flush(q) else q
  }

  function TakeSpeech(p: Progress, m: Message, at: nat): Progress {
    var q := Seal(p);
    q.(items := q.items + [Kept(at)], open := Declare(m.calls), replayed := true)
  }

  function Take(p: Progress, m: Message, at: nat): Progress {
    if IsInstruction(m) then p.(resuming := true)
    else if m.role == Tool then TakeResult(p, m, at)
    else TakeSpeech(p, m, at)
  }

  function Run(h: seq<Message>, n: nat): Progress
    requires n <= |h|
  {
    if n == 0 then START else Take(Run(h, n - 1), h[n - 1], n - 1)
  }

  function CueItems(replayed: bool, resuming: bool): seq<Item> {
    (if replayed then [] else [TaskCue]) + (if resuming then [ResumeCue] else [])
  }

  function Items(h: seq<Message>): seq<Item> {
    var p := Run(h, |h|);
    Seal(p).items + CueItems(p.replayed, p.resuming)
  }

  /** Written by the loop alone, from the first n messages. */
  predicate Before(item: Item, n: nat) {
    match item
    case Kept(i) => i < n
    case Historic(i) => i < n
    case Sealed(_, _) => true
    case TaskCue => false
    case ResumeCue => false
  }

  ghost predicate Bounded(p: Progress, n: nat) {
    && (forall k :: 0 <= k < |p.items| ==> Before(p.items[k], n))
    && (forall k :: 0 <= k < |p.waiting| ==> p.waiting[k] < n)
  }

  lemma SealBounded(p: Progress, n: nat)
    requires Bounded(p, n)
    ensures Bounded(Seal(p), n)
  {
    var mid := p.items + Unanswered(p.open);
    assert forall k :: 0 <= k < |mid| ==> Before(mid[k], n);
  }

  lemma FlushBounded(p: Progress, n: nat)
    requires Bounded(p, n)
    ensures Bounded(Flush(p), n)
  {
  }

  lemma KeptBounded(p: Progress, n: nat)
    requires Bounded(p, n)
    ensures Bounded(p.(items := p.items + [Kept(n)]), n + 1)
    ensures Bounded(p.(waiting := p.waiting + [n]), n + 1)
  {
  }

  lemma TakeBounded(p: Progress, m: Message, n: nat)
    requires Bounded(p, n)
    ensures Bounded(Take(p, m, n), n + 1)
  {
    if m.role == Tool {
      KeptBounded(p, n);
      var q := if m.callId in p.open
               then p.(items := p.items + [Kept(n)], open := p.open - {m.callId})
               else p.(waiting := p.waiting + [n]);
      FlushBounded(q, n + 1);
    } else if !IsInstruction(m) {
      SealBounded(p, n);
      KeptBounded(Seal(p), n);
    }
  }

  lemma {:induction false} RunBounded(h: seq<Message>, n: nat)
    requires n <= |h|
    ensures Bounded(Run(h, n), n)
  {
    if n > 0 {
      hide Take;
      hide Bounded;
      RunBounded(h, n - 1);
      TakeBounded(Run(h, n - 1), h[n - 1], n - 1);
    }
  }

  lemma ItemsInRange(h: seq<Message>)
    ensures AllInRange(Items(h), h)
  {
    hide Run, Seal;
    RunBounded(h, |h|);
    SealBounded(Run(h, |h|), |h|);
  }

  function Replayed(task: Body, h: seq<Message>): seq<Message> {
    ItemsInRange(h);
    RenderAll(Items(h), task, h)
  }

  // ---------- the loop itself ----------

  function UnknownResults(open: map<string, Call>): seq<Message> {
    var ids := Ordered(open.Keys);
    seq(|ids|, k requires 0 <= k < |ids| => assert ids[k] in ids; UnknownResult(ids[k], open[ids[k]].name))
  }

  function ReceiptMessages(waiting: seq<nat>, h: seq<Message>): seq<Message>
    requires forall k :: 0 <= k < |waiting| ==> waiting[k] < |h|
  {
    seq(|waiting|, k requires 0 <= k < |waiting| => HistoricalToolResult(h[waiting[k]]))
  }

  lemma RenderAppend(a: seq<Item>, b: seq<Item>, task: Body, h: seq<Message>)
    requires AllInRange(a, h) && AllInRange(b, h)
    ensures AllInRange(a + b, h)
    ensures RenderAll(a + b, task, h) == RenderAll(a, task, h) + RenderAll(b, task, h)
  {
  }

  lemma RenderReceipts(waiting: seq<nat>, task: Body, h: seq<Message>)
    requires forall k :: 0 <= k < |waiting| ==> waiting[k] < |h|
    ensures AllInRange(Receipts(waiting), h)
    ensures RenderAll(Receipts(waiting), task, h) == ReceiptMessages(waiting, h)
  {
  }

  lemma RenderUnanswered(open: map<string, Call>, task: Body, h: seq<Message>)
    ensures AllInRange(Unanswered(open), h)
    ensures RenderAll(Unanswered(open), task, h) == UnknownResults(open)
  {
  }

  lemma RenderFlush(p: Progress, task: Body, h: seq<Message>)
    requires Bounded(p, |h|)
    ensures AllInRange(Flush(p).items, h) && AllInRange(p.items, h)
    ensures RenderAll(Flush(p).items, task, h) == RenderAll(p.items, task, h) + ReceiptMessages(p.waiting, h)
    ensures Flush(p).waiting == [] && Flush(p).open == p.open && Bounded(Flush(p), |h|)
  {
    RenderReceipts(p.waiting, task, h);
    RenderAppend(p.items, Receipts(p.waiting), task, h);
  }

  lemma RenderSeal(p: Progress, task: Body, h: seq<Message>)
    requires Bounded(p, |h|)
    ensures AllInRange(Seal(p).items, h) && AllInRange(p.items, h)
    ensures RenderAll(Seal(p).items, task, h)
            == RenderAll(p.items, task, h) + UnknownResults(p.open) + ReceiptMessages(p.waiting, h)
  {
    RenderUnanswered(p.open, task, h);
    RenderAppend(p.items, Unanswered(p.open), task, h);
    var q := p.(items := p.items + Unanswered(p.open), open := map[]);
    RenderFlush(q, task, h);
  }

  lemma RenderOne(items: seq<Item>, item: Item, task: Body, h: seq<Message>)
    requires AllInRange(items, h) && InRange(item, h)
    ensures AllInRange(items + [item], h)
    ensures RenderAll(items + [item], task, h) == RenderAll(items, task, h) + [Render(item, task, h)]
  {
    RenderAppend(items, [item], task, h);
  }

  lemma UnknownResultsAt(open: map<string, Call>)
    ensures var ids, results := Ordered(open.Keys), UnknownResults(open);
            && |results| == |ids|
            && (forall k :: 0 <= k < |ids| ==> ids[k] in open && results[k] == UnknownResult(ids[k], open[ids[k]].name))
  {
    var ids := Ordered(open.Keys);
    forall k | 0 <= k < |ids| ensures ids[k] in open { assert ids[k] in ids; }
  }

  /** seal of the source: unknown outcomes in id order, then the receipts held back. */
  method SealOpen(msgs: seq<Message>, open: map<string, Call>, receipts: seq<Message>) returns (out: seq<Message>)
    ensures out == msgs + UnknownResults(open) + receipts
  {
    hide UnknownResults, UnknownResult, Ordered;
    var ids := Ordered(open.Keys);
    ghost var results := UnknownResults(open);
    UnknownResultsAt(open);
    out := msgs;
    for k := 0 to |ids|
      invariant out == msgs + results[..k]
    {
      out := out + [UnknownResult(ids[k], open[ids[k]].name)];
      assert results[..k + 1] == results[..k] + [results[k]];
    }
    assert results[..|ids|] == results;
    out := out + receipts;
  }

  /** One tool message at message level: kept or set aside, and everything set aside released once nothing is open. */
  lemma RenderResult(p: Progress, n: nat, task: Body, h: seq<Message>)
    requires n < |h| && Bounded(p, n) && h[n].role == Tool
    ensures var q := TakeResult(p, h[n], n);
            var answers := h[n].callId in p.open;
            var msgs := RenderAll(p.items, task, h) + (if answers then [h[n]] else []);
            var receipts := ReceiptMessages(p.waiting, h) + (if answers then [] else [HistoricalToolResult(h[n])]);
            && Bounded(q, n + 1)
            && q.open == p.open - (if answers then {h[n].callId} else {})
            && RenderAll(q.items, task, h) == (if q.open == map[] then msgs + receipts else msgs)
            && ReceiptMessages(q.waiting, h) == (if q.open == map[] then [] else receipts)
  {
    hide Flush, RenderAll, HistoricalToolResult;
    var q := if h[n].callId in p.open
             then p.(items := p.items + [Kept(n)], open := p.open - {h[n].callId})
             else p.(waiting := p.waiting + [n]);
    TakeBounded(p, h[n], n);
    KeptBounded(p, n);
    RenderFlush(q, task, h);
    if h[n].callId in p.open {
      RenderOne(p.items, Kept(n), task, h);
      assert ReceiptMessages(p.waiting, h) + [] == ReceiptMessages(p.waiting, h);
    } else {
      assert ReceiptMessages(p.waiting + [n], h) == ReceiptMessages(p.waiting, h) + [HistoricalToolResult(h[n])];
      assert RenderAll(p.items, task, h) + [] == RenderAll(p.items, task, h);
    }
  }

  lemma RenderSpeech(p: Progress, n: nat, task: Body, h: seq<Message>)
    requires n < |h| && Bounded(p, n) && IsSpeech(h[n])
    ensures var q := TakeSpeech(p, h[n], n);
            && Bounded(q, n + 1)
            && q.waiting == []
            && RenderAll(q.items, task, h)
               == RenderAll(p.items, task, h) + UnknownResults(p.open) + ReceiptMessages(p.waiting, h) + [h[n]]
  {
    TakeBounded(p, h[n], n);
    SealBounded(p, n);
    RenderSeal(p, task, h);
    RenderOne(Seal(p).items, Kept(n), task, h);
  }

  /** The messages written, and the receipts held back, once the first n messages are read. */
  function Written(task: Body, h: seq<Message>, n: nat): seq<Message>
    requires n <= |h|
  {
    RunBounded(h, n);
    RenderAll(Run(h, n).items, task, h)
  }

  function HeldBack(h: seq<Message>, n: nat): seq<Message>
    requires n <= |h|
  {
    RunBounded(h, n);
    ReceiptMessages(Run(h, n).waiting, h)
  }

  lemma ReadInstruction(task: Body, h: seq<Message>, n: nat)
    requires n < |h| && IsInstruction(h[n])
    ensures Run(h, n + 1) == Run(h, n).(resuming := true)
    ensures Written(task, h, n + 1) == Written(task, h, n) && HeldBack(h, n + 1) == HeldBack(h, n)
  {
  }

  lemma ReadResult(task: Body, h: seq<Message>, n: nat)
    requires n < |h| && h[n].role == Tool
    ensures var p, q := Run(h, n), Run(h, n + 1);
            var answers := h[n].callId in p.open;
            var msgs := if answers then Written(task, h, n) + [h[n]] else Written(task, h, n);
            var receipts := if answers then HeldBack(h, n) else HeldBack(h, n) + [HistoricalToolResult(h[n])];
            && q.open == (if answers then p.open - {h[n].callId} else p.open)
            && q.resuming == p.resuming && q.replayed == p.replayed
            && Written(task, h, n + 1) == (if q.open == map[] then msgs + receipts else msgs)
            && HeldBack(h, n + 1) == (if q.open == map[] then [] else receipts)
  {
    RunBounded(h, n);
    RenderResult(Run(h, n), n, task, h);
    assert forall ms: seq<Message> :: ms + [] == ms;
  }

  lemma ReadSpeech(task: Body, h: seq<Message>, n: nat)
    requires n < |h| && IsSpeech(h[n])
    ensures var p, q := Run(h, n), Run(h, n + 1);
            && q.open == Declare(h[n].calls) && q.resuming == p.resuming && q.replayed
            && Written(task, h, n + 1) == Written(task, h, n) + UnknownResults(p.open) + HeldBack(h, n) + [h[n]]
            && HeldBack(h, n + 1) == []
  {
    RunBounded(h, n);
    RenderSpeech(Run(h, n), n, task, h);
  }

  function Cues(task: Body, replayed: bool, resuming: bool): seq<Message> {
    (if replayed then [] else [UserMessage(task)]) + (if resuming then [UserMessage(RESUME_CUE)] else [])
  }

  lemma RenderCues(sealed: seq<Item>, replayed: bool, resuming: bool, task: Body, h: seq<Message>)
    requires AllInRange(sealed, h)
    ensures AllInRange(sealed + CueItems(replayed, resuming), h)
    ensures RenderAll(sealed + CueItems(replayed, resuming), task, h)
            == RenderAll(sealed, task, h) + Cues(task, replayed, resuming)
  {
    RenderAppend(sealed, CueItems(replayed, resuming), task, h);
  }

  lemma ReadAll(task: Body, h: seq<Message>)
    ensures var p := Run(h, |h|);
            Replayed(task, h) == Written(task, h, |h|) + UnknownResults(p.open) + HeldBack(h, |h|)
                               + Cues(task, p.replayed, p.resuming)
  {
    var p := Run(h, |h|);
    RunBounded(h, |h|);
    RenderSeal(p, task, h);
    RenderCues(Seal(p).items, p.replayed, p.resuming, task, h);
    hide Seal, Run, Cues, CueItems, UnknownResults, Bounded;
  }

  lemma NothingWritten(task: Body, h: seq<Message>)
    ensures Written(task, h, 0) == [] && HeldBack(h, 0) == [] && Run(h, 0) == START
  {
  }

  method RestoredWorkerMessages(task: Body, history: seq<Option<Message>>) returns (msgs: seq<Message>)
    ensures msgs == Replayed(task, CloneMessages(history))
  {
    hide Run, Written, HeldBack, UnknownResults, Replayed, Declare, Ordered, CloneMessages;
    var h := CloneMessages(history);
    var resuming, replayed := false, false;
    var open: map<string, Call> := map[];
    var receipts: seq<Message> := [];
    msgs := [];
    NothingWritten(task, h);
    for n := 0 to |h|
      invariant resuming == Run(h, n).resuming && replayed == Run(h, n).replayed && open == Run(h, n).open
      invariant msgs == Written(task, h, n)
      invariant receipts == HeldBack(h, n)
    {
      var m := h[n];
      if m.role == User && m.content == HANDOFF_INSTRUCTION {
        ReadInstruction(task, h, n);
        resuming := true;
      } else if m.role == Tool {
        ReadResult(task, h, n);
        if m.callId in open {
          msgs := msgs + [m];
          open := open - {m.callId};
        } else {
          receipts := receipts + [HistoricalToolResult(m)];
        }
        if open == map[] {
          msgs := msgs + receipts;
          receipts := [];
        }
      } else {
        ReadSpeech(task, h, n);
        msgs := SealOpen(msgs, open, receipts);
        receipts := [];
        msgs := msgs + [m];
        replayed := true;
        open := DeclareCalls(m.calls);
      }
    }
    ReadAll(task, h);
    msgs := SealOpen(msgs, open, receipts);
    ghost var sealed := msgs;
    if !replayed { msgs := msgs + [UserMessage(task)]; }
    if resuming { msgs := msgs + [UserMessage(RESUME_CUE)]; }
    assert msgs == sealed + Cues(task, replayed, resuming);
  }

  method DeclareCalls(calls: seq<Call>) returns (open: map<string, Call>)
    ensures open == Declare(calls)
  {
    open := map[];
    for c := 0 to |calls|
      invariant open == Declare(calls[..c])
    {
      assert calls[..c + 1][..c] == calls[..c];
      open := open[calls[c].id := calls[c]];
    }
    assert calls[..|calls|] == calls;
  }
}
