/**
 The registry and its handles as objects (swarm.go, settlement.go, delegation.go, resume.go, spawn.go,
 gate.go, restore.go, worker.go). Every public method is one lock-held section of the source, in its own
 form, and is proved to take the value View() where the function of the same purpose in Lifecycle takes
 it. The theorems about whole runs are about those functions.
 */
module Registry {
  import opened Common
  import opened Order
  import opened WorkerId
  import opened ToolScope
  import opened Handoff
  import opened Lifecycle
  import Replay
  import PendingWait
  import RoleLock
  import Runs
  import Closing
  import Delegation

  class Handle {
    ghost const ref: nat   // its position among all handles ever made
    const id: string
    const role: string
    const parent: string
    var gen: int
    var finished: bool     // finished is set
    var done: bool         // the done channel of this generation is closed
    var collected: bool
    var closeRequested: bool
    var cancel: Option<nat>
    var timeouts: nat
    var tools: Option<seq<string>>
    var result: string
    var err: WorkerError
    var work: Work
    var spawned: nat       // when this generation was made

    constructor (ghost ref: nat, v: Lifecycle.Handle, now: nat)
      ensures Is(v) && this.ref == ref && spawned == now
    {
      this.ref, spawned := ref, now;
      id, role, parent := v.id, v.role, v.parent;
      gen, finished, done := v.gen, v.phase != Live, v.phase == Done;
      collected, closeRequested, cancel, timeouts := v.collected, v.closeRequested, v.cancel, v.timeouts;
      tools, result, err, work := v.tools, v.result, v.err, v.work;
    }

    /** The fields hold this value; its phase says how far the goroutine's deferred effects went. */
    ghost predicate Is(v: Lifecycle.Handle)
      reads this
    {
      && id == v.id && role == v.role && parent == v.parent && gen == v.gen
      && finished == (v.phase != Live) && done == (v.phase == Done)
      && collected == v.collected && closeRequested == v.closeRequested && cancel == v.cancel && timeouts == v.timeouts
      && tools == v.tools && result == v.result && err == v.err && work == v.work
    }

    method Settle(collected: bool, closeRequested: bool, ghost v: Lifecycle.Handle)
      requires Is(v)
      modifies this
      ensures Is(v.(collected := collected, closeRequested := closeRequested))
    {
      this.collected, this.closeRequested := collected, closeRequested;
    }

    method ResetForResume(now: nat, ghost v: Lifecycle.Handle)
      requires Is(v)
      modifies this
      ensures Is(Reset(v)) && spawned == now
    {
      spawned := now;
      done := false;
      gen := gen + 1;
      collected, closeRequested := false, false;
      err, result, finished := NoError, "", false;
      cancel := None;
      work := work.(handoff := NO_HANDOFF);
    }

    /** ran: the run's own error, if any; watchdog: the watchdog fired and nobody cancelled the run. */
    method CompleteWorker(result: string, ran: Outcome, ghost v: Lifecycle.Handle)
      requires Is(v) && v.phase == Live
      modifies this
      ensures Is(Complete(v, ran, result))
    {
      finished := true;
      if work.handoff.cancelled || (work.handoff.read && ran == Succeeded) {
        this.result, err := "", HandoffError;
        return;
      }
      this.result := result;
      if ran.Failed? && ran.watchdog {
        timeouts := timeouts + 1;
        err := TimeoutError;
      } else {
        if ran == Succeeded || !work.handoff.requested { timeouts := 0; }
        err := if ran == Succeeded then NoError else RunError;
      }
    }

    method RequestHandoff(ghost v: Lifecycle.Handle)
      requires Is(v)
      modifies this
      ensures Is(Requested(v))
    {
      if !finished { work := work.(handoff := work.handoff.(requested := true)); }
    }

    method ForgiveTimeouts(ghost v: Lifecycle.Handle)
      requires Is(v)
      modifies this
      ensures Is(Forgiven(v))
    {
      timeouts := 0;
    }

    method CloseUnlessDone(ghost v: Lifecycle.Handle)
      requires Is(v)
      modifies this
      ensures Is(ClosingUnlessDone(v))
    {
      if !done { closeRequested := true; }
    }

    /** startWorker's locked part: the new run context is born cancelled if the generation was told to stop. */
    method InstallCancel(c: nat, ghost v: Lifecycle.Handle) returns (cancelled: bool)
      requires Is(v)
      modifies this
      ensures Is(v.(cancel := Some(c))) && cancelled == (v.work.handoff.cancelled || v.closeRequested)
    {
      cancel := Some(c);
      cancelled := work.handoff.cancelled || closeRequested;
    }

    method StopForHandoff(ghost v: Lifecycle.Handle) returns (cancel: Option<nat>)
      requires Is(v)
      modifies this
      ensures Is(if v.phase != Live then v else v.(work := v.work.(handoff := v.work.handoff.(cancelled := true))))
      ensures cancel == if v.phase != Live then None else v.cancel
    {
      if finished { return None; }
      work := work.(handoff := work.handoff.(cancelled := true));
      cancel := this.cancel;
    }

    method BeginTool(name: string, callId: string, arguments: string, ghost v: Lifecycle.Handle)
      requires Is(v)
      modifies this
      ensures Is(v.(work := Act(false, v.work, ToolAction.BeginTool(name, callId, arguments))))
    {
      var checkpoint := ToolCheckpoint(name, callId, arguments);
      work := work.(handoff := work.handoff.(inFlight := work.handoff.inFlight[callId := checkpoint]));
    }

    method FinishTool(name: string, callId: string, result: string, failed: bool, problem: string, ghost v: Lifecycle.Handle, ghost handingOff: bool)
      requires Is(v)
      modifies this
      ensures Is(v.(work := Act(handingOff, v.work, ToolAction.FinishTool(name, callId, result, failed, problem))))
    {
      var inFlight := work.handoff.inFlight;
      if !failed { inFlight := inFlight - {callId}; }
      var text := if failed && result == "" then problem else result;
      var content := if work.handoff.requested && failed then Replay.UNKNOWN_OUTCOME else Replay.Text(text);
      work := Work(work.handoff.(inFlight := inFlight), work.history + [Replay.ToolMessage(content, callId, name)]);
    }

    method MarkDone(ghost v: Lifecycle.Handle)
      requires Is(v) && v.phase == Archived
      modifies this
      ensures Is(v.(phase := Done))
    {
      done := true;
    }

    /** restoreCollection's writes. */
    method TakeStored(generation: int, collected: bool, closing: bool, ghost v: Lifecycle.Handle)
      requires Is(v)
      modifies this
      ensures Is(v.(gen := if generation > 0 then generation else v.gen, collected := collected, closeRequested := closing))
    {
      if generation > 0 { gen := generation; }
      this.collected, closeRequested := collected, closing;
    }

    method SetTimeouts(n: nat, ghost v: Lifecycle.Handle)
      requires Is(v)
      modifies this
      ensures Is(v.(timeouts := n))
    {
      timeouts := n;
    }

    method Snapshot() returns (entry: PendingWait.Entry, generation: int)
      ensures forall v :: Is(v) ==> entry == PendingWait.Snapshot(v) && generation == v.gen
    {
      generation := gen;
      if !done { return PendingWait.Entry(id, gen, PendingWait.ReportsRunning, ""), gen; }
      if err != NoError { return PendingWait.Entry(id, gen, PendingWait.ReportsFailed(err), result), gen; }
      return PendingWait.Entry(id, gen, PendingWait.ReportsDone, result), gen;
    }
  }

  /** A table of handles, by their positions. */
  ghost function Refs(table: map<string, Handle>): (refs: map<string, Ref>)
    ensures refs.Keys == table.Keys
    ensures forall id :: id in table ==> refs[id] == table[id].ref
  {
    map id | id in table :: table[id].ref
  }

  lemma RefsPut(table: map<string, Handle>, id: string, h: Handle)
    ensures Refs(table[id := h]) == Refs(table)[id := h.ref]
  {
  }

  lemma RefsDrop(table: map<string, Handle>, ids: set<string>)
    ensures Refs(table - ids) == Refs(table) - ids
  {
  }

  /** Every handle of the table is one of these, under its own id. */
  ghost predicate Drawn(table: map<string, Handle>, handles: seq<Handle>) {
    forall id :: id in table ==> table[id].ref < |handles| && handles[table[id].ref] == table[id] && table[id].id == id
  }

  predicate Files(table: map<string, Handle>, h: Handle) { h.id in table && table[h.id] == h }

  lemma DrawnPut(table: map<string, Handle>, handles: seq<Handle>, h: Handle)
    requires Drawn(table, handles) && h.ref < |handles| && handles[h.ref] == h
    ensures Drawn(table[h.id := h], handles)
  {
  }

  lemma DrawnDrop(table: map<string, Handle>, handles: seq<Handle>, ids: set<string>)
    requires Drawn(table, handles)
    ensures Drawn(table - ids, handles)
  {
  }

  lemma CollectAs(s: Reg, r: Ref, gen: int, closing: bool)
    requires r < |s.heap| && Collectable(s, r, gen)
    ensures var h := s.heap[r].(collected := !closing, closeRequested := closing);
            Collect(s, r, gen, closing) == s.(heap := s.heap[r := h], pending := s.pending - {h.id}, past := Marked(s.past, h))
  {
  }

  lemma DrawnMore(table: map<string, Handle>, handles: seq<Handle>, h: Handle)
    requires Drawn(table, handles)
    ensures Drawn(table, handles + [h])
  {
  }

  /** What wait_agents and close_agent hold between two sections. */
  datatype Collection = Collection(handle: Handle, generation: int)

  ghost function TokenOf(c: Collection): Runs.Token { Runs.Token(c.handle.ref, c.generation, true) }

  ghost function TokensOf(cs: seq<Collection>): (tokens: seq<Runs.Token>)
    ensures |tokens| == |cs| && forall i :: 0 <= i < |cs| ==> tokens[i] == TokenOf(cs[i])
  {
    seq(|cs|, i requires 0 <= i < |cs| => TokenOf(cs[i]))
  }

  /** The roster of a partly pruned registry: ids still to be looked at, and those not done. */
  ghost function Pruning(s: Reg, todo: set<string>): map<string, Ref> {
    map id | id in s.agents && (id in todo || !IsDone(At(s, s.agents[id]))) :: s.agents[id]
  }

  lemma PruningNext(s: Reg, todo: set<string>, id: string)
    requires id in todo && todo <= s.agents.Keys
    ensures IsDone(At(s, s.agents[id])) ==> Pruning(s, todo - {id}) == Pruning(s, todo) - {id}
    ensures !IsDone(At(s, s.agents[id])) ==> Pruning(s, todo - {id}) == Pruning(s, todo)
  {
  }

  lemma CountNext(s: Reg, todo: set<string>, id: string)
    requires id in todo && todo <= s.agents.Keys
    ensures |LiveIds(s) - (todo - {id})| == |LiveIds(s) - todo| + if IsDone(At(s, s.agents[id])) then 0 else 1
  {
    if IsDone(At(s, s.agents[id])) {
      assert LiveIds(s) - (todo - {id}) == LiveIds(s) - todo;
    } else {
      assert LiveIds(s) - (todo - {id}) == (LiveIds(s) - todo) + {id};
    }
  }

  // ---------- sweeping the roster ----------

  /** f applied to the handles these ids have on the roster. */
  ghost function Swept(s: Reg, ids: set<string>, f: Lifecycle.Handle -> Lifecycle.Handle): seq<Lifecycle.Handle> {
    seq(|s.heap|, r requires 0 <= r < |s.heap| =>
      if s.heap[r].id in ids && s.heap[r].id in s.agents && s.agents[s.heap[r].id] == r then f(s.heap[r]) else s.heap[r])
  }

  lemma SweptNext(s: Reg, ids: set<string>, id: string, f: Lifecycle.Handle -> Lifecycle.Handle)
    requires id in s.agents && id !in ids && s.agents[id] < |s.heap| && s.heap[s.agents[id]].id == id
    ensures |Swept(s, ids, f)| == |s.heap| && Swept(s, ids, f)[s.agents[id]] == s.heap[s.agents[id]]
    ensures Swept(s, ids + {id}, f) == Swept(s, ids, f)[s.agents[id] := f(s.heap[s.agents[id]])]
  {
  }

  lemma SweptNone(s: Reg, f: Lifecycle.Handle -> Lifecycle.Handle)
    ensures Swept(s, {}, f) == s.heap
  {
  }

  function Requested(h: Lifecycle.Handle): Lifecycle.Handle {
    if Lifecycle.Finished(h) then h else h.(work := h.work.(handoff := h.work.handoff.(requested := true)))
  }

  function Forgiven(h: Lifecycle.Handle): Lifecycle.Handle { h.(timeouts := 0) }

  function ClosingUnlessDone(h: Lifecycle.Handle): Lifecycle.Handle {
    if IsDone(h) then h else h.(closeRequested := true)
  }

  lemma SweepsHandoff(s: Reg)
    ensures s.(handingOff := true, heap := Swept(s.(handingOff := true), s.agents.Keys, Requested)) == Lifecycle.BeginHandoff(s)
  {
    assert |Swept(s, s.agents.Keys, Requested)| == |Lifecycle.BeginHandoff(s).heap|;
    forall r | 0 <= r < |s.heap| ensures Swept(s, s.agents.Keys, Requested)[r] == Lifecycle.BeginHandoff(s).heap[r] {
      var h := s.heap[r];
      var f := Requested;
      assert f(h) == Requested(h);
      assert Swept(s, s.agents.Keys, f)[r] == if h.id in s.agents && s.agents[h.id] == r then f(h) else h;
    }
    assert Swept(s.(handingOff := true), s.agents.Keys, Requested) == Swept(s, s.agents.Keys, Requested);
    assert Swept(s, s.agents.Keys, Requested) == Lifecycle.BeginHandoff(s).heap;
  }

  lemma SweepsForgive(s: Reg)
    ensures s.(heap := Swept(s, s.agents.Keys, Forgiven), past := map id | id in s.past :: s.past[id].(timeouts := 0)) == ResetTimeouts(s)
  {
    assert |Swept(s, s.agents.Keys, Forgiven)| == |ResetTimeouts(s).heap|;
    forall r | 0 <= r < |s.heap| ensures Swept(s, s.agents.Keys, Forgiven)[r] == ResetTimeouts(s).heap[r] {}
    assert Swept(s, s.agents.Keys, Forgiven) == ResetTimeouts(s).heap;
  }

  lemma SweepsCleanup(s: Reg)
    ensures s.delegation ==> s.(heap := Swept(s, s.agents.Keys, ClosingUnlessDone)) == CleanupMarks(s)
  {
    if s.delegation {
      assert |Swept(s, s.agents.Keys, ClosingUnlessDone)| == |CleanupMarks(s).heap|;
      forall r | 0 <= r < |s.heap| ensures Swept(s, s.agents.Keys, ClosingUnlessDone)[r] == CleanupMarks(s).heap[r] {}
      assert Swept(s, s.agents.Keys, ClosingUnlessDone) == CleanupMarks(s).heap;
    }
  }

  // ---------- closing a subtree one member at a time ----------

  ghost function CloseUpTo(s: Reg, ids: set<string>): Reg {
    s.(heap := CloseHandles(s, ids), pending := s.pending - ids, past := ClosePast(s, ids))
  }

  lemma CloseUpToNone(s: Reg)
    ensures CloseUpTo(s, {}) == s
  {
  }

  lemma CloseHandlesNext(s: Reg, ids: set<string>, id: string)
    requires id !in ids && id in Reachable(s) ==> Reachable(s)[id] < |s.heap| && s.heap[Reachable(s)[id]].id == id
    ensures id !in ids && id in Reachable(s) ==>
              |CloseHandles(s, ids)| == |s.heap| && CloseHandles(s, ids)[Reachable(s)[id]] == s.heap[Reachable(s)[id]]
              && CloseHandles(s, ids + {id}) == CloseHandles(s, ids)[Reachable(s)[id] := CloseOne(s.heap[Reachable(s)[id]])]
    ensures id !in Reachable(s) ==> CloseHandles(s, ids + {id}) == CloseHandles(s, ids)
  {
  }

  lemma ClosePastNext(s: Reg, ids: set<string>, id: string)
    requires id !in ids && id in Reachable(s) ==> At(s, Reachable(s)[id]).id == id
    ensures id !in ids && id in Reachable(s) ==> ClosePast(s, ids + {id}) == Marked(ClosePast(s, ids), CloseOne(At(s, Reachable(s)[id])))
    ensures id !in ids && id !in Reachable(s) && id in s.past ==>
              id in ClosePast(s, ids)
              && ClosePast(s, ids + {id}) == ClosePast(s, ids)[id := ClosePast(s, ids)[id].(collected := true, closeRequested := false)]
  {
  }

  lemma ClosePastKeeps(s: Reg, ids: set<string>, id: string)
    requires id !in ids && id in s.past
    ensures id in ClosePast(s, ids) && ClosePast(s, ids)[id] == s.past[id]
  {
  }

  /** The next member has a handle: it is closed, leaves pending, and marks its checkpoint. */
  lemma CloseUpToHandle(s: Reg, ids: set<string>, id: string)
    requires id !in ids && id in Reachable(s) && Reachable(s)[id] < |s.heap| && s.heap[Reachable(s)[id]].id == id
    ensures var c, r := CloseUpTo(s, ids), Reachable(s)[id];
            && |c.heap| == |s.heap| && c.heap[r] == s.heap[r]
            && CloseUpTo(s, ids + {id}) ==
                 c.(heap := c.heap[r := CloseOne(c.heap[r])], pending := c.pending - {id}, past := Marked(c.past, CloseOne(c.heap[r])))
  {
    hide CloseHandles, ClosePast, Marked, Reachable;
    DropOneMore(s.pending, ids, id);
    CloseHandlesNext(s, ids, id);
    ClosePastNext(s, ids, id);
  }

  /** Or only an archived conversation, which counts as collected. */
  lemma CloseUpToPast(s: Reg, ids: set<string>, id: string)
    requires id !in ids && id !in Reachable(s) && id in s.past
    ensures var c := CloseUpTo(s, ids);
            && id in c.past && c.past[id] == s.past[id]
            && CloseUpTo(s, ids + {id}) == c.(past := c.past[id := c.past[id].(collected := true, closeRequested := false)])
  {
    CloseHandlesNext(s, ids, id);
    ClosePastNext(s, ids, id);
    ClosePastKeeps(s, ids, id);
    hide CloseHandles, ClosePast, Marked;
    assert id !in s.pending;
    assert s.pending - (ids + {id}) == s.pending - ids;
  }

  lemma DropOneMore(pending: map<string, Ref>, ids: set<string>, id: string)
    ensures pending - (ids + {id}) == (pending - ids) - {id}
  {
  }

  /** The cancel functions of the members closed so far. */
  ghost function CancelsOf(s: Reg, ids: seq<string>): set<nat> {
    set id | id in ids && id in Reachable(s) && !IsDone(At(s, Reachable(s)[id])) && At(s, Reachable(s)[id]).cancel.Some?
      :: At(s, Reachable(s)[id]).cancel.value
  }

  lemma CancelsNext(s: Reg, ids: seq<string>, id: string)
    ensures CancelsOf(s, ids + [id]) == CancelsOf(s, ids) +
              if id in Reachable(s) && !IsDone(At(s, Reachable(s)[id])) && At(s, Reachable(s)[id]).cancel.Some?
              then {At(s, Reachable(s)[id]).cancel.value} else {}
  {
  }

  lemma RestoreAs(s: Reg, r: Ref, id: string, n: nat)
    requires r < |s.heap|
    ensures var s1 := Renewed(s, r);
            s1.(heap := s1.heap[r := s1.heap[r].(timeouts := n)]) == Lifecycle.NotePending(Put(s, r, Reset(At(s, r)).(timeouts := n)), r)
  {
  }

  class Registry {
    var agents: map<string, Handle>
    var pending: map<string, Handle>
    var past: map<string, Past>
    var pastIds: seq<string>
    var counter: Int64
    var closed: bool
    var handingOff: bool
    var delegation: bool
    var cap: int
    var archiveCap: nat
    var pendingRoles: map<string, nat>
    ghost var handles: seq<Handle>             // every handle made, in order
    ghost var heap: seq<Lifecycle.Handle>      // their values
    ghost var repr: set<object>

    /** heap tells the handles' values. */
    ghost predicate Told()
      reads this`handles, this`heap, this`repr, repr
    {
      && this !in repr && |heap| == |handles|
      && forall r :: 0 <= r < |handles| ==> handles[r] in repr && handles[r].ref == r && handles[r].Is(heap[r])
    }

    ghost predicate Valid()
      reads this, repr
    {
      this !in repr && Told() && Drawn(agents, handles) && Drawn(pending, handles)
    }

    ghost predicate Mine(h: Handle)
      reads this`handles
    {
      h.ref < |handles| && handles[h.ref] == h
    }

    ghost function View(): Reg
      reads this
    {
      Reg(Refs(agents), Refs(pending), past, pastIds, heap, counter, closed, handingOff, delegation, cap, archiveCap)
    }

    constructor (cap: int, archiveCap: nat, delegation: bool)
      ensures Valid() && View() == EmptyReg(cap, archiveCap, delegation)
    {
      agents, pending, past, pastIds, counter := map[], map[], map[], [], 0;
      closed, handingOff, this.delegation, this.cap, this.archiveCap := false, false, delegation, cap, archiveCap;
      pendingRoles := map[];
      handles, heap, repr := [], [], {};
    }

    // ---------- one handle ----------

    /** A handle's own fields are its value's. */
    lemma Reads(h: Handle)
      requires Told() && Mine(h)
      ensures h.ref < |heap| && h.Is(heap[h.ref]) && h.id == heap[h.ref].id && h.gen == heap[h.ref].gen
      ensures h.role == heap[h.ref].role && h.parent == heap[h.ref].parent && h.tools == heap[h.ref].tools
      ensures h.collected == heap[h.ref].collected && h.closeRequested == heap[h.ref].closeRequested
      ensures h.cancel == heap[h.ref].cancel && h.done == IsDone(heap[h.ref]) && h.finished == Finished(heap[h.ref])
      ensures h.timeouts == heap[h.ref].timeouts && h.work == heap[h.ref].work
    {
    }

    method SettleHandle(h: Handle, collected: bool, closeRequested: bool)
      requires Told() && Mine(h)
      modifies this`heap, h
      ensures Told() && heap == old(heap)[h.ref := old(heap)[h.ref].(collected := collected, closeRequested := closeRequested)]
    {
      hide Handle.Is;
      h.Settle(collected, closeRequested, heap[h.ref]);
      heap := heap[h.ref := heap[h.ref].(collected := collected, closeRequested := closeRequested)];
    }

    method ResetHandle(h: Handle, now: nat)
      requires Told() && Mine(h)
      modifies this`heap, h
      ensures Told() && heap == old(heap)[h.ref := Reset(old(heap)[h.ref])] && h.spawned == now
    {
      hide Handle.Is;
      h.ResetForResume(now, heap[h.ref]);
      heap := heap[h.ref := Reset(heap[h.ref])];
    }

    // ---------- settlement ----------

    lemma FiledHere(h: Handle, generation: int)
      requires Valid() && Mine(h)
      ensures Files(pending, h) && h.gen == generation <==> Collectable(View(), h.ref, generation)
      ensures !Collectable(View(), h.ref, generation) ==> forall closing :: Collect(View(), h.ref, generation, closing) == View()
    {
      Reads(h);
    }

    method NotePending(h: Handle)
      requires Valid() && Mine(h)
      modifies this`pending
      ensures Valid() && View() == Lifecycle.NotePending(old(View()), h.ref)
    {
      hide Refs, Told;
      RefsPut(pending, h.id, h);
      Reads(h);
      if !h.collected && !h.closeRequested {
        pending := pending[h.id := h];
      }
    }

    /** The archived checkpoint of the same generation takes the handle's marks. */
    method MarkPast(h: Handle)
      requires Told() && Mine(h)
      modifies this`past
      ensures past == Marked(old(past), heap[h.ref])
    {
      Reads(h);
      if h.id in past && past[h.id].gen == h.gen {
        past := past[h.id := past[h.id].(collected := h.collected, closeRequested := h.closeRequested)];
      }
    }

    method CollectWorker(h: Handle, generation: int, closing: bool) returns (ok: bool, cancel: Option<nat>)
      requires Valid() && Mine(h)
      modifies this`pending, this`past, this`heap, h
      ensures Valid() && View() == Collect(old(View()), h.ref, generation, closing)
      ensures ok == Collectable(old(View()), h.ref, generation)
      ensures cancel == if ok && closing then old(h.cancel) else None
    {
      hide Refs, Told, Handle.Is, Marked, Drawn, Collect;
      RefsDrop(pending, {h.id});
      DrawnDrop(pending, handles, {h.id});
      Reads(h);
      ok := Files(pending, h) && h.gen == generation;
      cancel := if ok && closing then h.cancel else None;
      FiledHere(h, generation);
      if ok {
        CollectAs(View(), h.ref, generation, closing);
        SettleHandle(h, !closing, closing);
        pending := pending - {h.id};
        MarkPast(h);
      }
    }

    method Find(id: string) returns (h: Handle?)
      requires Valid()
      ensures h == null <==> Get(View(), id).None?
      ensures h != null ==> Mine(h) && Get(View(), id) == Some(h.ref) && h.id == id
    {
      hide Told;
      if closed { return null; }
      if id in agents { return agents[id]; }
      if id in pending { return pending[id]; }
      return null;
    }

    /** One line of a report, and the token of a finished worker. */
    method Look(id: string) returns (entry: PendingWait.Entry, token: Option<Collection>)
      requires Valid()
      ensures entry == PendingWait.ReportOn(View(), id)
      ensures token.Some? <==> Get(View(), id).Some? && IsDone(At(View(), Get(View(), id).value))
      ensures token.Some? ==> Mine(token.value.handle) && token.value.handle.ref < |heap| && Get(View(), id) == Some(token.value.handle.ref)
                              && token.value.generation == heap[token.value.handle.ref].gen
    {
      hide Told, Handle.Is, Drawn, Get;
      var h := Find(id);
      if h == null { return PendingWait.Entry(id, 0, PendingWait.ReportsUnknown, ""), None; }
      var generation;
      Reads(h);
      entry, generation := h.Snapshot();
      token := if entry.status != PendingWait.ReportsRunning then Some(Collection(h, generation)) else None;
    }

    method WaitSnapshotCollections(ids: seq<string>) returns (report: seq<PendingWait.Entry>, collected: seq<Collection>)
      requires Valid()
      ensures report == PendingWait.Report(View(), ids)
      ensures TokensOf(collected) == PendingWait.Tokens(View(), ids) && forall c :: c in collected ==> Mine(c.handle)
    {
      hide Told, Handle.Is, Drawn, Get, PendingWait.ReportOn;
      report, collected := [], [];
      for n := 0 to |ids|
        invariant report == PendingWait.Report(View(), ids[..n])
        invariant TokensOf(collected) == PendingWait.Tokens(View(), ids[..n]) && forall c :: c in collected ==> Mine(c.handle)
      {
        var entry, token := Look(ids[n]);
        assert ids[..n + 1][..n] == ids[..n];
        report := report + [entry];
        if token.Some? { collected := collected + [token.value]; }
      }
      assert ids[..|ids|] == ids;
    }

    /** The collecting half of wait_agents. */
    method CollectAll(tokens: seq<Collection>)
      requires Valid() && forall c :: c in tokens ==> Mine(c.handle)
      modifies this`pending, this`past, this`heap, repr
      ensures Valid() && View() == PendingWait.CollectAll(old(View()), TokensOf(tokens))
    {
      hide Told, Handle.Is, Drawn, Collect, Refs;
      ghost var was, all := View(), TokensOf(tokens);
      for n := 0 to |tokens|
        invariant Valid() && handles == old(handles) && repr == old(repr)
        invariant View() == PendingWait.CollectAll(was, all[..n])
      {
        InRepr(tokens[n].handle);
        var ok, cancel := CollectWorker(tokens[n].handle, tokens[n].generation, false);
        assert all[..n + 1][..n] == all[..n];
      }
      assert all[..|tokens|] == all;
    }

    lemma InRepr(h: Handle)
      requires Told() && Mine(h)
      ensures h in repr
    {
    }

    // ---------- counting and pruning ----------

    method LiveCount() returns (n: nat)
      requires Valid()
      ensures n == Lifecycle.LiveCount(View())
    {
      hide Told, LiveIds;
      n := 0;
      var todo := agents.Keys;
      assert LiveIds(View()) - todo == {} by { LiveListed(View()); }
      while todo != {}
        invariant todo <= agents.Keys && n == |LiveIds(View()) - todo|
        decreases |todo|
      {
        var id :| id in todo;
        Reads(agents[id]);
        CountNext(View(), todo, id);
        if !agents[id].done { n := n + 1; }
        todo := todo - {id};
      }
      assert LiveIds(View()) - {} == LiveIds(View());
    }

    lemma LiveListed(s: Reg)
      ensures LiveIds(s) <= s.agents.Keys
    {
    }

    /** Stats looked at all ids but todo. */
    ghost predicate PrunedBut(was: Reg, todo: set<string>, running: nat, finished: nat)
      reads this
    {
      && todo <= was.agents.Keys && View() == was.(agents := Pruning(was, todo))
      && running == |LiveIds(was) - todo| && running + finished + |todo| == |was.agents|
    }

    method PruneOne(id: string, running: nat, finished: nat, ghost was: Reg, ghost todo: set<string>) returns (running': nat, finished': nat)
      requires Valid() && id in todo && PrunedBut(was, todo, running, finished)
      modifies this`agents
      ensures Valid() && PrunedBut(was, todo - {id}, running', finished')
    {
      hide Told, LiveIds, Refs, Pruning;
      PruningHere(was, todo, id);
      assert id in Refs(agents);
      var h := agents[id];
      Reads(h);
      PruningNext(was, todo, id);
      CountNext(was, todo, id);
      RefsDrop(agents, {id});
      DrawnDrop(agents, handles, {id});
      if h.done {
        agents := agents - {id};
        running', finished' := running, finished + 1;
      } else {
        running', finished' := running + 1, finished;
      }
    }

    method Stats() returns (running: nat, finished: nat)
      requires Valid()
      modifies this`agents
      ensures Valid() && View() == Lifecycle.Stats(old(View()))
      ensures running == Lifecycle.LiveCount(old(View())) && running + finished == |old(agents)|
    {
      hide Told, PrunedBut, Valid, Lifecycle.Stats, Lifecycle.LiveCount, View;
      ghost var was := View();
      running, finished := 0, 0;
      var todo := agents.Keys;
      PruningStarts();
      while todo != {}
        invariant Valid() && PrunedBut(was, todo, running, finished)
        decreases |todo|
      {
        var id :| id in todo;
        running, finished := PruneOne(id, running, finished, was, todo);
        todo := todo - {id};
      }
      PruningEnds(was, running, finished);
    }

    lemma PruningStarts()
      ensures PrunedBut(View(), agents.Keys, 0, 0)
    {
      assert Pruning(View(), agents.Keys) == View().agents;
      assert LiveIds(View()) - agents.Keys == {};
    }

    lemma PruningEnds(was: Reg, running: nat, finished: nat)
      requires PrunedBut(was, {}, running, finished)
      ensures View() == Lifecycle.Stats(was) && running == Lifecycle.LiveCount(was) && running + finished == |was.agents|
    {
      assert LiveIds(was) - {} == LiveIds(was);
    }

    lemma PruningHere(s: Reg, todo: set<string>, id: string)
      requires id in todo && todo <= s.agents.Keys
      ensures id in Pruning(s, todo) && Pruning(s, todo)[id] == s.agents[id]
    {
    }

    // ---------- delegation ----------

    method ParentOf(id: string) returns (parent: string)
      requires Valid()
      ensures parent == Lifecycle.ParentOf(View(), id)
    {
      hide Told, Handle.Is;
      if id in agents { Reads(agents[id]); return agents[id].parent; }
      if id in pending { Reads(pending[id]); return pending[id].parent; }
      if id in past { return past[id].parent; }
      return "";
    }

    method IsDescendant(id: string, ancestor: string) returns (yes: bool)
      requires Valid()
      ensures yes == Descendant(View(), id, ancestor)
    {
      hide Told, Refs, Drawn, Climb, Known, Lifecycle.ParentOf, Valid, View;
      var at: string, seen: set<string> := id, {};
      while at != "" && at !in seen
        invariant Climb(View(), id, ancestor, {}) == Climb(View(), at, ancestor, seen)
        decreases |Known(View()) - seen|, if at == "" then 0 else 1
      {
        Delegation.ClimbStep(View(), at, ancestor, seen);
        Delegation.ClimbShrinks(View(), at, seen);
        seen := seen + {at};
        at := ParentOf(at);
        if at == ancestor { return true; }
      }
      Delegation.ClimbStep(View(), at, ancestor, seen);
      return false;
    }

    method AnyDescends(ids: set<string>, ancestor: string) returns (any: bool)
      requires Valid()
      ensures any <==> exists id :: id in ids && Descendant(View(), id, ancestor)
    {
      hide Told, Refs, Drawn, Descendant, Valid, View;
      any := false;
      var todo := ids;
      while todo != {}
        invariant todo <= ids && (any <==> exists id :: id in ids - todo && Descendant(View(), id, ancestor))
        decreases |todo|
      {
        var id :| id in todo;
        var below := IsDescendant(id, ancestor);
        assert ids - (todo - {id}) == (ids - todo) + {id};
        any := any || below;
        todo := todo - {id};
      }
    }

    /** Someone on the roster, owed or archived descends from the id. */
    method IsNeeded(id: string) returns (needed: bool)
      requires Valid()
      ensures needed == Needed(View(), id)
    {
      hide Told, Drawn, Descendant;
      needed := AnyDescends(agents.Keys, id);
      var owed := AnyDescends(pending.Keys, id);
      var archived := AnyDescends(past.Keys, id);
      needed := needed || owed || archived;
    }

    method ForgetAt(index: nat)
      requires Valid() && index < |pastIds|
      modifies this`past, this`pastIds
      ensures Valid() && View() == Forget(old(View()), index)
    {
      hide Told, Drawn, Refs;
      past := past - {pastIds[index]};
      pastIds := pastIds[..index] + pastIds[index + 1..];
    }

    /** The inner scan of trimArchiveLocked. */
    method FindUnneeded() returns (index: nat)
      requires Valid()
      ensures index == FirstUnneeded(View(), 0)
    {
      hide Told, Drawn, Refs, Needed, Valid;
      index := 0;
      while index < |pastIds|
        invariant index <= |pastIds| && FirstUnneeded(View(), 0) == FirstUnneeded(View(), index)
      {
        var needed := IsNeeded(pastIds[index]);
        if !needed { return; }
        index := index + 1;
      }
    }

    method TrimArchive()
      requires Valid()
      modifies this`past, this`pastIds
      ensures Valid() && View() == Trim(old(View()))
    {
      hide Told, Drawn, Refs, FirstUnneeded, Forget;
      ghost var was := View();
      while |pastIds| > archiveCap
        invariant Valid() && Trim(View()) == Trim(was)
        decreases |pastIds|
      {
        var index := FindUnneeded();
        Delegation.TrimStep(View());
        if index == |pastIds| { return; }
        Delegation.ForgetSize(View(), index);
        ForgetAt(index);
      }
      Delegation.TrimStep(View());
    }

    /** remember's archive update, for a snapshot taken before. */
    method Remember(p: Past)
      requires Valid()
      modifies this`past, this`pastIds
      ensures Valid() && View() == Lifecycle.Remember(old(View()), p)
    {
      hide Told, Drawn, Refs, Trim, Evict;
      if closed { return; }
      if p.id !in past { pastIds := pastIds + [p.id]; }
      past := past[p.id := p];
      if delegation { TrimArchive(); } else { EvictOldest(); }
    }

    method EvictOldest()
      requires Valid()
      modifies this`past, this`pastIds
      ensures Valid() && View() == Evict(old(View()))
    {
      hide Told, Drawn, Refs, Forget;
      ghost var was := View();
      while |pastIds| > archiveCap
        invariant Valid() && Evict(View()) == Evict(was)
        decreases |pastIds|
      {
        Delegation.ForgetSize(View(), 0);
        ForgetAt(0);
      }
    }

    /** validateParentLocked. */
    method MayDelegate(caller: Caller) returns (ok: bool)
      requires Valid()
      ensures ok == CallerActive(View(), caller)
    {
      hide Told, Handle.Is;
      if caller.id !in agents { return false; }
      var h := agents[caller.id];
      Reads(h);
      return h.gen == caller.gen && !h.closeRequested && !h.finished;
    }

    /** validateParentRelationLocked. */
    method ParentFits(id: string, parent: string) returns (ok: bool)
      requires Valid()
      ensures ok == ParentAllowed(View(), id, parent)
    {
      hide Told, Drawn, Refs, Descendant;
      if parent == id { return false; }
      var below := IsDescendant(parent, id);
      return !below;
    }

    method ParentTools(id: string) returns (tools: Option<seq<string>>)
      requires Valid()
      ensures tools == ToolsOf(View(), id)
    {
      hide Told, Handle.Is;
      if id in agents { Reads(agents[id]); return agents[id].tools; }
      if id in pending { Reads(pending[id]); return pending[id].tools; }
      if id in past { return past[id].tools; }
      return None;
    }

    /** checkRestoredWorkerToolParentLocked. */
    method ScopeIsWithin(parent: string, tools: Option<seq<string>>) returns (ok: bool)
      requires Valid()
      ensures ok == ScopeFits(View(), parent, tools)
    {
      hide Told, Drawn, Refs, ToolsOf;
      if parent == "" { return true; }
      var allowed := ParentTools(parent);
      ok := RestoredScopeAllowed(allowed, tools);
    }

    // ---------- admission ----------

    method Make(v: Lifecycle.Handle, now: nat) returns (h: Handle)
      requires Told()
      modifies this`handles, this`heap, this`repr
      ensures Told() && fresh(h) && h.id == v.id && h.ref == |old(handles)| == |old(heap)| && h.spawned == now
      ensures handles == old(handles) + [h] && heap == old(heap) + [v] && repr == old(repr) + {h}
    {
      hide Handle.Is;
      h := new Handle(|handles|, v, now);
      handles, heap, repr := handles + [h], heap + [v], repr + {h};
      MadeId(h, v);
    }

    lemma MadeId(h: Handle, v: Lifecycle.Handle)
      requires h.Is(v)
      ensures h.id == v.id
    {
    }

    method EnlistHandle(v: Lifecycle.Handle, now: nat) returns (h: Handle)
      requires Valid()
      modifies this`handles, this`heap, this`repr, this`agents, this`pending
      ensures Valid() && fresh(h) && Mine(h) && h.ref == |old(heap)| && View() == Enlist(old(View()), v)
      ensures repr == old(repr) + {h} && handles == old(handles) + [h] && h.spawned == now
    {
      hide Told, Drawn, Refs, Handle.Is, Lifecycle.NotePending;
      h := Make(v, now);
      DrawnMore(agents, old(handles), h);
      DrawnMore(pending, old(handles), h);
      DrawnPut(agents, handles, h);
      RefsPut(agents, h.id, h);
      agents := agents[v.id := h];
      NotePending(h);
    }

    /** What an admission method answers: the handle, or why there is none and that nothing changed. */
    ghost predicate Answers(was: Reg, a: Attempt, h: Handle?, why: Option<Refusal>)
      reads this
    {
      match a
      case Admitted(s, r) => h != null && Mine(h) && h.ref == r && View() == s && why == None
      case Denied(reason) => h == null && why == Some(reason) && View() == was
    }

    /** spawnAgentWithModel's locked part: the admission check and the insertion share the lock. */
    method SpawnAgent(role: string, caller: Option<Caller>, enabling: bool, tools: Option<seq<string>>, admit: bool, now: nat)
      returns (h: Handle?, why: Option<Refusal>)
      requires Valid()
      modifies this`handles, this`heap, this`repr, this`agents, this`pending, this`counter, this`delegation
      ensures Valid() && Answers(old(View()), Spawn(old(View()), role, caller, enabling, tools, admit), h, why)
    {
      hide Told, Drawn, Refs, Handle.Is, CallerActive, Lifecycle.LiveCount, Enlist, Mint;
      if handingOff { return null, Some(HandingOff); }
      if closed { return null, Some(RegistryClosed); }
      if caller.Some? {
        var active := MayDelegate(caller.value);
        if !active { return null, Some(CallerInactive); }
      }
      if admit {
        var live := LiveCount();
        if live >= cap { return null, Some(AtCapacity); }
      }
      delegation := delegation || enabling;
      counter := Increment(counter);
      var id := Mint(role, counter);
      h := EnlistHandle(NewHandle(id, role, if caller.Some? then caller.value.id else "", 1, 0, tools), now);
      why := None;
    }

    /** The handle on the roster starts its next generation. */
    method Renew(h: Handle, now: nat)
      requires Valid() && Mine(h)
      modifies this`heap, this`pending, h
      ensures Valid() && View() == Renewed(old(View()), h.ref) && h.spawned == now
    {
      hide Told, Drawn, Refs, Handle.Is, Lifecycle.NotePending;
      Reads(h);
      ResetHandle(h, now);
      NotePending(h);
    }

    method ClaimForResume(p: Past, admit: bool, now: nat) returns (h: Handle?, why: Option<Refusal>)
      requires Valid()
      modifies this`handles, this`heap, this`repr, this`agents, this`pending, repr
      ensures Valid() && Answers(old(View()), Lifecycle.ClaimForResume(old(View()), p, admit), h, why)
    {
      hide Told, Drawn, Handle.Is, ScopeFits, Lifecycle.LiveCount, Enlist, Renewed;
      if handingOff { return null, Some(HandingOff); }
      if closed { return null, Some(RegistryClosed); }
      var running := StillRuns(p.id);
      if running { return null, Some(StillRunning); }
      var fits := ScopeIsWithin(p.parent, p.tools);
      if !fits { return null, Some(WidensScope); }
      if admit {
        var live := LiveCount();
        if live >= cap { return null, Some(AtCapacity); }
      }
      if p.id in agents {
        h := agents[p.id];
        OnRoster(p.id);
        if h.timeouts >= MAX_CONSECUTIVE_TIMEOUTS { return null, Some(TimeoutsExhausted); }
        Renew(h, now);
      } else {
        if p.timeouts >= MAX_CONSECUTIVE_TIMEOUTS { return null, Some(TimeoutsExhausted); }
        h := EnlistHandle(ResumedHandle(p), now);
      }
      why := None;
    }

    /** The id's handle on the roster has not finished. */
    method StillRuns(id: string) returns (running: bool)
      requires Valid()
      ensures running == (id in View().agents && !IsDone(At(View(), View().agents[id])))
    {
      hide Told, Handle.Is;
      if id !in agents { return false; }
      Reads(agents[id]);
      return !agents[id].done;
    }

    lemma OnRoster(id: string)
      requires Valid() && id in agents
      ensures Mine(agents[id]) && agents[id] in repr && id in View().agents && agents[id].ref == View().agents[id]
      ensures agents[id].timeouts == At(View(), agents[id].ref).timeouts && agents[id].parent == At(View(), agents[id].ref).parent
      ensures agents[id].tools == At(View(), agents[id].ref).tools && agents[id].id == id
    {
      Reads(agents[id]);
    }

    // ---------- closing ----------

    method CloseHandle(h: Handle) returns (cancel: Option<nat>)
      requires Valid() && Mine(h) && h.ref < |heap|
      modifies this`pending, this`past, this`heap, h
      ensures Valid() && cancel == if IsDone(old(heap)[h.ref]) then None else old(heap)[h.ref].cancel
      ensures var s := old(View());
              View() == s.(heap := s.heap[h.ref := CloseOne(s.heap[h.ref])], pending := s.pending - {h.id},
                           past := Marked(s.past, CloseOne(s.heap[h.ref])))
    {
      hide Told, Drawn, Refs, Handle.Is, Marked;
      Reads(h);
      RefsDrop(pending, {h.id});
      DrawnDrop(pending, handles, {h.id});
      var done := h.done;
      cancel := if done then None else h.cancel;
      SettleHandle(h, done, !done);
      pending := pending - {h.id};
      MarkPast(h);
    }

    /** One turn of closeSubtree's loop; done: the ids of the turns before. */
    method CloseMember(table: map<string, Handle>, id: string, ghost was: Reg, ghost done: set<string>)
      returns (entry: Closing.ClosedWorker, cancel: Option<nat>)
      requires Valid() && View() == CloseUpTo(was, done) && Merged(table, was)
      requires id !in done && (id in table || id in was.past)
      modifies this`pending, this`past, this`heap, repr
      ensures Valid() && View() == CloseUpTo(was, done + {id}) && Merged(table, was) && repr == old(repr)
      ensures entry == Closing.ClosedEntry(was, id)
      ensures cancel == if id in table && !IsDone(At(was, table[id].ref)) then At(was, table[id].ref).cancel else None
    {
      hide Told, Handle.Is, CloseUpTo, Marked, Drawn, Reachable;
      if id in table {
        CloseUpToHandle(was, done, id);
        var h := table[id];
        InRepr(h);
        Reads(h);
        entry := Closing.ClosedWorker(id, h.gen, !h.done);
        cancel := CloseHandle(h);
      } else {
        CloseUpToPast(was, done, id);
        entry, cancel := Closing.ClosedWorker(id, past[id].gen, false), None;
        past := past[id := past[id].(collected := true, closeRequested := false)];
      }
    }

    /** table is the roster overridden by pending, as it was. */
    ghost predicate Merged(table: map<string, Handle>, was: Reg)
      reads this`handles, this`heap
    {
      && Refs(table) == Reachable(was) && |was.heap| == |heap| == |handles|
      && forall id :: id in table ==> Mine(table[id]) && table[id].id == id && table[id].ref < |was.heap| && was.heap[table[id].ref].id == id
    }

    method Members(root: string, table: map<string, Handle>) returns (ids: seq<string>)
      requires Valid() && Refs(table) == Reachable(View())
      ensures ids == [root] + Ordered(Subtree(View(), root) - {root})
    {
      hide Told, Drawn, Descendant, Ordered, Valid, View, Subtree;
      var below: set<string> := {};
      var todo := table.Keys;
      MembersStart(root, table);
      while todo != {}
        invariant todo <= table.Keys && below == MembersBut(table, todo, root)
        decreases |todo|
      {
        var id :| id in todo;
        MembersNext(table, todo, root, id);
        var descends := IsDescendant(id, root);
        if id != root && descends { below := below + {id}; }
        todo := todo - {id};
      }
      ids := [root] + Ordered(below);
    }

    ghost function MembersBut(table: map<string, Handle>, todo: set<string>, root: string): set<string>
      reads this
    {
      set id | id in table && id !in todo && id != root && Descendant(View(), id, root)
    }

    lemma MembersNext(table: map<string, Handle>, todo: set<string>, root: string, id: string)
      requires id in todo && todo <= table.Keys
      ensures MembersBut(table, todo - {id}, root) ==
              MembersBut(table, todo, root) + if id != root && Descendant(View(), id, root) then {id} else {}
    {
    }

    lemma MembersStart(root: string, table: map<string, Handle>)
      requires Refs(table) == Reachable(View())
      ensures MembersBut(table, table.Keys, root) == {} && MembersBut(table, {}, root) == Subtree(View(), root) - {root}
    {
      assert table.Keys == Reachable(View()).Keys;
    }

    /** closeSubtree's loop went through the first ids. */
    ghost predicate ClosedSoFar(was: Reg, ids: seq<string>, closed: seq<Closing.ClosedWorker>, cancels: set<nat>)
      reads this
    {
      View() == CloseUpTo(was, set id | id in ids) && closed == Closing.ClosedReport(was, ids) && cancels == CancelsOf(was, ids)
    }

    method CloseNext(table: map<string, Handle>, id: string, closed: seq<Closing.ClosedWorker>, cancels: set<nat>, ghost was: Reg, ghost ids: seq<string>)
      returns (closed': seq<Closing.ClosedWorker>, cancels': set<nat>)
      requires Valid() && Merged(table, was) && ClosedSoFar(was, ids, closed, cancels) && id !in ids && (id in table || id in was.past)
      modifies this`pending, this`past, this`heap, repr
      ensures Valid() && Merged(table, was) && ClosedSoFar(was, ids + [id], closed', cancels') && repr == old(repr)
    {
      hide Told, Drawn, Handle.Is, CloseUpTo, Closing.ClosedReport, CancelsOf, Reachable, View, Refs;
      CancelsNext(was, ids, id);
      Closing.ReportNext(was, ids, id);
      assert (set x | x in ids + [id]) == (set x | x in ids) + {id};
      var entry, cancel := CloseMember(table, id, was, set x | x in ids);
      closed' := closed + [entry];
      cancels' := if cancel.Some? then cancels + {cancel.value} else cancels;
    }

    lemma ViewPast()
      ensures View().past == past
    {
    }

    lemma MergedHere()
      requires Valid()
      ensures Merged(agents + pending, View()) && (forall id :: id in agents + pending <==> id in Reachable(View()))
    {
      assert Refs(agents + pending) == Reachable(View());
      forall id | id in agents + pending ensures Mine((agents + pending)[id]) && (agents + pending)[id].id == id {
        Reads((agents + pending)[id]);
      }
    }

    lemma StartsClosing()
      ensures ClosedSoFar(View(), [], [], {})
    {
      assert (set id: string | id in []) == {};
      CloseUpToNone(View());
    }

    lemma EndsClosing(was: Reg, root: string, closed: seq<Closing.ClosedWorker>, cancels: set<nat>)
      requires ClosedSoFar(was, Closing.MemberList(was, root), closed, cancels) && (root in Reachable(was) || root in was.past)
      ensures View() == Lifecycle.CloseSubtree(was, root) && closed == Closing.ClosedReport(was, Closing.MemberList(was, root))
      ensures cancels == Runs.SubtreeCancels(was, Subtree(was, root))
    {
      hide CloseHandles, ClosePast, Subtree, Ordered, Closing.ClosedReport;
      Closing.MemberListIs(was, root);
      assert (set id | id in Closing.MemberList(was, root)) == Subtree(was, root);
      assert CancelsOf(was, Closing.MemberList(was, root)) == Runs.SubtreeCancels(was, Subtree(was, root));
    }

    lemma MemberKnown(was: Reg, root: string, table: map<string, Handle>, id: string)
      requires Merged(table, was) && id in Subtree(was, root) && (root in Reachable(was) || root in was.past)
      ensures id in table || id in was.past
    {
    }

    lemma CloseUnknown(was: Reg, root: string)
      ensures root !in Reachable(was) && root !in was.past ==> Lifecycle.CloseSubtree(was, root) == was
    {
    }

    method CloseSubtree(root: string) returns (known: bool, closed: seq<Closing.ClosedWorker>, cancels: set<nat>)
      requires Valid()
      modifies this`pending, this`past, this`heap, repr
      ensures Valid() && View() == Lifecycle.CloseSubtree(old(View()), root)
      ensures known == (root in Reachable(old(View())) || root in old(View()).past)
      ensures known ==> closed == Closing.ClosedReport(old(View()), Closing.MemberList(old(View()), root))
      ensures known ==> cancels == Runs.SubtreeCancels(old(View()), Subtree(old(View()), root))
    {
      hide Told, Drawn, Handle.Is, Subtree, CloseUpTo, CloseHandles, ClosePast, Closing.ClosedReport, CancelsOf, Ordered, ClosedSoFar,
        Merged, Reachable, View, Refs, Lifecycle.CloseSubtree;
      ghost var was := View();
      closed, cancels := [], {};
      var table := agents + pending;
      MergedHere();
      ViewPast();
      CloseUnknown(was, root);
      known := root in table || root in past;
      if !known { return; }
      var ids := Members(root, table);
      Closing.MemberListIs(was, root);
      StartsClosing();
      for n := 0 to |ids|
        invariant Valid() && Merged(table, was) && ClosedSoFar(was, ids[..n], closed, cancels) && repr == old(repr)
      {
        assert ids[..n + 1] == ids[..n] + [ids[n]];
        assert ids[n] in ids && ids[n] !in ids[..n];
        MemberKnown(was, root, table, ids[n]);
        closed, cancels := CloseNext(table, ids[n], closed, cancels, was, ids[..n]);
      }
      assert ids[..|ids|] == ids;
      EndsClosing(was, root, closed, cancels);
    }

    // ---------- sweeps of the roster ----------

    /** f was applied to the roster's handles of all ids but todo. */
    ghost predicate SweptBut(was: Reg, todo: set<string>, f: Lifecycle.Handle -> Lifecycle.Handle)
      reads this
    {
      && todo <= was.agents.Keys && View() == was.(heap := Swept(was, was.agents.Keys - todo, f))
      && forall id :: id in was.agents ==> was.agents[id] < |was.heap| && was.heap[was.agents[id]].id == id
    }

    lemma SweepStarts(f: Lifecycle.Handle -> Lifecycle.Handle)
      requires Valid()
      ensures SweptBut(View(), agents.Keys, f)
    {
      assert View().agents.Keys - agents.Keys == {};
      SweptNone(View(), f);
      forall id | id in agents ensures agents[id].ref < |heap| && heap[agents[id].ref].id == id { Reads(agents[id]); }
    }

    lemma SweepEnds(was: Reg, f: Lifecycle.Handle -> Lifecycle.Handle)
      requires SweptBut(was, {}, f)
      ensures View() == was.(heap := Swept(was, was.agents.Keys, f))
    {
      assert was.agents.Keys - {} == was.agents.Keys;
    }

    /** The value the next turn finds, and what it must leave. */
    lemma SweepTurn(was: Reg, todo: set<string>, f: Lifecycle.Handle -> Lifecycle.Handle, id: string)
      requires Valid() && id in todo && SweptBut(was, todo, f)
      ensures id in agents && Mine(agents[id]) && agents[id] in repr && agents[id].ref < |heap|
      ensures was.(heap := Swept(was, was.agents.Keys - (todo - {id}), f)) == View().(heap := heap[agents[id].ref := f(heap[agents[id].ref])])
      ensures todo - {id} <= was.agents.Keys
    {
      assert id in Refs(agents);
      Reads(agents[id]);
      SweptNext(was, was.agents.Keys - todo, id, f);
      assert was.agents.Keys - (todo - {id}) == (was.agents.Keys - todo) + {id};
    }

    method RequestTurn(id: string, ghost was: Reg, ghost todo: set<string>)
      requires Valid() && id in agents && id in todo && SweptBut(was, todo, Requested)
      modifies this`heap, repr
      ensures Valid() && SweptBut(was, todo - {id}, Requested) && repr == old(repr)
    {
      hide Told, Handle.Is, Drawn, Refs, Swept;
      SweepTurn(was, todo, Requested, id);
      RequestHandle(agents[id]);
    }

    method RequestHandle(h: Handle)
      requires Told() && Mine(h)
      modifies this`heap, h
      ensures Told() && heap == old(heap)[h.ref := Requested(old(heap)[h.ref])]
    {
      hide Handle.Is;
      h.RequestHandoff(heap[h.ref]);
      heap := heap[h.ref := Requested(heap[h.ref])];
    }

    method BeginHandoff()
      requires Valid()
      modifies this`handingOff, this`heap, repr
      ensures Valid() && View() == Lifecycle.BeginHandoff(old(View()))
    {
      hide Told, Handle.Is, Drawn, Refs, Swept, SweptBut, Lifecycle.BeginHandoff;
      SweepsHandoff(View());
      handingOff := true;
      ghost var was := View();
      var todo := agents.Keys;
      SweepStarts(Requested);
      while todo != {}
        invariant todo <= agents.Keys && Valid() && SweptBut(was, todo, Requested) && repr == old(repr)
        decreases |todo|
      {
        var id :| id in todo;
        RequestTurn(id, was, todo);
        todo := todo - {id};
      }
      SweepEnds(was, Requested);
    }

    method ForgiveHandle(h: Handle)
      requires Told() && Mine(h)
      modifies this`heap, h
      ensures Told() && heap == old(heap)[h.ref := Forgiven(old(heap)[h.ref])]
    {
      hide Handle.Is;
      h.ForgiveTimeouts(heap[h.ref]);
      heap := heap[h.ref := Forgiven(heap[h.ref])];
    }

    method ForgiveTurn(id: string, ghost was: Reg, ghost todo: set<string>)
      requires Valid() && id in agents && id in todo && SweptBut(was, todo, Forgiven)
      modifies this`heap, repr
      ensures Valid() && SweptBut(was, todo - {id}, Forgiven) && repr == old(repr)
    {
      hide Told, Handle.Is, Drawn, Refs, Swept;
      SweepTurn(was, todo, Forgiven, id);
      ForgiveHandle(agents[id]);
    }

    method ResetWorkerTimeouts()
      requires Valid()
      modifies this`heap, this`past, repr
      ensures Valid() && View() == ResetTimeouts(old(View()))
    {
      hide Told, Handle.Is, Drawn, Refs, Swept, SweptBut, ResetTimeouts;
      SweepsForgive(View());
      ghost var was := View();
      var todo := agents.Keys;
      SweepStarts(Forgiven);
      while todo != {}
        invariant todo <= agents.Keys && Valid() && SweptBut(was, todo, Forgiven) && repr == old(repr)
        decreases |todo|
      {
        var id :| id in todo;
        ForgiveTurn(id, was, todo);
        todo := todo - {id};
      }
      SweepEnds(was, Forgiven);
      ForgiveArchive();
    }

    method ForgiveArchive()
      requires Valid()
      modifies this`past
      ensures Valid() && View() == old(View()).(past := map id | id in old(past) :: old(past)[id].(timeouts := 0))
    {
      hide Told, Refs, Drawn;
      past := map id | id in past :: past[id].(timeouts := 0);
    }

    method CloseRunning(h: Handle)
      requires Told() && Mine(h)
      modifies this`heap, h
      ensures Told() && heap == old(heap)[h.ref := ClosingUnlessDone(old(heap)[h.ref])]
    {
      hide Handle.Is;
      h.CloseUnlessDone(heap[h.ref]);
      heap := heap[h.ref := ClosingUnlessDone(heap[h.ref])];
    }

    method CleanupTurn(id: string, ghost was: Reg, ghost todo: set<string>)
      requires Valid() && id in agents && id in todo && SweptBut(was, todo, ClosingUnlessDone)
      modifies this`heap, repr
      ensures Valid() && SweptBut(was, todo - {id}, ClosingUnlessDone) && repr == old(repr)
    {
      hide Told, Handle.Is, Drawn, Refs, Swept;
      SweepTurn(was, todo, ClosingUnlessDone, id);
      CloseRunning(agents[id]);
    }

    /** Cleanup's locked part with delegation: running workers lose the right to delegate. */
    method MarkRunning()
      requires Valid() && delegation
      modifies this`heap, repr
      ensures Valid() && View() == CleanupMarks(old(View()))
    {
      hide Told, Handle.Is, Drawn, Refs, Swept, SweptBut, CleanupMarks;
      SweepsCleanup(View());
      ghost var was := View();
      var todo := agents.Keys;
      SweepStarts(ClosingUnlessDone);
      while todo != {}
        invariant todo <= agents.Keys && Valid() && SweptBut(was, todo, ClosingUnlessDone) && repr == old(repr)
        decreases |todo|
      {
        var id :| id in todo;
        CleanupTurn(id, was, todo);
        todo := todo - {id};
      }
      SweepEnds(was, ClosingUnlessDone);
    }

    /** Cleanup's locked part; the caller cancels the running handles afterwards, without the lock. */
    method Cleanup() returns (running: set<Handle>)
      requires Valid()
      modifies this`heap, repr
      ensures Valid() && View() == CleanupMarks(old(View()))
      ensures forall h :: h in running <==> h.id in old(agents) && old(agents)[h.id] == h && !old(h.done)
    {
      hide Told, Handle.Is, Drawn, Refs, CleanupMarks;
      running := set id | id in agents && !agents[id].done :: agents[id];
      RunningHere(running);
      if delegation { MarkRunning(); } else { NoMarks(View()); }
    }

    lemma RunningHere(running: set<Handle>)
      requires Valid() && running == set id | id in agents && !agents[id].done :: agents[id]
      ensures forall h :: h in running <==> h.id in agents && agents[h.id] == h && !h.done
    {
    }

    lemma NoMarks(s: Reg)
      requires !s.delegation
      ensures CleanupMarks(s) == s
    {
    }

    method Close() returns (stopped: set<Handle>)
      requires Valid()
      modifies this`closed, this`agents, this`pending, this`past, this`pastIds
      ensures Valid() && View() == CloseRegistry(old(View())) && stopped == old(agents).Values
    {
      hide Told, Handle.Is;
      stopped := agents.Values;
      closed, agents, pending, past, pastIds := true, map[], map[], map[], [];
      assert Refs(agents) == map[];
    }

    // ---------- the life of a run ----------

    /** startWorker's locked part. */
    method StartWorker(h: Handle, c: nat) returns (cancelled: bool)
      requires Valid() && Mine(h) && h.ref < |heap|
      modifies this`heap, h
      ensures Valid() && View() == Put(old(View()), h.ref, old(heap)[h.ref].(cancel := Some(c)))
      ensures cancelled == (old(heap)[h.ref].work.handoff.cancelled || old(heap)[h.ref].closeRequested)
    {
      hide Refs, Drawn, Handle.Is;
      cancelled := h.InstallCancel(c, heap[h.ref]);
      heap := heap[h.ref := heap[h.ref].(cancel := Some(c))];
    }

    method StopForHandoff(h: Handle) returns (cancel: Option<nat>)
      requires Valid() && Mine(h) && h.ref < |heap|
      modifies this`heap, h
      ensures Valid() && cancel == if old(heap)[h.ref].phase != Live then None else old(heap)[h.ref].cancel
      ensures var v := old(heap)[h.ref];
              View() == Put(old(View()), h.ref, if v.phase != Live then v else v.(work := v.work.(handoff := v.work.handoff.(cancelled := true))))
    {
      hide Refs, Drawn, Handle.Is;
      ghost var v := heap[h.ref];
      cancel := h.StopForHandoff(v);
      heap := heap[h.ref := if v.phase != Live then v else v.(work := v.work.(handoff := v.work.handoff.(cancelled := true)))];
    }

    method BeginWorkerTool(h: Handle, name: string, callId: string, arguments: string) returns (admitted: bool)
      requires Valid() && Mine(h) && h.ref < |heap|
      modifies this`heap, h
      ensures Valid() && admitted == !handingOff
      ensures var v := old(heap)[h.ref];
              View() == Put(old(View()), h.ref, v.(work := Act(handingOff, v.work, BeginTool(name, callId, arguments))))
    {
      hide Refs, Drawn, Handle.Is;
      admitted := !handingOff;
      ghost var v := heap[h.ref];
      if admitted { h.BeginTool(name, callId, arguments, v); }
      heap := heap[h.ref := v.(work := Act(handingOff, v.work, BeginTool(name, callId, arguments)))];
    }

    method FinishTool(h: Handle, name: string, callId: string, result: string, failed: bool, problem: string)
      requires Valid() && Mine(h) && h.ref < |heap|
      modifies this`heap, h
      ensures Valid()
      ensures var v := old(heap)[h.ref];
              View() == Put(old(View()), h.ref, v.(work := Act(handingOff, v.work, ToolAction.FinishTool(name, callId, result, failed, problem))))
    {
      hide Refs, Drawn, Handle.Is, Act;
      ghost var v := heap[h.ref];
      h.FinishTool(name, callId, result, failed, problem, v, handingOff);
      heap := heap[h.ref := v.(work := Act(handingOff, v.work, ToolAction.FinishTool(name, callId, result, failed, problem)))];
    }

    /** completeWorker, at the end of a run. */
    method CompleteWorker(h: Handle, result: string, ran: Outcome)
      requires Valid() && Mine(h) && h.ref < |heap| && heap[h.ref].phase == Live
      modifies this`heap, h
      ensures Valid() && View() == Put(old(View()), h.ref, Complete(old(heap)[h.ref], ran, result))
    {
      hide Refs, Drawn, Handle.Is, Complete;
      ghost var v := heap[h.ref];
      h.CompleteWorker(result, ran, v);
      heap := heap[h.ref := Complete(v, ran, result)];
    }

    /** remember's snapshot, taken under the handle's lock alone. */
    method SnapshotForArchive(h: Handle) returns (p: Past)
      requires Valid() && Mine(h) && h.ref < |heap| && heap[h.ref].phase == Stopped
      modifies this`heap
      ensures Valid() && p == SnapshotPast(old(heap)[h.ref])
      ensures View() == Put(old(View()), h.ref, old(heap)[h.ref].(phase := Snapped(p)))
    {
      hide Refs, Drawn;
      Reads(h);
      p := Past(h.id, h.role, h.parent, h.gen, h.collected, h.closeRequested, h.timeouts, h.tools);
      heap := heap[h.ref := heap[h.ref].(phase := Snapped(p))];
    }

    /** remember's archive update. */
    method StoreInArchive(h: Handle, p: Past)
      requires Valid() && Mine(h) && h.ref < |heap| && heap[h.ref].phase == Snapped(p)
      modifies this`heap, this`past, this`pastIds
      ensures Valid() && View() == Lifecycle.Remember(Put(old(View()), h.ref, old(heap)[h.ref].(phase := Archived)), p)
    {
      hide Refs, Drawn, Lifecycle.Remember;
      heap := heap[h.ref := heap[h.ref].(phase := Archived)];
      Remember(p);
    }

    method CloseDone(h: Handle)
      requires Valid() && Mine(h) && h.ref < |heap| && heap[h.ref].phase == Archived
      modifies this`heap, h
      ensures Valid() && View() == Put(old(View()), h.ref, old(heap)[h.ref].(phase := Done))
    {
      hide Refs, Drawn, Handle.Is;
      h.MarkDone(heap[h.ref]);
      heap := heap[h.ref := heap[h.ref].(phase := Done)];
    }

    // ---------- restoring ----------

    method NoteId(id: string)
      requires Valid()
      modifies this`counter
      ensures Valid() && View() == Lifecycle.NoteId(old(View()), id)
    {
      hide Told, Refs, Drawn, TrailingSeq;
      var n := TrailingSeq(id);
      if n > counter { counter := n; }
    }

    /** The larger of the stored failure count and those this process knows. */
    method Failures(id: string, failures: nat) returns (n: nat)
      requires Valid()
      ensures n == RestoredFailures(View(), id, failures)
    {
      hide Told, Handle.Is;
      n := failures;
      if id in past && past[id].timeouts > n { n := past[id].timeouts; }
      if id in agents {
        OnRoster(id);
        if agents[id].timeouts > n { n := agents[id].timeouts; }
      }
    }

    method SetFailures(h: Handle, n: nat)
      requires Valid() && Mine(h) && h.ref < |heap|
      modifies this`heap, h
      ensures Valid() && View() == old(View()).(heap := old(heap)[h.ref := old(heap)[h.ref].(timeouts := n)])
    {
      hide Refs, Drawn, Handle.Is;
      h.SetTimeouts(n, heap[h.ref]);
      heap := heap[h.ref := heap[h.ref].(timeouts := n)];
    }

    /** The handle on the roster starts over with the failure count it keeps. */
    method RestoreOnRoster(h: Handle, n: nat, now: nat)
      requires Valid() && Mine(h) && h.ref < |heap|
      modifies this`heap, this`pending, h
      ensures Valid() && View() == Lifecycle.NotePending(Put(old(View()), h.ref, Reset(At(old(View()), h.ref)).(timeouts := n)), h.ref)
    {
      hide Told, Refs, Drawn, Handle.Is, Renewed;
      RestoreAs(View(), h.ref, h.id, n);
      RenewSize(View(), h.ref);
      Renew(h, now);
      SetFailures(h, n);
    }

    lemma RenewSize(s: Reg, r: Ref)
      ensures |Renewed(s, r).heap| == |s.heap|
    {
    }

    method ClaimForRestore(id: string, role: string, failures: nat, parent: string, tools: Option<seq<string>>, now: nat)
      returns (h: Handle?, why: Option<Refusal>)
      requires Valid()
      modifies this`handles, this`heap, this`repr, this`agents, this`pending, this`counter, repr
      ensures Valid() && Answers(old(View()), Lifecycle.ClaimForRestore(old(View()), id, role, failures, parent, tools), h, why)
    {
      hide Told, Drawn, Handle.Is, ScopeFits, ParentAllowed, Enlist, Lifecycle.NoteId, Lifecycle.NotePending, RestoredFailures;
      if handingOff { return null, Some(HandingOff); }
      if closed { return null, Some(RegistryClosed); }
      var allowed := ParentFits(id, parent);
      if !allowed { return null, Some(CyclicParent); }
      var fits := ScopeIsWithin(parent, tools);
      if !fits { return null, Some(WidensScope); }
      if id in past && past[id].tools != tools { return null, Some(ScopeChanged); }
      var n := Failures(id, failures);
      if id in agents {
        var running := StillRuns(id);
        OnRoster(id);
        h := agents[id];
        if h.parent != parent { return null, Some(ParentChanged); }
        if running { return null, Some(StillRunning); }
        if h.tools != tools { return null, Some(ScopeChanged); }
        if n >= MAX_CONSECUTIVE_TIMEOUTS { return null, Some(TimeoutsExhausted); }
        InHeap(h);
        RestoreOnRoster(h, n, now);
      } else {
        if n >= MAX_CONSECUTIVE_TIMEOUTS { return null, Some(TimeoutsExhausted); }
        h := EnlistHandle(NewHandle(id, role, parent, 1, n, tools), now);
      }
      NoteId(id);
      why := None;
    }

    lemma InHeap(h: Handle)
      requires Told() && Mine(h)
      ensures h.ref < |heap|
    {
    }

    method TakeStored(h: Handle, generation: int, collected: bool, closing: bool)
      requires Told() && Mine(h)
      modifies this`heap, h
      ensures Told() && h.ref < |old(heap)|
      ensures var v := old(heap)[h.ref];
              heap == old(heap)[h.ref := v.(gen := if generation > 0 then generation else v.gen, collected := collected, closeRequested := closing)]
    {
      hide Handle.Is;
      ghost var v := heap[h.ref];
      h.TakeStored(generation, collected, closing, v);
      heap := heap[h.ref := v.(gen := if generation > 0 then generation else v.gen, collected := collected, closeRequested := closing)];
    }

    method RestoreCollection(h: Handle, generation: int, collected: bool, closing: bool)
      requires Valid() && Mine(h)
      modifies this`heap, this`pending, h
      ensures Valid() && View() == Lifecycle.RestoreCollection(old(View()), h.ref, generation, collected, closing)
    {
      hide Told, Refs, Drawn, Handle.Is, Lifecycle.NotePending;
      Reads(h);
      TakeStored(h, generation, collected, closing);
      RefsDrop(pending, {h.id});
      DrawnDrop(pending, handles, {h.id});
      pending := pending - {h.id};
      NotePending(h);
    }

    /** PlantFinished without the archiving that follows. A roster from before generations were kept counts as collected. */
    method PlantFinished(id: string, role: string, parent: string, generation: int, collected: bool, closing: bool,
                         timeouts: nat, tools: Option<seq<string>>, result: string, err: WorkerError, now: nat)
      returns (h: Handle?, why: Option<Refusal>)
      requires Valid()
      modifies this`handles, this`heap, this`repr, this`agents, this`pending, this`counter
      ensures Valid() && Answers(old(View()), Plant(old(View()),
                                   PlantedHandle(id, role, parent, generation, collected, closing, timeouts, tools, result, err)), h, why)
    {
      hide Valid, Plant, Answers;
      var gen, settled := generation, collected;
      if gen <= 0 { gen, settled := 1, true; }
      h, why := PlantHandle(Lifecycle.Handle(id, role, parent, gen, Done, settled, closing, None, timeouts, tools, result, err, IDLE_WORK), now);
    }

    /** Its locked insertion. */
    method PlantHandle(v: Lifecycle.Handle, now: nat) returns (h: Handle?, why: Option<Refusal>)
      requires Valid() && v.phase == Done
      modifies this`handles, this`heap, this`repr, this`agents, this`pending, this`counter
      ensures Valid() && Answers(old(View()), Plant(old(View()), v), h, why)
    {
      hide Told, Drawn, Handle.Is, ScopeFits, ParentAllowed, Enlist, Lifecycle.NoteId;
      if closed { return null, Some(RegistryClosed); }
      var allowed := ParentFits(v.id, v.parent);
      if !allowed { return null, Some(CyclicParent); }
      var fits := ScopeIsWithin(v.parent, v.tools);
      if !fits { return null, Some(WidensScope); }
      var running := StillRuns(v.id);
      if v.id in agents {
        OnRoster(v.id);
        if running { return null, Some(StillRunning); }
        return agents[v.id], None;
      }
      if v.id in past && past[v.id].tools != v.tools { return null, Some(ScopeChanged); }
      h := EnlistHandle(v, now);
      NoteId(v.id);
      why := None;
    }

    // ---------- one worker per role ----------

    /** recall: the conversation a resume would continue. */
    method Recall(id: string) returns (found: Recalled)
      requires Valid()
      ensures found == Lifecycle.Recall(View(), id)
    {
      hide Told, Handle.Is, Drawn;
      if closed { return NotFound(RegistryClosed); }
      if id in past { return Recalled.Found(past[id]); }
      var h := Find(id);
      if h == null { return NotFound(UnknownAgent); }
      Reads(h);
      if !h.done { return NotFound(StillRunning); }
      found := Recalled.Found(Past(h.id, h.role, h.parent, h.gen, h.collected, h.closeRequested, h.timeouts, h.tools));
    }

    /** Whether a handle of the table has the role and is, or is not, done; the search loops share it. */
    ghost predicate Fits(table: map<string, Handle>, id: string, role: string, done: bool)
      reads this, table.Values
    {
      id in table && table[id].role == role && table[id].done == done
    }

    /** A search of one table: it may find any handle that fits, and nothing only if none does. */
    method Search(table: map<string, Handle>, role: string, done: bool) returns (found: Option<string>)
      requires Told() && Drawn(table, handles)
      ensures found.Some? ==> Fits(table, found.value, role, done)
      ensures found.None? ==> forall id :: !Fits(table, id, role, done)
    {
      hide Told, Drawn;
      found := None;
      var todo := table.Keys;
      while todo != {}
        invariant todo <= table.Keys && (found.Some? ==> Fits(table, found.value, role, done))
        invariant found.None? ==> forall id :: id !in todo ==> !Fits(table, id, role, done)
        decreases |todo|
      {
        var id :| id in todo;
        if table[id].role == role && table[id].done == done {
          if found.None? { found := Some(id); } else if * { found := Some(id); }
        }
        todo := todo - {id};
      }
    }

    /** What a fit says about the registry's value. */
    lemma FitsIs(table: map<string, Handle>, role: string, done: bool)
      requires Told() && Drawn(table, handles)
      ensures forall id :: Fits(table, id, role, done) <==>
                id in table && At(View(), Refs(table)[id]).role == role && IsDone(At(View(), Refs(table)[id])) == done
    {
      forall id | id in table ensures table[id].role == At(View(), Refs(table)[id]).role && table[id].done == IsDone(At(View(), Refs(table)[id])) {
        Reads(table[id]);
      }
    }

    /** The oldest running worker of the role. */
    method RunningID(role: string) returns (found: Option<string>)
      requires Valid()
      ensures if role == "" then found == None else RoleLock.RunningAnswer(View(), role, found)
      ensures found.Some? ==> found.value in agents
      ensures forall id :: found.Some? && Fits(agents, id, role, false) ==> agents[found.value].spawned <= agents[id].spawned
    {
      hide Told, Drawn, Refs, View, Valid, RoleLock.RunningAnswer;
      if role == "" { return None; }
      found := None;
      var todo := agents.Keys;
      while todo != {}
        invariant todo <= agents.Keys && (found.Some? ==> Fits(agents, found.value, role, false))
        invariant forall id :: id !in todo && Fits(agents, id, role, false) ==>
                    found.Some? && agents[found.value].spawned <= agents[id].spawned
        decreases |todo|
      {
        var id :| id in todo;
        var h := agents[id];
        if h.role == role && !h.done && (found.None? || h.spawned < agents[found.value].spawned) { found := Some(id); }
        todo := todo - {id};
      }
      AnswersRunning(role, found);
    }

    lemma AnswersRunning(role: string, found: Option<string>)
      requires Valid() && (found.Some? ==> Fits(agents, found.value, role, false))
      requires found.None? ==> forall id :: !Fits(agents, id, role, false)
      ensures RoleLock.RunningAnswer(View(), role, found)
    {
      hide Told, Drawn;
      FitsIs(agents, role, false);
      if found.None? {
        forall id | id in View().agents && At(View(), View().agents[id]).role == role ensures IsDone(At(View(), View().agents[id])) {
          assert !Fits(agents, id, role, false);
        }
      }
    }

    /** What a search of a table for done handles of the role says about the registry's value. */
    lemma AnswersDone(table: map<string, Handle>, role: string, found: Option<string>)
      requires Told() && Drawn(table, handles) && (found.Some? ==> Fits(table, found.value, role, true))
      requires found.None? ==> forall id :: !Fits(table, id, role, true)
      ensures found.Some? ==> RoleLock.DoneIn(View(), Refs(table), role, found.value)
      ensures found.None? ==> forall id :: id in Refs(table) ==> !RoleLock.DoneIn(View(), Refs(table), role, id)
    {
      hide Told, Drawn;
      FitsIs(table, role, true);
      if found.None? {
        forall id | id in Refs(table) ensures !RoleLock.DoneIn(View(), Refs(table), role, id) {
          assert !Fits(table, id, role, true);
        }
      }
    }

    /** The latest archived conversation of the role whose worker does not run. */
    method SearchArchive(role: string) returns (found: Option<string>)
      requires Valid()
      ensures found.Some? ==> exists k :: 0 <= k < |pastIds| && pastIds[k] == found.value && RoleLock.ArchivedFree(View(), role, found.value)
                                && forall j :: k < j < |pastIds| ==> !RoleLock.ArchivedFree(View(), role, pastIds[j])
      ensures found.None? ==> forall j :: 0 <= j < |pastIds| ==> !RoleLock.ArchivedFree(View(), role, pastIds[j])
    {
      hide Told, Drawn, Refs;
      var i := |pastIds|;
      while i > 0
        invariant 0 <= i <= |pastIds| && forall j :: i <= j < |pastIds| ==> !RoleLock.ArchivedFree(View(), role, pastIds[j])
      {
        i := i - 1;
        var id := pastIds[i];
        if id in past && past[id].role == role {
          var running := StillRuns(id);
          if !running { return Some(id); }
        }
      }
      return None;
    }

    method ReusableFinishedID(role: string) returns (found: Option<string>)
      requires Valid() && forall id :: id in past ==> id in pastIds
      ensures if role == "" then found == None else RoleLock.FinishedAnswer(View(), role, found)
    {
      hide Told, Drawn, Fits, Refs, RoleLock.ArchivedFree, RoleLock.DoneIn;
      if role == "" { return None; }
      found := SearchArchive(role);
      if found.Some? { return; }
      ArchiveExhausted(role);
      found := Search(agents, role, true);
      AnswersDone(agents, role, found);
      if found.Some? { return; }
      found := Search(pending, role, true);
      AnswersDone(pending, role, found);
    }

    lemma ArchiveExhausted(role: string)
      requires forall id :: id in past ==> id in pastIds
      requires forall j :: 0 <= j < |pastIds| ==> !RoleLock.ArchivedFree(View(), role, pastIds[j])
      ensures forall id :: id in past ==> !RoleLock.ArchivedFree(View(), role, id)
    {
    }

    method RoleBusy(role: string) returns (busy: bool)
      requires Valid()
      ensures busy == RoleLock.RoleBusy(View(), pendingRoles, role)
    {
      hide Told, Drawn, Fits;
      if role in pendingRoles && pendingRoles[role] > 0 { return true; }
      FitsIs(agents, role, false);
      FitsIs(agents, role, true);
      var running := Search(agents, role, false);
      var done := Search(agents, role, true);
      if running.Some? || done.Some? {
        Held(role, if running.Some? then running.value else done.value);
        return true;
      }
      NobodyHas(role);
      busy := exists id :: id in past && past[id].role == role;
    }

    lemma Held(role: string, id: string)
      requires id in View().agents && At(View(), View().agents[id]).role == role
      ensures RoleLock.RoleBusy(View(), pendingRoles, role)
    {
    }

    lemma NobodyHas(role: string)
      requires Valid() && (forall id :: !Fits(agents, id, role, false)) && (forall id :: !Fits(agents, id, role, true))
      ensures forall id :: id in View().agents ==> At(View(), View().agents[id]).role != role
    {
      FitsIs(agents, role, false);
      FitsIs(agents, role, true);
    }

    method ClaimReadableRole(stem: string) returns (pick: string)
      requires Valid()
      modifies this`pendingRoles
      ensures Valid() && View() == old(View()) && pick == RoleLock.Pick(View(), old(pendingRoles), stem)
      ensures pendingRoles == old(pendingRoles)[pick := RoleLock.Claims(old(pendingRoles), pick) + 1]
    {
      hide Told, Drawn, Refs, RoleLock.RoleBusy, RoleLock.Candidate;
      var base := if stem == "" || stem == MANAGER then "worker" else stem;
      pick := FirstFree(base);
      pendingRoles := pendingRoles[pick := if pick in pendingRoles then pendingRoles[pick] + 1 else 1];
    }

    /** The stem itself, or the first of its numbered names that is free. */
    method FirstFree(stem: string) returns (pick: string)
      requires Valid()
      ensures pick == RoleLock.PickFrom(View(), pendingRoles, stem, 1)
    {
      hide Told, Drawn, Refs, RoleLock.RoleBusy, RoleLock.Candidate, Valid;
      var n := 1;
      while n <= RoleLock.LAST_SUFFIX
        invariant 1 <= n <= RoleLock.LAST_SUFFIX + 1
        invariant RoleLock.PickFrom(View(), pendingRoles, stem, 1) == RoleLock.PickFrom(View(), pendingRoles, stem, n)
      {
        var busy := RoleBusy(RoleLock.Candidate(stem, n));
        if !busy { return RoleLock.Candidate(stem, n); }
        n := n + 1;
      }
      return stem;
    }

    method ReleaseRoleClaim(role: string)
      requires Valid()
      modifies this`pendingRoles
      ensures Valid() && View() == old(View()) && pendingRoles == RoleLock.Unclaim(old(pendingRoles), role)
    {
      hide Told, Drawn, Refs;
      var claims := if role in pendingRoles then pendingRoles[role] else 0;
      if claims <= 1 { pendingRoles := pendingRoles - {role}; } else { pendingRoles := pendingRoles[role := claims - 1]; }
    }

    // ---------- waiting for pending generations ----------

    /** The first section of WaitPendingCompletion, for one entry. */
    method AcceptOne(e: PendingWait.Expected, seen: map<string, int>) returns (ok: bool)
      requires Valid()
      ensures ok <==> !closed && e.id in View().pending && e.gen > 0 && e.running && e.id !in seen
                      && At(View(), View().pending[e.id]).gen == e.gen
    {
      hide Told, Handle.Is;
      if closed || e.id !in pending || e.gen <= 0 || !e.running || e.id in seen { return false; }
      Reads(pending[e.id]);
      return pending[e.id].gen == e.gen;
    }

    method BeginWait(expected: seq<PendingWait.Expected>) returns (ok: bool, seen: map<string, int>)
      requires Valid()
      ensures ok <==> PendingWait.Accepted(View(), expected)
      ensures ok ==> seen == PendingWait.Listing(expected)
    {
      hide Told, Drawn, Refs, Valid, View;
      seen := map[];
      if expected == [] { return false, seen; }
      for n := 0 to |expected|
        invariant AcceptedTo(expected, n) && seen == PendingWait.Listing(expected[..n])
      {
        ListedSoFar(expected, n);
        ok := AcceptOne(expected[n], seen);
        AcceptNext(expected, n);
        if !ok { return; }
        seen := seen[expected[n].id := expected[n].gen];
        assert expected[..n + 1][..n] == expected[..n];
      }
      assert expected[..|expected|] == expected;
      AcceptAll(expected);
      ok := true;
    }

    /** The first n entries pass. */
    ghost predicate AcceptedTo(expected: seq<PendingWait.Expected>, n: nat)
      reads this
      requires n <= |expected|
    {
      && (forall i, j :: 0 <= i < j < n ==> expected[i].id != expected[j].id)
      && forall i :: 0 <= i < n ==> Passes(expected[i])
    }

    ghost predicate Passes(e: PendingWait.Expected)
      reads this
    {
      !closed && e.gen > 0 && e.running && e.id in View().pending && At(View(), View().pending[e.id]).gen == e.gen
    }

    lemma ListedSoFar(expected: seq<PendingWait.Expected>, n: nat)
      requires n < |expected| && AcceptedTo(expected, n)
      ensures expected[n].id in PendingWait.Listing(expected[..n]) <==> exists i :: 0 <= i < n && expected[i].id == expected[n].id
    {
      PendingWait.ListingIs(expected[..n]);
      if expected[n].id in PendingWait.Listing(expected[..n]) {
        var i :| 0 <= i < n && expected[..n][i].id == expected[n].id;
        assert expected[i].id == expected[n].id;
      }
      if i :| 0 <= i < n && expected[i].id == expected[n].id {
        assert expected[..n][i].id == expected[n].id;
      }
    }

    lemma AcceptNext(expected: seq<PendingWait.Expected>, n: nat)
      requires n < |expected| && AcceptedTo(expected, n)
      ensures AcceptedTo(expected, n + 1) <==> Passes(expected[n]) && !exists i :: 0 <= i < n && expected[i].id == expected[n].id
      ensures !AcceptedTo(expected, n + 1) ==> !PendingWait.Accepted(View(), expected)
    {
    }

    lemma AcceptAll(expected: seq<PendingWait.Expected>)
      requires expected != [] && AcceptedTo(expected, |expected|)
      ensures PendingWait.Accepted(View(), expected)
    {
      assert Passes(expected[0]);
      forall i | 0 <= i < |expected| ensures Passes(expected[i]) {}
    }

    /** The last section: how many pending generations are done and listed. */
    method CountMatches(seen: map<string, int>) returns (matched: nat)
      requires Valid()
      ensures matched == |PendingWait.Matching(View(), seen)|
    {
      hide Told, Drawn, Valid, View, MatchesBut, PendingWait.Matching;
      matched := 0;
      var todo := pending.Keys;
      MatchesStart(seen);
      while todo != {}
        invariant todo <= pending.Keys && matched == MatchesBut(seen, todo)
        decreases |todo|
      {
        var id :| id in todo;
        MatchesNext(seen, todo, id);
        var hit := Matches(id, seen);
        if hit { matched := matched + 1; }
        todo := todo - {id};
      }
    }

    ghost function MatchesBut(seen: map<string, int>, todo: set<string>): nat
      reads this
    {
      |PendingWait.Matching(View(), seen) - todo|
    }

    lemma MatchesStart(seen: map<string, int>)
      ensures MatchesBut(seen, pending.Keys) == 0 && MatchesBut(seen, {}) == |PendingWait.Matching(View(), seen)|
    {
      assert PendingWait.Matching(View(), seen) - pending.Keys == {};
      assert PendingWait.Matching(View(), seen) - {} == PendingWait.Matching(View(), seen);
    }

    lemma MatchesNext(seen: map<string, int>, todo: set<string>, id: string)
      requires id in todo
      ensures MatchesBut(seen, todo - {id}) == MatchesBut(seen, todo) + if id in PendingWait.Matching(View(), seen) then 1 else 0
    {
      var all := PendingWait.Matching(View(), seen);
      if id in all {
        assert all - (todo - {id}) == (all - todo) + {id};
      } else {
        assert all - (todo - {id}) == all - todo;
      }
    }

    method Matches(id: string, seen: map<string, int>) returns (hit: bool)
      requires Valid() && id in pending
      ensures hit == (id in PendingWait.Matching(View(), seen))
    {
      hide Told, Handle.Is;
      Reads(pending[id]);
      var h := pending[id];
      return id in seen && seen[id] == h.gen && h.gen > 0 && h.done;
    }
  }
}
