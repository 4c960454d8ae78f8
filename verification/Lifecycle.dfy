/**
 The registry as a value: its tables, its handles, and what each lock-held section of the source does
 to them (swarm.go, spawn.go, settlement.go, resume.go, delegation.go, restore.go, worker_timeout.go).

 A handle is named by its position in heap, which only grows, so comparing positions is comparing
 pointers. The classes in Registry.dfy perform these sections on objects and are proved to compute
 the functions of this file; the theorems about whole runs are stated over them.
 */
module Lifecycle {
  import opened Common
  import opened WorkerId
  import opened ToolScope
  import opened Handoff

  type Ref = nat

  const MANAGER := "manager"
  const MAX_CONSECUTIVE_TIMEOUTS := 3

  /** Where the goroutine of a handle's current generation stands, in the order of its deferred effects. */
  datatype Phase =
    | Live                  // started or starting
    | Stopped               // completeWorker ran: finished is set
    | Snapped(past: Past)   // finishAgent took the snapshot remember will store
    | Archived              // remember stored it
    | Done                  // the done channel is closed

  datatype WorkerError = NoError | RunError | TimeoutError | HandoffError

  /** A handle's fields. cancel names the run context startWorker installed. */
  datatype Handle = Handle(
    id: string, role: string, parent: string, gen: int, phase: Phase,
    collected: bool, closeRequested: bool, cancel: Option<nat>, timeouts: nat,
    tools: Option<seq<string>>, result: string, err: WorkerError, work: Work)

  /** An archived conversation, with the settlement marks of its checkpoint. */
  datatype Past = Past(
    id: string, role: string, parent: string, gen: int,
    collected: bool, closeRequested: bool, timeouts: nat, tools: Option<seq<string>>)

  datatype Reg = Reg(
    agents: map<string, Ref>, pending: map<string, Ref>,
    past: map<string, Past>, pastIds: seq<string>,
    heap: seq<Handle>, counter: Int64,
    closed: bool, handingOff: bool, delegation: bool, cap: int, archiveCap: nat)

  /** The runtime identity of a tool call inside a worker. */
  datatype Caller = Caller(id: string, gen: int)

  datatype Refusal =
    | HandingOff | RegistryClosed | CallerInactive | AtCapacity | StillRunning | UnknownAgent
    | TimeoutsExhausted | WidensScope | ScopeChanged | CyclicParent | ParentChanged

  datatype Attempt = Admitted(reg: Reg, ref: Ref) | Denied(why: Refusal)

  const NOBODY := Handle("", "", "", 0, Done, false, false, None, 0, None, "", NoError, IDLE_WORK)

  function At(s: Reg, r: Ref): Handle { if r < |s.heap| then s.heap[r] else NOBODY }

  function Put(s: Reg, r: Ref, h: Handle): Reg {
    if r < |s.heap| then s.(heap := s.heap[r := h]) else s
  }

  predicate Finished(h: Handle) { h.phase != Live }
  predicate IsDone(h: Handle) { h.phase == Done }

  function EmptyReg(cap: int, archiveCap: nat, delegation: bool): Reg {
    Reg(map[], map[], map[], [], [], 0, false, false, delegation, cap, archiveCap)
  }

  // ---------- lookups ----------

  function Known(s: Reg): set<string> { s.agents.Keys + s.pending.Keys + s.past.Keys }

  function ParentOf(s: Reg, id: string): string {
    if id in s.agents then At(s, s.agents[id]).parent
    else if id in s.pending then At(s, s.pending[id]).parent
    else if id in s.past then s.past[id].parent
    else ""
  }

  function ToolsOf(s: Reg, id: string): Option<seq<string>> {
    if id in s.agents then At(s, s.agents[id]).tools
    else if id in s.pending then At(s, s.pending[id]).tools
    else if id in s.past then s.past[id].tools
    else None
  }

  /** get: the handle an id resolves to, on the roster or among uncollected results. */
  function Get(s: Reg, id: string): Option<Ref> {
    if s.closed then None
    else if id in s.agents then Some(s.agents[id])
    else if id in s.pending then Some(s.pending[id])
    else None
  }

  function LiveIds(s: Reg): set<string> { set id | id in s.agents && !IsDone(At(s, s.agents[id])) }

  function LiveCount(s: Reg): nat { |LiveIds(s)| }

  predicate CallerActive(s: Reg, c: Caller) {
    c.id in s.agents &&
    var h := At(s, s.agents[c.id]);
    h.gen == c.gen && !h.closeRequested && !Finished(h)
  }

  /** The loop of descendantLocked: climb from id, stopping at the root or at an id seen before. */
  function Climb(s: Reg, id: string, ancestor: string, seen: set<string>): bool
    decreases |Known(s) - seen|, if id == "" then 0 else 1
  {
    if id == "" || id in seen then false
    else
      var up := ParentOf(s, id);
      if up == ancestor then true
      else
        assert id in Known(s) ==> Known(s) - (seen + {id}) < Known(s) - seen;
        assert id !in Known(s) ==> Known(s) - (seen + {id}) == Known(s) - seen;
        assert id in Known(s) ==> |Known(s) - (seen + {id})| < |Known(s) - seen| by {
          if id in Known(s) { assert Known(s) - seen == (Known(s) - (seen + {id})) + {id}; }
        }
        Climb(s, up, ancestor, seen + {id})
  }

  predicate Descendant(s: Reg, id: string, ancestor: string) { Climb(s, id, ancestor, {}) }

  // ---------- settlement ----------

  function NotePending(s: Reg, r: Ref): Reg {
    var h := At(s, r);
    if !h.collected && !h.closeRequested then s.(pending := s.pending[h.id := r]) else s
  }

  /** The marks an archived checkpoint of the same generation takes from its handle. */
  function Marked(past: map<string, Past>, h: Handle): map<string, Past> {
    if h.id in past && past[h.id].gen == h.gen
    then past[h.id := past[h.id].(collected := h.collected, closeRequested := h.closeRequested)]
    else past
  }

  predicate Collectable(s: Reg, r: Ref, gen: int) {
    var h := At(s, r);
    h.id in s.pending && s.pending[h.id] == r && h.gen == gen
  }

  function Collect(s: Reg, r: Ref, gen: int, closing: bool): Reg {
    if !Collectable(s, r, gen) then s
    else
      var h := At(s, r).(collected := !closing, closeRequested := closing);
      Put(s, r, h).(pending := s.pending - {h.id}, past := Marked(s.past, h))
  }

  // ---------- the end of a run ----------

  datatype Outcome = Succeeded | Failed(watchdog: bool)

  function Complete(h: Handle, o: Outcome, result: string): Handle {
    if h.work.handoff.cancelled || (h.work.handoff.read && o.Succeeded?)
    then h.(phase := Stopped, result := "", err := HandoffError)
    else if o.Failed? && o.watchdog
    then h.(phase := Stopped, result := result, err := TimeoutError, timeouts := h.timeouts + 1)
    else h.(phase := Stopped, result := result, err := if o.Failed? then RunError else NoError,
            timeouts := if o.Succeeded? || !h.work.handoff.requested then 0 else h.timeouts)
  }

  function SnapshotPast(h: Handle): Past {
    Past(h.id, h.role, h.parent, h.gen, h.collected, h.closeRequested, h.timeouts, h.tools)
  }

  predicate Needed(s: Reg, id: string) { exists child :: child in Known(s) && Descendant(s, child, id) }

  /** The first archived id no known worker descends from, scanning from n. */
  function FirstUnneeded(s: Reg, n: nat): (i: nat)
    requires n <= |s.pastIds|
    ensures n <= i <= |s.pastIds|
    ensures i < |s.pastIds| ==> !Needed(s, s.pastIds[i])
    ensures forall k :: n <= k < i ==> Needed(s, s.pastIds[k])
    decreases |s.pastIds| - n
  {
    if n == |s.pastIds| || !Needed(s, s.pastIds[n]) then n else FirstUnneeded(s, n + 1)
  }

  function Forget(s: Reg, i: nat): Reg
    requires i < |s.pastIds|
  {
    s.(pastIds := s.pastIds[..i] + s.pastIds[i + 1..], past := s.past - {s.pastIds[i]})
  }

  function Trim(s: Reg): Reg
    decreases |s.pastIds|
  {
    if |s.pastIds| <= s.archiveCap then s
    else
      var i := FirstUnneeded(s, 0);
      if i == |s.pastIds| then s else Trim(Forget(s, i))
  }

  /** The eviction used before delegation: oldest first. */
  function Evict(s: Reg): Reg
    decreases |s.pastIds|
  {
    if |s.pastIds| <= s.archiveCap then s else Evict(Forget(s, 0))
  }

  function Enter(s: Reg, p: Past): Reg {
    s.(pastIds := if p.id in s.past then s.pastIds else s.pastIds + [p.id], past := s.past[p.id := p])
  }

  function Remember(s: Reg, p: Past): Reg {
    if s.closed then s
    else if s.delegation then Trim(Enter(s, p))
    else Evict(Enter(s, p))
  }

  function Stats(s: Reg): Reg {
    s.(agents := map id | id in s.agents && !IsDone(At(s, s.agents[id])) :: s.agents[id])
  }

  // ---------- admission ----------

  function NewHandle(id: string, role: string, parent: string, gen: int, timeouts: nat, tools: Option<seq<string>>): Handle {
    Handle(id, role, parent, gen, Live, false, false, None, timeouts, tools, "", NoError, IDLE_WORK)
  }

  function Enlist(s: Reg, h: Handle): Reg {
    NotePending(s.(heap := s.heap + [h], agents := s.agents[h.id := |s.heap|]), |s.heap|)
  }

  /** spawnAgentWithModel's admission check and insertion, under one lock. enabling: the config delegates. */
  function Spawn(s: Reg, role: string, caller: Option<Caller>, enabling: bool, tools: Option<seq<string>>, admit: bool): Attempt {
    if s.handingOff then Denied(HandingOff)
    else if s.closed then Denied(RegistryClosed)
    else if caller.Some? && !CallerActive(s, caller.value) then Denied(CallerInactive)
    else if admit && LiveCount(s) >= s.cap then Denied(AtCapacity)
    else Admitted(Enlist(Numbered(s, enabling), SpawnedHandle(s, role, caller, tools)), |s.heap|)
  }

  /** The registry once spawn took its number. */
  function Numbered(s: Reg, enabling: bool): Reg {
    s.(delegation := s.delegation || enabling, counter := Increment(s.counter))
  }

  function SpawnedHandle(s: Reg, role: string, caller: Option<Caller>, tools: Option<seq<string>>): Handle {
    NewHandle(Mint(role, Increment(s.counter)), role, if caller.Some? then caller.value.id else "", 1, 0, tools)
  }

  /** The handle a resume makes for an id that left the roster. */
  function ResumedHandle(p: Past): Handle { NewHandle(p.id, p.role, p.parent, p.gen + 1, p.timeouts, p.tools) }

  datatype Recalled = Found(past: Past) | NotFound(why: Refusal)

  function Recall(s: Reg, id: string): Recalled {
    if s.closed then NotFound(RegistryClosed)
    else if id in s.past then Found(s.past[id])
    else if Get(s, id).None? then NotFound(UnknownAgent)
    else if IsDone(At(s, Get(s, id).value)) then Found(SnapshotPast(At(s, Get(s, id).value)))
    else NotFound(StillRunning)
  }

  function Reset(h: Handle): Handle {
    h.(phase := Live, gen := h.gen + 1, collected := false, closeRequested := false, cancel := None,
       result := "", err := NoError, work := h.work.(handoff := NO_HANDOFF))
  }

  /** The registry once handle r started its next generation. */
  function Renewed(s: Reg, r: Ref): Reg { NotePending(Put(s, r, Reset(At(s, r))), r) }

  /** checkRestoredWorkerToolParentLocked: a known parent's explicit selection bounds the child's. */
  predicate ScopeFits(s: Reg, parent: string, tools: Option<seq<string>>) {
    parent == "" || Narrower(ToolsOf(s, parent), tools)
  }

  /** claimForResume, for a conversation recalled at some earlier time. */
  function ClaimForResume(s: Reg, p: Past, admit: bool): Attempt {
    if s.handingOff then Denied(HandingOff)
    else if s.closed then Denied(RegistryClosed)
    else if p.id in s.agents && !IsDone(At(s, s.agents[p.id])) then Denied(StillRunning)
    else if !ScopeFits(s, p.parent, p.tools) then Denied(WidensScope)
    else if admit && LiveCount(s) >= s.cap then Denied(AtCapacity)
    else if p.id in s.agents then
      var r := s.agents[p.id];
      if At(s, r).timeouts >= MAX_CONSECUTIVE_TIMEOUTS then Denied(TimeoutsExhausted)
      else Admitted(Renewed(s, r), r)
    else if p.timeouts >= MAX_CONSECUTIVE_TIMEOUTS then Denied(TimeoutsExhausted)
    else Admitted(Enlist(s, ResumedHandle(p)), |s.heap|)
  }

  lemma SpawnShape(s: Reg, role: string, caller: Option<Caller>, enabling: bool, tools: Option<seq<string>>, admit: bool)
    ensures var a := Spawn(s, role, caller, enabling, tools, admit);
            a.Admitted? ==>
              && !s.closed && !s.handingOff && (caller.Some? ==> CallerActive(s, caller.value))
              && (admit ==> LiveCount(s) < s.cap)
              && a == Admitted(Enlist(Numbered(s, enabling), SpawnedHandle(s, role, caller, tools)), |s.heap|)
  {
  }

  /** A resume either renews the finished handle on the roster, or makes a new one for an id not on it. */
  lemma ClaimShape(s: Reg, p: Past, admit: bool)
    ensures var a := ClaimForResume(s, p, admit);
            a.Admitted? ==>
              && !s.closed && !s.handingOff && (admit ==> LiveCount(s) < s.cap) && ScopeFits(s, p.parent, p.tools)
              && (if p.id in s.agents
                  then var r := s.agents[p.id];
                       IsDone(At(s, r)) && At(s, r).timeouts < MAX_CONSECUTIVE_TIMEOUTS && a == Admitted(Renewed(s, r), r)
                  else p.timeouts < MAX_CONSECUTIVE_TIMEOUTS && a == Admitted(Enlist(s, ResumedHandle(p)), |s.heap|))
  {
  }

  // ---------- closing ----------

  /** The handles closeSubtree looks at: the roster, overridden by uncollected results. */
  function Reachable(s: Reg): map<string, Ref> { s.agents + s.pending }

  function Subtree(s: Reg, root: string): set<string> {
    {root} + set id | id in Reachable(s) && id != root && Descendant(s, id, root)
  }

  function CloseOne(h: Handle): Handle {
    h.(collected := IsDone(h), closeRequested := !IsDone(h))
  }

  function CloseHandles(s: Reg, ids: set<string>): seq<Handle> {
    seq(|s.heap|, r requires 0 <= r < |s.heap| =>
      if s.heap[r].id in ids && s.heap[r].id in Reachable(s) && Reachable(s)[s.heap[r].id] == r
      then CloseOne(s.heap[r]) else s.heap[r])
  }

  function ClosePast(s: Reg, ids: set<string>): map<string, Past> {
    map id | id in s.past ::
      if id !in ids then s.past[id]
      else if id in Reachable(s) then Marked(s.past, CloseOne(At(s, Reachable(s)[id])))[id]
      else s.past[id].(collected := true, closeRequested := false)
  }

  /** closeSubtree; nothing changes for an id the registry does not know. */
  function CloseSubtree(s: Reg, root: string): Reg {
    if root !in Reachable(s) && root !in s.past then s
    else
      var ids := Subtree(s, root);
      s.(heap := CloseHandles(s, ids), pending := s.pending - ids, past := ClosePast(s, ids))
  }

  /** Cleanup's locked part: with delegation, running workers lose the right to delegate before any is cancelled. */
  function CleanupMarks(s: Reg): Reg {
    if !s.delegation then s
    else s.(heap := seq(|s.heap|, r requires 0 <= r < |s.heap| =>
      if s.heap[r].id in s.agents && s.agents[s.heap[r].id] == r && !IsDone(s.heap[r])
      then s.heap[r].(closeRequested := true) else s.heap[r]))
  }

  function CloseRegistry(s: Reg): Reg {
    s.(closed := true, agents := map[], pending := map[], past := map[], pastIds := [])
  }

  // ---------- handoff and retry budget ----------

  function BeginHandoff(s: Reg): Reg {
    s.(handingOff := true, heap := seq(|s.heap|, r requires 0 <= r < |s.heap| =>
      if s.heap[r].id in s.agents && s.agents[s.heap[r].id] == r && !Finished(s.heap[r])
      then s.heap[r].(work := s.heap[r].work.(handoff := s.heap[r].work.handoff.(requested := true)))
      else s.heap[r]))
  }

  function ResetTimeouts(s: Reg): Reg {
    s.(heap := seq(|s.heap|, r requires 0 <= r < |s.heap| =>
         if s.heap[r].id in s.agents && s.agents[s.heap[r].id] == r then s.heap[r].(timeouts := 0) else s.heap[r]),
       past := map id | id in s.past :: s.past[id].(timeouts := 0))
  }

  // ---------- restoring ----------

  /** validateParentRelationLocked. */
  predicate ParentAllowed(s: Reg, id: string, parent: string) {
    parent != id && !Descendant(s, parent, id)
  }

  function NoteId(s: Reg, id: string): Reg {
    if TrailingSeq(id) > s.counter then s.(counter := TrailingSeq(id)) else s
  }

  function Max(a: nat, b: nat): nat { if a > b then a else b }

  /** The stored failure count never lowers what this process has counted. */
  function RestoredFailures(s: Reg, id: string, failures: nat): nat {
    var kept := if id in s.past then Max(failures, s.past[id].timeouts) else failures;
    if id in s.agents then Max(kept, At(s, s.agents[id]).timeouts) else kept
  }

  /** claimForRestore. The restored tool selection must be the recorded one. */
  function ClaimForRestore(s: Reg, id: string, role: string, failures: nat, parent: string, tools: Option<seq<string>>): Attempt {
    if s.handingOff then Denied(HandingOff)
    else if s.closed then Denied(RegistryClosed)
    else if !ParentAllowed(s, id, parent) then Denied(CyclicParent)
    else if !ScopeFits(s, parent, tools) then Denied(WidensScope)
    else if id in s.past && s.past[id].tools != tools then Denied(ScopeChanged)
    else if id in s.agents then
      var r := s.agents[id];
      if At(s, r).parent != parent then Denied(ParentChanged)
      else if !IsDone(At(s, r)) then Denied(StillRunning)
      else if At(s, r).tools != tools then Denied(ScopeChanged)
      else if RestoredFailures(s, id, failures) >= MAX_CONSECUTIVE_TIMEOUTS then Denied(TimeoutsExhausted)
      else
        var h := Reset(At(s, r));
        Admitted(NoteId(NotePending(Put(s, r, h.(timeouts := RestoredFailures(s, id, failures))), r), id), r)
    else if RestoredFailures(s, id, failures) >= MAX_CONSECUTIVE_TIMEOUTS then Denied(TimeoutsExhausted)
    else Admitted(NoteId(Enlist(s, NewHandle(id, role, parent, 1, RestoredFailures(s, id, failures), tools)), id), |s.heap|)
  }

  /** restoreCollection: the stored generation and settlement marks of the handle just claimed. */
  function RestoreCollection(s: Reg, r: Ref, gen: int, collected: bool, closing: bool): Reg {
    var h := At(s, r);
    var h' := h.(gen := if gen > 0 then gen else h.gen, collected := collected, closeRequested := closing);
    NotePending(Put(s, r, h').(pending := s.pending - {h.id}), r)
  }

  /** PlantFinished's insertion; a roster predating collection tracking counts as collected. */
  function Plant(s: Reg, h: Handle): Attempt {
    if s.closed then Denied(RegistryClosed)
    else if !ParentAllowed(s, h.id, h.parent) then Denied(CyclicParent)
    else if !ScopeFits(s, h.parent, h.tools) then Denied(WidensScope)
    else if h.id in s.agents then
      (if IsDone(At(s, s.agents[h.id])) then Admitted(s, s.agents[h.id]) else Denied(StillRunning))
    else if h.id in s.past && s.past[h.id].tools != h.tools then Denied(ScopeChanged)
    else Admitted(NoteId(Enlist(s, h), h.id), |s.heap|)
  }

  function PlantedHandle(id: string, role: string, parent: string, gen: int, collected: bool, closing: bool,
                         timeouts: nat, tools: Option<seq<string>>, result: string, err: WorkerError): Handle {
    Handle(id, role, parent, if gen <= 0 then 1 else gen, Done, gen <= 0 || collected, closing, None,
           timeouts, tools, result, err, IDLE_WORK)
  }
}
