/**
 Who delegated to whom, over whole runs (delegation.go, spawn.go, resume.go). The parents the registry
 can still look up are the ones that really spawned each worker: no record is lost to pruning or
 trimming, so closing a subtree reaches every worker below its root, however old the links.
 */
module Family {
  import opened Common
  import opened Order
  import opened WorkerId
  import opened ToolScope
  import opened Handoff
  import opened Lifecycle
  import opened Runs
  import opened Soundness
  import opened Settlement
  import opened Delegation

  // ---------- one worker, one identity ----------

  predicate SameKin(h: Handle, h': Handle) { h'.role == h.role && h'.parent == h.parent && h'.tools == h.tools }

  /** All handles of an id are the same worker. */
  ghost predicate KinHeap(s: Reg) {
    forall q, r :: 0 <= q < r < |s.heap| && s.heap[q].id == s.heap[r].id ==> SameKin(s.heap[q], s.heap[r])
  }

  /** A recorded conversation is of a worker this process had. */
  ghost predicate KinPast(s: Reg, p: Past) { exists r :: 0 <= r < |s.heap| && SameWorker(p, s.heap[r]) }

  ghost predicate KinWorld(w: World) {
    && KinHeap(w.reg)
    && (forall id :: id in w.reg.past ==> KinPast(w.reg, w.reg.past[id]))
    && (forall p :: p in w.recalled ==> KinPast(w.reg, p))
  }

  lemma KinStays(s: Reg, s': Reg)
    requires Extends(s, s')
    ensures forall p :: KinPast(s, p) ==> KinPast(s', p)
  {
    forall p | KinPast(s, p) ensures KinPast(s', p) {
      var r :| 0 <= r < |s.heap| && SameWorker(p, s.heap[r]);
      assert Advances(s.heap[r], s'.heap[r]);
    }
  }

  lemma KinExtends(s: Reg, s': Reg)
    requires KinHeap(s) && Extends(s, s') && |s'.heap| == |s.heap|
    ensures KinHeap(s')
  {
    forall q, r | 0 <= q < r < |s'.heap| && s'.heap[q].id == s'.heap[r].id ensures SameKin(s'.heap[q], s'.heap[r]) {
      assert Advances(s.heap[q], s'.heap[q]) && Advances(s.heap[r], s'.heap[r]);
    }
  }

  /** A new handle is of an id never seen, or of the worker its recalled conversation belongs to. */
  lemma NewbornKin(w: World, step: Step)
    requires SoundWorld(w) && KinWorld(w) && Enabled(w, step) && Enlisted(w.reg, Apply(w, step).reg, step)
    ensures var s, h := w.reg, Apply(w, step).reg.heap[|w.reg.heap|];
            !Seen(s, h.id) || (step.Claim? && h == ResumedHandle(step.p) && KinPast(s, step.p))
  {
    hide Sound, TrailingSeq, Apply, TokenHolds, SnapsMatch, ScopeFits, ParentAllowed, CallerActive, Mint, Seen, KinPast;
    SoundParts(w.reg);
    if step.SpawnWorker? { MintIsCold(w.reg, step.role); }
  }

  lemma EnlistKin(s: Reg, s': Reg, h: Handle)
    requires KinHeap(s) && s'.heap == s.heap + [h]
    requires !Seen(s, h.id) || exists q :: 0 <= q < |s.heap| && s.heap[q].id == h.id && SameKin(s.heap[q], h)
    ensures KinHeap(s')
  {
    forall q, r | 0 <= q < r < |s'.heap| && s'.heap[q].id == s'.heap[r].id ensures SameKin(s'.heap[q], s'.heap[r]) {
      if r == |s.heap| {
        assert s'.heap[q] == s.heap[q] && Seen(s, h.id);
        var m :| 0 <= m < |s.heap| && s.heap[m].id == h.id && SameKin(s.heap[m], h);
      } else {
        assert s'.heap[q] == s.heap[q] && s'.heap[r] == s.heap[r];
      }
    }
  }

  lemma EnlistedKin(w: World, step: Step)
    requires SoundWorld(w) && KinWorld(w) && Enabled(w, step) && Enlisted(w.reg, Apply(w, step).reg, step)
    ensures KinHeap(Apply(w, step).reg)
  {
    hide SoundWorld, Apply, Enabled, Newborn, Seen, KinHeap;
    var s, s' := w.reg, Apply(w, step).reg;
    NewbornKin(w, step);
    var h := s'.heap[|s.heap|];
    assert s'.heap == s.heap + [h];
    if step.Claim? && KinPast(s, step.p) {
      var q :| 0 <= q < |s.heap| && SameWorker(step.p, s.heap[q]);
    }
    EnlistKin(s, s', h);
  }

  lemma StepKinHeap(w: World, step: Step)
    requires SoundWorld(w) && KinWorld(w) && Enabled(w, step)
    ensures KinHeap(Apply(w, step).reg)
  {
    hide SoundWorld, Apply, Enabled, Newborn, KinHeap, KinPast, Renewed, Enlisted, Extends;
    var s, s' := w.reg, Apply(w, step).reg;
    StepExtends(w, step);
    StepSizes(w, step);
    if |s'.heap| == |s.heap| { KinWorldKeeps(w, s'); } else { EnlistedKin(w, step); }
  }

  lemma KinWorldKeeps(w: World, s': Reg)
    requires KinWorld(w) && Extends(w.reg, s') && |s'.heap| == |w.reg.heap|
    ensures KinHeap(s')
  {
    hide KinHeap, Extends;
    KinExtends(w.reg, s');
  }

  lemma StepKinPast(w: World, step: Step, id: string)
    requires SoundWorld(w) && KinWorld(w) && Enabled(w, step) && id in Apply(w, step).reg.past
    ensures KinPast(Apply(w, step).reg, Apply(w, step).reg.past[id])
  {
    hide Sound, Apply, TokenHolds, Enabled, Seen, KinHeap;
    var s, s' := w.reg, Apply(w, step).reg;
    StepExtends(w, step);
    StepPast(w, step);
    KinStays(s, s');
    if Archives(s, step).Some? && Archives(s, step).value.id == id {
      ArchivedKin(w, step, id);
    } else {
      var p := s.past[id];
      var r :| 0 <= r < |s'.heap| && SameWorker(p, s'.heap[r]);
      assert SameWorker(s'.past[id], s'.heap[r]);
    }
  }

  /** What a step archives is a snapshot of its own handle. */
  lemma ArchivedKin(w: World, step: Step, id: string)
    requires SoundWorld(w) && Enabled(w, step) && id in Apply(w, step).reg.past
    requires Archives(w.reg, step).Some? && Archives(w.reg, step).value.id == id
    ensures KinPast(Apply(w, step).reg, Apply(w, step).reg.past[id])
  {
    hide Sound, Seen, TokenHolds, Apply, ScopeFits, ParentAllowed;
    var s, s' := w.reg, Apply(w, step).reg;
    StepPast(w, step);
    StepExtends(w, step);
    if step.Store? {
      assert Advances(s.heap[step.r], s'.heap[step.r]);
      assert SameWorker(s'.past[id], s'.heap[step.r]);
    } else {
      UnseenUnlisted(s, id);
      EnlistingShape(w, step);
      assert SameWorker(s'.past[id], s'.heap[|s.heap|]);
    }
  }

  lemma RecalledKin(w: World, step: Step)
    requires SoundWorld(w) && KinWorld(w) && Enabled(w, step)
    ensures forall p :: p in Apply(w, step).recalled ==> KinPast(w.reg, p)
  {
    hide Sound, Seen, TokenHolds, Get, SnapsMatch, Spawn, ClaimForResume, ClaimForRestore, Plant, Remember, CloseSubtree, KinPast, KinHeap;
    match step
    case RecallId(id) =>
      if Recall(w.reg, id).Found? && id !in w.reg.past {
        LookToken(w.reg, id);
        var r := Get(w.reg, id).value;
        KinSnapshot(w.reg, r);
      }
    case _ =>
  }

  lemma KinSnapshot(s: Reg, r: Ref)
    requires r < |s.heap|
    ensures KinPast(s, SnapshotPast(s.heap[r]))
  {
    assert SameWorker(SnapshotPast(s.heap[r]), s.heap[r]);
  }

  lemma StepKin(w: World, step: Step)
    requires SoundWorld(w) && KinWorld(w) && Enabled(w, step)
    ensures KinWorld(Apply(w, step))
  {
    hide Sound, Apply, TokenHolds, SnapsMatch, Enabled, Seen, KinHeap, KinPast;
    var w' := Apply(w, step);
    StepKinHeap(w, step);
    forall id | id in w'.reg.past ensures KinPast(w'.reg, w'.reg.past[id]) { StepKinPast(w, step, id); }
    RecalledKin(w, step);
    StepExtends(w, step);
    KinStays(w.reg, w'.reg);
  }

  // ---------- who spawned whom ----------

  /** The first handle of the id, or the size of the heap. */
  function First(s: Reg, id: string, n: nat := 0): (r: nat)
    requires n <= |s.heap|
    ensures n <= r <= |s.heap| && (r < |s.heap| ==> s.heap[r].id == id) && forall q :: n <= q < r ==> s.heap[q].id != id
    decreases |s.heap| - n
  {
    if n == |s.heap| || s.heap[n].id == id then n else First(s, id, n + 1)
  }

  /** The worker that delegated this one, as its first handle says; "" for one of the manager's own. */
  function Spawner(s: Reg, id: string): string {
    if First(s, id) < |s.heap| then s.heap[First(s, id)].parent else ""
  }

  /** The ancestor k delegations above id, independent of every table. */
  function Lineage(s: Reg, id: string, k: nat): string {
    if k == 0 then id
    else if Lineage(s, id, k - 1) == "" then "" else Spawner(s, Lineage(s, id, k - 1))
  }

  /** A worker's parent was there before it. */
  ghost predicate Elders(s: Reg) {
    forall r :: 0 <= r < |s.heap| && s.heap[r].parent != "" ==> First(s, s.heap[r].parent) < r
  }

  lemma FirstIs(s: Reg, id: string, r: int)
    requires 0 <= r < |s.heap| && s.heap[r].id == id
    ensures First(s, id) <= r && s.heap[First(s, id)].id == id
  {
  }

  lemma KinSpawner(s: Reg, r: int)
    requires KinHeap(s) && 0 <= r < |s.heap|
    ensures Spawner(s, s.heap[r].id) == s.heap[r].parent
  {
    var q := First(s, s.heap[r].id);
    FirstIs(s, s.heap[r].id, r);
    if q < r { assert SameKin(s.heap[q], s.heap[r]); }
  }

  /** Every table records the true parent. */
  lemma ParentIsSpawner(w: World, id: string)
    requires Sound(w.reg) && KinWorld(w) && id in Known(w.reg)
    ensures ParentOf(w.reg, id) == Spawner(w.reg, id) && Seen(w.reg, id)
  {
    hide Sound, KinHeap, Spawner;
    var s := w.reg;
    SoundParts(s);
    if id in s.agents {
      NewestInside(s, s.agents[id]);
      KinSpawner(s, s.agents[id]);
    } else if id in s.pending {
      NewestInside(s, s.pending[id]);
      KinSpawner(s, s.pending[id]);
    } else {
      var r :| 0 <= r < |s.heap| && SameWorker(s.past[id], s.heap[r]);
      KinSpawner(s, r);
    }
  }

  /** A worker's spawner comes before it, so a lineage ends within as many steps as there are handles. */
  lemma SpawnerEarlier(s: Reg, id: string)
    requires Elders(s)
    ensures Spawner(s, id) != "" ==> First(s, Spawner(s, id)) < First(s, id) < |s.heap|
  {
  }

  lemma {:induction false} LineageEnds(s: Reg, id: string, k: nat)
    requires Elders(s)
    ensures Lineage(s, id, k) == "" || First(s, Lineage(s, id, k)) + k <= |s.heap|
    decreases k
  {
    hide Elders, First;
    if k > 0 {
      LineageEnds(s, id, k - 1);
      SpawnerEarlier(s, Lineage(s, id, k - 1));
    } else {
      FirstInside(s, id);
    }
  }

  lemma FirstInside(s: Reg, id: string)
    ensures First(s, id) <= |s.heap|
  {
  }

  // ---------- no link is lost ----------

  /** The registry will keep knowing the id while someone descends from it. */
  predicate Held(s: Reg, id: string) {
    id in s.past || (id in s.agents && Rank(At(s, s.agents[id]).phase) < 3)
  }

  /** Every known worker's parent is held. */
  ghost predicate Rooted(s: Reg) {
    s.closed || forall id :: id in Known(s) && Spawner(s, id) != "" ==> Held(s, Spawner(s, id))
  }

  /** A delegated worker means the registry trims its archive by ancestry. */
  ghost predicate Chaperoned(s: Reg) {
    forall r :: 0 <= r < |s.heap| && s.heap[r].parent != "" ==> s.delegation
  }

  /** No worker has an empty id. */
  ghost predicate Named(s: Reg) { forall r :: 0 <= r < |s.heap| ==> s.heap[r].id != "" }

  ghost predicate FamilyWorld(w: World) {
    KinWorld(w) && Elders(w.reg) && Chaperoned(w.reg) && Named(w.reg) && Rooted(w.reg)
  }

  /** Restored workers name parents the registry holds, and resumed ones are still known or have such a parent. */
  ghost predicate RootedStep(w: World, step: Step) {
    var s := w.reg;
    match step
    case Claim(p, _, _) => p.id in Known(s) || p.parent == "" || Held(s, p.parent)
    case RestoreWorker(_, _, _, parent, _, _, _, _, _) => parent == "" || (s.delegation && Held(s, parent))
    case PlantWorker(h) => h.parent == "" || (s.delegation && Held(s, h.parent))
    case _ => true
  }

  // ---------- that is kept by every rooted step ----------

  lemma DelegationStays(w: World, step: Step)
    requires Sound(w.reg) && Enabled(w, step)
    ensures w.reg.delegation ==> Apply(w, step).reg.delegation
  {
    if Enlists(step) { EnlistingDelegation(w, step); } else { OthersDelegation(w, step); }
  }

  lemma EnlistDelegation(s: Reg, h: Handle)
    ensures Enlist(s, h).delegation == s.delegation
  {
  }

  lemma EnlistingDelegation(w: World, step: Step)
    requires Sound(w.reg) && Enabled(w, step) && Enlists(step)
    ensures w.reg.delegation ==> Apply(w, step).reg.delegation
    ensures step.SpawnWorker? && step.caller.Some? && Apply(w, step) != w ==> Apply(w, step).reg.delegation
  {
    hide Sound, Seen, TrailingSeq, Spawn, ClaimForResume, ClaimForRestore, Plant, Remember, Enlist,
      NoteId, ScopeFits, ParentAllowed, CallerActive, LiveCount, Mint, NotePending, Narrower;
    var s := w.reg;
    match step
    case SpawnWorker(_, _, _, _, _) =>
      SpawnStep(w, step);
      EnlistDelegation(SpawnBase(w, step), SpawnMade(w, step));
    case Claim(p, _, admit) =>
      ClaimShape(s, p, admit);
      EnlistDelegation(s, ResumedHandle(p));
      if p.id in s.agents { NoteDelegation(Put(s, s.agents[p.id], Reset(At(s, s.agents[p.id]))), s.agents[p.id]); }
    case RestoreWorker(id, _, _, _, _, _, _, _, _) =>
      RestoreShape(w, step);
      NoteIdFields(s, id);
      EnlistDelegation(NoteId(s, id), RestoredOf(step));
    case PlantWorker(h) =>
      PlantShape(w, step);
      NoteIdFields(s, h.id);
      EnlistDelegation(NoteId(s, h.id), h);
      RememberRoster(Enlist(NoteId(s, h.id), h), SnapshotPast(h));
  }

  lemma NoteDelegation(s: Reg, r: Ref)
    ensures NotePending(s, r).delegation == s.delegation
  {
  }

  lemma OthersDelegation(w: World, step: Step)
    requires Enabled(w, step) && !Enlists(step)
    ensures Apply(w, step).reg.delegation == w.reg.delegation
  {
    hide Sound, Seen, Remember, Get, Recall, Complete, CloseHandles, ClosePast, Subtree;
    if step.Store? { RememberRoster(Put(w.reg, step.r, At(w.reg, step.r).(phase := Archived)), w.reg.heap[step.r].phase.past); }
  }

  lemma {:induction false} FirstStays(s: Reg, s': Reg, id: string, n: nat)
    requires Extends(s, s') && n <= |s.heap| && First(s, id, n) < |s.heap|
    ensures First(s', id, n) == First(s, id, n)
    decreases |s.heap| - n
  {
    if n < |s.heap| {
      assert Advances(s.heap[n], s'.heap[n]);
      if s.heap[n].id != id { FirstStays(s, s', id, n + 1); }
    }
  }

  lemma SeenFirst(s: Reg, id: string)
    ensures Seen(s, id) <==> First(s, id) < |s.heap|
  {
    if Seen(s, id) {
      var r :| 0 <= r < |s.heap| && s.heap[r].id == id;
      FirstIs(s, id, r);
    }
  }

  lemma HeldSeen(s: Reg, id: string)
    requires Sound(s) && Held(s, id)
    ensures Seen(s, id)
  {
    SoundParts(s);
    hide Sound, Seen;
    if id !in s.past {
      NewestInside(s, s.agents[id]);
      SeenAt(s, s.agents[id]);
    }
  }

  /** The parent of a new handle is held, or the handle resumes a worker already known to have it. */
  lemma NewbornParent(w: World, step: Step)
    requires SoundWorld(w) && FamilyWorld(w) && Enabled(w, step) && RootedStep(w, step) && Enlisted(w.reg, Apply(w, step).reg, step)
    ensures var s, h := w.reg, Apply(w, step).reg.heap[|w.reg.heap|];
            h.parent != "" ==>
              || Held(s, h.parent)
              || (h.id in Known(s) && step.Claim? && Spawner(s, h.id) == h.parent)
  {
    hide Sound, TrailingSeq, Apply, TokenHolds, SnapsMatch, ScopeFits, ParentAllowed, Mint, Seen, KinHeap, Elders, Chaperoned, Rooted, Known, First;
    if step.Claim? {
      ClaimedSpawner(w, step.p);
    }
  }

  lemma ClaimedSpawner(w: World, p: Past)
    requires KinWorld(w) && p in w.recalled
    ensures exists q :: 0 <= q < |w.reg.heap| && SameWorker(p, w.reg.heap[q]) && Spawner(w.reg, p.id) == p.parent
  {
    hide KinHeap, Spawner;
    assert KinPast(w.reg, p);
    var q :| 0 <= q < |w.reg.heap| && SameWorker(p, w.reg.heap[q]);
    KinSpawner(w.reg, q);
  }

  /** The parent of a new handle had a handle already. */
  lemma NewbornElder(w: World, step: Step)
    requires SoundWorld(w) && FamilyWorld(w) && Enabled(w, step) && RootedStep(w, step) && Enlisted(w.reg, Apply(w, step).reg, step)
    ensures var s, h := w.reg, Apply(w, step).reg.heap[|w.reg.heap|];
            h.parent != "" ==> First(s, h.parent) < |s.heap| && Apply(w, step).reg.delegation
  {
    hide Sound, TrailingSeq, Apply, TokenHolds, SnapsMatch, ScopeFits, ParentAllowed, Mint, Seen, KinHeap, Rooted, Known, First, Held;
    var s, h := w.reg, Apply(w, step).reg.heap[|w.reg.heap|];
    if h.parent != "" {
      EnlistingDelegation(w, step);
      if step.Claim? {
        ClaimedSpawner(w, step.p);
        var q :| 0 <= q < |s.heap| && SameWorker(step.p, s.heap[q]);
        assert First(s, s.heap[q].parent) < q;
      } else {
        NewbornParent(w, step);
        HeldSeen(s, h.parent);
        SeenFirst(s, h.parent);
      }
    }
  }

  lemma StepElders(w: World, step: Step)
    requires SoundWorld(w) && FamilyWorld(w) && Enabled(w, step) && RootedStep(w, step)
    ensures Elders(Apply(w, step).reg) && Chaperoned(Apply(w, step).reg)
  {
    hide SoundWorld, KinWorld, Apply, Enabled, Rooted, Newborn, First, Known;
    var s, s' := w.reg, Apply(w, step).reg;
    StepExtends(w, step);
    SoundWorldParts(w);
    DelegationStays(w, step);
    if Enlists(step) { EnlistingShape(w, step); } else { OthersShrink(w, step); }
    if Enlisted(s, s', step) { NewbornElder(w, step); }
    forall r | 0 <= r < |s'.heap| && s'.heap[r].parent != "" ensures First(s', s'.heap[r].parent) < r && s'.delegation {
      if r < |s.heap| { assert Advances(s.heap[r], s'.heap[r]); }
      FirstStays(s, s', s'.heap[r].parent, 0);
    }
  }

  // ---------- rooted ----------

  /** Steps that do not archive and do not close the registry keep the archive's ids. */
  lemma PastKeysStay(w: World, step: Step)
    requires SoundWorld(w) && Enabled(w, step) && !step.Store? && !step.PlantWorker? && !step.CloseAll?
    ensures Apply(w, step).reg.past.Keys == w.reg.past.Keys
  {
    hide Sound, Seen, TokenHolds, SnapsMatch, ResetTimeouts, CloseSubtree, Stats, Collect, Remember, Spawn, ClaimForResume,
      ClaimForRestore, Get, Recall, Complete;
    var s := w.reg;
    if step.ForgiveTimeouts? { ForgiveKeys(s); }
    else if InPlace(step) { InPlacePast(w, step); }
    else if Enlists(step) { EnlistingPast(w, step); }
    else {
      match step
      case Prune => StatsPast(s);
      case Settle(t, closing) => CollectKeys(s, t, closing);
      case CloseTree(id) => CloseKeys(s, id);
    }
  }

  lemma ForgiveKeys(s: Reg)
    ensures ResetTimeouts(s).past.Keys == s.past.Keys
  {
  }

  lemma CollectKeys(s: Reg, t: Token, closing: bool)
    ensures Collect(s, t.ref, t.gen, closing).past.Keys == s.past.Keys
  {
  }

  lemma CloseKeys(s: Reg, root: string)
    ensures CloseSubtree(s, root).past.Keys == s.past.Keys
  {
    hide Subtree, CloseHandles;
  }

  /** A worker on the roster stays there until it is done, or the registry closes. */
  lemma RosterStays(w: World, step: Step, id: string)
    requires SoundWorld(w) && Enabled(w, step) && id in w.reg.agents && !IsDone(At(w.reg, w.reg.agents[id])) && !step.CloseAll?
    ensures id in Apply(w, step).reg.agents && Apply(w, step).reg.agents[id] == w.reg.agents[id]
  {
    hide SoundWorld, Apply, Enabled, Newborn, Renewed;
    if Enlists(step) {
      EnlistingShape(w, step);
      if Enlisted(w.reg, Apply(w, step).reg, step) { NewbornOffRoster(w, step); }
      if step.Claim? { RenewedRoster(w.reg, step.p.id); }
    } else {
      OthersKeepRoster(w, step, id);
    }
  }

  lemma RenewedRoster(s: Reg, id: string)
    ensures id in s.agents ==> Renewed(s, s.agents[id]).agents == s.agents
  {
  }

  lemma NewbornOffRoster(w: World, step: Step)
    requires SoundWorld(w) && Enabled(w, step) && Enlisted(w.reg, Apply(w, step).reg, step)
    ensures Apply(w, step).reg.heap[|w.reg.heap|].id !in w.reg.agents
  {
    hide Sound, Seen, TokenHolds, SnapsMatch, Apply, ScopeFits, ParentAllowed, CallerActive, TrailingSeq, Mint;
    SoundParts(w.reg);
    var id := Apply(w, step).reg.heap[|w.reg.heap|].id;
    if step.SpawnWorker? { MintIsCold(w.reg, step.role); }
    if !Seen(w.reg, id) { UnseenUnlisted(w.reg, id); }
  }

  lemma OthersKeepRoster(w: World, step: Step, id: string)
    requires Enabled(w, step) && !Enlists(step) && !step.CloseAll? && id in w.reg.agents && !IsDone(At(w.reg, w.reg.agents[id]))
    ensures id in Apply(w, step).reg.agents && Apply(w, step).reg.agents[id] == w.reg.agents[id]
  {
    hide Remember, Get, Recall, Complete, CloseHandles, ClosePast, Subtree, CleanupMarks, BeginHandoff, ResetTimeouts;
    if InPlace(step) { hide Apply; InPlaceGentle(w, step); GentleRoster(w.reg, Apply(w, step).reg); }
    else if step.Store? { RememberRoster(Put(w.reg, step.r, At(w.reg, step.r).(phase := Archived)), w.reg.heap[step.r].phase.past); }
  }

  lemma GentleRoster(s: Reg, s': Reg)
    requires Gentle(s, s')
    ensures s'.agents == s.agents
  {
  }

  lemma StayRooted(w: World, step: Step, id: string, p: string)
    requires SoundWorld(w) && Enabled(w, step) && !step.Store? && !step.PlantWorker? && !step.CloseAll? && Held(w.reg, p)
    ensures Held(Apply(w, step).reg, p)
  {
    hide Sound, Seen, TokenHolds, SnapsMatch, Apply, Enabled;
    var s, s' := w.reg, Apply(w, step).reg;
    PastKeysStay(w, step);
    if p !in s.past {
      RosterStays(w, step, p);
      var r := s.agents[p];
      AgentInside(w, p);
      StepExtends(w, step);
      if Rank(s'.heap[r].phase) >= 3 { ReachesArchive(w, step, r); }
    }
  }

  lemma AgentInside(w: World, id: string)
    requires SoundWorld(w) && id in w.reg.agents
    ensures w.reg.agents[id] < |w.reg.heap| && w.reg.heap[w.reg.agents[id]].id == id
  {
    hide TokenHolds, Seen;
    SoundParts(w.reg);
    NewestInside(w.reg, w.reg.agents[id]);
  }

  lemma NewbornNamed(w: World, step: Step)
    requires SoundWorld(w) && KinWorld(w) && Named(w.reg) && Enabled(w, step) && Enlisted(w.reg, Apply(w, step).reg, step)
    ensures Apply(w, step).reg.heap[|w.reg.heap|].id != ""
  {
    hide Sound, TrailingSeq, Apply, TokenHolds, SnapsMatch, ScopeFits, ParentAllowed, CallerActive, Seen, KinHeap;
    if step.Claim? {
      assert KinPast(w.reg, step.p);
      var q :| 0 <= q < |w.reg.heap| && SameWorker(step.p, w.reg.heap[q]);
    }
  }

  lemma StepNamed(w: World, step: Step)
    requires SoundWorld(w) && KinWorld(w) && Named(w.reg) && Enabled(w, step)
    ensures Named(Apply(w, step).reg)
  {
    hide SoundWorld, KinWorld, Apply, Enabled, Newborn;
    var s, s' := w.reg, Apply(w, step).reg;
    StepExtends(w, step);
    StepSizes(w, step);
    if |s'.heap| > |s.heap| { NewbornNamed(w, step); }
    forall r | 0 <= r < |s'.heap| ensures s'.heap[r].id != "" {
      if r < |s.heap| { assert Advances(s.heap[r], s'.heap[r]); }
    }
  }

  /** Archiving with delegation on keeps every entry some known worker has as its parent. */
  lemma RememberSparesParents(s: Reg, p: Past, child: string, x: string)
    requires Listed(s) && s.delegation && !s.closed && (x in s.past || x == p.id)
    requires child in Known(Remember(s, p)) && child != "" && ParentOf(Remember(s, p), child) == x
    ensures x in Remember(s, p).past
  {
    hide Known, ParentOf, Trim, Reach, Distinct;
    var e := Enter(s, p);
    assert Listed(e) by { EnterListed(s, p); }
    if x !in Trim(e).past {
      TrimSparesAncestors(e, x, child);
      ParentReached(Trim(e), child, x);
    }
  }

  lemma EnterListed(s: Reg, p: Past)
    requires Listed(s)
    ensures Listed(Enter(s, p))
  {
    if p.id !in s.past { assert p.id !in s.pastIds; }
  }

  lemma ParentReached(s: Reg, id: string, x: string)
    requires id != "" && ParentOf(s, id) == x
    ensures Reach(s, id, x)
  {
    hide ParentOf;
    assert Up(s, id, 0) == id;
    assert ReachIn(s, id, x, 1);
  }

  lemma StoreHolds(w: World, r: Ref, child: string, x: string)
    requires SoundWorld(w) && Enabled(w, Store(r)) && Held(w.reg, x) && w.reg.delegation
    requires child in Known(Apply(w, Store(r)).reg) && child != "" && ParentOf(Apply(w, Store(r)).reg, child) == x
    ensures Held(Apply(w, Store(r)).reg, x)
  {
    hide Known, ParentOf, Remember, Seen, TokenHolds, Sound;
    var s, p := w.reg, w.reg.heap[r].phase.past;
    var s1 := Put(s, r, s.heap[r].(phase := Archived));
    SoundParts(s);
    RememberRoster(s1, p);
    if s.closed {
      ClosedRemembers(s1, p);
    } else if x in s.past || x == p.id {
      RememberSparesParents(s1, p, child, x);
    } else {
      AgentInside(w, x);
    }
  }

  lemma PlantHolds(w: World, step: Step, child: string, x: string)
    requires SoundWorld(w) && Enabled(w, step) && step.PlantWorker? && Held(w.reg, x) && w.reg.delegation
    requires child in Known(Apply(w, step).reg) && child != "" && ParentOf(Apply(w, step).reg, child) == x
    ensures Held(Apply(w, step).reg, x)
  {
    hide Known, ParentOf, Remember, Seen, TokenHolds, Sound, ScopeFits, ParentAllowed, Plant, Enlist, TrailingSeq, SnapsMatch;
    var s, h := w.reg, step.h;
    PlantShape(w, step);
    if Plant(s, h).Admitted? {
      NoteIdFields(s, h.id);
      var s1 := Enlist(NoteId(s, h.id), h);
      SoundParts(s);
      EnlistTables(s, NoteId(s, h.id), h);
      EnlistPast(NoteId(s, h.id), h);
      EnlistPastIds(NoteId(s, h.id), h);
      EnlistDelegation(NoteId(s, h.id), h);
      RememberRoster(s1, SnapshotPast(h));
      UnseenUnlisted(s, h.id);
      if x in s.past { RememberSparesParents(s1, SnapshotPast(h), child, x); } else { AgentInside(w, x); }
    }
  }

  /** A known id was known before, or is the newborn's. */
  lemma KnownMoves(w: World, step: Step, id: string)
    requires SoundWorld(w) && Enabled(w, step) && id in Known(Apply(w, step).reg)
    ensures var s, s' := w.reg, Apply(w, step).reg;
            id in Known(s) || (Enlisted(s, s', step) && id == s'.heap[|s.heap|].id)
  {
    hide Sound, Seen, TokenHolds, SnapsMatch, Apply, ScopeFits, ParentAllowed, CallerActive, Enabled;
    var s, s' := w.reg, Apply(w, step).reg;
    StepPast(w, step);
    if Enlists(step) { EnlistingShape(w, step); } else { OthersShrink(w, step); }
    if step.Claim? && step.p.id in s.agents { AgentInside(w, step.p.id); }
    if id in s'.past && id !in s.past { ArchivedKnown(w, step, id); }
  }

  lemma ArchivedKnown(w: World, step: Step, id: string)
    requires SoundWorld(w) && Enabled(w, step) && id in Apply(w, step).reg.past && id !in w.reg.past
    ensures id in w.reg.agents || (step.PlantWorker? && id == step.h.id && Enlisted(w.reg, Apply(w, step).reg, step))
  {
    hide Sound, Seen, TokenHolds, Apply, ScopeFits, ParentAllowed, CallerActive;
    var s := w.reg;
    SoundParts(s);
    StepPast(w, step);
    if step.Store? {
      if s.closed { ClosedPast(w, step); }
    } else {
      EnlistingShape(w, step);
      UnseenUnlisted(s, step.h.id);
    }
  }

  /** One more step of a parent that was held, for a child known after it. */
  lemma StaysHeld(w: World, step: Step, child: string, x: string)
    requires SoundWorld(w) && Enabled(w, step) && !step.CloseAll? && Held(w.reg, x)
    requires step.Store? || step.PlantWorker? ==> w.reg.delegation
    requires child in Known(Apply(w, step).reg) && child != "" && ParentOf(Apply(w, step).reg, child) == x
    ensures Held(Apply(w, step).reg, x)
  {
    hide SoundWorld, Apply, Enabled, Held, Known, ParentOf;
    if step.Store? { StoreHolds(w, step.r, child, x); }
    else if step.PlantWorker? { PlantHolds(w, step, child, x); }
    else { StayRooted(w, step, child, x); }
  }

  lemma RootedParent(w: World, id: string)
    requires SoundWorld(w) && FamilyWorld(w) && id in Known(w.reg) && Spawner(w.reg, id) != ""
    ensures Held(w.reg, Spawner(w.reg, id)) && w.reg.delegation && id != "" && First(w.reg, id) < |w.reg.heap|
  {
    hide SoundWorld, KinWorld, Held, Known;
    SoundWorldParts(w);
    FamilyKnows(w, id);
    if w.reg.closed { ClosedKnows(w); }
  }

  lemma ClosedKnows(w: World)
    requires SoundWorld(w) && w.reg.closed
    ensures Known(w.reg) == {}
  {
    hide Seen, TokenHolds;
  }

  /** A child known before has the parent it had. */
  lemma OldChild(w: World, step: Step, id: string)
    requires SoundWorld(w) && FamilyWorld(w) && Enabled(w, step) && id in Known(w.reg) && Spawner(Apply(w, step).reg, id) != ""
    ensures Held(w.reg, Spawner(Apply(w, step).reg, id)) && w.reg.delegation && id != ""
  {
    hide Apply, Enabled, SoundWorld, FamilyWorld, Known, Held, First;
    FamilyKnows(w, id);
    StepExtends(w, step);
    FirstStays(w.reg, Apply(w, step).reg, id, 0);
    SameParent(w.reg, Apply(w, step).reg, First(w.reg, id));
    RootedParent(w, id);
  }

  lemma FamilyKnows(w: World, id: string)
    requires SoundWorld(w) && FamilyWorld(w) && id in Known(w.reg)
    ensures First(w.reg, id) < |w.reg.heap|
  {
    hide Seen, Sound, TokenHolds, KinHeap, First, KinPast;
    ParentIsSpawner(w, id);
    SeenFirst(w.reg, id);
  }

  lemma SameParent(s: Reg, s': Reg, r: nat)
    requires Extends(s, s') && r < |s.heap|
    ensures s'.heap[r].parent == s.heap[r].parent && s'.heap[r].id == s.heap[r].id
  {
    assert Advances(s.heap[r], s'.heap[r]);
  }

  lemma NewChild(w: World, step: Step, id: string)
    requires SoundWorld(w) && FamilyWorld(w) && Enabled(w, step) && RootedStep(w, step)
    requires KinHeap(Apply(w, step).reg) && Named(Apply(w, step).reg)
    requires id !in Known(w.reg) && id in Known(Apply(w, step).reg) && Spawner(Apply(w, step).reg, id) != ""
    ensures Held(w.reg, Spawner(Apply(w, step).reg, id)) && (step.PlantWorker? ==> w.reg.delegation) && !step.Store? && id != ""
  {
    hide Apply, Enabled, SoundWorld, FamilyWorld, Known, Held, First, KinHeap;
    KnownMoves(w, step, id);
    KinSpawner(Apply(w, step).reg, |w.reg.heap|);
    NewbornParent(w, step);
  }

  lemma StepRooted(w: World, step: Step, id: string)
    requires SoundWorld(w) && FamilyWorld(w) && Enabled(w, step) && RootedStep(w, step)
    requires SoundWorld(Apply(w, step)) && KinWorld(Apply(w, step)) && Named(Apply(w, step).reg) && !step.CloseAll?
    requires id in Known(Apply(w, step).reg) && Spawner(Apply(w, step).reg, id) != ""
    ensures Held(Apply(w, step).reg, Spawner(Apply(w, step).reg, id))
  {
    hide Apply, Enabled, RootedStep, SoundWorld, FamilyWorld, Known, ParentOf, Held, KinHeap, KinPast, First, Spawner;
    SoundWorldParts(Apply(w, step));
    ParentIsSpawner(Apply(w, step), id);
    if id in Known(w.reg) { OldChild(w, step, id); } else { NewChild(w, step, id); }
    StaysHeld(w, step, id, Spawner(Apply(w, step).reg, id));
  }

  /** A rooted step keeps the family whole. */
  lemma StepFamily(w: World, step: Step)
    requires SoundWorld(w) && FamilyWorld(w) && Enabled(w, step) && RootedStep(w, step)
    ensures FamilyWorld(Apply(w, step))
  {
    var w' := Apply(w, step);
    hide Apply, Enabled, RootedStep, SoundWorld, KinWorld, Known, Held, Elders, Chaperoned, Named, Spawner;
    StepSoundWorld(w, step);
    StepKin(w, step);
    StepElders(w, step);
    StepNamed(w, step);
    if step.CloseAll? { ClosesAll(w); }
    else {
      forall id | id in Known(w'.reg) && Spawner(w'.reg, id) != "" ensures Held(w'.reg, Spawner(w'.reg, id)) { StepRooted(w, step, id); }
    }
  }

  lemma ClosesAll(w: World)
    ensures Apply(w, CloseAll).reg.closed
  {
  }

  ghost predicate RootedRun(ws: seq<World>, steps: seq<Step>) {
    IsRun(ws, steps) && forall i :: 0 <= i < |steps| ==> RootedStep(ws[i], steps[i])
  }

  lemma StartFamily(ws: seq<World>)
    requires FromStart(ws)
    ensures FamilyWorld(ws[0])
  {
  }

  lemma {:induction false} RunFamily(ws: seq<World>, steps: seq<Step>, i: nat)
    requires RootedRun(ws, steps) && FromStart(ws) && i < |ws|
    ensures FamilyWorld(ws[i]) && SoundWorld(ws[i])
    decreases i
  {
    hide SoundWorld, Apply, Enabled, RootedStep;
    RunSound(ws, steps, i);
    if i == 0 {
      StartFamily(ws);
    } else {
      hide FamilyWorld, FromStart;
      RunFamily(ws, steps, i - 1);
      assert Enabled(ws[i - 1], steps[i - 1]) && ws[i - 1 + 1] == Apply(ws[i - 1], steps[i - 1]);
      StepFamily(ws[i - 1], steps[i - 1]);
    }
  }

  // ---------- what that gives ----------

  /** Every recorded parent is a known id, and the parent the tables record is the one that spawned the worker. */
  lemma ParentsStayKnown(w: World, id: string)
    requires SoundWorld(w) && FamilyWorld(w) && id in Known(w.reg)
    ensures ParentOf(w.reg, id) == Spawner(w.reg, id)
    ensures ParentOf(w.reg, id) != "" ==> ParentOf(w.reg, id) in Known(w.reg)
  {
    hide Seen, TokenHolds, KinHeap, First, KinPast, Spawner;
    ParentIsSpawner(w, id);
    if Spawner(w.reg, id) != "" { RootedParent(w, id); }
  }

  /**
   The chain of parents the tables hold for a known worker is its true lineage, all the way up: pruning,
   trimming, settling and resuming lose no link.
   */
  lemma {:induction false} ChainIsLineage(w: World, id: string, k: nat)
    requires SoundWorld(w) && FamilyWorld(w) && id in Known(w.reg)
    ensures Up(w.reg, id, k) == Lineage(w.reg, id, k) && (Up(w.reg, id, k) == "" || Up(w.reg, id, k) in Known(w.reg))
    decreases k
  {
    hide SoundWorld, FamilyWorld, ParentOf, Known, Spawner;
    if k > 0 {
      ChainIsLineage(w, id, k - 1);
      if Up(w.reg, id, k - 1) != "" { ParentsStayKnown(w, Up(w.reg, id, k - 1)); }
    }
  }

  /** root is met climbing the lineage of id by at least one delegation. */
  ghost predicate Descends(s: Reg, id: string, root: string) { exists k :: DescendsIn(s, id, root, k) }

  predicate DescendsIn(s: Reg, id: string, root: string, k: int) {
    k >= 1 && Lineage(s, id, k - 1) != "" && Lineage(s, id, k) == root
  }

  /** So descendantLocked, which reads the tables, decides the true relation for every known worker. */
  lemma DescendantIsDescends(w: World, id: string, root: string)
    requires SoundWorld(w) && FamilyWorld(w) && id in Known(w.reg)
    ensures Descendant(w.reg, id, root) <==> Descends(w.reg, id, root)
  {
    hide SoundWorld, FamilyWorld, ParentOf, Known, Spawner, Climb, Up, Lineage;
    DescendantIsReach(w.reg, id, root);
    if Descends(w.reg, id, root) {
      var k :| DescendsIn(w.reg, id, root, k);
      ChainIsLineage(w, id, k);
      ChainIsLineage(w, id, k - 1);
      assert ReachIn(w.reg, id, root, k);
    }
    if Reach(w.reg, id, root) {
      var k :| ReachIn(w.reg, id, root, k);
      ChainIsLineage(w, id, k);
      ChainIsLineage(w, id, k - 1);
      assert DescendsIn(w.reg, id, root, k);
    }
  }

  lemma {:induction false} LineageClimbs(s: Reg, id: string, k: nat)
    requires Elders(s) && Lineage(s, id, k) != ""
    ensures First(s, Lineage(s, id, k)) + k <= First(s, id)
    decreases k
  {
    hide Elders, First, Spawner;
    if k > 0 {
      LineageClimbs(s, id, k - 1);
      SpawnerEarlier(s, Lineage(s, id, k - 1));
    }
  }

  /** The tree the tables record is acyclic. */
  lemma FamilyIsAcyclic(w: World)
    requires SoundWorld(w) && FamilyWorld(w)
    ensures Acyclic(w.reg)
  {
    hide SoundWorld, FamilyWorld, ParentOf, Spawner, Climb, Up, Lineage, Known, First;
    forall x | x != "" ensures !Reach(w.reg, x, x) {
      if Reach(w.reg, x, x) {
        var k :| ReachIn(w.reg, x, x, k);
        if x in Known(w.reg) {
          ChainIsLineage(w, x, k);
          FamilyElders(w);
          LineageClimbs(w.reg, x, k);
        } else {
          UnknownIsRoot(w.reg, x, k);
        }
      }
    }
  }

  lemma FamilyElders(w: World)
    requires FamilyWorld(w)
    ensures Elders(w.reg) && Named(w.reg)
  {
  }

  lemma {:induction false} UnknownIsRoot(s: Reg, x: string, k: nat)
    requires x !in Known(s) && k >= 1
    ensures Up(s, x, k) == ""
    decreases k
  {
    if k > 1 { UnknownIsRoot(s, x, k - 1); } else { assert Up(s, x, 0) == x; }
  }

  /**
   In every world of every run whose resumes and restores have their parents: every recorded parent is
   a known id, the parent relation is acyclic, and descendantLocked finds exactly the workers delegated,
   directly or not, from an ancestor.
   */
  lemma DelegationTreeIsWhole(ws: seq<World>, steps: seq<Step>, i: nat)
    requires RootedRun(ws, steps) && FromStart(ws) && i < |ws|
    ensures var s := ws[i].reg;
            && Acyclic(s)
            && (forall id :: id in Known(s) && ParentOf(s, id) != "" ==> ParentOf(s, id) in Known(s))
            && (forall id, root :: id in Known(s) ==> (Descendant(s, id, root) <==> Descends(s, id, root)))
  {
    hide SoundWorld, FamilyWorld, ParentOf, Climb, Known, Descends, Acyclic;
    RunFamily(ws, steps, i);
    FamilyIsAcyclic(ws[i]);
    forall id | id in Known(ws[i].reg) ensures ParentOf(ws[i].reg, id) != "" ==> ParentOf(ws[i].reg, id) in Known(ws[i].reg) {
      ParentsStayKnown(ws[i], id);
    }
    forall id, root | id in Known(ws[i].reg) ensures Descendant(ws[i].reg, id, root) <==> Descends(ws[i].reg, id, root) {
      DescendantIsDescends(ws[i], id, root);
    }
  }

  /**
   The one resume that can break this: it re-enlists a worker the registry no longer knows. The tree stays
   whole exactly when that worker's parent is the manager or is still known.
   */
  lemma ResumeKeepsParentsIff(w: World, p: Past, admit: bool)
    requires SoundWorld(w) && FamilyWorld(w) && p in w.recalled && p.id !in Known(w.reg) && p.parent != p.id
    requires ClaimForResume(w.reg, p, admit).Admitted?
    ensures var s' := ClaimForResume(w.reg, p, admit).reg;
            (forall id :: id in Known(s') && ParentOf(s', id) != "" ==> ParentOf(s', id) in Known(s'))
            <==> p.parent == "" || p.parent in Known(w.reg)
  {
    hide SoundWorld, FamilyWorld, ClaimForResume, ScopeFits, LiveCount, Enlist;
    var s, s' := w.reg, ClaimForResume(w.reg, p, admit).reg;
    ClaimShape(s, p, admit);
    var h := ResumedHandle(p);
    EnlistTables(s, s, h);
    EnlistPast(s, h);
    EnlistKnows(w, p.id, h);
    forall id | id in Known(s) ensures ParentOf(s, id) == "" || ParentOf(s, id) in Known(s) { ParentsStayKnown(w, id); }
  }

  lemma EnlistKnows(w: World, id: string, h: Handle)
    requires SoundWorld(w) && h.id == id && id !in Known(w.reg)
    ensures var s, s' := w.reg, Enlist(w.reg, h);
            && Known(s') == Known(s) + {id} && ParentOf(s', id) == h.parent
            && forall x :: x in Known(s) ==> ParentOf(s', x) == ParentOf(s, x)
  {
    hide SoundWorld, Enlist;
    EnlistTables(w.reg, w.reg, h);
    EnlistPast(w.reg, h);
    assert Known(Enlist(w.reg, h)) == Known(w.reg) + {id};
    forall x | x in Known(w.reg) ensures ParentOf(Enlist(w.reg, h), x) == ParentOf(w.reg, x) { EnlistKeepsParent(w, h, x); }
  }

  lemma EnlistKeepsParent(w: World, h: Handle, x: string)
    requires SoundWorld(w) && x != h.id
    ensures ParentOf(Enlist(w.reg, h), x) == ParentOf(w.reg, x)
  {
    hide Sound, Seen, TokenHolds, SnapsMatch, Enlist, Newest;
    EnlistTables(w.reg, w.reg, h);
    EnlistPast(w.reg, h);
    SoundParts(w.reg);
    if x in w.reg.agents { NewestInside(w.reg, w.reg.agents[x]); }
    if x in w.reg.pending { NewestInside(w.reg, w.reg.pending[x]); }
  }

  /** A delegated spawn files the new worker below its caller, and so below everyone its caller is below. */
  lemma DelegatedIsBelowCaller(w: World, step: Step)
    requires SoundWorld(w) && FamilyWorld(w) && Enabled(w, step) && step.SpawnWorker? && step.caller.Some?
    requires Apply(w, step).reg != w.reg
    ensures var s, s', granted := w.reg, Apply(w, step).reg, Granted(w, step.caller, step.base, step.names);
            var id := Mint(step.role, s.counter + 1);
            && id !in Known(s) && id in s'.agents && id in s'.pending && s'.agents[id] == |s.heap|
            && s'.heap[|s.heap|].gen == 1 && s'.heap[|s.heap|].role == step.role
            && granted.Some? && s'.heap[|s.heap|].tools == granted.value.config.chosen
            && Descendant(s', id, step.caller.value.id)
  {
    hide Sound, TokenHolds, SnapsMatch, KinWorld, Elders, Rooted, Chaperoned, Climb, Known, TrailingSeq, Mint, Seen, Apply, CallerActive, Granted, Enlist;
    var s, s' := w.reg, Apply(w, step).reg;
    SpawnStep(w, step);
    EnlistTables(s, SpawnBase(w, step), SpawnMade(w, step));
    SoundParts(s);
    MintIsCold(s, step.role);
    MintedUnknown(w, Mint(step.role, s.counter + 1));
    MintNonempty(step.role, s.counter + 1);
    assert ParentOf(s', Mint(step.role, s.counter + 1)) == step.caller.value.id;
    ClimbStep(s', Mint(step.role, s.counter + 1), step.caller.value.id, {});
  }

  lemma MintedUnknown(w: World, id: string)
    requires SoundWorld(w) && !Seen(w.reg, id)
    ensures id !in Known(w.reg)
  {
    hide Sound, Seen, TokenHolds;
    UnseenUnlisted(w.reg, id);
  }

  lemma MintNonempty(role: string, n: Int64)
    ensures Mint(role, n) != ""
  {
    hide Format;
  }

  /**
   A resume continues the same worker: same id, role, parent and tools, the failure count of the handle it
   renews or of the conversation it starts from, and the next generation, running and owed.
   */
  lemma ResumeContinuesWorker(w: World, p: Past, admit: bool)
    requires SoundWorld(w) && KinWorld(w) && p in w.recalled && ClaimForResume(w.reg, p, admit).Admitted?
    ensures var s, s', r := w.reg, ClaimForResume(w.reg, p, admit).reg, ClaimForResume(w.reg, p, admit).ref;
            && r < |s'.heap| && SameWorker(p, s'.heap[r]) && s'.heap[r].phase == Live
            && p.id in s'.agents && s'.agents[p.id] == r && p.id in s'.pending && s'.pending[p.id] == r
            && s'.heap[r].gen == (if p.id in s.agents then At(s, s.agents[p.id]).gen else p.gen) + 1
            && s'.heap[r].timeouts == (if p.id in s.agents then At(s, s.agents[p.id]).timeouts else p.timeouts)
  {
    hide Sound, Seen, TokenHolds, SnapsMatch, ClaimForResume, LiveCount, ScopeFits, Enlist, KinHeap, Renewed, KinPast;
    var s := w.reg;
    ClaimShape(s, p, admit);
    if p.id in s.agents {
      SoundParts(s);
      NewestInside(s, s.agents[p.id]);
      RosterIsKin(w, p);
      RenewedValue(s, s.agents[p.id]);
    } else {
      EnlistTables(s, s, ResumedHandle(p));
    }
  }

  lemma RosterIsKin(w: World, p: Past)
    requires SoundWorld(w) && KinWorld(w) && p in w.recalled && p.id in w.reg.agents
    ensures SameWorker(p, At(w.reg, w.reg.agents[p.id]))
  {
    hide Sound, Seen, TokenHolds, SnapsMatch, Newest;
    AgentInside(w, p.id);
    assert KinPast(w.reg, p);
    var q :| 0 <= q < |w.reg.heap| && SameWorker(p, w.reg.heap[q]);
    var r := w.reg.agents[p.id];
    if q < r { assert SameKin(w.reg.heap[q], w.reg.heap[r]); } else if r < q { assert SameKin(w.reg.heap[r], w.reg.heap[q]); }
  }

  lemma RenewedValue(s: Reg, r: Ref)
    requires r < |s.heap|
    ensures var s' := Renewed(s, r);
            && s'.heap == s.heap[r := Reset(s.heap[r])] && s'.agents == s.agents && s'.pending == s.pending[s.heap[r].id := r]
  {
  }
}
