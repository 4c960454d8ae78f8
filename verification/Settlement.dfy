/**
 The ledger of results (settlement.go): over every run, a generation leaves pending at most once, a
 token settles its own generation or nothing, and an unsettled result stays addressable however often
 Stats prunes. Generations of one id stay distinct exactly while resumes use a current conversation.
 */
module Settlement {
  import opened Common
  import opened WorkerId
  import opened ToolScope
  import opened Handoff
  import opened Lifecycle
  import opened Runs
  import opened Soundness

  /** Generation gen of handle r is owed to its collector. */
  ghost predicate Pending(s: Reg, r: int, gen: int) {
    0 <= r < |s.heap| && s.heap[r].gen == gen && s.heap[r].id in s.pending && s.pending[s.heap[r].id] == r
  }

  /** The generation exists already. */
  ghost predicate Issued(s: Reg, r: int, gen: int) { 0 <= r < |s.heap| && gen <= s.heap[r].gen }

  // ---------- leaving pending once ----------

  /** Entries of pending are old ones, or of a handle or a generation made by this very step. */
  ghost predicate NoReturn(s: Reg, s': Reg) {
    forall id :: id in s'.pending ==>
      || (id in s.pending && s.pending[id] == s'.pending[id])
      || s'.pending[id] >= |s.heap|
      || At(s', s'.pending[id]).gen > At(s, s'.pending[id]).gen
  }

  lemma StepNoReturn(w: World, step: Step)
    requires SoundWorld(w) && Enabled(w, step)
    ensures NoReturn(w.reg, Apply(w, step).reg)
  {
    hide Sound, Seen, TrailingSeq, Spawn, ClaimForResume, Remember, CloseSubtree, Stats, Collect, CloseRegistry, Gentle,
      ClaimForRestore, Plant, CleanupMarks, BeginHandoff, ResetTimeouts, Complete, Get, Recall, Enlist, TokenHolds, SnapsMatch,
      NoReturn, Renewed;
    var s := w.reg;
    if InPlace(step) {
      InPlaceGentle(w, step);
      SamePending(s, Apply(w, step).reg) by { GentlePending(s, Apply(w, step).reg); }
    } else {
      match step
      case SpawnWorker(_, _, _, _, _) =>
        SpawnStep(w, step);
        EnlistNoReturn(s, SpawnBase(w, step), SpawnMade(w, step));
        SamePending(s, s);
      case Store(r) => StorePending(w, r);
      case Prune => SamePending(s, Stats(s)) by { StatsPending(s); }
      case Claim(p, _, admit) =>
        ClaimShape(s, p, admit);
        SamePending(s, s);
        EnlistNoReturn(s, s, ResumedHandle(p));
        if p.id in s.agents { RenewNoReturn(s, p.id); }
      case Settle(t, closing) => CollectNoReturn(s, t, closing);
      case CloseTree(id) => CloseNoReturn(s, id); SamePending(s, s);
      case CloseAll => SamePending(s, CloseRegistry(s)) by { ClosedPending(s); }
      case RestoreWorker(id, _, _, _, _, _, _, _, _) =>
        RestoreShape(w, step);
        NoteIdFields(s, id);
        EnlistNoReturn(s, NoteId(s, id), RestoredOf(step));
        SamePending(s, s);
      case PlantWorker(h) =>
        PlantShape(w, step);
        NoteIdFields(s, h.id);
        EnlistNoReturn(s, NoteId(s, h.id), h);
        RememberRoster(Enlist(NoteId(s, h.id), h), SnapshotPast(h));
        SamePendingHeap(s, Enlist(NoteId(s, h.id), h), Remember(Enlist(NoteId(s, h.id), h), SnapshotPast(h)));
        SamePending(s, s);
    }
  }

  lemma SamePending(s: Reg, s': Reg)
    requires forall id :: id in s'.pending ==> id in s.pending && s'.pending[id] == s.pending[id]
    ensures NoReturn(s, s')
  {
  }

  lemma SamePendingHeap(s: Reg, s1: Reg, s2: Reg)
    requires NoReturn(s, s1) && s2.pending == s1.pending && s2.heap == s1.heap
    ensures NoReturn(s, s2)
  {
    assert forall id :: id in s2.pending ==> At(s2, s2.pending[id]) == At(s1, s1.pending[id]);
  }

  lemma GentlePending(s: Reg, s': Reg)
    requires Gentle(s, s')
    ensures s'.pending == s.pending
  {
  }

  lemma StatsPending(s: Reg)
    ensures Stats(s).pending == s.pending
  {
  }

  lemma ClosedPending(s: Reg)
    ensures CloseRegistry(s).pending == map[]
  {
  }

  lemma StorePending(w: World, r: Ref)
    requires Enabled(w, Store(r))
    ensures NoReturn(w.reg, Apply(w, Store(r)).reg)
  {
    hide Remember;
    RememberRoster(Put(w.reg, r, w.reg.heap[r].(phase := Archived)), w.reg.heap[r].phase.past);
  }

  lemma EnlistNoReturn(s: Reg, s1: Reg, h: Handle)
    requires s1.heap == s.heap && s1.pending == s.pending
    ensures NoReturn(s, Enlist(s1, h))
  {
  }

  lemma RenewNoReturn(s: Reg, id: string)
    requires Sound(s) && id in s.agents
    ensures NoReturn(s, Renewed(s, s.agents[id]))
  {
    SoundParts(s);
    NewestInside(s, s.agents[id]);
    hide Newest, Sound;
  }

  lemma CollectNoReturn(s: Reg, t: Token, closing: bool)
    ensures NoReturn(s, Collect(s, t.ref, t.gen, closing))
  {
  }

  lemma CloseNoReturn(s: Reg, root: string)
    ensures NoReturn(s, CloseSubtree(s, root))
  {
    hide Subtree, CloseHandles, ClosePast;
  }

  /** A generation issued before a step is pending after it only if it was pending before it. */
  lemma NeverReenters(w: World, step: Step, r: int, gen: int)
    requires SoundWorld(w) && Enabled(w, step)
    requires Issued(w.reg, r, gen) && Pending(Apply(w, step).reg, r, gen)
    ensures Pending(w.reg, r, gen)
  {
    hide Apply, Enabled, Sound, TokenHolds, SnapsMatch;
    StepNoReturn(w, step);
    StepExtends(w, step);
    assert Advances(w.reg.heap[r], Apply(w, step).reg.heap[r]);
  }

  lemma {:induction false} StaysIssued(ws: seq<World>, steps: seq<Step>, i: nat, k: nat, r: int, gen: int)
    requires IsRun(ws, steps) && FromStart(ws) && i <= k < |ws| && Issued(ws[i].reg, r, gen)
    ensures Issued(ws[k].reg, r, gen)
    decreases k
  {
    hide Apply, Enabled, SoundWorld, FromStart;
    if i < k {
      StaysIssued(ws, steps, i, k - 1, r, gen);
      RunSound(ws, steps, k - 1);
      assert Enabled(ws[k - 1], steps[k - 1]) && ws[k - 1 + 1] == Apply(ws[k - 1], steps[k - 1]);
      StepExtends(ws[k - 1], steps[k - 1]);
      assert Advances(ws[k - 1].reg.heap[r], ws[k].reg.heap[r]);
    }
  }

  /** Over any run, a generation that left pending is never pending again: it is settled at most once. */
  lemma {:induction false} LeavesPendingOnce(ws: seq<World>, steps: seq<Step>, i: nat, j: nat, k: nat, r: int, gen: int)
    requires IsRun(ws, steps) && FromStart(ws) && i <= j <= k < |ws|
    requires Pending(ws[i].reg, r, gen) && !Pending(ws[j].reg, r, gen)
    ensures !Pending(ws[k].reg, r, gen)
    decreases k
  {
    hide Apply, Enabled, SoundWorld, FromStart;
    if j < k {
      LeavesPendingOnce(ws, steps, i, j, k - 1, r, gen);
      RunSound(ws, steps, k - 1);
      StaysIssued(ws, steps, i, k - 1, r, gen);
      assert Enabled(ws[k - 1], steps[k - 1]) && ws[k - 1 + 1] == Apply(ws[k - 1], steps[k - 1]);
      if Pending(ws[k].reg, r, gen) { NeverReenters(ws[k - 1], steps[k - 1], r, gen); }
    }
  }

  // ---------- what a token can settle ----------

  /**
   A token settles exactly the generation it names: collectWorker succeeds if and only if that very
   generation is pending, takes that one out and no other, marks it, and touches no other handle. A token
   from before a resume, or of a handle since replaced, changes nothing at all.
   */
  lemma TokenSettlesItsOwn(w: World, t: Token, closing: bool)
    requires SoundWorld(w) && t in w.tokens
    ensures var s, s' := w.reg, Collect(w.reg, t.ref, t.gen, closing);
            && (Collectable(s, t.ref, t.gen) <==> Pending(s, t.ref, t.gen))
            && (!Pending(s, t.ref, t.gen) ==> s' == s)
            && (forall r, gen :: Pending(s', r, gen) <==> Pending(s, r, gen) && !(r == t.ref && gen == t.gen))
            && |s'.heap| == |s.heap| && (forall r :: 0 <= r < |s.heap| && r != t.ref ==> s'.heap[r] == s.heap[r])
            && (Pending(s, t.ref, t.gen) ==> s'.heap[t.ref] == s.heap[t.ref].(collected := !closing, closeRequested := closing))
  {
    assert TokenHolds(w.reg, t);
    hide Sound, Seen, SnapsMatch;
  }

  // ---------- nothing owed is lost ----------

  /**
   In every world of every run, unless the registry was closed: the newest handle of an id, neither
   collected nor closed, is the one pending under that id and the one the id resolves to. Pruning any
   number of times does not change that, because this holds after every step.
   */
  lemma UnsettledStaysAddressable(ws: seq<World>, steps: seq<Step>, i: nat, r: int)
    requires IsRun(ws, steps) && FromStart(ws) && i < |ws| && !ws[i].reg.closed
    requires Newest(ws[i].reg, r) && !ws[i].reg.heap[r].collected && !ws[i].reg.heap[r].closeRequested
    ensures Pending(ws[i].reg, r, ws[i].reg.heap[r].gen)
    ensures Get(ws[i].reg, ws[i].reg.heap[r].id) == Some(r)
    ensures Get(Stats(ws[i].reg), ws[i].reg.heap[r].id) == Some(r)
  {
    RunSound(ws, steps, i);
    var s := ws[i].reg;
    SoundParts(s);
    var id := s.heap[r].id;
    if id in s.agents { NewestUnique(s, s.agents[id], r); }
  }

  lemma NewestUnique(s: Reg, q: int, r: int)
    requires Newest(s, q) && Newest(s, r) && s.heap[q].id == s.heap[r].id
    ensures q == r
  {
  }

  // ---------- generations of one id ----------

  /** Later handles of an id have later generations. */
  ghost predicate Gens(s: Reg) {
    forall q, r :: 0 <= q < r < |s.heap| && s.heap[q].id == s.heap[r].id ==> s.heap[q].gen < s.heap[r].gen
  }

  /** No handle of the id is past the recalled generation. */
  ghost predicate Current(s: Reg, p: Past) {
    forall r :: 0 <= r < |s.heap| && s.heap[r].id == p.id ==> s.heap[r].gen <= p.gen
  }

  /** The archive holds the newest generation of an id, once that generation was archived. */
  ghost predicate ArchiveCurrent(s: Reg) {
    forall r :: 0 <= r < |s.heap| && Newest(s, r) && Rank(s.heap[r].phase) >= 3 && s.heap[r].id in s.past ==>
      s.past[s.heap[r].id].gen == s.heap[r].gen
  }

  /** A resume that makes a new handle uses a conversation that is still current. */
  ghost predicate ResumesCurrent(w: World, step: Step) {
    step.Claim? && step.p.id !in w.reg.agents ==> Current(w.reg, step.p)
  }

  lemma EnlistGens(s: Reg, s1: Reg, h: Handle)
    requires Gens(s) && s1.heap == s.heap
    ensures Gens(Enlist(s1, h)) <==> forall r :: 0 <= r < |s.heap| && s.heap[r].id == h.id ==> s.heap[r].gen < h.gen
  {
    var s' := Enlist(s1, h);
    if Gens(s') {
      forall r | 0 <= r < |s.heap| && s.heap[r].id == h.id ensures s.heap[r].gen < h.gen {
        assert s'.heap[r] == s.heap[r] && s'.heap[|s.heap|] == h;
      }
    } else {
      var q, r :| 0 <= q < r < |s'.heap| && s'.heap[q].id == s'.heap[r].id && s'.heap[q].gen >= s'.heap[r].gen;
      assert r == |s.heap|;
    }
  }

  /**
   Resuming through a new handle keeps generations distinct exactly when the recalled conversation is
   current. Otherwise the generation it starts was issued before.
   */
  lemma ResumeKeepsGensIffCurrent(s: Reg, p: Past, admit: bool)
    requires Sound(s) && Gens(s) && p.id !in s.agents && ClaimForResume(s, p, admit).Admitted?
    ensures Gens(ClaimForResume(s, p, admit).reg) <==> Current(s, p)
    ensures ClaimForResume(s, p, admit).reg.heap[|s.heap|].gen == p.gen + 1
    ensures !Current(s, p) ==> exists r :: 0 <= r < |s.heap| && s.heap[r].id == p.id && Issued(s, r, p.gen + 1)
  {
    hide Sound, ClaimForResume, LiveCount, ScopeFits, Enlist;
    ClaimShape(s, p, admit);
    EnlistGens(s, s, ResumedHandle(p));
    EnlistHeap(s, ResumedHandle(p));
    if !Current(s, p) {
      var r :| 0 <= r < |s.heap| && s.heap[r].id == p.id && s.heap[r].gen > p.gen;
      assert Issued(s, r, p.gen + 1);
    }
  }

  lemma EnlistHeap(s: Reg, h: Handle)
    ensures Enlist(s, h).heap == s.heap + [h]
  {
  }

  /** What the registry still knows of an id off the roster, as a resume could look it up again. */
  ghost predicate StillRecalled(s: Reg, p: Past) {
    || (p.id in s.past && s.past[p.id].gen == p.gen)
    || (p.id in s.pending && At(s, s.pending[p.id]).gen == p.gen)
  }

  /**
   For an id off the roster that the registry still knows, the recalled conversation is current exactly
   when looking the id up again gives the same generation.
   */
  lemma CurrentIffStillRecalled(s: Reg, p: Past)
    requires Sound(s) && Gens(s) && ArchiveCurrent(s) && !s.closed
    requires p.id !in s.agents && (p.id in s.past || p.id in s.pending)
    requires exists r :: 0 <= r < |s.heap| && s.heap[r].id == p.id && p.gen <= s.heap[r].gen
    ensures Current(s, p) <==> StillRecalled(s, p)
  {
    SoundParts(s);
    var r := LastOf(s, p.id);
    assert IsDone(s.heap[r]);
    if p.id in s.pending { NewestUnique(s, s.pending[p.id], r); }
    GensBelowNewest(s, r);
  }

  lemma GensBelowNewest(s: Reg, r: int)
    requires Gens(s) && Newest(s, r)
    ensures forall q :: 0 <= q < |s.heap| && s.heap[q].id == s.heap[r].id ==> s.heap[q].gen <= s.heap[r].gen
  {
  }

  lemma LastOf(s: Reg, id: string) returns (r: int)
    requires Seen(s, id)
    ensures Newest(s, r) && s.heap[r].id == id
  {
    var q :| 0 <= q < |s.heap| && s.heap[q].id == id;
    r := q;
    var k := q + 1;
    while k < |s.heap|
      invariant 0 <= r < k <= |s.heap| && s.heap[r].id == id
      invariant forall j :: r < j < k ==> s.heap[j].id != id
    {
      if s.heap[k].id == id { r := k; }
      k := k + 1;
    }
  }

  // ---------- runs whose resumes are current ----------

  /** Some handle of the id reached the generation. */
  ghost predicate Reached(s: Reg, id: string, gen: int) {
    exists r :: 0 <= r < |s.heap| && s.heap[r].id == id && gen <= s.heap[r].gen
  }

  ghost predicate GensWorld(w: World) {
    && Gens(w.reg) && ArchiveCurrent(w.reg)
    && (forall p :: p in w.recalled ==> Reached(w.reg, p.id, p.gen))
    && (forall id :: id in w.reg.past ==> Reached(w.reg, id, w.reg.past[id].gen))
  }

  lemma ReachedStays(s: Reg, s': Reg)
    requires Extends(s, s')
    ensures forall id, gen :: Reached(s, id, gen) ==> Reached(s', id, gen)
  {
    forall id, gen | Reached(s, id, gen) ensures Reached(s', id, gen) {
      var r :| 0 <= r < |s.heap| && s.heap[r].id == id && gen <= s.heap[r].gen;
      assert Advances(s.heap[r], s'.heap[r]);
    }
  }

  /** A handle made by a step is of an id never seen, or the resumption of a current conversation. */
  lemma NewbornGen(w: World, step: Step, h: Handle)
    requires SoundWorld(w) && Enabled(w, step) && ResumesCurrent(w, step) && Newborn(w.reg, step, h)
    ensures forall q :: 0 <= q < |w.reg.heap| && w.reg.heap[q].id == h.id ==> w.reg.heap[q].gen < h.gen
  {
    hide Sound, Seen, TrailingSeq, Current, TokenHolds, SnapsMatch, ScopeFits, ParentAllowed, CallerActive, Mint, Narrower;
    var s := w.reg;
    SoundParts(s);
    match step
    case SpawnWorker(role, _, _, _, _) => MintIsCold(s, role); UnseenDiffers(s, Mint(role, s.counter + 1));
    case Claim(p, _, _) => CurrentBelow(s, p);
    case RestoreWorker(id, _, _, _, _, _, _, _, _) => UnseenDiffers(s, id);
    case PlantWorker(_) => UnseenDiffers(s, h.id);
  }

  lemma StepBirth(w: World, step: Step)
    requires SoundWorld(w) && Enabled(w, step) && ResumesCurrent(w, step)
    ensures var s, s' := w.reg, Apply(w, step).reg;
            |s'.heap| <= |s.heap| + 1 &&
            (|s'.heap| == |s.heap| + 1 ==>
               forall q :: 0 <= q < |s.heap| && s.heap[q].id == s'.heap[|s.heap|].id ==> s.heap[q].gen < s'.heap[|s.heap|].gen)
  {
    hide SoundWorld, Apply, Enabled, Newborn, ResumesCurrent;
    StepSizes(w, step);
    if |Apply(w, step).reg.heap| == |w.reg.heap| + 1 { NewbornGen(w, step, Apply(w, step).reg.heap[|w.reg.heap|]); }
  }

  lemma UnseenDiffers(s: Reg, id: string)
    requires !Seen(s, id)
    ensures forall q :: 0 <= q < |s.heap| ==> s.heap[q].id != id
  {
  }

  lemma CurrentBelow(s: Reg, p: Past)
    requires Current(s, p)
    ensures forall q :: 0 <= q < |s.heap| && s.heap[q].id == p.id ==> s.heap[q].gen < p.gen + 1
  {
  }

  lemma ProgressKeepsGen(w: World, step: Step)
    requires Enabled(w, step) && (step.Stop? || step.Snap? || step.Store? || step.CloseDone?)
    ensures |Apply(w, step).reg.heap| == |w.reg.heap|
    ensures forall r :: 0 <= r < |w.reg.heap| ==> Apply(w, step).reg.heap[r].gen == w.reg.heap[r].gen
  {
    if step.Store? { hide Remember; StoreStands(w, step.r); }
  }

  lemma ClaimGens(w: World, step: Step)
    requires SoundWorld(w) && step.Claim? && step.p.id in w.reg.agents
    ensures Newest(w.reg, w.reg.agents[step.p.id]) && |Apply(w, step).reg.heap| == |w.reg.heap|
  {
    hide Sound, ClaimForResume, LiveCount, ScopeFits;
    ClaimShape(w.reg, step.p, step.admit);
    SoundParts(w.reg);
  }

  /** Only the newest handle of an id can start another generation, and then no handle is made. */
  lemma StepGens(w: World, step: Step)
    requires SoundWorld(w) && Enabled(w, step)
    ensures |w.reg.heap| <= |Apply(w, step).reg.heap|
    ensures forall r :: 0 <= r < |w.reg.heap| && Apply(w, step).reg.heap[r].gen != w.reg.heap[r].gen ==>
              Newest(w.reg, r) && |Apply(w, step).reg.heap| == |w.reg.heap|
  {
    hide SoundWorld, Apply, Enabled, Newest;
    StepStands(w, step);
    if step.Claim? { if step.p.id in w.reg.agents { ClaimGens(w, step); } }
    else if step.Stop? || step.Snap? || step.Store? || step.CloseDone? { ProgressKeepsGen(w, step); }
  }

  /** Only a claim of the handle's own id starts another generation of it. */
  lemma ClaimedElsewhere(w: World, step: Step, r: nat)
    requires SoundWorld(w) && Enabled(w, step) && r < |w.reg.heap| && r < |Apply(w, step).reg.heap|
    requires step.Claim? ==> step.p.id != w.reg.heap[r].id
    ensures Apply(w, step).reg.heap[r].gen == w.reg.heap[r].gen
  {
    hide Sound, Seen, TokenHolds, SnapsMatch, Apply;
    StepStands(w, step);
    if step.Claim? { if step.p.id in w.reg.agents { SoundParts(w.reg); NewestInside(w.reg, w.reg.agents[step.p.id]); } }
    else if step.Stop? || step.Snap? || step.Store? || step.CloseDone? { ProgressKeepsGen(w, step); }
  }

  /** Only a claim makes a new handle for an id already seen. */
  lemma NewbornElsewhere(w: World, step: Step, r: nat)
    requires SoundWorld(w) && Enabled(w, step) && |w.reg.heap| <= r < |Apply(w, step).reg.heap|
    requires Seen(w.reg, Apply(w, step).reg.heap[r].id)
    ensures step.Claim? && step.p.id == Apply(w, step).reg.heap[r].id
  {
    hide Sound, Seen, TokenHolds, SnapsMatch, Apply, ScopeFits, ParentAllowed, CallerActive, TrailingSeq, Mint;
    SoundParts(w.reg);
    if Enlists(step) { EnlistingShape(w, step); } else { OthersShrink(w, step); }
    if step.SpawnWorker? { MintIsCold(w.reg, step.role); }
  }

  lemma StepKeepsGens(w: World, step: Step)
    requires SoundWorld(w) && Gens(w.reg) && Enabled(w, step) && ResumesCurrent(w, step)
    ensures Gens(Apply(w, step).reg)
  {
    hide SoundWorld, Apply, Enabled, Newest, ResumesCurrent;
    var s, s' := w.reg, Apply(w, step).reg;
    StepExtends(w, step);
    StepGens(w, step);
    StepBirth(w, step);
    forall q, r | 0 <= q < r < |s'.heap| && s'.heap[q].id == s'.heap[r].id ensures s'.heap[q].gen < s'.heap[r].gen {
      assert Advances(s.heap[q], s'.heap[q]);
      if r < |s.heap| {
        assert Advances(s.heap[r], s'.heap[r]);
        NotNewest(s, q, r);
      }
    }
  }

  lemma NotNewest(s: Reg, q: int, r: int)
    requires 0 <= q < r < |s.heap| && s.heap[q].id == s.heap[r].id
    ensures !Newest(s, q)
  {
  }

  lemma {:induction false} EnlistedNewest(s: Reg, s': Reg, r: int)
    requires Extends(s, s') && 0 <= r < |s.heap| && Newest(s', r)
    ensures Newest(s, r)
  {
    forall q | r < q < |s.heap| ensures s.heap[q].id != s.heap[r].id {
      assert Advances(s.heap[q], s'.heap[q]) && Advances(s.heap[r], s'.heap[r]);
    }
  }

  /** A handle reaching the archived phase is the one whose conversation this step archives. */
  lemma ReachesArchive(w: World, step: Step, r: int)
    requires SoundWorld(w) && Enabled(w, step) && 0 <= r < |w.reg.heap| && r < |Apply(w, step).reg.heap|
    requires Rank(w.reg.heap[r].phase) < 3 && Rank(Apply(w, step).reg.heap[r].phase) >= 3
    ensures step == Store(r) && w.reg.heap[r].phase.Snapped?
  {
    hide Sound, Seen, TokenHolds, Remember;
    StepStands(w, step);
    if step.Claim? {
      hide Apply;
      StepExtends(w, step);
      assert Advances(w.reg.heap[r], Apply(w, step).reg.heap[r]);
      ClaimStarts(w, step);
    }
  }

  lemma ClaimStarts(w: World, step: Step)
    requires step.Claim?
    ensures forall r :: 0 <= r < |w.reg.heap| && r < |Apply(w, step).reg.heap| && Apply(w, step).reg.heap[r] != w.reg.heap[r] ==>
              Apply(w, step).reg.heap[r].phase == Live
  {
    hide ClaimForResume, LiveCount, ScopeFits;
    ClaimShape(w.reg, step.p, step.admit);
  }

  lemma StepKeepsArchiveCurrent(w: World, step: Step)
    requires SoundWorld(w) && GensWorld(w) && Enabled(w, step) && ResumesCurrent(w, step)
    ensures ArchiveCurrent(Apply(w, step).reg)
  {
    hide Sound, Seen, TokenHolds, Apply, Enabled, Newest, ResumesCurrent, Gens;
    var s, s' := w.reg, Apply(w, step).reg;
    StepExtends(w, step);
    StepPast(w, step);
    StepGens(w, step);
    forall r | 0 <= r < |s'.heap| && Newest(s', r) && Rank(s'.heap[r].phase) >= 3 && s'.heap[r].id in s'.past
      ensures s'.past[s'.heap[r].id].gen == s'.heap[r].gen
    {
      if r < |s.heap| {
        assert Advances(s.heap[r], s'.heap[r]);
        EnlistedNewest(s, s', r);
        if Rank(s.heap[r].phase) < 3 { ReachesArchive(w, step, r); StoredGen(w, r); }
        else { ArchivedGen(w, step, r); }
      } else {
        StepBirth(w, step);
        PlantedGen(w, step);
      }
    }
  }

  lemma StoredGen(w: World, r: int)
    requires SoundWorld(w) && r >= 0 && Enabled(w, Store(r))
    requires r < |Apply(w, Store(r)).reg.heap|
    ensures var s' := Apply(w, Store(r)).reg;
            w.reg.heap[r].id in s'.past ==> s'.past[w.reg.heap[r].id].gen == w.reg.heap[r].gen == s'.heap[r].gen
  {
    hide Apply, TokenHolds, Seen, Sound;
    StepPast(w, Store(r));
    StoreStands(w, r);
  }

  /** What a step archives is the generation of a handle that was running until now, or is planted new. */
  lemma ArchivesItsOwn(w: World, step: Step)
    requires SoundWorld(w) && Enabled(w, step) && Archives(w.reg, step).Some?
    ensures var p := Archives(w.reg, step).value;
            if step.Store? then
              step.r < |w.reg.heap| && p.id == w.reg.heap[step.r].id && p.gen == w.reg.heap[step.r].gen
              && w.reg.heap[step.r].phase.Snapped? && (w.reg.closed || Newest(w.reg, step.r))
            else step.PlantWorker? && p == SnapshotPast(step.h) && !Seen(w.reg, p.id)
  {
    hide Newest, Seen, TokenHolds;
    SoundParts(w.reg);
  }

  lemma ArchivedGen(w: World, step: Step, r: int)
    requires SoundWorld(w) && ArchiveCurrent(w.reg) && Enabled(w, step)
    requires Newest(w.reg, r) && Rank(w.reg.heap[r].phase) >= 3 && |w.reg.heap| <= |Apply(w, step).reg.heap|
    requires Rank(Apply(w, step).reg.heap[r].phase) >= 3 && w.reg.heap[r].id in Apply(w, step).reg.past
    ensures Apply(w, step).reg.past[w.reg.heap[r].id].gen == Apply(w, step).reg.heap[r].gen
  {
    hide Apply, Enabled, TokenHolds, Seen;
    var s, s' := w.reg, Apply(w, step).reg;
    StepExtends(w, step);
    StepPast(w, step);
    assert Advances(s.heap[r], s'.heap[r]);
    if Archives(s, step).Some? {
      ArchivesItsOwn(w, step);
      SeenAt(s, r);
      if step.Store? && s.heap[step.r].id == s.heap[r].id {
        if s.closed { ClosedPast(w, step); } else { NewestUnique(s, step.r, r); }
      }
    }
  }

  lemma ClosedPast(w: World, step: Step)
    requires SoundWorld(w) && Enabled(w, step) && w.reg.closed && step.Store?
    ensures Apply(w, step).reg.past == map[]
  {
    hide Seen, TokenHolds, Newest;
    SoundParts(w.reg);
  }

  /** A handle made as finished is a planted one, and the archive takes its generation. */
  lemma PlantedGen(w: World, step: Step)
    requires SoundWorld(w) && Enabled(w, step) && |Apply(w, step).reg.heap| > |w.reg.heap|
    ensures var s, s' := w.reg, Apply(w, step).reg;
            s'.heap[|s.heap|].phase == Live
            || (step.PlantWorker? && s'.heap[|s.heap|] == step.h
                && (step.h.id in s'.past ==> s'.past[step.h.id] == SnapshotPast(step.h)))
  {
    hide SoundWorld, Apply, Enabled, Newborn;
    StepSizes(w, step);
    NewbornLives(w.reg, step, Apply(w, step).reg.heap[|w.reg.heap|]);
    if step.PlantWorker? { PlantedPast(w, step); }
  }

  lemma NewbornLives(s: Reg, step: Step, h: Handle)
    requires Newborn(s, step, h)
    ensures h.phase == Live || (step.PlantWorker? && h == step.h)
  {
    hide ScopeFits, ParentAllowed, CallerActive, Mint;
  }

  lemma PlantedPast(w: World, step: Step)
    requires SoundWorld(w) && Enabled(w, step) && step.PlantWorker?
    ensures var s', h := Apply(w, step).reg, step.h; h.id in s'.past ==> s'.past[h.id] == SnapshotPast(h)
  {
    hide Sound, Seen, TokenHolds, SnapsMatch, Apply;
    StepPast(w, step);
  }

  lemma PastReached(w: World, step: Step)
    requires SoundWorld(w) && GensWorld(w) && Enabled(w, step)
    ensures forall id :: id in Apply(w, step).reg.past ==> Reached(Apply(w, step).reg, id, Apply(w, step).reg.past[id].gen)
  {
    hide Apply, Enabled, TokenHolds, Seen, Reached, Sound, Gens, ArchiveCurrent;
    var s, s' := w.reg, Apply(w, step).reg;
    StepExtends(w, step);
    StepPast(w, step);
    ReachedStays(s, s');
    if Archives(s, step).Some? {
      ArchivesItsOwn(w, step);
      if step.Store? { ReachedAt(s, step.r); } else { PlantReached(w, step); }
    }
  }

  lemma PlantReached(w: World, step: Step)
    requires SoundWorld(w) && Enabled(w, step) && step.PlantWorker?
    ensures step.h.id in Apply(w, step).reg.past ==> Reached(Apply(w, step).reg, step.h.id, step.h.gen)
  {
    hide Sound, Seen, TokenHolds, SnapsMatch, Apply, ScopeFits, ParentAllowed;
    EnlistingShape(w, step);
    SoundParts(w.reg);
    UnseenUnlisted(w.reg, step.h.id);
    if |Apply(w, step).reg.heap| == |w.reg.heap| + 1 { ReachedAt(Apply(w, step).reg, |w.reg.heap|); }
  }

  lemma ReachedAt(s: Reg, r: int)
    requires 0 <= r < |s.heap|
    ensures Reached(s, s.heap[r].id, s.heap[r].gen)
  {
  }

  lemma RecalledReached(w: World, step: Step)
    requires SoundWorld(w) && GensWorld(w) && Enabled(w, step)
    ensures forall p :: p in Apply(w, step).recalled ==> p in w.recalled || Reached(w.reg, p.id, p.gen)
  {
    hide Sound, Seen, TokenHolds, Get, SnapsMatch, Spawn, ClaimForResume, ClaimForRestore, Plant, Remember, CloseSubtree, Reached,
      Gens, ArchiveCurrent;
    match step
    case RecallId(id) =>
      if Recall(w.reg, id).Found? {
        RecallSeen(w.reg, id);
        if id !in w.reg.past {
          LookToken(w.reg, id);
          ReachedAt(w.reg, Get(w.reg, id).value);
        }
      }
    case _ =>
  }

  lemma StepGensWorld(w: World, step: Step)
    requires SoundWorld(w) && GensWorld(w) && Enabled(w, step) && ResumesCurrent(w, step)
    ensures GensWorld(Apply(w, step))
  {
    StepKeepsGens(w, step);
    StepKeepsArchiveCurrent(w, step);
    PastReached(w, step);
    RecalledReached(w, step);
    StepExtends(w, step);
    ReachedStays(w.reg, Apply(w, step).reg);
    hide Apply, Enabled, Gens, ArchiveCurrent, Reached, SoundWorld, Extends;
  }

  ghost predicate CurrentRun(ws: seq<World>, steps: seq<Step>) {
    IsRun(ws, steps) && forall i :: 0 <= i < |steps| ==> ResumesCurrent(ws[i], steps[i])
  }

  lemma {:induction false} RunGens(ws: seq<World>, steps: seq<Step>, i: nat)
    requires CurrentRun(ws, steps) && FromStart(ws) && i < |ws|
    ensures GensWorld(ws[i])
    decreases i
  {
    hide SoundWorld, Apply, Enabled, ResumesCurrent;
    if i == 0 {
      StartGens(ws);
    } else {
      hide GensWorld, FromStart;
      RunGens(ws, steps, i - 1);
      RunSound(ws, steps, i - 1);
      assert Enabled(ws[i - 1], steps[i - 1]) && ws[i - 1 + 1] == Apply(ws[i - 1], steps[i - 1]);
      StepGensWorld(ws[i - 1], steps[i - 1]);
    }
  }

  lemma StartGens(ws: seq<World>)
    requires FromStart(ws)
    ensures GensWorld(ws[0])
  {
  }

  /** Generation gen of the agent is owed to its collector. */
  ghost predicate PendingId(s: Reg, id: string, gen: int) {
    id in s.pending && At(s, s.pending[id]).gen == gen
  }

  /**
   When every resume uses a current conversation, each agent and generation, and not just each handle,
   leaves pending at most once.
   */
  lemma AgentGenerationSettledOnce(ws: seq<World>, steps: seq<Step>, i: nat, j: nat, k: nat, id: string, gen: int)
    requires CurrentRun(ws, steps) && FromStart(ws) && i <= j <= k < |ws|
    requires PendingId(ws[i].reg, id, gen) && !PendingId(ws[j].reg, id, gen)
    ensures !PendingId(ws[k].reg, id, gen)
  {
    hide Apply, Enabled, FromStart, ResumesCurrent;
    RunSound(ws, steps, i);
    RunSound(ws, steps, j);
    RunSound(ws, steps, k);
    RunGens(ws, steps, k);
    SoundParts(ws[i].reg);
    SoundParts(ws[k].reg);
    var q := ws[i].reg.pending[id];
    NewestInside(ws[i].reg, q);
    StaysIssued(ws, steps, i, k, q, gen);
    KeepsId(ws, steps, i, j, q);
    KeepsId(ws, steps, i, k, q);
    LeavesPendingOnce(ws, steps, i, j, k, q, gen);
  }

  lemma {:induction false} KeepsId(ws: seq<World>, steps: seq<Step>, i: nat, k: nat, r: int)
    requires IsRun(ws, steps) && FromStart(ws) && i <= k < |ws| && 0 <= r < |ws[i].reg.heap|
    ensures r < |ws[k].reg.heap| && ws[k].reg.heap[r].id == ws[i].reg.heap[r].id
    decreases k
  {
    hide Apply, Enabled, SoundWorld, FromStart;
    if i < k {
      KeepsId(ws, steps, i, k - 1, r);
      RunSound(ws, steps, k - 1);
      assert Enabled(ws[k - 1], steps[k - 1]) && ws[k - 1 + 1] == Apply(ws[k - 1], steps[k - 1]);
      StepExtends(ws[k - 1], steps[k - 1]);
      assert Advances(ws[k - 1].reg.heap[r], ws[k].reg.heap[r]);
    }
  }
}
