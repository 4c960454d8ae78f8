/**
 remember takes its snapshot under the handle's lock and files it later under the registry's
 (resume.go:86-99). A settlement that lands in between marks the handle and the older checkpoint, and the
 archive then files the older marks.
 */
module ArchiveRace {
  import opened Common
  import opened WorkerId
  import opened ToolScope
  import opened Handoff
  import opened Lifecycle
  import opened Runs
  import opened Soundness
  import opened Settlement
  import opened Closing

  /** What was filed is what a snapshot of the handle would now say, exactly if the snapshot is not outdated. */
  lemma FiledIsCurrentIff(w: World, r: Ref)
    requires SoundWorld(w) && Enabled(w, Store(r)) && w.reg.heap[r].id in Apply(w, Store(r)).reg.past && !w.reg.closed
    ensures var s', h := Apply(w, Store(r)).reg, w.reg.heap[r];
            r < |s'.heap| && (s'.past[h.id] == SnapshotPast(s'.heap[r]) <==> h.phase.past == SnapshotPast(h))
  {
    hide Sound, Seen, TokenHolds, Apply;
    StepPast(w, Store(r));
    StoreStands(w, r);
  }

  /** Closing the worker's own id marks its handle, leaves its snapshot, and takes it out of pending. */
  lemma ClosesIt(w: World, r: Ref)
    requires SoundWorld(w) && Enabled(w, Store(r)) && !w.reg.closed
    ensures var s, s' := w.reg, Apply(w, CloseTree(w.reg.heap[r].id)).reg;
            && |s'.heap| == |s.heap| && !s'.closed && s'.heap[r] == s.heap[r].(collected := false, closeRequested := true)
            && s.heap[r].id !in s'.pending
  {
    hide Sound, Seen, TokenHolds, SnapsMatch, ClosePast, CloseSubtree;
    var id := w.reg.heap[r].id;
    SoundWorldSettles(w, r);
    CloseTakesIt(w.reg, r, id);
  }

  lemma SoundWorldSettles(w: World, r: Ref)
    requires SoundWorld(w) && Enabled(w, Store(r)) && !w.reg.closed
    ensures Filed(w.reg, r)
  {
    hide Sound, TokenHolds, Seen, SnapsMatch;
    RunningIsFiled(w.reg, r);
  }

  lemma CloseTakesIt(s: Reg, r: Ref, id: string)
    requires Filed(s, r) && s.heap[r].id == id && !IsDone(s.heap[r])
    ensures var s' := CloseSubtree(s, id);
            && |s'.heap| == |s.heap| && s'.closed == s.closed && s'.heap[r] == s.heap[r].(collected := false, closeRequested := true)
            && id !in s'.pending
  {
    hide ClosePast, Subtree;
    RootIn(s, id);
    CloseHandlesAt(s, Subtree(s, id));
  }

  lemma RootIn(s: Reg, id: string)
    ensures id in Subtree(s, id)
  {
  }

  lemma StoreKeepsPending(w: World, r: Ref)
    requires Enabled(w, Store(r))
    ensures Apply(w, Store(r)).reg.pending == w.reg.pending
  {
    hide Remember;
    RememberRoster(Put(w.reg, r, w.reg.heap[r].(phase := Archived)), w.reg.heap[r].phase.past);
  }

  /** An unsettled checkpoint, planted into an empty registry, is owed. */
  lemma PlantsAgain(p: Past, cap: int, archiveCap: nat)
    requires p.id != "" && p.gen > 0 && !p.collected && !p.closeRequested
    ensures var planted := Plant(EmptyReg(cap, archiveCap, true),
                                 PlantedHandle(p.id, p.role, "", p.gen, p.collected, p.closeRequested, p.timeouts, p.tools, "", NoError));
            planted.Admitted? && p.id in planted.reg.pending
  {
    var s := EmptyReg(cap, archiveCap, true);
    hide TrailingSeq;
    assert !Climb(s, "", p.id, {});
  }

  /**
   A worker closed between the two sections is settled in this process, but its archived checkpoint says it
   is neither collected nor closed; planted into another registry, its result is owed again.
   */
  lemma CloseMissesCheckpoint(w: World, r: Ref, cap: int, archiveCap: nat)
    requires SoundWorld(w) && Enabled(w, Store(r)) && !w.reg.closed && w.reg.heap[r].id != "" && w.reg.heap[r].gen > 0
    requires !w.reg.heap[r].phase.past.collected && !w.reg.heap[r].phase.past.closeRequested
    ensures var id := w.reg.heap[r].id;
            var w2 := Apply(Apply(w, CloseTree(id)), Store(r));
            && r < |w2.reg.heap| && w2.reg.heap[r].closeRequested && id !in w2.reg.pending
            && (id in w2.reg.past ==>
                 var p := w2.reg.past[id];
                 var planted := Plant(EmptyReg(cap, archiveCap, true),
                                      PlantedHandle(p.id, p.role, "", p.gen, p.collected, p.closeRequested, p.timeouts, p.tools, "", NoError));
                 planted.Admitted? && id in planted.reg.pending)
  {
    hide Sound, Seen, TokenHolds, Apply, PlantedHandle, Plant;
    var id := w.reg.heap[r].id;
    ClosesIt(w, r);
    StepSoundWorld(w, CloseTree(id));
    var w1 := Apply(w, CloseTree(id));
    StepPast(w1, Store(r));
    StoreStands(w1, r);
    StoreKeepsPending(w1, r);
    if id in Apply(w1, Store(r)).reg.past { PlantsAgain(Apply(w1, Store(r)).reg.past[id], cap, archiveCap); }
  }

  predicate SameMarks(p: Past, h: Handle) { p.collected == h.collected && p.closeRequested == h.closeRequested }

  /** Once filed, a checkpoint follows its generation: what settles the handle marks the archive alike. */
  lemma CollectReachesArchive(s: Reg, r: Ref, gen: int, closing: bool)
    requires r < |s.heap| && Collectable(s, r, gen) && s.heap[r].id in s.past
    ensures var s', id := Collect(s, r, gen, closing), s.heap[r].id;
            && id in s'.past && (s.past[id].gen == gen ==> SameMarks(s'.past[id], s'.heap[r]))
            && (s.past[id].gen != gen ==> s'.past[id] == s.past[id])
            && forall x :: x in s.past && x != id ==> x in s'.past && s'.past[x] == s.past[x]
  {
  }

  /** A closed subtree does so for each of its members, and an archived member with no handle counts as collected. */
  lemma CloseReachesArchive(s: Reg, root: string, id: string)
    requires Sound(s) && (root in Reachable(s) || root in s.past) && id in Subtree(s, root) && id in s.past
    ensures var s' := CloseSubtree(s, root);
            && id in s'.past
            && (id in Reachable(s) && s.past[id].gen == At(s, Reachable(s)[id]).gen ==> SameMarks(s'.past[id], At(s', Reachable(s)[id])))
            && (id in Reachable(s) && s.past[id].gen != At(s, Reachable(s)[id]).gen ==> s'.past[id] == s.past[id])
            && (id !in Reachable(s) ==> s'.past[id] == s.past[id].(collected := true, closeRequested := false))
  {
    hide Sound, Subtree;
    if id in Reachable(s) { ReachableIs(s, id); }
    CloseHandlesAt(s, Subtree(s, root));
  }
}
