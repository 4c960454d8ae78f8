/**
 Closing a subtree (delegation.go:136-191) and cleaning up (swarm.go:731-760): who is closed, and that a
 closed generation can never delegate again, in any later run, whether it still runs, finished, or was
 resumed under the same id.
 */
module Closing {
  import opened Common
  import opened Order
  import opened WorkerId
  import opened ToolScope
  import opened Handoff
  import opened Lifecycle
  import opened Runs
  import opened Soundness
  import opened Settlement
  import opened Delegation
  import opened Family

  /** The worker is root, or was delegated below it. */
  ghost predicate InTree(s: Reg, id: string, root: string) { id == root || Descends(s, id, root) }

  /** The handle an id names, running or owed. */
  predicate Filed(s: Reg, r: int) {
    0 <= r < |s.heap| && s.heap[r].id in Reachable(s) && Reachable(s)[s.heap[r].id] == r
  }

  lemma ReachableIs(s: Reg, id: string)
    requires Sound(s) && id in Reachable(s)
    ensures Reachable(s)[id] < |s.heap| && s.heap[Reachable(s)[id]].id == id && Newest(s, Reachable(s)[id])
    ensures id in s.agents ==> Reachable(s)[id] == s.agents[id]
  {
    SoundParts(s);
    if id in s.agents { NewestInside(s, s.agents[id]); }
    if id in s.pending { NewestInside(s, s.pending[id]); }
    if id in s.agents && id in s.pending { NewestUnique(s, s.agents[id], s.pending[id]); }
  }

  /** An unfinished worker of an open registry is the one its id names. */
  lemma RunningIsFiled(s: Reg, r: Ref)
    requires Sound(s) && !s.closed && r < |s.heap| && !IsDone(s.heap[r])
    ensures Filed(s, r)
  {
    SoundParts(s);
    hide Sound;
    assert s.heap[r].id in s.agents && s.agents[s.heap[r].id] == r;
    ReachableIs(s, s.heap[r].id);
  }

  lemma KnownIsOpen(s: Reg, root: string)
    requires Sound(s) && (root in Reachable(s) || root in s.past)
    ensures !s.closed
  {
    SoundParts(s);
  }

  lemma SubtreeIsTree(w: World, root: string, id: string)
    requires SoundWorld(w) && FamilyWorld(w) && id in Reachable(w.reg)
    ensures id in Subtree(w.reg, root) <==> InTree(w.reg, id, root)
  {
    hide SoundWorld, FamilyWorld, Descendant, Descends;
    DescendantIsDescends(w, id, root);
  }

  /**
   Closing a subtree settles exactly the handles that root and the workers delegated below it are named
   by: running ones are asked to close, finished ones count as collected, none of them stays pending.
   Every running worker of the tree is among them, and no other handle, roster entry, pending entry or
   archived conversation changes.
   */
  lemma CloseSettlesTheTree(w: World, root: string, r: Ref)
    requires SoundWorld(w) && FamilyWorld(w) && r < |w.reg.heap|
    requires root in Reachable(w.reg) || root in w.reg.past
    ensures var s, s' := w.reg, CloseSubtree(w.reg, root);
            var h, h' := s.heap[r], s'.heap[r];
            && s'.agents == s.agents
            && (Filed(s, r) && InTree(s, h.id, root) ==>
                 h.id !in s'.pending && h' == h.(collected := IsDone(h), closeRequested := !IsDone(h)))
            && (!(Filed(s, r) && InTree(s, h.id, root)) ==> h' == h)
            && (!IsDone(h) && InTree(s, h.id, root) ==> h'.closeRequested)
  {
    hide SoundWorld, FamilyWorld, Subtree, InTree, ClosePast, Descends;
    var s := w.reg;
    SoundWorldParts(w);
    KnownIsOpen(s, root);
    CloseHandlesAt(s, Subtree(s, root));
    if s.heap[r].id in Reachable(s) { SubtreeIsTree(w, root, s.heap[r].id); }
    if !IsDone(s.heap[r]) { RunningIsFiled(s, r); }
  }

  /** Whoever is outside the tree keeps its pending entry and its archived conversation. */
  lemma CloseLeavesOthers(w: World, root: string, id: string)
    requires SoundWorld(w) && FamilyWorld(w) && !InTree(w.reg, id, root)
    ensures var s, s' := w.reg, CloseSubtree(w.reg, root);
            && (id in s'.pending <==> id in s.pending) && (id in s.pending ==> s'.pending[id] == s.pending[id])
            && (id in s'.past <==> id in s.past) && (id in s.past ==> s'.past[id] == s.past[id])
  {
    hide SoundWorld, FamilyWorld, Descends, CloseHandles, Climb;
    if id in Reachable(w.reg) { SubtreeIsTree(w, root, id); }
  }

  // ---------- what close_agent reports ----------

  /** One line of close_agent's report. */
  datatype ClosedWorker = ClosedWorker(id: string, gen: int, cancelled: bool)

  function ClosedEntry(s: Reg, id: string): ClosedWorker {
    if id in Reachable(s) then ClosedWorker(id, At(s, Reachable(s)[id]).gen, !IsDone(At(s, Reachable(s)[id])))
    else if id in s.past then ClosedWorker(id, s.past[id].gen, false)
    else ClosedWorker(id, 0, false)
  }

  /** The report of a close, line by line. */
  function ClosedReport(s: Reg, ids: seq<string>): seq<ClosedWorker> {
    seq(|ids|, i requires 0 <= i < |ids| => ClosedEntry(s, ids[i]))
  }

  lemma ReportNext(s: Reg, ids: seq<string>, id: string)
    ensures ClosedReport(s, ids + [id]) == ClosedReport(s, ids) + [ClosedEntry(s, id)]
  {
  }

  /** The members in the order close_agent reports them. */
  function MemberList(s: Reg, root: string): seq<string> { [root] + Ordered(Subtree(s, root) - {root}) }

  lemma MemberListIs(s: Reg, root: string)
    ensures Distinct(MemberList(s, root)) && (forall id :: id in MemberList(s, root) <==> id in Subtree(s, root))
    ensures MemberList(s, root)[0] == root
  {
    var rest := Ordered(Subtree(s, root) - {root});
    hide Subtree, Ordered;
    assert forall id :: id in rest <==> id in Subtree(s, root) - {root};
    RootIsMember(s, root);
    assert forall i :: 0 <= i < |rest| ==> rest[i] in rest;
  }

  lemma RootIsMember(s: Reg, root: string)
    ensures root in Subtree(s, root)
  {
  }

  lemma EntryIsTrue(s: Reg, root: string, id: string)
    requires Sound(s) && (id in Reachable(s) || id in s.past) && id in Subtree(s, root) && (root in Reachable(s) || root in s.past)
    ensures LineIsTrue(s, CloseSubtree(s, root), ClosedEntry(s, id))
  {
    hide Sound, Subtree, CloseSubtree, CloseHandles, ClosePast;
    ClosesAt(s, root);
    CloseHandlesAt(s, Subtree(s, root));
    if id in Reachable(s) { ReachableIs(s, id); } else { ArchivedMember(s, Subtree(s, root), id); }
  }

  lemma ClosesAt(s: Reg, root: string)
    requires root in Reachable(s) || root in s.past
    ensures CloseSubtree(s, root).heap == CloseHandles(s, Subtree(s, root)) && CloseSubtree(s, root).past == ClosePast(s, Subtree(s, root))
  {
  }

  lemma ArchivedMember(s: Reg, ids: set<string>, id: string)
    requires id !in Reachable(s) && id in s.past && id in ids
    ensures id in ClosePast(s, ids) && ClosePast(s, ids)[id].collected && !ClosePast(s, ids)[id].closeRequested
  {
  }

  /**
   One line of the report against what the close did. A worker that had a handle is named with that handle's
   generation, and as cancelled exactly if it had not finished: then it is now asked to close, and otherwise
   counts as collected. One that was only archived is named with the archived generation, and not cancelled.
   */
  ghost predicate LineIsTrue(s: Reg, s': Reg, e: ClosedWorker) {
    && |s'.heap| == |s.heap|
    && (forall r :: Filed(s, r) && s.heap[r].id == e.id ==>
          && e.gen == s.heap[r].gen && (e.cancelled <==> s.heap[r].phase != Done)
          && s'.heap[r].closeRequested == e.cancelled && s'.heap[r].collected == !e.cancelled)
    && ((forall r :: Filed(s, r) ==> s.heap[r].id != e.id) ==>
          && e.id in s.past && e.gen == s.past[e.id].gen && !e.cancelled
          && e.id in s'.past && s'.past[e.id].collected && !s'.past[e.id].closeRequested)
    && (e.cancelled ==> exists r :: Filed(s, r) && s.heap[r].id == e.id)
  }

  lemma LinesAreTrue(w: World, root: string, i: nat)
    requires SoundWorld(w) && (root in Reachable(w.reg) || root in w.reg.past) && i < |MemberList(w.reg, root)|
    ensures LineIsTrue(w.reg, CloseSubtree(w.reg, root), ClosedEntry(w.reg, MemberList(w.reg, root)[i]))
  {
    hide SoundWorld, LineIsTrue, CloseSubtree, MemberList, Subtree, ClosedEntry, Reachable;
    var id := MemberList(w.reg, root)[i];
    SoundWorldParts(w);
    MemberListIs(w.reg, root);
    assert id in MemberList(w.reg, root);
    MemberIsKnown(w.reg, root, id);
    EntryIsTrue(w.reg, root, id);
  }

  /** Everyone below the root that is on the roster or owed, and nobody else. */
  lemma MembersAreTheTree(w: World, root: string, id: string)
    requires SoundWorld(w) && FamilyWorld(w) && (root in Reachable(w.reg) || root in w.reg.past)
    ensures id in MemberList(w.reg, root) <==> id == root || (id in Reachable(w.reg) && InTree(w.reg, id, root))
  {
    hide SoundWorld, FamilyWorld, MemberList, Subtree, Reachable, InTree;
    MemberListIs(w.reg, root);
    RootIsMember(w.reg, root);
    if id in Subtree(w.reg, root) { MemberIsKnown(w.reg, root, id); }
    if id in Reachable(w.reg) { SubtreeIsTree(w, root, id); }
  }

  /**
   The report of a close: the root first and then, in increasing order, every worker below it that is on the
   roster or owed, each once, and each line as above.
   */
  lemma CloseReportIsTrue(w: World, root: string)
    requires SoundWorld(w) && FamilyWorld(w) && (root in Reachable(w.reg) || root in w.reg.past)
    ensures var s := w.reg;
            var report := ClosedReport(s, MemberList(s, root));
            && report != [] && report[0].id == root
            && (forall i, j :: 0 <= i < j < |report| ==> report[i].id != report[j].id)
            && (forall i, j :: 0 < i < j < |report| ==> Leq(report[i].id, report[j].id))
            && (forall id :: (exists i :: 0 <= i < |report| && report[i].id == id) <==> id == root || (id in Reachable(s) && InTree(s, id, root)))
            && (forall i :: 0 <= i < |report| ==> LineIsTrue(s, CloseSubtree(s, root), report[i]))
  {
    hide SoundWorld, FamilyWorld, InTree, LineIsTrue, CloseSubtree, Leq, ClosedEntry, MemberList, ClosedReport, Reachable;
    var s, ids := w.reg, MemberList(w.reg, root);
    var report := ClosedReport(s, ids);
    MemberListIs(s, root);
    ReportNames(s, ids);
    MembersAscend(s, root);
    forall i | 0 <= i < |report| ensures LineIsTrue(s, CloseSubtree(s, root), report[i]) { LinesAreTrue(w, root, i); }
    forall id ensures (exists i :: 0 <= i < |report| && report[i].id == id) <==> id == root || (id in Reachable(s) && InTree(s, id, root)) {
      MembersAreTheTree(w, root, id);
      if i :| 0 <= i < |ids| && ids[i] == id { assert report[i].id == id; }
    }
  }

  lemma ReportNames(s: Reg, ids: seq<string>)
    ensures |ClosedReport(s, ids)| == |ids|
    ensures forall i :: 0 <= i < |ids| ==> ClosedReport(s, ids)[i].id == ids[i] && ClosedReport(s, ids)[i] == ClosedEntry(s, ids[i])
  {
  }

  lemma MembersAscend(s: Reg, root: string)
    ensures forall i, j :: 0 < i < j < |MemberList(s, root)| ==> Leq(MemberList(s, root)[i], MemberList(s, root)[j])
  {
    hide Subtree, Ordered, Leq;
    assert Sorted(Ordered(Subtree(s, root) - {root}));
  }

  lemma MemberIsKnown(s: Reg, root: string, id: string)
    requires id in Subtree(s, root)
    ensures id != root ==> id in Reachable(s)
  {
  }

  // ---------- a closed generation never delegates again ----------

  /** The generation exists, and nothing of it still has the right to delegate. */
  ghost predicate Spent(s: Reg, id: string, gen: int) {
    Reached(s, id, gen) &&
    forall r :: 0 <= r < |s.heap| && s.heap[r].id == id && s.heap[r].gen == gen ==> s.heap[r].closeRequested || Finished(s.heap[r])
  }

  lemma SpentCannotSpawn(s: Reg, role: string, caller: Caller, enabling: bool, tools: Option<seq<string>>, admit: bool)
    requires Sound(s) && Spent(s, caller.id, caller.gen)
    ensures Spawn(s, role, Some(caller), enabling, tools, admit).Denied?
  {
    hide Sound, Spawn, Reached;
    SpawnShape(s, role, Some(caller), enabling, tools, admit);
    SoundParts(s);
    if caller.id in s.agents { NewestInside(s, s.agents[caller.id]); }
  }

  /** A handle of the spent generation after the step was one before it, unless a stale resume made it. */
  lemma SpentHandle(w: World, step: Step, id: string, gen: int, r: int)
    requires SoundWorld(w) && Gens(w.reg) && Enabled(w, step) && ResumesCurrent(w, step) && Reached(w.reg, id, gen)
    requires 0 <= r < |Apply(w, step).reg.heap| && Apply(w, step).reg.heap[r].id == id && Apply(w, step).reg.heap[r].gen == gen
    ensures r < |w.reg.heap| && w.reg.heap[r].id == id && w.reg.heap[r].gen == gen
  {
    hide SoundWorld, Apply, Enabled, Newest, ResumesCurrent;
    var s, s' := w.reg, Apply(w, step).reg;
    var q :| 0 <= q < |s.heap| && s.heap[q].id == id && gen <= s.heap[q].gen;
    StepExtends(w, step);
    StepGens(w, step);
    StepBirth(w, step);
    if r < |s.heap| {
      assert Advances(s.heap[r], s'.heap[r]);
      if s.heap[r].gen != gen { GensBelowNewest(s, r); }
    }
  }

  /** The step is an admitted resume that starts this very generation of the id. */
  ghost predicate Starts(w: World, step: Step, id: string, gen: int) {
    && step.Claim? && step.p.id == id && Rebuilt(step.base, step.p.tools).Some?
    && ClaimForResume(w.reg, step.p, step.admit).Admitted?
    && gen == (if id in w.reg.agents then At(w.reg, w.reg.agents[id]).gen else step.p.gen) + 1
  }

  /** What such a resume leaves: the generation runs, and may delegate. */
  lemma StartedDelegates(w: World, step: Step, id: string, gen: int)
    requires SoundWorld(w) && Starts(w, step, id, gen)
    ensures CallerActive(Apply(w, step).reg, Caller(id, gen))
    ensures !Spent(Apply(w, step).reg, id, gen)
  {
    hide Sound, Seen, TokenHolds, SnapsMatch, ClaimForResume, LiveCount, ScopeFits, Enlist, Renewed, Rebuilt, Reached;
    var s := w.reg;
    ClaimShape(s, step.p, step.admit);
    if id in s.agents {
      SoundParts(s);
      NewestInside(s, s.agents[id]);
      RenewedValue(s, s.agents[id]);
    } else {
      EnlistTables(s, s, ResumedHandle(step.p));
    }
    var s' := Apply(w, step).reg;
    ActiveIsNotSpent(s', s'.agents[id], gen);
  }

  lemma ActiveIsNotSpent(s: Reg, r: Ref, gen: int)
    requires r < |s.heap| && s.heap[r].gen == gen && !s.heap[r].closeRequested && !Finished(s.heap[r])
    ensures !Spent(s, s.heap[r].id, gen)
  {
  }

  /** A resume of the id that starts another generation changes no handle of this one. */
  lemma ClaimKeepsSpent(w: World, step: Step, id: string, gen: int, r: int)
    requires SoundWorld(w) && Enabled(w, step) && step.Claim? && step.p.id == id && !Starts(w, step, id, gen)
    requires 0 <= r < |Apply(w, step).reg.heap| && Apply(w, step).reg.heap[r].id == id && Apply(w, step).reg.heap[r].gen == gen
    ensures r < |w.reg.heap| && w.reg.heap[r] == Apply(w, step).reg.heap[r]
  {
    hide Sound, Seen, TokenHolds, SnapsMatch, ClaimForResume, LiveCount, ScopeFits, Enlist, Renewed, Rebuilt;
    var s := w.reg;
    ClaimShape(s, step.p, step.admit);
    if id in s.agents {
      SoundParts(s);
      NewestInside(s, s.agents[id]);
      RenewedValue(s, s.agents[id]);
    } else {
      EnlistTables(s, s, ResumedHandle(step.p));
    }
  }

  lemma ReachedSeen(s: Reg, id: string, gen: int)
    requires Reached(s, id, gen)
    ensures Seen(s, id)
  {
  }

  lemma SpentStays(w: World, step: Step, id: string, gen: int)
    requires SoundWorld(w) && Enabled(w, step) && Spent(w.reg, id, gen) && !Starts(w, step, id, gen)
    ensures Spent(Apply(w, step).reg, id, gen)
  {
    hide SoundWorld, Apply, Enabled, Starts, Reached, Seen;
    var s, s' := w.reg, Apply(w, step).reg;
    StepExtends(w, step);
    ReachedStays(s, s');
    forall r | 0 <= r < |s'.heap| && s'.heap[r].id == id && s'.heap[r].gen == gen
      ensures s'.heap[r].closeRequested || Finished(s'.heap[r])
    {
      if step.Claim? && step.p.id == id {
        ClaimKeepsSpent(w, step, id, gen, r);
      } else if r < |s.heap| {
        assert Advances(s.heap[r], s'.heap[r]);
        ClaimedElsewhere(w, step, r);
      } else {
        ReachedSeen(s, id, gen);
        NewbornElsewhere(w, step, r);
      }
    }
  }

  /** A step keeps a generation spent exactly unless it is an admitted resume that starts that generation. */
  lemma StepKeepsSpentIff(w: World, step: Step, id: string, gen: int)
    requires SoundWorld(w) && Enabled(w, step) && Spent(w.reg, id, gen)
    ensures Spent(Apply(w, step).reg, id, gen) <==> !Starts(w, step, id, gen)
    ensures Starts(w, step, id, gen) ==> CallerActive(Apply(w, step).reg, Caller(id, gen))
  {
    hide SoundWorld, Apply, Enabled, Starts, Spent, CallerActive;
    if Starts(w, step, id, gen) { StartedDelegates(w, step, id, gen); } else { SpentStays(w, step, id, gen); }
  }

  /** For a resume off the roster that is a number in the recalled conversation: it must not be one below. */
  lemma OffRosterClaimKeepsSpentIff(w: World, p: Past, base: Surface, admit: bool, gen: int)
    requires SoundWorld(w) && p in w.recalled && p.id !in w.reg.agents && Spent(w.reg, p.id, gen)
    requires Rebuilt(base, p.tools).Some? && ClaimForResume(w.reg, p, admit).Admitted?
    ensures Spent(Apply(w, Claim(p, base, admit)).reg, p.id, gen) <==> gen != p.gen + 1
  {
    hide SoundWorld, Apply, Spent, ClaimForResume, Rebuilt;
    StepKeepsSpentIff(w, Claim(p, base, admit), p.id, gen);
  }

  /** A current resume never starts a generation that was reached. */
  lemma CurrentStartsNew(w: World, step: Step, id: string, gen: int)
    requires SoundWorld(w) && Gens(w.reg) && ResumesCurrent(w, step) && Reached(w.reg, id, gen)
    ensures !Starts(w, step, id, gen)
  {
    hide Sound, Seen, TokenHolds, SnapsMatch, ClaimForResume, Rebuilt;
    if Starts(w, step, id, gen) {
      var q :| 0 <= q < |w.reg.heap| && w.reg.heap[q].id == id && gen <= w.reg.heap[q].gen;
      if id in w.reg.agents {
        SoundParts(w.reg);
        GensBelowNewest(w.reg, w.reg.agents[id]);
      }
    }
  }

  /** No step from i to k starts the generation. */
  ghost predicate NeverStarted(ws: seq<World>, steps: seq<Step>, i: nat, k: nat, id: string, gen: int)
    requires |ws| == |steps| + 1 && k <= |steps|
  {
    forall j :: i <= j < k ==> !Starts(ws[j], steps[j], id, gen)
  }

  /** In a run whose resumes are current, no generation reached by then is ever started again. */
  lemma {:induction false} CurrentNeverStarts(ws: seq<World>, steps: seq<Step>, i: nat, k: nat, id: string, gen: int)
    requires CurrentRun(ws, steps) && FromStart(ws) && i <= k <= |steps| && Reached(ws[i].reg, id, gen)
    ensures NeverStarted(ws, steps, i, k, id, gen) && Reached(ws[k].reg, id, gen)
    decreases k
  {
    hide Apply, Enabled, SoundWorld, FromStart, ResumesCurrent, Reached, Starts;
    if i < k {
      CurrentNeverStarts(ws, steps, i, k - 1, id, gen);
      RunSound(ws, steps, k - 1);
      RunGens(ws, steps, k - 1);
      assert Enabled(ws[k - 1], steps[k - 1]) && ws[k - 1 + 1] == Apply(ws[k - 1], steps[k - 1]);
      CurrentStartsNew(ws[k - 1], steps[k - 1], id, gen);
      StepExtends(ws[k - 1], steps[k - 1]);
      ReachedStays(ws[k - 1].reg, ws[k].reg);
    }
  }

  lemma {:induction false} StaysSpent(ws: seq<World>, steps: seq<Step>, i: nat, k: nat, id: string, gen: int)
    requires IsRun(ws, steps) && FromStart(ws) && i <= k < |ws| && Spent(ws[i].reg, id, gen)
    requires NeverStarted(ws, steps, i, k, id, gen)
    ensures Spent(ws[k].reg, id, gen)
    decreases k
  {
    hide Apply, Enabled, SoundWorld, FromStart, Starts, Spent;
    if i < k {
      StaysSpent(ws, steps, i, k - 1, id, gen);
      RunSound(ws, steps, k - 1);
      assert Enabled(ws[k - 1], steps[k - 1]) && ws[k - 1 + 1] == Apply(ws[k - 1], steps[k - 1]);
      StepKeepsSpentIff(ws[k - 1], steps[k - 1], id, gen);
    }
  }

  /** Closing spends every generation the workers it settles have had so far. */
  lemma CloseSpends(w: World, root: string, id: string, gen: int)
    requires SoundWorld(w) && (root in Reachable(w.reg) || root in w.reg.past) && id in Subtree(w.reg, root)
    requires Reached(w.reg, id, gen)
    ensures Spent(CloseSubtree(w.reg, root), id, gen)
  {
    hide SoundWorld, Subtree, ClosePast, Reached;
    var s, s' := w.reg, CloseSubtree(w.reg, root);
    SoundWorldParts(w);
    KnownIsOpen(s, root);
    CloseSubtreeExtends(s, root);
    ReachedStays(s, s');
    CloseHandlesAt(s, Subtree(s, root));
    forall r | 0 <= r < |s'.heap| && s'.heap[r].id == id && s'.heap[r].gen == gen
      ensures s'.heap[r].closeRequested || Finished(s'.heap[r])
    {
      if !IsDone(s.heap[r]) { RunningIsFiled(s, r); }
    }
  }

  lemma AppliesClose(w: World, root: string)
    requires root in Reachable(w.reg) || root in w.reg.past
    ensures Apply(w, CloseTree(root)).reg == CloseSubtree(w.reg, root)
  {
    hide CloseSubtree;
  }

  /**
   After a subtree is closed, no generation that any of its workers had by then is admitted as the caller
   of a spawn again: not while it still runs, not after it finishes, and not after the same id was resumed,
   in any later world of any run, as long as no resume starts that very generation a second time. That is
   exact, step by step (StepKeepsSpentIff), and holds of every run whose resumes are current.
   */
  lemma ClosedNeverDelegatesAgain(ws: seq<World>, steps: seq<Step>, i: nat, k: nat, root: string, caller: Caller,
                                  role: string, enabling: bool, tools: Option<seq<string>>, admit: bool)
    requires IsRun(ws, steps) && FromStart(ws) && i < |steps| && i < k < |ws| && steps[i] == CloseTree(root)
    requires NeverStarted(ws, steps, i + 1, k, caller.id, caller.gen)
    requires root in Reachable(ws[i].reg) || root in ws[i].reg.past
    requires caller.id in Subtree(ws[i].reg, root) && Reached(ws[i].reg, caller.id, caller.gen)
    ensures Spawn(ws[k].reg, role, Some(caller), enabling, tools, admit).Denied?
  {
    hide SoundWorld, Apply, Enabled, FromStart, NeverStarted, Spent, Reached, Subtree, Spawn, CloseSubtree, Reachable;
    RunSound(ws, steps, i);
    assert ws[i + 1] == Apply(ws[i], steps[i]);
    CloseSpends(ws[i], root, caller.id, caller.gen);
    AppliesClose(ws[i], root);
    StaysSpent(ws, steps, i + 1, k, caller.id, caller.gen);
    RunSound(ws, steps, k);
    SoundWorldParts(ws[k]);
    SpentCannotSpawn(ws[k].reg, role, caller, enabling, tools, admit);
  }

  /** So in every run whose resumes are current. */
  lemma ClosedInCurrentRuns(ws: seq<World>, steps: seq<Step>, i: nat, k: nat, root: string, caller: Caller,
                            role: string, enabling: bool, tools: Option<seq<string>>, admit: bool)
    requires CurrentRun(ws, steps) && FromStart(ws) && i < |steps| && i < k < |ws| && steps[i] == CloseTree(root)
    requires root in Reachable(ws[i].reg) || root in ws[i].reg.past
    requires caller.id in Subtree(ws[i].reg, root) && Reached(ws[i].reg, caller.id, caller.gen)
    ensures Spawn(ws[k].reg, role, Some(caller), enabling, tools, admit).Denied?
  {
    hide Apply, Enabled, FromStart, ResumesCurrent, Starts, Reached, Subtree, Spawn, Reachable;
    CurrentNeverStarts(ws, steps, i, k, caller.id, caller.gen);
    ClosedNeverDelegatesAgain(ws, steps, i, k, root, caller, role, enabling, tools, admit);
  }

  /** With delegation on, cleaning up spends every generation of every worker there is. */
  lemma CleanupSpends(w: World, id: string, gen: int)
    requires SoundWorld(w) && w.reg.delegation && !w.reg.closed && Reached(w.reg, id, gen)
    ensures Spent(CleanupMarks(w.reg), id, gen)
  {
    hide SoundWorld, Reached;
    var s, s' := w.reg, CleanupMarks(w.reg);
    SoundWorldParts(w);
    SoundParts(s);
    CleanupReaches(w, id, gen);
    hide Sound;
    forall r | 0 <= r < |s'.heap| && s'.heap[r].id == id && s'.heap[r].gen == gen
      ensures s'.heap[r].closeRequested || Finished(s'.heap[r])
    {
    }
  }

  lemma CleanupReaches(w: World, id: string, gen: int)
    requires SoundWorld(w) && Reached(w.reg, id, gen)
    ensures Reached(CleanupMarks(w.reg), id, gen)
  {
    hide SoundWorld, Reached;
    StepExtends(w, Cleanup);
    ReachedStays(w.reg, CleanupMarks(w.reg));
  }

  /** So a cleanup, whatever its cancellations still wait for, leaves no worker of that time a delegator. */
  lemma CleanupStopsDelegation(ws: seq<World>, steps: seq<Step>, i: nat, k: nat, caller: Caller,
                               role: string, enabling: bool, tools: Option<seq<string>>, admit: bool)
    requires IsRun(ws, steps) && FromStart(ws) && i < |steps| && i < k < |ws| && steps[i] == Cleanup
    requires NeverStarted(ws, steps, i + 1, k, caller.id, caller.gen)
    requires ws[i].reg.delegation && Reached(ws[i].reg, caller.id, caller.gen)
    ensures Spawn(ws[k].reg, role, Some(caller), enabling, tools, admit).Denied?
  {
    hide SoundWorld, Apply, Enabled, FromStart, NeverStarted, Spent, Reached, Spawn, CleanupMarks;
    RunSound(ws, steps, i);
    assert ws[i + 1] == Apply(ws[i], steps[i]);
    if !ws[i].reg.closed {
      CleanupSpends(ws[i], caller.id, caller.gen);
      AppliesCleanup(ws[i]);
      StaysSpent(ws, steps, i + 1, k, caller.id, caller.gen);
      RunSound(ws, steps, k);
      SoundWorldParts(ws[k]);
      SpentCannotSpawn(ws[k].reg, role, caller, enabling, tools, admit);
    } else {
      StaysClosed(ws, steps, i, k);
      SpawnShape(ws[k].reg, role, Some(caller), enabling, tools, admit);
    }
  }

  lemma CleanupInCurrentRuns(ws: seq<World>, steps: seq<Step>, i: nat, k: nat, caller: Caller,
                             role: string, enabling: bool, tools: Option<seq<string>>, admit: bool)
    requires CurrentRun(ws, steps) && FromStart(ws) && i < |steps| && i < k < |ws| && steps[i] == Cleanup
    requires ws[i].reg.delegation && Reached(ws[i].reg, caller.id, caller.gen)
    ensures Spawn(ws[k].reg, role, Some(caller), enabling, tools, admit).Denied?
  {
    hide Apply, Enabled, FromStart, ResumesCurrent, Starts, Reached, Spawn;
    CurrentNeverStarts(ws, steps, i, k, caller.id, caller.gen);
    CleanupStopsDelegation(ws, steps, i, k, caller, role, enabling, tools, admit);
  }

  lemma AppliesCleanup(w: World)
    ensures Apply(w, Cleanup).reg == CleanupMarks(w.reg)
  {
  }

  lemma StepStaysClosed(w: World, step: Step)
    requires Sound(w.reg) && Enabled(w, step) && w.reg.closed
    ensures Apply(w, step).reg.closed
  {
    hide Sound, Seen, TrailingSeq, Remember, CloseSubtree, Get, Recall, Complete, RestoreCollection, CleanupMarks, BeginHandoff, ResetTimeouts;
    if Enlists(step) {
      hide Enlist;
    } else if InPlace(step) {
      InPlaceGentle(w, step);
    } else if step.CloseTree? {
      CloseKeepsClosed(w.reg, step.id);
    } else if step.Store? {
      RememberRoster(Put(w.reg, step.r, At(w.reg, step.r).(phase := Archived)), w.reg.heap[step.r].phase.past);
    }
  }

  lemma CloseKeepsClosed(s: Reg, root: string)
    ensures CloseSubtree(s, root).closed == s.closed
  {
  }

  lemma {:induction false} StaysClosed(ws: seq<World>, steps: seq<Step>, i: nat, k: nat)
    requires IsRun(ws, steps) && FromStart(ws) && i <= k < |ws| && ws[i].reg.closed
    ensures ws[k].reg.closed
    decreases k
  {
    hide Apply, Enabled, SoundWorld, FromStart;
    if i < k {
      StaysClosed(ws, steps, i, k - 1);
      RunSound(ws, steps, k - 1);
      SoundWorldParts(ws[k - 1]);
      assert Enabled(ws[k - 1], steps[k - 1]) && ws[k - 1 + 1] == Apply(ws[k - 1], steps[k - 1]);
      StepStaysClosed(ws[k - 1], steps[k - 1]);
    }
  }
}
