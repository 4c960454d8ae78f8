/**
 The bounded retry of stalled workers (worker_timeout.go, resume.go:319-334, restore.go:142-179). A running
 worker has fewer than three consecutive watchdog stops behind it; one that reached three is not started
 again by any resume, before or after its handle was pruned, until an explicit reset.
 */
module Timeouts {
  import opened Common
  import opened WorkerId
  import opened ToolScope
  import opened Handoff
  import opened Lifecycle
  import opened Runs
  import opened Soundness
  import opened Settlement
  import opened Closing

  /** Every running generation still has budget. */
  ghost predicate WithinBudget(s: Reg) {
    forall r :: 0 <= r < |s.heap| && s.heap[r].phase == Live ==> s.heap[r].timeouts < MAX_CONSECUTIVE_TIMEOUTS
  }

  /** Outside of a reset, only the end of its own run changes a worker's count. */
  ghost predicate CountsStay(s: Reg, s': Reg, stopping: Option<Ref>) {
    && |s.heap| <= |s'.heap|
    && forall r :: 0 <= r < |s.heap| && stopping != Some(r) ==> s'.heap[r].timeouts == s.heap[r].timeouts
  }

  function Stopping(step: Step): Option<Ref> { if step.Stop? then Some(step.r) else None }

  lemma PrefixCounts(s: Reg, s': Reg)
    requires s.heap <= s'.heap
    ensures CountsStay(s, s', None)
  {
  }

  lemma InPlaceCounts(w: World, step: Step)
    requires Enabled(w, step) && InPlace(step) && !step.ForgiveTimeouts?
    ensures CountsStay(w.reg, Apply(w, step).reg, Stopping(step))
  {
    if ReadsOnly(step) {
      hide Apply;
      ReadsNothing(w, step);
    } else if Single(step) {
      hide Apply, Complete, Act;
      SingleIsPut(w, step);
    } else {
      BulkCounts(w, step);
    }
  }

  lemma BulkCounts(w: World, step: Step)
    requires InPlaceBulk(step) && !step.ForgiveTimeouts?
    ensures CountsStay(w.reg, Apply(w, step).reg, None)
  {
    match step
    case Cleanup => assert CountsStay(w.reg, CleanupMarks(w.reg), None);
    case StartHandoff => assert CountsStay(w.reg, BeginHandoff(w.reg), None);
    case SetCap(cap) =>
  }

  lemma RenewCounts(s: Reg, r: Ref)
    ensures CountsStay(s, Renewed(s, r), None)
  {
  }

  lemma CollectCounts(s: Reg, t: Token, closing: bool)
    ensures CountsStay(s, Collect(s, t.ref, t.gen, closing), None)
  {
  }

  lemma CloseCounts(s: Reg, root: string)
    ensures CountsStay(s, CloseSubtree(s, root), None)
  {
    hide Subtree, ClosePast;
    CloseHandlesAt(s, Subtree(s, root));
  }

  lemma StepCounts(w: World, step: Step)
    requires SoundWorld(w) && Enabled(w, step) && !step.ForgiveTimeouts?
    ensures CountsStay(w.reg, Apply(w, step).reg, Stopping(step))
  {
    hide Sound, Seen, TokenHolds, SnapsMatch, Remember, Collect, CloseSubtree, Spawn, ClaimForResume, ClaimForRestore, Plant, Renewed,
      CountsStay, Newborn, Stats, CloseRegistry;
    if InPlace(step) { InPlaceCounts(w, step); }
    else if Enlists(step) {
      hide Apply;
      EnlistingShape(w, step);
      PrefixCounts(w.reg, w.reg);
      if Enlisted(w.reg, Apply(w, step).reg, step) { PrefixCounts(w.reg, Apply(w, step).reg); }
      if step.Claim? && step.p.id in w.reg.agents { RenewCounts(w.reg, w.reg.agents[step.p.id]); }
    } else {
      match step
      case Store(r) => StoreCounts(w, r);
      case Prune => StatsHeap(w.reg); PrefixCounts(w.reg, Stats(w.reg));
      case Settle(t, closing) => CollectCounts(w.reg, t, closing);
      case CloseTree(id) => CloseCounts(w.reg, id); PrefixCounts(w.reg, w.reg);
      case CloseAll => ClosedHeap(w.reg); PrefixCounts(w.reg, CloseRegistry(w.reg));
    }
  }

  lemma StoreCounts(w: World, r: Ref)
    requires Enabled(w, Store(r))
    ensures CountsStay(w.reg, Apply(w, Store(r)).reg, None)
  {
    hide Remember;
    StoreStands(w, r);
  }

  // ---------- running means within budget ----------

  lemma NewbornBudget(w: World, step: Step, h: Handle)
    requires Enabled(w, step) && Newborn(w.reg, step, h)
    ensures h.phase == Live ==> h.timeouts < MAX_CONSECUTIVE_TIMEOUTS
  {
    hide ScopeFits, ParentAllowed, CallerActive, Mint, Seen, Narrower;
  }

  lemma RenewedBudget(s: Reg, r: Ref)
    requires WithinBudget(s) && At(s, r).timeouts < MAX_CONSECUTIVE_TIMEOUTS
    ensures WithinBudget(Renewed(s, r))
  {
  }

  lemma EnlistingBudget(w: World, step: Step)
    requires SoundWorld(w) && Enabled(w, step) && Enlists(step) && WithinBudget(w.reg)
    ensures WithinBudget(Apply(w, step).reg)
  {
    hide SoundWorld, Apply, Enabled, Newborn, Renewed, Seen;
    EnlistingShape(w, step);
    var s, s' := w.reg, Apply(w, step).reg;
    if Enlisted(s, s', step) { NewbornBudget(w, step, s'.heap[|s.heap|]); }
    else if s' != s { RenewedBudget(s, s.agents[step.p.id]); }
  }

  lemma ForgiveBudget(s: Reg)
    requires WithinBudget(s)
    ensures WithinBudget(ResetTimeouts(s))
  {
  }

  lemma OthersBudget(w: World, step: Step)
    requires SoundWorld(w) && Enabled(w, step) && !Enlists(step) && !step.ForgiveTimeouts? && WithinBudget(w.reg)
    ensures WithinBudget(Apply(w, step).reg)
  {
    hide SoundWorld, Apply;
    var s, s' := w.reg, Apply(w, step).reg;
    StepCounts(w, step);
    OthersShrink(w, step);
    StepExtends(w, step);
    StepStands(w, step);
    forall r | 0 <= r < |s'.heap| && s'.heap[r].phase == Live ensures s'.heap[r].timeouts < MAX_CONSECUTIVE_TIMEOUTS {
      assert Advances(s.heap[r], s'.heap[r]);
      if step.Stop? { StoppedPhase(w, step); }
    }
  }

  lemma StoppedPhase(w: World, step: Step)
    requires Enabled(w, step) && step.Stop?
    ensures Apply(w, step).reg.heap == w.reg.heap[step.r := Complete(w.reg.heap[step.r], step.outcome, step.result)]
    ensures Complete(w.reg.heap[step.r], step.outcome, step.result).phase == Stopped
  {
  }

  /** In every world of every run, a running worker has had fewer than three consecutive watchdog stops. */
  lemma {:induction false} RunningIsWithinBudget(ws: seq<World>, steps: seq<Step>, i: nat)
    requires IsRun(ws, steps) && FromStart(ws) && i < |ws|
    ensures WithinBudget(ws[i].reg)
    decreases i
  {
    hide SoundWorld, Apply, Enabled;
    if i > 0 {
      hide FromStart, WithinBudget;
      RunningIsWithinBudget(ws, steps, i - 1);
      RunSound(ws, steps, i - 1);
      assert Enabled(ws[i - 1], steps[i - 1]) && ws[i - 1 + 1] == Apply(ws[i - 1], steps[i - 1]);
      var w, step := ws[i - 1], steps[i - 1];
      if Enlists(step) { EnlistingBudget(w, step); }
      else if step.ForgiveTimeouts? { ForgiveBudget(w.reg); AppliesForgive(w); }
      else { OthersBudget(w, step); }
    }
  }

  lemma AppliesForgive(w: World)
    ensures Apply(w, ForgiveTimeouts).reg == ResetTimeouts(w.reg)
  {
  }

  // ---------- records are of finished generations ----------

  /** Every handle at this generation of the id has finished. */
  ghost predicate Over(s: Reg, id: string, gen: int) {
    forall r :: 0 <= r < |s.heap| && s.heap[r].id == id && s.heap[r].gen == gen ==> Finished(s.heap[r])
  }

  /** Only generations that are over were ever recalled or archived. */
  ghost predicate RecordsOver(w: World) {
    && (forall p :: p in w.recalled ==> Over(w.reg, p.id, p.gen))
    && (forall id :: id in w.reg.past ==> Over(w.reg, id, w.reg.past[id].gen))
  }

  lemma StepOver(w: World, step: Step, id: string, gen: int)
    requires SoundWorld(w) && Gens(w.reg) && Enabled(w, step) && ResumesCurrent(w, step) && Reached(w.reg, id, gen) && Over(w.reg, id, gen)
    ensures Over(Apply(w, step).reg, id, gen)
  {
    hide SoundWorld, Apply, Enabled, Gens, ResumesCurrent, Reached;
    var s, s' := w.reg, Apply(w, step).reg;
    StepExtends(w, step);
    forall r | 0 <= r < |s'.heap| && s'.heap[r].id == id && s'.heap[r].gen == gen ensures Finished(s'.heap[r]) {
      SpentHandle(w, step, id, gen, r);
      assert Advances(s.heap[r], s'.heap[r]);
    }
  }

  lemma FinishedIsOver(s: Reg, r: nat)
    requires Gens(s) && r < |s.heap| && Finished(s.heap[r])
    ensures Over(s, s.heap[r].id, s.heap[r].gen)
  {
  }

  lemma ArchivedIsOver(w: World, step: Step, id: string)
    requires SoundWorld(w) && GensWorld(w) && Enabled(w, step) && ResumesCurrent(w, step) && id in Apply(w, step).reg.past
    requires Archives(w.reg, step).Some? && Archives(w.reg, step).value.id == id
    ensures Over(Apply(w, step).reg, id, Apply(w, step).reg.past[id].gen)
  {
    hide Sound, Seen, TokenHolds, Apply, ScopeFits, ParentAllowed, ArchiveCurrent, ResumesCurrent, Gens, Reached;
    var s, s' := w.reg, Apply(w, step).reg;
    StepPast(w, step);
    StepKeepsGens(w, step);
    if step.Store? {
      StoreStands(w, step.r);
      FinishedIsOver(s', step.r);
    } else {
      UnseenUnlisted(s, id);
      EnlistingShape(w, step);
      FinishedIsOver(s', |s.heap|);
    }
  }

  lemma RecalledIsOver(w: World, step: Step, p: Past)
    requires SoundWorld(w) && Gens(w.reg) && RecordsOver(w) && Enabled(w, step) && p in Apply(w, step).recalled
    ensures Over(w.reg, p.id, p.gen)
  {
    hide Sound, Seen, TokenHolds, Get, SnapsMatch, Spawn, ClaimForResume, ClaimForRestore, Plant, Remember, CloseSubtree, Over, Gens;
    if step.RecallId? && Recall(w.reg, step.id).Found? && p == Recall(w.reg, step.id).past {
      RecallSeen(w.reg, step.id);
      if step.id !in w.reg.past {
        LookToken(w.reg, step.id);
        FinishedIsOver(w.reg, Get(w.reg, step.id).value);
      }
    }
  }

  lemma StepRecordsOver(w: World, step: Step)
    requires SoundWorld(w) && GensWorld(w) && RecordsOver(w) && Enabled(w, step) && ResumesCurrent(w, step)
    ensures RecordsOver(Apply(w, step))
  {
    hide SoundWorld, Apply, Enabled, ResumesCurrent, Over, Gens, ArchiveCurrent, Reached;
    var w' := Apply(w, step);
    forall p | p in w'.recalled ensures Over(w'.reg, p.id, p.gen) {
      RecalledIsOver(w, step, p);
      RecalledReached(w, step);
      StepOver(w, step, p.id, p.gen);
    }
    StepPast(w, step);
    forall id | id in w'.reg.past ensures Over(w'.reg, id, w'.reg.past[id].gen) {
      if Archives(w.reg, step).Some? && Archives(w.reg, step).value.id == id { ArchivedIsOver(w, step, id); }
      else { StepOver(w, step, id, w.reg.past[id].gen); }
    }
  }

  lemma {:induction false} RunRecordsOver(ws: seq<World>, steps: seq<Step>, i: nat)
    requires CurrentRun(ws, steps) && FromStart(ws) && i < |ws|
    ensures RecordsOver(ws[i])
    decreases i
  {
    hide SoundWorld, Apply, Enabled, ResumesCurrent, GensWorld, Over;
    if i > 0 {
      hide FromStart, RecordsOver;
      RunRecordsOver(ws, steps, i - 1);
      RunSound(ws, steps, i - 1);
      RunGens(ws, steps, i - 1);
      assert Enabled(ws[i - 1], steps[i - 1]) && ws[i - 1 + 1] == Apply(ws[i - 1], steps[i - 1]);
      StepRecordsOver(ws[i - 1], steps[i - 1]);
    }
  }

  // ---------- an exhausted worker stays exhausted ----------

  /** gen is the last generation of the id, and it is over with the budget used up. */
  ghost predicate SpentHandles(s: Reg, id: string, gen: int) {
    forall r :: 0 <= r < |s.heap| && s.heap[r].id == id ==>
      s.heap[r].gen <= gen
      && (s.heap[r].gen == gen ==>
            Finished(s.heap[r]) && s.heap[r].timeouts >= MAX_CONSECUTIVE_TIMEOUTS
            && (s.heap[r].phase.Snapped? ==> s.heap[r].phase.past.timeouts >= MAX_CONSECUTIVE_TIMEOUTS))
  }

  predicate SpentRecord(p: Past, id: string, gen: int) {
    p.id == id && p.gen == gen ==> p.timeouts >= MAX_CONSECUTIVE_TIMEOUTS
  }

  /** Every handle and every record of its last generation says the budget is used up. */
  ghost predicate Exhausted(w: World, id: string, gen: int) {
    && Reached(w.reg, id, gen) && SpentHandles(w.reg, id, gen)
    && (forall p :: p in w.recalled ==> SpentRecord(p, id, gen))
    && (id in w.reg.past ==> SpentRecord(w.reg.past[id], id, gen))
  }

  /** Archived counts change only in a reset. */
  ghost predicate PastCountsStay(s: Reg, s': Reg, added: Option<Past>) {
    forall id :: id in s'.past && id in s.past && !(added.Some? && added.value.id == id) ==> s'.past[id].timeouts == s.past[id].timeouts
  }

  lemma CollectPastCounts(s: Reg, t: Token, closing: bool)
    ensures PastCountsStay(s, Collect(s, t.ref, t.gen, closing), None)
  {
  }

  lemma ClosePastCounts(s: Reg, root: string)
    ensures PastCountsStay(s, CloseSubtree(s, root), None)
  {
    hide Subtree, CloseHandles;
  }

  lemma RememberPastCounts(s: Reg, s1: Reg, p: Past)
    requires s1.past == s.past && Listed(s1)
    ensures PastCountsStay(s, Remember(s1, p), Some(p))
  {
    hide Remember;
    RememberKeeps(s1, p);
  }

  lemma StorePastCounts(w: World, r: Ref)
    requires SoundWorld(w) && Enabled(w, Store(r))
    ensures PastCountsStay(w.reg, Apply(w, Store(r)).reg, Archives(w.reg, Store(r)))
  {
    hide Sound, Seen, TokenHolds, Remember, PastCountsStay, Newest;
    SoundParts(w.reg);
    RememberPastCounts(w.reg, Put(w.reg, r, At(w.reg, r).(phase := Archived)), w.reg.heap[r].phase.past);
  }

  lemma PlantPastCounts(w: World, step: Step)
    requires SoundWorld(w) && Enabled(w, step) && step.PlantWorker?
    ensures PastCountsStay(w.reg, Apply(w, step).reg, Archives(w.reg, step))
  {
    hide Sound, Seen, TrailingSeq, Remember, Plant, Enlist, TokenHolds, SnapsMatch, NoteId;
    var s, h := w.reg, step.h;
    SoundParts(s);
    PlantShape(w, step);
    NoteIdFields(s, h.id);
    EnlistPast(NoteId(s, h.id), h);
    EnlistPastIds(NoteId(s, h.id), h);
    RememberPastCounts(s, Enlist(NoteId(s, h.id), h), SnapshotPast(h));
  }

  lemma StepPastCounts(w: World, step: Step)
    requires SoundWorld(w) && Enabled(w, step) && !step.ForgiveTimeouts?
    ensures PastCountsStay(w.reg, Apply(w, step).reg, Archives(w.reg, step))
  {
    hide Sound, Seen, Spawn, ClaimForResume, Remember, CloseSubtree, Stats, Collect, CloseRegistry,
      ClaimForRestore, Plant, CleanupMarks, BeginHandoff, Complete, Get, Recall, TokenHolds, SnapsMatch;
    if InPlace(step) { InPlacePast(w, step); }
    else if step.SpawnWorker? || step.Claim? || step.RestoreWorker? { EnlistingPast(w, step); }
    else {
      match step
      case Store(r) => StorePastCounts(w, r);
      case Prune => StatsPast(w.reg);
      case Settle(t, closing) => CollectPastCounts(w.reg, t, closing);
      case CloseTree(id) => ClosePastCounts(w.reg, id);
      case CloseAll => CleanupPast(w.reg);
      case PlantWorker(h) => PlantPastCounts(w, step);
    }
  }

  /** A resume from a conversation that is current, or of the handle on the roster, is refused. */
  lemma ExhaustedIsRefused(w: World, id: string, gen: int, p: Past, admit: bool)
    requires SoundWorld(w) && GensWorld(w) && Exhausted(w, id, gen)
    requires p in w.recalled && p.id == id && (id in w.reg.agents || Current(w.reg, p))
    ensures ClaimForResume(w.reg, p, admit).Denied?
  {
    hide Sound, Seen, TokenHolds, SnapsMatch, ClaimForResume, LiveCount, ScopeFits, ArchiveCurrent;
    var s := w.reg;
    ClaimShape(s, p, admit);
    SoundParts(s);
    if id in s.agents {
      var r := s.agents[id];
      NewestInside(s, r);
      GensBelowNewest(s, r);
      var q :| 0 <= q < |s.heap| && s.heap[q].id == id && gen <= s.heap[q].gen;
    } else {
      var q :| 0 <= q < |s.heap| && s.heap[q].id == id && gen <= s.heap[q].gen;
      assert Reached(s, p.id, p.gen);
      var q' :| 0 <= q' < |s.heap| && s.heap[q'].id == p.id && p.gen <= s.heap[q'].gen;
    }
  }

  /** So no handle of the id starts another generation, and no new one is made for it. */
  lemma ExhaustedHandle(w: World, step: Step, id: string, gen: int, r: int)
    requires SoundWorld(w) && GensWorld(w) && Exhausted(w, id, gen) && Enabled(w, step) && ResumesCurrent(w, step)
    requires 0 <= r < |Apply(w, step).reg.heap| && Apply(w, step).reg.heap[r].id == id
    ensures r < |w.reg.heap| && w.reg.heap[r].id == id && Apply(w, step).reg.heap[r].gen == w.reg.heap[r].gen
  {
    hide Sound, Seen, TokenHolds, SnapsMatch, Apply, Exhausted, GensWorld, Current, Mint;
    var s, s' := w.reg, Apply(w, step).reg;
    StepExtends(w, step);
    if step.Claim? && step.p.id == id {
      ExhaustedIsRefused(w, id, gen, step.p, step.admit);
      DeniedClaim(w, step);
    } else if r < |s.heap| {
      assert Advances(s.heap[r], s'.heap[r]);
      ClaimedElsewhere(w, step, r);
    } else {
      ExhaustedSeen(w, id, gen);
      NewbornElsewhere(w, step, r);
    }
  }

  lemma DeniedClaim(w: World, step: Step)
    requires step.Claim? && ClaimForResume(w.reg, step.p, step.admit).Denied?
    ensures Apply(w, step) == w
  {
  }

  lemma ExhaustedSeen(w: World, id: string, gen: int)
    requires Exhausted(w, id, gen)
    ensures Seen(w.reg, id)
  {
    var q :| 0 <= q < |w.reg.heap| && w.reg.heap[q].id == id && gen <= w.reg.heap[q].gen;
  }

  lemma StepSpentHandles(w: World, step: Step, id: string, gen: int)
    requires SoundWorld(w) && GensWorld(w) && Exhausted(w, id, gen) && Enabled(w, step) && ResumesCurrent(w, step) && !step.ForgiveTimeouts?
    ensures SpentHandles(Apply(w, step).reg, id, gen)
  {
    hide SoundWorld, GensWorld, Apply, ResumesCurrent, Reached;
    var s, s' := w.reg, Apply(w, step).reg;
    StepExtends(w, step);
    StepCounts(w, step);
    forall r | 0 <= r < |s'.heap| && s'.heap[r].id == id
      ensures s'.heap[r].gen <= gen
           && (s'.heap[r].gen == gen ==>
                 Finished(s'.heap[r]) && s'.heap[r].timeouts >= MAX_CONSECUTIVE_TIMEOUTS
                 && (s'.heap[r].phase.Snapped? ==> s'.heap[r].phase.past.timeouts >= MAX_CONSECUTIVE_TIMEOUTS))
    {
      ExhaustedHandle(w, step, id, gen, r);
      assert Advances(s.heap[r], s'.heap[r]);
    }
  }

  lemma StepSpentRecalled(w: World, step: Step, id: string, gen: int, p: Past)
    requires SoundWorld(w) && Exhausted(w, id, gen) && Enabled(w, step) && p in Apply(w, step).recalled
    ensures SpentRecord(p, id, gen)
  {
    hide Sound, Seen, TokenHolds, Get, SnapsMatch, Spawn, ClaimForResume, ClaimForRestore, Plant, Remember, CloseSubtree, Reached;
    if step.RecallId? && Recall(w.reg, step.id).Found? && p == Recall(w.reg, step.id).past {
      RecallSeen(w.reg, step.id);
      if step.id !in w.reg.past { LookToken(w.reg, step.id); }
    }
  }

  lemma StepSpentPast(w: World, step: Step, id: string, gen: int)
    requires SoundWorld(w) && Exhausted(w, id, gen) && Enabled(w, step) && !step.ForgiveTimeouts? && id in Apply(w, step).reg.past
    ensures SpentRecord(Apply(w, step).reg.past[id], id, gen)
  {
    hide Sound, Seen, TokenHolds, Apply, Reached, MAX_CONSECUTIVE_TIMEOUTS;
    StepPast(w, step);
    StepPastCounts(w, step);
    if Archives(w.reg, step).Some? && Archives(w.reg, step).value.id == id {
      ExhaustedSeen(w, id, gen);
      ArchivesItsOwn(w, step);
    }
  }

  lemma StepExhausted(w: World, step: Step, id: string, gen: int)
    requires SoundWorld(w) && GensWorld(w) && Exhausted(w, id, gen) && Enabled(w, step) && ResumesCurrent(w, step) && !step.ForgiveTimeouts?
    ensures Exhausted(Apply(w, step), id, gen)
  {
    hide SoundWorld, GensWorld, Apply, Enabled, ResumesCurrent, SpentHandles, SpentRecord, Reached;
    var w' := Apply(w, step);
    StepExtends(w, step);
    ReachedStays(w.reg, w'.reg);
    StepSpentHandles(w, step, id, gen);
    forall p | p in w'.recalled ensures SpentRecord(p, id, gen) { StepSpentRecalled(w, step, id, gen, p); }
    if id in w'.reg.past { StepSpentPast(w, step, id, gen); }
  }

  lemma {:induction false} StaysExhausted(ws: seq<World>, steps: seq<Step>, i: nat, k: nat, id: string, gen: int)
    requires CurrentRun(ws, steps) && FromStart(ws) && i <= k < |ws| && Exhausted(ws[i], id, gen)
    requires forall j :: i <= j < k ==> !steps[j].ForgiveTimeouts?
    ensures Exhausted(ws[k], id, gen)
    decreases k
  {
    hide Apply, Enabled, SoundWorld, FromStart, ResumesCurrent, Exhausted, GensWorld;
    if i < k {
      StaysExhausted(ws, steps, i, k - 1, id, gen);
      RunSound(ws, steps, k - 1);
      RunGens(ws, steps, k - 1);
      assert Enabled(ws[k - 1], steps[k - 1]) && ws[k - 1 + 1] == Apply(ws[k - 1], steps[k - 1]);
      StepExhausted(ws[k - 1], steps[k - 1], id, gen);
    }
  }

  /** The third watchdog stop in a row exhausts the worker. */
  lemma ThirdStopExhausts(w: World, step: Step)
    requires SoundWorld(w) && GensWorld(w) && RecordsOver(w) && Enabled(w, step) && step.Stop? && !w.reg.closed
    requires Apply(w, step).reg.heap[step.r].timeouts >= MAX_CONSECUTIVE_TIMEOUTS
    ensures Exhausted(Apply(w, step), w.reg.heap[step.r].id, w.reg.heap[step.r].gen)
  {
    hide Sound, Seen, TokenHolds, SnapsMatch, ArchiveCurrent, Reached, Complete;
    var s, r := w.reg, step.r;
    SoundParts(s);
    StoppedPhase(w, step);
    assert s.agents[s.heap[r].id] == r;
    NewestGen(s, r);
    StopKeeps(s.heap[r], step.outcome, step.result);
    ReachedAt(Apply(w, step).reg, r);
    OverBut(w, r);
  }

  lemma NewestGen(s: Reg, r: nat)
    requires Gens(s) && Newest(s, r)
    ensures forall q :: 0 <= q < |s.heap| && q != r && s.heap[q].id == s.heap[r].id ==> s.heap[q].gen < s.heap[r].gen
  {
  }

  lemma StopKeeps(h: Handle, o: Outcome, result: string)
    ensures Complete(h, o, result).id == h.id && Complete(h, o, result).gen == h.gen && Complete(h, o, result).phase == Stopped
  {
  }

  /** No record is of a generation that still runs. */
  lemma OverBut(w: World, r: nat)
    requires RecordsOver(w) && r < |w.reg.heap| && w.reg.heap[r].phase == Live
    ensures forall p :: p in w.recalled ==> !(p.id == w.reg.heap[r].id && p.gen == w.reg.heap[r].gen)
    ensures w.reg.heap[r].id in w.reg.past ==> w.reg.past[w.reg.heap[r].id].gen != w.reg.heap[r].gen
  {
  }

  /**
   Once its third watchdog stop in a row was counted, a worker is not resumed by anyone, whether its
   handle is still on the roster, was pruned, or its conversation was evicted, until an explicit reset, as
   long as resumes off the roster use a conversation that is current.
   */
  lemma ExhaustedIsNeverResumed(ws: seq<World>, steps: seq<Step>, i: nat, k: nat, p: Past, admit: bool)
    requires CurrentRun(ws, steps) && FromStart(ws) && i < |steps| && i < k < |ws| && steps[i].Stop?
    requires forall j :: i <= j < k ==> !steps[j].ForgiveTimeouts?
    requires steps[i].r < |ws[i + 1].reg.heap| && ws[i + 1].reg.heap[steps[i].r].timeouts >= MAX_CONSECUTIVE_TIMEOUTS
    requires p.id == ws[i + 1].reg.heap[steps[i].r].id
    requires p in ws[k].recalled && (p.id in ws[k].reg.agents || Current(ws[k].reg, p))
    ensures ClaimForResume(ws[k].reg, p, admit).Denied?
  {
    hide Apply, SoundWorld, FromStart, ResumesCurrent, Exhausted, GensWorld, ClaimForResume, Current, RecordsOver;
    RunSound(ws, steps, i);
    RunGens(ws, steps, i);
    RunRecordsOver(ws, steps, i);
    RunSound(ws, steps, k);
    RunGens(ws, steps, k);
    assert Enabled(ws[i], steps[i]) && ws[i + 1] == Apply(ws[i], steps[i]);
    if ws[i].reg.closed {
      StaysClosed(ws, steps, i, k);
      ClaimShape(ws[k].reg, p, admit);
    } else {
      KeepsId(ws, steps, i, i + 1, steps[i].r);
      ThirdStopExhausts(ws[i], steps[i]);
      StaysExhausted(ws, steps, i + 1, k, p.id, ws[i].reg.heap[steps[i].r].gen);
      ExhaustedIsRefused(ws[k], p.id, ws[i].reg.heap[steps[i].r].gen, p, admit);
    }
  }

  /** A restore with a smaller stored count does not help either, while the worker is on the roster or archived. */
  lemma ExhaustedIsNotRestored(w: World, id: string, gen: int, role: string, failures: nat, parent: string, tools: Option<seq<string>>)
    requires SoundWorld(w) && GensWorld(w) && Exhausted(w, id, gen)
    requires id in w.reg.agents || (id in w.reg.past && w.reg.past[id].gen == gen)
    ensures ClaimForRestore(w.reg, id, role, failures, parent, tools).Denied?
  {
    hide Sound, Seen, TokenHolds, SnapsMatch, ArchiveCurrent, ScopeFits, ParentAllowed, Reached;
    var s := w.reg;
    SoundParts(s);
    if id in s.agents {
      var r := s.agents[id];
      NewestInside(s, r);
      GensBelowNewest(s, r);
      LastGen(w, id, gen, r);
    }
  }

  lemma LastGen(w: World, id: string, gen: int, r: nat)
    requires Exhausted(w, id, gen) && r < |w.reg.heap| && w.reg.heap[r].id == id
    requires forall q :: 0 <= q < |w.reg.heap| && w.reg.heap[q].id == id ==> w.reg.heap[q].gen <= w.reg.heap[r].gen
    ensures w.reg.heap[r].gen == gen && w.reg.heap[r].timeouts >= MAX_CONSECUTIVE_TIMEOUTS
  {
    var q :| 0 <= q < |w.reg.heap| && w.reg.heap[q].id == id && gen <= w.reg.heap[q].gen;
  }

  /**
   An explicit reset gives the budget back to whoever is on the roster or archived. A worker that is only
   owed, pruned and evicted, keeps its count: a resume of it is refused for the budget exactly as before.
   */
  lemma ResetReachesIff(s: Reg, id: string, admit: bool)
    requires Sound(s) && Recall(ResetTimeouts(s), id).Found?
    requires !s.handingOff && ScopeFits(ResetTimeouts(s), Recall(ResetTimeouts(s), id).past.parent, Recall(ResetTimeouts(s), id).past.tools)
    requires admit ==> LiveCount(ResetTimeouts(s)) < s.cap
    ensures var s' := ResetTimeouts(s);
            ClaimForResume(s', Recall(s', id).past, admit) == Denied(TimeoutsExhausted)
            <==> id !in s.agents && id !in s.past && At(s, s.pending[id]).timeouts >= MAX_CONSECUTIVE_TIMEOUTS
  {
    hide Sound, ScopeFits, LiveCount, ResetTimeouts, ClaimForResume, Recall;
    RecallAfterReset(s, id);
    BudgetVerdict(ResetTimeouts(s), Recall(ResetTimeouts(s), id).past, admit);
  }

  /** When nothing else stands in the way, the budget alone decides. */
  lemma BudgetVerdict(s: Reg, p: Past, admit: bool)
    requires !s.handingOff && !s.closed && ScopeFits(s, p.parent, p.tools) && (admit ==> LiveCount(s) < s.cap)
    ensures ClaimForResume(s, p, admit) == Denied(TimeoutsExhausted) <==>
              if p.id in s.agents then IsDone(At(s, s.agents[p.id])) && At(s, s.agents[p.id]).timeouts >= MAX_CONSECUTIVE_TIMEOUTS
              else p.timeouts >= MAX_CONSECUTIVE_TIMEOUTS
  {
    hide ScopeFits, LiveCount, Enlist, Renewed;
  }

  lemma RecallAfterReset(s: Reg, id: string)
    requires Sound(s) && Recall(ResetTimeouts(s), id).Found?
    ensures var s', p := ResetTimeouts(s), Recall(ResetTimeouts(s), id).past;
            && p.id == id && !s'.closed && s'.handingOff == s.handingOff && s'.cap == s.cap && s'.agents == s.agents
            && (id in s.agents ==> At(s', s.agents[id]).timeouts == 0)
            && (id !in s.agents && id in s.past ==> p.timeouts == 0)
            && (id !in s.agents && id !in s.past ==> id in s.pending && p.timeouts == At(s, s.pending[id]).timeouts)
  {
    hide Sound, Newest;
    SoundParts(s);
    ForgivenTables(s);
    if id in s.agents { NewestInside(s, s.agents[id]); }
    if id in s.pending { NewestInside(s, s.pending[id]); }
  }

  lemma ForgivenTables(s: Reg)
    ensures var s' := ResetTimeouts(s);
            && s'.agents == s.agents && s'.pending == s.pending && s'.past.Keys == s.past.Keys && |s'.heap| == |s.heap|
            && (forall r :: 0 <= r < |s.heap| ==>
                 s'.heap[r] == s.heap[r].(timeouts := if s.heap[r].id in s.agents && s.agents[s.heap[r].id] == r then 0 else s.heap[r].timeouts))
            && (forall id :: id in s.past ==> s'.past[id] == s.past[id].(timeouts := 0))
  {
  }

  // ---------- the exact condition ----------

  /** The worker's newest handle is over, with the budget used up. */
  ghost predicate WornOut(s: Reg, id: string) {
    Seen(s, id) &&
    forall r :: 0 <= r < |s.heap| && Newest(s, r) && s.heap[r].id == id ==> Finished(s.heap[r]) && s.heap[r].timeouts >= MAX_CONSECUTIVE_TIMEOUTS
  }

  /** The step is an admitted resume of the id off the roster. */
  ghost predicate StartsOffRoster(w: World, step: Step, id: string) {
    && step.Claim? && step.p.id == id && id !in w.reg.agents && Rebuilt(step.base, step.p.tools).Some?
    && ClaimForResume(w.reg, step.p, step.admit).Admitted?
  }

  lemma WornOutOnRoster(s: Reg, id: string)
    requires Sound(s) && WornOut(s, id) && id in s.agents
    ensures At(s, s.agents[id]).timeouts >= MAX_CONSECUTIVE_TIMEOUTS
  {
    hide Seen, Newest;
    SoundParts(s);
    NewestInside(s, s.agents[id]);
  }

  /**
   When nothing else refuses, a resume of a worn-out worker is admitted exactly if the worker is off the
   roster and the recalled conversation itself counts fewer than three stops.
   */
  lemma WornOutClaimIff(s: Reg, p: Past, admit: bool)
    requires Sound(s) && WornOut(s, p.id) && !s.handingOff && !s.closed
    requires ScopeFits(s, p.parent, p.tools) && (admit ==> LiveCount(s) < s.cap)
    ensures ClaimForResume(s, p, admit).Admitted? <==> p.id !in s.agents && p.timeouts < MAX_CONSECUTIVE_TIMEOUTS
  {
    hide Sound, WornOut, ScopeFits, LiveCount, Enlist, Renewed;
    if p.id in s.agents { WornOutOnRoster(s, p.id); }
  }

  /** Whatever else refuses, only such a conversation gets a worn-out worker started. */
  lemma WornOutClaimNeeds(s: Reg, p: Past, admit: bool)
    requires Sound(s) && WornOut(s, p.id) && ClaimForResume(s, p, admit).Admitted?
    ensures p.id !in s.agents && p.timeouts < MAX_CONSECUTIVE_TIMEOUTS
  {
    hide Sound, WornOut, ClaimForResume, ScopeFits, LiveCount, Enlist, Renewed;
    ClaimShape(s, p, admit);
    if p.id in s.agents { WornOutOnRoster(s, p.id); }
  }

  lemma StartedIsNotWornOut(w: World, step: Step, id: string)
    requires SoundWorld(w) && StartsOffRoster(w, step, id)
    ensures !WornOut(Apply(w, step).reg, id)
  {
    hide Sound, Seen, TokenHolds, SnapsMatch, ClaimForResume, LiveCount, ScopeFits, Enlist, Rebuilt;
    ClaimShape(w.reg, step.p, step.admit);
    EnlistNewest(w.reg, ResumedHandle(step.p));
    assert Newest(Apply(w, step).reg, |w.reg.heap|);
  }

  lemma WornOutClaimUnchanged(w: World, step: Step, id: string)
    requires SoundWorld(w) && step.Claim? && step.p.id == id && WornOut(w.reg, id) && !StartsOffRoster(w, step, id)
    ensures Apply(w, step) == w
  {
    hide SoundWorld, WornOut, ClaimForResume, Rebuilt;
    SoundWorldParts(w);
    if ClaimForResume(w.reg, step.p, step.admit).Admitted? { WornOutClaimNeeds(w.reg, step.p, step.admit); }
  }

  lemma WornOutStays(w: World, step: Step, id: string)
    requires SoundWorld(w) && Enabled(w, step) && !step.ForgiveTimeouts? && WornOut(w.reg, id) && !StartsOffRoster(w, step, id)
    ensures WornOut(Apply(w, step).reg, id)
  {
    hide SoundWorld, Apply, StartsOffRoster, Seen, Newest;
    var s, s' := w.reg, Apply(w, step).reg;
    if step.Claim? && step.p.id == id {
      WornOutClaimUnchanged(w, step, id);
    } else {
      StepExtends(w, step);
      StepCounts(w, step);
      ExtendsSeen(s, s');
      forall r | 0 <= r < |s'.heap| && Newest(s', r) && s'.heap[r].id == id
        ensures Finished(s'.heap[r]) && s'.heap[r].timeouts >= MAX_CONSECUTIVE_TIMEOUTS
      {
        if r >= |s.heap| { NewbornElsewhere(w, step, r); }
        EnlistedNewest(s, s', r);
        assert Advances(s.heap[r], s'.heap[r]);
        ClaimedElsewhere(w, step, r);
      }
    }
  }

  /** Outside of a reset, a step keeps a worker worn out exactly unless it is an admitted resume of it off the roster. */
  lemma StepKeepsWornOutIff(w: World, step: Step, id: string)
    requires SoundWorld(w) && Enabled(w, step) && !step.ForgiveTimeouts? && WornOut(w.reg, id)
    ensures WornOut(Apply(w, step).reg, id) <==> !StartsOffRoster(w, step, id)
    ensures StartsOffRoster(w, step, id) ==> step.p.timeouts < MAX_CONSECUTIVE_TIMEOUTS
  {
    hide SoundWorld, Apply, Enabled, StartsOffRoster, WornOut;
    SoundWorldParts(w);
    if StartsOffRoster(w, step, id) {
      StartedIsNotWornOut(w, step, id);
      OffRosterNeeds(w, step, id);
    } else {
      WornOutStays(w, step, id);
    }
  }

  lemma OffRosterNeeds(w: World, step: Step, id: string)
    requires Sound(w.reg) && StartsOffRoster(w, step, id) && WornOut(w.reg, id)
    ensures step.p.timeouts < MAX_CONSECUTIVE_TIMEOUTS
  {
    hide Sound, WornOut, ClaimForResume;
    WornOutClaimNeeds(w.reg, step.p, step.admit);
  }

  /** No resume from i to k starts the id off the roster from a conversation that counts fewer than three stops. */
  ghost predicate NoLowResume(ws: seq<World>, steps: seq<Step>, i: nat, k: nat, id: string)
    requires |ws| == |steps| + 1 && k <= |steps|
  {
    forall j :: i <= j < k ==>
      !(steps[j].Claim? && steps[j].p.id == id && id !in ws[j].reg.agents && steps[j].p.timeouts < MAX_CONSECUTIVE_TIMEOUTS)
  }

  lemma {:induction false} StaysWornOut(ws: seq<World>, steps: seq<Step>, i: nat, k: nat, id: string)
    requires IsRun(ws, steps) && FromStart(ws) && i <= k < |ws| && WornOut(ws[i].reg, id) && NoLowResume(ws, steps, i, k, id)
    requires forall j :: i <= j < k ==> !steps[j].ForgiveTimeouts?
    ensures WornOut(ws[k].reg, id)
    decreases k
  {
    hide Apply, Enabled, SoundWorld, FromStart, WornOut, StartsOffRoster;
    if i < k {
      StaysWornOut(ws, steps, i, k - 1, id);
      RunSound(ws, steps, k - 1);
      assert Enabled(ws[k - 1], steps[k - 1]) && ws[k - 1 + 1] == Apply(ws[k - 1], steps[k - 1]);
      StepKeepsWornOutIff(ws[k - 1], steps[k - 1], id);
      OffRosterClaims(ws[k - 1], steps[k - 1], id);
    }
  }

  lemma OffRosterClaims(w: World, step: Step, id: string)
    ensures StartsOffRoster(w, step, id) ==> step.Claim? && step.p.id == id && id !in w.reg.agents
  {
  }

  lemma ThirdStopWearsOut(w: World, step: Step)
    requires SoundWorld(w) && Enabled(w, step) && step.Stop? && !w.reg.closed
    requires Apply(w, step).reg.heap[step.r].timeouts >= MAX_CONSECUTIVE_TIMEOUTS
    ensures WornOut(Apply(w, step).reg, w.reg.heap[step.r].id)
  {
    hide Sound, Seen, TokenHolds, SnapsMatch, Complete, Apply, Newest;
    var s, s' := w.reg, Apply(w, step).reg;
    SoundParts(s);
    StoppedPhase(w, step);
    StopKeeps(s.heap[step.r], step.outcome, step.result);
    SameIdsNewest(s, s');
    SeenAt(s', step.r);
    assert s.agents[s.heap[step.r].id] == step.r;
    forall r | 0 <= r < |s'.heap| && Newest(s', r) && s'.heap[r].id == s.heap[step.r].id
      ensures Finished(s'.heap[r]) && s'.heap[r].timeouts >= MAX_CONSECUTIVE_TIMEOUTS
    {
      NewestUnique(s', r, step.r);
    }
  }

  /**
   From its third counted watchdog stop on, until an explicit reset, a worker is started again only off the
   roster and only from a conversation recalled when it counted fewer: no other resume is ever admitted, in
   any run. StepKeepsWornOutIff says that this is exact.
   */
  lemma WornOutIsNeverResumed(ws: seq<World>, steps: seq<Step>, i: nat, k: nat, p: Past, admit: bool)
    requires IsRun(ws, steps) && FromStart(ws) && i < |steps| && i < k < |ws| && steps[i].Stop?
    requires forall j :: i <= j < k ==> !steps[j].ForgiveTimeouts?
    requires steps[i].r < |ws[i + 1].reg.heap| && ws[i + 1].reg.heap[steps[i].r].timeouts >= MAX_CONSECUTIVE_TIMEOUTS
    requires p.id == ws[i + 1].reg.heap[steps[i].r].id && NoLowResume(ws, steps, i + 1, k, p.id)
    ensures ClaimForResume(ws[k].reg, p, admit).Admitted? ==> p.id !in ws[k].reg.agents && p.timeouts < MAX_CONSECUTIVE_TIMEOUTS
  {
    hide Apply, SoundWorld, FromStart, WornOut, ClaimForResume, NoLowResume;
    RunSound(ws, steps, i);
    RunSound(ws, steps, k);
    SoundWorldParts(ws[k]);
    assert Enabled(ws[i], steps[i]) && ws[i + 1] == Apply(ws[i], steps[i]);
    if ws[i].reg.closed {
      StaysClosed(ws, steps, i, k);
      ClaimShape(ws[k].reg, p, admit);
    } else {
      KeepsId(ws, steps, i, i + 1, steps[i].r);
      ThirdStopWearsOut(ws[i], steps[i]);
      StaysWornOut(ws, steps, i + 1, k, p.id);
      if ClaimForResume(ws[k].reg, p, admit).Admitted? { WornOutClaimNeeds(ws[k].reg, p, admit); }
    }
  }
}
