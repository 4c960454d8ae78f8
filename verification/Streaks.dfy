/**
 What the retry budget counts (worker_timeout.go:44-67): the watchdog stops in a row at the end of a
 worker's runs, read off the run itself and not off any counter. In every run whose resumes are current
 no counter is below that number, across pruning, archiving and resumes on and off the roster; it is that
 number as long as resets find no counted conversation in somebody's hands.
 */
module Streaks {
  import opened Common
  import opened WorkerId
  import opened ToolScope
  import opened Handoff
  import opened Lifecycle
  import opened Runs
  import opened Soundness
  import opened Settlement
  import opened Closing
  import opened Timeouts

  /** One more end of a run: a stop for a handoff says nothing, and a failure while one is asked for clears nothing. */
  function Counted(o: Outcome, f: WorkerHandoff, n: nat): nat {
    if f.cancelled || (f.read && o == Succeeded) then n
    else if o == Failed(true) then n + 1
    else if o == Succeeded || !f.requested then 0
    else n
  }

  /** A worker begins with nothing, or with what its checkpoint stored, and an explicit reset clears everyone. */
  function NextStreak(w: World, step: Step, id: string, n: nat): nat {
    match step
    case Stop(r, o, _) => if At(w.reg, r).id == id then Counted(o, At(w.reg, r).work.handoff, n) else n
    case SpawnWorker(role, _, _, _, _) => if id == Mint(role, Increment(w.reg.counter)) then 0 else n
    case RestoreWorker(restored, _, failures, _, _, _, _, _, _) => if id == restored then failures else n
    case PlantWorker(h) => if id == h.id then h.timeouts else n
    case ForgiveTimeouts => 0
    case _ => n
  }

  /** The watchdog stops in a row behind the id's worker, after the first k steps. */
  function Streak(ws: seq<World>, steps: seq<Step>, k: nat, id: string): nat
    requires k <= |steps| <= |ws|
    decreases k
  {
    if k == 0 then 0 else NextStreak(ws[k - 1], steps[k - 1], id, Streak(ws, steps, k - 1, id))
  }

  /** A counter says exactly the streak, or at least as much. */
  predicate Says(exact: bool, streak: nat, count: nat) { if exact then count == streak else streak <= count }

  lemma SaysItself(exact: bool, n: nat)
    ensures Says(exact, n, n)
  {
  }

  /** On the roster, or owed. */
  predicate Filed(s: Reg, r: int) {
    0 <= r < |s.heap|
    && ((s.heap[r].id in s.agents && s.agents[s.heap[r].id] == r) || (s.heap[r].id in s.pending && s.pending[s.heap[r].id] == r))
  }

  // ---------- where a count is kept ----------

  ghost predicate HandlesSay(s: Reg, n: string -> nat, exact: bool) {
    forall r :: 0 <= r < |s.heap| && Newest(s, r) && (exact ==> Filed(s, r)) ==> Says(exact, n(s.heap[r].id), s.heap[r].timeouts)
  }

  ghost predicate SnapsSay(s: Reg, n: string -> nat, exact: bool) {
    forall r :: 0 <= r < |s.heap| && Newest(s, r) && s.heap[r].phase.Snapped? ==>
      Says(exact, n(s.heap[r].id), s.heap[r].phase.past.timeouts)
  }

  ghost predicate PastSays(s: Reg, n: string -> nat, exact: bool) {
    forall id :: id in s.past && Current(s, s.past[id]) ==> Says(exact, n(id), s.past[id].timeouts)
  }

  ghost predicate RecalledSay(w: World, n: string -> nat, exact: bool) {
    forall p :: p in w.recalled && Current(w.reg, p) ==> Says(exact, n(p.id), p.timeouts)
  }

  /** Every place a resume can take a count from. A closed registry resumes nobody. */
  ghost predicate CountsSay(w: World, n: string -> nat, exact: bool) {
    (exact && w.reg.closed)
    || (HandlesSay(w.reg, n, exact) && SnapsSay(w.reg, n, exact) && PastSays(w.reg, n, exact) && RecalledSay(w, n, exact))
  }

  /** No counted conversation is held between two sections, and none is owed only. */
  ghost predicate Quiet(w: World) {
    && (forall id :: id in w.reg.pending && id !in w.reg.agents ==> At(w.reg, w.reg.pending[id]).timeouts == 0)
    && (forall r :: 0 <= r < |w.reg.heap| && Newest(w.reg, r) && w.reg.heap[r].phase.Snapped? ==> w.reg.heap[r].phase.past.timeouts == 0)
    && (forall p :: p in w.recalled && Current(w.reg, p) ==> p.timeouts == 0)
  }

  // ---------- the worker that stops is the newest of its id ----------

  ghost predicate RunningNewest(s: Reg) {
    forall r :: 0 <= r < |s.heap| && s.heap[r].phase == Live ==> Newest(s, r)
  }

  lemma OpenRunningNewest(s: Reg)
    requires Sound(s) && !s.closed
    ensures RunningNewest(s)
  {
    SoundParts(s);
    hide Sound, Newest;
  }

  lemma ClosedStep(w: World, step: Step)
    requires SoundWorld(w) && Enabled(w, step) && w.reg.closed
    ensures |Apply(w, step).reg.heap| == |w.reg.heap|
    ensures forall r :: 0 <= r < |w.reg.heap| && r < |Apply(w, step).reg.heap| && Apply(w, step).reg.heap[r].phase == Live ==> w.reg.heap[r].phase == Live
  {
    hide SoundWorld, Apply;
    StepSizes(w, step);
    StepStands(w, step);
    if step.Claim? { ClosedClaim(w, step); }
    else if step.Store? { StoreStands(w, step.r); }
    else if step.Stop? || step.Snap? || step.CloseDone? { SingleIsPut(w, step); }
  }

  lemma ClosedClaim(w: World, step: Step)
    requires w.reg.closed && step.Claim?
    ensures Apply(w, step) == w
  {
    hide Rebuilt, LiveCount, ScopeFits, Enlist, Renewed;
  }

  lemma StepRunningNewest(w: World, step: Step)
    requires SoundWorld(w) && RunningNewest(w.reg) && Enabled(w, step)
    ensures RunningNewest(Apply(w, step).reg)
  {
    hide SoundWorld, Apply, Enabled, Newest;
    var s, s' := w.reg, Apply(w, step).reg;
    if !s'.closed {
      StepSoundWorld(w, step);
      SoundWorldParts(Apply(w, step));
      OpenRunningNewest(s');
    } else {
      StepExtends(w, step);
      if s.closed { ClosedStep(w, step); } else { ClosingStep(w, step); }
      SameIds(s, s');
      SameIdsNewest(s, s');
    }
  }

  lemma SameIds(s: Reg, s': Reg)
    requires Extends(s, s') && |s'.heap| == |s.heap|
    ensures forall r :: 0 <= r < |s.heap| ==> s'.heap[r].id == s.heap[r].id
  {
    forall r | 0 <= r < |s.heap| ensures s'.heap[r].id == s.heap[r].id { assert Advances(s.heap[r], s'.heap[r]); }
  }

  /** Only Close closes the registry, and it leaves the handles as they are. */
  lemma ClosingStep(w: World, step: Step)
    requires SoundWorld(w) && Enabled(w, step) && !w.reg.closed && Apply(w, step).reg.closed
    ensures Apply(w, step).reg.heap == w.reg.heap
  {
    hide Sound, Seen, TokenHolds, SnapsMatch, Remember, CloseSubtree, Newborn, Renewed, Get, Recall, Complete, Act;
    if Enlists(step) { EnlistingOpen(w, step); }
    else if InPlace(step) { hide Apply; InPlaceGentle(w, step); GentleOpen(w.reg, Apply(w, step).reg); }
    else if step.CloseTree? { CloseKeepsClosed(w.reg, step.id); }
    else if step.Store? { RememberRoster(Put(w.reg, step.r, At(w.reg, step.r).(phase := Archived)), w.reg.heap[step.r].phase.past); }
  }

  lemma GentleOpen(s: Reg, s': Reg)
    requires Gentle(s, s')
    ensures s'.closed == s.closed
  {
  }

  lemma EnlistingOpen(w: World, step: Step)
    requires SoundWorld(w) && Enabled(w, step) && Enlists(step) && !w.reg.closed
    ensures !Apply(w, step).reg.closed
  {
    hide Sound, Seen, TokenHolds, SnapsMatch, TrailingSeq, Spawn, ClaimForResume, ClaimForRestore, Plant, Remember, Enlist, NoteId,
      ScopeFits, ParentAllowed, CallerActive, LiveCount, Granted, Rebuilt, Mint, Renewed;
    var s := w.reg;
    match step
    case SpawnWorker(_, _, _, _, _) =>
      SpawnStep(w, step);
      EnlistCounter(SpawnBase(w, step), SpawnMade(w, step));
    case Claim(p, _, admit) =>
      ClaimShape(s, p, admit);
      EnlistCounter(s, ResumedHandle(p));
      if p.id in s.agents { RenewedOpen(s, s.agents[p.id]); }
    case RestoreWorker(id, _, _, _, _, _, _, _, _) =>
      RestoreShape(w, step);
      NoteIdFields(s, id);
      EnlistCounter(NoteId(s, id), RestoredOf(step));
    case PlantWorker(h) =>
      PlantShape(w, step);
      NoteIdFields(s, h.id);
      EnlistCounter(NoteId(s, h.id), h);
      RememberRoster(Enlist(NoteId(s, h.id), h), SnapshotPast(h));
  }

  lemma RenewedOpen(s: Reg, r: Ref)
    ensures Renewed(s, r).closed == s.closed
  {
  }

  // ---------- one step ----------

  ghost function After(w: World, step: Step, n: string -> nat): string -> nat {
    id => NextStreak(w, step, id, n(id))
  }

  lemma AfterIs(w: World, step: Step, n: string -> nat, id: string)
    ensures After(w, step, n)(id) == NextStreak(w, step, id, n(id))
  {
  }

  /** The streak of an id already used changes only when its worker stops, or in a reset. */
  lemma StreakStays(w: World, step: Step, n: string -> nat, id: string)
    requires SoundWorld(w) && Enabled(w, step) && Seen(w.reg, id) && !step.ForgiveTimeouts?
    requires step.Stop? ==> At(w.reg, step.r).id != id
    ensures After(w, step, n)(id) == n(id)
  {
    hide Sound, TokenHolds, SnapsMatch, Seen, Mint, Counted;
    SoundParts(w.reg);
    if step.SpawnWorker? { MintIsCold(w.reg, step.role); }
  }

  lemma CompleteCounts(h: Handle, o: Outcome, result: string, n: nat, exact: bool)
    requires Says(exact, n, h.timeouts)
    ensures Says(exact, Counted(o, h.work.handoff, n), Complete(h, o, result).timeouts)
  {
  }

  /** A record of a running generation would be of one that is over; so the id's own stop leaves no record current. */
  lemma StopOutdates(w: World, r: nat, p: Past)
    requires SoundWorld(w) && GensWorld(w) && RunningNewest(w.reg) && r < |w.reg.heap| && w.reg.heap[r].phase == Live
    requires p.id == w.reg.heap[r].id && Reached(w.reg, p.id, p.gen) && Over(w.reg, p.id, p.gen)
    ensures !Current(w.reg, p)
  {
    hide SoundWorld, ArchiveCurrent, Newest;
    var q :| 0 <= q < |w.reg.heap| && w.reg.heap[q].id == p.id && p.gen <= w.reg.heap[q].gen;
    GensBelowNewest(w.reg, r);
  }

  lemma CurrentBefore(s: Reg, s': Reg, p: Past, p': Past)
    requires Extends(s, s') && Current(s', p') && p.id == p'.id && p.gen == p'.gen
    ensures Current(s, p)
  {
    forall r | 0 <= r < |s.heap| && s.heap[r].id == p.id ensures s.heap[r].gen <= p.gen { assert Advances(s.heap[r], s'.heap[r]); }
  }

  ghost predicate Ready(w: World, step: Step, n: string -> nat, exact: bool) {
    && SoundWorld(w) && GensWorld(w) && RecordsOver(w) && RunningNewest(w.reg) && CountsSay(w, n, exact)
    && Enabled(w, step) && ResumesCurrent(w, step)
    && (exact ==> !w.reg.closed && !Apply(w, step).reg.closed && (step.ForgiveTimeouts? ==> Quiet(w)))
  }

  lemma FiledBefore(w: World, step: Step, r: nat)
    requires SoundWorld(w) && Enabled(w, step) && r < |w.reg.heap| && r < |Apply(w, step).reg.heap| && Filed(Apply(w, step).reg, r)
    ensures Filed(w.reg, r)
  {
    hide SoundWorld, Apply, Enabled, Newborn, Newest;
    var s, s' := w.reg, Apply(w, step).reg;
    StepExtends(w, step);
    assert Advances(s.heap[r], s'.heap[r]);
    if Enlists(step) {
      EnlistingShape(w, step);
      if step.Claim? && step.p.id in s.agents { AgentAt(w, step.p.id); }
    } else {
      OthersShrink(w, step);
    }
  }

  lemma AgentAt(w: World, id: string)
    requires SoundWorld(w) && id in w.reg.agents
    ensures w.reg.agents[id] < |w.reg.heap| && w.reg.heap[w.reg.agents[id]].id == id
  {
    hide TokenHolds, Seen;
    SoundParts(w.reg);
    NewestInside(w.reg, w.reg.agents[id]);
  }

  lemma ClaimedSays(w: World, step: Step, n: string -> nat, exact: bool)
    requires Ready(w, step, n, exact) && step.Claim? && step.p.id !in w.reg.agents
    ensures Says(exact, n(step.p.id), step.p.timeouts)
  {
    hide Sound, TokenHolds, SnapsMatch, Seen, Apply, GensWorld, RecordsOver, RunningNewest, HandlesSay, SnapsSay, PastSays, Quiet, Current, Says;
  }

  /** What a newborn handle counts. */
  lemma NewbornSays(w: World, step: Step, n: string -> nat, exact: bool)
    requires Ready(w, step, n, exact) && Enlisted(w.reg, Apply(w, step).reg, step)
    ensures var h := Apply(w, step).reg.heap[|w.reg.heap|]; Says(exact, After(w, step, n)(h.id), h.timeouts)
  {
    hide Ready, Apply, Mint, ScopeFits, ParentAllowed, CallerActive, Counted, RestoredTools;
    var h := Apply(w, step).reg.heap[|w.reg.heap|];
    AfterIs(w, step, n, h.id);
    match step
    case SpawnWorker(_, _, _, _, _) => assert h.timeouts == 0;
    case Claim(_, _, _) => ClaimedSays(w, step, n, exact);
    case RestoreWorker(_, _, _, _, _, _, _, _, _) => assert h.timeouts == step.failures;
    case PlantWorker(_) => assert h == step.h;
  }

  /** Every old handle but the one that stops keeps its count, outside of a reset. */
  lemma HandleSays(w: World, step: Step, n: string -> nat, exact: bool, r: nat)
    requires Ready(w, step, n, exact) && r < |w.reg.heap| && r < |Apply(w, step).reg.heap| && Newest(w.reg, r)
    requires exact ==> Filed(w.reg, r)
    requires !step.ForgiveTimeouts?
    ensures Says(exact, After(w, step, n)(w.reg.heap[r].id), Apply(w, step).reg.heap[r].timeouts)
  {
    hide SoundWorld, Apply, GensWorld, RecordsOver, SnapsSay, PastSays, RecalledSay, Quiet, Newest, Complete, Counted, Says, ResumesCurrent;
    StepCounts(w, step);
    var h := w.reg.heap[r];
    assert Says(exact, n(h.id), h.timeouts);
    SeenAt(w.reg, r);
    if step.Stop? && At(w.reg, step.r).id == h.id {
      StoppedPhase(w, step);
      NewestUnique(w.reg, step.r, r);
      CompleteCounts(h, step.outcome, step.result, n(h.id), exact);
    } else {
      StreakStays(w, step, n, h.id);
    }
  }

  lemma QuietHandles(w: World, n: string -> nat)
    requires Ready(w, ForgiveTimeouts, n, true)
    ensures forall id :: id in w.reg.pending && id !in w.reg.agents ==> At(w.reg, w.reg.pending[id]).timeouts == 0
    ensures forall r :: 0 <= r < |w.reg.heap| && Newest(w.reg, r) && w.reg.heap[r].phase.Snapped? ==> w.reg.heap[r].phase.past.timeouts == 0
    ensures forall p :: p in w.recalled && Current(w.reg, p) ==> p.timeouts == 0
  {
    hide SoundWorld, Apply, GensWorld, RecordsOver, RunningNewest, CountsSay, ResumesCurrent, Newest, Current;
  }

  lemma ForgivenTable(s: Reg, r: nat)
    requires r < |s.heap| && Filed(ResetTimeouts(s), r) && |ResetTimeouts(s).heap| == |s.heap|
    ensures ResetTimeouts(s).heap[r].timeouts == 0 || (s.heap[r].id in s.pending && s.pending[s.heap[r].id] == r && ResetTimeouts(s).heap[r].timeouts == s.heap[r].timeouts)
  {
    ForgivenTables(s);
    hide ResetTimeouts;
  }

  lemma ForgivenSays(w: World, n: string -> nat, exact: bool)
    requires Ready(w, ForgiveTimeouts, n, exact)
    ensures HandlesSay(Apply(w, ForgiveTimeouts).reg, After(w, ForgiveTimeouts, n), exact)
  {
    hide Ready, ResetTimeouts, Newest, Filed;
    var s := w.reg;
    ForgivenTables(s);
    SameIdsNewest(s, ResetTimeouts(s));
    if exact { QuietHandles(w, n); }
    forall r | 0 <= r < |s.heap| && Newest(ResetTimeouts(s), r) && (exact ==> Filed(ResetTimeouts(s), r))
      ensures Says(exact, After(w, ForgiveTimeouts, n)(ResetTimeouts(s).heap[r].id), ResetTimeouts(s).heap[r].timeouts)
    {
      AfterIs(w, ForgiveTimeouts, n, ResetTimeouts(s).heap[r].id);
      if exact {
        ForgivenTable(s, r);
        FiledTwice(w, n, r);
      }
    }
  }

  /** A handle owed under an id that is on the roster is the roster's. */
  lemma FiledTwice(w: World, n: string -> nat, r: nat)
    requires Ready(w, ForgiveTimeouts, n, true) && r < |w.reg.heap|
    ensures w.reg.heap[r].id in w.reg.pending && w.reg.pending[w.reg.heap[r].id] == r && w.reg.heap[r].id in w.reg.agents ==>
              w.reg.agents[w.reg.heap[r].id] == r
  {
    hide Sound, TokenHolds, SnapsMatch, Seen, GensWorld, RecordsOver, RunningNewest, CountsSay, Quiet, Apply;
    SoundParts(w.reg);
    var id := w.reg.heap[r].id;
    if id in w.reg.pending && id in w.reg.agents { NewestUnique(w.reg, w.reg.agents[id], w.reg.pending[id]); }
  }

  lemma StepHandlesSay(w: World, step: Step, n: string -> nat, exact: bool)
    requires Ready(w, step, n, exact)
    ensures HandlesSay(Apply(w, step).reg, After(w, step, n), exact)
  {
    hide SoundWorld, Apply, Enabled, GensWorld, RecordsOver, RunningNewest, CountsSay, Quiet, Newest, Says, ResumesCurrent, Newborn, After, Filed;
    var s, s' := w.reg, Apply(w, step).reg;
    if step.ForgiveTimeouts? {
      ForgivenSays(w, n, exact);
    } else {
      StepExtends(w, step);
      StepSizes(w, step);
      forall r | 0 <= r < |s'.heap| && Newest(s', r) && (exact ==> Filed(s', r))
        ensures Says(exact, After(w, step, n)(s'.heap[r].id), s'.heap[r].timeouts)
      {
        if r < |s.heap| {
          EnlistedNewest(s, s', r);
          assert Advances(s.heap[r], s'.heap[r]);
          if exact { FiledBefore(w, step, r); }
          HandleSays(w, step, n, exact, r);
        } else {
          NewbornSays(w, step, n, exact);
        }
      }
    }
  }

  lemma SnapSays(w: World, step: Step, n: string -> nat, exact: bool, r: nat)
    requires Ready(w, step, n, exact) && r < |w.reg.heap| && r < |Apply(w, step).reg.heap| && Newest(w.reg, r)
    requires Apply(w, step).reg.heap[r].phase.Snapped? && !step.ForgiveTimeouts?
    ensures Says(exact, n(w.reg.heap[r].id), Apply(w, step).reg.heap[r].phase.past.timeouts)
  {
    hide Sound, TokenHolds, SnapsMatch, Seen, Apply, Enabled, GensWorld, RecordsOver, RunningNewest, PastSays, RecalledSay, Quiet, Newest,
      Says, ResumesCurrent;
    StepExtends(w, step);
    assert Advances(w.reg.heap[r], Apply(w, step).reg.heap[r]);
    SoundParts(w.reg);
  }

  /** The one that stops is not the one whose snapshot waits. */
  lemma SnapNotStopping(w: World, step: Step, r: nat)
    requires SoundWorld(w) && RunningNewest(w.reg) && Enabled(w, step) && step.Stop? && r < |Apply(w, step).reg.heap| && r < |w.reg.heap|
    requires Newest(w.reg, r) && Apply(w, step).reg.heap[r].phase.Snapped?
    ensures At(w.reg, step.r).id != w.reg.heap[r].id
  {
    hide SoundWorld, Apply, Newest, Complete;
    StoppedPhase(w, step);
    if At(w.reg, step.r).id == w.reg.heap[r].id { NewestUnique(w.reg, step.r, r); }
  }

  lemma StepSnapsSay(w: World, step: Step, n: string -> nat, exact: bool)
    requires Ready(w, step, n, exact)
    ensures SnapsSay(Apply(w, step).reg, After(w, step, n), exact)
  {
    hide SoundWorld, Apply, Enabled, GensWorld, RecordsOver, RunningNewest, CountsSay, Quiet, Newest, Says, ResumesCurrent, Newborn, After, Filed;
    var s, s' := w.reg, Apply(w, step).reg;
    StepExtends(w, step);
    StepSizes(w, step);
    forall r | 0 <= r < |s'.heap| && Newest(s', r) && s'.heap[r].phase.Snapped?
      ensures Says(exact, After(w, step, n)(s'.heap[r].id), s'.heap[r].phase.past.timeouts)
    {
      if r < |s.heap| {
        EnlistedNewest(s, s', r);
        assert Advances(s.heap[r], s'.heap[r]);
        if step.ForgiveTimeouts? {
          ForgivenSnap(w, n, exact, r);
        } else {
          if step.Stop? { SnapNotStopping(w, step, r); }
          SeenAt(s, r);
          StreakStays(w, step, n, s.heap[r].id);
          SnapSays(w, step, n, exact, r);
        }
      } else {
        NewbornLives(s, step, s'.heap[r]);
        PlantedDone(w, step);
      }
    }
  }

  lemma PlantedDone(w: World, step: Step)
    requires Enabled(w, step)
    ensures step.PlantWorker? ==> step.h.phase == Done
  {
    hide Seen;
  }

  lemma ForgivenSnap(w: World, n: string -> nat, exact: bool, r: nat)
    requires Ready(w, ForgiveTimeouts, n, exact) && r < |w.reg.heap| && r < |Apply(w, ForgiveTimeouts).reg.heap| && Newest(w.reg, r)
    requires Apply(w, ForgiveTimeouts).reg.heap[r].phase.Snapped?
    ensures Says(exact, After(w, ForgiveTimeouts, n)(w.reg.heap[r].id), Apply(w, ForgiveTimeouts).reg.heap[r].phase.past.timeouts)
  {
    hide Ready, ResetTimeouts, Newest;
    ForgivenTables(w.reg);
    if exact { QuietHandles(w, n); }
    AfterIs(w, ForgiveTimeouts, n, w.reg.heap[r].id);
  }

  // ---------- records ----------

  /** A record current after a step counts as before it, if it was there and no reset came. */
  lemma RecordSays(w: World, step: Step, n: string -> nat, exact: bool, p: Past, p': Past)
    requires Ready(w, step, n, exact) && !step.ForgiveTimeouts? && Current(Apply(w, step).reg, p')
    requires p.id == p'.id && p.gen == p'.gen && p.timeouts == p'.timeouts && Seen(w.reg, p.id)
    requires Current(w.reg, p) ==> Says(exact, n(p.id), p.timeouts)
    requires Reached(w.reg, p.id, p.gen) && Over(w.reg, p.id, p.gen)
    ensures Says(exact, After(w, step, n)(p'.id), p'.timeouts)
  {
    hide SoundWorld, Apply, GensWorld, RecordsOver, RunningNewest, CountsSay, Quiet, Says, ResumesCurrent, Current, Over, Reached, Seen;
    StepExtends(w, step);
    CurrentBefore(w.reg, Apply(w, step).reg, p, p');
    if step.Stop? && At(w.reg, step.r).id == p.id { StopOutdates(w, step.r, p); }
    StreakStays(w, step, n, p.id);
  }

  lemma PastEntrySays(w: World, step: Step, n: string -> nat, exact: bool, id: string)
    requires Ready(w, step, n, exact) && id in Apply(w, step).reg.past && Current(Apply(w, step).reg, Apply(w, step).reg.past[id])
    requires !step.ForgiveTimeouts? && !(Archives(w.reg, step).Some? && Archives(w.reg, step).value.id == id)
    ensures Says(exact, After(w, step, n)(id), Apply(w, step).reg.past[id].timeouts)
  {
    hide Sound, TokenHolds, SnapsMatch, Apply, Enabled, RunningNewest, HandlesSay, SnapsSay, RecalledSay, Quiet, Says, ResumesCurrent,
      Current, Over, Reached, Seen, Gens, ArchiveCurrent, After, Archives;
    StepPast(w, step);
    StepPastCounts(w, step);
    SoundParts(w.reg);
    RecordSays(w, step, n, exact, w.reg.past[id], Apply(w, step).reg.past[id]);
  }

  /** What a step archives counts what its handle's snapshot, or its checkpoint, counts. */
  lemma ArchivedSays(w: World, step: Step, n: string -> nat, exact: bool, id: string)
    requires Ready(w, step, n, exact) && id in Apply(w, step).reg.past
    requires Archives(w.reg, step).Some? && Archives(w.reg, step).value.id == id
    ensures Says(exact, After(w, step, n)(id), Apply(w, step).reg.past[id].timeouts)
  {
    hide Sound, TokenHolds, SnapsMatch, Apply, GensWorld, RecordsOver, RunningNewest, HandlesSay, PastSays, RecalledSay, Quiet, Says,
      ResumesCurrent, Seen;
    StepPast(w, step);
    ArchivesItsOwn(w, step);
    if step.Store? {
      if w.reg.closed { ClosedPast(w, step); }
      else {
        StoredSays(w, step, n, exact);
        AfterIs(w, step, n, id);
      }
    } else {
      AfterIs(w, step, n, id);
      SaysItself(exact, step.h.timeouts);
    }
  }

  lemma StoredSays(w: World, step: Step, n: string -> nat, exact: bool)
    requires Ready(w, step, n, exact) && step.Store? && step.r < |w.reg.heap| && Newest(w.reg, step.r) && w.reg.heap[step.r].phase.Snapped?
    ensures Says(exact, n(w.reg.heap[step.r].id), w.reg.heap[step.r].phase.past.timeouts)
  {
    hide SoundWorld, Apply, GensWorld, RecordsOver, RunningNewest, HandlesSay, PastSays, RecalledSay, Quiet, Says, ResumesCurrent, Newest;
  }

  lemma StepPastSays(w: World, step: Step, n: string -> nat, exact: bool)
    requires Ready(w, step, n, exact)
    ensures PastSays(Apply(w, step).reg, After(w, step, n), exact)
  {
    hide Ready, Apply, Says, Current, After, Archives;
    forall id | id in Apply(w, step).reg.past && Current(Apply(w, step).reg, Apply(w, step).reg.past[id])
      ensures Says(exact, After(w, step, n)(id), Apply(w, step).reg.past[id].timeouts)
    {
      if step.ForgiveTimeouts? { ForgivenPast(w, n, exact, id); }
      else if Archives(w.reg, step).Some? && Archives(w.reg, step).value.id == id { ArchivedSays(w, step, n, exact, id); }
      else { PastEntrySays(w, step, n, exact, id); }
    }
  }

  lemma ForgivenPast(w: World, n: string -> nat, exact: bool, id: string)
    requires id in Apply(w, ForgiveTimeouts).reg.past
    ensures Says(exact, After(w, ForgiveTimeouts, n)(id), Apply(w, ForgiveTimeouts).reg.past[id].timeouts)
  {
    AfterIs(w, ForgiveTimeouts, n, id);
  }

  /** A conversation just recalled counts what the registry kept. */
  lemma RecallSays(w: World, n: string -> nat, exact: bool, id: string)
    requires SoundWorld(w) && CountsSay(w, n, exact) && Recall(w.reg, id).Found? && Current(w.reg, Recall(w.reg, id).past)
    ensures Recall(w.reg, id).past.id == id && Says(exact, n(id), Recall(w.reg, id).past.timeouts)
  {
    hide Seen, TokenHolds, SnapsMatch, Says, Newest, Current;
    SoundParts(w.reg);
    if id !in w.reg.past {
      if id in w.reg.agents { NewestInside(w.reg, w.reg.agents[id]); } else { NewestInside(w.reg, w.reg.pending[id]); }
    }
  }

  lemma RecalledBefore(w: World, step: Step, n: string -> nat, exact: bool, p: Past)
    requires Ready(w, step, n, exact) && p in Apply(w, step).recalled && Current(w.reg, p)
    ensures Says(exact, n(p.id), p.timeouts)
  {
    hide SoundWorld, GensWorld, RecordsOver, RunningNewest, HandlesSay, SnapsSay, PastSays, Quiet, Says, ResumesCurrent, Current, Recall,
      Get, Remember, CloseSubtree, Collect, Spawn, ClaimForResume, ClaimForRestore, Plant, Granted, Rebuilt, Complete, Act;
    if step.RecallId? && Recall(w.reg, step.id).Found? && p == Recall(w.reg, step.id).past { RecallSays(w, n, exact, step.id); }
  }

  lemma StepRecalledSay(w: World, step: Step, n: string -> nat, exact: bool)
    requires Ready(w, step, n, exact)
    ensures RecalledSay(Apply(w, step), After(w, step, n), exact)
  {
    hide SoundWorld, Apply, Enabled, RecordsOver, RunningNewest, CountsSay, Quiet, Says, ResumesCurrent, Current, Over, Reached, Seen,
      Gens, ArchiveCurrent, After;
    var w' := Apply(w, step);
    RecalledReached(w, step);
    forall p | p in w'.recalled && Current(w'.reg, p) ensures Says(exact, After(w, step, n)(p.id), p.timeouts) {
      if step.ForgiveTimeouts? {
        ForgivenRecalled(w, n, exact, p);
      } else {
        RecalledIsOver(w, step, p);
        ReachedSeen(w.reg, p.id, p.gen);
        if Current(w.reg, p) { RecalledBefore(w, step, n, exact, p); }
        RecordSays(w, step, n, exact, p, p);
      }
    }
  }

  lemma ForgivenRecalled(w: World, n: string -> nat, exact: bool, p: Past)
    requires Ready(w, ForgiveTimeouts, n, exact) && p in Apply(w, ForgiveTimeouts).recalled && Current(Apply(w, ForgiveTimeouts).reg, p)
    ensures Says(exact, After(w, ForgiveTimeouts, n)(p.id), p.timeouts)
  {
    hide Ready, ResetTimeouts, Current;
    AfterIs(w, ForgiveTimeouts, n, p.id);
    if exact {
      QuietHandles(w, n);
      ReadyExtends(w, n);
      CurrentBefore(w.reg, Apply(w, ForgiveTimeouts).reg, p, p);
    }
  }

  lemma ReadyExtends(w: World, n: string -> nat)
    requires Ready(w, ForgiveTimeouts, n, true)
    ensures Extends(w.reg, Apply(w, ForgiveTimeouts).reg)
  {
    hide SoundWorld, Apply, GensWorld, RecordsOver, RunningNewest, CountsSay, Quiet, ResumesCurrent, Extends;
    StepExtends(w, ForgiveTimeouts);
  }

  /** Every place a count is kept goes on saying the streak, or as much. */
  lemma StepCountsSay(w: World, step: Step, n: string -> nat, exact: bool)
    requires Ready(w, step, n, exact)
    ensures CountsSay(Apply(w, step), After(w, step, n), exact)
  {
    hide Ready, Apply, HandlesSay, SnapsSay, PastSays, RecalledSay, After;
    StepHandlesSay(w, step, n, exact);
    StepSnapsSay(w, step, n, exact);
    StepPastSays(w, step, n, exact);
    StepRecalledSay(w, step, n, exact);
  }

  // ---------- whole runs ----------

  ghost function StreakAt(ws: seq<World>, steps: seq<Step>, k: nat): string -> nat
    requires k <= |steps| <= |ws|
  {
    id => Streak(ws, steps, k, id)
  }

  lemma SameCounts(w: World, n: string -> nat, n': string -> nat, exact: bool)
    requires CountsSay(w, n, exact) && forall id :: n'(id) == n(id)
    ensures CountsSay(w, n', exact)
  {
    hide Says, Newest, Current, Filed;
  }

  /** Every reset finds no counted conversation in somebody's hands. */
  ghost predicate QuietResets(ws: seq<World>, steps: seq<Step>) {
    |steps| <= |ws| && forall i :: 0 <= i < |steps| && steps[i].ForgiveTimeouts? ==> Quiet(ws[i])
  }

  lemma StartCounts(ws: seq<World>, n: string -> nat, exact: bool)
    requires FromStart(ws)
    ensures CountsSay(ws[0], n, exact) && RunningNewest(ws[0].reg)
  {
  }

  lemma StepCountsFrom(w: World, step: Step, n: string -> nat, exact: bool)
    requires SoundWorld(w) && GensWorld(w) && RecordsOver(w) && RunningNewest(w.reg) && CountsSay(w, n, exact)
    requires Enabled(w, step) && ResumesCurrent(w, step) && (exact && step.ForgiveTimeouts? ==> Quiet(w))
    ensures CountsSay(Apply(w, step), After(w, step, n), exact) && RunningNewest(Apply(w, step).reg)
  {
    hide SoundWorld, GensWorld, RecordsOver, RunningNewest, Enabled, ResumesCurrent, Quiet, Apply, After, HandlesSay, SnapsSay, PastSays, RecalledSay;
    StepRunningNewest(w, step);
    if exact && w.reg.closed {
      SoundWorldParts(w);
      StepStaysClosed(w, step);
    } else if !(exact && Apply(w, step).reg.closed) {
      StepCountsSay(w, step, n, exact);
    }
  }

  lemma {:induction false} RunCounts(ws: seq<World>, steps: seq<Step>, k: nat, exact: bool)
    requires CurrentRun(ws, steps) && FromStart(ws) && k < |ws| && (exact ==> QuietResets(ws, steps))
    ensures CountsSay(ws[k], StreakAt(ws, steps, k), exact) && RunningNewest(ws[k].reg)
    decreases k
  {
    hide SoundWorld, Apply, Enabled, ResumesCurrent, GensWorld, RecordsOver, Quiet, FromStart, CountsSay, RunningNewest, NextStreak;
    if k == 0 {
      StartCounts(ws, StreakAt(ws, steps, 0), exact);
    } else {
      RunCounts(ws, steps, k - 1, exact);
      RunSound(ws, steps, k - 1);
      RunGens(ws, steps, k - 1);
      RunRecordsOver(ws, steps, k - 1);
      var w, step := ws[k - 1], steps[k - 1];
      assert Enabled(w, step) && ws[k - 1 + 1] == Apply(w, step);
      StepCountsFrom(w, step, StreakAt(ws, steps, k - 1), exact);
      SameCounts(ws[k], After(w, step, StreakAt(ws, steps, k - 1)), StreakAt(ws, steps, k), exact);
    }
  }

  /**
   In every world of every run whose resumes are current, a running worker has fewer than three watchdog
   stops in a row behind it, counted on the run, over all its generations and handles since it was made,
   restored or reset; and its counter says at least that many.
   */
  lemma RunningStreakBelowThree(ws: seq<World>, steps: seq<Step>, k: nat, r: nat)
    requires CurrentRun(ws, steps) && FromStart(ws) && k < |ws| && r < |ws[k].reg.heap| && ws[k].reg.heap[r].phase == Live
    ensures Streak(ws, steps, k, ws[k].reg.heap[r].id) <= ws[k].reg.heap[r].timeouts < MAX_CONSECUTIVE_TIMEOUTS
  {
    hide Apply, Enabled, SoundWorld, FromStart, Streak, ResumesCurrent, SnapsSay, PastSays, RecalledSay, Newest;
    RunCounts(ws, steps, k, false);
    RunningIsWithinBudget(ws, steps, k);
    assert StreakAt(ws, steps, k)(ws[k].reg.heap[r].id) == Streak(ws, steps, k, ws[k].reg.heap[r].id);
  }

  /** From three in a row on, no resume is admitted, of the handle on the roster or of a current conversation. */
  lemma ThreeInARowRefused(ws: seq<World>, steps: seq<Step>, k: nat, p: Past, admit: bool)
    requires CurrentRun(ws, steps) && FromStart(ws) && k < |ws| && Streak(ws, steps, k, p.id) >= MAX_CONSECUTIVE_TIMEOUTS
    requires p in ws[k].recalled && (p.id in ws[k].reg.agents || Current(ws[k].reg, p))
    ensures ClaimForResume(ws[k].reg, p, admit).Denied?
  {
    hide Apply, Enabled, SoundWorld, FromStart, Streak, ResumesCurrent, Newest, Current, ClaimForResume;
    RunCounts(ws, steps, k, false);
    RunSound(ws, steps, k);
    assert StreakAt(ws, steps, k)(p.id) == Streak(ws, steps, k, p.id);
    ClaimShape(ws[k].reg, p, admit);
    if p.id in ws[k].reg.agents { RosterNewest(ws[k], p.id); }
  }

  lemma RosterNewest(w: World, id: string)
    requires SoundWorld(w) && id in w.reg.agents
    ensures Newest(w.reg, w.reg.agents[id]) && w.reg.agents[id] < |w.reg.heap| && w.reg.heap[w.reg.agents[id]].id == id
  {
    hide TokenHolds, Seen, SnapsMatch;
    SoundParts(w.reg);
  }

  /**
   When every reset finds no counted conversation in somebody's hands, the counter of every worker on the
   roster or still owed is exactly its streak, across pruning, archiving, renewals and resumes off the
   roster.
   */
  lemma CountIsStreak(ws: seq<World>, steps: seq<Step>, k: nat, r: nat)
    requires CurrentRun(ws, steps) && FromStart(ws) && k < |ws| && QuietResets(ws, steps) && !ws[k].reg.closed
    requires r < |ws[k].reg.heap| && Filed(ws[k].reg, r)
    ensures ws[k].reg.heap[r].timeouts == Streak(ws, steps, k, ws[k].reg.heap[r].id)
  {
    hide Apply, Enabled, FromStart, Streak, ResumesCurrent, SnapsSay, PastSays, RecalledSay, Newest, QuietResets, Sound, TokenHolds, Seen, SnapsMatch;
    RunCounts(ws, steps, k, true);
    RunSound(ws, steps, k);
    SoundParts(ws[k].reg);
    assert StreakAt(ws, steps, k)(ws[k].reg.heap[r].id) == Streak(ws, steps, k, ws[k].reg.heap[r].id);
  }

  /** So where nothing else refuses, a finished worker on the roster is refused exactly from three in a row on. */
  lemma RefusedFromThree(ws: seq<World>, steps: seq<Step>, k: nat, p: Past, admit: bool)
    requires CurrentRun(ws, steps) && FromStart(ws) && k < |ws| && QuietResets(ws, steps)
    requires var s := ws[k].reg;
             && !s.closed && !s.handingOff && ScopeFits(s, p.parent, p.tools) && (admit ==> LiveCount(s) < s.cap)
             && p.id in s.agents && IsDone(At(s, s.agents[p.id]))
    ensures ClaimForResume(ws[k].reg, p, admit) == Denied(TimeoutsExhausted)
       <==> Streak(ws, steps, k, p.id) >= MAX_CONSECUTIVE_TIMEOUTS
  {
    hide Apply, Enabled, FromStart, Streak, ResumesCurrent, QuietResets, SoundWorld, ScopeFits, LiveCount, ClaimForResume;
    RunSound(ws, steps, k);
    RosterNewest(ws[k], p.id);
    CountIsStreak(ws, steps, k, ws[k].reg.agents[p.id]);
    BudgetVerdict(ws[k].reg, p, admit);
  }

  /**
   That condition is exact: from counters that say the streaks, a reset leaves counters that all say zero
   exactly if it finds no counted conversation between two sections of a resume or of an archiving, and no
   counted worker that is owed but off the roster.
   */
  lemma ResetKeepsCountsIff(w: World, n: string -> nat)
    requires SoundWorld(w) && GensWorld(w) && RecordsOver(w) && RunningNewest(w.reg) && !w.reg.closed && CountsSay(w, n, true)
    ensures CountsSay(Apply(w, ForgiveTimeouts), _ => 0, true) <==> Quiet(w)
  {
    hide SoundWorld, GensWorld, RecordsOver, RunningNewest, Apply, CountsSay, Quiet;
    if Quiet(w) {
      StepCountsFrom(w, ForgiveTimeouts, n, true);
      forall id ensures After(w, ForgiveTimeouts, n)(id) == 0 { AfterIs(w, ForgiveTimeouts, n, id); }
      SameCounts(Apply(w, ForgiveTimeouts), After(w, ForgiveTimeouts, n), _ => 0, true);
    }
    if CountsSay(Apply(w, ForgiveTimeouts), _ => 0, true) { ZeroIsQuiet(w); }
  }

  lemma ZeroIsQuiet(w: World)
    requires SoundWorld(w) && !w.reg.closed && CountsSay(Apply(w, ForgiveTimeouts), _ => 0, true)
    ensures Quiet(w)
  {
    hide SoundWorld, ResetTimeouts, Newest, Current, PastSays;
    var s, s' := w.reg, ResetTimeouts(w.reg);
    ForgivenTables(s);
    SameIdsNewest(s, s');
    assert !s'.closed by { ResetOpen(s); }
    forall id | id in s.pending && id !in s.agents ensures At(s, s.pending[id]).timeouts == 0 {
      PendingNewest(w, id);
      assert Filed(s', s.pending[id]);
    }
    forall p | p in w.recalled && Current(s, p) ensures p.timeouts == 0 { SameCurrent(s, p); }
    forall r | 0 <= r < |s.heap| && Newest(s, r) && s.heap[r].phase.Snapped? ensures s.heap[r].phase.past.timeouts == 0 {
      assert s'.heap[r].phase == s.heap[r].phase;
    }
  }

  lemma ResetOpen(s: Reg)
    ensures ResetTimeouts(s).closed == s.closed
  {
  }

  lemma SameCurrent(s: Reg, p: Past)
    requires Current(s, p)
    ensures Current(ResetTimeouts(s), p)
  {
    ForgivenTables(s);
    hide ResetTimeouts;
  }

  lemma PendingNewest(w: World, id: string)
    requires SoundWorld(w) && id in w.reg.pending
    ensures Newest(w.reg, w.reg.pending[id]) && w.reg.pending[id] < |w.reg.heap| && w.reg.heap[w.reg.pending[id]].id == id
  {
    hide TokenHolds, Seen, SnapsMatch;
    SoundParts(w.reg);
  }
}
