/**
 Runs from an empty registry into each state that the exact conditions elsewhere single out: what the
 code does when the condition fails is not only possible in a theorem's hypothesis, it happens.
 */
module Witnesses {
  import opened Common
  import opened Order
  import opened WorkerId
  import opened ToolScope
  import opened Handoff
  import opened Lifecycle
  import opened Runs
  import opened Soundness
  import opened Settlement
  import opened Delegation
  import opened StaleResume
  import Cancellation
  import RoleLock
  import ArchiveRace
  import Timeouts
  import Streaks

  /** A host whose workers may delegate. */
  const LEAD := Surface(Config([], None, None), true)

  // ---------- a cycle of parents ----------

  const CHILD := Mint("c", 5)
  const MISSING := Mint("w", 6)

  function ChildHandle(): Handle { NewHandle(CHILD, "c", MISSING, 1, 0, None) }
  function LoopHandle(): Handle { NewHandle(MISSING, "w", CHILD, 1, 0, None) }

  const ORPHANED := World(
    Reg(map[CHILD := 0], map[CHILD := 0], map[], [], [ChildHandle()], 5, false, false, true, 8, 32),
    [], {}, {}, {}, {}, map[0 := LEAD])
  const LOOPED := World(
    Reg(map[CHILD := 0, MISSING := 1], map[CHILD := 0, MISSING := 1], map[], [], [ChildHandle(), LoopHandle()], 6,
        false, false, true, 8, 32),
    [], {}, {}, {}, {}, map[0 := LEAD, 1 := LEAD])

  const RESTORE_CHILD := RestoreWorker(CHILD, "c", 0, MISSING, LEAD, None, 1, false, false)
  const SPAWN_MISSING := SpawnWorker("w", Some(Caller(CHILD, 1)), LEAD, Inherit, true)

  lemma Names()
    ensures CHILD != MISSING && CHILD != "" && MISSING != "" && TrailingSeq(CHILD) == 5
  {
    ReadBack("c", 5);
    ReadBack("w", 6);
  }

  lemma Orphans()
    ensures Enabled(Start0(8, 32, true), RESTORE_CHILD) && Apply(Start0(8, 32, true), RESTORE_CHILD) == ORPHANED
  {
    Names();
    hide Mint, TrailingSeq;
    var s := Start0(8, 32, true).reg;
    ClimbStep(s, MISSING, CHILD, {});
    ClimbStep(s, "", CHILD, {MISSING});
  }

  lemma Loops()
    ensures Enabled(ORPHANED, SPAWN_MISSING) && Apply(ORPHANED, SPAWN_MISSING) == LOOPED
  {
    Names();
    hide TrailingSeq;
    assert LiveIds(ORPHANED.reg) == {CHILD};
    hide Mint;
  }

  /** A child restored without its parent, then a spawn that mints the parent's id: each is above the other. */
  lemma CycleIsReached()
    ensures Leads(Start0(8, 32, true), LOOPED) && !Acyclic(LOOPED.reg)
  {
    Names();
    hide Mint, Apply, Enabled;
    LeadsFrom(Start0(8, 32, true));
    Orphans(); LeadsOn(Start0(8, 32, true), Start0(8, 32, true), RESTORE_CHILD, ORPHANED);
    Loops(); LeadsOn(Start0(8, 32, true), ORPHANED, SPAWN_MISSING, LOOPED);
    var s := LOOPED.reg;
    assert Up(s, CHILD, 0) == CHILD;
    assert Up(s, CHILD, 1) == MISSING;
    assert Up(s, CHILD, 2) == CHILD;
    ReachOf(s, CHILD, CHILD, 2);
  }

  // ---------- Cleanup's unlocked cancel ----------

  /** Worlds differing only in whom Cleanup still has to cancel take the steps of a worker's life alike. */
  predicate OfALife(step: Step) {
    step.Start? || step.Stop? || step.Snap? || step.Store? || step.CloseDone? || step.RecallId? || step.Claim?
  }

  lemma LifeAside(w: World, step: Step, w': World, stopping: set<Ref>)
    requires OfALife(step) && Enabled(w, step) && Apply(w, step) == w'
    ensures Enabled(w.(stopping := stopping), step) && Apply(w.(stopping := stopping), step) == w'.(stopping := stopping)
  {
    hide Complete, Recall, Remember, ClaimForResume, Rebuilt;
  }

  lemma LeadsAside(from: World, w: World, step: Step, w': World)
    requires Leads(from, w.(stopping := {0})) && OfALife(step) && Enabled(w, step) && Apply(w, step) == w'
    ensures Leads(from, w'.(stopping := {0}))
  {
    hide Apply, Enabled, Leads;
    LifeAside(w, step, w', {0});
    LeadsOn(from, w.(stopping := {0}), step, w'.(stopping := {0}));
  }

  lemma OneRuns(h: Handle)
    requires h.id == ID && !IsDone(h)
    ensures Running(Room(h, true, true, None)) == {0}
  {
    hide Mint;
    var s := Room(h, true, true, None);
    assert ID in s.agents && !IsDone(At(s, s.agents[ID])) && s.agents[ID] == 0;
  }

  lemma CleansUp()
    ensures Enabled(STARTED, Cleanup) && Apply(STARTED, Cleanup) == STARTED.(stopping := {0})
  {
    hide Mint, Running;
    OneRuns(STARTED.reg.heap[0]);
  }

  const HIT := RESTARTED.(ctxs := Both(true))

  lemma Hits()
    ensures Enabled(RESTARTED.(stopping := {0}), CancelStopped(0))
    ensures Apply(RESTARTED.(stopping := {0}), CancelStopped(0)) == HIT
  {
    hide Mint;
  }

  lemma HitUnfair()
    ensures !Cancellation.FairWorld(HIT)
  {
    hide Mint;
    assert !Cancellation.Deserved(HIT, 1);
  }

  lemma CleanedFirstLife()
    ensures Leads(EMPTY, FINISHED.(stopping := {0}))
  {
    hide Leads, Apply, Enabled;
    LeadsFrom(EMPTY);
    Spawns(); LeadsOn(EMPTY, EMPTY, SpawnWorker("w", None, HOST, Inherit, true), SPAWNED);
    Starts(); LeadsOn(EMPTY, SPAWNED, Start(0), STARTED);
    CleansUp(); LeadsOn(EMPTY, STARTED, Cleanup, STARTED.(stopping := {0}));
    Stops(); LeadsAside(EMPTY, STARTED, Stop(0, Succeeded, ""), STOPPED);
    Snaps(); LeadsAside(EMPTY, STOPPED, Snap(0), SNAPPED);
    Stores(); LeadsAside(EMPTY, SNAPPED, Store(0), STORED);
    Finishes(); LeadsAside(EMPTY, STORED, CloseDone(0), FINISHED);
  }

  /** Cleanup counts a worker, which finishes by itself and is resumed; the cancel comes then, and hits the resumed run. */
  lemma UnlockedCancelIsReached()
    ensures Leads(EMPTY, HIT) && !Cancellation.FairWorld(HIT)
  {
    hide Leads, Apply, Enabled;
    CleanedFirstLife();
    Recalls(); LeadsAside(EMPTY, FINISHED, RecallId(ID), RECALLED);
    StaleResume.Renews(); LeadsAside(EMPTY, RECALLED, Claim(P, HOST, true), RENEWED);
    Restarts(); LeadsAside(EMPTY, RENEWED, Start(0), RESTARTED);
    Hits(); LeadsOn(EMPTY, RESTARTED.(stopping := {0}), CancelStopped(0), HIT);
    HitUnfair();
  }

  // ---------- a worker Cleanup misses ----------

  lemma CleansUpEarly()
    ensures Enabled(SPAWNED, Cleanup) && Apply(SPAWNED, Cleanup) == SPAWNED.(stopping := {0})
    ensures Enabled(SPAWNED.(stopping := {0}), CancelStopped(0))
    ensures Apply(SPAWNED.(stopping := {0}), CancelStopped(0)) == SPAWNED
  {
    hide Mint, Running;
    OneRuns(SPAWNED.reg.heap[0]);
  }

  /** Cleanup counts a worker before its context is installed: it then starts as if nothing had happened. */
  lemma MissedCleanupIsReached()
    ensures Leads(EMPTY, SPAWNED) && 0 in Running(SPAWNED.reg)
    ensures var w := Apply(Apply(Apply(SPAWNED, Cleanup), CancelStopped(0)), Start(0));
            Leads(EMPTY, w) && |w.ctxs| == 1 && !w.ctxs[0].cancelled && !Cancellation.Coming(w, 0, 0)
  {
    hide Leads, Apply, Enabled;
    LeadsFrom(EMPTY);
    Spawns(); LeadsOn(EMPTY, EMPTY, SpawnWorker("w", None, HOST, Inherit, true), SPAWNED);
    CleansUpEarly();
    LeadsOn(EMPTY, SPAWNED, Cleanup, SPAWNED.(stopping := {0}));
    LeadsOn(EMPTY, SPAWNED.(stopping := {0}), CancelStopped(0), SPAWNED);
    Starts(); LeadsOn(EMPTY, SPAWNED, Start(0), STARTED);
    RunsAtFirst();
  }

  // ---------- a worker Close misses ----------

  /** The registry is closed, its worker is not yet started. */
  const SHUT := SPAWNED.(reg := SPAWNED.reg.(closed := true, agents := map[], pending := map[]))
  const SHUT_ON := SHUT.(reg := SHUT.reg.(heap := [SHUT.reg.heap[0].(cancel := Some(0))]), ctxs := [Ctx(0, 1, false)])

  lemma Shuts()
    ensures Enabled(SPAWNED, CloseAll) && Apply(SPAWNED, CloseAll) == SHUT.(stopping := {0})
    ensures Enabled(SHUT.(stopping := {0}), CancelStopped(0)) && Apply(SHUT.(stopping := {0}), CancelStopped(0)) == SHUT
  {
    hide Mint;
    var s := SPAWNED.reg;
    assert s.agents == map[ID := 0];
    assert (set id | id in s.agents :: s.agents[id]) == {0} by { assert s.agents[ID] == 0; }
  }

  lemma StartsShut()
    ensures Enabled(SHUT, Start(0)) && Apply(SHUT, Start(0)) == SHUT_ON
  {
    hide Mint;
  }

  /** Close comes before the worker's context is installed: the worker then runs on in a closed registry. */
  lemma MissedCloseIsReached()
    ensures Leads(EMPTY, SPAWNED) && !SPAWNED.reg.closed && |SPAWNED.reg.heap| == 1 && SPAWNED.reg.heap[0].phase == Live
    ensures var w := Apply(Apply(Apply(SPAWNED, CloseAll), CancelStopped(0)), Start(0));
            Leads(EMPTY, w) && w == SHUT_ON && w.reg.closed && !w.ctxs[0].cancelled && !Cancellation.Coming(w, 0, 0)
  {
    hide Leads, Apply, Enabled;
    LeadsFrom(EMPTY);
    Spawns(); LeadsOn(EMPTY, EMPTY, SpawnWorker("w", None, HOST, Inherit, true), SPAWNED);
    Shuts();
    LeadsOn(EMPTY, SPAWNED, CloseAll, SHUT.(stopping := {0}));
    LeadsOn(EMPTY, SHUT.(stopping := {0}), CancelStopped(0), SHUT);
    StartsShut(); LeadsOn(EMPTY, SHUT, Start(0), SHUT_ON);
  }

  lemma RunsAtFirst()
    ensures 0 in Running(SPAWNED.reg)
  {
    hide Mint, Running;
    OneRuns(SPAWNED.reg.heap[0]);
  }

  // ---------- a close the archive misses ----------

  const CLOSED_BETWEEN := World(
    Room(Life(1, Snapped(Kept(1, false)), true, Some(0)), true, false, None), First(true), {0}, {}, {}, {}, ON)
  const FILED_LATE := World(
    Room(Life(1, Archived, true, Some(0)), true, false, Some(Kept(1, false))), First(true), {0}, {}, {}, {}, ON)

  lemma ClosesBetween()
    ensures Enabled(SNAPPED, CloseTree(ID)) && Apply(SNAPPED, CloseTree(ID)) == CLOSED_BETWEEN
  {
    hide Mint;
    var s := SNAPPED.reg;
    assert Reachable(s) == map[ID := 0];
    assert Subtree(s, ID) == {ID};
    assert SubtreeCancels(s, {ID}) == {0} by { assert At(s, Reachable(s)[ID]).cancel.value == 0; }
    assert CloseSubtree(s, ID).heap == CLOSED_BETWEEN.reg.heap;
  }

  lemma FilesLate()
    ensures Enabled(CLOSED_BETWEEN, Store(0)) && Apply(CLOSED_BETWEEN, Store(0)) == FILED_LATE
  {
    hide Mint;
  }

  /** The worker is settled, its checkpoint is not, and planted elsewhere the result is owed again. */
  lemma LostCloseIsReached(cap: int, archiveCap: nat)
    ensures Leads(EMPTY, FILED_LATE)
    ensures ID in FILED_LATE.reg.past && FILED_LATE.reg.heap[0].closeRequested && ID !in FILED_LATE.reg.pending
    ensures FILED_LATE.reg.past[ID] != SnapshotPast(FILED_LATE.reg.heap[0])
    ensures var p := FILED_LATE.reg.past[ID];
            var planted := Plant(EmptyReg(cap, archiveCap, true),
                                 PlantedHandle(p.id, p.role, "", p.gen, p.collected, p.closeRequested, p.timeouts, p.tools, "", NoError));
            planted.Admitted? && ID in planted.reg.pending
  {
    hide Leads, Apply, Enabled, Mint, Plant, PlantedHandle;
    LeadsFrom(EMPTY);
    Spawns(); LeadsOn(EMPTY, EMPTY, SpawnWorker("w", None, HOST, Inherit, true), SPAWNED);
    Starts(); LeadsOn(EMPTY, SPAWNED, Start(0), STARTED);
    Stops(); LeadsOn(EMPTY, STARTED, Stop(0, Succeeded, ""), STOPPED);
    Snaps(); LeadsOn(EMPTY, STOPPED, Snap(0), SNAPPED);
    ClosesBetween(); LeadsOn(EMPTY, SNAPPED, CloseTree(ID), CLOSED_BETWEEN);
    FilesLate(); LeadsOn(EMPTY, CLOSED_BETWEEN, Store(0), FILED_LATE);
    IdNonempty();
    ArchiveRace.PlantsAgain(Kept(1, false), cap, archiveCap);
  }

  lemma IdNonempty()
    ensures ID != ""
  {
    ReadBack("w", 1);
  }

  // ---------- twins of one role ----------

  const TWIN := Apply(RENEWED, SpawnWorker("w", None, HOST, Inherit, true))

  lemma Twins()
    ensures Enabled(RENEWED, SpawnWorker("w", None, HOST, Inherit, true))
    ensures TWIN.reg.heap == [Life(2, Live, false, None), NewHandle(Mint("w", 2), "w", "", 1, 0, None)]
    ensures TWIN.reg.agents == map[ID := 0, Mint("w", 2) := 1]
  {
    hide Mint;
    assert LiveIds(RENEWED.reg) == {ID};
  }

  lemma IdsDiffer()
    ensures ID != Mint("w", 2)
  {
    ReadBack("w", 1);
    ReadBack("w", 2);
  }

  /**
   A spawn_agent call looks while the only worker of the role is done; a resume_agent restarts it; the
   call's second look finds nobody to reuse, and it inserts a twin.
   */
  lemma TwinIsReached()
    ensures Leads(EMPTY, RECALLED) && RoleLock.RunningAnswer(RECALLED.reg, "w", None)
    ensures Apply(RECALLED, Claim(P, HOST, true)) == RENEWED && RoleLock.FinishedAnswer(RENEWED.reg, "w", None)
    ensures Leads(EMPTY, TWIN) && !RoleLock.OneEach(TWIN.reg)
  {
    hide Leads, Apply, Enabled, Mint;
    FirstLife();
    StaleResume.Renews(); LeadsOn(EMPTY, RECALLED, Claim(P, HOST, true), RENEWED);
    Twins(); LeadsOn(EMPTY, RENEWED, SpawnWorker("w", None, HOST, Inherit, true), TWIN);
    IdsDiffer();
    RoleLock.WasOfAt(TWIN.reg, 0);
    RoleLock.WasOfAt(TWIN.reg, 1);
    RoleLock.Twins(TWIN.reg, ID, Mint("w", 2), "w");
  }

  // ---------- a worker resumed after its own and its parent's record were evicted ----------

  /** A finished worker from an earlier process. */
  function Stored(id: string, parent: string, collected: bool, timeouts: nat): Handle {
    Handle(id, id, parent, 1, Done, collected, false, None, timeouts, None, "", NoError, IDLE_WORK)
  }

  function Planted(reg: Reg, recalled: set<Past>): World { World(reg, [], {}, recalled, {}, {}, map[]) }

  const PAR := Stored("p", "", true, 0)
  const KID := Stored("k", "p", true, 0)
  const LATE := Stored("z", "", true, 0)
  const KID_PAST := SnapshotPast(KID)

  const WITH_PAR := Planted(
    Reg(map["p" := 0], map[], map["p" := SnapshotPast(PAR)], ["p"], [PAR], 0, false, false, true, 8, 1), {})
  const WITH_KID := Planted(
    Reg(map["p" := 0, "k" := 1], map[], map["p" := SnapshotPast(PAR)], ["p"], [PAR, KID], 0, false, false, true, 8, 1), {})
  const KID_RECALLED := WITH_KID.(recalled := {KID_PAST})
  const KID_PRUNED := Planted(
    Reg(map[], map[], map["p" := SnapshotPast(PAR)], ["p"], [PAR, KID], 0, false, false, true, 8, 1), {KID_PAST})
  const BOTH_GONE := Planted(
    Reg(map["z" := 2], map[], map["z" := SnapshotPast(LATE)], ["z"], [PAR, KID, LATE], 0, false, false, true, 8, 1), {KID_PAST})
  const FATHERLESS := Apply(BOTH_GONE, Claim(KID_PAST, LEAD, true))

  lemma Unnumbered()
    ensures TrailingSeq("p") == 0 && TrailingSeq("k") == 0 && TrailingSeq("z") == 0
  {
  }

  lemma PlantsPar()
    ensures Enabled(Start0(8, 1, true), PlantWorker(PAR)) && Apply(Start0(8, 1, true), PlantWorker(PAR)) == WITH_PAR
  {
    Unnumbered();
    hide TrailingSeq;
    ClimbStep(Start0(8, 1, true).reg, "", "p", {});
  }

  /** The archive before the trim that follows the kid's planting. */
  const CROWDED := WITH_KID.reg.(past := map["p" := SnapshotPast(PAR), "k" := KID_PAST], pastIds := ["p", "k"])

  lemma KidIsBelow()
    ensures Needed(CROWDED, "p") && !Needed(CROWDED, "k")
  {
    var s := CROWDED;
    ClimbStep(s, "k", "p", {});
    assert Descendant(s, "k", "p") && "k" in Known(s);
    assert Known(s) == {"p", "k"};
    ClimbStep(s, "k", "k", {});
    ClimbStep(s, "p", "k", {"k"});
    ClimbStep(s, "p", "k", {});
    ClimbStep(s, "", "k", {"k"} + {"p"});
    ClimbStep(s, "", "k", {} + {"p"});
    ClimbStep(s, "p", "k", {} + {"k"});
    ClimbStep(s, "", "k", {} + {"k"} + {"p"});
  }

  lemma TrimsKid()
    ensures Trim(CROWDED) == WITH_KID.reg
  {
    KidIsBelow();
    hide Needed;
    var s := CROWDED;
    assert FirstUnneeded(s, 0) == 1;
    assert Forget(s, 1).pastIds == ["p"];
    assert Forget(s, 1).past == map["p" := SnapshotPast(PAR)];
  }

  lemma PlantsKid()
    ensures Enabled(WITH_PAR, PlantWorker(KID)) && Apply(WITH_PAR, PlantWorker(KID)) == WITH_KID
  {
    Unnumbered();
    TrimsKid();
    hide TrailingSeq, Trim;
    ClimbStep(WITH_PAR.reg, "p", "k", {});
    ClimbStep(WITH_PAR.reg, "", "k", {} + {"p"});
    var s := Enlist(WITH_PAR.reg, KID);
    assert Plant(WITH_PAR.reg, KID) == Admitted(s, 1);
    assert Enter(s, KID_PAST) == CROWDED;
  }

  lemma RecallsKid()
    ensures Enabled(WITH_KID, RecallId("k")) && Apply(WITH_KID, RecallId("k")) == KID_RECALLED
  {
  }

  lemma PrunesKid()
    ensures Enabled(KID_RECALLED, Prune) && Apply(KID_RECALLED, Prune) == KID_PRUNED
  {
  }

  const CROWDED_LATE := BOTH_GONE.reg.(past := map["p" := SnapshotPast(PAR), "z" := SnapshotPast(LATE)], pastIds := ["p", "z"])

  lemma NobodyBelowPar()
    ensures !Needed(CROWDED_LATE, "p")
  {
    var s := CROWDED_LATE;
    assert Known(s) == {"p", "z"};
    ClimbStep(s, "p", "p", {});
    ClimbStep(s, "", "p", {} + {"p"});
    ClimbStep(s, "z", "p", {});
    ClimbStep(s, "", "p", {} + {"z"});
  }

  lemma TrimsPar()
    ensures Trim(CROWDED_LATE) == BOTH_GONE.reg
  {
    NobodyBelowPar();
    hide Needed;
    var s := CROWDED_LATE;
    assert FirstUnneeded(s, 0) == 0;
    assert Forget(s, 0).pastIds == ["z"];
    assert Forget(s, 0).past == map["z" := SnapshotPast(LATE)];
  }

  lemma PlantsLate()
    ensures Enabled(KID_PRUNED, PlantWorker(LATE)) && Apply(KID_PRUNED, PlantWorker(LATE)) == BOTH_GONE
  {
    Unnumbered();
    TrimsPar();
    hide TrailingSeq, Trim;
    ClimbStep(KID_PRUNED.reg, "", "z", {});
    var s := Enlist(KID_PRUNED.reg, LATE);
    assert Plant(KID_PRUNED.reg, LATE) == Admitted(s, 2);
    assert Enter(s, SnapshotPast(LATE)) == CROWDED_LATE;
  }

  lemma ClaimsKid()
    ensures Enabled(BOTH_GONE, Claim(KID_PAST, LEAD, true))
    ensures FATHERLESS.reg == Enlist(BOTH_GONE.reg, ResumedHandle(KID_PAST))
    ensures "k" !in Known(BOTH_GONE.reg) && "k" in Known(FATHERLESS.reg)
    ensures ParentOf(FATHERLESS.reg, "k") == "p" && "p" !in Known(FATHERLESS.reg)
  {
    assert LiveIds(BOTH_GONE.reg) == {};
  }

  /** A delegated worker is recalled, its record and its parent's are evicted, and its resume leaves a parent nobody knows. */
  lemma LostParentIsReached()
    ensures Leads(Start0(8, 1, true), FATHERLESS)
    ensures "k" in Known(FATHERLESS.reg) && ParentOf(FATHERLESS.reg, "k") != "" && ParentOf(FATHERLESS.reg, "k") !in Known(FATHERLESS.reg)
  {
    hide Leads, Apply, Enabled, Known;
    var from := Start0(8, 1, true);
    LeadsFrom(from);
    PlantsPar(); LeadsOn(from, from, PlantWorker(PAR), WITH_PAR);
    PlantsKid(); LeadsOn(from, WITH_PAR, PlantWorker(KID), WITH_KID);
    RecallsKid(); LeadsOn(from, WITH_KID, RecallId("k"), KID_RECALLED);
    PrunesKid(); LeadsOn(from, KID_RECALLED, Prune, KID_PRUNED);
    PlantsLate(); LeadsOn(from, KID_PRUNED, PlantWorker(LATE), BOTH_GONE);
    ClaimsKid(); LeadsOn(from, BOTH_GONE, Claim(KID_PAST, LEAD, true), FATHERLESS);
  }

  // ---------- a worker no reset reaches ----------

  const OWED := Stored("a", "", false, 3)
  const OWED_ALONE := Planted(
    Reg(map["a" := 0], map["a" := 0], map["a" := SnapshotPast(OWED)], ["a"], [OWED], 0, false, false, false, 8, 1), {})
  const OWED_EVICTED := Planted(
    Reg(map["a" := 0, "z" := 1], map["a" := 0], map["z" := SnapshotPast(LATE)], ["z"], [OWED, LATE], 0, false, false, false, 8, 1), {})
  const OWED_ONLY := Planted(
    Reg(map[], map["a" := 0], map["z" := SnapshotPast(LATE)], ["z"], [OWED, LATE], 0, false, false, false, 8, 1), {})

  lemma UnnumberedToo()
    ensures TrailingSeq("a") == 0 && TrailingSeq("x") == 0 && TrailingSeq("z") == 0
  {
  }

  lemma PlantsOwed()
    ensures Enabled(Start0(8, 1, false), PlantWorker(OWED)) && Apply(Start0(8, 1, false), PlantWorker(OWED)) == OWED_ALONE
  {
    UnnumberedToo();
    hide TrailingSeq;
    ClimbStep(Start0(8, 1, false).reg, "", "a", {});
  }

  const CROWDED_OWED := OWED_EVICTED.reg.(past := map["a" := SnapshotPast(OWED), "z" := SnapshotPast(LATE)], pastIds := ["a", "z"])

  lemma DropsOwed()
    ensures Evict(CROWDED_OWED) == OWED_EVICTED.reg
  {
    var s := Forget(CROWDED_OWED, 0);
    assert s.pastIds == ["z"];
    assert s.past == map["z" := SnapshotPast(LATE)];
  }

  lemma EvictsOwed()
    ensures Enabled(OWED_ALONE, PlantWorker(LATE)) && Apply(OWED_ALONE, PlantWorker(LATE)) == OWED_EVICTED
  {
    UnnumberedToo();
    DropsOwed();
    hide TrailingSeq, Evict;
    ClimbStep(OWED_ALONE.reg, "", "z", {});
    var s := Enlist(OWED_ALONE.reg, LATE);
    assert Plant(OWED_ALONE.reg, LATE) == Admitted(s, 1);
    assert Enter(s, SnapshotPast(LATE)) == CROWDED_OWED;
  }

  lemma PrunesOwed()
    ensures Enabled(OWED_EVICTED, Prune) && Apply(OWED_EVICTED, Prune) == OWED_ONLY
  {
  }

  lemma ForgivesNobody()
    ensures Enabled(OWED_ONLY, ForgiveTimeouts) && Apply(OWED_ONLY, ForgiveTimeouts) == OWED_ONLY
  {
    assert ResetTimeouts(OWED_ONLY.reg).heap == OWED_ONLY.reg.heap;
    assert ResetTimeouts(OWED_ONLY.reg).past == OWED_ONLY.reg.past;
  }

  /** Right after an explicit reset, a worker still owed but pruned and evicted is refused as before. */
  lemma MissedResetIsReached()
    ensures Leads(Start0(8, 1, false), OWED_ONLY) && Apply(OWED_ONLY, ForgiveTimeouts) == OWED_ONLY
    ensures Recall(OWED_ONLY.reg, "a") == Found(SnapshotPast(OWED))
    ensures ClaimForResume(OWED_ONLY.reg, SnapshotPast(OWED), false) == Denied(TimeoutsExhausted)
  {
    hide Leads, Apply, Enabled;
    var from := Start0(8, 1, false);
    LeadsFrom(from);
    PlantsOwed(); LeadsOn(from, from, PlantWorker(OWED), OWED_ALONE);
    EvictsOwed(); LeadsOn(from, OWED_ALONE, PlantWorker(LATE), OWED_EVICTED);
    PrunesOwed(); LeadsOn(from, OWED_EVICTED, Prune, OWED_ONLY);
    ForgivesNobody(); LeadsOn(from, OWED_ONLY, ForgiveTimeouts, OWED_ONLY);
  }

  // ---------- an exhausted worker restarted by a stale claim ----------

  const TIRED := Stored("x", "", false, 2)
  const TIRED_PAST := SnapshotPast(TIRED)

  function Shelf(h: Handle, listed: bool, past: Past): Reg {
    Reg(if listed then map["x" := 0] else map[], map["x" := 0], map["x" := past], ["x"], [h], 0, false, false, false, 8, 32)
  }

  /** The tired worker's second generation. */
  function Second(phase: Phase, timeouts: nat, cancel: Option<nat>): Handle {
    Handle("x", "x", "", 2, phase, false, false, cancel, timeouts, None, "", if timeouts == 3 then TimeoutError else NoError, IDLE_WORK)
  }

  const WORN_PAST := Past("x", "x", "", 2, false, false, 3, None)

  const PLANTED := Planted(Shelf(TIRED, true, TIRED_PAST), {})
  const HELD := Planted(Shelf(TIRED, true, TIRED_PAST), {TIRED_PAST})
  const AGAIN := World(Shelf(Second(Live, 2, None), true, TIRED_PAST), [], {}, {TIRED_PAST}, {}, {}, ON)
  const AGAIN_ON := World(Shelf(Second(Live, 2, Some(0)), true, TIRED_PAST), [Ctx(0, 2, false)], {}, {TIRED_PAST}, {}, {}, ON)
  const THIRD := World(Shelf(Second(Stopped, 3, Some(0)), true, TIRED_PAST), [Ctx(0, 2, true)], {}, {TIRED_PAST}, {}, {}, ON)
  const THIRD_SNAPPED := THIRD.(reg := Shelf(Second(Snapped(WORN_PAST), 3, Some(0)), true, TIRED_PAST))
  const THIRD_STORED := THIRD.(reg := Shelf(Second(Archived, 3, Some(0)), true, WORN_PAST))
  const WORN := THIRD.(reg := Shelf(Second(Done, 3, Some(0)), true, WORN_PAST))
  const WORN_PRUNED := THIRD.(reg := Shelf(Second(Done, 3, Some(0)), false, WORN_PAST))
  const REVIVED := Apply(WORN_PRUNED, Claim(TIRED_PAST, HOST, true))

  lemma PlantsTired()
    ensures Enabled(Start0(8, 32, false), PlantWorker(TIRED)) && Apply(Start0(8, 32, false), PlantWorker(TIRED)) == PLANTED
  {
    UnnumberedToo();
    hide TrailingSeq;
    ClimbStep(Start0(8, 32, false).reg, "", "x", {});
  }

  lemma HoldsTired()
    ensures Enabled(PLANTED, RecallId("x")) && Apply(PLANTED, RecallId("x")) == HELD
  {
  }

  lemma ResumesTired()
    ensures Enabled(HELD, Claim(TIRED_PAST, HOST, true)) && Apply(HELD, Claim(TIRED_PAST, HOST, true)) == AGAIN
  {
    assert LiveIds(HELD.reg) == {};
  }

  lemma StartsTired()
    ensures Enabled(AGAIN, Start(0)) && Apply(AGAIN, Start(0)) == AGAIN_ON
  {
  }

  lemma StopsTired()
    ensures Enabled(AGAIN_ON, Stop(0, Failed(true), "")) && Apply(AGAIN_ON, Stop(0, Failed(true), "")) == THIRD
  {
  }

  lemma SnapsTired()
    ensures Enabled(THIRD, Snap(0)) && Apply(THIRD, Snap(0)) == THIRD_SNAPPED
  {
  }

  lemma StoresTired()
    ensures Enabled(THIRD_SNAPPED, Store(0)) && Apply(THIRD_SNAPPED, Store(0)) == THIRD_STORED
  {
  }

  lemma FinishesTired()
    ensures Enabled(THIRD_STORED, CloseDone(0)) && Apply(THIRD_STORED, CloseDone(0)) == WORN
  {
  }

  lemma PrunesTired()
    ensures Enabled(WORN, Prune) && Apply(WORN, Prune) == WORN_PRUNED
  {
  }

  lemma RevivesTired()
    ensures Enabled(WORN_PRUNED, Claim(TIRED_PAST, HOST, true))
    ensures REVIVED.reg.heap == [Second(Done, 3, Some(0)), ResumedHandle(TIRED_PAST)] && REVIVED.reg.agents == map["x" := 1]
  {
    assert LiveIds(WORN_PRUNED.reg) == {};
  }

  /** A conversation recalled after two watchdog stops starts the worker again after the third. */
  lemma StaleRestartIsReached()
    ensures Leads(Start0(8, 32, false), WORN_PRUNED) && Timeouts.WornOut(WORN_PRUNED.reg, "x")
    ensures Leads(Start0(8, 32, false), REVIVED) && !Timeouts.WornOut(REVIVED.reg, "x") && REVIVED.reg.heap[1].phase == Live
  {
    hide Leads, Apply, Enabled;
    var from := Start0(8, 32, false);
    LeadsFrom(from);
    PlantsTired(); LeadsOn(from, from, PlantWorker(TIRED), PLANTED);
    HoldsTired(); LeadsOn(from, PLANTED, RecallId("x"), HELD);
    ResumesTired(); LeadsOn(from, HELD, Claim(TIRED_PAST, HOST, true), AGAIN);
    StartsTired(); LeadsOn(from, AGAIN, Start(0), AGAIN_ON);
    StopsTired(); LeadsOn(from, AGAIN_ON, Stop(0, Failed(true), ""), THIRD);
    SnapsTired(); LeadsOn(from, THIRD, Snap(0), THIRD_SNAPPED);
    StoresTired(); LeadsOn(from, THIRD_SNAPPED, Store(0), THIRD_STORED);
    FinishesTired(); LeadsOn(from, THIRD_STORED, CloseDone(0), WORN);
    PrunesTired(); LeadsOn(from, WORN, Prune, WORN_PRUNED);
    RevivesTired(); LeadsOn(from, WORN_PRUNED, Claim(TIRED_PAST, HOST, true), REVIVED);
    SeenAt(WORN_PRUNED.reg, 0);
    assert Newest(REVIVED.reg, 1);
  }

  // ---------- a reset overtaken by a resume ----------

  const CALM := Stored("x", "", false, 0)
  const CALMED := Planted(Shelf(CALM, true, SnapshotPast(CALM)), {TIRED_PAST})
  const CALM_PRUNED := Planted(Shelf(CALM, false, SnapshotPast(CALM)), {TIRED_PAST})
  const OVERTAKEN := Apply(CALM_PRUNED, Claim(TIRED_PAST, HOST, true))

  lemma Calms()
    ensures Enabled(HELD, ForgiveTimeouts) && Apply(HELD, ForgiveTimeouts) == CALMED
  {
    assert ResetTimeouts(HELD.reg).heap == CALMED.reg.heap;
    assert ResetTimeouts(HELD.reg).past == CALMED.reg.past;
  }

  lemma PrunesCalm()
    ensures Enabled(CALMED, Prune) && Apply(CALMED, Prune) == CALM_PRUNED
  {
  }

  lemma Overtakes()
    ensures Enabled(CALM_PRUNED, Claim(TIRED_PAST, HOST, true)) && ResumesCurrent(CALM_PRUNED, Claim(TIRED_PAST, HOST, true))
    ensures OVERTAKEN.reg.heap == [CALM, ResumedHandle(TIRED_PAST)] && OVERTAKEN.reg.agents == map["x" := 1]
  {
    assert LiveIds(CALM_PRUNED.reg) == {};
  }

  /**
   A reset comes between recalling a conversation and claiming it: the resumed worker counts two stops
   although none came since the reset. The reset found the counted conversation in somebody's hands.
   */
  lemma OvertakenResetIsReached()
    ensures var ws := [Start0(8, 32, false), PLANTED, HELD, CALMED, CALM_PRUNED, OVERTAKEN];
            var steps := [PlantWorker(TIRED), RecallId("x"), ForgiveTimeouts, Prune, Claim(TIRED_PAST, HOST, true)];
            && IsRun(ws, steps) && !Streaks.Quiet(HELD)
            && Streaks.Streak(ws, steps, 5, "x") == 0 && |OVERTAKEN.reg.heap| == 2 && OVERTAKEN.reg.heap[1].timeouts == 2
  {
    hide Apply, Enabled;
    PlantsTired(); HoldsTired(); Calms(); PrunesCalm(); Overtakes();
    var ws := [Start0(8, 32, false), PLANTED, HELD, CALMED, CALM_PRUNED, OVERTAKEN];
    var steps := [PlantWorker(TIRED), RecallId("x"), ForgiveTimeouts, Prune, Claim(TIRED_PAST, HOST, true)];
    forall i | 0 <= i < |steps| ensures Enabled(ws[i], steps[i]) && ws[i + 1] == Apply(ws[i], steps[i]) {
      if i == 0 {} else if i == 1 {} else if i == 2 {} else if i == 3 {} else {}
    }
    assert Streaks.Streak(ws, steps, 3, "x") == 0;
    assert Streaks.Streak(ws, steps, 4, "x") == 0;
    assert Current(HELD.reg, TIRED_PAST);
  }
}
