/**
 Why resumes must use a current conversation. resume.go recalls a conversation in one lock-held section
 and claims it in a later one; in between the worker can live through a whole generation and be pruned.
 This run of the model, from an empty registry, ends with one agent and generation issued twice, the
 second time to a worker whose right to delegate was revoked by a close.
 */
module StaleResume {
  import opened Common
  import opened WorkerId
  import opened ToolScope
  import opened Handoff
  import opened Lifecycle
  import opened Runs
  import opened Soundness
  import opened Settlement
  import opened Closing

  /** The host offers no tools to choose from and no delegation. */
  const HOST := Surface(Config([], None, None), false)
  const ON: map<Ref, Surface> := map[0 := HOST]

  const ID := Mint("w", 1)

  function Life(gen: int, phase: Phase, closing: bool, cancel: Option<nat>): Handle {
    Handle(ID, "w", "", gen, phase, false, closing, cancel, 0, None, "", NoError, IDLE_WORK)
  }

  function Kept(gen: int, closing: bool): Past { Past(ID, "w", "", gen, false, closing, 0, None) }

  /** The registry with the one worker, in its one handle. */
  function Room(h: Handle, listed: bool, owed: bool, archived: Option<Past>): Reg {
    Reg(if listed then map[ID := 0] else map[], if owed then map[ID := 0] else map[],
        if archived.Some? then map[ID := archived.value] else map[], if archived.Some? then [ID] else [],
        [h], 1, false, false, false, 8, 32)
  }

  function First(cancelled: bool): seq<Ctx> { [Ctx(0, 1, cancelled)] }
  function Both(cancelled: bool): seq<Ctx> { [Ctx(0, 1, true), Ctx(0, 2, cancelled)] }

  // ---------- the first life ----------

  const EMPTY := Start0(8, 32, false)
  const SPAWNED := World(Room(Life(1, Live, false, None), true, true, None), [], {}, {}, {}, {}, ON)
  const STARTED := World(Room(Life(1, Live, false, Some(0)), true, true, None), First(false), {}, {}, {}, {}, ON)
  const STOPPED := World(Room(Life(1, Stopped, false, Some(0)), true, true, None), First(true), {}, {}, {}, {}, ON)
  const SNAPPED := World(Room(Life(1, Snapped(Kept(1, false)), false, Some(0)), true, true, None), First(true), {}, {}, {}, {}, ON)
  const STORED := World(Room(Life(1, Archived, false, Some(0)), true, true, Some(Kept(1, false))), First(true), {}, {}, {}, {}, ON)
  const FINISHED := World(Room(Life(1, Done, false, Some(0)), true, true, Some(Kept(1, false))), First(true), {}, {}, {}, {}, ON)
  const RECALLED := FINISHED.(recalled := {Kept(1, false)})

  lemma Spawns()
    ensures Enabled(EMPTY, SpawnWorker("w", None, HOST, Inherit, true))
    ensures Apply(EMPTY, SpawnWorker("w", None, HOST, Inherit, true)) == SPAWNED
  {
    hide Mint;
    assert LiveIds(EMPTY.reg) == {};
  }

  lemma Starts()
    ensures Enabled(SPAWNED, Start(0)) && Apply(SPAWNED, Start(0)) == STARTED
  {
    hide Mint;
  }

  lemma Stops()
    ensures Enabled(STARTED, Stop(0, Succeeded, "")) && Apply(STARTED, Stop(0, Succeeded, "")) == STOPPED
  {
    hide Mint;
  }

  lemma Snaps()
    ensures Enabled(STOPPED, Snap(0)) && Apply(STOPPED, Snap(0)) == SNAPPED
  {
    hide Mint;
  }

  lemma Stores()
    ensures Enabled(SNAPPED, Store(0)) && Apply(SNAPPED, Store(0)) == STORED
  {
    hide Mint;
  }

  lemma Finishes()
    ensures Enabled(STORED, CloseDone(0)) && Apply(STORED, CloseDone(0)) == FINISHED
  {
    hide Mint;
  }

  lemma Recalls()
    ensures Enabled(FINISHED, RecallId(ID)) && Apply(FINISHED, RecallId(ID)) == RECALLED
  {
    hide Mint;
  }

  // ---------- the second, closed while it runs ----------

  const P := Kept(1, false)
  const RENEWED := World(Room(Life(2, Live, false, None), true, true, Some(P)), First(true), {}, {P}, {}, {}, ON)
  const RESTARTED := World(Room(Life(2, Live, false, Some(1)), true, true, Some(P)), Both(false), {}, {P}, {}, {}, ON)
  const CLOSED := World(Room(Life(2, Live, true, Some(1)), true, false, Some(P)), Both(false), {1}, {P}, {}, {}, ON)
  const RESTOPPED := World(Room(Life(2, Stopped, true, Some(1)), true, false, Some(P)), Both(true), {1}, {P}, {}, {}, ON)
  const RESNAPPED := World(Room(Life(2, Snapped(Kept(2, true)), true, Some(1)), true, false, Some(P)), Both(true), {1}, {P}, {}, {}, ON)
  const RESTORED := World(Room(Life(2, Archived, true, Some(1)), true, false, Some(Kept(2, true))), Both(true), {1}, {P}, {}, {}, ON)
  const REFINISHED := World(Room(Life(2, Done, true, Some(1)), true, false, Some(Kept(2, true))), Both(true), {1}, {P}, {}, {}, ON)
  const PRUNED := World(Room(Life(2, Done, true, Some(1)), false, false, Some(Kept(2, true))), Both(true), {1}, {P}, {}, {}, ON)

  lemma Renews()
    ensures Enabled(RECALLED, Claim(P, HOST, true)) && Apply(RECALLED, Claim(P, HOST, true)) == RENEWED
  {
    hide Mint;
    assert LiveIds(RECALLED.reg) == {};
  }

  lemma Restarts()
    ensures Enabled(RENEWED, Start(0)) && Apply(RENEWED, Start(0)) == RESTARTED
  {
    hide Mint;
  }

  lemma Closes()
    ensures Enabled(RESTARTED, CloseTree(ID)) && Apply(RESTARTED, CloseTree(ID)) == CLOSED
  {
    hide Mint;
    var s := RESTARTED.reg;
    assert Reachable(s) == map[ID := 0];
    assert Subtree(s, ID) == {ID};
    assert SubtreeCancels(s, {ID}) == {1} by { assert At(s, Reachable(s)[ID]).cancel.value == 1; }
    assert CloseSubtree(s, ID).heap == CLOSED.reg.heap;
  }

  lemma Restops()
    ensures Enabled(CLOSED, Stop(0, Succeeded, "")) && Apply(CLOSED, Stop(0, Succeeded, "")) == RESTOPPED
  {
    hide Mint;
  }

  lemma Resnaps()
    ensures Enabled(RESTOPPED, Snap(0)) && Apply(RESTOPPED, Snap(0)) == RESNAPPED
  {
    hide Mint;
  }

  lemma Restores()
    ensures Enabled(RESNAPPED, Store(0)) && Apply(RESNAPPED, Store(0)) == RESTORED
  {
    hide Mint;
  }

  lemma Refinishes()
    ensures Enabled(RESTORED, CloseDone(0)) && Apply(RESTORED, CloseDone(0)) == REFINISHED
  {
    hide Mint;
  }

  lemma Prunes()
    ensures Enabled(REFINISHED, Prune) && Apply(REFINISHED, Prune) == PRUNED
  {
    hide Mint;
  }

  // ---------- the stale claim ----------

  const TWICE := Apply(PRUNED, Claim(P, HOST, true))

  lemma ClaimsStale()
    ensures Enabled(PRUNED, Claim(P, HOST, true)) && !ResumesCurrent(PRUNED, Claim(P, HOST, true))
    ensures TWICE.reg.heap == [Life(2, Done, true, Some(1)), Life(2, Live, false, None)]
    ensures TWICE.reg.agents == map[ID := 1] && !TWICE.reg.closed && !TWICE.reg.handingOff
  {
    hide Mint;
    assert LiveIds(PRUNED.reg) == {};
    assert PRUNED.reg.heap[0].id == P.id;
  }

  lemma FirstLife()
    ensures Leads(EMPTY, RECALLED)
  {
    hide Leads, Apply, Enabled;
    LeadsFrom(EMPTY);
    Spawns(); LeadsOn(EMPTY, EMPTY, SpawnWorker("w", None, HOST, Inherit, true), SPAWNED);
    Starts(); LeadsOn(EMPTY, SPAWNED, Start(0), STARTED);
    Stops(); LeadsOn(EMPTY, STARTED, Stop(0, Succeeded, ""), STOPPED);
    Snaps(); LeadsOn(EMPTY, STOPPED, Snap(0), SNAPPED);
    Stores(); LeadsOn(EMPTY, SNAPPED, Store(0), STORED);
    Finishes(); LeadsOn(EMPTY, STORED, CloseDone(0), FINISHED);
    Recalls(); LeadsOn(EMPTY, FINISHED, RecallId(ID), RECALLED);
  }

  lemma SecondLife()
    ensures Leads(EMPTY, PRUNED)
  {
    hide Leads, Apply, Enabled;
    FirstLife();
    Renews(); LeadsOn(EMPTY, RECALLED, Claim(P, HOST, true), RENEWED);
    Restarts(); LeadsOn(EMPTY, RENEWED, Start(0), RESTARTED);
    Closes(); LeadsOn(EMPTY, RESTARTED, CloseTree(ID), CLOSED);
    Restops(); LeadsOn(EMPTY, CLOSED, Stop(0, Succeeded, ""), RESTOPPED);
    Resnaps(); LeadsOn(EMPTY, RESTOPPED, Snap(0), RESNAPPED);
    Restores(); LeadsOn(EMPTY, RESNAPPED, Store(0), RESTORED);
    Refinishes(); LeadsOn(EMPTY, RESTORED, CloseDone(0), REFINISHED);
    Prunes(); LeadsOn(EMPTY, REFINISHED, Prune, PRUNED);
  }

  /**
   A run from an empty registry after which the same agent and generation has two handles, one settled and
   one owed, and the generation closed earlier may delegate again. Its only stale step is the last one, and
   Settlement.ResumeKeepsGensIffCurrent says exactly when a claim is such a step.
   */
  lemma StaleClaimReissuesGeneration()
    ensures Leads(EMPTY, TWICE) && !Gens(TWICE.reg)
    ensures Spent(PRUNED.reg, ID, 2) && CallerActive(TWICE.reg, Caller(ID, 2)) && !Spent(TWICE.reg, ID, 2)
  {
    hide Leads, Apply, Enabled, Mint;
    SecondLife();
    ClaimsStale();
    LeadsOn(EMPTY, PRUNED, Claim(P, HOST, true), TWICE);
    var s := TWICE.reg;
    assert s.heap[0].id == s.heap[1].id && s.heap[0].gen == s.heap[1].gen;
    assert PRUNED.reg.heap[0].id == ID && PRUNED.reg.heap[0].gen == 2;
  }
}
