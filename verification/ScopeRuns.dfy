/**
 Tool scopes along the delegations of a run (worker_tool_scope.go:72-118, 134-164, spawn.go:70-71). A
 running worker's calls are served with the surface its generation was started with, which is exactly its
 recorded selection; a spawn cuts its caller's surface and records the cut. So where every restored
 worker comes after its parent, an explicit selection bounds the selection of everyone delegated below,
 through spawns, resumes, restores and plantings.
 */
module ScopeRuns {
  import opened Common
  import opened WorkerId
  import opened ToolScope
  import opened Handoff
  import opened Lifecycle
  import opened Runs
  import opened Soundness
  import opened Settlement
  import opened Delegation
  import opened Family

  /** The selection the worker was made with. */
  function Selection(s: Reg, id: string): Option<seq<string>> {
    if First(s, id) < |s.heap| then s.heap[First(s, id)].tools else None
  }

  /** Every delegated worker's selection lies within its parent's. */
  ghost predicate Scoped(s: Reg) {
    forall r :: 0 <= r < |s.heap| && s.heap[r].parent != "" ==> Narrower(Selection(s, s.heap[r].parent), s.heap[r].tools)
  }

  lemma NarrowerTransitive(a: Option<seq<string>>, b: Option<seq<string>>, c: Option<seq<string>>)
    requires Narrower(a, b) && Narrower(b, c)
    ensures Narrower(a, c)
  {
  }

  lemma KinTools(s: Reg, r: nat)
    requires KinHeap(s) && r < |s.heap|
    ensures Selection(s, s.heap[r].id) == s.heap[r].tools
  {
    var q := First(s, s.heap[r].id);
    FirstIs(s, s.heap[r].id, r);
    if q < r { assert SameKin(s.heap[q], s.heap[r]); }
  }

  lemma HandleTools(s: Reg, id: string, r: int)
    requires KinHeap(s) && 0 <= r < |s.heap| && s.heap[r].id == id
    ensures s.heap[r].tools == Selection(s, id) && First(s, id) < |s.heap|
  {
    hide KinHeap, Selection, First;
    KinTools(s, r);
    FirstIs(s, id, r);
  }

  /** The tables record the selection of every known worker. */
  lemma ToolsAreSelection(w: World, id: string)
    requires Sound(w.reg) && KinWorld(w) && id in Known(w.reg)
    ensures ToolsOf(w.reg, id) == Selection(w.reg, id) && First(w.reg, id) < |w.reg.heap|
  {
    hide Sound, KinHeap, Selection, First, Newest;
    var s := w.reg;
    SoundParts(s);
    if id in s.agents {
      NewestInside(s, s.agents[id]);
      HandleTools(s, id, s.agents[id]);
    } else if id in s.pending {
      NewestInside(s, s.pending[id]);
      HandleTools(s, id, s.pending[id]);
    } else {
      ArchivedTools(w, id);
    }
  }

  lemma ArchivedTools(w: World, id: string)
    requires Sound(w.reg) && KinWorld(w) && id in w.reg.past
    ensures w.reg.past[id].tools == Selection(w.reg, id) && First(w.reg, id) < |w.reg.heap|
  {
    hide Sound, KinHeap, Selection, First;
    SoundParts(w.reg);
    var r :| 0 <= r < |w.reg.heap| && SameWorker(w.reg.past[id], w.reg.heap[r]);
    HandleTools(w.reg, id, r);
  }

  lemma SelectionStays(s: Reg, s': Reg, id: string)
    requires Extends(s, s') && First(s, id) < |s.heap|
    ensures Selection(s', id) == Selection(s, id)
  {
    FirstStays(s, s', id, 0);
    assert Advances(s.heap[First(s, id)], s'.heap[First(s, id)]);
  }

  // ---------- a running worker's surface is its selection ----------

  /** Two selections name the same tools, in whatever order. */
  ghost predicate SameNames(a: Option<seq<string>>, b: Option<seq<string>>) {
    (a.None? <==> b.None?) && (a.Some? ==> forall t :: t in a.value <==> t in b.value)
  }

  ghost predicate Served(w: World, r: Ref) {
    && r < |w.reg.heap| && r in w.surfaces && Exact(w.surfaces[r].config)
    && SameNames(w.surfaces[r].config.chosen, w.reg.heap[r].tools)
  }

  /** Every running generation is served with a surface that offers for selection exactly what it records. */
  ghost predicate Surfaced(w: World) {
    forall r :: 0 <= r < |w.reg.heap| && w.reg.heap[r].phase == Live ==> Served(w, r)
  }

  lemma NarrowerByNames(a: Option<seq<string>>, b: Option<seq<string>>, c: Option<seq<string>>)
    requires SameNames(a, b) && Narrower(a, c)
    ensures Narrower(b, c)
  {
  }

  /** A rebuilt surface is the recorded selection, whatever configuration it is rebuilt on. */
  lemma RebuiltServes(base: Surface, names: Option<seq<string>>)
    requires Rebuilt(base, names).Some?
    ensures Exact(Rebuilt(base, names).value.config) && SameNames(Rebuilt(base, names).value.config.chosen, names)
  {
    hide Select, Exact;
    var c := base.config.(chosen := None);
    HostExact(c);
    SelectNarrows(c, if names.None? then Inherit else These(names.value));
    if names.Some? { SelectExact(c, names.value); } else { InheritsAll(c); }
  }

  lemma InheritsAll(c: Config)
    ensures Select(c, Inherit) == ToolScope.Ok(c)
  {
  }

  lemma HostExact(c: Config)
    requires c.chosen.None?
    ensures Exact(c)
  {
  }

  /** What a spawn is granted is cut from its caller's surface, and exact again. */
  lemma GrantedServes(w: World, step: Step)
    requires Surfaced(w) && SoundWorld(w) && step.SpawnWorker? && Granted(w, step.caller, step.base, step.names).Some?
    requires step.caller.Some? ==> CallerActive(w.reg, step.caller.value)
    ensures var f := Granted(w, step.caller, step.base, step.names).value;
            && Exact(f.config)
            && (step.caller.Some? ==>
                  var r := w.reg.agents[step.caller.value.id];
                  f.delegates && Served(w, r) && Narrower(w.surfaces[r].config.chosen, f.config.chosen))
  {
    hide SoundWorld, Select, Exact, Narrower;
    if step.caller.Some? {
      AgentInside(w, step.caller.value.id);
      var r := w.reg.agents[step.caller.value.id];
      assert Served(w, r);
      SelectNarrows(w.surfaces[r].config, step.names);
    } else {
      HostExact(step.base.config.(chosen := None));
      SelectNarrows(step.base.config.(chosen := None), step.names);
    }
  }

  lemma SurfacesStay(w: World, step: Step)
    requires !step.SpawnWorker? && !step.Claim? && !step.RestoreWorker?
    ensures Apply(w, step).surfaces == w.surfaces
  {
    hide Remember, CloseSubtree, Collect, Stats, Recall, Get, Subtree, SubtreeCancels, CleanupMarks, BeginHandoff, ResetTimeouts,
      CloseRegistry, CapturedBySettle, Running, Complete, Plant, Act;
  }

  /** A worker that runs after a step of another kind ran before it, under the same selection. */
  lemma RanBefore(w: World, step: Step, r: nat)
    requires SoundWorld(w) && Enabled(w, step) && !step.SpawnWorker? && !step.Claim? && !step.RestoreWorker?
    requires r < |Apply(w, step).reg.heap| && Apply(w, step).reg.heap[r].phase == Live
    ensures r < |w.reg.heap| && w.reg.heap[r].phase == Live && Apply(w, step).reg.heap[r].tools == w.reg.heap[r].tools
  {
    hide SoundWorld, Apply;
    StepExtends(w, step);
    StepStands(w, step);
    OnlyRestedArrive(w, step);
    assert Advances(w.reg.heap[r], Apply(w, step).reg.heap[r]);
    if Mover(w.reg, step) == Some(r) { MoverStops(w, step); }
  }

  lemma OnlyRestedArrive(w: World, step: Step)
    requires SoundWorld(w) && Enabled(w, step) && !step.SpawnWorker? && !step.Claim? && !step.RestoreWorker?
    ensures var was, now := w.reg.heap, Apply(w, step).reg.heap;
            |now| == |was| || (|now| == |was| + 1 && now[|was|].phase != Live)
  {
    hide SoundWorld, Apply;
    StepSizes(w, step);
  }

  lemma MoverStops(w: World, step: Step)
    requires SoundWorld(w) && Enabled(w, step) && (step.Stop? || step.Snap? || step.Store? || step.CloseDone?)
    ensures step.r < |Apply(w, step).reg.heap| && Apply(w, step).reg.heap[step.r].phase != Live
  {
    hide SoundWorld, Apply;
    if step.Store? { StoreStands(w, step.r); } else { SingleIsPut(w, step); }
  }

  lemma ClaimServes(w: World, step: Step)
    requires SoundWorld(w) && KinWorld(w) && Surfaced(w) && Enabled(w, step) && step.Claim?
    ensures Surfaced(Apply(w, step))
  {
    hide SoundWorld, KinWorld, ClaimForResume, LiveCount, ScopeFits, Rebuilt, Exact, SameNames, Enlist, Renewed;
    ClaimShape(w.reg, step.p, step.admit);
    EnlistHeap(w.reg, ResumedHandle(step.p));
    if Apply(w, step) != w {
      RebuiltServes(step.base, step.p.tools);
      if step.p.id in w.reg.agents {
        AgentInside(w, step.p.id);
        RenewedValue(w.reg, w.reg.agents[step.p.id]);
        RosterIsKin(w, step.p);
      }
      OthersServed(w, Apply(w, step), ClaimForResume(w.reg, step.p, step.admit).ref);
    }
  }

  /** A step that starts one generation and serves it leaves every other running one as it was. */
  lemma OthersServed(w: World, w': World, started: Ref)
    requires Surfaced(w) && Served(w', started) && |w.reg.heap| <= |w'.reg.heap|
    requires started in w'.surfaces && w'.surfaces == w.surfaces[started := w'.surfaces[started]]
    requires forall r :: 0 <= r < |w'.reg.heap| && r != started ==> r < |w.reg.heap| && w'.reg.heap[r] == w.reg.heap[r]
    ensures Surfaced(w')
  {
    hide Exact, SameNames;
    forall r | 0 <= r < |w'.reg.heap| && w'.reg.heap[r].phase == Live ensures Served(w', r) {
      if r != started { assert Served(w, r); }
    }
  }

  lemma SpawnServes(w: World, step: Step)
    requires SoundWorld(w) && Surfaced(w) && Enabled(w, step) && step.SpawnWorker?
    ensures Surfaced(Apply(w, step))
  {
    hide SoundWorld, Apply, Granted, Exact, Enlist, CallerActive, LiveCount, Mint, Narrower, Select;
    SpawnStep(w, step);
    if Apply(w, step) != w {
      GrantedServes(w, step);
      EnlistHeap(SpawnBase(w, step), SpawnMade(w, step));
      OthersServed(w, Apply(w, step), |w.reg.heap|);
    }
  }

  lemma RestoreServes(w: World, step: Step)
    requires SoundWorld(w) && Surfaced(w) && Enabled(w, step) && step.RestoreWorker?
    ensures Surfaced(Apply(w, step))
  {
    hide Sound, Seen, TokenHolds, SnapsMatch, Apply, Rebuilt, Exact, Enlist, NoteId, ClaimForRestore, ScopeFits, ParentAllowed;
    RestoreShape(w, step);
    if Apply(w, step) != w {
      RebuiltServes(step.base, step.stored);
      NoteIdFields(w.reg, step.id);
      EnlistHeap(NoteId(w.reg, step.id), RestoredOf(step));
      OthersServed(w, Apply(w, step), |w.reg.heap|);
    }
  }

  lemma StepSurfaced(w: World, step: Step)
    requires SoundWorld(w) && KinWorld(w) && Surfaced(w) && Enabled(w, step)
    ensures Surfaced(Apply(w, step))
  {
    hide SoundWorld, KinWorld, Apply, Enabled, Exact, SameNames;
    if step.SpawnWorker? { SpawnServes(w, step); }
    else if step.Claim? { ClaimServes(w, step); }
    else if step.RestoreWorker? { RestoreServes(w, step); }
    else {
      SurfacesStay(w, step);
      forall r | 0 <= r < |Apply(w, step).reg.heap| && Apply(w, step).reg.heap[r].phase == Live ensures Served(Apply(w, step), r) {
        RanBefore(w, step, r);
        assert Served(w, r);
      }
    }
  }

  lemma {:induction false} RunSurfaced(ws: seq<World>, steps: seq<Step>, i: nat)
    requires IsRun(ws, steps) && FromStart(ws) && i < |ws|
    ensures Surfaced(ws[i]) && KinWorld(ws[i])
    decreases i
  {
    hide SoundWorld, Apply, Enabled;
    if i > 0 {
      hide FromStart, Surfaced, KinWorld;
      RunSurfaced(ws, steps, i - 1);
      RunSound(ws, steps, i - 1);
      assert Enabled(ws[i - 1], steps[i - 1]) && ws[i - 1 + 1] == Apply(ws[i - 1], steps[i - 1]);
      StepSurfaced(ws[i - 1], steps[i - 1]);
      StepKin(ws[i - 1], steps[i - 1]);
    }
  }

  /**
   In every world of every run, what a running worker with an explicit selection can hand on is exactly
   that selection, and a worker without one inherited everything its source had.
   */
  lemma SurfaceIsSelection(ws: seq<World>, steps: seq<Step>, i: nat, r: nat)
    requires IsRun(ws, steps) && FromStart(ws) && i < |ws| && r < |ws[i].reg.heap| && ws[i].reg.heap[r].phase == Live
    ensures r in ws[i].surfaces
    ensures var c, tools := ws[i].surfaces[r].config, ws[i].reg.heap[r].tools;
            && (c.chosen.Some? <==> tools.Some?)
            && (tools.Some? ==> forall t :: Selectable(c, t) <==> t in tools.value)
  {
    RunSurfaced(ws, steps, i);
    assert Served(ws[i], r);
  }

  // ---------- scopes along the tree ----------

  /** A restored or planted handle is checked against what the tables say of its parent. */
  lemma NewbornFits(w: World, step: Step, h: Handle)
    requires Newborn(w.reg, step, h) && (step.RestoreWorker? || step.PlantWorker?)
    ensures h.parent != "" ==> Narrower(ToolsOf(w.reg, h.parent), h.tools)
  {
    hide ToolsOf, ParentAllowed, Narrower;
  }

  /** A spawned handle records what its caller's surface was cut to. */
  lemma SpawnedScope(w: World, step: Step)
    requires SoundWorld(w) && KinWorld(w) && Surfaced(w) && Enabled(w, step) && step.SpawnWorker? && step.caller.Some?
    requires Apply(w, step) != w
    ensures var s, s' := w.reg, Apply(w, step).reg;
            && |s'.heap| == |s.heap| + 1 && s'.heap[|s.heap|].parent == step.caller.value.id
            && First(s, step.caller.value.id) < |s.heap|
            && Narrower(Selection(s, step.caller.value.id), s'.heap[|s.heap|].tools)
  {
    hide SoundWorld, KinWorld, Apply, Granted, Exact, Enlist, LiveCount, Mint, Narrower, Selection, First, Select, SameNames;
    SpawnStep(w, step);
    GrantedServes(w, step);
    EnlistHeap(SpawnBase(w, step), SpawnMade(w, step));
    var r := w.reg.agents[step.caller.value.id];
    AgentInside(w, step.caller.value.id);
    KinHeapOf(w);
    HandleTools(w.reg, step.caller.value.id, r);
    NarrowerByNames(w.surfaces[r].config.chosen, w.reg.heap[r].tools, Apply(w, step).reg.heap[|w.reg.heap|].tools);
  }

  lemma KinHeapOf(w: World)
    requires KinWorld(w)
    ensures KinHeap(w.reg)
  {
  }

  lemma HeldIsKnown(s: Reg, id: string)
    requires Held(s, id)
    ensures id in Known(s)
  {
  }

  lemma ClaimedScope(w: World, p: Past)
    requires KinWorld(w) && Elders(w.reg) && Scoped(w.reg) && p in w.recalled
    ensures p.parent != "" ==> First(w.reg, p.parent) < |w.reg.heap| && Narrower(Selection(w.reg, p.parent), p.tools)
  {
    hide KinHeap, Narrower, Selection, First;
    assert KinPast(w.reg, p);
    var q :| 0 <= q < |w.reg.heap| && SameWorker(p, w.reg.heap[q]);
    if p.parent != "" { assert First(w.reg, w.reg.heap[q].parent) < q; }
  }

  lemma NewbornScoped(w: World, step: Step)
    requires SoundWorld(w) && FamilyWorld(w) && Surfaced(w) && Scoped(w.reg) && Enabled(w, step) && RootedStep(w, step)
    requires Enlisted(w.reg, Apply(w, step).reg, step)
    ensures var s, h := w.reg, Apply(w, step).reg.heap[|w.reg.heap|];
            h.parent != "" ==> First(s, h.parent) < |s.heap| && Narrower(Selection(s, h.parent), h.tools)
  {
    hide Sound, TokenHolds, SnapsMatch, Seen, Apply, Enabled, KinHeap, KinPast, Rooted, Chaperoned, Held, Known, Narrower,
      Selection, First, Scoped, Mint, CallerActive, ParentAllowed, ScopeFits, Surfaced;
    var h := Apply(w, step).reg.heap[|w.reg.heap|];
    if h.parent != "" {
      if step.Claim? {
        ClaimedIsRecalled(w, step);
        ClaimedScope(w, step.p);
      } else if step.SpawnWorker? {
        SpawnedScope(w, step);
      } else {
        NewbornParent(w, step);
        HeldIsKnown(w.reg, h.parent);
        NewbornFits(w, step, h);
        ToolsAreSelection(w, h.parent);
      }
    }
  }

  lemma ClaimedIsRecalled(w: World, step: Step)
    requires Enabled(w, step) && step.Claim?
    ensures step.p in w.recalled
  {
  }

  lemma OldScoped(w: World, s': Reg, r: nat)
    requires Elders(w.reg) && Scoped(w.reg) && Extends(w.reg, s') && r < |w.reg.heap| && s'.heap[r].parent != ""
    ensures Narrower(Selection(s', s'.heap[r].parent), s'.heap[r].tools)
  {
    hide Selection, First, Narrower;
    assert Advances(w.reg.heap[r], s'.heap[r]);
    assert First(w.reg, w.reg.heap[r].parent) < r;
    SelectionStays(w.reg, s', w.reg.heap[r].parent);
  }

  lemma StepScoped(w: World, step: Step)
    requires SoundWorld(w) && FamilyWorld(w) && Surfaced(w) && Scoped(w.reg) && Enabled(w, step) && RootedStep(w, step)
    ensures Scoped(Apply(w, step).reg)
  {
    hide SoundWorld, FamilyWorld, Surfaced, Apply, Enabled, Newborn, Narrower, Selection, First, RootedStep, Extends, Elders;
    var s, s' := w.reg, Apply(w, step).reg;
    StepExtends(w, step);
    StepSizes(w, step);
    FamilyElders(w);
    forall r | 0 <= r < |s'.heap| && s'.heap[r].parent != "" ensures Narrower(Selection(s', s'.heap[r].parent), s'.heap[r].tools) {
      if r < |s.heap| {
        OldScoped(w, s', r);
      } else {
        NewbornScoped(w, step);
        SelectionStays(s, s', s'.heap[r].parent);
      }
    }
  }

  lemma {:induction false} RunScoped(ws: seq<World>, steps: seq<Step>, i: nat)
    requires RootedRun(ws, steps) && FromStart(ws) && i < |ws|
    ensures Scoped(ws[i].reg)
    decreases i
  {
    hide SoundWorld, Apply, Enabled, RootedStep, FamilyWorld, Surfaced;
    if i > 0 {
      hide FromStart, Scoped;
      RunScoped(ws, steps, i - 1);
      RunFamily(ws, steps, i - 1);
      RunSurfaced(ws, steps, i - 1);
      assert Enabled(ws[i - 1], steps[i - 1]) && ws[i - 1 + 1] == Apply(ws[i - 1], steps[i - 1]);
      StepScoped(ws[i - 1], steps[i - 1]);
    }
  }

  lemma SpawnerScope(s: Reg, id: string)
    requires Scoped(s) && Elders(s) && Spawner(s, id) != ""
    ensures Narrower(Selection(s, Spawner(s, id)), Selection(s, id))
  {
  }

  lemma {:induction false} LineageScope(s: Reg, id: string, k: nat)
    requires Scoped(s) && Elders(s) && Lineage(s, id, k) != ""
    ensures Narrower(Selection(s, Lineage(s, id, k)), Selection(s, id))
    decreases k
  {
    hide Scoped, Elders, Spawner, Selection;
    if k > 0 {
      LineageScope(s, id, k - 1);
      SpawnerScope(s, Lineage(s, id, k - 1));
      NarrowerTransitive(Selection(s, Lineage(s, id, k)), Selection(s, Lineage(s, id, k - 1)), Selection(s, id));
    }
  }

  /**
   In every world of every rooted run: whoever is delegated, through any number of workers, below one with
   an explicit selection has an explicit selection too, and it is a subset.
   */
  lemma ScopeShrinksDownTheTree(ws: seq<World>, steps: seq<Step>, i: nat, id: string, ancestor: string)
    requires RootedRun(ws, steps) && FromStart(ws) && i < |ws|
    requires id in Known(ws[i].reg) && ancestor in Known(ws[i].reg) && ancestor != "" && Descendant(ws[i].reg, id, ancestor)
    ensures Narrower(ToolsOf(ws[i].reg, ancestor), ToolsOf(ws[i].reg, id))
  {
    hide SoundWorld, FamilyWorld, Known, ToolsOf, Selection, Climb, Lineage;
    RunFamily(ws, steps, i);
    RunScoped(ws, steps, i);
    var w := ws[i];
    DescendantIsDescends(w, id, ancestor);
    var k :| DescendsIn(w.reg, id, ancestor, k);
    FamilyElders(w);
    LineageScope(w.reg, id, k);
    FamilyKin(w);
    ToolsAreSelection(w, id);
    ToolsAreSelection(w, ancestor);
  }

  lemma FamilyKin(w: World)
    requires SoundWorld(w) && FamilyWorld(w)
    ensures Sound(w.reg) && KinWorld(w)
  {
  }

  /** And what a running descendant can hand on itself lies within that selection. */
  lemma DescendantsOfferLess(ws: seq<World>, steps: seq<Step>, i: nat, id: string, ancestor: string, t: string)
    requires RootedRun(ws, steps) && FromStart(ws) && i < |ws|
    requires id in ws[i].reg.agents && At(ws[i].reg, ws[i].reg.agents[id]).phase == Live
    requires ancestor in Known(ws[i].reg) && ancestor != "" && Descendant(ws[i].reg, id, ancestor)
    requires ToolsOf(ws[i].reg, ancestor).Some? && ws[i].reg.agents[id] in ws[i].surfaces
    requires Selectable(ws[i].surfaces[ws[i].reg.agents[id]].config, t)
    ensures t in ToolsOf(ws[i].reg, ancestor).value
  {
    hide SoundWorld, FamilyWorld, Climb, FromStart, Apply, Enabled, RootedStep, Selectable;
    RunSound(ws, steps, i);
    AgentInside(ws[i], id);
    ScopeShrinksDownTheTree(ws, steps, i, id, ancestor);
    SurfaceIsSelection(ws, steps, i, ws[i].reg.agents[id]);
  }
}
