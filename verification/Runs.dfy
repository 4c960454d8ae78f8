/**
 Whole runs of the registry: any interleaving of its lock-held sections with the steps of worker
 goroutines and with values callers hold between two sections (tokens from a snapshot, a recalled
 conversation, a cancel function read under the lock and called after it).
 */
module Runs {
  import opened Common
  import opened WorkerId
  import opened ToolScope
  import opened Handoff
  import opened Lifecycle

  /** A run context, of one generation of one handle. */
  datatype Ctx = Ctx(ref: Ref, gen: int, cancelled: bool)

  /** What collectionSnapshot hands to wait_agents or close_agent. */
  datatype Token = Token(ref: Ref, gen: int, finished: bool)

  /**
   What a running worker's tool calls are served with: its tools and its own selection, and whether it may
   delegate. A configuration of the host's has no selection of its own.
   */
  datatype Surface = Surface(config: Config, delegates: bool)

  /** cancelling: contexts whose cancel function someone holds and will call. stopping: handles Cleanup or Close will cancel. surfaces: of the generation each handle last started. */
  datatype World = World(
    reg: Reg, ctxs: seq<Ctx>, cancelling: set<nat>, recalled: set<Past>, tokens: set<Token>, stopping: set<Ref>,
    surfaces: map<Ref, Surface>)

  datatype Step =
    | SpawnWorker(role: string, caller: Option<Caller>, base: Surface, names: Names, admit: bool)
    | Start(r: Ref)                                     // startWorker's locked part
    | Stop(r: Ref, outcome: Outcome, result: string)    // completeWorker, then the deferred cancel
    | Snap(r: Ref)                                      // remember: snapshotPast
    | Store(r: Ref)                                     // remember: the archive update
    | CloseDone(r: Ref)                                 // close(done)
    | Prune                                             // Stats
    | RecallId(id: string)
    | Claim(p: Past, base: Surface, admit: bool)
    | Look(r: Ref)                                      // collectionSnapshot, of a handle get returned at some time
    | Settle(t: Token, closing: bool)                   // collectWorker
    | CloseTree(id: string)
    | Cleanup
    | CancelStopped(r: Ref)                             // Handle.Cancel, from Cleanup or Close
    | FireCancel(c: nat)
    | StartHandoff
    | HandoffStop(r: Ref)                               // stopForHandoff
    | UseTool(r: Ref, action: ToolAction)               // a model or tool callback of the worker
    | ForgiveTimeouts                                   // ResetWorkerTimeouts
    | SetCap(cap: int)
    | CloseAll                                          // Close
    | RestoreWorker(id: string, role: string, failures: nat, parent: string, base: Surface, stored: Option<seq<string>>,
                    gen: int, collected: bool, closing: bool)
    | PlantWorker(h: Handle)

  function Start0(cap: int, archiveCap: nat, delegation: bool): World {
    World(EmptyReg(cap, archiveCap, delegation), [], {}, {}, {}, {}, map[])
  }

  /** Some worker of this process has or had the id. */
  predicate Seen(s: Reg, id: string) { exists r :: 0 <= r < |s.heap| && s.heap[r].id == id }

  /** The surface a spawn's selection starts from: its caller's own, or the host's for the manager. */
  function Source(w: World, caller: Option<Caller>, base: Surface): Option<Surface> {
    match caller
    case None => Some(base.(config := base.config.(chosen := None)))
    case Some(c) =>
      if c.id in w.reg.agents && w.reg.agents[c.id] in w.surfaces && w.surfaces[w.reg.agents[c.id]].delegates
      then Some(w.surfaces[w.reg.agents[c.id]]) else None
  }

  /** What spawn_agent's request is granted: the source's surface cut to the names asked for, or nothing. */
  function Granted(w: World, caller: Option<Caller>, base: Surface, names: Names): Option<Surface> {
    match Source(w, caller, base)
    case None => None
    case Some(f) =>
      match Select(f.config, names)
      case Refused(_) => None
      case Ok(config) => Some(f.(config := config))
  }

  /** The surface rebuilt from a recorded selection, on the configuration found for the worker. */
  function Rebuilt(base: Surface, names: Option<seq<string>>): Option<Surface> {
    match Restore(base.config, names)
    case Refused(_) => None
    case Ok(config) => Some(base.(config := config))
  }

  /**
   What the program order of goroutines and callers allows. A token of a finished snapshot is collected,
   one of a running snapshot closed. Restored and planted ids are new.
   */
  predicate Enabled(w: World, step: Step) {
    var s := w.reg;
    match step
    case SpawnWorker(_, caller, _, _, _) => s.counter < MAX_INT64 && (caller.Some? ==> caller.value.id != "")
    case Start(r) => r < |s.heap| && s.heap[r].phase.Live? && s.heap[r].cancel.None?
    case Stop(r, _, _) => r < |s.heap| && s.heap[r].phase.Live? && s.heap[r].cancel.Some?
    case Snap(r) => r < |s.heap| && s.heap[r].phase.Stopped?
    case Store(r) => r < |s.heap| && s.heap[r].phase.Snapped?
    case CloseDone(r) => r < |s.heap| && s.heap[r].phase.Archived?
    case Claim(p, _, _) => p in w.recalled
    case Settle(t, closing) => t in w.tokens && closing == !t.finished
    case CancelStopped(r) => r in w.stopping
    case FireCancel(c) => c in w.cancelling
    case HandoffStop(r) => s.handingOff && r < |s.heap|
    case UseTool(r, _) => r < |s.heap|
    case Look(r) => r < |s.heap|
    case SetCap(cap) => cap > 0
    case RestoreWorker(id, _, _, _, _, _, _, _, _) => id != "" && !Seen(s, id)
    case PlantWorker(h) => h.id != "" && !Seen(s, h.id) && h.gen > 0 && h.phase == Done && h.cancel.None? && h.work == IDLE_WORK
    case _ => true
  }

  function Cancel(ctxs: seq<Ctx>, c: Option<nat>): seq<Ctx> {
    if c.Some? && c.value < |ctxs| then ctxs[c.value := ctxs[c.value].(cancelled := true)] else ctxs
  }

  /** The cancel functions closeSubtree reads: of the handles it closes that still run. */
  function SubtreeCancels(s: Reg, ids: set<string>): set<nat> {
    set id | id in Reachable(s) && id in ids && !IsDone(At(s, Reachable(s)[id])) && At(s, Reachable(s)[id]).cancel.Some?
      :: At(s, Reachable(s)[id]).cancel.value
  }

  function Running(s: Reg): set<Ref> {
    set id | id in s.agents && !IsDone(At(s, s.agents[id])) :: s.agents[id]
  }

  function CapturedBySettle(s: Reg, t: Token, closing: bool): set<nat> {
    if closing && Collectable(s, t.ref, t.gen) && At(s, t.ref).cancel.Some? then {At(s, t.ref).cancel.value} else {}
  }

  function RunContext(w: World, r: Ref): World {
    var h := At(w.reg, r);
    w.(reg := Put(w.reg, r, h.(cancel := Some(|w.ctxs|))),
       ctxs := w.ctxs + [Ctx(r, h.gen, h.work.handoff.cancelled || h.closeRequested)])
  }

  function StopForHandoff(w: World, r: Ref): World {
    var h := At(w.reg, r);
    if Finished(h) then w
    else w.(reg := Put(w.reg, r, h.(work := h.work.(handoff := h.work.handoff.(cancelled := true)))),
            cancelling := w.cancelling + if h.cancel.Some? then {h.cancel.value} else {})
  }

  /** An admitted attempt starts its generation with this surface; without one the registry is never asked. */
  function AfterAttempt(w: World, a: Attempt, surface: Option<Surface>): World {
    if a.Admitted? && surface.Some? then w.(reg := a.reg, surfaces := w.surfaces[a.ref := surface.value]) else w
  }

  /** The admission spawn_agent asks for once its request was granted. */
  function SpawnAttempt(w: World, role: string, caller: Option<Caller>, granted: Option<Surface>, admit: bool): Attempt {
    match granted
    case None => Denied(WidensScope)
    case Some(f) => Spawn(w.reg, role, caller, f.delegates, f.config.chosen, admit)
  }

  /** The selection a restored worker is claimed with. */
  function RestoredTools(step: Step): Option<seq<string>>
    requires step.RestoreWorker?
  {
    match Rebuilt(step.base, step.stored)
    case None => None
    case Some(f) => f.config.chosen
  }

  function Apply(w: World, step: Step): World {
    var s := w.reg;
    match step
    case SpawnWorker(role, caller, base, names, admit) =>
      var granted := Granted(w, caller, base, names);
      AfterAttempt(w, SpawnAttempt(w, role, caller, granted, admit), granted)
    case Start(r) => RunContext(w, r)
    case Stop(r, o, result) =>
      w.(reg := Put(s, r, Complete(At(s, r), o, result)), ctxs := Cancel(w.ctxs, At(s, r).cancel))
    case Snap(r) => w.(reg := Put(s, r, At(s, r).(phase := Snapped(SnapshotPast(At(s, r))))))
    case Store(r) =>
      (match At(s, r).phase
       case Snapped(p) => w.(reg := Remember(Put(s, r, At(s, r).(phase := Archived)), p))
       case _ => w)
    case CloseDone(r) => w.(reg := Put(s, r, At(s, r).(phase := Done)))
    case Prune => w.(reg := Stats(s))
    case RecallId(id) =>
      (match Recall(s, id)
       case Found(p) => w.(recalled := w.recalled + {p})
       case NotFound(_) => w)
    case Claim(p, base, admit) => AfterAttempt(w, ClaimForResume(s, p, admit), Rebuilt(base, p.tools))
    case Look(r) => w.(tokens := w.tokens + {Token(r, At(s, r).gen, IsDone(At(s, r)))})
    case Settle(t, closing) =>
      w.(reg := Collect(s, t.ref, t.gen, closing), cancelling := w.cancelling + CapturedBySettle(s, t, closing))
    case CloseTree(id) =>
      if id !in Reachable(s) && id !in s.past then w
      else w.(reg := CloseSubtree(s, id), cancelling := w.cancelling + SubtreeCancels(s, Subtree(s, id)))
    case Cleanup => w.(reg := CleanupMarks(s), stopping := w.stopping + Running(s))
    case CancelStopped(r) => w.(ctxs := Cancel(w.ctxs, At(s, r).cancel), stopping := w.stopping - {r})
    case FireCancel(c) => w.(ctxs := Cancel(w.ctxs, Some(c)), cancelling := w.cancelling - {c})
    case StartHandoff => w.(reg := BeginHandoff(s))
    case HandoffStop(r) => StopForHandoff(w, r)
    case UseTool(r, action) => w.(reg := Put(s, r, At(s, r).(work := Act(s.handingOff, At(s, r).work, action))))
    case ForgiveTimeouts => w.(reg := ResetTimeouts(s))
    case SetCap(cap) => w.(reg := s.(cap := cap))
    case CloseAll => w.(reg := CloseRegistry(s), stopping := w.stopping + set id | id in s.agents :: s.agents[id])
    case RestoreWorker(id, role, failures, parent, base, stored, gen, collected, closing) =>
      (match ClaimForRestore(s, id, role, failures, parent, RestoredTools(step))
       case Admitted(s', r) =>
         AfterAttempt(w, Admitted(RestoreCollection(s', r, gen, collected, closing), r), Rebuilt(base, stored))
       case Denied(_) => w)
    case PlantWorker(h) =>
      (match Plant(s, h)
       case Admitted(s', r) => w.(reg := Remember(s', SnapshotPast(h)))
       case Denied(_) => w)
  }

  /** A run: the worlds it passes through, each made from the one before by an enabled step. */
  predicate IsRun(ws: seq<World>, steps: seq<Step>) {
    && |ws| == |steps| + 1
    && forall i :: 0 <= i < |steps| ==> Enabled(ws[i], steps[i]) && ws[i + 1] == Apply(ws[i], steps[i])
  }

  ghost predicate FromStart(ws: seq<World>) {
    ws != [] && exists cap, archiveCap, delegation :: cap > 0 && ws[0] == Start0(cap, archiveCap, delegation)
  }

  // ---------- what runs reach ----------

  /** w' is the end of a run that begins with w. */
  ghost predicate Leads(w: World, w': World) {
    exists ws, steps :: IsRun(ws, steps) && ws[0] == w && ws[|steps|] == w'
  }

  lemma LeadsOn(w: World, w1: World, step: Step, w2: World)
    requires Leads(w, w1) && Enabled(w1, step) && Apply(w1, step) == w2
    ensures Leads(w, w2)
  {
    hide Apply, Enabled;
    var ws, steps :| IsRun(ws, steps) && ws[0] == w && ws[|steps|] == w1;
    assert IsRun(ws + [w2], steps + [step]);
  }

  lemma LeadsFrom(w: World)
    ensures Leads(w, w)
  {
    assert IsRun([w], []);
  }
}
