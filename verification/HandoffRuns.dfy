/**
 The handoff over whole runs (handoff.go:72-83, 188-215, 239-269). Once the handoff began no call is
 admitted, a call leaves the in-flight set by its own success and in no other way, and the replay of a
 checkpoint taken at any later time answers every call still in flight with the unknown outcome.
 */
module HandoffRuns {
  import opened Common
  import opened Replay
  import opened ReplayProtocol
  import opened Handoff
  import opened ToolScope
  import opened WorkerId
  import opened Lifecycle
  import opened Runs
  import opened Soundness
  import opened Settlement
  import Admission

  // ---------- the replay of a checkpoint ----------

  /**
   No answer in the replay of a checkpoint confirms a call in flight: every tool message with its id says
   the outcome is unknown, and so does every receipt of it. Any other answer is a tool message of the
   worker's own history, word for word, or says unknown for a call nobody answered.
   */
  lemma ReplayInventsNoOutcome(task: Body, w: Work)
    requires w.handoff.requested
    ensures var out := Replayed(task, Checkpoint(w));
            && (forall k :: 0 <= k < |out| && out[k].role == Tool ==>
                  if out[k].callId in w.handoff.inFlight then out[k].content == UNKNOWN_OUTCOME
                  else out[k].content == UNKNOWN_OUTCOME || out[k] in w.history)
            && (forall k :: 0 <= k < |out| && Items(Checkpoint(w))[k].Historic? ==>
                  exists m :: m in Checkpoint(w) && m.role == Tool && out[k] == HistoricalToolResult(m)
                              && (m.callId in w.handoff.inFlight ==> m.content == UNKNOWN_OUTCOME))
  {
    hide Run, Seal, Awaiting;
    var h := Checkpoint(w);
    ItemsInRange(h);
    ReplayLossless(h);
    var items, out := Items(h), Replayed(task, h);
    forall k | 0 <= k < |out| && items[k].Historic?
      ensures exists m :: m in h && m.role == Tool && out[k] == HistoricalToolResult(m)
                          && (m.callId in w.handoff.inFlight ==> m.content == UNKNOWN_OUTCOME)
    {
      assert items[k] in items;
      assert Accounted(items, h, items[k].at);
      assert h[items[k].at] in h;
    }
    forall k | 0 <= k < |out| && out[k].role == Tool
      ensures if out[k].callId in w.handoff.inFlight then out[k].content == UNKNOWN_OUTCOME
              else out[k].content == UNKNOWN_OUTCOME || out[k] in w.history
    {
      assert out[k] == Render(items[k], task, h);
    }
  }

  /** A result whose call is not in flight keeps its text: it appears once, as it was or as a receipt of itself. */
  lemma ReplayKeepsConfirmed(task: Body, w: Work, i: nat)
    requires i < |w.history| && w.history[i].role == Tool && !(w.handoff.requested && w.history[i].callId in w.handoff.inFlight)
    ensures var out, items := Replayed(task, Checkpoint(w)), Items(Checkpoint(w));
            exists k :: 0 <= k < |out| && k < |items|
              && out[k] == (if Awaiting(Checkpoint(w), i, w.history[i].callId) then w.history[i] else HistoricalToolResult(w.history[i]))
              && (items[k] == Kept(i) || items[k] == Historic(i))
              && forall q :: 0 <= q < |items| && (items[q] == Kept(i) || items[q] == Historic(i)) ==> q == k
  {
    hide Run, Seal, Awaiting;
    var h := Checkpoint(w);
    ItemsInRange(h);
    ReplayLossless(h);
    var items, out := Items(h), Replayed(task, h);
    assert Accounted(items, h, i);
    var item := if Awaiting(h, i, h[i].callId) then Kept(i) else Historic(i);
    var k :| 0 <= k < |items| && items[k] == item;
    assert out[k] == Render(items[k], task, h);
    forall q | 0 <= q < |items| && (items[q] == Kept(i) || items[q] == Historic(i)) ensures q == k {
      assert items[q] in items;
    }
  }

  // ---------- no other step touches a worker's calls ----------

  /** The call of handle r with this id succeeds in this step. */
  predicate Succeeds(step: Step, r: Ref, callId: string) {
    step.UseTool? && step.r == r && step.action.FinishTool? && step.action.callId == callId && !step.action.failed
  }

  predicate SameCalls(h: Handle, h': Handle) { h'.gen == h.gen ==> h'.work.handoff == h.work.handoff }

  /** The handle whose handoff state a step is about. */
  function Handled(step: Step): Option<Ref> {
    if step.UseTool? || step.HandoffStop? then Some(step.r) else None
  }

  ghost predicate CallsStay(s: Reg, s': Reg, but: Option<Ref>) {
    |s.heap| <= |s'.heap| && forall r :: 0 <= r < |s.heap| && but != Some(r) ==> SameCalls(s.heap[r], s'.heap[r])
  }

  lemma PrefixCalls(s: Reg, s': Reg)
    requires s.heap <= s'.heap
    ensures CallsStay(s, s', None)
  {
  }

  lemma SingleCalls(w: World, step: Step)
    requires Enabled(w, step) && Single(step)
    ensures CallsStay(w.reg, Apply(w, step).reg, Handled(step))
  {
    hide Apply, Act;
    SingleIsPut(w, step);
  }

  lemma BulkCalls(w: World, step: Step)
    requires InPlaceBulk(step) && !step.StartHandoff?
    ensures CallsStay(w.reg, Apply(w, step).reg, None)
  {
    match step
    case Cleanup => assert CallsStay(w.reg, CleanupMarks(w.reg), None);
    case ForgiveTimeouts => assert CallsStay(w.reg, ResetTimeouts(w.reg), None);
    case SetCap(cap) =>
  }

  lemma CollectCalls(s: Reg, t: Token, closing: bool)
    ensures CallsStay(s, Collect(s, t.ref, t.gen, closing), None)
  {
  }

  lemma CloseCalls(s: Reg, root: string)
    ensures CallsStay(s, CloseSubtree(s, root), None)
  {
    hide Subtree, ClosePast;
    CloseHandlesAt(s, Subtree(s, root));
  }

  lemma RenewCalls(s: Reg, r: Ref)
    ensures CallsStay(s, Renewed(s, r), None)
  {
    hide NotePending;
    RenewHeap(s, r);
  }

  lemma RenewHeap(s: Reg, r: Ref)
    ensures Renewed(s, r).heap == if r < |s.heap| then s.heap[r := Reset(s.heap[r])] else s.heap
  {
    hide Reset, NotePending;
    NoteHeap(Put(s, r, Reset(At(s, r))), r);
  }

  lemma NoteHeap(s: Reg, r: Ref)
    ensures NotePending(s, r).heap == s.heap
  {
  }

  lemma StoreCalls(w: World, r: Ref)
    requires Enabled(w, Store(r))
    ensures CallsStay(w.reg, Apply(w, Store(r)).reg, None)
  {
    hide Remember;
    StoreStands(w, r);
  }

  /** Within a generation only the worker's own callbacks, a handoff stop and the start of the handoff touch its handoff state. */
  lemma StepCalls(w: World, step: Step)
    requires SoundWorld(w) && Enabled(w, step) && !step.StartHandoff?
    ensures CallsStay(w.reg, Apply(w, step).reg, Handled(step))
  {
    hide SoundWorld, Remember, Collect, CloseSubtree, Renewed, CallsStay, Newborn, Stats, CloseRegistry;
    if InPlaceBulk(step) { BulkCalls(w, step); }
    else if Single(step) { SingleCalls(w, step); }
    else if ReadsOnly(step) { hide Apply; ReadsNothing(w, step); PrefixCalls(w.reg, w.reg); }
    else if Enlists(step) {
      hide Apply;
      EnlistingShape(w, step);
      PrefixCalls(w.reg, w.reg);
      if Enlisted(w.reg, Apply(w, step).reg, step) { PrefixCalls(w.reg, Apply(w, step).reg); }
      if step.Claim? && step.p.id in w.reg.agents { RenewCalls(w.reg, w.reg.agents[step.p.id]); }
    } else {
      match step
      case Store(r) => StoreCalls(w, r);
      case Prune => StatsHeap(w.reg); PrefixCalls(w.reg, Stats(w.reg));
      case Settle(t, closing) => CollectCalls(w.reg, t, closing);
      case CloseTree(id) => CloseCalls(w.reg, id); PrefixCalls(w.reg, w.reg);
      case CloseAll => ClosedHeap(w.reg); PrefixCalls(w.reg, CloseRegistry(w.reg));
    }
  }

  // ---------- after the handoff began ----------

  lemma EnlistHandoff(s: Reg, h: Handle)
    ensures Enlist(s, h).handingOff == s.handingOff
  {
  }

  /** Nothing is spawned, resumed or restored during a handoff. */
  lemma NoneStarted(w: World, step: Step)
    requires SoundWorld(w) && Enabled(w, step) && w.reg.handingOff && (step.SpawnWorker? || step.Claim? || step.RestoreWorker?)
    ensures Apply(w, step).reg == w.reg
  {
    hide Sound, Seen, TokenHolds, SnapsMatch, TrailingSeq, Spawn, ClaimForResume, Enlist, ScopeFits, LiveCount;
    match step
    case SpawnWorker(_, _, _, _, _) => SpawnStep(w, step);
    case Claim(p, _, admit) => ClaimShape(w.reg, p, admit);
    case RestoreWorker(_, _, _, _, _, _, _, _, _) =>
  }

  lemma HandingOffStays(w: World, step: Step)
    requires SoundWorld(w) && Enabled(w, step) && w.reg.handingOff
    ensures Apply(w, step).reg.handingOff
  {
    hide Sound, Seen, TokenHolds, SnapsMatch, TrailingSeq, Remember, Get, Recall, Complete, CloseHandles, ClosePast, Subtree, Act;
    if step.SpawnWorker? || step.Claim? || step.RestoreWorker? { hide Apply; NoneStarted(w, step); }
    else if step.PlantWorker? { PlantHandoff(w, step); }
    else if step.Store? { RememberRoster(Put(w.reg, step.r, At(w.reg, step.r).(phase := Archived)), w.reg.heap[step.r].phase.past); }
  }

  lemma PlantHandoff(w: World, step: Step)
    requires SoundWorld(w) && Enabled(w, step) && step.PlantWorker?
    ensures Apply(w, step).reg.handingOff == w.reg.handingOff
  {
    hide Sound, Seen, TokenHolds, SnapsMatch, TrailingSeq, Remember, Plant, Enlist, NoteId;
    PlantShape(w, step);
    NoteIdFields(w.reg, step.h.id);
    EnlistHandoff(NoteId(w.reg, step.h.id), step.h);
    RememberRoster(Enlist(NoteId(w.reg, step.h.id), step.h), SnapshotPast(step.h));
  }

  lemma GenStays(w: World, step: Step, r: Ref)
    requires SoundWorld(w) && Enabled(w, step) && w.reg.handingOff && r < |w.reg.heap| && r < |Apply(w, step).reg.heap|
    ensures Apply(w, step).reg.heap[r].gen == w.reg.heap[r].gen
  {
    hide SoundWorld, Apply;
    StepStands(w, step);
    if step.Claim? { NoneStarted(w, step); }
    else if step.Stop? || step.Snap? || step.Store? || step.CloseDone? { ProgressKeepsGen(w, step); }
  }

  /** One tool callback: nothing is admitted, and only a success of the call itself takes it out. */
  lemma UsesTool(w: World, step: Step)
    requires Enabled(w, step) && step.UseTool? && w.reg.handingOff
    ensures var f, f' := w.reg.heap[step.r].work.handoff, Apply(w, step).reg.heap[step.r].work.handoff;
            && (f.requested ==> f'.requested)
            && (forall c :: c in f'.inFlight <==> c in f.inFlight && !Succeeds(step, step.r, c))
            && (forall c :: c in f'.inFlight ==> f'.inFlight[c] == f.inFlight[c])
  {
  }

  lemma StepInFlight(w: World, step: Step, r: Ref)
    requires SoundWorld(w) && Enabled(w, step) && w.reg.handingOff && r < |w.reg.heap|
    ensures r < |Apply(w, step).reg.heap|
    ensures var f, f' := w.reg.heap[r].work.handoff, Apply(w, step).reg.heap[r].work.handoff;
            && (f.requested ==> f'.requested)
            && (forall c :: c in f'.inFlight <==> c in f.inFlight && !Succeeds(step, r, c))
            && (forall c :: c in f'.inFlight ==> f'.inFlight[c] == f.inFlight[c])
  {
    hide SoundWorld, Apply, Enabled;
    StepExtends(w, step);
    GenStays(w, step, r);
    if step.StartHandoff? || (step.HandoffStop? && step.r == r) {
      HandoffKeepsCalls(w, step, r);
    } else {
      StepCalls(w, step);
      if step.UseTool? && step.r == r { UsesTool(w, step); }
      else { assert SameCalls(w.reg.heap[r], Apply(w, step).reg.heap[r]); }
    }
  }

  /** The start of the handoff asks, and a stop marks; neither touches a call, nor whether the request was read. */
  lemma HandoffKeepsCalls(w: World, step: Step, r: Ref)
    requires Enabled(w, step) && (step.StartHandoff? || step.HandoffStop?) && r < |w.reg.heap|
    ensures r < |Apply(w, step).reg.heap|
    ensures var f, f' := w.reg.heap[r].work.handoff, Apply(w, step).reg.heap[r].work.handoff;
            && f'.inFlight == f.inFlight && f'.read == f.read && (f.requested ==> f'.requested)
            && (step.HandoffStop? ==> f'.requested == f.requested)
  {
    if step.HandoffStop? { hide Apply; SingleIsPut(w, step); } else { HandoffOnlyAsks(w.reg, r); }
  }

  lemma HandoffOnlyAsks(s: Reg, r: Ref)
    requires r < |s.heap|
    ensures r < |BeginHandoff(s).heap|
    ensures var f, f' := s.heap[r].work.handoff, BeginHandoff(s).heap[r].work.handoff;
            f'.inFlight == f.inFlight && f'.read == f.read && (f.requested ==> f'.requested)
  {
  }

  /**
   From the moment the handoff began, in every later world of every run: a call is in flight exactly if it
   was in flight then and has not succeeded since. The set never grows, and no failure, cancellation,
   settlement, pruning or end of the worker takes a call out of it.
   */
  lemma {:induction false} InFlightOnlySucceeds(ws: seq<World>, steps: seq<Step>, i: nat, k: nat, r: Ref, c: string)
    requires IsRun(ws, steps) && FromStart(ws) && i <= k < |ws| && ws[i].reg.handingOff && r < |ws[i].reg.heap|
    ensures ws[k].reg.handingOff && r < |ws[k].reg.heap|
    ensures var f, f' := ws[i].reg.heap[r].work.handoff, ws[k].reg.heap[r].work.handoff;
            && (f.requested ==> f'.requested)
            && (c in f'.inFlight <==> c in f.inFlight && forall j :: i <= j < k ==> !Succeeds(steps[j], r, c))
            && (c in f'.inFlight ==> f'.inFlight[c] == f.inFlight[c])
    decreases k
  {
    hide Apply, Enabled, SoundWorld, FromStart, Succeeds;
    if i < k {
      InFlightOnlySucceeds(ws, steps, i, k - 1, r, c);
      RunSound(ws, steps, k - 1);
      assert Enabled(ws[k - 1], steps[k - 1]) && ws[k - 1 + 1] == Apply(ws[k - 1], steps[k - 1]);
      HandingOffStays(ws[k - 1], steps[k - 1]);
      StepInFlight(ws[k - 1], steps[k - 1], r);
    }
  }

  /** BeginHandoff asks every unfinished worker of an open registry, and stops admission. */
  lemma HandoffAsksEveryone(w: World, r: Ref)
    requires SoundWorld(w) && !w.reg.closed && r < |w.reg.heap| && !Finished(w.reg.heap[r])
    ensures var s' := Apply(w, StartHandoff).reg;
            s'.handingOff && r < |s'.heap| && s'.heap[r].work.handoff.requested
            && s'.heap[r].work.handoff.inFlight == w.reg.heap[r].work.handoff.inFlight
  {
    hide Seen, TokenHolds, SnapsMatch;
    SoundParts(w.reg);
  }

  /**
   Put together: a call in flight when the handoff began, that has not succeeded since, is answered by the
   unknown outcome in the replay of every checkpoint taken later, whatever its runner reported.
   */
  lemma HandoffNeverInventsOutcome(ws: seq<World>, steps: seq<Step>, i: nat, k: nat, r: Ref, c: string, task: Body)
    requires IsRun(ws, steps) && FromStart(ws) && i < |steps| && i < k < |ws| && steps[i] == StartHandoff && !ws[i].reg.closed
    requires r < |ws[i].reg.heap| && !Finished(ws[i].reg.heap[r]) && c in ws[i].reg.heap[r].work.handoff.inFlight
    requires forall j :: i < j < k ==> !Succeeds(steps[j], r, c)
    ensures r < |ws[k].reg.heap|
    ensures var out := Replayed(task, Checkpoint(ws[k].reg.heap[r].work));
            && Legal(out)
            && forall m :: m in out && m.role == Tool && m.callId == c ==> m.content == UNKNOWN_OUTCOME
  {
    hide Apply, Enabled, SoundWorld, FromStart, Succeeds, Replayed, Checkpoint, Legal;
    RunSound(ws, steps, i);
    assert ws[i + 1] == Apply(ws[i], steps[i]);
    HandoffAsksEveryone(ws[i], r);
    InFlightOnlySucceeds(ws, steps, i + 1, k, r, c);
    var w := ws[k].reg.heap[r].work;
    ReplayInventsNoOutcome(task, w);
    ReplayLegal(task, Checkpoint(w));
  }

  // ---------- what a checkpoint says of a call in flight ----------

  /** In this step the call is let in, on this handle, as the checkpoint tells it. */
  predicate Began(w: World, step: Step, r: Ref, t: ToolCheckpoint) {
    && !w.reg.handingOff && step.UseTool? && step.r == r && step.action.BeginTool?
    && step.action.callId == t.callId && step.action.name == t.name && step.action.arguments == t.arguments
  }

  predicate Begins(w: World, step: Step, r: Ref, c: string) {
    !w.reg.handingOff && step.UseTool? && step.r == r && step.action.BeginTool? && step.action.callId == c
  }

  /** A step leaves a call in flight as it was, or lets it in. */
  lemma StepCheckpoint(w: World, step: Step, r: Ref, c: string)
    requires SoundWorld(w) && Enabled(w, step) && r < |Apply(w, step).reg.heap| && c in Apply(w, step).reg.heap[r].work.handoff.inFlight
    ensures r < |w.reg.heap| && Apply(w, step).reg.heap[r].gen == w.reg.heap[r].gen
    ensures var t, f := Apply(w, step).reg.heap[r].work.handoff.inFlight[c], w.reg.heap[r].work.handoff.inFlight;
            if Begins(w, step, r, c) then Began(w, step, r, t) && t.callId == c
            else c in f && f[c] == t && !Succeeds(step, r, c)
  {
    hide SoundWorld, Apply, Act, Enabled;
    if r >= |w.reg.heap| || Apply(w, step).reg.heap[r].gen != w.reg.heap[r].gen {
      NothingInFlight(w, step, r);
    } else if step.UseTool? && step.r == r {
      UsesOneTool(w, step);
    } else if step.StartHandoff? || (step.HandoffStop? && step.r == r) {
      HandoffKeepsCalls(w, step, r);
    } else {
      StepCalls(w, step);
      assert SameCalls(w.reg.heap[r], Apply(w, step).reg.heap[r]);
    }
  }

  lemma UsesOneTool(w: World, step: Step)
    requires Enabled(w, step) && step.UseTool?
    ensures var f, f' := w.reg.heap[step.r].work.handoff.inFlight, Apply(w, step).reg.heap[step.r].work.handoff.inFlight;
            forall c :: c in f' ==> if Begins(w, step, step.r, c) then Began(w, step, step.r, f'[c]) && f'[c].callId == c
                                    else c in f && f[c] == f'[c] && !Succeeds(step, step.r, c)
  {
    hide Apply;
    SingleIsPut(w, step);
  }

  /** A generation just started, or planted, has no call in flight. */
  lemma NothingInFlight(w: World, step: Step, r: Ref)
    requires SoundWorld(w) && Enabled(w, step) && r < |Apply(w, step).reg.heap|
    requires r >= |w.reg.heap| || Apply(w, step).reg.heap[r].gen != w.reg.heap[r].gen
    ensures Apply(w, step).reg.heap[r].work.handoff.inFlight == map[]
  {
    hide SoundWorld, Apply;
    if step.PlantWorker? {
      StepStands(w, step);
      StepSizes(w, step);
    } else {
      hide Enabled;
      Admission.EveryGenerationStartsClean(w, step, r);
    }
  }

  /**
   In every world of every run, whatever a checkpoint lists as in flight was let in, in this generation of
   this worker and before the handoff began, under this name and id and with these arguments; and since then
   it neither succeeded nor was begun anew.
   */
  lemma {:induction false} InFlightIsWhatBegan(ws: seq<World>, steps: seq<Step>, k: nat, r: Ref, c: string)
    requires IsRun(ws, steps) && FromStart(ws) && k < |ws| && r < |ws[k].reg.heap| && c in ws[k].reg.heap[r].work.handoff.inFlight
    ensures ws[k].reg.heap[r].work.handoff.inFlight[c].callId == c
    ensures exists i :: 0 <= i < k && r < |ws[i].reg.heap| && ws[i].reg.heap[r].gen == ws[k].reg.heap[r].gen
              && Began(ws[i], steps[i], r, ws[k].reg.heap[r].work.handoff.inFlight[c])
              && forall j :: i < j < k ==> !Succeeds(steps[j], r, c) && !Begins(ws[j], steps[j], r, c)
    decreases k
  {
    hide Apply, Enabled, SoundWorld, Succeeds, Began, Begins;
    if k > 0 {
      hide FromStart;
      RunSound(ws, steps, k - 1);
      assert Enabled(ws[k - 1], steps[k - 1]) && ws[k - 1 + 1] == Apply(ws[k - 1], steps[k - 1]);
      StepCheckpoint(ws[k - 1], steps[k - 1], r, c);
      var t := ws[k].reg.heap[r].work.handoff.inFlight[c];
      if Begins(ws[k - 1], steps[k - 1], r, c) {
        assert Began(ws[k - 1], steps[k - 1], r, t);
      } else {
        InFlightIsWhatBegan(ws, steps, k - 1, r, c);
        var i :| 0 <= i < k - 1 && r < |ws[i].reg.heap| && ws[i].reg.heap[r].gen == ws[k - 1].reg.heap[r].gen
                 && Began(ws[i], steps[i], r, t)
                 && forall j :: i < j < k - 1 ==> !Succeeds(steps[j], r, c) && !Begins(ws[j], steps[j], r, c);
      }
    }
  }

  // ---------- without a handoff nobody is cut by one ----------

  /** A worker read the request only if it was asked, and is asked or stopped only once a handoff began. */
  predicate AskedInOrder(s: Reg, f: WorkerHandoff) {
    (f.read ==> f.requested) && (f.requested || f.cancelled ==> s.handingOff)
  }

  ghost predicate AskedWorld(s: Reg) { forall r :: 0 <= r < |s.heap| ==> AskedInOrder(s, s.heap[r].work.handoff) }

  lemma UsesOneAsk(w: World, step: Step)
    requires Enabled(w, step) && (step.UseTool? || step.HandoffStop?) && AskedInOrder(w.reg, w.reg.heap[step.r].work.handoff)
    ensures step.r < |Apply(w, step).reg.heap| && AskedInOrder(Apply(w, step).reg, Apply(w, step).reg.heap[step.r].work.handoff)
  {
    hide Apply;
    SingleIsPut(w, step);
  }

  lemma AsksEveryone(w: World, r: Ref)
    requires r < |w.reg.heap| && AskedInOrder(w.reg, w.reg.heap[r].work.handoff)
    ensures r < |Apply(w, StartHandoff).reg.heap|
    ensures AskedInOrder(Apply(w, StartHandoff).reg, Apply(w, StartHandoff).reg.heap[r].work.handoff)
  {
  }

  /** A generation just started, or planted, was asked nothing. */
  lemma NothingAsked(w: World, step: Step, r: Ref)
    requires SoundWorld(w) && Enabled(w, step) && r < |Apply(w, step).reg.heap|
    requires r >= |w.reg.heap| || Apply(w, step).reg.heap[r].gen != w.reg.heap[r].gen
    ensures var f := Apply(w, step).reg.heap[r].work.handoff; !f.requested && !f.read && !f.cancelled
  {
    hide SoundWorld, Apply;
    if step.PlantWorker? {
      StepStands(w, step);
      StepSizes(w, step);
    } else {
      hide Enabled;
      Admission.EveryGenerationStartsClean(w, step, r);
    }
  }

  lemma StepAsked(w: World, step: Step, r: Ref)
    requires SoundWorld(w) && Enabled(w, step) && AskedWorld(w.reg) && r < |Apply(w, step).reg.heap|
    ensures AskedInOrder(Apply(w, step).reg, Apply(w, step).reg.heap[r].work.handoff)
  {
    hide SoundWorld, Apply, Enabled;
    if r >= |w.reg.heap| || Apply(w, step).reg.heap[r].gen != w.reg.heap[r].gen {
      NothingAsked(w, step, r);
    } else {
      assert AskedInOrder(w.reg, w.reg.heap[r].work.handoff);
      if step.StartHandoff? { AsksEveryone(w, r); }
      else if Handled(step) == Some(r) { UsesOneAsk(w, step); }
      else {
        StepCalls(w, step);
        assert SameCalls(w.reg.heap[r], Apply(w, step).reg.heap[r]);
        if w.reg.handingOff { HandingOffStays(w, step); }
      }
    }
  }

  lemma {:induction false} RunAsked(ws: seq<World>, steps: seq<Step>, k: nat)
    requires IsRun(ws, steps) && FromStart(ws) && k < |ws|
    ensures AskedWorld(ws[k].reg)
    decreases k
  {
    hide Apply, Enabled, SoundWorld;
    if k > 0 {
      hide FromStart;
      RunAsked(ws, steps, k - 1);
      RunSound(ws, steps, k - 1);
      assert Enabled(ws[k - 1], steps[k - 1]) && ws[k - 1 + 1] == Apply(ws[k - 1], steps[k - 1]);
      forall r | 0 <= r < |ws[k].reg.heap| ensures AskedInOrder(ws[k].reg, ws[k].reg.heap[r].work.handoff) {
        StepAsked(ws[k - 1], steps[k - 1], r);
      }
    }
  }

  /**
   Until a handoff began, no run is cut by one: in every run, a generation that ends before then stands as its
   own outcome says, with its own result.
   */
  lemma OnlyAHandoffCuts(ws: seq<World>, steps: seq<Step>, i: nat)
    requires IsRun(ws, steps) && FromStart(ws) && i < |steps| && steps[i].Stop? && !ws[i].reg.handingOff
    ensures steps[i].r < |ws[i + 1].reg.heap|
    ensures var h := ws[i + 1].reg.heap[steps[i].r];
            && h.result == steps[i].result && h.phase == Stopped
            && h.err == match steps[i].outcome
                        case Succeeded => NoError
                        case Failed(watchdog) => if watchdog then TimeoutError else RunError
  {
    hide SoundWorld, FromStart;
    RunAsked(ws, steps, i);
    assert Enabled(ws[i], steps[i]) && ws[i + 1] == Apply(ws[i], steps[i]);
    assert AskedInOrder(ws[i].reg, ws[i].reg.heap[steps[i].r].work.handoff);
  }
}
