/**
 Cancelling a generation that races its own start (settlement.go:65-94, delegation.go:136-191,
 handoff.go:174-186, worker.go:50-65). A close or a stop before, during or after startWorker
 installs the run context is never lost, and reaches no other generation.
 */
module Cancellation {
  import opened Common
  import opened WorkerId
  import opened ToolScope
  import opened Handoff
  import opened Lifecycle
  import opened Runs
  import opened Soundness
  import opened Settlement

  /** The generation was told to stop: closed, or stopped by a handoff. */
  predicate Told(h: Handle) { h.closeRequested || h.work.handoff.cancelled }

  /** A handle's cancel function is of the one context its current generation started. */
  ghost predicate Installed(w: World, r: int) {
    0 <= r < |w.reg.heap| && w.reg.heap[r].cancel.Some? ==>
      var c := w.reg.heap[r].cancel.value;
      c < |w.ctxs| && w.ctxs[c].ref == r && w.ctxs[c].gen == w.reg.heap[r].gen
  }

  /** Someone is about to cancel context c of handle r. */
  predicate Coming(w: World, c: nat, r: Ref) { c in w.cancelling || r in w.stopping }

  /** The context of a generation that is over is cancelled; that of one told to stop is, or is about to be. */
  ghost predicate Kept(w: World, c: int) {
    0 <= c < |w.ctxs| ==>
      var x := w.ctxs[c];
      x.ref < |w.reg.heap| &&
      var h := w.reg.heap[x.ref];
      && x.gen <= h.gen
      && (x.gen < h.gen ==> x.cancelled)
      && (x.gen == h.gen ==>
            h.cancel == Some(c) && (Finished(h) ==> x.cancelled) && (Told(h) ==> x.cancelled || Coming(w, c, x.ref)))
  }

  /** A context is cancelled, or about to be by a settlement or a stop, only if its own generation is over or was told. */
  ghost predicate Deserved(w: World, c: int) {
    0 <= c < |w.ctxs| && (w.ctxs[c].cancelled || c in w.cancelling) ==>
      var x := w.ctxs[c];
      x.ref < |w.reg.heap| && (x.gen < w.reg.heap[x.ref].gen || Finished(w.reg.heap[x.ref]) || Told(w.reg.heap[x.ref]))
  }

  ghost predicate CancelWorld(w: World) { forall i: int :: Installed(w, i) && Kept(w, i) }

  // ---------- what a step does to one handle ----------

  /** Within a generation the cancel function stays, and whoever newly tells it to stop brings the cancellation. */
  predicate Minds(h: Handle, h': Handle, r: Ref, cancelling: set<nat>, stopping: set<Ref>) {
    && (h'.gen == h.gen ==>
          h'.cancel == h.cancel
          && (Told(h') ==> Told(h) || Finished(h) || h.cancel.None? || h.cancel.value in cancelling || r in stopping))
    && (h'.gen != h.gen ==> h'.cancel.None?)
  }

  ghost predicate AllMind(w: World, w': World) {
    && |w.reg.heap| <= |w'.reg.heap|
    && (forall r :: 0 <= r < |w.reg.heap| ==> Minds(w.reg.heap[r], w'.reg.heap[r], r, w'.cancelling, w'.stopping))
    && (forall r :: |w.reg.heap| <= r < |w'.reg.heap| ==> w'.reg.heap[r].cancel.None?)
  }

  lemma SameMinds(w: World, w': World)
    requires w.reg.heap <= w'.reg.heap
    requires forall r :: |w.reg.heap| <= r < |w'.reg.heap| ==> w'.reg.heap[r].cancel.None?
    ensures AllMind(w, w')
  {
  }

  lemma SingleMinds(w: World, step: Step)
    requires Enabled(w, step) && !step.Start? && (Single(step) || ReadsOnly(step))
    ensures AllMind(w, Apply(w, step))
  {
    if ReadsOnly(step) {
      hide Apply;
      ReadsNothing(w, step);
      SameMinds(w, Apply(w, step));
    } else {
      hide Act, Complete;
      SingleIsPut(w, step);
      RewrittenMinds(w, step);
    }
  }

  lemma RewrittenMinds(w: World, step: Step)
    requires Enabled(w, step) && Single(step) && !step.Start?
    ensures Minds(At(w.reg, step.r), Rewritten(w, step), step.r, Apply(w, step).cancelling, Apply(w, step).stopping)
  {
    hide Act;
    if step.UseTool? { ActKeeps(w.reg.handingOff, w.reg.heap[step.r].work, step.action); }
  }

  lemma BulkMinds(w: World, step: Step)
    requires InPlaceBulk(step)
    ensures AllMind(w, Apply(w, step))
  {
    match step
    case Cleanup => CleanupMinds(w);
    case StartHandoff => HandoffMinds(w);
    case ForgiveTimeouts => ForgiveMinds(w);
    case SetCap(cap) =>
  }

  lemma CleanupMinds(w: World)
    ensures AllMind(w, Apply(w, Cleanup))
  {
  }

  lemma HandoffMinds(w: World)
    ensures AllMind(w, Apply(w, StartHandoff))
  {
  }

  lemma ForgiveMinds(w: World)
    ensures AllMind(w, Apply(w, ForgiveTimeouts))
  {
  }

  lemma SettleMinds(w: World, t: Token, closing: bool)
    requires SoundWorld(w) && Enabled(w, Settle(t, closing))
    ensures AllMind(w, Apply(w, Settle(t, closing)))
  {
    hide Sound, Seen;
    assert TokenHolds(w.reg, t);
  }

  lemma CloseTreeMinds(w: World, root: string)
    ensures AllMind(w, Apply(w, CloseTree(root)))
  {
    hide Subtree, ClosePast;
    CloseHandlesAt(w.reg, Subtree(w.reg, root));
  }

  lemma RenewMinds(w: World, w': World, r: Ref)
    requires w'.reg == Renewed(w.reg, r)
    ensures AllMind(w, w')
  {
  }

  lemma BornMinds(w: World, w': World)
    requires Extends(w.reg, w'.reg) && w.reg.heap <= w'.reg.heap
    ensures AllMind(w, w')
  {
    SameMinds(w, w');
  }

  lemma EnlistingMinds(w: World, step: Step)
    requires SoundWorld(w) && Enabled(w, step) && Enlists(step)
    ensures AllMind(w, Apply(w, step))
  {
    hide SoundWorld, Apply, Enabled, Newborn, AllMind, Extends, Renewed;
    EnlistingShape(w, step);
    StepExtends(w, step);
    if Apply(w, step).reg == w.reg || Enlisted(w.reg, Apply(w, step).reg, step) { BornMinds(w, Apply(w, step)); }
    else { RenewMinds(w, Apply(w, step), w.reg.agents[step.p.id]); }
  }

  lemma OtherMinds(w: World, step: Step)
    requires Enabled(w, step) && (step.Store? || step.Prune? || step.CloseAll?)
    ensures AllMind(w, Apply(w, step))
  {
    hide Remember;
    if step.Store? { RememberRoster(Put(w.reg, step.r, At(w.reg, step.r).(phase := Archived)), w.reg.heap[step.r].phase.past); }
  }

  lemma StepMinds(w: World, step: Step)
    requires SoundWorld(w) && Enabled(w, step) && !step.Start?
    ensures AllMind(w, Apply(w, step))
  {
    hide SoundWorld, Apply, Enabled, AllMind;
    if Enlists(step) { EnlistingMinds(w, step); }
    else if InPlaceBulk(step) { BulkMinds(w, step); }
    else if step.Settle? { SettleMinds(w, step.t, step.closing); }
    else if step.CloseTree? { CloseTreeMinds(w, step.id); }
    else if step.Store? || step.Prune? || step.CloseAll? { OtherMinds(w, step); }
    else { SingleMinds(w, step); }
  }

  // ---------- what a step does to the contexts ----------

  /** Contexts are only ever added or cancelled; a cancellation leaves the waiting lists by being carried out. */
  ghost predicate CtxsGrow(w: World, w': World) {
    && |w.ctxs| <= |w'.ctxs|
    && (forall c :: 0 <= c < |w.ctxs| ==>
          w'.ctxs[c].ref == w.ctxs[c].ref && w'.ctxs[c].gen == w.ctxs[c].gen && (w.ctxs[c].cancelled ==> w'.ctxs[c].cancelled))
    && (forall c :: c in w.cancelling && c < |w.ctxs| ==> c in w'.cancelling || w'.ctxs[c].cancelled)
    && (forall r :: r in w.stopping ==>
          (r in w'.stopping || At(w.reg, r).cancel.None?
           || (At(w.reg, r).cancel.value < |w.ctxs| ==> w'.ctxs[At(w.reg, r).cancel.value].cancelled)))
  }

  predicate KeepsCtxs(step: Step) { !step.Start? && !step.Stop? && !step.FireCancel? && !step.CancelStopped? }

  lemma SameCtxs(w: World, step: Step)
    requires KeepsCtxs(step)
    ensures Apply(w, step).ctxs == w.ctxs && w.cancelling <= Apply(w, step).cancelling && w.stopping <= Apply(w, step).stopping
  {
    hide Spawn, ClaimForResume, ClaimForRestore, Plant, Remember, CloseSubtree, Collect, Stats, Recall, Get, Subtree, SubtreeCancels,
      CleanupMarks, BeginHandoff, ResetTimeouts, CloseRegistry, RestoreCollection, CapturedBySettle, Running;
  }

  lemma StepCtxs(w: World, step: Step)
    requires Enabled(w, step)
    ensures CtxsGrow(w, Apply(w, step))
    ensures !step.Start? ==> |Apply(w, step).ctxs| == |w.ctxs|
  {
    if KeepsCtxs(step) { hide Apply; SameCtxs(w, step); }
  }

  // ---------- nothing is lost ----------

  lemma StepInstalled(w: World, step: Step, r: int)
    requires SoundWorld(w) && CancelWorld(w) && Enabled(w, step) && !step.Start?
    ensures Installed(Apply(w, step), r)
  {
    hide SoundWorld, Apply, Enabled, Kept;
    var w' := Apply(w, step);
    StepMinds(w, step);
    StepCtxs(w, step);
    if 0 <= r < |w.reg.heap| {
      assert Installed(w, r);
      assert Minds(w.reg.heap[r], w'.reg.heap[r], r, w'.cancelling, w'.stopping);
    }
  }

  /** A generation stops only by the step that cancels its context. */
  lemma FinishesCancelled(w: World, step: Step, r: int)
    requires SoundWorld(w) && Enabled(w, step) && 0 <= r < |w.reg.heap| && r < |Apply(w, step).reg.heap|
    requires !Finished(w.reg.heap[r]) && w.reg.heap[r].cancel.Some? && w.reg.heap[r].cancel.value < |w.ctxs|
    requires Finished(Apply(w, step).reg.heap[r]) || Apply(w, step).reg.heap[r].gen != w.reg.heap[r].gen
    ensures |Apply(w, step).ctxs| == |w.ctxs| && Apply(w, step).ctxs[w.reg.heap[r].cancel.value].cancelled
  {
    hide Sound, TokenHolds, Seen, SnapsMatch, Remember;
    StepStands(w, step);
    if step.Claim? {
      hide Apply;
      StepExtends(w, step);
      assert Advances(w.reg.heap[r], Apply(w, step).reg.heap[r]);
      ClaimStarts(w, step);
    }
  }

  lemma StepKept(w: World, step: Step, c: int)
    requires SoundWorld(w) && CancelWorld(w) && Enabled(w, step) && !step.Start?
    ensures Kept(Apply(w, step), c)
  {
    hide SoundWorld, Apply, Enabled;
    var w' := Apply(w, step);
    StepMinds(w, step);
    StepCtxs(w, step);
    StepExtends(w, step);
    if 0 <= c < |w'.ctxs| {
      assert Kept(w, c);
      var r := w.ctxs[c].ref;
      var h, h' := w.reg.heap[r], w'.reg.heap[r];
      assert Minds(h, h', r, w'.cancelling, w'.stopping);
      assert Advances(h, h');
      if w.ctxs[c].gen == h.gen && !Finished(h) && (Finished(h') || h'.gen != h.gen) { FinishesCancelled(w, step, r); }
    }
  }

  /** startWorker's locked part: a generation told to stop before it starts gets a context born cancelled. */
  lemma StartKept(w: World, r: Ref, i: int)
    requires SoundWorld(w) && CancelWorld(w) && Enabled(w, Start(r))
    ensures Installed(Apply(w, Start(r)), i) && Kept(Apply(w, Start(r)), i)
  {
    hide SoundWorld;
    assert Installed(w, i) && Kept(w, i);
  }

  lemma StepCancelWorld(w: World, step: Step)
    requires SoundWorld(w) && CancelWorld(w) && Enabled(w, step)
    ensures CancelWorld(Apply(w, step))
  {
    hide SoundWorld, Apply, Enabled, Installed, Kept;
    forall i: int ensures Installed(Apply(w, step), i) && Kept(Apply(w, step), i) {
      if step.Start? { StartKept(w, step.r, i); }
      else { StepInstalled(w, step, i); StepKept(w, step, i); }
    }
  }

  lemma StartCancelWorld(ws: seq<World>)
    requires FromStart(ws)
    ensures CancelWorld(ws[0])
  {
  }

  lemma {:induction false} RunCancels(ws: seq<World>, steps: seq<Step>, i: nat)
    requires IsRun(ws, steps) && FromStart(ws) && i < |ws|
    ensures CancelWorld(ws[i])
    decreases i
  {
    hide SoundWorld, Apply, Enabled;
    if i == 0 {
      StartCancelWorld(ws);
    } else {
      hide CancelWorld, FromStart;
      RunCancels(ws, steps, i - 1);
      RunSound(ws, steps, i - 1);
      assert Enabled(ws[i - 1], steps[i - 1]) && ws[i - 1 + 1] == Apply(ws[i - 1], steps[i - 1]);
      StepCancelWorld(ws[i - 1], steps[i - 1]);
    }
  }

  /** Generation gen of handle r is over, or was told to stop. */
  predicate StoppedOrTold(s: Reg, r: Ref, gen: int) {
    r < |s.heap| && (s.heap[r].gen > gen || (s.heap[r].gen == gen && (Finished(s.heap[r]) || Told(s.heap[r]))))
  }

  lemma {:induction false} StaysTold(ws: seq<World>, steps: seq<Step>, i: nat, k: nat, r: Ref, gen: int)
    requires IsRun(ws, steps) && FromStart(ws) && i <= k < |ws| && StoppedOrTold(ws[i].reg, r, gen)
    ensures StoppedOrTold(ws[k].reg, r, gen)
    decreases k
  {
    hide Apply, Enabled, SoundWorld, FromStart;
    if i < k {
      StaysTold(ws, steps, i, k - 1, r, gen);
      RunSound(ws, steps, k - 1);
      assert Enabled(ws[k - 1], steps[k - 1]) && ws[k - 1 + 1] == Apply(ws[k - 1], steps[k - 1]);
      StepExtends(ws[k - 1], steps[k - 1]);
      assert Advances(ws[k - 1].reg.heap[r], ws[k].reg.heap[r]);
    }
  }

  /**
   A generation told to stop, at any moment before it finished and in any order with its start, has its
   run context cancelled in every later world, or somebody still holds the cancellation it is owed. Its
   context may be the one installed already or one installed later.
   */
  lemma StopIsNeverLost(ws: seq<World>, steps: seq<Step>, i: nat, k: nat, c: nat)
    requires IsRun(ws, steps) && FromStart(ws) && i <= k < |ws| && c < |ws[k].ctxs|
    requires StoppedOrTold(ws[i].reg, ws[k].ctxs[c].ref, ws[k].ctxs[c].gen)
    ensures ws[k].ctxs[c].cancelled || Coming(ws[k], c, ws[k].ctxs[c].ref)
  {
    hide Apply, Enabled, SoundWorld, FromStart, Installed;
    RunCancels(ws, steps, k);
    StaysTold(ws, steps, i, k, ws[k].ctxs[c].ref, ws[k].ctxs[c].gen);
    assert Kept(ws[k], c);
  }

  predicate Fires(step: Step) { step.FireCancel? || step.CancelStopped? }

  /** What is still to be fired. */
  function Waiting(w: World): nat { |w.cancelling| + |w.stopping| }

  lemma FiringShrinks(w: World, step: Step)
    requires Enabled(w, step) && Fires(step)
    ensures Waiting(Apply(w, step)) == Waiting(w) - 1 && Apply(w, step).reg == w.reg && |Apply(w, step).ctxs| == |w.ctxs|
  {
    match step
    case FireCancel(c) => assert |w.cancelling - {c}| == |w.cancelling| - 1;
    case CancelStopped(r) => assert |w.stopping - {r}| == |w.stopping| - 1;
  }

  lemma {:induction false} Drains(ws: seq<World>, steps: seq<Step>, i: nat, k: nat)
    requires IsRun(ws, steps) && i <= k < |ws| && forall j :: i <= j < k ==> Fires(steps[j])
    ensures Waiting(ws[k]) == Waiting(ws[i]) - (k - i) && ws[k].reg == ws[i].reg && |ws[k].ctxs| == |ws[i].ctxs|
    decreases k
  {
    hide Apply, Enabled, Waiting, Fires;
    if i < k {
      Drains(ws, steps, i, k - 1);
      assert Enabled(ws[k - 1], steps[k - 1]) && ws[k - 1 + 1] == Apply(ws[k - 1], steps[k - 1]);
      FiringShrinks(ws[k - 1], steps[k - 1]);
    }
  }

  /**
   Everything held gets fired: once as many cancellations were carried out as were waiting, in any order,
   none waits any more, and every context of a generation that is over or was told to stop is cancelled.
   */
  lemma DrainedIsCancelled(ws: seq<World>, steps: seq<Step>, i: nat, k: nat)
    requires IsRun(ws, steps) && FromStart(ws) && i <= k < |ws| && (forall j :: i <= j < k ==> Fires(steps[j]))
    requires k - i == Waiting(ws[i])
    ensures ws[k].cancelling == {} && ws[k].stopping == {} && ws[k].reg == ws[i].reg && |ws[k].ctxs| == |ws[i].ctxs|
    ensures forall c :: 0 <= c < |ws[k].ctxs| && StoppedOrTold(ws[k].reg, ws[k].ctxs[c].ref, ws[k].ctxs[c].gen) ==> ws[k].ctxs[c].cancelled
  {
    hide Apply, Enabled, SoundWorld, FromStart, Fires, StoppedOrTold;
    Drains(ws, steps, i, k);
    assert |ws[k].cancelling| == 0 && |ws[k].stopping| == 0;
    forall c | 0 <= c < |ws[k].ctxs| && StoppedOrTold(ws[k].reg, ws[k].ctxs[c].ref, ws[k].ctxs[c].gen) ensures ws[k].ctxs[c].cancelled {
      StopIsNeverLost(ws, steps, k, k, c);
    }
  }

  /** Each way of closing or stopping an unfinished generation tells it to stop. */
  lemma EveryCloseTells(w: World, step: Step, r: Ref)
    requires SoundWorld(w) && Enabled(w, step) && r < |w.reg.heap| && !IsDone(w.reg.heap[r]) && !w.reg.closed
    requires || (step.Settle? && step.closing && step.t == Token(r, w.reg.heap[r].gen, false) && Collectable(w.reg, r, w.reg.heap[r].gen))
             || (step.CloseTree? && w.reg.heap[r].id in Subtree(w.reg, step.id) && (step.id in Reachable(w.reg) || step.id in w.reg.past))
             || (step == HandoffStop(r))
             || (step.Cleanup? && w.reg.delegation)
    ensures StoppedOrTold(Apply(w, step).reg, r, w.reg.heap[r].gen)
  {
    hide Seen, TokenHolds, SnapsMatch, Subtree, ClosePast, Newest;
    SoundParts(w.reg);
    if step.CloseTree? { CloseTells(w, step.id, r); }
  }

  lemma CloseTells(w: World, root: string, r: Ref)
    requires SoundWorld(w) && r < |w.reg.heap| && !IsDone(w.reg.heap[r]) && !w.reg.closed
    requires w.reg.heap[r].id in Subtree(w.reg, root) && (root in Reachable(w.reg) || root in w.reg.past)
    ensures StoppedOrTold(Apply(w, CloseTree(root)).reg, r, w.reg.heap[r].gen)
  {
    hide SoundWorld, Subtree, ClosePast;
    CloseHandlesAt(w.reg, Subtree(w.reg, root));
    TrackedIsReachable(w, r);
  }

  lemma TrackedIsReachable(w: World, r: Ref)
    requires SoundWorld(w) && r < |w.reg.heap| && !IsDone(w.reg.heap[r]) && !w.reg.closed
    ensures w.reg.heap[r].id in Reachable(w.reg) && Reachable(w.reg)[w.reg.heap[r].id] == r
  {
    hide Seen, TokenHolds, SnapsMatch;
    SoundParts(w.reg);
    var id := w.reg.heap[r].id;
    assert w.reg.agents[id] == r;
    if id in w.reg.pending { NewestUnique(w.reg, w.reg.pending[id], r); }
  }

  // ---------- nobody else is hit ----------

  /** A new entry of cancelling is the context of a generation this very step told to stop. */
  ghost predicate NewlyTold(w: World, w': World, c: nat) {
    exists r :: 0 <= r < |w.reg.heap| && r < |w'.reg.heap| && w.reg.heap[r].cancel == Some(c)
             && w'.reg.heap[r].gen == w.reg.heap[r].gen && (Told(w'.reg.heap[r]) || Finished(w'.reg.heap[r]))
  }

  lemma SettleTells(w: World, t: Token, closing: bool, c: nat)
    requires SoundWorld(w) && Enabled(w, Settle(t, closing)) && c in Apply(w, Settle(t, closing)).cancelling && c !in w.cancelling
    ensures NewlyTold(w, Apply(w, Settle(t, closing)), c)
  {
    hide Sound, Seen;
    assert TokenHolds(w.reg, t);
    assert w.reg.heap[t.ref].cancel == Some(c);
  }

  lemma CancelIsOf(s: Reg, ids: set<string>, c: nat) returns (r: Ref)
    requires Sound(s) && c in SubtreeCancels(s, ids)
    ensures r < |s.heap| && s.heap[r].id in ids && s.heap[r].id in Reachable(s) && Reachable(s)[s.heap[r].id] == r
    ensures !IsDone(s.heap[r]) && s.heap[r].cancel == Some(c)
  {
    hide Sound, Newest;
    SoundParts(s);
    var id :| id in Reachable(s) && id in ids && !IsDone(At(s, Reachable(s)[id])) && At(s, Reachable(s)[id]).cancel == Some(c);
    r := Reachable(s)[id];
  }

  lemma CloseTreeTells(w: World, root: string, c: nat)
    requires SoundWorld(w) && c in Apply(w, CloseTree(root)).cancelling && c !in w.cancelling
    ensures NewlyTold(w, Apply(w, CloseTree(root)), c)
  {
    hide SoundWorld, Subtree, ClosePast, SubtreeCancels, Reachable;
    SoundWorldParts(w);
    CloseHandlesAt(w.reg, Subtree(w.reg, root));
    var r := CancelIsOf(w.reg, Subtree(w.reg, root), c);
    assert Apply(w, CloseTree(root)).reg.heap[r] == CloseOne(w.reg.heap[r]);
  }

  lemma StopTells(w: World, r: Ref, c: nat)
    requires Enabled(w, HandoffStop(r)) && c in Apply(w, HandoffStop(r)).cancelling && c !in w.cancelling
    ensures NewlyTold(w, Apply(w, HandoffStop(r)), c)
  {
    assert w.reg.heap[r].cancel == Some(c);
  }

  lemma NobodyNewlyTold(w: World, step: Step)
    requires Enabled(w, step) && !step.Settle? && !step.CloseTree? && !step.HandoffStop?
    ensures Apply(w, step).cancelling <= w.cancelling
  {
    hide Spawn, ClaimForResume, ClaimForRestore, Plant, Remember, Stats, Recall, Get, CleanupMarks, BeginHandoff, ResetTimeouts,
      CloseRegistry, RestoreCollection, Running, Complete;
  }

  lemma StepTells(w: World, step: Step, c: nat)
    requires SoundWorld(w) && Enabled(w, step) && c in Apply(w, step).cancelling && c !in w.cancelling
    ensures NewlyTold(w, Apply(w, step), c)
  {
    hide SoundWorld, Apply, Enabled, NewlyTold;
    if step.Settle? { SettleTells(w, step.t, step.closing, c); }
    else if step.CloseTree? { CloseTreeTells(w, step.id, c); }
    else if step.HandoffStop? { StopTells(w, step.r, c); }
    else { NobodyNewlyTold(w, step); }
  }

  /** A context newly cancelled was waiting for it, or its worker stops now, or is born told. */
  lemma NewlyCancelled(w: World, step: Step, c: nat)
    requires SoundWorld(w) && CancelWorld(w) && Enabled(w, step) && !step.Start? && !step.CancelStopped?
    requires c < |w.ctxs| && c < |Apply(w, step).ctxs| && Apply(w, step).ctxs[c].cancelled && !w.ctxs[c].cancelled
    ensures c in w.cancelling || (step.Stop? && w.reg.heap[step.r].cancel == Some(c))
  {
    hide SoundWorld;
    if KeepsCtxs(step) { hide Apply; SameCtxs(w, step); }
  }

  lemma StopFinishes(w: World, r: Ref, outcome: Outcome, result: string)
    requires Enabled(w, Stop(r, outcome, result)) && CancelWorld(w)
    ensures var s', c := Apply(w, Stop(r, outcome, result)).reg, w.reg.heap[r].cancel.value;
            && c < |w.ctxs| && w.ctxs[c].ref == r && w.ctxs[c].gen == w.reg.heap[r].gen
            && r < |s'.heap| && Finished(s'.heap[r]) && s'.heap[r].gen == w.reg.heap[r].gen
  {
    assert Installed(w, r);
  }

  lemma StepDeserved(w: World, step: Step, c: int)
    requires SoundWorld(w) && CancelWorld(w) && Deserved(w, c) && Enabled(w, step) && !step.CancelStopped? && !step.Start?
    ensures Deserved(Apply(w, step), c)
  {
    hide SoundWorld, Apply, Enabled;
    var w' := Apply(w, step);
    StepCtxs(w, step);
    StepExtends(w, step);
    if 0 <= c < |w'.ctxs| && (w'.ctxs[c].cancelled || c in w'.cancelling) {
      assert Kept(w, c);
      var r := w.ctxs[c].ref;
      assert Advances(w.reg.heap[r], w'.reg.heap[r]);
      if !w.ctxs[c].cancelled && c !in w.cancelling {
        if c in w'.cancelling {
          StepTells(w, step, c);
          ToldItself(w, w', c);
        } else {
          NewlyCancelled(w, step, c);
          StopFinishes(w, step.r, step.outcome, step.result);
        }
      }
    }
  }

  lemma ToldItself(w: World, w': World, c: nat)
    requires CancelWorld(w) && NewlyTold(w, w', c) && c < |w.ctxs|
    ensures var r := w.ctxs[c].ref;
            r < |w.reg.heap| && r < |w'.reg.heap| && w'.reg.heap[r].gen == w.reg.heap[r].gen && (Told(w'.reg.heap[r]) || Finished(w'.reg.heap[r]))
  {
    var r :| 0 <= r < |w.reg.heap| && r < |w'.reg.heap| && w.reg.heap[r].cancel == Some(c)
             && w'.reg.heap[r].gen == w.reg.heap[r].gen && (Told(w'.reg.heap[r]) || Finished(w'.reg.heap[r]));
    assert Installed(w, r);
  }

  lemma StartDeserved(w: World, r: Ref, c: int)
    requires SoundWorld(w) && CancelWorld(w) && Deserved(w, c) && Enabled(w, Start(r))
    requires forall x :: x in w.cancelling ==> x < |w.ctxs|
    ensures Deserved(Apply(w, Start(r)), c)
  {
    hide SoundWorld;
    assert Kept(w, c);
  }

  /** Cancellations are held only of contexts that exist. */
  ghost predicate HeldExist(w: World) { forall c :: c in w.cancelling ==> c < |w.ctxs| }

  lemma StepHeldExist(w: World, step: Step)
    requires SoundWorld(w) && CancelWorld(w) && HeldExist(w) && Enabled(w, step)
    ensures HeldExist(Apply(w, step))
  {
    hide SoundWorld, Apply, Enabled;
    StepCtxs(w, step);
    forall c | c in Apply(w, step).cancelling ensures c < |Apply(w, step).ctxs| {
      if c !in w.cancelling {
        StepTells(w, step, c);
        var r :| 0 <= r < |w.reg.heap| && w.reg.heap[r].cancel == Some(c);
        assert Installed(w, r);
      }
    }
  }

  /** A run without the unlocked cancels of Cleanup and Close. */
  predicate NoUnlocked(steps: seq<Step>) { forall i :: 0 <= i < |steps| ==> !steps[i].CancelStopped? }

  ghost predicate FairWorld(w: World) { HeldExist(w) && forall c: int :: Deserved(w, c) }

  lemma StepFair(w: World, step: Step)
    requires SoundWorld(w) && CancelWorld(w) && FairWorld(w) && Enabled(w, step) && !step.CancelStopped?
    ensures FairWorld(Apply(w, step))
  {
    hide SoundWorld, CancelWorld, Deserved, Apply, Enabled;
    StepHeldExist(w, step);
    forall c: int ensures Deserved(Apply(w, step), c) {
      if step.Start? { StartDeserved(w, step.r, c); } else { StepDeserved(w, step, c); }
    }
  }

  /**
   A cancellation hits only its own generation: with closes, settlements and handoff stops in any order
   and delay, a context is cancelled only if the very generation it was started for finished or was told
   to stop. A close delivered after a resume never touches the resumed generation.
   */
  lemma {:induction false} OnlyItsOwnGeneration(ws: seq<World>, steps: seq<Step>, i: nat)
    requires IsRun(ws, steps) && FromStart(ws) && i < |ws| && NoUnlocked(steps)
    ensures FairWorld(ws[i])
    decreases i
  {
    hide SoundWorld, Apply, Enabled, CancelWorld;
    if i == 0 {
      StartFair(ws);
    } else {
      hide FairWorld, FromStart;
      OnlyItsOwnGeneration(ws, steps, i - 1);
      RunCancels(ws, steps, i - 1);
      RunSound(ws, steps, i - 1);
      assert Enabled(ws[i - 1], steps[i - 1]) && ws[i - 1 + 1] == Apply(ws[i - 1], steps[i - 1]);
      StepFair(ws[i - 1], steps[i - 1]);
    }
  }

  lemma StartFair(ws: seq<World>)
    requires FromStart(ws)
    ensures FairWorld(ws[0])
  {
  }

  /**
   Cleanup and Close read the cancel function after they let go of the lock, so what they hit is whatever
   generation has it by then. That stays fair exactly when this generation is over or told to stop; one
   resumed in between is hit although nobody asked for it.
   */
  lemma UnlockedCancelFairIff(w: World, r: Ref)
    requires SoundWorld(w) && CancelWorld(w) && FairWorld(w) && r in w.stopping && r < |w.reg.heap|
    ensures FairWorld(Apply(w, CancelStopped(r))) <==>
            w.reg.heap[r].cancel.None? || Told(w.reg.heap[r]) || Finished(w.reg.heap[r])
  {
    hide SoundWorld;
    var w', h := Apply(w, CancelStopped(r)), w.reg.heap[r];
    assert Installed(w, r);
    if h.cancel.Some? {
      assert Deserved(w', h.cancel.value) <==> Told(h) || Finished(h);
      forall c: int | c != h.cancel.value ensures Deserved(w', c) { assert Deserved(w, c); }
    } else {
      forall c: int ensures Deserved(w', c) { assert Deserved(w, c); }
    }
  }

  /**
   Nor does Cleanup always reach a worker it counted. When the worker's context was installed by then it
   is cancelled; when it was not, the context installed later is cancelled exactly if delegation marked
   the worker closed, or it was told to stop some other way.
   */
  lemma CleanupReachesIff(w: World, r: Ref)
    requires SoundWorld(w) && CancelWorld(w) && r in Running(w.reg) && w.reg.heap[r].phase.Live?
    ensures var w1 := Apply(Apply(w, Cleanup), CancelStopped(r));
            var w2 := if w.reg.heap[r].cancel.None? then Apply(w1, Start(r)) else w1;
            Installed(w2, r) && w2.reg.heap[r].cancel.Some?
            && (w2.ctxs[w2.reg.heap[r].cancel.value].cancelled <==>
                 w.reg.heap[r].cancel.Some? || w.reg.delegation || Told(w.reg.heap[r]))
  {
    hide SoundWorld;
    assert Installed(w, r);
    RunningInside(w, r);
  }

  lemma RunningInside(w: World, r: Ref)
    requires SoundWorld(w) && r in Running(w.reg)
    ensures r < |w.reg.heap| && w.reg.heap[r].id in w.reg.agents && w.reg.agents[w.reg.heap[r].id] == r
  {
    hide Seen, TokenHolds, SnapsMatch;
    SoundParts(w.reg);
  }

  // ---------- what Cleanup and Close name is cancelled ----------

  /** Close names every unfinished worker of an open registry, and every other handle on its roster, for cancellation. */
  lemma CloseNamesEveryone(w: World, r: Ref)
    requires SoundWorld(w) && !w.reg.closed && r < |w.reg.heap| && !IsDone(w.reg.heap[r])
    ensures r in Apply(w, CloseAll).stopping && Apply(w, CloseAll).reg.heap == w.reg.heap
  {
    hide Seen, TokenHolds, SnapsMatch;
    SoundParts(w.reg);
    assert w.reg.heap[r].id in w.reg.agents;
  }

  lemma StoppingStays(w: World, step: Step, r: Ref)
    requires r in w.stopping && step != CancelStopped(r)
    ensures r in Apply(w, step).stopping
  {
    hide Remember, Complete, Stats, Recall, Collect, CloseSubtree, CleanupMarks, Running, BeginHandoff, ResetTimeouts,
      CloseRegistry, Act, ClaimForResume, ClaimForRestore, Plant, Spawn, Granted, Rebuilt, CapturedBySettle, SubtreeCancels, Subtree;
  }

  /**
   Whoever was named stays named until Handle.Cancel was called on it, whatever happens in between, and that call
   cancels the context the handle has by then.
   */
  lemma {:induction false} NamedUntilCancelled(ws: seq<World>, steps: seq<Step>, i: nat, k: nat, r: Ref)
    requires IsRun(ws, steps) && i <= k < |ws| && r in ws[i].stopping
    ensures r in ws[k].stopping || exists j :: i <= j < k && steps[j] == CancelStopped(r)
    decreases k
  {
    hide Apply, Enabled;
    if i < k {
      NamedUntilCancelled(ws, steps, i, k - 1, r);
      assert Enabled(ws[k - 1], steps[k - 1]) && ws[k - 1 + 1] == Apply(ws[k - 1], steps[k - 1]);
      if r in ws[k - 1].stopping && steps[k - 1] != CancelStopped(r) { StoppingStays(ws[k - 1], steps[k - 1], r); }
    }
  }

  /** Close marks nobody: it reaches a running worker exactly if its context was installed by then, or it was told to stop. */
  lemma CloseReachesIff(w: World, r: Ref)
    requires SoundWorld(w) && CancelWorld(w) && r in Running(w.reg) && w.reg.heap[r].phase.Live?
    ensures var w1 := Apply(Apply(w, CloseAll), CancelStopped(r));
            var w2 := if w.reg.heap[r].cancel.None? then Apply(w1, Start(r)) else w1;
            Installed(w2, r) && w2.reg.heap[r].cancel.Some?
            && (w2.ctxs[w2.reg.heap[r].cancel.value].cancelled <==> w.reg.heap[r].cancel.Some? || Told(w.reg.heap[r]))
  {
    hide SoundWorld;
    assert Installed(w, r);
    RunningInside(w, r);
  }
}
