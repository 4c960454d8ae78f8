/**
 Who is let in, and why anyone is turned away (spawn.go:37-74, resume.go:283-344, restore.go:127-189,
 restore.go:220-248). Each answer is stated from the handles themselves: who is unfinished, which
 generation runs, what is recorded of the parent, and how often the worker was stopped.
 */
module Admission {
  import opened Common
  import opened WorkerId
  import opened ToolScope
  import opened Handoff
  import opened Lifecycle
  import opened Runs
  import opened Soundness
  import opened Settlement
  import opened Delegation
  import opened Family
  import opened Capacity
  import opened ScopeRuns

  // ---------- what the answers depend on ----------

  /** The generation a tool call names runs, and was not asked to close. */
  predicate Delegates(s: Reg, c: Caller) {
    exists r :: 0 <= r < |s.heap| && RunsAs(s.heap[r], c)
  }

  predicate RunsAs(h: Handle, c: Caller) { h.id == c.id && h.gen == c.gen && h.phase == Live && !h.closeRequested }

  /** A worker of this id has a generation whose done channel is not closed. */
  predicate StillRuns(s: Reg, id: string) { exists r :: 0 <= r < |s.heap| && s.heap[r].id == id && s.heap[r].phase != Done }

  /** One of the tables records this selection for the worker. */
  predicate Records(s: Reg, id: string, tools: Option<seq<string>>) {
    || (id in s.agents && At(s, s.agents[id]).tools == tools)
    || (id in s.pending && At(s, s.pending[id]).tools == tools)
    || (id in s.past && s.past[id].tools == tools)
  }

  /** No explicit selection recorded for the parent leaves out a tool the child would have. */
  ghost predicate WithinParent(s: Reg, parent: string, tools: Option<seq<string>>) {
    parent == "" || forall allowed :: Records(s, parent, Some(allowed)) ==>
      tools.Some? && forall t :: t in tools.value ==> t in allowed
  }

  /** How often the worker was stopped, as far as a resume of this conversation can tell. */
  function CountFor(s: Reg, p: Past): nat {
    if p.id in s.agents then At(s, s.agents[p.id]).timeouts else p.timeouts
  }

  lemma CallerIsActive(s: Reg, c: Caller)
    requires Sound(s) && !s.closed
    ensures CallerActive(s, c) <==> Delegates(s, c)
  {
    SoundParts(s);
    hide Sound, Newest;
    if CallerActive(s, c) {
      NewestInside(s, s.agents[c.id]);
      assert RunsAs(s.heap[s.agents[c.id]], c);
    }
  }

  lemma RosterStillRuns(s: Reg, id: string)
    requires Sound(s) && !s.closed
    ensures (id in s.agents && !IsDone(At(s, s.agents[id]))) <==> StillRuns(s, id)
  {
    SoundParts(s);
    hide Sound, Newest;
    if id in s.agents { NewestInside(s, s.agents[id]); }
  }

  /** All records of a worker agree, so the first one found decides. */
  lemma RecordsAgree(w: World, id: string, tools: Option<seq<string>>)
    requires SoundWorld(w) && KinWorld(w) && Records(w.reg, id, tools)
    ensures tools == Selection(w.reg, id) && id in Known(w.reg)
  {
    hide SoundWorld, KinHeap, Selection, Sound, Newest;
    var s := w.reg;
    SoundWorldParts(w);
    SoundParts(s);
    if id in s.agents && At(s, s.agents[id]).tools == tools {
      NewestInside(s, s.agents[id]);
      HandleTools(s, id, s.agents[id]);
    } else if id in s.pending && At(s, s.pending[id]).tools == tools {
      NewestInside(s, s.pending[id]);
      HandleTools(s, id, s.pending[id]);
    } else {
      assert s.past[id].id == id;
      var r :| 0 <= r < |s.heap| && SameWorker(s.past[id], s.heap[r]);
      HandleTools(s, id, r);
    }
  }

  lemma FirstRecord(s: Reg, id: string)
    ensures id in Known(s) ==> Records(s, id, ToolsOf(s, id))
    ensures id !in Known(s) ==> ToolsOf(s, id) == None
    ensures forall tools :: Records(s, id, tools) ==> id in Known(s)
  {
  }

  lemma ScopeIsWithinParent(w: World, parent: string, tools: Option<seq<string>>)
    requires SoundWorld(w) && KinWorld(w)
    ensures ScopeFits(w.reg, parent, tools) <==> WithinParent(w.reg, parent, tools)
  {
    hide SoundWorld, KinWorld, Selection;
    var s := w.reg;
    if parent != "" {
      FirstRecord(s, parent);
      hide ToolsOf, Records;
      forall allowed | Records(s, parent, Some(allowed)) ensures ToolsOf(s, parent) == Some(allowed) {
        RecordsAgree(w, parent, Some(allowed));
        RecordsAgree(w, parent, ToolsOf(s, parent));
      }
    }
  }

  // ---------- spawning ----------

  /**
   A spawn is let in exactly if no handoff began, the registry is open, its caller runs in the generation it
   names and was not closed, and fewer workers than the cap are unfinished; else it is told which of these
   failed first, and nothing changes.
   */
  lemma SpawnIsAdmittedIff(s: Reg, role: string, caller: Option<Caller>, enabling: bool, tools: Option<seq<string>>, admit: bool)
    requires Sound(s)
    ensures Spawn(s, role, caller, enabling, tools, admit).Admitted? <==>
            !s.handingOff && !s.closed && (caller.Some? ==> Delegates(s, caller.value)) && (admit ==> |Unfinished(s)| < s.cap)
    ensures Spawn(s, role, caller, enabling, tools, admit).Denied? ==>
            Spawn(s, role, caller, enabling, tools, admit).why ==
              if s.handingOff then HandingOff
              else if s.closed then RegistryClosed
              else if caller.Some? && !Delegates(s, caller.value) then CallerInactive
              else AtCapacity
  {
    hide Sound, CallerActive, Delegates, LiveCount, Unfinished, Enlist;
    if !s.closed {
      LiveCountIsUnfinished(s);
      if caller.Some? { CallerIsActive(s, caller.value); }
    }
  }

  // ---------- resuming ----------

  /**
   A resume is let in exactly if no handoff began, the registry is open, the worker has no unfinished
   generation, its selection lies within every one recorded for its parent, fewer workers than the cap are
   unfinished, and fewer than three stops are counted against it; else it is told which failed first.
   */
  lemma ResumeIsAdmittedIff(w: World, p: Past, admit: bool)
    requires SoundWorld(w) && KinWorld(w)
    ensures var s, a := w.reg, ClaimForResume(w.reg, p, admit);
            && (a.Admitted? <==>
                  && !s.handingOff && !s.closed && !StillRuns(s, p.id) && WithinParent(s, p.parent, p.tools)
                  && (admit ==> |Unfinished(s)| < s.cap) && CountFor(s, p) < 3)
            && (a.Denied? ==>
                  a.why == (if s.handingOff then HandingOff
                  else if s.closed then RegistryClosed
                  else if StillRuns(s, p.id) then StillRunning
                  else if !WithinParent(s, p.parent, p.tools) then WidensScope
                  else if admit && |Unfinished(s)| >= s.cap then AtCapacity
                  else TimeoutsExhausted))
  {
    hide SoundWorld, KinWorld, LiveCount, Unfinished, Enlist, Renewed, ScopeFits, WithinParent, StillRuns;
    SoundWorldParts(w);
    ScopeIsWithinParent(w, p.parent, p.tools);
    if !w.reg.closed {
      LiveCountIsUnfinished(w.reg);
      RosterStillRuns(w.reg, p.id);
    }
  }

  // ---------- restoring ----------

  /** Recording the parent closes no circle. */
  ghost predicate NoCircle(s: Reg, id: string, parent: string) { parent != id && !Reach(s, parent, id) }

  /** The worker's own records, where there are any, agree with what is restored. */
  predicate SameAsArchived(s: Reg, id: string, tools: Option<seq<string>>) { id in s.past ==> s.past[id].tools == tools }

  /** Nobody counts three stops: not the stored checkpoint, nor this process. */
  predicate CountsBelow(s: Reg, id: string, failures: nat) {
    && failures < 3
    && (id in s.past ==> s.past[id].timeouts < 3)
    && (id in s.agents ==> At(s, s.agents[id]).timeouts < 3)
  }

  lemma CountsBelowIs(s: Reg, id: string, failures: nat)
    ensures RestoredFailures(s, id, failures) < MAX_CONSECUTIVE_TIMEOUTS <==> CountsBelow(s, id, failures)
  {
  }

  lemma NoCircleIs(s: Reg, id: string, parent: string)
    ensures ParentAllowed(s, id, parent) <==> NoCircle(s, id, parent)
  {
    hide Climb;
    DescendantIsReach(s, parent, id);
  }

  /**
   A restore is let in exactly if no handoff began, the registry is open, its parent closes no circle, its
   selection lies within the parent's and is the recorded one, the worker is not unfinished, nor on the roster
   under another parent, and neither the stored count nor this process's own reached three; else it is told
   which failed first.
   */
  lemma RestoreIsAdmittedIff(w: World, id: string, role: string, failures: nat, parent: string, tools: Option<seq<string>>)
    requires SoundWorld(w) && KinWorld(w)
    ensures var s, a := w.reg, ClaimForRestore(w.reg, id, role, failures, parent, tools);
            && (a.Admitted? <==>
                  && !s.handingOff && !s.closed && NoCircle(s, id, parent) && WithinParent(s, parent, tools)
                  && SameAsArchived(s, id, tools) && !StillRuns(s, id) && CountsBelow(s, id, failures)
                  && (id in s.agents ==> At(s, s.agents[id]).parent == parent && At(s, s.agents[id]).tools == tools))
            && (a.Denied? ==>
                  a.why == (if s.handingOff then HandingOff
                  else if s.closed then RegistryClosed
                  else if !NoCircle(s, id, parent) then CyclicParent
                  else if !WithinParent(s, parent, tools) then WidensScope
                  else if !SameAsArchived(s, id, tools) then ScopeChanged
                  else if id in s.agents && At(s, s.agents[id]).parent != parent then ParentChanged
                  else if StillRuns(s, id) then StillRunning
                  else if id in s.agents && At(s, s.agents[id]).tools != tools then ScopeChanged
                  else TimeoutsExhausted))
  {
    hide SoundWorld, KinWorld, Enlist, NotePending, NoteId, ScopeFits, WithinParent, StillRuns, ParentAllowed, NoCircle,
      RestoredFailures, CountsBelow;
    SoundWorldParts(w);
    ScopeIsWithinParent(w, parent, tools);
    NoCircleIs(w.reg, id, parent);
    CountsBelowIs(w.reg, id, failures);
    if !w.reg.closed { RosterStillRuns(w.reg, id); }
  }

  /**
   Planting, which a handoff does not stop, is let in exactly if the registry is open, the parent closes no
   circle, the selection lies within the parent's, the worker is not unfinished, and one that left the roster
   has the archived selection; on the roster it then changes nothing.
   */
  lemma PlantIsAdmittedIff(w: World, h: Handle)
    requires SoundWorld(w) && KinWorld(w)
    ensures var s, a := w.reg, Plant(w.reg, h);
            && (a.Admitted? <==>
                  && !s.closed && NoCircle(s, h.id, h.parent) && WithinParent(s, h.parent, h.tools)
                  && !StillRuns(s, h.id) && (h.id in s.agents || SameAsArchived(s, h.id, h.tools)))
            && (a.Denied? ==>
                  a.why == (if s.closed then RegistryClosed
                  else if !NoCircle(s, h.id, h.parent) then CyclicParent
                  else if !WithinParent(s, h.parent, h.tools) then WidensScope
                  else if StillRuns(s, h.id) then StillRunning
                  else ScopeChanged))
            && (a.Admitted? && h.id in s.agents ==> a.reg == s)
  {
    hide SoundWorld, KinWorld, Enlist, NoteId, ScopeFits, WithinParent, StillRuns, ParentAllowed, NoCircle;
    SoundWorldParts(w);
    ScopeIsWithinParent(w, h.parent, h.tools);
    NoCircleIs(w.reg, h.id, h.parent);
    if !w.reg.closed { RosterStillRuns(w.reg, h.id); }
  }

  /** An admitted restore counts as many stops as the stored checkpoint or this process counted, whichever is more. */
  lemma RestoreKeepsTheLargestCount(s: Reg, id: string, role: string, failures: nat, parent: string, tools: Option<seq<string>>)
    requires Sound(s) && ClaimForRestore(s, id, role, failures, parent, tools).Admitted?
    ensures var a := ClaimForRestore(s, id, role, failures, parent, tools);
            && a.ref < |a.reg.heap| && a.reg.heap[a.ref].id == id && a.reg.heap[a.ref].phase == Live
            && var n := a.reg.heap[a.ref].timeouts;
               && n >= failures && (id in s.past ==> n >= s.past[id].timeouts) && (id in s.agents ==> n >= At(s, s.agents[id]).timeouts)
               && (n == failures || (id in s.past && n == s.past[id].timeouts) || (id in s.agents && n == At(s, s.agents[id]).timeouts))
  {
    hide Sound, ScopeFits, ParentAllowed, NoteId, Newest, RestoredFailures, Enlist, NotePending;
    var n := RestoredFailures(s, id, failures);
    LargestCount(s, id, failures);
    if id in s.agents {
      SoundParts(s);
      NewestInside(s, s.agents[id]);
      var s1 := Put(s, s.agents[id], Reset(s.heap[s.agents[id]]).(timeouts := n));
      NoteHeap(s1, s.agents[id], id);
    } else {
      var s1 := NewHandle(id, role, parent, 1, n, tools);
      EnlistTables(s, s, s1);
      NoteIdFields(Enlist(s, s1), id);
    }
  }

  lemma LargestCount(s: Reg, id: string, failures: nat)
    ensures var n := RestoredFailures(s, id, failures);
            && n >= failures && (id in s.past ==> n >= s.past[id].timeouts) && (id in s.agents ==> n >= At(s, s.agents[id]).timeouts)
            && (n == failures || (id in s.past && n == s.past[id].timeouts) || (id in s.agents && n == At(s, s.agents[id]).timeouts))
  {
  }

  lemma NoteHeap(s: Reg, r: Ref, id: string)
    ensures NoteId(NotePending(s, r), id).heap == s.heap
  {
    hide TrailingSeq;
  }

  // ---------- the delegation mode ----------

  /** The registry starts to keep ancestry with the first spawn whose surface lets it delegate, and by no other step. */
  lemma DelegationTurnsOnIff(w: World, step: Step)
    requires SoundWorld(w) && Enabled(w, step)
    ensures Apply(w, step).reg.delegation <==>
            || w.reg.delegation
            || (step.SpawnWorker? && Apply(w, step).reg != w.reg && Granted(w, step.caller, step.base, step.names).Some?
                && Granted(w, step.caller, step.base, step.names).value.delegates)
  {
    hide SoundWorld, Apply, Granted, Enlist;
    SoundWorldParts(w);
    DelegationStays(w, step);
    if !Enlists(step) { OthersDelegation(w, step); } else { EnlistingMode(w, step); }
  }

  lemma EnlistingMode(w: World, step: Step)
    requires Sound(w.reg) && Enabled(w, step) && Enlists(step)
    ensures if step.SpawnWorker? && Apply(w, step) != w
            then Granted(w, step.caller, step.base, step.names).Some? && Apply(w, step).reg != w.reg
                 && (Apply(w, step).reg.delegation <==> w.reg.delegation || Granted(w, step.caller, step.base, step.names).value.delegates)
            else Apply(w, step).reg.delegation == w.reg.delegation
  {
    hide Sound, Seen, TrailingSeq, ClaimForResume, ClaimForRestore, Plant, Remember, Enlist,
      NoteId, ScopeFits, ParentAllowed, CallerActive, LiveCount, NotePending, Granted, Rebuilt;
    var s := w.reg;
    match step
    case SpawnWorker(_, _, _, _, _) =>
      hide Apply;
      SpawnStep(w, step);
      EnlistDelegation(SpawnBase(w, step), SpawnMade(w, step));
      EnlistTables(s, SpawnBase(w, step), SpawnMade(w, step));
    case Claim(p, _, admit) =>
      ClaimShape(s, p, admit);
      EnlistDelegation(s, ResumedHandle(p));
      if p.id in s.agents { NoteDelegation(Put(s, s.agents[p.id], Reset(At(s, s.agents[p.id]))), s.agents[p.id]); }
    case RestoreWorker(id, _, _, _, _, _, _, _, _) =>
      RestoreShape(w, step);
      NoteIdFields(s, id);
      EnlistDelegation(NoteId(s, id), RestoredOf(step));
    case PlantWorker(h) =>
      PlantShape(w, step);
      NoteIdFields(s, h.id);
      EnlistDelegation(NoteId(s, h.id), h);
      RememberRoster(Enlist(NoteId(s, h.id), h), SnapshotPast(h));
  }

  // ---------- what is started ----------

  /** A generation before anything happened in it: no context, no result, nothing asked of it, no call in flight. */
  predicate Clean(h: Handle) {
    && h.phase == Live && h.cancel == None && h.result == "" && h.err == NoError
    && !h.work.handoff.requested && !h.work.handoff.read && !h.work.handoff.cancelled && h.work.handoff.inFlight == map[]
  }

  lemma ResetIsClean(h: Handle)
    ensures Clean(Reset(h)) && Reset(h).work.history == h.work.history && Reset(h).timeouts == h.timeouts
    ensures !Reset(h).collected && !Reset(h).closeRequested
  {
  }

  lemma NewbornIsClean(w: World, step: Step, h: Handle)
    requires Newborn(w.reg, step, h) && !step.PlantWorker?
    ensures Clean(h) && h.work.history == []
    ensures !step.RestoreWorker? ==> !h.collected && !h.closeRequested
    ensures step.SpawnWorker? ==> h.gen == 1 && h.timeouts == 0 && h.id == step.role + "-" + Format(Increment(w.reg.counter))
                                  && h.role == step.role && h.parent == (if step.caller.Some? then step.caller.value.id else "")
  {
    hide ScopeFits, ParentAllowed, CallerActive, Format;
  }

  /**
   Whatever a generation left behind, the next one starts clean: without a result, an error, a context, a
   handoff request or a call in flight, and unsettled unless its stored checkpoint says otherwise. Only the
   conversation and the count of stops go on, on the handle that is renewed.
   */
  lemma EveryGenerationStartsClean(w: World, step: Step, r: nat)
    requires SoundWorld(w) && Enabled(w, step) && !step.PlantWorker? && r < |Apply(w, step).reg.heap|
    requires r < |w.reg.heap| ==> Apply(w, step).reg.heap[r].gen != w.reg.heap[r].gen
    ensures var h := Apply(w, step).reg.heap[r];
            && Clean(h) && (!step.RestoreWorker? ==> !h.collected && !h.closeRequested)
            && (if r < |w.reg.heap| then h.gen == w.reg.heap[r].gen + 1 && h.work.history == w.reg.heap[r].work.history
                                         && h.timeouts == w.reg.heap[r].timeouts
                else h.work.history == [])
  {
    hide SoundWorld, Apply, Enabled, Newborn, Clean, Reset, Renewed;
    StepStands(w, step);
    StepSizes(w, step);
    if r < |w.reg.heap| {
      if step.Stop? || step.Snap? || step.Store? || step.CloseDone? { ProgressKeepsGen(w, step); }
      RenewsOne(w, step, r);
      ResetIsClean(w.reg.heap[r]);
    } else {
      NewbornIsClean(w, step, Apply(w, step).reg.heap[r]);
    }
  }

  /** A handle that changes generation is the one a resume renews. */
  lemma RenewsOne(w: World, step: Step, r: nat)
    requires SoundWorld(w) && Enabled(w, step) && r < |w.reg.heap| && r < |Apply(w, step).reg.heap|
    requires Apply(w, step).reg.heap[r].gen != w.reg.heap[r].gen && Mover(w.reg, step) == Some(r) && step.Claim?
    ensures Apply(w, step).reg.heap[r] == Reset(w.reg.heap[r]) && Reset(w.reg.heap[r]).gen == w.reg.heap[r].gen + 1
  {
    hide SoundWorld, Apply, Enabled, Newborn, Renewed;
    EnlistingShape(w, step);
    if Apply(w, step).reg == Renewed(w.reg, r) { RenewedValue(w.reg, r); }
  }

  // ---------- a checkpoint comes back ----------

  /** The marks of a checkpoint leave the worker owed to somebody. */
  predicate LeftOwed(p: Past) { !p.collected && !p.closeRequested }

  /**
   Restoring a running worker from its archived identity, in a process that never had it, makes the worker
   that was archived: snapshot again, nothing differs. It is running, owed exactly if its marks say so, and
   the counter is at least the number in its id.
   */
  lemma RestoreRoundTrip(w: World, p: Past, base: Surface)
    requires SoundWorld(w) && p.gen > 0 && Enabled(w, RestoreOf(p, base))
    requires RestoredTools(RestoreOf(p, base)) == p.tools
    requires Apply(w, RestoreOf(p, base)).reg != w.reg
    ensures var s, s' := w.reg, Apply(w, RestoreOf(p, base)).reg;
            && |s'.heap| == |s.heap| + 1 && SnapshotPast(s'.heap[|s.heap|]) == p && s'.heap[|s.heap|].phase == Live
            && p.id in s'.agents && s'.agents[p.id] == |s.heap|
            && (p.id in s'.pending <==> LeftOwed(p))
            && s'.counter == if TrailingSeq(p.id) > s.counter then TrailingSeq(p.id) else s.counter
  {
    hide Sound, Seen, TokenHolds, SnapsMatch, TrailingSeq, Enlist, NoteId, Apply, RestoredTools, ClaimForRestore, Rebuilt;
    var step := RestoreOf(p, base);
    RestoreShape(w, step);
    NoteIdFields(w.reg, p.id);
    EnlistTables(w.reg, NoteId(w.reg, p.id), RestoredOf(step));
    EnlistCounter(NoteId(w.reg, p.id), RestoredOf(step));
    UnseenUnlisted(w.reg, p.id);
  }

  function RestoreOf(p: Past, base: Surface): (step: Step) {
    RestoreWorker(p.id, p.role, p.timeouts, p.parent, base, p.tools, p.gen, p.collected, p.closeRequested)
  }

  /**
   A planted worker that left the roster is owed exactly if its roster kept a generation and neither mark is
   set: one from before generations were kept counts as collected. It is finished, of that generation or the
   first.
   */
  lemma PlantedIsOwedIff(s: Reg, id: string, role: string, parent: string, gen: int, collected: bool, closing: bool,
                         timeouts: nat, tools: Option<seq<string>>, result: string, err: WorkerError)
    requires id !in s.agents && id !in s.pending
    requires Plant(s, PlantedHandle(id, role, parent, gen, collected, closing, timeouts, tools, result, err)).Admitted?
    ensures var a := Plant(s, PlantedHandle(id, role, parent, gen, collected, closing, timeouts, tools, result, err));
            && a.ref == |s.heap| && |a.reg.heap| == |s.heap| + 1 && IsDone(a.reg.heap[a.ref])
            && (id in a.reg.pending <==> gen > 0 && !collected && !closing)
            && (gen > 0 ==> SnapshotPast(a.reg.heap[a.ref]) == Past(id, role, parent, gen, collected, closing, timeouts, tools))
            && (gen <= 0 ==> SnapshotPast(a.reg.heap[a.ref]) == Past(id, role, parent, 1, true, closing, timeouts, tools))
            && a.reg.heap[a.ref].result == result && a.reg.heap[a.ref].err == err
  {
    hide ScopeFits, ParentAllowed, TrailingSeq, NoteId, Enlist;
    var h := PlantedHandle(id, role, parent, gen, collected, closing, timeouts, tools, result, err);
    EnlistTables(s, s, h);
    NoteIdFields(Enlist(s, h), id);
  }
}
