/**
 What a sweep of the roster changes and what a look at it finds (swarm.go:617-630, 731-747, handoff.go:72-83,
 resume.go:112-203), told from the handles: the tables are only where the code looks.
 */
module Roster {
  import opened Common
  import opened Order
  import opened Decimal
  import opened Handoff
  import opened Lifecycle
  import opened Runs
  import opened Soundness
  import opened Settlement
  import opened WorkerId
  import opened ToolScope
  import opened Family
  import opened RoleLock
  import Capacity
  import Archive

  // ---------- sweeps ----------

  /** A handle is on the roster if its worker is unfinished and the registry open. */
  lemma UnfinishedOnRoster(s: Reg, r: nat)
    requires Sound(s) && r < |s.heap| && s.heap[r].phase != Done
    ensures !s.closed <==> s.heap[r].id in s.agents && s.agents[s.heap[r].id] == r
  {
    SoundParts(s);
  }

  /** The handoff asks exactly the workers whose run has not ended, of an open registry, and changes nothing else. */
  lemma HandoffAsksExactlyTheRunning(s: Reg)
    requires Sound(s)
    ensures var s' := BeginHandoff(s);
            && s' == s.(handingOff := true, heap := s'.heap) && |s'.heap| == |s.heap|
            && forall r :: 0 <= r < |s.heap| ==>
                 s'.heap[r] == if !s.closed && s.heap[r].phase == Live
                               then s.heap[r].(work := s.heap[r].work.(handoff := s.heap[r].work.handoff.(requested := true)))
                               else s.heap[r]
  {
    SoundParts(s);
    hide Sound;
    forall r | 0 <= r < |s.heap| && s.heap[r].phase == Live ensures !s.closed <==> s.heap[r].id in s.agents && s.agents[s.heap[r].id] == r {
      UnfinishedOnRoster(s, r);
    }
  }

  /** Cleanup takes the right to delegate, with delegation on, from exactly the unfinished workers of an open registry. */
  lemma CleanupMarksExactlyTheUnfinished(s: Reg)
    requires Sound(s)
    ensures var s' := CleanupMarks(s);
            && s' == s.(heap := s'.heap) && |s'.heap| == |s.heap|
            && forall r :: 0 <= r < |s.heap| ==>
                 s'.heap[r] == if s.delegation && !s.closed && s.heap[r].phase != Done then s.heap[r].(closeRequested := true) else s.heap[r]
  {
    SoundParts(s);
    hide Sound;
    forall r | 0 <= r < |s.heap| && s.heap[r].phase != Done ensures !s.closed <==> s.heap[r].id in s.agents && s.agents[s.heap[r].id] == r {
      UnfinishedOnRoster(s, r);
    }
  }

  /** And it names exactly those for the cancellation that follows. */
  lemma CleanupNamesTheUnfinished(s: Reg, r: nat)
    requires Sound(s) && r < |s.heap|
    ensures r in Running(s) <==> !s.closed && s.heap[r].phase != Done
  {
    SoundParts(s);
    if s.heap[r].phase != Done { UnfinishedOnRoster(s, r); }
    if r in Running(s) {
      var id :| id in s.agents && !IsDone(At(s, s.agents[id])) && s.agents[id] == r;
      NewestInside(s, s.agents[id]);
    }
  }

  /** A reset clears the counts of the roster and the archive, and touches nothing else. */
  lemma ResetClearsExactly(s: Reg)
    requires Sound(s)
    ensures var s' := ResetTimeouts(s);
            && s' == s.(heap := s'.heap, past := s'.past) && |s'.heap| == |s.heap| && s'.past.Keys == s.past.Keys
            && (forall r :: 0 <= r < |s.heap| ==> s'.heap[r] == s.heap[r].(timeouts := s'.heap[r].timeouts))
            && (forall r :: 0 <= r < |s.heap| ==> s'.heap[r].timeouts == if r in s.agents.Values then 0 else s.heap[r].timeouts)
            && (forall id :: id in s.past ==> s'.past[id] == s.past[id].(timeouts := 0))
  {
    SoundParts(s);
    hide Sound, Newest;
    forall r | 0 <= r < |s.heap| ensures r in s.agents.Values <==> s.heap[r].id in s.agents && s.agents[s.heap[r].id] == r {
      if r in s.agents.Values {
        var id :| id in s.agents && s.agents[id] == r;
        NewestInside(s, r);
      }
    }
  }

  /** Pruning takes exactly the finished workers off the roster, and nothing out of any other table. */
  lemma PruneDropsExactlyTheFinished(s: Reg, id: string)
    requires Sound(s)
    ensures Stats(s) == s.(agents := Stats(s).agents)
    ensures id in Stats(s).agents <==> !s.closed && exists r :: 0 <= r < |s.heap| && s.heap[r].id == id && s.heap[r].phase != Done
    ensures id in Stats(s).agents ==> id in s.agents && Stats(s).agents[id] == s.agents[id]
  {
    SoundParts(s);
    hide Sound, Newest;
    if id in s.agents { NewestInside(s, s.agents[id]); }
    if r :| 0 <= r < |s.heap| && s.heap[r].id == id && s.heap[r].phase != Done { UnfinishedOnRoster(s, r); }
  }

  // ---------- looks ----------

  /** The conversation as a finished handle of the id tells it, the newest there is. */
  ghost predicate LastTold(s: Reg, id: string, p: Past) {
    exists r :: Newest(s, r) && s.heap[r].id == id && s.heap[r].phase == Done && p == Past(
      id, s.heap[r].role, s.heap[r].parent, s.heap[r].gen, s.heap[r].collected, s.heap[r].closeRequested, s.heap[r].timeouts, s.heap[r].tools)
  }

  /**
   recall gives the archived conversation if there is one, and otherwise that of the worker's newest handle,
   once it is finished and as long as it is listed or owed; and it says why it gives none.
   */
  lemma RecallTells(s: Reg, id: string)
    requires Sound(s)
    ensures var a := Recall(s, id);
            && (id in s.past ==> a == Found(s.past[id]))
            && (id !in s.past && a.Found? ==> LastTold(s, id, a.past) && (id in s.agents || id in s.pending))
            && (a.NotFound? ==>
                  a.why == if s.closed then RegistryClosed
                  else if exists r :: 0 <= r < |s.heap| && s.heap[r].id == id && s.heap[r].phase != Done then StillRunning
                  else UnknownAgent)
            && (a.NotFound? && a.why == UnknownAgent ==> id !in s.agents && id !in s.pending && id !in s.past)
  {
    SoundParts(s);
    hide Sound, Newest;
    if id in s.agents { NewestInside(s, s.agents[id]); }
    if id in s.pending { NewestInside(s, s.pending[id]); }
    if r :| 0 <= r < |s.heap| && s.heap[r].id == id && s.heap[r].phase != Done { UnfinishedOnRoster(s, r); }
  }

  /** runningID finds a worker of the role that is unfinished, and nobody only if there is none. */
  lemma RunningIsFound(s: Reg, role: string, found: Option<string>)
    requires Sound(s) && !s.closed
    ensures RunningAnswer(s, role, found) <==>
            match found
            case Some(id) => exists r :: 0 <= r < |s.heap| && s.heap[r].id == id && s.heap[r].role == role && s.heap[r].phase != Done
            case None => forall r :: 0 <= r < |s.heap| && s.heap[r].role == role ==> s.heap[r].phase == Done
  {
    SoundParts(s);
    hide Sound, Newest;
    forall id | id in s.agents ensures s.agents[id] < |s.heap| && s.heap[s.agents[id]].id == id { NewestInside(s, s.agents[id]); }
    forall r | 0 <= r < |s.heap| && s.heap[r].phase != Done ensures s.heap[r].id in s.agents && s.agents[s.heap[r].id] == r {
      UnfinishedOnRoster(s, r);
    }
  }

  /** An archived conversation of the role that nobody continues. */
  predicate FreeOfRole(s: Reg, role: string, id: string) {
    id in s.past && s.past[id].role == role && forall r :: 0 <= r < |s.heap| && s.heap[r].id == id ==> s.heap[r].phase == Done
  }

  /** reusableFinishedID takes the archive first, and of the free conversations of the role the one that arrived last. */
  lemma LatestIsReused(s: Reg, role: string, found: Option<string>, id: string)
    requires Sound(s) && FinishedAnswer(s, role, found) && FreeOfRole(s, role, id)
    ensures found.Some? && FreeOfRole(s, role, found.value)
    ensures found.value == id || Archive.Precedes(s.pastIds, id, found.value)
  {
    hide Sound, ArchivedFree, FreeOfRole, DoneIn;
    FreeIs(s, role, id);
    ListedOnce(s, role, id);
    FreeIs(s, role, found.value);
    var j :| 0 <= j < |s.pastIds| && s.pastIds[j] == id;
    var k :| 0 <= k < |s.pastIds| && s.pastIds[k] == found.value
             && forall j :: k < j < |s.pastIds| ==> !ArchivedFree(s, role, s.pastIds[j]);
    if j < k { assert Archive.Precedes(s.pastIds, id, found.value); }
  }

  lemma ListedOnce(s: Reg, role: string, id: string)
    requires Sound(s) && ArchivedFree(s, role, id)
    ensures id in s.past && id in s.pastIds
  {
    SoundParts(s);
  }

  lemma FreeIs(s: Reg, role: string, id: string)
    requires Sound(s)
    ensures FreeOfRole(s, role, id) <==> ArchivedFree(s, role, id)
  {
    SoundParts(s);
    hide Sound, Newest;
    if id in s.agents { NewestInside(s, s.agents[id]); }
    if id in s.past && s.closed { assert false; }
    forall r | 0 <= r < |s.heap| && s.heap[r].id == id && s.heap[r].phase != Done && !s.closed ensures id in s.agents && s.agents[id] == r {
      UnfinishedOnRoster(s, r);
    }
  }

  // ---------- a spawn_agent call ends with a worker, or with a refusal ----------

  predicate Unfinished(s: Reg, id: string) { exists r :: 0 <= r < |s.heap| && s.heap[r].id == id && s.heap[r].phase != Done }

  predicate Serves(s: Reg, role: string) { exists r :: 0 <= r < |s.heap| && s.heap[r].role == role && s.heap[r].phase != Done }

  lemma SteerFinds(s: Reg, id: string)
    requires Sound(s) && !s.closed
    ensures Get(s, id).Some? && !IsDone(At(s, Get(s, id).value)) <==> Unfinished(s, id)
  {
    SoundParts(s);
    hide Sound, Newest;
    if id in s.agents { NewestInside(s, s.agents[id]); }
    if id in s.pending { NewestInside(s, s.pending[id]); }
    forall r | 0 <= r < |s.heap| && s.heap[r].id == id && s.heap[r].phase != Done ensures id in s.agents && s.agents[id] == r {
      UnfinishedOnRoster(s, r);
    }
  }

  /** A call that found a running worker delivers to it if it still runs, and looks for a finished one otherwise. */
  lemma SteersOnlyToTheRunning(y: Sys, i: nat)
    requires SysOk(y) && EventEnabled(y, Steer(i)) && !y.w.reg.closed
    ensures OnEvent(y, Steer(i)).w == y.w
    ensures OnEvent(y, Steer(i)).calls[i].pc == if Unfinished(y.w.reg, y.calls[i].pc.id) then Leaving else Reusing
  {
    hide SoundWorld, KinWorld, OneEach, Exclusive, Knows, Unfinished, Get;
    SoundWorldParts(y.w);
    SteerFinds(y.w.reg, y.calls[i].pc.id);
  }

  lemma ClaimServes(w: World, p: Past, base: Surface, admit: bool)
    requires SoundWorld(w) && KinWorld(w) && p in w.recalled && Apply(w, Claim(p, base, admit)) != w
    ensures Unfinished(Apply(w, Claim(p, base, admit)).reg, p.id)
  {
    hide SoundWorld, KinWorld, ClaimForResume, Rebuilt, Apply;
    if Rebuilt(base, p.tools).Some? && ClaimForResume(w.reg, p, admit).Admitted? {
      Capacity.ClaimedLive(w, p, base, admit);
    } else {
      ClaimRefused(w, p, base, admit);
    }
  }

  lemma ClaimRefused(w: World, p: Past, base: Surface, admit: bool)
    requires Rebuilt(base, p.tools).None? || ClaimForResume(w.reg, p, admit).Denied?
    ensures Apply(w, Claim(p, base, admit)) == w
  {
    hide ClaimForResume, Rebuilt;
  }

  lemma InsertServes(w: World, step: Step)
    requires SoundWorld(w) && Enabled(w, step) && step.SpawnWorker? && Apply(w, step) != w
    ensures Serves(Apply(w, step).reg, step.role)
  {
    hide SoundWorld, Apply, Enlist, Enabled;
    SpawnStep(w, step);
    EnlistTables(w.reg, SpawnBase(w, step), SpawnMade(w, step));
    var s' := Apply(w, step).reg;
    assert s'.heap[|w.reg.heap|] == SpawnMade(w, step);
  }

  /**
   When a spawn_agent call is ready to return, it was cut short from outside, or delivered to a worker that still
   runs, or resumed one or made one of its role, unless the registry refused that admission and changed
   nothing, or the conversation to resume was gone.
   */
  lemma CallLeavesServed(y: Sys, e: Event, i: nat)
    requires SysOk(y) && EventEnabled(y, e) && i < |y.calls| && y.calls[i].pc != Leaving && !y.w.reg.closed
    requires i < |OnEvent(y, e).calls| && OnEvent(y, e).calls[i].pc == Leaving
    ensures var y' := OnEvent(y, e);
            || e == Refuse(i)
            || (e == Steer(i) && Unfinished(y'.w.reg, y.calls[i].pc.id))
            || (e == RecallIt(i) && Recall(y.w.reg, y.calls[i].pc.id).NotFound?)
            || (e.ClaimIt? && e.i == i && (y'.w == y.w || Unfinished(y'.w.reg, y.calls[i].pc.past.id)))
            || (e.Insert? && e.i == i && (y'.w == y.w || Serves(y'.w.reg, y.calls[i].role)))
  {
    hide SoundWorld, KinWorld, OneEach, Exclusive, Knows, Unfinished, Serves, Get, Recall, RunningAnswer, FinishedAnswer, Pick, Apply, Enabled;
    match e
    case Steer(j) => if j == i { SteersOnlyToTheRunning(y, i); }
    case ClaimIt(j, base) =>
      if j == i {
        assert Knows(y.w, y.calls[i]);
        ClaimingRecalled(y.w, y.calls[i]);
        if Apply(y.w, Claim(y.calls[i].pc.past, base, true)) != y.w { ClaimServes(y.w, y.calls[i].pc.past, base, true); }
      }
    case Insert(j, caller, base, names) =>
      if j == i {
        var step := SpawnWorker(y.calls[i].role, caller, base, names, true);
        if Apply(y.w, step) != y.w { InsertServes(y.w, step); }
      }
    case _ =>
  }

  lemma ClaimingRecalled(w: World, c: Call)
    requires Knows(w, c) && c.pc.Claiming?
    ensures c.pc.past in w.recalled
  {
  }

  // ---------- names ----------

  /** The n-th name tried for a job: the job itself, and then numbered from two. */
  function Tried(base: string, n: nat): string { if n < 2 then base else base + "-" + Digits(n) }

  /**
   A path-shaped spawn gets its job's name, or worker for a job that has none or would be the manager's; if that is
   taken, the first of its names numbered 2 to 9999 that is not; and the job's own name if all are taken.
   It is never the manager's.
   */
  lemma PickSaysWhich(s: Reg, claims: map<string, nat>, stem: string)
    ensures var base := if stem == "" || stem == "manager" then "worker" else stem;
            var pick := Pick(s, claims, stem);
            && ((exists n :: 1 <= n <= 9999 && pick == Tried(base, n) && !RoleBusy(s, claims, Tried(base, n))
                             && forall k :: 1 <= k < n ==> RoleBusy(s, claims, Tried(base, k)))
                || (pick == base && forall k :: 1 <= k <= 9999 ==> RoleBusy(s, claims, Tried(base, k))))
            && pick != "manager" && pick != ""
  {
    hide RoleBusy, Digits, PickFrom;
    var base := if stem == "" || stem == MANAGER then "worker" else stem;
    PickFromFirst(s, claims, base, 1);
    forall n: nat ensures Candidate(base, n) == Tried(base, n) && Tried(base, n) != "manager" && Tried(base, n) != "" {
      if n >= 2 { assert Tried(base, n)[|base|] == '-'; }
    }
    if m: nat :| FirstFree(s, claims, base, 1, m) && PickFrom(s, claims, base, 1) == Candidate(base, m) {
      assert !RoleBusy(s, claims, Tried(base, m));
      assert forall k :: 1 <= k < m ==> RoleBusy(s, claims, Candidate(base, k)) && Candidate(base, k) == Tried(base, k);
    }
  }
}
