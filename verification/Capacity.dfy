/**
 Admission (gate.go:76-101, spawn.go:61-74, resume.go:283-344). The count is taken and the handle inserted
 under one lock, so tool calls made in parallel cannot slip past the cap together; and one finished
 worker is never started twice.
 */
module Capacity {
  import opened Common
  import opened WorkerId
  import opened Handoff
  import opened Lifecycle
  import opened Runs
  import opened Soundness
  import opened Settlement

  /** Every handle whose current generation has not closed its done channel, on the roster or not. */
  function Unfinished(s: Reg): set<Ref> {
    set r | 0 <= r < |s.heap| && !IsDone(s.heap[r])
  }

  lemma {:induction false} ImageSize(a: set<string>, b: set<Ref>, f: map<string, Ref>)
    requires a <= f.Keys && (forall x :: x in a ==> f[x] in b) && (forall y :: y in b ==> exists x :: x in a && f[x] == y)
    requires forall x, y :: x in a && y in a && f[x] == f[y] ==> x == y
    ensures |a| == |b|
    decreases a
  {
    if a != {} {
      var x :| x in a;
      forall y | y in b - {f[x]} ensures exists z :: z in a - {x} && f[z] == y {
        var z :| z in a && f[z] == y;
        assert z in a - {x};
      }
      ImageSize(a - {x}, b - {f[x]}, f);
    } else {
      assert b == {};
    }
  }

  /** Counting the roster counts every unfinished worker there is. */
  lemma LiveCountIsUnfinished(s: Reg)
    requires Sound(s) && !s.closed
    ensures LiveCount(s) == |Unfinished(s)|
  {
    SoundParts(s);
    hide Sound, Newest;
    forall id | id in LiveIds(s) ensures s.agents[id] in Unfinished(s) { NewestInside(s, s.agents[id]); }
    forall r | r in Unfinished(s) ensures exists id :: id in LiveIds(s) && s.agents[id] == r {
      assert s.heap[r].id in LiveIds(s);
    }
    ImageSize(LiveIds(s), Unfinished(s), s.agents);
  }

  // ---------- the cap ----------

  /** Spawns and resumes through the manager's tools, under a cap nobody changes. */
  predicate Capped(step: Step) {
    && (step.SpawnWorker? || step.Claim? ==> step.admit) && !step.SetCap? && !step.RestoreWorker?
  }

  lemma CapStays(w: World, step: Step)
    requires Sound(w.reg) && Enabled(w, step) && Capped(step)
    ensures Apply(w, step).reg.cap == w.reg.cap
  {
    if Enlists(step) { EnlistingCap(w, step); } else { OthersCap(w, step); }
  }

  lemma OthersCap(w: World, step: Step)
    requires Enabled(w, step) && !Enlists(step) && !step.SetCap?
    ensures Apply(w, step).reg.cap == w.reg.cap
  {
    hide Remember, Get, Recall, Complete, CloseHandles, ClosePast, Subtree;
    if step.Store? { RememberRoster(Put(w.reg, step.r, At(w.reg, step.r).(phase := Archived)), w.reg.heap[step.r].phase.past); }
  }

  lemma EnlistCap(s: Reg, h: Handle)
    ensures Enlist(s, h).cap == s.cap
  {
  }

  lemma EnlistingCap(w: World, step: Step)
    requires Sound(w.reg) && Enabled(w, step) && Enlists(step) && !step.RestoreWorker?
    ensures Apply(w, step).reg.cap == w.reg.cap
  {
    hide Sound, Seen, TrailingSeq, Spawn, ClaimForResume, Plant, Remember, Enlist, NoteId, ScopeFits, ParentAllowed, CallerActive, LiveCount, Mint;
    var s := w.reg;
    match step
    case SpawnWorker(_, _, _, _, _) =>
      SpawnStep(w, step);
      EnlistCap(SpawnBase(w, step), SpawnMade(w, step));
    case Claim(p, _, admit) =>
      ClaimShape(s, p, admit);
      EnlistCap(s, ResumedHandle(p));
    case PlantWorker(h) =>
      PlantShape(w, step);
      NoteIdFields(s, h.id);
      EnlistCap(NoteId(s, h.id), h);
      RememberRoster(Enlist(NoteId(s, h.id), h), SnapshotPast(h));
  }

  /** A step that starts a generation was let in below the cap, and starts one. */
  lemma AdmittedBelowCap(w: World, step: Step)
    requires SoundWorld(w) && Enabled(w, step) && Capped(step) && Enlists(step) && Apply(w, step).reg != w.reg
    ensures step.PlantWorker? || LiveCount(w.reg) < w.reg.cap
    ensures !w.reg.closed
  {
    hide Sound, Seen, TrailingSeq, Spawn, ClaimForResume, Plant, Remember, Enlist, TokenHolds, SnapsMatch,
      NoteId, ScopeFits, ParentAllowed, CallerActive, LiveCount, Renewed, Mint;
    var s := w.reg;
    match step
    case SpawnWorker(_, _, _, _, _) => SpawnStep(w, step);
    case Claim(p, _, admit) => ClaimShape(s, p, admit);
    case PlantWorker(h) => PlantShape(w, step);
  }

  lemma EnlistedOne(s: Reg, s': Reg, step: Step)
    requires Enlisted(s, s', step)
    ensures Unfinished(s') <= Unfinished(s) + {|s.heap|}
    ensures IsDone(s'.heap[|s.heap|]) ==> Unfinished(s') <= Unfinished(s)
  {
    hide Newborn;
  }

  lemma RenewedOne(s: Reg, r: Ref)
    ensures Unfinished(Renewed(s, r)) <= Unfinished(s) + {r}
  {
  }

  /** One generation at most. */
  lemma StartsOne(w: World, step: Step)
    requires SoundWorld(w) && Enabled(w, step) && Enlists(step)
    ensures exists r :: Unfinished(Apply(w, step).reg) <= Unfinished(w.reg) + {r}
    ensures step.PlantWorker? ==> Unfinished(Apply(w, step).reg) <= Unfinished(w.reg)
  {
    hide SoundWorld, Apply, Unfinished, ScopeFits, ParentAllowed, CallerActive, TrailingSeq, Mint, Seen, Renewed;
    EnlistingShape(w, step);
    var s, s' := w.reg, Apply(w, step).reg;
    if Enlisted(s, s', step) {
      EnlistedOne(s, s', step);
    } else if s' == s {
      assert Unfinished(s') <= Unfinished(s) + {|s.heap|};
    } else {
      RenewedOne(s, s.agents[step.p.id]);
    }
  }

  lemma OthersStartNone(w: World, step: Step)
    requires SoundWorld(w) && Enabled(w, step) && !Enlists(step)
    ensures Unfinished(Apply(w, step).reg) <= Unfinished(w.reg)
  {
    hide SoundWorld, Apply;
    StepExtends(w, step);
    OthersShrink(w, step);
    StepStands(w, step);
    forall r | r in Unfinished(Apply(w, step).reg) ensures r in Unfinished(w.reg) {
      assert Advances(w.reg.heap[r], Apply(w, step).reg.heap[r]);
    }
  }

  lemma StepCapped(w: World, step: Step)
    requires SoundWorld(w) && Enabled(w, step) && Capped(step) && |Unfinished(w.reg)| <= w.reg.cap
    ensures |Unfinished(Apply(w, step).reg)| <= Apply(w, step).reg.cap
  {
    hide SoundWorld, Apply, Enabled, Unfinished, LiveCount;
    SoundWorldParts(w);
    CapStays(w, step);
    var s, s' := w.reg, Apply(w, step).reg;
    if !Enlists(step) {
      OthersStartNone(w, step);
      SubsetLeq(Unfinished(s'), Unfinished(s));
    } else if s' != s {
      AdmittedBelowCap(w, step);
      LiveCountIsUnfinished(s);
      StartsOne(w, step);
      if step.PlantWorker? {
        SubsetLeq(Unfinished(s'), Unfinished(s));
      } else {
        var r :| Unfinished(s') <= Unfinished(s) + {r};
        SubsetLeq(Unfinished(s'), Unfinished(s) + {r});
      }
    }
  }

  /** In every interleaving, the workers of all ids not yet finished never outnumber the cap. */
  lemma {:induction false} NeverOverCap(ws: seq<World>, steps: seq<Step>, i: nat)
    requires IsRun(ws, steps) && FromStart(ws) && i < |ws| && forall k :: 0 <= k < |steps| ==> Capped(steps[k])
    ensures |Unfinished(ws[i].reg)| <= ws[i].reg.cap
    decreases i
  {
    hide Apply, Enabled, SoundWorld;
    if i > 0 {
      hide FromStart, Unfinished;
      NeverOverCap(ws, steps, i - 1);
      RunSound(ws, steps, i - 1);
      assert Enabled(ws[i - 1], steps[i - 1]) && ws[i - 1 + 1] == Apply(ws[i - 1], steps[i - 1]);
      StepCapped(ws[i - 1], steps[i - 1]);
    } else {
      assert Unfinished(ws[0].reg) == {};
    }
  }

  // ---------- one start at a time ----------

  /** While a worker is unfinished, nothing starts its id again: no resume, restore or planting. */
  lemma UnfinishedIsNotStarted(s: Reg, r: Ref, p: Past, admit: bool)
    requires Sound(s) && r < |s.heap| && !IsDone(s.heap[r]) && p.id == s.heap[r].id
    ensures ClaimForResume(s, p, admit).Denied?
    ensures forall role, failures, parent, tools :: ClaimForRestore(s, p.id, role, failures, parent, tools).Denied?
    ensures forall h: Handle :: h.id == p.id ==> Plant(s, h).Denied?
  {
    SoundParts(s);
    hide Sound, ScopeFits, ParentAllowed, LiveCount;
  }

  /**
   Of two resumes of one finished worker, whatever each recalled and whenever it did, the second is
   refused until the generation the first one started is over.
   */
  lemma OneResumeWins(ws: seq<World>, steps: seq<Step>, i: nat, k: nat,
                      p: Past, base: Surface, admit: bool, q: Past, admit': bool)
    requires IsRun(ws, steps) && FromStart(ws) && i < |steps| && i < k < |ws| && steps[i] == Claim(p, base, admit) && p.id == q.id
    requires Rebuilt(base, p.tools).Some? && ClaimForResume(ws[i].reg, p, admit).Admitted?
    ensures var r := ClaimForResume(ws[i].reg, p, admit).ref;
            && r < |ws[k].reg.heap| && r < |ws[i + 1].reg.heap|
            && (ws[k].reg.heap[r].gen == ws[i + 1].reg.heap[r].gen && !IsDone(ws[k].reg.heap[r]) ==>
                 ClaimForResume(ws[k].reg, q, admit').Denied?)
            && ws[i + 1].reg.heap[r].phase == Live
  {
    hide SoundWorld, FromStart, Enabled, Apply, ClaimForResume, Rebuilt;
    RunSound(ws, steps, i);
    RunSound(ws, steps, k);
    SoundWorldParts(ws[k]);
    assert ws[i + 1] == Apply(ws[i], steps[i]);
    ClaimedLive(ws[i], p, base, admit);
    var r := ClaimForResume(ws[i].reg, p, admit).ref;
    KeepsId(ws, steps, i + 1, k, r);
    if !IsDone(ws[k].reg.heap[r]) { UnfinishedIsNotStarted(ws[k].reg, r, q, admit'); }
  }

  lemma ClaimApplied(w: World, p: Past, base: Surface, admit: bool)
    requires Rebuilt(base, p.tools).Some? && ClaimForResume(w.reg, p, admit).Admitted?
    ensures Apply(w, Claim(p, base, admit)).reg == ClaimForResume(w.reg, p, admit).reg
  {
    hide ClaimForResume, Rebuilt;
  }

  lemma ClaimedLive(w: World, p: Past, base: Surface, admit: bool)
    requires SoundWorld(w) && Rebuilt(base, p.tools).Some? && ClaimForResume(w.reg, p, admit).Admitted?
    ensures var r, s' := ClaimForResume(w.reg, p, admit).ref, Apply(w, Claim(p, base, admit)).reg;
            r < |s'.heap| && s'.heap[r].id == p.id && s'.heap[r].phase == Live
  {
    hide SoundWorld, ClaimForResume, LiveCount, ScopeFits, Enlist, Rebuilt, Apply;
    SoundWorldParts(w);
    ClaimApplied(w, p, base, admit);
    ClaimShape(w.reg, p, admit);
    if p.id in w.reg.agents {
      SoundParts(w.reg);
      NewestInside(w.reg, w.reg.agents[p.id]);
    } else {
      EnlistHeap(w.reg, ResumedHandle(p));
    }
  }
}
