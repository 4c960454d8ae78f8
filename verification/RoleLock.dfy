/**
 One worker per role (tools.go:201-263, resume.go:142-217, role.go:77-126). spawn_agent holds the lock of
 its role across several lock-held sections of the registry: look for a running worker, look for a
 finished one, then resume it or insert a new one. Between any two of them other calls for other roles,
 worker ends, pruning, settlement and eviction go on.
 */
module RoleLock {
  import opened Common
  import opened Decimal
  import opened WorkerId
  import opened ToolScope
  import opened Handoff
  import opened Lifecycle
  import opened Runs
  import opened Soundness
  import opened Settlement
  import opened Family
  import opened Capacity
  import Closing

  /** Where a spawn_agent call stands. */
  datatype Pc =
    | Waiting                // for the role's lock
    | Looking                // holds it; about to call runningID
    | Steering(id: string)   // runningID answered
    | Reusing                // about to call reusableFinishedID
    | Resuming(id: string)   // it answered; about to recall
    | Claiming(past: Past)   // recalled; about to claim
    | Inserting              // nobody to reuse; about to insert
    | Leaving
    | Gone

  /** claimed: the role was picked by claimReadableRole. */
  datatype Call = Call(role: string, claimed: bool, pc: Pc)

  /** roleMu as the holder of each role's lock, pendingRoles as claims. */
  datatype Sys = Sys(w: World, calls: seq<Call>, held: map<string, nat>, claims: map<string, nat>)

  datatype Event =
    | Arrive(role: string)
    | ArriveDirty(stem: string)
    | TakeLock(i: nat)
    | LookRunning(i: nat, found: Option<string>)
    | Steer(i: nat)
    | LookFinished(i: nat, found: Option<string>)
    | RecallIt(i: nat)
    | ClaimIt(i: nat, base: Surface)
    | Insert(i: nat, caller: Option<Caller>, base: Surface, names: Names)
    | Refuse(i: nat)
    | Leave(i: nat)
    | Other(step: Step)

  // ---------- the searches ----------

  /** What runningID can answer: any running worker of the role, or nobody if there is none. */
  predicate RunningAnswer(s: Reg, role: string, found: Option<string>) {
    match found
    case Some(id) => id in s.agents && At(s, s.agents[id]).role == role && !IsDone(At(s, s.agents[id]))
    case None => forall id :: id in s.agents && At(s, s.agents[id]).role == role ==> IsDone(At(s, s.agents[id]))
  }

  /** An archived conversation of the role whose worker does not run. */
  predicate ArchivedFree(s: Reg, role: string, id: string) {
    id in s.past && s.past[id].role == role && (id in s.agents ==> IsDone(At(s, s.agents[id])))
  }

  predicate DoneIn(s: Reg, table: map<string, Ref>, role: string, id: string) {
    id in table && At(s, table[id]).role == role && IsDone(At(s, table[id]))
  }

  /** What reusableFinishedID can answer: the archive first, latest first, then the roster, then pending results. */
  predicate FinishedAnswer(s: Reg, role: string, found: Option<string>) {
    match found
    case Some(id) =>
      || (exists k :: 0 <= k < |s.pastIds| && s.pastIds[k] == id && ArchivedFree(s, role, id)
                      && forall j :: k < j < |s.pastIds| ==> !ArchivedFree(s, role, s.pastIds[j]))
      || ((forall x :: x in s.past ==> !ArchivedFree(s, role, x))
          && (DoneIn(s, s.agents, role, id)
              || ((forall x :: x in s.agents ==> !DoneIn(s, s.agents, role, x)) && DoneIn(s, s.pending, role, id))))
    case None =>
      && (forall x :: x in s.past ==> !ArchivedFree(s, role, x))
      && (forall x :: x in s.agents ==> !DoneIn(s, s.agents, role, x))
      && (forall x :: x in s.pending ==> !DoneIn(s, s.pending, role, x))
  }

  // ---------- claimReadableRole ----------

  const LAST_SUFFIX := 9999

  predicate RoleBusy(s: Reg, claims: map<string, nat>, role: string) {
    || (role in claims && claims[role] > 0)
    || (exists id :: id in s.agents && At(s, s.agents[id]).role == role)
    || (exists id :: id in s.past && s.past[id].role == role)
  }

  function Candidate(stem: string, n: nat): string { if n <= 1 then stem else stem + "-" + Digits(n) }

  /** The first free name from the n-th on, or the stem when all are taken. */
  function PickFrom(s: Reg, claims: map<string, nat>, stem: string, n: nat): string
    decreases LAST_SUFFIX + 1 - n
  {
    if n > LAST_SUFFIX then stem
    else if !RoleBusy(s, claims, Candidate(stem, n)) then Candidate(stem, n)
    else PickFrom(s, claims, stem, n + 1)
  }

  function Pick(s: Reg, claims: map<string, nat>, stem: string): string {
    PickFrom(s, claims, if stem == "" || stem == MANAGER then "worker" else stem, 1)
  }

  /** The m-th name is free and all tried before it are taken. */
  predicate FirstFree(s: Reg, claims: map<string, nat>, stem: string, n: nat, m: nat) {
    n <= m <= LAST_SUFFIX && !RoleBusy(s, claims, Candidate(stem, m)) && forall k :: n <= k < m ==> RoleBusy(s, claims, Candidate(stem, k))
  }

  /** The search gives the first free name, or the stem exactly when none is free. */
  lemma {:induction false} PickFromFirst(s: Reg, claims: map<string, nat>, stem: string, n: nat)
    requires 1 <= n <= LAST_SUFFIX + 1
    ensures (exists m :: FirstFree(s, claims, stem, n, m) && PickFrom(s, claims, stem, n) == Candidate(stem, m))
         || ((forall k :: n <= k <= LAST_SUFFIX ==> RoleBusy(s, claims, Candidate(stem, k))) && PickFrom(s, claims, stem, n) == stem)
    decreases LAST_SUFFIX + 1 - n
  {
    hide RoleBusy, Candidate;
    if n <= LAST_SUFFIX {
      if RoleBusy(s, claims, Candidate(stem, n)) {
        PickFromFirst(s, claims, stem, n + 1);
        if m :| FirstFree(s, claims, stem, n + 1, m) && PickFrom(s, claims, stem, n + 1) == Candidate(stem, m) {
          assert FirstFree(s, claims, stem, n, m);
        }
      } else {
        assert FirstFree(s, claims, stem, n, n);
      }
    }
  }

  // ---------- the protocol ----------

  function SetPc(y: Sys, i: nat, pc: Pc): Sys
    requires i < |y.calls|
  {
    y.(calls := y.calls[i := y.calls[i].(pc := pc)])
  }

  function Claims(claims: map<string, nat>, role: string): nat { if role in claims then claims[role] else 0 }

  /** releaseRoleClaim. */
  function Unclaim(claims: map<string, nat>, role: string): map<string, nat> {
    if Claims(claims, role) <= 1 then claims - {role} else claims[role := claims[role] - 1]
  }

  predicate EventEnabled(y: Sys, e: Event) {
    var s := y.w.reg;
    match e
    case Arrive(role) => role != ""
    case ArriveDirty(stem) => true
    case TakeLock(i) => i < |y.calls| && y.calls[i].pc == Waiting && y.calls[i].role !in y.held
    case LookRunning(i, found) => i < |y.calls| && y.calls[i].pc == Looking && RunningAnswer(s, y.calls[i].role, found)
    case Steer(i) => i < |y.calls| && y.calls[i].pc.Steering?
    case LookFinished(i, found) => i < |y.calls| && y.calls[i].pc == Reusing && FinishedAnswer(s, y.calls[i].role, found)
    case RecallIt(i) => i < |y.calls| && y.calls[i].pc.Resuming?
    case ClaimIt(i, base) => i < |y.calls| && y.calls[i].pc.Claiming?
    case Insert(i, caller, base, names) =>
      i < |y.calls| && y.calls[i].pc == Inserting && Enabled(y.w, SpawnWorker(y.calls[i].role, caller, base, names, true))
    case Refuse(i) => i < |y.calls| && y.calls[i].pc != Waiting && y.calls[i].pc != Gone
    case Leave(i) => i < |y.calls| && y.calls[i].pc == Leaving
    case Other(step) => Enabled(y.w, step) && !Enlists(step)
  }

  function OnEvent(y: Sys, e: Event): Sys
    requires EventEnabled(y, e)
  {
    var s := y.w.reg;
    match e
    case Arrive(role) => y.(calls := y.calls + [Call(role, false, Waiting)])
    case ArriveDirty(stem) =>
      var pick := Pick(s, y.claims, stem);
      y.(calls := y.calls + [Call(pick, true, Waiting)], claims := y.claims[pick := Claims(y.claims, pick) + 1])
    case TakeLock(i) => SetPc(y, i, Looking).(held := y.held[y.calls[i].role := i])
    case LookRunning(i, found) => SetPc(y, i, if found.Some? then Steering(found.value) else Reusing)
    case Steer(i) =>
      var r := Get(s, y.calls[i].pc.id);
      SetPc(y, i, if r.Some? && !IsDone(At(s, r.value)) then Leaving else Reusing)
    case LookFinished(i, found) => SetPc(y, i, if found.Some? then Resuming(found.value) else Inserting)
    case RecallIt(i) =>
      (match Recall(s, y.calls[i].pc.id)
       case Found(p) => SetPc(y, i, Claiming(p)).(w := Apply(y.w, RecallId(y.calls[i].pc.id)))
       case NotFound(_) => SetPc(y, i, Leaving))
    case ClaimIt(i, base) => SetPc(y, i, Leaving).(w := Apply(y.w, Claim(y.calls[i].pc.past, base, true)))
    case Insert(i, caller, base, names) =>
      SetPc(y, i, Leaving).(w := Apply(y.w, SpawnWorker(y.calls[i].role, caller, base, names, true)))
    case Refuse(i) => SetPc(y, i, Leaving)
    case Leave(i) =>
      SetPc(y, i, Gone).(held := y.held - {y.calls[i].role},
                         claims := if y.calls[i].claimed then Unclaim(y.claims, y.calls[i].role) else y.claims)
    case Other(step) => y.(w := Apply(y.w, step))
  }

  // ---------- one id per role ----------

  /** The id is addressable and its worker has the role. */
  ghost predicate Has(s: Reg, id: string, role: string) { id in Known(s) && WasOf(s, id, role) }

  ghost predicate WasOf(s: Reg, id: string, role: string) {
    exists r :: 0 <= r < |s.heap| && s.heap[r].id == id && s.heap[r].role == role
  }

  ghost predicate OneEach(s: Reg) {
    forall a, b, role :: Has(s, a, role) && Has(s, b, role) ==> a == b
  }

  /** No unfinished worker has the role. */
  ghost predicate NoneRunning(s: Reg, role: string) {
    s.closed || forall r :: 0 <= r < |s.heap| && s.heap[r].role == role ==> IsDone(s.heap[r])
  }

  ghost predicate OnlyOne(s: Reg, id: string, role: string) { forall x :: Has(s, x, role) ==> x == id }

  /** What a call knows at its place in the protocol, as long as it holds its role's lock. */
  ghost predicate Knows(w: World, c: Call) {
    match c.pc
    case Steering(id) => OnlyOne(w.reg, id, c.role)
    case Reusing => NoneRunning(w.reg, c.role)
    case Resuming(id) => OnlyOne(w.reg, id, c.role) && WasOf(w.reg, id, c.role)
    case Claiming(p) => OnlyOne(w.reg, p.id, c.role) && WasOf(w.reg, p.id, c.role) && p in w.recalled
    case Inserting => forall x :: !Has(w.reg, x, c.role)
    case _ => true
  }

  predicate Holding(pc: Pc) { pc != Waiting && pc != Gone }

  /** The calls past the lock are the ones that hold it. */
  ghost predicate Exclusive(y: Sys) {
    forall i :: 0 <= i < |y.calls| && Holding(y.calls[i].pc) ==> y.calls[i].role in y.held && y.held[y.calls[i].role] == i
  }

  ghost predicate SysOk(y: Sys) {
    && SoundWorld(y.w) && KinWorld(y.w) && OneEach(y.w.reg) && Exclusive(y)
    && forall i :: 0 <= i < |y.calls| ==> Knows(y.w, y.calls[i])
  }

  // ---------- registry steps as the protocol sees them ----------

  /** A step adds no holder and no runner of the role. */
  ghost predicate Spares(w: World, w': World, role: string) {
    && (forall x :: Has(w'.reg, x, role) ==> Has(w.reg, x, role))
    && (forall x :: WasOf(w.reg, x, role) ==> WasOf(w'.reg, x, role))
    && (NoneRunning(w.reg, role) ==> NoneRunning(w'.reg, role))
    && w.recalled <= w'.recalled
  }

  lemma SparedKnows(w: World, w': World, c: Call)
    requires Spares(w, w', c.role) && Knows(w, c)
    ensures Knows(w', c)
  {
    hide Has, WasOf, NoneRunning;
  }

  lemma WasOfStays(s: Reg, s': Reg)
    requires Extends(s, s')
    ensures forall x, role :: WasOf(s, x, role) ==> WasOf(s', x, role)
  {
    forall x, role | WasOf(s, x, role) ensures WasOf(s', x, role) {
      var r :| 0 <= r < |s.heap| && s.heap[r].id == x && s.heap[r].role == role;
      assert Advances(s.heap[r], s'.heap[r]);
    }
  }

  /** A role an id has after a step it had before, or the id is the newborn's. */
  lemma WasOfBefore(w: World, step: Step, x: string, role: string)
    requires SoundWorld(w) && Enabled(w, step) && WasOf(Apply(w, step).reg, x, role)
    ensures var s, s' := w.reg, Apply(w, step).reg;
            WasOf(s, x, role) || (Enlisted(s, s', step) && s'.heap[|s.heap|].id == x && s'.heap[|s.heap|].role == role)
  {
    hide SoundWorld, Apply, Enabled, Newborn, Extends, Renewed;
    var s, s' := w.reg, Apply(w, step).reg;
    StepExtends(w, step);
    StepSizes(w, step);
    var r :| 0 <= r < |s'.heap| && s'.heap[r].id == x && s'.heap[r].role == role;
    if r < |s.heap| { WasOfEarlier(s, s', r); }
  }

  lemma WasOfEarlier(s: Reg, s': Reg, r: nat)
    requires Extends(s, s') && r < |s.heap|
    ensures WasOf(s, s'.heap[r].id, s'.heap[r].role)
  {
    assert Advances(s.heap[r], s'.heap[r]);
    WasOfAt(s, r);
  }

  lemma RecalledGrows(w: World, step: Step)
    ensures w.recalled <= Apply(w, step).recalled
  {
    hide Spawn, ClaimForResume, ClaimForRestore, Plant, Remember, CloseSubtree, Collect, Stats, Recall, Get, Subtree, SubtreeCancels,
      CleanupMarks, BeginHandoff, ResetTimeouts, CloseRegistry, RestoreCollection, CapturedBySettle, Running, Complete;
  }

  lemma UnfinishedNone(s: Reg, s': Reg, role: string)
    requires Extends(s, s') && Unfinished(s') <= Unfinished(s) && NoneRunning(s, role) && (s.closed ==> s'.closed) && |s'.heap| == |s.heap|
    ensures NoneRunning(s', role)
  {
    forall r | 0 <= r < |s'.heap| && s'.heap[r].role == role && !s'.closed ensures IsDone(s'.heap[r]) {
      assert Advances(s.heap[r], s'.heap[r]);
      assert r in Unfinished(s') <==> !IsDone(s'.heap[r]);
    }
  }

  /** Ends of workers, pruning, settlement, eviction and the rest spare every role. */
  lemma OtherSpares(w: World, step: Step, role: string)
    requires SoundWorld(w) && Enabled(w, step) && !Enlists(step)
    ensures Spares(w, Apply(w, step), role)
  {
    hide SoundWorld, Apply, Enabled, WasOf, Known, NoneRunning, Unfinished;
    var w' := Apply(w, step);
    StepExtends(w, step);
    WasOfStays(w.reg, w'.reg);
    RecalledGrows(w, step);
    OthersShrink(w, step);
    SoundWorldParts(w);
    forall x | Has(w'.reg, x, role) ensures Has(w.reg, x, role) {
      KnownMoves(w, step, x);
      WasOfBefore(w, step, x, role);
    }
    if NoneRunning(w.reg, role) {
      OthersStartNone(w, step);
      if w.reg.closed { Closing.StepStaysClosed(w, step); }
      UnfinishedNone(w.reg, w'.reg, role);
    }
  }

  lemma RoleUnique(s: Reg, x: string, a: string, b: string)
    requires KinHeap(s) && WasOf(s, x, a) && WasOf(s, x, b)
    ensures a == b
  {
    var q :| 0 <= q < |s.heap| && s.heap[q].id == x && s.heap[q].role == a;
    var r :| 0 <= r < |s.heap| && s.heap[r].id == x && s.heap[r].role == b;
    if q < r { assert SameKin(s.heap[q], s.heap[r]); } else if r < q { assert SameKin(s.heap[r], s.heap[q]); }
  }

  /** The role of the generation a resume or a spawn starts. */
  function StartedRole(step: Step): string
    requires step.SpawnWorker? || step.Claim?
  {
    if step.SpawnWorker? then step.role else step.p.role
  }

  lemma NewbornRole(w: World, step: Step)
    requires (step.SpawnWorker? || step.Claim?) && Enlisted(w.reg, Apply(w, step).reg, step)
    ensures Apply(w, step).reg.heap[|w.reg.heap|].role == StartedRole(step)
    ensures step.Claim? ==> Apply(w, step).reg.heap[|w.reg.heap|].id == step.p.id
  {
    hide Apply, ScopeFits, CallerActive, Mint;
  }

  /** Starting a generation of one role adds no holder of another. */
  lemma StartAddsNoOther(w: World, step: Step, x: string, role: string)
    requires SoundWorld(w) && KinWorld(w) && Enabled(w, step) && (step.SpawnWorker? || step.Claim?) && StartedRole(step) != role
    requires Has(Apply(w, step).reg, x, role)
    ensures Has(w.reg, x, role)
  {
    hide SoundWorld, KinWorld, Apply, Enabled, Known, WasOf, Newborn;
    KnownMoves(w, step, x);
    WasOfBefore(w, step, x, role);
    var s' := Apply(w, step).reg;
    if Enlisted(w.reg, s', step) {
      NewbornRole(w, step);
      var n := |w.reg.heap|;
      WasOfAt(s', n);
      StepKin(w, step);
      KinWorldHeap(Apply(w, step));
      if s'.heap[n].id == x { RoleUnique(s', x, role, s'.heap[n].role); }
    }
  }

  lemma WasOfAt(s: Reg, r: nat)
    requires r < |s.heap|
    ensures WasOf(s, s.heap[r].id, s.heap[r].role)
  {
  }

  lemma KinWorldHeap(w: World)
    requires KinWorld(w)
    ensures KinHeap(w.reg)
  {
  }

  lemma RecalledRole(w: World, p: Past)
    requires KinWorld(w) && p in w.recalled
    ensures WasOf(w.reg, p.id, p.role)
  {
    assert KinPast(w.reg, p);
  }

  lemma StartRunsNoOther(w: World, step: Step, role: string)
    requires SoundWorld(w) && KinWorld(w) && Enabled(w, step) && (step.SpawnWorker? || step.Claim?) && StartedRole(step) != role
    requires NoneRunning(w.reg, role)
    ensures NoneRunning(Apply(w, step).reg, role)
  {
    hide SoundWorld, KinWorld, Apply, Newborn, WasOf;
    var s, s' := w.reg, Apply(w, step).reg;
    StepExtends(w, step);
    StepStands(w, step);
    EnlistingShape(w, step);
    SoundWorldParts(w);
    if s.closed { Closing.StepStaysClosed(w, step); }
    forall r | 0 <= r < |s'.heap| && s'.heap[r].role == role && !s'.closed ensures IsDone(s'.heap[r]) {
      if r < |s.heap| {
        assert Advances(s.heap[r], s'.heap[r]);
        if Mover(s, step) == Some(r) {
          AgentInside(w, step.p.id);
          WasOfAt(s, r);
          RecalledRole(w, step.p);
          KinWorldHeap(w);
          RoleUnique(s, step.p.id, role, step.p.role);
        }
      } else {
        NewbornRole(w, step);
      }
    }
  }

  lemma StartSpares(w: World, step: Step, role: string)
    requires SoundWorld(w) && KinWorld(w) && Enabled(w, step) && (step.SpawnWorker? || step.Claim?) && StartedRole(step) != role
    ensures Spares(w, Apply(w, step), role)
  {
    hide SoundWorld, KinWorld, Apply, Enabled, Has, WasOf, NoneRunning;
    var w' := Apply(w, step);
    forall x | Has(w'.reg, x, role) ensures Has(w.reg, x, role) { StartAddsNoOther(w, step, x, role); }
    StepExtends(w, step);
    WasOfStays(w.reg, w'.reg);
    RecalledGrows(w, step);
    if NoneRunning(w.reg, role) { StartRunsNoOther(w, step, role); }
  }

  /** Whoever has the started role afterwards had it, or is the one just enlisted. */
  lemma StartAddsItself(w: World, step: Step, x: string, role: string)
    requires SoundWorld(w) && Enabled(w, step) && (step.SpawnWorker? || step.Claim?) && Has(Apply(w, step).reg, x, role)
    ensures Has(w.reg, x, role) || (Enlisted(w.reg, Apply(w, step).reg, step) && x == Apply(w, step).reg.heap[|w.reg.heap|].id)
  {
    hide SoundWorld, Apply, Enabled, Known, WasOf, Newborn;
    KnownMoves(w, step, x);
    WasOfBefore(w, step, x, role);
  }

  // ---------- each section of a call ----------

  /** An unfinished worker of an open registry is the one its id resolves to. */
  lemma UnfinishedHas(w: World, r: nat)
    requires SoundWorld(w) && r < |w.reg.heap| && !IsDone(w.reg.heap[r]) && !w.reg.closed
    ensures Has(w.reg, w.reg.heap[r].id, w.reg.heap[r].role) && Get(w.reg, w.reg.heap[r].id) == Some(r)
    ensures w.reg.heap[r].id in w.reg.agents && w.reg.agents[w.reg.heap[r].id] == r
  {
    hide Seen, TokenHolds, SnapsMatch, WasOf;
    SoundParts(w.reg);
    WasOfAt(w.reg, r);
  }

  lemma AgentHas(w: World, id: string)
    requires SoundWorld(w) && id in w.reg.agents
    ensures Has(w.reg, id, At(w.reg, w.reg.agents[id]).role)
  {
    hide SoundWorld, WasOf;
    AgentInside(w, id);
    WasOfAt(w.reg, w.reg.agents[id]);
  }

  lemma FindsRunning(w: World, role: string, found: Option<string>)
    requires SoundWorld(w) && OneEach(w.reg) && RunningAnswer(w.reg, role, found)
    ensures found.Some? ==> OnlyOne(w.reg, found.value, role)
    ensures found.None? ==> NoneRunning(w.reg, role)
  {
    hide SoundWorld, Has;
    if found.Some? {
      AgentHas(w, found.value);
    } else {
      forall r | 0 <= r < |w.reg.heap| && w.reg.heap[r].role == role && !w.reg.closed ensures IsDone(w.reg.heap[r]) {
        if !IsDone(w.reg.heap[r]) { UnfinishedHas(w, r); }
      }
    }
  }

  /** The worker found running has stopped by the time it would be steered: then nobody of the role runs. */
  lemma SteersToReuse(w: World, id: string, role: string)
    requires SoundWorld(w) && OnlyOne(w.reg, id, role)
    requires Get(w.reg, id).None? || IsDone(At(w.reg, Get(w.reg, id).value))
    ensures NoneRunning(w.reg, role)
  {
    hide SoundWorld, Has, Get;
    forall r | 0 <= r < |w.reg.heap| && w.reg.heap[r].role == role && !w.reg.closed ensures IsDone(w.reg.heap[r]) {
      if !IsDone(w.reg.heap[r]) { UnfinishedHas(w, r); }
    }
  }

  lemma FindsFinished(w: World, role: string, id: string)
    requires SoundWorld(w) && KinWorld(w) && OneEach(w.reg) && FinishedAnswer(w.reg, role, Some(id))
    ensures OnlyOne(w.reg, id, role) && WasOf(w.reg, id, role)
  {
    hide Seen, TokenHolds, SnapsMatch, KinHeap, WasOf, Newest;
    SoundParts(w.reg);
    var s := w.reg;
    if ArchivedFree(s, role, id) { PastRole(w, id); }
    else if DoneIn(s, s.agents, role, id) { NewestInside(s, s.agents[id]); WasOfAt(s, s.agents[id]); }
    else { NewestInside(s, s.pending[id]); WasOfAt(s, s.pending[id]); }
    assert Has(s, id, role);
  }

  lemma PastRole(w: World, id: string)
    requires Sound(w.reg) && KinWorld(w) && id in w.reg.past
    ensures WasOf(w.reg, id, w.reg.past[id].role)
  {
    SoundParts(w.reg);
    assert KinPast(w.reg, w.reg.past[id]);
  }

  /** A worker of a role none of whose workers runs is found by one of the three scans. */
  lemma HolderIsFound(w: World, role: string, x: string)
    requires SoundWorld(w) && KinWorld(w) && NoneRunning(w.reg, role) && Has(w.reg, x, role)
    ensures ArchivedFree(w.reg, role, x) || DoneIn(w.reg, w.reg.agents, role, x) || DoneIn(w.reg, w.reg.pending, role, x)
  {
    hide Seen, TokenHolds, SnapsMatch, KinHeap, Newest, KinPast, WasOf;
    SoundParts(w.reg);
    var s := w.reg;
    KinWorldHeap(w);
    if x in s.agents {
      NewestInside(s, s.agents[x]);
      WasOfAt(s, s.agents[x]);
      RoleUnique(s, x, role, s.heap[s.agents[x]].role);
    } else if x in s.pending {
      NewestInside(s, s.pending[x]);
      WasOfAt(s, s.pending[x]);
      RoleUnique(s, x, role, s.heap[s.pending[x]].role);
    } else {
      PastRole(w, x);
      RoleUnique(s, x, role, s.past[x].role);
    }
  }

  /** Nobody of the role runs and nobody of it can be reused: so no known id has it. */
  lemma FindsNobody(w: World, role: string, x: string)
    requires SoundWorld(w) && KinWorld(w) && NoneRunning(w.reg, role) && FinishedAnswer(w.reg, role, None)
    ensures !Has(w.reg, x, role)
  {
    hide SoundWorld, KinWorld, NoneRunning, Has, ArchivedFree, DoneIn;
    if Has(w.reg, x, role) {
      HolderIsFound(w, role, x);
      InTables(w.reg, role, x);
    }
  }

  lemma InTables(s: Reg, role: string, x: string)
    ensures ArchivedFree(s, role, x) ==> x in s.past
    ensures DoneIn(s, s.agents, role, x) ==> x in s.agents
    ensures DoneIn(s, s.pending, role, x) ==> x in s.pending
  {
  }

  /** Starting a generation under the lock keeps one id per role. */
  lemma StartKeepsOneEach(w: World, step: Step)
    requires SoundWorld(w) && KinWorld(w) && OneEach(w.reg) && Enabled(w, step) && (step.SpawnWorker? || step.Claim?)
    requires step.SpawnWorker? ==> forall x :: !Has(w.reg, x, step.role)
    requires step.Claim? ==> OnlyOne(w.reg, step.p.id, step.p.role)
    ensures OneEach(Apply(w, step).reg)
  {
    hide SoundWorld, KinWorld, Apply, Enabled, Has, Newborn;
    var s' := Apply(w, step).reg;
    forall a, b, role | Has(s', a, role) && Has(s', b, role) ensures a == b {
      if role != StartedRole(step) {
        StartAddsNoOther(w, step, a, role);
        StartAddsNoOther(w, step, b, role);
      } else {
        StartAddsItself(w, step, a, role);
        StartAddsItself(w, step, b, role);
        if Enlisted(w.reg, s', step) { NewbornRole(w, step); }
      }
    }
  }

  lemma SparedOneEach(w: World, w': World)
    requires OneEach(w.reg) && forall role :: Spares(w, w', role)
    ensures OneEach(w'.reg)
  {
    hide Has;
    forall a, b, role | Has(w'.reg, a, role) && Has(w'.reg, b, role) ensures a == b {
      assert Spares(w, w', role);
    }
  }

  // ---------- every event ----------

  /** The registry step behind an event, if it has one. */
  function StepOf(y: Sys, e: Event): Option<Step>
    requires EventEnabled(y, e)
  {
    match e
    case RecallIt(i) => if Recall(y.w.reg, y.calls[i].pc.id).Found? then Some(RecallId(y.calls[i].pc.id)) else None
    case ClaimIt(i, base) => Some(Claim(y.calls[i].pc.past, base, true))
    case Insert(i, caller, base, names) => Some(SpawnWorker(y.calls[i].role, caller, base, names, true))
    case Other(step) => Some(step)
    case _ => None
  }

  lemma EventStep(y: Sys, e: Event)
    requires SysOk(y) && EventEnabled(y, e)
    ensures StepOf(y, e).None? ==> OnEvent(y, e).w == y.w
    ensures StepOf(y, e).Some? ==> Enabled(y.w, StepOf(y, e).value) && OnEvent(y, e).w == Apply(y.w, StepOf(y, e).value)
  {
    hide SoundWorld, KinWorld, OneEach, Exclusive, Apply, FinishedAnswer, RunningAnswer, Pick, Recall;
    if e.ClaimIt? { assert Knows(y.w, y.calls[e.i]); }
  }

  lemma EventWorld(y: Sys, e: Event)
    requires SysOk(y) && EventEnabled(y, e)
    ensures SoundWorld(OnEvent(y, e).w) && KinWorld(OnEvent(y, e).w)
  {
    hide SoundWorld, KinWorld, OneEach, Exclusive, Apply, EventEnabled, OnEvent, Knows, Enabled;
    EventStep(y, e);
    if StepOf(y, e).Some? {
      StepSoundWorld(y.w, StepOf(y, e).value);
      StepKin(y.w, StepOf(y, e).value);
    }
  }

  lemma EventExclusive(y: Sys, e: Event)
    requires Exclusive(y) && EventEnabled(y, e)
    ensures Exclusive(OnEvent(y, e))
  {
    hide Apply, FinishedAnswer, RunningAnswer, Pick, Recall, Enabled, Get;
  }

  /** The role whose calls an event may disturb: the role of the call that acts. */
  lemma EventSpares(y: Sys, e: Event, role: string)
    requires SysOk(y) && EventEnabled(y, e)
    requires e.ClaimIt? || e.Insert? ==> y.calls[e.i].role != role
    ensures Spares(y.w, OnEvent(y, e).w, role)
  {
    hide SoundWorld, KinWorld, OneEach, Exclusive, Apply, OnEvent, Enabled, FinishedAnswer, RunningAnswer, Recall, Has, WasOf, NoneRunning;
    EventStep(y, e);
    if StepOf(y, e).Some? {
      var step := StepOf(y, e).value;
      if e.ClaimIt? || e.Insert? {
        if e.ClaimIt? { ClaimsItsRole(y, e.i); }
        StartSpares(y.w, step, role);
      } else {
        OtherSpares(y.w, step, role);
      }
    }
  }

  lemma ClaimsItsRole(y: Sys, i: nat)
    requires SysOk(y) && i < |y.calls| && y.calls[i].pc.Claiming?
    ensures y.calls[i].pc.past.role == y.calls[i].role
    ensures OnlyOne(y.w.reg, y.calls[i].pc.past.id, y.calls[i].role)
  {
    hide SoundWorld, OneEach, Exclusive, WasOf, KinHeap, Has;
    assert Knows(y.w, y.calls[i]);
    KinWorldHeap(y.w);
    RecalledRole(y.w, y.calls[i].pc.past);
    RoleUnique(y.w.reg, y.calls[i].pc.past.id, y.calls[i].pc.past.role, y.calls[i].role);
  }

  lemma EventOneEach(y: Sys, e: Event)
    requires SysOk(y) && EventEnabled(y, e)
    ensures OneEach(OnEvent(y, e).w.reg)
  {
    hide SoundWorld, KinWorld, Exclusive, Apply, OnEvent, Enabled, FinishedAnswer, RunningAnswer, Recall, Has, Spares, OneEach;
    EventStep(y, e);
    if e.ClaimIt? || e.Insert? {
      if e.ClaimIt? { ClaimsItsRole(y, e.i); } else { assert Knows(y.w, y.calls[e.i]); }
      StartKeepsOneEach(y.w, StepOf(y, e).value);
    } else {
      forall role ensures Spares(y.w, OnEvent(y, e).w, role) { EventSpares(y, e, role); }
      SparedOneEach(y.w, OnEvent(y, e).w);
    }
  }

  /** The call that acts knows at its next place what it needs there. */
  lemma ActorKnows(y: Sys, e: Event)
    requires SysOk(y) && EventEnabled(y, e) && !e.Arrive? && !e.ArriveDirty? && !e.Other?
    ensures Knows(OnEvent(y, e).w, OnEvent(y, e).calls[e.i])
  {
    hide SoundWorld, KinWorld, Exclusive, Apply, Enabled, FinishedAnswer, RunningAnswer, Has, Spares, OneEach, WasOf, OnlyOne, NoneRunning;
    var w, c := y.w, y.calls[e.i];
    assert Knows(w, c);
    match e
    case LookRunning(i, found) => FindsRunning(w, c.role, found);
    case Steer(i) => if Get(w.reg, c.pc.id).None? || IsDone(At(w.reg, Get(w.reg, c.pc.id).value)) { SteersToReuse(w, c.pc.id, c.role); }
    case LookFinished(i, found) =>
      if found.Some? { FindsFinished(w, c.role, found.value); }
      else { forall x ensures !Has(w.reg, x, c.role) { FindsNobody(w, c.role, x); } }
    case RecallIt(i) => RecallKnows(y, i);
    case TakeLock(i) =>
    case ClaimIt(i, base) =>
    case Insert(i, _, _, _) =>
    case Refuse(i) =>
    case Leave(i) =>
  }

  lemma RecallKnows(y: Sys, i: nat)
    requires SysOk(y) && EventEnabled(y, RecallIt(i))
    ensures Knows(OnEvent(y, RecallIt(i)).w, OnEvent(y, RecallIt(i)).calls[i])
  {
    hide Exclusive, OneEach, KinWorld, Sound, Has, WasOf, NoneRunning, TokenHolds, Seen, Recall;
    var id, c := y.calls[i].pc.id, y.calls[i];
    assert Knows(y.w, c);
    if Recall(y.w.reg, id).Found? {
      RecallSeen(y.w.reg, id);
      EventSpares(y, RecallIt(i), c.role);
    }
  }

  lemma OthersKnow(y: Sys, e: Event, j: nat)
    requires SysOk(y) && EventEnabled(y, e) && j < |y.calls| && j < |OnEvent(y, e).calls| && OnEvent(y, e).calls[j] == y.calls[j]
    requires e.Arrive? || e.ArriveDirty? || e.Other? || e.i != j
    ensures Knows(OnEvent(y, e).w, y.calls[j])
  {
    hide SoundWorld, KinWorld, Apply, OnEvent, Enabled, FinishedAnswer, RunningAnswer, OneEach, Spares, Knows;
    assert Knows(y.w, y.calls[j]);
    if Holding(y.calls[j].pc) {
      EventSpares(y, e, y.calls[j].role);
      SparedKnows(y.w, OnEvent(y, e).w, y.calls[j]);
    } else {
      IdleKnows(OnEvent(y, e).w, y.calls[j]);
    }
  }

  lemma IdleKnows(w: World, c: Call)
    requires !Holding(c.pc)
    ensures Knows(w, c)
  {
  }

  lemma EventCalls(y: Sys, e: Event)
    requires EventEnabled(y, e)
    ensures |y.calls| <= |OnEvent(y, e).calls|
    ensures forall j :: 0 <= j < |y.calls| && (e.Arrive? || e.ArriveDirty? || e.Other? || e.i != j) ==> OnEvent(y, e).calls[j] == y.calls[j]
    ensures forall j :: |y.calls| <= j < |OnEvent(y, e).calls| ==> OnEvent(y, e).calls[j].pc == Waiting
  {
    hide Apply, FinishedAnswer, RunningAnswer, Pick, Recall, Enabled, Get;
  }

  lemma EventOk(y: Sys, e: Event)
    requires SysOk(y) && EventEnabled(y, e)
    ensures SysOk(OnEvent(y, e))
  {
    EventWorld(y, e);
    EventExclusive(y, e);
    EventOneEach(y, e);
    EventCalls(y, e);
    hide SoundWorld, KinWorld, Exclusive, OnEvent, EventEnabled, OneEach, Knows;
    var y' := OnEvent(y, e);
    forall j | 0 <= j < |y'.calls| ensures Knows(y'.w, y'.calls[j]) {
      if j >= |y.calls| { IdleKnows(y'.w, y'.calls[j]); }
      else if !e.Arrive? && !e.ArriveDirty? && !e.Other? && e.i == j { ActorKnows(y, e); }
      else { OthersKnow(y, e, j); }
    }
  }

  ghost predicate IsSysRun(ys: seq<Sys>, es: seq<Event>) {
    && |ys| == |es| + 1
    && (exists cap, archiveCap, delegation :: ys[0] == Sys(Start0(cap, archiveCap, delegation), [], map[], map[]))
    && forall i :: 0 <= i < |es| ==> EventEnabled(ys[i], es[i]) && ys[i + 1] == OnEvent(ys[i], es[i])
  }

  lemma StartOk(cap: int, archiveCap: nat, delegation: bool)
    ensures SysOk(Sys(Start0(cap, archiveCap, delegation), [], map[], map[]))
  {
    StartSound(cap, archiveCap, delegation);
  }

  /**
   However many spawn_agent calls overlap, for clean or path-shaped roles, and whatever finishes, is pruned,
   settled or evicted between their sections: no two ids the registry knows ever have the same role.
   */
  lemma {:induction false} OneWorkerPerRole(ys: seq<Sys>, es: seq<Event>, i: nat)
    requires IsSysRun(ys, es) && i < |ys|
    ensures SysOk(ys[i]) && OneEach(ys[i].w.reg)
    decreases i
  {
    hide SysOk, EventEnabled, OnEvent, OneEach;
    if i == 0 {
      var cap, archiveCap, delegation :| ys[0] == Sys(Start0(cap, archiveCap, delegation), [], map[], map[]);
      StartOk(cap, archiveCap, delegation);
    } else {
      OneWorkerPerRole(ys, es, i - 1);
      assert EventEnabled(ys[i - 1], es[i - 1]) && ys[i - 1 + 1] == OnEvent(ys[i - 1], es[i - 1]);
      EventOk(ys[i - 1], es[i - 1]);
    }
    SysOkOneEach(ys[i]);
  }

  lemma SysOkOneEach(y: Sys)
    requires SysOk(y)
    ensures OneEach(y.w.reg)
  {
  }

  // ---------- what the guarantee needs ----------

  lemma SpawnedNew(w: World, step: Step)
    requires SoundWorld(w) && Enabled(w, step) && step.SpawnWorker? && Apply(w, step).reg != w.reg
    ensures Enlisted(w.reg, Apply(w, step).reg, step) && !Seen(w.reg, Apply(w, step).reg.heap[|w.reg.heap|].id)
  {
    hide Sound, Seen, TokenHolds, SnapsMatch, Apply, CallerActive, TrailingSeq, Mint;
    EnlistingShape(w, step);
    SoundParts(w.reg);
    MintIsCold(w.reg, step.role);
  }

  lemma SpawnedKnows(w: World, step: Step, x: string)
    requires SoundWorld(w) && Enabled(w, step) && step.SpawnWorker? && Enlisted(w.reg, Apply(w, step).reg, step) && x in Known(w.reg)
    ensures x in Known(Apply(w, step).reg) && Apply(w, step).reg.heap[|w.reg.heap|].id in Known(Apply(w, step).reg)
  {
    hide SoundWorld, Apply, Enabled, Newborn;
    EnlistingPast(w, step);
  }

  lemma SpawnedHas(w: World, step: Step, x: string)
    requires SoundWorld(w) && Enabled(w, step) && step.SpawnWorker? && Apply(w, step).reg != w.reg && Has(w.reg, x, step.role)
    ensures !OneEach(Apply(w, step).reg)
  {
    hide SoundWorld, Seen, Apply, Newborn, Enabled, WasOf, OneEach, Known;
    var s, s' := w.reg, Apply(w, step).reg;
    SpawnedNew(w, step);
    NewbornRole(w, step);
    SpawnedKnows(w, step, x);
    StepExtends(w, step);
    WasOfStays(s, s');
    WasOfAt(s', |s.heap|);
    WasOfSeen(s, x, step.role);
    Twins(s', x, s'.heap[|s.heap|].id, step.role);
  }

  lemma WasOfSeen(s: Reg, x: string, role: string)
    requires WasOf(s, x, role)
    ensures Seen(s, x)
  {
  }

  lemma Twins(s: Reg, a: string, b: string, role: string)
    requires Has(s, a, role) && Has(s, b, role) && a != b
    ensures !OneEach(s)
  {
    hide Has;
  }

  /** Inserting a worker keeps one id per role exactly when no known id has the role at that moment. */
  lemma InsertKeepsOneEachIff(w: World, step: Step)
    requires SoundWorld(w) && KinWorld(w) && OneEach(w.reg) && Enabled(w, step) && step.SpawnWorker? && Apply(w, step).reg != w.reg
    ensures OneEach(Apply(w, step).reg) <==> forall x :: !Has(w.reg, x, step.role)
  {
    hide SoundWorld, KinWorld, Apply, Enabled, Has, OneEach;
    if forall x :: !Has(w.reg, x, step.role) {
      StartKeepsOneEach(w, step);
    } else {
      var x :| Has(w.reg, x, step.role);
      SpawnedHas(w, step, x);
    }
  }

  /**
   resume_agent takes no role lock. If it restarts the only worker of a role after a spawn_agent call saw
   nobody of the role running, that call's second look finds nobody to reuse either, and its insertion
   makes a twin.
   */
  lemma ResumeBetweenLooksMakesTwin(w: World, p: Past, base: Surface, admit: bool, insert: Step)
    requires SoundWorld(w) && KinWorld(w) && OneEach(w.reg) && p in w.recalled && Has(w.reg, p.id, p.role)
    requires RunningAnswer(w.reg, p.role, None) && Rebuilt(base, p.tools).Some? && ClaimForResume(w.reg, p, admit).Admitted?
    requires insert.SpawnWorker? && insert.role == p.role && Enabled(Apply(w, Claim(p, base, admit)), insert)
    ensures var w1 := Apply(w, Claim(p, base, admit));
            && FinishedAnswer(w1.reg, p.role, None)
            && (Apply(w1, insert).reg != w1.reg ==> !OneEach(Apply(w1, insert).reg))
  {
    hide Sound, KinHeap, TokenHolds, SnapsMatch, Seen, Apply, Has, OneEach, FinishedAnswer, RunningAnswer, ClaimForResume, KinPast;
    var claim := Claim(p, base, admit);
    var w1 := Apply(w, claim);
    StepSoundWorld(w, claim);
    StepKin(w, claim);
    ResumedRuns(w, p, base, admit);
    ResumedOnly(w, p, base, admit);
    NothingToReuse(w1, p.id, p.role);
    if Apply(w1, insert).reg != w1.reg { SpawnedHas(w1, insert, p.id); }
  }

  lemma ResumedRuns(w: World, p: Past, base: Surface, admit: bool)
    requires SoundWorld(w) && KinWorld(w) && p in w.recalled && Rebuilt(base, p.tools).Some? && ClaimForResume(w.reg, p, admit).Admitted?
    ensures var s' := Apply(w, Claim(p, base, admit)).reg;
            && p.id in s'.agents && !IsDone(At(s', s'.agents[p.id])) && Has(s', p.id, p.role)
  {
    hide Sound, KinWorld, TokenHolds, SnapsMatch, Seen, ClaimForResume, LiveCount, ScopeFits, WasOf;
    RecalledRole(w, p);
    StepExtends(w, Claim(p, base, admit));
    WasOfStays(w.reg, Apply(w, Claim(p, base, admit)).reg);
    ClaimShape(w.reg, p, admit);
    if p.id in w.reg.agents { AgentInside(w, p.id); }
  }

  lemma ResumedOnly(w: World, p: Past, base: Surface, admit: bool)
    requires SoundWorld(w) && KinWorld(w) && OneEach(w.reg) && p in w.recalled && Has(w.reg, p.id, p.role)
    ensures OnlyOne(Apply(w, Claim(p, base, admit)).reg, p.id, p.role)
  {
    hide SoundWorld, KinWorld, Apply, Has, Newborn;
    forall x | Has(Apply(w, Claim(p, base, admit)).reg, x, p.role) ensures x == p.id {
      StartAddsItself(w, Claim(p, base, admit), x, p.role);
      if Enlisted(w.reg, Apply(w, Claim(p, base, admit)).reg, Claim(p, base, admit)) { NewbornRole(w, Claim(p, base, admit)); }
    }
  }

  /** The only worker of the role runs, so neither the archive nor the roster nor pending offers one. */
  lemma NothingToReuse(w: World, id: string, role: string)
    requires SoundWorld(w) && KinWorld(w) && OnlyOne(w.reg, id, role)
    requires id in w.reg.agents && !IsDone(At(w.reg, w.reg.agents[id]))
    ensures FinishedAnswer(w.reg, role, None)
  {
    hide SoundWorld, KinWorld, Has;
    var s := w.reg;
    forall x | x in s.past && ArchivedFree(s, role, x) ensures false { ArchivedHas(w, x); }
    forall x | x in s.agents && DoneIn(s, s.agents, role, x) ensures false { AgentHas(w, x); }
    forall x | x in s.pending && DoneIn(s, s.pending, role, x) ensures false { PendingHas(w, x); SamePending(w, x); }
  }

  lemma ArchivedHas(w: World, x: string)
    requires SoundWorld(w) && KinWorld(w) && x in w.reg.past
    ensures Has(w.reg, x, w.reg.past[x].role)
  {
    hide Sound, KinHeap, TokenHolds, SnapsMatch, Seen, WasOf;
    PastRole(w, x);
  }

  lemma PendingHas(w: World, x: string)
    requires SoundWorld(w) && x in w.reg.pending
    ensures Has(w.reg, x, At(w.reg, w.reg.pending[x]).role)
  {
    hide TokenHolds, SnapsMatch, Seen, WasOf;
    SoundParts(w.reg);
    NewestInside(w.reg, w.reg.pending[x]);
    WasOfAt(w.reg, w.reg.pending[x]);
  }

  lemma SamePending(w: World, x: string)
    requires SoundWorld(w) && x in w.reg.pending
    ensures x in w.reg.agents ==> w.reg.agents[x] == w.reg.pending[x]
  {
    hide TokenHolds, SnapsMatch, Seen;
    SoundParts(w.reg);
    if x in w.reg.agents { NewestUnique(w.reg, w.reg.agents[x], w.reg.pending[x]); }
  }

  // ---------- readable names ----------

  /** The calls still holding a claim on the role. */
  function Claimants(calls: seq<Call>, role: string): set<nat> {
    set i: nat | i < |calls| && calls[i].claimed && calls[i].role == role && calls[i].pc != Gone
  }

  /** pendingRoles counts them, and lists no name without any. */
  ghost predicate ClaimsCounted(y: Sys) {
    (forall role :: Claims(y.claims, role) == |Claimants(y.calls, role)|) && forall role :: role in y.claims ==> y.claims[role] > 0
  }

  lemma OneMoreClaimant(calls: seq<Call>, c: Call, role: string)
    ensures |Claimants(calls + [c], role)| == |Claimants(calls, role)| + if c.claimed && c.role == role && c.pc != Gone then 1 else 0
  {
    if c.claimed && c.role == role && c.pc != Gone {
      assert Claimants(calls + [c], role) == Claimants(calls, role) + {|calls|};
    } else {
      assert Claimants(calls + [c], role) == Claimants(calls, role);
    }
  }

  lemma ArrivalCounted(y: Sys, e: Event)
    requires ClaimsCounted(y) && EventEnabled(y, e) && (e.Arrive? || e.ArriveDirty?)
    ensures ClaimsCounted(OnEvent(y, e))
  {
    hide Pick, Claimants;
    var y' := OnEvent(y, e);
    forall role ensures Claims(y'.claims, role) == |Claimants(y'.calls, role)| {
      assert Claims(y.claims, role) == |Claimants(y.calls, role)|;
      OneMoreClaimant(y.calls, y'.calls[|y.calls|], role);
    }
  }

  lemma LeaveCounted(y: Sys, i: nat)
    requires ClaimsCounted(y) && EventEnabled(y, Leave(i))
    ensures ClaimsCounted(OnEvent(y, Leave(i)))
  {
    var y' := OnEvent(y, Leave(i));
    forall role ensures Claims(y'.claims, role) == |Claimants(y'.calls, role)| {
      assert Claims(y.claims, role) == |Claimants(y.calls, role)|;
      if y.calls[i].claimed && y.calls[i].role == role {
        assert Claimants(y'.calls, role) == Claimants(y.calls, role) - {i};
      } else {
        assert Claimants(y'.calls, role) == Claimants(y.calls, role);
      }
    }
  }

  lemma MoveCounted(y: Sys, e: Event)
    requires ClaimsCounted(y) && EventEnabled(y, e) && !e.Arrive? && !e.ArriveDirty? && !e.Leave?
    ensures ClaimsCounted(OnEvent(y, e))
  {
    hide RunningAnswer, FinishedAnswer, Apply, Enabled, Recall, Get;
    var y' := OnEvent(y, e);
    forall role ensures Claims(y'.claims, role) == |Claimants(y'.calls, role)| {
      assert Claims(y.claims, role) == |Claimants(y.calls, role)|;
      assert Claimants(y'.calls, role) == Claimants(y.calls, role);
    }
  }

  lemma {:induction false} ClaimsStayCounted(ys: seq<Sys>, es: seq<Event>, i: nat)
    requires IsSysRun(ys, es) && i < |ys|
    ensures ClaimsCounted(ys[i])
    decreases i
  {
    hide EventEnabled, OnEvent, ClaimsCounted;
    if i == 0 {
      StartCounted(ys, es);
    } else {
      ClaimsStayCounted(ys, es, i - 1);
      var y, e := ys[i - 1], es[i - 1];
      assert EventEnabled(y, e) && ys[i - 1 + 1] == OnEvent(y, e);
      if e.Arrive? || e.ArriveDirty? { ArrivalCounted(y, e); }
      else if e.Leave? { LeaveCounted(y, e.i); }
      else { MoveCounted(y, e); }
    }
  }

  lemma StartCounted(ys: seq<Sys>, es: seq<Event>)
    requires IsSysRun(ys, es)
    ensures ClaimsCounted(ys[0])
  {
    forall role ensures Claims(ys[0].claims, role) == |Claimants(ys[0].calls, role)| {
      assert Claimants(ys[0].calls, role) == {};
    }
  }

  function Stem(stem: string): string { if stem == "" || stem == MANAGER then "worker" else stem }

  /**
   While one of the names it tries is free, a path-shaped spawn gets one that no other path-shaped call in
   progress claimed and no worker on the roster or in the archive has.
   */
  lemma DirtyNamesDiffer(ys: seq<Sys>, es: seq<Event>, k: nat, stem: string, j: nat)
    requires IsSysRun(ys, es) && k < |ys| && j < |ys[k].calls|
    requires exists n :: 1 <= n <= LAST_SUFFIX && !RoleBusy(ys[k].w.reg, ys[k].claims, Candidate(Stem(stem), n))
    ensures var y := ys[k];
            var pick := Pick(y.w.reg, y.claims, stem);
            && !RoleBusy(y.w.reg, y.claims, pick)
            && (y.calls[j].claimed && y.calls[j].pc != Gone ==> y.calls[j].role != pick)
  {
    hide IsSysRun, Candidate;
    ClaimsStayCounted(ys, es, k);
    var y := ys[k];
    var pick := Pick(y.w.reg, y.claims, stem);
    PickFromFirst(y.w.reg, y.claims, Stem(stem), 1);
    if y.calls[j].claimed && y.calls[j].pc != Gone {
      assert j in Claimants(y.calls, y.calls[j].role);
      assert Claims(y.claims, y.calls[j].role) == |Claimants(y.calls, y.calls[j].role)|;
    }
  }
}
