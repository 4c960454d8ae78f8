/**
 The tree of delegated workers (delegation.go). descendantLocked decides reachability along parents in
 any registry, cyclic or not; the restore check is exactly what keeps the relation acyclic; trimming
 the archive never cuts an ancestor chain; a closed subtree can never spawn again.
 */
module Delegation {
  import opened Common
  import opened Order
  import opened WorkerId
  import opened Handoff
  import opened Lifecycle
  import opened Runs
  import opened Soundness
  import opened Settlement

  /** The ancestor k steps above id, "" past the root. */
  function Up(s: Reg, id: string, k: nat): string {
    if k == 0 then id
    else if Up(s, id, k - 1) == "" then "" else ParentOf(s, Up(s, id, k - 1))
  }

  /** ancestor is met climbing from id by at least one step. */
  ghost predicate Reach(s: Reg, id: string, ancestor: string) {
    exists k :: ReachIn(s, id, ancestor, k)
  }

  predicate ReachIn(s: Reg, id: string, ancestor: string, k: int) {
    k >= 1 && Up(s, id, k - 1) != "" && Up(s, id, k) == ancestor
  }

  // ---------- descendantLocked ----------

  lemma ClimbStep(s: Reg, id: string, ancestor: string, seen: set<string>)
    ensures Climb(s, id, ancestor, seen) <==>
            id != "" && id !in seen && (ParentOf(s, id) == ancestor || Climb(s, ParentOf(s, id), ancestor, seen + {id}))
  {
    hide ParentOf, Known;
  }

  lemma {:induction false} ClimbFinds(s: Reg, start: string, k: nat, ancestor: string, seen: set<string>)
    requires Climb(s, Up(s, start, k), ancestor, seen)
    ensures Reach(s, start, ancestor)
    decreases |Known(s) - seen|, if Up(s, start, k) == "" then 0 else 1
  {
    hide Climb, ParentOf, Known, Reach;
    var id := Up(s, start, k);
    ClimbStep(s, id, ancestor, seen);
    assert Up(s, start, k + 1) == ParentOf(s, id);
    if ParentOf(s, id) == ancestor {
      ReachSoon(s, start, ancestor, k);
    } else {
      ClimbShrinks(s, id, seen);
      ClimbFinds(s, start, k + 1, ancestor, seen + {id});
    }
  }

  lemma ReachSoon(s: Reg, id: string, ancestor: string, k: nat)
    requires Up(s, id, k) != "" && ParentOf(s, Up(s, id, k)) == ancestor
    ensures Reach(s, id, ancestor)
  {
    hide ParentOf;
    assert ReachIn(s, id, ancestor, k + 1);
  }

  lemma ClimbShrinks(s: Reg, id: string, seen: set<string>)
    requires id !in seen
    ensures id in Known(s) ==> |Known(s) - (seen + {id})| < |Known(s) - seen|
    ensures id !in Known(s) ==> Known(s) - (seen + {id}) == Known(s) - seen && ParentOf(s, id) == ""
  {
    if id in Known(s) {
      assert Known(s) - seen == (Known(s) - (seen + {id})) + {id};
    }
  }

  /** seen is what lies below step k, none of it a child of ancestor, each climbing to another of it or to step k. */
  ghost predicate Climbed(s: Reg, start: string, k: nat, ancestor: string, seen: set<string>) {
    && (forall j :: 0 <= j < k ==> Up(s, start, j) in seen)
    && (forall x :: x in seen ==> x != "" && ParentOf(s, x) != ancestor && (ParentOf(s, x) in seen || ParentOf(s, x) == Up(s, start, k)))
  }

  lemma UpNext(s: Reg, id: string, k: nat)
    ensures Up(s, id, k + 1) == if Up(s, id, k) == "" then "" else ParentOf(s, Up(s, id, k))
  {
    hide ParentOf;
  }

  lemma {:induction false} ClosedClimb(s: Reg, start: string, k: nat, ancestor: string, seen: set<string>, m: nat)
    requires Climbed(s, start, k, ancestor, seen) && Up(s, start, k) in seen
    ensures Up(s, start, m) in seen
    decreases m
  {
    hide Up, ParentOf;
    if m > k {
      ClosedClimb(s, start, k, ancestor, seen, m - 1);
      UpNext(s, start, m - 1);
    }
  }

  lemma {:induction false} RootClimb(s: Reg, start: string, k: nat, m: nat)
    requires Up(s, start, k) == "" && k <= m
    ensures Up(s, start, m) == ""
    decreases m
  {
    if k < m { RootClimb(s, start, k, m - 1); }
  }

  lemma ClimbEnds(s: Reg, start: string, k: nat, ancestor: string, seen: set<string>)
    requires Climbed(s, start, k, ancestor, seen) && (Up(s, start, k) == "" || Up(s, start, k) in seen)
    ensures !Reach(s, start, ancestor)
  {
    hide ParentOf;
    forall m | ReachIn(s, start, ancestor, m) ensures false {
      if Up(s, start, k) == "" { if m - 1 >= k { RootClimb(s, start, k, m - 1); } }
      else { ClosedClimb(s, start, k, ancestor, seen, m - 1); }
    }
  }

  lemma ClimbedOn(s: Reg, start: string, k: nat, ancestor: string, seen: set<string>)
    requires Climbed(s, start, k, ancestor, seen) && Up(s, start, k) != "" && ParentOf(s, Up(s, start, k)) != ancestor
    ensures Climbed(s, start, k + 1, ancestor, seen + {Up(s, start, k)})
  {
    hide ParentOf;
    assert Up(s, start, k + 1) == ParentOf(s, Up(s, start, k));
  }

  lemma {:induction false} ClimbMisses(s: Reg, start: string, k: nat, ancestor: string, seen: set<string>)
    requires Climbed(s, start, k, ancestor, seen) && !Climb(s, Up(s, start, k), ancestor, seen)
    ensures !Reach(s, start, ancestor)
    decreases |Known(s) - seen|, if Up(s, start, k) == "" then 0 else 1
  {
    hide Climb, ParentOf, Known, Reach, Climbed;
    var id := Up(s, start, k);
    if id == "" || id in seen {
      ClimbEnds(s, start, k, ancestor, seen);
    } else {
      ClimbStep(s, id, ancestor, seen);
      ClimbShrinks(s, id, seen);
      ClimbedOn(s, start, k, ancestor, seen);
      assert Up(s, start, k + 1) == ParentOf(s, id);
      ClimbMisses(s, start, k + 1, ancestor, seen + {id});
    }
  }

  /** The loop, with its set of ids seen, decides reachability: it terminates and errs on no registry. */
  lemma DescendantIsReach(s: Reg, id: string, ancestor: string)
    ensures Descendant(s, id, ancestor) <==> Reach(s, id, ancestor)
  {
    assert Up(s, id, 0) == id;
    if Descendant(s, id, ancestor) { ClimbFinds(s, id, 0, ancestor, {}); } else { ClimbMisses(s, id, 0, ancestor, {}); }
  }

  // ---------- acyclicity ----------

  ghost predicate Acyclic(s: Reg) { forall x :: x != "" ==> !Reach(s, x, x) }

  /** s' records parent for id and agrees with s on every other id. */
  ghost predicate Reparents(s: Reg, s': Reg, id: string, parent: string) {
    id != "" && forall x :: ParentOf(s', x) == if x == id then parent else ParentOf(s, x)
  }

  lemma {:induction false} UpAdds(s: Reg, x: string, a: nat, b: nat)
    ensures Up(s, x, a + b) == Up(s, Up(s, x, a), b)
    decreases b
  {
    if b > 0 { UpAdds(s, x, a, b - 1); }
  }

  /** Chains that do not climb out of id are the same in both. */
  lemma {:induction false} SameUntil(s: Reg, s': Reg, id: string, parent: string, x: string, k: nat)
    requires Reparents(s, s', id, parent)
    requires forall j :: 0 <= j < k ==> Up(s, x, j) != id
    ensures Up(s', x, k) == Up(s, x, k)
    decreases k
  {
    if k > 0 { SameUntil(s, s', id, parent, x, k - 1); }
  }

  lemma {:induction false} FirstMeeting(s: Reg, x: string, id: string, k: nat) returns (m: nat)
    requires Up(s, x, k) == id
    ensures m <= k && Up(s, x, m) == id && forall j :: 0 <= j < m ==> Up(s, x, j) != id
  {
    m := 0;
    while Up(s, x, m) != id
      invariant m <= k && forall j :: 0 <= j < m ==> Up(s, x, j) != id
      decreases k - m
    {
      m := m + 1;
    }
  }

  lemma ReachOf(s: Reg, x: string, y: string, k: nat)
    requires k >= 1 && y != "" && Up(s, x, k) == y
    ensures Reach(s, x, y)
  {
    assert ReachIn(s, x, y, k);
  }

  lemma NoNewLoop(s: Reg, s': Reg, id: string, parent: string)
    requires Reparents(s, s', id, parent) && parent != id && !Reach(s, parent, id)
    ensures !Reach(s', id, id)
  {
    if Reach(s', id, id) {
      var k :| ReachIn(s', id, id, k);
      assert Up(s', id, 1) == parent by { assert Up(s', id, 0) == id; }
      UpAdds(s', id, 1, k - 1);
      var m := FirstMeeting(s', parent, id, k - 1);
      SameBack(s, s', id, parent, parent, m);
      if m >= 1 { ReachOf(s, parent, id, m); }
    }
  }

  lemma {:induction false} SameBack(s: Reg, s': Reg, id: string, parent: string, x: string, k: nat)
    requires Reparents(s, s', id, parent)
    requires forall j :: 0 <= j < k ==> Up(s', x, j) != id
    ensures Up(s', x, k) == Up(s, x, k)
    decreases k
  {
    if k > 0 { SameBack(s, s', id, parent, x, k - 1); }
  }

  lemma ForbiddenLoops(s: Reg, s': Reg, id: string, parent: string)
    requires Reparents(s, s', id, parent) && (parent == id || Reach(s, parent, id))
    ensures Reach(s', id, id)
  {
    hide ParentOf;
    assert Up(s', id, 0) == id && Up(s', id, 1) == parent;
    if parent == id {
      ReachOf(s', id, id, 1);
    } else {
      var k :| ReachIn(s, parent, id, k);
      var m := FirstMeeting(s, parent, id, k);
      SameUntil(s, s', id, parent, parent, m);
      UpAdds(s', id, 1, m);
      ReachOf(s', id, id, m + 1);
    }
  }

  /**
   Recording a parent keeps the relation acyclic exactly when the restore check passes: when the parent
   is not the id itself nor one of its descendants.
   */
  lemma ParentCheckIsExact(s: Reg, s': Reg, id: string, parent: string)
    requires Acyclic(s) && Reparents(s, s', id, parent)
    ensures Acyclic(s') <==> ParentAllowed(s, id, parent)
  {
    hide Reach, Climb, Known;
    DescendantIsReach(s, parent, id);
    if ParentAllowed(s, id, parent) {
      NoNewLoop(s, s', id, parent);
      forall x | x != "" ensures !Reach(s', x, x) {
        if Reach(s', x, x) { LoopsThrough(s, s', id, parent, x); }
      }
    } else {
      ForbiddenLoops(s, s', id, parent);
    }
  }

  /** A loop in s' that is not one in s climbs out of id. */
  lemma LoopsThrough(s: Reg, s': Reg, id: string, parent: string, x: string)
    requires Acyclic(s) && Reparents(s, s', id, parent) && x != "" && Reach(s', x, x)
    ensures Reach(s', id, id)
  {
    var k :| ReachIn(s', x, x, k);
    if forall j :: 0 <= j < k ==> Up(s', x, j) != id {
      SameBack(s, s', id, parent, x, k);
      ReachOf(s, x, x, k);
    } else {
      var j :| 0 <= j < k && Up(s', x, j) == id;
      UpAdds(s', x, j, k);
      UpAdds(s', x, k, j);
      assert j + k == k + j;
      ReachOf(s', id, id, k);
    }
  }

  lemma EnlistReparents(s: Reg, s1: Reg, h: Handle)
    requires Sound(s) && s1 == s.(counter := s1.counter, delegation := s1.delegation) && h.id != ""
    requires h.id !in s.agents && h.id !in s.pending
    ensures Reparents(s, Enlist(s1, h), h.id, h.parent)
  {
    SoundParts(s);
    hide Sound;
    forall x ensures ParentOf(Enlist(s1, h), x) == if x == h.id then h.parent else ParentOf(s, x) {
      if x in s.agents { NewestInside(s, s.agents[x]); }
      if x in s.pending { NewestInside(s, s.pending[x]); }
    }
  }

  /** Restoring or planting an id the process never had keeps the tree acyclic, by that check. */
  lemma RestoreKeepsAcyclic(w: World, step: Step)
    requires SoundWorld(w) && Enabled(w, step) && step.RestoreWorker? && Acyclic(w.reg)
    ensures Acyclic(Apply(w, step).reg)
  {
    hide Acyclic, Sound, Seen, Reparents, TrailingSeq, Enlist, ClaimForRestore;
    RestoreShape(w, step);
    UnseenUnlisted(w.reg, step.id);
    NoteIdFields(w.reg, step.id);
    var h := RestoredOf(step);
    EnlistReparents(w.reg, NoteId(w.reg, step.id), h);
    ParentCheckIsExact(w.reg, Enlist(NoteId(w.reg, step.id), h), step.id, step.parent);
  }

  /**
   A delegated spawn does not make that check. It keeps the tree acyclic exactly when the minted id is
   not already recorded above its caller, which a restored child with a missing parent can bring about.
   */
  lemma SpawnKeepsAcyclicIff(s: Reg, role: string, c: Caller, tools: Option<seq<string>>, admit: bool)
    requires Sound(s) && s.counter < MAX_INT64 && Acyclic(s)
    requires Spawn(s, role, Some(c), true, tools, admit).Admitted?
    ensures Acyclic(Spawn(s, role, Some(c), true, tools, admit).reg) <==>
            c.id != Mint(role, s.counter + 1) && !Reach(s, c.id, Mint(role, s.counter + 1))
  {
    hide Acyclic, Sound, Seen, Reparents, TrailingSeq, Enlist, Spawn, CallerActive, LiveCount;
    var id := Mint(role, s.counter + 1);
    SpawnShape(s, role, Some(c), true, tools, admit);
    SoundParts(s);
    MintIsCold(s, role);
    UnseenUnlisted(s, id);
    var h := SpawnedHandle(s, role, Some(c), tools);
    EnlistReparents(s, Numbered(s, true), h);
    ParentCheckIsExact(s, Enlist(Numbered(s, true), h), id, c.id);
    DescendantIsReach(s, c.id, id);
  }

  // ---------- trimming the archive ----------

  lemma ForgetParent(s: Reg, i: nat, x: string)
    requires i < |s.pastIds| && (x != s.pastIds[i] || x in s.agents || x in s.pending)
    ensures ParentOf(Forget(s, i), x) == ParentOf(s, x)
  {
  }

  lemma ForgetKnown(s: Reg, i: nat)
    requires i < |s.pastIds|
    ensures Known(Forget(s, i)) <= Known(s)
    ensures s.pastIds[i] in Known(Forget(s, i)) ==> s.pastIds[i] in s.agents || s.pastIds[i] in s.pending
  {
  }

  /** Dropping an entry nobody descends from cuts no chain. */
  lemma {:induction false} ForgetChain(s: Reg, i: nat, id: string, k: nat)
    requires i < |s.pastIds| && id in Known(Forget(s, i)) && !Reach(s, id, s.pastIds[i])
    ensures Up(Forget(s, i), id, k) == Up(s, id, k)
    decreases k
  {
    hide ParentOf, Known, Forget;
    if k > 0 {
      ForgetChain(s, i, id, k - 1);
      var y := Up(s, id, k - 1);
      ForgetKnown(s, i);
      if y == s.pastIds[i] && k - 1 >= 1 && y != "" { ReachOf(s, id, y, k - 1); }
      if y != "" { ForgetParent(s, i, y); }
    }
  }

  lemma NotNeeded(s: Reg, x: string, id: string)
    requires !Needed(s, x) && id in Known(s)
    ensures !Reach(s, id, x)
  {
    DescendantIsReach(s, id, x);
  }

  lemma SameReach(s: Reg, s': Reg, id: string, x: string)
    requires forall k: nat :: Up(s', id, k) == Up(s, id, k)
    ensures Reach(s', id, x) <==> Reach(s, id, x)
  {
    if Reach(s, id, x) {
      var k :| ReachIn(s, id, x, k);
      assert Up(s', id, k) == x && Up(s', id, k - 1) != "";
      assert ReachIn(s', id, x, k);
    }
    if Reach(s', id, x) {
      var k :| ReachIn(s', id, x, k);
      assert Up(s, id, k) == x && Up(s, id, k - 1) != "";
      assert ReachIn(s, id, x, k);
    }
  }

  lemma TrimStep(s: Reg)
    ensures |s.pastIds| <= s.archiveCap ==> Trim(s) == s
    ensures |s.pastIds| > s.archiveCap && FirstUnneeded(s, 0) == |s.pastIds| ==> Trim(s) == s
    ensures |s.pastIds| > s.archiveCap && FirstUnneeded(s, 0) < |s.pastIds| ==> Trim(s) == Trim(Forget(s, FirstUnneeded(s, 0)))
  {
  }

  lemma {:induction false} TrimKnown(s: Reg)
    ensures Known(Trim(s)) <= Known(s)
    decreases |s.pastIds|
  {
    hide Known, FirstUnneeded;
    TrimStep(s);
    if |s.pastIds| > s.archiveCap && FirstUnneeded(s, 0) < |s.pastIds| {
      ForgetKnown(s, FirstUnneeded(s, 0));
      TrimKnown(Forget(s, FirstUnneeded(s, 0)));
    }
  }

  /** Every remaining id keeps its whole chain of ancestors. */
  lemma {:induction false} TrimKeepsChains(s: Reg, id: string, k: nat)
    requires id in Known(Trim(s))
    ensures Up(Trim(s), id, k) == Up(s, id, k)
    decreases |s.pastIds|
  {
    hide Known, Up, Needed, Reach;
    TrimStep(s);
    var i := FirstUnneeded(s, 0);
    if |s.pastIds| > s.archiveCap && i < |s.pastIds| {
      ForgetKnown(s, i);
      TrimKnown(Forget(s, i));
      NotNeeded(s, s.pastIds[i], id);
      ForgetChain(s, i, id, k);
      TrimKeepsChains(Forget(s, i), id, k);
    }
  }

  /** No remaining id, live, pending or archived, descends from a removed one. */
  lemma {:induction false} TrimSparesAncestors(s: Reg, x: string, id: string)
    requires Listed(s) && x in s.past && x !in Trim(s).past && id in Known(Trim(s))
    ensures !Reach(s, id, x) && !Reach(Trim(s), id, x)
    decreases |s.pastIds|
  {
    hide Known, Up, Needed, Reach, Distinct;
    TrimStep(s);
    var i := FirstUnneeded(s, 0);
    if |s.pastIds| > s.archiveCap && i < |s.pastIds| {
      var s1 := Forget(s, i);
      ForgetListed(s, i);
      ForgetKnown(s, i);
      TrimKnown(s1);
      NotNeeded(s, s.pastIds[i], id);
      forall k: nat ensures Up(s1, id, k) == Up(s, id, k) { ForgetChain(s, i, id, k); }
      SameReach(s, s1, id, x);
      if x in s1.past {
        TrimSparesAncestors(s1, x, id);
      } else {
        forall k: nat ensures Up(Trim(s), id, k) == Up(s, id, k) { TrimKeepsChains(s, id, k); }
        SameReach(s, Trim(s), id, x);
      }
    }
  }

  /** Trimming stops within the limit, or with an archive in which every id is an ancestor of a known one. */
  lemma {:induction false} TrimEnds(s: Reg)
    ensures |Trim(s).pastIds| <= s.archiveCap || forall x :: x in Trim(s).pastIds ==> Needed(Trim(s), x)
    decreases |s.pastIds|
  {
    hide Known, Needed, Forget;
    TrimStep(s);
    var i := FirstUnneeded(s, 0);
    if |s.pastIds| > s.archiveCap {
      if i < |s.pastIds| {
        ForgetSize(s, i);
        TrimEnds(Forget(s, i));
      } else {
        forall x | x in s.pastIds ensures Needed(s, x) {
          var k :| 0 <= k < |s.pastIds| && s.pastIds[k] == x;
        }
      }
    }
  }

  lemma ForgetSize(s: Reg, i: nat)
    requires i < |s.pastIds|
    ensures |Forget(s, i).pastIds| == |s.pastIds| - 1 && Forget(s, i).archiveCap == s.archiveCap
  {
  }

  /** The known ids below x. */
  ghost function Below(s: Reg, x: string): set<string> { set id | id in Known(s) && Reach(s, id, x) }

  lemma ReachTransitive(s: Reg, x: string, y: string, z: string)
    requires Reach(s, x, y) && Reach(s, y, z) && y != ""
    ensures Reach(s, x, z)
  {
    var a :| ReachIn(s, x, y, a);
    var b :| ReachIn(s, y, z, b);
    UpAdds(s, x, a, b);
    UpAdds(s, x, a, b - 1);
    assert ReachIn(s, x, z, a + b);
  }

  lemma BelowShrinks(s: Reg, x: string, c: string)
    requires Acyclic(s) && c in Known(s) && c != "" && Reach(s, c, x)
    ensures Below(s, c) < Below(s, x) && |Below(s, c)| < |Below(s, x)|
  {
    hide Reach, Known;
    forall id | id in Below(s, c) ensures id in Below(s, x) { ReachTransitive(s, id, c, x); }
    assert c in Below(s, x) && c !in Below(s, c);
    SubsetLess(Below(s, c), Below(s, x));
  }

  /** Below a needed id of a tree where every archived id is needed, some worker is not archived. */
  lemma {:induction false} SomeoneOutside(s: Reg, x: string) returns (id: string)
    requires Acyclic(s) && "" !in Known(s) && (forall y :: y in s.past ==> Needed(s, y)) && Needed(s, x)
    ensures (id in s.agents || id in s.pending) && id !in s.past && Reach(s, id, x)
    decreases |Below(s, x)|
  {
    hide Reach, Acyclic, Descendant, Below;
    var c :| c in Known(s) && Descendant(s, c, x);
    DescendantIsReach(s, c, x);
    if c in s.past {
      BelowShrinks(s, x, c);
      id := SomeoneOutside(s, c);
      ReachTransitive(s, id, c, x);
    } else {
      id := c;
    }
  }

  /** In a tree, an archive left over its limit holds nothing but ancestors of workers not archived. */
  lemma TrimLeavesOnlyAncestors(s: Reg, x: string)
    requires Listed(s) && Acyclic(Trim(s)) && "" !in Known(s)
    requires |Trim(s).pastIds| > s.archiveCap && x in Trim(s).past
    ensures exists id :: (id in s.agents || id in s.pending) && id !in Trim(s).past && Reach(Trim(s), id, x)
  {
    hide Reach, Acyclic, Needed, Trim, Distinct;
    TrimListed(s);
    TrimKnown(s);
    TrimEnds(s);
    var id := SomeoneOutside(Trim(s), x);
  }

  lemma EvictStep(s: Reg)
    ensures |s.pastIds| <= s.archiveCap ==> Evict(s) == s
    ensures |s.pastIds| > s.archiveCap ==> Evict(s) == Evict(Forget(s, 0))
    ensures s.pastIds != [] ==> Forget(s, 0).pastIds == s.pastIds[1..] && Forget(s, 0).archiveCap == s.archiveCap
  {
  }

  /** Without delegation the archive keeps the latest conversations up to its limit, and only those. */
  lemma {:induction false} EvictKeepsLatest(s: Reg)
    requires Listed(s)
    ensures var n := |s.pastIds|; Evict(s).pastIds == if n <= s.archiveCap then s.pastIds else s.pastIds[n - s.archiveCap..]
    ensures forall id :: id in Evict(s).past <==> id in Evict(s).pastIds
    decreases |s.pastIds|
  {
    hide Evict, Forget, Distinct;
    EvictStep(s);
    EvictListed(s);
    if |s.pastIds| > s.archiveCap {
      ForgetListed(s, 0);
      EvictKeepsLatest(Forget(s, 0));
    }
  }
}
