/**
 The bounded archive (resume.go:86-109, delegation.go:193-221): in what order conversations are kept, which
 go first, and that no more go than the limit demands.
 */
module Archive {
  import opened Common
  import opened Order
  import opened WorkerId
  import opened Handoff
  import opened Lifecycle
  import opened Runs
  import opened Soundness
  import opened Settlement
  import opened Delegation
  import opened Family

  /** x stands before y in the list. */
  predicate Precedes(list: seq<string>, x: string, y: string) {
    exists i, j :: 0 <= i < j < |list| && list[i] == x && list[j] == y
  }

  /** What is left of a list, in the order it had. */
  ghost predicate KeepsOrder(rest: seq<string>, list: seq<string>) {
    && (forall x :: x in rest ==> x in list)
    && (forall x, y :: Precedes(rest, x, y) ==> Precedes(list, x, y))
  }

  function Min(a: nat, b: nat): nat { if a < b then a else b }

  lemma DropKeepsOrder(list: seq<string>, i: nat)
    requires i < |list|
    ensures KeepsOrder(list[..i] + list[i + 1..], list)
  {
    var rest := list[..i] + list[i + 1..];
    forall x, y | Precedes(rest, x, y) ensures Precedes(list, x, y) {
      var a, b :| 0 <= a < b < |rest| && rest[a] == x && rest[b] == y;
      var a', b' := if a < i then a else a + 1, if b < i then b else b + 1;
      assert list[a'] == x && list[b'] == y;
    }
    assert forall k :: 0 <= k < |rest| ==> rest[k] == list[if k < i then k else k + 1];
  }

  lemma KeepsOrderTwice(a: seq<string>, b: seq<string>, c: seq<string>)
    requires KeepsOrder(a, b) && KeepsOrder(b, c)
    ensures KeepsOrder(a, c)
  {
    hide Precedes;
  }

  lemma KeepsItself(list: seq<string>)
    ensures KeepsOrder(list, list)
  {
    hide Precedes;
  }

  lemma ForgetKeepsOrder(s: Reg, i: nat)
    requires i < |s.pastIds|
    ensures KeepsOrder(Forget(s, i).pastIds, s.pastIds)
  {
    DropKeepsOrder(s.pastIds, i);
  }

  /** Trimming keeps the order of arrival, and forgets nobody the limit has room for. */
  lemma {:induction false} TrimForgetsNoMore(s: Reg)
    ensures KeepsOrder(Trim(s).pastIds, s.pastIds)
    ensures |Trim(s).pastIds| >= Min(|s.pastIds|, s.archiveCap)
    decreases |s.pastIds|
  {
    hide Known, Needed, Forget, KeepsOrder;
    TrimStep(s);
    KeepsItself(s.pastIds);
    var i := FirstUnneeded(s, 0);
    if |s.pastIds| > s.archiveCap && i < |s.pastIds| {
      ForgetSize(s, i);
      ForgetKeepsOrder(s, i);
      TrimForgetsNoMore(Forget(s, i));
      KeepsOrderTwice(Trim(s).pastIds, Forget(s, i).pastIds, s.pastIds);
    }
  }

  lemma {:induction false} EvictForgetsNoMore(s: Reg)
    ensures KeepsOrder(Evict(s).pastIds, s.pastIds)
    ensures |Evict(s).pastIds| == Min(|s.pastIds|, s.archiveCap)
    decreases |s.pastIds|
  {
    hide Forget, KeepsOrder;
    EvictStep(s);
    KeepsItself(s.pastIds);
    if |s.pastIds| > s.archiveCap {
      ForgetSize(s, 0);
      ForgetKeepsOrder(s, 0);
      EvictForgetsNoMore(Forget(s, 0));
      KeepsOrderTwice(Evict(s).pastIds, Forget(s, 0).pastIds, s.pastIds);
    }
  }

  // ---------- the oldest that nobody needs goes first ----------

  /** Whoever is needed once another leaf is gone was needed before. */
  lemma NeededBefore(s: Reg, i: nat, y: string)
    requires i < |s.pastIds| && !Needed(s, s.pastIds[i]) && Needed(Forget(s, i), y)
    ensures Needed(s, y)
  {
    hide Known, Reach, Descendant, Forget;
    var s1 := Forget(s, i);
    var child :| child in Known(s1) && Descendant(s1, child, y);
    ForgetKnown(s, i);
    NotNeeded(s, s.pastIds[i], child);
    forall k: nat ensures Up(s1, child, k) == Up(s, child, k) { ForgetChain(s, i, child, k); }
    SameReach(s, s1, child, y);
    DescendantIsReach(s1, child, y);
    DescendantIsReach(s, child, y);
  }

  lemma StillPrecedes(list: seq<string>, i: nat, x: string, y: string)
    requires i < |list| && Precedes(list, x, y) && list[i] != x && list[i] != y
    ensures Precedes(list[..i] + list[i + 1..], x, y)
  {
    var a, b :| 0 <= a < b < |list| && list[a] == x && list[b] == y;
    var rest := list[..i] + list[i + 1..];
    var a', b' := if a < i then a else a - 1, if b < i then b else b - 1;
    assert rest[a'] == x && rest[b'] == y;
  }

  lemma OldestFirstHere(s: Reg, y: string)
    requires Distinct(s.pastIds) && FirstUnneeded(s, 0) < |s.pastIds| && Precedes(s.pastIds, y, s.pastIds[FirstUnneeded(s, 0)])
    ensures Needed(s, y)
  {
    hide Needed;
    var a, b :| 0 <= a < b < |s.pastIds| && s.pastIds[a] == y && s.pastIds[b] == s.pastIds[FirstUnneeded(s, 0)];
    assert b == FirstUnneeded(s, 0);
  }

  /** A conversation is forgotten before an older one only if somebody descends from the older one. */
  lemma {:induction false} OldestGoesFirst(s: Reg, y: string, x: string)
    requires Listed(s) && Precedes(s.pastIds, y, x) && x !in Trim(s).pastIds && y in Trim(s).pastIds
    ensures Needed(s, y)
    decreases |s.pastIds|
  {
    hide Known, Needed, Precedes, Distinct, KeepsOrder, Forget, Listed;
    TrimStep(s);
    PrecedesIn(s.pastIds, y, x);
    ListedDistinct(s);
    var i := FirstUnneeded(s, 0);
    if |s.pastIds| > s.archiveCap && i < |s.pastIds| {
      var s1 := Forget(s, i);
      if s.pastIds[i] == x {
        OldestFirstHere(s, y);
      } else {
        TrimForgetsNoMore(s1);
        KeptOnes(Trim(s1).pastIds, s1.pastIds, y);
        ForgottenIsGone(s, i);
        ForgetListed(s, i);
        StillPrecedes(s.pastIds, i, y, x);
        OldestGoesFirst(s1, y, x);
        NeededBefore(s, i, y);
      }
    }
  }

  lemma PrecedesIn(list: seq<string>, x: string, y: string)
    requires Precedes(list, x, y)
    ensures x in list && y in list
  {
  }

  lemma ListedDistinct(s: Reg)
    requires Listed(s)
    ensures Distinct(s.pastIds)
  {
  }

  lemma KeptOnes(rest: seq<string>, list: seq<string>, x: string)
    requires KeepsOrder(rest, list) && x in rest
    ensures x in list
  {
  }

  lemma ForgottenIsGone(s: Reg, i: nat)
    requires i < |s.pastIds| && Distinct(s.pastIds)
    ensures s.pastIds[i] !in Forget(s, i).pastIds && Forget(s, i).pastIds == s.pastIds[..i] + s.pastIds[i + 1..]
  {
  }

  // ---------- over a whole step ----------

  /** The list with the newcomer last; who is archived again keeps its place. */
  function Arrived(list: seq<string>, id: string): seq<string> { if id in list then list else list + [id] }

  lemma RememberKeepsPlaces(s: Reg, p: Past)
    requires Listed(s) && !s.closed
    ensures KeepsOrder(Remember(s, p).pastIds, Arrived(s.pastIds, p.id))
    ensures |Remember(s, p).pastIds| >= Min(|Arrived(s.pastIds, p.id)|, s.archiveCap)
    ensures |Arrived(s.pastIds, p.id)| <= s.archiveCap ==>
              Remember(s, p).pastIds == Arrived(s.pastIds, p.id) && p.id in Remember(s, p).past && Remember(s, p).past[p.id] == p
  {
    hide KeepsOrder, Trim, Evict, Distinct;
    var e := Enter(s, p);
    assert e.pastIds == Arrived(s.pastIds, p.id);
    if s.delegation { TrimForgetsNoMore(e); TrimStep(e); } else { EvictForgetsNoMore(e); EvictStep(e); }
  }

  /** The id of the conversation a step archives. */
  function Files(w: World, step: Step): Option<string> {
    if w.reg.closed || Archives(w.reg, step).None? || (step.PlantWorker? && Apply(w, step).reg == w.reg) then None
    else Some(Archives(w.reg, step).value.id)
  }

  lemma PlacesStay(w: World, step: Step)
    requires SoundWorld(w) && Enabled(w, step) && !step.Store? && !step.PlantWorker? && !step.CloseAll?
    ensures Apply(w, step).reg.pastIds == w.reg.pastIds
  {
    hide SoundWorld, ResetTimeouts, CloseSubtree, Stats, Collect, Remember, Get, Recall, Complete, Apply;
    if InPlace(step) { InPlaceGentle(w, step); }
    else if Enlists(step) { EnlistingPlaces(w, step); }
    else { SettlingPlaces(w, step); }
  }

  lemma EnlistingPlaces(w: World, step: Step)
    requires SoundWorld(w) && Enabled(w, step) && (step.SpawnWorker? || step.Claim? || step.RestoreWorker?)
    ensures Apply(w, step).reg.pastIds == w.reg.pastIds
  {
    hide Sound, Seen, ClaimForResume, ClaimForRestore, Enlist, TokenHolds, SnapsMatch, NoteId;
    var s := w.reg;
    match step
    case SpawnWorker(_, _, _, _, _) =>
      SpawnStep(w, step);
      EnlistPastIds(SpawnBase(w, step), SpawnMade(w, step));
    case Claim(p, _, admit) =>
      ClaimShape(s, p, admit);
      EnlistPastIds(s, ResumedHandle(p));
    case RestoreWorker(id, _, _, _, _, _, _, _, _) =>
      RestoreShape(w, step);
      NoteIdFields(s, id);
      EnlistPastIds(NoteId(s, id), RestoredOf(step));
  }

  lemma SettlingPlaces(w: World, step: Step)
    requires step.Prune? || step.Settle? || step.CloseTree?
    ensures Apply(w, step).reg.pastIds == w.reg.pastIds
  {
    hide CloseHandles, ClosePast, Subtree, Marked;
  }

  lemma StorePlaces(w: World, r: Ref)
    requires SoundWorld(w) && Enabled(w, Store(r))
    ensures var s, p := w.reg, w.reg.heap[r].phase.past;
            && Archives(s, Store(r)) == Some(p)
            && Apply(w, Store(r)).reg == Remember(Put(s, r, At(s, r).(phase := Phase.Archived)), p)
            && Listed(Put(s, r, At(s, r).(phase := Phase.Archived)))
  {
    hide Remember, SoundWorld, Distinct, Sound;
    SoundWorldParts(w);
    SoundParts(w.reg);
  }

  lemma PlantPlaces(w: World, step: Step)
    requires SoundWorld(w) && Enabled(w, step) && step.PlantWorker? && Apply(w, step).reg != w.reg
    ensures var s1 := Enlist(NoteId(w.reg, step.h.id), step.h);
            && Apply(w, step).reg == Remember(s1, SnapshotPast(step.h)) && !w.reg.closed
            && s1.pastIds == w.reg.pastIds && s1.archiveCap == w.reg.archiveCap && s1.closed == w.reg.closed && Listed(s1)
  {
    hide SoundWorld, Remember, Plant, Distinct, Apply, Enlist, NoteId, Sound;
    SoundWorldParts(w);
    SoundParts(w.reg);
    PlantShape(w, step);
    PlantsBeside(w.reg, step.h);
  }

  lemma PlantsBeside(s: Reg, h: Handle)
    ensures var s1 := Enlist(NoteId(s, h.id), h);
            s1.pastIds == s.pastIds && s1.past == s.past && s1.archiveCap == s.archiveCap && s1.closed == s.closed
  {
    hide TrailingSeq;
  }

  /**
   Whatever a step does short of closing the registry, archived conversations keep the order in which they
   first arrived, a newcomer comes last, and nobody goes whom the limit has room for.
   */
  lemma StepKeepsPlaces(w: World, step: Step)
    requires SoundWorld(w) && Enabled(w, step) && !step.CloseAll?
    ensures var s, s' := w.reg, Apply(w, step).reg;
            var list := if Files(w, step).Some? then Arrived(s.pastIds, Files(w, step).value) else s.pastIds;
            && KeepsOrder(s'.pastIds, list) && |s'.pastIds| >= Min(|list|, s.archiveCap)
            && (|list| <= s.archiveCap ==> s'.pastIds == list)
  {
    hide SoundWorld, Apply, KeepsOrder, Remember;
    var s := w.reg;
    KeepsItself(s.pastIds);
    if step.Store? {
      StorePlaces(w, step.r);
      var s1 := Put(s, step.r, At(s, step.r).(phase := Phase.Archived));
      if s.closed { ClosedRemembers(s1, s.heap[step.r].phase.past); }
      else { RememberKeepsPlaces(s1, s.heap[step.r].phase.past); }
    } else if step.PlantWorker? {
      if Apply(w, step).reg != s {
        PlantPlaces(w, step);
        RememberKeepsPlaces(Enlist(NoteId(s, step.h.id), step.h), SnapshotPast(step.h));
      }
    } else {
      PlacesStay(w, step);
    }
  }
}
