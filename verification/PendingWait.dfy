/**
 Waiting for a set of generations without consuming them (settlement_wait.go), and the wait_agents that
 collects them afterwards (settlement.go:96-128, tools.go:497-505).
 */
module PendingWait {
  import opened Common
  import opened Order
  import opened Handoff
  import opened Lifecycle
  import opened Runs
  import opened Soundness
  import opened Settlement

  /** An entry of the caller's list: what PendingAgents showed it. */
  datatype Expected = Expected(id: string, gen: int, running: bool)

  predicate DistinctIds(expected: seq<Expected>) {
    forall i, j :: 0 <= i < j < |expected| ==> expected[i].id != expected[j].id
  }

  /** The first section accepts the list: every entry is pending, running when listed, in its generation, and named once. */
  predicate Accepted(s: Reg, expected: seq<Expected>) {
    && expected != [] && !s.closed && DistinctIds(expected)
    && forall i :: 0 <= i < |expected| ==>
         var e := expected[i];
         e.gen > 0 && e.running && e.id in s.pending && At(s, s.pending[e.id]).gen == e.gen
  }

  /** The generation each listed id was accepted in. */
  function Listing(expected: seq<Expected>): map<string, int>
    decreases |expected|
  {
    if expected == [] then map[]
    else
      var last := expected[|expected| - 1];
      Listing(expected[..|expected| - 1])[last.id := last.gen]
  }

  /** The pending ids the last section counts. */
  function Matching(s: Reg, listing: map<string, int>): set<string> {
    set id | id in s.pending && id in listing && listing[id] == At(s, s.pending[id]).gen && listing[id] > 0 && IsDone(At(s, s.pending[id]))
  }

  /** WaitPendingCompletion's verdict, from its first state and its last. */
  predicate Completes(before: Reg, after: Reg, expected: seq<Expected>) {
    Accepted(before, expected) && |Matching(after, Listing(expected))| == |expected|
  }

  /** The listed generation is finished, and still owed to its collector. */
  ghost predicate Ready(s: Reg, e: Expected) {
    PendingId(s, e.id, e.gen) && IsDone(At(s, s.pending[e.id]))
  }

  lemma {:induction false} ListingIs(expected: seq<Expected>)
    requires DistinctIds(expected)
    ensures forall id :: id in Listing(expected) <==> exists i :: 0 <= i < |expected| && expected[i].id == id
    ensures forall i :: 0 <= i < |expected| ==> expected[i].id in Listing(expected) && Listing(expected)[expected[i].id] == expected[i].gen
    decreases |expected|
  {
    if expected != [] {
      var front := expected[..|expected| - 1];
      ListingIs(front);
      forall i | 0 <= i < |expected| ensures expected[i].id in Listing(expected) && Listing(expected)[expected[i].id] == expected[i].gen {
        if i < |front| { assert front[i] == expected[i]; }
      }
      forall id ensures id in Listing(expected) <==> exists i :: 0 <= i < |expected| && expected[i].id == id {
        if exists i :: 0 <= i < |expected| && expected[i].id == id {
          var i :| 0 <= i < |expected| && expected[i].id == id;
          if i < |front| { assert front[i].id == id; }
        }
      }
    }
  }

  lemma {:induction false} ListingSize(expected: seq<Expected>)
    requires DistinctIds(expected)
    ensures |Listing(expected).Keys| == |expected|
    decreases |expected|
  {
    if expected != [] {
      var n := |expected| - 1;
      ListingSize(expected[..n]);
      ListingIs(expected[..n]);
      assert expected[n].id !in Listing(expected[..n]);
      assert Listing(expected).Keys == Listing(expected[..n]).Keys + {expected[n].id};
    }
  }

  /**
   The wait succeeds exactly when every listed generation is, in the last snapshot, finished and still
   pending in that very generation: none replaced by a resume, collected or closed.
   */
  lemma CompletesIff(before: Reg, after: Reg, expected: seq<Expected>)
    requires Accepted(before, expected)
    ensures Completes(before, after, expected) <==> forall i :: 0 <= i < |expected| ==> Ready(after, expected[i])
  {
    hide Listing;
    var listing := Listing(expected);
    var matching := Matching(after, listing);
    ListingIs(expected);
    ListingSize(expected);
    assert matching <= listing.Keys;
    if |matching| == |expected| {
      SubsetEqual(matching, listing.Keys);
      forall i | 0 <= i < |expected| ensures Ready(after, expected[i]) {
        assert expected[i].id in matching;
      }
    }
    if forall i :: 0 <= i < |expected| ==> Ready(after, expected[i]) {
      forall id | id in listing.Keys ensures id in matching {
        var i :| 0 <= i < |expected| && expected[i].id == id;
      }
      assert matching == listing.Keys;
    }
  }

  // ---------- wait_agents ----------

  datatype Status = ReportsUnknown | ReportsRunning | ReportsDone | ReportsFailed(err: WorkerError)

  /** One line of wait_agents' report. */
  datatype Entry = Entry(id: string, gen: int, status: Status, result: string)

  /** collectionSnapshot. */
  function Snapshot(h: Handle): Entry {
    if !IsDone(h) then Entry(h.id, h.gen, ReportsRunning, "")
    else if h.err != NoError then Entry(h.id, h.gen, ReportsFailed(h.err), h.result)
    else Entry(h.id, h.gen, ReportsDone, h.result)
  }

  function ReportOn(s: Reg, id: string): Entry {
    match Get(s, id)
    case None => Entry(id, 0, ReportsUnknown, "")
    case Some(r) => Snapshot(At(s, r))
  }

  function Report(s: Reg, ids: seq<string>): seq<Entry> {
    seq(|ids|, i requires 0 <= i < |ids| => ReportOn(s, ids[i]))
  }

  /** The tokens wait_agents will collect: of every finished worker it reports. */
  function Tokens(s: Reg, ids: seq<string>): seq<Token>
    decreases |ids|
  {
    if ids == [] then []
    else
      var id := ids[|ids| - 1];
      Tokens(s, ids[..|ids| - 1]) +
      match Get(s, id)
      case None => []
      case Some(r) => if IsDone(At(s, r)) then [Token(r, At(s, r).gen, true)] else []
  }

  function CollectAll(s: Reg, tokens: seq<Token>): Reg
    decreases |tokens|
  {
    if tokens == [] then s
    else
      var t := tokens[|tokens| - 1];
      Collect(CollectAll(s, tokens[..|tokens| - 1]), t.ref, t.gen, false)
  }

  function Ids(expected: seq<Expected>): seq<string> {
    seq(|expected|, i requires 0 <= i < |expected| => expected[i].id)
  }

  /** The handle a ready entry resolves to. */
  lemma ReadyResolves(s: Reg, e: Expected)
    requires Sound(s) && !s.closed && Ready(s, e)
    ensures Get(s, e.id) == Some(s.pending[e.id]) && s.pending[e.id] < |s.heap|
    ensures At(s, s.pending[e.id]).id == e.id && Collectable(s, s.pending[e.id], e.gen)
  {
    SoundParts(s);
    NewestInside(s, s.pending[e.id]);
    if e.id in s.agents { NewestUnique(s, s.agents[e.id], s.pending[e.id]); }
  }

  /** The handle of one of the first n listed ids. */
  predicate Chosen(s: Reg, expected: seq<Expected>, n: nat, r: Ref)
    requires n <= |expected|
  {
    exists i :: 0 <= i < n && expected[i].id in s.pending && s.pending[expected[i].id] == r
  }

  lemma ChosenNext(s: Reg, expected: seq<Expected>, n: nat, r: Ref)
    requires n < |expected| && expected[n].id in s.pending
    ensures Chosen(s, expected, n + 1, r) <==> Chosen(s, expected, n, r) || s.pending[expected[n].id] == r
  {
  }

  /** What is left after the first n of the listed generations were collected. */
  ghost predicate CollectedTo(s: Reg, s': Reg, expected: seq<Expected>, n: nat)
    requires n <= |expected|
  {
    && s'.agents == s.agents && s'.closed == s.closed && |s'.heap| == |s.heap|
    && (forall id :: id in s'.pending <==> id in s.pending && forall i :: 0 <= i < n ==> expected[i].id != id)
    && (forall id :: id in s'.pending ==> s'.pending[id] == s.pending[id])
    && (forall r :: 0 <= r < |s.heap| ==>
          s'.heap[r] == if Chosen(s, expected, n, r)
                        then s.heap[r].(collected := true, closeRequested := false) else s.heap[r])
  }

  ghost predicate AllReady(s: Reg, expected: seq<Expected>) {
    DistinctIds(expected) && forall i :: 0 <= i < |expected| ==> Ready(s, expected[i])
  }

  lemma CollectNext(s: Reg, s': Reg, expected: seq<Expected>, n: nat)
    requires Sound(s) && !s.closed && AllReady(s, expected) && n < |expected| && CollectedTo(s, s', expected, n)
    ensures CollectedTo(s, Collect(s', s.pending[expected[n].id], expected[n].gen, false), expected, n + 1)
  {
    hide Sound, Ready, Marked, Chosen, Collect;
    var e := expected[n];
    ReadyPending(s, e);
    var r := s.pending[e.id];
    CollectOne(s, s', expected, n);
    forall q | 0 <= q < |s.heap| ensures Chosen(s, expected, n + 1, q) <==> Chosen(s, expected, n, q) || r == q {
      ChosenNext(s, expected, n, q);
    }
  }

  lemma ReadyPending(s: Reg, e: Expected)
    requires Ready(s, e)
    ensures e.id in s.pending
  {
  }

  /** No two of the listed generations share a handle. */
  lemma OwnHandle(s: Reg, expected: seq<Expected>, n: nat)
    requires Sound(s) && !s.closed && AllReady(s, expected) && n < |expected|
    ensures expected[n].id in s.pending && !Chosen(s, expected, n, s.pending[expected[n].id])
  {
    hide Sound, Ready;
    ReadyPending(s, expected[n]);
    ReadyResolves(s, expected[n]);
    forall i | 0 <= i < n ensures expected[i].id in s.pending && s.pending[expected[i].id] != s.pending[expected[n].id] {
      ReadyPending(s, expected[i]);
      ReadyResolves(s, expected[i]);
    }
  }

  lemma CollectOne(s: Reg, s': Reg, expected: seq<Expected>, n: nat)
    requires Sound(s) && !s.closed && AllReady(s, expected) && n < |expected| && CollectedTo(s, s', expected, n)
    requires expected[n].id in s.pending
    ensures var e, r := expected[n], s.pending[expected[n].id];
            var s'' := Collect(s', r, e.gen, false);
            && r < |s.heap| && s''.agents == s.agents && s''.closed == s.closed
            && s''.heap == s'.heap[r := s.heap[r].(collected := true, closeRequested := false)]
            && s''.pending == s'.pending - {e.id}
  {
    hide Sound, Marked, Ready, Chosen;
    ReadyResolves(s, expected[n]);
    OwnHandle(s, expected, n);
    assert s'.heap[s.pending[expected[n].id]] == s.heap[s.pending[expected[n].id]];
  }

  lemma TokensNext(s: Reg, ids: seq<string>, id: string)
    ensures Get(s, id).Some? && IsDone(At(s, Get(s, id).value)) ==>
              Tokens(s, ids + [id]) == Tokens(s, ids) + [Token(Get(s, id).value, At(s, Get(s, id).value).gen, true)]
  {
    hide Get;
    assert (ids + [id])[..|ids|] == ids;
  }

  lemma FrontReady(s: Reg, expected: seq<Expected>)
    requires expected != [] && AllReady(s, expected)
    ensures AllReady(s, expected[..|expected| - 1]) && Ready(s, expected[|expected| - 1])
    ensures Ids(expected) == Ids(expected[..|expected| - 1]) + [expected[|expected| - 1].id]
  {
    hide Ready;
  }

  lemma {:induction false} TokensReady(s: Reg, expected: seq<Expected>)
    requires Sound(s) && !s.closed && AllReady(s, expected)
    ensures |Tokens(s, Ids(expected))| == |expected|
    ensures forall i :: 0 <= i < |expected| ==>
              expected[i].id in s.pending && Tokens(s, Ids(expected))[i] == Token(s.pending[expected[i].id], expected[i].gen, true)
    decreases |expected|
  {
    hide Sound, AllReady, Tokens, Ids, Get;
    TokensNone(s);
    if expected != [] {
      var n := |expected| - 1;
      FrontReady(s, expected);
      TokensReady(s, expected[..n]);
      ReadyResolves(s, expected[n]);
      TokensNext(s, Ids(expected[..n]), expected[n].id);
    }
  }

  lemma TokensNone(s: Reg)
    ensures Ids([]) == [] && Tokens(s, []) == []
  {
  }

  lemma {:induction false} CollectsTo(s: Reg, expected: seq<Expected>, n: nat)
    requires Sound(s) && !s.closed && AllReady(s, expected) && n <= |expected|
    ensures |Tokens(s, Ids(expected))| == |expected|
    ensures CollectedTo(s, CollectAll(s, Tokens(s, Ids(expected))[..n]), expected, n)
    decreases n
  {
    hide Sound, Ready, Tokens, CollectedTo;
    TokensReady(s, expected);
    if n == 0 {
      CollectedNone(s, expected);
    } else {
      CollectsTo(s, expected, n - 1);
      var tokens := Tokens(s, Ids(expected));
      assert tokens[..n][..n - 1] == tokens[..n - 1];
      CollectNext(s, CollectAll(s, tokens[..n - 1]), expected, n - 1);
    }
  }

  lemma CollectedNone(s: Reg, expected: seq<Expected>)
    ensures CollectedTo(s, s, expected, 0)
  {
  }

  /**
   A wait_agents right after a completed wait reports every listed generation, in order and under its
   number, as done or failed with its result, and collects exactly those: they are marked collected and
   leave pending, and no other handle or pending entry changes.
   */
  lemma WaitThenCollect(before: Reg, after: Reg, expected: seq<Expected>)
    requires Sound(after) && !after.closed && Completes(before, after, expected)
    ensures var report, tokens := Report(after, Ids(expected)), Tokens(after, Ids(expected));
            && |report| == |expected| == |tokens|
            && (forall i :: 0 <= i < |expected| ==>
                  && report[i].id == expected[i].id && report[i].gen == expected[i].gen
                  && (report[i].status.ReportsDone? || report[i].status.ReportsFailed?)
                  && tokens[i].gen == expected[i].gen && At(after, tokens[i].ref).id == expected[i].id)
            && CollectedTo(after, CollectAll(after, tokens), expected, |expected|)
  {
    hide Sound, Completes, Tokens, CollectedTo, CollectAll, Listing, Matching;
    CompletesAccepts(before, after, expected);
    CompletesIff(before, after, expected);
    TokensReady(after, expected);
    CollectsTo(after, expected, |expected|);
    assert Tokens(after, Ids(expected))[..|expected|] == Tokens(after, Ids(expected));
    forall i | 0 <= i < |expected|
      ensures var e := Report(after, Ids(expected))[i];
              e.id == expected[i].id && e.gen == expected[i].gen && (e.status.ReportsDone? || e.status.ReportsFailed?)
              && At(after, Tokens(after, Ids(expected))[i].ref).id == expected[i].id
    {
      ReportsReady(after, expected[i]);
    }
  }

  lemma CompletesAccepts(before: Reg, after: Reg, expected: seq<Expected>)
    requires Completes(before, after, expected)
    ensures Accepted(before, expected)
  {
  }

  lemma ReportsReady(s: Reg, e: Expected)
    requires Sound(s) && !s.closed && Ready(s, e)
    ensures var entry := ReportOn(s, e.id);
            && entry.id == e.id && entry.gen == e.gen && (entry.status.ReportsDone? || entry.status.ReportsFailed?)
            && At(s, s.pending[e.id]).id == e.id
  {
    hide Sound;
    ReadyResolves(s, e);
  }

  // ---------- what a report says ----------

  /** The generation has finished with this result, or the handle is past it. */
  predicate EndedWith(s: Reg, r: Ref, gen: int, result: string, err: WorkerError) {
    r < |s.heap| &&
    (s.heap[r].gen > gen
     || (s.heap[r].gen == gen && Lifecycle.Finished(s.heap[r]) && s.heap[r].result == result && s.heap[r].err == err))
  }

  lemma {:induction false} StaysEnded(ws: seq<World>, steps: seq<Step>, i: nat, k: nat, r: Ref, gen: int, result: string, err: WorkerError)
    requires IsRun(ws, steps) && FromStart(ws) && i <= k < |ws| && EndedWith(ws[i].reg, r, gen, result, err)
    ensures EndedWith(ws[k].reg, r, gen, result, err)
    decreases k
  {
    hide Apply, Enabled, SoundWorld, FromStart;
    if i < k {
      StaysEnded(ws, steps, i, k - 1, r, gen, result, err);
      RunSound(ws, steps, k - 1);
      assert Enabled(ws[k - 1], steps[k - 1]) && ws[k - 1 + 1] == Apply(ws[k - 1], steps[k - 1]);
      StepExtends(ws[k - 1], steps[k - 1]);
      assert Advances(ws[k - 1].reg.heap[r], ws[k].reg.heap[r]);
    }
  }

  /** How a run that no handoff stopped is reported. */
  predicate Reports(e: Entry, o: Outcome, result: string) {
    && e.result == result
    && e.status == match o
                   case Succeeded => ReportsDone
                   case Failed(watchdog) => ReportsFailed(if watchdog then TimeoutError else RunError)
  }

  lemma StopEnds(w: World, r: Ref, o: Outcome, result: string)
    requires Enabled(w, Stop(r, o, result))
    requires var f := w.reg.heap[r].work.handoff; !f.cancelled && !(f.read && o.Succeeded?)
    ensures EndedWith(Apply(w, Stop(r, o, result)).reg, r, w.reg.heap[r].gen, result,
                      if o.Succeeded? then NoError else if o.watchdog then TimeoutError else RunError)
  {
  }

  /**
   A report is of the generation it names: in every later world, as long as the handle is at the generation
   that ended in step i, what is reported of it once done is that run's own result and outcome.
   */
  lemma ReportIsOfItsRun(ws: seq<World>, steps: seq<Step>, i: nat, k: nat)
    requires IsRun(ws, steps) && FromStart(ws) && i < |steps| && i < k < |ws| && steps[i].Stop? && steps[i].r < |ws[i].reg.heap|
    requires var f := ws[i].reg.heap[steps[i].r].work.handoff; !f.cancelled && !(f.read && steps[i].outcome.Succeeded?)
    ensures var r := steps[i].r;
            && r < |ws[k].reg.heap|
            && (ws[k].reg.heap[r].gen == ws[i].reg.heap[r].gen && IsDone(ws[k].reg.heap[r]) ==>
                 Reports(Snapshot(ws[k].reg.heap[r]), steps[i].outcome, steps[i].result))
  {
    hide SoundWorld, FromStart, Apply;
    var r, o, result := steps[i].r, steps[i].outcome, steps[i].result;
    assert Enabled(ws[i], steps[i]) && ws[i + 1] == Apply(ws[i], steps[i]);
    StopEnds(ws[i], r, o, result);
    StaysEnded(ws, steps, i + 1, k, r, ws[i].reg.heap[r].gen, result,
               if o.Succeeded? then NoError else if o.watchdog then TimeoutError else RunError);
  }

  /** The run was stopped for the handoff, or came to its end after reading the request. */
  predicate CutByHandoff(h: Handle, o: Outcome) {
    h.work.handoff.cancelled || (h.work.handoff.read && o.Succeeded?)
  }

  lemma HandoffEnds(w: World, r: Ref, o: Outcome, result: string)
    requires Enabled(w, Stop(r, o, result)) && CutByHandoff(w.reg.heap[r], o)
    ensures EndedWith(Apply(w, Stop(r, o, result)).reg, r, w.reg.heap[r].gen, "", HandoffError)
    ensures Apply(w, Stop(r, o, result)).reg.heap[r].timeouts == w.reg.heap[r].timeouts
  {
  }

  /**
   The other half: a generation the handoff cut is never taken for done. In every later world, as long as the
   handle is at it, it stands as failed by the handoff and without a result, and its count of stops went
   through the end of the run as it was.
   */
  lemma HandoffStopIsNeverDone(ws: seq<World>, steps: seq<Step>, i: nat, k: nat)
    requires IsRun(ws, steps) && FromStart(ws) && i < |steps| && i < k < |ws| && steps[i].Stop? && steps[i].r < |ws[i].reg.heap|
    requires CutByHandoff(ws[i].reg.heap[steps[i].r], steps[i].outcome)
    ensures var r := steps[i].r;
            && r < |ws[k].reg.heap| && r < |ws[i + 1].reg.heap|
            && ws[i + 1].reg.heap[r].timeouts == ws[i].reg.heap[r].timeouts
            && (ws[k].reg.heap[r].gen == ws[i].reg.heap[r].gen ==>
                 && ws[k].reg.heap[r].phase != Live && ws[k].reg.heap[r].err == HandoffError && ws[k].reg.heap[r].result == ""
                 && (IsDone(ws[k].reg.heap[r]) ==>
                      Snapshot(ws[k].reg.heap[r]) == Entry(ws[k].reg.heap[r].id, ws[k].reg.heap[r].gen, ReportsFailed(HandoffError), "")))
  {
    hide SoundWorld, FromStart, Apply;
    var r := steps[i].r;
    assert Enabled(ws[i], steps[i]) && ws[i + 1] == Apply(ws[i], steps[i]);
    HandoffEnds(ws[i], r, steps[i].outcome, steps[i].result);
    StaysEnded(ws, steps, i + 1, k, r, ws[i].reg.heap[r].gen, "", HandoffError);
  }

  /** The entry tells the truth of the handle: its generation, whether it is over, and then how it ended. */
  predicate TellsOf(e: Entry, h: Handle) {
    && e.id == h.id && e.gen == h.gen && e.status != ReportsUnknown
    && (e.status == ReportsRunning <==> h.phase != Done)
    && (h.phase != Done ==> e.result == "")
    && (h.phase == Done ==> e.result == h.result && e.status == if h.err == NoError then ReportsDone else ReportsFailed(h.err))
  }

  /**
   What wait_agents says of an id: unknown exactly if nobody on the roster or owed has it, else the truth of
   its newest handle; and whoever is unfinished is never reported otherwise.
   */
  lemma ReportIsOfTheIdAsked(s: Reg, id: string)
    requires Sound(s)
    ensures var e := ReportOn(s, id);
            && e.id == id
            && (e.status == ReportsUnknown <==> id !in s.agents && id !in s.pending)
            && (e.status == ReportsUnknown ==> e.gen == 0 && e.result == "")
            && (e.status != ReportsUnknown ==> exists r :: Newest(s, r) && TellsOf(e, s.heap[r]))
            && (!s.closed ==> forall r :: 0 <= r < |s.heap| && s.heap[r].id == id && s.heap[r].phase != Done ==> TellsOf(e, s.heap[r]))
  {
    SoundParts(s);
    hide Sound, Newest;
    if id in s.agents {
      NewestInside(s, s.agents[id]);
    } else if id in s.pending {
      NewestInside(s, s.pending[id]);
    }
  }

  // ---------- looking later, at each id in its own time ----------

  lemma {:induction false} StaysDone(ws: seq<World>, steps: seq<Step>, i: nat, k: nat, r: Ref, gen: int)
    requires IsRun(ws, steps) && FromStart(ws) && i <= k < |ws| && r < |ws[i].reg.heap|
    requires ws[i].reg.heap[r].gen > gen || (ws[i].reg.heap[r].gen == gen && IsDone(ws[i].reg.heap[r]))
    ensures r < |ws[k].reg.heap|
    ensures ws[k].reg.heap[r].gen > gen || (ws[k].reg.heap[r].gen == gen && IsDone(ws[k].reg.heap[r]))
    decreases k
  {
    hide Apply, Enabled, SoundWorld, FromStart;
    if i < k {
      StaysDone(ws, steps, i, k - 1, r, gen);
      RunSound(ws, steps, k - 1);
      assert Enabled(ws[k - 1], steps[k - 1]) && ws[k - 1 + 1] == Apply(ws[k - 1], steps[k - 1]);
      StepExtends(ws[k - 1], steps[k - 1]);
      assert Advances(ws[k - 1].reg.heap[r], ws[k].reg.heap[r]);
    }
  }

  lemma PendingAt(w: World, id: string)
    requires SoundWorld(w) && id in w.reg.pending
    ensures Newest(w.reg, w.reg.pending[id]) && w.reg.pending[id] < |w.reg.heap| && w.reg.heap[w.reg.pending[id]].id == id && !w.reg.closed
  {
    hide TokenHolds, Seen, SnapsMatch;
    SoundParts(w.reg);
  }

  /** A generation that was finished and owed, and is owed still, is finished still, in the same handle. */
  lemma ReadyWhilePending(ws: seq<World>, steps: seq<Step>, k: nat, j: nat, e: Expected)
    requires CurrentRun(ws, steps) && FromStart(ws) && k <= j < |ws| && Ready(ws[k].reg, e) && PendingId(ws[j].reg, e.id, e.gen)
    ensures Ready(ws[j].reg, e) && ws[j].reg.pending[e.id] == ws[k].reg.pending[e.id] && !ws[j].reg.closed
  {
    hide SoundWorld, FromStart, Newest, ResumesCurrent, Apply, Enabled;
    RunSound(ws, steps, k);
    RunSound(ws, steps, j);
    RunGens(ws, steps, j);
    PendingAt(ws[k], e.id);
    PendingAt(ws[j], e.id);
    var q, r := ws[k].reg.pending[e.id], ws[j].reg.pending[e.id];
    KeepsId(ws, steps, k, j, q);
    StaysDone(ws, steps, k, j, q, e.gen);
    if q != r { GensBelowNewest(ws[j].reg, r); SameGenSameHandle(ws[j].reg, q, r); }
  }

  lemma SameGenSameHandle(s: Reg, q: nat, r: nat)
    requires Gens(s) && q < |s.heap| && r < |s.heap| && q != r && s.heap[q].id == s.heap[r].id
    ensures s.heap[q].gen != s.heap[r].gen
  {
  }

  /**
   wait_agents takes the locks anew for each id. In whatever later world it looks at a completed generation
   still owed there, it reports it under its number as done or failed, and its token is of that very
   generation.
   */
  lemma ReportWheneverLooked(ws: seq<World>, steps: seq<Step>, k: nat, j: nat, e: Expected)
    requires CurrentRun(ws, steps) && FromStart(ws) && k <= j < |ws| && Ready(ws[k].reg, e) && PendingId(ws[j].reg, e.id, e.gen)
    ensures var s := ws[j].reg;
            && ReportOn(s, e.id).gen == e.gen
            && (ReportOn(s, e.id).status.ReportsDone? || ReportOn(s, e.id).status.ReportsFailed?)
            && Tokens(s, [e.id]) == [Token(ws[k].reg.pending[e.id], e.gen, true)]
  {
    hide SoundWorld, FromStart, ResumesCurrent, Apply, Enabled, Get, Ready;
    var s := ws[j].reg;
    ReadyWhilePending(ws, steps, k, j, e);
    RunSound(ws, steps, j);
    SoundWorldParts(ws[j]);
    ReportsReady(s, e);
    ReadyResolves(s, e);
    ReadyDone(s, e);
    TokensNext(s, [], e.id);
    assert [] + [e.id] == [e.id];
  }

  lemma ReadyDone(s: Reg, e: Expected)
    requires Ready(s, e)
    ensures e.id in s.pending && IsDone(At(s, s.pending[e.id])) && At(s, s.pending[e.id]).gen == e.gen
  {
  }
}
