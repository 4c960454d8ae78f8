/** What every step keeps: the tables agree with each other and with the handles. */
module Soundness {
  import opened Common
  import opened Order
  import opened WorkerId
  import opened Handoff
  import opened Lifecycle
  import opened Runs

  /** No later handle was made for the same id. */
  ghost predicate Newest(s: Reg, r: int) {
    0 <= r < |s.heap| && forall q :: r < q < |s.heap| ==> s.heap[q].id != s.heap[r].id
  }

  /** Both tables file newest handles under their own id; so an id in both names one handle. */
  ghost predicate Addressed(s: Reg) {
    && (forall id :: id in s.agents ==> Newest(s, s.agents[id]) && At(s, s.agents[id]).id == id)
    && (forall id :: id in s.pending ==> Newest(s, s.pending[id]) && At(s, s.pending[id]).id == id)
  }

  /** Until the registry closes, every unfinished worker is on the roster. */
  ghost predicate Tracked(s: Reg) {
    s.closed || forall r :: 0 <= r < |s.heap| ==>
      IsDone(s.heap[r]) || (s.heap[r].id in s.agents && s.agents[s.heap[r].id] == r)
  }

  /** Nothing pending was collected, and nothing is owed twice or forgotten. */
  ghost predicate Owed(s: Reg) {
    && (forall id :: id in s.pending ==> !At(s, s.pending[id]).collected)
    && (s.closed || forall r :: 0 <= r < |s.heap| && Newest(s, r) && !s.heap[r].collected && !s.heap[r].closeRequested ==>
          s.heap[r].id in s.pending && s.pending[s.heap[r].id] == r)
  }

  ghost predicate EmptyOnceClosed(s: Reg) {
    s.closed ==> s.agents == map[] && s.pending == map[] && s.past == map[] && s.pastIds == []
  }

  /** pastIds lists the archive's keys once each. */
  ghost predicate Listed(s: Reg) {
    && Distinct(s.pastIds)
    && (forall id :: id in s.pastIds <==> id in s.past)
    && (forall id :: id in s.past ==> s.past[id].id == id)
  }

  /** The counter is at least the number in every id ever used, and only ids ever used are archived. */
  ghost predicate Counted(s: Reg) {
    && s.counter >= 0
    && (forall r :: 0 <= r < |s.heap| ==> TrailingSeq(s.heap[r].id) <= s.counter)
    && (forall id :: id in s.past ==> Seen(s, id))
  }

  lemma SeenGrows(s: Reg, s': Reg)
    requires |s.heap| <= |s'.heap| && forall r :: 0 <= r < |s.heap| ==> s'.heap[r].id == s.heap[r].id
    ensures forall id :: Seen(s, id) ==> Seen(s', id)
  {
    forall id | Seen(s, id) ensures Seen(s', id) {
      var r :| 0 <= r < |s.heap| && s.heap[r].id == id;
      assert s'.heap[r].id == id;
    }
  }

  lemma SeenCounted(s: Reg, id: string)
    requires Counted(s) && Seen(s, id)
    ensures TrailingSeq(id) <= s.counter
  {
  }

  ghost predicate Sound(s: Reg) {
    Addressed(s) && Tracked(s) && Owed(s) && EmptyOnceClosed(s) && Listed(s) && Counted(s)
  }

  /** A snapshot still to be stored is of its own handle and generation. */
  ghost predicate SnapsMatch(s: Reg) {
    forall r :: 0 <= r < |s.heap| && s.heap[r].phase.Snapped? ==>
      SameWorker(s.heap[r].phase.past, s.heap[r]) && s.heap[r].phase.past.gen == s.heap[r].gen
  }

  predicate SameWorker(p: Past, h: Handle) {
    p.id == h.id && p.role == h.role && p.parent == h.parent && p.tools == h.tools
  }

  /** A token names a generation its handle reached; a finished one stays finished until the next generation. */
  predicate TokenHolds(s: Reg, t: Token) {
    && t.ref < |s.heap| && t.gen <= s.heap[t.ref].gen
    && (t.finished && t.gen == s.heap[t.ref].gen ==> IsDone(s.heap[t.ref]))
  }

  ghost predicate SoundWorld(w: World) {
    && Sound(w.reg) && SnapsMatch(w.reg)
    && (forall p :: p in w.recalled ==> Seen(w.reg, p.id))
    && (forall t :: t in w.tokens ==> TokenHolds(w.reg, t))
  }

  lemma SoundWorldParts(w: World)
    requires SoundWorld(w)
    ensures Sound(w.reg) && SnapsMatch(w.reg)
  {
  }

  // ---------- steps that change handles in place ----------

  /** Handles keep id and collection; a run may end or be closed, never the reverse. */
  ghost predicate Gentle(s: Reg, s': Reg) {
    && s'.agents == s.agents && s'.pending == s.pending && s'.pastIds == s.pastIds && s'.closed == s.closed
    && s'.counter == s.counter && s'.past.Keys == s.past.Keys
    && (forall id :: id in s.past ==> s'.past[id].id == s.past[id].id)
    && |s'.heap| == |s.heap|
    && (forall r :: 0 <= r < |s.heap| ==> Calm(s.heap[r], s'.heap[r]))
  }

  predicate Calm(h: Handle, h': Handle) {
    && h'.id == h.id && h'.collected == h.collected
    && (h.closeRequested ==> h'.closeRequested) && (IsDone(h) ==> IsDone(h'))
  }

  lemma GentleNewest(s: Reg, s': Reg)
    requires Gentle(s, s')
    ensures forall r :: Newest(s, r) <==> Newest(s', r)
  {
    forall r | Newest(s, r) ensures Newest(s', r) {
      forall q | r < q < |s'.heap| ensures s'.heap[q].id != s'.heap[r].id {
        assert Calm(s.heap[q], s'.heap[q]) && Calm(s.heap[r], s'.heap[r]);
      }
    }
    forall r | Newest(s', r) ensures Newest(s, r) {
      forall q | r < q < |s.heap| ensures s.heap[q].id != s.heap[r].id {
        assert Calm(s.heap[q], s'.heap[q]) && Calm(s.heap[r], s'.heap[r]);
      }
    }
  }

  lemma GentleSound(s: Reg, s': Reg)
    requires Sound(s) && Gentle(s, s')
    ensures Sound(s')
  {
    hide Newest, Distinct, Seen;
    GentleNewest(s, s');
    SeenGrows(s, s') by { assert forall r :: 0 <= r < |s.heap| ==> Calm(s.heap[r], s'.heap[r]); }
    assert Addressed(s') && Tracked(s');
    assert Owed(s') by {
      forall r | 0 <= r < |s'.heap| && Newest(s', r) && !s'.heap[r].collected && !s'.heap[r].closeRequested && !s'.closed
        ensures s'.heap[r].id in s'.pending && s'.pending[s'.heap[r].id] == r
      {
        assert Calm(s.heap[r], s'.heap[r]);
      }
    }
  }

  lemma PutGentle(s: Reg, r: Ref, h: Handle)
    requires r < |s.heap| && Calm(s.heap[r], h)
    ensures Gentle(s, Put(s, r, h))
  {
  }

  // ---------- the archive ----------

  /** The archive lost some entries and nothing else changed. */
  ghost predicate Forgot(s: Reg, s': Reg) {
    && s' == s.(past := s'.past, pastIds := s'.pastIds)
    && (forall id :: id in s'.past ==> id in s.past && s'.past[id] == s.past[id])
  }

  lemma ForgetListed(s: Reg, i: nat)
    requires Listed(s) && i < |s.pastIds|
    ensures Listed(Forget(s, i)) && Forgot(s, Forget(s, i))
  {
    var s' := Forget(s, i);
    forall id ensures id in s'.pastIds <==> id in s'.past {
      if id in s.pastIds {
        var k :| 0 <= k < |s.pastIds| && s.pastIds[k] == id;
        if k < i { assert s'.pastIds[k] == id; } else if k > i { assert s'.pastIds[k - 1] == id; }
      }
    }
  }

  lemma {:induction false} TrimListed(s: Reg)
    requires Listed(s)
    ensures Listed(Trim(s)) && Forgot(s, Trim(s))
    decreases |s.pastIds|
  {
    if |s.pastIds| > s.archiveCap {
      var i := FirstUnneeded(s, 0);
      if i < |s.pastIds| {
        ForgetListed(s, i);
        TrimListed(Forget(s, i));
      }
    }
  }

  lemma {:induction false} EvictListed(s: Reg)
    requires Listed(s)
    ensures Listed(Evict(s)) && Forgot(s, Evict(s))
    decreases |s.pastIds|
  {
    if |s.pastIds| > s.archiveCap {
      ForgetListed(s, 0);
      EvictListed(Forget(s, 0));
    }
  }

  lemma RememberKeeps(s: Reg, p: Past)
    requires Listed(s)
    ensures Listed(Remember(s, p))
    ensures var s' := Remember(s, p);
            && s' == s.(past := s'.past, pastIds := s'.pastIds)
            && (forall id :: id in s'.past ==> if id == p.id && !s.closed then s'.past[id] == p else id in s.past && s'.past[id] == s.past[id])
            && (s.closed ==> s' == s)
  {
    if !s.closed {
      var e := Enter(s, p);
      assert Listed(e) by {
        if p.id !in s.past { assert p.id !in s.pastIds; }
      }
      if s.delegation { TrimListed(e); } else { EvictListed(e); }
    }
  }

  /** Soundness of the roster depends on the roster alone. */
  lemma SameRoster(s: Reg, s': Reg)
    requires s'.agents == s.agents && s'.pending == s.pending && s'.heap == s.heap && s'.closed == s.closed
    ensures forall r :: Newest(s, r) <==> Newest(s', r)
    ensures Addressed(s) ==> Addressed(s')
    ensures Tracked(s) ==> Tracked(s')
    ensures Owed(s) ==> Owed(s')
  {
    assert forall r :: Newest(s, r) <==> Newest(s', r);
    hide Newest;
  }

  lemma RememberSound(s: Reg, p: Past)
    requires Sound(s) && Seen(s, p.id)
    ensures Sound(Remember(s, p))
  {
    hide Remember, Seen, Distinct, Newest, TrailingSeq, Addressed, Tracked, Owed;
    RememberKeeps(s, p);
    SameRoster(s, Remember(s, p));
    SeenGrows(s, Remember(s, p));
  }

  // ---------- new handles and new generations ----------

  lemma EnlistNewest(s: Reg, h: Handle)
    ensures var s' := Enlist(s, h);
            && s'.heap == s.heap + [h]
            && Newest(s', |s.heap|)
            && (forall r :: 0 <= r < |s.heap| ==> (Newest(s', r) <==> Newest(s, r) && s.heap[r].id != h.id))
  {
    var s' := Enlist(s, h);
    forall r | 0 <= r < |s.heap| ensures Newest(s', r) <==> Newest(s, r) && s.heap[r].id != h.id {
      if Newest(s', r) {
        assert s'.heap[|s.heap|] == h;
        forall q | r < q < |s.heap| ensures s.heap[q].id != s.heap[r].id { assert s'.heap[q] == s.heap[q]; }
      }
    }
  }

  lemma NewestInside(s: Reg, r: int)
    requires Newest(s, r)
    ensures 0 <= r < |s.heap|
  {
  }

  /** A handle settled already must not displace what is owed under its id. */
  predicate MayEnlist(s: Reg, h: Handle) {
    h.id !in s.agents && ((!h.collected && !h.closeRequested) || h.id !in s.pending)
  }

  lemma EnlistAddressed(s: Reg, h: Handle)
    requires Addressed(s) && MayEnlist(s, h)
    ensures Addressed(Enlist(s, h))
  {
    hide Newest;
    var s' := Enlist(s, h);
    EnlistNewest(s, h);
    forall id | id in s'.agents ensures Newest(s', s'.agents[id]) && At(s', s'.agents[id]).id == id {
      if id != h.id { NewestInside(s, s.agents[id]); }
    }
    forall id | id in s'.pending ensures Newest(s', s'.pending[id]) && At(s', s'.pending[id]).id == id {
      if id != h.id { NewestInside(s, s.pending[id]); }
    }
  }

  lemma EnlistOwed(s: Reg, h: Handle)
    requires Addressed(s) && Owed(s) && MayEnlist(s, h)
    ensures Owed(Enlist(s, h))
  {
    hide Newest;
    var s' := Enlist(s, h);
    EnlistNewest(s, h);
    forall id | id in s'.pending ensures !At(s', s'.pending[id]).collected {
      if id != h.id { NewestInside(s, s.pending[id]); }
    }
    forall r | 0 <= r < |s'.heap| && Newest(s', r) && !s'.heap[r].collected && !s'.heap[r].closeRequested && !s.closed
      ensures s'.heap[r].id in s'.pending && s'.pending[s'.heap[r].id] == r
    {
      if r < |s.heap| { assert Newest(s, r); }
    }
  }

  lemma EnlistCounted(s: Reg, h: Handle)
    requires Tracked(s) && Counted(s) && !s.closed && TrailingSeq(h.id) <= s.counter && h.id !in s.agents
    ensures Tracked(Enlist(s, h)) && Counted(Enlist(s, h))
  {
    hide TrailingSeq, Seen;
    SeenGrows(s, Enlist(s, h));
  }

  lemma EnlistSound(s: Reg, h: Handle)
    requires Sound(s) && !s.closed && TrailingSeq(h.id) <= s.counter && MayEnlist(s, h)
    ensures Sound(Enlist(s, h))
  {
    hide Newest, Distinct, TrailingSeq, Addressed, Owed, Tracked, Counted, MayEnlist;
    assert h.id !in s.agents by { MayEnlistNew(s, h); }
    EnlistAddressed(s, h);
    EnlistOwed(s, h);
    EnlistCounted(s, h);
  }

  lemma MayEnlistNew(s: Reg, h: Handle)
    requires MayEnlist(s, h)
    ensures h.id !in s.agents
  {
  }

  /** r starts a new generation in place. */
  ghost predicate Renews(s: Reg, r: Ref, h: Handle) {
    && r < |s.heap| && s.heap[r].id in s.agents && s.agents[s.heap[r].id] == r
    && h.id == s.heap[r].id && !h.collected && !h.closeRequested
  }

  lemma ResetNewest(s: Reg, r: Ref, h: Handle)
    requires Renews(s, r, h)
    ensures forall q :: Newest(s, q) <==> Newest(NotePending(Put(s, r, h), r), q)
  {
    assert forall q :: 0 <= q < |s.heap| ==> Put(s, r, h).heap[q].id == s.heap[q].id;
  }

  lemma ResetAddressed(s: Reg, r: Ref, h: Handle)
    requires Addressed(s) && Renews(s, r, h)
    ensures Addressed(NotePending(Put(s, r, h), r))
  {
    ResetNewest(s, r, h);
    forall id | id in s.pending ensures s.pending[id] < |s.heap| { NewestInside(s, s.pending[id]); }
    forall id | id in s.agents ensures s.agents[id] < |s.heap| { NewestInside(s, s.agents[id]); }
    hide Newest;
  }

  lemma ResetUncollected(s: Reg, r: Ref, h: Handle)
    requires Addressed(s) && Owed(s) && Renews(s, r, h)
    ensures var s' := NotePending(Put(s, r, h), r); forall id :: id in s'.pending ==> !At(s', s'.pending[id]).collected
  {
    hide Newest, Addressed, NotePending, Put;
    RenewedTables(s, r, h);
    AddressedAt(s);
  }

  lemma ResetOwed(s: Reg, r: Ref, h: Handle)
    requires Addressed(s) && Owed(s) && Renews(s, r, h)
    ensures Owed(NotePending(Put(s, r, h), r))
  {
    hide Newest, Addressed, NotePending, Put;
    ResetUncollected(s, r, h);
    ResetNewest(s, r, h);
    RenewedTables(s, r, h);
    RosterNewest(s, r, h);
    var s' := NotePending(Put(s, r, h), r);
    forall q | 0 <= q < |s'.heap| && Newest(s', q) && !s'.heap[q].collected && !s'.heap[q].closeRequested && !s'.closed
      ensures s'.heap[q].id in s'.pending && s'.pending[s'.heap[q].id] == q
    {
      if q != r { OneNewest(s, q, r); }
    }
  }

  lemma RosterNewest(s: Reg, r: Ref, h: Handle)
    requires Addressed(s) && Renews(s, r, h)
    ensures Newest(s, r)
  {
    hide Newest;
  }

  lemma OneNewest(s: Reg, q: int, r: int)
    requires Newest(s, q) && Newest(s, r) && q != r
    ensures s.heap[q].id != s.heap[r].id
  {
  }

  lemma RenewedTables(s: Reg, r: Ref, h: Handle)
    requires Renews(s, r, h)
    ensures var s' := NotePending(Put(s, r, h), r);
            s'.heap == s.heap[r := h] && s'.pending == s.pending[h.id := r] && s'.agents == s.agents && s'.closed == s.closed
  {
  }

  lemma AddressedAt(s: Reg)
    requires Addressed(s)
    ensures forall id :: id in s.agents ==> At(s, s.agents[id]).id == id
    ensures forall id :: id in s.pending ==> At(s, s.pending[id]).id == id
  {
    hide Newest;
  }

  lemma ResetSound(s: Reg, r: Ref, h: Handle)
    requires Sound(s) && Renews(s, r, h)
    ensures Sound(NotePending(Put(s, r, h), r))
  {
    hide Newest, Distinct, TrailingSeq, Addressed, Owed, Seen;
    ResetAddressed(s, r, h);
    ResetOwed(s, r, h);
    SeenGrows(s, NotePending(Put(s, r, h), r));
  }

  /** The registry once a granted spawn took its number; as it was when nothing was granted. */
  function SpawnBase(w: World, step: Step): Reg
    requires step.SpawnWorker?
  {
    match Granted(w, step.caller, step.base, step.names)
    case None => w.reg
    case Some(f) => Numbered(w.reg, f.delegates)
  }

  /** The handle a granted spawn makes. */
  function SpawnMade(w: World, step: Step): Handle
    requires step.SpawnWorker?
  {
    SpawnedHandle(w.reg, step.role, step.caller,
                  match Granted(w, step.caller, step.base, step.names) case None => None case Some(f) => f.config.chosen)
  }

  /** A spawn step is refused, or inserts one handle and starts it with the surface it was granted. */
  lemma SpawnStep(w: World, step: Step)
    requires step.SpawnWorker?
    ensures var s, f := w.reg, Granted(w, step.caller, step.base, step.names);
            || Apply(w, step) == w
            || (&& f.Some? && !s.closed && !s.handingOff && (step.caller.Some? ==> CallerActive(s, step.caller.value))
                && (step.admit ==> LiveCount(s) < s.cap)
                && Apply(w, step) == w.(reg := Enlist(SpawnBase(w, step), SpawnMade(w, step)), surfaces := w.surfaces[|s.heap| := f.value])
                && SpawnBase(w, step) == Numbered(s, f.value.delegates))
    ensures SpawnBase(w, step) == w.reg.(delegation := SpawnBase(w, step).delegation, counter := SpawnBase(w, step).counter)
    ensures SpawnMade(w, step).id == Mint(step.role, Increment(w.reg.counter))
  {
    hide Granted, Enlist, CallerActive, LiveCount, Mint;
  }

  lemma SpawnSound(w: World, step: Step)
    requires Sound(w.reg) && Enabled(w, step) && step.SpawnWorker?
    ensures Sound(Apply(w, step).reg)
  {
    hide Sound, Seen, Mint, TrailingSeq, Enlist, LiveCount, CallerActive, Granted, Apply;
    var s := w.reg;
    SpawnStep(w, step);
    if Apply(w, step) != w {
      SoundParts(s);
      MintIsCold(s, step.role);
      UnseenUnlisted(s, Mint(step.role, s.counter + 1));
      CountOn(s, SpawnBase(w, step));
      EnlistSound(SpawnBase(w, step), SpawnMade(w, step));
    }
  }

  lemma SoundParts(s: Reg)
    requires Sound(s)
    ensures Addressed(s) && Tracked(s) && Owed(s) && EmptyOnceClosed(s) && Listed(s) && Counted(s)
  {
  }

  lemma EnlistCounter(s: Reg, h: Handle)
    ensures Enlist(s, h).counter == s.counter && Enlist(s, h).closed == s.closed
  {
  }

  lemma CountOn(s: Reg, s': Reg)
    requires Sound(s) && s'.counter >= s.counter
    requires s' == s.(delegation := s'.delegation, counter := s'.counter)
    ensures Sound(s')
  {
    hide Seen, Newest, Distinct, TrailingSeq, Addressed, Owed, Tracked;
    SameRoster(s, s');
    SeenGrows(s, s');
  }

  lemma UnseenUnlisted(s: Reg, id: string)
    requires Sound(s) && !Seen(s, id)
    ensures id !in s.agents && id !in s.pending && id !in s.past
  {
    hide Distinct, TrailingSeq;
  }

  lemma MintIsCold(s: Reg, role: string)
    requires Counted(s) && s.counter < MAX_INT64
    ensures !Seen(s, Mint(role, s.counter + 1)) && TrailingSeq(Mint(role, s.counter + 1)) == s.counter + 1
  {
    ReadBack(role, s.counter + 1);
  }

  lemma ClaimSound(s: Reg, p: Past, admit: bool)
    requires Sound(s) && Seen(s, p.id)
    ensures var a := ClaimForResume(s, p, admit);
            a.Admitted? ==> Sound(a.reg)
  {
    hide Sound, Seen, TrailingSeq, Enlist, ClaimForResume, LiveCount, ScopeFits;
    ClaimShape(s, p, admit);
    SoundParts(s);
    SeenCounted(s, p.id);
    if p.id in s.agents {
      NewestInside(s, s.agents[p.id]);
      ResetSound(s, s.agents[p.id], Reset(At(s, s.agents[p.id])));
    } else if !s.closed {
      EnlistSound(s, ResumedHandle(p));
    }
  }

  // ---------- settling and pruning ----------

  lemma StatsSound(s: Reg)
    requires Sound(s)
    ensures Sound(Stats(s))
  {
    hide Distinct, TrailingSeq, Seen, Newest;
    SameIdsNewest(s, Stats(s));
  }

  /** The same handles under the same ids, whatever else they hold. */
  lemma SameIdsNewest(s: Reg, s': Reg)
    requires |s'.heap| == |s.heap| && forall r :: 0 <= r < |s.heap| ==> s'.heap[r].id == s.heap[r].id
    ensures forall r :: Newest(s, r) <==> Newest(s', r)
    ensures forall id :: Seen(s, id) <==> Seen(s', id)
  {
    SeenGrows(s, s');
    SeenGrows(s', s);
    hide Seen;
  }

  /**
   The handles of ids leave pending and are marked settled; everything else on the roster stays.
   collectWorker settles one id, closeSubtree a whole tree.
   */
  ghost predicate Settles(s: Reg, s': Reg, ids: set<string>) {
    && s'.agents == s.agents && s'.closed == s.closed && s'.counter == s.counter && s'.pastIds == s.pastIds
    && s'.pending == s.pending - ids
    && s'.past.Keys == s.past.Keys && (forall id :: id in s.past ==> s'.past[id].id == s.past[id].id)
    && |s'.heap| == |s.heap|
    && (forall r :: 0 <= r < |s.heap| ==> SettledOr(s, s.heap[r], s'.heap[r], r, ids))
  }

  ghost predicate SettledOr(s: Reg, h: Handle, h': Handle, r: int, ids: set<string>) {
    && h'.id == h.id && (IsDone(h') <==> IsDone(h))
    && (h' == h || (h.id in ids && (h'.collected || h'.closeRequested)))
    && (h.id in ids && h.id in s.pending && s.pending[h.id] == r ==> h'.collected || h'.closeRequested)
  }

  lemma SettlesOwed(s: Reg, s': Reg, ids: set<string>)
    requires Addressed(s) && Owed(s) && Settles(s, s', ids)
    ensures Owed(s')
  {
    assert forall r :: 0 <= r < |s.heap| ==> SettledOr(s, s.heap[r], s'.heap[r], r, ids);
    SameIdsNewest(s, s');
    forall id | id in s'.pending ensures !At(s', s'.pending[id]).collected {
      NewestInside(s, s.pending[id]);
      assert SettledOr(s, s.heap[s.pending[id]], s'.heap[s.pending[id]], s.pending[id], ids);
    }
    hide Newest;
    forall r | 0 <= r < |s'.heap| && Newest(s', r) && !s'.heap[r].collected && !s'.heap[r].closeRequested && !s'.closed
      ensures s'.heap[r].id in s'.pending && s'.pending[s'.heap[r].id] == r
    {
      assert SettledOr(s, s.heap[r], s'.heap[r], r, ids);
      assert s'.heap[r] == s.heap[r];
    }
  }

  lemma SettlesIds(s: Reg, s': Reg, ids: set<string>)
    requires Settles(s, s', ids)
    ensures forall r :: 0 <= r < |s.heap| ==> s'.heap[r].id == s.heap[r].id && (IsDone(s'.heap[r]) <==> IsDone(s.heap[r]))
    ensures forall r :: Newest(s, r) <==> Newest(s', r)
    ensures forall id :: Seen(s, id) <==> Seen(s', id)
  {
    assert forall r :: 0 <= r < |s.heap| ==> SettledOr(s, s.heap[r], s'.heap[r], r, ids);
    SameIdsNewest(s, s');
  }

  lemma SettlesAddressed(s: Reg, s': Reg, ids: set<string>)
    requires Addressed(s) && Tracked(s) && Settles(s, s', ids)
    ensures Addressed(s') && Tracked(s')
  {
    SettlesIds(s, s', ids);
    forall id | id in s.pending ensures s.pending[id] < |s.heap| { NewestInside(s, s.pending[id]); }
    forall id | id in s.agents ensures s.agents[id] < |s.heap| { NewestInside(s, s.agents[id]); }
    hide Newest, Seen, SettledOr;
  }

  lemma SettlesSound(s: Reg, s': Reg, ids: set<string>)
    requires Sound(s) && Settles(s, s', ids)
    ensures Sound(s')
  {
    hide Newest, Distinct, TrailingSeq, Owed, Addressed, Tracked, Seen, SettledOr;
    SettlesOwed(s, s', ids);
    SettlesAddressed(s, s', ids);
    SettlesIds(s, s', ids);
  }

  lemma CollectSettles(s: Reg, r: Ref, gen: int, closing: bool)
    requires Collectable(s, r, gen) && r < |s.heap|
    ensures Settles(s, Collect(s, r, gen, closing), {s.heap[r].id})
  {
  }

  lemma CollectSound(s: Reg, r: Ref, gen: int, closing: bool)
    requires Sound(s)
    ensures Sound(Collect(s, r, gen, closing))
  {
    if Collectable(s, r, gen) {
      NewestInside(s, r);
      CollectSettles(s, r, gen, closing);
      hide Sound, Settles;
      SettlesSound(s, Collect(s, r, gen, closing), {s.heap[r].id});
    }
  }

  lemma CloseHandlesAt(s: Reg, ids: set<string>)
    ensures |CloseHandles(s, ids)| == |s.heap|
    ensures forall r :: 0 <= r < |s.heap| ==>
      CloseHandles(s, ids)[r] ==
        if s.heap[r].id in ids && s.heap[r].id in Reachable(s) && Reachable(s)[s.heap[r].id] == r
        then CloseOne(s.heap[r]) else s.heap[r]
  {
  }

  lemma CloseSubtreeSettles(s: Reg, root: string)
    requires root in Reachable(s) || root in s.past
    ensures Settles(s, CloseSubtree(s, root), Subtree(s, root))
  {
    var ids := Subtree(s, root);
    hide Subtree;
    CloseHandlesAt(s, ids);
  }

  lemma CloseSubtreeSound(s: Reg, root: string)
    requires Sound(s)
    ensures Sound(CloseSubtree(s, root))
  {
    if root in Reachable(s) || root in s.past {
      CloseSubtreeSettles(s, root);
      hide Sound, Settles, CloseSubtree;
      SettlesSound(s, CloseSubtree(s, root), Subtree(s, root));
    }
  }

  lemma CloseRegistrySound(s: Reg)
    requires Sound(s)
    ensures Sound(CloseRegistry(s))
  {
    hide TrailingSeq;
  }

  // ---------- restoring and planting new ids ----------

  lemma NoteIdSound(s: Reg, id: string)
    requires Sound(s)
    ensures Sound(NoteId(s, id)) && NoteId(s, id).counter >= TrailingSeq(id)
  {
    hide Sound, TrailingSeq;
    CountOn(s, NoteId(s, id));
  }

  /** The handle a restored running worker ends up with. */
  function RestoredHandle(id: string, role: string, parent: string, gen: int, failures: nat,
                          tools: Option<seq<string>>, collected: bool, closing: bool): Handle {
    NewHandle(id, role, parent, if gen > 0 then gen else 1, failures, tools).(collected := collected, closeRequested := closing)
  }

  function RestoredOf(step: Step): Handle
    requires step.RestoreWorker?
  {
    RestoredHandle(step.id, step.role, step.parent, step.gen, step.failures, RestoredTools(step), step.collected, step.closing)
  }

  /** Restoring a new id adds one running handle with the stored marks, or is refused. */
  lemma RestoreShape(w: World, step: Step)
    requires Sound(w.reg) && step.RestoreWorker? && Enabled(w, step)
    ensures var s, f := w.reg, Rebuilt(step.base, step.stored);
            var a := ClaimForRestore(s, step.id, step.role, step.failures, step.parent, RestoredTools(step));
            && Apply(w, step) ==
                 (if a.Denied? || f.None? then w
                  else w.(reg := Enlist(NoteId(s, step.id), RestoredOf(step)), surfaces := w.surfaces[|s.heap| := f.value]))
            && (a.Admitted? ==>
                  && !s.closed && step.failures < MAX_CONSECUTIVE_TIMEOUTS
                  && ScopeFits(s, step.parent, RestoredTools(step)) && ParentAllowed(s, step.id, step.parent))
  {
    hide Sound, Seen, TrailingSeq, ScopeFits, ParentAllowed, RestoreCollection, NoteId, Enlist, Rebuilt;
    UnseenUnlisted(w.reg, step.id);
    RestoreMarks(w.reg, NewHandle(step.id, step.role, step.parent, 1, step.failures, RestoredTools(step)),
                 step.gen, step.collected, step.closing);
  }

  /** Writing the stored marks over a handle just made for a new id amounts to making it with them. */
  lemma RestoreMarks(s: Reg, h: Handle, gen: int, collected: bool, closing: bool)
    requires h.id !in s.agents && h.id !in s.pending && !h.collected && !h.closeRequested
    ensures RestoreCollection(NoteId(Enlist(s, h), h.id), |s.heap|, gen, collected, closing)
         == Enlist(NoteId(s, h.id), h.(gen := if gen > 0 then gen else h.gen, collected := collected, closeRequested := closing))
  {
    hide TrailingSeq, NoteId;
    var r, s1 := |s.heap|, Enlist(s, h);
    var h' := h.(gen := if gen > 0 then gen else h.gen, collected := collected, closeRequested := closing);
    NoteIdCommutes(s, h);
    NoteIdCommutes(s, h');
    NoteIdFields(s1, h.id);
    var s2 := NoteId(s1, h.id);
    assert At(s2, r) == h;
    assert s2.heap[r := h'] == s.heap + [h'];
    assert s2.pending - {h.id} == s.pending;
    NoteIdFields(Enlist(s, h'), h.id);
    assert RestoreCollection(s2, r, gen, collected, closing) == NoteId(Enlist(s, h'), h.id);
  }

  lemma NoteIdFields(s: Reg, id: string)
    ensures NoteId(s, id) == s.(counter := NoteId(s, id).counter)
    ensures NoteId(s, id).counter == if TrailingSeq(id) > s.counter then TrailingSeq(id) else s.counter
  {
  }

  lemma NoteIdCommutes(s: Reg, h: Handle)
    ensures NoteId(Enlist(s, h), h.id) == Enlist(NoteId(s, h.id), h)
  {
    hide TrailingSeq;
  }

  /** Planting a new id adds one finished handle and archives it, or is refused. */
  lemma PlantShape(w: World, step: Step)
    requires Sound(w.reg) && step.PlantWorker? && Enabled(w, step)
    ensures Apply(w, step) ==
              if Plant(w.reg, step.h).Denied? then w
              else w.(reg := Remember(Enlist(NoteId(w.reg, step.h.id), step.h), SnapshotPast(step.h)))
    ensures Plant(w.reg, step.h).Admitted? ==>
              !w.reg.closed && ScopeFits(w.reg, step.h.parent, step.h.tools) && ParentAllowed(w.reg, step.h.id, step.h.parent)
  {
    hide Sound, Seen, TrailingSeq, ScopeFits, ParentAllowed, Remember;
    UnseenUnlisted(w.reg, step.h.id);
  }

  lemma EnlistNotedSound(s: Reg, h: Handle)
    requires Sound(s) && !s.closed && !Seen(s, h.id)
    ensures Sound(Enlist(NoteId(s, h.id), h)) && Seen(Enlist(NoteId(s, h.id), h), h.id)
  {
    hide Sound, TrailingSeq;
    UnseenUnlisted(s, h.id);
    NoteIdSound(s, h.id);
    EnlistSound(NoteId(s, h.id), h);
    var s' := Enlist(NoteId(s, h.id), h);
    assert s'.heap[|s.heap|].id == h.id;
  }

  // ---------- every step ----------

  /** Steps that make no handle, start no generation and settle nothing. */
  predicate InPlace(step: Step) {
    step.Start? || step.Stop? || step.Snap? || step.CloseDone? || step.HandoffStop? || step.UseTool? || InPlaceBulk(step) || ReadsOnly(step)
  }

  predicate InPlaceBulk(step: Step) {
    step.Cleanup? || step.StartHandoff? || step.ForgiveTimeouts? || step.SetCap?
  }

  predicate ReadsOnly(step: Step) {
    step.RecallId? || step.Look? || step.CancelStopped? || step.FireCancel?
  }

  lemma InPlaceGentle(w: World, step: Step)
    requires Enabled(w, step) && InPlace(step)
    ensures Gentle(w.reg, Apply(w, step).reg)
  {
    if InPlaceBulk(step) { BulkGentle(w, step); }
    else if ReadsOnly(step) { ReadsNothing(w, step); SameGentle(w.reg); }
    else {
      hide Apply, Enabled, Rewritten, Calm, Gentle;
      SingleIsPut(w, step);
      RewrittenCalm(w, step);
      PutGentle(w.reg, step.r, Rewritten(w, step));
    }
  }

  lemma ReadsNothing(w: World, step: Step)
    requires ReadsOnly(step)
    ensures Apply(w, step).reg == w.reg
  {
    hide Get, Recall;
  }

  lemma SameGentle(s: Reg)
    ensures Gentle(s, s)
  {
  }

  /** Steps that rewrite one handle. */
  predicate Single(step: Step) {
    step.Start? || step.Stop? || step.Snap? || step.CloseDone? || step.HandoffStop? || step.UseTool?
  }

  /** What it becomes. */
  function Rewritten(w: World, step: Step): Handle
    requires Single(step)
  {
    var h := At(w.reg, step.r);
    match step
    case Start(_) => h.(cancel := Some(|w.ctxs|))
    case Stop(_, o, result) => Complete(h, o, result)
    case Snap(_) => h.(phase := Snapped(SnapshotPast(h)))
    case CloseDone(_) => h.(phase := Done)
    case HandoffStop(_) => if Finished(h) then h else h.(work := h.work.(handoff := h.work.handoff.(cancelled := true)))
    case UseTool(_, action) => h.(work := Act(w.reg.handingOff, h.work, action))
  }

  lemma SingleIsPut(w: World, step: Step)
    requires Enabled(w, step) && Single(step)
    ensures step.r < |w.reg.heap| && Apply(w, step).reg == Put(w.reg, step.r, Rewritten(w, step))
  {
    hide Act, Complete;
    if step.HandoffStop? && Finished(At(w.reg, step.r)) {
      assert w.reg.heap[step.r := w.reg.heap[step.r]] == w.reg.heap;
    }
  }

  lemma RewrittenCalm(w: World, step: Step)
    requires Enabled(w, step) && Single(step)
    ensures Calm(At(w.reg, step.r), Rewritten(w, step))
  {
    hide Act;
  }

  lemma RewrittenAdvances(w: World, step: Step)
    requires Enabled(w, step) && Single(step)
    ensures Advances(At(w.reg, step.r), Rewritten(w, step))
  {
    hide Act;
    if step.UseTool? { ActKeeps(w.reg.handingOff, w.reg.heap[step.r].work, step.action); }
  }

  lemma BulkGentle(w: World, step: Step)
    requires InPlaceBulk(step)
    ensures Gentle(w.reg, Apply(w, step).reg)
  {
    match step
    case Cleanup => assert Gentle(w.reg, CleanupMarks(w.reg));
    case StartHandoff => assert Gentle(w.reg, BeginHandoff(w.reg));
    case ForgiveTimeouts => assert Gentle(w.reg, ResetTimeouts(w.reg));
    case SetCap(cap) =>
  }

  /** The archived phase alone, before the archive update. */
  lemma FiledSound(w: World, r: Ref)
    requires SoundWorld(w) && Enabled(w, Store(r))
    ensures var s1 := Put(w.reg, r, w.reg.heap[r].(phase := Archived)); Sound(s1) && Seen(s1, w.reg.heap[r].phase.past.id)
  {
    hide Sound, Seen, TokenHolds;
    var s, h := w.reg, w.reg.heap[r];
    PutGentle(s, r, h.(phase := Archived));
    GentleSound(s, Put(s, r, h.(phase := Archived)));
    SeenAt(Put(s, r, h.(phase := Archived)), r);
  }

  lemma StoreSound(w: World, r: Ref)
    requires SoundWorld(w) && Enabled(w, Store(r))
    ensures Sound(Apply(w, Store(r)).reg)
  {
    hide SoundWorld, Sound, Seen, Remember;
    FiledSound(w, r);
    RememberSound(Put(w.reg, r, w.reg.heap[r].(phase := Archived)), w.reg.heap[r].phase.past);
  }

  lemma RestoreSound(w: World, step: Step)
    requires Sound(w.reg) && Enabled(w, step) && (step.RestoreWorker? || step.PlantWorker?)
    ensures Sound(Apply(w, step).reg)
  {
    hide Sound, Seen, TrailingSeq, Apply, ClaimForRestore, Plant, Remember, Enlist, NoteId;
    var s := w.reg;
    if step.RestoreWorker? {
      RestoreShape(w, step);
      if !s.closed {
        EnlistNotedSound(s, RestoredOf(step));
      }
    } else {
      PlantShape(w, step);
      if !s.closed {
        EnlistNotedSound(s, step.h);
        RememberSound(Enlist(NoteId(s, step.h.id), step.h), SnapshotPast(step.h));
      }
    }
  }

  lemma StepSound(w: World, step: Step)
    requires SoundWorld(w) && Enabled(w, step)
    ensures Sound(Apply(w, step).reg)
  {
    hide Sound, Seen, TrailingSeq, Spawn, ClaimForResume, Remember, CloseSubtree, Stats, Collect, Gentle, CloseRegistry,
      ClaimForRestore, Plant, CleanupMarks, BeginHandoff, ResetTimeouts, Complete, Get, Recall;
    var s := w.reg;
    if InPlace(step) {
      InPlaceGentle(w, step);
      GentleSound(s, Apply(w, step).reg);
    } else {
      match step
      case SpawnWorker(_, _, _, _, _) => SpawnSound(w, step);
      case Store(r) => StoreSound(w, r);
      case Prune => StatsSound(s);
      case Claim(p, _, admit) => ClaimSound(s, p, admit);
      case Settle(t, closing) => CollectSound(s, t.ref, t.gen, closing);
      case CloseTree(id) => CloseSubtreeSound(s, id);
      case CloseAll => CloseRegistrySound(s);
      case RestoreWorker(_, _, _, _, _, _, _, _, _) => RestoreSound(w, step);
      case PlantWorker(_) => RestoreSound(w, step);
    }
  }

  // ---------- how handles move ----------

  function Rank(p: Phase): nat {
    match p
    case Live => 0
    case Stopped => 1
    case Snapped(_) => 2
    case Archived => 3
    case Done => 4
  }

  predicate SameIdentity(h: Handle, h': Handle) {
    h'.id == h.id && h'.role == h.role && h'.parent == h.parent && h'.tools == h.tools
  }

  /** The next generation, with nothing settled and no run context yet. */
  predicate StartsOver(h: Handle, h': Handle) {
    && IsDone(h) && h'.phase == Live && h'.gen == h.gen + 1
    && !h'.collected && !h'.closeRequested && h'.cancel.None? && !h'.work.handoff.cancelled
  }

  /** The same generation, further along; marks only accumulate, and what a run ended with stays. */
  predicate MovesOn(h: Handle, h': Handle) {
    && h'.gen == h.gen && (h'.phase == h.phase || Rank(h.phase) < Rank(h'.phase))
    && (h'.phase.Snapped? ==> h'.phase == h.phase || h'.phase.past == SnapshotPast(h))
    && (h.collected || h.closeRequested ==> h'.collected || h'.closeRequested)
    && (h.closeRequested && !IsDone(h) ==> h'.closeRequested)
    && (h.cancel.Some? ==> h'.cancel == h.cancel)
    && (h.work.handoff.cancelled ==> h'.work.handoff.cancelled)
    && (Finished(h) ==> h'.result == h.result && h'.err == h.err)
  }

  predicate Advances(h: Handle, h': Handle) {
    SameIdentity(h, h') && (MovesOn(h, h') || StartsOver(h, h'))
  }

  /** A handle just made: a worker about to start, or one planted as finished. */
  predicate Born(h: Handle) {
    (h.phase == Live || h.phase == Done) && h.cancel.None? && !h.work.handoff.cancelled
  }

  ghost predicate Extends(s: Reg, s': Reg) {
    && |s.heap| <= |s'.heap|
    && (forall r :: 0 <= r < |s.heap| ==> Advances(s.heap[r], s'.heap[r]))
    && (forall r :: |s.heap| <= r < |s'.heap| ==> Born(s'.heap[r]))
  }

  lemma EnlistExtends(s: Reg, s1: Reg, h: Handle)
    requires s1.heap == s.heap && Born(h)
    ensures Extends(s, Enlist(s1, h))
  {
  }

  lemma PutExtends(s: Reg, r: Ref, h: Handle)
    requires r < |s.heap| && Advances(s.heap[r], h)
    ensures Extends(s, Put(s, r, h))
  {
  }

  lemma RememberRoster(s: Reg, p: Past)
    ensures Remember(s, p) == s.(past := Remember(s, p).past, pastIds := Remember(s, p).pastIds)
  {
    if !s.closed {
      if s.delegation { TrimRoster(Enter(s, p)); } else { EvictRoster(Enter(s, p)); }
    }
  }

  lemma {:induction false} TrimRoster(s: Reg)
    ensures Trim(s) == s.(past := Trim(s).past, pastIds := Trim(s).pastIds)
    decreases |s.pastIds|
  {
    if |s.pastIds| > s.archiveCap && FirstUnneeded(s, 0) < |s.pastIds| { TrimRoster(Forget(s, FirstUnneeded(s, 0))); }
  }

  lemma {:induction false} EvictRoster(s: Reg)
    ensures Evict(s) == s.(past := Evict(s).past, pastIds := Evict(s).pastIds)
    decreases |s.pastIds|
  {
    if |s.pastIds| > s.archiveCap { EvictRoster(Forget(s, 0)); }
  }

  lemma InPlaceExtends(w: World, step: Step)
    requires Enabled(w, step) && InPlace(step)
    ensures Extends(w.reg, Apply(w, step).reg)
  {
    hide Apply, Enabled, Rewritten, Advances, Extends;
    if InPlaceBulk(step) { BulkExtends(w, step); }
    else if ReadsOnly(step) { ReadsNothing(w, step); SameExtends(w.reg, w.reg); }
    else {
      SingleIsPut(w, step);
      RewrittenAdvances(w, step);
      PutExtends(w.reg, step.r, Rewritten(w, step));
    }
  }

  lemma CleanupExtends(s: Reg)
    ensures Extends(s, CleanupMarks(s))
  {
  }

  lemma HandoffExtends(s: Reg)
    ensures Extends(s, BeginHandoff(s))
  {
  }

  lemma ForgiveExtends(s: Reg)
    ensures Extends(s, ResetTimeouts(s))
  {
  }

  lemma BulkExtends(w: World, step: Step)
    requires InPlaceBulk(step)
    ensures Extends(w.reg, Apply(w, step).reg)
  {
    hide Extends, CleanupMarks, BeginHandoff, ResetTimeouts;
    match step
    case Cleanup => CleanupExtends(w.reg);
    case StartHandoff => HandoffExtends(w.reg);
    case ForgiveTimeouts => ForgiveExtends(w.reg);
    case SetCap(cap) => SameExtends(w.reg, w.reg.(cap := cap));
  }

  lemma CollectExtends(w: World, t: Token, closing: bool)
    requires SoundWorld(w) && Enabled(w, Settle(t, closing))
    ensures Extends(w.reg, Collect(w.reg, t.ref, t.gen, closing))
  {
    hide Sound, Seen;
    assert TokenHolds(w.reg, t);
  }

  lemma CloseSubtreeExtends(s: Reg, root: string)
    ensures Extends(s, CloseSubtree(s, root))
  {
    if root in Reachable(s) || root in s.past {
      hide Subtree;
      CloseHandlesAt(s, Subtree(s, root));
    }
  }

  lemma ClaimExtends(s: Reg, p: Past, admit: bool)
    ensures ClaimForResume(s, p, admit).Admitted? ==> Extends(s, ClaimForResume(s, p, admit).reg)
  {
    hide ClaimForResume, Enlist, LiveCount, ScopeFits;
    ClaimShape(s, p, admit);
    if p.id in s.agents {
      var r := s.agents[p.id];
      if r < |s.heap| && IsDone(s.heap[r]) { PutExtends(s, r, Reset(s.heap[r])); }
    } else {
      EnlistExtends(s, s, ResumedHandle(p));
    }
  }

  /** Every step moves every handle forward, and only forward. */
  lemma StepExtends(w: World, step: Step)
    requires SoundWorld(w) && Enabled(w, step)
    ensures Extends(w.reg, Apply(w, step).reg)
  {
    hide Sound, Seen, TrailingSeq, Spawn, ClaimForResume, Remember, CloseSubtree, Stats, Collect, CloseRegistry, Extends,
      ClaimForRestore, Plant, CleanupMarks, BeginHandoff, ResetTimeouts, Complete, Get, Recall, Enlist, TokenHolds, SnapsMatch;
    var s := w.reg;
    if InPlace(step) {
      InPlaceExtends(w, step);
    } else {
      match step
      case SpawnWorker(_, _, _, _, _) =>
        SpawnStep(w, step);
        EnlistExtends(s, SpawnBase(w, step), SpawnMade(w, step));
        SameExtends(s, s);
      case Store(r) => StoreExtends(w, r);
      case Prune => SameExtends(s, Stats(s)) by { StatsHeap(s); }
      case Claim(p, _, admit) => ClaimExtends(s, p, admit); SameExtends(s, s);
      case Settle(t, closing) => CollectExtends(w, t, closing);
      case CloseTree(id) => CloseSubtreeExtends(s, id); SameExtends(s, s);
      case CloseAll => SameExtends(s, CloseRegistry(s)) by { ClosedHeap(s); }
      case RestoreWorker(id, _, _, _, _, _, _, _, _) =>
        RestoreShape(w, step);
        NoteIdFields(s, id);
        EnlistExtends(s, NoteId(s, id), RestoredOf(step));
        SameExtends(s, s);
      case PlantWorker(h) =>
        PlantShape(w, step);
        NoteIdFields(s, h.id);
        EnlistExtends(s, NoteId(s, h.id), h);
        RememberRoster(Enlist(NoteId(s, h.id), h), SnapshotPast(h));
        SameHeapExtends(s, Enlist(NoteId(s, h.id), h), Remember(Enlist(NoteId(s, h.id), h), SnapshotPast(h)));
        SameExtends(s, s);
    }
  }

  lemma SameExtends(s: Reg, s': Reg)
    requires s'.heap == s.heap
    ensures Extends(s, s')
  {
  }

  lemma SameHeapExtends(s: Reg, s1: Reg, s2: Reg)
    requires Extends(s, s1) && s2.heap == s1.heap
    ensures Extends(s, s2)
  {
  }

  lemma StatsHeap(s: Reg)
    ensures Stats(s).heap == s.heap
  {
  }

  lemma ClosedHeap(s: Reg)
    ensures CloseRegistry(s).heap == s.heap
  {
  }

  lemma StoreExtends(w: World, r: Ref)
    requires Enabled(w, Store(r))
    ensures Extends(w.reg, Apply(w, Store(r)).reg)
  {
    hide Remember;
    var s := w.reg;
    var s1 := Put(s, r, s.heap[r].(phase := Archived));
    PutExtends(s, r, s.heap[r].(phase := Archived));
    RememberRoster(s1, s.heap[r].phase.past);
  }

  lemma ExtendsSeen(s: Reg, s': Reg)
    requires Extends(s, s')
    ensures forall id :: Seen(s, id) ==> Seen(s', id)
  {
    assert forall r :: 0 <= r < |s.heap| ==> Advances(s.heap[r], s'.heap[r]);
    SeenGrows(s, s');
  }

  /** The one handle whose generation or phase a step can change. */
  function Mover(s: Reg, step: Step): Option<Ref> {
    match step
    case Stop(r, _, _) => Some(r)
    case Snap(r) => Some(r)
    case Store(r) => Some(r)
    case CloseDone(r) => Some(r)
    case Claim(p, _, _) => if p.id in s.agents then Some(s.agents[p.id]) else None
    case _ => None
  }

  ghost predicate OthersStand(s: Reg, s': Reg, mover: Option<Ref>) {
    && |s.heap| <= |s'.heap|
    && forall r :: 0 <= r < |s.heap| && mover != Some(r) ==>
         s'.heap[r].phase == s.heap[r].phase && s'.heap[r].gen == s.heap[r].gen
  }

  lemma InPlaceStands(w: World, step: Step)
    requires Enabled(w, step) && InPlace(step)
    ensures OthersStand(w.reg, Apply(w, step).reg, Mover(w.reg, step))
  {
    if InPlaceBulk(step) { BulkStands(w, step); }
    else { hide Get, Recall, Complete, Act; }
  }

  lemma BulkStands(w: World, step: Step)
    requires InPlaceBulk(step)
    ensures OthersStand(w.reg, Apply(w, step).reg, None)
  {
    match step
    case Cleanup => assert OthersStand(w.reg, CleanupMarks(w.reg), None);
    case StartHandoff => assert OthersStand(w.reg, BeginHandoff(w.reg), None);
    case ForgiveTimeouts => assert OthersStand(w.reg, ResetTimeouts(w.reg), None);
    case SetCap(cap) =>
  }

  lemma CloseSubtreeStands(s: Reg, root: string)
    ensures OthersStand(s, CloseSubtree(s, root), None)
  {
    if root in Reachable(s) || root in s.past {
      hide Subtree;
      CloseHandlesAt(s, Subtree(s, root));
    }
  }

  lemma PrefixStands(s: Reg, s': Reg)
    requires s.heap <= s'.heap
    ensures OthersStand(s, s', None)
  {
  }

  lemma EnlistPrefix(s: Reg, s1: Reg, h: Handle)
    requires s1.heap == s.heap
    ensures s.heap <= Enlist(s1, h).heap
  {
  }

  lemma ClaimStands(w: World, step: Step)
    requires step.Claim?
    ensures OthersStand(w.reg, Apply(w, step).reg, Mover(w.reg, step))
  {
    hide ClaimForResume, Enlist, LiveCount, ScopeFits;
    ClaimShape(w.reg, step.p, step.admit);
    EnlistPrefix(w.reg, w.reg, ResumedHandle(step.p));
  }

  lemma StoreStands(w: World, r: Ref)
    requires Enabled(w, Store(r))
    ensures OthersStand(w.reg, Apply(w, Store(r)).reg, Some(r))
    ensures Apply(w, Store(r)).reg.heap == w.reg.heap[r := w.reg.heap[r].(phase := Archived)]
  {
    hide Remember;
    RememberRoster(Put(w.reg, r, w.reg.heap[r].(phase := Archived)), w.reg.heap[r].phase.past);
  }

  lemma CollectStands(s: Reg, t: Token, closing: bool)
    ensures OthersStand(s, Collect(s, t.ref, t.gen, closing), None)
  {
  }

  lemma StepStands(w: World, step: Step)
    requires SoundWorld(w) && Enabled(w, step)
    ensures OthersStand(w.reg, Apply(w, step).reg, Mover(w.reg, step))
  {
    hide Sound, Seen, TrailingSeq, Spawn, ClaimForResume, Remember, CloseSubtree, Stats, Collect, CloseRegistry, OthersStand,
      ClaimForRestore, Plant, CleanupMarks, BeginHandoff, ResetTimeouts, Complete, Get, Recall, Enlist, TokenHolds, SnapsMatch;
    var s := w.reg;
    if InPlace(step) {
      InPlaceStands(w, step);
    } else {
      match step
      case SpawnWorker(_, _, _, _, _) =>
        SpawnStep(w, step);
        EnlistPrefix(s, SpawnBase(w, step), SpawnMade(w, step));
        PrefixStands(s, Apply(w, step).reg);
      case Store(r) => StoreStands(w, r);
      case Prune => StatsHeap(s); PrefixStands(s, Stats(s));
      case Claim(p, _, admit) => ClaimStands(w, step);
      case Settle(t, closing) => CollectStands(s, t, closing);
      case CloseTree(id) => CloseSubtreeStands(s, id); PrefixStands(s, s);
      case CloseAll => ClosedHeap(s); PrefixStands(s, CloseRegistry(s));
      case RestoreWorker(id, _, _, _, _, _, _, _, _) =>
        RestoreShape(w, step);
        NoteIdFields(s, id);
        EnlistPrefix(s, NoteId(s, id), RestoredOf(step));
        PrefixStands(s, Apply(w, step).reg);
      case PlantWorker(h) =>
        PlantShape(w, step);
        NoteIdFields(s, h.id);
        EnlistPrefix(s, NoteId(s, h.id), h);
        RememberRoster(Enlist(NoteId(s, h.id), h), SnapshotPast(h));
        PrefixStands(s, Apply(w, step).reg);
    }
  }

  /** Entries of the archive keep worker, generation and tools; only their marks and budget change. */
  predicate SamePast(p: Past, p': Past) {
    p'.id == p.id && p'.role == p.role && p'.parent == p.parent && p'.gen == p.gen && p'.tools == p.tools
  }

  /** The conversation a step archives. */
  function Archives(s: Reg, step: Step): Option<Past> {
    match step
    case Store(r) => if At(s, r).phase.Snapped? then Some(At(s, r).phase.past) else None
    case PlantWorker(h) => Some(SnapshotPast(h))
    case _ => None
  }

  ghost predicate PastStands(s: Reg, s': Reg, added: Option<Past>) {
    forall id :: id in s'.past ==>
      if added.Some? && id == added.value.id then s'.past[id] == added.value
      else id in s.past && SamePast(s.past[id], s'.past[id])
  }

  lemma PastSame(s: Reg, s': Reg, added: Option<Past>)
    requires s'.past == map[] || (s'.past == s.past && (added.Some? ==> added.value.id !in s.past))
    ensures PastStands(s, s', added)
  {
  }

  lemma EnlistPast(s: Reg, h: Handle)
    ensures Enlist(s, h).past == s.past
  {
  }

  lemma RememberPast(s: Reg, s1: Reg, p: Past)
    requires s1.past == s.past && Listed(s) && s1.pastIds == s.pastIds && !s1.closed
    ensures PastStands(s, Remember(s1, p), Some(p))
  {
    hide Remember, Distinct;
    RememberKeeps(s1, p);
  }

  lemma InPlacePast(w: World, step: Step)
    requires Enabled(w, step) && InPlace(step) && !step.ForgiveTimeouts?
    ensures Apply(w, step).reg.past == w.reg.past
  {
    if InPlaceBulk(step) { hide CleanupMarks, BeginHandoff; CleanupPast(w.reg); }
    else if ReadsOnly(step) { hide Apply; ReadsNothing(w, step); }
    else { hide Apply, Rewritten; SingleIsPut(w, step); }
  }

  lemma EnlistingPast(w: World, step: Step)
    requires SoundWorld(w) && Enabled(w, step) && (step.SpawnWorker? || step.Claim? || step.RestoreWorker?)
    ensures Apply(w, step).reg.past == w.reg.past
  {
    hide Sound, Seen, TrailingSeq, Spawn, ClaimForResume, ClaimForRestore, Enlist, TokenHolds, SnapsMatch, NoteId;
    var s := w.reg;
    match step
    case SpawnWorker(_, _, _, _, _) =>
      SpawnStep(w, step);
      EnlistPast(SpawnBase(w, step), SpawnMade(w, step));
    case Claim(p, _, admit) =>
      ClaimShape(s, p, admit);
      EnlistPast(s, ResumedHandle(p));
    case RestoreWorker(id, _, _, _, _, _, _, _, _) =>
      RestoreShape(w, step);
      NoteIdFields(s, id);
      EnlistPast(NoteId(s, id), RestoredOf(step));
  }

  lemma PlantPast(w: World, step: Step)
    requires SoundWorld(w) && Enabled(w, step) && step.PlantWorker?
    ensures PastStands(w.reg, Apply(w, step).reg, Archives(w.reg, step))
  {
    hide Sound, Seen, TrailingSeq, Remember, PastStands, Plant, Enlist, TokenHolds, SnapsMatch;
    var s, h := w.reg, step.h;
    SoundParts(s);
    PlantShape(w, step);
    NoteIdFields(s, h.id);
    EnlistPast(NoteId(s, h.id), h);
    EnlistPastIds(NoteId(s, h.id), h);
    UnseenUnlisted(s, h.id);
    if Plant(s, h).Admitted? { RememberPast(s, Enlist(NoteId(s, h.id), h), SnapshotPast(h)); }
    else { PastSame(s, s, Some(SnapshotPast(h))); }
  }

  lemma StepPast(w: World, step: Step)
    requires SoundWorld(w) && Enabled(w, step)
    ensures PastStands(w.reg, Apply(w, step).reg, Archives(w.reg, step))
  {
    hide Sound, Seen, Spawn, ClaimForResume, Remember, CloseSubtree, Stats, Collect, CloseRegistry, PastStands,
      ClaimForRestore, Plant, CleanupMarks, BeginHandoff, ResetTimeouts, Complete, Get, Recall, TokenHolds, SnapsMatch;
    var s, s' := w.reg, Apply(w, step).reg;
    if step.ForgiveTimeouts? { ForgivePast(s); }
    else if InPlace(step) { InPlacePast(w, step); PastSame(s, s', None); }
    else if step.SpawnWorker? || step.Claim? || step.RestoreWorker? { EnlistingPast(w, step); PastSame(s, s', None); }
    else {
      match step
      case Store(r) => StorePast(w, r);
      case Prune => StatsPast(s); PastSame(s, s', None);
      case Settle(t, closing) => MarkPast(s, t, closing);
      case CloseTree(id) => ClosePastStands(s, id); PastSame(s, s, None);
      case CloseAll => CleanupPast(s); PastSame(s, s', None);
      case PlantWorker(h) => PlantPast(w, step);
    }
  }

  lemma EnlistPastIds(s: Reg, h: Handle)
    ensures Enlist(s, h).pastIds == s.pastIds && Enlist(s, h).closed == s.closed
  {
  }

  lemma StatsPast(s: Reg)
    ensures Stats(s).past == s.past
  {
  }

  lemma CleanupPast(s: Reg)
    ensures CleanupMarks(s).past == s.past && BeginHandoff(s).past == s.past && CloseRegistry(s).past == map[]
  {
  }

  lemma ForgivePast(s: Reg)
    ensures PastStands(s, ResetTimeouts(s), None)
  {
  }

  lemma MarkPast(s: Reg, t: Token, closing: bool)
    ensures PastStands(s, Collect(s, t.ref, t.gen, closing), None)
  {
  }

  lemma ClosePastStands(s: Reg, root: string)
    ensures PastStands(s, CloseSubtree(s, root), None)
  {
    hide Subtree, CloseHandles;
  }

  lemma StorePast(w: World, r: Ref)
    requires Sound(w.reg) && Enabled(w, Store(r))
    ensures PastStands(w.reg, Apply(w, Store(r)).reg, Archives(w.reg, Store(r)))
  {
    hide Remember, Sound, PastStands;
    SoundParts(w.reg);
    var p, s1 := w.reg.heap[r].phase.past, Put(w.reg, r, w.reg.heap[r].(phase := Archived));
    if w.reg.closed {
      RememberRoster(s1, p);
      ClosedRemembers(s1, p);
      PastSame(w.reg, Remember(s1, p), Some(p));
    } else {
      RememberPast(w.reg, s1, p);
    }
  }

  lemma ClosedRemembers(s: Reg, p: Past)
    requires s.closed
    ensures Remember(s, p) == s
  {
  }

  // ---------- how the tables move ----------

  /** The handle a step can add: the one a step of its kind makes. */
  ghost predicate Newborn(s: Reg, step: Step, h: Handle) {
    match step
    case SpawnWorker(role, caller, _, _, _) => h == SpawnedHandle(s, role, caller, h.tools) && (caller.Some? ==> CallerActive(s, caller.value))
    case Claim(p, _, _) => p.id !in s.agents && h == ResumedHandle(p) && ScopeFits(s, p.parent, p.tools) && p.timeouts < MAX_CONSECUTIVE_TIMEOUTS
    case RestoreWorker(id, _, _, _, _, _, _, _, _) =>
      h == RestoredOf(step) && ScopeFits(s, h.parent, h.tools) && ParentAllowed(s, id, h.parent) && h.timeouts < MAX_CONSECUTIVE_TIMEOUTS
    case PlantWorker(planted) => h == planted && ScopeFits(s, h.parent, h.tools) && ParentAllowed(s, h.id, h.parent)
    case _ => false
  }

  /** s' enlisted one handle more than s, of the step's making. */
  ghost predicate Enlisted(s: Reg, s': Reg, step: Step) {
    && |s'.heap| == |s.heap| + 1 && s.heap <= s'.heap && Newborn(s, step, s'.heap[|s.heap|]) && !s.closed
    && var h := s'.heap[|s.heap|];
       && s'.agents == s.agents[h.id := |s.heap|]
       && s'.pending == (if h.collected || h.closeRequested then s.pending else s.pending[h.id := |s.heap|])
  }

  lemma EnlistTables(s: Reg, s1: Reg, h: Handle)
    requires s1.heap == s.heap && s1.agents == s.agents && s1.pending == s.pending
    ensures var s' := Enlist(s1, h);
            && s'.heap == s.heap + [h] && s'.agents == s.agents[h.id := |s.heap|]
            && s'.pending == if h.collected || h.closeRequested then s.pending else s.pending[h.id := |s.heap|]
  {
  }

  predicate Enlists(step: Step) { step.SpawnWorker? || step.Claim? || step.RestoreWorker? || step.PlantWorker? }

  /** What a step of the enlisting kinds can come to. */
  ghost predicate EnlistsOrNot(w: World, step: Step) {
    var s, s' := w.reg, Apply(w, step).reg;
    || s' == s
    || Enlisted(s, s', step)
    || (step.Claim? && step.p.id in s.agents && s' == Renewed(s, s.agents[step.p.id])
        && IsDone(At(s, s.agents[step.p.id])) && At(s, s.agents[step.p.id]).timeouts < MAX_CONSECUTIVE_TIMEOUTS)
  }

  lemma SpawnEnlists(w: World, step: Step)
    requires step.SpawnWorker?
    ensures EnlistsOrNot(w, step)
  {
    hide Apply, Enlist, CallerActive, LiveCount, Mint, Granted;
    SpawnStep(w, step);
    EnlistTables(w.reg, SpawnBase(w, step), SpawnMade(w, step));
  }

  lemma ClaimEnlists(w: World, step: Step)
    requires step.Claim?
    ensures EnlistsOrNot(w, step)
  {
    hide ClaimForResume, Enlist, ScopeFits, LiveCount, Renewed;
    ClaimShape(w.reg, step.p, step.admit);
    EnlistTables(w.reg, w.reg, ResumedHandle(step.p));
  }

  lemma RestoreEnlists(w: World, step: Step)
    requires Sound(w.reg) && Enabled(w, step) && step.RestoreWorker?
    ensures EnlistsOrNot(w, step)
  {
    hide Sound, Seen, TrailingSeq, ClaimForRestore, Enlist, NoteId, ScopeFits, ParentAllowed, Apply;
    var s := w.reg;
    var h := RestoredOf(step);
    RestoreShape(w, step);
    NoteIdFields(s, step.id);
    EnlistTables(s, NoteId(s, step.id), h);
  }

  lemma PlantEnlists(w: World, step: Step)
    requires Sound(w.reg) && Enabled(w, step) && step.PlantWorker?
    ensures EnlistsOrNot(w, step)
  {
    hide Sound, Seen, TrailingSeq, Plant, Remember, Enlist, NoteId, ScopeFits, ParentAllowed, Apply;
    var s, h := w.reg, step.h;
    PlantShape(w, step);
    NoteIdFields(s, h.id);
    EnlistTables(s, NoteId(s, h.id), h);
    RememberRoster(Enlist(NoteId(s, h.id), h), SnapshotPast(h));
  }

  /** A step of the enlisting kinds enlists, renews, or is refused. */
  lemma EnlistingShape(w: World, step: Step)
    requires SoundWorld(w) && Enabled(w, step) && Enlists(step)
    ensures var s, s' := w.reg, Apply(w, step).reg;
            || s' == s
            || Enlisted(s, s', step)
            || (step.Claim? && step.p.id in s.agents && s' == Renewed(s, s.agents[step.p.id])
                && IsDone(At(s, s.agents[step.p.id])) && At(s, s.agents[step.p.id]).timeouts < MAX_CONSECUTIVE_TIMEOUTS)
  {
    hide SoundWorld, Apply, Enabled, Newborn, Renewed;
    SoundWorldParts(w);
    if step.SpawnWorker? { SpawnEnlists(w, step); }
    else if step.Claim? { ClaimEnlists(w, step); }
    else if step.RestoreWorker? { RestoreEnlists(w, step); }
    else { PlantEnlists(w, step); }
  }

  /** Steps that enlist nobody keep the size of the heap and file nobody new. */
  ghost predicate Shrinks(s: Reg, s': Reg) {
    && |s'.heap| == |s.heap|
    && (forall id :: id in s'.agents ==> id in s.agents && s'.agents[id] == s.agents[id])
    && (forall id :: id in s'.pending ==> id in s.pending && s'.pending[id] == s.pending[id])
  }

  lemma OthersShrink(w: World, step: Step)
    requires Enabled(w, step) && !Enlists(step)
    ensures Shrinks(w.reg, Apply(w, step).reg)
  {
    hide Sound, Seen, Remember, CloseSubtree, Stats, Collect, CloseRegistry, Gentle, CleanupMarks, BeginHandoff, ResetTimeouts,
      Complete, Get, Recall;
    var s := w.reg;
    if InPlace(step) {
      InPlaceGentle(w, step);
      GentleShrinks(s, Apply(w, step).reg);
    } else {
      match step
      case Store(r) => RememberRoster(Put(s, r, At(s, r).(phase := Archived)), s.heap[r].phase.past);
      case Prune => StatsShrinks(s);
      case Settle(t, closing) => CollectShrinks(s, t, closing);
      case CloseTree(id) => CloseShrinks(s, id);
      case CloseAll => ClosedShrinks(s);
    }
  }

  lemma GentleShrinks(s: Reg, s': Reg)
    requires Gentle(s, s')
    ensures Shrinks(s, s')
  {
  }

  lemma StatsShrinks(s: Reg)
    ensures Shrinks(s, Stats(s))
  {
  }

  lemma CollectShrinks(s: Reg, t: Token, closing: bool)
    ensures Shrinks(s, Collect(s, t.ref, t.gen, closing))
  {
  }

  lemma CloseShrinks(s: Reg, root: string)
    ensures Shrinks(s, CloseSubtree(s, root))
  {
    hide Subtree, ClosePast;
    CloseHandlesAt(s, Subtree(s, root));
  }

  lemma ClosedShrinks(s: Reg)
    ensures Shrinks(s, CloseRegistry(s))
  {
  }

  /** A step adds at most one handle, and then it enlists it. */
  lemma StepSizes(w: World, step: Step)
    requires SoundWorld(w) && Enabled(w, step)
    ensures |Apply(w, step).reg.heap| == |w.reg.heap| || Enlisted(w.reg, Apply(w, step).reg, step)
  {
    hide SoundWorld, Apply, Enabled, Newborn, Renewed;
    if Enlists(step) {
      EnlistingShape(w, step);
      if step.Claim? { RenewedSize(w.reg, step.p.id); }
    } else {
      OthersShrink(w, step);
    }
  }

  lemma RenewedSize(s: Reg, id: string)
    ensures id in s.agents ==> |Renewed(s, s.agents[id]).heap| == |s.heap|
  {
  }

  lemma StepSnaps(w: World, step: Step)
    requires SoundWorld(w) && Enabled(w, step)
    ensures SnapsMatch(Apply(w, step).reg)
  {
    hide Sound, Seen, Apply, TokenHolds;
    StepExtends(w, step);
    var s, s' := w.reg, Apply(w, step).reg;
    forall r | 0 <= r < |s'.heap| && s'.heap[r].phase.Snapped?
      ensures SameWorker(s'.heap[r].phase.past, s'.heap[r]) && s'.heap[r].phase.past.gen == s'.heap[r].gen
    {
      if r < |s.heap| { assert Advances(s.heap[r], s'.heap[r]); }
    }
  }

  lemma TokenStays(s: Reg, s': Reg, t: Token)
    requires TokenHolds(s, t) && Extends(s, s')
    ensures TokenHolds(s', t)
  {
    assert Advances(s.heap[t.ref], s'.heap[t.ref]);
  }

  lemma LookHolds(s: Reg, r: Ref)
    requires r < |s.heap|
    ensures TokenHolds(s, Token(r, At(s, r).gen, IsDone(At(s, r))))
  {
  }

  lemma LookToken(s: Reg, id: string)
    requires Sound(s) && Get(s, id).Some?
    ensures var r := Get(s, id).value; r < |s.heap| && s.heap[r].id == id && TokenHolds(s, Token(r, At(s, r).gen, IsDone(At(s, r))))
  {
    SoundParts(s);
    if id in s.agents { NewestInside(s, s.agents[id]); } else { NewestInside(s, s.pending[id]); }
  }

  lemma RecallSeen(s: Reg, id: string)
    requires Sound(s) && Recall(s, id).Found?
    ensures Recall(s, id).past.id == id && Seen(s, id)
  {
    if id in s.past {
      SoundParts(s);
    } else {
      LookToken(s, id);
      assert s.heap[Get(s, id).value].id == id;
    }
  }

  lemma StepSoundWorld(w: World, step: Step)
    requires SoundWorld(w) && Enabled(w, step)
    ensures SoundWorld(Apply(w, step))
  {
    StepSound(w, step);
    StepSnaps(w, step);
    StepExtends(w, step);
    ExtendsSeen(w.reg, Apply(w, step).reg);
    HeldValues(w, step);
    hide Sound, Seen, Apply, Enabled, TokenHolds, SnapsMatch, Extends;
    var w' := Apply(w, step);
    forall t | t in w'.tokens ensures TokenHolds(w'.reg, t) {
      if t in w.tokens { TokenStays(w.reg, w'.reg, t); }
    }
  }

  /** The recalled conversations and tokens a step adds are true of the registry they were read from. */
  lemma HeldValues(w: World, step: Step)
    requires SoundWorld(w) && Enabled(w, step)
    ensures var w' := Apply(w, step);
            && (forall p :: p in w'.recalled ==> p in w.recalled || Seen(w'.reg, p.id))
            && (forall t :: t in w'.tokens ==> t in w.tokens || TokenHolds(w'.reg, t))
  {
    hide Sound, Seen, TokenHolds, Get, Recall, SnapsMatch, Spawn, ClaimForResume, ClaimForRestore, Plant, Remember, CloseSubtree;
    match step
    case RecallId(id) => if Recall(w.reg, id).Found? { RecallSeen(w.reg, id); }
    case Look(r) => LookHolds(w.reg, r);
    case _ =>
  }

  lemma StartSound(cap: int, archiveCap: nat, delegation: bool)
    ensures SoundWorld(Start0(cap, archiveCap, delegation))
  {
  }

  /** Every world of every run is sound. */
  lemma {:induction false} RunSound(ws: seq<World>, steps: seq<Step>, i: nat)
    requires IsRun(ws, steps) && FromStart(ws) && i < |ws|
    ensures SoundWorld(ws[i])
    decreases i
  {
    hide SoundWorld, Apply, Enabled;
    if i == 0 {
      var cap, archiveCap, delegation :| cap > 0 && ws[0] == Start0(cap, archiveCap, delegation);
      StartSound(cap, archiveCap, delegation);
    } else {
      RunSound(ws, steps, i - 1);
      assert Enabled(ws[i - 1], steps[i - 1]) && ws[i - 1 + 1] == Apply(ws[i - 1], steps[i - 1]);
      StepSoundWorld(ws[i - 1], steps[i - 1]);
    }
  }

  /** In every world of every run, the id the next spawn would mint was never used and is not known. */
  lemma MintedIdIsNew(ws: seq<World>, steps: seq<Step>, i: nat, role: string)
    requires IsRun(ws, steps) && FromStart(ws) && i < |ws| && ws[i].reg.counter < MAX_INT64
    ensures var s := ws[i].reg;
            var id := Mint(role, s.counter + 1);
            !Seen(s, id) && id !in Known(s) && forall x :: x in Known(s) ==> TrailingSeq(x) <= s.counter
  {
    hide Apply, Enabled, FromStart, Seen, TokenHolds, SnapsMatch, TrailingSeq, Mint, Newest;
    RunSound(ws, steps, i);
    var s := ws[i].reg;
    SoundParts(s);
    MintIsCold(s, role);
    UnseenUnlisted(s, Mint(role, s.counter + 1));
    forall x | x in Known(s) ensures TrailingSeq(x) <= s.counter {
      KnownSeen(s, x);
      SeenCounted(s, x);
    }
  }

  lemma KnownSeen(s: Reg, id: string)
    requires Sound(s) && id in Known(s)
    ensures Seen(s, id)
  {
    SoundParts(s);
    hide Sound, Seen;
    if id in s.agents { NewestInside(s, s.agents[id]); SeenAt(s, s.agents[id]); }
    else if id in s.pending { NewestInside(s, s.pending[id]); SeenAt(s, s.pending[id]); }
  }

  lemma SeenAt(s: Reg, r: int)
    requires 0 <= r < |s.heap|
    ensures Seen(s, s.heap[r].id)
  {
  }
}
