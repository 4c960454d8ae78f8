/**
 The resizable counting semaphore (gate.go).

 A goroutine inside acquire is asleep on the condition variable, notified but not yet running
 again, or holding a slot. Each lock-held section of the source is one step: a first test in
 acquire, a re-test after a wakeup, release with its Signal, resize with its Broadcast. Steps of
 different goroutines interleave freely. A state holds those sets beside cap and held, so that
 "no wakeup is lost" can be said.
 */
module SlotGate {
  import opened Common

  const DEFAULT_MAX_CONCURRENT := 8

  function PositiveCap(n: int): int { if n <= 0 then DEFAULT_MAX_CONCURRENT else n }

  type Thread = nat

  datatype Gate = Gate(cap: int, held: int, sleeping: set<Thread>, woken: set<Thread>, holders: set<Thread>)

  datatype Step =
    | Arrive(t: Thread)                          // the first test of acquire
    | Retest(t: Thread)                          // Wait returned
    | Release(t: Thread, signalled: Option<Thread>)
    | Resize(n: int)

  function New(n: int): Gate { Gate(PositiveCap(n), 0, {}, {}, {}) }

  /** What a test of the loop in acquire does to goroutine t. */
  function Test(g: Gate, t: Thread): Gate {
    if g.held >= g.cap then g.(sleeping := g.sleeping + {t})
    else g.(held := g.held + 1, holders := g.holders + {t})
  }

  predicate Idle(g: Gate, t: Thread) { t !in g.sleeping && t !in g.woken && t !in g.holders }

  /** The goroutine is not inside acquire, so it can call anything. */
  predicate Awake(g: Gate, t: Thread) { t !in g.sleeping && t !in g.woken }

  /** Signal wakes some sleeper, unless there is none. A release need not come from a holder. */
  predicate Enabled(g: Gate, step: Step) {
    match step
    case Arrive(t) => Idle(g, t)
    case Retest(t) => t in g.woken
    case Release(t, None) => Awake(g, t) && g.sleeping == {}
    case Release(t, Some(w)) => Awake(g, t) && w in g.sleeping
    case Resize(_) => true
  }

  function Apply(g: Gate, step: Step): Gate {
    match step
    case Arrive(t) => Test(g, t)
    case Retest(t) => Test(g.(woken := g.woken - {t}), t)
    case Release(t, w) =>
      var freed := g.(held := if g.held > 0 then g.held - 1 else g.held, holders := g.holders - {t});
      if w.Some? then freed.(sleeping := freed.sleeping - {w.value}, woken := freed.woken + {w.value}) else freed
    case Resize(n) => g.(cap := PositiveCap(n), woken := g.woken + g.sleeping, sleeping := {})
  }

  /** Every release comes from a goroutine that holds a slot, as the deferred releaseSlot guarantees. */
  predicate Matched(g: Gate, step: Step) { step.Release? ==> step.t in g.holders }

  predicate NoLostWakeup(g: Gate) { g.sleeping != {} ==> g.held + |g.woken| >= g.cap }

  predicate Apart(g: Gate) {
    g.sleeping !! g.woken && g.sleeping !! g.holders && g.woken !! g.holders
  }

  predicate Sound(g: Gate) { g.cap >= 1 && g.held >= 0 && Apart(g) && NoLostWakeup(g) }

  lemma OneLess(s: set<Thread>, t: Thread)
    requires t in s
    ensures |s - {t}| == |s| - 1
  {
  }

  lemma OneMore(s: set<Thread>, t: Thread)
    requires t !in s
    ensures |s + {t}| == |s| + 1
  {
  }

  lemma StepKeepsSound(g: Gate, step: Step)
    requires Sound(g) && Enabled(g, step)
    ensures Sound(Apply(g, step))
  {
    var h := Apply(g, step);
    match step
    case Arrive(t) =>
    case Retest(t) =>
      OneLess(g.woken, t);
    case Release(t, w) =>
      if w.Some? { OneMore(g.woken, w.value); }
    case Resize(n) =>
  }

  lemma StepKeepsCount(g: Gate, step: Step)
    requires Sound(g) && Enabled(g, step) && Matched(g, step) && g.held == |g.holders|
    ensures Apply(g, step).held == |Apply(g, step).holders|
  {
    match step
    case Arrive(t) => OneMore(g.holders, t);
    case Retest(t) => OneMore(g.holders, t);
    case Release(t, w) => OneLess(g.holders, t);
    case Resize(n) =>
  }

  // ---------- whole runs ----------

  /** The gate after a run, with None once a step was not possible. */
  function After(n: int, run: seq<Step>): Option<Gate>
    decreases |run|
  {
    if run == [] then Some(New(n))
    else
      match After(n, run[..|run| - 1])
      case None => None
      case Some(g) =>
        var step := run[|run| - 1];
        if Enabled(g, step) then Some(Apply(g, step)) else None
  }

  /** acquires minus releases, step by step. */
  function Balance(n: int, run: seq<Step>): int
    requires After(n, run).Some?
    decreases |run|
  {
    if run == [] then 0
    else
      var g := After(n, run[..|run| - 1]).value;
      Balance(n, run[..|run| - 1]) +
      match run[|run| - 1]
      case Arrive(_) => (if g.held < g.cap then 1 else 0)
      case Retest(_) => (if g.held < g.cap then 1 else 0)
      case Release(_, _) => -1
      case Resize(_) => 0
  }

  predicate AllMatched(n: int, run: seq<Step>)
    decreases |run|
  {
    run == [] ||
    (AllMatched(n, run[..|run| - 1])
     && After(n, run[..|run| - 1]).Some?
     && Matched(After(n, run[..|run| - 1]).value, run[|run| - 1]))
  }

  /** Whatever interleaves, a sleeper always has its slot taken or a wakeup on the way to it. */
  lemma {:induction false} NeverLosesWakeup(n: int, run: seq<Step>)
    requires After(n, run).Some?
    ensures Sound(After(n, run).value)
    decreases |run|
  {
    if run != [] {
      NeverLosesWakeup(n, run[..|run| - 1]);
      StepKeepsSound(After(n, run[..|run| - 1]).value, run[|run| - 1]);
    }
  }

  /** A free slot and a waiting goroutine never meet without one of the waiters already notified. */
  lemma FreeSlotReachesWaiter(n: int, run: seq<Step>)
    requires After(n, run).Some?
    ensures var g := After(n, run).value;
            g.held < g.cap && g.sleeping + g.woken != {} ==> g.woken != {}
  {
    NeverLosesWakeup(n, run);
  }

  lemma {:induction false} HeldIsBalance(n: int, run: seq<Step>)
    requires After(n, run).Some? && AllMatched(n, run)
    ensures After(n, run).value.held == |After(n, run).value.holders| == Balance(n, run)
    decreases |run|
  {
    if run != [] {
      var front, step := run[..|run| - 1], run[|run| - 1];
      HeldIsBalance(n, front);
      NeverLosesWakeup(n, front);
      var g := After(n, front).value;
      StepKeepsCount(g, step);
      if step.Release? { assert g.holders != {}; }
    }
  }

  // ---------- what the gate holds, told from the run alone ----------

  /** Who asked for a slot and has not given it back, whatever the gate did. */
  function Asking(run: seq<Step>): set<Thread>
    decreases |run|
  {
    if run == [] then {}
    else
      var before := Asking(run[..|run| - 1]);
      match run[|run| - 1]
      case Arrive(t) => before + {t}
      case Release(t, _) => before - {t}
      case _ => before
  }

  /** The size asked for last; what is not positive stands for the default of eight. */
  function Size(n: int, run: seq<Step>): int
    decreases |run|
  {
    if run == [] then n
    else if run[|run| - 1].Resize? then run[|run| - 1].n
    else Size(n, run[..|run| - 1])
  }

  /** Nobody is forgotten: whoever asked holds a slot, or waits on the condition variable, or was notified, and nobody else does. */
  lemma {:induction false} NobodyIsForgotten(n: int, run: seq<Step>)
    requires After(n, run).Some?
    ensures var g := After(n, run).value; g.holders + g.sleeping + g.woken == Asking(run)
    decreases |run|
  {
    if run != [] {
      var front, step := run[..|run| - 1], run[|run| - 1];
      NobodyIsForgotten(n, front);
      NeverLosesWakeup(n, front);
      StepKeepsAsking(After(n, front).value, step);
    }
  }

  lemma StepKeepsAsking(g: Gate, step: Step)
    requires Sound(g) && Enabled(g, step)
    ensures var d := Apply(g, step);
            d.holders + d.sleeping + d.woken == match step
                                                case Arrive(t) => g.holders + g.sleeping + g.woken + {t}
                                                case Release(t, _) => g.holders + g.sleeping + g.woken - {t}
                                                case _ => g.holders + g.sleeping + g.woken
  {
    match step
    case Arrive(_) =>
    case Retest(t) => MoveOne(g.holders, g.sleeping, g.woken, t);
    case Release(t, w) => if w.Some? { Wakes(g.holders, g.sleeping, g.woken, t, w.value); } else { Frees(g.holders, g.sleeping, g.woken, t); }
    case Resize(_) =>
  }

  lemma Frees(holders: set<Thread>, sleeping: set<Thread>, woken: set<Thread>, t: Thread)
    requires t !in sleeping && t !in woken
    ensures (holders - {t}) + sleeping + woken == holders + sleeping + woken - {t}
  {
  }

  lemma Wakes(holders: set<Thread>, sleeping: set<Thread>, woken: set<Thread>, t: Thread, w: Thread)
    requires t !in sleeping && t !in woken && w in sleeping
    ensures (holders - {t}) + (sleeping - {w}) + (woken + {w}) == holders + sleeping + woken - {t}
  {
    Frees(holders, sleeping, woken, t);
    assert (sleeping - {w}) + (woken + {w}) == sleeping + woken;
    assert (holders - {t}) + (sleeping - {w}) + (woken + {w}) == (holders - {t}) + (sleeping + woken);
  }

  /** The cap is the size asked for last, and always positive. */
  lemma {:induction false} CapIsLastSize(n: int, run: seq<Step>)
    requires After(n, run).Some?
    ensures After(n, run).value.cap == if Size(n, run) <= 0 then 8 else Size(n, run)
    decreases |run|
  {
    if run != [] { CapIsLastSize(n, run[..|run| - 1]); }
  }

  /** Whoever arrives takes a slot exactly if one is free, and otherwise sleeps until it is notified. */
  lemma ArrivesOrSleeps(n: int, run: seq<Step>, t: Thread)
    requires After(n, run + [Arrive(t)]).Some?
    ensures After(n, run).Some?
    ensures var g, d := After(n, run).value, After(n, run + [Arrive(t)]).value;
            if g.held < g.cap then t in d.holders && d.held == g.held + 1 && d.sleeping == g.sleeping
            else t in d.sleeping && d.held == g.held && d.holders == g.holders
  {
    assert (run + [Arrive(t)])[..|run|] == run;
  }

  /** Letting the goroutines of order run their re-test one after the other. */
  function Drain(g: Gate, order: seq<Thread>): Gate
    decreases |order|
  {
    if order == [] then g else Drain(Apply(g, Retest(order[0])), order[1..])
  }

  /**
   Once every notified goroutine has run, in any order, nobody who asked has vanished, nobody entered
   past the cap, and whoever still sleeps does so only because every slot is taken.
   */
  lemma {:induction false} DrainFillsSlots(g: Gate, order: seq<Thread>)
    requires Sound(g) && (forall i, j :: 0 <= i < j < |order| ==> order[i] != order[j])
    requires g.woken == set t | t in order
    ensures var d := Drain(g, order);
            && d.woken == {} && d.cap == g.cap
            && d.holders + d.sleeping == g.holders + g.sleeping + g.woken
            && d.held == (if g.held >= g.cap then g.held else if g.held + |g.woken| <= g.cap then g.held + |g.woken| else g.cap)
            && (d.sleeping != {} ==> d.held >= d.cap)
    decreases |order|
  {
    hide Apply, Sound;
    if order != [] {
      assert order[0] in g.woken;
      RetestOne(g, order[0]);
      RestOf(order);
      DrainFillsSlots(Apply(g, Retest(order[0])), order[1..]);
    } else {
      NobodyWoken(g);
    }
  }

  lemma NobodyWoken(g: Gate)
    requires Sound(g) && g.woken == {}
    ensures g.sleeping != {} ==> g.held >= g.cap
  {
  }

  lemma RestOf(order: seq<Thread>)
    requires order != [] && (forall i, j :: 0 <= i < j < |order| ==> order[i] != order[j])
    ensures (set t | t in order[1..]) == (set t | t in order) - {order[0]}
  {
    assert order[0] !in order[1..];
    assert order == [order[0]] + order[1..];
  }

  lemma RetestOne(g: Gate, t: Thread)
    requires Sound(g) && t in g.woken
    ensures var d := Apply(g, Retest(t));
            && Sound(d)
            && d.woken == g.woken - {t} && |d.woken| == |g.woken| - 1 && d.cap == g.cap
            && d.holders + d.sleeping + d.woken == g.holders + g.sleeping + g.woken
            && d.held == if g.held >= g.cap then g.held else g.held + 1
  {
    hide Sound;
    StepKeepsSound(g, Retest(t));
    OneLess(g.woken, t);
    MoveOne(g.holders, g.sleeping, g.woken, t);
  }

  lemma MoveOne(holders: set<Thread>, sleeping: set<Thread>, woken: set<Thread>, t: Thread)
    requires t in woken
    ensures holders + (sleeping + {t}) + (woken - {t}) == holders + sleeping + woken
    ensures (holders + {t}) + sleeping + (woken - {t}) == holders + sleeping + woken
  {
  }

  // ---------- the class ----------

  class SlotGate {
    var cap: int
    var held: int
    var sleeping: set<Thread>  // goroutines inside cond.Wait
    var woken: set<Thread>     // notified, waiting for the mutex
    var holders: set<Thread>

    function State(): Gate reads this { Gate(cap, held, sleeping, woken, holders) }

    constructor (n: int)
      ensures State() == New(n)
    {
      cap := if n <= 0 then DEFAULT_MAX_CONCURRENT else n;
      held, sleeping, woken, holders := 0, {}, {}, {};
    }

    /** acquire up to its first Wait or to its return. */
    method Acquire(t: Thread) returns (got: bool)
      requires Sound(State()) && Enabled(State(), Arrive(t))
      modifies this
      ensures State() == Apply(old(State()), Arrive(t)) && Sound(State())
      ensures got <==> t in holders
      ensures got ==> held <= cap
    {
      StepKeepsSound(State(), Arrive(t));
      got := TestSlot(t);
    }

    /** acquire from a wakeup to the next Wait or to its return. */
    method Resume(t: Thread) returns (got: bool)
      requires Sound(State()) && Enabled(State(), Retest(t))
      modifies this
      ensures State() == Apply(old(State()), Retest(t)) && Sound(State())
      ensures got <==> t in holders
      ensures got ==> held <= cap
    {
      StepKeepsSound(State(), Retest(t));
      woken := woken - {t};
      got := TestSlot(t);
    }

    method TestSlot(t: Thread) returns (got: bool)
      requires t !in holders
      modifies this
      ensures State() == Test(old(State()), t)
      ensures (got <==> t in holders) && (got ==> held <= cap)
    {
      if held >= cap {
        sleeping := sleeping + {t};
        return false;
      }
      held, holders := held + 1, holders + {t};
      return true;
    }

    /** Signal picks one sleeper; which one is the runtime's choice. */
    method Release(t: Thread) returns (signalled: Option<Thread>)
      requires Sound(State()) && Awake(State(), t)
      modifies this
      ensures old(Enabled(State(), Step.Release(t, signalled)))
      ensures State() == Apply(old(State()), Step.Release(t, signalled)) && Sound(State())
    {
      ghost var before := State();
      if held > 0 { held := held - 1; }
      holders := holders - {t};
      signalled := None;
      if sleeping != {} {
        var w :| w in sleeping;
        sleeping, woken := sleeping - {w}, woken + {w};
        signalled := Some(w);
      }
      StepKeepsSound(before, Step.Release(t, signalled));
    }

    method Resize(n: int)
      requires Sound(State())
      modifies this
      ensures State() == Apply(old(State()), Step.Resize(n)) && Sound(State())
      ensures sleeping == {}
    {
      StepKeepsSound(State(), Step.Resize(n));
      cap := if n <= 0 then DEFAULT_MAX_CONCURRENT else n;
      sleeping, woken := {}, woken + sleeping;
    }
  }
}
