/** Whole runs of the gate that separates queries from `saveDatabase` and `loadDatabase`:
    any number of threads, any schedule. */
module GateRuns {
  import opened RwLocks

  /** The gate and the position of every thread in it. */
  datatype Sys = Sys(lk: Lock, ps: seq<Pos>)

  datatype Event = Event(thread: nat, act: Act)

  /** A run: the states and, between two states, which thread did what. */
  datatype Run = Run(states: seq<Sys>, events: seq<Event>)

  predicate StepBy(s: Sys, e: Event, s': Sys) {
    && e.thread < |s.ps|
    && Can(Gate, s.lk, s.ps[e.thread], e.act)
    && var (lk, p) := Do(Gate, s.lk, s.ps[e.thread], e.act);
       s' == Sys(lk, s.ps[e.thread := p])
  }

  predicate StepOf(r: Run, i: nat)
    requires i < |r.events| && |r.states| == |r.events| + 1
  {
    StepBy(r.states[i], r.events[i], r.states[i + 1])
  }

  predicate ValidRun(r: Run) {
    && |r.states| == |r.events| + 1
    && forall i :: 0 <= i < |r.events| ==> StepOf(r, i)
  }

  predicate Fresh(s: Sys) {
    s.lk == FREE && forall t :: 0 <= t < |s.ps| ==> s.ps[t] == Out
  }

  predicate Good(s: Sys) {
    Inv(Gate, s.lk, multiset(s.ps))
  }

  lemma GoodStep(s: Sys, e: Event, s': Sys)
    requires Good(s) && StepBy(s, e, s')
    ensures Good(s')
  {
    InvStep(Gate, s.lk, s.ps, e.thread, e.act);
  }

  lemma StepAt(r: Run, i: nat)
    requires ValidRun(r) && i < |r.events|
    ensures StepBy(r.states[i], r.events[i], r.states[i + 1]) && |r.states[i + 1].ps| == |r.states[i].ps|
  {
    assert StepOf(r, i);
  }

  lemma {:induction false} GoodRun(r: Run, i: nat)
    requires ValidRun(r) && Good(r.states[0]) && i < |r.states|
    ensures Good(r.states[i]) && |r.states[i].ps| == |r.states[0].ps|
  {
    if i > 0 {
      var s, e, s' := r.states[i - 1], r.events[i - 1], r.states[i];
      GoodRun(r, i - 1);
      StepAt(r, i - 1);
      GoodStep(s, e, s');
    }
  }

  // ----- exclusion and exact counts in every run

  /** How many queries returned early in the first `i` steps. */
  function EarlyReturns(events: seq<Event>): nat {
    if events == [] then 0
    else EarlyReturns(events[..|events| - 1]) + (if events[|events| - 1].act == Abandon then 1 else 0)
  }

  lemma LostStep(s: Sys, e: Event, s': Sys)
    requires StepBy(s, e, s')
    ensures s'.lk.lost == s.lk.lost + (if e.act == Abandon then 1 else 0)
  {
  }

  lemma {:induction false} LostCountsEarlyReturns(r: Run, i: nat)
    requires ValidRun(r) && Fresh(r.states[0]) && i < |r.states|
    ensures r.states[i].lk.lost == EarlyReturns(r.events[..i])
  {
    if i > 0 {
      LostCountsEarlyReturns(r, i - 1);
      StepAt(r, i - 1);
      LostStep(r.states[i - 1], r.events[i - 1], r.states[i]);
      assert r.events[..i][..i - 1] == r.events[..i - 1];
    }
  }

  /** In every state of every run from the start: no query body overlaps a save or load, two saves
      never overlap, `DB_access_sem` is taken exactly when a saver or the query group has it, and
      `query_cnt` is the number of counted queries in flight plus that of earlier early returns. */
  lemma GateSafety(r: Run, i: nat)
    requires ValidRun(r) && Fresh(r.states[0]) && i < |r.states|
    ensures var s := r.states[i]; var m := multiset(s.ps);
      && (forall t, u :: 0 <= t < |s.ps| && 0 <= u < |s.ps| && t != u && s.ps[t] == WIn ==>
            s.ps[u] != RIn && s.ps[u] != WIn)
      && (s.lk.rw == 0 <==> m[WIn] + m[WOut] > 0 || ReaderGroup(m) + s.lk.lost > 0)
      && s.lk.rcnt == Counted(m) + EarlyReturns(r.events[..i])
  {
    InvFresh(Gate, r.states[0].ps);
    GoodRun(r, i);
    LostCountsEarlyReturns(r, i);
    var s := r.states[i];
    SemaphoreOwnership(Gate, s.lk, multiset(s.ps));
    forall t, u | 0 <= t < |s.ps| && 0 <= u < |s.ps| && t != u && s.ps[t] == WIn
      ensures s.ps[u] != RIn && s.ps[u] != WIn
    {
      Exclusion(Gate, s.lk, s.ps, t);
    }
  }

  // ----- a saver is not overtaken

  /** Past the increment of `query_cnt` and not past the decrement. */
  predicate IsCounted(p: Pos) {
    p == RAcq || p == RRel || p == RDone || p == RIn || p == XReq
  }

  /** A query that has entered its body and is not yet gone. */
  predicate Draining(p: Pos) {
    p == RIn || p == XReq || p == XCond || p == XRel
  }

  /** Steps that a query still has to take before it is gone, counted from its body on. */
  function Weight(p: Pos): nat {
    match p
    case RIn => 4
    case XReq => 3
    case XCond => 2
    case XRel => 1
    case _ => 0
  }

  function Work(ps: seq<Pos>): nat {
    if ps == [] then 0 else Weight(ps[0]) + Work(ps[1..])
  }

  lemma {:induction false} WorkMove(ps: seq<Pos>, t: nat, q: Pos)
    requires t < |ps|
    ensures Work(ps[t := q]) + Weight(ps[t]) == Work(ps) + Weight(q)
  {
    if t == 0 {
      assert ps[t := q][1..] == ps[1..];
    } else {
      assert ps[t := q][1..] == ps[1..][t - 1 := q];
      WorkMove(ps[1..], t - 1, q);
    }
  }

  lemma {:induction false} WorkLeft(ps: seq<Pos>) returns (t: nat)
    ensures Work(ps) > 0 ==> t < |ps| && Draining(ps[t])
    ensures Work(ps) == 0 ==> forall u :: 0 <= u < |ps| ==> !Draining(ps[u])
  {
    t := 0;
    if ps != [] {
      var u := WorkLeft(ps[1..]);
      t := if Draining(ps[0]) then 0 else u + 1;
    }
  }

  predicate SaverWaits(s: Sys, saver: nat) {
    saver < |s.ps| && s.ps[saver] == WReq
  }

  predicate QueryLeaves(s: Sys, e: Event) {
    e.thread < |s.ps| && Draining(s.ps[e.thread])
  }

  /** While a saver holds `query_try` only draining queries are past the turnstile. */
  lemma TurnstileShut(s: Sys, saver: nat, t: nat)
    requires Good(s) && SaverWaits(s, saver) && t < |s.ps|
    ensures s.ps[t] != RReq && s.ps[t] != RAcq && s.ps[t] != RRel && s.ps[t] != RDone
    ensures s.lk.turn == 0
  {
    assert s.ps[saver] in multiset(s.ps);
    assert s.ps[t] in multiset(s.ps);
  }

  /** While that saver waits for `DB_access_sem` nobody becomes counted ... */
  lemma WaitingStepCounted(s: Sys, e: Event, s': Sys, saver: nat)
    requires Good(s) && StepBy(s, e, s') && SaverWaits(s, saver)
    ensures forall t :: 0 <= t < |s.ps| && IsCounted(s'.ps[t]) ==> IsCounted(s.ps[t])
    ensures !SaverWaits(s', saver) ==> s.lk.rw > 0
  {
    TurnstileShut(s, saver, e.thread);
  }

  /** ... and a step of a draining query lowers the work left; every other step leaves it alone. */
  lemma WaitingStepWork(s: Sys, e: Event, s': Sys, saver: nat)
    requires Good(s) && StepBy(s, e, s') && SaverWaits(s, saver) && SaverWaits(s', saver)
    ensures var w, w' := Work(s.ps), Work(s'.ps);
      if QueryLeaves(s, e) then w' < w else w' == w
  {
    var p, q := s.ps[e.thread], s'.ps[e.thread];
    TurnstileShut(s, saver, e.thread);
    WorkMove(s.ps, e.thread, q);
  }

  /** The same for one step of a run. */
  lemma WaitingCounted(r: Run, i: nat, saver: nat)
    requires ValidRun(r) && Good(r.states[0]) && i < |r.events| && SaverWaits(r.states[i], saver)
    ensures |r.states[i + 1].ps| == |r.states[i].ps|
    ensures forall t :: 0 <= t < |r.states[i].ps| && IsCounted(r.states[i + 1].ps[t]) ==> IsCounted(r.states[i].ps[t])
    ensures !SaverWaits(r.states[i + 1], saver) ==> r.states[i].lk.rw > 0
  {
    GoodRun(r, i);
    StepAt(r, i);
    WaitingStepCounted(r.states[i], r.events[i], r.states[i + 1], saver);
  }

  lemma WaitingWork(r: Run, i: nat, saver: nat)
    requires ValidRun(r) && Good(r.states[0]) && i < |r.events|
    requires SaverWaits(r.states[i], saver) && SaverWaits(r.states[i + 1], saver)
    ensures Work(r.states[i + 1].ps) + (if QueryLeaves(r.states[i], r.events[i]) then 1 else 0) <= Work(r.states[i].ps)
  {
    GoodRun(r, i);
    StepAt(r, i);
    WaitingStepWork(r.states[i], r.events[i], r.states[i + 1], saver);
  }

  /** How many of the run's steps were taken by draining queries. */
  function DrainSteps(r: Run, n: nat): nat
    requires ValidRun(r) && n <= |r.events|
  {
    if n == 0 then 0
    else DrainSteps(r, n - 1) + (if QueryLeaves(r.states[n - 1], r.events[n - 1]) then 1 else 0)
  }

  /** From the moment a saver holds `query_try` and for as long as it waits, the set of counted
      queries never gains a member ... */
  lemma {:induction false} SaverNotOvertaken(r: Run, n: nat, saver: nat)
    requires ValidRun(r) && Good(r.states[0]) && n < |r.states|
    requires forall i :: 0 <= i <= n ==> SaverWaits(r.states[i], saver)
    ensures |r.states[n].ps| == |r.states[0].ps|
    ensures forall t :: 0 <= t < |r.states[n].ps| && IsCounted(r.states[n].ps[t]) ==> IsCounted(r.states[0].ps[t])
  {
    if n > 0 {
      SaverNotOvertaken(r, n - 1, saver);
      WaitingCounted(r, n - 1, saver);
    }
  }

  lemma {:induction false} DrainNext(r: Run, n: nat, saver: nat)
    requires ValidRun(r) && Good(r.states[0]) && 0 < n < |r.states|
    requires SaverWaits(r.states[n - 1], saver) && SaverWaits(r.states[n], saver)
    ensures DrainSteps(r, n) + Work(r.states[n].ps) <= DrainSteps(r, n - 1) + Work(r.states[n - 1].ps)
  {
    WaitingWork(r, n - 1, saver);
  }

  /** ... and queries take at most `Work` steps in all. */
  lemma {:induction false} SaverWaitsFinitely(r: Run, n: nat, saver: nat)
    requires ValidRun(r) && Good(r.states[0]) && n < |r.states|
    requires forall i :: 0 <= i <= n ==> SaverWaits(r.states[i], saver)
    ensures DrainSteps(r, n) + Work(r.states[n].ps) <= Work(r.states[0].ps)
  {
    if n > 0 {
      SaverWaitsFinitely(r, n - 1, saver);
      DrainNext(r, n, saver);
    }
  }

  /** With no early return so far, the waiting saver is admitted as soon as the work left is zero;
      until then some query is in its body or can take a step of its exit. */
  lemma DrainedAdmitsSaver(s: Sys, saver: nat) returns (t: nat)
    requires Good(s) && SaverWaits(s, saver) && s.lk.lost == 0
    ensures Work(s.ps) == 0 ==> Enabled(s.lk, s.ps[saver])
    ensures Work(s.ps) > 0 ==> t < |s.ps| && Draining(s.ps[t]) && (s.ps[t] == RIn || Enabled(s.lk, s.ps[t]))
  {
    t := WorkLeft(s.ps);
    var m := multiset(s.ps);
    assert s.ps[saver] in m;
    if Work(s.ps) == 0 {
      assert RIn !in s.ps && XReq !in s.ps && XCond !in s.ps;
      assert m[RIn] == 0 && m[XReq] == 0 && m[XCond] == 0;
    } else if !Enabled(s.lk, s.ps[t]) && s.ps[t] != RIn {
      assert s.ps[t] in m;
      var p := if m[XCond] > 0 then XCond else XRel;
      assert p in m;
      assert p in s.ps;
      t :| 0 <= t < |s.ps| && s.ps[t] == p;
    }
  }

  // ----- the exact effect of an early return

  lemma {:induction false} LostStays(r: Run, n: nat)
    requires ValidRun(r) && n < |r.states|
    ensures r.states[n].lk.lost >= r.states[0].lk.lost
  {
    if n > 0 {
      LostStays(r, n - 1);
      StepAt(r, n - 1);
      LostStep(r.states[n - 1], r.events[n - 1], r.states[n]);
    }
  }

  /** Once a query has returned early: `query_cnt` stays at least 1, `DB_access_sem` stays taken and
      no saver gets in, in every continuation. */
  lemma EarlyReturnShutsSavers(r: Run, n: nat)
    requires ValidRun(r) && Good(r.states[0]) && r.states[0].lk.lost > 0 && n < |r.states|
    ensures var s := r.states[n];
      && s.lk.rcnt >= 1 && s.lk.rw == 0
      && (forall t :: 0 <= t < |s.ps| ==> s.ps[t] != WIn)
  {
    LostStays(r, n);
    GoodRun(r, n);
    var s := r.states[n];
    forall t | 0 <= t < |s.ps|
      ensures s.ps[t] != WIn
    {
      assert s.ps[t] in multiset(s.ps);
    }
  }

  /** After an early return, a saver that takes `query_try` keeps it for ever: from then on no
      query becomes counted, so no new query enters its body. */
  lemma {:induction false} EarlyReturnThenSaveShutsQueries(r: Run, n: nat, saver: nat)
    requires ValidRun(r) && Good(r.states[0]) && r.states[0].lk.lost > 0 && n < |r.states|
    requires SaverWaits(r.states[0], saver)
    ensures SaverWaits(r.states[n], saver) && |r.states[n].ps| == |r.states[0].ps|
    ensures forall t :: 0 <= t < |r.states[n].ps| && IsCounted(r.states[n].ps[t]) ==> IsCounted(r.states[0].ps[t])
  {
    if n > 0 {
      EarlyReturnThenSaveShutsQueries(r, n - 1, saver);
      EarlyReturnShutsSavers(r, n - 1);
      WaitingCounted(r, n - 1, saver);
    }
  }
}
