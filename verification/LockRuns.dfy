/** Whole runs of the server's locks: what every reachable state keeps, when exactly the server stops,
    which operations leave the gate behind, and that operations complete. */
module LockRuns {
  import opened Mailbox
  import opened RwLocks
  import opened Scripts
  import opened LockOrder

  /** One move of a run. */
  lemma RunStep(states: seq<Sys>, steps: seq<Step>, i: nat)
    requires ValidRun(states, steps) && i < |steps|
    ensures Good(states[i]) && Goes(states[i], steps[i].thread, steps[i].move, states[i + 1])
  {
    GoodRun(states, steps, i);
    assert StepOf(states, steps, i);
  }

  // ----- every reachable state

  /** The accounting of each lock by the positions of all threads. */
  lemma ReachableLock(states: seq<Sys>, steps: seq<Step>, i: nat, id: LockId)
    requires ValidRun(states, steps) && i < |states|
    ensures AllLocks(states[i])
    ensures Inv(KindOf(id), states[i].locks[id], multiset(Positions(states[i].threads, id)))
  {
    GoodRun(states, steps, i);
    assert GoodLocks(states[i]);
  }

  /** For every lock: the semaphore is taken exactly when a writer or the reader group has it, never by
      both, and a positive reader count with no reader acquiring means that the group has it. */
  lemma GroupOwnsSemaphore(states: seq<Sys>, steps: seq<Step>, i: nat, id: LockId)
    requires ValidRun(states, steps) && i < |states|
    ensures AllLocks(states[i])
    ensures var lk, m := states[i].locks[id], multiset(Positions(states[i].threads, id));
      && (lk.rw == 0 <==> m[WIn] + m[WOut] > 0 || ReaderGroup(m) + lk.lost > 0)
      && !(m[WIn] + m[WOut] > 0 && ReaderGroup(m) + lk.lost > 0)
      && (lk.rcnt > 0 && RAcq !in m ==> lk.rw == 0 && WIn !in m && ReaderGroup(m) + lk.lost > 0)
  {
    ReachableLock(states, steps, i, id);
    SemaphoreOwnership(KindOf(id), states[i].locks[id], multiset(Positions(states[i].threads, id)));
  }

  /** A reader of LOPT that is about to take `LOPT_rw_sem` can always do so. */
  lemma LoptReaderIsNotBlocked(states: seq<Sys>, steps: seq<Step>, i: nat, t: nat)
    requires ValidRun(states, steps) && i < |states| && t < |states[i].threads|
    requires states[i].threads[t].stage == Crossing(Lopt, RAcq)
    ensures AllLocks(states[i]) && CanMove(states[i], t, Cross)
  {
    ReachableLock(states, steps, i, Lopt);
    var ps := Positions(states[i].threads, Lopt);
    assert ps[t] == RAcq && ps[t] in multiset(ps);
    ReaderNeverBlocksOnRw(states[i].locks[Lopt], multiset(ps));
  }

  /** Only the gate and LOPT have turnstiles; at all other locks readers may overtake a waiting writer. */
  lemma OtherLocksHaveNoTurnstile(states: seq<Sys>, steps: seq<Step>, i: nat, id: LockId, t: nat)
    requires ValidRun(states, steps) && i < |states| && t < |states[i].threads| && id != DbGate && id != Lopt
    ensures PosOf(states[i].threads[t], id) !in {RTurn, RDone, WTurn, WMut, WTry, WUnl, YReq, YCond, YUnl, YTurn}
  {
    ReachableLock(states, steps, i, id);
    var ps := Positions(states[i].threads, id);
    assert ps[t] in multiset(ps);
  }

  predicate WritersHoldTurnstile(s: Sys) {
    WriterGroup(multiset(Positions(s.threads, Lopt))) > 0
  }

  /** Only the thread that moves changes its position, and it enters a reader's section of LOPT only
      from the way in. */
  lemma EntersFromTheWay(s: Sys, t: nat, mv: Move, u: nat)
    requires Good(s) && CanMove(s, t, mv) && u < |s.threads|
    ensures PosOf(Apply(s, t, mv).threads[u], Lopt) == RIn ==>
      PosOf(s.threads[u], Lopt) == RIn || OnTheWayIn(PosOf(s.threads[u], Lopt))
  {
    var th := s.threads[t];
    if u == t {
      match mv
      case Call(_) =>
      case BeginEnter => PosInBelow(th.held, th.todo[0].id);
      case BeginLeave => BeginLeaveThread(th);
      case Cross =>
        var id := th.stage.id;
        CrossedPosition(th, id, Advance(KindOf(id), s.locks[id], th.stage.pos).1);
      case GoAway => GoneThread(th);
    }
  }

  /** While the writer group owns `LOPT_readTry`, no reader is on its way in and nobody becomes a reader
      inside. */
  lemma WritersKeepReadersOut(states: seq<Sys>, steps: seq<Step>, i: nat, u: nat)
    requires ValidRun(states, steps) && i < |steps| && WritersHoldTurnstile(states[i])
    requires u < |states[i].threads| && |states[i + 1].threads| == |states[i].threads|
    ensures !OnTheWayIn(PosOf(states[i].threads[u], Lopt))
    ensures PosOf(states[i + 1].threads[u], Lopt) == RIn ==> PosOf(states[i].threads[u], Lopt) == RIn
  {
    RunStep(states, steps, i);
    ReachableLock(states, steps, i, Lopt);
    var ps := Positions(states[i].threads, Lopt);
    TurnstileClosed(states[i].locks[Lopt], multiset(ps));
    assert ps[u] in multiset(ps);
    EntersFromTheWay(states[i], steps[i].thread, steps[i].move, u);
  }

  // ----- writers in their places

  /** Each section has been entered where it should be. */
  predicate AllNested(held: seq<Hold>) {
    forall i :: 0 <= i < |held| ==> Nested(held[..i], held[i].id, held[i].role)
  }

  lemma NestedPush(held: seq<Hold>, id: LockId, role: Role)
    requires AllNested(held) && Nested(held, id, role)
    ensures AllNested(held + [Hold(id, role)])
  {
    var longer := held + [Hold(id, role)];
    forall i | 0 <= i < |longer|
      ensures Nested(longer[..i], longer[i].id, longer[i].role)
    {
      assert longer[..i] == held[..i];
    }
  }

  lemma NestedPop(held: seq<Hold>)
    requires AllNested(held) && held != []
    ensures AllNested(held[..|held| - 1])
  {
    var shorter := held[..|held| - 1];
    assert forall i :: 0 <= i < |shorter| ==> shorter[..i] == held[..i];
  }

  lemma NestedEnter(th: Thread, id: LockId, role: Role)
    requires GoodThread(th) && th.stage == Working && th.todo != [] && th.todo[0] == Enter(id, role)
    requires AllNested(HeldAfter(th))
    ensures AllNested(HeldAfter(Thread(th.held, Crossing(id, Start(KindOf(id), role)), th.todo[1..])))
  {
    assert Nested(th.held, id, role);
    NestedPush(th.held, id, role);
  }

  lemma NestedLeave(th: Thread)
    requires th.stage == Working && th.held != [] && th.todo != [] && AllNested(HeldAfter(th))
    ensures AllNested(HeldAfter(Leaving(th))) && AllNested(HeldAfter(Gone(th)))
  {
    NestedPop(th.held);
  }

  lemma HeldAfterAdvance(th: Thread, lk: Lock)
    requires th.stage.Crossing? && Busy(th.stage.pos) && Enabled(lk, th.stage.pos)
    ensures HeldAfter(Crossed(th, th.stage.id, Advance(KindOf(th.stage.id), lk, th.stage.pos).1)) == HeldAfter(th)
  {
    AdvanceOnTheWay(KindOf(th.stage.id), lk, th.stage.pos);
  }

  lemma NestedStep(s: Sys, t: nat, mv: Move)
    requires Good(s) && CanMove(s, t, mv) && AllNested(HeldAfter(s.threads[t]))
    ensures AllNested(HeldAfter(Apply(s, t, mv).threads[t]))
  {
    var th := s.threads[t];
    match mv
    case Call(_) =>
    case BeginEnter => NestedEnter(th, th.todo[0].id, th.todo[0].role);
    case BeginLeave => NestedLeave(th);
    case Cross => HeldAfterAdvance(th, s.locks[th.stage.id]);
    case GoAway => NestedLeave(th);
  }

  lemma HeldIsNested(th: Thread)
    requires AllNested(HeldAfter(th))
    ensures AllNested(th.held)
  {
    if HeldAfter(th) != th.held {
      NestedPop(HeldAfter(th));
      assert HeldAfter(th)[..|HeldAfter(th)| - 1] == th.held;
    }
  }

  predicate NestedAt(s: Sys, t: nat) {
    t < |s.threads| && AllNested(HeldAfter(s.threads[t]))
  }

  lemma NestedNext(states: seq<Sys>, steps: seq<Step>, i: nat, t: nat)
    requires ValidRun(states, steps) && i < |steps| && NestedAt(states[i], t)
    ensures NestedAt(states[i + 1], t)
  {
    RunStep(states, steps, i);
    if steps[i].thread == t {
      NestedStep(states[i], t, steps[i].move);
    }
  }

  lemma SameThreads(states: seq<Sys>, steps: seq<Step>, i: nat)
    requires ValidRun(states, steps) && i < |steps|
    ensures |states[i].threads| == |states[i + 1].threads|
  {
    RunStep(states, steps, i);
  }

  lemma {:induction false} NestedRun(states: seq<Sys>, steps: seq<Step>, i: nat, t: nat)
    requires ValidRun(states, steps) && i < |states| && t < |states[i].threads|
    ensures NestedAt(states[i], t)
  {
    if i > 0 {
      SameThreads(states, steps, i - 1);
      NestedRun(states, steps, i - 1, t);
      NestedNext(states, steps, i - 1, t);
    }
  }

  /** In every reachable state, whoever writes a list of the database is inside the gate, and whoever writes
      the pending lists also has `listenerProceedMUT`. */
  lemma WritersAreInTheGate(states: seq<Sys>, steps: seq<Step>, i: nat, t: nat, id: LockId)
    requires ValidRun(states, steps) && i < |states| && t < |states[i].threads|
    requires Hold(id, Writer) in states[i].threads[t].held
    ensures var held := states[i].threads[t].held;
      && (id == TweetNum || id == Lof || id == Lort || id == Lopt ==> Hold(DbGate, Reader) in held)
      && (id == Lopt ==> Hold(ListenerMutex, Writer) in held)
  {
    var held := states[i].threads[t].held;
    NestedRun(states, steps, i, t);
    HeldIsNested(states[i].threads[t]);
    var k :| 0 <= k < |held| && held[k] == Hold(id, Writer);
    assert Nested(held[..k], held[k].id, held[k].role);
  }

  /** So while a save or load is inside the gate, nobody writes one of those lists; ... */
  lemma SavesSeeNoWriter(states: seq<Sys>, steps: seq<Step>, i: nat, saver: nat, t: nat, id: LockId)
    requires ValidRun(states, steps) && i < |states| && saver < |states[i].threads| && t < |states[i].threads|
    requires Hold(DbGate, Writer) in states[i].threads[saver].held
    requires id == TweetNum || id == Lof || id == Lort || id == Lopt
    ensures Hold(id, Writer) !in states[i].threads[t].held
  {
    if Hold(id, Writer) in states[i].threads[t].held {
      WritersAreInTheGate(states, steps, i, t, id);
      GoodRun(states, steps, i);
      if saver == t {
        HolderPosition(states[i].threads[t], DbGate, Writer);
        HolderPosition(states[i].threads[t], DbGate, Reader);
      } else {
        SectionsExclude(states, steps, i, saver, t, DbGate, Reader);
      }
      assert false;
    }
  }

  /** ... and while a post is being forwarded, no other thread is inside LOPT or has `listenerProceedMUT`. */
  lemma ForwardingIsAlone(states: seq<Sys>, steps: seq<Step>, i: nat, t: nat, u: nat, role: Role)
    requires ValidRun(states, steps) && i < |states| && t < |states[i].threads| && u < |states[i].threads| && u != t
    requires Hold(Lopt, Writer) in states[i].threads[t].held
    ensures Hold(Lopt, role) !in states[i].threads[u].held && Hold(ListenerMutex, role) !in states[i].threads[u].held
  {
    WritersAreInTheGate(states, steps, i, t, Lopt);
    SectionsExclude(states, steps, i, t, u, Lopt, role);
    SectionsExclude(states, steps, i, t, u, ListenerMutex, role);
  }

  // ----- every section of a script is entered

  /** The thread still has to enter the section, or is on its way in. */
  predicate ToEnter(th: Thread, id: LockId, role: Role) {
    || Times(th.todo, id, role) > 0
    || (th.stage.Crossing? && th.stage.id == id && WayIn(th.stage.pos) && RoleAt(th.stage.pos) == role)
  }

  predicate IsInside(th: Thread, id: LockId, role: Role) {
    th.held != [] && th.held[|th.held| - 1] == Hold(id, role)
  }

  lemma ToEnterCross(th: Thread, lk: Lock, id: LockId, role: Role)
    requires th.stage.Crossing? && Busy(th.stage.pos) && Enabled(lk, th.stage.pos) && ToEnter(th, id, role)
    ensures var th' := Crossed(th, th.stage.id, Advance(KindOf(th.stage.id), lk, th.stage.pos).1);
      ToEnter(th', id, role) || IsInside(th', id, role)
  {
    AdvanceOnTheWay(KindOf(th.stage.id), lk, th.stage.pos);
  }

  lemma ToEnterStep(s: Sys, t: nat, mv: Move, id: LockId, role: Role)
    requires Good(s) && CanMove(s, t, mv) && ToEnter(s.threads[t], id, role)
    ensures ToEnter(Apply(s, t, mv).threads[t], id, role) || IsInside(Apply(s, t, mv).threads[t], id, role)
  {
    if mv == Cross {
      ToEnterCross(s.threads[t], s.locks[s.threads[t].stage.id], id, role);
    }
  }

  lemma ToEnterNext(states: seq<Sys>, steps: seq<Step>, i: nat, t: nat, id: LockId, role: Role)
    requires ValidRun(states, steps) && i < |steps| && t < |states[i].threads|
    requires ToEnter(states[i].threads[t], id, role)
    ensures t < |states[i + 1].threads|
    ensures ToEnter(states[i + 1].threads[t], id, role) || IsInside(states[i + 1].threads[t], id, role)
  {
    RunStep(states, steps, i);
    if steps[i].thread == t {
      ToEnterStep(states[i], t, steps[i].move, id, role);
    }
  }

  /** A thread whose script enters a section, and that is idle again, was inside in between. */
  lemma {:induction false} SectionIsEntered(states: seq<Sys>, steps: seq<Step>, i: nat, j: nat, t: nat, id: LockId,
      role: Role) returns (k: nat)
    requires ValidRun(states, steps) && i <= j < |states| && t < |states[i].threads| && t < |states[j].threads|
    requires ToEnter(states[i].threads[t], id, role) && states[j].threads[t] == IDLE
    ensures i < k <= j && t < |states[k].threads| && IsInside(states[k].threads[t], id, role)
    decreases j - i
  {
    ToEnterNext(states, steps, i, t, id, role);
    if IsInside(states[i + 1].threads[t], id, role) {
      k := i + 1;
    } else {
      k := SectionIsEntered(states, steps, i + 1, j, t, id, role);
    }
  }

  lemma {:induction false} EnteredAfter(states: seq<Sys>, steps: seq<Step>, i: nat, j: nat, t: nat, id: LockId,
      role: Role) returns (k: nat)
    requires ValidRun(states, steps) && i < j < |states| && t < |states[i + 1].threads| && t < |states[j].threads|
    requires ToEnter(states[i + 1].threads[t], id, role) && states[j].threads[t] == IDLE
    ensures i < k <= j && t < |states[k].threads| && IsInside(states[k].threads[t], id, role)
  {
    k := SectionIsEntered(states, steps, i + 1, j, t, id, role);
  }

  lemma {:induction false} CalledToEnter(states: seq<Sys>, steps: seq<Step>, i: nat, t: nat, op: Operation, id: LockId,
      role: Role)
    requires ValidRun(states, steps) && i < |steps| && steps[i] == Step(t, Call(op))
    requires Times(ScriptOf(op), id, role) > 0
    ensures t < |states[i + 1].threads| && ToEnter(states[i + 1].threads[t], id, role)
  {
    RunStep(states, steps, i);
  }

  /** The same from the call of an operation on. */
  lemma {:induction false} CalledSectionIsEntered(states: seq<Sys>, steps: seq<Step>, i: nat, j: nat, t: nat,
      op: Operation, id: LockId, role: Role) returns (k: nat)
    requires ValidRun(states, steps) && i < j < |states| && t < |states[j].threads|
    requires steps[i] == Step(t, Call(op)) && Times(ScriptOf(op), id, role) > 0 && states[j].threads[t] == IDLE
    ensures i < k <= j && t < |states[k].threads| && IsInside(states[k].threads[t], id, role)
  {
    CalledToEnter(states, steps, i, t, op, id, role);
    k := EnteredAfter(states, steps, i, j, t, id, role);
  }

  lemma PostsForward(session: nat, qs: seq<Request>)
    requires Update(true) in qs
    ensures Times(ScriptOf(Speak(session, qs)), Lopt, Writer) > 0
  {
    SpeakerEnters(session, qs, Lopt, Writer);
    assert Update(true) in multiset(qs);
  }

  /** So whoever was called to empty a queue with a post in it, to somebody with followers, and is idle again
      has in between written the pending lists, inside the gate and with `listenerProceedMUT`. (Then it was
      alone there: see `ForwardingIsAlone`.) */
  lemma {:induction false} PostsAreForwarded(states: seq<Sys>, steps: seq<Step>, i: nat, j: nat, t: nat,
      session: nat, qs: seq<Request>) returns (k: nat)
    requires ValidRun(states, steps) && i < j < |states| && t < |states[j].threads|
    requires steps[i] == Step(t, Call(Speak(session, qs))) && Update(true) in qs && states[j].threads[t] == IDLE
    ensures i < k <= j && t < |states[k].threads|
    ensures var held := states[k].threads[t].held;
      Hold(Lopt, Writer) in held && Hold(ListenerMutex, Writer) in held && Hold(DbGate, Reader) in held
  {
    PostsForward(session, qs);
    k := CalledSectionIsEntered(states, steps, i, j, t, Speak(session, qs), Lopt, Writer);
    WritersAreInTheGate(states, steps, k, t, Lopt);
  }

  // ----- when exactly the server stops

  predicate AllIdle(s: Sys) {
    forall t :: 0 <= t < |s.threads| ==> s.threads[t] == IDLE
  }

  /** Idle, or waiting for `query_try`, or waiting for a queue that a session's speaker holds. */
  ghost predicate Behind(s: Sys, th: Thread)
    requires AllLocks(s)
  {
    || th == IDLE
    || th.stage == Crossing(DbGate, RTurn)
    || th.stage == Crossing(DbGate, WTurn)
    || (th.stage.Crossing? && th.stage.id.Incoming? && !Enabled(s.locks[th.stage.id], th.stage.pos))
  }

  ghost predicate JammedBy(s: Sys, saver: nat)
    requires AllLocks(s)
  {
    && s.locks[DbGate].lost > 0
    && saver < |s.threads| && s.threads[saver].stage == Crossing(DbGate, WReq)
    && forall u :: 0 <= u < |s.threads| && u != saver ==> Behind(s, s.threads[u])
  }

  /** A query has left the gate behind, a saver waits for `DB_access_sem`, and every other thread is
      idle or waits behind the saver. */
  ghost predicate Jammed(s: Sys)
    requires AllLocks(s)
  {
    exists saver :: JammedBy(s, saver)
  }

  ghost predicate Stopped(s: Sys)
    requires AllLocks(s)
  {
    forall u :: !CanContinue(s, u)
  }

  lemma JamBlocks(lk: Lock, m: Tally)
    requires Inv(Gate, lk, m) && lk.lost > 0 && WReq in m
    ensures !Enabled(lk, RTurn) && !Enabled(lk, WTurn) && !Enabled(lk, WReq)
  {
  }

  lemma JamClosesGate(s: Sys, saver: nat)
    requires AllLocks(s) && GoodLocks(s) && JammedBy(s, saver)
    ensures var lk := s.locks[DbGate]; !Enabled(lk, RTurn) && !Enabled(lk, WTurn) && !Enabled(lk, WReq)
  {
    var ps := Positions(s.threads, DbGate);
    assert Inv(Gate, s.locks[DbGate], multiset(ps));
    assert ps[saver] == WReq && ps[saver] in multiset(ps);
    JamBlocks(s.locks[DbGate], multiset(ps));
  }

  lemma JammedStops(s: Sys, saver: nat, u: nat)
    requires AllLocks(s) && GoodLocks(s) && JammedBy(s, saver)
    ensures !CanContinue(s, u)
  {
    JamClosesGate(s, saver);
    if u < |s.threads| && s.threads[u] != IDLE && u != saver {
      assert Behind(s, s.threads[u]);
    }
  }

  /** At the gate, nobody inside and everybody blocked: somebody has left it behind, one saver waits for
      the semaphore, and all others for the turnstile. */
  lemma BlockedGate(lk: Lock, m: Tally, q: Pos)
    requires Inv(Gate, lk, m) && q in m && q != Out
    requires forall p :: p in m ==> p == Out || (Busy(p) && !Enabled(lk, p))
    ensures lk.lost > 0 && m[WReq] == 1
    ensures forall p :: p in m ==> p in {Out, RTurn, WTurn, WReq}
  {
    assert m[RIn] == m[WIn] == m[RRel] == m[RDone] == m[XCond] == m[XRel] == m[WOut] == m[YTurn] == 0 by {
      assert RIn !in m && WIn !in m && RRel !in m && RDone !in m;
      assert XCond !in m && XRel !in m && WOut !in m && YTurn !in m;
    }
    assert m[WMut] == m[WTry] == m[WUnl] == m[YReq] == m[YCond] == m[YUnl] == 0;
    assert RAcq !in m;
    assert RReq !in m && XReq !in m;
    assert lk.rcnt == lk.lost;
    assert q in {RTurn, WTurn, WReq} && !Enabled(lk, q);
  }

  /** A thread of a stopped server is idle, or blocked at the gate, or at an incoming queue. */
  lemma StoppedThread(s: Sys, t: nat)
    requires Good(s) && Stopped(s) && t < |s.threads| && s.threads[t] != IDLE
    ensures s.threads[t].stage.Crossing? && !Enabled(s.locks[s.threads[t].stage.id], s.threads[t].stage.pos)
    ensures s.threads[t].stage.id == DbGate || s.threads[t].stage.id.Incoming?
    ensures Busy(s.threads[t].stage.pos)
  {
    var th := s.threads[t];
    assert !CanContinue(s, t);
    if th.stage == Working {
      WorkingContinues(s, t);
    } else if Level(th.stage.id) > Level(DbGate) {
      var u := SomebodyContinues(s, t);
    }
  }

  /** Whoever waits for an incoming queue waits for a speaker at the gate. */
  lemma SomebodyAtTheGate(s: Sys, t: nat) returns (u: nat)
    requires Good(s) && Stopped(s) && t < |s.threads| && s.threads[t] != IDLE
    ensures u < |s.threads| && s.threads[u].stage.Crossing? && s.threads[u].stage.id == DbGate
  {
    StoppedThread(s, t);
    u := t;
    if s.threads[t].stage.id != DbGate {
      OnlyTheGateLoses(s, s.threads[t].stage.id);
      u := LockMovesOrIsHeld(s, t);
      HolderContinuesOrIsHigher(s, u, s.threads[t].stage.id);
      StoppedThread(s, u);
    }
  }

  lemma NothingBelowQueues(held: seq<Hold>, id: LockId)
    requires Below(held, id) && id.Incoming?
    ensures held == []
  {
    assert held != [] ==> Level(held[0].id) < Level(id);
  }

  /** In a stopped server everybody at the gate is blocked there. */
  lemma StoppedGate(s: Sys, u: nat)
    requires Good(s) && Stopped(s) && u < |s.threads|
    ensures var p := PosOf(s.threads[u], DbGate); p == Out || (Busy(p) && !Enabled(s.locks[DbGate], p))
  {
    if s.threads[u] != IDLE {
      StoppedThread(s, u);
      if s.threads[u].stage.id != DbGate {
        NothingBelowQueues(s.threads[u].held, s.threads[u].stage.id);
      }
    }
  }

  /** The positions at the gate of a stopped server. */
  lemma StoppedTally(s: Sys, t: nat)
    requires Good(s) && Stopped(s) && t < |s.threads| && s.threads[t] != IDLE
    ensures s.locks[DbGate].lost > 0
    ensures var m := multiset(Positions(s.threads, DbGate));
      m[WReq] == 1 && forall p :: p in m ==> p in {Out, RTurn, WTurn, WReq}
  {
    var ps := Positions(s.threads, DbGate);
    var m := multiset(ps);
    assert Inv(Gate, s.locks[DbGate], m);
    forall p | p in m
      ensures p == Out || (Busy(p) && !Enabled(s.locks[DbGate], p))
    {
      assert p in ps;
      var u :| 0 <= u < |ps| && ps[u] == p;
      StoppedGate(s, u);
    }
    var q := SomebodyAtTheGate(s, t);
    StoppedThread(s, q);
    assert ps[q] in m;
    BlockedGate(s.locks[DbGate], m, ps[q]);
  }

  /** With these positions, the one saver. */
  lemma OneSaver(ps: seq<Pos>) returns (saver: nat)
    requires multiset(ps)[WReq] == 1 && forall p :: p in multiset(ps) ==> p in {Out, RTurn, WTurn, WReq}
    ensures saver < |ps| && ps[saver] == WReq
    ensures forall u :: 0 <= u < |ps| && u != saver ==> ps[u] in {Out, RTurn, WTurn}
  {
    assert WReq in multiset(ps) && WReq in ps;
    saver :| 0 <= saver < |ps| && ps[saver] == WReq;
    forall u | 0 <= u < |ps| && u != saver
      ensures ps[u] in {Out, RTurn, WTurn}
    {
      assert ps[u] in multiset(ps);
      if ps[u] == WReq {
        TallyTwo(ps, saver, u);
      }
    }
  }

  lemma StoppedBehind(s: Sys, u: nat)
    requires Good(s) && Stopped(s) && u < |s.threads| && PosOf(s.threads[u], DbGate) in {Out, RTurn, WTurn}
    ensures Behind(s, s.threads[u])
  {
    if s.threads[u] != IDLE {
      StoppedThread(s, u);
    }
  }

  lemma StoppedIsJammed(s: Sys, t: nat) returns (saver: nat)
    requires Good(s) && Stopped(s) && t < |s.threads| && s.threads[t] != IDLE
    ensures JammedBy(s, saver)
  {
    StoppedTally(s, t);
    saver := OneSaver(Positions(s.threads, DbGate));
    PosInInside(s.threads[saver].held, DbGate);
    forall u | 0 <= u < |s.threads| && u != saver
      ensures Behind(s, s.threads[u])
    {
      StoppedBehind(s, u);
    }
  }

  /** The server stops exactly when all threads are idle or it is jammed: a deadlock needs a query that
      returned early and a saver that came after it, and then it is one. */
  lemma StopsIff(s: Sys)
    requires Good(s)
    ensures Stopped(s) <==> AllIdle(s) || Jammed(s)
  {
    if Jammed(s) {
      var saver :| JammedBy(s, saver);
      forall u {
        JammedStops(s, saver, u);
      }
    } else if Stopped(s) && !AllIdle(s) {
      var t :| 0 <= t < |s.threads| && s.threads[t] != IDLE;
      var saver := StoppedIsJammed(s, t);
    }
  }

  lemma IdleGateIsOpen(s: Sys)
    requires Good(s) && AllIdle(s)
    ensures s.locks[DbGate].turn > 0
  {
    var ps := Positions(s.threads, DbGate);
    assert Inv(Gate, s.locks[DbGate], multiset(ps));
    forall p | p in multiset(ps)
      ensures p == Out
    {
      assert p in ps;
    }
  }

  /** Once a query has returned early, the next save jams an idle server. */
  lemma NextSaveJams(s: Sys, t: nat) returns (s1: Sys, s2: Sys, s3: Sys)
    requires Good(s) && AllIdle(s) && s.locks[DbGate].lost > 0 && t < |s.threads|
    ensures Goes(s, t, Call(SaveOrLoad), s1) && Goes(s1, t, BeginEnter, s2) && Goes(s2, t, Cross, s3)
    ensures AllLocks(s3) && Jammed(s3)
  {
    IdleGateIsOpen(s);
    var id, script := DbGate, ScriptOf(SaveOrLoad);
    assert script[0] == Enter(DbGate, Writer);
    s1 := Sys(s.locks, s.threads[t := Thread([], Working, script)]);
    s2 := Sys(s.locks, s1.threads[t := Thread([], Crossing(id, WTurn), script[1..])]);
    var lk := s.locks[id];
    s3 := Sys(s.locks[id := lk.(turn := lk.turn - 1)], s2.threads[t := Thread([], Crossing(id, WReq), script[1..])]);
    assert Goes(s, t, Call(SaveOrLoad), s1);
    assert Goes(s1, t, BeginEnter, s2);
    assert Goes(s2, t, Cross, s3);
    assert JammedBy(s3, t);
  }

  // ----- who leaves the gate behind

  /** How often a thread will still leave the gate behind. */
  function DropsLeft(th: Thread): nat {
    match Walk(th.todo, HeldAfter(th))
    case None => 0
    case Some(n) => n
  }

  lemma HeldAfterCrossed(th: Thread, q: Pos)
    requires th.stage.Crossing? && NextOnTheWay(th.stage.pos, q)
    ensures HeldAfter(Crossed(th, th.stage.id, q)) == HeldAfter(th) && Crossed(th, th.stage.id, q).todo == th.todo
  {
  }

  lemma DropsKeptEnter(th: Thread, id: LockId, role: Role)
    requires GoodThread(th) && th.stage == Working && th.todo != [] && th.todo[0] == Enter(id, role)
    ensures DropsLeft(Thread(th.held, Crossing(id, Start(KindOf(id), role)), th.todo[1..])) == DropsLeft(th)
  {
  }

  lemma DropsKeptLeave(th: Thread)
    requires GoodThread(th) && th.stage == Working && th.todo != [] && th.todo[0].Leave? && th.held != []
    ensures DropsLeft(Leaving(th)) == DropsLeft(th)
  {
  }

  lemma DropsKeptCross(th: Thread, lk: Lock)
    requires th.stage.Crossing? && Busy(th.stage.pos) && Enabled(lk, th.stage.pos)
    ensures DropsLeft(Crossed(th, th.stage.id, Advance(KindOf(th.stage.id), lk, th.stage.pos).1)) == DropsLeft(th)
  {
    AdvanceOnTheWay(KindOf(th.stage.id), lk, th.stage.pos);
    HeldAfterCrossed(th, Advance(KindOf(th.stage.id), lk, th.stage.pos).1);
  }

  lemma DropsDone(th: Thread)
    requires GoodThread(th) && th.stage == Working && th.todo != [] && th.todo[0] == Drop
    ensures th.held != [] && DropsLeft(Gone(th)) + 1 == DropsLeft(th)
  {
  }

  /** What a move does to the drops its thread has left. */
  lemma DropsStep(s: Sys, t: nat, mv: Move)
    requires AllLocks(s) && CanMove(s, t, mv) && GoodThread(s.threads[t])
    ensures DropsLeft(Apply(s, t, mv).threads[t]) + (if mv == GoAway then 1 else 0)
         == DropsLeft(s.threads[t]) + (if mv.Call? then FailuresOf(mv.op) else 0)
  {
    var th := s.threads[t];
    match mv
    case Call(op) => OperationsFollowTheOrder(op);
    case BeginEnter => DropsKeptEnter(th, th.todo[0].id, th.todo[0].role);
    case BeginLeave => DropsKeptLeave(th);
    case Cross => DropsKeptCross(th, s.locks[th.stage.id]);
    case GoAway => DropsDone(th);
  }

  function AllDropsLeft(threads: seq<Thread>): nat {
    if threads == [] then 0 else DropsLeft(threads[0]) + AllDropsLeft(threads[1..])
  }

  lemma {:induction false} AllDropsMove(threads: seq<Thread>, t: nat, th: Thread)
    requires t < |threads|
    ensures AllDropsLeft(threads[t := th]) + DropsLeft(threads[t]) == AllDropsLeft(threads) + DropsLeft(th)
  {
    if t == 0 {
      assert threads[t := th][1..] == threads[1..];
    } else {
      assert threads[t := th][1..] == threads[1..][t - 1 := th];
      AllDropsMove(threads[1..], t - 1, th);
    }
  }

  lemma {:induction false} AllDropsIdle(threads: seq<Thread>)
    requires forall t :: 0 <= t < |threads| ==> threads[t] == IDLE
    ensures AllDropsLeft(threads) == 0
  {
    if threads != [] {
      AllDropsIdle(threads[1..]);
    }
  }

  /** The failed follows of the calls among the first `n` steps. */
  function CalledFailures(steps: seq<Step>, n: nat): nat
    requires n <= |steps|
  {
    if n == 0 then 0
    else CalledFailures(steps, n - 1) + (if steps[n - 1].move.Call? then FailuresOf(steps[n - 1].move.op) else 0)
  }

  lemma LostStep(s: Sys, step: Step, s': Sys)
    requires Good(s) && Goes(s, step.thread, step.move, s')
    ensures AllLocks(s')
    ensures s'.locks[DbGate].lost + AllDropsLeft(s'.threads)
         == s.locks[DbGate].lost + AllDropsLeft(s.threads) + (if step.move.Call? then FailuresOf(step.move.op) else 0)
  {
    var t := step.thread;
    DropsStep(s, t, step.move);
    AllDropsMove(s.threads, t, s'.threads[t]);
    assert s'.threads == s.threads[t := s'.threads[t]];
    if step.move != GoAway {
      LostOnlyByGoingAway(s, t, step.move);
    }
  }

  lemma LostRunStep(states: seq<Sys>, steps: seq<Step>, i: nat)
    requires ValidRun(states, steps) && i < |steps|
    ensures AllLocks(states[i]) && AllLocks(states[i + 1])
    ensures states[i + 1].locks[DbGate].lost + AllDropsLeft(states[i + 1].threads)
         == states[i].locks[DbGate].lost + AllDropsLeft(states[i].threads)
            + (if steps[i].move.Call? then FailuresOf(steps[i].move.op) else 0)
  {
    RunStep(states, steps, i);
    LostStep(states[i], steps[i], states[i + 1]);
  }

  /** In every state of every run: the queries that have left the gate behind, and those that will, are
      exactly the follows, called so far, of unknown names or of somebody already followed. */
  lemma {:induction false} LostIsFailedFollows(states: seq<Sys>, steps: seq<Step>, i: nat)
    requires ValidRun(states, steps) && i < |states|
    ensures AllLocks(states[i])
    ensures states[i].locks[DbGate].lost + AllDropsLeft(states[i].threads) == CalledFailures(steps, i)
  {
    if i == 0 {
      GoodFresh(states[0]);
      AllDropsIdle(states[0].threads);
    } else {
      LostIsFailedFollows(states, steps, i - 1);
      LostRunStep(states, steps, i - 1);
    }
  }

  lemma IdleCounts(s: Sys)
    requires Good(s) && AllIdle(s)
    ensures s.locks[DbGate].rcnt == s.locks[DbGate].lost
  {
    var ps := Positions(s.threads, DbGate);
    assert Inv(Gate, s.locks[DbGate], multiset(ps));
    assert forall p :: p in multiset(ps) ==> p in ps && p == Out;
  }

  lemma GateCount(states: seq<Sys>, steps: seq<Step>, i: nat)
    requires ValidRun(states, steps) && i < |states|
    ensures AllLocks(states[i])
    ensures var lk := states[i].locks[DbGate];
      lk.rcnt == Counted(multiset(Positions(states[i].threads, DbGate))) + lk.lost
  {
    ReachableLock(states, steps, i, DbGate);
  }

  /** So in every reachable state `query_cnt` is the counted queries in flight plus all failed follows
      called so far, but for those that are still to fail; whenever all threads are idle it is the number
      of failed follows since the start. */
  lemma {:induction false} FailedFollowsStayCounted(states: seq<Sys>, steps: seq<Step>, i: nat)
    requires ValidRun(states, steps) && i < |states|
    ensures AllLocks(states[i])
    ensures states[i].locks[DbGate].rcnt + AllDropsLeft(states[i].threads)
         == Counted(multiset(Positions(states[i].threads, DbGate))) + CalledFailures(steps, i)
    ensures AllIdle(states[i]) ==> states[i].locks[DbGate].rcnt == CalledFailures(steps, i)
  {
    GateCount(states, steps, i);
    LostIsFailedFollows(states, steps, i);
    if AllIdle(states[i]) {
      GoodRun(states, steps, i);
      IdleCounts(states[i]);
      AllDropsIdle(states[i].threads);
    }
  }

  /** The operation a thread was called for last in the first `n` steps. */
  function LastCall(steps: seq<Step>, n: nat, t: nat): Option<Operation>
    requires n <= |steps|
  {
    if n == 0 then None
    else if steps[n - 1].thread == t && steps[n - 1].move.Call? then Some(steps[n - 1].move.op)
    else LastCall(steps, n - 1, t)
  }

  /** The failed follows of that call. */
  function OwnFailures(steps: seq<Step>, n: nat, t: nat): nat
    requires n <= |steps|
  {
    match LastCall(steps, n, t)
    case None => 0
    case Some(op) => FailuresOf(op)
  }

  lemma DropsRunStep(states: seq<Sys>, steps: seq<Step>, i: nat, t: nat)
    requires ValidRun(states, steps) && i < |steps| && t < |states[i + 1].threads|
    requires t < |states[i].threads| ==> DropsLeft(states[i].threads[t]) <= OwnFailures(steps, i, t)
    ensures t < |states[i].threads|
    ensures DropsLeft(states[i + 1].threads[t]) <= OwnFailures(steps, i + 1, t)
  {
    RunStep(states, steps, i);
    if steps[i].thread == t {
      DropsStep(states[i], t, steps[i].move);
    }
  }

  lemma {:induction false} DropsAreOwnFailures(states: seq<Sys>, steps: seq<Step>, i: nat, t: nat)
    requires ValidRun(states, steps) && i < |states| && t < |states[i].threads|
    ensures DropsLeft(states[i].threads[t]) <= OwnFailures(steps, i, t)
  {
    if i > 0 {
      SameThreads(states, steps, i - 1);
      DropsAreOwnFailures(states, steps, i - 1, t);
      DropsRunStep(states, steps, i - 1, t);
    }
  }

  /** In every run, whoever goes away without leaving the gate is a speaker with a failed follow. */
  lemma {:induction false} EarlyReturnsAreFailedFollows(states: seq<Sys>, steps: seq<Step>, i: nat)
    requires ValidRun(states, steps) && i < |steps| && steps[i].move == GoAway
    ensures var call := LastCall(steps, i, steps[i].thread);
      call.Some? && call.value.Speak? && Failures(call.value.requests) > 0
  {
    RunStep(states, steps, i);
    DropsDone(states[i].threads[steps[i].thread]);
    DropsAreOwnFailures(states, steps, i, steps[i].thread);
  }

  // ----- operations complete

  /** An upper bound of the protocol steps from a position to the end of the way. */
  function StepsLeft(p: Pos): nat {
    match p
    case Out | RIn | WIn => 0
    case RTurn => 5
    case RReq => 4
    case RAcq => 3
    case RRel => 2
    case RDone => 1
    case XReq => 3
    case XCond => 2
    case XRel => 1
    case WMut => 4
    case WTry => 3
    case WTurn | WUnl => 2
    case WReq => 1
    case WOut => 4
    case YReq => 3
    case YCond => 2
    case YUnl | YTurn => 1
  }

  function ScriptLeft(todo: Script): nat {
    if todo == [] then 0 else 6 + ScriptLeft(todo[1..])
  }

  /** An upper bound of the moves a thread has left in its operation. */
  function MovesLeft(th: Thread): nat {
    ScriptLeft(th.todo) + (if th.stage.Crossing? then StepsLeft(th.stage.pos) else 0) + (if th == IDLE then 0 else 1)
  }

  function AllLeft(threads: seq<Thread>): nat {
    if threads == [] then 0 else MovesLeft(threads[0]) + AllLeft(threads[1..])
  }

  lemma {:induction false} AllLeftMove(threads: seq<Thread>, t: nat, th: Thread)
    requires t < |threads|
    ensures AllLeft(threads[t := th]) + MovesLeft(threads[t]) == AllLeft(threads) + MovesLeft(th)
  {
    if t == 0 {
      assert threads[t := th][1..] == threads[1..];
    } else {
      assert threads[t := th][1..] == threads[1..][t - 1 := th];
      AllLeftMove(threads[1..], t - 1, th);
    }
  }

  lemma AdvanceIsProgress(k: Kind, lk: Lock, p: Pos)
    requires Enabled(lk, p)
    ensures StepsLeft(Advance(k, lk, p).1) < StepsLeft(p)
  {
  }

  lemma MoveIsProgress(s: Sys, t: nat, mv: Move)
    requires AllLocks(s) && CanMove(s, t, mv) && !mv.Call?
    ensures MovesLeft(Apply(s, t, mv).threads[t]) < MovesLeft(s.threads[t])
  {
    if mv.Cross? {
      var id := s.threads[t].stage.id;
      AdvanceIsProgress(KindOf(id), s.locks[id], s.threads[t].stage.pos);
    }
  }

  predicate NoCalls(steps: seq<Step>, i: nat, j: nat)
    requires i <= j <= |steps|
  {
    forall k :: i <= k < j ==> !steps[k].move.Call?
  }

  /** Without new calls the server takes no more moves than the operations in progress have left, in
      whatever order the threads go. */
  lemma {:induction false} WorkIsBounded(states: seq<Sys>, steps: seq<Step>, i: nat, j: nat)
    requires ValidRun(states, steps) && i <= j < |states| && NoCalls(steps, i, j)
    ensures (j - i) + AllLeft(states[j].threads) <= AllLeft(states[i].threads)
  {
    if i < j {
      var s, t, mv := states[j - 1], steps[j - 1].thread, steps[j - 1].move;
      WorkIsBounded(states, steps, i, j - 1);
      RunStep(states, steps, j - 1);
      MoveIsProgress(s, t, mv);
      AllLeftMove(s.threads, t, states[j].threads[t]);
      assert states[j].threads == s.threads[t := states[j].threads[t]];
    }
  }

  /** So without new calls every run comes to an end within that bound, and at its end every operation is
      complete, waiting savers included, unless the server is jammed. */
  lemma OperationsComplete(states: seq<Sys>, steps: seq<Step>, i: nat, j: nat)
    requires ValidRun(states, steps) && i <= j < |states| && NoCalls(steps, i, j)
    ensures j - i <= AllLeft(states[i].threads)
    ensures AllLocks(states[j])
    ensures Stopped(states[j]) ==> AllIdle(states[j]) || Jammed(states[j])
    ensures Stopped(states[j]) && (forall k :: 0 <= k < j ==> steps[k].move != GoAway) ==> AllIdle(states[j])
  {
    WorkIsBounded(states, steps, i, j);
    GoodRun(states, steps, j);
    StopsIff(states[j]);
  }

  lemma WaitingSaverStep(s: Sys, step: Step, s': Sys, t: nat)
    requires AllLocks(s) && Goes(s, step.thread, step.move, s') && t < |s.threads|
    requires s.threads[t].stage == Crossing(DbGate, WReq)
    ensures |s'.threads| == |s.threads|
    ensures s'.threads[t] == s.threads[t] || Hold(DbGate, Writer) in s'.threads[t].held
  {
  }

  lemma WaitingSaverRun(states: seq<Sys>, steps: seq<Step>, i: nat, t: nat)
    requires ValidRun(states, steps) && i < |steps| && t < |states[i].threads|
    requires states[i].threads[t].stage == Crossing(DbGate, WReq)
    ensures t < |states[i + 1].threads|
    ensures states[i + 1].threads[t] == states[i].threads[t] || Hold(DbGate, Writer) in states[i + 1].threads[t].held
  {
    RunStep(states, steps, i);
    WaitingSaverStep(states[i], steps[i], states[i + 1], t);
  }

  /** A saver that waits for `DB_access_sem` and has completed was inside in between. */
  lemma {:induction false} SaverWasAdmitted(states: seq<Sys>, steps: seq<Step>, i: nat, j: nat, t: nat) returns (k: nat)
    requires ValidRun(states, steps) && i <= j < |states| && t < |states[i].threads| && t < |states[j].threads|
    requires states[i].threads[t].stage == Crossing(DbGate, WReq) && states[j].threads[t] == IDLE
    ensures i < k <= j && t < |states[k].threads| && Hold(DbGate, Writer) in states[k].threads[t].held
    decreases j - i
  {
    WaitingSaverRun(states, steps, i, t);
    if states[i + 1].threads[t] == states[i].threads[t] {
      k := SaverWasAdmitted(states, steps, i + 1, j, t);
    } else {
      k := i + 1;
    }
  }

  // ----- a jam from the start

  /** Moves of one thread, one after the other. */
  ghost function RunBy(s: Sys, t: nat, moves: seq<Move>): Option<Sys>
    decreases |moves|
  {
    if moves == [] then Some(s)
    else if AllLocks(s) && CanMove(s, t, moves[0]) then RunBy(Apply(s, t, moves[0]), t, moves[1..])
    else None
  }

  lemma {:induction false} RunByFirst(s: Sys, t: nat, mv: Move, s': Sys, moves: seq<Move>)
    requires Goes(s, t, mv, s')
    ensures RunBy(s, t, [mv] + moves) == RunBy(s', t, moves)
  {
    assert ([mv] + moves)[1..] == moves;
  }

  lemma {:induction false} RunByConcat(s: Sys, t: nat, a: seq<Move>, b: seq<Move>)
    requires RunBy(s, t, a).Some?
    ensures RunBy(s, t, a + b) == RunBy(RunBy(s, t, a).value, t, b)
    decreases |a|
  {
    if a == [] {
      assert a + b == b;
    } else {
      assert (a + b)[1..] == a[1..] + b;
      RunByConcat(Apply(s, t, a[0]), t, a[1..], b);
    }
  }

  /** A thread that is not about to save. */
  predicate Queries(th: Thread) {
    && Enter(DbGate, Writer) !in th.todo
    && (th.stage.Crossing? && th.stage.id == DbGate ==>
        th.stage.pos in {RTurn, RReq, RAcq, RRel, RDone, XReq, XCond, XRel})
    && Hold(DbGate, Writer) !in th.held
  }

  lemma QueriesStep(s: Sys, t: nat, mv: Move)
    requires AllLocks(s) && CanMove(s, t, mv) && !mv.Call? && Queries(s.threads[t])
    ensures Queries(Apply(s, t, mv).threads[t])
  {
  }

  lemma AloneIsNotJammed(s: Sys, t: nat)
    requires AllLocks(s) && t < |s.threads| && Queries(s.threads[t])
    requires forall u :: 0 <= u < |s.threads| && u != t ==> s.threads[u] == IDLE
    ensures !Jammed(s)
  {
  }

  lemma IdleDoesNotContinue(s: Sys, u: nat)
    requires AllLocks(s) && (u < |s.threads| ==> s.threads[u] == IDLE)
    ensures !CanContinue(s, u)
  {
  }

  lemma AloneContinues(s: Sys, t: nat) returns (mv: Move)
    requires Good(s) && t < |s.threads| && s.threads[t] != IDLE && Queries(s.threads[t])
    requires forall u :: 0 <= u < |s.threads| && u != t ==> s.threads[u] == IDLE
    ensures CanMove(s, t, mv) && !mv.Call?
  {
    StopsIff(s);
    AloneIsNotJammed(s, t);
    var u :| CanContinue(s, u);
    if u != t {
      IdleDoesNotContinue(s, u);
    }
    mv := if CanMove(s, t, BeginEnter) then BeginEnter else if CanMove(s, t, BeginLeave) then BeginLeave
          else if CanMove(s, t, Cross) then Cross else GoAway;
  }

  /** An operation other than a save, running alone, always comes to its end, and leaves the gate behind
      once for each of its failed follows. */
  lemma {:induction false} RunsAlone(s: Sys, t: nat) returns (moves: seq<Move>, s': Sys)
    requires Good(s) && t < |s.threads| && Queries(s.threads[t])
    requires forall u :: 0 <= u < |s.threads| && u != t ==> s.threads[u] == IDLE
    ensures RunBy(s, t, moves) == Some(s') && Good(s') && AllIdle(s') && |s'.threads| == |s.threads|
    ensures s'.locks[DbGate].lost == s.locks[DbGate].lost + DropsLeft(s.threads[t])
    decreases MovesLeft(s.threads[t])
  {
    if s.threads[t] == IDLE {
      moves, s' := [], s;
    } else {
      var mv := AloneContinues(s, t);
      var s1 := Apply(s, t, mv);
      GoodMove(s, t, mv);
      DropsStep(s, t, mv);
      QueriesStep(s, t, mv);
      MoveIsProgress(s, t, mv);
      if mv != GoAway {
        LostOnlyByGoingAway(s, t, mv);
      }
      moves, s' := RunsAlone(s1, t);
      RunByFirst(s, t, mv, s1, moves);
      moves := [mv] + moves;
    }
  }

  /** A speaker with one follow of an unknown name. */
  const FAILS := Speak(0, [Follow(false, false)])

  lemma FailsQueries()
    ensures Enter(DbGate, Writer) !in ScriptOf(FAILS) && FailuresOf(FAILS) == 1
  {
    var qs := [Follow(false, false)];
    var last := [Leave(Incoming(0))] + [];
    assert qs[1..] == [];
    assert RequestsScript(0, qs, last) == RequestScript(0, qs[0], last);
  }

  /** From the start: one thread carries out a follow of an unknown name, then another one (or the same)
      saves, and the server is jammed. */
  lemma JamIsReachable(s: Sys, speaker: nat, saver: nat) returns (moves: seq<Move>, idle: Sys, s': Sys)
    requires Fresh(s) && speaker < |s.threads| && saver < |s.threads|
    ensures RunBy(s, speaker, [Call(FAILS)] + moves) == Some(idle) && AllIdle(idle)
    ensures RunBy(idle, saver, [Call(SaveOrLoad)] + ([BeginEnter] + ([Cross] + []))) == Some(s')
    ensures AllLocks(s') && Jammed(s')
  {
    var s1 := Apply(s, speaker, Call(FAILS));
    GoodFresh(s);
    GoodMove(s, speaker, Call(FAILS));
    DropsStep(s, speaker, Call(FAILS));
    FailsQueries();
    moves, idle := RunsAlone(s1, speaker);
    RunByFirst(s, speaker, Call(FAILS), s1, moves);
    var s2, s3;
    s2, s3, s' := NextSaveJams(idle, saver);
    RunByFirst(s3, saver, Cross, s', []);
    RunByFirst(s2, saver, BeginEnter, s3, [Cross] + []);
    RunByFirst(idle, saver, Call(SaveOrLoad), s2, [BeginEnter] + ([Cross] + []));
  }
}
