/** All locks of the server together, as a transition system over any number of threads and sessions:
    exclusion in every run, and no deadlock while no follow has returned early. */
module LockOrder {
  import opened RwLocks
  import opened Scripts

  // ----- the server as a transition system

  /** Between two lock operations, or somewhere in the protocol of one lock. */
  datatype Stage = Working | Crossing(id: LockId, pos: Pos)

  datatype Thread = Thread(held: seq<Hold>, stage: Stage, todo: Script)

  datatype Sys = Sys(locks: imap<LockId, Lock>, threads: seq<Thread>)

  const IDLE := Thread([], Working, [])

  function PosIn(held: seq<Hold>, id: LockId): Pos {
    if held == [] then Out
    else
      var h := held[|held| - 1];
      if h.id != id then PosIn(held[..|held| - 1], id)
      else if h.role == Reader then RIn else WIn
  }

  function PosOf(th: Thread, id: LockId): Pos {
    if th.stage.Crossing? && th.stage.id == id then th.stage.pos else PosIn(th.held, id)
  }

  function Positions(threads: seq<Thread>, id: LockId): (ps: seq<Pos>)
    ensures |ps| == |threads|
    ensures forall t :: 0 <= t < |ps| ==> ps[t] == PosOf(threads[t], id)
  {
    seq(|threads|, t requires 0 <= t < |threads| => PosOf(threads[t], id))
  }

  datatype Move = Call(op: Operation) | BeginEnter | BeginLeave | Cross | GoAway

  ghost predicate AllLocks(s: Sys) {
    forall id: LockId :: id in s.locks
  }

  ghost predicate CanMove(s: Sys, t: nat, mv: Move)
    requires AllLocks(s)
  {
    && t < |s.threads|
    && var th := s.threads[t];
    match mv
    case Call(_) => th == IDLE
    case BeginEnter => th.stage == Working && th.todo != [] && th.todo[0].Enter?
    case BeginLeave =>
      && th.stage == Working && th.todo != [] && th.todo[0].Leave?
      && th.held != [] && th.held[|th.held| - 1].id == th.todo[0].id
    case Cross => th.stage.Crossing? && Enabled(s.locks[th.stage.id], th.stage.pos)
    case GoAway =>
      && th.stage == Working && th.todo != [] && th.todo[0] == Drop
      && th.held != [] && th.held[|th.held| - 1] == Hold(DbGate, Reader)
  }

  /** The thread on its way out of its innermost section. */
  function Leaving(th: Thread): Thread
    requires th.held != [] && th.todo != []
  {
    var h := th.held[|th.held| - 1];
    Thread(th.held[..|th.held| - 1], Crossing(h.id, if h.role == Reader then XReq else WOut), th.todo[1..])
  }

  /** The thread after a protocol step: inside, out again, or still crossing. */
  function Crossed(th: Thread, id: LockId, p: Pos): Thread {
    match p
    case RIn => Thread(th.held + [Hold(id, Reader)], Working, th.todo)
    case WIn => Thread(th.held + [Hold(id, Writer)], Working, th.todo)
    case Out => Thread(th.held, Working, th.todo)
    case _ => Thread(th.held, Crossing(id, p), th.todo)
  }

  /** The thread after it went away from its innermost section without leaving it. */
  function Gone(th: Thread): Thread
    requires th.held != [] && th.todo != []
  {
    Thread(th.held[..|th.held| - 1], Working, th.todo[1..])
  }

  ghost function Apply(s: Sys, t: nat, mv: Move): Sys
    requires AllLocks(s) && CanMove(s, t, mv)
  {
    var th := s.threads[t];
    match mv
    case Call(op) => s.(threads := s.threads[t := th.(todo := ScriptOf(op))])
    case BeginEnter =>
      var id := th.todo[0].id;
      var th' := Thread(th.held, Crossing(id, Start(KindOf(id), th.todo[0].role)), th.todo[1..]);
      s.(threads := s.threads[t := th'])
    case BeginLeave =>
      s.(threads := s.threads[t := Leaving(th)])
    case Cross =>
      var id := th.stage.id;
      var (lk, p) := Advance(KindOf(id), s.locks[id], th.stage.pos);
      Sys(s.locks[id := lk], s.threads[t := Crossed(th, id, p)])
    case GoAway =>
      var lk := s.locks[DbGate];
      Sys(s.locks[DbGate := lk.(lost := lk.lost + 1)], s.threads[t := Gone(th)])
  }

  /** Whether a thread can move depends on the other threads only through the lock it is crossing, and an
      idle thread can be called for any operation. */
  lemma MovesIgnoreOthers(s: Sys, s': Sys, t: nat, mv: Move)
    requires AllLocks(s) && AllLocks(s') && t < |s.threads| && t < |s'.threads| && s.threads[t] == s'.threads[t]
    requires s.threads[t].stage.Crossing? ==> s.locks[s.threads[t].stage.id] == s'.locks[s.threads[t].stage.id]
    ensures CanMove(s, t, mv) <==> CanMove(s', t, mv)
    ensures s.threads[t] == IDLE ==> forall op :: CanMove(s, t, Call(op))
  {
  }

  // ----- the invariant

  predicate WayIn(p: Pos) {
    p.RTurn? || p.RReq? || p.RAcq? || p.RRel? || p.RDone? || p.WTurn? || p.WMut? || p.WTry? || p.WUnl? || p.WReq?
  }

  function RoleAt(p: Pos): Role {
    if p.RTurn? || p.RReq? || p.RAcq? || p.RRel? || p.RDone? then Reader else Writer
  }

  predicate Rising(held: seq<Hold>) {
    forall i, j :: 0 <= i < j < |held| ==> Level(held[i].id) < Level(held[j].id)
  }

  /** The sections a thread is in once it is through with the lock that it crosses. */
  function HeldAfter(th: Thread): seq<Hold> {
    match th.stage
    case Working => th.held
    case Crossing(id, p) => if WayIn(p) then th.held + [Hold(id, RoleAt(p))] else th.held
  }

  predicate GoodThread(th: Thread) {
    && Rising(th.held)
    && (th.stage.Crossing? ==> Busy(th.stage.pos) && Below(th.held, th.stage.id))
    && Follows(th.todo, HeldAfter(th))
  }

  ghost predicate GoodLocks(s: Sys)
    requires AllLocks(s)
  {
    forall id: LockId {:trigger Positions(s.threads, id)} ::
      Inv(KindOf(id), s.locks[id], multiset(Positions(s.threads, id)))
  }

  ghost predicate Good(s: Sys) {
    && AllLocks(s)
    && GoodLocks(s)
    && forall t :: 0 <= t < |s.threads| ==> GoodThread(s.threads[t])
  }

  ghost predicate Fresh(s: Sys) {
    && AllLocks(s)
    && (forall id: LockId :: s.locks[id] == FREE)
    && forall t :: 0 <= t < |s.threads| ==> s.threads[t] == IDLE
  }

  lemma GoodFresh(s: Sys)
    requires Fresh(s)
    ensures Good(s)
  {
    forall id: LockId
      ensures Inv(KindOf(id), s.locks[id], multiset(Positions(s.threads, id)))
    {
      InvFresh(KindOf(id), Positions(s.threads, id));
    }
  }

  lemma {:induction false} PosInBelow(held: seq<Hold>, id: LockId)
    requires Below(held, id)
    ensures PosIn(held, id) == Out
  {
    if held != [] {
      PosInBelow(held[..|held| - 1], id);
    }
  }

  lemma {:induction false} PosInInside(held: seq<Hold>, id: LockId)
    ensures PosIn(held, id) != Out ==> exists i :: 0 <= i < |held| && held[i].id == id
    ensures PosIn(held, id) in {Out, RIn, WIn}
  {
    if held != [] && held[|held| - 1].id != id {
      PosInInside(held[..|held| - 1], id);
    }
  }

  /** A step that moves one thread in one lock, seen from all locks. */
  lemma LocksStep(s: Sys, t: nat, th': Thread, id: LockId, a: Act, lk: Lock)
    requires AllLocks(s) && GoodLocks(s) && t < |s.threads|
    requires Can(KindOf(id), s.locks[id], PosOf(s.threads[t], id), a)
    requires Do(KindOf(id), s.locks[id], PosOf(s.threads[t], id), a) == (lk, PosOf(th', id))
    requires forall id' :: id' != id ==> PosOf(th', id') == PosOf(s.threads[t], id')
    ensures GoodLocks(Sys(s.locks[id := lk], s.threads[t := th']))
  {
    var s' := Sys(s.locks[id := lk], s.threads[t := th']);
    forall id': LockId
      ensures Inv(KindOf(id'), s'.locks[id'], multiset(Positions(s'.threads, id')))
    {
      var ps, ps' := Positions(s.threads, id'), Positions(s'.threads, id');
      assert ps' == ps[t := PosOf(th', id')];
      if id' == id {
        InvStep(KindOf(id), s.locks[id], ps, t, a);
      } else {
        assert ps' == ps;
      }
    }
  }

  /** A step that moves no thread in any lock. */
  lemma LocksKept(s: Sys, t: nat, th': Thread)
    requires AllLocks(s) && GoodLocks(s) && t < |s.threads|
    requires forall id :: PosOf(th', id) == PosOf(s.threads[t], id)
    ensures GoodLocks(s.(threads := s.threads[t := th']))
  {
    var s' := s.(threads := s.threads[t := th']);
    forall id: LockId
      ensures Inv(KindOf(id), s'.locks[id], multiset(Positions(s'.threads, id)))
    {
      assert Positions(s'.threads, id) == Positions(s.threads, id);
    }
  }

  lemma GoodCall(s: Sys, t: nat, op: Operation)
    requires Good(s) && CanMove(s, t, Call(op))
    ensures Good(Apply(s, t, Call(op)))
  {
    OperationsFollowTheOrder(op);
    LocksKept(s, t, s.threads[t].(todo := ScriptOf(op)));
  }

  lemma BeginEnterThread(th: Thread, id: LockId, role: Role)
    requires GoodThread(th) && th.stage == Working && th.todo != [] && th.todo[0] == Enter(id, role)
    ensures GoodThread(Thread(th.held, Crossing(id, Start(KindOf(id), role)), th.todo[1..]))
  {
  }

  lemma GoodBeginEnter(s: Sys, t: nat)
    requires Good(s) && CanMove(s, t, BeginEnter)
    ensures Good(Apply(s, t, BeginEnter))
  {
    var th := s.threads[t];
    var id, role := th.todo[0].id, th.todo[0].role;
    var th' := Thread(th.held, Crossing(id, Start(KindOf(id), role)), th.todo[1..]);
    BeginEnterThread(th, id, role);
    PosInBelow(th.held, id);
    LocksStep(s, t, th', id, Begin(role), s.locks[id]);
    assert s.locks[id := s.locks[id]] == s.locks;
  }

  lemma BeginLeaveThread(th: Thread)
    requires GoodThread(th) && th.stage == Working && th.todo != [] && th.todo[0].Leave?
    requires th.held != [] && th.held[|th.held| - 1].id == th.todo[0].id
    ensures GoodThread(Leaving(th))
    ensures forall id :: id != th.todo[0].id ==> PosOf(Leaving(th), id) == PosOf(th, id)
    ensures PosOf(th, th.todo[0].id) == if th.held[|th.held| - 1].role == Reader then RIn else WIn
  {
  }

  lemma GoodBeginLeave(s: Sys, t: nat)
    requires Good(s) && CanMove(s, t, BeginLeave)
    ensures Good(Apply(s, t, BeginLeave))
  {
    var th := s.threads[t];
    var id := th.todo[0].id;
    BeginLeaveThread(th);
    LocksStep(s, t, Leaving(th), id, End, s.locks[id]);
    assert s.locks[id := s.locks[id]] == s.locks;
  }

  /** A step of the way in stays on it or ends inside; one of the way out stays on it or ends outside. */
  predicate NextOnTheWay(p: Pos, q: Pos) {
    if WayIn(p) then q == (if RoleAt(p) == Reader then RIn else WIn) || (WayIn(q) && RoleAt(q) == RoleAt(p))
    else q == Out || (Busy(q) && !WayIn(q))
  }

  lemma AdvanceOnTheWay(k: Kind, lk: Lock, p: Pos)
    requires Busy(p) && Enabled(lk, p)
    ensures NextOnTheWay(p, Advance(k, lk, p).1)
  {
  }

  lemma GoodCrossedThread(th: Thread, q: Pos)
    requires GoodThread(th) && th.stage.Crossing? && NextOnTheWay(th.stage.pos, q)
    ensures GoodThread(Crossed(th, th.stage.id, q))
  {
  }

  lemma {:induction false} PosInPush(held: seq<Hold>, h: Hold, id: LockId)
    ensures PosIn(held + [h], id) == if h.id == id then (if h.role == Reader then RIn else WIn) else PosIn(held, id)
  {
    assert (held + [h])[..|held|] == held;
  }

  lemma CrossedElsewhere(th: Thread, id: LockId, p: Pos, id': LockId)
    requires th.stage.Crossing? && th.stage.id == id && id' != id
    ensures PosOf(Crossed(th, id, p), id') == PosOf(th, id')
  {
    PosInPush(th.held, Hold(id, Reader), id');
    PosInPush(th.held, Hold(id, Writer), id');
  }

  lemma CrossedHere(th: Thread, id: LockId, p: Pos)
    requires Below(th.held, id) && th.stage.Crossing? && th.stage.id == id
    ensures PosOf(Crossed(th, id, p), id) == p
  {
    PosInBelow(th.held, id);
    PosInPush(th.held, Hold(id, Reader), id);
    PosInPush(th.held, Hold(id, Writer), id);
  }

  lemma CrossedPosition(th: Thread, id: LockId, p: Pos)
    requires Below(th.held, id) && th.stage.Crossing? && th.stage.id == id
    ensures PosOf(Crossed(th, id, p), id) == p
    ensures forall id' :: id' != id ==> PosOf(Crossed(th, id, p), id') == PosOf(th, id')
  {
    CrossedHere(th, id, p);
    forall id' | id' != id
      ensures PosOf(Crossed(th, id, p), id') == PosOf(th, id')
    {
      CrossedElsewhere(th, id, p, id');
    }
  }

  lemma GoodCross(s: Sys, t: nat)
    requires Good(s) && CanMove(s, t, Cross)
    ensures Good(Apply(s, t, Cross))
  {
    var th := s.threads[t];
    var id := th.stage.id;
    var p := Advance(KindOf(id), s.locks[id], th.stage.pos).1;
    AdvanceOnTheWay(KindOf(id), s.locks[id], th.stage.pos);
    GoodCrossedThread(th, p);
    CrossedPosition(th, id, p);
    LocksStep(s, t, Crossed(th, id, p), id, Micro, Advance(KindOf(id), s.locks[id], th.stage.pos).0);
  }

  lemma GoneThread(th: Thread)
    requires GoodThread(th) && th.stage == Working && th.todo != [] && th.todo[0] == Drop
    requires th.held != [] && th.held[|th.held| - 1] == Hold(DbGate, Reader)
    ensures GoodThread(Gone(th))
    ensures PosOf(th, DbGate) == RIn && PosOf(Gone(th), DbGate) == Out
    ensures forall id :: id != DbGate ==> PosOf(Gone(th), id) == PosOf(th, id)
  {
    PosInBelow(th.held[..|th.held| - 1], DbGate);
  }

  lemma GoodGoAway(s: Sys, t: nat)
    requires Good(s) && CanMove(s, t, GoAway)
    ensures Good(Apply(s, t, GoAway))
  {
    var th, lk := s.threads[t], s.locks[DbGate];
    GoneThread(th);
    LocksStep(s, t, Gone(th), DbGate, Abandon, lk.(lost := lk.lost + 1));
  }

  /** Every move of every thread keeps all the locks and all the threads in order. */
  lemma GoodMove(s: Sys, t: nat, mv: Move)
    requires Good(s) && CanMove(s, t, mv)
    ensures Good(Apply(s, t, mv))
  {
    match mv
    case Call(op) => GoodCall(s, t, op);
    case BeginEnter => GoodBeginEnter(s, t);
    case BeginLeave => GoodBeginLeave(s, t);
    case Cross => GoodCross(s, t);
    case GoAway => GoodGoAway(s, t);
  }

  // ----- no deadlock

  ghost predicate CanContinue(s: Sys, t: nat)
    requires AllLocks(s)
  {
    CanMove(s, t, BeginEnter) || CanMove(s, t, BeginLeave) || CanMove(s, t, Cross) || CanMove(s, t, GoAway)
  }

  /** If a thread is crossing a lock, somebody in that lock can continue or somebody is inside. */
  lemma LockMovesOrIsHeld(s: Sys, t: nat) returns (u: nat)
    requires AllLocks(s) && GoodLocks(s)
    requires t < |s.threads| && GoodThread(s.threads[t]) && s.threads[t].stage.Crossing?
    requires s.locks[s.threads[t].stage.id].lost == 0
    ensures u < |s.threads|
    ensures var p := PosOf(s.threads[u], s.threads[t].stage.id);
      Enabled(s.locks[s.threads[t].stage.id], p) || p == RIn || p == WIn
  {
    var id := s.threads[t].stage.id;
    u := LocalProgress(KindOf(id), s.locks[id], Positions(s.threads, id), t);
  }

  /** A thread between two lock operations can go on. */
  lemma WorkingContinues(s: Sys, u: nat)
    requires AllLocks(s) && u < |s.threads| && GoodThread(s.threads[u])
    requires s.threads[u].stage == Working && s.threads[u] != IDLE
    ensures CanContinue(s, u)
  {
  }

  /** A thread that is inside a lock, or can move in it, can continue, or is crossing a lock of a
      higher level. */
  lemma HolderContinuesOrIsHigher(s: Sys, u: nat, id: LockId)
    requires AllLocks(s) && u < |s.threads| && GoodThread(s.threads[u])
    requires var p := PosOf(s.threads[u], id); Enabled(s.locks[id], p) || p == RIn || p == WIn
    ensures CanContinue(s, u) || (s.threads[u].stage.Crossing? && Level(s.threads[u].stage.id) > Level(id))
  {
    var th := s.threads[u];
    PosInInside(th.held, id);
    if th.stage == Working {
      WorkingContinues(s, u);
    } else if th.stage.id == id {
      assert CanMove(s, u, Cross);
    }
  }

  /** Only the gate can be left behind. */
  lemma OnlyTheGateLoses(s: Sys, id: LockId)
    requires AllLocks(s) && GoodLocks(s) && id != DbGate
    ensures s.locks[id].lost == 0
  {
    assert Inv(KindOf(id), s.locks[id], multiset(Positions(s.threads, id)));
  }

  /** If a thread is crossing a lock behind the gate, or nobody has left the gate behind, somebody can
      continue. */
  lemma {:induction false} SomebodyContinues(s: Sys, t: nat) returns (u: nat)
    requires Good(s) && t < |s.threads| && s.threads[t].stage.Crossing?
    requires s.locks[DbGate].lost == 0 || Level(s.threads[t].stage.id) > Level(DbGate)
    ensures CanContinue(s, u)
    decreases 10 - Level(s.threads[t].stage.id)
  {
    if s.threads[t].stage.id != DbGate {
      OnlyTheGateLoses(s, s.threads[t].stage.id);
    }
    u := LockMovesOrIsHeld(s, t);
    HolderContinuesOrIsHigher(s, u, s.threads[t].stage.id);
    if !CanContinue(s, u) {
      u := SomebodyContinues(s, u);
    }
  }

  /** No deadlock: while no follow has returned early, whenever some thread is in the middle of an
      operation some thread can take its next step. */
  lemma NoDeadlock(s: Sys, t: nat) returns (u: nat)
    requires Good(s) && s.locks[DbGate].lost == 0
    requires t < |s.threads| && s.threads[t] != IDLE
    ensures CanContinue(s, u)
  {
    if s.threads[t].stage.Crossing? {
      u := SomebodyContinues(s, t);
    } else {
      WorkingContinues(s, t);
      u := t;
    }
  }

  // ----- runs

  datatype Step = Step(thread: nat, move: Move)

  /** One move of thread `t`. */
  ghost predicate Goes(s: Sys, t: nat, mv: Move, s': Sys) {
    AllLocks(s) && CanMove(s, t, mv) && s' == Apply(s, t, mv)
  }

  ghost predicate StepOf(states: seq<Sys>, steps: seq<Step>, i: nat)
    requires |states| == |steps| + 1 && i < |steps|
  {
    Goes(states[i], steps[i].thread, steps[i].move, states[i + 1])
  }

  ghost predicate ValidRun(states: seq<Sys>, steps: seq<Step>) {
    && |states| == |steps| + 1
    && Fresh(states[0])
    && forall i :: 0 <= i < |steps| ==> StepOf(states, steps, i)
  }

  lemma AdvanceLosesNothing(k: Kind, lk: Lock, p: Pos)
    requires Enabled(lk, p)
    ensures Advance(k, lk, p).0.lost == lk.lost
  {
  }

  lemma LostOnlyByGoingAway(s: Sys, t: nat, mv: Move)
    requires AllLocks(s) && CanMove(s, t, mv) && mv != GoAway
    ensures Apply(s, t, mv).locks[DbGate].lost == s.locks[DbGate].lost
  {
    if mv.Cross? {
      var id := s.threads[t].stage.id;
      AdvanceLosesNothing(KindOf(id), s.locks[id], s.threads[t].stage.pos);
    }
  }

  lemma {:induction false} GoodRun(states: seq<Sys>, steps: seq<Step>, i: nat)
    requires ValidRun(states, steps) && i < |states|
    ensures Good(states[i])
    ensures (forall j :: 0 <= j < i ==> steps[j].move != GoAway) ==> states[i].locks[DbGate].lost == 0
  {
    if i == 0 {
      GoodFresh(states[0]);
    } else {
      GoodRun(states, steps, i - 1);
      assert StepOf(states, steps, i - 1);
      GoodMove(states[i - 1], steps[i - 1].thread, steps[i - 1].move);
      if forall j :: 0 <= j < i ==> steps[j].move != GoAway {
        LostOnlyByGoingAway(states[i - 1], steps[i - 1].thread, steps[i - 1].move);
      }
    }
  }

  /** Every state of every run from the start in which no follow has returned early: either all
      threads are between operations or some thread can continue. */
  lemma RunsDoNotDeadlock(states: seq<Sys>, steps: seq<Step>, i: nat)
    requires ValidRun(states, steps) && i < |states|
    requires forall j :: 0 <= j < i ==> steps[j].move != GoAway
    ensures AllLocks(states[i])
    ensures (forall t :: 0 <= t < |states[i].threads| ==> states[i].threads[t] == IDLE)
         || exists u :: CanContinue(states[i], u)
  {
    GoodRun(states, steps, i);
    if t :| 0 <= t < |states[i].threads| && states[i].threads[t] != IDLE {
      var u := NoDeadlock(states[i], t);
    }
  }

  lemma {:induction false} HeldIsInside(held: seq<Hold>, id: LockId, role: Role)
    requires Rising(held) && Hold(id, role) in held
    ensures PosIn(held, id) == if role == Reader then RIn else WIn
  {
    var i :| 0 <= i < |held| && held[i] == Hold(id, role);
    if i < |held| - 1 {
      assert held[|held| - 1].id != id;
      assert held[..|held| - 1][i] == held[i];
      HeldIsInside(held[..|held| - 1], id, role);
    }
  }

  lemma HolderPosition(th: Thread, id: LockId, role: Role)
    requires GoodThread(th) && Hold(id, role) in th.held
    ensures PosOf(th, id) == if role == Reader then RIn else WIn
  {
    HeldIsInside(th.held, id, role);
  }

  /** In every state of every run, early returns or not, and for each of the locks: while a thread is
      in a writer's section no other thread is in a section of that lock. */
  lemma SectionsExclude(states: seq<Sys>, steps: seq<Step>, i: nat, t: nat, u: nat, id: LockId, role: Role)
    requires ValidRun(states, steps) && i < |states|
    requires t < |states[i].threads| && u < |states[i].threads| && t != u
    requires Hold(id, Writer) in states[i].threads[t].held
    ensures Hold(id, role) !in states[i].threads[u].held
  {
    var s := states[i];
    GoodRun(states, steps, i);
    HolderPosition(s.threads[t], id, Writer);
    Exclusion(KindOf(id), s.locks[id], Positions(s.threads, id), t);
    if Hold(id, role) in s.threads[u].held {
      HolderPosition(s.threads[u], id, role);
      assert false;
    }
  }

  /** In every state of every run the semaphores and mutexes of all locks are 0 or 1: no V goes ahead of
      its P. (LOPT alone has a mutex for writers, and a FirstLast lock has no turnstile.) */
  lemma SemaphoresAreBinary(states: seq<Sys>, steps: seq<Step>, i: nat, id: LockId)
    requires ValidRun(states, steps) && i < |states|
    ensures AllLocks(states[i])
    ensures var lk := states[i].locks[id];
      && lk.rw in {0, 1} && lk.rmut in {0, 1}
      && (KindOf(id) != FirstLast ==> lk.turn in {0, 1})
      && (KindOf(id) == WriterPref ==> lk.wmut in {0, 1})
  {
    GoodRun(states, steps, i);
    assert Inv(KindOf(id), states[i].locks[id], multiset(Positions(states[i].threads, id)));
  }
}
