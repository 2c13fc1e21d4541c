/** The reader/writer protocols of `databaseManager`, one step per P, V, lock or unlock.

    Three protocols share one description:
    - FirstLast: LOU, LOF and LORT. The first reader takes the semaphore, the last one frees it.
      A plain mutex or semaphore is a FirstLast lock that only writers use.
    - WriterPref: LOPT. Readers pass a turnstile (`LOPT_readTry`) that the first writer closes
      and the last writer opens again.
    - Gate: queries are readers of `DB_access_sem` behind the turnstile `query_try`;
      `saveDatabase` and `loadDatabase` are the writers and keep the turnstile while inside.

    A counter is only touched while its mutex is held, so its update is folded into the step
    that takes the mutex. */
module RwLocks {
  datatype Kind = FirstLast | WriterPref | Gate

  datatype Role = Reader | Writer

  /** Where a thread stands in the protocol of one lock; each name is the step it takes next. */
  datatype Pos =
    | Out                                          // not using the lock
    | RTurn | RReq | RAcq | RRel | RDone           // a reader on its way in
    | RIn                                          // inside as a reader
    | XReq | XCond | XRel                          // a reader on its way out
    | WTurn | WMut | WTry | WUnl | WReq            // a writer on its way in
    | WIn                                          // inside as a writer
    | WOut | YReq | YCond | YUnl | YTurn           // a writer on its way out

  /** Semaphores and mutexes by value, counters, and the number of readers that went away
      without leaving (the early returns of `postFollow`). */
  datatype Lock = Lock(rw: int, turn: int, rmut: int, rcnt: int, wmut: int, wcnt: int, lost: nat)

  datatype Act = Begin(role: Role) | Micro | End | Abandon

  const FREE := Lock(1, 1, 1, 0, 1, 0, 0)

  // ----- the protocols

  function Start(k: Kind, role: Role): Pos {
    match (k, role)
    case (FirstLast, Reader) => RReq
    case (FirstLast, Writer) => WReq
    case (WriterPref, Writer) => WMut
    case (Gate, Writer) => WTurn
    case (_, Reader) => RTurn
  }

  predicate Enabled(lk: Lock, p: Pos) {
    match p
    case Out | RIn | WIn => false
    case RTurn | WTurn => lk.turn > 0
    case RReq | XReq => lk.rmut > 0
    case RAcq => lk.rcnt == 1 ==> lk.rw > 0
    case WMut | YReq => lk.wmut > 0
    case WTry => lk.wcnt == 1 ==> lk.turn > 0
    case WReq => lk.rw > 0
    case _ => true
  }

  function Advance(k: Kind, lk: Lock, p: Pos): (Lock, Pos)
    requires Enabled(lk, p)
  {
    match p
    case RTurn => (lk.(turn := lk.turn - 1), RReq)
    case RReq => (lk.(rmut := lk.rmut - 1, rcnt := lk.rcnt + 1), RAcq)
    case RAcq => (if lk.rcnt == 1 then lk.(rw := lk.rw - 1) else lk, RRel)
    case RRel => (lk.(rmut := lk.rmut + 1), if k.FirstLast? then RIn else RDone)
    case RDone => (lk.(turn := lk.turn + 1), RIn)
    case XReq => (lk.(rmut := lk.rmut - 1, rcnt := lk.rcnt - 1), XCond)
    case XCond => (if lk.rcnt == 0 then lk.(rw := lk.rw + 1) else lk, XRel)
    case XRel => (lk.(rmut := lk.rmut + 1), Out)
    case WTurn => (lk.(turn := lk.turn - 1), WReq)
    case WMut => (lk.(wmut := lk.wmut - 1, wcnt := lk.wcnt + 1), WTry)
    case WTry => (if lk.wcnt == 1 then lk.(turn := lk.turn - 1) else lk, WUnl)
    case WUnl => (lk.(wmut := lk.wmut + 1), WReq)
    case WReq => (lk.(rw := lk.rw - 1), WIn)
    case WOut => (lk.(rw := lk.rw + 1), if k.FirstLast? then Out else if k.Gate? then YTurn else YReq)
    case YReq => (lk.(wmut := lk.wmut - 1, wcnt := lk.wcnt - 1), YCond)
    case YCond => (if lk.wcnt == 0 then lk.(turn := lk.turn + 1) else lk, YUnl)
    case YUnl => (lk.(wmut := lk.wmut + 1), Out)
    case YTurn => (lk.(turn := lk.turn + 1), Out)
  }

  predicate Can(k: Kind, lk: Lock, p: Pos, a: Act) {
    match a
    case Begin(_) => p == Out
    case Micro => Enabled(lk, p)
    case End => p == RIn || p == WIn
    case Abandon => k.Gate? && p == RIn
  }

  function Do(k: Kind, lk: Lock, p: Pos, a: Act): (Lock, Pos)
    requires Can(k, lk, p, a)
  {
    match a
    case Begin(role) => (lk, Start(k, role))
    case Micro => Advance(k, lk, p)
    case End => (lk, if p == RIn then XReq else WOut)
    case Abandon => (lk.(lost := lk.lost + 1), Out)
  }

  /** A reader that has counted itself does not yet have the semaphore: a writer may still come first, and
      then the reader waits. */
  lemma WriterMayComeFirst(k: Kind)
    ensures var lk := Advance(k, FREE, RReq).0;
      && Enabled(lk, RAcq) && Enabled(lk, WReq)
      && Advance(k, lk, WReq).1 == WIn && !Enabled(Advance(k, lk, WReq).0, RAcq)
      && Advance(k, lk, RAcq).1 == RRel && !Enabled(Advance(k, lk, RAcq).0, WReq)
  {
  }

  // ----- the threads by position

  /** How many threads stand at each position. */
  type Tally = multiset<Pos>

  lemma TallyMove(ps: seq<Pos>, t: nat, q: Pos)
    requires t < |ps|
    ensures ps[t] in multiset(ps)
    ensures multiset(ps[t := q]) == multiset(ps) - multiset{ps[t]} + multiset{q}
  {
    assert ps == ps[..t] + [ps[t]] + ps[t + 1..];
    assert ps[t := q] == ps[..t] + [q] + ps[t + 1..];
  }

  lemma TallyTwo(ps: seq<Pos>, t: nat, u: nat)
    requires t < |ps| && u < |ps| && t != u && ps[t] == ps[u]
    ensures multiset(ps)[ps[t]] >= 2
  {
    var q: Pos := if ps[t] == Out then RIn else Out;
    TallyMove(ps, t, q);
    assert ps[t := q][u] == ps[u];
    assert ps[u] in multiset(ps[t := q]);
  }

  // ----- the invariant

  /** Threads that `rcnt` counts: past the increment and not yet past the decrement. */
  function Counted(m: Tally): nat {
    m[RAcq] + m[RRel] + m[RDone] + m[RIn] + m[XReq]
  }

  /** Readers on whose behalf the reader group holds `rw`. */
  function ReaderGroup(m: Tally): nat {
    m[RRel] + m[RDone] + m[RIn] + m[XReq] + m[XCond]
  }

  /** Writers on whose behalf the writer group of LOPT holds the turnstile. */
  function WriterGroup(m: Tally): nat {
    m[WUnl] + m[WReq] + m[WIn] + m[WOut] + m[YReq] + m[YCond]
  }

  function Holds(n: nat): int {
    if n > 0 then 1 else 0
  }

  predicate ReaderMutex(lk: Lock, m: Tally) {
    && lk.rmut >= 0
    && lk.rmut + m[RAcq] + m[RRel] + m[XCond] + m[XRel] == 1
  }

  predicate ReaderCount(lk: Lock, m: Tally) {
    lk.rcnt == Counted(m) + lk.lost
  }

  predicate SemaphoreHeld(lk: Lock, m: Tally) {
    && lk.rw >= 0
    && lk.rw + m[WIn] + m[WOut] + Holds(ReaderGroup(m) + lk.lost) == 1
  }

  predicate WriterMutex(lk: Lock, m: Tally) {
    && lk.wmut >= 0
    && lk.wmut + m[WTry] + m[WUnl] + m[YCond] + m[YUnl] == 1
  }

  predicate WriterCount(lk: Lock, m: Tally) {
    lk.wcnt == m[WTry] + m[WUnl] + m[WReq] + m[WIn] + m[WOut] + m[YReq]
  }

  predicate WriterCounts(lk: Lock, m: Tally) {
    WriterMutex(lk, m) && WriterCount(lk, m)
  }

  predicate TurnstileHeld(k: Kind, lk: Lock, m: Tally) {
    && lk.turn >= 0
    && lk.turn + m[RReq] + m[RAcq] + m[RRel] + m[RDone]
       + (if k.Gate? then m[WReq] + m[WIn] + m[WOut] + m[YTurn] else Holds(WriterGroup(m))) == 1
  }

  /** Positions that a protocol does not have stay empty; only the gate can be left behind. */
  predicate Shape(k: Kind, lk: Lock, m: Tally) {
    && (!k.WriterPref? ==> m[WMut] + m[WTry] + m[WUnl] + m[YReq] + m[YCond] + m[YUnl] == 0)
    && (!k.Gate? ==> lk.lost == 0 && m[WTurn] + m[YTurn] == 0)
    && (k.FirstLast? ==> m[RTurn] + m[RDone] == 0)
  }

  predicate Inv(k: Kind, lk: Lock, m: Tally) {
    && ReaderMutex(lk, m)
    && ReaderCount(lk, m)
    && SemaphoreHeld(lk, m)
    && Shape(k, lk, m)
    && (k.WriterPref? ==> WriterCounts(lk, m))
    && (!k.FirstLast? ==> TurnstileHeld(k, lk, m))
  }

  /** A fresh lock satisfies the invariant, for any number of threads. */
  lemma {:induction false} InvFresh(k: Kind, ps: seq<Pos>)
    requires forall t :: 0 <= t < |ps| ==> ps[t] == Out
    ensures Inv(k, FREE, multiset(ps))
  {
    forall p | p in multiset(ps)
      ensures p == Out
    {
      assert p in ps;
    }
  }

  function One(b: bool): int {
    if b then 1 else 0
  }

  /** `m'` is `m` after one thread moved from `p` to `q`. */
  predicate Moved(m: Tally, p: Pos, q: Pos, m': Tally) {
    && m'[RTurn] + One(p == RTurn) == m[RTurn] + One(q == RTurn)
    && m'[RReq] + One(p == RReq) == m[RReq] + One(q == RReq)
    && m'[RAcq] + One(p == RAcq) == m[RAcq] + One(q == RAcq)
    && m'[RRel] + One(p == RRel) == m[RRel] + One(q == RRel)
    && m'[RDone] + One(p == RDone) == m[RDone] + One(q == RDone)
    && m'[RIn] + One(p == RIn) == m[RIn] + One(q == RIn)
    && m'[XReq] + One(p == XReq) == m[XReq] + One(q == XReq)
    && m'[XCond] + One(p == XCond) == m[XCond] + One(q == XCond)
    && m'[XRel] + One(p == XRel) == m[XRel] + One(q == XRel)
    && m'[WTurn] + One(p == WTurn) == m[WTurn] + One(q == WTurn)
    && m'[WMut] + One(p == WMut) == m[WMut] + One(q == WMut)
    && m'[WTry] + One(p == WTry) == m[WTry] + One(q == WTry)
    && m'[WUnl] + One(p == WUnl) == m[WUnl] + One(q == WUnl)
    && m'[WReq] + One(p == WReq) == m[WReq] + One(q == WReq)
    && m'[WIn] + One(p == WIn) == m[WIn] + One(q == WIn)
    && m'[WOut] + One(p == WOut) == m[WOut] + One(q == WOut)
    && m'[YReq] + One(p == YReq) == m[YReq] + One(q == YReq)
    && m'[YCond] + One(p == YCond) == m[YCond] + One(q == YCond)
    && m'[YUnl] + One(p == YUnl) == m[YUnl] + One(q == YUnl)
    && m'[YTurn] + One(p == YTurn) == m[YTurn] + One(q == YTurn)
  }

  /** A step of thread at `p` within the protocol, seen from the tally. */
  predicate Stepped(k: Kind, lk: Lock, m: Tally, p: Pos, m': Tally) {
    m[p] > 0 && Enabled(lk, p) && Moved(m, p, Advance(k, lk, p).1, m')
  }

  lemma ReaderMutexMove(k: Kind, lk: Lock, m: Tally, p: Pos, m': Tally)
    requires ReaderMutex(lk, m) && Stepped(k, lk, m, p, m')
    ensures ReaderMutex(Advance(k, lk, p).0, m')
  {
  }

  lemma ReaderCountMove(k: Kind, lk: Lock, m: Tally, p: Pos, m': Tally)
    requires ReaderCount(lk, m) && Stepped(k, lk, m, p, m')
    ensures ReaderCount(Advance(k, lk, p).0, m')
  {
  }

  lemma SemaphoreMove(k: Kind, lk: Lock, m: Tally, p: Pos, m': Tally)
    requires ReaderMutex(lk, m) && ReaderCount(lk, m) && SemaphoreHeld(lk, m) && Stepped(k, lk, m, p, m')
    ensures SemaphoreHeld(Advance(k, lk, p).0, m')
  {
  }

  lemma ShapeMove(k: Kind, lk: Lock, m: Tally, p: Pos, m': Tally)
    requires Shape(k, lk, m) && Stepped(k, lk, m, p, m')
    ensures Shape(k, Advance(k, lk, p).0, m')
  {
  }

  lemma WriterMutexMove(lk: Lock, m: Tally, p: Pos, m': Tally)
    requires WriterMutex(lk, m) && Stepped(WriterPref, lk, m, p, m')
    ensures WriterMutex(Advance(WriterPref, lk, p).0, m')
  {
  }

  lemma WriterCountMove(lk: Lock, m: Tally, p: Pos, m': Tally)
    requires m[WTurn] == 0 && WriterCount(lk, m) && Stepped(WriterPref, lk, m, p, m')
    ensures WriterCount(Advance(WriterPref, lk, p).0, m')
  {
  }

  lemma GateTurnstileMove(lk: Lock, m: Tally, p: Pos, m': Tally)
    requires Shape(Gate, lk, m) && TurnstileHeld(Gate, lk, m) && Stepped(Gate, lk, m, p, m')
    ensures TurnstileHeld(Gate, Advance(Gate, lk, p).0, m')
  {
  }

  lemma TurnstileMove(lk: Lock, m: Tally, p: Pos, m': Tally)
    requires m[WTurn] + m[YTurn] == 0 && WriterCounts(lk, m)
    requires TurnstileHeld(WriterPref, lk, m) && Stepped(WriterPref, lk, m, p, m')
    ensures TurnstileHeld(WriterPref, Advance(WriterPref, lk, p).0, m')
  {
  }

  lemma BeginMove(k: Kind, lk: Lock, m: Tally, role: Role, m': Tally)
    requires Inv(k, lk, m) && Moved(m, Out, Start(k, role), m')
    ensures Inv(k, lk, m')
  {
  }

  lemma EndMove(k: Kind, lk: Lock, m: Tally, p: Pos, m': Tally)
    requires Inv(k, lk, m) && (p == RIn || p == WIn) && Moved(m, p, if p == RIn then XReq else WOut, m')
    ensures Inv(k, lk, m')
  {
  }

  lemma AbandonMove(lk: Lock, m: Tally, m': Tally)
    requires Inv(Gate, lk, m) && Moved(m, RIn, Out, m')
    ensures Inv(Gate, lk.(lost := lk.lost + 1), m')
  {
  }

  lemma TallyAt(m: Tally, p: Pos, q: Pos, x: Pos)
    requires p in m
    ensures (m - multiset{p} + multiset{q})[x] + One(p == x) == m[x] + One(q == x)
  {
  }

  lemma MovedTally(m: Tally, p: Pos, q: Pos, m': Tally)
    requires p in m && m' == m - multiset{p} + multiset{q}
    ensures Moved(m, p, q, m')
  {
    forall x {
      TallyAt(m, p, q, x);
    }
    assert forall x :: m'[x] + One(p == x) == m[x] + One(q == x);
  }

  lemma MicroMove(k: Kind, lk: Lock, m: Tally, p: Pos, m': Tally)
    requires Inv(k, lk, m) && Stepped(k, lk, m, p, m')
    ensures Inv(k, Advance(k, lk, p).0, m')
  {
    ReaderMutexMove(k, lk, m, p, m');
    ReaderCountMove(k, lk, m, p, m');
    SemaphoreMove(k, lk, m, p, m');
    ShapeMove(k, lk, m, p, m');
    match k
    case FirstLast =>
    case WriterPref =>
      WriterMutexMove(lk, m, p, m');
      WriterCountMove(lk, m, p, m');
      TurnstileMove(lk, m, p, m');
    case Gate => GateTurnstileMove(lk, m, p, m');
  }

  lemma InvMove(k: Kind, lk: Lock, m: Tally, p: Pos, a: Act, m': Tally)
    requires Inv(k, lk, m) && m[p] > 0 && Can(k, lk, p, a) && Moved(m, p, Do(k, lk, p, a).1, m')
    ensures Inv(k, Do(k, lk, p, a).0, m')
  {
    match a
    case Begin(role) => BeginMove(k, lk, m, role, m');
    case Micro => MicroMove(k, lk, m, p, m');
    case End => EndMove(k, lk, m, p, m');
    case Abandon => AbandonMove(lk, m, m');
  }

  /** Every step of every thread keeps the invariant of all three protocols. */
  lemma InvStep(k: Kind, lk: Lock, ps: seq<Pos>, t: nat, a: Act)
    requires t < |ps| && Inv(k, lk, multiset(ps)) && Can(k, lk, ps[t], a)
    ensures Inv(k, Do(k, lk, ps[t], a).0, multiset(ps[t := Do(k, lk, ps[t], a).1]))
  {
    var (lk', q) := Do(k, lk, ps[t], a);
    var m, m' := multiset(ps), multiset(ps[t := q]);
    TallyMove(ps, t, q);
    MovedTally(m, ps[t], q, m');
    InvMove(k, lk, m, ps[t], a, m');
  }

  // ----- what the invariant gives

  /** A writer inside excludes every reader inside and every other writer;
      `rcnt` is never negative and `rw` is a binary semaphore. */
  lemma Exclusion(k: Kind, lk: Lock, ps: seq<Pos>, t: nat)
    requires Inv(k, lk, multiset(ps)) && t < |ps| && ps[t] == WIn
    ensures forall u :: 0 <= u < |ps| && u != t ==> ps[u] != WIn && ps[u] != RIn
    ensures lk.rw == 0 && lk.lost == 0
  {
    assert ps[t] in multiset(ps);
    forall u | 0 <= u < |ps| && u != t
      ensures ps[u] != WIn && ps[u] != RIn
    {
      assert ps[u] in multiset(ps);
      if ps[u] == WIn {
        TallyTwo(ps, t, u);
      }
    }
  }

  /** The semaphore is taken exactly when a writer or the reader group has it; and a non-zero
      reader count with no reader still acquiring means that the reader group has it. */
  lemma SemaphoreOwnership(k: Kind, lk: Lock, m: Tally)
    requires Inv(k, lk, m)
    ensures lk.rw == 0 <==> m[WIn] + m[WOut] > 0 || ReaderGroup(m) + lk.lost > 0
    ensures !(m[WIn] + m[WOut] > 0 && ReaderGroup(m) + lk.lost > 0)
    ensures lk.rcnt > 0 && RAcq !in m ==> lk.rw == 0 && WIn !in m && ReaderGroup(m) + lk.lost > 0
    ensures RIn in m ==> lk.rcnt > 0 && lk.rw == 0 && WIn !in m
  {
  }

  /** Under LOPT no reader ever blocks on `LOPT_rw_sem`: it got through the turnstile,
      so no writer can be between its two turnstile steps. */
  lemma ReaderNeverBlocksOnRw(lk: Lock, m: Tally)
    requires Inv(WriterPref, lk, m) && RAcq in m
    ensures Enabled(lk, RAcq)
    ensures WIn !in m && WOut !in m && WReq !in m
  {
  }

  predicate OnTheWayIn(p: Pos) {
    p == RReq || p == RAcq || p == RRel || p == RDone
  }

  lemma TurnstileClosed(lk: Lock, m: Tally)
    requires Inv(WriterPref, lk, m) && WriterGroup(m) > 0
    ensures lk.turn == 0 && m[RReq] == m[RAcq] == m[RRel] == m[RDone] == 0
  {
  }

  lemma LockedOut(lk: Lock, p: Pos, a: Act)
    requires lk.turn == 0 && !OnTheWayIn(p) && Can(WriterPref, lk, p, a)
    ensures Do(WriterPref, lk, p, a).1 != RIn && !OnTheWayIn(Do(WriterPref, lk, p, a).1)
  {
  }

  /** While the writer group owns the turnstile no reader is past it on the way in and none can
      pass it, so no step lets a reader in. */
  lemma WritersShutReadersOut(lk: Lock, ps: seq<Pos>, t: nat, a: Act)
    requires Inv(WriterPref, lk, multiset(ps)) && WriterGroup(multiset(ps)) > 0
    requires t < |ps| && Can(WriterPref, lk, ps[t], a)
    ensures forall u :: 0 <= u < |ps| ==> !OnTheWayIn(ps[u])
    ensures Do(WriterPref, lk, ps[t], a).1 != RIn
    ensures !OnTheWayIn(Do(WriterPref, lk, ps[t], a).1)
  {
    TurnstileClosed(lk, multiset(ps));
    forall u | 0 <= u < |ps|
      ensures !OnTheWayIn(ps[u])
    {
      assert ps[u] in multiset(ps);
    }
    LockedOut(lk, ps[t], a);
  }

  // ----- progress inside one lock

  predicate Busy(p: Pos) {
    p != Out && p != RIn && p != WIn
  }

  predicate Free(p: Pos) {
    p in {RRel, RDone, XCond, XRel, WUnl, WOut, YCond, YUnl, YTurn, RIn, WIn}
  }

  /** With nobody inside and nobody at a step that cannot block, the rest is free to move. */
  lemma QuietLockMoves(k: Kind, lk: Lock, m: Tally, p: Pos)
    requires Inv(k, lk, m) && lk.lost == 0 && p in m && Busy(p)
    requires m[RRel] == m[RDone] == m[XCond] == m[XRel] == m[RIn] == m[WIn] == m[WOut] == 0
    requires m[WUnl] == m[YCond] == m[YUnl] == m[YTurn] == 0
    ensures Enabled(lk, p) || Enabled(lk, if m[RAcq] > 0 then RAcq else if m[RReq] > 0 then RReq
              else if m[XReq] > 0 then XReq else if m[WTry] > 0 then WTry else if m[YReq] > 0 then YReq else WReq)
    ensures Enabled(lk, p) || m[RAcq] + m[RReq] + m[XReq] + m[WTry] + m[YReq] + m[WReq] > 0
  {
  }

  lemma TallyProgress(k: Kind, lk: Lock, m: Tally, p: Pos) returns (q: Pos)
    requires Inv(k, lk, m) && lk.lost == 0 && p in m && Busy(p)
    ensures q in m && (Enabled(lk, q) || q == RIn || q == WIn)
  {
    if q0 :| q0 in m && Free(q0) {
      q := q0;
    } else {
      forall r | Free(r)
        ensures m[r] == 0
      {
      }
      QuietLockMoves(k, lk, m, p);
      q := if Enabled(lk, p) then p else if m[RAcq] > 0 then RAcq else if m[RReq] > 0 then RReq
           else if m[XReq] > 0 then XReq else if m[WTry] > 0 then WTry else if m[YReq] > 0 then YReq else WReq;
    }
  }

  /** If a thread is stuck in the protocol of a lock, then some thread in that protocol can
      move or some thread is inside. Needs that no reader went away without leaving. */
  lemma LocalProgress(k: Kind, lk: Lock, ps: seq<Pos>, t: nat) returns (u: nat)
    requires Inv(k, lk, multiset(ps)) && lk.lost == 0
    requires t < |ps| && Busy(ps[t])
    ensures u < |ps|
    ensures Enabled(lk, ps[u]) || ps[u] == RIn || ps[u] == WIn
  {
    assert ps[t] in multiset(ps);
    var q := TallyProgress(k, lk, multiset(ps), ps[t]);
    assert q in ps;
    u :| 0 <= u < |ps| && ps[u] == q;
  }
}
