/** `customBinarySemaphore`: a counter, a flag, a mutex and a condition variable, used by any number
    of threads. The mutex protects `n` and `canProceed`, so a critical section is one step; going to
    sleep, being woken (also spuriously) and notifying are steps of their own. */
module BinarySemaphore {

  datatype Pc =
    | Idle
    | Entering    // called P, has not yet taken the mutex
    | Sleeping    // waits on the condition variable
    | Woken       // notified or woken spuriously, has not yet taken the mutex again
    | Leaving     // called V, has not yet taken the mutex
    | Notifying   // incremented n, has not yet notified

  /** `ps` and `vs` count the P and V calls whose effect on `n` is done. */
  datatype Sys = Sys(n: int, canProceed: bool, threads: seq<Pc>, ps: nat, vs: nat)

  datatype Act = CallP | CallV | Lock | Spurious | NotifyNobody | Notify(whom: nat)

  predicate Can(s: Sys, t: nat, a: Act) {
    && t < |s.threads|
    && match a
       case CallP | CallV => s.threads[t] == Idle
       case Lock => s.threads[t] in {Entering, Woken, Leaving}
       case Spurious => s.threads[t] == Sleeping
       case NotifyNobody => s.threads[t] == Notifying && Sleeping !in s.threads
       case Notify(whom) => s.threads[t] == Notifying && whom < |s.threads| && s.threads[whom] == Sleeping
  }

  function Flag(n: int): bool {
    n != 0
  }

  /** `n--`, the flag, and the return from P. */
  function Taken(s: Sys, t: nat): Sys
    requires t < |s.threads|
  {
    Sys(s.n - 1, Flag(s.n - 1), s.threads[t := Idle], s.ps + 1, s.vs)
  }

  function Do(s: Sys, t: nat, a: Act): Sys
    requires Can(s, t, a)
  {
    match a
    case CallP => s.(threads := s.threads[t := Entering])
    case CallV => s.(threads := s.threads[t := Leaving])
    case Lock =>
      if s.threads[t] == Leaving then
        Sys(s.n + 1, Flag(s.n + 1), s.threads[t := Notifying], s.ps, s.vs + 1)
      else if s.threads[t] == Entering && s.n > 0 then Taken(s, t)
      else if s.canProceed then Taken(s, t)
      else s.(threads := s.threads[t := Sleeping])
    case Spurious => s.(threads := s.threads[t := Woken])
    case NotifyNobody => s.(threads := s.threads[t := Idle])
    case Notify(whom) => s.(threads := s.threads[t := Idle][whom := Woken])
  }

  /** Any sleeper may wake up without a notification, and goes back to sleep if the flag is not set; and a
      caller that has not slept may take the semaphore before those that were woken. */
  lemma SleepersMayWake(s: Sys, t: nat)
    requires t < |s.threads|
    ensures s.threads[t] == Sleeping ==>
      Can(s, t, Spurious) && Do(s, t, Spurious) == s.(threads := s.threads[t := Woken])
    ensures s.threads[t] == Woken && !s.canProceed ==>
      Can(s, t, Lock) && Do(s, t, Lock) == s.(threads := s.threads[t := Sleeping])
    ensures s.threads[t] == Entering && s.n > 0 ==>
      Can(s, t, Lock) && Do(s, t, Lock).threads[t] == Idle && Do(s, t, Lock).n == s.n - 1
    ensures s.threads[t] == Idle ==> Can(s, t, CallP) && Can(s, t, CallV)
  {
  }

  // ----- what it implements

  /** The atomic semaphore that the rest of the model uses. */
  datatype Atomic = P | V | Stutter

  predicate AtomicStep(n: int, op: Atomic, n': int) {
    match op
    case P => n > 0 && n' == n - 1
    case V => n' == n + 1
    case Stutter => n' == n
  }

  function OperationOf(s: Sys, s': Sys): Atomic {
    if s'.ps > s.ps then P else if s'.vs > s.vs then V else Stutter
  }

  // ----- invariant

  function Pending(threads: seq<Pc>): nat {
    multiset(threads)[Notifying] + multiset(threads)[Woken]
  }

  /** Before the first P or V takes effect; only then does the flag lag behind `n`. */
  predicate Untouched(s: Sys) {
    s.ps == 0 && s.vs == 0 && Sleeping !in s.threads && Woken !in s.threads && Notifying !in s.threads
  }

  predicate Inv(s: Sys) {
    && s.n >= 0
    && s.n == 1 + s.vs - s.ps
    && (s.canProceed ==> s.n > 0)
    && (s.n > 0 && !s.canProceed ==> Untouched(s))
    && (Sleeping in s.threads ==> s.n <= Pending(s.threads))
  }

  predicate Fresh(s: Sys) {
    && s.n == 1 && !s.canProceed && s.ps == 0 && s.vs == 0
    && forall t :: 0 <= t < |s.threads| ==> s.threads[t] == Idle
  }

  lemma Retally(threads: seq<Pc>, t: nat, pc: Pc)
    requires t < |threads|
    ensures multiset(threads[t := pc]) == multiset(threads) - multiset{threads[t]} + multiset{pc}
    ensures threads[t] in multiset(threads)
  {
    assert threads == threads[..t] + [threads[t]] + threads[t + 1..];
    assert threads[t := pc] == threads[..t] + [pc] + threads[t + 1..];
  }

  /** Only `pc` can be new among the positions after a move to `pc`. */
  lemma PositionsBefore(threads: seq<Pc>, t: nat, pc: Pc)
    requires t < |threads|
    ensures forall x :: x in threads[t := pc] ==> x == pc || x in threads
  {
  }

  lemma CallStep(s: Sys, t: nat, pc: Pc)
    requires Inv(s) && t < |s.threads|
    requires if pc == Woken then s.threads[t] == Sleeping else s.threads[t] == Idle && pc in {Entering, Leaving}
    ensures Inv(s.(threads := s.threads[t := pc]))
  {
    Retally(s.threads, t, pc);
    PositionsBefore(s.threads, t, pc);
  }

  lemma LockStep(s: Sys, t: nat)
    requires Inv(s) && Can(s, t, Lock)
    ensures Inv(Do(s, t, Lock))
    ensures Do(s, t, Lock).ps > s.ps ==> s.n > 0
  {
    var pc := Do(s, t, Lock).threads[t];
    Retally(s.threads, t, pc);
    PositionsBefore(s.threads, t, pc);
  }

  lemma NotifyStep(s: Sys, t: nat, a: Act)
    requires Inv(s) && Can(s, t, a) && (a.Notify? || a.NotifyNobody?)
    ensures Inv(Do(s, t, a))
  {
    Retally(s.threads, t, Idle);
    PositionsBefore(s.threads, t, Idle);
    if a.Notify? {
      Retally(s.threads[t := Idle], a.whom, Woken);
      PositionsBefore(s.threads[t := Idle], a.whom, Woken);
    }
  }

  /** One step keeps the invariant, and is a P, a V or nothing on the atomic semaphore. */
  lemma StepRefines(s: Sys, t: nat, a: Act)
    requires Inv(s) && Can(s, t, a)
    ensures Inv(Do(s, t, a))
    ensures AtomicStep(s.n, OperationOf(s, Do(s, t, a)), Do(s, t, a).n)
  {
    match a
    case CallP => CallStep(s, t, Entering);
    case CallV => CallStep(s, t, Leaving);
    case Spurious => CallStep(s, t, Woken);
    case Lock => LockStep(s, t);
    case _ => NotifyStep(s, t, a);
  }

  // ----- runs

  ghost predicate ValidRun(states: seq<Sys>) {
    && states != []
    && Fresh(states[0])
    && forall i :: 0 <= i < |states| - 1 ==> exists t, a :: Can(states[i], t, a) && states[i + 1] == Do(states[i], t, a)
  }

  /** Over any run: `n` is 1 plus the V calls minus the P calls that took effect and never negative,
      the flag says `n > 0` from the first operation on, and no wake-up is lost: if the semaphore is
      free while a thread sleeps, a notification is on its way or a thread is already awake, however
      many other threads barge in. */
  lemma {:induction false} NoLostWakeUp(states: seq<Sys>, i: nat)
    requires ValidRun(states) && i < |states|
    ensures var s := states[i];
      && Inv(s)
      && s.n == 1 + s.vs - s.ps >= 0
      && (s.ps + s.vs > 0 ==> (s.canProceed <==> s.n > 0))
      && (s.n > 0 && Sleeping in s.threads ==> Notifying in s.threads || Woken in s.threads)
  {
    if i == 0 {
      assert Sleeping !in states[0].threads;
    } else {
      NoLostWakeUp(states, i - 1);
      var t, a :| Can(states[i - 1], t, a) && states[i] == Do(states[i - 1], t, a);
      StepRefines(states[i - 1], t, a);
    }
    var m := multiset(states[i].threads);
    assert m[Notifying] > 0 <==> Notifying in states[i].threads;
    assert m[Woken] > 0 <==> Woken in states[i].threads;
  }

  /** In every state of every run the semaphore is binary exactly if no more V than P calls have taken
      effect so far. (That the server's locks use it so is `LockOrder.SemaphoresAreBinary`.) */
  lemma BinaryIffPaired(states: seq<Sys>, i: nat)
    requires ValidRun(states) && i < |states|
    ensures states[i].n in {0, 1} <==> states[i].vs <= states[i].ps
  {
    NoLostWakeUp(states, i);
  }

  /** A free semaphore with a caller of P that is not asleep lets it through at once; with all of them
      asleep, some thread is about to notify one. So a free semaphore never strands its waiters. */
  lemma FreeSemaphoreAdmits(s: Sys) returns (t: nat, a: Act)
    requires Inv(s) && s.n > 0 && (Sleeping in s.threads || Woken in s.threads || Entering in s.threads)
    ensures Can(s, t, a)
    ensures Do(s, t, a).ps == s.ps + 1 || (a.Notify? && Do(s, t, a).threads[a.whom] == Woken)
  {
    if Entering in s.threads {
      t :| 0 <= t < |s.threads| && s.threads[t] == Entering;
      a := Lock;
    } else if Woken in s.threads && s.canProceed {
      t :| 0 <= t < |s.threads| && s.threads[t] == Woken;
      a := Lock;
    } else {
      assert multiset(s.threads)[Woken] == 0;
      assert Notifying in multiset(s.threads);
      assert Notifying in s.threads;
      t :| 0 <= t < |s.threads| && s.threads[t] == Notifying;
      var whom :| 0 <= whom < |s.threads| && s.threads[whom] == Sleeping;
      a := Notify(whom);
    }
  }
}
