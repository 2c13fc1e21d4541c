/** What the readers get in an interleaved run: with no double claim, a user's claims followed by what is
    pending are exactly the references forwarded to it, in order; undisturbed, each retrieval returns
    exactly the tweets behind the references it claimed, in order, as they were posted. */
module InterleavedDelivery {
  import opened Mailbox
  import opened Interleaving
  import Delivery

  // ----- references

  /** What a step forwards to `user`. */
  function ForwardedBy(s: State, e: Event, user: nat): seq<Ref>
    requires Can(s, e.thread, e.act)
  {
    var pc := s.threads[e.thread];
    if e.act.Forward? && s.followers[pc.user][pc.i] == user then [Ref(pc.user, pc.id)] else []
  }

  /** What a step claims for `user`: the list that a retrieval copied and now clears. */
  function ClaimedBy(s: State, e: Event, user: nat): seq<Ref>
    requires Can(s, e.thread, e.act)
  {
    var pc := s.threads[e.thread];
    if e.act.Clear? && pc.user == user then pc.refs else []
  }

  function Forwarded(run: Run, i: nat, user: nat): seq<Ref>
    requires ValidRun(run) && i <= |run.events|
  {
    if i == 0 then []
    else
      assert StepOf(run, i - 1);
      Forwarded(run, i - 1, user) + ForwardedBy(run.states[i - 1], run.events[i - 1], user)
  }

  function Claimed(run: Run, i: nat, user: nat): seq<Ref>
    requires ValidRun(run) && i <= |run.events|
  {
    if i == 0 then []
    else
      assert StepOf(run, i - 1);
      Claimed(run, i - 1, user) + ClaimedBy(run.states[i - 1], run.events[i - 1], user)
  }

  predicate CopiedAlike(pc: Pc, pc': Pc) {
    pc.Copied? && pc'.Copied? && pc.user == pc'.user
  }

  /** A list that is copied is still as it was copied, and if two threads have copied it, it is empty. */
  predicate CopiesAreTrue(s: State) {
    && (forall t :: 0 <= t < |s.threads| && s.threads[t].Copied? && s.threads[t].user < |s.inboxes| ==>
          s.threads[t].refs == s.inboxes[s.threads[t].user])
    && (forall t, u :: 0 <= t < u < |s.threads| && CopiedAlike(s.threads[t], s.threads[u]) ==>
          s.threads[t].user < |s.inboxes| ==> s.inboxes[s.threads[t].user] == [])
  }

  lemma CopyKeepsCopies(s: State, t: nat, user: nat)
    requires CopiesAreTrue(s) && Can(s, t, Copy(user)) && !DoubleClaim(s, Copy(user))
    ensures CopiesAreTrue(Do(s, t, Copy(user)))
  {
  }

  lemma ForwardKeepsCopies(s: State, t: nat)
    requires CopiesAreTrue(s) && Can(s, t, Forward)
    ensures CopiesAreTrue(Do(s, t, Forward))
  {
    assert forall u :: 0 <= u < |s.threads| ==> !s.threads[u].Copied?;
  }

  lemma OthersKeepCopies(s: State, t: nat, a: Act)
    requires CopiesAreTrue(s) && Can(s, t, a) && !a.Copy? && !a.Forward?
    ensures CopiesAreTrue(Do(s, t, a))
  {
  }

  lemma CopiesStep(s: State, t: nat, a: Act)
    requires CopiesAreTrue(s) && Can(s, t, a) && !DoubleClaim(s, a)
    ensures CopiesAreTrue(Do(s, t, a))
  {
    if a.Copy? {
      CopyKeepsCopies(s, t, a.user);
    } else if a.Forward? {
      ForwardKeepsCopies(s, t);
    } else {
      OthersKeepCopies(s, t, a);
    }
  }

  /** Claiming empties, forwarding appends, nothing else touches a pending list. */
  lemma InboxStep(s: State, e: Event, user: nat)
    requires CopiesAreTrue(s) && Can(s, e.thread, e.act) && user < |s.inboxes|
    ensures |Do(s, e.thread, e.act).inboxes| == |s.inboxes|
    ensures ClaimedBy(s, e, user) + Do(s, e.thread, e.act).inboxes[user] == s.inboxes[user] + ForwardedBy(s, e, user)
  {
  }

  lemma Regroup(a: seq<Ref>, b: seq<Ref>, c: seq<Ref>, d: seq<Ref>, e: seq<Ref>, f: seq<Ref>, g: seq<Ref>)
    requires a + b == c + d && e + f == b + g
    ensures (a + e) + f == c + (d + g)
  {
    assert (a + e) + f == a + (e + f);
    assert a + (b + g) == (a + b) + g;
    assert (c + d) + g == c + (d + g);
  }

  /** Every reference forwarded to a user is claimed once, in order, or still pending: in every run
      without a double claim, late follows or not. */
  lemma {:induction false} ClaimsInOrder(run: Run, i: nat, user: nat)
    requires ValidRun(run) && i <= |run.events| && CopiesAreTrue(run.states[0]) && user < |run.states[0].inboxes|
    requires forall j :: 0 <= j < i ==> !DoubleClaim(run.states[j], run.events[j].act)
    ensures CopiesAreTrue(run.states[i]) && |run.states[i].inboxes| == |run.states[0].inboxes|
    ensures Claimed(run, i, user) + run.states[i].inboxes[user] == run.states[0].inboxes[user] + Forwarded(run, i, user)
  {
    if i == 0 {
      assert [] + run.states[0].inboxes[user] == run.states[0].inboxes[user] + [];
    } else {
      assert StepOf(run, i - 1);
      var s, e := run.states[i - 1], run.events[i - 1];
      ClaimsInOrder(run, i - 1, user);
      CopiesStep(s, e.thread, e.act);
      InboxStep(s, e, user);
      Regroup(Claimed(run, i - 1, user), s.inboxes[user], run.states[0].inboxes[user], Forwarded(run, i - 1, user),
              ClaimedBy(s, e, user), run.states[i].inboxes[user], ForwardedBy(s, e, user));
    }
  }

  // ----- contents

  /** The tweet posted under a reference, as its readers see it: stored at the start or pushed since. */
  function Posted(run: Run, i: nat, r: Ref): Option<Tweet>
    requires ValidRun(run) && i <= |run.events|
  {
    if i == 0 then Delivery.Known(run.states[0].store, r)
    else
      var e, pc := run.events[i - 1], Mover(run, i - 1);
      assert StepOf(run, i - 1);
      if e.act.Push? && r == Ref(pc.user, pc.tweet.id) then Some(Delivery.Content(pc.tweet)) else Posted(run, i - 1, r)
  }

  /** An id that is assigned and not yet pushed. */
  predicate InFlight(threads: seq<Pc>, id: nat) {
    exists t :: 0 <= t < |threads| && HasFreshId(threads[t]) && threads[t].tweet.id == id
  }

  /** One reference at one moment: what is stored is what was posted, and nothing is posted under an id
      that is not yet used up. */
  predicate True(s: State, r: Ref, posted: Option<Tweet>) {
    && (Delivery.Known(s.store, r).Some? ==> posted == Delivery.Known(s.store, r))
    && (posted.Some? ==> r.id < s.numTweets && !InFlight(s.threads, r.id))
  }

  /** Only numbering a tweet puts an id in flight, and it is a new one. */
  lemma FewerInFlight(s: State, t: nat, a: Act, id: nat)
    requires Can(s, t, a) && id < s.numTweets && InFlight(Do(s, t, a).threads, id)
    ensures InFlight(s.threads, id)
  {
    var s' := Do(s, t, a);
    var u :| 0 <= u < |s'.threads| && HasFreshId(s'.threads[u]) && s'.threads[u].tweet.id == id;
    assert HasFreshId(s.threads[u]) && s.threads[u].tweet.id == id;
  }

  lemma PushTrue(s: State, t: nat, r: Ref, posted: Option<Tweet>)
    requires Shape(s) && Can(s, t, Push) && True(s, r, posted)
    ensures var pc := s.threads[t];
      var own := r == Ref(pc.user, pc.tweet.id);
      && (own ==> posted == None)
      && True(Do(s, t, Push), r, if own then Some(Delivery.Content(pc.tweet)) else posted)
  {
    var pc, s' := s.threads[t], Do(s, t, Push);
    FindAppend(s.store[pc.user], pc.tweet, r.id);
    assert GoodPc(s, pc);
    assert InFlight(s.threads, pc.tweet.id);
    if InFlight(s'.threads, r.id) {
      var u :| 0 <= u < |s'.threads| && HasFreshId(s'.threads[u]) && s'.threads[u].tweet.id == r.id;
      assert s.threads[u] == s'.threads[u];
      assert r.id != pc.tweet.id by {
        assert u < t || t < u;
      }
    }
  }

  lemma ReleaseTrue(s: State, t: nat, r: Ref, posted: Option<Tweet>)
    requires Shape(s) && Can(s, t, ReleaseOne) && True(s, r, posted)
    ensures True(Do(s, t, ReleaseOne), r, posted)
  {
    var q, s' := s.threads[t].refs[s.threads[t].i], Do(s, t, ReleaseOne);
    assert GoodList(s.store[q.user], s.numTweets);
    ReleaseFind(s.store[q.user], q.id, r.id);
    if posted.Some? && InFlight(s'.threads, r.id) {
      FewerInFlight(s, t, ReleaseOne, r.id);
    }
  }

  lemma OtherTrue(s: State, t: nat, a: Act, r: Ref, posted: Option<Tweet>)
    requires Can(s, t, a) && !a.Push? && !a.ReleaseOne? && True(s, r, posted)
    ensures True(Do(s, t, a), r, posted)
  {
    if posted.Some? && InFlight(Do(s, t, a).threads, r.id) {
      FewerInFlight(s, t, a, r.id);
    }
  }

  /** What was posted is never overwritten. */
  lemma PostedStep(run: Run, i: nat, r: Ref)
    requires ValidRun(run) && i < |run.events| && Shape(run.states[i])
    requires True(run.states[i], r, Posted(run, i, r))
    ensures True(run.states[i + 1], r, Posted(run, i + 1, r))
    ensures Posted(run, i, r).Some? ==> Posted(run, i + 1, r) == Posted(run, i, r)
  {
    assert StepOf(run, i);
    var s, t, a := run.states[i], run.events[i].thread, run.events[i].act;
    if a.Push? {
      PushTrue(s, t, r, Posted(run, i, r));
    } else if a.ReleaseOne? {
      ReleaseTrue(s, t, r, Posted(run, i, r));
    } else {
      OtherTrue(s, t, a, r, Posted(run, i, r));
    }
  }

  ghost predicate AllTrue(run: Run, i: nat)
    requires ValidRun(run) && i <= |run.events|
  {
    forall r :: True(run.states[i], r, Posted(run, i, r))
  }

  lemma StartTrue(run: Run)
    requires ValidRun(run) && Start(run.states[0])
    ensures AllTrue(run, 0)
  {
    var s := run.states[0];
    forall r
      ensures True(s, r, Posted(run, 0, r))
    {
      if Delivery.Known(s.store, r).Some? {
        FindIn(s.store[r.user], r.id);
        assert GoodList(s.store[r.user], s.numTweets);
      }
    }
  }

  lemma {:induction false} PostedRun(run: Run, i: nat)
    requires ValidRun(run) && Start(run.states[0]) && i <= |run.events|
    ensures Good(run.states[i]) && AllTrue(run, i)
  {
    GoodStart(run.states[0]);
    GoodRun(run, i);
    if i == 0 {
      StartTrue(run);
    } else {
      PostedRun(run, i - 1);
      forall r
        ensures True(run.states[i], r, Posted(run, i, r))
      {
        PostedStep(run, i - 1, r);
      }
    }
  }

  // ----- what a retrieval returns

  /** The tweets so far are the ones posted under the first `n` references, in order. */
  predicate Returns(run: Run, i: nat, refs: seq<Ref>, n: nat, got: seq<Tweet>)
    requires ValidRun(run) && i <= |run.events|
  {
    |got| == n <= |refs| && forall k :: 0 <= k < n ==> Posted(run, i, refs[k]) == Some(Delivery.Content(got[k]))
  }

  /** A retrieval has looked up what it should, and a posting thread forwards what was posted. */
  predicate Right(run: Run, i: nat, pc: Pc)
    requires ValidRun(run) && i <= |run.events|
  {
    match pc
    case Looking(refs, n, got) => Returns(run, i, refs, n, got)
    case Releasing(refs, _, got) => Returns(run, i, refs, |refs|, got)
    case Stored(user, id) => Posted(run, i, Ref(user, id)).Some?
    case Forwarding(user, id, _, _) => Posted(run, i, Ref(user, id)).Some?
    case _ => true
  }

  predicate AllRight(run: Run, i: nat)
    requires ValidRun(run) && i <= |run.events|
  {
    forall t :: 0 <= t < |run.states[i].threads| ==> Right(run, i, run.states[i].threads[t])
  }

  ghost predicate Kept(run: Run, i: nat)
    requires ValidRun(run) && i < |run.events|
  {
    forall r :: Posted(run, i, r).Some? ==> Posted(run, i + 1, r) == Posted(run, i, r)
  }

  lemma NothingOverwritten(run: Run, i: nat)
    requires ValidRun(run) && i < |run.events| && Shape(run.states[i]) && AllTrue(run, i)
    ensures Kept(run, i)
  {
    forall r: Ref
      ensures Posted(run, i, r).Some? ==> Posted(run, i + 1, r) == Posted(run, i, r)
    {
      PostedStep(run, i, r);
    }
  }

  lemma RightStays(run: Run, i: nat, pc: Pc)
    requires ValidRun(run) && i < |run.events| && Kept(run, i) && Right(run, i, pc)
    ensures Right(run, i + 1, pc)
  {
  }

  /** While the counters are exact, the tweet found for a claimed reference is the one that was posted. */
  lemma {:induction false} FoundIsPosted(run: Run, i: nat, t: nat, r: Ref)
    requires ValidRun(run) && i <= |run.events| && Good(run.states[i]) && Exact(run.states[i]) && AllTrue(run, i)
    requires t < |run.states[i].threads| && r in Claim(run.states[i].threads[t])
    ensures r.user < |run.states[i].store|
    ensures var found := Find(run.states[i].store[r.user], r.id);
      found.Some? && Posted(run, i, r) == Some(Delivery.Content(found.value))
  {
    ClaimsResolve(run.states[i], t, r);
    assert True(run.states[i], r, Posted(run, i, r));
  }

  lemma {:induction false} LookupRight(run: Run, i: nat, refs: seq<Ref>, n: nat, got: seq<Tweet>, found: Tweet)
    requires ValidRun(run) && i < |run.events| && Kept(run, i)
    requires n < |refs| && Returns(run, i, refs, n, got) && Posted(run, i, refs[n]) == Some(Delivery.Content(found))
    ensures Returns(run, i + 1, refs, n + 1, got + [found])
  {
    RightStays(run, i, Looking(refs, n, got));
  }

  lemma OwnRight(run: Run, i: nat)
    requires ValidRun(run) && i < |run.events|
    requires Good(run.states[i]) && Exact(run.states[i]) && AllTrue(run, i) && Kept(run, i) && AllRight(run, i)
    ensures Right(run, i + 1, Moved(run, i))
  {
    assert StepOf(run, i);
    var s, t := run.states[i], run.events[i].thread;
    var pc := s.threads[t];
    if run.events[i].act == Lookup {
      var r := pc.refs[pc.i];
      assert r in pc.refs;
      FoundIsPosted(run, i, t, r);
      LookupRight(run, i, pc.refs, pc.i, pc.got, Find(s.store[r.user], r.id).value);
    } else {
      RightStays(run, i, pc);
    }
  }

  lemma OthersStay(run: Run, i: nat, u: nat)
    requires ValidRun(run) && i < |run.events| && u < |run.states[i + 1].threads|
    ensures |run.states[i].threads| == |run.states[i + 1].threads|
    ensures u != run.events[i].thread ==> run.states[i + 1].threads[u] == run.states[i].threads[u]
  {
    assert StepOf(run, i);
  }

  lemma EachRight(run: Run, i: nat, u: nat)
    requires ValidRun(run) && i < |run.events| && Kept(run, i) && AllRight(run, i)
    requires Right(run, i + 1, Moved(run, i))
    requires u < |run.states[i + 1].threads|
    ensures Right(run, i + 1, run.states[i + 1].threads[u])
  {
    OthersStay(run, i, u);
    if u != run.events[i].thread {
      RightStays(run, i, run.states[i].threads[u]);
    }
  }

  lemma AllRightStep(run: Run, i: nat)
    requires ValidRun(run) && i < |run.events| && Kept(run, i) && AllRight(run, i)
    requires Right(run, i + 1, Moved(run, i))
    ensures AllRight(run, i + 1)
  {
    var j := i + 1;
    var threads := run.states[j].threads;
    forall u | 0 <= u < |threads|
      ensures Right(run, j, threads[u])
    {
      EachRight(run, i, u);
    }
  }

  lemma RightStep(run: Run, i: nat)
    requires ValidRun(run) && i < |run.events|
    requires Good(run.states[i]) && Exact(run.states[i]) && AllTrue(run, i) && AllRight(run, i)
    ensures AllRight(run, i + 1)
  {
    NothingOverwritten(run, i);
    OwnRight(run, i);
    AllRightStep(run, i);
  }

  lemma {:induction false} RightRun(run: Run, i: nat)
    requires ValidRun(run) && Start(run.states[0]) && i <= |run.events|
    requires forall j :: 0 <= j < i ==> !Disturbs(run.states[j], run.events[j])
    ensures AllRight(run, i)
  {
    if i > 0 {
      RightRun(run, i - 1);
      PostedRun(run, i - 1);
      ExactPrefix(run, i - 1);
      RightStep(run, i - 1);
    }
  }

  predicate AllPosted(run: Run, i: nat, user: nat)
    requires ValidRun(run) && i <= |run.events|
  {
    forall r :: r in Forwarded(run, i, user) ==> Posted(run, i, r).Some?
  }

  lemma ForwardedStep(run: Run, i: nat, user: nat)
    requires ValidRun(run) && i < |run.events| && Kept(run, i) && AllRight(run, i)
    requires AllPosted(run, i, user)
    ensures AllPosted(run, i + 1, user)
  {
    assert StepOf(run, i);
    var s, e, j := run.states[i], run.events[i], i + 1;
    assert Right(run, i, s.threads[e.thread]);
    forall r | r in Forwarded(run, j, user)
      ensures Posted(run, j, r).Some?
    {
      assert r in Forwarded(run, i, user) || r in ForwardedBy(s, e, user);
    }
  }

  lemma {:induction false} ForwardedWasPosted(run: Run, i: nat, user: nat)
    requires ValidRun(run) && Start(run.states[0]) && i <= |run.events|
    requires forall j :: 0 <= j < i ==> !Disturbs(run.states[j], run.events[j])
    ensures AllPosted(run, i, user)
  {
    if i > 0 {
      ForwardedWasPosted(run, i - 1, user);
      RightRun(run, i - 1);
      PostedRun(run, i - 1);
      NothingOverwritten(run, i - 1);
      ForwardedStep(run, i - 1, user);
    }
  }

  /** Delivery in every undisturbed interleaving: a user's claims, in claim order, followed by what is
      pending are what was pending at the start and what was forwarded since; everything forwarded was
      posted; and every retrieval that has finished its lookups returns exactly the tweets posted under
      the references it claimed, in order, with author, id, timestamp and payload. */
  lemma {:induction false} InterleavedDelivery(run: Run, i: nat, user: nat)
    requires ValidRun(run) && Start(run.states[0]) && i <= |run.events| && user < |run.states[0].inboxes|
    requires forall j :: 0 <= j < i ==> !Disturbs(run.states[j], run.events[j])
    ensures |run.states[i].inboxes| == |run.states[0].inboxes|
    ensures Claimed(run, i, user) + run.states[i].inboxes[user] == run.states[0].inboxes[user] + Forwarded(run, i, user)
    ensures AllPosted(run, i, user)
    ensures forall t :: 0 <= t < |run.states[i].threads| && run.states[i].threads[t].Releasing? ==>
      var pc := run.states[i].threads[t]; Returns(run, i, pc.refs, |pc.refs|, pc.got)
  {
    ClaimsInOrder(run, i, user);
    ForwardedWasPosted(run, i, user);
    RightRun(run, i);
    forall t | 0 <= t < |run.states[i].threads| && run.states[i].threads[t].Releasing?
      ensures var pc := run.states[i].threads[t]; Returns(run, i, pc.refs, |pc.refs|, pc.got)
    {
      assert Right(run, i, run.states[i].threads[t]);
    }
  }
}
