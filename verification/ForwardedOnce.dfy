/** Who gets a posted tweet in an interleaved run, and how often: a finished post has gone to each user as
    often as the user stood in the author's list. The lists stay free of repetitions exactly as long as
    no two follows of one reader pass the check before either of them is entered, and both are entered. */
module ForwardedOnce {
  import opened Mailbox
  import opened Interleaving
  import opened InterleavedDelivery

  // ----- follower lists

  predicate Distinct(list: seq<nat>) {
    forall i, j :: 0 <= i < j < |list| ==> list[i] != list[j]
  }

  predicate AllDistinct(s: State) {
    forall a :: 0 <= a < |s.followers| ==> Distinct(s.followers[a])
  }

  /** A follow is entered although the reader has meanwhile become a follower. */
  predicate DoubleFollow(s: State, e: Event) {
    && e.act.Follow? && e.thread < |s.threads| && s.threads[e.thread].Checked?
    && s.threads[e.thread].target < |s.followers|
    && s.threads[e.thread].follower in s.followers[s.threads[e.thread].target]
  }

  lemma DistinctAppend(list: seq<nat>, x: nat)
    ensures Distinct(list + [x]) <==> Distinct(list) && x !in list
  {
    var longer := list + [x];
    assert forall i :: 0 <= i < |list| ==> longer[i] == list[i];
    if x in list {
      var i :| 0 <= i < |list| && list[i] == x;
      assert longer[i] == longer[|list|];
    }
    if !Distinct(list) {
      var i, j :| 0 <= i < j < |list| && list[i] == list[j];
      assert longer[i] == longer[j];
    }
  }

  lemma DistinctStep(s: State, e: Event)
    requires Can(s, e.thread, e.act)
    ensures AllDistinct(Do(s, e.thread, e.act)) <==> AllDistinct(s) && !DoubleFollow(s, e)
  {
    var s' := Do(s, e.thread, e.act);
    if e.act.Follow? {
      var pc := s.threads[e.thread];
      DistinctAppend(s.followers[pc.target], pc.follower);
      assert forall a :: 0 <= a < |s.followers| && a != pc.target ==> s'.followers[a] == s.followers[a];
      assert s'.followers[pc.target] == s.followers[pc.target] + [pc.follower];
    }
  }

  lemma {:induction false} DistinctPrefix(run: Run, i: nat)
    requires ValidRun(run) && i < |run.states| && AllDistinct(run.states[i])
    ensures forall j :: 0 <= j < i ==> !DoubleFollow(run.states[j], run.events[j])
  {
    if i > 0 {
      assert StepOf(run, i - 1);
      DistinctStep(run.states[i - 1], run.events[i - 1]);
      DistinctPrefix(run, i - 1);
    }
  }

  lemma {:induction false} DistinctRun(run: Run, i: nat)
    requires ValidRun(run) && i < |run.states| && AllDistinct(run.states[0])
    requires forall j :: 0 <= j < i ==> !DoubleFollow(run.states[j], run.events[j])
    ensures AllDistinct(run.states[i])
  {
    if i > 0 {
      DistinctRun(run, i - 1);
      assert StepOf(run, i - 1);
      DistinctStep(run.states[i - 1], run.events[i - 1]);
    }
  }

  /** All follower lists stay free of repetitions in a run if and only if no step of it is a double
      follow. */
  lemma FollowersDistinctIff(run: Run)
    requires ValidRun(run) && AllDistinct(run.states[0])
    ensures (forall i :: 0 <= i < |run.states| ==> AllDistinct(run.states[i]))
      <==> (forall j :: 0 <= j < |run.events| ==> !DoubleFollow(run.states[j], run.events[j]))
  {
    if forall j :: 0 <= j < |run.events| ==> !DoubleFollow(run.states[j], run.events[j]) {
      forall i | 0 <= i < |run.states|
        ensures AllDistinct(run.states[i])
      {
        DistinctRun(run, i);
      }
    } else if AllDistinct(run.states[|run.events|]) {
      DistinctPrefix(run, |run.events|);
    }
  }

  // ----- where a double follow comes from

  /** At step `k` thread `u` enters the follow that thread `t` has also checked, and enters at step `i`. */
  predicate Overlap(run: Run, k: nat, i: nat, t: nat, u: nat)
    requires ValidRun(run)
  {
    && k < i < |run.events| && u != t && run.events[k] == Event(u, Follow)
    && t < |run.states[k].threads| && u < |run.states[k].threads| && t < |run.states[i].threads|
    && run.states[k].threads[t] == run.states[k].threads[u] == run.states[i].threads[t]
  }

  predicate FollowsOf(s: State, t: nat) {
    t < |s.threads| && s.threads[t].Checked? && s.threads[t].target < |s.followers|
  }

  /** A checked follow is not yet in the list, unless a step has put it there. */
  lemma CheckedStep(s: State, e: Event, t: nat)
    requires Can(s, e.thread, e.act) && FollowsOf(Do(s, e.thread, e.act), t)
    ensures var s' := Do(s, e.thread, e.act);
      var pc := s'.threads[t];
      || pc.follower !in s'.followers[pc.target]
      || (e.thread != t && s.threads[t] == pc && pc.target < |s.followers| && pc.follower in s.followers[pc.target])
      || (e.thread != t && s.threads[t] == pc && e.act == Follow && s.threads[e.thread] == pc)
  {
  }

  lemma {:induction false} WhoFollowedBefore(run: Run, n: nat, t: nat) returns (k: nat, u: nat)
    requires ValidRun(run) && Start(run.states[0]) && n <= |run.events| && FollowsOf(run.states[n], t)
    requires run.states[n].threads[t].follower in run.states[n].followers[run.states[n].threads[t].target]
    ensures k < n && u != t && run.events[k] == Event(u, Follow)
    ensures t < |run.states[k].threads| && u < |run.states[k].threads|
    ensures run.states[k].threads[t] == run.states[k].threads[u] == run.states[n].threads[t]
  {
    assert n > 0;
    var s, e := run.states[n - 1], run.events[n - 1];
    assert StepOf(run, n - 1);
    CheckedStep(s, e, t);
    if e.act == Follow && s.threads[e.thread] == run.states[n].threads[t] {
      k, u := n - 1, e.thread;
    } else {
      k, u := WhoFollowedBefore(run, n - 1, t);
    }
  }

  lemma {:induction false} FollowersStay(run: Run, k: nat, i: nat, author: nat, user: nat)
    requires ValidRun(run) && k <= i < |run.states|
    requires author < |run.states[k].followers| && user in run.states[k].followers[author]
    ensures author < |run.states[i].followers| && user in run.states[i].followers[author]
  {
    if k < i {
      FollowersStay(run, k, i - 1, author, user);
      assert StepOf(run, i - 1);
    }
  }

  /** A follow is entered twice if and only if two threads have passed the check for it before either of
      them was entered. */
  lemma DoubleFollowIffOverlap(run: Run, i: nat)
    requires ValidRun(run) && Start(run.states[0]) && i < |run.events| && run.events[i].act == Follow
    ensures DoubleFollow(run.states[i], run.events[i])
      <==> exists k: nat, u: nat :: Overlap(run, k, i, run.events[i].thread, u)
  {
    var t := run.events[i].thread;
    assert StepOf(run, i);
    if DoubleFollow(run.states[i], run.events[i]) {
      var k, u := WhoFollowedBefore(run, i, t);
      assert Overlap(run, k, i, t, u);
    }
    if k: nat, u: nat :| Overlap(run, k, i, t, u) {
      var pc := run.states[i].threads[t];
      assert StepOf(run, k);
      FollowersStay(run, k + 1, i, pc.target, pc.follower);
    }
  }

  /** So the lists stay free of repetitions in a run if and only if no two follows overlap like that. */
  lemma FollowersDistinctIffNoOverlap(run: Run)
    requires ValidRun(run) && Start(run.states[0]) && AllDistinct(run.states[0])
    ensures (forall i :: 0 <= i < |run.states| ==> AllDistinct(run.states[i]))
      <==> (forall k: nat, i: nat, t: nat, u: nat :: Overlap(run, k, i, t, u) ==> run.events[i] != Event(t, Follow))
  {
    FollowersDistinctIff(run);
    if i: nat :| i < |run.events| && DoubleFollow(run.states[i], run.events[i]) {
      DoubleFollowIffOverlap(run, i);
      assert run.events[i] == Event(run.events[i].thread, Follow);
    }
    if k: nat, i: nat, t: nat, u: nat :| Overlap(run, k, i, t, u) && run.events[i] == Event(t, Follow) {
      DoubleFollowIffOverlap(run, i);
    }
  }

  // ----- how often a post has gone to a user

  predicate Sending(pc: Pc) {
    pc.Stored? || pc.Forwarding?
  }

  /** An id that was assigned and is not on its way to the store any more. */
  predicate Used(s: State, id: nat) {
    id < s.numTweets && !InFlight(s.threads, id)
  }

  lemma UsedStep(s: State, t: nat, a: Act, id: nat)
    requires Can(s, t, a) && Used(s, id)
    ensures Used(Do(s, t, a), id)
  {
    if InFlight(Do(s, t, a).threads, id) {
      FewerInFlight(s, t, a, id);
    }
  }

  /** How often a sending thread has sent its tweet to `user` so far. */
  function Sent(s: State, pc: Pc, user: nat): nat {
    if pc.Forwarding? && pc.user < |s.followers| && pc.i <= |s.followers[pc.user]|
    then multiset(s.followers[pc.user][..pc.i])[user] else 0
  }

  predicate Counts(s: State, forwarded: seq<Ref>, pc: Pc, user: nat) {
    Sending(pc) ==> Used(s, pc.id) && multiset(forwarded)[Ref(pc.user, pc.id)] == Sent(s, pc, user)
  }

  /** One user's forwarded references at one moment. */
  predicate Tallied(s: State, forwarded: seq<Ref>, user: nat) {
    && (forall k :: 0 <= k < |forwarded| ==> Used(s, forwarded[k].id))
    && (forall t :: 0 <= t < |s.threads| ==> Counts(s, forwarded, s.threads[t], user))
  }

  lemma NoneInFlight(s: State, forwarded: seq<Ref>, user: nat, r: Ref)
    requires Tallied(s, forwarded, user) && InFlight(s.threads, r.id)
    ensures multiset(forwarded)[r] == 0
  {
    assert forall k :: 0 <= k < |forwarded| ==> forwarded[k] != r;
    assert r !in forwarded;
  }

  lemma UsedRefs(s: State, e: Event, forwarded: seq<Ref>, user: nat)
    requires Can(s, e.thread, e.act) && Tallied(s, forwarded, user)
    ensures var more := forwarded + ForwardedBy(s, e, user);
      forall k :: 0 <= k < |more| ==> Used(Do(s, e.thread, e.act), more[k].id)
  {
    var more := forwarded + ForwardedBy(s, e, user);
    assert Counts(s, forwarded, s.threads[e.thread], user);
    forall k | 0 <= k < |more|
      ensures Used(Do(s, e.thread, e.act), more[k].id)
    {
      UsedStep(s, e.thread, e.act, more[k].id);
    }
  }

  lemma ForwardCounts(s: State, t: nat, forwarded: seq<Ref>, user: nat)
    requires Shape(s) && Can(s, t, Forward) && Tallied(s, forwarded, user)
    ensures var s' := Do(s, t, Forward);
      Counts(s', forwarded + ForwardedBy(s, Event(t, Forward), user), s'.threads[t], user)
  {
    var pc := s.threads[t];
    var to := s.followers[pc.user];
    assert Counts(s, forwarded, pc, user);
    assert to[..pc.i + 1] == to[..pc.i] + [to[pc.i]];
    UsedStep(s, t, Forward, pc.id);
  }

  /** A pushed id is in flight no more. */
  lemma PushLands(s: State, t: nat)
    requires Shape(s) && Can(s, t, Push)
    ensures InFlight(s.threads, s.threads[t].tweet.id)
    ensures Used(Do(s, t, Push), s.threads[t].tweet.id)
  {
    var pc, s' := s.threads[t], Do(s, t, Push);
    assert GoodPc(s, pc);
    forall u | 0 <= u < |s'.threads| && HasFreshId(s'.threads[u])
      ensures s'.threads[u].tweet.id != pc.tweet.id
    {
      assert s.threads[u] == s'.threads[u];
      assert u < t || t < u;
    }
  }

  lemma PushCounts(s: State, t: nat, forwarded: seq<Ref>, user: nat)
    requires Shape(s) && Can(s, t, Push) && Tallied(s, forwarded, user)
    ensures var s' := Do(s, t, Push); Counts(s', forwarded, s'.threads[t], user)
  {
    PushLands(s, t);
    NoneInFlight(s, forwarded, user, Ref(s.threads[t].user, s.threads[t].tweet.id));
  }

  lemma OwnCounts(s: State, e: Event, forwarded: seq<Ref>, user: nat)
    requires Shape(s) && Can(s, e.thread, e.act) && Tallied(s, forwarded, user)
    ensures var s' := Do(s, e.thread, e.act);
      Counts(s', forwarded + ForwardedBy(s, e, user), s'.threads[e.thread], user)
  {
    var t := e.thread;
    assert Counts(s, forwarded, s.threads[t], user);
    assert forwarded + [] == forwarded;
    if e.act.Forward? {
      ForwardCounts(s, t, forwarded, user);
    } else if e.act.Push? {
      PushCounts(s, t, forwarded, user);
    } else if e.act.Recount? {
      UsedStep(s, t, Recount, s.threads[t].id);
      assert s.followers[s.threads[t].user][..0] == [];
    }
  }

  /** Follower lists only grow at their end. */
  lemma PrefixStays(s: State, t: nat, a: Act, author: nat, k: nat)
    requires Can(s, t, a) && author < |s.followers| && k <= |s.followers[author]|
    ensures author < |Do(s, t, a).followers| && k <= |Do(s, t, a).followers[author]|
    ensures Do(s, t, a).followers[author][..k] == s.followers[author][..k]
  {
  }

  /** While one thread forwards, no other one is sending. */
  lemma OthersCounts(s: State, e: Event, forwarded: seq<Ref>, user: nat, u: nat)
    requires Shape(s) && Can(s, e.thread, e.act) && Tallied(s, forwarded, user)
    requires u < |s.threads| && u != e.thread
    ensures var s' := Do(s, e.thread, e.act);
      s'.threads[u] == s.threads[u] && Counts(s', forwarded + ForwardedBy(s, e, user), s'.threads[u], user)
  {
    var pc := s.threads[u];
    assert Counts(s, forwarded, pc, user);
    assert GoodPc(s, pc);
    assert Posting(pc) <==> s.poster == Some(u);
    assert Posting(s.threads[e.thread]) <==> s.poster == Some(e.thread);
    assert forwarded + [] == forwarded;
    if Sending(pc) {
      UsedStep(s, e.thread, e.act, pc.id);
      if pc.Forwarding? {
        PrefixStays(s, e.thread, e.act, pc.user, pc.i);
      }
    }
  }

  lemma TalliedStep(s: State, e: Event, forwarded: seq<Ref>, user: nat)
    requires Shape(s) && Can(s, e.thread, e.act) && Tallied(s, forwarded, user)
    ensures Tallied(Do(s, e.thread, e.act), forwarded + ForwardedBy(s, e, user), user)
  {
    var s', more := Do(s, e.thread, e.act), forwarded + ForwardedBy(s, e, user);
    UsedRefs(s, e, forwarded, user);
    forall u | 0 <= u < |s'.threads|
      ensures Counts(s', more, s'.threads[u], user)
    {
      if u == e.thread {
        OwnCounts(s, e, forwarded, user);
      } else {
        OthersCounts(s, e, forwarded, user, u);
      }
    }
  }

  lemma {:induction false} TalliedRun(run: Run, i: nat, user: nat)
    requires ValidRun(run) && Start(run.states[0]) && i <= |run.events|
    ensures Shape(run.states[i]) && Tallied(run.states[i], Forwarded(run, i, user), user)
  {
    GoodStart(run.states[0]);
    GoodRun(run, i);
    if i > 0 {
      TalliedRun(run, i - 1, user);
      assert StepOf(run, i - 1);
      TalliedStep(run.states[i - 1], run.events[i - 1], Forwarded(run, i - 1, user), user);
    }
  }

  /** In every run, disturbed or not: when a post is finished, its reference has gone to each user as
      often as the user stands in the part of the author's list that was counted. */
  lemma {:induction false} ForwardedAtUnlock(run: Run, i: nat, user: nat)
    requires ValidRun(run) && Start(run.states[0]) && i < |run.events| && run.events[i].act == Unlock
    ensures var s, pc := run.states[i], Mover(run, i);
      && pc.Forwarding? && pc.user < |s.followers| && pc.total <= |s.followers[pc.user]|
      && multiset(Forwarded(run, i, user))[Ref(pc.user, pc.id)] == multiset(s.followers[pc.user][..pc.total])[user]
  {
    assert StepOf(run, i);
    var s, pc := run.states[i], Mover(run, i);
    TalliedRun(run, i, user);
    assert GoodPc(s, pc) && Counts(s, Forwarded(run, i, user), pc, user);
  }

  // ----- and never again

  /** The post is over: nobody sends this reference any more. */
  predicate Finished(s: State, r: Ref) {
    Used(s, r.id) && forall t :: 0 <= t < |s.threads| && Sending(s.threads[t]) ==> s.threads[t].id != r.id
  }

  lemma FinishedStep(s: State, e: Event, r: Ref, user: nat)
    requires Can(s, e.thread, e.act) && Finished(s, r)
    ensures Finished(Do(s, e.thread, e.act), r) && r !in ForwardedBy(s, e, user)
  {
    UsedStep(s, e.thread, e.act, r.id);
    if e.act.Push? {
      assert HasFreshId(s.threads[e.thread]);
    }
  }

  /** Nobody sends it any more, and it has gone to `user` so often. */
  predicate Settled(run: Run, i: nat, r: Ref, user: nat, n: nat)
    requires ValidRun(run) && i <= |run.events|
  {
    Finished(run.states[i], r) && multiset(Forwarded(run, i, user))[r] == n
  }

  lemma SettledNext(run: Run, i: nat, r: Ref, user: nat, n: nat)
    requires ValidRun(run) && i < |run.events| && Settled(run, i, r, user, n)
    ensures Settled(run, i + 1, r, user, n)
  {
    assert StepOf(run, i);
    FinishedStep(run.states[i], run.events[i], r, user);
    assert r !in multiset(ForwardedBy(run.states[i], run.events[i], user));
  }

  lemma {:induction false} SettledStays(run: Run, i: nat, j: nat, r: Ref, user: nat, n: nat)
    requires ValidRun(run) && i <= j <= |run.events| && Settled(run, i, r, user, n)
    ensures Settled(run, j, r, user, n)
    decreases j - i
  {
    if i < j {
      SettledNext(run, i, r, user, n);
      SettledStays(run, i + 1, j, r, user, n);
    }
  }

  lemma UnlockFinishes(s: State, t: nat, forwarded: seq<Ref>, user: nat)
    requires Shape(s) && Can(s, t, Unlock) && Tallied(s, forwarded, user)
    ensures Finished(Do(s, t, Unlock), Ref(s.threads[t].user, s.threads[t].id))
  {
    var pc, s' := s.threads[t], Do(s, t, Unlock);
    assert Counts(s, forwarded, pc, user);
    UsedStep(s, t, Unlock, pc.id);
    assert Posting(pc) <==> s.poster == Some(t);
    forall u | 0 <= u < |s'.threads|
      ensures !Sending(s'.threads[u])
    {
      assert Posting(s.threads[u]) <==> s.poster == Some(u);
      assert u != t ==> s'.threads[u] == s.threads[u];
    }
  }

  // ----- the recipients that were counted

  /** The author's list when the recipients of the latest post were counted. */
  function ListAtCount(run: Run, i: nat): seq<nat>
    requires ValidRun(run) && i <= |run.events|
  {
    if i == 0 then []
    else if run.events[i - 1].act == Count then
      assert StepOf(run, i - 1);
      run.states[i - 1].followers[Mover(run, i - 1).user]
    else ListAtCount(run, i - 1)
  }

  predicate Recipients(s: State, pc: Pc, list: seq<nat>) {
    match pc
    case Counted(user, _) => user < |s.followers| && s.followers[user] == list
    case Stored(user, _) => user < |s.followers| && s.followers[user] == list
    case Forwarding(user, _, total, _) =>
      user < |s.followers| && total <= |s.followers[user]| && s.followers[user][..total] == list
    case _ => true
  }

  lemma RecipientsStep(s: State, e: Event, u: nat, list: seq<nat>)
    requires Shape(s) && Can(s, e.thread, e.act) && !LateFollow(s, e.thread, e.act)
    requires u < |s.threads| && Recipients(s, s.threads[u], list)
    ensures e.act != Count ==> Recipients(Do(s, e.thread, e.act), Do(s, e.thread, e.act).threads[u], list)
  {
    var pc, s' := s.threads[u], Do(s, e.thread, e.act);
    assert Posting(pc) <==> s.poster == Some(u);
    if pc.Forwarding? {
      PrefixStays(s, e.thread, e.act, pc.user, pc.total);
    }
    if pc.Stored? && u == e.thread {
      assert s.followers[pc.user][..|s.followers[pc.user]|] == s.followers[pc.user];
    }
  }

  lemma CountRecipients(s: State, t: nat, u: nat)
    requires Shape(s) && Can(s, t, Count) && u < |s.threads|
    ensures Recipients(Do(s, t, Count), Do(s, t, Count).threads[u], s.followers[s.threads[t].user])
  {
    assert Posting(s.threads[u]) <==> s.poster == Some(u);
    assert Posting(s.threads[t]) <==> s.poster == Some(t);
  }

  lemma {:induction false} RecipientsRun(run: Run, i: nat, u: nat)
    requires ValidRun(run) && Start(run.states[0]) && i <= |run.events| && u < |run.states[i].threads|
    requires forall j :: 0 <= j < i ==> !LateFollow(run.states[j], run.events[j].thread, run.events[j].act)
    ensures Recipients(run.states[i], run.states[i].threads[u], ListAtCount(run, i))
  {
    GoodStart(run.states[0]);
    if i > 0 {
      assert StepOf(run, i - 1);
      var s, e := run.states[i - 1], run.events[i - 1];
      GoodRun(run, i - 1);
      if e.act == Count {
        CountRecipients(s, e.thread, u);
      } else {
        RecipientsRun(run, i - 1, u);
        RecipientsStep(s, e, u, ListAtCount(run, i - 1));
      }
    }
  }

  // ----- exactly once

  /** An id on its way or being sent was assigned in this run. */
  predicate Recent(pc: Pc, base: nat) {
    (HasFreshId(pc) ==> pc.tweet.id >= base) && (Sending(pc) ==> pc.id >= base)
  }

  lemma {:induction false} RecentRun(run: Run, i: nat, t: nat)
    requires ValidRun(run) && Start(run.states[0]) && i <= |run.events| && t < |run.states[i].threads|
    ensures Recent(run.states[i].threads[t], run.states[0].numTweets)
    ensures run.states[i].numTweets >= run.states[0].numTweets
  {
    if i > 0 {
      assert StepOf(run, i - 1);
      RecentRun(run, i - 1, t);
    }
  }

  /** What is pending at the start has been numbered before. */
  lemma PendingIsOlder(s: State, user: nat, r: Ref)
    requires Start(s) && user < |s.inboxes| && r in s.inboxes[user]
    ensures r.id < s.numTweets
  {
    AllRefsContains(s.inboxes, user);
    assert r in multiset(s.inboxes[user]);
    assert CountOf(s.store, r) == AllRefs(s.inboxes)[r];
    FindIn(s.store[r.user], r.id);
    assert GoodList(s.store[r.user], s.numTweets);
  }

  lemma {:induction false} DistinctCount(list: seq<nat>, x: nat)
    requires Distinct(list)
    ensures multiset(list)[x] == if x in list then 1 else 0
  {
    if list != [] {
      var init, last := list[..|list| - 1], list[|list| - 1];
      assert list == init + [last];
      DistinctAppend(init, last);
      DistinctCount(init, x);
    }
  }

  /** No step so far is a double claim, a late follow or a double follow. */
  predicate Calm(run: Run, n: nat)
    requires ValidRun(run) && n <= |run.events|
  {
    forall j :: 0 <= j < n ==> !Disturbs(run.states[j], run.events[j]) && !DoubleFollow(run.states[j], run.events[j])
  }

  /** A post that is being finished has gone once to each recipient and to nobody else. */
  lemma {:induction false} OncePerRecipient(run: Run, i: nat, user: nat)
    requires ValidRun(run) && Start(run.states[0]) && AllDistinct(run.states[0])
    requires i < |run.events| && run.events[i].act == Unlock && Calm(run, i)
    ensures var pc := Mover(run, i);
      && pc.Forwarding?
      && multiset(Forwarded(run, i, user))[Ref(pc.user, pc.id)] == if user in ListAtCount(run, i) then 1 else 0
  {
    assert StepOf(run, i);
    ForwardedAtUnlock(run, i, user);
    RecipientsRun(run, i, run.events[i].thread);
    DistinctRun(run, i);
    DistinctCount(ListAtCount(run, i), user);
  }

  lemma {:induction false} UnlockSettles(run: Run, i: nat, user: nat)
    requires ValidRun(run) && Start(run.states[0]) && i < |run.events| && run.events[i].act == Unlock
    ensures var pc := Mover(run, i);
      && pc.Forwarding?
      && var r := Ref(pc.user, pc.id); Settled(run, i + 1, r, user, multiset(Forwarded(run, i, user))[r])
  {
    assert StepOf(run, i);
    TalliedRun(run, i, user);
    UnlockFinishes(run.states[i], run.events[i].thread, Forwarded(run, i, user), user);
    assert Forwarded(run, i + 1, user) == Forwarded(run, i, user);
  }

  /** How often a finished post has gone to a user, at any time since. */
  lemma {:induction false} SentOnce(run: Run, i: nat, j: nat, user: nat)
    requires ValidRun(run) && Start(run.states[0]) && AllDistinct(run.states[0])
    requires i < j <= |run.events| && run.events[i].act == Unlock && Calm(run, i)
    ensures var pc := Mover(run, i);
      && pc.Forwarding?
      && multiset(Forwarded(run, j, user))[Ref(pc.user, pc.id)] == if user in ListAtCount(run, i) then 1 else 0
  {
    OncePerRecipient(run, i, user);
    UnlockSettles(run, i, user);
    var r := Ref(Mover(run, i).user, Mover(run, i).id);
    SettledStays(run, i + 1, j, r, user, multiset(Forwarded(run, i, user))[r]);
  }

  /** Exactly once in every calm interleaving: from the moment a post is finished, its reference stands
      exactly once among what each follower counted for it has claimed or has pending, and never for
      anybody else. (That it stands for the posted tweet is in `InterleavedDelivery`.) */
  lemma {:induction false} ExactlyOnce(run: Run, i: nat, j: nat, user: nat)
    requires ValidRun(run) && Start(run.states[0]) && AllDistinct(run.states[0]) && user < |run.states[0].inboxes|
    requires i < j <= |run.events| && run.events[i].act == Unlock && Calm(run, j)
    ensures |run.states[j].inboxes| == |run.states[0].inboxes|
    ensures var pc := Mover(run, i);
      && pc.Forwarding?
      && var r := Ref(pc.user, pc.id);
         multiset(Claimed(run, j, user) + run.states[j].inboxes[user])[r]
         == if user in ListAtCount(run, i) then 1 else 0
  {
    assert StepOf(run, i);
    var pc := Mover(run, i);
    var r := Ref(pc.user, pc.id);
    SentOnce(run, i, j, user);
    ClaimsInOrder(run, j, user);
    RecentRun(run, i, run.events[i].thread);
    var pending := run.states[0].inboxes[user];
    if r in multiset(pending) {
      assert r in pending;
      PendingIsOlder(run.states[0], user, r);
    }
    assert multiset(pending + Forwarded(run, j, user)) == multiset(pending) + multiset(Forwarded(run, j, user));
  }

  // ----- a double follow happens

  predicate Undisturbed(run: Run)
    requires ValidRun(run)
  {
    forall j :: 0 <= j < |run.events| ==> !Disturbs(run.states[j], run.events[j])
  }

  /** One event more. */
  lemma Extend(run: Run, s: State, e: Event) returns (longer: Run, s': State)
    requires ValidRun(run) && s == run.states[|run.events|] && Can(s, e.thread, e.act)
    requires Undisturbed(run) && !Disturbs(s, e)
    ensures ValidRun(longer) && longer.states[0] == run.states[0] && Undisturbed(longer)
    ensures s' == longer.states[|longer.events|] == Do(s, e.thread, e.act)
  {
    s' := Do(s, e.thread, e.act);
    longer := Run(run.states + [s'], run.events + [e]);
    forall i | 0 <= i < |longer.events|
      ensures StepOf(longer, i)
    {
      assert i < |run.events| ==> StepOf(run, i);
    }
  }

  const HI := Tweet(1, 0, 7, "hi", 0)

  /** User 1 has no followers yet; two sessions of user 2 are about to follow. */
  const BEGIN := State([[], [], []], [[], [], []], [[], [], []], 0, None, [Idle, Idle])

  /** Both sessions of user 2 have passed the check. */
  lemma CheckTwice() returns (run: Run, s: State)
    ensures ValidRun(run) && run.states[0] == BEGIN && Undisturbed(run)
    ensures s == run.states[|run.events|] == BEGIN.(threads := [Checked(1, 2), Checked(1, 2)])
  {
    run, s := Extend(Run([BEGIN], []), BEGIN, Event(0, CheckFollow(1, 2)));
    assert s.threads == [Checked(1, 2), Idle];
    run, s := Extend(run, s, Event(1, CheckFollow(1, 2)));
    assert s.threads == [Checked(1, 2), Checked(1, 2)];
  }

  /** Both sessions of user 2 have followed user 1. */
  lemma FollowTwice() returns (run: Run, s: State)
    ensures ValidRun(run) && run.states[0] == BEGIN && Undisturbed(run)
    ensures s == run.states[|run.events|] == BEGIN.(followers := [[], [2, 2], []])
  {
    var none: seq<nat> := [];
    assert none + [2] == [2] && [2] + [2] == [2, 2];
    run, s := CheckTwice();
    run, s := Extend(run, s, Event(0, Follow));
    assert s.followers == [[], [2], []] && s.threads == [Idle, Checked(1, 2)];
    run, s := Extend(run, s, Event(1, Follow));
    assert s.followers == [[], [2, 2], []] && s.threads == [Idle, Idle];
  }

  /** User 1 posts; the tweet is stored. */
  lemma PostHi(before: Run, start: State) returns (run: Run, s: State)
    requires ValidRun(before) && Undisturbed(before)
    requires start == before.states[|before.events|] == BEGIN.(followers := [[], [2, 2], []])
    ensures ValidRun(run) && run.states[0] == before.states[0] && Undisturbed(run)
    ensures s == run.states[|run.events|]
    ensures s == State([[], [2, 2], []], [[], [HI.(remaining := 2)], []], [[], [], []], 1, Some(0),
                       [Stored(1, 0), Idle])
  {
    run, s := Extend(before, start, Event(0, Number(1, HI)));
    assert s.threads == [Numbered(1, HI), Idle];
    run, s := Extend(run, s, Event(0, CheckFollowers));
    assert s.threads == [Ready(1, HI), Idle];
    run, s := Extend(run, s, Event(0, Lock));
    assert s.threads == [Locked(1, HI), Idle];
    run, s := Extend(run, s, Event(0, Count));
    assert s.threads == [Counted(1, HI.(remaining := 2)), Idle];
    run, s := Extend(run, s, Event(0, Push));
    var none: seq<Tweet> := [];
    assert none + [HI.(remaining := 2)] == [HI.(remaining := 2)];
    assert s.threads == [Stored(1, 0), Idle] && s.store == [[], [HI.(remaining := 2)], []];
  }

  /** Two sessions of one reader follow an author at the same time: no step is a double claim or a late
      follow, and still the reader gets the author's next tweet twice. */
  lemma DoubleFollowDeliversTwice() returns (run: Run, s: State)
    ensures ValidRun(run) && Start(run.states[0]) && AllDistinct(run.states[0]) && Undisturbed(run)
    ensures s == run.states[|run.events|] && |s.inboxes| == 3 && s.inboxes[2] == [Ref(1, 0), Ref(1, 0)]
  {
    FreshIsStart(BEGIN);
    run, s := FollowTwice();
    run, s := PostHi(run, s);
    run, s := Extend(run, s, Event(0, Recount));
    assert s.threads == [Forwarding(1, 0, 2, 0), Idle];
    run, s := Extend(run, s, Event(0, Forward));
    var none: seq<Ref> := [];
    assert none + [Ref(1, 0)] == [Ref(1, 0)];
    assert s.threads == [Forwarding(1, 0, 2, 1), Idle] && s.inboxes == [[], [], [Ref(1, 0)]];
    run, s := Extend(run, s, Event(0, Forward));
  }
}
