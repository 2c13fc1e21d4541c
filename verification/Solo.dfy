/** The two models of the delivery engine agree: an operation taken as one step is what the step system
    does when one thread carries it out alone. */
module Solo {
  import opened Mailbox
  import opened Interleaving
  import Delivery

  function DbOf(s: State, names: seq<string>): Delivery.Db {
    Delivery.Db(names, s.followers, s.store, s.inboxes, s.numTweets)
  }

  predicate Quiet(s: State) {
    Shape(s) && s.poster == None && forall t :: 0 <= t < |s.threads| ==> s.threads[t] == Idle
  }

  predicate OthersIdle(s: State, t: nat) {
    t < |s.threads| && forall u :: 0 <= u < |s.threads| && u != t ==> s.threads[u] == Idle
  }

  /** One event, then the rest. */
  lemma {:induction false} Then(s: State, e: Event, s': State, rest: seq<Event>, last: State)
    requires Can(s, e.thread, e.act) && s' == Do(s, e.thread, e.act) && Exec(s', rest) == Some(last)
    ensures Exec(s, [e] + rest) == Some(last)
  {
    var _ := ExecNext(s, e, rest);
  }

  // ----- posting

  /** The remaining forward iterations and the unlock. */
  lemma {:induction false} ForwardLoop(s: State, t: nat, before: Inboxes) returns (events: seq<Event>, last: State)
    requires Shape(s) && OthersIdle(s, t) && s.threads[t].Forwarding?
    requires var pc := s.threads[t];
      && pc.total == |s.followers[pc.user]|
      && s.inboxes == Delivery.ForwardAll(before, s.followers[pc.user][..pc.i], Ref(pc.user, pc.id))
    ensures Exec(s, events) == Some(last)
    ensures var pc := s.threads[t];
      last == s.(inboxes := Delivery.ForwardAll(before, s.followers[pc.user], Ref(pc.user, pc.id)),
                 poster := None, threads := s.threads[t := Idle])
    decreases s.threads[t].total - s.threads[t].i
  {
    var pc := s.threads[t];
    var to := s.followers[pc.user];
    if pc.i == pc.total {
      assert to[..pc.i] == to;
      last := Do(s, t, Unlock);
      events := [Event(t, Unlock)] + [];
      Then(s, Event(t, Unlock), last, [], last);
    } else {
      var s' := Do(s, t, Forward);
      ShapeStep(s, t, Forward);
      assert to[..pc.i + 1][..pc.i] == to[..pc.i];
      var rest;
      rest, last := ForwardLoop(s', t, before);
      events := [Event(t, Forward)] + rest;
      Then(s, Event(t, Forward), s', rest, last);
      assert s.threads[t := Idle] == s'.threads[t := Idle];
    }
  }

  /** The tweet with its count goes into the list, then its references go out. */
  lemma PushAlone(s: State, t: nat) returns (events: seq<Event>, last: State)
    requires Shape(s) && OthersIdle(s, t) && s.threads[t].Counted?
    ensures Exec(s, events) == Some(last)
    ensures var pc := s.threads[t];
      last == s.(store := s.store[pc.user := s.store[pc.user] + [pc.tweet]],
                 inboxes := Delivery.ForwardAll(s.inboxes, s.followers[pc.user], Ref(pc.user, pc.tweet.id)),
                 poster := None, threads := s.threads[t := Idle])
  {
    var s3 := Do(s, t, Push);
    ShapeStep(s, t, Push);
    var s4 := Do(s3, t, Recount);
    ShapeStep(s3, t, Recount);
    assert s4.followers[s.threads[t].user][..0] == [];
    var rest;
    rest, last := ForwardLoop(s4, t, s.inboxes);
    assert s4.threads[t := Idle] == s.threads[t := Idle];
    Then(s3, Event(t, Recount), s4, rest, last);
    events := [Event(t, Recount)] + rest;
    Then(s, Event(t, Push), s3, events, last);
    events := [Event(t, Push)] + events;
  }

  /** The part under `listenerProceedMUT`. */
  lemma PostAlone(s: State, t: nat) returns (events: seq<Event>, last: State)
    requires Shape(s) && OthersIdle(s, t) && s.threads[t].Ready? && s.poster == None
    ensures Exec(s, events) == Some(last)
    ensures var pc := s.threads[t];
      var tweet := pc.tweet.(remaining := |s.followers[pc.user]|);
      last == s.(store := s.store[pc.user := s.store[pc.user] + [tweet]],
                 inboxes := Delivery.ForwardAll(s.inboxes, s.followers[pc.user], Ref(pc.user, tweet.id)),
                 threads := s.threads[t := Idle])
  {
    var s1 := Do(s, t, Lock);
    ShapeStep(s, t, Lock);
    var s2 := Do(s1, t, Count);
    ShapeStep(s1, t, Count);
    var rest;
    rest, last := PushAlone(s2, t);
    assert s2.threads[t := Idle] == s.threads[t := Idle];
    Then(s1, Event(t, Count), s2, rest, last);
    events := [Event(t, Count)] + rest;
    Then(s, Event(t, Lock), s1, events, last);
    events := [Event(t, Lock)] + events;
  }

  /** A tweet posted by a thread that runs alone. */
  lemma SoloUpdate(s: State, t: nat, names: seq<string>, user: nat, tweet: Tweet)
    returns (events: seq<Event>, last: State)
    requires Quiet(s) && t < |s.threads| && user < |s.followers|
    ensures Exec(s, events) == Some(last) && last.threads == s.threads && last.poster == None
    ensures DbOf(last, names) == Delivery.UpdateDb(DbOf(s, names), user, tweet)
  {
    var s1 := Do(s, t, Number(user, tweet));
    var s2 := Do(s1, t, CheckFollowers);
    if s.followers[user] == [] {
      last := s2;
      events := [Event(t, Number(user, tweet))] + ([Event(t, CheckFollowers)] + []);
      Then(s1, Event(t, CheckFollowers), s2, [], s2);
      Then(s, Event(t, Number(user, tweet)), s1, [Event(t, CheckFollowers)] + [], s2);
      assert last.threads == s.threads;
    } else {
      var rest;
      ShapeStep(s, t, Number(user, tweet));
      ShapeStep(s1, t, CheckFollowers);
      rest, last := PostAlone(s2, t);
      events := [Event(t, Number(user, tweet))] + ([Event(t, CheckFollowers)] + rest);
      Then(s1, Event(t, CheckFollowers), s2, rest, last);
      Then(s, Event(t, Number(user, tweet)), s1, [Event(t, CheckFollowers)] + rest, last);
      assert s2.threads[t := Idle] == s.threads;
    }
  }

  // ----- following

  /** A follow by a thread that runs alone. */
  lemma SoloFollow(s: State, t: nat, names: seq<string>, target: string, follower: nat)
    returns (events: seq<Event>, last: State)
    requires Quiet(s) && t < |s.threads| && |names| == |s.followers| && follower < |names|
    ensures Exec(s, events) == Some(last) && last.threads == s.threads && last.poster == None
    ensures DbOf(last, names) == Delivery.FollowDb(DbOf(s, names), target, follower).0
  {
    Delivery.IndexInRange(names, target);
    var found := Delivery.IndexOf(names, target);
    if found == None || follower in s.followers[found.value] {
      events, last := [], s;
    } else {
      var s1 := Do(s, t, CheckFollow(found.value, follower));
      last := Do(s1, t, Follow);
      events := [Event(t, CheckFollow(found.value, follower))] + ([Event(t, Follow)] + []);
      Then(s1, Event(t, Follow), last, [], last);
      Then(s, Event(t, CheckFollow(found.value, follower)), s1, [Event(t, Follow)] + [], last);
      assert last.threads == s.threads;
    }
  }

  // ----- retrieving

  /** Thread `t` has looked up the first `i` references it claimed. */
  function Looked(s: State, t: nat, refs: seq<Ref>, i: nat): State
    requires t < |s.threads| && i <= |refs| && RefsIn(refs, |s.store|)
  {
    s.(threads := s.threads[t := Looking(refs, i, Delivery.ResolveAll(s.store, refs[..i]))])
  }

  lemma LookupStep(s: State, t: nat, refs: seq<Ref>, i: nat)
    requires t < |s.threads| && i < |refs| && RefsIn(refs, |s.store|) && Shape(Looked(s, t, refs, i))
    ensures Can(Looked(s, t, refs, i), t, Lookup)
    ensures Do(Looked(s, t, refs, i), t, Lookup) == Looked(s, t, refs, i + 1)
  {
    assert refs[..i + 1][..i] == refs[..i];
    assert Delivery.ResolveAll(s.store, refs[..i]) + [] == Delivery.ResolveAll(s.store, refs[..i]);
  }

  lemma {:induction false} LookupLoop(s: State, t: nat, refs: seq<Ref>, i: nat, rest: seq<Event>, last: State)
    returns (events: seq<Event>)
    requires t < |s.threads| && i <= |refs| && RefsIn(refs, |s.store|) && Shape(Looked(s, t, refs, i))
    requires Exec(Looked(s, t, refs, |refs|), rest) == Some(last)
    ensures Exec(Looked(s, t, refs, i), events) == Some(last)
    decreases |refs| - i
  {
    if i == |refs| {
      events := rest;
    } else {
      LookupStep(s, t, refs, i);
      ShapeStep(Looked(s, t, refs, i), t, Lookup);
      events := LookupLoop(s, t, refs, i + 1, rest, last);
      Then(Looked(s, t, refs, i), Event(t, Lookup), Looked(s, t, refs, i + 1), events, last);
      events := [Event(t, Lookup)] + events;
    }
  }

  /** The releases and the return. */
  lemma {:induction false} ReleaseLoop(s: State, t: nat, before: Store) returns (events: seq<Event>, last: State)
    requires Shape(s) && t < |s.threads| && s.threads[t].Releasing?
    requires s.store == Delivery.ReleaseAll(before, s.threads[t].refs[..s.threads[t].i])
    ensures Exec(s, events) == Some(last)
    ensures last == s.(store := Delivery.ReleaseAll(before, s.threads[t].refs), threads := s.threads[t := Idle])
    decreases |s.threads[t].refs| - s.threads[t].i
  {
    var pc := s.threads[t];
    if pc.i == |pc.refs| {
      assert pc.refs[..pc.i] == pc.refs;
      last := Do(s, t, Finish);
      events := [Event(t, Finish)] + [];
      Then(s, Event(t, Finish), last, [], last);
    } else {
      var s' := Do(s, t, ReleaseOne);
      ShapeStep(s, t, ReleaseOne);
      assert pc.refs[..pc.i + 1][..pc.i] == pc.refs[..pc.i];
      var rest;
      rest, last := ReleaseLoop(s', t, before);
      events := [Event(t, ReleaseOne)] + rest;
      Then(s, Event(t, ReleaseOne), s', rest, last);
      assert s.threads[t := Idle] == s'.threads[t := Idle];
    }
  }

  /** Thread `t` has copied and cleared a pending list. */
  function Claimed(s: State, t: nat, user: nat): State
    requires t < |s.threads| && user < |s.inboxes|
  {
    s.(inboxes := s.inboxes[user := []], threads := s.threads[t := Looking(s.inboxes[user], 0, [])])
  }

  lemma ClaimAlone(s: State, t: nat, user: nat, rest: seq<Event>, last: State) returns (events: seq<Event>)
    requires Quiet(s) && t < |s.threads| && user < |s.inboxes|
    requires Exec(Claimed(s, t, user), rest) == Some(last)
    ensures Exec(s, events) == Some(last)
  {
    var s1 := Do(s, t, Copy(user));
    var s' := Do(s1, t, Clear);
    assert s1.threads[t := s'.threads[t]] == s.threads[t := s'.threads[t]];
    Then(s1, Event(t, Clear), s', rest, last);
    events := [Event(t, Copy(user))] + ([Event(t, Clear)] + rest);
    Then(s, Event(t, Copy(user)), s1, [Event(t, Clear)] + rest, last);
  }

  lemma {:induction false} LookedUpStep(s: State, t: nat, refs: seq<Ref>)
    requires t < |s.threads| && RefsIn(refs, |s.store|)
    ensures var looked := Looked(s, t, refs, |refs|);
      && Can(looked, t, LookedUp)
      && Do(looked, t, LookedUp)
         == s.(threads := s.threads[t := Releasing(refs, 0, Delivery.ResolveAll(s.store, refs))])
  {
    assert refs[..|refs|] == refs;
  }

  lemma ClaimedShape(s: State, t: nat, user: nat)
    requires Quiet(s) && t < |s.threads| && user < |s.inboxes|
    ensures var s', refs := Claimed(s, t, user), s.inboxes[user];
      && RefsIn(refs, |s'.store|) && Shape(Looked(s', t, refs, 0)) && Looked(s', t, refs, 0) == s'
      && Shape(s'.(threads := s'.threads[t := Releasing(refs, 0, Delivery.ResolveAll(s.store, refs))]))
  {
    assert s.inboxes[user][..0] == [];
  }

  /** A retrieval by a thread that runs alone: `mid` is the state in which its result is complete. */
  lemma SoloRetrieve(s: State, t: nat, names: seq<string>, user: nat)
    returns (events: seq<Event>, mid: State, rest: seq<Event>, last: State)
    requires Quiet(s) && t < |s.threads| && user < |s.inboxes|
    ensures Exec(s, events) == Some(last) && Exec(mid, rest) == Some(last) && last.threads == s.threads
    ensures DbOf(last, names) == Delivery.RetrieveDb(DbOf(s, names), user).0
    ensures |mid.threads| == |s.threads| && mid.threads[t].Releasing?
    ensures mid.threads[t].got == Delivery.RetrieveDb(DbOf(s, names), user).1
  {
    var refs, claimed := s.inboxes[user], Claimed(s, t, user);
    ClaimedShape(s, t, user);
    var looked := Looked(claimed, t, refs, |refs|);
    mid := claimed.(threads := claimed.threads[t := Releasing(refs, 0, Delivery.ResolveAll(s.store, refs))]);
    LookedUpStep(claimed, t, refs);
    rest, last := ReleaseLoop(mid, t, s.store);
    Then(looked, Event(t, LookedUp), mid, rest, last);
    events := LookupLoop(claimed, t, refs, 0, [Event(t, LookedUp)] + rest, last);
    events := ClaimAlone(s, t, user, events, last);
    assert last.threads == s.threads;
  }

  // ----- the invariants agree

  /** A database in the order that the operations keep is a start state of the step system. */
  lemma GoodIsStart(s: State, names: seq<string>)
    requires Delivery.Good(DbOf(s, names)) && s.poster == None
    requires forall t :: 0 <= t < |s.threads| ==> s.threads[t] == Idle
    ensures Start(s) && Quiet(s)
  {
    forall r
      ensures CountOf(s.store, r) == AllRefs(s.inboxes)[r]
    {
      assert CountOf(s.store, r) == AllRefs(s.inboxes)[r] + multiset{}[r];
    }
    forall u | 0 <= u < |s.inboxes|
      ensures RefsIn(s.inboxes[u], |s.store|)
    {
      assert Delivery.GoodInbox(s.inboxes[u], |names|, s.numTweets);
    }
    forall a | 0 <= a < |s.followers|
      ensures forall i :: 0 <= i < |s.followers[a]| ==> s.followers[a][i] < |s.store|
    {
      assert Delivery.GoodFollowers(s.followers[a], |names|);
    }
  }
}
