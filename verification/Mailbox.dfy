/** The reference-counted mailbox behind the server: stored tweets with their remaining recipients,
    and references to them in the pending lists. */
module Mailbox {

  datatype Option<+T> = None | Some(value: T)

  datatype Tweet = Tweet(author: nat, id: nat, timestamp: nat, payload: string, remaining: nat)

  /** A `pendingTweet`: whose list the tweet is in, and its id there. */
  datatype Ref = Ref(user: nat, id: nat)

  /** `numRecipientsRemaining--` on a `uint32_t`. */
  function Decrement(n: nat): nat {
    if n == 0 then 0xFFFF_FFFF else n - 1
  }

  /** The first tweet with that id: the lookup loop. */
  function Find(list: seq<Tweet>, id: nat): Option<Tweet> {
    if list == [] then None
    else if list[0].id == id then Some(list[0])
    else Find(list[1..], id)
  }

  /** One recipient less for the first tweet with that id, which goes when none remain. */
  function Release(list: seq<Tweet>, id: nat): seq<Tweet> {
    if list == [] then []
    else if list[0].id == id then
      var left := Decrement(list[0].remaining);
      if left == 0 then list[1..] else [list[0].(remaining := left)] + list[1..]
    else [list[0]] + Release(list[1..], id)
  }

  /** Distinct ids, all below `bound`, and every tweet still has a recipient. */
  predicate GoodList(list: seq<Tweet>, bound: nat) {
    && (forall i :: 0 <= i < |list| ==> list[i].id < bound && list[i].remaining >= 1)
    && (forall i, j :: 0 <= i < j < |list| ==> list[i].id != list[j].id)
  }

  lemma {:induction false} FindIn(list: seq<Tweet>, id: nat)
    ensures Find(list, id).None? <==> forall i :: 0 <= i < |list| ==> list[i].id != id
    ensures Find(list, id).Some? ==> Find(list, id).value in list && Find(list, id).value.id == id
  {
    if list != [] {
      FindIn(list[1..], id);
      assert list == [list[0]] + list[1..];
    }
  }

  /** With distinct ids the search finds the tweet that is there. */
  lemma {:induction false} FindAt(list: seq<Tweet>, i: nat)
    requires i < |list| && forall i, j :: 0 <= i < j < |list| ==> list[i].id != list[j].id
    ensures Find(list, list[i].id) == Some(list[i])
  {
    if i > 0 {
      FindAt(list[1..], i - 1);
    }
  }

  lemma {:induction false} FindAppend(list: seq<Tweet>, t: Tweet, id: nat)
    ensures Find(list + [t], id) == if Find(list, id).Some? || t.id != id then Find(list, id) else Some(t)
  {
    if list == [] {
      assert [] + [t] == [t];
    } else {
      assert (list + [t])[1..] == list[1..] + [t];
      FindAppend(list[1..], t, id);
    }
  }

  /** What is left of the tweet that was found. */
  function AfterRelease(found: Option<Tweet>): Option<Tweet> {
    match found
    case None => None
    case Some(t) =>
      var left := Decrement(t.remaining);
      if left == 0 then None else Some(t.(remaining := left))
  }

  /** Release takes one recipient from this tweet, erasing it exactly when that was the last, and
      leaves every other tweet alone. */
  lemma {:induction false} ReleaseFind(list: seq<Tweet>, id: nat, k: nat)
    requires forall i, j :: 0 <= i < j < |list| ==> list[i].id != list[j].id
    ensures Find(Release(list, id), k) == if k == id then AfterRelease(Find(list, id)) else Find(list, k)
  {
    if list != [] {
      ReleaseFind(list[1..], id, k);
      FindIn(list[1..], id);
    }
  }

  /** What that means for the one tweet: erased at its last recipient, else one recipient less, and a count of
      0 would wrap. */
  lemma {:induction false} ReleaseCounts(list: seq<Tweet>, id: nat)
    requires forall i, j :: 0 <= i < j < |list| ==> list[i].id != list[j].id
    ensures match Find(list, id)
      case None => Find(Release(list, id), id) == None
      case Some(t) =>
        Find(Release(list, id), id) ==
          if t.remaining == 1 then None
          else if t.remaining == 0 then Some(t.(remaining := 0xFFFF_FFFF))
          else Some(t.(remaining := t.remaining - 1))
  {
    ReleaseFind(list, id, id);
  }

  lemma GoodParts(t: Tweet, list: seq<Tweet>, bound: nat)
    ensures GoodList([t] + list, bound)
      <==> GoodList(list, bound) && t.id < bound && t.remaining >= 1
           && forall i :: 0 <= i < |list| ==> list[i].id != t.id
  {
    var whole := [t] + list;
    assert whole[0] == t && forall i :: 0 <= i < |list| ==> whole[i + 1] == list[i];
  }

  lemma {:induction false} ReleaseGood(list: seq<Tweet>, id: nat, bound: nat)
    requires GoodList(list, bound)
    ensures GoodList(Release(list, id), bound)
  {
    if list != [] {
      GoodParts(list[0], list[1..], bound);
      assert [list[0]] + list[1..] == list;
      if list[0].id == id {
        var left := Decrement(list[0].remaining);
        GoodParts(list[0].(remaining := left), list[1..], bound);
      } else {
        ReleaseGood(list[1..], id, bound);
        ReleaseFind(list[1..], id, list[0].id);
        FindIn(list[1..], list[0].id);
        FindIn(Release(list[1..], id), list[0].id);
        GoodParts(list[0], Release(list[1..], id), bound);
      }
    }
  }

  // ----- all users

  type Store = seq<seq<Tweet>>
  type Inboxes = seq<seq<Ref>>

  predicate GoodStore(store: Store, bound: nat) {
    forall a :: 0 <= a < |store| ==> GoodList(store[a], bound)
  }

  /** The remaining recipients of the tweet behind a reference, 0 if it is not stored. */
  function CountOf(store: Store, r: Ref): nat {
    if r.user < |store| && Find(store[r.user], r.id).Some? then Find(store[r.user], r.id).value.remaining else 0
  }

  function ReleaseIn(store: Store, r: Ref): Store
    requires r.user < |store|
  {
    store[r.user := Release(store[r.user], r.id)]
  }

  lemma ReleaseCount(store: Store, r: Ref, bound: nat)
    requires GoodStore(store, bound) && r.user < |store|
    ensures GoodStore(ReleaseIn(store, r), bound)
    ensures forall q :: q != r ==> CountOf(ReleaseIn(store, r), q) == CountOf(store, q)
    ensures CountOf(ReleaseIn(store, r), r) == if CountOf(store, r) > 0 then CountOf(store, r) - 1 else 0
  {
    ReleaseGood(store[r.user], r.id, bound);
    forall id {
      ReleaseFind(store[r.user], r.id, id);
    }
    FindIn(store[r.user], r.id);
  }

  /** Every reference in every inbox, with multiplicity. */
  function AllRefs(inboxes: Inboxes): multiset<Ref> {
    if inboxes == [] then multiset{} else multiset(inboxes[0]) + AllRefs(inboxes[1..])
  }

  lemma {:induction false} AllRefsUpdate(inboxes: Inboxes, u: nat, inbox: seq<Ref>)
    requires u < |inboxes|
    ensures AllRefs(inboxes[u := inbox]) + multiset(inboxes[u]) == AllRefs(inboxes) + multiset(inbox)
  {
    if u == 0 {
      assert inboxes[u := inbox][1..] == inboxes[1..];
    } else {
      assert inboxes[u := inbox][1..] == inboxes[1..][u - 1 := inbox] && inboxes[u := inbox][0] == inboxes[0];
      AllRefsUpdate(inboxes[1..], u - 1, inbox);
      var rest, rest' := AllRefs(inboxes[1..]), AllRefs(inboxes[1..][u - 1 := inbox]);
      assert rest' + multiset(inboxes[u]) == rest + multiset(inbox);
      assert (multiset(inboxes[0]) + rest') + multiset(inboxes[u])
          == multiset(inboxes[0]) + (rest' + multiset(inboxes[u]));
    }
  }

  lemma {:induction false} AllRefsContains(inboxes: Inboxes, u: nat)
    requires u < |inboxes|
    ensures multiset(inboxes[u]) <= AllRefs(inboxes)
  {
    if u > 0 {
      AllRefsContains(inboxes[1..], u - 1);
    }
  }

  lemma {:induction false} AllRefsEmpty(inboxes: Inboxes)
    requires forall u :: 0 <= u < |inboxes| ==> inboxes[u] == []
    ensures AllRefs(inboxes) == multiset{}
  {
    if inboxes != [] {
      AllRefsEmpty(inboxes[1..]);
    }
  }
}
