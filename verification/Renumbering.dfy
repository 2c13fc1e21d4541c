/** `numTweets` is not saved, so a server that loads a database numbers its tweets from 0 again. What
    that alone does to the deliveries of every run afterwards; the users that a load adds as well are left
    to `Reloading`. */
module Renumbering {
  import opened Mailbox
  import opened Connections
  import opened Delivery

  function Restarted(db: Db): Db {
    db.(numTweets := 0)
  }

  /** Nobody is connected to a server that has just started. */
  function RestartedService(db: Db): Service {
    Service(Restarted(db), map[])
  }

  predicate NothingPending(db: Db) {
    forall u :: 0 <= u < |db.inboxes| ==> db.inboxes[u] == []
  }

  // ----- the invariant

  lemma StoredIsPending(db: Db, a: nat, k: nat)
    requires Good(db) && a < |db.store| && k < |db.store[a]|
    ensures Ref(a, db.store[a][k].id) in AllRefs(db.inboxes)
  {
    var r := Ref(a, db.store[a][k].id);
    assert GoodList(db.store[a], db.numTweets);
    FindAt(db.store[a], k);
    assert CountOf(db.store, r) == AllRefs(db.inboxes)[r] + multiset{}[r];
  }

  /** The invariant survives exactly when nothing is pending at the time of the save. */
  lemma RestartKeepsOrderIff(db: Db)
    requires Good(db)
    ensures Good(Restarted(db)) <==> NothingPending(db)
  {
    if NothingPending(db) {
      AllRefsEmpty(db.inboxes);
      forall a | 0 <= a < |db.store|
        ensures db.store[a] == []
      {
        if db.store[a] != [] {
          StoredIsPending(db, a, 0);
        }
      }
    } else {
      var u :| 0 <= u < |db.inboxes| && db.inboxes[u] != [];
      assert !GoodInbox(db.inboxes[u], |db.names|, 0) by {
        assert db.inboxes[u][0].id >= 0;
      }
    }
  }

  // ----- posting on until a stored id comes round again

  function Posts(author: nat, tweets: seq<Tweet>): seq<Op> {
    seq(|tweets|, k requires 0 <= k < |tweets| => Update(author, tweets[k]))
  }

  lemma PostsNext(author: nat, tweets: seq<Tweet>)
    requires tweets != []
    ensures Posts(author, tweets) == Posts(author, tweets[..|tweets| - 1]) + [Update(author, tweets[|tweets| - 1])]
  {
  }

  /** Any number of posts is legal; names, followers and the sizes stay, and what an author's list
      finds for an id it goes on finding. */
  lemma {:induction false} PostsRun(s: Service, author: nat, tweets: seq<Tweet>)
    requires author < |s.db.followers| && author < |s.db.store|
    ensures LegalRun(s, Posts(author, tweets))
    ensures var t := Last(s, Posts(author, tweets));
      && t.db.numTweets == s.db.numTweets + |tweets|
      && t.db.names == s.db.names && t.db.followers == s.db.followers && |t.db.store| == |s.db.store|
      && forall id :: Find(s.db.store[author], id).Some? ==>
           Find(t.db.store[author], id) == Find(s.db.store[author], id)
  {
    if tweets != [] {
      var init, last := tweets[..|tweets| - 1], tweets[|tweets| - 1];
      PostsRun(s, author, init);
      PostsNext(author, tweets);
      RunNext(s, Posts(author, init), Update(author, last));
      var db := Last(s, Posts(author, init)).db;
      forall id {
        FindAppend(db.store[author], last.(id := db.numTweets, remaining := |db.followers[author]|), id);
      }
    }
  }

  /** An update whose id is already stored: the new reference resolves to the old tweet. */
  lemma OldTweetIsFound(db: Db, author: nat, tweet: Tweet)
    requires author < |db.followers| && author < |db.store| && db.followers[author] != []
    requires Find(db.store[author], db.numTweets).Some?
    ensures Resolve(UpdateDb(db, author, tweet).store, Ref(author, db.numTweets))
         == [Find(db.store[author], db.numTweets).value]
  {
    var t := tweet.(id := db.numTweets, remaining := |db.followers[author]|);
    FindAppend(db.store[author], t, t.id);
  }

  /** Whatever the database holds: a new tweet is what its followers will find exactly when the author
      has no stored tweet with the same id, or an equal one. */
  lemma NewTweetIsFoundIff(db: Db, user: nat, tweet: Tweet)
    requires user < |db.followers| && user < |db.store| && db.followers[user] != []
    ensures var t := tweet.(id := db.numTweets, remaining := |db.followers[user]|);
      Resolve(UpdateDb(db, user, tweet).store, Ref(user, t.id)) == [t]
      <==> Find(db.store[user], t.id) in {None, Some(t)}
  {
    var t := tweet.(id := db.numTweets, remaining := |db.followers[user]|);
    FindAppend(db.store[user], t, t.id);
  }

  /** Misdelivery: after a restart with tweet number `n` of `author` still stored, the author's next
      `n + 1` posts, whatever they are, lead to a reference that stands for the old tweet. */
  lemma {:induction false} OldTweetIsDeliveredAgain(db: Db, author: nat, posts: seq<Tweet>)
    requires author < |db.followers| && author < |db.store| && db.followers[author] != []
    requires posts != [] && Find(db.store[author], |posts| - 1).Some?
    ensures var s, ops, n := RestartedService(db), Posts(author, posts), |posts| - 1;
      LegalRun(s, ops) && Resolve(Last(s, ops).db.store, Ref(author, n)) == [Find(db.store[author], n).value]
  {
    var s, init, last := RestartedService(db), posts[..|posts| - 1], posts[|posts| - 1];
    PostsRun(s, author, init);
    PostsNext(author, posts);
    RunNext(s, Posts(author, init), Update(author, last));
    var db' := Last(s, Posts(author, init)).db;
    assert Find(db'.store[author], |init|) == Find(db.store[author], |init|);
    OldTweetIsFound(db', author, last);
  }

  // ----- every run afterwards

  function FollowsOf(db: Db): set<(nat, nat)> {
    set a, k | 0 <= a < |db.followers| && 0 <= k < |db.followers[a]| :: (db.followers[a][k], a)
  }

  /** What the readers are entitled to at the time of the restart: what is pending for them. */
  function IdealAtRestart(db: Db): Ideal {
    Ideal(db.names, FollowsOf(db), 0, seq(|db.names|, u requires 0 <= u < |db.names| => PendingContents(db, u)))
  }

  /** Deliveries are exact in one run for one reader. */
  predicate Exact(db: Db, ops: seq<Op>, reader: nat)
    requires LegalRun(RestartedService(db), ops)
  {
    var s := RestartedService(db);
    Contents(Delivered(s, ops, reader)) + PendingContents(Last(s, ops).db, reader)
    == LogOf(LastIdeal(IdealAtRestart(db), ops), reader)
  }

  ghost predicate AlwaysExact(db: Db) {
    forall ops, reader: nat :: LegalRun(RestartedService(db), ops) ==> Exact(db, ops, reader)
  }

  /** Only authors with followers have tweets stored. */
  predicate StoredAreFollowed(db: Db) {
    forall a :: 0 <= a < |db.store| && a < |db.followers| && db.store[a] != [] ==> db.followers[a] != []
  }

  lemma {:induction false} ReleaseAllEmpty(store: Store, refs: seq<Ref>)
    ensures forall a :: 0 <= a < |store| && store[a] == [] ==> ReleaseAll(store, refs)[a] == []
  {
    if refs != [] {
      ReleaseAllEmpty(store, refs[..|refs| - 1]);
    }
  }

  lemma StoredAreFollowedStep(s: Service, op: Op)
    requires Good(s.db) && Legal(s, op) && StoredAreFollowed(s.db)
    ensures StoredAreFollowed(Step(s, op).0.db)
  {
    if op.Retrieve? {
      ReleaseAllEmpty(s.db.store, s.db.inboxes[op.user]);
    }
  }

  /** It is so in every run from a fresh server. */
  lemma {:induction false} StoredAreFollowedRun(s: Service, ops: seq<Op>)
    requires GoodService(s) && StoredAreFollowed(s.db) && LegalRun(s, ops)
    ensures StoredAreFollowed(Last(s, ops).db)
  {
    if ops != [] {
      StoredAreFollowedRun(s, ops[..|ops| - 1]);
      RunGood(s, ops[..|ops| - 1]);
      StoredAreFollowedStep(Last(s, ops[..|ops| - 1]), ops[|ops| - 1]);
    }
  }

  lemma MatchesAtRestart(db: Db, reader: nat)
    requires Good(db)
    ensures Matches(Restarted(db), IdealAtRestart(db))
    ensures PendingContents(Restarted(db), reader) == LogOf(IdealAtRestart(db), reader)
  {
  }

  /** Posting entitles and numbers as many tweets as are posted. */
  lemma {:induction false} IdealPosts(i: Ideal, author: nat, tweets: seq<Tweet>)
    ensures var j := LastIdeal(i, Posts(author, tweets));
      j.names == i.names && j.follows == i.follows && j.posted == i.posted + |tweets| && |j.logs| == |i.logs|
  {
    if tweets != [] {
      IdealPosts(i, author, tweets[..|tweets| - 1]);
      PostsNext(author, tweets);
    }
  }

  /** The last thing pending for a follower after an update. */
  lemma LastPending(db: Db, author: nat, tweet: Tweet, reader: nat)
    requires author < |db.followers| && author < |db.store| && GoodFollowers(db.followers[author], |db.inboxes|)
    requires reader in db.followers[author]
    requires Find(db.store[author], db.numTweets).Some?
    ensures var pending := PendingContents(UpdateDb(db, author, tweet), reader);
      && pending != []
      && pending[|pending| - 1] == Content(Find(db.store[author], db.numTweets).value)
  {
    var r, prior, store' := Ref(author, db.numTweets), Find(db.store[author], db.numTweets).value,
                          UpdateDb(db, author, tweet).store;
    ForwardEffect(db.inboxes, db.followers[author], r);
    OldTweetIsFound(db, author, tweet);
    assert (db.inboxes[reader] + [r])[..|db.inboxes[reader]|] == db.inboxes[reader];
    assert Contents([prior]) == Contents([]) + [Content(prior)];
    ContentsConcat(ResolveAll(store', db.inboxes[reader]), [prior]);
  }

  lemma {:induction false} PostsKeepInboxes(s: Service, author: nat, tweets: seq<Tweet>)
    requires author < |s.db.followers| && author < |s.db.store|
    requires GoodFollowers(s.db.followers[author], |s.db.inboxes|)
    requires LegalRun(s, Posts(author, tweets))
    ensures |Last(s, Posts(author, tweets)).db.inboxes| == |s.db.inboxes|
  {
    if tweets != [] {
      var init := tweets[..|tweets| - 1];
      PostsRun(s, author, init);
      PostsKeepInboxes(s, author, init);
      PostsNext(author, tweets);
      RunNext(s, Posts(author, init), Update(author, tweets[|tweets| - 1]));
      var db := Last(s, Posts(author, init)).db;
      ForwardEffect(db.inboxes, db.followers[author], Ref(author, db.numTweets));
    }
  }

  lemma {:induction false} PostsDeliverNothing(s: Service, author: nat, tweets: seq<Tweet>, reader: nat)
    requires LegalRun(s, Posts(author, tweets))
    ensures Delivered(s, Posts(author, tweets), reader) == []
  {
    if tweets != [] {
      PostsNext(author, tweets);
      PostsDeliverNothing(s, author, tweets[..|tweets| - 1], reader);
    }
  }

  lemma FollowerIsEntitled(db: Db, author: nat, reader: nat)
    requires author < |db.followers| && reader in db.followers[author] && reader < |db.names|
    ensures var i := IdealAtRestart(db);
      reader < |i.logs| && (reader, author) in i.follows && i.posted == 0
  {
  }

  predicate EndsWith(ts: seq<Tweet>, t: Tweet) {
    ts != [] && ts[|ts| - 1] == t
  }

  /** What the follower should get last ... */
  lemma {:induction false} LastOfLog(i: Ideal, author: nat, posts: seq<Tweet>, reader: nat)
    requires reader < |i.logs| && (reader, author) in i.follows && posts != []
    ensures EndsWith(LogOf(LastIdeal(i, Posts(author, posts)), reader),
                     Content(posts[|posts| - 1].(id := i.posted + |posts| - 1)))
  {
    IdealPosts(i, author, posts[..|posts| - 1]);
    PostsNext(author, posts);
  }

  /** ... and what is pending last for it. */
  lemma {:induction false} LastOfRun(db: Db, author: nat, posts: seq<Tweet>, reader: nat)
    requires author < |db.followers| && author < |db.store| && GoodFollowers(db.followers[author], |db.inboxes|)
    requires reader in db.followers[author] && posts != [] && Find(db.store[author], |posts| - 1).Some?
    ensures LegalRun(RestartedService(db), Posts(author, posts))
    ensures Delivered(RestartedService(db), Posts(author, posts), reader) == []
    ensures EndsWith(PendingContents(Last(RestartedService(db), Posts(author, posts)).db, reader),
                     Content(Find(db.store[author], |posts| - 1).value))
  {
    var s, init, last := RestartedService(db), posts[..|posts| - 1], posts[|posts| - 1];
    PostsRun(s, author, init);
    PostsKeepInboxes(s, author, init);
    PostsNext(author, posts);
    RunNext(s, Posts(author, init), Update(author, last));
    PostsDeliverNothing(s, author, posts, reader);
    var db' := Last(s, Posts(author, init)).db;
    assert Find(db'.store[author], |init|) == Find(db.store[author], |init|);
    LastPending(db', author, last, reader);
  }

  lemma {:induction false} NotExact(db: Db, ops: seq<Op>, reader: nat, given: Tweet, due: Tweet)
    requires LegalRun(RestartedService(db), ops) && Delivered(RestartedService(db), ops, reader) == []
    requires EndsWith(PendingContents(Last(RestartedService(db), ops).db, reader), given)
    requires EndsWith(LogOf(LastIdeal(IdealAtRestart(db), ops), reader), due) && given != due
    ensures !Exact(db, ops, reader)
  {
    var pending := PendingContents(Last(RestartedService(db), ops).db, reader);
    assert Contents([]) + pending == pending;
  }

  /** The run in which a follower gets the old tweet in place of the new one. */
  lemma {:induction false} WrongDelivery(db: Db, author: nat, posts: seq<Tweet>, reader: nat)
    requires author < |db.followers| && author < |db.store| && reader < |db.names|
    requires GoodFollowers(db.followers[author], |db.inboxes|) && reader in db.followers[author]
    requires posts != [] && Find(db.store[author], |posts| - 1).Some?
    requires Content(posts[|posts| - 1].(id := |posts| - 1)) != Content(Find(db.store[author], |posts| - 1).value)
    ensures LegalRun(RestartedService(db), Posts(author, posts)) && !Exact(db, Posts(author, posts), reader)
  {
    LastOfRun(db, author, posts, reader);
    FollowerIsEntitled(db, author, reader);
    LastOfLog(IdealAtRestart(db), author, posts, reader);
    NotExact(db, Posts(author, posts), reader, Content(Find(db.store[author], |posts| - 1).value),
             Content(posts[|posts| - 1].(id := |posts| - 1)));
  }

  /** With something pending, some author's posts fail some follower. */
  lemma FailingPosts(db: Db) returns (author: nat, posts: seq<Tweet>, reader: nat)
    requires Good(db) && StoredAreFollowed(db) && !NothingPending(db)
    ensures LegalRun(RestartedService(db), Posts(author, posts)) && !Exact(db, Posts(author, posts), reader)
  {
    var u :| 0 <= u < |db.inboxes| && db.inboxes[u] != [];
    var r := db.inboxes[u][0];
    PendingIsStored(db, u, 0);
    var prior := Find(db.store[r.user], r.id).value;
    var tweet := prior.(timestamp := if prior.timestamp == 0 then 1 else 0);
    FindIn(db.store[r.user], r.id);
    author, posts, reader := r.user, seq(r.id + 1, _ => tweet), db.followers[r.user][0];
    WrongDelivery(db, author, posts, reader);
  }

  /** Restarting the numbering does no harm exactly when nothing is pending: then, and only then, every
      run of the restarted server delivers exactly once and in order, counting what was pending. */
  lemma RestartIsSafeIff(db: Db)
    requires Good(db) && StoredAreFollowed(db)
    ensures AlwaysExact(db) <==> NothingPending(db)
  {
    RestartKeepsOrderIff(db);
    if NothingPending(db) {
      forall ops, reader: nat | LegalRun(RestartedService(db), ops)
        ensures Exact(db, ops, reader)
      {
        MatchesAtRestart(db, reader);
        ExactlyOnceInOrder(RestartedService(db), IdealAtRestart(db), ops, reader);
      }
    } else {
      var author, posts, reader := FailingPosts(db);
    }
  }

  /** So for every database that a server can have reached from an empty one. */
  lemma RestartAfterRunIsSafeIff(s: Service, ops: seq<Op>)
    requires FreshService(s) && LegalRun(s, ops)
    ensures AlwaysExact(Last(s, ops).db) <==> NothingPending(Last(s, ops).db)
  {
    FreshStart(s, 0);
    RunGood(s, ops);
    StoredAreFollowedRun(s, ops);
    RestartIsSafeIff(Last(s, ops).db);
  }
}
