/** The database that a restarted server really has: `loadDatabase` gives back the saved lists with some
    names more that the other lists know nothing of (`Restart.RestartsAddUsers`), and the numbering starts
    at 0. When its deliveries are exact, over any number of restarts. */
module Reloading {
  import opened Mailbox
  import opened Codec
  import opened Connections
  import opened Delivery
  import opened Renumbering
  import Persistence
  import Restart

  /** With more names than lists. */
  function Wide(db: Db, extra: seq<string>): Db {
    db.(names := db.names + extra)
  }

  /** The saved database as it is loaded. */
  function LoadedDb(db: Db, extra: seq<string>): Db {
    Wide(Restarted(db), extra)
  }

  function LoadedService(db: Db, extra: seq<string>): Service {
    Service(LoadedDb(db, extra), map[])
  }

  // ----- a load

  /** The lists of a load are those of a database. */
  predicate ListsAgree(l: Restart.Loaded, db: Db) {
    && Restart.NamesOf(l.users) == db.names
    && l.followers == db.followers
    && l.pending == Restart.RefRows(db.inboxes)
    && l.received == Restart.TweetRows(db.store)
  }

  /** The files give everything back: see `Restart.DatabaseRoundTripIff`. */
  predicate Survives(db: Db) {
    && Restart.Fits(db)
    && (forall u :: u in Restart.UsersOf(db.names) ==> Readable(u))
    && Persistence.OnlyNearTheEnd(Restart.RefRows(db.inboxes))
    && Persistence.OnlyNearTheEnd(Restart.TweetRows(db.store))
  }

  /** The names behind the lists after one load for each of the leftover ids. */
  function Extra(junks: seq<nat>): seq<string> {
    Restart.NamesOf(Restart.Added(junks))
  }

  /** What a server saves that has been loaded so often, with `db` behind its users. */
  function SavedAfter(db: Db, junks: seq<nat>): Restart.Files {
    Restart.Printed(Restart.ListsOf(db).(users := Restart.UsersOf(db.names) + Restart.Added(junks)))
  }

  lemma NamesBack(names: seq<string>, more: seq<User>)
    ensures Restart.NamesOf(Restart.UsersOf(names) + more) == names + Restart.NamesOf(more)
  {
  }

  /** Each load of a server that saves and is started again ends, unless it meets the leftover id 0, and
      gives the database that the rest of this module is about. */
  lemma {:induction false} LoadGivesLoadedDb(db: Db, junks: seq<nat>, junk: nat)
    requires Survives(db) && Restart.Leftovers(junks) && Restart.AllEnd(junks)
    ensures var l := Restart.Load(SavedAfter(db, junks), junk);
      && (l == None <==> Restart.Blank(junks) == Some(0))
      && (l.Some? ==>
            && Restart.DbOf(l.value) == LoadedDb(db, Extra(junks + [junk]))
            && ListsAgree(l.value, LoadedDb(db, Extra(junks + [junk]))))
  {
    var users := Restart.UsersOf(db.names);
    Restart.ReloadAddsUsers();
    Restart.DotsAreReadable(junks);
    Restart.NextRestart(Restart.Reload, users, junks, junk);
    Restart.LoadPrinted(Restart.ListsOf(db).(users := users + Restart.Added(junks)), junk);
    NamesBack(db.names, Restart.Added(junks + [junk]));
    Restart.ListsBack(db, users + Restart.Added(junks + [junk]));
  }

  // ----- proper operations do not see the extra names

  /** No user is added, nobody acts as an extra user or follows one. (Those have no lists, so such a follow
      or post would index out of range.) */
  predicate Proper(op: Op, names: seq<string>, extra: seq<string>) {
    match op
    case AddUser(_) => false
    case Follow(target, follower) => (target in names || target !in extra) && follower < |names|
    case _ => true
  }

  predicate AllProper(ops: seq<Op>, names: seq<string>, extra: seq<string>) {
    forall op :: op in ops ==> Proper(op, names, extra)
  }

  lemma {:induction false} IndexBeforeExtra(names: seq<string>, extra: seq<string>, name: string)
    requires name in names || name !in extra
    ensures IndexOf(names + extra, name) == IndexOf(names, name)
  {
    if names == [] {
      assert names + extra == extra;
      IndexInRange(extra, name);
    } else {
      assert (names + extra)[1..] == names[1..] + extra;
      if names[0] != name {
        IndexBeforeExtra(names[1..], extra, name);
      }
    }
  }

  function WideService(s: Service, extra: seq<string>): Service {
    s.(db := Wide(s.db, extra))
  }

  lemma ProperStep(s: Service, extra: seq<string>, op: Op)
    requires Proper(op, s.db.names, extra)
    ensures Legal(WideService(s, extra), op) <==> Legal(s, op)
    ensures Legal(s, op) ==>
      Step(WideService(s, extra), op) == (WideService(Step(s, op).0, extra), Step(s, op).1)
      && Step(s, op).0.db.names == s.db.names
  {
    if op.Follow? {
      IndexBeforeExtra(s.db.names, extra, op.target);
    }
  }

  lemma {:induction false} ProperRun(s: Service, extra: seq<string>, ops: seq<Op>, reader: nat)
    requires AllProper(ops, s.db.names, extra)
    ensures LegalRun(WideService(s, extra), ops) <==> LegalRun(s, ops)
    ensures LegalRun(s, ops) ==>
      && Last(WideService(s, extra), ops) == WideService(Last(s, ops), extra)
      && Last(s, ops).db.names == s.db.names
      && Delivered(WideService(s, extra), ops, reader) == Delivered(s, ops, reader)
  {
    if ops != [] {
      var init, op := ops[..|ops| - 1], ops[|ops| - 1];
      assert op in ops;
      ProperRun(s, extra, init, reader);
      if LegalRun(s, init) {
        ProperStep(Last(s, init), extra, op);
      }
    }
  }

  /** The ideal with more users that follow nobody. */
  function WideIdeal(i: Ideal, extra: seq<string>): Ideal {
    i.(names := i.names + extra, logs := i.logs + seq(|extra|, _ => []))
  }

  ghost predicate NobodyBeyond(i: Ideal) {
    |i.logs| == |i.names| && forall u, a :: (u, a) in i.follows ==> u < |i.names|
  }

  lemma WidePost(i: Ideal, extra: seq<string>, user: nat, tweet: Tweet)
    requires NobodyBeyond(i)
    ensures IdealStep(WideIdeal(i, extra), Update(user, tweet)) == WideIdeal(IdealStep(i, Update(user, tweet)), extra)
  {
    var wide := IdealStep(WideIdeal(i, extra), Update(user, tweet)).logs;
    var logs := IdealStep(i, Update(user, tweet)).logs + seq(|extra|, _ => []);
    assert |wide| == |logs|;
    forall u | 0 <= u < |wide|
      ensures wide[u] == logs[u]
    {
      assert u >= |i.names| ==> (u, user) !in i.follows;
    }
    assert wide == logs;
  }

  lemma ProperIdealStep(i: Ideal, extra: seq<string>, op: Op)
    requires NobodyBeyond(i) && Proper(op, i.names, extra)
    ensures IdealStep(WideIdeal(i, extra), op) == WideIdeal(IdealStep(i, op), extra)
    ensures NobodyBeyond(IdealStep(i, op)) && IdealStep(i, op).names == i.names
  {
    match op
    case Follow(target, follower) => IndexBeforeExtra(i.names, extra, target);
    case Update(user, tweet) => WidePost(i, extra, user, tweet);
    case _ =>
  }

  lemma {:induction false} ProperIdeal(i: Ideal, extra: seq<string>, ops: seq<Op>)
    requires NobodyBeyond(i) && AllProper(ops, i.names, extra)
    ensures LastIdeal(WideIdeal(i, extra), ops) == WideIdeal(LastIdeal(i, ops), extra)
    ensures NobodyBeyond(LastIdeal(i, ops)) && LastIdeal(i, ops).names == i.names
  {
    if ops != [] {
      assert ops[|ops| - 1] in ops;
      ProperIdeal(i, extra, ops[..|ops| - 1]);
      ProperIdealStep(LastIdeal(i, ops[..|ops| - 1]), extra, ops[|ops| - 1]);
    }
  }

  lemma WideIdealAtRestart(db: Db, extra: seq<string>)
    requires Good(db)
    ensures IdealAtRestart(Wide(db, extra)) == WideIdeal(IdealAtRestart(db), extra)
    ensures NobodyBeyond(IdealAtRestart(db))
  {
    var i, j := IdealAtRestart(Wide(db, extra)), WideIdeal(IdealAtRestart(db), extra);
    forall u | 0 <= u < |i.logs|
      ensures i.logs[u] == j.logs[u]
    {
      assert PendingContents(Wide(db, extra), u) == PendingContents(db, u);
      assert u >= |db.names| ==> PendingContents(db, u) == [];
    }
    assert i.logs == j.logs;
  }

  // ----- deliveries after a load

  /** Deliveries of a run of the loaded server are exact for a reader, who may be an extra user. */
  predicate LoadedExact(db: Db, extra: seq<string>, ops: seq<Op>, reader: nat)
    requires LegalRun(LoadedService(db, extra), ops)
  {
    var s := LoadedService(db, extra);
    Contents(Delivered(s, ops, reader)) + PendingContents(Last(s, ops).db, reader)
    == LogOf(LastIdeal(IdealAtRestart(Wide(db, extra)), ops), reader)
  }

  ghost predicate AlwaysLoadedExact(db: Db, extra: seq<string>) {
    forall ops, reader: nat :: AllProper(ops, db.names, extra) && LegalRun(LoadedService(db, extra), ops) ==>
      LoadedExact(db, extra, ops, reader)
  }

  lemma LogOfWide(i: Ideal, extra: seq<string>, reader: nat)
    ensures LogOf(WideIdeal(i, extra), reader) == LogOf(i, reader)
  {
  }

  /** A proper run of the loaded server is one of the server that was only renumbered. */
  lemma LoadedExactIff(db: Db, extra: seq<string>, ops: seq<Op>, reader: nat)
    requires Good(db) && AllProper(ops, db.names, extra)
    ensures LegalRun(LoadedService(db, extra), ops) <==> LegalRun(RestartedService(db), ops)
    ensures LegalRun(RestartedService(db), ops) ==> (LoadedExact(db, extra, ops, reader) <==> Exact(db, ops, reader))
  {
    assert WideService(RestartedService(db), extra) == LoadedService(db, extra);
    ProperRun(RestartedService(db), extra, ops, reader);
    WideIdealAtRestart(db, extra);
    ProperIdeal(IdealAtRestart(db), extra, ops);
    LogOfWide(LastIdeal(IdealAtRestart(db), ops), extra, reader);
    if LegalRun(RestartedService(db), ops) {
      var db' := Last(RestartedService(db), ops).db;
      assert PendingContents(Wide(db', extra), reader) == PendingContents(db', reader);
    }
  }

  lemma PostsAreProper(author: nat, posts: seq<Tweet>, names: seq<string>, extra: seq<string>)
    ensures AllProper(Posts(author, posts), names, extra)
  {
  }

  /** With something pending, a proper run fails. */
  lemma PendingFails(db: Db, extra: seq<string>)
    requires Good(db) && StoredAreFollowed(db) && !NothingPending(db)
    ensures !AlwaysLoadedExact(db, extra)
  {
    var author, posts, reader := FailingPosts(db);
    var ops := Posts(author, posts);
    PostsAreProper(author, posts, db.names, extra);
    LoadedExactIff(db, extra, ops, reader);
    assert !LoadedExact(db, extra, ops, reader);
  }

  /** Deliveries of the loaded server are exact, in all runs in which nobody acts as an extra user,
      follows one, or adds a user, if and only if nothing was pending when the database was saved. */
  lemma LoadedIsSafeIff(db: Db, extra: seq<string>)
    requires Good(db) && StoredAreFollowed(db)
    ensures AlwaysLoadedExact(db, extra) <==> NothingPending(db)
  {
    if NothingPending(db) {
      RestartIsSafeIff(db);
      forall ops, reader: nat | AllProper(ops, db.names, extra) && LegalRun(LoadedService(db, extra), ops)
        ensures LoadedExact(db, extra, ops, reader)
      {
        LoadedExactIff(db, extra, ops, reader);
      }
    } else {
      PendingFails(db, extra);
    }
  }

  // ----- one life of the server after the other

  /** The leftover id of the load, and what the server then does until it saves. */
  datatype Life = Life(junk: nat, ops: seq<Op>)

  function Junks(lives: seq<Life>): seq<nat> {
    seq(|lives|, i requires 0 <= i < |lives| => lives[i].junk)
  }

  /** What is saved at the end, without the extra names; None if an operation was not legal. */
  function Core(db: Db, lives: seq<Life>): Option<Db> {
    if lives == [] then Some(db)
    else match Core(db, lives[..|lives| - 1])
      case None => None
      case Some(core) =>
        match After(RestartedService(core), lives[|lives| - 1].ops)
        case None => None
        case Some(s) => Some(s.db)
  }

  /** Every life is legal and proper, and nothing is pending at the saves before the last one. */
  predicate Quiet(db: Db, lives: seq<Life>) {
    lives == [] ||
    var init := lives[..|lives| - 1];
    && Quiet(db, init) && Core(db, init).Some? && NothingPending(Core(db, init).value)
    && AllProper(lives[|lives| - 1].ops, db.names, Extra(Junks(lives)))
    && LegalRun(LoadedService(Core(db, init).value, Extra(Junks(lives))), lives[|lives| - 1].ops)
  }

  /** One life keeps the database in order if nothing was pending before. */
  lemma LifeKeepsOrder(core: Db, extra: seq<string>, ops: seq<Op>)
    requires Good(core) && StoredAreFollowed(core) && NothingPending(core)
    requires AllProper(ops, core.names, extra) && LegalRun(LoadedService(core, extra), ops)
    ensures LegalRun(RestartedService(core), ops)
    ensures var db' := Last(RestartedService(core), ops).db;
      && Good(db') && StoredAreFollowed(db') && db'.names == core.names
      && Last(LoadedService(core, extra), ops).db == Wide(db', extra)
  {
    assert WideService(RestartedService(core), extra) == LoadedService(core, extra);
    ProperRun(RestartedService(core), extra, ops, 0);
    RestartKeepsOrderIff(core);
    RunGood(RestartedService(core), ops);
    StoredAreFollowedRun(RestartedService(core), ops);
  }

  lemma {:induction false} QuietLivesKeepOrder(db: Db, lives: seq<Life>)
    requires Good(db) && StoredAreFollowed(db) && Quiet(db, lives)
    ensures Core(db, lives).Some?
    ensures var core := Core(db, lives).value; Good(core) && StoredAreFollowed(core) && core.names == db.names
  {
    if lives != [] {
      var init := lives[..|lives| - 1];
      QuietLivesKeepOrder(db, init);
      LifeKeepsOrder(Core(db, init).value, Extra(Junks(lives)), lives[|lives| - 1].ops);
    }
  }

  /** What `Core` says is what the loaded server really has at the end of each life, but for the names that
      the loads have put behind. */
  lemma {:induction false} CoreIsSaved(db: Db, lives: seq<Life>)
    requires Good(db) && StoredAreFollowed(db) && Quiet(db, lives) && lives != []
    ensures var init, last := lives[..|lives| - 1], lives[|lives| - 1];
      && Core(db, []) == Some(db) && Core(db, init).Some? && Core(db, lives).Some?
      && LegalRun(LoadedService(Core(db, init).value, Extra(Junks(lives))), last.ops)
      && Last(LoadedService(Core(db, init).value, Extra(Junks(lives))), last.ops).db
         == Wide(Core(db, lives).value, Extra(Junks(lives)))
  {
    var init := lives[..|lives| - 1];
    QuietLivesKeepOrder(db, init);
    LifeKeepsOrder(Core(db, init).value, Extra(Junks(lives)), lives[|lives| - 1].ops);
  }

  /** Over any number of restarts with nothing pending at the saves so far: the next life is exact,
      whatever its load leaves behind the users and whatever is done in it, if and only if nothing is
      pending at this save either. */
  lemma {:induction false} NextLifeIsSafeIff(db: Db, lives: seq<Life>, junk: nat)
    requires Good(db) && StoredAreFollowed(db) && Quiet(db, lives)
    ensures Core(db, lives).Some?
    ensures AlwaysLoadedExact(Core(db, lives).value, Extra(Junks(lives) + [junk]))
      <==> NothingPending(Core(db, lives).value)
  {
    QuietLivesKeepOrder(db, lives);
    LoadedIsSafeIff(Core(db, lives).value, Extra(Junks(lives) + [junk]));
  }

  // ----- the extra users

  /** An extra user follows the first user, who posts. */
  function ExtraFollows(db: Db, extraUser: nat, tweet: Tweet): seq<Op>
    requires db.names != []
  {
    [] + [Follow(db.names[0], extraUser)] + [Update(0, tweet)]
  }

  predicate IsExtra(db: Db, extra: seq<string>, u: nat) {
    |db.names| <= u < |db.names| + |extra|
  }

  /** What the extra user gets ... */
  lemma {:induction false} ExtraRun(db: Db, extra: seq<string>, u: nat, tweet: Tweet)
    requires Good(db) && db.names != [] && IsExtra(db, extra, u)
    ensures LegalRun(LoadedService(db, extra), ExtraFollows(db, u, tweet))
    ensures Delivered(LoadedService(db, extra), ExtraFollows(db, u, tweet), u) == []
    ensures PendingContents(Last(LoadedService(db, extra), ExtraFollows(db, u, tweet)).db, u) == []
  {
    var s, follow, post := LoadedService(db, extra), Follow(db.names[0], u), Update(0, tweet);
    RunNext(s, [], follow);
    var s1 := Last(s, [] + [follow]);
    RunNext(s, [] + [follow], post);
    NothingDelivered(s, ExtraFollows(db, u, tweet), u);
    ForwardSize(s1.db.inboxes, s1.db.followers[0], Ref(0, s1.db.numTweets));
  }

  lemma {:induction false} ExtraMayFollow(db: Db, extra: seq<string>, u: nat)
    requires Good(db) && db.names != [] && IsExtra(db, extra, u)
    ensures var i := IdealStep(IdealAtRestart(Wide(db, extra)), Follow(db.names[0], u));
      (u, 0) in i.follows && u < |i.logs| && i.logs[u] == [] && i.posted == 0
  {
    WideIdealAtRestart(db, extra);
    assert IndexOf(db.names + extra, db.names[0]) == Some(0);
  }

  lemma {:induction false} PostIsLogged(i: Ideal, author: nat, reader: nat, tweet: Tweet)
    requires (reader, author) in i.follows && reader < |i.logs| && i.logs[reader] == []
    ensures LogOf(IdealStep(i, Update(author, tweet)), reader) == [Content(tweet.(id := i.posted))]
  {
    var none: seq<Tweet> := [];
    assert none + [Content(tweet.(id := i.posted))] == [Content(tweet.(id := i.posted))];
  }

  /** ... and what it is entitled to. */
  lemma {:induction false} ExtraLog(db: Db, extra: seq<string>, u: nat, tweet: Tweet)
    requires Good(db) && db.names != [] && IsExtra(db, extra, u)
    ensures LogOf(LastIdeal(IdealAtRestart(Wide(db, extra)), ExtraFollows(db, u, tweet)), u)
         == [Content(tweet.(id := 0))]
  {
    var i, follow := IdealAtRestart(Wide(db, extra)), Follow(db.names[0], u);
    IdealNext(i, [], follow);
    IdealNext(i, [] + [follow], Update(0, tweet));
    ExtraMayFollow(db, extra, u);
    PostIsLogged(IdealStep(i, follow), 0, u, tweet);
  }

  /** An extra user is entitled to the tweet and never gets it. So the restriction to proper runs is
      needed for every loaded database with a user. */
  lemma {:induction false} ExtraFollowerGetsNothing(db: Db, extra: seq<string>, u: nat, tweet: Tweet)
    requires Good(db) && db.names != [] && IsExtra(db, extra, u)
    ensures LegalRun(LoadedService(db, extra), ExtraFollows(db, u, tweet))
    ensures !LoadedExact(db, extra, ExtraFollows(db, u, tweet), u)
  {
    ExtraRun(db, extra, u, tweet);
    ExtraLog(db, extra, u, tweet);
    assert Contents([]) + [] == [];
  }

  // ----- a pending tweet can survive the files

  const PAYLOAD := seq(256, _ => 'x')

  const STORED := Tweet(0, 0, 7, PAYLOAD, 1)

  /** User "b" follows "a", who has posted one tweet. */
  const WAITING := Db(["a", "b"], [[1], []], [[STORED], []], [[], [Ref(0, 0)]], 1)

  lemma {:induction false} FindStored(id: nat)
    ensures Find([STORED], id) == if id == 0 then Some(STORED) else None
  {
    assert [STORED][1..] == [];
  }

  lemma WaitingIsBalanced()
    ensures Balanced(WAITING.store, WAITING.inboxes, multiset{})
  {
    var inboxes: Inboxes, store: Store := WAITING.inboxes, WAITING.store;
    assert AllRefs(inboxes[1..][1..]) == multiset{};
    assert AllRefs(inboxes[1..]) == multiset{Ref(0, 0)};
    assert AllRefs(inboxes) == multiset{Ref(0, 0)};
    forall r
      ensures CountOf(store, r) == AllRefs(inboxes)[r] + multiset{}[r]
    {
      FindStored(r.id);
      assert store[0] == [STORED] && store[1] == [];
    }
  }

  lemma WaitingIsGood()
    ensures Good(WAITING) && StoredAreFollowed(WAITING) && !NothingPending(WAITING)
  {
    WaitingIsBalanced();
    assert WAITING.inboxes[1] == [Ref(0, 0)];
  }

  lemma WaitingRows()
    ensures Restart.RefRows(WAITING.inboxes) == [[], [Persistence.OfRef(Ref(0, 0))]]
    ensures Restart.TweetRows(WAITING.store) == [[Persistence.OfTweet(STORED)], []]
  {
    var inboxes: Inboxes, store: Store := WAITING.inboxes, WAITING.store;
    assert Restart.RefRow(inboxes[0]) == [] && Restart.RefRow(inboxes[1]) == [Persistence.OfRef(Ref(0, 0))];
    assert Restart.TweetRow(store[0]) == [Persistence.OfTweet(STORED)] && Restart.TweetRow(store[1]) == [];
  }

  lemma WaitingUsersAreReadable()
    ensures forall u :: u in Restart.UsersOf(WAITING.names) ==> Readable(u)
  {
    assert Restart.UsersOf(WAITING.names) == [User("a", 0), User("b", 1)];
  }

  lemma WaitingFits()
    ensures Restart.Fits(WAITING)
  {
    WaitingRows();
    assert forall a :: 0 <= a < 2 ==> Persistence.IdsInRange(WAITING.followers[a]);
  }

  lemma WaitingSurvives()
    ensures Survives(WAITING)
  {
    WaitingUsersAreReadable();
    WaitingFits();
    WaitingRows();
  }

  /** A saved database that loads back whole, whatever the leftover id, and of which a run then gives a
      follower an old tweet for a new one (see `Renumbering.OldTweetIsDeliveredAgain`). */
  lemma {:induction false} SurvivingTweetIsDeliveredAgain(junk: nat)
    ensures Good(WAITING) && Survives(WAITING)
    ensures var l := Restart.Load(SavedAfter(WAITING, []), junk);
      l.Some? && Restart.DbOf(l.value) == LoadedDb(WAITING, Extra([] + [junk]))
    ensures !AlwaysLoadedExact(WAITING, Extra([] + [junk]))
  {
    WaitingIsGood();
    WaitingSurvives();
    LoadGivesLoadedDb(WAITING, [], junk);
    PendingFails(WAITING, Extra([] + [junk]));
  }
}
