/** The server's operations, each taken as one step, and what they add up to: every tweet reaches
    every follower of its author exactly once and in order, and a second connection of a user gets
    a lossless copy. */
module Delivery {
  import opened Mailbox
  import opened Connections

  datatype Db = Db(names: seq<string>, followers: seq<seq<nat>>, store: Store, inboxes: Inboxes, numTweets: nat)

  datatype Service = Service(db: Db, table: Table)

  datatype Op =
    | AddUser(name: string)
    | Follow(target: string, follower: nat)
    | Update(user: nat, tweet: Tweet)
    | Retrieve(user: nat)
    | Register(user: nat)
    | Close(user: nat)

  // ----- the operations on the database

  function IndexOf(names: seq<string>, name: string): Option<nat> {
    if names == [] then None
    else if names[0] == name then Some(0)
    else match IndexOf(names[1..], name)
      case None => None
      case Some(i) => Some(i + 1)
  }

  lemma {:induction false} IndexInRange(names: seq<string>, name: string)
    ensures match IndexOf(names, name)
      case None => name !in names
      case Some(i) => i < |names| && names[i] == name && name !in names[..i]
  {
    if names != [] {
      IndexInRange(names[1..], name);
      assert names == [names[0]] + names[1..];
      match IndexOf(names[1..], name)
      case None =>
      case Some(i) => assert names[0] != name ==> names[..i + 1] == [names[0]] + names[1..][..i];
    }
  }

  /** Where a search from the front stops is the index. */
  lemma {:induction false} IndexOfFirst(names: seq<string>, name: string, i: nat)
    requires i <= |names| && (forall k :: 0 <= k < i ==> names[k] != name) && (i < |names| ==> names[i] == name)
    ensures IndexOf(names, name) == if i < |names| then Some(i) else None
  {
    if i > 0 {
      IndexOfFirst(names[1..], name, i - 1);
    }
  }

  function AddUserDb(db: Db, name: string): Db {
    Db(db.names + [name], db.followers + [[]], db.store + [[]], db.inboxes + [[]], db.numTweets)
  }

  function FollowDb(db: Db, target: string, follower: nat): (Db, bool) {
    match IndexOf(db.names, target)
    case None => (db, false)
    case Some(a) =>
      if a >= |db.followers| || follower in db.followers[a] then (db, false)
      else (db.(followers := db.followers[a := db.followers[a] + [follower]]), true)
  }

  function ForwardAll(inboxes: Inboxes, to: seq<nat>, r: Ref): Inboxes {
    if to == [] then inboxes
    else
      var u := to[|to| - 1];
      var rest := ForwardAll(inboxes, to[..|to| - 1], r);
      if u < |rest| then rest[u := rest[u] + [r]] else rest
  }

  function UpdateDb(db: Db, user: nat, tweet: Tweet): Db
    requires user < |db.followers| && user < |db.store|
  {
    var to := db.followers[user];
    if to == [] then db.(numTweets := db.numTweets + 1)
    else
      var t := tweet.(id := db.numTweets, remaining := |to|);
      db.(numTweets := db.numTweets + 1,
          store := db.store[user := db.store[user] + [t]],
          inboxes := ForwardAll(db.inboxes, to, Ref(user, t.id)))
  }

  function Resolve(store: Store, r: Ref): seq<Tweet> {
    if r.user >= |store| then []
    else match Find(store[r.user], r.id)
      case None => []
      case Some(t) => [t]
  }

  function ResolveAll(store: Store, refs: seq<Ref>): seq<Tweet> {
    if refs == [] then [] else ResolveAll(store, refs[..|refs| - 1]) + Resolve(store, refs[|refs| - 1])
  }

  function ReleaseAll(store: Store, refs: seq<Ref>): (s: Store)
    ensures |s| == |store|
  {
    if refs == [] then store
    else
      var rest := ReleaseAll(store, refs[..|refs| - 1]);
      var r := refs[|refs| - 1];
      if r.user < |rest| then ReleaseIn(rest, r) else rest
  }

  function RetrieveDb(db: Db, user: nat): (Db, seq<Tweet>)
    requires user < |db.inboxes|
  {
    var refs := db.inboxes[user];
    (db.(inboxes := db.inboxes[user := []], store := ReleaseAll(db.store, refs)), ResolveAll(db.store, refs))
  }

  // ----- the operations of the service

  /** What an operation may rely on. A close looks at the first entry of the table before it looks for the
      end; one of a user that has no entry finds nothing. */
  predicate Legal(s: Service, op: Op) {
    match op
    case AddUser(_) => true
    case Follow(_, follower) => follower < |s.db.names|
    case Update(user, _) => user < |s.db.followers| && user < |s.db.store|
    case Retrieve(user) => user < |s.db.inboxes| && user in s.table
    case Register(_) => true
    case Close(_) => s.table != map[]
  }

  /** Anybody may register and be added; the other operations need no more than an entry to look at. */
  lemma LegalOperations(s: Service, user: nat, name: string, tweet: Tweet)
    ensures Legal(s, AddUser(name)) && Legal(s, Register(user))
    ensures user < |s.db.names| ==> Legal(s, Follow(name, user))
    ensures user < |s.db.followers| && user < |s.db.store| ==> Legal(s, Update(user, tweet))
    ensures user < |s.db.inboxes| && user in s.table ==> Legal(s, Retrieve(user))
    ensures s.table != map[] ==> Legal(s, Close(user))
  {
  }

  /** A retrieval that finds nothing pending takes what was kept for the second connection; any other
      one also keeps a copy for the second connection if there is one. */
  function RetrieveService(s: Service, user: nat): (Service, seq<Tweet>)
    requires user < |s.db.inboxes| && user in s.table
  {
    if s.db.inboxes[user] == [] then
      var (table, out) := TakeDuplicates(s.table, user);
      (s.(table := table), out)
    else
      var (db, out) := RetrieveDb(s.db, user);
      (Service(db, if s.table[user].count == 2 then AddDuplicates(s.table, user, out) else s.table), out)
  }

  function Step(s: Service, op: Op): (Service, seq<Tweet>)
    requires Legal(s, op)
  {
    match op
    case AddUser(name) => (s.(db := AddUserDb(s.db, name)), [])
    case Follow(target, follower) => (s.(db := FollowDb(s.db, target, follower).0), [])
    case Update(user, tweet) => (s.(db := UpdateDb(s.db, user, tweet)), [])
    case Retrieve(user) => RetrieveService(s, user)
    case Register(user) => (s.(table := Connections.Register(s.table, user).0), [])
    case Close(user) => (s.(table := Connections.Close(s.table, user).0), [])
  }

  // ----- invariant

  predicate Increasing(list: seq<Tweet>) {
    forall i, j :: 0 <= i < j < |list| ==> list[i].id < list[j].id
  }

  predicate GoodInbox(inbox: seq<Ref>, users: nat, bound: nat) {
    && (forall i :: 0 <= i < |inbox| ==> inbox[i].user < users && inbox[i].id < bound)
    && (forall i, j :: 0 <= i < j < |inbox| ==> inbox[i].id < inbox[j].id)
  }

  predicate GoodFollowers(list: seq<nat>, users: nat) {
    && (forall i :: 0 <= i < |list| ==> list[i] < users)
    && (forall i, j :: 0 <= i < j < |list| ==> list[i] != list[j])
  }

  /** The structure that makes linear search unambiguous. */
  predicate Structured(db: Db) {
    && |db.names| == |db.followers| == |db.store| == |db.inboxes|
    && (forall a :: 0 <= a < |db.followers| ==> GoodFollowers(db.followers[a], |db.names|))
    && GoodStore(db.store, db.numTweets)
    && (forall a :: 0 <= a < |db.store| ==> Increasing(db.store[a]))
    && (forall u :: 0 <= u < |db.inboxes| ==> GoodInbox(db.inboxes[u], |db.names|, db.numTweets))
  }

  /** Every counter is the number of references in the pending lists, plus `extra` ones. */
  ghost predicate Balanced(store: Store, inboxes: Inboxes, extra: multiset<Ref>) {
    forall r :: CountOf(store, r) == AllRefs(inboxes)[r] + extra[r]
  }

  ghost predicate Good(db: Db) {
    Structured(db) && Balanced(db.store, db.inboxes, multiset{})
  }

  // ----- forwarding

  lemma {:induction false} ForwardSize(inboxes: Inboxes, to: seq<nat>, r: Ref)
    ensures |ForwardAll(inboxes, to, r)| == |inboxes|
  {
    if to != [] {
      ForwardSize(inboxes, to[..|to| - 1], r);
    }
  }

  lemma {:induction false} ForwardEffect(inboxes: Inboxes, to: seq<nat>, r: Ref)
    requires GoodFollowers(to, |inboxes|)
    ensures |ForwardAll(inboxes, to, r)| == |inboxes|
    ensures forall u :: 0 <= u < |inboxes| ==>
      ForwardAll(inboxes, to, r)[u] == inboxes[u] + (if u in to then [r] else [])
  {
    if to != [] {
      var init, last := to[..|to| - 1], to[|to| - 1];
      ForwardEffect(inboxes, init, r);
      assert to == init + [last];
      assert last !in init;
      assert forall u :: 0 <= u < |inboxes| ==> inboxes[u] + [] == inboxes[u];
    }
  }

  lemma {:induction false} ForwardCount(inboxes: Inboxes, to: seq<nat>, r: Ref, q: Ref)
    requires GoodFollowers(to, |inboxes|)
    ensures AllRefs(ForwardAll(inboxes, to, r))[q] == AllRefs(inboxes)[q] + (if q == r then |to| else 0)
  {
    if to != [] {
      var init, u := to[..|to| - 1], to[|to| - 1];
      var rest := ForwardAll(inboxes, init, r);
      ForwardCount(inboxes, init, r, q);
      ForwardEffect(inboxes, init, r);
      AllRefsUpdate(rest, u, rest[u] + [r]);
      assert (AllRefs(rest[u := rest[u] + [r]]) + multiset(rest[u]))[q] == (AllRefs(rest) + multiset(rest[u] + [r]))[q];
    }
  }

  // ----- the invariant is kept

  lemma {:induction false} AllRefsAppend(inboxes: Inboxes)
    ensures AllRefs(inboxes + [[]]) == AllRefs(inboxes)
  {
    if inboxes == [] {
      assert inboxes + [[]] == [[]];
      assert (inboxes + [[]])[1..] == [];
    } else {
      AllRefsAppend(inboxes[1..]);
      assert (inboxes + [[]])[1..] == inboxes[1..] + [[]];
    }
  }

  lemma AddUserStructured(db: Db, name: string)
    requires Structured(db)
    ensures Structured(AddUserDb(db, name))
  {
    var db' := AddUserDb(db, name);
    forall a | 0 <= a < |db'.followers|
      ensures GoodFollowers(db'.followers[a], |db'.names|)
    {
      assert a < |db.followers| ==> db'.followers[a] == db.followers[a];
    }
    forall a | 0 <= a < |db'.store|
      ensures GoodList(db'.store[a], db'.numTweets) && Increasing(db'.store[a])
    {
      assert a < |db.store| ==> db'.store[a] == db.store[a];
    }
    forall u | 0 <= u < |db'.inboxes|
      ensures GoodInbox(db'.inboxes[u], |db'.names|, db'.numTweets)
    {
      assert u < |db.inboxes| ==> db'.inboxes[u] == db.inboxes[u];
    }
  }

  lemma AddUserGood(db: Db, name: string)
    requires Good(db)
    ensures Good(AddUserDb(db, name))
  {
    AddUserStructured(db, name);
    AllRefsAppend(db.inboxes);
    forall r: Ref
      ensures CountOf(db.store + [[]], r) == CountOf(db.store, r)
    {
    }
  }

  lemma {:induction false} FirstIsIndex(names: seq<string>, name: string, a: nat)
    requires a < |names| && names[a] == name && name !in names[..a]
    ensures IndexOf(names, name) == Some(a)
  {
    forall k | 0 <= k < a
      ensures names[k] != name
    {
      assert names[k] in names[..a];
    }
    IndexOfFirst(names, name, a);
  }

  /** A follow of the first user of that name, who is not yet followed, puts the follower at the end of that
      user's list. */
  lemma {:induction false} FollowEnters(db: Db, target: string, follower: nat, a: nat)
    requires a < |db.names| && a < |db.followers| && db.names[a] == target && target !in db.names[..a]
    requires follower !in db.followers[a]
    ensures FollowDb(db, target, follower)
         == (db.(followers := db.followers[a := db.followers[a] + [follower]]), true)
  {
    FirstIsIndex(db.names, target, a);
  }

  /** Any other follow changes nothing: the name is unknown, or the follower is there already. */
  lemma {:induction false} FollowRefused(db: Db, target: string, follower: nat, a: nat)
    requires target in db.names ==>
      a < |db.names| && a < |db.followers| && db.names[a] == target && target !in db.names[..a]
      && follower in db.followers[a]
    ensures FollowDb(db, target, follower) == (db, false)
  {
    if target in db.names {
      FirstIsIndex(db.names, target, a);
    } else {
      IndexInRange(db.names, target);
    }
  }

  lemma FollowGood(db: Db, target: string, follower: nat)
    requires Good(db) && follower < |db.names|
    ensures Good(FollowDb(db, target, follower).0)
  {
    IndexInRange(db.names, target);
  }

  lemma UpdateBalanced(db: Db, user: nat, tweet: Tweet, q: Ref)
    requires Good(db) && user < |db.names| && db.followers[user] != []
    ensures var db' := UpdateDb(db, user, tweet); CountOf(db'.store, q) == AllRefs(db'.inboxes)[q]
  {
    var to := db.followers[user];
    var t := tweet.(id := db.numTweets, remaining := |to|);
    ForwardCount(db.inboxes, to, Ref(user, t.id), q);
    FindAppend(db.store[user], t, q.id);
    FindIn(db.store[user], t.id);
    assert CountOf(db.store, q) == AllRefs(db.inboxes)[q] + multiset{}[q];
  }

  lemma UpdateStore(db: Db, user: nat, tweet: Tweet)
    requires Structured(db) && user < |db.names|
    ensures var db' := UpdateDb(db, user, tweet);
      && |db'.store| == |db.store|
      && forall a :: 0 <= a < |db.store| ==> GoodList(db'.store[a], db'.numTweets) && Increasing(db'.store[a])
  {
    var db' := UpdateDb(db, user, tweet);
    forall a | 0 <= a < |db.store|
      ensures GoodList(db'.store[a], db'.numTweets) && Increasing(db'.store[a])
    {
      assert GoodList(db.store[a], db.numTweets) && Increasing(db.store[a]);
      assert a != user ==> db'.store[a] == db.store[a];
    }
  }

  lemma UpdateStructured(db: Db, user: nat, tweet: Tweet)
    requires Structured(db) && user < |db.names|
    ensures Structured(UpdateDb(db, user, tweet))
  {
    UpdateStore(db, user, tweet);
    if db.followers[user] != [] {
      ForwardEffect(db.inboxes, db.followers[user], Ref(user, db.numTweets));
    }
  }

  lemma UpdateGood(db: Db, user: nat, tweet: Tweet)
    requires Good(db) && user < |db.names|
    ensures Good(UpdateDb(db, user, tweet))
  {
    UpdateStructured(db, user, tweet);
    if db.followers[user] != [] {
      forall q {
        UpdateBalanced(db, user, tweet, q);
      }
    }
  }

  // ----- retrieving

  lemma {:induction false} ReleaseAbove(list: seq<Tweet>, id: nat, floor: nat)
    requires forall i :: 0 <= i < |list| ==> list[i].id > floor
    ensures forall i :: 0 <= i < |Release(list, id)| ==> Release(list, id)[i].id > floor
  {
    if list != [] {
      ReleaseAbove(list[1..], id, floor);
    }
  }

  lemma {:induction false} ReleaseIncreasing(list: seq<Tweet>, id: nat)
    requires Increasing(list)
    ensures Increasing(Release(list, id))
  {
    if list != [] {
      ReleaseIncreasing(list[1..], id);
      ReleaseAbove(list[1..], id, list[0].id);
    }
  }

  /** The store stays in order while references are released. */
  lemma {:induction false} ReleaseAllOrdered(store: Store, refs: seq<Ref>, bound: nat)
    requires GoodStore(store, bound) && forall a :: 0 <= a < |store| ==> Increasing(store[a])
    ensures GoodStore(ReleaseAll(store, refs), bound)
    ensures forall a :: 0 <= a < |store| ==> Increasing(ReleaseAll(store, refs)[a])
  {
    if refs != [] {
      var rest, r := ReleaseAll(store, refs[..|refs| - 1]), refs[|refs| - 1];
      ReleaseAllOrdered(store, refs[..|refs| - 1], bound);
      if r.user < |rest| {
        ReleaseCount(rest, r, bound);
        ReleaseIncreasing(rest[r.user], r.id);
      }
    }
  }

  /** Releasing one claimed reference leaves the counters balanced with the others. */
  lemma ReleaseOneBalances(store: Store, inboxes: Inboxes, r: Ref, left: seq<Ref>, bound: nat)
    requires GoodStore(store, bound) && r.user < |store| && Balanced(store, inboxes, multiset([r] + left))
    ensures Balanced(ReleaseIn(store, r), inboxes, multiset(left))
  {
    ReleaseCount(store, r, bound);
    forall q
      ensures CountOf(ReleaseIn(store, r), q) == AllRefs(inboxes)[q] + multiset(left)[q]
    {
      assert CountOf(store, q) == AllRefs(inboxes)[q] + multiset([r] + left)[q];
    }
  }

  lemma {:induction false} ReleaseAllNext(store: Store, refs: seq<Ref>, k: nat)
    requires k < |refs| && refs[k].user < |store|
    ensures ReleaseAll(store, refs[..k + 1]) == ReleaseIn(ReleaseAll(store, refs[..k]), refs[k])
  {
    assert refs[..k + 1][..k] == refs[..k];
  }

  lemma {:induction false} ReleaseBalances(store: Store, inboxes: Inboxes, refs: seq<Ref>, k: nat, bound: nat)
    requires k <= |refs| && GoodStore(store, bound) && forall a :: 0 <= a < |store| ==> Increasing(store[a])
    requires forall i :: 0 <= i < |refs| ==> refs[i].user < |store|
    requires Balanced(store, inboxes, multiset(refs))
    ensures Balanced(ReleaseAll(store, refs[..k]), inboxes, multiset(refs[k..]))
  {
    if k == 0 {
      assert refs[0..] == refs;
    } else {
      ReleaseBalances(store, inboxes, refs, k - 1, bound);
      ReleaseAllOrdered(store, refs[..k - 1], bound);
      assert refs[k - 1..] == [refs[k - 1]] + refs[k..];
      ReleaseAllNext(store, refs, k - 1);
      ReleaseOneBalances(ReleaseAll(store, refs[..k - 1]), inboxes, refs[k - 1], refs[k..], bound);
    }
  }

  /** Claiming an inbox moves its references from pending to claimed. */
  lemma ClaimBalances(db: Db, user: nat)
    requires Good(db) && user < |db.inboxes|
    ensures Balanced(db.store, db.inboxes[user := []], multiset(db.inboxes[user]))
  {
    AllRefsUpdate(db.inboxes, user, []);
    forall r
      ensures CountOf(db.store, r) == AllRefs(db.inboxes[user := []])[r] + multiset(db.inboxes[user])[r]
    {
      assert (AllRefs(db.inboxes[user := []]) + multiset(db.inboxes[user]))[r] == (AllRefs(db.inboxes) + multiset{})[r];
      assert CountOf(db.store, r) == AllRefs(db.inboxes)[r] + multiset{}[r];
    }
  }

  lemma RetrieveGood(db: Db, user: nat)
    requires Good(db) && user < |db.inboxes|
    ensures Good(RetrieveDb(db, user).0)
  {
    var refs := db.inboxes[user];
    ClaimBalances(db, user);
    ReleaseBalances(db.store, db.inboxes[user := []], refs, |refs|, db.numTweets);
    assert refs[..|refs|] == refs && refs[|refs|..] == [];
    ReleaseAllOrdered(db.store, refs, db.numTweets);
  }

  lemma RetrieveStepGood(s: Service, user: nat)
    requires Good(s.db) && GoodTable(s.table) && user < |s.db.inboxes| && user in s.table
    ensures Good(RetrieveService(s, user).0.db) && GoodTable(RetrieveService(s, user).0.table)
  {
    RetrieveGood(s.db, user);
  }

  /** Every operation keeps the structure, the balance and the connection table in order. */
  lemma StepGood(s: Service, op: Op)
    requires Good(s.db) && GoodTable(s.table) && Legal(s, op)
    ensures Good(Step(s, op).0.db) && GoodTable(Step(s, op).0.table)
  {
    match op
    case AddUser(name) => AddUserGood(s.db, name);
    case Follow(target, follower) => FollowGood(s.db, target, follower);
    case Update(user, tweet) => UpdateGood(s.db, user, tweet);
    case Retrieve(user) => RetrieveStepGood(s, user);
    case Register(_) =>
    case Close(_) =>
  }

  // ----- what the service is for, without stores, counters and references

  /** The tweet as its readers see it. */
  function Content(t: Tweet): Tweet {
    t.(remaining := 0)
  }

  function Contents(ts: seq<Tweet>): seq<Tweet> {
    if ts == [] then [] else Contents(ts[..|ts| - 1]) + [Content(ts[|ts| - 1])]
  }

  lemma {:induction false} ContentsConcat(a: seq<Tweet>, b: seq<Tweet>)
    ensures Contents(a + b) == Contents(a) + Contents(b)
  {
    if b == [] {
      assert a + b == a;
    } else {
      assert (a + b)[..|a + b| - 1] == a + b[..|b| - 1];
      ContentsConcat(a, b[..|b| - 1]);
    }
  }

  /** `follows` holds (reader, author) pairs; `logs[u]` is what user u is entitled to, in order. */
  datatype Ideal = Ideal(names: seq<string>, follows: set<(nat, nat)>, posted: nat, logs: seq<seq<Tweet>>)

  function IdealStep(i: Ideal, op: Op): Ideal {
    match op
    case AddUser(name) => i.(names := i.names + [name], logs := i.logs + [[]])
    case Follow(target, follower) =>
      (match IndexOf(i.names, target)
       case None => i
       case Some(author) => i.(follows := i.follows + {(follower, author)}))
    case Update(user, tweet) =>
      var t := Content(tweet.(id := i.posted));
      i.(posted := i.posted + 1,
         logs := seq(|i.logs|, u requires 0 <= u < |i.logs| =>
           if (u, user) in i.follows then i.logs[u] + [t] else i.logs[u]))
    case _ => i
  }

  // ----- runs

  /** The service after the operations, if each was legal where it was called. */
  function After(s: Service, ops: seq<Op>): Option<Service> {
    if ops == [] then Some(s)
    else match After(s, ops[..|ops| - 1])
      case None => None
      case Some(t) => if Legal(t, ops[|ops| - 1]) then Some(Step(t, ops[|ops| - 1]).0) else None
  }

  predicate LegalRun(s: Service, ops: seq<Op>) {
    After(s, ops).Some?
  }

  function Last(s: Service, ops: seq<Op>): Service
    requires LegalRun(s, ops)
  {
    After(s, ops).value
  }

  function LastIdeal(i: Ideal, ops: seq<Op>): Ideal {
    if ops == [] then i else IdealStep(LastIdeal(i, ops[..|ops| - 1]), ops[|ops| - 1])
  }

  /** One operation on, at the end of a run. */
  lemma RunNext(s: Service, ops: seq<Op>, op: Op)
    requires LegalRun(s, ops)
    ensures LegalRun(s, ops + [op]) <==> Legal(Last(s, ops), op)
    ensures Legal(Last(s, ops), op) ==> Last(s, ops + [op]) == Step(Last(s, ops), op).0
  {
    assert (ops + [op])[..|ops|] == ops;
  }

  /** A run is a run of its first part followed by one of the rest. */
  lemma {:induction false} RunConcat(s: Service, a: seq<Op>, b: seq<Op>)
    requires LegalRun(s, a)
    ensures After(s, a + b) == After(Last(s, a), b)
  {
    if b == [] {
      assert a + b == a;
    } else {
      assert (a + b)[..|a + b| - 1] == a + b[..|b| - 1];
      RunConcat(s, a, b[..|b| - 1]);
    }
  }

  /** A retrieval by `user` that finds something pending. */
  predicate Primary(s: Service, op: Op, user: nat) {
    op == Retrieve(user) && user < |s.db.inboxes| && s.db.inboxes[user] != []
  }

  /** Everything `user` got from primary retrievals. */
  function Delivered(s: Service, ops: seq<Op>, user: nat): seq<Tweet>
    requires LegalRun(s, ops)
  {
    if ops == [] then []
    else
      var before, op := Last(s, ops[..|ops| - 1]), ops[|ops| - 1];
      Delivered(s, ops[..|ops| - 1], user) + (if Primary(before, op, user) then Step(before, op).1 else [])
  }

  predicate NoRetrievals(ops: seq<Op>) {
    forall op :: op in ops ==> !op.Retrieve?
  }

  lemma {:induction false} NothingDelivered(s: Service, ops: seq<Op>, reader: nat)
    requires LegalRun(s, ops) && NoRetrievals(ops)
    ensures Delivered(s, ops, reader) == []
  {
    if ops != [] {
      assert ops[|ops| - 1] in ops;
      NothingDelivered(s, ops[..|ops| - 1], reader);
    }
  }

  lemma {:induction false} IdealNext(i: Ideal, ops: seq<Op>, op: Op)
    ensures LastIdeal(i, ops + [op]) == IdealStep(LastIdeal(i, ops), op)
  {
    assert (ops + [op])[..|ops|] == ops;
  }

  ghost predicate GoodService(s: Service) {
    Good(s.db) && GoodTable(s.table)
  }

  lemma {:induction false} RunGood(s: Service, ops: seq<Op>)
    requires GoodService(s) && LegalRun(s, ops)
    ensures GoodService(Last(s, ops))
  {
    if ops != [] {
      RunGood(s, ops[..|ops| - 1]);
      StepGood(Last(s, ops[..|ops| - 1]), ops[|ops| - 1]);
    }
  }

  // ----- exactly once and in order

  /** The contents behind a reference. */
  function Known(store: Store, r: Ref): Option<Tweet> {
    if r.user < |store| && Find(store[r.user], r.id).Some? then Some(Content(Find(store[r.user], r.id).value)) else None
  }

  lemma ResolveKnown(store: Store, r: Ref)
    ensures Contents(Resolve(store, r)) == match Known(store, r) case None => [] case Some(t) => [t]
  {
    if Known(store, r).Some? {
      var t := Find(store[r.user], r.id).value;
      assert Contents([t]) == Contents([]) + [Content(t)];
    }
  }

  lemma {:induction false} SameContents(store: Store, store': Store, refs: seq<Ref>)
    requires forall i :: 0 <= i < |refs| ==> Known(store', refs[i]) == Known(store, refs[i])
    ensures Contents(ResolveAll(store', refs)) == Contents(ResolveAll(store, refs))
  {
    if refs != [] {
      var init, r := refs[..|refs| - 1], refs[|refs| - 1];
      SameContents(store, store', init);
      ContentsConcat(ResolveAll(store, init), Resolve(store, r));
      ContentsConcat(ResolveAll(store', init), Resolve(store', r));
      ResolveKnown(store, r);
      ResolveKnown(store', r);
    }
  }

  /** A tweet that still has recipients after some releases is unchanged for its readers. */
  lemma {:induction false} ReleaseKeepsKnown(store: Store, refs: seq<Ref>, q: Ref, bound: nat)
    requires GoodStore(store, bound) && forall a :: 0 <= a < |store| ==> Increasing(store[a])
    requires CountOf(ReleaseAll(store, refs), q) > 0
    ensures Known(ReleaseAll(store, refs), q) == Known(store, q)
    ensures CountOf(store, q) > 0
  {
    if refs != [] {
      var init, r := refs[..|refs| - 1], refs[|refs| - 1];
      var rest := ReleaseAll(store, init);
      ReleaseAllOrdered(store, init, bound);
      if r.user < |rest| {
        ReleaseCount(rest, r, bound);
        ReleaseFind(rest[r.user], r.id, q.id);
      }
      ReleaseKeepsKnown(store, init, q, bound);
    }
  }

  /** Every pending reference has a stored tweet behind it. */
  lemma PendingIsStored(db: Db, user: nat, i: nat)
    requires Good(db) && user < |db.inboxes| && i < |db.inboxes[user]|
    ensures CountOf(db.store, db.inboxes[user][i]) > 0
  {
    var r := db.inboxes[user][i];
    AllRefsContains(db.inboxes, user);
    assert r in multiset(db.inboxes[user]);
    assert CountOf(db.store, r) == AllRefs(db.inboxes)[r] + multiset{}[r];
  }

  function PendingContents(db: Db, user: nat): seq<Tweet> {
    if user < |db.inboxes| then Contents(ResolveAll(db.store, db.inboxes[user])) else []
  }

  function LogOf(i: Ideal, user: nat): seq<Tweet> {
    if user < |i.logs| then i.logs[user] else []
  }

  /** Names, number of posts and the follow relation agree. */
  ghost predicate Matches(db: Db, i: Ideal) {
    && i.names == db.names && i.posted == db.numTweets && |i.logs| == |db.names|
    && (forall u, a :: (u, a) in i.follows <==> 0 <= a < |db.followers| && u in db.followers[a])
  }

  lemma RetrieveOthers(db: Db, user: nat, other: nat)
    requires Good(db) && user < |db.inboxes| && other < |db.inboxes| && other != user
    ensures PendingContents(RetrieveDb(db, user).0, other) == PendingContents(db, other)
  {
    var refs, db' := db.inboxes[user], RetrieveDb(db, user).0;
    RetrieveGood(db, user);
    forall i | 0 <= i < |db.inboxes[other]|
      ensures Known(db'.store, db.inboxes[other][i]) == Known(db.store, db.inboxes[other][i])
    {
      PendingIsStored(db', other, i);
      ReleaseKeepsKnown(db.store, refs, db.inboxes[other][i], db.numTweets);
    }
    SameContents(db.store, db'.store, db.inboxes[other]);
  }

  lemma UpdateKeeps(db: Db, user: nat, tweet: Tweet, reader: nat)
    requires Good(db) && user < |db.names| && reader < |db.names| && db.followers[user] != []
    ensures Contents(ResolveAll(UpdateDb(db, user, tweet).store, db.inboxes[reader])) == PendingContents(db, reader)
  {
    var t := tweet.(id := db.numTweets, remaining := |db.followers[user]|);
    var db', inbox := UpdateDb(db, user, tweet), db.inboxes[reader];
    forall i | 0 <= i < |inbox|
      ensures Known(db'.store, inbox[i]) == Known(db.store, inbox[i])
    {
      PendingIsStored(db, reader, i);
      FindAppend(db.store[user], t, inbox[i].id);
    }
    SameContents(db.store, db'.store, inbox);
  }

  /** The new reference resolves to the new tweet. */
  lemma UpdateResolves(db: Db, user: nat, tweet: Tweet)
    requires Good(db) && user < |db.names| && db.followers[user] != []
    ensures Contents(Resolve(UpdateDb(db, user, tweet).store, Ref(user, db.numTweets)))
         == [Content(tweet.(id := db.numTweets))]
  {
    var t := tweet.(id := db.numTweets, remaining := |db.followers[user]|);
    FindIn(db.store[user], t.id);
    FindAppend(db.store[user], t, t.id);
    ResolveKnown(UpdateDb(db, user, tweet).store, Ref(user, t.id));
  }

  lemma {:induction false} ResolveAppended(store: Store, inbox: seq<Ref>, r: Ref)
    ensures Contents(ResolveAll(store, inbox + [r])) == Contents(ResolveAll(store, inbox)) + Contents(Resolve(store, r))
  {
    assert (inbox + [r])[..|inbox|] == inbox;
    ContentsConcat(ResolveAll(store, inbox), Resolve(store, r));
  }

  lemma UpdateInbox(db: Db, user: nat, tweet: Tweet, reader: nat)
    requires Good(db) && user < |db.names| && reader < |db.names| && db.followers[user] != []
    ensures var db' := UpdateDb(db, user, tweet);
      && reader < |db'.inboxes| == |db.inboxes|
      && (reader in db.followers[user] ==> db'.inboxes[reader] == db.inboxes[reader] + [Ref(user, db.numTweets)])
      && (reader !in db.followers[user] ==> db'.inboxes[reader] == db.inboxes[reader])
  {
    ForwardEffect(db.inboxes, db.followers[user], Ref(user, db.numTweets));
    assert db.inboxes[reader] + [] == db.inboxes[reader];
  }

  lemma UpdateReaches(db: Db, user: nat, tweet: Tweet, reader: nat)
    requires Good(db) && user < |db.names| && reader < |db.names|
    ensures PendingContents(UpdateDb(db, user, tweet), reader) ==
      PendingContents(db, reader) + (if reader in db.followers[user] then [Content(tweet.(id := db.numTweets))] else [])
  {
    if db.followers[user] != [] {
      UpdateInbox(db, user, tweet, reader);
      UpdateKeeps(db, user, tweet, reader);
      UpdateResolves(db, user, tweet);
      ResolveAppended(UpdateDb(db, user, tweet).store, db.inboxes[reader], Ref(user, db.numTweets));
    }
  }

  /** What an operation entitles a reader to. */
  function Entitled(i: Ideal, op: Op, reader: nat): seq<Tweet> {
    if op.Update? && reader < |i.logs| && (reader, op.user) in i.follows
    then [Content(op.tweet.(id := i.posted))] else []
  }

  lemma MatchesStep(s: Service, op: Op, i: Ideal)
    requires GoodService(s) && Legal(s, op) && Matches(s.db, i)
    ensures Matches(Step(s, op).0.db, IdealStep(i, op))
    ensures forall reader: nat :: LogOf(IdealStep(i, op), reader) == LogOf(i, reader) + Entitled(i, op, reader)
  {
    if op.Follow? {
      IndexInRange(s.db.names, op.target);
    }
  }

  lemma AddUserPending(db: Db, name: string, reader: nat)
    requires Good(db)
    ensures PendingContents(AddUserDb(db, name), reader) == PendingContents(db, reader)
  {
    var db' := AddUserDb(db, name);
    if reader < |db.inboxes| {
      forall k | 0 <= k < |db.inboxes[reader]|
        ensures Known(db'.store, db.inboxes[reader][k]) == Known(db.store, db.inboxes[reader][k])
      {
      }
      SameContents(db.store, db'.store, db.inboxes[reader]);
    }
  }

  lemma {:induction false} ResolveOne(store: Store, r: Ref)
    requires CountOf(store, r) > 0
    ensures |Resolve(store, r)| == 1
  {
  }

  /** References with stored tweets yield one tweet each. */
  lemma {:induction false} ResolveAllSize(store: Store, refs: seq<Ref>)
    requires forall i :: 0 <= i < |refs| ==> CountOf(store, refs[i]) > 0
    ensures |ResolveAll(store, refs)| == |refs|
  {
    if refs != [] {
      ResolveAllSize(store, refs[..|refs| - 1]);
      ResolveOne(store, refs[|refs| - 1]);
    }
  }

  lemma PendingYieldTweets(db: Db, user: nat)
    requires Good(db) && user < |db.inboxes|
    ensures |ResolveAll(db.store, db.inboxes[user])| == |db.inboxes[user]|
  {
    forall i | 0 <= i < |db.inboxes[user]|
      ensures CountOf(db.store, db.inboxes[user][i]) > 0
    {
      PendingIsStored(db, user, i);
    }
    ResolveAllSize(db.store, db.inboxes[user]);
  }

  lemma RetrievePending(s: Service, user: nat, reader: nat)
    requires GoodService(s) && Legal(s, Retrieve(user))
    ensures (if Primary(s, Retrieve(user), reader) then Contents(Step(s, Retrieve(user)).1) else [])
          + PendingContents(Step(s, Retrieve(user)).0.db, reader) == PendingContents(s.db, reader)
  {
    if s.db.inboxes[user] != [] && reader < |s.db.names| {
      if reader != user {
        RetrieveOthers(s.db, user, reader);
      } else {
        assert PendingContents(Step(s, Retrieve(user)).0.db, reader) == [];
      }
    }
  }

  lemma UpdateDelivers(db: Db, user: nat, tweet: Tweet, i: Ideal, reader: nat)
    requires Good(db) && user < |db.names| && Matches(db, i)
    ensures PendingContents(UpdateDb(db, user, tweet), reader)
         == PendingContents(db, reader) + Entitled(i, Update(user, tweet), reader)
  {
    if reader < |db.names| {
      UpdateReaches(db, user, tweet, reader);
    } else if db.followers[user] != [] {
      ForwardEffect(db.inboxes, db.followers[user], Ref(user, db.numTweets));
    }
  }

  /** An operation extends what a reader has got and has pending by exactly what it entitles the
      reader to. */
  lemma UpdateDelivery(s: Service, user: nat, tweet: Tweet, i: Ideal, reader: nat)
    requires GoodService(s) && Legal(s, Update(user, tweet)) && Matches(s.db, i)
    ensures PendingContents(Step(s, Update(user, tweet)).0.db, reader)
         == PendingContents(s.db, reader) + Entitled(i, Update(user, tweet), reader)
  {
    UpdateDelivers(s.db, user, tweet, i, reader);
  }

  /** Adding users, following and connections neither deliver nor entitle. */
  lemma OtherDelivery(s: Service, op: Op, i: Ideal, reader: nat)
    requires GoodService(s) && Legal(s, op) && !op.Update? && !op.Retrieve?
    ensures PendingContents(Step(s, op).0.db, reader) == PendingContents(s.db, reader)
    ensures Entitled(i, op, reader) == []
  {
    if op.AddUser? {
      AddUserPending(s.db, op.name, reader);
    }
  }

  lemma DeliveryStep(s: Service, op: Op, i: Ideal, reader: nat)
    requires GoodService(s) && Legal(s, op) && Matches(s.db, i)
    ensures (if Primary(s, op, reader) then Contents(Step(s, op).1) else []) + PendingContents(Step(s, op).0.db, reader)
         == PendingContents(s.db, reader) + Entitled(i, op, reader)
  {
    match op
    case Update(user, tweet) => UpdateDelivery(s, user, tweet, i, reader);
    case Retrieve(user) => RetrievePending(s, user, reader);
    case _ => OtherDelivery(s, op, i, reader);
  }

  /** Appending on both sides of a queue: if `b + c == d + e` then `(a + b) + c == (a + d) + e`. */
  lemma Regroup(a: seq<Tweet>, b: seq<Tweet>, c: seq<Tweet>, d: seq<Tweet>, e: seq<Tweet>)
    requires b + c == d + e
    ensures (a + b) + c == (a + d) + e
  {
    assert (a + b) + c == a + (b + c);
    assert (a + d) + e == a + (d + e);
  }

  /** Exactly once and in order: over any run of operations, what a reader got from its retrievals
      followed by what its pending list resolves to is the log of the tweets posted by the authors it
      followed at the time of posting, with their author, id, timestamp and payload. */
  lemma {:induction false} ExactlyOnceInOrder(s: Service, i: Ideal, ops: seq<Op>, reader: nat)
    requires GoodService(s) && Matches(s.db, i) && LegalRun(s, ops)
    requires PendingContents(s.db, reader) == LogOf(i, reader)
    ensures Matches(Last(s, ops).db, LastIdeal(i, ops))
    ensures Contents(Delivered(s, ops, reader)) + PendingContents(Last(s, ops).db, reader)
         == LogOf(LastIdeal(i, ops), reader)
  {
    if ops == [] {
      assert Contents([]) + PendingContents(s.db, reader) == PendingContents(s.db, reader);
    } else {
      var init, op := ops[..|ops| - 1], ops[|ops| - 1];
      var before, ideal := Last(s, init), LastIdeal(i, init);
      ExactlyOnceInOrder(s, i, init, reader);
      RunGood(s, init);
      DeliveryStep(before, op, ideal, reader);
      MatchesStep(before, op, ideal);
      var more := if Primary(before, op, reader) then Step(before, op).1 else [];
      var got, pending := Delivered(s, init, reader), PendingContents(before.db, reader);
      var pending' := PendingContents(Last(s, ops).db, reader);
      ContentsConcat(got, more);
      Regroup(Contents(got), Contents(more), pending', pending, Entitled(ideal, op, reader));
    }
  }

  /** A server with users but nothing posted, followed or connected. */
  predicate FreshService(s: Service) {
    && |s.db.names| == |s.db.followers| == |s.db.store| == |s.db.inboxes|
    && (forall u :: 0 <= u < |s.db.names| ==> s.db.followers[u] == [] && s.db.store[u] == [] && s.db.inboxes[u] == [])
    && s.db.numTweets == 0 && s.table == map[]
  }

  lemma FreshStart(s: Service, reader: nat)
    requires FreshService(s)
    ensures var i := Ideal(s.db.names, {}, 0, seq(|s.db.names|, _ => []));
      GoodService(s) && Matches(s.db, i) && PendingContents(s.db, reader) == LogOf(i, reader)
  {
    AllRefsEmpty(s.db.inboxes);
  }

  // ----- the duplicate channel and the connection counts

  /** What `user` gets from the copy kept for its second connection. */
  function ReplayedBy(s: Service, op: Op, user: nat): seq<Tweet>
    requires Legal(s, op)
  {
    if op == Retrieve(user) && !Primary(s, op, user) then Step(s, op).1 else []
  }

  /** What a primary retrieval by `user` yields while it has two connections. */
  function CopiedBy(s: Service, op: Op, user: nat): seq<Tweet>
    requires Legal(s, op)
  {
    if Primary(s, op, user) && CountIn(s.table, user) == 2 then Step(s, op).1 else []
  }

  function Replayed(s: Service, ops: seq<Op>, user: nat): seq<Tweet>
    requires LegalRun(s, ops)
  {
    if ops == [] then []
    else Replayed(s, ops[..|ops| - 1], user) + ReplayedBy(Last(s, ops[..|ops| - 1]), ops[|ops| - 1], user)
  }

  function Copied(s: Service, ops: seq<Op>, user: nat): seq<Tweet>
    requires LegalRun(s, ops)
  {
    if ops == [] then []
    else Copied(s, ops[..|ops| - 1], user) + CopiedBy(Last(s, ops[..|ops| - 1]), ops[|ops| - 1], user)
  }

  function BufferOf(s: Service, user: nat): seq<Tweet> {
    if user in s.table then s.table[user].buffer else []
  }

  /** A retrieval that finds nothing pending hands over all that was kept for the second connection, and
      nothing is kept any more. */
  lemma ReplayHandsOverAll(s: Service, user: nat)
    requires Legal(s, Retrieve(user)) && s.db.inboxes[user] == []
    ensures Step(s, Retrieve(user)).1 == s.table[user].buffer
    ensures Step(s, Retrieve(user)).0 == s.(table := s.table[user := Entry(s.table[user].count, [])])
  {
  }

  /** Any other one adds what it hands over to what is kept, if there is a second connection. */
  lemma PrimaryCopies(s: Service, user: nat)
    requires Legal(s, Retrieve(user)) && s.db.inboxes[user] != []
    ensures var out := Step(s, Retrieve(user)).1;
      Step(s, Retrieve(user)).0.table
      == if s.table[user].count == 2 then s.table[user := Entry(2, s.table[user].buffer + out)] else s.table
  {
  }

  lemma RetrievalDuplicates(s: Service, reader: nat, user: nat)
    requires GoodTable(s.table) && Legal(s, Retrieve(reader))
    ensures var op := Retrieve(reader);
      ReplayedBy(s, op, user) + BufferOf(Step(s, op).0, user) == BufferOf(s, user) + CopiedBy(s, op, user)
  {
    var op := Retrieve(reader);
    var out, table := Step(s, op).1, Step(s, op).0.table;
    if s.db.inboxes[reader] == [] {
      ReplayHandsOverAll(s, reader);
    } else {
      PrimaryCopies(s, reader);
    }
    assert out + [] == out && BufferOf(s, user) + [] == BufferOf(s, user);
  }

  lemma DuplicateStep(s: Service, op: Op, user: nat)
    requires GoodService(s) && Legal(s, op) && op != Op.Close(user)
    ensures ReplayedBy(s, op, user) + BufferOf(Step(s, op).0, user) == BufferOf(s, user) + CopiedBy(s, op, user)
  {
    if op.Retrieve? {
      RetrievalDuplicates(s, op.user, user);
    }
  }

  lemma Chain(a: seq<Tweet>, b: seq<Tweet>, c: seq<Tweet>, d: seq<Tweet>, e: seq<Tweet>, f: seq<Tweet>, g: seq<Tweet>)
    requires b + c == d + e && a + d == f + g
    ensures (a + b) + c == f + (g + e)
  {
    Regroup(a, b, c, d, e);
    assert (f + g) + e == f + (g + e);
  }

  /** The duplicate channel is a lossless queue: between closes, what was replayed followed by what is
      still buffered is what was buffered before followed by all that was copied. */
  lemma {:induction false} DuplicatesAreLossless(s: Service, ops: seq<Op>, user: nat)
    requires GoodService(s) && LegalRun(s, ops) && Op.Close(user) !in ops
    ensures Replayed(s, ops, user) + BufferOf(Last(s, ops), user) == BufferOf(s, user) + Copied(s, ops, user)
  {
    if ops != [] {
      var init, op := ops[..|ops| - 1], ops[|ops| - 1];
      var before := Last(s, init);
      assert op in ops;
      DuplicatesAreLossless(s, init, user);
      RunGood(s, init);
      DuplicateStep(before, op, user);
      Chain(Replayed(s, init, user), ReplayedBy(before, op, user), BufferOf(Last(s, ops), user),
            BufferOf(before, user), CopiedBy(before, op, user), BufferOf(s, user), Copied(s, init, user));
    }
  }

  /** A retrieval that finds something pending hands over all of it, and nothing is pending any more. */
  lemma PrimaryHandsOverAll(s: Service, user: nat)
    requires GoodService(s) && Legal(s, Retrieve(user)) && s.db.inboxes[user] != []
    ensures Contents(Step(s, Retrieve(user)).1) == PendingContents(s.db, user)
    ensures |Step(s, Retrieve(user)).1| == |s.db.inboxes[user]|
    ensures Step(s, Retrieve(user)).0.db.inboxes == s.db.inboxes[user := []]
  {
    RetrievePending(s, user, user);
    assert PendingContents(Step(s, Retrieve(user)).0.db, user) == [];
    var out := Step(s, Retrieve(user)).1;
    assert Contents(out) + [] == Contents(out);
    PendingYieldTweets(s.db, user);
  }

  /** So over any run that ends with such a replay, the second connection has got all that was ever copied
      for it, in order. */
  lemma {:induction false} ReplayCatchesUp(s: Service, ops: seq<Op>, user: nat)
    requires GoodService(s) && LegalRun(s, ops + [Retrieve(user)]) && Op.Close(user) !in ops
    requires LegalRun(s, ops) && Legal(Last(s, ops), Retrieve(user)) && Last(s, ops).db.inboxes[user] == []
    ensures Replayed(s, ops + [Retrieve(user)], user) == BufferOf(s, user) + Copied(s, ops, user)
    ensures BufferOf(Last(s, ops + [Retrieve(user)]), user) == []
  {
    RunNext(s, ops, Retrieve(user));
    ReplayHandsOverAll(Last(s, ops), user);
    assert (ops + [Retrieve(user)])[..|ops|] == ops;
    DuplicatesAreLossless(s, ops, user);
  }

  function NetStep(s: Service, op: Op, user: nat): int {
    if op == Op.Register(user) && Connections.Register(s.table, user).1 then 1
    else if op == Op.Close(user) && user in s.table then -1
    else 0
  }

  /** Accepted registrations of `user` less closes that find it. */
  function NetConnections(s: Service, ops: seq<Op>, user: nat): int
    requires LegalRun(s, ops)
  {
    if ops == [] then 0
    else
      var before, op := Last(s, ops[..|ops| - 1]), ops[|ops| - 1];
      NetConnections(s, ops[..|ops| - 1], user)
      + NetStep(before, op, user)
  }

  lemma ConnectionStep(s: Service, op: Op, user: nat)
    requires GoodService(s) && Legal(s, op)
    ensures CountIn(Step(s, op).0.table, user) == CountIn(s.table, user) + NetStep(s, op, user)
  {
  }

  /** The connection count is exact: never above two, and the accepted registrations less the closes that
      find an entry. */
  lemma {:induction false} ConnectionsAreCounted(s: Service, ops: seq<Op>, user: nat)
    requires GoodService(s) && LegalRun(s, ops)
    ensures CountIn(Last(s, ops).table, user) == CountIn(s.table, user) + NetConnections(s, ops, user)
    ensures CountIn(Last(s, ops).table, user) <= 2
    ensures CountIn(Last(s, ops).table, user) <= 1 ==> BufferOf(Last(s, ops), user) == []
  {
    RunGood(s, ops);
    if ops != [] {
      ConnectionsAreCounted(s, ops[..|ops| - 1], user);
      RunGood(s, ops[..|ops| - 1]);
      ConnectionStep(Last(s, ops[..|ops| - 1]), ops[|ops| - 1], user);
    }
  }
}
