/** What becomes of a client's packets: requests go to the database in arrival order, each gets one
    reply, and a user's tweets come back as notices. */
module Pipeline {
  import opened Mailbox
  import opened Delivery

  datatype Type = ACK | NACK | FOLLOW | UPDATE | SIGN_IN | SHUTDOWN_REQ | OTHER

  /** The author is set on notices only. */
  datatype Message = Message(kind: Type, timestamp: nat, payload: string, author: Option<string>)

  /** A message and the user on whose behalf it is carried out. */
  datatype Request = Request(user: nat, message: Message)

  predicate IsRequest(m: Message) {
    m.kind == FOLLOW || m.kind == UPDATE
  }

  /** The tweet that an UPDATE asks for; its id and recipients are filled in by the database. */
  function TweetOf(user: nat, m: Message): Tweet {
    Tweet(user, 0, m.timestamp, m.payload, 0)
  }

  function Execute(db: Db, user: nat, m: Message): Db {
    match m.kind
    case FOLLOW => FollowDb(db, m.payload, user).0
    case UPDATE => if user < |db.followers| && user < |db.store| then UpdateDb(db, user, TweetOf(user, m)) else db
    case _ => db
  }

  function ExecuteAll(db: Db, user: nat, ms: seq<Message>): Db {
    if ms == [] then db else Execute(ExecuteAll(db, user, ms[..|ms| - 1]), user, ms[|ms| - 1])
  }

  /** The reply is an ACK even to a request that failed. */
  function Reply(m: Message): Message {
    Message(ACK, m.timestamp, m.payload, None)
  }

  function Replies(ms: seq<Message>): seq<Message> {
    if ms == [] then [] else Replies(ms[..|ms| - 1]) + [Reply(ms[|ms| - 1])]
  }

  function Requests(ms: seq<Message>): seq<Message> {
    if ms == [] then []
    else Requests(ms[..|ms| - 1]) + (if IsRequest(ms[|ms| - 1]) then [ms[|ms| - 1]] else [])
  }

  /** All authors are users. */
  predicate KnownTweets(ts: seq<Tweet>, users: nat) {
    forall i :: 0 <= i < |ts| ==> ts[i].author < users
  }

  /** A tweet on its way to a reader, with the name of its author. */
  function Notice(names: seq<string>, t: Tweet): Message
    requires t.author < |names|
  {
    Message(UPDATE, t.timestamp, t.payload, Some(names[t.author]))
  }

  function Notices(names: seq<string>, ts: seq<Tweet>): seq<Message>
    requires KnownTweets(ts, |names|)
  {
    if ts == [] then [] else Notices(names, ts[..|ts| - 1]) + [Notice(names, ts[|ts| - 1])]
  }

  /** The replies among outgoing messages. */
  function Acks(ms: seq<Message>): seq<Message> {
    if ms == [] then []
    else Acks(ms[..|ms| - 1]) + (if ms[|ms| - 1].kind == ACK then [ms[|ms| - 1]] else [])
  }

  // ----- requests, replies and notices

  /** Follows and updates are the requests, and they stay in order. */
  lemma {:induction false} RequestsNext(ms: seq<Message>, m: Message)
    ensures Requests([]) == []
    ensures Requests(ms + [m]) == Requests(ms) + (if m.kind == FOLLOW || m.kind == UPDATE then [m] else [])
  {
    assert (ms + [m])[..|ms|] == ms;
  }

  lemma {:induction false} RequestsOnly(ms: seq<Message>)
    ensures forall m :: m in Requests(ms) ==> IsRequest(m)
  {
    if ms != [] {
      RequestsOnly(ms[..|ms| - 1]);
    }
  }

  lemma {:induction false} QueuedAreRequests(executed: seq<Message>, incoming: seq<Message>, arrived: seq<Message>)
    requires executed + incoming == Requests(arrived)
    ensures forall i :: 0 <= i < |incoming| ==> IsRequest(incoming[i])
  {
    RequestsOnly(arrived);
    assert forall i :: 0 <= i < |incoming| ==> incoming[i] == Requests(arrived)[|executed| + i];
  }

  lemma {:induction false} RepliesConcat(a: seq<Message>, b: seq<Message>)
    ensures Replies(a + b) == Replies(a) + Replies(b)
  {
    if b == [] {
      assert a + b == a;
    } else {
      assert (a + b)[..|a + b| - 1] == a + b[..|b| - 1];
      RepliesConcat(a, b[..|b| - 1]);
    }
  }

  /** Each message is answered with one ACK that carries its payload and timestamp. */
  lemma {:induction false} RepliesMatch(ms: seq<Message>)
    ensures |Replies(ms)| == |ms|
    ensures forall i :: 0 <= i < |ms| ==> Replies(ms)[i] == Message(ACK, ms[i].timestamp, ms[i].payload, None)
  {
    if ms != [] {
      RepliesMatch(ms[..|ms| - 1]);
    }
  }

  lemma {:induction false} AcksConcat(a: seq<Message>, b: seq<Message>)
    ensures Acks(a + b) == Acks(a) + Acks(b)
  {
    if b == [] {
      assert a + b == a;
    } else {
      assert (a + b)[..|a + b| - 1] == a + b[..|b| - 1];
      AcksConcat(a, b[..|b| - 1]);
    }
  }

  /** Replies are all acknowledgements, notices none. */
  lemma {:induction false} AcksOfReplies(ms: seq<Message>)
    ensures Acks(Replies(ms)) == Replies(ms)
  {
    if ms != [] {
      var last := [Reply(ms[|ms| - 1])];
      AcksOfReplies(ms[..|ms| - 1]);
      AcksConcat(Replies(ms[..|ms| - 1]), last);
      assert Acks(last[..0]) == [];
    }
  }

  lemma {:induction false} AcksOfNotices(names: seq<string>, ts: seq<Tweet>)
    requires KnownTweets(ts, |names|)
    ensures Acks(Notices(names, ts)) == []
  {
    if ts != [] {
      var last := [Notice(names, ts[|ts| - 1])];
      AcksOfNotices(names, ts[..|ts| - 1]);
      AcksConcat(Notices(names, ts[..|ts| - 1]), last);
      assert Acks(last[..0]) == [];
    }
  }

  /** Each tweet becomes one notice with its payload, its timestamp and the name of its author. */
  lemma {:induction false} NoticesMatch(names: seq<string>, ts: seq<Tweet>)
    requires KnownTweets(ts, |names|)
    ensures |Notices(names, ts)| == |ts|
    ensures forall i :: 0 <= i < |ts| ==>
      Notices(names, ts)[i] == Message(UPDATE, ts[i].timestamp, ts[i].payload, Some(names[ts[i].author]))
  {
    if ts != [] {
      NoticesMatch(names, ts[..|ts| - 1]);
    }
  }

  // ----- requests as operations of the service

  function By(user: nat, ms: seq<Message>): seq<Request> {
    seq(|ms|, i requires 0 <= i < |ms| => Request(user, ms[i]))
  }

  function MessagesOf(rs: seq<Request>): seq<Message> {
    seq(|rs|, i requires 0 <= i < |rs| => rs[i].message)
  }

  lemma {:induction false} MessagesConcat(rs: seq<Request>, user: nat, ms: seq<Message>)
    ensures MessagesOf(rs + By(user, ms)) == MessagesOf(rs) + ms
  {
  }

  function OpsOf(rs: seq<Request>): seq<Op> {
    if rs == [] then []
    else
      var m, user := rs[|rs| - 1].message, rs[|rs| - 1].user;
      OpsOf(rs[..|rs| - 1]) +
        (match m.kind
         case FOLLOW => [Follow(m.payload, user)]
         case UPDATE => [Update(user, TweetOf(user, m))]
         case _ => [])
  }

  lemma {:induction false} OpsConcat(a: seq<Request>, b: seq<Request>)
    ensures OpsOf(a + b) == OpsOf(a) + OpsOf(b)
  {
    if b == [] {
      assert a + b == a;
    } else {
      assert (a + b)[..|a + b| - 1] == a + b[..|b| - 1];
      OpsConcat(a, b[..|b| - 1]);
    }
  }

  /** Follows and updates, without sign-ins, retrievals and closes. */
  function ClientOps(ops: seq<Op>): seq<Op> {
    if ops == [] then []
    else
      var op := ops[|ops| - 1];
      ClientOps(ops[..|ops| - 1]) + (if op.Follow? || op.Update? then [op] else [])
  }

  lemma {:induction false} ClientOpsNext(ops: seq<Op>, op: Op)
    ensures ClientOps(ops + [op]) == ClientOps(ops) + (if op.Follow? || op.Update? then [op] else [])
  {
    assert (ops + [op])[..|ops|] == ops;
  }

  lemma {:induction false} ClientOpsConcat(a: seq<Op>, b: seq<Op>)
    ensures ClientOps(a + b) == ClientOps(a) + ClientOps(b)
  {
    if b == [] {
      assert a + b == a;
    } else {
      assert (a + b)[..|a + b| - 1] == a + b[..|b| - 1];
      ClientOpsConcat(a, b[..|b| - 1]);
    }
  }

  lemma {:induction false} ClientOpsOfRequests(rs: seq<Request>)
    ensures ClientOps(OpsOf(rs)) == OpsOf(rs)
  {
    if rs != [] {
      var init, r := rs[..|rs| - 1], rs[|rs| - 1];
      ClientOpsOfRequests(init);
      if r.message.kind == FOLLOW {
        ClientOpsNext(OpsOf(init), Follow(r.message.payload, r.user));
      } else if r.message.kind == UPDATE {
        ClientOpsNext(OpsOf(init), Update(r.user, TweetOf(r.user, r.message)));
      } else {
        assert OpsOf(init) + [] == OpsOf(init);
      }
    }
  }

  /** Three lists are parallel; there may be more names. */
  predicate Parallel(db: Db) {
    |db.followers| == |db.store| == |db.inboxes| <= |db.names|
  }

  lemma {:induction false} ExecuteAllParallel(db: Db, user: nat, ms: seq<Message>)
    requires Parallel(db)
    ensures Parallel(ExecuteAll(db, user, ms)) && |ExecuteAll(db, user, ms).followers| == |db.followers|
  {
    if ms != [] {
      var before := ExecuteAll(db, user, ms[..|ms| - 1]);
      ExecuteAllParallel(db, user, ms[..|ms| - 1]);
      if user < |before.followers| {
        ForwardSize(before.inboxes, before.followers[user], Ref(user, before.numTweets));
      }
    }
  }

  /** Requests executed in arrival order keep the database good. */
  lemma {:induction false} ExecuteAllGood(db: Db, user: nat, ms: seq<Message>)
    requires Good(db) && user < |db.names|
    ensures Good(ExecuteAll(db, user, ms)) && |ExecuteAll(db, user, ms).names| == |db.names|
  {
    if ms != [] {
      var before, m := ExecuteAll(db, user, ms[..|ms| - 1]), ms[|ms| - 1];
      ExecuteAllGood(db, user, ms[..|ms| - 1]);
      if m.kind == FOLLOW {
        FollowGood(before, m.payload, user);
      } else if m.kind == UPDATE {
        UpdateGood(before, user, TweetOf(user, m));
      }
    }
  }

  /** The requests are carried out one after the other. */
  lemma {:induction false} ExecuteAllNext(db: Db, user: nat, ms: seq<Message>, m: Message)
    ensures ExecuteAll(db, user, []) == db
    ensures ExecuteAll(db, user, ms + [m]) == Execute(ExecuteAll(db, user, ms), user, m)
  {
    assert (ms + [m])[..|ms|] == ms;
  }

  lemma Associate(a: seq<Tweet>, b: seq<Tweet>, c: seq<Tweet>)
    ensures (a + b) + c == a + (b + c)
  {
  }

  /** A FOLLOW enters the session's user as the last follower of the first user of that name, unless it is
      one already. */
  lemma {:induction false} FollowIsCarriedOut(db: Db, user: nat, m: Message, a: nat)
    requires m.kind == FOLLOW && |db.names| == |db.followers|
    requires a < |db.names| && db.names[a] == m.payload && m.payload !in db.names[..a]
    ensures Execute(db, user, m)
         == if user in db.followers[a] then db else db.(followers := db.followers[a := db.followers[a] + [user]])
  {
    if user in db.followers[a] {
      FollowRefused(db, m.payload, user, a);
    } else {
      FollowEnters(db, m.payload, user, a);
    }
  }

  /** An UPDATE becomes pending for each follower of the session's user, with the next number and with the
      payload and the timestamp of the packet; for others nothing changes. */
  lemma UpdateIsCarriedOut(db: Db, user: nat, m: Message, reader: nat)
    requires Good(db) && m.kind == UPDATE && user < |db.names| && reader < |db.names|
    ensures PendingContents(Execute(db, user, m), reader)
         == PendingContents(db, reader)
            + (if reader in db.followers[user] then [Tweet(user, db.numTweets, m.timestamp, m.payload, 0)] else [])
    ensures Execute(db, user, m).numTweets == db.numTweets + 1
    ensures Execute(db, user, m).followers == db.followers && Execute(db, user, m).names == db.names
  {
    UpdateReaches(db, user, TweetOf(user, m), reader);
  }

  /** The tweets of a client's updates, as its followers are to see them. */
  function TweetsFor(user: nat, ms: seq<Message>, first: nat): seq<Tweet> {
    seq(|ms|, k requires 0 <= k < |ms| => Tweet(user, first + k, ms[k].timestamp, ms[k].payload, 0))
  }

  predicate AllUpdates(ms: seq<Message>) {
    forall i :: 0 <= i < |ms| ==> ms[i].kind == UPDATE
  }

  lemma OneUpdate(db: Db, user: nat, m: Message)
    requires Good(db) && m.kind == UPDATE && user < |db.names|
    ensures var db' := Execute(db, user, m);
      db'.followers == db.followers && db'.names == db.names && db'.numTweets == db.numTweets + 1
  {
  }

  lemma {:induction false} UpdatesAreNumbered(db: Db, user: nat, ms: seq<Message>)
    requires Good(db) && user < |db.names| && AllUpdates(ms)
    ensures var db' := ExecuteAll(db, user, ms);
      && Good(db') && db'.followers == db.followers && db'.names == db.names && db'.numTweets == db.numTweets + |ms|
  {
    if ms != [] {
      var init := ms[..|ms| - 1];
      UpdatesAreNumbered(db, user, init);
      OneUpdate(ExecuteAll(db, user, init), user, ms[|ms| - 1]);
      ExecuteAllGood(db, user, ms);
    }
  }

  lemma {:induction false} TweetsForNext(user: nat, ms: seq<Message>, m: Message, first: nat, before: seq<Tweet>)
    ensures before + TweetsFor(user, ms + [m], first)
         == (before + TweetsFor(user, ms, first)) + [Tweet(user, first + |ms|, m.timestamp, m.payload, 0)]
  {
    var last := Tweet(user, first + |ms|, m.timestamp, m.payload, 0);
    assert TweetsFor(user, ms + [m], first) == TweetsFor(user, ms, first) + [last];
    Associate(before, TweetsFor(user, ms, first), [last]);
  }

  /** What is pending for a follower after some updates. */
  predicate PendingIs(db: Db, reader: nat, tweets: seq<Tweet>) {
    PendingContents(db, reader) == tweets
  }

  lemma UpdateAppends(db: Db, user: nat, m: Message, reader: nat, tweets: seq<Tweet>)
    requires Good(db) && user < |db.names| && reader < |db.names| && reader in db.followers[user]
    requires m.kind == UPDATE && PendingIs(db, reader, tweets)
    ensures PendingIs(Execute(db, user, m), reader, tweets + [Tweet(user, db.numTweets, m.timestamp, m.payload, 0)])
  {
    UpdateIsCarriedOut(db, user, m, reader);
  }

  lemma {:induction false} UpdateAppendsBehind(db: Db, user: nat, ms: seq<Message>, m: Message, reader: nat,
      tweets: seq<Tweet>)
    requires Good(db) && user < |db.names| && reader < |db.names| && reader in db.followers[user] && AllUpdates(ms)
    requires m.kind == UPDATE && PendingIs(ExecuteAll(db, user, ms), reader, tweets)
    ensures PendingIs(ExecuteAll(db, user, ms + [m]), reader,
                      tweets + [Tweet(user, db.numTweets + |ms|, m.timestamp, m.payload, 0)])
  {
    UpdatesAreNumbered(db, user, ms);
    UpdateAppends(ExecuteAll(db, user, ms), user, m, reader, tweets);
    ExecuteAllNext(db, user, ms, m);
  }

  /** What is pending for a follower after a queue of updates. */
  predicate Arrived(db: Db, user: nat, ms: seq<Message>, reader: nat, before: seq<Tweet>) {
    PendingIs(ExecuteAll(db, user, ms), reader, before + TweetsFor(user, ms, db.numTweets))
  }

  lemma {:induction false} ArrivedNone(db: Db, user: nat, reader: nat, before: seq<Tweet>)
    requires PendingIs(db, reader, before)
    ensures Arrived(db, user, [], reader, before)
  {
    assert before + TweetsFor(user, [], db.numTweets) == before;
  }

  lemma {:induction false} ArrivedNext(db: Db, user: nat, ms: seq<Message>, m: Message, reader: nat, before: seq<Tweet>)
    requires Good(db) && user < |db.names| && reader < |db.names| && reader in db.followers[user] && AllUpdates(ms)
    requires m.kind == UPDATE && Arrived(db, user, ms, reader, before)
    ensures Arrived(db, user, ms + [m], reader, before)
  {
    UpdateAppendsBehind(db, user, ms, m, reader, before + TweetsFor(user, ms, db.numTweets));
    TweetsForNext(user, ms, m, db.numTweets, before);
  }

  lemma {:induction false} AllArrive(db: Db, user: nat, ms: seq<Message>, reader: nat, before: seq<Tweet>)
    requires Good(db) && user < |db.names| && reader < |db.names| && reader in db.followers[user] && AllUpdates(ms)
    requires PendingIs(db, reader, before)
    ensures Arrived(db, user, ms, reader, before)
  {
    if ms == [] {
      ArrivedNone(db, user, reader, before);
    } else {
      var init, m := ms[..|ms| - 1], ms[|ms| - 1];
      AllArrive(db, user, init, reader, before);
      ArrivedNext(db, user, init, m, reader, before);
      assert init + [m] == ms;
    }
  }

  lemma TweetsBehind(pending: seq<Tweet>, before: seq<Tweet>, user: nat, ms: seq<Message>, first: nat)
    requires pending == before + TweetsFor(user, ms, first)
    ensures |pending| == |before| + |ms| && pending[..|before|] == before
    ensures forall k :: 0 <= k < |ms| ==>
      pending[|before| + k] == Tweet(user, first + k, ms[k].timestamp, ms[k].payload, 0)
  {
  }

  /** So a queue of updates becomes pending for a follower as these tweets, in order of arrival. */
  lemma {:induction false} UpdatesReachFollower(db: Db, user: nat, ms: seq<Message>, reader: nat)
    requires Good(db) && user < |db.names| && reader < |db.names| && reader in db.followers[user]
    requires forall i :: 0 <= i < |ms| ==> ms[i].kind == UPDATE
    ensures var pending, before := PendingContents(ExecuteAll(db, user, ms), reader), PendingContents(db, reader);
      && |pending| == |before| + |ms| && pending[..|before|] == before
      && forall k :: 0 <= k < |ms| ==>
           pending[|before| + k] == Tweet(user, db.numTweets + k, ms[k].timestamp, ms[k].payload, 0)
  {
    var before := PendingContents(db, reader);
    AllArrive(db, user, ms, reader, before);
    TweetsBehind(PendingContents(ExecuteAll(db, user, ms), reader), before, user, ms, db.numTweets);
  }

  lemma {:induction false} OpsOfLast(user: nat, ms: seq<Message>)
    requires ms != []
    ensures By(user, ms)[..|ms| - 1] == By(user, ms[..|ms| - 1])
    ensures OpsOf(By(user, ms)) == OpsOf(By(user, ms[..|ms| - 1])) + OpsOf([Request(user, ms[|ms| - 1])])
  {
    var init, last := By(user, ms[..|ms| - 1]), [Request(user, ms[|ms| - 1])];
    assert By(user, ms) == init + last;
    OpsConcat(init, last);
  }

  lemma {:induction false} OneOp(s: Service, op: Op)
    requires Legal(s, op)
    ensures LegalRun(s, [op]) && Last(s, [op]) == Step(s, op).0
  {
    RunNext(s, [], op);
    assert [] + [op] == [op];
  }

  lemma {:induction false} OpOfRequest(user: nat, m: Message)
    ensures OpsOf([Request(user, m)])
         == match m.kind
            case FOLLOW => [Follow(m.payload, user)]
            case UPDATE => [Update(user, TweetOf(user, m))]
            case _ => []
  {
    var rs := [Request(user, m)];
    assert rs[..0] == [] && OpsOf([]) == [];
  }

  lemma {:induction false} OneRequest(s: Service, user: nat, m: Message)
    requires Parallel(s.db) && user < |s.db.followers|
    ensures var ops := OpsOf([Request(user, m)]);
      LegalRun(s, ops) && Last(s, ops) == s.(db := Execute(s.db, user, m))
  {
    OpOfRequest(user, m);
    match m.kind
    case FOLLOW => OneOp(s, Follow(m.payload, user));
    case UPDATE => OneOp(s, Update(user, TweetOf(user, m)));
    case _ =>
  }

  /** What the speaker does to the database is a legal run of the service without retrievals. */
  lemma {:induction false} RequestsAreOperations(s: Service, user: nat, ms: seq<Message>)
    requires Parallel(s.db) && user < |s.db.followers|
    ensures LegalRun(s, OpsOf(By(user, ms)))
    ensures Last(s, OpsOf(By(user, ms))) == s.(db := ExecuteAll(s.db, user, ms))
  {
    if ms != [] {
      var init, m := ms[..|ms| - 1], ms[|ms| - 1];
      RequestsAreOperations(s, user, init);
      ExecuteAllParallel(s.db, user, init);
      OpsOfLast(user, ms);
      OneRequest(Last(s, OpsOf(By(user, init))), user, m);
      RunConcat(s, OpsOf(By(user, init)), OpsOf([Request(user, m)]));
    }
  }

  /** `history` is a run of the service from `start` to `now`, and its follows and updates are the
      executed requests. */
  predicate Keeps(start: Service, history: seq<Op>, executed: seq<Request>, now: Service) {
    After(start, history) == Some(now) && ClientOps(history) == OpsOf(executed)
  }

  /** An operation that is not a request. */
  lemma {:induction false} KeepsOperation(start: Service, history: seq<Op>, executed: seq<Request>, now: Service,
      op: Op)
    requires Keeps(start, history, executed, now) && Legal(now, op) && !op.Follow? && !op.Update?
    ensures Keeps(start, history + [op], executed, Step(now, op).0)
  {
    RunNext(start, history, op);
    ClientOpsNext(history, op);
    assert ClientOps(history) + [] == ClientOps(history);
  }

  /** All requests of a queue. */
  lemma {:induction false} KeepsRequests(start: Service, history: seq<Op>, executed: seq<Request>, now: Service,
      user: nat, ms: seq<Message>)
    requires Keeps(start, history, executed, now) && Parallel(now.db) && user < |now.db.followers|
    ensures Keeps(start, history + OpsOf(By(user, ms)), executed + By(user, ms),
                  now.(db := ExecuteAll(now.db, user, ms)))
  {
    var rs := By(user, ms);
    ClientOpsConcat(history, OpsOf(rs));
    ClientOpsOfRequests(rs);
    OpsConcat(executed, rs);
    RunConcat(start, history, OpsOf(rs));
    RequestsAreOperations(now, user, ms);
  }

  // ----- every notice has an author

  /** Everything stored or kept for a second connection has a user as its author. */
  predicate AuthorsKnown(s: Service) {
    && (forall a :: 0 <= a < |s.db.store| ==> KnownTweets(s.db.store[a], |s.db.names|))
    && (forall u :: u in s.table ==> KnownTweets(s.table[u].buffer, |s.db.names|))
  }

  predicate KnownStore(store: Store, users: nat) {
    forall a :: 0 <= a < |store| ==> KnownTweets(store[a], users)
  }

  lemma {:induction false} ReleaseAuthors(list: seq<Tweet>, id: nat, users: nat)
    requires KnownTweets(list, users)
    ensures KnownTweets(Release(list, id), users)
  {
    if list != [] {
      ReleaseAuthors(list[1..], id, users);
    }
  }

  lemma {:induction false} ReleaseAllAuthors(store: Store, refs: seq<Ref>, users: nat)
    requires KnownStore(store, users)
    ensures KnownStore(ReleaseAll(store, refs), users)
  {
    if refs != [] {
      var rest, r := ReleaseAll(store, refs[..|refs| - 1]), refs[|refs| - 1];
      ReleaseAllAuthors(store, refs[..|refs| - 1], users);
      if r.user < |rest| {
        ReleaseAuthors(rest[r.user], r.id, users);
      }
    }
  }

  lemma {:induction false} FindAuthor(list: seq<Tweet>, id: nat, users: nat)
    requires KnownTweets(list, users)
    ensures Find(list, id).Some? ==> Find(list, id).value.author < users
  {
    if list != [] {
      FindAuthor(list[1..], id, users);
    }
  }

  lemma {:induction false} ResolveAuthors(store: Store, refs: seq<Ref>, users: nat)
    requires KnownStore(store, users)
    ensures KnownTweets(ResolveAll(store, refs), users)
  {
    if refs != [] {
      var r := refs[|refs| - 1];
      ResolveAuthors(store, refs[..|refs| - 1], users);
      if r.user < |store| {
        FindAuthor(store[r.user], r.id, users);
      }
    }
  }

  lemma RetrieveAuthors(s: Service, user: nat)
    requires Legal(s, Retrieve(user)) && AuthorsKnown(s)
    ensures AuthorsKnown(RetrieveService(s, user).0) && KnownTweets(RetrieveService(s, user).1, |s.db.names|)
  {
    ReleaseAllAuthors(s.db.store, s.db.inboxes[user], |s.db.names|);
    ResolveAuthors(s.db.store, s.db.inboxes[user], |s.db.names|);
  }

  /** A post is signed by the user on whose behalf it is made. */
  predicate Signed(op: Op) {
    op.Update? ==> op.tweet.author == op.user
  }

  lemma AuthorsStep(s: Service, op: Op)
    requires Parallel(s.db) && Legal(s, op) && Signed(op) && AuthorsKnown(s)
    ensures Parallel(Step(s, op).0.db) && AuthorsKnown(Step(s, op).0)
  {
    if op.Retrieve? {
      RetrieveAuthors(s, op.user);
    } else if op.Update? {
      ForwardSize(s.db.inboxes, s.db.followers[op.user], Ref(op.user, s.db.numTweets));
    }
  }

  lemma {:induction false} AuthorsRun(s: Service, ops: seq<Op>)
    requires Parallel(s.db) && AuthorsKnown(s) && LegalRun(s, ops) && forall op :: op in ops ==> Signed(op)
    ensures Parallel(Last(s, ops).db) && AuthorsKnown(Last(s, ops))
  {
    if ops != [] {
      assert ops[|ops| - 1] in ops;
      AuthorsRun(s, ops[..|ops| - 1]);
      AuthorsStep(Last(s, ops[..|ops| - 1]), ops[|ops| - 1]);
    }
  }

  lemma {:induction false} RequestsAreSigned(rs: seq<Request>)
    ensures forall op :: op in OpsOf(rs) ==> Signed(op)
  {
    if rs != [] {
      RequestsAreSigned(rs[..|rs| - 1]);
    }
  }

  lemma {:induction false} ClientOpsHas(ops: seq<Op>, op: Op)
    requires op in ops && op.Update?
    ensures op in ClientOps(ops)
  {
    if op != ops[|ops| - 1] {
      ClientOpsHas(ops[..|ops| - 1], op);
    }
  }

  /** So whatever a session has done, the next retrieval yields tweets whose authors have names. */
  lemma {:induction false} KeepsAuthors(start: Service, history: seq<Op>, executed: seq<Request>, now: Service)
    requires Keeps(start, history, executed, now) && Parallel(start.db) && AuthorsKnown(start)
    ensures AuthorsKnown(now)
    ensures forall user :: Legal(now, Retrieve(user)) ==> KnownTweets(Step(now, Retrieve(user)).1, |now.db.names|)
  {
    RequestsAreSigned(executed);
    forall op | op in history
      ensures Signed(op)
    {
      if op.Update? {
        ClientOpsHas(history, op);
      }
    }
    AuthorsRun(start, history);
    forall user | Legal(now, Retrieve(user))
      ensures KnownTweets(Step(now, Retrieve(user)).1, |now.db.names|)
    {
      RetrieveAuthors(now, user);
    }
  }

  lemma {:induction false} RequestsRetrieveNothing(rs: seq<Request>)
    ensures NoRetrievals(OpsOf(rs))
  {
    if rs != [] {
      RequestsRetrieveNothing(rs[..|rs| - 1]);
    }
  }

  /** So the tweets of a client become pending for exactly the followers its author has when each is
      executed, once and in the order in which the requests arrived. */
  lemma {:induction false} RequestsReachFollowers(s: Service, i: Ideal, user: nat, ms: seq<Message>, reader: nat)
    requires GoodService(s) && Matches(s.db, i) && user < |s.db.names|
    requires PendingContents(s.db, reader) == LogOf(i, reader)
    ensures PendingContents(ExecuteAll(s.db, user, ms), reader) == LogOf(LastIdeal(i, OpsOf(By(user, ms))), reader)
  {
    var ops := OpsOf(By(user, ms));
    RequestsAreOperations(s, user, ms);
    RequestsRetrieveNothing(By(user, ms));
    NothingDelivered(s, ops, reader);
    ExactlyOnceInOrder(s, i, ops, reader);
    var pending := PendingContents(ExecuteAll(s.db, user, ms), reader);
    assert Contents([]) + pending == pending;
  }
}
