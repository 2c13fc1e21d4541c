/** A session registers when its client signs in and closes its connection when it ends, also when it
    was refused (the code closes without asking). What that does to the sessions that go on. */
module SessionRuns {
  import opened Mailbox
  import opened Connections
  import opened Delivery

  /** With nothing in between, a session leaves the table as it was if and only if the user had fewer
      than two connections; otherwise one connection and the tweets kept for it are gone. */
  lemma SessionLeavesTableIff(m: Table, user: nat)
    requires GoodTable(m)
    ensures var m' := Connections.Close(Connections.Register(m, user).0, user).0;
      && (m' == m <==> CountIn(m, user) < 2)
      && (CountIn(m, user) == 2 ==> m' == m[user := Entry(1, [])])
  {
    var m1 := Connections.Register(m, user).0;
    if user !in m {
      assert m1 - {user} == m;
    } else if m[user].count < 2 {
      assert m1[user := Entry(1, [])] == m;
    } else {
      assert Connections.Close(m1, user).0[user].count == 1;
    }
  }

  /** A session around any other operations. */
  function SessionOps(user: nat, during: seq<Op>): seq<Op> {
    [Op.Register(user)] + during + [Op.Close(user)]
  }

  lemma RegisterFirst(s: Service, user: nat)
    ensures LegalRun(s, [Op.Register(user)])
    ensures Last(s, [Op.Register(user)]) == s.(table := Connections.Register(s.table, user).0)
  {
    assert [Op.Register(user)] == [] + [Op.Register(user)];
    RunNext(s, [], Op.Register(user));
  }

  /** The parts of such a run. */
  lemma SessionParts(s: Service, user: nat, during: seq<Op>)
    requires LegalRun(s, SessionOps(user, during))
    ensures LegalRun(s, [Op.Register(user)]) && LegalRun(Last(s, [Op.Register(user)]), during)
    ensures var t := Last(Last(s, [Op.Register(user)]), during);
      && t.table != map[]
      && LegalRun(s, [Op.Register(user)] + during) && Last(s, [Op.Register(user)] + during) == t
      && Last(s, SessionOps(user, during)) == t.(table := Connections.Close(t.table, user).0)
  {
    var open := [Op.Register(user)];
    RegisterFirst(s, user);
    RunConcat(s, open, during);
    assert (open + during + [Op.Close(user)])[..|open + during|] == open + during;
    RunNext(s, open + during, Op.Close(user));
  }

  /** One that signs in once accounts for itself in the connection count, whatever other sessions of the
      same user do meanwhile, if and only if it was accepted and finds an entry to close, or neither. */
  lemma {:induction false} SessionCountsIff(s: Service, user: nat, during: seq<Op>)
    requires GoodService(s) && LegalRun(s, SessionOps(user, during))
    ensures LegalRun(s, [Op.Register(user)]) && LegalRun(Last(s, [Op.Register(user)]), during)
    ensures CountIn(Last(s, SessionOps(user, during)).table, user)
         == CountIn(s.table, user) + NetConnections(Last(s, [Op.Register(user)]), during, user)
      <==> (CountIn(s.table, user) < 2 <==> user in Last(Last(s, [Op.Register(user)]), during).table)
  {
    var s1 := Last(s, [Op.Register(user)]);
    SessionParts(s, user, during);
    RegisterFirst(s, user);
    RunGood(s, [Op.Register(user)]);
    RunGood(s1, during);
    ConnectionsAreCounted(s1, during, user);
  }

  lemma {:induction false} StaysTwo(s: Service, ops: seq<Op>, user: nat)
    requires GoodService(s) && LegalRun(s, ops) && CountIn(s.table, user) == 2 && Op.Close(user) !in ops
    ensures CountIn(Last(s, ops).table, user) == 2
  {
    if ops != [] {
      StaysTwo(s, ops[..|ops| - 1], user);
      RunGood(s, ops[..|ops| - 1]);
      assert ops[|ops| - 1] in ops;
    }
  }

  /** A refused session costs a session that goes on its connection, and it costs the user all that was
      copied for the second connection and not yet replayed. */
  lemma {:induction false} RefusedSessionDropsCopies(s: Service, user: nat, during: seq<Op>)
    requires GoodService(s) && LegalRun(s, SessionOps(user, during))
    requires CountIn(s.table, user) == 2 && Op.Close(user) !in during
    ensures LegalRun(s, [Op.Register(user)] + during)
    ensures var ops := [Op.Register(user)] + during;
      var t, t' := Last(s, ops), Last(s, SessionOps(user, during));
      && CountIn(t.table, user) == 2 && CountIn(t'.table, user) == 1
      && Replayed(s, ops, user) + BufferOf(t, user) == BufferOf(s, user) + Copied(s, ops, user)
      && BufferOf(t', user) == []
  {
    SessionParts(s, user, during);
    StaysTwo(s, [Op.Register(user)] + during, user);
    DuplicatesAreLossless(s, [Op.Register(user)] + during, user);
  }

  // ----- sessions that sign in any number of times, under any names

  /** A sign-in of this session, under the id that its name has, or an operation of somebody else. */
  datatype Act = Own(user: nat) | Other(op: Op)

  function OpOf(a: Act): Op {
    match a
    case Own(user) => Op.Register(user)
    case Other(op) => op
  }

  function OpsOf(acts: seq<Act>): seq<Op> {
    if acts == [] then [] else OpsOf(acts[..|acts| - 1]) + [OpOf(acts[|acts| - 1])]
  }

  lemma {:induction false} OpsPrefix(acts: seq<Act>)
    requires acts != []
    ensures OpsOf(acts) != [] && OpsOf(acts)[..|OpsOf(acts)| - 1] == OpsOf(acts[..|acts| - 1])
    ensures OpsOf(acts)[|OpsOf(acts)| - 1] == OpOf(acts[|acts| - 1])
  {
  }

  /** The session's own sign-ins under `user` that came when `user` had fewer than two connections. */
  function OwnCount(s: Service, acts: seq<Act>, user: nat): nat
    requires LegalRun(s, OpsOf(acts))
  {
    if acts == [] then 0
    else
      var init, a := acts[..|acts| - 1], acts[|acts| - 1];
      OpsPrefix(acts);
      OwnCount(s, init, user)
      + (if a == Own(user) && CountIn(Last(s, OpsOf(init)).table, user) < 2 then 1 else 0)
  }

  /** What everybody else adds to the connections of `user`. */
  function OthersNet(s: Service, acts: seq<Act>, user: nat): int
    requires LegalRun(s, OpsOf(acts))
  {
    if acts == [] then 0
    else
      var init, a := acts[..|acts| - 1], acts[|acts| - 1];
      OpsPrefix(acts);
      OthersNet(s, init, user) + (if a.Other? then NetStep(Last(s, OpsOf(init)), a.op, user) else 0)
  }

  lemma ActStep(s: Service, a: Act, user: nat)
    requires GoodService(s) && Legal(s, OpOf(a))
    ensures CountIn(Step(s, OpOf(a)).0.table, user) == CountIn(s.table, user)
      + (if a.Other? then NetStep(s, a.op, user) else if a == Own(user) && CountIn(s.table, user) < 2 then 1 else 0)
  {
    ConnectionStep(s, OpOf(a), user);
  }

  lemma {:induction false} CountsOfActs(s: Service, acts: seq<Act>, user: nat)
    requires GoodService(s) && LegalRun(s, OpsOf(acts))
    ensures CountIn(Last(s, OpsOf(acts)).table, user)
         == CountIn(s.table, user) + OthersNet(s, acts, user) + OwnCount(s, acts, user)
  {
    if acts != [] {
      var init, a := acts[..|acts| - 1], acts[|acts| - 1];
      OpsPrefix(acts);
      CountsOfActs(s, init, user);
      RunGood(s, OpsOf(init));
      ActStep(Last(s, OpsOf(init)), a, user);
    }
  }

  /** What the close of `closed` takes from the count of `user`: nothing if it finds no entry. */
  function Taken(s: Service, acts: seq<Act>, closed: nat, user: nat): nat
    requires LegalRun(s, OpsOf(acts))
  {
    if user == closed && closed in Last(s, OpsOf(acts)).table then 1 else 0
  }

  /** What the session has left behind of `user` when it closes `closed`. */
  function LeftOver(s: Service, acts: seq<Act>, closed: nat, user: nat): int
    requires LegalRun(s, OpsOf(acts))
  {
    OwnCount(s, acts, user) - Taken(s, acts, closed, user)
  }

  lemma {:induction false} ClosingRun(s: Service, acts: seq<Act>, closed: nat)
    requires LegalRun(s, OpsOf(acts) + [Op.Close(closed)])
    ensures LegalRun(s, OpsOf(acts))
    ensures Last(s, OpsOf(acts) + [Op.Close(closed)]) == Step(Last(s, OpsOf(acts)), Op.Close(closed)).0
  {
    var ops := OpsOf(acts);
    assert (ops + [Op.Close(closed)])[..|ops|] == ops;
    RunNext(s, ops, Op.Close(closed));
  }

  /** The exact account of a whole session, with any number of own sign-ins under any ids and anything
      that others do in between: each user's count is what it was, plus what the others did, plus what
      the session leaves over. */
  lemma {:induction false} SessionAccount(s: Service, acts: seq<Act>, closed: nat, user: nat)
    requires GoodService(s) && LegalRun(s, OpsOf(acts) + [Op.Close(closed)])
    ensures LegalRun(s, OpsOf(acts))
    ensures CountIn(Last(s, OpsOf(acts) + [Op.Close(closed)]).table, user)
         == CountIn(s.table, user) + OthersNet(s, acts, user) + LeftOver(s, acts, closed, user)
  {
    ClosingRun(s, acts, closed);
    CountsOfActs(s, acts, user);
    RunGood(s, OpsOf(acts));
    ConnectionStep(Last(s, OpsOf(acts)), Op.Close(closed), user);
  }

  /** The count of `user` is as if the session had not been. */
  predicate Accounts(s: Service, acts: seq<Act>, closed: nat, user: nat)
    requires LegalRun(s, OpsOf(acts) + [Op.Close(closed)]) && LegalRun(s, OpsOf(acts))
  {
    CountIn(Last(s, OpsOf(acts) + [Op.Close(closed)]).table, user) == CountIn(s.table, user) + OthersNet(s, acts, user)
  }

  predicate Balanced(s: Service, acts: seq<Act>, closed: nat, user: nat)
    requires LegalRun(s, OpsOf(acts))
  {
    OwnCount(s, acts, user) == Taken(s, acts, closed, user)
  }

  /** So a session accounts for itself if and only if one of its sign-ins under the id it closes came
      when that user had fewer than two connections, or none if the close finds no entry, and none of those
      under other ids did. */
  lemma {:induction false} SessionAccountsIff(s: Service, acts: seq<Act>, closed: nat)
    requires GoodService(s) && LegalRun(s, OpsOf(acts) + [Op.Close(closed)])
    ensures LegalRun(s, OpsOf(acts))
    ensures (forall user: nat :: Accounts(s, acts, closed, user))
      <==> (forall user: nat :: Balanced(s, acts, closed, user))
  {
    ClosingRun(s, acts, closed);
    forall user: nat
      ensures Accounts(s, acts, closed, user) <==> Balanced(s, acts, closed, user)
    {
      SessionAccount(s, acts, closed, user);
    }
  }

  // ----- an accepted session loses its entry

  lemma {:induction false} ActNext(s: Service, acts: seq<Act>, a: Act, user: nat)
    requires LegalRun(s, OpsOf(acts)) && Legal(Last(s, OpsOf(acts)), OpOf(a))
    ensures var t := Last(s, OpsOf(acts));
      && LegalRun(s, OpsOf(acts + [a])) && Last(s, OpsOf(acts + [a])) == Step(t, OpOf(a)).0
      && OwnCount(s, acts + [a], user)
         == OwnCount(s, acts, user) + (if a == Own(user) && CountIn(t.table, user) < 2 then 1 else 0)
      && OthersNet(s, acts + [a], user) == OthersNet(s, acts, user) + (if a.Other? then NetStep(t, a.op, user) else 0)
  {
    assert (acts + [a])[..|acts|] == acts;
    OpsPrefix(acts + [a]);
    RunNext(s, OpsOf(acts), OpOf(a));
    assert OpsOf(acts + [a]) == OpsOf(acts) + [OpOf(a)];
  }

  /** A session of `user` is accepted, so is a second one, ... */
  function BothAccepted(user: nat): seq<Act> {
    [] + [Own(user)] + [Other(Op.Register(user))]
  }

  /** ... two more are refused, ... */
  function BothRefused(user: nat): seq<Act> {
    BothAccepted(user) + [Other(Op.Register(user))] + [Other(Op.Register(user))]
  }

  /** ... and those end first. */
  function RefusedEndFirst(user: nat): seq<Act> {
    BothRefused(user) + [Other(Op.Close(user))] + [Other(Op.Close(user))]
  }

  /** The table holds `count` connections of `user` and nothing kept, the rest as in `s`. */
  predicate Reaches(s: Service, acts: seq<Act>, user: nat, count: nat, others: int) {
    && LegalRun(s, OpsOf(acts))
    && Last(s, OpsOf(acts)) == (if count == 0 then s else s.(table := s.table[user := Entry(count, [])]))
    && OwnCount(s, acts, user) == 1 && OthersNet(s, acts, user) == others
  }

  lemma {:induction false} FirstAccepted(s: Service, user: nat)
    requires user !in s.table
    ensures Reaches(s, [] + [Own(user)], user, 1, 0)
  {
    ActNext(s, [], Own(user), user);
  }

  lemma RegisterAgain(m: Table, user: nat, count: nat)
    requires 1 <= count <= 2
    ensures Connections.Register(m[user := Entry(count, [])], user) == (m[user := Entry(2, [])], count == 1)
  {
    assert m[user := Entry(count, [])][user := Entry(2, [])] == m[user := Entry(2, [])];
  }

  lemma CloseOne(m: Table, user: nat, count: nat)
    requires user !in m && 1 <= count <= 2
    ensures user in m[user := Entry(count, [])]
    ensures Connections.Close(m[user := Entry(count, [])], user).0
         == (if count == 2 then m[user := Entry(1, [])] else m)
  {
    assert m[user := Entry(count, [])][user := Entry(1, [])] == m[user := Entry(1, [])];
    assert m[user := Entry(count, [])] - {user} == m;
  }

  lemma {:induction false} NextRegisters(s: Service, acts: seq<Act>, user: nat, count: nat, others: int)
    requires user !in s.table && 1 <= count <= 2 && Reaches(s, acts, user, count, others)
    ensures var more := if count == 1 then 1 else 0;
      Reaches(s, acts + [Other(Op.Register(user))], user, count + more, others + more)
  {
    RegisterAgain(s.table, user, count);
    ActNext(s, acts, Other(Op.Register(user)), user);
  }

  lemma {:induction false} NextCloses(s: Service, acts: seq<Act>, user: nat, count: nat, others: int)
    requires user !in s.table && 1 <= count <= 2 && Reaches(s, acts, user, count, others)
    ensures Reaches(s, acts + [Other(Op.Close(user))], user, count - 1, others - 1)
  {
    CloseOne(s.table, user, count);
    ActNext(s, acts, Other(Op.Close(user)), user);
  }

  lemma {:induction false} AfterBothAccepted(s: Service, user: nat)
    requires user !in s.table
    ensures Reaches(s, BothAccepted(user), user, 2, 1)
  {
    FirstAccepted(s, user);
    NextRegisters(s, [] + [Own(user)], user, 1, 0);
  }

  lemma {:induction false} AfterBothRefused(s: Service, user: nat)
    requires user !in s.table
    ensures Reaches(s, BothRefused(user), user, 2, 1)
  {
    AfterBothAccepted(s, user);
    NextRegisters(s, BothAccepted(user), user, 2, 1);
    NextRegisters(s, BothAccepted(user) + [Other(Op.Register(user))], user, 2, 1);
  }

  lemma {:induction false} AfterRefusedEnd(s: Service, user: nat)
    requires user !in s.table
    ensures Reaches(s, RefusedEndFirst(user), user, 0, -1)
  {
    AfterBothRefused(s, user);
    NextCloses(s, BothRefused(user), user, 2, 1);
    NextCloses(s, BothRefused(user) + [Other(Op.Close(user))], user, 1, 0);
  }

  /** The two accepted sessions go on and have no entry: a retrieval has no index to use, and the close
      of the first one finds nothing. */
  lemma {:induction false} EntryIsLost(s: Service, user: nat)
    requires user !in s.table
    ensures var acts := RefusedEndFirst(user);
      && LegalRun(s, OpsOf(acts)) && Last(s, OpsOf(acts)) == s
      && !Legal(Last(s, OpsOf(acts)), Retrieve(user))
      && OwnCount(s, acts, user) == 1 && OthersNet(s, acts, user) == -1
      && Taken(s, acts, user, user) == 0
  {
    AfterRefusedEnd(s, user);
  }

  /** So with anybody else connected, the first session closes without finding an entry and does not
      account for itself, although it was accepted under the id it closes. */
  lemma {:induction false} AcceptedSessionDoesNotAccount(s: Service, user: nat)
    requires GoodService(s) && user !in s.table && s.table != map[]
    ensures var acts := RefusedEndFirst(user);
      && LegalRun(s, OpsOf(acts)) && LegalRun(s, OpsOf(acts) + [Op.Close(user)])
      && OwnCount(s, acts, user) == 1 && !Accounts(s, acts, user, user)
  {
    EntryIsLost(s, user);
    RunNext(s, OpsOf(RefusedEndFirst(user)), Op.Close(user));
    SessionAccount(s, RefusedEndFirst(user), user, user);
  }

  // ----- it happens

  /** Users "a" and "b", nothing posted, nobody connected. */
  const FRESH := Service(Db(["a", "b"], [[], []], [[], []], [[], []], 0), map[])

  const HELLO := Tweet(0, 0, 7, "hello", 1)

  const CONNECTED_TWICE := Service(Db(["a", "b"], [[1], []], [[], []], [[], []], 1), map[1 := Entry(2, [HELLO])])

  lemma Posted(db: Db)
    requires db == Db(["a", "b"], [[1], []], [[], []], [[], []], 0)
    ensures UpdateDb(db, 0, HELLO) == Db(["a", "b"], [[1], []], [[HELLO], []], [[], [Ref(0, 0)]], 1)
  {
    var none: seq<Tweet>, pending: seq<Ref> := [], [];
    assert db.followers[0] == [1] && [1][..0] == [];
    assert none + [HELLO] == [HELLO] && pending + [Ref(0, 0)] == [Ref(0, 0)];
    assert HELLO.(id := 0, remaining := 1) == HELLO;
    assert ForwardAll(db.inboxes, [1], Ref(0, 0)) == db.inboxes[1 := [Ref(0, 0)]];
    assert db.store[0 := [HELLO]] == [[HELLO], []] && db.inboxes[1 := [Ref(0, 0)]] == [[], [Ref(0, 0)]];
  }

  lemma Retrieved(db: Db)
    requires db == Db(["a", "b"], [[1], []], [[HELLO], []], [[], [Ref(0, 0)]], 1)
    ensures RetrieveDb(db, 1) == (Db(["a", "b"], [[1], []], [[], []], [[], []], 1), [HELLO])
  {
    var refs, none: seq<Tweet> := db.inboxes[1], [];
    assert refs[..0] == [] && refs == [Ref(0, 0)];
    assert [HELLO][1..] == none && none + [HELLO] == [HELLO];
    assert ReleaseAll(db.store, refs[..0]) == db.store && ResolveAll(db.store, refs[..0]) == none;
    assert Release([HELLO], 0) == none && Resolve(db.store, Ref(0, 0)) == [HELLO];
    assert db.store[0 := none] == [[], []] && db.inboxes[1 := []] == [[], []];
  }

  /** User "b" connects twice and follows "a", who posts; one of the two sessions gets the tweet. */
  lemma ConnectedTwice() returns (ops: seq<Op>)
    ensures FreshService(FRESH) && LegalRun(FRESH, ops) && Last(FRESH, ops) == CONNECTED_TWICE
  {
    var register := Op.Register(1);
    var s2 := FRESH.(table := map[1 := Entry(2, [])]);
    RunNext(FRESH, [], register);
    RunNext(FRESH, [] + [register], register);
    ops := [] + [register] + [register];
    assert Last(FRESH, ops) == s2;
    assert FRESH.db.names[0] == "a";
    RunNext(FRESH, ops, Follow("a", 1));
    ops := ops + [Follow("a", 1)];
    var s3 := s2.(db := s2.db.(followers := [[1], []]));
    assert Last(FRESH, ops) == s3 by {
      var none: seq<nat> := [];
      assert none + [1] == [1] && s2.db.followers[0 := [1]] == s3.db.followers;
    }
    RunNext(FRESH, ops, Update(0, HELLO));
    ops := ops + [Update(0, HELLO)];
    Posted(s3.db);
    var s4 := s3.(db := Db(["a", "b"], [[1], []], [[HELLO], []], [[], [Ref(0, 0)]], 1));
    assert Last(FRESH, ops) == s4;
    RunNext(FRESH, ops, Retrieve(1));
    ops := ops + [Retrieve(1)];
    Retrieved(s4.db);
  }

  /** A third session of "b" is refused and ends: of the two that go on only one is counted, and the
      one that has not got the tweet gets nothing. */
  lemma TweetIsLost() returns (ops: seq<Op>, s: Service)
    ensures FreshService(FRESH) && LegalRun(FRESH, ops) && Last(FRESH, ops) == CONNECTED_TWICE
    ensures After(CONNECTED_TWICE, SessionOps(1, [])) == Some(s)
    ensures CountIn(s.table, 1) == 1 && Legal(s, Retrieve(1)) && Step(s, Retrieve(1)).1 == []
    ensures Step(CONNECTED_TWICE, Retrieve(1)).1 == [HELLO]
  {
    ops := ConnectedTwice();
    var t, open := CONNECTED_TWICE, [Op.Register(1)];
    RegisterFirst(t, 1);
    assert SessionOps(1, []) == open + [Op.Close(1)];
    RunNext(t, open, Op.Close(1));
    s := t.(table := Connections.Close(t.table, 1).0);
    assert t.table[1] == Entry(2, [HELLO]);
  }

  lemma TwoSignIns(first: nat, second: nat)
    ensures OpsOf([Own(first), Own(second)]) == [Op.Register(first), Op.Register(second)]
  {
    var acts := [Own(first), Own(second)];
    assert acts[..1] == [Own(first)] && acts[..1][..0] == [];
    assert OpsOf(acts[..1]) == [] + [Op.Register(first)];
  }

  lemma SignInTable(table: Table, user: nat)
    ensures table == map[] ==> Connections.Register(table, user).0 == map[user := Entry(1, [])]
    ensures table == map[user := Entry(1, [])] ==> Connections.Register(table, user).0 == map[user := Entry(2, [])]
  {
  }

  lemma LastClose(first: nat, second: nat)
    ensures var t := Connections.Register(map[first := Entry(1, [])], second).0;
      second in t && Connections.Close(t, second).0 == map[first := Entry(1, [])]
  {
    var t := Connections.Register(map[first := Entry(1, [])], second).0;
    if first != second {
      assert t - {second} == map[first := Entry(1, [])];
    }
  }

  /** On an empty server, a session that signs in twice and ends leaves one connection with nobody there:
      of the same user if it signs in again, of the first one if it changes the user. */
  lemma SecondSignInIsLeftOver(first: nat, second: nat)
    ensures var ops := OpsOf([Own(first), Own(second)]) + [Op.Close(second)];
      LegalRun(FRESH, ops) && Last(FRESH, ops) == FRESH.(table := map[first := Entry(1, [])])
  {
    var open1, open2 := [] + [Op.Register(first)], [] + [Op.Register(first)] + [Op.Register(second)];
    var s1 := FRESH.(table := map[first := Entry(1, [])]);
    var s2 := s1.(table := Connections.Register(s1.table, second).0);
    TwoSignIns(first, second);
    RunNext(FRESH, [], Op.Register(first));
    SignInTable(FRESH.table, first);
    assert Last(FRESH, open1) == s1;
    RunNext(FRESH, open1, Op.Register(second));
    assert Last(FRESH, open2) == s2;
    RunNext(FRESH, open2, Op.Close(second));
    assert OpsOf([Own(first), Own(second)]) == open2;
    LastClose(first, second);
  }
}
