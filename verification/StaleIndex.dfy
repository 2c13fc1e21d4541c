/** `registerDuplicateTweet` and `retrieveDuplicateTweet` look up a user's index under the semaphore, free
    it, and take it again to use the index. What a close in between does to the index. */
module StaleIndex {
  import opened Mailbox
  import opened Connections
  import opened ConnectionManagers

  /** The two parallel lists. */
  datatype Lists = Lists(users: seq<Tracker>, duplicates: seq<seq<Tweet>>)

  predicate Sound(l: Lists) {
    |l.users| == |l.duplicates| && Distinct(l.users)
  }

  function Index(users: seq<Tracker>, user: nat): Option<nat> {
    if users == [] then None
    else if users[0].userID == user then Some(0)
    else match Index(users[1..], user)
      case None => None
      case Some(i) => Some(i + 1)
  }

  lemma {:induction false} IndexFinds(users: seq<Tracker>, user: nat)
    ensures match Index(users, user)
      case None => forall i :: 0 <= i < |users| ==> users[i].userID != user
      case Some(i) => i < |users| && users[i].userID == user
  {
    if users != [] {
      IndexFinds(users[1..], user);
    }
  }

  function RegisterLists(l: Lists, user: nat): Lists
    requires Sound(l)
  {
    match Index(l.users, user)
    case None => Lists(l.users + [Tracker(user, 1)], l.duplicates + [[]])
    case Some(i) =>
      if i < |l.users| && l.users[i].numConnections < 2
      then l.(users := l.users[i := Tracker(user, l.users[i].numConnections + 1)]) else l
  }

  /** A close takes away the entry unless the user has two connections. */
  function CloseLists(l: Lists, user: nat): Lists
    requires Sound(l)
  {
    match Index(l.users, user)
    case None => l
    case Some(i) =>
      if i >= |l.users| then l
      else if l.users[i].numConnections == 2 then Lists(l.users[i := Tracker(user, 1)], l.duplicates[i := []])
      else Lists(Without(l.users, i), Without(l.duplicates, i))
  }

  /** On the lists a close does what it does on the table they stand for. */
  lemma CloseIsClose(l: Lists, user: nat)
    requires Sound(l)
    ensures Sound(CloseLists(l, user))
    ensures TableOf(CloseLists(l, user).users, CloseLists(l, user).duplicates)
         == Close(TableOf(l.users, l.duplicates), user).0
  {
    IndexFinds(l.users, user);
    TableHas(l.users, l.duplicates);
    match Index(l.users, user)
    case None =>
    case Some(i) =>
      if l.users[i].numConnections == 2 {
        TableSet(l.users, l.duplicates, i, Entry(1, []));
      } else {
        DistinctWithout(l.users, i);
        TableWithout(l.users, l.duplicates, i);
      }
  }

  /** And so does a registration. */
  lemma RegisterIsRegister(l: Lists, user: nat)
    requires Sound(l)
    ensures TableOf(RegisterLists(l, user).users, RegisterLists(l, user).duplicates)
         == Register(TableOf(l.users, l.duplicates), user).0
  {
    IndexFinds(l.users, user);
    TableHas(l.users, l.duplicates);
    match Index(l.users, user)
    case None => TableAppend(l.users, l.duplicates, Tracker(user, 1));
    case Some(i) =>
      if l.users[i].numConnections < 2 {
        TableSet(l.users, l.duplicates, i, Entry(l.users[i].numConnections + 1, l.duplicates[i]));
        assert l.duplicates[i := l.duplicates[i]] == l.duplicates;
      }
  }

  /** The index still is that of the same user. */
  predicate StillRight(l: Lists, l': Lists, i: nat)
    requires i < |l.users|
  {
    i < |l'.users| && l'.users[i].userID == l.users[i].userID
  }

  /** The close of `user` takes away an entry at or before `i`. */
  predicate ErasesUpTo(l: Lists, user: nat, i: nat) {
    match Index(l.users, user)
    case None => false
    case Some(k) => k <= i && k < |l.users| && l.users[k].numConnections != 2
  }

  /** A registration in between does no harm. */
  lemma RegisterKeepsIndex(l: Lists, user: nat, i: nat)
    requires Sound(l) && i < |l.users|
    ensures StillRight(l, RegisterLists(l, user), i)
  {
    IndexFinds(l.users, user);
  }

  /** An index that was looked up stays right across a close if and only if the close takes away no entry
      at or before it. */
  lemma CloseKeepsIndexIff(l: Lists, user: nat, i: nat)
    requires Sound(l) && i < |l.users|
    ensures StillRight(l, CloseLists(l, user), i) <==> !ErasesUpTo(l, user, i)
  {
    IndexFinds(l.users, user);
    if ErasesUpTo(l, user, i) && i + 1 < |l.users| {
      var k := Index(l.users, user).value;
      assert Without(l.users, k)[i] == l.users[i + 1];
    }
  }

  // ----- any number of operations in between

  datatype Op = Open(user: nat) | End(user: nat)

  function Apply(l: Lists, op: Op): Lists
    requires Sound(l)
  {
    match op
    case Open(user) => RegisterLists(l, user)
    case End(user) => CloseLists(l, user)
  }

  lemma ApplySound(l: Lists, op: Op)
    requires Sound(l)
    ensures Sound(Apply(l, op))
  {
    match op
    case Open(user) =>
      IndexFinds(l.users, user);
      var l' := RegisterLists(l, user);
      assert forall i :: 0 <= i < |l.users| ==> l'.users[i].userID == l.users[i].userID;
    case End(user) => CloseIsClose(l, user);
  }

  /** No operation takes away an entry at or before `i`. */
  predicate Harmless(l: Lists, ops: seq<Op>, i: nat)
    requires Sound(l)
    decreases |ops|
  {
    ops == [] ||
    (ApplySound(l, ops[0]);
     !(ops[0].End? && ErasesUpTo(l, ops[0].user, i)) && Harmless(Apply(l, ops[0]), ops[1..], i))
  }

  function After(l: Lists, ops: seq<Op>): Lists
    requires Sound(l)
    decreases |ops|
  {
    if ops == [] then l
    else
      ApplySound(l, ops[0]);
      After(Apply(l, ops[0]), ops[1..])
  }

  /** Across any operations of other sessions of which none is such a close, the index stays right. (The
      converse is wrong: a user whose entry is taken away may come back to the same place.) */
  lemma {:induction false} HarmlessKeepsIndex(l: Lists, ops: seq<Op>, i: nat)
    requires Sound(l) && i < |l.users| && Harmless(l, ops, i)
    ensures StillRight(l, After(l, ops), i)
    decreases |ops|
  {
    if ops != [] {
      ApplySound(l, ops[0]);
      if ops[0].Open? {
        RegisterKeepsIndex(l, ops[0].user, i);
      } else {
        CloseKeepsIndexIff(l, ops[0].user, i);
      }
      HarmlessKeepsIndex(Apply(l, ops[0]), ops[1..], i);
    }
  }

  // ----- the tweet goes to somebody else

  /** A tweet kept at an index that went stale goes to the user behind the one it was meant for. */
  lemma StaleIndexMisdelivers(l: Lists, user: nat, i: nat, tweet: Tweet)
    requires Sound(l) && i + 1 < |l.users| && ErasesUpTo(l, user, i)
    ensures var l', next := CloseLists(l, user), l.users[i + 1].userID;
      var table := Close(TableOf(l.users, l.duplicates), user).0;
      && |l'.users| == |l'.duplicates| && i < |l'.users| && next in table
      && TableOf(l'.users, l'.duplicates[i := l'.duplicates[i] + [tweet]]) == AddDuplicates(table, next, [tweet])
  {
    IndexFinds(l.users, user);
    CloseIsClose(l, user);
    var l', k := CloseLists(l, user), Index(l.users, user).value;
    assert l'.users[i] == l.users[i + 1] && l'.duplicates[i] == l.duplicates[i + 1];
    TableHas(l'.users, l'.duplicates);
    TableSet(l'.users, l'.duplicates, i, Entry(l'.users[i].numConnections, l'.duplicates[i] + [tweet]));
    assert l'.users[i := Tracker(l'.users[i].userID, l'.users[i].numConnections)] == l'.users;
  }

  /** What was kept for the user behind is handed to the one it was looked up for, and is gone. */
  lemma StaleIndexHandsOver(l: Lists, user: nat, i: nat)
    requires Sound(l) && i + 1 < |l.users| && ErasesUpTo(l, user, i)
    ensures var l', next := CloseLists(l, user), l.users[i + 1].userID;
      var table := Close(TableOf(l.users, l.duplicates), user).0;
      && |l'.users| == |l'.duplicates| && i < |l'.users| && next in table && next != l.users[i].userID
      && (TableOf(l'.users, l'.duplicates[i := []]), l'.duplicates[i]) == TakeDuplicates(table, next)
  {
    IndexFinds(l.users, user);
    CloseIsClose(l, user);
    var l', k := CloseLists(l, user), Index(l.users, user).value;
    assert l'.users[i] == l.users[i + 1] && l'.duplicates[i] == l.duplicates[i + 1];
    TableHas(l'.users, l'.duplicates);
    TableSet(l'.users, l'.duplicates, i, Entry(l'.users[i].numConnections, []));
    assert l'.users[i := Tracker(l'.users[i].userID, l'.users[i].numConnections)] == l'.users;
  }

  /** An index that went stale at the last entry is out of range. */
  lemma StaleIndexIsOutOfRange(l: Lists, user: nat, i: nat)
    requires Sound(l) && i + 1 == |l.users| && ErasesUpTo(l, user, i)
    ensures |CloseLists(l, user).users| == |CloseLists(l, user).duplicates| == i
  {
    IndexFinds(l.users, user);
  }

  /** Users 5, 6 and 7 are connected; 6 and 7 twice. While a tweet for 6 is being kept, 5 disconnects: the
      tweet is kept for 7. */
  lemma TweetIsKeptForAnother(tweet: Tweet)
    ensures var l := Lists([Tracker(5, 1), Tracker(6, 2), Tracker(7, 2)], [[], [], []]);
      && Sound(l) && Index(l.users, 6) == Some(1) && ErasesUpTo(l, 5, 1)
      && var l' := CloseLists(l, 5);
         && l'.users == [Tracker(6, 2), Tracker(7, 2)] && l'.duplicates == [[], []]
         && l'.duplicates[1 := l'.duplicates[1] + [tweet]] == [[], [tweet]]
  {
    var l := Lists([Tracker(5, 1), Tracker(6, 2), Tracker(7, 2)], [[], [], []]);
    assert l.users[1..][0] == Tracker(6, 2);
    var none: seq<Tweet> := [];
    assert none + [tweet] == [tweet];
  }
}
