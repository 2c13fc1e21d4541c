/** `saveDatabase` and `loadDatabase` together: what a server that is started again has. */
module Restart {
  import opened Mailbox
  import opened Codec
  import opened Persistence
  import Delivery

  datatype Files = Files(users: string, followers: string, pending: string, received: string)

  datatype Loaded = Loaded(users: seq<User>, followers: seq<seq<int>>, pending: seq<Records>, received: seq<Records>)

  // ----- the lists as records

  /** `addUser` gives the n-th user the id n. */
  function UsersOf(names: seq<string>): seq<User> {
    seq(|names|, i requires 0 <= i < |names| => User(names[i], i))
  }

  function RefRow(inbox: seq<Ref>): Records {
    seq(|inbox|, i requires 0 <= i < |inbox| => OfRef(inbox[i]))
  }

  function RefRows(inboxes: Inboxes): seq<Records> {
    seq(|inboxes|, u requires 0 <= u < |inboxes| => RefRow(inboxes[u]))
  }

  function TweetRow(list: seq<Tweet>): Records {
    seq(|list|, i requires 0 <= i < |list| => OfTweet(list[i]))
  }

  function TweetRows(store: Store): seq<Records> {
    seq(|store|, a requires 0 <= a < |store| => TweetRow(store[a]))
  }

  function ListsOf(db: Delivery.Db): Loaded {
    Loaded(UsersOf(db.names), db.followers, RefRows(db.inboxes), TweetRows(db.store))
  }

  /** The lists, entry by entry. */
  lemma ListsEntryByEntry(db: Delivery.Db)
    ensures var l := ListsOf(db);
      && l.followers == db.followers
      && |l.users| == |db.names| && (forall i :: 0 <= i < |db.names| ==> l.users[i] == User(db.names[i], i))
      && |l.pending| == |db.inboxes|
      && (forall u :: 0 <= u < |db.inboxes| ==> |l.pending[u]| == |db.inboxes[u]|)
      && (forall u, i :: 0 <= u < |db.inboxes| && 0 <= i < |db.inboxes[u]| ==>
            l.pending[u][i] == OfRef(db.inboxes[u][i]))
      && |l.received| == |db.store|
      && (forall a :: 0 <= a < |db.store| ==> |l.received[a]| == |db.store[a]|)
      && (forall a, k :: 0 <= a < |db.store| && 0 <= k < |db.store[a]| ==>
            l.received[a][k] == OfTweet(db.store[a][k]))
  {
  }

  // ----- records as lists of a database

  function NamesOf(users: seq<User>): seq<string> {
    seq(|users|, i requires 0 <= i < |users| => users[i].name)
  }

  function IndexIn(n: int): nat {
    if n < 0 then 0 else n
  }

  function RefIn(x: Record): Ref {
    match x
    case OfRef(r) => r
    case OfTweet(_) => Ref(0, 0)
  }

  function TweetIn(x: Record): Tweet {
    match x
    case OfRef(_) => Tweet(0, 0, 0, "", 0)
    case OfTweet(t) => t
  }

  function Mapped<A, B>(f: A -> B, rows: seq<seq<A>>): seq<seq<B>> {
    seq(|rows|, u requires 0 <= u < |rows| =>
      seq(|rows[u]|, i requires 0 <= i < |rows[u]| => f(rows[u][i])))
  }

  /** The database that a server has after a load. */
  function DbOf(l: Loaded): Delivery.Db {
    Delivery.Db(NamesOf(l.users), Mapped(IndexIn, l.followers),
                Mapped(TweetIn, l.received), Mapped(RefIn, l.pending), 0)
  }

  lemma MappedBack<A, B>(f: A -> B, rows: seq<seq<A>>, back: seq<seq<B>>)
    requires |rows| == |back| && forall u :: 0 <= u < |rows| ==> |rows[u]| == |back[u]|
    requires forall u, i :: 0 <= u < |rows| && 0 <= i < |rows[u]| ==> f(rows[u][i]) == back[u][i]
    ensures Mapped(f, rows) == back
  {
    forall u | 0 <= u < |rows|
      ensures Mapped(f, rows)[u] == back[u]
    {
    }
  }

  /** The lists of a database, with other users, are those of that database with other names. */
  lemma ListsBack(db: Delivery.Db, users: seq<User>)
    ensures DbOf(ListsOf(db).(users := users)) == db.(names := NamesOf(users), numTweets := 0)
  {
    var l := ListsOf(db);
    ListsEntryByEntry(db);
    MappedBack(IndexIn, l.followers, db.followers);
    MappedBack(RefIn, l.pending, db.inboxes);
    MappedBack(TweetIn, l.received, db.store);
  }

  /** What the machine's integers and the payload buffer demand. */
  predicate Fits(db: Delivery.Db) {
    && (forall u :: u in UsersOf(db.names) ==> UserInRange(u))
    && ListsInRange(db.followers)
    && InRange(PendingFile, RefRows(db.inboxes))
    && InRange(ReceivedFile, TweetRows(db.store))
  }

  // ----- both operations

  function Printed(l: Loaded): Files {
    Files(PrintUsers(l.users), PrintFollowers(l.followers), PrintRowsFile(l.pending), PrintRowsFile(l.received))
  }

  function Saved(db: Delivery.Db): Files {
    Printed(ListsOf(db))
  }

  function Load(files: Files, junk: nat): Option<Loaded> {
    var followers := ReadFollowers(files.followers);
    var pending := ReadRowsFile(ReaderOf(PendingFile), files.pending);
    var received := ReadRowsFile(ReaderOf(ReceivedFile), files.received);
    var users := ReadUsers(files.users, junk);
    if followers.Some? && pending.Some? && received.Some? && users.Some?
    then Some(Loaded(users.value, followers.value, pending.value, received.value)) else None
  }

  method SaveDatabase(l: Loaded) returns (files: Files)
    ensures files == Printed(l)
  {
    var users := SaveListOfUsers(l.users);
    var followers := SaveListOfFollowers(l.followers);
    var pending := SaveRows(l.pending);
    var received := SaveRows(l.received);
    return Files(users, followers, pending, received);
  }

  method LoadDatabase(files: Files, junk: nat) returns (loaded: Option<Loaded>)
    ensures loaded == Load(files, junk)
  {
    var followers := LoadListOfFollowers(files.followers);
    var pending := LoadRows(ReaderOf(PendingFile), files.pending);
    var received := LoadRows(ReaderOf(ReceivedFile), files.received);
    var users := LoadListOfUsers(files.users, junk);
    if followers == None || pending == None || received == None || users == None {
      return None;
    }
    return Some(Loaded(users.value, followers.value, pending.value, received.value));
  }

  // ----- what comes back

  /** Loading a saved database gives back every list, with one blank user at the end, exactly when all
      names are non-empty and do not start with a digit, and at most one reference and at most one
      tweet is stored, each with one of the last two users. */
  lemma DatabaseRoundTripIff(db: Delivery.Db, junk: nat)
    requires Fits(db)
    ensures var l := ListsOf(db);
      Load(Saved(db), junk) == Some(l.(users := l.users + [User("", junk)]))
      <==> (forall u :: u in l.users ==> Readable(u)) && OnlyNearTheEnd(l.pending) && OnlyNearTheEnd(l.received)
  {
    FollowersRoundTrip(db.followers);
    RowsFileRoundTripIff(PendingFile, RefRows(db.inboxes));
    RowsFileRoundTripIff(ReceivedFile, TweetRows(db.store));
    UsersFileIff(UsersOf(db.names), junk);
  }

  /** Whatever users are saved with lists whose files survive. */
  lemma {:induction false} LoadPrinted(l: Loaded, junk: nat)
    requires ListsInRange(l.followers) && InRange(PendingFile, l.pending) && InRange(ReceivedFile, l.received)
    requires OnlyNearTheEnd(l.pending) && OnlyNearTheEnd(l.received)
    ensures Load(Printed(l), junk)
         == match ReadUsers(PrintUsers(l.users), junk) case None => None case Some(us) => Some(l.(users := us))
  {
    FollowersRoundTrip(l.followers);
    RowsFileRoundTripIff(PendingFile, l.pending);
    RowsFileRoundTripIff(ReceivedFile, l.received);
  }

  lemma NamesWithBlank(names: seq<string>, junk: nat)
    ensures NamesOf(UsersOf(names) + [User("", junk)]) == names + [""]
  {
  }

  /** Then the loaded database is the one that was saved, but for the blank name and the numbering. */
  lemma DatabaseComesBack(db: Delivery.Db, junk: nat)
    requires Fits(db) && forall u :: u in UsersOf(db.names) ==> Readable(u)
    requires OnlyNearTheEnd(RefRows(db.inboxes)) && OnlyNearTheEnd(TweetRows(db.store))
    ensures var l := Load(Saved(db), junk);
      l.Some? && DbOf(l.value) == db.(names := db.names + [""], numTweets := 0)
  {
    var l, back := ListsOf(db), UsersOf(db.names) + [User("", junk)];
    UsersFileIff(l.users, junk);
    LoadPrinted(l, junk);
    ListsBack(db, back);
    NamesWithBlank(db.names, junk);
  }

  lemma {:induction false} IndexOfLast(names: seq<string>, name: string)
    requires name !in names
    ensures Delivery.IndexOf(names + [name], name) == Some(|names|)
  {
    if names == [] {
      assert names + [name] == [name];
    } else {
      assert (names + [name])[1..] == names[1..] + [name];
      IndexOfLast(names[1..], name);
    }
  }

  /** The blank user is found under the empty name, at an index that the other lists do not have. */
  lemma {:induction false} BlankUserIsOutOfRange(db: Delivery.Db, junk: nat)
    requires |db.names| == |db.followers|
    requires forall u :: u in UsersOf(db.names) ==> UserInRange(u) && Readable(u)
    ensures var users := ReadUsers(Saved(db).users, junk);
      users.Some? && Delivery.IndexOf(NamesOf(users.value), "") == Some(|db.followers|)
  {
    UsersFileIff(UsersOf(db.names), junk);
    var users := UsersOf(db.names);
    assert NamesOf(users + [User("", junk)]) == db.names + [""];
    forall i | 0 <= i < |db.names|
      ensures db.names[i] != ""
    {
      assert Readable(users[i]);
    }
    IndexOfLast(db.names, "");
  }

  // ----- one restart after the other

  /** A dot and NULs, `n` characters in all. */
  function Dot(n: nat): string {
    if n == 0 then "" else "." + Nuls(n - 1)
  }

  /** The blank record of the first load is saved with a leftover id. The next load takes that id for the
      length of its name, which is cut short by the end of the file; with id 0 the load never ends. */
  lemma {:induction false} BlankReadsAs(id: nat, junk: nat)
    requires id < U32
    ensures ReadUsers(PrintUser(User("", id)), junk) == if id == 0 then None else Some([User(Dot(id), junk)])
  {
    var blank := User("", id);
    EmptyNameReads(blank, "", junk);
    assert PrintUser(blank) + "" == PrintUser(blank);
    assert "." + "" == ".";
    if id == 0 {
      NothingBeforeSeparator("", junk);
      assert "."[..0] == "" && "."[0..] == ".";
    } else if id == 1 {
      assert "."[..1] == "." && "."[1..] == "" && Nuls(0) == "";
    }
  }

  /** The users after a restart: what is saved is loaded again. */
  function Reload(users: seq<User>, junk: nat): Option<seq<User>> {
    ReadUsers(PrintUsers(users), junk)
  }

  type Reloader = (seq<User>, nat) -> Option<seq<User>>

  /** The users after one restart for each of the leftover ids; None if some load never ends. */
  function Reloads(reload: Reloader, users: seq<User>, junks: seq<nat>): Option<seq<User>> {
    if junks == [] then Some(users)
    else match Reloads(reload, users, junks[..|junks| - 1])
      case None => None
      case Some(us) => reload(us, junks[|junks| - 1])
  }

  /** The leftover id of the blank record at the end, if there is one after so many restarts. */
  function Blank(junks: seq<nat>): Option<nat> {
    if junks == [] || Blank(junks[..|junks| - 1]).Some? then None else Some(junks[|junks| - 1])
  }

  /** Each second one of two restarts turns the blank record into a dot and NULs. */
  function Dots(junks: seq<nat>): seq<User> {
    if junks == [] then []
    else
      var init := junks[..|junks| - 1];
      match Blank(init)
      case None => Dots(init)
      case Some(id) => Dots(init) + [User(Dot(id), junks[|junks| - 1])]
  }

  /** What restarts have put behind the users. */
  function Added(junks: seq<nat>): seq<User> {
    match Blank(junks)
    case None => Dots(junks)
    case Some(id) => Dots(junks) + [User("", id)]
  }

  /** No restart meets a blank record with the leftover id 0. */
  predicate AllEnd(junks: seq<nat>) {
    junks == [] || (AllEnd(junks[..|junks| - 1]) && Blank(junks[..|junks| - 1]) != Some(0))
  }

  predicate AllReadable(users: seq<User>) {
    forall u :: u in users ==> UserInRange(u) && Readable(u)
  }

  predicate Leftovers(junks: seq<nat>) {
    forall i :: 0 <= i < |junks| ==> junks[i] < U32
  }

  lemma {:induction false} PrintUsersConcat(a: seq<User>, b: seq<User>)
    ensures PrintUsers(a + b) == PrintUsers(a) + PrintUsers(b)
  {
    if a == [] {
      assert a + b == b;
    } else {
      PrintUsersConcat(a[1..], b);
      assert (a + b)[1..] == a[1..] + b && (a + b)[0] == a[0];
      PrintUsersParts(a, PrintUsers(b));
    }
  }

  lemma {:induction false} PrintOneUser(u: User)
    ensures PrintUsers([u]) == PrintUser(u)
  {
    assert [u][1..] == [];
  }

  /** What the first and the second of two restarts do. */
  ghost predicate AddsUsers(reload: Reloader) {
    && (forall users, junk: nat :: AllReadable(users) ==> reload(users, junk) == Some(users + [User("", junk)]))
    && (forall users, id: nat, junk: nat :: AllReadable(users) && id < U32 ==>
          reload(users + [User("", id)], junk) == if id == 0 then None else Some(users + [User(Dot(id), junk)]))
  }

  lemma {:induction false} SecondOfTwo(users: seq<User>, id: nat, junk: nat)
    requires AllReadable(users) && id < U32
    ensures ReadUsers(PrintUsers(users + [User("", id)]), junk)
         == if id == 0 then None else Some(users + [User(Dot(id), junk)])
  {
    var blank := User("", id);
    PrintUsersConcat(users, [blank]);
    PrintOneUser(blank);
    ReadUsersBehind(users, PrintUser(blank), junk);
    BlankReadsAs(id, junk);
  }

  lemma ReloadAddsUsers()
    ensures AddsUsers(Reload)
  {
    forall users, junk: nat | AllReadable(users)
      ensures Reload(users, junk) == Some(users + [User("", junk)])
    {
      UsersFileIff(users, junk);
    }
    forall users, id: nat, junk: nat | AllReadable(users) && id < U32
      ensures Reload(users + [User("", id)], junk) == if id == 0 then None else Some(users + [User(Dot(id), junk)])
    {
      SecondOfTwo(users, id, junk);
    }
  }

  lemma DotIsReadable(id: nat, junk: nat)
    requires 0 < id < U32 && junk < U32
    ensures UserInRange(User(Dot(id), junk)) && Readable(User(Dot(id), junk))
  {
    assert Dot(id)[0] == '.';
  }

  lemma AllReadableConcat(a: seq<User>, b: seq<User>)
    requires AllReadable(a) && AllReadable(b)
    ensures AllReadable(a + b)
  {
  }

  lemma {:induction false} BlankIsLast(junks: seq<nat>)
    ensures Blank(junks) == if |junks| % 2 == 1 then Some(junks[|junks| - 1]) else None
  {
    if junks != [] {
      BlankIsLast(junks[..|junks| - 1]);
    }
  }

  lemma {:induction false} AddedSize(junks: seq<nat>)
    ensures |Dots(junks)| == |junks| / 2 && |Added(junks)| == (|junks| + 1) / 2
  {
    BlankIsLast(junks);
    if junks != [] {
      AddedSize(junks[..|junks| - 1]);
      BlankIsLast(junks[..|junks| - 1]);
    }
  }

  lemma {:induction false} DotsAreReadable(junks: seq<nat>)
    requires Leftovers(junks) && AllEnd(junks)
    ensures AllReadable(Dots(junks)) && match Blank(junks) case None => true case Some(id) => id < U32
  {
    if junks != [] {
      var init, junk := junks[..|junks| - 1], junks[|junks| - 1];
      DotsAreReadable(init);
      match Blank(init)
      case None =>
      case Some(id) =>
        DotIsReadable(id, junk);
        AllReadableConcat(Dots(init), [User(Dot(id), junk)]);
    }
  }

  lemma Regroup(a: seq<User>, b: seq<User>, c: seq<User>)
    ensures a + (b + c) == a + b + c
  {
  }

  /** One restart more. */
  lemma {:induction false} NextRestart(reload: Reloader, users: seq<User>, junks: seq<nat>, junk: nat)
    requires AddsUsers(reload) && AllReadable(users) && AllReadable(Dots(junks))
    requires match Blank(junks) case None => true case Some(id) => id < U32
    ensures reload(users + Added(junks), junk)
         == if Blank(junks) == Some(0) then None else Some(users + Added(junks + [junk]))
  {
    var more := junks + [junk];
    assert more[..|more| - 1] == junks;
    AllReadableConcat(users, Dots(junks));
    match Blank(junks)
    case None =>
      assert Added(more) == Dots(junks) + [User("", junk)];
      Regroup(users, Dots(junks), [User("", junk)]);
    case Some(id) =>
      assert Added(more) == Dots(junks) + [User(Dot(id), junk)];
      Regroup(users, Dots(junks), [User("", id)]);
      Regroup(users, Dots(junks), [User(Dot(id), junk)]);
  }

  lemma {:induction false} AllRestarts(reload: Reloader, users: seq<User>, junks: seq<nat>)
    requires AddsUsers(reload) && AllReadable(users) && Leftovers(junks)
    ensures Reloads(reload, users, junks) == if AllEnd(junks) then Some(users + Added(junks)) else None
  {
    if junks == [] {
      assert users + Added([]) == users;
    } else {
      var init, junk := junks[..|junks| - 1], junks[|junks| - 1];
      AllRestarts(reload, users, init);
      if AllEnd(init) {
        DotsAreReadable(init);
        NextRestart(reload, users, init, junk);
        assert init + [junk] == junks;
      }
    }
  }

  /** Any number of restarts: the server comes up after each of them if and only if no second one of two
      meets the leftover id 0, and then the users are those saved first and one more name for every two
      restarts begun, for which no other list has an entry. */
  lemma {:induction false} RestartsAddUsers(users: seq<User>, junks: seq<nat>)
    requires AllReadable(users) && Leftovers(junks)
    ensures Reloads(Reload, users, junks) == if AllEnd(junks) then Some(users + Added(junks)) else None
    ensures |Added(junks)| == (|junks| + 1) / 2
  {
    AddedSize(junks);
    ReloadAddsUsers();
    AllRestarts(Reload, users, junks);
  }

  // ----- the files in the repository

  const DOTTED := User(".\0\0", 3)

  lemma PrintShort(name: string, id: nat)
    requires |name| < 10 && id < 10
    ensures PrintUser(User(name, id)) == [DigitChar(|name|)] + name + [DigitChar(id)] + "."
  {
  }

  lemma {:induction false} PrintNext(u: User, text: string, rest: seq<User>)
    requires PrintUser(u) == text
    ensures PrintUsers([u] + rest) == text + PrintUsers(rest)
  {
    assert ([u] + rest)[1..] == rest;
  }

  lemma PrintDotted()
    ensures PrintUsers([DOTTED] + [DOTTED]) == "3.\0\03." + "3.\0\03."
  {
    PrintShort(".\0\0", 3);
    PrintNext(DOTTED, "3.\0\03.", [DOTTED]);
    PrintOneUser(DOTTED);
  }

  function Two(rest: seq<User>): seq<User> {
    [User("@noblesse", 2)] + ([User("@miku2", 3)] + rest)
  }

  function Four(rest: seq<User>): seq<User> {
    [User("@miku", 0)] + ([User("@oblige", 1)] + Two(rest))
  }

  lemma {:induction false} PrintTwo(rest: seq<User>)
    ensures PrintUsers(Two(rest)) == "9@noblesse2." + ("6@miku23." + PrintUsers(rest))
  {
    PrintShort("@noblesse", 2);
    PrintNext(User("@noblesse", 2), "9@noblesse2.", [User("@miku2", 3)] + rest);
    PrintShort("@miku2", 3);
    PrintNext(User("@miku2", 3), "6@miku23.", rest);
  }

  lemma PrintFour(rest: seq<User>)
    ensures PrintUsers(Four(rest)) == "5@miku0." + ("7@oblige1." + PrintUsers(Two(rest)))
  {
    PrintShort("@miku", 0);
    PrintNext(User("@miku", 0), "5@miku0.", [User("@oblige", 1)] + Two(rest));
    PrintShort("@oblige", 1);
    PrintNext(User("@oblige", 1), "7@oblige1.", Two(rest));
  }

  const SHIPPED := "5@miku0." + ("7@oblige1." + ("9@noblesse2." + ("6@miku23." + ("3.\0\03." + "3.\0\03."))))

  lemma ShippedText()
    ensures PrintUsers(Four([DOTTED] + [DOTTED])) == SHIPPED
  {
    PrintFour([DOTTED] + [DOTTED]);
    PrintTwo([DOTTED] + [DOTTED]);
    PrintDotted();
  }

  lemma {:induction false} AddedNext(junks: seq<nat>, junk: nat)
    ensures Blank(junks + [junk]) == if Blank(junks).Some? then None else Some(junk)
    ensures Dots(junks + [junk])
         == match Blank(junks) case None => Dots(junks) case Some(id) => Dots(junks) + [User(Dot(id), junk)]
    ensures AllEnd(junks + [junk]) <==> AllEnd(junks) && Blank(junks) != Some(0)
  {
    assert (junks + [junk])[..|junks|] == junks;
  }

  function FourTimes(id: nat): seq<nat> {
    [] + [id] + [id] + [id] + [id]
  }

  lemma {:induction false} FourRestarts(id: nat)
    requires id > 0
    ensures Added(FourTimes(id)) == [User(Dot(id), id)] + [User(Dot(id), id)] && AllEnd(FourTimes(id))
  {
    AddedNext([], id);
    AddedNext([] + [id], id);
    AddedNext([] + [id] + [id], id);
    AddedNext([] + [id] + [id] + [id], id);
  }

  lemma {:induction false} AfterFourRestarts(users: seq<User>, id: nat)
    requires AllReadable(users) && 0 < id < U32
    ensures Reloads(Reload, users, FourTimes(id)) == Some(users + ([User(Dot(id), id)] + [User(Dot(id), id)]))
  {
    RestartsAddUsers(users, FourTimes(id));
    FourRestarts(id);
  }

  lemma FourAreReadable()
    ensures AllReadable(Four([]))
  {
  }

  lemma FourBehind(rest: seq<User>)
    ensures Four([]) + rest == Four(rest)
  {
  }

  /** The users file that comes with the program is that of a server with four users after four restarts,
      each with the leftover id 3. */
  lemma ShippedFile()
    ensures Reloads(Reload, Four([]), FourTimes(3)) == Some(Four([DOTTED] + [DOTTED]))
    ensures PrintUsers(Four([DOTTED] + [DOTTED])) == SHIPPED
  {
    FourAreReadable();
    AfterFourRestarts(Four([]), 3);
    assert Dot(3) == ".\0\0";
    FourBehind([DOTTED] + [DOTTED]);
    ShippedText();
  }

  lemma {:induction false} PrintDigit(n: nat)
    requires n < 10
    ensures PrintNat(n) == [DigitChar(n)] && PrintInt(n) == [DigitChar(n)]
  {
  }

  lemma {:induction false} PrintListsNext(ids: seq<int>, text: string, rest: seq<seq<int>>)
    requires PrintList(ids) == text
    ensures PrintLists([ids] + rest) == text + PrintLists(rest)
  {
    assert ([ids] + rest)[1..] == rest;
  }

  lemma PrintNone()
    ensures PrintList([]) == "0."
  {
    PrintDigit(0);
  }

  lemma PrintOne(a: int)
    requires 0 <= a < 10
    ensures PrintIds([a]) == [DigitChar(a)] + "/" && PrintList([a]) == "1." + ([DigitChar(a)] + "/")
  {
    PrintDigit(1);
    PrintDigit(a);
    assert [a][1..] == [];
  }

  lemma PrintPair(a: int, b: int)
    requires 0 <= a < 10 && 0 <= b < 10
    ensures PrintList([a, b]) == "2." + ([DigitChar(a)] + "/" + ([DigitChar(b)] + "/"))
  {
    PrintDigit(2);
    PrintDigit(a);
    PrintOne(b);
    assert [a, b][1..] == [b];
  }

  /** The follower lists of the same server: the first user is followed by the second, the second by the
      first and the fourth. */
  const LISTS: seq<seq<int>> := [[1]] + ([[0, 3]] + ([[]] + ([[]] + [])))

  lemma ShippedFollowers()
    ensures PrintFollowers(LISTS) == "4." + ("1.1/" + ("2.0/3/" + ("0." + ("0." + ""))))
  {
    PrintOne(1);
    PrintListsNext([1], "1.1/", [[0, 3]] + ([[]] + ([[]] + [])));
    PrintPair(0, 3);
    PrintListsNext([0, 3], "2.0/3/", [[]] + ([[]] + []));
    PrintNone();
    PrintListsNext([], "0.", [[]] + []);
    PrintListsNext([], "0.", []);
    PrintDigit(4);
  }

  /** A reference is written as the id of the tweet and the index of its author, a tweet with its author
      first and its remaining recipients last. */
  lemma RecordsAsText(payload: string)
    ensures PrintRecord(OfRef(Ref(0, 7))) == "7.0."
    ensures PrintRecord(OfTweet(Tweet(1, 2, 3, payload, 4))) == "1.2.3." + payload + ".4."
  {
    PrintDigit(0);
    PrintDigit(1);
    PrintDigit(2);
    PrintDigit(3);
    PrintDigit(4);
    PrintDigit(7);
  }
}
