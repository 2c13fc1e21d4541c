/** The files of `saveDatabase` and `loadDatabase`: what loading a saved file gives back. */
module Persistence {
  import opened Mailbox
  import opened Codec

  // ----- listOfFollowers.txt

  function PrintIds(ids: seq<int>): string {
    if ids == [] then "" else PrintInt(ids[0]) + "/" + PrintIds(ids[1..])
  }

  function PrintList(ids: seq<int>): string {
    PrintNat(|ids|) + "." + PrintIds(ids)
  }

  function PrintLists(lists: seq<seq<int>>): string {
    if lists == [] then "" else PrintList(lists[0]) + PrintLists(lists[1..])
  }

  function PrintFollowers(lists: seq<seq<int>>): string {
    PrintNat(|lists|) + "." + PrintLists(lists)
  }

  /** An `int` and one separator. */
  function ReadIntField(s: string): Option<(int, string)> {
    match ReadInt(s)
    case None => None
    case Some((v, rest)) =>
      match ReadChar(rest)
      case None => None
      case Some((_, rest')) => Some((v, rest'))
  }

  /** A way to read one `int` and its separator; `ReadIntField` in the loaders. */
  type IntReader = string -> Option<(int, string)>

  function PrependIds(front: seq<int>, result: Option<(seq<int>, string)>): Option<(seq<int>, string)> {
    match result
    case None => None
    case Some((ids, rest)) => Some((front + ids, rest))
  }

  function ReadIds(field: IntReader, n: int, s: string): Option<(seq<int>, string)>
    decreases n
  {
    if n <= 0 then Some(([], s))
    else match field(s)
      case None => None
      case Some((id, s1)) =>
        PrependIds([id], ReadIds(field, n - 1, s1))
  }

  function Prepend<T>(front: seq<T>, result: Option<seq<T>>): Option<seq<T>> {
    match result
    case None => None
    case Some(back) => Some(front + back)
  }

  function ReadLists(field: IntReader, n: int, s: string): Option<seq<seq<int>>>
    decreases n
  {
    if n <= 0 then Some([])
    else match field(s)
      case None => None
      case Some((k, s1)) =>
        match ReadIds(field, k, s1)
        case None => None
        case Some((ids, s2)) => Prepend([ids], ReadLists(field, n - 1, s2))
  }

  function ReadFollowers(text: string): Option<seq<seq<int>>> {
    match ReadIntField(text)
    case None => None
    case Some((n, s)) => ReadLists(ReadIntField, n, s)
  }

  predicate IntRange(n: int) {
    -0x8000_0000 <= n < 0x8000_0000
  }

  predicate IdsInRange(ids: seq<int>) {
    IntRange(|ids|) && forall j :: 0 <= j < |ids| ==> IntRange(ids[j])
  }

  predicate ListsInRange(lists: seq<seq<int>>) {
    && IntRange(|lists|)
    && forall i :: 0 <= i < |lists| ==> IdsInRange(lists[i])
  }

  lemma ReadIntFieldOfPrint(n: int, sep: char, rest: string)
    requires IntRange(n) && !Digit(sep) && !Space(sep)
    ensures ReadIntField(PrintInt(n) + ([sep] + rest)) == Some((n, rest))
  {
    assert ([sep] + rest)[0] == sep && ([sep] + rest)[1..] == rest;
    ReadIntOfPrint(n, [sep] + rest);
  }

  lemma ReadIdsNext(field: IntReader, n: int, s: string, id: int, rest: string)
    requires n > 0 && field(s) == Some((id, rest))
    ensures ReadIds(field, n, s) == PrependIds([id], ReadIds(field, n - 1, rest))
  {
  }

  lemma {:induction false} PrintIdsParts(ids: seq<int>, rest: string)
    requires ids != []
    ensures PrintIds(ids) + rest == PrintInt(ids[0]) + (['/'] + (PrintIds(ids[1..]) + rest))
  {
  }

  /** An `int` reads back if a separator follows it. */
  ghost predicate ReadsInts(field: IntReader) {
    forall n, sep, rest :: IntRange(n) && !Digit(sep) && !Space(sep) ==>
      field(PrintInt(n) + ([sep] + rest)) == Some((n, rest))
  }

  lemma FieldReadsInts()
    ensures ReadsInts(ReadIntField)
  {
    forall n, sep, rest | IntRange(n) && !Digit(sep) && !Space(sep)
      ensures ReadIntField(PrintInt(n) + ([sep] + rest)) == Some((n, rest))
    {
      ReadIntFieldOfPrint(n, sep, rest);
    }
  }

  lemma {:induction false} IdsRoundTrip(field: IntReader, ids: seq<int>, rest: string)
    requires ReadsInts(field) && forall j :: 0 <= j < |ids| ==> IntRange(ids[j])
    ensures ReadIds(field, |ids|, PrintIds(ids) + rest) == Some((ids, rest))
  {
    if ids == [] {
      assert "" + rest == rest;
    } else {
      var tail := PrintIds(ids[1..]) + rest;
      PrintIdsParts(ids, rest);
      IdsRoundTrip(field, ids[1..], rest);
      ReadIdsNext(field, |ids|, PrintIds(ids) + rest, ids[0], tail);
      assert [ids[0]] + ids[1..] == ids;
    }
  }

  lemma Assoc(a: string, b: string, c: string, d: string)
    ensures (a + b) + c == a + (b + c)
    ensures ((a + b) + c) + d == a + (b + (c + d))
  {
  }

  lemma {:induction false} ListRoundTrip(field: IntReader, ids: seq<int>, tail: string)
    requires ReadsInts(field) && IdsInRange(ids)
    ensures field(PrintList(ids) + tail) == Some((|ids|, PrintIds(ids) + tail))
    ensures ReadIds(field, |ids|, PrintIds(ids) + tail) == Some((ids, tail))
  {
    Assoc(PrintNat(|ids|), ".", PrintIds(ids), tail);
    assert PrintList(ids) + tail == PrintInt(|ids|) + (['.'] + (PrintIds(ids) + tail));
    IdsRoundTrip(field, ids, tail);
  }

  lemma {:induction false} ReadListsNext(field: IntReader, n: int, s: string, k: int, s1: string, ids: seq<int>,
      s2: string)
    requires n > 0 && field(s) == Some((k, s1)) && ReadIds(field, k, s1) == Some((ids, s2))
    ensures ReadLists(field, n, s) == Prepend([ids], ReadLists(field, n - 1, s2))
  {
  }

  lemma {:induction false} ListsBehind(field: IntReader, lists: seq<seq<int>>)
    requires ReadsInts(field) && lists != [] && IdsInRange(lists[0])
    requires ReadLists(field, |lists| - 1, PrintLists(lists[1..])) == Some(lists[1..])
    ensures ReadLists(field, |lists|, PrintLists(lists)) == Some(lists)
  {
    var ids, tail := lists[0], PrintLists(lists[1..]);
    ListRoundTrip(field, ids, tail);
    ReadListsNext(field, |lists|, PrintList(ids) + tail, |ids|, PrintIds(ids) + tail, ids, tail);
    assert [ids] + lists[1..] == lists;
  }

  lemma {:induction false} ListsRoundTrip(field: IntReader, lists: seq<seq<int>>)
    requires ReadsInts(field) && forall i :: 0 <= i < |lists| ==> IdsInRange(lists[i])
    ensures ReadLists(field, |lists|, PrintLists(lists)) == Some(lists)
  {
    if lists != [] {
      ListsRoundTrip(field, lists[1..]);
      ListsBehind(field, lists);
    }
  }

  /** Loading the saved followers gives back exactly the lists, whatever 32-bit ids they hold. */
  lemma FollowersRoundTrip(lists: seq<seq<int>>)
    requires ListsInRange(lists)
    ensures ReadFollowers(PrintFollowers(lists)) == Some(lists)
  {
    assert PrintFollowers(lists) == PrintInt(|lists|) + (['.'] + PrintLists(lists));
    ReadIntFieldOfPrint(|lists|, '.', PrintLists(lists));
    FieldReadsInts();
    ListsRoundTrip(ReadIntField, lists);
  }

  lemma PrependNil<T>(r: Option<seq<T>>)
    ensures Prepend([], r) == r
  {
    if r.Some? {
      assert [] + r.value == r.value;
    }
  }

  lemma PrependTwice<T>(a: seq<T>, b: seq<T>, r: Option<seq<T>>)
    ensures Prepend(a, Prepend(b, r)) == Prepend(a + b, r)
  {
    if r.Some? {
      assert a + (b + r.value) == (a + b) + r.value;
    }
  }

  method SaveFollowersOf(ids: seq<int>, file: string) returns (file': string)
    ensures file' == file + PrintList(ids)
  {
    file' := file + (PrintNat(|ids|) + ".");
    for j := 0 to |ids|
      invariant file' + PrintIds(ids[j..]) == file + PrintList(ids)
    {
      file' := file' + (PrintInt(ids[j]) + "/");
      assert ids[j..][1..] == ids[j + 1..];
    }
    assert file' + "" == file';
  }

  method SaveListOfFollowers(lists: seq<seq<int>>) returns (file: string)
    ensures file == PrintFollowers(lists)
  {
    file := PrintNat(|lists|) + ".";
    for i := 0 to |lists|
      invariant file + PrintLists(lists[i..]) == PrintFollowers(lists)
    {
      assert lists[i..][1..] == lists[i + 1..];
      Assoc(file, PrintList(lists[i]), PrintLists(lists[i + 1..]), "");
      file := SaveFollowersOf(lists[i], file);
    }
    assert file + "" == file;
  }

  lemma PrependIdsTwice(a: seq<int>, b: seq<int>, r: Option<(seq<int>, string)>)
    ensures PrependIds(a, PrependIds(b, r)) == PrependIds(a + b, r)
    ensures PrependIds([], r) == r
  {
    if r.Some? {
      assert a + (b + r.value.0) == (a + b) + r.value.0 && [] + r.value.0 == r.value.0;
    }
  }

  method LoadFollowersOf(field: IntReader, n: int, text: string) returns (r: Option<(seq<int>, string)>)
    ensures r == ReadIds(field, n, text)
  {
    var ids: seq<int>, s, j := [], text, 0;
    PrependIdsTwice([], [], ReadIds(field, n, text));
    while j < n
      invariant ReadIds(field, n, text) == PrependIds(ids, ReadIds(field, n - j, s))
    {
      var id := field(s);
      if id == None {
        return None;
      }
      PrependIdsTwice(ids, [id.value.0], ReadIds(field, n - j - 1, id.value.1));
      ids := ids + [id.value.0];
      s := id.value.1;
      j := j + 1;
    }
    assert ids + [] == ids;
    return Some((ids, s));
  }

  method LoadLists(field: IntReader, numUsers: int, text: string) returns (lists: Option<seq<seq<int>>>)
    ensures lists == ReadLists(field, numUsers, text)
  {
    var loaded: seq<seq<int>>, s, i := [], text, 0;
    PrependNil(ReadLists(field, numUsers, text));
    while i < numUsers
      invariant ReadLists(field, numUsers, text) == Prepend(loaded, ReadLists(field, numUsers - i, s))
    {
      var count := field(s);
      if count == None {
        return None;
      }
      var row := LoadFollowersOf(field, count.value.0, count.value.1);
      if row == None {
        return None;
      }
      PrependTwice(loaded, [row.value.0], ReadLists(field, numUsers - i - 1, row.value.1));
      loaded := loaded + [row.value.0];
      s := row.value.1;
      i := i + 1;
    }
    assert loaded + [] == loaded;
    return Some(loaded);
  }

  method LoadListOfFollowers(text: string) returns (lists: Option<seq<seq<int>>>)
    ensures lists == ReadFollowers(text)
  {
    var header := ReadIntField(text);
    if header == None {
      return None;
    }
    lists := LoadLists(ReadIntField, header.value.0, header.value.1);
  }

  // ----- listOfUsers.txt

  function PrintUsers(users: seq<User>): string {
    if users == [] then "" else PrintUser(users[0]) + PrintUsers(users[1..])
  }

  lemma ReadUserShrinks(s: string, junk: nat)
    ensures ReadUser(s, junk).Whole? ==> |ReadUser(s, junk).rest| < |s|
  {
  }

  /** The loop runs until a read has hit the end of the file. None: it never ends. */
  function ReadUsers(text: string, junk: nat): Option<seq<User>>
    decreases |text|
  {
    match ReadUser(text, junk)
    case Never => None
    case CutShort(u) => Some([u])
    case Whole(u, rest) =>
      ReadUserShrinks(text, junk);
      Prepend([u], ReadUsers(rest, junk))
  }

  lemma PrependSame<T>(x: T, r: Option<seq<T>>, back: seq<T>)
    ensures Prepend([x], r) == Some([x] + back) <==> r == Some(back)
  {
    if r.Some? {
      assert ([x] + r.value)[1..] == r.value && ([x] + back)[1..] == back;
    }
  }

  lemma PrependOther<T>(x: T, y: T, r: Option<seq<T>>, back: seq<T>)
    requires x != y
    ensures Prepend([x], r) != Some([y] + back)
  {
    if r.Some? {
      assert ([x] + r.value)[0] == x && ([y] + back)[0] == y;
    }
  }

  lemma {:induction false} PrintUsersParts(users: seq<User>, tail: string)
    requires users != []
    ensures PrintUsers(users) + tail == PrintUser(users[0]) + (PrintUsers(users[1..]) + tail)
  {
  }

  /** Readable users at the front of a file are read, and then the rest of it. */
  lemma {:induction false} ReadUsersBehind(users: seq<User>, tail: string, junk: nat)
    requires forall u :: u in users ==> UserInRange(u) && Readable(u)
    ensures ReadUsers(PrintUsers(users) + tail, junk) == Prepend(users, ReadUsers(tail, junk))
  {
    if users == [] {
      assert PrintUsers(users) + tail == tail;
      PrependNil(ReadUsers(tail, junk));
    } else {
      PrintUsersParts(users, tail);
      ReadableRoundTrip(users[0], PrintUsers(users[1..]) + tail, junk);
      ReadUsersBehind(users[1..], tail, junk);
      PrependTwice([users[0]], users[1..], ReadUsers(tail, junk));
      assert [users[0]] + users[1..] == users;
    }
  }

  lemma {:induction false} NothingLeft(junk: nat)
    ensures ReadUsers("", junk) == Some([User("", junk)])
  {
  }

  lemma {:induction false} UnreadableUsers(users: seq<User>, junk: nat)
    requires users != [] && UserInRange(users[0]) && !Readable(users[0])
    ensures ReadUsers(PrintUsers(users), junk) != Some(users + [User("", junk)])
  {
    var u, tail, back := users[0], PrintUsers(users[1..]), users[1..] + [User("", junk)];
    assert users + [User("", junk)] == [u] + back;
    UnreadableMismatch(u, tail, junk);
    assert PrintUsers(users) == PrintUser(u) + tail;
    if ReadUser(PrintUser(u) + tail, junk).Whole? {
      var first := ReadUser(PrintUser(u) + tail, junk);
      PrependOther(first.user, u, ReadUsers(first.rest, junk), back);
    }
  }

  /** Loading the saved users gives back all of them followed by one blank record, exactly when every
      name is non-empty and starts with something other than a digit. */
  lemma {:induction false} UsersFileIff(users: seq<User>, junk: nat)
    requires forall u :: u in users ==> UserInRange(u)
    ensures ReadUsers(PrintUsers(users), junk) == Some(users + [User("", junk)])
      <==> forall u :: u in users ==> Readable(u)
  {
    if users == [] {
      NothingLeft(junk);
      assert users + [User("", junk)] == [User("", junk)];
    } else if Readable(users[0]) {
      var u, tail, back := users[0], PrintUsers(users[1..]), users[1..] + [User("", junk)];
      assert users == [u] + users[1..];
      assert users + [User("", junk)] == [u] + back;
      ReadableRoundTrip(u, tail, junk);
      PrependSame(u, ReadUsers(tail, junk), back);
      UsersFileIff(users[1..], junk);
    } else {
      UnreadableUsers(users, junk);
    }
  }

  method SaveListOfUsers(users: seq<User>) returns (file: string)
    ensures file == PrintUsers(users)
  {
    file := "";
    for i := 0 to |users|
      invariant file + PrintUsers(users[i..]) == PrintUsers(users)
    {
      file := file + PrintUser(users[i]);
      assert users[i..][1..] == users[i + 1..];
    }
    assert file + "" == file;
  }

  /** The `eof` loop, as far as it ends. */
  method LoadListOfUsers(text: string, junk: nat) returns (users: Option<seq<User>>)
    ensures users == ReadUsers(text, junk)
  {
    var loaded: seq<User>, s, eof := [], text, false;
    PrependNil(ReadUsers(text, junk));
    while !eof
      invariant ReadUsers(text, junk) == if eof then Some(loaded) else Prepend(loaded, ReadUsers(s, junk))
      decreases !eof, |s|
    {
      match ReadUser(s, junk)
      case Never => return None;
      case CutShort(user) =>
        loaded, eof := loaded + [user], true;
      case Whole(user, rest) =>
        ReadUserShrinks(s, junk);
        PrependTwice(loaded, [user], ReadUsers(rest, junk));
        loaded, s := loaded + [user], rest;
    }
    return Some(loaded);
  }

  // ----- pendingTweets.txt and receivedTweets.txt: one format, two kinds of record

  datatype FileKind = PendingFile | ReceivedFile

  datatype Record = OfRef(ref: Ref) | OfTweet(tweet: Tweet)

  type Records = seq<Record>

  predicate IsKind(kind: FileKind, x: Record) {
    kind.PendingFile? == x.OfRef?
  }

  function PrintRecord(x: Record): string {
    match x
    case OfRef(r) => PrintPending(r)
    case OfTweet(t) => PrintTweet(t)
  }

  function ReadRecord(kind: FileKind, s: string): Option<(Record, string)> {
    match kind
    case PendingFile =>
      (match ReadPending(s)
       case None => None
       case Some((r, rest)) => Some((OfRef(r), rest)))
    case ReceivedFile =>
      (match ReadTweet(s)
       case None => None
       case Some((t, rest)) => Some((OfTweet(t), rest)))
  }

  /** The number a record starts with. */
  function Lead(x: Record): nat {
    match x
    case OfRef(r) => r.id
    case OfTweet(t) => t.author
  }

  predicate RecordInRange(x: Record) {
    match x
    case OfRef(r) => r.id < U64 && r.user < U32
    case OfTweet(t) => TweetInRange(t)
  }

  lemma RecordRoundTrip(kind: FileKind, x: Record, rest: string)
    requires IsKind(kind, x) && RecordInRange(x)
    ensures ReadRecord(kind, PrintRecord(x) + rest) == Some((x, rest))
  {
    match x
    case OfRef(r) => PendingRoundTrip(r, rest);
    case OfTweet(t) => TweetRoundTrip(t, rest);
  }

  /** A record, then `more`, without its leading number. */
  function BehindLead(x: Record, more: string): string {
    match x
    case OfRef(r) => PrintNat(r.user) + "." + more
    case OfTweet(t) => PrintNat(t.id) + ("." + (PrintNat(t.timestamp) + ("." + PrintTweetTail(t, more))))
  }

  lemma PrintRecordParts(x: Record, more: string)
    ensures PrintRecord(x) + more == PrintNat(Lead(x)) + (['.'] + BehindLead(x, more))
  {
    match x
    case OfRef(r) =>
    case OfTweet(t) => PrintTweetParts(t, more);
  }

  lemma {:induction false} FirstDigitCounts(s: string)
    requires AllDigits(s) && s != "" && s[0] != '0'
    ensures AllDigits(s[1..]) && NatOf(s[1..]) < NatOf(s)
  {
    var init := s[..|s| - 1];
    if |s| == 1 {
      assert init == "" && s[1..] == "";
    } else {
      FirstDigitCounts(init);
      assert s[1..][..|s| - 2] == init[1..];
    }
  }

  lemma {:induction false} PrintFirst(n: nat)
    requires n > 0
    ensures PrintNat(n)[0] != '0'
  {
    if n >= 10 {
      PrintFirst(n / 10);
    }
  }

  /** The text of a number behind its first digit: nothing, or a smaller number. */
  lemma {:induction false} BehindFirstDigit(n: nat, sep: char, rest: string)
    requires !Digit(sep) && !Space(sep) && sep != '-' && sep != '+'
    ensures var text := PrintNat(n)[1..] + ([sep] + rest);
      && text != "" && SkipSpace(text) == text && !Signed(text)
      && (ReadMagnitude(text) == None || exists m :: m < n && ReadMagnitude(text) == Some((m, [sep] + rest)))
      && (ReadMagnitude(text) == None ==> DigitCount(text) == 0)
  {
    var d, tail := PrintNat(n)[1..], [sep] + rest;
    assert tail[0] == sep;
    if n < 10 {
      assert d == "";
      assert d + tail == tail;
    } else {
      PrintFirst(n);
      FirstDigitCounts(PrintNat(n));
      NatOfPrint(n);
      DigitCountOf(d, tail);
      assert (d + tail)[..|d|] == d && (d + tail)[|d|..] == tail;
      assert |d| > 0 ==> (d + tail)[0] == d[0];
      assert |d| == 0 ==> d + tail == tail;
    }
  }

  lemma PendingBehindFirstDigit(r: Ref, more: string)
    ensures var back := ReadPending(PrintNat(r.id)[1..] + (['.'] + BehindLead(OfRef(r), more)));
      back.Some? ==> back.value.0.id != r.id
  {
    BehindFirstDigit(r.id, '.', BehindLead(OfRef(r), more));
  }

  lemma {:induction false} FieldBehindFirstDigit(n: nat, rest: string)
    ensures var back := ReadField(PrintNat(n)[1..] + (['.'] + rest), U32);
      back.Some? ==> back.value.0 != n
  {
    BehindFirstDigit(n, '.', rest);
  }

  lemma TweetBehindFirstDigit(t: Tweet, more: string)
    ensures var back := ReadTweet(PrintNat(t.author)[1..] + (['.'] + BehindLead(OfTweet(t), more)));
      back.Some? ==> back.value.0.author != t.author
  {
    FieldBehindFirstDigit(t.author, BehindLead(OfTweet(t), more));
  }

  // ----- files, for any way of reading one record

  type Reader = string -> Option<(Record, string)>

  function ReaderOf(kind: FileKind): Reader {
    s => ReadRecord(kind, s)
  }

  /** The record reads back, and is not read as itself once its first digit is gone. */
  ghost predicate Reads(read: Reader, x: Record) {
    && (forall rest :: read(PrintRecord(x) + rest) == Some((x, rest)))
    && (forall more :: var back := read(PrintNat(Lead(x))[1..] + (['.'] + BehindLead(x, more)));
          back.Some? ==> back.value.0 != x)
  }

  lemma ReaderReads(kind: FileKind, x: Record)
    requires IsKind(kind, x) && RecordInRange(x)
    ensures Reads(ReaderOf(kind), x)
  {
    forall rest {
      RecordRoundTrip(kind, x, rest);
    }
    forall more
      ensures var back := ReaderOf(kind)(PrintNat(Lead(x))[1..] + (['.'] + BehindLead(x, more)));
        back.Some? ==> back.value.0 != x
    {
      match x
      case OfRef(r) => PendingBehindFirstDigit(r, more);
      case OfTweet(t) => TweetBehindFirstDigit(t, more);
    }
  }

  function PrintRecords(records: Records): string {
    if records == [] then "" else PrintRecord(records[0]) + ("\n" + PrintRecords(records[1..]))
  }

  function PrintRow(records: Records): string {
    PrintNat(|records|) + ("/" + PrintRecords(records))
  }

  function PrintRows(rows: seq<Records>): string {
    if rows == [] then "" else PrintRow(rows[0]) + PrintRows(rows[1..])
  }

  function PrintRowsFile(rows: seq<Records>): string {
    PrintNat(|rows|) + ("." + PrintRows(rows))
  }

  /** A stream that still reads, or one in the fail state, from which nothing is read any more. */
  datatype Stream = Open(text: string) | Failed

  /** `is >> c`; the value of the character is not used. */
  function SkipChar(s: Stream): Stream {
    match s
    case Failed => Failed
    case Open(text) =>
      match ReadChar(text)
      case None => Failed
      case Some((_, rest)) => Open(rest)
  }

  /** `is >> n` into an `int` that has no value yet. Where no digits follow, `n` becomes 0 and the
      stream fails. None: `n` keeps no value, or is out of range. */
  function ReadCount(s: Stream): Option<(int, Stream)> {
    match s
    case Failed => None
    case Open(text) =>
      match ReadInt(text)
      case Some((n, rest)) => Some((n, Open(rest)))
      case None =>
        var t := SkipSpace(text);
        if t != "" && DigitCount(if Signed(t) then t[1..] else t) == 0 then Some((0, Failed)) else None
  }

  /** Where there is no number, a count is 0 and nothing is read from then on. */
  lemma {:induction false} MissingCount(c: char, rest: string)
    requires !Digit(c) && !Space(c) && c != '-' && c != '+'
    ensures ReadCount(Open([c] + rest)) == Some((0, Failed))
  {
    assert ([c] + rest)[0] == c;
  }

  function ReadRecords(read: Reader, n: int, s: Stream): Option<(Records, Stream)>
    decreases n
  {
    if n <= 0 then Some(([], s))
    else if s == Failed || read(s.text) == None then None
    else
      var (x, rest) := read(s.text).value;
      match ReadRecords(read, n - 1, SkipChar(Open(rest)))
      case None => None
      case Some((records, s')) => Some(([x] + records, s'))
  }

  function ReadRows(read: Reader, n: int, s: Stream): Option<seq<Records>>
    decreases n
  {
    if n <= 0 then Some([])
    else match ReadCount(s)
      case None => None
      case Some((k, s1)) =>
        match ReadRecords(read, k, SkipChar(s1))
        case None => None
        case Some((records, s2)) => Prepend([records], ReadRows(read, n - 1, s2))
  }

  function ReadRowsFile(read: Reader, text: string): Option<seq<Records>> {
    match ReadCount(Open(text))
    case None => None
    case Some((n, s)) => ReadRows(read, n, SkipChar(s))
  }

  // ----- what the eaten digit does

  ghost predicate RecordsInRange(read: Reader, records: Records) {
    IntRange(|records|) && forall x :: x in records ==> Reads(read, x)
  }

  ghost predicate RowsInRange(read: Reader, rows: seq<Records>) {
    IntRange(|rows|) && forall records :: records in rows ==> RecordsInRange(read, records)
  }

  lemma {:induction false} CountAndSeparator(k: nat, sep: char, rest: string)
    requires IntRange(k) && !Digit(sep) && !Space(sep)
    ensures ReadCount(Open(PrintNat(k) + ([sep] + rest))) == Some((k, Open([sep] + rest)))
    ensures SkipChar(Open([sep] + rest)) == Open(rest)
  {
    assert PrintInt(k) == PrintNat(k);
    ReadIntOfPrint(k, [sep] + rest);
    assert ([sep] + rest)[0] == sep && ([sep] + rest)[1..] == rest;
  }

  /** The separator read after a record skips the line break and takes the next character instead. */
  lemma SeparatorEatsDigit(rest: string)
    requires rest == "" || Digit(rest[0])
    ensures SkipChar(Open("\n" + rest)) == if rest == "" then Failed else Open(rest[1..])
  {
    assert ("\n" + rest)[0] == '\n' && ("\n" + rest)[1..] == rest;
    assert SkipSpace(rest) == rest;
    assert SkipSpace("\n" + rest) == rest;
  }

  lemma {:induction false} PrintRecordsFirst(records: Records, tail: string)
    requires records != []
    ensures PrintRecords(records) + tail == PrintRecord(records[0]) + ("\n" + (PrintRecords(records[1..]) + tail))
  {
    Assoc(PrintRecord(records[0]), "\n", PrintRecords(records[1..]), tail);
  }

  lemma {:induction false} PrintRecordsParts(records: Records, tail: string)
    requires records != []
    ensures PrintRecords(records) + tail
         == PrintNat(Lead(records[0])) + (['.'] + BehindLead(records[0], "\n" + (PrintRecords(records[1..]) + tail)))
  {
    var more := "\n" + (PrintRecords(records[1..]) + tail);
    PrintRecordsFirst(records, tail);
    PrintRecordParts(records[0], more);
  }

  lemma {:induction false} PrintRowsParts(q: seq<Records>)
    requires q != []
    ensures PrintRows(q) == PrintNat(|q[0]|) + (['/'] + (PrintRecords(q[0]) + PrintRows(q[1..])))
  {
  }

  lemma {:induction false} WithoutFirst(n: nat, tail: string)
    ensures (PrintNat(n) + tail)[0] == PrintNat(n)[0] && (PrintNat(n) + tail)[1..] == PrintNat(n)[1..] + tail
  {
  }

  /** A record whose first digit was eaten does not come back. */
  lemma {:induction false} NextRecordIsLost(read: Reader, records: Records, tail: string, n: int)
    requires records != [] && Reads(read, records[0]) && n >= 1
    ensures var r := ReadRecords(read, n, Open((PrintRecords(records) + tail)[1..]));
      r.Some? ==> |r.value.0| > 0 && r.value.0[0] != records[0]
  {
    var x, more := records[0], "\n" + (PrintRecords(records[1..]) + tail);
    PrintRecordsParts(records, tail);
    WithoutFirst(Lead(x), ['.'] + BehindLead(x, more));
  }

  lemma {:induction false} ReadRecordsLength(read: Reader, n: int, s: Stream)
    ensures ReadRecords(read, n, s).Some? ==> |ReadRecords(read, n, s).value.0| == if n <= 0 then 0 else n
    decreases n
  {
    if n > 0 && s.Open? && read(s.text).Some? {
      ReadRecordsLength(read, n - 1, SkipChar(Open(read(s.text).value.1)));
    }
  }

  /** A count whose first digit was eaten reads as nothing, or as a smaller one. */
  lemma {:induction false} CountBehindFirstDigit(k: nat, rest: string)
    requires IntRange(k)
    ensures var count := ReadCount(Open(PrintNat(k)[1..] + (['/'] + rest)));
      count == Some((0, Failed)) || (count.Some? && 0 <= count.value.0 < k)
  {
    BehindFirstDigit(k, '/', rest);
  }

  /** Reading on behind such a count. */
  lemma {:induction false} WrongCount(read: Reader, text: string, m: int, s: Stream, q: seq<Records>)
    requires q != [] && ReadCount(Open(text)) == Some((m, s)) && m != |q[0]|
    requires m >= 0
    ensures ReadRows(read, |q|, Open(text)) != Some(q)
  {
    var records := ReadRecords(read, m, SkipChar(s));
    ReadRecordsLength(read, m, SkipChar(s));
    if records.Some? {
      assert [q[0]] + q[1..] == q;
      PrependOther(records.value.0, q[0], ReadRows(read, |q| - 1, records.value.1), q[1..]);
    }
  }

  lemma {:induction false} NoCount(read: Reader, text: string, q: seq<Records>)
    requires q != [] && q[0] == [] && ReadCount(Open(text)) == Some((0, Failed))
    ensures ReadRows(read, |q|, Open(text)) == Some(q) <==> |q| == 1
  {
    assert [q[0]] + q[1..] == q;
    assert ReadRows(read, |q|, Open(text)) == Prepend([[]], ReadRows(read, |q| - 1, Failed));
  }

  /** A row whose count lost its first digit comes back only if it was empty and the last one. */
  lemma {:induction false} NextCountIsLost(read: Reader, q: seq<Records>)
    requires q != [] && IntRange(|q[0]|)
    ensures ReadRows(read, |q|, Open(PrintRows(q)[1..])) == Some(q) <==> |q| == 1 && q[0] == []
  {
    var k, rest := |q[0]|, PrintRecords(q[0]) + PrintRows(q[1..]);
    PrintRowsParts(q);
    WithoutFirst(k, ['/'] + rest);
    CountBehindFirstDigit(k, rest);
    var (m, s) := ReadCount(Open(PrintRows(q)[1..])).value;
    if m != k {
      WrongCount(read, PrintRows(q)[1..], m, s, q);
    } else {
      NoCount(read, PrintRows(q)[1..], q);
    }
  }

  /** Empty rows, then at most one record with nothing but an empty row after it. */
  predicate LoadsBack(q: seq<Records>) {
    q != [] ==>
      if q[0] == [] then LoadsBack(q[1..])
      else |q[0]| == 1 && (|q| == 1 || (|q| == 2 && q[1] == []))
  }

  lemma {:induction false} EmptyRowReads(read: Reader, q: seq<Records>)
    requires q != [] && q[0] == []
    ensures ReadRows(read, |q|, Open(PrintRows(q))) == Prepend([[]], ReadRows(read, |q| - 1, Open(PrintRows(q[1..]))))
  {
    PrintRowsParts(q);
    CountAndSeparator(0, '/', PrintRows(q[1..]));
    assert PrintRecords([]) + PrintRows(q[1..]) == PrintRows(q[1..]);
  }

  lemma OtherSecond(records: Records, back: Records)
    requires |records| > 1 && |back| > 0 && back[0] != records[1]
    ensures [records[0]] + back != records
  {
    assert ([records[0]] + back)[1] == back[0];
  }

  /** All that is printed behind the first record. */
  function BehindFirst(q: seq<Records>): string
    requires q != [] && q[0] != []
  {
    PrintRecords(q[0][1..]) + PrintRows(q[1..])
  }

  function PrependRecord(x: Record, result: Option<(Records, Stream)>): Option<(Records, Stream)> {
    match result
    case None => None
    case Some((records, s)) => Some(([x] + records, s))
  }

  /** The loader behind the first record of a row that has `k` more, with `n` rows to go. */
  function ReadOn(read: Reader, x: Record, k: int, n: int, s: Stream): Option<seq<Records>> {
    match PrependRecord(x, ReadRecords(read, k, s))
    case None => None
    case Some((records, s')) => Prepend([records], ReadRows(read, n, s'))
  }

  lemma SeveralRecordsAreLost(read: Reader, q: seq<Records>)
    requires RowsInRange(read, q) && q != [] && |q[0]| > 1
    ensures ReadOn(read, q[0][0], |q[0]| - 1, |q| - 1, Open(BehindFirst(q)[1..])) != Some(q)
  {
    var back := ReadRecords(read, |q[0]| - 1, Open(BehindFirst(q)[1..]));
    assert q[0] in q && q[0][1] in q[0];
    NextRecordIsLost(read, q[0][1..], PrintRows(q[1..]), |q[0]| - 1);
    if back.Some? {
      OtherSecond(q[0], back.value.0);
      PrependOther([q[0][0]] + back.value.0, q[0], ReadRows(read, |q| - 1, back.value.1), q[1..]);
      assert [q[0]] + q[1..] == q;
    }
  }

  lemma {:induction false} MoreStartsWithDigit(records: Records, q: seq<Records>)
    ensures var more := PrintRecords(records) + PrintRows(q);
      (more == "" <==> records == [] && q == []) && (more != "" ==> Digit(more[0]))
  {
    if records != [] {
      PrintRecordsParts(records, PrintRows(q));
    } else if q != [] {
      PrintRowsParts(q);
      assert PrintRecords(records) + PrintRows(q) == PrintRows(q);
    }
  }

  lemma {:induction false} OneRecordLoadsIff(read: Reader, q: seq<Records>)
    requires RowsInRange(read, q) && q != [] && |q[0]| == 1
    ensures var more := BehindFirst(q);
      ReadOn(read, q[0][0], 0, |q| - 1, if more == "" then Failed else Open(more[1..])) == Some(q) <==> LoadsBack(q)
  {
    var records, more := q[0], BehindFirst(q);
    var s := if more == "" then Failed else Open(more[1..]);
    assert records[1..] == [] && more == PrintRows(q[1..]) && [records[0]] + [] == records;
    MoreStartsWithDigit([], q[1..]);
    assert "" + PrintRows(q[1..]) == PrintRows(q[1..]);
    assert [records] + q[1..] == q;
    PrependSame(records, ReadRows(read, |q| - 1, s), q[1..]);
    if |q| > 1 {
      assert q[1] in q;
      NextCountIsLost(read, q[1..]);
    }
  }

  lemma {:induction false} CountReads(read: Reader, q: seq<Records>)
    requires RowsInRange(read, q) && q != []
    ensures var r := ReadRecords(read, |q[0]|, Open(PrintRecords(q[0]) + PrintRows(q[1..])));
      ReadRows(read, |q|, Open(PrintRows(q)))
      == if r == None then None else Prepend([r.value.0], ReadRows(read, |q| - 1, r.value.1))
  {
    assert q[0] in q;
    PrintRowsParts(q);
    CountAndSeparator(|q[0]|, '/', PrintRecords(q[0]) + PrintRows(q[1..]));
  }

  lemma {:induction false} ReadOne(read: Reader, n: int, text: string, x: Record, rest: string)
    requires n >= 1 && read(text) == Some((x, rest))
    ensures ReadRecords(read, n, Open(text)) == PrependRecord(x, ReadRecords(read, n - 1, SkipChar(Open(rest))))
  {
  }

  lemma ReadsBack(read: Reader, x: Record, rest: string)
    requires Reads(read, x)
    ensures read(PrintRecord(x) + rest) == Some((x, rest))
  {
  }

  lemma {:induction false} RecordReads(read: Reader, records: Records, tail: string)
    requires RecordsInRange(read, records) && records != []
    ensures ReadRecords(read, |records|, Open(PrintRecords(records) + tail))
         == PrependRecord(records[0],
              ReadRecords(read, |records| - 1, SkipChar(Open("\n" + (PrintRecords(records[1..]) + tail)))))
  {
    var x, rest := records[0], "\n" + (PrintRecords(records[1..]) + tail);
    assert x in records;
    PrintRecordsFirst(records, tail);
    ReadsBack(read, x, rest);
    ReadOne(read, |records|, PrintRecords(records) + tail, x, rest);
  }

  lemma {:induction false} FirstRecordReads(read: Reader, q: seq<Records>)
    requires RowsInRange(read, q) && q != [] && q[0] != []
    ensures var more := BehindFirst(q);
      ReadRows(read, |q|, Open(PrintRows(q)))
      == ReadOn(read, q[0][0], |q[0]| - 1, |q| - 1, if more == "" then Failed else Open(more[1..]))
  {
    assert q[0] in q;
    CountReads(read, q);
    RecordReads(read, q[0], PrintRows(q[1..]));
    MoreStartsWithDigit(q[0][1..], q[1..]);
    SeparatorEatsDigit(BehindFirst(q));
  }

  lemma {:induction false} RowWithRecords(read: Reader, q: seq<Records>)
    requires RowsInRange(read, q) && q != [] && q[0] != []
    ensures ReadRows(read, |q|, Open(PrintRows(q))) == Some(q) <==> LoadsBack(q)
  {
    FirstRecordReads(read, q);
    if |q[0]| > 1 {
      MoreStartsWithDigit(q[0][1..], q[1..]);
      SeveralRecordsAreLost(read, q);
    } else {
      OneRecordLoadsIff(read, q);
    }
  }

  /** A list comes back behind a row that does. */
  lemma {:induction false} RowsLoadBehind(read: Reader, q: seq<Records>)
    requires q != [] && q[0] == []
    ensures ReadRows(read, |q|, Open(PrintRows(q))) == Some(q)
      <==> ReadRows(read, |q| - 1, Open(PrintRows(q[1..]))) == Some(q[1..])
  {
    EmptyRowReads(read, q);
    PrependSame([], ReadRows(read, |q| - 1, Open(PrintRows(q[1..]))), q[1..]);
    assert [q[0]] + q[1..] == q;
  }

  lemma {:induction false} RowsLoadIff(read: Reader, q: seq<Records>)
    requires RowsInRange(read, q)
    ensures ReadRows(read, |q|, Open(PrintRows(q))) == Some(q) <==> LoadsBack(q)
  {
    if q != [] {
      if q[0] == [] {
        RowsLoadIff(read, q[1..]);
        RowsLoadBehind(read, q);
      } else {
        RowWithRecords(read, q);
      }
    }
  }

  /** At most one record in the whole file, and it is one of the last two users'. */
  predicate OnlyNearTheEnd(p: seq<Records>) {
    forall u :: 0 <= u < |p| && p[u] != [] ==>
      |p[u]| == 1 && u + 2 >= |p| && forall v :: 0 <= v < |p| && v != u ==> p[v] == []
  }

  lemma {:induction false} LoadsBackMeans(p: seq<Records>)
    ensures LoadsBack(p) <==> OnlyNearTheEnd(p)
  {
    if p != [] {
      LoadsBackMeans(p[1..]);
      if p[0] == [] {
        assert OnlyNearTheEnd(p) <==> OnlyNearTheEnd(p[1..]) by {
          forall u | 0 < u < |p|
            ensures p[u] == p[1..][u - 1]
          {
          }
        }
      }
    }
  }

  predicate InRange(kind: FileKind, rows: seq<Records>) {
    && IntRange(|rows|)
    && forall records :: records in rows ==>
         IntRange(|records|) && forall x :: x in records ==> IsKind(kind, x) && RecordInRange(x)
  }

  /** Loading the saved pending or received lists gives them back exactly when the file holds at most
      one record and it belongs to one of the last two users: after every record the loader takes the
      first digit of whatever comes next. */
  lemma RowsFileRoundTripIff(kind: FileKind, rows: seq<Records>)
    requires InRange(kind, rows)
    ensures ReadRowsFile(ReaderOf(kind), PrintRowsFile(rows)) == Some(rows) <==> OnlyNearTheEnd(rows)
  {
    forall records, x | records in rows && x in records {
      ReaderReads(kind, x);
    }
    CountAndSeparator(|rows|, '.', PrintRows(rows));
    RowsLoadIff(ReaderOf(kind), rows);
    LoadsBackMeans(rows);
  }

  // ----- saving and loading these files

  /** The file once record `j` is written. */
  lemma RecordWritten(records: Records, j: nat, file: string)
    requires j < |records|
    ensures file + PrintRecords(records[j..])
         == (file + (PrintRecord(records[j]) + "\n")) + PrintRecords(records[j + 1..])
  {
    var line, tail := PrintRecord(records[j]), PrintRecords(records[j + 1..]);
    assert records[j..][1..] == records[j + 1..];
    assert line + ("\n" + tail) == (line + "\n") + tail;
    Assoc(file, line + "\n", tail, "");
  }

  method SaveRecords(records: Records, file: string) returns (file': string)
    ensures file' == file + PrintRow(records)
  {
    file' := file + (PrintNat(|records|) + "/");
    for j := 0 to |records|
      invariant file' + PrintRecords(records[j..]) == file + PrintRow(records)
    {
      RecordWritten(records, j, file');
      file' := file' + (PrintRecord(records[j]) + "\n");
    }
    assert file' + "" == file';
  }

  /** `saveListOfPendingTweets` and `saveListOfReceivedTweets`. */
  method SaveRows(rows: seq<Records>) returns (file: string)
    ensures file == PrintRowsFile(rows)
  {
    file := PrintNat(|rows|) + ".";
    for i := 0 to |rows|
      invariant file + PrintRows(rows[i..]) == PrintRowsFile(rows)
    {
      assert rows[i..][1..] == rows[i + 1..];
      Assoc(file, PrintRow(rows[i]), PrintRows(rows[i + 1..]), "");
      file := SaveRecords(rows[i], file);
    }
    assert file + "" == file;
  }

  function PrependRecords(front: Records, result: Option<(Records, Stream)>): Option<(Records, Stream)> {
    match result
    case None => None
    case Some((records, s)) => Some((front + records, s))
  }

  lemma PrependRecordsTwice(a: Records, b: Records, r: Option<(Records, Stream)>)
    ensures PrependRecords(a, PrependRecords(b, r)) == PrependRecords(a + b, r)
    ensures PrependRecords([], r) == r
  {
    if r.Some? {
      assert a + (b + r.value.0) == (a + b) + r.value.0 && [] + r.value.0 == r.value.0;
    }
  }

  method LoadRecords(read: Reader, n: int, start: Stream) returns (r: Option<(Records, Stream)>)
    ensures r == ReadRecords(read, n, start)
  {
    var records: Records, s, j := [], start, 0;
    PrependRecordsTwice([], [], ReadRecords(read, n, start));
    while j < n
      invariant ReadRecords(read, n, start) == PrependRecords(records, ReadRecords(read, n - j, s))
    {
      if s == Failed {
        return None;
      }
      var back := read(s.text);
      if back == None {
        return None;
      }
      var (x, rest) := back.value;
      PrependRecordsTwice(records, [x], ReadRecords(read, n - j - 1, SkipChar(Open(rest))));
      records := records + [x];
      s := SkipChar(Open(rest));
      j := j + 1;
    }
    assert records + [] == records;
    return Some((records, s));
  }

  /** `loadListOfPendingTweets` and `loadListOfReceivedTweets`. */
  method LoadRows(read: Reader, text: string) returns (rows: Option<seq<Records>>)
    ensures rows == ReadRowsFile(read, text)
  {
    var header := ReadCount(Open(text));
    if header == None {
      return None;
    }
    var (numUsers, s0) := header.value;
    var loaded: seq<Records>, i, s := [], 0, SkipChar(s0);
    PrependNil(ReadRows(read, numUsers, s));
    while i < numUsers
      invariant ReadRowsFile(read, text) == Prepend(loaded, ReadRows(read, numUsers - i, s))
    {
      var count := ReadCount(s);
      if count == None {
        return None;
      }
      var row := LoadRecords(read, count.value.0, SkipChar(count.value.1));
      if row == None {
        return None;
      }
      PrependTwice(loaded, [row.value.0], ReadRows(read, numUsers - i - 1, row.value.1));
      loaded := loaded + [row.value.0];
      s := row.value.1;
      i := i + 1;
    }
    assert loaded + [] == loaded;
    return Some(loaded);
  }
}
