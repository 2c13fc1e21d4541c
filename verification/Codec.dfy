/** Formatted stream output and extraction as the server uses them, and the three record codecs built
    from them. A character stands for a byte. */
module Codec {
  import opened Mailbox

  const U32 := 0x1_0000_0000
  const U64 := 0x1_0000_0000_0000_0000

  // ----- decimal numbers

  predicate Digit(c: char) {
    '0' <= c <= '9'
  }

  predicate Space(c: char) {
    c == ' ' || '\t' <= c <= '\r'
  }

  function DigitChar(d: nat): char
    requires d < 10
  {
    '0' + d as char
  }

  function DigitValue(c: char): nat
    requires Digit(c)
  {
    (c - '0') as nat
  }

  predicate AllDigits(s: string) {
    forall i :: 0 <= i < |s| ==> Digit(s[i])
  }

  /** `os << n` */
  function PrintNat(n: nat): (s: string)
    ensures |s| > 0 && AllDigits(s)
  {
    if n < 10 then [DigitChar(n)] else PrintNat(n / 10) + [DigitChar(n % 10)]
  }

  function PrintInt(n: int): string {
    if n < 0 then "-" + PrintNat(-n) else PrintNat(n)
  }

  function NatOf(s: string): nat
    requires AllDigits(s)
  {
    if s == "" then 0 else 10 * NatOf(s[..|s| - 1]) + DigitValue(s[|s| - 1])
  }

  lemma {:induction false} NatOfPrint(n: nat)
    ensures NatOf(PrintNat(n)) == n
  {
    var s := PrintNat(n);
    if n < 10 {
      assert s[..0] == "";
    } else {
      assert s[..|s| - 1] == PrintNat(n / 10);
      NatOfPrint(n / 10);
    }
  }

  /** Appending digits to a number multiplies it by ten at least. */
  lemma {:induction false} NatOfLonger(a: string, b: string)
    requires AllDigits(a) && AllDigits(b) && b != ""
    ensures AllDigits(a + b) && NatOf(a + b) >= 10 * NatOf(a)
  {
    var init := b[..|b| - 1];
    assert (a + b)[..|a + b| - 1] == a + init;
    if init == "" {
      assert a + init == a;
    } else {
      NatOfLonger(a, init);
    }
  }

  // ----- extraction

  function SkipSpace(s: string): (r: string)
    ensures |r| <= |s|
  {
    if s != "" && Space(s[0]) then SkipSpace(s[1..]) else s
  }

  /** White space in the C locale: space, tab, line feed, vertical tab, form feed and carriage return. */
  lemma SpaceCharacters(c: char)
    ensures Space(c) <==> c in {' ', '\t', '\n', '\U{000B}', '\U{000C}', '\r'}
  {
  }

  /** How many digits the text starts with. */
  function DigitCount(s: string): (n: nat)
    ensures n <= |s| && AllDigits(s[..n])
    ensures n < |s| ==> !Digit(s[n])
  {
    if s != "" && Digit(s[0]) then 1 + DigitCount(s[1..]) else 0
  }

  lemma {:induction false} DigitCountOf(a: string, b: string)
    requires AllDigits(a)
    ensures DigitCount(a + b) == |a| + DigitCount(b)
  {
    if a == "" {
      assert a + b == b;
    } else {
      assert (a + b)[1..] == a[1..] + b;
      DigitCountOf(a[1..], b);
    }
  }

  predicate Signed(s: string) {
    s != "" && (s[0] == '-' || s[0] == '+')
  }

  /** The magnitude after an optional sign. */
  function ReadMagnitude(s: string): Option<(nat, string)> {
    var n := DigitCount(s);
    if n == 0 then None else Some((NatOf(s[..n]), s[n..]))
  }

  /** `is >> x` for an unsigned type with `bound` values: a minus sign negates modulo `bound`. */
  function ReadUnsigned(text: string, bound: nat): Option<(nat, string)>
    requires bound > 0
  {
    var s := SkipSpace(text);
    match ReadMagnitude(if Signed(s) then s[1..] else s)
    case None => None
    case Some((v, rest)) =>
      if v >= bound then None
      else if s[0] == '-' && v > 0 then Some((bound - v, rest))
      else Some((v, rest))
  }

  /** `is >> x` for a 32-bit `int`. */
  function ReadInt(text: string): Option<(int, string)> {
    var s := SkipSpace(text);
    match ReadMagnitude(if Signed(s) then s[1..] else s)
    case None => None
    case Some((v, rest)) =>
      var x: int := if s[0] == '-' then -(v as int) else v;
      if -0x8000_0000 <= x < 0x8000_0000 then Some((x, rest)) else None
  }

  /** `is >> c` */
  function ReadChar(text: string): Option<(char, string)> {
    var s := SkipSpace(text);
    if s == "" then None else Some((s[0], s[1..]))
  }

  /** `is.read(buffer, n)` */
  function ReadRaw(s: string, n: nat): Option<(string, string)> {
    if |s| < n then None else Some((s[..n], s[n..]))
  }

  predicate NoDigitFirst(s: string) {
    s == "" || !Digit(s[0])
  }

  lemma {:induction false} ReadMagnitudeOfPrint(n: nat, rest: string)
    requires NoDigitFirst(rest)
    ensures ReadMagnitude(PrintNat(n) + rest) == Some((n, rest))
  {
    DigitCountOf(PrintNat(n), rest);
    NatOfPrint(n);
    assert (PrintNat(n) + rest)[..|PrintNat(n)|] == PrintNat(n);
    assert (PrintNat(n) + rest)[|PrintNat(n)|..] == rest;
  }

  lemma {:induction false} PrintStarts(n: nat, rest: string)
    ensures Digit((PrintNat(n) + rest)[0])
    ensures SkipSpace(PrintNat(n) + rest) == PrintNat(n) + rest && !Signed(PrintNat(n) + rest)
  {
    assert (PrintNat(n) + rest)[0] == PrintNat(n)[0];
  }

  lemma {:induction false} ReadUnsignedOfPrint(n: nat, rest: string, bound: nat)
    requires NoDigitFirst(rest) && n < bound
    ensures ReadUnsigned(PrintNat(n) + rest, bound) == Some((n, rest))
  {
    PrintStarts(n, rest);
    ReadMagnitudeOfPrint(n, rest);
  }

  lemma {:induction false} ReadNegativeOfPrint(n: nat, rest: string)
    requires NoDigitFirst(rest) && 0 < n <= 0x8000_0000
    ensures ReadInt("-" + (PrintNat(n) + rest)) == Some((0 - n, rest))
  {
    var s := "-" + (PrintNat(n) + rest);
    assert s[0] == '-' && s[1..] == PrintNat(n) + rest;
    ReadMagnitudeOfPrint(n, rest);
  }

  lemma {:induction false} ReadNonNegativeOfPrint(n: nat, rest: string)
    requires NoDigitFirst(rest) && n < 0x8000_0000
    ensures ReadInt(PrintNat(n) + rest) == Some((n as int, rest))
  {
    PrintStarts(n, rest);
    ReadMagnitudeOfPrint(n, rest);
  }

  lemma ReadIntOfPrint(n: int, rest: string)
    requires NoDigitFirst(rest) && -0x8000_0000 <= n < 0x8000_0000
    ensures ReadInt(PrintInt(n) + rest) == Some((n, rest))
  {
    if n < 0 {
      assert PrintInt(n) + rest == "-" + (PrintNat(-n) + rest);
      ReadNegativeOfPrint(-n, rest);
    } else {
      assert PrintInt(n) + rest == PrintNat(n) + rest;
      ReadNonNegativeOfPrint(n, rest);
    }
  }

  /** Numbers too large for the variable are not read, and neither are those behind a sign for `int`. */
  lemma {:induction false} ReadTooLarge(n: nat, rest: string)
    requires NoDigitFirst(rest)
    ensures n >= 0x8000_0000 ==> ReadInt(PrintNat(n) + rest) == None
    ensures n > 0x8000_0000 ==> ReadInt("-" + (PrintNat(n) + rest)) == None
    ensures n >= 0x1_0000_0000 ==> ReadUnsigned(PrintNat(n) + rest, U32) == None
    ensures n >= 0x1_0000_0000_0000_0000 ==> ReadUnsigned(PrintNat(n) + rest, U64) == None
  {
    var s := "-" + (PrintNat(n) + rest);
    PrintStarts(n, rest);
    ReadMagnitudeOfPrint(n, rest);
    assert s[0] == '-' && s[1..] == PrintNat(n) + rest;
  }

  /** A sign is read too; behind a minus an unsigned number is taken modulo its range. */
  lemma {:induction false} ReadSigned(n: nat, rest: string)
    requires NoDigitFirst(rest) && 0 < n < 0x1_0000_0000
    ensures ReadUnsigned("+" + (PrintNat(n) + rest), U32) == Some((n, rest))
    ensures ReadUnsigned("-" + (PrintNat(n) + rest), U32) == Some((0x1_0000_0000 - n, rest))
  {
    var s, t := "-" + (PrintNat(n) + rest), "+" + (PrintNat(n) + rest);
    ReadMagnitudeOfPrint(n, rest);
    assert s[0] == '-' && s[1..] == PrintNat(n) + rest;
    assert t[0] == '+' && t[1..] == PrintNat(n) + rest;
  }

  /** A number, a separator, then anything. */
  function ReadField(s: string, bound: nat): Option<(nat, string)>
    requires bound > 0
  {
    match ReadUnsigned(s, bound)
    case None => None
    case Some((v, rest)) =>
      match ReadChar(rest)
      case None => None
      case Some((_, rest')) => Some((v, rest'))
  }

  lemma {:induction false} ReadFieldOfPrint(n: nat, rest: string, bound: nat)
    requires n < bound
    ensures ReadField(PrintNat(n) + ("." + rest), bound) == Some((n, rest))
  {
    assert ("." + rest)[0] == '.' && ("." + rest)[1..] == rest;
    ReadUnsignedOfPrint(n, "." + rest, bound);
  }

  // ----- pendingTweet

  function PrintPending(r: Ref): string {
    PrintNat(r.id) + "." + PrintNat(r.user) + "."
  }

  function ReadPending(s: string): Option<(Ref, string)> {
    match ReadField(s, U64)
    case None => None
    case Some((id, s1)) =>
      match ReadField(s1, U32)
      case None => None
      case Some((user, s2)) => Some((Ref(user, id), s2))
  }

  lemma PendingRoundTrip(r: Ref, rest: string)
    requires r.id < 0x1_0000_0000_0000_0000 && r.user < 0x1_0000_0000
    ensures ReadPending(PrintPending(r) + rest) == Some((r, rest))
  {
    var s1 := PrintNat(r.user) + ("." + rest);
    assert PrintPending(r) + rest == PrintNat(r.id) + ("." + s1);
    ReadFieldOfPrint(r.id, s1, U64);
    ReadFieldOfPrint(r.user, rest, U32);
  }

  // ----- tweetData

  function PrintTweet(t: Tweet): string {
    PrintNat(t.author) + "." + PrintNat(t.id) + "." + PrintNat(t.timestamp) + "."
    + t.payload + "." + PrintNat(t.remaining) + "."
  }

  function ReadTweetTail(author: nat, id: nat, timestamp: nat, s: string): Option<(Tweet, string)> {
    match ReadRaw(s, 256)
    case None => None
    case Some((payload, s1)) =>
      match ReadChar(s1)
      case None => None
      case Some((_, s2)) =>
        match ReadField(s2, U32)
        case None => None
        case Some((remaining, s3)) => Some((Tweet(author, id, timestamp, payload, remaining), s3))
  }

  function ReadTweet(s: string): Option<(Tweet, string)> {
    match ReadField(s, U32)
    case None => None
    case Some((author, s1)) =>
      match ReadField(s1, U64)
      case None => None
      case Some((id, s2)) =>
        match ReadField(s2, U64)
        case None => None
        case Some((timestamp, s3)) => ReadTweetTail(author, id, timestamp, s3)
  }

  predicate TweetInRange(t: Tweet) {
    t.author < U32 && t.id < U64 && t.timestamp < U64 && |t.payload| == 256 && t.remaining < U32
  }

  function PrintTweetTail(t: Tweet, rest: string): string {
    t.payload + ("." + (PrintNat(t.remaining) + ("." + rest)))
  }

  lemma TweetTailRoundTrip(t: Tweet, rest: string)
    requires TweetInRange(t)
    ensures ReadTweetTail(t.author, t.id, t.timestamp, PrintTweetTail(t, rest)) == Some((t, rest))
  {
    var s := PrintNat(t.remaining) + ("." + rest);
    var text := PrintTweetTail(t, rest);
    assert text[..256] == t.payload && text[256..] == "." + s;
    assert ("." + s)[0] == '.' && ("." + s)[1..] == s;
    ReadFieldOfPrint(t.remaining, rest, U32);
  }

  lemma PrintTweetParts(t: Tweet, rest: string)
    ensures PrintTweet(t) + rest
         == PrintNat(t.author)
            + ("." + (PrintNat(t.id) + ("." + (PrintNat(t.timestamp) + ("." + PrintTweetTail(t, rest))))))
  {
  }

  /** Any 256 bytes may stand in the payload, digits, separators and white space included. */
  lemma TweetRoundTrip(t: Tweet, rest: string)
    requires t.author < 0x1_0000_0000 && t.id < 0x1_0000_0000_0000_0000 && t.timestamp < 0x1_0000_0000_0000_0000
    requires |t.payload| == 256 && t.remaining < 0x1_0000_0000
    ensures ReadTweet(PrintTweet(t) + rest) == Some((t, rest))
  {
    var s3 := PrintTweetTail(t, rest);
    var s2 := PrintNat(t.timestamp) + ("." + s3);
    var s1 := PrintNat(t.id) + ("." + s2);
    PrintTweetParts(t, rest);
    ReadFieldOfPrint(t.author, s1, U32);
    ReadFieldOfPrint(t.id, s2, U64);
    ReadFieldOfPrint(t.timestamp, s3, U64);
    TweetTailRoundTrip(t, rest);
  }

  // ----- userType

  datatype User = User(name: string, id: nat)

  function PrintUser(u: User): string {
    PrintNat(|u.name|) + u.name + PrintNat(u.id) + "."
  }

  /** `is >> x` for an unsigned type, as far as it matters whether the end of the text is hit. */
  datatype NumberRead =
    | Number(value: nat, rest: string)   // more text follows
    | LastNumber(value: nat)             // what was read goes to the end of the text
    | NoNumber                           // nothing is left: the variable keeps its value
    | BadNumber                          // no number, or one too large, and the end is not hit

  function ReadNumber(text: string, bound: nat): NumberRead
    requires bound > 0
  {
    var s := SkipSpace(text);
    if s == "" then NoNumber
    else
      var d := if Signed(s) then s[1..] else s;
      var n := DigitCount(d);
      var v := NatOf(d[..n]);
      var w := if v >= bound then bound - 1 else if s[0] == '-' && v > 0 then bound - v else v;
      if n == |d| then LastNumber(w)
      else if n == 0 || v >= bound then BadNumber
      else Number(w, d[n..])
  }

  lemma NumberOfUnsigned(text: string, bound: nat)
    requires bound > 0
    ensures match ReadUnsigned(text, bound)
      case Some((v, rest)) => rest != "" ==> ReadNumber(text, bound) == Number(v, rest)
      case None => !ReadNumber(text, bound).Number?
  {
  }

  function Nuls(n: nat): string {
    seq(n, _ => '\0')
  }

  /** What one iteration of the loading loop gets. */
  datatype UserRead =
    | Whole(user: User, rest: string)    // a record, and the stream reads on
    | CutShort(user: User)               // the end of the file was hit
    | Never                              // the stream failed before the end, or no string is so long

  /** The rest of a record behind its name. An id that is not read keeps what was in memory, `junk`. */
  function ReadUserId(name: string, s: string, junk: nat): UserRead {
    match ReadNumber(s, U32)
    case NoNumber => CutShort(User(name, junk))
    case BadNumber => Never
    case LastNumber(id) => CutShort(User(name, id))
    case Number(id, s1) =>
      match ReadChar(s1)
      case None => CutShort(User(name, id))
      case Some((_, s2)) => Whole(User(name, id), s2)
  }

  /** The name is enlarged before it is read: what the text lacks stays NUL. */
  function ReadUser(s: string, junk: nat): UserRead {
    match ReadNumber(s, U64)
    case NoNumber => CutShort(User("", junk))
    case BadNumber => Never
    case LastNumber(size) => if size == U64 - 1 then Never else CutShort(User(Nuls(size), junk))
    case Number(size, s1) =>
      if |s1| < size then
        if size == U64 - 1 then Never else CutShort(User(s1 + Nuls(size - |s1|), junk))
      else ReadUserId(s1[..size], s1[size..], junk)
  }

  predicate UserInRange(u: User) {
    |u.name| < U64 && u.id < U32
  }

  /** The name's own first character decides where the length ends. */
  predicate Readable(u: User) {
    u.name != "" && !Digit(u.name[0])
  }

  lemma {:induction false} ReadUserIdOfPrint(name: string, id: nat, rest: string, junk: nat)
    requires id < U32
    ensures ReadUserId(name, PrintNat(id) + ("." + rest), junk) == Whole(User(name, id), rest)
  {
    assert ("." + rest)[0] == '.' && ("." + rest)[1..] == rest;
    ReadUnsignedOfPrint(id, "." + rest, U32);
    NumberOfUnsigned(PrintNat(id) + ("." + rest), U32);
  }

  lemma ReadableRoundTrip(u: User, rest: string, junk: nat)
    requires UserInRange(u) && Readable(u)
    ensures ReadUser(PrintUser(u) + rest, junk) == Whole(u, rest)
  {
    var s2 := PrintNat(u.id) + ("." + rest);
    var s1 := u.name + s2;
    assert PrintUser(u) + rest == PrintNat(|u.name|) + s1;
    assert s1[0] == u.name[0];
    ReadUnsignedOfPrint(|u.name|, s1, U64);
    NumberOfUnsigned(PrintNat(|u.name|) + s1, U64);
    assert s1[..|u.name|] == u.name && s1[|u.name|..] == s2;
    ReadUserIdOfPrint(u.name, u.id, rest, junk);
  }

  lemma {:induction false} ReadMagnitudeLonger(a: string, tail: string)
    requires AllDigits(a) && a != ""
    ensures AllDigits(a + tail[..DigitCount(tail)])
    ensures ReadMagnitude(a + tail) == Some((NatOf(a + tail[..DigitCount(tail)]), tail[DigitCount(tail)..]))
  {
    var k := DigitCount(tail);
    DigitCountOf(a, tail);
    assert (a + tail)[..|a| + k] == a + tail[..k];
    assert (a + tail)[|a| + k..] == tail[k..];
  }

  /** What a number is read as when more digits follow its own. */
  lemma {:induction false} ReadUnsignedLonger(n: nat, tail: string)
    ensures AllDigits(PrintNat(n) + tail[..DigitCount(tail)])
    ensures var v := NatOf(PrintNat(n) + tail[..DigitCount(tail)]);
      ReadUnsigned(PrintNat(n) + tail, U64) == if v >= U64 then None else Some((v, tail[DigitCount(tail)..]))
  {
    PrintStarts(n, tail);
    ReadMagnitudeLonger(PrintNat(n), tail);
  }

  lemma {:induction false} LeadingZero(s: string)
    requires AllDigits(s)
    ensures NatOf(['0'] + s) == NatOf(s)
  {
    if s == "" {
      assert ['0'] + s == ['0'];
      assert ['0'][..0] == "";
    } else {
      assert (['0'] + s)[..|s|] == ['0'] + s[..|s| - 1];
      LeadingZero(s[..|s| - 1]);
    }
  }

  /** The digits of the id are taken for the length of an empty name ... */
  lemma EmptyNameSize(u: User, rest: string)
    requires UserInRange(u) && u.name == ""
    ensures ReadUnsigned(PrintUser(u) + rest, U64) == Some((u.id, "." + rest))
  {
    var tail := PrintNat(u.id) + ("." + rest);
    assert PrintUser(u) + rest == PrintNat(0) + tail;
    ReadUnsignedLonger(0, tail);
    DigitCountOf(PrintNat(u.id), "." + rest);
    assert ("." + rest)[0] == '.';
    assert tail[..|PrintNat(u.id)|] == PrintNat(u.id) && tail[|PrintNat(u.id)|..] == "." + rest;
    LeadingZero(PrintNat(u.id));
    NatOfPrint(u.id);
  }

  /** ... and the first digits of a name for more digits of its length. */
  lemma DigitNameSize(u: User, rest: string)
    requires UserInRange(u) && u.name != "" && Digit(u.name[0])
    ensures match ReadUnsigned(PrintUser(u) + rest, U64)
      case None => true
      case Some((size, _)) => size > |u.name|
  {
    var tail := u.name + (PrintNat(u.id) + ("." + rest));
    assert PrintUser(u) + rest == PrintNat(|u.name|) + tail;
    assert tail[0] == u.name[0];
    ReadUnsignedLonger(|u.name|, tail);
    NatOfPrint(|u.name|);
    NatOfLonger(PrintNat(|u.name|), tail[..DigitCount(tail)]);
  }

  lemma {:induction false} NumberAtEnd(n: nat)
    requires n < 0x1_0000_0000
    ensures ReadNumber(PrintNat(n), U64) == LastNumber(n) && ReadNumber(PrintNat(n), U32) == LastNumber(n)
  {
    PrintStarts(n, "");
    DigitCountOf(PrintNat(n), "");
    assert PrintNat(n) + "" == PrintNat(n);
    assert PrintNat(n)[..|PrintNat(n)|] == PrintNat(n);
    NatOfPrint(n);
  }

  /** What a record that is cut short by the end of the file leaves: behind the length a name of NULs, inside
      the name its beginning and NULs, behind the name an id left over, behind the id the whole user. */
  lemma {:induction false} CutShortRecords(n: nat, name: string, id: nat, junk: nat)
    requires n < 0x1_0000_0000 && id < 0x1_0000_0000
    requires |name| < n && name != "" && !Digit(name[0])
    ensures ReadUser(PrintNat(n), junk) == CutShort(User(Nuls(n), junk))
    ensures ReadUser(PrintNat(n) + name, junk) == CutShort(User(name + Nuls(n - |name|), junk))
    ensures ReadUserId(name, "", junk) == CutShort(User(name, junk))
    ensures ReadUserId(name, PrintNat(id), junk) == CutShort(User(name, id))
    ensures ReadUserId(name, PrintNat(id) + " ", junk) == CutShort(User(name, id))
    ensures |Nuls(n)| == n && forall i :: 0 <= i < n ==> Nuls(n)[i] == '\0'
  {
    NumberAtEnd(n);
    NumberAtEnd(id);
    ReadUnsignedOfPrint(n, name, U64);
    NumberOfUnsigned(PrintNat(n) + name, U64);
    ReadUnsignedOfPrint(id, " ", U32);
    NumberOfUnsigned(PrintNat(id) + " ", U32);
    assert " "[1..] == "";
  }

  /** So an empty name takes as many characters as the id says, from the separator on. */
  lemma EmptyNameReads(u: User, rest: string, junk: nat)
    requires UserInRange(u) && u.name == ""
    ensures var s1 := "." + rest;
      ReadUser(PrintUser(u) + rest, junk)
      == if |s1| < u.id then CutShort(User(s1 + Nuls(u.id - |s1|), junk)) else ReadUserId(s1[..u.id], s1[u.id..], junk)
  {
    EmptyNameSize(u, rest);
    NumberOfUnsigned(PrintUser(u) + rest, U64);
  }

  lemma WholeName(s: string, junk: nat)
    ensures ReadUser(s, junk).Whole? ==>
      ReadNumber(s, U64).Number? && |ReadUser(s, junk).user.name| == ReadNumber(s, U64).value
  {
  }

  /** A length 0 is followed by a separator where the id should be, and the stream fails there. */
  lemma NothingBeforeSeparator(rest: string, junk: nat)
    ensures ReadUserId("", "." + rest, junk) == Never
  {
    assert ("." + rest)[0] == '.';
  }

  lemma EmptyNameMismatch(u: User, rest: string, junk: nat)
    requires UserInRange(u) && u.name == ""
    ensures ReadUser(PrintUser(u) + rest, junk).Whole? ==> ReadUser(PrintUser(u) + rest, junk).user.name != u.name
  {
    var s1 := "." + rest;
    EmptyNameReads(u, rest, junk);
    EmptyNameSize(u, rest);
    NumberOfUnsigned(PrintUser(u) + rest, U64);
    WholeName(PrintUser(u) + rest, junk);
    NothingBeforeSeparator(rest, junk);
    assert s1[..0] == "" && s1[0..] == s1;
  }

  lemma DigitNameMismatch(u: User, rest: string, junk: nat)
    requires UserInRange(u) && u.name != "" && Digit(u.name[0])
    ensures ReadUser(PrintUser(u) + rest, junk).Whole? ==> ReadUser(PrintUser(u) + rest, junk).user.name != u.name
  {
    DigitNameSize(u, rest);
    NumberOfUnsigned(PrintUser(u) + rest, U64);
    WholeName(PrintUser(u) + rest, junk);
  }

  /** A record that does not read back is not mistaken for itself. */
  lemma UnreadableMismatch(u: User, rest: string, junk: nat)
    requires UserInRange(u) && !Readable(u)
    ensures ReadUser(PrintUser(u) + rest, junk).Whole? ==> ReadUser(PrintUser(u) + rest, junk).user.name != u.name
  {
    if u.name == "" {
      EmptyNameMismatch(u, rest, junk);
    } else {
      DigitNameMismatch(u, rest, junk);
    }
  }

  /** A printed user record reads back, leaving the rest alone, exactly when the name is not empty and
      does not start with a digit. */
  lemma UserRoundTripIff(u: User, rest: string, junk: nat)
    requires UserInRange(u)
    ensures ReadUser(PrintUser(u) + rest, junk) == Whole(u, rest) <==> Readable(u)
  {
    if Readable(u) {
      ReadableRoundTrip(u, rest, junk);
    } else {
      UnreadableMismatch(u, rest, junk);
    }
  }
}
