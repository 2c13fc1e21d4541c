/** The server's operations as scripts of nested lock sections. Every script enters sections in the order
    of one hierarchy and leaves them innermost first; only a failed follow leaves the gate behind.

    A timed wait on a condition variable is a release of its mutex followed by taking it again. */
module Scripts {
  import opened Mailbox
  import opened RwLocks
  import Delivery

  datatype LockId =
    | Incoming(session: nat)   // incomingQueueMUT of one session
    | DbGate                   // query_try, query_cnt_sem, query_cnt, DB_access_sem
    | ListenerMutex            // listenerProceedMUT
    | Outgoing(session: nat)   // outgoingQueueMUT of one session
    | TweetNum                 // tweetnum_sem
    | Lou | Lof | Lort | Lopt
    | DuplicateMutex           // LOPT_duplicate_mut
    | ConnSem                  // connectionManager::accessDB

  function Level(id: LockId): nat {
    match id
    case Incoming(_) => 0
    case DbGate => 1
    case ListenerMutex => 2
    case Outgoing(_) => 3
    case TweetNum => 4
    case Lou => 5
    case Lof => 6
    case Lort => 7
    case Lopt => 8
    case DuplicateMutex => 9
    case ConnSem => 10
  }

  function KindOf(id: LockId): Kind {
    if id == DbGate then Gate else if id == Lopt then WriterPref else FirstLast
  }

  // ----- operations as scripts

  /** Take a section, give it back, or return without giving back the gate. */
  datatype Cmd = Enter(id: LockId, role: Role) | Leave(id: LockId) | Drop

  type Script = seq<Cmd>

  /** A request of the speaker, with the branches it takes. */
  datatype Request = Follow(targetExists: bool, alreadyFollowed: bool) | Update(hasFollowers: bool)

  /** What a listener does while it holds `listenerProceedMUT`. */
  datatype Check = DuplicateCheck | PendingCheck(listWasEmpty: bool) | Sleep

  datatype Operation =
    | Speak(session: nat, requests: seq<Request>)        // the speaker empties the incoming queue
    | Enqueue(session: nat)                              // the connector appends a request to it
    | SendOut(session: nat)                              // the connector empties the outgoing queue
    | Pause(checks: seq<Check>)                          // the listener waits for tweets,
    | RetrieveDuplicates(waits: nat)                     // fetches them in one of two ways
    | RetrievePending(copied: nat, refs: nat)
    | Notify(session: nat, tweets: nat)                  // and puts them out with their authors' names
    | SaveOrLoad
    | NameLookup
    | AddUser
    | ConnectionCall

  /** One section entered and left, then the rest. */
  function Pass(id: LockId, role: Role, rest: Script): Script {
    [Enter(id, role)] + ([Leave(id)] + rest)
  }

  function Passes(n: nat, id: LockId, role: Role, rest: Script): Script {
    if n == 0 then rest else Pass(id, role, Passes(n - 1, id, role, rest))
  }

  /** `doesClientHaveDuplicateTweets` and the like: look up the index, then use it. */
  function ConnTwice(rest: Script): Script {
    Pass(ConnSem, Writer, Pass(ConnSem, Writer, rest))
  }

  function DuplicateWaits(n: nat, rest: Script): Script {
    if n == 0 then rest
    else [Leave(DuplicateMutex)] + ([Enter(DuplicateMutex, Writer)] + ConnTwice(DuplicateWaits(n - 1, rest)))
  }

  function Checks(cs: seq<Check>, rest: Script): Script {
    if cs == [] then rest
    else
      var tail := Checks(cs[1..], rest);
      match cs[0]
      case DuplicateCheck => ConnTwice(tail)
      case PendingCheck(listWasEmpty) =>
        var inner := [Leave(Lopt)] + tail;
        [Enter(Lopt, Reader)] + (if listWasEmpty then ConnTwice(inner) else inner)
      case Sleep => [Leave(ListenerMutex)] + ([Enter(ListenerMutex, Writer)] + tail)
  }

  /** `_registerUpdate` and `_forwardUpdateToFollowers` under `listenerProceedMUT`. */
  function PostScript(rest: Script): Script {
    [Enter(ListenerMutex, Writer)]
    + Pass(Lof, Reader, Pass(Lort, Writer, Pass(Lof, Reader, Pass(Lopt, Writer, [Leave(ListenerMutex)] + rest))))
  }

  function FollowScript(targetExists: bool, alreadyFollowed: bool, rest: Script): Script {
    [Enter(DbGate, Reader)] + Pass(Lou, Reader,
      if !targetExists then [Drop] + rest             // early return
      else Pass(Lof, Reader,
        if alreadyFollowed then [Drop] + rest         // early return
        else Pass(Lof, Writer, [Leave(DbGate)] + rest)))
  }

  function UpdateScript(hasFollowers: bool, rest: Script): Script {
    var last := [Leave(DbGate)] + rest;
    [Enter(DbGate, Reader)] + Pass(TweetNum, Writer, Pass(Lof, Reader,
      if hasFollowers then PostScript(last) else last))
  }

  /** One request and its reply. */
  function RequestScript(session: nat, q: Request, rest: Script): Script {
    var reply := Pass(Outgoing(session), Writer, rest);
    match q
    case Follow(targetExists, alreadyFollowed) => FollowScript(targetExists, alreadyFollowed, reply)
    case Update(hasFollowers) => UpdateScript(hasFollowers, reply)
  }

  function RequestsScript(session: nat, qs: seq<Request>, rest: Script): Script {
    if qs == [] then rest else RequestScript(session, qs[0], RequestsScript(session, qs[1..], rest))
  }

  function DuplicatesScript(waits: nat, rest: Script): Script {
    Pass(Lopt, Reader, [Enter(DuplicateMutex, Writer)] + ConnTwice(DuplicateWaits(waits,
      [Leave(DuplicateMutex)] + ConnTwice(Pass(Lort, Reader, rest)))))
  }

  function PendingScript(copied: nat, refs: nat, rest: Script): Script {
    Pass(Lopt, Reader, Pass(Lort, Reader,
      ConnTwice(Passes(2 * copied, ConnSem, Writer, Passes(refs, Lort, Writer, rest)))))
  }

  function ScriptOf(op: Operation): Script {
    match op
    case Speak(c, qs) => [Enter(Incoming(c), Writer)] + RequestsScript(c, qs, [Leave(Incoming(c))] + [])
    case Enqueue(c) => Pass(Incoming(c), Writer, [])
    case SendOut(c) => Pass(Outgoing(c), Writer, [])
    case Pause(checks) => [Enter(ListenerMutex, Writer)] + Checks(checks, [Leave(ListenerMutex)] + [])
    case RetrieveDuplicates(waits) => [Enter(DbGate, Reader)] + DuplicatesScript(waits, [Leave(DbGate)] + [])
    case RetrievePending(copied, refs) =>
      [Enter(DbGate, Reader)] + PendingScript(copied, refs, [Leave(DbGate)] + [])
    case Notify(c, n) => [Enter(Outgoing(c), Writer)] + Passes(n, Lou, Reader, [Leave(Outgoing(c))] + [])
    case SaveOrLoad => Pass(DbGate, Writer, [])
    case NameLookup => Pass(Lou, Reader, [])
    case AddUser => Pass(Lou, Writer, [])
    case ConnectionCall => Pass(ConnSem, Writer, [])
  }

  /** A follow of an unknown name, or of somebody already followed. */
  predicate Fails(q: Request) {
    q.Follow? && (!q.targetExists || q.alreadyFollowed)
  }

  function Failures(qs: seq<Request>): nat {
    if qs == [] then 0 else (if Fails(qs[0]) then 1 else 0) + Failures(qs[1..])
  }

  function FailuresOf(op: Operation): nat {
    if op.Speak? then Failures(op.requests) else 0
  }

  // ----- the order

  /** A section that a thread is inside, innermost last. */
  datatype Hold = Hold(id: LockId, role: Role)

  predicate Below(held: seq<Hold>, id: LockId) {
    forall i :: 0 <= i < |held| ==> Level(held[i].id) < Level(id)
  }

  /** The lists of the database are written inside the gate, the pending lists also under
      `listenerProceedMUT`. */
  predicate Nested(held: seq<Hold>, id: LockId, role: Role) {
    role == Writer ==>
      && (id in {TweetNum, Lof, Lort, Lopt} ==> Hold(DbGate, Reader) in held)
      && (id == Lopt ==> Hold(ListenerMutex, Writer) in held)
  }

  function Plus(walk: Option<nat>, n: nat): Option<nat> {
    match walk
    case None => None
    case Some(m) => Some(m + n)
  }

  /** How often a script that starts in `held` leaves the gate behind; None if it does not enter sections
      in rising order and nested as they should be, leave them innermost first, and end outside all of
      them. */
  function Walk(todo: Script, held: seq<Hold>): Option<nat> {
    if todo == [] then (if held == [] then Some(0) else None)
    else match todo[0]
      case Enter(id, role) =>
        if Below(held, id) && Nested(held, id, role) then Walk(todo[1..], held + [Hold(id, role)]) else None
      case Leave(id) =>
        if held != [] && held[|held| - 1].id == id then Walk(todo[1..], held[..|held| - 1]) else None
      case Drop =>
        if held != [] && held[|held| - 1] == Hold(DbGate, Reader) then Plus(Walk(todo[1..], held[..|held| - 1]), 1)
        else None
  }

  predicate Follows(todo: Script, held: seq<Hold>) {
    Walk(todo, held).Some?
  }

  lemma {:induction false} WalkEnter(id: LockId, role: Role, rest: Script, held: seq<Hold>)
    requires Below(held, id) && Nested(held, id, role)
    ensures Walk([Enter(id, role)] + rest, held) == Walk(rest, held + [Hold(id, role)])
  {
    assert ([Enter(id, role)] + rest)[1..] == rest;
  }

  lemma {:induction false} WalkLeave(id: LockId, role: Role, rest: Script, held: seq<Hold>)
    ensures Walk([Leave(id)] + rest, held + [Hold(id, role)]) == Walk(rest, held)
  {
    assert ([Leave(id)] + rest)[1..] == rest;
    assert (held + [Hold(id, role)])[..|held|] == held;
  }

  lemma {:induction false} WalkDrop(rest: Script, held: seq<Hold>)
    ensures Walk([Drop] + rest, held + [Hold(DbGate, Reader)]) == Plus(Walk(rest, held), 1)
  {
    assert ([Drop] + rest)[1..] == rest;
    assert (held + [Hold(DbGate, Reader)])[..|held|] == held;
  }

  lemma {:induction false} WalkPass(id: LockId, role: Role, rest: Script, held: seq<Hold>)
    requires Below(held, id) && Nested(held, id, role)
    ensures Walk(Pass(id, role, rest), held) == Walk(rest, held)
  {
    WalkEnter(id, role, [Leave(id)] + rest, held);
    WalkLeave(id, role, rest, held);
  }

  lemma {:induction false} WalkPasses(n: nat, id: LockId, role: Role, rest: Script, held: seq<Hold>)
    requires Below(held, id) && Nested(held, id, role)
    ensures Walk(Passes(n, id, role, rest), held) == Walk(rest, held)
  {
    if n > 0 {
      var fewer := Passes(n - 1, id, role, rest);
      WalkPasses(n - 1, id, role, rest, held);
      WalkPass(id, role, fewer, held);
    }
  }

  lemma {:induction false} WalkTwice(rest: Script, held: seq<Hold>)
    requires Below(held, ConnSem)
    ensures Walk(ConnTwice(rest), held) == Walk(rest, held)
  {
    WalkPass(ConnSem, Writer, rest, held);
    WalkPass(ConnSem, Writer, Pass(ConnSem, Writer, rest), held);
  }

  /** Releasing the innermost section and taking it again. */
  lemma {:induction false} WalkAgain(id: LockId, rest: Script, held: seq<Hold>)
    requires Below(held, id) && Nested(held, id, Writer)
    ensures Walk([Leave(id)] + ([Enter(id, Writer)] + rest), held + [Hold(id, Writer)])
         == Walk(rest, held + [Hold(id, Writer)])
  {
    WalkEnter(id, Writer, rest, held);
    WalkLeave(id, Writer, [Enter(id, Writer)] + rest, held);
  }

  lemma {:induction false} WalkWaits(n: nat, rest: Script, held: seq<Hold>)
    requires Below(held, DuplicateMutex)
    ensures Walk(DuplicateWaits(n, rest), held + [Hold(DuplicateMutex, Writer)])
         == Walk(rest, held + [Hold(DuplicateMutex, Writer)])
  {
    if n > 0 {
      var fewer := DuplicateWaits(n - 1, rest);
      WalkWaits(n - 1, rest, held);
      WalkTwice(fewer, held + [Hold(DuplicateMutex, Writer)]);
      WalkAgain(DuplicateMutex, ConnTwice(fewer), held);
    }
  }

  /** A LOPT reader that may look at the duplicates. */
  lemma {:induction false} WalkPendingCheck(listWasEmpty: bool, tail: Script, held: seq<Hold>)
    requires Below(held, Lopt)
    ensures var inner := [Leave(Lopt)] + tail;
      Walk([Enter(Lopt, Reader)] + (if listWasEmpty then ConnTwice(inner) else inner), held) == Walk(tail, held)
  {
    var inner := [Leave(Lopt)] + tail;
    WalkLeave(Lopt, Reader, tail, held);
    WalkTwice(inner, held + [Hold(Lopt, Reader)]);
    WalkEnter(Lopt, Reader, if listWasEmpty then ConnTwice(inner) else inner, held);
  }

  /** One check in front of the others. */
  lemma {:induction false} WalkCheck(c: Check, cs: seq<Check>, rest: Script)
    ensures Walk(Checks([c] + cs, rest), [] + [Hold(ListenerMutex, Writer)])
         == Walk(Checks(cs, rest), [] + [Hold(ListenerMutex, Writer)])
  {
    var held, tail := [] + [Hold(ListenerMutex, Writer)], Checks(cs, rest);
    assert ([c] + cs)[1..] == cs;
    match c
    case DuplicateCheck => WalkTwice(tail, held);
    case PendingCheck(listWasEmpty) => WalkPendingCheck(listWasEmpty, tail, held);
    case Sleep => WalkAgain(ListenerMutex, tail, []);
  }

  lemma {:induction false} WalkChecks(cs: seq<Check>, rest: Script)
    ensures Walk(Checks(cs, rest), [] + [Hold(ListenerMutex, Writer)]) == Walk(rest, [] + [Hold(ListenerMutex, Writer)])
  {
    if cs != [] {
      WalkChecks(cs[1..], rest);
      WalkCheck(cs[0], cs[1..], rest);
      assert [cs[0]] + cs[1..] == cs;
    }
  }

  lemma {:induction false} WalkPassTwo(id: LockId, role: Role, id': LockId, role': Role, rest: Script, held: seq<Hold>)
    requires Below(held, id) && Below(held, id') && Nested(held, id, role) && Nested(held, id', role')
    ensures Walk(Pass(id, role, Pass(id', role', rest)), held) == Walk(rest, held)
  {
    var tail := Pass(id', role', rest);
    WalkPass(id', role', rest, held);
    WalkPass(id, role, tail, held);
  }

  /** A section around a script that ends where it began. */
  lemma {:induction false} WalkSection(id: LockId, role: Role, body: Script, rest: Script, held: seq<Hold>)
    requires Below(held, id) && Nested(held, id, role)
    requires Walk(body, held + [Hold(id, role)]) == Walk([Leave(id)] + rest, held + [Hold(id, role)])
    ensures Walk([Enter(id, role)] + body, held) == Walk(rest, held)
  {
    WalkLeave(id, role, rest, held);
    WalkEnter(id, role, body, held);
  }

  lemma {:induction false} WalkPost(rest: Script, held: seq<Hold>)
    requires Below(held, ListenerMutex) && Hold(DbGate, Reader) in held
    ensures Walk(PostScript(rest), held) == Walk(rest, held)
  {
    var inner := held + [Hold(ListenerMutex, Writer)];
    var last := [Leave(ListenerMutex)] + rest;
    var forward := Pass(Lof, Reader, Pass(Lopt, Writer, last));
    WalkPassTwo(Lof, Reader, Lopt, Writer, last, inner);
    WalkPassTwo(Lof, Reader, Lort, Writer, forward, inner);
    WalkSection(ListenerMutex, Writer, Pass(Lof, Reader, Pass(Lort, Writer, forward)), rest, held);
  }

  /** The part of a follow behind the name lookup. */
  lemma {:induction false} WalkKnown(alreadyFollowed: bool, rest: Script, held: seq<Hold>)
    requires Below(held, DbGate)
    ensures var tail := if alreadyFollowed then [Drop] + rest else Pass(Lof, Writer, [Leave(DbGate)] + rest);
      Walk(Pass(Lof, Reader, tail), held + [Hold(DbGate, Reader)])
      == Plus(Walk(rest, held), if alreadyFollowed then 1 else 0)
  {
    var inner, last := held + [Hold(DbGate, Reader)], [Leave(DbGate)] + rest;
    WalkDrop(rest, held);
    WalkLeave(DbGate, Reader, rest, held);
    if alreadyFollowed {
      WalkPass(Lof, Reader, [Drop] + rest, inner);
    } else {
      WalkPassTwo(Lof, Reader, Lof, Writer, last, inner);
    }
  }

  lemma {:induction false} WalkFollow(targetExists: bool, alreadyFollowed: bool, rest: Script, held: seq<Hold>)
    requires Below(held, DbGate)
    ensures Walk(FollowScript(targetExists, alreadyFollowed, rest), held)
         == Plus(Walk(rest, held), if targetExists && !alreadyFollowed then 0 else 1)
  {
    var inner := held + [Hold(DbGate, Reader)];
    WalkDrop(rest, held);
    WalkKnown(alreadyFollowed, rest, held);
    var tail := if !targetExists then [Drop] + rest
      else Pass(Lof, Reader, if alreadyFollowed then [Drop] + rest else Pass(Lof, Writer, [Leave(DbGate)] + rest));
    WalkPass(Lou, Reader, tail, inner);
    WalkEnter(DbGate, Reader, Pass(Lou, Reader, tail), held);
  }

  lemma {:induction false} WalkUpdate(hasFollowers: bool, rest: Script, held: seq<Hold>)
    requires Below(held, DbGate)
    ensures Walk(UpdateScript(hasFollowers, rest), held) == Walk(rest, held)
  {
    var inner, last := held + [Hold(DbGate, Reader)], [Leave(DbGate)] + rest;
    var tail := if hasFollowers then PostScript(last) else last;
    WalkPost(last, inner);
    WalkPassTwo(TweetNum, Writer, Lof, Reader, tail, inner);
    WalkSection(DbGate, Reader, Pass(TweetNum, Writer, Pass(Lof, Reader, tail)), rest, held);
  }

  lemma {:induction false} WalkRequest(session: nat, q: Request, rest: Script, held: seq<Hold>)
    requires Below(held, DbGate)
    ensures Walk(RequestScript(session, q, rest), held) == Plus(Walk(rest, held), if Fails(q) then 1 else 0)
  {
    var reply := Pass(Outgoing(session), Writer, rest);
    WalkPass(Outgoing(session), Writer, rest, held);
    match q
    case Follow(targetExists, alreadyFollowed) => WalkFollow(targetExists, alreadyFollowed, reply, held);
    case Update(hasFollowers) => WalkUpdate(hasFollowers, reply, held);
  }

  lemma {:induction false} WalkRequests(session: nat, qs: seq<Request>, rest: Script, held: seq<Hold>)
    requires Below(held, DbGate)
    ensures Walk(RequestsScript(session, qs, rest), held) == Plus(Walk(rest, held), Failures(qs))
  {
    if qs != [] {
      WalkRequests(session, qs[1..], rest, held);
      WalkRequest(session, qs[0], RequestsScript(session, qs[1..], rest), held);
    }
  }

  lemma {:induction false} WalkSpeak(session: nat, qs: seq<Request>)
    ensures Walk(ScriptOf(Speak(session, qs)), []) == Some(Failures(qs))
  {
    var id := Incoming(session);
    var last := [Leave(id)] + [];
    WalkLeave(id, Writer, [], []);
    WalkRequests(session, qs, last, [] + [Hold(id, Writer)]);
    WalkEnter(id, Writer, RequestsScript(session, qs, last), []);
  }

  /** What happens under `LOPT_duplicate_mut`. */
  lemma {:induction false} WalkWaiting(waits: nat, rest: Script, held: seq<Hold>)
    requires Below(held, DuplicateMutex)
    ensures Walk([Enter(DuplicateMutex, Writer)]
                 + ConnTwice(DuplicateWaits(waits, [Leave(DuplicateMutex)] + rest)), held)
         == Walk(rest, held)
  {
    var last, inner := [Leave(DuplicateMutex)] + rest, held + [Hold(DuplicateMutex, Writer)];
    WalkWaits(waits, last, held);
    WalkTwice(DuplicateWaits(waits, last), inner);
    WalkSection(DuplicateMutex, Writer, ConnTwice(DuplicateWaits(waits, last)), rest, held);
  }

  lemma {:induction false} WalkDuplicatesScript(waits: nat, rest: Script, held: seq<Hold>)
    requires Below(held, Lort)
    ensures Walk(DuplicatesScript(waits, rest), held) == Walk(rest, held)
  {
    var behind := ConnTwice(Pass(Lort, Reader, rest));
    WalkPass(Lort, Reader, rest, held);
    WalkTwice(Pass(Lort, Reader, rest), held);
    WalkWaiting(waits, behind, held);
    WalkPass(Lopt, Reader,
      [Enter(DuplicateMutex, Writer)] + ConnTwice(DuplicateWaits(waits, [Leave(DuplicateMutex)] + behind)), held);
  }

  lemma {:induction false} WalkCopies(copied: nat, refs: nat, rest: Script, held: seq<Hold>)
    requires Below(held, Lort) && Hold(DbGate, Reader) in held
    ensures Walk(ConnTwice(Passes(2 * copied, ConnSem, Writer, Passes(refs, Lort, Writer, rest))), held)
         == Walk(rest, held)
  {
    var releases := Passes(refs, Lort, Writer, rest);
    WalkPasses(refs, Lort, Writer, rest, held);
    WalkPasses(2 * copied, ConnSem, Writer, releases, held);
    WalkTwice(Passes(2 * copied, ConnSem, Writer, releases), held);
  }

  lemma {:induction false} WalkPendingScript(copied: nat, refs: nat, rest: Script, held: seq<Hold>)
    requires Below(held, Lort) && Hold(DbGate, Reader) in held
    ensures Walk(PendingScript(copied, refs, rest), held) == Walk(rest, held)
  {
    WalkCopies(copied, refs, rest, held);
    WalkPassTwo(Lopt, Reader, Lort, Reader,
      ConnTwice(Passes(2 * copied, ConnSem, Writer, Passes(refs, Lort, Writer, rest))), held);
  }

  /** A query that ends by leaving the gate. */
  lemma {:induction false} WalkQuery(body: Script)
    requires Walk(body, [] + [Hold(DbGate, Reader)]) == Walk([Leave(DbGate)] + [], [] + [Hold(DbGate, Reader)])
    ensures Walk([Enter(DbGate, Reader)] + body, []) == Some(0)
  {
    WalkSection(DbGate, Reader, body, [], []);
  }

  lemma {:induction false} WalkDuplicates(waits: nat)
    ensures Walk(ScriptOf(RetrieveDuplicates(waits)), []) == Some(0)
  {
    WalkDuplicatesScript(waits, [Leave(DbGate)] + [], [] + [Hold(DbGate, Reader)]);
    WalkQuery(DuplicatesScript(waits, [Leave(DbGate)] + []));
  }

  lemma {:induction false} WalkPending(copied: nat, refs: nat)
    ensures Walk(ScriptOf(RetrievePending(copied, refs)), []) == Some(0)
  {
    var held := [] + [Hold(DbGate, Reader)];
    assert held[0] == Hold(DbGate, Reader);
    WalkPendingScript(copied, refs, [Leave(DbGate)] + [], held);
    WalkQuery(PendingScript(copied, refs, [Leave(DbGate)] + []));
  }

  lemma {:induction false} WalkPause(checks: seq<Check>)
    ensures Walk(ScriptOf(Pause(checks)), []) == Some(0)
  {
    var last := [Leave(ListenerMutex)] + [];
    WalkLeave(ListenerMutex, Writer, [], []);
    WalkChecks(checks, last);
    WalkEnter(ListenerMutex, Writer, Checks(checks, last), []);
  }

  lemma {:induction false} WalkNotify(session: nat, tweets: nat)
    ensures Walk(ScriptOf(Notify(session, tweets)), []) == Some(0)
  {
    var id := Outgoing(session);
    var last := [Leave(id)] + [];
    WalkLeave(id, Writer, [], []);
    WalkPasses(tweets, Lou, Reader, last, [] + [Hold(id, Writer)]);
    WalkEnter(id, Writer, Passes(tweets, Lou, Reader, last), []);
  }

  /** Every operation, whatever branches it takes and however often it waits, follows the order and ends
      outside all sections; it leaves the gate behind exactly once for each of its failed follows. */
  lemma OperationsFollowTheOrder(op: Operation)
    ensures Walk(ScriptOf(op), []) == Some(FailuresOf(op))
  {
    match op
    case Speak(c, qs) => WalkSpeak(c, qs);
    case Enqueue(c) => WalkPass(Incoming(c), Writer, [], []);
    case SendOut(c) => WalkPass(Outgoing(c), Writer, [], []);
    case Pause(checks) => WalkPause(checks);
    case RetrieveDuplicates(waits) => WalkDuplicates(waits);
    case RetrievePending(copied, refs) => WalkPending(copied, refs);
    case Notify(c, n) => WalkNotify(c, n);
    case SaveOrLoad => WalkPass(DbGate, Writer, [], []);
    case NameLookup => WalkPass(Lou, Reader, [], []);
    case AddUser => WalkPass(Lou, Writer, [], []);
    case ConnectionCall => WalkPass(ConnSem, Writer, [], []);
  }

  // ----- which sections an operation enters, and how often

  function Times(todo: Script, i: LockId, r: Role): nat {
    if todo == [] then 0 else (if todo[0] == Enter(i, r) then 1 else 0) + Times(todo[1..], i, r)
  }

  lemma {:induction false} EntersEnter(id: LockId, role: Role, rest: Script, i: LockId, r: Role)
    ensures Times([Enter(id, role)] + rest, i, r) == (if i == id && r == role then 1 else 0) + Times(rest, i, r)
  {
    assert ([Enter(id, role)] + rest)[1..] == rest;
  }

  lemma {:induction false} EntersLeave(id: LockId, rest: Script, i: LockId, r: Role)
    ensures Times([Leave(id)] + rest, i, r) == Times(rest, i, r)
    ensures Times([Drop] + rest, i, r) == Times(rest, i, r)
  {
    assert ([Leave(id)] + rest)[1..] == rest && ([Drop] + rest)[1..] == rest;
  }

  lemma {:induction false} EntersPass(id: LockId, role: Role, rest: Script, i: LockId, r: Role)
    ensures Times(Pass(id, role, rest), i, r)
         == (if i == id && r == role then 1 else 0) + Times(rest, i, r)
  {
    EntersLeave(id, rest, i, r);
    EntersEnter(id, role, [Leave(id)] + rest, i, r);
  }

  lemma {:induction false} EntersPasses(n: nat, id: LockId, role: Role, rest: Script, i: LockId, r: Role)
    ensures Times(Passes(n, id, role, rest), i, r)
         == (if i == id && r == role then n else 0) + Times(rest, i, r)
  {
    if n > 0 {
      EntersPasses(n - 1, id, role, rest, i, r);
      EntersPass(id, role, Passes(n - 1, id, role, rest), i, r);
    }
  }

  lemma {:induction false} EntersTwice(rest: Script, i: LockId, r: Role)
    ensures Times(ConnTwice(rest), i, r)
         == (if i == ConnSem && r == Writer then 2 else 0) + Times(rest, i, r)
  {
    EntersPass(ConnSem, Writer, rest, i, r);
    EntersPass(ConnSem, Writer, Pass(ConnSem, Writer, rest), i, r);
  }

  lemma {:induction false} EntersPost(rest: Script, i: LockId, r: Role)
    ensures Times(PostScript(rest), i, r) == Times(rest, i, r)
      + (if r == Writer && i in {ListenerMutex, Lort, Lopt} then 1 else if r == Reader && i == Lof then 2 else 0)
  {
    var last := [Leave(ListenerMutex)] + rest;
    var forward := Pass(Lof, Reader, Pass(Lopt, Writer, last));
    EntersLeave(ListenerMutex, rest, i, r);
    EntersPass(Lopt, Writer, last, i, r);
    EntersPass(Lof, Reader, Pass(Lopt, Writer, last), i, r);
    EntersPass(Lort, Writer, forward, i, r);
    EntersPass(Lof, Reader, Pass(Lort, Writer, forward), i, r);
    EntersEnter(ListenerMutex, Writer, Pass(Lof, Reader, Pass(Lort, Writer, forward)), i, r);
  }

  lemma {:induction false} EntersUpdate(hasFollowers: bool, rest: Script, i: LockId, r: Role)
    ensures Times(UpdateScript(hasFollowers, rest), i, r) == Times(rest, i, r)
      + (if r == Writer then
           if i == TweetNum || (hasFollowers && i in {ListenerMutex, Lort, Lopt}) then 1 else 0
         else if i == DbGate then 1
         else if i == Lof then (if hasFollowers then 3 else 1)
         else 0)
  {
    var last := [Leave(DbGate)] + rest;
    var tail := if hasFollowers then PostScript(last) else last;
    EntersLeave(DbGate, rest, i, r);
    EntersPost(last, i, r);
    EntersPass(Lof, Reader, tail, i, r);
    EntersPass(TweetNum, Writer, Pass(Lof, Reader, tail), i, r);
    EntersEnter(DbGate, Reader, Pass(TweetNum, Writer, Pass(Lof, Reader, tail)), i, r);
  }

  lemma {:induction false} EntersFollow(targetExists: bool, alreadyFollowed: bool, rest: Script, i: LockId, r: Role)
    ensures Times(FollowScript(targetExists, alreadyFollowed, rest), i, r) == Times(rest, i, r)
      + (if r == Writer then (if i == Lof && targetExists && !alreadyFollowed then 1 else 0)
         else if i == DbGate || i == Lou || (i == Lof && targetExists) then 1 else 0)
  {
    var last := [Leave(DbGate)] + rest;
    var known := if alreadyFollowed then [Drop] + rest else Pass(Lof, Writer, last);
    var tail := if !targetExists then [Drop] + rest else Pass(Lof, Reader, known);
    EntersLeave(DbGate, rest, i, r);
    EntersPass(Lof, Writer, last, i, r);
    EntersPass(Lof, Reader, known, i, r);
    EntersPass(Lou, Reader, tail, i, r);
    EntersEnter(DbGate, Reader, Pass(Lou, Reader, tail), i, r);
  }

  /** What one request enters. */
  function RequestEnters(session: nat, q: Request, i: LockId, r: Role): nat {
    match q
    case Follow(targetExists, alreadyFollowed) =>
      if r == Writer then
        if i == Outgoing(session) || (i == Lof && targetExists && !alreadyFollowed) then 1 else 0
      else if i == DbGate || i == Lou || (i == Lof && targetExists) then 1 else 0
    case Update(hasFollowers) =>
      if r == Writer then
        if i == Outgoing(session) || i == TweetNum then 1
        else if hasFollowers && i in {ListenerMutex, Lort, Lopt} then 1
        else 0
      else if i == DbGate then 1
      else if i == Lof then (if hasFollowers then 3 else 1)
      else 0
  }

  function RequestsEnter(session: nat, qs: seq<Request>, i: LockId, r: Role): nat {
    if qs == [] then 0 else RequestEnters(session, qs[0], i, r) + RequestsEnter(session, qs[1..], i, r)
  }

  lemma {:induction false} EntersRequest(session: nat, q: Request, rest: Script, i: LockId, r: Role)
    ensures Times(RequestScript(session, q, rest), i, r) == RequestEnters(session, q, i, r) + Times(rest, i, r)
  {
    var reply := Pass(Outgoing(session), Writer, rest);
    EntersPass(Outgoing(session), Writer, rest, i, r);
    match q
    case Follow(targetExists, alreadyFollowed) => EntersFollow(targetExists, alreadyFollowed, reply, i, r);
    case Update(hasFollowers) => EntersUpdate(hasFollowers, reply, i, r);
  }

  lemma {:induction false} EntersRequests(session: nat, qs: seq<Request>, rest: Script, i: LockId, r: Role)
    ensures Times(RequestsScript(session, qs, rest), i, r) == RequestsEnter(session, qs, i, r) + Times(rest, i, r)
  {
    if qs != [] {
      EntersRequests(session, qs[1..], rest, i, r);
      EntersRequest(session, qs[0], RequestsScript(session, qs[1..], rest), i, r);
    }
  }

  lemma CountNext(qs: seq<Request>, q: Request)
    requires qs != []
    ensures multiset(qs)[q] == multiset(qs[1..])[q] + (if qs[0] == q then 1 else 0)
  {
    assert qs == [qs[0]] + qs[1..];
    assert multiset(qs) == multiset{qs[0]} + multiset(qs[1..]);
  }

  lemma {:induction false} CountAll(qs: seq<Request>)
    requires qs != []
    ensures var n, k := multiset(qs), multiset(qs[1..]);
      && n[Update(true)] == k[Update(true)] + (if qs[0] == Update(true) then 1 else 0)
      && n[Update(false)] == k[Update(false)] + (if qs[0] == Update(false) then 1 else 0)
      && n[Follow(true, true)] == k[Follow(true, true)] + (if qs[0] == Follow(true, true) then 1 else 0)
      && n[Follow(true, false)] == k[Follow(true, false)] + (if qs[0] == Follow(true, false) then 1 else 0)
      && n[Follow(false, true)] == k[Follow(false, true)] + (if qs[0] == Follow(false, true) then 1 else 0)
      && n[Follow(false, false)] == k[Follow(false, false)] + (if qs[0] == Follow(false, false) then 1 else 0)
  {
    CountNext(qs, Update(true));
    CountNext(qs, Update(false));
    CountNext(qs, Follow(true, true));
    CountNext(qs, Follow(true, false));
    CountNext(qs, Follow(false, true));
    CountNext(qs, Follow(false, false));
  }

  lemma RequestKind(q: Request)
    ensures q in {Update(true), Update(false), Follow(true, true), Follow(true, false), Follow(false, true),
                  Follow(false, false)}
  {
    match q
    case Follow(targetExists, alreadyFollowed) =>
      assert q == Follow(targetExists, alreadyFollowed);
    case Update(hasFollowers) => assert q == Update(hasFollowers);
  }

  lemma {:induction false} RequestKinds(qs: seq<Request>)
    ensures var n := multiset(qs);
      |qs| == n[Update(true)] + n[Update(false)] + n[Follow(true, true)] + n[Follow(true, false)]
              + n[Follow(false, true)] + n[Follow(false, false)]
  {
    if qs != [] {
      RequestKinds(qs[1..]);
      CountAll(qs);
      RequestKind(qs[0]);
    }
  }

  /** Requests by their kinds. */
  lemma {:induction false} RequestsWrite(session: nat, qs: seq<Request>, i: LockId)
    ensures var n := multiset(qs);
      RequestsEnter(session, qs, i, Writer) ==
        if i == Outgoing(session) then |qs|
        else if i == TweetNum then n[Update(true)] + n[Update(false)]
        else if i == ListenerMutex || i == Lort || i == Lopt then n[Update(true)]
        else if i == Lof then n[Follow(true, false)]
        else 0
  {
    if qs != [] {
      RequestsWrite(session, qs[1..], i);
      CountAll(qs);
      RequestKind(qs[0]);
    }
  }

  lemma {:induction false} RequestsRead(session: nat, qs: seq<Request>, i: LockId)
    ensures var n := multiset(qs);
      RequestsEnter(session, qs, i, Reader) ==
        if i == DbGate then |qs|
        else if i == Lou then |qs| - (n[Update(true)] + n[Update(false)])
        else if i == Lof then
          n[Follow(true, true)] + n[Follow(true, false)] + (n[Update(true)] + n[Update(false)]) + 2 * n[Update(true)]
        else 0
  {
    if qs != [] {
      RequestsRead(session, qs[1..], i);
      CountAll(qs);
      RequestKind(qs[0]);
    }
  }

  /** A speaker that empties its queue: each request passes the gate as a query and is answered under the
      outgoing queue's mutex. Each update takes a number and looks at the followers; each one with followers
      takes `listenerProceedMUT`, stores under LORT and forwards under LOPT, both as a writer, and counts the
      followers twice. Each follow looks up the name, then, if it is known, the followers, and is entered
      under LOF as a writer if it is new. Nothing else is entered. */
  lemma {:induction false} SpeakerEnters(session: nat, qs: seq<Request>, i: LockId, r: Role)
    ensures var n := multiset(qs);
      var known := n[Follow(true, true)] + n[Follow(true, false)];
      var updates := n[Update(true)] + n[Update(false)];
      Times(ScriptOf(Speak(session, qs)), i, r) ==
        if r == Writer then
          if i == Incoming(session) then 1
          else if i == Outgoing(session) then |qs|
          else if i == TweetNum then updates
          else if i == ListenerMutex || i == Lort || i == Lopt then n[Update(true)]
          else if i == Lof then n[Follow(true, false)]
          else 0
        else
          if i == DbGate then |qs|
          else if i == Lou then |qs| - updates
          else if i == Lof then known + updates + 2 * n[Update(true)]
          else 0
  {
    var id := Incoming(session);
    var last := [Leave(id)] + [];
    EntersLeave(id, [], i, r);
    EntersRequests(session, qs, last, i, r);
    EntersEnter(id, Writer, RequestsScript(session, qs, last), i, r);
    RequestsWrite(session, qs, i);
    RequestsRead(session, qs, i);
  }

  /** The follows that leave the gate behind, by their kinds. */
  lemma {:induction false} FailuresByKind(qs: seq<Request>)
    ensures var n := multiset(qs);
      Failures(qs) == n[Follow(false, false)] + n[Follow(false, true)] + n[Follow(true, true)]
  {
    if qs != [] {
      FailuresByKind(qs[1..]);
      CountAll(qs);
      RequestKind(qs[0]);
    }
  }

  lemma PostPart(rest: Script)
    ensures PostScript(rest)
         == [Enter(ListenerMutex, Writer), Enter(Lof, Reader), Leave(Lof), Enter(Lort, Writer), Leave(Lort)]
            + ([Enter(Lof, Reader), Leave(Lof), Enter(Lopt, Writer), Leave(Lopt), Leave(ListenerMutex)] + rest)
  {
  }

  /** A post in the order of its sections: number, look at the followers, then under `listenerProceedMUT`
      count, store, count again and forward. */
  lemma PostTrace(session: nat, rest: Script)
    ensures RequestScript(session, Update(true), rest)
         == [Enter(DbGate, Reader), Enter(TweetNum, Writer), Leave(TweetNum), Enter(Lof, Reader), Leave(Lof)]
            + ([Enter(ListenerMutex, Writer), Enter(Lof, Reader), Leave(Lof), Enter(Lort, Writer), Leave(Lort)]
            + ([Enter(Lof, Reader), Leave(Lof), Enter(Lopt, Writer), Leave(Lopt), Leave(ListenerMutex)]
            + ([Leave(DbGate)] + ([Enter(Outgoing(session), Writer)] + ([Leave(Outgoing(session))] + rest)))))
  {
    PostPart([Leave(DbGate)] + Pass(Outgoing(session), Writer, rest));
  }

  /** A new follow: look up the name, look for the follower, enter it. */
  lemma FollowTrace(session: nat, rest: Script)
    ensures RequestScript(session, Follow(true, false), rest)
         == [Enter(DbGate, Reader), Enter(Lou, Reader), Leave(Lou), Enter(Lof, Reader), Leave(Lof)]
            + [Enter(Lof, Writer), Leave(Lof), Leave(DbGate)]
            + [Enter(Outgoing(session), Writer), Leave(Outgoing(session))] + rest
    ensures RequestScript(session, Follow(true, true), rest)
         == [Enter(DbGate, Reader), Enter(Lou, Reader), Leave(Lou), Enter(Lof, Reader), Leave(Lof), Drop]
            + [Enter(Outgoing(session), Writer), Leave(Outgoing(session))] + rest
  {
  }

  /** The other requests, and the speaker around them. */
  lemma {:induction false} RequestTraces(session: nat, alreadyFollowed: bool, qs: seq<Request>, rest: Script)
    ensures RequestScript(session, Follow(false, alreadyFollowed), rest)
         == [Enter(DbGate, Reader), Enter(Lou, Reader), Leave(Lou), Drop]
            + [Enter(Outgoing(session), Writer), Leave(Outgoing(session))] + rest
    ensures RequestScript(session, Update(false), rest)
         == [Enter(DbGate, Reader), Enter(TweetNum, Writer), Leave(TweetNum), Enter(Lof, Reader), Leave(Lof)]
            + [Leave(DbGate), Enter(Outgoing(session), Writer), Leave(Outgoing(session))] + rest
    ensures ScriptOf(Speak(session, qs))
         == [Enter(Incoming(session), Writer)] + RequestsScript(session, qs, [Leave(Incoming(session))])
  {
    assert [Leave(Incoming(session))] + [] == [Leave(Incoming(session))];
  }

  /** The two looks at the connections. */
  lemma TwiceTrace(rest: Script)
    ensures ConnTwice(rest)
         == [Enter(ConnSem, Writer), Leave(ConnSem), Enter(ConnSem, Writer), Leave(ConnSem)] + rest
  {
  }

  /** The other way of a retrieval, ... */
  lemma DuplicatesTrace(waits: nat, rest: Script)
    ensures DuplicatesScript(waits, rest)
         == [Enter(Lopt, Reader)] + ([Leave(Lopt)] + ([Enter(DuplicateMutex, Writer)]
            + ConnTwice(DuplicateWaits(waits, [Leave(DuplicateMutex)]
            + ConnTwice([Enter(Lort, Reader)] + ([Leave(Lort)] + rest))))))
    ensures DuplicateWaits(0, rest) == rest
    ensures DuplicateWaits(waits + 1, rest)
         == [Leave(DuplicateMutex)] + ([Enter(DuplicateMutex, Writer)] + ConnTwice(DuplicateWaits(waits, rest)))
  {
  }

  /** ... and the checks of a waiting listener. */
  lemma {:induction false} ChecksTrace(rest: Script, cs: seq<Check>)
    ensures Checks([Sleep] + cs, rest) == [Leave(ListenerMutex)] + ([Enter(ListenerMutex, Writer)] + Checks(cs, rest))
    ensures Checks([DuplicateCheck] + cs, rest) == ConnTwice(Checks(cs, rest))
    ensures Checks([PendingCheck(false)] + cs, rest) == [Enter(Lopt, Reader)] + ([Leave(Lopt)] + Checks(cs, rest))
    ensures Checks([PendingCheck(true)] + cs, rest)
         == [Enter(Lopt, Reader)] + ConnTwice([Leave(Lopt)] + Checks(cs, rest))
  {
    assert ([Sleep] + cs)[1..] == cs && ([DuplicateCheck] + cs)[1..] == cs;
    assert ([PendingCheck(false)] + cs)[1..] == cs && ([PendingCheck(true)] + cs)[1..] == cs;
  }

  /** A retrieval: claim under LOPT, look up under LORT, look at the connections, copy, then release. */
  lemma {:induction false} RetrievalTrace(copied: nat, refs: nat, rest: Script)
    ensures PendingScript(copied, refs, rest)
         == [Enter(Lopt, Reader), Leave(Lopt), Enter(Lort, Reader), Leave(Lort)]
            + [Enter(ConnSem, Writer), Leave(ConnSem), Enter(ConnSem, Writer), Leave(ConnSem)]
            + Passes(2 * copied, ConnSem, Writer, Passes(refs, Lort, Writer, rest))
  {
  }

  lemma {:induction false} EntersWaits(n: nat, rest: Script, i: LockId, r: Role)
    ensures Times(DuplicateWaits(n, rest), i, r) == Times(rest, i, r)
      + (if r == Writer then (if i == DuplicateMutex then n else if i == ConnSem then 2 * n else 0) else 0)
  {
    if n > 0 {
      var fewer := DuplicateWaits(n - 1, rest);
      EntersWaits(n - 1, rest, i, r);
      EntersTwice(fewer, i, r);
      EntersEnter(DuplicateMutex, Writer, ConnTwice(fewer), i, r);
      EntersLeave(DuplicateMutex, [Enter(DuplicateMutex, Writer)] + ConnTwice(fewer), i, r);
    }
  }

  lemma {:induction false} EntersPendingScript(copied: nat, refs: nat, rest: Script, i: LockId, r: Role)
    ensures Times(PendingScript(copied, refs, rest), i, r) == Times(rest, i, r)
      + (if r == Reader then (if i == Lopt || i == Lort then 1 else 0)
         else if i == ConnSem then 2 + 2 * copied
         else if i == Lort then refs
         else 0)
  {
    var releases := Passes(refs, Lort, Writer, rest);
    var copies := Passes(2 * copied, ConnSem, Writer, releases);
    EntersPasses(refs, Lort, Writer, rest, i, r);
    EntersPasses(2 * copied, ConnSem, Writer, releases, i, r);
    EntersTwice(copies, i, r);
    EntersPass(Lort, Reader, ConnTwice(copies), i, r);
    EntersPass(Lopt, Reader, Pass(Lort, Reader, ConnTwice(copies)), i, r);
  }

  lemma {:induction false} EntersDuplicatesScript(waits: nat, rest: Script, i: LockId, r: Role)
    ensures Times(DuplicatesScript(waits, rest), i, r) == Times(rest, i, r)
      + (if r == Reader then (if i == Lopt || i == Lort then 1 else 0)
         else if i == ConnSem then 4 + 2 * waits
         else if i == DuplicateMutex then 1 + waits
         else 0)
  {
    var behind := ConnTwice(Pass(Lort, Reader, rest));
    var waiting := DuplicateWaits(waits, [Leave(DuplicateMutex)] + behind);
    EntersPass(Lort, Reader, rest, i, r);
    EntersTwice(Pass(Lort, Reader, rest), i, r);
    EntersLeave(DuplicateMutex, behind, i, r);
    EntersWaits(waits, [Leave(DuplicateMutex)] + behind, i, r);
    EntersTwice(waiting, i, r);
    EntersEnter(DuplicateMutex, Writer, ConnTwice(waiting), i, r);
    EntersPass(Lopt, Reader, [Enter(DuplicateMutex, Writer)] + ConnTwice(waiting), i, r);
  }

  /** Both ways of a retrieval pass the gate as a query and read LOPT, under which the pending list is copied
      and cleared, and LORT. One releases each reference under LORT as a writer and copies each tweet for a
      second connection; the other one looks at the connections under `LOPT_duplicate_mut`, again after each
      wait. */
  lemma {:induction false} RetrievalEnters(waits: nat, copied: nat, refs: nat, i: LockId, r: Role)
    ensures Times(ScriptOf(RetrievePending(copied, refs)), i, r) ==
      if r == Reader then (if i == DbGate || i == Lopt || i == Lort then 1 else 0)
      else if i == ConnSem then 2 + 2 * copied
      else if i == Lort then refs
      else 0
    ensures Times(ScriptOf(RetrieveDuplicates(waits)), i, r) ==
      if r == Reader then (if i == DbGate || i == Lopt || i == Lort then 1 else 0)
      else if i == ConnSem then 4 + 2 * waits
      else if i == DuplicateMutex then 1 + waits
      else 0
  {
    EntersPendingScript(copied, refs, [Leave(DbGate)] + [], i, r);
    EntersDuplicatesScript(waits, [Leave(DbGate)] + [], i, r);
    EntersLeave(DbGate, [], i, r);
    EntersEnter(DbGate, Reader, PendingScript(copied, refs, [Leave(DbGate)] + []), i, r);
    EntersEnter(DbGate, Reader, DuplicatesScript(waits, [Leave(DbGate)] + []), i, r);
  }

  lemma {:induction false} EntersCheck(c: Check, cs: seq<Check>, rest: Script, i: LockId, r: Role)
    ensures Times(Checks([c] + cs, rest), i, r) == Times(Checks(cs, rest), i, r)
      + (if r == Reader then (if i == Lopt && c.PendingCheck? then 1 else 0)
         else if i == ListenerMutex && c == Sleep then 1
         else if i == ConnSem && (c == DuplicateCheck || c == PendingCheck(true)) then 2
         else 0)
  {
    var tail := Checks(cs, rest);
    assert ([c] + cs)[1..] == cs;
    match c
    case DuplicateCheck => EntersTwice(tail, i, r);
    case PendingCheck(listWasEmpty) =>
      var inner := [Leave(Lopt)] + tail;
      EntersLeave(Lopt, tail, i, r);
      EntersTwice(inner, i, r);
      EntersEnter(Lopt, Reader, if listWasEmpty then ConnTwice(inner) else inner, i, r);
    case Sleep =>
      EntersEnter(ListenerMutex, Writer, tail, i, r);
      EntersLeave(ListenerMutex, [Enter(ListenerMutex, Writer)] + tail, i, r);
  }

  lemma {:induction false} EntersChecks(cs: seq<Check>, rest: Script, i: LockId, r: Role)
    ensures var n := multiset(cs);
      Times(Checks(cs, rest), i, r) == Times(rest, i, r)
      + (if r == Reader then (if i == Lopt then n[PendingCheck(true)] + n[PendingCheck(false)] else 0)
         else if i == ListenerMutex then n[Sleep]
         else if i == ConnSem then 2 * n[DuplicateCheck] + 2 * n[PendingCheck(true)]
         else 0)
  {
    if cs != [] {
      assert cs == [cs[0]] + cs[1..];
      assert multiset(cs) == multiset{cs[0]} + multiset(cs[1..]);
      EntersChecks(cs[1..], rest, i, r);
      EntersCheck(cs[0], cs[1..], rest, i, r);
    }
  }

  /** A waiting listener holds `listenerProceedMUT` but for its sleeps, and reads LOPT for each look at its
      pending list; one that puts out tweets looks up each author's name under the queue's mutex. */
  lemma {:induction false} ListenerEnters(checks: seq<Check>, session: nat, tweets: nat, i: LockId, r: Role)
    ensures var n := multiset(checks);
      Times(ScriptOf(Pause(checks)), i, r) ==
        if r == Reader then (if i == Lopt then n[PendingCheck(true)] + n[PendingCheck(false)] else 0)
        else if i == ListenerMutex then 1 + n[Sleep]
        else if i == ConnSem then 2 * n[DuplicateCheck] + 2 * n[PendingCheck(true)]
        else 0
    ensures Times(ScriptOf(Notify(session, tweets)), i, r) ==
      if r == Reader then (if i == Lou then tweets else 0)
      else if i == Outgoing(session) then 1
      else 0
  {
    var last, last' := [Leave(ListenerMutex)] + [], [Leave(Outgoing(session))] + [];
    EntersLeave(ListenerMutex, [], i, r);
    EntersChecks(checks, last, i, r);
    EntersEnter(ListenerMutex, Writer, Checks(checks, last), i, r);
    EntersLeave(Outgoing(session), [], i, r);
    EntersPasses(tweets, Lou, Reader, last', i, r);
    EntersEnter(Outgoing(session), Writer, Passes(tweets, Lou, Reader, last'), i, r);
  }

  /** The operations of one section. */
  lemma SingleSections(c: nat)
    ensures ScriptOf(SaveOrLoad) == [Enter(DbGate, Writer), Leave(DbGate)]
    ensures ScriptOf(AddUser) == [Enter(Lou, Writer), Leave(Lou)]
    ensures ScriptOf(NameLookup) == [Enter(Lou, Reader), Leave(Lou)]
    ensures ScriptOf(ConnectionCall) == [Enter(ConnSem, Writer), Leave(ConnSem)]
    ensures ScriptOf(Enqueue(c)) == [Enter(Incoming(c), Writer), Leave(Incoming(c))]
    ensures ScriptOf(SendOut(c)) == [Enter(Outgoing(c), Writer), Leave(Outgoing(c))]
  {
  }

  // ----- which follows fail

  /** The follow that `postFollow` carries out on a database: its two early returns by what it finds. */
  function FollowOn(db: Delivery.Db, target: string, follower: nat): Request {
    match Delivery.IndexOf(db.names, target)
    case None => Follow(false, false)
    case Some(a) => Follow(true, a < |db.followers| && follower in db.followers[a])
  }

  predicate IsFirst(names: seq<string>, name: string, a: nat) {
    a < |names| && names[a] == name && forall k :: 0 <= k < a ==> names[k] != name
  }

  /** A follow leaves the gate if and only if it changes the database: the name exists and its first
      bearer is not yet followed. */
  lemma FollowLeavesGateIff(db: Delivery.Db, target: string, follower: nat)
    requires |db.names| == |db.followers|
    ensures var q := FollowOn(db, target, follower);
      q.Follow? && (q.targetExists <==> target in db.names)
    ensures !Fails(FollowOn(db, target, follower)) <==> Delivery.FollowDb(db, target, follower).1
    ensures Delivery.FollowDb(db, target, follower).1 <==>
      exists a :: 0 <= a < |db.names| && IsFirst(db.names, target, a) && follower !in db.followers[a]
  {
    Delivery.IndexInRange(db.names, target);
    if a :| 0 <= a < |db.names| && IsFirst(db.names, target, a) && follower !in db.followers[a] {
      Delivery.IndexOfFirst(db.names, target, a);
    }
    if Delivery.FollowDb(db, target, follower).1 {
      var a := Delivery.IndexOf(db.names, target).value;
      assert forall k :: 0 <= k < a ==> db.names[k] in db.names[..a];
      assert IsFirst(db.names, target, a);
    }
  }
}
