/** All sessions of the server and the connection table: when exactly the table counts the sessions that
    are there. A session registers at every sign-in, under the id that the name has or 2^32 - 1 if the
    name is unknown, and closes the id of its latest sign-in when it ends, whatever came of it. */
module LiveSessions {
  import opened Connections

  /** The id of a session that has not signed in, or under an unknown name. */
  const NOBODY := 0xFFFF_FFFF

  /** `held` are the registrations of the session that were accepted. */
  datatype Client = Gone | Live(id: nat, held: multiset<nat>)

  datatype State = State(table: Table, clients: seq<Client>)

  datatype Event = Arrive | SignIn(client: nat, user: nat) | End(client: nat)

  predicate IsLive(s: State, k: nat) {
    k < |s.clients| && s.clients[k].Live?
  }

  /** A close needs a table that is not empty: see `LastCloseIsUndefined`. */
  predicate Can(s: State, e: Event) {
    match e
    case Arrive => true
    case SignIn(k, _) => IsLive(s, k)
    case End(k) => IsLive(s, k) && s.table != map[]
  }

  function Do(s: State, e: Event): State
    requires Can(s, e)
  {
    match e
    case Arrive => s.(clients := s.clients + [Live(NOBODY, multiset{})])
    case SignIn(k, user) =>
      var (table, accepted) := Register(s.table, user);
      var held := s.clients[k].held + (if accepted then multiset{user} else multiset{});
      State(table, s.clients[k := Live(user, held)])
    case End(k) => State(Close(s.table, s.clients[k].id).0, s.clients[k := Gone])
  }

  datatype Run = Run(states: seq<State>, events: seq<Event>)

  predicate StepOf(r: Run, i: nat)
    requires i < |r.events| && |r.states| == |r.events| + 1
  {
    Can(r.states[i], r.events[i]) && r.states[i + 1] == Do(r.states[i], r.events[i])
  }

  predicate ValidRun(r: Run) {
    && |r.states| == |r.events| + 1
    && forall i :: 0 <= i < |r.events| ==> StepOf(r, i)
  }

  const EMPTY := State(map[], [])

  // ----- what the table should count

  function HeldBy(c: Client): multiset<nat> {
    if c.Live? then c.held else multiset{}
  }

  function AllHeld(clients: seq<Client>): multiset<nat> {
    if clients == [] then multiset{} else HeldBy(clients[0]) + AllHeld(clients[1..])
  }

  /** The table counts exactly the accepted registrations of the sessions that are there. */
  ghost predicate Counted(s: State) {
    forall u: nat :: CountIn(s.table, u) == AllHeld(s.clients)[u]
  }

  /** What a close of `id` takes from the table. */
  function Found(m: Table, id: nat): multiset<nat> {
    if id in m then multiset{id} else multiset{}
  }

  /** A session that ends takes from the table what it has put there. */
  predicate Fair(s: State, e: Event) {
    e.End? && IsLive(s, e.client) ==> s.clients[e.client].held == Found(s.table, s.clients[e.client].id)
  }

  lemma {:induction false} AllHeldUpdate(clients: seq<Client>, k: nat, c: Client, u: nat)
    requires k < |clients|
    ensures AllHeld(clients[k := c])[u] + HeldBy(clients[k])[u] == AllHeld(clients)[u] + HeldBy(c)[u]
  {
    if k == 0 {
      assert clients[k := c][1..] == clients[1..];
    } else {
      assert clients[k := c][1..] == clients[1..][k - 1 := c] && clients[k := c][0] == clients[0];
      AllHeldUpdate(clients[1..], k - 1, c, u);
    }
  }

  lemma {:induction false} AllHeldAppend(clients: seq<Client>, c: Client)
    ensures AllHeld(clients + [c]) == AllHeld(clients) + HeldBy(c)
  {
    if clients == [] {
      assert clients + [c] == [c];
      assert [c][1..] == [];
    } else {
      assert (clients + [c])[1..] == clients[1..] + [c];
      AllHeldAppend(clients[1..], c);
    }
  }

  lemma {:induction false} AllHeldHas(clients: seq<Client>, k: nat, u: nat)
    requires k < |clients|
    ensures HeldBy(clients[k])[u] <= AllHeld(clients)[u]
  {
    if k > 0 {
      AllHeldHas(clients[1..], k - 1, u);
    }
  }

  lemma SignInCounts(s: State, k: nat, user: nat, u: nat)
    requires GoodTable(s.table) && IsLive(s, k)
    ensures var s' := Do(s, SignIn(k, user));
      CountIn(s'.table, u) + AllHeld(s.clients)[u] == CountIn(s.table, u) + AllHeld(s'.clients)[u]
  {
    var s' := Do(s, SignIn(k, user));
    AllHeldUpdate(s.clients, k, s'.clients[k], u);
  }

  lemma EndCounts(s: State, k: nat, u: nat)
    requires GoodTable(s.table) && Can(s, End(k))
    ensures var s', c := Do(s, End(k)), s.clients[k];
      && CountIn(s'.table, u) + Found(s.table, c.id)[u] == CountIn(s.table, u)
      && AllHeld(s'.clients)[u] + c.held[u] == AllHeld(s.clients)[u]
  {
    AllHeldUpdate(s.clients, k, Gone, u);
  }

  lemma EndCountedIff(s: State, k: nat)
    requires GoodTable(s.table) && Counted(s) && Can(s, End(k))
    ensures Counted(Do(s, End(k))) <==> Fair(s, End(k))
  {
    var s', c := Do(s, End(k)), s.clients[k];
    forall u: nat
      ensures CountIn(s'.table, u) == AllHeld(s'.clients)[u] <==> c.held[u] == Found(s.table, c.id)[u]
    {
      EndCounts(s, k, u);
    }
    if Counted(s') {
      assert forall u: nat :: c.held[u] == Found(s.table, c.id)[u];
      assert c.held == Found(s.table, c.id);
    }
  }

  /** Whatever happens next, a table that counts right goes on doing so if and only if the event is not
      the end of a session that takes something else than it has put there. */
  lemma CountedStep(s: State, e: Event)
    requires GoodTable(s.table) && Counted(s) && Can(s, e)
    ensures GoodTable(Do(s, e).table)
    ensures Counted(Do(s, e)) <==> Fair(s, e)
  {
    match e
    case Arrive => AllHeldAppend(s.clients, Live(NOBODY, multiset{}));
    case SignIn(k, user) =>
      forall u: nat {
        SignInCounts(s, k, user, u);
      }
    case End(k) => EndCountedIff(s, k);
  }

  ghost predicate CountedUpTo(r: Run, n: nat)
    requires n < |r.states|
  {
    forall i :: 0 <= i <= n ==> Counted(r.states[i])
  }

  predicate FairUpTo(r: Run, n: nat)
    requires n <= |r.events| && n < |r.states|
  {
    forall i :: 0 <= i < n ==> Fair(r.states[i], r.events[i])
  }

  lemma {:induction false} TableStaysGood(r: Run, n: nat)
    requires ValidRun(r) && r.states[0] == EMPTY && n < |r.states|
    ensures GoodTable(r.states[n].table)
  {
    if n > 0 {
      TableStaysGood(r, n - 1);
      assert StepOf(r, n - 1);
    }
  }

  /** In any run from the start of the server, the table counts the sessions that are there in all states
      up to any time if and only if every session that ended before took what it had put there. */
  lemma {:induction false} CountsLiveSessionsIff(r: Run, n: nat)
    requires ValidRun(r) && r.states[0] == EMPTY && n < |r.states|
    ensures CountedUpTo(r, n) <==> FairUpTo(r, n)
  {
    if n > 0 {
      CountsLiveSessionsIff(r, n - 1);
      TableStaysGood(r, n - 1);
      assert StepOf(r, n - 1);
      if Counted(r.states[n - 1]) {
        CountedStep(r.states[n - 1], r.events[n - 1]);
      }
      assert CountedUpTo(r, n) <==> CountedUpTo(r, n - 1) && Counted(r.states[n]);
      assert FairUpTo(r, n) <==> FairUpTo(r, n - 1) && Fair(r.states[n - 1], r.events[n - 1]);
    }
  }

  /** What that is good for: every accepted session has its entry, so that its retrievals find one, and
      there are at most two accepted sessions of a user. */
  lemma CountedHasEntries(s: State, k: nat, user: nat)
    requires GoodTable(s.table) && Counted(s) && IsLive(s, k) && user in s.clients[k].held
    ensures user in s.table && AllHeld(s.clients)[user] <= 2
  {
    AllHeldHas(s.clients, k, user);
  }

  /** A session that has signed in once. */
  predicate Simple(c: Client) {
    c.Live? && (c.held == multiset{} || c.held == multiset{c.id})
  }

  /** For sessions that sign in once: one that was accepted ends fairly, one that was refused only if no
      accepted session of that user is there any more. */
  lemma RefusedIsFairIff(s: State, k: nat)
    requires GoodTable(s.table) && Counted(s) && IsLive(s, k) && Simple(s.clients[k])
    ensures Fair(s, End(k)) <==> s.clients[k].held != multiset{} || AllHeld(s.clients)[s.clients[k].id] == 0
  {
    var c := s.clients[k];
    if c.held == multiset{c.id} {
      CountedHasEntries(s, k, c.id);
    } else {
      assert CountIn(s.table, c.id) == AllHeld(s.clients)[c.id];
    }
  }

  /** A session that never signs in, or only under unknown names, counts and takes nothing of any user. */
  lemma UnknownTouchesNobody(s: State, k: nat, u: nat)
    requires IsLive(s, k) && u < 0xFFFF_FFFF
    ensures CountIn(Do(s, SignIn(k, NOBODY)).table, u) == CountIn(s.table, u)
    ensures s.clients[k].id == NOBODY && s.table != map[] ==> CountIn(Do(s, End(k)).table, u) == CountIn(s.table, u)
    ensures Do(s, Arrive).table == s.table && Do(s, Arrive).clients == s.clients + [Live(NOBODY, multiset{})]
  {
  }

  // ----- a close that the code does not provide for

  lemma Extend(r: Run, s: State, e: Event) returns (longer: Run, s': State)
    requires ValidRun(r) && s == r.states[|r.events|] && Can(s, e)
    ensures ValidRun(longer) && longer.states[0] == r.states[0]
    ensures s' == longer.states[|longer.events|] == Do(s, e)
  {
    s' := Do(s, e);
    longer := Run(r.states + [s'], r.events + [e]);
    forall i | 0 <= i < |longer.events|
      ensures StepOf(longer, i)
    {
      assert i < |r.events| ==> StepOf(r, i);
    }
  }

  /** Three sessions of a user; the third is refused. */
  lemma ThreeSignIn(user: nat) returns (r: Run, s: State)
    ensures ValidRun(r) && r.states[0] == EMPTY && s == r.states[|r.events|]
    ensures s == State(map[user := Entry(2, [])],
                       [Live(user, multiset{user}), Live(user, multiset{user}), Live(user, multiset{})])
  {
    r, s := Extend(Run([EMPTY], []), EMPTY, Arrive);
    r, s := Extend(r, s, Arrive);
    r, s := Extend(r, s, Arrive);
    assert s.clients == [Live(NOBODY, multiset{}), Live(NOBODY, multiset{}), Live(NOBODY, multiset{})];
    r, s := Extend(r, s, SignIn(0, user));
    assert s.clients[0] == Live(user, multiset{user});
    assert s.table == map[user := Entry(1, [])];
    r, s := Extend(r, s, SignIn(1, user));
    assert s.clients[1] == Live(user, multiset{user});
    assert s.table == map[user := Entry(2, [])];
    r, s := Extend(r, s, SignIn(2, user));
    assert s.clients[2] == Live(user, multiset{});
  }

  /** The refused session ends, then an accepted one; the other accepted one has lost its entry, and its
      close meets an empty table, which the code does not provide for. */
  lemma LastCloseIsUndefined(user: nat) returns (r: Run, s: State)
    ensures ValidRun(r) && r.states[0] == EMPTY && s == r.states[|r.events|]
    ensures IsLive(s, 1) && s.clients[1] == Live(user, multiset{user}) && user !in s.table
    ensures !Can(s, End(1))
  {
    r, s := ThreeSignIn(user);
    assert user in s.table;
    r, s := Extend(r, s, End(2));
    assert s.table == map[user := Entry(1, [])] && user in s.table;
    r, s := Extend(r, s, End(0));
    assert s.table == map[];
  }
}
