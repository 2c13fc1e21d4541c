/** The delivery engine with any number of threads, one step per access to shared data: numbering a
    tweet, counting the followers, storing, counting again, each forwarded reference, copying and
    clearing a pending list, each lookup and each release.

    Of the locks these effects are kept: `listenerProceedMUT` makes posting a tweet exclusive, LOPT keeps
    a forward from falling between the copy and the clear of a retrieval, and each scan or update of one
    follower list under LOF, or of one author's tweets under LORT, is one step. Every other interleaving
    is allowed; that a whole lookup loop is one section of LORT, for instance, is not used.

    Two effects are assumed although no lock gives them. `Forward` reads the follower list in one step; the
    loop at line 814 does so without LOF, against the `push_back` of a follow at line 773. `Copy` and
    `Clear` are one step each; two listeners of one user do them under the same shared lock of LOPT (lines
    898-899). */
module Interleaving {
  import opened Mailbox

  datatype Pc =
    | Idle
    | Numbered(user: nat, tweet: Tweet)                        // postUpdate: the id is assigned
    | Ready(user: nat, tweet: Tweet)                           // there is a follower; wants the mutex
    | Locked(user: nat, tweet: Tweet)                          // holds listenerProceedMUT
    | Counted(user: nat, tweet: Tweet)                         // the recipients are counted
    | Stored(user: nat, id: nat)                               // the tweet is in the author's list
    | Forwarding(user: nat, id: nat, total: nat, i: nat)       // counted again; i references are out
    | Checked(target: nat, follower: nat)                      // postFollow: not yet a follower
    | Copied(user: nat, refs: seq<Ref>)                        // retrieval: copied, not yet cleared
    | Looking(refs: seq<Ref>, i: nat, got: seq<Tweet>)
    | Releasing(refs: seq<Ref>, i: nat, got: seq<Tweet>)

  datatype State = State(
    followers: seq<seq<nat>>, store: Store, inboxes: Inboxes, numTweets: nat,
    poster: Option<nat>, threads: seq<Pc>)

  datatype Act =
    | Number(user: nat, tweet: Tweet) | CheckFollowers | Lock | Count | Push | Recount | Forward | Unlock
    | CheckFollow(target: nat, follower: nat) | Follow
    | Copy(user: nat) | Clear | Lookup | LookedUp | ReleaseOne | Finish

  // ----- steps

  predicate SomeCopied(threads: seq<Pc>) {
    exists t :: 0 <= t < |threads| && threads[t].Copied?
  }

  predicate InRange(s: State, user: nat) {
    user < |s.followers| && user < |s.store| && user < |s.inboxes|
  }

  predicate Can(s: State, t: nat, a: Act) {
    && t < |s.threads|
    && var pc := s.threads[t];
    match a
    case Number(user, _) => pc.Idle? && InRange(s, user)
    case CheckFollowers => pc.Numbered? && InRange(s, pc.user)
    case Lock => pc.Ready? && s.poster == None
    case Count => pc.Locked? && InRange(s, pc.user)
    case Push => pc.Counted? && InRange(s, pc.user)
    case Recount => pc.Stored? && InRange(s, pc.user)
    case Forward =>
      && pc.Forwarding? && InRange(s, pc.user) && pc.i < pc.total && pc.i < |s.followers[pc.user]|
      && s.followers[pc.user][pc.i] < |s.inboxes|
      && !SomeCopied(s.threads)
    case Unlock => pc.Forwarding? && pc.i == pc.total
    case CheckFollow(target, follower) =>
      pc.Idle? && InRange(s, target) && InRange(s, follower) && follower !in s.followers[target]
    case Follow => pc.Checked? && InRange(s, pc.target)
    case Copy(user) => pc.Idle? && InRange(s, user)
    case Clear => pc.Copied? && InRange(s, pc.user)
    case Lookup => pc.Looking? && pc.i < |pc.refs| && pc.refs[pc.i].user < |s.store|
    case LookedUp => pc.Looking? && pc.i == |pc.refs|
    case ReleaseOne => pc.Releasing? && pc.i < |pc.refs| && pc.refs[pc.i].user < |s.store|
    case Finish => pc.Releasing? && pc.i == |pc.refs|
  }

  function Do(s: State, t: nat, a: Act): State
    requires Can(s, t, a)
  {
    var pc := s.threads[t];
    match a
    case Number(user, tweet) =>
      s.(numTweets := s.numTweets + 1, threads := s.threads[t := Numbered(user, tweet.(id := s.numTweets))])
    case CheckFollowers =>
      s.(threads := s.threads[t := if s.followers[pc.user] == [] then Idle else Ready(pc.user, pc.tweet)])
    case Lock => s.(poster := Some(t), threads := s.threads[t := Locked(pc.user, pc.tweet)])
    case Count =>
      s.(threads := s.threads[t := Counted(pc.user, pc.tweet.(remaining := |s.followers[pc.user]|))])
    case Push =>
      s.(store := s.store[pc.user := s.store[pc.user] + [pc.tweet]],
         threads := s.threads[t := Stored(pc.user, pc.tweet.id)])
    case Recount => s.(threads := s.threads[t := Forwarding(pc.user, pc.id, |s.followers[pc.user]|, 0)])
    case Forward =>
      var to := s.followers[pc.user][pc.i];
      s.(inboxes := s.inboxes[to := s.inboxes[to] + [Ref(pc.user, pc.id)]],
         threads := s.threads[t := Forwarding(pc.user, pc.id, pc.total, pc.i + 1)])
    case Unlock => s.(poster := None, threads := s.threads[t := Idle])
    case CheckFollow(target, follower) => s.(threads := s.threads[t := Checked(target, follower)])
    case Follow =>
      s.(followers := s.followers[pc.target := s.followers[pc.target] + [pc.follower]], threads := s.threads[t := Idle])
    case Copy(user) => s.(threads := s.threads[t := Copied(user, s.inboxes[user])])
    case Clear =>
      s.(inboxes := s.inboxes[pc.user := []], threads := s.threads[t := Looking(pc.refs, 0, [])])
    case Lookup =>
      var found := Find(s.store[pc.refs[pc.i].user], pc.refs[pc.i].id);
      var got := if found.Some? then pc.got + [found.value] else pc.got;
      s.(threads := s.threads[t := Looking(pc.refs, pc.i + 1, got)])
    case LookedUp => s.(threads := s.threads[t := Releasing(pc.refs, 0, pc.got)])
    case ReleaseOne =>
      s.(store := ReleaseIn(s.store, pc.refs[pc.i]), threads := s.threads[t := Releasing(pc.refs, pc.i + 1, pc.got)])
    case Finish => s.(threads := s.threads[t := Idle])
  }

  /** Whether a thread can take a step depends on the other threads only through the lists, through the
      poster if it wants the mutex, and through copies under way if it forwards. So all other interleavings
      are allowed. */
  lemma StepsIgnoreOthers(s: State, s': State, t: nat, a: Act)
    requires t < |s.threads| && t < |s'.threads| && s.threads[t] == s'.threads[t]
    requires s.followers == s'.followers && |s.store| == |s'.store| && |s.inboxes| == |s'.inboxes|
    requires a == Lock ==> (s.poster == None <==> s'.poster == None)
    requires a == Forward ==> (SomeCopied(s.threads) <==> SomeCopied(s'.threads))
    ensures Can(s, t, a) <==> Can(s', t, a)
  {
  }

  // ----- who still owes or holds a reference

  /** References that a retrieval has claimed and not yet released. */
  function Claim(pc: Pc): multiset<Ref> {
    match pc
    case Copied(_, refs) => multiset(refs)
    case Looking(refs, _, _) => multiset(refs)
    case Releasing(refs, i, _) => if i <= |refs| then multiset(refs[i..]) else multiset{}
    case _ => multiset{}
  }

  function Claims(threads: seq<Pc>): multiset<Ref> {
    if threads == [] then multiset{} else Claim(threads[0]) + Claims(threads[1..])
  }

  /** Forward iterations still to run for `r` by a posting thread. */
  function ToForward(pc: Pc, followers: seq<seq<nat>>, r: Ref): nat {
    match pc
    case Counted(user, tweet) => if r == Ref(user, tweet.id) && user < |followers| then |followers[user]| else 0
    case Stored(user, id) => if r == Ref(user, id) && user < |followers| then |followers[user]| else 0
    case Forwarding(user, id, total, i) => if r == Ref(user, id) && i <= total then total - i else 0
    case _ => 0
  }

  /** The count of a tweet that is ready but not yet in the author's list. */
  function InHand(pc: Pc, r: Ref): nat {
    if pc.Counted? && r == Ref(pc.user, pc.tweet.id) then pc.tweet.remaining else 0
  }

  function PosterPc(s: State): Pc {
    if s.poster.Some? && s.poster.value < |s.threads| then s.threads[s.poster.value] else Idle
  }

  predicate Busy(threads: seq<Pc>, user: nat) {
    exists t :: 0 <= t < |threads| && threads[t].Copied? && threads[t].user == user
  }

  /** The pending lists without those already copied: these references count as claimed. */
  function Live(inboxes: Inboxes, threads: seq<Pc>): Inboxes {
    seq(|inboxes|, u requires 0 <= u < |inboxes| => if Busy(threads, u) then [] else inboxes[u])
  }

  /** Pending references, claimed references and forward iterations still to run. */
  function Outstanding(s: State, r: Ref): nat {
    AllRefs(Live(s.inboxes, s.threads))[r] + Claims(s.threads)[r] + ToForward(PosterPc(s), s.followers, r)
  }

  /** What the counters promise. */
  function Promised(s: State, r: Ref): nat {
    CountOf(s.store, r) + InHand(PosterPc(s), r)
  }

  function Excess(s: State, r: Ref): int {
    Outstanding(s, r) - Promised(s, r)
  }

  // ----- the two ways the code makes a surplus reference, and the one way it loses it

  /** A second listener of the same user copies a list that was copied but not yet cleared. */
  predicate DoubleClaim(s: State, a: Act) {
    a.Copy? && a.user < |s.inboxes| && Busy(s.threads, a.user) && s.inboxes[a.user] != []
  }

  /** A follow of an author lands between the two counts of that author's followers. */
  predicate LateFollow(s: State, t: nat, a: Act) {
    && a.Follow? && t < |s.threads| && s.threads[t].Checked?
    && (PosterPc(s).Counted? || PosterPc(s).Stored?)
    && PosterPc(s).user == s.threads[t].target
  }

  function PostedRef(pc: Pc): Ref
    requires pc.Counted? || pc.Stored?
  {
    Ref(pc.user, if pc.Counted? then pc.tweet.id else pc.id)
  }

  function Created(s: State, t: nat, a: Act, r: Ref): nat {
    if DoubleClaim(s, a) then multiset(s.inboxes[a.user])[r]
    else if LateFollow(s, t, a) && r == PostedRef(PosterPc(s)) then 1
    else 0
  }

  function Absorbed(s: State, t: nat, a: Act, r: Ref): nat
    requires Can(s, t, a)
  {
    if a.ReleaseOne? && r == s.threads[t].refs[s.threads[t].i] && CountOf(s.store, r) == 0 then 1 else 0
  }

  // ----- invariant

  predicate HasFreshId(pc: Pc) {
    pc.Numbered? || pc.Ready? || pc.Locked? || pc.Counted?
  }

  predicate Posting(pc: Pc) {
    pc.Locked? || pc.Counted? || pc.Stored? || pc.Forwarding?
  }

  predicate RefsIn(refs: seq<Ref>, n: nat) {
    forall i :: 0 <= i < |refs| ==> refs[i].user < n
  }

  predicate NotStored(s: State, user: nat, tweet: Tweet) {
    user < |s.store| && tweet.id < s.numTweets && Find(s.store[user], tweet.id).None?
  }

  predicate GoodPc(s: State, pc: Pc) {
    var n := |s.store|;
    match pc
    case Idle => true
    case Numbered(user, tweet) => NotStored(s, user, tweet)
    case Ready(user, tweet) => NotStored(s, user, tweet) && user < |s.followers| && s.followers[user] != []
    case Locked(user, tweet) => NotStored(s, user, tweet) && user < |s.followers| && s.followers[user] != []
    case Counted(user, tweet) =>
      && NotStored(s, user, tweet)
      && user < |s.followers| && 1 <= tweet.remaining <= |s.followers[user]|
    case Stored(user, id) => user < n
    case Forwarding(user, id, total, i) => user < n && user < |s.followers| && i <= total <= |s.followers[user]|
    case Checked(target, follower) => target < n && follower < n
    case Copied(user, refs) => user < n && RefsIn(refs, n)
    case Looking(refs, i, _) => RefsIn(refs, n) && i <= |refs|
    case Releasing(refs, i, _) => RefsIn(refs, n) && i <= |refs|
  }

  predicate Sizes(s: State) {
    |s.followers| == |s.store| == |s.inboxes|
  }

  predicate GoodLists(s: State) {
    && (forall a, i :: 0 <= a < |s.followers| && 0 <= i < |s.followers[a]| ==> s.followers[a][i] < |s.store|)
    && (forall u :: 0 <= u < |s.inboxes| ==> RefsIn(s.inboxes[u], |s.store|))
    && GoodStore(s.store, s.numTweets)
  }

  predicate GoodThreads(s: State) {
    && (forall t :: 0 <= t < |s.threads| ==> GoodPc(s, s.threads[t]))
    && (forall t :: 0 <= t < |s.threads| ==> (Posting(s.threads[t]) <==> s.poster == Some(t)))
    && (s.poster.Some? ==> s.poster.value < |s.threads|)
  }

  predicate FreshIdsDiffer(threads: seq<Pc>) {
    forall t, u :: 0 <= t < u < |threads| && HasFreshId(threads[t]) && HasFreshId(threads[u])
      ==> threads[t].tweet.id != threads[u].tweet.id
  }

  predicate Shape(s: State) {
    Sizes(s) && GoodLists(s) && GoodThreads(s) && FreshIdsDiffer(s.threads)
  }

  ghost predicate Good(s: State) {
    Shape(s) && forall r :: Excess(s, r) >= 0
  }

  // ----- every step keeps the shape

  /** A step that changes only its own thread, the poster, and grows follower lists or `numTweets`. */
  lemma OtherThreads(s: State, t: nat, a: Act)
    requires Shape(s) && Can(s, t, a) && !a.Push? && !a.ReleaseOne?
    ensures forall u :: 0 <= u < |s.threads| && u != t ==> GoodPc(Do(s, t, a), s.threads[u])
  {
  }

  lemma OwnNumber(s: State, t: nat, a: Act)
    requires Shape(s) && Can(s, t, a) && a.Number?
    ensures GoodPc(Do(s, t, a), Do(s, t, a).threads[t])
  {
    FindIn(s.store[a.user], s.numTweets);
  }

  lemma OwnOther(s: State, t: nat, a: Act)
    requires GoodLists(s) && Sizes(s) && Can(s, t, a) && GoodPc(s, s.threads[t]) && !a.Number?
    ensures GoodPc(Do(s, t, a), Do(s, t, a).threads[t])
  {
  }

  lemma OwnThread(s: State, t: nat, a: Act)
    requires Shape(s) && Can(s, t, a)
    ensures GoodPc(Do(s, t, a), Do(s, t, a).threads[t])
  {
    if a.Number? {
      OwnNumber(s, t, a);
    } else {
      OwnOther(s, t, a);
    }
  }

  lemma PosterStep(s: State, t: nat, a: Act)
    requires Shape(s) && Can(s, t, a)
    ensures var s' := Do(s, t, a);
      && (forall u :: 0 <= u < |s'.threads| ==> (Posting(s'.threads[u]) <==> s'.poster == Some(u)))
      && (s'.poster.Some? ==> s'.poster.value < |s'.threads|)
  {
    assert Posting(s.threads[t]) <==> s.poster == Some(t);
  }

  lemma FreshIdsUpdate(threads: seq<Pc>, t: nat, pc: Pc, bound: nat)
    requires t < |threads| && FreshIdsDiffer(threads)
    requires forall u :: 0 <= u < |threads| && HasFreshId(threads[u]) ==> threads[u].tweet.id < bound
    requires HasFreshId(pc) ==> pc.tweet.id == bound || (HasFreshId(threads[t]) && pc.tweet.id == threads[t].tweet.id)
    ensures FreshIdsDiffer(threads[t := pc])
  {
  }

  lemma FreshIdsStep(s: State, t: nat, a: Act)
    requires Shape(s) && Can(s, t, a)
    ensures FreshIdsDiffer(Do(s, t, a).threads)
  {
    var pc, pc' := s.threads[t], Do(s, t, a).threads[t];
    assert HasFreshId(pc') ==>
      if a.Number? then pc'.tweet.id == s.numTweets else HasFreshId(pc) && pc'.tweet.id == pc.tweet.id;
    FreshIdsUpdate(s.threads, t, pc', s.numTweets);
  }

  lemma ListsStep(s: State, t: nat, a: Act)
    requires Shape(s) && Can(s, t, a)
    ensures Sizes(Do(s, t, a)) && GoodLists(Do(s, t, a))
  {
    match a
    case Push => FindIn(s.store[s.threads[t].user], s.threads[t].tweet.id);
    case ReleaseOne => ReleaseCount(s.store, s.threads[t].refs[s.threads[t].i], s.numTweets);
    case _ =>
  }

  lemma ReleaseThreads(s: State, t: nat)
    requires Shape(s) && Can(s, t, ReleaseOne)
    ensures forall u :: 0 <= u < |s.threads| && u != t ==> GoodPc(Do(s, t, ReleaseOne), s.threads[u])
  {
    var pc, s' := s.threads[t], Do(s, t, ReleaseOne);
    var r := pc.refs[pc.i];
    forall u | 0 <= u < |s.threads| && u != t
      ensures GoodPc(s', s.threads[u])
    {
      if HasFreshId(s.threads[u]) {
        ReleaseFind(s.store[r.user], r.id, s.threads[u].tweet.id);
      }
    }
  }

  lemma PushThreads(s: State, t: nat)
    requires Shape(s) && Can(s, t, Push)
    ensures forall u :: 0 <= u < |s.threads| && u != t ==> GoodPc(Do(s, t, Push), s.threads[u])
  {
    var pc, s' := s.threads[t], Do(s, t, Push);
    forall u | 0 <= u < |s.threads| && u != t
      ensures GoodPc(s', s.threads[u])
    {
      if HasFreshId(s.threads[u]) {
        FindAppend(s.store[pc.user], pc.tweet, s.threads[u].tweet.id);
      }
    }
  }

  lemma ShapeStep(s: State, t: nat, a: Act)
    requires Shape(s) && Can(s, t, a)
    ensures Shape(Do(s, t, a))
  {
    ListsStep(s, t, a);
    PosterStep(s, t, a);
    FreshIdsStep(s, t, a);
    OwnThread(s, t, a);
    if a.Push? {
      PushThreads(s, t);
    } else if a.ReleaseOne? {
      ReleaseThreads(s, t);
    } else {
      OtherThreads(s, t, a);
    }
  }

  // ----- every step changes the excess by what it creates and absorbs

  lemma {:induction false} ClaimsUpdate(threads: seq<Pc>, t: nat, pc: Pc)
    requires t < |threads|
    ensures Claims(threads[t := pc]) + Claim(threads[t]) == Claims(threads) + Claim(pc)
  {
    if t == 0 {
      assert threads[t := pc][1..] == threads[1..];
    } else {
      assert threads[t := pc][1..] == threads[1..][t - 1 := pc] && threads[t := pc][0] == threads[0];
      ClaimsUpdate(threads[1..], t - 1, pc);
      var rest, rest' := Claims(threads[1..]), Claims(threads[1..][t - 1 := pc]);
      assert rest' + Claim(threads[t]) == rest + Claim(pc);
      assert (Claim(threads[0]) + rest') + Claim(threads[t]) == Claim(threads[0]) + (rest' + Claim(threads[t]));
    }
  }

  /** A move that neither starts nor ends a copy leaves the live lists alone. */
  lemma LiveKept(inboxes: Inboxes, threads: seq<Pc>, t: nat, pc: Pc)
    requires t < |threads| && !threads[t].Copied? && !pc.Copied?
    ensures Live(inboxes, threads[t := pc]) == Live(inboxes, threads)
  {
    forall u: nat
      ensures Busy(threads[t := pc], u) == Busy(threads, u)
    {
      if Busy(threads, u) {
        var k :| 0 <= k < |threads| && threads[k].Copied? && threads[k].user == u;
        assert threads[t := pc][k] == threads[k];
      }
    }
  }

  /** Forward iterations to run less the counts: the posting and counting side of the excess. */
  function Balance(s: State, r: Ref): int {
    ToForward(PosterPc(s), s.followers, r) - InHand(PosterPc(s), r) - CountOf(s.store, r)
  }

  lemma ClaimsKept(threads: seq<Pc>, t: nat, pc: Pc)
    requires t < |threads| && Claim(pc) == Claim(threads[t])
    ensures Claims(threads[t := pc]) == Claims(threads)
  {
    ClaimsUpdate(threads, t, pc);
    forall r
      ensures Claims(threads[t := pc])[r] == Claims(threads)[r]
    {
      assert (Claims(threads[t := pc]) + Claim(pc))[r] == (Claims(threads) + Claim(pc))[r];
    }
  }

  lemma PosterKept(s: State, t: nat, a: Act)
    requires Shape(s) && Can(s, t, a) && !Posting(s.threads[t]) && !a.Lock?
    ensures PosterPc(Do(s, t, a)) == PosterPc(s)
  {
    assert Posting(s.threads[t]) <==> s.poster == Some(t);
  }

  /** The balance of a step of the posting thread. */
  lemma PosterBalance(s: State, t: nat, a: Act, r: Ref)
    requires Shape(s) && Can(s, t, a) && (Posting(s.threads[t]) || a.Lock?)
    ensures Balance(Do(s, t, a), r) == Balance(s, r)
      - (if a.Forward? && r == Ref(s.threads[t].user, s.threads[t].id) then 1 else 0)
  {
    var pc := s.threads[t];
    assert Posting(pc) <==> s.poster == Some(t);
    if a.Push? {
      FindAppend(s.store[pc.user], pc.tweet, r.id);
    }
  }

  /** The balance of a step of any other thread. */
  lemma OtherBalance(s: State, t: nat, a: Act, r: Ref)
    requires Shape(s) && Can(s, t, a) && !Posting(s.threads[t]) && !a.Lock? && !a.ReleaseOne?
    ensures Balance(Do(s, t, a), r) == Balance(s, r)
      + (if LateFollow(s, t, a) && r == PostedRef(PosterPc(s)) then 1 else 0)
  {
    PosterKept(s, t, a);
    if s.poster.Some? {
      assert GoodPc(s, PosterPc(s));
    }
  }

  lemma ReleaseBalance(s: State, t: nat, r: Ref)
    requires Shape(s) && Can(s, t, ReleaseOne)
    ensures Balance(Do(s, t, ReleaseOne), r) == Balance(s, r)
      + (if r == s.threads[t].refs[s.threads[t].i] && CountOf(s.store, r) > 0 then 1 else 0)
  {
    PosterKept(s, t, ReleaseOne);
    ReleaseCount(s.store, s.threads[t].refs[s.threads[t].i], s.numTweets);
  }

  /** Steps that touch neither a pending list nor a claim. */
  lemma PlainParts(s: State, t: nat, a: Act)
    requires Can(s, t, a) && !(a.Forward? || a.Copy? || a.Clear? || a.ReleaseOne?)
    ensures Live(Do(s, t, a).inboxes, Do(s, t, a).threads) == Live(s.inboxes, s.threads)
    ensures Claims(Do(s, t, a).threads) == Claims(s.threads)
  {
    var pc, pc' := s.threads[t], Do(s, t, a).threads[t];
    if a.LookedUp? {
      assert pc.refs[0..] == pc.refs;
    }
    if a.Finish? {
      assert pc.refs[pc.i..] == [];
    }
    LiveKept(s.inboxes, s.threads, t, pc');
    ClaimsKept(s.threads, t, pc');
  }

  lemma ReleasingClaim(pc: Pc, r: Ref)
    requires pc.Releasing? && pc.i < |pc.refs|
    ensures Claim(pc)[r] == Claim(Releasing(pc.refs, pc.i + 1, pc.got))[r] + (if r == pc.refs[pc.i] then 1 else 0)
  {
    assert pc.refs[pc.i..] == [pc.refs[pc.i]] + pc.refs[pc.i + 1..];
  }

  lemma {:induction false} ReleaseClaims(threads: seq<Pc>, t: nat, r: Ref)
    requires t < |threads| && threads[t].Releasing? && threads[t].i < |threads[t].refs|
    ensures var pc := threads[t];
      Claims(threads[t := Releasing(pc.refs, pc.i + 1, pc.got)])[r] + (if r == pc.refs[pc.i] then 1 else 0)
      == Claims(threads)[r]
  {
    var pc := threads[t];
    var pc' := Releasing(pc.refs, pc.i + 1, pc.got);
    ClaimsUpdate(threads, t, pc');
    ReleasingClaim(pc, r);
    assert (Claims(threads[t := pc']) + Claim(pc))[r] == (Claims(threads) + Claim(pc'))[r];
  }

  lemma ForwardParts(s: State, t: nat, r: Ref)
    requires Can(s, t, Forward)
    ensures Claims(Do(s, t, Forward).threads) == Claims(s.threads)
    ensures AllRefs(Live(Do(s, t, Forward).inboxes, Do(s, t, Forward).threads))[r]
         == AllRefs(Live(s.inboxes, s.threads))[r] + (if r == Ref(s.threads[t].user, s.threads[t].id) then 1 else 0)
  {
    var pc, s' := s.threads[t], Do(s, t, Forward);
    var to := s.followers[pc.user][pc.i];
    var q := Ref(pc.user, pc.id);
    ClaimsKept(s.threads, t, s'.threads[t]);
    LiveKept(s'.inboxes, s.threads, t, s'.threads[t]);
    assert Live(s.inboxes, s.threads) == s.inboxes;
    assert Live(s'.inboxes, s.threads) == s'.inboxes;
    AllRefsUpdate(s.inboxes, to, s.inboxes[to] + [q]);
    assert (AllRefs(s'.inboxes) + multiset(s.inboxes[to]))[r]
        == (AllRefs(s.inboxes) + multiset(s.inboxes[to] + [q]))[r];
  }

  lemma BusyAfterCopy(threads: seq<Pc>, t: nat, user: nat, refs: seq<Ref>, u: nat)
    requires t < |threads| && !threads[t].Copied?
    ensures Busy(threads[t := Copied(user, refs)], u) == (u == user || Busy(threads, u))
  {
    var threads' := threads[t := Copied(user, refs)];
    assert threads'[t].Copied? && threads'[t].user == user;
    if Busy(threads, u) {
      var k :| 0 <= k < |threads| && threads[k].Copied? && threads[k].user == u;
      assert threads'[k] == threads[k];
    }
  }

  lemma CopyLive(inboxes: Inboxes, threads: seq<Pc>, t: nat, user: nat, r: Ref)
    requires t < |threads| && !threads[t].Copied? && user < |inboxes|
    ensures AllRefs(Live(inboxes, threads[t := Copied(user, inboxes[user])]))[r]
          + (if Busy(threads, user) then 0 else multiset(inboxes[user])[r])
         == AllRefs(Live(inboxes, threads))[r]
  {
    var live, live' := Live(inboxes, threads), Live(inboxes, threads[t := Copied(user, inboxes[user])]);
    forall u: nat {
      BusyAfterCopy(threads, t, user, inboxes[user], u);
    }
    assert live' == live[user := []];
    AllRefsUpdate(live, user, []);
    assert (AllRefs(live') + multiset(live[user]))[r] == (AllRefs(live) + multiset{})[r];
  }

  lemma CopyClaims(threads: seq<Pc>, t: nat, user: nat, refs: seq<Ref>, r: Ref)
    requires t < |threads| && threads[t].Idle?
    ensures Claims(threads[t := Copied(user, refs)])[r] == Claims(threads)[r] + multiset(refs)[r]
  {
    var pc := Copied(user, refs);
    ClaimsUpdate(threads, t, pc);
    assert (Claims(threads[t := pc]) + multiset{})[r] == (Claims(threads) + multiset(refs))[r];
  }

  /** Clearing a list that is copied changes no live list. */
  lemma ClearLive(inboxes: Inboxes, threads: seq<Pc>, t: nat, pc: Pc)
    requires t < |threads| && threads[t].Copied? && threads[t].user < |inboxes| && !pc.Copied?
    ensures Live(inboxes[threads[t].user := []], threads[t := pc]) == Live(inboxes, threads)
  {
    var user := threads[t].user;
    forall u: nat
      ensures u != user ==> Busy(threads[t := pc], u) == Busy(threads, u)
    {
      if u != user && Busy(threads, u) {
        var k :| 0 <= k < |threads| && threads[k].Copied? && threads[k].user == u;
        assert threads[t := pc][k] == threads[k];
      }
    }
  }

  /** References pending and claimed. */
  function Referenced(inboxes: Inboxes, threads: seq<Pc>, r: Ref): nat {
    AllRefs(Live(inboxes, threads))[r] + Claims(threads)[r]
  }

  function ReferencedChange(s: State, t: nat, a: Act, r: Ref): int
    requires Can(s, t, a)
  {
    var pc := s.threads[t];
    match a
    case Forward => if r == Ref(pc.user, pc.id) then 1 else 0
    case Copy(user) => if Busy(s.threads, user) then multiset(s.inboxes[user])[r] else 0
    case ReleaseOne => if r == pc.refs[pc.i] then -1 else 0
    case _ => 0
  }

  lemma CopyReferenced(s: State, t: nat, a: Act, r: Ref)
    requires Can(s, t, a) && a.Copy?
    ensures Referenced(Do(s, t, a).inboxes, Do(s, t, a).threads, r)
         == Referenced(s.inboxes, s.threads, r) + ReferencedChange(s, t, a, r)
  {
    CopyLive(s.inboxes, s.threads, t, a.user, r);
    CopyClaims(s.threads, t, a.user, s.inboxes[a.user], r);
  }

  lemma ClearReferenced(s: State, t: nat, a: Act, r: Ref)
    requires Can(s, t, a) && a.Clear?
    ensures Referenced(Do(s, t, a).inboxes, Do(s, t, a).threads, r)
         == Referenced(s.inboxes, s.threads, r) + ReferencedChange(s, t, a, r)
  {
    var pc := s.threads[t];
    ClearLive(s.inboxes, s.threads, t, Looking(pc.refs, 0, []));
    ClaimsKept(s.threads, t, Looking(pc.refs, 0, []));
  }

  lemma ReleaseParts(inboxes: Inboxes, threads: seq<Pc>, threads': seq<Pc>, t: nat, r: Ref)
    requires t < |threads| && threads[t].Releasing? && threads[t].i < |threads[t].refs|
    requires threads' == threads[t := Releasing(threads[t].refs, threads[t].i + 1, threads[t].got)]
    ensures Referenced(inboxes, threads', r)
         == Referenced(inboxes, threads, r) - (if r == threads[t].refs[threads[t].i] then 1 else 0)
  {
    LiveKept(inboxes, threads, t, threads'[t]);
    ReleaseClaims(threads, t, r);
  }

  lemma ReleaseEffect(s: State, t: nat, r: Ref)
    requires Can(s, t, ReleaseOne)
    ensures var pc, s' := s.threads[t], Do(s, t, ReleaseOne);
      && pc.Releasing? && pc.i < |pc.refs| && s'.inboxes == s.inboxes
      && s'.threads == s.threads[t := Releasing(pc.refs, pc.i + 1, pc.got)]
      && ReferencedChange(s, t, ReleaseOne, r) == if r == pc.refs[pc.i] then -1 else 0
  {
  }

  lemma ReleaseReferenced(s: State, t: nat, r: Ref)
    requires Can(s, t, ReleaseOne)
    ensures Referenced(Do(s, t, ReleaseOne).inboxes, Do(s, t, ReleaseOne).threads, r)
         == Referenced(s.inboxes, s.threads, r) + ReferencedChange(s, t, ReleaseOne, r)
  {
    ReleaseEffect(s, t, r);
    ReleaseParts(s.inboxes, s.threads, Do(s, t, ReleaseOne).threads, t, r);
  }

  lemma ForwardReferenced(s: State, t: nat, a: Act, r: Ref)
    requires Can(s, t, a) && a.Forward?
    ensures Referenced(Do(s, t, a).inboxes, Do(s, t, a).threads, r)
         == Referenced(s.inboxes, s.threads, r) + ReferencedChange(s, t, a, r)
  {
    ForwardParts(s, t, r);
  }

  lemma PlainReferenced(s: State, t: nat, a: Act, r: Ref)
    requires Can(s, t, a) && !(a.Forward? || a.Copy? || a.Clear? || a.ReleaseOne?)
    ensures Referenced(Do(s, t, a).inboxes, Do(s, t, a).threads, r)
         == Referenced(s.inboxes, s.threads, r) + ReferencedChange(s, t, a, r)
  {
    PlainParts(s, t, a);
  }

  lemma ReferencedStep(s: State, t: nat, a: Act, r: Ref)
    requires Can(s, t, a)
    ensures Referenced(Do(s, t, a).inboxes, Do(s, t, a).threads, r)
         == Referenced(s.inboxes, s.threads, r) + ReferencedChange(s, t, a, r)
  {
    if a.Forward? {
      ForwardReferenced(s, t, a, r);
    } else if a.Copy? {
      CopyReferenced(s, t, a, r);
    } else if a.Clear? {
      ClearReferenced(s, t, a, r);
    } else if a.ReleaseOne? {
      ReleaseReferenced(s, t, r);
    } else {
      PlainReferenced(s, t, a, r);
    }
  }

  lemma BalanceStep(s: State, t: nat, a: Act, r: Ref)
    requires Shape(s) && Can(s, t, a)
    ensures Balance(Do(s, t, a), r)
         == Balance(s, r) - ReferencedChange(s, t, a, r) + Created(s, t, a, r) - Absorbed(s, t, a, r)
  {
    if Posting(s.threads[t]) || a.Lock? {
      PosterBalance(s, t, a, r);
    } else if a.ReleaseOne? {
      ReleaseBalance(s, t, r);
    } else {
      OtherBalance(s, t, a, r);
    }
  }

  lemma ExcessSplit(s: State, r: Ref)
    ensures Excess(s, r) == Referenced(s.inboxes, s.threads, r) + Balance(s, r)
  {
  }

  /** The conservation law of the engine, in every interleaving: outstanding references exceed the
      counters by exactly what double claims and late follows have created and orphan releases have
      absorbed. */
  lemma ConservationStep(s: State, t: nat, a: Act, r: Ref)
    requires Shape(s) && Can(s, t, a)
    ensures Excess(Do(s, t, a), r) == Excess(s, r) + Created(s, t, a, r) - Absorbed(s, t, a, r)
  {
    ReferencedStep(s, t, a, r);
    BalanceStep(s, t, a, r);
    ExcessSplit(s, r);
    ExcessSplit(Do(s, t, a), r);
  }

  // ----- runs

  datatype Event = Event(thread: nat, act: Act)

  datatype Run = Run(states: seq<State>, events: seq<Event>)

  predicate StepOf(r: Run, i: nat)
    requires |r.states| == |r.events| + 1 && i < |r.events|
  {
    && Can(r.states[i], r.events[i].thread, r.events[i].act)
    && r.states[i + 1] == Do(r.states[i], r.events[i].thread, r.events[i].act)
  }

  predicate ValidRun(r: Run) {
    && |r.states| == |r.events| + 1
    && forall i :: 0 <= i < |r.events| ==> StepOf(r, i)
  }

  /** The thread that takes step `i`, before and after it. */
  function Mover(r: Run, i: nat): Pc
    requires ValidRun(r) && i < |r.events|
  {
    assert StepOf(r, i);
    r.states[i].threads[r.events[i].thread]
  }

  function Moved(r: Run, i: nat): Pc
    requires ValidRun(r) && i < |r.events|
  {
    assert StepOf(r, i);
    r.states[i + 1].threads[r.events[i].thread]
  }

  /** All threads are idle, the lists are in order and the counters exact. */
  ghost predicate Start(s: State) {
    && Shape(s) && s.poster == None
    && (forall t :: 0 <= t < |s.threads| ==> s.threads[t] == Idle)
    && (forall r :: CountOf(s.store, r) == AllRefs(s.inboxes)[r])
  }

  lemma {:induction false} ClaimsNone(threads: seq<Pc>)
    requires forall t :: 0 <= t < |threads| ==> threads[t] == Idle
    ensures Claims(threads) == multiset{}
  {
    if threads != [] {
      ClaimsNone(threads[1..]);
    }
  }

  /** With all threads idle, only pending references are outstanding. */
  lemma QuietOutstanding(s: State, r: Ref)
    requires forall t :: 0 <= t < |s.threads| ==> s.threads[t] == Idle
    ensures Outstanding(s, r) == AllRefs(s.inboxes)[r] && Promised(s, r) == CountOf(s.store, r)
  {
    ClaimsNone(s.threads);
    assert Live(s.inboxes, s.threads) == s.inboxes;
  }

  /** A server with any follower lists and no tweets yet is a start state. */
  lemma FreshIsStart(s: State)
    requires Sizes(s) && s.numTweets == 0 && s.poster == None
    requires forall t :: 0 <= t < |s.threads| ==> s.threads[t] == Idle
    requires forall a, i :: 0 <= a < |s.followers| && 0 <= i < |s.followers[a]| ==> s.followers[a][i] < |s.store|
    requires forall u :: 0 <= u < |s.store| ==> s.store[u] == [] && s.inboxes[u] == []
    ensures Start(s)
  {
    AllRefsEmpty(s.inboxes);
  }

  lemma GoodStart(s: State)
    requires Start(s)
    ensures Good(s) && forall r :: Excess(s, r) == 0
  {
    forall r {
      QuietOutstanding(s, r);
    }
  }

  lemma {:induction false} ClaimsContain(threads: seq<Pc>, t: nat)
    requires t < |threads|
    ensures Claim(threads[t]) <= Claims(threads)
  {
    if t > 0 {
      ClaimsContain(threads[1..], t - 1);
    }
  }

  /** A claimed reference is outstanding beyond anything still in the poster's hand. */
  lemma ClaimOutstanding(s: State, t: nat, r: Ref)
    requires Shape(s) && t < |s.threads| && r in Claim(s.threads[t])
    ensures Outstanding(s, r) >= 1 + InHand(PosterPc(s), r)
  {
    ClaimsContain(s.threads, t);
    assert Claims(s.threads)[r] >= 1;
    if s.poster.Some? {
      assert GoodPc(s, PosterPc(s));
    }
  }

  lemma GoodStep(s: State, t: nat, a: Act)
    requires Good(s) && Can(s, t, a)
    ensures Good(Do(s, t, a))
  {
    ShapeStep(s, t, a);
    forall r
      ensures Excess(Do(s, t, a), r) >= 0
    {
      ConservationStep(s, t, a, r);
      if Absorbed(s, t, a, r) > 0 {
        ClaimOutstanding(s, t, r);
      }
    }
  }

  lemma {:induction false} GoodRun(r: Run, i: nat)
    requires ValidRun(r) && Good(r.states[0]) && i < |r.states|
    ensures Good(r.states[i])
  {
    if i > 0 {
      GoodRun(r, i - 1);
      assert StepOf(r, i - 1);
      GoodStep(r.states[i - 1], r.events[i - 1].thread, r.events[i - 1].act);
    }
  }

  // ----- conservation over runs

  /** In every interleaving, also with concurrent follows and double claims: each stored tweet has at
      least one remaining recipient and at most as many as it has outstanding references. So the
      decrement never wraps, and no tweet outlives its last reference. */
  lemma WeakConservation(run: Run, i: nat, a: nat, k: nat)
    requires ValidRun(run) && Start(run.states[0]) && i < |run.states|
    requires a < |run.states[i].store| && k < |run.states[i].store[a]|
    ensures var t := run.states[i].store[a][k];
      && 1 <= t.remaining <= Outstanding(run.states[i], Ref(a, t.id))
      && Decrement(t.remaining) == t.remaining - 1
  {
    var s := run.states[i];
    var t := s.store[a][k];
    GoodStart(run.states[0]);
    GoodRun(run, i);
    assert GoodList(s.store[a], s.numTweets);
    FindAt(s.store[a], k);
    assert Excess(s, Ref(a, t.id)) >= 0;
  }

  /** Whenever all threads are idle and nothing is pending, no tweet is left behind. */
  lemma NothingLeftBehind(run: Run, i: nat)
    requires ValidRun(run) && Start(run.states[0]) && i < |run.states|
    requires forall t :: 0 <= t < |run.states[i].threads| ==> run.states[i].threads[t] == Idle
    requires forall u :: 0 <= u < |run.states[i].inboxes| ==> run.states[i].inboxes[u] == []
    ensures forall a :: 0 <= a < |run.states[i].store| ==> run.states[i].store[a] == []
  {
    var s := run.states[i];
    AllRefsEmpty(s.inboxes);
    forall a | 0 <= a < |s.store|
      ensures s.store[a] == []
    {
      if s.store[a] != [] {
        WeakConservation(run, i, a, 0);
        QuietOutstanding(s, Ref(a, s.store[a][0].id));
        assert false;
      }
    }
  }

  predicate Disturbs(s: State, e: Event) {
    DoubleClaim(s, e.act) || LateFollow(s, e.thread, e.act)
  }

  ghost predicate Exact(s: State) {
    forall r :: Excess(s, r) == 0
  }

  /** A disturbing step leaves some reference without a counted recipient. */
  lemma DisturbanceShows(s: State, e: Event)
    requires Good(s) && Can(s, e.thread, e.act) && Disturbs(s, e)
    ensures !Exact(Do(s, e.thread, e.act))
  {
    var r := if DoubleClaim(s, e.act) then s.inboxes[e.act.user][0] else PostedRef(PosterPc(s));
    ConservationStep(s, e.thread, e.act, r);
    assert Excess(s, r) >= 0;
    if DoubleClaim(s, e.act) {
      assert r in multiset(s.inboxes[e.act.user]);
    }
    assert Excess(Do(s, e.thread, e.act), r) > 0;
  }

  lemma ExactStep(s: State, e: Event)
    requires Good(s) && Exact(s) && Can(s, e.thread, e.act) && !Disturbs(s, e)
    ensures Exact(Do(s, e.thread, e.act))
  {
    GoodStep(s, e.thread, e.act);
    forall r
      ensures Excess(Do(s, e.thread, e.act), r) == 0
    {
      ConservationStep(s, e.thread, e.act, r);
      assert Excess(Do(s, e.thread, e.act), r) >= 0;
    }
  }

  lemma {:induction false} ExactPrefix(run: Run, i: nat)
    requires ValidRun(run) && Start(run.states[0]) && i < |run.states|
    requires forall j :: 0 <= j < i ==> !Disturbs(run.states[j], run.events[j])
    ensures Good(run.states[i]) && Exact(run.states[i])
  {
    GoodStart(run.states[0]);
    if i > 0 {
      ExactPrefix(run, i - 1);
      assert StepOf(run, i - 1);
      ExactStep(run.states[i - 1], run.events[i - 1]);
      GoodStep(run.states[i - 1], run.events[i - 1].thread, run.events[i - 1].act);
    }
  }

  /** Exact conservation holds in every state of a run if and only if no step of the run is a double
      claim or a late follow: then each counter equals pending plus claimed references plus forward
      iterations still to run. */
  lemma ExactIffUndisturbed(run: Run)
    requires ValidRun(run) && Start(run.states[0])
    ensures (forall i :: 0 <= i < |run.states| ==> Exact(run.states[i]))
      <==> (forall j :: 0 <= j < |run.events| ==> !Disturbs(run.states[j], run.events[j]))
  {
    GoodStart(run.states[0]);
    if forall j :: 0 <= j < |run.events| ==> !Disturbs(run.states[j], run.events[j]) {
      forall i | 0 <= i < |run.states|
        ensures Exact(run.states[i])
      {
        ExactPrefix(run, i);
      }
    } else {
      var j :| 0 <= j < |run.events| && Disturbs(run.states[j], run.events[j]);
      GoodRun(run, j);
      assert StepOf(run, j);
      DisturbanceShows(run.states[j], run.events[j]);
      assert !Exact(run.states[j + 1]);
    }
  }

  /** While the counters are exact every claimed reference resolves. */
  lemma ClaimsResolve(s: State, t: nat, r: Ref)
    requires Good(s) && Exact(s) && t < |s.threads| && r in Claim(s.threads[t])
    ensures r.user < |s.store| && Find(s.store[r.user], r.id).Some?
  {
    ClaimOutstanding(s, t, r);
    assert Excess(s, r) == 0;
    assert CountOf(s.store, r) >= 1;
  }

  /** In an undisturbed run every iteration of every lookup loop finds its tweet. */
  lemma LookupsSucceed(run: Run, i: nat)
    requires ValidRun(run) && Start(run.states[0]) && i < |run.events|
    requires forall j :: 0 <= j < i ==> !Disturbs(run.states[j], run.events[j])
    requires run.events[i].act == Lookup
    ensures var pc, pc' := Mover(run, i), Moved(run, i);
      && pc.Looking? && pc.i < |pc.refs| && pc'.Looking? && |pc'.got| == |pc.got| + 1
      && pc'.got[..|pc.got|] == pc.got && pc'.got[|pc.got|].id == pc.refs[pc.i].id
  {
    assert StepOf(run, i);
    var s, t := run.states[i], run.events[i].thread;
    var r := s.threads[t].refs[s.threads[t].i];
    ExactPrefix(run, i);
    assert r in s.threads[t].refs;
    ClaimsResolve(s, t, r);
    FindIn(s.store[r.user], r.id);
  }

  // ----- both disturbances happen

  function Exec(s: State, events: seq<Event>): Option<State>
    decreases |events|
  {
    if events == [] then Some(s)
    else if Can(s, events[0].thread, events[0].act) then Exec(Do(s, events[0].thread, events[0].act), events[1..])
    else None
  }

  /** One event of an execution. */
  lemma ExecNext(s: State, e: Event, rest: seq<Event>) returns (s': State)
    requires Can(s, e.thread, e.act)
    ensures s' == Do(s, e.thread, e.act)
    ensures Exec(s, [e] + rest) == Exec(s', rest)
  {
    s' := Do(s, e.thread, e.act);
    assert ([e] + rest)[1..] == rest;
  }

  const HELLO := Tweet(0, 0, 0, "hello", 1)

  /** User 0 has posted one tweet; user 1 has it pending and is connected twice. */
  const TWO_LISTENERS := State([[1], []], [[HELLO], []], [[], [Ref(0, 0)]], 1, None, [Idle, Idle])

  lemma {:induction false} FindHello(id: nat)
    ensures Find([HELLO], id) == if id == 0 then Some(HELLO) else None
    ensures Release([HELLO], 0) == []
  {
    assert [HELLO][1..] == [];
  }

  lemma TwoListenersStart()
    ensures Start(TWO_LISTENERS)
  {
    var s := TWO_LISTENERS;
    assert AllRefs(s.inboxes[1..][1..]) == multiset{};
    assert AllRefs(s.inboxes[1..]) == multiset{Ref(0, 0)};
    assert AllRefs(s.inboxes) == multiset{Ref(0, 0)};
    forall r
      ensures CountOf(s.store, r) == AllRefs(s.inboxes)[r]
    {
      FindHello(r.id);
      assert s.store[0] == [HELLO] && s.store[1] == [];
    }
  }

  const REFS := [Ref(0, 0)]

  /** Both listeners have copied the list and the first one has looked up: it releases. */
  lemma FirstReleases(s: State, rest: seq<Event>) returns (events: seq<Event>, s': State)
    requires s == State([[1], []], [[HELLO], []], [[], []], 1, None, [Looking(REFS, 1, [HELLO]), Copied(1, REFS)])
    ensures Exec(s, events) == Exec(s', rest)
    ensures s' == State([[1], []], [[], []], [[], []], 1, None, [Releasing(REFS, 1, [HELLO]), Copied(1, REFS)])
  {
    var e1 := [Event(0, ReleaseOne)] + rest;
    FindHello(0);
    s' := ExecNext(s, Event(0, LookedUp), e1);
    assert s'.threads == [Releasing(REFS, 0, [HELLO]), Copied(1, REFS)];
    s' := ExecNext(s', Event(0, ReleaseOne), rest);
    assert s'.store == [[], []] && s'.threads == [Releasing(REFS, 1, [HELLO]), Copied(1, REFS)];
    events := [Event(0, LookedUp)] + e1;
  }

  /** Both listeners have copied the list; the first one clears, looks up and releases. */
  lemma FirstListener(s: State, rest: seq<Event>) returns (events: seq<Event>, s': State)
    requires s == State([[1], []], [[HELLO], []], [[], REFS], 1, None, [Copied(1, REFS), Copied(1, REFS)])
    ensures Exec(s, events) == Exec(s', rest)
    ensures s' == State([[1], []], [[], []], [[], []], 1, None, [Releasing(REFS, 1, [HELLO]), Copied(1, REFS)])
  {
    var looked := State([[1], []], [[HELLO], []], [[], []], 1, None, [Looking(REFS, 1, [HELLO]), Copied(1, REFS)]);
    events, s' := FirstReleases(looked, rest);
    var e1 := [Event(0, Lookup)] + events;
    FindHello(0);
    var s1 := ExecNext(s, Event(0, Clear), e1);
    assert s1.inboxes == [[], []] && s1.threads == [Looking(REFS, 0, []), Copied(1, REFS)];
    var s2 := ExecNext(s1, Event(0, Lookup), events);
    assert [] + [HELLO] == [HELLO];
    assert s2.threads == looked.threads;
    events := [Event(0, Clear)] + e1;
  }

  /** Two listeners of one user copy the same pending list before either clears it: after the first
      has released, the second one's lookup finds nothing. */
  lemma DoubleClaimLosesTheTweet() returns (events: seq<Event>, s: State)
    ensures Start(TWO_LISTENERS) && Exec(TWO_LISTENERS, events) == Some(s)
    ensures |s.threads| == 2 && s.threads[1] == Looking(REFS, 1, []) && s.store == [[], []]
  {
    TwoListenersStart();
    var s1 := State([[1], []], [[HELLO], []], [[], REFS], 1, None, [Copied(1, REFS), Idle]);
    var s2 := s1.(threads := [Copied(1, REFS), Copied(1, REFS)]);
    var e4: seq<Event> := [Event(1, Lookup)] + [];
    var e3 := [Event(1, Clear)] + e4;
    var e2;
    e2, s := FirstListener(s2, e3);
    var e1 := [Event(1, Copy(1))] + e2;
    events := [Event(0, Copy(1))] + e1;
    var s' := ExecNext(TWO_LISTENERS, Event(0, Copy(1)), e1);
    assert s'.threads == s1.threads;
    s' := ExecNext(s', Event(1, Copy(1)), e2);
    assert s'.threads == s2.threads;
    s := ExecNext(s, Event(1, Clear), e4);
    assert s.threads[1] == Looking(REFS, 0, []) && s.store[0] == [];
    s := ExecNext(s, Event(1, Lookup), []);
  }

  /** User 0 has one follower, nobody has posted. */
  const QUIET := State([[1], [], []], [[], [], []], [[], [], []], 0, None, [Idle, Idle])

  /** A second follow of user 0 lands between the two counts of its followers. */
  lemma LateFollowHappens() returns (events: seq<Event>, s: State)
    ensures Start(QUIET) && Exec(QUIET, events) == Some(s)
    ensures Can(s, 1, Follow) && LateFollow(s, 1, Follow)
  {
    FreshIsStart(QUIET);
    var e4: seq<Event> := [Event(1, CheckFollow(0, 2))] + [];
    var e3 := [Event(0, Count)] + e4;
    var e2 := [Event(0, Lock)] + e3;
    var e1 := [Event(0, CheckFollowers)] + e2;
    events := [Event(0, Number(0, HELLO))] + e1;
    s := ExecNext(QUIET, Event(0, Number(0, HELLO)), e1);
    assert s.threads == [Numbered(0, HELLO), Idle];
    s := ExecNext(s, Event(0, CheckFollowers), e2);
    assert s.threads == [Ready(0, HELLO), Idle];
    s := ExecNext(s, Event(0, Lock), e3);
    assert s.threads == [Locked(0, HELLO), Idle];
    s := ExecNext(s, Event(0, Count), e4);
    assert s.threads == [Counted(0, HELLO), Idle];
    s := ExecNext(s, Event(1, CheckFollow(0, 2)), []);
    assert s.threads == [Counted(0, HELLO), Checked(0, 2)];
  }
}
