/** One client's session: the connector handles packets and sends what is queued, the speaker carries
    out requests, the listener fetches tweets. Each method is what one of the three threads does while
    it holds the mutex of a queue. */
module Sessions {
  import opened Mailbox
  import opened Connections
  import opened Delivery
  import opened ConnectionManagers
  import opened DatabaseManagers
  import opened Pipeline

  /** The id under which a client index is registered: -1 is 2^32 - 1 as a `uint32_t`. */
  function UserId(clientIndex: int): nat
    requires clientIndex >= -1
  {
    if clientIndex == -1 then 0xFFFF_FFFF else clientIndex
  }

  /** What goes straight to the socket; `text` is None where the code leaves the payload unset. The other
      fields are never set. */
  datatype Answer = Answer(kind: Type, text: Option<string>)

  /** A sign-in under an unknown name enters none of the users, but the id 2^32 - 1. */
  lemma UnknownRegistersNobody(m: Table)
    ensures forall u :: 0 <= u < 0xFFFF_FFFF ==>
      CountIn(Connections.Register(m, UserId(-1)).0, u) == CountIn(m, u)
    ensures UserId(-1) == 0xFFFF_FFFF && forall i: nat :: UserId(i) == i
  {
  }

  class Session {
    const db: DatabaseManager
    var clientIndex: int
    var clientShutdownNotice: bool
    var incoming: seq<Message>
    var outgoing: seq<Message>
    ghost var arrived: seq<Message>    // what the authenticated client has sent
    ghost var served: seq<Message>     // what the speaker has carried out
    ghost var executed: seq<Request>   // the same, and for whom
    ghost var enqueued: seq<Message>   // what speaker and listener have put out
    ghost var sent: seq<Message>       // what the socket has taken
    ghost var broken: bool             // the socket has refused a message
    ghost var start: Service           // the service when the session began
    ghost var history: seq<Op>         // what the session has done to it

    // Nothing is lost, repeated or reordered between arrival, queue, database, replies and socket. A
    // method that keeps one of the following leaves the others out of its frame.

    /** What arrived is executed or queued, in arrival order. */
    ghost predicate Queues()
      reads this`served, this`incoming, this`arrived
    {
      served + incoming == Requests(arrived)
    }

    /** Each executed request has its reply, in order, and what was put out is sent or queued. */
    ghost predicate Answers()
      reads this`served, this`outgoing, this`enqueued, this`sent, this`broken
    {
      Acks(enqueued) == Replies(served) && (!broken ==> sent + outgoing == enqueued)
    }

    /** The service is as the session's operations leave it; its follows and updates are the executed
        requests. */
    ghost predicate Records()
      reads this`served, this`executed, this`start, this`history, db, db.cm
    {
      && db.Valid() && db.cm.Valid()
      && MessagesOf(executed) == served
      && Keeps(start, history, executed, Service(db.View(), db.cm.View()))
      && Parallel(start.db) && AuthorsKnown(start)
    }

    /** Signed in as a user with lists. */
    ghost predicate SignedIn()
      reads this`clientIndex, db, db.cm
    {
      db.cm.Valid() && 0 <= clientIndex < |db.listOfFollowers| && clientIndex in db.cm.View()
    }

    /** No index yet, or that of a user whose connection is registered. */
    ghost predicate IndexIsSound()
      reads this`clientIndex, db, db.cm
    {
      clientIndex == -1 || (db.cm.Valid() && 0 <= clientIndex < |db.listOfUsers| && clientIndex in db.cm.View())
    }

    /** No follow names a user without lists. */
    ghost predicate FollowsHaveLists(ms: seq<Message>)
      reads db
    {
      forall i :: 0 <= i < |ms| && ms[i].kind == FOLLOW ==> db.HasLists(ms[i].payload)
    }

    ghost predicate Executable(ms: seq<Message>)
      reads db
    {
      (forall i :: 0 <= i < |ms| ==> IsRequest(ms[i])) && FollowsHaveLists(ms)
    }

    constructor (db: DatabaseManager)
      requires db.Valid() && db.cm.Valid() && AuthorsKnown(Service(db.View(), db.cm.View()))
      ensures Queues() && Answers() && Records() && this.db == db && start == Service(db.View(), db.cm.View())
      ensures clientIndex == -1 && !clientShutdownNotice && !broken
      ensures arrived == [] && served == [] && executed == [] && enqueued == [] && sent == [] && history == []
    {
      this.db := db;
      clientIndex, clientShutdownNotice, incoming, outgoing := -1, false, [], [];
      arrived, served, executed, enqueued, sent, broken := [], [], [], [], [], false;
      start, history := Service(db.View(), db.cm.View()), [];
    }

    /** Registers the connection under the client index, whatever that is. */
    method RegisterSelf() returns (accepted: bool)
      requires Records() && -1 <= clientIndex < |db.listOfUsers|
      modifies this`history, db.cm
      ensures Records() && IndexIsSound()
      ensures (db.cm.View(), accepted) == Connections.Register(old(db.cm.View()), UserId(clientIndex))
    {
      KeepsOperation(start, history, executed, Service(db.View(), db.cm.View()), Op.Register(UserId(clientIndex)));
      accepted := db.cm.RegisterConnection(UserId(clientIndex));
      history := history + [Op.Register(UserId(clientIndex))];
    }

    /** At any time, also again. `written` says whether the answer got through. */
    method SignIn(name: string, written: bool) returns (success: bool)
      requires Records()
      modifies this`clientIndex, this`clientShutdownNotice, this`history, db.cm
      ensures Records() && IndexIsSound()
      ensures clientIndex == match IndexOf(db.listOfUsers, name) case None => -1 case Some(i) => i
      ensures db.cm.View() == Connections.Register(old(db.cm.View()), UserId(clientIndex)).0
      ensures success <==> clientIndex != -1 && Connections.Register(old(db.cm.View()), UserId(clientIndex)).1
      ensures clientShutdownNotice <==> !success || !written
      ensures name !in db.listOfUsers ==>
        !success && forall u :: 0 <= u < 0xFFFF_FFFF ==> CountIn(db.cm.View(), u) == CountIn(old(db.cm.View()), u)
    {
      success := true;
      IndexInRange(db.listOfUsers, name);
      clientIndex := db.GetUserIndex(name);
      UnknownRegistersNobody(db.cm.View());
      if clientIndex == -1 {
        success := false;
      }
      var accepted := RegisterSelf();
      if !accepted {
        success := false;
      }
      clientShutdownNotice := !written || !success;
    }

    /** The connector's last two branches; a client that is not authenticated is refused, kinds of packet
        other than requests are dropped. */
    method Receive(pkt: Message) returns (refused: bool)
      requires Queues() && clientIndex >= -1 && pkt.kind != SIGN_IN && pkt.kind != SHUTDOWN_REQ
      modifies this`incoming, this`arrived
      ensures Queues()
      ensures refused <==> clientIndex == -1
      ensures arrived == if refused then old(arrived) else old(arrived) + [pkt]
      ensures incoming ==
        if !refused && (pkt.kind == FOLLOW || pkt.kind == UPDATE) then old(incoming) + [pkt] else old(incoming)
    {
      if clientIndex == -1 {
        return true;
      }
      arrived := arrived + [pkt];
      if pkt.kind == FOLLOW || pkt.kind == UPDATE {
        incoming := incoming + [pkt];
      }
      return false;
    }

    /** The connector's branches for one packet, but for the sign-in; the answer, if any, goes straight
        to the socket. */
    method Handle(pkt: Message, serverShutdown: bool) returns (answer: Option<Answer>)
      requires Queues() && clientIndex >= -1 && (serverShutdown || pkt.kind != SIGN_IN)
      modifies this`clientShutdownNotice, this`incoming, this`arrived
      ensures Queues()
      ensures serverShutdown ==> answer == Some(Answer(SHUTDOWN_REQ, None))
      ensures !serverShutdown && pkt.kind == SHUTDOWN_REQ ==> answer == Some(Answer(ACK, None))
      ensures !serverShutdown && pkt.kind != SHUTDOWN_REQ ==>
        answer == if clientIndex == -1 then Some(Answer(NACK, Some("User has not authenticated yet."))) else None
      ensures clientShutdownNotice <==> old(clientShutdownNotice) || serverShutdown || pkt.kind == SHUTDOWN_REQ
      ensures incoming ==
        if !serverShutdown && (pkt.kind == FOLLOW || pkt.kind == UPDATE) && clientIndex != -1
        then old(incoming) + [pkt] else old(incoming)
    {
      if serverShutdown || pkt.kind == SHUTDOWN_REQ {
        clientShutdownNotice := true;
        return Some(Answer(if serverShutdown then SHUTDOWN_REQ else ACK, None));
      }
      var refused := Receive(pkt);
      return if refused then Some(Answer(NACK, Some("User has not authenticated yet."))) else None;
    }

    /** One request, and one ACK whether it succeeded or not. */
    method CarryOut(curPkt: Message)
      requires db.Valid() && 0 <= clientIndex < |db.listOfFollowers|
      requires IsRequest(curPkt) && (curPkt.kind == FOLLOW ==> db.HasLists(curPkt.payload))
      modifies this`outgoing, db
      ensures db.Valid() && db.listOfUsers == old(db.listOfUsers)
      ensures |db.listOfFollowers| == old(|db.listOfFollowers|)
      ensures db.View() == Execute(old(db.View()), clientIndex, curPkt)
      ensures outgoing == old(outgoing) + [Message(ACK, curPkt.timestamp, curPkt.payload, None)]
    {
      if curPkt.kind == FOLLOW {
        var success := db.PostFollow(curPkt.payload, clientIndex);
      } else {
        var success := db.PostUpdate(clientIndex, Tweet(clientIndex, 0, curPkt.timestamp, curPkt.payload, 0));
      }
      outgoing := outgoing + [Message(ACK, curPkt.timestamp, curPkt.payload, None)];
    }

    method CarryOutAll()
      requires db.Valid() && 0 <= clientIndex < |db.listOfFollowers| && Executable(incoming)
      modifies this`outgoing, db
      ensures db.Valid() && db.listOfUsers == old(db.listOfUsers)
      ensures |db.listOfFollowers| == old(|db.listOfFollowers|)
      ensures outgoing == old(outgoing) + Replies(incoming)
      ensures db.View() == ExecuteAll(old(db.View()), clientIndex, incoming)
    {
      for i := 0 to |incoming|
        invariant db.Valid() && db.listOfUsers == old(db.listOfUsers)
        invariant |db.listOfFollowers| == old(|db.listOfFollowers|)
        invariant outgoing == old(outgoing) + Replies(incoming[..i])
        invariant db.View() == ExecuteAll(old(db.View()), clientIndex, incoming[..i])
      {
        assert incoming[..i + 1][..i] == incoming[..i];
        CarryOut(incoming[i]);
      }
      assert incoming[..|incoming|] == incoming;
    }

    /** The speaker's loop, and its entry in the session's history. */
    method ServeQueue()
      requires Records() && SignedIn() && Executable(incoming)
      modifies this`outgoing, this`served, this`executed, this`history, db
      ensures Records() && SignedIn()
      ensures served == old(served) + incoming && executed == old(executed) + By(clientIndex, incoming)
      ensures outgoing == old(outgoing) + Replies(incoming)
      ensures db.View() == ExecuteAll(old(db.View()), clientIndex, incoming)
    {
      ghost var rs := By(clientIndex, incoming);
      MessagesConcat(executed, clientIndex, incoming);
      KeepsRequests(start, history, executed, Service(db.View(), db.cm.View()), clientIndex, incoming);
      CarryOutAll();
      served, executed, history := served + incoming, executed + rs, history + OpsOf(rs);
    }

    /** Bookkeeping: the replies are put out. */
    ghost method NoteReplies(before: seq<Message>, queued: seq<Message>)
      requires Acks(enqueued) == Replies(before) && (!broken ==> sent + queued == enqueued)
      requires served == before + incoming && outgoing == queued + Replies(incoming)
      modifies this`enqueued
      ensures Answers()
    {
      AcksConcat(enqueued, Replies(incoming));
      AcksOfReplies(incoming);
      RepliesConcat(before, incoming);
      assert sent + (queued + Replies(incoming)) == (sent + queued) + Replies(incoming);
      enqueued := enqueued + Replies(incoming);
    }

    /** Every queued request is carried out in order and answered once. */
    method ServeAndAnswer()
      requires Answers() && Records() && SignedIn() && Executable(incoming)
      modifies this`outgoing, this`served, this`executed, this`enqueued, this`history, db
      ensures Answers() && Records() && SignedIn()
      ensures served == old(served) + incoming && executed == old(executed) + By(clientIndex, incoming)
      ensures outgoing == old(outgoing) + Replies(incoming)
      ensures db.View() == ExecuteAll(old(db.View()), clientIndex, incoming)
    {
      ghost var before, queued := served, outgoing;
      ServeQueue();
      NoteReplies(before, queued);
    }

    method ClearIncoming(ghost before: seq<Message>)
      requires before + incoming == Requests(arrived) && served == before + incoming
      modifies this`incoming
      ensures Queues() && incoming == [] && served == Requests(arrived)
    {
      incoming := [];
      assert served + [] == served;
    }

    /** The speaker under the mutex: the queue is served and emptied. */
    method Speak()
      requires Queues() && Answers() && Records() && SignedIn() && FollowsHaveLists(incoming)
      modifies this`incoming, this`outgoing, this`served, this`executed, this`enqueued, this`history, db
      ensures Queues() && Answers() && Records() && SignedIn()
      ensures incoming == [] && served == Requests(arrived)
      ensures executed == old(executed) + By(clientIndex, old(incoming))
      ensures outgoing == old(outgoing) + Replies(old(incoming))
      ensures db.View() == ExecuteAll(old(db.View()), clientIndex, old(incoming))
    {
      ghost var before := served;
      QueuedAreRequests(served, incoming, arrived);
      ServeAndAnswer();
      ClearIncoming(before);
    }

    method AppendNotices(tweets: seq<Tweet>)
      requires KnownTweets(tweets, |db.listOfUsers|)
      modifies this`outgoing
      ensures outgoing == old(outgoing) + Notices(db.listOfUsers, tweets)
    {
      for i := 0 to |tweets|
        invariant outgoing == old(outgoing) + Notices(db.listOfUsers, tweets[..i])
      {
        var userName := db.GetUserName(tweets[i].author);
        outgoing := outgoing + [Message(UPDATE, tweets[i].timestamp, tweets[i].payload, Some(userName))];
        assert tweets[..i + 1][..i] == tweets[..i];
      }
      assert tweets[..|tweets|] == tweets;
    }

    method PutOut(tweets: seq<Tweet>)
      requires Answers() && KnownTweets(tweets, |db.listOfUsers|)
      modifies this`outgoing, this`enqueued
      ensures Answers() && outgoing == old(outgoing) + Notices(db.listOfUsers, tweets)
    {
      ghost var notices := Notices(db.listOfUsers, tweets);
      AppendNotices(tweets);
      AcksConcat(enqueued, notices);
      AcksOfNotices(db.listOfUsers, tweets);
      assert Acks(enqueued) + [] == Acks(enqueued);
      assert (sent + old(outgoing)) + notices == sent + outgoing;
      enqueued := enqueued + notices;
    }

    /** One retrieval, and its entry in the session's history. */
    method Fetch() returns (received: seq<Tweet>)
      requires Records() && SignedIn()
      modifies this`history, db, db.cm
      ensures Records() && SignedIn() && KnownTweets(received, |db.listOfUsers|)
      ensures (Service(db.View(), db.cm.View()), received)
           == RetrieveService(Service(old(db.View()), old(db.cm.View())), clientIndex)
    {
      KeepsAuthors(start, history, executed, Service(db.View(), db.cm.View()));
      KeepsOperation(start, history, executed, Service(db.View(), db.cm.View()), Retrieve(clientIndex));
      received := db.RetrieveTweetsFromFollowed(clientIndex);
      history := history + [Retrieve(clientIndex)];
    }

    /** The listener once it may proceed: the tweets of one retrieval become notices, in order,
        each with the name of its author. */
    method Listen() returns (received: seq<Tweet>)
      requires Answers() && Records() && SignedIn()
      modifies this`outgoing, this`enqueued, this`history, db, db.cm
      ensures Answers() && Records() && SignedIn() && KnownTweets(received, |db.listOfUsers|)
      ensures (Service(db.View(), db.cm.View()), received)
           == RetrieveService(Service(old(db.View()), old(db.cm.View())), clientIndex)
      ensures outgoing == old(outgoing) + Notices(db.listOfUsers, received)
    {
      received := Fetch();
      PutOut(received);
    }

    /** The connector empties the outgoing queue: the socket takes the first `accepts` messages. If it
        refuses one, that message and the rest are dropped and the session ends. */
    method Send(accepts: nat)
      requires Answers()
      modifies this`outgoing, this`sent, this`broken, this`clientShutdownNotice
      ensures Answers() && outgoing == []
      ensures accepts >= |old(outgoing)| ==>
        sent == old(sent) + old(outgoing) && broken == old(broken) && clientShutdownNotice == old(clientShutdownNotice)
      ensures accepts < |old(outgoing)| ==>
        sent == old(sent) + old(outgoing)[..accepts] && broken && clientShutdownNotice
    {
      var i, sendBufferCond := 0, true;
      while i < |outgoing| && sendBufferCond
        invariant 0 <= i <= |outgoing| && outgoing == old(outgoing)
        invariant sendBufferCond ==> i <= accepts && sent == old(sent) + outgoing[..i]
        invariant sendBufferCond ==> broken == old(broken) && clientShutdownNotice == old(clientShutdownNotice)
        invariant !sendBufferCond ==> accepts < |outgoing| && sent == old(sent) + outgoing[..accepts]
        invariant !sendBufferCond ==> broken && clientShutdownNotice
        decreases |outgoing| - i, sendBufferCond
      {
        if i < accepts {
          sent := sent + [outgoing[i]];
        } else {
          clientShutdownNotice, sendBufferCond, broken := true, false, true;
        }
        i := i + 1;
      }
      assert outgoing[..|outgoing|] == outgoing;
      outgoing := [];
      assert sent + [] == sent;
    }
  }
}
