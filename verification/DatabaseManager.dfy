/** `databaseManager` as it is written: parallel lists changed in place by loops, each method proved
    against the operation of module Delivery that it carries out. */
module DatabaseManagers {
  import opened Mailbox
  import opened Connections
  import opened ConnectionManagers
  import opened Delivery

  // ----- the specification functions, seen from a loop

  lemma {:induction false} FindFirst(list: seq<Tweet>, id: nat, i: nat)
    requires i <= |list| && (forall k :: 0 <= k < i ==> list[k].id != id) && (i < |list| ==> list[i].id == id)
    ensures Find(list, id) == if i < |list| then Some(list[i]) else None
  {
    if i > 0 {
      FindFirst(list[1..], id, i - 1);
    }
  }

  lemma {:induction false} ReleaseFirst(list: seq<Tweet>, id: nat, i: nat)
    requires i <= |list| && (forall k :: 0 <= k < i ==> list[k].id != id) && (i < |list| ==> list[i].id == id)
    ensures i == |list| ==> Release(list, id) == list
    ensures i < |list| ==>
      var left := Decrement(list[i].remaining);
      Release(list, id) == if left == 0 then list[..i] + list[i + 1..] else list[i := list[i].(remaining := left)]
  {
    if i > 0 {
      ReleaseFirst(list[1..], id, i - 1);
      if i < |list| {
        assert list[..i] + list[i + 1..] == [list[0]] + (list[1..][..i - 1] + list[1..][i..]);
      }
    }
  }

  class DatabaseManager {
    var listOfUsers: seq<string>
    var listOfFollowers: seq<seq<nat>>
    var listOfReceivedTweets: seq<seq<Tweet>>
    var listOfPendingTweets: seq<seq<Ref>>
    var numTweets: nat
    const cm: ConnectionManager

    function View(): Db
      reads this
    {
      Db(listOfUsers, listOfFollowers, listOfReceivedTweets, listOfPendingTweets, numTweets)
    }

    /** Three lists are parallel and every index in them is one of theirs. There may be more users: a load
        adds some (see `Restart.RestartsAddUsers`). */
    predicate Valid()
      reads this
    {
      && |listOfFollowers| == |listOfReceivedTweets| == |listOfPendingTweets| <= |listOfUsers|
      && (forall a, i :: 0 <= a < |listOfFollowers| && 0 <= i < |listOfFollowers[a]| ==>
            listOfFollowers[a][i] < |listOfPendingTweets|)
      && (forall u, i :: 0 <= u < |listOfPendingTweets| && 0 <= i < |listOfPendingTweets[u]| ==>
            listOfPendingTweets[u][i].user < |listOfReceivedTweets|)
    }

    /** Unknown, or the name of a user with lists. A follow of another one would index out of range. */
    predicate HasLists(name: string)
      reads this
    {
      match IndexOf(listOfUsers, name)
      case None => true
      case Some(a) => a < |listOfFollowers|
    }

    constructor (cm: ConnectionManager)
      ensures Valid() && View() == Db([], [], [], [], 0) && this.cm == cm
    {
      listOfUsers, listOfFollowers, listOfReceivedTweets, listOfPendingTweets, numTweets := [], [], [], [], 0;
      this.cm := cm;
    }

    method AddUser(name: string)
      requires Valid()
      modifies this
      ensures Valid() && View() == AddUserDb(old(View()), name)
    {
      listOfUsers := listOfUsers + [name];
      listOfFollowers := listOfFollowers + [[]];
      listOfReceivedTweets := listOfReceivedTweets + [[]];
      listOfPendingTweets := listOfPendingTweets + [[]];
    }

    method GetUserIndex(name: string) returns (index: int)
      ensures index == match IndexOf(listOfUsers, name) case None => -1 case Some(i) => i
    {
      var n, i, loopCond := |listOfUsers|, 0, true;
      while i < n && loopCond
        invariant 0 <= i <= n == |listOfUsers| && forall k :: 0 <= k < i ==> listOfUsers[k] != name
        invariant !loopCond ==> i < n && listOfUsers[i] == name
        decreases n - i, loopCond
      {
        if listOfUsers[i] == name {
          loopCond := false;
        } else {
          i := i + 1;
        }
      }
      IndexOfFirst(listOfUsers, name, i);
      index := if loopCond then -1 else i;
    }

    method GetUserName(userID: nat) returns (name: string)
      requires userID < |listOfUsers|
      ensures name == listOfUsers[userID]
    {
      return listOfUsers[userID];
    }

    method AlreadyFollowed(targetUserID: nat, curUserID: nat) returns (answer: bool)
      requires targetUserID < |listOfFollowers|
      ensures answer <==> curUserID in listOfFollowers[targetUserID]
    {
      var n, i, loopCond := |listOfFollowers[targetUserID]|, 0, true;
      while i < n && loopCond
        invariant 0 <= i <= n == |listOfFollowers[targetUserID]|
        invariant curUserID !in listOfFollowers[targetUserID][..i]
        invariant !loopCond ==> i < n && listOfFollowers[targetUserID][i] == curUserID
        decreases n - i, loopCond
      {
        if listOfFollowers[targetUserID][i] == curUserID {
          loopCond := false;
        } else {
          i := i + 1;
        }
      }
      answer := !loopCond;
    }

    /** False also for a follow that is already there; nothing changes then. */
    method PostFollow(targetUserName: string, curUserID: nat) returns (success: bool)
      requires Valid() && curUserID < |listOfFollowers| && HasLists(targetUserName)
      modifies this
      ensures Valid() && (View(), success) == FollowDb(old(View()), targetUserName, curUserID)
    {
      IndexInRange(listOfUsers, targetUserName);
      var target := GetUserIndex(targetUserName);
      if target == -1 {
        return false;
      }
      var already := AlreadyFollowed(target, curUserID);
      if already {
        return false;
      }
      listOfFollowers := listOfFollowers[target := listOfFollowers[target] + [curUserID]];
      return true;
    }

    method RegisterUpdate(curUserID: nat, tweet: Tweet)
      requires Valid() && curUserID < |listOfFollowers|
      modifies this`listOfReceivedTweets
      ensures Valid()
      ensures listOfReceivedTweets == old(listOfReceivedTweets)[curUserID :=
        old(listOfReceivedTweets)[curUserID] + [tweet.(remaining := |listOfFollowers[curUserID]|)]]
    {
      var t := tweet.(remaining := |listOfFollowers[curUserID]|);
      listOfReceivedTweets := listOfReceivedTweets[curUserID := listOfReceivedTweets[curUserID] + [t]];
    }

    method ForwardUpdateToFollowers(curUserID: nat, tweetID: nat)
      requires Valid() && curUserID < |listOfFollowers|
      modifies this`listOfPendingTweets
      ensures Valid()
      ensures listOfPendingTweets
           == ForwardAll(old(listOfPendingTweets), listOfFollowers[curUserID], Ref(curUserID, tweetID))
    {
      ghost var to := listOfFollowers[curUserID];
      var followNum := |listOfFollowers[curUserID]|;
      for i := 0 to followNum
        invariant Valid()
        invariant listOfPendingTweets == ForwardAll(old(listOfPendingTweets), to[..i], Ref(curUserID, tweetID))
      {
        var target := listOfFollowers[curUserID][i];
        listOfPendingTweets := listOfPendingTweets[target := listOfPendingTweets[target] + [Ref(curUserID, tweetID)]];
        assert to[..i + 1][..i] == to[..i];
      }
      assert to[..followNum] == to;
    }

    method PostUpdate(userID: nat, tweet: Tweet) returns (success: bool)
      requires Valid() && userID < |listOfFollowers|
      modifies this
      ensures Valid() && View() == UpdateDb(old(View()), userID, tweet) && success
    {
      var numbered := tweet.(id := numTweets);
      numTweets := numTweets + 1;
      if |listOfFollowers[userID]| != 0 {
        RegisterUpdate(userID, numbered);
        ForwardUpdateToFollowers(userID, numbered.id);
      }
      return true;
    }

    method UpdateReceivedTweet(targetUserID: nat, tweetID: nat)
      requires Valid() && targetUserID < |listOfFollowers|
      modifies this`listOfReceivedTweets
      ensures Valid()
      ensures listOfReceivedTweets == ReleaseIn(old(listOfReceivedTweets), Ref(targetUserID, tweetID))
    {
      var i, loopCond := 0, true;
      ghost var list := listOfReceivedTweets[targetUserID];
      while loopCond
        invariant i <= |list| && forall k :: 0 <= k < i ==> list[k].id != tweetID
        invariant loopCond ==> listOfReceivedTweets == old(listOfReceivedTweets)
        invariant !loopCond ==> listOfReceivedTweets == ReleaseIn(old(listOfReceivedTweets), Ref(targetUserID, tweetID))
        decreases loopCond, |list| - i
      {
        if i >= |listOfReceivedTweets[targetUserID]| {
          ReleaseFirst(list, tweetID, i);
          assert old(listOfReceivedTweets)[targetUserID := list] == old(listOfReceivedTweets);
          loopCond := false;
        } else if listOfReceivedTweets[targetUserID][i].id == tweetID {
          ReleaseFirst(list, tweetID, i);
          var t := listOfReceivedTweets[targetUserID][i];
          var t' := t.(remaining := Decrement(t.remaining));
          listOfReceivedTweets := listOfReceivedTweets[targetUserID := listOfReceivedTweets[targetUserID][i := t']];
          if listOfReceivedTweets[targetUserID][i].remaining == 0 {
            var cur := listOfReceivedTweets[targetUserID];
            listOfReceivedTweets := listOfReceivedTweets[targetUserID := cur[..i] + cur[i + 1..]];
            assert cur[..i] + cur[i + 1..] == list[..i] + list[i + 1..];
          }
          loopCond := false;
        } else {
          i := i + 1;
        }
      }
    }

    method RetrievePendingTweets(userID: nat) returns (refs: seq<Ref>)
      requires Valid() && userID < |listOfFollowers|
      modifies this`listOfPendingTweets
      ensures Valid()
      ensures refs == old(listOfPendingTweets)[userID] && listOfPendingTweets == old(listOfPendingTweets)[userID := []]
    {
      refs := listOfPendingTweets[userID];
      listOfPendingTweets := listOfPendingTweets[userID := []];
    }

    /** The nested search of `retrieveTweetsFromFollowed`. */
    method LookUp(refs: seq<Ref>) returns (received: seq<Tweet>)
      requires Valid() && forall i :: 0 <= i < |refs| ==> refs[i].user < |listOfFollowers|
      ensures received == ResolveAll(listOfReceivedTweets, refs)
    {
      received := [];
      for i := 0 to |refs|
        invariant received == ResolveAll(listOfReceivedTweets, refs[..i])
      {
        var j, target := 0, refs[i].user;
        ghost var list, before := listOfReceivedTweets[target], received;
        while j < |listOfReceivedTweets[target]|
          invariant j <= |list| && forall k :: 0 <= k < j ==> list[k].id != refs[i].id
          invariant received == before
        {
          var curTweet := listOfReceivedTweets[target][j];
          if curTweet.id == refs[i].id {
            received := received + [curTweet];
            break;
          }
          j := j + 1;
        }
        FindFirst(list, refs[i].id, j);
        assert refs[..i + 1][..i] == refs[..i];
        assert before + [] == before;
      }
      assert refs[..|refs|] == refs;
    }

    method ReleaseReferences(refs: seq<Ref>)
      requires Valid() && forall i :: 0 <= i < |refs| ==> refs[i].user < |listOfFollowers|
      modifies this`listOfReceivedTweets
      ensures Valid() && listOfReceivedTweets == ReleaseAll(old(listOfReceivedTweets), refs)
    {
      for i := 0 to |refs|
        invariant Valid() && listOfReceivedTweets == ReleaseAll(old(listOfReceivedTweets), refs[..i])
      {
        UpdateReceivedTweet(refs[i].user, refs[i].id);
        assert refs[..i + 1][..i] == refs[..i];
      }
      assert refs[..|refs|] == refs;
    }

    method CopyToSecond(userID: nat, tweets: seq<Tweet>)
      requires cm.Valid() && userID in cm.View()
      modifies cm
      ensures cm.Valid() && cm.View() == AddDuplicates(old(cm.View()), userID, tweets)
    {
      assert old(cm.View()) == AddDuplicates(old(cm.View()), userID, []) by {
        assert old(cm.View())[userID].buffer + [] == old(cm.View())[userID].buffer;
      }
      for i := 0 to |tweets|
        invariant cm.Valid() && userID in cm.View()
        invariant cm.View() == AddDuplicates(old(cm.View()), userID, tweets[..i])
      {
        cm.RegisterDuplicateTweet(userID, tweets[i]);
        assert tweets[..i + 1] == tweets[..i] + [tweets[i]];
        ghost var buffer := old(cm.View())[userID].buffer;
        assert (buffer + tweets[..i]) + [tweets[i]] == buffer + tweets[..i + 1];
      }
      assert tweets[..|tweets|] == tweets;
    }

    /** The timed wait for another listener's duplicates is over when this goes on. */
    method RetrieveTweetsFromFollowed(userID: nat) returns (received: seq<Tweet>)
      requires Valid() && cm.Valid() && userID < |listOfFollowers| && userID in cm.View()
      modifies this, cm
      ensures Valid() && cm.Valid()
      ensures (Service(View(), cm.View()), received) == RetrieveService(Service(old(View()), old(cm.View())), userID)
    {
      var refs := RetrievePendingTweets(userID);
      if |refs| == 0 {
        received := cm.RetrieveDuplicateTweet(userID);
        assert listOfPendingTweets == old(listOfPendingTweets);
        return;
      }
      received := LookUp(refs);
      var two := cm.DoesClientHaveTwoConnections(userID);
      if two {
        CopyToSecond(userID, received);
      }
      ReleaseReferences(refs);
    }

    method DoesClientHavePendingTweets(userID: nat) returns (answer: bool)
      requires Valid() && cm.Valid() && userID < |listOfFollowers|
      requires listOfPendingTweets[userID] != [] || userID == 0xFFFF_FFFF || userID in cm.View()
      ensures answer <==> listOfPendingTweets[userID] != [] || (userID != 0xFFFF_FFFF && cm.View()[userID].buffer != [])
    {
      if |listOfPendingTweets[userID]| != 0 {
        answer := true;
      } else {
        answer := cm.DoesClientHaveDuplicateTweets(userID);
      }
    }
  }
}
