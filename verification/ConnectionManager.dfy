/** `connectionManager` as it is written: two parallel lists searched from the front. Each method
    stands for the whole of the source's method, taken as one critical section. */
module ConnectionManagers {
  import opened Mailbox
  import opened Connections

  datatype Tracker = Tracker(userID: nat, numConnections: nat)

  /** The table that two parallel lists stand for. */
  function TableOf(users: seq<Tracker>, duplicates: seq<seq<Tweet>>): Table
    requires |users| == |duplicates|
  {
    if users == [] then map[]
    else TableOf(users[1..], duplicates[1..])[users[0].userID := Entry(users[0].numConnections, duplicates[0])]
  }

  predicate Distinct(users: seq<Tracker>) {
    forall i, j :: 0 <= i < j < |users| ==> users[i].userID != users[j].userID
  }

  lemma {:induction false} TableHas(users: seq<Tracker>, duplicates: seq<seq<Tweet>>)
    requires |users| == |duplicates| && Distinct(users)
    ensures forall i :: 0 <= i < |users| ==>
      users[i].userID in TableOf(users, duplicates)
      && TableOf(users, duplicates)[users[i].userID] == Entry(users[i].numConnections, duplicates[i])
    ensures forall u :: u in TableOf(users, duplicates) ==> exists i :: 0 <= i < |users| && users[i].userID == u
  {
    if users != [] {
      TableHas(users[1..], duplicates[1..]);
      forall u | u in TableOf(users, duplicates)
        ensures exists i :: 0 <= i < |users| && users[i].userID == u
      {
        if u == users[0].userID {
          assert users[0].userID == u;
        } else {
          assert u in TableOf(users[1..], duplicates[1..]);
          var i :| 0 <= i < |users[1..]| && users[1..][i].userID == u;
          assert users[i + 1].userID == u;
        }
      }
    }
  }

  lemma {:induction false} TableSet(users: seq<Tracker>, duplicates: seq<seq<Tweet>>, i: nat, e: Entry)
    requires |users| == |duplicates| && Distinct(users) && i < |users|
    ensures TableOf(users[i := Tracker(users[i].userID, e.count)], duplicates[i := e.buffer])
         == TableOf(users, duplicates)[users[i].userID := e]
  {
    var users', duplicates' := users[i := Tracker(users[i].userID, e.count)], duplicates[i := e.buffer];
    if i == 0 {
      assert users'[1..] == users[1..] && duplicates'[1..] == duplicates[1..];
    } else {
      TableSet(users[1..], duplicates[1..], i - 1, e);
      assert users'[1..] == users[1..][i - 1 := users'[i]] && duplicates'[1..] == duplicates[1..][i - 1 := e.buffer];
    }
  }

  lemma {:induction false} TableAppend(users: seq<Tracker>, duplicates: seq<seq<Tweet>>, c: Tracker)
    requires |users| == |duplicates| && Distinct(users + [c])
    ensures TableOf(users + [c], duplicates + [[]])
         == TableOf(users, duplicates)[c.userID := Entry(c.numConnections, [])]
  {
    if users == [] {
      assert (users + [c])[1..] == [] && (duplicates + [[]])[1..] == [];
    } else {
      assert users[0].userID != c.userID by {
        assert (users + [c])[|users|] == c && (users + [c])[0] == users[0];
      }
      assert (users + [c])[1..] == users[1..] + [c] && (duplicates + [[]])[1..] == duplicates[1..] + [[]];
      TableAppend(users[1..], duplicates[1..], c);
    }
  }

  function Without<T>(s: seq<T>, i: nat): seq<T>
    requires i < |s|
  {
    s[..i] + s[i + 1..]
  }

  lemma DistinctWithout(users: seq<Tracker>, i: nat)
    requires Distinct(users) && i < |users|
    ensures Distinct(Without(users, i))
  {
    forall j, k | 0 <= j < k < |users| - 1
      ensures Without(users, i)[j].userID != Without(users, i)[k].userID
    {
      assert Without(users, i)[j] == users[if j < i then j else j + 1];
      assert Without(users, i)[k] == users[if k < i then k else k + 1];
    }
  }

  lemma WithoutFirst<T>(s: seq<T>)
    requires s != []
    ensures Without(s, 0) == s[1..]
  {
  }

  lemma WithoutLater<T>(s: seq<T>, i: nat)
    requires 0 < i < |s|
    ensures Without(s, i) == [s[0]] + Without(s[1..], i - 1)
  {
  }

  lemma {:induction false} TableWithout(users: seq<Tracker>, duplicates: seq<seq<Tweet>>, i: nat)
    requires |users| == |duplicates| && Distinct(users) && i < |users|
    ensures TableOf(Without(users, i), Without(duplicates, i)) == TableOf(users, duplicates) - {users[i].userID}
  {
    var tail, e := TableOf(users[1..], duplicates[1..]), Entry(users[0].numConnections, duplicates[0]);
    if i == 0 {
      WithoutFirst(users);
      WithoutFirst(duplicates);
      TableHas(users[1..], duplicates[1..]);
      assert tail[users[0].userID := e] - {users[0].userID} == tail;
    } else {
      TableWithout(users[1..], duplicates[1..], i - 1);
      WithoutLater(users, i);
      WithoutLater(duplicates, i);
      assert tail[users[0].userID := e] - {users[i].userID} == (tail - {users[i].userID})[users[0].userID := e];
    }
  }

  class ConnectionManager {
    var listOfConnectedUsers: seq<Tracker>
    var listOfDuplicatedTweets: seq<seq<Tweet>>

    predicate Valid()
      reads this
    {
      |listOfConnectedUsers| == |listOfDuplicatedTweets| && Distinct(listOfConnectedUsers)
    }

    function View(): Table
      reads this
      requires Valid()
    {
      TableOf(listOfConnectedUsers, listOfDuplicatedTweets)
    }

    constructor ()
      ensures Valid() && View() == map[]
    {
      listOfConnectedUsers, listOfDuplicatedTweets := [], [];
    }

    method RegisterConnection(userID: nat) returns (accepted: bool)
      requires Valid()
      modifies this
      ensures Valid() && (View(), accepted) == Register(old(View()), userID)
      ensures accepted <==> userID !in old(View()) || old(View())[userID].count < 2
    {
      TableHas(listOfConnectedUsers, listOfDuplicatedTweets);
      var i := 0;
      while i != |listOfConnectedUsers|
        invariant i <= |listOfConnectedUsers| && unchanged(this)
        invariant forall j :: 0 <= j < i ==> listOfConnectedUsers[j].userID != userID
      {
        if listOfConnectedUsers[i].userID == userID {
          var c := listOfConnectedUsers[i];
          if c.numConnections < 2 {
            ghost var e := Entry(c.numConnections + 1, listOfDuplicatedTweets[i]);
            TableSet(listOfConnectedUsers, listOfDuplicatedTweets, i, e);
            listOfConnectedUsers := listOfConnectedUsers[i := Tracker(userID, c.numConnections + 1)];
            assert listOfDuplicatedTweets[i := listOfDuplicatedTweets[i]] == listOfDuplicatedTweets;
            return true;
          } else {
            return false;
          }
        }
        i := i + 1;
      }
      TableAppend(listOfConnectedUsers, listOfDuplicatedTweets, Tracker(userID, 1));
      listOfConnectedUsers := listOfConnectedUsers + [Tracker(userID, 1)];
      listOfDuplicatedTweets := listOfDuplicatedTweets + [[]];
      return true;
    }

    /** The source reads the first element before it looks for the end. */
    method CloseConnection(userID: nat) returns (found: bool)
      requires Valid() && listOfConnectedUsers != []
      modifies this
      ensures Valid() && (View(), found) == Close(old(View()), userID)
      ensures found <==> userID in old(View())
    {
      TableHas(listOfConnectedUsers, listOfDuplicatedTweets);
      var i := 0;
      var more := true;
      while more
        invariant i <= |listOfConnectedUsers| && more == (i < |listOfConnectedUsers|) && unchanged(this)
        invariant forall j :: 0 <= j < i ==> listOfConnectedUsers[j].userID != userID
        decreases |listOfConnectedUsers| - i
      {
        var c := listOfConnectedUsers[i];
        if c.userID == userID {
          if c.numConnections == 2 {
            TableSet(listOfConnectedUsers, listOfDuplicatedTweets, i, Entry(1, []));
            listOfConnectedUsers := listOfConnectedUsers[i := Tracker(userID, c.numConnections - 1)];
            listOfDuplicatedTweets := listOfDuplicatedTweets[i := []];
          } else {
            DistinctWithout(listOfConnectedUsers, i);
            TableWithout(listOfConnectedUsers, listOfDuplicatedTweets, i);
            listOfConnectedUsers := listOfConnectedUsers[..i] + listOfConnectedUsers[i + 1..];
            listOfDuplicatedTweets := listOfDuplicatedTweets[..i] + listOfDuplicatedTweets[i + 1..];
          }
          return true;
        }
        i := i + 1;
        if i == |listOfConnectedUsers| {
          more := false;
        }
      }
      return false;
    }

    method GetConnectionIndex(userID: nat) returns (index: int)
      requires Valid()
      ensures userID !in View() ==> index == -1
      ensures userID in View() ==>
        && 0 <= index < |listOfConnectedUsers|
        && listOfConnectedUsers[index].userID == userID
        && View()[userID] == Entry(listOfConnectedUsers[index].numConnections, listOfDuplicatedTweets[index])
    {
      TableHas(listOfConnectedUsers, listOfDuplicatedTweets);
      index := 0;
      while index < |listOfConnectedUsers|
        invariant 0 <= index <= |listOfConnectedUsers|
        invariant forall j :: 0 <= j < index ==> listOfConnectedUsers[j].userID != userID
      {
        if listOfConnectedUsers[index].userID == userID {
          return;
        }
        index := index + 1;
      }
      index := -1;
    }

    method DoesClientHaveTwoConnections(userID: nat) returns (answer: bool)
      requires Valid() && userID in View()
      ensures answer <==> View()[userID].count == 2
    {
      var index := GetConnectionIndex(userID);
      answer := listOfConnectedUsers[index].numConnections == 2;
    }

    method RegisterDuplicateTweet(userID: nat, tweet: Tweet)
      requires Valid() && userID in View()
      modifies this
      ensures Valid() && View() == AddDuplicates(old(View()), userID, [tweet])
    {
      var index := GetConnectionIndex(userID);
      ghost var c := listOfConnectedUsers[index];
      ghost var e := Entry(c.numConnections, listOfDuplicatedTweets[index] + [tweet]);
      TableSet(listOfConnectedUsers, listOfDuplicatedTweets, index, e);
      assert listOfConnectedUsers[index := Tracker(userID, c.numConnections)] == listOfConnectedUsers;
      listOfDuplicatedTweets := listOfDuplicatedTweets[index := listOfDuplicatedTweets[index] + [tweet]];
    }

    method RetrieveDuplicateTweet(userID: nat) returns (tweets: seq<Tweet>)
      requires Valid() && userID in View()
      modifies this
      ensures Valid() && (View(), tweets) == TakeDuplicates(old(View()), userID)
    {
      var index := GetConnectionIndex(userID);
      ghost var c := listOfConnectedUsers[index];
      TableSet(listOfConnectedUsers, listOfDuplicatedTweets, index, Entry(c.numConnections, []));
      assert listOfConnectedUsers[index := Tracker(userID, c.numConnections)] == listOfConnectedUsers;
      tweets := listOfDuplicatedTweets[index];
      listOfDuplicatedTweets := listOfDuplicatedTweets[index := []];
    }

    /** An unauthenticated session asks with id -1, which is 2^32 - 1 as a `uint32_t`. */
    method DoesClientHaveDuplicateTweets(userID: nat) returns (answer: bool)
      requires Valid() && (userID == 0xFFFF_FFFF || userID in View())
      ensures answer <==> userID != 0xFFFF_FFFF && View()[userID].buffer != []
    {
      if userID == 0xFFFF_FFFF {
        return false;
      }
      var index := GetConnectionIndex(userID);
      answer := |listOfDuplicatedTweets[index]| != 0;
    }
  }
}
