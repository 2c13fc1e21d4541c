/** What `connectionManager` is for: a map from connected users to a number of connections and the
    tweets still to be replayed on the second one. */
module Connections {
  import opened Mailbox

  datatype Entry = Entry(count: nat, buffer: seq<Tweet>)

  type Table = map<nat, Entry>

  function Register(m: Table, user: nat): (Table, bool) {
    if user !in m then (m[user := Entry(1, [])], true)
    else if m[user].count < 2 then (m[user := Entry(m[user].count + 1, m[user].buffer)], true)
    else (m, false)
  }

  function Close(m: Table, user: nat): (Table, bool) {
    if user !in m then (m, false)
    else if m[user].count == 2 then (m[user := Entry(1, [])], true)
    else (m - {user}, true)
  }

  function AddDuplicates(m: Table, user: nat, ts: seq<Tweet>): Table
    requires user in m
  {
    m[user := Entry(m[user].count, m[user].buffer + ts)]
  }

  function TakeDuplicates(m: Table, user: nat): (Table, seq<Tweet>)
    requires user in m
  {
    (m[user := Entry(m[user].count, [])], m[user].buffer)
  }

  predicate GoodTable(m: Table) {
    forall u :: u in m ==> 1 <= m[u].count <= 2 && (m[u].count == 1 ==> m[u].buffer == [])
  }

  function CountIn(m: Table, user: nat): nat {
    if user in m then m[user].count else 0
  }
}
