/** Queries over the join table itself, whose rows have a composite key and no ID: the columns
    they compile, the nodes they assign, and their two many-to-one edges. */
module JoinLoading {
  import opened Options
  import opened Sequences
  import opened EagerLoading

  datatype JoinColumn = AccountId | GroupId | Priority | CreatedAt

  const ALL_COLUMNS := [AccountId, GroupId, Priority, CreatedAt]

  datatype JoinTableRow = JoinTableRow(accountId: int, groupId: int, priority: int, createdAt: int)

  /** A node of the join table; a field whose column was not selected is zero. */
  class AccountGroup {
    const withAccount: bool
    const withGroup: bool
    var accountId: int
    var groupId: int
    var account: Neighbor?
    var group: Neighbor?

    constructor (withAccount: bool, withGroup: bool)
      ensures this.withAccount == withAccount && this.withGroup == withGroup
      ensures accountId == groupId == 0 && account == group == null
    {
      this.withAccount, this.withGroup := withAccount, withGroup;
      accountId, groupId, account, group := 0, 0, null, null;
    }

    method AssignValues(columns: seq<JoinColumn>, row: JoinTableRow)
      requires accountId == groupId == 0
      modifies `accountId, `groupId
      ensures accountId == if AccountId in columns then row.accountId else 0
      ensures groupId == if GroupId in columns then row.groupId else 0
    {
      for i := 0 to |columns|
        invariant accountId == if AccountId in columns[..i] then row.accountId else 0
        invariant groupId == if GroupId in columns[..i] then row.groupId else 0
      {
        assert columns[..i + 1] == columns[..i] + [columns[i]];
        match columns[i] {
          case AccountId => accountId := row.accountId;
          case GroupId => groupId := row.groupId;
          case Priority =>
          case CreatedAt =>
        }
      }
      assert columns[..|columns|] == columns;
    }

    function AccountOrErr(): Edge<Neighbor>
      reads this
    {
      if account != null then Found(account) else if withAccount then NotFound else NotLoaded
    }

    function GroupOrErr(): Edge<Neighbor>
      reads this
    {
      if group != null then Found(group) else if withGroup then NotFound else NotLoaded
    }
  }

  /** The column list: no ID, but the keys of the edges asked for. */
  method CompileColumns(fields: seq<JoinColumn>, withAccount: bool, withGroup: bool) returns (columns: seq<JoinColumn>)
    ensures fields == [] ==> columns == ALL_COLUMNS
    ensures fields != [] ==>
      columns == fields + (if withAccount && AccountId !in fields then [AccountId] else [])
                        + (if withGroup && GroupId !in fields then [GroupId] else [])
    ensures (withAccount ==> AccountId in columns) && (withGroup ==> GroupId in columns)
  {
    columns := ALL_COLUMNS;
    if |fields| > 0 {
      columns := [];
      for i := 0 to |fields|
        invariant columns == fields[..i]
      {
        columns := columns + [fields[i]];
      }
      if withAccount {
        columns := AddOnce(columns, AccountId);
      }
      if withGroup {
        columns := AddOnce(columns, GroupId);
      }
    }
  }

  // ----- The two edges -----

  /** Which of the two edges a loader fills. */
  datatype Side = AccountSide | GroupSide

  function KeyOf(n: AccountGroup, side: Side): int
    reads n
  {
    if side.AccountSide? then n.accountId else n.groupId
  }

  function EdgeOf(n: AccountGroup, side: Side): Neighbor?
    reads n
  {
    if side.AccountSide? then n.account else n.group
  }

  function Other(side: Side): Side {
    if side.AccountSide? then GroupSide else AccountSide
  }

  function Keys(nodes: seq<AccountGroup>, side: Side): (ks: seq<int>)
    reads nodes
    ensures |ks| == |nodes| && forall i :: 0 <= i < |ks| ==> ks[i] == KeyOf(nodes[i], side)
  {
    if nodes == [] then [] else Keys(Front(nodes), side) + [KeyOf(Last(nodes), side)]
  }

  /** The nodes at the positions that hold `key`. */
  function Having(nodes: seq<AccountGroup>, keys: seq<int>, key: int): seq<AccountGroup>
    requires |keys| == |nodes|
  {
    if nodes == [] then []
    else if Last(keys) == key then Having(Front(nodes), Front(keys), key) + [Last(nodes)]
    else Having(Front(nodes), Front(keys), key)
  }

  /** A node that comes twice has the same key both times. */
  ghost predicate Consistent(nodes: seq<AccountGroup>, keys: seq<int>) {
    |keys| == |nodes| && forall i, j :: 0 <= i < |nodes| && 0 <= j < |nodes| && nodes[i] == nodes[j] ==>
      keys[i] == keys[j]
  }

  lemma {:induction false} HavingNodes(nodes: seq<AccountGroup>, keys: seq<int>, key: int)
    requires Consistent(nodes, keys)
    ensures forall i :: 0 <= i < |nodes| ==> (nodes[i] in Having(nodes, keys, key) <==> keys[i] == key)
    ensures forall j :: 0 <= j < |Having(nodes, keys, key)| ==> Having(nodes, keys, key)[j] in nodes
  {
    if nodes != [] {
      HavingNodes(Front(nodes), Front(keys), key);
      var n := |nodes| - 1;
      if keys[n] != key && nodes[n] in Having(Front(nodes), Front(keys), key) {
        var i :| 0 <= i < n && nodes[i] == nodes[n];
      }
    }
  }

  /** Groups the nodes by key and lists each key once, in order of first use. */
  method CollectKeys(nodes: seq<AccountGroup>, side: Side) returns (ids: seq<int>, nodeids: map<int, seq<AccountGroup>>)
    ensures ids == Dedup(Keys(nodes, side)) && forall k :: k in nodeids <==> k in Keys(nodes, side)
    ensures forall k :: k in nodeids ==> nodeids[k] == Having(nodes, Keys(nodes, side), k)
  {
    ids, nodeids := [], map[];
    ghost var keys := Keys(nodes, side);
    for i := 0 to |nodes|
      invariant ids == Dedup(keys[..i])
      invariant forall k :: k in nodeids <==> k in keys[..i]
      invariant forall k :: Having(nodes[..i], keys[..i], k) == if k in nodeids then nodeids[k] else []
    {
      var fk := KeyOf(nodes[i], side);
      assert keys[..i + 1] == keys[..i] + [fk] && Front(keys[..i + 1]) == keys[..i];
      assert nodes[..i + 1] == nodes[..i] + [nodes[i]] && Front(nodes[..i + 1]) == nodes[..i];
      if fk !in nodeids {
        ids := ids + [fk];
      }
      nodeids := nodeids[fk := (if fk in nodeids then nodeids[fk] else []) + [nodes[i]]];
    }
    assert keys[..|nodes|] == keys && nodes[..|nodes|] == nodes;
  }

  method PointAll(nodes: seq<AccountGroup>, side: Side, list: seq<AccountGroup>, nb: Neighbor)
    requires forall j :: 0 <= j < |list| ==> list[j] in nodes
    modifies nodes`account, nodes`group
    ensures forall i :: 0 <= i < |nodes| ==>
      EdgeOf(nodes[i], side) == if nodes[i] in list then nb else old(EdgeOf(nodes[i], side))
    ensures forall i :: 0 <= i < |nodes| ==> EdgeOf(nodes[i], Other(side)) == old(EdgeOf(nodes[i], Other(side)))
  {
    for j := 0 to |list|
      invariant forall i :: 0 <= i < |nodes| ==>
        EdgeOf(nodes[i], side) == if nodes[i] in list[..j] then nb else old(EdgeOf(nodes[i], side))
      invariant forall i :: 0 <= i < |nodes| ==> EdgeOf(nodes[i], Other(side)) == old(EdgeOf(nodes[i], Other(side)))
    {
      assert list[..j + 1] == list[..j] + [list[j]];
      if side.AccountSide? {
        list[j].account := nb;
      } else {
        list[j].group := nb;
      }
    }
    assert list[..|list|] == list;
  }

  /** Hands each neighbour to the nodes that have its key; stops at the first neighbour that no
      node has the key of. */
  method Assign(nodes: seq<AccountGroup>, side: Side, nodeids: map<int, seq<AccountGroup>>, neighbors: seq<Neighbor>,
                ghost keys: seq<int>)
    returns (err: Option<nat>)
    requires Consistent(nodes, keys) && forall k :: k in nodeids <==> k in keys
    requires forall k :: k in nodeids ==> nodeids[k] == Having(nodes, keys, k)
    requires forall i :: 0 <= i < |nodes| ==> EdgeOf(nodes[i], side) == null
    modifies nodes`account, nodes`group
    ensures err.Some? ==> err.value < |neighbors| && neighbors[err.value].id !in keys
    ensures forall k :: 0 <= k < (if err.Some? then err.value else |neighbors|) ==> neighbors[k].id in keys
    ensures forall i :: 0 <= i < |nodes| ==>
      EdgeOf(nodes[i], side) == Lookup(neighbors[..if err.Some? then err.value else |neighbors|], Some(keys[i]))
    ensures forall i :: 0 <= i < |nodes| ==> EdgeOf(nodes[i], Other(side)) == old(EdgeOf(nodes[i], Other(side)))
  {
    hide Having, EdgeOf;
    for k := 0 to |neighbors|
      invariant forall j :: 0 <= j < k ==> neighbors[j].id in keys
      invariant forall i :: 0 <= i < |nodes| ==> EdgeOf(nodes[i], side) == Lookup(neighbors[..k], Some(keys[i]))
      invariant forall i :: 0 <= i < |nodes| ==> EdgeOf(nodes[i], Other(side)) == old(EdgeOf(nodes[i], Other(side)))
    {
      var nb := neighbors[k];
      if nb.id !in nodeids {
        return Some(k);
      }
      HavingNodes(nodes, keys, nb.id);
      PointAll(nodes, side, nodeids[nb.id], nb);
      assert neighbors[..k + 1] == neighbors[..k] + [nb] && Front(neighbors[..k + 1]) == neighbors[..k];
    }
    assert neighbors[..|neighbors|] == neighbors;
    err := None;
  }

  /** Looking a key up among the rows the query returned is looking it up in the table. */
  lemma {:induction false} QueryFinds(table: seq<Neighbor>, ids: seq<int>, keys: seq<int>)
    requires forall k :: k in ids <==> k in keys
    ensures forall k :: 0 <= k < |NeighborsIn(table, ids)| ==> NeighborsIn(table, ids)[k].id in keys
    ensures forall i :: 0 <= i < |keys| ==>
      Lookup(NeighborsIn(table, ids), Some(keys[i])) == Lookup(table, Some(keys[i]))
  {
    hide Lookup, Filter;
    FilterMembers(table, IdIn(ids));
    assert forall k :: 0 <= k < |NeighborsIn(table, ids)| ==> IdIn(ids)(NeighborsIn(table, ids)[k]);
    forall i | 0 <= i < |keys|
      ensures Lookup(NeighborsIn(table, ids), Some(keys[i])) == Lookup(table, Some(keys[i]))
    {
      var key := keys[i];
      assert key in keys && key in ids;
      BatchLooksUp(table, ids, Some(keys[i]));
    }
  }

  lemma SomeKey(ids: seq<int>, keys: seq<int>)
    requires forall k :: k in ids <==> k in keys
    ensures keys != [] ==> ids != []
  {
    if keys != [] {
      var key := keys[0];
      assert key in keys && key in ids;
    }
  }

  /** The loader of one edge, with its query: no query if there is no node, else WHERE id IN
      (ids).  Every node gets what looking its key up in the table gives, or none. */
  method LoadEdge(nodes: seq<AccountGroup>, side: Side, table: seq<Neighbor>) returns (queried: seq<int>)
    requires forall i :: 0 <= i < |nodes| ==> EdgeOf(nodes[i], side) == null
    modifies nodes`account, nodes`group
    ensures Distinct(queried) && forall k :: k in queried <==> k in old(Keys(nodes, side))
    ensures forall i :: 0 <= i < |nodes| ==> EdgeOf(nodes[i], side) == Lookup(table, Some(KeyOf(nodes[i], side)))
    ensures forall i :: 0 <= i < |nodes| ==> EdgeOf(nodes[i], Other(side)) == old(EdgeOf(nodes[i], Other(side)))
  {
    hide Lookup, Having, Filter, Dedup, EdgeOf;
    ghost var keys := Keys(nodes, side);
    var ids, nodeids := CollectKeys(nodes, side);
    DedupMembers(keys);
    SomeKey(ids, keys);
    queried := ids;
    if |ids| == 0 {
      return;
    }
    QueryFinds(table, ids, keys);
    var neighbors := NeighborsIn(table, ids);
    var err := Assign(nodes, side, nodeids, neighbors, keys);
    assert neighbors[..|neighbors|] == neighbors;
  }

  // ----- The whole query -----

  /** What an edge accessor answers, by the key stored in the table. */
  function Answer(edge: Option<seq<Neighbor>>, key: int): Edge<Neighbor> {
    match edge
    case None => NotLoaded
    case Some(table) => if Lookup(table, Some(key)) == null then NotFound else Found(Lookup(table, Some(key)))
  }

  /** What the answers mean: not loaded exactly if the edge was not asked for, not found exactly if it
      was and no row of the table has the key, and else found, with a row that has it. */
  lemma AnswerMeans(edge: Option<seq<Neighbor>>, key: int)
    ensures Answer(edge, key).NotLoaded? <==> edge.None?
    ensures Answer(edge, key).NotFound? <==> edge.Some? && forall p :: p in edge.value ==> p.id != key
    ensures Answer(edge, key).Found? ==> Answer(edge, key).value in edge.value && Answer(edge, key).value.id == key
  {
    if edge.Some? {
      LookupFinds(edge.value, Some(key));
    }
  }

  method ReadNodes(rows: seq<JoinTableRow>, columns: seq<JoinColumn>, withAccount: bool, withGroup: bool)
    returns (nodes: seq<AccountGroup>)
    ensures fresh(nodes) && |nodes| == |rows|
    ensures forall i :: 0 <= i < |nodes| ==>
      && nodes[i].withAccount == withAccount && nodes[i].withGroup == withGroup
      && nodes[i].accountId == (if AccountId in columns then rows[i].accountId else 0)
      && nodes[i].groupId == (if GroupId in columns then rows[i].groupId else 0)
      && nodes[i].account == nodes[i].group == null
  {
    nodes := [];
    for k := 0 to |rows|
      invariant fresh(nodes) && |nodes| == k
      invariant forall i :: 0 <= i < k ==>
        && nodes[i].withAccount == withAccount && nodes[i].withGroup == withGroup
        && nodes[i].accountId == (if AccountId in columns then rows[i].accountId else 0)
        && nodes[i].groupId == (if GroupId in columns then rows[i].groupId else 0)
        && nodes[i].account == nodes[i].group == null
    {
      var node := new AccountGroup(withAccount, withGroup);
      node.AssignValues(columns, rows[k]);
      nodes := nodes + [node];
    }
  }

  /** One node per row, in row order.  Whatever fields are selected, both accessors of every node
      answer by the keys stored in the table: a key that an edge reads is always among the columns. */
  method SqlAll(rows: seq<JoinTableRow>, fields: seq<JoinColumn>, accounts: Option<seq<Neighbor>>,
                groups: Option<seq<Neighbor>>)
    returns (nodes: seq<AccountGroup>)
    ensures |nodes| == |rows|
    ensures forall i :: 0 <= i < |nodes| ==>
      && nodes[i].accountId == (if fields == [] || AccountId in fields || accounts.Some? then rows[i].accountId else 0)
      && nodes[i].groupId == (if fields == [] || GroupId in fields || groups.Some? then rows[i].groupId else 0)
    ensures forall i :: 0 <= i < |nodes| ==> nodes[i].AccountOrErr() == Answer(accounts, rows[i].accountId)
    ensures forall i :: 0 <= i < |nodes| ==> nodes[i].GroupOrErr() == Answer(groups, rows[i].groupId)
  {
    hide Lookup;
    var columns := CompileColumns(fields, accounts.Some?, groups.Some?);
    nodes := ReadNodes(rows, columns, accounts.Some?, groups.Some?);
    if |nodes| == 0 {
      return;
    }
    if accounts.Some? {
      var queried := LoadEdge(nodes, AccountSide, accounts.value);
    }
    if groups.Some? {
      var queried := LoadEdge(nodes, GroupSide, groups.value);
    }
  }
}
