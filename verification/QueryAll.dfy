/** A whole query with its eager-loaded edges, and what the edge accessors then answer. */
module QueryAll {
  import opened Groups
  import opened Options
  import opened Sequences
  import opened EagerLoading
  import opened JoinedRows
  import opened ManyToMany
  import BatchOrder

  /** A row of the accounts table, as far as loading is concerned. */
  datatype AccountRow = AccountRow(id: int, proxyId: Option<int>)

  /** The edges asked for, each with the table rows its query runs over, and the fields selected
      on the query for groups. */
  datatype With = With(
    groups: Option<seq<JoinRow>>,
    groupFields: seq<GroupColumn>,
    proxy: Option<seq<Neighbor>>,
    children: Option<seq<Child>>)

  function RowIds(rows: seq<AccountRow>): (ids: seq<int>)
    ensures |ids| == |rows| && forall i :: 0 <= i < |rows| ==> ids[i] == rows[i].id
  {
    seq(|rows|, i requires 0 <= i < |rows| => rows[i].id)
  }

  /** The list edge of node `i`: empty, not absent, if nothing matches or the ID comes again. */
  function ListEdge<T>(ids: seq<int>, i: nat, list: seq<T>): Edge<Option<seq<T>>>
    requires i < |ids|
  {
    Found(Some(if LastOf(ids, i) then list else []))
  }

  /** The groups edge of node `i`; `neighbors` are the group objects of the batch. */
  function GroupsAnswer(with: With, rows: seq<AccountRow>, neighbors: seq<Group>, i: nat): Edge<Option<seq<Group>>>
    requires i < |rows|
  {
    match with.groups
    case None => NotLoaded
    case Some(joined) => ListEdge(RowIds(rows), i, Mine(neighbors, joined, rows[i].id))
  }

  function ProxyAnswer(with: With, row: AccountRow): Edge<Neighbor> {
    match with.proxy
    case None => NotLoaded
    case Some(table) => if Lookup(table, row.proxyId) == null then NotFound else Found(Lookup(table, row.proxyId))
  }

  function ChildrenAnswer(with: With, rows: seq<AccountRow>, i: nat): Edge<Option<seq<Child>>>
    requires i < |rows|
  {
    match with.children
    case None => NotLoaded
    case Some(table) => ListEdge(RowIds(rows), i, Owned(table, rows[i].id))
  }

  /** What the answers mean: not loaded exactly if not asked for; a unique edge that was asked
      for is not found exactly if no row of the table has its key; a list edge that was asked
      for is never absent, and of nodes with one ID the last holds just what belongs to it, the
      groups with the selected fields and the children in table order. */
  lemma AnswersMean(with: With, rows: seq<AccountRow>, neighbors: seq<Group>, i: nat)
    requires i < |rows|
    requires with.groups.Some? ==>
      RowsOf(neighbors) == FirstGroups(BatchRows(Seen(with.groups.value, with.groupFields), RowIds(rows)))
    ensures ProxyAnswer(with, rows[i]).NotLoaded? <==> with.proxy.None?
    ensures ProxyAnswer(with, rows[i]).NotFound? <==>
      with.proxy.Some? && forall p :: p in with.proxy.value ==> rows[i].proxyId != Some(p.id)
    ensures ProxyAnswer(with, rows[i]).Found? ==>
      var p := ProxyAnswer(with, rows[i]).value; p in with.proxy.value && rows[i].proxyId == Some(p.id)
    ensures GroupsAnswer(with, rows, neighbors, i).NotLoaded? <==> with.groups.None?
    ensures with.groups.Some? ==>
      var list := GroupsAnswer(with, rows, neighbors, i).value;
      && list.Some? && BatchOrder.NoRepeats(RowsOf(list.value))
      && (forall g :: Listed(RowsOf(list.value), g) ==> Paired(with.groups.value, rows[i].id, g))
      && (forall k :: 0 <= k < |list.value| ==>
           LoadedFrom(with.groups.value, with.groupFields, RowIds(rows), list.value[k].row))
      && (LastOf(RowIds(rows), i) ==>
           forall g :: Listed(RowsOf(list.value), g) <==> Paired(with.groups.value, rows[i].id, g))
    ensures ChildrenAnswer(with, rows, i).NotLoaded? <==> with.children.None?
    ensures with.children.Some? ==>
      var list := ChildrenAnswer(with, rows, i).value;
      list.Some? && if LastOf(RowIds(rows), i) then Belonging(with.children.value, rows[i].id, list.value)
                    else list.value == []
  {
    hide Paired, Mine, FirstGroups, BatchRows, Listed, Owned, Lookup, LastOf, LoadedFrom, Belonging;
    NothingListed();
    if with.groups.Some? {
      assert RowIds(rows)[i] == rows[i].id;
      BatchOrder.BatchEqualsOwnQuery(neighbors, with.groups.value, with.groupFields, RowIds(rows), rows[i].id);
      MineLoaded(neighbors, with.groups.value, with.groupFields, RowIds(rows), rows[i].id);
    }
    if with.proxy.Some? {
      LookupFinds(with.proxy.value, rows[i].proxyId);
    }
    if with.children.Some? {
      OwnedBelong(with.children.value, rows[i].id);
    }
  }

  lemma MineLoaded(neighbors: seq<Group>, joined: seq<JoinRow>, fields: seq<GroupColumn>, ids: seq<int>, a: int)
    requires RowsOf(neighbors) == FirstGroups(BatchRows(Seen(joined, fields), ids))
    ensures var list := Mine(neighbors, joined, a);
      forall k :: 0 <= k < |list| ==> LoadedFrom(joined, fields, ids, list[k].row)
  {
    hide FirstGroups, BatchRows, LoadedFrom, Filter;
    LoadedGroupsShow(neighbors, joined, fields, ids);
    FilterMembers(neighbors, Of(joined, a));
  }

  lemma NothingListed()
    ensures RowsOf([]) == [] && forall g :: !Listed([], g)
  {
  }

  /** The list holds, in table order, just the children that point to the ID, each row once. */
  ghost predicate Belonging(table: seq<Child>, id: int, list: seq<Child>) {
    exists at: seq<nat> ::
      Picks(table, at, list) && forall k :: 0 <= k < |table| ==> (table[k].fk == Some(id) <==> k in at)
  }

  lemma OwnedBelong(table: seq<Child>, id: int)
    ensures Belonging(table, id, Owned(table, id))
  {
    var at := FilterMeans(table, PointsTo(id));
    assert forall k :: 0 <= k < |table| ==> (PointsTo(id)(table[k]) <==> table[k].fk == Some(id));
  }

  /** One node per row, in row order, with the edges asked for: each unique edge is found,
      not found or not loaded; each list edge is a list or not loaded. */
  method SqlAll(rows: seq<AccountRow>, with: With) returns (nodes: seq<Account>, neighbors: seq<Group>)
    ensures Ids(nodes) == RowIds(rows)
    ensures with.groups.Some? && rows != [] ==>
      RowsOf(neighbors) == FirstGroups(BatchRows(Seen(with.groups.value, with.groupFields), RowIds(rows)))
    ensures forall i :: 0 <= i < |nodes| ==> nodes[i].GroupsOrErr() == GroupsAnswer(with, rows, neighbors, i)
    ensures forall i :: 0 <= i < |nodes| ==> nodes[i].ProxyOrErr() == ProxyAnswer(with, rows[i])
    ensures forall i :: 0 <= i < |nodes| ==> nodes[i].ChildrenOrErr() == ChildrenAnswer(with, rows, i)
  {
    hide Mine, Owned, Lookup, FirstGroups, BatchRows, LastOf, Compiled;
    nodes, neighbors := [], [];
    var loadedTypes := LoadedTypes(with.groups.Some?, with.proxy.Some?, with.children.Some?);
    for k := 0 to |rows|
      invariant |nodes| == k && fresh(set n | n in nodes) && Distinct(nodes)
      invariant forall i :: 0 <= i < k ==>
        && nodes[i].id == rows[i].id && nodes[i].proxyId == rows[i].proxyId && nodes[i].loadedTypes == loadedTypes
        && nodes[i].groups == None && nodes[i].proxy == null && nodes[i].children == None
    {
      var node := new Account(rows[k].id, rows[k].proxyId, loadedTypes);
      nodes := nodes + [node];
    }
    assert Ids(nodes) == RowIds(rows);
    if |nodes| == 0 {
      return;
    }
    if with.groups.Some? {
      neighbors := LoadGroups(nodes, with.groups.value, with.groupFields);
    }
    if with.proxy.Some? {
      var queried := LoadProxy(nodes, with.proxy.value);
    }
    if with.children.Some? {
      QueryAndLoadChildren(nodes, with.children.value);
    }
  }
}
