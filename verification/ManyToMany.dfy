/** Loading groups through the join table: the joined rows are scanned once, a row per pair,
    and each distinct group becomes one object shared by all its accounts. */
module ManyToMany {
  import opened Groups
  import opened Options
  import opened Sequences
  import opened EagerLoading
  import opened JoinedRows

  predicate Mentions(rows: seq<JoinRow>, group: int) {
    exists i :: 0 <= i < |rows| && rows[i].group.id == group
  }

  predicate Listed(groups: seq<GroupRow>, group: int) {
    exists k :: 0 <= k < |groups| && groups[k].id == group
  }

  predicate Paired(rows: seq<JoinRow>, account: int, group: int) {
    exists i :: 0 <= i < |rows| && rows[i].account == account && rows[i].group.id == group
  }

  /** The distinct groups of some rows, in the order of their first row. */
  function FirstGroups(rows: seq<JoinRow>): seq<GroupRow> {
    if rows == [] then []
    else if Mentions(Front(rows), Last(rows).group.id) then FirstGroups(Front(rows))
    else FirstGroups(Front(rows)) + [Last(rows).group]
  }

  function RowsOf(groups: seq<Group>): seq<GroupRow> {
    seq(|groups|, i requires 0 <= i < |groups| => groups[i].row)
  }

  /** Group `g` is one of those of account `a`. */
  function Of(rows: seq<JoinRow>, a: int): Group -> bool {
    (g: Group) => Paired(rows, a, g.row.id)
  }

  /** The loaded groups that belong to account `a`. */
  function Mine(groups: seq<Group>, rows: seq<JoinRow>, a: int): seq<Group> {
    Filter(groups, Of(rows, a))
  }

  lemma RowsStep(rows: seq<JoinRow>, r: JoinRow)
    ensures Front(rows + [r]) == rows && Last(rows + [r]) == r
    ensures forall g :: Mentions(rows + [r], g) <==> Mentions(rows, g) || r.group.id == g
    ensures forall a, g :: Paired(rows + [r], a, g) <==> Paired(rows, a, g) || (r.account == a && r.group.id == g)
  {
    var s := rows + [r];
    assert forall i :: 0 <= i < |rows| ==> s[i] == rows[i];
    assert s[|rows|] == r;
  }

  method StartGroups(nodes: seq<Account>) returns (byId: map<int, Account>)
    requires Distinct(nodes)
    modifies nodes
    ensures ById(nodes, byId)
    ensures forall n :: n in nodes ==> n.groups == Some([]) && n.proxy == old(n.proxy) && n.children == old(n.children)
  {
    hide ById;
    ByIdStart(nodes);
    byId := map[];
    for i := 0 to |nodes|
      invariant ById(nodes[..i], byId)
      invariant forall j :: 0 <= j < i ==> nodes[j].groups == Some([])
      invariant forall n :: n in nodes ==> n.proxy == old(n.proxy) && n.children == old(n.children)
    {
      ByIdStep(nodes, i, byId);
      byId := byId[nodes[i].id := nodes[i]];
      nodes[i].groups := Some([]);
    }
    assert nodes[..|nodes|] == nodes;
  }

  /** For each group, the accounts (of the batch) that it was paired with so far. */
  ghost predicate Scanned(nodes: seq<Account>, rows: seq<JoinRow>, nids: map<int, set<Account>>) {
    && (forall g :: g in nids <==> Mentions(rows, g))
    && (forall g :: g in nids ==> forall n :: n in nids[g] ==> n in nodes)
    && (forall g, i :: g in nids && 0 <= i < |nodes| ==>
         (nodes[i] in nids[g] <==> LastOf(Ids(nodes), i) && Paired(rows, nodes[i].id, g)))
  }

  lemma ScannedStep(nodes: seq<Account>, byId: map<int, Account>, rows: seq<JoinRow>, r: JoinRow,
                    nids: map<int, set<Account>>)
    requires ById(nodes, byId) && Scanned(nodes, rows, nids) && r.account in byId
    ensures var before := if r.group.id in nids then nids[r.group.id] else {};
      Scanned(nodes, rows + [r], nids[r.group.id := before + {byId[r.account]}])
  {
    hide Mentions, Paired, LastOf;
    RowsStep(rows, r);
    NoneBefore(rows);
  }

  lemma ScannedNone(nodes: seq<Account>)
    ensures Scanned(nodes, [], map[])
  {
  }

  lemma NoneBefore(rows: seq<JoinRow>)
    ensures forall a, g :: Paired(rows, a, g) ==> Mentions(rows, g)
  {
  }

  /** What the database returned for each of some rows. */
  predicate Returned(raw: seq<seq<Cell>>, rows: seq<JoinRow>, columns: seq<GroupColumn>) {
    |raw| == |rows| && forall i :: 0 <= i < |raw| ==> raw[i] == JoinedCells(rows[i], columns)
  }

  lemma RowFromCells(r: JoinRow, fields: seq<GroupColumn>)
    ensures var vs := JoinedCells(r, Compiled(fields));
      && |vs| >= 2 && vs[0] == Key(r.account) && vs[1] == Key(r.group.id)
      && |vs| == 1 + |Compiled(fields)|
      && ReadGroup(Compiled(fields), vs[1..]) == SeenRow(r, Compiled(fields)).group
      && SeenRow(r, Compiled(fields)).group.id == r.group.id
  {
    hide ReadGroup, Compiled;
    GroupKeyIsSecond(r, fields);
    assert JoinedCells(r, Compiled(fields))[1..] == Cells(r.group, Compiled(fields));
  }

  /** Scans the returned values: the first is the account's key, the second the group's.  A row
      builds a group object, from the values behind the first, only if its group is new. */
  method Scan(nodes: seq<Account>, byId: map<int, Account>, columns: seq<GroupColumn>, raw: seq<seq<Cell>>,
              ghost fields: seq<GroupColumn>, ghost rows: seq<JoinRow>)
    returns (neighbors: seq<Group>, nids: map<int, set<Account>>)
    requires ById(nodes, byId) && columns == Compiled(fields) && Returned(raw, rows, columns)
    requires forall i :: 0 <= i < |rows| ==> rows[i].account in byId
    ensures RowsOf(neighbors) == FirstGroups(Seen(rows, fields))
    ensures Scanned(nodes, rows, nids)
  {
    ScannedNone(nodes);
    hide Scanned, ById, Compiled, ReadGroup, Mentions, Paired, FirstGroups, JoinedCells;
    neighbors, nids := [], map[];
    FirstGroupsNone(fields);
    for k := 0 to |raw|
      invariant forall g :: g in nids <==> Mentions(rows[..k], g)
      invariant RowsOf(neighbors) == FirstGroups(Seen(rows[..k], fields))
      invariant Scanned(nodes, rows[..k], nids)
    {
      RowFromCells(rows[k], fields);
      FirstGroupsStep(rows, fields, k);
      ScannedStep(nodes, byId, rows[..k], rows[k], nids);
      RowsStep(rows[..k], rows[k]);
      assert rows[..k + 1] == rows[..k] + [rows[k]];
      var vs := raw[k];
      var account, group := byId[vs[0].k], vs[1].k;
      if group !in nids {
        assert {} + {account} == {account};
        nids := nids[group := {account}];
        var g := new Group(ReadGroup(columns, vs[1..]));
        RowsOfStep(neighbors, g);
        neighbors := neighbors + [g];
      } else {
        nids := nids[group := nids[group] + {account}];
      }
    }
    assert rows[..|rows|] == rows;
  }

  lemma RowsOfStep(groups: seq<Group>, g: Group)
    ensures RowsOf(groups + [g]) == RowsOf(groups) + [g.row]
  {
  }

  lemma FirstGroupsNone(fields: seq<GroupColumn>)
    ensures FirstGroups(Seen([], fields)) == [] && RowsOf([]) == [] && forall g :: !Mentions([], g)
  {
  }

  lemma SeenMentions(rows: seq<JoinRow>, fields: seq<GroupColumn>)
    ensures forall g :: Mentions(Seen(rows, fields), g) <==> Mentions(rows, g)
    ensures forall a, g :: Paired(Seen(rows, fields), a, g) <==> Paired(rows, a, g)
  {
    hide Compiled;
    var s := Seen(rows, fields);
    forall i | 0 <= i < |rows|
      ensures s[i].account == rows[i].account && s[i].group.id == rows[i].group.id
    {
      GroupKeyIsSecond(rows[i], fields);
    }
  }

  lemma FirstGroupsStep(rows: seq<JoinRow>, fields: seq<GroupColumn>, k: nat)
    requires k < |rows|
    ensures FirstGroups(Seen(rows[..k + 1], fields)) ==
      if Mentions(rows[..k], rows[k].group.id) then FirstGroups(Seen(rows[..k], fields))
      else FirstGroups(Seen(rows[..k], fields)) + [SeenRow(rows[k], Compiled(fields)).group]
  {
    hide Mentions, Compiled;
    var s := Seen(rows[..k + 1], fields);
    assert Front(s) == Seen(rows[..k], fields) && Last(s) == SeenRow(rows[k], Compiled(fields));
    SeenMentions(rows[..k], fields);
    GroupKeyIsSecond(rows[k], fields);
  }

  /** Appends a group to its accounts, which are visited in an arbitrary order. */
  method GiveTo(nodes: seq<Account>, accounts: set<Account>, g: Group)
    requires forall n :: n in accounts ==> n in nodes
    modifies nodes
    ensures forall n :: n in nodes ==> n.groups == if n in accounts then Append(old(n.groups), g) else old(n.groups)
    ensures forall n :: n in nodes ==> n.proxy == old(n.proxy) && n.children == old(n.children)
  {
    var todo := accounts;
    while todo != {}
      invariant todo <= accounts
      invariant forall n :: n in nodes ==>
        (n.groups == if n in accounts && n !in todo then Append(old(n.groups), g) else old(n.groups))
      invariant forall n :: n in nodes ==> n.proxy == old(n.proxy) && n.children == old(n.children)
      decreases |todo|
    {
      var kn :| kn in todo;
      kn.groups := Append(kn.groups, g);
      todo := todo - {kn};
    }
  }

  /** Hands each loaded group to its accounts; stops at the first group the scan did not see. */
  method Distribute(nodes: seq<Account>, rows: seq<JoinRow>, nids: map<int, set<Account>>, neighbors: seq<Group>)
    returns (err: Option<nat>)
    requires Distinct(nodes) && Scanned(nodes, rows, nids)
    requires forall n :: n in nodes ==> n.groups == Some([])
    modifies nodes
    ensures err.Some? ==> err.value < |neighbors| && !Mentions(rows, neighbors[err.value].row.id)
    ensures err.None? ==> forall k :: 0 <= k < |neighbors| ==> Mentions(rows, neighbors[k].row.id)
    ensures err.None? ==> forall i :: 0 <= i < |nodes| ==> nodes[i].groups == Some(Held(nodes, rows, neighbors, i))
    ensures forall n :: n in nodes ==> n.proxy == old(n.proxy) && n.children == old(n.children)
  {
    hide Filter, LastOf, Paired, Mentions, Held;
    HeldNone(nodes, rows);
    for k := 0 to |neighbors|
      invariant forall j :: 0 <= j < k ==> Mentions(rows, neighbors[j].row.id)
      invariant forall i :: 0 <= i < |nodes| ==> nodes[i].groups == Some(Held(nodes, rows, neighbors[..k], i))
      invariant forall n :: n in nodes ==> n.proxy == old(n.proxy) && n.children == old(n.children)
    {
      var g := neighbors[k];
      if g.row.id !in nids {
        return Some(k);
      }
      GiveTo(nodes, nids[g.row.id], g);
      forall i | 0 <= i < |nodes|
        ensures Held(nodes, rows, neighbors[..k + 1], i) ==
          if nodes[i] in nids[g.row.id] then Held(nodes, rows, neighbors[..k], i) + [g]
          else Held(nodes, rows, neighbors[..k], i)
      {
        HeldStep(nodes, rows, neighbors, k, i);
      }
    }
    assert neighbors[..|neighbors|] == neighbors;
    err := None;
  }

  /** What node `i` holds after some of the groups were handed out. */
  function Held(nodes: seq<Account>, rows: seq<JoinRow>, groups: seq<Group>, i: nat): seq<Group>
    requires i < |nodes|
  {
    if LastOf(Ids(nodes), i) then Mine(groups, rows, nodes[i].id) else []
  }

  lemma HeldNone(nodes: seq<Account>, rows: seq<JoinRow>)
    ensures forall i :: 0 <= i < |nodes| ==> Held(nodes, rows, [], i) == []
  {
  }

  lemma HeldStep(nodes: seq<Account>, rows: seq<JoinRow>, groups: seq<Group>, k: nat, i: nat)
    requires i < |nodes| && k < |groups|
    ensures Held(nodes, rows, groups[..k + 1], i) ==
      if LastOf(Ids(nodes), i) && Paired(rows, nodes[i].id, groups[k].row.id) then
        Held(nodes, rows, groups[..k], i) + [groups[k]]
      else Held(nodes, rows, groups[..k], i)
  {
    assert groups[..k + 1] == groups[..k] + [groups[k]];
    FilterAppend(groups[..k], groups[k], Of(rows, nodes[i].id));
  }

  // ----- The batch query and the query per account -----

  function AccountIn(ids: seq<int>): JoinRow -> bool {
    (r: JoinRow) => r.account in ids
  }

  function AccountIs(a: int): JoinRow -> bool {
    (r: JoinRow) => r.account == a
  }

  /** The rows of one batch: WHERE account_id IN (ids), in the order of the joined table. */
  function BatchRows(joined: seq<JoinRow>, ids: seq<int>): seq<JoinRow> {
    Filter(joined, AccountIn(ids))
  }

  /** What a query for account `a` alone returns, without repetitions. */
  function NaiveGroups(joined: seq<JoinRow>, a: int): seq<GroupRow> {
    FirstGroups(Filter(joined, AccountIs(a)))
  }

  /** Restricting the rows to a batch does not change the pairs of an account in it. */
  lemma {:induction false} FilterPairs(joined: seq<JoinRow>, p: JoinRow -> bool, a: int)
    requires forall r :: r in joined && r.account == a ==> p(r)
    ensures forall g :: Paired(Filter(joined, p), a, g) <==> Paired(joined, a, g)
  {
    if joined != [] {
      FilterPairs(Front(joined), p, a);
      assert joined == Front(joined) + [Last(joined)];
      RowsStep(Front(joined), Last(joined));
      RowsStep(Filter(Front(joined), p), Last(joined));
      assert Last(joined) in joined;
    }
  }

  /** Selecting fields and restricting to a batch commute. */
  lemma {:induction false} SeenBatch(joined: seq<JoinRow>, fields: seq<GroupColumn>, ids: seq<int>)
    ensures BatchRows(Seen(joined, fields), ids) == Seen(BatchRows(joined, ids), fields)
  {
    hide Compiled;
    if joined != [] {
      SeenBatch(Front(joined), fields, ids);
      var s := Seen(joined, fields);
      assert Front(s) == Seen(Front(joined), fields);
      var r := BatchRows(Front(joined), ids);
      assert Seen(r + [Last(joined)], fields) == Seen(r, fields) + [Last(s)];
    }
  }

  /** The first row of each listed group. */
  lemma {:induction false} FirstGroupsFirst(rows: seq<JoinRow>, k: nat) returns (i: nat)
    requires k < |FirstGroups(rows)|
    ensures i < |rows| && FirstGroups(rows)[k] == rows[i].group
    ensures forall j :: 0 <= j < i ==> rows[j].group.id != rows[i].group.id
  {
    if k < |FirstGroups(Front(rows))| {
      i := FirstGroupsFirst(Front(rows), k);
      assert forall j :: 0 <= j < |rows| - 1 ==> rows[j] == Front(rows)[j];
    } else {
      i := |rows| - 1;
      assert forall j :: 0 <= j < i ==> Front(rows)[j] == rows[j];
    }
  }

  /** Row `i` is the first one of its group with an account of the batch. */
  predicate Introduces(joined: seq<JoinRow>, ids: seq<int>, i: nat) {
    && i < |joined| && joined[i].account in ids
    && forall j :: 0 <= j < i && joined[j].account in ids ==> joined[j].group.id != joined[i].group.id
  }

  /** Object `r` is what the selection shows of the group in the first row that mentions it. */
  ghost predicate LoadedFrom(joined: seq<JoinRow>, fields: seq<GroupColumn>, ids: seq<int>, r: GroupRow) {
    exists i: nat :: Introduces(joined, ids, i) && Shows(r, joined[i].group, fields)
  }

  lemma LoadedShows(joined: seq<JoinRow>, fields: seq<GroupColumn>, ids: seq<int>, k: nat)
    requires k < |FirstGroups(BatchRows(Seen(joined, fields), ids))|
    ensures LoadedFrom(joined, fields, ids, FirstGroups(BatchRows(Seen(joined, fields), ids))[k])
  {
    hide Compiled, FirstGroups, Filter, Shows;
    var seen := Seen(joined, fields);
    var f := FirstGroupsFirst(BatchRows(seen, ids), k);
    var at := FilterMeans(seen, AccountIn(ids));
    var i := at[f];
    assert i in at;
    SeenShows(joined[i], fields);
    SeenMentions(joined, fields);
    assert AccountIn(ids)(seen[i]);
    forall j | 0 <= j < i && joined[j].account in ids
      ensures joined[j].group.id != joined[i].group.id
    {
      GroupKeyIsSecond(joined[j], fields);
      GroupKeyIsSecond(joined[i], fields);
      assert AccountIn(ids)(seen[j]) && j in at;
      var e :| 0 <= e < |at| && at[e] == j;
      assert BatchRows(seen, ids)[e] == seen[j];
    }
  }

  /** Every loaded group holds, of the group in the first row of the batch that mentions it, the key
      and just the selected fields. */
  lemma LoadedGroupsShow(neighbors: seq<Group>, joined: seq<JoinRow>, fields: seq<GroupColumn>, ids: seq<int>)
    requires RowsOf(neighbors) == FirstGroups(BatchRows(Seen(joined, fields), ids))
    ensures forall k :: 0 <= k < |neighbors| ==> LoadedFrom(joined, fields, ids, neighbors[k].row)
  {
    hide FirstGroups, BatchRows, Seen, LoadedFrom;
    forall k | 0 <= k < |neighbors|
      ensures LoadedFrom(joined, fields, ids, neighbors[k].row)
    {
      assert RowsOf(neighbors)[k] == neighbors[k].row;
      LoadedShows(joined, fields, ids, k);
    }
  }

  /** Loads the groups of a batch of accounts with one joined query. */
  method LoadGroups(nodes: seq<Account>, joined: seq<JoinRow>, fields: seq<GroupColumn>) returns (neighbors: seq<Group>)
    requires Distinct(nodes)
    modifies nodes
    ensures RowsOf(neighbors) == FirstGroups(BatchRows(Seen(joined, fields), Ids(nodes)))
    ensures forall k :: 0 <= k < |neighbors| ==> LoadedFrom(joined, fields, Ids(nodes), neighbors[k].row)
    ensures forall i :: 0 <= i < |nodes| ==>
      nodes[i].groups == Some(if LastOf(Ids(nodes), i) then Mine(neighbors, joined, nodes[i].id) else [])
    ensures forall n :: n in nodes ==> n.proxy == old(n.proxy) && n.children == old(n.children)
  {
    hide Filter, FirstGroups, Scanned, ById, LastOf, Paired, Mentions, Compiled, JoinedCells, LoadedFrom;
    var byId := StartGroups(nodes);
    ByIdKeys(nodes, byId);
    var rows := BatchRows(joined, Ids(nodes));
    FilterMembers(joined, AccountIn(Ids(nodes)));
    assert forall i :: 0 <= i < |rows| ==> AccountIn(Ids(nodes))(rows[i]);
    assert forall i :: 0 <= i < |rows| ==> rows[i].account in byId;
    var columns := CompileGroupColumns(fields);
    var raw := seq(|rows|, i requires 0 <= i < |rows| => JoinedCells(rows[i], columns));
    var groups, nids := Scan(nodes, byId, columns, raw, fields, rows);
    neighbors := groups;
    SeenBatch(joined, fields, Ids(nodes));
    LoadedAreMentioned(neighbors, rows, fields);
    LoadedGroupsShow(neighbors, joined, fields, Ids(nodes));
    var err := Distribute(nodes, rows, nids, neighbors);
    forall i | 0 <= i < |nodes|
      ensures Mine(neighbors, rows, nodes[i].id) == Mine(neighbors, joined, nodes[i].id)
    {
      FilterPairs(joined, AccountIn(Ids(nodes)), nodes[i].id);
      FilterAgrees(neighbors, Of(rows, nodes[i].id), Of(joined, nodes[i].id));
    }
  }

  lemma LoadedAreMentioned(neighbors: seq<Group>, rows: seq<JoinRow>, fields: seq<GroupColumn>)
    requires RowsOf(neighbors) == FirstGroups(Seen(rows, fields))
    ensures forall k :: 0 <= k < |neighbors| ==> Mentions(rows, neighbors[k].row.id)
  {
    hide FirstGroups, Mentions, Compiled;
    FirstGroupsMentioned(Seen(rows, fields));
    SeenMentions(rows, fields);
    assert forall k :: 0 <= k < |neighbors| ==> RowsOf(neighbors)[k] == neighbors[k].row;
  }

  lemma {:induction false} FilterAgrees<T>(s: seq<T>, p: T -> bool, q: T -> bool)
    requires forall i :: 0 <= i < |s| ==> p(s[i]) == q(s[i])
    ensures Filter(s, p) == Filter(s, q)
  {
    if s != [] {
      FilterAgrees(Front(s), p, q);
    }
  }

  lemma {:induction false} FirstGroupsMentioned(rows: seq<JoinRow>)
    ensures forall k :: 0 <= k < |FirstGroups(rows)| ==> Mentions(rows, FirstGroups(rows)[k].id)
    ensures forall g :: Mentions(rows, g) ==> Listed(FirstGroups(rows), g)
    ensures forall i, j :: 0 <= i < j < |FirstGroups(rows)| ==> FirstGroups(rows)[i].id != FirstGroups(rows)[j].id
  {
    if rows != [] {
      FirstGroupsMentioned(Front(rows));
      RowsStep(Front(rows), Last(rows));
      assert rows == Front(rows) + [Last(rows)];
      forall g | Mentions(rows, g)
        ensures Listed(FirstGroups(rows), g)
      {
        if Mentions(Front(rows), g) {
          var k :| 0 <= k < |FirstGroups(Front(rows))| && FirstGroups(Front(rows))[k].id == g;
          assert FirstGroups(rows)[k].id == g;
        } else {
          assert Last(FirstGroups(rows)).id == g;
        }
      }
    }
  }
}
