/** The batched loaders behind With-edges: one query for all nodes of a batch, then maps from
    keys to nodes.  Each is proved against what a query per node would have found. */
module EagerLoading {
  import opened Groups
  import opened Options
  import opened Sequences

  // ----- Entities -----

  /** A node at the one side of a many-to-one edge. */
  class Neighbor {
    const id: int

    constructor (id: int)
      ensures this.id == id
    {
      this.id := id;
    }
  }

  /** A node on the many side of an edge; the foreign key may be NULL. */
  class Child {
    const id: int
    const fk: Option<int>

    constructor (id: int, fk: Option<int>)
      ensures this.id == id && this.fk == fk
    {
      this.id, this.fk := id, fk;
    }
  }

  /** Which edges a query asked for. */
  datatype LoadedTypes = LoadedTypes(groups: bool, proxy: bool, children: bool)

  /** The answer of an edge accessor. */
  datatype Edge<+T> = Found(value: T) | NotFound | NotLoaded

  /** A loaded account.  An edge list is None until the loader makes it an empty list. */
  class Account {
    const id: int
    const proxyId: Option<int>
    const loadedTypes: LoadedTypes
    var groups: Option<seq<Group>>
    var proxy: Neighbor?
    var children: Option<seq<Child>>

    constructor (id: int, proxyId: Option<int>, loadedTypes: LoadedTypes)
      ensures this.id == id && this.proxyId == proxyId && this.loadedTypes == loadedTypes
      ensures groups == None && proxy == null && children == None
    {
      this.id, this.proxyId, this.loadedTypes := id, proxyId, loadedTypes;
      groups, proxy, children := None, null, None;
    }

    function GroupsOrErr(): Edge<Option<seq<Group>>>
      reads this
    {
      if loadedTypes.groups then Found(groups) else NotLoaded
    }

    function ProxyOrErr(): Edge<Neighbor>
      reads this
    {
      if proxy != null then Found(proxy) else if loadedTypes.proxy then NotFound else NotLoaded
    }

    function ChildrenOrErr(): Edge<Option<seq<Child>>>
      reads this
    {
      if loadedTypes.children then Found(children) else NotLoaded
    }
  }

  function Append<T>(l: Option<seq<T>>, x: T): Option<seq<T>> {
    match l
    case None => Some([x])
    case Some(s) => Some(s + [x])
  }

  function Ids(nodes: seq<Account>): (ids: seq<int>)
    ensures |ids| == |nodes| && forall i :: 0 <= i < |nodes| ==> ids[i] == nodes[i].id
  {
    seq(|nodes|, i requires 0 <= i < |nodes| => nodes[i].id)
  }

  // ----- One to many -----

  function Owned(children: seq<Child>, id: int): seq<Child> {
    Filter(children, PointsTo(id))
  }

  function PointsTo(id: int): Child -> bool {
    (c: Child) => c.fk == Some(id)
  }

  /** The child has a parent in the batch. */
  predicate Placeable(ids: seq<int>, c: Child) {
    c.fk.Some? && c.fk.value in ids
  }

  /** What node `i` of the batch holds once `children` were handed out: a node that is not
      the last with its ID is shadowed in the map and gets none. */
  function Share(ids: seq<int>, children: seq<Child>, i: nat): seq<Child>
    requires i < |ids|
  {
    if LastOf(ids, i) then Owned(children, ids[i]) else []
  }

  /** The map sends each ID of the batch to the last node that has it. */
  ghost predicate ById(nodes: seq<Account>, m: map<int, Account>) {
    && (forall id :: id in m <==> id in Ids(nodes))
    && (forall id :: id in m ==> m[id] in nodes && m[id].id == id)
    && (forall i :: 0 <= i < |nodes| ==> (m[nodes[i].id] == nodes[i] <==> LastOf(Ids(nodes), i)))
  }

  lemma ByIdKeys(nodes: seq<Account>, m: map<int, Account>)
    requires ById(nodes, m)
    ensures forall id :: id in m <==> id in Ids(nodes)
  {
  }

  lemma ByIdStart(nodes: seq<Account>)
    ensures ById(nodes[..0], map[])
  {
  }

  lemma LastOfStep(ids: seq<int>, x: int, i: nat)
    requires i <= |ids|
    ensures LastOf(ids + [x], i) <==> i == |ids| || (LastOf(ids, i) && ids[i] != x)
  {
    var more := ids + [x];
    if i < |ids| && LastOf(more, i) {
      assert more[|ids|] != more[i];
      forall j | i < j < |ids|
        ensures ids[j] != ids[i]
      {
        assert more[j] != more[i];
      }
    }
  }

  lemma IdsStep(nodes: seq<Account>, n: nat)
    requires n < |nodes|
    ensures Ids(nodes[..n + 1]) == Ids(nodes[..n]) + [nodes[n].id]
  {
  }

  /** Indexing one more node: it is the last with its ID, and no other node with it is any more. */
  lemma ByIdAt(nodes: seq<Account>, n: nat, m: map<int, Account>, i: nat)
    requires i <= n < |nodes| && Distinct(nodes) && ById(nodes[..n], m)
    ensures var m' := m[nodes[n].id := nodes[n]];
      nodes[i].id in m' && (m'[nodes[i].id] == nodes[i] <==> LastOf(Ids(nodes[..n + 1]), i))
  {
    hide LastOf;
    IdsStep(nodes, n);
    LastOfStep(Ids(nodes[..n]), nodes[n].id, i);
    if i < n {
      assert nodes[..n][i] == nodes[i] != nodes[n] && Ids(nodes[..n])[i] == nodes[i].id;
      assert nodes[i].id in Ids(nodes[..n]);
    }
  }

  lemma ByIdStep(nodes: seq<Account>, n: nat, m: map<int, Account>)
    requires n < |nodes| && Distinct(nodes) && ById(nodes[..n], m)
    ensures ById(nodes[..n + 1], m[nodes[n].id := nodes[n]])
  {
    hide LastOf;
    var m' := m[nodes[n].id := nodes[n]];
    IdsStep(nodes, n);
    assert nodes[..n + 1] == nodes[..n] + [nodes[n]];
    forall i | 0 <= i < n + 1
      ensures nodes[i].id in m' && (m'[nodes[i].id] == nodes[i] <==> LastOf(Ids(nodes[..n + 1]), i))
    {
      ByIdAt(nodes, n, m, i);
    }
  }

  /** The loop that prepares a batch: index the nodes and start their lists. */
  method StartChildren(nodes: seq<Account>) returns (nodeids: map<int, Account>)
    requires Distinct(nodes)
    modifies nodes
    ensures ById(nodes, nodeids)
    ensures forall n :: n in nodes ==> n.children == Some([]) && n.groups == old(n.groups) && n.proxy == old(n.proxy)
  {
    hide ById;
    ByIdStart(nodes);
    nodeids := map[];
    for i := 0 to |nodes|
      invariant ById(nodes[..i], nodeids)
      invariant forall j :: 0 <= j < i ==> nodes[j].children == Some([])
      invariant forall n :: n in nodes ==> n.groups == old(n.groups) && n.proxy == old(n.proxy)
    {
      ByIdStep(nodes, i, nodeids);
      nodeids := nodeids[nodes[i].id := nodes[i]];
      nodes[i].children := Some([]);
    }
    assert nodes[..|nodes|] == nodes;
  }

  lemma ShareNone(ids: seq<int>)
    ensures forall i :: 0 <= i < |ids| ==> Share(ids, [], i) == []
  {
  }

  lemma ShareStep(ids: seq<int>, children: seq<Child>, k: nat, i: nat)
    requires k < |children| && i < |ids|
    ensures Share(ids, children[..k + 1], i) ==
      if LastOf(ids, i) && children[k].fk == Some(ids[i]) then Share(ids, children[..k], i) + [children[k]]
      else Share(ids, children[..k], i)
  {
    assert children[..k + 1] == children[..k] + [children[k]];
    FilterAppend(children[..k], children[k], PointsTo(ids[i]));
  }

  /** The number of children handed out: all of them, or those before the first that has no
      parent in the batch. */
  function Placed(children: seq<Child>, err: Option<nat>): nat {
    match err case None => |children| case Some(k) => k
  }

  method LoadChildren(nodes: seq<Account>, children: seq<Child>) returns (err: Option<nat>)
    requires Distinct(nodes)
    modifies nodes
    ensures err.Some? ==> err.value < |children| && !Placeable(Ids(nodes), children[err.value])
    ensures forall c :: c in children[..Placed(children, err)] ==> Placeable(Ids(nodes), c)
    ensures forall i :: 0 <= i < |nodes| ==>
      nodes[i].children == Some(Share(Ids(nodes), children[..Placed(children, err)], i))
    ensures forall n :: n in nodes ==> n.groups == old(n.groups) && n.proxy == old(n.proxy)
  {
    hide Share, LastOf;
    var nodeids := StartChildren(nodes);
    ghost var ids := Ids(nodes);
    ShareNone(ids);
    for k := 0 to |children|
      invariant forall c :: c in children[..k] ==> Placeable(ids, c)
      invariant forall i :: 0 <= i < |nodes| ==> nodes[i].children == Some(Share(ids, children[..k], i))
      invariant forall n :: n in nodes ==> n.groups == old(n.groups) && n.proxy == old(n.proxy)
    {
      var n := children[k];
      if n.fk.None? {
        return Some(k);
      }
      var fk := n.fk.value;
      if fk !in nodeids {
        return Some(k);
      }
      var node := nodeids[fk];
      forall i | 0 <= i < |nodes|
        ensures Some(Share(ids, children[..k + 1], i)) ==
          if nodes[i] == node then Append(nodes[i].children, n) else nodes[i].children
      {
        ShareStep(ids, children, k, i);
        assert nodes[i] == node <==> LastOf(ids, i) && fk == ids[i];
      }
      node.children := Append(node.children, n);
      assert children[..k + 1] == children[..k] + [n];
    }
    err := None;
  }

  /** The query for the children of a batch: WHERE fk IN (ids). */
  function ChildrenOf(table: seq<Child>, ids: seq<int>): seq<Child> {
    Filter(table, InBatch(ids))
  }

  function InBatch(ids: seq<int>): Child -> bool {
    (c: Child) => Placeable(ids, c)
  }

  /** One query per batch finds for each parent just what a query of its own would find. */
  lemma BatchOwns(table: seq<Child>, ids: seq<int>)
    ensures forall k :: 0 <= k < |ChildrenOf(table, ids)| ==> Placeable(ids, ChildrenOf(table, ids)[k])
    ensures forall i :: 0 <= i < |ids| ==> Owned(ChildrenOf(table, ids), ids[i]) == Owned(table, ids[i])
  {
    FilterMembers(table, InBatch(ids));
    forall i | 0 <= i < |ids|
      ensures Owned(ChildrenOf(table, ids), ids[i]) == Owned(table, ids[i])
    {
      FilterTwice(table, InBatch(ids), PointsTo(ids[i]));
    }
  }

  method QueryAndLoadChildren(nodes: seq<Account>, table: seq<Child>)
    requires Distinct(nodes)
    modifies nodes
    ensures forall i :: 0 <= i < |nodes| ==>
      nodes[i].children == Some(if LastOf(Ids(nodes), i) then Owned(table, nodes[i].id) else [])
    ensures forall n :: n in nodes ==> n.groups == old(n.groups) && n.proxy == old(n.proxy)
  {
    BatchOwns(table, Ids(nodes));
    var children := ChildrenOf(table, Ids(nodes));
    assert children[..|children|] == children;
    var err := LoadChildren(nodes, children);
  }

  /** Of two nodes with ID 7 the first gets no child and the second all. */
  lemma ShadowedGetsNone(c: Child)
    requires c.fk == Some(7)
    ensures Share([7, 7], [c], 0) == [] && Share([7, 7], [c], 1) == [c]
  {
    var ids := [7, 7];
    assert ids[1] == ids[0] && !LastOf(ids, 0) && LastOf(ids, 1);
    FilterAppend([], c, PointsTo(7));
    assert [] + [c] == [c];
  }

  function TotalShares(ids: seq<int>, children: seq<Child>, n: nat): nat
    requires n <= |ids|
  {
    if n == 0 then 0 else TotalShares(ids, children, n - 1) + |Share(ids, children, n - 1)|
  }

  /** Loading loses and duplicates no child: the list lengths add up, even when IDs repeat. */
  lemma {:induction false} ChildrenConserved(ids: seq<int>, children: seq<Child>)
    requires forall c :: c in children ==> Placeable(ids, c)
    ensures TotalShares(ids, children, |ids|) == |children|
  {
    if children == [] {
      SharesOfNone(ids, |ids|);
    } else {
      var k := |children| - 1;
      assert children[..k + 1] == children && children[k] in children;
      ChildrenConserved(ids, children[..k]);
      var t := LastIndex(ids, children[k].fk.value);
      OneShareGrows(ids, children, t, |ids|);
    }
  }

  lemma {:induction false} SharesOfNone(ids: seq<int>, n: nat)
    requires n <= |ids|
    ensures TotalShares(ids, [], n) == 0
  {
    if n > 0 {
      SharesOfNone(ids, n - 1);
      ShareNone(ids);
    }
  }

  function LastIndex(ids: seq<int>, id: int): (t: nat)
    requires id in ids
    ensures t < |ids| && ids[t] == id && LastOf(ids, t)
  {
    if Last(ids) == id then |ids| - 1 else LastIndex(Front(ids), id)
  }

  lemma {:induction false} OneShareGrows(ids: seq<int>, children: seq<Child>, t: nat, n: nat)
    requires children != [] && n <= |ids| && t < |ids| && LastOf(ids, t) && Last(children).fk == Some(ids[t])
    ensures TotalShares(ids, children, n) == TotalShares(ids, Front(children), n) + if t < n then 1 else 0
  {
    if n > 0 {
      OneShareGrows(ids, children, t, n - 1);
      assert children[..|children|] == children;
      ShareStep(ids, children, |children| - 1, n - 1);
      assert LastOf(ids, n - 1) && ids[n - 1] == ids[t] ==> n - 1 == t;
    }
  }

  function ChildIds(children: seq<Child>): (ids: seq<int>)
    ensures |ids| == |children| && forall k :: 0 <= k < |ids| ==> ids[k] == children[k].id
  {
    seq(|children|, k requires 0 <= k < |children| => children[k].id)
  }

  /** The children agree on what loading reads of them: their own key and that of the parent. */
  predicate SameKeys(c: seq<Child>, d: seq<Child>) {
    |c| == |d| && forall k :: 0 <= k < |c| ==> c[k].id == d[k].id && c[k].fk == d[k].fk
  }

  /** Loading sees nothing but keys: children that agree on them are handed out alike, and the
      load fails at the same child. */
  lemma {:induction false} KeysDecideShares(ids: seq<int>, c: seq<Child>, d: seq<Child>, i: nat)
    requires SameKeys(c, d) && i < |ids|
    ensures ChildIds(Share(ids, c, i)) == ChildIds(Share(ids, d, i))
    ensures forall k :: 0 <= k < |c| ==> (Placeable(ids, c[k]) <==> Placeable(ids, d[k]))
  {
    hide LastOf;
    if c != [] {
      KeysDecideShares(ids, Front(c), Front(d), i);
      var n := |c| - 1;
      ShareStep(ids, c, n, i);
      ShareStep(ids, d, n, i);
      assert c[..n + 1] == c && d[..n + 1] == d && c[..n] == Front(c) && d[..n] == Front(d);
    }
  }

  // ----- Many to one -----

  /** The non-NULL foreign keys of a batch, in node order. */
  function Keys(nodes: seq<Account>): seq<int> {
    if nodes == [] then []
    else if Last(nodes).proxyId.Some? then Keys(Front(nodes)) + [Last(nodes).proxyId.value]
    else Keys(Front(nodes))
  }

  lemma {:induction false} KeysMembers(nodes: seq<Account>)
    ensures forall i :: 0 <= i < |nodes| && nodes[i].proxyId.Some? ==> nodes[i].proxyId.value in Keys(nodes)
    ensures forall k :: k in Keys(nodes) ==> exists i :: 0 <= i < |nodes| && nodes[i].proxyId == Some(k)
  {
    if nodes != [] {
      KeysMembers(Front(nodes));
      forall k | k in Keys(nodes)
        ensures exists i :: 0 <= i < |nodes| && nodes[i].proxyId == Some(k)
      {
        if k in Keys(Front(nodes)) {
          var i :| 0 <= i < |nodes| - 1 && Front(nodes)[i].proxyId == Some(k);
          assert nodes[i].proxyId == Some(k);
        }
      }
    }
  }

  function Pointing(nodes: seq<Account>, key: int): seq<Account> {
    Filter(nodes, PointsToProxy(key))
  }

  function PointsToProxy(key: int): Account -> bool {
    (n: Account) => n.proxyId == Some(key)
  }

  /** Groups the nodes by foreign key and lists each key once, in order of first use. */
  method CollectKeys(nodes: seq<Account>) returns (ids: seq<int>, nodeids: map<int, seq<Account>>)
    ensures ids == Dedup(Keys(nodes))
    ensures forall k :: k in nodeids <==> k in Keys(nodes)
    ensures forall k :: k in nodeids ==> nodeids[k] == Pointing(nodes, k)
  {
    ids, nodeids := [], map[];
    for i := 0 to |nodes|
      invariant ids == Dedup(Keys(nodes[..i]))
      invariant forall k :: k in nodeids <==> k in Keys(nodes[..i])
      invariant forall k :: Pointing(nodes[..i], k) == if k in nodeids then nodeids[k] else []
    {
      var n := nodes[i];
      var done := nodes[..i + 1];
      assert done == nodes[..i] + [n] && Front(done) == nodes[..i];
      if n.proxyId.None? {
        continue;
      }
      var fk := n.proxyId.value;
      assert Front(Keys(done)) == Keys(nodes[..i]);
      if fk !in nodeids {
        ids := ids + [fk];
      }
      nodeids := nodeids[fk := (if fk in nodeids then nodeids[fk] else []) + [n]];
    }
    assert nodes[..|nodes|] == nodes;
  }

  /** The neighbour of key `fk` among `neighbors`; the last one if the key repeats. */
  function Lookup(neighbors: seq<Neighbor>, fk: Option<int>): Neighbor? {
    if neighbors == [] || fk.None? then null
    else if Last(neighbors).id == fk.value then Last(neighbors)
    else Lookup(Front(neighbors), fk)
  }

  lemma {:induction false} LookupFinds(neighbors: seq<Neighbor>, fk: Option<int>)
    ensures var p := Lookup(neighbors, fk);
      if p == null then forall n :: n in neighbors ==> fk != Some(n.id)
      else p in neighbors && fk == Some(p.id)
  {
    if neighbors != [] && fk.Some? {
      LookupFinds(Front(neighbors), fk);
      assert neighbors == Front(neighbors) + [Last(neighbors)];
    }
  }

  lemma PointingNodes(nodes: seq<Account>, key: int)
    ensures forall i :: 0 <= i < |Pointing(nodes, key)| ==> Pointing(nodes, key)[i] in nodes
    ensures forall i :: 0 <= i < |nodes| ==> (nodes[i] in Pointing(nodes, key) <==> nodes[i].proxyId == Some(key))
  {
    FilterMembers(nodes, PointsToProxy(key));
    var list := Pointing(nodes, key);
    assert forall i :: 0 <= i < |list| ==> PointsToProxy(key)(list[i]);
    assert forall i :: 0 <= i < |nodes| && nodes[i].proxyId == Some(key) ==> PointsToProxy(key)(nodes[i]);
  }

  /** Assigns one neighbour to some of the nodes. */
  method PointAll(nodes: seq<Account>, list: seq<Account>, nb: Neighbor)
    requires forall i :: 0 <= i < |list| ==> list[i] in nodes
    modifies nodes
    ensures forall n :: n in nodes ==> n.proxy == if n in list then nb else old(n.proxy)
    ensures forall n :: n in nodes ==> n.groups == old(n.groups) && n.children == old(n.children)
  {
    for i := 0 to |list|
      invariant forall n :: n in nodes ==> n.proxy == if n in list[..i] then nb else old(n.proxy)
      invariant forall n :: n in nodes ==> n.groups == old(n.groups) && n.children == old(n.children)
    {
      list[i].proxy := nb;
      assert list[..i + 1] == list[..i] + [list[i]];
    }
    assert list[..|list|] == list;
  }

  /** Hands each neighbour to the nodes that point to it; stops at the first neighbour no
      node points to. */
  method AssignProxies(nodes: seq<Account>, nodeids: map<int, seq<Account>>, neighbors: seq<Neighbor>)
    returns (err: Option<nat>)
    requires forall k :: k in nodeids <==> k in Keys(nodes)
    requires forall k :: k in nodeids ==> nodeids[k] == Pointing(nodes, k)
    requires forall n :: n in nodes ==> n.proxy == null
    modifies nodes
    ensures err.Some? ==> err.value < |neighbors| && neighbors[err.value].id !in Keys(nodes)
    ensures forall k :: 0 <= k < (if err.Some? then err.value else |neighbors|) ==> neighbors[k].id in Keys(nodes)
    ensures forall n :: n in nodes ==>
      n.proxy == Lookup(neighbors[..if err.Some? then err.value else |neighbors|], n.proxyId)
    ensures forall n :: n in nodes ==> n.groups == old(n.groups) && n.children == old(n.children)
  {
    for k := 0 to |neighbors|
      invariant forall j :: 0 <= j < k ==> neighbors[j].id in Keys(nodes)
      invariant forall n :: n in nodes ==> n.proxy == Lookup(neighbors[..k], n.proxyId)
      invariant forall n :: n in nodes ==> n.groups == old(n.groups) && n.children == old(n.children)
    {
      var nb := neighbors[k];
      if nb.id !in nodeids {
        return Some(k);
      }
      PointingNodes(nodes, nb.id);
      PointAll(nodes, nodeids[nb.id], nb);
      assert neighbors[..k + 1] == neighbors[..k] + [nb] && Front(neighbors[..k + 1]) == neighbors[..k];
    }
    assert neighbors[..|neighbors|] == neighbors;
    err := None;
  }

  function NeighborsIn(table: seq<Neighbor>, ids: seq<int>): seq<Neighbor> {
    Filter(table, IdIn(ids))
  }

  function IdIn(ids: seq<int>): Neighbor -> bool {
    (p: Neighbor) => p.id in ids
  }

  /** Looking a key up among the rows the batch query returned is looking it up in the table. */
  lemma {:induction false} BatchLooksUp(table: seq<Neighbor>, ids: seq<int>, fk: Option<int>)
    requires fk.Some? ==> fk.value in ids
    ensures Lookup(NeighborsIn(table, ids), fk) == Lookup(table, fk)
  {
    if table != [] {
      BatchLooksUp(Front(table), ids, fk);
      var r := NeighborsIn(Front(table), ids);
      assert Front(r + [Last(table)]) == r;
    }
  }

  /** Many to one, with its query: no query if no node has a key, else WHERE id IN (ids). */
  method LoadProxy(nodes: seq<Account>, table: seq<Neighbor>) returns (queried: seq<int>)
    requires forall n :: n in nodes ==> n.proxy == null
    modifies nodes
    ensures Distinct(queried)
    ensures forall k :: k in queried <==> exists i :: 0 <= i < |nodes| && nodes[i].proxyId == Some(k)
    ensures forall n :: n in nodes ==> n.proxy == Lookup(table, n.proxyId)
    ensures forall n :: n in nodes ==> n.groups == old(n.groups) && n.children == old(n.children)
  {
    var ids, nodeids := CollectKeys(nodes);
    KeysMembers(nodes);
    DedupMembers(Keys(nodes));
    queried := ids;
    forall n | n in nodes
      ensures Lookup(NeighborsIn(table, ids), n.proxyId) == Lookup(table, n.proxyId)
    {
      BatchLooksUp(table, ids, n.proxyId);
    }
    if |ids| == 0 {
      return;
    }
    var neighbors := NeighborsIn(table, ids);
    FilterMembers(table, IdIn(ids));
    assert forall k :: 0 <= k < |neighbors| ==> IdIn(ids)(neighbors[k]);
    assert neighbors[..|neighbors|] == neighbors;
    var err := AssignProxies(nodes, nodeids, neighbors);
  }
}
