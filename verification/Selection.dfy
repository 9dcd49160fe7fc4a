/** Field selection: the columns a query compiles its selected fields to, and why the keys the
    eager loaders read are always among them. */
module Selection {
  import opened Options
  import opened Sequences
  import opened AccountRows
  import EagerLoading
  import Groups
  import QueryAll

  /** The selected fields as a column list: the ID leads, and the key of a requested proxy edge
      is added; no selection means all columns. */
  function Compiled(fields: seq<Column>, withProxy: bool): seq<Column> {
    var columns := KeyFirst(Id, fields, Columns());
    if fields != [] && withProxy then AddOnce(columns, ProxyId) else columns
  }

  /** The column list of an account query. */
  method CompileColumns(fields: seq<Column>, withProxy: bool) returns (columns: seq<Column>)
    ensures columns == Compiled(fields, withProxy)
  {
    columns := Columns();
    if |fields| > 0 {
      columns := [Id];
      for i := 0 to |fields|
        invariant columns == [Id] + Filter(fields[..i], Not(Id))
      {
        assert fields[..i + 1] == fields[..i] + [fields[i]];
        FilterAppend(fields[..i], fields[i], Not(Id));
        if fields[i] != Id {
          columns := columns + [fields[i]];
        }
      }
      assert fields[..|fields|] == fields;
      if withProxy {
        columns := AddOnce(columns, ProxyId);
      }
    }
  }

  /** The ID is selected, first and once, with the selected fields and the loader's key, and
      nothing else. */
  lemma CompiledColumns(fields: seq<Column>, withProxy: bool)
    requires fields != []
    ensures var cs := Compiled(fields, withProxy);
      && cs[0] == Id && (forall i :: 0 < i < |cs| ==> cs[i] != Id)
      && (forall c :: c in cs <==> c == Id || c in fields || (withProxy && c == ProxyId))
  {
    hide Columns;
    KeyFirstColumns(Id, fields, Columns());
  }

  /** The entity was scanned, and has the fields that loading reads. */
  predicate Loadable(r: Result) {
    r.Ok? && Id in r.fields && ProxyId in r.fields
  }

  /** What loading reads of an entity. */
  function Keys(r: Result): QueryAll.AccountRow
    requires Loadable(r)
  {
    var id, proxyId := r.fields[Id], r.fields[ProxyId];
    QueryAll.AccountRow(if id.Int? then id.i else 0, if proxyId.Int? then Some(proxyId.i) else None)
  }

  function Read(codec: Codec, row: Column -> Value, columns: seq<Column>): Result {
    AssignAll(codec, Fresh(), columns, Scanned(row, columns))
  }

  /** The key of the proxy is among the columns, or no selection was made. */
  predicate SelectsProxy(fields: seq<Column>, withProxy: bool) {
    fields == [] || withProxy || ProxyId in fields
  }

  /** Scanning succeeds whatever is selected, and the entity has its ID and, if it is among the
      columns, the key of its proxy. */
  lemma SelectionKeepsKeys(codec: Codec, row: Column -> Value, fields: seq<Column>, withProxy: bool)
    requires Readable(codec, row)
    ensures Loadable(Read(codec, row, Compiled(fields, withProxy))) && Loadable(Read(codec, row, Columns()))
    ensures var some, all := Read(codec, row, Compiled(fields, withProxy)), Read(codec, row, Columns());
      Keys(some).id == Keys(all).id && (SelectsProxy(fields, withProxy) ==> Keys(some) == Keys(all))
  {
    hide Columns, Decoded, Readable, AssignAll, Scanned, Compiled, Zero;
    forall c, cs | c in {Id, ProxyId} && cs in {Compiled(fields, withProxy), Columns()}
      ensures var r := AssignAll(codec, Fresh(), cs, Scanned(row, cs));
        && r.Ok? && c in r.fields
        && r.fields[c] == if Sets(codec, row, cs, c) then Decoded(codec, c, row(c)).value else Zero(c)
    {
      FreshReads(codec, row, cs, c);
    }
    ColumnsAreFields(Id);
    ColumnsAreFields(ProxyId);
    if fields != [] {
      CompiledColumns(fields, withProxy);
    } else {
      NoSelection(withProxy);
    }
  }

  /** The selection of a child query, after its parent's loader added the key it hands the
      children out by. */
  function WithParentKey(fields: seq<Column>): seq<Column> {
    if fields == [] then [] else AddOnce(fields, ProxyId)
  }

  /** Accounts loaded as the children of their proxies keep the key of their parent, whatever
      fields are selected. */
  lemma ChildrenKeepParentKey(codec: Codec, row: Column -> Value, fields: seq<Column>, withProxy: bool)
    requires Readable(codec, row)
    ensures Loadable(Read(codec, row, Compiled(WithParentKey(fields), withProxy)))
      && Loadable(Read(codec, row, Columns()))
    ensures Keys(Read(codec, row, Compiled(WithParentKey(fields), withProxy))) == Keys(Read(codec, row, Columns()))
  {
    hide Compiled, Read, Columns, Readable, Loadable, Keys;
    SelectionKeepsKeys(codec, row, WithParentKey(fields), withProxy);
  }

  /** The rows that loading sees when a table is read with some columns. */
  function LoadedRows(codec: Codec, table: seq<Column -> Value>, columns: seq<Column>): (rows: seq<QueryAll.AccountRow>)
    ensures |rows| == |table|
    ensures forall i :: 0 <= i < |table| ==>
      rows[i] == var r := Read(codec, table[i], columns); if Loadable(r) then Keys(r) else QueryAll.AccountRow(0, None)
  {
    seq(|table|, i requires 0 <= i < |table| =>
      var r := Read(codec, table[i], columns); if Loadable(r) then Keys(r) else QueryAll.AccountRow(0, None))
  }

  /** The children have the keys that were read of their rows. */
  predicate ReadFrom(children: seq<EagerLoading.Child>, rows: seq<QueryAll.AccountRow>) {
    && |children| == |rows|
    && (forall k :: 0 <= k < |rows| ==> children[k].id == rows[k].id && children[k].fk == rows[k].proxyId)
  }

  predicate AllReadable(codec: Codec, table: seq<Column -> Value>) {
    forall i :: 0 <= i < |table| ==> Readable(codec, table[i])
  }

  /** Every edge accessor of every node answers as it would without a field selection. */
  lemma EdgesIgnoreSelection(codec: Codec, table: seq<Column -> Value>, fields: seq<Column>, with: QueryAll.With,
                             neighbors: seq<Groups.Group>, i: nat)
    requires AllReadable(codec, table) && i < |table|
    ensures forall cs, k :: cs in {Compiled(fields, with.proxy.Some?), Columns()} && 0 <= k < |table| ==>
      Loadable(Read(codec, table[k], cs))
    ensures var some := LoadedRows(codec, table, Compiled(fields, with.proxy.Some?));
      var all := LoadedRows(codec, table, Columns());
      && |some| == |all| == |table|
      && QueryAll.GroupsAnswer(with, some, neighbors, i) == QueryAll.GroupsAnswer(with, all, neighbors, i)
      && QueryAll.ProxyAnswer(with, some[i]) == QueryAll.ProxyAnswer(with, all[i])
      && QueryAll.ChildrenAnswer(with, some, i) == QueryAll.ChildrenAnswer(with, all, i)
  {
    hide Columns, Compiled, Read, Loadable, Readable;
    var withProxy := with.proxy.Some?;
    forall k | 0 <= k < |table|
      ensures Loadable(Read(codec, table[k], Compiled(fields, withProxy))) && Loadable(Read(codec, table[k], Columns()))
      ensures var some, all := Read(codec, table[k], Compiled(fields, withProxy)), Read(codec, table[k], Columns());
        Keys(some).id == Keys(all).id && (withProxy ==> Keys(some) == Keys(all))
    {
      assert Readable(codec, table[k]);
      SelectionKeepsKeys(codec, table[k], fields, withProxy);
    }
    var some, all := LoadedRows(codec, table, Compiled(fields, withProxy)), LoadedRows(codec, table, Columns());
    assert QueryAll.RowIds(some) == QueryAll.RowIds(all);
  }

  lemma NoSelection(withProxy: bool)
    ensures Compiled([], withProxy) == Columns()
  {
  }

  /** Accounts handed out to their proxies: whatever fields are selected on the query for the
      accounts, each proxy gets the same accounts in the same order as with all columns, and
      the load fails at the same account if it fails. */
  lemma ChildrenIgnoreSelection(codec: Codec, rows: seq<Column -> Value>, fields: seq<Column>, withProxy: bool,
                                some: seq<EagerLoading.Child>, all: seq<EagerLoading.Child>, ids: seq<int>, i: nat)
    requires AllReadable(codec, rows) && i < |ids|
    requires ReadFrom(some, LoadedRows(codec, rows, Compiled(WithParentKey(fields), withProxy)))
    requires ReadFrom(all, LoadedRows(codec, rows, Columns()))
    ensures EagerLoading.ChildIds(EagerLoading.Share(ids, some, i)) ==
      EagerLoading.ChildIds(EagerLoading.Share(ids, all, i))
    ensures forall k :: 0 <= k < |some| == |all| ==>
      (EagerLoading.Placeable(ids, some[k]) <==> EagerLoading.Placeable(ids, all[k]))
  {
    hide Compiled, Read, Columns, Readable, Loadable, Keys, EagerLoading.Share, EagerLoading.Placeable;
    forall k | 0 <= k < |rows|
      ensures some[k].id == all[k].id && some[k].fk == all[k].fk
    {
      assert Readable(codec, rows[k]);
      ChildrenKeepParentKey(codec, rows[k], fields, withProxy);
    }
    EagerLoading.KeysDecideShares(ids, some, all, i);
  }
}
