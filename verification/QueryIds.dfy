/** `All` and `IDs` compile the same builder in two ways, one to a query spec for whole nodes
    and one to a selector for a single column.  When do they agree on the IDs? */
module QueryIds {
  import opened Options
  import opened Sequences

  datatype Row = Row(id: int, rest: string)

  /** Where the rows come from: a table, or a traversal path, which may repeat rows. */
  datatype Source = Table(rows: seq<Row>) | Path(rows: seq<Row>)

  /** The builder.  `arrange` is the effect of its ORDER BY on a list of rows. */
  datatype Query = Query(
    source: Source, keep: Row -> bool, arrange: seq<Row> -> seq<Row>,
    unique: Option<bool>, offset: Option<nat>, limit: Option<nat>)

  const MAX_INT32: nat := 0x7fff_ffff

  function Min(a: nat, b: nat): nat {
    if a <= b then a else b
  }

  /** OFFSET and LIMIT. */
  function Window<T>(s: seq<T>, offset: nat, limit: Option<nat>): seq<T> {
    var rest := s[Min(offset, |s|)..];
    if limit.None? then rest else rest[..Min(limit.value, |rest|)]
  }

  function IdsOf(rows: seq<Row>): (ids: seq<int>)
    ensures |ids| == |rows| && forall i :: 0 <= i < |rows| ==> ids[i] == rows[i].id
  {
    seq(|rows|, i requires 0 <= i < |rows| => rows[i].id)
  }

  // ----- All -----

  /** The compiled spec; an absent bound is a zero. */
  datatype QuerySpec = QuerySpec(unique: bool, offset: nat, limit: nat)

  function Compile(q: Query): QuerySpec {
    QuerySpec(
      if q.unique.Some? then q.unique.value else q.source.Path?,
      if q.offset.Some? then q.offset.value else 0,
      if q.limit.Some? then q.limit.value else 0)
  }

  /** Running a spec: a zero limit is none, and an offset without a limit may get a bound
      (`cap`) from the executor. */
  function All(q: Query, cap: Option<nat>): seq<Row> {
    var spec := Compile(q);
    var rows := Filter(q.source.rows, q.keep);
    var found := q.arrange(if spec.unique then Dedup(rows) else rows);
    Window(found, spec.offset, if spec.limit != 0 then Some(spec.limit) else if spec.offset != 0 then cap else None)
  }

  // ----- IDs -----

  /** The first row of each ID, in order. */
  function FirstById(rows: seq<Row>): seq<Row> {
    if rows == [] then []
    else if Last(rows).id in IdsOf(Front(rows)) then FirstById(Front(rows))
    else FirstById(Front(rows)) + [Last(rows)]
  }

  /** IDs makes the query unique on a path unless told otherwise, selects the ID column alone,
      and gives an offset without a limit the largest limit there is. */
  function Ids(q: Query): seq<int> {
    var unique := if q.unique.None? && q.source.Path? then Some(true) else q.unique;
    var rows := Filter(q.source.rows, q.keep);
    var found := q.arrange(if unique == Some(true) then FirstById(rows) else rows);
    IdsOf(Window(found, if q.offset.Some? then q.offset.value else 0,
                 if q.limit.Some? then q.limit else if q.offset.Some? then Some(MAX_INT32) else None))
  }

  // ----- Agreement -----

  /** The ID is a key. */
  predicate Keyed(rows: seq<Row>) {
    forall i, j :: 0 <= i < |rows| && 0 <= j < |rows| && rows[i].id == rows[j].id ==> rows[i] == rows[j]
  }

  lemma {:induction false} DistinctRowsAreDistinctIds(rows: seq<Row>)
    requires Keyed(rows)
    ensures Dedup(rows) == FirstById(rows)
  {
    if rows != [] {
      var before, r := Front(rows), Last(rows);
      DistinctRowsAreDistinctIds(before);
      assert forall i :: 0 <= i < |before| ==> IdsOf(before)[i] == before[i].id;
      if r.id in IdsOf(before) {
        var i :| 0 <= i < |before| && IdsOf(before)[i] == r.id;
        assert rows[i] == r && before[i] == r;
      }
    }
  }

  lemma {:induction false} FilterKeepsKeyed(rows: seq<Row>, p: Row -> bool)
    requires Keyed(rows)
    ensures Keyed(Filter(rows, p))
  {
    FilterMembers(rows, p);
  }

  /** The rows that are put in order. */
  function Selected(q: Query): seq<Row> {
    var rows := Filter(q.source.rows, q.keep);
    if Compile(q).unique then Dedup(rows) else rows
  }

  /** The rows both queries cut a window out of. */
  function Found(q: Query): seq<Row> {
    q.arrange(Selected(q))
  }

  /** The rows after which the window starts. */
  function Start(q: Query): nat {
    if q.offset.Some? then q.offset.value else 0
  }

  lemma SameRowsFound(q: Query, cap: Option<nat>)
    requires Keyed(q.source.rows)
    ensures var start, found := if q.offset.Some? then q.offset.value else 0, q.arrange(Selected(q));
      && All(q, cap) == Window(found, start,
           if Compile(q).limit != 0 then Some(Compile(q).limit) else if start != 0 then cap else None)
      && Ids(q) == IdsOf(Window(found, start,
           if q.limit.Some? then q.limit else if q.offset.Some? then Some(MAX_INT32) else None))
  {
    FilterKeepsKeyed(q.source.rows, q.keep);
    DistinctRowsAreDistinctIds(Filter(q.source.rows, q.keep));
  }

  /** A window starts at the offset and keeps as many rows as there are, up to the limit. */
  lemma WindowKeeps<T>(s: seq<T>, offset: nat, limit: Option<nat>)
    ensures var w := Window(s, offset, limit);
      && (forall k :: 0 <= k < |w| ==> offset + k < |s| && w[k] == s[offset + k])
      && |w| == (if offset >= |s| then 0
                 else if limit.Some? && limit.value < |s| - offset then limit.value
                 else |s| - offset)
  {
  }

  /** The list holds each row that satisfies the predicates, as often and in the order it comes. */
  ghost predicate AllKept(q: Query, list: seq<Row>) {
    exists at: seq<nat> :: Picks(q.source.rows, at, list) &&
      forall i :: 0 <= i < |q.source.rows| ==> (q.keep(q.source.rows[i]) <==> i in at)
  }

  lemma RowsKept(q: Query)
    ensures forall r :: r in Filter(q.source.rows, q.keep) <==> r in q.source.rows && q.keep(r)
  {
    FilterMembers(q.source.rows, q.keep);
    hide Filter;
    var list := Filter(q.source.rows, q.keep);
    forall r
      ensures r in list <==> r in q.source.rows && q.keep(r)
    {
      if r in list {
        var k :| 0 <= k < |list| && list[k] == r;
      }
      if r in q.source.rows && q.keep(r) {
        var i :| 0 <= i < |q.source.rows| && q.source.rows[i] == r;
      }
    }
  }

  /** A query is unique if it says so, and on a path unless it says otherwise.  Then each row kept is
      selected once, and no ID comes twice; else all rows kept are, in their order. */
  lemma SelectedMeans(q: Query)
    requires Keyed(q.source.rows)
    ensures if q.unique == Some(true) || (q.unique.None? && q.source.Path?) then
        && Distinct(IdsOf(Selected(q)))
        && (forall r :: r in Selected(q) <==> r in q.source.rows && q.keep(r))
      else AllKept(q, Selected(q))
  {
    var rows := Filter(q.source.rows, q.keep);
    RowsAreKept(q);
    RowsKept(q);
    DedupMembers(rows);
    FilterKeepsKeyed(q.source.rows, q.keep);
    hide AllKept, Filter, Dedup, IdsOf, Distinct, Keyed;
    DistinctIds(Dedup(rows), rows);
  }

  lemma RowsAreKept(q: Query)
    ensures AllKept(q, Filter(q.source.rows, q.keep))
  {
    var at := FilterMeans(q.source.rows, q.keep);
  }

  lemma DistinctIds(some: seq<Row>, all: seq<Row>)
    requires Keyed(all) && Distinct(some) && forall r :: r in some <==> r in all
    ensures Distinct(IdsOf(some))
  {
    var ids := IdsOf(some);
    forall i, j | 0 <= i < j < |ids|
      ensures ids[i] != ids[j]
    {
      assert some[i] in all && some[j] in all;
      var a, b :| 0 <= a < |all| && 0 <= b < |all| && all[a] == some[i] && all[b] == some[j];
    }
  }

  /** For every Unique setting, predicate, order, offset and limit, on tables and on paths, the
      two give the same IDs if and only if both hold: a zero limit has nothing to limit; and an
      offset without a limit, unless the executor bounds it as well, leaves no more than
      MAX_INT32 rows. */
  lemma IdsAgreeIff(q: Query, cap: Option<nat>)
    requires Keyed(q.source.rows)
    requires cap.None? || cap == Some(MAX_INT32)
    ensures Ids(q) == IdsOf(All(q, cap)) <==>
      && (q.limit == Some(0) ==> |Found(q)| <= Start(q))
      && (q.limit.None? && q.offset.Some? && (Start(q) == 0 || cap.None?) ==> |Found(q)| <= Start(q) + 0x7fff_ffff)
  {
    hide Dedup, FirstById, Filter, Compile, All, Ids;
    SameRowsFound(q, cap);
    CompiledLimit(q);
    var rest := Found(q)[Min(Start(q), |Found(q)|)..];
    assert rest[..|rest|] == rest;
    assert rest[..0] == [];
  }

  lemma CompiledLimit(q: Query)
    ensures Compile(q).limit == if q.limit.Some? then q.limit.value else 0
  {
  }

  // ----- Where they differ -----

  /** A query for all rows of a table, in their order. */
  function Plain(rows: seq<Row>, offset: Option<nat>, limit: Option<nat>): Query {
    Query(Table(rows), Any(), s => s, None, offset, limit)
  }

  function Any(): Row -> bool {
    (r: Row) => true
  }

  lemma PlainFinds(rows: seq<Row>, offset: Option<nat>, limit: Option<nat>)
    ensures Found(Plain(rows, offset, limit)) == rows
  {
    FilterAll(rows, Any());
  }

  /** With a limit of zero, one row is enough: `All` returns it and `IDs` does not. */
  lemma ZeroLimitDiffers(r: Row, cap: Option<nat>)
    requires cap.None? || cap == Some(MAX_INT32)
    ensures var q := Plain([r], None, Some(0)); All(q, cap) == [r] && Ids(q) == []
  {
    var q := Plain([r], None, Some(0));
    PlainFinds([r], None, Some(0));
    assert Front([r]) == [];
    SameRowsFound(q, cap);
  }

  /** With an offset of zero and no limit, `IDs` loses the last row of a table that is longer
      than the largest limit by one. */
  lemma LongTableDiffers(cap: Option<nat>)
    requires cap.None? || cap == Some(MAX_INT32)
    ensures var q := Plain(seq(MAX_INT32 + 1, i => Row(i, "")), Some(0), None);
      |All(q, cap)| == MAX_INT32 + 1 && |Ids(q)| == MAX_INT32
  {
    var rows := seq(MAX_INT32 + 1, i => Row(i, ""));
    PlainFinds(rows, Some(0), None);
    hide Filter, Dedup, FirstById, All, Ids;
    SameRowsFound(Plain(rows, Some(0), None), cap);
  }
}
