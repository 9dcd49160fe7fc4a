/** The rows of a many-to-many query as they arrive: the key of the account in front, followed
    by the columns the group query compiled.  The loader finds the group's key by position. */
module JoinedRows {
  import opened Groups
  import opened Sequences

  /** A row of accounts JOIN groups. */
  datatype JoinRow = JoinRow(account: int, group: GroupRow)

  /** The column list of a group query. */
  function Compiled(fields: seq<GroupColumn>): seq<GroupColumn> {
    KeyFirst(GroupId, fields, GroupColumns())
  }

  method CompileGroupColumns(fields: seq<GroupColumn>) returns (columns: seq<GroupColumn>)
    ensures columns == Compiled(fields)
  {
    columns := GroupColumns();
    if |fields| > 0 {
      columns := [GroupId];
      for i := 0 to |fields|
        invariant columns == [GroupId] + Filter(fields[..i], Not(GroupId))
      {
        assert fields[..i + 1] == fields[..i] + [fields[i]];
        FilterAppend(fields[..i], fields[i], Not(GroupId));
        if fields[i] != GroupId {
          columns := columns + [fields[i]];
        }
      }
      assert fields[..|fields|] == fields;
    }
  }

  /** A scanned value. */
  datatype Cell = Null | Key(k: int) | Content(s: string)

  function CellOf(g: GroupRow, c: GroupColumn): Cell {
    if c == GroupId then Key(g.id) else if c in g.rest then Content(g.rest[c]) else Null
  }

  function Cells(g: GroupRow, columns: seq<GroupColumn>): (vs: seq<Cell>)
    ensures |vs| == |columns| && forall i :: 0 <= i < |vs| ==> vs[i] == CellOf(g, columns[i])
  {
    seq(|columns|, i requires 0 <= i < |columns| => CellOf(g, columns[i]))
  }

  /** What the database returns for a joined row. */
  function JoinedCells(r: JoinRow, columns: seq<GroupColumn>): (vs: seq<Cell>)
    ensures |vs| == 1 + |columns|
  {
    [Key(r.account)] + Cells(r.group, columns)
  }

  function AssignGroup(g: GroupRow, c: GroupColumn, v: Cell): GroupRow {
    if c == GroupId then g.(id := if v.Key? then v.k else 0)
    else if v.Content? then g.(rest := g.rest[c := v.s])
    else g
  }

  /** The group assigned from scanned values, column by column. */
  function ReadGroup(columns: seq<GroupColumn>, vs: seq<Cell>): GroupRow
    requires |columns| <= |vs|
  {
    if columns == [] then GroupRow(0, map[])
    else AssignGroup(ReadGroup(Front(columns), vs), Last(columns), vs[|columns| - 1])
  }

  /** A row as the loader sees it through a selection. */
  function SeenRow(r: JoinRow, columns: seq<GroupColumn>): JoinRow {
    JoinRow(r.account, ReadGroup(columns, Cells(r.group, columns)))
  }

  function Seen(rows: seq<JoinRow>, fields: seq<GroupColumn>): (s: seq<JoinRow>)
    ensures |s| == |rows| && forall i :: 0 <= i < |rows| ==> s[i] == SeenRow(rows[i], Compiled(fields))
  {
    seq(|rows|, i requires 0 <= i < |rows| => SeenRow(rows[i], Compiled(fields)))
  }

  lemma {:induction false} ReadGroupPrefix(columns: seq<GroupColumn>, vs: seq<Cell>, ws: seq<Cell>)
    requires |columns| <= |vs| && |columns| <= |ws| && forall i :: 0 <= i < |columns| ==> vs[i] == ws[i]
    ensures ReadGroup(columns, vs) == ReadGroup(columns, ws)
  {
    if columns != [] {
      ReadGroupPrefix(Front(columns), vs, ws);
    }
  }

  /** A group has its key if and only if the key is among the columns it was read from. */
  lemma {:induction false} ReadGroupKey(g: GroupRow, columns: seq<GroupColumn>)
    ensures ReadGroup(columns, Cells(g, columns)).id == if GroupId in columns then g.id else 0
  {
    if columns != [] {
      ReadGroupKey(g, Front(columns));
      ReadGroupPrefix(Front(columns), Cells(g, columns), Cells(g, Front(columns)));
      assert columns == Front(columns) + [Last(columns)];
    }
  }

  lemma AssignsItsField(r: GroupRow, g: GroupRow, x: GroupColumn, c: GroupColumn)
    ensures var s := AssignGroup(r, x, CellOf(g, x));
      if c == x && c != GroupId && c in g.rest then c in s.rest && s.rest[c] == g.rest[c]
      else (c in s.rest <==> c in r.rest) && (c in r.rest ==> s.rest[c] == r.rest[c])
  {
  }

  /** Each column that was read and holds a value ends up in its own field, and nothing else does. */
  lemma {:induction false} ReadGroupField(g: GroupRow, columns: seq<GroupColumn>, c: GroupColumn)
    ensures var r := ReadGroup(columns, Cells(g, columns));
      if c != GroupId && c in columns && c in g.rest then c in r.rest && r.rest[c] == g.rest[c] else c !in r.rest
  {
    if columns != [] {
      var before, x := Front(columns), Last(columns);
      ReadGroupField(g, before, c);
      ReadGroupPrefix(before, Cells(g, columns), Cells(g, before));
      AssignsItsField(ReadGroup(before, Cells(g, before)), g, x, c);
      assert columns == before + [x];
      hide AssignGroup, CellOf;
    }
  }

  /** For every selection of group fields, the value behind the account's key is the key of the
      group, and the group read from the values has that key. */
  lemma GroupKeyIsSecond(r: JoinRow, fields: seq<GroupColumn>)
    ensures |Compiled(fields)| > 0
    ensures JoinedCells(r, Compiled(fields))[0] == Key(r.account)
    ensures JoinedCells(r, Compiled(fields))[1] == Key(r.group.id)
    ensures SeenRow(r, Compiled(fields)).group.id == r.group.id
  {
    KeyLeads(fields);
    hide GroupColumns, ReadGroup;
    ReadGroupKey(r.group, Compiled(fields));
    assert GroupId == Compiled(fields)[0];
  }

  /** A field is read if it is selected; without a selection, if the table has it. */
  predicate Selects(fields: seq<GroupColumn>, c: GroupColumn) {
    c != GroupId && if fields == [] then !c.Other? else c in fields
  }

  /** Object `r` is what a selection shows of group `g`: the key, and each selected field that is
      not NULL with its own value. */
  ghost predicate Shows(r: GroupRow, g: GroupRow, fields: seq<GroupColumn>) {
    && r.id == g.id
    && (forall c :: c in r.rest <==> Selects(fields, c) && c in g.rest)
    && (forall c :: c in r.rest ==> r.rest[c] == g.rest[c])
  }

  lemma SeenShows(r: JoinRow, fields: seq<GroupColumn>)
    ensures Shows(SeenRow(r, Compiled(fields)).group, r.group, fields)
  {
    GroupKeyIsSecond(r, fields);
    hide GroupColumns, ReadGroup, Compiled, Selects;
    var s := SeenRow(r, Compiled(fields)).group;
    forall c
      ensures if Selects(fields, c) && c in r.group.rest then c in s.rest && s.rest[c] == r.group.rest[c]
              else c !in s.rest
    {
      CompiledSelects(fields, c);
      ReadGroupField(r.group, Compiled(fields), c);
    }
  }

  lemma CompiledSelects(fields: seq<GroupColumn>, c: GroupColumn)
    ensures Selects(fields, c) <==> c != GroupId && c in Compiled(fields)
  {
    hide GroupColumns;
    ColumnsAreFields(c);
    if fields != [] {
      KeyFirstColumns(GroupId, fields, GroupColumns());
    }
  }

  lemma KeyLeads(fields: seq<GroupColumn>)
    ensures |Compiled(fields)| > 0 && Compiled(fields)[0] == GroupId
  {
    if fields != [] {
      KeyFirstColumns(GroupId, fields, GroupColumns());
    }
  }
}
