/** The groups an account gets from a batch, compared with those a query of its own would
    give it: always the same groups, each once; in the same order exactly when the query keeps
    the rows of each group together. */
module BatchOrder {
  import opened Groups
  import opened Options
  import opened Sequences
  import opened EagerLoading
  import opened JoinedRows
  import opened ManyToMany

  function IsPaired(rows: seq<JoinRow>, a: int): GroupRow -> bool {
    (g: GroupRow) => Paired(rows, a, g.id)
  }

  /** The list of account `a` in a batch with these joined rows. */
  function FromBatch(rows: seq<JoinRow>, a: int): seq<GroupRow> {
    Filter(FirstGroups(rows), IsPaired(rows, a))
  }

  /** The list of account `a` when it is queried alone. */
  function FromOwn(rows: seq<JoinRow>, a: int): seq<GroupRow> {
    FirstGroups(Filter(rows, AccountIs(a)))
  }

  /** A group key stands for one row of the groups table. */
  predicate Keyed(rows: seq<JoinRow>) {
    forall i, j :: 0 <= i < |rows| && 0 <= j < |rows| && rows[i].group.id == rows[j].group.id ==>
      rows[i].group == rows[j].group
  }

  /** The rows of each group are adjacent. */
  predicate Contiguous(rows: seq<JoinRow>) {
    rows != [] ==>
      && Contiguous(Front(rows))
      && (Mentions(Front(rows), Last(rows).group.id) ==> Last(Front(rows)).group.id == Last(rows).group.id)
  }

  // ----- The loader's lists are FromBatch -----

  /** The group objects an account holds carry just the rows of its batch list. */
  lemma {:induction false} MineIsFromBatch(neighbors: seq<Group>, rows: seq<JoinRow>, a: int)
    ensures RowsOf(Mine(neighbors, rows, a)) == Filter(RowsOf(neighbors), IsPaired(rows, a))
  {
    if neighbors != [] {
      MineIsFromBatch(Front(neighbors), rows, a);
      assert RowsOf(neighbors) == RowsOf(Front(neighbors)) + [Last(neighbors).row];
      FilterAppend(RowsOf(Front(neighbors)), Last(neighbors).row, IsPaired(rows, a));
    }
  }

  /** Restricting the joined table to a batch changes neither list of an account in it. */
  lemma BatchRestricts(joined: seq<JoinRow>, ids: seq<int>, a: int)
    requires a in ids
    ensures Filter(FirstGroups(BatchRows(joined, ids)), IsPaired(joined, a)) == FromBatch(BatchRows(joined, ids), a)
    ensures FromOwn(BatchRows(joined, ids), a) == NaiveGroups(joined, a)
  {
    var rows := BatchRows(joined, ids);
    FilterTwice(joined, AccountIn(ids), AccountIs(a));
    FilterPairs(joined, AccountIn(ids), a);
    FilterAgrees(FirstGroups(rows), IsPaired(joined, a), IsPaired(rows, a));
  }

  // ----- The same groups -----

  predicate NoRepeats(groups: seq<GroupRow>) {
    forall i, j :: 0 <= i < j < |groups| ==> groups[i].id != groups[j].id
  }

  lemma {:induction false} FilterKeepsNoRepeats(groups: seq<GroupRow>, p: GroupRow -> bool)
    requires NoRepeats(groups)
    ensures NoRepeats(Filter(groups, p))
  {
    if groups != [] {
      FilterKeepsNoRepeats(Front(groups), p);
      FilterMembers(Front(groups), p);
    }
  }

  lemma BatchGroups(rows: seq<JoinRow>, a: int)
    ensures NoRepeats(FromBatch(rows, a))
    ensures forall g :: Listed(FromBatch(rows, a), g) <==> Paired(rows, a, g)
  {
    var all := FirstGroups(rows);
    FirstGroupsMentioned(rows);
    FilterMembers(all, IsPaired(rows, a));
    FilterKeepsNoRepeats(all, IsPaired(rows, a));
    hide Filter, FirstGroups;
    forall g
      ensures Listed(FromBatch(rows, a), g) <==> Paired(rows, a, g)
    {
      if Paired(rows, a, g) {
        assert Mentions(rows, g);
        var k :| 0 <= k < |all| && all[k].id == g;
        assert IsPaired(rows, a)(all[k]);
        var m :| 0 <= m < |FromBatch(rows, a)| && FromBatch(rows, a)[m] == all[k];
      }
      if Listed(FromBatch(rows, a), g) {
        var k :| 0 <= k < |FromBatch(rows, a)| && FromBatch(rows, a)[k].id == g;
        assert IsPaired(rows, a)(FromBatch(rows, a)[k]);
      }
    }
  }

  lemma OwnGroups(rows: seq<JoinRow>, a: int)
    ensures NoRepeats(FromOwn(rows, a))
    ensures forall g :: Listed(FromOwn(rows, a), g) <==> Paired(rows, a, g)
  {
    var own := Filter(rows, AccountIs(a));
    FirstGroupsMentioned(own);
    FilterMembers(rows, AccountIs(a));
    hide Filter, FirstGroups;
    forall g
      ensures Mentions(own, g) <==> Paired(rows, a, g)
    {
      if Paired(rows, a, g) {
        var i :| 0 <= i < |rows| && rows[i].account == a && rows[i].group.id == g;
        assert AccountIs(a)(rows[i]);
        var m :| 0 <= m < |own| && own[m] == rows[i];
      }
      if Mentions(own, g) {
        var m :| 0 <= m < |own| && own[m].group.id == g;
        assert AccountIs(a)(own[m]);
        var i :| 0 <= i < |rows| && rows[i] == own[m];
      }
    }
  }

  /** Loaded in a batch or alone, an account gets the groups it is paired with, each once. */
  lemma SameGroups(rows: seq<JoinRow>, a: int)
    ensures NoRepeats(FromBatch(rows, a)) && NoRepeats(FromOwn(rows, a))
    ensures forall g :: Listed(FromBatch(rows, a), g) <==> Paired(rows, a, g)
    ensures forall g :: Listed(FromOwn(rows, a), g) <==> Paired(rows, a, g)
  {
    BatchGroups(rows, a);
    OwnGroups(rows, a);
  }

  // ----- The same order -----

  lemma {:induction false} LastGroupIsLast(rows: seq<JoinRow>)
    requires rows != [] && Contiguous(rows)
    ensures FirstGroups(rows) != [] && Last(FirstGroups(rows)).id == Last(rows).group.id
  {
    if Mentions(Front(rows), Last(rows).group.id) {
      LastGroupIsLast(Front(rows));
    }
  }

  /** If the rows of each group are adjacent, every account keeps its own order. */
  lemma {:induction false} ContiguousKeepsOrder(rows: seq<JoinRow>, a: int)
    requires Keyed(rows) && Contiguous(rows)
    ensures FromBatch(rows, a) == FromOwn(rows, a)
  {
    if rows != [] {
      var before, r := Front(rows), Last(rows);
      assert rows == before + [r];
      ContiguousKeepsOrder(before, a);
      RowsStep(before, r);
      FirstGroupsMentioned(before);
      var all := FirstGroups(before);
      if Mentions(before, r.group.id) {
        LastGroupIsLast(before);
        FirstGroupsKeyed(before);
        assert all == Front(all) + [Last(all)] && Last(all) == r.group;
        FilterAgrees(Front(all), IsPaired(before, a), IsPaired(rows, a));
        FilterAppend(Front(all), Last(all), IsPaired(rows, a));
        FilterAppend(Front(all), Last(all), IsPaired(before, a));
        OwnStep(before, r, a);
      } else {
        FilterAgrees(all, IsPaired(before, a), IsPaired(rows, a));
        FilterAppend(all, r.group, IsPaired(rows, a));
        OwnStep(before, r, a);
      }
    }
  }

  predicate HasGroup(rows: seq<JoinRow>, g: GroupRow) {
    exists i :: 0 <= i < |rows| && rows[i].group == g
  }

  lemma {:induction false} FirstGroupsKeyed(rows: seq<JoinRow>)
    ensures forall k :: 0 <= k < |FirstGroups(rows)| ==> HasGroup(rows, FirstGroups(rows)[k])
  {
    if rows != [] {
      var before := Front(rows);
      FirstGroupsKeyed(before);
      forall g | HasGroup(before, g)
        ensures HasGroup(rows, g)
      {
        var i :| 0 <= i < |before| && before[i].group == g;
        assert rows[i].group == g;
      }
      assert HasGroup(rows, Last(rows).group);
    }
  }

  /** The list of an account queried alone grows by a group when a row first pairs them. */
  lemma OwnStep(rows: seq<JoinRow>, r: JoinRow, a: int)
    ensures FromOwn(rows + [r], a) ==
      if r.account == a && !Paired(rows, a, r.group.id) then FromOwn(rows, a) + [r.group] else FromOwn(rows, a)
  {
    var own := Filter(rows, AccountIs(a));
    FilterAppend(rows, r, AccountIs(a));
    SameGroups(rows, a);
    FirstGroupsMentioned(own);
    if r.account == a {
      assert Front(own + [r]) == own;
      assert Mentions(own, r.group.id) <==> Paired(rows, a, r.group.id);
    }
  }

  function Relabel(rows: seq<JoinRow>, accounts: seq<int>): seq<JoinRow>
    requires |accounts| == |rows|
  {
    seq(|rows|, i requires 0 <= i < |rows| => JoinRow(accounts[i], rows[i].group))
  }

  /** The two lists agree for every account, whichever accounts the rows belong to. */
  ghost predicate OrderKept(rows: seq<JoinRow>) {
    forall accounts: seq<int>, a: int :: |accounts| == |rows| ==>
      FromBatch(Relabel(rows, accounts), a) == FromOwn(Relabel(rows, accounts), a)
  }

  lemma {:induction false} RelabelKeeps(rows: seq<JoinRow>, accounts: seq<int>)
    requires |accounts| == |rows|
    ensures Contiguous(Relabel(rows, accounts)) == Contiguous(rows)
    ensures FirstGroups(Relabel(rows, accounts)) == FirstGroups(rows)
    ensures Keyed(rows) ==> Keyed(Relabel(rows, accounts))
  {
    hide Mentions;
    var s := Relabel(rows, accounts);
    if rows != [] {
      RelabelKeeps(Front(rows), Front(accounts));
      assert Front(s) == Relabel(Front(rows), Front(accounts));
      RelabelMentions(Front(rows), Front(accounts));
    }
  }

  lemma RelabelMentions(rows: seq<JoinRow>, accounts: seq<int>)
    requires |accounts| == |rows|
    ensures forall g :: Mentions(Relabel(rows, accounts), g) <==> Mentions(rows, g)
  {
    var s := Relabel(rows, accounts);
    assert forall i :: 0 <= i < |rows| ==> s[i].group == rows[i].group;
  }

  /** Accounts under which rows that are not contiguous mix up the order for account 2. */
  function Mixing(rows: seq<JoinRow>): (accounts: seq<int>)
    requires !Contiguous(rows)
    ensures |accounts| == |rows|
  {
    if !Contiguous(Front(rows)) then Mixing(Front(rows)) + [1]
    else seq(|rows|, i => if i < |rows| - 2 then 1 else 2)
  }

  /** A row of another account does not change the batch list of account `a`. */
  lemma OtherRow(rows: seq<JoinRow>, r: JoinRow, a: int)
    requires r.account != a
    ensures FromBatch(rows + [r], a) == FromBatch(rows, a)
  {
    var all := FirstGroups(rows);
    RowsStep(rows, r);
    FilterAgrees(all, IsPaired(rows, a), IsPaired(rows + [r], a));
    if !Mentions(rows, r.group.id) {
      FilterAppend(all, r.group, IsPaired(rows + [r], a));
      assert Paired(rows, a, r.group.id) ==> Mentions(rows, r.group.id);
    }
  }

  /** The last row returns to an earlier group, right after a row of the same account for
      another group: alone the account sees that group last, in the batch the other one. */
  lemma {:induction false} ReturnMixes(s: seq<JoinRow>, q: JoinRow, r: JoinRow, a: int)
    requires Contiguous(s + [q]) && Mentions(s, r.group.id) && q.account == a
    ensures var l := FromBatch(s + [q] + [r], a); l != [] && Last(l).id == q.group.id
  {
    hide Contiguous, Filter, Paired, Mentions;
    var t := s + [q];
    RowsStep(s, q);
    RowsStep(t, r);
    LastGroupIsLast(t);
    var all := FirstGroups(t);
    assert all == Front(all) + [Last(all)];
    assert FirstGroups(t + [r]) == all;
    FilterAppend(Front(all), Last(all), IsPaired(t + [r], a));
  }

  lemma OwnEndsWith(s: seq<JoinRow>, q: JoinRow, r: JoinRow, a: int)
    requires r.account == a && q.group.id != r.group.id && forall i :: 0 <= i < |s| ==> s[i].account != a
    ensures var l := FromOwn(s + [q] + [r], a); l != [] && Last(l).id == r.group.id
  {
    RowsStep(s, q);
    OwnStep(s + [q], r, a);
  }

  lemma {:induction false} MixingBreaksOrder(rows: seq<JoinRow>)
    requires !Contiguous(rows)
    ensures FromBatch(Relabel(rows, Mixing(rows)), 2) != FromOwn(Relabel(rows, Mixing(rows)), 2)
  {
    var n, s := |rows|, Relabel(rows, Mixing(rows));
    var before, r := Front(s), Last(s);
    assert s == before + [r];
    if !Contiguous(Front(rows)) {
      assert Front(Mixing(rows)) == Mixing(Front(rows));
      assert before == Relabel(Front(rows), Mixing(Front(rows)));
      MixingBreaksOrder(Front(rows));
      OtherRow(before, r, 2);
      OwnStep(before, r, 2);
    } else {
      assert before == Relabel(Front(rows), Front(Mixing(rows)));
      RelabelKeeps(Front(rows), Front(Mixing(rows)));
      RelabelMentions(Front(rows), Front(Mixing(rows)));
      var q := Last(before);
      assert before == Front(before) + [q];
      RowsStep(Front(before), q);
      ReturnMixes(Front(before), q, r, 2);
      OwnEndsWith(Front(before), q, r, 2);
    }
  }

  /** Batched loading keeps each account's own order, whichever accounts the rows belong to,
      if and only if the rows of each group are adjacent. */
  lemma {:induction false} OrderKeptIffContiguous(rows: seq<JoinRow>)
    requires Keyed(rows)
    ensures OrderKept(rows) <==> Contiguous(rows)
  {
    if Contiguous(rows) {
      forall accounts: seq<int>, a: int | |accounts| == |rows|
        ensures FromBatch(Relabel(rows, accounts), a) == FromOwn(Relabel(rows, accounts), a)
      {
        RelabelKeeps(rows, accounts);
        ContiguousKeepsOrder(Relabel(rows, accounts), a);
      }
    } else {
      MixingBreaksOrder(rows);
    }
  }

  lemma {:induction false} FirstGroupsAppend(rows: seq<JoinRow>, r: JoinRow)
    ensures FirstGroups(rows + [r]) ==
      if Mentions(rows, r.group.id) then FirstGroups(rows) else FirstGroups(rows) + [r.group]
  {
    RowsStep(rows, r);
  }

  /** Rows of groups g, h, g: account 2 meets g last, but its batch met it first. */
  lemma ReturningGroupMixes(g: GroupRow, h: GroupRow)
    requires g.id != h.id
    ensures var rows := [JoinRow(1, g), JoinRow(2, h), JoinRow(2, g)];
      FromBatch(rows, 2) == [g, h] && FromOwn(rows, 2) == [h, g]
  {
    hide Mentions, Paired, Filter, FirstGroups, FromOwn;
    var r, q, t := JoinRow(1, g), JoinRow(2, h), JoinRow(2, g);
    assert [] + [r] == [r] && [r] + [q] == [r, q] && [r, q] + [t] == [r, q, t];
    NothingPaired();
    RowsStep([], r);
    RowsStep([r], q);
    RowsStep([r, q], t);
    FirstGroupsAppend([], r);
    FirstGroupsAppend([r], q);
    FirstGroupsAppend([r, q], t);
    OwnStep([], r, 2);
    OwnStep([r], q, 2);
    OwnStep([r, q], t, 2);
    FilterAppend([], g, IsPaired([r, q, t], 2));
    FilterAppend([g], h, IsPaired([r, q, t], 2));
    assert [] + [g] == [g] && [g] + [h] == [g, h] && [] + [h] == [h] && [h] + [g] == [h, g];
  }

  lemma NothingPaired()
    ensures forall a, g :: !Paired([], a, g)
    ensures forall g :: !Mentions([], g)
    ensures FirstGroups([]) == [] && FromOwn([], 2) == [] && forall p: GroupRow -> bool :: Filter([], p) == []
  {
  }

  // ----- Selected fields -----

  function GroupIds(groups: seq<GroupRow>): (ids: seq<int>)
    ensures |ids| == |groups| && forall i :: 0 <= i < |ids| ==> ids[i] == groups[i].id
  {
    seq(|groups|, i requires 0 <= i < |groups| => groups[i].id)
  }

  /** A selection changes neither the groups seen, by key, nor whether their rows are adjacent. */
  lemma {:induction false} SelectionSeesGroups(rows: seq<JoinRow>, fields: seq<GroupColumn>)
    ensures GroupIds(FirstGroups(Seen(rows, fields))) == GroupIds(FirstGroups(rows))
    ensures Contiguous(Seen(rows, fields)) == Contiguous(rows)
  {
    hide Compiled, Mentions;
    if rows != [] {
      var s := Seen(rows, fields);
      SelectionSeesGroups(Front(rows), fields);
      assert Front(s) == Seen(Front(rows), fields);
      SeenMentions(Front(rows), fields);
      GroupKeyIsSecond(Last(rows), fields);
      if Front(rows) != [] {
        GroupKeyIsSecond(Last(Front(rows)), fields);
      }
    }
  }

  lemma SelectionKeepsKeyed(rows: seq<JoinRow>, fields: seq<GroupColumn>)
    requires Keyed(rows)
    ensures Keyed(Seen(rows, fields))
  {
    hide Compiled;
    var s := Seen(rows, fields);
    forall i | 0 <= i < |rows|
      ensures s[i].group.id == rows[i].group.id
    {
      GroupKeyIsSecond(rows[i], fields);
    }
  }

  lemma {:induction false} FilterById(g: seq<GroupRow>, h: seq<GroupRow>, rows: seq<JoinRow>, a: int)
    requires GroupIds(g) == GroupIds(h)
    ensures GroupIds(Filter(g, IsPaired(rows, a))) == GroupIds(Filter(h, IsPaired(rows, a)))
  {
    hide Paired;
    if g != [] {
      assert GroupIds(g)[|g| - 1] == Last(g).id && GroupIds(h)[|g| - 1] == Last(h).id;
      assert GroupIds(Front(g)) == GroupIds(g)[..|g| - 1] && GroupIds(Front(h)) == GroupIds(h)[..|g| - 1];
      FilterById(Front(g), Front(h), rows, a);
    }
  }

  /** Whatever fields are selected on the query for groups, an account ends up with the same
      groups, by key, in the same order as with all columns. */
  lemma GroupsIgnoreSelection(some: seq<Group>, all: seq<Group>, joined: seq<JoinRow>, fields: seq<GroupColumn>,
                              ids: seq<int>, a: int)
    requires RowsOf(some) == FirstGroups(BatchRows(Seen(joined, fields), ids))
    requires RowsOf(all) == FirstGroups(BatchRows(Seen(joined, []), ids))
    ensures GroupIds(RowsOf(Mine(some, joined, a))) == GroupIds(RowsOf(Mine(all, joined, a)))
  {
    hide Filter, FirstGroups, Compiled, Paired;
    SeenBatch(joined, fields, ids);
    SeenBatch(joined, [], ids);
    SelectionSeesGroups(BatchRows(joined, ids), fields);
    SelectionSeesGroups(BatchRows(joined, ids), []);
    MineIsFromBatch(some, joined, a);
    MineIsFromBatch(all, joined, a);
    FilterById(RowsOf(some), RowsOf(all), joined, a);
  }

  // ----- The whole batch -----

  /** What account `a` of a batch ends up holding, against a query of its own: the same
      groups, each once; the very same list if the batch keeps each group's rows together. */
  lemma BatchEqualsOwnQuery(neighbors: seq<Group>, joined: seq<JoinRow>, fields: seq<GroupColumn>, ids: seq<int>,
                            a: int)
    requires a in ids && RowsOf(neighbors) == FirstGroups(BatchRows(Seen(joined, fields), ids))
    ensures var held, own := RowsOf(Mine(neighbors, joined, a)), NaiveGroups(Seen(joined, fields), a);
      && NoRepeats(held)
      && (forall g :: Listed(held, g) <==> Paired(joined, a, g))
      && (forall g :: Listed(held, g) <==> Listed(own, g))
      && (Keyed(BatchRows(joined, ids)) && Contiguous(BatchRows(joined, ids)) ==> held == own)
  {
    var seen := Seen(joined, fields);
    var rows := BatchRows(seen, ids);
    hide Filter, FirstGroups, Keyed, Contiguous, NoRepeats, Paired, Listed, Compiled;
    SeenMentions(joined, fields);
    FilterAgrees(neighbors, Of(joined, a), Of(seen, a));
    MineIsFromBatch(neighbors, seen, a);
    BatchRestricts(seen, ids, a);
    SameGroups(rows, a);
    FilterPairs(seen, AccountIn(ids), a);
    SeenBatch(joined, fields, ids);
    SelectionSeesGroups(BatchRows(joined, ids), fields);
    if Keyed(BatchRows(joined, ids)) && Contiguous(BatchRows(joined, ids)) {
      SelectionKeepsKeyed(BatchRows(joined, ids), fields);
      ContiguousKeepsOrder(rows, a);
    }
  }
}
