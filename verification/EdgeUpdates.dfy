/** Updating edges: the calls on an update builder, what the mutation records of them, the
    edge specs compiled from it, and what those do to the stored edges. */
module EdgeUpdates {
  import opened Options
  import opened Sequences

  function Elements(s: seq<int>): set<int> {
    set x | x in s
  }

  // ----- Many-to-many: groups -----

  /** A call on the builder. */
  datatype GroupCall = Add(ids: seq<int>) | Remove(ids: seq<int>) | Clear

  /** What the mutation records: pending additions, removals, and whether to clear. */
  datatype Delta = Delta(added: set<int>, removed: set<int>, cleared: bool)

  /** An edge spec: the neighbours it names; a clear spec that names none means all. */
  datatype EdgeSpec = EdgeSpec(nodes: seq<int>)

  datatype EdgeMut = EdgeMut(clear: seq<EdgeSpec>, add: seq<EdgeSpec>)

  function Record(d: Delta, c: GroupCall): Delta {
    match c
    case Add(ids) => d.(added := d.added + Elements(ids))
    case Remove(ids) => d.(added := d.added - Elements(ids), removed := d.removed + Elements(ids))
    case Clear => d.(cleared := true)
  }

  function Recorded(calls: seq<GroupCall>): Delta {
    if calls == [] then Delta({}, {}, false) else Record(Recorded(Front(calls)), Last(calls))
  }

  /** The neighbours after the clear specs and then the add specs were applied. */
  function Applied(m: EdgeMut, old0: set<int>): set<int> {
    AddAll(m.add, ClearAll(m.clear, old0))
  }

  function ClearAll(specs: seq<EdgeSpec>, s: set<int>): set<int> {
    if specs == [] then s else
      var r := ClearAll(Front(specs), s);
      if Last(specs).nodes == [] then {} else r - Elements(Last(specs).nodes)
  }

  function AddAll(specs: seq<EdgeSpec>, s: set<int>): set<int> {
    if specs == [] then s else AddAll(Front(specs), s) + Elements(Last(specs).nodes)
  }

  /** The set function a recorded delta stands for. */
  function Denotes(d: Delta, old0: set<int>): set<int> {
    if d.cleared then d.added else (old0 - d.removed) + d.added
  }

  /** What the calls mean when each acts on the edges right away. */
  function Sequential(calls: seq<GroupCall>, old0: set<int>): set<int> {
    if calls == [] then old0 else
      var s := Sequential(Front(calls), old0);
      match Last(calls)
      case Add(ids) => s + Elements(ids)
      case Remove(ids) => s - Elements(ids)
      case Clear => {}
  }

  /** The IDs added before a clear and not named again since. */
  function Stale(calls: seq<GroupCall>): set<int> {
    if calls == [] then {} else
      match Last(calls)
      case Add(ids) => Stale(Front(calls)) - Elements(ids)
      case Remove(ids) => Stale(Front(calls)) - Elements(ids)
      case Clear => Recorded(Front(calls)).added
  }

  /** A clear does not forget additions recorded before it: the update gives the sequential
      result and, besides, just the stale additions. */
  lemma {:induction false} UpdateIsSequentialPlusStale(calls: seq<GroupCall>, old0: set<int>)
    ensures Denotes(Recorded(calls), old0) == Sequential(calls, old0) + Stale(calls)
    ensures Sequential(calls, old0) !! Stale(calls)
  {
    if calls != [] {
      UpdateIsSequentialPlusStale(Front(calls), old0);
      StaleIsAdded(Front(calls));
    }
  }

  lemma {:induction false} StaleIsAdded(calls: seq<GroupCall>)
    ensures Stale(calls) <= Recorded(calls).added
    ensures !Recorded(calls).cleared ==> Stale(calls) == {}
  {
    if calls != [] {
      StaleIsAdded(Front(calls));
    }
  }

  /** The update agrees with the calls taken one by one, whatever was stored, if and only if
      no addition is left over from before a clear. */
  lemma {:induction false} UpdateIsSequentialIff(calls: seq<GroupCall>, old0: set<int>)
    ensures Denotes(Recorded(calls), old0) == Sequential(calls, old0) <==> Stale(calls) == {}
  {
    UpdateIsSequentialPlusStale(calls, old0);
  }

  lemma {:induction false} AddThenClearKeeps(old0: set<int>)
    ensures Sequential([Add([7]), Clear], old0) == {} && Denotes(Recorded([Add([7]), Clear]), old0) == {7}
  {
    var calls := [Add([7]), Clear];
    assert Front(calls) == [Add([7])] && Front([Add([7])]) == [];
    assert Elements([7]) == {7};
  }

  // ----- Many-to-one: proxy -----

  datatype ProxyCall = SetProxy(id: int) | ClearProxyId | ClearProxy

  datatype ProxyDelta = ProxyDelta(proxy: Option<int>, cleared: bool)

  /** Clearing the field forgets a pending proxy; clearing the edge does not. */
  function RecordProxy(d: ProxyDelta, c: ProxyCall): ProxyDelta {
    match c
    case SetProxy(id) => d.(proxy := Some(id))
    case ClearProxyId => ProxyDelta(None, true)
    case ClearProxy => d.(cleared := true)
  }

  function RecordedProxy(calls: seq<ProxyCall>): ProxyDelta {
    if calls == [] then ProxyDelta(None, false) else RecordProxy(RecordedProxy(Front(calls)), Last(calls))
  }

  function ProxyAfter(d: ProxyDelta, old0: Option<int>): Option<int> {
    if d.proxy.Some? then d.proxy else if d.cleared then None else old0
  }

  function SequentialProxy(calls: seq<ProxyCall>, old0: Option<int>): Option<int> {
    if calls == [] then old0 else if Last(calls).SetProxy? then Some(Last(calls).id) else None
  }

  /** True if the last call clears the edge while a proxy set before is still pending. */
  predicate PendingAtClear(calls: seq<ProxyCall>) {
    calls != [] && Last(calls).ClearProxy? && RecordedProxy(Front(calls)).proxy.Some?
  }

  lemma {:induction false} ProxyUpdateIsSequentialIff(calls: seq<ProxyCall>, old0: Option<int>)
    ensures ProxyAfter(RecordedProxy(calls), old0) == SequentialProxy(calls, old0) <==> !PendingAtClear(calls)
  {
  }

  lemma ClearProxyKeepsPending(old0: Option<int>)
    ensures SequentialProxy([SetProxy(7), ClearProxy], old0) == None
    ensures ProxyAfter(RecordedProxy([SetProxy(7), ClearProxy]), old0) == Some(7)
  {
    var calls := [SetProxy(7), ClearProxy];
    assert Front(calls) == [SetProxy(7)] && Front([SetProxy(7)]) == [];
  }

  // ----- The mutation and the compiled specs -----

  class AccountMutation {
    var groups: set<int>
    var removedGroups: set<int>
    var clearedGroups: bool

    constructor ()
      ensures Recorded([]) == View()
    {
      groups, removedGroups, clearedGroups := {}, {}, false;
    }

    function View(): Delta
      reads this
    {
      Delta(groups, removedGroups, clearedGroups)
    }

    method AddGroupIds(ids: seq<int>)
      modifies this
      ensures View() == Record(old(View()), Add(ids))
    {
      for i := 0 to |ids|
        invariant View() == Record(old(View()), Add(ids[..i]))
      {
        groups := groups + {ids[i]};
        assert ids[..i + 1] == ids[..i] + [ids[i]];
      }
      assert ids[..|ids|] == ids;
    }

    method RemoveGroupIds(ids: seq<int>)
      modifies this
      ensures View() == Record(old(View()), Remove(ids))
    {
      for i := 0 to |ids|
        invariant View() == Record(old(View()), Remove(ids[..i]))
      {
        groups, removedGroups := groups - {ids[i]}, removedGroups + {ids[i]};
        assert ids[..i + 1] == ids[..i] + [ids[i]];
      }
      assert ids[..|ids|] == ids;
    }

    method ClearGroups()
      modifies this
      ensures View() == Record(old(View()), Clear)
    {
      clearedGroups := true;
    }

    /** The specs of one save: a clear of everything, or of the removed groups, then the
        additions.  The parameters are the keys of the two sets, in the order in which the
        run-time happens to range over them. */
    method GroupSpecs(removedKeys: seq<int>, keys: seq<int>) returns (m: EdgeMut)
      requires Elements(removedKeys) == removedGroups && Elements(keys) == groups
      ensures forall old0 :: Applied(m, old0) == Denotes(View(), old0)
      ensures |m.clear| <= 1 && |m.add| <= 1
    {
      var clear, add := [], [];
      if clearedGroups {
        clear := clear + [EdgeSpec([])];
      }
      var removedIds := Collect(removedKeys);
      if |removedIds| > 0 && !clearedGroups {
        clear := clear + [EdgeSpec(removedIds)];
      }
      var ids := Collect(keys);
      if |ids| > 0 {
        add := add + [EdgeSpec(ids)];
      }
      hide ClearAll, AddAll;
      OneSpec(removedIds);
      OneSpec(ids);
      m := EdgeMut(clear, add);
      forall old0: set<int>
        ensures Applied(m, old0) == Denotes(View(), old0)
      {
        assert clear ==
          if clearedGroups then [EdgeSpec([])] else if removedIds == [] then [] else [EdgeSpec(removedIds)];
        assert add == if ids == [] then [] else [EdgeSpec(ids)];
      }
    }
  }

  /** A whole update: the calls on the builder, and the specs the save compiles from what they
      recorded.  `range` is the order in which the run-time happens to range over a set. */
  method Update(calls: seq<GroupCall>, range: set<int> -> seq<int>) returns (m: EdgeMut)
    requires forall s :: Elements(range(s)) == s
    ensures forall old0 :: Applied(m, old0) == Sequential(calls, old0) + Stale(calls)
  {
    var mutation := new AccountMutation();
    for k := 0 to |calls|
      invariant fresh(mutation) && mutation.View() == Recorded(calls[..k])
    {
      assert Front(calls[..k + 1]) == calls[..k];
      match calls[k] {
        case Add(ids) => mutation.AddGroupIds(ids);
        case Remove(ids) => mutation.RemoveGroupIds(ids);
        case Clear => mutation.ClearGroups();
      }
    }
    assert calls[..|calls|] == calls;
    m := mutation.GroupSpecs(range(mutation.removedGroups), range(mutation.groups));
    forall old0: set<int>
      ensures Applied(m, old0) == Sequential(calls, old0) + Stale(calls)
    {
      UpdateIsSequentialPlusStale(calls, old0);
    }
  }

  /** Appends the nodes of an edge spec one by one. */
  method Collect(keys: seq<int>) returns (nodes: seq<int>)
    ensures nodes == keys
  {
    nodes := [];
    for i := 0 to |keys|
      invariant nodes == keys[..i]
    {
      nodes := nodes + [keys[i]];
    }
  }

  lemma OneSpec(ids: seq<int>)
    ensures forall s :: ClearAll([], s) == s && AddAll([], s) == s && ClearAll([EdgeSpec([])], s) == {}
    ensures forall s :: ClearAll([EdgeSpec(ids)], s) == if ids == [] then {} else s - Elements(ids)
    ensures forall s :: AddAll([EdgeSpec(ids)], s) == s + Elements(ids)
  {
    assert Front([EdgeSpec(ids)]) == [] && Front([EdgeSpec([])]) == [];
  }
}
