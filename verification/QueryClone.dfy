/** Cloning query builders: trees of nested With-queries, each with slices that later calls
    append to in place. */
module QueryClone {
  import opened Options
  import opened Sequences

  /** A slice as a builder holds it: appending may write to memory shared with other holders,
      so it is an object. */
  class Slice {
    var items: seq<string>

    constructor (items: seq<string>)
      ensures this.items == items
    {
      this.items := items;
    }
  }

  /** The settings of one query. */
  datatype Settings = Settings(
    fields: seq<string>, limit: Option<nat>, offset: Option<nat>, unique: Option<bool>,
    order: seq<string>, predicates: seq<string>, inters: seq<string>, modifiers: seq<string>)

  /** A compiled tree of queries. */
  datatype QuerySpec = QuerySpec(settings: Settings, edges: seq<Option<QuerySpec>>)

  /** The fields every query builder has. */
  class Builder {
    const fields: Slice
    const order: Slice
    const predicates: Slice
    const inters: Slice
    const modifiers: Slice
    var limit: Option<nat>
    var offset: Option<nat>
    var unique: Option<bool>

    ghost function Repr(): set<object> {
      {this, fields, order, predicates, inters, modifiers}
    }

    ghost predicate Separate() {
      && fields !in {order, predicates, inters, modifiers} && order !in {predicates, inters, modifiers}
      && predicates !in {inters, modifiers} && inters != modifiers
    }

    function View(): Settings
      reads this, fields, order, predicates, inters, modifiers
    {
      Settings(fields.items, limit, offset, unique, order.items, predicates.items, inters.items, modifiers.items)
    }

    constructor (fields: seq<string>, order: seq<string>, predicates: seq<string>, inters: seq<string>,
                 limit: Option<nat>, offset: Option<nat>, unique: Option<bool>)
      ensures fresh(Repr()) && Separate()
      ensures View() == Settings(fields, limit, offset, unique, order, predicates, inters, [])
    {
      this.fields := new Slice(fields);
      this.order := new Slice(order);
      this.predicates := new Slice(predicates);
      this.inters := new Slice(inters);
      this.modifiers := new Slice([]);
      this.limit, this.offset, this.unique := limit, offset, unique;
    }

    /** New slices with the same items; the modifiers are not carried over. */
    method Clone() returns (r: Builder)
      ensures fresh(r.Repr()) && r.Separate() && r.View() == View().(modifiers := [])
    {
      r := new Builder(fields.items, order.items, predicates.items, inters.items, limit, offset, unique);
    }
  }

  /** The queries of some edges are valid, different edges have nothing in common, and all of
      it lies in `below`. */
  ghost predicate Forest(edges: seq<Query?>, below: set<object>)
    reads below
    decreases below, 1
  {
    && (forall i :: 0 <= i < |edges| && edges[i] != null ==>
         edges[i] in below && edges[i].Repr <= below && edges[i].Valid())
    && (forall i, j :: 0 <= i < j < |edges| && edges[i] != null && edges[j] != null ==> edges[i].Repr !! edges[j].Repr)
  }

  /** The trees of these edges. */
  ghost function Views(edges: seq<Query?>, below: set<object>): (vs: seq<Option<QuerySpec>>)
    requires Forest(edges, below)
    reads below
    ensures |vs| == |edges|
    ensures forall i :: 0 <= i < |edges| ==> vs[i] == if edges[i] == null then None else Some(edges[i].View())
    decreases below, 1, |edges|
  {
    if edges == [] then [] else
      Views(Front(edges), below) + [if Last(edges) == null then None else Some(Last(edges).View())]
  }

  lemma ForestNone()
    ensures Forest([], {})
  {
  }

  lemma {:induction false} EdgesAreValid(edges: seq<Query?>, below: set<object>)
    requires Forest(edges, below)
    ensures forall i :: 0 <= i < |edges| && edges[i] != null ==> edges[i].Repr <= below && edges[i].Valid()
  {
  }

  lemma {:induction false} ForestAdd(edges: seq<Query?>, below: set<object>, edge: Query?, added: set<object>)
    requires Forest(edges, below) && below !! added
    requires edge != null ==> edge.Valid() && edge.Repr <= added
    ensures Forest(edges + [edge], below + added)
    ensures Views(edges + [edge], below + added) ==
      Views(edges, below) + [if edge == null then None else Some(edge.View())]
  {
    hide Views;
  }

  lemma ForestTake(edges: seq<Query?>, below: set<object>, k: nat)
    requires Forest(edges, below) && k < |edges| && edges[k] != null
    ensures edges[k].Valid() && edges[k].Repr <= below && Views(edges, below)[k] == Some(edges[k].View())
    ensures Forest(edges[k := null], below - edges[k].Repr)
    ensures Views(edges[k := null], below - edges[k].Repr) == Views(edges, below)[k := None]
  {
    hide Views;
  }

  lemma ForestPut(edges: seq<Query?>, below: set<object>, k: nat, edge: Query, added: set<object>)
    requires Forest(edges, below) && k < |edges| && below !! added && edge.Valid() && edge.Repr <= added
    ensures Forest(edges[k := edge], below + added)
    ensures Views(edges[k := edge], below + added) == Views(edges, below)[k := Some(edge.View())]
  {
    hide Views;
  }

  lemma {:induction false} AllNull(edges: seq<Query?>)
    requires forall i :: 0 <= i < |edges| ==> edges[i] == null
    ensures Forest(edges, {})
  {
  }

  /** A query builder of any entity.  Its With-edges are listed in the order of their fields;
      an edge that was not asked for is null. */
  class Query {
    const b: Builder
    var edges: seq<Query?>
    ghost var Repr: set<object>

    ghost function Below(): set<object>
      reads this
    {
      Repr - b.Repr() - {this}
    }

    ghost predicate Valid()
      reads this, Repr
      decreases Repr, 0
    {
      this in Repr && b.Repr() <= Repr && this !in b.Repr() && b.Separate() && Forest(edges, Below())
    }

    ghost function View(): QuerySpec
      requires Valid()
      reads this, Repr
      decreases Repr, 0, 0
    {
      QuerySpec(b.View(), Views(edges, Below()))
    }

    constructor (b: Builder, edges: seq<Query?>, ghost below: set<object>)
      requires b.Separate() && Forest(edges, below) && b.Repr() !! below
      ensures Valid() && this.b == b && this.edges == edges
      ensures fresh(this) && Repr == {this} + b.Repr() + below && Below() == below
    {
      this.b, this.edges := b, edges;
      Repr := {this} + b.Repr() + below;
      new;
      assert Below() == below;
    }

    /** A new builder for this query and for every query below it. */
    method Clone() returns (r: Query)
      requires Valid()
      ensures r.Valid() && fresh(r.Repr) && r.View() == Unmodified(View())
      decreases Repr, 1
    {
      var b1 := b.Clone();
      hide Forest, Views;
      ghost var below;
      var es;
      es, below := CloneEdges();
      r := new Query(b1, es, below);
      UnmodifiedEdges(View());
    }

    method CloneEdges() returns (es: seq<Query?>, ghost below: set<object>)
      requires Valid()
      ensures fresh(below) && Forest(es, below) && Views(es, below) == AllUnmodified(Views(edges, Below()))
      decreases Repr, 0, 1
    {
      hide Forest, Views, Unmodified;
      ForestNone();
      es, below := [], {};
      for k := 0 to |edges|
        invariant |es| == k && fresh(below) && Forest(es, below)
        invariant forall i :: 0 <= i < k ==> Views(es, below)[i] == WithoutModifiers(Views(edges, Below())[i])
      {
        var edge, added := CloneEdge(k);
        ForestAdd(es, below, edge, added);
        es, below := es + [edge], below + added;
      }
    }

    method CloneEdge(k: nat) returns (edge: Query?, ghost added: set<object>)
      requires Valid() && k < |edges|
      ensures fresh(added) && (edge != null ==> edge.Valid() && edge.Repr <= added)
      ensures (if edge == null then None else Some(edge.View())) == WithoutModifiers(Views(edges, Below())[k])
      decreases Repr, 0, 0
    {
      EdgesAreValid(edges, Below());
      hide Forest, Views, Unmodified;
      edge, added := null, {};
      if edges[k] != null {
        edge := edges[k].Clone();
        added := edge.Repr;
      }
    }
  }

  /** The same tree without modifiers, at every level. */
  function Unmodified(q: QuerySpec): QuerySpec {
    QuerySpec(q.settings.(modifiers := []), seq(|q.edges|, i requires 0 <= i < |q.edges| =>
      if q.edges[i].None? then None else Some(Unmodified(q.edges[i].value))))
  }

  function WithoutModifiers(edge: Option<QuerySpec>): Option<QuerySpec> {
    if edge.None? then None else Some(Unmodified(edge.value))
  }

  function AllUnmodified(edges: seq<Option<QuerySpec>>): (r: seq<Option<QuerySpec>>)
    ensures |r| == |edges| && forall i :: 0 <= i < |r| ==> r[i] == WithoutModifiers(edges[i])
  {
    seq(|edges|, i requires 0 <= i < |edges| => WithoutModifiers(edges[i]))
  }

  lemma {:induction false} UnmodifiedEdges(q: QuerySpec)
    ensures Unmodified(q) == QuerySpec(q.settings.(modifiers := []), AllUnmodified(q.edges))
  {
    assert Unmodified(q).edges == AllUnmodified(q.edges);
  }

  predicate NoModifiers(q: QuerySpec) {
    q.settings.modifiers == [] && forall i :: 0 <= i < |q.edges| && q.edges[i].Some? ==> NoModifiers(q.edges[i].value)
  }

  /** A clone compiles to the same tree if and only if no query in it has a modifier. */
  lemma {:induction false} CloneSameIff(q: QuerySpec)
    ensures Unmodified(q) == q <==> NoModifiers(q)
  {
    var u := Unmodified(q).edges;
    forall i | 0 <= i < |q.edges| && q.edges[i].Some?
      ensures u[i] == q.edges[i] <==> NoModifiers(q.edges[i].value)
    {
      CloneSameIff(q.edges[i].value);
    }
    assert forall i :: 0 <= i < |q.edges| && q.edges[i].None? ==> u[i] == q.edges[i];
    assert (forall i :: 0 <= i < |q.edges| ==> u[i] == q.edges[i]) ==> u == q.edges;
  }

  lemma CloneLosesModifier(m: string)
    ensures var q := QuerySpec(Settings([], None, None, None, [], [], [], [m]), []);
      Unmodified(q) != q && Unmodified(q).settings.modifiers == []
  {
  }

  // ----- Independence -----

  /** A later call on a builder: on its own settings, asking for an edge, or, for the options
      of an edge, on the query of that edge. */
  datatype Edit =
    | Where(p: string) | Intercept(i: string) | OrderBy(o: string) | Select(f: string) | Modify(m: string)
    | Limit(n: nat) | Offset(n: nat) | Unique(u: bool)
    | With(edge: nat, width: nat) | Inside(edge: nat, e: Edit)

  /** A query over an entity with `width` edges, as its client makes it. */
  function Bare(width: nat): QuerySpec {
    QuerySpec(Settings([], None, None, None, [], [], [], []), seq(width, _ => None))
  }

  function Set(s: Settings, e: Edit): Settings {
    match e
    case Where(p) => s.(predicates := s.predicates + [p])
    case Intercept(i) => s.(inters := s.inters + [i])
    case OrderBy(o) => s.(order := s.order + [o])
    case Select(f) => s.(fields := s.fields + [f])
    case Modify(m) => s.(modifiers := s.modifiers + [m])
    case Limit(n) => s.(limit := Some(n))
    case Offset(n) => s.(offset := Some(n))
    case Unique(u) => s.(unique := Some(u))
    case With(_, _) => s
    case Inside(_, _) => s
  }

  /** An edge the entity does not have, or has not been asked for, cannot be edited. */
  function Edited(q: QuerySpec, e: Edit): QuerySpec {
    match e
    case With(k, width) => if k < |q.edges| then q.(edges := q.edges[k := Some(Bare(width))]) else q
    case Inside(k, e1) =>
      if k < |q.edges| && q.edges[k].Some? then q.(edges := q.edges[k := Some(Edited(q.edges[k].value, e1))]) else q
    case _ => q.(settings := Set(q.settings, e))
  }

  /** A call on the settings, appending to their slices in place. */
  method ApplySetting(b: Builder, e: Edit)
    requires b.Separate()
    modifies b.Repr()
    ensures b.View() == Set(old(b.View()), e)
  {
    match e {
      case Where(p) => b.predicates.items := b.predicates.items + [p];
      case Intercept(i) => b.inters.items := b.inters.items + [i];
      case OrderBy(o) => b.order.items := b.order.items + [o];
      case Select(f) => b.fields.items := b.fields.items + [f];
      case Modify(m) => b.modifiers.items := b.modifiers.items + [m];
      case Limit(n) => b.limit := Some(n);
      case Offset(n) => b.offset := Some(n);
      case Unique(u) => b.unique := Some(u);
      case With(_, _) =>
      case Inside(_, _) =>
    }
  }

  /** A call anywhere in the tree of a query. */
  method Apply(q: Query, e: Edit)
    requires q.Valid()
    modifies q.Repr
    ensures q.Valid() && fresh(q.Repr - old(q.Repr)) && q.View() == Edited(old(q.View()), e)
    decreases e, 1
  {
    hide Forest, Views;
    match e {
      case With(k, width) =>
        if k < |q.edges| {
          Ask(q, k, width);
        }
      case Inside(k, e1) =>
        if k < |q.edges| && q.edges[k] != null {
          ApplyInside(q, k, e1);
        }
      case _ =>
        ApplySetting(q.b, e);
    }
  }

  method ApplyInside(q: Query, k: nat, e: Edit)
    requires q.Valid() && k < |q.edges| && q.edges[k] != null
    modifies q.Repr
    ensures q.Valid() && fresh(q.Repr - old(q.Repr)) && q.View() == Edited(old(q.View()), Inside(k, e))
    decreases e, 2
  {
    Detach(q, k);
    EditedInside(q.View(), k, e);
    hide Query.Valid, Query.View, Query.Below, Forest, Views, Edited;
    var inner := q.edges[k];
    ghost var rest, view := q.Below() - inner.Repr, q.View();
    Apply(inner, e);
    Readopt(q, k, rest);
    PutTwice(view.edges, k, None, Some(inner.View()));
  }

  lemma {:induction false} Detach(q: Query, k: nat)
    requires q.Valid() && k < |q.edges| && q.edges[k] != null
    ensures var inner := q.edges[k];
      var rest := q.Below() - inner.Repr;
      && inner.Valid() && Forest(q.edges[k := null], rest)
      && q.b.Separate() && q !in q.b.Repr() && ({q} + q.b.Repr()) !! (rest + inner.Repr)
      && q.Repr == {q} + q.b.Repr() + rest + inner.Repr
      && q.View().settings == q.b.View() && k < |q.View().edges| && q.View().edges[k] == Some(inner.View())
      && Views(q.edges[k := null], rest) == q.View().edges[k := None]
  {
    ForestTake(q.edges, q.Below(), k);
    hide Forest, Views;
  }

  lemma PutTwice<T>(s: seq<T>, k: nat, x: T, y: T)
    requires k < |s|
    ensures s[k := x][k := y] == s[k := y]
  {
  }

  /** Takes the query of edge `k`, which has changed, back into the footprint. */
  ghost method Readopt(q: Query, k: nat, rest: set<object>)
    requires k < |q.edges| && q.edges[k] != null && q.edges[k].Valid() && Forest(q.edges[k := null], rest)
    requires q.b.Separate() && q !in q.b.Repr() && ({q} + q.b.Repr()) !! (rest + q.edges[k].Repr)
      && rest !! q.edges[k].Repr
    modifies q`Repr
    ensures q.Valid() && q.Repr == {q} + q.b.Repr() + rest + q.edges[k].Repr
    ensures q.edges[k].Valid() && q.View().settings == q.b.View()
    ensures q.View().edges == old(Views(q.edges[k := null], rest))[k := Some(q.edges[k].View())]
  {
    hide Forest, Views;
    var inner := q.edges[k];
    var others := q.edges[k := null];
    ForestPut(others, rest, k, inner, inner.Repr);
    assert others[k := inner] == q.edges;
    q.Repr := {q} + q.b.Repr() + rest + inner.Repr;
    assert q.Below() == rest + inner.Repr;
  }

  lemma {:induction false} EditedWith(q: QuerySpec, k: nat, width: nat)
    requires k < |q.edges|
    ensures Edited(q, With(k, width)) == q.(edges := q.edges[k := Some(Bare(width))])
  {
  }

  lemma {:induction false} EditedInside(q: QuerySpec, k: nat, e: Edit)
    requires k < |q.edges| && q.edges[k].Some?
    ensures Edited(q, Inside(k, e)) == q.(edges := q.edges[k := Some(Edited(q.edges[k].value, e))])
  {
  }

  method Ask(q: Query, k: nat, width: nat)
    requires q.Valid() && k < |q.edges|
    modifies q
    ensures q.Valid() && fresh(q.Repr - old(q.Repr)) && q.View() == Edited(old(q.View()), With(k, width))
  {
    hide Forest, Views, Edited;
    EditedWith(q.View(), k, width);
    ghost var view := q.View();
    var b := new Builder([], [], [], [], None, None, None);
    var none: seq<Query?> := seq(width, _ => null);
    AllNull(none);
    var edge := new Query(b, none, {});
    assert edge.View().edges == Bare(width).edges;
    ForestPut(q.edges, q.Below(), k, edge, edge.Repr);
    ghost var below := q.Below() + edge.Repr;
    q.edges, q.Repr := q.edges[k := edge], q.Repr + edge.Repr;
    assert q.Below() == below;
  }

  /** The calls of a list that are meant for one of two queries, applied to it in order. */
  function EditedBy(q: QuerySpec, edits: seq<(bool, Edit)>, side: bool): QuerySpec {
    if edits == [] then q else
      var r := EditedBy(q, Front(edits), side);
      if Last(edits).0 == side then Edited(r, Last(edits).1) else r
  }

  // ----- What a list of calls comes to -----

  function Predicate(e: Edit): Option<string> {
    if e.Where? then Some(e.p) else None
  }

  function Interceptor(e: Edit): Option<string> {
    if e.Intercept? then Some(e.i) else None
  }

  function Order(e: Edit): Option<string> {
    if e.OrderBy? then Some(e.o) else None
  }

  function Field(e: Edit): Option<string> {
    if e.Select? then Some(e.f) else None
  }

  function Modifier(e: Edit): Option<string> {
    if e.Modify? then Some(e.m) else None
  }

  function MaxRows(e: Edit): Option<nat> {
    if e.Limit? then Some(e.n) else None
  }

  function Skipped(e: Edit): Option<nat> {
    if e.Offset? then Some(e.n) else None
  }

  function Deduplicated(e: Edit): Option<bool> {
    if e.Unique? then Some(e.u) else None
  }

  function Also<T>(s: seq<T>, x: Option<T>): seq<T> {
    if x.Some? then s + [x.value] else s
  }

  /** What the calls of one kind pass, in the order of the calls. */
  function Passed<T>(edits: seq<(bool, Edit)>, side: bool, arg: Edit -> Option<T>): seq<T> {
    if edits == [] then [] else
      var before, (to, e) := Passed(Front(edits), side, arg), Last(edits);
      if to == side then Also(before, arg(e)) else before
  }

  function LastOr<T>(passed: seq<T>, otherwise: Option<T>): Option<T> {
    if passed == [] then otherwise else Some(Last(passed))
  }

  /** The settings after calls, in terms of what the calls pass. */
  predicate Collected(s: Settings, r: Settings, edits: seq<(bool, Edit)>, side: bool) {
    && r.predicates == s.predicates + Passed(edits, side, Predicate)
    && r.inters == s.inters + Passed(edits, side, Interceptor)
    && r.order == s.order + Passed(edits, side, Order)
    && r.fields == s.fields + Passed(edits, side, Field)
    && r.modifiers == s.modifiers + Passed(edits, side, Modifier)
    && r.limit == LastOr(Passed(edits, side, MaxRows), s.limit)
    && r.offset == LastOr(Passed(edits, side, Skipped), s.offset)
    && r.unique == LastOr(Passed(edits, side, Deduplicated), s.unique)
  }

  lemma {:induction false} ListGrows<T>(start: seq<T>, edits: seq<(bool, Edit)>, side: bool, arg: Edit -> Option<T>)
    requires edits != []
    ensures start + Passed(edits, side, arg) ==
      var before := start + Passed(Front(edits), side, arg);
      if Last(edits).0 == side then Also(before, arg(Last(edits).1)) else before
  {
  }

  lemma {:induction false} LatestGrows<T>(otherwise: Option<T>, edits: seq<(bool, Edit)>, side: bool,
                                          arg: Edit -> Option<T>)
    requires edits != []
    ensures LastOr(Passed(edits, side, arg), otherwise) ==
      var x := arg(Last(edits).1);
      if Last(edits).0 == side && x.Some? then x else LastOr(Passed(Front(edits), side, arg), otherwise)
  {
  }

  lemma {:induction false} OneCall(q: QuerySpec, e: Edit)
    ensures var s, r := q.settings, Edited(q, e).settings;
      && r.predicates == Also(s.predicates, Predicate(e)) && r.inters == Also(s.inters, Interceptor(e))
      && r.order == Also(s.order, Order(e)) && r.fields == Also(s.fields, Field(e))
      && r.modifiers == Also(s.modifiers, Modifier(e))
      && r.limit == (if MaxRows(e).Some? then MaxRows(e) else s.limit)
      && r.offset == (if Skipped(e).Some? then Skipped(e) else s.offset)
      && r.unique == (if Deduplicated(e).Some? then Deduplicated(e) else s.unique)
  {
  }

  /** Each setting after any calls: every list is the old one followed by what the calls of its kind
      pass, in order; of the others the last call counts, and without one they stay as they were.
      Calls on other settings, on edges and inside edges make no difference. */
  lemma {:induction false} SettingsAfter(q: QuerySpec, edits: seq<(bool, Edit)>, side: bool)
    ensures Collected(q.settings, EditedBy(q, edits, side).settings, edits, side)
  {
    if edits != [] {
      var s := q.settings;
      SettingsAfter(q, Front(edits), side);
      OneCall(EditedBy(q, Front(edits), side), Last(edits).1);
      hide Passed, LastOr, Also, Edited, Predicate, Interceptor, Order, Field, Modifier, MaxRows, Skipped, Deduplicated;
      ListGrows(s.predicates, edits, side, Predicate);
      ListGrows(s.inters, edits, side, Interceptor);
      ListGrows(s.order, edits, side, Order);
      ListGrows(s.fields, edits, side, Field);
      ListGrows(s.modifiers, edits, side, Modifier);
      LatestGrows(s.limit, edits, side, MaxRows);
      LatestGrows(s.offset, edits, side, Skipped);
      LatestGrows(s.unique, edits, side, Deduplicated);
    }
  }

  /** The calls made inside edge k, as calls on the query of that edge. */
  function CallsInside(edits: seq<(bool, Edit)>, k: nat): seq<(bool, Edit)> {
    if edits == [] then [] else
      var before, (to, e) := CallsInside(Front(edits), k), Last(edits);
      if e.Inside? && e.edge == k then before + [(to, e.e)] else before
  }

  /** No call asks for edge k. */
  predicate NeverAsks(edits: seq<(bool, Edit)>, side: bool, k: nat) {
    forall i :: 0 <= i < |edits| && edits[i].0 == side && edits[i].1.With? ==> edits[i].1.edge != k
  }

  /** An edge knows only the calls made inside it; without its query they do nothing. */
  lemma {:induction false} EdgeKeepsItsCalls(q: QuerySpec, edits: seq<(bool, Edit)>, side: bool, k: nat)
    requires k < |q.edges| && NeverAsks(edits, side, k)
    ensures var r := EditedBy(q, edits, side);
      && |r.edges| == |q.edges|
      && r.edges[k] == if q.edges[k].None? then None
                       else Some(EditedBy(q.edges[k].value, CallsInside(edits, k), side))
  {
    if edits != [] {
      assert forall i :: 0 <= i < |edits| - 1 ==> Front(edits)[i] == edits[i];
      EdgeKeepsItsCalls(q, Front(edits), side, k);
    }
  }

  lemma {:induction false} EditedInTurn(q: QuerySpec, a: seq<(bool, Edit)>, b: seq<(bool, Edit)>, side: bool)
    ensures EditedBy(q, a + b, side) == EditedBy(EditedBy(q, a, side), b, side)
  {
    if b == [] {
      assert a + b == a;
    } else {
      assert Front(a + b) == a + Front(b);
      EditedInTurn(q, a, Front(b), side);
    }
  }

  lemma {:induction false} EdgesStay(q: QuerySpec, edits: seq<(bool, Edit)>, side: bool)
    ensures |EditedBy(q, edits, side).edges| == |q.edges|
  {
    if edits != [] {
      EdgesStay(q, Front(edits), side);
    }
  }

  /** Asking for an edge starts a new query for it, whatever was said about it before; what counts
      are the calls inside the edge after it was last asked for. */
  lemma {:induction false} AskingStartsAgain(q: QuerySpec, before: seq<(bool, Edit)>, k: nat, width: nat,
                                             after: seq<(bool, Edit)>, side: bool)
    requires k < |q.edges| && NeverAsks(after, side, k)
    ensures var r := EditedBy(q, before + [(side, With(k, width))] + after, side);
      var empty := QuerySpec(Settings([], None, None, None, [], [], [], []), seq(width, _ => None));
      |r.edges| == |q.edges| && r.edges[k] == Some(EditedBy(empty, CallsInside(after, k), side))
  {
    var asked := before + [(side, With(k, width))];
    EdgesStay(q, before, side);
    EditedInTurn(q, asked, after, side);
    assert Front(asked) == before;
    assert EditedBy(q, asked, side).edges[k] == Some(Bare(width));
    assert Bare(width).edges == seq(width, _ => None);
    EdgeKeepsItsCalls(EditedBy(q, asked, side), after, side, k);
  }

  /** The call sets a modifier, on the query or on one below it. */
  predicate Modifies(e: Edit) {
    e.Modify? || (e.Inside? && Modifies(e.e))
  }

  /** Cloning forgets the calls that set modifiers and no others: for every other call it makes no
      difference whether it is made before or after the clone. */
  lemma {:induction false} CloneForgetsModifiersOnly(q: QuerySpec, e: Edit)
    ensures Unmodified(Edited(q, e)) == if Modifies(e) then Unmodified(q) else Edited(Unmodified(q), e)
    decreases e
  {
    UnmodifiedEdges(q);
    UnmodifiedEdges(Edited(q, e));
    match e {
      case With(k, width) =>
        BareIsUnmodified(width);
        assert k < |q.edges| ==>
          AllUnmodified(q.edges[k := Some(Bare(width))]) == AllUnmodified(q.edges)[k := Some(Bare(width))];
      case Inside(k, e1) =>
        if k < |q.edges| && q.edges[k].Some? {
          CloneForgetsModifiersOnly(q.edges[k].value, e1);
          var inner := Some(Edited(q.edges[k].value, e1));
          assert AllUnmodified(q.edges[k := inner]) == AllUnmodified(q.edges)[k := WithoutModifiers(inner)];
        }
      case _ =>
    }
  }

  lemma BareIsUnmodified(width: nat)
    ensures Unmodified(Bare(width)) == Bare(width)
  {
    CloneSameIff(Bare(width));
  }

  /** After a clone, any interleaving of calls on the query (true) and its clone (false)
      leaves each as if the other had not been touched. */
  method CloneAndEdit(q: Query, edits: seq<(bool, Edit)>) returns (r: Query)
    requires q.Valid()
    modifies q.Repr
    ensures q.Valid() && r.Valid() && q.Repr !! r.Repr
    ensures q.View() == EditedBy(old(q.View()), edits, true)
    ensures r.View() == EditedBy(Unmodified(old(q.View())), edits, false)
  {
    hide Forest, Views, Edited, Unmodified;
    r := q.Clone();
    for k := 0 to |edits|
      invariant q.Valid() && r.Valid() && q.Repr !! r.Repr
      invariant fresh(q.Repr - old(q.Repr)) && fresh(r.Repr)
      invariant q.View() == EditedBy(old(q.View()), edits[..k], true)
      invariant r.View() == EditedBy(Unmodified(old(q.View())), edits[..k], false)
    {
      assert Front(edits[..k + 1]) == edits[..k];
      if edits[k].0 {
        Apply(q, edits[k].1);
      } else {
        Apply(r, edits[k].1);
      }
    }
    assert edits[..|edits|] == edits;
  }
}
