/** The chain of mutators a bulk create builds, as a function: builder i's hooks around its
    own step, which runs builder i + 1's mutator, and the last step performs the batch. */
module BulkSpec {
  import opened Options
  import opened Sequences

  /** The column values of a mutation, by field name. */
  type Fields = map<string, string>

  datatype Error =
    | Missing(field: string)
    | Invalid(field: string)
    | Uninitialized(field: string)
    | Database(code: int)
    | Hook(id: nat)

  /** A hook calls the mutator it wraps `calls` times, stops at the first error, and may fail
      by itself afterwards. */
  datatype HookPlan = HookPlan(id: nat, calls: nat, fails: bool)

  predicate PassThrough(k: HookPlan) {
    k.calls == 1 && !k.fails
  }

  /** A builder after its defaults were set: its fields, what its check says, its hooks. */
  datatype Plan = Plan(fields: Fields, check: Option<Error>, hooks: seq<HookPlan>)

  /** The outcome of an INSERT of several rows: an error, or the generated keys, where a row
      that was skipped on conflict has none. */
  datatype BatchResult = Inserted(ids: seq<Option<int>>) | Refused(error: Error)

  /** The database: the outcome of the k-th batch. */
  type Driver = (nat, seq<Fields>) -> BatchResult

  datatype Event = Enter(builder: nat, hook: nat) | Leave(builder: nat, hook: nat) | Batch(specs: seq<Fields>)

  datatype Node = Node(fields: Fields, id: int)

  datatype State = State(
    nodes: seq<Option<Node>>,
    specs: seq<Option<Fields>>,
    keys: seq<Option<int>>,      // the key each spec was given
    done: seq<bool>,
    batches: nat,
    log: seq<Event>)

  predicate Fits(n: nat, st: State) {
    |st.nodes| == |st.specs| == |st.keys| == |st.done| == n
  }

  function Given(specs: seq<Option<Fields>>): seq<Fields> {
    seq(|specs|, i requires 0 <= i < |specs| => if specs[i].Some? then specs[i].value else map[])
  }

  function Log(st: State, e: Event): State {
    st.(log := st.log + [e])
  }

  /** The batch: on success every spec gets its key. */
  function Perform(d: Driver, st: State): (Option<Error>, State) {
    var specs := Given(st.specs);
    var st1 := Log(st, Batch(specs)).(batches := st.batches + 1);
    match d(st.batches, specs)
    case Refused(e) => (Some(e), st1)
    case Inserted(ids) =>
      (None, st1.(keys := seq(|st.keys|, i => if 0 <= i < |ids| then ids[i] else None)))
  }

  /** Builder i's own step, before the rest of the chain runs. */
  function Prepare(ps: seq<Plan>, i: nat, st: State): State
    requires i < |ps| && Fits(|ps|, st)
  {
    st.(nodes := st.nodes[i := Some(Node(ps[i].fields, 0))], specs := st.specs[i := Some(ps[i].fields)],
        keys := st.keys[i := None])
  }

  /** Builder i's own step, after the rest of the chain succeeded. */
  function Complete(i: nat, st: State): State
    requires i < |st.nodes| == |st.keys| == |st.done| && st.nodes[i].Some?
  {
    var node := st.nodes[i].value;
    var id := if st.keys[i].Some? then st.keys[i].value else node.id;
    st.(nodes := st.nodes[i := Some(node.(id := id))], done := st.done[i := true])
  }

  /** Hook h of builder i and all it wraps; past the last hook, the builder's own step. */
  function Mutate(ps: seq<Plan>, d: Driver, i: nat, h: nat, st: State): (r: (Option<Error>, State))
    requires i < |ps| && h <= |ps[i].hooks| && Fits(|ps|, st)
    ensures Fits(|ps|, r.1)
    ensures forall j :: 0 <= j < |ps| && st.nodes[j].Some? ==> r.1.nodes[j].Some?
    decreases |ps| - i, |ps[i].hooks| - h + 1, 0
  {
    if h < |ps[i].hooks| then
      var hook := ps[i].hooks[h];
      var (err, st1) := Repeat(ps, d, i, h, hook.calls, Log(st, Enter(i, h)));
      (if err.Some? then err else if hook.fails then Some(Error.Hook(hook.id)) else None, Log(st1, Leave(i, h)))
    else if ps[i].check.Some? then (ps[i].check, st)
    else
      var st1 := Prepare(ps, i, st);
      var (err, st2) := if i < |ps| - 1 then Mutate(ps, d, i + 1, 0, st1) else Perform(d, st1);
      if err.Some? then (err, st2) else (None, Complete(i, st2))
  }

  /** `k` calls of what hook h wraps, up to the first error. */
  function Repeat(ps: seq<Plan>, d: Driver, i: nat, h: nat, k: nat, st: State): (r: (Option<Error>, State))
    requires i < |ps| && h < |ps[i].hooks| && Fits(|ps|, st)
    ensures Fits(|ps|, r.1)
    ensures forall j :: 0 <= j < |ps| && st.nodes[j].Some? ==> r.1.nodes[j].Some?
    decreases |ps| - i, |ps[i].hooks| - h, k + 1
  {
    if k == 0 then (None, st) else
      var (err, st1) := Mutate(ps, d, i, h + 1, st);
      if err.Some? then (err, st1) else Repeat(ps, d, i, h, k - 1, st1)
  }

  function Start(n: nat): State {
    State(seq(n, _ => None), seq(n, _ => None), seq(n, _ => None), seq(n, _ => false), 0, [])
  }

  /** The whole save: no mutator runs if there is no builder. */
  function Save(ps: seq<Plan>, d: Driver): (Option<Error>, State) {
    if ps == [] then (None, Start(0)) else Mutate(ps, d, 0, 0, Start(|ps|))
  }

  // ----- The mutators -----

  /** A mutator: the innermost function of a builder, or what hook `at` of a builder makes of
      another mutator. */
  datatype Mutator = Own(builder: nat) | Hooked(builder: nat, at: nat, inner: Mutator)

  /** The mutator of builder i, which has so many hooks, from its hook h inwards. */
  function Wrapped(hooks: nat, i: nat, h: nat): (m: Mutator)
    requires h <= hooks
    ensures BuilderOf(m) == i
    decreases hooks - h
  {
    if h == hooks then Own(i) else Hooked(i, h, Wrapped(hooks, i, h + 1))
  }

  function BuilderOf(m: Mutator): nat {
    if m.Own? then m.builder else BuilderOf(m.inner)
  }

  /** The hooks of a mutator are hooks of existing builders, and the innermost function belongs
      to one. */
  predicate Known(ps: seq<Plan>, m: Mutator) {
    match m
    case Own(i) => i < |ps|
    case Hooked(b, at, inner) => b < |ps| && at < |ps[b].hooks| && Known(ps, inner)
  }

  /** Mutator i ends in builder i's own step. */
  predicate Chained(ps: seq<Plan>, ms: seq<Mutator>) {
    |ms| == |ps| && forall i :: 0 <= i < |ms| ==> Known(ps, ms[i]) && BuilderOf(ms[i]) == i
  }

  /** Running a mutator, whatever hooks it is wrapped in: a hook calls what it was given, and an
      own step calls the next mutator of the list. */
  function Run(ps: seq<Plan>, d: Driver, ms: seq<Mutator>, m: Mutator, st: State): (r: (Option<Error>, State))
    requires Chained(ps, ms) && Known(ps, m) && Fits(|ps|, st)
    ensures Fits(|ps|, r.1)
    ensures forall j :: 0 <= j < |ps| && st.nodes[j].Some? ==> r.1.nodes[j].Some?
    decreases |ps| - BuilderOf(m), m, 0
  {
    match m
    case Hooked(b, at, inner) =>
      var hook := ps[b].hooks[at];
      var (err, st1) := RunTimes(ps, d, ms, inner, hook.calls, Log(st, Enter(b, at)));
      (if err.Some? then err else if hook.fails then Some(Error.Hook(hook.id)) else None, Log(st1, Leave(b, at)))
    case Own(i) =>
      if ps[i].check.Some? then (ps[i].check, st) else
        var st1 := Prepare(ps, i, st);
        var (err, st2) := if i < |ps| - 1 then Run(ps, d, ms, ms[i + 1], st1) else Perform(d, st1);
        if err.Some? then (err, st2) else (None, Complete(i, st2))
  }

  function RunTimes(ps: seq<Plan>, d: Driver, ms: seq<Mutator>, m: Mutator, k: nat, st: State)
    : (r: (Option<Error>, State))
    requires Chained(ps, ms) && Known(ps, m) && Fits(|ps|, st)
    ensures Fits(|ps|, r.1)
    ensures forall j :: 0 <= j < |ps| && st.nodes[j].Some? ==> r.1.nodes[j].Some?
    decreases |ps| - BuilderOf(m), m, k + 1
  {
    if k == 0 then (None, st) else
      var (err, st1) := Run(ps, d, ms, m, st);
      if err.Some? then (err, st1) else RunTimes(ps, d, ms, m, k - 1, st1)
  }

  lemma {:induction false} OwnRuns(ps: seq<Plan>, d: Driver, ms: seq<Mutator>, i: nat, st: State)
    requires Chained(ps, ms) && i < |ps| && Fits(|ps|, st)
    ensures Run(ps, d, ms, Own(i), st) ==
      if ps[i].check.Some? then (ps[i].check, st) else
        var st1 := Prepare(ps, i, st);
        var (err, st2) := if i < |ps| - 1 then Run(ps, d, ms, ms[i + 1], st1) else Perform(d, st1);
        if err.Some? then (err, st2) else (None, Complete(i, st2))
  {
  }

  /** The list that wrapping each builder's own step from its last hook outwards makes. */
  function Mutators(ps: seq<Plan>): (ms: seq<Mutator>)
    ensures |ms| == |ps| && forall i :: 0 <= i < |ps| ==> ms[i] == Wrapped(|ps[i].hooks|, i, 0)
  {
    seq(|ps|, i requires 0 <= i < |ps| => Wrapped(|ps[i].hooks|, i, 0))
  }

  lemma {:induction false} WrappedKnown(ps: seq<Plan>, i: nat, h: nat)
    requires i < |ps| && h <= |ps[i].hooks|
    ensures Known(ps, Wrapped(|ps[i].hooks|, i, h))
    decreases |ps[i].hooks| - h
  {
    if h < |ps[i].hooks| {
      WrappedKnown(ps, i, h + 1);
    }
  }

  lemma MutatorsChained(ps: seq<Plan>)
    ensures Chained(ps, Mutators(ps))
  {
    forall i | 0 <= i < |ps|
      ensures Known(ps, Mutators(ps)[i])
    {
      WrappedKnown(ps, i, 0);
    }
  }

  /** Wrapping from the last hook down makes the first hook the outermost: running the wrapped
      mutators is running hook h around hook h + 1, and builder i around builder i + 1. */
  lemma {:induction false} RunIsMutate(ps: seq<Plan>, d: Driver, i: nat, h: nat, st: State)
    requires i < |ps| && h <= |ps[i].hooks| && Fits(|ps|, st) && Chained(ps, Mutators(ps))
      && Known(ps, Wrapped(|ps[i].hooks|, i, h))
    ensures Run(ps, d, Mutators(ps), Wrapped(|ps[i].hooks|, i, h), st) == Mutate(ps, d, i, h, st)
    decreases |ps| - i, |ps[i].hooks| - h + 1, 0
  {
    if h < |ps[i].hooks| {
      hide Repeat, RunTimes;
      RunTimesIsRepeat(ps, d, i, h, ps[i].hooks[h].calls, Log(st, Enter(i, h)));
    } else if ps[i].check.None? && i < |ps| - 1 {
      RunIsMutate(ps, d, i + 1, 0, Prepare(ps, i, st));
    }
  }

  lemma {:induction false} RunTimesIsRepeat(ps: seq<Plan>, d: Driver, i: nat, h: nat, k: nat, st: State)
    requires i < |ps| && h < |ps[i].hooks| && Fits(|ps|, st) && Chained(ps, Mutators(ps))
      && Known(ps, Wrapped(|ps[i].hooks|, i, h + 1))
    ensures RunTimes(ps, d, Mutators(ps), Wrapped(|ps[i].hooks|, i, h + 1), k, st) == Repeat(ps, d, i, h, k, st)
    decreases |ps| - i, |ps[i].hooks| - h, k + 1
  {
    hide Run, Mutate;
    if k > 0 {
      RunIsMutate(ps, d, i, h + 1, st);
      RunTimesIsRepeat(ps, d, i, h, k - 1, Mutate(ps, d, i, h + 1, st).1);
    }
  }

  // ----- The run as a word -----

  /** The hooks from hook h of builder i on, in the order they are entered. */
  function Enters(ps: seq<Plan>, i: nat, h: nat): seq<Event>
    requires i <= |ps| && (i < |ps| ==> h <= |ps[i].hooks|)
    decreases |ps| - i, if i < |ps| then |ps[i].hooks| - h else 0
  {
    if i == |ps| then []
    else if h < |ps[i].hooks| then [Enter(i, h)] + Enters(ps, i, h + 1)
    else Enters(ps, i + 1, 0)
  }

  /** The matching exits of a word of entries: the same hooks, in reverse. */
  function Mirror(es: seq<Event>): seq<Event> {
    if es == [] then [] else
      Mirror(es[1..]) + [if es[0].Enter? then Leave(es[0].builder, es[0].hook) else es[0]]
  }

  predicate AllPassThrough(ps: seq<Plan>) {
    forall i :: 0 <= i < |ps| ==> forall h :: 0 <= h < |ps[i].hooks| ==> PassThrough(ps[i].hooks[h])
  }

  predicate ChecksPass(ps: seq<Plan>, i: nat) {
    forall j :: i <= j < |ps| ==> ps[j].check == None
  }

  function AllFields(ps: seq<Plan>): seq<Fields> {
    seq(|ps|, i requires 0 <= i < |ps| => ps[i].fields)
  }

  /** Builders before i have run their first half. */
  predicate Prepared(ps: seq<Plan>, i: nat, st: State) {
    && Fits(|ps|, st)
    && (forall j :: 0 <= j < i && j < |ps| ==>
         st.specs[j] == Some(ps[j].fields) && st.nodes[j] == Some(Node(ps[j].fields, 0)))
  }

  /** The run from hook h of builder i on enters the remaining hooks in order, performs the
      batch once with the specs of all builders in order, and leaves the hooks in reverse. */
  ghost predicate WellNested(ps: seq<Plan>, d: Driver, i: nat, h: nat, st: State)
    requires i < |ps| && h <= |ps[i].hooks| && Fits(|ps|, st)
  {
    var es, r := Enters(ps, i, h), Mutate(ps, d, i, h, st).1;
    r.log == st.log + es + [Batch(AllFields(ps))] + Mirror(es) && r.batches == st.batches + 1
  }

  lemma HookNests(ps: seq<Plan>, d: Driver, i: nat, h: nat, st: State)
    requires i < |ps| && h < |ps[i].hooks| && Fits(|ps|, st) && PassThrough(ps[i].hooks[h])
    requires WellNested(ps, d, i, h + 1, Log(st, Enter(i, h)))
    ensures WellNested(ps, d, i, h, st)
  {
    hide Mutate, AllFields;
    OneCall(ps, d, i, h, st);
    Bracket(st.log, Enter(i, h), Enters(ps, i, h + 1), [Batch(AllFields(ps))], Leave(i, h));
  }

  lemma {:induction false} Bracket(log: seq<Event>, e: Event, es: seq<Event>, mid: seq<Event>, x: Event)
    requires e.Enter? && x == Leave(e.builder, e.hook)
    ensures log + [e] + es + mid + Mirror(es) + [x] == log + ([e] + es) + mid + Mirror([e] + es)
  {
    assert ([e] + es)[1..] == es;
  }

  lemma LastNests(ps: seq<Plan>, d: Driver, st: State)
    requires ps != [] && ChecksPass(ps, |ps| - 1) && Prepared(ps, |ps| - 1, st)
    ensures WellNested(ps, d, |ps| - 1, |ps[|ps| - 1].hooks|, st)
  {
    var st1 := Prepare(ps, |ps| - 1, st);
    assert Given(st1.specs) == AllFields(ps);
    assert Enters(ps, |ps|, 0) == [] && Mirror([]) == [];
    assert st.log + [] + [Batch(AllFields(ps))] + [] == st.log + [Batch(AllFields(ps))];
  }

  lemma {:induction false} RunIsWellNested(ps: seq<Plan>, d: Driver, i: nat, h: nat, st: State)
    requires i < |ps| && h <= |ps[i].hooks| && AllPassThrough(ps) && ChecksPass(ps, i) && Prepared(ps, i, st)
    ensures WellNested(ps, d, i, h, st)
    decreases |ps| - i, |ps[i].hooks| - h
  {
    if h < |ps[i].hooks| {
      hide Mutate, Enters, WellNested;
      RunIsWellNested(ps, d, i, h + 1, Log(st, Enter(i, h)));
      HookNests(ps, d, i, h, st);
    } else if i == |ps| - 1 {
      hide Mutate, Enters, WellNested;
      LastNests(ps, d, st);
    } else {
      RunIsWellNested(ps, d, i + 1, 0, Prepare(ps, i, st));
    }
  }

  /** A pass-through hook adds its two events and nothing else. */
  lemma OneCall(ps: seq<Plan>, d: Driver, i: nat, h: nat, st: State)
    requires i < |ps| && h < |ps[i].hooks| && Fits(|ps|, st) && PassThrough(ps[i].hooks[h])
    ensures var r := Mutate(ps, d, i, h + 1, Log(st, Enter(i, h)));
      Mutate(ps, d, i, h, st) == (r.0, Log(r.1, Leave(i, h)))
  {
    var st1 := Log(st, Enter(i, h));
    var r := Mutate(ps, d, i, h + 1, st1);
    assert Repeat(ps, d, i, h, 0, r.1) == (None, r.1);
    assert Repeat(ps, d, i, h, 1, st1) == r;
  }

  // ----- How often the batch runs -----

  /** The product of the call counts of the hooks from hook h of builder i on. */
  function Calls(ps: seq<Plan>, i: nat, h: nat): nat
    requires i <= |ps| && (i < |ps| ==> h <= |ps[i].hooks|)
    decreases |ps| - i, if i < |ps| then |ps[i].hooks| - h else 0
  {
    if i == |ps| then 1
    else if h < |ps[i].hooks| then ps[i].hooks[h].calls * Calls(ps, i, h + 1)
    else Calls(ps, i + 1, 0)
  }

  predicate NeverFail(ps: seq<Plan>) {
    forall i :: 0 <= i < |ps| ==> forall h :: 0 <= h < |ps[i].hooks| ==> !ps[i].hooks[h].fails
  }

  ghost predicate NeverRefuses(d: Driver) {
    forall k: nat, specs: seq<Fields> :: d(k, specs).Inserted?
  }

  ghost predicate Multiplies(ps: seq<Plan>, r: (Option<Error>, State), st: State, times: nat) {
    r.0 == None && r.1.batches == st.batches + times
  }

  /** Whatever the hooks do with the mutator they wrap, the batch runs as often as the
      product of their call counts says. */
  lemma {:induction false} BatchCount(ps: seq<Plan>, d: Driver, i: nat, h: nat, st: State)
    requires i < |ps| && h <= |ps[i].hooks| && Fits(|ps|, st)
    requires NeverFail(ps) && NeverRefuses(d) && ChecksPass(ps, i)
    ensures Multiplies(ps, Mutate(ps, d, i, h, st), st, Calls(ps, i, h))
    decreases |ps| - i, |ps[i].hooks| - h + 1, 0
  {
    if h < |ps[i].hooks| {
      hide Calls, Repeat;
      RepeatCount(ps, d, i, h, ps[i].hooks[h].calls, Log(st, Enter(i, h)));
      CallsOfHook(ps, i, h);
    } else if i < |ps| - 1 {
      BatchCount(ps, d, i + 1, 0, Prepare(ps, i, st));
    }
  }

  lemma CallsOfHook(ps: seq<Plan>, i: nat, h: nat)
    requires i < |ps| && h < |ps[i].hooks|
    ensures Calls(ps, i, h) == ps[i].hooks[h].calls * Calls(ps, i, h + 1)
  {
  }

  lemma {:induction false} RepeatCount(ps: seq<Plan>, d: Driver, i: nat, h: nat, k: nat, st: State)
    requires i < |ps| && h < |ps[i].hooks| && Fits(|ps|, st)
    requires NeverFail(ps) && NeverRefuses(d) && ChecksPass(ps, i)
    ensures Multiplies(ps, Repeat(ps, d, i, h, k, st), st, k * Calls(ps, i, h + 1))
    decreases |ps| - i, |ps[i].hooks| - h, k + 1
  {
    hide Calls, Mutate;
    if k > 0 {
      BatchCount(ps, d, i, h + 1, st);
      var r := Mutate(ps, d, i, h + 1, st);
      RepeatCount(ps, d, i, h, k - 1, r.1);
      assert k * Calls(ps, i, h + 1) == (k - 1) * Calls(ps, i, h + 1) + Calls(ps, i, h + 1);
    }
  }

  lemma {:induction false} ProductOne(ps: seq<Plan>, i: nat, h: nat)
    requires i < |ps| && h <= |ps[i].hooks|
    ensures Calls(ps, i, h) == 1 <==>
      && (forall k :: h <= k < |ps[i].hooks| ==> ps[i].hooks[k].calls == 1)
      && (forall j :: i < j < |ps| ==> forall k :: 0 <= k < |ps[j].hooks| ==> ps[j].hooks[k].calls == 1)
    decreases |ps| - i, |ps[i].hooks| - h
  {
    if h < |ps[i].hooks| {
      ProductOne(ps, i, h + 1);
      TimesOne(ps[i].hooks[h].calls, Calls(ps, i, h + 1));
    } else if i < |ps| - 1 {
      ProductOne(ps, i + 1, 0);
    }
  }

  lemma TimesOne(a: nat, b: nat)
    ensures a * b == 1 <==> a == 1 && b == 1
  {
    if a >= 2 && b >= 1 {
      assert a * b >= a;
    }
    if a >= 1 && b >= 2 {
      assert a * b >= b;
    }
  }

  /** The batch runs exactly once if and only if every hook calls next exactly once. */
  lemma {:induction false} BatchRunsOnceIff(ps: seq<Plan>, d: Driver)
    requires ps != [] && NeverFail(ps) && NeverRefuses(d) && ChecksPass(ps, 0)
    ensures Save(ps, d).0 == None && Save(ps, d).1.batches == Calls(ps, 0, 0)
    ensures Save(ps, d).1.batches == 1 <==> AllPassThrough(ps)
  {
    BatchCount(ps, d, 0, 0, Start(|ps|));
    ProductOne(ps, 0, 0);
  }

  // ----- Which mutations are marked done -----

  /** The hooks of builder b from hook h on all call what they wrap. */
  predicate Calling(ps: seq<Plan>, b: nat, h: nat)
    requires b < |ps|
  {
    forall k :: h <= k < |ps[b].hooks| ==> ps[b].hooks[k].calls >= 1
  }

  /** No hook from hook h of builder i to builder j keeps the chain from getting there. */
  predicate Reaches(ps: seq<Plan>, i: nat, h: nat, j: nat)
    requires i < |ps| && j < |ps|
  {
    i <= j && Calling(ps, i, h) && forall b :: i < b <= j ==> Calling(ps, b, 0)
  }

  /** The run marks just the mutations it reaches. */
  ghost predicate Marks(ps: seq<Plan>, r: State, st: State, i: nat, h: nat)
    requires i < |ps| && Fits(|ps|, r) && Fits(|ps|, st)
  {
    forall j :: 0 <= j < |ps| ==> (r.done[j] <==> st.done[j] || Reaches(ps, i, h, j))
  }

  lemma {:induction false} RunMarks(ps: seq<Plan>, d: Driver, i: nat, h: nat, st: State)
    requires i < |ps| && h <= |ps[i].hooks| && Fits(|ps|, st)
    requires NeverFail(ps) && NeverRefuses(d) && ChecksPass(ps, i)
    ensures Mutate(ps, d, i, h, st).0 == None && Marks(ps, Mutate(ps, d, i, h, st).1, st, i, h)
    decreases |ps| - i, |ps[i].hooks| - h + 1, 0
  {
    if h < |ps[i].hooks| {
      hide Repeat;
      RepeatMarks(ps, d, i, h, ps[i].hooks[h].calls, Log(st, Enter(i, h)));
    } else if i < |ps| - 1 {
      RunMarks(ps, d, i + 1, 0, Prepare(ps, i, st));
    }
  }

  lemma {:induction false} RepeatMarks(ps: seq<Plan>, d: Driver, i: nat, h: nat, k: nat, st: State)
    requires i < |ps| && h < |ps[i].hooks| && Fits(|ps|, st)
    requires NeverFail(ps) && NeverRefuses(d) && ChecksPass(ps, i)
    ensures var (err, r) := Repeat(ps, d, i, h, k, st);
      err == None && if k == 0 then r == st else Marks(ps, r, st, i, h + 1)
    decreases |ps| - i, |ps[i].hooks| - h, k + 1
  {
    hide Mutate, Reaches;
    if k > 0 {
      RunMarks(ps, d, i, h + 1, st);
      RepeatMarks(ps, d, i, h, k - 1, Mutate(ps, d, i, h + 1, st).1);
    }
  }

  /** A mutation is marked done if and only if every hook of its builder and of those before it
      calls what it wraps, however many builders and hooks there are after it. */
  lemma {:induction false} DoneIff(ps: seq<Plan>, d: Driver, j: nat)
    requires j < |ps| && NeverFail(ps) && NeverRefuses(d) && ChecksPass(ps, 0)
    ensures Fits(|ps|, Save(ps, d).1)
    ensures Save(ps, d).1.done[j] <==> forall b :: 0 <= b <= j ==> Calling(ps, b, 0)
  {
    hide Mutate;
    RunMarks(ps, d, 0, 0, Start(|ps|));
  }

  lemma {:induction false} CallsPositive(ps: seq<Plan>, i: nat, h: nat)
    requires i < |ps| && h <= |ps[i].hooks|
    ensures Calls(ps, i, h) >= 1 <==> Calling(ps, i, h) && forall b :: i < b < |ps| ==> Calling(ps, b, 0)
    decreases |ps| - i, |ps[i].hooks| - h
  {
    if h < |ps[i].hooks| {
      CallsPositive(ps, i, h + 1);
      TimesPositive(ps[i].hooks[h].calls, Calls(ps, i, h + 1));
    } else if i < |ps| - 1 {
      CallsPositive(ps, i + 1, 0);
    }
  }

  lemma TimesPositive(a: nat, b: nat)
    ensures a * b >= 1 <==> a >= 1 && b >= 1
  {
  }

  /** If a mutation is marked done then the batch ran, for every mutation of a save, if and only if
      a hook of the first builder calls nothing, so that nothing is marked, or every hook calls
      what it wraps. */
  lemma {:induction false} DoneMeansBatchRanIff(ps: seq<Plan>, d: Driver)
    requires ps != [] && NeverFail(ps) && NeverRefuses(d) && ChecksPass(ps, 0)
    ensures Fits(|ps|, Save(ps, d).1)
    ensures (forall j :: 0 <= j < |ps| && Save(ps, d).1.done[j] ==> Save(ps, d).1.batches >= 1) <==>
            !Calling(ps, 0, 0) || forall b :: 0 <= b < |ps| ==> Calling(ps, b, 0)
  {
    hide Mutate, Save, Calls, Calling;
    DoneIff(ps, d, 0);
    forall j | 0 <= j < |ps|
      ensures Save(ps, d).1.done[j] ==> Calling(ps, 0, 0)
    {
      DoneIff(ps, d, j);
    }
    BatchRunsOnceIff(ps, d);
    CallsPositive(ps, 0, 0);
  }

  // ----- Which rows were inserted -----

  /** The keys of a batch, by spec: none for a row that was skipped on conflict. */
  function KeysGiven(n: nat, ids: seq<Option<int>>): (keys: seq<Option<int>>)
    ensures |keys| == n && forall j :: 0 <= j < n ==> keys[j] == if j < |ids| then ids[j] else None
  {
    seq(n, j => if 0 <= j < |ids| then ids[j] else None)
  }

  predicate NoneKeyed(st: State) {
    forall j :: 0 <= j < |st.keys| ==> st.keys[j] == None
  }

  /** The keys after a run from hook h of builder i on: those of the last batch, if there was one;
      else none, if there were none before. */
  ghost predicate Keyed(ps: seq<Plan>, d: Driver, i: nat, h: nat, st: State, r: State)
    requires i < |ps| && h <= |ps[i].hooks| && Fits(|ps|, st) && Fits(|ps|, r)
  {
    && Prepared(ps, i, r)
    && r.batches == st.batches + Calls(ps, i, h)
    && (Calls(ps, i, h) >= 1 ==>
         d(r.batches - 1, AllFields(ps)).Inserted? && r.keys == KeysGiven(|ps|, d(r.batches - 1, AllFields(ps)).ids))
    && (Calls(ps, i, h) == 0 && NoneKeyed(st) ==> NoneKeyed(r))
  }

  lemma {:induction false} LastKeyed(ps: seq<Plan>, d: Driver, st: State)
    requires ps != [] && Prepared(ps, |ps| - 1, st) && NeverRefuses(d) && ps[|ps| - 1].check.None?
    ensures Keyed(ps, d, |ps| - 1, |ps[|ps| - 1].hooks|, st, Mutate(ps, d, |ps| - 1, |ps[|ps| - 1].hooks|, st).1)
  {
    var st1 := Prepare(ps, |ps| - 1, st);
    assert Given(st1.specs) == AllFields(ps);
    assert Calls(ps, |ps|, 0) == 1;
    var ids := d(st1.batches, AllFields(ps)).ids;
    assert Perform(d, st1).1.keys == KeysGiven(|ps|, ids);
  }

  lemma {:induction false} OwnKeyed(ps: seq<Plan>, d: Driver, i: nat, st: State)
    requires i < |ps| - 1 && Prepared(ps, i, st) && ps[i].check.None?
    requires Mutate(ps, d, i + 1, 0, Prepare(ps, i, st)).0 == None
    requires Keyed(ps, d, i + 1, 0, Prepare(ps, i, st), Mutate(ps, d, i + 1, 0, Prepare(ps, i, st)).1)
    ensures Keyed(ps, d, i, |ps[i].hooks|, st, Mutate(ps, d, i, |ps[i].hooks|, st).1)
  {
    hide Mutate, KeysGiven, AllFields;
    OwnUnfolds(ps, d, i, st);
  }

  lemma {:induction false} RunKeys(ps: seq<Plan>, d: Driver, i: nat, h: nat, st: State)
    requires i < |ps| && h <= |ps[i].hooks| && Prepared(ps, i, st)
    requires NeverFail(ps) && NeverRefuses(d) && ChecksPass(ps, i)
    ensures Keyed(ps, d, i, h, st, Mutate(ps, d, i, h, st).1)
    decreases |ps| - i, |ps[i].hooks| - h + 1, 0
  {
    if h < |ps[i].hooks| {
      hide Repeat, Calls, Keyed;
      RepeatKeys(ps, d, i, h, ps[i].hooks[h].calls, Log(st, Enter(i, h)));
      HookKeyed(ps, d, i, h, st, Mutate(ps, d, i, h, st).1);
    } else if i < |ps| - 1 {
      hide Mutate, Keyed, Calls;
      RunKeys(ps, d, i + 1, 0, Prepare(ps, i, st));
      BatchCount(ps, d, i + 1, 0, Prepare(ps, i, st));
      OwnKeyed(ps, d, i, st);
    } else {
      hide Mutate, Keyed;
      LastKeyed(ps, d, st);
    }
  }

  lemma {:induction false} RepeatKeys(ps: seq<Plan>, d: Driver, i: nat, h: nat, k: nat, st: State)
    requires i < |ps| && h < |ps[i].hooks| && Prepared(ps, i, st)
    requires NeverFail(ps) && NeverRefuses(d) && ChecksPass(ps, i)
    ensures RepeatKeyed(ps, d, i, h, k, st, Repeat(ps, d, i, h, k, st).1)
    decreases |ps| - i, |ps[i].hooks| - h, k + 1
  {
    hide Mutate, Calls;
    if k > 0 {
      RunKeys(ps, d, i, h + 1, st);
      BatchCount(ps, d, i, h + 1, st);
      var r := Mutate(ps, d, i, h + 1, st).1;
      RepeatKeys(ps, d, i, h, k - 1, r);
      assert k * Calls(ps, i, h + 1) == (k - 1) * Calls(ps, i, h + 1) + Calls(ps, i, h + 1);
    }
  }

  /** The same after k calls of what hook h wraps. */
  ghost predicate RepeatKeyed(ps: seq<Plan>, d: Driver, i: nat, h: nat, k: nat, st: State, r: State)
    requires i < |ps| && h < |ps[i].hooks| && Fits(|ps|, st) && Fits(|ps|, r)
  {
    var n := Calls(ps, i, h + 1);
    && Prepared(ps, i, r)
    && r.batches == st.batches + k * n
    && (k == 0 ==> r.keys == st.keys)
    && (k >= 1 && n >= 1 ==>
         && r.batches >= 1 && d(r.batches - 1, AllFields(ps)).Inserted?
         && r.keys == KeysGiven(|ps|, d(r.batches - 1, AllFields(ps)).ids))
    && (n == 0 && NoneKeyed(st) ==> NoneKeyed(r))
  }

  lemma {:induction false} HookKeyed(ps: seq<Plan>, d: Driver, i: nat, h: nat, st: State, r: State)
    requires i < |ps| && h < |ps[i].hooks| && Fits(|ps|, st) && Fits(|ps|, r)
    requires RepeatKeyed(ps, d, i, h, ps[i].hooks[h].calls, st, r)
    ensures Keyed(ps, d, i, h, st, r)
  {
  }

  /** Every row of a batch got a key. */
  predicate AllRowsKept(n: nat, ids: seq<Option<int>>) {
    n <= |ids| && forall j :: 0 <= j < n ==> ids[j].Some?
  }

  /** Every mutation that is marked done had its row inserted. */
  predicate DoneHasKey(st: State)
    requires |st.done| == |st.keys|
  {
    forall j :: 0 <= j < |st.done| && st.done[j] ==> st.keys[j].Some?
  }

  /** In a save without errors every mutation that is marked done had its row inserted, if and
      only if a hook of the first builder calls nothing, so that nothing is marked, or every hook
      calls what it wraps and the last batch skipped no row. */
  lemma {:induction false} DoneMeansInsertedIff(ps: seq<Plan>, d: Driver)
    requires ps != [] && NeverFail(ps) && NeverRefuses(d) && ChecksPass(ps, 0)
    ensures Fits(|ps|, Save(ps, d).1)
    ensures DoneHasKey(Save(ps, d).1) <==>
      !Calling(ps, 0, 0) || (Calls(ps, 0, 0) >= 1 && AllRowsKept(|ps|, d(Calls(ps, 0, 0) - 1, AllFields(ps)).ids))
    ensures Calls(ps, 0, 0) >= 1 <==> forall b :: 0 <= b < |ps| ==> Calling(ps, b, 0)
  {
    hide Mutate, Save, Calls, Calling, AllFields, DoneHasKey, AllRowsKept;
    CallsPositive(ps, 0, 0);
    DoneIff(ps, d, 0);
    if Calls(ps, 0, 0) >= 1 {
      AllDone(ps, d);
    } else {
      NoneInserted(ps, d);
    }
  }

  /** If every hook calls what it wraps, all mutations are done, with the keys of the last batch. */
  lemma {:induction false} AllDone(ps: seq<Plan>, d: Driver)
    requires ps != [] && NeverFail(ps) && NeverRefuses(d) && ChecksPass(ps, 0) && Calls(ps, 0, 0) >= 1
    ensures Fits(|ps|, Save(ps, d).1)
    ensures DoneHasKey(Save(ps, d).1) <==> AllRowsKept(|ps|, d(Calls(ps, 0, 0) - 1, AllFields(ps)).ids)
  {
    hide Mutate, Save, Calls, Calling, AllFields, DoneHasKey, AllRowsKept, KeysGiven;
    LastKeys(ps, d);
    CallsPositive(ps, 0, 0);
    var r, ids := Save(ps, d).1, d(Calls(ps, 0, 0) - 1, AllFields(ps)).ids;
    forall j | 0 <= j < |ps|
      ensures r.done[j]
    {
      DoneIff(ps, d, j);
    }
    KeptIff(|ps|, r, ids);
  }

  lemma {:induction false} KeptIff(n: nat, r: State, ids: seq<Option<int>>)
    requires Fits(n, r) && r.keys == KeysGiven(n, ids) && forall j :: 0 <= j < n ==> r.done[j]
    ensures DoneHasKey(r) <==> AllRowsKept(n, ids)
  {
    if DoneHasKey(r) {
      if n > 0 {
        assert r.done[n - 1] && r.keys[n - 1].Some?;
      }
      forall j | 0 <= j < n
        ensures j < |ids| && ids[j].Some?
      {
        assert r.done[j] && r.keys[j].Some?;
      }
    }
  }

  /** If some hook calls nothing, no mutation has a key; a mutation is done only if the first is. */
  lemma {:induction false} NoneInserted(ps: seq<Plan>, d: Driver)
    requires ps != [] && NeverFail(ps) && NeverRefuses(d) && ChecksPass(ps, 0) && Calls(ps, 0, 0) == 0
    ensures Fits(|ps|, Save(ps, d).1)
    ensures DoneHasKey(Save(ps, d).1) <==> !Calling(ps, 0, 0)
  {
    hide Mutate, Save, Calls, Calling;
    NoKeys(ps, d, 0);
    DoneIff(ps, d, 0);
    forall j | 0 <= j < |ps| && Save(ps, d).1.done[j]
      ensures Calling(ps, 0, 0)
    {
      DoneIff(ps, d, j);
    }
  }

  lemma {:induction false} SaveKeyed(ps: seq<Plan>, d: Driver)
    requires ps != [] && NeverFail(ps) && NeverRefuses(d) && ChecksPass(ps, 0)
    ensures Fits(|ps|, Save(ps, d).1)
    ensures Keyed(ps, d, 0, 0, Start(|ps|), Save(ps, d).1)
  {
    hide Mutate, Calls, AllFields, Keyed;
    RunKeys(ps, d, 0, 0, Start(|ps|));
  }

  lemma {:induction false} NoKeys(ps: seq<Plan>, d: Driver, j: nat)
    requires j < |ps| && NeverFail(ps) && NeverRefuses(d) && ChecksPass(ps, 0) && Calls(ps, 0, 0) == 0
    ensures Fits(|ps|, Save(ps, d).1) && Save(ps, d).1.keys[j] == None
  {
    hide Mutate, Save, Calls, AllFields, KeysGiven;
    SaveKeyed(ps, d);
  }

  lemma {:induction false} LastKeys(ps: seq<Plan>, d: Driver)
    requires ps != [] && NeverFail(ps) && NeverRefuses(d) && ChecksPass(ps, 0) && Calls(ps, 0, 0) >= 1
    ensures Fits(|ps|, Save(ps, d).1)
    ensures Save(ps, d).1.keys == KeysGiven(|ps|, d(Calls(ps, 0, 0) - 1, AllFields(ps)).ids)
  {
    hide Mutate, Save, Calls, AllFields, KeysGiven;
    SaveKeyed(ps, d);
  }

  lemma {:induction false} PassThroughCallsOnce(ps: seq<Plan>, i: nat, h: nat)
    requires i < |ps| && h <= |ps[i].hooks| && AllPassThrough(ps)
    ensures Calls(ps, i, h) == 1 && Calling(ps, i, h)
  {
    ProductOne(ps, i, h);
  }

  /** With pass-through hooks: marked done means inserted if and only if the batch skipped no row. */
  lemma {:induction false} PassThroughInsertsIff(ps: seq<Plan>, d: Driver)
    requires ps != [] && AllPassThrough(ps) && NeverRefuses(d) && ChecksPass(ps, 0)
    ensures Fits(|ps|, Save(ps, d).1)
    ensures DoneHasKey(Save(ps, d).1) <==> AllRowsKept(|ps|, d(0, AllFields(ps)).ids)
  {
    hide Save, Calls, Calling, AllFields;
    DoneMeansInsertedIff(ps, d);
    forall b | 0 <= b < |ps|
      ensures Calls(ps, b, 0) == 1 && Calling(ps, b, 0)
    {
      PassThroughCallsOnce(ps, b, 0);
    }
  }

  /** A row skipped on conflict: the mutation is marked done, and its node has no key. */
  lemma {:induction false} SkippedRowIsDone(a: Fields)
    ensures var ps, d := [Plan(a, None, [])], (k: nat, specs: seq<Fields>) => Inserted([None]);
      var (err, st) := Save(ps, d);
      err == None && st.done == [true] && st.keys == [None] && st.nodes == [Some(Node(a, 0))]
  {
    var ps, d := [Plan(a, None, [])], (k: nat, specs: seq<Fields>) => Inserted([None]);
    assert Mutate(ps, d, 0, 0, Start(1)).0 == None;
  }

  /** A hook that does not call next, like one that answers from elsewhere, leaves the builder
      before it marked done although nothing was inserted. */
  lemma ShortCircuitMarksDone(a: Fields, b: Fields, d: Driver)
    ensures var ps := [Plan(a, None, []), Plan(b, None, [HookPlan(0, 0, false)])];
      var (err, st) := Save(ps, d);
      err == None && st.done[0] && st.batches == 0 && st.nodes[1] == None
  {
    var ps := [Plan(a, None, []), Plan(b, None, [HookPlan(0, 0, false)])];
    var st := Prepare(ps, 0, Start(2));
    assert Repeat(ps, d, 1, 0, 0, Log(st, Enter(1, 0))) == (None, Log(st, Enter(1, 0)));
    assert Mutate(ps, d, 1, 0, st).0 == None;
  }

  // ----- When a save succeeds -----

  /** A place in the chain: a hook of builder b, or, past its last hook, the builder's own step. */
  predicate IsPlace(ps: seq<Plan>, b: nat, k: nat) {
    b < |ps| && k <= |ps[b].hooks|
  }

  /** A run from hook h of builder i gets to place k of builder b: it is not before, and every hook
      on the way calls what it wraps. */
  predicate Visits(ps: seq<Plan>, i: nat, h: nat, b: nat, k: nat)
    requires IsPlace(ps, i, h) && IsPlace(ps, b, k)
  {
    if b == i then h <= k && forall m :: h <= m < k ==> ps[i].hooks[m].calls >= 1
    else
      && i < b && Calling(ps, i, h) && (forall c :: i < c < b ==> Calling(ps, c, 0))
      && forall m :: 0 <= m < k ==> ps[b].hooks[m].calls >= 1
  }

  /** What goes wrong at a place: its hook fails, or the check of its builder does. */
  function Fault(ps: seq<Plan>, b: nat, k: nat): Option<Error>
    requires IsPlace(ps, b, k)
  {
    if k == |ps[b].hooks| then ps[b].check
    else if ps[b].hooks[k].fails then Some(Error.Hook(ps[b].hooks[k].id))
    else None
  }

  predicate Faultless(ps: seq<Plan>, i: nat, h: nat)
    requires IsPlace(ps, i, h)
  {
    forall b: nat, k: nat :: b < |ps| && k <= |ps[b].hooks| && Visits(ps, i, h, b, k) ==> Fault(ps, b, k) == None
  }

  /** The database accepts the next n batches. */
  predicate Accepts(ps: seq<Plan>, d: Driver, from: nat, n: nat) {
    forall k :: from <= k < from + n ==> d(k, AllFields(ps)).Inserted?
  }

  /** The error comes from a place the run got to, or from the database. */
  ghost predicate Explains(ps: seq<Plan>, d: Driver, i: nat, h: nat, e: Error)
    requires IsPlace(ps, i, h)
  {
    || (exists b: nat, k: nat :: IsPlace(ps, b, k) && Visits(ps, i, h, b, k) && Fault(ps, b, k) == Some(e))
    || (exists n: nat :: d(n, AllFields(ps)) == Refused(e))
  }

  /** The next place is the same hook's inner one, or, past the last hook, the next builder. */
  lemma VisitsStep(ps: seq<Plan>, i: nat, h: nat, b: nat, k: nat)
    requires IsPlace(ps, i, h) && IsPlace(ps, b, k)
    ensures Visits(ps, i, h, b, k) <==>
      || (b == i && k == h)
      || (h < |ps[i].hooks| && ps[i].hooks[h].calls >= 1 && Visits(ps, i, h + 1, b, k))
      || (h == |ps[i].hooks| && i < |ps| - 1 && Visits(ps, i + 1, 0, b, k))
  {
  }

  lemma FaultlessStep(ps: seq<Plan>, i: nat, h: nat)
    requires IsPlace(ps, i, h)
    ensures Faultless(ps, i, h) <==>
      && Fault(ps, i, h) == None
      && (h < |ps[i].hooks| && ps[i].hooks[h].calls >= 1 ==> Faultless(ps, i, h + 1))
      && (h == |ps[i].hooks| && i < |ps| - 1 ==> Faultless(ps, i + 1, 0))
  {
    forall b: nat, k: nat | IsPlace(ps, b, k) {
      VisitsStep(ps, i, h, b, k);
    }
    hide Visits, Fault;
  }

  lemma ExplainsStep(ps: seq<Plan>, d: Driver, i: nat, h: nat, e: Error)
    requires IsPlace(ps, i, h)
    ensures Fault(ps, i, h) == Some(e) ==> Explains(ps, d, i, h, e)
    ensures h < |ps[i].hooks| && ps[i].hooks[h].calls >= 1 && Explains(ps, d, i, h + 1, e) ==> Explains(ps, d, i, h, e)
    ensures h == |ps[i].hooks| && i < |ps| - 1 && Explains(ps, d, i + 1, 0, e) ==> Explains(ps, d, i, h, e)
  {
    forall b: nat, k: nat | IsPlace(ps, b, k) {
      VisitsStep(ps, i, h, b, k);
    }
    hide Visits, Fault;
  }

  /** What a run from hook h of builder i on returns and leaves behind. */
  ghost predicate Returns(ps: seq<Plan>, d: Driver, i: nat, h: nat, from: nat, r: (Option<Error>, State))
    requires IsPlace(ps, i, h)
  {
    && Prepared(ps, i, r.1)
    && (r.0.None? <==> Faultless(ps, i, h) && Accepts(ps, d, from, Calls(ps, i, h)))
    && (r.0.None? ==> r.1.batches == from + Calls(ps, i, h))
    && (r.0.Some? ==> Explains(ps, d, i, h, r.0.value))
  }

  /** The same for k calls of what hook h wraps. */
  ghost predicate RepeatReturns(ps: seq<Plan>, d: Driver, i: nat, h: nat, k: nat, from: nat, r: (Option<Error>, State))
    requires IsPlace(ps, i, h + 1)
  {
    && Prepared(ps, i, r.1)
    && (r.0.None? <==> k == 0 || (Faultless(ps, i, h + 1) && Accepts(ps, d, from, k * Calls(ps, i, h + 1))))
    && (r.0.None? ==> r.1.batches == from + k * Calls(ps, i, h + 1))
    && (r.0.Some? ==> k > 0 && Explains(ps, d, i, h + 1, r.0.value))
  }

  lemma {:induction false} RunReturns(ps: seq<Plan>, d: Driver, i: nat, h: nat, st: State)
    requires IsPlace(ps, i, h) && Prepared(ps, i, st)
    ensures Returns(ps, d, i, h, st.batches, Mutate(ps, d, i, h, st))
    decreases |ps| - i, |ps[i].hooks| - h + 1, 0
  {
    if h < |ps[i].hooks| {
      hide Mutate, Repeat, Returns;
      RunRepeats(ps, d, i, h, ps[i].hooks[h].calls, Log(st, Enter(i, h)));
      HookReturns(ps, d, i, h, st);
    } else if ps[i].check.Some? {
      FaultlessStep(ps, i, h);
      ExplainsStep(ps, d, i, h, ps[i].check.value);
      hide Visits, Faultless, Explains, Calls;
    } else if i < |ps| - 1 {
      hide Mutate, Returns;
      RunReturns(ps, d, i + 1, 0, Prepare(ps, i, st));
      OwnReturns(ps, d, i, st);
    } else {
      hide Mutate, Returns;
      LastReturns(ps, d, st);
    }
  }

  lemma {:induction false} RunRepeats(ps: seq<Plan>, d: Driver, i: nat, h: nat, k: nat, st: State)
    requires i < |ps| && h < |ps[i].hooks| && Prepared(ps, i, st)
    ensures RepeatReturns(ps, d, i, h, k, st.batches, Repeat(ps, d, i, h, k, st))
    decreases |ps| - i, |ps[i].hooks| - h, k + 1
  {
    hide Mutate, Calls, Faultless, Explains, Accepts;
    if k > 0 {
      RunReturns(ps, d, i, h + 1, st);
      var r, n := Mutate(ps, d, i, h + 1, st), Calls(ps, i, h + 1);
      RunRepeats(ps, d, i, h, k - 1, r.1);
      assert k * n == n + (k - 1) * n;
      AcceptsMore(ps, d, st.batches, n, (k - 1) * n);
      if k == 1 {
        AcceptsMore(ps, d, st.batches, n, 0);
      }
    }
  }

  lemma AcceptsMore(ps: seq<Plan>, d: Driver, from: nat, m: nat, n: nat)
    ensures Accepts(ps, d, from, m + n) <==> Accepts(ps, d, from, m) && Accepts(ps, d, from + m, n)
  {
    hide AllFields;
  }

  lemma {:induction false} HookReturns(ps: seq<Plan>, d: Driver, i: nat, h: nat, st: State)
    requires i < |ps| && h < |ps[i].hooks| && Fits(|ps|, st)
    requires RepeatReturns(ps, d, i, h, ps[i].hooks[h].calls, st.batches,
                           Repeat(ps, d, i, h, ps[i].hooks[h].calls, Log(st, Enter(i, h))))
    ensures Returns(ps, d, i, h, st.batches, Mutate(ps, d, i, h, st))
  {
    FaultlessStep(ps, i, h);
    CallsOfHook(ps, i, h);
    hide Repeat, Faultless, Explains, Calls, AllFields;
    var r := Mutate(ps, d, i, h, st);
    if r.0.Some? {
      ExplainsStep(ps, d, i, h, r.0.value);
    }
  }

  lemma {:induction false} OwnReturns(ps: seq<Plan>, d: Driver, i: nat, st: State)
    requires i < |ps| - 1 && Prepared(ps, i, st) && ps[i].check.None?
    requires Returns(ps, d, i + 1, 0, st.batches, Mutate(ps, d, i + 1, 0, Prepare(ps, i, st)))
    ensures Returns(ps, d, i, |ps[i].hooks|, st.batches, Mutate(ps, d, i, |ps[i].hooks|, st))
  {
    FaultlessStep(ps, i, |ps[i].hooks|);
    OwnUnfolds(ps, d, i, st);
    var r := Mutate(ps, d, i + 1, 0, Prepare(ps, i, st));
    if r.0.Some? {
      ExplainsStep(ps, d, i, |ps[i].hooks|, r.0.value);
    }
    hide Mutate, Faultless, Explains, Accepts, Visits;
  }

  lemma LastReturns(ps: seq<Plan>, d: Driver, st: State)
    requires ps != [] && Prepared(ps, |ps| - 1, st) && ps[|ps| - 1].check.None?
    ensures Returns(ps, d, |ps| - 1, |ps[|ps| - 1].hooks|, st.batches,
                    Mutate(ps, d, |ps| - 1, |ps[|ps| - 1].hooks|, st))
  {
    var i := |ps| - 1;
    var st1 := Prepare(ps, i, st);
    FaultlessStep(ps, i, |ps[i].hooks|);
    assert Given(st1.specs) == AllFields(ps);
    assert Calls(ps, i, |ps[i].hooks|) == 1;
    hide Faultless, Calls, AllFields;
    assert Accepts(ps, d, st.batches, 1) <==> d(st.batches, AllFields(ps)).Inserted?;
  }

  /** A save succeeds if and only if every place it gets to is without fault and the database
      accepts every batch, of which there are then as many as the product of the call counts.  So
      a hook that fails makes the save fail exactly if all hooks around and before it call what they
      wrap.  The error of a save that fails is one of these. */
  lemma {:induction false} SaveSucceedsIff(ps: seq<Plan>, d: Driver)
    requires ps != []
    ensures var (err, st) := Save(ps, d);
      && (err == None <==>
           && (forall b: nat, k: nat :: IsPlace(ps, b, k) && Visits(ps, 0, 0, b, k) ==> Fault(ps, b, k) == None)
           && forall n: nat :: n < Calls(ps, 0, 0) ==> d(n, AllFields(ps)).Inserted?)
      && (err == None ==> st.batches == Calls(ps, 0, 0))
      && (err.Some? ==>
           || (exists b: nat, k: nat :: IsPlace(ps, b, k) && Visits(ps, 0, 0, b, k) && Fault(ps, b, k) == err)
           || (exists n: nat :: d(n, AllFields(ps)) == Refused(err.value)))
  {
    hide Mutate, Visits, Fault, Calls, AllFields;
    RunReturns(ps, d, 0, 0, Start(|ps|));
  }

  // ----- All or nothing -----

  /** The check that fails first, in builder order. */
  function FirstFailure(ps: seq<Plan>, i: nat): Option<Error>
    requires i <= |ps|
    decreases |ps| - i
  {
    if i == |ps| then None else if ps[i].check.Some? then ps[i].check else FirstFailure(ps, i + 1)
  }

  lemma {:induction false} FailureFound(ps: seq<Plan>, i: nat, j: nat)
    requires i <= j < |ps| && ps[j].check.Some?
    ensures FirstFailure(ps, i).Some?
    decreases |ps| - i
  {
    if ps[i].check.None? {
      FailureFound(ps, i + 1, j);
    }
  }

  function KeyOf(ids: seq<Option<int>>, i: nat): int {
    if i < |ids| && ids[i].Some? then ids[i].value else 0
  }

  /** Nothing was done from builder i on, or all of it was, with the keys in builder order. */
  ghost predicate AllOrNone(ps: seq<Plan>, d: Driver, i: nat, st: State, r: (Option<Error>, State))
    requires Fits(|ps|, st) && Fits(|ps|, r.1) && i < |ps|
  {
    match FirstFailure(ps, i)
    case Some(e) => r.0 == Some(e) && r.1.done == st.done && r.1.batches == st.batches
    case None =>
      match d(st.batches, AllFields(ps))
      case Refused(e) => r.0 == Some(e) && r.1.done == st.done
      case Inserted(ids) =>
        && r.0 == None
        && r.1.keys == seq(|ps|, j => if 0 <= j < |ids| then ids[j] else None)
        && (forall j :: 0 <= j < i ==> r.1.done[j] == st.done[j] && r.1.nodes[j] == st.nodes[j])
        && (forall j :: i <= j < |ps| ==> r.1.done[j] && r.1.nodes[j] == Some(Node(ps[j].fields, KeyOf(ids, j))))
  }

  lemma {:induction false} AllOrNothing(ps: seq<Plan>, d: Driver, i: nat, h: nat, st: State)
    requires i < |ps| && h <= |ps[i].hooks| && AllPassThrough(ps) && Prepared(ps, i, st)
    ensures AllOrNone(ps, d, i, st, Mutate(ps, d, i, h, st))
    decreases |ps| - i, |ps[i].hooks| - h
  {
    if h < |ps[i].hooks| {
      hide Mutate, FirstFailure;
      OneCall(ps, d, i, h, st);
      AllOrNothing(ps, d, i, h + 1, Log(st, Enter(i, h)));
    } else if ps[i].check.None? {
      hide Mutate, FirstFailure, AllOrNone;
      if i < |ps| - 1 {
        AllOrNothing(ps, d, i + 1, 0, Prepare(ps, i, st));
        OwnAllOrNothing(ps, d, i, st);
      } else {
        LastAllOrNothing(ps, d, st);
      }
    }
  }

  lemma {:induction false} OwnAllOrNothing(ps: seq<Plan>, d: Driver, i: nat, st: State)
    requires i < |ps| - 1 && Prepared(ps, i, st) && ps[i].check.None?
    requires AllOrNone(ps, d, i + 1, Prepare(ps, i, st), Mutate(ps, d, i + 1, 0, Prepare(ps, i, st)))
    ensures AllOrNone(ps, d, i, st, Mutate(ps, d, i, |ps[i].hooks|, st))
  {
    hide Mutate, FirstFailure;
    OwnUnfolds(ps, d, i, st);
    FirstPasses(ps, i);
  }

  lemma {:induction false} OwnUnfolds(ps: seq<Plan>, d: Driver, i: nat, st: State)
    requires i < |ps| - 1 && Fits(|ps|, st) && ps[i].check.None?
    ensures var (err, st2) := Mutate(ps, d, i + 1, 0, Prepare(ps, i, st));
      Mutate(ps, d, i, |ps[i].hooks|, st) == if err.Some? then (err, st2) else (None, Complete(i, st2))
  {
  }

  lemma FirstPasses(ps: seq<Plan>, i: nat)
    requires i < |ps| && ps[i].check.None?
    ensures FirstFailure(ps, i) == FirstFailure(ps, i + 1)
  {
  }

  lemma LastAllOrNothing(ps: seq<Plan>, d: Driver, st: State)
    requires ps != [] && Prepared(ps, |ps| - 1, st) && ps[|ps| - 1].check.None?
    ensures AllOrNone(ps, d, |ps| - 1, st, Mutate(ps, d, |ps| - 1, |ps[|ps| - 1].hooks|, st))
  {
    var st1 := Prepare(ps, |ps| - 1, st);
    assert Given(st1.specs) == AllFields(ps);
    assert FirstFailure(ps, |ps|) == None;
    match d(st1.batches, AllFields(ps))
    case Refused(e) =>
    case Inserted(ids) => assert Perform(d, st1).1.keys == seq(|ps|, j => if 0 <= j < |ids| then ids[j] else None);
  }

  /** Under pass-through hooks a save fails with the first failing check, or else with the
      refusal of the batch, and then no mutation is marked done; otherwise all are, each node
      with its own fields and the key generated at its own index. */
  lemma {:induction false} SaveIsAllOrNothing(ps: seq<Plan>, d: Driver)
    requires AllPassThrough(ps) && ps != []
    ensures var (err, st) := Save(ps, d);
      match FirstFailure(ps, 0)
      case Some(e) => err == Some(e) && st.batches == 0 && (forall j :: 0 <= j < |ps| ==> !st.done[j])
      case None =>
        match d(0, AllFields(ps))
        case Refused(e) => err == Some(e) && (forall j :: 0 <= j < |ps| ==> !st.done[j])
        case Inserted(ids) => err == None && forall j :: 0 <= j < |ps| ==>
          st.done[j] && st.nodes[j] == Some(Node(ps[j].fields, KeyOf(ids, j)))
  {
    hide Mutate, FirstFailure;
    AllOrNothing(ps, d, 0, 0, Start(|ps|));
  }

  /** Under pass-through hooks the mutations of a save are all done if it succeeds, and none if it
      fails. */
  lemma {:induction false} DoneIffSaved(ps: seq<Plan>, d: Driver, j: nat)
    requires AllPassThrough(ps) && j < |ps|
    ensures Fits(|ps|, Save(ps, d).1)
    ensures Save(ps, d).1.done[j] <==> Save(ps, d).0 == None
  {
    hide Mutate, FirstFailure, AllPassThrough;
    SaveIsAllOrNothing(ps, d);
  }
}
