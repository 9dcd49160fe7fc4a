/** Creating many accounts at once, as the builders do it: defaults into each mutation, then
    the chain of mutators over the shared node and spec arrays. */
module BulkCreate {
  import opened Options
  import opened Sequences
  import opened BulkSpec

  // ----- Defaults and checks -----

  /** The fields with a default, in the order they are set. */
  function Defaulted(): seq<string> {[
    "created_at", "updated_at", "credentials", "extra", "concurrency", "priority",
    "rate_multiplier", "status", "auto_pause_on_expired", "schedulable"]
  }

  datatype Rule = Required(field: string) | Validated(field: string)

  function Rules(): seq<Rule> {[
    Required("created_at"), Required("updated_at"),
    Required("name"), Validated("name"),
    Required("platform"), Validated("platform"),
    Required("type"), Validated("type"),
    Required("credentials"), Required("extra"), Required("concurrency"), Required("priority"),
    Required("rate_multiplier"), Required("status"), Validated("status"),
    Required("auto_pause_on_expired"), Required("schedulable"),
    Validated("session_window_status")]
  }

  /** The first few defaults are made by functions that the runtime package has to install; the
      others are constants. */
  const GENERATED: nat := 4

  datatype Defaults = Defaults(generators: map<string, string>, constants: string -> string)

  /** What the validators accept: field and value. */
  type Validator = (string, string) -> bool

  /** Fields after the defaults from the k-th on were set, up to the first missing default. */
  function Fill(defaults: Defaults, fields: Fields, k: nat): (Fields, Option<Error>)
    requires k <= |Defaulted()|
    decreases |Defaulted()| - k
  {
    if k == |Defaulted()| then (fields, None)
    else if Defaulted()[k] in fields then Fill(defaults, fields, k + 1)
    else if k >= GENERATED then Fill(defaults, fields[Defaulted()[k] := defaults.constants(Defaulted()[k])], k + 1)
    else if Defaulted()[k] !in defaults.generators then (fields, Some(Uninitialized(Defaulted()[k])))
    else Fill(defaults, fields[Defaulted()[k] := defaults.generators[Defaulted()[k]]], k + 1)
  }

  function Broken(v: Validator, fields: Fields, r: Rule): Option<Error> {
    match r
    case Required(f) => if f in fields then None else Some(Missing(f))
    case Validated(f) => if f in fields && !v(f, fields[f]) then Some(Invalid(f)) else None
  }

  /** The first rule from the k-th on that the fields break. */
  function CheckFrom(v: Validator, fields: Fields, k: nat): Option<Error>
    requires k <= |Rules()|
    decreases |Rules()| - k
  {
    if k == |Rules()| then None
    else if Broken(v, fields, Rules()[k]).Some? then Broken(v, fields, Rules()[k])
    else CheckFrom(v, fields, k + 1)
  }

  function DefaultOf(defaults: Defaults, j: nat): Option<string>
    requires j < |Defaulted()|
  {
    if j >= GENERATED then Some(defaults.constants(Defaulted()[j]))
    else if Defaulted()[j] in defaults.generators then Some(defaults.generators[Defaulted()[j]])
    else None
  }

  /** The field is set already or has a default to set it to. */
  predicate Settable(defaults: Defaults, fields: Fields, j: nat)
    requires j < |Defaulted()|
  {
    Defaulted()[j] in fields || j >= GENERATED || Defaulted()[j] in defaults.generators
  }

  /** The first field from the k-th on that is neither set nor has its default installed. */
  function FirstUnset(defaults: Defaults, fields: Fields, k: nat): (j: Option<nat>)
    requires k <= |Defaulted()|
    ensures j.Some? ==>
      && k <= j.value < |Defaulted()| && j.value < GENERATED && !Settable(defaults, fields, j.value)
      && forall i :: k <= i < j.value ==> Settable(defaults, fields, i)
    ensures j.None? ==> forall i :: k <= i < |Defaulted()| ==> Settable(defaults, fields, i)
    decreases |Defaulted()| - k
  {
    if k == |Defaulted()| then None
    else if !Settable(defaults, fields, k) then Some(k)
    else FirstUnset(defaults, fields, k + 1)
  }

  /** Setting a field that could be set makes no other field settable. */
  lemma {:induction false} FirstUnsetStays(defaults: Defaults, fields: Fields, k: nat, v: string, n: nat)
    requires k < n <= |Defaulted()| && Settable(defaults, fields, k) && Defaulted()[k] !in fields
    ensures FirstUnset(defaults, fields[Defaulted()[k] := v], n) == FirstUnset(defaults, fields, n)
    decreases |Defaulted()| - n
  {
    hide Defaulted;
    if n < |Defaulted()| {
      FirstUnsetStays(defaults, fields, k, v, n + 1);
    }
  }

  /** The defaults fail exactly if a field is neither set nor has its default installed, at the
      first such field, which then stays missing. */
  lemma {:induction false} FillFailsIff(defaults: Defaults, fields: Fields, k: nat)
    requires k <= |Defaulted()|
    ensures var (filled, err) := Fill(defaults, fields, k);
      match FirstUnset(defaults, fields, k)
      case None => err == None
      case Some(j) => err == Some(Uninitialized(Defaulted()[j])) && Defaulted()[j] !in filled
    decreases |Defaulted()| - k
  {
    hide Defaulted;
    if k < |Defaulted()| && Settable(defaults, fields, k) {
      if Defaulted()[k] in fields {
        FillFailsIff(defaults, fields, k + 1);
      } else {
        var v := DefaultOf(defaults, k).value;
        FirstUnsetStays(defaults, fields, k, v, k + 1);
        FillFailsIff(defaults, fields[Defaulted()[k] := v], k + 1);
      }
    }
  }

  /** Defaults leave what was set alone and fill only fields that have one, each with its own
      value; without an error they fill all of them. */
  lemma {:induction false} FillMeans(defaults: Defaults, fields: Fields, k: nat)
    requires k <= |Defaulted()|
    ensures var (filled, err) := Fill(defaults, fields, k);
      && (err.None? ==> forall j :: k <= j < |Defaulted()| ==> Defaulted()[j] in filled)
      && (forall f :: f in fields ==> f in filled && filled[f] == fields[f])
      && (forall f :: f in filled && f !in fields ==>
           exists j :: k <= j < |Defaulted()| && f == Defaulted()[j] && DefaultOf(defaults, j) == Some(filled[f]))
    decreases |Defaulted()| - k
  {
    hide Defaulted;
    if k < |Defaulted()| {
      if Defaulted()[k] in fields {
        FillMeans(defaults, fields, k + 1);
      } else if DefaultOf(defaults, k).Some? {
        FillMeans(defaults, fields[Defaulted()[k] := DefaultOf(defaults, k).value], k + 1);
      }
    }
  }

  predicate Holds(v: Validator, fields: Fields, r: Rule) {
    match r
    case Required(f) => f in fields
    case Validated(f) => f in fields ==> v(f, fields[f])
  }

  /** Rule `j` is the first from the k-th on that does not hold. */
  predicate FirstBroken(v: Validator, fields: Fields, k: nat, j: nat) {
    k <= j < |Rules()| && !Holds(v, fields, Rules()[j]) && forall i :: k <= i < j ==> Holds(v, fields, Rules()[i])
  }

  /** A missing field is reported as missing, a value that is not accepted as invalid. */
  predicate Reports(e: Error, r: Rule) {
    e == match r case Required(f) => Missing(f) case Validated(f) => Invalid(f)
  }

  lemma BrokenMeans(v: Validator, fields: Fields, k: nat)
    ensures k < |Rules()| ==> (Broken(v, fields, Rules()[k]).None? <==> Holds(v, fields, Rules()[k]))
    ensures k < |Rules()| && Broken(v, fields, Rules()[k]).Some? ==>
      Reports(Broken(v, fields, Rules()[k]).value, Rules()[k])
  {
    hide Rules;
  }

  /** The check passes exactly if all rules hold; otherwise it reports the first that does not. */
  lemma {:induction false} CheckMeans(v: Validator, fields: Fields, k: nat)
    requires k <= |Rules()|
    ensures CheckFrom(v, fields, k).None? <==> forall j :: k <= j < |Rules()| ==> Holds(v, fields, Rules()[j])
    ensures CheckFrom(v, fields, k).Some? ==>
      exists j: nat :: FirstBroken(v, fields, k, j) && Reports(CheckFrom(v, fields, k).value, Rules()[j])
    decreases |Rules()| - k
  {
    hide Rules, Broken, Holds, Reports;
    BrokenMeans(v, fields, k);
    if k < |Rules()| && Holds(v, fields, Rules()[k]) {
      CheckMeans(v, fields, k + 1);
      if CheckFrom(v, fields, k).Some? {
        var j: nat :| FirstBroken(v, fields, k + 1, j) && Reports(CheckFrom(v, fields, k + 1).value, Rules()[j]);
        assert FirstBroken(v, fields, k, j);
      }
    } else if k < |Rules()| {
      assert FirstBroken(v, fields, k, k);
    }
  }

  lemma DefaultedAreRequired(j: nat)
    requires j < |Defaulted()|
    ensures exists k :: 0 <= k < |Rules()| && Rules()[k] == Required(Defaulted()[j])
  {
    var at := [0, 1, 8, 9, 10, 11, 12, 13, 15, 16];
    assert Rules()[at[j]] == Required(Defaulted()[j]);
  }

  // ----- What the two lists come to -----

  /** A field whose default a generator makes. */
  predicate Generated(f: string) {
    f in {"created_at", "updated_at", "credentials", "extra"}
  }

  /** A field whose default is a constant. */
  predicate Constant(f: string) {
    f in {"concurrency", "priority", "rate_multiplier", "status", "auto_pause_on_expired", "schedulable"}
  }

  /** A field the caller has to set. */
  predicate Mandatory(f: string) {
    f in {"name", "platform", "type"}
  }

  /** A field whose value is validated. */
  predicate Judged(f: string) {
    f in {"name", "platform", "type", "status", "session_window_status"}
  }

  lemma DefaultedFields(f: string)
    ensures (exists j :: 0 <= j < |Defaulted()| && j < GENERATED && Defaulted()[j] == f) <==> Generated(f)
    ensures (exists j :: 0 <= j < |Defaulted()| && GENERATED <= j && Defaulted()[j] == f) <==> Constant(f)
  {
    var ds := Defaulted();
    assert |ds| == 10;
    assert ds[0] == "created_at" && ds[1] == "updated_at" && ds[2] == "credentials" && ds[3] == "extra";
    assert ds[4] == "concurrency" && ds[5] == "priority" && ds[6] == "rate_multiplier" && ds[7] == "status";
    assert ds[8] == "auto_pause_on_expired" && ds[9] == "schedulable";
  }

  lemma GeneratedOrConstant()
    ensures forall f :: !(Generated(f) && Constant(f))
  {
  }

  lemma RequiredFields(f: string)
    ensures (exists k :: 0 <= k < |Rules()| && Rules()[k] == Required(f)) <==>
      Generated(f) || Constant(f) || Mandatory(f)
  {
    var rs := Rules();
    assert |rs| == 18 && rs[0] == Required("created_at") && rs[1] == Required("updated_at");
    assert rs[2] == Required("name") && rs[4] == Required("platform") && rs[6] == Required("type");
    assert rs[8] == Required("credentials") && rs[9] == Required("extra") && rs[10] == Required("concurrency");
    assert rs[11] == Required("priority") && rs[12] == Required("rate_multiplier") && rs[13] == Required("status");
    assert rs[15] == Required("auto_pause_on_expired") && rs[16] == Required("schedulable");
  }

  lemma ValidatedFields(f: string)
    ensures (exists k :: 0 <= k < |Rules()| && Rules()[k] == Validated(f)) <==> Judged(f)
  {
    var rs := Rules();
    assert |rs| == 18 && rs[3] == Validated("name") && rs[5] == Validated("platform") && rs[7] == Validated("type");
    assert rs[14] == Validated("status") && rs[17] == Validated("session_window_status");
  }

  /** What the defaults do to each field.  They fail exactly if a field that needs a generator is
      neither set nor has one; else ten fields, and no others, are set if they were not. */
  lemma {:induction false} DefaultsMean(defaults: Defaults, fields: Fields)
    ensures var (filled, err) := Fill(defaults, fields, 0);
      && (err == None <==> forall f :: Generated(f) ==> f in fields || f in defaults.generators)
      && (forall f :: f in fields ==> f in filled && filled[f] == fields[f])
      && (err == None ==> forall f :: f !in fields ==>
           && (f in filled <==> Generated(f) || Constant(f))
           && (Generated(f) ==> f in defaults.generators && filled[f] == defaults.generators[f])
           && (Constant(f) ==> filled[f] == defaults.constants(f)))
  {
    hide Fill, Defaulted, Generated, Constant;
    FillMeans(defaults, fields, 0);
    FillFailsIff(defaults, fields, 0);
    forall f: string
      ensures (exists j :: 0 <= j < |Defaulted()| && j < GENERATED && Defaulted()[j] == f) <==> Generated(f)
      ensures (exists j :: 0 <= j < |Defaulted()| && GENERATED <= j && Defaulted()[j] == f) <==> Constant(f)
    {
      DefaultedFields(f);
    }
    GeneratedOrConstant();
  }

  /** What the check asks for: thirteen fields, and of five the approval of the validator. */
  lemma {:induction false} CheckPassesIff(v: Validator, fields: Fields)
    ensures CheckFrom(v, fields, 0) == None <==>
      && (forall f :: Generated(f) || Constant(f) || Mandatory(f) ==> f in fields)
      && (forall f :: Judged(f) && f in fields ==> v(f, fields[f]))
  {
    hide Rules, CheckFrom, Generated, Constant, Mandatory, Judged;
    CheckMeans(v, fields, 0);
    forall f: string
      ensures (exists k :: 0 <= k < |Rules()| && Rules()[k] == Required(f)) <==>
        Generated(f) || Constant(f) || Mandatory(f)
      ensures (exists k :: 0 <= k < |Rules()| && Rules()[k] == Validated(f)) <==> Judged(f)
    {
      RequiredFields(f);
      ValidatedFields(f);
    }
  }

  /** The chain ignores the error of `defaults`; it is not lost, because what could not be
      set is then missing for `check`. */
  lemma {:induction false} IgnoredDefaultsErrorIsCaught(defaults: Defaults, v: Validator, fields: Fields)
    requires Fill(defaults, fields, 0).1.Some?
    ensures CheckFrom(v, Fill(defaults, fields, 0).0, 0).Some?
  {
    FillFailsIff(defaults, fields, 0);
    var filled, j := Fill(defaults, fields, 0).0, FirstUnset(defaults, fields, 0).value;
    DefaultedAreRequired(j);
    var k :| 0 <= k < |Rules()| && Rules()[k] == Required(Defaulted()[j]);
    assert !Holds(v, filled, Rules()[k]);
    CheckMeans(v, filled, 0);
  }

  /** A caller's fields are enough: name, platform and type are set, every generator that is needed is
      installed, and the validators accept what is set and, if none is, the default status. */
  predicate Creatable(defaults: Defaults, v: Validator, fields: Fields) {
    && "name" in fields && "platform" in fields && "type" in fields
    && (forall f | f in {"created_at", "updated_at", "credentials", "extra"} ::
         f in fields || f in defaults.generators)
    && (forall f | f in {"name", "platform", "type", "status", "session_window_status"} ::
         f in fields ==> v(f, fields[f]))
    && ("status" in fields || v("status", defaults.constants("status")))
  }

  lemma CreatableMeans(defaults: Defaults, v: Validator, fields: Fields)
    ensures Creatable(defaults, v, fields) <==>
      && (forall f :: Mandatory(f) ==> f in fields)
      && (forall f :: Generated(f) ==> f in fields || f in defaults.generators)
      && (forall f :: Judged(f) && f in fields ==> v(f, fields[f]))
      && (forall f :: Judged(f) && Constant(f) && f !in fields ==> v(f, defaults.constants(f)))
    ensures forall f :: !(Judged(f) && Generated(f))
  {
    assert Mandatory("name") && Mandatory("platform") && Mandatory("type") && Judged("status") && Constant("status");
  }

  /** After the defaults the check passes if and only if the caller's fields are enough. */
  lemma {:induction false} CreatePassesIff(defaults: Defaults, v: Validator, fields: Fields)
    ensures CheckFrom(v, Fill(defaults, fields, 0).0, 0) == None <==> Creatable(defaults, v, fields)
  {
    hide Fill, CheckFrom, Creatable, Mandatory, Generated, Constant, Judged;
    CreatableMeans(defaults, v, fields);
    DefaultsMean(defaults, fields);
    CheckPassesIff(v, Fill(defaults, fields, 0).0);
    DistinctKinds();
    if Fill(defaults, fields, 0).1.Some? {
      IgnoredDefaultsErrorIsCaught(defaults, v, fields);
    }
  }

  lemma DistinctKinds()
    ensures forall f :: Mandatory(f) ==> !Generated(f) && !Constant(f)
  {
  }

  class Mutation {
    var fields: Fields
    var done: bool

    constructor (fields: Fields)
      ensures this.fields == fields && !done
    {
      this.fields, done := fields, false;
    }
  }

  class Builder {
    const mutation: Mutation
    const hooks: seq<HookPlan>

    constructor (mutation: Mutation, hooks: seq<HookPlan>)
      ensures this.mutation == mutation && this.hooks == hooks
    {
      this.mutation, this.hooks := mutation, hooks;
    }

    method SetDefaults(defaults: Defaults) returns (err: Option<Error>)
      modifies mutation
      ensures (mutation.fields, err) == Fill(defaults, old(mutation.fields), 0)
      ensures mutation.done == old(mutation.done)
    {
      for k := 0 to |Defaulted()|
        invariant Fill(defaults, old(mutation.fields), 0) == Fill(defaults, mutation.fields, k)
        invariant mutation.done == old(mutation.done)
      {
        var f := Defaulted()[k];
        if f !in mutation.fields {
          if k >= GENERATED {
            mutation.fields := mutation.fields[f := defaults.constants(f)];
          } else {
            if f !in defaults.generators {
              return Some(Uninitialized(f));
            }
            mutation.fields := mutation.fields[f := defaults.generators[f]];
          }
        }
      }
      err := None;
    }

    /** Wraps the innermost function of the builder, the i-th, in its hooks, the last one first. */
    method Wrap(i: nat) returns (mut: Mutator)
      ensures mut == Wrapped(|hooks|, i, 0)
    {
      mut := Own(i);
      for h := |hooks| downto 0
        invariant mut == Wrapped(|hooks|, i, h)
      {
        mut := Hooked(i, h, mut);
      }
    }

    method Check(v: Validator) returns (err: Option<Error>)
      ensures err == CheckFrom(v, mutation.fields, 0)
    {
      for k := 0 to |Rules()|
        invariant CheckFrom(v, mutation.fields, 0) == CheckFrom(v, mutation.fields, k)
      {
        var broken := Broken(v, mutation.fields, Rules()[k]);
        if broken.Some? {
          return broken;
        }
      }
      err := None;
    }
  }

  function PlanOf(v: Validator, b: Builder): Plan
    reads b.mutation
  {
    Plan(b.mutation.fields, CheckFrom(v, b.mutation.fields, 0), b.hooks)
  }

  function Mutations(bs: seq<Builder>): set<Mutation> {
    set b | b in bs :: b.mutation
  }

  function Plans(v: Validator, bs: seq<Builder>): (ps: seq<Plan>)
    reads Mutations(bs)
    ensures |ps| == |bs| && forall i :: 0 <= i < |bs| ==> ps[i] == PlanOf(v, bs[i])
  {
    if bs == [] then [] else Plans(v, Front(bs)) + [PlanOf(v, Last(bs))]
  }

  function Dones(bs: seq<Builder>): (ds: seq<bool>)
    reads Mutations(bs)
    ensures |ds| == |bs| && forall i :: 0 <= i < |bs| ==> ds[i] == bs[i].mutation.done
  {
    if bs == [] then [] else Dones(Front(bs)) + [Last(bs).mutation.done]
  }

  /** The variables the closures of one bulk save share. */
  class Chain {
    const builders: seq<Builder>
    const validator: Validator
    const driver: Driver
    const nodes: array<Option<Node>>
    const specs: array<Option<Fields>>
    const keys: array<Option<int>>
    const mutators: array<Mutator>
    var batches: nat
    var log: seq<Event>
    ghost const plans: seq<Plan>

    /** The objects the mutators write to. */
    ghost function Footprint(): set<object> {
      {this, nodes, specs, keys} + Mutations(builders)
    }

    ghost predicate Valid()
      reads this, mutators, Mutations(builders)
    {
      && mutators[..] == Mutators(plans) && Chained(plans, mutators[..])
      && nodes.Length == specs.Length == keys.Length == |plans| == |builders|
      && plans == Plans(validator, builders)
      && (forall i, j :: 0 <= i < j < |builders| ==> builders[i].mutation != builders[j].mutation)
      && (keys as object) != nodes && (keys as object) != specs && (nodes as object) != specs
    }

    ghost function View(): State
      reads this, nodes, specs, keys, Mutations(builders)
    {
      State(nodes[..], specs[..], keys[..], Dones(builders), batches, log)
    }

    constructor (builders: seq<Builder>, validator: Validator, driver: Driver, mutators: array<Mutator>)
      requires forall i, j :: 0 <= i < j < |builders| ==> builders[i].mutation != builders[j].mutation
      requires forall b :: b in builders ==> !b.mutation.done
      requires mutators.Length == |builders|
      requires forall i :: 0 <= i < |builders| ==> mutators[i] == Wrapped(|builders[i].hooks|, i, 0)
      ensures Valid() && fresh(Footprint() - Mutations(builders))
      ensures this.builders == builders && this.validator == validator && this.driver == driver
      ensures View() == Start(|builders|)
    {
      hide Dones, Plans, CheckFrom, Wrapped, Chained;
      this.builders, this.validator, this.driver, this.mutators := builders, validator, driver, mutators;
      nodes := new Option<Node>[|builders|](_ => None);
      specs := new Option<Fields>[|builders|](_ => None);
      keys := new Option<int>[|builders|](_ => None);
      batches, log := 0, [];
      plans := Plans(validator, builders);
      new;
      MutatorsChained(plans);
      assert mutators[..] == Mutators(plans);
      assert Dones(builders) == seq(|builders|, _ => false);
      assert nodes[..] == seq(|builders|, _ => None) && specs[..] == seq(|builders|, _ => None);
      assert keys[..] == seq(|builders|, _ => None);
    }

    /** The insert of all specs at once. */
    method PerformBatch() returns (err: Option<Error>)
      requires Valid()
      modifies this, keys
      ensures Valid() && (err, View()) == Perform(driver, old(View()))
      ensures nodes[..] == old(nodes[..])
    {
      hide Dones, Plans, CheckFrom, Given;
      var given := Given(specs[..]);
      var result := driver(batches, given);
      log := log + [Batch(given)];
      batches := batches + 1;
      assert nodes[..] == old(nodes[..]) && specs[..] == old(specs[..]) && keys[..] == old(keys[..]);
      if result.Refused? {
        assert Dones(builders) == old(Dones(builders));
        assert View() == Perform(driver, old(View())).1;
        return Some(result.error);
      }
      for j := 0 to keys.Length
        invariant log == old(log) + [Batch(given)] && batches == old(batches) + 1
        invariant forall m :: 0 <= m < j ==> keys[m] == if m < |result.ids| then result.ids[m] else None
      {
        keys[j] := if j < |result.ids| then result.ids[j] else None;
      }
      assert keys[..] == Perform(driver, old(View())).1.keys;
      assert nodes[..] == old(nodes[..]);
      assert Dones(builders) == old(Dones(builders)) && specs[..] == old(specs[..]);
      assert View() == Perform(driver, old(View())).1;
      return None;
    }

    /** Builder i's own step, before the rest of the chain. */
    method Begin(i: nat)
      requires Valid() && i < |builders|
      modifies nodes, specs, keys
      ensures Valid() && View() == Prepare(plans, i, old(View()))
    {
      hide Dones, Plans, CheckFrom;
      var fields := builders[i].mutation.fields;
      nodes[i], specs[i], keys[i] := Some(Node(fields, 0)), Some(fields), None;
    }

    /** Builder i's own step, after the rest of the chain. */
    method End(i: nat)
      requires Valid() && i < |builders| && nodes[i].Some?
      modifies nodes, builders[i].mutation
      ensures Valid() && View() == Complete(i, old(View()))
    {
      hide Dones, Plans, CheckFrom;
      if keys[i].Some? {
        nodes[i] := Some(nodes[i].value.(id := keys[i].value));
      }
      builders[i].mutation.done := true;
    }

    /** The innermost function of mutator i: what the hooks wrap. */
    method OwnStep(i: nat) returns (err: Option<Error>)
      requires Valid() && i < |builders|
      modifies Footprint()
      ensures Valid() && (err, View()) == BulkSpec.Run(plans, driver, Mutators(plans), Own(i), old(View()))
      decreases |builders| - i, Own(i), 0
    {
      OwnRuns(plans, driver, Mutators(plans), i, View());
      hide Dones, Plans, CheckFrom, Complete, Perform, Given, Known, Mutators, BulkSpec.Run, Prepare;
      err := builders[i].Check(validator);
      if err.Some? {
        return;
      }
      Begin(i);
      assert View().nodes[i].Some?;
      if i < mutators.Length - 1 {
        err := Run(mutators[i + 1]);
      } else {
        err := PerformBatch();
      }
      if err.None? {
        assert View().nodes[i].Some?;
        End(i);
      }
    }

    /** Runs a mutator. */
    method Run(m: Mutator) returns (err: Option<Error>)
      requires Valid() && Known(plans, m)
      modifies Footprint()
      ensures Valid() && (err, View()) == BulkSpec.Run(plans, driver, Mutators(plans), m, old(View()))
      decreases |builders| - BuilderOf(m), m, 1
    {
      hide Dones, Plans, CheckFrom, Prepare, Complete, Perform, Given, RunTimes, Mutators, Chained;
      match m {
        case Own(i) =>
          err := OwnStep(i);
        case Hooked(b, at, inner) =>
          log := log + [Enter(b, at)];
          var hook := builders[b].hooks[at];
          err := CallNext(inner, hook.calls);
          log := log + [Leave(b, at)];
          if err.None? && hook.fails {
            err := Some(Error.Hook(hook.id));
          }
      }
    }

    /** The run of the first mutator, which runs all of them. */
    method RunFirst() returns (err: Option<Error>, created: seq<Option<Node>>)
      requires Valid() && View() == Start(|builders|)
      modifies Footprint()
      ensures Valid() && (err, View()) == BulkSpec.Save(plans, driver)
      ensures created == if err.Some? then [] else View().nodes
    {
      hide Dones, Plans, CheckFrom, BulkSpec.Run, BulkSpec.Mutate, Chained, Known, Wrapped;
      err, created := None, [];
      if mutators.Length > 0 {
        WrappedKnown(plans, 0, 0);
        RunIsMutate(plans, driver, 0, 0, View());
        err := Run(mutators[0]);
      }
      if err.None? {
        created := nodes[..];
      }
    }

    /** A hook calling what it wraps k times, up to the first error. */
    method CallNext(m: Mutator, k: nat) returns (err: Option<Error>)
      requires Valid() && Known(plans, m)
      modifies Footprint()
      ensures Valid() && (err, View()) == BulkSpec.RunTimes(plans, driver, Mutators(plans), m, k, old(View()))
      decreases |builders| - BuilderOf(m), m, k + 2
    {
      hide Dones, Plans, CheckFrom, BulkSpec.Run, Mutators, Chained;
      if k == 0 {
        return None;
      }
      err := Run(m);
      if err.None? {
        err := CallNext(m, k - 1);
      }
    }
  }

  function FieldsOf(bs: seq<Builder>): (fs: seq<Fields>)
    reads Mutations(bs)
    ensures |fs| == |bs| && forall i :: 0 <= i < |bs| ==> fs[i] == bs[i].mutation.fields
  {
    if bs == [] then [] else FieldsOf(Front(bs)) + [Last(bs).mutation.fields]
  }

  /** The plans a save works with: the fields after the defaults, as far as they could be set. */
  function PlansFor(defaults: Defaults, v: Validator, fields: seq<Fields>, hooks: seq<seq<HookPlan>>): seq<Plan>
    requires |hooks| == |fields|
  {
    seq(|fields|, i requires 0 <= i < |fields| =>
      var filled := Fill(defaults, fields[i], 0).0;
      Plan(filled, CheckFrom(v, filled, 0), hooks[i]))
  }

  /** One builder whose defaults could not all be set is enough for the whole save to fail, with
      nothing inserted and nothing marked done, although nobody looked at that error. */
  lemma {:induction false} MissingDefaultFailsSave(defaults: Defaults, v: Validator, fields: seq<Fields>,
                                                   hooks: seq<seq<HookPlan>>, d: Driver, i: nat)
    requires |hooks| == |fields| && i < |fields| && Fill(defaults, fields[i], 0).1.Some?
    requires AllPassThrough(PlansFor(defaults, v, fields, hooks))
    ensures var (err, st) := BulkSpec.Save(PlansFor(defaults, v, fields, hooks), d);
      err.Some? && st.batches == 0 && forall j :: 0 <= j < |fields| ==> !st.done[j]
  {
    hide Fill, CheckFrom, BulkSpec.Mutate, BulkSpec.Save, FirstFailure;
    var ps := PlansFor(defaults, v, fields, hooks);
    IgnoredDefaultsErrorIsCaught(defaults, v, fields[i]);
    FailureFound(ps, 0, i);
    SaveIsAllOrNothing(ps, d);
    SaveFits(ps, d);
  }

  lemma {:induction false} NoFailure(ps: seq<Plan>, i: nat)
    requires i <= |ps|
    ensures FirstFailure(ps, i).None? <==> forall j :: i <= j < |ps| ==> ps[j].check.None?
    decreases |ps| - i
  {
    if i < |ps| && ps[i].check.None? {
      NoFailure(ps, i + 1);
    }
  }

  /** Under pass-through hooks a save puts all its rows in, each with its defaults and the key
      generated at its index, if and only if the fields of every caller are enough and the database
      accepts the batch; otherwise it fails and nothing is marked done. */
  lemma {:induction false} SaveInsertsIff(defaults: Defaults, v: Validator, fields: seq<Fields>,
                                          hooks: seq<seq<HookPlan>>, d: Driver)
    requires |hooks| == |fields| && fields != [] && AllPassThrough(PlansFor(defaults, v, fields, hooks))
    ensures var ps := PlansFor(defaults, v, fields, hooks);
      var (err, st) := BulkSpec.Save(ps, d);
      && Fits(|fields|, st)
      && (err == None <==> (forall i :: 0 <= i < |fields| ==> Creatable(defaults, v, fields[i]))
                           && d(0, AllFields(ps)).Inserted?)
      && (err == None ==> forall i :: 0 <= i < |fields| ==>
           && st.done[i]
           && st.nodes[i] == Some(Node(Fill(defaults, fields[i], 0).0, KeyOf(d(0, AllFields(ps)).ids, i))))
      && (err.Some? ==> forall i :: 0 <= i < |fields| ==> !st.done[i])
  {
    hide Fill, CheckFrom, BulkSpec.Mutate, BulkSpec.Save, FirstFailure, Creatable, AllPassThrough, AllFields;
    var ps := PlansFor(defaults, v, fields, hooks);
    forall i | 0 <= i < |fields|
      ensures ps[i].check == None <==> Creatable(defaults, v, fields[i])
    {
      CreatePassesIff(defaults, v, fields[i]);
    }
    NoFailure(ps, 0);
    SaveIsAllOrNothing(ps, d);
    SaveFits(ps, d);
  }

  lemma SaveFits(ps: seq<Plan>, d: Driver)
    ensures Fits(|ps|, BulkSpec.Save(ps, d).1)
  {
  }

  function HooksOf(bs: seq<Builder>): seq<seq<HookPlan>> {
    seq(|bs|, i requires 0 <= i < |bs| => bs[i].hooks)
  }

  /** The loop over the builders: defaults into each mutation, their errors ignored, and a
      mutator for each. */
  method MakeMutators(builders: seq<Builder>, defaults: Defaults) returns (mutators: array<Mutator>)
    requires forall i, j :: 0 <= i < j < |builders| ==> builders[i].mutation != builders[j].mutation
    modifies Mutations(builders)
    ensures fresh(mutators) && mutators.Length == |builders|
    ensures forall i :: 0 <= i < |builders| ==> mutators[i] == Wrapped(|builders[i].hooks|, i, 0)
    ensures forall i :: 0 <= i < |builders| ==>
      && builders[i].mutation.fields == Fill(defaults, old(builders[i].mutation.fields), 0).0
      && builders[i].mutation.done == old(builders[i].mutation.done)
  {
    hide Fill, Wrapped;
    mutators := new Mutator[|builders|](i => Own(i));
    for i := 0 to |builders|
      invariant forall j :: 0 <= j < i ==> mutators[j] == Wrapped(|builders[j].hooks|, j, 0)
      invariant forall j :: 0 <= j < i ==>
        builders[j].mutation.fields == Fill(defaults, old(builders[j].mutation.fields), 0).0
      invariant forall j :: i <= j < |builders| ==> builders[j].mutation.fields == old(builders[j].mutation.fields)
      invariant forall j :: 0 <= j < |builders| ==> builders[j].mutation.done == old(builders[j].mutation.done)
    {
      assert builders[i].mutation in Mutations(builders);
      var ignored := builders[i].SetDefaults(defaults);
      mutators[i] := builders[i].Wrap(i);
    }
  }

  /** The bulk save: a mutator for every builder, then the first of them. */
  method Save(builders: seq<Builder>, defaults: Defaults, validator: Validator, driver: Driver)
    returns (err: Option<Error>, created: seq<Option<Node>>, chain: Chain)
    requires forall i, j :: 0 <= i < j < |builders| ==> builders[i].mutation != builders[j].mutation
    requires forall b :: b in builders ==> !b.mutation.done
    modifies Mutations(builders)
    ensures chain.Valid() && chain.builders == builders
    ensures chain.plans == PlansFor(defaults, validator, old(FieldsOf(builders)), HooksOf(builders))
    ensures (err, chain.View()) == BulkSpec.Save(chain.plans, driver)
    ensures created == if err.Some? then [] else chain.View().nodes
    ensures AllPassThrough(chain.plans) ==> forall b :: b in builders ==> (b.mutation.done <==> err == None)
    ensures AllPassThrough(chain.plans) && builders != [] ==>
      (err == None <==>
        (forall i :: 0 <= i < |builders| ==> Creatable(defaults, validator, old(builders[i].mutation.fields)))
        && driver(0, AllFields(chain.plans)).Inserted?)
  {
    hide Fill, CheckFrom, Dones, Plans, FieldsOf, Wrapped, Mutators, BulkSpec.Save, Chained, Known, AllPassThrough,
      Creatable, AllFields;
    var mutators := MakeMutators(builders, defaults);
    assert forall b :: b in builders ==> !b.mutation.done;
    chain := new Chain(builders, validator, driver, mutators);
    assert chain.plans == PlansFor(defaults, validator, old(FieldsOf(builders)), HooksOf(builders));
    err, created := chain.RunFirst();
    if AllPassThrough(chain.plans) {
      forall i | 0 <= i < |builders|
        ensures builders[i].mutation.done <==> err == None
      {
        DoneIffSaved(chain.plans, driver, i);
      }
      if builders != [] {
        SaveInsertsIff(defaults, validator, old(FieldsOf(builders)), HooksOf(builders), driver);
      }
    }
  }
}
