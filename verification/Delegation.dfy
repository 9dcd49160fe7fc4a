/** Delegation by `yield*` as ECMA-262 asks for it, and where the run-time departs from it. */
module Delegation {
  import opened JsValues
  import opened Options
  import opened TryFrames
  import opened GeneratorSpec

  // ----- Calling a method of an iterator -----

  /** The answer of a function that was called. */
  type Answer = r: Reply | !r.Missing? witness Raised(Undefined)

  /** The objects of the world: what a property holds, which of them are functions, and what a
      function does when it is called on a receiver with an argument. */
  datatype Objects<!S> = Objects(
    look: (S, Value, Method) -> Value,
    isFunction: nat -> bool,
    invoke: (S, Value, Value, Value) -> (S, Answer))

  const TYPE_ERROR := Error("TypeError")

  predicate Callable<S>(o: Objects<S>, f: Value) {
    f.Ref? && o.isFunction(f.id)
  }

  predicate Nullish(f: Value) {
    f.Undefined? || f.Null?
  }

  /** Calling a value: a TypeError unless it is a function. */
  function Invoke<S>(o: Objects<S>, world: S, f: Value, y: Value, v: Value): (r: (S, Answer)) {
    if Callable(o, f) then o.invoke(world, f, y, v) else (world, Raised(TYPE_ERROR))
  }

  /** The run-time calls a method if what it finds is truthy; else the delegate has none. */
  function CallIfTruthy<S>(o: Objects<S>): (S, Value, Method, Value) -> (S, Reply) {
    (w: S, y: Value, m: Method, v: Value) =>
      var f := o.look(w, y, m);
      if Truthy(f) then Invoke(o, w, f, y, v) else (w, Missing)
  }

  /** A generator whose delegates are objects of the world. */
  function HostOf<S>(o: Objects<S>, body: (S, nat, Sent) -> BodyRun<S>): Host<S> {
    Host(body, CallIfTruthy(o))
  }

  // ----- What the language asks for -----

  /** Closing an iterator that has no `throw`; the violation is reported even if it goes well. */
  function Close<S>(o: Objects<S>, world: S, y: Value): Delegated<S> {
    var f := o.look(world, y, ReturnMethod);
    if Nullish(f) then Fail(world, TYPE_ERROR) else
      var (w, r) := Invoke(o, world, f, y, Undefined);
      Fail(w, if r.Raised? then r.error else TYPE_ERROR)
  }

  /** What the language does with a resumption while it delegates to `y`.  It calls the `next`
      that was found when delegation began; `throw` and `return` it looks up each time, and takes
      one that is undefined or null for none. */
  function Asked<S>(o: Objects<S>, next: Value, world: S, y: Value, op: Op): Delegated<S>
    requires Resumption(op)
  {
    match op
    case Next(v) => Settle(Invoke(o, world, next, y, v), false)
    case Throw(e) =>
      var f := o.look(world, y, ThrowMethod);
      if Nullish(f) then Close(o, world, y) else Settle(Invoke(o, world, f, y, e), false)
    case Return(v) =>
      var f := o.look(world, y, ReturnMethod);
      if Nullish(f) then Over(world, op) else Settle(Invoke(o, world, f, y, v), true)
  }

  function Settle<S>(answer: (S, Answer), returning: bool): Delegated<S> {
    match answer
    case (w, Raised(e)) => Fail(w, e)
    case (w, Item(done, r)) =>
      if !done then Pass(w, r) else Over(w, if returning then Return(r) else Next(r))
  }

  // ----- When the run-time complies -----

  /** The run-time closes a delegate without `throw` if it finds a truthy `return`. */
  function Closing<S>(o: Objects<S>, world: S, y: Value): (r: (S, Option<Answer>)) {
    var f := o.look(world, y, ReturnMethod);
    if Truthy(f) then
      var (w, r) := Invoke(o, world, f, y, Undefined);
      (w, Some(r))
    else (world, None)
  }

  predicate ClosingThrows<S>(o: Objects<S>, world: S, y: Value) {
    var (w, r) := Closing(o, world, y); r.Some? && r.value.Raised?
  }

  /** The condition, by what a resumption finds on the delegate and what a call answers:
      `next` answers as the one found first would, or is gone when that would have been done with
      the very value sent; a `throw` is there, or closing throws; and no method is falsy without
      being undefined or null, unless closing throws a TypeError and does nothing else. */
  ghost predicate Complies<S>(o: Objects<S>, next: Value, world: S, y: Value, op: Op)
    requires Resumption(op)
  {
    match op
    case Next(v) =>
      var f := o.look(world, y, NextMethod);
      if Truthy(f) then Invoke(o, world, f, y, v) == Invoke(o, world, next, y, v)
      else Invoke(o, world, next, y, v) == (world, Item(true, v))
    case Throw(_) =>
      var f := o.look(world, y, ThrowMethod);
      || Truthy(f)
      || (ClosingThrows(o, world, y) && (Nullish(f) || Closing(o, world, y) == (world, Some(Raised(TYPE_ERROR)))))
    case Return(_) =>
      var f := o.look(world, y, ReturnMethod);
      Truthy(f) || Nullish(f)
  }

  /** For every world, delegate and resumption: the run-time does what the language asks for if
      and only if the condition holds. */
  lemma DelegatesAsAskedIff<S>(o: Objects<S>, body: (S, nat, Sent) -> BodyRun<S>, next: Value, world: S, y: Value,
                               op: Op)
    requires Resumption(op)
    ensures Delegate(HostOf(o, body), world, y, op) == Asked(o, next, world, y, op) <==> Complies(o, next, world, y, op)
  {
    match op
    case Next(v) => NextAsAskedIff(o, body, next, world, y, v);
    case Throw(e) => ThrowAsAskedIff(o, body, next, world, y, e);
    case Return(v) => ReturnAsAskedIff(o, body, next, world, y, v);
  }

  lemma CallIs<S>(o: Objects<S>, body: (S, nat, Sent) -> BodyRun<S>, world: S, y: Value, m: Method, v: Value)
    ensures HostOf(o, body).call(world, y, m, v) ==
      var f := o.look(world, y, m); if Truthy(f) then Invoke(o, world, f, y, v) else (world, Missing)
  {
  }

  lemma NextAsAskedIff<S>(o: Objects<S>, body: (S, nat, Sent) -> BodyRun<S>, next: Value, world: S, y: Value, v: Value)
    ensures Delegate(HostOf(o, body), world, y, Next(v)) == Asked(o, next, world, y, Next(v)) <==>
            Complies(o, next, world, y, Next(v))
  {
    CallIs(o, body, world, y, NextMethod, v);
  }

  lemma ThrowAsAskedIff<S>(o: Objects<S>, body: (S, nat, Sent) -> BodyRun<S>, next: Value, world: S, y: Value, e: Value)
    ensures Delegate(HostOf(o, body), world, y, Throw(e)) == Asked(o, next, world, y, Throw(e)) <==>
            Complies(o, next, world, y, Throw(e))
  {
    CallIs(o, body, world, y, ThrowMethod, e);
    CallIs(o, body, world, y, ReturnMethod, Undefined);
  }

  lemma ReturnAsAskedIff<S>(o: Objects<S>, body: (S, nat, Sent) -> BodyRun<S>, next: Value, world: S, y: Value,
                            v: Value)
    ensures Delegate(HostOf(o, body), world, y, Return(v)) == Asked(o, next, world, y, Return(v)) <==>
            Complies(o, next, world, y, Return(v))
  {
    CallIs(o, body, world, y, ReturnMethod, v);
  }

  /** A delegate as one expects it: it still has the `next` it had at first, and each method is
      a function, undefined or null. */
  ghost predicate Regular<S>(o: Objects<S>, next: Value, world: S, y: Value) {
    && o.look(world, y, NextMethod) == next
    && forall m :: Callable(o, o.look(world, y, m)) || Nullish(o.look(world, y, m))
  }

  /** For a regular delegate it is enough, and needed, that it has `next` when it is resumed and,
      unless closing it throws, `throw` when an error is thrown into it. */
  lemma RegularDelegatesIff<S>(o: Objects<S>, body: (S, nat, Sent) -> BodyRun<S>, next: Value, world: S, y: Value,
                               op: Op)
    requires Resumption(op) && Regular(o, next, world, y)
    ensures Delegate(HostOf(o, body), world, y, op) == Asked(o, next, world, y, op) <==>
      && (op.Next? ==> Callable(o, next))
      && (op.Throw? ==> Callable(o, o.look(world, y, ThrowMethod)) || ClosingThrows(o, world, y))
  {
    hide Delegate, Asked;
    DelegatesAsAskedIff(o, body, next, world, y, op);
  }

  // ----- Where it departs -----

  /** Objects of a world without functions: a delegate has no method, or the one value given. */
  function Holding(m: Method, f: Value): Objects<()> {
    Objects((w: (), y: Value, n: Method) => if n == m then f else Undefined, (i: nat) => false,
            (w: (), f: Value, y: Value, v: Value) => (w, Raised(Undefined)))
  }

  /** Without any method, a value and an error both go on to the body, where the language asks for
      a TypeError. */
  lemma NoMethodsDiffer(body: ((), nat, Sent) -> BodyRun<()>, y: Value)
    ensures var h, o := HostOf(Holding(NextMethod, Undefined), body), Holding(NextMethod, Undefined);
      && Delegate(h, (), y, Next(Null)) == Over((), Next(Null))
      && Asked(o, Undefined, (), y, Next(Null)) == Fail((), TYPE_ERROR)
      && Delegate(h, (), y, Throw(Null)) == Over((), Throw(Null))
      && Asked(o, Undefined, (), y, Throw(Null)) == Fail((), TYPE_ERROR)
  {
    var o := Holding(NextMethod, Undefined);
    Holds(NextMethod, Undefined, y);
    CallIs(o, body, (), y, NextMethod, Null);
    CallIs(o, body, (), y, ThrowMethod, Null);
    CallIs(o, body, (), y, ReturnMethod, Undefined);
  }

  /** A return goes on to the body when `return` is 0, where the language asks for a TypeError. */
  lemma ZeroReturnDiffers(body: ((), nat, Sent) -> BodyRun<()>, y: Value)
    ensures var h, o := HostOf(Holding(ReturnMethod, Number(0.0)), body), Holding(ReturnMethod, Number(0.0));
      && Delegate(h, (), y, Return(Null)) == Over((), Return(Null))
      && Asked(o, Undefined, (), y, Return(Null)) == Fail((), TYPE_ERROR)
  {
    var o := Holding(ReturnMethod, Number(0.0));
    Holds(ReturnMethod, Number(0.0), y);
    CallIs(o, body, (), y, ReturnMethod, Null);
  }

  lemma Holds(m: Method, f: Value, y: Value)
    ensures forall n: Method :: Holding(m, f).look((), y, n) == if n == m then f else Undefined
    ensures forall g: Value :: !Callable(Holding(m, f), g)
  {
  }

  /** An iterator whose first `next`, function 1, answers 1 and puts function 2 in its place, which
      is done with 2.  The world is whether that happened. */
  function Replacing(): Objects<bool> {
    Objects((replaced: bool, y: Value, m: Method) => NextIn(replaced, m), (i: nat) => i == 1 || i == 2,
            (replaced: bool, f: Value, y: Value, v: Value) => (true, AnswerOf(f)))
  }

  function NextIn(replaced: bool, m: Method): Value {
    if !m.NextMethod? then Undefined else if replaced then Ref(2) else Ref(1)
  }

  function AnswerOf(f: Value): Answer {
    if f == Ref(1) then Item(false, Number(1.0)) else Item(true, Number(2.0))
  }

  /** The second resumption: the run-time calls the new `next`, the language the first again. */
  lemma ReplacedNextDiffers(body: (bool, nat, Sent) -> BodyRun<bool>, y: Value, v: Value)
    ensures var h, o := HostOf(Replacing(), body), Replacing();
      && Delegate(h, false, y, Next(v)) == Asked(o, Ref(1), false, y, Next(v)) == Pass(true, Number(1.0))
      && Delegate(h, true, y, Next(v)) == Over(true, Next(Number(2.0)))
      && Asked(o, Ref(1), true, y, Next(v)) == Pass(true, Number(1.0))
  {
    var h, o := HostOf(Replacing(), body), Replacing();
    CallIs(o, body, false, y, NextMethod, v);
    CallIs(o, body, true, y, NextMethod, v);
    assert o.look(false, y, NextMethod) == Ref(1) && o.look(true, y, NextMethod) == Ref(2);
    assert Callable(o, Ref(1)) && Callable(o, Ref(2));
    assert o.invoke(true, Ref(2), y, v) == (true, Item(true, Number(2.0)));
  }

  // ----- What reaches the body -----

  /** The delegate has no `throw`, and closing it does not throw either. */
  predicate LacksThrow<S>(h: Host<S>, world: S, y: Value, op: Op) {
    op.Throw? &&
    var (w, r) := h.call(world, y, ThrowMethod, op.value);
    r.Missing? && !h.call(w, y, ReturnMethod, Undefined).1.Raised?
  }

  /** An error thrown into a delegate goes on to the body, as it is, if and only if the delegate
      has no `throw` and its closing throws nothing. */
  lemma ErrorGoesOnIff<S(!new)>(h: Host<S>, world: S, y: Value, e: Value)
    ensures (exists w: S :: Delegate(h, world, y, Throw(e)) == Over(w, Throw(e))) <==> LacksThrow(h, world, y, Throw(e))
  {
    var (w, r) := h.call(world, y, ThrowMethod, e);
    if LacksThrow(h, world, y, Throw(e)) {
      var w2 := h.call(w, y, ReturnMethod, Undefined).0;
      assert Delegate(h, world, y, Throw(e)) == Over(w2, Throw(e));
    }
  }

  /** A value sent to a delegate goes on to the body, with the delegate dropped, if it has no
      `next`; and if the delegate is done it is replaced by the delegate's result. */
  lemma ValueGoesOnIff<S(!new)>(h: Host<S>, world: S, y: Value, v: Value)
    ensures (exists w: S :: Delegate(h, world, y, Next(v)) == Over(w, Next(v))) <==>
      var r := h.call(world, y, NextMethod, v).1; r.Missing? || (r.Item? && r.done && r.value == v)
  {
    var (w, r) := h.call(world, y, NextMethod, v);
    if r.Missing? || (r.Item? && r.done && r.value == v) {
      assert Delegate(h, world, y, Next(v)) == Over(w, Next(v));
    }
  }

  /** A call of `yield*` reaches a delegate if and only if its operand is truthy; with a falsy one
      the body goes on at the next label with undefined, and no delegate is called. */
  lemma {:induction false} FalsyOperandIsNoDelegate<S>(h: Host<S>, fuel: nat, g: Gen<S>, y: Value)
    requires !Truthy(g.delegate)
    ensures var g1 := g.(c := g.c.(pc := g.c.pc + 1));
      Run(h, fuel, g, YieldStar(y)) ==
        if y in FALSY then Enter(h, fuel, g1.(delegate := Undefined), Normal(Undefined))
        else Run(h, fuel, g1.(delegate := y), Next(Undefined))
  {
    hide Enter, Deliver, Delegate;
  }
}
