/** `__awaiter`: drives a generator, awaiting each value it yields, until it settles. */
module Awaiter {
  import opened JsValues
  import opened Options
  import opened TryFrames
  import opened GeneratorSpec
  import opened GeneratorSafety
  import opened GeneratorMachine

  /** How a promise, or a host operation, turns out. */
  datatype Result = Fulfilled(value: Value) | Failed(error: Value)

  datatype Settled = Resolved(value: Value) | Rejected(error: Value) | Pending

  /** The call that hands the result of an awaited promise back to the generator. */
  function Delivery(r: Result): (op: Op)
    ensures Resumption(op)
  {
    match r
    case Fulfilled(v) => Next(v)
    case Failed(e) => Throw(e)
  }

  /** The promise of an async function that runs as generator `g`, after at most `turns`
      awaits and `fuel` runs of the body in each call. */
  function Drive<S>(h: Host<S>, await: (S, Value) -> (S, Result), turns: nat, fuel: nat, g: Gen<S>, op: Op)
    : (Settled, Gen<S>)
    requires Resumption(op)
    decreases turns
  {
    var (o, g1) := Resume(h, fuel, g, op);
    match o
    case Completed(v) => (Resolved(v), g1)
    case Threw(e) => (Rejected(e), g1)
    case Yielded(p) =>
      if turns == 0 then (Pending, g1) else
        var (w, r) := await(g1.world, p);
        Drive(h, await, turns - 1, fuel, g1.(world := w), Delivery(r))
    case _ => (Pending, g1)
  }

  method Execute<S(!new)>(g: Generator<S>, await: (S, Value) -> (S, Result), turns: nat, fuel: nat) returns (s: Settled)
    requires g.Valid()
    modifies g
    ensures g.Valid()
    ensures (s, g.Model()) == Drive(g.host, await, turns, fuel, old(g.Model()), Next(Undefined))
  {
    hide Drive, Resume, WellFormed, Good;
    var op, left := Next(Undefined), turns;
    while true
      invariant g.Valid() && Resumption(op)
      invariant Drive(g.host, await, turns, fuel, old(g.Model()), Next(Undefined)) ==
                Drive(g.host, await, left, fuel, g.Model(), op)
      decreases left
    {
      DriveStep(g.host, await, left, fuel, g.Model(), op);
      var o := g.Step(op, fuel);
      match o {
        case Completed(v) => return Resolved(v);
        case Threw(e) => return Rejected(e);
        case Yielded(p) =>
          if left == 0 {
            return Pending;
          }
          left := left - 1;
          var (w, r) := await(g.world, p);
          g.SetWorld(w);
          op := Delivery(r);
        case _ => return Pending;
      }
    }
  }

  lemma DriveStep<S>(h: Host<S>, await: (S, Value) -> (S, Result), turns: nat, fuel: nat, g: Gen<S>, op: Op)
    requires Resumption(op)
    ensures var (o, g1) := Resume(h, fuel, g, op);
      Drive(h, await, turns, fuel, g, op) == match o
        case Completed(v) => (Resolved(v), g1)
        case Threw(e) => (Rejected(e), g1)
        case Yielded(p) =>
          (if turns == 0 then (Pending, g1) else
           var (w, r) := await(g1.world, p);
           Drive(h, await, turns - 1, fuel, g1.(world := w), Delivery(r)))
        case _ => (Pending, g1)
  {
  }
}
