/** What a generator over a lowered body does, stated on the single stack of `TryFrames`. */
module GeneratorSpec {
  import opened JsValues
  import opened Options
  import opened Sequences
  import opened TryFrames

  /** What `sent()` does while the body runs: return a value, throw one, or read a register
      that no longer holds a completion. */
  datatype Sent = Normal(value: Value) | Raise(value: Value) | Stale

  /** One run of the body, from a label to the instruction it returns or throws.  It may
      open try frames and fall through to a later label on the way. */
  datatype BodyRun<S> = BodyRun(world: S, frames: seq<Frame>, pc: nat, op: Op)

  datatype Method = NextMethod | ThrowMethod | ReturnMethod

  /** The answer of a delegate to a method call; Missing if it has no such method. */
  datatype Reply = Missing | Raised(error: Value) | Item(done: bool, value: Value)

  /** Everything outside the generator: its body and the iterators it may delegate to. */
  datatype Host<!S> = Host(
    body: (S, nat, Sent) -> BodyRun<S>,
    call: (S, Value, Method, Value) -> (S, Reply))

  datatype Status = Fresh | Suspended | Running | Done

  datatype Gen<S> = Gen(status: Status, c: Control, delegate: Value, world: S)

  /** The outcome of one call of next, throw or return.  Unfinished: the body was still
      running when observation stopped.  Stuck: end-finally met an empty `ops` stack. */
  datatype Outcome = Yielded(value: Value) | Completed(value: Value) | Threw(error: Value) | Unfinished | Stuck

  const ALREADY_EXECUTING := Error("Generator is already executing.")

  datatype Delegated<S> = Pass(world: S, value: Value) | Fail(world: S, error: Value) | Over(world: S, op: Op)

  /** Forward a resumption to the delegate. */
  function Delegate<S>(h: Host<S>, world: S, y: Value, op: Op): (d: Delegated<S>)
    requires Resumption(op)
    ensures d.Over? ==> Resumption(d.op)
  {
    match op
    case Next(v) =>
      (match h.call(world, y, NextMethod, v)
       case (w, Missing) => Over(w, op)
       case (w, Raised(e)) => Fail(w, e)
       case (w, Item(done, r)) => if done then Over(w, Next(r)) else Pass(w, r))
    case Throw(e) =>
      (match h.call(world, y, ThrowMethod, e)
       case (w, Missing) =>
         (match h.call(w, y, ReturnMethod, Undefined)
          case (w2, Raised(e2)) => Fail(w2, e2)
          case (w2, _) => Over(w2, op))
       case (w, Raised(e2)) => Fail(w, e2)
       case (w, Item(done, r)) => if done then Over(w, Next(r)) else Pass(w, r))
    case Return(v) =>
      (match h.call(world, y, ReturnMethod, v)
       case (w, Missing) => Over(w, op)
       case (w, Raised(e)) => Fail(w, e)
       case (w, Item(done, r)) => if done then Over(w, Return(r)) else Pass(w, r))
  }

  /** A falsy operand of yield* is no delegate at all. */
  function Active(y: Value): Value {
    if Truthy(y) then y else Undefined
  }

  function Rank(delegate: Value, op: Op): nat {
    if op.YieldStar? then 3 else if op.EndFinally? then 2 else if Resumption(op) && Truthy(delegate) then 1 else 0
  }

  /** The state after a run of the body: its frames are open and it stands at its label. */
  function AfterBody<S>(g: Gen<S>, b: BodyRun<S>): Gen<S> {
    g.(c := Push(g.c, b.frames).(pc := b.pc), world := b.world)
  }

  predicate Closes(op: Op) {
    Resumption(op) || op.Catch?
  }

  /** The answer once there is nothing left to run. */
  function Closing(op: Op): Outcome
    requires Closes(op)
  {
    match op
    case Next(_) => Completed(Undefined)
    case Throw(e) => Threw(e)
    case Catch(e) => Threw(e)
    case Return(v) => Completed(v)
  }

  /** Run the body and then whatever it asks for; at most `fuel` more runs are observed. */
  function Enter<S>(h: Host<S>, fuel: nat, g: Gen<S>, sent: Sent): (Outcome, Gen<S>)
    decreases fuel, 0
  {
    if fuel == 0 then (Unfinished, g.(status := Running))
    else
      var b := h.body(g.world, g.c.pc, sent);
      Run(h, fuel - 1, AfterBody(g, b), b.op)
  }

  /** Carry out operation `op`, up to the next point where the caller gets an answer. */
  function Run<S>(h: Host<S>, fuel: nat, g: Gen<S>, op: Op): (Outcome, Gen<S>)
    decreases fuel, Rank(g.delegate, op) + 2
  {
    if Resumption(op) && Truthy(g.delegate) then
      match Delegate(h, g.world, g.delegate, op)
      case Pass(w, v) => (Yielded(v), g.(status := Suspended, world := w))
      case Fail(w, e) => Run(h, fuel, g.(delegate := Undefined, world := w), Catch(e))
      case Over(w, op2) => Run(h, fuel, g.(delegate := Undefined, world := w), op2)
    else
      match op
      case Next(v) => Enter(h, fuel, g, Normal(v))
      case Throw(e) => Enter(h, fuel, g, Raise(e))
      case Yield(v) => (Yielded(v), g.(status := Suspended, c := g.c.(pc := g.c.pc + 1)))
      case YieldStar(y) => Run(h, fuel, g.(c := g.c.(pc := g.c.pc + 1), delegate := Active(y)), Next(Undefined))
      case EndFinally =>
        if g.c.stack == [] || !Top(g.c.stack).phase.Finalizing? then (Stuck, g)
        else Run(h, fuel, g.(c := Finish(g.c)), Top(g.c.stack).phase.saved)
      case _ => Deliver(h, fuel, g, op)
  }

  /** Carry out an abrupt completion. */
  function Deliver<S>(h: Host<S>, fuel: nat, g: Gen<S>, op: AbruptOp): (Outcome, Gen<S>)
    decreases fuel, 1
  {
    match Unwind(op, g.c)
    case Escaped(c) => (Closing(op), g.(status := Done, c := c))
    case Handled(c) => Enter(h, fuel, g.(c := c), Normal(op.value))
    case Jumped(c) => Enter(h, fuel, g.(c := c), Stale)
    case Deferred(c) => Enter(h, fuel, g.(c := c), Stale)
  }

  /** One call of next, throw or return. */
  function Resume<S>(h: Host<S>, fuel: nat, g: Gen<S>, op: Op): (Outcome, Gen<S>)
    requires Resumption(op)
  {
    match g.status
    case Running => (Threw(ALREADY_EXECUTING), g)
    case Done => (Closing(op), g)
    case Fresh =>
      if op.Next? then Run(h, fuel, g.(status := Running), op) else (Closing(op), g.(status := Done))
    case Suspended => Run(h, fuel, g.(status := Running), op)
  }

  function Initial<S>(world: S): Gen<S> {
    Gen(Fresh, Control(0, [], 0, []), Undefined, world)
  }

  // ----- Any sequence of calls -----

  /** A call, and how many runs of the body are observed before it counts as unfinished. */
  datatype Call = Call(op: Op, fuel: nat)

  predicate Callable(calls: seq<Call>) {
    forall i :: 0 <= i < |calls| ==> Resumption(calls[i].op)
  }

  function Replies<S>(h: Host<S>, g: Gen<S>, calls: seq<Call>): (r: (seq<Outcome>, Gen<S>))
    requires Callable(calls)
    ensures |r.0| == |calls|
    decreases |calls|
  {
    if calls == [] then ([], g) else
      var (o, g1) := Resume(h, calls[0].fuel, g, calls[0].op);
      var (os, g2) := Replies(h, g1, calls[1..]);
      ([o] + os, g2)
  }

  /** Completion is absorbing: no later sequence of calls reaches the body or a delegate.  Each
      next gives undefined, each return its own value, and each throw throws its own error. */
  lemma {:induction false} DoneForever<S>(h: Host<S>, g: Gen<S>, calls: seq<Call>)
    requires Callable(calls) && g.status.Done?
    ensures Replies(h, g, calls).1 == g
    ensures forall i :: 0 <= i < |calls| ==>
      var op, r := calls[i].op, Replies(h, g, calls).0[i];
      && (op.Next? ==> r == Completed(Undefined))
      && (op.Return? ==> r == Completed(op.value))
      && (op.Throw? ==> r == Threw(op.value))
  {
    if calls != [] {
      DoneForever(h, g, calls[1..]);
      assert forall i :: 0 < i < |calls| ==> calls[i] == calls[1..][i - 1];
    }
  }

  /** A generator whose first call is throw or return never runs its body; that call and all
      later ones are answered as by a finished generator. */
  lemma {:induction false} AbruptStartNeverRuns<S>(h: Host<S>, world: S, calls: seq<Call>)
    requires Callable(calls) && calls != [] && !calls[0].op.Next?
    ensures var g := Replies(h, Initial(world), calls).1;
      g.world == world && g.c == Initial(world).c && g.status.Done?
    ensures forall i :: 0 <= i < |calls| ==>
      var op, r := calls[i].op, Replies(h, Initial(world), calls).0[i];
      && (op.Next? ==> r == Completed(Undefined))
      && (op.Return? ==> r == Completed(op.value))
      && (op.Throw? ==> r == Threw(op.value))
  {
    var g := Initial(world).(status := Done);
    DoneForever(h, g, calls[1..]);
    assert forall i :: 0 < i < |calls| ==> calls[i] == calls[1..][i - 1];
  }

  /** The method of the delegate that an operation calls. */
  function MethodFor(op: Op): Method
    requires Resumption(op)
  {
    match op
    case Next(_) => NextMethod
    case Throw(_) => ThrowMethod
    case Return(_) => ReturnMethod
  }

  /** While the body is suspended on a delegate, the caller gets the very value of a delegate that
      goes on, and the generator stays suspended on it.  Otherwise the delegate is dropped: what it
      throws is thrown in the body; the value of a delegate that is done is what the body goes on
      with or, after a return, returns; and if it lacks the method, the call is made on the body,
      after a delegate without throw was closed. */
  lemma {:induction false} DelegateAnswers<S>(h: Host<S>, fuel: nat, g: Gen<S>, op: Op)
    requires Resumption(op) && g.status.Suspended? && Truthy(g.delegate)
    ensures var (w, reply) := h.call(g.world, g.delegate, MethodFor(op), op.value);
      var dropped := g.(delegate := Undefined, world := w);
      match reply
      case Item(false, v) => Resume(h, fuel, g, op) == (Yielded(v), g.(world := w))
      case Item(true, v) =>
        Resume(h, fuel, g, op) == Resume(h, fuel, dropped, if op.Return? then Return(v) else Next(v))
      case Raised(e) => Resume(h, fuel, g, op) == Deliver(h, fuel, dropped.(status := Running), Catch(e))
      case Missing =>
        if op.Throw? then
          var (w2, closed) := h.call(w, g.delegate, ReturnMethod, Undefined);
          Resume(h, fuel, g, op) ==
            if closed.Raised? then Deliver(h, fuel, dropped.(status := Running, world := w2), Catch(closed.error))
            else Resume(h, fuel, dropped.(world := w2), op)
        else Resume(h, fuel, g, op) == Resume(h, fuel, dropped, op)
  {
    hide Enter, Deliver;
    forall w: S, e: Value
      ensures var g1 := g.(status := Running, delegate := Undefined, world := w);
        Run(h, fuel, g1, Catch(e)) == Deliver(h, fuel, g1, Catch(e))
    {
    }
  }

  /** Without a delegate, a suspended body goes on at its label, where `sent()` gives the value of
      next and throws the error of throw; what the body then yields is what the caller gets. */
  lemma BodyAnswers<S>(h: Host<S>, fuel: nat, g: Gen<S>, op: Op)
    requires g.status.Suspended? && !Truthy(g.delegate) && (op.Next? || op.Throw?) && fuel > 0
    ensures var b := h.body(g.world, g.c.pc, if op.Next? then Normal(op.value) else Raise(op.value));
      b.op.Yield? ==>
        Resume(h, fuel, g, op) ==
          (Yielded(b.op.value),
           Gen(Suspended, Push(g.c, b.frames).(pc := b.pc + 1), g.delegate, b.world))
  {
    hide Deliver, Delegate, Push;
    var sent := if op.Next? then Normal(op.value) else Raise(op.value);
    var g1 := g.(status := Running);
    var b := h.body(g.world, g.c.pc, sent);
    assert Run(h, fuel, g1, op) == Enter(h, fuel, g1, sent) == Run(h, fuel - 1, AfterBody(g1, b), b.op);
  }

  /** A finally that a completion leaving all frames would have to run first. */
  predicate Owing(stack: seq<Live>) {
    exists k :: 0 <= k < |stack| && OwesFinally(stack[k])
  }

  /** What a return on a suspended generator does: with no finally outstanding it completes with
      its value, and neither the body nor the world notices; otherwise the body is run from the
      finally of the innermost such frame, the frames above it gone and the return saved. */
  lemma {:induction false} ReturnOnSuspended<S>(h: Host<S>, fuel: nat, g: Gen<S>, v: Value)
    requires g.status.Suspended? && !Truthy(g.delegate)
    ensures var (o, g1) := Resume(h, fuel, g, Return(v));
      !Owing(g.c.stack) ==> o == Completed(v) && g1.status.Done? && g1.world == g.world && g1.c.stack == []
    ensures Owing(g.c.stack) ==>
      exists k, c :: Interrupts(g.c, v, k, c) &&
        Resume(h, fuel, g, Return(v)) == Enter(h, fuel, g.(status := Running, c := c), Stale)
  {
    hide Enter, Delegate;
    ReturnUnwinds(g.c, v);
    assert Run(h, fuel, g.(status := Running), Return(v)) == Deliver(h, fuel, g.(status := Running), Return(v));
  }

  /** Control `c` stands at the finally of frame `k`, the innermost of `before` that owes one. */
  predicate Interrupts(before: Control, v: Value, k: nat, c: Control) {
    && k < |before.stack| && OwesFinally(before.stack[k])
    && (forall j :: k < j < |before.stack| ==> !OwesFinally(before.stack[j]))
    && c.pc == before.stack[k].frame.finalizer.value
    && c.stack == before.stack[..k] + [before.stack[k].(phase := Finalizing(Return(v)))]
  }

  lemma {:induction false} ReturnUnwinds(c: Control, v: Value)
    ensures !Owing(c.stack) ==> Unwind(Return(v), c).Escaped?
    ensures Owing(c.stack) ==>
      Unwind(Return(v), c).Deferred? && exists k :: Interrupts(c, v, k, Unwind(Return(v), c).c)
    decreases |c.stack|
  {
    if c.stack != [] {
      var n, r := |c.stack| - 1, Unwind(Return(v), c);
      if OwesFinally(Top(c.stack)) {
        assert Interrupts(c, v, n, r.c);
      } else {
        var below := Leave(c, Return(v));
        ReturnUnwinds(below, v);
        assert forall j :: 0 <= j < n ==> below.stack[j] == c.stack[j];
        if Owing(below.stack) {
          var k :| Interrupts(below, v, k, r.c);
          assert Interrupts(c, v, k, r.c);
        }
      }
    }
  }

  /** Calls made while the body is running all fail with one error and change nothing. */
  lemma {:induction false} ReentryChangesNothing<S>(h: Host<S>, g: Gen<S>, calls: seq<Call>)
    requires Callable(calls) && g.status.Running?
    ensures Replies(h, g, calls).1 == g
    ensures forall i :: 0 <= i < |calls| ==>
      Replies(h, g, calls).0[i] == Threw(Error("Generator is already executing."))
  {
    if calls != [] {
      ReentryChangesNothing(h, g, calls[1..]);
    }
  }

  // ----- Well-formed bodies -----

  /** A frame together with the part of it that some label lies in. */
  datatype Place = Place(frame: Frame, region: Region)

  datatype Region = TryRegion | CatchRegion | FinallyRegion

  /** The lexical shape of a lowered body: its labels are 0 to labels - 1, and `at(l)` lists
      the try statements around label `l`, outermost first, with the part `l` is in.  A frame
      does not surround its own start label: that is where the body opens it. */
  datatype Shape = Shape(labels: nat, at: nat -> seq<Place>)

  function RegionOf(f: Frame, l: nat): Region {
    if f.finalizer.Some? && f.finalizer.value <= l then FinallyRegion
    else if f.handler.Some? && f.handler.value <= l then CatchRegion
    else TryRegion
  }

  predicate WellShaped(f: Frame) {
    && (f.handler.Some? ==> f.start < f.handler.value < f.end)
    && (f.finalizer.Some? ==> f.start < f.finalizer.value < f.end)
    && (f.handler.Some? && f.finalizer.Some? ==> f.handler.value < f.finalizer.value)
  }

  /** The frames nest around label `l`: each lies, from start to end, inside one part of the
      frame around it. */
  predicate Nested(ps: seq<Place>, l: nat) {
    ps != [] ==>
      var p := ps[|ps| - 1];
      && WellShaped(p.frame) && p.frame.start <= l < p.frame.end && RegionOf(p.frame, l) == p.region
      && Nested(Front(ps), p.frame.start) && Nested(Front(ps), p.frame.end)
  }

  /** The catch and finally labels of the innermost frame exist, and are surrounded by just
      these frames. */
  ghost predicate Closed(s: Shape, ps: seq<Place>)
    requires ps != []
  {
    var f := ps[|ps| - 1].frame;
    && (f.handler.Some? ==> f.handler.value < s.labels && s.at(f.handler.value) == Front(ps) + [Place(f, CatchRegion)])
    && (f.finalizer.Some? ==>
         f.finalizer.value < s.labels && s.at(f.finalizer.value) == Front(ps) + [Place(f, FinallyRegion)])
  }

  /** The same for each of the frames from the `k`th on. */
  ghost predicate AllClosed(s: Shape, ps: seq<Place>, k: nat) {
    |ps| > k ==> Closed(s, ps) && AllClosed(s, Front(ps), k)
  }

  /** A jump to `l` stays in, or leaves, the frames that are open; it enters none, and
      within a frame it stays in the part it is in. */
  ghost predicate JumpAllowed(s: Shape, ps: seq<Place>, l: nat) {
    && l < s.labels
    && s.at(l) <= ps
    && (forall i :: |s.at(l)| <= i < |ps| ==> !(ps[i].frame.start < l < ps[i].frame.end))
  }

  function Opened(frames: seq<Frame>): seq<Place> {
    if frames == [] then [] else Opened(Front(frames)) + [Place(frames[|frames| - 1], TryRegion)]
  }

  /** What a run of the body from label `l` may do. */
  ghost predicate BodyAllowed<S>(s: Shape, l: nat, b: BodyRun<S>) {
    var ps := s.at(l) + Opened(b.frames);
    && b.pc < s.labels
    && Nested(ps, b.pc)
    && AllClosed(s, ps, |s.at(l)|)
    && match b.op
       case Yield(_) => b.pc + 1 < s.labels && s.at(b.pc + 1) == ps
       case YieldStar(_) => b.pc + 1 < s.labels && s.at(b.pc + 1) == ps
       case Break(t) => JumpAllowed(s, ps, t)
       case EndFinally => ps != [] && ps[|ps| - 1].region == FinallyRegion
       case Return(_) => true
       case Catch(_) => true     // the body throws
       case Next(_) => false
       case Throw(_) => false
  }

  ghost predicate ShapeOk(s: Shape) {
    && 0 < s.labels && s.at(0) == []
    && forall l :: 0 <= l < s.labels ==> Nested(s.at(l), l) && forall p :: p in s.at(l) ==> p.frame.start < l
  }

  ghost predicate BodiesAllowed<S(!new)>(h: Host<S>, s: Shape) {
    forall w: S, l: nat, sent: Sent :: l < s.labels ==> BodyAllowed(s, l, h.body(w, l, sent))
  }

  /** The body keeps to its shape, from every label and in every world. */
  ghost predicate WellFormed<S(!new)>(h: Host<S>, s: Shape) {
    ShapeOk(s) && BodiesAllowed(h, s)
  }
}
