/** The generator run-time as it is written: a label, a stack of frames, a separate stack of
    saved completions, a delegate and a few flags, updated by one dispatch loop.  Each call
    is proved to do what `GeneratorSpec.Resume` does on the single stack of phases. */
module GeneratorMachine {
  import opened JsValues
  import opened Options
  import opened Sequences
  import opened TryFrames
  import opened GeneratorSpec
  import opened GeneratorSafety

  /** How a turn of the dispatch loop ends: with an answer for the caller, by giving up the
      state object, with another turn, or by running the body. */
  datatype Turn = Answer(result: Outcome) | Halt(last: Op) | Again(op: Op) | Continue(sent: Sent)

  /** The comparison `label < t[i]`, false when the frame has no such label. */
  predicate Before(l: nat, t: Option<nat>) {
    t.Some? && l < t.value
  }

  class Generator<!S(!new)> {
    const host: Host<S>
    ghost const shape: Shape
    var pc: nat                // _.label
    var trys: seq<Frame>       // _.trys
    var ops: seq<Op>           // _.ops
    var alive: bool            // _ has not been replaced by 0
    var unstarted: bool        // g has not been replaced by 0
    var f: bool
    var y: Value
    var world: S
    ghost var c: Control       // the single stack the two stacks stand for

    /** The two stacks are the frames of `c` and the completions saved in it, in order. */
    ghost predicate Linked()
      reads this
    {
      c.pc == pc && trys == Frames(c.stack) && ops == Saved(c.stack)
    }

    ghost function Model(): Gen<S>
      reads this
    {
      Gen(if f then Running else if !alive then Done else if unstarted then Fresh else Suspended, c, Active(y), world)
    }

    ghost predicate Valid()
      reads this
    {
      && WellFormed(host, shape) && Linked() && Good(shape, Model())
      && (f ==> alive && !unstarted)
      && (unstarted ==> alive)
    }

    constructor (host: Host<S>, world: S, ghost shape: Shape)
      requires WellFormed(host, shape)
      ensures Valid() && Model() == Initial(world)
      ensures this.host == host && this.shape == shape
    {
      this.host, this.shape, this.world := host, shape, world;
      pc, trys, ops := 0, [], [];
      alive, unstarted, f, y := true, true, false, Undefined;
      c := Control(0, [], 0, []);
    }

    /** What happens outside the generator between two calls. */
    method SetWorld(w: S)
      requires Valid()
      modifies `world
      ensures Valid() && world == w && Model() == old(Model()).(world := w)
    {
      world := w;
    }

    /** The default branch: a break, return or throw meets the innermost frame. */
    method Transfer(op: AbruptOp) returns (t: Turn)
      requires ShapeOk(shape) && Linked() && alive && Placed(shape, c) && MayTravel(shape, c.stack, op)
      modifies `pc, `trys, `ops, `alive, `c
      ensures Linked() && alive == !t.Halt? && !t.Answer?
      ensures t.Halt? ==> t.last == op && Unwind(op, old(c)) == Escaped(c)
      ensures t.Again? ==>
        && t.op == op && Unwind(op, old(c)) == Unwind(op, c) && |trys| < |old(trys)|
        && Placed(shape, c) && MayTravel(shape, c.stack, op)
      ensures t.Continue? ==>
        && AtRest(shape, c) && !Unwind(op, old(c)).Escaped? && c == Unwind(op, old(c)).c
        && t.sent == if Unwind(op, old(c)).Handled? then Normal(op.value) else Stale
    {
      hide ShapeOk, Sound, Closed, AllClosed, Nested, MayTravel, AtRest, Unwind, Saved;
      UnwindLands(shape, op, c);
      UnwindOnce(op, c);
      if |trys| == 0 && (op.Catch? || op.Return?) {
        alive := false;
        return Halt(op);
      }
      if op.Break? && (|trys| == 0 || Inside(trys[|trys| - 1], op.target)) {
        pc := op.target;
        c := c.(pc := pc);
        return Continue(Stale);
      }
      var fr := trys[|trys| - 1];
      PhaseAtLabel(shape, c);
      if op.Catch? && Before(pc, fr.handler) {
        TakeCatch();
        return Continue(Normal(op.value));
      }
      if Before(pc, fr.finalizer) {
        TakeFinally(op);
        return Continue(Stale);
      }
      LeaveKeeps(shape, c, op);
      TravelsOn(shape, c, op);
      Pop(op);
      return Again(op);
    }

    /** The innermost frame catches. */
    method TakeCatch()
      requires Linked() && c.stack != [] && CanCatch(Top(c.stack))
      modifies `pc, `c
      ensures Linked() && c == EnterCatch(old(c))
    {
      pc := trys[|trys| - 1].handler.value;
      StacksAfter(c.stack, Handling);
      c := EnterCatch(c);
    }

    /** The innermost frame saves the completion and runs its finally. */
    method TakeFinally(op: AbruptOp)
      requires Linked() && c.stack != [] && OwesFinally(Top(c.stack))
      modifies `pc, `ops, `c
      ensures Linked() && c == EnterFinally(old(c), op)
    {
      pc, ops := trys[|trys| - 1].finalizer.value, ops + [op];
      StacksAfter(c.stack, Finalizing(op));
      c := EnterFinally(c, op);
    }

    /** The completion leaves the innermost frame, with whatever its finally was to resume. */
    method Pop(op: AbruptOp)
      requires Linked() && c.stack != [] && !OwesFinally(Top(c.stack))
      requires Top(c.stack).phase.Finalizing? <==> Top(c.stack).frame.finalizer.Some?
      modifies `trys, `ops, `c
      ensures Linked() && c == Leave(old(c), op) && |trys| < |old(trys)|
    {
      if trys[|trys| - 1].finalizer.Some? {
        ops := Front(ops);
      }
      trys := Front(trys);
      c := Leave(c, op);
    }

    /** The state in the middle of a call. */
    ghost function State(): Gen<S>
      reads this
    {
      Gen(Running, c, Active(y), world)
    }

    /** Operation `op` is next, in a state that can carry it out. */
    ghost predicate Ready(op: Op)
      reads this
    {
      && Linked() && ShapeOk(shape) && BodiesAllowed(host, shape) && alive && !unstarted
      && Pending(shape, c, op) && (Truthy(y) ==> Resumption(op) && AtRest(shape, c))
    }

    /** What a turn achieves, as seen from the call it is part of.  The last clause is the
        measure that bounds the turns between two runs of the body. */
    twostate predicate Turned(op0: Op, fuel: nat, t: Turn)
      reads this
    {
      && Linked() && alive == !t.Halt? && unstarted == old(unstarted)
      && (t.Halt? ==> Closes(t.last))
      && Run(host, fuel, old(State()), op0) == (match t
           case Answer(o) => (o, State().(status := Suspended))
           case Halt(last) => (Closing(last), State().(status := Done))
           case Again(op) => Run(host, fuel, State(), op)
           case Continue(sent) => Enter(host, fuel, State(), sent))
      && match t
         case Answer(o) => o.Yielded? && AtRest(shape, c)
         case Halt(_) => c.stack == [] && y == Undefined
         case Again(op) => Ready(op) && |trys| + Rank(y, op) < |old(trys)| + Rank(old(y), op0)
         case Continue(_) => AtRest(shape, c) && y == Undefined
    }

    /** Hand a resumption to the delegate. */
    method Forward(op0: Op, ghost fuel: nat) returns (t: Turn)
      requires Ready(op0) && Truthy(y) && Resumption(op0)
      modifies `y, `world
      ensures Turned(op0, fuel, t)
      ensures t.Answer? || (t.Again? && y == Undefined)
    {
      hide BodiesAllowed, ShapeOk, Sound, Nested, Closed, Enter, Unwind, Outline, Deliver;
      RestIsPlaced(shape, c);
      var which := if op0.Return? then ReturnMethod else if op0.Throw? then ThrowMethod else NextMethod;
      var (w, t0) := host.call(world, y, which, op0.value);
      world := w;
      if op0.Throw? && t0.Missing? {
        var (w2, closed) := host.call(world, y, ReturnMethod, Undefined);
        world := w2;
        if closed.Raised? {
          y := Undefined;
          return Again(Catch(closed.error));
        }
      }
      if t0.Raised? {
        y := Undefined;
        return Again(Catch(t0.error));
      }
      if t0.Item? && !t0.done {
        return Answer(Yielded(t0.value));
      }
      y := Undefined;
      if t0.Missing? {
        return Again(op0);
      }
      return Again(if op0.Return? then Return(t0.value) else Next(t0.value));
    }

    /** The default branch as a turn. */
    method Default(op: AbruptOp, ghost fuel: nat) returns (t: Turn)
      requires Ready(op) && y == Undefined
      modifies `pc, `trys, `ops, `alive, `c
      ensures Turned(op, fuel, t)
    {
      hide BodiesAllowed, ShapeOk, Sound, Nested, Closed, Enter, Unwind, Outline, Delegate;
      t := Transfer(op);
      assert Run(host, fuel, old(State()), op) == Deliver(host, fuel, old(State()), op);
      assert t.Again? ==> Run(host, fuel, State(), op) == Deliver(host, fuel, State(), op);
    }

    /** Case 4: the caller gets the value. */
    method Pause(v: Value, ghost fuel: nat) returns (t: Turn)
      requires Ready(Yield(v)) && y == Undefined
      modifies `pc, `c
      ensures Turned(Yield(v), fuel, t)
    {
      hide BodiesAllowed, ShapeOk, Sound, Nested, AtRest, Placed, Outline, Enter, Deliver, Delegate;
      pc := pc + 1;
      c := c.(pc := pc);
      return Answer(Yielded(v));
    }

    /** Case 5: the delegate is resumed in the next turn. */
    method Adopt(v: Value, ghost fuel: nat) returns (t: Turn)
      requires Ready(YieldStar(v)) && y == Undefined
      modifies `pc, `y, `c
      ensures Turned(YieldStar(v), fuel, t)
    {
      hide BodiesAllowed, ShapeOk, Sound, Nested, AtRest, Placed, Outline, Enter, Deliver, Delegate;
      RestIsPlaced(shape, c.(pc := pc + 1));
      pc, y := pc + 1, v;
      c := c.(pc := pc);
      return Again(Next(Undefined));
    }

    /** Case 7: the completion saved by the innermost frame goes on. */
    method EndOfFinally(ghost fuel: nat) returns (t: Turn)
      requires Ready(EndFinally) && y == Undefined
      modifies `trys, `ops, `c
      ensures Turned(EndFinally, fuel, t)
    {
      hide BodiesAllowed, ShapeOk, Sound, Nested, AtRest, Placed, Outline, Enter, Deliver, Delegate, MayTravel;
      FinishKeeps(shape, c);
      var saved := ops[|ops| - 1];
      ops, trys := Front(ops), Front(trys);
      c := Finish(c);
      return Again(saved);
    }

    /** The switch on the operation. */
    method Switch(op: Op, ghost fuel: nat) returns (t: Turn)
      requires Ready(op) && y == Undefined
      modifies `pc, `trys, `ops, `alive, `y, `c
      ensures Turned(op, fuel, t)
    {
      match op {
        case Next(v) =>
          Entering(op, fuel);
          return Continue(Normal(v));
        case Throw(e) =>
          Entering(op, fuel);
          return Continue(Raise(e));
        case Yield(v) => t := Pause(v, fuel);
        case YieldStar(v) => t := Adopt(v, fuel);
        case EndFinally => t := EndOfFinally(fuel);
        case _ => t := Default(op, fuel);
      }
    }

    /** Cases 0 and 1 run the body. */
    lemma {:induction false} Entering(op: Op, fuel: nat)
      requires Ready(op) && y == Undefined && (op.Next? || op.Throw?)
      ensures Run(host, fuel, State(), op) ==
        Enter(host, fuel, State(), if op.Next? then Normal(op.value) else Raise(op.value))
      ensures AtRest(shape, c)
    {
      hide BodiesAllowed, ShapeOk, Sound, Nested, AtRest, Placed, Outline, Enter, Deliver, Delegate;
    }

    /** One run of the body, on the state object. */
    method RunBody(sent: Sent, ghost fuel: nat) returns (op: Op)
      requires Linked() && ShapeOk(shape) && BodiesAllowed(host, shape) && alive && !unstarted
      requires AtRest(shape, c) && y == Undefined
      modifies `pc, `trys, `world, `c
      ensures Ready(op) && Enter(host, fuel + 1, old(State()), sent) == Run(host, fuel, State(), op)
    {
      hide BodiesAllowed, BodyAllowed, ShapeOk, AtRest, Pending, Run, Push, Frames, Saved;
      var b := host.body(world, pc, sent);
      AllowedAt(host, shape, world, c, sent);
      BodyKeeps(shape, State(), b);
      StacksPushed(c, b.frames);
      world, trys, pc, op := b.world, trys + b.frames, b.pc, b.op;
      c := Push(c, b.frames).(pc := pc);
    }

    /** One turn of the dispatch loop, up to the run of the body. */
    method Pass(op0: Op, ghost fuel: nat) returns (t: Turn)
      requires Ready(op0)
      modifies `pc, `trys, `ops, `alive, `y, `world, `c
      ensures Turned(op0, fuel, t)
    {
      hide BodiesAllowed, ShapeOk, Sound, Nested, Closed, Enter, Unwind, Outline, Delegate, Run, Pending;
      var op := op0;
      if Truthy(y) {
        t := Forward(op, fuel);
        if t.Answer? || t.op.Catch? {
          return;
        }
        op := t.op;
      }
      y := Undefined;
      t := Switch(op, fuel);
    }

    /** The dispatch loop.  Between two runs of the body it makes at most `|trys| + 4` turns:
        each pops a frame or settles the delegate. */
    method Loop(first: Op, budget: nat) returns (r: Outcome)
      requires Ready(first) && !f
      modifies this
      ensures Linked() && !unstarted && (f ==> alive)
      ensures (r, Model()) == Run(host, budget, old(State()), first)
    {
      hide BodiesAllowed, ShapeOk, Sound, Nested, Closed, Outline, Run, Pending, AtRest;
      var op, fuel := first, budget;
      while alive
        invariant !f && !unstarted && Linked()
        invariant alive ==> Ready(op) && Run(host, budget, old(State()), first) == Run(host, fuel, State(), op)
        invariant !alive ==> Closes(op) && Run(host, budget, old(State()), first) == (Closing(op), Model())
        decreases fuel, if alive then 1 + |trys| + Rank(y, op) else 0
      {
        f := true;
        var t := Pass(op, fuel);
        f := false;
        match t {
          case Answer(o) => return o;
          case Halt(op2) => op := op2;
          case Again(op2) => op := op2;
          case Continue(sent) =>
            f := true;
            if fuel == 0 {
              return Unfinished;
            }
            fuel := fuel - 1;
            op := RunBody(sent, fuel);
            f := false;
        }
      }
      return Closing(op);
    }

    /** One call of next, throw or return.  A finished generator, and a new one whose first call is
        not next, answers without running anything. */
    method Step(first: Op, budget: nat) returns (r: Outcome)
      requires Valid() && Resumption(first)
      modifies this
      ensures Valid()
      ensures (r, Model()) == Resume(host, budget, old(Model()), first)
      ensures old(Model().status.Done? || (Model().status.Fresh? && !first.Next?)) ==>
        && Model() == old(Model()).(status := Done)
        && r == if first.Next? then Completed(Undefined) else if first.Throw? then Threw(first.value)
                else Completed(first.value)
    {
      if f {
        return Threw(ALREADY_EXECUTING);
      }
      if unstarted {
        unstarted := false;
        if !first.Next? {
          alive := false;
        }
      }
      if !alive {
        return Closing(first);
      }
      RestIsPlaced(shape, c);
      hide BodiesAllowed, ShapeOk, Sound, Nested, Closed, Outline, Run;
      RunIsSafe(host, shape, budget, State(), first);
      r := Loop(first, budget);
    }
  }

  /** One step of unwinding. */
  lemma {:induction false} UnwindOnce(op: AbruptOp, c: Control)
    ensures Unwind(op, c) ==
      if c.stack == [] then (if op.Break? then Jumped(c.(pc := op.target)) else Escaped(c))
      else if op.Break? && Inside(Top(c.stack).frame, op.target) then Jumped(c.(pc := op.target))
      else if op.Catch? && CanCatch(Top(c.stack)) then Handled(EnterCatch(c))
      else if OwesFinally(Top(c.stack)) then Deferred(EnterFinally(c, op))
      else Unwind(op, Leave(c, op))
  {
  }

  /** The label tells the phase of the innermost frame. */
  lemma PhaseAtLabel(s: Shape, c: Control)
    requires Placed(s, c) && c.stack != []
    ensures var t := Top(c.stack);
      && Frames(c.stack)[|c.stack| - 1] == t.frame
      && (CanCatch(t) <==> Before(c.pc, t.frame.handler))
      && (t.phase.Finalizing? <==> t.frame.finalizer.Some? && !Before(c.pc, t.frame.finalizer))
  {
  }

  lemma {:induction false} StacksAfter(stack: seq<Live>, p: Phase)
    requires stack != [] && !Top(stack).phase.Finalizing?
    ensures var r := Front(stack) + [Top(stack).(phase := p)];
      Frames(r) == Frames(stack) && Saved(r) == Saved(stack) + if p.Finalizing? then [p.saved] else []
  {
    assert Front(Front(stack) + [Top(stack).(phase := p)]) == Front(stack);
  }

  lemma {:induction false} StacksPushed(c: Control, frames: seq<Frame>)
    ensures Frames(Push(c, frames).stack) == Frames(c.stack) + frames
    ensures Saved(Push(c, frames).stack) == Saved(c.stack)
    decreases |frames|
  {
    if frames != [] {
      var r := Push(c, Front(frames));
      StacksPushed(c, Front(frames));
      assert Front(Push(c, frames).stack) == r.stack;
    }
  }
}
