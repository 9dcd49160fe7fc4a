/** What every step of a generator over a well-formed body keeps, and what follows for
    whole runs. */
module GeneratorSafety {
  import opened JsValues
  import opened Options
  import opened Sequences
  import opened TryFrames
  import opened GeneratorSpec

  /** The frames of the stack, innermost last: what the run-time keeps in `trys`. */
  function Frames(stack: seq<Live>): (r: seq<Frame>)
    ensures |r| == |stack|
  {
    if stack == [] then [] else Frames(Front(stack)) + [Top(stack).frame]
  }

  /** The completions saved by the frames that are inside their finally, in stack order: what
      the run-time keeps in `ops`. */
  function Saved(stack: seq<Live>): seq<Op> {
    if stack == [] then []
    else Saved(Front(stack)) + if Top(stack).phase.Finalizing? then [Top(stack).phase.saved] else []
  }

  function PhaseRegion(p: Phase): Region {
    match p
    case Trying => TryRegion
    case Handling => CatchRegion
    case Finalizing(_) => FinallyRegion
  }

  function Outline(stack: seq<Live>): (ps: seq<Place>)
    ensures |ps| == |stack|
    ensures forall i :: 0 <= i < |stack| ==> ps[i] == Place(stack[i].frame, PhaseRegion(stack[i].phase))
  {
    if stack == [] then []
    else Outline(Front(stack)) + [Place(Top(stack).frame, PhaseRegion(Top(stack).phase))]
  }

  /** A completion may travel down this stack: only a break has somewhere to be. */
  ghost predicate MayTravel(s: Shape, stack: seq<Live>, op: AbruptOp) {
    op.Break? ==> JumpAllowed(s, Outline(stack), op.target)
  }

  /** Every open frame has its catch and finally labels, and a saved completion that may
      travel on from where the frame stands. */
  ghost predicate Sound(s: Shape, stack: seq<Live>) {
    stack != [] ==>
      && Sound(s, Front(stack))
      && Closed(s, Outline(stack))
      && (Top(stack).phase.Finalizing? ==> MayTravel(s, Front(stack), Top(stack).phase.saved))
  }

  /** The label lies in just the part of each open frame that the frame is in. */
  ghost predicate Placed(s: Shape, c: Control) {
    c.pc < s.labels && Nested(Outline(c.stack), c.pc) && Sound(s, c.stack)
  }

  /** The body may be entered: the open frames are the ones around the label. */
  ghost predicate AtRest(s: Shape, c: Control) {
    c.pc < s.labels && Sound(s, c.stack) && Outline(c.stack) == s.at(c.pc)
  }

  /** Operation `op` may be carried out in this state. */
  ghost predicate Pending(s: Shape, c: Control, op: Op) {
    && Placed(s, c)
    && match op
       case Next(_) => AtRest(s, c)
       case Throw(_) => AtRest(s, c)
       case Yield(_) => AtRest(s, c.(pc := c.pc + 1))
       case YieldStar(_) => AtRest(s, c.(pc := c.pc + 1))
       case EndFinally => c.stack != [] && Top(c.stack).phase.Finalizing?
       case _ => MayTravel(s, c.stack, op)
  }

  /** Around the labels between two labels of a nest, the nest is the same. */
  lemma {:induction false} NestedBetween(ps: seq<Place>, a: nat, b: nat, l: nat)
    requires Nested(ps, a) && Nested(ps, b) && a <= l <= b
    ensures Nested(ps, l)
  {
  }

  // ----- One step -----

  lemma LeaveKeeps(s: Shape, c: Control, op: AbruptOp)
    requires Placed(s, c) && c.stack != []
    ensures Placed(s, Leave(c, op))
  {
    var f, ps := Top(c.stack).frame, Outline(Front(c.stack));
    assert Front(Outline(c.stack)) == ps;
    NestedBetween(ps, f.start, f.end, c.pc);
  }

  lemma SurroundsStrictly(s: Shape, l: nat)
    requires ShapeOk(s) && l < s.labels && s.at(l) != []
    ensures Inside(s.at(l)[|s.at(l)| - 1].frame, l)
  {
    assert s.at(l)[|s.at(l)| - 1] in s.at(l);
  }

  lemma TravelsOn(s: Shape, c: Control, op: AbruptOp)
    requires ShapeOk(s) && Placed(s, c) && c.stack != [] && MayTravel(s, c.stack, op)
    requires op.Break? ==> !Inside(Top(c.stack).frame, op.target)
    ensures MayTravel(s, Front(c.stack), op)
  {
    if op.Break? {
      var at, ps := s.at(op.target), Outline(c.stack);
      if at != [] {
        SurroundsStrictly(s, op.target);
      }
      assert Outline(Front(c.stack)) == Front(ps);
    }
  }

  lemma {:induction false} ChangePhase(s: Shape, stack: seq<Live>, p: Phase)
    requires stack != [] && Sound(s, stack)
    requires p.Finalizing? ==> MayTravel(s, Front(stack), p.saved)
    ensures var r := Front(stack) + [Top(stack).(phase := p)];
      Sound(s, r) && Outline(r) == Front(Outline(stack)) + [Place(Top(stack).frame, PhaseRegion(p))]
  {
    var r := Front(stack) + [Top(stack).(phase := p)];
    assert Front(r) == Front(stack) && Front(Outline(stack)) == Outline(Front(stack)) == Front(Outline(r));
  }

  lemma CatchLands(s: Shape, c: Control)
    requires Placed(s, c) && c.stack != [] && CanCatch(Top(c.stack))
    ensures AtRest(s, EnterCatch(c))
  {
    ChangePhase(s, c.stack, Handling);
  }

  lemma FinallyLands(s: Shape, c: Control, op: AbruptOp)
    requires Placed(s, c) && c.stack != [] && OwesFinally(Top(c.stack)) && MayTravel(s, Front(c.stack), op)
    ensures AtRest(s, EnterFinally(c, op))
  {
    ChangePhase(s, c.stack, Finalizing(op));
  }

  lemma JumpLands(s: Shape, c: Control, op: AbruptOp)
    requires Placed(s, c) && op.Break? && MayTravel(s, c.stack, op)
    requires c.stack == [] || Inside(Top(c.stack).frame, op.target)
    ensures AtRest(s, c.(pc := op.target))
  {
    assert s.at(op.target) == Outline(c.stack);
  }

  /** Unwinding brings a completion that may travel to a label whose surroundings are just
      the frames left open. */
  lemma {:induction false} UnwindLands(s: Shape, op: AbruptOp, c: Control)
    requires ShapeOk(s) && Placed(s, c) && MayTravel(s, c.stack, op)
    ensures Unwind(op, c).Escaped? || AtRest(s, Unwind(op, c).c)
    decreases |c.stack|
  {
    if op.Break? && (c.stack == [] || Inside(Top(c.stack).frame, op.target)) {
      JumpLands(s, c, op);
    } else if c.stack != [] {
      if op.Catch? && CanCatch(Top(c.stack)) {
        CatchLands(s, c);
      } else {
        TravelsOn(s, c, op);
        if OwesFinally(Top(c.stack)) {
          FinallyLands(s, c, op);
        } else {
          LeaveKeeps(s, c, op);
          UnwindLands(s, op, Leave(c, op));
        }
      }
    }
  }

  lemma FinishKeeps(s: Shape, c: Control)
    requires Placed(s, c) && c.stack != [] && Top(c.stack).phase.Finalizing?
    ensures Placed(s, Finish(c)) && MayTravel(s, Finish(c).stack, Top(c.stack).phase.saved)
  {
    LeaveKeeps(s, c, Top(c.stack).phase.saved);
  }

  lemma {:induction false} PushOneSound(s: Shape, stack: seq<Live>, t: Live)
    requires Sound(s, stack) && t.phase.Trying? && Closed(s, Outline(stack) + [Place(t.frame, TryRegion)])
    ensures Sound(s, stack + [t]) && Outline(stack + [t]) == Outline(stack) + [Place(t.frame, TryRegion)]
  {
    assert Front(stack + [t]) == stack && Top(stack + [t]) == t;
  }

  lemma {:induction false} PushSound(s: Shape, c: Control, frames: seq<Frame>)
    requires Sound(s, c.stack) && AllClosed(s, Outline(c.stack) + Opened(frames), |c.stack|)
    ensures Sound(s, Push(c, frames).stack) && Push(c, frames).pc == c.pc
    ensures Outline(Push(c, frames).stack) == Outline(c.stack) + Opened(frames)
    decreases |frames|
  {
    if frames == [] {
      assert Outline(c.stack) + [] == Outline(c.stack);
    } else {
      var f, before, qs := frames[|frames| - 1], Push(c, Front(frames)), Outline(c.stack) + Opened(Front(frames));
      var ps := Outline(c.stack) + Opened(frames);
      assert ps == qs + [Place(f, TryRegion)];
      assert Front(ps) == qs;
      PushSound(s, c, Front(frames));
      PushOneSound(s, before.stack, Live(before.entered, f, Trying));
    }
  }

  lemma BodyKeeps<S>(s: Shape, g: Gen<S>, b: BodyRun<S>)
    requires ShapeOk(s) && AtRest(s, g.c) && BodyAllowed(s, g.c.pc, b)
    ensures Pending(s, AfterBody(g, b).c, b.op)
  {
    hide ShapeOk, Push, Opened, Nested, Sound, Closed, AllClosed, Outline;
    PushSound(s, g.c, b.frames);
    var c := AfterBody(g, b).c;
    assert Placed(s, c);
    if c.stack != [] {
      assert Outline(c.stack)[|c.stack| - 1] == Place(Top(c.stack).frame, PhaseRegion(Top(c.stack).phase));
    }
  }

  lemma RestIsPlaced(s: Shape, c: Control)
    requires ShapeOk(s) && AtRest(s, c)
    ensures Placed(s, c)
  {
  }

  // ----- Whole calls -----

  /** A state a caller can see between calls. */
  ghost predicate Good<S>(s: Shape, g: Gen<S>) {
    match g.status
    case Fresh => g.c == Control(0, [], 0, []) && !Truthy(g.delegate)
    case Suspended => AtRest(s, g.c)
    case Running => AtRest(s, g.c)
    case Done => g.c.stack == []
  }

  /** A call came to an end it may come to, and left a good state. */
  ghost predicate Safe<S>(s: Shape, r: (Outcome, Gen<S>)) {
    && Good(s, r.1) && !r.0.Stuck? && !r.1.status.Fresh?
    && (r.0.Yielded? <==> r.1.status.Suspended?) && (r.0.Unfinished? <==> r.1.status.Running?)
  }

  lemma {:induction false} RunIsSafe<S(!new)>(h: Host<S>, s: Shape, fuel: nat, g: Gen<S>, op: Op)
    requires ShapeOk(s) && BodiesAllowed(h, s) && Pending(s, g.c, op)
    requires Truthy(g.delegate) ==> Resumption(op) && AtRest(s, g.c)
    ensures Safe(s, Run(h, fuel, g, op))
    decreases fuel, Rank(g.delegate, op) + 2
  {
    hide BodiesAllowed, ShapeOk, Sound, Nested, Outline, Enter, Deliver, Delegate;
    if Truthy(g.delegate) {
      DelegateIsSafe(h, s, fuel, g, op);
    } else {
      match op
      case Next(v) => EnterIsSafe(h, s, fuel, g, Normal(v));
      case Throw(e) => EnterIsSafe(h, s, fuel, g, Raise(e));
      case Yield(v) =>
      case YieldStar(y) =>
        var c' := g.c.(pc := g.c.pc + 1);
        RestIsPlaced(s, c');
        RunIsSafe(h, s, fuel, g.(c := c', delegate := Active(y)), Next(Undefined));
      case EndFinally =>
        FinishKeeps(s, g.c);
        RunIsSafe(h, s, fuel, g.(c := Finish(g.c)), Top(g.c.stack).phase.saved);
      case _ => DeliverIsSafe(h, s, fuel, g, op);
    }
  }

  lemma {:induction false} DelegateIsSafe<S(!new)>(h: Host<S>, s: Shape, fuel: nat, g: Gen<S>, op: Op)
    requires ShapeOk(s) && BodiesAllowed(h, s) && Resumption(op) && Truthy(g.delegate) && AtRest(s, g.c)
    ensures Safe(s, Run(h, fuel, g, op))
    decreases fuel, Rank(g.delegate, op) + 2, 0
  {
    hide BodiesAllowed, ShapeOk, Sound, Nested, Outline, Enter, Deliver, Unwind;
    RestIsPlaced(s, g.c);
    match Delegate(h, g.world, g.delegate, op)
    case Pass(w, v) =>
    case Fail(w, e) => DeliverIsSafe(h, s, fuel, g.(delegate := Undefined, world := w), Catch(e));
    case Over(w, op2) => RunIsSafe(h, s, fuel, g.(delegate := Undefined, world := w), op2);
  }

  lemma {:induction false} DeliverIsSafe<S(!new)>(h: Host<S>, s: Shape, fuel: nat, g: Gen<S>, op: AbruptOp)
    requires ShapeOk(s) && BodiesAllowed(h, s) && !Truthy(g.delegate) && Placed(s, g.c) && MayTravel(s, g.c.stack, op)
    ensures Safe(s, Deliver(h, fuel, g, op))
    decreases fuel, 1
  {
    hide BodiesAllowed, ShapeOk, Sound, Nested, Outline, Enter, Run, Push;
    UnwindLands(s, op, g.c);
    match Unwind(op, g.c)
    case Escaped(c) =>
    case Handled(c) => EnterIsSafe(h, s, fuel, g.(c := c), Normal(op.value));
    case Jumped(c) => EnterIsSafe(h, s, fuel, g.(c := c), Stale);
    case Deferred(c) => EnterIsSafe(h, s, fuel, g.(c := c), Stale);
  }

  lemma AllowedAt<S(!new)>(h: Host<S>, s: Shape, world: S, c: Control, sent: Sent)
    requires BodiesAllowed(h, s) && AtRest(s, c)
    ensures BodyAllowed(s, c.pc, h.body(world, c.pc, sent))
  {
    hide BodyAllowed;
  }

  lemma {:induction false} EnterIsSafe<S(!new)>(h: Host<S>, s: Shape, fuel: nat, g: Gen<S>, sent: Sent)
    requires ShapeOk(s) && BodiesAllowed(h, s) && !Truthy(g.delegate) && AtRest(s, g.c)
    ensures Safe(s, Enter(h, fuel, g, sent))
    decreases fuel, 0
  {
    hide BodiesAllowed, BodyAllowed, ShapeOk, AtRest, Pending, Push, Run, Deliver, Delegate;
    if fuel > 0 {
      var b := h.body(g.world, g.c.pc, sent);
      AllowedAt(h, s, g.world, g.c, sent);
      BodyKeeps(s, g, b);
      RunIsSafe(h, s, fuel - 1, AfterBody(g, b), b.op);
    }
  }

  // ----- Any sequence of calls on any body -----

  lemma {:induction false} RunExplained<S>(h: Host<S>, fuel: nat, g: Gen<S>, op: Op)
    requires Explained(g.c)
    ensures Explained(Run(h, fuel, g, op).1.c)
    decreases fuel, Rank(g.delegate, op) + 2
  {
    hide Explained, Enter, Deliver, Delegate;
    if Resumption(op) && Truthy(g.delegate) {
      match Delegate(h, g.world, g.delegate, op)
      case Pass(w, v) =>
      case Fail(w, e) => RunExplained(h, fuel, g.(delegate := Undefined, world := w), Catch(e));
      case Over(w, op2) => RunExplained(h, fuel, g.(delegate := Undefined, world := w), op2);
    } else {
      match op
      case Next(v) => EnterExplained(h, fuel, g, Normal(v));
      case Throw(e) => EnterExplained(h, fuel, g, Raise(e));
      case Yield(v) => MovedExplained(g.c);
      case YieldStar(y) =>
        MovedExplained(g.c);
        RunExplained(h, fuel, g.(c := g.c.(pc := g.c.pc + 1), delegate := Active(y)), Next(Undefined));
      case EndFinally =>
        if g.c.stack != [] && Top(g.c.stack).phase.Finalizing? {
          FinishExplained(g.c);
          RunExplained(h, fuel, g.(c := Finish(g.c)), Top(g.c.stack).phase.saved);
        }
      case _ => DeliverExplained(h, fuel, g, op);
    }
  }

  lemma MovedExplained(c: Control)
    requires Explained(c)
    ensures forall l :: Explained(c.(pc := l))
  {
  }

  lemma {:induction false} DeliverExplained<S>(h: Host<S>, fuel: nat, g: Gen<S>, op: AbruptOp)
    requires Explained(g.c)
    ensures Explained(Deliver(h, fuel, g, op).1.c)
    decreases fuel, 1
  {
    hide Explained, Enter;
    UnwindExplained(op, g.c);
    match Unwind(op, g.c)
    case Escaped(c) =>
    case Handled(c) => EnterExplained(h, fuel, g.(c := c), Normal(op.value));
    case Jumped(c) => EnterExplained(h, fuel, g.(c := c), Stale);
    case Deferred(c) => EnterExplained(h, fuel, g.(c := c), Stale);
  }

  lemma {:induction false} EnterExplained<S>(h: Host<S>, fuel: nat, g: Gen<S>, sent: Sent)
    requires Explained(g.c)
    ensures Explained(Enter(h, fuel, g, sent).1.c)
    decreases fuel, 0
  {
    if fuel > 0 {
      var b := h.body(g.world, g.c.pc, sent);
      PushExplained(g.c, b.frames);
      MovedExplained(Push(g.c, b.frames));
      hide Explained, Run, Push;
      RunExplained(h, fuel - 1, AfterBody(g, b), b.op);
    }
  }

  lemma ResumeIsSafe<S(!new)>(h: Host<S>, s: Shape, g: Gen<S>, call: Call)
    requires WellFormed(h, s) && Good(s, g) && Explained(g.c) && Resumption(call.op)
    ensures var (o, g') := Resume(h, call.fuel, g, call.op); !o.Stuck? && Good(s, g') && Explained(g'.c)
  {
    assert ShapeOk(s);
    if g.status.Suspended? || (g.status.Fresh? && call.op.Next?) {
      RestIsPlaced(s, g.c);
      hide WellFormed, ShapeOk, Explained, Run, Nested, Sound, Outline;
      RunIsSafe(h, s, call.fuel, g.(status := Running), call.op);
      RunExplained(h, call.fuel, g.(status := Running), call.op);
    }
  }

  lemma {:induction false} RepliesAreSafe<S(!new)>(h: Host<S>, s: Shape, g: Gen<S>, calls: seq<Call>)
    requires WellFormed(h, s) && Good(s, g) && Explained(g.c) && Callable(calls)
    ensures var (os, g') := Replies(h, g, calls); Good(s, g') && Explained(g'.c) && forall o :: o in os ==> !o.Stuck?
    decreases |calls|
  {
    if calls != [] {
      ResumeIsSafe(h, s, g, calls[0]);
      var (o, g1) := Resume(h, calls[0].fuel, g, calls[0].op);
      hide WellFormed, Explained, Good, Resume;
      RepliesAreSafe(h, s, g1, calls[1..]);
    }
  }

  /** Every run of a well-formed body, whatever calls drive it and whatever the body and its
      delegates do: end-finally always finds its own saved completion, every event of the run
      obeys the rules of try statements, and a finished run has left every frame it entered,
      having run the finally of each frame that has one exactly once. */
  lemma {:induction false} EveryRunIsSafe<S(!new)>(h: Host<S>, s: Shape, world: S, calls: seq<Call>)
    requires WellFormed(h, s) && Callable(calls)
    ensures var (os, g) := Replies(h, Initial(world), calls);
      && (forall o :: o in os ==> !o.Stuck?)
      && Good(s, g) && Explained(g.c)
      && (g.status.Done? ==> forall k :: 0 <= k < |g.c.log| && g.c.log[k].Entered? ==>
           && Exits(g.c.log, g.c.log[k].id) == 1
           && Runs(g.c.log, g.c.log[k].id) == if g.c.log[k].frame.finalizer.Some? then 1 else 0)
  {
    RepliesAreSafe(h, s, Initial(world), calls);
    var g := Replies(h, Initial(world), calls).1;
    if g.status.Done? {
      forall k | 0 <= k < |g.c.log| && g.c.log[k].Entered?
        ensures Exits(g.c.log, g.c.log[k].id) == 1
        ensures Runs(g.c.log, g.c.log[k].id) == if g.c.log[k].frame.finalizer.Some? then 1 else 0
      {
        EveryFinallyRunsOnce(g.c.log, k);
      }
    }
  }

  /** In every run of a well-formed body: when a finally block ends, the open frames are those
      that were open when it was entered, and the completion that was saved then goes on. */
  lemma {:induction false} EveryFinallyEndsWhereItBegan<S(!new)>(h: Host<S>, s: Shape, world: S, calls: seq<Call>,
                                                                 k: nat, n: nat)
    requires WellFormed(h, s) && Callable(calls)
    requires var log := Replies(h, Initial(world), calls).1.c.log;
      k < n < |log| && log[k].Finally? && log[n].Finished? && log[n].id == log[k].id
    ensures var log := Replies(h, Initial(world), calls).1.c.log;
      && Replay(log[..k + 1]).Some? && Replay(log[..n]).Some?
      && Replay(log[..n]).value.stack == Replay(log[..k + 1]).value.stack
      && log[n].op == log[k].saved
  {
    hide WellFormed, Replies, Replay;
    EveryRunIsSafe(h, s, world, calls);
    FinallyEndsWhereItBegan(Replies(h, Initial(world), calls).1.c.log, k, n);
  }
}
