/** Try frames as the language sees them: one stack of open try statements, each in a
    known phase and each owning the completion that its own finally has to resume.
    The run-time keeps neither; it has two separate stacks and a label.  This module is the
    reference the run-time is proved against. */
module TryFrames {
  import opened JsValues
  import opened Options
  import opened Sequences

  /** The record `[start, catch, finally, end]` pushed by a lowered body. */
  datatype Frame = Frame(start: nat, handler: Option<nat>, finalizer: Option<nat>, end: nat)

  /** The operations of the dispatch loop, in the order of their codes 0 to 7. */
  datatype Op =
    | Next(value: Value)
    | Throw(value: Value)
    | Return(value: Value)
    | Break(target: nat)
    | Yield(value: Value)
    | YieldStar(value: Value)
    | Catch(value: Value)
    | EndFinally

  predicate Abrupt(op: Op) {
    op.Return? || op.Break? || op.Catch?
  }

  predicate Resumption(op: Op) {
    op.Next? || op.Throw? || op.Return?
  }

  type AbruptOp = op: Op | Abrupt(op) witness Break(0)

  datatype Phase = Trying | Handling | Finalizing(saved: AbruptOp)

  /** An open try statement.  The `id` numbers the frames of a run in order of entry. */
  datatype Live = Live(id: nat, frame: Frame, phase: Phase)

  datatype Event =
    | Entered(id: nat, frame: Frame)
    | Caught(id: nat)
    | Finally(id: nat, saved: AbruptOp)
    | Left(id: nat, op: AbruptOp)       // an abrupt completion crosses the frame
    | Finished(id: nat, op: AbruptOp)   // the finally block ran to its end

  datatype Control = Control(pc: nat, stack: seq<Live>, entered: nat, log: seq<Event>)

  /** Where an abrupt completion comes to rest: at the label a break names, in a catch
      block, in a finally block that has to run first, or outside the whole body. */
  datatype Landing = Jumped(c: Control) | Handled(c: Control) | Deferred(c: Control) | Escaped(c: Control)

  predicate Inside(f: Frame, l: nat) {
    f.start < l < f.end
  }

  function Top(stack: seq<Live>): Live
    requires stack != []
  {
    stack[|stack| - 1]
  }

  predicate CanCatch(t: Live) {
    t.phase.Trying? && t.frame.handler.Some?
  }

  predicate OwesFinally(t: Live) {
    !t.phase.Finalizing? && t.frame.finalizer.Some?
  }

  /** True if the completion `op` stops at frame `t` and does not leave it. */
  predicate Catches(t: Live, op: AbruptOp) {
    || (op.Break? && t.frame.start < op.target < t.frame.end)
    || (op.Catch? && CanCatch(t))
  }

  function Push(c: Control, frames: seq<Frame>): Control
    decreases |frames|
  {
    if frames == [] then c else
      var r := Push(c, Front(frames));
      var f := frames[|frames| - 1];
      Control(r.pc, r.stack + [Live(r.entered, f, Trying)], r.entered + 1, r.log + [Entered(r.entered, f)])
  }

  function Leave(c: Control, op: AbruptOp): Control
    requires c.stack != []
  {
    c.(stack := Front(c.stack), log := c.log + [Left(Top(c.stack).id, op)])
  }

  function Finish(c: Control): Control
    requires c.stack != [] && Top(c.stack).phase.Finalizing?
  {
    c.(stack := Front(c.stack), log := c.log + [Finished(Top(c.stack).id, Top(c.stack).phase.saved)])
  }

  function EnterCatch(c: Control): Control
    requires c.stack != [] && CanCatch(Top(c.stack))
  {
    var t := Top(c.stack);
    c.(pc := t.frame.handler.value, stack := Front(c.stack) + [t.(phase := Handling)], log := c.log + [Caught(t.id)])
  }

  function EnterFinally(c: Control, op: AbruptOp): Control
    requires c.stack != [] && OwesFinally(Top(c.stack))
  {
    var t := Top(c.stack);
    c.(pc := t.frame.finalizer.value, stack := Front(c.stack) + [t.(phase := Finalizing(op))],
       log := c.log + [Finally(t.id, op)])
  }

  /** Deliver an abrupt completion: unwind until a frame stops it or owes its finally. */
  function Unwind(op: AbruptOp, c: Control): (r: Landing)
    ensures r.Escaped? ==> r.c.stack == [] && !op.Break?
    ensures r.Handled? ==> op.Catch?
    decreases |c.stack|
  {
    if c.stack == [] then
      if op.Break? then Jumped(c.(pc := op.target)) else Escaped(c)
    else
      var t := Top(c.stack);
      if op.Break? && Inside(t.frame, op.target) then Jumped(c.(pc := op.target))
      else if op.Catch? && CanCatch(t) then Handled(EnterCatch(c))
      else if OwesFinally(t) then Deferred(EnterFinally(c, op))
      else Unwind(op, Leave(c, op))
  }

  // ----- Replaying an event log on a single stack -----

  /** The frames open after some events, and how many were entered so far. */
  datatype Scene = Scene(stack: seq<Live>, entered: nat)

  /** The rules of the language for one event; None if the event breaks them.  Only the
      innermost frame may act.  It is left by a completion only after its finally was
      entered, and never by a completion it should have stopped while in its try block. */
  function Apply(s: Scene, e: Event): Option<Scene> {
    match e
    case Entered(id, frame) =>
      if id == s.entered then Some(Scene(s.stack + [Live(id, frame, Trying)], s.entered + 1)) else None
    case _ =>
      if s.stack == [] || Top(s.stack).id != e.id then None else
        var t, below := Top(s.stack), Front(s.stack);
        match e
        case Caught(_) =>
          if CanCatch(t) then Some(s.(stack := below + [t.(phase := Handling)])) else None
        case Finally(_, op) =>
          if OwesFinally(t) && !Catches(t, op) then Some(s.(stack := below + [t.(phase := Finalizing(op))])) else None
        case Left(_, op) =>
          if !OwesFinally(t) && !Catches(t, op) then Some(s.(stack := below)) else None
        case Finished(_, op) =>
          if t.phase == Finalizing(op) then Some(s.(stack := below)) else None
  }

  /** The scene a log leads to, or None if some event in it was illegal. */
  function Replay(log: seq<Event>): Option<Scene>
    decreases |log|
  {
    if log == [] then Some(Scene([], 0)) else
      match Replay(Front(log))
      case None => None
      case Some(s) => Apply(s, log[|log| - 1])
  }

  /** The log explains the stack: every event in it was legal and it leads exactly here. */
  predicate Explained(c: Control) {
    Replay(c.log) == Some(Scene(c.stack, c.entered))
  }

  lemma {:induction false} ReplayAppend(log: seq<Event>, e: Event)
    ensures Replay(log + [e]) == match Replay(log) case None => None case Some(s) => Apply(s, e)
  {
    assert Front(log + [e]) == log;
  }

  lemma {:induction false} PushExplained(c: Control, frames: seq<Frame>)
    requires Explained(c)
    ensures Explained(Push(c, frames))
    decreases |frames|
  {
    if frames != [] {
      PushExplained(c, Front(frames));
      var r := Push(c, Front(frames));
      ReplayAppend(r.log, Entered(r.entered, frames[|frames| - 1]));
    }
  }

  lemma {:induction false} UnwindExplained(op: AbruptOp, c: Control)
    requires Explained(c)
    ensures Explained(Unwind(op, c).c)
    decreases |c.stack|
  {
    hide Replay;
    if c.stack != [] {
      var t := Top(c.stack);
      if Catches(t, op) {
        ReplayAppend(c.log, Caught(t.id));
      } else if OwesFinally(t) {
        ReplayAppend(c.log, Finally(t.id, op));
      } else {
        ReplayAppend(c.log, Left(t.id, op));
        UnwindExplained(op, Leave(c, op));
      }
    }
  }

  lemma FinishExplained(c: Control)
    requires Explained(c) && c.stack != [] && Top(c.stack).phase.Finalizing?
    ensures Explained(Finish(c))
  {
    ReplayAppend(c.log, Finished(Top(c.stack).id, Top(c.stack).phase.saved));
  }

  // ----- What a legal log says about one frame -----

  function Runs(log: seq<Event>, id: nat): nat
    decreases |log|
  {
    if log == [] then 0 else
      var e := log[|log| - 1];
      Runs(Front(log), id) + if RunsFinally(e, id) then 1 else 0
  }

  function Exits(log: seq<Event>, id: nat): nat
    decreases |log|
  {
    if log == [] then 0 else
      var e := log[|log| - 1];
      Exits(Front(log), id) + if Leaves(e, id) then 1 else 0
  }

  ghost predicate Open(stack: seq<Live>, id: nat) {
    exists i :: 0 <= i < |stack| && stack[i].id == id
  }

  /** How often frame `id` must have run its finally and must have been left in scene `s`. */
  ghost predicate Ledger(s: Scene, id: nat, frame: Frame, runs: nat, exits: nat) {
    && (forall i :: 0 <= i < |s.stack| && s.stack[i].id == id ==>
         s.stack[i].frame == frame && runs == (if s.stack[i].phase.Finalizing? then 1 else 0) && exits == 0)
    && (!Open(s.stack, id) ==> runs == (if frame.finalizer.Some? then 1 else 0) && exits == 1)
  }

  ghost predicate Ordered(s: Scene) {
    && (forall i :: 0 <= i < |s.stack| ==> s.stack[i].id < s.entered)
    && (forall i, j :: 0 <= i < j < |s.stack| ==> s.stack[i].id < s.stack[j].id)
    && (forall i :: 0 <= i < |s.stack| && s.stack[i].phase.Finalizing? ==> s.stack[i].frame.finalizer.Some?)
  }

  lemma ApplyOrdered(s: Scene, e: Event)
    requires Ordered(s) && Apply(s, e).Some?
    ensures Ordered(Apply(s, e).value) && s.entered <= Apply(s, e).value.entered
  {
  }

  lemma {:induction false} ReplayOrdered(log: seq<Event>)
    requires Replay(log).Some?
    ensures Ordered(Replay(log).value)
    decreases |log|
  {
    if log != [] {
      ReplayOrdered(Front(log));
      ApplyOrdered(Replay(Front(log)).value, log[|log| - 1]);
    }
  }

  predicate RunsFinally(e: Event, id: nat) {
    e.Finally? && e.id == id
  }

  predicate Leaves(e: Event, id: nat) {
    (e.Left? || e.Finished?) && e.id == id
  }

  lemma ApplyLedger(s: Scene, e: Event, id: nat, frame: Frame, runs: nat, exits: nat)
    requires Ordered(s) && Apply(s, e).Some? && id < s.entered && Ledger(s, id, frame, runs, exits)
    ensures Ledger(Apply(s, e).value, id, frame, runs + (if RunsFinally(e, id) then 1 else 0),
                   exits + (if Leaves(e, id) then 1 else 0))
  {
    var s' := Apply(s, e).value;
    if e.Entered? {
      assert forall i :: 0 <= i < |s.stack| ==> s'.stack[i] == s.stack[i];
    } else {
      var n := |s.stack| - 1;
      assert s.stack[n] == Top(s.stack);
      assert forall i :: 0 <= i < n ==> s'.stack[i] == s.stack[i];
      assert |s'.stack| > n ==> s'.stack[n].id == s.stack[n].id;
    }
  }

  /** Whatever happened in a run: a frame that is still open has entered its finally at most
      once, and then sits in it; a frame that is gone was left exactly once and entered its
      finally, if it has one, exactly once. */
  lemma {:induction false} EveryFinallyRunsOnce(log: seq<Event>, k: nat)
    requires Replay(log).Some? && k < |log| && log[k].Entered?
    ensures log[k].id < Replay(log).value.entered
    ensures Ledger(Replay(log).value, log[k].id, log[k].frame, Runs(log, log[k].id), Exits(log, log[k].id))
    decreases |log|
  {
    var id := log[k].id;
    ReplayOrdered(Front(log));
    if k == |log| - 1 {
      NotYetEntered(Front(log), id);
      assert Top(Replay(log).value.stack).id == id;
    } else {
      EveryFinallyRunsOnce(Front(log), k);
      ApplyLedger(Replay(Front(log)).value, log[|log| - 1], id, log[k].frame,
                  Runs(Front(log), id), Exits(Front(log), id));
    }
  }

  lemma {:induction false} NotYetEntered(log: seq<Event>, id: nat)
    requires Replay(log).Some? && Replay(log).value.entered <= id
    ensures Runs(log, id) == 0 && Exits(log, id) == 0
    decreases |log|
  {
    if log != [] {
      ReplayOrdered(Front(log));
      NotYetEntered(Front(log), id);
    }
  }

  // ----- While a finally block runs -----

  /** The frames of `base` are still open as they were, or the innermost of them is gone. */
  ghost predicate Kept(s: Scene, base: seq<Live>)
    requires base != []
  {
    base <= s.stack || (!Open(s.stack, Top(base).id) && Top(base).id < s.entered)
  }

  /** Only the innermost frame may act, so what happens above a frame inside its finally leaves
      that frame, and all below it, alone. */
  lemma ApplyKeeps(s: Scene, e: Event, base: seq<Live>)
    requires Ordered(s) && Apply(s, e).Some? && base != [] && Top(base).phase.Finalizing? && Kept(s, base)
    ensures Kept(Apply(s, e).value, base)
  {
    var s', n := Apply(s, e).value, |base| - 1;
    if base <= s.stack {
      var m := |s.stack| - 1;
      if e.Entered? {
        assert base <= s'.stack;
      } else if |s.stack| > |base| {
        assert forall i :: 0 <= i < m ==> s'.stack[i] == s.stack[i];
        assert base <= s'.stack;
      } else {
        assert base == s.stack && s'.stack == Front(s.stack);
        assert forall i :: 0 <= i < n ==> s'.stack[i].id == s.stack[i].id < s.stack[n].id;
      }
    } else if !e.Entered? {
      assert forall i :: 0 <= i < |s'.stack| ==> s'.stack[i].id == s.stack[i].id;
    } else {
      assert forall i :: 0 <= i < |s.stack| ==> s'.stack[i] == s.stack[i];
    }
  }

  /** If the innermost frame of `base` is innermost again, nothing is open above it. */
  lemma KeptOnTop(s: Scene, base: seq<Live>)
    requires Ordered(s) && base != [] && Kept(s, base) && s.stack != [] && Top(s.stack).id == Top(base).id
    ensures s.stack == base
  {
    assert s.stack[|s.stack| - 1] == Top(s.stack);
    assert Open(s.stack, Top(base).id);
    assert s.stack[|base| - 1] == base[|base| - 1];
    assert |base| == |s.stack|;
  }

  lemma {:induction false} PrefixLegal(log: seq<Event>, n: nat)
    requires Replay(log).Some? && n <= |log|
    ensures Replay(log[..n]).Some?
    decreases |log|
  {
    if n == |log| {
      assert log[..n] == log;
    } else {
      assert Front(log)[..n] == log[..n];
      PrefixLegal(Front(log), n);
    }
  }

  lemma {:induction false} ReplayNext(log: seq<Event>, n: nat)
    requires Replay(log).Some? && n < |log|
    ensures Replay(log[..n]).Some? && Apply(Replay(log[..n]).value, log[n]).Some?
    ensures Replay(log[..n + 1]) == Apply(Replay(log[..n]).value, log[n])
    ensures Ordered(Replay(log[..n]).value)
  {
    hide Apply;
    PrefixLegal(log, n);
    PrefixLegal(log, n + 1);
    ReplayOrdered(log[..n]);
    assert log[..n + 1] == log[..n] + [log[n]];
    ReplayAppend(log[..n], log[n]);
  }

  lemma KeptAtFirst(s: Scene)
    requires s.stack != []
    ensures Kept(s, s.stack)
  {
  }

  lemma {:induction false} KeptUntil(log: seq<Event>, k: nat, n: nat)
    requires Replay(log).Some? && k <= n <= |log| && Replay(log[..k]).Some?
    requires var base := Replay(log[..k]).value.stack; base != [] && Top(base).phase.Finalizing?
    ensures Replay(log[..n]).Some? && Kept(Replay(log[..n]).value, Replay(log[..k]).value.stack)
    decreases n
  {
    hide Apply, Replay, Kept;
    if k == n {
      KeptAtFirst(Replay(log[..k]).value);
    } else {
      KeptUntil(log, k, n - 1);
      ReplayNext(log, n - 1);
      ApplyKeeps(Replay(log[..n - 1]).value, log[n - 1], Replay(log[..k]).value.stack);
    }
  }

  lemma FinallyOpens(s: Scene, e: Event)
    requires e.Finally? && Apply(s, e).Some?
    ensures var base := Apply(s, e).value.stack;
      base != [] && Top(base).id == e.id && Top(base).phase == Finalizing(e.saved)
  {
  }

  lemma FinishedCloses(s: Scene, e: Event)
    requires e.Finished? && Apply(s, e).Some?
    ensures s.stack != [] && Top(s.stack).id == e.id && Top(s.stack).phase == Finalizing(e.op)
  {
  }

  /** When a finally block that was entered at event `k` ends at event `n`, the open frames are
      just those that were open when it was entered, whatever frames the block opened and left
      meanwhile, and the completion that goes on is the one that was saved. */
  lemma {:induction false} FinallyEndsWhereItBegan(log: seq<Event>, k: nat, n: nat)
    requires Replay(log).Some? && k < n < |log|
    requires log[k].Finally? && log[n].Finished? && log[n].id == log[k].id
    ensures Replay(log[..k + 1]).Some? && Replay(log[..n]).Some?
    ensures Replay(log[..n]).value.stack == Replay(log[..k + 1]).value.stack
    ensures log[n].op == log[k].saved
  {
    hide Apply, Replay, Kept, Ordered;
    ReplayNext(log, k);
    ReplayNext(log, n);
    FinallyOpens(Replay(log[..k]).value, log[k]);
    FinishedCloses(Replay(log[..n]).value, log[n]);
    KeptUntil(log, k + 1, n);
    KeptOnTop(Replay(log[..n]).value, Replay(log[..k + 1]).value.stack);
  }

  /** The same for two states of a run: at the end of its finally block a frame finds the stack
      that entering the block left, so the completion goes on from there as if the block had
      ended at once. */
  lemma ResumesInPlace(c0: Control, c: Control, op: AbruptOp)
    requires Explained(c0) && c0.stack != [] && OwesFinally(Top(c0.stack))
    requires Explained(c) && EnterFinally(c0, op).log <= c.log
    requires c.stack != [] && Top(c.stack).id == Top(c0.stack).id && Top(c.stack).phase.Finalizing?
    requires !Catches(Top(c0.stack), op)
    ensures c.stack == EnterFinally(c0, op).stack && Top(c.stack).phase.saved == op
    ensures Finish(c).stack == Below(op, c0).stack
  {
    var c1 := EnterFinally(c0, op);
    ReplayAppend(c0.log, Finally(Top(c0.stack).id, op));
    var k, n := |c0.log|, |c.log|;
    assert c.log[..k + 1] == c1.log && c.log[..n] == c.log;
    assert Explained(c1);
    KeptUntil(c.log, k + 1, n);
    ReplayOrdered(c.log);
    KeptOnTop(Replay(c.log).value, c1.stack);
  }

  // ----- Where a completion lands, and which finally blocks it crosses -----

  /** The innermost frame that stops `op`, as an index; -1 if none does. */
  function Target(stack: seq<Live>, op: AbruptOp): (t: int)
    ensures -1 <= t < |stack|
    ensures t >= 0 ==> Catches(stack[t], op)
    ensures forall i :: t < i < |stack| ==> !Catches(stack[i], op)
    decreases |stack|
  {
    if stack == [] then -1
    else if Catches(Top(stack), op) then |stack| - 1
    else Target(Front(stack), op)
  }

  /** The finally labels owed by the frames above `t`, innermost first. */
  function Owed(stack: seq<Live>, t: int): seq<nat>
    requires -1 <= t < |stack|
    decreases |stack|
  {
    if t == |stack| - 1 then []
    else (if OwesFinally(Top(stack)) then [Top(stack).frame.finalizer.value] else []) + Owed(Front(stack), t)
  }

  /** The route of `op` when every finally block it enters runs to its end: the labels of
      the finally blocks entered on the way, in order, and the landing after the last one. */
  function Journey(op: AbruptOp, c: Control): (seq<nat>, Landing)
    decreases |c.stack|
  {
    DeferredShape(op, c);
    var r := Unwind(op, c);
    if r.Deferred? then
      var (labels, last) := Journey(op, Finish(r.c));
      ([r.c.pc] + labels, last)
    else ([], r)
  }

  lemma {:induction false} DeferredShape(op: AbruptOp, c: Control)
    ensures var r := Unwind(op, c);
      r.Deferred? ==> 0 < |r.c.stack| <= |c.stack| && Top(r.c.stack).phase == Finalizing(op)
    decreases |c.stack|
  {
    if c.stack != [] && !Catches(Top(c.stack), op) && !OwesFinally(Top(c.stack)) {
      DeferredShape(op, Leave(c, op));
    }
  }

  function Below(op: AbruptOp, c: Control): Control
    requires c.stack != []
  {
    if OwesFinally(Top(c.stack)) then Finish(EnterFinally(c, op)) else Leave(c, op)
  }

  lemma {:induction false} JourneyStep(op: AbruptOp, c: Control)
    requires c.stack != [] && !Catches(Top(c.stack), op)
    ensures var (labels, last) := Journey(op, Below(op, c));
      Journey(op, c) ==
        (if OwesFinally(Top(c.stack)) then [Top(c.stack).frame.finalizer.value] + labels else labels, last)
    ensures Below(op, c).stack == Front(c.stack)
  {
  }

  /** With no frame to cross, the completion takes effect where it is. */
  lemma {:induction false} LandsAtOnce(op: AbruptOp, c: Control)
    requires c.stack == [] || Catches(Top(c.stack), op)
    ensures Journey(op, c).0 == []
    ensures var last := Journey(op, c).1;
      if c.stack == [] then
        last.c.stack == [] && (if op.Break? then last.Jumped? && last.c.pc == op.target else last.Escaped?)
      else if op.Break? then
        last.Jumped? && last.c.stack == c.stack && last.c.pc == op.target
      else
        && op.Catch? && last.Handled? && CanCatch(Top(c.stack)) && last.c.pc == Top(c.stack).frame.handler.value
        && last.c.stack == Front(c.stack) + [Top(c.stack).(phase := Handling)]
  {
  }

  /** A completion crosses exactly the frames above the innermost one that stops it, runs
      each finally it owes there once, innermost first, and only then takes effect. */
  lemma {:induction false} CompletionsLandInnermostFirst(op: AbruptOp, c: Control)
    ensures var t := Target(c.stack, op);
      var (labels, last) := Journey(op, c);
      && labels == Owed(c.stack, t)
      && (if t < 0 then
            last.c.stack == [] && (if op.Break? then last.Jumped? && last.c.pc == op.target else last.Escaped?)
          else if op.Break? then
            last.Jumped? && last.c.stack == c.stack[..t + 1] && last.c.pc == op.target
          else
            && op.Catch? && last.Handled? && last.c.pc == c.stack[t].frame.handler.value
            && last.c.stack == c.stack[..t] + [c.stack[t].(phase := Handling)])
    decreases |c.stack|
  {
    hide Journey, Unwind, Below, Catches, OwesFinally;
    var t := Target(c.stack, op);
    if t == |c.stack| - 1 {
      LandsAtOnce(op, c);
    } else {
      JourneyStep(op, c);
      var below := Below(op, c);
      CompletionsLandInnermostFirst(op, below);
      if t >= 0 {
        assert below.stack[..t + 1] == c.stack[..t + 1] && below.stack[..t] == c.stack[..t];
      }
    }
  }

  /** Where and in what state a landing leaves the frames. */
  predicate SameLanding(l: Landing, m: Landing) {
    && l.c.stack == m.c.stack && (l.Jumped? <==> m.Jumped?) && (l.Handled? <==> m.Handled?)
    && (l.Escaped? <==> m.Escaped?) && (!l.Escaped? ==> l.c.pc == m.c.pc)
  }

  /** The route describes actual runs: if the first finally block on it is entered, and the run
      comes to the end of that block in state `c`, whatever happened inside it, then what is left
      of the route from there is the rest of it, with the same landing. */
  lemma {:induction false} JourneyGoesOn(c0: Control, c: Control, op: AbruptOp)
    requires Explained(c0) && c0.stack != [] && OwesFinally(Top(c0.stack)) && !Catches(Top(c0.stack), op)
    requires Explained(c) && EnterFinally(c0, op).log <= c.log
    requires c.stack != [] && Top(c.stack).id == Top(c0.stack).id && Top(c.stack).phase.Finalizing?
    ensures Top(c.stack).phase.saved == op
    ensures Journey(op, c0).0 == [Top(c0.stack).frame.finalizer.value] + Journey(op, Finish(c)).0
    ensures SameLanding(Journey(op, c0).1, Journey(op, Finish(c)).1)
  {
    hide Journey, Explained, Below;
    ResumesInPlace(c0, c, op);
    JourneyStep(op, c0);
    CompletionsLandInnermostFirst(op, Below(op, c0));
    CompletionsLandInnermostFirst(op, Finish(c));
  }
}
