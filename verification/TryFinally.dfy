/** The smallest body with a finally block: `try { return v; } finally { count++; }`, lowered to
    three labels.  It is well-formed, so all that is proved of well-formed bodies holds of it. */
module TryFinally {
  import opened JsValues
  import opened Options
  import opened Sequences
  import opened TryFrames
  import opened GeneratorSpec
  import opened OneFrame

  const TRY := Frame(0, None, Some(1), 2)

  const SHAPE := Shape(3, (l: nat) => if l == 1 then [Place(TRY, FinallyRegion)] else [])

  function Body(v: Value, count: nat, pc: nat): BodyRun<nat> {
    if pc == 0 then BodyRun(count, [TRY], 0, Return(v))
    else if pc == 1 then BodyRun(count + 1, [], 1, EndFinally)
    else BodyRun(count, [], 2, Return(Undefined))
  }

  function Counting(v: Value): Host<nat> {
    Host((count: nat, pc: nat, sent: Sent) => Body(v, count, pc),
         (count: nat, y: Value, m: Method, w: Value) => (count, Missing))
  }

  lemma TryCloses()
    ensures AllClosed(SHAPE, Around(TRY, TryRegion), 0)
  {
    AroundIs(TRY, TryRegion);
    assert [] + Around(TRY, FinallyRegion) == Around(TRY, FinallyRegion);
  }

  lemma Label0(count: nat, v: Value)
    ensures BodyAllowed(SHAPE, 0, Body(v, count, 0))
  {
    hide Nested, AllClosed, Opened;
    AroundNests(TRY, 0);
    TryCloses();
    NothingOpened(TRY, []);
  }

  lemma Label1(count: nat, v: Value)
    ensures BodyAllowed(SHAPE, 1, Body(v, count, 1))
  {
    hide Nested, AllClosed, Opened;
    AroundNests(TRY, 1);
    OpenBefore(SHAPE, Around(TRY, FinallyRegion));
    NothingOpened(TRY, Around(TRY, FinallyRegion));
  }

  lemma Label2(count: nat, v: Value)
    ensures BodyAllowed(SHAPE, 2, Body(v, count, 2))
  {
    hide Nested, AllClosed, Opened;
    OutsideNests(2);
    OpenBefore(SHAPE, []);
    NothingOpened(TRY, []);
  }

  lemma ShapeIsOk()
    ensures ShapeOk(SHAPE)
  {
    hide Nested;
    AroundNests(TRY, 1);
    OutsideNests(0);
    OutsideNests(2);
    assert SHAPE.at(1) == Around(TRY, FinallyRegion) && SHAPE.at(0) == SHAPE.at(2) == [];
  }

  lemma CountingIsWellFormed(v: Value)
    ensures WellFormed(Counting(v), SHAPE)
  {
    hide BodyAllowed, ShapeOk, Body;
    ShapeIsOk();
    forall count: nat, l: nat, sent: Sent | l < 3
      ensures BodyAllowed(SHAPE, l, Counting(v).body(count, l, sent))
    {
      Label0(count, v);
      Label1(count, v);
      Label2(count, v);
    }
  }

  // ----- Its run -----

  function Amid(c: Control, count: nat): Gen<nat> {
    Gen(GeneratorSpec.Running, c, Undefined, count)
  }

  function InTry(): Control {
    Control(0, [Live(0, TRY, Trying)], 1, [Entered(0, TRY)])
  }

  function InFinally(v: Value): Control {
    Control(1, [Live(0, TRY, Finalizing(Return(v)))], 1, [Entered(0, TRY), Finally(0, Return(v))])
  }

  lemma {:induction false} EntersTry(v: Value, count: nat, fuel: nat)
    requires fuel >= 1
    ensures Run(Counting(v), fuel, Amid(Control(0, [], 0, []), count), Next(Undefined)) ==
            Deliver(Counting(v), fuel - 1, Amid(InTry(), count), Return(v))
  {
    var c := Control(0, [], 0, []);
    hide Deliver, Delegate;
    assert Front([TRY]) == [] && Push(c, []) == c;
    assert Push(c, [TRY]) == InTry();
    var g, b := Amid(c, count), Body(v, count, 0);
    assert AfterBody(g, b) == Amid(InTry(), count);
    assert Run(Counting(v), fuel, g, Next(Undefined)) == Enter(Counting(v), fuel, g, Normal(Undefined));
    assert Enter(Counting(v), fuel, g, Normal(Undefined)) == Run(Counting(v), fuel - 1, AfterBody(g, b), Return(v));
  }

  lemma {:induction false} RunsFinallyBlock(v: Value, count: nat, fuel: nat)
    requires fuel >= 1
    ensures Deliver(Counting(v), fuel, Amid(InTry(), count), Return(v)) ==
            Run(Counting(v), fuel - 1, Amid(InFinally(v), count + 1), EndFinally)
  {
    hide Run, Delegate;
    assert EnterFinally(InTry(), Return(v)) == InFinally(v);
    assert Unwind(Return(v), InTry()) == Deferred(InFinally(v));
  }

  lemma {:induction false} Returns(v: Value, count: nat, fuel: nat)
    ensures var (o, g) := Run(Counting(v), fuel, Amid(InFinally(v), count), EndFinally);
      o == Completed(v) && g.world == count && g.c.stack == []
      && g.c.log == [Entered(0, TRY), Finally(0, Return(v)), Finished(0, Return(v))]
  {
    hide Enter, Delegate;
    var c := Finish(InFinally(v));
    assert Unwind(Return(v), c) == Escaped(c);
    assert Run(Counting(v), fuel, Amid(InFinally(v), count), EndFinally) ==
      Deliver(Counting(v), fuel, Amid(c, count), Return(v));
  }

  /** The return takes effect after the finally block ran, once. */
  lemma FinallyRunsBeforeReturn(v: Value, count: nat, fuel: nat)
    requires fuel >= 2
    ensures var (o, g) := Resume(Counting(v), fuel, Initial(count), Next(Undefined));
      && o == Completed(v) && g.world == count + 1
      && g.c.log == [Entered(0, TRY), Finally(0, Return(v)), Finished(0, Return(v))]
  {
    hide Run, Deliver, InTry, InFinally;
    EntersTry(v, count, fuel);
    RunsFinallyBlock(v, count, fuel - 1);
    Returns(v, count + 1, fuel - 2);
  }
}
