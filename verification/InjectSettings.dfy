/** The handler that injects the public settings into the page: the structured async
    function, the labelled body it was lowered to, and the proof that they agree. */
module InjectSettings {
  import opened JsValues
  import opened Options
  import opened Sequences
  import opened TryFrames
  import opened GeneratorSpec
  import opened GeneratorMachine
  import opened OneFrame
  import opened Awaiter

  /** The operations that leave the handler.  Any of them may give a value or throw. */
  datatype Act =
    | Timeout(ms: nat)
    | Fetch(url: string, signal: Value)
    | Await(promise: Value)
    | Get(object: Value, name: string)
    | Invoke(object: Value, name: string)
    | Stringify(value: Value)
    | Replace(html: Value, pattern: string, replacement: string)
    | Warn(text: string, detail: Value)

  /** The environment: how an operation turns out, given all operations up to it. */
  type Oracle = seq<Act> -> Result

  /** An operation performed: the history it leaves and its value or error. */
  datatype Step<T> = Ok(history: seq<Act>, value: T) | Thrown(history: seq<Act>, error: Value) {
    predicate IsFailure() {
      Thrown?
    }

    function PropagateFailure<U>(): Step<U>
      requires Thrown?
    {
      Thrown(history, error)
    }

    function Extract(): (seq<Act>, T)
      requires Ok?
    {
      (history, value)
    }
  }

  function Do(o: Oracle, history: seq<Act>, a: Act): Step<Value> {
    var h := history + [a];
    match o(h)
    case Fulfilled(v) => Ok(h, v)
    case Failed(e) => Thrown(h, e)
  }

  datatype Input = Input(url: string, html: Value, text: Value -> string)

  const WARNING := "[vite] 无法获取公开配置，将回退到 API 调用:"

  function Script(i: Input, json: Value): string {
    "<script>window.__APP_CONFIG__=" + i.text(json) + ";</script>"
  }

  // ----- The structured handler -----

  /** The try block: Some(page) if it returns, None if it runs to its end. */
  function TryBlock(o: Oracle, i: Input): Step<Option<Value>> {
    var (h, signal) :- Do(o, [], Timeout(2000));
    var (h, promise) :- Do(o, h, Fetch(i.url + "/api/v1/settings/public", signal));
    var (h, response) :- Do(o, h, Await(promise));
    OuterIf(o, i, h, response)
  }

  function OuterIf(o: Oracle, i: Input, history: seq<Act>, response: Value): Step<Option<Value>> {
    var (h, ok) :- Do(o, history, Get(response, "ok"));
    if !Truthy(ok) then Ok(h, None) else
    var (h, promise) :- Do(o, h, Invoke(response, "json"));
    var (h, data) :- Do(o, h, Await(promise));
    InnerIf(o, i, h, data)
  }

  function InnerIf(o: Oracle, i: Input, history: seq<Act>, data: Value): Step<Option<Value>> {
    var (h, code) :- Do(o, history, Get(data, "code"));
    if code != Number(0.0) then Ok(h, None) else
    var (h, settings) :- Do(o, h, Get(data, "data"));
    if !Truthy(settings) then Ok(h, None) else
    var (h, settings) :- Do(o, h, Get(data, "data"));
    var (h, json) :- Do(o, h, Stringify(settings));
    var (h, page) :- Do(o, h, Replace(i.html, "</head>", Script(i, json) + "\n</head>"));
    Ok(h, Some(page))
  }

  function CatchBlock(o: Oracle, history: seq<Act>, e: Value): Step<Value> {
    var (h, message) :- Do(o, history, Get(e, "message"));
    Do(o, h, Warn(WARNING, message))
  }

  /** What follows the try block, and how the promise of the handler settles. */
  function Conclude(o: Oracle, i: Input, block: Step<Option<Value>>): (seq<Act>, Settled) {
    match block
    case Ok(h, Some(page)) => (h, Resolved(page))
    case Ok(h, None) => (h, Resolved(i.html))
    case Thrown(h, e) =>
      match CatchBlock(o, h, e)
      case Ok(h2, _) => (h2, Resolved(i.html))
      case Thrown(h2, e2) => (h2, Rejected(e2))
  }

  /** The async handler: everything it does, and how its promise settles. */
  function Structured(o: Oracle, i: Input): (seq<Act>, Settled) {
    Conclude(o, i, TryBlock(o, i))
  }

  // ----- What the handler promises -----

  /** The operation the try block performs when those before it gave the values `a`. */
  function Planned(i: Input, a: seq<Value>): (r: Act)
    requires |a| < 11
    ensures (r.Replace? <==> |a| == 10) && !r.Warn?
  {
    match |a|
    case 0 => Timeout(2000)
    case 1 => Fetch(i.url + "/api/v1/settings/public", a[0])
    case 2 => Await(a[1])
    case 3 => Get(a[2], "ok")
    case 4 => Invoke(a[2], "json")
    case 5 => Await(a[4])
    case 6 => Get(a[5], "code")
    case 7 => Get(a[5], "data")
    case 8 => Get(a[5], "data")
    case 9 => Stringify(a[8])
    case _ => Replace(i.html, "</head>", "<script>window.__APP_CONFIG__=" + i.text(a[9]) + ";</script>\n</head>")
  }

  /** The response is not ok, the code is not 0 or the data is falsy: there is nothing to inject. */
  predicate Nothing(a: seq<Value>) {
    || (|a| == 4 && a[3] in FALSY)
    || (|a| == 7 && a[6] != Number(0.0))
    || (|a| == 8 && a[7] in FALSY)
  }

  /** The operations `h` are those planned, they gave the values `a`, and up to the last of them
      there was something to inject. */
  ghost predicate Went(o: Oracle, i: Input, h: seq<Act>, a: seq<Value>) {
    && |h| == |a| <= 11
    && forall k :: 0 <= k < |h| ==>
         !Nothing(a[..k]) && h[k] == Planned(i, a[..k]) && o(h[..k + 1]) == Fulfilled(a[k])
  }

  /** What the catch block does about error `e`: it reads the message and gives one warning, and
      the page is left as it is; unless one of these fails. */
  ghost predicate Recovers(o: Oracle, i: Input, h: seq<Act>, e: Value, result: (seq<Act>, Settled)) {
    var h1 := h + [Get(e, "message")];
    match o(h1)
    case Failed(e1) => result == (h1, Rejected(e1))
    case Fulfilled(m) =>
      var h2 := h1 + [Warn("[vite] 无法获取公开配置，将回退到 API 调用:", m)];
      result == (h2, if o(h2).Failed? then Rejected(o(h2).error) else Resolved(i.html))
  }

  /** How far the try block got: through to the page, to where there was nothing to inject, or to
      the operation that failed. */
  ghost predicate Promised(o: Oracle, i: Input, h: seq<Act>, a: seq<Value>, result: (seq<Act>, Settled)) {
    && Went(o, i, h, a)
    && if |a| == 11 then result == (h, Resolved(a[10]))
       else if Nothing(a) then result == (h, Resolved(i.html))
       else var h1 := h + [Planned(i, a)]; o(h1).Failed? && Recovers(o, i, h1, o(h1).error, result)
  }

  ghost predicate Reaches(o: Oracle, i: Input, h: seq<Act>, a: seq<Value>, block: Step<Option<Value>>) {
    && Went(o, i, h, a)
    && if |a| == 11 then block == Ok(h, Some(a[10]))
       else if Nothing(a) then block == Ok(h, None)
       else var h1 := h + [Planned(i, a)]; o(h1).Failed? && block == Thrown(h1, o(h1).error)
  }

  /** One operation of the plan: it gives one more value, or it fails and the block is over. */
  lemma Take(o: Oracle, i: Input, h: seq<Act>, a: seq<Value>) returns (h1: seq<Act>, a1: seq<Value>)
    requires Went(o, i, h, a) && |a| < 11 && !Nothing(a)
    ensures match Do(o, h, Planned(i, a))
      case Ok(h2, v) => h1 == h2 && a1 == a + [v] && Went(o, i, h1, a1)
      case Thrown(h2, e) => h1 == h && a1 == a && Reaches(o, i, h, a, Thrown(h2, e))
  {
    hide Planned, Nothing;
    var h2 := h + [Planned(i, a)];
    assert h2[..|h| + 1] == h2;
    assert forall k :: 0 <= k < |h| ==> h2[k] == h[k] && h2[..k + 1] == h[..k + 1];
    if o(h2).Failed? {
      return h, a;
    }
    h1, a1 := h2, a + [o(h2).value];
    assert a1[..|a|] == a && forall k :: 0 <= k < |a| ==> a1[..k] == a[..k];
  }

  lemma ScriptInjects(i: Input, json: Value)
    ensures Script(i, json) + "\n</head>" ==
      "<script>window.__APP_CONFIG__=" + i.text(json) + ";</script>\n</head>"
  {
    var before, text := "<script>window.__APP_CONFIG__=", i.text(json);
    assert ";</script>" + "\n</head>" == ";</script>\n</head>";
    assert (before + text + ";</script>") + "\n</head>" == (before + text) + (";</script>" + "\n</head>");
  }

  lemma InnerIfReaches(o: Oracle, i: Input, h: seq<Act>, a: seq<Value>) returns (h1: seq<Act>, a1: seq<Value>)
    requires Went(o, i, h, a) && |a| == 6
    ensures Reaches(o, i, h1, a1, InnerIf(o, i, h, a[5]))
  {
    hide Went;
    h1, a1 := Take(o, i, h, a);
    if |a1| == 6 || Nothing(a1) {
      return;
    }
    h1, a1 := Take(o, i, h1, a1);
    if |a1| == 7 || Nothing(a1) {
      return;
    }
    h1, a1 := Take(o, i, h1, a1);
    if |a1| == 8 {
      return;
    }
    h1, a1 := Take(o, i, h1, a1);
    if |a1| == 9 {
      return;
    }
    ScriptInjects(i, a1[9]);
    h1, a1 := Take(o, i, h1, a1);
  }

  lemma OuterIfReaches(o: Oracle, i: Input, h: seq<Act>, a: seq<Value>) returns (h1: seq<Act>, a1: seq<Value>)
    requires Went(o, i, h, a) && |a| == 3
    ensures Reaches(o, i, h1, a1, OuterIf(o, i, h, a[2]))
  {
    hide Went, InnerIf;
    h1, a1 := Take(o, i, h, a);
    if |a1| == 3 || Nothing(a1) {
      return;
    }
    h1, a1 := Take(o, i, h1, a1);
    if |a1| == 4 {
      return;
    }
    h1, a1 := Take(o, i, h1, a1);
    if |a1| == 5 {
      return;
    }
    h1, a1 := InnerIfReaches(o, i, h1, a1);
  }

  lemma TryBlockReaches(o: Oracle, i: Input) returns (h1: seq<Act>, a1: seq<Value>)
    ensures Reaches(o, i, h1, a1, TryBlock(o, i))
  {
    assert Went(o, i, [], []);
    hide Went, OuterIf;
    h1, a1 := Take(o, i, [], []);
    if |a1| == 0 {
      return;
    }
    h1, a1 := Take(o, i, h1, a1);
    if |a1| == 1 {
      return;
    }
    h1, a1 := Take(o, i, h1, a1);
    if |a1| == 2 {
      return;
    }
    h1, a1 := OuterIfReaches(o, i, h1, a1);
  }

  /** The handler in every environment: it performs the planned operations one after the other.
      If all give a value it settles with the page that the replacement gave; if one shows that
      there is nothing to inject, with the page as it was; if one fails, it recovers. */
  lemma HandlerKeepsPromise(o: Oracle, i: Input)
    ensures exists h, a :: Promised(o, i, h, a, Structured(o, i))
  {
    hide Went, TryBlock;
    var h, a := TryBlockReaches(o, i);
    assert Promised(o, i, h, a, Structured(o, i));
  }

  /** Only the last operation of the plan is a replacement; the one before it made the text. */
  lemma PlannedReplace(o: Oracle, i: Input, h: seq<Act>, a: seq<Value>, k: nat)
    requires Went(o, i, h, a) && k <= |h| && k < 11 && Planned(i, a[..k]).Replace?
    ensures k == 10 && h[9].Stringify? && o(h[..10]).Fulfilled?
    ensures Planned(i, a[..k]) == Replace(i.html, "</head>",
      "<script>window.__APP_CONFIG__=" + i.text(o(h[..10]).value) + ";</script>\n</head>")
  {
    assert h[9] == Planned(i, a[..9]) && o(h[..9 + 1]) == Fulfilled(a[9]);
  }

  /** The page is changed in one way only: the settings just turned into text become a script
      that goes in front of the end of the head. */
  lemma EveryReplaceInjects(o: Oracle, i: Input, k: nat)
    requires k < |Structured(o, i).0| && Structured(o, i).0[k].Replace?
    ensures var h := Structured(o, i).0;
      && k > 0 && h[k - 1].Stringify? && o(h[..k]).Fulfilled?
      && h[k] == Replace(i.html, "</head>",
           "<script>window.__APP_CONFIG__=" + i.text(o(h[..k]).value) + ";</script>\n</head>")
  {
    HandlerKeepsPromise(o, i);
    hide Structured, Planned;
    var h, a :| Promised(o, i, h, a, Structured(o, i));
    var all := Structured(o, i).0;
    assert h <= all && (k < |h| ==> all[k] == h[k] && h[..k] == all[..k]);
    if k >= |h| {
      assert k == |h| && a[..k] == a && h[..k] == all[..k];
    }
    PlannedReplace(o, i, h, a, k);
  }

  /** How many operations of a history failed. */
  function Failures(o: Oracle, h: seq<Act>): nat {
    if h == [] then 0 else Failures(o, Front(h)) + if o(h).Failed? then 1 else 0
  }

  function Warnings(h: seq<Act>): nat {
    if h == [] then 0 else Warnings(Front(h)) + if Last(h).Warn? then 1 else 0
  }

  lemma {:induction false} OneMore(o: Oracle, h: seq<Act>, x: Act)
    ensures Failures(o, h + [x]) == Failures(o, h) + if o(h + [x]).Failed? then 1 else 0
    ensures Warnings(h + [x]) == Warnings(h) + if x.Warn? then 1 else 0
  {
    assert Front(h + [x]) == h;
  }

  lemma {:induction false} WentWell(o: Oracle, i: Input, h: seq<Act>, a: seq<Value>)
    requires Went(o, i, h, a)
    ensures Failures(o, h) == Warnings(h) == 0
  {
    hide Planned, Nothing;
    if h != [] {
      var n, front := |h| - 1, Front(a);
      assert forall k :: 0 <= k < n ==> front[k] == a[k] && front[..k] == a[..k] && Front(h)[..k + 1] == h[..k + 1];
      assert o(h[..n + 1]) == Fulfilled(a[n]) && h[..n + 1] == h == Front(h) + [h[n]];
      WentWell(o, i, Front(h), front);
    }
  }

  /** The promise never stays open.  If nothing fails it settles with the page the replacement
      gave, or with the page as it was if there was none, and without a warning.  If one operation
      fails it settles with the page as it was, after one warning.  It is rejected exactly if
      another one fails after that, with that error. */
  lemma SettlesByFailures(o: Oracle, i: Input)
    ensures var (h, s) := Structured(o, i);
      && h != []
      && match Failures(o, h)
         case 0 => Warnings(h) == 0 && s == Resolved(if Last(h).Replace? then o(h).value else i.html)
         case 1 => Warnings(h) == 1 && Last(h).Warn? && s == Resolved(i.html)
         case 2 => o(h).Failed? && s == Rejected(o(h).error)
         case _ => false
  {
    HandlerKeepsPromise(o, i);
    hide Structured, Planned, Failures, Warnings;
    var h, a :| Promised(o, i, h, a, Structured(o, i));
    WentWell(o, i, h, a);
    if |a| == 11 || Nothing(a) {
      var n := |h| - 1;
      assert h[n] == Planned(i, a[..n]) && o(h[..n + 1]) == Fulfilled(a[n]) && h[..n + 1] == h;
    } else {
      var h1 := h + [Planned(i, a)];
      var read := Get(o(h1).error, "message");
      OneMore(o, h, Planned(i, a));
      OneMore(o, h1, read);
      if o(h1 + [read]).Fulfilled? {
        OneMore(o, h1 + [read], Last(Structured(o, i).0));
      }
    }
  }

  // ----- The lowered body -----

  /** The variables of the lowered function, and the history of its operations. */
  datatype Locals = Locals(history: seq<Act>, response: Value, data: Value, script: string, e1: Value)

  const TRY := Frame(0, Some(4), None, 5)

  /** `sent()`. */
  function Receive(history: seq<Act>, sent: Sent): Step<Value> {
    match sent
    case Normal(v) => Ok(history, v)
    case Raise(e) => Thrown(history, e)
    case Stale => Ok(history, Undefined)
  }

  function Throws(w: Locals, frames: seq<Frame>, pc: nat, history: seq<Act>, e: Value): BodyRun<Locals> {
    BodyRun(w.(history := history), frames, pc, Catch(e))
  }

  function Case0(o: Oracle, i: Input, w: Locals): BodyRun<Locals> {
    match Do(o, w.history, Timeout(2000))
    case Thrown(h, e) => Throws(w, [TRY], 0, h, e)
    case Ok(h, signal) =>
      match Do(o, h, Fetch(i.url + "/api/v1/settings/public", signal))
      case Thrown(h, e) => Throws(w, [TRY], 0, h, e)
      case Ok(h, promise) => BodyRun(w.(history := h), [TRY], 0, Yield(promise))
  }

  function Case1(o: Oracle, i: Input, w0: Locals, sent: Sent): BodyRun<Locals> {
    match Receive(w0.history, sent)
    case Thrown(h, e) => Throws(w0, [], 1, h, e)
    case Ok(h, response) =>
      var w := w0.(response := response);
      match Do(o, h, Get(w.response, "ok"))
      case Thrown(h, e) => Throws(w, [], 1, h, e)
      case Ok(h, ok) =>
        if !Truthy(ok) then BodyRun(w.(history := h), [], 1, Break(3)) else
        match Do(o, h, Invoke(w.response, "json"))
        case Thrown(h, e) => Throws(w, [], 1, h, e)
        case Ok(h, promise) => BodyRun(w.(history := h), [], 1, Yield(promise))
  }

  /** Falls through to case 3 when there is nothing to inject. */
  function Case2(o: Oracle, i: Input, w0: Locals, sent: Sent): BodyRun<Locals> {
    match Receive(w0.history, sent)
    case Thrown(h, e) => Throws(w0, [], 2, h, e)
    case Ok(h, data) =>
      var w := w0.(data := data);
      match Do(o, h, Get(w.data, "code"))
      case Thrown(h, e) => Throws(w, [], 2, h, e)
      case Ok(h, code) =>
        if code != Number(0.0) then Case3(w.(history := h)) else
        match Do(o, h, Get(w.data, "data"))
        case Thrown(h, e) => Throws(w, [], 2, h, e)
        case Ok(h, settings) =>
          if !Truthy(settings) then Case3(w.(history := h)) else
          match Do(o, h, Get(w.data, "data"))
          case Thrown(h, e) => Throws(w, [], 2, h, e)
          case Ok(h, settings) =>
            match Do(o, h, Stringify(settings))
            case Thrown(h, e) => Throws(w, [], 2, h, e)
            case Ok(h, json) =>
              var w := w.(script := Script(i, json));
              match Do(o, h, Replace(i.html, "</head>", w.script + "\n</head>"))
              case Thrown(h, e) => Throws(w, [], 2, h, e)
              case Ok(h, page) => BodyRun(w.(history := h), [], 2, Return(page))
  }

  function Case3(w: Locals): BodyRun<Locals> {
    BodyRun(w, [], 3, Break(5))
  }

  function Case4(o: Oracle, w0: Locals, sent: Sent): BodyRun<Locals> {
    match Receive(w0.history, sent)
    case Thrown(h, e) => Throws(w0, [], 4, h, e)
    case Ok(h, e1) =>
      var w := w0.(e1 := e1);
      match Do(o, h, Get(w.e1, "message"))
      case Thrown(h, e) => Throws(w, [], 4, h, e)
      case Ok(h, message) =>
        match Do(o, h, Warn(WARNING, message))
        case Thrown(h, e) => Throws(w, [], 4, h, e)
        case Ok(h, _) => BodyRun(w.(history := h), [], 4, Break(5))
  }

  /** The switch over the label.  There is no label above 5. */
  function Body(o: Oracle, i: Input, w: Locals, pc: nat, sent: Sent): BodyRun<Locals> {
    if pc == 0 then Case0(o, i, w)
    else if pc == 1 then Case1(o, i, w, sent)
    else if pc == 2 then Case2(o, i, w, sent)
    else if pc == 3 then Case3(w)
    else if pc == 4 then Case4(o, w, sent)
    else BodyRun(w, [], 5, Return(i.html))
  }

  /** The body never delegates. */
  function Lowered(o: Oracle, i: Input): Host<Locals> {
    Host((w: Locals, pc: nat, sent: Sent) => Body(o, i, w, pc, sent),
         (w: Locals, y: Value, m: Method, v: Value) => (w, Missing))
  }

  const SHAPE := Shape(6, (l: nat) =>
    if 1 <= l <= 3 then [Place(TRY, TryRegion)] else if l == 4 then [Place(TRY, CatchRegion)] else [])

  function Awaits(o: Oracle): (Locals, Value) -> (Locals, Result) {
    (w: Locals, p: Value) => var h := w.history + [Await(p)]; (w.(history := h), o(h))
  }

  const START := Locals([], Undefined, Undefined, "", Undefined)

  lemma ShapeIsOk()
    ensures ShapeOk(SHAPE)
  {
    hide Nested;
    AroundNests(TRY, 1);
    AroundNests(TRY, 2);
    AroundNests(TRY, 3);
    AroundNests(TRY, 4);
    OutsideNests(0);
    OutsideNests(5);
    assert SHAPE.at(1) == SHAPE.at(2) == SHAPE.at(3) == Around(TRY, TryRegion);
    assert SHAPE.at(4) == Around(TRY, CatchRegion) && SHAPE.at(0) == SHAPE.at(5) == [];
  }

  lemma TryCloses()
    ensures AllClosed(SHAPE, Around(TRY, TryRegion), 0)
  {
    AroundIs(TRY, TryRegion);
    assert [] + Around(TRY, CatchRegion) == Around(TRY, CatchRegion);
  }

  lemma Case0Allowed(o: Oracle, i: Input, w: Locals)
    ensures BodyAllowed(SHAPE, 0, Case0(o, i, w))
  {
    hide Do, Nested, AllClosed, Opened;
    NothingOpened(TRY, SHAPE.at(0));
    AroundNests(TRY, 0);
    TryCloses();
  }

  lemma Case1Allowed(o: Oracle, i: Input, w: Locals, sent: Sent)
    ensures BodyAllowed(SHAPE, 1, Case1(o, i, w, sent))
  {
    hide Do, Nested, AllClosed, Opened;
    NothingOpened(TRY, SHAPE.at(1));
    AroundNests(TRY, 1);
    OpenBefore(SHAPE, SHAPE.at(1));
  }

  lemma Case2Allowed(o: Oracle, i: Input, w: Locals, sent: Sent)
    ensures BodyAllowed(SHAPE, 2, Case2(o, i, w, sent))
  {
    hide Do, Nested, AllClosed, Opened;
    NothingOpened(TRY, SHAPE.at(2));
    AroundNests(TRY, 2);
    AroundNests(TRY, 3);
    OpenBefore(SHAPE, SHAPE.at(2));
  }

  lemma Case3Allowed(w: Locals)
    ensures BodyAllowed(SHAPE, 3, Case3(w))
  {
    hide Do, Nested, AllClosed, Opened;
    NothingOpened(TRY, SHAPE.at(3));
    AroundNests(TRY, 3);
    OpenBefore(SHAPE, SHAPE.at(3));
  }

  lemma Case4Allowed(o: Oracle, w: Locals, sent: Sent)
    ensures BodyAllowed(SHAPE, 4, Case4(o, w, sent))
  {
    hide Do, Nested, AllClosed, Opened;
    NothingOpened(TRY, SHAPE.at(4));
    AroundNests(TRY, 4);
    OpenBefore(SHAPE, SHAPE.at(4));
  }

  lemma Case5Allowed(w: Locals, html: Value)
    ensures BodyAllowed(SHAPE, 5, BodyRun(w, [], 5, Return(html)))
  {
    hide Do, Nested, AllClosed, Opened;
    NothingOpened(TRY, SHAPE.at(5));
    OutsideNests(5);
    OpenBefore(SHAPE, []);
  }

  lemma CaseAllowed(o: Oracle, i: Input, w: Locals, l: nat, sent: Sent)
    requires l < 6
    ensures BodyAllowed(SHAPE, l, Body(o, i, w, l, sent))
  {
    hide BodyAllowed, Case0, Case1, Case2, Case3, Case4;
    Case0Allowed(o, i, w);
    Case1Allowed(o, i, w, sent);
    Case2Allowed(o, i, w, sent);
    Case3Allowed(w);
    Case4Allowed(o, w, sent);
    Case5Allowed(w, i.html);
  }

  lemma LoweredIsWellFormed(o: Oracle, i: Input)
    ensures WellFormed(Lowered(o, i), SHAPE)
  {
    hide BodyAllowed, Body, ShapeOk;
    ShapeIsOk();
    forall w: Locals, l: nat, sent: Sent | l < 6
      ensures BodyAllowed(SHAPE, l, Lowered(o, i).body(w, l, sent))
    {
      CaseAllowed(o, i, w, l, sent);
    }
  }

  // ----- They agree -----

  /** The generator is inside the try statement, in phase `p`, with no delegate. */
  predicate Within(g: Gen<Locals>, p: Phase, pc: nat) {
    !Truthy(g.delegate) && g.c.pc == pc && |g.c.stack| == 1 && g.c.stack[0].frame == TRY && g.c.stack[0].phase == p
  }

  /** What a call that settles the handler shows: the history and the settled promise. */
  predicate Shows(r: (Outcome, Gen<Locals>), expected: (seq<Act>, Settled)) {
    && r.1.world.history == expected.0
    && match r.0
       case Completed(v) => expected.1 == Resolved(v)
       case Threw(e) => expected.1 == Rejected(e)
       case _ => false
  }

  /** What `sent()` does after a call. */
  function SentBy(op: Op): Sent
    requires op.Next? || op.Throw?
  {
    if op.Next? then Normal(op.value) else Raise(op.value)
  }

  lemma RunsBody(o: Oracle, i: Input, fuel: nat, g: Gen<Locals>, op: Op)
    requires fuel >= 1 && !Truthy(g.delegate) && (op.Next? || op.Throw?)
    ensures var b := Body(o, i, g.world, g.c.pc, SentBy(op));
      Run(Lowered(o, i), fuel, g, op) == Run(Lowered(o, i), fuel - 1, AfterBody(g, b), b.op)
  {
    hide Body, Deliver, Delegate, Push;
    assert Run(Lowered(o, i), fuel, g, op) == Enter(Lowered(o, i), fuel, g, SentBy(op));
  }

  lemma {:induction false} RunDelivers(o: Oracle, i: Input, fuel: nat, g: Gen<Locals>, op: AbruptOp)
    requires !Truthy(g.delegate)
    ensures Run(Lowered(o, i), fuel, g, op) == Deliver(Lowered(o, i), fuel, g, op)
  {
    hide Deliver, Enter, Delegate;
  }

  /** A call of next or throw runs the body from the label the generator stands at. */
  lemma {:induction false} FirstRun(o: Oracle, i: Input, fuel: nat, g: Gen<Locals>, op: Op)
    requires fuel >= 1 && !Truthy(g.delegate)
    requires op.Next? || (op.Throw? && g.status.Suspended?)
    requires g.status.Suspended? || g.status.Fresh?
    ensures var b := Body(o, i, g.world, g.c.pc, SentBy(op));
      Resume(Lowered(o, i), fuel, g, op) == Run(Lowered(o, i), fuel - 1, AfterBody(g.(status := Running), b), b.op)
  {
    hide Body, Deliver, Delegate, Push, Run, Enter;
    RunsBody(o, i, fuel, g.(status := Running), op);
  }

  lemma OpensTry(g: Gen<Locals>, b: BodyRun<Locals>)
    requires !Truthy(g.delegate) && g.c.stack == [] && b.frames == [TRY]
    ensures Within(AfterBody(g, b), Trying, b.pc)
  {
    assert Front([TRY]) == [] && Push(g.c, []) == g.c;
  }

  lemma StaysWithin(g: Gen<Locals>, p: Phase, pc: nat, b: BodyRun<Locals>)
    requires Within(g, p, pc) && b.frames == []
    ensures Within(AfterBody(g, b), p, b.pc)
  {
  }

  lemma {:induction false} BreakToEnd(o: Oracle, i: Input, fuel: nat, g: Gen<Locals>, p: Phase, pc: nat)
    requires Within(g, p, pc) && fuel >= 1 && !p.Finalizing?
    ensures Shows(Deliver(Lowered(o, i), fuel, g, Break(5)), (g.world.history, Resolved(i.html)))
  {
    var h, c := Lowered(o, i), Leave(g.c, Break(5)).(pc := 5);
    assert Unwind(Break(5), g.c) == Jumped(c);
    var g1 := g.(c := c);
    assert Deliver(h, fuel, g, Break(5)) == Enter(h, fuel, g1, Stale);
    assert Enter(h, fuel, g1, Stale) == Run(h, fuel - 1, AfterBody(g1, h.body(g1.world, 5, Stale)), Return(i.html));
    assert Unwind(Return(i.html), c) == Escaped(c);
  }

  lemma {:induction false} BreakToThree(o: Oracle, i: Input, fuel: nat, g: Gen<Locals>)
    requires Within(g, Trying, 1) && fuel >= 2
    ensures Shows(Deliver(Lowered(o, i), fuel, g, Break(3)), (g.world.history, Resolved(i.html)))
  {
    var h, g1 := Lowered(o, i), g.(c := g.c.(pc := 3));
    assert Unwind(Break(3), g.c) == Jumped(g1.c);
    assert AfterBody(g1, h.body(g1.world, 3, Stale)) == g1;
    assert Enter(h, fuel, g1, Stale) == Run(h, fuel - 1, g1, Break(5));
    BreakToEnd(o, i, fuel - 1, g1, Trying, 3);
  }

  lemma {:induction false} ThrowOutside(o: Oracle, i: Input, fuel: nat, g: Gen<Locals>, e: Value)
    requires Within(g, Handling, 4)
    ensures Shows(Deliver(Lowered(o, i), fuel, g, Catch(e)), (g.world.history, Rejected(e)))
  {
    assert Unwind(Catch(e), g.c) == Escaped(Leave(g.c, Catch(e)));
  }

  lemma {:induction false} CatchRuns(o: Oracle, i: Input, fuel: nat, g: Gen<Locals>, e: Value)
    requires Within(g, Handling, 4) && fuel >= 2
    ensures Shows(Enter(Lowered(o, i), fuel, g, Normal(e)), Conclude(o, i, Thrown(g.world.history, e)))
  {
    var h := Lowered(o, i);
    var b := h.body(g.world, 4, Normal(e));
    var g2 := AfterBody(g, b);
    assert Enter(h, fuel, g, Normal(e)) == Run(h, fuel - 1, g2, b.op);
    assert Run(h, fuel - 1, g2, b.op) == Deliver(h, fuel - 1, g2, b.op);
    hide Deliver, Enter, Run, Unwind, Do, Replies;
    if b.op.Break? {
      BreakToEnd(o, i, fuel - 1, g2, Handling, 4);
    } else {
      ThrowOutside(o, i, fuel - 1, g2, b.op.value);
    }
  }

  lemma {:induction false} ThrowInTry(o: Oracle, i: Input, fuel: nat, g: Gen<Locals>, pc: nat, e: Value)
    requires Within(g, Trying, pc) && fuel >= 2
    ensures Shows(Deliver(Lowered(o, i), fuel, g, Catch(e)), Conclude(o, i, Thrown(g.world.history, e)))
  {
    hide Enter, Run, Conclude, Do, Replies;
    assert Unwind(Catch(e), g.c) == Handled(EnterCatch(g.c));
    CatchRuns(o, i, fuel, g.(c := EnterCatch(g.c)), e);
  }

  /** From label 2, with the parsed body of the response or the error that prevented it. */
  lemma {:induction false} FromLabel2(o: Oracle, i: Input, fuel: nat, g: Gen<Locals>, r: Result)
    requires Within(g, Trying, 2) && fuel >= 3
    ensures Shows(Run(Lowered(o, i), fuel, g, Delivery(r)), Conclude(o, i,
      match r case Failed(e) => Thrown(g.world.history, e) case Fulfilled(v) => InnerIf(o, i, g.world.history, v)))
  {
    hide Deliver, Enter, Unwind, Push, Lowered, Run, Do, CatchBlock, Replies, Shows;
    var b := Case2(o, i, g.world, SentBy(Delivery(r)));
    var g2 := AfterBody(g, b);
    RunsBody(o, i, fuel, g, Delivery(r));
    StaysWithin(g, Trying, 2, b);
    if b.op.Catch? {
      ThrowInTry(o, i, fuel - 1, g2, 2, b.op.value);
      RunDelivers(o, i, fuel - 1, g2, b.op);
    } else if b.op.Break? {
      BreakToEnd(o, i, fuel - 1, g2, Trying, 3);
      RunDelivers(o, i, fuel - 1, g2, b.op);
    } else {
      ReturnFromTry(o, i, fuel - 1, g2, b.op.value);
    }
  }

  lemma {:induction false} ReturnFromTry(o: Oracle, i: Input, fuel: nat, g: Gen<Locals>, v: Value)
    requires Within(g, Trying, 2)
    ensures Shows(Run(Lowered(o, i), fuel, g, Return(v)), (g.world.history, Resolved(v)))
  {
    assert Unwind(Return(v), g.c) == Escaped(Leave(g.c, Return(v)));
  }

  lemma Awaited(o: Oracle, i: Input, turns: nat, fuel: nat, g: Gen<Locals>, op: Op, g1: Gen<Locals>, p: Value)
    requires Resumption(op) && turns >= 1
    requires Resume(Lowered(o, i), fuel, g, op) == (Yielded(p), g1)
    ensures var h := g1.world.history + [Await(p)];
      Drive(Lowered(o, i), Awaits(o), turns, fuel, g, op) ==
      Drive(Lowered(o, i), Awaits(o), turns - 1, fuel, g1.(world := g1.world.(history := h)), Delivery(o(h)))
  {
    hide Resume, Lowered;
  }

  /** The promise settles as expected, and the handler did what was expected. */
  predicate SettlesAs(r: (Settled, Gen<Locals>), expected: (seq<Act>, Settled)) {
    r.1.world.history == expected.0 && r.0 == expected.1
  }

  lemma {:induction false} Ends(o: Oracle, i: Input, turns: nat, fuel: nat, g: Gen<Locals>, op: Op,
                                expected: (seq<Act>, Settled))
    requires Resumption(op) && Shows(Resume(Lowered(o, i), fuel, g, op), expected)
    ensures SettlesAs(Drive(Lowered(o, i), Awaits(o), turns, fuel, g, op), expected)
  {
    hide Resume, Lowered;
  }

  lemma {:induction false} DriveFromLabel2(o: Oracle, i: Input, turns: nat, fuel: nat, g: Gen<Locals>, r: Result)
    requires g.status.Suspended? && Within(g, Trying, 2) && fuel >= 3
    ensures SettlesAs(Drive(Lowered(o, i), Awaits(o), turns, fuel, g, Delivery(r)), Conclude(o, i,
      match r case Failed(e) => Thrown(g.world.history, e) case Fulfilled(v) => InnerIf(o, i, g.world.history, v)))
  {
    hide Drive, Run, Lowered, Conclude, InnerIf;
    FromLabel2(o, i, fuel, g.(status := Running), r);
    Ends(o, i, turns, fuel, g, Delivery(r), Conclude(o, i,
      match r case Failed(e) => Thrown(g.world.history, e) case Fulfilled(v) => InnerIf(o, i, g.world.history, v)));
  }

  /** From label 1, with the response or the error that prevented it. */
  lemma {:induction false} DriveFromLabel1(o: Oracle, i: Input, turns: nat, fuel: nat, g: Gen<Locals>, r: Result)
    requires g.status.Suspended? && Within(g, Trying, 1) && turns >= 1 && fuel >= 3
    ensures SettlesAs(Drive(Lowered(o, i), Awaits(o), turns, fuel, g, Delivery(r)), Conclude(o, i,
      match r case Failed(e) => Thrown(g.world.history, e) case Fulfilled(v) => OuterIf(o, i, g.world.history, v)))
  {
    hide Drive, Deliver, Enter, Unwind, Push, Resume, Lowered, Replies, CatchBlock, InnerIf, Shows, SettlesAs;
    var b := Case1(o, i, g.world, SentBy(Delivery(r)));
    var g2 := AfterBody(g.(status := Running), b);
    FirstRun(o, i, fuel, g, Delivery(r));
    StaysWithin(g.(status := Running), Trying, 1, b);
    var expected := Conclude(o, i,
      match r case Failed(e) => Thrown(g.world.history, e) case Fulfilled(v) => OuterIf(o, i, g.world.history, v));
    if b.op.Catch? {
      ThrowInTry(o, i, fuel - 1, g2, 1, b.op.value);
      RunDelivers(o, i, fuel - 1, g2, b.op);
      Ends(o, i, turns, fuel, g, Delivery(r), expected);
    } else if b.op.Break? {
      BreakToThree(o, i, fuel - 1, g2);
      RunDelivers(o, i, fuel - 1, g2, b.op);
      Ends(o, i, turns, fuel, g, Delivery(r), expected);
    } else {
      var p, g3 := b.op.value, g2.(status := Suspended, c := g2.c.(pc := 2));
      Awaited(o, i, turns, fuel, g, Delivery(r), g3, p);
      var hist := g3.world.history + [Await(p)];
      DriveFromLabel2(o, i, turns - 1, fuel, g3.(world := g3.world.(history := hist)), o(hist));
    }
  }

  /** For every environment: the lowered handler, run by the generator under the awaiter,
      performs the same operations in the same order as the structured one, and its promise
      settles the same way, within three runs of the body per call and two awaits. */
  lemma {:induction false} LoweredAgreesWithStructured(o: Oracle, i: Input, turns: nat, fuel: nat)
    requires turns >= 2 && fuel >= 3
    ensures SettlesAs(Drive(Lowered(o, i), Awaits(o), turns, fuel, Initial(START), Next(Undefined)), Structured(o, i))
  {
    hide Drive, Deliver, Enter, Unwind, Push, Resume, Lowered, Replies, CatchBlock, OuterIf, Shows, SettlesAs;
    var g, b := Initial(START), Case0(o, i, START);
    var g2 := AfterBody(g.(status := Running), b);
    FirstRun(o, i, fuel, g, Next(Undefined));
    OpensTry(g.(status := Running), b);
    if b.op.Catch? {
      ThrowInTry(o, i, fuel - 1, g2, 0, b.op.value);
      RunDelivers(o, i, fuel - 1, g2, b.op);
      Ends(o, i, turns, fuel, g, Next(Undefined), Structured(o, i));
    } else {
      var p, g3 := b.op.value, g2.(status := Suspended, c := g2.c.(pc := 1));
      Awaited(o, i, turns, fuel, g, Next(Undefined), g3, p);
      var hist := g3.world.history + [Await(p)];
      DriveFromLabel1(o, i, turns - 1, fuel, g3.(world := g3.world.(history := hist)), o(hist));
    }
  }

  /** The handler as it runs: a generator over the lowered body, driven by the awaiter. */
  method Handle(o: Oracle, i: Input) returns (history: seq<Act>, s: Settled)
    ensures (history, s) == Structured(o, i)
  {
    LoweredIsWellFormed(o, i);
    LoweredAgreesWithStructured(o, i, 2, 3);
    hide Structured, Drive, WellFormed, Lowered;
    var g := new Generator(Lowered(o, i), START, SHAPE);
    s := Execute(g, Awaits(o), 2, 3);
    history := g.world.history;
  }
}
