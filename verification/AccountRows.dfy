/** Accounts as rows: what a create writes and what a scan reads back. */
module AccountRows {
  import opened Options
  import opened Sequences

  /** The columns of the accounts table, and any other expression a query may select. */
  datatype Column =
    | Id | CreatedAt | UpdatedAt | DeletedAt | Name | Notes | Platform | Type
    | Credentials | Extra | ProxyId | Concurrency | LoadFactor | Priority | RateMultiplier
    | Status | ErrorMessage | LastUsedAt | ExpiresAt | AutoPauseOnExpired | Schedulable
    | RateLimitedAt | RateLimitResetAt | OverloadUntil | TempUnschedulableUntil
    | TempUnschedulableReason | SessionWindowStart | SessionWindowEnd | SessionWindowStatus
    | Other(name: string)

  /** All columns of the table, in its order. */
  function Columns(): seq<Column> {[
    Id, CreatedAt, UpdatedAt, DeletedAt, Name, Notes, Platform, Type,
    Credentials, Extra, ProxyId, Concurrency, LoadFactor, Priority, RateMultiplier,
    Status, ErrorMessage, LastUsedAt, ExpiresAt, AutoPauseOnExpired, Schedulable,
    RateLimitedAt, RateLimitResetAt, OverloadUntil, TempUnschedulableUntil,
    TempUnschedulableReason, SessionWindowStart, SessionWindowEnd, SessionWindowStatus]
  }

  function Position(c: Column): (i: nat)
    requires !c.Other?
    ensures i < |Columns()| && Columns()[i] == c
  {
    match c
    case Id => 0
    case CreatedAt => 1
    case UpdatedAt => 2
    case DeletedAt => 3
    case Name => 4
    case Notes => 5
    case Platform => 6
    case Type => 7
    case Credentials => 8
    case Extra => 9
    case ProxyId => 10
    case Concurrency => 11
    case LoadFactor => 12
    case Priority => 13
    case RateMultiplier => 14
    case Status => 15
    case ErrorMessage => 16
    case LastUsedAt => 17
    case ExpiresAt => 18
    case AutoPauseOnExpired => 19
    case Schedulable => 20
    case RateLimitedAt => 21
    case RateLimitResetAt => 22
    case OverloadUntil => 23
    case TempUnschedulableUntil => 24
    case TempUnschedulableReason => 25
    case SessionWindowStart => 26
    case SessionWindowEnd => 27
    case SessionWindowStatus => 28
  }

  lemma ColumnsAreFields(c: Column)
    ensures c in Columns() <==> !c.Other?
  {
    if !c.Other? {
      assert Columns()[Position(c)] == c;
    }
  }

  datatype Kind = JsonKind | BoolKind | FloatKind | IntKind | StringKind | TimeKind | UnknownKind

  /** The type each field is assigned from, field by field. */
  function KindOf(c: Column): Kind {
    match c
    case Id => IntKind
    case CreatedAt => TimeKind
    case UpdatedAt => TimeKind
    case DeletedAt => TimeKind
    case Name => StringKind
    case Notes => StringKind
    case Platform => StringKind
    case Type => StringKind
    case Credentials => JsonKind
    case Extra => JsonKind
    case ProxyId => IntKind
    case Concurrency => IntKind
    case LoadFactor => IntKind
    case Priority => IntKind
    case RateMultiplier => FloatKind
    case Status => StringKind
    case ErrorMessage => StringKind
    case LastUsedAt => TimeKind
    case ExpiresAt => TimeKind
    case AutoPauseOnExpired => BoolKind
    case Schedulable => BoolKind
    case RateLimitedAt => TimeKind
    case RateLimitResetAt => TimeKind
    case OverloadUntil => TimeKind
    case TempUnschedulableUntil => TimeKind
    case TempUnschedulableReason => StringKind
    case SessionWindowStart => TimeKind
    case SessionWindowEnd => TimeKind
    case SessionWindowStatus => StringKind
    case Other(_) => UnknownKind
  }

  /** The type a column is scanned into, type by type. */
  function ScanKind(c: Column): Kind {
    if c in {Credentials, Extra} then JsonKind
    else if c in {AutoPauseOnExpired, Schedulable} then BoolKind
    else if c == RateMultiplier then FloatKind
    else if c in {Id, ProxyId, Concurrency, LoadFactor, Priority} then IntKind
    else if c in {Name, Notes, Platform, Type, Status, ErrorMessage, TempUnschedulableReason, SessionWindowStatus} then
      StringKind
    else if c in {CreatedAt, UpdatedAt, DeletedAt, LastUsedAt, ExpiresAt, RateLimitedAt, RateLimitResetAt,
                  OverloadUntil, TempUnschedulableUntil, SessionWindowStart, SessionWindowEnd} then
      TimeKind
    else UnknownKind
  }

  /** The two tables agree, so what a scan chose is what the assignment expects. */
  lemma KindsAgree(c: Column)
    ensures ScanKind(c) == KindOf(c)
  {
  }

  /** The columns whose field is a pointer, nil when the column is NULL. */
  predicate Nullable(c: Column) {
    c in {DeletedAt, Notes, ProxyId, LoadFactor, ErrorMessage, LastUsedAt, ExpiresAt, RateLimitedAt,
          RateLimitResetAt, OverloadUntil, TempUnschedulableUntil, TempUnschedulableReason,
          SessionWindowStart, SessionWindowEnd, SessionWindowStatus}
  }

  /** A decoded JSON object; Nil is the nil map. */
  datatype Json = Nil | Object(members: map<string, string>)

  /** The content of an entity field, or of a column of a row. */
  datatype Value =
    | Null
    | Int(i: int)
    | Text(s: string)
    | Boolean(b: bool)
    | Float(r: real)
    | Time(t: int)
    | Map(m: Json)       // in an entity only
    | Bytes(raw: string) // in a row only

  predicate HasKind(v: Value, k: Kind) {
    match k
    case JsonKind => v.Map?
    case BoolKind => v.Boolean?
    case FloatKind => v.Float?
    case IntKind => v.Int?
    case StringKind => v.Text?
    case TimeKind => v.Time?
    case UnknownKind => true
  }

  /** The zero value a fresh entity has in the field of a column. */
  function Zero(c: Column): Value {
    if Nullable(c) then Null else
      match KindOf(c)
      case JsonKind => Map(Nil)
      case BoolKind => Boolean(false)
      case FloatKind => Float(0.0)
      case IntKind => Int(0)
      case StringKind => Text("")
      case TimeKind => Time(0)
      case UnknownKind => Null
  }

  /** A scan destination: the type chosen for a column, and what was scanned into it. */
  datatype Holder = Holder(kind: Kind, value: Value)

  /** The JSON codec. */
  datatype Codec = Codec(encode: Json -> string, decode: string -> Option<Json>)

  predicate Inverts(codec: Codec, j: Json) {
    codec.encode(j) != "" && codec.decode(codec.encode(j)) == Some(j)
  }

  datatype Failure = UnexpectedType(column: Column) | Unmarshal(column: Column) | Mismatch

  datatype Result = Ok(fields: map<Column, Value>) | Err(failure: Failure)

  /** What scanning a row value gives for a field, None if the field is left alone. */
  function Decoded(codec: Codec, c: Column, v: Value): Option<Value> {
    if c == Id then Some(if v.Int? then v else Int(0))
    else if KindOf(c).JsonKind? then
      (if v.Bytes? && v.raw != "" && codec.decode(v.raw).Some? then Some(Map(codec.decode(v.raw).value)) else None)
    else if v.Null? then None
    else Some(v)
  }

  /** The field after a value was assigned to it: an object is decoded into the object that is
      there, member by member; anything else replaces it. */
  function Put(fields: map<Column, Value>, c: Column, v: Value): Value {
    if v.Map? && v.m.Object? && c in fields && fields[c].Map? && fields[c].m.Object? then
      Map(Object(fields[c].m.members + v.m.members))
    else v
  }

  /** Assigns one scanned column to the fields; a column that is not a field is left out. */
  function AssignOne(codec: Codec, fields: map<Column, Value>, c: Column, h: Holder): Result {
    if c.Other? then Ok(fields)
    else if h.kind != KindOf(c) then Err(UnexpectedType(c))
    else if KindOf(c).JsonKind? && h.value.Bytes? && h.value.raw != "" && codec.decode(h.value.raw).None? then
      Err(Unmarshal(c))
    else match Decoded(codec, c, h.value)
         case None => Ok(fields)
         case Some(v) => Ok(fields[c := Put(fields, c, v)])
  }

  function AssignAll(codec: Codec, fields: map<Column, Value>, columns: seq<Column>, hs: seq<Holder>): Result
    requires |columns| <= |hs|
  {
    if columns == [] then Ok(fields) else
      match AssignAll(codec, fields, Front(columns), hs)
      case Err(e) => Err(e)
      case Ok(f) => AssignOne(codec, f, Last(columns), hs[|columns| - 1])
  }

  /** The values of a row in the selected columns, scanned into the holders chosen for them. */
  function Scanned(row: Column -> Value, columns: seq<Column>): (hs: seq<Holder>)
    ensures |hs| == |columns| && forall i :: 0 <= i < |hs| ==> hs[i] == Holder(ScanKind(columns[i]), row(columns[i]))
  {
    seq(|columns|, i requires 0 <= i < |columns| => Holder(ScanKind(columns[i]), row(columns[i])))
  }

  /** The row holds JSON only where it can be read back. */
  predicate Readable(codec: Codec, row: Column -> Value) {
    ReadableJson(codec, row(Credentials)) && ReadableJson(codec, row(Extra))
  }

  predicate ReadableJson(codec: Codec, v: Value) {
    v.Null? || (v.Bytes? && v.raw != "" && codec.decode(v.raw).Some?)
  }

  /** The column, if selected, gives its field a value. */
  predicate Sets(codec: Codec, row: Column -> Value, columns: seq<Column>, c: Column) {
    c in columns && !c.Other? && Decoded(codec, c, row(c)).Some?
  }

  /** The fields after value `v` of one more column. */
  function Next(codec: Codec, fields: map<Column, Value>, c: Column, v: Value): map<Column, Value> {
    if !c.Other? && Decoded(codec, c, v).Some? then fields[c := Put(fields, c, Decoded(codec, c, v).value)] else fields
  }

  lemma AssignOneReads(codec: Codec, fields: map<Column, Value>, c: Column, v: Value)
    requires KindOf(c).JsonKind? ==> ReadableJson(codec, v)
    ensures AssignOne(codec, fields, c, Holder(KindOf(c), v)) == Ok(Next(codec, fields, c, v))
  {
  }

  lemma JsonColumns(c: Column)
    ensures KindOf(c).JsonKind? <==> c == Credentials || c == Extra
  {
  }

  /** Decoding the same object again changes nothing more. */
  lemma PutTwice(fields: map<Column, Value>, more: map<Column, Value>, c: Column, v: Value)
    requires c in more && more[c] == Put(fields, c, v)
    ensures Put(more, c, v) == Put(fields, c, v)
  {
    if v.Map? && v.m.Object? && c in fields && fields[c].Map? && fields[c].m.Object? {
      var old0, d := fields[c].m.members, v.m.members;
      assert (old0 + d) + d == old0 + d;
    } else if v.Map? && v.m.Object? {
      assert v.m.members + v.m.members == v.m.members;
    }
  }

  lemma PutSame(fields: map<Column, Value>, more: map<Column, Value>, c: Column, v: Value)
    requires c in more <==> c in fields
    requires c in fields ==> more[c] == fields[c]
    ensures Put(more, c, v) == Put(fields, c, v)
  {
  }

  /** What reading some columns of a row into an entity means for one field. */
  predicate ReadAt(codec: Codec, fields: map<Column, Value>, row: Column -> Value, columns: seq<Column>,
                   read: map<Column, Value>, c: Column)
  {
    if Sets(codec, row, columns, c) then c in read && read[c] == Put(fields, c, Decoded(codec, c, row(c)).value)
    else (c in read <==> c in fields) && (c in fields ==> read[c] == fields[c])
  }

  lemma ReadStep(codec: Codec, fields: map<Column, Value>, row: Column -> Value, before: seq<Column>, x: Column,
                 read: map<Column, Value>, c: Column)
    requires ReadAt(codec, fields, row, before, read, c)
    ensures ReadAt(codec, fields, row, before + [x], Next(codec, read, x, row(x)), c)
  {
    hide Decoded, Put;
    if c == x && Decoded(codec, c, row(c)).Some? && !c.Other? {
      if c in before {
        PutTwice(fields, read, c, Decoded(codec, c, row(c)).value);
      } else {
        PutSame(fields, read, c, Decoded(codec, c, row(c)).value);
      }
    }
  }

  /** Scanning any columns of a readable row, in any order and with any repetitions, into any
      entity, never fails, and assigns to just the fields of the columns that were selected. */
  lemma {:induction false} AssignReads(codec: Codec, fields: map<Column, Value>, row: Column -> Value,
                                       columns: seq<Column>)
    requires Readable(codec, row)
    ensures var r := AssignAll(codec, fields, columns, Scanned(row, columns));
      r.Ok? && forall c :: ReadAt(codec, fields, row, columns, r.fields, c)
  {
    hide Decoded, KindOf, ScanKind, AssignOne, Columns, Zero, Put, ReadAt, Next;
    if columns == [] {
      forall c
        ensures ReadAt(codec, fields, row, [], fields, c)
      {
        ReadNone(codec, fields, row, c);
      }
    } else {
      var before, x := Front(columns), Last(columns);
      AssignReads(codec, fields, row, before);
      AssignPrefix(codec, fields, before, Scanned(row, before), Scanned(row, columns));
      JsonColumns(x);
      KindsAgree(x);
      var read := AssignAll(codec, fields, before, Scanned(row, before)).fields;
      AssignOneReads(codec, read, x, row(x));
      assert columns == before + [x];
      forall c
        ensures ReadAt(codec, fields, row, columns, Next(codec, read, x, row(x)), c)
      {
        ReadStep(codec, fields, row, before, x, read, c);
      }
    }
  }

  lemma ReadNone(codec: Codec, fields: map<Column, Value>, row: Column -> Value, c: Column)
    ensures ReadAt(codec, fields, row, [], fields, c)
  {
  }

  lemma {:induction false} AssignPrefix(codec: Codec, fields: map<Column, Value>, columns: seq<Column>,
                                        hs: seq<Holder>, more: seq<Holder>)
    requires |columns| <= |hs| && |columns| <= |more| && forall i :: 0 <= i < |columns| ==> hs[i] == more[i]
    ensures AssignAll(codec, fields, columns, hs) == AssignAll(codec, fields, columns, more)
  {
    if columns != [] {
      AssignPrefix(codec, fields, Front(columns), hs, more);
    }
  }

  // ----- Scanning, as the entity does it -----

  /** The destinations for a scan of these columns. */
  method ScanValues(columns: seq<Column>) returns (values: array<Kind>)
    ensures fresh(values) && values.Length == |columns|
    ensures forall i :: 0 <= i < |columns| ==> values[i] == ScanKind(columns[i])
  {
    values := new Kind[|columns|](_ => UnknownKind);
    for i := 0 to |columns|
      invariant forall j :: 0 <= j < i ==> values[j] == ScanKind(columns[j])
    {
      values[i] := ScanKind(columns[i]);
    }
  }

  /** Assigning the columns up to some column gave `now`, and that column fails with `e`. */
  predicate FailsAfter(codec: Codec, before: map<Column, Value>, now: map<Column, Value>, columns: seq<Column>,
                       hs: seq<Holder>, e: Failure)
    requires |columns| <= |hs|
  {
    exists k :: 0 <= k < |columns| && AssignAll(codec, before, columns[..k], hs) == Ok(now)
                && AssignOne(codec, now, columns[k], hs[k]) == Err(e)
  }

  /** A scanned value that cannot be assigned: it was scanned into the wrong type, or is not JSON. */
  predicate Unassignable(codec: Codec, c: Column, h: Holder) {
    !c.Other? && (h.kind != KindOf(c) || Undecodable(codec, c, h.value))
  }

  predicate Undecodable(codec: Codec, c: Column, v: Value) {
    c in {Credentials, Extra} && v.Bytes? && v.raw != "" && codec.decode(v.raw).None?
  }

  /** Column k is the first that cannot be assigned. */
  predicate FirstUnassignable(codec: Codec, columns: seq<Column>, hs: seq<Holder>, k: nat)
    requires |columns| <= |hs|
  {
    && k < |columns| && Unassignable(codec, columns[k], hs[k])
    && forall j :: 0 <= j < k ==> !Unassignable(codec, columns[j], hs[j])
  }

  predicate Blames(c: Column, h: Holder, e: Failure) {
    e == if h.kind != KindOf(c) then UnexpectedType(c) else Unmarshal(c)
  }

  /** Whatever the fields hold, the assignment fails exactly if some column cannot be assigned, at
      the first one, and says whether the type or the JSON was to blame. */
  lemma {:induction false} AssignFailsIff(codec: Codec, fields: map<Column, Value>, columns: seq<Column>,
                                          hs: seq<Holder>)
    requires |columns| <= |hs|
    ensures match AssignAll(codec, fields, columns, hs)
      case Ok(_) => forall k :: 0 <= k < |columns| ==> !Unassignable(codec, columns[k], hs[k])
      case Err(e) => exists k: nat :: FirstUnassignable(codec, columns, hs, k) && Blames(columns[k], hs[k], e)
  {
    hide KindOf, Decoded, Put;
    if columns != [] {
      var n := |columns| - 1;
      AssignFailsIff(codec, fields, Front(columns), hs);
      JsonColumns(columns[n]);
      assert forall k :: 0 <= k < n ==> Front(columns)[k] == columns[k];
      if AssignAll(codec, fields, Front(columns), hs).Err? {
        var e := AssignAll(codec, fields, Front(columns), hs).failure;
        var k: nat :| FirstUnassignable(codec, Front(columns), hs, k) && Blames(Front(columns)[k], hs[k], e);
        assert FirstUnassignable(codec, columns, hs, k);
      } else if Unassignable(codec, columns[n], hs[n]) {
        assert FirstUnassignable(codec, columns, hs, n);
      }
    }
  }

  /** A JSON column is decoded into the object that is there: members of the row win, others stay. */
  lemma {:induction false} JsonMerges(codec: Codec, fields: map<Column, Value>, row: Column -> Value,
                                      columns: seq<Column>, c: Column)
    requires Readable(codec, row) && c in columns && c in {Credentials, Extra} && row(c).Bytes?
    requires codec.decode(row(c).raw).value.Object?
    requires c in fields && fields[c].Map? && fields[c].m.Object?
    ensures var r := AssignAll(codec, fields, columns, Scanned(row, columns));
      var old0, d := fields[c].m.members, codec.decode(row(c).raw).value.members;
      && r.Ok? && c in r.fields && r.fields[c].Map? && r.fields[c].m.Object?
      && (forall k :: k in r.fields[c].m.members <==> k in old0 || k in d)
      && (forall k :: k in d ==> r.fields[c].m.members[k] == d[k])
      && (forall k :: k in old0 && k !in d ==> r.fields[c].m.members[k] == old0[k])
  {
    hide AssignAll, Scanned;
    AssignReads(codec, fields, row, columns);
    assert ReadAt(codec, fields, row, columns, AssignAll(codec, fields, columns, Scanned(row, columns)).fields, c);
  }

  /** An account under construction: the fields a scan assigns. */
  class Entity {
    var fields: map<Column, Value>

    constructor ()
      ensures fields == Fresh()
    {
      fields := Fresh();
    }

    method AssignValues(codec: Codec, columns: seq<Column>, values: seq<Holder>) returns (err: Option<Failure>)
      modifies this
      ensures |values| < |columns| ==> err == Some(Mismatch) && fields == old(fields)
      ensures |values| >= |columns| ==>
        match AssignAll(codec, old(fields), columns, values)
        case Ok(f) => err == None && fields == f
        case Err(e) => err == Some(e) && FailsAfter(codec, old(fields), fields, columns, values, e)
    {
      if |values| < |columns| {
        return Some(Mismatch);
      }
      for i := 0 to |columns|
        invariant AssignAll(codec, old(fields), columns[..i], values) == Ok(fields)
      {
        assert Front(columns[..i + 1]) == columns[..i];
        var r := AssignOne(codec, fields, columns[i], values[i]);
        if r.Err? {
          FailureStays(codec, old(fields), columns, values, i + 1);
          return Some(r.failure);
        }
        fields := r.fields;
      }
      assert columns[..|columns|] == columns;
      err := None;
    }
  }

  lemma {:induction false} FailureStays(codec: Codec, fields: map<Column, Value>, columns: seq<Column>,
                                        hs: seq<Holder>, k: nat)
    requires |columns| <= |hs| && k <= |columns| && AssignAll(codec, fields, columns[..k], hs).Err?
    ensures AssignAll(codec, fields, columns, hs) == AssignAll(codec, fields, columns[..k], hs)
  {
    if k == |columns| {
      assert columns[..k] == columns;
    } else {
      assert Front(columns)[..k] == columns[..k];
      FailureStays(codec, fields, Front(columns), hs, k);
    }
  }

  // ----- Creating -----

  function Fresh(): map<Column, Value> {
    map c | c in Columns() :: Zero(c)
  }

  /** The insert: the columns set on the row; the proxy edge, which is stored in the proxy_id
      column; the groups to pair the account with; and the usage logs to point to it. */
  datatype CreateSpec = CreateSpec(
    fields: map<Column, Value>, groups: Option<seq<int>>, proxyEdge: Option<int>, usageLogs: Option<seq<int>>)

  /** The values set on a mutation have the types of their fields. */
  predicate WellTyped(codec: Codec, mutation: map<Column, Value>) {
    forall c :: c in mutation ==>
      !c.Other? && c != Id && HasKind(mutation[c], KindOf(c)) && (mutation[c].Map? ==> Inverts(codec, mutation[c].m))
  }

  function NodeOf(mutation: map<Column, Value>): map<Column, Value> {
    map c | c in Columns() :: if c in mutation then mutation[c] else Zero(c)
  }

  lemma ProxyIsInt(codec: Codec, mutation: map<Column, Value>)
    requires WellTyped(codec, mutation) && ProxyId in mutation
    ensures mutation[ProxyId].Int?
  {
  }

  /** The node once the first columns were looked at. */
  function NodeFrom(columns: seq<Column>, mutation: map<Column, Value>): map<Column, Value> {
    if columns == [] then Fresh() else
      var c, node := Last(columns), NodeFrom(Front(columns), mutation);
      if c in mutation then node[c := mutation[c]] else node
  }

  function SpecFields(columns: seq<Column>, mutation: map<Column, Value>): map<Column, Value> {
    if columns == [] then map[] else
      var c, fields := Last(columns), SpecFields(Front(columns), mutation);
      if c in mutation && c != ProxyId then fields[c := mutation[c]] else fields
  }

  function ProxyEdge(columns: seq<Column>, mutation: map<Column, Value>): Option<int> {
    if columns == [] then None
    else if Last(columns) == ProxyId && ProxyId in mutation && mutation[ProxyId].Int? then Some(mutation[ProxyId].i)
    else ProxyEdge(Front(columns), mutation)
  }

  lemma {:induction false} ProxyEdgeOf(columns: seq<Column>, mutation: map<Column, Value>)
    ensures ProxyEdge(columns, mutation) ==
      if ProxyId in columns && ProxyId in mutation && mutation[ProxyId].Int? then Some(mutation[ProxyId].i) else None
  {
    if columns != [] {
      ProxyEdgeOf(Front(columns), mutation);
      assert columns == Front(columns) + [Last(columns)];
    }
  }

  lemma {:induction false} ProxyFrom(mutation: map<Column, Value>)
    ensures ProxyEdge(Columns(), mutation) ==
      if ProxyId in mutation && mutation[ProxyId].Int? then Some(mutation[ProxyId].i) else None
  {
    hide Columns;
    ProxyEdgeOf(Columns(), mutation);
    ColumnsAreFields(ProxyId);
  }

  lemma {:induction false} NodeUpTo(columns: seq<Column>, mutation: map<Column, Value>)
    requires forall c :: c in mutation ==> !c.Other?
    ensures forall c :: c in NodeFrom(columns, mutation) <==> !c.Other?
    ensures forall c: Column :: !c.Other? ==>
      NodeFrom(columns, mutation)[c] == if c in columns && c in mutation then mutation[c] else Zero(c)
  {
    hide Columns, Zero, Fresh;
    if columns == [] {
      FreshFields();
    } else {
      NodeUpTo(Front(columns), mutation);
      assert columns == Front(columns) + [Last(columns)];
    }
  }

  lemma {:induction false} FieldsUpTo(columns: seq<Column>, mutation: map<Column, Value>)
    ensures SpecFields(columns, mutation) == map c | c in mutation && c in columns && c != ProxyId :: mutation[c]
  {
    if columns != [] {
      FieldsUpTo(Front(columns), mutation);
      assert columns == Front(columns) + [Last(columns)];
    }
  }

  /** Nothing is merged into a fresh entity. */
  lemma PutFresh(c: Column, v: Value)
    ensures Put(Fresh(), c, v) == v
  {
    hide Columns, Nullable, KindOf;
  }

  /** Reading into a fresh entity gives each field the value of its column, or leaves it zero. */
  lemma {:induction false} FreshReads(codec: Codec, row: Column -> Value, columns: seq<Column>, c: Column)
    requires Readable(codec, row)
    ensures var r := AssignAll(codec, Fresh(), columns, Scanned(row, columns));
      && r.Ok? && (c in r.fields <==> !c.Other?)
      && (!c.Other? ==>
           r.fields[c] == if Sets(codec, row, columns, c) then Decoded(codec, c, row(c)).value else Zero(c))
  {
    hide Decoded, Columns, Zero, Put, AssignAll, Readable, Scanned, Fresh;
    AssignReads(codec, Fresh(), row, columns);
    assert ReadAt(codec, Fresh(), row, columns, AssignAll(codec, Fresh(), columns, Scanned(row, columns)).fields, c);
    FreshFields();
    if Sets(codec, row, columns, c) {
      PutFresh(c, Decoded(codec, c, row(c)).value);
    }
  }

  lemma FreshFields()
    ensures forall c :: c in Fresh() <==> !c.Other?
    ensures forall c: Column :: !c.Other? ==> Fresh()[c] == Zero(c)
  {
    hide Columns, Zero;
    forall c: Column
      ensures c in Fresh() <==> !c.Other?
    {
      ColumnsAreFields(c);
    }
  }

  lemma {:induction false} Built(mutation: map<Column, Value>)
    requires forall c :: c in mutation ==> !c.Other?
    ensures NodeFrom(Columns(), mutation) == NodeOf(mutation)
    ensures SpecFields(Columns(), mutation) == map c | c in mutation && c != ProxyId :: mutation[c]
  {
    hide Columns, Zero, NodeFrom, SpecFields;
    NodeUpTo(Columns(), mutation);
    FieldsUpTo(Columns(), mutation);
    forall c: Column
      ensures c in Columns() <==> !c.Other?
    {
      ColumnsAreFields(c);
    }
  }

  lemma MutationTyped(codec: Codec, mutation: map<Column, Value>)
    requires WellTyped(codec, mutation)
    ensures forall c :: c in mutation ==> !c.Other?
    ensures ProxyId in mutation ==> mutation[ProxyId].Int?
  {
    if ProxyId in mutation {
      ProxyIsInt(codec, mutation);
    }
  }

  lemma {:induction false} BuildStart(mutation: map<Column, Value>)
    ensures NodeFrom([], mutation) == Fresh() && SpecFields([], mutation) == map[] && ProxyEdge([], mutation) == None
  {
  }

  lemma {:induction false} BuildStep(columns: seq<Column>, mutation: map<Column, Value>, k: nat)
    requires k < |columns| && (ProxyId in mutation ==> mutation[ProxyId].Int?)
    ensures var c, done, more := columns[k], columns[..k], columns[..k + 1];
      && NodeFrom(more, mutation) ==
           (if c in mutation then NodeFrom(done, mutation)[c := mutation[c]] else NodeFrom(done, mutation))
      && SpecFields(more, mutation) ==
           (if c in mutation && c != ProxyId then SpecFields(done, mutation)[c := mutation[c]]
            else SpecFields(done, mutation))
      && ProxyEdge(more, mutation) ==
           (if c in mutation && c == ProxyId then Some(mutation[c].i) else ProxyEdge(done, mutation))
  {
    hide Columns, Fresh;
    assert Front(columns[..k + 1]) == columns[..k];
  }

  /** The node and the insert for a mutation, set field by field. */
  method BuildCreate(codec: Codec, mutation: map<Column, Value>, groupIds: seq<int>, logIds: seq<int>)
    returns (node: map<Column, Value>, spec: CreateSpec)
    requires WellTyped(codec, mutation)
    ensures forall key, joined :: PairsAfter(spec, key, joined) == joined + set g | g in groupIds :: (key, g)
    ensures forall key, parents, log ::
      ParentAfter(spec, key, parents, log) == if log in logIds then Some(key) else parents(log)
    ensures node == NodeOf(mutation)
    ensures spec.fields == map c | c in mutation && c != ProxyId :: mutation[c]
    ensures spec.proxyEdge == if ProxyId in mutation then Some(mutation[ProxyId].i) else None
  {
    hide Columns, Zero, HasKind, NodeOf, Fresh, KindOf, WellTyped, NodeFrom, SpecFields, ProxyEdge;
    MutationTyped(codec, mutation);
    Built(mutation);
    ProxyFrom(mutation);
    BuildStart(mutation);
    node := Fresh();
    var fields: map<Column, Value> := map[];
    var proxyEdge := None;
    var columns := Columns();
    for k := 0 to |columns|
      invariant node == NodeFrom(columns[..k], mutation)
      invariant fields == SpecFields(columns[..k], mutation)
      invariant proxyEdge == ProxyEdge(columns[..k], mutation)
    {
      var c := columns[k];
      BuildStep(columns, mutation, k);
      if c in mutation {
        node := node[c := mutation[c]];
        if c == ProxyId {
          proxyEdge := Some(mutation[c].i);
        } else {
          fields := fields[c := mutation[c]];
        }
      }
    }
    assert columns[..|columns|] == columns;
    var groups := if |groupIds| > 0 then Some(groupIds) else None;
    var logs := if |logIds| > 0 then Some(logIds) else None;
    spec := CreateSpec(fields, groups, proxyEdge, logs);
  }

  function Stored(codec: Codec, v: Value): Value {
    if v.Map? then Bytes(codec.encode(v.m)) else v
  }

  /** The pairs of the join table after the insert of account `key`. */
  function PairsAfter(spec: CreateSpec, key: int, joined: set<(int, int)>): set<(int, int)> {
    if spec.groups.None? then joined else joined + set g | g in spec.groups.value :: (key, g)
  }

  /** The account a usage log points to after the insert of account `key`. */
  function ParentAfter(spec: CreateSpec, key: int, parents: int -> Option<int>, log: int): Option<int> {
    if spec.usageLogs.Some? && log in spec.usageLogs.value then Some(key) else parents(log)
  }

  /** The row the database holds after the insert, with the key it generated. */
  function RowOf(codec: Codec, spec: CreateSpec, key: int): Column -> Value {
    (c: Column) =>
      if c == Id then Int(key)
      else if c == ProxyId then (if spec.proxyEdge.Some? then Int(spec.proxyEdge.value) else Null)
      else if c in spec.fields then Stored(codec, spec.fields[c])
      else Null
  }

  /** Writing what a create specifies and reading any columns that cover the entity, in any
      order, gives back the node the create returned. */
  lemma {:induction false} CreateReadsBack(codec: Codec, mutation: map<Column, Value>, spec: CreateSpec, key: int,
                                           columns: seq<Column>)
    requires WellTyped(codec, mutation)
    requires spec.fields == map c | c in mutation && c != ProxyId :: mutation[c]
    requires spec.proxyEdge == if ProxyId in mutation && mutation[ProxyId].Int? then Some(mutation[ProxyId].i) else None
    requires forall c: Column :: !c.Other? ==> c in columns
    ensures AssignAll(codec, Fresh(), columns, Scanned(RowOf(codec, spec, key), columns)) ==
      Ok(NodeOf(mutation)[Id := Int(key)])
  {
    hide Columns, AssignAll, NodeOf, RowOf, Decoded, Zero, KindOf, Nullable, HasKind, Readable, Scanned, Fresh,
      WellTyped, Sets;
    var row := RowOf(codec, spec, key);
    var r := AssignAll(codec, Fresh(), columns, Scanned(row, columns));
    RowReadable(codec, mutation, spec, key);
    FreshReads(codec, row, columns, Id);
    NodeFields(mutation);
    forall c: Column
      ensures c in r.fields <==> !c.Other?
      ensures !c.Other? ==> r.fields[c] == NodeOf(mutation)[Id := Int(key)][c]
    {
      FreshReads(codec, row, columns, c);
      SetsExpected(codec, mutation, spec, key, columns, c);
    }
    SameFields(r.fields, NodeOf(mutation)[Id := Int(key)]);
  }

  lemma SetsExpected(codec: Codec, mutation: map<Column, Value>, spec: CreateSpec, key: int, columns: seq<Column>,
                     c: Column)
    requires WellTyped(codec, mutation)
    requires spec.fields == map c | c in mutation && c != ProxyId :: mutation[c]
    requires spec.proxyEdge == if ProxyId in mutation && mutation[ProxyId].Int? then Some(mutation[ProxyId].i) else None
    requires forall c: Column :: !c.Other? ==> c in columns
    ensures var row := RowOf(codec, spec, key);
      && (Sets(codec, row, columns, c) <==> !c.Other? && Expected(mutation, key, c).Some?)
      && (!c.Other? ==> Decoded(codec, c, row(c)) == Expected(mutation, key, c))
  {
    hide RowOf, Decoded, WellTyped, Expected;
    if !c.Other? {
      RowDecodes(codec, mutation, spec, key, c);
    }
  }

  lemma SameFields(f: map<Column, Value>, g: map<Column, Value>)
    requires forall c :: c in f <==> !c.Other?
    requires forall c :: c in g <==> !c.Other?
    requires forall c: Column :: !c.Other? ==> f[c] == g[c]
    ensures f == g
  {
    assert f.Keys == g.Keys;
  }

  lemma NodeFields(mutation: map<Column, Value>)
    ensures forall c :: c in NodeOf(mutation) <==> !c.Other?
    ensures forall c: Column :: !c.Other? ==> NodeOf(mutation)[c] == if c in mutation then mutation[c] else Zero(c)
  {
    hide Columns, Zero;
    forall c: Column
      ensures c in NodeOf(mutation) <==> !c.Other?
    {
      ColumnsAreFields(c);
    }
  }

  lemma StoredDecodes(codec: Codec, c: Column, v: Value)
    requires !c.Other? && c != Id && HasKind(v, KindOf(c)) && (v.Map? ==> Inverts(codec, v.m))
    ensures Decoded(codec, c, Stored(codec, v)) == Some(v) && Decoded(codec, c, Null) == None
  {
  }

  function Expected(mutation: map<Column, Value>, key: int, c: Column): Option<Value> {
    if c == Id then Some(Int(key)) else if c in mutation then Some(mutation[c]) else None
  }

  lemma RowDecodes(codec: Codec, mutation: map<Column, Value>, spec: CreateSpec, key: int, c: Column)
    requires WellTyped(codec, mutation) && !c.Other?
    requires spec.fields == map c | c in mutation && c != ProxyId :: mutation[c]
    requires spec.proxyEdge == if ProxyId in mutation && mutation[ProxyId].Int? then Some(mutation[ProxyId].i) else None
    ensures Decoded(codec, c, RowOf(codec, spec, key)(c)) == Expected(mutation, key, c)
  {
    hide WellTyped, Decoded, KindOf, HasKind, Columns;
    if c == Id {
      KeyDecodes(codec, key);
    } else if c in mutation {
      TypedAt(codec, mutation, c);
      StoredDecodes(codec, c, mutation[c]);
      if c == ProxyId {
        ProxyIsInt(codec, mutation);
      }
    } else {
      NullDecodes(codec, c);
    }
  }

  lemma KeyDecodes(codec: Codec, key: int)
    ensures Decoded(codec, Id, Int(key)) == Some(Int(key))
  {
  }

  lemma TypedAt(codec: Codec, mutation: map<Column, Value>, c: Column)
    requires WellTyped(codec, mutation) && c in mutation
    ensures !c.Other? && c != Id && HasKind(mutation[c], KindOf(c))
      && (mutation[c].Map? ==> Inverts(codec, mutation[c].m))
  {
  }

  lemma NullDecodes(codec: Codec, c: Column)
    requires c != Id
    ensures Decoded(codec, c, Null) == None
  {
  }

  lemma RowReadable(codec: Codec, mutation: map<Column, Value>, spec: CreateSpec, key: int)
    requires WellTyped(codec, mutation)
    requires spec.fields == map c | c in mutation && c != ProxyId :: mutation[c]
    ensures Readable(codec, RowOf(codec, spec, key))
  {
    hide RowOf, ReadableJson, WellTyped, KindOf;
    JsonColumns(Credentials);
    JsonColumns(Extra);
    RowReadableAt(codec, mutation, spec, key, Credentials);
    RowReadableAt(codec, mutation, spec, key, Extra);
  }

  lemma RowReadableAt(codec: Codec, mutation: map<Column, Value>, spec: CreateSpec, key: int, c: Column)
    requires WellTyped(codec, mutation) && KindOf(c).JsonKind? && c != Id && c != ProxyId
    requires spec.fields == map c | c in mutation && c != ProxyId :: mutation[c]
    ensures ReadableJson(codec, RowOf(codec, spec, key)(c))
  {
  }
}
