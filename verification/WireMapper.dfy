/** The mapper generated for a data model: wire_read, wire_write and _render_providers of
    src/ports/templates.py, and what the emitted Dart expressions evaluate to. */
module WireMapper {
  datatype FieldType = Text | Number | Bool | Date

  datatype Field = Field(name: string, kind: FieldType)

  // ---- the emitted Dart ----------------------------------------------------

  function DartType(t: FieldType): string {
    match t
    case Text => "String"
    case Number => "num"
    case Bool => "bool"
    case Date => "DateTime"
  }

  function DartDefault(t: FieldType): string {
    match t
    case Text => "''"
    case Number => "0"
    case Bool => "false"
    case Date => "DateTime.now()"
  }

  function WireRead(name: string, t: FieldType): string {
    if t == Date then "(data['" + name + "'] as Timestamp?)?.toDate() ?? " + DartDefault(t)
    else "(data['" + name + "'] as " + DartType(t) + "?) ?? " + DartDefault(t)
  }

  function WireWrite(name: string, t: FieldType): string {
    if t == Date then "Timestamp.fromDate(" + name + ")" else name
  }

  /** The part of Dart those strings are written in. */
  datatype Expr =
    | Data(key: string)
    | Own(name: string)
    | As(e: Expr, dart: string)
    | ToDate(e: Expr)
    | FromDate(e: Expr)
    | IfNull(e: Expr, otherwise: Expr)
    | Literal(dart: string)

  function Printed(e: Expr): string {
    match e
    case Data(k) => "data['" + k + "']"
    case Own(n) => n
    case As(x, dart) => "(" + Printed(x) + " as " + dart + "?)"
    case ToDate(x) => Printed(x) + "?.toDate()"
    case FromDate(x) => "Timestamp.fromDate(" + Printed(x) + ")"
    case IfNull(x, y) => Printed(x) + " ?? " + Printed(y)
    case Literal(dart) => dart
  }

  function ReadExpr(f: Field): Expr {
    var otherwise := Literal(DartDefault(f.kind));
    if f.kind == Date then IfNull(ToDate(As(Data(f.name), "Timestamp")), otherwise)
    else IfNull(As(Data(f.name), DartType(f.kind)), otherwise)
  }

  function WriteExpr(f: Field): Expr {
    if f.kind == Date then FromDate(Own(f.name)) else Own(f.name)
  }

  lemma Spliced(a: string, b: string, n: string, c: string, d: string)
    ensures a + (b + n + c) + d == (a + b) + n + (c + d)
  {
  }

  lemma Glued(a: string, b: string, c: string, d: string)
    ensures a + b + c + d == a + (b + c + d)
  {
  }

  lemma DateCastText(before: string)
    ensures before + " as " + "Timestamp" + "?)" == before + " as Timestamp?)"
  {
    Glued(before, " as ", "Timestamp", "?)");
    assert " as " + "Timestamp" + "?)" == " as Timestamp?)";
  }

  lemma DateReadText(before: string)
    ensures before + " as Timestamp?)" + "?.toDate()" + " ?? " == before + " as Timestamp?)?.toDate() ?? "
  {
    Glued(before, " as Timestamp?)", "?.toDate()", " ?? ");
    assert " as Timestamp?)" + "?.toDate()" + " ?? " == " as Timestamp?)?.toDate() ?? ";
  }

  lemma DateKeyText(name: string)
    ensures "(" + ("data['" + name + "']") + " as Timestamp?)?.toDate() ?? "
         == "(data['" + name + "'] as Timestamp?)?.toDate() ?? "
  {
    assert "(" + "data['" == "(data['";
    assert "']" + " as Timestamp?)?.toDate() ?? " == "'] as Timestamp?)?.toDate() ?? ";
    Spliced("(", "data['", name, "']", " as Timestamp?)?.toDate() ?? ");
  }

  lemma EmittedDateRead(name: string)
    ensures Printed(ReadExpr(Field(name, Date))) == WireRead(name, Date)
  {
    DateCastText("(" + Printed(Data(name)));
    DateReadText("(" + Printed(Data(name)));
    DateKeyText(name);
    var cast := As(Data(name), "Timestamp");
    assert Printed(ToDate(cast)) == Printed(cast) + "?.toDate()";
  }

  lemma EmittedPlainRead(name: string, kind: FieldType)
    requires kind != Date
    ensures Printed(ReadExpr(Field(name, kind))) == WireRead(name, kind)
  {
    var (cast, dart) := ("(" + Printed(Data(name)) + " as ", DartType(kind));
    Spliced("(", "data['", name, "']", " as ");
    assert "(" + "data['" == "(data['" && "']" + " as " == "'] as ";
    Glued(cast, dart, "?)", " ?? ");
    Glued(cast, dart, "?) ?? ", "");
    assert "?)" + " ?? " == "?) ?? ";
    assert dart + "?)" + " ?? " == dart + "?) ?? ";
    assert cast + (dart + "?) ?? ") == cast + dart + "?) ?? ";
  }

  /** The expressions evaluated below are the ones whose text is emitted. */
  lemma EmittedText(f: Field)
    ensures Printed(ReadExpr(f)) == WireRead(f.name, f.kind)
    ensures Printed(WriteExpr(f)) == WireWrite(f.name, f.kind)
  {
    if f.kind == Date { EmittedDateRead(f.name); } else { EmittedPlainRead(f.name, f.kind); }
  }

  // ---- what it evaluates to ------------------------------------------------

  /** Dart values; a DateTime or Timestamp is the instant it stands for. */
  datatype Value =
    | Null
    | Str(s: string)
    | Num(n: real)
    | Flag(b: bool)
    | DateTime(instant: int)
    | Timestamp(at: int)

  datatype Outcome<+T> = Done(value: T) | Threw

  predicate IsA(v: Value, dart: string) {
    match v
    case Null => false
    case Str(_) => dart == "String"
    case Num(_) => dart == "num"
    case Flag(_) => dart == "bool"
    case DateTime(_) => dart == "DateTime"
    case Timestamp(_) => dart == "Timestamp"
  }

  /** The blank value of a field: an empty text, zero, false, or the present moment. */
  function DefaultOf(t: FieldType, now: int): Value {
    match t
    case Text => Str("")
    case Number => Num(0.0)
    case Bool => Flag(false)
    case Date => DateTime(now)
  }

  /** What a Dart expression without variables stands for. */
  function Meaning(dart: string, now: int): Outcome<Value> {
    if dart == "''" then Done(Str(""))
    else if dart == "0" then Done(Num(0.0))
    else if dart == "1" then Done(Num(1.0))
    else if dart == "false" then Done(Flag(false))
    else if dart == "true" then Done(Flag(true))
    else if dart == "null" then Done(Null)
    else if dart == "DateTime.now()" then Done(DateTime(now))
    else Threw
  }

  /** An expression over a document's data and an object's own fields. */
  function Eval(e: Expr, data: map<string, Value>, own: map<string, Value>, now: int): Outcome<Value> {
    match e
    case Data(k) => Done(if k in data then data[k] else Null)
    case Own(n) => if n in own then Done(own[n]) else Threw
    case As(x, dart) =>
      var v := Eval(x, data, own, now);
      if v.Done? && (v.value == Null || IsA(v.value, dart)) then v else Threw
    case ToDate(x) =>
      var v := Eval(x, data, own, now);
      if v.Threw? || v.value == Null then v
      else if v.value.Timestamp? then Done(DateTime(v.value.at))
      else Threw
    case FromDate(x) =>
      var v := Eval(x, data, own, now);
      if v.Done? && v.value.DateTime? then Done(Timestamp(v.value.instant)) else Threw
    case IfNull(x, y) =>
      var v := Eval(x, data, own, now);
      if v == Done(Null) then Eval(y, data, own, now) else v
    case Literal(dart) => Meaning(dart, now)
  }

  /** Map literals and named arguments alike: one expression for each name, in order. */
  datatype Entry = Entry(key: string, e: Expr)

  function Build(entries: seq<Entry>, data: map<string, Value>, own: map<string, Value>, now: int)
    : Outcome<map<string, Value>>
  {
    if entries == [] then Done(map[])
    else
      var last := entries[|entries| - 1];
      var most := Build(entries[..|entries| - 1], data, own, now);
      var v := Eval(last.e, data, own, now);
      if most.Done? && v.Done? then Done(most.value[last.key := v.value]) else Threw
  }

  function FromMap(fields: seq<Field>): seq<Entry> {
    seq(|fields|, i requires 0 <= i < |fields| => Entry(fields[i].name, ReadExpr(fields[i])))
  }

  function ToMap(fields: seq<Field>): seq<Entry> {
    seq(|fields|, i requires 0 <= i < |fields| => Entry(fields[i].name, WriteExpr(fields[i])))
  }

  /** toMap() of an object with these field values. */
  function Written(fields: seq<Field>, own: map<string, Value>, now: int): Outcome<map<string, Value>> {
    Build(ToMap(fields), map[], own, now)
  }

  /** fromSnapshot() of a document with this data: the field values of the new object. */
  function ReadBack(fields: seq<Field>, data: map<string, Value>, now: int): Outcome<map<string, Value>> {
    Build(FromMap(fields), data, map[], now)
  }

  /** What the database hands back: it has no date type but Timestamp. */
  function Stored(data: map<string, Value>): map<string, Value> {
    map k | k in data :: if data[k].DateTime? then Timestamp(data[k].instant) else data[k]
  }

  // ---- properties ----------------------------------------------------------

  /** A value of the kind the data model means. */
  predicate OfKind(v: Value, t: FieldType) {
    match t
    case Text => v.Str?
    case Number => v.Num?
    case Bool => v.Flag?
    case Date => v.DateTime?
  }

  /** The same as the database keeps it: it has no date type but Timestamp. */
  predicate OnWire(v: Value, t: FieldType) { if t == Date then v.Timestamp? else OfKind(v, t) }

  lemma DefaultMeans(t: FieldType, now: int)
    ensures Meaning(DartDefault(t), now) == Done(DefaultOf(t, now)) && OfKind(DefaultOf(t, now), t)
  {
  }

  /** The emitted casts are to the type of exactly the values meant. */
  lemma CastsFit(v: Value, t: FieldType)
    ensures IsA(v, DartType(t)) <==> OfKind(v, t)
    ensures IsA(v, "Timestamp") <==> v.Timestamp?
  {
  }

  function FromWire(v: Value): Value { if v.Timestamp? then DateTime(v.at) else v }

  /** Reading a field of any document at all: the blank value when it is missing or null, the value when
      it is of the kind the database keeps, and a failed cast exactly for everything else. */
  lemma ReadOutcome(f: Field, data: map<string, Value>, own: map<string, Value>, now: int)
    ensures Eval(ReadExpr(f), data, own, now) ==
            if f.name !in data || data[f.name] == Null then Done(DefaultOf(f.kind, now))
            else if OnWire(data[f.name], f.kind) then Done(FromWire(data[f.name]))
            else Threw
  {
    var v := if f.name in data then data[f.name] else Null;
    var otherwise := Literal(DartDefault(f.kind));
    DefaultMeans(f.kind, now);
    assert Eval(otherwise, data, own, now) == Done(DefaultOf(f.kind, now));
    assert Eval(Data(f.name), data, own, now) == Done(v);
    CastsFit(v, f.kind);
    if f.kind == Date {
      DateReadOutcome(f.name, otherwise, v, data, own, now);
    } else {
      var cast := As(Data(f.name), DartType(f.kind));
      assert Eval(cast, data, own, now) == if v == Null || OfKind(v, f.kind) then Done(v) else Threw;
    }
  }

  lemma DateReadOutcome(name: string, otherwise: Expr, v: Value, data: map<string, Value>, own: map<string, Value>, now: int)
    requires Eval(Data(name), data, own, now) == Done(v)
    ensures Eval(IfNull(ToDate(As(Data(name), "Timestamp")), otherwise), data, own, now) ==
            if v == Null then Eval(otherwise, data, own, now)
            else if v.Timestamp? then Done(DateTime(v.at))
            else Threw
  {
    var cast := As(Data(name), "Timestamp");
    CastsFit(v, Date);
    assert Eval(cast, data, own, now) == if v == Null || v.Timestamp? then Done(v) else Threw;
    assert Eval(ToDate(cast), data, own, now) ==
           if v == Null then Done(Null) else if v.Timestamp? then Done(DateTime(v.at)) else Threw;
  }

  lemma {:induction false} BuildsWhen(es: seq<Entry>, data: map<string, Value>, own: map<string, Value>, now: int)
    ensures Build(es, data, own, now).Done? <==>
            forall i :: 0 <= i < |es| ==> Eval(es[i].e, data, own, now).Done?
  {
    if es != [] {
      BuildsWhen(es[..|es| - 1], data, own, now);
    }
  }

  predicate Readable(f: Field, data: map<string, Value>) {
    f.name !in data || data[f.name] == Null || OnWire(data[f.name], f.kind)
  }

  /** A whole document reads back exactly when no field of it holds a value of another type. */
  lemma ReadableWhen(fields: seq<Field>, data: map<string, Value>, now: int)
    ensures ReadBack(fields, data, now).Done? <==>
            forall i :: 0 <= i < |fields| ==> Readable(fields[i], data)
  {
    var es := FromMap(fields);
    BuildsWhen(es, data, map[], now);
    forall i | 0 <= i < |fields| ensures Eval(es[i].e, data, map[], now).Done? <==> Readable(fields[i], data) {
      ReadOutcome(fields[i], data, map[], now);
    }
  }

  function Names(fields: seq<Field>): set<string> { set i | 0 <= i < |fields| :: fields[i].name }

  /** An object of the generated class: a value of the declared type in every field, and no other. */
  predicate Typed(fields: seq<Field>, own: map<string, Value>) {
    && own.Keys == Names(fields)
    && forall i :: 0 <= i < |fields| ==> OfKind(own[fields[i].name], fields[i].kind)
  }

  function Keys(es: seq<Entry>): set<string> { set i | 0 <= i < |es| :: es[i].key }

  predicate Gives(e: Entry, want: map<string, Value>, data: map<string, Value>, own: map<string, Value>, now: int) {
    e.key in want && Eval(e.e, data, own, now) == Done(want[e.key])
  }

  /** Expressions that all evaluate to what is wanted under their name build just that. */
  lemma {:induction false} BuildsWanted(es: seq<Entry>, want: map<string, Value>,
                                        data: map<string, Value>, own: map<string, Value>, now: int)
    requires forall i :: 0 <= i < |es| ==> Gives(es[i], want, data, own, now)
    ensures Build(es, data, own, now) == Done(map k | k in want && k in Keys(es) :: want[k])
  {
    if es != [] {
      var (most, last) := (es[..|es| - 1], es[|es| - 1]);
      BuildsWanted(most, want, data, own, now);
      assert Gives(last, want, data, own, now);
      assert Keys(es) == Keys(most) + {last.key} by {
        assert forall i :: 0 <= i < |most| ==> most[i] == es[i];
      }
      assert (map k | k in want && k in Keys(most) :: want[k])[last.key := want[last.key]]
          == (map k | k in want && k in Keys(es) :: want[k]);
    }
  }

  function ToWire(v: Value): Value { if v.DateTime? then Timestamp(v.instant) else v }

  function OnTheWire(own: map<string, Value>): map<string, Value> { map k | k in own :: ToWire(own[k]) }

  lemma KeysAreNames(fields: seq<Field>, es: seq<Entry>)
    requires |es| == |fields| && forall i :: 0 <= i < |es| ==> es[i].key == fields[i].name
    ensures Keys(es) == Names(fields)
  {
  }

  lemma WriteGives(f: Field, own: map<string, Value>, now: int)
    requires f.name in own && OfKind(own[f.name], f.kind)
    ensures Eval(WriteExpr(f), map[], own, now) == Done(ToWire(own[f.name]))
  {
    assert Eval(Own(f.name), map[], own, now) == Done(own[f.name]);
  }

  lemma ReadGives(f: Field, own: map<string, Value>, now: int)
    requires f.name in own && OfKind(own[f.name], f.kind)
    ensures Eval(ReadExpr(f), OnTheWire(own), map[], now) == Done(own[f.name])
  {
    ReadOutcome(f, OnTheWire(own), map[], now);
  }

  /** toMap stores every field under its own name, dates as Timestamps. */
  lemma WritesEvery(fields: seq<Field>, own: map<string, Value>, now: int)
    requires Typed(fields, own)
    ensures Written(fields, own, now) == Done(OnTheWire(own))
  {
    var (es, wire) := (ToMap(fields), OnTheWire(own));
    forall i | 0 <= i < |es| ensures Gives(es[i], wire, map[], own, now) {
      assert fields[i].name in Names(fields);
      WriteGives(fields[i], own, now);
    }
    BuildsWanted(es, wire, map[], own, now);
    KeysAreNames(fields, es);
    assert (map k | k in wire && k in Keys(es) :: wire[k]) == wire;
  }

  lemma ReadsEvery(fields: seq<Field>, own: map<string, Value>, now: int)
    requires Typed(fields, own)
    ensures ReadBack(fields, OnTheWire(own), now) == Done(own)
  {
    var es := FromMap(fields);
    forall i | 0 <= i < |es| ensures Gives(es[i], own, OnTheWire(own), map[], now) {
      assert fields[i].name in Names(fields);
      ReadGives(fields[i], own, now);
    }
    BuildsWanted(es, own, OnTheWire(own), map[], now);
    KeysAreNames(fields, es);
    assert (map k | k in own && k in Keys(es) :: own[k]) == own;
  }

  /** For every data model and every object of its class: what toMap stores reads back without a
      failed cast, and as the same object. */
  lemma MapperRoundTrip(fields: seq<Field>, own: map<string, Value>, now: int, later: int)
    requires Typed(fields, own)
    ensures Written(fields, own, now).Done?
    ensures ReadBack(fields, Stored(Written(fields, own, now).value), later) == Done(own)
  {
    WritesEvery(fields, own, now);
    assert Stored(OnTheWire(own)) == OnTheWire(own);
    ReadsEvery(fields, own, later);
  }
}
