/**
 * The positional wire format of a document record: one value per property, in the
 * order of a field manifest. This is the generic "describe, then extract" routine
 * (JsonHelper.GetPropertyNames / GetPropertyValues) with reflection replaced by an
 * explicit descriptor per record type.
 */
module Wire {
  import opened Wrappers

  /**
   * One entry of a value row: what a property's `object?` value serialises to.
   * C# `decimal` is represented by `real`; no rounding is modelled.
   */
  datatype Value = Null | Str(s: string) | Int(i: int) | Dec(d: real)

  /** The declared C# type of a property: string, string?, int, int?, decimal, decimal?. */
  datatype Kind = Text | OptText | Integer | OptInteger | Number | OptNumber {
    /** Properties of a nullable type may hold null; the others never do. */
    predicate Nullable() { this == OptText || this == OptInteger || this == OptNumber }
  }

  /** The values a property of kind `k` can take in a row. */
  predicate Conforms(v: Value, k: Kind) {
    match k
    case Text => v.Str?
    case OptText => v.Null? || v.Str?
    case Integer => v.Int?
    case OptInteger => v.Null? || v.Int?
    case Number => v.Dec?
    case OptNumber => v.Null? || v.Dec?
  }

  // Boxing: what a property value of each declared type becomes in a row, and the
  // receiver's unboxing of a row entry of that type.

  function OfText(s: string): (v: Value)
    ensures Conforms(v, Text) && TextOf(v) == s
  {
    Str(s)
  }

  function OfOptText(s: Option<string>): (v: Value)
    ensures Conforms(v, OptText) && OptTextOf(v) == s
    ensures v == Null <==> s == None
  {
    if s.Some? then Str(s.value) else Null
  }

  function OfInteger(n: int): (v: Value)
    ensures Conforms(v, Integer) && IntegerOf(v) == n
  {
    Int(n)
  }

  function OfOptInteger(n: Option<int>): (v: Value)
    ensures Conforms(v, OptInteger) && OptIntegerOf(v) == n
    ensures v == Null <==> n == None
  {
    if n.Some? then Int(n.value) else Null
  }

  function OfNumber(d: real): (v: Value)
    ensures Conforms(v, Number) && NumberOf(v) == d
  {
    Dec(d)
  }

  function OfOptNumber(d: Option<real>): (v: Value)
    ensures Conforms(v, OptNumber) && OptNumberOf(v) == d
    ensures v == Null <==> d == None
  {
    if d.Some? then Dec(d.value) else Null
  }

  // Unboxing reads an entry back as the property type; an entry of another type
  // (which a row that Fits never holds) reads as that type's default.

  function TextOf(v: Value): string {
    if v.Str? then v.s else ""
  }

  function OptTextOf(v: Value): Option<string> {
    if v.Str? then Some(v.s) else None
  }

  function IntegerOf(v: Value): int {
    if v.Int? then v.i else 0
  }

  function OptIntegerOf(v: Value): Option<int> {
    if v.Int? then Some(v.i) else None
  }

  function NumberOf(v: Value): real {
    if v.Dec? then v.d else 0.0
  }

  function OptNumberOf(v: Value): Option<real> {
    if v.Dec? then Some(v.d) else None
  }

  /**
   * What reflection tells about a record type R whose properties are named by F:
   * the public readable properties in declaration order, each one's name, declared
   * type and getter.
   */
  datatype Descriptor<!R, !F> = Descriptor(
    fields: seq<F>,
    name: F -> string,
    kind: F -> Kind,
    get: (R, F) -> Value)

  /** GetPropertyNames<T>(): the manifest, one name per property, in declaration order. */
  function PropertyNames<R, F>(d: Descriptor<R, F>): (names: seq<string>)
    ensures |names| == |d.fields|
    ensures forall i | 0 <= i < |names| :: names[i] == d.name(d.fields[i])
  {
    seq(|d.fields|, i requires 0 <= i < |d.fields| => d.name(d.fields[i]))
  }

  /**
   * GetPropertyValues(obj, names) for names taken from the same type: entry i is the
   * value of the property the manifest names at position i.
   */
  function PropertyValues<R, F>(d: Descriptor<R, F>, obj: R): (row: seq<Value>)
    ensures |row| == |PropertyNames(d)|
    ensures forall i | 0 <= i < |row| :: row[i] == d.get(obj, d.fields[i])
  {
    seq(|d.fields|, i requires 0 <= i < |d.fields| => d.get(obj, d.fields[i]))
  }

  /** Every getter of the descriptor returns a value of its property's declared type. */
  ghost predicate Sound<R(!new), F(!new)>(d: Descriptor<R, F>) {
    forall obj, f :: Conforms(d.get(obj, f), d.kind(f))
  }

  /** No two positions of the manifest carry the same name. */
  predicate NamesDistinct<R, F>(d: Descriptor<R, F>) {
    forall i, j | 0 <= i < j < |d.fields| :: d.name(d.fields[i]) != d.name(d.fields[j])
  }

  /** A map from names back to positions that undoes the manifest shows its names distinct. */
  lemma {:induction false} DistinctByPosition<R, F>(d: Descriptor<R, F>, position: string -> int)
    requires forall i | 0 <= i < |d.fields| :: position(d.name(d.fields[i])) == i
    ensures NamesDistinct(d)
  {
    forall i, j | 0 <= i < j < |d.fields|
      ensures d.name(d.fields[i]) != d.name(d.fields[j])
    {
      assert position(d.name(d.fields[i])) == i;
      assert position(d.name(d.fields[j])) == j;
    }
  }

  /**
   * A row the receiver can read against the descriptor's manifest: one entry per
   * property, each of that property's declared type.
   */
  predicate Fits<R, F>(d: Descriptor<R, F>, row: seq<Value>) {
    |row| == |d.fields| && forall i | 0 <= i < |row| :: Conforms(row[i], d.kind(d.fields[i]))
  }

  /** Every row the encoder produces has one entry per manifest name, each of the right type. */
  lemma PropertyValuesFit<R(!new), F(!new)>(d: Descriptor<R, F>, obj: R)
    requires Sound(d)
    ensures Fits(d, PropertyValues(d, obj))
    ensures |PropertyValues(d, obj)| == |PropertyNames(d)|
  {
  }
}
