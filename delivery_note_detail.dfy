/**
 * The delivery-note line record (DeliveryNoteDetail.cs): the properties its manifest lists,
 * their declared types and initialisers, and the positional encoding of a line.
 */
module DeliveryNoteDetail {
  import opened Wrappers
  import opened Wire

  /** One value of the record; nullable properties are `Option`s. */
  datatype DeliveryNoteDetail = DeliveryNoteDetail(
    itemCode: Option<string>,
    itemName: string,
    itemType: string,
    uom: Option<string>,
    quantity: real,
    price: real,
    amount: real,
    notShowOrdinalNumber: int,
    external1: Option<string>,
    external2: Option<string>,
    external3: Option<string>,
    numberExternal1: Option<real>,
    numberExternal2: Option<real>,
    numberExternal3: Option<real>)

  /** `new DeliveryNoteDetail()`: every property at its initialiser, or at the default of its type. */
  function New(): DeliveryNoteDetail {
    DeliveryNoteDetail(
      None,
      "",
      "01",
      None,
      0.0,
      0.0,
      0.0,
      0,
      None,
      None,
      None,
      None,
      None,
      None)
  }

  /** The public readable properties, as an enumeration. */
  datatype Field = ItemCode | ItemName | ItemType | UOM | Quantity | Price | Amount
    | NotShowOrdinalNumber | External1 | External2 | External3 | NumberExternal1 | NumberExternal2
    | NumberExternal3

  /** The property at each position of the declaration order (a binary search on the position). */
  function FieldAt(i: nat): (f: Field)
    requires i < 14
  {
    if i < 7 then
      if i < 3 then
        if i < 1 then
          ItemCode
        else
          if i < 2 then
            ItemName
          else
            ItemType
      else
        if i < 5 then
          if i < 4 then
            UOM
          else
            Quantity
        else
          if i < 6 then
            Price
          else
            Amount
    else
      if i < 10 then
        if i < 8 then
          NotShowOrdinalNumber
        else
          if i < 9 then
            External1
          else
            External2
      else
        if i < 12 then
          if i < 11 then
            External3
          else
            NumberExternal1
        else
          if i < 13 then
            NumberExternal2
          else
            NumberExternal3
  }

  /** The properties in declaration order: the order the manifest lists them in. */
  function Fields(): (fs: seq<Field>)
    ensures |fs| == 14 && forall i | 0 <= i < 14 :: fs[i] == FieldAt(i)
  {
    seq(14, i requires 0 <= i < 14 => FieldAt(i))
  }

  /** The property name reflection reports, which is also the JSON manifest entry. */
  function Name(f: Field): string {
    match f
    case ItemCode => "ItemCode"
    case ItemName => "ItemName"
    case ItemType => "ItemType"
    case UOM => "UOM"
    case Quantity => "Quantity"
    case Price => "Price"
    case Amount => "Amount"
    case NotShowOrdinalNumber => "NotShowOrdinalNumber"
    case External1 => "External1"
    case External2 => "External2"
    case External3 => "External3"
    case NumberExternal1 => "NumberExternal1"
    case NumberExternal2 => "NumberExternal2"
    case NumberExternal3 => "NumberExternal3"
  }

  /** The declared type of each property. */
  function KindOf(f: Field): Kind {
    match f
    case ItemCode => OptText
    case ItemName => Text
    case ItemType => Text
    case UOM => OptText
    case Quantity => Number
    case Price => Number
    case Amount => Number
    case NotShowOrdinalNumber => Integer
    case External1 => OptText
    case External2 => OptText
    case External3 => OptText
    case NumberExternal1 => OptNumber
    case NumberExternal2 => OptNumber
    case NumberExternal3 => OptNumber
  }

  /** The property getter, boxed as a row entry; the value always fits the declared type. */
  function Get(m: DeliveryNoteDetail, f: Field): (v: Value)
    ensures Conforms(v, KindOf(f))
  {
    match f
    case ItemCode => OfOptText(m.itemCode)
    case ItemName => OfText(m.itemName)
    case ItemType => OfText(m.itemType)
    case UOM => OfOptText(m.uom)
    case Quantity => OfNumber(m.quantity)
    case Price => OfNumber(m.price)
    case Amount => OfNumber(m.amount)
    case NotShowOrdinalNumber => OfInteger(m.notShowOrdinalNumber)
    case External1 => OfOptText(m.external1)
    case External2 => OfOptText(m.external2)
    case External3 => OfOptText(m.external3)
    case NumberExternal1 => OfOptNumber(m.numberExternal1)
    case NumberExternal2 => OfOptNumber(m.numberExternal2)
    case NumberExternal3 => OfOptNumber(m.numberExternal3)
  }

  const Schema: Descriptor<DeliveryNoteDetail, Field> := Descriptor(Fields(), Name, KindOf, Get)

  /**
   * The receiver's reading of a value row: entry i becomes the property at position i
   * of the manifest, or None when the row has the wrong length or an entry of the
   * wrong type.
   */
  function Decode(row: seq<Value>): Option<DeliveryNoteDetail> {
    if Fits(Schema, row) then
      Some(DeliveryNoteDetail(
        OptTextOf(row[0]),
        TextOf(row[1]),
        TextOf(row[2]),
        OptTextOf(row[3]),
        NumberOf(row[4]),
        NumberOf(row[5]),
        NumberOf(row[6]),
        IntegerOf(row[7]),
        OptTextOf(row[8]),
        OptTextOf(row[9]),
        OptTextOf(row[10]),
        OptNumberOf(row[11]),
        OptNumberOf(row[12]),
        OptNumberOf(row[13])))
    else
      None
  }

  /**
   * The position the manifest gives each name, or -1 for a name it does not list
   * (looked up by length first, then among the names of that length).
   */
  function PositionOf(name: string): int {
    if |name| == 3 then
      if name == "UOM" then 3
      else -1
    else if |name| == 5 then
      if name == "Price" then 5
      else -1
    else if |name| == 6 then
      if name == "Amount" then 6
      else -1
    else if |name| == 8 then
      if name == "ItemCode" then 0
      else if name == "ItemName" then 1
      else if name == "ItemType" then 2
      else if name == "Quantity" then 4
      else -1
    else if |name| == 9 then
      if name == "External1" then 8
      else if name == "External2" then 9
      else if name == "External3" then 10
      else -1
    else if |name| == 15 then
      if name == "NumberExternal1" then 11
      else if name == "NumberExternal2" then 12
      else if name == "NumberExternal3" then 13
      else -1
    else if |name| == 20 then
      if name == "NotShowOrdinalNumber" then 7
      else -1
    else -1
  }

  /** Positions 0 to 5: PositionOf reads each name back as its position. */
  lemma NamePositions0()
    ensures forall i | 0 <= i < 6 :: PositionOf(Name(FieldAt(i))) == i
  {
  }

  /** Positions 6 to 11: PositionOf reads each name back as its position. */
  lemma NamePositions1()
    ensures forall i | 6 <= i < 12 :: PositionOf(Name(FieldAt(i))) == i
  {
  }

  /** Positions 12 to 13: PositionOf reads each name back as its position. */
  lemma NamePositions2()
    ensures forall i | 12 <= i < 14 :: PositionOf(Name(FieldAt(i))) == i
  {
  }

  /** Every getter returns a value of its property's declared type, and no name is listed twice. */
  lemma SchemaSound()
    ensures Sound(Schema)
    ensures NamesDistinct(Schema)
  {
    assert Schema.get == Get && Schema.kind == KindOf;
    assert Schema.fields == Fields() && Schema.name == Name;
    NamePositions0();
    NamePositions1();
    NamePositions2();
    DistinctByPosition(Schema, PositionOf);
  }

  /** Names 0 to 7 of the manifest. */
  lemma ManifestNames0()
    ensures PropertyNames(Schema)[0] == "ItemCode"
    ensures PropertyNames(Schema)[1] == "ItemName"
    ensures PropertyNames(Schema)[2] == "ItemType"
    ensures PropertyNames(Schema)[3] == "UOM"
    ensures PropertyNames(Schema)[4] == "Quantity"
    ensures PropertyNames(Schema)[5] == "Price"
    ensures PropertyNames(Schema)[6] == "Amount"
    ensures PropertyNames(Schema)[7] == "NotShowOrdinalNumber"
  {
    assert Schema.fields == Fields() && Schema.name == Name;
  }

  /** Names 8 to 13 of the manifest. */
  lemma ManifestNames1()
    ensures PropertyNames(Schema)[8] == "External1"
    ensures PropertyNames(Schema)[9] == "External2"
    ensures PropertyNames(Schema)[10] == "External3"
    ensures PropertyNames(Schema)[11] == "NumberExternal1"
    ensures PropertyNames(Schema)[12] == "NumberExternal2"
    ensures PropertyNames(Schema)[13] == "NumberExternal3"
  {
    assert Schema.fields == Fields() && Schema.name == Name;
  }

  /** The manifest: every property name, in declaration order. */
  lemma ManifestOrder()
    ensures |PropertyNames(Schema)| == 14
    ensures PropertyNames(Schema)[0] == "ItemCode"
    ensures PropertyNames(Schema)[1] == "ItemName"
    ensures PropertyNames(Schema)[2] == "ItemType"
    ensures PropertyNames(Schema)[3] == "UOM"
    ensures PropertyNames(Schema)[4] == "Quantity"
    ensures PropertyNames(Schema)[5] == "Price"
    ensures PropertyNames(Schema)[6] == "Amount"
    ensures PropertyNames(Schema)[7] == "NotShowOrdinalNumber"
    ensures PropertyNames(Schema)[8] == "External1"
    ensures PropertyNames(Schema)[9] == "External2"
    ensures PropertyNames(Schema)[10] == "External3"
    ensures PropertyNames(Schema)[11] == "NumberExternal1"
    ensures PropertyNames(Schema)[12] == "NumberExternal2"
    ensures PropertyNames(Schema)[13] == "NumberExternal3"
  {
    ManifestNames0();
    ManifestNames1();
  }

  /** Entries 0 to 3 of a record's row hold the boxed properties at those positions. */
  lemma RowEntries0(m: DeliveryNoteDetail)
    ensures PropertyValues(Schema, m)[0] == OfOptText(m.itemCode)
    ensures PropertyValues(Schema, m)[1] == OfText(m.itemName)
    ensures PropertyValues(Schema, m)[2] == OfText(m.itemType)
    ensures PropertyValues(Schema, m)[3] == OfOptText(m.uom)
  {
    assert Schema.fields == Fields() && Schema.get == Get;
  }

  /** Entries 4 to 7 of a record's row hold the boxed properties at those positions. */
  lemma RowEntries1(m: DeliveryNoteDetail)
    ensures PropertyValues(Schema, m)[4] == OfNumber(m.quantity)
    ensures PropertyValues(Schema, m)[5] == OfNumber(m.price)
    ensures PropertyValues(Schema, m)[6] == OfNumber(m.amount)
    ensures PropertyValues(Schema, m)[7] == OfInteger(m.notShowOrdinalNumber)
  {
    assert Schema.fields == Fields() && Schema.get == Get;
  }

  /** Entries 8 to 11 of a record's row hold the boxed properties at those positions. */
  lemma RowEntries2(m: DeliveryNoteDetail)
    ensures PropertyValues(Schema, m)[8] == OfOptText(m.external1)
    ensures PropertyValues(Schema, m)[9] == OfOptText(m.external2)
    ensures PropertyValues(Schema, m)[10] == OfOptText(m.external3)
    ensures PropertyValues(Schema, m)[11] == OfOptNumber(m.numberExternal1)
  {
    assert Schema.fields == Fields() && Schema.get == Get;
  }

  /** Entries 12 to 13 of a record's row hold the boxed properties at those positions. */
  lemma RowEntries3(m: DeliveryNoteDetail)
    ensures PropertyValues(Schema, m)[12] == OfOptNumber(m.numberExternal2)
    ensures PropertyValues(Schema, m)[13] == OfOptNumber(m.numberExternal3)
  {
    assert Schema.fields == Fields() && Schema.get == Get;
  }

  /** Decoding the row of any record, position by position, gives back that record. */
  lemma DecodeRoundTrip(m: DeliveryNoteDetail)
    ensures Decode(PropertyValues(Schema, m)) == Some(m)
  {
    SchemaSound();
    PropertyValuesFit(Schema, m);
    RowEntries0(m);
    RowEntries1(m);
    RowEntries2(m);
    RowEntries3(m);
  }

  /** In the row of a fresh record, exactly the nullable properties are null. */
  lemma NewEncoding()
    ensures forall f :: Get(New(), f) == Null <==> KindOf(f).Nullable()
    ensures Get(New(), ItemName) == Str("")
    ensures Get(New(), ItemType) == Str("01")
    ensures Get(New(), Quantity) == Dec(0.0)
    ensures Get(New(), Price) == Dec(0.0)
    ensures Get(New(), Amount) == Dec(0.0)
    ensures Get(New(), NotShowOrdinalNumber) == Int(0)
  {
  }
}
