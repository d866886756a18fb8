/**
 * The invoice line record (InvoiceDetail.cs): the properties the line manifest lists,
 * their declared types and initialisers, and the positional encoding of a line.
 */
module InvoiceDetail {
  import opened Wrappers
  import opened Wire

  /** One value of the record; nullable properties are `Option`s. */
  datatype InvoiceDetail = InvoiceDetail(
    itemCode: Option<string>,
    itemName: string,
    itemType: string,
    uom: Option<string>,
    quantity: real,
    price: real,
    amount: real,
    discountRate: real,
    discountAmount: real,
    taxRate: real,
    taxAmount: real,
    notShowOrdinalNumber: int,
    external1: Option<string>,
    external2: Option<string>,
    external3: Option<string>,
    numberExternal1: Option<real>,
    numberExternal2: Option<real>,
    numberExternal3: Option<real>,
    t1: Option<string>,
    t2: Option<string>,
    t3: Option<string>,
    t4: Option<string>,
    t5: Option<string>,
    t6: Option<string>,
    t7: Option<string>)

  /** `new InvoiceDetail()`: every property at its initialiser, or at the default of its type. */
  function New(): InvoiceDetail {
    InvoiceDetail(
      None,
      "",
      "01",
      None,
      0.0,
      0.0,
      0.0,
      0.0,
      0.0,
      0.0,
      0.0,
      0,
      None,
      None,
      None,
      None,
      None,
      None,
      None,
      None,
      None,
      None,
      None,
      None,
      None)
  }

  /** The public readable properties, as an enumeration. */
  datatype Field = ItemCode | ItemName | ItemType | UOM | Quantity | Price | Amount | DiscountRate
    | DiscountAmount | TaxRate | TaxAmount | NotShowOrdinalNumber | External1 | External2
    | External3 | NumberExternal1 | NumberExternal2 | NumberExternal3 | T1 | T2 | T3 | T4 | T5 | T6
    | T7

  /** The property at each position of the declaration order (a binary search on the position). */
  function FieldAt(i: nat): (f: Field)
    requires i < 25
  {
    if i < 12 then
      if i < 6 then
        if i < 3 then
          if i < 1 then
            ItemCode
          else
            if i < 2 then
              ItemName
            else
              ItemType
        else
          if i < 4 then
            UOM
          else
            if i < 5 then
              Quantity
            else
              Price
      else
        if i < 9 then
          if i < 7 then
            Amount
          else
            if i < 8 then
              DiscountRate
            else
              DiscountAmount
        else
          if i < 10 then
            TaxRate
          else
            if i < 11 then
              TaxAmount
            else
              NotShowOrdinalNumber
    else
      if i < 18 then
        if i < 15 then
          if i < 13 then
            External1
          else
            if i < 14 then
              External2
            else
              External3
        else
          if i < 16 then
            NumberExternal1
          else
            if i < 17 then
              NumberExternal2
            else
              NumberExternal3
      else
        if i < 21 then
          if i < 19 then
            T1
          else
            if i < 20 then
              T2
            else
              T3
        else
          if i < 23 then
            if i < 22 then
              T4
            else
              T5
          else
            if i < 24 then
              T6
            else
              T7
  }

  /** The properties in declaration order: the order the manifest lists them in. */
  function Fields(): (fs: seq<Field>)
    ensures |fs| == 25 && forall i | 0 <= i < 25 :: fs[i] == FieldAt(i)
  {
    seq(25, i requires 0 <= i < 25 => FieldAt(i))
  }

  /** The property name reflection reports, which is also the JSON manifest entry. */
  function Name(f: Field): string {
    match f
    case ItemCode => "ItemCode"
    case ItemName => "ItemName"
    case ItemType => "ItemType"
    case UOM => "UOM"
    case Quantity => "Quantity"
    case Price => "Price"
    case Amount => "Amount"
    case DiscountRate => "DiscountRate"
    case DiscountAmount => "DiscountAmount"
    case TaxRate => "TaxRate"
    case TaxAmount => "TaxAmount"
    case NotShowOrdinalNumber => "NotShowOrdinalNumber"
    case External1 => "External1"
    case External2 => "External2"
    case External3 => "External3"
    case NumberExternal1 => "NumberExternal1"
    case NumberExternal2 => "NumberExternal2"
    case NumberExternal3 => "NumberExternal3"
    case T1 => "T1"
    case T2 => "T2"
    case T3 => "T3"
    case T4 => "T4"
    case T5 => "T5"
    case T6 => "T6"
    case T7 => "T7"
  }

  /** The declared type of each property. */
  function KindOf(f: Field): Kind {
    match f
    case ItemCode => OptText
    case ItemName => Text
    case ItemType => Text
    case UOM => OptText
    case Quantity => Number
    case Price => Number
    case Amount => Number
    case DiscountRate => Number
    case DiscountAmount => Number
    case TaxRate => Number
    case TaxAmount => Number
    case NotShowOrdinalNumber => Integer
    case External1 => OptText
    case External2 => OptText
    case External3 => OptText
    case NumberExternal1 => OptNumber
    case NumberExternal2 => OptNumber
    case NumberExternal3 => OptNumber
    case T1 => OptText
    case T2 => OptText
    case T3 => OptText
    case T4 => OptText
    case T5 => OptText
    case T6 => OptText
    case T7 => OptText
  }

  /** The property getter, boxed as a row entry; the value always fits the declared type. */
  function Get(m: InvoiceDetail, f: Field): (v: Value)
    ensures Conforms(v, KindOf(f))
  {
    match f
    case ItemCode => OfOptText(m.itemCode)
    case ItemName => OfText(m.itemName)
    case ItemType => OfText(m.itemType)
    case UOM => OfOptText(m.uom)
    case Quantity => OfNumber(m.quantity)
    case Price => OfNumber(m.price)
    case Amount => OfNumber(m.amount)
    case DiscountRate => OfNumber(m.discountRate)
    case DiscountAmount => OfNumber(m.discountAmount)
    case TaxRate => OfNumber(m.taxRate)
    case TaxAmount => OfNumber(m.taxAmount)
    case NotShowOrdinalNumber => OfInteger(m.notShowOrdinalNumber)
    case External1 => OfOptText(m.external1)
    case External2 => OfOptText(m.external2)
    case External3 => OfOptText(m.external3)
    case NumberExternal1 => OfOptNumber(m.numberExternal1)
    case NumberExternal2 => OfOptNumber(m.numberExternal2)
    case NumberExternal3 => OfOptNumber(m.numberExternal3)
    case T1 => OfOptText(m.t1)
    case T2 => OfOptText(m.t2)
    case T3 => OfOptText(m.t3)
    case T4 => OfOptText(m.t4)
    case T5 => OfOptText(m.t5)
    case T6 => OfOptText(m.t6)
    case T7 => OfOptText(m.t7)
  }

  const Schema: Descriptor<InvoiceDetail, Field> := Descriptor(Fields(), Name, KindOf, Get)

  /**
   * The receiver's reading of a value row: entry i becomes the property at position i
   * of the manifest, or None when the row has the wrong length or an entry of the
   * wrong type.
   */
  function Decode(row: seq<Value>): Option<InvoiceDetail> {
    if Fits(Schema, row) then
      Some(InvoiceDetail(
        OptTextOf(row[0]),
        TextOf(row[1]),
        TextOf(row[2]),
        OptTextOf(row[3]),
        NumberOf(row[4]),
        NumberOf(row[5]),
        NumberOf(row[6]),
        NumberOf(row[7]),
        NumberOf(row[8]),
        NumberOf(row[9]),
        NumberOf(row[10]),
        IntegerOf(row[11]),
        OptTextOf(row[12]),
        OptTextOf(row[13]),
        OptTextOf(row[14]),
        OptNumberOf(row[15]),
        OptNumberOf(row[16]),
        OptNumberOf(row[17]),
        OptTextOf(row[18]),
        OptTextOf(row[19]),
        OptTextOf(row[20]),
        OptTextOf(row[21]),
        OptTextOf(row[22]),
        OptTextOf(row[23]),
        OptTextOf(row[24])))
    else
      None
  }

  /**
   * The position the manifest gives each name, or -1 for a name it does not list
   * (looked up by length first, then among the names of that length).
   */
  function PositionOf(name: string): int {
    if |name| == 2 then
      if name == "T1" then 18
      else if name == "T2" then 19
      else if name == "T3" then 20
      else if name == "T4" then 21
      else if name == "T5" then 22
      else if name == "T6" then 23
      else if name == "T7" then 24
      else -1
    else if |name| == 3 then
      if name == "UOM" then 3
      else -1
    else if |name| == 5 then
      if name == "Price" then 5
      else -1
    else if |name| == 6 then
      if name == "Amount" then 6
      else -1
    else if |name| == 7 then
      if name == "TaxRate" then 9
      else -1
    else if |name| == 8 then
      if name == "ItemCode" then 0
      else if name == "ItemName" then 1
      else if name == "ItemType" then 2
      else if name == "Quantity" then 4
      else -1
    else if |name| == 9 then
      if name == "TaxAmount" then 10
      else if name == "External1" then 12
      else if name == "External2" then 13
      else if name == "External3" then 14
      else -1
    else if |name| == 12 then
      if name == "DiscountRate" then 7
      else -1
    else if |name| == 14 then
      if name == "DiscountAmount" then 8
      else -1
    else if |name| == 15 then
      if name == "NumberExternal1" then 15
      else if name == "NumberExternal2" then 16
      else if name == "NumberExternal3" then 17
      else -1
    else if |name| == 20 then
      if name == "NotShowOrdinalNumber" then 11
      else -1
    else -1
  }

  /** Positions 0 to 5: PositionOf reads each name back as its position. */
  lemma NamePositions0()
    ensures forall i | 0 <= i < 6 :: PositionOf(Name(FieldAt(i))) == i
  {
  }

  /** Positions 6 to 11: PositionOf reads each name back as its position. */
  lemma NamePositions1()
    ensures forall i | 6 <= i < 12 :: PositionOf(Name(FieldAt(i))) == i
  {
  }

  /** Positions 12 to 17: PositionOf reads each name back as its position. */
  lemma NamePositions2()
    ensures forall i | 12 <= i < 18 :: PositionOf(Name(FieldAt(i))) == i
  {
  }

  /** Positions 18 to 23: PositionOf reads each name back as its position. */
  lemma NamePositions3()
    ensures forall i | 18 <= i < 24 :: PositionOf(Name(FieldAt(i))) == i
  {
  }

  /** Positions 24 to 24: PositionOf reads each name back as its position. */
  lemma NamePositions4()
    ensures forall i | 24 <= i < 25 :: PositionOf(Name(FieldAt(i))) == i
  {
  }

  /** Every getter returns a value of its property's declared type, and no name is listed twice. */
  lemma SchemaSound()
    ensures Sound(Schema)
    ensures NamesDistinct(Schema)
  {
    assert Schema.get == Get && Schema.kind == KindOf;
    assert Schema.fields == Fields() && Schema.name == Name;
    NamePositions0();
    NamePositions1();
    NamePositions2();
    NamePositions3();
    NamePositions4();
    DistinctByPosition(Schema, PositionOf);
  }

  /** Names 0 to 7 of the manifest. */
  lemma ManifestNames0()
    ensures PropertyNames(Schema)[0] == "ItemCode"
    ensures PropertyNames(Schema)[1] == "ItemName"
    ensures PropertyNames(Schema)[2] == "ItemType"
    ensures PropertyNames(Schema)[3] == "UOM"
    ensures PropertyNames(Schema)[4] == "Quantity"
    ensures PropertyNames(Schema)[5] == "Price"
    ensures PropertyNames(Schema)[6] == "Amount"
    ensures PropertyNames(Schema)[7] == "DiscountRate"
  {
    assert Schema.fields == Fields() && Schema.name == Name;
  }

  /** Names 8 to 15 of the manifest. */
  lemma ManifestNames1()
    ensures PropertyNames(Schema)[8] == "DiscountAmount"
    ensures PropertyNames(Schema)[9] == "TaxRate"
    ensures PropertyNames(Schema)[10] == "TaxAmount"
    ensures PropertyNames(Schema)[11] == "NotShowOrdinalNumber"
    ensures PropertyNames(Schema)[12] == "External1"
    ensures PropertyNames(Schema)[13] == "External2"
    ensures PropertyNames(Schema)[14] == "External3"
    ensures PropertyNames(Schema)[15] == "NumberExternal1"
  {
    assert Schema.fields == Fields() && Schema.name == Name;
  }

  /** Names 16 to 23 of the manifest. */
  lemma ManifestNames2()
    ensures PropertyNames(Schema)[16] == "NumberExternal2"
    ensures PropertyNames(Schema)[17] == "NumberExternal3"
    ensures PropertyNames(Schema)[18] == "T1"
    ensures PropertyNames(Schema)[19] == "T2"
    ensures PropertyNames(Schema)[20] == "T3"
    ensures PropertyNames(Schema)[21] == "T4"
    ensures PropertyNames(Schema)[22] == "T5"
    ensures PropertyNames(Schema)[23] == "T6"
  {
    assert Schema.fields == Fields() && Schema.name == Name;
  }

  /** Names 24 to 24 of the manifest. */
  lemma ManifestNames3()
    ensures PropertyNames(Schema)[24] == "T7"
  {
    assert Schema.fields == Fields() && Schema.name == Name;
  }

  /** The manifest: every property name, in declaration order. */
  lemma ManifestOrder()
    ensures |PropertyNames(Schema)| == 25
    ensures PropertyNames(Schema)[0] == "ItemCode"
    ensures PropertyNames(Schema)[1] == "ItemName"
    ensures PropertyNames(Schema)[2] == "ItemType"
    ensures PropertyNames(Schema)[3] == "UOM"
    ensures PropertyNames(Schema)[4] == "Quantity"
    ensures PropertyNames(Schema)[5] == "Price"
    ensures PropertyNames(Schema)[6] == "Amount"
    ensures PropertyNames(Schema)[7] == "DiscountRate"
    ensures PropertyNames(Schema)[8] == "DiscountAmount"
    ensures PropertyNames(Schema)[9] == "TaxRate"
    ensures PropertyNames(Schema)[10] == "TaxAmount"
    ensures PropertyNames(Schema)[11] == "NotShowOrdinalNumber"
    ensures PropertyNames(Schema)[12] == "External1"
    ensures PropertyNames(Schema)[13] == "External2"
    ensures PropertyNames(Schema)[14] == "External3"
    ensures PropertyNames(Schema)[15] == "NumberExternal1"
    ensures PropertyNames(Schema)[16] == "NumberExternal2"
    ensures PropertyNames(Schema)[17] == "NumberExternal3"
    ensures PropertyNames(Schema)[18] == "T1"
    ensures PropertyNames(Schema)[19] == "T2"
    ensures PropertyNames(Schema)[20] == "T3"
    ensures PropertyNames(Schema)[21] == "T4"
    ensures PropertyNames(Schema)[22] == "T5"
    ensures PropertyNames(Schema)[23] == "T6"
    ensures PropertyNames(Schema)[24] == "T7"
  {
    ManifestNames0();
    ManifestNames1();
    ManifestNames2();
    ManifestNames3();
  }

  /** Entries 0 to 3 of a record's row hold the boxed properties at those positions. */
  lemma RowEntries0(m: InvoiceDetail)
    ensures PropertyValues(Schema, m)[0] == OfOptText(m.itemCode)
    ensures PropertyValues(Schema, m)[1] == OfText(m.itemName)
    ensures PropertyValues(Schema, m)[2] == OfText(m.itemType)
    ensures PropertyValues(Schema, m)[3] == OfOptText(m.uom)
  {
    assert Schema.fields == Fields() && Schema.get == Get;
  }

  /** Entries 4 to 7 of a record's row hold the boxed properties at those positions. */
  lemma RowEntries1(m: InvoiceDetail)
    ensures PropertyValues(Schema, m)[4] == OfNumber(m.quantity)
    ensures PropertyValues(Schema, m)[5] == OfNumber(m.price)
    ensures PropertyValues(Schema, m)[6] == OfNumber(m.amount)
    ensures PropertyValues(Schema, m)[7] == OfNumber(m.discountRate)
  {
    assert Schema.fields == Fields() && Schema.get == Get;
  }

  /** Entries 8 to 11 of a record's row hold the boxed properties at those positions. */
  lemma RowEntries2(m: InvoiceDetail)
    ensures PropertyValues(Schema, m)[8] == OfNumber(m.discountAmount)
    ensures PropertyValues(Schema, m)[9] == OfNumber(m.taxRate)
    ensures PropertyValues(Schema, m)[10] == OfNumber(m.taxAmount)
    ensures PropertyValues(Schema, m)[11] == OfInteger(m.notShowOrdinalNumber)
  {
    assert Schema.fields == Fields() && Schema.get == Get;
  }

  /** Entries 12 to 15 of a record's row hold the boxed properties at those positions. */
  lemma RowEntries3(m: InvoiceDetail)
    ensures PropertyValues(Schema, m)[12] == OfOptText(m.external1)
    ensures PropertyValues(Schema, m)[13] == OfOptText(m.external2)
    ensures PropertyValues(Schema, m)[14] == OfOptText(m.external3)
    ensures PropertyValues(Schema, m)[15] == OfOptNumber(m.numberExternal1)
  {
    assert Schema.fields == Fields() && Schema.get == Get;
  }

  /** Entries 16 to 19 of a record's row hold the boxed properties at those positions. */
  lemma RowEntries4(m: InvoiceDetail)
    ensures PropertyValues(Schema, m)[16] == OfOptNumber(m.numberExternal2)
    ensures PropertyValues(Schema, m)[17] == OfOptNumber(m.numberExternal3)
    ensures PropertyValues(Schema, m)[18] == OfOptText(m.t1)
    ensures PropertyValues(Schema, m)[19] == OfOptText(m.t2)
  {
    assert Schema.fields == Fields() && Schema.get == Get;
  }

  /** Entries 20 to 23 of a record's row hold the boxed properties at those positions. */
  lemma RowEntries5(m: InvoiceDetail)
    ensures PropertyValues(Schema, m)[20] == OfOptText(m.t3)
    ensures PropertyValues(Schema, m)[21] == OfOptText(m.t4)
    ensures PropertyValues(Schema, m)[22] == OfOptText(m.t5)
    ensures PropertyValues(Schema, m)[23] == OfOptText(m.t6)
  {
    assert Schema.fields == Fields() && Schema.get == Get;
  }

  /** Entries 24 to 24 of a record's row hold the boxed properties at those positions. */
  lemma RowEntries6(m: InvoiceDetail)
    ensures PropertyValues(Schema, m)[24] == OfOptText(m.t7)
  {
    assert Schema.fields == Fields() && Schema.get == Get;
  }

  /** Decoding the row of any record, position by position, gives back that record. */
  lemma DecodeRoundTrip(m: InvoiceDetail)
    ensures Decode(PropertyValues(Schema, m)) == Some(m)
  {
    SchemaSound();
    PropertyValuesFit(Schema, m);
    RowEntries0(m);
    RowEntries1(m);
    RowEntries2(m);
    RowEntries3(m);
    RowEntries4(m);
    RowEntries5(m);
    RowEntries6(m);
  }

  /** In the row of a fresh record, exactly the nullable properties are null. */
  lemma NewEncoding()
    ensures forall f :: Get(New(), f) == Null <==> KindOf(f).Nullable()
    ensures Get(New(), ItemName) == Str("")
    ensures Get(New(), ItemType) == Str("01")
    ensures Get(New(), Quantity) == Dec(0.0)
    ensures Get(New(), Price) == Dec(0.0)
    ensures Get(New(), Amount) == Dec(0.0)
    ensures Get(New(), DiscountRate) == Dec(0.0)
    ensures Get(New(), DiscountAmount) == Dec(0.0)
    ensures Get(New(), TaxRate) == Dec(0.0)
    ensures Get(New(), TaxAmount) == Dec(0.0)
    ensures Get(New(), NotShowOrdinalNumber) == Int(0)
  {
  }
}
