/**
 * The delivery-note header record (DeliveryNoteMaster.cs): the properties its manifest lists,
 * their declared types and initialisers, and the positional encoding of a header.
 */
module DeliveryNoteMaster {
  import opened Wrappers
  import opened Wire

  /** One value of the record; nullable properties are `Option`s. */
  datatype DeliveryNoteMaster = DeliveryNoteMaster(
    key: string,
    voucherType: int,
    voucherNumber: Option<string>,
    invoiceDate: string,
    customerCode: Option<string>,
    order: Option<string>,
    date: Option<string>,
    partner: Option<string>,
    reference: Option<string>,
    taxCode: Option<string>,
    deliverer: Option<string>,
    deliveryContract: Option<string>,
    transportation: Option<string>,
    issuingSite: Option<string>,
    receivingSite: Option<string>,
    receiver: Option<string>,
    emailDeliver: Option<string>,
    currency: Option<string>,
    exchangeRate: real,
    amount: real,
    external1: Option<string>,
    external2: Option<string>,
    external3: Option<string>,
    numberExternal1: Option<real>,
    numberExternal2: Option<real>,
    numberExternal3: Option<real>)

  /** `new DeliveryNoteMaster()`: every property at its initialiser, or at the default of its type. */
  function New(): DeliveryNoteMaster {
    DeliveryNoteMaster(
      "",
      0,
      None,
      "",
      None,
      None,
      None,
      None,
      None,
      None,
      None,
      None,
      None,
      None,
      None,
      None,
      None,
      None,
      1.0,
      0.0,
      None,
      None,
      None,
      None,
      None,
      None)
  }

  /** The public readable properties, as an enumeration. */
  datatype Field = Key | VoucherType | VoucherNumber | InvoiceDate | CustomerCode | Order | Date
    | Partner | Reference | TaxCode | Deliverer | DeliveryContract | Transportation | IssuingSite
    | ReceivingSite | Receiver | EmailDeliver | Currency | ExchangeRate | Amount | External1
    | External2 | External3 | NumberExternal1 | NumberExternal2 | NumberExternal3

  /** The property at each position of the declaration order (a binary search on the position). */
  function FieldAt(i: nat): (f: Field)
    requires i < 26
  {
    if i < 13 then
      if i < 6 then
        if i < 3 then
          if i < 1 then
            Key
          else
            if i < 2 then
              VoucherType
            else
              VoucherNumber
        else
          if i < 4 then
            InvoiceDate
          else
            if i < 5 then
              CustomerCode
            else
              Order
      else
        if i < 9 then
          if i < 7 then
            Date
          else
            if i < 8 then
              Partner
            else
              Reference
        else
          if i < 11 then
            if i < 10 then
              TaxCode
            else
              Deliverer
          else
            if i < 12 then
              DeliveryContract
            else
              Transportation
    else
      if i < 19 then
        if i < 16 then
          if i < 14 then
            IssuingSite
          else
            if i < 15 then
              ReceivingSite
            else
              Receiver
        else
          if i < 17 then
            EmailDeliver
          else
            if i < 18 then
              Currency
            else
              ExchangeRate
      else
        if i < 22 then
          if i < 20 then
            Amount
          else
            if i < 21 then
              External1
            else
              External2
        else
          if i < 24 then
            if i < 23 then
              External3
            else
              NumberExternal1
          else
            if i < 25 then
              NumberExternal2
            else
              NumberExternal3
  }

  /** The properties in declaration order: the order the manifest lists them in. */
  function Fields(): (fs: seq<Field>)
    ensures |fs| == 26 && forall i | 0 <= i < 26 :: fs[i] == FieldAt(i)
  {
    seq(26, i requires 0 <= i < 26 => FieldAt(i))
  }

  /** The property name reflection reports, which is also the JSON manifest entry. */
  function Name(f: Field): string {
    match f
    case Key => "Key"
    case VoucherType => "VoucherType"
    case VoucherNumber => "VoucherNumber"
    case InvoiceDate => "InvoiceDate"
    case CustomerCode => "CustomerCode"
    case Order => "Order"
    case Date => "Date"
    case Partner => "Partner"
    case Reference => "Reference"
    case TaxCode => "TaxCode"
    case Deliverer => "Deliverer"
    case DeliveryContract => "DeliveryContract"
    case Transportation => "Transportation"
    case IssuingSite => "IssuingSite"
    case ReceivingSite => "ReceivingSite"
    case Receiver => "Receiver"
    case EmailDeliver => "EmailDeliver"
    case Currency => "Currency"
    case ExchangeRate => "ExchangeRate"
    case Amount => "Amount"
    case External1 => "External1"
    case External2 => "External2"
    case External3 => "External3"
    case NumberExternal1 => "NumberExternal1"
    case NumberExternal2 => "NumberExternal2"
    case NumberExternal3 => "NumberExternal3"
  }

  /** The declared type of each property. */
  function KindOf(f: Field): Kind {
    match f
    case Key => Text
    case VoucherType => Integer
    case VoucherNumber => OptText
    case InvoiceDate => Text
    case CustomerCode => OptText
    case Order => OptText
    case Date => OptText
    case Partner => OptText
    case Reference => OptText
    case TaxCode => OptText
    case Deliverer => OptText
    case DeliveryContract => OptText
    case Transportation => OptText
    case IssuingSite => OptText
    case ReceivingSite => OptText
    case Receiver => OptText
    case EmailDeliver => OptText
    case Currency => OptText
    case ExchangeRate => Number
    case Amount => Number
    case External1 => OptText
    case External2 => OptText
    case External3 => OptText
    case NumberExternal1 => OptNumber
    case NumberExternal2 => OptNumber
    case NumberExternal3 => OptNumber
  }

  /** The property getter, boxed as a row entry; the value always fits the declared type. */
  function Get(m: DeliveryNoteMaster, f: Field): (v: Value)
    ensures Conforms(v, KindOf(f))
  {
    match f
    case Key => OfText(m.key)
    case VoucherType => OfInteger(m.voucherType)
    case VoucherNumber => OfOptText(m.voucherNumber)
    case InvoiceDate => OfText(m.invoiceDate)
    case CustomerCode => OfOptText(m.customerCode)
    case Order => OfOptText(m.order)
    case Date => OfOptText(m.date)
    case Partner => OfOptText(m.partner)
    case Reference => OfOptText(m.reference)
    case TaxCode => OfOptText(m.taxCode)
    case Deliverer => OfOptText(m.deliverer)
    case DeliveryContract => OfOptText(m.deliveryContract)
    case Transportation => OfOptText(m.transportation)
    case IssuingSite => OfOptText(m.issuingSite)
    case ReceivingSite => OfOptText(m.receivingSite)
    case Receiver => OfOptText(m.receiver)
    case EmailDeliver => OfOptText(m.emailDeliver)
    case Currency => OfOptText(m.currency)
    case ExchangeRate => OfNumber(m.exchangeRate)
    case Amount => OfNumber(m.amount)
    case External1 => OfOptText(m.external1)
    case External2 => OfOptText(m.external2)
    case External3 => OfOptText(m.external3)
    case NumberExternal1 => OfOptNumber(m.numberExternal1)
    case NumberExternal2 => OfOptNumber(m.numberExternal2)
    case NumberExternal3 => OfOptNumber(m.numberExternal3)
  }

  const Schema: Descriptor<DeliveryNoteMaster, Field> := Descriptor(Fields(), Name, KindOf, Get)

  /**
   * The receiver's reading of a value row: entry i becomes the property at position i
   * of the manifest, or None when the row has the wrong length or an entry of the
   * wrong type.
   */
  function Decode(row: seq<Value>): Option<DeliveryNoteMaster> {
    if Fits(Schema, row) then
      Some(DeliveryNoteMaster(
        TextOf(row[0]),
        IntegerOf(row[1]),
        OptTextOf(row[2]),
        TextOf(row[3]),
        OptTextOf(row[4]),
        OptTextOf(row[5]),
        OptTextOf(row[6]),
        OptTextOf(row[7]),
        OptTextOf(row[8]),
        OptTextOf(row[9]),
        OptTextOf(row[10]),
        OptTextOf(row[11]),
        OptTextOf(row[12]),
        OptTextOf(row[13]),
        OptTextOf(row[14]),
        OptTextOf(row[15]),
        OptTextOf(row[16]),
        OptTextOf(row[17]),
        NumberOf(row[18]),
        NumberOf(row[19]),
        OptTextOf(row[20]),
        OptTextOf(row[21]),
        OptTextOf(row[22]),
        OptNumberOf(row[23]),
        OptNumberOf(row[24]),
        OptNumberOf(row[25])))
    else
      None
  }

  /**
   * The position the manifest gives each name, or -1 for a name it does not list
   * (looked up by length first, then among the names of that length).
   */
  function PositionOf(name: string): int {
    if |name| == 3 then
      if name == "Key" then 0
      else -1
    else if |name| == 4 then
      if name == "Date" then 6
      else -1
    else if |name| == 5 then
      if name == "Order" then 5
      else -1
    else if |name| == 6 then
      if name == "Amount" then 19
      else -1
    else if |name| == 7 then
      if name == "Partner" then 7
      else if name == "TaxCode" then 9
      else -1
    else if |name| == 8 then
      if name == "Receiver" then 15
      else if name == "Currency" then 17
      else -1
    else if |name| == 9 then
      if name == "Reference" then 8
      else if name == "Deliverer" then 10
      else if name == "External1" then 20
      else if name == "External2" then 21
      else if name == "External3" then 22
      else -1
    else if |name| == 11 then
      if name == "VoucherType" then 1
      else if name == "InvoiceDate" then 3
      else if name == "IssuingSite" then 13
      else -1
    else if |name| == 12 then
      if name == "CustomerCode" then 4
      else if name == "EmailDeliver" then 16
      else if name == "ExchangeRate" then 18
      else -1
    else if |name| == 13 then
      if name == "VoucherNumber" then 2
      else if name == "ReceivingSite" then 14
      else -1
    else if |name| == 14 then
      if name == "Transportation" then 12
      else -1
    else if |name| == 15 then
      if name == "NumberExternal1" then 23
      else if name == "NumberExternal2" then 24
      else if name == "NumberExternal3" then 25
      else -1
    else if |name| == 16 then
      if name == "DeliveryContract" then 11
      else -1
    else -1
  }

  /** Positions 0 to 5: PositionOf reads each name back as its position. */
  lemma NamePositions0()
    ensures forall i | 0 <= i < 6 :: PositionOf(Name(FieldAt(i))) == i
  {
  }

  /** Positions 6 to 11: PositionOf reads each name back as its position. */
  lemma NamePositions1()
    ensures forall i | 6 <= i < 12 :: PositionOf(Name(FieldAt(i))) == i
  {
  }

  /** Positions 12 to 17: PositionOf reads each name back as its position. */
  lemma NamePositions2()
    ensures forall i | 12 <= i < 18 :: PositionOf(Name(FieldAt(i))) == i
  {
  }

  /** Positions 18 to 23: PositionOf reads each name back as its position. */
  lemma NamePositions3()
    ensures forall i | 18 <= i < 24 :: PositionOf(Name(FieldAt(i))) == i
  {
  }

  /** Positions 24 to 25: PositionOf reads each name back as its position. */
  lemma NamePositions4()
    ensures forall i | 24 <= i < 26 :: PositionOf(Name(FieldAt(i))) == i
  {
  }

  /** Every getter returns a value of its property's declared type, and no name is listed twice. */
  lemma SchemaSound()
    ensures Sound(Schema)
    ensures NamesDistinct(Schema)
  {
    assert Schema.get == Get && Schema.kind == KindOf;
    assert Schema.fields == Fields() && Schema.name == Name;
    NamePositions0();
    NamePositions1();
    NamePositions2();
    NamePositions3();
    NamePositions4();
    DistinctByPosition(Schema, PositionOf);
  }

  /** Names 0 to 7 of the manifest. */
  lemma ManifestNames0()
    ensures PropertyNames(Schema)[0] == "Key"
    ensures PropertyNames(Schema)[1] == "VoucherType"
    ensures PropertyNames(Schema)[2] == "VoucherNumber"
    ensures PropertyNames(Schema)[3] == "InvoiceDate"
    ensures PropertyNames(Schema)[4] == "CustomerCode"
    ensures PropertyNames(Schema)[5] == "Order"
    ensures PropertyNames(Schema)[6] == "Date"
    ensures PropertyNames(Schema)[7] == "Partner"
  {
    assert Schema.fields == Fields() && Schema.name == Name;
  }

  /** Names 8 to 15 of the manifest. */
  lemma ManifestNames1()
    ensures PropertyNames(Schema)[8] == "Reference"
    ensures PropertyNames(Schema)[9] == "TaxCode"
    ensures PropertyNames(Schema)[10] == "Deliverer"
    ensures PropertyNames(Schema)[11] == "DeliveryContract"
    ensures PropertyNames(Schema)[12] == "Transportation"
    ensures PropertyNames(Schema)[13] == "IssuingSite"
    ensures PropertyNames(Schema)[14] == "ReceivingSite"
    ensures PropertyNames(Schema)[15] == "Receiver"
  {
    assert Schema.fields == Fields() && Schema.name == Name;
  }

  /** Names 16 to 23 of the manifest. */
  lemma ManifestNames2()
    ensures PropertyNames(Schema)[16] == "EmailDeliver"
    ensures PropertyNames(Schema)[17] == "Currency"
    ensures PropertyNames(Schema)[18] == "ExchangeRate"
    ensures PropertyNames(Schema)[19] == "Amount"
    ensures PropertyNames(Schema)[20] == "External1"
    ensures PropertyNames(Schema)[21] == "External2"
    ensures PropertyNames(Schema)[22] == "External3"
    ensures PropertyNames(Schema)[23] == "NumberExternal1"
  {
    assert Schema.fields == Fields() && Schema.name == Name;
  }

  /** Names 24 to 25 of the manifest. */
  lemma ManifestNames3()
    ensures PropertyNames(Schema)[24] == "NumberExternal2"
    ensures PropertyNames(Schema)[25] == "NumberExternal3"
  {
    assert Schema.fields == Fields() && Schema.name == Name;
  }

  /** The manifest: every property name, in declaration order. */
  lemma ManifestOrder()
    ensures |PropertyNames(Schema)| == 26
    ensures PropertyNames(Schema)[0] == "Key"
    ensures PropertyNames(Schema)[1] == "VoucherType"
    ensures PropertyNames(Schema)[2] == "VoucherNumber"
    ensures PropertyNames(Schema)[3] == "InvoiceDate"
    ensures PropertyNames(Schema)[4] == "CustomerCode"
    ensures PropertyNames(Schema)[5] == "Order"
    ensures PropertyNames(Schema)[6] == "Date"
    ensures PropertyNames(Schema)[7] == "Partner"
    ensures PropertyNames(Schema)[8] == "Reference"
    ensures PropertyNames(Schema)[9] == "TaxCode"
    ensures PropertyNames(Schema)[10] == "Deliverer"
    ensures PropertyNames(Schema)[11] == "DeliveryContract"
    ensures PropertyNames(Schema)[12] == "Transportation"
    ensures PropertyNames(Schema)[13] == "IssuingSite"
    ensures PropertyNames(Schema)[14] == "ReceivingSite"
    ensures PropertyNames(Schema)[15] == "Receiver"
    ensures PropertyNames(Schema)[16] == "EmailDeliver"
    ensures PropertyNames(Schema)[17] == "Currency"
    ensures PropertyNames(Schema)[18] == "ExchangeRate"
    ensures PropertyNames(Schema)[19] == "Amount"
    ensures PropertyNames(Schema)[20] == "External1"
    ensures PropertyNames(Schema)[21] == "External2"
    ensures PropertyNames(Schema)[22] == "External3"
    ensures PropertyNames(Schema)[23] == "NumberExternal1"
    ensures PropertyNames(Schema)[24] == "NumberExternal2"
    ensures PropertyNames(Schema)[25] == "NumberExternal3"
  {
    ManifestNames0();
    ManifestNames1();
    ManifestNames2();
    ManifestNames3();
  }

  /** Entries 0 to 3 of a record's row hold the boxed properties at those positions. */
  lemma RowEntries0(m: DeliveryNoteMaster)
    ensures PropertyValues(Schema, m)[0] == OfText(m.key)
    ensures PropertyValues(Schema, m)[1] == OfInteger(m.voucherType)
    ensures PropertyValues(Schema, m)[2] == OfOptText(m.voucherNumber)
    ensures PropertyValues(Schema, m)[3] == OfText(m.invoiceDate)
  {
    assert Schema.fields == Fields() && Schema.get == Get;
  }

  /** Entries 4 to 7 of a record's row hold the boxed properties at those positions. */
  lemma RowEntries1(m: DeliveryNoteMaster)
    ensures PropertyValues(Schema, m)[4] == OfOptText(m.customerCode)
    ensures PropertyValues(Schema, m)[5] == OfOptText(m.order)
    ensures PropertyValues(Schema, m)[6] == OfOptText(m.date)
    ensures PropertyValues(Schema, m)[7] == OfOptText(m.partner)
  {
    assert Schema.fields == Fields() && Schema.get == Get;
  }

  /** Entries 8 to 11 of a record's row hold the boxed properties at those positions. */
  lemma RowEntries2(m: DeliveryNoteMaster)
    ensures PropertyValues(Schema, m)[8] == OfOptText(m.reference)
    ensures PropertyValues(Schema, m)[9] == OfOptText(m.taxCode)
    ensures PropertyValues(Schema, m)[10] == OfOptText(m.deliverer)
    ensures PropertyValues(Schema, m)[11] == OfOptText(m.deliveryContract)
  {
    assert Schema.fields == Fields() && Schema.get == Get;
  }

  /** Entries 12 to 15 of a record's row hold the boxed properties at those positions. */
  lemma RowEntries3(m: DeliveryNoteMaster)
    ensures PropertyValues(Schema, m)[12] == OfOptText(m.transportation)
    ensures PropertyValues(Schema, m)[13] == OfOptText(m.issuingSite)
    ensures PropertyValues(Schema, m)[14] == OfOptText(m.receivingSite)
    ensures PropertyValues(Schema, m)[15] == OfOptText(m.receiver)
  {
    assert Schema.fields == Fields() && Schema.get == Get;
  }

  /** Entries 16 to 19 of a record's row hold the boxed properties at those positions. */
  lemma RowEntries4(m: DeliveryNoteMaster)
    ensures PropertyValues(Schema, m)[16] == OfOptText(m.emailDeliver)
    ensures PropertyValues(Schema, m)[17] == OfOptText(m.currency)
    ensures PropertyValues(Schema, m)[18] == OfNumber(m.exchangeRate)
    ensures PropertyValues(Schema, m)[19] == OfNumber(m.amount)
  {
    assert Schema.fields == Fields() && Schema.get == Get;
  }

  /** Entries 20 to 23 of a record's row hold the boxed properties at those positions. */
  lemma RowEntries5(m: DeliveryNoteMaster)
    ensures PropertyValues(Schema, m)[20] == OfOptText(m.external1)
    ensures PropertyValues(Schema, m)[21] == OfOptText(m.external2)
    ensures PropertyValues(Schema, m)[22] == OfOptText(m.external3)
    ensures PropertyValues(Schema, m)[23] == OfOptNumber(m.numberExternal1)
  {
    assert Schema.fields == Fields() && Schema.get == Get;
  }

  /** Entries 24 to 25 of a record's row hold the boxed properties at those positions. */
  lemma RowEntries6(m: DeliveryNoteMaster)
    ensures PropertyValues(Schema, m)[24] == OfOptNumber(m.numberExternal2)
    ensures PropertyValues(Schema, m)[25] == OfOptNumber(m.numberExternal3)
  {
    assert Schema.fields == Fields() && Schema.get == Get;
  }

  /** Decoding the row of any record, position by position, gives back that record. */
  lemma DecodeRoundTrip(m: DeliveryNoteMaster)
    ensures Decode(PropertyValues(Schema, m)) == Some(m)
  {
    SchemaSound();
    PropertyValuesFit(Schema, m);
    RowEntries0(m);
    RowEntries1(m);
    RowEntries2(m);
    RowEntries3(m);
    RowEntries4(m);
    RowEntries5(m);
    RowEntries6(m);
  }

  /** In the row of a fresh record, exactly the nullable properties are null. */
  lemma NewEncoding()
    ensures forall f :: Get(New(), f) == Null <==> KindOf(f).Nullable()
    ensures Get(New(), Key) == Str("")
    ensures Get(New(), VoucherType) == Int(0)
    ensures Get(New(), InvoiceDate) == Str("")
    ensures Get(New(), ExchangeRate) == Dec(1.0)
    ensures Get(New(), Amount) == Dec(0.0)
  {
  }
}
