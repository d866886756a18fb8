/**
 * The invoice header record (InvoiceMaster.cs): the properties the header manifest lists,
 * their declared types and initialisers, and the positional encoding of a header.
 */
module InvoiceMaster {
  import opened Wrappers
  import opened Wire

  /** One value of the record; nullable properties are `Option`s. */
  datatype InvoiceMaster = InvoiceMaster(
    key: string,
    voucherNumber: Option<string>,
    invoiceDate: string,
    customerCode: Option<string>,
    customerName: Option<string>,
    buyer: Option<string>,
    customerTaxCode: Option<string>,
    address: Option<string>,
    phoneNumber: Option<string>,
    idCardNo: Option<string>,
    passportNo: Option<string>,
    buyerUnit: Option<string>,
    paymentMethod: Option<string>,
    bankAccount: Option<string>,
    bankName: Option<string>,
    emailDeliver: Option<string>,
    currency: Option<string>,
    exchangeRate: real,
    amount: real,
    discountAmount: real,
    taxAmount: real,
    totalAmount: real,
    external1: Option<string>,
    external2: Option<string>,
    external3: Option<string>,
    external4: Option<string>,
    external5: Option<string>,
    external6: Option<string>,
    external7: Option<string>,
    external8: Option<string>,
    external9: Option<string>,
    numberExternal1: Option<real>,
    numberExternal2: Option<real>,
    numberExternal3: Option<real>,
    voucherType: Option<int>,
    orgInvoiceDate: Option<string>,
    orgInvoiceNo: Option<string>,
    orgInvoicePattern: Option<string>,
    orgInvoiceSerial: Option<string>,
    reason: Option<string>,
    orgCurrency: Option<string>,
    orgAmount: Option<real>,
    dateOfMinute: Option<string>,
    numberOfMinute: Option<string>)

  /** `new InvoiceMaster()`: every property at its initialiser, or at the default of its type. */
  function New(): InvoiceMaster {
    InvoiceMaster(
      "",
      None,
      "",
      None,
      None,
      None,
      None,
      None,
      None,
      None,
      None,
      None,
      None,
      None,
      None,
      None,
      None,
      1.0,
      0.0,
      0.0,
      0.0,
      0.0,
      None,
      None,
      None,
      None,
      None,
      None,
      None,
      None,
      None,
      None,
      None,
      None,
      None,
      None,
      None,
      None,
      None,
      None,
      None,
      None,
      None,
      None)
  }

  /** The public readable properties, as an enumeration. */
  datatype Field = Key | VoucherNumber | InvoiceDate | CustomerCode | CustomerName | Buyer
    | CustomerTaxCode | Address | PhoneNumber | IDCardNo | PassportNo | BuyerUnit | PaymentMethod
    | BankAccount | BankName | EmailDeliver | Currency | ExchangeRate | Amount | DiscountAmount
    | TaxAmount | TotalAmount | External1 | External2 | External3 | External4 | External5
    | External6 | External7 | External8 | External9 | NumberExternal1 | NumberExternal2
    | NumberExternal3 | VoucherType | OrgInvoiceDate | OrgInvoiceNo | OrgInvoicePattern
    | OrgInvoiceSerial | Reason | OrgCurrency | OrgAmount | DateOfMinute | NumberOfMinute

  /** The property at each position of the declaration order (a binary search on the position). */
  function FieldAt(i: nat): (f: Field)
    requires i < 44
  {
    if i < 22 then
      if i < 11 then
        if i < 5 then
          if i < 2 then
            if i < 1 then
              Key
            else
              VoucherNumber
          else
            if i < 3 then
              InvoiceDate
            else
              if i < 4 then
                CustomerCode
              else
                CustomerName
        else
          if i < 8 then
            if i < 6 then
              Buyer
            else
              if i < 7 then
                CustomerTaxCode
              else
                Address
          else
            if i < 9 then
              PhoneNumber
            else
              if i < 10 then
                IDCardNo
              else
                PassportNo
      else
        if i < 16 then
          if i < 13 then
            if i < 12 then
              BuyerUnit
            else
              PaymentMethod
          else
            if i < 14 then
              BankAccount
            else
              if i < 15 then
                BankName
              else
                EmailDeliver
        else
          if i < 19 then
            if i < 17 then
              Currency
            else
              if i < 18 then
                ExchangeRate
              else
                Amount
          else
            if i < 20 then
              DiscountAmount
            else
              if i < 21 then
                TaxAmount
              else
                TotalAmount
    else
      if i < 33 then
        if i < 27 then
          if i < 24 then
            if i < 23 then
              External1
            else
              External2
          else
            if i < 25 then
              External3
            else
              if i < 26 then
                External4
              else
                External5
        else
          if i < 30 then
            if i < 28 then
              External6
            else
              if i < 29 then
                External7
              else
                External8
          else
            if i < 31 then
              External9
            else
              if i < 32 then
                NumberExternal1
              else
                NumberExternal2
      else
        if i < 38 then
          if i < 35 then
            if i < 34 then
              NumberExternal3
            else
              VoucherType
          else
            if i < 36 then
              OrgInvoiceDate
            else
              if i < 37 then
                OrgInvoiceNo
              else
                OrgInvoicePattern
        else
          if i < 41 then
            if i < 39 then
              OrgInvoiceSerial
            else
              if i < 40 then
                Reason
              else
                OrgCurrency
          else
            if i < 42 then
              OrgAmount
            else
              if i < 43 then
                DateOfMinute
              else
                NumberOfMinute
  }

  /** The properties in declaration order: the order the manifest lists them in. */
  function Fields(): (fs: seq<Field>)
    ensures |fs| == 44 && forall i | 0 <= i < 44 :: fs[i] == FieldAt(i)
  {
    seq(44, i requires 0 <= i < 44 => FieldAt(i))
  }

  /** The property name reflection reports, which is also the JSON manifest entry. */
  function Name(f: Field): string {
    match f
    case Key => "Key"
    case VoucherNumber => "VoucherNumber"
    case InvoiceDate => "InvoiceDate"
    case CustomerCode => "CustomerCode"
    case CustomerName => "CustomerName"
    case Buyer => "Buyer"
    case CustomerTaxCode => "CustomerTaxCode"
    case Address => "Address"
    case PhoneNumber => "PhoneNumber"
    case IDCardNo => "IDCardNo"
    case PassportNo => "PassportNo"
    case BuyerUnit => "BuyerUnit"
    case PaymentMethod => "PaymentMethod"
    case BankAccount => "BankAccount"
    case BankName => "BankName"
    case EmailDeliver => "EmailDeliver"
    case Currency => "Currency"
    case ExchangeRate => "ExchangeRate"
    case Amount => "Amount"
    case DiscountAmount => "DiscountAmount"
    case TaxAmount => "TaxAmount"
    case TotalAmount => "TotalAmount"
    case External1 => "External1"
    case External2 => "External2"
    case External3 => "External3"
    case External4 => "External4"
    case External5 => "External5"
    case External6 => "External6"
    case External7 => "External7"
    case External8 => "External8"
    case External9 => "External9"
    case NumberExternal1 => "NumberExternal1"
    case NumberExternal2 => "NumberExternal2"
    case NumberExternal3 => "NumberExternal3"
    case VoucherType => "VoucherType"
    case OrgInvoiceDate => "OrgInvoiceDate"
    case OrgInvoiceNo => "OrgInvoiceNo"
    case OrgInvoicePattern => "OrgInvoicePattern"
    case OrgInvoiceSerial => "OrgInvoiceSerial"
    case Reason => "Reason"
    case OrgCurrency => "OrgCurrency"
    case OrgAmount => "OrgAmount"
    case DateOfMinute => "DateOfMinute"
    case NumberOfMinute => "NumberOfMinute"
  }

  /** The declared type of each property. */
  function KindOf(f: Field): Kind {
    match f
    case Key => Text
    case VoucherNumber => OptText
    case InvoiceDate => Text
    case CustomerCode => OptText
    case CustomerName => OptText
    case Buyer => OptText
    case CustomerTaxCode => OptText
    case Address => OptText
    case PhoneNumber => OptText
    case IDCardNo => OptText
    case PassportNo => OptText
    case BuyerUnit => OptText
    case PaymentMethod => OptText
    case BankAccount => OptText
    case BankName => OptText
    case EmailDeliver => OptText
    case Currency => OptText
    case ExchangeRate => Number
    case Amount => Number
    case DiscountAmount => Number
    case TaxAmount => Number
    case TotalAmount => Number
    case External1 => OptText
    case External2 => OptText
    case External3 => OptText
    case External4 => OptText
    case External5 => OptText
    case External6 => OptText
    case External7 => OptText
    case External8 => OptText
    case External9 => OptText
    case NumberExternal1 => OptNumber
    case NumberExternal2 => OptNumber
    case NumberExternal3 => OptNumber
    case VoucherType => OptInteger
    case OrgInvoiceDate => OptText
    case OrgInvoiceNo => OptText
    case OrgInvoicePattern => OptText
    case OrgInvoiceSerial => OptText
    case Reason => OptText
    case OrgCurrency => OptText
    case OrgAmount => OptNumber
    case DateOfMinute => OptText
    case NumberOfMinute => OptText
  }

  /** The property getter, boxed as a row entry; the value always fits the declared type. */
  function Get(m: InvoiceMaster, f: Field): (v: Value)
    ensures Conforms(v, KindOf(f))
  {
    match f
    case Key => OfText(m.key)
    case VoucherNumber => OfOptText(m.voucherNumber)
    case InvoiceDate => OfText(m.invoiceDate)
    case CustomerCode => OfOptText(m.customerCode)
    case CustomerName => OfOptText(m.customerName)
    case Buyer => OfOptText(m.buyer)
    case CustomerTaxCode => OfOptText(m.customerTaxCode)
    case Address => OfOptText(m.address)
    case PhoneNumber => OfOptText(m.phoneNumber)
    case IDCardNo => OfOptText(m.idCardNo)
    case PassportNo => OfOptText(m.passportNo)
    case BuyerUnit => OfOptText(m.buyerUnit)
    case PaymentMethod => OfOptText(m.paymentMethod)
    case BankAccount => OfOptText(m.bankAccount)
    case BankName => OfOptText(m.bankName)
    case EmailDeliver => OfOptText(m.emailDeliver)
    case Currency => OfOptText(m.currency)
    case ExchangeRate => OfNumber(m.exchangeRate)
    case Amount => OfNumber(m.amount)
    case DiscountAmount => OfNumber(m.discountAmount)
    case TaxAmount => OfNumber(m.taxAmount)
    case TotalAmount => OfNumber(m.totalAmount)
    case External1 => OfOptText(m.external1)
    case External2 => OfOptText(m.external2)
    case External3 => OfOptText(m.external3)
    case External4 => OfOptText(m.external4)
    case External5 => OfOptText(m.external5)
    case External6 => OfOptText(m.external6)
    case External7 => OfOptText(m.external7)
    case External8 => OfOptText(m.external8)
    case External9 => OfOptText(m.external9)
    case NumberExternal1 => OfOptNumber(m.numberExternal1)
    case NumberExternal2 => OfOptNumber(m.numberExternal2)
    case NumberExternal3 => OfOptNumber(m.numberExternal3)
    case VoucherType => OfOptInteger(m.voucherType)
    case OrgInvoiceDate => OfOptText(m.orgInvoiceDate)
    case OrgInvoiceNo => OfOptText(m.orgInvoiceNo)
    case OrgInvoicePattern => OfOptText(m.orgInvoicePattern)
    case OrgInvoiceSerial => OfOptText(m.orgInvoiceSerial)
    case Reason => OfOptText(m.reason)
    case OrgCurrency => OfOptText(m.orgCurrency)
    case OrgAmount => OfOptNumber(m.orgAmount)
    case DateOfMinute => OfOptText(m.dateOfMinute)
    case NumberOfMinute => OfOptText(m.numberOfMinute)
  }

  const Schema: Descriptor<InvoiceMaster, Field> := Descriptor(Fields(), Name, KindOf, Get)

  /**
   * The receiver's reading of a value row: entry i becomes the property at position i
   * of the manifest, or None when the row has the wrong length or an entry of the
   * wrong type.
   */
  function Decode(row: seq<Value>): Option<InvoiceMaster> {
    if Fits(Schema, row) then
      Some(InvoiceMaster(
        TextOf(row[0]),
        OptTextOf(row[1]),
        TextOf(row[2]),
        OptTextOf(row[3]),
        OptTextOf(row[4]),
        OptTextOf(row[5]),
        OptTextOf(row[6]),
        OptTextOf(row[7]),
        OptTextOf(row[8]),
        OptTextOf(row[9]),
        OptTextOf(row[10]),
        OptTextOf(row[11]),
        OptTextOf(row[12]),
        OptTextOf(row[13]),
        OptTextOf(row[14]),
        OptTextOf(row[15]),
        OptTextOf(row[16]),
        NumberOf(row[17]),
        NumberOf(row[18]),
        NumberOf(row[19]),
        NumberOf(row[20]),
        NumberOf(row[21]),
        OptTextOf(row[22]),
        OptTextOf(row[23]),
        OptTextOf(row[24]),
        OptTextOf(row[25]),
        OptTextOf(row[26]),
        OptTextOf(row[27]),
        OptTextOf(row[28]),
        OptTextOf(row[29]),
        OptTextOf(row[30]),
        OptNumberOf(row[31]),
        OptNumberOf(row[32]),
        OptNumberOf(row[33]),
        OptIntegerOf(row[34]),
        OptTextOf(row[35]),
        OptTextOf(row[36]),
        OptTextOf(row[37]),
        OptTextOf(row[38]),
        OptTextOf(row[39]),
        OptTextOf(row[40]),
        OptNumberOf(row[41]),
        OptTextOf(row[42]),
        OptTextOf(row[43])))
    else
      None
  }

  /**
   * The position the manifest gives each name, or -1 for a name it does not list
   * (looked up by length first, then among the names of that length).
   */
  function PositionOf(name: string): int {
    if |name| == 3 then
      if name == "Key" then 0
      else -1
    else if |name| == 5 then
      if name == "Buyer" then 5
      else -1
    else if |name| == 6 then
      if name == "Amount" then 18
      else if name == "Reason" then 39
      else -1
    else if |name| == 7 then
      if name == "Address" then 7
      else -1
    else if |name| == 8 then
      if name == "IDCardNo" then 9
      else if name == "BankName" then 14
      else if name == "Currency" then 16
      else -1
    else if |name| == 9 then
      if name == "BuyerUnit" then 11
      else if name == "TaxAmount" then 20
      else if name == "External1" then 22
      else if name == "External2" then 23
      else if name == "External3" then 24
      else if name == "External4" then 25
      else if name == "External5" then 26
      else if name == "External6" then 27
      else if name == "External7" then 28
      else if name == "External8" then 29
      else if name == "External9" then 30
      else if name == "OrgAmount" then 41
      else -1
    else if |name| == 10 then
      if name == "PassportNo" then 10
      else -1
    else if |name| == 11 then
      if name == "InvoiceDate" then 2
      else if name == "PhoneNumber" then 8
      else if name == "BankAccount" then 13
      else if name == "TotalAmount" then 21
      else if name == "VoucherType" then 34
      else if name == "OrgCurrency" then 40
      else -1
    else if |name| == 12 then
      if name == "CustomerCode" then 3
      else if name == "CustomerName" then 4
      else if name == "EmailDeliver" then 15
      else if name == "ExchangeRate" then 17
      else if name == "OrgInvoiceNo" then 36
      else if name == "DateOfMinute" then 42
      else -1
    else if |name| == 13 then
      if name == "VoucherNumber" then 1
      else if name == "PaymentMethod" then 12
      else -1
    else if |name| == 14 then
      if name == "DiscountAmount" then 19
      else if name == "OrgInvoiceDate" then 35
      else if name == "NumberOfMinute" then 43
      else -1
    else if |name| == 15 then
      if name == "CustomerTaxCode" then 6
      else if name == "NumberExternal1" then 31
      else if name == "NumberExternal2" then 32
      else if name == "NumberExternal3" then 33
      else -1
    else if |name| == 16 then
      if name == "OrgInvoiceSerial" then 38
      else -1
    else if |name| == 17 then
      if name == "OrgInvoicePattern" then 37
      else -1
    else -1
  }

  /** Positions 0 to 5: PositionOf reads each name back as its position. */
  lemma NamePositions0()
    ensures forall i | 0 <= i < 6 :: PositionOf(Name(FieldAt(i))) == i
  {
  }

  /** Positions 6 to 11: PositionOf reads each name back as its position. */
  lemma NamePositions1()
    ensures forall i | 6 <= i < 12 :: PositionOf(Name(FieldAt(i))) == i
  {
  }

  /** Positions 12 to 17: PositionOf reads each name back as its position. */
  lemma NamePositions2()
    ensures forall i | 12 <= i < 18 :: PositionOf(Name(FieldAt(i))) == i
  {
  }

  /** Positions 18 to 23: PositionOf reads each name back as its position. */
  lemma NamePositions3()
    ensures forall i | 18 <= i < 24 :: PositionOf(Name(FieldAt(i))) == i
  {
  }

  /** Positions 24 to 29: PositionOf reads each name back as its position. */
  lemma NamePositions4()
    ensures forall i | 24 <= i < 30 :: PositionOf(Name(FieldAt(i))) == i
  {
  }

  /** Positions 30 to 35: PositionOf reads each name back as its position. */
  lemma NamePositions5()
    ensures forall i | 30 <= i < 36 :: PositionOf(Name(FieldAt(i))) == i
  {
  }

  /** Positions 36 to 41: PositionOf reads each name back as its position. */
  lemma NamePositions6()
    ensures forall i | 36 <= i < 42 :: PositionOf(Name(FieldAt(i))) == i
  {
  }

  /** Positions 42 to 43: PositionOf reads each name back as its position. */
  lemma NamePositions7()
    ensures forall i | 42 <= i < 44 :: PositionOf(Name(FieldAt(i))) == i
  {
  }

  /** Every getter returns a value of its property's declared type, and no name is listed twice. */
  lemma SchemaSound()
    ensures Sound(Schema)
    ensures NamesDistinct(Schema)
  {
    assert Schema.get == Get && Schema.kind == KindOf;
    assert Schema.fields == Fields() && Schema.name == Name;
    NamePositions0();
    NamePositions1();
    NamePositions2();
    NamePositions3();
    NamePositions4();
    NamePositions5();
    NamePositions6();
    NamePositions7();
    DistinctByPosition(Schema, PositionOf);
  }

  /** Names 0 to 7 of the manifest. */
  lemma ManifestNames0()
    ensures PropertyNames(Schema)[0] == "Key"
    ensures PropertyNames(Schema)[1] == "VoucherNumber"
    ensures PropertyNames(Schema)[2] == "InvoiceDate"
    ensures PropertyNames(Schema)[3] == "CustomerCode"
    ensures PropertyNames(Schema)[4] == "CustomerName"
    ensures PropertyNames(Schema)[5] == "Buyer"
    ensures PropertyNames(Schema)[6] == "CustomerTaxCode"
    ensures PropertyNames(Schema)[7] == "Address"
  {
    assert Schema.fields == Fields() && Schema.name == Name;
  }

  /** Names 8 to 15 of the manifest. */
  lemma ManifestNames1()
    ensures PropertyNames(Schema)[8] == "PhoneNumber"
    ensures PropertyNames(Schema)[9] == "IDCardNo"
    ensures PropertyNames(Schema)[10] == "PassportNo"
    ensures PropertyNames(Schema)[11] == "BuyerUnit"
    ensures PropertyNames(Schema)[12] == "PaymentMethod"
    ensures PropertyNames(Schema)[13] == "BankAccount"
    ensures PropertyNames(Schema)[14] == "BankName"
    ensures PropertyNames(Schema)[15] == "EmailDeliver"
  {
    assert Schema.fields == Fields() && Schema.name == Name;
  }

  /** Names 16 to 23 of the manifest. */
  lemma ManifestNames2()
    ensures PropertyNames(Schema)[16] == "Currency"
    ensures PropertyNames(Schema)[17] == "ExchangeRate"
    ensures PropertyNames(Schema)[18] == "Amount"
    ensures PropertyNames(Schema)[19] == "DiscountAmount"
    ensures PropertyNames(Schema)[20] == "TaxAmount"
    ensures PropertyNames(Schema)[21] == "TotalAmount"
    ensures PropertyNames(Schema)[22] == "External1"
    ensures PropertyNames(Schema)[23] == "External2"
  {
    assert Schema.fields == Fields() && Schema.name == Name;
  }

  /** Names 24 to 31 of the manifest. */
  lemma ManifestNames3()
    ensures PropertyNames(Schema)[24] == "External3"
    ensures PropertyNames(Schema)[25] == "External4"
    ensures PropertyNames(Schema)[26] == "External5"
    ensures PropertyNames(Schema)[27] == "External6"
    ensures PropertyNames(Schema)[28] == "External7"
    ensures PropertyNames(Schema)[29] == "External8"
    ensures PropertyNames(Schema)[30] == "External9"
    ensures PropertyNames(Schema)[31] == "NumberExternal1"
  {
    assert Schema.fields == Fields() && Schema.name == Name;
  }

  /** Names 32 to 39 of the manifest. */
  lemma ManifestNames4()
    ensures PropertyNames(Schema)[32] == "NumberExternal2"
    ensures PropertyNames(Schema)[33] == "NumberExternal3"
    ensures PropertyNames(Schema)[34] == "VoucherType"
    ensures PropertyNames(Schema)[35] == "OrgInvoiceDate"
    ensures PropertyNames(Schema)[36] == "OrgInvoiceNo"
    ensures PropertyNames(Schema)[37] == "OrgInvoicePattern"
    ensures PropertyNames(Schema)[38] == "OrgInvoiceSerial"
    ensures PropertyNames(Schema)[39] == "Reason"
  {
    assert Schema.fields == Fields() && Schema.name == Name;
  }

  /** Names 40 to 43 of the manifest. */
  lemma ManifestNames5()
    ensures PropertyNames(Schema)[40] == "OrgCurrency"
    ensures PropertyNames(Schema)[41] == "OrgAmount"
    ensures PropertyNames(Schema)[42] == "DateOfMinute"
    ensures PropertyNames(Schema)[43] == "NumberOfMinute"
  {
    assert Schema.fields == Fields() && Schema.name == Name;
  }

  /** The manifest: every property name, in declaration order. */
  lemma ManifestOrder()
    ensures |PropertyNames(Schema)| == 44
    ensures PropertyNames(Schema)[0] == "Key"
    ensures PropertyNames(Schema)[1] == "VoucherNumber"
    ensures PropertyNames(Schema)[2] == "InvoiceDate"
    ensures PropertyNames(Schema)[3] == "CustomerCode"
    ensures PropertyNames(Schema)[4] == "CustomerName"
    ensures PropertyNames(Schema)[5] == "Buyer"
    ensures PropertyNames(Schema)[6] == "CustomerTaxCode"
    ensures PropertyNames(Schema)[7] == "Address"
    ensures PropertyNames(Schema)[8] == "PhoneNumber"
    ensures PropertyNames(Schema)[9] == "IDCardNo"
    ensures PropertyNames(Schema)[10] == "PassportNo"
    ensures PropertyNames(Schema)[11] == "BuyerUnit"
    ensures PropertyNames(Schema)[12] == "PaymentMethod"
    ensures PropertyNames(Schema)[13] == "BankAccount"
    ensures PropertyNames(Schema)[14] == "BankName"
    ensures PropertyNames(Schema)[15] == "EmailDeliver"
    ensures PropertyNames(Schema)[16] == "Currency"
    ensures PropertyNames(Schema)[17] == "ExchangeRate"
    ensures PropertyNames(Schema)[18] == "Amount"
    ensures PropertyNames(Schema)[19] == "DiscountAmount"
    ensures PropertyNames(Schema)[20] == "TaxAmount"
    ensures PropertyNames(Schema)[21] == "TotalAmount"
    ensures PropertyNames(Schema)[22] == "External1"
    ensures PropertyNames(Schema)[23] == "External2"
    ensures PropertyNames(Schema)[24] == "External3"
    ensures PropertyNames(Schema)[25] == "External4"
    ensures PropertyNames(Schema)[26] == "External5"
    ensures PropertyNames(Schema)[27] == "External6"
    ensures PropertyNames(Schema)[28] == "External7"
    ensures PropertyNames(Schema)[29] == "External8"
    ensures PropertyNames(Schema)[30] == "External9"
    ensures PropertyNames(Schema)[31] == "NumberExternal1"
    ensures PropertyNames(Schema)[32] == "NumberExternal2"
    ensures PropertyNames(Schema)[33] == "NumberExternal3"
    ensures PropertyNames(Schema)[34] == "VoucherType"
    ensures PropertyNames(Schema)[35] == "OrgInvoiceDate"
    ensures PropertyNames(Schema)[36] == "OrgInvoiceNo"
    ensures PropertyNames(Schema)[37] == "OrgInvoicePattern"
    ensures PropertyNames(Schema)[38] == "OrgInvoiceSerial"
    ensures PropertyNames(Schema)[39] == "Reason"
    ensures PropertyNames(Schema)[40] == "OrgCurrency"
    ensures PropertyNames(Schema)[41] == "OrgAmount"
    ensures PropertyNames(Schema)[42] == "DateOfMinute"
    ensures PropertyNames(Schema)[43] == "NumberOfMinute"
  {
    ManifestNames0();
    ManifestNames1();
    ManifestNames2();
    ManifestNames3();
    ManifestNames4();
    ManifestNames5();
  }

  /** Entries 0 to 3 of a record's row hold the boxed properties at those positions. */
  lemma RowEntries0(m: InvoiceMaster)
    ensures PropertyValues(Schema, m)[0] == OfText(m.key)
    ensures PropertyValues(Schema, m)[1] == OfOptText(m.voucherNumber)
    ensures PropertyValues(Schema, m)[2] == OfText(m.invoiceDate)
    ensures PropertyValues(Schema, m)[3] == OfOptText(m.customerCode)
  {
    assert Schema.fields == Fields() && Schema.get == Get;
  }

  /** Entries 4 to 7 of a record's row hold the boxed properties at those positions. */
  lemma RowEntries1(m: InvoiceMaster)
    ensures PropertyValues(Schema, m)[4] == OfOptText(m.customerName)
    ensures PropertyValues(Schema, m)[5] == OfOptText(m.buyer)
    ensures PropertyValues(Schema, m)[6] == OfOptText(m.customerTaxCode)
    ensures PropertyValues(Schema, m)[7] == OfOptText(m.address)
  {
    assert Schema.fields == Fields() && Schema.get == Get;
  }

  /** Entries 8 to 11 of a record's row hold the boxed properties at those positions. */
  lemma RowEntries2(m: InvoiceMaster)
    ensures PropertyValues(Schema, m)[8] == OfOptText(m.phoneNumber)
    ensures PropertyValues(Schema, m)[9] == OfOptText(m.idCardNo)
    ensures PropertyValues(Schema, m)[10] == OfOptText(m.passportNo)
    ensures PropertyValues(Schema, m)[11] == OfOptText(m.buyerUnit)
  {
    assert Schema.fields == Fields() && Schema.get == Get;
  }

  /** Entries 12 to 15 of a record's row hold the boxed properties at those positions. */
  lemma RowEntries3(m: InvoiceMaster)
    ensures PropertyValues(Schema, m)[12] == OfOptText(m.paymentMethod)
    ensures PropertyValues(Schema, m)[13] == OfOptText(m.bankAccount)
    ensures PropertyValues(Schema, m)[14] == OfOptText(m.bankName)
    ensures PropertyValues(Schema, m)[15] == OfOptText(m.emailDeliver)
  {
    assert Schema.fields == Fields() && Schema.get == Get;
  }

  /** Entries 16 to 19 of a record's row hold the boxed properties at those positions. */
  lemma RowEntries4(m: InvoiceMaster)
    ensures PropertyValues(Schema, m)[16] == OfOptText(m.currency)
    ensures PropertyValues(Schema, m)[17] == OfNumber(m.exchangeRate)
    ensures PropertyValues(Schema, m)[18] == OfNumber(m.amount)
    ensures PropertyValues(Schema, m)[19] == OfNumber(m.discountAmount)
  {
    assert Schema.fields == Fields() && Schema.get == Get;
  }

  /** Entries 20 to 23 of a record's row hold the boxed properties at those positions. */
  lemma RowEntries5(m: InvoiceMaster)
    ensures PropertyValues(Schema, m)[20] == OfNumber(m.taxAmount)
    ensures PropertyValues(Schema, m)[21] == OfNumber(m.totalAmount)
    ensures PropertyValues(Schema, m)[22] == OfOptText(m.external1)
    ensures PropertyValues(Schema, m)[23] == OfOptText(m.external2)
  {
    assert Schema.fields == Fields() && Schema.get == Get;
  }

  /** Entries 24 to 27 of a record's row hold the boxed properties at those positions. */
  lemma RowEntries6(m: InvoiceMaster)
    ensures PropertyValues(Schema, m)[24] == OfOptText(m.external3)
    ensures PropertyValues(Schema, m)[25] == OfOptText(m.external4)
    ensures PropertyValues(Schema, m)[26] == OfOptText(m.external5)
    ensures PropertyValues(Schema, m)[27] == OfOptText(m.external6)
  {
    assert Schema.fields == Fields() && Schema.get == Get;
  }

  /** Entries 28 to 31 of a record's row hold the boxed properties at those positions. */
  lemma RowEntries7(m: InvoiceMaster)
    ensures PropertyValues(Schema, m)[28] == OfOptText(m.external7)
    ensures PropertyValues(Schema, m)[29] == OfOptText(m.external8)
    ensures PropertyValues(Schema, m)[30] == OfOptText(m.external9)
    ensures PropertyValues(Schema, m)[31] == OfOptNumber(m.numberExternal1)
  {
    assert Schema.fields == Fields() && Schema.get == Get;
  }

  /** Entries 32 to 35 of a record's row hold the boxed properties at those positions. */
  lemma RowEntries8(m: InvoiceMaster)
    ensures PropertyValues(Schema, m)[32] == OfOptNumber(m.numberExternal2)
    ensures PropertyValues(Schema, m)[33] == OfOptNumber(m.numberExternal3)
    ensures PropertyValues(Schema, m)[34] == OfOptInteger(m.voucherType)
    ensures PropertyValues(Schema, m)[35] == OfOptText(m.orgInvoiceDate)
  {
    assert Schema.fields == Fields() && Schema.get == Get;
  }

  /** Entries 36 to 39 of a record's row hold the boxed properties at those positions. */
  lemma RowEntries9(m: InvoiceMaster)
    ensures PropertyValues(Schema, m)[36] == OfOptText(m.orgInvoiceNo)
    ensures PropertyValues(Schema, m)[37] == OfOptText(m.orgInvoicePattern)
    ensures PropertyValues(Schema, m)[38] == OfOptText(m.orgInvoiceSerial)
    ensures PropertyValues(Schema, m)[39] == OfOptText(m.reason)
  {
    assert Schema.fields == Fields() && Schema.get == Get;
  }

  /** Entries 40 to 43 of a record's row hold the boxed properties at those positions. */
  lemma RowEntries10(m: InvoiceMaster)
    ensures PropertyValues(Schema, m)[40] == OfOptText(m.orgCurrency)
    ensures PropertyValues(Schema, m)[41] == OfOptNumber(m.orgAmount)
    ensures PropertyValues(Schema, m)[42] == OfOptText(m.dateOfMinute)
    ensures PropertyValues(Schema, m)[43] == OfOptText(m.numberOfMinute)
  {
    assert Schema.fields == Fields() && Schema.get == Get;
  }

  /** Decoding the row of any record, position by position, gives back that record. */
  lemma DecodeRoundTrip(m: InvoiceMaster)
    ensures Decode(PropertyValues(Schema, m)) == Some(m)
  {
    SchemaSound();
    PropertyValuesFit(Schema, m);
    RowEntries0(m);
    RowEntries1(m);
    RowEntries2(m);
    RowEntries3(m);
    RowEntries4(m);
    RowEntries5(m);
    RowEntries6(m);
    RowEntries7(m);
    RowEntries8(m);
    RowEntries9(m);
    RowEntries10(m);
  }

  /** In the row of a fresh record, exactly the nullable properties are null. */
  lemma NewEncoding()
    ensures forall f :: Get(New(), f) == Null <==> KindOf(f).Nullable()
    ensures Get(New(), Key) == Str("")
    ensures Get(New(), InvoiceDate) == Str("")
    ensures Get(New(), ExchangeRate) == Dec(1.0)
    ensures Get(New(), Amount) == Dec(0.0)
    ensures Get(New(), DiscountAmount) == Dec(0.0)
    ensures Get(New(), TaxAmount) == Dec(0.0)
    ensures Get(New(), TotalAmount) == Dec(0.0)
  {
  }
}
