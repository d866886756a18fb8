/**
 * The constants of the FAST command API (ApiConstants.cs): the method code of each
 * operation, the action, the endpoint path, query-parameter and header names, and the
 * code tables for voucher types, item types, tax rates and delivery-note types.
 */
module ApiConstants {
  import opened Text

  /** The six commands the client issues. */
  datatype Operation =
    | PushInvoice | PushDeliveryNote | QueryInvoice | QueryDeliveryNote
    | DeleteInvoice | DeleteDeliveryNote

  /** The method code sent for each command. */
  function MethodCode(op: Operation): (code: string)
    ensures |code| == 3 && AllDigits(code) && code[0] == '3'
  {
    match op
    case PushInvoice => "311"
    case PushDeliveryNote => "318"
    case QueryInvoice => "371"
    case QueryDeliveryNote => "378"
    case DeleteInvoice => "361"
    case DeleteDeliveryNote => "368"
  }

  /** No two commands share a method code, so the code names the command. */
  lemma MethodCodesDistinct(a: Operation, b: Operation)
    ensures MethodCode(a) == MethodCode(b) ==> a == b
  {
  }

  /** The action value: execute. */
  const Execute: string := "0"

  /** Header names and the content type of a command body. */
  const ContentTypeHeader: string := "Content-Type"
  const UserHeader: string := "user"
  const UnitCodeHeader: string := "unitCode"
  const CheckSumHeader: string := "checkSum"
  const TextPlain: string := "text/plain"

  /** Query-parameter names. */
  const ActionParam: string := "action"
  const MethodParam: string := "method"
  const ClientCodeParam: string := "clientCode"
  const ProxyCodeParam: string := "proxyCode"

  /** The date format invoice and query dates are written in. */
  const DateFormat: string := "dd/MM/yyyy"

  /** The endpoint every command is posted to. */
  const ApiPath: string := "/api/Command/ExecuteCommand"

  /** Voucher (invoice) types: new, adjustment, replacement, period discount. */
  const VoucherNew: int := 1
  const VoucherAdjustment: int := 2
  const VoucherReplacement: int := 3
  const VoucherPeriodDiscount: int := 9
  const VoucherTypes: seq<int> := [VoucherNew, VoucherAdjustment, VoucherReplacement, VoucherPeriodDiscount]

  /** Item types of a line. */
  const GoodsAndServices: string := "01"
  const PromotionalNonTax: string := "02"
  const PromotionalTax: string := "03"
  const Gift: string := "04"
  const Discount: string := "05"
  const Note: string := "08"
  const SpecialVehicle: string := "51"
  const SpecialTransport: string := "52"
  const SpecialDigitalTransport: string := "53"
  const ItemTypes: seq<string> := [
    GoodsAndServices, PromotionalNonTax, PromotionalTax, Gift, Discount, Note,
    SpecialVehicle, SpecialTransport, SpecialDigitalTransport]

  /** Tax rates: the four percentages and three negative markers (not subject, not declared, empty). */
  const Rate0: real := 0.0
  const Rate5: real := 5.0
  const Rate8: real := 8.0
  const Rate10: real := 10.0
  const NotSubject: real := -1.0
  const NotDeclared: real := -2.0
  const EmptyRate: real := -9.0
  const TaxRates: seq<real> := [Rate0, Rate5, Rate8, Rate10, NotSubject, NotDeclared, EmptyRate]

  /** Delivery-note types: internal and consignment. */
  const DeliveryInternal: int := 1
  const DeliveryConsignment: int := 2
  const DeliveryNoteTypes: seq<int> := [DeliveryInternal, DeliveryConsignment]

  /** The elements of a sequence are pairwise distinct. */
  predicate Distinct<T(==)>(s: seq<T>) {
    forall i, j | 0 <= i < j < |s| :: s[i] != s[j]
  }

  /** Each code table lists every code once. */
  lemma TablesDistinct()
    ensures Distinct(VoucherTypes) && Distinct(DeliveryNoteTypes)
    ensures Distinct(ItemTypes) && Distinct(TaxRates)
  {
  }

  /** Every item type is two decimal digits. */
  lemma ItemTypesAreTwoDigits()
    ensures forall i | 0 <= i < |ItemTypes| :: |ItemTypes[i]| == 2 && AllDigits(ItemTypes[i])
  {
  }

  /** The first four tax rates are the percentages, the last three the negative markers. */
  lemma TaxRatesSplit()
    ensures forall i | 0 <= i < |TaxRates| :: (TaxRates[i] >= 0.0 <==> i < 4)
  {
  }
}
