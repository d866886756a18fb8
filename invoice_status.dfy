/**
 * The status of an invoice on the portal (InvoiceStatus.cs): an enumeration over int
 * with three named values, its Vietnamese descriptions and two classifying predicates.
 * Like a C# enum, a status may hold any int, named or not.
 */
module InvoiceStatus {
  newtype InvoiceStatus = int

  const WaitingAuthentication: InvoiceStatus := 1
  const Authenticated: InvoiceStatus := 2
  const Cancelled: InvoiceStatus := 8

  /** The three values the enumeration names. */
  predicate IsNamed(s: InvoiceStatus) {
    s == WaitingAuthentication || s == Authenticated || s == Cancelled
  }

  const UnknownStatus: string := "Unknown status"

  /** GetDescription: a fixed text for each named value and "Unknown status" for any other. */
  function GetDescription(s: InvoiceStatus): (d: string)
    ensures d == UnknownStatus <==> !IsNamed(s)
  {
    if s == WaitingAuthentication then "Chờ xác thực"
    else if s == Authenticated then "Đã xác thực"
    else if s == Cancelled then "Hủy"
    else UnknownStatus
  }

  /** IsEditable: only an invoice still waiting for authentication can be changed. */
  predicate IsEditable(s: InvoiceStatus) {
    s == WaitingAuthentication
  }

  /** IsFinalized: an authenticated or cancelled invoice is final. */
  predicate IsFinalized(s: InvoiceStatus) {
    s == Authenticated || s == Cancelled
  }

  /**
   * Each named status is exactly one of editable and finalized; a value the enumeration
   * does not name is neither.
   */
  lemma EditableOrFinalized(s: InvoiceStatus)
    ensures IsNamed(s) ==> (IsEditable(s) <==> !IsFinalized(s))
    ensures !IsNamed(s) ==> !IsEditable(s) && !IsFinalized(s)
  {
  }

  /** The description tells the named statuses apart. */
  lemma DescriptionsDistinguish(a: InvoiceStatus, b: InvoiceStatus)
    requires IsNamed(a) && IsNamed(b)
    ensures GetDescription(a) == GetDescription(b) ==> a == b
  {
  }
}
