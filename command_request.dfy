/**
 * The command bodies (InvoiceRequest.cs, DeliveryNoteRequest.cs): a `data` object holding
 * the `structure` manifest (header and line field names) and the `invoices` list of items,
 * each one header value row and a list of line value rows. The invoice and delivery-note
 * bodies have the same shape and the same wire names, so one set of datatypes serves both.
 */
module CommandRequest {
  import opened Wire

  /** The wire names of the body's properties. */
  const DataKey: string := "data"
  const StructureKey: string := "structure"
  const InvoicesKey: string := "invoices"
  const MasterKey: string := "master"
  const DetailKey: string := "detail"

  /** The manifest: header field names and line field names, each in order. */
  datatype Structure = Structure(master: seq<string>, detail: seq<string>)

  /** One document: its header row and one row per line. */
  datatype DataItem = DataItem(master: seq<Value>, detail: seq<seq<Value>>)

  datatype Data = Data(structure: Structure, invoices: seq<DataItem>)

  datatype Request = Request(data: Data)

  /** InvoiceRequest and DeliveryNoteRequest. */
  type InvoiceRequest = Request
  type DeliveryNoteRequest = Request

  /** `new InvoiceRequest()` / `new DeliveryNoteRequest()`: nested objects present, every list empty. */
  function New(): (r: Request)
    ensures r.data.structure.master == [] && r.data.structure.detail == []
    ensures r.data.invoices == []
  {
    Request(Data(Structure([], []), []))
  }

  /**
   * The documented alignment: every header row has one entry per header name and every
   * line row one entry per line name.
   */
  predicate Aligned(r: Request) {
    forall i | 0 <= i < |r.data.invoices| ::
      && |r.data.invoices[i].master| == |r.data.structure.master|
      && forall j | 0 <= j < |r.data.invoices[i].detail| ::
           |r.data.invoices[i].detail[j]| == |r.data.structure.detail|
  }

  /** A fresh body is trivially aligned: it has no items. */
  lemma NewAligned()
    ensures Aligned(New())
  {
  }
}
