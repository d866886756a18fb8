/**
 * The positional encoder (JsonHelper.cs): a header and its lines become one command body
 * whose structure lists the header and line property names and whose item holds the
 * matching value rows. The header and line types are described by their field
 * descriptors, which take the place of reflection.
 */
module JsonHelper {
  import opened Wrappers
  import opened Errors
  import opened Wire
  import opened CommandRequest
  import IM = InvoiceMaster
  import ID = InvoiceDetail
  import DM = DeliveryNoteMaster
  import DD = DeliveryNoteDetail

  /** The value rows of a list of lines, one per line, in order. */
  function DetailRows<D, FD>(dd: Descriptor<D, FD>, details: seq<D>): (rows: seq<seq<Value>>)
    ensures |rows| == |details|
    ensures forall j | 0 <= j < |details| :: rows[j] == PropertyValues(dd, details[j])
  {
    seq(|details|, j requires 0 <= j < |details| => PropertyValues(dd, details[j]))
  }

  /** One document as an item: its header row and its line rows. */
  function EncodeItem<M, FM, D, FD>(md: Descriptor<M, FM>, dd: Descriptor<D, FD>, master: M, details: seq<D>): (item: DataItem)
    ensures item.master == PropertyValues(md, master)
    ensures item.detail == DetailRows(dd, details)
  {
    DataItem(PropertyValues(md, master), DetailRows(dd, details))
  }

  /** The structure shared by every body for a header type and a line type. */
  function StructureOf<M, FM, D, FD>(md: Descriptor<M, FM>, dd: Descriptor<D, FD>): (s: Structure)
    ensures s.master == PropertyNames(md) && s.detail == PropertyNames(dd)
  {
    Structure(PropertyNames(md), PropertyNames(dd))
  }

  /** The single-document form: the structure and exactly one item. */
  function ConvertOne<M, FM, D, FD>(md: Descriptor<M, FM>, dd: Descriptor<D, FD>, master: M, details: seq<D>): (r: Request)
    ensures r.data.structure == StructureOf(md, dd)
    ensures r.data.invoices == [EncodeItem(md, dd, master, details)]
    ensures Aligned(r)
  {
    Request(Data(StructureOf(md, dd), [EncodeItem(md, dd, master, details)]))
  }

  /**
   * The batch form: an ArgumentException naming `paramName` on an empty list, otherwise
   * the structure and one item per document, in order.
   */
  function ConvertMany<M, FM, D, FD>(
    md: Descriptor<M, FM>, dd: Descriptor<D, FD>, docs: seq<(M, seq<D>)>, paramName: string, emptyMessage: string
  ): (r: Result<Request, ArgumentError>)
    ensures docs == [] <==> r.Err?
    ensures r.Err? ==> r.error == ArgumentError(paramName, emptyMessage)
    ensures r.Ok? ==> && r.value.data.structure == StructureOf(md, dd)
                      && |r.value.data.invoices| == |docs|
                      && (forall i | 0 <= i < |docs| ::
                            r.value.data.invoices[i] == EncodeItem(md, dd, docs[i].0, docs[i].1))
                      && Aligned(r.value)
  {
    if |docs| == 0 then
      Err(ArgumentError(paramName, emptyMessage))
    else
      var items := seq(|docs|, i requires 0 <= i < |docs| => EncodeItem(md, dd, docs[i].0, docs[i].1));
      Ok(Request(Data(StructureOf(md, dd), items)))
  }

  /** Reading an item back: the header from its row, each line from its row. */
  function DecodeItem<M, D>(decodeMaster: seq<Value> -> Option<M>, decodeDetail: seq<Value> -> Option<D>, item: DataItem): Option<(M, seq<D>)>
  {
    var master :- decodeMaster(item.master);
    var details :- DecodeRows(decodeDetail, item.detail);
    Some((master, details))
  }

  function DecodeRows<D>(decodeDetail: seq<Value> -> Option<D>, rows: seq<seq<Value>>): Option<seq<D>>
    decreases |rows|
  {
    if rows == [] then Some([])
    else
      var d :- decodeDetail(rows[0]);
      var rest :- DecodeRows(decodeDetail, rows[1..]);
      Some([d] + rest)
  }

  lemma {:induction false} DecodeRowsRoundTrip<D, FD>(dd: Descriptor<D, FD>, decodeDetail: seq<Value> -> Option<D>, details: seq<D>)
    requires forall d :: decodeDetail(PropertyValues(dd, d)) == Some(d)
    ensures DecodeRows(decodeDetail, DetailRows(dd, details)) == Some(details)
    decreases |details|
  {
    if details != [] {
      var rows := DetailRows(dd, details);
      assert rows[0] == PropertyValues(dd, details[0]);
      assert rows[1..] == DetailRows(dd, details[1..]);
      DecodeRowsRoundTrip(dd, decodeDetail, details[1..]);
      assert [details[0]] + details[1..] == details;
    }
  }

  /** An item decodes back to its document when each row type decodes back to its record. */
  lemma DecodeItemRoundTrip<M, FM, D, FD>(
    md: Descriptor<M, FM>, dd: Descriptor<D, FD>,
    decodeMaster: seq<Value> -> Option<M>, decodeDetail: seq<Value> -> Option<D>,
    master: M, details: seq<D>)
    requires forall m :: decodeMaster(PropertyValues(md, m)) == Some(m)
    requires forall d :: decodeDetail(PropertyValues(dd, d)) == Some(d)
    ensures DecodeItem(decodeMaster, decodeDetail, EncodeItem(md, dd, master, details)) == Some((master, details))
  {
    DecodeRowsRoundTrip(dd, decodeDetail, details);
  }

  /** The single-document form is the batch form applied to a one-document list. */
  lemma ConvertOneIsManyOfOne<M, FM, D, FD>(
    md: Descriptor<M, FM>, dd: Descriptor<D, FD>, master: M, details: seq<D>, paramName: string, emptyMessage: string)
    ensures ConvertMany(md, dd, [(master, details)], paramName, emptyMessage) == Ok(ConvertOne(md, dd, master, details))
  {
    var r := ConvertMany(md, dd, [(master, details)], paramName, emptyMessage);
    assert r.value.data.invoices == [EncodeItem(md, dd, master, details)];
  }

  // The invoice and delivery-note instances.

  const InvoicesEmpty: string := "Invoices list cannot be null or empty"
  const DeliveryNotesEmpty: string := "Delivery notes list cannot be null or empty"

  /** ConvertToInvoiceRequest(master, details). */
  function ConvertToInvoiceRequest(master: IM.InvoiceMaster, details: seq<ID.InvoiceDetail>): (r: InvoiceRequest)
    ensures r.data.structure.master == PropertyNames(IM.Schema)
    ensures r.data.structure.detail == PropertyNames(ID.Schema)
    ensures r.data.invoices == [EncodeItem(IM.Schema, ID.Schema, master, details)] && Aligned(r)
  {
    ConvertOne(IM.Schema, ID.Schema, master, details)
  }

  /** ConvertToInvoiceRequest(invoices): fails on an empty list. */
  function ConvertToInvoiceRequests(invoices: seq<(IM.InvoiceMaster, seq<ID.InvoiceDetail>)>): (r: Result<InvoiceRequest, ArgumentError>)
    ensures invoices == [] <==> r.Err?
    ensures r.Err? ==> r.error == ArgumentError("invoices", InvoicesEmpty)
    ensures r.Ok? ==> && r.value.data.structure == StructureOf(IM.Schema, ID.Schema)
                      && |r.value.data.invoices| == |invoices|
                      && (forall i | 0 <= i < |invoices| ::
                            r.value.data.invoices[i] == EncodeItem(IM.Schema, ID.Schema, invoices[i].0, invoices[i].1))
                      && Aligned(r.value)
  {
    ConvertMany(IM.Schema, ID.Schema, invoices, "invoices", InvoicesEmpty)
  }

  /** ConvertToDeliveryNoteRequest(master, details). */
  function ConvertToDeliveryNoteRequest(master: DM.DeliveryNoteMaster, details: seq<DD.DeliveryNoteDetail>): (r: DeliveryNoteRequest)
    ensures r.data.structure.master == PropertyNames(DM.Schema)
    ensures r.data.structure.detail == PropertyNames(DD.Schema)
    ensures r.data.invoices == [EncodeItem(DM.Schema, DD.Schema, master, details)] && Aligned(r)
  {
    ConvertOne(DM.Schema, DD.Schema, master, details)
  }

  /** ConvertToDeliveryNoteRequest(deliveryNotes): fails on an empty list. */
  function ConvertToDeliveryNoteRequests(deliveryNotes: seq<(DM.DeliveryNoteMaster, seq<DD.DeliveryNoteDetail>)>): (r: Result<DeliveryNoteRequest, ArgumentError>)
    ensures deliveryNotes == [] <==> r.Err?
    ensures r.Err? ==> r.error == ArgumentError("deliveryNotes", DeliveryNotesEmpty)
    ensures r.Ok? ==> && r.value.data.structure == StructureOf(DM.Schema, DD.Schema)
                      && |r.value.data.invoices| == |deliveryNotes|
                      && (forall i | 0 <= i < |deliveryNotes| ::
                            r.value.data.invoices[i] == EncodeItem(DM.Schema, DD.Schema, deliveryNotes[i].0, deliveryNotes[i].1))
                      && Aligned(r.value)
  {
    ConvertMany(DM.Schema, DD.Schema, deliveryNotes, "deliveryNotes", DeliveryNotesEmpty)
  }

  /** The single-document form is the batch form of a one-document list. */
  lemma InvoiceSingleIsBatchOfOne(master: IM.InvoiceMaster, details: seq<ID.InvoiceDetail>)
    ensures ConvertToInvoiceRequests([(master, details)]) == Ok(ConvertToInvoiceRequest(master, details))
  {
    ConvertOneIsManyOfOne(IM.Schema, ID.Schema, master, details, "invoices", InvoicesEmpty);
  }

  lemma DeliveryNoteSingleIsBatchOfOne(master: DM.DeliveryNoteMaster, details: seq<DD.DeliveryNoteDetail>)
    ensures ConvertToDeliveryNoteRequests([(master, details)]) == Ok(ConvertToDeliveryNoteRequest(master, details))
  {
    ConvertOneIsManyOfOne(DM.Schema, DD.Schema, master, details, "deliveryNotes", DeliveryNotesEmpty);
  }

  /** The receiver's reading of an invoice item. */
  function DecodeInvoice(item: DataItem): Option<(IM.InvoiceMaster, seq<ID.InvoiceDetail>)> {
    DecodeItem(IM.Decode, ID.Decode, item)
  }

  function DecodeDeliveryNote(item: DataItem): Option<(DM.DeliveryNoteMaster, seq<DD.DeliveryNoteDetail>)> {
    DecodeItem(DM.Decode, DD.Decode, item)
  }

  /** Every item of an invoice batch reads back, by position, as the document it came from. */
  lemma InvoiceBatchRoundTrip(invoices: seq<(IM.InvoiceMaster, seq<ID.InvoiceDetail>)>, i: nat)
    requires i < |invoices|
    ensures var r := ConvertToInvoiceRequests(invoices);
      r.Ok? && DecodeInvoice(r.value.data.invoices[i]) == Some(invoices[i])
  {
    forall m ensures IM.Decode(PropertyValues(IM.Schema, m)) == Some(m) {
      IM.DecodeRoundTrip(m);
    }
    forall d ensures ID.Decode(PropertyValues(ID.Schema, d)) == Some(d) {
      ID.DecodeRoundTrip(d);
    }
    DecodeItemRoundTrip(IM.Schema, ID.Schema, IM.Decode, ID.Decode, invoices[i].0, invoices[i].1);
  }

  /** Every item of a delivery-note batch reads back, by position, as the note it came from. */
  lemma DeliveryNoteBatchRoundTrip(deliveryNotes: seq<(DM.DeliveryNoteMaster, seq<DD.DeliveryNoteDetail>)>, i: nat)
    requires i < |deliveryNotes|
    ensures var r := ConvertToDeliveryNoteRequests(deliveryNotes);
      r.Ok? && DecodeDeliveryNote(r.value.data.invoices[i]) == Some(deliveryNotes[i])
  {
    forall m ensures DM.Decode(PropertyValues(DM.Schema, m)) == Some(m) {
      DM.DecodeRoundTrip(m);
    }
    forall d ensures DD.Decode(PropertyValues(DD.Schema, d)) == Some(d) {
      DD.DecodeRoundTrip(d);
    }
    DecodeItemRoundTrip(DM.Schema, DD.Schema, DM.Decode, DD.Decode, deliveryNotes[i].0, deliveryNotes[i].1);
  }

  /** Where each delivery-note line property sits in the invoice line manifest. */
  const DetailPositions: seq<nat> := [0, 1, 2, 3, 4, 5, 6, 11, 12, 13, 14, 15, 16, 17]

  /**
   * The delivery-note line manifest is the invoice line manifest with the discount, tax
   * and T properties taken out: the same names, in the same relative order.
   */
  lemma DeliveryNoteDetailIsSubsequence()
    ensures |DetailPositions| == |PropertyNames(DD.Schema)|
    ensures forall i, j | 0 <= i < j < |DetailPositions| :: DetailPositions[i] < DetailPositions[j]
    ensures forall i | 0 <= i < |DetailPositions| ::
      DetailPositions[i] < |PropertyNames(ID.Schema)|
      && PropertyNames(DD.Schema)[i] == PropertyNames(ID.Schema)[DetailPositions[i]]
  {
    DD.ManifestOrder();
    ID.ManifestOrder();
  }
}
