/**
 * The body of query and delete commands (QueryRequest.cs): a `data` list of items, each
 * naming one document by its key and its date.
 */
module QueryRequest {
  /** The wire names of the body's properties. */
  const DataKey: string := "data"
  const KeyKey: string := "key"
  const InvoiceDateKey: string := "invoiceDate"

  /**
   * One document reference. Both fields are marked required, but nothing in the client
   * checks that on this type.
   */
  datatype QueryItem = QueryItem(key: string, invoiceDate: string)

  datatype QueryRequest = QueryRequest(data: seq<QueryItem>)

  /** `new QueryItem()`: both fields "". */
  function NewItem(): (q: QueryItem)
    ensures q.key == "" && q.invoiceDate == ""
  {
    QueryItem("", "")
  }

  /** `new QueryRequest()`: an empty list. */
  function New(): (r: QueryRequest)
    ensures r.data == []
  {
    QueryRequest([])
  }
}
