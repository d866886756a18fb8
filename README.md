# FAST e-invoice client, modelled in Dafny

This project models the core of the FastEInvoice .NET client for the FAST e-invoice
command API. The client can:

- push invoices and delivery notes;
- query them by key and date;
- delete them by key and date.

Every call is one HTTP POST to a fixed API path. The URL's query string names:

- the action, which is the constant `0`;
- a three-digit method code that selects the operation;
- the client code;
- the proxy code.

Each request carries three headers: the user, the unit code, and a checksum. The checksum
is computed once, when the client is built: it is `MD5(MD5(password) + clientCode)`, with
each digest written as lower-case hex. The body is JSON text sent as `text/plain`. For a
push, the body lists each record's property names once in a `structure` section, and then
each document as positional value rows. The reply is an envelope
`{success, code, message, data}`. It counts as a success only when `success == 1` and
`code == 0`. A query's answer is a second JSON document held inside `message`.

The model is split by the source's own files.

| Module | What it holds |
|---|---|
| `FastEInvoiceOptions` | The options record, its defaults and `Validate` |
| `ApiConstants` | The method codes, header names, query-parameter names, path and lookup tables |
| `ErrorCode`, `ApiResponse`, `FastEInvoiceException`, `InvoiceStatus` | The error table, the reply envelope, the client's exception and the status enum |
| `InvoiceMaster`, `InvoiceDetail`, `DeliveryNoteMaster`, `DeliveryNoteDetail` | The four wire records, each with a descriptor |
| `Wire` | What `GetPropertyNames` and `GetPropertyValues` compute, done by descriptors instead of reflection |
| `CommandRequest`, `QueryRequest` | The two request bodies |
| `JsonHelper` | The conversion of documents to request bodies |
| `MD5Helper` | Hex rendering, `ComputeHash` and `GenerateCheckSum`, with `CheckSum` as the function `GenerateCheckSum` is proved against |
| `UriEscape`, `ApiUrl` | `Uri.EscapeDataString` and `BuildApiUrl` |
| `Utf8` | UTF-8 encoding of the body and of the hash input |
| `Text` | `IsBlank` and `IsNullOrWhiteSpace` for `string.IsNullOrWhiteSpace`, and `IntToDecimal` for `Int32.ToString` |
| `FastEInvoiceClient` | The client class: the constructor, the twelve public operations, `ExecuteCommandAsync` as the method `ExecuteCommand`, the function `Exchange` that specifies it and `ReadReply`, and `CreateHttpRequest` |

## What is abstracted

The model has no access to the network, to a JSON library or to an MD5 implementation.
Each of these becomes a parameter, so every property below holds for any choice of it:

- **The HTTP exchange** is a function `send` from the request to a `Transport` outcome. The
  outcome is a received status and body, an `HttpRequestException` or a cancellation.
- **System.Text.Json** is a `Codec`: two serializers and two parsers. Each parser answers
  `Parsed(value)`, `ParsedNull` (the text `null`) or `Malformed` (a `JsonException`).
- **`InvoiceInfo`** is the class's type parameter `Info`.
- **The MD5 digest** is a function on byte sequences. `IsDigest` states its 16-byte output
  length, where a property needs it.
- **`Uri.TryCreate(…, UriKind.Absolute, …)`** is a predicate on strings.

Three kinds of .NET behaviour are modelled as results rather than exceptions:

- an `ArgumentException` becomes `Err(ArgumentException(ArgumentError(paramName, message)))`;
- a `FastEInvoiceException` becomes `Err(ClientException(…))`;
- a `JsonException` that escapes becomes `Err(JsonException(detail))`.

## Behaviour worth noting

- **Malformed envelope.** When a 2xx reply's body is not valid JSON, `JsonSerializer.Deserialize`
  throws `JsonException`. `ExecuteCommandAsync` catches only `HttpRequestException` and
  `TaskCanceledException`, so this error reaches the caller unwrapped. `Interpret` keeps it
  unwrapped as `JsonException`. It is not a `FastEInvoiceException`.
- **Null envelope.** A body that parses to `null` gives
  `FastEInvoiceException("Failed to deserialize API response")`.
- **Single push.** `PushInvoiceAsync` and `PushDeliveryNoteAsync` build a one-document
  request themselves rather than calling the batch forms. The lemmas
  `JsonHelper.InvoiceSingleIsBatchOfOne` and `JsonHelper.DeliveryNoteSingleIsBatchOfOne`
  prove that the request is the same as the batch form's for a one-element list. The query
  and delete singular forms do delegate to the batch forms, and the model delegates as they do.
- **Null `message` in a query answer.** A `message` of JSON `null`, or a second-layer
  answer of `null`, reads as an empty list, as the `??` fallbacks in the source do.
- **Timeout above Int32.MaxValue milliseconds.** `Validate` rejects only a timeout of zero
  or less. The constructor then sets `HttpClient.Timeout`, which throws
  `ArgumentOutOfRangeException` for more than 2147483 seconds, so such options build no client.
- **Line breaks in the user or unit code.** `Validate` accepts them, but `Headers.Add` throws
  `FormatException`. `CreateHttpRequest` runs before the `try` block, so that exception
  reaches the caller unwrapped, and nothing is sent.

## Model

| member | source | states |
|---|---|---|
| FastEInvoiceOptions.Default | src/FastEInvoice/Configuration/FastEInvoiceOptions.cs:21-65 | All six text options default to "" and the timeout to 30 seconds; detailed logging is off |
| FastEInvoiceOptions.Validate | src/FastEInvoice/Configuration/FastEInvoiceOptions.cs:70-95 | Every reported failure names a parameter and carries a non-empty message |
| FastEInvoiceOptions.ValidateSucceedsIffAllHold | src/FastEInvoice/Configuration/FastEInvoiceOptions.cs:70-95 | Validate passes exactly when all eight checks hold: six non-blank options, a positive timeout and an absolute base URL |
| FastEInvoiceOptions.EarlyFailureReported | src/FastEInvoice/Configuration/FastEInvoiceOptions.cs:72-82 | When one of the first four checks is the first to fail, its own ArgumentException is the one reported |
| FastEInvoiceOptions.LateFailureReported | src/FastEInvoice/Configuration/FastEInvoiceOptions.cs:84-94 | When one of the last four checks is the first to fail, its own ArgumentException is the one reported |
| FastEInvoiceOptions.ValidateReportsFirstFailure | src/FastEInvoice/Configuration/FastEInvoiceOptions.cs:70-95 | Any failure reported is that of the first failing check in source order |
| FastEInvoiceOptions.DefaultFailsAtBaseUrl | src/FastEInvoice/Configuration/FastEInvoiceOptions.cs:21-73 | Default options fail with ("BaseUrl", "BaseUrl is required") |
| FastEInvoiceOptions.BlankBaseUrlIsMissing | src/FastEInvoice/Configuration/FastEInvoiceOptions.cs:72-73 | A null or whitespace base URL is reported as missing, before any other check |
| FastEInvoiceOptions.NonPositiveTimeoutRejected | src/FastEInvoice/Configuration/FastEInvoiceOptions.cs:90-91 | A timeout of zero or less never validates |
| ApiConstants.MethodCode | src/FastEInvoice/Constants/ApiConstants.cs:16-41 | Every method code has three digits and starts with '3' |
| ApiConstants.MethodCodesDistinct | src/FastEInvoice/Constants/ApiConstants.cs:16-41 | The six operations have six different method codes |
| ApiConstants.TablesDistinct | src/FastEInvoice/Constants/ApiConstants.cs:100-196 | The voucher types, item types, tax rates and delivery-note types each list no value twice |
| ApiConstants.ItemTypesAreTwoDigits | src/FastEInvoice/Constants/ApiConstants.cs:126-166 | Every item type is a two-digit code |
| ApiConstants.TaxRatesSplit | src/FastEInvoice/Constants/ApiConstants.cs:174-180 | The first four tax rates are real rates (0 or more) and the rest are the negative marker values |
| ErrorCode.DescriptionsNonEmpty | src/FastEInvoice/Models/Common/ErrorCode.cs:11-47 | Every listed description is non-empty |
| ErrorCode.GetDescription | src/FastEInvoice/Models/Common/ErrorCode.cs:54-59 | A listed code gets its table text; any other code gets "Unknown error code: " followed by more text |
| ErrorCode.IsSuccess | src/FastEInvoice/Models/Common/ErrorCode.cs:66-69 | Code 0 only; ListedCodesAreFailures states that no listed code is one |
| ErrorCode.ListedCodesAreFailures | src/FastEInvoice/Models/Common/ErrorCode.cs:11-69 | No listed code is the success code |
| ErrorCode.SuccessCodeDescription | src/FastEInvoice/Models/Common/ErrorCode.cs:54-69 | Code 0 is unlisted, and its description is "Unknown error code: 0" |
| ErrorCode.ListedDescriptionExamples | src/FastEInvoice/Models/Common/ErrorCode.cs:11-47 | Codes 101 and 7802 read as the invalid-user and invalid-checksum texts |
| ErrorCode.UnlistedDescriptionExample | src/FastEInvoice/Models/Common/ErrorCode.cs:54-59 | Code 99999 reads "Unknown error code: 99999" |
| ErrorCode.UnknownCodeRoundTrip | src/FastEInvoice/Models/Common/ErrorCode.cs:58 | The unlisted-code text carries the code: parsing the part after the prefix gives the code back |
| ErrorCode.UnknownCodesDistinguished | src/FastEInvoice/Models/Common/ErrorCode.cs:58 | Two unlisted codes with the same description are the same code |
| ApiResponse.ApiResponse.ErrorDescription | src/FastEInvoice/Models/Common/ApiResponse.cs:45-47 | It is empty exactly on success; otherwise it is the code's table description |
| ApiResponse.ApiResponse.IsSuccess | src/FastEInvoice/Models/Common/ApiResponse.cs:39 | Success flag 1 and code 0; its meaning is stated by SuccessNeedsBoth and ErrorDescription |
| ApiResponse.New | src/FastEInvoice/Models/Common/ApiResponse.cs:14-33 | A fresh envelope has message "" and no data, and it is not a success |
| ApiResponse.SuccessNeedsBoth | src/FastEInvoice/Models/Common/ApiResponse.cs:39 | success == 1 alone, or code == 0 alone, is not a success; a success has the success error code |
| ApiResponse.NewDescription | src/FastEInvoice/Models/Common/ApiResponse.cs:14-47 | A fresh envelope describes itself as "Unknown error code: 0" |
| FastEInvoiceException.WithMessage | src/FastEInvoice/Exceptions/FastEInvoiceException.cs:24-26 | The message is kept; there is no inner exception, the code is 0 and there is no raw message |
| FastEInvoiceException.WithInner | src/FastEInvoice/Exceptions/FastEInvoiceException.cs:33-36 | The message and the inner exception are kept; the code is 0 and there is no raw message |
| FastEInvoiceException.WithCode | src/FastEInvoice/Exceptions/FastEInvoiceException.cs:44-49 | The code, message and raw message are kept, with no inner exception |
| FastEInvoiceException.FromApiResponse | src/FastEInvoice/Exceptions/FastEInvoiceException.cs:56-80 | Carries the envelope's code and raw message; the message is the description alone when the API message is blank, else "description - message" |
| FastEInvoiceException.FromApiResponseMessage | src/FastEInvoice/Exceptions/FastEInvoiceException.cs:58-61 | The exception message is the code's description alone exactly when the API message is blank; otherwise it is the description, " - ", then the API message |
| FastEInvoiceException.FromApiResponseIgnoresPayload | src/FastEInvoice/Exceptions/FastEInvoiceException.cs:56-80 | Two envelopes with the same code and message give the same exception, whatever their data; the generic and non-generic overloads agree |
| InvoiceStatus.GetDescription | src/FastEInvoice/Models/Common/InvoiceStatus.cs:35-44 | "Unknown status" exactly for values outside the three named ones |
| InvoiceStatus.IsEditable | src/FastEInvoice/Models/Common/InvoiceStatus.cs:49-52 | Waiting for authentication only; EditableOrFinalized relates it to IsFinalized |
| InvoiceStatus.IsFinalized | src/FastEInvoice/Models/Common/InvoiceStatus.cs:57-60 | Authenticated or cancelled; EditableOrFinalized relates it to IsEditable |
| InvoiceStatus.EditableOrFinalized | src/FastEInvoice/Models/Common/InvoiceStatus.cs:49-60 | A named status is editable exactly when it is not finalized; an unnamed value is neither |
| InvoiceStatus.DescriptionsDistinguish | src/FastEInvoice/Models/Common/InvoiceStatus.cs:35-44 | Named statuses have pairwise different descriptions |
| Wire.OfText | src/FastEInvoice/Utils/JsonHelper.cs:177-183 | A string property boxes to a string entry that reads back as the same string |
| Wire.OfOptText | src/FastEInvoice/Utils/JsonHelper.cs:177-183 | A string? property boxes to null exactly when it is null, and reads back unchanged |
| Wire.OfInteger | src/FastEInvoice/Utils/JsonHelper.cs:177-183 | An int property boxes to an integer entry that reads back unchanged |
| Wire.OfOptInteger | src/FastEInvoice/Utils/JsonHelper.cs:177-183 | An int? property boxes to null exactly when it is null, and reads back unchanged |
| Wire.OfNumber | src/FastEInvoice/Utils/JsonHelper.cs:177-183 | A decimal property boxes to a number entry that reads back unchanged |
| Wire.OfOptNumber | src/FastEInvoice/Utils/JsonHelper.cs:177-183 | A decimal? property boxes to null exactly when it is null, and reads back unchanged |
| Wire.PropertyNames | src/FastEInvoice/Utils/JsonHelper.cs:168-175 | One name per property, in declaration order |
| Wire.PropertyValues | src/FastEInvoice/Utils/JsonHelper.cs:177-183 | One entry per property name, each the property's boxed value, in the same order as the names |
| Wire.PropertyValuesFit | src/FastEInvoice/Utils/JsonHelper.cs:168-183 | Every row matches the names one to one, and every entry has its property's type or is null only where the property is nullable |
| InvoiceMaster.Fields | src/FastEInvoice/Models/Invoice/InvoiceMaster.cs:16-267 | The 44 properties of InvoiceMaster, in declaration order |
| InvoiceMaster.Get | src/FastEInvoice/Models/Invoice/InvoiceMaster.cs:16-267 | Each property's boxed value has that property's declared type |
| InvoiceMaster.SchemaSound | src/FastEInvoice/Models/Invoice/InvoiceMaster.cs:16-267 | Every getter returns a value of its property's declared type, and no two positions of the manifest carry the same name |
| InvoiceMaster.ManifestOrder | src/FastEInvoice/Models/Invoice/InvoiceMaster.cs:16-267 | The 44 names that `structure.master` lists, in order, from "Key" to "NumberOfMinute" |
| InvoiceMaster.DecodeRoundTrip | src/FastEInvoice/Models/Invoice/InvoiceMaster.cs:16-267 | Reading a master row back position by position gives the same record: the row loses nothing |
| InvoiceMaster.NewEncoding | src/FastEInvoice/Models/Invoice/InvoiceMaster.cs:16-267 | In a new record's row, exactly the nullable properties are null, and the other defaults are as initialised |
| InvoiceDetail.Fields | src/FastEInvoice/Models/Invoice/InvoiceDetail.cs:15-154 | The 25 properties of InvoiceDetail, in declaration order |
| InvoiceDetail.Get | src/FastEInvoice/Models/Invoice/InvoiceDetail.cs:15-154 | Each property's boxed value has that property's declared type |
| InvoiceDetail.SchemaSound | src/FastEInvoice/Models/Invoice/InvoiceDetail.cs:15-154 | Every getter returns a value of its property's declared type, and no two positions of the manifest carry the same name |
| InvoiceDetail.ManifestOrder | src/FastEInvoice/Models/Invoice/InvoiceDetail.cs:15-154 | The 25 names that `structure.detail` lists for invoices, in order |
| InvoiceDetail.DecodeRoundTrip | src/FastEInvoice/Models/Invoice/InvoiceDetail.cs:15-154 | A detail row reads back as the same record |
| InvoiceDetail.NewEncoding | src/FastEInvoice/Models/Invoice/InvoiceDetail.cs:15-154 | In a new detail's row, exactly the nullable properties are null; ItemType is "01" and the amounts are 0 |
| DeliveryNoteMaster.Fields | src/FastEInvoice/Models/DeliveryNote/DeliveryNoteMaster.cs:15-162 | The 26 properties of DeliveryNoteMaster, in declaration order |
| DeliveryNoteMaster.Get | src/FastEInvoice/Models/DeliveryNote/DeliveryNoteMaster.cs:15-162 | Each property's boxed value has that property's declared type |
| DeliveryNoteMaster.SchemaSound | src/FastEInvoice/Models/DeliveryNote/DeliveryNoteMaster.cs:15-162 | Every getter returns a value of its property's declared type, and no two positions of the manifest carry the same name |
| DeliveryNoteMaster.ManifestOrder | src/FastEInvoice/Models/DeliveryNote/DeliveryNoteMaster.cs:15-162 | The 26 names that `structure.master` lists for delivery notes, in order |
| DeliveryNoteMaster.DecodeRoundTrip | src/FastEInvoice/Models/DeliveryNote/DeliveryNoteMaster.cs:15-162 | A delivery-note master row reads back as the same record |
| DeliveryNoteMaster.NewEncoding | src/FastEInvoice/Models/DeliveryNote/DeliveryNoteMaster.cs:15-162 | In a new record's row, exactly the nullable properties are null, and the other defaults are as initialised |
| DeliveryNoteDetail.Fields | src/FastEInvoice/Models/DeliveryNote/DeliveryNoteDetail.cs:15-89 | The 14 properties of DeliveryNoteDetail, in declaration order |
| DeliveryNoteDetail.Get | src/FastEInvoice/Models/DeliveryNote/DeliveryNoteDetail.cs:15-89 | Each property's boxed value has that property's declared type |
| DeliveryNoteDetail.SchemaSound | src/FastEInvoice/Models/DeliveryNote/DeliveryNoteDetail.cs:15-89 | Every getter returns a value of its property's declared type, and no two positions of the manifest carry the same name |
| DeliveryNoteDetail.ManifestOrder | src/FastEInvoice/Models/DeliveryNote/DeliveryNoteDetail.cs:15-89 | The 14 names that `structure.detail` lists for delivery notes, in order |
| DeliveryNoteDetail.DecodeRoundTrip | src/FastEInvoice/Models/DeliveryNote/DeliveryNoteDetail.cs:15-89 | A delivery-note detail row reads back as the same record |
| DeliveryNoteDetail.NewEncoding | src/FastEInvoice/Models/DeliveryNote/DeliveryNoteDetail.cs:15-89 | In a new detail's row, exactly the nullable properties are null, and the other defaults are as initialised |
| CommandRequest.New | src/FastEInvoice/Models/Invoice/InvoiceRequest.cs:13-69 | A fresh request has empty name lists and no documents |
| CommandRequest.NewAligned | src/FastEInvoice/Models/Invoice/InvoiceRequest.cs:38-69 | A fresh request is aligned: every row is as long as its name list (vacuously) |
| QueryRequest.NewItem | src/FastEInvoice/Models/Query/QueryRequest.cs:26-35 | A fresh query item has an empty key and an empty date |
| QueryRequest.New | src/FastEInvoice/Models/Query/QueryRequest.cs:14-15 | A fresh query request holds no items |
| JsonHelper.DetailRows | src/FastEInvoice/Utils/JsonHelper.cs:47 | One row per detail, in order, each that detail's property values |
| JsonHelper.EncodeItem | src/FastEInvoice/Utils/JsonHelper.cs:46-64 | A document item is the master's row and the details' rows |
| JsonHelper.StructureOf | src/FastEInvoice/Utils/JsonHelper.cs:43-57 | The structure section is the master's and the detail's property names |
| JsonHelper.ConvertOne | src/FastEInvoice/Utils/JsonHelper.cs:39-68 | A single-document request has that structure, exactly one item encoding the document, and is aligned |
| JsonHelper.ConvertMany | src/FastEInvoice/Utils/JsonHelper.cs:73-100 | Fails exactly on an empty list, with the given parameter name and message; otherwise it has one item per document, in order, and is aligned |
| JsonHelper.DecodeRowsRoundTrip | src/FastEInvoice/Utils/JsonHelper.cs:47 | The detail rows read back as the same details, in order |
| JsonHelper.DecodeItemRoundTrip | src/FastEInvoice/Utils/JsonHelper.cs:46-64 | A document item reads back as the same master and details |
| JsonHelper.ConvertOneIsManyOfOne | src/FastEInvoice/Utils/JsonHelper.cs:39-100 | The single conversion equals the batch conversion of a one-element list |
| JsonHelper.ConvertToInvoiceRequest | src/FastEInvoice/Utils/JsonHelper.cs:39-68 | The structure names the InvoiceMaster and InvoiceDetail properties, and the one item is the invoice's encoding |
| JsonHelper.ConvertToInvoiceRequests | src/FastEInvoice/Utils/JsonHelper.cs:73-100 | Fails exactly on an empty list, with ("invoices", "Invoices list cannot be null or empty"); otherwise the i-th item is the i-th invoice's encoding, under the invoice structure |
| JsonHelper.ConvertToDeliveryNoteRequest | src/FastEInvoice/Utils/JsonHelper.cs:105-134 | The structure names the delivery-note properties, and the one item is the delivery note's encoding |
| JsonHelper.ConvertToDeliveryNoteRequests | src/FastEInvoice/Utils/JsonHelper.cs:139-166 | Fails exactly on an empty list, with ("deliveryNotes", "Delivery notes list cannot be null or empty"); otherwise the i-th item is the i-th delivery note's encoding |
| JsonHelper.InvoiceSingleIsBatchOfOne | src/FastEInvoice/Utils/JsonHelper.cs:39-100 | Converting one invoice equals converting a list of that one invoice |
| JsonHelper.DeliveryNoteSingleIsBatchOfOne | src/FastEInvoice/Utils/JsonHelper.cs:105-166 | Converting one delivery note equals converting a list of that one delivery note |
| JsonHelper.InvoiceBatchRoundTrip | src/FastEInvoice/Utils/JsonHelper.cs:73-100 | The i-th item of a batch request reads back as the i-th invoice, master and details |
| JsonHelper.DeliveryNoteBatchRoundTrip | src/FastEInvoice/Utils/JsonHelper.cs:139-166 | The i-th item of a batch request reads back as the i-th delivery note |
| JsonHelper.DeliveryNoteDetailIsSubsequence | src/FastEInvoice/Models/DeliveryNote/DeliveryNoteDetail.cs:15-89 | Each delivery-note detail name is the invoice detail name at the matching one of positions 0-6 and 11-17, so the delivery-note detail columns are an ordered subsequence of the invoice detail columns |
| Text.IsBlank | src/FastEInvoice/Client/FastEInvoiceClient.cs:94-95 | The null-or-white-space test of ThrowIfNullOrWhiteSpace, for a string that is present: empty, or char.IsWhiteSpace throughout; the client's blank-argument contracts are stated with it |
| Text.IsNullOrWhiteSpace | src/FastEInvoice/Configuration/FastEInvoiceOptions.cs:72-89 | string.IsNullOrWhiteSpace of a string that may be null: null, or blank; ValidateSucceedsIffAllHold and FromApiResponseMessage are stated with it |
| Text.IntToDecimal | src/FastEInvoice/Models/Common/ErrorCode.cs:58 | Int32.ToString in the invariant culture: a minus sign for a negative number, then the digits; DecimalRoundTrip proves that it reads back |
| Text.DigitChar | src/FastEInvoice/Models/Common/ErrorCode.cs:58 | A digit's character is a decimal digit of that value |
| Text.NatToDecimal | src/FastEInvoice/Models/Common/ErrorCode.cs:58 | The decimal text is non-empty, all digits, and has no leading zero |
| Text.NatToDecimalValue | src/FastEInvoice/Models/Common/ErrorCode.cs:58 | The decimal text's value is the number |
| Text.DecimalRoundTrip | src/FastEInvoice/Models/Common/ErrorCode.cs:58 | An integer's text, signed or not, parses back to the integer |
| Text.DecimalInjective | src/FastEInvoice/Models/Common/ErrorCode.cs:58 | Different integers have different texts |
| Utf8.EncodeChar | src/FastEInvoice/Utils/MD5Helper.cs:22 | A character encodes to one to four bytes |
| Utf8.TwoByteSequence | src/FastEInvoice/Utils/MD5Helper.cs:22 | A code point from U+0080 to U+07FF takes the two-byte form |
| Utf8.ThreeByteSequence | src/FastEInvoice/Utils/MD5Helper.cs:22 | A code point from U+0800 to U+FFFF takes the three-byte form |
| Utf8.FourByteSequence | src/FastEInvoice/Utils/MD5Helper.cs:22 | A code point from U+10000 up takes the four-byte form |
| Utf8.CharRoundTrip | src/FastEInvoice/Utils/MD5Helper.cs:22 | A character's bytes announce their own length and decode back to the character |
| Utf8.Encode | src/FastEInvoice/Client/FastEInvoiceClient.cs:429-432 | A text encodes to at least as many bytes as it has characters |
| MD5Helper.ByteHex | src/FastEInvoice/Utils/MD5Helper.cs:28 | A byte renders as two lower-case hex digits ("x2") |
| MD5Helper.Hex | src/FastEInvoice/Utils/MD5Helper.cs:25-29 | The hex text has two characters per byte |
| MD5Helper.HexAlphabet | src/FastEInvoice/Utils/MD5Helper.cs:25-29 | The hex text uses only 0-9 and a-f |
| MD5Helper.NibbleOf | src/FastEInvoice/Utils/MD5Helper.cs:28 | A hex digit reads as a value below 16 |
| MD5Helper.ByteHexValue | src/FastEInvoice/Utils/MD5Helper.cs:28 | A byte's two digits read back as the byte |
| MD5Helper.UnhexSnoc | src/FastEInvoice/Utils/MD5Helper.cs:25-29 | Appending a byte's two digits appends that byte to what the text reads as |
| MD5Helper.HexRoundTrip | src/FastEInvoice/Utils/MD5Helper.cs:25-29 | The hex text reads back as the digest bytes, so the rendering loses nothing |
| MD5Helper.HashOf | src/FastEInvoice/Utils/MD5Helper.cs:21-31 | The hash is the lower-case hex of the digest of the UTF-8 bytes |
| MD5Helper.ComputeHash | src/FastEInvoice/Utils/MD5Helper.cs:16-32 | Fails exactly on empty input, with ("input", "Input cannot be null or empty"); otherwise its loop builds HashOf(input) |
| MD5Helper.HashShape | src/FastEInvoice/Utils/MD5Helper.cs:16-32 | Under a 16-byte digest, a hash is 32 lower-case hex digits |
| MD5Helper.CheckSum | src/FastEInvoice/Utils/MD5Helper.cs:41-57 | What GenerateCheckSum returns; the GenerateCheckSum method is proved equal to it, and CheckSumShape states its form |
| MD5Helper.GenerateCheckSum | src/FastEInvoice/Utils/MD5Helper.cs:41-57 | Fails exactly when the password or the client code is empty, password first; otherwise it is hash(hash(password) + clientCode) |
| MD5Helper.CheckSumShape | src/FastEInvoice/Utils/MD5Helper.cs:41-57 | Under a 16-byte digest, a checksum is 32 lower-case hex digits |
| UriEscape.HexDigit | src/FastEInvoice/Client/FastEInvoiceClient.cs:414 | A percent-escape digit is an unreserved character |
| UriEscape.HexValue | src/FastEInvoice/Client/FastEInvoiceClient.cs:414 | A hex digit reads as a value below 16 |
| UriEscape.HexValueOfDigit | src/FastEInvoice/Client/FastEInvoiceClient.cs:414 | An upper-case hex digit reads back as its value |
| UriEscape.PercentEncode | src/FastEInvoice/Client/FastEInvoiceClient.cs:414 | A byte escapes to '%' and two hex digits |
| UriEscape.PercentEncodeAll | src/FastEInvoice/Client/FastEInvoiceClient.cs:414 | Bytes escape to three characters each |
| UriEscape.ReadFirstByte | src/FastEInvoice/Client/FastEInvoiceClient.cs:414 | A byte's escape reads back as the byte |
| UriEscape.ReadEncodedByte | src/FastEInvoice/Client/FastEInvoiceClient.cs:414 | The i-th escape of a byte run reads back as the i-th byte |
| UriEscape.EscapeChar | src/FastEInvoice/Client/FastEInvoiceClient.cs:414 | A character escapes to at least one character |
| UriEscape.EscapeDataString | src/FastEInvoice/Client/FastEInvoiceClient.cs:414 | The escaped text holds only unreserved characters and '%', and is no shorter than its input |
| UriEscape.PercentAlphabet | src/FastEInvoice/Client/FastEInvoiceClient.cs:414 | Escaped bytes hold only '%' and unreserved characters |
| UriEscape.EscapeUnreserved | src/FastEInvoice/Client/FastEInvoiceClient.cs:414 | A text of unreserved characters is left unchanged |
| UriEscape.UnescapeEscapedChar | src/FastEInvoice/Client/FastEInvoiceClient.cs:414 | An escaped character reads back as the character, consuming exactly its escape |
| UriEscape.EscapeRoundTrip | src/FastEInvoice/Client/FastEInvoiceClient.cs:414 | Unescaping the escaped text gives the text back |
| UriEscape.EscapeInjective | src/FastEInvoice/Client/FastEInvoiceClient.cs:414 | Different texts escape differently |
| ApiUrl.QueryParams | src/FastEInvoice/Client/FastEInvoiceClient.cs:405-411 | The four parameters action=0, method, clientCode and proxyCode, in that order, with the given values |
| ApiUrl.PairTexts | src/FastEInvoice/Client/FastEInvoiceClient.cs:413-414 | One "name=value" text per parameter |
| ApiUrl.BuildApiUrl | src/FastEInvoice/Client/FastEInvoiceClient.cs:403-417 | The URL starts with the API path and '?' |
| ApiUrl.BuildApiUrlShape | src/FastEInvoice/Client/FastEInvoiceClient.cs:403-417 | For a method code of digits, the URL is the path, then "?action=0&method=…&clientCode=…&proxyCode=…" with the two codes escaped |
| ApiUrl.SplitOn | src/FastEInvoice/Client/FastEInvoiceClient.cs:413-416 | Splitting gives at least one piece |
| ApiUrl.SplitJoin | src/FastEInvoice/Client/FastEInvoiceClient.cs:413-416 | Splitting a join of separator-free pieces gives the pieces back |
| ApiUrl.ParsePairRoundTrip | src/FastEInvoice/Client/FastEInvoiceClient.cs:414 | A "name=escaped value" pair reads back as the name and the original value |
| ApiUrl.ParsePairsRoundTrip | src/FastEInvoice/Client/FastEInvoiceClient.cs:413-414 | All rendered pairs read back as the parameters, in order |
| ApiUrl.UrlRoundTrip | src/FastEInvoice/Client/FastEInvoiceClient.cs:403-417 | The URL reads back as the API path and exactly the four parameters with their values, in order |
| ApiUrl.BuildApiUrlInjective | src/FastEInvoice/Client/FastEInvoiceClient.cs:403-417 | Different method, client or proxy codes give different URLs |
| FastEInvoiceClient.Interpret | src/FastEInvoice/Client/FastEInvoiceClient.cs:362-400 | Ok exactly for a 2xx reply whose envelope parses and is a success, returned unchanged; a JsonException exactly for a 2xx reply with a malformed body; otherwise each failure's FastEInvoiceException |
| FastEInvoiceClient.IsSuccessStatusCode | src/FastEInvoice/Client/FastEInvoiceClient.cs:373 | The 2xx codes EnsureSuccessStatusCode accepts; Interpret's contract states what follows from each side |
| FastEInvoiceClient.BlankArgument | src/FastEInvoice/Client/FastEInvoiceClient.cs:94-95 | ThrowIfNullOrWhiteSpace's exception for a blank string; the QueryInvoice, DeleteInvoice, QueryDeliveryNote and DeleteDeliveryNote contracts state when each parameter gets it |
| FastEInvoiceClient.ApiDetailsComeFromEnvelope | src/FastEInvoice/Client/FastEInvoiceClient.cs:382-387 | An exception with an API code or raw message comes from a parsed, failed envelope, and carries that envelope's code and message |
| FastEInvoiceClient.ReadInfos | src/FastEInvoice/Client/FastEInvoiceClient.cs:131-149 | A blank message gives an empty list; a non-empty answer is the parsed list; it fails exactly on a malformed message, with "Failed to parse query response" wrapping the cause |
| FastEInvoiceClient.Completed | src/FastEInvoice/Client/FastEInvoiceClient.cs:65 | An operation without a result succeeds exactly when the exchange does, and passes its failure on |
| FastEInvoiceClient.FirstOrDefault | src/FastEInvoice/Client/FastEInvoiceClient.cs:103 | No item exactly for an empty list, else the first item; failures pass through |
| FastEInvoiceClient.ItemsOf | src/FastEInvoice/Client/FastEInvoiceClient.cs:118-125 | One query item per (key, date) pair, in order, with the key and date copied |
| FastEInvoiceClient.FastEInvoiceClient.constructor | src/FastEInvoice/Client/FastEInvoiceClient.cs:29-49 | Given options that pass Validate and a timeout the HttpClient accepts, the client keeps the options, takes base address and timeout from them, and holds the checksum of password and client code |
| FastEInvoiceClient.FastEInvoiceClient.Create | src/FastEInvoice/Client/FastEInvoiceClient.cs:29-49 | Fails exactly when Validate fails (with Validate's ArgumentException) or, after it, when the timeout is over Int32.MaxValue milliseconds (with the Timeout setter's ArgumentOutOfRangeException); otherwise a fresh valid client. The HttpClient setters' other failures are listed under Left out |
| FastEInvoiceClient.TimeoutBound | src/FastEInvoice/Client/FastEInvoiceClient.cs:43 | The HttpClient takes a timeout of at most 2147483 seconds |
| FastEInvoiceClient.FastEInvoiceClient.ApiUrlFor | src/FastEInvoice/Client/FastEInvoiceClient.cs:351 | An operation's URL reads back as the API path and its method code with the configured client and proxy codes |
| FastEInvoiceClient.FastEInvoiceClient.CreateHttpRequest | src/FastEInvoice/Client/FastEInvoiceClient.cs:419-435 | Fails exactly when the user or unit code holds a line break, naming the user header first, then the unit-code header; otherwise a POST to the URL whose content is the body's UTF-8 bytes as text/plain, carrying the user, unit-code and checksum headers |
| FastEInvoiceClient.FastEInvoiceClient.Serialize | src/FastEInvoice/Client/FastEInvoiceClient.cs:352 | JsonHelper.Serialize of the request body, through the Codec; RequestCarriesCommand states that its UTF-8 bytes are the request content |
| FastEInvoiceClient.FastEInvoiceClient.RequestCarriesCommand | src/FastEInvoice/Client/FastEInvoiceClient.cs:346-360 | A request is built exactly when neither header value holds a line break; then it names its operation and the configured codes, and carries the construction-time checksum and the serialized body |
| FastEInvoiceClient.FastEInvoiceClient.LineBreakSendsNothing | src/FastEInvoice/Client/FastEInvoiceClient.cs:360-364 | With a line break in the user or unit code, every operation ends in the header's FormatException whatever the transport would answer: the exception comes before the send |
| FastEInvoiceClient.FastEInvoiceClient.CheckSumShape | src/FastEInvoice/Client/FastEInvoiceClient.cs:46 | The checksum header is 32 characters under a 16-byte digest |
| FastEInvoiceClient.FastEInvoiceClient.Exchange | src/FastEInvoice/Client/FastEInvoiceClient.cs:346-401 | What ExecuteCommandAsync returns: CreateHttpRequest's FormatException, otherwise Interpret of the transport's outcome; ExecuteCommand is proved equal to it, and Interpret and LineBreakSendsNothing state its cases |
| FastEInvoiceClient.FastEInvoiceClient.ExecuteCommand | src/FastEInvoice/Client/FastEInvoiceClient.cs:346-401 | Returns CreateHttpRequest's FormatException unwrapped without sending; otherwise sends the operation's request and returns what Interpret makes of the outcome |
| FastEInvoiceClient.FastEInvoiceClient.ReadReply | src/FastEInvoice/Client/FastEInvoiceClient.cs:362-400 | The try and catch ladder computes exactly Interpret of the outcome |
| FastEInvoiceClient.FastEInvoiceClient.PushInvoice | src/FastEInvoice/Client/FastEInvoiceClient.cs:54-68 | Sends the one-invoice request with the push-invoice code and reports the exchange's outcome |
| FastEInvoiceClient.FastEInvoiceClient.PushInvoices | src/FastEInvoice/Client/FastEInvoiceClient.cs:71-86 | An empty list fails with ("invoices", "Invoices list cannot be empty") before any request; otherwise sends the batch request |
| FastEInvoiceClient.FastEInvoiceClient.QueryInvoices | src/FastEInvoice/Client/FastEInvoiceClient.cs:107-150 | An empty list fails before any request; otherwise the answer read from the query-invoice exchange's message |
| FastEInvoiceClient.FastEInvoiceClient.QueryInvoice | src/FastEInvoice/Client/FastEInvoiceClient.cs:89-104 | A blank key, then a blank date, fails with that parameter; otherwise the first invoice of the one-pair query, or none |
| FastEInvoiceClient.FastEInvoiceClient.DeleteInvoices | src/FastEInvoice/Client/FastEInvoiceClient.cs:171-194 | An empty list fails before any request; otherwise sends the keys with the delete-invoice code |
| FastEInvoiceClient.FastEInvoiceClient.DeleteInvoice | src/FastEInvoice/Client/FastEInvoiceClient.cs:153-168 | A blank key, then a blank date, fails with that parameter; otherwise deletes the one pair |
| FastEInvoiceClient.FastEInvoiceClient.PushDeliveryNote | src/FastEInvoice/Client/FastEInvoiceClient.cs:201-215 | Sends the one-note request with the push-delivery-note code and reports the exchange's outcome |
| FastEInvoiceClient.FastEInvoiceClient.PushDeliveryNotes | src/FastEInvoice/Client/FastEInvoiceClient.cs:218-233 | An empty list fails with ("deliveryNotes", "Delivery notes list cannot be empty"); otherwise sends the batch request |
| FastEInvoiceClient.FastEInvoiceClient.QueryDeliveryNotes | src/FastEInvoice/Client/FastEInvoiceClient.cs:254-296 | An empty list fails before any request; otherwise the answer read from the query-delivery-note exchange's message |
| FastEInvoiceClient.FastEInvoiceClient.QueryDeliveryNote | src/FastEInvoice/Client/FastEInvoiceClient.cs:236-251 | A blank key, then a blank date, fails with that parameter; otherwise the first result of the one-pair query, or none |
| FastEInvoiceClient.FastEInvoiceClient.DeleteDeliveryNotes | src/FastEInvoice/Client/FastEInvoiceClient.cs:317-340 | An empty list fails before any request; otherwise sends the keys with the delete-delivery-note code |
| FastEInvoiceClient.FastEInvoiceClient.DeleteDeliveryNote | src/FastEInvoice/Client/FastEInvoiceClient.cs:299-314 | A blank key, then a blank date, fails with that parameter; otherwise deletes the one pair |

## Left out

- Create: the options are captured by value when the client is built. The source keeps a reference to the options object, whose properties have public setters, and BuildApiUrl and CreateHttpRequest read it again on every call, while Validate and the checksum run once. A change to the options after construction (a new ClientCode sent with the checksum of the old one) is not modelled.
- Create: setting BaseAddress and Timeout on an injected HttpClient that has already sent a request throws InvalidOperationException. The model's client holds no HttpClient state, so that failure is not among Create's errors.
- Create: the BaseAddress setter also refuses an absolute URI whose scheme is not http or https, with ArgumentException. The model takes every URL that `isAbsoluteUrl` accepts as a base address the HttpClient accepts.
- constructor: the same gaps as Create. The options are a value fixed at construction, and the HttpClient setters' InvalidOperationException is not modelled.
- HTTP transport, async/await, cancellation tokens and HttpClient connection handling: these are I/O. The exchange is the `send` parameter, and its three outcomes are the `Transport` datatype.
- Logging (ILogger calls and EnableDetailedLogging's effect): these are side effects with no influence on results.
- System.Text.Json: this is an external library. Serialization and parsing are `Codec` function parameters. The model keeps every branch the client takes on their outcomes.
- The MD5 digest algorithm: this is an external library. It is a function parameter, and `IsDigest` states its 16-byte length.
- Uri.TryCreate: this is an external library. It is the `isAbsoluteUrl` parameter of Validate.
- InvoiceInfo and QueryResponse: they are only ever deserialized. InvoiceInfo is the type parameter `Info`, and QueryResponse is not used by the client's code paths.
- IFastEInvoiceClient and the dependency-injection registration: the interface only restates the class's signatures, and the registration is host wiring.
- Null arguments and ArgumentNullException: Dafny values cannot be null. Strings and lists are always present, and nullable properties and options are `Option`.
- Data-annotation attributes ([Required], [StringLength] and similar): .NET does not enforce them on these paths, and neither does the model.
- decimal is modelled as real: its 28-digit precision and rounding are not modelled.
- int-to-text culture formatting: integers are written in invariant decimal form.
- StatusFailureDetail: the detail text of a non-2xx reply's HttpRequestException is its status code only. The reason phrase and the framework's wording are not modelled.
- Utf8.Encode: a .NET string can hold a lone UTF-16 surrogate, which Encoding.UTF8 and Uri.EscapeDataString replace by U+FFFD. A Dafny string holds Unicode scalar values only, so the model cannot represent such strings.
- CreateHttpRequest: the model refuses header values with a carriage return or line feed. A runtime whose Headers.Add refuses further characters is not modelled.
- Reflection: GetProperties is replaced by a descriptor per record. The model takes declaration order as the order GetProperties returns.
- The query-parameter order is the Dictionary's insertion order, which the model takes as given.
- ErrorCode's table: it is a map, so it cannot hold a duplicate key. A duplicate key in the C# dictionary initialiser would throw at type initialisation; the model does not model that throw.
- FastEInvoiceOptions.SectionName and the delivery-note type table are constants only. They are declared but no property is stated about them beyond distinctness.
- HttpClient mutation: the constructor sets the base address and timeout, which the model keeps as the client's `baseAddress` and `timeoutSeconds` fields. Their use by the transport is not modelled.
