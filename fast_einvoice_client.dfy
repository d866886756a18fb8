/**
 * The FAST e-invoice client (FastEInvoiceClient.cs): built from validated options, it
 * computes the request checksum once, and each of its twelve operations guards its
 * arguments, builds a command or query body, posts it to the command URL with the user,
 * unit-code and checksum headers, and reads the reply through one decision ladder.
 *
 * The HTTP exchange is a parameter `send` from the request to what came back; the JSON
 * library is a Codec of serialising and parsing functions fixed for the client's life.
 */
module FastEInvoiceClient {
  import opened Wrappers
  import opened Errors
  import opened Text
  import opened Utf8
  import opened ApiUrl
  import ApiConstants
  import AR = ApiResponse
  import FE = FastEInvoiceException
  import FO = FastEInvoiceOptions
  import MD5 = MD5Helper
  import QR = QueryRequest
  import CR = CommandRequest
  import JsonHelper
  import IM = InvoiceMaster
  import ID = InvoiceDetail
  import DM = DeliveryNoteMaster
  import DD = DeliveryNoteDetail

  /**
   * What the HTTP exchange gave: a status code and the body text, or the exception
   * SendAsync threw (HttpRequestException, or TaskCanceledException when the timeout
   * elapsed or the call was cancelled).
   */
  datatype Transport =
    | Received(statusCode: int, body: string)
    | HttpFailure(detail: string)
    | Canceled(detail: string)

  /** What a JSON deserialisation gave: a value, the JSON literal null, or a JsonException. */
  datatype Parse<T> = Parsed(value: T) | ParsedNull | Malformed(detail: string)

  /**
   * The exceptions an operation, or building the client, can end with. Two come from
   * HttpClient itself: the Timeout setter's ArgumentOutOfRangeException (its parameter is
   * named "value"), and the FormatException HttpHeaders.Add throws for a header value that
   * holds a line break, here carrying the name of the header refused.
   */
  datatype Failure =
    | ArgumentException(argument: ArgumentError)
    | ArgumentOutOfRangeException(paramName: string)
    | HeaderFormatException(header: string)
    | ClientException(exception: FE.FastEInvoiceException)
    | JsonException(detail: string)

  /** The request objects ExecuteCommandAsync is given. */
  datatype Body = CommandBody(command: CR.Request) | QueryBody(query: QR.QueryRequest)

  /**
   * The JSON library as the client uses it: serialising the two kinds of request body,
   * parsing the response envelope (its Data kept as JSON text, which the client never
   * reads) and parsing the list of InvoiceInfo a query's message holds. InvoiceInfo is
   * not part of this model: it is the type parameter Info.
   */
  datatype Codec<Info> = Codec(
    serializeCommand: CR.Request -> string,
    serializeQuery: QR.QueryRequest -> string,
    parseResponse: string -> Parse<AR.ApiResponse<string>>,
    parseInfos: string -> Parse<seq<Info>>)

  /** The HttpRequestMessage the client sends: POST, the URL, three headers, UTF-8 text. */
  datatype HttpRequest = HttpRequest(
    httpMethod: string,
    url: string,
    headers: seq<(string, string)>,
    content: seq<byte>,
    mediaType: string)

  /** The first value of a header, or None when the request does not carry it. */
  function Header(req: HttpRequest, name: string): Option<string> {
    HeaderIn(req.headers, name)
  }

  function HeaderIn(headers: seq<(string, string)>, name: string): Option<string> {
    if headers == [] then None
    else if headers[0].0 == name then Some(headers[0].1)
    else HeaderIn(headers[1..], name)
  }

  /** HttpClient.Timeout accepts at most Int32.MaxValue milliseconds. */
  const MaxTimeoutMilliseconds: int := 0x7FFF_FFFF

  /** Whether `TimeSpan.FromSeconds(seconds)` is a timeout the HttpClient accepts, for positive seconds. */
  predicate TimeoutAccepted(seconds: int) {
    seconds * 1000 <= MaxTimeoutMilliseconds
  }

  /** The largest accepted timeout is 2147483 seconds: one more is over Int32.MaxValue milliseconds. */
  lemma TimeoutBound(seconds: int)
    ensures TimeoutAccepted(seconds) <==> seconds <= 2147483
  {
  }

  /** A header value HttpHeaders.Add refuses: one holding a carriage return or a line feed. */
  predicate HasLineBreak(value: string) {
    '\r' in value || '\n' in value
  }

  /** EnsureSuccessStatusCode accepts the 2xx codes. */
  predicate IsSuccessStatusCode(statusCode: int) {
    200 <= statusCode <= 299
  }

  /** The message of the HttpRequestException EnsureSuccessStatusCode throws (reason phrase left out). */
  function StatusFailureDetail(statusCode: int): string {
    "Response status code does not indicate success: " + IntToDecimal(statusCode) + "."
  }

  const HttpRequestFailed: string := "HTTP request failed"
  const RequestTimeout: string := "Request timeout"
  const DeserializeFailed: string := "Failed to deserialize API response"
  const QueryParseFailed: string := "Failed to parse query response"

  /**
   * The decision ladder of ExecuteCommandAsync, from what the exchange gave to what the
   * call returns. Only a successful envelope is returned, and it is returned as parsed;
   * a JsonException escapes unwrapped, and only from a malformed body of a 2xx reply,
   * since the catch clauses name HttpRequestException and TaskCanceledException only.
   */
  function Interpret<T>(outcome: Transport, parse: string -> Parse<AR.ApiResponse<T>>): (r: Result<AR.ApiResponse<T>, Failure>)
    ensures r.Ok? <==>
      outcome.Received? && IsSuccessStatusCode(outcome.statusCode)
      && parse(outcome.body).Parsed? && parse(outcome.body).value.IsSuccess()
    ensures r.Ok? ==> r.value == parse(outcome.body).value
    ensures (r.Err? && r.error.JsonException?) <==>
      outcome.Received? && IsSuccessStatusCode(outcome.statusCode) && parse(outcome.body).Malformed?
    ensures r.Err? && r.error.ArgumentException? ==> false
    ensures outcome.HttpFailure? ==>
      r == Err(ClientException(FE.WithInner(HttpRequestFailed, FE.HttpRequestFailure(outcome.detail))))
    ensures outcome.Canceled? ==>
      r == Err(ClientException(FE.WithInner(RequestTimeout, FE.TaskCanceled(outcome.detail))))
    ensures outcome.Received? && !IsSuccessStatusCode(outcome.statusCode) ==>
      r == Err(ClientException(FE.WithInner(HttpRequestFailed, FE.HttpRequestFailure(StatusFailureDetail(outcome.statusCode)))))
    ensures outcome.Received? && IsSuccessStatusCode(outcome.statusCode) && parse(outcome.body).ParsedNull? ==>
      r == Err(ClientException(FE.WithMessage(DeserializeFailed)))
    ensures (outcome.Received? && IsSuccessStatusCode(outcome.statusCode)
      && parse(outcome.body).Parsed? && !parse(outcome.body).value.IsSuccess()) ==>
      r == Err(ClientException(FE.FromApiResponse(parse(outcome.body).value)))
  {
    match outcome
    case HttpFailure(detail) => Err(ClientException(FE.WithInner(HttpRequestFailed, FE.HttpRequestFailure(detail))))
    case Canceled(detail) => Err(ClientException(FE.WithInner(RequestTimeout, FE.TaskCanceled(detail))))
    case Received(statusCode, body) =>
      if !IsSuccessStatusCode(statusCode) then
        Err(ClientException(FE.WithInner(HttpRequestFailed, FE.HttpRequestFailure(StatusFailureDetail(statusCode)))))
      else
        match parse(body)
        case Malformed(detail) => Err(JsonException(detail))
        case ParsedNull => Err(ClientException(FE.WithMessage(DeserializeFailed)))
        case Parsed(response) =>
          if !response.IsSuccess() then Err(ClientException(FE.FromApiResponse(response)))
          else Ok(response)
  }

  /**
   * An exception that carries an API error code other than 0, or a raw API message, was
   * built from a parsed envelope that was not a success, and carries that envelope's code
   * and message.
   */
  lemma ApiDetailsComeFromEnvelope<T>(outcome: Transport, parse: string -> Parse<AR.ApiResponse<T>>)
    ensures var r := Interpret(outcome, parse);
      r.Err? && r.error.ClientException? && (r.error.exception.errorCode != 0 || r.error.exception.rawMessage.Some?) ==>
        && outcome.Received? && parse(outcome.body).Parsed?
        && !parse(outcome.body).value.IsSuccess()
        && r.error.exception.errorCode == parse(outcome.body).value.code
        && r.error.exception.rawMessage == parse(outcome.body).value.message
  {
  }

  /**
   * The second layer of a query: a null or blank message is an empty list; otherwise the
   * message is parsed as a list of InvoiceInfo, a JSON null reads as an empty list, and a
   * JsonException is wrapped as "Failed to parse query response".
   */
  function ReadInfos<Info>(message: Option<string>, parseInfos: string -> Parse<seq<Info>>): (r: Result<seq<Info>, Failure>)
    ensures IsNullOrWhiteSpace(message) ==> r == Ok([])
    ensures r.Err? <==> !IsNullOrWhiteSpace(message) && parseInfos(message.value).Malformed?
    ensures r.Err? ==>
      r.error == ClientException(FE.WithInner(QueryParseFailed, FE.MalformedJson(parseInfos(message.value).detail)))
    ensures !IsNullOrWhiteSpace(message) && parseInfos(message.value).Parsed? ==> r == Ok(parseInfos(message.value).value)
    ensures r.Ok? && r.value != [] ==> !IsNullOrWhiteSpace(message) && parseInfos(message.value) == Parsed(r.value)
  {
    if IsNullOrWhiteSpace(message) then Ok([])
    else
      match parseInfos(message.value)
      case Parsed(infos) => Ok(infos)
      case ParsedNull => Ok([])
      case Malformed(detail) => Err(ClientException(FE.WithInner(QueryParseFailed, FE.MalformedJson(detail))))
  }

  /** The operations that return nothing: the envelope is dropped, a failure is passed on. */
  function Completed(r: Result<AR.ApiResponse<string>, Failure>): (c: Result<(), Failure>)
    ensures c.Ok? <==> r.Ok?
    ensures c.Err? ==> c.error == r.error
  {
    if r.Err? then Err(r.error) else Ok(())
  }

  /** `FirstOrDefault()` of a list, passing a failure on. */
  function FirstOrDefault<Info>(r: Result<seq<Info>, Failure>): (f: Result<Option<Info>, Failure>)
    ensures f.Err? <==> r.Err?
    ensures f.Err? ==> f.error == r.error
    ensures f.Ok? ==> (f.value == None <==> r.value == [])
    ensures f.Ok? && f.value.Some? ==> f.value.value == r.value[0]
  {
    if r.Err? then Err(r.error)
    else if |r.value| == 0 then Ok(None)
    else Ok(Some(r.value[0]))
  }

  /** The QueryItem list of a query or delete: one item per pair, in order, copied unchanged. */
  function ItemsOf(pairs: seq<(string, string)>): (items: seq<QR.QueryItem>)
    ensures |items| == |pairs|
    ensures forall i | 0 <= i < |pairs| :: items[i].key == pairs[i].0 && items[i].invoiceDate == pairs[i].1
  {
    if pairs == [] then [] else [QR.QueryItem(pairs[0].0, pairs[0].1)] + ItemsOf(pairs[1..])
  }

  /** ArgumentException.ThrowIfNullOrWhiteSpace on a string that is not null. */
  function BlankArgument(paramName: string): ArgumentError {
    ArgumentError(paramName, "The value cannot be an empty string or composed entirely of whitespace.")
  }

  const InvoicesEmpty: string := "Invoices list cannot be empty"
  const QueriesEmpty: string := "Queries list cannot be empty"
  const DeliveryNotesEmpty: string := "Delivery notes list cannot be empty"

  class FastEInvoiceClient<Info> {
    const options: FO.Options
    const codec: Codec<Info>
    /** The checksum header value, computed once from the password and the client code. */
    const checkSum: string
    /** The HttpClient's BaseAddress and Timeout, set from the options. */
    const baseAddress: string
    const timeoutSeconds: int
    /** The MD5 digest and Uri.TryCreate's absolute-URL test the client was built with. */
    ghost const md5: seq<byte> -> seq<byte>
    ghost const isAbsoluteUrl: string -> bool

    /**
     * The options passed Validate, the HttpClient took their timeout, and the checksum is
     * the one they determine.
     */
    ghost predicate Valid() {
      && FO.Validate(options, isAbsoluteUrl) == None && TimeoutAccepted(options.timeoutSeconds)
      && options.baseUrl.Some? && options.clientCode.Some? && options.proxyCode.Some?
      && options.user.Some? && options.password.Some? && options.unitCode.Some?
      && baseAddress == options.baseUrl.value && timeoutSeconds == options.timeoutSeconds
      && MD5.CheckSum(md5, options.password.value, options.clientCode.value) == Ok(checkSum)
    }

    /**
     * The constructor once Validate has passed and the HttpClient has taken the timeout:
     * configure the HttpClient, compute the checksum.
     */
    constructor (options: FO.Options, isAbsoluteUrl: string -> bool, md5: seq<byte> -> seq<byte>, codec: Codec<Info>)
      requires FO.Validate(options, isAbsoluteUrl) == None
      requires TimeoutAccepted(options.timeoutSeconds)
      ensures Valid()
      ensures this.options == options && this.codec == codec
      ensures this.md5 == md5 && this.isAbsoluteUrl == isAbsoluteUrl
    {
      var sum := MD5.GenerateCheckSum(md5, options.password.value, options.clientCode.value);
      this.options := options;
      this.codec := codec;
      this.md5 := md5;
      this.isAbsoluteUrl := isAbsoluteUrl;
      baseAddress := options.baseUrl.value;
      timeoutSeconds := options.timeoutSeconds;
      checkSum := sum.value;
    }

    /**
     * `new FastEInvoiceClient(...)`: Validate first, whose ArgumentException escapes; then
     * the Timeout setter, whose ArgumentOutOfRangeException escapes for a timeout over
     * Int32.MaxValue milliseconds; otherwise a client whose checksum is
     * GenerateCheckSum(Password, ClientCode). (new Uri(BaseUrl) cannot throw once
     * Validate's absolute-URL check has passed.)
     */
    static method Create(options: FO.Options, isAbsoluteUrl: string -> bool, md5: seq<byte> -> seq<byte>, codec: Codec<Info>)
      returns (r: Result<FastEInvoiceClient<Info>, Failure>)
      ensures r.Err? <==> FO.Validate(options, isAbsoluteUrl).Some? || !TimeoutAccepted(options.timeoutSeconds)
      ensures FO.Validate(options, isAbsoluteUrl).Some? ==>
        r == Err(ArgumentException(FO.Validate(options, isAbsoluteUrl).value))
      ensures FO.Validate(options, isAbsoluteUrl) == None && !TimeoutAccepted(options.timeoutSeconds) ==>
        r == Err(ArgumentOutOfRangeException("value"))
      ensures r.Ok? ==> fresh(r.value) && r.value.Valid() && r.value.options == options && r.value.codec == codec
      ensures r.Ok? ==> r.value.md5 == md5 && r.value.isAbsoluteUrl == isAbsoluteUrl
    {
      var invalid := FO.Validate(options, isAbsoluteUrl);
      if invalid.Some? {
        return Err(ArgumentException(invalid.value));
      }
      if !TimeoutAccepted(options.timeoutSeconds) {
        return Err(ArgumentOutOfRangeException("value"));
      }
      var client := new FastEInvoiceClient(options, isAbsoluteUrl, md5, codec);
      return Ok(client);
    }

    /** BuildApiUrl for an operation's method code and the configured client and proxy codes. */
    function ApiUrlFor(op: ApiConstants.Operation): (url: string)
      requires Valid()
      ensures ParseUrl(url) == Some((ApiConstants.ApiPath,
        QueryParams(ApiConstants.MethodCode(op), options.clientCode.value, options.proxyCode.value)))
    {
      UrlRoundTrip(ApiConstants.MethodCode(op), options.clientCode.value, options.proxyCode.value);
      BuildApiUrl(ApiConstants.MethodCode(op), options.clientCode.value, options.proxyCode.value)
    }

    /**
     * CreateHttpRequest: a POST of the body as UTF-8 text/plain with the three headers.
     * Headers.Add refuses a value with a line break, the user header first, then the unit
     * code; the checksum is hex and never refused.
     */
    function CreateHttpRequest(url: string, body: string): (r: Result<HttpRequest, Failure>)
      requires Valid()
      ensures r.Err? <==> HasLineBreak(options.user.value) || HasLineBreak(options.unitCode.value)
      ensures HasLineBreak(options.user.value) ==> r == Err(HeaderFormatException(ApiConstants.UserHeader))
      ensures !HasLineBreak(options.user.value) && HasLineBreak(options.unitCode.value) ==>
        r == Err(HeaderFormatException(ApiConstants.UnitCodeHeader))
      ensures r.Ok? ==> r.value.httpMethod == "POST" && r.value.url == url
      ensures r.Ok? ==> r.value.content == Encode(body) && r.value.mediaType == ApiConstants.TextPlain
      ensures r.Ok? ==> Header(r.value, ApiConstants.UserHeader) == Some(options.user.value)
      ensures r.Ok? ==> Header(r.value, ApiConstants.UnitCodeHeader) == Some(options.unitCode.value)
      ensures r.Ok? ==> Header(r.value, ApiConstants.CheckSumHeader) == Some(checkSum)
    {
      if HasLineBreak(options.user.value) then Err(HeaderFormatException(ApiConstants.UserHeader))
      else if HasLineBreak(options.unitCode.value) then Err(HeaderFormatException(ApiConstants.UnitCodeHeader))
      else
        assert ApiConstants.UserHeader[1] != ApiConstants.UnitCodeHeader[1];
        assert ApiConstants.CheckSumHeader[0] != ApiConstants.UserHeader[0];
        assert ApiConstants.CheckSumHeader[0] != ApiConstants.UnitCodeHeader[0];
        var headers := [(ApiConstants.UserHeader, options.user.value),
                        (ApiConstants.UnitCodeHeader, options.unitCode.value),
                        (ApiConstants.CheckSumHeader, checkSum)];
        assert headers[1..][1..] == [headers[2]];
        assert HeaderIn(headers[1..], ApiConstants.UnitCodeHeader) == Some(options.unitCode.value);
        assert HeaderIn(headers[1..][1..], ApiConstants.CheckSumHeader) == Some(checkSum);
        assert HeaderIn(headers[1..], ApiConstants.CheckSumHeader) == Some(checkSum);
        Ok(HttpRequest("POST", url, headers, Encode(body), ApiConstants.TextPlain))
    }

    /** JsonHelper.Serialize of a request body. */
    function Serialize(b: Body): string {
      match b
      case CommandBody(command) => codec.serializeCommand(command)
      case QueryBody(query) => codec.serializeQuery(query)
    }

    /** The request an operation sends, or the FormatException building it throws. */
    function RequestFor(op: ApiConstants.Operation, b: Body): Result<HttpRequest, Failure>
      requires Valid()
    {
      CreateHttpRequest(ApiUrlFor(op), Serialize(b))
    }

    /**
     * What ExecuteCommandAsync returns for an operation, a body and the transport. A
     * FormatException from CreateHttpRequest is thrown before the try block, so it
     * escapes unwrapped and nothing is sent.
     */
    function Exchange(op: ApiConstants.Operation, b: Body, send: HttpRequest -> Transport): Result<AR.ApiResponse<string>, Failure>
      requires Valid()
    {
      match RequestFor(op, b)
      case Err(e) => Err(e)
      case Ok(req) => Interpret(send(req), codec.parseResponse)
    }

    /**
     * Every request names its operation's method code and the configured client and
     * proxy codes in its URL, and carries the one checksum computed at construction.
     */
    lemma RequestCarriesCommand(op: ApiConstants.Operation, b: Body)
      requires Valid()
      ensures RequestFor(op, b).Ok? <==> !HasLineBreak(options.user.value) && !HasLineBreak(options.unitCode.value)
      ensures RequestFor(op, b).Ok? ==> var req := RequestFor(op, b).value;
        && ParseUrl(req.url) == Some((ApiConstants.ApiPath,
             QueryParams(ApiConstants.MethodCode(op), options.clientCode.value, options.proxyCode.value)))
        && Header(req, ApiConstants.CheckSumHeader) == Some(checkSum)
        && checkSum == MD5.CheckSum(md5, options.password.value, options.clientCode.value).value
        && req.content == Encode(Serialize(b))
    {
    }

    /**
     * A client whose user or unit code holds a line break fails every operation with the
     * header's FormatException, whatever the transport would have answered: nothing is sent.
     */
    lemma LineBreakSendsNothing(op: ApiConstants.Operation, b: Body, send: HttpRequest -> Transport, send': HttpRequest -> Transport)
      requires Valid()
      requires HasLineBreak(options.user.value) || HasLineBreak(options.unitCode.value)
      ensures Exchange(op, b, send).Err? && Exchange(op, b, send).error.HeaderFormatException?
      ensures Exchange(op, b, send) == Exchange(op, b, send')
    {
    }

    /** Under an MD5-sized digest the checksum header is 32 lower-case hex digits. */
    lemma CheckSumShape()
      requires Valid() && MD5.IsDigest(md5)
      ensures |checkSum| == 32
    {
      MD5.CheckSumShape(md5, options.password.value, options.clientCode.value);
    }

    /** ExecuteCommandAsync: build and send the request, then walk the ladder. */
    method ExecuteCommand(op: ApiConstants.Operation, b: Body, send: HttpRequest -> Transport)
      returns (r: Result<AR.ApiResponse<string>, Failure>)
      requires Valid()
      ensures r == Exchange(op, b, send)
    {
      var url := ApiUrlFor(op);
      var requestJson := Serialize(b);
      var httpRequest := CreateHttpRequest(url, requestJson);
      if httpRequest.Err? {
        return Err(httpRequest.error);
      }
      var outcome := send(httpRequest.value);
      r := ReadReply(outcome);
    }

    /** The try block and catch clauses of ExecuteCommandAsync, once the exchange is over. */
    method ReadReply(outcome: Transport) returns (r: Result<AR.ApiResponse<string>, Failure>)
      ensures r == Interpret(outcome, codec.parseResponse)
    {
      if outcome.HttpFailure? {
        return Err(ClientException(FE.WithInner(HttpRequestFailed, FE.HttpRequestFailure(outcome.detail))));
      }
      if outcome.Canceled? {
        return Err(ClientException(FE.WithInner(RequestTimeout, FE.TaskCanceled(outcome.detail))));
      }
      if !IsSuccessStatusCode(outcome.statusCode) {
        var detail := StatusFailureDetail(outcome.statusCode);
        return Err(ClientException(FE.WithInner(HttpRequestFailed, FE.HttpRequestFailure(detail))));
      }
      var apiResponse := codec.parseResponse(outcome.body);
      if apiResponse.Malformed? {
        return Err(JsonException(apiResponse.detail));
      }
      if apiResponse.ParsedNull? {
        return Err(ClientException(FE.WithMessage(DeserializeFailed)));
      }
      if !apiResponse.value.IsSuccess() {
        return Err(ClientException(FE.FromApiResponse(apiResponse.value)));
      }
      return Ok(apiResponse.value);
    }

    /** What a query returns: the exchange's failure, or the InvoiceInfo list its message holds. */
    function Answer(r: Result<AR.ApiResponse<string>, Failure>): Result<seq<Info>, Failure> {
      if r.Err? then Err(r.error) else ReadInfos(r.value.message, codec.parseInfos)
    }

    // Invoice operations.

    method PushInvoice(master: IM.InvoiceMaster, details: seq<ID.InvoiceDetail>, send: HttpRequest -> Transport)
      returns (r: Result<(), Failure>)
      requires Valid()
      ensures r == Completed(Exchange(ApiConstants.PushInvoice,
        CommandBody(JsonHelper.ConvertToInvoiceRequest(master, details)), send))
    {
      var request := JsonHelper.ConvertToInvoiceRequest(master, details);
      var response := ExecuteCommand(ApiConstants.PushInvoice, CommandBody(request), send);
      r := Completed(response);
    }

    method PushInvoices(invoices: seq<(IM.InvoiceMaster, seq<ID.InvoiceDetail>)>, send: HttpRequest -> Transport)
      returns (r: Result<(), Failure>)
      requires Valid()
      ensures invoices == [] ==> r == Err(ArgumentException(ArgumentError("invoices", InvoicesEmpty)))
      ensures invoices != [] ==> r == Completed(Exchange(ApiConstants.PushInvoice,
        CommandBody(JsonHelper.ConvertToInvoiceRequests(invoices).value), send))
    {
      if |invoices| == 0 {
        return Err(ArgumentException(ArgumentError("invoices", InvoicesEmpty)));
      }
      var request := JsonHelper.ConvertToInvoiceRequests(invoices).value;
      var response := ExecuteCommand(ApiConstants.PushInvoice, CommandBody(request), send);
      r := Completed(response);
    }

    method QueryInvoices(queries: seq<(string, string)>, send: HttpRequest -> Transport)
      returns (r: Result<seq<Info>, Failure>)
      requires Valid()
      ensures queries == [] ==> r == Err(ArgumentException(ArgumentError("queries", QueriesEmpty)))
      ensures queries != [] ==> r == Answer(Exchange(ApiConstants.QueryInvoice,
        QueryBody(QR.QueryRequest(ItemsOf(queries))), send))
    {
      if |queries| == 0 {
        return Err(ArgumentException(ArgumentError("queries", QueriesEmpty)));
      }
      var request := QR.QueryRequest(ItemsOf(queries));
      var response := ExecuteCommand(ApiConstants.QueryInvoice, QueryBody(request), send);
      if response.Err? {
        return Err(response.error);
      }
      r := ReadInfos(response.value.message, codec.parseInfos);
    }

    method QueryInvoice(key: string, invoiceDate: string, send: HttpRequest -> Transport)
      returns (r: Result<Option<Info>, Failure>)
      requires Valid()
      ensures IsBlank(key) ==> r == Err(ArgumentException(BlankArgument("key")))
      ensures !IsBlank(key) && IsBlank(invoiceDate) ==> r == Err(ArgumentException(BlankArgument("invoiceDate")))
      ensures !IsBlank(key) && !IsBlank(invoiceDate) ==> r == FirstOrDefault(Answer(Exchange(ApiConstants.QueryInvoice,
        QueryBody(QR.QueryRequest([QR.QueryItem(key, invoiceDate)])), send)))
    {
      if IsBlank(key) {
        return Err(ArgumentException(BlankArgument("key")));
      }
      if IsBlank(invoiceDate) {
        return Err(ArgumentException(BlankArgument("invoiceDate")));
      }
      var invoices := QueryInvoices([(key, invoiceDate)], send);
      assert ItemsOf([(key, invoiceDate)]) == [QR.QueryItem(key, invoiceDate)];
      r := FirstOrDefault(invoices);
    }

    method DeleteInvoices(invoices: seq<(string, string)>, send: HttpRequest -> Transport)
      returns (r: Result<(), Failure>)
      requires Valid()
      ensures invoices == [] ==> r == Err(ArgumentException(ArgumentError("invoices", InvoicesEmpty)))
      ensures invoices != [] ==> r == Completed(Exchange(ApiConstants.DeleteInvoice,
        QueryBody(QR.QueryRequest(ItemsOf(invoices))), send))
    {
      if |invoices| == 0 {
        return Err(ArgumentException(ArgumentError("invoices", InvoicesEmpty)));
      }
      var request := QR.QueryRequest(ItemsOf(invoices));
      var response := ExecuteCommand(ApiConstants.DeleteInvoice, QueryBody(request), send);
      r := Completed(response);
    }

    method DeleteInvoice(key: string, invoiceDate: string, send: HttpRequest -> Transport)
      returns (r: Result<(), Failure>)
      requires Valid()
      ensures IsBlank(key) ==> r == Err(ArgumentException(BlankArgument("key")))
      ensures !IsBlank(key) && IsBlank(invoiceDate) ==> r == Err(ArgumentException(BlankArgument("invoiceDate")))
      ensures !IsBlank(key) && !IsBlank(invoiceDate) ==> r == Completed(Exchange(ApiConstants.DeleteInvoice,
        QueryBody(QR.QueryRequest([QR.QueryItem(key, invoiceDate)])), send))
    {
      if IsBlank(key) {
        return Err(ArgumentException(BlankArgument("key")));
      }
      if IsBlank(invoiceDate) {
        return Err(ArgumentException(BlankArgument("invoiceDate")));
      }
      r := DeleteInvoices([(key, invoiceDate)], send);
      assert ItemsOf([(key, invoiceDate)]) == [QR.QueryItem(key, invoiceDate)];
    }

    // Delivery-note operations.

    method PushDeliveryNote(master: DM.DeliveryNoteMaster, details: seq<DD.DeliveryNoteDetail>, send: HttpRequest -> Transport)
      returns (r: Result<(), Failure>)
      requires Valid()
      ensures r == Completed(Exchange(ApiConstants.PushDeliveryNote,
        CommandBody(JsonHelper.ConvertToDeliveryNoteRequest(master, details)), send))
    {
      var request := JsonHelper.ConvertToDeliveryNoteRequest(master, details);
      var response := ExecuteCommand(ApiConstants.PushDeliveryNote, CommandBody(request), send);
      r := Completed(response);
    }

    method PushDeliveryNotes(deliveryNotes: seq<(DM.DeliveryNoteMaster, seq<DD.DeliveryNoteDetail>)>, send: HttpRequest -> Transport)
      returns (r: Result<(), Failure>)
      requires Valid()
      ensures deliveryNotes == [] ==> r == Err(ArgumentException(ArgumentError("deliveryNotes", DeliveryNotesEmpty)))
      ensures deliveryNotes != [] ==> r == Completed(Exchange(ApiConstants.PushDeliveryNote,
        CommandBody(JsonHelper.ConvertToDeliveryNoteRequests(deliveryNotes).value), send))
    {
      if |deliveryNotes| == 0 {
        return Err(ArgumentException(ArgumentError("deliveryNotes", DeliveryNotesEmpty)));
      }
      var request := JsonHelper.ConvertToDeliveryNoteRequests(deliveryNotes).value;
      var response := ExecuteCommand(ApiConstants.PushDeliveryNote, CommandBody(request), send);
      r := Completed(response);
    }

    method QueryDeliveryNotes(queries: seq<(string, string)>, send: HttpRequest -> Transport)
      returns (r: Result<seq<Info>, Failure>)
      requires Valid()
      ensures queries == [] ==> r == Err(ArgumentException(ArgumentError("queries", QueriesEmpty)))
      ensures queries != [] ==> r == Answer(Exchange(ApiConstants.QueryDeliveryNote,
        QueryBody(QR.QueryRequest(ItemsOf(queries))), send))
    {
      if |queries| == 0 {
        return Err(ArgumentException(ArgumentError("queries", QueriesEmpty)));
      }
      var request := QR.QueryRequest(ItemsOf(queries));
      var response := ExecuteCommand(ApiConstants.QueryDeliveryNote, QueryBody(request), send);
      if response.Err? {
        return Err(response.error);
      }
      r := ReadInfos(response.value.message, codec.parseInfos);
    }

    method QueryDeliveryNote(key: string, deliveryNoteDate: string, send: HttpRequest -> Transport)
      returns (r: Result<Option<Info>, Failure>)
      requires Valid()
      ensures IsBlank(key) ==> r == Err(ArgumentException(BlankArgument("key")))
      ensures !IsBlank(key) && IsBlank(deliveryNoteDate) ==> r == Err(ArgumentException(BlankArgument("deliveryNoteDate")))
      ensures !IsBlank(key) && !IsBlank(deliveryNoteDate) ==> r == FirstOrDefault(Answer(Exchange(ApiConstants.QueryDeliveryNote,
        QueryBody(QR.QueryRequest([QR.QueryItem(key, deliveryNoteDate)])), send)))
    {
      if IsBlank(key) {
        return Err(ArgumentException(BlankArgument("key")));
      }
      if IsBlank(deliveryNoteDate) {
        return Err(ArgumentException(BlankArgument("deliveryNoteDate")));
      }
      var notes := QueryDeliveryNotes([(key, deliveryNoteDate)], send);
      assert ItemsOf([(key, deliveryNoteDate)]) == [QR.QueryItem(key, deliveryNoteDate)];
      r := FirstOrDefault(notes);
    }

    method DeleteDeliveryNotes(deliveryNotes: seq<(string, string)>, send: HttpRequest -> Transport)
      returns (r: Result<(), Failure>)
      requires Valid()
      ensures deliveryNotes == [] ==> r == Err(ArgumentException(ArgumentError("deliveryNotes", DeliveryNotesEmpty)))
      ensures deliveryNotes != [] ==> r == Completed(Exchange(ApiConstants.DeleteDeliveryNote,
        QueryBody(QR.QueryRequest(ItemsOf(deliveryNotes))), send))
    {
      if |deliveryNotes| == 0 {
        return Err(ArgumentException(ArgumentError("deliveryNotes", DeliveryNotesEmpty)));
      }
      var request := QR.QueryRequest(ItemsOf(deliveryNotes));
      var response := ExecuteCommand(ApiConstants.DeleteDeliveryNote, QueryBody(request), send);
      r := Completed(response);
    }

    method DeleteDeliveryNote(key: string, deliveryNoteDate: string, send: HttpRequest -> Transport)
      returns (r: Result<(), Failure>)
      requires Valid()
      ensures IsBlank(key) ==> r == Err(ArgumentException(BlankArgument("key")))
      ensures !IsBlank(key) && IsBlank(deliveryNoteDate) ==> r == Err(ArgumentException(BlankArgument("deliveryNoteDate")))
      ensures !IsBlank(key) && !IsBlank(deliveryNoteDate) ==> r == Completed(Exchange(ApiConstants.DeleteDeliveryNote,
        QueryBody(QR.QueryRequest([QR.QueryItem(key, deliveryNoteDate)])), send))
    {
      if IsBlank(key) {
        return Err(ArgumentException(BlankArgument("key")));
      }
      if IsBlank(deliveryNoteDate) {
        return Err(ArgumentException(BlankArgument("deliveryNoteDate")));
      }
      r := DeleteDeliveryNotes([(key, deliveryNoteDate)], send);
      assert ItemsOf([(key, deliveryNoteDate)]) == [QR.QueryItem(key, deliveryNoteDate)];
    }
  }
}
