/**
 * The exception the client raises (FastEInvoiceException.cs): a message, the API error
 * code, the raw API message and an optional inner cause, with its three constructors
 * and the construction from a failed response.
 */
module FastEInvoiceException {
  import opened Wrappers
  import opened Text
  import ErrorCode
  import opened ApiResponse

  /** The lower-level failures the client wraps as an inner exception. */
  datatype Cause =
    | HttpRequestFailure(detail: string)
    | TaskCanceled(detail: string)
    | MalformedJson(detail: string)

  /** An exception value; `errorCode` is 0 and `rawMessage` None unless a response set them. */
  datatype FastEInvoiceException = FastEInvoiceException(
    message: string,
    errorCode: int,
    rawMessage: Option<string>,
    innerException: Option<Cause>)

  /** `new FastEInvoiceException(message)`. */
  function WithMessage(message: string): (e: FastEInvoiceException)
    ensures e.message == message && e.innerException == None
    ensures e.errorCode == 0 && e.rawMessage == None
  {
    FastEInvoiceException(message, 0, None, None)
  }

  /** `new FastEInvoiceException(message, innerException)`. */
  function WithInner(message: string, inner: Cause): (e: FastEInvoiceException)
    ensures e.message == message && e.innerException == Some(inner)
    ensures e.errorCode == 0 && e.rawMessage == None
  {
    FastEInvoiceException(message, 0, None, Some(inner))
  }

  /** `new FastEInvoiceException(errorCode, message, rawMessage)`. */
  function WithCode(errorCode: int, message: string, rawMessage: Option<string>): (e: FastEInvoiceException)
    ensures e.message == message && e.innerException == None
    ensures e.errorCode == errorCode && e.rawMessage == rawMessage
  {
    FastEInvoiceException(message, errorCode, rawMessage, None)
  }

  /** The separator between the description and the API's own message. */
  const Separator: string := " - "

  /**
   * FromApiResponse (both overloads: their bodies are the same, and neither looks at the
   * payload): the code's description, followed by the API message when that is not null
   * or white space; the code and the raw message are kept unchanged.
   */
  function FromApiResponse<T>(response: ApiResponse<T>): (e: FastEInvoiceException)
    ensures e.errorCode == response.code && e.rawMessage == response.message
    ensures e.innerException == None
    ensures var description := ErrorCode.GetDescription(response.code);
      |e.message| >= |description| && e.message[..|description|] == description
  {
    var description := ErrorCode.GetDescription(response.code);
    var message :=
      if IsNullOrWhiteSpace(response.message) then description
      else description + Separator + response.message.value;
    WithCode(response.code, message, response.message)
  }

  /**
   * The message of an exception built from a response can be taken apart again: it is the
   * description alone exactly when the API message is null or white space, and otherwise
   * the API message follows the description and the separator.
   */
  lemma FromApiResponseMessage<T>(response: ApiResponse<T>)
    ensures var description := ErrorCode.GetDescription(response.code);
      var e := FromApiResponse(response);
      && (e.message == description <==> IsNullOrWhiteSpace(response.message))
      && (!IsNullOrWhiteSpace(response.message) ==>
            e.message[|description|..|description| + |Separator|] == Separator
            && e.message[|description| + |Separator|..] == response.message.value)
  {
    var description := ErrorCode.GetDescription(response.code);
    var e := FromApiResponse(response);
    if !IsNullOrWhiteSpace(response.message) {
      assert e.message == description + Separator + response.message.value;
      assert |e.message| > |description|;
    }
  }

  /** The envelope's payload type does not matter: only the code and the message are read. */
  lemma FromApiResponseIgnoresPayload<T, U>(r: ApiResponse<T>, s: ApiResponse<U>)
    requires r.code == s.code && r.message == s.message
    ensures FromApiResponse(r) == FromApiResponse(s)
  {
  }
}
