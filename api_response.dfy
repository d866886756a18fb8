/**
 * The envelope every command answers with (ApiResponse.cs): a success flag, an error
 * code, a message and an optional payload, with the success test and the error
 * description derived from them.
 */
module ApiResponse {
  import opened Wrappers
  import ErrorCode

  /** The wire names of the four envelope properties. */
  const SuccessKey: string := "Success"
  const CodeKey: string := "Code"
  const MessageKey: string := "Message"
  const DataKey: string := "Data"

  /**
   * One response envelope. `message` is None when the body carried a JSON null there;
   * `data` is None when the payload is absent or null.
   */
  datatype ApiResponse<T> = ApiResponse(success: int, code: int, message: Option<string>, data: Option<T>)
  {
    /** IsSuccess: the success flag is 1 and the code is 0; anything else is a failure. */
    predicate IsSuccess() {
      success == 1 && code == 0
    }

    /** ErrorDescription: the code's description for a failure, the empty text for a success. */
    function ErrorDescription(): (d: string)
      ensures d == "" <==> IsSuccess()
      ensures !IsSuccess() ==> d == ErrorCode.GetDescription(code)
    {
      if !IsSuccess() then ErrorCode.GetDescription(code) else ""
    }
  }

  /**
   * `new ApiResponse<T>()`: the property initialisers (flag and code 0, message "", no
   * payload), which is what a deserialised envelope holds for any field the reply omits.
   */
  function New<T>(): (r: ApiResponse<T>)
    ensures r.message == Some("") && r.data == None
    ensures !r.IsSuccess()
  {
    ApiResponse(0, 0, Some(""), None)
  }

  /**
   * The success test needs both fields: a success flag with a non-zero code fails, and so
   * does a zero code without the success flag; a success always carries the success code.
   */
  lemma SuccessNeedsBoth<T>(r: ApiResponse<T>)
    ensures r.success == 1 && r.code != 0 ==> !r.IsSuccess()
    ensures r.code == 0 && r.success != 1 ==> !r.IsSuccess()
    ensures r.IsSuccess() ==> ErrorCode.IsSuccess(r.code)
  {
  }

  /** Example: a default envelope is a failure whose description is that of code 0. */
  lemma NewDescription<T>()
    ensures New<T>().ErrorDescription() == "Unknown error code: 0"
  {
    ErrorCode.SuccessCodeDescription();
  }
}
