/**
 * The client's configuration (FastEInvoiceOptions.cs): six required texts, a timeout and
 * a logging switch, and Validate, the fixed chain of guards that reports the first
 * setting that is missing or wrong.
 */
module FastEInvoiceOptions {
  import opened Wrappers
  import opened Text
  import opened Errors

  /** The configuration section the options are bound from. */
  const SectionName: string := "FastEInvoice"

  /**
   * The options; a text setting is None when configuration binding left it null. The
   * BaseUrl is only checked by Validate, not parsed here.
   */
  datatype Options = Options(
    baseUrl: Option<string>,
    clientCode: Option<string>,
    proxyCode: Option<string>,
    user: Option<string>,
    password: Option<string>,
    unitCode: Option<string>,
    timeoutSeconds: int,
    enableDetailedLogging: bool)

  /** `new FastEInvoiceOptions()`: every text "", a 30-second timeout, logging off. */
  function Default(): (o: Options)
    ensures o.timeoutSeconds == 30 && !o.enableDetailedLogging
    ensures o.baseUrl == o.clientCode == o.proxyCode == o.user == o.password == o.unitCode == Some("")
  {
    Options(Some(""), Some(""), Some(""), Some(""), Some(""), Some(""), 30, false)
  }

  /** The checks Validate makes, in the order it makes them. */
  datatype Check =
    | BaseUrlPresent | ClientCodePresent | ProxyCodePresent | UserPresent
    | PasswordPresent | UnitCodePresent | TimeoutPositive | BaseUrlAbsolute

  const Checks: seq<Check> := [
    BaseUrlPresent, ClientCodePresent, ProxyCodePresent, UserPresent,
    PasswordPresent, UnitCodePresent, TimeoutPositive, BaseUrlAbsolute]

  /**
   * Whether one check passes. `isAbsoluteUrl` stands for Uri.TryCreate with
   * UriKind.Absolute.
   */
  predicate Holds(o: Options, c: Check, isAbsoluteUrl: string -> bool) {
    match c
    case BaseUrlPresent => !IsNullOrWhiteSpace(o.baseUrl)
    case ClientCodePresent => !IsNullOrWhiteSpace(o.clientCode)
    case ProxyCodePresent => !IsNullOrWhiteSpace(o.proxyCode)
    case UserPresent => !IsNullOrWhiteSpace(o.user)
    case PasswordPresent => !IsNullOrWhiteSpace(o.password)
    case UnitCodePresent => !IsNullOrWhiteSpace(o.unitCode)
    case TimeoutPositive => o.timeoutSeconds > 0
    case BaseUrlAbsolute => o.baseUrl.Some? && isAbsoluteUrl(o.baseUrl.value)
  }

  /** The ArgumentException a failing check raises: its parameter name and message. */
  function ErrorOf(c: Check): ArgumentError {
    match c
    case BaseUrlPresent => ArgumentError("BaseUrl", "BaseUrl is required")
    case ClientCodePresent => ArgumentError("ClientCode", "ClientCode is required")
    case ProxyCodePresent => ArgumentError("ProxyCode", "ProxyCode is required")
    case UserPresent => ArgumentError("User", "User is required")
    case PasswordPresent => ArgumentError("Password", "Password is required")
    case UnitCodePresent => ArgumentError("UnitCode", "UnitCode is required")
    case TimeoutPositive => ArgumentError("TimeoutSeconds", "TimeoutSeconds must be greater than 0")
    case BaseUrlAbsolute => ArgumentError("BaseUrl", "BaseUrl must be a valid absolute URL")
  }

  /**
   * Validate: None when every check passes, otherwise the error of the first check, in
   * the fixed order, that fails. It reads the options and changes nothing.
   */
  function Validate(o: Options, isAbsoluteUrl: string -> bool): (r: Option<ArgumentError>)
    ensures r.Some? ==> r.value.message != "" && r.value.paramName != ""
  {
    if IsNullOrWhiteSpace(o.baseUrl) then
      Some(ArgumentError("BaseUrl", "BaseUrl is required"))
    else if IsNullOrWhiteSpace(o.clientCode) then
      Some(ArgumentError("ClientCode", "ClientCode is required"))
    else if IsNullOrWhiteSpace(o.proxyCode) then
      Some(ArgumentError("ProxyCode", "ProxyCode is required"))
    else if IsNullOrWhiteSpace(o.user) then
      Some(ArgumentError("User", "User is required"))
    else if IsNullOrWhiteSpace(o.password) then
      Some(ArgumentError("Password", "Password is required"))
    else if IsNullOrWhiteSpace(o.unitCode) then
      Some(ArgumentError("UnitCode", "UnitCode is required"))
    else if o.timeoutSeconds <= 0 then
      Some(ArgumentError("TimeoutSeconds", "TimeoutSeconds must be greater than 0"))
    else if !isAbsoluteUrl(o.baseUrl.value) then
      Some(ArgumentError("BaseUrl", "BaseUrl must be a valid absolute URL"))
    else
      None
  }

  /** Check i is the first of the chain that fails. */
  predicate FirstFailing(o: Options, i: nat, isAbsoluteUrl: string -> bool) {
    && i < |Checks|
    && !Holds(o, Checks[i], isAbsoluteUrl)
    && forall j | 0 <= j < i :: Holds(o, Checks[j], isAbsoluteUrl)
  }

  /** Validate succeeds exactly when every check passes. */
  lemma ValidateSucceedsIffAllHold(o: Options, isAbsoluteUrl: string -> bool)
    ensures Validate(o, isAbsoluteUrl) == None <==>
      forall i | 0 <= i < |Checks| :: Holds(o, Checks[i], isAbsoluteUrl)
  {
    if Validate(o, isAbsoluteUrl) == None {
      forall i | 0 <= i < |Checks|
        ensures Holds(o, Checks[i], isAbsoluteUrl)
      {
      }
    } else {
      ValidateReportsFirstFailure(o, isAbsoluteUrl);
    }
  }

  /** When one of the four account checks is the first to fail, Validate reports its error. */
  lemma EarlyFailureReported(o: Options, k: nat, isAbsoluteUrl: string -> bool)
    requires k < 4 && FirstFailing(o, k, isAbsoluteUrl)
    ensures Validate(o, isAbsoluteUrl) == Some(ErrorOf(Checks[k]))
  {
    if k == 0 {
      assert !Holds(o, Checks[0], isAbsoluteUrl);
    } else if k == 1 {
      assert Holds(o, Checks[0], isAbsoluteUrl);
    } else if k == 2 {
      assert Holds(o, Checks[0], isAbsoluteUrl);
      assert Holds(o, Checks[1], isAbsoluteUrl);
    } else {
      assert Holds(o, Checks[0], isAbsoluteUrl);
      assert Holds(o, Checks[1], isAbsoluteUrl);
      assert Holds(o, Checks[2], isAbsoluteUrl);
    }
  }

  /** When one of the last four checks is the first to fail, Validate reports its error. */
  lemma LateFailureReported(o: Options, k: nat, isAbsoluteUrl: string -> bool)
    requires 4 <= k && FirstFailing(o, k, isAbsoluteUrl)
    ensures Validate(o, isAbsoluteUrl) == Some(ErrorOf(Checks[k]))
  {
    if k == 4 {
      assert Holds(o, Checks[0], isAbsoluteUrl);
      assert Holds(o, Checks[1], isAbsoluteUrl);
      assert Holds(o, Checks[2], isAbsoluteUrl);
      assert Holds(o, Checks[3], isAbsoluteUrl);
    } else if k == 5 {
      assert Holds(o, Checks[0], isAbsoluteUrl);
      assert Holds(o, Checks[1], isAbsoluteUrl);
      assert Holds(o, Checks[2], isAbsoluteUrl);
      assert Holds(o, Checks[3], isAbsoluteUrl);
      assert Holds(o, Checks[4], isAbsoluteUrl);
    } else if k == 6 {
      assert Holds(o, Checks[0], isAbsoluteUrl);
      assert Holds(o, Checks[1], isAbsoluteUrl);
      assert Holds(o, Checks[2], isAbsoluteUrl);
      assert Holds(o, Checks[3], isAbsoluteUrl);
      assert Holds(o, Checks[4], isAbsoluteUrl);
      assert Holds(o, Checks[5], isAbsoluteUrl);
    } else {
      assert Holds(o, Checks[0], isAbsoluteUrl);
      assert Holds(o, Checks[1], isAbsoluteUrl);
      assert Holds(o, Checks[2], isAbsoluteUrl);
      assert Holds(o, Checks[3], isAbsoluteUrl);
      assert Holds(o, Checks[4], isAbsoluteUrl);
      assert Holds(o, Checks[5], isAbsoluteUrl);
      assert Holds(o, Checks[6], isAbsoluteUrl);
    }
  }

  /** A failing Validate reports the error of the first check, in the fixed order, that fails. */
  lemma ValidateReportsFirstFailure(o: Options, isAbsoluteUrl: string -> bool)
    ensures Validate(o, isAbsoluteUrl).Some? ==> exists i: nat ::
      FirstFailing(o, i, isAbsoluteUrl) && Validate(o, isAbsoluteUrl).value == ErrorOf(Checks[i])
  {
    if !Holds(o, Checks[0], isAbsoluteUrl) {
      EarlyFailureReported(o, 0, isAbsoluteUrl);
    } else if !Holds(o, Checks[1], isAbsoluteUrl) {
      EarlyFailureReported(o, 1, isAbsoluteUrl);
    } else if !Holds(o, Checks[2], isAbsoluteUrl) {
      EarlyFailureReported(o, 2, isAbsoluteUrl);
    } else if !Holds(o, Checks[3], isAbsoluteUrl) {
      EarlyFailureReported(o, 3, isAbsoluteUrl);
    } else if !Holds(o, Checks[4], isAbsoluteUrl) {
      LateFailureReported(o, 4, isAbsoluteUrl);
    } else if !Holds(o, Checks[5], isAbsoluteUrl) {
      LateFailureReported(o, 5, isAbsoluteUrl);
    } else if !Holds(o, Checks[6], isAbsoluteUrl) {
      LateFailureReported(o, 6, isAbsoluteUrl);
    } else if !Holds(o, Checks[7], isAbsoluteUrl) {
      LateFailureReported(o, 7, isAbsoluteUrl);
    }
  }

  /** Options that pass Validate hold six non-blank texts and a positive timeout. */
  predicate Valid(o: Options, isAbsoluteUrl: string -> bool) {
    Validate(o, isAbsoluteUrl) == None
  }

  /** The default options fail at the first check, the BaseUrl. */
  lemma DefaultFailsAtBaseUrl(isAbsoluteUrl: string -> bool)
    ensures Validate(Default(), isAbsoluteUrl) == Some(ArgumentError("BaseUrl", "BaseUrl is required"))
  {
  }

  /** A blank BaseUrl is reported as missing, whatever the URL test would say of it. */
  lemma BlankBaseUrlIsMissing(o: Options, isAbsoluteUrl: string -> bool)
    requires IsNullOrWhiteSpace(o.baseUrl)
    ensures Validate(o, isAbsoluteUrl) == Some(ErrorOf(BaseUrlPresent))
  {
  }

  /** A timeout of zero or less is rejected, by the timeout check or by an earlier one. */
  lemma NonPositiveTimeoutRejected(o: Options, isAbsoluteUrl: string -> bool)
    requires o.timeoutSeconds <= 0
    ensures Validate(o, isAbsoluteUrl).Some?
  {
    assert !Holds(o, Checks[6], isAbsoluteUrl);
  }
}
