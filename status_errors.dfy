/**
 * How the wagon turns a failed HTTP exchange into one of Maven's three
 * transfer exceptions: rethrowKnownStatusCodes, the catch blocks around it,
 * and the carrier exception that lets an upload's own error pass through the
 * HTTP client unchanged.
 */
module StatusErrors {
  import opened Outcomes
  import opened JavaText

  const STATUS_CODE_UNAUTHORIZED: int := 401
  const STATUS_CODE_FORBIDDEN: int := 403
  const STATUS_CODE_NOT_FOUND: int := 404

  /** Maven's AuthorizationException, ResourceDoesNotExistException and TransferFailedException. */
  datatype ErrorKind = Authorization | ResourceDoesNotExist | TransferFailed

  /** One raised Maven transfer exception: its class and its message. */
  datatype WagonError = WagonError(kind: ErrorKind, message: string)

  const PERMISSION_DENIED: string := "Permission denied on remote repository (or it may not exist). "
  const NO_CREDENTIALS_HINT: string :=
    "The request had no credentials because the application default credentials "
    + "are not available. See https://developers.google.com/accounts/docs/application-default-credentials for more information."
  const NOT_FOUND_MESSAGE: string := "The remote resource does not exist."
  const SERVER_ERROR_MESSAGE: string := "Received an error from the remote server."
  const SEND_FAILED_MESSAGE: string := "Failed to send request to remote server."

  /**
   * Why a request did not produce a usable response: an error status
   * (HttpResponseException) or an I/O failure before or without one.
   */
  datatype TransportFailure = HttpResponseError(status: int) | IoFailure

  /** The outcome of executing one request over the network. */
  datatype Exchange = Delivered | Failed(failure: TransportFailure)

  /** The message of the authorization error, enriched when the wagon never obtained credentials. */
  function AuthorizationMessage(hasCredentials: bool): (m: string)
    ensures |m| >= |PERMISSION_DENIED| && m[..|PERMISSION_DENIED|] == PERMISSION_DENIED
  {
    PERMISSION_DENIED + (if hasCredentials then "" else NO_CREDENTIALS_HINT)
  }

  /** The credentials guidance appears in the authorization message exactly when there were no credentials. */
  lemma AuthorizationMessageHint(hasCredentials: bool)
    ensures Contains(AuthorizationMessage(hasCredentials), NO_CREDENTIALS_HINT) <==> !hasCredentials
  {
    var m := AuthorizationMessage(hasCredentials);
    if hasCredentials {
      assert |m| < |NO_CREDENTIALS_HINT|;
    } else {
      assert OccursAt(m, NO_CREDENTIALS_HINT, |PERMISSION_DENIED|);
    }
  }

  /**
   * rethrowKnownStatusCodes: 401 and 403 raise an authorization error, 404
   * a missing-resource error; any other status raises nothing and the caller
   * goes on.
   */
  function RethrowKnownStatusCodes(status: int, hasCredentials: bool): (e: Option<WagonError>)
    ensures e.None? <==>
      status != STATUS_CODE_FORBIDDEN && status != STATUS_CODE_UNAUTHORIZED && status != STATUS_CODE_NOT_FOUND
    ensures e.Some? ==> e.value.kind != TransferFailed
  {
    if status == STATUS_CODE_FORBIDDEN || status == STATUS_CODE_UNAUTHORIZED then
      Some(WagonError(Authorization, AuthorizationMessage(hasCredentials)))
    else if status == STATUS_CODE_NOT_FOUND then
      Some(WagonError(ResourceDoesNotExist, NOT_FOUND_MESSAGE))
    else
      None
  }

  /**
   * The two catch blocks shared by the download and the upload: an error
   * status goes through rethrowKnownStatusCodes and otherwise becomes a
   * generic transfer failure; an I/O failure is always a transfer failure.
   */
  function MapTransportFailure(f: TransportFailure, hasCredentials: bool): (e: WagonError)
    ensures e.kind == Authorization <==>
      f.HttpResponseError? && (f.status == STATUS_CODE_UNAUTHORIZED || f.status == STATUS_CODE_FORBIDDEN)
    ensures e.kind == ResourceDoesNotExist <==> f == HttpResponseError(STATUS_CODE_NOT_FOUND)
    ensures e.kind == Authorization ==> e.message == AuthorizationMessage(hasCredentials)
    ensures e.kind == ResourceDoesNotExist ==> e.message == NOT_FOUND_MESSAGE
    ensures e.kind == TransferFailed ==>
      e.message == if f.IoFailure? then SEND_FAILED_MESSAGE else SERVER_ERROR_MESSAGE
  {
    match f
    case HttpResponseError(status) =>
      (match RethrowKnownStatusCodes(status, hasCredentials)
       case Some(known) => known
       case None => WagonError(TransferFailed, SERVER_ERROR_MESSAGE))
    case IoFailure => WagonError(TransferFailed, SEND_FAILED_MESSAGE)
  }

  /** A failure without a response is never reported as an authorization or missing-resource error. */
  lemma NoResponseIsTransferFailure(hasCredentials: bool)
    ensures MapTransportFailure(IoFailure, hasCredentials) == WagonError(TransferFailed, SEND_FAILED_MESSAGE)
    ensures MapTransportFailure(IoFailure, hasCredentials).message != MapTransportFailure(HttpResponseError(500), hasCredentials).message
  {
  }

  /** Whether credentials were found changes only the wording of the authorization message, never the kind. */
  lemma CredentialsOnlyChangeWording(f: TransportFailure)
    ensures MapTransportFailure(f, true).kind == MapTransportFailure(f, false).kind
    ensures MapTransportFailure(f, true).kind != Authorization ==> MapTransportFailure(f, true) == MapTransportFailure(f, false)
    ensures MapTransportFailure(f, true).kind == Authorization ==> MapTransportFailure(f, true).message != MapTransportFailure(f, false).message
  {
  }

  /**
   * What escapes request.execute() during an upload: a transport failure, or
   * the carrier (FileTransferException) wrapped around the error that
   * streaming the file raised.
   */
  datatype PutFailure = Transport(failure: TransportFailure) | FileTransfer(cause: WagonError)

  /** The body writer's catch: a streaming error is wrapped in the carrier. */
  function WriteTo(streamed: Option<WagonError>): (r: Option<PutFailure>)
    ensures r.None? <==> streamed.None?
    ensures r.Some? ==> r.value.FileTransfer?
  {
    match streamed
    case None => None
    case Some(e) => Some(FileTransfer(e))
  }

  /**
   * request.execute() for an upload. The body is written while the request
   * is sent, so a streaming error aborts the exchange before any status is
   * read.
   */
  function ExecutePut(streamed: Option<WagonError>, exchange: Exchange): (r: Option<PutFailure>)
    ensures streamed.Some? ==> r == WriteTo(streamed)
    ensures streamed.None? ==> (r.None? <==> exchange.Delivered?)
  {
    if streamed.Some? then WriteTo(streamed)
    else match exchange
      case Delivered => None
      case Failed(f) => Some(Transport(f))
  }

  /**
   * The catch blocks of handlePutRequest: the carrier is unwrapped to the
   * exception it carries, and a transport failure is mapped as for a download.
   */
  function HandlePutFailure(f: PutFailure, hasCredentials: bool): (e: WagonError)
    ensures f.FileTransfer? ==> e == f.cause
    ensures f.Transport? ==> e == MapTransportFailure(f.failure, hasCredentials)
  {
    match f
    case Transport(t) => MapTransportFailure(t, hasCredentials)
    case FileTransfer(cause) =>
      match cause.kind
      case TransferFailed => cause
      case Authorization => cause
      case ResourceDoesNotExist => cause
  }

  /** Unwrapping inverts wrapping: a streaming error reaches the caller as itself, whatever the network did. */
  lemma CarrierRoundTrip(e: WagonError, exchange: Exchange, hasCredentials: bool)
    ensures ExecutePut(Some(e), exchange).Some?
    ensures HandlePutFailure(ExecutePut(Some(e), exchange).value, hasCredentials) == e
  {
  }

  /** With a body streamed cleanly, an upload's failure is mapped exactly like a download's. */
  lemma PutMapsLikeGet(t: TransportFailure, hasCredentials: bool)
    ensures ExecutePut(None, Failed(t)) == Some(Transport(t))
    ensures HandlePutFailure(Transport(t), hasCredentials) == MapTransportFailure(t, hasCredentials)
  {
  }
}
