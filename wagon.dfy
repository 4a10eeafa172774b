/**
 * BuildArtifactsWagon: the Maven wagon that downloads and uploads artifacts
 * over HTTPS. The network, the credential lookup and the byte streaming are
 * parameters of the operations; what the model keeps is the wagon's state,
 * the order of the listener notifications, the requests issued and the
 * exception each operation ends with.
 */
module Wagon {
  import opened Outcomes
  import opened RepositoryAddress
  import opened StatusErrors

  /** The fixed remote host. */
  const HOST: string := "maven.pkg.dev"

  /** The listener notifications the wagon fires (fireGetInitiated, ..., fireTransferError). */
  datatype EventKind =
    | GetInitiated | GetStarted | GetCompleted | TransferError
    | PutInitiated | PutStarted | PutCompleted

  /**
   * Maven's Resource as the listener sees it when a notification fires: the
   * artifact name, and its length and modification time once put has set them.
   */
  datatype Resource = Resource(name: string, contentLength: Option<int>, lastModified: Option<int>)

  /** One notification, with the resource it carried. */
  datatype Event = Event(kind: EventKind, resource: Resource)

  /** A request issued through the request factory: its method, its URL, and whether it carries credentials. */
  datatype Verb = HttpGet | HttpPut(contentLength: int)
  datatype Request = Request(verb: Verb, url: Url, signed: bool)

  /** The local file to upload: only its length and its modification time are read. */
  datatype SourceFile = SourceFile(length: int, lastModified: int)

  /**
   * What a transfer ends with when it does not return normally: one of the
   * three Maven exceptions, or the NullPointerException that dereferencing a
   * repository that was never parsed raises.
   */
  datatype Thrown = Raised(error: WagonError) | NullRepository

  /** A freshly created Resource: only the name is known. */
  function NewResource(name: string): (r: Resource)
    ensures r.name == name && r.contentLength.None? && r.lastModified.None?
  {
    Resource(name, None, None)
  }

  /**
   * getInputStream: the URL whose response body is streamed, or the
   * exception the failed request is mapped to.
   */
  function GetInputStream(repo: Option<GoogleRepository>, resourceName: string, exchange: Exchange, hasCredentials: bool)
    : (r: Result<Url, Thrown>)
    ensures r.Success? <==> repo.Some? && exchange.Delivered?
    ensures r.Success? ==> r.value == ConstructUrl(repo.value, HOST, resourceName)
    ensures repo.None? ==> r == Failure(NullRepository)
    ensures repo.Some? && exchange.Failed? ==> r == Failure(Raised(MapTransportFailure(exchange.failure, hasCredentials)))
  {
    match repo
    case None => Failure(NullRepository)
    case Some(g) =>
      var url := ConstructUrl(g, HOST, resourceName);
      match exchange
      case Delivered => Success(url)
      case Failed(f) => Failure(Raised(MapTransportFailure(f, hasCredentials)))
  }

  /**
   * What getIfNewer returns or throws: true once the body has been streamed
   * to the destination; otherwise the exception of the request or of the
   * streaming. The timestamp plays no part.
   */
  function GetIfNewerResult(repo: Option<GoogleRepository>, resourceName: string, exchange: Exchange,
                            streamed: Option<WagonError>, hasCredentials: bool): (r: Result<bool, Thrown>)
    ensures r.Success? <==> repo.Some? && exchange.Delivered? && streamed.None?
    ensures r.Success? ==> r.value
    ensures repo.Some? && exchange.Delivered? && streamed.Some? ==> r == Failure(Raised(streamed.value))
    ensures GetInputStream(repo, resourceName, exchange, hasCredentials).Failure? ==>
      r == Failure(GetInputStream(repo, resourceName, exchange, hasCredentials).error)
  {
    match GetInputStream(repo, resourceName, exchange, hasCredentials)
    case Failure(t) => Failure(t)
    case Success(_) => if streamed.Some? then Failure(Raised(streamed.value)) else Success(true)
  }

  /**
   * The notifications that getIfNewer itself fires. The streaming helper it
   * inherits from Maven's base wagon fires notifications of its own, which
   * are not recorded here.
   */
  function GetEvents(resourceName: string, succeeded: bool): (es: seq<Event>)
    ensures |es| == 3
    ensures forall i :: 0 <= i < |es| ==> es[i].resource == NewResource(resourceName)
    ensures es[0].kind == GetInitiated && es[1].kind == GetStarted
    ensures es[2].kind == GetCompleted <==> succeeded
    ensures es[2].kind == TransferError <==> !succeeded
  {
    var r := NewResource(resourceName);
    [Event(GetInitiated, r), Event(GetStarted, r), Event(if succeeded then GetCompleted else TransferError, r)]
  }

  /**
   * handlePutRequest: nothing when the upload went through; otherwise the
   * error of the streaming (unwrapped from its carrier) or of the exchange.
   */
  function HandlePutRequest(streamed: Option<WagonError>, exchange: Exchange, hasCredentials: bool)
    : (e: Option<WagonError>)
    ensures streamed.Some? ==> e == streamed
    ensures streamed.None? ==> (e.None? <==> exchange.Delivered?)
    ensures streamed.None? && exchange.Failed? ==> e == Some(MapTransportFailure(exchange.failure, hasCredentials))
  {
    match ExecutePut(streamed, exchange)
    case None => None
    case Some(f) => Some(HandlePutFailure(f, hasCredentials))
  }

  /** What put throws, if anything. */
  function PutResult(repo: Option<GoogleRepository>, streamed: Option<WagonError>, exchange: Exchange, hasCredentials: bool)
    : (r: Option<Thrown>)
    ensures r.None? <==> repo.Some? && streamed.None? && exchange.Delivered?
    ensures repo.None? ==> r == Some(NullRepository)
    ensures repo.Some? && streamed.Some? ==> r == Some(Raised(streamed.value))
  {
    if repo.None? then Some(NullRepository)
    else match HandlePutRequest(streamed, exchange, hasCredentials)
      case None => None
      case Some(e) => Some(Raised(e))
  }

  /** The Resource of an upload once put has copied the file's length and modification time onto it. */
  function WithMetadata(r: Resource, source: SourceFile): (r': Resource)
    ensures r'.name == r.name
    ensures r'.contentLength == Some(source.length) && r'.lastModified == Some(source.lastModified)
  {
    r.(contentLength := Some(source.length), lastModified := Some(source.lastModified))
  }

  /**
   * The notifications that put itself fires: initiated always; started once
   * the URL could be built; completed only when the request went through.
   * The streaming helper inherited from Maven's base wagon fires
   * notifications of its own while the body is written, which are not
   * recorded here.
   */
  function PutEvents(name: string, source: SourceFile, urlBuilt: bool, succeeded: bool): (es: seq<Event>)
    ensures |es| >= 1 && es[0] == Event(PutInitiated, NewResource(name))
    ensures |es| == (if !urlBuilt then 1 else if succeeded then 3 else 2)
    ensures forall i :: 1 <= i < |es| ==> es[i].resource == WithMetadata(NewResource(name), source)
  {
    var initial := NewResource(name);
    var described := WithMetadata(initial, source);
    [Event(PutInitiated, initial)]
    + (if urlBuilt then [Event(PutStarted, described)] + (if succeeded then [Event(PutCompleted, described)] else []) else [])
  }

  /**
   * Put's own notifications never include a transfer error, and include
   * completion only when it succeeded.
   */
  lemma PutEventKinds(name: string, source: SourceFile, urlBuilt: bool, succeeded: bool)
    ensures var es := PutEvents(name, source, urlBuilt, succeeded);
      (forall i :: 0 <= i < |es| ==> es[i].kind != TransferError) &&
      ((exists i :: 0 <= i < |es| && es[i].kind == PutCompleted) <==> urlBuilt && succeeded) &&
      (urlBuilt ==> es[1].kind == PutStarted)
  {
    var es := PutEvents(name, source, urlBuilt, succeeded);
    if urlBuilt && succeeded {
      assert es[2].kind == PutCompleted;
    }
  }

  /**
   * A request that fails without a response ends a download (whatever the
   * never-run streaming would have done) and a cleanly streamed upload
   * alike, never as a denial or a missing resource.
   */
  lemma NoResponseFailsBothWays(repo: GoogleRepository, name: string, streamed: Option<WagonError>, hasCredentials: bool)
    ensures GetIfNewerResult(Some(repo), name, Failed(IoFailure), streamed, hasCredentials)
      == Failure(Raised(WagonError(TransferFailed, SEND_FAILED_MESSAGE)))
    ensures PutResult(Some(repo), None, Failed(IoFailure), hasCredentials)
      == Some(Raised(WagonError(TransferFailed, SEND_FAILED_MESSAGE)))
  {
  }

  /**
   * Every error status is mapped the same way for a download (the body is
   * then never streamed) and for an upload whose body streamed cleanly.
   */
  lemma StatusMappedAlikeForGetAndPut(repo: GoogleRepository, name: string, status: int,
                                      streamed: Option<WagonError>, hasCredentials: bool)
    ensures var e := MapTransportFailure(HttpResponseError(status), hasCredentials);
      GetIfNewerResult(Some(repo), name, Failed(HttpResponseError(status)), streamed, hasCredentials) == Failure(Raised(e)) &&
      PutResult(Some(repo), None, Failed(HttpResponseError(status)), hasCredentials) == Some(Raised(e))
  {
  }

  /** The wagon: its connection state and what the listener and the network have seen of it. */
  class BuildArtifactsWagon {
    /** The parsed repository; None until a connection has been opened successfully. */
    var googleRepository: Option<GoogleRepository>
    /** Whether the current request factory signs requests with the application default credentials. */
    var signsRequests: bool
    /** Whether credentials were ever obtained; only the authorization message reads it. */
    var hasCredentials: bool
    /** Notifications fired to the transfer listeners, in order. */
    var events: seq<Event>
    /** Requests issued through the request factory, in order. */
    var requests: seq<Request>

    constructor ()
      ensures googleRepository.None? && !signsRequests && !hasCredentials
      ensures events == [] && requests == []
    {
      googleRepository := None;
      signsRequests := false;
      hasCredentials := false;
      events := [];
      requests := [];
    }

    /**
     * openConnectionInternal. A failed credential lookup is not an error: the
     * factory just stops signing. hasCredentials is set on success and never
     * cleared. A malformed locator raises the ConnectionException and leaves
     * the previous repository in place.
     */
    method OpenConnectionInternal(repository: Locator, credentialsFound: bool) returns (failure: Option<ConnectionError>)
      modifies this`signsRequests, this`hasCredentials, this`googleRepository
      ensures signsRequests == credentialsFound
      ensures signsRequests ==> hasCredentials
      ensures hasCredentials == (old(hasCredentials) || credentialsFound)
      ensures failure == (if Parse(repository).Failure? then Some(Parse(repository).error) else None)
      ensures googleRepository == (if Parse(repository).Success? then Some(Parse(repository).value) else old(googleRepository))
    {
      if credentialsFound {
        signsRequests := true;
        hasCredentials := true;
      } else {
        signsRequests := false;
      }
      var parsed := Parse(repository);
      if parsed.Failure? {
        return Some(parsed.error);
      }
      googleRepository := Some(parsed.value);
      failure := None;
    }

    /**
     * getIfNewer: always downloads, whatever the timestamp, and answers true.
     * `exchange` is what the network does with the GET, `streamed` the error
     * (if any) that copying the body to the destination raised.
     */
    method GetIfNewer(resourceName: string, timestamp: int, exchange: Exchange, streamed: Option<WagonError>)
      returns (r: Result<bool, Thrown>)
      modifies this`events, this`requests
      ensures r == GetIfNewerResult(googleRepository, resourceName, exchange, streamed, hasCredentials)
      ensures events == old(events) + GetEvents(resourceName, r.Success?)
      ensures requests == old(requests) +
        (if googleRepository.Some? then [Request(HttpGet, ConstructUrl(googleRepository.value, HOST, resourceName), signsRequests)] else [])
    {
      var resource := NewResource(resourceName);
      events := events + [Event(GetInitiated, resource)];
      events := events + [Event(GetStarted, resource)];
      if googleRepository.Some? {
        requests := requests + [Request(HttpGet, ConstructUrl(googleRepository.value, HOST, resource.name), signsRequests)];
      }
      var input := GetInputStream(googleRepository, resource.name, exchange, hasCredentials);
      if input.Failure? {
        events := events + [Event(TransferError, resource)];
        return Failure(input.error);
      }
      if streamed.Some? {
        events := events + [Event(TransferError, resource)];
        return Failure(Raised(streamed.value));
      }
      events := events + [Event(GetCompleted, resource)];
      r := Success(true);
    }

    /** get: getIfNewer with timestamp 0, its answer dropped. */
    method Get(resourceName: string, exchange: Exchange, streamed: Option<WagonError>) returns (failure: Option<Thrown>)
      modifies this`events, this`requests
      ensures var expected := GetIfNewerResult(googleRepository, resourceName, exchange, streamed, hasCredentials);
        failure == (if expected.Failure? then Some(expected.error) else None)
      ensures events == old(events) + GetEvents(resourceName, failure.None?)
      ensures requests == old(requests) +
        (if googleRepository.Some? then [Request(HttpGet, ConstructUrl(googleRepository.value, HOST, resourceName), signsRequests)] else [])
    {
      var r := GetIfNewer(resourceName, 0, exchange, streamed);
      failure := if r.Failure? then Some(r.error) else None;
    }

    /**
     * put: the listener hears of the upload, the file's length and
     * modification time go on the resource, the URL is built, the listener
     * hears the upload start, and the request streams the file. Completion is
     * reported only on success; a failure is thrown without a transfer-error
     * notification.
     */
    method Put(source: SourceFile, destination: string, streamed: Option<WagonError>, exchange: Exchange)
      returns (failure: Option<Thrown>)
      modifies this`events, this`requests
      ensures failure == PutResult(googleRepository, streamed, exchange, hasCredentials)
      ensures events == old(events) + PutEvents(destination, source, googleRepository.Some?, failure.None?)
      ensures requests == old(requests) +
        (if googleRepository.Some?
         then [Request(HttpPut(source.length), ConstructUrl(googleRepository.value, HOST, destination), signsRequests)]
         else [])
    {
      var resource := NewResource(destination);
      events := events + [Event(PutInitiated, resource)];
      resource := resource.(contentLength := Some(source.length));
      resource := resource.(lastModified := Some(source.lastModified));
      if googleRepository.None? {
        return Some(NullRepository);
      }
      var url := ConstructUrl(googleRepository.value, HOST, resource.name);
      events := events + [Event(PutStarted, resource)];
      requests := requests + [Request(HttpPut(source.length), url, signsRequests)];
      var error := HandlePutRequest(streamed, exchange, hasCredentials);
      if error.Some? {
        return Some(Raised(error.value));
      }
      events := events + [Event(PutCompleted, resource)];
      failure := None;
    }
  }

  /**
   * A wagon that obtained credentials once keeps hasCredentials after a
   * reconnect whose lookup failed: its requests go out unsigned, and a 403
   * is reported without the guidance about missing credentials.
   */
  method ReconnectWithoutCredentials(repository: Locator, resourceName: string)
    returns (signed: bool, failure: Option<Thrown>)
    requires Parse(repository).Success?
    ensures !signed
    ensures failure == Some(Raised(WagonError(Authorization, PERMISSION_DENIED)))
  {
    var wagon := new BuildArtifactsWagon();
    var connected := wagon.OpenConnectionInternal(repository, true);
    connected := wagon.OpenConnectionInternal(repository, false);
    failure := wagon.Get(resourceName, Failed(HttpResponseError(STATUS_CODE_FORBIDDEN)), None);
    signed := wagon.requests[0].signed;
    assert PERMISSION_DENIED + "" == PERMISSION_DENIED;
  }
}
