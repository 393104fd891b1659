/**
 * Classification of one status query for an asynchronous API request: the
 * refresh step of the configuration that tracks a request's progress. The
 * SDK's status query is an input, `lookup`, that maps a request path to what
 * the query returned for it.
 */
module RequestTracking {
  import opened Wrappers

  /** The status block of a tracked request as the API reports it. */
  datatype RequestMetadata = RequestMetadata(status: string, message: string)

  /** A tracked request; `id` stands for the payload fields not inspected here. */
  datatype Request = Request(id: string, metadata: RequestMetadata)

  /** What one status query returned: a transport error's text, or the request. */
  datatype StatusQuery = QueryFailed(err: string) | QueryOk(request: Request)

  /** The SDK's status query, as the function from request path to its answer. */
  type StatusLookup = string -> StatusQuery

  const StatusFailed: string := "FAILED"
  const StatusDone: string := "DONE"
  const EmptyPathMessage: string := "Can not check a state when path is empty"
  const RequestFailedPrefix: string := "Request failed with following error: "

  /** The five ways one refresh can end. */
  datatype RefreshOutcome =
    | PathError
    | TransportError(msg: string)
    | RemoteFailed(msg: string)
    | Done(payload: Request)
    | InProgress(status: string)

  /**
   * One refresh of the request at `path`. An empty path is refused before
   * anything is queried; otherwise the one query for `path` is classified.
   */
  function Refresh(path: string, lookup: StatusLookup): (o: RefreshOutcome)
    ensures o.PathError? <==> path == ""
    ensures o.TransportError? <==> path != "" && lookup(path).QueryFailed?
    ensures o.TransportError? ==> o.msg == lookup(path).err
    ensures o.RemoteFailed? <==>
              path != "" && lookup(path).QueryOk? && lookup(path).request.metadata.status == StatusFailed
    ensures o.RemoteFailed? ==> o.msg == lookup(path).request.metadata.message
    ensures o.Done? <==>
              path != "" && lookup(path).QueryOk? && lookup(path).request.metadata.status == StatusDone
    ensures o.Done? ==> o.payload == lookup(path).request
    ensures o.InProgress? ==>
              && path != "" && lookup(path).QueryOk?
              && o.status == lookup(path).request.metadata.status
              && o.status != StatusFailed && o.status != StatusDone
  {
    if path == "" then PathError
    else
      match lookup(path)
      case QueryFailed(err) => TransportError(err)
      case QueryOk(request) =>
        if request.metadata.status == StatusFailed then RemoteFailed(request.metadata.message)
        else if request.metadata.status == StatusDone then Done(request)
        else InProgress(request.metadata.status)
  }

  /** The three values the refresh closure hands back: result, state label, error. */
  datatype RefreshTriple = RefreshTriple(result: Option<Request>, state: string, err: Option<string>)

  /**
   * The outcome as the wait loop sees it. Both failing queries and remotely
   * failed requests are reported with the same message prefix.
   */
  function ToTriple(o: RefreshOutcome): (t: RefreshTriple)
    ensures t.err.Some? <==> o.PathError? || o.TransportError? || o.RemoteFailed?
    ensures t.err.Some? ==> t.result == None && t.state == ""
    ensures o.PathError? ==> t.err == Some(EmptyPathMessage)
    ensures o.TransportError? ==> t.err == Some(RequestFailedPrefix + o.msg)
    ensures o.RemoteFailed? ==> t.err == Some(RequestFailedPrefix + o.msg)
    ensures o.Done? ==> t == RefreshTriple(Some(o.payload), StatusDone, None)
    ensures o.InProgress? ==> t == RefreshTriple(None, o.status, None)
  {
    match o
    case PathError => RefreshTriple(None, "", Some(EmptyPathMessage))
    case TransportError(msg) => RefreshTriple(None, "", Some(RequestFailedPrefix + msg))
    case RemoteFailed(msg) => RefreshTriple(None, "", Some(RequestFailedPrefix + msg))
    case Done(payload) => RefreshTriple(Some(payload), StatusDone, None)
    case InProgress(status) => RefreshTriple(None, status, None)
  }

  /** The refresh closure's return values for `path`. */
  function RefreshResult(path: string, lookup: StatusLookup): (t: RefreshTriple)
    ensures t.err.Some? ==> t.result == None && t.state == "" && |t.err.value| > 0
    ensures t.err.None? ==> path != "" && lookup(path).QueryOk?
                            && t.state == lookup(path).request.metadata.status
    ensures t.result.Some? <==> t.err.None? && t.state == StatusDone
    ensures t.result.Some? ==> t.result.value == lookup(path).request
  {
    ToTriple(Refresh(path, lookup))
  }

  /**
   * An empty path is answered with the fixed path error whatever the status
   * query would have said: the query is not consulted.
   */
  lemma EmptyPathConsultsNothing(lookup1: StatusLookup, lookup2: StatusLookup)
    ensures Refresh("", lookup1) == Refresh("", lookup2) == PathError
    ensures RefreshResult("", lookup1) == RefreshTriple(None, "", Some(EmptyPathMessage))
  {
  }

  /**
   * For a non-empty path only the answer for that very path matters: the
   * refresh issues exactly that one query.
   */
  lemma RefreshQueriesOnlyItsPath(path: string, lookup1: StatusLookup, lookup2: StatusLookup)
    requires lookup1(path) == lookup2(path)
    ensures Refresh(path, lookup1) == Refresh(path, lookup2)
  {
  }

  /**
   * Every status other than FAILED and DONE, known or not, leaves the request
   * in progress, labelled with the raw status and with no error.
   */
  lemma UnknownStatusIsInProgress(path: string, lookup: StatusLookup)
    requires path != "" && lookup(path).QueryOk?
    requires lookup(path).request.metadata.status !in {StatusFailed, StatusDone}
    ensures RefreshResult(path, lookup) ==
              RefreshTriple(None, lookup(path).request.metadata.status, None)
  {
  }

  /**
   * The returned triple does not tell a failed status query from a request
   * the API reports as FAILED: for every path and every text there is a
   * transport error and a remote failure with identical return values.
   */
  lemma TransportAndRemoteFailureLookAlike(path: string, text: string)
    requires path != ""
    ensures exists lookup1: StatusLookup, lookup2: StatusLookup ::
              && Refresh(path, lookup1).TransportError?
              && Refresh(path, lookup2).RemoteFailed?
              && RefreshResult(path, lookup1) == RefreshResult(path, lookup2)
  {
    var lookup1: StatusLookup := p => QueryFailed(text);
    var lookup2: StatusLookup := p => QueryOk(Request("", RequestMetadata(StatusFailed, text)));
    assert Refresh(path, lookup1) == TransportError(text);
    assert Refresh(path, lookup2) == RemoteFailed(text);
  }

  /**
   * No caller can tell the two failure kinds apart from the return values: a
   * failed query and a request reported FAILED with the same text give the
   * same triple, whatever else the lookups answer.
   */
  lemma TransportAndRemoteFailureIndistinguishable(
    path: string, text: string, id: string, lookup1: StatusLookup, lookup2: StatusLookup)
    requires path != ""
    requires lookup1(path) == QueryFailed(text)
    requires lookup2(path) == QueryOk(Request(id, RequestMetadata(StatusFailed, text)))
    ensures RefreshResult(path, lookup1) == RefreshResult(path, lookup2)
  {
  }
}
