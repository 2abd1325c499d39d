/** The request dispatch bridge of the Bun server (`createBunHandler`): it maps
    request paths to RPC handlers, chooses the body modes, adapts the bodies on
    both sides, runs the handler and turns its outcome into a native response. */
module Bridge {
  import opened Chunks
  import opened Decision
  import opened Adapters

  type Headers = seq<(string, string)>

  /** The protocol-level request a handler is invoked with. The cancellation
      signal is not part of this model. */
  datatype UniversalRequest = UniversalRequest(
    httpVersion: string, url: string, httpMethod: string, header: Headers, body: ChunkSeq)

  /** The protocol-level response; `body` is `None` when the handler gives none. */
  datatype UniversalResponse = UniversalResponse(status: int, header: Headers, body: Option<ChunkSeq>)

  /** A handler either returns a response or raises a fault (which includes a
      fault raised while it iterates the inbound sequence). */
  datatype HandlerResult = Returned(response: UniversalResponse) | Raised(error: Error)

  type UniversalHandler = UniversalRequest -> HandlerResult

  /** One entry of `router.handlers`. */
  datatype Route = Route(requestPath: string, kind: MethodKind, handler: UniversalHandler)

  /** A native request body is `null` or a readable stream. */
  datatype RequestBody = NullBody | Readable(stream: SettledStream)

  /** The native request; `pathname` is the path part of `url`, and
      `contentLength` the `content-length` header after `Number(...)`. */
  datatype NativeRequest = NativeRequest(
    url: string, pathname: string, httpMethod: string, headers: Headers,
    contentLength: ContentLength, body: RequestBody)

  /** A native response body: none, the fixed text of a bridge-level response,
      one buffer, or a stream (given by the state its controller ends in). */
  datatype ResponseBody = NoBody | Text(text: string) | Buffered(bytes: Bytes) | Streamed(stream: StreamState)

  datatype NativeResponse = NativeResponse(status: int, headers: Headers, body: ResponseBody)

  /** The outcome of one request: the response, and the request the handler
      was invoked with, if it was invoked. */
  datatype Exchange = Exchange(response: NativeResponse, handlerCall: Option<UniversalRequest>)

  const NOT_FOUND := NativeResponse(404, [], Text("Not Found"))
  const INTERNAL_ERROR := NativeResponse(500, [], Text("Internal Server Error"))

  /** The route map after `routeMap.set` was called for each route in turn. */
  function RouteMap(routes: seq<Route>): map<string, Route>
  {
    if routes == [] then map[]
    else
      var last := routes[|routes| - 1];
      RouteMap(routes[..|routes| - 1])[last.requestPath := last]
  }

  /** Builds the route map with a loop over `router.handlers`. */
  method BuildRouteMap(routes: seq<Route>) returns (routeMap: map<string, Route>)
    ensures routeMap == RouteMap(routes)
    ensures routeMap.Keys == set i | 0 <= i < |routes| :: routes[i].requestPath
  {
    routeMap := map[];
    for i := 0 to |routes|
      invariant routeMap == RouteMap(routes[..i])
    {
      assert routes[..i + 1][..i] == routes[..i];
      routeMap := routeMap[routes[i].requestPath := routes[i]];
    }
    assert routes[..|routes|] == routes;
    forall p ensures p in routeMap <==> p in set i | 0 <= i < |routes| :: routes[i].requestPath {
      RouteMapKeys(routes, p);
    }
  }

  /** A path is routed exactly when some route registers it. */
  lemma {:induction false} RouteMapKeys(routes: seq<Route>, p: string)
    ensures p in RouteMap(routes) <==> exists i :: 0 <= i < |routes| && routes[i].requestPath == p
  {
    if routes != [] {
      var init := routes[..|routes| - 1];
      RouteMapKeys(init, p);
      if p in RouteMap(init) {
        var i :| 0 <= i < |init| && init[i].requestPath == p;
        assert routes[i].requestPath == p;
      }
      if exists i :: 0 <= i < |routes| && routes[i].requestPath == p {
        var i :| 0 <= i < |routes| && routes[i].requestPath == p;
        if i < |init| {
          assert init[i].requestPath == p;
        }
      }
    }
  }

  /** When several routes share a path, the last of them is the one used. */
  lemma {:induction false} LaterRouteWins(routes: seq<Route>, i: nat)
    requires i < |routes|
    requires forall j :: i < j < |routes| ==> routes[j].requestPath != routes[i].requestPath
    ensures routes[i].requestPath in RouteMap(routes)
    ensures RouteMap(routes)[routes[i].requestPath] == routes[i]
  {
    var init := routes[..|routes| - 1];
    if i < |routes| - 1 {
      LaterRouteWins(init, i);
    }
  }

  /** The inbound chunk sequence the handler sees. */
  function InboundBody(body: RequestBody, useStreamInput: bool): (r: Result<ChunkSeq>)
    // no body: an empty sequence in either mode
    ensures body.NullBody? ==> r == Ok(AsyncSeq([], Done))
    // stream mode: exactly the stream's chunks, in order, ending as the stream does
    ensures body.Readable? && useStreamInput ==>
      r.Ok? && r.value.items == body.stream.enqueued && Settled(r.value) == body.stream
    // buffered mode: one chunk with the whole body, or the fault of reading it
    ensures body.Readable? && !useStreamInput ==>
      (r.Ok? <==> body.stream.Closed?) &&
      (r.Ok? ==> r.value == AsyncSeq([Concat(body.stream.enqueued)], Done)) &&
      (r.Err? ==> r.error == body.stream.error)
  {
    match body
    case NullBody => Ok(AsyncSeq([], Done))
    case Readable(stream) =>
      if useStreamInput then Ok(StreamToIterable(stream))
      else match ReadAll(stream)
        case Ok(bytes) => Ok(BufferToIterable(bytes))
        case Err(e) => Err(e)
  }

  /** The native response body built from the handler's body. */
  function OutboundBody(body: Option<ChunkSeq>, useStreamOutput: bool): (r: Result<ResponseBody>)
    ensures body.None? ==> r == Ok(NoBody)
    // stream mode never fails here: a fault puts the stream into its error state
    ensures body.Some? && useStreamOutput ==>
      r.Ok? && r.value.Streamed? && r.value.stream.enqueued == body.value.items &&
      r.value.stream == Settled(body.value)
    ensures body.Some? && !useStreamOutput ==>
      (r.Ok? <==> body.value.end.Done?) &&
      (r.Ok? ==> r.value == Buffered(Concat(body.value.items)))
  {
    match body
    case None => Ok(NoBody)
    case Some(it) =>
      if useStreamOutput then Ok(Streamed(Settled(it)))
      else match Materialized(it)
        case Ok(bytes) => Ok(Buffered(bytes))
        case Err(e) => Err(e)
  }

  /** Whether the `Response` constructor accepts a status: the Fetch Standard
      has it throw a `RangeError` for any status outside 200 to 599. */
  predicate ValidStatus(status: int)
  {
    200 <= status <= 599
  }

  /** The handler returned by `createBunHandler`, applied to one request. */
  function Handle(routeMap: map<string, Route>, req: NativeRequest): (x: Exchange)
    // an unknown path gives 404 and the handler is not invoked
    ensures req.pathname !in routeMap ==> x == Exchange(NOT_FOUND, None)
    ensures req.pathname in routeMap ==> x.response != NOT_FOUND
    // a routed request either reaches its handler or is answered with 500
    ensures req.pathname in routeMap ==> x.handlerCall.Some? || x.response == INTERNAL_ERROR
    // the handler is invoked, with the built request, exactly when the inbound body builds
    ensures req.pathname in routeMap ==>
      var inbound := InboundBody(req.body, Decide(routeMap[req.pathname].kind, req.contentLength).useStreamInput);
      && (x.handlerCall.Some? <==> inbound.Ok?)
      && (inbound.Ok? ==>
            x.handlerCall == Some(UniversalRequest("2.0", req.url, req.httpMethod, req.headers, inbound.value)))
    // the handler sees the request's URL, method and headers, and the inbound body in the chosen mode
    ensures x.handlerCall.Some? ==>
      && req.pathname in routeMap
      && InboundBody(req.body, Decide(routeMap[req.pathname].kind, req.contentLength).useStreamInput)
         == Ok(x.handlerCall.value.body)
      && x.handlerCall.value == UniversalRequest("2.0", req.url, req.httpMethod, req.headers,
                                                   x.handlerCall.value.body)
    // every response is a bridge-level one or carries the handler's status and headers
    ensures x.response == NOT_FOUND || x.response == INTERNAL_ERROR ||
      (x.handlerCall.Some? &&
       var res := routeMap[req.pathname].handler(x.handlerCall.value);
       res.Returned? && x.response.status == res.response.status &&
       x.response.headers == res.response.header)
    // a success carries the handler's status, headers and body, adapted in the decided output mode
    ensures req.pathname in routeMap ==>
      var route := routeMap[req.pathname];
      var d := Decide(route.kind, req.contentLength);
      var inbound := InboundBody(req.body, d.useStreamInput);
      inbound.Ok? ==>
        var call := UniversalRequest("2.0", req.url, req.httpMethod, req.headers, inbound.value);
        var res := route.handler(call);
        res.Returned? ==>
          var out := OutboundBody(res.response.body, d.useStreamOutput);
          out.Ok? && ValidStatus(res.response.status) ==>
            x == Exchange(NativeResponse(res.response.status, res.response.header, out.value), Some(call))
  {
    if req.pathname !in routeMap then
      Exchange(NOT_FOUND, None)
    else
      var route := routeMap[req.pathname];
      var d := Decide(route.kind, req.contentLength);
      match InboundBody(req.body, d.useStreamInput)
      case Err(_) => Exchange(INTERNAL_ERROR, None)
      case Ok(reqBody) =>
        var call := UniversalRequest("2.0", req.url, req.httpMethod, req.headers, reqBody);
        match route.handler(call)
        case Raised(_) => Exchange(INTERNAL_ERROR, Some(call))
        case Returned(res) =>
          match OutboundBody(res.body, d.useStreamOutput)
          case Err(_) => Exchange(INTERNAL_ERROR, Some(call))
          case Ok(resBody) =>
            if !ValidStatus(res.status) then Exchange(INTERNAL_ERROR, Some(call))
            else Exchange(NativeResponse(res.status, res.header, resBody), Some(call))
  }

  /** For a routed request, 500 comes back exactly when reading the buffered
      body, running the handler or materializing its body raised a fault, or
      the `Response` constructor rejected the handler's status. */
  lemma InternalErrorIffFault(routeMap: map<string, Route>, req: NativeRequest)
    requires req.pathname in routeMap
    ensures
      var route := routeMap[req.pathname];
      var d := Decide(route.kind, req.contentLength);
      var inbound := InboundBody(req.body, d.useStreamInput);
      var x := Handle(routeMap, req);
      x.response == INTERNAL_ERROR <==>
        || inbound.Err?
        || route.handler(x.handlerCall.value).Raised?
        || OutboundBody(route.handler(x.handlerCall.value).response.body, d.useStreamOutput).Err?
        || !ValidStatus(route.handler(x.handlerCall.value).response.status)
  {
  }

  /** A successful unary or client-streaming call answers with one buffer
      holding every chunk of the handler's body; a successful server- or
      bidi-streaming call answers with a closed stream of exactly those chunks. */
  lemma SuccessResponseBody(routeMap: map<string, Route>, req: NativeRequest)
    requires req.pathname in routeMap
    requires Handle(routeMap, req).handlerCall.Some?
    ensures
      var route := routeMap[req.pathname];
      var x := Handle(routeMap, req);
      var res := route.handler(x.handlerCall.value);
      res.Returned? && ValidStatus(res.response.status) &&
      res.response.body.Some? && res.response.body.value.end.Done? ==>
        x.response.status == res.response.status &&
        x.response.body ==
          if route.kind == ServerStreaming || route.kind == BiDiStreaming
          then Streamed(Closed(res.response.body.value.items))
          else Buffered(Concat(res.response.body.value.items))
  {
  }

  /** With a streamed response a fault while producing the body never becomes
      a 500: the response keeps the handler's status and its stream errors. */
  lemma StreamedFaultKeepsStatus(routeMap: map<string, Route>, req: NativeRequest)
    requires req.pathname in routeMap
    requires Decide(routeMap[req.pathname].kind, req.contentLength).useStreamOutput
    requires Handle(routeMap, req).handlerCall.Some?
    ensures
      var res := routeMap[req.pathname].handler(Handle(routeMap, req).handlerCall.value);
      var x := Handle(routeMap, req);
      res.Returned? && ValidStatus(res.response.status) &&
      res.response.body.Some? && res.response.body.value.end.Throw? ==>
        x.response.status == res.response.status && x.response.body.Streamed? &&
        x.response.body.stream == Errored(res.response.body.value.items, res.response.body.value.end.error)
  {
  }

  /** What a handler gets by draining its inbound body, or the fault that
      prevented the body from being built. */
  function Drain(inbound: Result<ChunkSeq>): Result<Bytes>
  {
    match inbound
    case Ok(it) => Materialized(it)
    case Err(e) => Err(e)
  }

  /** Inbound mode is invisible to a handler that drains its body: both modes
      give the same bytes, or the same fault. */
  lemma InboundModeAgnostic(body: RequestBody)
    ensures
      Drain(InboundBody(body, true)) == Drain(InboundBody(body, false))
  {
    if body.Readable? && body.stream.Closed? {
      ConcatSingleton(Concat(body.stream.enqueued));
    }
  }

  /** Outbound mode is invisible to the client that reads the whole body: a
      closed stream delivers exactly the bytes the buffered body would hold. */
  lemma OutboundModeAgnostic(it: ChunkSeq)
    ensures
      var s := OutboundBody(Some(it), true).value.stream;
      var b := OutboundBody(Some(it), false);
      (s.Closed? <==> b.Ok?) && (b.Ok? ==> Concat(s.enqueued) == b.value.bytes)
  {
  }
}
