/**
 * The `/monitor` statistics HTTP handler: how it reads the `prefix` and
 * `format` URL arguments, which statistics renderer it runs, and what it
 * lets the access log see of its answer.
 *
 * The renderers themselves are foreign code; the model records which one
 * was called, on which storage and with which statistics request, and
 * stands their output in by an opaque value built from that call.
 */
module ServerMonitorHandler {
  import opened Wrappers

  // ---------------------------------------------------------------------
  // Data model
  // ---------------------------------------------------------------------

  /** Output format of the statistics dump. */
  datatype StatsFormat = Internal | Graphite | Prometheus | PrometheusUntyped

  /** An HTTP 400 error whose body is shown to the client verbatim. */
  datatype ClientError = ClientError(externalBody: string)

  /** The body of the error raised for an unrecognised `format` argument. */
  const UnknownFormatMessage: string := "Unknown value of 'format' URL parameter"

  /** Every spelling of the `format` argument that the handler accepts. */
  const AcceptedFormats: set<string> :=
    {"graphite", "prometheus", "prometheus-untyped", "internal", ""}

  /** The four statistics serialisers the handler can hand a request to. */
  datatype Renderer = GraphiteText | PrometheusText | PrometheusUntypedText | InternalJson

  /**
   * The request passed to a renderer. The handler sets only `prefix`;
   * every other field keeps its default and is not modelled.
   */
  datatype StatisticsRequest = StatisticsRequest(prefix: string)

  /** Identity of the statistics storage a monitor was wired to. */
  datatype StorageRef = StorageRef(id: nat)

  /** A `/monitor` handler instance: it only holds its statistics storage. */
  datatype ServerMonitor = ServerMonitor(storage: StorageRef)

  /** The part of an incoming HTTP request the handler reads: its URL arguments. */
  datatype HttpRequest = HttpRequest(args: map<string, string>)

  /** Per-request context the handler receives and ignores. */
  datatype RequestContext = RequestContext(id: nat)

  /** One call of a renderer: which one, over which storage, with which request. */
  datatype RenderCall = RenderCall(renderer: Renderer, storage: StorageRef, request: StatisticsRequest)

  /** The text a renderer produces, left opaque: it is determined by the call. */
  datatype StatisticsBody = Rendered(call: RenderCall)

  /** How control leaves the `switch`: by a `return`, or past its end. */
  datatype SwitchExit = Returned(call: RenderCall) | FellThrough

  /**
   * What handling one request amounts to: the renderer calls it made, in
   * order, and the response body or the error it threw.
   */
  datatype Handled = Handled(calls: seq<RenderCall>, response: Result<StatisticsBody, ClientError>)

  // ---------------------------------------------------------------------
  // Reference definitions
  // ---------------------------------------------------------------------

  /** The canonical spelling of each format. */
  function FormatName(f: StatsFormat): string
  {
    match f
    case Internal => "internal"
    case Graphite => "graphite"
    case Prometheus => "prometheus"
    case PrometheusUntyped => "prometheus-untyped"
  }

  /** The format a renderer produces. */
  function Serves(r: Renderer): StatsFormat
  {
    match r
    case GraphiteText => Graphite
    case PrometheusText => Prometheus
    case PrometheusUntypedText => PrometheusUntyped
    case InternalJson => Internal
  }

  /** The renderer the handler is meant to pick for each accepted `format` argument. */
  const RendererByArg: map<string, Renderer> :=
    map["graphite" := GraphiteText,
        "prometheus" := PrometheusText,
        "prometheus-untyped" := PrometheusUntypedText,
        "internal" := InternalJson,
        "" := InternalJson]

  // ---------------------------------------------------------------------
  // Operations
  // ---------------------------------------------------------------------

  /**
   * The value of a URL argument, or the empty string when the request
   * does not carry it.
   */
  function GetArg(request: HttpRequest, name: string): (v: string)
    ensures name in request.args ==> v == request.args[name]
    ensures name !in request.args ==> v == ""
  {
    if name in request.args then request.args[name] else ""
  }

  /**
   * Maps the `format` argument onto a format by exact comparison; the
   * empty string means the internal JSON format. Anything else is a
   * client error.
   */
  function ParseFormat(format: string): (r: Result<StatsFormat, ClientError>)
    ensures r.Success? <==> format in AcceptedFormats
    ensures r.Failure? ==> r.error == ClientError(UnknownFormatMessage)
    ensures r.Success? ==> (r.value == Internal <==> format in {"internal", ""})
    ensures r.Success? && format != "" ==> format == FormatName(r.value)
  {
    if format == "graphite" then Success(Graphite)
    else if format == "prometheus" then Success(Prometheus)
    else if format == "prometheus-untyped" then Success(PrometheusUntyped)
    else if format == "internal" || |format| == 0 then Success(Internal)
    else Failure(ClientError(UnknownFormatMessage))
  }

  /**
   * The `switch` over the parsed format: every format has a case, and
   * each case returns the call of the renderer that serves that format.
   * Control therefore never reaches the invariant failure after it.
   */
  function Dispatch(format: StatsFormat, storage: StorageRef, request: StatisticsRequest): (exit: SwitchExit)
    ensures exit.Returned?
    ensures Serves(exit.call.renderer) == format
    ensures exit.call.storage == storage && exit.call.request == request
  {
    match format
    case Graphite => Returned(RenderCall(GraphiteText, storage, request))
    case Prometheus => Returned(RenderCall(PrometheusText, storage, request))
    case PrometheusUntyped => Returned(RenderCall(PrometheusUntypedText, storage, request))
    case Internal => Returned(RenderCall(InternalJson, storage, request))
  }

  /**
   * Handles one `/monitor` request: copies `prefix` into a statistics
   * request, parses `format`, and returns what the chosen renderer
   * produces over the monitor's storage. An unknown format is thrown
   * before any renderer is called.
   */
  function HandleRequestThrow(monitor: ServerMonitor, request: HttpRequest, context: RequestContext): (h: Handled)
    ensures h.response.Success? <==> GetArg(request, "format") in AcceptedFormats
    ensures h.response.Failure? ==>
      h.calls == [] && h.response.error == ClientError(UnknownFormatMessage)
    ensures h.response.Success? ==>
      |h.calls| == 1 && h.response.value == Rendered(h.calls[0])
    ensures h.response.Success? ==>
      && Success(Serves(h.calls[0].renderer)) == ParseFormat(GetArg(request, "format"))
      && h.calls[0].storage == monitor.storage
      && h.calls[0].request.prefix == GetArg(request, "prefix")
  {
    var statisticsRequest := StatisticsRequest(GetArg(request, "prefix"));
    match ParseFormat(GetArg(request, "format"))
    case Failure(e) => Handled([], Failure(e))
    case Success(format) =>
      var call := Dispatch(format, monitor.storage, statisticsRequest).call;
      Handled([call], Success(Rendered(call)))
  }

  /** The body written to the access log in place of the statistics dump. */
  const StatisticsDataPlaceholder: string := "<statistics data>"

  /** What the access log records of a `/monitor` response. */
  function GetResponseDataForLogging(request: HttpRequest, context: RequestContext, responseData: string): (r: string)
    ensures r == StatisticsDataPlaceholder
  {
    StatisticsDataPlaceholder
  }

  // ---------------------------------------------------------------------
  // Properties of ParseFormat
  // ---------------------------------------------------------------------

  /** The known names parse to their formats; matching is exact, not by prefix. */
  lemma ParseFormatKnownNames()
    ensures ParseFormat("graphite") == Success(Graphite)
    ensures ParseFormat("prometheus") == Success(Prometheus)
    ensures ParseFormat("prometheus-untyped") == Success(PrometheusUntyped)
    ensures ParseFormat("prometheus-untyped") != Success(Prometheus)
  {
  }

  /** A request without a `format` argument gets the internal JSON format. */
  lemma ParseFormatDefaultsToInternal(request: HttpRequest)
    requires "format" !in request.args
    ensures ParseFormat(GetArg(request, "format")) == Success(Internal)
    ensures ParseFormat("internal") == ParseFormat("")
  {
  }

  /** Parsing the canonical name of a format gives that format back. */
  lemma ParseFormatName(f: StatsFormat)
    ensures ParseFormat(FormatName(f)) == Success(f)
  {
  }

  /** Exactly two strings mean the internal format and exactly one means each other format. */
  lemma ParseFormatPreimage(s: string, f: StatsFormat)
    ensures ParseFormat(s) == Success(f) <==> (s == FormatName(f) || (f == Internal && s == ""))
  {
  }

  /** Every format is produced by some accepted input. */
  lemma ParseFormatOnto(f: StatsFormat)
    ensures exists s :: ParseFormat(s) == Success(f)
  {
    ParseFormatName(f);
  }

  // ---------------------------------------------------------------------
  // Properties of the dispatch
  // ---------------------------------------------------------------------

  /** Distinct formats go to distinct renderers. */
  lemma DispatchInjective(f: StatsFormat, g: StatsFormat, storage: StorageRef, request: StatisticsRequest)
    requires f != g
    ensures Dispatch(f, storage, request).call.renderer != Dispatch(g, storage, request).call.renderer
  {
  }

  /** Every renderer is reached from some format. */
  lemma DispatchOnto(r: Renderer, storage: StorageRef, request: StatisticsRequest)
    ensures exists f :: Dispatch(f, storage, request).call.renderer == r
  {
    var f := Serves(r);
    assert Dispatch(f, storage, request).call.renderer == r;
  }

  // ---------------------------------------------------------------------
  // Properties of the handler
  // ---------------------------------------------------------------------

  /**
   * The whole handler against the reference table: an accepted `format`
   * makes exactly the call of the renderer the table names, with the
   * `prefix` argument unchanged; any other `format` makes no call at all.
   */
  lemma HandleRequestMatchesTable(monitor: ServerMonitor, request: HttpRequest, context: RequestContext)
    ensures GetArg(request, "format") in RendererByArg ==>
      var call := RenderCall(RendererByArg[GetArg(request, "format")], monitor.storage,
                             StatisticsRequest(GetArg(request, "prefix")));
      HandleRequestThrow(monitor, request, context) == Handled([call], Success(Rendered(call)))
    ensures GetArg(request, "format") !in RendererByArg ==>
      HandleRequestThrow(monitor, request, context) == Handled([], Failure(ClientError(UnknownFormatMessage)))
  {
  }

  /** Every renderer is the one some request is sent to. */
  lemma EveryRendererReachable(monitor: ServerMonitor, context: RequestContext, r: Renderer, prefix: string)
    ensures exists request :: HandleRequestThrow(monitor, request, context).calls
                              == [RenderCall(r, monitor.storage, StatisticsRequest(prefix))]
  {
    var request := HttpRequest(map["format" := FormatName(Serves(r)), "prefix" := prefix]);
    assert GetArg(request, "format") == FormatName(Serves(r));
    assert GetArg(request, "prefix") == prefix;
    ParseFormatName(Serves(r));
    var h := HandleRequestThrow(monitor, request, context);
    assert h.calls == [RenderCall(r, monitor.storage, StatisticsRequest(prefix))];
  }

  /** Only the `format` and `prefix` arguments influence the handler. */
  lemma HandleRequestReadsOnlyFormatAndPrefix(monitor: ServerMonitor, a: HttpRequest, b: HttpRequest,
                                              ca: RequestContext, cb: RequestContext)
    requires GetArg(a, "format") == GetArg(b, "format")
    requires GetArg(a, "prefix") == GetArg(b, "prefix")
    ensures HandleRequestThrow(monitor, a, ca) == HandleRequestThrow(monitor, b, cb)
  {
  }

  /** The logged body is the same placeholder whatever the request, context and response. */
  lemma LoggedDataIgnoresResponse(a: HttpRequest, b: HttpRequest, ca: RequestContext, cb: RequestContext,
                                  da: string, db: string)
    ensures GetResponseDataForLogging(a, ca, da) == GetResponseDataForLogging(b, cb, db) == "<statistics data>"
  {
  }
}
