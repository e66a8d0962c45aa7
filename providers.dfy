/**
  The two Nominatim adapters, OpenStreetMapGeocoder (the free instance) and
  NominatimMapquestGeocoder (the MapQuest-hosted instance that needs a key):
  their names, their endpoint table, their errors and their construction.
*/
module Providers {
  import opened Wrappers
  import opened JsonValues

  /** The adapter classes a caller can construct. */
  datatype ProviderKind = OpenStreetMapGeocoder | NominatimMapquestGeocoder

  /** Forward geocoding goes to the search endpoint, reverse geocoding to the reverse one. */
  datatype Operation = Search | Reverse

  /** What a constructed adapter holds about its provider; the MapQuest one keeps its key. */
  datatype Provider = OpenStreetMap | NominatimMapquest(apiKey: Json) {
    function Kind(): ProviderKind {
      if OpenStreetMap? then OpenStreetMapGeocoder else NominatimMapquestGeocoder
    }
  }

  /** The injected HTTP adapter; only whether one was given matters before a request. */
  datatype HttpAdapter = HttpAdapter

  /** A constructed adapter: its provider and the constructor extras every request starts from. */
  datatype Adapter = Adapter(provider: Provider, extra: Params)

  datatype IpVersion = IPv4 | IPv6

  datatype Error =
    | MissingDependency(kind: ProviderKind)                        // no HTTP adapter at construction
    | MissingCredential(kind: ProviderKind)                        // no apiKey at construction
    | UnsupportedQueryKind(kind: ProviderKind, version: IpVersion)  // an IP literal given to geocode
    | MalformedResponse(kind: ProviderKind)                        // a response of the wrong shape
    | Transport(cause: Json)                                       // the HTTP adapter's own error, verbatim

  function ClassName(kind: ProviderKind): string {
    match kind
    case OpenStreetMapGeocoder => "OpenStreetMapGeocoder"
    case NominatimMapquestGeocoder => "NominatimMapquestGeocoder"
  }

  /** The text of the errors thrown synchronously; each starts with the adapter's class name. */
  function Message(e: Error): (m: string)
    requires e.MissingDependency? || e.MissingCredential? || e.UnsupportedQueryKind?
    ensures ClassName(e.kind) + " " <= m
  {
    ClassName(e.kind) + " " +
      match e
      case MissingDependency(_) => "need an httpAdapter"
      case MissingCredential(_) => "needs an apiKey"
      case UnsupportedQueryKind(_, IPv4) => "does not support geocoding IPv4"
      case UnsupportedQueryKind(_, IPv6) => "does not support geocoding IPv6"
  }

  /** The Nominatim service root each adapter talks to. */
  function BaseUrl(kind: ProviderKind): string {
    match kind
    case OpenStreetMapGeocoder => "http://nominatim.openstreetmap.org/"
    case NominatimMapquestGeocoder => "http://open.mapquestapi.com/nominatim/v1/"
  }

  /** The path of an operation below the service root. */
  function OperationPath(op: Operation): string {
    match op
    case Search => "search"
    case Reverse => "reverse"
  }

  /** The fixed endpoint table: each URL is the adapter's service root followed by the operation's path. */
  function Endpoint(kind: ProviderKind, op: Operation): (url: string)
    ensures url == BaseUrl(kind) + OperationPath(op)
  {
    match (kind, op)
    case (OpenStreetMapGeocoder, Search) => "http://nominatim.openstreetmap.org/search"
    case (OpenStreetMapGeocoder, Reverse) => "http://nominatim.openstreetmap.org/reverse"
    case (NominatimMapquestGeocoder, Search) => "http://open.mapquestapi.com/nominatim/v1/search"
    case (NominatimMapquestGeocoder, Reverse) => "http://open.mapquestapi.com/nominatim/v1/reverse"
  }

  /** The constructor options carry a truthy `apiKey`. */
  predicate HasApiKey(options: Option<Params>) {
    options.Some? && "apiKey" in options.value && Truthy(options.value["apiKey"])
  }

  /** The options that become default request parameters; the MapQuest key is sent as `key` instead. */
  function Extras(kind: ProviderKind, options: Option<Params>): (extra: Params)
    ensures options.None? ==> extra == map[]
    ensures options.Some? ==> extra.Keys <= options.value.Keys && forall k :: k in extra ==> extra[k] == options.value[k]
    ensures options.Some? ==> forall k :: k in options.value && (kind == OpenStreetMapGeocoder || k != "apiKey") ==> k in extra
    ensures kind == NominatimMapquestGeocoder ==> "apiKey" !in extra
  {
    var given := if options.Some? then options.value else map[];
    if kind == NominatimMapquestGeocoder then given - {"apiKey"} else given
  }

  /** What every constructed adapter satisfies. */
  predicate Ready(a: Adapter) {
    a.provider.NominatimMapquest? ==> Truthy(a.provider.apiKey) && "apiKey" !in a.extra
  }

  /** `new Kind(httpAdapter, options)`: the HTTP adapter is checked first, then the MapQuest key. */
  function Construct(kind: ProviderKind, http: Option<HttpAdapter>, options: Option<Params>): (r: Result<Adapter, Error>)
    ensures http.None? ==> r == Failure(MissingDependency(kind))
    ensures http.Some? && kind == NominatimMapquestGeocoder && !HasApiKey(options) ==> r == Failure(MissingCredential(kind))
    ensures r.Success? <==> http.Some? && (kind == NominatimMapquestGeocoder ==> HasApiKey(options))
    ensures r.Success? ==> Ready(r.value) && r.value.provider.Kind() == kind && r.value.extra == Extras(kind, options)
    ensures r.Success? && kind == NominatimMapquestGeocoder ==> r.value.provider.apiKey == options.value["apiKey"]
  {
    if http.None? then Failure(MissingDependency(kind))
    else
      match kind
      case OpenStreetMapGeocoder => Success(Adapter(OpenStreetMap, Extras(kind, options)))
      case NominatimMapquestGeocoder =>
        if HasApiKey(options) then Success(Adapter(NominatimMapquest(options.value["apiKey"]), Extras(kind, options)))
        else Failure(MissingCredential(kind))
  }
}
