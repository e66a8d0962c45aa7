/**
  The adapter operations, geocode and reverse: validate, build the request,
  make the one HTTP call, and turn its answer into what the caller's callback
  receives.
*/
module Geocoders {
  import opened Wrappers
  import opened JsonValues
  import opened IpLiterals
  import opened Providers
  import opened Requests
  import opened Normalizer

  /** What the HTTP adapter passes to its callback: an error (falsy on success) and the decoded body. */
  datatype HttpReply = HttpReply(err: Json, body: Json)

  /** The arguments of the caller's callback. */
  datatype Completion =
    | Delivered(err: Json, results: ResultSet)  // err is the HTTP adapter's falsy error, passed through
    | Failed(error: Error)                       // results undefined

  /** A call either throws before any request, or sends exactly one request and completes. */
  datatype Outcome =
    | Thrown(error: Error)
    | Sent(request: HttpRequest, completion: Completion)

  /** The requests a call hands to the HTTP adapter. */
  function RequestsSent(o: Outcome): (sent: seq<HttpRequest>)
    ensures |sent| <= 1
    ensures o.Thrown? <==> sent == []
  {
    match o
    case Thrown(_) => []
    case Sent(request, _) => [request]
  }

  /** The callback's arguments for the HTTP adapter's reply: a truthy error stops before normalization. */
  function Complete(kind: ProviderKind, op: Operation, reply: HttpReply): (c: Completion)
    ensures Truthy(reply.err) ==> c == Failed(Transport(reply.err))
    ensures !Truthy(reply.err) ==> (c.Delivered? <==> WellShaped(op, reply.body))
    ensures !Truthy(reply.err) && !WellShaped(op, reply.body) ==> c == Failed(MalformedResponse(kind))
    ensures c.Delivered? ==> c.err == reply.err && c.results == NormalizeResponse(kind, op, reply.body).value
    ensures c.Delivered? ==> c.results.raw == reply.body
  {
    if Truthy(reply.err) then Failed(Transport(reply.err))
    else
      match NormalizeResponse(kind, op, reply.body)
      case Success(results) => Delivered(reply.err, results)
      case Failure(e) => Failed(e)
  }

  /** The literal-address check that runs before anything else in geocode. */
  function CheckQuery(kind: ProviderKind, q: Query): (e: Option<Error>)
    ensures e.Some? <==> q.FreeText? && (IsIPv4(q.text) || IsIPv6(q.text))
    ensures q.FreeText? && IsIPv4(q.text) ==> e == Some(UnsupportedQueryKind(kind, IPv4))
    ensures q.FreeText? && IsIPv6(q.text) ==> e == Some(UnsupportedQueryKind(kind, IPv6))
  {
    IPv4AndIPv6Disjoint(if q.FreeText? then q.text else "");
    match q
    case Structured(_) => None
    case FreeText(s) =>
      if IsIPv4(s) then Some(UnsupportedQueryKind(kind, IPv4))
      else if IsIPv6(s) then Some(UnsupportedQueryKind(kind, IPv6))
      else None
  }

  /** `geocode(query, callback)`, with `server` standing for the HTTP adapter's answer to a request. */
  function Geocode(a: Adapter, q: Query, server: HttpRequest -> HttpReply): (o: Outcome)
    requires Ready(a)
    ensures o.Thrown? <==> q.FreeText? && (IsIPv4(q.text) || IsIPv6(q.text))
    ensures o.Thrown? ==> Some(o.error) == CheckQuery(a.provider.Kind(), q)
    ensures o.Sent? ==> o.request == BuildGeocodeRequest(a, q)
    ensures o.Sent? ==> o.completion == Complete(a.provider.Kind(), Search, server(o.request))
  {
    match CheckQuery(a.provider.Kind(), q)
    case Some(e) => Thrown(e)
    case None =>
      var request := BuildGeocodeRequest(a, q);
      Sent(request, Complete(a.provider.Kind(), Search, server(request)))
  }

  /** `reverse(coords, callback)`: no literal-address check, always exactly one request. */
  function ReverseGeocode(a: Adapter, coords: Params, server: HttpRequest -> HttpReply): (o: Outcome)
    requires Ready(a)
    ensures o.Sent?
    ensures o.request == BuildReverseRequest(a, coords)
    ensures o.completion == Complete(a.provider.Kind(), Reverse, server(o.request))
  {
    var request := BuildReverseRequest(a, coords);
    Sent(request, Complete(a.provider.Kind(), Reverse, server(request)))
  }

  /** Against a server that gives every request the same reply, a geocode of a non-literal completes with that reply. */
  lemma GeocodeWithFixedReply(a: Adapter, q: Query, server: HttpRequest -> HttpReply, reply: HttpReply)
    requires Ready(a)
    requires forall request :: server(request) == reply
    requires q.FreeText? ==> !IsIPv4(q.text) && !IsIPv6(q.text)
    ensures var o := Geocode(a, q, server);
      o.Sent? && o.request == BuildGeocodeRequest(a, q) && o.completion == Complete(a.provider.Kind(), Search, reply)
  {
  }

  /** Against a server that gives every request the same reply, a reverse completes with that reply. */
  lemma ReverseWithFixedReply(a: Adapter, coords: Params, server: HttpRequest -> HttpReply, reply: HttpReply)
    requires Ready(a)
    requires forall request :: server(request) == reply
    ensures var o := ReverseGeocode(a, coords, server);
      o.request == BuildReverseRequest(a, coords) && o.completion == Complete(a.provider.Kind(), Reverse, reply)
  {
  }

  /** A geocode of an IP literal throws the adapter's IPv4 or IPv6 error and sends nothing. */
  lemma IpLiteralsAreRefused(a: Adapter, s: string, server: HttpRequest -> HttpReply)
    requires Ready(a)
    requires IsIPv4(s) || IsIPv6(s)
    ensures var o := Geocode(a, FreeText(s), server);
      RequestsSent(o) == [] &&
      o.error == UnsupportedQueryKind(a.provider.Kind(), if IsIPv4(s) then IPv4 else IPv6)
  {
  }

  /** A successful geocode hands the records to the caller in the provider's order, raw response attached. */
  lemma GeocodeKeepsProviderOrder(a: Adapter, q: Query, server: HttpRequest -> HttpReply, i: nat)
    requires Ready(a)
    requires Geocode(a, q, server).Sent? && Geocode(a, q, server).completion.Delivered?
    ensures var o := Geocode(a, q, server);
      var body := server(o.request).body;
      && o.completion.results.raw == body
      && |o.completion.results.results| == |body.items|
      && (i < |body.items| ==> o.completion.results.results[i] == NormalizeRecord(body.items[i]))
  {
  }

  /** Both adapters turn the same reply into the same results; they differ only in their requests. */
  lemma SameResultsForBothProviders(k1: ProviderKind, k2: ProviderKind, op: Operation, reply: HttpReply)
    requires Complete(k1, op, reply).Delivered?
    ensures Complete(k2, op, reply) == Complete(k1, op, reply)
  {
  }
}
