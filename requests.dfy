/**
  The request builder: from an adapter and a query (or reverse coordinates) to
  the URL and parameter map handed to the HTTP adapter's `get`.
*/
module Requests {
  import opened JsonValues
  import opened Providers

  /** A geocode query: free text, or an object of query parameters. */
  datatype Query = FreeText(text: string) | Structured(fields: Params)

  /** One call of the HTTP adapter's `get(url, params, ...)`. */
  datatype HttpRequest = HttpRequest(url: string, params: Params)

  /** The parameters an adapter always sets: the response shape, and the MapQuest key. */
  function ForcedParams(p: Provider): (forced: Params)
    ensures forced.Keys == {"format", "addressdetails"} + (if p.NominatimMapquest? then {"key"} else {})
    ensures forced["format"] == JStr("json") && forced["addressdetails"] == JNum(1.0)
    ensures p.NominatimMapquest? ==> forced["key"] == p.apiKey
  {
    var shape := map["format" := JStr("json"), "addressdetails" := JNum(1.0)];
    match p
    case OpenStreetMap => shape
    case NominatimMapquest(key) => shape["key" := key]
  }

  /** The caller's own parameters: a text query becomes `q`, an object passes through. */
  function CallerParams(q: Query): (caller: Params)
    ensures q.FreeText? ==> caller.Keys == {"q"} && caller["q"] == JStr(q.text)
    ensures q.Structured? ==> caller == q.fields
  {
    match q
    case FreeText(s) => map["q" := JStr(s)]
    case Structured(fields) => fields
  }

  /**
    The precedence rules for a parameter map: no key beyond the extras, the
    caller's keys and the forced ones, none of them dropped; the forced values
    always win; a key only the caller gave carries the caller's value, a key
    only the extras gave carries the extra's value, and a key both gave carries
    one of the two.
  */
  ghost predicate FollowsPrecedence(p: Params, a: Adapter, caller: Params) {
    var forced := ForcedParams(a.provider);
    && p.Keys == a.extra.Keys + caller.Keys + forced.Keys
    && (forall k :: k in forced ==> p[k] == forced[k])
    && (forall k :: k in caller && k !in a.extra && k !in forced ==> p[k] == caller[k])
    && (forall k :: k in a.extra && k !in caller && k !in forced ==> p[k] == a.extra[k])
    && (forall k :: k in a.extra && k in caller && k !in forced ==> p[k] == caller[k] || p[k] == a.extra[k])
  }

  /** Extras first, the caller's parameters over them, the forced parameters last. */
  function MergeParams(a: Adapter, caller: Params): (p: Params)
    ensures FollowsPrecedence(p, a, caller)
  {
    a.extra + caller + ForcedParams(a.provider)
  }

  /** The request a geocode call sends, once the query has passed validation. */
  function BuildGeocodeRequest(a: Adapter, q: Query): (r: HttpRequest)
    ensures r.url == Endpoint(a.provider.Kind(), Search)
    ensures FollowsPrecedence(r.params, a, CallerParams(q))
    ensures r.params["format"] == JStr("json") && r.params["addressdetails"] == JNum(1.0)
    ensures a.provider.NominatimMapquest? ==> r.params["key"] == a.provider.apiKey
    ensures q.FreeText? ==> "q" in r.params
  {
    HttpRequest(Endpoint(a.provider.Kind(), Search), MergeParams(a, CallerParams(q)))
  }

  /** The request a reverse call sends: the coordinates and any extra keys (`zoom`, ...) pass through. */
  function BuildReverseRequest(a: Adapter, coords: Params): (r: HttpRequest)
    ensures r.url == Endpoint(a.provider.Kind(), Reverse)
    ensures FollowsPrecedence(r.params, a, coords)
    ensures r.params["format"] == JStr("json") && r.params["addressdetails"] == JNum(1.0)
    ensures a.provider.NominatimMapquest? ==> r.params["key"] == a.provider.apiKey
  {
    HttpRequest(Endpoint(a.provider.Kind(), Reverse), MergeParams(a, coords))
  }

  /** Where extras and caller do not overlap, the precedence rules leave exactly one parameter map. */
  lemma PrecedenceDeterminesParams(p: Params, a: Adapter, caller: Params)
    requires a.extra.Keys !! caller.Keys
    requires FollowsPrecedence(p, a, caller)
    ensures p == MergeParams(a, caller)
  {
    var m := MergeParams(a, caller);
    assert p.Keys == m.Keys;
    forall k | k in p
      ensures p[k] == m[k]
    {
    }
  }

  /** The caller's `format`, `addressdetails` (and, for MapQuest, `key`) have no effect on what is sent. */
  lemma CallerCannotOverrideForced(a: Adapter, caller: Params)
    ensures MergeParams(a, caller) == MergeParams(a, caller - ForcedParams(a.provider).Keys)
  {
    var forced := ForcedParams(a.provider);
    var m1, m2 := MergeParams(a, caller), MergeParams(a, caller - forced.Keys);
    assert m1.Keys == m2.Keys;
    forall k | k in m1
      ensures m1[k] == m2[k]
    {
    }
  }

  /** Feeding a built parameter map back in as the caller's parameters changes nothing. */
  lemma MergeParamsIdempotent(a: Adapter, caller: Params)
    ensures MergeParams(a, MergeParams(a, caller)) == MergeParams(a, caller)
  {
    var m := MergeParams(a, caller);
    var mm := MergeParams(a, m);
    assert mm.Keys == m.Keys;
    forall k | k in m
      ensures mm[k] == m[k]
    {
    }
  }
}
