/** The NominatimMapquestGeocoder test cases, stated of the model. */
module NominatimMapquestSuite {
  import opened Wrappers
  import opened JsonValues
  import opened IpLiterals
  import opened Providers
  import opened Requests
  import opened Normalizer
  import opened Geocoders
  import opened Fixtures

  const ApiKey := JStr("API_KEY")

  /** `new NominatimMapquestGeocoder(mockedHttpAdapter, { apiKey: 'API_KEY' })`. */
  const Mapquest := Adapter(NominatimMapquest(ApiKey), map[])

  const SearchUrl := "http://open.mapquestapi.com/nominatim/v1/search"
  const ReverseUrl := "http://open.mapquestapi.com/nominatim/v1/reverse"

  /** With no arguments at all, the missing HTTP adapter is reported, not the missing key. */
  lemma ConstructorNeedsHttpAdapterFirst()
    ensures Construct(NominatimMapquestGeocoder, None, None) == Failure(MissingDependency(NominatimMapquestGeocoder))
  {
  }

  lemma ConstructorNeedsApiKey()
    ensures Construct(NominatimMapquestGeocoder, Some(HttpAdapter), None) == Failure(MissingCredential(NominatimMapquestGeocoder))
  {
  }

  lemma ConstructsWithHttpAdapterAndKey()
    ensures Construct(NominatimMapquestGeocoder, Some(HttpAdapter), Some(map["apiKey" := ApiKey])) == Success(Mapquest)
  {
    assert map["apiKey" := ApiKey] - {"apiKey"} == map[];
  }

  lemma MissingAdapterMessage()
    ensures Message(MissingDependency(NominatimMapquestGeocoder)) == "NominatimMapquestGeocoder need an httpAdapter"
  {
  }

  lemma MissingKeyMessage()
    ensures Message(MissingCredential(NominatimMapquestGeocoder)) == "NominatimMapquestGeocoder needs an apiKey"
  {
  }

  lemma IPv4Message()
    ensures Message(UnsupportedQueryKind(NominatimMapquestGeocoder, IPv4)) == "NominatimMapquestGeocoder does not support geocoding IPv4"
  {
  }

  lemma IPv6Message()
    ensures Message(UnsupportedQueryKind(NominatimMapquestGeocoder, IPv6)) == "NominatimMapquestGeocoder does not support geocoding IPv6"
  {
  }

  lemma RefusesIPv4(server: HttpRequest -> HttpReply)
    ensures var o := Geocode(Mapquest, FreeText(LoopbackIPv4), server);
      RequestsSent(o) == [] && o.error == UnsupportedQueryKind(NominatimMapquestGeocoder, IPv4)
  {
    assert Ready(Mapquest);
    LoopbackIsIPv4();
    IpLiteralsAreRefused(Mapquest, LoopbackIPv4, server);
  }

  lemma RefusesIPv6(server: HttpRequest -> HttpReply)
    ensures var o := Geocode(Mapquest, FreeText(SampleIPv6), server);
      RequestsSent(o) == [] && o.error == UnsupportedQueryKind(NominatimMapquestGeocoder, IPv6)
  {
    SampleIsIPv6();
    IPv4AndIPv6Disjoint(SampleIPv6);
    IpLiteralsAreRefused(Mapquest, SampleIPv6, server);
  }

  /** The parameters of a text query: the key, the forced shape, and `q`, nothing else. */
  lemma TextQueryParams()
    ensures BuildGeocodeRequest(Mapquest, FreeText("1 champs élysée Paris")) == HttpRequest(SearchUrl, map[
      "key" := ApiKey, "addressdetails" := JNum(1.0), "format" := JStr("json"), "q" := JStr("1 champs élysée Paris")])
  {
  }

  lemma TextQueryCallsGetOnce(server: HttpRequest -> HttpReply)
    ensures var o := Geocode(Mapquest, FreeText("1 champs élysée Paris"), server);
      RequestsSent(o) == [BuildGeocodeRequest(Mapquest, FreeText("1 champs élysée Paris"))]
  {
    PlainTextIsNotAnIpLiteral("1 champs élysée Paris");
  }

  lemma ReturnsGeocodedAddress(server: HttpRequest -> HttpReply)
    requires forall request :: server(request) == HttpReply(NoError, JArr([TonkinPalace]))
    ensures var o := Geocode(Mapquest, FreeText("12 Ngô Quyền, Hà Nội"), server);
      o.Sent? && o.completion == Delivered(NoError, ResultSet([TonkinPalaceResult], JArr([TonkinPalace])))
  {
    PlainTextIsNotAnIpLiteral("12 Ngô Quyền, Hà Nội");
    GeocodeWithFixedReply(Mapquest, FreeText("12 Ngô Quyền, Hà Nội"), server, HttpReply(NoError, JArr([TonkinPalace])));
    CompletesWithTonkinPalace(NominatimMapquestGeocoder);
  }

  /** The parameters of the reverse call: the key, the forced shape, and the coordinates, nothing else. */
  lemma ReverseParams()
    ensures BuildReverseRequest(Mapquest, map["lat" := JNum(21.0609975), "lon" := JNum(105.7779905120694)]) ==
      HttpRequest(ReverseUrl, map[
        "key" := ApiKey, "addressdetails" := JNum(1.0), "format" := JStr("json"),
        "lat" := JNum(21.0609975), "lon" := JNum(105.7779905120694)])
  {
  }

  lemma ReverseSendsKeyAndReturnsAddress(server: HttpRequest -> HttpReply)
    requires forall request :: server(request) == HttpReply(NoError, CoNhueFootballGround)
    ensures var coords := map["lat" := JNum(21.0609975), "lon" := JNum(105.7779905120694)];
      ReverseGeocode(Mapquest, coords, server) ==
        Sent(
          HttpRequest(ReverseUrl, map[
            "key" := ApiKey, "addressdetails" := JNum(1.0), "format" := JStr("json"),
            "lat" := JNum(21.0609975), "lon" := JNum(105.7779905120694)]),
          Delivered(NoError, ResultSet([CoNhueFootballGroundResult], CoNhueFootballGround)))
  {
    var coords := map["lat" := JNum(21.0609975), "lon" := JNum(105.7779905120694)];
    ReverseParams();
    ReverseWithFixedReply(Mapquest, coords, server, HttpReply(NoError, CoNhueFootballGround));
    CompletesWithCoNhueFootballGround(NominatimMapquestGeocoder);
  }
}
