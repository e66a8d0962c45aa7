/** The OpenStreetMapGeocoder test cases, stated of the model. */
module OpenStreetMapSuite {
  import opened Wrappers
  import opened JsonValues
  import opened IpLiterals
  import opened Providers
  import opened Requests
  import opened Normalizer
  import opened Geocoders
  import opened Fixtures

  /** `new OpenStreetMapGeocoder(mockedHttpAdapter)`. */
  const Osm := Adapter(OpenStreetMap, map[])

  const SearchUrl := "http://nominatim.openstreetmap.org/search"
  const ReverseUrl := "http://nominatim.openstreetmap.org/reverse"

  lemma ConstructorNeedsHttpAdapter()
    ensures Construct(OpenStreetMapGeocoder, None, None) == Failure(MissingDependency(OpenStreetMapGeocoder))
  {
  }

  lemma ConstructsWithHttpAdapter()
    ensures Construct(OpenStreetMapGeocoder, Some(HttpAdapter), None) == Success(Osm)
  {
  }

  lemma MissingAdapterMessage()
    ensures Message(MissingDependency(OpenStreetMapGeocoder)) == "OpenStreetMapGeocoder need an httpAdapter"
  {
  }

  lemma IPv4Message()
    ensures Message(UnsupportedQueryKind(OpenStreetMapGeocoder, IPv4)) == "OpenStreetMapGeocoder does not support geocoding IPv4"
  {
  }

  lemma IPv6Message()
    ensures Message(UnsupportedQueryKind(OpenStreetMapGeocoder, IPv6)) == "OpenStreetMapGeocoder does not support geocoding IPv6"
  {
  }

  lemma RefusesIPv4(server: HttpRequest -> HttpReply)
    ensures var o := Geocode(Osm, FreeText(LoopbackIPv4), server);
      RequestsSent(o) == [] && o.error == UnsupportedQueryKind(OpenStreetMapGeocoder, IPv4)
  {
    assert Ready(Osm);
    LoopbackIsIPv4();
    IpLiteralsAreRefused(Osm, LoopbackIPv4, server);
  }

  lemma RefusesIPv6(server: HttpRequest -> HttpReply)
    ensures var o := Geocode(Osm, FreeText(SampleIPv6), server);
      RequestsSent(o) == [] && o.error == UnsupportedQueryKind(OpenStreetMapGeocoder, IPv6)
  {
    SampleIsIPv6();
    IPv4AndIPv6Disjoint(SampleIPv6);
    IpLiteralsAreRefused(Osm, SampleIPv6, server);
  }

  lemma TextQueryCallsGetOnce(server: HttpRequest -> HttpReply)
    ensures var o := Geocode(Osm, FreeText("1 champs élysée Paris"), server);
      |RequestsSent(o)| == 1 && o.request.url == SearchUrl
  {
    PlainTextIsNotAnIpLiteral("1 champs élysée Paris");
  }

  lemma ReturnsGeocodedAddress(server: HttpRequest -> HttpReply)
    requires forall request :: server(request) == HttpReply(NoError, JArr([TonkinPalace]))
    ensures var o := Geocode(Osm, FreeText("12 Ngô Quyền, Hà Nội"), server);
      o.Sent? && o.completion == Delivered(NoError, ResultSet([TonkinPalaceResult], JArr([TonkinPalace])))
  {
    PlainTextIsNotAnIpLiteral("12 Ngô Quyền, Hà Nội");
    GeocodeWithFixedReply(Osm, FreeText("12 Ngô Quyền, Hà Nội"), server, HttpReply(NoError, JArr([TonkinPalace])));
    CompletesWithTonkinPalace(OpenStreetMapGeocoder);
  }

  lemma ObjectQuerySendsExactlyItsKeys(server: HttpRequest -> HttpReply)
    requires forall request :: server(request) == HttpReply(NoError, JArr([RadioFrequencyDepartment]))
    ensures var q := Structured(map["street" := JStr("115 Đường Trần Duy Hưng"), "city" := JStr("Hà Nội"), "limit" := JNum(1.0)]);
      Geocode(Osm, q, server) ==
        Sent(
          HttpRequest(SearchUrl, map[
            "format" := JStr("json"), "addressdetails" := JNum(1.0),
            "city" := JStr("Hà Nội"), "limit" := JNum(1.0), "street" := JStr("115 Đường Trần Duy Hưng")]),
          Delivered(NoError, ResultSet([RadioFrequencyDepartmentResult], JArr([RadioFrequencyDepartment]))))
  {
    var q := Structured(map["street" := JStr("115 Đường Trần Duy Hưng"), "city" := JStr("Hà Nội"), "limit" := JNum(1.0)]);
    var body := JArr([RadioFrequencyDepartment]);
    var request := BuildGeocodeRequest(Osm, q);
    assert request.params == map[
      "format" := JStr("json"), "addressdetails" := JNum(1.0),
      "city" := JStr("Hà Nội"), "limit" := JNum(1.0), "street" := JStr("115 Đường Trần Duy Hưng")];
    assert server(request) == HttpReply(NoError, body);
    NormalizesRadioFrequencyDepartment();
    assert NormalizeAll(body.items) == [RadioFrequencyDepartmentResult];
    assert NormalizeResponse(OpenStreetMapGeocoder, Search, body) == Success(ResultSet([RadioFrequencyDepartmentResult], body));
    assert Complete(OpenStreetMapGeocoder, Search, HttpReply(NoError, body)) == Delivered(NoError, ResultSet([RadioFrequencyDepartmentResult], body));
  }

  lemma GeocodeIgnoresFormatAndAddressdetails(server: HttpRequest -> HttpReply)
    ensures var q := Structured(map["q" := JStr("Athens"), "format" := JStr("xml"), "addressdetails" := JNum(0.0)]);
      Geocode(Osm, q, server).request ==
        HttpRequest(SearchUrl, map["format" := JStr("json"), "addressdetails" := JNum(1.0), "q" := JStr("Athens")])
  {
  }

  lemma ReverseReturnsGeocodedAddress(server: HttpRequest -> HttpReply)
    requires forall request :: server(request) == HttpReply(NoError, CoNhueFootballGround)
    ensures var coords := map["lat" := JNum(21.0609975), "lon" := JNum(105.7779905120694)];
      ReverseGeocode(Osm, coords, server).completion ==
        Delivered(NoError, ResultSet([CoNhueFootballGroundResult], CoNhueFootballGround))
  {
    var coords := map["lat" := JNum(21.0609975), "lon" := JNum(105.7779905120694)];
    ReverseWithFixedReply(Osm, coords, server, HttpReply(NoError, CoNhueFootballGround));
    CompletesWithCoNhueFootballGround(OpenStreetMapGeocoder);
  }

  lemma ReverseSendsExtraArguments(server: HttpRequest -> HttpReply)
    ensures ReverseGeocode(Osm, map["lat" := JNum(12.0), "lon" := JNum(7.0), "zoom" := JNum(15.0)], server).request ==
      HttpRequest(ReverseUrl, map[
        "format" := JStr("json"), "addressdetails" := JNum(1.0),
        "lat" := JNum(12.0), "lon" := JNum(7.0), "zoom" := JNum(15.0)])
  {
  }

  /** Options given to the constructor become extras of every request. */
  lemma ConstructorKeepsExtras()
    ensures Construct(OpenStreetMapGeocoder, Some(HttpAdapter), Some(map["zoom" := JNum(9.0)])) ==
      Success(Adapter(OpenStreetMap, map["zoom" := JNum(9.0)]))
  {
  }

  lemma ReverseUsesConstructorExtras(server: HttpRequest -> HttpReply)
    ensures ReverseGeocode(Adapter(OpenStreetMap, map["zoom" := JNum(9.0)]), map["lat" := JNum(12.0), "lon" := JNum(7.0)], server).request ==
      HttpRequest(ReverseUrl, map[
        "format" := JStr("json"), "addressdetails" := JNum(1.0),
        "lat" := JNum(12.0), "lon" := JNum(7.0), "zoom" := JNum(9.0)])
  {
    var a := Adapter(OpenStreetMap, map["zoom" := JNum(9.0)]);
    assert MergeParams(a, map["lat" := JNum(12.0), "lon" := JNum(7.0)]) == map[
      "format" := JStr("json"), "addressdetails" := JNum(1.0),
      "lat" := JNum(12.0), "lon" := JNum(7.0), "zoom" := JNum(9.0)];
  }

  lemma ReverseIgnoresFormatAndAddressdetails(server: HttpRequest -> HttpReply)
    ensures var coords := map["lat" := JNum(12.0), "lon" := JNum(7.0), "format" := JStr("xml"), "addressdetails" := JNum(0.0)];
      ReverseGeocode(Osm, coords, server).request ==
        HttpRequest(ReverseUrl, map["format" := JStr("json"), "addressdetails" := JNum(1.0), "lat" := JNum(12.0), "lon" := JNum(7.0)])
  {
  }
}
