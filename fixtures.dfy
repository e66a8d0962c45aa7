/**
  The Nominatim responses both adapter test suites feed to their mocked HTTP
  adapter, and the canonical results they expect back.
*/
module Fixtures {
  import opened JsonValues
  import opened Strings
  import opened IpLiterals
  import opened Providers
  import opened Normalizer
  import opened Geocoders

  const Licence := "Data © OpenStreetMap contributors, ODbL 1.0. http://www.openstreetmap.org/copyright"

  /** The single search record for '12 Ngô Quyền, Hà Nội'. */
  const TonkinPalace: Json := JObj(map[
    "place_id" := JStr("371408123"),
    "licence" := JStr(Licence),
    "osm_type" := JStr("way"),
    "osm_id" := JStr("704153616"),
    "boundingbox" := JArr([JStr("21.0264368"), JStr("21.0268920"), JStr("105.8551375"), JStr("105.8554352")]),
    "lat" := JStr("21.02666585"),
    "lon" := JStr("105.8552602508254"),
    "display_name" := JStr("Tonkin Palace, 12, Ngo Quyen Street, Phường Tràng Tiền, Hoan Kiem District, Hà Nội, 11022, Vietnam"),
    "type" := JStr("attraction"),
    "importance" := JNum(0.39240155039647573),
    "address" := JObj(map[
      "house_number" := JStr("12"),
      "street" := JStr("Phố Ngô Quyền"),
      "suburb" := JStr("Hoàn Kiếm"),
      "city" := JStr("Hà Nội"),
      "quarter" := JStr("Tràng Tiền"),
      "province" := JStr("Hà Nội"),
      "postcode" := JStr("11022"),
      "country" := JStr("Vietnam"),
      "country_code" := JStr("vn")])])

  const TonkinPalaceResult := CanonicalResult(
    latitude := "21.02666585",
    longitude := "105.8552602508254",
    formattedAddress := "Tonkin Palace, 12, Ngo Quyen Street, Phường Tràng Tiền, Hoan Kiem District, Hà Nội, 11022, Vietnam",
    country := "Vietnam",
    countryCode := "VN",
    province := "Hà Nội",
    city := "Hà Nội",
    zipcode := "11022",
    streetName := "Phố Ngô Quyền",
    streetNumber := "12",
    suburb := "Hoàn Kiếm",
    quarter := "Tràng Tiền")

  /** The single search record for the structured query on Đường Trần Duy Hưng. */
  const RadioFrequencyDepartment: Json := JObj(map[
    "place_id" := JStr("207513245"),
    "licence" := JStr(Licence),
    "osm_type" := JStr("way"),
    "osm_id" := JStr("864632964"),
    "boundingbox" := JArr([JStr("21.0083722"), JStr("21.0089518"), JStr("105.7978958"), JStr("105.7985570")]),
    "lat" := JStr("21.0086146"),
    "lon" := JStr("105.79827453624539"),
    "display_name" := JStr("Cục Tần số Vô tuyến Điện, 115, Đường Trần Duy Hưng, Phường Trung Hòa, Cau Giay District, Hà Nội, 10055, Vietnam"),
    "type" := JStr("government"),
    "importance" := JNum(0.00007283054856179167),
    "address" := JObj(map[
      "house_number" := JStr("115"),
      "province" := JStr("Hà Nội"),
      "street" := JStr("Đường Trần Duy Hưng"),
      "quarter" := JStr("Trung Hòa"),
      "city" := JStr("Hà Nội"),
      "suburb" := JStr("Cầu Giấy"),
      "country" := JStr("Vietnam"),
      "postcode" := JStr("10055"),
      "country_code" := JStr("vn")])])

  const RadioFrequencyDepartmentResult := CanonicalResult(
    latitude := "21.0086146",
    longitude := "105.79827453624539",
    formattedAddress := "Cục Tần số Vô tuyến Điện, 115, Đường Trần Duy Hưng, Phường Trung Hòa, Cau Giay District, Hà Nội, 10055, Vietnam",
    country := "Vietnam",
    countryCode := "VN",
    province := "Hà Nội",
    city := "Hà Nội",
    zipcode := "10055",
    streetName := "Đường Trần Duy Hưng",
    streetNumber := "115",
    suburb := "Cầu Giấy",
    quarter := "Trung Hòa")

  /** The reverse record for (21.0609975, 105.7779905120694); its address has no province. */
  const CoNhueFootballGround: Json := JObj(map[
    "place_id" := JStr("207725411"),
    "licence" := JStr(Licence),
    "osm_type" := JStr("way"),
    "osm_id" := JStr("1115559634"),
    "lat" := JStr("21.0609975"),
    "lon" := JStr("105.7779905120694"),
    "display_name" := JStr("Sân bóng cổ nhuê, Ngõ 145 Cổ Nhuế, Co Nhue 2 Ward, North Tu Liem District, Hà Nội, 12500, Vietnam"),
    "address" := JObj(map[
      "house_number" := JStr("145"),
      "street" := JStr("Cổ Nhuế"),
      "suburb" := JStr("Bắc Từ Liêm"),
      "quarter" := JStr("Cổ Nhuế"),
      "city" := JStr("Hà Nội"),
      "postcode" := JStr("12500"),
      "country" := JStr("Vietnam"),
      "country_code" := JStr("vn")])])

  const CoNhueFootballGroundResult := CanonicalResult(
    latitude := "21.0609975",
    longitude := "105.7779905120694",
    formattedAddress := "Sân bóng cổ nhuê, Ngõ 145 Cổ Nhuế, Co Nhue 2 Ward, North Tu Liem District, Hà Nội, 12500, Vietnam",
    country := "Vietnam",
    countryCode := "VN",
    province := "",
    city := "Hà Nội",
    zipcode := "12500",
    streetName := "Cổ Nhuế",
    streetNumber := "145",
    suburb := "Bắc Từ Liêm",
    quarter := "Cổ Nhuế")

  /** The mocked adapters report success with `false` as the error. */
  const NoError := JBool(false)

  /** The IP literals both suites try to geocode. */
  const LoopbackIPv4 := "127.0.0.1"

  lemma NormalizesTonkinPalace()
    ensures NormalizeRecord(TonkinPalace) == TonkinPalaceResult
  {
  }

  /** Either adapter delivers the search reply holding TonkinPalace as one result, raw body attached. */
  lemma CompletesWithTonkinPalace(kind: ProviderKind)
    ensures var body := JArr([TonkinPalace]);
      Complete(kind, Search, HttpReply(NoError, body)) == Delivered(NoError, ResultSet([TonkinPalaceResult], body))
  {
    NormalizesTonkinPalace();
    assert NormalizeAll([TonkinPalace]) == [TonkinPalaceResult];
  }

  lemma NormalizesRadioFrequencyDepartment()
    ensures NormalizeRecord(RadioFrequencyDepartment) == RadioFrequencyDepartmentResult
  {
  }

  lemma NormalizesCoNhueFootballGround()
    ensures NormalizeRecord(CoNhueFootballGround) == CoNhueFootballGroundResult
  {
  }

  /** Either adapter delivers the reverse reply holding CoNhueFootballGround as one result, raw body attached. */
  lemma CompletesWithCoNhueFootballGround(kind: ProviderKind)
    ensures Complete(kind, Reverse, HttpReply(NoError, CoNhueFootballGround)) ==
      Delivered(NoError, ResultSet([CoNhueFootballGroundResult], CoNhueFootballGround))
  {
    NormalizesCoNhueFootballGround();
  }

  lemma LoopbackIsIPv4()
    ensures IsIPv4(LoopbackIPv4)
  {
    var octets := ["127", "0", "0", "1"];
    assert Join(octets, '.') == LoopbackIPv4;
    assert "127"[..2] == "12" && "12"[..1] == "1" && "1"[..0] == [];
    DottedQuadIsIPv4(octets);
  }

  const SampleIPv6Groups: seq<string> := ["2001", "0db8", "0000", "85a3", "0000", "0000", "ac1f", "8001"]

  /** The text 2001:0db8:0000:85a3:0000:0000:ac1f:8001, written as its eight groups joined by ':'. */
  const SampleIPv6 := Join(SampleIPv6Groups, ':')

  /** The sample is the text the suites pass to geocode. */
  lemma SampleIPv6IsTheTestText()
    ensures SampleIPv6 == "2001:0db8:0000:85a3:0000:0000:ac1f:8001"
  {
  }

  lemma SampleIPv6GroupsAreHex()
    ensures AllHexGroups(SampleIPv6Groups)
  {
    assert IsHexGroup("2001") && IsHexGroup("0db8") && IsHexGroup("0000");
    assert IsHexGroup("85a3") && IsHexGroup("ac1f") && IsHexGroup("8001");
  }

  lemma SampleIsIPv6()
    ensures IsIPv6(SampleIPv6)
  {
    SampleIPv6GroupsAreHex();
    FullFormIsIPv6(SampleIPv6Groups);
  }
}
