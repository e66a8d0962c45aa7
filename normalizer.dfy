/**
  The response normalizer: from the raw Nominatim records to the canonical
  result schema shared by every geocoder, with the raw response kept alongside.
*/
module Normalizer {
  import opened Wrappers
  import opened JsonValues
  import opened Strings
  import opened Providers

  /**
    One canonical result. Every field is always present; a field the provider
    did not send is ''. The coordinates keep the provider's text.
  */
  datatype CanonicalResult = CanonicalResult(
    latitude: string,
    longitude: string,
    formattedAddress: string,
    country: string,
    countryCode: string,
    province: string,
    city: string,
    zipcode: string,
    streetName: string,
    streetNumber: string,
    suburb: string,
    quarter: string)

  /** The results of one call, in the provider's order, and the untouched response as `raw`. */
  datatype ResultSet = ResultSet(results: seq<CanonicalResult>, raw: Json)

  /** The string under `key` in an object; '' when it is missing, not a string, or `v` is no object. */
  function TextField(v: Json, key: string): string {
    if v.JObj? && key in v.fields && v.fields[key].JStr? then v.fields[key].s else ""
  }

  /** The record's `address` sub-object, or null when it has none. */
  function Address(record: Json): Json {
    if record.JObj? && "address" in record.fields then record.fields["address"] else JNull
  }

  /** One Nominatim record in the canonical schema: every field a string, the country code upper-case. */
  function NormalizeRecord(record: Json): (c: CanonicalResult)
    ensures NoLowerAscii(c.countryCode)
    ensures !record.JObj? ==> c == CanonicalResult("", "", "", "", "", "", "", "", "", "", "", "")
  {
    var address := Address(record);
    CanonicalResult(
      latitude := TextField(record, "lat"),
      longitude := TextField(record, "lon"),
      formattedAddress := TextField(record, "display_name"),
      country := TextField(address, "country"),
      countryCode := ToUpper(TextField(address, "country_code")),
      province := TextField(address, "province"),
      city := TextField(address, "city"),
      zipcode := TextField(address, "postcode"),
      streetName := TextField(address, "street"),
      streetNumber := TextField(address, "house_number"),
      suburb := TextField(address, "suburb"),
      quarter := TextField(address, "quarter"))
  }

  /** Each record normalized, in the same order. */
  function NormalizeAll(records: seq<Json>): (results: seq<CanonicalResult>)
    ensures |results| == |records|
    ensures forall i :: 0 <= i < |records| ==> results[i] == NormalizeRecord(records[i])
  {
    if records == [] then [] else [NormalizeRecord(records[0])] + NormalizeAll(records[1..])
  }

  /** The response has the shape the operation expects: an array for search, an object for reverse. */
  predicate WellShaped(op: Operation, body: Json) {
    match op
    case Search => body.JArr?
    case Reverse => body.JObj?
  }

  /** The result set of a successful response, or MalformedResponse when its shape is wrong. */
  function NormalizeResponse(kind: ProviderKind, op: Operation, body: Json): (r: Result<ResultSet, Error>)
    ensures r.Failure? <==> !WellShaped(op, body)
    ensures r.Failure? ==> r.error == MalformedResponse(kind)
    ensures r.Success? ==> r.value.raw == body
    ensures r.Success? && op == Search ==>
      |r.value.results| == |body.items| &&
      forall i :: 0 <= i < |body.items| ==> r.value.results[i] == NormalizeRecord(body.items[i])
    ensures r.Success? && op == Reverse ==> r.value.results == [NormalizeRecord(body)]
  {
    match op
    case Search =>
      if body.JArr? then Success(ResultSet(NormalizeAll(body.items), body)) else Failure(MalformedResponse(kind))
    case Reverse =>
      if body.JObj? then Success(ResultSet([NormalizeRecord(body)], body)) else Failure(MalformedResponse(kind))
  }

  /** The canonical result as the object a caller sees: the same twelve keys for every result. */
  function AsObject(c: CanonicalResult): (o: map<string, string>)
    ensures o.Keys == CanonicalKeys
    ensures o["latitude"] == c.latitude && o["longitude"] == c.longitude
    ensures o["formattedAddress"] == c.formattedAddress && o["country"] == c.country
    ensures o["countryCode"] == c.countryCode && o["province"] == c.province
    ensures o["city"] == c.city && o["zipcode"] == c.zipcode
    ensures o["streetName"] == c.streetName && o["streetNumber"] == c.streetNumber
    ensures o["suburb"] == c.suburb && o["quarter"] == c.quarter
  {
    map[
      "latitude" := c.latitude, "longitude" := c.longitude,
      "formattedAddress" := c.formattedAddress, "country" := c.country,
      "countryCode" := c.countryCode, "province" := c.province,
      "city" := c.city, "zipcode" := c.zipcode,
      "streetName" := c.streetName, "streetNumber" := c.streetNumber,
      "suburb" := c.suburb, "quarter" := c.quarter]
  }

  const CanonicalKeys: set<string> := {
    "latitude", "longitude", "formattedAddress", "country", "countryCode", "province",
    "city", "zipcode", "streetName", "streetNumber", "suburb", "quarter"}

  /** The Nominatim record that carries a canonical result's content under the provider's names. */
  function RawRecord(c: CanonicalResult): Json {
    JObj(map[
      "lat" := JStr(c.latitude),
      "lon" := JStr(c.longitude),
      "display_name" := JStr(c.formattedAddress),
      "address" := JObj(map[
        "house_number" := JStr(c.streetNumber),
        "street" := JStr(c.streetName),
        "suburb" := JStr(c.suburb),
        "quarter" := JStr(c.quarter),
        "city" := JStr(c.city),
        "province" := JStr(c.province),
        "postcode" := JStr(c.zipcode),
        "country" := JStr(c.country),
        "country_code" := JStr(c.countryCode)])])
  }

  /**
    Normalizing the provider's record of a canonical result gives that result
    back: every field is read from the provider field it is named after, and
    copied unchanged, except the country code, which is upper-cased.
  */
  lemma NormalizeRecordInvertsRawRecord(c: CanonicalResult)
    requires NoLowerAscii(c.countryCode)
    ensures NormalizeRecord(RawRecord(c)) == c
  {
    ToUpperKeepsUpper(c.countryCode);
  }

  /** The country code is the provider's code upper-cased, character by character. */
  lemma CountryCodeUpperCased(record: Json)
    ensures var raw := TextField(Address(record), "country_code");
      var code := NormalizeRecord(record).countryCode;
      NoLowerAscii(code) && |code| == |raw| &&
      forall i :: 0 <= i < |raw| ==> code[i] == raw[i] || (IsLowerAscii(raw[i]) && code[i] as int + 32 == raw[i] as int)
  {
  }

  /** A record without an address object normalizes to '' in every address field. */
  lemma MissingAddressGivesEmptyFields(record: Json)
    requires !Address(record).JObj?
    ensures var c := NormalizeRecord(record);
      c.country == c.countryCode == c.province == c.city == c.zipcode == "" &&
      c.streetName == c.streetNumber == c.suburb == c.quarter == ""
  {
  }

  /** An address key that is absent, or holds something other than a string, leaves its canonical field '' (province in the reverse fixture). */
  lemma AbsentAddressKeyGivesEmptyField(record: Json, k: string)
    requires Address(record).JObj? && (k !in Address(record).fields || !Address(record).fields[k].JStr?)
    ensures var c := NormalizeRecord(record);
      && (k == "country" ==> c.country == "")
      && (k == "country_code" ==> c.countryCode == "")
      && (k == "province" ==> c.province == "")
      && (k == "city" ==> c.city == "")
      && (k == "postcode" ==> c.zipcode == "")
      && (k == "street" ==> c.streetName == "")
      && (k == "house_number" ==> c.streetNumber == "")
      && (k == "suburb" ==> c.suburb == "")
      && (k == "quarter" ==> c.quarter == "")
  {
  }

  /** A top-level key that is missing, or holds something other than a string, leaves its field ''. */
  lemma AbsentTopFieldGivesEmptyField(record: Json, k: string)
    requires record.JObj? && (k !in record.fields || !record.fields[k].JStr?)
    ensures var c := NormalizeRecord(record);
      && (k == "lat" ==> c.latitude == "")
      && (k == "lon" ==> c.longitude == "")
      && (k == "display_name" ==> c.formattedAddress == "")
  {
  }

  /** A string present at the record's top level is copied to its canonical field. */
  lemma PresentTopFieldIsCopied(record: Json, k: string)
    requires record.JObj? && k in record.fields && record.fields[k].JStr?
    ensures var c := NormalizeRecord(record);
      && (k == "lat" ==> c.latitude == record.fields[k].s)
      && (k == "lon" ==> c.longitude == record.fields[k].s)
      && (k == "display_name" ==> c.formattedAddress == record.fields[k].s)
  {
  }

  /**
    A string present in the address object is copied to its canonical field,
    whatever other address keys are present or missing.
  */
  lemma PresentAddressKeyIsCopied(record: Json, k: string)
    requires Address(record).JObj? && k in Address(record).fields && Address(record).fields[k].JStr?
    ensures var c := NormalizeRecord(record);
      var v := Address(record).fields[k].s;
      && (k == "country" ==> c.country == v)
      && (k == "province" ==> c.province == v)
      && (k == "city" ==> c.city == v)
      && (k == "postcode" ==> c.zipcode == v)
      && (k == "street" ==> c.streetName == v)
      && (k == "house_number" ==> c.streetNumber == v)
      && (k == "suburb" ==> c.suburb == v)
      && (k == "quarter" ==> c.quarter == v)
  {
  }

  /** The record's other keys (place_id, licence, boundingbox, importance, ...) do not affect the result. */
  lemma NormalizeRecordIgnoresOtherKeys(fields: Params, other: Params)
    requires other.Keys !! {"lat", "lon", "display_name", "address"}
    ensures NormalizeRecord(JObj(fields + other)) == NormalizeRecord(JObj(fields))
  {
    var merged := fields + other;
    assert forall k :: k in {"lat", "lon", "display_name", "address"} ==>
      (k in merged <==> k in fields) && (k in fields ==> merged[k] == fields[k]);
  }
}
