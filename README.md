# Nominatim geocoder adapters of node-geocoder

node-geocoder turns an address into coordinates (geocode) and coordinates
into an address (reverse) through one adapter class per provider. This
project models the two adapters that talk to Nominatim, the OpenStreetMap
search engine, as their test suites pin them down:

- `OpenStreetMapGeocoder` queries `nominatim.openstreetmap.org`.
- `NominatimMapquestGeocoder` queries MapQuest's Nominatim mirror and needs an API key.

The model covers four parts of each adapter:

- **Construction** (`Providers`). The HTTP adapter is checked first, then the MapQuest `apiKey`. Constructor options become default request parameters (the extras).
- **The literal-address guard** (`IpLiterals`, `Geocoders.CheckQuery`). A geocode of an IPv4 or IPv6 literal throws before any request is made.
- **The request builder** (`Requests`). It picks the endpoint, passes the caller's keys through, and merges the extras. It always sends `format=json` and `addressdetails=1`, whatever the caller gave. MapQuest also sends `key`.
- **The response normaliser** (`Normalizer`). It renames Nominatim's fields to node-geocoder's canonical result and upper-cases the country code. A missing field becomes `''`. Records keep the provider's order, a reverse gives a one-element list, and the raw body is attached as `raw`.

A call is a pure function of the adapter, the query and `server`. `server` is a function standing for the HTTP adapter's answer to a request (`Geocoders.Geocode`, `Geocoders.ReverseGeocode`). The outcome is either thrown before any request or exactly one request sent together with what the callback receives. The fixtures (`Fixtures`) and the two suites (`OpenStreetMapSuite`, `NominatimMapquestSuite`) restate each test case of these two suites as a lemma about this model. `Geocode` and `ReverseGeocode` are defined only on a constructed adapter (`Providers.Ready`), as the methods exist only on an instance.

## Model

| member | source | states |
|---|---|---|
| Providers.Construct | test/geocoder/nominatimmapquestgeocoder.test.js:15-33 | no HTTP adapter gives MissingDependency, whatever the options; with an adapter, MapQuest without a truthy apiKey gives MissingCredential; construction succeeds exactly when both guards pass; the built adapter has the requested kind, carries the options (minus apiKey for MapQuest) as extras, and for MapQuest holds the given key |
| Providers.Message | test/geocoder/openstreetmapgeocoder.test.js:15-49 | every synchronous error text starts with the adapter's class name and a space |
| Strings.ToUpper | test/geocoder/openstreetmapgeocoder.test.js:123 | same length as the input; each character is its ASCII upper-case counterpart |
| Strings.ToUpperKeepsUpper | test/geocoder/openstreetmapgeocoder.test.js:123 | upper-casing text that has no lower-case letter leaves it unchanged |
| Strings.ToUpperIdempotent | test/geocoder/openstreetmapgeocoder.test.js:123 | upper-casing twice equals upper-casing once |
| Strings.Split | test/geocoder/openstreetmapgeocoder.test.js:29-49 | at least one part, no part holds the separator, and the parts joined with the separator give the input back |
| Strings.SplitJoin | test/geocoder/openstreetmapgeocoder.test.js:29-49 | splitting undoes joining when no part holds the separator |
| Strings.SplitWithoutSep | test/geocoder/openstreetmapgeocoder.test.js:51-63 | text without the separator splits into itself alone |
| Strings.SplitAtFirstSep | test/geocoder/openstreetmapgeocoder.test.js:29-49 | splitting at a first separator peels off the text before it |
| IpLiterals.FirstDoubleColon | test/geocoder/openstreetmapgeocoder.test.js:40-49 | None exactly when the text has no "::"; otherwise the position of the first one |
| IpLiterals.IsIPv4 | test/geocoder/openstreetmapgeocoder.test.js:29-38 | a dotted-quad literal: four octets of one to three digits, 0 to 255, no leading zero; every such text has a dot and no colon |
| IpLiterals.IsIPv6 | test/geocoder/openstreetmapgeocoder.test.js:40-49 | an IPv6 literal written in full or with one "::"; every such text has a colon |
| IpLiterals.SeveralPartsMeanSeparator | test/geocoder/openstreetmapgeocoder.test.js:29-49 | text that splits into two or more parts holds the separator |
| IpLiterals.JoinAvoids | test/geocoder/openstreetmapgeocoder.test.js:29-38 | a character that is neither the separator nor in any part does not occur in the joined text |
| IpLiterals.OctetsHaveNoColon | test/geocoder/openstreetmapgeocoder.test.js:29-38 | four octets joined with dots contain no colon |
| IpLiterals.IPv4AndIPv6Disjoint | test/geocoder/openstreetmapgeocoder.test.js:29-49 | no text is both an IPv4 and an IPv6 literal (from the two recognisers' contracts: colon-free versus containing a colon), so the order of the two checks does not matter |
| IpLiterals.JoinedGroupsHaveNoDoubleColon | test/geocoder/openstreetmapgeocoder.test.js:40-49 | non-empty colon-free groups joined with ':' contain no "::" |
| IpLiterals.FullFormIsIPv6 | test/geocoder/openstreetmapgeocoder.test.js:40-49 | eight hexadecimal groups joined with ':' form an IPv6 literal |
| IpLiterals.HexGroupsHaveNoColon | test/geocoder/openstreetmapgeocoder.test.js:40-49 | hexadecimal groups are non-empty and hold no colon |
| IpLiterals.JoinEndsWithLast | test/geocoder/openstreetmapgeocoder.test.js:40-49 | a joined text ends with its last part |
| IpLiterals.SideOfHexGroups | test/geocoder/openstreetmapgeocoder.test.js:40-49 | one side of a "::" built from hexadecimal groups gives those groups back, holds no "::" and does not end in ':' |
| IpLiterals.CompressedFormIsIPv6 | test/geocoder/openstreetmapgeocoder.test.js:40-49 | every literal abbreviated with one "::" between at most seven hexadecimal groups in total (either side may be empty) is accepted |
| IpLiterals.DottedQuadIsIPv4 | test/geocoder/openstreetmapgeocoder.test.js:29-38 | four octets joined with '.' form an IPv4 literal |
| IpLiterals.PlainTextIsNotAnIpLiteral | test/geocoder/openstreetmapgeocoder.test.js:51-63 | text without ':' or '.' is neither literal, so it gets geocoded |
| Providers.Endpoint | test/geocoder/openstreetmapgeocoder.test.js:201 | each endpoint URL is the adapter's service root (nominatim.openstreetmap.org/ or open.mapquestapi.com/nominatim/v1/) followed by the operation's path (search or reverse); the four URLs are those the tests expect at test/geocoder/openstreetmapgeocoder.test.js:201, 343 and test/geocoder/nominatimmapquestgeocoder.test.js:68, 159 |
| Providers.Extras | test/geocoder/openstreetmapgeocoder.test.js:361-382 | the extras are the constructor options with their values unchanged: none without options, every option kept for OpenStreetMap, every option but apiKey kept for MapQuest |
| Requests.ForcedParams | test/geocoder/openstreetmapgeocoder.test.js:239-259 | the forced keys are exactly format (json) and addressdetails (1), plus key (the adapter's apiKey) for MapQuest |
| Requests.CallerParams | test/geocoder/openstreetmapgeocoder.test.js:164-259 | a text query contributes exactly q with the query text; an object query contributes its own keys and values unchanged |
| Requests.MergeParams | test/geocoder/openstreetmapgeocoder.test.js:337-382 | the merged map follows the precedence rules: exactly the keys of extras, caller and forced; forced values win; a key from one side keeps that side's value (Requests.PrecedenceDeterminesParams shows these rules admit no other map when extras and caller do not overlap) |
| Requests.BuildGeocodeRequest | test/geocoder/openstreetmapgeocoder.test.js:164-259 | the provider's search URL; parameters follow the precedence rules (nothing dropped, nothing invented, forced values win, each key from one side keeps that side's value); format is json, addressdetails is 1; MapQuest sends its key; a text query sends q |
| Requests.BuildReverseRequest | test/geocoder/openstreetmapgeocoder.test.js:337-405 | the provider's reverse URL; coordinates and extra keys pass through under the same precedence rules; format json, addressdetails 1, and the MapQuest key |
| Requests.PrecedenceDeterminesParams | test/geocoder/openstreetmapgeocoder.test.js:337-382 | where extras and caller keys do not overlap, the precedence rules admit exactly one parameter map, the merged one |
| Requests.CallerCannotOverrideForced | test/geocoder/openstreetmapgeocoder.test.js:239-259 | the caller's format and addressdetails (and MapQuest key) have no effect on what is sent |
| Requests.MergeParamsIdempotent | test/geocoder/openstreetmapgeocoder.test.js:384-405 | feeding a sent parameter map back in as the caller's parameters sends the same map |
| Normalizer.NormalizeRecord | test/geocoder/openstreetmapgeocoder.test.js:108-124 | the country code of every result has no lower-case letter; a record that is not an object gives '' in every field; each field's value is fixed for every record by Normalizer.PresentTopFieldIsCopied, Normalizer.AbsentTopFieldGivesEmptyField, Normalizer.PresentAddressKeyIsCopied, Normalizer.CountryCodeUpperCased, Normalizer.AbsentAddressKeyGivesEmptyField and Normalizer.MissingAddressGivesEmptyFields |
| Normalizer.NormalizeAll | test/geocoder/openstreetmapgeocoder.test.js:65-162 | one result per record, in the provider's order, each the normalization of its record |
| Normalizer.NormalizeResponse | test/geocoder/openstreetmapgeocoder.test.js:65-162 | fails with MalformedResponse exactly when the body has the wrong shape; otherwise raw is the body, search gives one result per array element in order, and reverse gives the one record's result |
| Normalizer.AsObject | test/geocoder/openstreetmapgeocoder.test.js:108-124 | the object a caller sees has exactly the twelve canonical keys, each carrying its result field |
| Normalizer.NormalizeRecordInvertsRawRecord | test/geocoder/openstreetmapgeocoder.test.js:108-124 | each canonical field is read from the Nominatim field it corresponds to: normalizing the Nominatim record built from a result (country code already upper-case) gives that result back |
| Normalizer.CountryCodeUpperCased | test/geocoder/openstreetmapgeocoder.test.js:123 | countryCode is the provider's country_code with each lower-case letter upper-cased and nothing else changed |
| Normalizer.MissingAddressGivesEmptyFields | test/geocoder/openstreetmapgeocoder.test.js:301 | a record without an address object gives '' in every address field, extending to the whole address the '' default the reverse test expects for a missing province; no test sends a record without an address |
| Normalizer.PresentTopFieldIsCopied | test/geocoder/openstreetmapgeocoder.test.js:110-114 | a string under lat, lon or display_name is copied unchanged to latitude, longitude or formattedAddress, whatever else the record holds |
| Normalizer.AbsentTopFieldGivesEmptyField | test/geocoder/openstreetmapgeocoder.test.js:301 | when lat, lon or display_name is missing or holds something other than a string, latitude, longitude or formattedAddress is ''; the same '' default the reverse test expects for a missing province, and no test sends such a record |
| Normalizer.PresentAddressKeyIsCopied | test/geocoder/openstreetmapgeocoder.test.js:278-307 | a string under one of the eight address keys other than country_code (country, province, city, postcode, street, house_number, suburb, quarter) is copied unchanged to its canonical field, whatever other address keys are present or missing, as in the reverse record without a province |
| Normalizer.AbsentAddressKeyGivesEmptyField | test/geocoder/openstreetmapgeocoder.test.js:301 | a key missing from a present address object, or holding something other than a string, leaves its canonical field '' (each of the nine address fields) |
| Normalizer.NormalizeRecordIgnoresOtherKeys | test/geocoder/openstreetmapgeocoder.test.js:65-124 | place_id, licence, boundingbox, importance and every other key besides lat, lon, display_name and address leave the result unchanged |
| Geocoders.RequestsSent | test/geocoder/openstreetmapgeocoder.test.js:51-63 | a call sends at most one request, and none exactly when it throws |
| Geocoders.Complete | test/geocoder/openstreetmapgeocoder.test.js:65-162 | a truthy HTTP error fails with that error before normalization; otherwise the callback gets the falsy error unchanged and the normalized result set with raw set to the body, or MalformedResponse for a body of the wrong shape |
| Geocoders.CheckQuery | test/geocoder/openstreetmapgeocoder.test.js:29-49 | an error exactly for a text query that is an IPv4 or IPv6 literal, naming the adapter and the literal's version |
| Geocoders.Geocode | test/geocoder/openstreetmapgeocoder.test.js:29-162 | throws exactly for IP literal texts, with the CheckQuery error; otherwise sends the built search request once and completes with the normalized reply |
| Geocoders.ReverseGeocode | test/geocoder/openstreetmapgeocoder.test.js:263-335 | always sends the built reverse request once and completes with the normalized reply |
| Geocoders.GeocodeWithFixedReply | test/geocoder/openstreetmapgeocoder.test.js:65-162 | against a server that gives every request the same reply, a geocode of anything but an IP literal sends the built request and completes with that reply |
| Geocoders.ReverseWithFixedReply | test/geocoder/openstreetmapgeocoder.test.js:263-335 | against such a server, a reverse sends the built request and completes with that reply |
| Geocoders.IpLiteralsAreRefused | test/geocoder/nominatimmapquestgeocoder.test.js:37-61 | geocoding any IP literal sends nothing and throws the adapter's error for that version |
| Geocoders.GeocodeKeepsProviderOrder | test/geocoder/openstreetmapgeocoder.test.js:65-162 | a delivered geocode carries the raw body and one result per record, the i-th being the i-th record normalized |
| Geocoders.SameResultsForBothProviders | test/geocoder/nominatimmapquestgeocoder.test.js:85-150 | both adapters deliver the same results for the same reply |
| Fixtures.NormalizesTonkinPalace | test/geocoder/openstreetmapgeocoder.test.js:70-124 | the '12 Ngô Quyền' record normalizes to the expected canonical result |
| Fixtures.CompletesWithTonkinPalace | test/geocoder/nominatimmapquestgeocoder.test.js:85-150 | either adapter delivers that record as the single result, with the body as raw |
| Fixtures.NormalizesRadioFrequencyDepartment | test/geocoder/openstreetmapgeocoder.test.js:164-237 | the Trần Duy Hưng record normalizes to the expected canonical result |
| Fixtures.NormalizesCoNhueFootballGround | test/geocoder/openstreetmapgeocoder.test.js:263-308 | the reverse record normalizes to the expected result, with province '' since the address has none |
| Fixtures.CompletesWithCoNhueFootballGround | test/geocoder/nominatimmapquestgeocoder.test.js:154-213 | either adapter delivers the reverse record as the single result, with the body as raw |
| Fixtures.LoopbackIsIPv4 | test/geocoder/openstreetmapgeocoder.test.js:33 | '127.0.0.1' is an IPv4 literal |
| Fixtures.SampleIPv6IsTheTestText | test/geocoder/openstreetmapgeocoder.test.js:44 | the sample, written as its eight groups joined by ':', is the text '2001:0db8:0000:85a3:0000:0000:ac1f:8001' |
| Fixtures.SampleIPv6GroupsAreHex | test/geocoder/openstreetmapgeocoder.test.js:44 | each of the eight groups of the sample address is one to four hexadecimal digits |
| Fixtures.SampleIsIPv6 | test/geocoder/openstreetmapgeocoder.test.js:44 | '2001:0db8:0000:85a3:0000:0000:ac1f:8001' is an IPv6 literal |
| OpenStreetMapSuite.ConstructorNeedsHttpAdapter | test/geocoder/openstreetmapgeocoder.test.js:15-19 | constructing without an HTTP adapter fails with MissingDependency |
| OpenStreetMapSuite.MissingAdapterMessage | test/geocoder/openstreetmapgeocoder.test.js:18 | its text is 'OpenStreetMapGeocoder need an httpAdapter' |
| OpenStreetMapSuite.ConstructsWithHttpAdapter | test/geocoder/openstreetmapgeocoder.test.js:21-25 | with an HTTP adapter, construction succeeds with no extras |
| OpenStreetMapSuite.IPv4Message | test/geocoder/openstreetmapgeocoder.test.js:36 | the IPv4 error text |
| OpenStreetMapSuite.RefusesIPv4 | test/geocoder/openstreetmapgeocoder.test.js:29-38 | geocoding '127.0.0.1' sends nothing and throws the IPv4 error |
| OpenStreetMapSuite.IPv6Message | test/geocoder/openstreetmapgeocoder.test.js:47 | the IPv6 error text |
| OpenStreetMapSuite.RefusesIPv6 | test/geocoder/openstreetmapgeocoder.test.js:40-49 | geocoding the sample IPv6 address sends nothing and throws the IPv6 error |
| OpenStreetMapSuite.TextQueryCallsGetOnce | test/geocoder/openstreetmapgeocoder.test.js:51-63 | a text query makes exactly one request, to the search URL |
| OpenStreetMapSuite.ReturnsGeocodedAddress | test/geocoder/openstreetmapgeocoder.test.js:65-162 | the callback gets error false and the single expected result, with the reply as raw |
| OpenStreetMapSuite.ObjectQuerySendsExactlyItsKeys | test/geocoder/openstreetmapgeocoder.test.js:164-237 | a structured query sends exactly its keys plus format and addressdetails, and gets the expected result |
| OpenStreetMapSuite.GeocodeIgnoresFormatAndAddressdetails | test/geocoder/openstreetmapgeocoder.test.js:239-259 | format 'xml' and addressdetails 0 from the caller are replaced by json and 1 |
| OpenStreetMapSuite.ReverseReturnsGeocodedAddress | test/geocoder/openstreetmapgeocoder.test.js:263-335 | reverse delivers error false, the single expected result and the reply object as raw |
| OpenStreetMapSuite.ReverseSendsExtraArguments | test/geocoder/openstreetmapgeocoder.test.js:337-359 | zoom given with the coordinates is sent along with them |
| OpenStreetMapSuite.ConstructorKeepsExtras | test/geocoder/openstreetmapgeocoder.test.js:361-382 | a zoom constructor option becomes an extra of the adapter |
| OpenStreetMapSuite.ReverseUsesConstructorExtras | test/geocoder/openstreetmapgeocoder.test.js:361-382 | that extra is sent with every reverse request |
| OpenStreetMapSuite.ReverseIgnoresFormatAndAddressdetails | test/geocoder/openstreetmapgeocoder.test.js:384-405 | reverse also replaces the caller's format and addressdetails |
| NominatimMapquestSuite.ConstructorNeedsHttpAdapterFirst | test/geocoder/nominatimmapquestgeocoder.test.js:15-19 | with neither adapter nor key, the missing adapter is what is reported |
| NominatimMapquestSuite.MissingAdapterMessage | test/geocoder/nominatimmapquestgeocoder.test.js:18 | its text is 'NominatimMapquestGeocoder need an httpAdapter' |
| NominatimMapquestSuite.ConstructorNeedsApiKey | test/geocoder/nominatimmapquestgeocoder.test.js:21-25 | with an adapter but no options, construction fails with MissingCredential |
| NominatimMapquestSuite.MissingKeyMessage | test/geocoder/nominatimmapquestgeocoder.test.js:24 | its text is 'NominatimMapquestGeocoder needs an apiKey' |
| NominatimMapquestSuite.ConstructsWithHttpAdapterAndKey | test/geocoder/nominatimmapquestgeocoder.test.js:27-33 | with both, construction succeeds, the key held and not left among the extras |
| NominatimMapquestSuite.IPv4Message | test/geocoder/nominatimmapquestgeocoder.test.js:46 | the IPv4 error text |
| NominatimMapquestSuite.RefusesIPv4 | test/geocoder/nominatimmapquestgeocoder.test.js:37-48 | geocoding '127.0.0.1' sends nothing and throws the IPv4 error |
| NominatimMapquestSuite.IPv6Message | test/geocoder/nominatimmapquestgeocoder.test.js:59 | the IPv6 error text |
| NominatimMapquestSuite.RefusesIPv6 | test/geocoder/nominatimmapquestgeocoder.test.js:50-61 | geocoding the sample IPv6 address sends nothing and throws the IPv6 error |
| NominatimMapquestSuite.TextQueryParams | test/geocoder/nominatimmapquestgeocoder.test.js:68-73 | the request goes to the MapQuest search URL with exactly key, addressdetails 1, format json and q |
| NominatimMapquestSuite.TextQueryCallsGetOnce | test/geocoder/nominatimmapquestgeocoder.test.js:63-83 | a text query sends exactly that one request |
| NominatimMapquestSuite.ReturnsGeocodedAddress | test/geocoder/nominatimmapquestgeocoder.test.js:85-150 | the callback gets error false and the single expected result, with the reply as raw |
| NominatimMapquestSuite.ReverseParams | test/geocoder/nominatimmapquestgeocoder.test.js:159-165 | the reverse request goes to the MapQuest reverse URL with exactly key, addressdetails 1, format json, lat and lon |
| NominatimMapquestSuite.ReverseSendsKeyAndReturnsAddress | test/geocoder/nominatimmapquestgeocoder.test.js:154-213 | reverse sends exactly key, addressdetails, format, lat and lon to the MapQuest reverse URL and delivers the expected result |

## Left out

- The code of the adapter classes, `lib/geocoder/openstreetmapgeocoder.js` and `lib/geocoder/nominatimmapquestgeocoder.js`, is not available here. The model follows what the two test suites require of them.
- Node's address classifier is not modelled. Instead `IpLiterals` recognises a dotted quad (octets 0–255, no leading zeros) and an IPv6 literal written in full or with a single "::". IPv6 with an embedded IPv4 tail and zone identifiers are not recognised.
- Fixtures.NormalizesTonkinPalace: latitude and longitude stay the provider's text ('21.02666585'), because the number parsing (`parseFloat`) is floating point. Where the tests expect numbers, the model keeps the decimal text that parses to them.
- Normalizer.PresentTopFieldIsCopied: lat and lon are copied as text, not converted to numbers; see the line above.
- Fixtures.NormalizesRadioFrequencyDepartment: same as above for latitude and longitude.
- Fixtures.NormalizesCoNhueFootballGround: same as above for latitude and longitude.
- Strings.ToUpper: upper-cases the ASCII letters only; JavaScript's full Unicode `toUpperCase` is not modelled.
- Requests.BuildGeocodeRequest: when a key is both a constructor extra and in the caller's query, the contract says only that one of the two values is sent. The body lets the caller's value win over the constructor extra, but no test covers that case.
- Requests.BuildReverseRequest: same as above for a key both in the extras and among the caller's coordinates.
- A field whose value is not a string is treated as absent and normalizes to '' (Normalizer.AbsentTopFieldGivesEmptyField, Normalizer.AbsentAddressKeyGivesEmptyField); the JavaScript adapter's handling of such values is not covered by any test.
- A geocode body that is not an array, or a reverse body that is not an object, gives MalformedResponse. The reverse tests on extra arguments answer with `[]` but never look at the callback's arguments, so no test pins down what the adapter does with such a body.
- Asynchrony, the callback-or-promise calling convention and the HTTP transport are not modelled. `server` stands for the transport's answer.
- The sinon mocks are not modelled. "Called once" is stated as the outcome sending exactly one request.
- Provider-specific options and response fields that the two test suites do not exercise are not modelled.
