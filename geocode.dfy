/** ReverseGeocodeTool.gs.js: the Nominatim reverse-lookup request and the
    location line assembled from its address fields. */
module Geocode {
  import opened Wrappers
  import opened Text
  import opened ToolResults

  const DefaultReverseUrl: string := "https://nominatim.openstreetmap.org/reverse"

  /** The `address` object of the reply; "" stands for a missing or falsy field, and
      a reply without `address` has every field "". */
  datatype Address = Address(village: string, town: string, city: string, state: string,
                             region: string, country: string, peak: string, water: string,
                             natural: string)

  /** The fields of the reply the tool reads: whether `error` is truthy, the address,
      and `display_name` (`None` when undefined). */
  datatype Place = Place(error: bool, address: Address, displayName: Option<string>)

  /** The query string, with the coordinates as JavaScript renders them. */
  function QueryParams(latText: string, lonText: string): seq<string> {
    ["lat=" + latText, "lon=" + lonText, "format=json", "addressdetails=1", "zoom=14"]
  }

  function RequestUrl(reverseUrl: string, latText: string, lonText: string): string {
    reverseUrl + "?" + Join(QueryParams(latText, lonText), "&")
  }

  const FixedParams: seq<string> := ["format=json", "addressdetails=1", "zoom=14"]

  /** The request asks for the location at zoom 14, JSON with address details, in
      that parameter order after the coordinates. */
  lemma RequestUrlShape(reverseUrl: string, latText: string, lonText: string)
    ensures RequestUrl(reverseUrl, latText, lonText)
      == reverseUrl + "?" + ("lat=" + latText) + "&" + ("lon=" + lonText) + "&" + "format=json&addressdetails=1&zoom=14"
  {
    var p := QueryParams(latText, lonText);
    assert p[2..] == FixedParams;
    FixedJoin();
    JoinCons(p[1..], "&");
    assert p[1..][1..] == p[2..];
    JoinCons(p, "&");
  }

  lemma FixedJoin()
    ensures Join(FixedParams, "&") == "format=json&addressdetails=1&zoom=14"
  {
    var f := FixedParams;
    assert f[1..][1..] == ["zoom=14"];
    JoinCons(f[1..], "&");
    JoinCons(f, "&");
  }

  lemma JoinCons(parts: seq<string>, sep: string)
    requires |parts| >= 2
    ensures Join(parts, sep) == parts[0] + sep + Join(parts[1..], sep)
  {
  }

  /** `a || b || c`: the first non-empty string, if any. */
  function FirstPresent(candidates: seq<string>): (r: Option<string>)
    ensures r.Some? ==> r.value != "" && r.value in candidates
    ensures r.None? <==> forall i :: 0 <= i < |candidates| ==> candidates[i] == ""
  {
    if candidates == [] then None
    else if candidates[0] != "" then Some(candidates[0])
    else FirstPresent(candidates[1..])
  }

  lemma FirstPresentOf3(a: string, b: string, c: string)
    ensures FirstPresent([a, b, c]) == if a != "" then Some(a) else if b != "" then Some(b) else if c != "" then Some(c) else None
  {
    assert [a, b, c][1..] == [b, c];
    FirstPresentOf2(b, c);
  }

  lemma FirstPresentOf2(a: string, b: string)
    ensures FirstPresent([a, b]) == if a != "" then Some(a) else if b != "" then Some(b) else None
  {
    assert [a, b][1..] == [b];
    FirstPresentOf1(b);
  }

  lemma FirstPresentOf1(a: string)
    ensures FirstPresent([a]) == if a != "" then Some(a) else None
  {
    assert [a][1..] == [];
  }

  function Present(x: Option<string>): seq<string> {
    if x.Some? then [x.value] else []
  }

  /** The place, most specific first: village, town or city; state or region;
      country. */
  function LocationParts(a: Address): seq<string> {
    Present(FirstPresent([a.village, a.town, a.city])) + Present(FirstPresent([a.state, a.region]))
    + Present(FirstPresent([a.country]))
  }

  /** The nearby features, in the order peak, water, natural. */
  function Features(a: Address): seq<string> {
    (if a.peak != "" then ["near " + a.peak] else []) + (if a.water != "" then ["near " + a.water] else [])
    + (if a.natural != "" then ["near " + a.natural] else [])
  }

  /** How JavaScript renders the location string once something is appended to it:
      an undefined `display_name` becomes "undefined". */
  function Rendered(x: Option<string>): string {
    if x.Some? then x.value else "undefined"
  }

  /** The data of a successful lookup: the parts joined by ", " (or the display name
      when there are none), then the features in parentheses when there are any. */
  function Describe(place: Place): Option<string> {
    var parts := LocationParts(place.address);
    var locationStr := if parts != [] then Some(Join(parts, ", ")) else place.displayName;
    var features := Features(place.address);
    if features != [] then Some(Rendered(locationStr) + " (" + Join(features, ", ") + ")")
    else locationStr
  }

  /** The most specific name wins: a village hides the town and the city, a town the
      city, a state the region; and the parts are never more than three. */
  lemma PartsPrecedence(a: Address)
    ensures |LocationParts(a)| <= 3
    ensures a.village != "" ==> |LocationParts(a)| > 0 && LocationParts(a)[0] == a.village
    ensures a.village == "" && a.town != "" ==> |LocationParts(a)| > 0 && LocationParts(a)[0] == a.town
    ensures (a.village == "" && a.town == "" && a.city != "") ==>
      |LocationParts(a)| > 0 && LocationParts(a)[0] == a.city
    ensures (a.village == "" && a.town == "" && a.city == "" && a.state != "") ==>
      |LocationParts(a)| > 0 && LocationParts(a)[0] == a.state
    ensures (LocationParts(a) == []) <==>
      (a.village == "" && a.town == "" && a.city == "" && a.state == "" && a.region == "" && a.country == "")
  {
    FirstPresentOf3(a.village, a.town, a.city);
    FirstPresentOf2(a.state, a.region);
    FirstPresentOf1(a.country);
  }

  /** The display name is used exactly when no structured part is present, and the
      parenthesised suffix appears exactly when some feature is present. */
  lemma DescribeFallbacks(place: Place)
    ensures LocationParts(place.address) == [] && Features(place.address) == [] ==>
      Describe(place) == place.displayName
    ensures Features(place.address) == [] ==> Describe(place).Some? || LocationParts(place.address) == []
    ensures Features(place.address) != [] ==>
      Describe(place).Some? && |Describe(place).value| > 0
      && Describe(place).value[|Describe(place).value| - 1] == ')'
  {
    var parts := LocationParts(place.address);
    var locationStr := if parts != [] then Some(Join(parts, ", ")) else place.displayName;
    var features := Features(place.address);
    if features != [] {
      var d := Rendered(locationStr) + " (" + Join(features, ", ") + ")";
      assert d[|d| - 1] == ')';
    }
  }

  /** The location parts, pushed most specific first. */
  method GatherParts(addr: Address) returns (locationParts: seq<string>)
    ensures locationParts == LocationParts(addr)
  {
    FirstPresentOf3(addr.village, addr.town, addr.city);
    FirstPresentOf2(addr.state, addr.region);
    FirstPresentOf1(addr.country);
    locationParts := [];
    var place := FirstPresent([addr.village, addr.town, addr.city]);
    if place.Some? {
      locationParts := locationParts + [place.value];
    }
    var area := FirstPresent([addr.state, addr.region]);
    if area.Some? {
      locationParts := locationParts + [area.value];
    }
    if addr.country != "" {
      locationParts := locationParts + [addr.country];
    }
  }

  /** The nearby features, pushed in order. */
  method GatherFeatures(addr: Address) returns (features: seq<string>)
    ensures features == Features(addr)
  {
    features := [];
    if addr.peak != "" {
      features := features + ["near " + addr.peak];
    }
    if addr.water != "" {
      features := features + ["near " + addr.water];
    }
    if addr.natural != "" {
      features := features + ["near " + addr.natural];
    }
  }

  /** The location line of a found place. */
  method DescribePlace(json: Place) returns (output: Option<string>)
    ensures output == Describe(json)
  {
    var locationParts := GatherParts(json.address);
    var locationStr := if |locationParts| > 0 then Some(Join(locationParts, ", ")) else json.displayName;
    var features := GatherFeatures(json.address);
    output := locationStr;
    if |features| > 0 {
      output := Some(Rendered(locationStr) + " (" + Join(features, ", ") + ")");
    }
  }

  /** `fetch(lat, lon)` once the lookup is answered: a thrown exception or an
      unparsable body gives `EXCEPTION:`, a code other than 200 gives `HTTP_<code>`,
      a truthy `error` gives `NOT_FOUND`, and otherwise the location line is the
      data. */
  method FetchPlace(reply: Reply<Place>) returns (result: ToolResult)
    ensures WellFormed(result)
    ensures reply.Threw? ==> result == Fail(ExceptionError(reply.message))
    ensures reply.Replied? && reply.code != 200 ==> result == Fail(HttpError(reply.code))
    ensures reply.Replied? && reply.code == 200 && reply.body.Malformed? ==>
      result == Fail(ExceptionError(reply.body.message))
    ensures reply.Replied? && reply.code == 200 && reply.body.Parsed? ==>
      result == if reply.body.value.error then Fail("NOT_FOUND")
                else ToolResult(true, Describe(reply.body.value), None)
  {
    match reply
    case Threw(message) =>
      return Fail(ExceptionError(message));
    case Replied(code, body) =>
      if code != 200 {
        return Fail(HttpError(code));
      }
      match body
      case Malformed(message) =>
        return Fail(ExceptionError(message));
      case Parsed(json) =>
        if json.error {
          return Fail("NOT_FOUND");
        }
        var output := DescribePlace(json);
        return ToolResult(true, output, None);
  }
}
