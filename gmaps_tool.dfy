/** `GoogleMapsTool`: shaping of the Places text-search and Place Details
    responses. The Google Maps client is a function from request to response. */
module GoogleMaps {
  import opened Values

  /** At most this many candidates go on to the evidence loop. */
  const MaxCandidates := 5
  /** At most this many review texts are kept per place. */
  const MaxReviews := 5
  /** The opening-hours value when the details carry no weekday text. */
  const NotProvided := "未提供"

  /** A Places text-search response: its "results" list of place objects, if the key is present. */
  datatype PlacesResponse = PlacesResponse(results: Option<seq<Object>>)

  /** A Place Details response: its "result" object, if the key is present. */
  datatype DetailsResponse = DetailsResponse(result: Option<PlaceResult>)

  /** The "result" object: its scalar fields (such as "name" and "url"), its
      "reviews" list of review objects and its "opening_hours" object, each list
      or object only if present. */
  datatype PlaceResult = PlaceResult(fields: Object, reviews: Option<seq<Object>>, openingHours: Option<Object>)

  /** One candidate returned by `search_cafes`. */
  datatype Cafe = Cafe(name: Json, placeId: Json, rating: Json, address: Json)

  /** What `get_cafe_details` returns. */
  datatype CafeDetails = CafeDetails(name: Json, openingHours: Json, url: Json, reviews: seq<Json>)

  /** `places_result.get('results', [])` */
  function Results(resp: PlacesResponse): seq<Object> {
    match resp.results
    case None => []
    case Some(rs) => rs
  }

  /** The four fields a candidate keeps; "formatted_address" becomes `address`. */
  function ProjectPlace(place: Object): Cafe {
    Cafe(Get(place, "name"), Get(place, "place_id"), Get(place, "rating"), Get(place, "formatted_address"))
  }

  /** The candidates of a response: the first `MaxCandidates` places, in order, projected. */
  function Candidates(resp: PlacesResponse): (cafes: seq<Cafe>)
    ensures |cafes| == Min(MaxCandidates, |Results(resp)|) <= MaxCandidates
    ensures forall i :: 0 <= i < |cafes| ==> cafes[i] == ProjectPlace(Results(resp)[i])
    ensures resp.results.None? ==> cafes == []
  {
    var rs := Results(resp);
    seq(Min(MaxCandidates, |rs|), i requires 0 <= i < Min(MaxCandidates, |rs|) => ProjectPlace(rs[i]))
  }

  /** `search_cafes(query)`: asks the Places client and keeps the first five results. */
  method SearchCafes(query: Json, places: Json -> PlacesResponse) returns (cafes: seq<Cafe>)
    ensures |cafes| <= MaxCandidates
    ensures cafes == Candidates(places(query))
  {
    var placesResult := places(query);
    var rs := Results(placesResult);
    var firstFive := rs[..Min(MaxCandidates, |rs|)];
    cafes := [];
    for i := 0 to |firstFive|
      invariant |cafes| == i
      invariant forall k :: 0 <= k < i ==> cafes[k] == ProjectPlace(rs[k])
    {
      cafes := cafes + [ProjectPlace(firstFive[i])];
    }
  }

  /** `r.get('text', '')` */
  function ReviewText(review: Object): Json {
    GetOr(review, "text", JString(""))
  }

  /** `result.get('opening_hours', {}).get('weekday_text', '未提供')` */
  function OpeningHours(hours: Option<Object>): (h: Json)
    ensures hours.None? || "weekday_text" !in hours.value ==> h == JString(NotProvided)
    ensures hours.Some? && "weekday_text" in hours.value ==> h == hours.value["weekday_text"]
  {
    match hours
    case None => JString(NotProvided)
    case Some(o) => GetOr(o, "weekday_text", JString(NotProvided))
  }

  /** `get_cafe_details(place_id)`: asks the Details client and shapes its "result". */
  function GetCafeDetails(placeId: Json, details: Json -> DetailsResponse): (d: CafeDetails)
    ensures var resp := details(placeId);
      var reviews := if resp.result.Some? && resp.result.value.reviews.Some? then resp.result.value.reviews.value else [];
      && |d.reviews| == Min(MaxReviews, |reviews|) <= MaxReviews
      && (forall i :: 0 <= i < |d.reviews| ==> d.reviews[i] == ReviewText(reviews[i]))
    ensures details(placeId).result.None? ==>
      d == CafeDetails(JNull, JString(NotProvided), JNull, [])
    ensures details(placeId).result.Some? ==>
      var r := details(placeId).result.value;
      && d.name == Get(r.fields, "name")
      && d.url == Get(r.fields, "url")
      && d.openingHours == OpeningHours(r.openingHours)
  {
    var result := match details(placeId).result
      case None => PlaceResult(map[], None, None)
      case Some(r) => r;
    var reviews := match result.reviews
      case None => []
      case Some(rs) => rs;
    var top := reviews[..Min(MaxReviews, |reviews|)];
    CafeDetails(
      Get(result.fields, "name"),
      OpeningHours(result.openingHours),
      Get(result.fields, "url"),
      seq(|top|, i requires 0 <= i < |top| => ReviewText(top[i])))
  }
}
