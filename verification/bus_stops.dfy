/**
 * The `/api/busstops` handler: geocode the requested location, search bus
 * stations around it, and enrich every station with its transit departures.
 * The handler is a function of the query and of the provider's answers; it
 * returns the HTTP response it writes and the provider calls it issued.
 */
module BusStopsApi {
  import opened Wrappers
  import opened GoogleMaps
  import opened Transit

  /** Location used when the query has none. */
  const DefaultLocation := "Athens, GA"
  /** Search radius around the geocoded point, in meters (10 miles). */
  const SearchRadius := 16093
  const StationType := "bus_station"
  const NoDescription := "No description available"

  const GeocodingFailed := "Geocoding failed"
  const StopsFailed := "Failed to fetch bus stops from Google Maps API"
  const InternalServerError := "Internal Server Error"

  /** A station as the API reports it. */
  datatype BusStop = BusStop(id: string, name: string, lat: real, lng: real, description: string)

  /** A station with its transit departures (`{...stop, transitInfo}`). */
  datatype StopWithTransit = StopWithTransit(stop: BusStop, transitInfo: seq<TransitInfo>)

  datatype Body = ErrorBody(error: string) | StopsBody(stops: seq<StopWithTransit>)

  datatype Response = Response(status: int, body: Body)

  /** The response written and the provider calls issued, in order. */
  datatype Exchange = Exchange(response: Response, calls: seq<Call>)

  /** `req.query.location || 'Athens, GA'`: a missing or empty location falls back to the default. */
  function Location(query: Option<string>): (loc: string)
    ensures loc != ""
    ensures query.Some? && query.value != "" ==> loc == query.value
    ensures query.None? || query.value == "" ==> loc == DefaultLocation
  {
    match query
    case Some(s) => if s != "" then s else DefaultLocation
    case None => DefaultLocation
  }

  /** `stop.vicinity || 'No description available'`: a missing or empty vicinity falls back. */
  function Description(vicinity: Option<string>): (d: string)
    ensures d != ""
    ensures vicinity.Some? && vicinity.value != "" ==> d == vicinity.value
    ensures vicinity.None? || vicinity.value == "" ==> d == NoDescription
  {
    match vicinity
    case Some(v) => if v != "" then v else NoDescription
    case None => NoDescription
  }

  /** The station record made from one place result. */
  function ToBusStop(place: Place): (b: BusStop)
    ensures b.id == place.placeId && b.name == place.name
    ensures b.lat == place.location.lat && b.lng == place.location.lng
    ensures b.description == Description(place.vicinity)
  {
    BusStop(place.placeId, place.name, place.location.lat, place.location.lng, Description(place.vicinity))
  }

  /** The stop mapping: one station per place result, in the provider's order. */
  function BusStops(places: seq<Place>): (r: seq<BusStop>)
    ensures |r| == |places|
    ensures forall i :: 0 <= i < |places| ==> r[i].id == places[i].placeId && r[i].name == places[i].name
    ensures forall i :: 0 <= i < |places| ==> Coord(r[i].lat, r[i].lng) == places[i].location
    ensures forall i :: 0 <= i < |places| ==> r[i].description != ""
  {
    seq(|places|, i requires 0 <= i < |places| => ToBusStop(places[i]))
  }

  /** The directions request for one station: from the location to the station's coordinates. */
  function StopRequest(origin: string, stop: BusStop): (q: DirectionsRequest)
    ensures q.origin == origin && q.destination == Coord(stop.lat, stop.lng)
  {
    DirectionsFor(origin, Coord(stop.lat, stop.lng))
  }

  /** The fan-out: each station gets the departures of its own directions call. */
  function Enrich(origin: string, stops: seq<BusStop>, directions: (nat, DirectionsRequest) -> DirectionsOutcome)
    : (r: seq<StopWithTransit>)
    ensures |r| == |stops|
    ensures forall i :: 0 <= i < |stops| ==> r[i].stop == stops[i]
    ensures forall i :: 0 <= i < |stops| && !HasFirstRoute(directions(i, StopRequest(origin, stops[i]))) ==>
      r[i].transitInfo == []
  {
    seq(|stops|, i requires 0 <= i < |stops| =>
      StopWithTransit(stops[i], TransitDirections(directions(i, StopRequest(origin, stops[i])))))
  }

  /** The directions calls of the fan-out, one per station, in station order. */
  function DirectionsCalls(origin: string, stops: seq<BusStop>): (calls: seq<Call>)
    ensures |calls| == |stops|
    ensures forall i :: 0 <= i < |stops| ==>
      calls[i].DirectionsCall? && calls[i].directionsRequest.origin == origin &&
      calls[i].directionsRequest.destination == Coord(stops[i].lat, stops[i].lng)
  {
    seq(|stops|, i requires 0 <= i < |stops| => DirectionsCall(StopRequest(origin, stops[i])))
  }

  /** The geocode answer the handler acts on. */
  function GeocodeAnswer(query: Option<string>, client: Client): GeocodeOutcome {
    client.geocode(GeocodeRequest(Location(query)))
  }

  /** Geocoding succeeded with at least one result, whose coordinates are then used. */
  predicate GeocodeFound(g: GeocodeOutcome) {
    g.GeocodeReplied? && g.status == OK && |g.results| > 0
  }

  /** The places search around the first geocoding result. */
  function PlacesFor(center: Coord): (q: PlacesRequest)
    ensures q.location == center && q.radius == 16093 && q.placeType == "bus_station"
  {
    PlacesRequest(center, SearchRadius, StationType)
  }

  /** The whole request: what `handler` writes to `res` and which provider calls it made. */
  function Handle(query: Option<string>, client: Client): (r: Exchange)
    ensures r.response.status == 200 || r.response.status == 500
    ensures r.response.status == 200 <==> r.response.body.StopsBody?
    ensures |r.calls| > 0 && r.calls[0] == GeocodeCall(GeocodeRequest(Location(query)))
    ensures r.response.status == 200 <==>
      GeocodeFound(GeocodeAnswer(query, client)) &&
      var p := client.placesNearby(PlacesFor(GeocodeAnswer(query, client).results[0]));
      p.PlacesReplied? && p.status == OK
    ensures r.response.status != 200 ==> forall c :: c in r.calls ==> !c.DirectionsCall?
    ensures forall c :: c in r.calls && c.DirectionsCall? ==> c.directionsRequest.origin == Location(query)
  {
    var location := Location(query);
    var geocodeCall := GeocodeCall(GeocodeRequest(location));
    match client.geocode(GeocodeRequest(location))
    case GeocodeThrew =>
      Exchange(Response(500, ErrorBody(InternalServerError)), [geocodeCall])
    case GeocodeReplied(status, results) =>
      if status != OK then
        Exchange(Response(500, ErrorBody(GeocodingFailed)), [geocodeCall])
      else if |results| == 0 then
        // `results[0].geometry` throws; the outer catch answers
        Exchange(Response(500, ErrorBody(InternalServerError)), [geocodeCall])
      else
        var placesRequest := PlacesFor(results[0]);
        var calls := [geocodeCall, PlacesCall(placesRequest)];
        match client.placesNearby(placesRequest)
        case PlacesThrew =>
          Exchange(Response(500, ErrorBody(InternalServerError)), calls)
        case PlacesReplied(placesStatus, places) =>
          if placesStatus != OK then
            Exchange(Response(500, ErrorBody(StopsFailed)), calls)
          else
            var stops := BusStops(places);
            Exchange(Response(200, StopsBody(Enrich(location, stops, client.directions))),
                     calls + DirectionsCalls(location, stops))
  }
}

/** What the handler promises on each of its paths, and how the stations stay independent. */
module BusStopsApiProperties {
  import opened Wrappers
  import opened GoogleMaps
  import opened Transit
  import opened BusStopsApi

  /** Without a location the default one is geocoded and is the origin of every directions call. */
  lemma DefaultLocationUsed(client: Client)
    ensures Handle(None, client).calls[0] == GeocodeCall(GeocodeRequest("Athens, GA"))
    ensures forall c :: c in Handle(None, client).calls && c.DirectionsCall? ==>
      c.directionsRequest.origin == "Athens, GA"
  {
  }

  /** A non-OK geocode status answers 500 "Geocoding failed" and makes no further call. */
  lemma GeocodeFailure(query: Option<string>, client: Client)
    requires GeocodeAnswer(query, client).GeocodeReplied? && GeocodeAnswer(query, client).status != "OK"
    ensures Handle(query, client) ==
      Exchange(Response(500, ErrorBody("Geocoding failed")), [GeocodeCall(GeocodeRequest(Location(query)))])
  {
  }

  /**
   * A geocode call that throws, or an OK status without results (`results[0]`
   * throws), answers 500 "Internal Server Error" and makes no further call.
   */
  lemma GeocodeNoResult(query: Option<string>, client: Client)
    requires var g := GeocodeAnswer(query, client);
      g.GeocodeThrew? || (g.status == "OK" && g.results == [])
    ensures Handle(query, client) ==
      Exchange(Response(500, ErrorBody("Internal Server Error")), [GeocodeCall(GeocodeRequest(Location(query)))])
  {
  }

  /** The places search is made around the first geocoding result, within 16093 m, for bus stations. */
  lemma PlacesSearchRequest(query: Option<string>, client: Client)
    requires GeocodeFound(GeocodeAnswer(query, client))
    ensures |Handle(query, client).calls| >= 2
    ensures Handle(query, client).calls[1] ==
      PlacesCall(PlacesRequest(GeocodeAnswer(query, client).results[0], 16093, "bus_station"))
  {
  }

  /**
   * A non-OK places status, whatever it is, answers 500 with the bus-stop error;
   * a thrown places call answers 500 "Internal Server Error". Either way no
   * directions call is made.
   */
  lemma PlacesFailure(query: Option<string>, client: Client)
    requires GeocodeFound(GeocodeAnswer(query, client))
    requires var p := client.placesNearby(PlacesFor(GeocodeAnswer(query, client).results[0]));
      p.PlacesThrew? || p.status != "OK"
    ensures var p := client.placesNearby(PlacesFor(GeocodeAnswer(query, client).results[0]));
      Handle(query, client) == Exchange(
        Response(500, ErrorBody(if p.PlacesThrew? then "Internal Server Error"
                                else "Failed to fetch bus stops from Google Maps API")),
        [GeocodeCall(GeocodeRequest(Location(query))),
         PlacesCall(PlacesFor(GeocodeAnswer(query, client).results[0]))])
  {
  }

  /**
   * On success the answer is 200 with one entry per place result, in the same
   * order, each made from its place and carrying the departures of its own
   * directions call; the calls are the geocode, the places search and one
   * directions call per place from the location to the place.
   */
  lemma Success(query: Option<string>, client: Client)
    requires GeocodeFound(GeocodeAnswer(query, client))
    requires var p := client.placesNearby(PlacesFor(GeocodeAnswer(query, client).results[0]));
      p.PlacesReplied? && p.status == "OK"
    ensures var places := client.placesNearby(PlacesFor(GeocodeAnswer(query, client).results[0])).results;
      var r := Handle(query, client);
      && r.response.status == 200
      && |r.response.body.stops| == |places|
      && |r.calls| == 2 + |places|
      && forall i :: 0 <= i < |places| ==>
        var e := r.response.body.stops[i];
        && e.stop.id == places[i].placeId
        && e.stop.name == places[i].name
        && Coord(e.stop.lat, e.stop.lng) == places[i].location
        && e.stop.description == Description(places[i].vicinity)
        && r.calls[2 + i] == DirectionsCall(DirectionsFor(Location(query), places[i].location))
        && e.transitInfo == TransitDirections(client.directions(i, DirectionsFor(Location(query), places[i].location)))
  {
    var places := client.placesNearby(PlacesFor(GeocodeAnswer(query, client).results[0])).results;
    var stops := BusStops(places);
    var r := Handle(query, client);
    assert r.calls[2..] == DirectionsCalls(Location(query), stops);
    forall i | 0 <= i < |places|
      ensures StopRequest(Location(query), stops[i]) == DirectionsFor(Location(query), places[i].location)
    {
    }
  }

  /**
   * Per-stop isolation: two provider runs that answer the geocode and places
   * calls alike and every directions call alike except the one for stop j give
   * the same entry for every stop other than j; and stop j has no departures
   * when its own lookup failed.
   */
  lemma StopIsolation(query: Option<string>, c1: Client, c2: Client, j: nat)
    requires GeocodeAnswer(query, c1) == GeocodeAnswer(query, c2)
    requires GeocodeFound(GeocodeAnswer(query, c1))
    requires var center := GeocodeAnswer(query, c1).results[0];
      c1.placesNearby(PlacesFor(center)) == c2.placesNearby(PlacesFor(center))
    requires var p := c1.placesNearby(PlacesFor(GeocodeAnswer(query, c1).results[0]));
      && p.PlacesReplied? && p.status == "OK"
      && forall i :: 0 <= i < |p.results| && i != j ==>
        var q := DirectionsFor(Location(query), p.results[i].location);
        c1.directions(i, q) == c2.directions(i, q)
    ensures var r1 := Handle(query, c1).response; var r2 := Handle(query, c2).response;
      && r1.status == 200 && r2.status == 200
      && |r1.body.stops| == |r2.body.stops|
      && forall i :: 0 <= i < |r1.body.stops| && i != j ==> r1.body.stops[i] == r2.body.stops[i]
    ensures var p := c2.placesNearby(PlacesFor(GeocodeAnswer(query, c2).results[0]));
      j < |p.results| && !HasFirstRoute(c2.directions(j, DirectionsFor(Location(query), p.results[j].location))) ==>
        Handle(query, c2).response.body.stops[j].transitInfo == []
  {
    var p := c1.placesNearby(PlacesFor(GeocodeAnswer(query, c1).results[0]));
    var stops := BusStops(p.results);
    forall i | 0 <= i < |p.results|
      ensures StopRequest(Location(query), stops[i]) == DirectionsFor(Location(query), p.results[i].location)
    {
    }
  }
}
