/**
 * The three Google Maps web-service calls the bus-stop API makes, seen from the
 * caller: the requests it sends and the answers it may get back. The client
 * library is not modelled; its answers are inputs, supplied by a `Client` record
 * of answer functions. Every call can also throw (a network or HTTP failure),
 * which is the `Threw` case of each outcome.
 */
module GoogleMaps {
  import opened Wrappers

  /** The status every provider reports on success. */
  const OK := "OK"

  /** A latitude/longitude pair. The API only copies coordinates, never computes on them. */
  datatype Coord = Coord(lat: real, lng: real)

  // ----- Geocoding -----

  datatype GeocodeRequest = GeocodeRequest(address: string)

  /** `results` holds `results[i].geometry.location` of each geocoding result. */
  datatype GeocodeOutcome =
    | GeocodeThrew
    | GeocodeReplied(status: string, results: seq<Coord>)

  // ----- Places nearby search -----

  /** `location` is sent as the text "lat,lng" of this pair. */
  datatype PlacesRequest = PlacesRequest(location: Coord, radius: int, placeType: string)

  /** One place result; `vicinity` is an optional property of the provider's record. */
  datatype Place = Place(placeId: string, name: string, location: Coord, vicinity: Option<string>)

  datatype PlacesOutcome =
    | PlacesThrew
    | PlacesReplied(status: string, results: seq<Place>)

  // ----- Directions -----

  /** `destination` is sent as the text "lat,lng" of this pair. */
  datatype DirectionsRequest = DirectionsRequest(origin: string, destination: Coord, mode: string, departureTime: string)

  /** A departure time as the provider reports it: display text, zone and epoch seconds. */
  datatype Time = Time(text: string, timeZone: string, value: int)

  datatype TransitLine = TransitLine(name: string)

  /** The parts of a step's transit details that the route reads. */
  datatype TransitDetails = TransitDetails(line: TransitLine, departureTime: Time)

  /** A walking or driving step carries no transit details. */
  datatype Step = Step(transitDetails: Option<TransitDetails>)

  datatype Leg = Leg(steps: seq<Step>)

  datatype Route = Route(legs: seq<Leg>)

  datatype DirectionsOutcome =
    | DirectionsThrew
    | DirectionsReplied(status: string, routes: seq<Route>)

  /**
   * The provider as the API sees it. `directions` answers the directions call made
   * for the stop at the given position of the fan-out, so that each stop's call
   * may succeed or fail on its own.
   */
  datatype Client = Client(
    geocode: GeocodeRequest -> GeocodeOutcome,
    placesNearby: PlacesRequest -> PlacesOutcome,
    directions: (nat, DirectionsRequest) -> DirectionsOutcome)

  /** A provider call the API issued, in the order issued. */
  datatype Call =
    | GeocodeCall(geocodeRequest: GeocodeRequest)
    | PlacesCall(placesRequest: PlacesRequest)
    | DirectionsCall(directionsRequest: DirectionsRequest)
}
