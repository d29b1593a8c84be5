# Bus-stop lookup API, modelled in Dafny

This project models the `/api/busstops` route of the bus-app frontend
(`frontend/bus-app/pages/api/busstops.ts`). The route takes an optional
`location` query, geocodes it with Google Maps, searches bus stations within
16093 m (10 miles) of the first geocoding result, and asks the directions
service, once per station, for transit directions from the location to the
station. Each station is returned with the transit steps of its first route.
A station whose lookup fails gets an empty list.

The Google Maps client is not modelled. Its answers are inputs: a `Client`
record of three answer functions (`google_maps.dfy`). Every call may also throw,
and that is the `Threw` case of each outcome. The directions answer function
also receives the station's position in the fan-out, so each station's call
can fail on its own. Given the query and the client, the handler (`Handle`) is
a deterministic function. It returns the HTTP response it writes (status plus
either an error message or the list of stations) and the trace of the provider
calls it issued, in order.

Files:
- `wrappers.dfy`: `Option`, for JavaScript properties that may be missing.
- `google_maps.dfy`: requests, outcomes, the `Client` record and the `Call` trace entries.
- `transit.dfy`: `getTransitDirections` (transit-step extraction, failures give the empty list).
- `bus_stops.dfy`: `handler` (default location, status dispatch, stop mapping, fan-out),
  and the lemmas about each of its paths.

Three behaviours of the route worth knowing:
- Any non-OK places status, including the provider's "no results" status, answers 500
  with the bus-stop error. An empty station list is not a separate outcome.
- A geocode reply with status OK and no results answers 500 "Internal Server Error"
  (`results[0]` throws into the outer `catch`), not "Geocoding failed".
- The response does not sort stations or departures, parse departure text or compute
  distances. None of that happens in this route.

## Model

| member | source | states |
|---|---|---|
| `Transit.InfoOf` | frontend/bus-app/pages/api/busstops.ts:31-41 | an entry copies the line name and the departure text, time zone and epoch value unchanged |
| `Transit.StepsTransit` | frontend/bus-app/pages/api/busstops.ts:29-42 | one leg's extraction has at most one entry per step, and none when no step carries transit details |
| `Transit.TransitPositions` | frontend/bus-app/pages/api/busstops.ts:30 | the positions the filter keeps are ascending, each carries transit details, and every step that does is among them |
| `Transit.StepsTransitExact` | frontend/bus-app/pages/api/busstops.ts:29-42 | the extraction has one entry per transit-carrying step, and its k-th entry is made from the k-th such step (exactly those steps, in step order) |
| `Transit.StepsTransitMembership` | frontend/bus-app/pages/api/busstops.ts:29-42 | an entry is in the extraction if and only if some step carries the transit details it is made from |
| `Transit.StepsTransitAppend` | frontend/bus-app/pages/api/busstops.ts:28-43 | extracting from two step lists back to back is the concatenation of the two extractions |
| `Transit.AllSteps` | frontend/bus-app/pages/api/busstops.ts:25-28 | the steps of all legs (leg order given by its body); no legs give no steps, one leg gives that leg's steps |
| `Transit.AllStepsAppend` | frontend/bus-app/pages/api/busstops.ts:25-28 | the steps of two leg lists back to back are the steps of the first list followed by those of the second, so legs contribute in leg order |
| `Transit.LegsTransit` | frontend/bus-app/pages/api/busstops.ts:28-43 | the flat-map over legs has at most one entry per step of all legs |
| `Transit.LegsTransitFlattens` | frontend/bus-app/pages/api/busstops.ts:25-43 | the flat-map over legs equals the extraction from all steps in leg order, then step order |
| `Transit.DirectionsFor` | frontend/bus-app/pages/api/busstops.ts:14-22 | each directions request goes from the origin to the destination in transit mode, departing now |
| `Transit.TransitDirections` | frontend/bus-app/pages/api/busstops.ts:12-53 | a thrown call, a non-OK status or an OK status without routes gives the empty list; otherwise the transit steps of all legs of the first route |
| `Transit.OnlyFirstRouteMatters` | frontend/bus-app/pages/api/busstops.ts:25 | routes after the first never change the result |
| `BusStopsApi.Location` | frontend/bus-app/pages/api/busstops.ts:59 | a missing or empty location becomes "Athens, GA"; any other location is used as given; the result is never empty |
| `BusStopsApi.Description` | frontend/bus-app/pages/api/busstops.ts:91 | a present, non-empty vicinity is the description; a missing or empty one becomes "No description available"; never empty |
| `BusStopsApi.ToBusStop` | frontend/bus-app/pages/api/busstops.ts:86-92 | a station copies place id, name and coordinates and takes its description from the vicinity |
| `BusStopsApi.BusStops` | frontend/bus-app/pages/api/busstops.ts:86-92 | one station per place result, in the same order, with id, name and coordinates copied and a non-empty description |
| `BusStopsApi.StopRequest` | frontend/bus-app/pages/api/busstops.ts:100 | a station's directions request goes from the location to that station's coordinates |
| `BusStopsApi.Enrich` | frontend/bus-app/pages/api/busstops.ts:98-106 | one entry per station, in order, keeping the station; a station whose own lookup fails gets no departures |
| `BusStopsApi.DirectionsCalls` | frontend/bus-app/pages/api/busstops.ts:98-106 | one directions call per station, in station order, from the location to the station |
| `BusStopsApi.PlacesFor` | frontend/bus-app/pages/api/busstops.ts:75-82 | the places search is around the given point, with radius 16093 and type "bus_station" |
| `BusStopsApi.Handle` | frontend/bus-app/pages/api/busstops.ts:57-123 | status is 200 or 500; 200 exactly when geocoding found a result and the places status is OK, and then the body is a station list (its contents: `BusStopsApiProperties.Success`); the first call geocodes the location; a failed request makes no directions call; every directions call starts at the location |
| `BusStopsApiProperties.DefaultLocationUsed` | frontend/bus-app/pages/api/busstops.ts:59-65 | without a location, "Athens, GA" is geocoded and is the origin of every directions call |
| `BusStopsApiProperties.GeocodeFailure` | frontend/bus-app/pages/api/busstops.ts:70-117 | a non-OK geocode status answers 500 "Geocoding failed" after the geocode call alone |
| `BusStopsApiProperties.GeocodeNoResult` | frontend/bus-app/pages/api/busstops.ts:71-121 | a thrown geocode call or an OK status without results answers 500 "Internal Server Error" after the geocode call alone |
| `BusStopsApiProperties.PlacesSearchRequest` | frontend/bus-app/pages/api/busstops.ts:71-82 | the second call is the places search around the first geocoding result, radius 16093, type "bus_station" |
| `BusStopsApiProperties.PlacesFailure` | frontend/bus-app/pages/api/busstops.ts:75-121 | a non-OK places status answers 500 with the bus-stop error, a thrown search answers 500 "Internal Server Error", and no directions call follows |
| `BusStopsApiProperties.Success` | frontend/bus-app/pages/api/busstops.ts:85-112 | 200 with one entry per place in the same order, fields copied, each with the departures of its own directions call; the calls are geocode, places, then one directions call per place |
| `BusStopsApiProperties.StopIsolation` | frontend/bus-app/pages/api/busstops.ts:98-106 | changing one station's directions answer leaves every other station's entry unchanged; a station whose lookup fails gets no departures |

## Left out

- The Google Maps client, the API key read from the environment, and the `console.log` / `console.error` calls. The client's answers are inputs.
- `Promise.all` concurrency. The per-station tasks are independent and each catches its own errors, so the fan-out is modelled as an ordered map.
- The "lat,lng" text sent as the places location and the directions destination. The model records the coordinate pair itself.
- A `location` query given more than once (a `string[]` value, passed on by the cast `location as string`). The query is modelled as an optional string.
- Provider records of the wrong shape, for example a place without `geometry` or a transit detail without `line`. The model's datatypes make every such field present.
- `haversineDistance` in `frontend/bus-app/utils/utils.ts`: floating-point trigonometry, with nothing exact to state.
- `getUserLocation` in `frontend/bus-app/utils/utils.ts`: browser geolocation I/O.
- The React pages and components, and the Firebase sign-in and sign-up wrappers. They hold no logic of the route.
