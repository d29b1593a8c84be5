/**
 * `getTransitDirections` of the bus-stop API: one directions lookup per stop,
 * flattened into the list of transit departures the stop is shown with.
 * The lookup never fails: every failure becomes the empty list.
 */
module Transit {
  import opened Wrappers
  import opened GoogleMaps

  /** Travel mode and departure time every directions request asks for. */
  const TransitMode := "transit"
  const DepartNow := "now"

  /** One entry of a stop's `transitInfo`: the line name and the departure time as reported. */
  datatype TransitInfo = TransitInfo(line: string, departureTime: Time)

  /** The entry made from one step's transit details. */
  function InfoOf(d: TransitDetails): (e: TransitInfo)
    ensures e.line == d.line.name
    ensures e.departureTime.text == d.departureTime.text
    ensures e.departureTime.timeZone == d.departureTime.timeZone
    ensures e.departureTime.value == d.departureTime.value
  {
    TransitInfo(d.line.name, d.departureTime)
  }

  /** `steps.filter(step => step.transit_details).map(...)` for one leg. */
  function StepsTransit(steps: seq<Step>): (r: seq<TransitInfo>)
    ensures |r| <= |steps|
    ensures (forall i :: 0 <= i < |steps| ==> steps[i].transitDetails.None?) ==> r == []
  {
    if steps == [] then []
    else
      match steps[0].transitDetails
      case Some(d) => [InfoOf(d)] + StepsTransit(steps[1..])
      case None => StepsTransit(steps[1..])
  }

  /**
   * The positions, in ascending order, of the steps that carry transit details:
   * an independent description of which steps the filter keeps.
   */
  function TransitPositions(steps: seq<Step>): (p: seq<nat>)
    ensures forall k :: 0 <= k < |p| ==> p[k] < |steps| && steps[p[k]].transitDetails.Some?
    ensures forall k, l :: 0 <= k < l < |p| ==> p[k] < p[l]
    ensures forall i :: 0 <= i < |steps| && steps[i].transitDetails.Some? ==> i in p
  {
    if steps == [] then []
    else
      var n := |steps| - 1;
      var init := TransitPositions(steps[..n]);
      if steps[n].transitDetails.Some? then init + [n] else init
  }

  /** Filtering distributes over concatenation of step lists. */
  lemma {:induction false} StepsTransitAppend(a: seq<Step>, b: seq<Step>)
    ensures StepsTransit(a + b) == StepsTransit(a) + StepsTransit(b)
  {
    if a != [] {
      assert (a + b)[1..] == a[1..] + b;
      StepsTransitAppend(a[1..], b);
    } else {
      assert a + b == b;
    }
  }

  /**
   * The extraction keeps exactly the steps that carry transit details, in step
   * order: its k-th entry is made from the step at the k-th such position.
   */
  lemma {:induction false} StepsTransitExact(steps: seq<Step>)
    ensures |StepsTransit(steps)| == |TransitPositions(steps)|
    ensures forall k :: 0 <= k < |TransitPositions(steps)| ==>
      StepsTransit(steps)[k] == InfoOf(steps[TransitPositions(steps)[k]].transitDetails.value)
  {
    if steps != [] {
      var n := |steps| - 1;
      var init := steps[..n];
      assert steps == init + [steps[n]];
      StepsTransitAppend(init, [steps[n]]);
      StepsTransitExact(init);
      assert [steps[n]][1..] == [];
      forall k | 0 <= k < |TransitPositions(init)|
        ensures steps[TransitPositions(init)[k]] == init[TransitPositions(init)[k]]
      {
      }
    }
  }

  /** An entry appears in the extraction exactly when some step carries details it is made from. */
  lemma StepsTransitMembership(steps: seq<Step>, e: TransitInfo)
    ensures e in StepsTransit(steps) <==>
      exists i :: 0 <= i < |steps| && steps[i].transitDetails.Some? && e == InfoOf(steps[i].transitDetails.value)
  {
    var p := TransitPositions(steps);
    var r := StepsTransit(steps);
    StepsTransitExact(steps);
    if e in r {
      var k :| 0 <= k < |r| && r[k] == e;
      assert steps[p[k]].transitDetails.Some? && e == InfoOf(steps[p[k]].transitDetails.value);
    }
    if exists i :: 0 <= i < |steps| && steps[i].transitDetails.Some? && e == InfoOf(steps[i].transitDetails.value) {
      var i :| 0 <= i < |steps| && steps[i].transitDetails.Some? && e == InfoOf(steps[i].transitDetails.value);
      assert i in p;
      var k :| 0 <= k < |p| && p[k] == i;
      assert r[k] == e;
    }
  }

  /** The steps of all legs, leg after leg. */
  function AllSteps(legs: seq<Leg>): (s: seq<Step>)
    ensures legs == [] ==> s == []
    ensures |legs| == 1 ==> s == legs[0].steps
  {
    if legs == [] then [] else legs[0].steps + AllSteps(legs[1..])
  }

  /** Collecting steps distributes over concatenation of leg lists: legs contribute in leg order. */
  lemma {:induction false} AllStepsAppend(a: seq<Leg>, b: seq<Leg>)
    ensures AllSteps(a + b) == AllSteps(a) + AllSteps(b)
  {
    if a != [] {
      assert (a + b)[1..] == a[1..] + b;
      AllStepsAppend(a[1..], b);
    } else {
      assert a + b == b;
    }
  }

  /** `legs.flatMap(leg => ...)`: each leg's extraction, in leg order. */
  function LegsTransit(legs: seq<Leg>): (r: seq<TransitInfo>)
    ensures |r| <= |AllSteps(legs)|
  {
    if legs == [] then []
    else
      assert |StepsTransit(legs[0].steps)| <= |legs[0].steps|;
      StepsTransit(legs[0].steps) + LegsTransit(legs[1..])
  }

  /** The flat-map over legs equals the extraction from all steps in leg order, then step order. */
  lemma {:induction false} LegsTransitFlattens(legs: seq<Leg>)
    ensures LegsTransit(legs) == StepsTransit(AllSteps(legs))
  {
    if legs != [] {
      LegsTransitFlattens(legs[1..]);
      StepsTransitAppend(legs[0].steps, AllSteps(legs[1..]));
    }
  }

  /** The lookup reached its extraction: status OK and at least one route. */
  predicate HasFirstRoute(outcome: DirectionsOutcome) {
    outcome.DirectionsReplied? && outcome.status == OK && |outcome.routes| > 0
  }

  /** The request sent for one stop: transit mode, departing now. */
  function DirectionsFor(origin: string, destination: Coord): (q: DirectionsRequest)
    ensures q.origin == origin && q.destination == destination
    ensures q.mode == "transit" && q.departureTime == "now"
  {
    DirectionsRequest(origin, destination, TransitMode, DepartNow)
  }

  /**
   * What `getTransitDirections` returns, given the directions call's outcome.
   * A thrown call, a non-OK status, and an OK status without routes (where
   * `routes[0]` throws inside the `try`) all give the empty list; otherwise the
   * transit steps of every leg of the first route.
   */
  function TransitDirections(outcome: DirectionsOutcome): (r: seq<TransitInfo>)
    ensures !HasFirstRoute(outcome) ==> r == []
    ensures HasFirstRoute(outcome) ==> r == StepsTransit(AllSteps(outcome.routes[0].legs))
  {
    match outcome
    case DirectionsThrew => []
    case DirectionsReplied(status, routes) =>
      if status != OK then []
      else if |routes| == 0 then []
      else
        LegsTransitFlattens(routes[0].legs);
        LegsTransit(routes[0].legs)
  }

  /** Only the first route is read: routes after it never change the result. */
  lemma OnlyFirstRouteMatters(status: string, routes: seq<Route>, others: seq<Route>)
    requires |routes| > 0
    ensures TransitDirections(DirectionsReplied(status, routes)) ==
            TransitDirections(DirectionsReplied(status, routes[..1] + others))
  {
    assert (routes[..1] + others)[0] == routes[0];
  }
}
