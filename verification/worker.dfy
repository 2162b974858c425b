/**
 * The worker side of the isolation boundary (www/src/logic/worker.ts): every
 * incoming message is dispatched on its method tag to the WASM backend and
 * answered with at most one response. The handler keeps no state, so it is a
 * function of the message and the backend.
 */
module Worker {
  import opened Messages

  /** A WASM `Point`, built from degrees. */
  datatype Point = Point(lat: real, long: real)

  /**
   * A `Points` buffer handed to the backend. Typing it as non-empty is a
   * modelling choice that encodes the handler's short-circuit on empty input:
   * the type checker then confirms the handler never passes an empty buffer.
   */
  type Points = s: seq<Point> | |s| > 0 witness [Point(0.0, 0.0)]

  /**
   * The WASM backend, opaque: `find_most_distant_point` and `distance_between`.
   * The degree conversions of `Point.create_degrees` and `get_lat_degrees` /
   * `get_long_degrees` are folded into these two functions, so a `Point` here
   * carries the coordinates it was created from.
   */
  datatype Backend = Backend(findMostDistantPoint: Points -> Point, distanceBetween: (Point, Point) -> real)

  /** A method tag that is neither of the two the worker answers. */
  type UnknownTag = tag: string | tag != Method.ComputeFurthestPoint.Name() && tag != Method.DistanceBetweenPoints.Name() witness ""

  /** What arrives in `e.data`: a well-formed request, or a message with an unknown method tag. */
  datatype Inbound = Known(request: Request) | Unexpected(tag: UnknownTag)

  /** `Point.create_degrees(point.lat, point.long)`: the name does not cross into the backend. */
  function ToPoint(l: Location): Point
  {
    Point(l.lat, l.long)
  }

  /** The `Points` buffer filled by `forEach(push)`, in input order. */
  function ToPoints(inputs: seq<Location>): seq<Point>
  {
    seq(|inputs|, i requires 0 <= i < |inputs| => ToPoint(inputs[i]))
  }

  /** `computeFurthestPoint` of worker.ts: no backend call on empty input. */
  function ComputeFurthestPoint(inputs: seq<Location>, backend: Backend): (r: Option<Location>)
    ensures r.None? <==> |inputs| == 0
    ensures r.Some? ==> r.value.name == None
    ensures r.Some? ==>
      var raw := backend.findMostDistantPoint(ToPoints(inputs));
      r.value.lat == raw.lat && r.value.long == raw.long
  {
    if |inputs| == 0 then
      None
    else
      var raw := backend.findMostDistantPoint(ToPoints(inputs));
      Some(Location(raw.lat, raw.long, None))
  }

  /** `distanceBetween` of worker.ts. */
  function DistanceBetween(a: Location, b: Location, backend: Backend): real
  {
    backend.distanceBetween(ToPoint(a), ToPoint(b))
  }

  /** The worker's answer to one well-formed request. */
  function Reply(request: Request, backend: Backend): (r: Response)
    ensures r.requestId == request.requestId
    ensures r.Method() == request.Method()
    ensures request.ComputeFurthestPointRequest? ==> r == ComputeFurthestPointResponse(request.requestId, ComputeFurthestPoint(request.inputs, backend))
    ensures request.DistanceBetweenPointsRequest? ==> r == DistanceBetweenPointsResponse(request.requestId, DistanceBetween(request.a, request.b, backend))
  {
    match request
    case ComputeFurthestPointRequest(id, inputs) =>
      ComputeFurthestPointResponse(id, ComputeFurthestPoint(inputs, backend))
    case DistanceBetweenPointsRequest(id, a, b) =>
      DistanceBetweenPointsResponse(id, DistanceBetween(a, b, backend))
  }

  /** `onmessage`: the response posted back, or none (an error is logged) for an unknown tag. */
  function OnMessage(message: Inbound, backend: Backend): (r: Option<Response>)
    ensures r.Some? <==> message.Known?
    ensures r.Some? ==> r.value.requestId == message.request.requestId && r.value.Method() == message.request.Method()
  {
    match message
    case Known(request) => Some(Reply(request, backend))
    case Unexpected(_) => None
  }

  /**
   * An empty furthest-point request is answered with no point whatever the
   * backend does: the backend is not consulted.
   */
  lemma EmptyInputsBypassBackend(requestId: int, b1: Backend, b2: Backend)
    ensures OnMessage(Known(ComputeFurthestPointRequest(requestId, [])), b1)
         == OnMessage(Known(ComputeFurthestPointRequest(requestId, [])), b2)
         == Some(ComputeFurthestPointResponse(requestId, None))
  {
  }
}
