/**
 * The values that cross the worker boundary: input locations, and the
 * requests and responses of the two backend calls, as a closed sum type.
 */
module Messages {

  datatype Option<+T> = None | Some(value: T)

  /** A map location. Coordinates are only ever compared, never computed on. */
  datatype Location = Location(lat: real, long: real, name: Option<string>)

  /** Two locations denote the same point when latitude and longitude agree; the name is ignored. */
  predicate SameCoordinates(a: Location, b: Location)
  {
    a.lat == b.lat && a.long == b.long
  }

  /** The `method` tag of a message. */
  datatype Method = ComputeFurthestPoint | DistanceBetweenPoints
  {
    /** The tag as it is spelled on the wire. */
    function Name(): string
    {
      match this
      case ComputeFurthestPoint => "computeFurthestPoint"
      case DistanceBetweenPoints => "distanceBetweenPoints"
    }
  }

  /** A request posted to the worker; `requestId` correlates it with its response. */
  datatype Request =
    | ComputeFurthestPointRequest(requestId: int, inputs: seq<Location>)
    | DistanceBetweenPointsRequest(requestId: int, a: Location, b: Location)
  {
    function Method(): Method
    {
      match this
      case ComputeFurthestPointRequest(_, _) => ComputeFurthestPoint
      case DistanceBetweenPointsRequest(_, _, _) => DistanceBetweenPoints
    }
  }

  /** A response posted back by the worker. */
  datatype Response =
    | ComputeFurthestPointResponse(requestId: int, furthest: Option<Location>)
    | DistanceBetweenPointsResponse(requestId: int, distance: real)
  {
    function Method(): Method
    {
      match this
      case ComputeFurthestPointResponse(_, _) => ComputeFurthestPoint
      case DistanceBetweenPointsResponse(_, _) => DistanceBetweenPoints
    }
  }
}
