/** The scene objects the controllers and detectors talk to: waypoints, the
    colliders that cross a detector, the record of what the agent's transform
    was told to do, and the results file a finished run is appended to. */
module Scene {

  /** A node of the waypoint chain; the chain may be cyclic. */
  class Waypoint {
    var nextWaypoint: Waypoint?

    constructor (next: Waypoint?)
      ensures nextWaypoint == next
    {
      nextWaypoint := next;
    }
  }

  /** Unity has 32 layers. */
  type Layer = n: nat | n < 32

  /** A collider that enters or leaves a trigger zone, together with the game
      object it belongs to. */
  class GameObject {
    const tag: string
    const layer: Layer
    /** The x extent of the collider's bounding box. */
    const width: real
    /** The Waypoint component found in the object's parents, if any. */
    const parentWaypoint: Waypoint?

    constructor (tag: string, layer: Layer, width: real, parentWaypoint: Waypoint?)
      ensures this.tag == tag && this.layer == layer && this.width == width
      ensures this.parentWaypoint == parentWaypoint
    {
      this.tag := tag;
      this.layer := layer;
      this.width := width;
      this.parentWaypoint := parentWaypoint;
    }
  }

  /** The object's layer bit is set in the mask: `((1 << layer) & mask) != 0`. */
  predicate LayerInMask(layer: Layer, mask: bv32) {
    (1 as bv32 << layer) & mask != 0
  }

  /** World-space axes of the agent's transform that the controllers translate along. */
  datatype Axis = Forward | NegForward | NegRight

  /** One effect on the agent's transform, in the order the controller issued it. */
  datatype Motion =
    | Translate(axis: Axis, amount: real)
    | FaceWaypoint(target: Waypoint)

  /** The rotation a reorientation asks for: face the current waypoint, or
      nothing when there is none. */
  function Facing(w: Waypoint?): seq<Motion> {
    if w == null then [] else [FaceWaypoint(w)]
  }

  /** One run's entry in the results file: track, controller, time, collisions. */
  datatype RunRecord = RunRecord(trackName: string, controllerName: string, time: real, collisions: int)

  /** The results file; records are appended, never overwritten. */
  class ResultsFile {
    var records: seq<RunRecord>

    constructor ()
      ensures records == []
    {
      records := [];
    }

    method Append(r: RunRecord)
      modifies this
      ensures records == old(records) + [r]
    {
      records := records + [r];
    }
  }
}
