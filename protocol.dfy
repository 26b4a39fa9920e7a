/**
 * The messages exchanged between a game client and the relay, after JSON
 * decoding. Each direction is one sum type; the `type` tag of the wire
 * format is the constructor.
 */
module Protocol {
  import opened Options
  import opened Vectors

  /** One entry of an `init` player list: the relay's `{id, position}` record. */
  datatype PlayerInfo = PlayerInfo(id: string, position: Vec3)

  /** Relay to client. */
  datatype ServerMsg =
    | Init(id: string, players: seq<PlayerInfo>)
    | PlayerJoined(id: string, position: Vec3)
    | PlayerMoved(id: string, position: Vec3, velocity: Vec3, isGrappling: bool, grapplePoint: Option<Vec3>)
    | PlayerLeft(id: string)
    | Chat(id: string, message: string)

  /**
   * Client to relay. `UnknownType` is a well-formed JSON object whose `type`
   * is neither `position` nor `chat`; `Malformed` is a frame that fails to parse.
   */
  datatype ClientMsg =
    | PositionUpdate(id: string, position: Vec3, velocity: Vec3, isGrappling: bool, grapplePoint: Option<Vec3>)
    | ChatPost(id: string, message: string)
    | UnknownType(tag: string)
    | Malformed
}
