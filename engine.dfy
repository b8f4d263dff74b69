/**
 * The engine's primitive components, reduced to the flags the gameplay code sets on them:
 * simulate-physics, visibility, gravity, which kind of collision is enabled, the response to
 * each collision channel, and whether the component renders into the custom-depth buffer.
 */
module Engine {

  datatype Option<+T> = None | Some(value: T)

  /** ECollisionEnabled */
  datatype CollisionEnabled = NoCollision | QueryOnly | PhysicsOnly | QueryAndPhysics

  /** ECollisionResponse */
  datatype Response = Ignore | Overlap | Block

  /**
   * The collision channels. The gameplay code addresses only WorldStatic and Visibility by name;
   * every other channel is only ever set together with all of them, so one representative,
   * OtherChannel, stands for the rest.
   */
  datatype Channel = WorldStatic | Visibility | OtherChannel

  /** The response of a component to each collision channel. */
  datatype Responses = Responses(worldStatic: Response, visibility: Response, others: Response)
  {
    function To(c: Channel): Response
    {
      match c
      case WorldStatic => worldStatic
      case Visibility => visibility
      case OtherChannel => others
    }

    /** SetCollisionResponseToChannel: one channel changes, the rest keep their response. */
    function With(c: Channel, r: Response): (rs: Responses)
      ensures rs.To(c) == r
      ensures forall d :: d != c ==> rs.To(d) == To(d)
    {
      match c
      case WorldStatic => this.(worldStatic := r)
      case Visibility => this.(visibility := r)
      case OtherChannel => this.(others := r)
    }
  }

  /** SetCollisionResponseToAllChannels */
  function AllChannels(r: Response): (rs: Responses)
    ensures forall c :: rs.To(c) == r
  {
    Responses(r, r, r)
  }

  /** The responses of a component that reacts to channel c alone, and to it with r. */
  function Only(c: Channel, r: Response): (rs: Responses)
    ensures rs.To(c) == r
    ensures forall d :: d != c ==> rs.To(d) == Ignore
  {
    AllChannels(Ignore).With(c, r)
  }

  /** A primitive component (skeletal mesh, static mesh, sphere, box) as a record of flags. */
  datatype Primitive = Primitive(
    simulatePhysics: bool,
    visible: bool,
    gravity: bool,
    collision: CollisionEnabled,
    responses: Responses,
    renderCustomDepth: bool)
}
