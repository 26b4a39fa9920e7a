/**
 * Axis-aligned boxes and the collision response of `checkBuildingCollisions`:
 * the proposed point is checked against every collidable box, grown by the
 * clearance radius, in registry order; the first box containing it decides
 * how the point and the velocity are adjusted.
 */
module Collision {
  import opened Options
  import opened Vectors

  /** `COLLISION_CHECK_RADIUS`: every box is grown by this much on each side. */
  const CollisionCheckRadius: real := 1.0
  /** The threshold below which a vertical penetration is not a top/bottom hit. */
  const FaceEpsilon: real := 0.1

  /** A `Box3`: its least and greatest corners. */
  datatype Box = Box(min: Vec3, max: Vec3)

  /** `min.subScalar(r)` and `max.addScalar(r)` */
  function Expand(b: Box, r: real): Box {
    Box(Sub(b.min, Vec3(r, r, r)), Add(b.max, Vec3(r, r, r)))
  }

  /** `containsPoint`: inclusive on every face. */
  predicate Contains(b: Box, p: Vec3) {
    && b.min.x <= p.x <= b.max.x
    && b.min.y <= p.y <= b.max.y
    && b.min.z <= p.z <= b.max.z
  }

  /** A registry entry collides with `p` when its grown box contains `p`. */
  predicate Touches(b: Box, p: Vec3) {
    Contains(Expand(b, CollisionCheckRadius), p)
  }

  /** `Vector3.clamp(lo, hi)`: componentwise `max(lo, min(hi, p))`. */
  function Clamp(p: Vec3, lo: Vec3, hi: Vec3): (c: Vec3)
    ensures Contains(Box(lo, hi), p) ==> c == p
    ensures lo.x <= hi.x && lo.y <= hi.y && lo.z <= hi.z ==> Contains(Box(lo, hi), c)
    ensures lo.x <= hi.x ==> c.x == (if p.x < lo.x then lo.x else if p.x > hi.x then hi.x else p.x)
    ensures lo.y <= hi.y ==> c.y == (if p.y < lo.y then lo.y else if p.y > hi.y then hi.y else p.y)
    ensures lo.z <= hi.z ==> c.z == (if p.z < lo.z then lo.z else if p.z > hi.z then hi.z else p.z)
  {
    Vec3(Max(lo.x, Min(hi.x, p.x)), Max(lo.y, Min(hi.y, p.y)), Max(lo.z, Min(hi.z, p.z)))
  }

  /** The face a penetration vector is classified as. */
  datatype Face = Top | Bottom | SideX | SideZ

  function Classify(pen: Vec3): Face {
    if Abs(pen.y) > FaceEpsilon && Abs(pen.x) < Abs(pen.y) && Abs(pen.z) < Abs(pen.y) then
      (if pen.y < 0.0 then Top else Bottom)
    else if Abs(pen.x) > Abs(pen.z) then SideX
    else SideZ
  }

  /** What a hit leaves behind: the adjusted point, velocity and grounded flag. */
  datatype Contact = Contact(position: Vec3, velocity: Vec3, grounded: bool)

  /**
   * The response to a hit on the grown box `b` at `next`, for an arbitrary
   * reference point `closest` (the source passes the clamp of `next`).
   * Exactly one axis is affected: its velocity component becomes 0 and only
   * that coordinate of the point may move; a top hit also lands the player.
   */
  function Deflect(b: Box, next: Vec3, closest: Vec3, vel: Vec3, grounded: bool): (c: Contact)
    ensures
      || (c.velocity == vel.(x := 0.0) && c.position.y == next.y && c.position.z == next.z)
      || (c.velocity == vel.(y := 0.0) && c.position.x == next.x && c.position.z == next.z)
      || (c.velocity == vel.(z := 0.0) && c.position.x == next.x && c.position.y == next.y)
    ensures c.grounded == (grounded || Classify(Sub(next, closest)) == Top)
    ensures Classify(Sub(next, closest)) == Top ==> c.position.y == b.max.y && c.velocity.y == 0.0
    ensures Classify(Sub(next, closest)) == Bottom ==> c.position.y == b.min.y && c.velocity.y == 0.0
    ensures Classify(Sub(next, closest)) == SideX ==> c.position.x == closest.x && c.velocity.x == 0.0
    ensures Classify(Sub(next, closest)) == SideZ ==> c.position.z == closest.z && c.velocity.z == 0.0
  {
    var pen := Sub(next, closest);
    match Classify(pen)
    case Top => Contact(next.(y := b.max.y), vel.(y := 0.0), true)
    case Bottom => Contact(next.(y := b.min.y), vel.(y := 0.0), grounded)
    case SideX => Contact(next.(x := closest.x), vel.(x := 0.0), grounded)
    case SideZ => Contact(next.(z := closest.z), vel.(z := 0.0), grounded)
  }

  /** The response to a hit on the grown box `b`, with the clamp as the reference point. */
  function Respond(b: Box, next: Vec3, vel: Vec3, grounded: bool): Contact {
    Deflect(b, next, Clamp(next, b.min, b.max), vel, grounded)
  }

  /**
   * For a point the box contains, the clamp is the point itself, the
   * penetration is zero, and so the top, bottom and x-side responses can
   * never be chosen: a hit only zeroes the z velocity and leaves the point.
   */
  lemma ContainedHitSlidesAlongZ(b: Box, next: Vec3, vel: Vec3, grounded: bool)
    requires Contains(b, next)
    ensures Sub(next, Clamp(next, b.min, b.max)) == Zero
    ensures Classify(Sub(next, Clamp(next, b.min, b.max))) == SideZ
    ensures Respond(b, next, vel, grounded) == Contact(next, vel.(z := 0.0), grounded)
  {
    assert Clamp(next, b.min, b.max) == next;
  }

  /** The index of the first registry entry that collides with `p`, if any. */
  function FirstHit(boxes: seq<Box>, p: Vec3): (k: Option<nat>)
    ensures k.None? <==> forall j :: 0 <= j < |boxes| ==> !Touches(boxes[j], p)
    ensures k.Some? ==>
      && k.value < |boxes| && Touches(boxes[k.value], p)
      && forall j :: 0 <= j < k.value ==> !Touches(boxes[j], p)
  {
    if |boxes| == 0 then None
    else if Touches(boxes[0], p) then Some(0)
    else match FirstHit(boxes[1..], p)
      case None => None
      case Some(k) => Some(k + 1)
  }

  /**
   * The collision test of one tick from `pos` with velocity `vel`: `None`
   * when no grown box contains `pos + vel`, otherwise the response of the
   * first one that does.
   */
  function Resolve(boxes: seq<Box>, pos: Vec3, vel: Vec3, grounded: bool): (r: Option<Contact>)
    ensures r.None? <==> forall j :: 0 <= j < |boxes| ==> !Touches(boxes[j], Add(pos, vel))
  {
    var next := Add(pos, vel);
    match FirstHit(boxes, next)
    case None => None
    case Some(k) => Some(Respond(Expand(boxes[k], CollisionCheckRadius), next, vel, grounded))
  }

  /** A hit among several boxes is decided by the first one in registry order. */
  lemma ResolveUsesFirstHit(boxes: seq<Box>, pos: Vec3, vel: Vec3, grounded: bool, k: nat)
    requires k < |boxes| && Touches(boxes[k], Add(pos, vel))
    requires forall j :: 0 <= j < k ==> !Touches(boxes[j], Add(pos, vel))
    ensures Resolve(boxes, pos, vel, grounded)
         == Some(Respond(Expand(boxes[k], CollisionCheckRadius), Add(pos, vel), vel, grounded))
  {
    var h := FirstHit(boxes, Add(pos, vel));
    assert h.Some?;
    assert h.value == k;
  }

  /**
   * What the resolver does as written: a hit never moves the point off
   * `pos + vel`, never touches the x or y velocity and never changes the
   * grounded flag; it only zeroes the z velocity.
   */
  lemma ResolveAsWritten(boxes: seq<Box>, pos: Vec3, vel: Vec3, grounded: bool)
    ensures Resolve(boxes, pos, vel, grounded)
         == if exists j :: 0 <= j < |boxes| && Touches(boxes[j], Add(pos, vel))
            then Some(Contact(Add(pos, vel), vel.(z := 0.0), grounded))
            else None
  {
    var next := Add(pos, vel);
    match FirstHit(boxes, next)
    case None =>
    case Some(k) =>
      assert Touches(boxes[k], next);
      ContainedHitSlidesAlongZ(Expand(boxes[k], CollisionCheckRadius), next, vel, grounded);
  }
}
