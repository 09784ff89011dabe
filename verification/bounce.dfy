/**
 * The bounce step of the ant-pheromone simulation, run on every ant after it
 * has carried a resource: on each axis independently, an ant whose next move
 * would leave the square map [0, mapWidth] x [0, mapWidth] turns back on that
 * axis and stays put there; otherwise it moves on that axis.
 *
 * Coordinates are `real`. The map width is the value the job is created with.
 */
module ChangePositionAndVelocitySystem {

  /** A two-component vector. */
  datatype Float2 = Float2(x: real, y: real)

  /** The position component of an ant, updated in place. */
  class PositionComponent {
    var value: Float2
    constructor (value: Float2)
      ensures this.value == value
    {
      this.value := value;
    }
  }

  /** The velocity component of an ant, updated in place. */
  class VelocityComponent {
    var value: Float2
    constructor (value: Float2)
      ensures this.value == value
    {
      this.value := value;
    }
  }

  function Abs(r: real): real
  {
    if r < 0.0 then -r else r
  }

  /** A coordinate lies on the map. */
  predicate OnMap(c: real, mapWidth: real)
  {
    0.0 <= c <= mapWidth
  }

  /** A position lies on the map on both axes. */
  predicate InBounds(p: Float2, mapWidth: real)
  {
    OnMap(p.x, mapWidth) && OnMap(p.y, mapWidth)
  }

  /** Position and velocity on one axis. */
  datatype Axis = Axis(position: real, velocity: real)

  /** The step on one axis. The speed is kept; a coordinate on the map stays
      on it; a move that stays on the map is always made; and either the ant
      moves by its whole velocity or it stays where it is and reverses. */
  function BounceAxis(position: real, velocity: real, mapWidth: real): (r: Axis)
    ensures Abs(r.velocity) == Abs(velocity)
    ensures OnMap(position, mapWidth) ==> OnMap(r.position, mapWidth)
    ensures OnMap(position + velocity, mapWidth) ==> r == Axis(position + velocity, velocity)
    ensures !OnMap(position + velocity, mapWidth) ==> r == Axis(position, -velocity)
  {
    if position + velocity < 0.0 || position + velocity > mapWidth then Axis(position, -velocity)
    else Axis(position + velocity, velocity)
  }

  /** Position and velocity of an ant. */
  datatype Motion = Motion(position: Float2, velocity: Float2)

  /** The whole step: each axis bounces on its own. */
  function Step(position: Float2, velocity: Float2, mapWidth: real): (r: Motion)
    ensures InBounds(position, mapWidth) ==> InBounds(r.position, mapWidth)
    ensures Abs(r.velocity.x) == Abs(velocity.x) && Abs(r.velocity.y) == Abs(velocity.y)
  {
    var x := BounceAxis(position.x, velocity.x, mapWidth);
    var y := BounceAxis(position.y, velocity.y, mapWidth);
    Motion(Float2(x.position, y.position), Float2(x.velocity, y.velocity))
  }

  /** The axes do not interact: what happens on x depends only on the x
      position, the x velocity and the map width, and likewise for y. */
  lemma StepAxesIndependent(p1: Float2, v1: Float2, p2: Float2, v2: Float2, mapWidth: real)
    ensures p1.x == p2.x && v1.x == v2.x ==>
      Step(p1, v1, mapWidth).position.x == Step(p2, v2, mapWidth).position.x &&
      Step(p1, v1, mapWidth).velocity.x == Step(p2, v2, mapWidth).velocity.x
    ensures p1.y == p2.y && v1.y == v2.y ==>
      Step(p1, v1, mapWidth).position.y == Step(p2, v2, mapWidth).position.y &&
      Step(p1, v1, mapWidth).velocity.y == Step(p2, v2, mapWidth).velocity.y
  {
  }

  /** The job, created with the map's width. */
  class Job {
    const mapWidth: real

    constructor (mapWidth: real)
      ensures this.mapWidth == mapWidth
    {
      this.mapWidth := mapWidth;
    }

    /** Moves or bounces one ant, writing back exactly its position and velocity. */
    method Execute(position: PositionComponent, velocity: VelocityComponent)
      modifies position, velocity
      ensures Motion(position.value, velocity.value) == Step(old(position.value), old(velocity.value), mapWidth)
      ensures InBounds(old(position.value), mapWidth) ==> InBounds(position.value, mapWidth)
      ensures Abs(velocity.value.x) == Abs(old(velocity.value.x))
      ensures Abs(velocity.value.y) == Abs(old(velocity.value.y))
    {
      var targetPosition := position.value;
      var targetVelocity := velocity.value;
      if targetPosition.x + targetVelocity.x < 0.0 || targetPosition.x + targetVelocity.x > mapWidth {
        targetVelocity := targetVelocity.(x := -targetVelocity.x);
      } else {
        targetPosition := targetPosition.(x := targetPosition.x + targetVelocity.x);
      }
      if targetPosition.y + targetVelocity.y < 0.0 || targetPosition.y + targetVelocity.y > mapWidth {
        targetVelocity := targetVelocity.(y := -targetVelocity.y);
      } else {
        targetPosition := targetPosition.(y := targetPosition.y + targetVelocity.y);
      }
      position.value := targetPosition;
      velocity.value := targetVelocity;
    }
  }
}
