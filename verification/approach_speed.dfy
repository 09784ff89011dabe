/**
 * The approach-speed rule of the magnetic-roads traffic simulation: once per
 * frame, each car caps its normalised speed so that it slows inside an
 * intersection, never drives into the car ahead of it in its lane, and, when
 * it leads its lane, slows for an occupied lane slot of the intersection it
 * is driving towards.
 *
 * Timers and speeds are `real`. The lane queue, the per-spline queue sizes,
 * the spline-to-intersection tables and the intersection occupancy table are
 * engine state the rule only reads; they are parameters here. The speed
 * component is the one object the rule writes.
 */
module UpdateApproachSpeedSystem {

  /** An engine entity handle; only its identity matters here. */
  datatype Entity = Entity(index: int, version: int)

  /** One slot of a lane queue: a car and how far along the spline it is. */
  datatype QueueEntry = QueueEntry(entity: Entity, splineTimer: real)

  /** Which lane of which spline a car is on. */
  datatype OnSpline = OnSpline(spline: int, direction: int, side: int)

  /** The per-spline tables of the track: the queue size the rule keeps
      between consecutive cars, and the intersections at both ends. */
  datatype TrackSplines = TrackSplines(
    carQueueSize: seq<real>,
    startIntersection: seq<int>,
    endIntersection: seq<int>)

  /** The speed component of a car, updated in place. */
  class CarSpeedComponent {
    var splineTimer: real
    var normalizedSpeed: real

    constructor (splineTimer: real, normalizedSpeed: real)
      ensures this.splineTimer == splineTimer && this.normalizedSpeed == normalizedSpeed
    {
      this.splineTimer := splineTimer;
      this.normalizedSpeed := normalizedSpeed;
    }
  }

  /** The smaller of two values. */
  function Min(a: real, b: real): (r: real)
    ensures r <= a && r <= b
    ensures r == a || r == b
  {
    if a <= b then a else b
  }

  /** The occupancy slot of a lane side: `(side + 1) / 2` with the integer
      division truncating toward zero, as in C#: the remainder is less than 2
      in size and takes the sign of the dividend. */
  function LaneSlot(side: int): (slot: int)
    ensures var r := (side + 1) - 2 * slot;
      -2 < r < 2 && (0 <= side + 1 ==> 0 <= r) && (side + 1 <= 0 ==> r <= 0)
    ensures side == -1 ==> slot == 0
    ensures side == 1 ==> slot == 1
    ensures side == -2 ==> slot == 0
  {
    if side + 1 >= 0 then (side + 1) / 2 else -((-(side + 1)) / 2)
  }

  /** The position of the first queue entry that holds `entity`, or -1 when
      no entry does. */
  function IndexOf(queue: seq<QueueEntry>, entity: Entity): (index: int)
    ensures -1 <= index < |queue|
    ensures index == -1 <==> forall i :: 0 <= i < |queue| ==> queue[i].entity != entity
    ensures 0 <= index ==> queue[index].entity == entity
    ensures forall j :: 0 <= j < index ==> queue[j].entity != entity
  {
    if queue == [] then -1
    else if queue[0].entity == entity then 0
    else
      var rest := IndexOf(queue[1..], entity);
      if rest == -1 then -1 else rest + 1
  }

  /** The spline's intersection the car is driving towards: the end one when
      it drives in direction 1, the start one otherwise. */
  predicate HasTarget(onSpline: OnSpline, tracks: TrackSplines)
  {
    if onSpline.direction == 1 then 0 <= onSpline.spline < |tracks.endIntersection|
    else 0 <= onSpline.spline < |tracks.startIntersection|
  }

  function TargetIntersection(onSpline: OnSpline, tracks: TrackSplines): int
    requires HasTarget(onSpline, tracks)
  {
    if onSpline.direction == 1 then tracks.endIntersection[onSpline.spline]
    else tracks.startIntersection[onSpline.spline]
  }

  /** What the rule needs of the engine state on the path it takes: outside an
      intersection the lane queue is not empty; a car that does not lead its
      lane is in the queue and its spline has a queue size; a car that leads
      its lane has a target intersection whose occupancy slot for its side
      exists. */
  predicate CanApproach(entity: Entity, inIntersection: bool, onSpline: OnSpline,
                        queue: seq<QueueEntry>, tracks: TrackSplines, occupied: seq<seq<bool>>)
  {
    inIntersection ||
    (|queue| > 0 &&
     (queue[0].entity != entity ==>
        (exists i :: 0 <= i < |queue| && queue[i].entity == entity) &&
        0 <= onSpline.spline < |tracks.carQueueSize|) &&
     (queue[0].entity == entity ==>
        HasTarget(onSpline, tracks) &&
        0 <= TargetIntersection(onSpline, tracks) < |occupied| &&
        0 <= LaneSlot(onSpline.side) < |occupied[TargetIntersection(onSpline, tracks)]|))
  }

  /** The outcome of the rule for one car: its new spline timer and the speed
      it may approach with. */
  datatype Approach = Approach(splineTimer: real, approachSpeed: real)

  /** The gap-limited timer of a car that does not lead its lane: the timer of
      the car in front minus the spline's queue size. */
  function MaxT(entity: Entity, queue: seq<QueueEntry>, tracks: TrackSplines, onSpline: OnSpline): (maxT: real)
    requires 0 <= onSpline.spline < |tracks.carQueueSize|
    requires 1 <= IndexOf(queue, entity)
  {
    queue[IndexOf(queue, entity) - 1].splineTimer - tracks.carQueueSize[onSpline.spline]
  }

  /** The rule for a car whose spline timer is `splineTimer`. A car never moves
      forward. Inside an intersection it may go at 0.7. Behind another car its
      timer is capped at `MaxT`, so that it keeps at least the queue size of
      gap, and its speed is five times the gap left to `MaxT`: zero exactly at
      that gap. At the head of its lane it keeps its timer and goes at full
      speed unless the slot it needs is occupied; then its speed is
      `(1 - timer) * 0.8 + 0.2`, between 0.2 and 1 along the spline and below 1
      once it has left the start. */
  function ApproachOf(entity: Entity, splineTimer: real, inIntersection: bool, onSpline: OnSpline,
                      queue: seq<QueueEntry>, tracks: TrackSplines, occupied: seq<seq<bool>>): (r: Approach)
    requires CanApproach(entity, inIntersection, onSpline, queue, tracks, occupied)
    ensures r.splineTimer <= splineTimer
    ensures inIntersection ==> r == Approach(splineTimer, 0.7)
    ensures !inIntersection && queue[0].entity != entity ==>
      1 <= IndexOf(queue, entity) &&
      var maxT := MaxT(entity, queue, tracks, onSpline);
      r.splineTimer <= maxT && (r.splineTimer == splineTimer || r.splineTimer == maxT) &&
      r.approachSpeed >= 0.0 && (r.approachSpeed == 0.0 <==> r.splineTimer == maxT) &&
      r.approachSpeed == (maxT - r.splineTimer) * 5.0
    ensures !inIntersection && queue[0].entity == entity ==>
      r.splineTimer == splineTimer &&
      (!occupied[TargetIntersection(onSpline, tracks)][LaneSlot(onSpline.side)] ==> r.approachSpeed == 1.0) &&
      (occupied[TargetIntersection(onSpline, tracks)][LaneSlot(onSpline.side)] ==>
         r.approachSpeed == (1.0 - splineTimer) * 0.8 + 0.2 && (0.0 < splineTimer ==> r.approachSpeed < 1.0)) &&
      (0.0 <= splineTimer ==> r.approachSpeed <= 1.0) &&
      (splineTimer <= 1.0 ==> 0.2 <= r.approachSpeed)
  {
    if inIntersection then Approach(splineTimer, 0.7)
    else if queue[0].entity != entity then
      var maxT := MaxT(entity, queue, tracks, onSpline);
      var timer := Min(splineTimer, maxT);
      Approach(timer, (maxT - timer) * 5.0)
    else if occupied[TargetIntersection(onSpline, tracks)][LaneSlot(onSpline.side)] then
      Approach(splineTimer, (1.0 - splineTimer) * 0.8 + 0.2)
    else
      Approach(splineTimer, 1.0)
  }

  /** Behind another car, a car further back along the spline is allowed at
      least the speed of one further forward: the speed grows with the gap. */
  lemma BehindSpeedGrowsWithGap(entity: Entity, t1: real, t2: real, onSpline: OnSpline,
                                queue: seq<QueueEntry>, tracks: TrackSplines, occupied: seq<seq<bool>>)
    requires CanApproach(entity, false, onSpline, queue, tracks, occupied)
    requires queue[0].entity != entity
    requires t1 <= t2
    ensures ApproachOf(entity, t2, false, onSpline, queue, tracks, occupied).approachSpeed <=
            ApproachOf(entity, t1, false, onSpline, queue, tracks, occupied).approachSpeed
  {
  }

  /** At the head of its lane, waiting for an occupied slot, a car nearer the
      end of its spline is allowed strictly less speed. */
  lemma HeadSpeedFallsAlongSpline(entity: Entity, t1: real, t2: real, onSpline: OnSpline,
                                  queue: seq<QueueEntry>, tracks: TrackSplines, occupied: seq<seq<bool>>)
    requires CanApproach(entity, false, onSpline, queue, tracks, occupied)
    requires queue[0].entity == entity
    requires occupied[TargetIntersection(onSpline, tracks)][LaneSlot(onSpline.side)]
    requires t1 < t2
    ensures ApproachOf(entity, t2, false, onSpline, queue, tracks, occupied).approachSpeed <
            ApproachOf(entity, t1, false, onSpline, queue, tracks, occupied).approachSpeed
  {
  }

  /** Running the rule a second time on its own result changes nothing: the
      car's timer is already clamped and its speed already capped. */
  lemma ApproachIdempotent(entity: Entity, splineTimer: real, normalizedSpeed: real, inIntersection: bool,
                           onSpline: OnSpline, queue: seq<QueueEntry>, tracks: TrackSplines,
                           occupied: seq<seq<bool>>)
    requires CanApproach(entity, inIntersection, onSpline, queue, tracks, occupied)
    ensures var a := ApproachOf(entity, splineTimer, inIntersection, onSpline, queue, tracks, occupied);
      var b := ApproachOf(entity, a.splineTimer, inIntersection, onSpline, queue, tracks, occupied);
      b == a && Min(Min(normalizedSpeed, a.approachSpeed), b.approachSpeed) == Min(normalizedSpeed, a.approachSpeed)
  {
  }

  /** Applies the rule to one car: writes its spline timer and lowers its
      normalised speed to the approach speed; the queue and the tables are
      only read. */
  method UpdateApproachSpeed(entity: Entity, speed: CarSpeedComponent, inIntersection: bool,
                             onSpline: OnSpline, queue: seq<QueueEntry>, tracks: TrackSplines,
                             occupied: seq<seq<bool>>)
    requires CanApproach(entity, inIntersection, onSpline, queue, tracks, occupied)
    modifies speed
    ensures var a := ApproachOf(entity, old(speed.splineTimer), inIntersection, onSpline, queue, tracks, occupied);
      speed.splineTimer == a.splineTimer &&
      speed.normalizedSpeed == Min(old(speed.normalizedSpeed), a.approachSpeed)
    ensures speed.splineTimer <= old(speed.splineTimer)
    ensures speed.normalizedSpeed <= old(speed.normalizedSpeed)
  {
    var approachSpeed := 1.0;
    if inIntersection {
      approachSpeed := 0.7;
    } else {
      if queue[0].entity != entity {
        // someone is ahead of this car: find it in the queue
        var index := -1;
        for i := 0 to |queue|
          invariant index == -1
          invariant forall j :: 0 <= j < i ==> queue[j].entity != entity
        {
          if queue[i].entity == entity {
            index := i;
            break;
          }
        }
        assert index == IndexOf(queue, entity);
        var queueSize := tracks.carQueueSize[onSpline.spline];
        var maxT := queue[index - 1].splineTimer - queueSize;
        speed.splineTimer := Min(speed.splineTimer, maxT);
        approachSpeed := (maxT - speed.splineTimer) * 5.0;
      } else {
        // first in line, but the next intersection may be occupied
        var s := onSpline.spline;
        var target := if onSpline.direction == 1 then tracks.endIntersection[s] else tracks.startIntersection[s];
        if occupied[target][LaneSlot(onSpline.side)] {
          approachSpeed := (1.0 - speed.splineTimer) * 0.8 + 0.2;
        }
      }
    }
    speed.normalizedSpeed := Min(speed.normalizedSpeed, approachSpeed);
  }
}
