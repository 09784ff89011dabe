# Three per-entity rules of the DOTS training samples

This project models three small rules from three unrelated Unity DOTS game
prototypes and proves what they promise. Each rule runs once per entity, or
once per conversion. The engine state each rule reads is passed in as plain
values. Every `float` is a `real`.

- **Metro level conversion** (`level_conversion.dfy`, module `LevelConversion`).
  Each platform of a metro line becomes a station record. The record holds the
  platform's start and end as fractions of the line's path, and its platform
  index. A train placed at path fraction `t` gets a station from a linear scan:
  - the first station if `t` lies before that station's start;
  - otherwise the first station `i >= 1` with `stations[i-1].end < t < stations[i].end`;
  - otherwise the last station.

  The comparisons are strict and look back only at the previous station's
  end. So, on a line whose station ends do not decrease, a train at or past
  the first station's start and not past its end gets the last station
  (`InsideFirstStationGivesLast`). On such a line, so does a train at or past
  the first station's start that sits exactly at the end of a station
  (`AtStationEndGivesLast`).

  The trains of every line are spread evenly along the path at
  `trainIndex * (1 / maxTrains)`. One counter numbers them 1, 2, 3, … across
  all lines.
- **Approach-speed throttling** (`approach_speed.dfy`, module
  `UpdateApproachSpeedSystem`). Each car caps its normalised speed with an
  approach speed:
  - 0.7 inside an intersection;
  - behind another car in its lane queue, its spline timer is capped at
    `predecessor timer - queue size`, and the approach speed is five times the
    remaining gap;
  - at the head of its lane, the speed is `(1 - timer) * 0.8 + 0.2` when its
    side's slot of the next intersection is occupied, and 1 otherwise.

  The speed component is a class whose two fields the rule writes in place.
- **Bounce step** (`bounce.dfy`, module `ChangePositionAndVelocitySystem`).
  On each axis separately, an ant whose next move would leave `[0, mapWidth]`
  reverses its velocity on that axis and stays put there. Otherwise it moves.
  The position and velocity components are objects that the job's `Execute`
  writes. The job is a class holding the map width.

Engine values that are parameters here:
- a line's path length (what its bezier path reports);
- the lane queue that `TrackSplines.GetQueue` returns;
- the per-spline queue sizes and start and end intersections;
- the intersection occupancy table;
- the map width.

## Model

| member | source | states |
|---|---|---|
| `LevelConversion.ScanFrom` | Ported/Metro-DOTS/Assets/Editor/Conversion/LevelConversion.cs:80-91 | The scan from station `i` stops at the first station from `i` on that the train has entered (past the previous end, short of its own end), or at the last station when there is none. |
| `LevelConversion.CurrentStationIndex` | Ported/Metro-DOTS/Assets/Editor/Conversion/LevelConversion.cs:75-92 | The station index is a valid index. It is 0 when `t` is before the first start. Otherwise it is the first entered station `i >= 1`, or the last station if no station was entered. |
| `LevelConversion.CurrentStationIndexUnique` | Ported/Metro-DOTS/Assets/Editor/Conversion/LevelConversion.cs:77-91 | That characterisation admits exactly one index. |
| `LevelConversion.InsideFirstStationGivesLast` | Ported/Metro-DOTS/Assets/Editor/Conversion/LevelConversion.cs:80-91 | Take stations whose ends never decrease. A train at or past the first start and not past the first end gets the last station, because the comparisons are strict and look back only at the previous end. |
| `LevelConversion.AtStationEndGivesLast` | Ported/Metro-DOTS/Assets/Editor/Conversion/LevelConversion.cs:80-91 | Take stations whose ends never decrease. A train at or past the first start that sits exactly at the end of a station gets the last station, because no station has `previous end < t < own end`. |
| `LevelConversion.GetCurrentPlatformId` | Ported/Metro-DOTS/Assets/Editor/Conversion/LevelConversion.cs:75-92 | It needs a non-empty array and does not write it. It returns the platform id of the station at `CurrentStationIndex`, so the first one's id when `t` is before the first start. The result is always the platform id of some station. |
| `LevelConversion.Stations` | Ported/Metro-DOTS/Assets/Editor/Conversion/LevelConversion.cs:61-72 | There is one station record per platform, in platform order. Record `pl` has platform id `platforms[pl].platformIndex`. |
| `LevelConversion.StationsAreFractions` | Ported/Metro-DOTS/Assets/Editor/Conversion/LevelConversion.cs:67-69 | A record's start and end, multiplied by the path length, give back the platform's start and end distances. |
| `LevelConversion.BuildStationsData` | Ported/Metro-DOTS/Assets/Editor/Conversion/LevelConversion.cs:61-73 | It returns a new array of length `platforms.Count`. The array holds exactly the station records of the line. |
| `LevelConversion.Spacing` | Ported/Metro-DOTS/Assets/Editor/Conversion/LevelConversion.cs:48 | For `0 <= trainIndex < maxTrains`, the spacing `trainIndex * (1 / maxTrains)` lies in `[0, 1)`. |
| `LevelConversion.SpacingIncreasing` | Ported/Metro-DOTS/Assets/Editor/Conversion/LevelConversion.cs:40-48 | Within a line, a later train index gets a strictly larger spacing. |
| `LevelConversion.TrainNumbering` | Ported/Metro-DOTS/Assets/Editor/Conversion/LevelConversion.cs:36-49 | Across all lines there is one spawn request per train, and their total is the sum of the lines' train counts. Request `k` carries global train number `k + 1`. Every spacing lies in `[0, 1)`. |
| `LevelConversion.LineSpawnsStartAtPlatforms` | Ported/Metro-DOTS/Assets/Editor/Conversion/LevelConversion.cs:39-52 | Every spawn request of a line starts at one of that line's platforms: its current platform is some platform's `platformIndex`, and it carries the line's station records. |
| `LevelConversion.SetupTrains` | Ported/Metro-DOTS/Assets/Editor/Conversion/LevelConversion.cs:31-59 | The nested loops produce exactly the spawn requests of all lines, line after line. The requests are numbered 1, 2, 3, … consecutively, with as many as the lines' train counts add up to. |
| `UpdateApproachSpeedSystem.LaneSlot` | Ported/sschoener/MagneticRoads/Assets/Scripts/Systems/UpdateApproachSpeedSystem.cs:46 | `(side + 1) / 2` divides with C#'s truncation: for every side, the remainder `(side + 1) - 2 * slot` lies strictly between -2 and 2 and has the sign of `side + 1`. Side -1 uses slot 0 and side 1 uses slot 1. Side -2 also maps to slot 0, where Euclidean division would give -1. |
| `UpdateApproachSpeedSystem.IndexOf` | Ported/sschoener/MagneticRoads/Assets/Scripts/Systems/UpdateApproachSpeedSystem.cs:26-34 | The queue search returns the first index whose entity is the car. It returns -1 exactly when no entry holds the car. |
| `UpdateApproachSpeedSystem.ApproachOf` | Ported/sschoener/MagneticRoads/Assets/Scripts/Systems/UpdateApproachSpeedSystem.cs:16-50 | The timer never increases. In an intersection the result is the old timer with speed 0.7. Behind a car, the car is at index >= 1 and its new timer is `min(old, maxT)`, so it is <= `maxT` (predecessor's timer minus queue size). There the speed is five times the gap `maxT - timer`: it is >= 0, and it is 0 exactly when the timer sits at `maxT`. At the head, the timer is unchanged and a free slot gives speed 1. An occupied slot gives `(1 - timer) * 0.8 + 0.2`, which is below 1 for a positive timer. For a timer in `[0, 1]` the head speed lies in `[0.2, 1]`. |
| `UpdateApproachSpeedSystem.BehindSpeedGrowsWithGap` | Ported/sschoener/MagneticRoads/Assets/Scripts/Systems/UpdateApproachSpeedSystem.cs:35-38 | Behind another car, a smaller timer never gets a smaller speed: the speed grows with the gap to the car ahead. |
| `UpdateApproachSpeedSystem.HeadSpeedFallsAlongSpline` | Ported/sschoener/MagneticRoads/Assets/Scripts/Systems/UpdateApproachSpeedSystem.cs:43-47 | At the head of a lane with an occupied slot, a larger timer gets a strictly smaller speed. |
| `UpdateApproachSpeedSystem.ApproachIdempotent` | Ported/sschoener/MagneticRoads/Assets/Scripts/Systems/UpdateApproachSpeedSystem.cs:14-51 | Applying the rule again to its own result, with the same queue and tables, changes neither the timer nor the capped speed. |
| `UpdateApproachSpeedSystem.UpdateApproachSpeed` | Ported/sschoener/MagneticRoads/Assets/Scripts/Systems/UpdateApproachSpeedSystem.cs:14-51 | The method writes only the car's speed component. The new timer is the rule's timer, and the new normalised speed is `min(old, approach speed)`. Neither field increases. |
| `ChangePositionAndVelocitySystem.BounceAxis` | Ported/miao/AntPheromones/Assets/Scripts/System/ChangePositionAndVelocityAfterCarryingResourceSystem.cs:37-44 | On one axis the speed is preserved and a coordinate on the map stays on it. If `pos + vel` stays in `[0, mapWidth]` the ant moves there. Otherwise the position is unchanged and the velocity is negated. |
| `ChangePositionAndVelocitySystem.Step` | Ported/miao/AntPheromones/Assets/Scripts/System/ChangePositionAndVelocityAfterCarryingResourceSystem.cs:37-52 | A position on the map stays on the map on both axes. The absolute value of each velocity component is preserved. |
| `ChangePositionAndVelocitySystem.StepAxesIndependent` | Ported/miao/AntPheromones/Assets/Scripts/System/ChangePositionAndVelocityAfterCarryingResourceSystem.cs:37-52 | The x result depends only on the x position, the x velocity and the map width. The same holds for y. |
| `ChangePositionAndVelocitySystem.Job.constructor` | Ported/miao/AntPheromones/Assets/Scripts/System/ChangePositionAndVelocityAfterCarryingResourceSystem.cs:22-30 | The job keeps the map width it is created with. |
| `ChangePositionAndVelocitySystem.Job.Execute` | Ported/miao/AntPheromones/Assets/Scripts/System/ChangePositionAndVelocityAfterCarryingResourceSystem.cs:32-55 | The method has no precondition and writes exactly the given position and velocity, with the step's result. It keeps an ant on the map and keeps each velocity component's absolute value. |

## Left out

- Entity creation, component attachment, buffers and blob construction are left out, because they only mean something inside the engine. This covers `CreateAdditionalEntity`, `AddComponentData`, `AddBuffer`, `BlobBuilder`, `BuildBezierPath`, `SetupPlatforms`, `SetupCommuters`, `Convert` and `LevelConversion.OnUpdate`. `SetupTrains` returns its spawn requests as a sequence instead of attaching them, and a request does not carry the prefab or the bezier path.
- Job scheduling, system ordering and entity queries are left out (`Schedule`, `JobHandle`, `UpdateInGroup`/`UpdateAfter`, `GetEntityQuery`/`GetSingleton`). The engine owns them.
- `Debug.Log` and `Object.DestroyImmediate` are left out, because they are side effects only.
- Engine and game code outside these three files is modelled only through the values it produces, passed as parameters: the metro lines that `Metro.SetupMetroLines` sets up, the path length from `bezierPath.GetPathDistance`, the queue from `TrackSplines.GetQueue`, the `TrackSplines` tables and the `Intersections.Occupied` table.
- IEEE-754 rounding is not modelled: every `float` is a `real`. The lookup, the min-clamps and the bounce's bounds invariant use only comparisons, or test the same sum they store. The exact values of `distanceAlongPath / GetPathDistance()`, `trainIndex * (1f / maxTrains)` and `(1 - t) * 0.8 + 0.2` hold in real arithmetic only.
- BuildStationsData: requires a non-zero path length. Division by zero gives infinities or NaN in floats, which a `real` cannot represent.
- SetupTrains: requires a non-zero path length, and at least one platform on every line with trains. Without a platform, the station lookup reads `stations[0]` of an empty array and the source throws.
- UpdateApproachSpeed: requires what the source reads without checking, where the source would throw otherwise. Outside an intersection the lane queue is non-empty. A car behind another is in the queue and its spline has a queue size. A car at the head has a target intersection with a slot for its side.
