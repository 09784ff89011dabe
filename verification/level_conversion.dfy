/**
 * The metro level conversion: how each metro line's platforms become station
 * records (start and end as fractions of the line's path), which station a
 * train placed at a given fraction of the path belongs to, and how the trains
 * of all lines are spaced and numbered when their spawn requests are built.
 *
 * Path fractions are `real`. The bezier path itself, the entities and the
 * engine components are not modelled: the path length is a field of the line,
 * and the spawn requests are returned as a sequence in the order they are made.
 */
module LevelConversion {

  /** A platform of a metro line: where its start and end points lie along the
      line's path (as distances), and its platform index. */
  datatype Platform = Platform(startDistance: real, endDistance: real, platformIndex: int)

  /** A metro line as the conversion reads it. `pathDistance` is the length the
      line's bezier path reports. */
  datatype MetroLine = MetroLine(
    platforms: seq<Platform>,
    pathDistance: real,
    maxTrains: int,
    carriagesPerTrain: int,
    carriageLength: real)

  /** A station record: the platform's start and end as fractions of the path. */
  datatype StationData = StationData(start: real, end: real, platformId: int)

  /** The spawn request made for one train (the prefab and the copy of the
      bezier path it also carries are not modelled). */
  datatype SpawnTrain = SpawnTrain(
    numberOfCarriages: int,
    globalTrainIndex: int,
    carriageLength: real,
    spacing: real,
    currentPlatform: int,
    stations: seq<StationData>)

  // ----- Station lookup -----

  /** A train at fraction `t` has entered station `i` (never the first one):
      it is past the end of station `i - 1` and short of the end of station `i`. */
  predicate Entered(s: seq<StationData>, t: real, i: int)
  {
    1 <= i < |s| && s[i - 1].end < t < s[i].end
  }

  /** The station the scan that starts at station `i` settles on: the first
      station from `i` on that the train has entered, or the last station when
      there is none. */
  function ScanFrom(s: seq<StationData>, t: real, i: nat): (k: nat)
    requires 1 <= i <= |s|
    ensures k < |s|
    ensures i <= k || k == |s| - 1
    ensures forall j :: i <= j < k ==> !Entered(s, t, j)
    ensures Entered(s, t, k) || k == |s| - 1
    decreases |s| - i
  {
    if i == |s| then |s| - 1
    else if s[i - 1].end < t < s[i].end then i
    else ScanFrom(s, t, i + 1)
  }

  /** The index of the station a train at fraction `t` belongs to: the first
      station when `t` lies before its start, otherwise the first station
      (from the second on) the train has entered, otherwise the last station. */
  function CurrentStationIndex(s: seq<StationData>, t: real): (k: nat)
    requires |s| > 0
    ensures k < |s|
    ensures t < s[0].start ==> k == 0
    ensures s[0].start <= t ==>
      (forall j :: 1 <= j < k ==> !Entered(s, t, j)) && (Entered(s, t, k) || k == |s| - 1)
  {
    if t < s[0].start then 0 else ScanFrom(s, t, 1)
  }

  /** The characterisation in CurrentStationIndex's contract admits one index only. */
  lemma CurrentStationIndexUnique(s: seq<StationData>, t: real, k: nat)
    requires k < |s|
    requires s[0].start <= t
    requires forall j :: 1 <= j < k ==> !Entered(s, t, j)
    requires Entered(s, t, k) || k == |s| - 1
    ensures k == CurrentStationIndex(s, t)
  {
  }

  /** The comparisons are strict and only ever look back at the previous
      station's end: on a line whose station ends do not decrease, a train
      placed at or past the first station's start but not past its end has
      entered no station, so the lookup falls through to the last station. */
  lemma InsideFirstStationGivesLast(s: seq<StationData>, t: real)
    requires |s| > 0
    requires forall i, j :: 0 <= i <= j < |s| ==> s[i].end <= s[j].end
    requires s[0].start <= t <= s[0].end
    ensures CurrentStationIndex(s, t) == |s| - 1
  {
  }

  /** For the same reason, on such a line a train at or past the first
      station's start that sits exactly at the end of some station has entered
      no station either, and gets the last station. */
  lemma AtStationEndGivesLast(s: seq<StationData>, t: real, k: nat)
    requires k < |s|
    requires forall i, j :: 0 <= i <= j < |s| ==> s[i].end <= s[j].end
    requires s[0].start <= t && t == s[k].end
    ensures CurrentStationIndex(s, t) == |s| - 1
  {
  }

  /** The platform of the station a train at fraction `t` belongs to. Reads
      the array and never writes it. */
  method GetCurrentPlatformId(stations: array<StationData>, t: real) returns (platformId: int)
    requires stations.Length > 0
    ensures platformId == stations[CurrentStationIndex(stations[..], t)].platformId
    ensures t < stations[0].start ==> platformId == stations[0].platformId
    ensures exists k :: 0 <= k < stations.Length && platformId == stations[k].platformId
  {
    if t < stations[0].start {
      return stations[0].platformId;
    }
    var previousStation := stations[0];
    for i := 1 to stations.Length
      invariant previousStation == stations[i - 1]
      invariant ScanFrom(stations[..], t, i) == ScanFrom(stations[..], t, 1)
    {
      var station := stations[i];
      if t > previousStation.end && t < station.end {
        return station.platformId;
      }
      previousStation := station;
    }
    return stations[stations.Length - 1].platformId;
  }

  // ----- Station records -----

  /** The station record of one platform. */
  function StationOf(p: Platform, pathDistance: real): StationData
    requires pathDistance != 0.0
  {
    StationData(p.startDistance / pathDistance, p.endDistance / pathDistance, p.platformIndex)
  }

  /** The station records of a line, one per platform and in platform order,
      each keeping its platform's index. */
  function Stations(line: MetroLine): (r: seq<StationData>)
    requires line.pathDistance != 0.0
    ensures |r| == |line.platforms|
    ensures forall pl :: 0 <= pl < |r| ==> r[pl].platformId == line.platforms[pl].platformIndex
  {
    seq(|line.platforms|, pl requires 0 <= pl < |line.platforms| => StationOf(line.platforms[pl], line.pathDistance))
  }

  /** A station's start and end are its platform's distances as fractions of
      the path length: scaled back by the length they give the distances. */
  lemma StationsAreFractions(line: MetroLine, pl: int)
    requires line.pathDistance != 0.0
    requires 0 <= pl < |line.platforms|
    ensures Stations(line)[pl].start * line.pathDistance == line.platforms[pl].startDistance
    ensures Stations(line)[pl].end * line.pathDistance == line.platforms[pl].endDistance
  {
  }

  /** Builds a new array of station records, slot by slot. */
  method BuildStationsData(line: MetroLine) returns (stationData: array<StationData>)
    requires line.pathDistance != 0.0
    ensures fresh(stationData)
    ensures stationData.Length == |line.platforms|
    ensures stationData[..] == Stations(line)
  {
    stationData := new StationData[|line.platforms|];
    for pl := 0 to |line.platforms|
      invariant forall j :: 0 <= j < pl ==> stationData[j] == StationOf(line.platforms[j], line.pathDistance)
    {
      var platform := line.platforms[pl];
      var startT := platform.startDistance / line.pathDistance;
      var endT := platform.endDistance / line.pathDistance;
      stationData[pl] := StationData(startT, endT, platform.platformIndex);
    }
  }

  // ----- Train spacing and numbering -----

  /** Where along the path train `trainIndex` of a line with `maxTrains`
      trains is placed: the trains are spread evenly from the start. */
  function Spacing(trainIndex: int, maxTrains: int): (r: real)
    requires 0 <= trainIndex < maxTrains
    ensures 0.0 <= r < 1.0
  {
    var step := 1.0 / (maxTrains as real);
    assert step * (maxTrains as real) == 1.0;
    assert (trainIndex as real) * step < (maxTrains as real) * step;
    (trainIndex as real) * step
  }

  /** Later trains of a line are placed further along the path. */
  lemma SpacingIncreasing(i: int, j: int, maxTrains: int)
    requires 0 <= i < j < maxTrains
    ensures Spacing(i, maxTrains) < Spacing(j, maxTrains)
  {
  }

  /** How many trains the conversion spawns for a line: the loop over train
      indices runs zero times when `maxTrains` is not positive. */
  function TrainCount(line: MetroLine): nat
  {
    if line.maxTrains > 0 then line.maxTrains else 0
  }

  /** The number of trains spawned for all the lines together. */
  function TotalTrains(lines: seq<MetroLine>): nat
  {
    if lines == [] then 0 else TotalTrains(lines[..|lines| - 1]) + TrainCount(lines[|lines| - 1])
  }

  /** A line the conversion can spawn trains for: the station lookup of a
      spawned train reads the first station, so a line with trains needs a
      platform, and the station fractions divide by the path length. */
  predicate Convertible(line: MetroLine)
  {
    line.pathDistance != 0.0 && (line.maxTrains > 0 ==> |line.platforms| > 0)
  }

  /** The spawn request for train `trainIndex` of a line, numbered `number`. */
  function TrainSpawn(line: MetroLine, trainIndex: int, number: int): SpawnTrain
    requires Convertible(line)
    requires 0 <= trainIndex < line.maxTrains
  {
    var stations := Stations(line);
    var spacing := Spacing(trainIndex, line.maxTrains);
    SpawnTrain(line.carriagesPerTrain, number, line.carriageLength, spacing,
               stations[CurrentStationIndex(stations, spacing)].platformId, stations)
  }

  /** The spawn requests of one line, numbered on from `before`. */
  function LineSpawns(line: MetroLine, before: int): seq<SpawnTrain>
    requires Convertible(line)
  {
    seq(TrainCount(line), j requires 0 <= j < TrainCount(line) => TrainSpawn(line, j, before + j + 1))
  }

  /** The spawn requests of all lines, line after line. */
  function AllSpawns(lines: seq<MetroLine>): seq<SpawnTrain>
    requires forall l :: l in lines ==> Convertible(l)
  {
    if lines == [] then []
    else
      var init := lines[..|lines| - 1];
      AllSpawns(init) + LineSpawns(lines[|lines| - 1], TotalTrains(init))
  }

  /** Every train of a line starts at one of that line's platforms and carries
      the line's station records. */
  lemma LineSpawnsStartAtPlatforms(line: MetroLine, before: int, j: int)
    requires Convertible(line)
    requires 0 <= j < TrainCount(line)
    ensures LineSpawns(line, before)[j].stations == Stations(line)
    ensures exists p :: 0 <= p < |line.platforms| &&
                        LineSpawns(line, before)[j].currentPlatform == line.platforms[p].platformIndex
  {
    var stations := Stations(line);
    var p := CurrentStationIndex(stations, Spacing(j, line.maxTrains));
    assert LineSpawns(line, before)[j] == TrainSpawn(line, j, before + j + 1);
    assert LineSpawns(line, before)[j].currentPlatform == line.platforms[p].platformIndex;
  }

  /** The trains of all lines are numbered 1, 2, 3, ... one per train, with as
      many trains as the lines' train counts add up to; each is placed at a
      fraction in [0, 1) of its path. */
  lemma {:induction false} TrainNumbering(lines: seq<MetroLine>)
    requires forall l :: l in lines ==> Convertible(l)
    ensures |AllSpawns(lines)| == TotalTrains(lines)
    ensures forall k :: 0 <= k < |AllSpawns(lines)| ==> AllSpawns(lines)[k].globalTrainIndex == k + 1
    ensures forall k :: 0 <= k < |AllSpawns(lines)| ==> 0.0 <= AllSpawns(lines)[k].spacing < 1.0
  {
    if lines != [] {
      var init := lines[..|lines| - 1];
      TrainNumbering(init);
      var before := AllSpawns(init);
      var last := LineSpawns(lines[|lines| - 1], TotalTrains(init));
      assert AllSpawns(lines) == before + last;
      forall k | 0 <= k < |AllSpawns(lines)|
        ensures AllSpawns(lines)[k].globalTrainIndex == k + 1
        ensures 0.0 <= AllSpawns(lines)[k].spacing < 1.0
      {
        if k < |before| {
          assert AllSpawns(lines)[k] == before[k];
        } else {
          var j := k - |before|;
          assert AllSpawns(lines)[k] == last[j];
          assert last[j] == TrainSpawn(lines[|lines| - 1], j, TotalTrains(init) + j + 1);
        }
      }
    }
  }

  /** Extending the lines by one appends that line's spawn requests. */
  lemma AllSpawnsPrefix(lines: seq<MetroLine>, li: nat)
    requires li < |lines|
    requires forall l :: l in lines ==> Convertible(l)
    ensures forall l :: l in lines[..li + 1] ==> Convertible(l)
    ensures TotalTrains(lines[..li + 1]) == TotalTrains(lines[..li]) + TrainCount(lines[li])
    ensures AllSpawns(lines[..li + 1]) == AllSpawns(lines[..li]) + LineSpawns(lines[li], TotalTrains(lines[..li]))
  {
    assert lines[..li + 1][..li] == lines[..li];
  }

  /** One more train of a line appends its spawn request, which starts at the
      platform the station lookup gives for its spacing. */
  lemma LineSpawnsPrefix(line: MetroLine, before: int, n: nat, platformId: int)
    requires Convertible(line)
    requires n < TrainCount(line)
    requires platformId == Stations(line)[CurrentStationIndex(Stations(line), Spacing(n, line.maxTrains))].platformId
    ensures LineSpawns(line, before)[..n + 1] == LineSpawns(line, before)[..n] +
      [SpawnTrain(line.carriagesPerTrain, before + n + 1, line.carriageLength, Spacing(n, line.maxTrains),
                  platformId, Stations(line))]
  {
    assert LineSpawns(line, before)[n] == TrainSpawn(line, n, before + n + 1);
  }

  /** Builds the spawn requests of every line's trains, numbering them with
      one counter across all lines. */
  method SetupTrains(lines: seq<MetroLine>) returns (spawns: seq<SpawnTrain>)
    requires forall l :: l in lines ==> Convertible(l)
    ensures spawns == AllSpawns(lines)
    ensures |spawns| == TotalTrains(lines)
    ensures forall k :: 0 <= k < |spawns| ==> spawns[k].globalTrainIndex == k + 1
  {
    spawns := [];
    var globalTrainIdx := 0;
    for li := 0 to |lines|
      invariant spawns == AllSpawns(lines[..li])
      invariant globalTrainIdx == TotalTrains(lines[..li])
    {
      var metroLine := lines[li];
      assert metroLine in lines;
      var stationData := BuildStationsData(metroLine);
      ghost var before := globalTrainIdx;
      ghost var done := spawns;
      var trainIndex := 0;
      while trainIndex < metroLine.maxTrains
        invariant 0 <= trainIndex <= TrainCount(metroLine)
        invariant stationData[..] == Stations(metroLine)
        invariant globalTrainIdx == before + trainIndex
        invariant spawns == done + LineSpawns(metroLine, before)[..trainIndex]
      {
        var spacing := Spacing(trainIndex, metroLine.maxTrains);
        globalTrainIdx := globalTrainIdx + 1;
        var currentPlatform := GetCurrentPlatformId(stationData, spacing);
        LineSpawnsPrefix(metroLine, before, trainIndex, currentPlatform);
        spawns := spawns + [SpawnTrain(metroLine.carriagesPerTrain, globalTrainIdx, metroLine.carriageLength,
                                       spacing, currentPlatform, stationData[..])];
        trainIndex := trainIndex + 1;
      }
      assert LineSpawns(metroLine, before)[..trainIndex] == LineSpawns(metroLine, before);
      AllSpawnsPrefix(lines, li);
    }
    assert lines[..|lines|] == lines;
    TrainNumbering(lines);
  }
}
