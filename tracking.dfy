/** The marker store and the angle channels: what happens to them when the
    detector reports a marker (`processMarkerData`) and when the reference
    marker is refreshed (`updateReferenceMarker`). */
module Tracking {
  import opened Linear
  import opened Externals
  import opened Smoothing

  /** The marker whose pose defines the frame the other markers are measured
      against. */
  const REFERENCE_ID := 3

  /** What the store keeps per marker: the rotation from cv.Rodrigues and the
      position in the scene's frame. */
  datatype Pose = Pose(rotation: Mat3, position: Vec3)

  /** One detection: the marker id and the rotation and translation vectors
      the pose estimator gave for it. */
  datatype Observation = Observation(id: int, rvec: Vec3, tvec: Vec3)

  /** The foreign calls and the filter setting the tracker runs with. */
  datatype Config = Config(lib: Library, filter: Filter)

  /** The tracker's whole state. A marker id absent from `markerData` is the
      program's null (or never-assigned) slot. */
  datatype TrackerState = TrackerState(markerData: map<int, Pose>, angles: Angles)

  const InitialState := TrackerState(map[], InitialAngles)

  /** The pose stored for one detection: the Rodrigues rotation, and the
      translation with its depth component negated. */
  function ObservedPose(lib: Library, rvec: Vec3, tvec: Vec3): Pose
  {
    Pose(lib.rodrigues(rvec), Vec3(tvec.x, tvec.y, -tvec.z))
  }

  /** Euler angles (radians, order XYZ) of a marker's rotation relative to the
      reference, given the inverse of the reference rotation. */
  function RelativeEuler(lib: Library, refInv: Mat3, marker: Pose): Euler
  {
    lib.eulerXYZ(Mul(refInv, marker.rotation))
  }

  /** One pass of the loop over ids 0, 1, 2: a marker that is in the store
      feeds its fixed channels through the filter; any other id changes
      nothing. */
  function RouteMarker(cfg: Config, store: map<int, Pose>, refInv: Mat3, id: int, a: Angles): Angles
  {
    if id !in store then a
    else
      var e := RelativeEuler(cfg.lib, refInv, store[id]);
      if id == 0 then
        a.(r0y := ApplySmoothing(cfg.filter, cfg.lib.radToDeg(e.y), a.r0y))
      else if id == 1 then
        a.(r1y := ApplySmoothing(cfg.filter, cfg.lib.radToDeg(e.y), a.r1y))
      else if id == 2 then
        a.(r2x := ApplySmoothing(cfg.filter, cfg.lib.radToDeg(e.x), a.r2x),
           r2y := ApplySmoothing(cfg.filter, cfg.lib.radToDeg(e.y), a.r2y))
      else a
  }

  /** The channels after the loop has handled ids 0 .. k - 1. */
  function RoutedUpTo(cfg: Config, store: map<int, Pose>, refInv: Mat3, k: nat, a: Angles): Angles
  {
    if k == 0 then a else RouteMarker(cfg, store, refInv, k - 1, RoutedUpTo(cfg, store, refInv, k - 1, a))
  }

  /** `updateReferenceMarker`: without a reference pose nothing changes;
      otherwise ids 0, 1 and 2 are routed in turn. */
  function ReferenceUpdate(cfg: Config, store: map<int, Pose>, a: Angles): Angles
  {
    if REFERENCE_ID !in store then a
    else RoutedUpTo(cfg, store, cfg.lib.inverse(store[REFERENCE_ID].rotation), 3, a)
  }

  /** `processMarkerData`: store the detection, then recompute the channels
      if it was the reference marker. */
  function Step(cfg: Config, s: TrackerState, o: Observation): TrackerState
  {
    var store := s.markerData[o.id := ObservedPose(cfg.lib, o.rvec, o.tvec)];
    TrackerState(store, if o.id == REFERENCE_ID then ReferenceUpdate(cfg, store, s.angles) else s.angles)
  }

  /** The detections of one frame, processed in the order they are listed. */
  function Run(cfg: Config, s: TrackerState, obs: seq<Observation>): TrackerState
    decreases |obs|
  {
    if obs == [] then s else Run(cfg, Step(cfg, s, obs[0]), obs[1..])
  }

  /** Marker `id` feeds a channel: both it and the reference are stored. */
  predicate Tracked(store: map<int, Pose>, id: int)
  {
    REFERENCE_ID in store && id in store
  }

  /** The raw X angle, in degrees, of a tracked marker relative to the
      reference. */
  function RawX(cfg: Config, store: map<int, Pose>, id: int): real
    requires Tracked(store, id)
  {
    cfg.lib.radToDeg(RelativeEuler(cfg.lib, cfg.lib.inverse(store[REFERENCE_ID].rotation), store[id]).x)
  }

  /** The raw Y angle, in degrees, of a tracked marker relative to the
      reference. */
  function RawY(cfg: Config, store: map<int, Pose>, id: int): real
    requires Tracked(store, id)
  {
    cfg.lib.radToDeg(RelativeEuler(cfg.lib, cfg.lib.inverse(store[REFERENCE_ID].rotation), store[id]).y)
  }

  /** Skip and route, channel by channel: each channel is fed by exactly one
      marker (r0y by the Y angle of marker 0, r1y by the Y angle of marker 1,
      r2x and r2y by the X and Y angles of marker 2); it is smoothed towards
      that marker's angle when the marker and the reference are both stored,
      and keeps its value otherwise. */
  lemma ReferenceUpdateRoutes(cfg: Config, store: map<int, Pose>, a: Angles)
    ensures ReferenceUpdate(cfg, store, a).r0y
            == if Tracked(store, 0) then ApplySmoothing(cfg.filter, RawY(cfg, store, 0), a.r0y) else a.r0y
    ensures ReferenceUpdate(cfg, store, a).r1y
            == if Tracked(store, 1) then ApplySmoothing(cfg.filter, RawY(cfg, store, 1), a.r1y) else a.r1y
    ensures ReferenceUpdate(cfg, store, a).r2x
            == if Tracked(store, 2) then ApplySmoothing(cfg.filter, RawX(cfg, store, 2), a.r2x) else a.r2x
    ensures ReferenceUpdate(cfg, store, a).r2y
            == if Tracked(store, 2) then ApplySmoothing(cfg.filter, RawY(cfg, store, 2), a.r2y) else a.r2y
  {
    if REFERENCE_ID in store {
      var refInv := cfg.lib.inverse(store[REFERENCE_ID].rotation);
      var a1 := RouteMarker(cfg, store, refInv, 0, a);
      var a2 := RouteMarker(cfg, store, refInv, 1, a1);
      assert RoutedUpTo(cfg, store, refInv, 1, a) == a1;
      assert RoutedUpTo(cfg, store, refInv, 2, a) == a2;
      assert RoutedUpTo(cfg, store, refInv, 3, a) == RouteMarker(cfg, store, refInv, 2, a2);
    }
  }

  /** Without a stored reference pose every channel keeps its value, whatever
      other markers are stored. */
  lemma ReferenceUpdateFreezesWithoutReference(cfg: Config, store: map<int, Pose>, a: Angles)
    requires REFERENCE_ID !in store
    ensures ReferenceUpdate(cfg, store, a) == a
  {
  }

  /** The update reads only the poses of markers 0 to 3: poses stored under
      any other id never reach a channel. */
  lemma ReferenceUpdateIgnoresOtherIds(cfg: Config, store: map<int, Pose>, id: int, p: Pose, a: Angles)
    requires !(0 <= id <= 3)
    ensures ReferenceUpdate(cfg, store[id := p], a) == ReferenceUpdate(cfg, store, a)
  {
    var store' := store[id := p];
    assert forall k :: 0 <= k <= 3 ==> (k in store' <==> k in store);
    assert forall k :: 0 <= k <= 3 && k in store ==> store'[k] == store[k];
    ReferenceUpdateRoutes(cfg, store, a);
    ReferenceUpdateRoutes(cfg, store', a);
  }

  /** A detection overwrites exactly its own slot: its id is stored with the
      Rodrigues rotation and the translation with only z negated, and every
      other stored id keeps its pose; no id is dropped. */
  lemma StepStoresObservation(cfg: Config, s: TrackerState, o: Observation)
    ensures Step(cfg, s, o).markerData.Keys == s.markerData.Keys + {o.id}
    ensures Step(cfg, s, o).markerData[o.id]
            == Pose(cfg.lib.rodrigues(o.rvec), Vec3(o.tvec.x, o.tvec.y, -o.tvec.z))
    ensures forall k :: k in s.markerData && k != o.id ==> Step(cfg, s, o).markerData[k] == s.markerData[k]
  {
  }

  /** Only a detection of the reference marker touches the channels, and then
      the reference pose it has just stored is present, so the null check of
      `updateReferenceMarker` never fires on this path. */
  lemma StepTriggersOnlyOnReference(cfg: Config, s: TrackerState, o: Observation)
    ensures o.id != REFERENCE_ID ==> Step(cfg, s, o).angles == s.angles
    ensures o.id == REFERENCE_ID ==>
              REFERENCE_ID in Step(cfg, s, o).markerData
              && Step(cfg, s, o).angles == ReferenceUpdate(cfg, Step(cfg, s, o).markerData, s.angles)
  {
  }

  /** Processing one more detection after a run is running the longer list. */
  lemma {:induction false} RunAppend(cfg: Config, s: TrackerState, obs: seq<Observation>, o: Observation)
    ensures Run(cfg, s, obs + [o]) == Step(cfg, Run(cfg, s, obs), o)
    decreases |obs|
  {
    if obs == [] {
      assert [o][1..] == [];
    } else {
      assert (obs + [o])[1..] == obs[1..] + [o];
      RunAppend(cfg, Step(cfg, s, obs[0]), obs[1..], o);
    }
  }

  /** Detections that never include the reference marker leave every channel
      frozen, however many other markers they report. */
  lemma {:induction false} RunWithoutReferenceFreezes(cfg: Config, s: TrackerState, obs: seq<Observation>)
    requires forall k :: 0 <= k < |obs| ==> obs[k].id != REFERENCE_ID
    ensures Run(cfg, s, obs).angles == s.angles
    decreases |obs|
  {
    if obs != [] {
      assert obs[0].id != REFERENCE_ID;
      assert forall k :: 0 <= k < |obs[1..]| ==> obs[1..][k].id == obs[k + 1].id;
      RunWithoutReferenceFreezes(cfg, Step(cfg, s, obs[0]), obs[1..]);
    }
  }

  /** The store only grows: after a run it holds the ids it held before and
      every id that was detected, and nothing else. */
  lemma {:induction false} RunStoreKeys(cfg: Config, s: TrackerState, obs: seq<Observation>)
    ensures Run(cfg, s, obs).markerData.Keys
            == s.markerData.Keys + set k | 0 <= k < |obs| :: obs[k].id
    decreases |obs|
  {
    if obs != [] {
      var s' := Step(cfg, s, obs[0]);
      RunStoreKeys(cfg, s', obs[1..]);
      var rest := set k | 0 <= k < |obs[1..]| :: obs[1..][k].id;
      var all := set k | 0 <= k < |obs| :: obs[k].id;
      assert all == {obs[0].id} + rest by {
        forall i | i in all ensures i in {obs[0].id} + rest {
          var k :| 0 <= k < |obs| && obs[k].id == i;
          if k > 0 { assert obs[1..][k - 1].id == i; }
        }
        forall i | i in rest ensures i in all {
          var k :| 0 <= k < |obs[1..]| && obs[1..][k].id == i;
          assert obs[k + 1].id == i;
        }
      }
    }
  }

  /** No slot is ever cleared: a stored marker that no detection of the run
      reports (an occluded marker) keeps its last pose. */
  lemma {:induction false} RunKeepsUndetected(cfg: Config, s: TrackerState, obs: seq<Observation>, id: int)
    requires id in s.markerData
    requires forall k :: 0 <= k < |obs| ==> obs[k].id != id
    ensures id in Run(cfg, s, obs).markerData
    ensures Run(cfg, s, obs).markerData[id] == s.markerData[id]
    decreases |obs|
  {
    if obs != [] {
      assert obs[0].id != id;
      assert forall k :: 0 <= k < |obs[1..]| ==> obs[1..][k].id == obs[k + 1].id;
      RunKeepsUndetected(cfg, Step(cfg, s, obs[0]), obs[1..], id);
    }
  }

  /** The last detection of an id wins: after a run, an id whose final
      detection is at position k holds that detection's pose. */
  lemma RunLastDetectionWins(cfg: Config, s: TrackerState, obs: seq<Observation>, k: nat)
    requires k < |obs|
    requires forall j :: k < j < |obs| ==> obs[j].id != obs[k].id
    ensures obs[k].id in Run(cfg, s, obs).markerData
    ensures Run(cfg, s, obs).markerData[obs[k].id] == ObservedPose(cfg.lib, obs[k].rvec, obs[k].tvec)
    decreases |obs|
  {
    var id := obs[k].id;
    var last := obs[|obs| - 1];
    var init := obs[..|obs| - 1];
    assert obs == init + [last];
    RunAppend(cfg, s, init, last);
    if k < |obs| - 1 {
      RunLastDetectionWins(cfg, s, init, k);
      assert last.id != id;
    }
  }

  /** The tracker's mutable state: the `markerData` table and the
      `smoothedAngles` channels. */
  class Tracker {
    const cfg: Config
    var markerData: map<int, Pose>
    var smoothedAngles: Angles

    /** Every slot empty, every channel at 0. */
    constructor (cfg: Config)
      ensures this.cfg == cfg
      ensures State() == InitialState
    {
      this.cfg := cfg;
      markerData := map[];
      smoothedAngles := InitialAngles;
    }

    function State(): TrackerState
      reads this
    {
      TrackerState(markerData, smoothedAngles)
    }

    /** `processMarkerData(id, rvec, tvec)`. */
    method ProcessMarkerData(id: int, rvec: Vec3, tvec: Vec3)
      modifies this
      ensures State() == Step(cfg, old(State()), Observation(id, rvec, tvec))
    {
      var rotation := cfg.lib.rodrigues(rvec);
      var position := Vec3(tvec.x, tvec.y, -tvec.z);
      markerData := markerData[id := Pose(rotation, position)];
      if id == REFERENCE_ID {
        UpdateReferenceMarker();
      }
    }

    /** `updateReferenceMarker()`. */
    method UpdateReferenceMarker()
      modifies this`smoothedAngles
      ensures smoothedAngles == ReferenceUpdate(cfg, markerData, old(smoothedAngles))
    {
      if REFERENCE_ID !in markerData {
        return;
      }
      var refInv := cfg.lib.inverse(markerData[REFERENCE_ID].rotation);
      for id := 0 to 3
        invariant smoothedAngles == RoutedUpTo(cfg, markerData, refInv, id, old(smoothedAngles))
      {
        if id in markerData {
          var euler := RelativeEuler(cfg.lib, refInv, markerData[id]);
          if id == 0 {
            smoothedAngles := smoothedAngles.(
              r0y := ApplySmoothing(cfg.filter, cfg.lib.radToDeg(euler.y), smoothedAngles.r0y));
          } else if id == 1 {
            smoothedAngles := smoothedAngles.(
              r1y := ApplySmoothing(cfg.filter, cfg.lib.radToDeg(euler.y), smoothedAngles.r1y));
          } else if id == 2 {
            smoothedAngles := smoothedAngles.(
              r2x := ApplySmoothing(cfg.filter, cfg.lib.radToDeg(euler.x), smoothedAngles.r2x));
            smoothedAngles := smoothedAngles.(
              r2y := ApplySmoothing(cfg.filter, cfg.lib.radToDeg(euler.y), smoothedAngles.r2y));
          }
        }
      }
    }

    /** The detection loop's inner loop: every marker found in one frame is
      processed in the order the detector lists it. */
    method ProcessDetections(detections: seq<Observation>)
      modifies this
      ensures State() == Run(cfg, old(State()), detections)
    {
      for i := 0 to |detections|
        invariant State() == Run(cfg, old(State()), detections[..i])
      {
        var d := detections[i];
        RunAppend(cfg, old(State()), detections[..i], d);
        assert detections[..i + 1] == detections[..i] + [d];
        ProcessMarkerData(d.id, d.rvec, d.tvec);
      }
      assert detections[..|detections|] == detections;
    }
  }
}
