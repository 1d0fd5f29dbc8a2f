/** The `Calibration` object of the vision layer as an immutable state with
    pure transitions. It holds the fixed chessboard template, the "capture
    the next detected board" flag, the growing sequences of image-point and
    object-point samples, the intrinsics (camera matrix and distortion
    coefficients) once they are known, and the profile name under which the
    intrinsics persist.

    The corner detector and the calibration solver are parameters: the
    detector is represented by its outcome on one frame, the solver by a
    function from the samples and the image size to the intrinsics it
    finds (or to nothing, when it throws). Browser `localStorage` is a map
    from keys to intrinsics, with the JSON round trip taken as exact.
 */
module Calibration {

  // ---------------------------------------------------------------------
  // Constants and values
  // ---------------------------------------------------------------------

  /** Distance between neighbouring corners of the chessboard, in mm. */
  const ChessboardPitch: int := 25
  /** Inner corners per chessboard row. */
  const ChessboardWidth: int := 9
  /** Inner corners per chessboard column. */
  const ChessboardHeight: int := 6
  /** Corners on the board. */
  const ChessboardCorners: int := ChessboardWidth * ChessboardHeight

  /** The profile name a `Calibration` gets when none is given. */
  const DefaultName: string := "default_camera"
  /** What follows the profile name in its storage key. */
  const KeySuffix: string := "/calibration"

  datatype Option<T> = None | Some(value: T)

  /** A detected corner, in image pixels. */
  datatype Point2 = Point2(x: real, y: real)
  /** A chessboard corner in board coordinates, in mm. */
  datatype Point3 = Point3(x: real, y: real, z: real)

  /** The corners one successful detection reports, in scan order. */
  type Corners = seq<Point2>

  /** The 3×3 camera matrix, row-major; the same nine-number layout as
      `Helpers.Mat3`, which `computeProjMat` reads. */
  type CameraMatrix = s: seq<real> | |s| == 9
    witness [0.0, 0.0, 0.0, 0.0, 0.0, 0.0, 0.0, 0.0, 0.0]

  /** The five distortion coefficients. */
  type DistCoeffs = s: seq<real> | |s| == 5
    witness [0.0, 0.0, 0.0, 0.0, 0.0]

  /** The calibration result, held and persisted as one pair. */
  datatype Intrinsics = Intrinsics(cameraMatrix: CameraMatrix, distCoeffs: DistCoeffs)

  /** `window.localStorage`, with each value already parsed back. */
  type Storage = map<string, Intrinsics>

  datatype ImageSize = ImageSize(width: int, height: int)

  /** The calibration solver: object-point samples, image-point samples and
      the image size to the intrinsics, or None where the solver throws. */
  type Solver = (seq<seq<Point3>>, seq<Corners>, ImageSize) -> Option<Intrinsics>

  /** The fields of a `Calibration` object. */
  datatype State = State(
    name: string,
    chessboardPoints: seq<Point3>,
    captureNext: bool,
    imagePoints: seq<Corners>,
    objectPoints: seq<seq<Point3>>,
    intrinsics: Option<Intrinsics>)

  // ---------------------------------------------------------------------
  // The chessboard template
  // ---------------------------------------------------------------------

  /** The board corners in row-major order: corner k lies in column k mod 9
      and row k div 9, one pitch apart, on the plane z = 0. */
  function Template(): (t: seq<Point3>)
    ensures |t| == ChessboardCorners
    ensures forall k :: 0 <= k < |t| ==>
      t[k].z == 0.0 && 0.0 <= t[k].x <= 200.0 && 0.0 <= t[k].y <= 125.0
  {
    seq(ChessboardCorners, k requires 0 <= k < ChessboardCorners =>
      Point3((ChessboardPitch * (k % ChessboardWidth)) as real,
             (ChessboardPitch * (k / ChessboardWidth)) as real,
             0.0))
  }

  /** The corner in column i, row j sits at index 9·j + i and at
      (25·i, 25·j, 0): rows outer, columns inner. */
  lemma TemplateRowMajor(i: int, j: int)
    requires 0 <= i < ChessboardWidth && 0 <= j < ChessboardHeight
    ensures Template()[j * ChessboardWidth + i]
         == Point3((ChessboardPitch * i) as real, (ChessboardPitch * j) as real, 0.0)
  {
    var k := j * ChessboardWidth + i;
    assert k % ChessboardWidth == i && k / ChessboardWidth == j;
  }

  /** No two corners of the template coincide. */
  lemma TemplateDistinct(k: int, l: int)
    requires 0 <= k < ChessboardCorners && 0 <= l < ChessboardCorners
    requires Template()[k] == Template()[l]
    ensures k == l
  {
    var t := Template();
    assert ChessboardPitch * (k % ChessboardWidth) == ChessboardPitch * (l % ChessboardWidth);
    assert ChessboardPitch * (k / ChessboardWidth) == ChessboardPitch * (l / ChessboardWidth);
    assert k == ChessboardWidth * (k / ChessboardWidth) + k % ChessboardWidth;
    assert l == ChessboardWidth * (l / ChessboardWidth) + l % ChessboardWidth;
  }

  /** Points as the flat number array that `matFromArray` reads: three
      numbers per point, x then y then z. */
  function Flatten(ps: seq<Point3>): (a: seq<real>)
    ensures |a| == 3 * |ps|
    ensures forall k :: 0 <= k < |ps| ==>
      a[3 * k] == ps[k].x && a[3 * k + 1] == ps[k].y && a[3 * k + 2] == ps[k].z
  {
    if ps == [] then [] else [ps[0].x, ps[0].y, ps[0].z] + Flatten(ps[1..])
  }

  /** `matFromArray(n, 1, CV_32FC3, a)`: a flat array read back as
      three-channel points. */
  function PointsFromArray(a: seq<real>): (ps: seq<Point3>)
    requires |a| % 3 == 0
    ensures 3 * |ps| == |a|
  {
    seq(|a| / 3, k requires 0 <= k < |a| / 3 => Point3(a[3 * k], a[3 * k + 1], a[3 * k + 2]))
  }

  /** Reading a flattened point list back gives the same points. */
  lemma PointsFromFlatten(ps: seq<Point3>)
    ensures PointsFromArray(Flatten(ps)) == ps
  {
  }

  /** Flattening a point list that was read from an array gives the array. */
  lemma FlattenOfPoints(a: seq<real>)
    requires |a| % 3 == 0
    ensures Flatten(PointsFromArray(a)) == a
  {
    var ps := PointsFromArray(a);
    var b := Flatten(ps);
    forall n | 0 <= n < |a|
      ensures b[n] == a[n]
    {
      var k := n / 3;
      assert 0 <= k < |ps| && ps[k] == Point3(a[3 * k], a[3 * k + 1], a[3 * k + 2]);
      if n % 3 == 0 {
        assert n == 3 * k;
      } else if n % 3 == 1 {
        assert n == 3 * k + 1;
      } else {
        assert n == 3 * k + 2;
      }
    }
  }

  /** Appending one point appends its three numbers. */
  lemma {:induction false} FlattenSnoc(ps: seq<Point3>, p: Point3)
    ensures Flatten(ps + [p]) == Flatten(ps) + [p.x, p.y, p.z]
  {
    if ps == [] {
      assert ps + [p] == [p];
    } else {
      assert (ps + [p])[1..] == ps[1..] + [p];
      FlattenSnoc(ps[1..], p);
    }
  }

  /** The flattened template grows corner by corner: one more corner adds
      the x, y, z of column i, row j. */
  lemma TemplatePrefixSnoc(i: int, j: int)
    requires 0 <= i < ChessboardWidth && 0 <= j < ChessboardHeight
    ensures var k := j * ChessboardWidth + i;
      Flatten(Template()[..k + 1]) == Flatten(Template()[..k])
        + [(ChessboardPitch * i) as real, (ChessboardPitch * j) as real, 0.0]
  {
    var t := Template();
    var k := j * ChessboardWidth + i;
    TemplateRowMajor(i, j);
    assert t[..k + 1] == t[..k] + [t[k]];
    FlattenSnoc(t[..k], t[k]);
  }

  /** `constructChessboardCoordinates`: the nested loops, rows outer and
      columns inner, that push x, y and z of every corner. The array they
      build is the flattened template, and reading it back as
      three-channel points gives the template itself. */
  method ConstructChessboardCoordinates() returns (points: seq<real>)
    ensures |points| == 3 * ChessboardCorners
    ensures points == Flatten(Template())
    ensures PointsFromArray(points) == Template()
  {
    var t := Template();
    points := [];
    var j := 0;
    while j < ChessboardHeight
      invariant 0 <= j <= ChessboardHeight
      invariant points == Flatten(t[..j * ChessboardWidth])
    {
      var i := 0;
      while i < ChessboardWidth
        invariant 0 <= i <= ChessboardWidth
        invariant points == Flatten(t[..j * ChessboardWidth + i])
      {
        TemplatePrefixSnoc(i, j);
        points := points + [(ChessboardPitch * i) as real];
        points := points + [(ChessboardPitch * j) as real];
        points := points + [0.0];
        i := i + 1;
      }
      assert j * ChessboardWidth + ChessboardWidth == (j + 1) * ChessboardWidth;
      j := j + 1;
    }
    assert t[..ChessboardHeight * ChessboardWidth] == t;
    PointsFromFlatten(t);
  }

  // ---------------------------------------------------------------------
  // Storage keys
  // ---------------------------------------------------------------------

  /** The storage key of a profile: `${name}/calibration`. */
  function Key(name: string): (k: string)
    ensures |k| == |name| + |KeySuffix|
    ensures k[..|name|] == name && k[|name|..] == KeySuffix
  {
    name + KeySuffix
  }

  /** Distinct profile names have distinct keys, so profiles never share a
      storage slot. */
  lemma KeyInjective(a: string, b: string)
    requires Key(a) == Key(b)
    ensures a == b
  {
    assert |a| == |b|;
    assert a == Key(a)[..|a|];
  }

  // ---------------------------------------------------------------------
  // The state invariant
  // ---------------------------------------------------------------------

  /** The template is the board's, the two sample sequences grow in step,
      and every object-point sample is the template. */
  ghost predicate Valid(c: State)
  {
    && c.chessboardPoints == Template()
    && |c.imagePoints| == |c.objectPoints|
    && forall i :: 0 <= i < |c.objectPoints| ==> c.objectPoints[i] == c.chessboardPoints
  }

  // ---------------------------------------------------------------------
  // Transitions
  // ---------------------------------------------------------------------

  /** `removeCalibrationData`: drops the intrinsics; `removed` tells whether
      there were any. */
  datatype Removal = Removal(state: State, removed: bool)

  function RemoveCalibrationData(c: State): (r: Removal)
    ensures r.removed <==> c.intrinsics.Some?
    ensures r.state.intrinsics.None?
    ensures r.state.(intrinsics := c.intrinsics) == c
  {
    match c.intrinsics
    case Some(_) => Removal(c.(intrinsics := None), true)
    case None => Removal(c, false)
  }

  /** `loadCalibrationData`: adopts the intrinsics stored under the
      profile's key; `loaded` tells whether there were any. */
  datatype Loading = Loading(state: State, loaded: bool)

  function LoadCalibrationData(c: State, storage: Storage): (r: Loading)
    ensures r.loaded <==> Key(c.name) in storage
    ensures r.loaded ==> r.state.intrinsics == Some(storage[Key(c.name)])
    ensures !r.loaded ==> r.state == c
    ensures r.state.(intrinsics := c.intrinsics) == c
  {
    var key := Key(c.name);
    if key in storage then
      var cleared := RemoveCalibrationData(c).state;
      Loading(cleared.(intrinsics := Some(storage[key])), true)
    else
      Loading(c, false)
  }

  /** `storeCalibrationData`: writes the intrinsics under the profile's
      key; `stored` tells whether there were any to write. */
  datatype Storing = Storing(storage: Storage, stored: bool)

  function StoreCalibrationData(c: State, storage: Storage): (r: Storing)
    ensures r.stored <==> c.intrinsics.Some?
    ensures !r.stored ==> r.storage == storage
    ensures r.stored ==> Key(c.name) in r.storage && r.storage[Key(c.name)] == c.intrinsics.value
    ensures r.storage.Keys == storage.Keys + (if r.stored then {Key(c.name)} else {})
    ensures forall k :: k in storage && k != Key(c.name) ==> r.storage[k] == storage[k]
  {
    match c.intrinsics
    case Some(intrinsics) => Storing(storage[Key(c.name) := intrinsics], true)
    case None => Storing(storage, false)
  }

  /** The constructor: the template, no samples, the flag unset (the
      field starts out undefined, which reads as false), no intrinsics, then
      whatever the storage holds for the profile. */
  function Init(name: string, storage: Storage): (c: State)
    ensures Valid(c)
    ensures !c.captureNext
    ensures c.name == name && c.imagePoints == [] && c.objectPoints == []
    ensures Key(name) in storage ==> c.intrinsics == Some(storage[Key(name)])
    ensures Key(name) !in storage ==> c.intrinsics.None?
  {
    var blank := State(name, Template(), false, [], [], None);
    LoadCalibrationData(blank, storage).state
  }

  /** The constructor called without a name: the profile `"default_camera"`. */
  function InitDefault(storage: Storage): (c: State)
    ensures Valid(c) && !c.captureNext
    ensures c.name == DefaultName && c.imagePoints == [] && c.objectPoints == []
    ensures c.intrinsics.Some? <==> "default_camera/calibration" in storage
    ensures c.intrinsics.Some? ==> c.intrinsics.value == storage["default_camera/calibration"]
  {
    assert Key(DefaultName) == "default_camera/calibration";
    Init(DefaultName, storage)
  }

  /** `setCaptureNextcalibrationPoints`: arms the capture of the next
      detected board. Only the flag changes. */
  function SetCaptureNext(c: State): (r: State)
    ensures r.captureNext
    ensures r.(captureNext := c.captureNext) == c
  {
    c.(captureNext := true)
  }

  /** `captureCalibrationPoints`: appends one image-point sample and one
      object-point sample. */
  function CaptureCalibrationPoints(c: State, imagePoints: Corners, objectPoints: seq<Point3>): (r: State)
    ensures |r.imagePoints| == |c.imagePoints| + 1 && |r.objectPoints| == |c.objectPoints| + 1
    ensures r.imagePoints[..|c.imagePoints|] == c.imagePoints && r.imagePoints[|c.imagePoints|] == imagePoints
    ensures r.objectPoints[..|c.objectPoints|] == c.objectPoints && r.objectPoints[|c.objectPoints|] == objectPoints
    ensures r.(imagePoints := c.imagePoints, objectPoints := c.objectPoints) == c
  {
    c.(imagePoints := c.imagePoints + [imagePoints], objectPoints := c.objectPoints + [objectPoints])
  }

  /** The capture branch of `findChessBoardCorners`, given what the detector
      made of the frame. A detected board while armed is captured, paired
      with the template, and disarms; anything else changes nothing, so a
      failed detection leaves an armed object armed. */
  function FindChessBoardCorners(c: State, detection: Option<Corners>): (r: State)
    ensures detection.Some? && c.captureNext ==>
      && r.imagePoints == c.imagePoints + [detection.value]
      && r.objectPoints == c.objectPoints + [c.chessboardPoints]
      && !r.captureNext
      && r.(imagePoints := c.imagePoints, objectPoints := c.objectPoints, captureNext := c.captureNext) == c
    ensures detection.None? || !c.captureNext ==> r == c
  {
    match detection
    case Some(corners) =>
      if c.captureNext then
        CaptureCalibrationPoints(c, corners, c.chessboardPoints).(captureNext := false)
      else
        c
    case None => c
  }

  /** A successful `calibrate`: the new state, the storage after the write,
      and the intrinsics returned. */
  datatype Calibrated = Calibrated(state: State, storage: Storage, intrinsics: Intrinsics)

  /** `calibrate`: runs the solver on every sample collected so far (there
      is no minimum), replaces the intrinsics with its output and persists
      them. None when the solver throws; the exception leaves the object
      and the storage as they were. */
  function Calibrate(c: State, storage: Storage, solver: Solver, size: ImageSize): (r: Option<Calibrated>)
    ensures solver(c.objectPoints, c.imagePoints, size).None? <==> r.None?
    ensures r.Some? ==>
      && r.value.intrinsics == solver(c.objectPoints, c.imagePoints, size).value
      && r.value.state.intrinsics == Some(r.value.intrinsics)
      && r.value.state.(intrinsics := c.intrinsics) == c
      && Key(c.name) in r.value.storage
      && r.value.storage[Key(c.name)] == r.value.intrinsics
      && r.value.storage.Keys == storage.Keys + {Key(c.name)}
      && forall k :: k in storage && k != Key(c.name) ==> r.value.storage[k] == storage[k]
  {
    match solver(c.objectPoints, c.imagePoints, size)
    case None => None
    case Some(intrinsics) =>
      var c' := c.(intrinsics := Some(intrinsics));
      Some(Calibrated(c', StoreCalibrationData(c', storage).storage, intrinsics))
  }

  // ---------------------------------------------------------------------
  // Properties of single transitions
  // ---------------------------------------------------------------------

  /** Arming twice is arming once. */
  lemma SetCaptureNextIdempotent(c: State)
    ensures SetCaptureNext(SetCaptureNext(c)) == SetCaptureNext(c)
  {
  }

  /** A second `removeCalibrationData` right after the first finds nothing
      and changes nothing. */
  lemma RemoveTwice(c: State)
    ensures var once := RemoveCalibrationData(c).state;
      !RemoveCalibrationData(once).removed && RemoveCalibrationData(once).state == once
  {
  }

  /** Store, then load under the same profile name (in this object or any
      other), restores exactly the stored intrinsics. */
  lemma StoreThenLoad(c: State, storage: Storage, other: State)
    requires c.intrinsics.Some?
    requires other.name == c.name
    ensures var loading := LoadCalibrationData(other, StoreCalibrationData(c, storage).storage);
      loading.loaded && loading.state.intrinsics == c.intrinsics
  {
  }

  /** Storing under one profile leaves what another profile loads as it
      was. */
  lemma StoreKeepsOtherProfiles(c: State, storage: Storage, other: State)
    requires other.name != c.name
    ensures LoadCalibrationData(other, StoreCalibrationData(c, storage).storage)
         == LoadCalibrationData(other, storage)
  {
    if Key(other.name) == Key(c.name) {
      KeyInjective(other.name, c.name);
    }
  }

  /** After a successful calibration a new object under the same profile
      name starts out with the intrinsics the solver found. */
  lemma CalibrationSurvivesRestart(c: State, storage: Storage, solver: Solver, size: ImageSize)
    requires solver(c.objectPoints, c.imagePoints, size).Some?
    ensures var r := Calibrate(c, storage, solver, size);
      r.Some? && Init(c.name, r.value.storage).intrinsics == Some(r.value.intrinsics)
  {
  }

  /** Arm, then two detected boards: the first is captured and disarms, the
      second is ignored. */
  lemma CaptureOnlyOncePerArm(c: State, first: Corners, second: Corners)
    ensures var c1 := FindChessBoardCorners(SetCaptureNext(c), Some(first));
      && |c1.imagePoints| == |c.imagePoints| + 1
      && c1.imagePoints[|c.imagePoints|] == first
      && !c1.captureNext
      && FindChessBoardCorners(c1, Some(second)) == c1
  {
  }

  // ---------------------------------------------------------------------
  // Runs of events
  // ---------------------------------------------------------------------

  /** What can happen to a `Calibration` object. */
  datatype Event =
    | Arm
    | Detect(detection: Option<Corners>)
    | Remove
    | Store
    | Load
    | Solve(size: ImageSize)

  /** An object together with the storage it persists to. */
  datatype System = System(state: State, storage: Storage)

  /** One event. No event renames the object, drops or rewrites a sample,
      or touches a storage key other than the profile's own. */
  function Step(s: System, e: Event, solver: Solver): (t: System)
    ensures t.state.name == s.state.name
    ensures |s.state.imagePoints| <= |t.state.imagePoints|
    ensures t.state.imagePoints[..|s.state.imagePoints|] == s.state.imagePoints
    ensures |s.state.objectPoints| <= |t.state.objectPoints|
    ensures t.state.objectPoints[..|s.state.objectPoints|] == s.state.objectPoints
    ensures t.storage.Keys <= s.storage.Keys + {Key(s.state.name)}
    ensures forall k :: k in s.storage && k != Key(s.state.name) ==> k in t.storage && t.storage[k] == s.storage[k]
  {
    match e
    case Arm => System(SetCaptureNext(s.state), s.storage)
    case Detect(detection) => System(FindChessBoardCorners(s.state, detection), s.storage)
    case Remove => System(RemoveCalibrationData(s.state).state, s.storage)
    case Store => System(s.state, StoreCalibrationData(s.state, s.storage).storage)
    case Load => System(LoadCalibrationData(s.state, s.storage).state, s.storage)
    case Solve(size) =>
      match Calibrate(s.state, s.storage, solver, size)
      case None => s
      case Some(r) => System(r.state, r.storage)
  }

  function Run(s: System, events: seq<Event>, solver: Solver): System
    decreases |events|
  {
    if events == [] then s else Run(Step(s, events[0], solver), events[1..], solver)
  }

  /** Every event keeps the invariant. */
  lemma StepPreservesValid(s: System, e: Event, solver: Solver)
    requires Valid(s.state)
    ensures Valid(Step(s, e, solver).state)
  {
    match e
    case Detect(Some(corners)) =>
      var t := Step(s, e, solver).state;
      if s.state.captureNext {
        forall i | 0 <= i < |t.objectPoints|
          ensures t.objectPoints[i] == t.chessboardPoints
        {
          if i < |s.state.objectPoints| {
            assert t.objectPoints[i] == s.state.objectPoints[i];
          }
        }
      }
    case _ =>
  }

  /** Along any run the invariant holds: the sample sequences stay the same
      length and every object-point sample is the template. */
  lemma {:induction false} RunPreservesValid(s: System, events: seq<Event>, solver: Solver)
    requires Valid(s.state)
    ensures Valid(Run(s, events, solver).state)
    decreases |events|
  {
    if events != [] {
      StepPreservesValid(s, events[0], solver);
      RunPreservesValid(Step(s, events[0], solver), events[1..], solver);
    }
  }

  /** Along any run, samples are only ever appended, the profile name stays
      put, and no storage key other than the profile's own changes. */
  lemma {:induction false} RunKeepsHistory(s: System, events: seq<Event>, solver: Solver)
    ensures var t := Run(s, events, solver);
      && t.state.name == s.state.name
      && |s.state.imagePoints| <= |t.state.imagePoints|
      && t.state.imagePoints[..|s.state.imagePoints|] == s.state.imagePoints
      && |s.state.objectPoints| <= |t.state.objectPoints|
      && t.state.objectPoints[..|s.state.objectPoints|] == s.state.objectPoints
      && t.storage.Keys <= s.storage.Keys + {Key(s.state.name)}
      && forall k :: k in s.storage && k != Key(s.state.name) ==> k in t.storage && t.storage[k] == s.storage[k]
    decreases |events|
  {
    if events != [] {
      var s1 := Step(s, events[0], solver);
      RunKeepsHistory(s1, events[1..], solver);
      var t := Run(s1, events[1..], solver);
      assert t.state.imagePoints[..|s1.state.imagePoints|] == s1.state.imagePoints;
      assert s1.state.imagePoints[..|s.state.imagePoints|] == s.state.imagePoints;
      assert t.state.objectPoints[..|s1.state.objectPoints|] == s1.state.objectPoints;
      assert s1.state.objectPoints[..|s.state.objectPoints|] == s.state.objectPoints;
    }
  }

  /** A freshly constructed object satisfies the invariant, so every object
      reachable from construction does. */
  lemma ReachableIsValid(name: string, storage: Storage, events: seq<Event>, solver: Solver)
    ensures Valid(Run(System(Init(name, storage), storage), events, solver).state)
  {
    RunPreservesValid(System(Init(name, storage), storage), events, solver);
  }
}
