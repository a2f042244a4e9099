/** The overhead-camera geometry shared by `ORA_OT_AddRocketCamera` and
    `ORA_OT_UpdateRocketCamera` (assets/ORA2.1.py:320-343 and 389-412): the
    camera sits, in the rocket's local frame, above the centre of its
    bounding box's X/Y extent, `offset_z` above its top, shifted `offset_x`
    sideways, with identity rotation and a clip start derived from the
    vertical offset. */
module CameraPlacer {

  datatype Vec3 = Vec3(x: real, y: real, z: real)

  /** The add-on's camera settings: `offset_x_camera`, `offset_z_camera`,
      `adjust_clip_start`. */
  datatype CameraSettings = CameraSettings(offsetX: real, offsetZ: real, adjustClip: bool)

  /** The property defaults: 5 cm to the left, 5 cm above, clip adjusted. */
  const DefaultSettings: CameraSettings := CameraSettings(-0.05, 0.05, true)

  /** The floor an adjusted clip start never goes below. */
  const MinClip: real := 0.001

  /** The clip start when it is not adjusted. */
  const FixedClip: real := 0.1

  /** Where the camera goes and how it is set up, in the rocket's frame. */
  datatype Placement = Placement(location: Vec3, rotation: Vec3, clipStart: real)

  function Abs(r: real): real {
    if r < 0.0 then -r else r
  }

  /** Python's `min` over a non-empty sequence. */
  function MinOf(xs: seq<real>): real
    requires |xs| > 0
    decreases |xs|
  {
    if |xs| == 1 then xs[0]
    else
      var rest := MinOf(xs[1..]);
      if xs[0] <= rest then xs[0] else rest
  }

  /** Python's `max` over a non-empty sequence. */
  function MaxOf(xs: seq<real>): real
    requires |xs| > 0
    decreases |xs|
  {
    if |xs| == 1 then xs[0]
    else
      var rest := MaxOf(xs[1..]);
      if xs[0] >= rest then xs[0] else rest
  }

  /** `min` picks a member no greater than any other. */
  lemma {:induction false} MinOfSpec(xs: seq<real>)
    requires |xs| > 0
    ensures exists k | 0 <= k < |xs| :: xs[k] == MinOf(xs)
    ensures forall k | 0 <= k < |xs| :: MinOf(xs) <= xs[k]
    decreases |xs|
  {
    if |xs| > 1 {
      MinOfSpec(xs[1..]);
      var rest := MinOf(xs[1..]);
      var k :| 0 <= k < |xs[1..]| && xs[1..][k] == rest;
      assert xs[k + 1] == rest;
      if xs[0] <= rest {
        assert xs[0] == MinOf(xs);
      } else {
        assert xs[k + 1] == MinOf(xs);
      }
      forall i | 1 <= i < |xs|
        ensures MinOf(xs) <= xs[i]
      {
        assert xs[i] == xs[1..][i - 1];
      }
    } else {
      assert xs[0] == MinOf(xs);
    }
  }

  /** `max` picks a member no smaller than any other. */
  lemma {:induction false} MaxOfSpec(xs: seq<real>)
    requires |xs| > 0
    ensures exists k | 0 <= k < |xs| :: xs[k] == MaxOf(xs)
    ensures forall k | 0 <= k < |xs| :: xs[k] <= MaxOf(xs)
    decreases |xs|
  {
    if |xs| > 1 {
      MaxOfSpec(xs[1..]);
      var rest := MaxOf(xs[1..]);
      var k :| 0 <= k < |xs[1..]| && xs[1..][k] == rest;
      assert xs[k + 1] == rest;
      if xs[0] >= rest {
        assert xs[0] == MaxOf(xs);
      } else {
        assert xs[k + 1] == MaxOf(xs);
      }
      forall i | 1 <= i < |xs|
        ensures xs[i] <= MaxOf(xs)
      {
        assert xs[i] == xs[1..][i - 1];
      }
    } else {
      assert xs[0] == MaxOf(xs);
    }
  }

  function Xs(corners: seq<Vec3>): seq<real> {
    seq(|corners|, i requires 0 <= i < |corners| => corners[i].x)
  }

  function Ys(corners: seq<Vec3>): seq<real> {
    seq(|corners|, i requires 0 <= i < |corners| => corners[i].y)
  }

  function Zs(corners: seq<Vec3>): seq<real> {
    seq(|corners|, i requires 0 <= i < |corners| => corners[i].z)
  }

  /** The clip start: with adjustment, the smallest value that is at least
      both `|offset_z|` and 0.001; without, 0.1. */
  function ClipStart(offsetZ: real, adjust: bool): (c: real)
    ensures c >= MinClip
    ensures adjust ==> c >= Abs(offsetZ) && (c == Abs(offsetZ) || c == MinClip)
    ensures !adjust ==> c == FixedClip
  {
    if adjust then
      var clip := Abs(offsetZ);
      if clip < MinClip then MinClip else clip
    else FixedClip
  }

  /** The camera placement over the eight corners of `rocket.bound_box`. */
  function Place(corners: seq<Vec3>, settings: CameraSettings): Placement
    requires |corners| == 8
  {
    var xs, ys, zs := Xs(corners), Ys(corners), Zs(corners);
    var centreX := (MinOf(xs) + MaxOf(xs)) / 2.0;
    var centreY := (MinOf(ys) + MaxOf(ys)) / 2.0;
    var location := Vec3(centreX + settings.offsetX, centreY, MaxOf(zs) + settings.offsetZ);
    Placement(location, Vec3(0.0, 0.0, 0.0), ClipStart(settings.offsetZ, settings.adjustClip))
  }

  // ------------------------------------------------------------ properties

  function Shifted(corners: seq<Vec3>, d: Vec3): (r: seq<Vec3>)
    ensures |r| == |corners|
    ensures forall k | 0 <= k < |corners| :: r[k] == Vec3(corners[k].x + d.x, corners[k].y + d.y, corners[k].z + d.z)
  {
    seq(|corners|, i requires 0 <= i < |corners| => Vec3(corners[i].x + d.x, corners[i].y + d.y, corners[i].z + d.z))
  }

  function ShiftAll(xs: seq<real>, d: real): (r: seq<real>)
    ensures |r| == |xs| && forall k | 0 <= k < |xs| :: r[k] == xs[k] + d
  {
    seq(|xs|, i requires 0 <= i < |xs| => xs[i] + d)
  }

  lemma {:induction false} MinMaxOfShift(xs: seq<real>, d: real)
    requires |xs| > 0
    ensures MinOf(ShiftAll(xs, d)) == MinOf(xs) + d
    ensures MaxOf(ShiftAll(xs, d)) == MaxOf(xs) + d
    decreases |xs|
  {
    if |xs| > 1 {
      MinMaxOfShift(xs[1..], d);
      assert ShiftAll(xs, d)[1..] == ShiftAll(xs[1..], d);
    }
  }

  /** The camera follows the rocket's geometry: moving every corner of the
      box by `d` moves the camera by `d` and changes nothing else. */
  lemma PlacementFollowsTheBox(corners: seq<Vec3>, d: Vec3, settings: CameraSettings)
    requires |corners| == 8
    ensures var p := Place(corners, settings);
      var q := Place(Shifted(corners, d), settings);
      q.location == Vec3(p.location.x + d.x, p.location.y + d.y, p.location.z + d.z)
      && q.rotation == p.rotation && q.clipStart == p.clipStart
  {
    var moved := Shifted(corners, d);
    MinMaxOfShift(Xs(corners), d.x);
    MinMaxOfShift(Ys(corners), d.y);
    MinMaxOfShift(Zs(corners), d.z);
    assert Xs(moved) == ShiftAll(Xs(corners), d.x);
    assert Ys(moved) == ShiftAll(Ys(corners), d.y);
    assert Zs(moved) == ShiftAll(Zs(corners), d.z);
  }

  /** The smallest and largest members bound all the others. */
  lemma Extent(xs: seq<real>) returns (lo: nat, hi: nat)
    requires |xs| > 0
    ensures lo < |xs| && hi < |xs| && xs[lo] == MinOf(xs) && xs[hi] == MaxOf(xs)
    ensures forall k | 0 <= k < |xs| :: xs[lo] <= xs[k] <= xs[hi]
  {
    MinOfSpec(xs);
    MaxOfSpec(xs);
    lo :| 0 <= lo < |xs| && xs[lo] == MinOf(xs);
    hi :| 0 <= hi < |xs| && xs[hi] == MaxOf(xs);
  }

  /** Vertically the camera is `offset_z` above the highest corner. */
  lemma HeightAboveTop(corners: seq<Vec3>, settings: CameraSettings)
    requires |corners| == 8
    ensures var z := Place(corners, settings).location.z - settings.offsetZ;
      (forall k | 0 <= k < |corners| :: corners[k].z <= z)
      && (exists k | 0 <= k < |corners| :: corners[k].z == z)
  {
    var zs := Zs(corners);
    var lo, hi := Extent(zs);
    assert corners[hi].z == zs[hi];
    forall k | 0 <= k < |corners| ensures corners[k].z <= zs[hi] {
      assert zs[k] == corners[k].z;
    }
  }

  /** Sideways the camera is `offset_x` beside the midpoint of the two
      corners that bound the box in X. */
  lemma CentredInX(corners: seq<Vec3>, settings: CameraSettings)
    requires |corners| == 8
    ensures var x := Place(corners, settings).location.x - settings.offsetX;
      exists i, j | 0 <= i < |corners| && 0 <= j < |corners| ::
        x == (corners[i].x + corners[j].x) / 2.0
        && forall k | 0 <= k < |corners| :: corners[i].x <= corners[k].x <= corners[j].x
  {
    var xs := Xs(corners);
    var lo, hi := Extent(xs);
    assert xs[lo] == corners[lo].x && xs[hi] == corners[hi].x;
    forall k | 0 <= k < |corners| ensures corners[lo].x <= corners[k].x <= corners[hi].x {
      assert xs[k] == corners[k].x;
    }
  }

  /** In Y the camera is on the midpoint of the two corners that bound the
      box in Y. */
  lemma CentredInY(corners: seq<Vec3>, settings: CameraSettings)
    requires |corners| == 8
    ensures var y := Place(corners, settings).location.y;
      exists i, j | 0 <= i < |corners| && 0 <= j < |corners| ::
        y == (corners[i].y + corners[j].y) / 2.0
        && forall k | 0 <= k < |corners| :: corners[i].y <= corners[k].y <= corners[j].y
  {
    var ys := Ys(corners);
    var lo, hi := Extent(ys);
    assert ys[lo] == corners[lo].y && ys[hi] == corners[hi].y;
    forall k | 0 <= k < |corners| ensures corners[lo].y <= corners[k].y <= corners[hi].y {
      assert ys[k] == corners[k].y;
    }
  }

  /** With a positive vertical offset the camera is strictly above every
      corner of the box. */
  lemma CameraAboveTheBox(corners: seq<Vec3>, settings: CameraSettings)
    requires |corners| == 8 && settings.offsetZ > 0.0
    ensures forall k | 0 <= k < |corners| :: corners[k].z < Place(corners, settings).location.z
  {
    HeightAboveTop(corners, settings);
  }

  /** Over values that take only two levels, both present, `min` and `max`
      are those levels. */
  lemma TwoLevels(xs: seq<real>, a: real, b: real, i: nat, j: nat)
    requires a <= b && i < |xs| && j < |xs| && xs[i] == a && xs[j] == b
    requires forall k | 0 <= k < |xs| :: xs[k] == a || xs[k] == b
    ensures MinOf(xs) == a && MaxOf(xs) == b
  {
    var lo, hi := Extent(xs);
  }

  /** The property defaults on a 2 x 4 x 3 box standing on the origin: the
      camera lands 5 cm left of centre, 5 cm above the top, with a 5 cm
      clip start. */
  lemma DefaultPlacementExample()
    ensures var box := [Vec3(-1.0, -2.0, 0.0), Vec3(1.0, -2.0, 0.0), Vec3(1.0, 2.0, 0.0), Vec3(-1.0, 2.0, 0.0),
                        Vec3(-1.0, -2.0, 3.0), Vec3(1.0, -2.0, 3.0), Vec3(1.0, 2.0, 3.0), Vec3(-1.0, 2.0, 3.0)];
      Place(box, DefaultSettings) == Placement(Vec3(-0.05, 0.0, 3.05), Vec3(0.0, 0.0, 0.0), 0.05)
  {
    var box := [Vec3(-1.0, -2.0, 0.0), Vec3(1.0, -2.0, 0.0), Vec3(1.0, 2.0, 0.0), Vec3(-1.0, 2.0, 0.0),
                Vec3(-1.0, -2.0, 3.0), Vec3(1.0, -2.0, 3.0), Vec3(1.0, 2.0, 3.0), Vec3(-1.0, 2.0, 3.0)];
    TwoLevels(Xs(box), -1.0, 1.0, 0, 1);
    TwoLevels(Ys(box), -2.0, 2.0, 0, 2);
    TwoLevels(Zs(box), 0.0, 3.0, 0, 4);
  }

  /** A tiny offset is clamped to the 1 mm floor; no adjustment gives 10 cm. */
  lemma ClipFloorExample()
    ensures ClipStart(0.0002, true) == MinClip
    ensures ClipStart(-0.02, true) == 0.02
    ensures ClipStart(0.0002, false) == FixedClip
  {
  }

  // ------------------------------------------------------------ host objects

  /** The rocket object; only its local bounding box matters here. */
  class Rocket {
    const boundBox: seq<Vec3>

    constructor(boundBox: seq<Vec3>)
      ensures this.boundBox == boundBox
    {
      this.boundBox := boundBox;
    }
  }

  /** The camera object: parent, local location, Euler rotation, and its
      camera data's `clip_start`. */
  class CameraObject {
    var parent: Rocket?
    var location: Vec3
    var rotation: Vec3
    var clipStart: real

    /** `bpy.data.objects.new` on fresh camera data: no parent, at the
        origin, unrotated, with Blender's default clip start of 0.1. */
    constructor()
      ensures parent == null && location == Vec3(0.0, 0.0, 0.0)
      ensures rotation == Vec3(0.0, 0.0, 0.0) && clipStart == FixedClip
    {
      parent := null;
      location := Vec3(0.0, 0.0, 0.0);
      rotation := Vec3(0.0, 0.0, 0.0);
      clipStart := FixedClip;
    }

    /** Steps 3 to 5 of both operators: location, rotation and clip start
        from the rocket's box. */
    method ApplyPlacement(rocket: Rocket, settings: CameraSettings)
      requires |rocket.boundBox| == 8
      modifies this
      ensures var p := Place(rocket.boundBox, settings);
        location == p.location && rotation == p.rotation && clipStart == p.clipStart
      ensures parent == old(parent)
    {
      var corners := rocket.boundBox;
      var xs, ys, zs := Xs(corners), Ys(corners), Zs(corners);
      var maxZ := MaxOf(zs);
      var centreX := (MinOf(xs) + MaxOf(xs)) / 2.0;
      var centreY := (MinOf(ys) + MaxOf(ys)) / 2.0;
      location := Vec3(centreX + settings.offsetX, centreY, maxZ + settings.offsetZ);
      rotation := Vec3(0.0, 0.0, 0.0);
      if settings.adjustClip {
        var clip := Abs(settings.offsetZ);
        if clip < MinClip {
          clip := MinClip;
        }
        clipStart := clip;
      } else {
        clipStart := FixedClip;
      }
    }
  }

  /** `ORA_OT_AddRocketCamera`: cancel on an empty rocket name or when no
      object has that name (`rocket` is the lookup's result); otherwise a
      new camera parented to the rocket and placed over it. */
  method AddRocketCamera(rocketName: string, rocket: Rocket?, settings: CameraSettings)
    returns (camera: CameraObject?)
    requires rocket != null ==> |rocket.boundBox| == 8
    ensures rocketName == [] || rocket == null ==> camera == null
    ensures rocketName != [] && rocket != null ==>
      camera != null && fresh(camera) && camera.parent == rocket
      && var p := Place(rocket.boundBox, settings);
         camera.location == p.location && camera.rotation == p.rotation && camera.clipStart == p.clipStart
  {
    if rocketName == [] || rocket == null {
      return null;
    }
    var cam := new CameraObject();
    cam.parent := rocket;
    cam.ApplyPlacement(rocket, settings);
    camera := cam;
  }

  /** `ORA_OT_UpdateRocketCamera`: cancel, changing nothing, when the
      camera or the rocket is missing; otherwise re-parent the camera to the
      rocket and place it exactly as `AddRocketCamera` does. */
  method UpdateRocketCamera(camera: CameraObject?, rocket: Rocket?, settings: CameraSettings)
    returns (updated: bool)
    requires rocket != null ==> |rocket.boundBox| == 8
    modifies camera
    ensures updated <==> camera != null && rocket != null
    ensures !updated && camera != null ==> unchanged(camera)
    ensures updated ==>
      camera.parent == rocket
      && var p := Place(rocket.boundBox, settings);
         camera.location == p.location && camera.rotation == p.rotation && camera.clipStart == p.clipStart
  {
    if camera == null || rocket == null {
      return false;
    }
    if camera.parent != rocket {
      camera.parent := rocket;
    }
    camera.ApplyPlacement(rocket, settings);
    updated := true;
  }
}
