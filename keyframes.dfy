/** Definitions the two versions of the row loop share: the frame a sample
    lands on, the degree-to-radian factor, the operator's outcome, and two
    views of the keyframe log used to state what the loops produce. */
module Keyframes {
  import opened Trajectory

  /** `math.radians` factor: the double nearest to pi / 180. */
  const RadiansPerDegree: real := 0.017453292519943295

  function Radians(degrees: real): real {
    degrees * RadiansPerDegree
  }

  /** One forward-Euler step of the roll integration:
      `roll_angle + radians(roll_rate * (t - prev_time))`. */
  function Integrate(angle: real, rate: real, t: real, prevTime: real): real {
    angle + Radians(rate * (t - prevTime))
  }

  function Max(a: int, b: int): int {
    if a >= b then a else b
  }

  /** What the row loop works with once the columns are known: the column
      positions, the add-on's settings, `float()` as `parse`, and
      `round(t * fps)` as `quantize` (Python rounds half to even). */
  datatype Context = Context(cols: Columns, settings: Settings,
                             parse: string -> Option<Float>, quantize: real -> int)
  {
    /** `keyframe_step` is at least 1 (the property's minimum). */
    predicate Valid() {
      settings.keyframeStep >= 1
    }

    /** The row's time and position, if they all convert. */
    function SampleOf(line: string): Option<Sample> {
      ParseRow(Row(line), cols, parse)
    }

    /** `round(t * scene.render.fps) + offset` */
    function FrameOf(s: Sample): int {
      quantize(s.t) + settings.frameOffset
    }

    /** `float(row[roll_idx])`, when there is a roll column. */
    function RollField(line: string): Option<Float>
      requires cols.roll.Some?
    {
      Field(Row(line), cols.roll.value, parse)
    }

    /** The location key an accepted row gets. */
    function LocationOf(s: Sample): Key {
      Location(FrameOf(s), s.x, s.y, s.z)
    }
  }

  /** What `execute` returns, with what it leaves behind on success: the
      keyframes on the object and `scene.frame_end`. */
  datatype Outcome =
    | Cancelled(reason: Failure)
    | Finished(keys: seq<Key>, frameEnd: int)

  /** The location channel of a keyframe log, in order. */
  function LocationKeys(keys: seq<Key>): seq<Key>
    decreases |keys|
  {
    if keys == [] then []
    else
      var last := keys[|keys| - 1];
      LocationKeys(keys[..|keys| - 1]) + (if last.Location? then [last] else [])
  }

  /** The location key every accepted data line would get, in order: one per
      line whose time and position convert, at its frame. */
  function ValidTrack(lines: seq<string>, ctx: Context): seq<Key>
    decreases |lines|
  {
    if lines == [] then []
    else
      var rest := ValidTrack(lines[..|lines| - 1], ctx);
      match ctx.SampleOf(lines[|lines| - 1])
      case None => rest
      case Some(s) => rest + [ctx.LocationOf(s)]
  }

  /** The angle of the last Z-rotation key, 0 before any. */
  function LastRollAngle(keys: seq<Key>): real
    decreases |keys|
  {
    if keys == [] then 0.0
    else if keys[|keys| - 1].RollZ? then keys[|keys| - 1].angle
    else LastRollAngle(keys[..|keys| - 1])
  }

  /** Appending keys extends the location channel by the location keys appended. */
  lemma {:induction false} LocationKeysAppend(keys: seq<Key>, more: seq<Key>)
    ensures LocationKeys(keys + more) == LocationKeys(keys) + LocationKeys(more)
    decreases |more|
  {
    if more == [] {
      assert keys + more == keys;
    } else {
      var init := more[..|more| - 1];
      var last := more[|more| - 1];
      assert (keys + more)[..|keys + more| - 1] == keys + init;
      assert (keys + more)[|keys + more| - 1] == last;
      LocationKeysAppend(keys, init);
      assert LocationKeys(more) == LocationKeys(init) + (if last.Location? then [last] else []);
    }
  }
}
