/** `ORA_OT_AnimateFromCSV.execute` of the alpha add-on
    (assets/ORA_alpha_00.py:92-182). Header scan and column lookup are the
    same as in the current version; the row loop differs: a row is keyed
    only when its frame is a multiple of the step (no forced first row),
    and `prev_time` moves only when the roll rate is a number. */
module AlphaAnimator {
  import opened Trajectory
  import opened Keyframes
  import Animator

  /** The loop variables `roll_angle`, `prev_time`, `max_frame`, and the
      keys inserted so far. */
  datatype AlphaState = AlphaState(rollAngle: real, prevTime: real, maxFrame: int, keys: seq<Key>)

  const Start: AlphaState := AlphaState(0.0, 0.0, 0, [])

  /** The decimation test `frame % step == 0` (Python's `%` and Dafny's
      agree for a positive step). */
  predicate OnGrid(frame: int, ctx: Context)
    requires ctx.Valid()
  {
    frame % ctx.settings.keyframeStep == 0
  }

  /** One iteration of the alpha row loop. */
  function Step(st: AlphaState, line: string, ctx: Context): AlphaState
    requires ctx.Valid()
  {
    match ctx.SampleOf(line)
    case None => st
    case Some(s) =>
      var frame := ctx.FrameOf(s);
      if !OnGrid(frame, ctx) then st
      else
        var keyed := st.keys + [ctx.LocationOf(s)];
        if ctx.cols.roll.None? then
          st.(keys := keyed, maxFrame := Max(st.maxFrame, frame))
        else
          match ctx.RollField(line)
          case None => st.(keys := keyed)
          case Some(NaN) => st.(keys := keyed, maxFrame := Max(st.maxFrame, frame))
          case Some(Num(rate)) =>
            var angle := Integrate(st.rollAngle, rate, s.t, st.prevTime);
            AlphaState(angle, s.t, Max(st.maxFrame, frame), keyed + [RollZ(frame, angle)])
  }

  function Replay(lines: seq<string>, ctx: Context): AlphaState
    requires ctx.Valid()
    decreases |lines|
  {
    if lines == [] then Start
    else Step(Replay(lines[..|lines| - 1], ctx), lines[|lines| - 1], ctx)
  }

  /** The alpha operator after the file is read; it cancels on the same
      three conditions as the current one. */
  function Convert(lines: seq<string>, settings: Settings,
                   parse: string -> Option<Float>, quantize: real -> int): (r: Outcome)
    requires settings.keyframeStep >= 1
    ensures r == Cancelled(NoHeader) <==> HeaderOf(lines).None?
    ensures r == Cancelled(NoDataLine) <==> HeaderOf(lines).Some? && FirstDataLine(lines).None?
    ensures r.Cancelled? && r.reason.MissingColumn? ==>
      HeaderOf(lines).Some? && FirstDataLine(lines).Some?
      && r.reason.name in RequiredColumns(settings.animateRotation)
      && FindIndex(HeaderOf(lines).value, r.reason.name).None?
    ensures r.Finished? <==>
      HeaderOf(lines).Some? && FirstDataLine(lines).Some?
      && ResolveColumns(HeaderOf(lines).value, settings.animateRotation).Ok?
  {
    match HeaderOf(lines)
    case None => Cancelled(NoHeader)
    case Some(header) =>
      match FirstDataLine(lines)
      case None => Cancelled(NoDataLine)
      case Some(dataStart) =>
        match ResolveColumns(header, settings.animateRotation)
        case Err(name) => Cancelled(MissingColumn(name))
        case Ok(cols) =>
          var st := Replay(lines[dataStart..], Context(cols, settings, parse, quantize));
          Finished(st.keys, st.maxFrame)
  }

  function ContextOf(lines: seq<string>, settings: Settings,
                     parse: string -> Option<Float>, quantize: real -> int): (ctx: Context)
    requires settings.keyframeStep >= 1
    requires Convert(lines, settings, parse, quantize).Finished?
    ensures ctx.Valid() && ctx.settings == settings
    ensures !settings.animateRotation ==> ctx.cols.roll.None?
    ensures var r := Replay(lines[FirstDataLine(lines).value..], ctx);
      Convert(lines, settings, parse, quantize) == Finished(r.keys, r.maxFrame)
  {
    Context(ResolveColumns(HeaderOf(lines).value, settings.animateRotation).value, settings, parse, quantize)
  }

  // ------------------------------------------------- one row, case by case

  lemma SkippedRow(st: AlphaState, line: string, ctx: Context)
    requires ctx.Valid() && ctx.SampleOf(line).None?
    ensures Step(st, line, ctx) == st
  {
  }

  lemma OffGridRow(st: AlphaState, line: string, ctx: Context, s: Sample)
    requires ctx.Valid() && ctx.SampleOf(line) == Some(s)
    requires !OnGrid(ctx.FrameOf(s), ctx)
    ensures Step(st, line, ctx) == st
  {
  }

  lemma KeyedRowWithoutRoll(st: AlphaState, line: string, ctx: Context, s: Sample)
    requires ctx.Valid() && ctx.SampleOf(line) == Some(s)
    requires OnGrid(ctx.FrameOf(s), ctx) && ctx.cols.roll.None?
    ensures Step(st, line, ctx)
         == st.(keys := st.keys + [ctx.LocationOf(s)], maxFrame := Max(st.maxFrame, ctx.FrameOf(s)))
  {
  }

  /** As in the current version, a roll field that does not convert leaves
      the location key in and `max_frame` alone. */
  lemma RollFieldFailureKeepsLocationOnly(st: AlphaState, line: string, ctx: Context, s: Sample)
    requires ctx.Valid() && ctx.SampleOf(line) == Some(s)
    requires OnGrid(ctx.FrameOf(s), ctx)
    requires ctx.cols.roll.Some? && ctx.RollField(line).None?
    ensures Step(st, line, ctx) == st.(keys := st.keys + [ctx.LocationOf(s)])
  {
  }

  /** A NaN roll rate leaves both the angle and `prev_time` where they were. */
  lemma NaNRateKeepsRollClock(st: AlphaState, line: string, ctx: Context, s: Sample)
    requires ctx.Valid() && ctx.SampleOf(line) == Some(s)
    requires OnGrid(ctx.FrameOf(s), ctx)
    requires ctx.cols.roll.Some? && ctx.RollField(line) == Some(NaN)
    ensures Step(st, line, ctx)
         == st.(keys := st.keys + [ctx.LocationOf(s)], maxFrame := Max(st.maxFrame, ctx.FrameOf(s)))
  {
  }

  /** Roll integration, as in the current version. */
  lemma KeyedRowWithRate(st: AlphaState, line: string, ctx: Context, s: Sample, rate: real)
    requires ctx.Valid() && ctx.SampleOf(line) == Some(s)
    requires OnGrid(ctx.FrameOf(s), ctx)
    requires ctx.cols.roll.Some? && ctx.RollField(line) == Some(Num(rate))
    ensures var frame := ctx.FrameOf(s);
      var angle := Integrate(st.rollAngle, rate, s.t, st.prevTime);
      Step(st, line, ctx)
        == AlphaState(angle, s.t, Max(st.maxFrame, frame), st.keys + [ctx.LocationOf(s)] + [RollZ(frame, angle)])
  {
    var frame := ctx.FrameOf(s);
    var next := Step(st, line, ctx);
    assert next.prevTime == s.t;
    assert next.maxFrame == Max(st.maxFrame, frame);
    assert next.rollAngle == Integrate(st.rollAngle, rate, s.t, st.prevTime);
    assert next.keys == st.keys + [ctx.LocationOf(s)] + [RollZ(frame, next.rollAngle)];
  }

  lemma ReplayLast(init: seq<string>, line: string, ctx: Context)
    requires ctx.Valid()
    ensures Replay(init + [line], ctx) == Step(Replay(init, ctx), line, ctx)
  {
    assert (init + [line])[..|init|] == init;
  }

  /** A row's keys: its location key then, with a rate, its rotation key;
      nothing when it is skipped or off the grid. */
  lemma KeysOfStep(st: AlphaState, line: string, ctx: Context) returns (added: seq<Key>)
    requires ctx.Valid()
    ensures Step(st, line, ctx).keys == st.keys + added
    ensures added == [] <==> ctx.SampleOf(line).None? || !OnGrid(ctx.FrameOf(ctx.SampleOf(line).value), ctx)
    ensures added != [] ==> added[0] == ctx.LocationOf(ctx.SampleOf(line).value)
    ensures forall k | 1 <= k < |added| :: added[k].RollZ? && added[k].angle == Step(st, line, ctx).rollAngle
    ensures |added| <= 2
    ensures |added| < 2 ==> Step(st, line, ctx).rollAngle == st.rollAngle
    ensures forall k | 0 <= k < |added| :: added[k].frame == ctx.FrameOf(ctx.SampleOf(line).value)
  {
    match ctx.SampleOf(line)
    case None =>
      SkippedRow(st, line, ctx);
      added := [];
    case Some(s) =>
      if !OnGrid(ctx.FrameOf(s), ctx) {
        OffGridRow(st, line, ctx, s);
        added := [];
      } else if ctx.cols.roll.None? {
        KeyedRowWithoutRoll(st, line, ctx, s);
        added := [ctx.LocationOf(s)];
      } else {
        match ctx.RollField(line)
        case None =>
          RollFieldFailureKeepsLocationOnly(st, line, ctx, s);
          added := [ctx.LocationOf(s)];
        case Some(NaN) =>
          NaNRateKeepsRollClock(st, line, ctx, s);
          added := [ctx.LocationOf(s)];
        case Some(Num(rate)) =>
          KeyedRowWithRate(st, line, ctx, s, rate);
          added := [ctx.LocationOf(s), RollZ(ctx.FrameOf(s), Step(st, line, ctx).rollAngle)];
      }
  }

  // ------------------------------------------------------------ the loop

  /** The alpha loop body: keys one data line on `obj`. */
  method KeyRow(obj: AnimatedObject, line: string, ctx: Context,
                rollAngle: real, prevTime: real, maxFrame: int)
    returns (rollAngle': real, prevTime': real, maxFrame': int)
    requires ctx.Valid()
    modifies obj
    ensures AlphaState(rollAngle', prevTime', maxFrame', obj.keys)
         == Step(AlphaState(rollAngle, prevTime, maxFrame, old(obj.keys)), line, ctx)
    ensures obj.kind == old(obj.kind)
  {
    ghost var before := AlphaState(rollAngle, prevTime, maxFrame, obj.keys);
    ghost var after := Step(before, line, ctx);
    rollAngle', prevTime', maxFrame' := rollAngle, prevTime, maxFrame;
    var row := Row(line);
    var sample := ParseRow(row, ctx.cols, ctx.parse);
    assert sample == ctx.SampleOf(line);
    if sample.None? {
      SkippedRow(before, line, ctx);
      return;
    }
    var s := sample.value;
    var frame := ctx.quantize(s.t) + ctx.settings.frameOffset;
    assert frame == ctx.FrameOf(s) && Location(frame, s.x, s.y, s.z) == ctx.LocationOf(s);
    if frame % ctx.settings.keyframeStep != 0 {
      OffGridRow(before, line, ctx, s);
      return;
    }
    obj.keys := obj.keys + [Location(frame, s.x, s.y, s.z)];
    if ctx.cols.roll.None? {
      KeyedRowWithoutRoll(before, line, ctx, s);
      maxFrame' := Max(maxFrame, frame);
      return;
    }
    var rate := Field(row, ctx.cols.roll.value, ctx.parse);
    assert rate == ctx.RollField(line);
    if rate.None? {
      RollFieldFailureKeepsLocationOnly(before, line, ctx, s);
      return;
    }
    if rate.value.NaN? {
      NaNRateKeepsRollClock(before, line, ctx, s);
      maxFrame' := Max(maxFrame, frame);
      return;
    }
    KeyedRowWithRate(before, line, ctx, s, rate.value.value);
    rollAngle' := Integrate(rollAngle, rate.value.value, s.t, prevTime);
    obj.keys := obj.keys + [RollZ(frame, rollAngle')];
    prevTime' := s.t;
    maxFrame' := Max(maxFrame, frame);
    assert obj.keys == before.keys + [ctx.LocationOf(s)] + [RollZ(ctx.FrameOf(s), rollAngle')];
    assert after == AlphaState(rollAngle', prevTime', maxFrame', obj.keys);
  }

  method KeyRows(obj: AnimatedObject, lines: seq<string>, dataStart: nat, ctx: Context)
    returns (maxFrame: int)
    requires ctx.Valid()
    requires dataStart <= |lines|
    requires obj.keys == []
    modifies obj
    ensures var r := Replay(lines[dataStart..], ctx);
      obj.keys == r.keys && maxFrame == r.maxFrame && obj.kind == old(obj.kind)
  {
    var rollAngle, prevTime := 0.0, 0.0;
    maxFrame := 0;
    var i := dataStart;
    while i < |lines|
      invariant dataStart <= i <= |lines|
      invariant obj.kind == old(obj.kind)
      invariant AlphaState(rollAngle, prevTime, maxFrame, obj.keys) == Replay(lines[dataStart..i], ctx)
    {
      assert lines[dataStart..i + 1] == lines[dataStart..i] + [lines[i]];
      ReplayLast(lines[dataStart..i], lines[i], ctx);
      rollAngle, prevTime, maxFrame := KeyRow(obj, lines[i], ctx, rollAngle, prevTime, maxFrame);
      i := i + 1;
    }
    assert lines[dataStart..i] == lines[dataStart..];
  }

  /** The alpha operator on the active object and the scene. */
  method AnimateFromCsv(obj: AnimatedObject?, scene: Scene, lines: seq<string>, settings: Settings,
                        parse: string -> Option<Float>, quantize: real -> int)
    returns (finished: bool)
    requires settings.keyframeStep >= 1
    modifies obj, scene
    ensures obj == null ==> !finished && unchanged(scene)
    ensures obj != null && obj.kind !in {Mesh, Empty} ==> !finished && unchanged(obj, scene)
    ensures obj != null && obj.kind in {Mesh, Empty} ==>
      var r := Convert(lines, settings, parse, quantize);
      finished == r.Finished?
      && (r.Cancelled? ==> unchanged(obj, scene))
      && (r.Finished? ==>
            obj.keys == r.keys && obj.kind == old(obj.kind)
            && scene.frameStart == 0 && scene.frameEnd == r.frameEnd)
  {
    if obj == null || obj.kind !in {Mesh, Empty} {
      return false;
    }
    var header, dataStart := ScanHeader(lines);
    if header.None? || dataStart.None? {
      return false;
    }
    var columns := ResolveColumns(header.value, settings.animateRotation);
    if columns.Err? {
      return false;
    }
    obj.keys := [];
    scene.frameStart := 0;
    var maxFrame := KeyRows(obj, lines, dataStart.value, Context(columns.value, settings, parse, quantize));
    scene.frameEnd := maxFrame;
    finished := true;
  }

  // ------------------------------------------------------------ properties

  /** The alpha emission rule: an accepted row is keyed exactly when its
      frame is a multiple of the step, whatever came before. */
  lemma EmissionRule(st: AlphaState, line: string, ctx: Context, s: Sample)
    requires ctx.Valid() && ctx.SampleOf(line) == Some(s)
    ensures var next := Step(st, line, ctx);
      (|next.keys| > |st.keys| <==> ctx.FrameOf(s) % ctx.settings.keyframeStep == 0)
      && (|next.keys| > |st.keys| ==> next.keys[..|st.keys| + 1] == st.keys + [ctx.LocationOf(s)])
      && (|next.keys| <= |st.keys| ==> next == st)
  {
    var added := KeysOfStep(st, line, ctx);
    if added != [] {
      assert (st.keys + added)[..|st.keys| + 1] == st.keys + [added[0]];
    } else {
      OffGridRow(st, line, ctx, s);
    }
  }

  lemma {:induction false} SkippedRowIsInvisible(before: seq<string>, line: string, after: seq<string>, ctx: Context)
    requires ctx.Valid() && ctx.SampleOf(line).None?
    ensures Replay(before + [line] + after, ctx) == Replay(before + after, ctx)
    decreases |after|
  {
    if after == [] {
      assert before + [line] + after == before + [line];
      assert before + after == before;
      ReplayLast(before, line, ctx);
      SkippedRow(Replay(before, ctx), line, ctx);
    } else {
      var init := after[..|after| - 1];
      var last := after[|after| - 1];
      assert before + [line] + after == (before + [line] + init) + [last];
      assert before + after == (before + init) + [last];
      ReplayLast(before + [line] + init, last, ctx);
      ReplayLast(before + init, last, ctx);
      SkippedRowIsInvisible(before, line, init, ctx);
    }
  }

  /** Every key the alpha loop inserts, and `max_frame`, lie on the step
      grid, and `max_frame` is never negative. */
  lemma {:induction false} KeysOnGrid(lines: seq<string>, ctx: Context)
    requires ctx.Valid()
    ensures var r := Replay(lines, ctx);
      r.maxFrame >= 0 && OnGrid(r.maxFrame, ctx)
      && forall k | 0 <= k < |r.keys| :: OnGrid(r.keys[k].frame, ctx)
    decreases |lines|
  {
    if lines != [] {
      var init := lines[..|lines| - 1];
      var line := lines[|lines| - 1];
      KeysOnGrid(init, ctx);
      var st := Replay(init, ctx);
      assert lines == init + [line];
      ReplayLast(init, line, ctx);
      var added := KeysOfStep(st, line, ctx);
      var r := Replay(lines, ctx);
      forall k | 0 <= k < |r.keys|
        ensures OnGrid(r.keys[k].frame, ctx)
      {
        if k >= |st.keys| {
          assert r.keys[k] == added[k - |st.keys|];
        }
      }
    }
  }

  /** Alpha timeline bounds: every rotation key (and, without a roll
      column, every key) lies at or before `max_frame`, and unless it is
      still 0 some key lies exactly on it. */
  lemma {:induction false} TimelineBounds(lines: seq<string>, ctx: Context)
    requires ctx.Valid()
    ensures var r := Replay(lines, ctx);
      r.maxFrame >= 0
      && (forall k | 0 <= k < |r.keys| :: r.keys[k].RollZ? ==> r.keys[k].frame <= r.maxFrame)
      && (ctx.cols.roll.None? ==> forall k | 0 <= k < |r.keys| :: r.keys[k].frame <= r.maxFrame)
      && (r.maxFrame == 0 || exists k | 0 <= k < |r.keys| :: r.keys[k].frame == r.maxFrame)
    decreases |lines|
  {
    if lines != [] {
      var init := lines[..|lines| - 1];
      TimelineBounds(init, ctx);
      var st := Replay(init, ctx);
      var r := Replay(lines, ctx);
      assert r.keys[..|st.keys|] == st.keys;
      if r.maxFrame != 0 && r.maxFrame == st.maxFrame {
        var k :| 0 <= k < |st.keys| && st.keys[k].frame == st.maxFrame;
        assert r.keys[k] == st.keys[k];
      } else if r.maxFrame != st.maxFrame {
        assert r.keys[|st.keys|].frame == r.maxFrame;
      }
    }
  }

  /** Whether an alpha row's iteration runs to its end and counts in
      `max_frame`: its time and position convert, its frame is on the
      grid, and there is no roll column or its roll field converts. */
  predicate Completes(line: string, ctx: Context)
    requires ctx.Valid()
  {
    ctx.SampleOf(line).Some?
    && OnGrid(ctx.FrameOf(ctx.SampleOf(line).value), ctx)
    && (ctx.cols.roll.None? || ctx.RollField(line).Some?)
  }

  /** The frames of the rows whose iteration ran to its end, in file order. */
  function CompletedFrames(lines: seq<string>, ctx: Context): seq<int>
    requires ctx.Valid()
    decreases |lines|
  {
    if lines == [] then []
    else
      var before := CompletedFrames(lines[..|lines| - 1], ctx);
      var line := lines[|lines| - 1];
      if Completes(line, ctx) then before + [ctx.FrameOf(ctx.SampleOf(line).value)] else before
  }

  /** One row's effect on `max_frame`. */
  lemma CompletionStep(st: AlphaState, line: string, ctx: Context)
    requires ctx.Valid()
    ensures Step(st, line, ctx).maxFrame
         == if Completes(line, ctx) then Max(st.maxFrame, ctx.FrameOf(ctx.SampleOf(line).value)) else st.maxFrame
  {
  }

  /** The alpha `max_frame` is the largest frame of the rows whose iteration
      ran to its end, or 0 when that is larger or there is none. */
  lemma {:induction false} MaxFrameOfCompletedRows(lines: seq<string>, ctx: Context)
    requires ctx.Valid()
    ensures var r := Replay(lines, ctx);
      var done := CompletedFrames(lines, ctx);
      r.maxFrame >= 0
      && (forall k | 0 <= k < |done| :: done[k] <= r.maxFrame)
      && (r.maxFrame == 0 || exists k | 0 <= k < |done| :: done[k] == r.maxFrame)
    decreases |lines|
  {
    if lines != [] {
      var init := lines[..|lines| - 1];
      var line := lines[|lines| - 1];
      MaxFrameOfCompletedRows(init, ctx);
      assert forall k | 0 <= k < |CompletedFrames(init, ctx)| :: CompletedFrames(init, ctx)[k] <= Replay(init, ctx).maxFrame;
      var st := Replay(init, ctx);
      CompletionStep(st, line, ctx);
      var before := CompletedFrames(init, ctx);
      var done := CompletedFrames(lines, ctx);
      var r := Replay(lines, ctx);
      assert r.maxFrame == Step(st, line, ctx).maxFrame;
      if Completes(line, ctx) {
        var frame := ctx.FrameOf(ctx.SampleOf(line).value);
        assert done == before + [frame];
        forall k | 0 <= k < |done| ensures done[k] <= r.maxFrame {
          if k < |before| {
            assert done[k] == before[k];
          }
        }
        if r.maxFrame != 0 {
          if r.maxFrame == frame {
            assert done[|before|] == r.maxFrame;
          } else {
            var k :| 0 <= k < |before| && before[k] == st.maxFrame;
            assert done[k] == r.maxFrame;
          }
        }
      } else {
        assert done == before;
      }
    }
  }

  /** With a step of 1 the alpha loop keys every accepted row too. */
  lemma {:induction false} StepOneKeysEveryRow(lines: seq<string>, ctx: Context)
    requires ctx.Valid() && ctx.settings.keyframeStep == 1
    ensures LocationKeys(Replay(lines, ctx).keys) == ValidTrack(lines, ctx)
    decreases |lines|
  {
    if lines != [] {
      var init := lines[..|lines| - 1];
      var line := lines[|lines| - 1];
      StepOneKeysEveryRow(init, ctx);
      var st := Replay(init, ctx);
      var added := KeysOfStep(st, line, ctx);
      LocationKeysAppend(st.keys, added);
      if added != [] {
        var loc := added[0];
        assert [loc][..0] == [];
        if |added| == 2 {
          assert added[..1] == [loc];
        }
        assert LocationKeys(added) == [loc];
      }
    }
  }

  lemma {:induction false} NoRotationWithoutRollColumn(lines: seq<string>, ctx: Context)
    requires ctx.Valid() && ctx.cols.roll.None?
    ensures var keys := Replay(lines, ctx).keys;
      forall k | 0 <= k < |keys| :: keys[k].Location?
    decreases |lines|
  {
    if lines != [] {
      var init := lines[..|lines| - 1];
      var line := lines[|lines| - 1];
      NoRotationWithoutRollColumn(init, ctx);
      var st := Replay(init, ctx);
      assert lines == init + [line];
      ReplayLast(init, line, ctx);
      match ctx.SampleOf(line)
      case None => SkippedRow(st, line, ctx);
      case Some(s) =>
        if OnGrid(ctx.FrameOf(s), ctx) {
          KeyedRowWithoutRoll(st, line, ctx, s);
        } else {
          OffGridRow(st, line, ctx, s);
        }
    }
  }

  lemma RotationOffKeysLocationOnly(lines: seq<string>, settings: Settings,
                                    parse: string -> Option<Float>, quantize: real -> int)
    requires settings.keyframeStep >= 1 && !settings.animateRotation
    ensures var r := Convert(lines, settings, parse, quantize);
      r.Finished? ==> forall k | 0 <= k < |r.keys| :: r.keys[k].Location?
  {
    var r := Convert(lines, settings, parse, quantize);
    if r.Finished? {
      var ctx := ContextOf(lines, settings, parse, quantize);
      var rows := lines[FirstDataLine(lines).value..];
      NoRotationWithoutRollColumn(rows, ctx);
      assert r.keys == Replay(rows, ctx).keys;
    }
  }

  /** A finished alpha run ends the timeline on the step grid, at 0 or later. */
  lemma FinishedTimelineOnGrid(lines: seq<string>, settings: Settings,
                               parse: string -> Option<Float>, quantize: real -> int)
    requires settings.keyframeStep >= 1
    ensures var r := Convert(lines, settings, parse, quantize);
      r.Finished? ==> r.frameEnd >= 0 && r.frameEnd % settings.keyframeStep == 0
  {
    var r := Convert(lines, settings, parse, quantize);
    if r.Finished? {
      var ctx := ContextOf(lines, settings, parse, quantize);
      var rows := lines[FirstDataLine(lines).value..];
      KeysOnGrid(rows, ctx);
      assert r.frameEnd == Replay(rows, ctx).maxFrame;
    }
  }

  lemma {:induction false} RollAngleIsLastKeyed(lines: seq<string>, ctx: Context)
    requires ctx.Valid()
    ensures var r := Replay(lines, ctx);
      r.rollAngle == LastRollAngle(r.keys)
    decreases |lines|
  {
    if lines != [] {
      var init := lines[..|lines| - 1];
      var line := lines[|lines| - 1];
      RollAngleIsLastKeyed(init, ctx);
      var st := Replay(init, ctx);
      var added := KeysOfStep(st, line, ctx);
      var r := Replay(lines, ctx);
      assert r.keys == st.keys + added;
      if |added| == 1 {
        assert r.keys[..|r.keys| - 1] == st.keys;
        assert LastRollAngle(r.keys) == LastRollAngle(st.keys);
      } else if |added| == 2 {
        assert r.keys[|r.keys| - 1] == added[1];
      }
    }
  }

  // ------------------------------------------------ the two versions side by side

  /** At a step of 1 both versions key the same location channel. */
  lemma LocationChannelsAgreeAtStepOne(lines: seq<string>, ctx: Context)
    requires ctx.Valid() && ctx.settings.keyframeStep == 1
    ensures LocationKeys(Replay(lines, ctx).keys) == LocationKeys(Animator.Replay(lines, ctx).keys)
  {
    StepOneKeysEveryRow(lines, ctx);
    Animator.StepOneKeysEveryRow(lines, ctx);
  }

  /** Without a roll column and at a step of 1 the two versions produce the
      same keys and the same `max_frame`. */
  lemma {:induction false} AgreeWithoutRollAtStepOne(lines: seq<string>, ctx: Context)
    requires ctx.Valid() && ctx.settings.keyframeStep == 1 && ctx.cols.roll.None?
    ensures Replay(lines, ctx).keys == Animator.Replay(lines, ctx).keys
    ensures Replay(lines, ctx).maxFrame == Animator.Replay(lines, ctx).maxFrame
    decreases |lines|
  {
    if lines != [] {
      var init := lines[..|lines| - 1];
      var line := lines[|lines| - 1];
      AgreeWithoutRollAtStepOne(init, ctx);
      var st := Replay(init, ctx);
      var cur := Animator.Replay(init, ctx);
      match ctx.SampleOf(line)
      case None =>
        SkippedRow(st, line, ctx);
        Animator.SkippedRow(cur, line, ctx);
      case Some(s) =>
        KeyedRowWithoutRoll(st, line, ctx, s);
        Animator.KeyedRowWithoutRoll(cur, line, ctx, s);
    }
  }

  /** The current version forces the first accepted row; the alpha one does
      not: a lone row at frame 3 with a step of 5 is keyed only by the former. */
  lemma FirstRowForcedOnlyInCurrent(line: string, ctx: Context, s: Sample)
    requires ctx.Valid() && ctx.settings.keyframeStep == 5 && ctx.cols.roll.None?
    requires ctx.SampleOf(line) == Some(s) && ctx.FrameOf(s) == 3
    ensures Animator.Replay([line], ctx).keys == [ctx.LocationOf(s)]
    ensures Replay([line], ctx).keys == []
  {
    ReplayLast([], line, ctx);
    Animator.ReplayLast([], line, ctx);
    OffGridRow(Start, line, ctx, s);
    Animator.KeyedRowWithoutRoll(Animator.Start, line, ctx, s);
  }

  /** The versions part ways on a NaN roll rate: after a NaN-rate row at
      t = 1 and a row at t = 2 with rate `rate`, the current version has
      integrated over one second and the alpha one over two. */
  lemma NaNRateDivergence(first: string, second: string, ctx: Context, a: Sample, b: Sample, rate: real)
    requires ctx.Valid() && ctx.settings.keyframeStep == 1 && ctx.cols.roll.Some?
    requires ctx.SampleOf(first) == Some(a) && a.t == 1.0 && ctx.RollField(first) == Some(NaN)
    requires ctx.SampleOf(second) == Some(b) && b.t == 2.0 && ctx.RollField(second) == Some(Num(rate))
    ensures Animator.Replay([first, second], ctx).rollAngle == Radians(rate * 1.0)
    ensures Replay([first, second], ctx).rollAngle == Radians(rate * 2.0)
  {
    ReplayLast([], first, ctx);
    ReplayLast([first], second, ctx);
    Animator.ReplayLast([], first, ctx);
    Animator.ReplayLast([first], second, ctx);
    assert [first] + [second] == [first, second];
    NaNRateKeepsRollClock(Start, first, ctx, a);
    Animator.KeyedRowWithNaNRate(Animator.Start, first, ctx, a);
    var one := Replay([first], ctx);
    var cur := Animator.Replay([first], ctx);
    assert one.rollAngle == 0.0 && one.prevTime == 0.0;
    assert cur.rollAngle == 0.0 && cur.prevTime == 1.0;
    KeyedRowWithRate(one, second, ctx, b, rate);
    Animator.KeyedRowWithRate(cur, second, ctx, b, rate);
  }
}
