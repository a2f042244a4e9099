/** `ORA_OT_AnimateFromCSV.execute` of the current add-on
    (assets/ORA2.1.py:146-238): after the header and columns are resolved,
    a loop over the data lines that keys the object's location on the
    first accepted row and then on every row whose frame is a multiple of
    the keyframe step, integrating the roll rate into a Z rotation. */
module Animator {
  import opened Trajectory
  import opened Keyframes

  /** The loop variables `roll_angle`, `prev_time`, `max_frame`,
      `first_frame_written`, and the keys inserted so far. */
  datatype State = State(rollAngle: real, prevTime: real, maxFrame: int, firstWritten: bool, keys: seq<Key>)

  /** The values before the first row, right after `animation_data_clear`. */
  const Start: State := State(0.0, 0.0, 0, false, [])

  /** The decimation test `not first_frame_written or frame % step == 0`. */
  predicate Emits(st: State, frame: int, ctx: Context)
    requires ctx.Valid()
  {
    !st.firstWritten || frame % ctx.settings.keyframeStep == 0
  }

  /** One iteration of the row loop. A row that fails to convert is skipped;
      an accepted row is keyed when `Emits` holds. A roll field that fails
      to convert aborts the iteration after the location key is in. */
  function Step(st: State, line: string, ctx: Context): State
    requires ctx.Valid()
  {
    match ctx.SampleOf(line)
    case None => st
    case Some(s) =>
      var frame := ctx.FrameOf(s);
      if !Emits(st, frame, ctx) then st
      else
        var keyed := st.keys + [ctx.LocationOf(s)];
        if ctx.cols.roll.None? then
          st.(keys := keyed, maxFrame := Max(st.maxFrame, frame), firstWritten := true)
        else
          match ctx.RollField(line)
          case None => st.(keys := keyed)
          case Some(NaN) =>
            st.(keys := keyed, prevTime := s.t, maxFrame := Max(st.maxFrame, frame), firstWritten := true)
          case Some(Num(rate)) =>
            var angle := Integrate(st.rollAngle, rate, s.t, st.prevTime);
            State(angle, s.t, Max(st.maxFrame, frame), true, keyed + [RollZ(frame, angle)])
  }

  /** The state after the loop has run over `lines`. */
  function Replay(lines: seq<string>, ctx: Context): State
    requires ctx.Valid()
    decreases |lines|
  {
    if lines == [] then Start
    else Step(Replay(lines[..|lines| - 1], ctx), lines[|lines| - 1], ctx)
  }

  /** The whole operator after the file is read: cancel without a header,
      without a data line or without a required column; otherwise key the
      rows and end the timeline at `max_frame`. */
  function Convert(lines: seq<string>, settings: Settings,
                   parse: string -> Option<Float>, quantize: real -> int): (r: Outcome)
    requires settings.keyframeStep >= 1
    ensures r == Cancelled(NoHeader) <==> HeaderOf(lines).None?
    ensures r == Cancelled(NoDataLine) <==> HeaderOf(lines).Some? && FirstDataLine(lines).None?
    ensures r.Cancelled? && r.reason.MissingColumn? ==>
      HeaderOf(lines).Some? && FirstDataLine(lines).Some?
      && r.reason.name in RequiredColumns(settings.animateRotation)
      && FindIndex(HeaderOf(lines).value, r.reason.name).None?
    ensures r.Finished? <==>
      HeaderOf(lines).Some? && FirstDataLine(lines).Some?
      && ResolveColumns(HeaderOf(lines).value, settings.animateRotation).Ok?
  {
    match HeaderOf(lines)
    case None => Cancelled(NoHeader)
    case Some(header) =>
      match FirstDataLine(lines)
      case None => Cancelled(NoDataLine)
      case Some(dataStart) =>
        match ResolveColumns(header, settings.animateRotation)
        case Err(name) => Cancelled(MissingColumn(name))
        case Ok(cols) =>
          var st := Replay(lines[dataStart..], Context(cols, settings, parse, quantize));
          Finished(st.keys, st.maxFrame)
  }

  /** The context `Convert` runs its loop in, once it gets that far. */
  function ContextOf(lines: seq<string>, settings: Settings,
                     parse: string -> Option<Float>, quantize: real -> int): (ctx: Context)
    requires settings.keyframeStep >= 1
    requires Convert(lines, settings, parse, quantize).Finished?
    ensures ctx.Valid() && ctx.settings == settings
    ensures !settings.animateRotation ==> ctx.cols.roll.None?
    ensures var r := Replay(lines[FirstDataLine(lines).value..], ctx);
      Convert(lines, settings, parse, quantize) == Finished(r.keys, r.maxFrame)
  {
    Context(ResolveColumns(HeaderOf(lines).value, settings.animateRotation).value, settings, parse, quantize)
  }

  // ------------------------------------------------- one row, case by case

  /** A row whose time or position does not convert is skipped. */
  lemma SkippedRow(st: State, line: string, ctx: Context)
    requires ctx.Valid() && ctx.SampleOf(line).None?
    ensures Step(st, line, ctx) == st
  {
  }

  /** An accepted row that fails the decimation test is not keyed. */
  lemma SuppressedRow(st: State, line: string, ctx: Context, s: Sample)
    requires ctx.Valid() && ctx.SampleOf(line) == Some(s)
    requires !Emits(st, ctx.FrameOf(s), ctx)
    ensures Step(st, line, ctx) == st
  {
  }

  /** A keyed row without a roll column: a location key, and the row counts. */
  lemma KeyedRowWithoutRoll(st: State, line: string, ctx: Context, s: Sample)
    requires ctx.Valid() && ctx.SampleOf(line) == Some(s)
    requires Emits(st, ctx.FrameOf(s), ctx) && ctx.cols.roll.None?
    ensures Step(st, line, ctx)
         == st.(keys := st.keys + [ctx.LocationOf(s)], maxFrame := Max(st.maxFrame, ctx.FrameOf(s)),
                firstWritten := true)
  {
  }

  /** A roll field that does not convert leaves the location key in but
      counts the row neither as written nor in `max_frame`, and leaves the
      roll integration alone. */
  lemma RollFieldFailureKeepsLocationOnly(st: State, line: string, ctx: Context, s: Sample)
    requires ctx.Valid() && ctx.SampleOf(line) == Some(s)
    requires Emits(st, ctx.FrameOf(s), ctx)
    requires ctx.cols.roll.Some? && ctx.RollField(line).None?
    ensures Step(st, line, ctx) == st.(keys := st.keys + [ctx.LocationOf(s)])
  {
  }

  /** A NaN roll rate integrates nothing but still moves `prev_time` to the
      row's time. */
  lemma KeyedRowWithNaNRate(st: State, line: string, ctx: Context, s: Sample)
    requires ctx.Valid() && ctx.SampleOf(line) == Some(s)
    requires Emits(st, ctx.FrameOf(s), ctx)
    requires ctx.cols.roll.Some? && ctx.RollField(line) == Some(NaN)
    ensures Step(st, line, ctx)
         == st.(keys := st.keys + [ctx.LocationOf(s)], prevTime := s.t,
                maxFrame := Max(st.maxFrame, ctx.FrameOf(s)), firstWritten := true)
  {
  }

  /** Roll integration: the angle grows by `radians(rate * (t - prev_time))`
      and is keyed on the Z rotation at the row's frame, after the location. */
  lemma KeyedRowWithRate(st: State, line: string, ctx: Context, s: Sample, rate: real)
    requires ctx.Valid() && ctx.SampleOf(line) == Some(s)
    requires Emits(st, ctx.FrameOf(s), ctx)
    requires ctx.cols.roll.Some? && ctx.RollField(line) == Some(Num(rate))
    ensures var frame := ctx.FrameOf(s);
      var angle := Integrate(st.rollAngle, rate, s.t, st.prevTime);
      Step(st, line, ctx)
        == State(angle, s.t, Max(st.maxFrame, frame), true,
                 st.keys + [ctx.LocationOf(s)] + [RollZ(frame, angle)])
  {
    var frame := ctx.FrameOf(s);
    var next := Step(st, line, ctx);
    assert next.prevTime == s.t;
    assert next.maxFrame == Max(st.maxFrame, frame);
    assert next.firstWritten;
    assert next.rollAngle == Integrate(st.rollAngle, rate, s.t, st.prevTime);
    assert next.keys == st.keys + [ctx.LocationOf(s)] + [RollZ(frame, next.rollAngle)];
  }

  /** The last line of a replay is one more step. */
  lemma ReplayLast(init: seq<string>, line: string, ctx: Context)
    requires ctx.Valid()
    ensures Replay(init + [line], ctx) == Step(Replay(init, ctx), line, ctx)
  {
    assert (init + [line])[..|init|] == init;
  }

  /** On the location channel a row adds its location key when it converts
      and is keyed, and nothing otherwise. */
  lemma LocationChannelStep(st: State, line: string, ctx: Context)
    requires ctx.Valid()
    ensures var next := Step(st, line, ctx);
      LocationKeys(next.keys)
        == LocationKeys(st.keys)
           + (if ctx.SampleOf(line).Some? && Emits(st, ctx.FrameOf(ctx.SampleOf(line).value), ctx)
              then [ctx.LocationOf(ctx.SampleOf(line).value)] else [])
  {
    var next := Step(st, line, ctx);
    match ctx.SampleOf(line)
    case None =>
      SkippedRow(st, line, ctx);
    case Some(s) =>
      if !Emits(st, ctx.FrameOf(s), ctx) {
        SuppressedRow(st, line, ctx, s);
      } else {
        var loc := ctx.LocationOf(s);
        var added: seq<Key>;
        if ctx.cols.roll.None? {
          KeyedRowWithoutRoll(st, line, ctx, s);
          added := [loc];
        } else {
          match ctx.RollField(line)
          case None =>
            RollFieldFailureKeepsLocationOnly(st, line, ctx, s);
            added := [loc];
          case Some(NaN) =>
            KeyedRowWithNaNRate(st, line, ctx, s);
            added := [loc];
          case Some(Num(rate)) =>
            KeyedRowWithRate(st, line, ctx, s, rate);
            added := [loc, RollZ(ctx.FrameOf(s), next.rollAngle)];
            assert added[..1] == [loc];
        }
        assert next.keys == st.keys + added;
        LocationKeysAppend(st.keys, added);
        assert [loc][..0] == [];
      }
  }

  // ------------------------------------------------------------ the loop

  /** The body of `for row in reader`: keys one data line on `obj` and
      returns the new loop variables. */
  method KeyRow(obj: AnimatedObject, line: string, ctx: Context,
                rollAngle: real, prevTime: real, maxFrame: int, firstWritten: bool)
    returns (rollAngle': real, prevTime': real, maxFrame': int, firstWritten': bool)
    requires ctx.Valid()
    modifies obj
    ensures State(rollAngle', prevTime', maxFrame', firstWritten', obj.keys)
         == Step(State(rollAngle, prevTime, maxFrame, firstWritten, old(obj.keys)), line, ctx)
    ensures obj.kind == old(obj.kind)
  {
    ghost var before := State(rollAngle, prevTime, maxFrame, firstWritten, obj.keys);
    ghost var after := Step(before, line, ctx);
    rollAngle', prevTime', maxFrame', firstWritten' := rollAngle, prevTime, maxFrame, firstWritten;
    var row := Row(line);
    var sample := ParseRow(row, ctx.cols, ctx.parse);
    assert sample == ctx.SampleOf(line);
    if sample.None? {
      SkippedRow(before, line, ctx);
      return;
    }
    var s := sample.value;
    var frame := ctx.quantize(s.t) + ctx.settings.frameOffset;
    assert frame == ctx.FrameOf(s) && Location(frame, s.x, s.y, s.z) == ctx.LocationOf(s);
    if !(!firstWritten || frame % ctx.settings.keyframeStep == 0) {
      SuppressedRow(before, line, ctx, s);
      return;
    }
    obj.keys := obj.keys + [Location(frame, s.x, s.y, s.z)];
    if ctx.cols.roll.None? {
      KeyedRowWithoutRoll(before, line, ctx, s);
      maxFrame', firstWritten' := Max(maxFrame, frame), true;
      return;
    }
    var rate := Field(row, ctx.cols.roll.value, ctx.parse);
    assert rate == ctx.RollField(line);
    if rate.None? {
      // `float` raised: the location key stays and the row is abandoned
      RollFieldFailureKeepsLocationOnly(before, line, ctx, s);
      return;
    }
    if rate.value.NaN? {
      KeyedRowWithNaNRate(before, line, ctx, s);
      prevTime', maxFrame', firstWritten' := s.t, Max(maxFrame, frame), true;
      return;
    }
    KeyedRowWithRate(before, line, ctx, s, rate.value.value);
    rollAngle' := Integrate(rollAngle, rate.value.value, s.t, prevTime);
    obj.keys := obj.keys + [RollZ(frame, rollAngle')];
    prevTime', maxFrame', firstWritten' := s.t, Max(maxFrame, frame), true;
    assert obj.keys == before.keys + [ctx.LocationOf(s)] + [RollZ(ctx.FrameOf(s), rollAngle')];
    assert after == State(rollAngle', prevTime', maxFrame', firstWritten', obj.keys);
  }

  /** The `for row in reader` loop: keys the data lines from `dataStart` on
      into the object's (cleared) animation and returns `max_frame`. */
  method KeyRows(obj: AnimatedObject, lines: seq<string>, dataStart: nat, ctx: Context)
    returns (maxFrame: int)
    requires ctx.Valid()
    requires dataStart <= |lines|
    requires obj.keys == []
    modifies obj
    ensures var r := Replay(lines[dataStart..], ctx);
      obj.keys == r.keys && maxFrame == r.maxFrame && obj.kind == old(obj.kind)
  {
    var rollAngle, prevTime, firstWritten := 0.0, 0.0, false;
    maxFrame := 0;
    var i := dataStart;
    while i < |lines|
      invariant dataStart <= i <= |lines|
      invariant obj.kind == old(obj.kind)
      invariant State(rollAngle, prevTime, maxFrame, firstWritten, obj.keys) == Replay(lines[dataStart..i], ctx)
    {
      assert lines[dataStart..i + 1] == lines[dataStart..i] + [lines[i]];
      ReplayLast(lines[dataStart..i], lines[i], ctx);
      rollAngle, prevTime, maxFrame, firstWritten :=
        KeyRow(obj, lines[i], ctx, rollAngle, prevTime, maxFrame, firstWritten);
      i := i + 1;
    }
    assert lines[dataStart..i] == lines[dataStart..];
  }

  /** The operator on the active object and the scene, as the source runs
      it: check the object's type, scan for the header, look up the columns,
      clear the animation, then key the rows one by one. */
  method AnimateFromCsv(obj: AnimatedObject?, scene: Scene, lines: seq<string>, settings: Settings,
                        parse: string -> Option<Float>, quantize: real -> int)
    returns (finished: bool)
    requires settings.keyframeStep >= 1
    modifies obj, scene
    ensures obj == null ==> !finished && unchanged(scene)
    ensures obj != null && obj.kind !in {Mesh, Empty} ==> !finished && unchanged(obj, scene)
    ensures obj != null && obj.kind in {Mesh, Empty} ==>
      var r := Convert(lines, settings, parse, quantize);
      finished == r.Finished?
      && (r.Cancelled? ==> unchanged(obj, scene))
      && (r.Finished? ==>
            obj.keys == r.keys && obj.kind == old(obj.kind)
            && scene.frameStart == 0 && scene.frameEnd == r.frameEnd)
  {
    if obj == null || obj.kind !in {Mesh, Empty} {
      return false;
    }
    var header, dataStart := ScanHeader(lines);
    if header.None? || dataStart.None? {
      return false;
    }
    var columns := ResolveColumns(header.value, settings.animateRotation);
    if columns.Err? {
      return false;
    }
    obj.keys := [];
    scene.frameStart := 0;
    var maxFrame := KeyRows(obj, lines, dataStart.value, Context(columns.value, settings, parse, quantize));
    scene.frameEnd := maxFrame;
    finished := true;
  }

  // ------------------------------------------------------------ properties

  /** The emission rule: an accepted row is keyed exactly when no row has
      been fully keyed yet or its frame is a multiple of the step; a keyed
      row starts with its location key, an unkeyed one changes nothing. */
  lemma EmissionRule(st: State, line: string, ctx: Context, s: Sample)
    requires ctx.Valid() && ctx.SampleOf(line) == Some(s)
    ensures var next := Step(st, line, ctx);
      (|next.keys| > |st.keys| <==> (!st.firstWritten || ctx.FrameOf(s) % ctx.settings.keyframeStep == 0))
      && (|next.keys| > |st.keys| ==> next.keys[..|st.keys| + 1] == st.keys + [ctx.LocationOf(s)])
      && (|next.keys| <= |st.keys| ==> next == st)
  {
    var next := Step(st, line, ctx);
    if Emits(st, ctx.FrameOf(s), ctx) {
      if ctx.cols.roll.None? {
        KeyedRowWithoutRoll(st, line, ctx, s);
      } else {
        match ctx.RollField(line)
        case None => RollFieldFailureKeepsLocationOnly(st, line, ctx, s);
        case Some(NaN) => KeyedRowWithNaNRate(st, line, ctx, s);
        case Some(Num(rate)) =>
          KeyedRowWithRate(st, line, ctx, s, rate);
          assert (st.keys + [ctx.LocationOf(s)] + [RollZ(ctx.FrameOf(s), next.rollAngle)])[..|st.keys| + 1]
              == st.keys + [ctx.LocationOf(s)];
      }
    } else {
      SuppressedRow(st, line, ctx, s);
    }
  }

  /** A row that does not convert changes nothing, wherever it sits. */
  lemma {:induction false} SkippedRowIsInvisible(before: seq<string>, line: string, after: seq<string>, ctx: Context)
    requires ctx.Valid() && ctx.SampleOf(line).None?
    ensures Replay(before + [line] + after, ctx) == Replay(before + after, ctx)
    decreases |after|
  {
    if after == [] {
      assert before + [line] + after == before + [line];
      assert (before + [line])[..|before|] == before;
      assert before + after == before;
      SkippedRow(Replay(before, ctx), line, ctx);
    } else {
      var init := after[..|after| - 1];
      assert (before + [line] + after)[..|before + [line] + after| - 1] == before + [line] + init;
      assert (before + after)[..|before + after| - 1] == before + init;
      SkippedRowIsInvisible(before, line, init, ctx);
    }
  }

  /** Rows before the first accepted one leave the loop where it started. */
  lemma {:induction false} AllSkippedIsStart(lines: seq<string>, ctx: Context)
    requires ctx.Valid()
    requires forall k | 0 <= k < |lines| :: ctx.SampleOf(lines[k]).None?
    ensures Replay(lines, ctx) == Start
    decreases |lines|
  {
    if lines != [] {
      AllSkippedIsStart(lines[..|lines| - 1], ctx);
    }
  }

  /** The first accepted row is keyed whatever its frame. */
  lemma FirstAcceptedRowIsKeyed(before: seq<string>, line: string, ctx: Context, s: Sample)
    requires ctx.Valid()
    requires forall k | 0 <= k < |before| :: ctx.SampleOf(before[k]).None?
    requires ctx.SampleOf(line) == Some(s)
    ensures var keys := Replay(before + [line], ctx).keys;
      |keys| >= 1 && keys[0] == ctx.LocationOf(s)
  {
    AllSkippedIsStart(before, ctx);
    ReplayLast(before, line, ctx);
    EmissionRule(Start, line, ctx, s);
    var keys := Replay(before + [line], ctx).keys;
    assert keys[..1] == [ctx.LocationOf(s)];
  }

  /** With a step of 1 every accepted row is keyed: the location channel
      holds one key per accepted row, in file order, at its frame. */
  lemma {:induction false} StepOneKeysEveryRow(lines: seq<string>, ctx: Context)
    requires ctx.Valid() && ctx.settings.keyframeStep == 1
    ensures LocationKeys(Replay(lines, ctx).keys) == ValidTrack(lines, ctx)
    decreases |lines|
  {
    if lines != [] {
      var init := lines[..|lines| - 1];
      StepOneKeysEveryRow(init, ctx);
      LocationChannelStep(Replay(init, ctx), lines[|lines| - 1], ctx);
    }
  }

  /** Timeline bounds: `max_frame` never goes below 0, every rotation key
      (and, without a roll column, every key) lies at or before it, and
      unless it is still 0 some key lies exactly on it. */
  lemma {:induction false} TimelineBounds(lines: seq<string>, ctx: Context)
    requires ctx.Valid()
    ensures var r := Replay(lines, ctx);
      r.maxFrame >= 0
      && (forall k | 0 <= k < |r.keys| :: r.keys[k].RollZ? ==> r.keys[k].frame <= r.maxFrame)
      && (ctx.cols.roll.None? ==> forall k | 0 <= k < |r.keys| :: r.keys[k].frame <= r.maxFrame)
      && (r.maxFrame == 0 || exists k | 0 <= k < |r.keys| :: r.keys[k].frame == r.maxFrame)
    decreases |lines|
  {
    if lines != [] {
      var init := lines[..|lines| - 1];
      TimelineBounds(init, ctx);
      var st := Replay(init, ctx);
      var r := Replay(lines, ctx);
      assert r.keys[..|st.keys|] == st.keys;
      if r.maxFrame != 0 && r.maxFrame == st.maxFrame {
        var k :| 0 <= k < |st.keys| && st.keys[k].frame == st.maxFrame;
        assert r.keys[k] == st.keys[k];
      } else if r.maxFrame != st.maxFrame {
        assert r.keys[|st.keys|].frame == r.maxFrame;
      }
    }
  }

  /** Whether a row's iteration runs to its end, setting
      `first_frame_written` and counting in `max_frame`, given whether an
      earlier one did: its time and position convert, it passes the
      decimation test, and there is no roll column or its roll field
      converts. */
  predicate Completes(line: string, ctx: Context, anyBefore: bool)
    requires ctx.Valid()
  {
    ctx.SampleOf(line).Some?
    && (!anyBefore || ctx.FrameOf(ctx.SampleOf(line).value) % ctx.settings.keyframeStep == 0)
    && (ctx.cols.roll.None? || ctx.RollField(line).Some?)
  }

  /** The frames of the rows whose iteration ran to its end, in file order. */
  function CompletedFrames(lines: seq<string>, ctx: Context): seq<int>
    requires ctx.Valid()
    decreases |lines|
  {
    if lines == [] then []
    else
      var before := CompletedFrames(lines[..|lines| - 1], ctx);
      var line := lines[|lines| - 1];
      if Completes(line, ctx, before != []) then before + [ctx.FrameOf(ctx.SampleOf(line).value)]
      else before
  }

  /** One row's effect on `first_frame_written` and `max_frame`. */
  lemma CompletionStep(st: State, line: string, ctx: Context)
    requires ctx.Valid()
    ensures var next := Step(st, line, ctx);
      var done := Completes(line, ctx, st.firstWritten);
      next.firstWritten == (st.firstWritten || done)
      && next.maxFrame == (if done then Max(st.maxFrame, ctx.FrameOf(ctx.SampleOf(line).value)) else st.maxFrame)
  {
  }

  /** `first_frame_written` holds after the loop exactly when some row's
      iteration ran to its end. */
  lemma {:induction false} FirstWrittenIffCompleted(lines: seq<string>, ctx: Context)
    requires ctx.Valid()
    ensures Replay(lines, ctx).firstWritten <==> CompletedFrames(lines, ctx) != []
    decreases |lines|
  {
    if lines != [] {
      var init := lines[..|lines| - 1];
      FirstWrittenIffCompleted(init, ctx);
      CompletionStep(Replay(init, ctx), lines[|lines| - 1], ctx);
    }
  }

  /** The emission rule over a whole prefix: after the rows `before`, an
      accepted row is keyed exactly when no earlier row ran to its end or
      its frame is a multiple of the step. */
  lemma KeyedAfter(before: seq<string>, line: string, ctx: Context, s: Sample)
    requires ctx.Valid() && ctx.SampleOf(line) == Some(s)
    ensures var st := Replay(before, ctx);
      (|Replay(before + [line], ctx).keys| > |st.keys|
       <==> CompletedFrames(before, ctx) == [] || ctx.FrameOf(s) % ctx.settings.keyframeStep == 0)
  {
    ReplayLast(before, line, ctx);
    FirstWrittenIffCompleted(before, ctx);
    EmissionRule(Replay(before, ctx), line, ctx, s);
  }

  /** `max_frame` is the largest frame of the rows whose iteration ran to
      its end, or 0 when that is larger or there is none: it is at least 0
      and every such frame, and unless it is 0 it is one of them. */
  lemma {:induction false} MaxFrameOfCompletedRows(lines: seq<string>, ctx: Context)
    requires ctx.Valid()
    ensures var r := Replay(lines, ctx);
      var done := CompletedFrames(lines, ctx);
      r.maxFrame >= 0
      && (forall k | 0 <= k < |done| :: done[k] <= r.maxFrame)
      && (r.maxFrame == 0 || exists k | 0 <= k < |done| :: done[k] == r.maxFrame)
    decreases |lines|
  {
    if lines != [] {
      var init := lines[..|lines| - 1];
      var line := lines[|lines| - 1];
      MaxFrameOfCompletedRows(init, ctx);
      FirstWrittenIffCompleted(init, ctx);
      var st := Replay(init, ctx);
      CompletionStep(st, line, ctx);
      var before := CompletedFrames(init, ctx);
      var done := CompletedFrames(lines, ctx);
      var r := Replay(lines, ctx);
      if Completes(line, ctx, st.firstWritten) {
        var frame := ctx.FrameOf(ctx.SampleOf(line).value);
        assert done == before + [frame];
        forall k | 0 <= k < |done| ensures done[k] <= r.maxFrame {
          if k < |before| {
            assert done[k] == before[k];
          }
        }
        if r.maxFrame != 0 {
          if r.maxFrame == frame {
            assert done[|before|] == r.maxFrame;
          } else {
            var k :| 0 <= k < |before| && before[k] == st.maxFrame;
            assert done[k] == r.maxFrame;
          }
        }
      } else {
        assert done == before;
      }
    }
  }

  /** Without the roll column no rotation key is ever inserted. */
  lemma {:induction false} NoRotationWithoutRollColumn(lines: seq<string>, ctx: Context)
    requires ctx.Valid() && ctx.cols.roll.None?
    ensures var keys := Replay(lines, ctx).keys;
      forall k | 0 <= k < |keys| :: keys[k].Location?
    decreases |lines|
  {
    if lines != [] {
      var init := lines[..|lines| - 1];
      var line := lines[|lines| - 1];
      NoRotationWithoutRollColumn(init, ctx);
      var st := Replay(init, ctx);
      assert lines == init + [line];
      ReplayLast(init, line, ctx);
      match ctx.SampleOf(line)
      case None => SkippedRow(st, line, ctx);
      case Some(s) =>
        if Emits(st, ctx.FrameOf(s), ctx) {
          KeyedRowWithoutRoll(st, line, ctx, s);
        } else {
          SuppressedRow(st, line, ctx, s);
        }
    }
  }

  /** `animate_rotation` off: the operator keys the location channel only. */
  lemma RotationOffKeysLocationOnly(lines: seq<string>, settings: Settings,
                                    parse: string -> Option<Float>, quantize: real -> int)
    requires settings.keyframeStep >= 1 && !settings.animateRotation
    ensures var r := Convert(lines, settings, parse, quantize);
      r.Finished? ==> forall k | 0 <= k < |r.keys| :: r.keys[k].Location?
  {
    var r := Convert(lines, settings, parse, quantize);
    if r.Finished? {
      var ctx := ContextOf(lines, settings, parse, quantize);
      var rows := lines[FirstDataLine(lines).value..];
      NoRotationWithoutRollColumn(rows, ctx);
      assert r.keys == Replay(rows, ctx).keys;
    }
  }

  /** A finished run ends the timeline at a frame no lower than 0. */
  lemma FinishedTimelineIsNonNegative(lines: seq<string>, settings: Settings,
                                      parse: string -> Option<Float>, quantize: real -> int)
    requires settings.keyframeStep >= 1
    ensures var r := Convert(lines, settings, parse, quantize);
      r.Finished? ==> r.frameEnd >= 0
  {
    var r := Convert(lines, settings, parse, quantize);
    if r.Finished? {
      var ctx := ContextOf(lines, settings, parse, quantize);
      TimelineBounds(lines[FirstDataLine(lines).value..], ctx);
    }
  }

  /** The accumulated roll angle is always the angle of the last rotation
      key (0 before any): the keyed Z rotation follows the integral. */
  lemma {:induction false} RollAngleIsLastKeyed(lines: seq<string>, ctx: Context)
    requires ctx.Valid()
    ensures var r := Replay(lines, ctx);
      r.rollAngle == LastRollAngle(r.keys)
    decreases |lines|
  {
    if lines != [] {
      var init := lines[..|lines| - 1];
      RollAngleIsLastKeyed(init, ctx);
      var st := Replay(init, ctx);
      var r := Replay(lines, ctx);
      if |r.keys| == |st.keys| + 1 {
        assert r.keys[..|r.keys| - 1] == st.keys;
      } else if |r.keys| == |st.keys| + 2 {
        assert r.keys[..|r.keys| - 1][..|r.keys| - 2] == st.keys;
      }
    }
  }

  /** Two rows at t = 0 and t = 0.1 s, 30 fps, step 5, no rotation: the first
      is keyed at frame 0 and the second, at frame 3, is not. */
  lemma DecimationExample(first: string, second: string, ctx: Context)
    requires ctx.settings == Settings(0, 5, false) && ctx.cols.roll.None?
    requires ctx.SampleOf(first) == Some(Sample(0.0, 0.0, 0.0, 0.0))
    requires ctx.SampleOf(second) == Some(Sample(0.1, 1.0, 0.0, 2.0))
    requires ctx.quantize(0.0) == 0 && ctx.quantize(0.1) == 3
    ensures var r := Replay([first, second], ctx);
      r.keys == [Location(0, 0.0, 0.0, 0.0)] && r.maxFrame == 0
  {
    ReplayLast([], first, ctx);
    ReplayLast([first], second, ctx);
    var one := Replay([first], ctx);
    KeyedRowWithoutRoll(Start, first, ctx, Sample(0.0, 0.0, 0.0, 0.0));
    assert ctx.FrameOf(Sample(0.0, 0.0, 0.0, 0.0)) == 0;
    assert one == State(0.0, 0.0, 0, true, [Location(0, 0.0, 0.0, 0.0)]);
    assert ctx.FrameOf(Sample(0.1, 1.0, 0.0, 2.0)) == 3;
    SuppressedRow(one, second, ctx, Sample(0.1, 1.0, 0.0, 2.0));
  }
}
