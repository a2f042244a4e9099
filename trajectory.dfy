/** The ingestion half of `ORA_OT_AnimateFromCSV.execute`, identical in
    both versions of the add-on: finding the header among the leading `#`
    lines, resolving the logical column names against it, and turning one
    data line into a typed sample or rejecting it. Also the host objects the
    conversion writes to. */
module Trajectory {
  import opened Text

  datatype Option<T> = None | Some(value: T)

  datatype Result<T, E> = Ok(value: T) | Err(error: E)

  /** What Python's `float()` yields for a field, as far as the importer
      looks at it: a number, or NaN (the one value it tests for). */
  datatype Float = Num(value: real) | NaN

  /** One `keyframe_insert` on the animated object: the location at a
      frame, or the Z component (index 2) of `rotation_euler` at a frame. */
  datatype Key =
    | Location(frame: int, x: real, y: real, z: real)
    | RollZ(frame: int, angle: real)

  /** Positions of the logical columns in the header; `roll` is `None`
      where the source keeps `roll_idx = -1`. */
  datatype Columns = Columns(time: nat, east: nat, north: nat, altitude: nat, roll: Option<nat>)

  /** A data row whose time and position all converted. */
  datatype Sample = Sample(t: real, x: real, y: real, z: real)

  /** The add-on's properties the conversion reads (`frame_offset`,
      `keyframe_step`, `animate_rotation`). */
  datatype Settings = Settings(frameOffset: int, keyframeStep: int, animateRotation: bool)

  /** Why the operator returns `{'CANCELLED'}` once the file has been read. */
  datatype Failure =
    | NoHeader                   // no `#` line with a comma before the data
    | NoDataLine                 // a header but no data line: `data_start` is never bound
    | MissingColumn(name: string)

  const TimeColumn: string := "Time"
  const EastColumn: string := "Position East"
  const NorthColumn: string := "Position North"
  const AltitudeColumn: string := "Altitude"
  const RollColumn: string := "Roll rate"

  // ---------------------------------------------------------------- header

  /** `line.strip().startswith('#')`: the first character that is not
      whitespace is a `#` (`CommentTestAgrees` ties the two together). */
  predicate IsComment(line: string)
    decreases |line|
  {
    |line| > 0 && (line[0] == '#' || (IsSpace(line[0]) && IsComment(line[1..])))
  }

  /** Left-stripping then testing the first character is the same test. */
  lemma {:induction false} CommentAfterLStrip(line: string)
    ensures IsComment(line) <==> (|LStrip(line)| > 0 && LStrip(line)[0] == '#')
    decreases |line|
  {
    if |line| > 0 && IsSpace(line[0]) {
      CommentAfterLStrip(line[1..]);
    }
  }

  /** The test agrees with `line.strip().startswith('#')`. */
  lemma CommentTestAgrees(line: string)
    ensures IsComment(line) <==> (|Strip(line)| > 0 && Strip(line)[0] == '#')
  {
    CommentAfterLStrip(line);
    StripSpec(line);
    LStripSpec(line);
    var t := LStrip(line);
    var s := Strip(line);
    var a := |line| - |t|;
    if |s| > 0 {
      assert s[0] == line[a] == t[0];
    }
  }

  /** A header candidate: a comment line that contains a comma. */
  predicate IsHeaderLine(line: string) {
    IsComment(line) && ',' in line
  }

  /** `line.strip().lstrip('#').strip().split(',')` */
  function HeaderFields(line: string): seq<string> {
    Split(Strip(LStripHash(Strip(line))), ',')
  }

  /** The header's fields, joined back with commas, give the line without
      its leading `#`s and surrounding whitespace; there is at least one. */
  lemma HeaderFieldsJoin(line: string)
    ensures |HeaderFields(line)| >= 1
    ensures Join(HeaderFields(line), ',') == Strip(LStripHash(Strip(line)))
  {
    JoinSplit(Strip(LStripHash(Strip(line))), ',');
  }

  /** The first line at or after `from` that is not a comment. */
  function FirstDataFrom(lines: seq<string>, from: nat): (r: Option<nat>)
    requires from <= |lines|
    ensures r.Some? ==>
      from <= r.value < |lines| && !IsComment(lines[r.value])
      && forall k | from <= k < r.value :: IsComment(lines[k])
    ensures r.None? ==> forall k | from <= k < |lines| :: IsComment(lines[k])
    decreases |lines| - from
  {
    if from == |lines| then None
    else if !IsComment(lines[from]) then Some(from)
    else FirstDataFrom(lines, from + 1)
  }

  /** `data_start`: the index of the first line that is not a comment, if any. */
  function FirstDataLine(lines: seq<string>): (r: Option<nat>)
    ensures r.Some? ==>
      r.value < |lines| && !IsComment(lines[r.value])
      && forall k | 0 <= k < r.value :: IsComment(lines[k])
    ensures r.None? ==> forall k | 0 <= k < |lines| :: IsComment(lines[k])
  {
    FirstDataFrom(lines, 0)
  }

  /** The last header candidate among the first `n` lines. */
  function LastHeaderLine(lines: seq<string>, n: nat): (r: Option<nat>)
    requires n <= |lines|
    ensures r.Some? ==>
      r.value < n && IsHeaderLine(lines[r.value])
      && forall k | r.value < k < n :: !IsHeaderLine(lines[k])
    ensures r.None? ==> forall k | 0 <= k < n :: !IsHeaderLine(lines[k])
  {
    if n == 0 then None
    else if IsHeaderLine(lines[n - 1]) then Some(n - 1)
    else LastHeaderLine(lines, n - 1)
  }

  /** The lines the header loop looks at: up to the first data line, or all. */
  function ScanEnd(lines: seq<string>): nat {
    match FirstDataLine(lines)
    case Some(d) => d
    case None => |lines|
  }

  /** The value of `header` once the loop has looked at the first `n` lines. */
  function HeaderAt(lines: seq<string>, n: nat): Option<seq<string>>
    requires n <= |lines|
  {
    match LastHeaderLine(lines, n)
    case Some(j) => Some(HeaderFields(lines[j]))
    case None => None
  }

  /** The header the conversion uses: the fields of the last `#` line with a
      comma that comes before the first non-comment line. */
  function HeaderOf(lines: seq<string>): Option<seq<string>> {
    HeaderAt(lines, ScanEnd(lines))
  }

  /** One more line looked at by the header loop. */
  lemma HeaderAtNext(lines: seq<string>, i: nat)
    requires i < |lines|
    ensures HeaderAt(lines, i + 1) ==
      if IsHeaderLine(lines[i]) then Some(HeaderFields(lines[i])) else HeaderAt(lines, i)
  {
  }

  /** The first line that is not a comment is where the data starts. */
  lemma FirstDataAt(lines: seq<string>, i: nat)
    requires i <= |lines|
    requires forall k | 0 <= k < i :: IsComment(lines[k])
    requires i < |lines| ==> !IsComment(lines[i])
    ensures FirstDataLine(lines) == (if i < |lines| then Some(i) else None)
    ensures ScanEnd(lines) == i
  {
  }

  /** The header loop of `execute` (assets/ORA2.1.py:165-171). */
  method ScanHeader(lines: seq<string>) returns (header: Option<seq<string>>, dataStart: Option<nat>)
    ensures header == HeaderOf(lines)
    ensures dataStart == FirstDataLine(lines)
  {
    header, dataStart := None, None;
    var i := 0;
    while i < |lines|
      invariant 0 <= i <= |lines|
      invariant forall k | 0 <= k < i :: IsComment(lines[k])
      invariant header == HeaderAt(lines, i)
    {
      HeaderAtNext(lines, i);
      if IsComment(lines[i]) && ',' in lines[i] {
        header := Some(HeaderFields(lines[i]));
      } else if !IsComment(lines[i]) {
        dataStart := Some(i);
        FirstDataAt(lines, i);
        return;
      }
      i := i + 1;
    }
    FirstDataAt(lines, i);
  }

  // --------------------------------------------------------------- columns

  /** `find_index(name)`: the first header field containing `name`. */
  function FindIndex(header: seq<string>, name: string): (r: Option<nat>)
    ensures r.Some? ==>
      r.value < |header| && IsSubstring(name, header[r.value])
      && forall j | 0 <= j < r.value :: !IsSubstring(name, header[j])
    ensures r.None? ==> forall j | 0 <= j < |header| :: !IsSubstring(name, header[j])
  {
    FindIndexFrom(header, name, 0)
  }

  function FindIndexFrom(header: seq<string>, name: string, from: nat): (r: Option<nat>)
    requires from <= |header|
    ensures r.Some? ==>
      from <= r.value < |header| && IsSubstring(name, header[r.value])
      && forall j | from <= j < r.value :: !IsSubstring(name, header[j])
    ensures r.None? ==> forall j | from <= j < |header| :: !IsSubstring(name, header[j])
    decreases |header| - from
  {
    if from == |header| then None
    else if IsSubstring(name, header[from]) then Some(from)
    else FindIndexFrom(header, name, from + 1)
  }

  /** The names `execute` looks up, in order; "Roll rate" only with rotation. */
  function RequiredColumns(rotation: bool): seq<string> {
    [TimeColumn, EastColumn, NorthColumn, AltitudeColumn] + (if rotation then [RollColumn] else [])
  }

  /** Looks the names up in order and stops at the first one missing, as the
      sequence of `find_index` calls does when one raises. */
  function FindAll(header: seq<string>, names: seq<string>): (r: Result<seq<nat>, nat>)
    ensures r.Ok? ==>
      |r.value| == |names|
      && forall k | 0 <= k < |names| :: FindIndex(header, names[k]) == Some(r.value[k])
    ensures r.Err? ==>
      r.error < |names| && FindIndex(header, names[r.error]).None?
      && forall k | 0 <= k < r.error :: FindIndex(header, names[k]).Some?
  {
    if names == [] then Ok([])
    else match FindIndex(header, names[0])
      case None => Err(0)
      case Some(i) =>
        match FindAll(header, names[1..])
        case Ok(rest) => Ok([i] + rest)
        case Err(k) => Err(k + 1)
  }

  /** The column lookups of `execute`: either every required column is found
      (each at its first match) or the first required name that no header
      field contains is reported. */
  function ResolveColumns(header: seq<string>, rotation: bool): (r: Result<Columns, string>)
    ensures r.Ok? <==> forall k | 0 <= k < |RequiredColumns(rotation)| ::
                         FindIndex(header, RequiredColumns(rotation)[k]).Some?
    ensures r.Ok? ==>
      Some(r.value.time) == FindIndex(header, TimeColumn)
      && Some(r.value.east) == FindIndex(header, EastColumn)
      && Some(r.value.north) == FindIndex(header, NorthColumn)
      && Some(r.value.altitude) == FindIndex(header, AltitudeColumn)
      && r.value.roll == (if rotation then FindIndex(header, RollColumn) else None)
    ensures r.Err? ==>
      r.error in RequiredColumns(rotation) && FindIndex(header, r.error).None?
  {
    var names := RequiredColumns(rotation);
    match FindAll(header, names)
    case Err(k) => Err(names[k])
    case Ok(ix) =>
      Ok(Columns(ix[0], ix[1], ix[2], ix[3], if rotation then Some(ix[4]) else None))
  }

  // ------------------------------------------------------------------ rows

  /** `float(row[i])`: `None` when the index is out of range or the text
      does not convert. */
  function Field(row: seq<string>, i: nat, parse: string -> Option<Float>): Option<Float> {
    if i < |row| then parse(row[i]) else None
  }

  predicate IsNumber(f: Option<Float>) {
    f.Some? && f.value.Num?
  }

  /** The first four conversions of a row, the NaN test on x, y and z, and
      `round(t * fps)`, which raises on a NaN time. */
  function ParseRow(row: seq<string>, cols: Columns, parse: string -> Option<Float>): (r: Option<Sample>)
    ensures r.Some? <==>
      IsNumber(Field(row, cols.time, parse)) && IsNumber(Field(row, cols.east, parse))
      && IsNumber(Field(row, cols.north, parse)) && IsNumber(Field(row, cols.altitude, parse))
    ensures r.Some? ==>
      Field(row, cols.time, parse) == Some(Num(r.value.t))
      && Field(row, cols.east, parse) == Some(Num(r.value.x))
      && Field(row, cols.north, parse) == Some(Num(r.value.y))
      && Field(row, cols.altitude, parse) == Some(Num(r.value.z))
  {
    var t, x, y, z :=
      Field(row, cols.time, parse), Field(row, cols.east, parse),
      Field(row, cols.north, parse), Field(row, cols.altitude, parse);
    if t.Some? && x.Some? && y.Some? && z.Some? && x.value.Num? && y.value.Num? && z.value.Num? && t.value.Num?
    then Some(Sample(t.value.value, x.value.value, y.value.value, z.value.value))
    else None
  }

  /** A data line as `csv.reader` hands it over, split on commas. */
  function Row(line: string): seq<string> {
    Split(line, ',')
  }

  // ----------------------------------------------------------- host state

  datatype ObjectKind = Mesh | Empty | Camera | Other

  /** The active object: its type and the keyframes on its action. */
  class AnimatedObject {
    var kind: ObjectKind
    var keys: seq<Key>
  }

  /** The scene's timeline bounds. */
  class Scene {
    var frameStart: int
    var frameEnd: int
  }
}
