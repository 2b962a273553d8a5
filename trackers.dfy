/**
 * The eight trackers: what each writes to the console for one entry of its
 * observed type, and for a whole batch delivered to its observer callback.
 */
module Trackers {
  import opened Js
  import opened Strings
  import opened Labels
  import opened Entries
  import opened Console

  datatype Tracker = Dcl | Fcp | Fp | Fid | Lcp | Cls | Tbt | Resources

  /** The configuration key that enables a tracker. */
  function Flag(t: Tracker): string
  {
    match t
    case Dcl => "dcl"
    case Fcp => "fcp"
    case Fp => "fp"
    case Fid => "fid"
    case Lcp => "lcp"
    case Cls => "cls"
    case Tbt => "tbt"
    case Resources => "resources"
  }

  /** The `type` a tracker passes to `observe`; only the two paint trackers share one. */
  function ObservedType(t: Tracker): (r: string)
    ensures r == "paint" <==> t == Fcp || t == Fp
  {
    match t
    case Dcl => "navigation"
    case Fcp => "paint"
    case Fp => "paint"
    case Fid => "first-input"
    case Lcp => "largest-contentful-paint"
    case Cls => "layout-shift"
    case Tbt => "longtask"
    case Resources => "resource"
  }

  /** Two different trackers observe the same type only when they are the two paint trackers. */
  lemma SharedTypeIsPaint(t: Tracker, u: Tracker)
    requires t != u && ObservedType(t) == ObservedType(u)
    ensures {t, u} == {Fcp, Fp}
  {
  }

  /** The host delivers to an observer only entries of the type it observes. */
  predicate Observes(t: Tracker, e: Entry)
  {
    match t
    case Dcl => e.Navigation?
    case Fcp => e.Paint?
    case Fp => e.Paint?
    case Fid => e.FirstInput?
    case Lcp => e.LargestContentfulPaint?
    case Cls => e.LayoutShift?
    case Tbt => e.LongTask?
    case Resources => e.Resource?
  }

  /** A tracker receives exactly the entries whose `entryType` is the type it observes. */
  lemma ObservesByType(t: Tracker, e: Entry)
    ensures Observes(t, e) <==> EntryType(e) == ObservedType(t)
  {
  }

  predicate ObservesAll(t: Tracker, batch: seq<Entry>)
  {
    forall i :: 0 <= i < |batch| ==> Observes(t, batch[i])
  }

  /** `if (options.debug) console.log(JSON.stringify(entry))`. */
  function DebugLines(e: Entry, debug: bool): (r: seq<Line>)
    ensures |r| == if debug then 1 else 0
    ensures forall k :: 0 <= k < |r| ==> r[k] == Json(e)
  {
    if debug then [Json(e)] else []
  }

  function CountRecords(lines: seq<Line>): nat
  {
    if lines == [] then 0
    else CountRecords(lines[..|lines| - 1]) + (if lines[|lines| - 1].Record? then 1 else 0)
  }

  function CountJson(lines: seq<Line>): nat
  {
    if lines == [] then 0
    else CountJson(lines[..|lines| - 1]) + (if lines[|lines| - 1].Json? then 1 else 0)
  }

  lemma {:induction false} CountsOfJoin(a: seq<Line>, b: seq<Line>)
    ensures CountRecords(a + b) == CountRecords(a) + CountRecords(b)
    ensures CountJson(a + b) == CountJson(a) + CountJson(b)
    decreases |b|
  {
    if b == [] {
      assert a + b == a;
    } else {
      var b' := b[..|b| - 1];
      assert (a + b)[..|a + b| - 1] == a + b';
      CountsOfJoin(a, b');
    }
  }

  // ---- navigation (trackDomContentLoaded) ----

  /**
   * A truthy `loadEventStart` reports the load handler, as kind `load` in dark red at
   * `loadEventStart`; a zero one reports the DOMContentLoaded handler, as kind `dcl`
   * at `domContentLoadedEventStart`. The message ends with the handler's duration.
   */
  function NavigationLines(e: Entry, debug: bool): (r: seq<Line>)
    requires e.Navigation?
    ensures |r| >= 1 && r[0].Record? && r[1..] == DebugLines(e, debug)
    ensures r[0].kind == "load" <==> e.loadEventStart != 0
    ensures e.loadEventStart != 0 ==>
      r[0].time == e.loadEventStart && r[0].color == Str("darkred") &&
      EndsWith(r[0].message, Fixed2(e.loadEventEnd - e.loadEventStart) + "ms")
    ensures e.loadEventStart != 0 ==>
      r[0].message == e.name + ". Load handler took " + (Fixed2(e.loadEventEnd - e.loadEventStart) + "ms")
    ensures e.loadEventStart == 0 ==>
      r[0].kind == "dcl" && r[0].time == e.domContentLoadedEventStart &&
      r[0].color == Str(LabelColors["dcl"]) &&
      EndsWith(r[0].message, Fixed2(e.domContentLoadedEventEnd - e.domContentLoadedEventStart) + "ms")
    ensures e.loadEventStart == 0 ==>
      r[0].message == e.name + ". DomContentLoaded handler took "
                      + (Fixed2(e.domContentLoadedEventEnd - e.domContentLoadedEventStart) + "ms")
  {
    var record :=
      if e.loadEventStart != 0 then
        (var took := Fixed2(e.loadEventEnd - e.loadEventStart) + "ms";
         EndsWithJoin(e.name + ". Load handler took ", took);
         Log(e.name + ". Load handler took " + took, e.loadEventStart, "load", Str("darkred")))
      else
        (var took := Fixed2(e.domContentLoadedEventEnd - e.domContentLoadedEventStart) + "ms";
         EndsWithJoin(e.name + ". DomContentLoaded handler took ", took);
         Log(e.name + ". DomContentLoaded handler took " + took, e.domContentLoadedEventStart, "dcl", Undefined));
    [record] + DebugLines(e, debug)
  }

  predicate EndsWith(s: string, suffix: string)
  {
    |suffix| <= |s| && s[|s| - |suffix|..] == suffix
  }

  lemma EndsWithJoin(s: string, suffix: string)
    ensures EndsWith(s + suffix, suffix)
  {
    assert (s + suffix)[|s|..] == suffix;
  }

  // ---- paint (trackFirstContentfulPaint, trackFirstPaint) ----

  /**
   * `getEntriesByName(wanted)`: a paint entry of another name writes nothing; one of
   * that name writes an empty-message record of `kind` at its start time.
   */
  function PaintLines(wanted: string, kind: string, e: Entry, debug: bool): (r: seq<Line>)
    requires e.Paint?
    ensures e.name != wanted ==> r == []
    ensures e.name == wanted ==>
      |r| >= 1 && r[0].Record? && r[0].kind == kind && r[0].time == e.startTime &&
      r[0].message == "" && r[1..] == DebugLines(e, debug)
  {
    if e.name == wanted then [Log("", e.startTime, kind, Undefined)] + DebugLines(e, debug) else []
  }

  // ---- first input (trackFirstInputDelay) ----

  /** A `fid` record naming the event and its duration, then the event's target. */
  function FirstInputLines(e: Entry, debug: bool): (r: seq<Line>)
    requires e.FirstInput?
    ensures |r| >= 2 && r[0].Record? && r[0].kind == "fid" && r[0].time == e.startTime
    ensures EndsWith(r[0].message, " took " + IntToString(e.duration) + "ms")
    ensures r[0].message == e.name + " took " + IntToString(e.duration) + "ms"
    ensures r[1] == Object(e.target) && r[2..] == DebugLines(e, debug)
  {
    [Log(e.name + " took " + IntToString(e.duration) + "ms", e.startTime, "fid", Undefined),
     Object(e.target)] + DebugLines(e, debug)
  }

  // ---- largest contentful paint (trackLagestContentfulPaint) ----

  /** An `lcp` record whose message is the URL, then the element. */
  function LargestContentfulPaintLines(e: Entry, debug: bool): (r: seq<Line>)
    requires e.LargestContentfulPaint?
    ensures |r| >= 2 && r[0].Record? && r[0].kind == "lcp" && r[0].time == e.startTime
    ensures r[0].message == e.url
    ensures r[1] == Object(e.element) && r[2..] == DebugLines(e, debug)
  {
    [Log(e.url, e.startTime, "lcp", Undefined), Object(e.element)] + DebugLines(e, debug)
  }

  // ---- layout shift (trackCumulativeLayoutShifts) ----

  /** `pad(value, 4)`. */
  function Pad4(v: int): (s: string)
    ensures |s| == Max(|IntToString(v)|, 4)
    ensures EndsWith(s, IntToString(v))
    ensures forall k :: 0 <= k < |s| - |IntToString(v)| ==> s[k] == ' '
    ensures RowChars(s)
  {
    PadStart(IntToString(v), 4, " ")
  }

  /** The characters of a rendered coordinate row: spaces, minus signs and digits. */
  predicate RowChar(c: char)
  {
    c == ' ' || c == '-' || IsDigit(c)
  }

  /**
   * `row` holds `a`, `b`, `c` and `d` in that order, each followed by exactly
   * one space except the last, and nothing else.
   */
  predicate SpacedColumns(row: string, a: string, b: string, c: string, d: string)
  {
    var i, j, k := |a|, |a| + 1 + |b|, |a| + |b| + |c| + 2;
    && |row| == k + 1 + |d|
    && row[..i] == a && row[i] == ' '
    && row[i + 1..j] == b && row[j] == ' '
    && row[j + 1..k] == c && row[k] == ' '
    && row[k + 1..] == d
  }

  /** The four sides of a rectangle, each padded to 4, separated by spaces. */
  function RectRow(r: Rect): (row: string)
    ensures |row| >= 19 && |Pad4(r.top)| + |Pad4(r.left)| + 3 <= |row|
    ensures row[..|Pad4(r.top)|] == Pad4(r.top) && EndsWith(row, Pad4(r.left))
    ensures SpacedColumns(row, Pad4(r.top), Pad4(r.right), Pad4(r.bottom), Pad4(r.left))
    ensures RowChars(row)
  {
    var a, b, c, d := Pad4(r.top), Pad4(r.right), Pad4(r.bottom), Pad4(r.left);
    var row := a + " " + b + " " + c + " " + d;
    RowOfColumns(a, b, c, d, row);
    row
  }

  /** Every character of `s` is one a coordinate row may hold. */
  predicate RowChars(s: string)
  {
    forall k :: 0 <= k < |s| ==> RowChar(s[k])
  }

  lemma RowCharsOfJoin(a: string, b: string)
    requires RowChars(a) && RowChars(b)
    ensures RowChars(a + b)
  {
    forall k | 0 <= k < |a + b| ensures RowChar((a + b)[k]) {
      if k < |a| { assert (a + b)[k] == a[k]; } else { assert (a + b)[k] == b[k - |a|]; }
    }
  }

  lemma RowOfColumns(a: string, b: string, c: string, d: string, row: string)
    requires |a| >= 4 && |b| >= 4 && |c| >= 4 && |d| >= 4
    requires RowChars(a) && RowChars(b) && RowChars(c) && RowChars(d)
    requires row == a + " " + b + " " + c + " " + d
    ensures |row| >= 19 && |a| + |d| + 3 <= |row|
    ensures row[..|a|] == a && EndsWith(row, d) && RowChars(row)
    ensures SpacedColumns(row, a, b, c, d)
  {
    var i, j, k := |a|, |a| + 1 + |b|, |a| + |b| + |c| + 2;
    assert row[..i] == a && row[i] == ' ';
    assert row[i + 1..j] == b && row[j] == ' ';
    assert row[j + 1..k] == c && row[k] == ' ';
    assert row[k + 1..] == d;
    assert row[..|a|] == a && row[|row| - |d|..] == d;
    assert RowChars(" ");
    RowCharsOfJoin(a, " ");
    RowCharsOfJoin(a + " ", b);
    RowCharsOfJoin(a + " " + b, " ");
    RowCharsOfJoin(a + " " + b + " ", c);
    RowCharsOfJoin(a + " " + b + " " + c, " ");
    RowCharsOfJoin(a + " " + b + " " + c + " ", d);
  }

  predicate FitsColumns(r: Rect)
  {
    |IntToString(r.top)| <= 4 && |IntToString(r.right)| <= 4 &&
    |IntToString(r.bottom)| <= 4 && |IntToString(r.left)| <= 4
  }

  /**
    * `text` is `x` labelled `from:` and `y` labelled `to:`, each label 14
    * characters wide, with the only line break between the two rows.
    */
  predicate LabelledRows(text: string, x: string, y: string)
  {
    var k := 14 + |x|;
    && |text| == k + 15 + |y| && text[k] == '\n'
    && text[..14] == "        from: " && text[14..k] == x
    && text[k + 1..k + 15] == "        to:   " && text[k + 15..] == y
    && forall i :: 0 <= i < |text| && text[i] == '\n' ==> i == k
  }

  /** The `from:` and `to:` rows of one shift source, on exactly two lines. */
  function RectText(from: Rect, to: Rect): (text: string)
    ensures LabelledRows(text, RectRow(from), RectRow(to))
  {
    var x, y := RectRow(from), RectRow(to);
    TwoLines(x, y);
    "        from: " + x + "\n" + "        to:   " + y
  }

  /** Two rows of coordinates under their labels form two lines. */
  lemma TwoLines(x: string, y: string)
    requires RowChars(x) && RowChars(y)
    ensures LabelledRows("        from: " + x + "\n" + "        to:   " + y, x, y)
  {
    var p, q := "        from: ", "        to:   ";
    var text := p + x + "\n" + q + y;
    var k := 14 + |x|;
    forall i | 0 <= i < |text| && i != k ensures text[i] != '\n' {
      if i < 14 {
        assert text[i] == p[i];
      } else if i < k {
        assert text[i] == x[i - 14];
      } else if i < k + 15 {
        assert text[i] == q[i - k - 1];
      } else {
        assert text[i] == y[i - k - 15];
      }
    }
  }

  /** With sides of at most four characters, each side sits in its own fixed 4-wide column. */
  lemma RectRowColumns(r: Rect)
    requires FitsColumns(r)
    ensures |RectRow(r)| == 19
    ensures RectRow(r)[0..4] == Pad4(r.top) && RectRow(r)[5..9] == Pad4(r.right)
    ensures RectRow(r)[10..14] == Pad4(r.bottom) && RectRow(r)[15..19] == Pad4(r.left)
    ensures RectRow(r)[4] == ' ' && RectRow(r)[9] == ' ' && RectRow(r)[14] == ' '
  {
    JoinColumns(Pad4(r.top), Pad4(r.right), Pad4(r.bottom), Pad4(r.left));
  }

  lemma JoinColumns(a: string, b: string, c: string, d: string)
    requires |a| == 4 && |b| == 4 && |c| == 4 && |d| == 4
    ensures var row := a + " " + b + " " + c + " " + d;
      |row| == 19 && row[0..4] == a && row[5..9] == b && row[10..14] == c && row[15..19] == d &&
      row[4] == ' ' && row[9] == ' ' && row[14] == ' '
  {
  }

  /** Both rows line up: the text has a fixed length and the line break in a fixed place. */
  lemma RectTextColumns(from: Rect, to: Rect)
    requires FitsColumns(from) && FitsColumns(to)
    ensures |RectText(from, to)| == 67 && RectText(from, to)[33] == '\n'
    ensures RectText(from, to)[14..33] == RectRow(from)
    ensures RectText(from, to)[48..67] == RectRow(to)
  {
    RectRowColumns(from);
    RectRowColumns(to);
    JoinRows("        from: ", RectRow(from), "        to:   ", RectRow(to));
  }

  lemma JoinRows(p: string, x: string, q: string, y: string)
    requires |p| == 14 && |x| == 19 && |q| == 14 && |y| == 19
    ensures var text := p + x + "\n" + q + y;
      |text| == 67 && text[33] == '\n' && text[14..33] == x && text[48..67] == y
  {
  }

  /** The node the console shows for a source: a text node's parent element, any other node itself. */
  function InspectedNode(node: Option<DomNode>): (r: Option<DomNode>)
    ensures node.Some? && node.value.nodeType == TEXT_NODE ==> r == node.value.parentElement
    ensures node.Some? && node.value.nodeType != TEXT_NODE ==> r == node
    ensures node.None? ==> r.None?
  {
    match node
    case None => None
    case Some(n) => if n.nodeType == TEXT_NODE then n.parentElement else Some(n)
  }

  function DebugWidth(debug: bool): nat { if debug then 3 else 2 }

  /** What one shift source writes: the rectangle rows, the inspected node, and with `debug` the entry. */
  function SourceLines(e: Entry, s: ShiftSource, debug: bool): (r: seq<Line>)
    ensures |r| == DebugWidth(debug)
    ensures r[0] == Rects(s.previousRect, s.currentRect) && r[1] == Object(InspectedNode(s.node))
    ensures r[2..] == DebugLines(e, debug)
  {
    [Rects(s.previousRect, s.currentRect), Object(InspectedNode(s.node))] + DebugLines(e, debug)
  }

  /** The inner `entry.sources.forEach`, source by source. */
  function SourcesLines(e: Entry, sources: seq<ShiftSource>, debug: bool): (r: seq<Line>)
    ensures |r| == BlockStart(|sources|, debug)
    ensures forall k :: 0 <= k < |r| ==> !r[k].Record?
    decreases |sources|
  {
    if sources == [] then []
    else SourcesLines(e, sources[..|sources| - 1], debug) + SourceLines(e, sources[|sources| - 1], debug)
  }

  /** A `cls` record with the rounded score, then the lines of every source in order. */
  function LayoutShiftLines(e: Entry, debug: bool): (r: seq<Line>)
    requires e.LayoutShift?
    ensures |r| >= 1 && r[0].Record? && r[0].kind == "cls" && r[0].time == e.startTime
    ensures r[0].message == e.scoreText + "ms"
    ensures r[1..] == SourcesLines(e, e.sources, debug)
  {
    [Log(e.scoreText + "ms", e.startTime, "cls", Undefined)] + SourcesLines(e, e.sources, debug)
  }

  /** Where the lines of the `j`-th source start: `j` blocks of 2 lines, or 3 with `debug`. */
  function BlockStart(j: nat, debug: bool): nat
  {
    if debug then 3 * j else 2 * j
  }

  /**
   * The fan-out of one layout shift: source `j` owns the block of lines from
   * `BlockStart(j)` to `BlockStart(j + 1)`, in the order of the sources.
   */
  lemma {:induction false} SourcesLinesAt(e: Entry, sources: seq<ShiftSource>, debug: bool, j: nat)
    requires j < |sources|
    ensures |SourcesLines(e, sources, debug)| == BlockStart(|sources|, debug)
    ensures SourcesLines(e, sources, debug)[BlockStart(j, debug)..BlockStart(j + 1, debug)]
         == SourceLines(e, sources[j], debug)
    decreases |sources|
  {
    var init := sources[..|sources| - 1];
    var a, b := SourcesLines(e, init, debug), SourceLines(e, sources[|sources| - 1], debug);
    assert SourcesLines(e, sources, debug) == a + b;
    if j < |init| {
      SourcesLinesAt(e, init, debug, j);
      assert init[j] == sources[j];
      SliceOfJoinLeft(a, b, BlockStart(j, debug), BlockStart(j + 1, debug));
    } else {
      SliceOfJoinRight(a, b);
    }
  }

  lemma SliceOfJoinLeft<T>(a: seq<T>, b: seq<T>, i: nat, k: nat)
    requires i <= k <= |a|
    ensures (a + b)[i..k] == a[i..k]
  {
  }

  lemma SliceOfJoinRight<T>(a: seq<T>, b: seq<T>)
    ensures (a + b)[|a|..|a| + |b|] == b
  {
  }

  lemma {:induction false} SourcesLinesCounts(e: Entry, sources: seq<ShiftSource>, debug: bool)
    ensures CountRecords(SourcesLines(e, sources, debug)) == 0
    ensures CountJson(SourcesLines(e, sources, debug)) == if debug then |sources| else 0
    decreases |sources|
  {
    if sources != [] {
      var init := sources[..|sources| - 1];
      var last := SourceLines(e, sources[|sources| - 1], debug);
      SourcesLinesCounts(e, init, debug);
      CountsOfJoin(SourcesLines(e, init, debug), last);
      assert last == [last[0]] + ([last[1]] + last[2..]);
      CountsOfJoin([last[0]], [last[1]] + last[2..]);
      CountsOfJoin([last[1]], last[2..]);
      assert debug ==> last[2..] == [Json(e)];
      assert !debug ==> last[2..] == [];
    }
  }

  /**
   * A layout shift with `s` sources writes one `cls` record and, per source, one
   * rectangle line and one node line; with `debug` the entry's JSON follows each
   * source, so there are exactly `s` JSON lines and none when `s` is zero.
   */
  lemma LayoutShiftFanOut(e: Entry, debug: bool)
    requires e.LayoutShift?
    ensures |LayoutShiftLines(e, debug)| == 1 + BlockStart(|e.sources|, debug)
    ensures CountRecords(LayoutShiftLines(e, debug)) == 1
    ensures CountJson(LayoutShiftLines(e, debug)) == if debug then |e.sources| else 0
  {
    var r := LayoutShiftLines(e, debug);
    SourcesLinesCounts(e, e.sources, debug);
    CountsOfJoin([r[0]], r[1..]);
    assert r == [r[0]] + r[1..];
  }

  // ---- long task (trackLongTasks) ----

  /** A `tbt` record with the task's duration at its start time. */
  function LongTaskLines(e: Entry, debug: bool): (r: seq<Line>)
    requires e.LongTask?
    ensures |r| >= 1 && r[0].Record? && r[0].kind == "tbt" && r[0].time == e.startTime
    ensures r[0].message == IntToString(e.duration) + "ms" && r[1..] == DebugLines(e, debug)
  {
    [Log(IntToString(e.duration) + "ms", e.startTime, "tbt", Undefined)] + DebugLines(e, debug)
  }

  // ---- resource (trackResources) ----

  /** ` (by <initiator>, blocking)` for a render-blocking resource, nothing otherwise. */
  function BlockingSuffix(e: Entry): (s: string)
    requires e.Resource?
    ensures e.renderBlockingStatus != "blocking" ==> s == ""
    ensures e.renderBlockingStatus == "blocking" ==>
      s == " (by " + e.initiatorType + ", blocking)"
  {
    if e.renderBlockingStatus == "blocking"
    then " (by " + e.initiatorType + ", " + e.renderBlockingStatus + ")"
    else ""
  }

  /** A `load` record at the resource's end time, naming it and its blocking status. */
  function ResourceLines(e: Entry, debug: bool): (r: seq<Line>)
    requires e.Resource?
    ensures |r| >= 1 && r[0].Record? && r[0].kind == "load"
    ensures r[0].time == e.startTime + e.duration && r[0].color == Str(LabelColors["load"])
    ensures |r[0].message| >= |e.name| && r[0].message[..|e.name|] == e.name
    ensures r[1..] == DebugLines(e, debug)
    ensures r[0].message[|e.name|..] == BlockingSuffix(e)
  {
    [Log(e.name + BlockingSuffix(e), e.startTime + e.duration, "load", Undefined)] + DebugLines(e, debug)
  }

  // ---- dispatch ----

  /** The name a paint tracker filters on. */
  function PaintName(t: Tracker): string
    requires t == Fcp || t == Fp
  {
    if t == Fcp then "first-contentful-paint" else "first-paint"
  }

  /** Whether a tracker reports an entry: always, except paint entries of another name. */
  predicate Reports(t: Tracker, e: Entry): (b: bool)
    ensures t != Fcp && t != Fp ==> b
    ensures t == Fcp && e.Paint? ==> (b <==> e.name == "first-contentful-paint")
    ensures t == Fp && e.Paint? ==> (b <==> e.name == "first-paint")
  {
    (t == Fcp || t == Fp) ==> e.Paint? && e.name == PaintName(t)
  }

  /** The kind label of the record a tracker writes for an entry. */
  function RecordKind(t: Tracker, e: Entry): string
    requires Observes(t, e)
  {
    match t
    case Dcl => if e.loadEventStart != 0 then "load" else "dcl"
    case Resources => "load"
    case _ => Flag(t)
  }

  /** What a tracker's callback writes for one entry of its observed type. */
  function EntryLines(t: Tracker, debug: bool, e: Entry): (r: seq<Line>)
    requires Observes(t, e)
    ensures r == [] <==> !Reports(t, e)
  {
    match t
    case Dcl => NavigationLines(e, debug)
    case Fcp => PaintLines("first-contentful-paint", "fcp", e, debug)
    case Fp => PaintLines("first-paint", "fp", e, debug)
    case Fid => FirstInputLines(e, debug)
    case Lcp => LargestContentfulPaintLines(e, debug)
    case Cls => LayoutShiftLines(e, debug)
    case Tbt => LongTaskLines(e, debug)
    case Resources => ResourceLines(e, debug)
  }

  /** A reported entry's lines start with a record of the tracker's kind; an unreported entry writes nothing. */
  lemma EntryLinesHead(t: Tracker, debug: bool, e: Entry)
    requires Observes(t, e)
    ensures var r := EntryLines(t, debug, e);
            && (Reports(t, e) ==> |r| >= 1 && r[0].Record? && r[0].kind == RecordKind(t, e))
            && (!Reports(t, e) ==> r == [])
  {
  }

  /** Lines none of which is a `log` record. */
  predicate NoRecords(lines: seq<Line>)
  {
    forall i :: 0 <= i < |lines| ==> !lines[i].Record?
  }

  lemma {:induction false} NoRecordsCount(lines: seq<Line>)
    requires NoRecords(lines)
    ensures CountRecords(lines) == 0
    decreases |lines|
  {
    if lines != [] {
      NoRecordsCount(lines[..|lines| - 1]);
    }
  }

  /** A record followed by auxiliary lines counts as one record. */
  lemma OneRecordCount(r: seq<Line>)
    requires |r| >= 1 && r[0].Record? && NoRecords(r[1..])
    ensures CountRecords(r) == 1
  {
    assert r == [r[0]] + r[1..];
    CountsOfJoin([r[0]], r[1..]);
    NoRecordsCount(r[1..]);
    assert [r[0]][..0] == [];
  }

  /** A record, then (for the first-input and LCP trackers) an object line, then the debug lines. */
  lemma RecordThenAux(r: seq<Line>, e: Entry, debug: bool, objects: nat)
    requires objects <= 1 && |r| >= 1 + objects && r[0].Record?
    requires forall i :: 1 <= i < 1 + objects ==> r[i].Object?
    requires r[1 + objects..] == DebugLines(e, debug)
    ensures CountRecords(r) == 1
  {
    assert NoRecords(r[1..]) by {
      forall i | 0 <= i < |r[1..]| ensures !r[1..][i].Record? {
        if i >= objects {
          assert r[1..][i] == r[1 + objects..][i - objects];
        }
      }
    }
    OneRecordCount(r);
  }

  lemma NavigationRecords(e: Entry, debug: bool)
    requires e.Navigation?
    ensures CountRecords(NavigationLines(e, debug)) == 1
  {
    RecordThenAux(NavigationLines(e, debug), e, debug, 0);
  }

  lemma PaintRecords(wanted: string, kind: string, e: Entry, debug: bool)
    requires e.Paint?
    ensures CountRecords(PaintLines(wanted, kind, e, debug)) == if e.name == wanted then 1 else 0
  {
    if e.name == wanted {
      RecordThenAux(PaintLines(wanted, kind, e, debug), e, debug, 0);
    }
  }

  lemma FirstInputRecords(e: Entry, debug: bool)
    requires e.FirstInput?
    ensures CountRecords(FirstInputLines(e, debug)) == 1
  {
    RecordThenAux(FirstInputLines(e, debug), e, debug, 1);
  }

  lemma LargestContentfulPaintRecords(e: Entry, debug: bool)
    requires e.LargestContentfulPaint?
    ensures CountRecords(LargestContentfulPaintLines(e, debug)) == 1
  {
    RecordThenAux(LargestContentfulPaintLines(e, debug), e, debug, 1);
  }

  lemma LongTaskRecords(e: Entry, debug: bool)
    requires e.LongTask?
    ensures CountRecords(LongTaskLines(e, debug)) == 1
  {
    RecordThenAux(LongTaskLines(e, debug), e, debug, 0);
  }

  lemma ResourceRecords(e: Entry, debug: bool)
    requires e.Resource?
    ensures CountRecords(ResourceLines(e, debug)) == 1
  {
    RecordThenAux(ResourceLines(e, debug), e, debug, 0);
  }

  /** Every reported entry yields exactly one record; the rest of its lines are auxiliary. */
  lemma EntryLinesRecords(t: Tracker, debug: bool, e: Entry)
    requires Observes(t, e)
    ensures CountRecords(EntryLines(t, debug, e)) == if Reports(t, e) then 1 else 0
  {
    match t
    case Dcl => NavigationRecords(e, debug);
    case Fcp => PaintRecords("first-contentful-paint", "fcp", e, debug);
    case Fp => PaintRecords("first-paint", "fp", e, debug);
    case Fid => FirstInputRecords(e, debug);
    case Lcp => LargestContentfulPaintRecords(e, debug);
    case Cls => LayoutShiftFanOut(e, debug);
    case Tbt => LongTaskRecords(e, debug);
    case Resources => ResourceRecords(e, debug);
  }

  // ---- batches ----

  /**
   * What a callback writes for one batch (`list.getEntries().forEach`): each
   * entry's lines, in delivery order, so exactly one record per reported entry.
   */
  function BatchLines(t: Tracker, debug: bool, batch: seq<Entry>): (r: seq<Line>)
    requires ObservesAll(t, batch)
    ensures CountRecords(r) == CountReported(t, batch)
  {
    if batch == [] then []
    else
      var init, last := batch[..|batch| - 1], batch[|batch| - 1];
      EntryLinesRecords(t, debug, last);
      CountsOfJoin(BatchLines(t, debug, init), EntryLines(t, debug, last));
      BatchLines(t, debug, init) + EntryLines(t, debug, last)
  }

  /** How many entries of a batch the tracker reports. */
  function CountReported(t: Tracker, batch: seq<Entry>): nat
  {
    if batch == [] then 0
    else CountReported(t, batch[..|batch| - 1]) + (if Reports(t, batch[|batch| - 1]) then 1 else 0)
  }

  /** Extending a batch by one entry appends that entry's lines. */
  lemma BatchLinesSnoc(t: Tracker, debug: bool, batch: seq<Entry>, e: Entry)
    requires ObservesAll(t, batch) && Observes(t, e)
    ensures ObservesAll(t, batch + [e])
    ensures BatchLines(t, debug, batch + [e]) == BatchLines(t, debug, batch) + EntryLines(t, debug, e)
  {
    assert (batch + [e])[..|batch|] == batch;
  }

  /** The lines of a batch's first `i + 1` entries extend those of its first `i`. */
  lemma BatchLinesPrefix(t: Tracker, debug: bool, batch: seq<Entry>, i: nat)
    requires ObservesAll(t, batch) && i < |batch|
    ensures ObservesAll(t, batch[..i]) && ObservesAll(t, batch[..i + 1])
    ensures BatchLines(t, debug, batch[..i + 1]) == BatchLines(t, debug, batch[..i]) + EntryLines(t, debug, batch[i])
  {
    assert batch[..i] + [batch[i]] == batch[..i + 1];
    BatchLinesSnoc(t, debug, batch[..i], batch[i]);
  }

  /** One step of `BatchLinesOfJoin`: the second part grows by one entry. */
  lemma BatchLinesJoinStep(t: Tracker, debug: bool, b1: seq<Entry>, init: seq<Entry>, last: Entry)
    requires ObservesAll(t, b1) && ObservesAll(t, init) && Observes(t, last)
    requires ObservesAll(t, b1 + init)
    requires BatchLines(t, debug, b1 + init) == BatchLines(t, debug, b1) + BatchLines(t, debug, init)
    ensures ObservesAll(t, (b1 + init) + [last]) && ObservesAll(t, init + [last])
    ensures BatchLines(t, debug, (b1 + init) + [last])
         == BatchLines(t, debug, b1) + BatchLines(t, debug, init + [last])
  {
    var x, y, z := BatchLines(t, debug, b1), BatchLines(t, debug, init), EntryLines(t, debug, last);
    AppendAssoc(x, y, z);
    BatchLinesSnoc(t, debug, init, last);
    BatchLinesSnoc(t, debug, b1 + init, last);
  }

  lemma AppendAssoc<T>(a: seq<T>, b: seq<T>, c: seq<T>)
    ensures (a + b) + c == a + (b + c)
  {
  }

  /**
   * Batches compose: delivering `b1 + b2` writes the lines of `b1` followed by
   * those of `b2`, so the lines of one entry are never interleaved with another's.
   */
  lemma {:induction false} BatchLinesOfJoin(t: Tracker, debug: bool, b1: seq<Entry>, b2: seq<Entry>)
    requires ObservesAll(t, b1) && ObservesAll(t, b2)
    ensures ObservesAll(t, b1 + b2)
    ensures BatchLines(t, debug, b1 + b2) == BatchLines(t, debug, b1) + BatchLines(t, debug, b2)
    decreases |b2|
  {
    if b2 == [] {
      assert b1 + b2 == b1;
    } else {
      var init, last := b2[..|b2| - 1], b2[|b2| - 1];
      assert b2 == init + [last];
      assert b1 + b2 == (b1 + init) + [last];
      BatchLinesOfJoin(t, debug, b1, init);
      BatchLinesJoinStep(t, debug, b1, init, last);
    }
  }
}
