/**
 * The console lines the logger writes: styled records produced by `log`
 * and raw auxiliary lines. A record is rendered as a right-aligned time
 * column, the kind label and the message; the styling arguments only
 * carry the label colour.
 */
module Console {
  import opened Js
  import opened Strings
  import opened Labels
  import opened Entries

  datatype Line =
      /** A `log` record; `color` is the label's background colour. */
    | Record(time: int, kind: string, color: Value, message: string)
      /** The `from`/`to` rectangle rows of one layout-shift source (rendered by `RectText`). */
    | Rects(from: Rect, to: Rect)
      /** `console.log(JSON.stringify(entry))`. */
    | Json(entry: Entry)
      /** `console.log(node)` of a DOM node or of `null`. */
    | Object(node: Option<DomNode>)

  /** The width of the time column. */
  const TimeWidth := 5

  /** `log(message, time, type, colorOverride)`, for an already rounded `time`. */
  function Log(message: string, time: int, kind: string, colorOverride: Value): (r: Line)
    ensures r.Record? && r.time == time && r.kind == kind && r.message == message
    ensures Truthy(r.color)
    ensures Truthy(colorOverride) ==> r.color == colorOverride
    ensures !Truthy(colorOverride) ==> r.color == LabelColor(kind, Undefined)
  {
    Record(time, kind, LabelColor(kind, colorOverride), message)
  }

  /** `Math.round(time).toString().padStart(5, ' ')`. */
  function TimeColumn(time: int): (c: string)
    ensures |c| == Max(|IntToString(time)|, TimeWidth)
    ensures c[|c| - |IntToString(time)|..] == IntToString(time)
    ensures forall i :: 0 <= i < |c| - |IntToString(time)| ==> c[i] == ' '
  {
    PadStart(IntToString(time), TimeWidth, " ")
  }

  /** The time column is the integer's text behind spaces: trimming them reads the time back. */
  lemma TimeColumnReadsBack(time: int)
    ensures TrimLeadingSpaces(TimeColumn(time)) == IntToString(time)
    ensures ParseInt(TrimLeadingSpaces(TimeColumn(time))) == Some(time)
  {
    var c, d := TimeColumn(time), IntToString(time);
    var p := c[..|c| - |d|];
    assert c == p + d;
    TrimSpacePrefix(p, d);
    IntToStringRoundTrip(time);
  }

  /** The visible text of a record: time column, kind label and message, space separated. */
  function RecordText(r: Line): (s: string)
    requires r.Record?
    ensures var c, k := TimeColumn(r.time), |TimeColumn(r.time)| + 1 + |r.kind|;
      && |s| == k + 1 + |r.message| && |c| >= TimeWidth
      && s[..|c|] == c && s[|c|] == ' '
      && s[|c| + 1..k] == r.kind && s[k] == ' '
      && s[k + 1..] == r.message
  {
    TimeColumn(r.time) + " " + r.kind + " " + r.message
  }

  /** What a reader of the console recovers from a record's text. */
  datatype Fields = Fields(time: int, kind: string, message: string)

  /** A kind label is a non-empty word without spaces. */
  predicate IsToken(s: string)
  {
    |s| > 0 && forall i :: 0 <= i < |s| ==> s[i] != ' '
  }

  /** Reads a record's text back: the time, the first word after it and the rest. */
  function ParseRecord(s: string): Option<Fields>
  {
    var rest := TrimLeadingSpaces(s);
    var number := Token(rest);
    var afterNumber := rest[|number|..];
    match ParseInt(number)
    case None => None
    case Some(time) => ParseLabel(time, afterNumber)
  }

  /** Reads the kind label and the message that follow the time. */
  function ParseLabel(time: int, afterNumber: string): Option<Fields>
  {
    if afterNumber == [] then None
    else
      var kind := Token(afterNumber[1..]);
      var afterKind := afterNumber[1..][|kind|..];
      if kind == [] || afterKind == [] then None
      else Some(Fields(time, kind, afterKind[1..]))
  }

  /** The label and message behind the time are read back as written. */
  lemma ParseLabelWords(time: int, kind: string, message: string)
    requires IsToken(kind)
    ensures ParseLabel(time, " " + kind + " " + message) == Some(Fields(time, kind, message))
  {
    var words := (" " + kind + " " + message)[1..];
    assert words == kind + (" " + message);
    TokenOfJoin(kind, " " + message);
    assert words[|kind|..] == " " + message;
  }

  /**
   * Every record whose kind is a word renders to a line from which its time,
   * kind and message are read back unchanged, whatever the message holds.
   */
  lemma RecordTextRoundTrip(r: Line)
    requires r.Record? && IsToken(r.kind)
    ensures ParseRecord(RecordText(r)) == Some(Fields(r.time, r.kind, r.message))
  {
    var d := IntToString(r.time);
    var tail := " " + r.kind + " " + r.message;
    var p := TimePadding(r.time);
    assert RecordText(r) == p + (d + tail);
    ParseAfterSpaces(p, d + tail);
    IntToStringRoundTrip(r.time);
    ParseWords(d, r.time, r.kind, r.message);
  }

  /** The time column is some spaces followed by the time's text. */
  lemma TimePadding(time: int) returns (p: string)
    ensures TimeColumn(time) == p + IntToString(time)
    ensures forall i :: 0 <= i < |p| ==> p[i] == ' '
  {
    var c, d := TimeColumn(time), IntToString(time);
    p := c[..|c| - |d|];
    assert c == p + d;
  }

  /** Leading spaces do not change what is parsed. */
  lemma ParseAfterSpaces(p: string, v: string)
    requires forall i :: 0 <= i < |p| ==> p[i] == ' '
    requires v != [] && v[0] != ' '
    ensures ParseRecord(p + v) == ParseRecord(v)
  {
    TrimSpacePrefix(p, v);
    TrimSpacePrefix([], v);
    assert [] + v == v;
  }

  /** The parse of a record's text once the leading spaces are gone. */
  lemma ParseWords(d: string, time: int, kind: string, message: string)
    requires ParseInt(d) == Some(time) && |d| > 0 && d[0] != ' '
    requires forall i :: 0 <= i < |d| ==> d[i] != ' '
    requires IsToken(kind)
    ensures TrimLeadingSpaces(d + (" " + kind + " " + message)) == d + (" " + kind + " " + message)
    ensures ParseRecord(d + (" " + kind + " " + message)) == Some(Fields(time, kind, message))
  {
    var tail := " " + kind + " " + message;
    var rest := d + tail;
    TokenOfJoin(d, tail);
    assert Token(rest) == d;
    assert rest[|d|..] == tail;
    ParseLabelWords(time, kind, message);
  }

}
