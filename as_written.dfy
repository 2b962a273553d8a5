/**
 * The callbacks as the code is written, where the rest of the model uses the
 * corrected behaviour. Two things can throw inside a callback: reading
 * `options.debug` when `init` was called without an argument (the trackers
 * receive the raw `options`, not the merged `config`), and reading
 * `node.nodeType` of a layout-shift source whose `node` is null. A throw ends
 * the callback, so the rest of the batch writes nothing.
 *
 * The code reads `options.debug` from the caller's own object at every
 * delivery. Here the object is a value fixed at `init`, so what is said about
 * an options object holds while the caller leaves its `debug` unchanged.
 */
module AsWritten {
  import opened Js
  import opened Strings
  import opened Config
  import opened Entries
  import opened Console
  import opened Trackers

  /** What a callback wrote before it returned or threw, and whether it threw. */
  datatype Outcome = Outcome(lines: seq<Line>, threw: bool)

  /** `options.debug` on the raw argument: a TypeError when the argument is `undefined` or `null`. */
  function ReadDebug(options: CallerOptions): (r: Option<bool>)
    ensures r.None? <==> options.NoOptions?
    ensures options.Options? ==> r == Some(MergedDebug(options))
  {
    match options
    case NoOptions => None
    case Options(fields) =>
      DebugOfObjectAgreesWithMerge(fields);
      Some(Truthy(Get(fields, "debug")))
  }

  /** Output that stopped within `x` is a prefix of `x + y`. */
  lemma StoppedPrefix(a: seq<Line>, x: seq<Line>, y: seq<Line>)
    requires a <= x
    ensures a <= x + y
  {
    assert (x + y)[..|a|] == x[..|a|];
  }

  /** All of `x` followed by a prefix of `y` is a prefix of `x + y`. */
  lemma JoinPrefix(x: seq<Line>, b: seq<Line>, y: seq<Line>)
    requires b <= y
    ensures x + b <= x + y
  {
    assert (x + y)[..|x + b|] == x + b;
  }

  /**
   * One source of a layout shift: rectangle rows, then `node.nodeType`, then
   * `options.debug`. What it writes is always the start of what the corrected
   * model writes, and all of it unless it throws.
   */
  function SourceOutcome(e: Entry, s: ShiftSource, options: CallerOptions): (r: Outcome)
    ensures r.lines <= SourceLines(e, s, MergedDebug(options))
    ensures !r.threw ==> r.lines == SourceLines(e, s, MergedDebug(options))
    ensures r.threw <==> SourceThrows(s, options)
  {
    if s.node.None? then Outcome([Rects(s.previousRect, s.currentRect)], true)
    else match ReadDebug(options)
      case None =>
        NoOptionsDebugOff();
        Outcome([Rects(s.previousRect, s.currentRect), Object(InspectedNode(s.node))], true)
      case Some(debug) => Outcome(SourceLines(e, s, debug), false)
  }

  /**
   * What one source as written writes before it throws: the rectangle rows when
   * its node is null, and also the inspected node when `init` got no argument.
   */
  lemma SourceOutcomeBeforeThrow(e: Entry, s: ShiftSource, options: CallerOptions)
    ensures SourceOutcome(e, s, options).threw ==>
      SourceOutcome(e, s, options).lines == SourceLines(e, s, false)[..if s.node.None? then 1 else 2]
  {
    var rows := SourceLines(e, s, false);
    assert rows[..1] == [rows[0]] && rows[..2] == [rows[0], rows[1]];
  }

  /** Whether one source as written throws: its node is null, or `init` got no argument. */
  predicate SourceThrows(s: ShiftSource, options: CallerOptions)
  {
    s.node.None? || options.NoOptions?
  }

  /** The position of the first source that throws, or the number of sources when none does. */
  function FirstThrowing(sources: seq<ShiftSource>, options: CallerOptions): (j: nat)
    ensures j <= |sources|
    ensures forall i :: 0 <= i < j ==> !SourceThrows(sources[i], options)
    ensures j < |sources| ==> SourceThrows(sources[j], options)
  {
    if sources == [] then 0
    else
      var j := FirstThrowing(sources[..|sources| - 1], options);
      if j < |sources| - 1 then j
      else if SourceThrows(sources[|sources| - 1], options) then |sources| - 1
      else |sources|
  }

  /**
   * The sources in order, stopping at the first that throws: it throws iff some
   * source throws, and then it has written every source before the first
   * throwing one in full, followed by what that source wrote before throwing.
   */
  function SourcesOutcome(e: Entry, sources: seq<ShiftSource>, options: CallerOptions): (r: Outcome)
    ensures r.lines <= SourcesLines(e, sources, MergedDebug(options))
    ensures !r.threw ==> r.lines == SourcesLines(e, sources, MergedDebug(options))
    ensures r.threw <==> FirstThrowing(sources, options) < |sources|
    ensures r.threw ==>
      var j := FirstThrowing(sources, options);
      r.lines == SourcesLines(e, sources[..j], MergedDebug(options)) + SourceOutcome(e, sources[j], options).lines
  {
    if sources == [] then Outcome([], false)
    else
      var init := sources[..|sources| - 1];
      var before := SourcesOutcome(e, init, options);
      var debug := MergedDebug(options);
      var j := FirstThrowing(init, options);
      if before.threw then
        StoppedPrefix(before.lines, SourcesLines(e, init, debug),
                      SourceLines(e, sources[|sources| - 1], debug));
        assert sources[..j] == init[..j] && sources[j] == init[j];
        before
      else
        var last := SourceOutcome(e, sources[|sources| - 1], options);
        JoinPrefix(before.lines, last.lines, SourceLines(e, sources[|sources| - 1], debug));
        assert j == |init| && sources[..j] == init;
        Outcome(before.lines + last.lines, last.threw)
  }

  /** One entry: the tracker's lines up to the point where reading `options.debug` throws. */
  function EntryOutcome(t: Tracker, options: CallerOptions, e: Entry): (r: Outcome)
    requires Observes(t, e)
    ensures r.lines <= EntryLines(t, MergedDebug(options), e)
    ensures !r.threw ==> r.lines == EntryLines(t, MergedDebug(options), e)
    ensures r.threw <==> EntryThrows(t, options, e)
  {
    if !Reports(t, e) then
      EntryLinesHead(t, MergedDebug(options), e);
      Outcome([], false)
    else if t == Cls then
      var rest := SourcesOutcome(e, e.sources, options);
      var record := Log(e.scoreText + "ms", e.startTime, "cls", Undefined);
      JoinPrefix([record], rest.lines, SourcesLines(e, e.sources, MergedDebug(options)));
      Outcome([record] + rest.lines, rest.threw)
    else match ReadDebug(options)
      case None =>
        NoOptionsDebugOff();
        Outcome(EntryLines(t, false, e), true)
      case Some(debug) => Outcome(EntryLines(t, debug, e), false)
  }

  /**
   * What one entry as written writes: outside the layout-shift tracker a throw
   * comes only after all the lines the tracker writes without `debug` (the
   * record and its auxiliary line); the layout-shift tracker writes the score
   * record, then whatever the sources as written write.
   */
  lemma EntryOutcomeBeforeThrow(t: Tracker, options: CallerOptions, e: Entry)
    requires Observes(t, e)
    ensures t != Cls && EntryOutcome(t, options, e).threw ==> EntryOutcome(t, options, e).lines == EntryLines(t, false, e)
    ensures t == Cls ==>
      EntryOutcome(t, options, e).lines
        == [Log(e.scoreText + "ms", e.startTime, "cls", Undefined)] + SourcesOutcome(e, e.sources, options).lines
  {
  }

  /** Whether the callback as written throws on entry `e`: a layout shift when one of its sources throws, any other reported entry when `init` got no argument. */
  predicate EntryThrows(t: Tracker, options: CallerOptions, e: Entry)
    requires Observes(t, e)
  {
    if t == Cls then FirstThrowing(e.sources, options) < |e.sources|
    else Reports(t, e) && options.NoOptions?
  }

  /** The position of the first entry that throws, or the length of the batch when none does. */
  function FirstThrowingEntry(t: Tracker, options: CallerOptions, batch: seq<Entry>): (j: nat)
    requires ObservesAll(t, batch)
    ensures j <= |batch|
    ensures forall i :: 0 <= i < j ==> !EntryThrows(t, options, batch[i])
    ensures j < |batch| ==> EntryThrows(t, options, batch[j])
  {
    if batch == [] then 0
    else
      var init := batch[..|batch| - 1];
      assert forall i :: 0 <= i < |init| ==> init[i] == batch[i];
      var j := FirstThrowingEntry(t, options, init);
      if j < |init| then j
      else if EntryThrows(t, options, batch[|init|]) then |init|
      else |batch|
  }

  /**
   * One batch: the entries in order, stopping at the first that throws. It
   * throws iff some entry throws, and then it has written every entry before
   * the first throwing one in full, followed by what that entry wrote.
   */
  function BatchOutcome(t: Tracker, options: CallerOptions, batch: seq<Entry>): (r: Outcome)
    requires ObservesAll(t, batch)
    ensures r.lines <= BatchLines(t, MergedDebug(options), batch)
    ensures !r.threw ==> r.lines == BatchLines(t, MergedDebug(options), batch)
    ensures r.threw <==> FirstThrowingEntry(t, options, batch) < |batch|
    ensures r.threw ==>
      var j := FirstThrowingEntry(t, options, batch);
      ObservesAll(t, batch[..j]) &&
      r.lines == BatchLines(t, MergedDebug(options), batch[..j]) + EntryOutcome(t, options, batch[j]).lines
  {
    if batch == [] then Outcome([], false)
    else
      var init, last := batch[..|batch| - 1], batch[|batch| - 1];
      var debug := MergedDebug(options);
      assert batch == init + [last];
      BatchLinesSnoc(t, debug, init, last);
      var before := BatchOutcome(t, options, init);
      var j := FirstThrowingEntry(t, options, init);
      if before.threw then
        StoppedPrefix(before.lines, BatchLines(t, debug, init), EntryLines(t, debug, last));
        PrefixOfInit(batch, j);
        before
      else
        var after := EntryOutcome(t, options, last);
        JoinPrefix(before.lines, after.lines, EntryLines(t, debug, last));
        assert j == |init|;
        Outcome(before.lines + after.lines, after.threw)
  }

  /** Below the last position, a sequence and the sequence without its last element agree. */
  lemma PrefixOfInit<T>(s: seq<T>, j: nat)
    requires j < |s| - 1
    ensures s[..j] == s[..|s| - 1][..j] && s[j] == s[..|s| - 1][j]
  {
  }

  /** Every layout-shift source in the batch has a node. */
  predicate NodesPresent(batch: seq<Entry>)
  {
    forall i, j :: 0 <= i < |batch| && batch[i].LayoutShift? && 0 <= j < |batch[i].sources| ==>
      batch[i].sources[j].node.Some?
  }

  lemma {:induction false} SourcesAgree(e: Entry, sources: seq<ShiftSource>, fields: map<string, Value>)
    requires forall j :: 0 <= j < |sources| ==> sources[j].node.Some?
    ensures SourcesOutcome(e, sources, Options(fields))
         == Outcome(SourcesLines(e, sources, MergedDebug(Options(fields))), false)
    decreases |sources|
  {
    if sources != [] {
      SourcesAgree(e, sources[..|sources| - 1], fields);
    }
  }

  lemma EntryAgrees(t: Tracker, fields: map<string, Value>, e: Entry)
    requires Observes(t, e)
    requires e.LayoutShift? ==> forall j :: 0 <= j < |e.sources| ==> e.sources[j].node.Some?
    ensures EntryOutcome(t, Options(fields), e)
         == Outcome(EntryLines(t, MergedDebug(Options(fields)), e), false)
  {
    EntryLinesHead(t, MergedDebug(Options(fields)), e);
    if Reports(t, e) && t == Cls {
      SourcesAgree(e, e.sources, fields);
    }
  }

  /**
   * When `init` was given an options object and every layout-shift source has
   * a node, the code as written writes exactly the corrected model's lines and
   * never throws, as long as the caller has not changed the object's `debug`
   * since `init`.
   */
  lemma {:induction false} AgreesWithOptionsAndNodes(t: Tracker, fields: map<string, Value>, batch: seq<Entry>)
    requires ObservesAll(t, batch) && NodesPresent(batch)
    ensures BatchOutcome(t, Options(fields), batch)
         == Outcome(BatchLines(t, MergedDebug(Options(fields)), batch), false)
    decreases |batch|
  {
    if batch != [] {
      var init, last := batch[..|batch| - 1], batch[|batch| - 1];
      assert batch == init + [last];
      AgreesWithOptionsAndNodes(t, fields, init);
      EntryAgrees(t, fields, last);
      BatchLinesSnoc(t, MergedDebug(Options(fields)), init, last);
    }
  }

  /** Without an argument the merged `debug` flag is the default, false. */
  lemma NoOptionsDebugOff()
    ensures !MergedDebug(NoOptions)
  {
    assert Merge(NoOptions) == Defaults;
    assert Defaults["debug"] == Bool(false);
  }

  /** The corrected callback writes both tasks' records. */
  lemma TwoLongTasks(a: Entry, b: Entry)
    requires a.LongTask? && b.LongTask?
    ensures BatchLines(Tbt, false, [a, b]) == LongTaskLines(a, false) + LongTaskLines(b, false)
    ensures CountRecords(BatchLines(Tbt, false, [a, b])) == 2
  {
    assert [] + [a] == [a] && [a] + [b] == [a, b];
    BatchLinesSnoc(Tbt, false, [], a);
    BatchLinesSnoc(Tbt, false, [a], b);
    LongTaskRecords(a, false);
    LongTaskRecords(b, false);
    CountsOfJoin(LongTaskLines(a, false), LongTaskLines(b, false));
  }

  /**
   * `init()` without an argument: a batch of two long tasks writes the first
   * task's record and then throws, where the merged configuration
   * (`debug` false) writes the records of both tasks.
   */
  lemma NoOptionsLosesRestOfBatch(a: Entry, b: Entry)
    requires a.LongTask? && b.LongTask?
    ensures BatchOutcome(Tbt, NoOptions, [a, b]) == Outcome(LongTaskLines(a, false), true)
    ensures CountRecords(BatchOutcome(Tbt, NoOptions, [a, b]).lines) == 1
    ensures BatchLines(Tbt, MergedDebug(NoOptions), [a, b])
         == LongTaskLines(a, false) + LongTaskLines(b, false)
    ensures CountRecords(BatchLines(Tbt, MergedDebug(NoOptions), [a, b])) == 2
  {
    NoOptionsStopsAfterFirst(a, b);
    LongTaskRecords(a, false);
    NoOptionsDebugOff();
    TwoLongTasks(a, b);
  }

  /** As written, without an argument the first long task of two throws. */
  lemma NoOptionsStopsAfterFirst(a: Entry, b: Entry)
    requires a.LongTask? && b.LongTask?
    ensures BatchOutcome(Tbt, NoOptions, [a, b]) == Outcome(LongTaskLines(a, false), true)
  {
    assert [a] + [b] == [a, b];
    BatchOutcomeOfOne(Tbt, NoOptions, a);
    NoOptionsLongTask(a);
    BatchOutcomeStopped(Tbt, NoOptions, [a], b);
  }

  /** Without an argument, reading `options.debug` for a long task throws after its record. */
  lemma NoOptionsLongTask(a: Entry)
    requires a.LongTask?
    ensures EntryOutcome(Tbt, NoOptions, a) == Outcome(LongTaskLines(a, false), true)
  {
    NoOptionsDebugOff();
  }

  /** Once an entry of the batch has thrown, the later entries add nothing. */
  lemma BatchOutcomeStopped(t: Tracker, options: CallerOptions, init: seq<Entry>, last: Entry)
    requires ObservesAll(t, init) && Observes(t, last)
    requires BatchOutcome(t, options, init).threw
    ensures ObservesAll(t, init + [last])
    ensures BatchOutcome(t, options, init + [last]) == BatchOutcome(t, options, init)
  {
    var batch := init + [last];
    ObservesAllSnoc(t, init, last);
    FirstThrowingEntryStopped(t, options, init, last);
    PrefixOfInit(batch, FirstThrowingEntry(t, options, init));
  }

  lemma ObservesAllSnoc(t: Tracker, init: seq<Entry>, last: Entry)
    requires ObservesAll(t, init) && Observes(t, last)
    ensures ObservesAll(t, init + [last]) && (init + [last])[..|init|] == init
  {
    var batch := init + [last];
    forall i | 0 <= i < |batch| ensures Observes(t, batch[i]) {
      if i < |init| { assert batch[i] == init[i]; }
    }
  }

  /** Once some entry has thrown, a further entry leaves the first throwing position where it was. */
  lemma FirstThrowingEntryStopped(t: Tracker, options: CallerOptions, init: seq<Entry>, last: Entry)
    requires ObservesAll(t, init) && Observes(t, last) && ObservesAll(t, init + [last])
    requires FirstThrowingEntry(t, options, init) < |init|
    ensures FirstThrowingEntry(t, options, init + [last]) == FirstThrowingEntry(t, options, init)
  {
    SnocParts(init, last);
  }

  /** `s + [x]` without its last element is `s`, and that element is `x`. */
  lemma SnocParts<T>(s: seq<T>, x: T)
    ensures (s + [x])[..|s|] == s && (s + [x])[|s|] == x
  {
  }

  /** A one-entry batch as written is that entry's outcome. */
  lemma BatchOutcomeOfOne(t: Tracker, options: CallerOptions, e: Entry)
    requires Observes(t, e)
    ensures ObservesAll(t, [e])
    ensures BatchOutcome(t, options, [e]) == EntryOutcome(t, options, e)
  {
    assert [e][..0] == [];
    assert [] + EntryOutcome(t, options, e).lines == EntryOutcome(t, options, e).lines;
  }

  /** Two sources as written: the first, then the second unless the first threw. */
  lemma SourcesOutcomeOfTwo(e: Entry, a: ShiftSource, b: ShiftSource, options: CallerOptions)
    ensures var first, second := SourceOutcome(e, a, options), SourceOutcome(e, b, options);
            (SourcesOutcome(e, [a, b], options)
             == if first.threw then first else Outcome(first.lines + second.lines, second.threw))
  {
    assert [] + [a] == [a] && [a] + [b] == [a, b];
    SourcesOutcomeSnoc(e, [], a, options);
    SourcesOutcomeSnoc(e, [a], b, options);
    var first := SourceOutcome(e, a, options);
    assert [] + first.lines == first.lines;
  }

  /** One more source as written: nothing after a throw, else that source's outcome appended. */
  lemma SourcesOutcomeSnoc(e: Entry, init: seq<ShiftSource>, s: ShiftSource, options: CallerOptions)
    ensures var before, last := SourcesOutcome(e, init, options), SourceOutcome(e, s, options);
            (SourcesOutcome(e, init + [s], options)
             == if before.threw then before else Outcome(before.lines + last.lines, last.threw))
  {
    var sources := init + [s];
    assert sources[..|sources| - 1] == init && sources[|sources| - 1] == s;
  }

  /** The corrected lines of two sources: the first's, then the second's. */
  lemma SourcesLinesOfTwo(e: Entry, a: ShiftSource, b: ShiftSource, debug: bool)
    ensures SourcesLines(e, [a, b], debug) == SourceLines(e, a, debug) + SourceLines(e, b, debug)
  {
    assert [a][..0] == [] && [a][0] == a;
    assert [a, b][..1] == [a] && [a, b][1] == b;
    assert [] + SourceLines(e, a, debug) == SourceLines(e, a, debug);
    assert SourcesLines(e, [a], debug) == SourceLines(e, a, debug);
  }

  /** The corrected lines of a one-entry batch are that entry's lines. */
  lemma BatchLinesOfOne(t: Tracker, debug: bool, e: Entry)
    requires Observes(t, e)
    ensures ObservesAll(t, [e])
    ensures BatchLines(t, debug, [e]) == EntryLines(t, debug, e)
  {
    BatchLinesSnoc(t, debug, [], e);
    assert [] + [e] == [e];
    assert [] + EntryLines(t, debug, e) == EntryLines(t, debug, e);
  }

  /**
   * A layout shift whose first source has a null `node`: the score record and
   * the first rectangle are written, then `node.nodeType` throws and the second
   * source is lost; the corrected model logs `null` and goes on.
   */
  lemma NullNodeLosesRestOfBatch(e: Entry, r: Rect, n: DomNode)
    requires e.LayoutShift? && e.sources == [ShiftSource(r, r, None), ShiftSource(r, r, Some(n))]
    requires n.nodeType != TEXT_NODE
    ensures BatchOutcome(Cls, Options(map[]), [e])
         == Outcome([Log(e.scoreText + "ms", e.startTime, "cls", Undefined), Rects(r, r)], true)
    ensures BatchLines(Cls, false, [e])
         == [Log(e.scoreText + "ms", e.startTime, "cls", Undefined), Rects(r, r), Object(None), Rects(r, r), Object(Some(n))]
  {
    NullNodeOutcome(e, r, n);
    BatchOutcomeOfOne(Cls, Options(map[]), e);
    NullNodeCorrectedLines(e, r, n);
    BatchLinesOfOne(Cls, false, e);
  }

  /** The layout-shift callback as written on that entry: the score, one rectangle pair, then the throw. */
  lemma NullNodeOutcome(e: Entry, r: Rect, n: DomNode)
    requires e.LayoutShift? && e.sources == [ShiftSource(r, r, None), ShiftSource(r, r, Some(n))]
    ensures EntryOutcome(Cls, Options(map[]), e)
         == Outcome([Log(e.scoreText + "ms", e.startTime, "cls", Undefined), Rects(r, r)], true)
  {
    var a, b := ShiftSource(r, r, None), ShiftSource(r, r, Some(n));
    var record := Log(e.scoreText + "ms", e.startTime, "cls", Undefined);
    assert [record] + [Rects(r, r)] == [record, Rects(r, r)];
    assert SourceOutcome(e, a, Options(map[])) == Outcome([Rects(r, r)], true);
    SourcesOutcomeOfTwo(e, a, b, Options(map[]));
    assert SourcesOutcome(e, e.sources, Options(map[])) == Outcome([Rects(r, r)], true);
    assert Reports(Cls, e);
  }

  /** The corrected layout-shift lines of that entry: both sources, the null node logged as `null`. */
  lemma NullNodeCorrectedLines(e: Entry, r: Rect, n: DomNode)
    requires e.LayoutShift? && e.sources == [ShiftSource(r, r, None), ShiftSource(r, r, Some(n))]
    requires n.nodeType != TEXT_NODE
    ensures EntryLines(Cls, false, e)
         == [Log(e.scoreText + "ms", e.startTime, "cls", Undefined), Rects(r, r), Object(None), Rects(r, r), Object(Some(n))]
  {
    var a, b := ShiftSource(r, r, None), ShiftSource(r, r, Some(n));
    SourcesLinesOfTwo(e, a, b, false);
    assert SourceLines(e, a, false) == [Rects(r, r), Object(None)];
    assert SourceLines(e, b, false) == [Rects(r, r), Object(Some(n))];
  }
}
