/**
 * The page the logger runs in: its console, which every `log` and
 * `console.log` call appends to, and the performance observers `init` has
 * registered. `init` writes the startup record and registers the trackers;
 * a registered observer's callback later receives batches of entries and
 * writes their lines.
 */
module Logger {
  import opened Js
  import opened Config
  import opened Entries
  import opened Console
  import opened Trackers
  import opened Registration

  /** The message of the record `init` writes before anything else. */
  const StartMessage := "Starting Franklin performance logger"

  /** A registered observer: its tracker and the `debug` flag its callback reads. */
  datatype Observer = Observer(tracker: Tracker, debug: bool)

  /** The observers for a list of registered trackers, all reading the same `debug` flag. */
  function Bind(ts: seq<Tracker>, debug: bool): (os: seq<Observer>)
    ensures |os| == |ts|
    ensures forall i :: 0 <= i < |ts| ==> os[i] == Observer(ts[i], debug)
  {
    if ts == [] then [] else Bind(ts[..|ts| - 1], debug) + [Observer(ts[|ts| - 1], debug)]
  }

  lemma BindSnoc(ts: seq<Tracker>, t: Tracker, debug: bool)
    ensures Bind(ts + [t], debug) == Bind(ts, debug) + [Observer(t, debug)]
  {
  }

  /** The registration run over the fixed order, written out block by block. */
  lemma RunOrderUnrolled(p: Progress, on: set<Tracker>, rejected: set<Tracker>)
    ensures Run(Order, p, on, rejected)
         == Step(Step(Step(Step(Step(Step(Step(Step(p, Dcl, on, rejected), Fcp, on, rejected), Fp, on, rejected),
              Fid, on, rejected), Lcp, on, rejected), Cls, on, rejected), Tbt, on, rejected), Resources, on, rejected)
  {
    assert Order[1..] == [Fcp, Fp, Fid, Lcp, Cls, Tbt, Resources];
    assert Order[1..][1..] == [Fp, Fid, Lcp, Cls, Tbt, Resources];
    assert Order[1..][1..][1..] == [Fid, Lcp, Cls, Tbt, Resources];
    assert Order[1..][1..][1..][1..] == [Lcp, Cls, Tbt, Resources];
    assert Order[1..][1..][1..][1..][1..] == [Cls, Tbt, Resources];
    assert Order[1..][1..][1..][1..][1..][1..] == [Tbt, Resources];
    assert Order[1..][1..][1..][1..][1..][1..][1..] == [Resources];
    assert Order[1..][1..][1..][1..][1..][1..][1..][1..] == [];
  }

  class Page {
    /** Everything written to the console, in order. */
    var console: seq<Line>
    /** The performance observers registered so far, in registration order. */
    var observers: seq<Observer>

    constructor()
      ensures console == [] && observers == []
    {
      console := [];
      observers := [];
    }

    /**
     * `new PerformanceObserver(callback).observe({ type, buffered: true })`:
     * throws when the host does not support the tracker's entry type, one of `types`.
     */
    method Observe(t: Tracker, debug: bool, types: set<string>) returns (thrown: bool)
      modifies this
      ensures thrown <==> ObservedType(t) in types
      ensures console == old(console)
      ensures observers == if thrown then old(observers) else old(observers) + [Observer(t, debug)]
    {
      thrown := ObservedType(t) in types;
      if !thrown {
        observers := observers + [Observer(t, debug)];
      }
    }

    /**
     * One `if (config.flag) trackX(…)` block of the `try`, where `enabled` is
     * the flag's truthiness, skipped once an earlier block threw; `p` follows
     * the registration run over the switched-on trackers `on`.
     */
    method Block(t: Tracker, enabled: bool, ghost on: set<Tracker>, debug: bool, types: set<string>,
                 thrown: bool, ghost base: seq<Observer>, ghost p: Progress)
      returns (thrownAfter: bool, ghost q: Progress)
      requires enabled <==> t in on
      requires p.running <==> !thrown
      requires observers == base + Bind(p.registered, debug)
      modifies this
      ensures q == Step(p, t, on, Refused(types))
      ensures q.running <==> !thrownAfter
      ensures observers == base + Bind(q.registered, debug)
      ensures console == old(console)
    {
      thrownAfter := thrown;
      if !thrown && enabled {
        thrownAfter := Observe(t, debug, types);
        BindSnoc(p.registered, t, debug);
        AppendAssoc(base, Bind(p.registered, debug), [Observer(t, debug)]);
      }
      q := Step(p, t, on, Refused(types));
    }

    /**
     * `init(options)` at time `now` on a host that rejects the entry types
     * `types`: one startup record, then the registrations of the enabled
     * trackers in the fixed order up to the first that throws. Each callback
     * reads `debug` from the merged configuration.
     */
    method Init(options: CallerOptions, now: int, types: set<string>)
      modifies this
      ensures console == old(console) + [Log(StartMessage, now, "misc", Undefined)]
      ensures observers == old(observers) + Bind(Registered(Merge(options), types), MergedDebug(options))
    {
      console := console + [Log(StartMessage, now, "misc", Undefined)];
      var config := Merge(options);
      var debug := Enabled(config, "debug");
      ghost var on := SwitchedOn(config);
      ghost var base := observers;
      ghost var p := Progress([], true);
      var thrown := false;
      thrown, p := Block(Dcl, Enabled(config, Flag(Dcl)), on, debug, types, thrown, base, p);
      thrown, p := Block(Fcp, Enabled(config, Flag(Fcp)), on, debug, types, thrown, base, p);
      thrown, p := Block(Fp, Enabled(config, Flag(Fp)), on, debug, types, thrown, base, p);
      thrown, p := Block(Fid, Enabled(config, Flag(Fid)), on, debug, types, thrown, base, p);
      thrown, p := Block(Lcp, Enabled(config, Flag(Lcp)), on, debug, types, thrown, base, p);
      thrown, p := Block(Cls, Enabled(config, Flag(Cls)), on, debug, types, thrown, base, p);
      thrown, p := Block(Tbt, Enabled(config, Flag(Tbt)), on, debug, types, thrown, base, p);
      thrown, p := Block(Resources, Enabled(config, Flag(Resources)), on, debug, types, thrown, base, p);
      RunOrderUnrolled(Progress([], true), on, Refused(types));
    }

    /**
     * The inner `entry.sources.forEach` of the layout-shift callback: per
     * source, the rectangle rows, the inspected node and, with `debug`, the entry.
     */
    method WriteSources(e: Entry, debug: bool)
      requires e.LayoutShift?
      modifies this
      ensures console == old(console) + SourcesLines(e, e.sources, debug)
      ensures observers == old(observers)
    {
      var j := 0;
      while j < |e.sources|
        invariant 0 <= j <= |e.sources|
        invariant console == old(console) + SourcesLines(e, e.sources[..j], debug)
        invariant observers == old(observers)
      {
        var s := e.sources[j];
        console := console + [Rects(s.previousRect, s.currentRect)];
        console := console + [Object(InspectedNode(s.node))];
        if debug {
          console := console + [Json(e)];
        }
        assert e.sources[..j + 1][..j] == e.sources[..j];
        j := j + 1;
      }
      assert e.sources[..j] == e.sources;
    }

    /** The layout-shift callback's work for one entry: the score record, then every source. */
    method WriteLayoutShift(e: Entry, debug: bool)
      requires e.LayoutShift?
      modifies this
      ensures console == old(console) + LayoutShiftLines(e, debug)
      ensures observers == old(observers)
    {
      console := console + [Log(e.scoreText + "ms", e.startTime, "cls", Undefined)];
      WriteSources(e, debug);
    }

    /** The callback's work for one entry of a batch. */
    method WriteEntry(t: Tracker, debug: bool, e: Entry)
      requires Observes(t, e)
      modifies this
      ensures console == old(console) + EntryLines(t, debug, e)
      ensures observers == old(observers)
    {
      if t == Cls {
        WriteLayoutShift(e, debug);
      } else {
        console := console + EntryLines(t, debug, e);
      }
    }

    /** One iteration of the callback's `forEach`: the lines of entry `i` follow those before it. */
    method WriteNext(t: Tracker, debug: bool, batch: seq<Entry>, i: nat, ghost base: seq<Line>)
      requires ObservesAll(t, batch) && i < |batch|
      requires console == base + BatchLines(t, debug, batch[..i])
      modifies this
      ensures console == base + BatchLines(t, debug, batch[..i + 1])
      ensures observers == old(observers)
    {
      BatchLinesPrefix(t, debug, batch, i);
      WriteEntry(t, debug, batch[i]);
      AppendAssoc(base, BatchLines(t, debug, batch[..i]), EntryLines(t, debug, batch[i]));
    }

    /**
     * The callback of observer `k` receiving one batch of entries of its type
     * (`list.getEntries()`): each entry's lines, in delivery order.
     */
    method Deliver(k: nat, batch: seq<Entry>)
      requires k < |observers| && ObservesAll(observers[k].tracker, batch)
      modifies this
      ensures observers == old(observers)
      ensures console == old(console) + BatchLines(observers[k].tracker, observers[k].debug, batch)
    {
      var t, debug := observers[k].tracker, observers[k].debug;
      var i := 0;
      while i < |batch|
        invariant 0 <= i <= |batch|
        invariant observers == old(observers)
        invariant console == old(console) + BatchLines(t, debug, batch[..i])
      {
        WriteNext(t, debug, batch, i, old(console));
        i := i + 1;
      }
      assert batch[..i] == batch;
    }
  }
}
