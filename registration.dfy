/**
 * What `init` registers. The trackers are tried in a fixed order, each only
 * when its merged flag is truthy, all inside one `try`: the first
 * registration that throws ends the sequence, and the exception is swallowed.
 *
 * The run is stated over `on`, the set of trackers whose flag is truthy, and
 * `rejected`, the trackers whose registration throws. A host rejects entry
 * types, not trackers: `Refused` gives the trackers a host rejects, and the
 * two paint trackers, which observe the same type, are rejected together.
 */
module Registration {
  import opened Js
  import opened Config
  import opened Trackers

  /** The order of the `if (config.…)` blocks in `init`. */
  const Order: seq<Tracker> := [Dcl, Fcp, Fp, Fid, Lcp, Cls, Tbt, Resources]

  /** The position of a tracker in the registration order. */
  function Rank(t: Tracker): (k: nat)
    ensures k < |Order| && Order[k] == t
  {
    match t
    case Dcl => 0
    case Fcp => 1
    case Fp => 2
    case Fid => 3
    case Lcp => 4
    case Cls => 5
    case Tbt => 6
    case Resources => 7
  }

  /** Every tracker appears once in the order. */
  lemma OrderDistinct(i: nat)
    requires i < |Order|
    ensures Rank(Order[i]) == i
  {
  }

  /** The trackers whose flag is truthy in the merged configuration. */
  function SwitchedOn(config: map<string, Value>): (on: set<Tracker>)
    ensures forall t :: t in on <==> Enabled(config, Flag(t))
  {
    assert forall t :: Order[Rank(t)] == t;
    set t | t in Order && Enabled(config, Flag(t))
  }

  /** The trackers whose `observe` call throws on a host that does not support the entry types `types`. */
  function Refused(types: set<string>): (rejected: set<Tracker>)
    ensures forall t :: t in rejected <==> ObservedType(t) in types
  {
    assert forall t :: Order[Rank(t)] == t;
    set t | t in Order && ObservedType(t) in types
  }

  /** The first-paint and first-contentful-paint trackers are refused together. */
  lemma PaintTrackersRefusedTogether(types: set<string>)
    ensures Fcp in Refused(types) <==> Fp in Refused(types)
    ensures Fcp in Refused(types) <==> "paint" in types
  {
  }

  /** A host that rejects only `longtask` refuses only the long-task tracker. */
  lemma OnlyLongTaskRefused()
    ensures Refused({"longtask"}) == {Tbt}
  {
    forall t | t != Tbt ensures ObservedType(t) != "longtask" {
      assert ObservedType(t)[0] != 'l' || |ObservedType(t)| != 8;
    }
  }

  /** The state of the `try` block: the trackers registered so far, and whether it still runs. */
  datatype Progress = Progress(registered: seq<Tracker>, running: bool)

  /**
   * One `if (config.flag) trackX(options)` block: skipped once an earlier block
   * threw or when the flag is falsy; otherwise the tracker either registers or
   * its registration throws (`rejected`) and the rest of the block is abandoned.
   */
  function Step(p: Progress, t: Tracker, on: set<Tracker>, rejected: set<Tracker>): (q: Progress)
    ensures !p.running || t !in on ==> q == p
    ensures p.running && t in on && t in rejected ==> q == Progress(p.registered, false)
    ensures p.running && t in on && t !in rejected ==> q == Progress(p.registered + [t], true)
  {
    if !p.running || t !in on then p
    else if t in rejected then Progress(p.registered, false)
    else Progress(p.registered + [t], true)
  }

  /**
   * The blocks for `ts`, one after the other. They only append to what is
   * registered, at most one entry per block, and only switched-on trackers of `ts`.
   */
  function Run(ts: seq<Tracker>, p: Progress, on: set<Tracker>, rejected: set<Tracker>): (q: Progress)
    ensures p.registered <= q.registered && |q.registered| <= |p.registered| + |ts|
    ensures forall i :: |p.registered| <= i < |q.registered| ==> q.registered[i] in ts && q.registered[i] in on
    decreases |ts|
  {
    if ts == [] then p
    else
      var next := Step(p, ts[0], on, rejected);
      var q := Run(ts[1..], next, on, rejected);
      assert forall i :: |p.registered| <= i < |q.registered| ==> q.registered[i] in ts && q.registered[i] in on by {
        forall i | |p.registered| <= i < |q.registered|
          ensures q.registered[i] in ts && q.registered[i] in on
        {
          if i < |next.registered| {
            assert q.registered[i] == next.registered[i] == ts[0];
          } else {
            assert q.registered[i] in ts[1..];
          }
        }
      }
      q
  }

  /**
   * The trackers `init` leaves registered, for the switched-on trackers `on`:
   * a tracker is registered iff it is switched on and no switched-on tracker
   * at or before it in the order is rejected.
   */
  function RegisteredOn(on: set<Tracker>, rejected: set<Tracker>): (r: seq<Tracker>)
    ensures forall t :: t in r <==> t in on && forall u :: u in on && Rank(u) <= Rank(t) ==> u !in rejected
  {
    var k := FirstRejected(Order, on, rejected);
    var r := Run(Order, Progress([], true), on, rejected).registered;
    RunRegisters(Order, [], on, rejected);
    assert r == Kept(Order[..k], on);
    forall t ensures t in r <==> t in on && forall u :: u in on && Rank(u) <= Rank(t) ==> u !in rejected {
      KeptMembers(Order[..k], on, t);
      InPrefixByRank(k, t);
      if t in on && Rank(t) >= k {
        OrderDistinct(k);
      }
    }
    r
  }

  /** A tracker lies in the first `k` places of the order iff its position is below `k`. */
  lemma InPrefixByRank(k: nat, t: Tracker)
    requires k <= |Order|
    ensures t in Order[..k] <==> Rank(t) < k
  {
    if Rank(t) < k {
      assert Order[..k][Rank(t)] == t;
    }
    if t in Order[..k] {
      var m :| 0 <= m < k && Order[..k][m] == t;
      OrderDistinct(m);
    }
  }

  /**
   * The trackers `init` leaves registered, for a merged configuration, on a
   * host that rejects `types`: those whose flag is truthy, when no tracker with
   * a truthy flag at or before it observes a rejected type.
   */
  function Registered(config: map<string, Value>, types: set<string>): (r: seq<Tracker>)
    ensures forall t :: t in r <==>
      (Enabled(config, Flag(t)) && forall u :: Enabled(config, Flag(u)) && Rank(u) <= Rank(t) ==> ObservedType(u) !in types)
  {
    RegisteredOn(SwitchedOn(config), Refused(types))
  }

  /** The switched-on trackers of `ts`, in list order. */
  function Kept(ts: seq<Tracker>, on: set<Tracker>): seq<Tracker>
  {
    if ts == [] then []
    else (if ts[0] in on then [ts[0]] else []) + Kept(ts[1..], on)
  }

  /** The length of the longest prefix of `ts` with no switched-on, rejected tracker. */
  function FirstRejected(ts: seq<Tracker>, on: set<Tracker>, rejected: set<Tracker>): (r: nat)
    ensures r <= |ts|
    ensures forall i :: 0 <= i < r ==> !(ts[i] in on && ts[i] in rejected)
    ensures r < |ts| ==> ts[r] in on && ts[r] in rejected
  {
    if ts == [] then 0
    else if ts[0] in on && ts[0] in rejected then 0
    else 1 + FirstRejected(ts[1..], on, rejected)
  }

  /** A tracker is kept exactly when it is listed and switched on. */
  lemma {:induction false} KeptMembers(ts: seq<Tracker>, on: set<Tracker>, t: Tracker)
    ensures t in Kept(ts, on) <==> t in ts && t in on
    decreases |ts|
  {
    if ts != [] {
      KeptMembers(ts[1..], on, t);
      assert ts == [ts[0]] + ts[1..];
    }
  }

  lemma {:induction false} KeptOfJoin(a: seq<Tracker>, b: seq<Tracker>, on: set<Tracker>)
    ensures Kept(a + b, on) == Kept(a, on) + Kept(b, on)
    decreases |a|
  {
    if a == [] {
      assert a + b == b;
    } else {
      var head := if a[0] in on then [a[0]] else [];
      assert (a + b)[0] == a[0];
      assert (a + b)[1..] == a[1..] + b;
      assert Kept(a + b, on) == head + Kept(a[1..] + b, on);
      KeptOfJoin(a[1..], b, on);
      assert Kept(a, on) == head + Kept(a[1..], on);
    }
  }

  lemma {:induction false} KeptAll(ts: seq<Tracker>, on: set<Tracker>)
    requires forall t :: t in ts ==> t in on
    ensures Kept(ts, on) == ts
    decreases |ts|
  {
    if ts != [] {
      assert ts[0] in ts;
      assert forall t :: t in ts[1..] ==> t in ts;
      KeptAll(ts[1..], on);
    }
  }

  /** Once a registration has thrown, the remaining blocks change nothing. */
  lemma {:induction false} RunStopped(ts: seq<Tracker>, p: Progress, on: set<Tracker>, rejected: set<Tracker>)
    requires !p.running
    ensures Run(ts, p, on, rejected) == p
    decreases |ts|
  {
    if ts != [] {
      RunStopped(ts[1..], p, on, rejected);
    }
  }

  /**
   * The registration run on a tracker list: exactly the switched-on trackers
   * before the first switched-on tracker whose registration throws, in list order.
   */
  lemma {:induction false} RunRegisters(ts: seq<Tracker>, prefix: seq<Tracker>, on: set<Tracker>,
                                        rejected: set<Tracker>)
    ensures Run(ts, Progress(prefix, true), on, rejected).registered
         == prefix + Kept(ts[..FirstRejected(ts, on, rejected)], on)
    decreases |ts|
  {
    if ts == [] {
      assert ts[..0] == [];
    } else {
      var k := FirstRejected(ts, on, rejected);
      var p := Progress(prefix, true);
      if ts[0] !in on {
        assert Run(ts, p, on, rejected) == Run(ts[1..], p, on, rejected);
        RunRegisters(ts[1..], prefix, on, rejected);
        assert ts[..k] == [ts[0]] + ts[1..][..k - 1];
        assert Kept(ts[..k], on) == Kept(ts[1..][..k - 1], on);
      } else if ts[0] in rejected {
        assert Run(ts, p, on, rejected) == Run(ts[1..], Progress(prefix, false), on, rejected);
        assert ts[..k] == [];
        RunStopped(ts[1..], Progress(prefix, false), on, rejected);
        assert prefix + Kept(ts[..k], on) == prefix;
      } else {
        var rest := ts[1..][..k - 1];
        assert Run(ts, p, on, rejected) == Run(ts[1..], Progress(prefix + [ts[0]], true), on, rejected);
        RunRegisters(ts[1..], prefix + [ts[0]], on, rejected);
        assert ts[..k] == [ts[0]] + rest;
        assert Kept(ts[..k], on) == [ts[0]] + Kept(rest, on);
        AppendAssoc(prefix, [ts[0]], Kept(rest, on));
      }
    }
  }

  /**
   * `init` registers exactly the switched-on trackers, in the fixed order, up to
   * (not including) the first whose registration throws.
   */
  lemma RegisteredIsEnabledPrefix(on: set<Tracker>, rejected: set<Tracker>)
    ensures RegisteredOn(on, rejected) == Kept(Order[..FirstRejected(Order, on, rejected)], on)
  {
    RunRegisters(Order, [], on, rejected);
    assert [] + Kept(Order[..FirstRejected(Order, on, rejected)], on)
        == Kept(Order[..FirstRejected(Order, on, rejected)], on);
  }

  /** Without a throwing registration, every switched-on tracker is registered, in order. */
  lemma NoRejectionRegistersAllEnabled(on: set<Tracker>, rejected: set<Tracker>)
    requires forall t :: !(t in on && t in rejected)
    ensures RegisteredOn(on, rejected) == Kept(Order, on)
  {
    RegisteredIsEnabledPrefix(on, rejected);
    var k := FirstRejected(Order, on, rejected);
    assert k == |Order|;
    assert Order[..|Order|] == Order;
  }

  /**
   * A throwing registration aborts the rest: once a switched-on tracker is
   * rejected, neither it nor any tracker after it in the order is registered.
   */
  lemma RejectionAbortsLater(on: set<Tracker>, rejected: set<Tracker>, i: nat, j: nat)
    requires i <= j < |Order|
    requires Order[i] in on && Order[i] in rejected
    ensures Order[j] !in RegisteredOn(on, rejected)
  {
    RegisteredIsEnabledPrefix(on, rejected);
    var k := FirstRejected(Order, on, rejected);
    assert k <= i;
    KeptMembers(Order[..k], on, Order[j]);
    LaterNotInPrefix(k, j);
  }

  /** A tracker does not occur in the part of the order before its position. */
  lemma LaterNotInPrefix(k: nat, j: nat)
    requires k <= j < |Order|
    ensures Order[j] !in Order[..k]
  {
    if Order[j] in Order[..k] {
      var m :| 0 <= m < k && Order[..k][m] == Order[j];
      OrderDistinct(m);
      OrderDistinct(j);
      assert false;
    }
  }

  /** Every tracker's flag defaults to true. */
  lemma DefaultsEnable(t: Tracker)
    ensures Enabled(Merge(Options(map[])), Flag(t))
  {
    assert Merge(Options(map[])) == Defaults;
    match t
    case Dcl => assert Defaults["dcl"] == Bool(true);
    case Fcp => assert Defaults["fcp"] == Bool(true);
    case Fp => assert Defaults["fp"] == Bool(true);
    case Fid => assert Defaults["fid"] == Bool(true);
    case Lcp => assert Defaults["lcp"] == Bool(true);
    case Cls => assert Defaults["cls"] == Bool(true);
    case Tbt => assert Defaults["tbt"] == Bool(true);
    case Resources => assert Defaults["resources"] == Bool(true);
  }

  /** Empty options switch every tracker on. */
  lemma DefaultsSwitchAllOn()
    ensures forall t :: t in SwitchedOn(Merge(Options(map[])))
  {
    forall t ensures t in SwitchedOn(Merge(Options(map[]))) {
      DefaultsEnable(t);
    }
  }

  /** Empty options register all eight trackers in the fixed order. */
  lemma EmptyOptionsRegisterAll()
    ensures Registered(Merge(Options(map[])), {}) == Order
  {
    var on := SwitchedOn(Merge(Options(map[])));
    DefaultsSwitchAllOn();
    assert Refused({}) == {};
    NoRejectionRegistersAllEnabled(on, {});
    KeptAll(Order, on);
  }

  lemma FlagInjective(u: Tracker, t: Tracker)
    requires Flag(u) == Flag(t)
    ensures u == t
  {
    match u
    case Dcl => assert Flag(u)[0] == 'd';
    case Fcp => assert Flag(u) == "fcp";
    case Fp => assert |Flag(u)| == 2;
    case Fid => assert Flag(u)[1] == 'i';
    case Lcp => assert Flag(u)[0] == 'l';
    case Cls => assert Flag(u)[0] == 'c';
    case Tbt => assert Flag(u)[0] == 't';
    case Resources => assert |Flag(u)| == 9;
  }

  /** Setting one flag to false keeps every other flag at its default. */
  lemma OneFlagOff(t: Tracker)
    ensures forall u :: u in SwitchedOn(Merge(Options(map[Flag(t) := Bool(false)]))) <==> u != t
  {
    var config := Merge(Options(map[Flag(t) := Bool(false)]));
    forall u: Tracker | u != t ensures Enabled(config, Flag(u)) {
      assert Flag(u) != Flag(t) by {
        if Flag(u) == Flag(t) {
          FlagInjective(u, t);
        }
      }
      DefaultsEnable(u);
      assert config[Flag(u)] == Defaults[Flag(u)];
    }
  }

  /** With every tracker but the layout-shift one switched on, all those register, in order. */
  lemma AllButClsRegister(on: set<Tracker>)
    requires forall u :: u in on <==> u != Cls
    ensures RegisteredOn(on, {}) == [Dcl, Fcp, Fp, Fid, Lcp, Tbt, Resources]
  {
    var before, after := [Dcl, Fcp, Fp, Fid, Lcp], [Tbt, Resources];
    NoRejectionRegistersAllEnabled(on, {});
    KeptAroundCls(on);
    AroundCls();
    KeptAll(before, on);
    KeptAll(after, on);
    assert Kept([Cls], on) == [] + Kept([Cls][1..], on);
  }

  /** The trackers before and after the layout-shift tracker in the order. */
  lemma AroundCls()
    ensures forall t :: t in [Dcl, Fcp, Fp, Fid, Lcp] ==> t != Cls
    ensures forall t :: t in [Tbt, Resources] ==> t != Cls
    ensures [Dcl, Fcp, Fp, Fid, Lcp] + [] + [Tbt, Resources] == [Dcl, Fcp, Fp, Fid, Lcp, Tbt, Resources]
  {
  }

  /** The order split around the layout-shift tracker. */
  lemma KeptAroundCls(on: set<Tracker>)
    ensures Kept(Order, on) == Kept([Dcl, Fcp, Fp, Fid, Lcp], on) + Kept([Cls], on) + Kept([Tbt, Resources], on)
  {
    var before, after := [Dcl, Fcp, Fp, Fid, Lcp], [Tbt, Resources];
    assert Order == before + [Cls] + after;
    KeptOfJoin(before + [Cls], after, on);
    KeptOfJoin(before, [Cls], on);
  }

  /** `{cls: false}` registers every default tracker except the layout-shift tracker. */
  lemma ClsOffRegistersAllButCls()
    ensures Registered(Merge(Options(map["cls" := Bool(false)])), {})
         == [Dcl, Fcp, Fp, Fid, Lcp, Tbt, Resources]
  {
    assert Flag(Cls) == "cls";
    assert Refused({}) == {};
    OneFlagOff(Cls);
    AllButClsRegister(SwitchedOn(Merge(Options(map[Flag(Cls) := Bool(false)]))));
  }

  /** With every tracker switched on, rejecting the long-task one stops the run there. */
  lemma TbtRejectedRun(on: set<Tracker>)
    requires forall t :: t in on
    ensures RegisteredOn(on, {Tbt}) == [Dcl, Fcp, Fp, Fid, Lcp, Cls]
  {
    var before := [Dcl, Fcp, Fp, Fid, Lcp, Cls];
    assert Order[..6] == before;
    TbtFirstRejected(on);
    RegisteredIsEnabledPrefix(on, {Tbt});
    KeptAll(before, on);
  }

  /** With every tracker switched on and only the long-task one rejected, the run stops at position 6. */
  lemma TbtFirstRejected(on: set<Tracker>)
    requires forall t :: t in on
    ensures FirstRejected(Order, on, {Tbt}) == 6
  {
    var k := FirstRejected(Order, on, {Tbt});
    assert Order[6] == Tbt && Order[6] in on;
    assert k <= 6;
    if k < 6 {
      OrderDistinct(k);
      assert false;
    }
  }

  /**
   * A host that rejects the long-task observer loses the resource tracker too,
   * since it comes later in the same `try` block.
   */
  lemma LongTaskRejectionLosesResources()
    ensures Registered(Merge(Options(map[])), {"longtask"}) == [Dcl, Fcp, Fp, Fid, Lcp, Cls]
  {
    OnlyLongTaskRefused();
    DefaultsSwitchAllOn();
    TbtRejectedRun(SwitchedOn(Merge(Options(map[]))));
  }
}
