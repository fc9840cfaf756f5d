/**
  The latency collector of `run_drain_trial` (src/main.rs): a histogram of the whole
  trial and a window that every snapshot request empties. A histogram is the multiset
  of the values it accepted; which values fit is up to the histogram library.
  */
module Sampling {
  type Fits = nat -> bool

  type Window = multiset<nat>

  datatype Arrival = Latency(us: nat) | Snapshot

  /** What the collector holds; `taken` are the snapshots it has handed out, `ignored` the values that did not fit. */
  datatype Collected = Collected(hist: Window, window: Window, taken: seq<Window>, ignored: nat)

  const NOTHING := Collected(multiset{}, multiset{}, [], 0)

  function Accepted(fits: Fits, v: nat): Window {
    if fits(v) then multiset{v} else multiset{}
  }

  /** Histograms start at 1. */
  function AtLeastOne(us: nat): (v: nat)
    ensures us >= 1 ==> v == us
    ensures us == 0 ==> v == 1
  {
    if us < 1 then 1 else us
  }

  function Receive(fits: Fits, c: Collected, us: nat): Collected {
    var v := AtLeastOne(us);
    c.(hist := c.hist + Accepted(fits, v), window := c.window + Accepted(fits, v),
       ignored := c.ignored + (if fits(v) then 0 else 1))
  }

  function TakeSnapshot(c: Collected): Collected {
    c.(window := multiset{}, taken := c.taken + [c.window])
  }

  function OnArrival(fits: Fits, c: Collected, e: Arrival): Collected {
    match e
    case Latency(us) => Receive(fits, c, us)
    case Snapshot => TakeSnapshot(c)
  }

  /** The collector's state after the events in the order its select picked them. */
  function Collect(fits: Fits, events: seq<Arrival>): Collected {
    if events == [] then NOTHING
    else OnArrival(fits, Collect(fits, events[..|events| - 1]), events[|events| - 1])
  }

  lemma CollectNext(fits: Fits, events: seq<Arrival>, i: nat)
    requires i < |events|
    ensures Collect(fits, events[..i + 1]) == OnArrival(fits, Collect(fits, events[..i]), events[i])
  {
    assert events[..i + 1][..i] == events[..i];
  }

  lemma OneArrivalMore(fits: Fits, events: seq<Arrival>, e: Arrival)
    ensures Collect(fits, events + [e]) == OnArrival(fits, Collect(fits, events), e)
  {
    assert (events + [e])[..|events|] == events;
  }

  class Histogram {
    const fits: Fits
    var values: Window

    constructor (fits: Fits)
      ensures this.fits == fits && values == multiset{}
    {
      this.fits, values := fits, multiset{};
    }

    /** An out-of-range value is silently ignored. */
    method Record(v: nat)
      modifies this
      ensures values == old(values) + Accepted(fits, v)
    {
      if fits(v) {
        values := values + multiset{v};
      }
    }

    method Reset()
      modifies this
      ensures values == multiset{}
    {
      values := multiset{};
    }
  }

  /** The collector task: its result is the trial histogram, its replies the snapshots. */
  method RunCollector(fits: Fits, events: seq<Arrival>) returns (hist: Window, replies: seq<Window>)
    ensures hist == Collect(fits, events).hist && replies == Collect(fits, events).taken
  {
    var trial := new Histogram(fits);
    var perSec := new Histogram(fits);
    replies := [];
    var i := 0;
    while i < |events|
      invariant 0 <= i <= |events| && trial != perSec && trial.fits == fits && perSec.fits == fits
      invariant var c := Collect(fits, events[..i]);
                trial.values == c.hist && perSec.values == c.window && replies == c.taken
    {
      CollectNext(fits, events, i);
      match events[i] {
        case Latency(us) =>
          var v := AtLeastOne(us);
          trial.Record(v);
          perSec.Record(v);
        case Snapshot =>
          replies := replies + [perSec.values];
          perSec.Reset();
      }
      i := i + 1;
    }
    assert events[..i] == events;
    hist := trial.values;
  }

  // ---- Windows partition the trial ---------------------------------------------------

  function Union(windows: seq<Window>): Window {
    if windows == [] then multiset{} else Union(windows[..|windows| - 1]) + windows[|windows| - 1]
  }

  /** All snapshots and the current window together are the trial. */
  ghost predicate Partitioned(c: Collected) {
    c.hist == Union(c.taken) + c.window
  }

  lemma ReceiveKeeps(fits: Fits, c: Collected, us: nat)
    requires Partitioned(c)
    ensures Partitioned(Receive(fits, c, us))
    ensures var d := Receive(fits, c, us);
            d.taken == c.taken && |d.hist| + d.ignored == |c.hist| + c.ignored + 1
  {
  }

  lemma SnapshotKeeps(c: Collected)
    requires Partitioned(c)
    ensures Partitioned(TakeSnapshot(c))
    ensures var d := TakeSnapshot(c); d.hist == c.hist && d.ignored == c.ignored
  {
    assert (c.taken + [c.window])[..|c.taken|] == c.taken;
  }

  function Latencies(events: seq<Arrival>): seq<nat> {
    if events == [] then []
    else
      var e := events[|events| - 1];
      Latencies(events[..|events| - 1]) + (if e.Latency? then [e.us] else [])
  }

  /**
    For any interleaving of latencies and snapshot requests, the trial histogram is the
    disjoint union of all snapshots and the current window, and every latency received is
    either in it or was out of range.
    */
  lemma {:induction false} WindowsPartitionTheTrial(fits: Fits, events: seq<Arrival>)
    ensures var c := Collect(fits, events);
            Partitioned(c) && |c.hist| + c.ignored == |Latencies(events)|
  {
    if events == [] {
    } else {
      var init := events[..|events| - 1];
      WindowsPartitionTheTrial(fits, init);
      match events[|events| - 1]
      case Latency(us) => ReceiveKeeps(fits, Collect(fits, init), us);
      case Snapshot => SnapshotKeeps(Collect(fits, init));
    }
  }

  // ---- What a histogram holds ------------------------------------------------------------

  /** Every value as often as it occurs in `us`, if it fits. */
  ghost predicate Contains(fits: Fits, w: Window, us: seq<nat>) {
    forall v: nat :: w[v] == (if fits(v) then multiset(us)[v] else 0)
  }

  lemma HoldsNext(fits: Fits, w: Window, us: seq<nat>, u: nat)
    requires Contains(fits, w, us) && u >= 1
    ensures Contains(fits, w + Accepted(fits, AtLeastOne(u)), us + [u])
  {
  }

  /** The latencies since the last snapshot. */
  function Fresh(events: seq<Arrival>): seq<nat> {
    if events == [] then []
    else
      match events[|events| - 1]
      case Latency(us) => Fresh(events[..|events| - 1]) + [us]
      case Snapshot => []
  }

  /** For each snapshot, the latencies between the one before it and itself. */
  function Spans(events: seq<Arrival>): seq<seq<nat>> {
    if events == [] then []
    else
      var init := events[..|events| - 1];
      Spans(init) + (if events[|events| - 1].Snapshot? then [Fresh(init)] else [])
  }

  /** Histogram, window and replies hold exactly the latencies they should. */
  ghost predicate HoldsWhatArrived(fits: Fits, c: Collected, events: seq<Arrival>) {
    && Contains(fits, c.hist, Latencies(events))
    && Contains(fits, c.window, Fresh(events))
    && |c.taken| == |Spans(events)|
    && forall k :: 0 <= k < |c.taken| ==> Contains(fits, c.taken[k], Spans(events)[k])
  }

  lemma LatencyHolds(fits: Fits, c: Collected, events: seq<Arrival>, us: nat)
    requires HoldsWhatArrived(fits, c, events) && us >= 1
    ensures HoldsWhatArrived(fits, Receive(fits, c, us), events + [Latency(us)])
  {
    var more := events + [Latency(us)];
    assert more[..|events|] == events;
    HoldsNext(fits, c.hist, Latencies(events), us);
    HoldsNext(fits, c.window, Fresh(events), us);
    assert Spans(more) == Spans(events);
  }

  lemma SnapshotHolds(fits: Fits, c: Collected, events: seq<Arrival>)
    requires HoldsWhatArrived(fits, c, events)
    ensures HoldsWhatArrived(fits, TakeSnapshot(c), events + [Snapshot])
  {
    var more := events + [Snapshot];
    assert more[..|events|] == events;
    assert Latencies(more) == Latencies(events);
    assert Spans(more) == Spans(events) + [Fresh(events)];
  }

  /**
    Contents, not only numbers: the trial histogram holds every latency that fits as often as
    it arrived; each snapshot holds those since the one before, and the window those since
    the last.
    */
  lemma {:induction false} WindowsHoldTheirLatencies(fits: Fits, events: seq<Arrival>)
    requires forall i :: 0 <= i < |events| && events[i].Latency? ==> events[i].us >= 1
    ensures HoldsWhatArrived(fits, Collect(fits, events), events)
  {
    if events == [] {
    } else {
      var init := events[..|events| - 1];
      WindowsHoldTheirLatencies(fits, init);
      assert events == init + [events[|events| - 1]];
      match events[|events| - 1]
      case Latency(us) => LatencyHolds(fits, Collect(fits, init), init, us);
      case Snapshot => SnapshotHolds(fits, Collect(fits, init), init);
    }
  }

  // ---- Maxima ------------------------------------------------------------------------

  ghost predicate IsMax(w: Window, v: nat) {
    v in w && forall u :: u in w ==> u <= v
  }

  lemma {:induction false} MaxExists(w: Window)
    requires w != multiset{}
    ensures exists v: nat :: IsMax(w, v)
    decreases |w|
  {
    var x :| x in w;
    var rest := w - multiset{x};
    if rest == multiset{} {
      forall u: nat | u in w ensures u <= x {
        assert u != x ==> rest[u] == w[u];
      }
      assert IsMax(w, x);
    } else {
      MaxExists(rest);
      var m: nat :| IsMax(rest, m);
      assert m in w;
      var top := if m < x then x else m;
      forall u: nat | u in w ensures u <= top {
        if u != x { assert rest[u] == w[u]; }
      }
      assert top in w;
      assert IsMax(w, top);
    }
  }

  /** The "max" statistic of a window; 0 for an empty one. */
  ghost function Peak(w: Window): (m: nat)
    ensures w == multiset{} ==> m == 0
    ensures w != multiset{} ==> IsMax(w, m)
  {
    if w == multiset{} then 0
    else
      MaxExists(w);
      var v: nat :| IsMax(w, v);
      v
  }

  lemma {:induction false} UnionContains(windows: seq<Window>, k: nat)
    requires k < |windows|
    ensures windows[k] <= Union(windows)
  {
    if k == |windows| - 1 {
    } else {
      UnionContains(windows[..|windows| - 1], k);
    }
  }

  lemma PeakMonotone(a: Window, b: Window)
    requires a <= b
    ensures Peak(a) <= Peak(b)
  {
    if a != multiset{} {
      assert Peak(a) in b;
    }
  }

  /** No window's maximum exceeds the trial's. */
  lemma WindowPeakWithinTrial(c: Collected, k: nat)
    requires Partitioned(c) && k < |c.taken|
    ensures Peak(c.taken[k]) <= Peak(c.hist)
  {
    UnionContains(c.taken, k);
    PeakMonotone(c.taken[k], c.hist);
  }

  // ---- Series: one list of windows for each percentile name ------------------------------

  type Series = map<string, seq<Window>>

  function SeriesAt(series: Series, name: string): seq<Window> {
    if name in series then series[name] else []
  }

  /** For every spec, push this window's entry onto the list of its name. */
  function PushWindow(series: Series, names: seq<string>, w: Window): Series {
    if names == [] then series
    else
      var s := PushWindow(series, names[..|names| - 1], w);
      var name := names[|names| - 1];
      s[name := SeriesAt(s, name) + [w]]
  }

  /** How often a name occurs in the specs. */
  function Multiplicity(names: seq<string>, name: string): nat {
    if names == [] then 0
    else Multiplicity(names[..|names| - 1], name) + (if names[|names| - 1] == name then 1 else 0)
  }

  function Repeat(w: Window, n: nat): (r: seq<Window>)
    ensures |r| == n
  {
    if n == 0 then [] else Repeat(w, n - 1) + [w]
  }

  /** The series a name should have after `recorded` windows. */
  function Expected(recorded: seq<Window>, copies: nat): seq<Window> {
    if recorded == [] then []
    else Expected(recorded[..|recorded| - 1], copies) + Repeat(recorded[|recorded| - 1], copies)
  }

  lemma {:induction false} PushWindowAt(series: Series, names: seq<string>, w: Window, name: string)
    ensures SeriesAt(PushWindow(series, names, w), name)
         == SeriesAt(series, name) + Repeat(w, Multiplicity(names, name))
  {
    if names == [] {
    } else {
      PushWindowAt(series, names[..|names| - 1], w, name);
    }
  }

  lemma ExpectedNext(recorded: seq<Window>, w: Window, copies: nat)
    ensures Expected(recorded + [w], copies) == Expected(recorded, copies) + Repeat(w, copies)
  {
    assert (recorded + [w])[..|recorded|] == recorded;
  }

  lemma {:induction false} ExpectedLength(recorded: seq<Window>, copies: nat)
    ensures |Expected(recorded, copies)| == |recorded| * copies
  {
    if recorded == [] {
    } else {
      ExpectedLength(recorded[..|recorded| - 1], copies);
      assert |recorded| * copies == (|recorded| - 1) * copies + copies;
    }
  }
}
