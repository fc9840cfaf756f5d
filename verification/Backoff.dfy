/**
  The sleep schedule of Resque's `Worker#work` (README.md) against the fixed interval of
  the poll worker. An outcome is true for a hit; a schedule has one entry for each outcome,
  the sleep that follows it, and is cut short where the loop breaks.
  */
module Backoff {
  import opened Basics

  /** The options of `Worker#work`; missing ones fall back as the loop's preamble says. */
  datatype Options = Options(interval: Option<real>, min: Option<real>, max: Option<real>, backoff: Option<real>)

  /** What the preamble makes of them. */
  datatype Settings = Settings(start: real, min: real, max: real, backoff: real)

  function GetOr(o: Option<real>, default: real): real {
    if o.Some? then o.value else default
  }

  /** The smaller of the two. */
  function AtMost(x: real, limit: real): (r: real)
    ensures r <= x && r <= limit && (r == x || r == limit)
  {
    if x > limit then limit else x
  }

  function Clamp(x: real, lo: real, hi: real): real {
    if x < lo then lo else AtMost(x, hi)
  }

  function Resolve(o: Options): Settings {
    var interval := GetOr(o.interval, 5.0);
    var max := GetOr(o.max, interval);
    var min := AtMost(GetOr(o.min, interval), max);
    var backoff := AtMost(GetOr(o.backoff, 0.1), max);
    Settings(Clamp(interval, min, max), min, max, backoff)
  }

  function Next(c: Settings, interval: real): real {
    AtMost(interval + c.backoff, c.max)
  }

  function ScheduleFrom(c: Settings, interval: real, outcomes: seq<bool>): seq<Option<real>>
    decreases outcomes
  {
    if outcomes == [] then []
    else if outcomes[0] then [None] + ScheduleFrom(c, c.min, outcomes[1..])
    else if interval == 0.0 then []
    else [Some(Next(c, interval))] + ScheduleFrom(c, Next(c, interval), outcomes[1..])
  }

  /** The schedule of the poll worker: no sleep after a hit, always the same after a miss. */
  function Fixed(interval: real, outcomes: seq<bool>): seq<Option<real>> {
    seq(|outcomes|, i requires 0 <= i < |outcomes| => if outcomes[i] then None else Some(interval))
  }

  lemma Reassociate<T>(xs: seq<T>, x: T, ys: seq<T>)
    ensures (xs + [x]) + ys == xs + ([x] + ys)
  {
  }

  /** The loop of `Worker#work`. */
  method Work(o: Options, outcomes: seq<bool>) returns (schedule: seq<Option<real>>)
    ensures schedule == ScheduleFrom(Resolve(o), Resolve(o).start, outcomes)
  {
    var c := Resolve(o);
    var interval := c.start;
    schedule := [];
    var i := 0;
    while i < |outcomes|
      invariant 0 <= i <= |outcomes|
      invariant schedule + ScheduleFrom(c, interval, outcomes[i..]) == ScheduleFrom(c, c.start, outcomes)
    {
      assert outcomes[i..][1..] == outcomes[i + 1..];
      ghost var soFar := schedule;
      if outcomes[i] {
        interval := c.min;
        schedule := schedule + [None];
      } else {
        if interval == 0.0 {
          break;
        }
        interval := AtMost(interval + c.backoff, c.max);
        schedule := schedule + [Some(interval)];
      }
      i := i + 1;
      Reassociate(soFar, schedule[|soFar|], ScheduleFrom(c, interval, outcomes[i..]));
    }
  }

  /** The settings under which the loop can only ever sleep `p`. */
  predicate Collapses(c: Settings, p: real) {
    && c.start != 0.0 && Next(c, c.start) == p
    && c.min != 0.0 && Next(c, c.min) == p
    && p != 0.0 && Next(c, p) == p
  }

  lemma {:induction false} CollapsedSchedule(c: Settings, p: real, interval: real, outcomes: seq<bool>)
    requires Collapses(c, p) && interval != 0.0 && Next(c, interval) == p
    ensures ScheduleFrom(c, interval, outcomes) == Fixed(p, outcomes)
    decreases outcomes
  {
    if outcomes == [] {
    } else {
      var next := if outcomes[0] then c.min else p;
      CollapsedSchedule(c, p, next, outcomes[1..]);
      assert Fixed(p, outcomes) == [Fixed(p, outcomes)[0]] + Fixed(p, outcomes[1..]);
    }
  }

  /**
    Exactly when the documented loop is the poll worker with interval `p`: on every
    sequence of hits and misses, if and only if its settings collapse to `p`.
    */
  lemma FixedExactlyWhenCollapsed(c: Settings, p: real)
    ensures (forall outcomes :: ScheduleFrom(c, c.start, outcomes) == Fixed(p, outcomes)) <==> Collapses(c, p)
  {
    if Collapses(c, p) {
      forall outcomes ensures ScheduleFrom(c, c.start, outcomes) == Fixed(p, outcomes) {
        CollapsedSchedule(c, p, c.start, outcomes);
      }
    }
    if forall outcomes :: ScheduleFrom(c, c.start, outcomes) == Fixed(p, outcomes) {
      var miss, hitMiss, missMiss := [false], [true, false], [false, false];
      assert ScheduleFrom(c, c.start, miss) == Fixed(p, miss) == [Some(p)];
      assert ScheduleFrom(c, c.start, hitMiss) == Fixed(p, hitMiss);
      assert Fixed(p, hitMiss)[1] == Some(p) && hitMiss[1..] == [false];
      assert ScheduleFrom(c, c.start, hitMiss) == [None] + ScheduleFrom(c, c.min, [false]);
      assert ScheduleFrom(c, c.start, missMiss) == Fixed(p, missMiss);
      assert Fixed(p, missMiss)[1] == Some(p) && missMiss[1..] == [false];
      assert ScheduleFrom(c, c.start, missMiss) == [Some(Next(c, c.start))] + ScheduleFrom(c, Next(c, c.start), [false]);
    }
  }

  /** Resque's default, min and max unset, is a fixed interval whatever the backoff. */
  lemma {:induction false} DefaultIsFixedInterval(o: Options, outcomes: seq<bool>)
    requires o.min == None && o.max == None
    requires GetOr(o.interval, 5.0) > 0.0 && GetOr(o.backoff, 0.1) >= 0.0
    ensures ScheduleFrom(Resolve(o), Resolve(o).start, outcomes) == Fixed(GetOr(o.interval, 5.0), outcomes)
  {
    CollapsedSchedule(Resolve(o), GetOr(o.interval, 5.0), Resolve(o).start, outcomes);
  }

  function Misses(k: nat): (s: seq<bool>)
    ensures |s| == k && forall i :: 0 <= i < k ==> !s[i]
  {
    seq(k, _ => false)
  }

  /** min(max, interval + k * backoff). */
  function Capped(interval: real, k: nat, backoff: real, max: real): real {
    AtMost(interval + k as real * backoff, max)
  }

  /** `interval` after `k` additions of the backoff, capped. */
  function Grown(c: Settings, interval: real, k: nat): real {
    Capped(interval, k, c.backoff, c.max)
  }

  lemma GrowthAdds(c: Settings, interval: real, k: nat)
    requires c.backoff >= 0.0 && interval <= c.max
    ensures Grown(c, Next(c, interval), k) == Grown(c, interval, k + 1)
  {
    var b := c.backoff;
    assert (k + 1) as real * b == k as real * b + b;
    assert k as real * b >= 0.0;
  }

  /**
    In general the backoff is additive: from `interval`, the k-th consecutive miss sleeps
    min(max, interval + k * backoff).
    */
  lemma {:induction false} MissesBackOffAdditively(c: Settings, interval: real, k: nat)
    requires interval > 0.0 && c.max > 0.0 && interval <= c.max && c.backoff >= 0.0
    ensures var run := ScheduleFrom(c, interval, Misses(k));
            |run| == k && forall i :: 0 <= i < k ==> run[i] == Some(Grown(c, interval, i + 1))
    decreases k
  {
    if k == 0 {
    } else {
      var next := Next(c, interval);
      MissesBackOffAdditively(c, next, k - 1);
      assert Misses(k)[1..] == Misses(k - 1);
      var run, rest := ScheduleFrom(c, interval, Misses(k)), ScheduleFrom(c, next, Misses(k - 1));
      assert run == [Some(next)] + rest;
      forall i | 0 < i < k ensures run[i] == Some(Grown(c, interval, i + 1)) {
        assert run[i] == rest[i - 1];
        GrowthAdds(c, interval, i);
      }
    }
  }

  /** The preamble keeps min at or below max, and the start between them. */
  lemma ResolvedInOrder(o: Options)
    ensures var c := Resolve(o); c.min <= c.start <= c.max && c.backoff <= c.max
  {
  }

  /** Missing options stand for: interval 5, max and min the interval, backoff 0.1. */
  lemma MissingOptions(o: Options)
    ensures var interval := if o.interval.Some? then o.interval.value else 5.0;
            var given := Options(Some(interval), Some(if o.min.Some? then o.min.value else interval),
                                 Some(if o.max.Some? then o.max.value else interval),
                                 Some(if o.backoff.Some? then o.backoff.value else 0.1));
            Resolve(o) == Resolve(given)
  {
  }

  /** Given options are taken as they are, but for min and backoff above max and an interval outside min and max. */
  lemma GivenOptions(interval: real, min: real, max: real, backoff: real)
    ensures var c := Resolve(Options(Some(interval), Some(min), Some(max), Some(backoff)));
            && c.max == max
            && (if min <= max then c.min == min else c.min == max)
            && (if backoff <= max then c.backoff == backoff else c.backoff == max)
            && (c.min <= interval <= max ==> c.start == interval)
            && (interval < c.min ==> c.start == c.min) && (interval > max ==> c.start == max)
  {
  }

  /** The same for the loop itself: misses number 1, 2, ... after any hit in any history. */
  lemma KthMissAfterAHit(c: Settings, before: seq<bool>, k: nat)
    requires 0.0 < c.min <= c.start <= c.max && c.backoff >= 0.0
    ensures var run := ScheduleFrom(c, c.start, before + [true] + Misses(k));
            && |run| == |before| + 1 + k
            && (var after := run[|before| + 1..]; forall i :: 0 <= i < k ==> after[i] == Some(Grown(c, c.min, i + 1)))
  {
    HistoryThenHit(c, c.start, before, k);
    MissesBackOffAdditively(c, c.min, k);
  }

  lemma OptionsInOrder(interval: real, min: real, max: real, backoff: real)
    requires 0.0 < min <= interval <= max && 0.0 <= backoff <= max
    ensures Resolve(Options(Some(interval), Some(min), Some(max), Some(backoff))) == Settings(interval, min, max, backoff)
  {
    GivenOptions(interval, min, max, backoff);
  }

  /** What the loop sleeps for options in order: min(max, interval + k * backoff) at the k-th miss from the start ... */
  lemma OrderedMissesFromStart(interval: real, min: real, max: real, backoff: real, k: nat)
    requires 0.0 < min <= interval <= max && 0.0 <= backoff <= max
    ensures var c := Resolve(Options(Some(interval), Some(min), Some(max), Some(backoff)));
            var run := ScheduleFrom(c, c.start, Misses(k));
            |run| == k && forall i :: 0 <= i < k ==> run[i] == Some(Capped(interval, i + 1, backoff, max))
  {
    OptionsInOrder(interval, min, max, backoff);
    MissesBackOffAdditively(Settings(interval, min, max, backoff), interval, k);
  }

  /** ... and min(max, min + k * backoff) at the k-th after a hit. */
  lemma OrderedMissesAfterAHit(interval: real, min: real, max: real, backoff: real, before: seq<bool>, k: nat)
    requires 0.0 < min <= interval <= max && 0.0 <= backoff <= max
    ensures var c := Resolve(Options(Some(interval), Some(min), Some(max), Some(backoff)));
            var run := ScheduleFrom(c, c.start, before + [true] + Misses(k));
            && |run| == |before| + 1 + k
            && (var after := run[|before| + 1..];
                forall i :: 0 <= i < k ==> after[i] == Some(Capped(min, i + 1, backoff, max)))
  {
    OptionsInOrder(interval, min, max, backoff);
    KthMissAfterAHit(Settings(interval, min, max, backoff), before, k);
  }

  lemma {:induction false} HistoryThenHit(c: Settings, interval: real, before: seq<bool>, k: nat)
    requires interval > 0.0 && c.min > 0.0 && c.max >= c.min && c.backoff >= 0.0
    ensures |ScheduleFrom(c, interval, before + [true] + Misses(k))|
         == |before| + 1 + |ScheduleFrom(c, c.min, Misses(k))|
    ensures ScheduleFrom(c, interval, before + [true] + Misses(k))[|before| + 1..] == ScheduleFrom(c, c.min, Misses(k))
    decreases before
  {
    var all := before + [true] + Misses(k);
    if before == [] {
      assert all[1..] == Misses(k);
    } else {
      var next := if before[0] then c.min else Next(c, interval);
      assert all[1..] == before[1..] + [true] + Misses(k);
      HistoryThenHit(c, next, before[1..], k);
      assert ScheduleFrom(c, interval, all)[1..] == ScheduleFrom(c, next, all[1..]);
      assert ScheduleFrom(c, interval, all)[|before| + 1..] == ScheduleFrom(c, interval, all)[1..][|before|..];
    }
  }
}
