/**
  The idle-poll rate (README.md, "Multi-queue mode"): the fleet on empty lists, in discrete
  time. A sleep lasts at least `period`; the shutdown comes `span` after the start. With a
  `limit`, a worker needs at most that long from the due end of its sleep to its next one.
  */
module IdleRate {
  import opened Basics
  import opened Fleet
  import opened FleetLedger

  datatype Timing = Timing(period: nat, span: nat, limit: Option<nat>)

  /** One worker's clock: when its sleep is due to end, when its next sleep is due to begin, and its passes so far. */
  datatype Timer = Timer(wakeAt: nat, deadline: nat, starts: nat, ends: nat)

  datatype Clocked = Clocked(fleet: State, now: nat, timers: seq<Timer>)

  datatype Event = Tick | Do(a: Action)

  function Limit(t: Timing): nat { if t.limit.Some? then t.limit.value else 0 }

  function Begin(t: Timing, queues: seq<seq<Job>>, workers: nat): Clocked {
    Clocked(Boot(queues, workers, None, []), 0, seq(workers, _ => Timer(0, Limit(t), 0, 0)))
  }

  /** Time passes only while the shutdown is not overdue and no worker is late. */
  predicate MayTick(t: Timing, c: Clocked) {
    && (c.fleet.sh.shutdown || c.now < t.span)
    && (t.limit.Some? ==> forall w :: 0 <= w < |c.timers| && w < |c.fleet.pcs| && !Gone(c.fleet.pcs[w]) ==>
                            c.now < c.timers[w].deadline)
  }

  /** A sleeper wakes no earlier than its time, and the shutdown comes no earlier than its own. */
  predicate TooEarly(t: Timing, c: Clocked, a: Action) {
    || (a.Shutdown? && c.now < t.span)
    || (a.Act? && a.op == Wake && a.worker < |c.timers| && c.now < c.timers[a.worker].wakeAt)
  }

  function Punch(t: Timing, x: Timer, pc: Pc, pc': Pc, now: nat): Timer {
    if pc.Top? && pc'.Scan? then x.(starts := x.starts + 1)
    else if pc.Scan? && pc'.Sleeping? then
      Timer(now + t.period, now + t.period + Limit(t), x.starts, x.ends + 1)
    else x
  }

  function ClockStep(t: Timing, c: Clocked, e: Event): Clocked {
    match e
    case Tick => if MayTick(t, c) then c.(now := c.now + 1) else c
    case Do(a) =>
      if TooEarly(t, c, a) then c
      else
        var f := Step(c.fleet, a);
        if a.Act? && a.worker < |c.timers| && a.worker < |c.fleet.pcs| && a.worker < |f.pcs| then
          var w := a.worker;
          Clocked(f, c.now, c.timers[w := Punch(t, c.timers[w], c.fleet.pcs[w], f.pcs[w], c.now)])
        else c.(fleet := f)
  }

  function ClockRun(t: Timing, c: Clocked, events: seq<Event>): Clocked
    decreases events
  {
    if events == [] then c else ClockRun(t, ClockStep(t, c, events[0]), events[1..])
  }

  // ---- One worker ------------------------------------------------------------------------

  /** 1 for a pass begun and not ended. */
  function Under(pc: Pc): nat {
    match pc
    case Scan(_) => 1
    case Waiting(_) => 1
    case Served(_, _) => 1
    case Aborted(k) => if k > 0 then 1 else 0
    case _ => 0
  }

  /** On empty lists a worker never has a job. */
  predicate Quiet(pc: Pc) {
    !pc.Hit? && !pc.Recorded? && !pc.Drew? && (pc.Served? ==> pc.reply.Nil?)
  }

  /** `n` periods. */
  function Times(n: nat, x: nat): nat {
    if n == 0 then 0 else Times(n - 1, x) + x
  }

  ghost predicate TimerOk(t: Timing, x: Timer, pc: Pc, now: nat, shutdown: bool) {
    && Quiet(pc)
    && x.starts == x.ends + Under(pc)
    && (x.starts > 0 ==> Times(x.starts - 1, t.period) <= t.span)
    && (pc.Top? ==> Times(x.starts, t.period) <= now)
    && (pc.Sleeping? ==> Times(x.starts, t.period) <= x.wakeAt)
    && (pc.Scan? || pc.Waiting? || pc.Served? ==> Times(x.starts - 1, t.period) <= now)
    && (Gone(pc) ==> shutdown)
    && (t.limit.Some? && !shutdown ==>
          now <= x.deadline && x.deadline + t.period <= Times(x.ends + 1, t.period + Limit(t)))
  }

  /** What a step must respect for the clocks: shutdown first, and no wake-up before its time. */
  predicate InTime(t: Timing, x: Timer, pc: Pc, op: Op, condemned: bool, now: nat, shutdown: bool) {
    && (condemned ==> shutdown)
    && (!shutdown ==> now <= t.span)
    && (op == Wake && pc.Sleeping? ==> x.wakeAt <= now)
  }

  lemma ScanPunchOk(t: Timing, x: Timer, s: Shared, pc: Pc, op: Op, condemned: bool, now: nat)
    requires TimerOk(t, x, pc, now, s.shutdown) && EmptyBelow(s.queues, |s.queues|) && PcInRange(pc, |s.queues|, s.completed)
    requires InTime(t, x, pc, op, condemned, now, s.shutdown) && (pc.Scan? || pc.Waiting? || pc.Served?)
    ensures var m := Move(s, pc, op, condemned); TimerOk(t, Punch(t, x, pc, m.pc, now), m.pc, now, s.shutdown)
  {
  }

  lemma PunchOk(t: Timing, x: Timer, s: Shared, pc: Pc, op: Op, condemned: bool, now: nat)
    requires TimerOk(t, x, pc, now, s.shutdown) && EmptyBelow(s.queues, |s.queues|) && PcInRange(pc, |s.queues|, s.completed)
    requires InTime(t, x, pc, op, condemned, now, s.shutdown)
    ensures var m := Move(s, pc, op, condemned); TimerOk(t, Punch(t, x, pc, m.pc, now), m.pc, now, s.shutdown)
  {
    if pc.Scan? || pc.Waiting? || pc.Served? {
      ScanPunchOk(t, x, s, pc, op, condemned, now);
    }
  }

  // ---- The fleet ---------------------------------------------------------------------------

  function StartsOf(x: Timer): nat { x.starts }

  function EndsOf(x: Timer): nat { x.ends }

  ghost predicate TimersOk(t: Timing, c: Clocked, workers: nat) {
    && |c.timers| == |c.fleet.pcs| == workers
    && EmptyBelow(c.fleet.sh.queues, |c.fleet.sh.queues|)
    && (!c.fleet.sh.shutdown ==> c.now <= t.span && c.fleet.sh.condemned == {})
    && c.fleet.sh.past.missedPasses == Total(EndsOf, c.timers)
    && forall w :: 0 <= w < workers ==> TimerOk(t, c.timers[w], c.fleet.pcs[w], c.now, c.fleet.sh.shutdown)
  }

  ghost predicate ClockOk(t: Timing, c: Clocked, workers: nat) {
    Ledger(c.fleet, 0, 0) && TimersOk(t, c, workers)
  }

  /** What one move does to the rest on empty lists. */
  lemma MoveOnEmpty(s: Shared, pc: Pc, op: Op, condemned: bool)
    requires EmptyBelow(s.queues, |s.queues|)
    ensures var m := Move(s, pc, op, condemned);
            && EmptyBelow(m.sh.queues, |m.sh.queues|) && |m.sh.queues| == |s.queues|
            && m.sh.shutdown == s.shutdown && m.sh.condemned == s.condemned
            && m.sh.past.missedPasses == s.past.missedPasses + (if pc.Scan? && m.pc.Sleeping? then 1 else 0)
  {
    if pc.Waiting? && pc.key < |s.queues| {
      assert s.queues[pc.key] == [];
      assert Pop(s, pc.key).queues == s.queues[pc.key := []] == s.queues;
    }
  }

  lemma ActOk(t: Timing, c: Clocked, w: nat, op: Op, workers: nat)
    requires InRange(c.fleet) && TimersOk(t, c, workers) && w < workers && !TooEarly(t, c, Act(w, op))
    ensures TimersOk(t, ClockStep(t, c, Do(Act(w, op))), workers)
  {
    var s, pc, x := c.fleet.sh, c.fleet.pcs[w], c.timers[w];
    var condemned := w in s.condemned;
    var m := Move(s, pc, op, condemned);
    MoveOnEmpty(s, pc, op, condemned);
    PunchOk(t, x, s, pc, op, condemned, c.now);
    var rest := TotalRest(EndsOf, c.timers, w, Punch(t, x, pc, m.pc, c.now));
  }

  lemma OthersOk(t: Timing, c: Clocked, a: Action, workers: nat)
    requires InRange(c.fleet) && TimersOk(t, c, workers) && !TooEarly(t, c, a) && (a.Act? ==> a.worker >= workers)
    ensures TimersOk(t, ClockStep(t, c, Do(a)), workers)
  {
    if a.ServeOrphan? && a.index < |c.fleet.sh.orphans| {
      var k := c.fleet.sh.orphans[a.index];
      assert c.fleet.sh.queues[k := []] == c.fleet.sh.queues;
    }
  }

  lemma DoOk(t: Timing, c: Clocked, a: Action, workers: nat)
    requires ClockOk(t, c, workers)
    ensures var d := ClockStep(t, c, Do(a));
            ClockOk(t, d, workers) && |d.fleet.sh.queues| == |c.fleet.sh.queues|
  {
    if !TooEarly(t, c, a) {
      LedgerStep(c.fleet, a, 0, 0);
      ExecShape(c.fleet, [a]);
      if a.Act? && a.worker < workers {
        ActOk(t, c, a.worker, a.op, workers);
      } else {
        OthersOk(t, c, a, workers);
      }
    }
  }

  lemma TickOk(t: Timing, c: Clocked, workers: nat)
    requires ClockOk(t, c, workers)
    ensures ClockOk(t, ClockStep(t, c, Tick), workers)
  {
  }

  lemma {:induction false} RunOk(t: Timing, c: Clocked, events: seq<Event>, workers: nat)
    requires ClockOk(t, c, workers)
    ensures ClockOk(t, ClockRun(t, c, events), workers)
    ensures |ClockRun(t, c, events).fleet.sh.queues| == |c.fleet.sh.queues|
    decreases events
  {
    if events == [] {
    } else {
      match events[0] {
        case Tick => TickOk(t, c, workers);
        case Do(a) => DoOk(t, c, a, workers);
      }
      RunOk(t, ClockStep(t, c, events[0]), events[1..], workers);
    }
  }

  lemma BeginOk(t: Timing, queues: seq<seq<Job>>, workers: nat)
    requires EmptyBelow(queues, |queues|)
    ensures ClockOk(t, Begin(t, queues, workers), workers)
  {
    var c := Begin(t, queues, workers);
    FlattenEmpty(queues);
    BootLedger(queues, workers, None, []);
    TotalZero(EndsOf, c.timers);
    forall w | 0 <= w < workers ensures TimerOk(t, c.timers[w], c.fleet.pcs[w], c.now, false) {
      assert Times(1, t.period + Limit(t)) == t.period + Limit(t);
    }
  }

  // ---- Counting polls -----------------------------------------------------------------------

  lemma {:induction false} TimesIsProduct(n: nat, x: nat)
    ensures Times(n, x) == n * x
  {
    if n == 0 {
    } else {
      TimesIsProduct(n - 1, x);
      assert n * x == (n - 1) * x + x;
    }
  }

  /** Polls of the passes under way, and passes begun. */
  lemma {:induction false} PassesBegun(timers: seq<Timer>, pcs: seq<Pc>, keys: nat)
    requires |timers| == |pcs|
    requires forall w :: 0 <= w < |pcs| ==> timers[w].starts == timers[w].ends + Under(pcs[w])
    requires forall w :: 0 <= w < |pcs| ==> PcInRange(pcs[w], keys, 0) || pcs[w].Drew?
    ensures PassesCost(keys, Total(EndsOf, timers)) + Total(PassPolls, pcs) <= PassesCost(keys, Total(StartsOf, timers))
    decreases pcs
  {
    if pcs == [] {
    } else {
      var rest := timers[1..];
      PassesBegun(rest, pcs[1..], keys);
      CostAdd(keys, timers[0].ends, Total(EndsOf, rest));
      CostAdd(keys, timers[0].starts, Total(StartsOf, rest));
      CostAdd(keys, timers[0].ends, Under(pcs[0]));
      assert PassPolls(pcs[0]) <= PassesCost(keys, Under(pcs[0])) by {
        assert PassesCost(keys, 1) == keys;
      }
    }
  }

  lemma {:induction false} CostAdd(keys: nat, m: nat, n: nat)
    ensures PassesCost(keys, m + n) == PassesCost(keys, m) + PassesCost(keys, n)
  {
    if n == 0 {
    } else {
      CostAdd(keys, m, n - 1);
    }
  }

  /** k starts in time `span`, each at least `period` after the one before, are at most span / period + 1. */
  lemma StartsBound(k: nat, period: nat, span: nat)
    requires period > 0 && (k > 0 ==> Times(k - 1, period) <= span)
    ensures k <= span / period + 1
  {
    if k > 0 {
      TimesIsProduct(k - 1, period);
      var q := span / period;
      assert span < q * period + period;
      if k - 1 > q {
        MulGap(q, k - 1, period);
      }
    }
  }

  /** k ends by time `now`, each at most `cycle` after the one before, are at least now / cycle. */
  lemma EndsBound(k: nat, cycle: nat, now: nat)
    requires cycle > 0 && now < Times(k + 1, cycle)
    ensures k >= now / cycle
  {
    TimesIsProduct(k + 1, cycle);
    var q := now / cycle;
    assert q * cycle <= now;
    if k < q {
      if k + 1 < q { MulGap(k + 1, q, cycle); }
    }
  }

  lemma PollsOf(t: Timing, c: Clocked, workers: nat)
    requires ClockOk(t, c, workers)
    ensures PassesCost(|c.fleet.sh.queues|, Total(EndsOf, c.timers)) <= c.fleet.sh.polls
         <= PassesCost(|c.fleet.sh.queues|, Total(StartsOf, c.timers))
  {
    PassesBegun(c.timers, c.fleet.pcs, |c.fleet.sh.queues|);
  }

  lemma {:induction false} CostMonotone(keys: nat, m: nat, n: nat)
    requires m <= n
    ensures PassesCost(keys, m) <= PassesCost(keys, n)
  {
    if m == n {
    } else {
      CostMonotone(keys, m, n - 1);
    }
  }

  lemma PollsBelow(t: Timing, c: Clocked, workers: nat, bound: nat)
    requires ClockOk(t, c, workers)
    requires forall w :: 0 <= w < workers ==> c.timers[w].starts <= bound
    ensures c.fleet.sh.polls <= |c.fleet.sh.queues| * (workers * bound)
  {
    var keys := |c.fleet.sh.queues|;
    PollsOf(t, c, workers);
    TotalAtMost(StartsOf, c.timers, bound);
    CostMonotone(keys, Total(StartsOf, c.timers), workers * bound);
    PassesCostIsProduct(keys, workers * bound);
  }

  lemma PollsAbove(t: Timing, c: Clocked, workers: nat, bound: nat)
    requires ClockOk(t, c, workers)
    requires forall w :: 0 <= w < workers ==> c.timers[w].ends >= bound
    ensures c.fleet.sh.polls >= |c.fleet.sh.queues| * (workers * bound)
  {
    var keys := |c.fleet.sh.queues|;
    PollsOf(t, c, workers);
    TotalAtLeast(EndsOf, c.timers, bound);
    CostMonotone(keys, workers * bound, Total(EndsOf, c.timers));
    PassesCostIsProduct(keys, workers * bound);
  }

  lemma StartsOfTimer(t: Timing, x: Timer, pc: Pc, now: nat, shutdown: bool)
    requires t.period > 0 && TimerOk(t, x, pc, now, shutdown)
    ensures x.starts <= t.span / t.period + 1
  {
    StartsBound(x.starts, t.period, t.span);
  }

  lemma StartsAtMost(t: Timing, c: Clocked, workers: nat)
    requires t.period > 0 && ClockOk(t, c, workers)
    ensures c.fleet.sh.polls <= |c.fleet.sh.queues| * (workers * (t.span / t.period + 1))
  {
    var bound := t.span / t.period + 1;
    forall w | 0 <= w < workers ensures c.timers[w].starts <= bound {
      StartsOfTimer(t, c.timers[w], c.fleet.pcs[w], c.now, c.fleet.sh.shutdown);
    }
    PollsBelow(t, c, workers, bound);
  }

  lemma EndsOfTimer(t: Timing, x: Timer, pc: Pc, now: nat)
    requires t.period > 0 && t.limit.Some? && TimerOk(t, x, pc, now, false)
    ensures x.ends >= now / (t.period + Limit(t))
  {
    EndsBound(x.ends, t.period + Limit(t), now);
  }

  lemma EndsAtLeast(t: Timing, c: Clocked, workers: nat)
    requires t.period > 0 && t.limit.Some? && ClockOk(t, c, workers) && !c.fleet.sh.shutdown
    ensures var least := c.now / (t.period + Limit(t));
            && (forall w :: 0 <= w < workers ==> c.timers[w].ends >= least)
            && c.fleet.sh.polls >= |c.fleet.sh.queues| * (workers * least)
  {
    var least := c.now / (t.period + Limit(t));
    forall w | 0 <= w < workers ensures c.timers[w].ends >= least {
      EndsOfTimer(t, c.timers[w], c.fleet.pcs[w], c.now);
    }
    PollsAbove(t, c, workers, least);
  }

  lemma RunFromBegin(t: Timing, queues: seq<seq<Job>>, workers: nat, events: seq<Event>)
    requires EmptyBelow(queues, |queues|)
    ensures var c := ClockRun(t, Begin(t, queues, workers), events);
            ClockOk(t, c, workers) && |c.fleet.sh.queues| == |queues|
  {
    BeginOk(t, queues, workers);
    RunOk(t, Begin(t, queues, workers), events, workers);
  }

  /**
    The most an idle fleet can poll: W * N * (span / period + 1), however the workers
    interleave and whatever fails. The interval must be positive, which the command line
    check guarantees.
    */
  lemma IdlePollsAtMost(t: Timing, queues: seq<seq<Job>>, workers: nat, events: seq<Event>)
    requires t.period > 0 && EmptyBelow(queues, |queues|)
    ensures ClockRun(t, Begin(t, queues, workers), events).fleet.sh.polls
         <= |queues| * (workers * (t.span / t.period + 1))
  {
    RunFromBegin(t, queues, workers, events);
    StartsAtMost(t, ClockRun(t, Begin(t, queues, workers), events), workers);
  }

  /**
    The least it polls, if a pass and the overshoot of the sleep before it take at most
    `limit`: until shutdown every worker completes at least now / (period + limit) passes,
    each of N polls.
    */
  lemma IdlePollsAtLeast(t: Timing, queues: seq<seq<Job>>, workers: nat, events: seq<Event>)
    requires t.period > 0 && t.limit.Some? && EmptyBelow(queues, |queues|)
    requires !ClockRun(t, Begin(t, queues, workers), events).fleet.sh.shutdown
    ensures var c := ClockRun(t, Begin(t, queues, workers), events); var least := c.now / (t.period + Limit(t));
            && |c.timers| == workers
            && (forall w :: 0 <= w < workers ==> c.timers[w].ends >= least)
            && c.fleet.sh.polls >= |queues| * (workers * least)
  {
    RunFromBegin(t, queues, workers, events);
    EndsAtLeast(t, ClockRun(t, Begin(t, queues, workers), events), workers);
  }

  // ---- The busiest fleet ------------------------------------------------------------------------

  lemma {:induction false} ClockConcat(t: Timing, c: Clocked, es: seq<Event>, fs: seq<Event>)
    ensures ClockRun(t, c, es + fs) == ClockRun(t, ClockRun(t, c, es), fs)
    decreases es
  {
    if es == [] {
      assert es + fs == fs;
    } else {
      assert (es + fs)[1..] == es[1..] + fs;
      ClockConcat(t, ClockStep(t, c, es[0]), es[1..], fs);
    }
  }

  lemma {:induction false} ClockFirst(t: Timing, c: Clocked, e: Event, rest: seq<Event>)
    ensures ClockRun(t, c, [e] + rest) == ClockRun(t, ClockStep(t, c, e), rest)
  {
    assert ([e] + rest)[1..] == rest;
  }

  /** A fleet on empty lists that nobody has shut down. */
  ghost predicate Idling(c: Clocked, keys: nat, workers: nat) {
    && |c.fleet.sh.queues| == keys && EmptyBelow(c.fleet.sh.queues, keys) && !c.fleet.sh.shutdown
    && |c.fleet.pcs| == |c.timers| == workers
  }

  /** From `c` to `d` worker `w` alone has moved, to `pc`, making `polls` polls in no time. */
  ghost predicate Moves(c: Clocked, d: Clocked, keys: nat, workers: nat, w: nat, pc: Pc, polls: nat) {
    && Idling(d, keys, workers) && d.now == c.now && w < |c.fleet.pcs|
    && d.fleet.pcs == c.fleet.pcs[w := pc] && d.fleet.sh.polls == c.fleet.sh.polls + polls
  }

  lemma PollStep(t: Timing, c: Clocked, w: nat, op: Op, keys: nat, workers: nat)
    requires Idling(c, keys, workers) && w < workers
    requires var pc := c.fleet.pcs[w];
             || (pc.Scan? && pc.key < keys && op == Issue) || (pc.Waiting? && pc.key < keys && op == Serve)
             || (pc.Served? && pc.reply.Nil? && op == Deliver)
    ensures var d := ClockStep(t, c, Do(Act(w, op))); var pc := c.fleet.pcs[w];
            && d.timers == c.timers
            && Moves(c, d, keys, workers, w,
                     if pc.Scan? then Waiting(pc.key) else if pc.Waiting? then Served(pc.key, Nil) else Scan(pc.key + 1),
                     if pc.Scan? then 1 else 0)
  {
    var pc := c.fleet.pcs[w];
    MoveOnEmpty(c.fleet.sh, pc, op, w in c.fleet.sh.condemned);
    assert c.timers[w := c.timers[w]] == c.timers;
  }

  lemma {:induction false} PollOne(t: Timing, c: Clocked, w: nat, i: nat, keys: nat, workers: nat)
    requires Idling(c, keys, workers) && w < workers && i < keys && c.fleet.pcs[w] == Scan(i)
    ensures var d := ClockRun(t, c, [Do(Act(w, Issue))] + ([Do(Act(w, Serve))] + [Do(Act(w, Deliver))]));
            Moves(c, d, keys, workers, w, Scan(i + 1), 1) && d.timers == c.timers
  {
    var a := ClockStep(t, c, Do(Act(w, Issue)));
    var b := ClockStep(t, a, Do(Act(w, Serve)));
    PollStep(t, c, w, Issue, keys, workers);
    PollStep(t, a, w, Serve, keys, workers);
    PollStep(t, b, w, Deliver, keys, workers);
    ClockFirst(t, c, Do(Act(w, Issue)), [Do(Act(w, Serve))] + [Do(Act(w, Deliver))]);
    ClockFirst(t, a, Do(Act(w, Serve)), [Do(Act(w, Deliver))]);
    ClockFirst(t, b, Do(Act(w, Deliver)), []);
    assert [Do(Act(w, Deliver))] + [] == [Do(Act(w, Deliver))];
  }

  lemma {:induction false} PollFrom(t: Timing, c: Clocked, w: nat, i: nat, keys: nat, workers: nat)
    returns (events: seq<Event>)
    requires Idling(c, keys, workers) && w < workers && i <= keys && c.fleet.pcs[w] == Scan(i)
    ensures var d := ClockRun(t, c, events);
            Moves(c, d, keys, workers, w, Scan(keys), keys - i) && d.timers == c.timers
    decreases keys - i
  {
    if i == keys {
      events := [];
    } else {
      var one := [Do(Act(w, Issue))] + ([Do(Act(w, Serve))] + [Do(Act(w, Deliver))]);
      PollOne(t, c, w, i, keys, workers);
      var rest := PollFrom(t, ClockRun(t, c, one), w, i + 1, keys, workers);
      ClockConcat(t, c, one, rest);
      events := one + rest;
    }
  }

  ghost predicate Ready(c: Clocked, w: nat)
    requires w < |c.fleet.pcs| && w < |c.timers|
  {
    c.fleet.pcs[w].Top? || (c.fleet.pcs[w].Sleeping? && c.timers[w].wakeAt <= c.now)
  }

  ghost predicate Resting(t: Timing, c: Clocked, w: nat, wake: nat)
    requires w < |c.fleet.pcs| && w < |c.timers|
  {
    c.fleet.pcs[w].Sleeping? && c.timers[w].wakeAt == wake && c.timers[w].deadline == wake + Limit(t)
  }

  /** From `c` to `d` only worker `w` has moved. */
  ghost predicate OthersStay(c: Clocked, d: Clocked, w: nat) {
    && d.now == c.now && |d.fleet.pcs| == |c.fleet.pcs| && |d.timers| == |c.timers| == |c.fleet.pcs|
    && forall v :: 0 <= v < |c.fleet.pcs| && v != w ==> d.fleet.pcs[v] == c.fleet.pcs[v] && d.timers[v] == c.timers[v]
  }

  lemma {:induction false} StartPass(t: Timing, c: Clocked, w: nat, keys: nat, workers: nat) returns (events: seq<Event>)
    requires Idling(c, keys, workers) && w < workers && Ready(c, w)
    ensures var d := ClockRun(t, c, events); Moves(c, d, keys, workers, w, Scan(0), 0) && OthersStay(c, d, w)
  {
    var wake := if c.fleet.pcs[w].Top? then [] else [Do(Act(w, Wake))];
    var d := ClockRun(t, c, wake);
    if wake != [] {
      ClockFirst(t, c, Do(Act(w, Wake)), []);
      assert [Do(Act(w, Wake))] + [] == [Do(Act(w, Wake))];
    }
    assert d.fleet.pcs[w] == Top;
    ClockFirst(t, d, Do(Act(w, CheckFlag)), []);
    assert [Do(Act(w, CheckFlag))] + [] == [Do(Act(w, CheckFlag))];
    ClockConcat(t, c, wake, [Do(Act(w, CheckFlag))]);
    events := wake + [Do(Act(w, CheckFlag))];
  }

  lemma {:induction false} StopPass(t: Timing, c: Clocked, w: nat, keys: nat, workers: nat)
    requires Idling(c, keys, workers) && w < workers && c.fleet.pcs[w] == Scan(keys)
    ensures var d := ClockRun(t, c, [Do(Act(w, EndPass))]);
            Moves(c, d, keys, workers, w, Sleeping, 0) && OthersStay(c, d, w) && Resting(t, d, w, c.now + t.period)
  {
    ClockFirst(t, c, Do(Act(w, EndPass)), []);
    assert [Do(Act(w, EndPass))] + [] == [Do(Act(w, EndPass))];
  }

  /** A pass that takes no time. */
  lemma {:induction false} FastPass(t: Timing, c: Clocked, w: nat, keys: nat, workers: nat) returns (events: seq<Event>)
    requires Idling(c, keys, workers) && w < workers && Ready(c, w)
    ensures var d := ClockRun(t, c, events);
            && Moves(c, d, keys, workers, w, Sleeping, keys) && OthersStay(c, d, w)
            && Resting(t, d, w, c.now + t.period)
  {
    var there := StartPass(t, c, w, keys, workers);
    var a := ClockRun(t, c, there);
    var polls := PollFrom(t, a, w, 0, keys, workers);
    var b := ClockRun(t, a, polls);
    StopPass(t, b, w, keys, workers);
    ClockConcat(t, c, there, polls);
    ClockConcat(t, c, there + polls, [Do(Act(w, EndPass))]);
    events := there + polls + [Do(Act(w, EndPass))];
  }

  /** The first `w` workers rest till `wake`, the others are ready. */
  ghost predicate Lap(t: Timing, c: Clocked, keys: nat, workers: nat, w: nat, wake: nat) {
    && Idling(c, keys, workers)
    && (forall v :: 0 <= v < workers && v < w ==> Resting(t, c, v, wake))
    && (forall v :: w <= v < workers ==> Ready(c, v))
  }

  /** A pass of every worker, one after the other. */
  lemma {:induction false} FastLap(t: Timing, c: Clocked, keys: nat, workers: nat, w: nat) returns (events: seq<Event>)
    requires w <= workers && Lap(t, c, keys, workers, 0, 0)
    ensures var d := ClockRun(t, c, events);
            && Lap(t, d, keys, workers, w, c.now + t.period) && d.now == c.now
            && d.fleet.sh.polls == c.fleet.sh.polls + PassesCost(keys, w)
  {
    if w == 0 {
      events := [];
    } else {
      var before := FastLap(t, c, keys, workers, w - 1);
      var a := ClockRun(t, c, before);
      var pass := FastPass(t, a, w - 1, keys, workers);
      ClockConcat(t, c, before, pass);
      events := before + pass;
      var d, wake := ClockRun(t, c, events), c.now + t.period;
      forall v | 0 <= v < w ensures Resting(t, d, v, wake) {
        assert v < w - 1 ==> Resting(t, a, v, wake);
      }
      forall v | w <= v < workers ensures Ready(d, v) {
        assert Ready(a, v);
      }
    }
  }

  /** A resting fleet waits, exactly till it wakes. */
  lemma {:induction false} WaitTill(t: Timing, c: Clocked, keys: nat, workers: nat, wake: nat) returns (events: seq<Event>)
    requires Lap(t, c, keys, workers, workers, wake) && c.now <= wake <= t.span
    ensures var d := ClockRun(t, c, events);
            d.now == wake && Lap(t, d, keys, workers, 0, 0) && d.fleet.sh.polls == c.fleet.sh.polls
    decreases wake - c.now
  {
    if c.now == wake {
      forall v | 0 <= v < workers ensures Ready(c, v) {
        assert Resting(t, c, v, wake);
      }
      events := [];
    } else {
      var d := ClockStep(t, c, Tick);
      forall v | 0 <= v < workers ensures c.now < c.timers[v].deadline {
        assert Resting(t, c, v, wake);
      }
      assert d == c.(now := c.now + 1);
      forall v | 0 <= v < workers ensures Resting(t, d, v, wake) {
        assert Resting(t, c, v, wake);
      }
      var rest := WaitTill(t, d, keys, workers, wake);
      ClockFirst(t, c, Tick, rest);
      events := [Tick] + rest;
    }
  }

  lemma {:induction false} NextLap(t: Timing, c: Clocked, keys: nat, workers: nat, wake: nat) returns (events: seq<Event>)
    requires Lap(t, c, keys, workers, workers, wake) && c.now <= wake <= t.span
    ensures var d := ClockRun(t, c, events);
            && Lap(t, d, keys, workers, workers, wake + t.period) && d.now == wake
            && d.fleet.sh.polls == c.fleet.sh.polls + PassesCost(keys, workers)
  {
    var wait := WaitTill(t, c, keys, workers, wake);
    var lap := FastLap(t, ClockRun(t, c, wait), keys, workers, workers);
    ClockConcat(t, c, wait, lap);
    events := wait + lap;
  }

  /** `laps` of them, one each period. */
  lemma {:induction false} FastLaps(t: Timing, c: Clocked, keys: nat, workers: nat, laps: nat) returns (events: seq<Event>)
    requires Lap(t, c, keys, workers, 0, 0) && c.now == 0 && laps > 0 && Times(laps - 1, t.period) <= t.span
    ensures var d := ClockRun(t, c, events);
            && Lap(t, d, keys, workers, workers, Times(laps, t.period)) && d.now == Times(laps - 1, t.period)
            && d.fleet.sh.polls == c.fleet.sh.polls + PassesCost(keys, Times(laps, workers))
  {
    if laps == 1 {
      events := FastLap(t, c, keys, workers, workers);
      assert Times(1, t.period) == t.period && Times(1, workers) == workers;
    } else {
      var before := FastLaps(t, c, keys, workers, laps - 1);
      var lap := NextLap(t, ClockRun(t, c, before), keys, workers, Times(laps - 1, t.period));
      ClockConcat(t, c, before, lap);
      CostAdd(keys, Times(laps - 1, workers), workers);
      events := before + lap;
    }
  }

  /** From the start: W * N polls in each lap. */
  lemma {:induction false} BusyRun(t: Timing, queues: seq<seq<Job>>, workers: nat, laps: nat) returns (events: seq<Event>)
    requires EmptyBelow(queues, |queues|) && laps > 0 && Times(laps - 1, t.period) <= t.span
    ensures var d := ClockRun(t, Begin(t, queues, workers), events);
            d.now == Times(laps - 1, t.period) && d.fleet.sh.polls == |queues| * (workers * laps)
  {
    events := FastLaps(t, Begin(t, queues, workers), |queues|, workers, laps);
    TimesIsProduct(laps, workers);
    PassesCostIsProduct(|queues|, workers * laps);
  }

  /**
    The bound is reached: some run of every idle fleet makes all of W * N * (span / period + 1)
    polls. For one list that is strictly more than the workers * span / period that the
    interval alone suggests.
    */
  lemma {:induction false} IdlePollsReachTheBound(t: Timing, queues: seq<seq<Job>>, workers: nat)
    requires t.period > 0 && EmptyBelow(queues, |queues|)
    ensures exists events ::
              ClockRun(t, Begin(t, queues, workers), events).fleet.sh.polls == |queues| * (workers * (t.span / t.period + 1))
    ensures workers > 0 ==> (workers * (t.span / t.period + 1)) * t.period > workers * t.span
  {
    var laps := t.span / t.period + 1;
    TimesIsProduct(laps - 1, t.period);
    var events := BusyRun(t, queues, workers, laps);
    assert ClockRun(t, Begin(t, queues, workers), events).fleet.sh.polls == |queues| * (workers * laps);
    if workers > 0 {
      MoreThanSuggested(workers, t.span, t.period);
    }
  }

  lemma MoreThanSuggested(workers: nat, span: nat, period: nat)
    requires period > 0 && workers > 0
    ensures (workers * (span / period + 1)) * period > workers * span
  {
    var q := span / period;
    assert span < (q + 1) * period by {
      assert span < q * period + period;
    }
    ScaleLess(workers, span, q + 1, period);
  }

  lemma ScaleLess(workers: nat, span: nat, laps: nat, period: nat)
    requires span < laps * period && workers > 0
    ensures workers * span < (workers * laps) * period
  {
    var cycle := laps * period;
    assert (workers * laps) * period == workers * cycle;
    MulGap(span, cycle, workers);
  }

  /** With interval 0 there is no bound: any fleet with lists to poll can make any number of laps in no time at all. */
  lemma {:induction false} IntervalMustBePositive(t: Timing, queues: seq<seq<Job>>, workers: nat, laps: nat)
    requires t.period == 0 && EmptyBelow(queues, |queues|)
    ensures exists events ::
              var c := ClockRun(t, Begin(t, queues, workers), events);
              c.now == 0 && c.fleet.sh.polls == |queues| * (workers * laps)
  {
    var c := Begin(t, queues, workers);
    if laps == 0 {
      assert |queues| * (workers * 0) == 0;
      assert ClockRun(t, c, []).now == 0;
    } else {
      TimesIsProduct(laps - 1, 0);
      var events := BusyRun(t, queues, workers, laps);
      assert ClockRun(t, c, events).now == 0;
    }
  }
}
