/**
  What a drain trial reports: its final numbers, and the series that its monitor samples
  and its orchestrator copies.
  */
module TrialReport {
  import opened Basics
  import opened Fleet
  import opened FleetLedger
  import opened FleetLatency
  import opened FleetShutdown
  import opened Sampling
  import opened Trial
  import opened TrialTasks

  lemma {:induction false} SumPrefix(xs: seq<nat>, ys: seq<nat>)
    requires xs <= ys
    ensures Sum(xs) <= Sum(ys)
    decreases ys
  {
    if |xs| < |ys| {
      SumPrefix(xs, ys[..|ys| - 1]);
      SumNext(ys[..|ys| - 1], ys[|ys| - 1]);
      assert ys == ys[..|ys| - 1] + [ys[|ys| - 1]];
    } else {
      assert xs == ys;
    }
  }

  lemma {:induction false} PlayKeepsConfig(fits: Fits, r: Run, events: seq<Event>)
    ensures var t := Play(fits, r, events);
            && t.jobs == r.jobs && t.names == r.names && t.fleet.sh.target == r.fleet.sh.target
            && |t.fleet.sh.queues| == |r.fleet.sh.queues| && |t.fleet.pcs| == |r.fleet.pcs|
    decreases events
  {
    if events == [] {
    } else {
      var init := events[..|events| - 1];
      PlayKeepsConfig(fits, r, init);
      NextKeepsConfig(fits, Play(fits, r, init), events[|events| - 1]);
    }
  }

  lemma NextKeepsConfig(fits: Fits, r: Run, e: Event)
    ensures var t := Next(fits, r, e);
            && t.jobs == r.jobs && t.names == r.names && t.fleet.sh.target == r.fleet.sh.target
            && |t.fleet.sh.queues| == |r.fleet.sh.queues| && |t.fleet.pcs| == |r.fleet.pcs|
  {
    match e
    case FleetStep(a) => ExecShape(r.fleet, [a]);
    case CondemnWorker(w) => ExecShape(r.fleet, [Condemn(w)]);
    case MainStep(_) => ExecShape(r.fleet, [Shutdown]);
    case _ =>
  }

  // ---- Final numbers -------------------------------------------------------------------------

  lemma {:induction false} ClosedIsFinal(fits: Fits, r: Run, events: seq<Event>)
    requires TasksOk(fits, r) && r.collector.closed
    ensures var t := Play(fits, r, events);
            && t.collector == r.collector && AllGone(t.fleet)
            && t.fleet.sh.completed == r.fleet.sh.completed && t.fleet.sh.errors == r.fleet.sh.errors
    decreases events
  {
    if events == [] {
    } else {
      var init := events[..|events| - 1];
      ClosedIsFinal(fits, r, init);
      FleetStays(fits, Play(fits, r, init), events[|events| - 1]);
    }
  }

  lemma FleetStays(fits: Fits, r: Run, e: Event)
    requires AllGone(r.fleet) && r.collector.closed
    ensures var s := Next(fits, r, e);
            && s.collector == r.collector && AllGone(s.fleet)
            && s.fleet.sh.completed == r.fleet.sh.completed && s.fleet.sh.errors == r.fleet.sh.errors
  {
    match e
    case FleetStep(a) => StepsGrow(r.fleet, a);
    case CondemnWorker(w) => StepsGrow(r.fleet, Condemn(w));
    case MainStep(_) => StepsGrow(r.fleet, Shutdown);
    case _ =>
  }

  /** The fleet of a trial is a fleet. */
  lemma {:induction false} PlayLedger(fits: Fits, r: Run, events: seq<Event>, pushed: nat, strays: nat)
    requires Ledger(r.fleet, pushed, strays)
    ensures Ledger(Play(fits, r, events).fleet, pushed, strays)
    decreases events
  {
    if events == [] {
    } else {
      var init := events[..|events| - 1];
      PlayLedger(fits, r, init, pushed, strays);
      NextLedger(fits, Play(fits, r, init), events[|events| - 1], pushed, strays);
    }
  }

  lemma NextLedger(fits: Fits, r: Run, e: Event, pushed: nat, strays: nat)
    requires Ledger(r.fleet, pushed, strays)
    ensures Ledger(Next(fits, r, e).fleet, pushed, strays)
  {
    var a := NextFleet(fits, r, e);
    LedgerStep(r.fleet, a, pushed, strays);
  }

  lemma NextFleet(fits: Fits, r: Run, e: Event) returns (a: Action)
    ensures Next(fits, r, e).fleet == r.fleet || Next(fits, r, e).fleet == Step(r.fleet, a)
  {
    a := match e
      case FleetStep(a) => a
      case CondemnWorker(w) => Condemn(w)
      case _ => Shutdown;
  }

  lemma LedgerFromStart(fits: Fits, queues: seq<seq<Job>>, workers: nat, jobs: nat, orphans: seq<nat>,
                        names: seq<string>, events: seq<Event>)
    requires forall k :: 0 <= k < |orphans| ==> orphans[k] < |queues|
    ensures Ledger(Play(fits, Start(queues, workers, jobs, orphans, names), events).fleet,
                   |Flatten(queues)|, |orphans|)
  {
    BootLedger(queues, workers, Some(jobs), orphans);
    PlayLedger(fits, Start(queues, workers, jobs, orphans, names), events, |Flatten(queues)|, |orphans|);
  }

  lemma PlayKeepsStart(fits: Fits, queues: seq<seq<Job>>, workers: nat, jobs: nat, orphans: seq<nat>,
                       names: seq<string>, events: seq<Event>)
    ensures var r := Play(fits, Start(queues, workers, jobs, orphans, names), events);
            && r.jobs == jobs && r.names == names && r.fleet.sh.target == Some(jobs)
            && |r.fleet.sh.queues| == |queues| && |r.fleet.pcs| == workers
  {
    PlayKeepsConfig(fits, Start(queues, workers, jobs, orphans, names), events);
  }

  lemma BalanceAt(fits: Fits, r: Run, pushed: nat, strays: nat)
    requires TasksOk(fits, r) && r.collector.closed && Ledger(r.fleet, pushed, strays)
    ensures |r.collector.got.hist| + r.collector.got.ignored + r.fleet.sh.past.badPayloads == r.fleet.sh.completed
    ensures r.fleet.sh.errors == r.fleet.sh.past.lpopErrors + r.fleet.sh.past.badPayloads
    ensures AllGone(r.fleet) && r.collector.got.hist == Fitting(fits, r.fleet.sh.sent)
  {
    TotalZero(RecordedOnly, r.fleet.pcs);
    assert r.fleet.sh.sent[..|r.fleet.sh.sent|] == r.fleet.sh.sent;
  }

  /**
    Final numbers are final and balance. Once the collector has seen its channel closed,
    every worker is gone - although `join_workers` does not wait for aborted ones - and
    nothing that happens later changes the counters or the histogram; and every completed
    job is in the histogram, was out of its range, or had a bad payload, even after a
    timeout and aborts.
    */
  lemma FinalNumbersBalance(fits: Fits, queues: seq<seq<Job>>, workers: nat, jobs: nat, orphans: seq<nat>,
                            names: seq<string>, before: seq<Event>, after: seq<Event>)
    requires forall k :: 0 <= k < |orphans| ==> orphans[k] < |queues|
    requires Play(fits, Start(queues, workers, jobs, orphans, names), before).collector.closed
    ensures var r := Play(fits, Start(queues, workers, jobs, orphans, names), before);
            var t := Play(fits, r, after);
            && AllGone(r.fleet)
            && t.collector == r.collector
            && t.fleet.sh.completed == r.fleet.sh.completed && t.fleet.sh.errors == r.fleet.sh.errors
            && |r.collector.got.hist| + r.collector.got.ignored + r.fleet.sh.past.badPayloads == r.fleet.sh.completed
            && r.fleet.sh.errors == r.fleet.sh.past.lpopErrors + r.fleet.sh.past.badPayloads
            && Contains(fits, r.collector.got.hist, r.fleet.sh.sent)
  {
    PlayFromStart(fits, queues, workers, jobs, orphans, names, before);
    var r := Play(fits, Start(queues, workers, jobs, orphans, names), before);
    LedgerFromStart(fits, queues, workers, jobs, orphans, names, before);
    BalanceAt(fits, r, |Flatten(queues)|, |orphans|);
    ClosedIsFinal(fits, r, after);
    HistogramHoldsSent(fits, queues, workers, jobs, orphans, names, before);
  }

  lemma {:induction false} PlaySendsPositive(fits: Fits, r: Run, events: seq<Event>)
    requires AllPositive(r.fleet.sh.sent)
    ensures AllPositive(Play(fits, r, events).fleet.sh.sent)
    decreases events
  {
    if events == [] {
    } else {
      var s := Play(fits, r, events[..|events| - 1]);
      PlaySendsPositive(fits, r, events[..|events| - 1]);
      var a := NextFleet(fits, s, events[|events| - 1]);
      StepSendsPositive(s.fleet, a);
    }
  }

  lemma {:induction false} PlayStamped(fits: Fits, r: Run, events: seq<Event>)
    requires Clean(r.fleet)
    ensures Clean(Play(fits, r, events).fleet)
    decreases events
  {
    if events == [] {
    } else {
      var s := Play(fits, r, events[..|events| - 1]);
      PlayStamped(fits, r, events[..|events| - 1]);
      var a := NextFleet(fits, s, events[|events| - 1]);
      StepStamped(s.fleet, a);
    }
  }

  lemma {:induction false} FittingHolds(fits: Fits, us: seq<nat>)
    requires AllPositive(us)
    ensures Contains(fits, Fitting(fits, us), us)
  {
    if us == [] {
    } else {
      var init, last := us[..|us| - 1], us[|us| - 1];
      FittingHolds(fits, init);
      HoldsNext(fits, Fitting(fits, init), init, last);
      assert us == init + [last];
    }
  }

  /** At every step the trial histogram holds the latencies received so far, each as often as it was sent. */
  lemma HistogramHoldsSent(fits: Fits, queues: seq<seq<Job>>, workers: nat, jobs: nat, orphans: seq<nat>,
                           names: seq<string>, events: seq<Event>)
    ensures var r := Play(fits, Start(queues, workers, jobs, orphans, names), events);
            && r.collector.received <= |r.fleet.sh.sent|
            && Contains(fits, r.collector.got.hist, r.fleet.sh.sent[..r.collector.received])
            && (r.collector.closed ==> Contains(fits, r.collector.got.hist, r.fleet.sh.sent))
  {
    PlayFromStart(fits, queues, workers, jobs, orphans, names, events);
    PlaySendsPositive(fits, Start(queues, workers, jobs, orphans, names), events);
    HoldsAt(fits, Play(fits, Start(queues, workers, jobs, orphans, names), events));
  }

  /** And so does the reported one, of all that was sent. */
  lemma ReportHoldsSent(fits: Fits, queues: seq<seq<Job>>, workers: nat, jobs: nat, orphans: seq<nat>,
                        names: seq<string>, events: seq<Event>)
    requires Play(fits, Start(queues, workers, jobs, orphans, names), events).main == Returned
    ensures var r := Play(fits, Start(queues, workers, jobs, orphans, names), events);
            Contains(fits, r.report.hist, r.fleet.sh.sent)
  {
    PlayFromStart(fits, queues, workers, jobs, orphans, names, events);
    HistogramHoldsSent(fits, queues, workers, jobs, orphans, names, events);
  }

  lemma HoldsAt(fits: Fits, r: Run)
    requires TasksOk(fits, r) && AllPositive(r.fleet.sh.sent)
    ensures Contains(fits, r.collector.got.hist, r.fleet.sh.sent[..r.collector.received])
    ensures r.collector.closed ==> Contains(fits, r.collector.got.hist, r.fleet.sh.sent)
  {
    FittingHolds(fits, r.fleet.sh.sent[..r.collector.received]);
    assert r.fleet.sh.sent[..|r.fleet.sh.sent|] == r.fleet.sh.sent;
  }

  // ---- The collector of a trial is the collector loop ----------------------------------------------

  /** What reaches the collector in this event. */
  function ArrivalOf(fits: Fits, r: Run, e: Event): seq<Arrival> {
    match e
    case ReceiveLatency =>
      if !r.collector.closed && r.collector.received < |r.fleet.sh.sent|
      then [Latency(r.fleet.sh.sent[r.collector.received])] else []
    case ServeSnapshot => if !r.collector.closed && r.request == Pending then [Snapshot] else []
    case _ => []
  }

  function Arrivals(fits: Fits, r: Run, events: seq<Event>): seq<Arrival>
    decreases events
  {
    if events == [] then []
    else
      var init := events[..|events| - 1];
      Arrivals(fits, r, init) + ArrivalOf(fits, Play(fits, r, init), events[|events| - 1])
  }

  lemma NextCollects(fits: Fits, r: Run, e: Event, before: seq<Arrival>)
    requires r.collector.got == Collect(fits, before)
    ensures Next(fits, r, e).collector.got == Collect(fits, before + ArrivalOf(fits, r, e))
  {
    var arrival := ArrivalOf(fits, r, e);
    if arrival == [] {
      assert before + arrival == before;
      NothingCollected(fits, r, e);
    } else {
      OneArrivalMore(fits, before, arrival[0]);
      assert arrival == [arrival[0]];
    }
  }

  lemma NothingCollected(fits: Fits, r: Run, e: Event)
    requires ArrivalOf(fits, r, e) == []
    ensures Next(fits, r, e).collector.got == r.collector.got
  {
  }

  /** Whatever a trial interleaves, its collector is where the collector loop is after what has reached it. */
  lemma {:induction false} CollectorIsTheLoop(fits: Fits, queues: seq<seq<Job>>, workers: nat, jobs: nat, orphans: seq<nat>,
                                              names: seq<string>, events: seq<Event>)
    ensures var r0 := Start(queues, workers, jobs, orphans, names);
            Play(fits, r0, events).collector.got == Collect(fits, Arrivals(fits, r0, events))
    decreases events
  {
    var r0 := Start(queues, workers, jobs, orphans, names);
    if events == [] {
    } else {
      var init := events[..|events| - 1];
      CollectorIsTheLoop(fits, queues, workers, jobs, orphans, names, init);
      NextCollects(fits, Play(fits, r0, init), events[|events| - 1], Arrivals(fits, r0, init));
    }
  }

  // ---- The time-out and the join -----------------------------------------------------------------

  /** The orchestrator gives up waiting for the drain. */
  predicate GivesUp(r: Run, e: Event) {
    r.main.Draining? && r.jobs > 0 && e == MainStep(true)
  }

  ghost predicate GaveUp(fits: Fits, r: Run, events: seq<Event>) {
    exists i :: 0 <= i < |events| && GivesUp(Play(fits, r, events[..i]), events[i])
  }

  lemma NextTimedOut(fits: Fits, r: Run, e: Event)
    ensures Next(fits, r, e).report.timedOut <==> r.report.timedOut || GivesUp(r, e)
  {
  }

  lemma GaveUpNext(fits: Fits, r: Run, events: seq<Event>)
    requires events != []
    ensures var init, e := events[..|events| - 1], events[|events| - 1];
            GaveUp(fits, r, events) <==> GaveUp(fits, r, init) || GivesUp(Play(fits, r, init), e)
  {
    var init := events[..|events| - 1];
    if i :| 0 <= i < |events| && GivesUp(Play(fits, r, events[..i]), events[i]) {
      assert i < |init| ==> init[..i] == events[..i] && init[i] == events[i];
    }
    if i :| 0 <= i < |init| && GivesUp(Play(fits, r, init[..i]), init[i]) {
      assert init[..i] == events[..i] && init[i] == events[i];
    }
  }

  lemma {:induction false} PlayTimedOut(fits: Fits, r: Run, events: seq<Event>)
    requires !r.report.timedOut
    ensures Play(fits, r, events).report.timedOut <==> GaveUp(fits, r, events)
    decreases events
  {
    if events == [] {
    } else {
      var init := events[..|events| - 1];
      PlayTimedOut(fits, r, init);
      NextTimedOut(fits, Play(fits, r, init), events[|events| - 1]);
      GaveUpNext(fits, r, events);
    }
  }

  /** A trial is reported as timed out if and only if its orchestrator gave up waiting for a drain with jobs. */
  lemma TimedOutExactlyWhenGivenUp(fits: Fits, queues: seq<seq<Job>>, workers: nat, jobs: nat, orphans: seq<nat>,
                                   names: seq<string>, events: seq<Event>)
    ensures var r0 := Start(queues, workers, jobs, orphans, names);
            Play(fits, r0, events).report.timedOut <==> GaveUp(fits, r0, events)
  {
    PlayTimedOut(fits, Start(queues, workers, jobs, orphans, names), events);
  }

  ghost predicate Joined(s: State) {
    forall w :: 0 <= w < |s.pcs| ==> Gone(s.pcs[w]) || w in s.sh.condemned
  }

  lemma StepKeepsJoined(s: State, a: Action)
    requires Joined(s)
    ensures Joined(Step(s, a))
  {
    if a.Act? && a.worker < |s.pcs| {
      MoveGrows(s.sh, s.pcs[a.worker], a.op, a.worker in s.sh.condemned);
      if Gone(s.pcs[a.worker]) {
        GoneStays(s.sh, s.pcs[a.worker], a.op, a.worker in s.sh.condemned);
      }
    }
  }

  lemma GoneStays(s: Shared, pc: Pc, op: Op, condemned: bool)
    requires Gone(pc)
    ensures Move(s, pc, op, condemned).pc == pc
  {
  }

  /** Past the join every worker has returned or has been told to abort. */
  lemma {:induction false} JoinWaitsForWorkers(fits: Fits, queues: seq<seq<Job>>, workers: nat, jobs: nat, orphans: seq<nat>,
                                               names: seq<string>, events: seq<Event>)
    ensures var r := Play(fits, Start(queues, workers, jobs, orphans, names), events);
            After(r.main, Joining) ==> Joined(r.fleet)
    decreases events
  {
    var r0 := Start(queues, workers, jobs, orphans, names);
    if events == [] {
    } else {
      var r := Play(fits, r0, events[..|events| - 1]);
      JoinWaitsForWorkers(fits, queues, workers, jobs, orphans, names, events[..|events| - 1]);
      NextJoined(fits, r, events[|events| - 1]);
    }
  }

  lemma NextJoined(fits: Fits, r: Run, e: Event)
    requires After(r.main, Joining) ==> Joined(r.fleet)
    ensures var t := Next(fits, r, e); After(t.main, Joining) ==> Joined(t.fleet)
  {
    if e.MainStep? {
      if Rank(r.main) <= Rank(Joining) {
        OrchestrateRank(r, e.timeout);
      }
    } else if After(r.main, Joining) {
      var a := NextFleet(fits, r, e);
      StepKeepsJoined(r.fleet, a);
    }
  }

  // ---- The report ------------------------------------------------------------------------------

  /** The reported series of a name: its multiplicity's worth of each of the first `copied` windows. */
  ghost predicate LatencyReported(rep: Report, recorded: seq<Window>, names: seq<string>) {
    && rep.copied <= |recorded|
    && (forall name :: SeriesAt(rep.latency, name) == Expected(recorded[..rep.copied], Multiplicity(names, name)))
    && (forall name :: |SeriesAt(rep.latency, name)| == rep.copied * Multiplicity(names, name))
  }

  lemma LatencyReportedAt(rep: Report, m: MonitorTask, taken: seq<Window>, names: seq<string>)
    requires LatencyCopied(rep, m, taken, names)
    ensures LatencyReported(rep, m.recorded, names)
  {
    forall name ensures |SeriesAt(rep.latency, name)| == rep.copied * Multiplicity(names, name) {
      ExpectedLength(m.recorded[..rep.copied], Multiplicity(names, name));
    }
  }

  lemma TakenAt(m: MonitorTask, request: Request, taken: seq<Window>)
    requires SnapshotsOk(m, request, taken)
    ensures m.recorded <= taken && |taken| <= |m.recorded| + 1
  {
  }

  lemma ReportedIsTaken(rep: Report, recorded: seq<Window>, taken: seq<Window>, names: seq<string>)
    requires LatencyReported(rep, recorded, names) && recorded <= taken
    ensures LatencyReported(rep, taken, names)
  {
    assert taken[..rep.copied] == recorded[..rep.copied];
  }

  /** A report with its trial: totals, samples and latency series. */
  ghost predicate Consistent(r: Run) {
    && r.report.totalJobs == r.fleet.sh.completed && r.report.errors == r.fleet.sh.errors
    && r.report.hist == r.collector.got.hist
    && r.report.throughput <= r.monitor.throughput && r.report.errorSeries <= r.monitor.errorSeries
    && Sum(r.report.throughput) <= r.report.totalJobs
    && Sum(r.report.errorSeries) <= r.report.errors
    && |r.report.errorSeries| <= |r.report.throughput| + 1
    && |r.report.throughput| <= |r.report.errorSeries| + 1
    && LatencyReported(r.report, r.collector.got.taken, r.names)
    && |r.collector.got.taken| <= r.report.copied + 1
    && (r.fleet.pcs != [] ==> |r.report.throughput| <= r.report.copied + 1 && r.report.copied <= |r.report.throughput| + 1)
    && (!r.report.timedOut && r.jobs > 0 ==> r.fleet.sh.done)
  }

  lemma ReportAt(fits: Fits, r: Run)
    requires TasksOk(fits, r) && r.main == Returned
    ensures AllGone(r.fleet) && Consistent(r)
  {
    SumPrefix(r.report.throughput, r.monitor.throughput);
    SumPrefix(r.report.errorSeries, r.monitor.errorSeries);
    LatencyReportedAt(r.report, r.monitor, r.collector.got.taken, r.names);
    TakenAt(r.monitor, r.request, r.collector.got.taken);
    ReportedIsTaken(r.report, r.monitor.recorded, r.collector.got.taken, r.names);
  }

  /**
    What a trial reports: the totals are the final counters, the throughput and error
    samples add up to no more than them, and a trial with jobs that did not time out has
    reached its target. The two sample series can differ in length by one, because the
    orchestrator copies them without waiting for the aborted monitor. Each name's latency
    series is its multiplicity's worth of the first windows taken, of which at most one is
    missing; and their number is that of the throughput samples, give or take one.
    */
  lemma ReportIsConsistent(fits: Fits, queues: seq<seq<Job>>, workers: nat, jobs: nat, orphans: seq<nat>,
                           names: seq<string>, events: seq<Event>)
    requires Play(fits, Start(queues, workers, jobs, orphans, names), events).main == Returned
    ensures var r := Play(fits, Start(queues, workers, jobs, orphans, names), events);
            AllGone(r.fleet) && Consistent(r) && r.jobs == jobs && r.names == names && |r.fleet.pcs| == workers
  {
    PlayFromStart(fits, queues, workers, jobs, orphans, names, events);
    PlayKeepsStart(fits, queues, workers, jobs, orphans, names, events);
    ReportAt(fits, Play(fits, Start(queues, workers, jobs, orphans, names), events));
  }

  // ---- The samples, at every step ----------------------------------------------------------------

  lemma SeriesAlign(m: MonitorTask, names: seq<string>)
    requires SeriesOk(m.series, m.recorded, names)
    ensures forall name :: |SeriesAt(m.series, name)| == |m.recorded| * Multiplicity(names, name)
  {
    forall name ensures |SeriesAt(m.series, name)| == |m.recorded| * Multiplicity(names, name) {
      ExpectedLength(m.recorded, Multiplicity(names, name));
    }
  }

  lemma PeaksAt(c: Collected, recorded: seq<Window>)
    requires Partitioned(c) && recorded <= c.taken
    ensures forall k :: 0 <= k < |recorded| ==> Peak(recorded[k]) <= Peak(c.hist)
  {
    forall k | 0 <= k < |recorded| ensures Peak(recorded[k]) <= Peak(c.hist) {
      WindowPeakWithinTrial(c, k);
    }
  }

  /** The monitor's samples against the counters, the collector and each other. */
  ghost predicate Telescopes(m: MonitorTask, s: Shared, got: Collected, names: seq<string>) {
    && !m.at.Underflow?
    && Sum(m.throughput) + PendingJobs(m.at) == m.prevJobs <= s.completed
    && Sum(m.errorSeries) + PendingErrors(m.at) == m.prevErrors <= s.errors
    && (m.at.Asleep? || m.at.Awaiting? || m.at.Cancelled? ==> |m.throughput| == |m.errorSeries|)
    && (forall name :: SeriesAt(m.series, name) == Expected(m.recorded, Multiplicity(names, name)))
    && (forall name :: |SeriesAt(m.series, name)| == |m.recorded| * Multiplicity(names, name))
    && m.recorded <= got.taken && |got.taken| <= |m.recorded| + 1
    && Partitioned(got)
    && (forall k :: 0 <= k < |m.recorded| ==> Peak(m.recorded[k]) <= Peak(got.hist))
  }

  lemma TelescopesAt(fits: Fits, r: Run)
    requires TasksOk(fits, r)
    ensures Telescopes(r.monitor, r.fleet.sh, r.collector.got, r.names)
  {
    SeriesAlign(r.monitor, r.names);
    TakenAt(r.monitor, r.request, r.collector.got.taken);
    PeaksAt(r.collector.got, r.monitor.recorded);
  }

  /**
    The samples, at every step of every trial: no subtraction underflows, the samples add
    up to the counter last read, the two series have equal length whenever the monitor
    awaits anything, each percentile name has its multiplicity's worth of entries for every
    recorded snapshot, of the snapshots taken at most one never gets recorded, and no
    window's maximum exceeds the trial's.
    */
  lemma SamplesTelescope(fits: Fits, queues: seq<seq<Job>>, workers: nat, jobs: nat, orphans: seq<nat>,
                         names: seq<string>, events: seq<Event>)
    ensures var r := Play(fits, Start(queues, workers, jobs, orphans, names), events);
            r.names == names && Telescopes(r.monitor, r.fleet.sh, r.collector.got, names)
  {
    PlayFromStart(fits, queues, workers, jobs, orphans, names, events);
    PlayKeepsStart(fits, queues, workers, jobs, orphans, names, events);
    TelescopesAt(fits, Play(fits, Start(queues, workers, jobs, orphans, names), events));
  }

  /**
    Windows and throughput samples are of the same ticks. Until its abort the monitor has
    recorded one window for every sample, but for the tick under way; after it, only the
    last tick may stay without a window.
    */
  lemma WindowsAreOfTheSameTicks(fits: Fits, queues: seq<seq<Job>>, workers: nat, jobs: nat, orphans: seq<nat>,
                                 names: seq<string>, events: seq<Event>)
    requires workers > 0
    ensures var m := Play(fits, Start(queues, workers, jobs, orphans, names), events).monitor;
            && |m.recorded| <= |m.throughput| <= |m.recorded| + 1
            && (!m.aborted ==> |m.throughput| == |m.recorded| + Unrecorded(m.at))
  {
    PlayFromStart(fits, queues, workers, jobs, orphans, names, events);
    PlayKeepsStart(fits, queues, workers, jobs, orphans, names, events);
  }

  lemma {:induction false} OneCopyEach(recorded: seq<Window>)
    ensures Expected(recorded, 1) == recorded
  {
    if recorded == [] {
    } else {
      var init, last := recorded[..|recorded| - 1], recorded[|recorded| - 1];
      OneCopyEach(init);
      assert Repeat(last, 1) == [last];
    }
  }

  lemma {:induction false} MonitorNext(fits: Fits, r: Run, n: nat)
    ensures Play(fits, r, Again(MonitorStep, n + 1)) == Play(fits, Next(fits, r, MonitorStep), Again(MonitorStep, n))
  {
    PlayNext(fits, r, MonitorStep, Again(MonitorStep, n));
  }

  lemma {:induction false} TickToPushes(fits: Fits, r: Run)
    requires r.monitor == Start([], 0, 0, [], []).monitor
    ensures var t := Play(fits, r, Again(MonitorStep, 3));
            t == r.(monitor := t.monitor) && t.monitor.at.Between? && t.monitor.recorded == [] && t.monitor.prevErrors == 0
  {
    var a := Next(fits, r, MonitorStep);
    var b := Next(fits, a, MonitorStep);
    MonitorNext(fits, r, 2);
    MonitorNext(fits, a, 1);
    MonitorNext(fits, b, 0);
  }

  lemma {:induction false} PushErrors(fits: Fits, r: Run)
    requires r.monitor.at.Between? && r.monitor.recorded == [] && r.monitor.prevErrors == 0
    ensures var t := Play(fits, r, Again(MonitorStep, 2));
            t == r.(monitor := t.monitor) && t.monitor.at.Asking? && t.monitor.recorded == []
  {
    MonitorNext(fits, r, 1);
    MonitorNext(fits, Next(fits, r, MonitorStep), 0);
  }

  lemma {:induction false} AskForWindow(fits: Fits, r: Run)
    requires r.monitor.at.Asking? && r.monitor.recorded == [] && !r.collector.closed
    ensures var t := Play(fits, r, Again(MonitorStep, 1));
            t.collector == r.collector && t.request == Pending && t.monitor.at.Awaiting? && t.monitor.recorded == []
  {
    MonitorNext(fits, r, 0);
  }

  lemma {:induction false} AwaitingToRecorded(fits: Fits, r: Run)
    requires r.monitor.at.Awaiting? && r.monitor.recorded == [] && r.request == Pending && !r.collector.closed
    ensures |Play(fits, r, [ServeSnapshot] + Again(MonitorStep, 2)).monitor.recorded| == 1
  {
    var a := Next(fits, r, ServeSnapshot);
    var b := Next(fits, a, MonitorStep);
    PlayNext(fits, r, ServeSnapshot, Again(MonitorStep, 2));
    MonitorNext(fits, a, 1);
    MonitorNext(fits, b, 0);
  }

  /** A whole tick, which records a window. */
  lemma {:induction false} FullTick(fits: Fits, r: Run) returns (events: seq<Event>)
    requires r.monitor == Start([], 0, 0, [], []).monitor && !r.collector.closed
    ensures |Play(fits, r, events).monitor.recorded| == 1
  {
    var a, b, c, d := Again(MonitorStep, 3), Again(MonitorStep, 2), Again(MonitorStep, 1), [ServeSnapshot] + Again(MonitorStep, 2);
    TickToPushes(fits, r);
    var s := Play(fits, r, a);
    PushErrors(fits, s);
    var t := Play(fits, s, b);
    AskForWindow(fits, t);
    AwaitingToRecorded(fits, Play(fits, t, c));
    PlayConcat(fits, r, a, b);
    PlayConcat(fits, r, a + b, c);
    PlayConcat(fits, r, a + b + c, d);
    events := a + b + c + d;
  }

  /** At every step of every trial, entry i of the name's latency series is the window of tick i. */
  ghost predicate AlwaysAligned(fits: Fits, queues: seq<seq<Job>>, workers: nat, jobs: nat, orphans: seq<nat>,
                                names: seq<string>, name: string) {
    forall events :: var m := Play(fits, Start(queues, workers, jobs, orphans, names), events).monitor;
                     SeriesAt(m.series, name) == m.recorded
  }

  /**
    The promised alignment of the latency series, exactly: by index it holds if and only if
    the percentile specs have the name once. A name they have twice gets two entries for
    each window, so that entry i is that of tick i / 2.
    */
  lemma {:induction false} AlignedExactlyWhenNamedOnce(fits: Fits, queues: seq<seq<Job>>, workers: nat, jobs: nat,
                                                       orphans: seq<nat>, names: seq<string>, name: string)
    ensures AlwaysAligned(fits, queues, workers, jobs, orphans, names, name) <==> Multiplicity(names, name) == 1
  {
    var r0 := Start(queues, workers, jobs, orphans, names);
    var copies := Multiplicity(names, name);
    if copies == 1 {
      forall events ensures var m := Play(fits, r0, events).monitor; SeriesAt(m.series, name) == m.recorded {
        SamplesTelescope(fits, queues, workers, jobs, orphans, names, events);
        OneCopyEach(Play(fits, r0, events).monitor.recorded);
      }
    } else {
      var events := FullTick(fits, r0);
      SamplesTelescope(fits, queues, workers, jobs, orphans, names, events);
      var m := Play(fits, r0, events).monitor;
      assert |SeriesAt(m.series, name)| == 1 * copies;
      assert SeriesAt(m.series, name) != m.recorded;
    }
  }

  /** Window `q` has its entries right after those of the windows before it. */
  lemma {:induction false} EntriesOfWindow(recorded: seq<Window>, copies: nat, q: nat, k: nat)
    requires q < |recorded| && k < copies
    ensures var at := |Expected(recorded[..q], copies)| + k;
            at < |Expected(recorded, copies)| && Expected(recorded, copies)[at] == recorded[q]
    decreases recorded
  {
    var init := recorded[..|recorded| - 1];
    if q == |init| {
      RepeatAt(recorded[q], copies, k);
    } else {
      assert init[..q] == recorded[..q];
      EntriesOfWindow(init, copies, q, k);
    }
  }

  lemma EntryOfWindow(recorded: seq<Window>, copies: nat, i: nat)
    requires i < |recorded| * copies
    ensures copies > 0 && i / copies < |recorded|
    ensures i < |Expected(recorded, copies)| && Expected(recorded, copies)[i] == recorded[i / copies]
  {
    QuotientBelow(i, |recorded|, copies);
    var q := i / copies;
    ExpectedLength(recorded[..q], copies);
    EntriesOfWindow(recorded, copies, q, i - q * copies);
  }

  lemma QuotientBelow(i: nat, n: nat, d: nat)
    requires i < n * d
    ensures d > 0 && i / d < n && 0 <= i - i / d * d < d
  {
    assert n * 0 == 0;
    if d > 0 {
      var q := i / d;
      assert q * d <= i < q * d + d;
      if n <= q {
        MulAtMost(n, q, d);
      }
    }
  }

  lemma MulAtMost(n: nat, q: nat, d: nat)
    requires n <= q
    ensures n * d <= q * d
  {
    if n < q {
      MulGap(n, q, d);
    }
  }

  lemma {:induction false} RepeatAt(w: Window, n: nat, i: nat)
    requires i < n
    ensures Repeat(w, n)[i] == w
  {
    if i == n - 1 {
    } else {
      RepeatAt(w, n - 1, i);
    }
  }

  /** In general, entry i of a name's series is the window of tick i / (how often the specs have the name). */
  lemma EntriesAreOfTheirTicks(fits: Fits, queues: seq<seq<Job>>, workers: nat, jobs: nat, orphans: seq<nat>,
                               names: seq<string>, events: seq<Event>, name: string, i: nat)
    requires var m := Play(fits, Start(queues, workers, jobs, orphans, names), events).monitor;
             i < |SeriesAt(m.series, name)|
    ensures var m := Play(fits, Start(queues, workers, jobs, orphans, names), events).monitor;
            var copies := Multiplicity(names, name);
            copies > 0 && i / copies < |m.recorded| && SeriesAt(m.series, name)[i] == m.recorded[i / copies]
  {
    SamplesTelescope(fits, queues, workers, jobs, orphans, names, events);
    EntryOfWindow(Play(fits, Start(queues, workers, jobs, orphans, names), events).monitor.recorded,
                  Multiplicity(names, name), i);
  }

  // ---- When the copied series agree -----------------------------------------------------------------

  /** The monitor has begun a tick whose two pushes are not both done. */
  predicate MidTick(at: MonitorPoint) {
    at.Woken? || at.GotJobs? || at.Between? || at.GotErrors?
  }

  predicate CopiesAgree(rep: Report) {
    |rep.throughput| == |rep.errorSeries|
  }

  /** An aborted monitor outside its pushes changes neither series any more. */
  ghost predicate Settled(p: MainPoint, rep: Report, m: MonitorTask) {
    && m.aborted && !MidTick(m.at) && |m.throughput| == |m.errorSeries|
    && (After(p, ReadThroughput) ==> rep.throughput == m.throughput)
    && (After(p, ReadErrorSeries) ==> rep.errorSeries == m.errorSeries)
  }

  lemma SampleSettled(p: MainPoint, rep: Report, m: MonitorTask, request: Request, ended: bool, completed: nat,
                      errors: nat, names: seq<string>)
    requires Settled(p, rep, m)
    ensures Settled(p, rep, Sample(m, request, ended, completed, errors, names).monitor)
  {
  }

  lemma MainSettled(r: Run, timeout: bool)
    requires Settled(r.main, r.report, r.monitor) && Rank(r.main) >= Rank(ReadThroughput)
    ensures var r' := Orchestrate(r, timeout);
            Settled(r'.main, r'.report, r'.monitor) && Rank(r'.main) >= Rank(ReadThroughput)
  {
  }

  lemma {:induction false} SettledStays(fits: Fits, r: Run, events: seq<Event>)
    requires Settled(r.main, r.report, r.monitor) && Rank(r.main) >= Rank(ReadThroughput)
    ensures var t := Play(fits, r, events);
            Settled(t.main, t.report, t.monitor) && Rank(t.main) >= Rank(ReadThroughput)
    decreases events
  {
    if events == [] {
    } else {
      var init := events[..|events| - 1];
      SettledStays(fits, r, init);
      var s := Play(fits, r, init);
      match events[|events| - 1]
      case MonitorStep =>
        SampleSettled(s.main, s.report, s.monitor, s.request, s.collector.closed, s.fleet.sh.completed,
                      s.fleet.sh.errors, s.names);
      case MainStep(timeout) => MainSettled(s, timeout);
      case _ =>
    }
  }

  /** Left alone, a monitor in mid-tick pushes its samples up to the error sample. */
  lemma {:induction false} TickFinishes(fits: Fits, r: Run) returns (events: seq<Event>)
    requires SamplesOk(r.monitor, r.fleet.sh.completed, r.fleet.sh.errors) && MidTick(r.monitor.at)
    ensures var t := Play(fits, r, events);
            t == r.(monitor := t.monitor, request := t.request) && |t.monitor.errorSeries| == |r.monitor.errorSeries| + 1
    decreases if r.monitor.at.Woken? then 4 else if r.monitor.at.GotJobs? then 3 else if r.monitor.at.Between? then 2 else 1
  {
    var m, completed, errors := r.monitor, r.fleet.sh.completed, r.fleet.sh.errors;
    var s := Next(fits, r, MonitorStep);
    PlayOne(fits, r, MonitorStep);
    if m.at.GotErrors? {
      events := [MonitorStep];
    } else {
      SampleSums(m, r.request, r.collector.closed, completed, errors, r.names);
      var rest := TickFinishes(fits, s);
      PlayNext(fits, r, MonitorStep, rest);
      events := [MonitorStep] + rest;
    }
  }

  /** The two copies, with what the monitor does between them, and the orchestrator's return. */
  lemma {:induction false} CopyAround(fits: Fits, r: Run, between: seq<Event>) returns (events: seq<Event>)
    requires r.main == ReadThroughput
    requires var s := Next(fits, r, MainStep(false));
             Play(fits, s, between) == s.(monitor := Play(fits, s, between).monitor, request := Play(fits, s, between).request)
    ensures var t := Play(fits, r, events);
            && t.main.Returned? && t.report.throughput == r.monitor.throughput
            && t.report.errorSeries == Play(fits, Next(fits, r, MainStep(false)), between).monitor.errorSeries
  {
    var s := Next(fits, r, MainStep(false));
    var t := Play(fits, s, between);
    var u := Next(fits, t, MainStep(false));
    var ending := [MainStep(false)] + [MainStep(false)];
    PlayNext(fits, t, MainStep(false), [MainStep(false)]);
    PlayOne(fits, u, MainStep(false));
    PlayConcat(fits, s, between, ending);
    PlayNext(fits, r, MainStep(false), between + ending);
    events := [MainStep(false)] + (between + ending);
  }

  /** In mid-tick the copies can come out different: the error series too short, or too long. */
  lemma {:induction false} MidTickDiffers(fits: Fits, r: Run) returns (events: seq<Event>)
    requires r.main == ReadThroughput && MidTick(r.monitor.at)
    requires SamplesOk(r.monitor, r.fleet.sh.completed, r.fleet.sh.errors)
    ensures var t := Play(fits, r, events);
            && t.main.Returned? && t.report.throughput == r.monitor.throughput
            && (if r.monitor.at.Woken? || r.monitor.at.GotJobs?
                then |t.report.errorSeries| == |t.report.throughput| + 1
                else |t.report.throughput| == |t.report.errorSeries| + 1)
  {
    var s := Next(fits, r, MainStep(false));
    if r.monitor.at.Woken? || r.monitor.at.GotJobs? {
      var between := TickFinishes(fits, s);
      events := CopyAround(fits, r, between);
    } else {
      events := CopyAround(fits, r, []);
    }
  }

  /** All continuations of `r` that make both copies make equally long ones. */
  ghost predicate AlwaysAgree(fits: Fits, r: Run) {
    forall after :: var t := Play(fits, r, after); After(t.main, ReadErrorSeries) ==> CopiesAgree(t.report)
  }

  lemma {:induction false} SettledAgrees(fits: Fits, r: Run)
    requires TasksOk(fits, r) && r.main == ReadThroughput && !MidTick(r.monitor.at)
    ensures AlwaysAgree(fits, r)
  {
    forall after ensures var t := Play(fits, r, after); After(t.main, ReadErrorSeries) ==> CopiesAgree(t.report) {
      SettledStays(fits, r, after);
    }
  }

  lemma {:induction false} MidTickDisagrees(fits: Fits, r: Run)
    requires TasksOk(fits, r) && r.main == ReadThroughput && MidTick(r.monitor.at)
    ensures !AlwaysAgree(fits, r)
  {
    var after := MidTickDiffers(fits, r);
    var t := Play(fits, r, after);
    assert After(t.main, ReadErrorSeries) && !CopiesAgree(t.report);
  }

  /**
    When the copied series agree. As the orchestrator begins to copy, every continuation of
    the trial, however the monitor's remaining steps fall between the two copies, reports
    throughput and error series of equal length if and only if the monitor is not in the
    middle of a tick.
    */
  lemma CopiesAgreeExactly(fits: Fits, queues: seq<seq<Job>>, workers: nat, jobs: nat, orphans: seq<nat>,
                           names: seq<string>, before: seq<Event>)
    requires Play(fits, Start(queues, workers, jobs, orphans, names), before).main == ReadThroughput
    ensures var r := Play(fits, Start(queues, workers, jobs, orphans, names), before);
            AlwaysAgree(fits, r) <==> !MidTick(r.monitor.at)
  {
    PlayFromStart(fits, queues, workers, jobs, orphans, names, before);
    var r := Play(fits, Start(queues, workers, jobs, orphans, names), before);
    if MidTick(r.monitor.at) {
      MidTickDisagrees(fits, r);
    } else {
      SettledAgrees(fits, r);
    }
  }

  // ---- Both ways of differing are reached ---------------------------------------------------------------

  function Again(e: Event, n: nat): seq<Event> {
    if n == 0 then [] else [e] + Again(e, n - 1)
  }

  /** The monitor `steps` into its first tick. */
  lemma {:induction false} FirstTick(fits: Fits, r: Run, steps: nat)
    requires r.monitor == Start([], 0, 0, [], []).monitor && steps <= 3
    ensures var t := Play(fits, r, Again(MonitorStep, steps)); var m := t.monitor;
            && t == r.(monitor := m) && !m.aborted && m.errorSeries == []
            && (steps == 1 ==> m.at.Woken? && m.throughput == [])
            && (steps == 3 ==> m.at.Between? && |m.throughput| == 1)
  {
    if steps > 0 {
      var a := Next(fits, r, MonitorStep);
      PlayNext(fits, r, MonitorStep, Again(MonitorStep, steps - 1));
      if steps > 1 {
        var b := Next(fits, a, MonitorStep);
        PlayNext(fits, a, MonitorStep, Again(MonitorStep, steps - 2));
        if steps > 2 {
          PlayNext(fits, b, MonitorStep, Again(MonitorStep, steps - 3));
        }
      }
    }
  }

  /** One step of an orchestrator that has timed out. */
  lemma {:induction false} MainNext(fits: Fits, r: Run, n: nat)
    ensures Play(fits, r, Again(MainStep(true), n + 1)) == Play(fits, Orchestrate(r, true), Again(MainStep(true), n))
  {
    PlayNext(fits, r, MainStep(true), Again(MainStep(true), n));
  }

  /** A timeout, the abort of the monitor and the shutdown. */
  lemma {:induction false} TimeoutToJoining(fits: Fits, r: Run)
    requires r.main == Spawning && r.jobs > 0
    ensures var t := Play(fits, r, Again(MainStep(true), 4));
            t.main == Joining && t.fleet == Step(r.fleet, Shutdown) && !t.sentinel
            && t.monitor == r.monitor.(aborted := true) && t.collector == r.collector
  {
    var a := Orchestrate(r, true);
    var b := Orchestrate(a, true);
    var c := Orchestrate(b, true);
    MainNext(fits, r, 3);
    MainNext(fits, a, 2);
    MainNext(fits, b, 1);
    MainNext(fits, c, 0);
  }

  lemma JoinStep(r: Run)
    requires r.main == Joining && AllGone(r.fleet)
    ensures Orchestrate(r, true) == r.(main := AwaitCollector)
  {
  }

  lemma ReadStep(r: Run)
    requires (r.main == AwaitCollector && r.collector.closed) || r.main == ReadJobs || r.main == ReadErrors
    ensures var t := Orchestrate(r, true);
            t.monitor == r.monitor && t.fleet == r.fleet
            && t.main == (if r.main == AwaitCollector then ReadJobs else if r.main == ReadJobs then ReadErrors else ReadThroughput)
  {
  }

  lemma {:induction false} JoiningToReading(fits: Fits, r: Run)
    requires r.main == Joining && AllGone(r.fleet) && r.collector.closed
    ensures var t := Play(fits, r, Again(MainStep(true), 4));
            t.main == ReadThroughput && t.monitor == r.monitor && t.fleet == r.fleet
  {
    var a := Orchestrate(r, true);
    var b := Orchestrate(a, true);
    var c := Orchestrate(b, true);
    JoinStep(r);
    ReadStep(a);
    ReadStep(b);
    ReadStep(c);
    MainNext(fits, r, 3);
    MainNext(fits, a, 2);
    MainNext(fits, b, 1);
    MainNext(fits, c, 0);
  }

  /** A lone worker at the loop top sees the shutdown, and the channel closes behind it. */
  lemma {:induction false} WorkerLeaves(fits: Fits, r: Run)
    requires r.fleet.pcs == [Top] && r.fleet.sh.shutdown && r.fleet.sh.sent == [] && !r.sentinel && r.collector.received == 0
    ensures var t := Play(fits, r, [FleetStep(Act(0, CheckFlag))] + [CloseCollector]);
            AllGone(t.fleet) && t.collector.closed && t.main == r.main && t.monitor == r.monitor
  {
    PlayNext(fits, r, FleetStep(Act(0, CheckFlag)), [CloseCollector]);
    var a := Next(fits, r, FleetStep(Act(0, CheckFlag)));
    assert a.fleet.pcs == [Exited];
    PlayOne(fits, a, CloseCollector);
  }

  lemma {:induction false} ToReading(fits: Fits, r: Run) returns (events: seq<Event>)
    requires r.main == Spawning && r.jobs > 0
    requires r.fleet.pcs == [Top] && r.fleet.sh.sent == [] && r.collector.received == 0
    ensures var t := Play(fits, r, events);
            t.main == ReadThroughput && t.monitor == r.monitor.(aborted := true)
  {
    var b, c := Again(MainStep(true), 4), [FleetStep(Act(0, CheckFlag))] + [CloseCollector];
    TimeoutToJoining(fits, r);
    var s := Play(fits, r, b);
    WorkerLeaves(fits, s);
    JoiningToReading(fits, Play(fits, s, c));
    PlayConcat(fits, r, b, c);
    PlayConcat(fits, r, b + c, b);
    events := b + c + b;
  }

  /** A run that reaches the copies with the monitor `steps` into its first tick. */
  lemma {:induction false} ReadingInMidTick(fits: Fits, r: Run, steps: nat) returns (events: seq<Event>)
    requires r.main == Spawning && r.jobs > 0 && r.monitor == Start([], 0, 0, [], []).monitor
    requires r.fleet.pcs == [Top] && r.fleet.sh.sent == [] && r.collector.received == 0 && (steps == 1 || steps == 3)
    ensures var t := Play(fits, r, events);
            && t.main == ReadThroughput && t.monitor.errorSeries == []
            && (if steps == 1 then t.monitor.at.Woken? && t.monitor.throughput == []
                else t.monitor.at.Between? && |t.monitor.throughput| == 1)
  {
    FirstTick(fits, r, steps);
    var a := Again(MonitorStep, steps);
    var rest := ToReading(fits, Play(fits, r, a));
    PlayConcat(fits, r, a, rest);
    events := a + rest;
  }

  lemma {:induction false} DifferingRun(fits: Fits, queues: seq<seq<Job>>, jobs: nat, names: seq<string>, steps: nat)
    returns (events: seq<Event>)
    requires jobs > 0 && (steps == 1 || steps == 3)
    ensures var r := Play(fits, Start(queues, 1, jobs, [], names), events);
            && r.main.Returned?
            && (if steps == 1 then r.report.throughput == [] && |r.report.errorSeries| == 1
                else |r.report.throughput| == 1 && r.report.errorSeries == [])
  {
    var r0 := Start(queues, 1, jobs, [], names);
    var before := ReadingInMidTick(fits, r0, steps);
    PlayFromStart(fits, queues, 1, jobs, [], names, before);
    var after := MidTickDiffers(fits, Play(fits, r0, before));
    PlayConcat(fits, r0, before, after);
    events := before + after;
  }

  /** It does happen, both ways: either series can be reported with a sample that the other lacks. */
  lemma {:induction false} TheCopiesCanDiffer(fits: Fits, queues: seq<seq<Job>>, jobs: nat, names: seq<string>)
    requires jobs > 0
    ensures exists events ::
              var r := Play(fits, Start(queues, 1, jobs, [], names), events);
              r.main.Returned? && |r.report.throughput| == 1 && r.report.errorSeries == []
    ensures exists events ::
              var r := Play(fits, Start(queues, 1, jobs, [], names), events);
              r.main.Returned? && r.report.throughput == [] && |r.report.errorSeries| == 1
  {
    var long := DifferingRun(fits, queues, jobs, names, 3);
    assert Play(fits, Start(queues, 1, jobs, [], names), long).main.Returned?;
    var short := DifferingRun(fits, queues, jobs, names, 1);
    assert Play(fits, Start(queues, 1, jobs, [], names), short).main.Returned?;
  }
}
