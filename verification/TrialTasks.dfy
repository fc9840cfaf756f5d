/**
  What the tasks of a drain trial keep, whoever moves: the collector loses nothing, the
  monitor's series stay in step, and the orchestrator's report agrees with the tasks it
  was read from.
  */
module TrialTasks {
  import opened Basics
  import opened Fleet
  import opened FleetShutdown
  import opened Sampling
  import opened Trial

  // ---- Invariants, task by task -----------------------------------------------------------

  /** Nobody has left a fleet that has not been shut down, and a shutdown comes after the monitor's abort. */
  ghost predicate FleetOk(s: State, jobs: nat, aborted: bool) {
    s.sh.target == Some(jobs) && Staffed(s) && (s.sh.shutdown ==> aborted)
  }

  /** Everything the accepted latencies among `us` add up to. */
  function Fitting(fits: Fits, us: seq<nat>): Window {
    if us == [] then multiset{}
    else Fitting(fits, us[..|us| - 1]) + Accepted(fits, AtLeastOne(us[|us| - 1]))
  }

  ghost predicate CollectorOk(fits: Fits, c: CollectorTask, sent: seq<nat>) {
    && c.received <= |sent|
    && Partitioned(c.got)
    && c.got.hist == Fitting(fits, sent[..c.received])
    && |c.got.hist| + c.got.ignored == c.received
  }

  ghost predicate ClosedOk(c: CollectorTask, request: Request, s: State, sentinel: bool) {
    && (c.closed ==> AllGone(s) && c.received == |s.sh.sent| && !sentinel)
    && (request.Dropped? ==> c.closed) && (c.closed ==> request != Pending)
  }

  function Itself(x: nat): nat { x }

  function Sum(xs: seq<nat>): nat {
    Total(Itself, xs)
  }

  function PendingJobs(at: MonitorPoint): nat { if at.GotJobs? then at.delta else 0 }

  function PendingErrors(at: MonitorPoint): nat { if at.GotErrors? then at.delta else 0 }

  /** The samples telescope, and the two series are out of step only between the two pushes. */
  ghost predicate SamplesOk(m: MonitorTask, completed: nat, errors: nat) {
    && !m.at.Underflow?
    && Sum(m.throughput) + PendingJobs(m.at) == m.prevJobs <= completed
    && Sum(m.errorSeries) + PendingErrors(m.at) == m.prevErrors <= errors
    && |m.throughput| == |m.errorSeries| + (if m.at.Between? || m.at.GotErrors? then 1 else 0)
  }

  /** 1 for a tick whose throughput is sampled and whose window is not yet recorded. */
  function Unrecorded(at: MonitorPoint): nat {
    if at.Between? || at.GotErrors? || at.Asking? || at.Awaiting? || at.GotWindow? then 1 else 0
  }

  /** Every tick records one throughput sample and one window; only the last tick of all can miss its window. */
  ghost predicate TicksOk(m: MonitorTask) {
    && |m.recorded| <= |m.throughput| <= |m.recorded| + 1
    && ((m.aborted && (m.at.Asleep? || m.at.Cancelled?)) || |m.throughput| == |m.recorded| + Unrecorded(m.at))
  }

  /** Snapshots taken from the collector but not yet recorded by the monitor. */
  ghost predicate SnapshotsOk(m: MonitorTask, request: Request, taken: seq<Window>) {
    match m.at
    case Awaiting => (match request
                      case Replied(w) => taken == m.recorded + [w]
                      case NoRequest => false
                      case _ => taken == m.recorded)
    case GotWindow(w) => request == NoRequest && taken == m.recorded + [w]
    case Cancelled => m.recorded <= taken && |taken| <= |m.recorded| + 1 && (request == Pending ==> taken == m.recorded)
    case _ => request == NoRequest && taken == m.recorded
  }

  /** Each name's series lists every recorded window, as often as the name occurs in the specs. */
  ghost predicate SeriesOk(series: Series, recorded: seq<Window>, names: seq<string>) {
    forall name :: SeriesAt(series, name) == Expected(recorded, Multiplicity(names, name))
  }

  predicate After(main: MainPoint, point: MainPoint) {
    Rank(main) > Rank(point)
  }

  function Rank(p: MainPoint): nat {
    match p
    case Spawning => 0 case Draining => 1 case AbortMonitor => 2 case SendShutdown => 3 case Joining => 4
    case AwaitCollector => 5 case ReadJobs => 6 case ReadErrors => 7 case ReadThroughput => 8
    case ReadErrorSeries => 9 case ReadLatency => 10 case Returned => 11
  }

  /** What holds at each point of the orchestrator. */
  ghost predicate MainOk(p: MainPoint, rep: Report, jobs: nat, aborted: bool, s: Shared, c: CollectorTask) {
    && (After(p, AbortMonitor) ==> aborted)
    && (After(p, SendShutdown) ==> s.shutdown)
    && (After(p, AwaitCollector) ==> c.closed && rep.hist == c.got.hist)
    && (After(p, ReadJobs) ==> rep.totalJobs == s.completed)
    && (After(p, ReadErrors) ==> rep.errors == s.errors)
    && (After(p, Draining) && !rep.timedOut && jobs > 0 ==> s.done)
  }

  /** Throughput samples the monitor can still push once its abort has been requested. */
  function ThroughputDue(at: MonitorPoint): nat { if at.Woken? || at.GotJobs? then 1 else 0 }

  ghost predicate ThroughputCopied(rep: Report, m: MonitorTask) {
    && rep.throughput <= m.throughput
    && |m.throughput| + ThroughputDue(m.at) <= |rep.throughput| + 1
  }

  ghost predicate ErrorsCopied(rep: Report, m: MonitorTask) {
    && rep.errorSeries <= m.errorSeries
    && |rep.errorSeries| <= |rep.throughput| + 1
    && |rep.throughput| <= |rep.errorSeries| + 1
  }

  ghost predicate LatencyCopied(rep: Report, m: MonitorTask, taken: seq<Window>, names: seq<string>) {
    && rep.copied <= |m.recorded|
    && |taken| <= rep.copied + 1
    && SeriesOk(rep.latency, m.recorded[..rep.copied], names)
  }

  /** The series the orchestrator copies may miss what the monitor is just pushing. */
  ghost predicate CopiesOk(p: MainPoint, rep: Report, m: MonitorTask, taken: seq<Window>, names: seq<string>) {
    && (After(p, ReadThroughput) ==> ThroughputCopied(rep, m))
    && (After(p, ReadErrorSeries) ==> ErrorsCopied(rep, m))
    && (After(p, ReadLatency) ==> LatencyCopied(rep, m, taken, names))
  }

  /** For fleets with workers, how far the reported windows and throughput samples can be apart. */
  ghost predicate TicksCopied(p: MainPoint, rep: Report) {
    After(p, ReadLatency) ==> rep.copied <= |rep.throughput| + 1 && |rep.throughput| <= rep.copied + 1
  }

  ghost predicate MonitorOk(m: MonitorTask, request: Request, s: Shared, taken: seq<Window>, names: seq<string>) {
    && SamplesOk(m, s.completed, s.errors)
    && SnapshotsOk(m, request, taken)
    && SeriesOk(m.series, m.recorded, names)
  }

  ghost predicate TasksOk(fits: Fits, r: Run) {
    && FleetOk(r.fleet, r.jobs, r.monitor.aborted)
    && CollectorOk(fits, r.collector, r.fleet.sh.sent)
    && ClosedOk(r.collector, r.request, r.fleet, r.sentinel)
    && MonitorOk(r.monitor, r.request, r.fleet.sh, r.collector.got.taken, r.names)
    && MainOk(r.main, r.report, r.jobs, r.monitor.aborted, r.fleet.sh, r.collector)
    && CopiesOk(r.main, r.report, r.monitor, r.collector.got.taken, r.names)
    && (r.fleet.pcs != [] ==> TicksOk(r.monitor) && TicksCopied(r.main, r.report))
  }

  // ---- A step of the fleet ---------------------------------------------------------------------

  /** What the other tasks need to know about a step of the fleet. */
  ghost predicate Grows(s: State, s': State) {
    && s'.sh.completed >= s.sh.completed && s'.sh.errors >= s.sh.errors && s.sh.sent <= s'.sh.sent
    && (s.sh.done ==> s'.sh.done) && (s.sh.shutdown ==> s'.sh.shutdown)
    && s'.sh.target == s.sh.target && |s'.pcs| == |s.pcs|
    && (AllGone(s) ==> AllGone(s') && s'.sh.completed == s.sh.completed && s'.sh.errors == s.sh.errors
                       && s'.sh.sent == s.sh.sent)
  }

  lemma StepsGrow(s: State, a: Action)
    ensures Grows(s, Step(s, a))
  {
    StepGrows(s, a);
    if AllGone(s) {
      GoneIsFinal(s, [a]);
    }
  }

  lemma MainSeesGrowth(p: MainPoint, rep: Report, jobs: nat, aborted: bool, s: State, s': State, c: CollectorTask)
    requires MainOk(p, rep, jobs, aborted, s.sh, c) && Grows(s, s') && (c.closed ==> AllGone(s))
    ensures MainOk(p, rep, jobs, aborted, s'.sh, c)
  {
  }

  lemma CollectorSeesGrowth(fits: Fits, c: CollectorTask, sent: seq<nat>, sent': seq<nat>)
    requires CollectorOk(fits, c, sent) && sent <= sent'
    ensures CollectorOk(fits, c, sent')
  {
    assert sent'[..c.received] == sent[..c.received];
  }

  lemma FleetGrowsOk(fits: Fits, r: Run, s': State)
    requires TasksOk(fits, r) && Grows(r.fleet, s') && FleetOk(s', r.jobs, r.monitor.aborted)
    ensures TasksOk(fits, r.(fleet := s'))
  {
    MainSeesGrowth(r.main, r.report, r.jobs, r.monitor.aborted, r.fleet, s', r.collector);
    CollectorSeesGrowth(fits, r.collector, r.fleet.sh.sent, s'.sh.sent);
  }

  lemma FleetStepOk(fits: Fits, r: Run, a: Action)
    requires TasksOk(fits, r) && (a.Shutdown? ==> r.monitor.aborted)
    ensures TasksOk(fits, r.(fleet := Step(r.fleet, a)))
  {
    StepsGrow(r.fleet, a);
    StaffedStep(r.fleet, a);
    FleetGrowsOk(fits, r, Step(r.fleet, a));
  }

  // ---- A step of the collector -------------------------------------------------------------------

  lemma ReceiveNextOk(fits: Fits, c: CollectorTask, sent: seq<nat>)
    requires CollectorOk(fits, c, sent)
    ensures var c' := ReceiveNext(fits, c, sent);
            CollectorOk(fits, c', sent) && c'.closed == c.closed && c'.got.taken == c.got.taken && (c.closed ==> c' == c)
  {
    if !c.closed && c.received < |sent| {
      ReceiveKeeps(fits, c.got, sent[c.received]);
      assert sent[..c.received + 1][..c.received] == sent[..c.received];
    }
  }

  /** Nothing the orchestrator has read depends on a collector that is still open. */
  lemma MainSeesCollector(p: MainPoint, rep: Report, jobs: nat, aborted: bool, s: Shared, c: CollectorTask, c': CollectorTask)
    requires MainOk(p, rep, jobs, aborted, s, c) && (c.closed ==> c'.closed && c'.got == c.got)
    ensures MainOk(p, rep, jobs, aborted, s, c')
  {
  }

  lemma ReceiveOk(fits: Fits, r: Run)
    requires TasksOk(fits, r)
    ensures TasksOk(fits, Next(fits, r, ReceiveLatency))
  {
    var c' := ReceiveNext(fits, r.collector, r.fleet.sh.sent);
    ReceiveNextOk(fits, r.collector, r.fleet.sh.sent);
    MainSeesCollector(r.main, r.report, r.jobs, r.monitor.aborted, r.fleet.sh, r.collector, c');
  }

  lemma ReplyOk(m: MonitorTask, s: Shared, c: Collected, names: seq<string>)
    requires MonitorOk(m, Pending, s, c.taken, names)
    ensures MonitorOk(m, Replied(c.window), s, TakeSnapshot(c).taken, names)
  {
  }

  lemma SnapshotOk(fits: Fits, r: Run)
    requires TasksOk(fits, r)
    ensures TasksOk(fits, Next(fits, r, ServeSnapshot))
  {
    if !r.collector.closed && r.request == Pending {
      var c' := r.collector.(got := TakeSnapshot(r.collector.got));
      SnapshotKeeps(r.collector.got);
      ReplyOk(r.monitor, r.fleet.sh, r.collector.got, r.names);
      MainSeesCollector(r.main, r.report, r.jobs, r.monitor.aborted, r.fleet.sh, r.collector, c');
      CopiesSeeSnapshot(r.main, r.report, r.monitor, r.collector.got.taken, c'.got.taken, r.names);
    }
  }

  /** The latency series are copied only after the collector has ended. */
  lemma CopiesSeeSnapshot(p: MainPoint, rep: Report, m: MonitorTask, taken: seq<Window>, taken': seq<Window>, names: seq<string>)
    requires CopiesOk(p, rep, m, taken, names) && !After(p, AwaitCollector)
    ensures CopiesOk(p, rep, m, taken', names)
  {
  }

  lemma CloseOk(fits: Fits, r: Run)
    requires TasksOk(fits, r)
    ensures TasksOk(fits, Next(fits, r, CloseCollector))
  {
    var c' := r.collector.(closed := true);
    MainSeesCollector(r.main, r.report, r.jobs, r.monitor.aborted, r.fleet.sh, r.collector, c');
  }

  // ---- A step of the monitor ---------------------------------------------------------------------

  lemma SumNext(xs: seq<nat>, x: nat)
    ensures Sum(xs + [x]) == Sum(xs) + x
  {
    TotalAppend(Itself, xs, x);
  }

  lemma SampleSums(m: MonitorTask, request: Request, ended: bool, completed: nat, errors: nat, names: seq<string>)
    requires SamplesOk(m, completed, errors)
    ensures SamplesOk(Sample(m, request, ended, completed, errors, names).monitor, completed, errors)
  {
    if m.at.GotJobs? || m.at.GotErrors? {
      PushSums(m, request, ended, completed, errors, names);
    } else {
      KeepSums(m, request, ended, completed, errors, names);
    }
  }

  lemma PushSums(m: MonitorTask, request: Request, ended: bool, completed: nat, errors: nat, names: seq<string>)
    requires SamplesOk(m, completed, errors) && (m.at.GotJobs? || m.at.GotErrors?)
    ensures SamplesOk(Sample(m, request, ended, completed, errors, names).monitor, completed, errors)
  {
    if m.at.GotJobs? {
      SumNext(m.throughput, m.at.delta);
    } else {
      SumNext(m.errorSeries, m.at.delta);
    }
  }

  lemma KeepSums(m: MonitorTask, request: Request, ended: bool, completed: nat, errors: nat, names: seq<string>)
    requires SamplesOk(m, completed, errors) && !m.at.GotJobs? && !m.at.GotErrors?
    ensures SamplesOk(Sample(m, request, ended, completed, errors, names).monitor, completed, errors)
  {
  }

  lemma SampleTicks(m: MonitorTask, request: Request, ended: bool, completed: nat, errors: nat, names: seq<string>)
    requires TicksOk(m) && SamplesOk(m, completed, errors) && (ended || request.Dropped? ==> m.aborted)
    ensures TicksOk(Sample(m, request, ended, completed, errors, names).monitor)
  {
  }

  lemma SampleSnapshots(m: MonitorTask, request: Request, ended: bool, completed: nat, errors: nat,
                        names: seq<string>, taken: seq<Window>)
    requires SnapshotsOk(m, request, taken) && SamplesOk(m, completed, errors)
    ensures var s := Sample(m, request, ended, completed, errors, names); SnapshotsOk(s.monitor, s.request, taken)
  {
  }

  lemma RecordWindow(series: Series, recorded: seq<Window>, w: Window, names: seq<string>)
    requires SeriesOk(series, recorded, names)
    ensures SeriesOk(PushWindow(series, names, w), recorded + [w], names)
  {
    forall name
      ensures SeriesAt(PushWindow(series, names, w), name) == Expected(recorded + [w], Multiplicity(names, name))
    {
      PushWindowAt(series, names, w, name);
      ExpectedNext(recorded, w, Multiplicity(names, name));
    }
  }

  lemma SampleSeries(m: MonitorTask, request: Request, ended: bool, completed: nat, errors: nat, names: seq<string>)
    requires SeriesOk(m.series, m.recorded, names)
    ensures var m' := Sample(m, request, ended, completed, errors, names).monitor;
            SeriesOk(m'.series, m'.recorded, names)
  {
    if m.at.GotWindow? {
      RecordWindow(m.series, m.recorded, m.at.window, names);
    } else {
      KeepSeries(m, request, ended, completed, errors, names);
    }
  }

  lemma KeepSeries(m: MonitorTask, request: Request, ended: bool, completed: nat, errors: nat, names: seq<string>)
    requires !m.at.GotWindow?
    ensures var m' := Sample(m, request, ended, completed, errors, names).monitor;
            m'.series == m.series && m'.recorded == m.recorded
  {
  }

  /** What one monitor step can add to its series; an aborted monitor adds little. */
  ghost predicate Extends(m: MonitorTask, m': MonitorTask) {
    && m.throughput <= m'.throughput && m.errorSeries <= m'.errorSeries && m.recorded <= m'.recorded
    && m'.aborted == m.aborted
    && (m.aborted ==> |m'.throughput| + ThroughputDue(m'.at) <= |m.throughput| + ThroughputDue(m.at))
  }

  lemma SampleExtends(m: MonitorTask, request: Request, ended: bool, completed: nat, errors: nat, names: seq<string>)
    ensures Extends(m, Sample(m, request, ended, completed, errors, names).monitor)
  {
  }

  lemma CopiesSeeMonitor(p: MainPoint, rep: Report, m: MonitorTask, m': MonitorTask, taken: seq<Window>, names: seq<string>)
    requires CopiesOk(p, rep, m, taken, names) && Extends(m, m') && (After(p, AbortMonitor) ==> m.aborted)
    ensures CopiesOk(p, rep, m', taken, names)
  {
    if After(p, ReadLatency) {
      assert m'.recorded[..rep.copied] == m.recorded[..rep.copied];
    }
  }

  /** A monitor has reason to give up a tick only once the collector has ended, hence after its own abort. */
  lemma EndedIsAborted(fits: Fits, r: Run)
    requires TasksOk(fits, r) && r.fleet.pcs != [] && (r.collector.closed || r.request.Dropped?)
    ensures r.monitor.aborted
  {
    assert Gone(r.fleet.pcs[0]);
  }

  lemma MonitorStepOk(fits: Fits, r: Run)
    requires TasksOk(fits, r)
    ensures TasksOk(fits, Next(fits, r, MonitorStep))
  {
    var ended, completed, errors, m := r.collector.closed, r.fleet.sh.completed, r.fleet.sh.errors, r.monitor;
    var m' := Sample(m, r.request, ended, completed, errors, r.names).monitor;
    SampleSums(m, r.request, ended, completed, errors, r.names);
    SampleSnapshots(m, r.request, ended, completed, errors, r.names, r.collector.got.taken);
    SampleSeries(m, r.request, ended, completed, errors, r.names);
    SampleExtends(m, r.request, ended, completed, errors, r.names);
    CopiesSeeMonitor(r.main, r.report, m, m', r.collector.got.taken, r.names);
    if r.fleet.pcs != [] {
      if ended || r.request.Dropped? {
        EndedIsAborted(fits, r);
      }
      SampleTicks(m, r.request, ended, completed, errors, r.names);
    }
  }

  lemma CancelOk(fits: Fits, r: Run)
    requires TasksOk(fits, r)
    ensures TasksOk(fits, Next(fits, r, CancelMonitor))
  {
    if r.monitor.aborted && (r.monitor.at.Asleep? || r.monitor.at.Awaiting?) {
      var m' := r.monitor.(at := Cancelled);
      CopiesSeeMonitor(r.main, r.report, r.monitor, m', r.collector.got.taken, r.names);
    }
  }

  // ---- A step of the orchestrator ------------------------------------------------------------------

  /** Up to the shutdown the orchestrator reads nothing. */
  lemma EarlyMainOk(r: Run, timeout: bool)
    requires Rank(r.main) <= Rank(SendShutdown) && MainOk(r.main, r.report, r.jobs, r.monitor.aborted, r.fleet.sh, r.collector)
    requires r.main.Draining? ==> r.fleet.sh.target == Some(r.jobs)
    ensures var r' := Orchestrate(r, timeout);
            MainOk(r'.main, r'.report, r'.jobs, r'.monitor.aborted, r'.fleet.sh, r'.collector)
  {
  }

  /** While waiting, and in reading the totals. */
  lemma TotalsMainOk(r: Run, timeout: bool)
    requires Rank(SendShutdown) < Rank(r.main) <= Rank(ReadErrors)
    requires MainOk(r.main, r.report, r.jobs, r.monitor.aborted, r.fleet.sh, r.collector)
    ensures var r' := Orchestrate(r, timeout);
            MainOk(r'.main, r'.report, r'.jobs, r'.monitor.aborted, r'.fleet.sh, r'.collector)
  {
  }

  /** In copying the series. */
  lemma LateMainOk(r: Run, timeout: bool)
    requires Rank(r.main) > Rank(ReadErrors) && MainOk(r.main, r.report, r.jobs, r.monitor.aborted, r.fleet.sh, r.collector)
    ensures var r' := Orchestrate(r, timeout);
            MainOk(r'.main, r'.report, r'.jobs, r'.monitor.aborted, r'.fleet.sh, r'.collector)
  {
  }

  lemma ReadThroughputOk(rep: Report, m: MonitorTask)
    ensures ThroughputCopied(rep.(throughput := m.throughput), m)
  {
  }

  lemma ReadErrorsOk(rep: Report, m: MonitorTask, completed: nat, errors: nat)
    requires ThroughputCopied(rep, m) && SamplesOk(m, completed, errors)
    ensures var rep' := rep.(errorSeries := m.errorSeries); ThroughputCopied(rep', m) && ErrorsCopied(rep', m)
  {
  }

  lemma ReadLatencyOk(rep: Report, m: MonitorTask, request: Request, taken: seq<Window>, names: seq<string>)
    requires ThroughputCopied(rep, m) && ErrorsCopied(rep, m)
    requires SnapshotsOk(m, request, taken) && SeriesOk(m.series, m.recorded, names)
    ensures var rep' := rep.(latency := m.series, copied := |m.recorded|);
            ThroughputCopied(rep', m) && ErrorsCopied(rep', m) && LatencyCopied(rep', m, taken, names)
            && (TicksOk(m) ==> TicksCopied(Returned, rep'))
  {
    assert m.recorded[..|m.recorded|] == m.recorded;
  }

  /** Points are passed one at a time. */
  lemma OrchestrateRank(r: Run, timeout: bool)
    ensures Rank(r.main) <= Rank(Orchestrate(r, timeout).main) <= Rank(r.main) + 1
  {
  }

  /** Apart from the abort and the shutdown, the orchestrator only reads. */
  lemma OrchestrateFrame(r: Run, timeout: bool)
    requires r.main != AbortMonitor && r.main != SendShutdown
    ensures var r' := Orchestrate(r, timeout);
            && r'.collector == r.collector && r'.request == r.request && r'.jobs == r.jobs && r'.names == r.names
            && (r'.sentinel ==> r.sentinel) && r'.fleet == r.fleet && r'.monitor == r.monitor
  {
  }

  lemma NothingCopied(p: MainPoint, rep: Report, m: MonitorTask, taken: seq<Window>, names: seq<string>)
    requires Rank(p) <= Rank(ReadThroughput)
    ensures CopiesOk(p, rep, m, taken, names) && TicksCopied(p, rep)
  {
  }

  lemma CopyStep(r: Run, timeout: bool)
    requires After(r.main, ReadErrors)
    requires MonitorOk(r.monitor, r.request, r.fleet.sh, r.collector.got.taken, r.names)
    requires CopiesOk(r.main, r.report, r.monitor, r.collector.got.taken, r.names)
    ensures var r' := Orchestrate(r, timeout);
            && CopiesOk(r'.main, r'.report, r.monitor, r.collector.got.taken, r.names)
            && (TicksOk(r.monitor) && TicksCopied(r.main, r.report) ==> TicksCopied(r'.main, r'.report))
  {
    match r.main
    case ReadThroughput => ReadThroughputOk(r.report, r.monitor);
    case ReadErrorSeries => ReadErrorsOk(r.report, r.monitor, r.fleet.sh.completed, r.fleet.sh.errors);
    case ReadLatency => ReadLatencyOk(r.report, r.monitor, r.request, r.collector.got.taken, r.names);
    case Returned =>
  }

  lemma AbortKeepsMonitor(m: MonitorTask, request: Request, s: Shared, taken: seq<Window>, names: seq<string>)
    requires MonitorOk(m, request, s, taken, names)
    ensures MonitorOk(m.(aborted := true), request, s, taken, names) && (TicksOk(m) ==> TicksOk(m.(aborted := true)))
  {
  }

  lemma AbortOk(fits: Fits, r: Run, timeout: bool)
    requires TasksOk(fits, r) && r.main == AbortMonitor
    ensures TasksOk(fits, Orchestrate(r, timeout))
  {
    var m' := r.monitor.(aborted := true);
    EarlyMainOk(r, timeout);
    NothingCopied(SendShutdown, r.report, m', r.collector.got.taken, r.names);
    AbortKeepsMonitor(r.monitor, r.request, r.fleet.sh, r.collector.got.taken, r.names);
  }

  lemma JoiningOk(fits: Fits, r: Run)
    requires TasksOk(fits, r) && r.main == SendShutdown
    requires MainOk(Joining, r.report, r.jobs, r.monitor.aborted, r.fleet.sh, r.collector)
    ensures TasksOk(fits, r.(main := Joining))
  {
    NothingCopied(Joining, r.report, r.monitor, r.collector.got.taken, r.names);
  }

  lemma ShutdownOk(fits: Fits, r: Run, timeout: bool)
    requires TasksOk(fits, r) && r.main == SendShutdown
    ensures TasksOk(fits, Orchestrate(r, timeout))
  {
    var r' := r.(fleet := Step(r.fleet, Shutdown));
    EarlyMainOk(r, timeout);
    FleetStepOk(fits, r, Shutdown);
    assert Orchestrate(r, timeout) == r'.(main := Joining);
    JoiningOk(fits, r');
  }

  lemma QuietMainOk(fits: Fits, r: Run, timeout: bool)
    requires TasksOk(fits, r) && r.main != AbortMonitor && r.main != SendShutdown
    ensures var r' := Orchestrate(r, timeout);
            MainOk(r'.main, r'.report, r'.jobs, r'.monitor.aborted, r'.fleet.sh, r'.collector)
  {
    if Rank(r.main) <= Rank(SendShutdown) {
      EarlyMainOk(r, timeout);
    } else if Rank(r.main) <= Rank(ReadErrors) {
      TotalsMainOk(r, timeout);
    } else {
      LateMainOk(r, timeout);
    }
  }

  lemma QuietCopiesOk(fits: Fits, r: Run, timeout: bool)
    requires TasksOk(fits, r) && r.main != AbortMonitor && r.main != SendShutdown
    ensures var r' := Orchestrate(r, timeout);
            && CopiesOk(r'.main, r'.report, r.monitor, r.collector.got.taken, r.names)
            && (r.fleet.pcs != [] ==> TicksCopied(r'.main, r'.report))
  {
    if Rank(r.main) <= Rank(ReadErrors) {
      var r' := Orchestrate(r, timeout);
      OrchestrateRank(r, timeout);
      NothingCopied(r'.main, r'.report, r.monitor, r.collector.got.taken, r.names);
    } else {
      CopyStep(r, timeout);
    }
  }

  lemma MainStepOk(fits: Fits, r: Run, timeout: bool)
    requires TasksOk(fits, r)
    ensures TasksOk(fits, Orchestrate(r, timeout))
  {
    if r.main == AbortMonitor {
      AbortOk(fits, r, timeout);
    } else if r.main == SendShutdown {
      ShutdownOk(fits, r, timeout);
    } else {
      OrchestrateFrame(r, timeout);
      QuietMainOk(fits, r, timeout);
      QuietCopiesOk(fits, r, timeout);
    }
  }

  // ---- Every step, every run -----------------------------------------------------------------------

  /** Every step of every task keeps the invariants of all of them. */
  lemma NextOk(fits: Fits, r: Run, e: Event)
    requires TasksOk(fits, r)
    ensures TasksOk(fits, Next(fits, r, e))
  {
    match e
    case FleetStep(a) => if !a.Shutdown? && !a.Condemn? { FleetStepOk(fits, r, a); }
    case ReceiveLatency => ReceiveOk(fits, r);
    case ServeSnapshot => SnapshotOk(fits, r);
    case CloseCollector => CloseOk(fits, r);
    case MonitorStep => MonitorStepOk(fits, r);
    case CancelMonitor => CancelOk(fits, r);
    case MainStep(timeout) => MainStepOk(fits, r, timeout);
    case CondemnWorker(w) => if r.main == Joining { FleetStepOk(fits, r, Condemn(w)); }
  }

  lemma {:induction false} PlayOk(fits: Fits, r: Run, events: seq<Event>)
    requires TasksOk(fits, r)
    ensures TasksOk(fits, Play(fits, r, events))
    decreases events
  {
    if events == [] {
    } else {
      var init := events[..|events| - 1];
      PlayOk(fits, r, init);
      NextOk(fits, Play(fits, r, init), events[|events| - 1]);
    }
  }

  lemma NewCollectorOk(fits: Fits)
    ensures CollectorOk(fits, CollectorTask(NOTHING, 0, false), [])
  {
  }

  lemma NewMonitorOk(m: MonitorTask, s: Shared, names: seq<string>)
    requires m == MonitorTask(Asleep, false, 0, 0, [], [], map[], [])
    ensures MonitorOk(m, NoRequest, s, [], names) && TicksOk(m)
  {
  }

  lemma NewFleetOk(queues: seq<seq<Job>>, workers: nat, jobs: nat, orphans: seq<nat>)
    ensures FleetOk(Boot(queues, workers, Some(jobs), orphans), jobs, false)
  {
  }

  lemma FreshOk(fits: Fits, r: Run)
    requires r.main == Spawning && r.request == NoRequest && r.collector == CollectorTask(NOTHING, 0, false)
    requires r.monitor == MonitorTask(Asleep, false, 0, 0, [], [], map[], [])
    requires FleetOk(r.fleet, r.jobs, false) && r.fleet.sh.sent == []
    ensures TasksOk(fits, r)
  {
    NewCollectorOk(fits);
    NewMonitorOk(r.monitor, r.fleet.sh, r.names);
    NothingCopied(r.main, r.report, r.monitor, r.collector.got.taken, r.names);
  }

  lemma StartOk(fits: Fits, queues: seq<seq<Job>>, workers: nat, jobs: nat, orphans: seq<nat>, names: seq<string>)
    ensures TasksOk(fits, Start(queues, workers, jobs, orphans, names))
  {
    NewFleetOk(queues, workers, jobs, orphans);
    FreshOk(fits, Start(queues, workers, jobs, orphans, names));
  }

  lemma PlayFromStart(fits: Fits, queues: seq<seq<Job>>, workers: nat, jobs: nat, orphans: seq<nat>,
                      names: seq<string>, events: seq<Event>)
    ensures TasksOk(fits, Play(fits, Start(queues, workers, jobs, orphans, names), events))
  {
    StartOk(fits, queues, workers, jobs, orphans, names);
    PlayOk(fits, Start(queues, workers, jobs, orphans, names), events);
  }
}
