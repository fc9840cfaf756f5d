/**
  One drain trial (`run_drain_trial` of src/main.rs): the fleet, the latency collector,
  the monitor that samples once a second, and the orchestrator that ends it all, each
  taking its steps in any interleaving.
  */
module Trial {
  import opened Basics
  import opened Fleet
  import opened Sampling

  datatype CollectorTask = CollectorTask(got: Collected, received: nat, closed: bool)

  /**
    Where the monitor is; it can be cancelled only where it awaits. Once aborted it begins
    no further tick, but it passes an await that is over already.
    */
  datatype MonitorPoint =
    | Asleep                     // awaiting the next second
    | Woken                      // about to read `completed`
    | GotJobs(delta: nat)        // about to push the throughput sample
    | Between                    // about to read `errors`
    | GotErrors(delta: nat)      // about to push the error sample
    | Asking                     // about to request a snapshot
    | Awaiting                   // awaiting the reply
    | GotWindow(window: Window)  // about to record it in the series
    | Cancelled
    | Underflow                  // a subtraction went below zero

  datatype MonitorTask = MonitorTask(
    at: MonitorPoint, aborted: bool,
    prevJobs: nat, prevErrors: nat,
    throughput: seq<nat>, errorSeries: seq<nat>, series: Series,
    recorded: seq<Window>)  // history: the windows recorded in the series

  /** The one-shot channel of a snapshot request. */
  datatype Request = NoRequest | Pending | Replied(window: Window) | Dropped

  datatype MainPoint =
    | Spawning | Draining | AbortMonitor | SendShutdown | Joining | AwaitCollector
    | ReadJobs | ReadErrors | ReadThroughput | ReadErrorSeries | ReadLatency | Returned

  datatype Report = Report(
    timedOut: bool, hist: Window, totalJobs: nat, errors: nat,
    throughput: seq<nat>, errorSeries: seq<nat>, latency: Series,
    copied: nat)  // history: the windows recorded when the latency series were copied

  datatype Run = Run(
    fleet: State,
    jobs: nat,
    names: seq<string>,  // of the percentile specs
    main: MainPoint,
    sentinel: bool,      // the orchestrator still holds a sender of the latency channel
    collector: CollectorTask,
    monitor: MonitorTask,
    request: Request,
    report: Report)

  datatype Event =
    | FleetStep(a: Action)
    | ReceiveLatency
    | ServeSnapshot
    | CloseCollector
    | MonitorStep
    | CancelMonitor
    | MainStep(timeout: bool)
    | CondemnWorker(worker: nat)

  function Start(queues: seq<seq<Job>>, workers: nat, jobs: nat, orphans: seq<nat>, names: seq<string>): Run {
    Run(Boot(queues, workers, Some(jobs), orphans), jobs, names, Spawning, true,
        CollectorTask(NOTHING, 0, false),
        MonitorTask(Asleep, false, 0, 0, [], [], map[], []),
        NoRequest, Report(false, multiset{}, 0, 0, [], [], map[], 0))
  }

  // ---- The tasks -----------------------------------------------------------------------

  function ReceiveNext(fits: Fits, c: CollectorTask, sent: seq<nat>): CollectorTask {
    if !c.closed && c.received < |sent|
    then c.(got := Receive(fits, c.got, sent[c.received]), received := c.received + 1)
    else c
  }

  datatype Asked = Asked(monitor: MonitorTask, request: Request)

  /** One step of the monitor, which sees the counters and whether the collector has ended. */
  function Sample(m: MonitorTask, request: Request, ended: bool, completed: nat, errors: nat, names: seq<string>): Asked {
    match m.at
    case Asleep => Asked(if m.aborted then m else m.(at := Woken), request)
    case Woken =>
      Asked(if completed < m.prevJobs then m.(at := Underflow)
            else m.(at := GotJobs(completed - m.prevJobs), prevJobs := completed), request)
    case GotJobs(delta) => Asked(m.(at := Between, throughput := m.throughput + [delta]), request)
    case Between =>
      Asked(if errors < m.prevErrors then m.(at := Underflow)
            else m.(at := GotErrors(errors - m.prevErrors), prevErrors := errors), request)
    case GotErrors(delta) => Asked(m.(at := Asking, errorSeries := m.errorSeries + [delta]), request)
    case Asking => if ended then Asked(m.(at := Asleep), request) else Asked(m.(at := Awaiting), Pending)
    case Awaiting =>
      if request.Replied? then Asked(m.(at := GotWindow(request.window)), NoRequest)
      else if request.Dropped? then Asked(m.(at := Asleep), NoRequest)
      else Asked(m, request)
    case GotWindow(w) =>
      Asked(m.(at := Asleep, series := PushWindow(m.series, names, w), recorded := m.recorded + [w]), request)
    case Cancelled => Asked(m, request)
    case Underflow => Asked(m, request)
  }

  /** The orchestrator, at its present point. */
  function Orchestrate(r: Run, timeout: bool): Run {
    match r.main
    case Spawning => r.(main := Draining, sentinel := false)
    case Draining =>
      if r.jobs == 0 then r.(main := AbortMonitor)
      else if timeout then r.(main := AbortMonitor, report := r.report.(timedOut := true))
      else if r.fleet.sh.done then r.(main := AbortMonitor)
      else r
    case AbortMonitor => r.(main := SendShutdown, monitor := r.monitor.(aborted := true))
    case SendShutdown => r.(main := Joining, fleet := Step(r.fleet, Shutdown))
    case Joining =>
      if forall w :: 0 <= w < |r.fleet.pcs| ==> Gone(r.fleet.pcs[w]) || w in r.fleet.sh.condemned
      then r.(main := AwaitCollector) else r
    case AwaitCollector =>
      if r.collector.closed
      then r.(main := ReadJobs, report := r.report.(hist := r.collector.got.hist)) else r
    case ReadJobs => r.(main := ReadErrors, report := r.report.(totalJobs := r.fleet.sh.completed))
    case ReadErrors => r.(main := ReadThroughput, report := r.report.(errors := r.fleet.sh.errors))
    case ReadThroughput =>
      r.(main := ReadErrorSeries, report := r.report.(throughput := r.monitor.throughput))
    case ReadErrorSeries => r.(main := ReadLatency, report := r.report.(errorSeries := r.monitor.errorSeries))
    case ReadLatency => r.(main := Returned, report := r.report.(latency := r.monitor.series, copied := |r.monitor.recorded|))
    case Returned => r
  }

  function Next(fits: Fits, r: Run, e: Event): Run {
    match e
    case FleetStep(a) =>
      if a.Shutdown? || a.Condemn? then r  // only the orchestrator does these
      else r.(fleet := Step(r.fleet, a))
    case ReceiveLatency => r.(collector := ReceiveNext(fits, r.collector, r.fleet.sh.sent))
    case ServeSnapshot =>
      if !r.collector.closed && r.request == Pending
      then r.(request := Replied(r.collector.got.window), collector := r.collector.(got := TakeSnapshot(r.collector.got)))
      else r
    case CloseCollector =>
      if !r.sentinel && AllGone(r.fleet) && r.collector.received == |r.fleet.sh.sent|
      then r.(collector := r.collector.(closed := true), request := if r.request.Pending? then Dropped else r.request)
      else r
    case MonitorStep =>
      var s := Sample(r.monitor, r.request, r.collector.closed, r.fleet.sh.completed, r.fleet.sh.errors, r.names);
      r.(monitor := s.monitor, request := s.request)
    case CancelMonitor =>
      if r.monitor.aborted && (r.monitor.at.Asleep? || r.monitor.at.Awaiting?)
      then r.(monitor := r.monitor.(at := Cancelled)) else r
    case MainStep(timeout) => Orchestrate(r, timeout)
    case CondemnWorker(w) => if r.main == Joining then r.(fleet := Step(r.fleet, Condemn(w))) else r
  }

  function Play(fits: Fits, r: Run, events: seq<Event>): Run
    decreases events
  {
    if events == [] then r else Next(fits, Play(fits, r, events[..|events| - 1]), events[|events| - 1])
  }

  lemma {:induction false} PlayConcat(fits: Fits, r: Run, events: seq<Event>, more: seq<Event>)
    ensures Play(fits, r, events + more) == Play(fits, Play(fits, r, events), more)
    decreases more
  {
    if more == [] {
      assert events + more == events;
    } else {
      var init := more[..|more| - 1];
      assert (events + more)[..|events + more| - 1] == events + init;
      PlayConcat(fits, r, events, init);
    }
  }

  lemma {:induction false} PlayOne(fits: Fits, r: Run, e: Event)
    ensures Play(fits, r, [e]) == Next(fits, r, e)
  {
    assert [e][..0] == [];
  }

  lemma {:induction false} PlayNext(fits: Fits, r: Run, e: Event, rest: seq<Event>)
    ensures Play(fits, r, [e] + rest) == Play(fits, Next(fits, r, e), rest)
  {
    PlayConcat(fits, r, [e], rest);
    PlayOne(fits, r, e);
  }
}
