/**
  The per-trial loop of `main` (src/main.rs): clear, enqueue, drain, length check, then
  the idle-poll phase or a skip, for each number of workers in turn. Trials share the
  server, so backlog that a timeout leaves behind and LPOPs that an aborted worker leaves
  in flight reach into the trials after it.
  */
module Session {
  import opened Basics
  import opened Decimal
  import opened Fleet
  import opened FleetLatency
  import opened FleetLedger
  import opened FleetShutdown
  import Sampling
  import opened Producer
  import Trial
  import TrialReport
  import TrialTasks

  /** What happens during one trial, phase by phase. */
  datatype Script = Script(
    workers: nat,
    warmup: seq<Trial.Event>,
    drain: seq<Trial.Event>,
    afterwards: seq<Action>,  // at the server, between the drain and the length check
    idle: seq<Action>,
    stragglers: seq<nat>)     // lists polled by idle workers that outlive the idle phase

  datatype Config = Config(
    jobs: u64, warmupJobs: u64, allowFlushDb: bool, names: seq<string>, fits: Sampling.Fits, clock: nat -> nat)

  datatype Idle = Skipped(backlog: nat) | Measured(fleet: State)

  /** `drained` is history: server and fleet as the length check finds them. */
  datatype Result = Result(report: Trial.Report, drained: State, idle: Idle)

  /** A report of a drain of `n` fresh jobs by `workers` workers: every job is reported, still queued or lost. */
  ghost predicate SoundDrain(cfg: Config, width: nat, n: nat, workers: nat, rep: Trial.Report, s: State) {
    && |s.pcs| == workers && |s.sh.queues| == width && s.sh.target == Some(n) && AllGone(s)
    && rep.totalJobs == s.sh.completed && rep.errors == s.sh.errors == s.sh.past.lpopErrors
    && n == |Flatten(s.sh.queues)| + rep.totalJobs + |s.sh.past.lost|
    && |s.sh.sent| == rep.totalJobs && Sampling.Contains(cfg.fits, rep.hist, s.sh.sent)
    && (!rep.timedOut ==> rep.totalJobs == n)
  }

  /** The idle phase measured nothing but polls of empty lists, or was skipped for a reason. */
  ghost predicate SoundIdle(width: nat, workers: nat, r: Result) {
    match r.idle
    case Measured(s) =>
      && Flatten(r.drained.sh.queues) == []
      && |s.pcs| == workers && |s.sh.queues| == width && s.sh.target == None
      && s.sh.past.hits == [] && s.sh.completed == 0 && s.sh.sent == []
      && s.sh.polls == s.sh.past.misses + s.sh.past.lpopErrors + Total(Unanswered, s.pcs)
      && s.sh.errors == s.sh.past.lpopErrors
      && EmptyBelow(s.sh.queues, |s.sh.queues|)
    case Skipped(backlog) => backlog == |Flatten(r.drained.sh.queues)| > 0 && r.report.timedOut
  }

  ghost predicate Sound(cfg: Config, width: nat, script: Script, r: Result) {
    && SoundDrain(cfg, width, cfg.jobs as nat, script.workers, r.report, r.drained)
    && SoundIdle(width, script.workers, r)
  }

  // ---- An idle phase on empty lists -------------------------------------------------

  /** Nobody pushes, so a fleet on empty lists never receives a job, whatever else happens. */
  lemma IdleHitsNothing(queues: seq<seq<Job>>, workers: nat, orphans: seq<nat>, acts: seq<Action>)
    requires EmptyBelow(queues, |queues|)
    requires forall k :: 0 <= k < |orphans| ==> orphans[k] < |queues|
    ensures var s := Exec(Boot(queues, workers, None, orphans), acts);
            && s.sh.past.hits == [] && s.sh.completed == 0 && s.sh.sent == []
            && s.sh.polls == s.sh.past.misses + s.sh.past.lpopErrors + Total(Unanswered, s.pcs)
            && s.sh.errors == s.sh.past.lpopErrors
            && EmptyBelow(s.sh.queues, |s.sh.queues|)
            && |s.sh.queues| == |queues| && forall k :: 0 <= k < |s.sh.orphans| ==> s.sh.orphans[k] < |queues|
  {
    var s0 := Boot(queues, workers, None, orphans);
    BootLedger(queues, workers, None, orphans);
    ExecLedger(s0, acts, |Flatten(queues)|, |orphans|);
    ExecShape(s0, acts);
    FlattenEmpty(queues);
    RecordedHoldsJobs(Exec(s0, acts).pcs);
    NothingPushed(Exec(s0, acts), |orphans|);
  }

  /** Every poll is a miss exactly as long as no LPOP fails and none stays unanswered. */
  lemma IdlePollsAreMisses(queues: seq<seq<Job>>, workers: nat, orphans: seq<nat>, acts: seq<Action>)
    requires EmptyBelow(queues, |queues|)
    requires forall k :: 0 <= k < |orphans| ==> orphans[k] < |queues|
    ensures var s := Exec(Boot(queues, workers, None, orphans), acts);
            s.sh.polls == s.sh.past.misses <==>
              s.sh.past.lpopErrors == 0 && forall w :: 0 <= w < |s.pcs| ==> Unanswered(s.pcs[w]) == 0
  {
    IdleHitsNothing(queues, workers, orphans, acts);
    TotalZero(Unanswered, Exec(Boot(queues, workers, None, orphans), acts).pcs);
  }

  /** One failed LPOP is a poll that is no miss. */
  lemma {:induction false} AFailedPollIsNoMiss(queues: seq<seq<Job>>, workers: nat, orphans: seq<nat>)
    requires queues != [] && workers > 0
    ensures var s := Exec(Boot(queues, workers, None, orphans), [Act(0, CheckFlag)] + ([Act(0, Issue)] + [Act(0, Fail)]));
            s.sh.polls == 1 && s.sh.past.misses == 0 && s.sh.past.lpopErrors == 1
  {
    var s0 := Boot(queues, workers, None, orphans);
    var s1 := Step(s0, Act(0, CheckFlag));
    ExecFirst(s0, Act(0, CheckFlag), [Act(0, Issue)] + [Act(0, Fail)]);
    ExecFirst(s1, Act(0, Issue), [Act(0, Fail)]);
  }

  /** Nor is one whose worker is aborted while it waits. */
  lemma {:induction false} AnAbortedPollIsNoMiss(queues: seq<seq<Job>>, workers: nat, orphans: seq<nat>)
    requires queues != [] && workers > 0
    ensures var polling := [Act(0, CheckFlag)] + [Act(0, Issue)];
            var aborting := [Shutdown] + ([Condemn(0)] + [Act(0, Abort)]);
            var s := Exec(Boot(queues, workers, None, orphans), polling + aborting);
            s.sh.polls == 1 && s.sh.past.misses == 0 && s.sh.past.lpopErrors == 0 && s.pcs != [] && s.pcs[0] == Aborted(1)
  {
    var polling := [Act(0, CheckFlag)] + [Act(0, Issue)];
    var aborting := [Shutdown] + ([Condemn(0)] + [Act(0, Abort)]);
    var s0 := Boot(queues, workers, None, orphans);
    var s1 := Step(s0, Act(0, CheckFlag));
    var s2 := Step(s1, Act(0, Issue));
    var s3 := Step(s2, Shutdown);
    var s4 := Step(s3, Condemn(0));
    ExecConcat(s0, polling, aborting);
    ExecFirst(s0, Act(0, CheckFlag), [Act(0, Issue)]);
    ExecFirst(s1, Act(0, Issue), []);
    assert [Act(0, Issue)] + [] == [Act(0, Issue)];
    ExecFirst(s2, Shutdown, [Condemn(0)] + [Act(0, Abort)]);
    ExecFirst(s3, Condemn(0), [Act(0, Abort)]);
    ExecFirst(s4, Act(0, Abort), []);
    assert [Act(0, Abort)] + [] == [Act(0, Abort)];
  }

  /**
    The count that the idle phase reads after its shutdown is final if and only if no worker
    is left in the middle of a pass; if one is, the polls still to come are at most those
    left in such passes.
    */
  lemma IdleCountIsFinalExactly(queues: seq<seq<Job>>, workers: nat, orphans: seq<nat>, acts: seq<Action>, later: seq<Action>)
    requires forall k :: 0 <= k < |orphans| ==> orphans[k] < |queues|
    requires Exec(Boot(queues, workers, None, orphans), acts).sh.shutdown
    ensures var s := Exec(Boot(queues, workers, None, orphans), acts);
            && (PollsFinal(s) <==> forall w :: 0 <= w < |s.pcs| ==> PollsLeft(s.pcs[w], |queues|) == 0)
            && s.sh.polls <= Exec(s, later).sh.polls <= s.sh.polls + Total(PollsLeftOf(|queues|), s.pcs)
  {
    var s0 := Boot(queues, workers, None, orphans);
    var s := Exec(s0, acts);
    BootLedger(queues, workers, None, orphans);
    ExecLedger(s0, acts, |Flatten(queues)|, |orphans|);
    ExecShape(s0, acts);
    CountIsFinalExactly(s, later);
  }

  lemma CountIsFinalExactly(s: State, later: seq<Action>)
    requires s.sh.shutdown && InRange(s)
    ensures PollsFinal(s) <==> forall w :: 0 <= w < |s.pcs| ==> PollsLeft(s.pcs[w], |s.sh.queues|) == 0
    ensures s.sh.polls <= Exec(s, later).sh.polls <= s.sh.polls + Total(PollsLeftOf(|s.sh.queues|), s.pcs)
  {
    var left := PollsLeftOf(|s.sh.queues|);
    PollsAreFinalExactly(s);
    TotalZero(left, s.pcs);
    assert forall w :: 0 <= w < |s.pcs| ==> left(s.pcs[w]) == PollsLeft(s.pcs[w], |s.sh.queues|);
    PollsGrow(s, later);
    ExecRunsDown(s, later);
  }

  lemma NothingPushed(s: State, strays: nat)
    requires Ledger(s, 0, strays) && Total(RecordedOnly, s.pcs) <= Total(InHand, s.pcs)
    ensures s.sh.past.hits == [] && s.sh.completed == 0 && s.sh.sent == [] && s.sh.past.badPayloads == 0
    ensures EmptyBelow(s.sh.queues, |s.sh.queues|)
  {
    FlattenEmpty(s.sh.queues);
  }

  // ---- A drain that reached its target ------------------------------------------------

  /** If all pushed jobs were counted on time, the lists are empty and stay so. */
  lemma FinishedDrainLeavesNothing(fits: Sampling.Fits, queues: seq<seq<Job>>, workers: nat, orphans: seq<nat>,
                                   names: seq<string>, events: seq<Trial.Event>, afterwards: seq<Action>)
    requires forall k :: 0 <= k < |orphans| ==> orphans[k] < |queues|
    requires Trial.Play(fits, Trial.Start(queues, workers, |Flatten(queues)|, orphans, names), events).main.Returned?
    ensures var r := Trial.Play(fits, Trial.Start(queues, workers, |Flatten(queues)|, orphans, names), events);
            var s := Exec(r.fleet, afterwards);
            && |s.sh.queues| == |queues|
            && (forall k :: 0 <= k < |s.sh.orphans| ==> s.sh.orphans[k] < |queues|)
            && (!r.report.timedOut ==> EmptyBelow(s.sh.queues, |queues|))
  {
    var n := |Flatten(queues)|;
    TrialReport.PlayKeepsStart(fits, queues, workers, n, orphans, names, events);
    TrialReport.LedgerFromStart(fits, queues, workers, n, orphans, names, events);
    TrialReport.ReportIsConsistent(fits, queues, workers, n, orphans, names, events);
    AfterTheDrain(Trial.Play(fits, Trial.Start(queues, workers, n, orphans, names), events).fleet,
                  afterwards, n, |orphans|);
  }

  lemma AfterTheDrain(s: State, afterwards: seq<Action>, n: nat, strays: nat)
    requires Ledger(s, n, strays) && s.sh.target == Some(n)
    ensures var t := Exec(s, afterwards);
            && |t.sh.queues| == |s.sh.queues|
            && (forall k :: 0 <= k < |t.sh.orphans| ==> t.sh.orphans[k] < |s.sh.queues|)
            && (n == 0 || s.sh.done ==> EmptyBelow(t.sh.queues, |s.sh.queues|))
  {
    ExecLedger(s, afterwards, n, strays);
    ExecShape(s, afterwards);
    DoneStays(s, afterwards);
    if n == 0 || s.sh.done {
      CountedOut(Exec(s, afterwards), n, strays);
    }
  }

  lemma {:induction false} DoneStays(s: State, acts: seq<Action>)
    ensures s.sh.done ==> Exec(s, acts).sh.done
    decreases acts
  {
    if acts == [] {
    } else {
      TrialTasks.StepsGrow(s, acts[0]);
      DoneStays(Step(s, acts[0]), acts[1..]);
    }
  }

  lemma CountedOut(s: State, n: nat, strays: nat)
    requires Ledger(s, n, strays) && s.sh.target == Some(n) && (n > 0 ==> s.sh.done)
    ensures EmptyBelow(s.sh.queues, |s.sh.queues|)
  {
    AllCounted(s, n, strays);
  }

  // ---- The server between the phases ---------------------------------------------------

  /** The server's lists after its consumers have left `view` of the scanned ones. */
  function Left(lists: Lists, queues: seq<string>, view: seq<seq<Job>>): Lists
    requires |view| == |queues|
  {
    if queues == [] then lists
    else
      var n := |queues| - 1;
      Left(lists, queues[..n], view[..n])[Key(queues[n]) := view[n]]
  }

  lemma {:induction false} LeftIsScanned(lists: Lists, queues: seq<string>, view: seq<seq<Job>>, j: nat)
    requires |view| == |queues| && Distinct(queues) && j < |queues|
    ensures ListAt(Left(lists, queues, view), Key(queues[j])) == view[j]
  {
    var n := |queues| - 1;
    if j == n {
    } else {
      if Key(queues[j]) == Key(queues[n]) {
        KeyInjective(queues[j], queues[n]);
      }
      LeftIsScanned(lists, queues[..n], view[..n], j);
    }
  }

  lemma LeftScanned(lists: Lists, queues: seq<string>, view: seq<seq<Job>>)
    requires |view| == |queues| && Distinct(queues)
    ensures Scanned(Left(lists, queues, view), queues) == view
  {
    forall j | 0 <= j < |queues| ensures Scanned(Left(lists, queues, view), queues)[j] == view[j] {
      LeftIsScanned(lists, queues, view, j);
    }
  }

  // ---- The loop -------------------------------------------------------------------------

  /** One drain of `n` fresh jobs, with LPOPs of earlier fleets possibly still in flight. */
  function DrainRun(cfg: Config, width: nat, n: nat, workers: nat, orphans: seq<nat>, events: seq<Trial.Event>): Trial.Run
    requires width > 0
  {
    Trial.Play(cfg.fits, Trial.Start(Strides(width, cfg.clock, n), workers, n, orphans, cfg.names), events)
  }

  /** A trial's result and the LPOPs it leaves in flight; `None` if the run ends inside a drain. */
  datatype Outcome = Unfinished | Finished(result: Result, orphans: seq<nat>)

  function Measure(report: Trial.Report, s: State, script: Script): Outcome {
    var backlog := |Flatten(s.sh.queues)|;
    if backlog > 0 then Finished(Result(report, s, Skipped(backlog)), s.sh.orphans)
    else
      var idle := Exec(Boot(s.sh.queues, script.workers, None, s.sh.orphans), script.idle);
      Finished(Result(report, s, Measured(idle)), idle.sh.orphans + script.stragglers)
  }

  function DrainAndMeasure(cfg: Config, width: nat, orphans: seq<nat>, script: Script): Outcome
    requires width > 0
  {
    var r := DrainRun(cfg, width, cfg.jobs as nat, script.workers, orphans, script.drain);
    if !r.main.Returned? then Unfinished else Measure(r.report, Exec(r.fleet, script.afterwards), script)
  }

  function OneTrial(cfg: Config, width: nat, orphans: seq<nat>, script: Script): Outcome
    requires width > 0
  {
    if cfg.warmupJobs == 0 then DrainAndMeasure(cfg, width, orphans, script)
    else
      var warm := DrainRun(cfg, width, cfg.warmupJobs as nat, script.workers, orphans, script.warmup);
      if !warm.main.Returned? then Unfinished else DrainAndMeasure(cfg, width, warm.fleet.sh.orphans, script)
  }

  /** The results of a session, trial after trial, up to a trial that does not finish. */
  function Results(cfg: Config, width: nat, orphans: seq<nat>, scripts: seq<Script>): seq<Result>
    requires width > 0
    decreases scripts
  {
    if scripts == [] then []
    else
      match OneTrial(cfg, width, orphans, scripts[0])
      case Unfinished => []
      case Finished(result, left) => [result] + Results(cfg, width, left, scripts[1..])
  }

  ghost predicate KeysBelow(keys: seq<nat>, width: nat) {
    forall k :: 0 <= k < |keys| ==> keys[k] < width
  }

  lemma DrainFacts(cfg: Config, width: nat, n: nat, workers: nat, orphans: seq<nat>, events: seq<Trial.Event>,
                   afterwards: seq<Action>)
    requires width > 0 && KeysBelow(orphans, width)
    requires DrainRun(cfg, width, n, workers, orphans, events).main.Returned?
    ensures var r := DrainRun(cfg, width, n, workers, orphans, events); var s := Exec(r.fleet, afterwards);
            && KeysBelow(s.sh.orphans, width)
            && (!r.report.timedOut ==> Flatten(s.sh.queues) == [])
            && SoundDrain(cfg, width, n, workers, r.report, s)
  {
    var lists := Strides(width, cfg.clock, n);
    var r := DrainRun(cfg, width, n, workers, orphans, events);
    StridesSumToAll(width, cfg.clock, n);
    FinishedDrainLeavesNothing(cfg.fits, lists, workers, orphans, cfg.names, events, afterwards);
    FlattenEmpty(Exec(r.fleet, afterwards).sh.queues);
    TrialReport.PlayKeepsStart(cfg.fits, lists, workers, n, orphans, cfg.names, events);
    TrialReport.LedgerFromStart(cfg.fits, lists, workers, n, orphans, cfg.names, events);
    TrialReport.ReportIsConsistent(cfg.fits, lists, workers, n, orphans, cfg.names, events);
    TrialReport.ReportHoldsSent(cfg.fits, lists, workers, n, orphans, cfg.names, events);
    StridesAreStamped(width, cfg.clock, n);
    TrialReport.PlayStamped(cfg.fits, Trial.Start(lists, workers, n, orphans, cfg.names), events);
    ReportStays(cfg, width, n, workers, r, afterwards, |orphans|);
  }

  /** What a returned drain reports stays true of server and fleet, whatever stray LPOPs do afterwards. */
  lemma ReportStays(cfg: Config, width: nat, n: nat, workers: nat, r: Trial.Run, afterwards: seq<Action>, strays: nat)
    requires Ledger(r.fleet, n, strays) && Clean(r.fleet) && AllGone(r.fleet) && r.fleet.sh.target == Some(n)
    requires |r.fleet.pcs| == workers && |r.fleet.sh.queues| == width
    requires r.report.totalJobs == r.fleet.sh.completed && r.report.errors == r.fleet.sh.errors
    requires Sampling.Contains(cfg.fits, r.report.hist, r.fleet.sh.sent)
    requires !r.report.timedOut ==> n == 0 || r.fleet.sh.done
    ensures SoundDrain(cfg, width, n, workers, r.report, Exec(r.fleet, afterwards))
  {
    var s := Exec(r.fleet, afterwards);
    GoneIsFinal(r.fleet, afterwards);
    ExecShape(r.fleet, afterwards);
    ExecLedger(r.fleet, afterwards, n, strays);
    ExecStamped(r.fleet, afterwards);
    GoneHoldNothing(s);
    if !r.report.timedOut {
      CountedOut(s, n, strays);
      AllCountedOut(s, n, strays);
    }
  }

  lemma GoneHoldNothing(s: State)
    requires AllGone(s)
    ensures Total(Riding, s.pcs) == Total(InHand, s.pcs) == Total(RecordedOnly, s.pcs) == 0
  {
    TotalZero(Riding, s.pcs);
    TotalZero(InHand, s.pcs);
    TotalZero(RecordedOnly, s.pcs);
  }

  lemma AllCountedOut(s: State, n: nat, strays: nat)
    requires Ledger(s, n, strays) && s.sh.target == Some(n) && (n > 0 ==> s.sh.done)
    ensures s.sh.completed == n
  {
    AllCounted(s, n, strays);
  }

  /** The LPOPs that reach into the next trial: of the last phase, and of its workers that live on. */
  function InFlight(r: Result, script: Script): seq<nat> {
    match r.idle
    case Skipped(_) => r.drained.sh.orphans
    case Measured(s) => s.sh.orphans + script.stragglers
  }

  lemma MeasureIsSound(report: Trial.Report, s: State, script: Script)
    requires KeysBelow(s.sh.orphans, |s.sh.queues|) && KeysBelow(script.stragglers, |s.sh.queues|)
    requires !report.timedOut ==> Flatten(s.sh.queues) == []
    ensures var o := Measure(report, s, script);
            && o.Finished? && o.result.report == report && o.result.drained == s
            && SoundIdle(|s.sh.queues|, script.workers, o.result) && KeysBelow(o.orphans, |s.sh.queues|)
            && o.orphans == InFlight(o.result, script)
  {
    if Flatten(s.sh.queues) == [] {
      FlattenEmpty(s.sh.queues);
      IdleHitsNothing(s.sh.queues, script.workers, s.sh.orphans, script.idle);
      ExecShape(Boot(s.sh.queues, script.workers, None, s.sh.orphans), script.idle);
    }
  }

  lemma TrialIsSound(cfg: Config, width: nat, orphans: seq<nat>, script: Script)
    requires width > 0 && KeysBelow(orphans, width) && KeysBelow(script.stragglers, width)
    ensures var o := OneTrial(cfg, width, orphans, script);
            o.Finished? ==> Sound(cfg, width, script, o.result) && KeysBelow(o.orphans, width)
                            && o.orphans == InFlight(o.result, script)
    ensures OneTrial(cfg, width, orphans, script).Finished? && cfg.warmupJobs > 0 ==>
              DrainRun(cfg, width, cfg.warmupJobs as nat, script.workers, orphans, script.warmup).main.Returned?
  {
    if cfg.warmupJobs == 0 {
      MeasuredDrainIsSound(cfg, width, orphans, script);
    } else {
      var warm := DrainRun(cfg, width, cfg.warmupJobs as nat, script.workers, orphans, script.warmup);
      if warm.main.Returned? {
        DrainFacts(cfg, width, cfg.warmupJobs as nat, script.workers, orphans, script.warmup, []);
        MeasuredDrainIsSound(cfg, width, warm.fleet.sh.orphans, script);
      }
    }
  }

  lemma MeasuredDrainIsSound(cfg: Config, width: nat, orphans: seq<nat>, script: Script)
    requires width > 0 && KeysBelow(orphans, width) && KeysBelow(script.stragglers, width)
    ensures var o := DrainAndMeasure(cfg, width, orphans, script);
            o.Finished? ==> Sound(cfg, width, script, o.result) && KeysBelow(o.orphans, width)
                            && o.orphans == InFlight(o.result, script)
  {
    var r := DrainRun(cfg, width, cfg.jobs as nat, script.workers, orphans, script.drain);
    if r.main.Returned? {
      DrainFacts(cfg, width, cfg.jobs as nat, script.workers, orphans, script.drain, script.afterwards);
      MeasureIsSound(r.report, Exec(r.fleet, script.afterwards), script);
    }
  }

  /** The results are those of the trials, one for each, from the LPOPs left by the one before. */
  ghost predicate Accounted(cfg: Config, width: nat, scripts: seq<Script>, results: seq<Result>, lefts: seq<seq<nat>>)
    requires width > 0
  {
    && |lefts| == |results| + 1 && |results| <= |scripts|
    && (forall i :: 0 <= i < |results| ==>
          OneTrial(cfg, width, lefts[i], scripts[i]) == Finished(results[i], lefts[i + 1]))
    && (|results| < |scripts| ==> OneTrial(cfg, width, lefts[|results|], scripts[|results|]) == Unfinished)
  }

  /**
    No trial goes missing: there is a result for every trial, in order, up to the first
    that does not finish.
    */
  lemma {:induction false} EveryTrialIsAccounted(cfg: Config, width: nat, orphans: seq<nat>, scripts: seq<Script>)
    returns (lefts: seq<seq<nat>>)
    requires width > 0
    ensures Accounted(cfg, width, scripts, Results(cfg, width, orphans, scripts), lefts) && lefts[0] == orphans
    decreases scripts
  {
    var results := Results(cfg, width, orphans, scripts);
    if scripts == [] {
      lefts := [orphans];
    } else {
      var o := OneTrial(cfg, width, orphans, scripts[0]);
      if o.Unfinished? {
        lefts := [orphans];
      } else {
        var later := EveryTrialIsAccounted(cfg, width, o.orphans, scripts[1..]);
        lefts := [orphans] + later;
        forall i | 0 <= i < |results|
          ensures OneTrial(cfg, width, lefts[i], scripts[i]) == Finished(results[i], lefts[i + 1])
        {
          assert i > 0 ==> scripts[i] == scripts[1..][i - 1] && lefts[i] == later[i - 1] && lefts[i + 1] == later[i];
        }
      }
    }
  }

  /**
    Over any list of trials, every result is sound: its report adds up, every idle phase
    that runs sees only empty lists, and every skip has a positive backlog and follows a
    drain that timed out - a drain that reached its target is never followed by a skip. No
    timeout, abort or leftover of an earlier phase can change that.
    */
  lemma {:induction false} SessionIsSound(cfg: Config, width: nat, orphans: seq<nat>, scripts: seq<Script>)
    requires width > 0 && KeysBelow(orphans, width)
    requires forall i :: 0 <= i < |scripts| ==> KeysBelow(scripts[i].stragglers, width)
    ensures var results := Results(cfg, width, orphans, scripts);
            |results| <= |scripts| && forall i :: 0 <= i < |results| ==> Sound(cfg, width, scripts[i], results[i])
    decreases scripts
  {
    if scripts == [] {
    } else {
      TrialIsSound(cfg, width, orphans, scripts[0]);
      var o := OneTrial(cfg, width, orphans, scripts[0]);
      if o.Finished? {
        SessionIsSound(cfg, width, o.orphans, scripts[1..]);
      }
    }
  }

  // ---- ... and on the server -------------------------------------------------------------

  /** What is not the benchmark's is as it was. */
  ghost predicate SparesOthers(queues: seq<string>, before: Db, after: Db) {
    && (forall key :: key !in KeysOf(queues) ==> ListAt(after.lists, key) == ListAt(before.lists, key))
    && after.registry - Names(queues) == before.registry - Names(queues)
  }

  lemma {:induction false} LeftSpares(lists: Lists, queues: seq<string>, view: seq<seq<Job>>, key: string)
    requires |view| == |queues| && key !in KeysOf(queues)
    ensures ListAt(Left(lists, queues, view), key) == ListAt(lists, key)
  {
    if queues == [] {
    } else {
      var n := |queues| - 1;
      assert queues[n] in queues;
      assert forall q :: q in queues[..n] ==> q in queues;
      LeftSpares(lists, queues[..n], view[..n], key);
    }
  }

  /**
    Clear the lists and fill them with `n` fresh jobs, whatever was there before. Everything
    else on the server stays, unless flushing it has been allowed.
    */
  method Prepare(redis: Redis, queues: seq<string>, n: u64, cfg: Config)
    requires 0 < |queues| < 0x1_0000_0000_0000_0000 && Distinct(queues)
    modifies redis
    ensures Scanned(redis.lists, queues) == Strides(|queues|, cfg.clock, n as nat)
    ensures Names(queues) <= redis.registry
    ensures !cfg.allowFlushDb ==> SparesOthers(queues, old(redis.Contents()), redis.Contents())
    ensures cfg.allowFlushDb ==> SparesOthers(queues, Db(map[], {}), redis.Contents())
  {
    if cfg.allowFlushDb {
      redis.FlushDb();
    } else {
      redis.ClearQueue(queues);
    }
    forall q | q in queues ensures ListAt(redis.lists, Key(q)) == [] {
      assert Key(q) in KeysOf(queues);
    }
    ghost var db := redis.Contents();
    redis.BulkEnqueue(queues, n, cfg.clock);
    FreshBacklog(db, queues, cfg.clock, n as nat);
    RoundRobinStrides(db, queues, cfg.clock, n as nat);
  }

  /** One drain against the server. */
  method Drain(redis: Redis, queues: seq<string>, n: u64, cfg: Config, workers: nat, orphans: seq<nat>,
               events: seq<Trial.Event>, afterwards: seq<Action>)
    returns (run: Trial.Run, fleet: State)
    requires 0 < |queues| < 0x1_0000_0000_0000_0000 && Distinct(queues)
    modifies redis
    ensures run == DrainRun(cfg, |queues|, n as nat, workers, orphans, events)
    ensures fleet == Exec(run.fleet, afterwards)
    ensures Scanned(redis.lists, queues) == fleet.sh.queues
    ensures !cfg.allowFlushDb ==> SparesOthers(queues, old(redis.Contents()), redis.Contents())
  {
    Prepare(redis, queues, n, cfg);
    ghost var prepared := redis.Contents();
    var lists := Scanned(redis.lists, queues);
    run := Trial.Play(cfg.fits, Trial.Start(lists, workers, n as nat, orphans, cfg.names), events);
    fleet := Exec(run.fleet, afterwards);
    TrialReport.PlayKeepsStart(cfg.fits, lists, workers, n as nat, orphans, cfg.names, events);
    ExecShape(run.fleet, afterwards);
    LeftScanned(redis.lists, queues, fleet.sh.queues);
    redis.lists := Left(redis.lists, queues, fleet.sh.queues);
    forall key | key !in KeysOf(queues) ensures ListAt(redis.lists, key) == ListAt(prepared.lists, key) {
      LeftSpares(prepared.lists, queues, fleet.sh.queues, key);
    }
  }

  /** The length check, then the idle phase or a skip. */
  method MeasureIdle(redis: Redis, queues: seq<string>, report: Trial.Report, fleet: State, script: Script)
    returns (outcome: Outcome)
    requires Scanned(redis.lists, queues) == fleet.sh.queues
    ensures outcome == Measure(report, fleet, script)
    ensures outcome.Finished? && outcome.result.report == report
    ensures outcome.result.idle.Skipped? <==> Flatten(Scanned(redis.lists, queues)) != []
    ensures outcome.result.idle.Skipped? ==> outcome.result.idle.backlog == |Flatten(Scanned(redis.lists, queues))|
    ensures outcome.result.idle.Measured? ==>
              outcome.result.idle.fleet == Exec(Boot(fleet.sh.queues, script.workers, None, fleet.sh.orphans), script.idle)
  {
    var backlog := redis.TotalQueueLen(queues);
    if backlog > 0 {
      outcome := Finished(Result(report, fleet, Skipped(backlog)), fleet.sh.orphans);
    } else {
      var idle := Exec(Boot(Scanned(redis.lists, queues), script.workers, None, fleet.sh.orphans), script.idle);
      outcome := Finished(Result(report, fleet, Measured(idle)), idle.sh.orphans + script.stragglers);
    }
  }

  /** One round of the loop: warmup, drain, and what follows it. */
  method RunTrial(redis: Redis, queues: seq<string>, cfg: Config, orphans: seq<nat>, script: Script)
    returns (outcome: Outcome)
    requires 0 < |queues| < 0x1_0000_0000_0000_0000 && Distinct(queues)
    modifies redis
    ensures outcome == OneTrial(cfg, |queues|, orphans, script)
    ensures !cfg.allowFlushDb ==> SparesOthers(queues, old(redis.Contents()), redis.Contents())
  {
    var left := orphans;
    if cfg.warmupJobs > 0 {
      var warm, fleet := Drain(redis, queues, cfg.warmupJobs, cfg, script.workers, orphans, script.warmup, []);
      if !warm.main.Returned? {
        return Unfinished;
      }
      left := fleet.sh.orphans;
    }
    var run, fleet := Drain(redis, queues, cfg.jobs, cfg, script.workers, left, script.drain, script.afterwards);
    if !run.main.Returned? {
      return Unfinished;
    }
    outcome := MeasureIdle(redis, queues, run.report, fleet, script);
  }

  lemma OneResultMore(done: seq<Result>, result: Result, rest: seq<Result>)
    ensures done + ([result] + rest) == (done + [result]) + rest
  {
  }

  /**
    The per-trial loop of `main` against the server. There is a result for every trial, up to
    one that does not finish, and it does not depend on what the server held before; what is
    not the benchmark's stays on the server, unless flushing it has been allowed.
    */
  method RunSession(redis: Redis, base: string, numQueues: nat, cfg: Config, scripts: seq<Script>)
    returns (results: seq<Result>)
    requires numQueues < 0x1_0000_0000_0000_0000
    modifies redis
    ensures results == Results(cfg, |QueueNames(base, numQueues)|, [], scripts)
    ensures exists lefts :: Accounted(cfg, |QueueNames(base, numQueues)|, scripts, results, lefts) && lefts[0] == []
    ensures !cfg.allowFlushDb ==> SparesOthers(QueueNames(base, numQueues), old(redis.Contents()), redis.Contents())
  {
    var queues := QueueNames(base, numQueues);
    QueueNamesAreDistinct(base, numQueues);
    var orphans: seq<nat> := [];
    results := [];
    var i := 0;
    while i < |scripts|
      invariant 0 <= i <= |scripts|
      invariant results + Results(cfg, |queues|, orphans, scripts[i..]) == Results(cfg, |queues|, [], scripts)
      invariant !cfg.allowFlushDb ==> SparesOthers(queues, old(redis.Contents()), redis.Contents())
    {
      var outcome := RunTrial(redis, queues, cfg, orphans, scripts[i]);
      assert scripts[i..][1..] == scripts[i + 1..];
      if outcome.Unfinished? {
        break;
      }
      OneResultMore(results, outcome.result, Results(cfg, |queues|, outcome.orphans, scripts[i + 1..]));
      results, orphans := results + [outcome.result], outcome.orphans;
      i := i + 1;
    }
    ghost var lefts := EveryTrialIsAccounted(cfg, |queues|, [], scripts);
  }
}
