/**
  Every drain trial returns: under every fair schedule of its workers, its collector and
  its orchestrator, whatever fails and whatever else happens in between.
  */
module TrialReturns {
  import opened Basics
  import opened Fleet
  import opened FleetLedger
  import FleetDrain
  import opened FleetShutdown
  import opened Sampling
  import opened Trial
  import opened TrialTasks
  import opened TrialReport

  // ---- Fair schedules ---------------------------------------------------------------------------

  /** The worker moves - by a reply, an error or its abort, where it waits - or has nothing left to do. */
  predicate WorkerTurn(fits: Fits, r: Run, e: Event, w: nat) {
    var t := Next(fits, r, e);
    w < |r.fleet.pcs| && w < |t.fleet.pcs| ==> Gone(r.fleet.pcs[w]) || t.fleet.pcs[w] != r.fleet.pcs[w]
  }

  /** The orchestrator moves; if it waits for a drain to finish, because that has finished or its time is up. */
  predicate MainTurn(r: Run, e: Event) {
    e.MainStep? && (e.timeout || r.jobs == 0 || r.fleet.sh.done)
  }

  ghost predicate WorkerTurnIn(fits: Fits, r: Run, block: seq<Event>, w: nat) {
    exists i :: 0 <= i < |block| && WorkerTurn(fits, Play(fits, r, block[..i]), block[i], w)
  }

  ghost predicate MainTurnIn(fits: Fits, r: Run, block: seq<Event>) {
    exists i :: 0 <= i < |block| && MainTurn(Play(fits, r, block[..i]), block[i])
  }

  /** A stretch of a trial in which every worker, the collector and the orchestrator have a turn. */
  ghost predicate FairBlock(fits: Fits, r: Run, block: seq<Event>) {
    && (forall w: nat :: w < |r.fleet.pcs| ==> WorkerTurnIn(fits, r, block, w))
    && ReceiveLatency in block && CloseCollector in block && MainTurnIn(fits, r, block)
  }

  function PlayBlocks(fits: Fits, r: Run, blocks: seq<seq<Event>>): Run
    decreases blocks
  {
    if blocks == [] then r else PlayBlocks(fits, Play(fits, r, blocks[0]), blocks[1..])
  }

  ghost predicate Fair(fits: Fits, r: Run, blocks: seq<seq<Event>>)
    decreases blocks
  {
    blocks != [] ==> FairBlock(fits, r, blocks[0]) && Fair(fits, Play(fits, r, blocks[0]), blocks[1..])
  }

  // ---- What no event undoes ---------------------------------------------------------------------

  /** 1 for a job popped and not yet recorded. */
  function Unsent(pc: Pc): nat {
    if pc.Hit? || (pc.Served? && pc.reply.Entry?) then 1 else 0
  }

  /** Latencies sent, and jobs whose latency may still be. */
  function Room(s: State): nat {
    |Flatten(s.sh.queues)| + Total(Unsent, s.pcs) + |s.sh.sent|
  }

  ghost predicate Healthy(r: Run, n: nat) {
    && InRange(r.fleet) && Room(r.fleet) <= n
    && (Rank(r.main) > Rank(SendShutdown) ==> r.fleet.sh.shutdown)
    && r.collector.received <= |r.fleet.sh.sent|
    && (Rank(r.main) > 0 ==> !r.sentinel)
  }

  /** Once shut down, workers only get closer to leaving. */
  ghost predicate FleetOnward(s: State, t: State) {
    && |t.pcs| == |s.pcs| && |t.sh.queues| == |s.sh.queues| && InRange(t)
    && Room(t) <= Room(s) && |s.sh.sent| <= |t.sh.sent|
    && (s.sh.shutdown ==> t.sh.shutdown)
    && (s.sh.shutdown ==> forall w :: 0 <= w < |s.pcs| ==>
          StepsLeft(t.pcs[w], |s.sh.queues|) <= StepsLeft(s.pcs[w], |s.sh.queues|))
    && (AllGone(s) ==> AllGone(t) && t.sh.sent == s.sh.sent)
  }

  ghost predicate Onward(r: Run, t: Run) {
    && FleetOnward(r.fleet, t.fleet)
    && Rank(t.main) >= Rank(r.main)
    && t.collector.received >= r.collector.received && (r.collector.closed ==> t.collector.closed)
  }

  lemma MoveKeepsRoom(s: Shared, pc: Pc, op: Op, condemned: bool)
    requires PcInRange(pc, |s.queues|, s.completed)
    ensures var m := Move(s, pc, op, condemned);
            |Flatten(m.sh.queues)| + Unsent(m.pc) + |m.sh.sent| <= |Flatten(s.queues)| + Unsent(pc) + |s.sent|
  {
    if pc.Waiting? {
      PopConserves(s, pc.key);
    }
  }

  lemma StepKeepsRoom(s: State, a: Action)
    requires InRange(s)
    ensures Room(Step(s, a)) <= Room(s)
  {
    if a.Act? && a.worker < |s.pcs| {
      var w, condemned := a.worker, a.worker in s.sh.condemned;
      MoveKeepsRoom(s.sh, s.pcs[w], a.op, condemned);
      var rest := TotalRest(Unsent, s.pcs, w, Move(s.sh, s.pcs[w], a.op, condemned).pc);
    } else if a.ServeOrphan? && a.index < |s.sh.orphans| {
      PopConserves(s.sh, s.sh.orphans[a.index]);
    }
  }

  lemma StepOnward(s: State, a: Action)
    requires InRange(s)
    ensures FleetOnward(s, Step(s, a))
  {
    StepShape(s, a);
    StepsGrow(s, a);
    InRangeStep(s, a);
    StepKeepsRoom(s, a);
    if s.sh.shutdown {
      forall w | 0 <= w < |s.pcs|
        ensures StepsLeft(Step(s, a).pcs[w], |s.sh.queues|) <= StepsLeft(s.pcs[w], |s.sh.queues|)
      {
        WorkerRunsDown(s, a, w);
      }
    }
  }

  lemma NextFleetOnward(fits: Fits, r: Run, e: Event)
    requires InRange(r.fleet)
    ensures FleetOnward(r.fleet, Next(fits, r, e).fleet)
  {
    var a := NextFleet(fits, r, e);
    StepOnward(r.fleet, a);
  }

  lemma NextCollector(fits: Fits, r: Run, e: Event)
    requires r.collector.received <= |r.fleet.sh.sent|
    ensures var c := Next(fits, r, e).collector;
            && r.collector.received <= c.received <= |r.fleet.sh.sent|
            && (r.collector.closed ==> c.closed)
            && (e == ReceiveLatency ==> c.closed || c.received > r.collector.received || c.received == |r.fleet.sh.sent|)
            && (e == CloseCollector && !r.sentinel && AllGone(r.fleet) && r.collector.received == |r.fleet.sh.sent| ==> c.closed)
  {
  }

  lemma NextMain(fits: Fits, r: Run, e: Event)
    ensures var t := Next(fits, r, e);
            && Rank(t.main) >= Rank(r.main)
            && (!r.sentinel || Rank(t.main) > Rank(r.main) == 0 ==> !t.sentinel)
            && (Rank(t.main) > Rank(SendShutdown) >= Rank(r.main) ==> t.fleet.sh.shutdown)
  {
    if e.MainStep? {
      OrchestrateRank(r, e.timeout);
    }
  }

  lemma NextOnward(fits: Fits, r: Run, e: Event, n: nat)
    requires Healthy(r, n)
    ensures Onward(r, Next(fits, r, e)) && Healthy(Next(fits, r, e), n)
  {
    NextFleetOnward(fits, r, e);
    NextCollector(fits, r, e);
    NextMain(fits, r, e);
  }

  lemma OnwardFurther(r: Run, s: Run, t: Run)
    requires Onward(r, s) && Onward(s, t)
    ensures Onward(r, t)
  {
  }

  lemma {:induction false} PlayOnward(fits: Fits, r: Run, events: seq<Event>, n: nat)
    requires Healthy(r, n)
    ensures Onward(r, Play(fits, r, events)) && Healthy(Play(fits, r, events), n)
    decreases events
  {
    if events == [] {
    } else {
      var s := Play(fits, r, events[..|events| - 1]);
      PlayOnward(fits, r, events[..|events| - 1], n);
      NextOnward(fits, s, events[|events| - 1], n);
      OnwardFurther(r, s, Play(fits, r, events));
    }
  }

  /** Before, at and after event `i` of a block. */
  lemma {:induction false} Around(fits: Fits, r: Run, block: seq<Event>, i: nat, n: nat) returns (s: Run, t: Run)
    requires Healthy(r, n) && i < |block|
    ensures s == Play(fits, r, block[..i]) && t == Next(fits, s, block[i])
    ensures Healthy(s, n) && Onward(r, s) && Onward(s, t) && Onward(t, Play(fits, r, block))
  {
    s := Play(fits, r, block[..i]);
    t := Next(fits, s, block[i]);
    PlayOnward(fits, r, block[..i], n);
    NextOnward(fits, s, block[i], n);
    PlayOnward(fits, t, block[i + 1..], n);
    PlayAround(fits, r, block, i);
  }

  lemma {:induction false} PlayAround(fits: Fits, r: Run, block: seq<Event>, i: nat)
    requires i < |block|
    ensures Play(fits, r, block) == Play(fits, Next(fits, Play(fits, r, block[..i]), block[i]), block[i + 1..])
  {
    assert block == block[..i] + ([block[i]] + block[i + 1..]);
    PlayConcat(fits, r, block[..i], [block[i]] + block[i + 1..]);
    PlayNext(fits, Play(fits, r, block[..i]), block[i], block[i + 1..]);
  }

  // ---- What a fair block achieves -----------------------------------------------------------------

  lemma WorkerTurnCounts(fits: Fits, r: Run, e: Event, w: nat)
    requires InRange(r.fleet) && r.fleet.sh.shutdown && w < |r.fleet.pcs| && WorkerTurn(fits, r, e, w)
    ensures var t := Next(fits, r, e); var keys := |r.fleet.sh.queues|;
            w < |t.fleet.pcs| && (StepsLeft(r.fleet.pcs[w], keys) == 0 || StepsLeft(t.fleet.pcs[w], keys) < StepsLeft(r.fleet.pcs[w], keys))
  {
    var a := NextFleet(fits, r, e);
    WorkerRunsDown(r.fleet, a, w);
  }

  lemma {:induction false} WorkerProgress(fits: Fits, r: Run, block: seq<Event>, w: nat, n: nat)
    requires Healthy(r, n) && r.fleet.sh.shutdown && w < |r.fleet.pcs| && WorkerTurnIn(fits, r, block, w)
    ensures var t := Play(fits, r, block); var keys := |r.fleet.sh.queues|;
            w < |t.fleet.pcs| && (StepsLeft(r.fleet.pcs[w], keys) == 0 || StepsLeft(t.fleet.pcs[w], keys) < StepsLeft(r.fleet.pcs[w], keys))
  {
    var i :| 0 <= i < |block| && WorkerTurn(fits, Play(fits, r, block[..i]), block[i], w);
    var s, t := Around(fits, r, block, i, n);
    WorkerTurnCounts(fits, s, block[i], w);
  }

  lemma {:induction false} FleetProgress(fits: Fits, r: Run, block: seq<Event>, n: nat, b: nat)
    requires Healthy(r, n) && r.fleet.sh.shutdown && FairBlock(fits, r, block) && Within(r.fleet, b + 1)
    ensures Within(Play(fits, r, block).fleet, b)
  {
    var t := Play(fits, r, block);
    PlayOnward(fits, r, block, n);
    forall w | 0 <= w < |t.fleet.pcs| ensures StepsLeft(t.fleet.pcs[w], |t.fleet.sh.queues|) <= b {
      WorkerProgress(fits, r, block, w, n);
    }
  }

  /** Nothing holds up the orchestrator but its own turn. */
  ghost predicate MayMove(r: Run) {
    Rank(r.main) < Rank(Joining) || (AllGone(r.fleet) && r.collector.closed && Rank(r.main) < Rank(Returned))
  }

  lemma MainTurnAdvances(fits: Fits, r: Run, e: Event)
    requires MainTurn(r, e) && MayMove(r)
    ensures Rank(Next(fits, r, e).main) == Rank(r.main) + 1
  {
  }

  lemma {:induction false} MainProgress(fits: Fits, r: Run, block: seq<Event>, n: nat)
    requires Healthy(r, n) && MainTurnIn(fits, r, block)
    requires MayMove(r)
    ensures Rank(Play(fits, r, block).main) > Rank(r.main)
  {
    var i :| 0 <= i < |block| && MainTurn(Play(fits, r, block[..i]), block[i]);
    var s, t := Around(fits, r, block, i, n);
    if Rank(s.main) == Rank(r.main) {
      MainTurnAdvances(fits, s, block[i]);
    }
  }

  /** Latencies that may still have to be received, and the end of the collector. */
  function ToCollect(c: CollectorTask, n: nat): nat {
    if c.closed then 0 else if c.received <= n then n + 1 - c.received else 1
  }

  lemma {:induction false} ReceiveProgress(fits: Fits, r: Run, block: seq<Event>, n: nat)
    requires Healthy(r, n) && ReceiveLatency in block && AllGone(r.fleet) && r.collector.received < |r.fleet.sh.sent|
    ensures var c := Play(fits, r, block).collector; c.closed || c.received > r.collector.received
  {
    var i :| 0 <= i < |block| && block[i] == ReceiveLatency;
    var s, t := Around(fits, r, block, i, n);
    NextCollector(fits, s, ReceiveLatency);
  }

  lemma {:induction false} CloseProgress(fits: Fits, r: Run, block: seq<Event>, n: nat)
    requires Healthy(r, n) && CloseCollector in block && AllGone(r.fleet)
    requires Rank(r.main) > 0 && r.collector.received == |r.fleet.sh.sent|
    ensures Play(fits, r, block).collector.closed
  {
    var i :| 0 <= i < |block| && block[i] == CloseCollector;
    var s, t := Around(fits, r, block, i, n);
    NextCollector(fits, s, CloseCollector);
  }

  lemma {:induction false} CollectorProgress(fits: Fits, r: Run, block: seq<Event>, n: nat)
    requires Healthy(r, n) && FairBlock(fits, r, block)
    requires AllGone(r.fleet) && Rank(r.main) > 0 && !r.collector.closed
    ensures ToCollect(Play(fits, r, block).collector, n) < ToCollect(r.collector, n)
  {
    PlayOnward(fits, r, block, n);
    if r.collector.received < |r.fleet.sh.sent| {
      ReceiveProgress(fits, r, block, n);
    } else {
      CloseProgress(fits, r, block, n);
    }
  }

  // ---- The bound ----------------------------------------------------------------------------------

  /** What is left to do: points of the orchestrator, steps of the slowest worker, latencies. */
  function Left(r: Run, b: nat, n: nat): nat {
    Rank(Returned) - Rank(r.main) + b + ToCollect(r.collector, n)
  }

  /** `b` bounds the steps of every worker from the shutdown on. */
  ghost predicate Bounds(r: Run, b: nat) {
    if r.fleet.sh.shutdown then Within(r.fleet, b) else 3 * |r.fleet.sh.queues| + 5 <= b
  }

  lemma BoundsStay(r: Run, t: Run, b: nat)
    requires Bounds(r, b) && Onward(r, t) && InRange(t.fleet)
    ensures Bounds(t, b)
  {
  }

  lemma {:induction false} FairBlockProgress(fits: Fits, r: Run, block: seq<Event>, n: nat, b: nat)
    returns (b': nat)
    requires Healthy(r, n) && FairBlock(fits, r, block) && Bounds(r, b)
    ensures var t := Play(fits, r, block);
            Bounds(t, b') && (r.main == t.main == Returned || Left(t, b', n) < Left(r, b, n))
  {
    var t := Play(fits, r, block);
    b' := b;
    PlayOnward(fits, r, block, n);
    BoundsStay(r, t, b);
    CollectOnward(r.collector, t.collector, n);
    if Rank(r.main) < Rank(Joining) {
      MainProgress(fits, r, block, n);
    } else if !AllGone(r.fleet) {
      b' := b - 1;
      FleetProgress(fits, r, block, n, b');
    } else if !r.collector.closed {
      CollectorProgress(fits, r, block, n);
    } else if r.main != Returned {
      MainProgress(fits, r, block, n);
    } else {
      LastRank(t.main);
    }
  }

  lemma CollectOnward(c: CollectorTask, d: CollectorTask, n: nat)
    requires d.received >= c.received && (c.closed ==> d.closed)
    ensures ToCollect(d, n) <= ToCollect(c, n)
  {
  }

  lemma LastRank(p: MainPoint)
    requires Rank(p) >= Rank(Returned)
    ensures p == Returned
  {
  }

  lemma {:induction false} FairBlocksReturn(fits: Fits, r: Run, blocks: seq<seq<Event>>, n: nat, b: nat)
    requires Healthy(r, n) && Fair(fits, r, blocks) && Bounds(r, b) && |blocks| >= Left(r, b, n)
    ensures PlayBlocks(fits, r, blocks).main == Returned
    decreases blocks
  {
    if blocks == [] {
      LastRank(r.main);
    } else {
      var b' := FairBlockProgress(fits, r, blocks[0], n, b);
      PlayOnward(fits, r, blocks[0], n);
      if r.main == Returned {
        StaysReturned(fits, Play(fits, r, blocks[0]), blocks[1..], n);
      } else {
        FairBlocksReturn(fits, Play(fits, r, blocks[0]), blocks[1..], n, b');
      }
    }
  }

  lemma {:induction false} StaysReturned(fits: Fits, r: Run, blocks: seq<seq<Event>>, n: nat)
    requires Healthy(r, n) && Rank(r.main) >= Rank(Returned)
    ensures PlayBlocks(fits, r, blocks).main == Returned
    decreases blocks
  {
    if blocks == [] {
      LastRank(r.main);
    } else {
      PlayOnward(fits, r, blocks[0], n);
      StaysReturned(fits, Play(fits, r, blocks[0]), blocks[1..], n);
    }
  }

  lemma StartHealthy(queues: seq<seq<Job>>, workers: nat, jobs: nat, orphans: seq<nat>, names: seq<string>)
    requires forall k :: 0 <= k < |orphans| ==> orphans[k] < |queues|
    ensures Healthy(Start(queues, workers, jobs, orphans, names), |Flatten(queues)|)
  {
    TotalZero(Unsent, Boot(queues, workers, Some(jobs), orphans).pcs);
  }

  lemma LeftAtFirst(r: Run, n: nat)
    requires Healthy(r, n)
    ensures Bounds(r, 3 * |r.fleet.sh.queues| + 5)
    ensures Left(r, 3 * |r.fleet.sh.queues| + 5, n) <= 3 * |r.fleet.sh.queues| + n + 17
  {
  }

  lemma {:induction false} ReturnsInTime(fits: Fits, r: Run, blocks: seq<seq<Event>>, n: nat)
    requires Healthy(r, n) && Fair(fits, r, blocks) && |blocks| >= 3 * |r.fleet.sh.queues| + n + 17
    ensures PlayBlocks(fits, r, blocks).main == Returned
  {
    LeftAtFirst(r, n);
    FairBlocksReturn(fits, r, blocks, n, 3 * |r.fleet.sh.queues| + 5);
  }

  /**
    Every trial returns. However its tasks interleave and whatever fails, after
    3 N + n + 17 stretches, in each of which every worker, the collector and the
    orchestrator had a turn, the report is there.
    */
  lemma EveryFairTrialReturns(fits: Fits, queues: seq<seq<Job>>, workers: nat, jobs: nat, orphans: seq<nat>,
                              names: seq<string>, blocks: seq<seq<Event>>)
    requires forall k :: 0 <= k < |orphans| ==> orphans[k] < |queues|
    requires Fair(fits, Start(queues, workers, jobs, orphans, names), blocks)
    requires |blocks| >= 3 * |queues| + |Flatten(queues)| + 17
    ensures PlayBlocks(fits, Start(queues, workers, jobs, orphans, names), blocks).main == Returned
  {
    StartHealthy(queues, workers, jobs, orphans, names);
    ReturnsInTime(fits, Start(queues, workers, jobs, orphans, names), blocks, |Flatten(queues)|);
  }

  // ---- Fair schedules exist from everywhere ---------------------------------------------------------

  /** One turn for each of the first `w` workers. */
  lemma {:induction false} WorkersTakeTurns(fits: Fits, r: Run, w: nat, n: nat) returns (events: seq<Event>)
    requires Healthy(r, n) && w <= |r.fleet.pcs|
    ensures |events| == w
    ensures forall v :: 0 <= v < w ==> WorkerTurn(fits, Play(fits, r, events[..v]), events[v], v)
  {
    if w == 0 {
      events := [];
    } else {
      var before := WorkersTakeTurns(fits, r, w - 1, n);
      var s := Play(fits, r, before);
      PlayOnward(fits, r, before, n);
      var e := TakeTurn(fits, s, w - 1);
      events := before + [e];
      forall v | 0 <= v < w ensures WorkerTurn(fits, Play(fits, r, events[..v]), events[v], v) {
        assert events[..v] == before[..v];
        assert v == w - 1 ==> before[..v] == before;
      }
    }
  }

  lemma TakeTurn(fits: Fits, r: Run, w: nat) returns (e: Event)
    requires InRange(r.fleet) && w < |r.fleet.pcs|
    ensures WorkerTurn(fits, r, e, w)
  {
    var pc := r.fleet.pcs[w];
    e := FleetStep(Act(w, FleetDrain.NextOp(pc, |r.fleet.sh.queues|, 0)));
    if !Gone(pc) {
      NobodyIsStuck(r.fleet.sh, pc, 0, w in r.fleet.sh.condemned);
    }
  }

  lemma {:induction false} FairBlockExists(fits: Fits, r: Run, n: nat) returns (block: seq<Event>)
    requires Healthy(r, n)
    ensures FairBlock(fits, r, block)
  {
    var turns := WorkersTakeTurns(fits, r, |r.fleet.pcs|, n);
    block := turns + [ReceiveLatency, CloseCollector, MainStep(true)];
    forall w: nat | w < |r.fleet.pcs| ensures WorkerTurnIn(fits, r, block, w) {
      assert block[..w] == turns[..w] && block[w] == turns[w];
    }
    var k := |turns|;
    assert block[k] == ReceiveLatency && block[k + 1] == CloseCollector;
    assert MainTurn(Play(fits, r, block[..k + 2]), block[k + 2]);
  }

  lemma {:induction false} FairBlocksExist(fits: Fits, r: Run, count: nat, n: nat) returns (blocks: seq<seq<Event>>)
    requires Healthy(r, n)
    ensures |blocks| == count && Fair(fits, r, blocks)
    decreases count
  {
    if count == 0 {
      blocks := [];
    } else {
      var block := FairBlockExists(fits, r, n);
      PlayOnward(fits, r, block, n);
      var rest := FairBlocksExist(fits, Play(fits, r, block), count - 1, n);
      blocks := [block] + rest;
    }
  }

  /** Some fair schedule from here leads to the report. */
  ghost predicate CanReturn(fits: Fits, r: Run) {
    exists blocks :: Fair(fits, r, blocks) && PlayBlocks(fits, r, blocks).main == Returned
  }

  lemma {:induction false} HealthyCanReturn(fits: Fits, r: Run, n: nat)
    requires Healthy(r, n)
    ensures CanReturn(fits, r)
  {
    var blocks := FairBlocksExist(fits, r, 3 * |r.fleet.sh.queues| + n + 17, n);
    ReturnsInTime(fits, r, blocks, n);
  }

  /** Whatever has happened in a trial, it has fair schedules of any length from there, and so can return. */
  lemma {:induction false} EveryTrialCanReturn(fits: Fits, queues: seq<seq<Job>>, workers: nat, jobs: nat, orphans: seq<nat>,
                                               names: seq<string>, before: seq<Event>)
    requires forall k :: 0 <= k < |orphans| ==> orphans[k] < |queues|
    ensures CanReturn(fits, Play(fits, Start(queues, workers, jobs, orphans, names), before))
  {
    var r0 := Start(queues, workers, jobs, orphans, names);
    StartHealthy(queues, workers, jobs, orphans, names);
    PlayOnward(fits, r0, before, |Flatten(queues)|);
    HealthyCanReturn(fits, Play(fits, r0, before), |Flatten(queues)|);
  }
}
