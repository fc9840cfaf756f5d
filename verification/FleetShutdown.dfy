/**
  What a fleet can still do once `shutdown` is set. The flag is read only at the
  loop top and while sleeping, so workers in the middle of a scan finish their pass.
  */
module FleetShutdown {
  import opened Basics
  import opened Fleet
  import opened FleetLedger
  import opened FleetDrain

  /** Polls a worker can still make in its current pass. */
  function PollsLeft(pc: Pc, keys: nat): nat {
    match pc
    case Scan(i) => if i < keys then keys - i else 0
    case Waiting(i) => if i < keys then keys - i - 1 else 0
    case Served(i, _) => if i < keys then keys - i - 1 else 0
    case _ => 0
  }

  /** Whether it can still complete a job. */
  function JobsLeft(pc: Pc): nat {
    if pc.Scan? || pc.Waiting? || pc.Served? || pc.Hit? || pc.Recorded? then 1 else 0
  }

  /** Steps it can still make. */
  function StepsLeft(pc: Pc, keys: nat): nat {
    match pc
    case Top => 1
    case Scan(i) => if i < keys then 5 + 3 * (keys - i) else 5
    case Waiting(i) => if i < keys then 4 + 3 * (keys - i) else 7
    case Served(i, _) => if i < keys then 3 + 3 * (keys - i) else 6
    case Hit(_, _) => 4
    case Recorded(_) => 3
    case Drew(_) => 2
    case Sleeping => 2
    case Exited => 0
    case Aborted(_) => 0
  }

  function PollsLeftOf(keys: nat): Pc -> nat { (pc: Pc) => PollsLeft(pc, keys) }

  function StepsLeftOf(keys: nat): Pc -> nat { (pc: Pc) => StepsLeft(pc, keys) }

  predicate StartsPass(s: State, a: Action) {
    a.Act? && a.worker < |s.pcs| && s.pcs[a.worker].Top? && Step(s, a).pcs[a.worker].Scan?
  }

  /** Steps of a run in which some worker moved. */
  function WorkerMoves(s: State, acts: seq<Action>): nat
    decreases acts
  {
    if acts == [] then 0
    else (if Step(s, acts[0]).pcs != s.pcs then 1 else 0) + WorkerMoves(Step(s, acts[0]), acts[1..])
  }

  predicate NoPassStarts(s: State, acts: seq<Action>)
    decreases acts
  {
    acts != [] ==> !StartsPass(s, acts[0]) && NoPassStarts(Step(s, acts[0]), acts[1..])
  }

  lemma MoveRunsDown(s: Shared, pc: Pc, op: Op, condemned: bool)
    requires s.shutdown && PcInRange(pc, |s.queues|, s.completed)
    ensures var m := Move(s, pc, op, condemned); var keys := |s.queues|;
            && m.sh.shutdown && |m.sh.queues| == keys
            && m.sh.polls + PollsLeft(m.pc, keys) <= s.polls + PollsLeft(pc, keys)
            && m.sh.completed + JobsLeft(m.pc) <= s.completed + JobsLeft(pc)
            && (m.pc != pc ==> StepsLeft(m.pc, keys) < StepsLeft(pc, keys))
            && !(pc.Top? && m.pc.Scan?)
  {
  }

  /** Nobody is stuck: a worker that is not gone has a next step, shut down and condemned or not. */
  lemma NobodyIsStuck(s: Shared, pc: Pc, nowNs: nat, condemned: bool)
    requires PcInRange(pc, |s.queues|, s.completed) && !Gone(pc)
    ensures Move(s, pc, NextOp(pc, |s.queues|, nowNs), condemned).pc != pc
  {
  }

  lemma StepRunsDown(s: State, a: Action)
    requires s.sh.shutdown && InRange(s)
    ensures var t := Step(s, a); var keys := |s.sh.queues|;
            && t.sh.shutdown && InRange(t) && |t.sh.queues| == keys
            && t.sh.polls + Total(PollsLeftOf(keys), t.pcs) <= s.sh.polls + Total(PollsLeftOf(keys), s.pcs)
            && t.sh.completed + Total(JobsLeft, t.pcs) <= s.sh.completed + Total(JobsLeft, s.pcs)
            && Total(StepsLeftOf(keys), t.pcs) + (if t.pcs != s.pcs then 1 else 0) <= Total(StepsLeftOf(keys), s.pcs)
            && !StartsPass(s, a)
  {
    InRangeStep(s, a);
    if a.Act? && a.worker < |s.pcs| {
      var w := a.worker;
      var keys := |s.sh.queues|;
      var pc := Step(s, a).pcs[w];
      MoveRunsDown(s.sh, s.pcs[w], a.op, w in s.sh.condemned);
      var _ := TotalRest(PollsLeftOf(keys), s.pcs, w, pc);
      var _ := TotalRest(JobsLeft, s.pcs, w, pc);
      var _ := TotalRest(StepsLeftOf(keys), s.pcs, w, pc);
    }
  }

  lemma {:induction false} ExecRunsDown(s: State, acts: seq<Action>)
    requires s.sh.shutdown && InRange(s)
    ensures var t := Exec(s, acts); var keys := |s.sh.queues|;
            && t.sh.shutdown && InRange(t) && |t.pcs| == |s.pcs| && |t.sh.queues| == keys
            && t.sh.polls + Total(PollsLeftOf(keys), t.pcs) <= s.sh.polls + Total(PollsLeftOf(keys), s.pcs)
            && t.sh.completed + Total(JobsLeft, t.pcs) <= s.sh.completed + Total(JobsLeft, s.pcs)
            && WorkerMoves(s, acts) + Total(StepsLeftOf(keys), t.pcs) <= Total(StepsLeftOf(keys), s.pcs)
            && NoPassStarts(s, acts)
    decreases acts
  {
    if acts == [] {
    } else {
      StepRunsDown(s, acts[0]);
      ExecRunsDown(Step(s, acts[0]), acts[1..]);
    }
  }

  /** What the fleet still does on `after`. */
  ghost predicate OvershootBounded(s: State, after: seq<Action>) {
    var t := Exec(s, after); var keys := |s.sh.queues|;
    && NoPassStarts(s, after)
    && t.sh.polls <= s.sh.polls + |s.pcs| * keys
    && t.sh.completed <= s.sh.completed + |s.pcs|
    && WorkerMoves(s, after) <= |s.pcs| * (3 * keys + 5)
    && (WorkerMoves(s, after) == Total(StepsLeftOf(keys), s.pcs) ==> AllGone(t))
  }

  /**
    Bounded overshoot: from any reachable state with `shutdown` set, in every
    interleaving and whichever branch of the sleep wins, no worker starts another
    pass, the fleet makes at most W * N further polls, W further completions and
    W * (3 N + 5) further steps; and when no step budget is left, every worker is gone.
    */
  lemma {:induction false} OvershootIsBounded(queues: seq<seq<Job>>, workers: nat, target: Option<nat>, orphans: seq<nat>,
                           before: seq<Action>, after: seq<Action>)
    requires forall k :: 0 <= k < |orphans| ==> orphans[k] < |queues|
    requires Exec(Boot(queues, workers, target, orphans), before).sh.shutdown
    ensures var s := Exec(Boot(queues, workers, target, orphans), before);
            |s.pcs| == workers && |s.sh.queues| == |queues| && OvershootBounded(s, after)
  {
    var s0 := Boot(queues, workers, target, orphans);
    BootLedger(queues, workers, target, orphans);
    ExecLedger(s0, before, |Flatten(queues)|, |orphans|);
    ExecShape(s0, before);
    OvershootFrom(Exec(s0, before), after);
  }

  lemma {:induction false} OvershootFrom(s: State, after: seq<Action>)
    requires s.sh.shutdown && InRange(s)
    ensures OvershootBounded(s, after)
  {
    ExecRunsDown(s, after);
    LeftAtMost(s);
    NothingLeftAllGone(Exec(s, after), |s.sh.queues|);
  }

  lemma {:induction false} LeftAtMost(s: State)
    requires InRange(s)
    ensures var keys := |s.sh.queues|;
            && Total(PollsLeftOf(keys), s.pcs) <= |s.pcs| * keys
            && Total(JobsLeft, s.pcs) <= |s.pcs|
            && Total(StepsLeftOf(keys), s.pcs) <= |s.pcs| * (3 * keys + 5)
  {
    var keys := |s.sh.queues|;
    TotalAtMost(PollsLeftOf(keys), s.pcs, keys);
    TotalAtMost(JobsLeft, s.pcs, 1);
    TotalAtMost(StepsLeftOf(keys), s.pcs, 3 * keys + 5);
  }

  lemma NothingLeftAllGone(t: State, keys: nat)
    ensures Total(StepsLeftOf(keys), t.pcs) == 0 <==> AllGone(t)
  {
    TotalZero(StepsLeftOf(keys), t.pcs);
    assert forall w :: 0 <= w < |t.pcs| ==> (StepsLeftOf(keys)(t.pcs[w]) == 0 <==> Gone(t.pcs[w]));
  }

  // ---- Leaving under every fair schedule ------------------------------------------------------

  /** No worker has more than `b` steps left. */
  ghost predicate Within(s: State, b: nat) {
    forall w :: 0 <= w < |s.pcs| ==> StepsLeft(s.pcs[w], |s.sh.queues|) <= b
  }

  /** A step of anyone leaves a worker where it is or brings it closer to leaving. */
  lemma WorkerRunsDown(s: State, a: Action, w: nat)
    requires s.sh.shutdown && InRange(s) && w < |s.pcs|
    ensures var t := Step(s, a); var keys := |s.sh.queues|;
            && t.sh.shutdown && InRange(t) && |t.pcs| == |s.pcs| && |t.sh.queues| == keys
            && (t.pcs[w] != s.pcs[w] ==> StepsLeft(t.pcs[w], keys) < StepsLeft(s.pcs[w], keys))
  {
    InRangeStep(s, a);
    StepShape(s, a);
    if a.Act? && a.worker < |s.pcs| {
      MoveRunsDown(s.sh, s.pcs[a.worker], a.op, a.worker in s.sh.condemned);
    }
  }

  /** In a stretch in which it has a turn, a worker that is not gone gets closer to leaving. */
  lemma {:induction false} TurnsRunDown(s: State, slots: seq<Slot>, w: nat)
    requires s.sh.shutdown && InRange(s) && w < |s.pcs|
    ensures var t := Turns(s, slots); var keys := |s.sh.queues|;
            && t.sh.shutdown && InRange(t) && |t.pcs| == |s.pcs| && |t.sh.queues| == keys
            && StepsLeft(t.pcs[w], keys) <= StepsLeft(s.pcs[w], keys)
            && (Takes(slots, w) && !Gone(s.pcs[w]) ==> StepsLeft(t.pcs[w], keys) < StepsLeft(s.pcs[w], keys))
    decreases slots
  {
    if slots == [] {
    } else {
      WorkerRunsDown(s, TurnAction(s, slots[0]), w);
      TurnsRunDown(Turn(s, slots[0]), slots[1..], w);
      if slots[0].worker == w && !Gone(s.pcs[w]) {
        NobodyIsStuck(s.sh, s.pcs[w], slots[0].nowNs, w in s.sh.condemned);
      } else if Takes(slots, w) && slots[0].worker != w {
        TakesTail(slots, w);
      }
    }
  }

  lemma BlockRunsDown(s: State, block: seq<Slot>, b: nat)
    requires s.sh.shutdown && InRange(s) && Covers(block, |s.pcs|) && Within(s, b + 1) && s.pcs != []
    ensures var t := Turns(s, block); t.sh.shutdown && InRange(t) && |t.pcs| == |s.pcs| && Within(t, b)
  {
    var t := Turns(s, block);
    TurnsRunDown(s, block, 0);
    forall w | 0 <= w < |t.pcs| ensures StepsLeft(t.pcs[w], |t.sh.queues|) <= b {
      TurnsRunDown(s, block, w);
      assert Takes(block, w);
    }
  }

  lemma {:induction false} RoundsLeave(s: State, blocks: seq<seq<Slot>>, b: nat)
    requires s.sh.shutdown && InRange(s) && Within(s, b) && |blocks| >= b && s.pcs != []
    requires forall k :: 0 <= k < |blocks| ==> Covers(blocks[k], |s.pcs|)
    ensures AllGone(Rounds(s, blocks))
    decreases blocks
  {
    if blocks == [] {
    } else {
      var left := if b == 0 then 0 else b - 1;
      BlockRunsDown(s, blocks[0], left);
      RoundsLeave(Turns(s, blocks[0]), blocks[1..], left);
    }
  }

  /** Every fair schedule of a fleet that has been shut down empties it within 3 N + 5 turns of each worker. */
  lemma {:induction false} EveryFairScheduleLeaves(s: State, blocks: seq<seq<Slot>>)
    requires s.sh.shutdown && InRange(s)
    requires forall k :: 0 <= k < |blocks| ==> Covers(blocks[k], |s.pcs|)
    requires |blocks| >= 3 * |s.sh.queues| + 5
    ensures AllGone(Rounds(s, blocks))
  {
    if s.pcs == [] {
      RoundsKeepSize(s, blocks);
    } else {
      assert Within(s, 3 * |s.sh.queues| + 5);
      RoundsLeave(s, blocks, 3 * |s.sh.queues| + 5);
    }
  }

  lemma {:induction false} RoundsKeepSize(s: State, blocks: seq<seq<Slot>>)
    ensures |Rounds(s, blocks).pcs| == |s.pcs|
    decreases blocks
  {
    if blocks == [] {
    } else {
      TurnsAreARun(s, blocks[0]);
      ExecShape(s, TurnActions(s, blocks[0]));
      RoundsKeepSize(Turns(s, blocks[0]), blocks[1..]);
    }
  }

  // ---- When a poll count is final ---------------------------------------------------------------

  lemma MovePollsGrow(s: Shared, pc: Pc, op: Op, condemned: bool)
    ensures Move(s, pc, op, condemned).sh.polls >= s.polls
  {
  }

  lemma {:induction false} PollsGrow(s: State, acts: seq<Action>)
    ensures Exec(s, acts).sh.polls >= s.sh.polls
    decreases acts
  {
    if acts == [] {
    } else {
      var a := acts[0];
      if a.Act? && a.worker < |s.pcs| {
        MovePollsGrow(s.sh, s.pcs[a.worker], a.op, a.worker in s.sh.condemned);
      }
      PollsGrow(Step(s, a), acts[1..]);
    }
  }

  /** What a worker with polls left does to make one: fail the LPOP it waits for, if any, and go on. */
  function OnePollMore(pc: Pc, w: nat): seq<Action> {
    if pc.Scan? then [Act(w, Issue)] else [Act(w, Fail)] + [Act(w, Issue)]
  }

  lemma PollsOnce(s: State, w: nat)
    requires w < |s.pcs| && PollsLeft(s.pcs[w], |s.sh.queues|) > 0
    ensures Exec(s, OnePollMore(s.pcs[w], w)).sh.polls == s.sh.polls + 1
  {
    if s.pcs[w].Scan? {
      ExecFirst(s, Act(w, Issue), []);
      assert [Act(w, Issue)] + [] == [Act(w, Issue)];
    } else {
      var t := Step(s, Act(w, Fail));
      ExecFirst(s, Act(w, Fail), [Act(w, Issue)]);
      ExecFirst(t, Act(w, Issue), []);
      assert [Act(w, Issue)] + [] == [Act(w, Issue)];
    }
  }

  /** Nothing that can still happen changes the number of polls. */
  ghost predicate PollsFinal(s: State) {
    forall acts :: Exec(s, acts).sh.polls == s.sh.polls
  }

  /** The polls counted after a shutdown are final if and only if no worker is left with lists to poll in its pass. */
  lemma {:induction false} PollsAreFinalExactly(s: State)
    requires s.sh.shutdown && InRange(s)
    ensures PollsFinal(s) <==> Total(PollsLeftOf(|s.sh.queues|), s.pcs) == 0
  {
    var left := PollsLeftOf(|s.sh.queues|);
    TotalZero(left, s.pcs);
    if Total(left, s.pcs) == 0 {
      forall acts ensures Exec(s, acts).sh.polls == s.sh.polls {
        ExecRunsDown(s, acts);
        PollsGrow(s, acts);
      }
    } else {
      var w :| 0 <= w < |s.pcs| && left(s.pcs[w]) != 0;
      PollsOnce(s, w);
    }
  }

  /** Counters, channel and flags only ever grow. */
  lemma MoveGrows(s: Shared, pc: Pc, op: Op, condemned: bool)
    ensures var m := Move(s, pc, op, condemned);
            && m.sh.completed >= s.completed && m.sh.errors >= s.errors && s.sent <= m.sh.sent
            && (s.done ==> m.sh.done) && m.sh.shutdown == s.shutdown && m.sh.condemned == s.condemned
  {
  }

  lemma StepGrows(s: State, a: Action)
    ensures var t := Step(s, a);
            && t.sh.completed >= s.sh.completed && t.sh.errors >= s.sh.errors && s.sh.sent <= t.sh.sent
            && (s.sh.done ==> t.sh.done) && (s.sh.shutdown ==> t.sh.shutdown)
            && t.sh.target == s.sh.target && |t.pcs| == |s.pcs|
  {
    if a.Act? && a.worker < |s.pcs| {
      MoveGrows(s.sh, s.pcs[a.worker], a.op, a.worker in s.sh.condemned);
      assert Move(s.sh, s.pcs[a.worker], a.op, a.worker in s.sh.condemned).sh.target == s.sh.target;
    }
  }

  /** Once all workers are gone, the counters and the channel never change again. */
  lemma {:induction false} GoneIsFinal(s: State, acts: seq<Action>)
    requires AllGone(s)
    ensures var t := Exec(s, acts);
            && AllGone(t) && t.sh.completed == s.sh.completed && t.sh.errors == s.sh.errors
            && t.sh.polls == s.sh.polls && t.sh.sent == s.sh.sent && t.sh.done == s.sh.done
    decreases acts
  {
    if acts == [] {
    } else {
      GoneIsFinal(Step(s, acts[0]), acts[1..]);
    }
  }

  /** Until the shutdown nobody leaves, and nobody is told to. */
  ghost predicate Staffed(s: State) {
    !s.sh.shutdown ==> s.sh.condemned == {} && forall w :: 0 <= w < |s.pcs| ==> !Gone(s.pcs[w])
  }

  lemma MoveStays(s: Shared, pc: Pc, op: Op)
    requires !s.shutdown && !Gone(pc)
    ensures !Gone(Move(s, pc, op, false).pc)
  {
  }

  lemma StaffedStep(s: State, a: Action)
    requires Staffed(s)
    ensures Staffed(Step(s, a))
  {
    if a.Act? && a.worker < |s.pcs| {
      MoveGrows(s.sh, s.pcs[a.worker], a.op, a.worker in s.sh.condemned);
      if !s.sh.shutdown {
        MoveStays(s.sh, s.pcs[a.worker], a.op);
      }
    }
  }
}
