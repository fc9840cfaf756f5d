/**
  Drain termination: under every fair schedule an error-free fleet counts every job
  and raises `done`, within a bound that depends only on the number of jobs and lists.
  */
module FleetDrain {
  import opened Basics
  import opened Fleet
  import opened FleetLedger
  import opened FleetOrder

  /** One turn of a worker, with the clock reading it would take. */
  datatype Slot = Slot(worker: nat, nowNs: nat)

  /** What the worker at `pc` does next when nothing fails. */
  function NextOp(pc: Pc, keys: nat, nowNs: nat): Op {
    match pc
    case Top => CheckFlag
    case Scan(i) => if i < keys then Issue else EndPass
    case Waiting(_) => Serve
    case Served(_, _) => Deliver
    case Hit(_, _) => Record(nowNs)
    case Recorded(_) => Complete
    case Drew(_) => Signal
    case _ => Wake
  }

  function TurnAction(s: State, slot: Slot): Action {
    if slot.worker < |s.pcs|
    then Act(slot.worker, NextOp(s.pcs[slot.worker], |s.sh.queues|, slot.nowNs))
    else Act(slot.worker, Wake)
  }

  function Turn(s: State, slot: Slot): State {
    Step(s, TurnAction(s, slot))
  }

  function Turns(s: State, slots: seq<Slot>): State
    decreases slots
  {
    if slots == [] then s else Turns(Turn(s, slots[0]), slots[1..])
  }

  /** The run that a schedule produces. */
  function TurnActions(s: State, slots: seq<Slot>): seq<Action>
    decreases slots
  {
    if slots == [] then [] else [TurnAction(s, slots[0])] + TurnActions(Turn(s, slots[0]), slots[1..])
  }

  function Rounds(s: State, blocks: seq<seq<Slot>>): State
    decreases blocks
  {
    if blocks == [] then s else Rounds(Turns(s, blocks[0]), blocks[1..])
  }

  ghost predicate Takes(slots: seq<Slot>, w: nat) {
    exists i :: 0 <= i < |slots| && slots[i].worker == w
  }

  /** A stretch of a schedule in which every worker has at least one turn. */
  ghost predicate Covers(block: seq<Slot>, workers: nat) {
    forall w: nat :: w < workers ==> Takes(block, w)
  }

  lemma {:induction false} TurnsAreARun(s: State, slots: seq<Slot>)
    ensures Turns(s, slots) == Exec(s, TurnActions(s, slots)) && ErrorFree(TurnActions(s, slots))
    decreases slots
  {
    if slots == [] {
    } else {
      TurnsAreARun(Turn(s, slots[0]), slots[1..]);
      assert TurnActions(s, slots)[1..] == TurnActions(Turn(s, slots[0]), slots[1..]);
    }
  }

  // ---- The measure -------------------------------------------------------------

  /** Steps a job at this stage still needs. */
  function Stage(pc: Pc): nat {
    match pc
    case Served(_, reply) => if reply.Entry? then 4 else 0
    case Hit(_, _) => 3
    case Recorded(_) => 2
    case Drew(_) => 1
    case _ => 0
  }

  function Debt(s: State): nat {
    5 * |Flatten(s.sh.queues)| + Total(Stage, s.pcs)
  }

  /** Steps until a scanning worker has polled every list. */
  function Distance(pc: Pc, keys: nat): nat {
    match pc
    case Top => 3 * keys + 1
    case Scan(i) => if i <= keys then 3 * (keys - i) else 0
    case Waiting(i) => if i < keys then 3 * (keys - i) - 1 else 0
    case Served(i, _) => if i < keys then 3 * (keys - i) - 2 else 0
    case _ => 0
  }

  function Rank(s: State): nat
    requires |s.pcs| > 0
  {
    Debt(s) * (3 * |s.sh.queues| + 2) + Distance(s.pcs[0], |s.sh.queues|)
  }

  /** A fleet in an error-free drain that nobody has shut down. */
  ghost predicate Draining(s: State, all: seq<Job>) {
    && Ordered(s, all)
    && !s.sh.shutdown && s.sh.condemned == {} && s.sh.orphans == [] && s.sh.past.lost == []
    && forall w :: 0 <= w < |s.pcs| ==> !Gone(s.pcs[w])
  }

  lemma MoveAhead(s: Shared, pc: Pc, nowNs: nat)
    requires PcInRange(pc, |s.queues|, s.completed) && !s.shutdown && !Gone(pc)
    ensures var m := Move(s, pc, NextOp(pc, |s.queues|, nowNs), false);
            && !m.sh.shutdown && m.sh.condemned == s.condemned && !Gone(m.pc)
            && m.sh.orphans == s.orphans && m.sh.past.lost == s.past.lost
            && 5 * |Flatten(m.sh.queues)| + Stage(m.pc) <= 5 * |Flatten(s.queues)| + Stage(pc)
            && (Stage(pc) > 0 ==> 5 * |Flatten(m.sh.queues)| + Stage(m.pc) < 5 * |Flatten(s.queues)| + Stage(pc))
            && (5 * |Flatten(m.sh.queues)| + Stage(m.pc) == 5 * |Flatten(s.queues)| + Stage(pc) ==>
                  && m.sh.queues == s.queues
                  && (pc.Sleeping? || pc == Scan(|s.queues|) || Distance(m.pc, |s.queues|) < Distance(pc, |s.queues|)))
  {
    if pc.Waiting? {
      PopConserves(s, pc.key);
      if s.queues[pc.key] == [] {
        assert s.queues[pc.key := Rest(s.queues[pc.key])] == s.queues;
      }
    }
  }

  /** One turn: the debt never grows, and either it shrinks or the worker gets ahead in its scan. */
  lemma TurnAhead(s: State, slot: Slot, all: seq<Job>)
    requires Draining(s, all)
    ensures var t := Turn(s, slot); var w := slot.worker;
            && Draining(t, all)
            && |t.pcs| == |s.pcs| && |t.sh.queues| == |s.sh.queues|
            && Debt(t) <= Debt(s)
            && (w < |s.pcs| && Stage(s.pcs[w]) > 0 ==> Debt(t) < Debt(s))
            && (forall v :: 0 <= v < |s.pcs| && v != w ==> t.pcs[v] == s.pcs[v])
            && (Debt(t) == Debt(s) && Flatten(s.sh.queues) != [] ==>
                  && Flatten(t.sh.queues) == Flatten(s.sh.queues)
                  && (w < |s.pcs| ==> Distance(t.pcs[w], |s.sh.queues|) < Distance(s.pcs[w], |s.sh.queues|)))
  {
    var w := slot.worker;
    OrderedStep(s, TurnAction(s, slot), all);
    if w < |s.pcs| {
      MoveAhead(s.sh, s.pcs[w], slot.nowNs);
      var _ := TotalRest(Stage, s.pcs, w, Turn(s, slot).pcs[w]);
      FlattenEmpty(s.sh.queues);
    }
  }

  lemma {:induction false} TurnsAhead(s: State, slots: seq<Slot>, all: seq<Job>)
    requires Draining(s, all)
    ensures var t := Turns(s, slots);
            Draining(t, all) && |t.pcs| == |s.pcs| && |t.sh.queues| == |s.sh.queues| && Debt(t) <= Debt(s)
    decreases slots
  {
    if slots == [] {
    } else {
      TurnAhead(s, slots[0], all);
      TurnsAhead(Turn(s, slots[0]), slots[1..], all);
    }
  }

  lemma TakesTail(slots: seq<Slot>, w: nat)
    requires Takes(slots, w) && slots[0].worker != w
    ensures Takes(slots[1..], w)
  {
    var i :| 0 <= i < |slots| && slots[i].worker == w;
    assert slots[1..][i - 1].worker == w;
  }

  /** A worker with a job in its hands brings the debt down in its next turn. */
  lemma {:induction false} HolderPays(s: State, slots: seq<Slot>, w: nat, all: seq<Job>)
    requires Draining(s, all) && w < |s.pcs| && Stage(s.pcs[w]) > 0 && Takes(slots, w)
    ensures Debt(Turns(s, slots)) < Debt(s)
    decreases slots
  {
    TurnAhead(s, slots[0], all);
    if slots[0].worker == w {
      TurnsAhead(Turn(s, slots[0]), slots[1..], all);
    } else {
      TakesTail(slots, w);
      HolderPays(Turn(s, slots[0]), slots[1..], w, all);
    }
  }

  /** While jobs are queued, worker `w` gets closer to one in each of its turns. */
  lemma {:induction false} ScannerAdvances(s: State, slots: seq<Slot>, w: nat, all: seq<Job>)
    requires Draining(s, all) && w < |s.pcs| && Flatten(s.sh.queues) != []
    ensures var t := Turns(s, slots); var keys := |s.sh.queues|;
            && |t.pcs| == |s.pcs|
            && (Debt(t) == Debt(s) ==>
                  && Distance(t.pcs[w], keys) <= Distance(s.pcs[w], keys)
                  && (Takes(slots, w) ==> Distance(t.pcs[w], keys) < Distance(s.pcs[w], keys)))
    decreases slots
  {
    if slots == [] {
    } else {
      var s' := Turn(s, slots[0]);
      TurnAhead(s, slots[0], all);
      TurnsAhead(s', slots[1..], all);
      if Debt(s') == Debt(s) {
        ScannerAdvances(s', slots[1..], w, all);
        if Takes(slots, w) && slots[0].worker != w {
          TakesTail(slots, w);
        }
      }
    }
  }

  lemma RankGap(d': nat, d: nat, x': nat, x: nat, m: nat)
    requires (d' < d && x' < m) || (d' == d && x' < x)
    ensures d' * m + x' < d * m + x
  {
    if d' < d {
      MulGap(d', d, m);
    }
  }

  lemma BlockAdvances(s: State, block: seq<Slot>, all: seq<Job>)
    requires Draining(s, all) && |s.pcs| > 0 && Covers(block, |s.pcs|) && Debt(s) > 0
    ensures var t := Turns(s, block); var keys := |s.sh.queues|;
            && Draining(t, all) && |t.pcs| == |s.pcs| && |t.sh.queues| == keys
            && (Debt(t) < Debt(s) || (Debt(t) == Debt(s) && Distance(t.pcs[0], keys) < Distance(s.pcs[0], keys)))
  {
    TurnsAhead(s, block, all);
    TotalZero(Stage, s.pcs);
    if w: nat :| w < |s.pcs| && Stage(s.pcs[w]) > 0 {
      HolderPays(s, block, w, all);
    } else {
      ScannerAdvances(s, block, 0, all);
    }
  }

  /** Every fair block of turns brings the rank down until nothing is left to do. */
  lemma {:induction false} BlockProgress(s: State, block: seq<Slot>, all: seq<Job>)
    requires Draining(s, all) && |s.pcs| > 0 && Covers(block, |s.pcs|) && Debt(s) > 0
    ensures var t := Turns(s, block); Draining(t, all) && |t.pcs| == |s.pcs| && Rank(t) < Rank(s)
  {
    BlockAdvances(s, block, all);
    var t := Turns(s, block);
    var keys := |s.sh.queues|;
    RankGap(Debt(t), Debt(s), Distance(t.pcs[0], keys), Distance(s.pcs[0], keys), 3 * keys + 2);
  }

  lemma {:induction false} RoundsFinish(s: State, blocks: seq<seq<Slot>>, all: seq<Job>)
    requires Draining(s, all) && |s.pcs| > 0
    requires forall b :: 0 <= b < |blocks| ==> Covers(blocks[b], |s.pcs|)
    requires |blocks| >= Rank(s)
    ensures Draining(Rounds(s, blocks), all) && Debt(Rounds(s, blocks)) == 0
    decreases blocks
  {
    if Debt(s) == 0 {
      IdleRounds(s, blocks, all);
    } else {
      MulGap(0, Debt(s), 3 * |s.sh.queues| + 2);
      BlockProgress(s, blocks[0], all);
      RoundsFinish(Turns(s, blocks[0]), blocks[1..], all);
    }
  }

  lemma {:induction false} IdleRounds(s: State, blocks: seq<seq<Slot>>, all: seq<Job>)
    requires Draining(s, all)
    ensures Draining(Rounds(s, blocks), all) && Debt(Rounds(s, blocks)) <= Debt(s)
    decreases blocks
  {
    if blocks == [] {
    } else {
      TurnsAhead(s, blocks[0], all);
      IdleRounds(Turns(s, blocks[0]), blocks[1..], all);
    }
  }

  lemma {:induction false} RoundsAreARun(s: State, blocks: seq<seq<Slot>>) returns (acts: seq<Action>)
    ensures Rounds(s, blocks) == Exec(s, acts) && ErrorFree(acts)
    decreases blocks
  {
    if blocks == [] {
      acts := [];
    } else {
      TurnsAreARun(s, blocks[0]);
      var rest := RoundsAreARun(Turns(s, blocks[0]), blocks[1..]);
      ExecConcat(s, TurnActions(s, blocks[0]), rest);
      acts := TurnActions(s, blocks[0]) + rest;
    }
  }

  /**
    Every fair schedule reaches `done`. However the turns are interleaved, after
    5 n (3 N + 2) + 3 N + 1 stretches in each of which every worker had a turn, all n
    jobs are counted and the flag is up.
    */
  lemma EveryFairScheduleDrains(queues: seq<seq<Job>>, workers: nat, blocks: seq<seq<Slot>>)
    requires workers > 0 && Flatten(queues) != []
    requires forall b :: 0 <= b < |blocks| ==> Covers(blocks[b], workers)
    requires |blocks| >= 5 * |Flatten(queues)| * (3 * |queues| + 2) + 3 * |queues| + 1
    ensures var s := Rounds(Boot(queues, workers, Some(|Flatten(queues)|), []), blocks);
            s.sh.done && s.sh.completed == |Flatten(queues)| && EmptyBelow(s.sh.queues, |s.sh.queues|)
  {
    var n := |Flatten(queues)|;
    var s0 := Boot(queues, workers, Some(n), []);
    BootOrdered(queues, workers, Some(n), []);
    TotalZero(Stage, s0.pcs);
    RoundsFinish(s0, blocks, Flatten(queues));
    var acts := RoundsAreARun(s0, blocks);
    SettledFleetIsDone(queues, workers, acts);
  }

  /** A drain with nothing left to do has counted every job and said so. */
  lemma SettledFleetIsDone(queues: seq<seq<Job>>, workers: nat, acts: seq<Action>)
    requires Flatten(queues) != []
    requires var s := Exec(Boot(queues, workers, Some(|Flatten(queues)|), []), acts);
             Debt(s) == 0 && s.sh.past.lost == []
    ensures var s := Exec(Boot(queues, workers, Some(|Flatten(queues)|), []), acts);
            s.sh.done && s.sh.completed == |Flatten(queues)| && EmptyBelow(s.sh.queues, |s.sh.queues|)
  {
    var n := |Flatten(queues)|;
    var s0 := Boot(queues, workers, Some(n), []);
    var s := Exec(s0, acts);
    NoStageNothingHeld(s, n);
    BootLedger(queues, workers, Some(n), []);
    ExecLedger(s0, acts, n, 0);
    AllCounted(s, n, 0);
    ExecShape(s0, acts);
  }

  lemma NoStageNothingHeld(s: State, n: nat)
    requires Debt(s) == 0
    ensures Flatten(s.sh.queues) == []
    ensures Total(Riding, s.pcs) == Total(InHand, s.pcs) == Total(DrewExactly(n), s.pcs) == 0
  {
    TotalZero(Stage, s.pcs);
    TotalZero(Riding, s.pcs);
    TotalZero(InHand, s.pcs);
    TotalZero(DrewExactly(n), s.pcs);
  }
}
