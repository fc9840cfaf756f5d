/**
  The order in which a fleet empties the lists. A worker polls list `i` only after
  it has seen every list before `i` empty, and lists only shrink during a drain, so
  the whole fleet behaves like one consumer of the concatenated lists.
  */
module FleetOrder {
  import opened Basics
  import opened Fleet
  import opened FleetLedger

  /** How many leading lists this worker has seen empty in its current pass. */
  function Passed(pc: Pc, keys: nat): nat {
    match pc
    case Scan(i) => i
    case Waiting(i) => i
    case Served(i, reply) => if reply.Nil? then i + 1 else i
    case Sleeping => keys
    case _ => 0
  }

  ghost predicate OrphansOrdered(s: Shared) {
    forall k :: 0 <= k < |s.orphans| ==> EmptyBelow(s.queues, s.orphans[k])
  }

  /** Together the popped and the queued jobs are `all`, in order. */
  ghost predicate InOrder(s: Shared, all: seq<Job>) {
    s.past.popped + Flatten(s.queues) == all
  }

  ghost predicate Ordered(s: State, all: seq<Job>) {
    && InRange(s)
    && InOrder(s.sh, all)
    && OrphansOrdered(s.sh)
    && forall w :: 0 <= w < |s.pcs| ==> EmptyBelow(s.sh.queues, Passed(s.pcs[w], |s.sh.queues|))
  }

  /** A failing LPOP does no harm to the order if the list it polled is empty. */
  predicate HarmlessMove(s: Shared, pc: Pc, op: Op) {
    op == Fail && (pc.Waiting? || pc.Served?) && pc.key < |s.queues| ==> s.queues[pc.key] == []
  }

  predicate Harmless(s: State, a: Action) {
    a.Act? && a.worker < |s.pcs| ==> HarmlessMove(s.sh, s.pcs[a.worker], a.op)
  }

  predicate AllHarmless(s: State, acts: seq<Action>)
    decreases acts
  {
    acts != [] ==> Harmless(s, acts[0]) && AllHarmless(Step(s, acts[0]), acts[1..])
  }

  ghost predicate ErrorFree(acts: seq<Action>) {
    forall i :: 0 <= i < |acts| ==> !(acts[i].Act? && acts[i].op == Fail)
  }

  lemma {:induction false} ErrorFreeIsHarmless(s: State, acts: seq<Action>)
    requires ErrorFree(acts)
    ensures AllHarmless(s, acts)
    decreases acts
  {
    if acts == [] {
    } else {
      ErrorFreeIsHarmless(Step(s, acts[0]), acts[1..]);
    }
  }

  /** Lists that were empty stay empty. */
  ghost predicate Shrinks(q: seq<seq<Job>>, q': seq<seq<Job>>) {
    |q'| == |q| && forall k :: 0 <= k < |q| && q[k] == [] ==> q'[k] == []
  }

  lemma PopInOrder(s: Shared, k: nat, all: seq<Job>)
    requires k < |s.queues| && EmptyBelow(s.queues, k) && InOrder(s, all)
    ensures InOrder(Pop(s, k), all) && Shrinks(s.queues, Pop(s, k).queues)
    ensures s.queues[k] == [] ==> Pop(s, k).queues[k] == []
  {
    var q := s.queues[k];
    if q == [] {
      assert s.queues[k := Rest(q)] == s.queues;
      assert s.past.popped + JobsOf(AnswerOf(q)) == s.past.popped;
    } else {
      FlattenPopFirst(s.queues, k);
      assert s.past.popped + [q[0]] + Flatten(Pop(s, k).queues)
          == s.past.popped + ([q[0]] + Flatten(Pop(s, k).queues));
    }
  }

  /** What one move of a worker at `pc` may do to the order. */
  ghost predicate MoveKeepsOrder(s: Shared, pc: Pc, m: Moved, all: seq<Job>) {
    && InOrder(m.sh, all)
    && Shrinks(s.queues, m.sh.queues)
    && EmptyBelow(m.sh.queues, Passed(m.pc, |s.queues|))
    && (m.sh.orphans == s.orphans
        || (pc.Waiting? && m.sh.orphans == s.orphans + [pc.key] && m.sh.queues == s.queues))
  }

  lemma ServeInOrder(s: Shared, pc: Pc, op: Op, condemned: bool, all: seq<Job>)
    requires pc.Waiting? && pc.key < |s.queues| && InOrder(s, all)
    requires EmptyBelow(s.queues, pc.key) && HarmlessMove(s, pc, op)
    ensures MoveKeepsOrder(s, pc, Move(s, pc, op, condemned), all)
  {
    PopInOrder(s, pc.key, all);
  }

  lemma LocalInOrder(s: Shared, pc: Pc, op: Op, condemned: bool, all: seq<Job>)
    requires PcInRange(pc, |s.queues|, s.completed) && !pc.Waiting? && InOrder(s, all)
    requires EmptyBelow(s.queues, Passed(pc, |s.queues|)) && HarmlessMove(s, pc, op)
    ensures MoveKeepsOrder(s, pc, Move(s, pc, op, condemned), all)
  {
    LocalFrame(s, pc, op, condemned);
    LocalPassed(s, pc, op, condemned);
  }

  lemma LocalFrame(s: Shared, pc: Pc, op: Op, condemned: bool)
    requires !pc.Waiting?
    ensures var m := Move(s, pc, op, condemned);
            m.sh.queues == s.queues && m.sh.orphans == s.orphans && m.sh.past.popped == s.past.popped
  {
  }

  lemma LocalPassed(s: Shared, pc: Pc, op: Op, condemned: bool)
    requires PcInRange(pc, |s.queues|, s.completed) && !pc.Waiting?
    requires EmptyBelow(s.queues, Passed(pc, |s.queues|)) && HarmlessMove(s, pc, op)
    ensures EmptyBelow(s.queues, Passed(Move(s, pc, op, condemned).pc, |s.queues|))
  {
  }

  /** A failure at a non-empty list sends the worker past jobs it should have taken. */
  lemma HarmfulMove(s: Shared, pc: Pc, op: Op, condemned: bool)
    requires PcInRange(pc, |s.queues|, s.completed) && !HarmlessMove(s, pc, op)
    ensures var m := Move(s, pc, op, condemned);
            m.sh.queues == s.queues && !EmptyBelow(m.sh.queues, Passed(m.pc, |s.queues|))
  {
    assert s.queues[pc.key] != [];
  }

  /** The order invariant, with all that a scanning worker relies on, is kept by exactly the harmless steps. */
  lemma OrderedStep(s: State, a: Action, all: seq<Job>)
    requires Ordered(s, all)
    ensures Ordered(Step(s, a), all) <==> Harmless(s, a)
  {
    InRangeStep(s, a);
    match a
    case Act(w, op) =>
      if w < |s.pcs| {
        var condemned := w in s.sh.condemned;
        if !Harmless(s, a) {
          HarmfulMove(s.sh, s.pcs[w], op, condemned);
          assert Step(s, a).pcs[w] == Move(s.sh, s.pcs[w], op, condemned).pc;
        } else if s.pcs[w].Waiting? {
          ServeInOrder(s.sh, s.pcs[w], op, condemned, all);
        } else {
          LocalInOrder(s.sh, s.pcs[w], op, condemned, all);
        }
      }
    case ServeOrphan(k) =>
      if k < |s.sh.orphans| {
        PopInOrder(s.sh, s.sh.orphans[k], all);
      }
    case _ =>
  }

  lemma {:induction false} ExecOrdered(s: State, acts: seq<Action>, all: seq<Job>)
    requires Ordered(s, all) && AllHarmless(s, acts)
    ensures Ordered(Exec(s, acts), all)
    decreases acts
  {
    if acts == [] {
    } else {
      OrderedStep(s, acts[0], all);
      ExecOrdered(Step(s, acts[0]), acts[1..], all);
    }
  }

  lemma BootOrdered(queues: seq<seq<Job>>, workers: nat, target: Option<nat>, orphans: seq<nat>)
    requires OrphansInRange(Boot(queues, workers, target, orphans).sh)
    requires OrphansOrdered(Boot(queues, workers, target, orphans).sh)
    ensures Ordered(Boot(queues, workers, target, orphans), Flatten(queues))
  {
  }

  // ---- A backlog in one list only -------------------------------------------------------------

  /** No two lists hold jobs. */
  ghost predicate InOneList(queues: seq<seq<Job>>) {
    forall i, j :: 0 <= i < j < |queues| ==> queues[i] == [] || queues[j] == []
  }

  lemma PopOneList(s: Shared, k: nat, all: seq<Job>)
    requires k < |s.queues| && InOneList(s.queues) && InOrder(s, all)
    ensures InOneList(Pop(s, k).queues) && InOrder(Pop(s, k), all)
  {
    if s.queues[k] == [] {
      assert s.queues[k := Rest(s.queues[k])] == s.queues;
      assert s.past.popped + [] == s.past.popped;
    } else {
      assert forall i :: 0 <= i < k ==> s.queues[i] == [];
      PopInOrder(s, k, all);
    }
  }

  lemma MoveOneList(s: Shared, pc: Pc, op: Op, condemned: bool, all: seq<Job>)
    requires InOneList(s.queues) && InOrder(s, all)
    ensures var m := Move(s, pc, op, condemned); InOneList(m.sh.queues) && InOrder(m.sh, all)
  {
    if pc.Waiting? && pc.key < |s.queues| {
      PopOneList(s, pc.key, all);
    }
  }

  lemma {:induction false} ExecOneList(s: State, acts: seq<Action>, all: seq<Job>)
    requires InOneList(s.sh.queues) && InOrder(s.sh, all)
    ensures InOneList(Exec(s, acts).sh.queues) && InOrder(Exec(s, acts).sh, all)
    decreases acts
  {
    if acts == [] {
    } else {
      match acts[0] {
        case Act(w, op) =>
          if w < |s.pcs| { MoveOneList(s.sh, s.pcs[w], op, w in s.sh.condemned, all); }
        case ServeOrphan(k) =>
          if k < |s.sh.orphans| && s.sh.orphans[k] < |s.sh.queues| { PopOneList(s.sh, s.sh.orphans[k], all); }
        case _ =>
      }
      ExecOneList(Step(s, acts[0]), acts[1..], all);
    }
  }

  // ---- Whole runs -----------------------------------------------------------------------------

  /** What a run must not do to keep the order: fail at a list with jobs, or let a stray LPOP skip one. */
  ghost predicate KeepsOrder(queues: seq<seq<Job>>, workers: nat, target: Option<nat>, orphans: seq<nat>, acts: seq<Action>) {
    var s := Boot(queues, workers, target, orphans);
    InOneList(queues) || (OrphansInRange(s.sh) && OrphansOrdered(s.sh) && AllHarmless(s, acts))
  }

  /**
    Global drain order: for every number of workers and lists, every backlog and every
    interleaving, with aborts and shutdown at any time, the server hands out a prefix
    of list 0 followed by list 1 and so on - provided LPOPs fail only at empty lists, or
    the backlog is in a single list, whatever fails then.
    */
  lemma DrainIsGloballyOrdered(queues: seq<seq<Job>>, workers: nat, target: Option<nat>, orphans: seq<nat>, acts: seq<Action>)
    requires KeepsOrder(queues, workers, target, orphans, acts)
    ensures var s := Exec(Boot(queues, workers, target, orphans), acts);
            s.sh.past.popped + Flatten(s.sh.queues) == Flatten(queues)
  {
    var s0 := Boot(queues, workers, target, orphans);
    if InOneList(queues) {
      ExecOneList(s0, acts, Flatten(queues));
    } else {
      BootOrdered(queues, workers, target, orphans);
      ExecOrdered(s0, acts, Flatten(queues));
    }
  }

  /** Work conservation: nobody sleeps while any list holds a job, if LPOPs fail only at empty lists. */
  lemma NobodySleepsOnBacklog(queues: seq<seq<Job>>, workers: nat, target: Option<nat>, orphans: seq<nat>, acts: seq<Action>)
    requires var s := Boot(queues, workers, target, orphans);
             OrphansInRange(s.sh) && OrphansOrdered(s.sh) && AllHarmless(s, acts)
    ensures var s := Exec(Boot(queues, workers, target, orphans), acts);
            (exists w :: 0 <= w < |s.pcs| && s.pcs[w].Sleeping?) ==> EmptyBelow(s.sh.queues, |s.sh.queues|)
  {
    BootOrdered(queues, workers, target, orphans);
    ExecOrdered(Boot(queues, workers, target, orphans), acts, Flatten(queues));
  }

  // ---- When both hold in every run --------------------------------------------------------------

  /** Worker 0 scans list `i`, and so far nothing has been popped. */
  ghost predicate Skipping(s: State, queues: seq<seq<Job>>, i: nat) {
    s.pcs != [] && s.pcs[0] == Scan(i) && s.sh.queues == queues && s.sh.past.popped == []
  }

  /** A run of failing LPOPs that takes worker 0 past the first `i` lists. */
  lemma {:induction false} SkipLists(queues: seq<seq<Job>>, workers: nat, target: Option<nat>, orphans: seq<nat>, i: nat)
    returns (acts: seq<Action>)
    requires workers > 0 && i <= |queues|
    ensures Skipping(Exec(Boot(queues, workers, target, orphans), acts), queues, i)
  {
    var s0 := Boot(queues, workers, target, orphans);
    if i == 0 {
      acts := [Act(0, CheckFlag)];
    } else {
      var before := SkipLists(queues, workers, target, orphans, i - 1);
      SkipOne(Exec(s0, before), queues, i - 1);
      ExecConcat(s0, before, [Act(0, Issue)] + [Act(0, Fail)]);
      acts := before + ([Act(0, Issue)] + [Act(0, Fail)]);
    }
  }

  lemma SkipOne(s: State, queues: seq<seq<Job>>, i: nat)
    requires Skipping(s, queues, i) && i < |queues|
    ensures Skipping(Exec(s, [Act(0, Issue)] + [Act(0, Fail)]), queues, i + 1)
  {
    ExecFirst(s, Act(0, Issue), [Act(0, Fail)]);
  }

  lemma PopHere(s: State, queues: seq<seq<Job>>, i: nat)
    requires Skipping(s, queues, i) && i < |queues| && queues[i] != []
    ensures Exec(s, [Act(0, Issue)] + [Act(0, Serve)]).sh.past.popped == [queues[i][0]]
  {
    ExecFirst(s, Act(0, Issue), [Act(0, Serve)]);
  }

  /** Failing LPOPs can take any list's first job out before all others. */
  lemma {:induction false} PopAnyFirst(queues: seq<seq<Job>>, workers: nat, target: Option<nat>, orphans: seq<nat>, i: nat)
    returns (acts: seq<Action>)
    requires workers > 0 && i < |queues| && queues[i] != []
    ensures Exec(Boot(queues, workers, target, orphans), acts).sh.past.popped == [queues[i][0]]
  {
    var before := SkipLists(queues, workers, target, orphans, i);
    var s0 := Boot(queues, workers, target, orphans);
    PopHere(Exec(s0, before), queues, i);
    ExecConcat(s0, before, [Act(0, Issue)] + [Act(0, Serve)]);
    acts := before + ([Act(0, Issue)] + [Act(0, Serve)]);
  }

  /** With pairwise different jobs, only one list's first job comes first in the concatenation. */
  lemma {:induction false} FirstOfAll(queues: seq<seq<Job>>, i: nat, j: nat)
    requires Distinct(Flatten(queues)) && i < j < |queues| && queues[i] != [] && queues[j] != []
    ensures Flatten(queues) != [] && queues[j][0] != Flatten(queues)[0]
  {
    if queues[0] == [] {
      assert Flatten(queues) == Flatten(queues[1..]);
      FirstOfAll(queues[1..], i - 1, j - 1);
    } else {
      FirstIsIn(queues[1..], j - 1);
      var at :| 0 <= at < |Flatten(queues[1..])| && Flatten(queues[1..])[at] == queues[j][0];
      assert Flatten(queues)[|queues[0]| + at] == queues[j][0];
    }
  }

  lemma {:induction false} FirstIsIn(queues: seq<seq<Job>>, i: nat)
    requires i < |queues| && queues[i] != []
    ensures exists at :: 0 <= at < |Flatten(queues)| && Flatten(queues)[at] == queues[i][0]
  {
    if i == 0 {
      assert Flatten(queues)[0] == queues[0][0];
    } else {
      FirstIsIn(queues[1..], i - 1);
      var at :| 0 <= at < |Flatten(queues[1..])| && Flatten(queues[1..])[at] == queues[i][0];
      assert Flatten(queues)[|queues[0]| + at] == queues[i][0];
    }
  }

  ghost predicate AlwaysOrdered(queues: seq<seq<Job>>, workers: nat, target: Option<nat>, orphans: seq<nat>) {
    forall acts :: Exec(Boot(queues, workers, target, orphans), acts).sh.past.popped <= Flatten(queues)
  }

  /**
    Which backlogs are drained in order whatever fails: of pairwise different jobs, every run,
    with LPOP errors, aborts and stray LPOPs, hands out a prefix of the concatenated lists
    if and only if at most one list holds jobs.
    */
  lemma OrderedWhateverFails(queues: seq<seq<Job>>, workers: nat, target: Option<nat>, orphans: seq<nat>)
    requires workers > 0 && Distinct(Flatten(queues))
    ensures AlwaysOrdered(queues, workers, target, orphans) <==> InOneList(queues)
  {
    if InOneList(queues) {
      forall acts ensures Exec(Boot(queues, workers, target, orphans), acts).sh.past.popped <= Flatten(queues) {
        DrainIsGloballyOrdered(queues, workers, target, orphans, acts);
      }
    } else {
      AnLpopErrorBreaksTheOrder(queues, workers, target, orphans);
    }
  }

  /** Two lists with jobs are enough: some run pops from the wrong one first. */
  lemma {:induction false} AnLpopErrorBreaksTheOrder(queues: seq<seq<Job>>, workers: nat, target: Option<nat>, orphans: seq<nat>)
    requires workers > 0 && Distinct(Flatten(queues)) && !InOneList(queues)
    ensures exists acts :: !(Exec(Boot(queues, workers, target, orphans), acts).sh.past.popped <= Flatten(queues))
  {
    var i, j :| 0 <= i < j < |queues| && queues[i] != [] && queues[j] != [];
    FirstOfAll(queues, i, j);
    var acts := PopAnyFirst(queues, workers, target, orphans, j);
    assert !(Exec(Boot(queues, workers, target, orphans), acts).sh.past.popped <= Flatten(queues));
  }

  /** A worker sleeps while a list holds jobs. */
  ghost predicate SleepsOnBacklog(s: State) {
    Flatten(s.sh.queues) != [] && exists w :: 0 <= w < |s.pcs| && s.pcs[w].Sleeping?
  }

  ghost predicate NeverSleepsOnBacklog(queues: seq<seq<Job>>, workers: nat, target: Option<nat>, orphans: seq<nat>) {
    forall acts :: !SleepsOnBacklog(Exec(Boot(queues, workers, target, orphans), acts))
  }

  /** Whatever the backlog, failing LPOPs alone let a worker sleep on it: only an empty one is safe in every run. */
  lemma {:induction false} AnLpopErrorSleepsOnBacklog(queues: seq<seq<Job>>, workers: nat, target: Option<nat>, orphans: seq<nat>)
    requires workers > 0
    ensures NeverSleepsOnBacklog(queues, workers, target, orphans) <==> Flatten(queues) == []
  {
    var s0 := Boot(queues, workers, target, orphans);
    if Flatten(queues) == [] {
      FlattenEmpty(queues);
      forall acts ensures !SleepsOnBacklog(Exec(s0, acts)) {
        ExecOneList(s0, acts, Flatten(queues));
      }
    } else {
      var before := SkipLists(queues, workers, target, orphans, |queues|);
      ExecConcat(s0, before, [Act(0, EndPass)]);
      FallAsleep(Exec(s0, before), queues);
      assert SleepsOnBacklog(Exec(s0, before + [Act(0, EndPass)]));
    }
  }

  lemma {:induction false} FallAsleep(s: State, queues: seq<seq<Job>>)
    requires Skipping(s, queues, |queues|) && Flatten(queues) != []
    ensures SleepsOnBacklog(Exec(s, [Act(0, EndPass)]))
  {
    var t := Step(s, Act(0, EndPass));
    assert t.pcs[0] == Sleeping;
  }

  // ---- Failed LPOPs can lose jobs ------------------------------------------------------------------

  /** Worker 0 waits for the answer of list 0, and nothing is lost. */
  ghost predicate Asking(s: State, queues: seq<seq<Job>>) {
    s.pcs != [] && s.pcs[0] == Waiting(0) && s.sh.queues == queues && s.sh.orphans == [] && s.sh.past.lost == []
  }

  lemma {:induction false} AskFirst(queues: seq<seq<Job>>, workers: nat, target: Option<nat>)
    requires workers > 0 && queues != []
    ensures Asking(Exec(Boot(queues, workers, target, []), [Act(0, CheckFlag)] + [Act(0, Issue)]), queues)
  {
    var s0 := Boot(queues, workers, target, []);
    ExecFirst(s0, Act(0, CheckFlag), [Act(0, Issue)]);
    ExecFirst(Step(s0, Act(0, CheckFlag)), Act(0, Issue), []);
    assert [Act(0, Issue)] + [] == [Act(0, Issue)];
  }

  /** The job lost and the error counted. */
  ghost predicate Lost(s: State, queues: seq<seq<Job>>)
    requires queues != [] && queues[0] != []
  {
    s.sh.past.lost == [queues[0][0]] && s.sh.queues == queues[0 := queues[0][1..]] && s.pcs != [] && s.pcs[0] == Scan(1)
  }

  lemma {:induction false} TwoSteps(s: State, a: Action, b: Action)
    ensures Exec(s, [a] + [b]) == Step(Step(s, a), b)
  {
    ExecFirst(s, a, [b]);
    ExecFirst(Step(s, a), b, []);
    assert [b] + [] == [b];
  }

  lemma LostReply(s: State, queues: seq<seq<Job>>)
    requires Asking(s, queues) && queues != [] && queues[0] != []
    ensures Lost(Step(Step(s, Act(0, Serve)), Act(0, Fail)), queues)
  {
    assert Step(s, Act(0, Serve)).pcs[0] == Served(0, Entry(queues[0][0]));
  }

  lemma LateLpop(s: State, queues: seq<seq<Job>>)
    requires Asking(s, queues) && queues != [] && queues[0] != []
    ensures Lost(Step(Step(s, Act(0, Fail)), ServeOrphan(0)), queues)
  {
    assert Step(s, Act(0, Fail)).sh.orphans == [0];
  }

  /**
    A failed LPOP can cost a job of any backlog: if the reply does not arrive, and if the
    server executes the LPOP after its worker has given it up.
    */
  lemma {:induction false} AnLpopErrorCanLoseAJob(queues: seq<seq<Job>>, workers: nat, target: Option<nat>)
    requires workers > 0 && queues != [] && queues[0] != []
    ensures var s := Exec(Boot(queues, workers, target, []), [Act(0, CheckFlag)] + [Act(0, Issue)]);
            && Lost(Exec(s, [Act(0, Serve)] + [Act(0, Fail)]), queues)
            && Lost(Exec(s, [Act(0, Fail)] + [ServeOrphan(0)]), queues)
  {
    var s := Exec(Boot(queues, workers, target, []), [Act(0, CheckFlag)] + [Act(0, Issue)]);
    AskFirst(queues, workers, target);
    TwoSteps(s, Act(0, Serve), Act(0, Fail));
    TwoSteps(s, Act(0, Fail), ServeOrphan(0));
    LostReply(s, queues);
    LateLpop(s, queues);
  }
}
