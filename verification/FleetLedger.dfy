/**
  What every step of the fleet keeps, whatever fails and whoever is aborted:
  the counters balance, no job is duplicated or forgotten, and the `done` flag
  means what `main` takes it to mean.
  */
module FleetLedger {
  import opened Basics
  import opened Fleet

  // ---- What a worker contributes, by program counter -------------------------

  /** Polls made so far in a pass that has neither hit nor missed yet. */
  function PassPolls(pc: Pc): nat {
    match pc
    case Scan(i) => i
    case Waiting(i) => i + 1
    case Served(i, _) => i + 1
    case Aborted(k) => k
    case _ => 0
  }

  /** 1 for a poll whose reply the worker has not received (or, aborted, never will). */
  function Unanswered(pc: Pc): nat {
    match pc
    case Waiting(_) => 1
    case Served(_, _) => 1
    case Aborted(k) => if k > 0 then 1 else 0
    case _ => 0
  }

  /** 1 for a job in a reply still on its way. */
  function Riding(pc: Pc): nat { if pc.Served? && pc.reply.Entry? then 1 else 0 }

  /** 1 for a job received and not yet counted. */
  function InHand(pc: Pc): nat { if pc.Hit? || pc.Recorded? then 1 else 0 }

  function RecordedOnly(pc: Pc): nat { if pc.Recorded? then 1 else 0 }

  function WasAborted(pc: Pc): nat { if pc.Aborted? then 1 else 0 }

  /** The same two, for one particular job. */
  function RidesOne(pc: Pc, j: Job): nat { if pc.Served? && pc.reply == Entry(j) then 1 else 0 }

  function HoldsOne(pc: Pc, j: Job): nat { if (pc.Hit? || pc.Recorded?) && pc.job == j then 1 else 0 }

  function Rides(j: Job): Pc -> nat { (pc: Pc) => RidesOne(pc, j) }

  function Holds(j: Job): Pc -> nat { (pc: Pc) => HoldsOne(pc, j) }

  function DrewExactly(target: nat): Pc -> nat {
    (pc: Pc) => if pc == Drew(target) then 1 else 0
  }

  function Cost(key: nat): nat { key + 1 }

  /** The polls of so many full passes. */
  function PassesCost(keys: nat, passes: nat): nat {
    if passes == 0 then 0 else PassesCost(keys, passes - 1) + keys
  }

  lemma {:induction false} PassesCostIsProduct(keys: nat, passes: nat)
    ensures PassesCost(keys, passes) == keys * passes
  {
    if passes == 0 {
    } else {
      PassesCostIsProduct(keys, passes - 1);
      assert keys * passes == keys * (passes - 1) + keys;
    }
  }

  // ---- Sums over the fleet, one worker singled out ---------------------------

  datatype Sums = Sums(passPolls: nat, unanswered: nat, riding: nat, inHand: nat, recorded: nat, aborted: nat)

  function SumsOf(pcs: seq<Pc>): Sums {
    Sums(Total(PassPolls, pcs), Total(Unanswered, pcs), Total(Riding, pcs),
         Total(InHand, pcs), Total(RecordedOnly, pcs), Total(WasAborted, pcs))
  }

  function With(rest: Sums, pc: Pc): Sums {
    Sums(rest.passPolls + PassPolls(pc), rest.unanswered + Unanswered(pc), rest.riding + Riding(pc),
         rest.inHand + InHand(pc), rest.recorded + RecordedOnly(pc), rest.aborted + WasAborted(pc))
  }

  lemma TotalRest<T>(f: T -> nat, xs: seq<T>, i: nat, x: T) returns (rest: nat)
    requires i < |xs|
    ensures Total(f, xs) == rest + f(xs[i]) && Total(f, xs[i := x]) == rest + f(x)
  {
    TotalUpdate(f, xs, i, x);
    TotalMember(f, xs, i);
    rest := Total(f, xs) - f(xs[i]);
  }

  lemma SumsRest(pcs: seq<Pc>, w: nat, pc: Pc) returns (rest: Sums)
    requires w < |pcs|
    ensures SumsOf(pcs) == With(rest, pcs[w]) && SumsOf(pcs[w := pc]) == With(rest, pc)
  {
    var a := TotalRest(PassPolls, pcs, w, pc);
    var b := TotalRest(Unanswered, pcs, w, pc);
    var c := TotalRest(Riding, pcs, w, pc);
    var d := TotalRest(InHand, pcs, w, pc);
    var e := TotalRest(RecordedOnly, pcs, w, pc);
    var f := TotalRest(WasAborted, pcs, w, pc);
    rest := Sums(a, b, c, d, e, f);
  }

  // ---- The invariant ---------------------------------------------------------

  predicate PcInRange(pc: Pc, keys: nat, completed: nat) {
    match pc
    case Scan(i) => i <= keys
    case Waiting(i) => i < keys
    case Served(i, _) => i < keys
    case Hit(i, _) => i < keys
    case Drew(value) => value <= completed
    case Aborted(k) => k <= keys
    case _ => true
  }

  ghost predicate OrphansInRange(s: Shared) {
    forall k :: 0 <= k < |s.orphans| ==> s.orphans[k] < |s.queues|
  }

  ghost predicate InRange(s: State) {
    && (forall w :: 0 <= w < |s.pcs| ==> PcInRange(s.pcs[w], |s.sh.queues|, s.sh.completed))
    && OrphansInRange(s.sh)
  }

  /** Every poll is accounted for twice: by its pass and by its answer. */
  ghost predicate PollsBalance(s: Shared, t: Sums) {
    && s.polls == Total(Cost, s.past.hits) + PassesCost(|s.queues|, s.past.missedPasses) + t.passPolls
    && s.polls == |s.past.hits| + s.past.misses + s.past.lpopErrors + t.unanswered
  }

  /** Completions, errors and latencies against what happened. */
  ghost predicate CountsBalance(s: Shared, t: Sums) {
    && s.errors == s.past.lpopErrors + s.past.badPayloads
    && |s.past.hits| == s.completed + t.inHand
    && |s.sent| + s.past.badPayloads == s.completed + t.recorded
    && |s.past.counted| == s.completed
  }

  /** Jobs are conserved, and lost only to failed LPOPs and aborts. */
  ghost predicate JobsBalance(s: Shared, t: Sums, pushed: nat, strays: nat) {
    && pushed == |Flatten(s.queues)| + t.riding + t.inHand + s.completed + |s.past.lost|
    && |s.past.lost| + |s.orphans| <= strays + s.past.lpopErrors + t.aborted
  }

  /** Copies of job `j`, wherever it may be. */
  function Copies(s: Shared, j: Job, rides: nat, holds: nat): nat {
    multiset(Flatten(s.queues))[j] + rides + holds + multiset(s.past.counted)[j] + multiset(s.past.lost)[j]
  }

  function CopiesIn(s: State, j: Job): nat {
    Copies(s.sh, j, Total(Rides(j), s.pcs), Total(Holds(j), s.pcs))
  }

  /** The completion number equal to the target is drawn once, and its drawer raises the flag. */
  ghost predicate Announced(s: State, n: nat) {
    s.sh.target == Some(n) ==>
      (if s.sh.done then 1 else 0) + Total(DrewExactly(n), s.pcs) == (if s.sh.completed == n then 1 else 0)
  }

  // ---- Each part is kept by every step of one worker ---------------------------

  lemma MoveInRange(s: Shared, pc: Pc, op: Op, condemned: bool)
    requires PcInRange(pc, |s.queues|, s.completed) && OrphansInRange(s)
    ensures var m := Move(s, pc, op, condemned);
            && |m.sh.queues| == |s.queues| && m.sh.completed >= s.completed && m.sh.target == s.target
            && PcInRange(m.pc, |s.queues|, m.sh.completed)
            && OrphansInRange(m.sh)
  {
  }

  lemma MovePolls(s: Shared, pc: Pc, op: Op, condemned: bool, rest: Sums)
    requires PcInRange(pc, |s.queues|, s.completed)
    requires PollsBalance(s, With(rest, pc))
    ensures var m := Move(s, pc, op, condemned); PollsBalance(m.sh, With(rest, m.pc))
  {
    if pc.Served? {
      ReplyPolls(s, pc, op, condemned, rest);
    } else if pc.Scan? || pc.Waiting? {
      ScanPolls(s, pc, op, condemned, rest);
    } else {
      RestPolls(s, pc, op, condemned, rest);
    }
  }

  lemma ScanPolls(s: Shared, pc: Pc, op: Op, condemned: bool, rest: Sums)
    requires (pc.Scan? || pc.Waiting?) && PcInRange(pc, |s.queues|, s.completed) && PollsBalance(s, With(rest, pc))
    ensures var m := Move(s, pc, op, condemned); PollsBalance(m.sh, With(rest, m.pc))
  {
  }

  lemma RestPolls(s: Shared, pc: Pc, op: Op, condemned: bool, rest: Sums)
    requires !pc.Scan? && !pc.Waiting? && !pc.Served? && PollsBalance(s, With(rest, pc))
    ensures var m := Move(s, pc, op, condemned); PollsBalance(m.sh, With(rest, m.pc))
  {
  }

  lemma ReplyPolls(s: Shared, pc: Pc, op: Op, condemned: bool, rest: Sums)
    requires pc.Served? && PollsBalance(s, With(rest, pc))
    ensures var m := Move(s, pc, op, condemned); PollsBalance(m.sh, With(rest, m.pc))
  {
    TotalAppend(Cost, s.past.hits, pc.key);
  }

  lemma MoveCounts(s: Shared, pc: Pc, op: Op, condemned: bool, rest: Sums)
    requires CountsBalance(s, With(rest, pc))
    ensures var m := Move(s, pc, op, condemned); CountsBalance(m.sh, With(rest, m.pc))
  {
  }

  lemma PopConserves(s: Shared, k: nat)
    requires k < |s.queues|
    ensures multiset(Flatten(s.queues))
         == multiset(Flatten(Pop(s, k).queues)) + multiset(JobsOf(AnswerOf(s.queues[k])))
    ensures |Flatten(s.queues)| == |Flatten(Pop(s, k).queues)| + |JobsOf(AnswerOf(s.queues[k]))|
  {
    var q := s.queues[k];
    if q == [] {
      assert s.queues[k := Rest(q)] == s.queues;
    } else {
      FlattenPop(s.queues, k);
      assert |multiset(Flatten(s.queues))| == |multiset(Flatten(Pop(s, k).queues))| + 1;
    }
  }

  lemma MoveJobs(s: Shared, pc: Pc, op: Op, condemned: bool, rest: Sums, pushed: nat, strays: nat)
    requires PcInRange(pc, |s.queues|, s.completed)
    requires JobsBalance(s, With(rest, pc), pushed, strays)
    ensures var m := Move(s, pc, op, condemned); JobsBalance(m.sh, With(rest, m.pc), pushed, strays)
  {
    if pc.Waiting? {
      PolledJobs(s, pc, op, condemned, rest, pushed, strays);
    }
  }

  lemma PolledJobs(s: Shared, pc: Pc, op: Op, condemned: bool, rest: Sums, pushed: nat, strays: nat)
    requires pc.Waiting? && pc.key < |s.queues|
    requires JobsBalance(s, With(rest, pc), pushed, strays)
    ensures var m := Move(s, pc, op, condemned); JobsBalance(m.sh, With(rest, m.pc), pushed, strays)
  {
    PopConserves(s, pc.key);
  }

  function Same(reply: Reply, j: Job): nat { if reply == Entry(j) then 1 else 0 }

  lemma PopCopies(s: Shared, k: nat, j: Job)
    requires k < |s.queues|
    ensures multiset(Flatten(s.queues))[j]
         == multiset(Flatten(Pop(s, k).queues))[j] + Same(AnswerOf(s.queues[k]), j)
  {
    PopConserves(s, k);
  }

  lemma LoseCopies(s: Shared, reply: Reply, j: Job)
    ensures multiset(Lose(s, reply).past.lost)[j] == multiset(s.past.lost)[j] + Same(reply, j)
  {
  }

  /** Copies of `j` before and after one move; the rest of the fleet rides `rides` and holds `holds`. */
  ghost predicate MoveKeepsCopies(s: Shared, pc: Pc, m: Moved, j: Job, rides: nat, holds: nat) {
    Copies(m.sh, j, rides + RidesOne(m.pc, j), holds + HoldsOne(m.pc, j))
    == Copies(s, j, rides + RidesOne(pc, j), holds + HoldsOne(pc, j))
  }

  lemma ServeCopies(s: Shared, pc: Pc, op: Op, condemned: bool, j: Job, rides: nat, holds: nat)
    requires pc.Waiting? && pc.key < |s.queues|
    ensures MoveKeepsCopies(s, pc, Move(s, pc, op, condemned), j, rides, holds)
  {
    PopCopies(s, pc.key, j);
  }

  lemma DeliverCopies(s: Shared, pc: Pc, op: Op, condemned: bool, j: Job, rides: nat, holds: nat)
    requires pc.Served? && op != Fail && op != Abort
    ensures MoveKeepsCopies(s, pc, Move(s, pc, op, condemned), j, rides, holds)
  {
  }

  lemma LostCopies(s: Shared, pc: Pc, op: Op, condemned: bool, j: Job, rides: nat, holds: nat)
    requires pc.Served? && (op == Fail || op == Abort)
    ensures MoveKeepsCopies(s, pc, Move(s, pc, op, condemned), j, rides, holds)
  {
    LoseCopies(if op == Fail then CountLpopError(s) else s, pc.reply, j);
  }

  lemma CountCopies(s: Shared, pc: Pc, op: Op, condemned: bool, j: Job, rides: nat, holds: nat)
    requires pc.Recorded?
    ensures MoveKeepsCopies(s, pc, Move(s, pc, op, condemned), j, rides, holds)
  {
  }

  /** Everywhere else the lists, the counted and the lost jobs stay as they are. */
  lemma LocalCopies(s: Shared, pc: Pc, op: Op, condemned: bool, j: Job, rides: nat, holds: nat)
    requires !pc.Waiting? && !pc.Served? && !pc.Recorded?
    ensures MoveKeepsCopies(s, pc, Move(s, pc, op, condemned), j, rides, holds)
  {
    LocalMove(s, pc, op, condemned);
    var m := Move(s, pc, op, condemned);
    assert RidesOne(m.pc, j) == RidesOne(pc, j) && HoldsOne(m.pc, j) == HoldsOne(pc, j);
  }

  lemma LocalMove(s: Shared, pc: Pc, op: Op, condemned: bool)
    requires !pc.Waiting? && !pc.Served? && !pc.Recorded?
    ensures var m := Move(s, pc, op, condemned);
            m.sh.queues == s.queues && m.sh.past.counted == s.past.counted && m.sh.past.lost == s.past.lost
  {
  }

  // ---- ... and by every step of the fleet ---------------------------------------

  ghost predicate Ledger(s: State, pushed: nat, strays: nat) {
    && InRange(s)
    && PollsBalance(s.sh, SumsOf(s.pcs))
    && CountsBalance(s.sh, SumsOf(s.pcs))
    && JobsBalance(s.sh, SumsOf(s.pcs), pushed, strays)
    && (pushed > 0 ==> Announced(s, pushed))
  }

  lemma InRangeStep(s: State, a: Action)
    requires InRange(s)
    ensures InRange(Step(s, a))
  {
    if a.Act? && a.worker < |s.pcs| {
      MoveInRange(s.sh, s.pcs[a.worker], a.op, a.worker in s.sh.condemned);
    }
  }

  lemma EnvironmentSums(s: Shared, a: Action, t: Sums, pushed: nat, strays: nat)
    requires OrphansInRange(s) && PollsBalance(s, t) && CountsBalance(s, t) && JobsBalance(s, t, pushed, strays)
    ensures var s' := Environment(s, a);
            PollsBalance(s', t) && CountsBalance(s', t) && JobsBalance(s', t, pushed, strays)
  {
    if a.ServeOrphan? && a.index < |s.orphans| {
      PopConserves(s, s.orphans[a.index]);
    }
  }

  lemma SumsStep(s: State, a: Action, pushed: nat, strays: nat)
    requires Ledger(s, pushed, strays)
    ensures var s' := Step(s, a); var t := SumsOf(s'.pcs);
            PollsBalance(s'.sh, t) && CountsBalance(s'.sh, t) && JobsBalance(s'.sh, t, pushed, strays)
  {
    match a
    case Act(w, op) =>
      if w < |s.pcs| {
        var condemned := w in s.sh.condemned;
        var rest := SumsRest(s.pcs, w, Step(s, a).pcs[w]);
        MovePolls(s.sh, s.pcs[w], op, condemned, rest);
        MoveCounts(s.sh, s.pcs[w], op, condemned, rest);
        MoveJobs(s.sh, s.pcs[w], op, condemned, rest, pushed, strays);
      }
    case _ => EnvironmentSums(s.sh, a, SumsOf(s.pcs), pushed, strays);
  }

  lemma MoveCopies(s: Shared, pc: Pc, op: Op, condemned: bool, j: Job, rides: nat, holds: nat)
    requires PcInRange(pc, |s.queues|, s.completed)
    ensures MoveKeepsCopies(s, pc, Move(s, pc, op, condemned), j, rides, holds)
  {
    if pc.Waiting? {
      ServeCopies(s, pc, op, condemned, j, rides, holds);
    } else if pc.Recorded? {
      CountCopies(s, pc, op, condemned, j, rides, holds);
    } else if !pc.Served? {
      LocalCopies(s, pc, op, condemned, j, rides, holds);
    } else if op == Fail || op == Abort {
      LostCopies(s, pc, op, condemned, j, rides, holds);
    } else {
      DeliverCopies(s, pc, op, condemned, j, rides, holds);
    }
  }

  lemma EnvironmentCopies(s: Shared, a: Action, j: Job, rides: nat, holds: nat)
    requires OrphansInRange(s)
    ensures Copies(Environment(s, a), j, rides, holds) == Copies(s, j, rides, holds)
  {
    if a.ServeOrphan? && a.index < |s.orphans| {
      var key := s.orphans[a.index];
      PopCopies(s, key, j);
      LoseCopies(Pop(s, key), AnswerOf(s.queues[key]), j);
    }
  }

  lemma CopiesStep(s: State, a: Action, j: Job)
    requires InRange(s)
    ensures CopiesIn(Step(s, a), j) == CopiesIn(s, j)
  {
    if !a.Act? {
      EnvironmentCopies(s.sh, a, j, Total(Rides(j), s.pcs), Total(Holds(j), s.pcs));
    } else if a.worker < |s.pcs| {
      var w, condemned := a.worker, a.worker in s.sh.condemned;
      var m := Move(s.sh, s.pcs[w], a.op, condemned);
      var rides := TotalRest(Rides(j), s.pcs, w, m.pc);
      var holds := TotalRest(Holds(j), s.pcs, w, m.pc);
      MoveCopies(s.sh, s.pcs[w], a.op, condemned, j, rides, holds);
    }
  }

  lemma {:induction false} RecordedHoldsJobs(pcs: seq<Pc>)
    ensures Total(RecordedOnly, pcs) <= Total(InHand, pcs)
  {
    if pcs == [] {
    } else {
      RecordedHoldsJobs(pcs[1..]);
    }
  }

  /** Once all pushed jobs are counted, nobody holds one, none is queued and none was lost. */
  lemma AllCounted(s: State, pushed: nat, strays: nat)
    requires JobsBalance(s.sh, SumsOf(s.pcs), pushed, strays) && s.sh.completed >= pushed
    ensures s.sh.completed == pushed && s.sh.past.lost == [] && EmptyBelow(s.sh.queues, |s.sh.queues|)
    ensures forall w :: 0 <= w < |s.pcs| ==> Riding(s.pcs[w]) == InHand(s.pcs[w]) == 0
  {
    TotalZero(Riding, s.pcs);
    TotalZero(InHand, s.pcs);
    FlattenEmpty(s.sh.queues);
  }

  lemma MoveDraw(s: Shared, pc: Pc, op: Op, condemned: bool, n: nat, rest: nat)
    requires s.target == Some(n) && n > 0 && PcInRange(pc, |s.queues|, s.completed)
    requires s.completed <= n && (s.completed == n ==> InHand(pc) == 0)
    requires (if s.done then 1 else 0) + rest + DrewExactly(n)(pc) == (if s.completed == n then 1 else 0)
    ensures var m := Move(s, pc, op, condemned);
            (if m.sh.done then 1 else 0) + rest + DrewExactly(n)(m.pc) == (if m.sh.completed == n then 1 else 0)
  {
  }

  lemma AnnouncedMove(s: State, w: nat, op: Op, n: nat)
    requires InRange(s) && w < |s.pcs| && n > 0 && Announced(s, n) && s.sh.target == Some(n)
    requires s.sh.completed <= n && (s.sh.completed == n ==> InHand(s.pcs[w]) == 0)
    ensures Announced(Step(s, Act(w, op)), n)
  {
    var m := Move(s.sh, s.pcs[w], op, w in s.sh.condemned);
    var rest := TotalRest(DrewExactly(n), s.pcs, w, m.pc);
    MoveDraw(s.sh, s.pcs[w], op, w in s.sh.condemned, n, rest);
  }

  lemma CountedAtMost(s: State, w: nat, pushed: nat, strays: nat)
    requires JobsBalance(s.sh, SumsOf(s.pcs), pushed, strays) && w < |s.pcs|
    ensures s.sh.completed <= pushed && (s.sh.completed == pushed ==> InHand(s.pcs[w]) == 0)
  {
    TotalMember(InHand, s.pcs, w);
  }

  lemma AnnouncedElsewhere(s: State, a: Action, n: nat)
    requires Announced(s, n) && (a.Act? ==> a.worker >= |s.pcs|)
    ensures Announced(Step(s, a), n)
  {
  }

  lemma AnnouncedStep(s: State, a: Action, pushed: nat, strays: nat)
    requires InRange(s) && JobsBalance(s.sh, SumsOf(s.pcs), pushed, strays) && Announced(s, pushed) && pushed > 0
    ensures Announced(Step(s, a), pushed)
  {
    if !a.Act? || a.worker >= |s.pcs| {
      AnnouncedElsewhere(s, a, pushed);
    } else if s.sh.target == Some(pushed) {
      CountedAtMost(s, a.worker, pushed, strays);
      AnnouncedMove(s, a.worker, a.op, pushed);
    } else {
      StepShape(s, a);
    }
  }

  lemma LedgerStep(s: State, a: Action, pushed: nat, strays: nat)
    requires Ledger(s, pushed, strays)
    ensures Ledger(Step(s, a), pushed, strays)
  {
    InRangeStep(s, a);
    SumsStep(s, a, pushed, strays);
    if pushed > 0 {
      AnnouncedStep(s, a, pushed, strays);
    }
  }

  // ---- Whole runs ------------------------------------------------------------

  lemma {:induction false} BootLedger(queues: seq<seq<Job>>, workers: nat, target: Option<nat>, orphans: seq<nat>)
    requires forall k :: 0 <= k < |orphans| ==> orphans[k] < |queues|
    ensures Ledger(Boot(queues, workers, target, orphans), |Flatten(queues)|, |orphans|)
    ensures forall j :: CopiesIn(Boot(queues, workers, target, orphans), j) == multiset(Flatten(queues))[j]
  {
    var s := Boot(queues, workers, target, orphans);
    TotalZero(PassPolls, s.pcs);
    TotalZero(Unanswered, s.pcs);
    TotalZero(Riding, s.pcs);
    TotalZero(InHand, s.pcs);
    TotalZero(RecordedOnly, s.pcs);
    TotalZero(WasAborted, s.pcs);
    TotalZero(DrewExactly(|Flatten(queues)|), s.pcs);
    forall j ensures CopiesIn(s, j) == multiset(Flatten(queues))[j] {
      TotalZero(Rides(j), s.pcs);
      TotalZero(Holds(j), s.pcs);
    }
  }

  lemma {:induction false} ExecLedger(s: State, acts: seq<Action>, pushed: nat, strays: nat)
    requires Ledger(s, pushed, strays)
    ensures Ledger(Exec(s, acts), pushed, strays)
    ensures forall j :: CopiesIn(Exec(s, acts), j) == CopiesIn(s, j)
    decreases acts
  {
    if acts == [] {
    } else {
      var a := acts[0];
      LedgerStep(s, a, pushed, strays);
      ExecLedger(Step(s, a), acts[1..], pushed, strays);
      forall j ensures CopiesIn(Exec(s, acts), j) == CopiesIn(s, j) {
        CopiesStep(s, a, j);
      }
    }
  }

  // ---- What the ledger says about any run of any fleet ---------------------------

  /**
    Conservation under faults: whatever happened, every job ever pushed is queued,
    riding in a reply, held by a worker, counted or lost, with the right
    multiplicity; and each loss or orphaned LPOP is paid for by a failed LPOP, an
    aborted worker or an orphan of an earlier fleet.
    */
  lemma JobsAreConserved(queues: seq<seq<Job>>, workers: nat, target: Option<nat>, orphans: seq<nat>, acts: seq<Action>)
    requires forall k :: 0 <= k < |orphans| ==> orphans[k] < |queues|
    ensures var s := Exec(Boot(queues, workers, target, orphans), acts);
            && (forall j :: CopiesIn(s, j) == multiset(Flatten(queues))[j])
            && |s.sh.past.lost| + |s.sh.orphans|
               <= |orphans| + s.sh.past.lpopErrors + Total(WasAborted, s.pcs)
  {
    BootLedger(queues, workers, target, orphans);
    ExecLedger(Boot(queues, workers, target, orphans), acts, |Flatten(queues)|, |orphans|);
  }

  /**
    Exact poll accounting. A hit at list `j` costs `j + 1` polls, a missed pass one
    poll per list, and unfinished passes what they have polled so far. Equally, every
    poll is a hit, a miss, an LPOP error or unanswered. `errors` has two sources.
    */
  lemma PollsAreExact(queues: seq<seq<Job>>, workers: nat, target: Option<nat>, orphans: seq<nat>, acts: seq<Action>)
    requires forall k :: 0 <= k < |orphans| ==> orphans[k] < |queues|
    ensures var s := Exec(Boot(queues, workers, target, orphans), acts);
            && s.sh.polls == Total(Cost, s.sh.past.hits) + |queues| * s.sh.past.missedPasses + Total(PassPolls, s.pcs)
            && s.sh.polls == |s.sh.past.hits| + s.sh.past.misses + s.sh.past.lpopErrors + Total(Unanswered, s.pcs)
            && s.sh.errors == s.sh.past.lpopErrors + s.sh.past.badPayloads
            && |s.sh.past.hits| == s.sh.completed + Total(InHand, s.pcs)
            && |s.sh.sent| + s.sh.past.badPayloads == s.sh.completed + Total(RecordedOnly, s.pcs)
  {
    BootLedger(queues, workers, target, orphans);
    ExecLedger(Boot(queues, workers, target, orphans), acts, |Flatten(queues)|, |orphans|);
    ExecShape(Boot(queues, workers, target, orphans), acts);
    PassesCostIsProduct(|queues|, Exec(Boot(queues, workers, target, orphans), acts).sh.past.missedPasses);
  }

  lemma {:induction false} OnlyOne(f: Pc -> nat, pcs: seq<Pc>, v: nat, w: nat)
    requires Total(f, pcs) <= 1 && v < |pcs| && w < |pcs| && f(pcs[v]) == f(pcs[w]) == 1
    requires f(Top) == 0
    ensures v == w
  {
    if v != w {
      TotalUpdate(f, pcs, v, Top);
      TotalMember(f, pcs[v := Top], w);
    }
  }

  /**
    The race-free "queue is empty" signal. When the target is the number of jobs
    pushed: `done` means all lists are empty, nothing is on its way, held or lost;
    and once all jobs are counted, `done` is set or exactly one worker is about to
    set it.
    */
  lemma DoneIsExact(queues: seq<seq<Job>>, workers: nat, orphans: seq<nat>, acts: seq<Action>)
    requires forall k :: 0 <= k < |orphans| ==> orphans[k] < |queues|
    requires Flatten(queues) != []
    ensures var n := |Flatten(queues)|;
            var s := Exec(Boot(queues, workers, Some(n), orphans), acts);
            && (s.sh.done ==>
                  && s.sh.completed == n
                  && EmptyBelow(s.sh.queues, |s.sh.queues|)
                  && s.sh.past.lost == []
                  && forall w :: 0 <= w < |s.pcs| ==>
                       Riding(s.pcs[w]) == InHand(s.pcs[w]) == 0 && s.pcs[w] != Drew(n))
            && (s.sh.completed == n ==> s.sh.done || exists w :: 0 <= w < |s.pcs| && s.pcs[w] == Drew(n))
            && (forall v, w :: 0 <= v < |s.pcs| && 0 <= w < |s.pcs| && s.pcs[v] == Drew(n) && s.pcs[w] == Drew(n) ==> v == w)
  {
    var n := |Flatten(queues)|;
    var s0 := Boot(queues, workers, Some(n), orphans);
    var s := Exec(s0, acts);
    BootLedger(queues, workers, Some(n), orphans);
    ExecLedger(s0, acts, n, |orphans|);
    ExecShape(s0, acts);
    TotalZero(DrewExactly(n), s.pcs);
    if s.sh.done {
      AllCounted(s, n, |orphans|);
      assert forall w :: 0 <= w < |s.pcs| ==> DrewExactly(n)(s.pcs[w]) == 0;
    }
    forall v, w | 0 <= v < |s.pcs| && 0 <= w < |s.pcs| && s.pcs[v] == Drew(n) && s.pcs[w] == Drew(n)
      ensures v == w
    {
      OnlyOne(DrewExactly(n), s.pcs, v, w);
    }
  }

  /** The completion number that `inc_completed` hands out in this step, if it does. */
  function DrawOf(s: State, a: Action): seq<nat> {
    if a.Act? && a.worker < |s.pcs| && a.op == Complete && s.pcs[a.worker].Recorded? && Step(s, a).pcs[a.worker].Drew?
    then [Step(s, a).pcs[a.worker].value]
    else []
  }

  /** All of them along a run, in order. */
  function Draws(s: State, acts: seq<Action>): seq<nat>
    decreases acts
  {
    if acts == [] then [] else DrawOf(s, acts[0]) + Draws(Step(s, acts[0]), acts[1..])
  }

  lemma DrawIsNext(s: State, a: Action)
    ensures Step(s, a).sh.completed == s.sh.completed + |DrawOf(s, a)|
    ensures DrawOf(s, a) == [] || DrawOf(s, a) == [s.sh.completed + 1]
  {
  }

  /** Along any run, from any state, each completion number is drawn once, without gaps. */
  lemma {:induction false} DrawsAreConsecutive(s: State, acts: seq<Action>)
    ensures var ds := Draws(s, acts);
            && s.sh.completed + |ds| == Exec(s, acts).sh.completed
            && forall i :: 0 <= i < |ds| ==> ds[i] == s.sh.completed + i + 1
    decreases acts
  {
    if acts == [] {
    } else {
      DrawIsNext(s, acts[0]);
      DrawsAreConsecutive(Step(s, acts[0]), acts[1..]);
    }
  }
}
