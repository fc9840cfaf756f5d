/**
  The poll-worker fleet as a step system (src/worker.rs): any number of workers
  scan the same priority-ordered server lists, share three counters, a latency
  channel and the sticky `done` and `shutdown` flags, and interleave freely.

  A step that is not enabled leaves the state alone, so every sequence of
  actions is a run and every run is one of them.
  */
module Fleet {
  import opened Basics

  /** What `record_job` can make of a queue entry. */
  datatype Payload = Stamped(enqueuedNs: nat) | Unstamped | Malformed

  datatype Job = Job(id: nat, payload: Payload)

  /** The answer to an LPOP. */
  datatype Reply = Nil | Entry(job: Job)

  /** Where a worker is in `PollWorker::run`. */
  datatype Pc =
    | Top                                    // about to read the shutdown flag
    | Scan(key: nat)                         // about to poll list `key`; past the last one: a missed pass
    | Waiting(key: nat)                      // LPOP in flight, not yet executed by the server
    | Served(key: nat, reply: Reply)   // LPOP executed, reply in flight
    | Hit(key: nat, job: Job)                // job received, about to be recorded
    | Recorded(job: Job)                     // about to be counted
    | Drew(value: nat)                       // counted as completion number `value`, about to compare with the target
    | Sleeping
    | Exited
    | Aborted(wasted: nat)                   // cancelled after `wasted` polls of an unfinished pass

  datatype Op =
    | CheckFlag | Issue | Serve | Deliver | Fail | Record(nowNs: nat)
    | Complete | Signal | EndPass | Wake | SeeShutdown | Abort

  datatype Action =
    | Act(worker: nat, op: Op)
    | ServeOrphan(index: nat)  // the server runs an LPOP nobody waits for any more
    | DropOrphan(index: nat)   // such an LPOP never reaches the server
    | Shutdown
    | Condemn(worker: nat)     // `join_workers` requests the abort of a worker that outlived its grace period

  /** History: no code reads it. */
  datatype Past = Past(
    popped: seq<Job>,    // every job the server handed out, in order
    lost: seq<Job>,      // handed out, but the reply never reached a worker
    counted: seq<Job>,   // counted as completed, in order
    hits: seq<nat>,      // the list index of every received job
    misses: nat,         // nil replies received
    lpopErrors: nat,     // failed LPOPs
    badPayloads: nat,    // received jobs without a usable timestamp
    missedPasses: nat)   // passes over all lists without a job

  /** What all workers, the server and `main` share. */
  datatype Shared = Shared(
    target: Option<nat>,
    queues: seq<seq<Job>>,   // the server's lists, in priority order
    orphans: seq<nat>,       // keys of LPOPs nobody waits for, still able to reach the server
    polls: nat,
    errors: nat,
    completed: nat,
    sent: seq<nat>,          // everything sent on the latency channel
    done: bool,
    shutdown: bool,
    condemned: set<nat>,
    past: Past)

  datatype State = State(sh: Shared, pcs: seq<Pc>)

  const NO_PAST := Past([], [], [], [], 0, 0, 0, 0)

  /** A freshly spawned fleet; `orphans` are LPOPs left over from earlier fleets. */
  function Boot(queues: seq<seq<Job>>, workers: nat, target: Option<nat>, orphans: seq<nat>): State {
    State(Shared(target, queues, orphans, 0, 0, 0, [], false, false, {}, NO_PAST), seq(workers, _ => Top))
  }

  /** Microseconds from enqueue to dequeue, at least 1 even under clock skew. */
  function LatencyUs(nowNs: nat, enqueuedNs: nat): (us: nat)
    ensures us >= 1
    ensures nowNs >= enqueuedNs + 1000 ==> us * 1000 <= nowNs - enqueuedNs < (us + 1) * 1000
    ensures nowNs < enqueuedNs + 2000 ==> us == 1
  {
    var us := if nowNs >= enqueuedNs then (nowNs - enqueuedNs) / 1000 else 1;
    if us < 1 then 1 else us
  }

  function AnswerOf(q: seq<Job>): Reply {
    if q == [] then Nil else Entry(q[0])
  }

  function JobsOf(reply: Reply): seq<Job> {
    if reply.Nil? then [] else [reply.job]
  }

  function Rest(q: seq<Job>): seq<Job> {
    if q == [] then [] else q[1..]
  }

  /** The server executes LPOP on list `k`. */
  function Pop(s: Shared, k: nat): Shared
    requires k < |s.queues|
  {
    s.(queues := s.queues[k := Rest(s.queues[k])],
       past := s.past.(popped := s.past.popped + JobsOf(AnswerOf(s.queues[k]))))
  }

  /** Nobody will ever receive `reply`. */
  function Lose(s: Shared, reply: Reply): Shared {
    s.(past := s.past.(lost := s.past.lost + JobsOf(reply)))
  }

  function CountLpopError(s: Shared): Shared {
    s.(errors := s.errors + 1, past := s.past.(lpopErrors := s.past.lpopErrors + 1))
  }

  /** `record_job`: one latency sent or one error counted. */
  function RecordJob(s: Shared, payload: Payload, nowNs: nat): Shared {
    var bad := if payload.Stamped? then 0 else 1;
    var latency := if payload.Stamped? then [LatencyUs(nowNs, payload.enqueuedNs)] else [];
    s.(sent := s.sent + latency, errors := s.errors + bad,
       past := s.past.(badPayloads := s.past.badPayloads + bad))
  }

  datatype Moved = Moved(sh: Shared, pc: Pc)

  /** One step of a worker at `pc`; `condemned` says whether its abort has been requested. */
  function Move(s: Shared, pc: Pc, op: Op, condemned: bool): Moved {
    match pc
    case Top =>
      if op == CheckFlag then Moved(s, if s.shutdown then Exited else Scan(0))
      else if op == Abort && condemned then Moved(s, Aborted(0))  // a task the runtime has not started yet
      else Moved(s, pc)
    case Scan(i) =>
      if op == Issue && i < |s.queues| then Moved(s.(polls := s.polls + 1), Waiting(i))
      else if op == EndPass && i >= |s.queues| then
        Moved(s.(past := s.past.(missedPasses := s.past.missedPasses + 1)), Sleeping)
      else Moved(s, pc)
    case Waiting(i) =>
      if op == Serve && i < |s.queues| then Moved(Pop(s, i), Served(i, AnswerOf(s.queues[i])))
      else if op == Fail then Moved(CountLpopError(s).(orphans := s.orphans + [i]), Scan(i + 1))
      else if op == Abort && condemned then Moved(s.(orphans := s.orphans + [i]), Aborted(i + 1))
      else Moved(s, pc)
    case Served(i, reply) =>
      if op == Deliver then
        (match reply
         case Entry(job) => Moved(s.(past := s.past.(hits := s.past.hits + [i])), Hit(i, job))
         case Nil => Moved(s.(past := s.past.(misses := s.past.misses + 1)), Scan(i + 1)))
      else if op == Fail then Moved(Lose(CountLpopError(s), reply), Scan(i + 1))
      else if op == Abort && condemned then Moved(Lose(s, reply), Aborted(i + 1))
      else Moved(s, pc)
    case Hit(_, job) =>
      if op.Record? then Moved(RecordJob(s, job.payload, op.nowNs), Recorded(job)) else Moved(s, pc)
    case Recorded(job) =>
      if op == Complete then
        Moved(s.(completed := s.completed + 1, past := s.past.(counted := s.past.counted + [job])),
              Drew(s.completed + 1))
      else Moved(s, pc)
    case Drew(value) =>
      if op == Signal then Moved(s.(done := s.done || (s.target.Some? && value >= s.target.value)), Top)
      else Moved(s, pc)
    case Sleeping =>
      if op == Wake then Moved(s, Top)
      else if op == SeeShutdown && s.shutdown then Moved(s, Exited)
      else if op == Abort && condemned then Moved(s, Aborted(0))
      else Moved(s, pc)
    case Exited => Moved(s, pc)
    case Aborted(_) => Moved(s, pc)
  }

  function Without(orphans: seq<nat>, k: nat): seq<nat>
    requires k < |orphans|
  {
    orphans[..k] + orphans[k + 1..]
  }

  /** A step of the server or of `main`. */
  function Environment(s: Shared, a: Action): Shared {
    match a
    case Act(_, _) => s
    case ServeOrphan(k) =>
      if k < |s.orphans| && s.orphans[k] < |s.queues| then
        Lose(Pop(s, s.orphans[k]), AnswerOf(s.queues[s.orphans[k]])).(orphans := Without(s.orphans, k))
      else s
    case DropOrphan(k) => if k < |s.orphans| then s.(orphans := Without(s.orphans, k)) else s
    case Shutdown => s.(shutdown := true)
    case Condemn(w) => if s.shutdown then s.(condemned := s.condemned + {w}) else s
  }

  function Step(s: State, a: Action): State {
    if a.Act? then
      if a.worker < |s.pcs| then
        var m := Move(s.sh, s.pcs[a.worker], a.op, a.worker in s.sh.condemned);
        State(m.sh, s.pcs[a.worker := m.pc])
      else s
    else State(Environment(s.sh, a), s.pcs)
  }

  /** The state after a run. */
  function Exec(s: State, acts: seq<Action>): State
    decreases acts
  {
    if acts == [] then s else Exec(Step(s, acts[0]), acts[1..])
  }

  predicate Gone(pc: Pc) {
    pc.Exited? || pc.Aborted?
  }

  predicate AllGone(s: State) {
    forall w :: 0 <= w < |s.pcs| ==> Gone(s.pcs[w])
  }

  lemma MoveShape(s: Shared, pc: Pc, op: Op, condemned: bool)
    ensures var m := Move(s, pc, op, condemned); |m.sh.queues| == |s.queues| && m.sh.target == s.target
  {
  }

  lemma StepShape(s: State, a: Action)
    ensures var t := Step(s, a); |t.pcs| == |s.pcs| && |t.sh.queues| == |s.sh.queues| && t.sh.target == s.sh.target
  {
    if a.Act? && a.worker < |s.pcs| {
      MoveShape(s.sh, s.pcs[a.worker], a.op, a.worker in s.sh.condemned);
    }
  }

  lemma {:induction false} ExecShape(s: State, acts: seq<Action>)
    ensures var t := Exec(s, acts);
            |t.pcs| == |s.pcs| && |t.sh.queues| == |s.sh.queues| && t.sh.target == s.sh.target
    decreases acts
  {
    if acts == [] {
    } else {
      StepShape(s, acts[0]);
      ExecShape(Step(s, acts[0]), acts[1..]);
    }
  }

  lemma {:induction false} ExecFirst(s: State, a: Action, rest: seq<Action>)
    ensures Exec(s, [a] + rest) == Exec(Step(s, a), rest)
  {
    assert ([a] + rest)[1..] == rest;
  }

  lemma {:induction false} ExecConcat(s: State, acts: seq<Action>, more: seq<Action>)
    ensures Exec(s, acts + more) == Exec(Exec(s, acts), more)
    decreases acts
  {
    if acts == [] {
      assert acts + more == more;
    } else {
      assert (acts + more)[0] == acts[0] && (acts + more)[1..] == acts[1..] + more;
      ExecConcat(Step(s, acts[0]), acts[1..], more);
    }
  }
}
