/**
  What a fleet's steps put on the latency channel and say about `done`, read off the run
  that took them, and what they make of jobs that carry a timestamp.
  */
module FleetLatency {
  import opened Basics
  import opened Fleet
  import opened FleetLedger

  // ---- The latencies of a run -------------------------------------------------------------------

  /** The worker that records a job in this step, if it does, holds this payload. */
  function PayloadOf(s: State, a: Action): Option<Payload> {
    if a.Act? && a.worker < |s.pcs| && a.op.Record? && s.pcs[a.worker].Hit? then Some(s.pcs[a.worker].job.payload) else None
  }

  /** What it should send: the time since the job's own timestamp. */
  function SendOf(s: State, a: Action): seq<nat> {
    match PayloadOf(s, a)
    case Some(Stamped(enqueuedNs)) => [LatencyUs(a.op.nowNs, enqueuedNs)]
    case _ => []
  }

  function BadOf(s: State, a: Action): nat {
    match PayloadOf(s, a)
    case Some(Unstamped) => 1
    case Some(Malformed) => 1
    case _ => 0
  }

  function Sends(s: State, acts: seq<Action>): seq<nat>
    decreases acts
  {
    if acts == [] then [] else SendOf(s, acts[0]) + Sends(Step(s, acts[0]), acts[1..])
  }

  function Bads(s: State, acts: seq<Action>): nat
    decreases acts
  {
    if acts == [] then 0 else BadOf(s, acts[0]) + Bads(Step(s, acts[0]), acts[1..])
  }

  lemma RecordSends(s: Shared, pc: Pc, op: Op, condemned: bool)
    requires pc.Hit? && op.Record?
    ensures var m := Move(s, pc, op, condemned);
            match pc.job.payload
            case Stamped(enqueuedNs) =>
              m.sh.sent == s.sent + [LatencyUs(op.nowNs, enqueuedNs)] && m.sh.past.badPayloads == s.past.badPayloads
            case _ => m.sh.sent == s.sent && m.sh.past.badPayloads == s.past.badPayloads + 1
  {
  }

  lemma OthersSendNothing(s: Shared, pc: Pc, op: Op, condemned: bool)
    requires !(pc.Hit? && op.Record?)
    ensures var m := Move(s, pc, op, condemned); m.sh.sent == s.sent && m.sh.past.badPayloads == s.past.badPayloads
  {
  }

  lemma StepSends(s: State, a: Action)
    ensures Step(s, a).sh.sent == s.sh.sent + SendOf(s, a)
    ensures Step(s, a).sh.past.badPayloads == s.sh.past.badPayloads + BadOf(s, a)
  {
    if a.Act? && a.worker < |s.pcs| {
      if s.pcs[a.worker].Hit? && a.op.Record? {
        RecordSends(s.sh, s.pcs[a.worker], a.op, a.worker in s.sh.condemned);
      } else {
        OthersSendNothing(s.sh, s.pcs[a.worker], a.op, a.worker in s.sh.condemned);
      }
    }
  }

  /**
    Along any run the channel receives, for each job recorded and in that order, the time
    since that job's timestamp; a job without one sends nothing and is a bad payload.
    */
  lemma {:induction false} LatenciesAreOfTheJobs(s: State, acts: seq<Action>)
    ensures Exec(s, acts).sh.sent == s.sh.sent + Sends(s, acts)
    ensures Exec(s, acts).sh.past.badPayloads == s.sh.past.badPayloads + Bads(s, acts)
    decreases acts
  {
    if acts == [] {
    } else {
      StepSends(s, acts[0]);
      LatenciesAreOfTheJobs(Step(s, acts[0]), acts[1..]);
    }
  }

  ghost predicate AllPositive(us: seq<nat>) {
    forall i :: 0 <= i < |us| ==> us[i] >= 1
  }

  lemma StepSendsPositive(s: State, a: Action)
    requires AllPositive(s.sh.sent)
    ensures AllPositive(Step(s, a).sh.sent)
  {
    StepSends(s, a);
  }

  // ---- The `done` flag of a run -----------------------------------------------------------------

  /** The completion number that a worker compares with the target in this step, if it does. */
  function SignalOf(s: State, a: Action): seq<nat> {
    if a.Act? && a.worker < |s.pcs| && a.op == Signal && s.pcs[a.worker].Drew? then [s.pcs[a.worker].value] else []
  }

  function Signals(s: State, acts: seq<Action>): seq<nat>
    decreases acts
  {
    if acts == [] then [] else SignalOf(s, acts[0]) + Signals(Step(s, acts[0]), acts[1..])
  }

  /** Some completion number has reached the target, if there is one. */
  predicate Reached(target: Option<nat>, values: seq<nat>) {
    target.Some? && exists i :: 0 <= i < |values| && values[i] >= target.value
  }

  lemma StepSignals(s: State, a: Action)
    ensures Step(s, a).sh.done <==> s.sh.done || Reached(s.sh.target, SignalOf(s, a))
  {
    var values := SignalOf(s, a);
    if values != [] {
      assert values[0] == s.pcs[a.worker].value;
    }
  }

  lemma ReachedEither(target: Option<nat>, xs: seq<nat>, ys: seq<nat>)
    ensures Reached(target, xs + ys) <==> Reached(target, xs) || Reached(target, ys)
  {
    if target.Some? {
      if i :| 0 <= i < |xs| && xs[i] >= target.value {
        assert (xs + ys)[i] == xs[i];
      }
      if i :| 0 <= i < |ys| && ys[i] >= target.value {
        assert (xs + ys)[|xs| + i] == ys[i];
      }
    }
  }

  /** For every target: `done` is up exactly when some worker has compared a completion number that reaches it. */
  lemma {:induction false} DoneExactlyWhenReached(s: State, acts: seq<Action>)
    ensures Exec(s, acts).sh.done <==> s.sh.done || Reached(s.sh.target, Signals(s, acts))
    decreases acts
  {
    if acts == [] {
    } else {
      StepSignals(s, acts[0]);
      StepShape(s, acts[0]);
      DoneExactlyWhenReached(Step(s, acts[0]), acts[1..]);
      ReachedEither(s.sh.target, SignalOf(s, acts[0]), Signals(Step(s, acts[0]), acts[1..]));
    }
  }

  // ---- Jobs that carry a timestamp ----------------------------------------------------------------

  ghost predicate AllStamped(queues: seq<seq<Job>>) {
    forall k, i :: 0 <= k < |queues| && 0 <= i < |queues[k]| ==> queues[k][i].payload.Stamped?
  }

  /** Whatever job the worker is about to receive or holds carries a timestamp. */
  predicate StampedAt(pc: Pc) {
    (pc.Served? && pc.reply.Entry? ==> pc.reply.job.payload.Stamped?) && (pc.Hit? ==> pc.job.payload.Stamped?)
  }

  ghost predicate Clean(s: State) {
    && AllStamped(s.sh.queues) && s.sh.past.badPayloads == 0
    && forall w :: 0 <= w < |s.pcs| ==> StampedAt(s.pcs[w])
  }

  lemma PopStamped(s: Shared, k: nat)
    requires k < |s.queues| && AllStamped(s.queues)
    ensures AllStamped(Pop(s, k).queues) && (AnswerOf(s.queues[k]).Entry? ==> AnswerOf(s.queues[k]).job.payload.Stamped?)
  {
    var rest := Rest(s.queues[k]);
    forall i | 0 <= i < |rest| ensures rest[i].payload.Stamped? {
      assert rest[i] == s.queues[k][i + 1];
    }
  }

  lemma MoveStamped(s: Shared, pc: Pc, op: Op, condemned: bool)
    requires AllStamped(s.queues) && StampedAt(pc)
    ensures var m := Move(s, pc, op, condemned);
            AllStamped(m.sh.queues) && StampedAt(m.pc) && m.sh.past.badPayloads == s.past.badPayloads
  {
    if pc.Waiting? && pc.key < |s.queues| {
      PopStamped(s, pc.key);
    }
  }

  lemma StepStamped(s: State, a: Action)
    requires Clean(s)
    ensures Clean(Step(s, a))
  {
    match a
    case Act(w, op) => if w < |s.pcs| { MoveStamped(s.sh, s.pcs[w], op, w in s.sh.condemned); }
    case ServeOrphan(k) =>
      if k < |s.sh.orphans| && s.sh.orphans[k] < |s.sh.queues| { PopStamped(s.sh, s.sh.orphans[k]); }
    case _ =>
  }

  lemma {:induction false} ExecStamped(s: State, acts: seq<Action>)
    requires Clean(s)
    ensures Clean(Exec(s, acts))
    decreases acts
  {
    if acts == [] {
    } else {
      StepStamped(s, acts[0]);
      ExecStamped(Step(s, acts[0]), acts[1..]);
    }
  }

  /** On a backlog whose jobs all carry timestamps every error of every run is a failed LPOP. */
  lemma {:induction false} StampedJobsAreNoErrors(queues: seq<seq<Job>>, workers: nat, target: Option<nat>, orphans: seq<nat>,
                                                  acts: seq<Action>)
    requires AllStamped(queues) && forall k :: 0 <= k < |orphans| ==> orphans[k] < |queues|
    ensures var s := Exec(Boot(queues, workers, target, orphans), acts);
            s.sh.past.badPayloads == 0 && s.sh.errors == s.sh.past.lpopErrors
  {
    ExecStamped(Boot(queues, workers, target, orphans), acts);
    PollsAreExact(queues, workers, target, orphans, acts);
  }
}
