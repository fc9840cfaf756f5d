/** The counters of src/metrics.rs and the worker loop of src/worker.rs, in the source's own form. */
module PollWorker {
  import opened Basics
  import Fleet

  class Metrics {
    var completed: nat
    var errors: nat
    var polls: nat

    constructor ()
      ensures completed == 0 && errors == 0 && polls == 0
    {
      completed, errors, polls := 0, 0, 0;
    }

    method IncCompleted() returns (value: nat)
      modifies this`completed
      ensures value == completed == old(completed) + 1
    {
      completed := completed + 1;
      return completed;
    }

    method IncError()
      modifies this`errors
      ensures errors == old(errors) + 1
    {
      errors := errors + 1;
    }

    method IncPoll()
      modifies this`polls
      ensures polls == old(polls) + 1
    {
      polls := polls + 1;
    }
  }

  /** How an LPOP ends for the worker. */
  datatype Outcome = Ok(reply: Fleet.Reply) | Err

  /** What the world shows a worker at one of its steps; each step looks at its own part. */
  datatype Input = Input(
    shutdown: bool,      // the flag, at the loop top
    outcome: Outcome,    // the end of the LPOP in flight
    nowNs: nat,          // the clock, when recording a job
    others: nat,         // completions by other workers since this worker's last one
    slept: bool)         // which branch of the sleep won

  /** A point in the loop of `run`. */
  datatype Point =
    | AtTop | AtKey(key: nat) | AtReply(key: nat) | AtRecord(payload: Fleet.Payload)
    | AtCount | AtSignal(value: nat) | AtSleep | Returned

  /** A worker's program point together with everything `run` reads or writes. */
  datatype View = View(at: Point, polls: nat, errors: nat, completed: nat, sent: seq<nat>, done: bool)

  function RecordView(v: View, payload: Fleet.Payload, nowNs: nat): View {
    if payload.Stamped?
    then v.(at := AtCount, sent := v.sent + [Fleet.LatencyUs(nowNs, payload.enqueuedNs)])
    else v.(at := AtCount, errors := v.errors + 1)
  }

  /** One step of `run` as a state machine. */
  function Advance(keys: nat, target: Option<nat>, v: View, input: Input): View {
    match v.at
    case AtTop => v.(at := if input.shutdown then Returned else AtKey(0))
    case AtKey(i) =>
      if i < keys then v.(at := AtReply(i), polls := v.polls + 1) else v.(at := AtSleep)
    case AtReply(i) =>
      (match input.outcome
       case Ok(reply) => v.(at := if reply.Entry? then AtRecord(reply.job.payload) else AtKey(i + 1))
       case Err => v.(at := AtKey(i + 1), errors := v.errors + 1))
    case AtRecord(payload) => RecordView(v, payload, input.nowNs)
    case AtCount =>
      var value := v.completed + input.others + 1;
      v.(at := AtSignal(value), completed := value)
    case AtSignal(value) => v.(at := AtTop, done := v.done || (target.Some? && value >= target.value))
    case AtSleep => v.(at := if input.slept then AtTop else Returned)
    case Returned => v
  }

  /** The step machine on a whole tape. */
  function Replay(keys: nat, target: Option<nat>, v: View, tape: seq<Input>): View
    decreases tape
  {
    if tape == [] then v else Replay(keys, target, Advance(keys, target, v, tape[0]), tape[1..])
  }

  /** The views that the first steps of a tape lead through. */
  ghost predicate IsTrace(keys: nat, target: Option<nat>, trace: seq<View>, tape: seq<Input>, t: nat) {
    && |trace| == t + 1 && t <= |tape|
    && forall k :: 0 <= k < t ==> trace[k + 1] == Advance(keys, target, trace[k], tape[k])
  }

  lemma TraceGrows(keys: nat, target: Option<nat>, trace: seq<View>, tape: seq<Input>, t: nat, v: View)
    requires IsTrace(keys, target, trace, tape, t) && t < |tape| && v == Advance(keys, target, trace[t], tape[t])
    ensures IsTrace(keys, target, trace + [v], tape, t + 1) && (trace + [v])[t + 1] == v && (trace + [v])[0] == trace[0]
  {
  }

  lemma {:induction false} TraceIsReplay(keys: nat, target: Option<nat>, trace: seq<View>, tape: seq<Input>, t: nat)
    requires IsTrace(keys, target, trace, tape, t)
    requires t == |tape| || trace[t].at == Returned
    ensures Replay(keys, target, trace[0], tape) == trace[t]
    decreases tape
  {
    if t > 0 {
      TraceIsReplay(keys, target, trace[1..], tape[1..], t - 1);
    } else {
      ReturnedForGood(keys, target, trace[0], tape);
    }
  }

  lemma {:induction false} ReturnedForGood(keys: nat, target: Option<nat>, v: View, tape: seq<Input>)
    requires tape == [] || v.at == Returned
    ensures Replay(keys, target, v, tape) == v
    decreases tape
  {
    if tape == [] {
    } else {
      ReturnedForGood(keys, target, v, tape[1..]);
    }
  }

  class Worker {
    const metrics: Metrics
    const keys: nat
    const target: Option<nat>
    var sent: seq<nat>
    var done: bool

    constructor (metrics: Metrics, keys: nat, target: Option<nat>)
      ensures this.metrics == metrics && this.keys == keys && this.target == target
      ensures sent == [] && !done
    {
      this.metrics, this.keys, this.target, sent, done := metrics, keys, target, [], false;
    }

    ghost function ViewAt(at: Point): View
      reads this, metrics
    {
      View(at, metrics.polls, metrics.errors, metrics.completed, sent, done)
    }

    /** One latency or one error per hit. */
    method RecordJob(payload: Fleet.Payload, nowNs: nat)
      modifies this`sent, metrics`errors
      ensures ViewAt(AtCount) == RecordView(old(ViewAt(AtRecord(payload))), payload, nowNs)
      ensures payload.Stamped? ==>
                sent == old(sent) + [Fleet.LatencyUs(nowNs, payload.enqueuedNs)] && metrics.errors == old(metrics.errors)
      ensures !payload.Stamped? ==> sent == old(sent) && metrics.errors == old(metrics.errors) + 1
    {
      match payload
      case Stamped(enqueuedNs) =>
        var us := if nowNs >= enqueuedNs then (nowNs - enqueuedNs) / 1000 else 1;
        sent := sent + [if us < 1 then 1 else us];
      case Unstamped => metrics.IncError();
      case Malformed => metrics.IncError();
    }

    /** `trace` leads from the start to where this worker is after `t` steps of the tape. */
    ghost predicate Follows(trace: seq<View>, tape: seq<Input>, t: nat, at: Point)
      reads this, metrics
    {
      IsTrace(keys, target, trace, tape, t) && trace[t] == ViewAt(at)
    }

    /** One pass over the keys, up to the first hit. */
    method ScanKeys(tape: seq<Input>, t0: nat, ghost trace0: seq<View>)
      returns (t: nat, at: Point, ghost trace: seq<View>)
      requires Follows(trace0, tape, t0, AtKey(0))
      modifies metrics
      ensures t0 <= t && Follows(trace, tape, t, at) && trace[0] == trace0[0]
      ensures at.AtRecord? || at == AtKey(keys) || t == |tape|
    {
      t, trace := t0, trace0;
      var key := 0;
      while key < keys
        invariant t0 <= t && key <= keys && Follows(trace, tape, t, AtKey(key)) && trace[0] == trace0[0]
      {
        if t == |tape| { return t, AtKey(key), trace; }
        metrics.IncPoll();
        TraceGrows(keys, target, trace, tape, t, ViewAt(AtReply(key)));
        t, trace := t + 1, trace + [ViewAt(AtReply(key))];
        if t == |tape| { return t, AtReply(key), trace; }
        match tape[t].outcome {
          case Ok(reply) =>
            if reply.Entry? {
              TraceGrows(keys, target, trace, tape, t, ViewAt(AtRecord(reply.job.payload)));
              return t + 1, AtRecord(reply.job.payload), trace + [ViewAt(AtRecord(reply.job.payload))];
            }
          case Err => metrics.IncError();
        }
        key := key + 1;
        TraceGrows(keys, target, trace, tape, t, ViewAt(AtKey(key)));
        t, trace := t + 1, trace + [ViewAt(AtKey(key))];
      }
      return t, AtKey(keys), trace;
    }

    /** After a hit: record, count, and signal when the target is reached. */
    method FinishJob(tape: seq<Input>, t0: nat, payload: Fleet.Payload, ghost trace0: seq<View>)
      returns (t: nat, at: Point, ghost trace: seq<View>)
      requires Follows(trace0, tape, t0, AtRecord(payload))
      modifies this, metrics
      ensures t0 <= t && Follows(trace, tape, t, at) && trace[0] == trace0[0]
      ensures at == AtTop || t == |tape|
    {
      t, trace := t0, trace0;
      if t == |tape| { return t, AtRecord(payload), trace; }
      RecordJob(payload, tape[t].nowNs);
      TraceGrows(keys, target, trace, tape, t, ViewAt(AtCount));
      t, trace := t + 1, trace + [ViewAt(AtCount)];
      if t == |tape| { return t, AtCount, trace; }
      metrics.completed := metrics.completed + tape[t].others;  // the rest of the fleet
      var value := metrics.IncCompleted();
      TraceGrows(keys, target, trace, tape, t, ViewAt(AtSignal(value)));
      t, trace := t + 1, trace + [ViewAt(AtSignal(value))];
      if t == |tape| { return t, AtSignal(value), trace; }
      if target.Some? && value >= target.value {
        done := true;
      }
      TraceGrows(keys, target, trace, tape, t, ViewAt(AtTop));
      return t + 1, AtTop, trace + [ViewAt(AtTop)];
    }

    /** After a missed pass: sleep, unless shutdown comes first. */
    method SleepOrReturn(tape: seq<Input>, t0: nat, ghost trace0: seq<View>)
      returns (t: nat, at: Point, ghost trace: seq<View>)
      requires Follows(trace0, tape, t0, AtKey(keys))
      ensures t0 <= t && Follows(trace, tape, t, at) && trace[0] == trace0[0]
      ensures at == AtTop || at == Returned || t == |tape|
    {
      t, trace := t0, trace0;
      if t == |tape| { return t, AtKey(keys), trace; }
      t, trace := t + 1, trace + [ViewAt(AtSleep)];
      if t == |tape| { return t, AtSleep, trace; }
      at := if tape[t].slept then AtTop else Returned;
      return t + 1, at, trace + [ViewAt(at)];
    }

    /**
      The loop of `run`, for as long as `tape` says what the world does; the result is
      the point it has reached. It does exactly what the step machine does.
      */
    method Run(tape: seq<Input>) returns (at: Point)
      modifies this, metrics
      ensures ViewAt(at) == Replay(keys, target, old(ViewAt(AtTop)), tape)
    {
      ghost var trace := [ViewAt(AtTop)];
      var t := 0;
      at := AtTop;
      while t < |tape| && at == AtTop
        invariant Follows(trace, tape, t, at) && trace[0] == old(ViewAt(AtTop))
        invariant at == AtTop || at == Returned || t == |tape|
        decreases |tape| - t
      {
        if tape[t].shutdown {
          t, at, trace := t + 1, Returned, trace + [ViewAt(Returned)];
        } else {
          t, at, trace := ScanKeys(tape, t + 1, trace + [ViewAt(AtKey(0))]);
          if at.AtRecord? {
            t, at, trace := FinishJob(tape, t, at.payload, trace);
          } else if at == AtKey(keys) {
            t, at, trace := SleepOrReturn(tape, t, trace);
          }
        }
      }
      TraceIsReplay(keys, target, trace, tape, t);
    }
  }

  // ---- The fleet is made of these workers ---------------------------------------

  /** A fleet worker's program counter as a point of `run`. */
  function PointOf(pc: Fleet.Pc): Point {
    match pc
    case Top => AtTop
    case Scan(i) => AtKey(i)
    case Waiting(i) => AtReply(i)
    case Served(i, _) => AtReply(i)
    case Hit(_, job) => AtRecord(job.payload)
    case Recorded(_) => AtCount
    case Drew(value) => AtSignal(value)
    case Sleeping => AtSleep
    case Exited => Returned
    case Aborted(_) => Returned
  }

  function ViewOf(s: Fleet.Shared, pc: Fleet.Pc): View {
    View(PointOf(pc), s.polls, s.errors, s.completed, s.sent, s.done)
  }

  /** The fleet step for the step of `run` that sees `input`. */
  function OpFor(pc: Fleet.Pc, keys: nat, input: Input): Fleet.Op {
    match pc
    case Top => Fleet.CheckFlag
    case Scan(i) => if i < keys then Fleet.Issue else Fleet.EndPass
    case Waiting(_) => Fleet.Fail
    case Served(_, _) => if input.outcome.Err? then Fleet.Fail else Fleet.Deliver
    case Hit(_, _) => Fleet.Record(input.nowNs)
    case Recorded(_) => Fleet.Complete
    case Drew(_) => Fleet.Signal
    case Sleeping => if input.slept then Fleet.Wake else Fleet.SeeShutdown
    case Exited => Fleet.Wake
    case Aborted(_) => Fleet.Wake
  }

  /** `input` is what a worker at `pc` can see when the shared state is `s`. */
  predicate Sees(s: Fleet.Shared, pc: Fleet.Pc, input: Input) {
    && input.shutdown == s.shutdown
    && input.others == 0
    && (input.slept || s.shutdown)
    && (pc.Waiting? ==> input.outcome == Err)
    && (pc.Served? ==> input.outcome == Err || input.outcome == Ok(pc.reply))
  }

  /** A fleet worker's step is the step of `run` on what it sees. */
  lemma FleetStepIsRunStep(s: Fleet.Shared, pc: Fleet.Pc, input: Input)
    requires Sees(s, pc, input)
    ensures var m := Fleet.Move(s, pc, OpFor(pc, |s.queues|, input), false);
            ViewOf(m.sh, m.pc) == Advance(|s.queues|, s.target, ViewOf(s, pc), input)
  {
  }

  /** Every other step leaves the worker where it is, as far as `run` can tell, or ends it. */
  lemma EveryMoveIsARunStep(s: Fleet.Shared, pc: Fleet.Pc, op: Fleet.Op, condemned: bool)
    ensures var m := Fleet.Move(s, pc, op, condemned);
            || ViewOf(m.sh, m.pc) == ViewOf(s, pc)
            || (op == Fleet.Abort && condemned && ViewOf(m.sh, m.pc) == ViewOf(s, pc).(at := Returned))
            || exists input :: Sees(s, pc, input) && OpFor(pc, |s.queues|, input) == op
                               && ViewOf(m.sh, m.pc) == Advance(|s.queues|, s.target, ViewOf(s, pc), input)
  {
    var outcome := if pc.Served? && op == Fleet.Deliver then Ok(pc.reply) else Err;
    var now := if op.Record? then op.nowNs else 0;
    var input := Input(s.shutdown, outcome, now, 0, op != Fleet.SeeShutdown || !s.shutdown);
    assert Sees(s, pc, input);
    if op != Fleet.Abort && op == OpFor(pc, |s.queues|, input) {
      FleetStepIsRunStep(s, pc, input);
      OnlyAbortsNeedCondemning(s, pc, op, condemned);
    } else {
      OtherOpsDoNothing(s, pc, op, condemned, input);
    }
  }

  lemma OnlyAbortsNeedCondemning(s: Fleet.Shared, pc: Fleet.Pc, op: Fleet.Op, condemned: bool)
    requires op != Fleet.Abort
    ensures Fleet.Move(s, pc, op, condemned) == Fleet.Move(s, pc, op, false)
  {
  }

  lemma OtherOpsDoNothing(s: Fleet.Shared, pc: Fleet.Pc, op: Fleet.Op, condemned: bool, input: Input)
    requires Sees(s, pc, input) && (op == Fleet.Abort || op != OpFor(pc, |s.queues|, input))
    requires input.outcome.Ok? <==> pc.Served? && op == Fleet.Deliver
    requires op.Record? ==> input.nowNs == op.nowNs
    requires input.slept == (op != Fleet.SeeShutdown || !s.shutdown)
    ensures var m := Fleet.Move(s, pc, op, condemned);
            || ViewOf(m.sh, m.pc) == ViewOf(s, pc)
            || (op == Fleet.Abort && condemned && ViewOf(m.sh, m.pc) == ViewOf(s, pc).(at := Returned))
  {
  }
}
