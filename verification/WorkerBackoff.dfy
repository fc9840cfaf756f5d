/**
  The poll worker's own sleeps against Resque's schedule: what `PollWorker::run` does
  between its passes, on every tape, is the documented loop exactly when that loop's
  settings collapse to the poll interval.
  */
module WorkerBackoff {
  import opened Basics
  import Fleet
  import opened PollWorker
  import opened Backoff

  /** What is seen of a worker: where it ends, the outcomes of its passes, its pauses between them. */
  datatype Seen = Seen(end: View, outcomes: seq<bool>, pauses: seq<Option<real>>)

  /** A pass is a hit when a job arrives and a miss when the last list is behind. */
  function Decided(keys: nat, v: View, input: Input): seq<bool> {
    if v.at.AtReply? && input.outcome.Ok? && input.outcome.reply.Entry? then [true]
    else if v.at.AtKey? && v.at.key >= keys then [false]
    else []
  }

  /** Back at the loop top, the worker has slept for `p` or has not slept. */
  function Paused(from: Point, to: Point, p: real): seq<Option<real>> {
    if to.AtTop? then [if from.AtSleep? then Some(p) else None] else []
  }

  /** Watch the worker on a tape. */
  function Watch(keys: nat, target: Option<nat>, p: real, v: View, tape: seq<Input>): Seen
    decreases tape
  {
    if tape == [] then Seen(v, [], [])
    else
      var next := Advance(keys, target, v, tape[0]);
      var rest := Watch(keys, target, p, next, tape[1..]);
      Seen(rest.end, Decided(keys, v, tape[0]) + rest.outcomes, Paused(v.at, next.at, p) + rest.pauses)
  }

  lemma {:induction false} WatchIsReplay(keys: nat, target: Option<nat>, p: real, v: View, tape: seq<Input>)
    ensures Watch(keys, target, p, v, tape).end == Replay(keys, target, v, tape)
    decreases tape
  {
    if tape == [] {
    } else {
      WatchIsReplay(keys, target, p, Advance(keys, target, v, tape[0]), tape[1..]);
    }
  }

  lemma Associate<T>(xs: seq<T>, ys: seq<T>, zs: seq<T>)
    ensures (xs + ys) + zs == xs + (ys + zs)
  {
  }

  lemma {:induction false} WatchConcat(keys: nat, target: Option<nat>, p: real, v: View, tape: seq<Input>, more: seq<Input>)
    ensures var a := Watch(keys, target, p, v, tape); var b := Watch(keys, target, p, a.end, more);
            Watch(keys, target, p, v, tape + more) == Seen(b.end, a.outcomes + b.outcomes, a.pauses + b.pauses)
    decreases tape
  {
    if tape == [] {
      assert tape + more == more;
    } else {
      var next := Advance(keys, target, v, tape[0]);
      var a := Watch(keys, target, p, next, tape[1..]);
      var b := Watch(keys, target, p, a.end, more);
      assert (tape + more)[1..] == tape[1..] + more;
      WatchConcat(keys, target, p, next, tape[1..], more);
      Associate(Decided(keys, v, tape[0]), a.outcomes, b.outcomes);
      Associate(Paused(v.at, next.at, p), a.pauses, b.pauses);
    }
  }

  // ---- A sleep after every missed pass, and none after a hit ------------------------------------

  /** The outcome of a pass that the worker has decided and not yet gone on from. */
  function Pending(at: Point): seq<bool> {
    if at.AtRecord? || at.AtCount? || at.AtSignal? then [true] else if at.AtSleep? then [false] else []
  }

  /** The pauses are those of `Fixed`, but for that of a pass the worker has not gone on from. */
  ghost predicate PausesMatch(p: real, outcomes: seq<bool>, pauses: seq<Option<real>>) {
    pauses <= Fixed(p, outcomes) && |outcomes| <= |pauses| + 1
  }

  lemma FixedFirst(p: real, outcome: bool, outcomes: seq<bool>)
    ensures Fixed(p, [outcome] + outcomes) == [if outcome then None else Some(p)] + Fixed(p, outcomes)
  {
  }

  /** Once the worker has returned there is nothing more to see. */
  lemma {:induction false} NothingAfterReturn(keys: nat, target: Option<nat>, p: real, v: View, tape: seq<Input>)
    requires v.at == Returned
    ensures Watch(keys, target, p, v, tape) == Seen(v, [], [])
    decreases tape
  {
    if tape == [] {
    } else {
      NothingAfterReturn(keys, target, p, v, tape[1..]);
    }
  }

  lemma PauseFirst(p: real, outcome: bool, outcomes: seq<bool>, pauses: seq<Option<real>>)
    requires PausesMatch(p, outcomes, pauses)
    ensures PausesMatch(p, [outcome] + outcomes, [if outcome then None else Some(p)] + pauses)
  {
    FixedFirst(p, outcome, outcomes);
  }

  /** What a step decides it takes from, or hands on as, the pending outcome. */
  lemma StepDecides(keys: nat, target: Option<nat>, p: real, v: View, input: Input)
    requires v.at != Returned
    ensures var to := Advance(keys, target, v, input).at;
            && (to == AtTop ==> Decided(keys, v, input) == [] && Pending(v.at) == [v.at != AtSleep]
                                && Paused(v.at, to, p) == [if v.at != AtSleep then None else Some(p)])
            && (to != AtTop ==> Paused(v.at, to, p) == [])
            && (to != AtTop && to != Returned ==> Pending(v.at) + Decided(keys, v, input) == Pending(to))
            && (to == Returned ==> Decided(keys, v, input) == [] && |Pending(v.at)| <= 1)
  {
  }

  /** One step at the head of what is seen from then on. */
  lemma PauseStep(keys: nat, target: Option<nat>, p: real, v: View, input: Input, outcomes: seq<bool>, pauses: seq<Option<real>>)
    requires v.at != Returned && Advance(keys, target, v, input).at != Returned
    requires PausesMatch(p, Pending(Advance(keys, target, v, input).at) + outcomes, pauses)
    ensures PausesMatch(p, Pending(v.at) + (Decided(keys, v, input) + outcomes),
                        Paused(v.at, Advance(keys, target, v, input).at, p) + pauses)
  {
    var decided, to := Decided(keys, v, input), Advance(keys, target, v, input).at;
    StepDecides(keys, target, p, v, input);
    Associate(Pending(v.at), decided, outcomes);
    if to == AtTop {
      assert Pending(to) + outcomes == outcomes;
      assert Pending(v.at) + decided == [v.at != AtSleep];
      PauseFirst(p, v.at != AtSleep, outcomes, pauses);
    } else {
      assert [] + pauses == pauses;
    }
  }

  lemma {:induction false} PausesFollow(keys: nat, target: Option<nat>, p: real, v: View, tape: seq<Input>)
    requires v.at != Returned
    ensures var s := Watch(keys, target, p, v, tape); PausesMatch(p, Pending(v.at) + s.outcomes, s.pauses)
    decreases tape
  {
    if tape == [] {
    } else {
      var next := Advance(keys, target, v, tape[0]);
      var rest := Watch(keys, target, p, next, tape[1..]);
      if next.at == Returned {
        StepDecides(keys, target, p, v, tape[0]);
        NothingAfterReturn(keys, target, p, next, tape[1..]);
        assert Pending(v.at) + ([] + []) == Pending(v.at);
      } else {
        PausesFollow(keys, target, p, next, tape[1..]);
        PauseStep(keys, target, p, v, tape[0], rest.outcomes, rest.pauses);
      }
    }
  }

  /** On every tape the worker sleeps for its interval after each missed pass, and never after a hit. */
  lemma {:induction false} SleepsAfterMissesOnly(keys: nat, target: Option<nat>, p: real, v: View, tape: seq<Input>)
    requires v.at == AtTop
    ensures var s := Watch(keys, target, p, v, tape);
            PausesMatch(p, s.outcomes, s.pauses) && s.end == Replay(keys, target, v, tape)
  {
    PausesFollow(keys, target, p, v, tape);
    WatchIsReplay(keys, target, p, v, tape);
    var s := Watch(keys, target, p, v, tape);
    assert Pending(v.at) + s.outcomes == s.outcomes;
  }

  // ---- Every history of hits and misses is possible ---------------------------------------------

  const JOB_ARRIVES := Input(false, Ok(Fleet.Entry(Fleet.Job(0, Fleet.Malformed))), 0, 0, true)
  const NOTHING_THERE := Input(false, Ok(Fleet.Nil), 0, 0, true)

  function Same(x: Input, n: nat): seq<Input> {
    if n == 0 then [] else [x] + Same(x, n - 1)
  }

  lemma {:induction false} WatchSame(keys: nat, target: Option<nat>, p: real, v: View, x: Input, n: nat)
    ensures var next := Advance(keys, target, v, x); var rest := Watch(keys, target, p, next, Same(x, n));
            Watch(keys, target, p, v, Same(x, n + 1))
            == Seen(rest.end, Decided(keys, v, x) + rest.outcomes, Paused(v.at, next.at, p) + rest.pauses)
  {
    assert Same(x, n + 1)[1..] == Same(x, n);
  }

  lemma {:induction false} HitPass(keys: nat, target: Option<nat>, p: real, v: View)
    requires v.at == AtTop && keys > 0
    ensures var s := Watch(keys, target, p, v, Same(JOB_ARRIVES, 6));
            s.end.at == AtTop && s.outcomes == [true] && s.pauses == [None]
  {
    var x := JOB_ARRIVES;
    var a := Advance(keys, target, v, x);
    var b := Advance(keys, target, a, x);
    WatchSame(keys, target, p, v, x, 5);
    WatchSame(keys, target, p, a, x, 4);
    WatchSame(keys, target, p, b, x, 3);
    FinishHit(keys, target, p, Advance(keys, target, b, x));
  }

  /** Recording, counting and signalling. */
  lemma {:induction false} FinishHit(keys: nat, target: Option<nat>, p: real, v: View)
    requires v.at.AtRecord?
    ensures var s := Watch(keys, target, p, v, Same(JOB_ARRIVES, 3));
            s.end.at == AtTop && s.outcomes == [] && s.pauses == [None]
  {
    var x := JOB_ARRIVES;
    var a := Advance(keys, target, v, x);
    var b := Advance(keys, target, a, x);
    WatchSame(keys, target, p, v, x, 2);
    WatchSame(keys, target, p, a, x, 1);
    WatchSame(keys, target, p, b, x, 0);
  }

  lemma {:induction false} MissOne(keys: nat, target: Option<nat>, p: real, v: View, n: nat)
    requires v.at.AtKey? && v.at.key < keys
    ensures Watch(keys, target, p, v, Same(NOTHING_THERE, n + 2))
         == Watch(keys, target, p, v.(at := AtKey(v.at.key + 1), polls := v.polls + 1), Same(NOTHING_THERE, n))
  {
    WatchSame(keys, target, p, v, NOTHING_THERE, n + 1);
    WatchSame(keys, target, p, Advance(keys, target, v, NOTHING_THERE), NOTHING_THERE, n);
  }

  lemma {:induction false} MissLast(keys: nat, target: Option<nat>, p: real, v: View)
    requires v.at == AtKey(keys)
    ensures var s := Watch(keys, target, p, v, Same(NOTHING_THERE, 2));
            s.end.at == AtTop && s.outcomes == [false] && s.pauses == [Some(p)]
  {
    WatchSame(keys, target, p, v, NOTHING_THERE, 1);
    WatchSame(keys, target, p, Advance(keys, target, v, NOTHING_THERE), NOTHING_THERE, 0);
  }

  lemma {:induction false} MissFrom(keys: nat, target: Option<nat>, p: real, v: View, i: nat)
    requires v.at == AtKey(i) && i <= keys
    ensures var s := Watch(keys, target, p, v, Same(NOTHING_THERE, 2 * (keys - i) + 2));
            s.end.at == AtTop && s.outcomes == [false] && s.pauses == [Some(p)]
    decreases keys - i
  {
    if i < keys {
      MissOne(keys, target, p, v, 2 * (keys - i));
      MissFrom(keys, target, p, v.(at := AtKey(i + 1), polls := v.polls + 1), i + 1);
    } else {
      MissLast(keys, target, p, v);
    }
  }

  lemma {:induction false} MissPass(keys: nat, target: Option<nat>, p: real, v: View)
    requires v.at == AtTop
    ensures var s := Watch(keys, target, p, v, Same(NOTHING_THERE, 2 * keys + 3));
            s.end.at == AtTop && s.outcomes == [false] && s.pauses == [Some(p)]
  {
    WatchSame(keys, target, p, v, NOTHING_THERE, 2 * keys + 2);
    MissFrom(keys, target, p, Advance(keys, target, v, NOTHING_THERE), 0);
  }

  /** What the world shows the worker in a pass with this outcome. */
  function PassTape(keys: nat, outcome: bool): seq<Input> {
    if outcome then Same(JOB_ARRIVES, 6) else Same(NOTHING_THERE, 2 * keys + 3)
  }

  lemma OnePass(keys: nat, target: Option<nat>, p: real, v: View, outcome: bool)
    requires v.at == AtTop && keys > 0
    ensures var s := Watch(keys, target, p, v, PassTape(keys, outcome));
            s.end.at == AtTop && s.outcomes == [outcome] && s.pauses == [if outcome then None else Some(p)]
  {
    if outcome {
      HitPass(keys, target, p, v);
    } else {
      MissPass(keys, target, p, v);
    }
  }

  lemma {:induction false} AnyHistory(keys: nat, target: Option<nat>, p: real, v: View, outcomes: seq<bool>)
    returns (tape: seq<Input>)
    requires v.at == AtTop && keys > 0
    ensures var s := Watch(keys, target, p, v, tape);
            s.end.at == AtTop && s.outcomes == outcomes && s.pauses == Fixed(p, outcomes)
    decreases outcomes
  {
    if outcomes == [] {
      tape := [];
    } else {
      var outcome, later := outcomes[0], outcomes[1..];
      var pass := PassTape(keys, outcome);
      OnePass(keys, target, p, v, outcome);
      var rest := AnyHistory(keys, target, p, Watch(keys, target, p, v, pass).end, later);
      WatchConcat(keys, target, p, v, pass, rest);
      FixedFirst(p, outcome, later);
      assert outcomes == [outcome] + later;
      tape := pass + rest;
    }
  }

  // ---- The worker is the documented loop, exactly when that collapses -------------------------------

  /** On every tape the worker pauses as the documented loop does on the same hits and misses. */
  ghost predicate PausesLike(c: Settings, keys: nat, target: Option<nat>, p: real, v: View) {
    forall tape :: Watch(keys, target, p, v, tape).pauses
                   <= ScheduleFrom(c, c.start, Watch(keys, target, p, v, tape).outcomes)
  }

  lemma {:induction false} ScheduleLength(c: Settings, interval: real, outcomes: seq<bool>)
    ensures |ScheduleFrom(c, interval, outcomes)| <= |outcomes|
    decreases outcomes
  {
    if outcomes == [] {
    } else {
      ScheduleLength(c, if outcomes[0] then c.min else Next(c, interval), outcomes[1..]);
    }
  }

  /**
    The claim of src/worker.rs, exactly: a worker with interval `p` pauses as `Worker#work`
    does, on every tape, if and only if the settings of `Worker#work` collapse to `p`.
    */
  lemma {:induction false} WorkerIsResqueExactlyWhenCollapsed(c: Settings, keys: nat, target: Option<nat>, p: real, v: View)
    requires v.at == AtTop && keys > 0
    ensures PausesLike(c, keys, target, p, v) <==> Collapses(c, p)
  {
    if Collapses(c, p) {
      forall tape ensures Watch(keys, target, p, v, tape).pauses
                          <= ScheduleFrom(c, c.start, Watch(keys, target, p, v, tape).outcomes) {
        SleepsAfterMissesOnly(keys, target, p, v, tape);
        CollapsedSchedule(c, p, c.start, Watch(keys, target, p, v, tape).outcomes);
      }
    }
    if PausesLike(c, keys, target, p, v) {
      forall outcomes ensures ScheduleFrom(c, c.start, outcomes) == Fixed(p, outcomes) {
        var tape := AnyHistory(keys, target, p, v, outcomes);
        assert Watch(keys, target, p, v, tape).pauses == Fixed(p, outcomes);
        ScheduleLength(c, c.start, outcomes);
      }
      FixedExactlyWhenCollapsed(c, p);
    }
  }
}
