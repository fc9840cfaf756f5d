/** The server's lists and the producer of src/producer.rs. */
module Producer {
  import opened Basics
  import opened Fleet
  import opened FleetLatency
  import FleetOrder

  newtype u64 = x: int | 0 <= x < 0x1_0000_0000_0000_0000

  const BATCH_SIZE: u64 := 1000

  type Lists = map<string, seq<Job>>

  datatype Db = Db(lists: Lists, registry: set<string>)

  datatype Command = Del(key: string) | Srem(member: string) | Sadd(member: string) | Rpush(key: string, job: Job)

  function Key(queue: string): string { "queue:" + queue }

  function ListAt(lists: Lists, key: string): seq<Job> {
    if key in lists then lists[key] else []
  }

  function Apply(db: Db, c: Command): Db {
    match c
    case Del(key) => db.(lists := db.lists - {key})
    case Srem(member) => db.(registry := db.registry - {member})
    case Sadd(member) => db.(registry := db.registry + {member})
    case Rpush(key, job) => db.(lists := db.lists[key := ListAt(db.lists, key) + [job]])
  }

  function ApplyAll(db: Db, pipe: seq<Command>): Db {
    if pipe == [] then db else Apply(ApplyAll(db, pipe[..|pipe| - 1]), pipe[|pipe| - 1])
  }

  lemma ApplyOneMore(db: Db, pipe: seq<Command>, c: Command)
    ensures ApplyAll(db, pipe + [c]) == Apply(ApplyAll(db, pipe), c)
  {
    assert (pipe + [c])[..|pipe|] == pipe;
  }

  /** The job the producer makes for index `i`, stamped by `clock`. */
  function NewJob(i: nat, clock: nat -> nat): Job {
    Job(i, Stamped(clock(i)))
  }

  /** The plain specification of enqueueing: job i goes to queue i mod N, in order. */
  function RoundRobin(db: Db, queues: seq<string>, clock: nat -> nat, n: nat): Db
    requires |queues| > 0 || n == 0
  {
    if n == 0 then db
    else Apply(RoundRobin(db, queues, clock, n - 1), Rpush(Key(queues[(n - 1) % |queues|]), NewJob(n - 1, clock)))
  }

  lemma OneRoundMore(db: Db, queues: seq<string>, clock: nat -> nat, n: nat)
    requires |queues| > 0
    ensures RoundRobin(db, queues, clock, n + 1)
         == Apply(RoundRobin(db, queues, clock, n), Rpush(Key(queues[n % |queues|]), NewJob(n, clock)))
  {
  }

  function Names(queues: seq<string>): set<string> { set q | q in queues }

  function KeysOf(queues: seq<string>): set<string> { set q | q in queues :: Key(q) }

  /** The lists a worker scans, in priority order. */
  function Scanned(lists: Lists, queues: seq<string>): (r: seq<seq<Job>>)
    ensures |r| == |queues|
  {
    seq(|queues|, j requires 0 <= j < |queues| => ListAt(lists, Key(queues[j])))
  }

  class Redis {
    var lists: Lists
    var registry: set<string>

    constructor ()
      ensures lists == map[] && registry == {}
    {
      lists, registry := map[], {};
    }

    function Contents(): Db
      reads this
    {
      Db(lists, registry)
    }

    /** The server runs the commands of a pipeline in order. */
    method Execute(pipe: seq<Command>)
      modifies this
      ensures Contents() == ApplyAll(old(Contents()), pipe)
    {
      var i := 0;
      while i < |pipe|
        invariant 0 <= i <= |pipe| && Contents() == ApplyAll(old(Contents()), pipe[..i])
      {
        ApplyOneMore(old(Contents()), pipe[..i], pipe[i]);
        assert pipe[..i + 1] == pipe[..i] + [pipe[i]];
        match pipe[i] {
          case Del(key) => lists := lists - {key};
          case Srem(member) => registry := registry - {member};
          case Sadd(member) => registry := registry + {member};
          case Rpush(key, job) => lists := lists[key := ListAt(lists, key) + [job]];
        }
        i := i + 1;
      }
      assert pipe[..i] == pipe;
    }

    /** Deletes exactly the benchmark's lists and registrations. */
    method ClearQueue(queues: seq<string>)
      modifies this
      ensures lists == old(lists) - KeysOf(queues)
      ensures registry == old(registry) - Names(queues)
    {
      ghost var db0 := Contents();
      var pipe: seq<Command> := [];
      var i := 0;
      while i < |queues|
        invariant 0 <= i <= |queues| && Contents() == db0
        invariant ApplyAll(db0, pipe)
               == Db(db0.lists - KeysOf(queues[..i]), db0.registry - Names(queues[..i]))
      {
        ApplyOneMore(db0, pipe, Del(Key(queues[i])));
        pipe := pipe + [Del(Key(queues[i]))];
        ApplyOneMore(db0, pipe, Srem(queues[i]));
        pipe := pipe + [Srem(queues[i])];
        assert queues[..i + 1] == queues[..i] + [queues[i]];
        assert KeysOf(queues[..i + 1]) == KeysOf(queues[..i]) + {Key(queues[i])};
        assert Names(queues[..i + 1]) == Names(queues[..i]) + {queues[i]};
        i := i + 1;
      }
      assert queues[..i] == queues;
      Execute(pipe);
    }

    /** FLUSHDB. */
    method FlushDb()
      modifies this
      ensures lists == map[] && registry == {}
    {
      lists, registry := map[], {};
    }

    /** The sum of the lengths of all scanned lists. */
    method TotalQueueLen(queues: seq<string>) returns (total: nat)
      ensures total == |Flatten(Scanned(lists, queues))|
    {
      var f := (xs: seq<Job>) => |xs|;
      total := 0;
      var i := 0;
      while i < |queues|
        invariant 0 <= i <= |queues| && total == Total(f, Scanned(lists, queues)[..i])
      {
        var llen := |ListAt(lists, Key(queues[i]))|;
        TotalAppend(f, Scanned(lists, queues)[..i], Scanned(lists, queues)[i]);
        assert Scanned(lists, queues)[..i + 1] == Scanned(lists, queues)[..i] + [Scanned(lists, queues)[i]];
        total := total + llen;
        i := i + 1;
      }
      assert Scanned(lists, queues)[..i] == Scanned(lists, queues);
      FlattenLength(Scanned(lists, queues));
    }

    /** One pipeline of pushes, for the job indices `idx` to `idx + batch`. */
    method BuildBatch(queues: seq<string>, idx: u64, batch: u64, clock: nat -> nat, ghost db0: Db)
      returns (pipe: seq<Command>)
      requires 0 < |queues| < 0x1_0000_0000_0000_0000
      requires idx as nat + batch as nat < 0x1_0000_0000_0000_0000
      requires Contents() == RoundRobin(db0, queues, clock, idx as nat)
      ensures ApplyAll(Contents(), pipe) == RoundRobin(db0, queues, clock, idx as nat + batch as nat)
    {
      var nQueues := |queues| as u64;
      pipe := [];
      var j: u64 := 0;
      while j < batch
        invariant j <= batch
        invariant ApplyAll(Contents(), pipe) == RoundRobin(db0, queues, clock, idx as nat + j as nat)
      {
        ghost var n := (idx + j) as nat;
        var queue := queues[((idx + j) % nQueues) as int];
        var push := Rpush(Key(queue), NewJob((idx + j) as nat, clock));
        assert queue == queues[n % |queues|];
        ApplyOneMore(Contents(), pipe, push);
        OneRoundMore(db0, queues, clock, n);
        pipe := pipe + [push];
        j := j + 1;
      }
    }

    /**
      Batched enqueueing is plain round robin: batch boundaries do not disturb the phase.
      (The index arithmetic is on u64, so nothing in it overflows.)
      */
    method BulkEnqueue(queues: seq<string>, nJobs: u64, clock: nat -> nat)
      requires 0 < |queues| < 0x1_0000_0000_0000_0000 || nJobs == 0
      modifies this
      ensures lists == RoundRobin(old(Contents()), queues, clock, nJobs as nat).lists
      ensures registry == old(registry) + Names(queues)
    {
      Register(queues);
      ghost var db0 := Contents();
      var idx: u64 := 0;
      var remaining: u64 := nJobs;
      while remaining > 0
        invariant idx as nat + remaining as nat == nJobs as nat
        invariant Contents() == RoundRobin(db0, queues, clock, idx as nat)
      {
        var batch := if remaining < BATCH_SIZE then remaining else BATCH_SIZE;
        var pipe := BuildBatch(queues, idx, batch, clock, db0);
        Execute(pipe);
        idx := idx + batch;
        remaining := remaining - batch;
      }
      RoundRobinIgnoresRegistry(old(Contents()), db0, queues, clock, nJobs as nat);
    }

    method Register(queues: seq<string>)
      modifies this
      ensures lists == old(lists) && registry == old(registry) + Names(queues)
    {
      ghost var db0 := Contents();
      var pipe: seq<Command> := [];
      var i := 0;
      while i < |queues|
        invariant 0 <= i <= |queues| && Contents() == db0
        invariant ApplyAll(db0, pipe) == Db(db0.lists, db0.registry + Names(queues[..i]))
      {
        ApplyOneMore(db0, pipe, Sadd(queues[i]));
        pipe := pipe + [Sadd(queues[i])];
        assert queues[..i + 1] == queues[..i] + [queues[i]];
        assert Names(queues[..i + 1]) == Names(queues[..i]) + {queues[i]};
        i := i + 1;
      }
      assert queues[..i] == queues;
      Execute(pipe);
    }
  }

  lemma {:induction false} RoundRobinIgnoresRegistry(a: Db, b: Db, queues: seq<string>, clock: nat -> nat, n: nat)
    requires a.lists == b.lists && (|queues| > 0 || n == 0)
    ensures RoundRobin(a, queues, clock, n).lists == RoundRobin(b, queues, clock, n).lists
    ensures RoundRobin(b, queues, clock, n).registry == b.registry
  {
    if n == 0 {
    } else {
      RoundRobinIgnoresRegistry(a, b, queues, clock, n - 1);
    }
  }

  // ---- What round robin puts where ------------------------------------------------

  /** The jobs among the first `n` that go to queue `j` of `width`. */
  function Stride(j: nat, width: nat, clock: nat -> nat, n: nat): seq<Job>
    requires width > 0
  {
    if n == 0 then []
    else Stride(j, width, clock, n - 1) + (if (n - 1) % width == j then [NewJob(n - 1, clock)] else [])
  }

  function Strides(width: nat, clock: nat -> nat, n: nat): (r: seq<seq<Job>>)
    requires width > 0
    ensures |r| == width
  {
    seq(width, j requires 0 <= j < width => Stride(j, width, clock, n))
  }

  /** A queue's list is `queue:<name>`. */
  lemma KeyIsPrefixed(queue: string)
    ensures |Key(queue)| == 6 + |queue| && Key(queue)[..6] == "queue:" && Key(queue)[6..] == queue
  {
  }

  lemma KeyInjective(p: string, q: string)
    requires Key(p) == Key(q)
    ensures p == q
  {
    assert Key(p)[6..] == p && Key(q)[6..] == q;
  }

  lemma {:induction false} NextRound(db: Db, queues: seq<string>, clock: nat -> nat, n: nat, key: string)
    requires |queues| > 0
    ensures ListAt(RoundRobin(db, queues, clock, n + 1).lists, key)
         == ListAt(RoundRobin(db, queues, clock, n).lists, key)
            + (if key == Key(queues[n % |queues|]) then [NewJob(n, clock)] else [])
  {
  }

  ghost predicate HoldsStride(db: Db, queues: seq<string>, clock: nat -> nat, n: nat, j: nat)
    requires j < |queues|
  {
    ListAt(RoundRobin(db, queues, clock, n).lists, Key(queues[j]))
      == ListAt(db.lists, Key(queues[j])) + Stride(j, |queues|, clock, n)
  }

  lemma {:induction false} NextStride(db: Db, queues: seq<string>, clock: nat -> nat, n: nat, j: nat)
    requires j < |queues| && Distinct(queues) && HoldsStride(db, queues, clock, n, j)
    ensures HoldsStride(db, queues, clock, n + 1, j)
  {
    var at := n % |queues|;
    if Key(queues[j]) == Key(queues[at]) {
      KeyInjective(queues[j], queues[at]);
    }
    NextRound(db, queues, clock, n, Key(queues[j]));
  }

  lemma {:induction false} StrideArrives(db: Db, queues: seq<string>, clock: nat -> nat, n: nat, j: nat)
    requires j < |queues| && Distinct(queues)
    ensures HoldsStride(db, queues, clock, n, j)
  {
    if n == 0 {
    } else {
      StrideArrives(db, queues, clock, n - 1, j);
      NextStride(db, queues, clock, n - 1, j);
    }
  }

  lemma {:induction false} OtherListsStay(db: Db, queues: seq<string>, clock: nat -> nat, n: nat, key: string)
    requires |queues| > 0 && key !in KeysOf(queues)
    ensures ListAt(RoundRobin(db, queues, clock, n).lists, key) == ListAt(db.lists, key)
  {
    if n == 0 {
    } else {
      OtherListsStay(db, queues, clock, n - 1, key);
      NextRound(db, queues, clock, n - 1, key);
    }
  }

  /** Round robin appends stride j to queue j and touches no other list. */
  lemma RoundRobinStrides(db: Db, queues: seq<string>, clock: nat -> nat, n: nat)
    requires |queues| > 0 && Distinct(queues)
    ensures forall j :: 0 <= j < |queues| ==> HoldsStride(db, queues, clock, n, j)
    ensures forall key :: key !in KeysOf(queues) ==>
              ListAt(RoundRobin(db, queues, clock, n).lists, key) == ListAt(db.lists, key)
  {
    forall j | 0 <= j < |queues| ensures HoldsStride(db, queues, clock, n, j) {
      StrideArrives(db, queues, clock, n, j);
    }
    forall key | key !in KeysOf(queues)
      ensures ListAt(RoundRobin(db, queues, clock, n).lists, key) == ListAt(db.lists, key)
    {
      OtherListsStay(db, queues, clock, n, key);
    }
  }

  lemma NextIndex(j: nat, width: nat, m: nat, n: nat)
    requires j < width && n <= j + m * width < n + width
    ensures n % width == j <==> n == j + m * width
  {
    var q, r := n / width, n % width;
    assert n == q * width + r;
    if r == j && q != m {
      if q < m { MulGap(q, m, width); } else { MulGap(m, q, width); }
    }
    if n == j + m * width && q != m {
      if q < m { MulGap(q, m, width); } else { MulGap(m, q, width); }
    }
  }

  /**
    Queue j receives exactly the jobs j, j + N, j + 2N, ... below n, in that order, each with
    its index and the time at which it was made; there
    are ceil((n - j) / N) of them, the m with n <= j + m N < n + N.
    */
  lemma {:induction false} StrideMeans(j: nat, width: nat, clock: nat -> nat, n: nat)
    requires j < width
    ensures var s := Stride(j, width, clock, n);
            && n <= j + |s| * width < n + width
            && forall k :: 0 <= k < |s| ==> s[k] == Job(j + k * width, Stamped(clock(j + k * width)))
  {
    if n == 0 {
    } else {
      StrideMeans(j, width, clock, n - 1);
      var m := |Stride(j, width, clock, n - 1)|;
      NextIndex(j, width, m, n - 1);
      assert (m + 1) * width == m * width + width;
    }
  }

  /** Queue lengths differ by at most one. */
  lemma StridesAreBalanced(i: nat, j: nat, width: nat, clock: nat -> nat, n: nat)
    requires i < width && j < width
    ensures |Stride(i, width, clock, n)| <= |Stride(j, width, clock, n)| + 1
  {
    StrideMeans(i, width, clock, n);
    StrideMeans(j, width, clock, n);
    var a, b := |Stride(i, width, clock, n)|, |Stride(j, width, clock, n)|;
    if a > b + 1 {
      assert (b + 1) * width == b * width + width;
      MulGap(b + 1, a, width);
    }
  }

  /** All jobs, in the order they were made. */
  function AllJobs(clock: nat -> nat, n: nat): (r: seq<Job>)
    ensures |r| == n
    ensures forall i :: 0 <= i < n ==> r[i] == NewJob(i, clock)
  {
    if n == 0 then [] else AllJobs(clock, n - 1) + [NewJob(n - 1, clock)]
  }

  lemma StridesStep(width: nat, clock: nat -> nat, n: nat)
    requires width > 0
    ensures var at := n % width; var before := Strides(width, clock, n);
            Strides(width, clock, n + 1) == before[at := before[at] + [NewJob(n, clock)]]
  {
    var at, before, after := n % width, Strides(width, clock, n), Strides(width, clock, n + 1);
    forall j | 0 <= j < width ensures after[j] == before[at := before[at] + [NewJob(n, clock)]][j] {
      assert after[j] == before[j] + (if n % width == j then [NewJob(n, clock)] else []);
    }
  }

  /** Every job of a fresh backlog carries its timestamp ... */
  lemma StridesAreStamped(width: nat, clock: nat -> nat, n: nat)
    requires width > 0
    ensures AllStamped(Strides(width, clock, n))
  {
    var lists: seq<seq<Job>> := Strides(width, clock, n);
    forall j: nat, k: nat | j < width && k < |lists[j]| ensures lists[j][k].payload.Stamped? {
      StrideMeans(j, width, clock, n);
    }
  }

  /** ... so that whatever a fleet does with it, all its errors are failed LPOPs. */
  lemma FreshBacklogHasNoBadPayloads(width: nat, clock: nat -> nat, n: nat, workers: nat, target: Option<nat>,
                                     orphans: seq<nat>, acts: seq<Action>)
    requires width > 0 && forall k :: 0 <= k < |orphans| ==> orphans[k] < width
    ensures var s := Exec(Boot(Strides(width, clock, n), workers, target, orphans), acts);
            s.sh.past.badPayloads == 0 && s.sh.errors == s.sh.past.lpopErrors
  {
    StridesAreStamped(width, clock, n);
    StampedJobsAreNoErrors(Strides(width, clock, n), workers, target, orphans, acts);
  }

  /** Together the strides hold every job once. */
  lemma {:induction false} StridesHoldEveryJob(width: nat, clock: nat -> nat, n: nat)
    requires width > 0
    ensures multiset(Flatten(Strides(width, clock, n))) == multiset(AllJobs(clock, n))
  {
    if n == 0 {
      FlattenEmpty(Strides(width, clock, 0));
    } else {
      StridesHoldEveryJob(width, clock, n - 1);
      StridesStep(width, clock, n - 1);
      FlattenPush(Strides(width, clock, n - 1), (n - 1) % width, NewJob(n - 1, clock));
    }
  }

  /** So the lengths sum to the number of jobs. */
  lemma StridesSumToAll(width: nat, clock: nat -> nat, n: nat)
    requires width > 0
    ensures |Flatten(Strides(width, clock, n))| == n
  {
    StridesHoldEveryJob(width, clock, n);
    assert |multiset(Flatten(Strides(width, clock, n)))| == |multiset(AllJobs(clock, n))|;
  }

  /** Enqueueing into empty lists leaves exactly the strides. */
  lemma {:induction false} FreshBacklog(db: Db, queues: seq<string>, clock: nat -> nat, n: nat)
    requires |queues| > 0 && Distinct(queues)
    requires forall q :: q in queues ==> ListAt(db.lists, Key(q)) == []
    ensures Scanned(RoundRobin(db, queues, clock, n).lists, queues) == Strides(|queues|, clock, n)
  {
    RoundRobinStrides(db, queues, clock, n);
    var lists := RoundRobin(db, queues, clock, n).lists;
    forall j | 0 <= j < |queues| ensures Scanned(lists, queues)[j] == Strides(|queues|, clock, n)[j] {
      assert HoldsStride(db, queues, clock, n, j);
      assert queues[j] in queues;
      assert [] + Stride(j, |queues|, clock, n) == Stride(j, |queues|, clock, n);
    }
  }

  // ---- The order in which a fleet drains what the producer pushed ------------------------

  /** Where list `j` begins in the concatenation. */
  lemma {:induction false} FlattenAt<T>(xss: seq<seq<T>>, j: nat, k: nat)
    requires j < |xss| && k < |xss[j]|
    ensures |Flatten(xss[..j])| + k < |Flatten(xss)| && Flatten(xss)[|Flatten(xss[..j])| + k] == xss[j][k]
  {
    if j == 0 {
    } else {
      FlattenAt(xss[1..], j - 1, k);
      assert xss[..j][1..] == xss[1..][..j - 1];
    }
  }

  /**
    A freshly enqueued backlog is handed out in strides: all of queue 0 (jobs 0, N, 2N, ...),
    then all of queue 1 (1, N + 1, ...), and so on - by any number of workers in any
    interleaving, as far as they get, in every run that keeps the order.
    */
  lemma BacklogDrainsInStrides(width: nat, clock: nat -> nat, n: nat, workers: nat, target: Option<nat>,
                               orphans: seq<nat>, acts: seq<Action>, j: nat, k: nat)
    requires width > 0 && FleetOrder.KeepsOrder(Strides(width, clock, n), workers, target, orphans, acts)
    requires j < width && k < |Stride(j, width, clock, n)|
    ensures var popped := Exec(Boot(Strides(width, clock, n), workers, target, orphans), acts).sh.past.popped;
            var at := |Flatten(Strides(width, clock, n)[..j])| + k;
            at < |popped| ==> popped[at] == Job(j + k * width, Stamped(clock(j + k * width)))
  {
    var lists := Strides(width, clock, n);
    FleetOrder.DrainIsGloballyOrdered(lists, workers, target, orphans, acts);
    FlattenAt(lists, j, k);
    StrideMeans(j, width, clock, n);
    var s := Exec(Boot(lists, workers, target, orphans), acts);
    PrefixAt(s.sh.past.popped, Flatten(s.sh.queues), |Flatten(lists[..j])| + k);
  }

  lemma PrefixAt<T>(xs: seq<T>, ys: seq<T>, at: nat)
    ensures at < |xs| ==> (xs + ys)[at] == xs[at]
  {
  }

  lemma StridesInOneList(width: nat, clock: nat -> nat, n: nat)
    requires width > 0
    ensures FleetOrder.InOneList(Strides(width, clock, n)) <==> width == 1 || n <= 1
  {
    var lists := Strides(width, clock, n);
    if width > 1 && n > 1 {
      StrideMeans(0, width, clock, n);
      StrideMeans(1, width, clock, n);
      assert lists[0] != [] && lists[1] != [];
    } else if n == 1 {
      forall j | 0 < j < width ensures lists[j] == [] {
        assert Stride(j, width, clock, 0) == [] && 0 % width != j;
      }
    }
  }

  /** With several queues and jobs some LPOP errors upset the order of a fresh backlog; otherwise none can. */
  lemma StridesOrderedWhateverFails(width: nat, clock: nat -> nat, n: nat, workers: nat, target: Option<nat>, orphans: seq<nat>)
    requires width > 0 && workers > 0
    ensures FleetOrder.AlwaysOrdered(Strides(width, clock, n), workers, target, orphans) <==> width == 1 || n <= 1
  {
    StridesInOneList(width, clock, n);
    StridesHoldEveryJob(width, clock, n);
    DistinctShuffle(Flatten(Strides(width, clock, n)), AllJobs(clock, n));
    FleetOrder.OrderedWhateverFails(Strides(width, clock, n), workers, target, orphans);
  }
}
