# The resque-bench fleet, verified

resque-bench measures how a fleet of Resque-style poll workers drains a backlog of jobs
from Redis lists, and how hard the same fleet polls once the lists are empty. This project
models the parts of it that have to agree with each other while running concurrently, and
proves what its numbers mean.

| file | what it models |
|---|---|
| `Fleet.dfy` | W workers, N lists in priority order, the counters, the latency channel, `done` and `shutdown`, as a step system: `Move` is one step of `PollWorker::run`, `Environment` one of the server or of `main`, `Step` either of them, `Exec` a run |
| `FleetLedger.dfy` | what every step keeps: job conservation, poll and error accounting, the meaning of `done` |
| `FleetOrder.dfy` | the order in which the fleet empties the lists |
| `FleetDrain.dfy` | termination of the drain under every fair schedule |
| `FleetShutdown.dfy` | what a fleet can still do after the shutdown |
| `FleetLatency.dfy` | which latencies a run sends, what raises `done`, and drains of jobs that carry timestamps |
| `PollWorker.dfy` | `Metrics` and the worker loop as classes and loops, tied to the step system in both directions |
| `Producer.dfy` | the server's lists and the batching producer, as a class |
| `Sampling.dfy` | the latency collector with its trial histogram and resettable window |
| `Trial.dfy` | `run_drain_trial`: fleet, collector, monitor and orchestrator, interleaved |
| `TrialTasks.dfy` | what every step of every task keeps |
| `TrialReport.dfy` | what a trial reports: final numbers, sample series, latency series |
| `TrialReturns.dfy` | that it returns, under every fair schedule of its tasks |
| `Session.dfy` | the per-trial loop of `main`: clear, enqueue, drain, length check, idle phase or skip |
| `IdleRate.dfy` | the idle fleet in discrete time |
| `Backoff.dfy` | Resque's documented backoff loop and when it has a fixed interval |
| `WorkerBackoff.dfy` | the sleeps of the worker loop itself against that loop |
| `Percentile.dfy`, `Decimal.dfy` | percentile specs, thousands separators, queue names |
| `Basics.dfy` | options, sums over a fleet, concatenation of lists |

How to read the step system:

- A step that is not enabled leaves the state as it is. So every sequence of actions is a
  run, every run of the program is one of them, and a statement about `Exec(s, acts)` for
  all `acts` is a statement about every interleaving. The numbers of workers, lists and
  jobs are arbitrary.
- A poll is counted before its LPOP is issued. The server executes the LPOP in a step of its
  own, so a reply can be lost on its way (`Fail` or `Abort` while `Served`), and an LPOP
  whose client has given up may still be executed later (`orphans`). Recording, counting and
  signalling are separate steps.
- An abort takes effect only where a task awaits something: an LPOP in flight or the sleep.
  Three things are more liberal than the runtime: a task can also be aborted before its first
  step, an aborted task may go on for a while before the abort takes effect, and an aborted
  monitor may still take the reply it awaits. It begins no further tick, since a second of
  sleep is never over at once.
- Fields under `past`, a result's `drained`, the collector's `taken` and `ignored`, the monitor's `recorded` and the
  report's `copied` are history: no code reads them.
- `PollWorker.Worker.Run` is driven by a tape of what the world shows the worker; it ends
  where the tape does, at whatever point the loop has then reached.

## What the code does that its documentation does not say

- A failed LPOP on a list that still has jobs makes the worker go on to lower-priority lists
  (src/worker.rs:82-85), or even to sleep on a backlog. In a given run, the order is kept as
  long as LPOPs fail only at empty lists (`DrainIsGloballyOrdered`, `OrderedStep`). In every
  run, whatever fails, it is kept exactly for a backlog in at most one list
  (`OrderedWhateverFails`): with the default single queue always, with several queues and
  more than one job never (`StridesOrderedWhateverFails`). No backlog at all is safe from
  being slept on (`AnLpopErrorSleepsOnBacklog`).
- `run_drain_trial` copies the sample series without waiting for the monitor it has just
  aborted (src/main.rs:559-579), and the monitor pushes its two samples one after the other.
  Either series can be reported with a sample that the other lacks (`TheCopiesCanDiffer`),
  never with more (`ReportIsConsistent`). As the copying begins, the two are bound to come out
  equally long exactly when the monitor is not in the middle of a tick: neither between its
  two pushes nor still before the first of them (`CopiesAgreeExactly`).
- src/main.rs:428-433 promises that entry i of a latency series belongs to the samples of tick
  i. Windows and throughput samples are of the same ticks, but for the last one
  (`WindowsAreOfTheSameTicks`). By index a series is aligned exactly for a percentile name
  that the specs have once (`AlignedExactlyWhenNamedOnce`): for `p99,p99` it is out of step
  from the first recorded window on, and entry i belongs to tick i / 2
  (`EntriesAreOfTheirTicks`).
- "p+5" is an accepted spec, because Rust's integer parser takes a leading plus, but the plus
  counts as a digit: it denotes 0.05 where "p5" denotes 0.5 (`PlusSignShiftsTheQuantile`).
  The length limit makes the overflow check of the power unreachable, and the bound `q <= 1`
  is never attained: every accepted quantile lies strictly below 1 (`AcceptedSpecs`).
- src/metrics.rs:17-20 says that in the idle phase every poll is a miss. Failed and aborted
  LPOPs are polls too (`AFailedPollIsNoMiss`, `AnAbortedPollIsNoMiss`); the claim holds exactly while no LPOP fails and
  none stays unanswered (`IdlePollsAreMisses`).
- README.md:326-328 promises that the idle rate is exactly workers * 1000 / interval for one
  list. It is so up to one pass per worker and the time a pass takes: `IdlePollsAtMost` and
  `IdlePollsAtLeast` are the two bounds, and `IdlePollsReachTheBound` is a run that makes as
  many polls as the upper one, which is more than promised.
- `join_workers` does not wait for the workers it aborts (src/main.rs:404-419). A drain trial
  waits for them all the same, through the latency channel (`FinalNumbersBalance`); an idle
  phase does not. The polls it reads (src/main.rs:678) are final exactly when no worker is
  left in a pass with lists still to poll (`IdleCountIsFinalExactly`), and its workers may
  still have polls in flight when the next trial begins. `Session` carries those along as
  `stragglers` and `orphans`.

## Model

| member | source | states |
|---|---|---|
| Fleet.LatencyUs | src/worker.rs:122-132 | the recorded latency is the elapsed time rounded down to microseconds, and 1 where that is 0 or the clock ran backwards |
| FleetLedger.LedgerStep | src/worker.rs:64-111 | every step of a worker, the server or `main`, failures and aborts included, keeps the whole ledger: polls, counters, jobs and the announcement of `done` |
| FleetLedger.CopiesStep | src/worker.rs:69-97 | no step changes how many copies of any one job exist among queued, riding in a reply, held, counted and lost |
| FleetLedger.JobsAreConserved | src/worker.rs:69-97 | in every reachable state every pushed job is in exactly one of those places; losses and orphaned LPOPs are at most failed LPOPs plus aborted workers plus inherited orphans |
| FleetOrder.AnLpopErrorCanLoseAJob | src/worker.rs:82-85 | the loss bound is real: one failed LPOP loses a job, with the reply or to an LPOP executed after its worker has given it up |
| FleetLedger.PollsAreExact | src/worker.rs:69-87 | polls = sum of (j+1) over hits at list j + N per missed pass + unfinished passes, and also = hits + misses + LPOP errors + unanswered; errors = LPOP errors + bad payloads |
| FleetLedger.DoneIsExact | src/main.rs:905-910 | `done` implies all jobs counted, all lists empty, nothing lost, nothing on its way or in a worker's hands; all jobs counted implies that `done` is set or its one drawer is about to set it; never two drawers |
| FleetLedger.DrawsAreConsecutive | src/metrics.rs:35-39 | along any run the completion numbers handed out are consecutive, so each is drawn exactly once |
| FleetLatency.LatenciesAreOfTheJobs | src/worker.rs:113-138 | along any run the channel receives, in order, the elapsed time of each job recorded with a timestamp, and every other job recorded is a bad payload |
| FleetLatency.DoneExactlyWhenReached | src/worker.rs:92-97 | along any run and for any target, `done` is up exactly when some completion number compared with the target reached it |
| FleetLatency.StampedJobsAreNoErrors | src/worker.rs:134-136 | if all queued jobs carry timestamps, all errors of every run are failed LPOPs |
| FleetOrder.OrderedStep | src/worker.rs:69-87 | the order invariant (a worker at list i implies the lists before i are empty; popped ++ queued is the original backlog) is kept by a step if and only if it is not a failing LPOP at a non-empty list |
| FleetOrder.ErrorFreeIsHarmless | src/worker.rs:82-85 | a run without LPOP errors has only harmless steps, from any state |
| FleetOrder.DrainIsGloballyOrdered | src/worker.rs:69-87 | for any number of workers and any interleaving, aborts, shutdown and stray LPOPs included, popped ++ remaining lists = list 0 ++ list 1 ++ ..., if LPOPs fail only at empty lists or the backlog is in one list |
| FleetOrder.OrderedWhateverFails | src/worker.rs:69-87 | of pairwise different jobs, every run pops a prefix of list 0 ++ list 1 ++ ... if and only if at most one list holds jobs |
| FleetOrder.NobodySleepsOnBacklog | src/worker.rs:101-108 | if LPOPs fail only at empty lists, nobody sleeps while any list holds a job |
| FleetOrder.AnLpopErrorBreaksTheOrder | src/worker.rs:82-85 | for every backlog in two or more lists there is a run of failed LPOPs that pops out of order |
| FleetOrder.AnLpopErrorSleepsOnBacklog | src/worker.rs:82-85 | in every run nobody sleeps on a backlog if and only if there is none: failed LPOPs put a worker to sleep on any other |
| FleetDrain.MoveAhead | src/worker.rs:64-109 | a worker's next step never increases the work outstanding; if it leaves it alone, no list changed and the worker got closer to polling every list |
| FleetDrain.BlockProgress | src/worker.rs:64-109 | any stretch of schedule in which every worker has a turn brings a lexicographic rank down while work is left |
| FleetDrain.EveryFairScheduleDrains | src/worker.rs:64-109 | after 5n(3N+2)+3N+1 such stretches, however interleaved, `done` is up, n jobs are counted and all lists are empty |
| FleetShutdown.MoveRunsDown | src/worker.rs:64-67 | after shutdown, every step of a worker brings its remaining steps down, its remaining polls pay for its polls, and it starts no pass |
| FleetShutdown.NobodyIsStuck | src/worker.rs:64-111 | a worker that is not gone can always move, so the budget is used up only by leaving |
| FleetShutdown.OvershootIsBounded | src/main.rs:561-564 | from any reachable state with shutdown set: no new pass, at most W*N polls, W completions and W(3N+5) steps more, and all workers gone once the budget is spent |
| FleetShutdown.EveryFairScheduleLeaves | src/worker.rs:64-111 | from any state in range with shutdown set, after 3N+5 stretches in each of which every worker has a turn, all workers are gone |
| FleetShutdown.PollsAreFinalExactly | src/worker.rs:69-87 | after shutdown no continuation makes another poll if and only if no worker has lists left to poll in its pass |
| FleetShutdown.GoneIsFinal | src/main.rs:566-570 | once all workers are gone, counters, channel and `done` never change again |
| PollWorker.Metrics.IncCompleted | src/metrics.rs:35-39 | returns the new value of the counter it advances by one |
| PollWorker.Worker.RecordJob | src/worker.rs:113-138 | a stamped job sends the time since its stamp and counts no error; any other counts one error and sends nothing |
| PollWorker.Worker.ScanKeys | src/worker.rs:69-87 | one pass over the lists, up to the first hit, does what the step machine does |
| PollWorker.Worker.FinishJob | src/worker.rs:89-100 | after a hit: record, count, signal, in that order and without an await |
| PollWorker.Worker.SleepOrReturn | src/worker.rs:101-108 | after a missed pass: sleep, unless the shutdown comes first |
| PollWorker.Worker.Run | src/worker.rs:55-111 | for every tape the loop ends at the point, counters, channel and flag that the step machine reaches |
| PollWorker.FleetStepIsRunStep | src/worker.rs:64-111 | a fleet worker's step is the step of that machine on what the worker sees |
| PollWorker.EveryMoveIsARunStep | src/worker.rs:64-111 | and the fleet has no others: any other step is invisible to the worker's loop or is the abort |
| Producer.Redis.Execute | src/producer.rs:79-79 | a pipeline takes effect command by command, in order |
| Producer.Redis.ClearQueue | src/producer.rs:8-19 | exactly the benchmark's lists and registrations are gone |
| Producer.Redis.FlushDb | src/producer.rs:22-25 | the server is empty |
| Producer.Redis.TotalQueueLen | src/producer.rs:31-41 | the number of jobs left in all scanned lists together |
| Producer.Redis.BuildBatch | src/producer.rs:68-77 | executing the batch takes the state of plain round robin at idx to that at idx + batch; the index fits u64 |
| Producer.Redis.BulkEnqueue | src/producer.rs:50-85 | for every n the batched loop leaves what plain round robin leaves, and registers every queue |
| Producer.RoundRobinStrides | src/producer.rs:71-77 | round robin appends to list j its stride, and touches no list that is not a benchmark's |
| Producer.StrideMeans | src/producer.rs:71-77 | the stride of j is the jobs j, j+N, j+2N, ... in order, each with its index and the time it was made; its length is the m with n <= j+mN < n+N |
| Producer.StridesAreBalanced | src/producer.rs:71-77 | list lengths differ by at most one |
| Producer.StridesHoldEveryJob | src/producer.rs:71-77 | together the lists hold every job once |
| Producer.StridesSumToAll | src/producer.rs:71-77 | the list lengths sum to n |
| Producer.FreshBacklog | src/main.rs:886-887 | enqueueing into cleared lists leaves exactly the strides |
| Producer.FreshBacklogHasNoBadPayloads | src/job.rs:26-44 | whatever a fleet does with a fresh backlog, it meets no bad payload, and all its errors are failed LPOPs |
| Producer.KeyIsPrefixed | src/producer.rs:14-14 | the list of a queue is its name after `queue:` |
| Producer.BacklogDrainsInStrides | src/worker.rs:69-87 | a fresh backlog leaves the server in the order 0, N, 2N, ..., 1, N+1, ..., whoever pops, in every run that keeps the order; with one queue that is every run |
| Producer.StridesOrderedWhateverFails | src/producer.rs:71-77 | a fresh backlog is drained in order in every run if and only if there is one queue or at most one job |
| Sampling.Histogram.Record | src/main.rs:446-448 | a value in range is added, any other silently ignored |
| Sampling.RunCollector | src/main.rs:436-460 | for every order of latencies and snapshot requests: the result is the trial histogram, the replies are the windows |
| Sampling.WindowsPartitionTheTrial | src/main.rs:428-460 | the trial is the disjoint union of all snapshots and the current window; every latency is in it or was out of range |
| Sampling.WindowsHoldTheirLatencies | src/main.rs:443-457 | the trial histogram holds every latency that fits, as often as it arrived; each snapshot holds those since the one before it, and the window those since the last |
| Sampling.WindowPeakWithinTrial | src/main.rs:453-456 | no window's maximum exceeds the trial's |
| Sampling.PushWindowAt | src/main.rs:513-524 | a recorded snapshot adds to the series of a name one entry for every spec of that name |
| TrialTasks.NextOk | src/main.rs:421-599 | every step of the fleet, the collector, the monitor and the orchestrator keeps all four tasks' invariants |
| TrialReport.FinalNumbersBalance | src/main.rs:563-570 | once the collector has seen its channel closed, all workers are gone, counters and histogram never change, the histogram holds exactly what was sent and fits, and histogram + out of range + bad payloads = completed, after timeouts and aborts too |
| TrialReport.CollectorIsTheLoop | src/main.rs:436-460 | in every interleaving the trial's collector is where the collector loop is after the same latencies and requests |
| TrialReport.HistogramHoldsSent | src/main.rs:443-449 | at every step the trial histogram holds the latencies received so far, value by value |
| TrialReport.TimedOutExactlyWhenGivenUp | src/main.rs:538-552 | a trial is reported as timed out if and only if its orchestrator gave up waiting for a drain with jobs |
| TrialReport.JoinWaitsForWorkers | src/main.rs:404-419 | past the join every worker has returned or has been told to abort |
| TrialReport.ReportIsConsistent | src/main.rs:538-599 | totals are the final counters, the sample series are beginnings of the monitor's, sum to at most the totals and differ in length by at most one, each latency series is its name's multiplicity of the first windows taken with at most one missing, and a trial with jobs that did not time out is done |
| TrialReport.SamplesTelescope | src/main.rs:493-536 | at every step: no underflow, samples sum to the counter last read, equal lengths at every await, each name's series is its multiplicity of the recorded windows, at most one snapshot taken is not recorded, and no window's maximum exceeds the trial's |
| TrialReport.WindowsAreOfTheSameTicks | src/main.rs:428-433 | until its abort the monitor has recorded one window per throughput sample but for the tick under way; ever after at most the last tick lacks its window |
| TrialReport.AlignedExactlyWhenNamedOnce | src/main.rs:428-433 | in every run the series of a name lists the recorded windows tick by tick, if and only if the specs have the name exactly once |
| TrialReport.EntriesAreOfTheirTicks | src/main.rs:513-524 | entry i of a name's series is the window of tick i / (how often the specs have the name) |
| TrialReport.CopiesAgreeExactly | src/main.rs:571-579 | as the copying begins, every continuation copies equally long series if and only if the monitor is in none of the four points of a tick up to its second push |
| TrialReport.TheCopiesCanDiffer | src/main.rs:559-579 | for any backlog one run reports a throughput sample and no error sample, and another an error sample and no throughput sample |
| TrialReturns.EveryFairTrialReturns | src/main.rs:538-599 | after 3N+n+17 stretches in each of which every worker, the collector and the orchestrator have a turn, whatever fails and whatever else happens, the trial has returned |
| TrialReturns.EveryTrialCanReturn | src/main.rs:538-599 | from every reachable state there are such schedules, and the trial returns on them |
| Session.IdleHitsNothing | src/metrics.rs:86-98 | a fleet on empty lists receives no job, completes none, and every answered poll that did not fail is a miss |
| Session.IdlePollsAreMisses | src/metrics.rs:15-23 | on empty lists every poll is a miss if and only if no LPOP failed and none is unanswered |
| Session.AFailedPollIsNoMiss | src/worker.rs:82-85 | a run with one poll and no miss |
| Session.AnAbortedPollIsNoMiss | src/main.rs:404-419 | nor is the poll of a worker aborted while it waits |
| Session.IdleCountIsFinalExactly | src/main.rs:674-678 | the poll count of a shut-down idle fleet is final if and only if no worker has lists left to poll; the polls still to come are at most those left |
| Session.FinishedDrainLeavesNothing | src/main.rs:905-911 | after a drain that returned without timing out the lists are empty and stay so, leftovers of earlier phases included |
| Session.Prepare | src/main.rs:972-983 | clear and enqueue leave the strides and the registrations, whatever the server held; everything else on it stays, unless FLUSHDB is allowed, and is gone if it is |
| Session.Drain | src/main.rs:886-893 | one drain against the server is one trial from the strides, and spares what is not the benchmark's unless FLUSHDB is allowed |
| Session.EveryTrialIsAccounted | src/main.rs:943-944 | there is a result for every trial, in order and from what the one before left, up to the first that does not finish |
| Session.SessionIsSound | src/main.rs:871-945 | every result is that of the configured jobs and workers: its report, the lists and the losses add up to the jobs, all of them are counted unless it timed out, its idle phase sees no hit, and a skip has exactly the backlog left and follows a timeout |
| Session.MeasureIdle | src/main.rs:911-940 | a skip if and only if the server's lists hold jobs, with their number; otherwise an idle phase of as many workers |
| Session.RunTrial | src/main.rs:871-945 | one round of the loop has the trial's outcome, whatever the server held, and spares what is not the benchmark's unless FLUSHDB is allowed |
| Session.RunSession | src/main.rs:871-945 | the results account for every trial in order, whatever the server held at the start, and what is not the benchmark's is spared unless FLUSHDB is allowed |
| IdleRate.IdlePollsAtMost | README.md:323-328 | at most W*N*(span/period + 1) polls, however the workers interleave and whatever fails |
| IdleRate.IdlePollsAtLeast | README.md:323-328 | if a pass and the sleep's overshoot take at most L, every worker has finished now/(period + L) passes of N polls each |
| IdleRate.IdlePollsReachTheBound | README.md:323-328 | for all workers, lists, span and period > 0 some run makes exactly that many polls, which per list is more than W*span/period |
| IdleRate.IntervalMustBePositive | src/main.rs:713-720 | with interval 0 any fleet can make any number of laps over its lists in no time |
| Backoff.Work | README.md:120-144 | the documented loop, option by option, emits the schedule function |
| Backoff.FixedExactlyWhenCollapsed | src/worker.rs:27-39 | the documented loop sleeps `p` after every miss, on every history, if and only if its settings collapse to `p` |
| WorkerBackoff.SleepsAfterMissesOnly | src/worker.rs:89-109 | on every tape the worker loop sleeps its interval after each missed pass and never after a hit |
| WorkerBackoff.WorkerIsResqueExactlyWhenCollapsed | src/worker.rs:27-39 | the worker loop pauses as the documented loop does, on every tape, if and only if the settings collapse to its interval |
| Backoff.DefaultIsFixedInterval | README.md:158-165 | with min and max unset it does so for every interval > 0 and backoff >= 0 |
| Backoff.ResolvedInOrder | README.md:127-131 | the preamble leaves min <= interval <= max and backoff <= max |
| Backoff.MissingOptions | README.md:122-131 | missing options are the same as interval 5, min and max the interval, backoff 0.1 |
| Backoff.GivenOptions | README.md:127-131 | given options are taken as they are, but for min and backoff above max and an interval outside min and max |
| Backoff.OrderedMissesFromStart | README.md:133-141 | for options in order the k-th miss from the start sleeps min(max, interval + k * backoff) |
| Backoff.OrderedMissesAfterAHit | README.md:133-141 | and the k-th after any hit min(max, min + k * backoff) |
| Backoff.MissesBackOffAdditively | README.md:145-148 | from any interval, the k-th miss in a row sleeps min(max, interval + k * backoff) |
| Backoff.KthMissAfterAHit | README.md:145-148 | after any history and a hit, the k-th miss sleeps min(max, min + k * backoff) |
| Percentile.AcceptedSpecs | src/main.rs:272-307 | exactly which strings are accepted; the power does not overflow and 0 < q < 1 |
| Percentile.NamedSpecs | src/main.rs:273-275 | "max" and "mean", and nothing else, are the maximum and the mean |
| Percentile.AnotherDigit | src/main.rs:292-298 | appending '0', and only '0', keeps the quantile; any other digit raises it |
| Percentile.LexLessMeans | src/main.rs:271-271 | the order used below is the usual lexicographic one |
| Percentile.QuantileOrderIsDigitOrder | src/main.rs:271-298 | quantiles compare as their digits do, padded with zeros |
| Percentile.PlusSignShiftsTheQuantile | src/main.rs:292-297 | a leading plus is accepted and divides the quantile by ten |
| Decimal.ParsePrint | src/report.rs:21-21 | a printed number reads as itself and has no leading zero |
| Decimal.GroupShape | src/report.rs:23-28 | after i digits the loop has placed (i-1)/3 separators, at every fourth place and nowhere else |
| Decimal.FormatN | src/report.rs:19-30 | without separators the text is the number; separators stand after every third digit from the right, (digits-1)/3 of them, none in front |
| Decimal.QueueNamesAreDistinct | src/main.rs:309-317 | max(n, 1) pairwise distinct names |
| Decimal.QueueNamesAreNumbered | src/main.rs:309-317 | one queue has the base name; of several, number i is the base name, an underscore and the digits of i |

## Left out

- Connections, TLS, URLs, tags, command-line parsing, console tables, JSON output and memory warnings.
- Errors of the connection outside the worker loop, which end the program through `?`; a pipeline is executed as a whole.
- Payload text: a payload is stamped, unstamped or malformed, as serde and `enqueued_at_ns` would find it.
- Histogram buckets and quantile values: a histogram is the multiset of the values it accepted, and which values it accepts is a parameter; the latency series hold windows, of which the program stores one statistic each.
- Floating point: rates, rounding and averages are not modelled, quantiles are exact fractions, and the idle rate is stated on counts and times.
- Wrap-around of the u64 counters and of the clock in nanoseconds; the producer's and the spec parser's u64 arithmetic is modelled.
- Memory orderings: each counter, flag or channel operation is one step. `inc_poll` together with sending the LPOP is one step, and so is the receipt of an error together with `inc_error`.
- Lock poisoning of the sample vectors.
- Outside producers and consumers on the same keys. LPOPs left in flight by earlier trials are modelled.
- A list that becomes empty stays as an empty list; the server deletes it, which no modelled command can tell.
- TrialTasks.NextOk: monitor and orchestrator are step machines, not loops, because their interleaving is what the statements are about; the collector is also given as a loop (`Sampling.RunCollector`).
- PollWorker.Worker.Run: of the other workers it sees only their completions between its own steps; their other effects are in the step system.
- FleetDrain.EveryFairScheduleDrains: for drains without LPOP errors, aborts and shutdown, since with a lost job the target is never reached.
- FleetOrder.DrainIsGloballyOrdered: for a backlog in several lists, stray LPOPs of earlier trials must aim at lists with nothing before them; others may pop in any order.
- IdleRate.IdlePollsAtLeast: the limit on a pass and its sleep is an assumption about server and runtime, imposed on the clock of the model.
- Session.SessionIsSound: a drain that has not returned ends the list of results; `TrialReturns` says when it has. The polls of idle workers that outlive their phase are any list of LPOPs, whether those workers could make them or not.
