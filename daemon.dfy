/**
 * `Daemon`: the worker that repeatedly claims a task from the job store, runs it and
 * records its outcome, and `start_daemons`, which registers the workers.
 *
 * The job store, task objects and the job manager are foreign: each call the daemon
 * makes on them is recorded, in order, as an `Action` in a shared `JobLog`. What the
 * store hands out and how each launched process behaves are given as `Round`s.
 */
module Daemons {
  import opened Wrappers
  import opened Decimal
  import opened ProcessRunning
  import opened TaskRunning

  /** The identity of a task, as the daemon passes it back to the store. */
  datatype TaskId = TaskId(jobId: string, taskName: string)

  function IdOf(t: Task): TaskId {
    TaskId(t.jobId, t.taskName)
  }

  /** One call the daemon makes on something outside it. */
  datatype Action =
    | Sleep(seconds: int)                     // `time.sleep(queue_poll_interval)`
    | OpenOperations                          // entering `with JobOperations(store)`
    | GetNextTask                             // `jo.get_next_task()`
    | SetRunning(id: TaskId)                  // `task.set_running()`
    | UpdateTask(id: TaskId)                  // `jo.update_task(task)`
    | Launched(launch: Launch)                // a task's process, as `TaskRunner.run` starts it
    | SetCompleted(id: TaskId)                // `task.set_completed()`
    | Retry(id: TaskId)                       // `task.retry()`
    | QueueTask(jobId: string, taskName: string) // `jo.queue_task(job_id, task_name)`
    | SetFailed(id: TaskId, reason: string)   // `task.set_failed(reason)`
    | CloseOperations                         // leaving the `with` block
    | ZipResults(id: TaskId)                  // `job_manager.zip_results(task)`
    | UpdateJob(jobId: string)                // `job_manager.update_job(job_id)`

  /**
   * A record of calls, latest last: no calls yet, or the calls before followed by one
   * more.
   */
  datatype Log = NoCalls | Then(earlier: Log, last: Action)

  /** The calls of a log, in the order they were made. */
  function Calls(log: Log): seq<Action> {
    match log
    case NoCalls => []
    case Then(earlier, a) => Calls(earlier) + [a]
  }

  /** `after` is `log` followed by zero or more further calls. */
  predicate Extends(after: Log, log: Log) {
    after == log || (after.Then? && Extends(after.earlier, log))
  }

  /** The shared store: every daemon's calls on it, in the order they happen. */
  class JobLog {
    var actions: Log

    constructor()
      ensures actions == NoCalls
    {
      actions := NoCalls;
    }

    method Record(a: Action)
      modifies this
      ensures actions == Then(old(actions), a)
    {
      actions := Then(actions, a);
    }
  }

  /**
   * What one iteration meets: what `get_next_task` returns (if any) and how the
   * process launched for it behaves.
   */
  datatype Round = Round(next: Option<Task>, process: ProcessOracle)

  /** A round the daemon can run: a returned task has a dict spec and its process exits. */
  predicate Runnable(r: Round) {
    r.next.Some? ==> DistinctKeys(r.next.value.spec) && Exits(r.process)
  }

  /** Whether a round's task succeeds: its process exits with code 0. */
  predicate Succeeds(r: Round) {
    r.next.Some? && Exits(r.process) && ExitCode(r.process) == 0
  }

  /** How `TaskRunner.run` launches a task's process. */
  function TaskLaunch(scriptDir: string, t: Task): Launch {
    Launch(Script(scriptDir), EnvOf(t.spec), None)
  }

  /**
   * The calls `run_task` makes once the process has finished: that task is marked
   * completed on success, is retried and re-queued while retries remain, and is failed
   * otherwise; then it is updated in the store.
   */
  function Outcome(log: Log, maxRetries: int, t: Task, ok: bool): Log {
    var id := IdOf(t);
    if ok then Then(Then(log, SetCompleted(id)), UpdateTask(id))
    else if t.retryCount < maxRetries then
      Then(Then(Then(log, Retry(id)), QueueTask(t.jobId, t.taskName)), UpdateTask(id))
    else Then(Then(log, SetFailed(id, "Unknown error")), UpdateTask(id))
  }

  /** The log after `run_task(t)`, given the log before it and whether the run succeeded. */
  function AfterRunTask(log: Log, scriptDir: string, maxRetries: int, t: Task, ok: bool): Log {
    Outcome(Then(log, Launched(TaskLaunch(scriptDir, t))), maxRetries, t, ok)
  }

  /** The calls that open an iteration: the sleep, the session and `get_next_task`. */
  function Asked(log: Log, interval: int): Log {
    Then(Then(Then(log, Sleep(interval)), OpenOperations), GetNextTask)
  }

  /** Claiming a returned task: `set_running`, then `update_task`. */
  function Claim(log: Log, id: TaskId): Log {
    Then(Then(log, SetRunning(id)), UpdateTask(id))
  }

  /**
   * The calls after `run_task`: the session closes, the results are zipped on success,
   * and that task's job is updated.
   */
  function Finish(log: Log, t: Task, ok: bool): Log {
    var closed := Then(log, CloseOperations);
    Then(if ok then Then(closed, ZipResults(IdOf(t))) else closed, UpdateJob(t.jobId))
  }

  /**
   * The log after one iteration of `run`'s loop, given the log before it, that task
   * `get_next_task` returned and, for a task, whether `run_task` reported success.
   */
  function AfterIteration(log: Log, interval: int, maxRetries: int, scriptDir: string,
                          next: Option<Task>, ok: bool): Log {
    match next
    case None => Then(Asked(log, interval), CloseOperations)
    case Some(t) =>
      Finish(AfterRunTask(Claim(Asked(log, interval), IdOf(t)), scriptDir, maxRetries, t, ok), t, ok)
  }

  /** The log after one iteration per round, in order. */
  function AfterRounds(log: Log, interval: int, maxRetries: int, scriptDir: string,
                       rounds: seq<Round>): Log
    decreases |rounds|
  {
    if rounds == [] then log
    else
      var last := rounds[|rounds| - 1];
      AfterIteration(AfterRounds(log, interval, maxRetries, scriptDir, rounds[..|rounds| - 1]),
                     interval, maxRetries, scriptDir, last.next, Succeeds(last))
  }

  /** Which call an action is, whatever its arguments. */
  datatype Kind =
    | KSleep | KOpen | KGetNext | KSetRunning | KUpdateTask | KLaunched | KSetCompleted
    | KRetry | KQueueTask | KSetFailed | KClose | KZip | KUpdateJob

  function KindOf(a: Action): Kind {
    match a
    case Sleep(_) => KSleep
    case OpenOperations => KOpen
    case GetNextTask => KGetNext
    case SetRunning(_) => KSetRunning
    case UpdateTask(_) => KUpdateTask
    case Launched(_) => KLaunched
    case SetCompleted(_) => KSetCompleted
    case Retry(_) => KRetry
    case QueueTask(_, _) => KQueueTask
    case SetFailed(_, _) => KSetFailed
    case CloseOperations => KClose
    case ZipResults(_) => KZip
    case UpdateJob(_) => KUpdateJob
  }

  /** How many calls of one kind a log holds. */
  function Count(log: Log, k: Kind): nat {
    match log
    case NoCalls => 0
    case Then(earlier, a) => Count(earlier, k) + (if KindOf(a) == k then 1 else 0)
  }

  /** How many calls of kind `k` `run_task` makes, by the outcome rule. */
  function RunTaskAdds(k: Kind, t: Task, ok: bool, maxRetries: int): nat {
    var requeue := !ok && t.retryCount < maxRetries;
    if k == KLaunched || k == KUpdateTask then 1
    else if k == KSetCompleted then (if ok then 1 else 0)
    else if k == KRetry || k == KQueueTask then (if requeue then 1 else 0)
    else if k == KSetFailed then (if !ok && !requeue then 1 else 0)
    else 0
  }

  lemma OutcomeCounts(log: Log, maxRetries: int, t: Task, ok: bool, k: Kind)
    ensures Count(Outcome(log, maxRetries, t, ok), k)
            == Count(log, k) + RunTaskAdds(k, t, ok, maxRetries) - (if k == KLaunched then 1 else 0)
  {
    if !ok && t.retryCount < maxRetries {
      assert Count(Then(log, Retry(IdOf(t))), k) == Count(log, k) + (if k == KRetry then 1 else 0);
    }
  }

  /**
   * `run_task` makes one launch and one `update_task`; on success one `set_completed`;
   * on failure with retries left one `retry` and one `queue_task`; otherwise one
   * `set_failed`; and nothing else.
   */
  lemma RunTaskCounts(log: Log, scriptDir: string, maxRetries: int, t: Task, ok: bool, k: Kind)
    ensures Count(AfterRunTask(log, scriptDir, maxRetries, t, ok), k) == Count(log, k) + RunTaskAdds(k, t, ok, maxRetries)
  {
    OutcomeCounts(Then(log, Launched(TaskLaunch(scriptDir, t))), maxRetries, t, ok, k);
  }

  /**
   * The order of `run_task`'s calls: the process is launched first and that task is
   * updated last; just before the update, that task is marked completed on success, is
   * retried and then re-queued under its own job and name while retries remain, and is
   * otherwise failed with "Unknown error".
   */
  lemma RunTaskOrder(log: Log, scriptDir: string, maxRetries: int, t: Task, ok: bool)
    ensures var after := AfterRunTask(log, scriptDir, maxRetries, t, ok);
      && after.Then? && after.earlier.Then?
      && Extends(after, Then(log, Launched(TaskLaunch(scriptDir, t))))
      && after.last == UpdateTask(IdOf(t))
      && (ok ==> after.earlier.last == SetCompleted(IdOf(t)))
      && (!ok && t.retryCount < maxRetries ==>
            after.earlier.last == QueueTask(t.jobId, t.taskName) && after.earlier.earlier.last == Retry(IdOf(t)))
      && (!ok && t.retryCount >= maxRetries ==> after.earlier.last == SetFailed(IdOf(t), "Unknown error"))
  {
    var launched := Then(log, Launched(TaskLaunch(scriptDir, t)));
    var id := IdOf(t);
    if ok {
      assert Extends(Then(launched, SetCompleted(id)), launched);
    } else if t.retryCount < maxRetries {
      assert Extends(Then(launched, Retry(id)), launched);
      assert Extends(Then(Then(launched, Retry(id)), QueueTask(t.jobId, t.taskName)), launched);
    } else {
      assert Extends(Then(launched, SetFailed(id, "Unknown error")), launched);
    }
  }

  /** How many calls of kind `k` one iteration makes. */
  function IterationAdds(k: Kind, next: Option<Task>, ok: bool, maxRetries: int): nat {
    var asking := (if k == KSleep || k == KOpen || k == KGetNext then 1 else 0) + (if k == KClose then 1 else 0);
    match next
    case None => asking
    case Some(t) =>
      asking + (if k == KSetRunning || k == KUpdateTask then 1 else 0)
      + RunTaskAdds(k, t, ok, maxRetries) + (if k == KZip && ok then 1 else 0) + (if k == KUpdateJob then 1 else 0)
  }

  lemma AskedCounts(log: Log, interval: int, k: Kind)
    ensures Count(Asked(log, interval), k) == Count(log, k) + (if k == KSleep || k == KOpen || k == KGetNext then 1 else 0)
  {
    assert Count(Then(Then(log, Sleep(interval)), OpenOperations), k) == Count(log, k) + (if k == KSleep || k == KOpen then 1 else 0);
  }

  lemma ClaimCounts(log: Log, id: TaskId, k: Kind)
    ensures Count(Claim(log, id), k) == Count(log, k) + (if k == KSetRunning || k == KUpdateTask then 1 else 0)
  {
    assert Count(Then(log, SetRunning(id)), k) == Count(log, k) + (if k == KSetRunning then 1 else 0);
  }

  lemma FinishCounts(log: Log, t: Task, ok: bool, k: Kind)
    ensures Count(Finish(log, t, ok), k)
            == Count(log, k) + (if k == KClose then 1 else 0) + (if k == KZip && ok then 1 else 0) + (if k == KUpdateJob then 1 else 0)
  {
    assert Count(Then(log, CloseOperations), k) == Count(log, k) + (if k == KClose then 1 else 0);
  }

  /**
   * The calls of one iteration, by kind: one sleep, one `get_next_task` and one session;
   * for a claimed task one `set_running`, one `update_task` before the run and one
   * `update_job`, whatever the outcome, and a `zip_results` exactly when the run
   * succeeded, besides `run_task`'s own calls; nothing else.
   */
  lemma IterationCounts(log: Log, interval: int, maxRetries: int, scriptDir: string,
                        next: Option<Task>, ok: bool, k: Kind)
    ensures Count(AfterIteration(log, interval, maxRetries, scriptDir, next, ok), k)
            == Count(log, k) + IterationAdds(k, next, ok, maxRetries)
  {
    AskedCounts(log, interval, k);
    match next
    case None =>
    case Some(t) =>
      var claimed := Claim(Asked(log, interval), IdOf(t));
      ClaimCounts(Asked(log, interval), IdOf(t), k);
      RunTaskCounts(claimed, scriptDir, maxRetries, t, ok, k);
      FinishCounts(AfterRunTask(claimed, scriptDir, maxRetries, t, ok), t, ok, k);
  }

  /**
   * An iteration only appends to the log; for a claimed task the last call is
   * `update_job` of that task's job, and `set_running` then `update_task` of that task
   * come right after `get_next_task`, before the process is launched.
   */
  lemma IterationOrder(log: Log, interval: int, maxRetries: int, scriptDir: string,
                       next: Option<Task>, ok: bool)
    ensures var after := AfterIteration(log, interval, maxRetries, scriptDir, next, ok);
      var asked := Then(Then(Then(log, Sleep(interval)), OpenOperations), GetNextTask);
      && Extends(after, asked)
      && (next.Some? ==>
            var id := IdOf(next.value);
            && after.Then? && after.last == UpdateJob(next.value.jobId)
            && Extends(after, Then(Then(Then(asked, SetRunning(id)), UpdateTask(id)),
                                   Launched(TaskLaunch(scriptDir, next.value)))))
  {
    var asked := Then(Then(Then(log, Sleep(interval)), OpenOperations), GetNextTask);
    match next
    case None =>
    case Some(t) =>
      var id := IdOf(t);
      var claimed := Then(Then(asked, SetRunning(id)), UpdateTask(id));
      var launched := Then(claimed, Launched(TaskLaunch(scriptDir, t)));
      var ran := AfterRunTask(claimed, scriptDir, maxRetries, t, ok);
      RunTaskOrder(claimed, scriptDir, maxRetries, t, ok);
      var closed := Then(ran, CloseOperations);
      var zipped := if ok then Then(closed, ZipResults(id)) else closed;
      var after := Then(zipped, UpdateJob(t.jobId));
      assert Extends(closed, ran);
      assert Extends(zipped, ran);
      assert Extends(after, ran);
      ExtendsTrans(after, ran, launched);
      assert Extends(launched, asked) by {
        assert Extends(Then(asked, SetRunning(id)), asked);
      }
      ExtendsTrans(after, launched, asked);
  }

  lemma {:induction false} ExtendsTrans(a: Log, b: Log, c: Log)
    requires Extends(a, b) && Extends(b, c)
    ensures Extends(a, c)
  {
    if a != b {
      ExtendsTrans(a.earlier, b, c);
    }
  }

  /** How many calls of kind `k` a sequence of iterations makes. */
  function RoundsAdds(k: Kind, maxRetries: int, rounds: seq<Round>): nat
    decreases |rounds|
  {
    if rounds == [] then 0
    else
      var last := rounds[|rounds| - 1];
      RoundsAdds(k, maxRetries, rounds[..|rounds| - 1]) + IterationAdds(k, last.next, Succeeds(last), maxRetries)
  }

  /** The calls of a sequence of iterations are those of each iteration, added up. */
  lemma {:induction false} RoundsCounts(log: Log, interval: int, maxRetries: int, scriptDir: string,
                                        rounds: seq<Round>, k: Kind)
    ensures Count(AfterRounds(log, interval, maxRetries, scriptDir, rounds), k)
            == Count(log, k) + RoundsAdds(k, maxRetries, rounds)
    decreases |rounds|
  {
    if rounds != [] {
      var init := rounds[..|rounds| - 1];
      var last := rounds[|rounds| - 1];
      RoundsCounts(log, interval, maxRetries, scriptDir, init, k);
      IterationCounts(AfterRounds(log, interval, maxRetries, scriptDir, init), interval, maxRetries, scriptDir,
                      last.next, Succeeds(last), k);
    }
  }

  /** The number of rounds in which a task was claimed. */
  function Claimed(rounds: seq<Round>): nat
    decreases |rounds|
  {
    if rounds == [] then 0
    else Claimed(rounds[..|rounds| - 1]) + (if rounds[|rounds| - 1].next.Some? then 1 else 0)
  }

  /** The number of rounds whose task succeeded. */
  function Successes(rounds: seq<Round>): nat
    decreases |rounds|
  {
    if rounds == [] then 0
    else Successes(rounds[..|rounds| - 1]) + (if Succeeds(rounds[|rounds| - 1]) then 1 else 0)
  }

  /**
   * Over any run: one `get_next_task` per iteration; `update_job` and the launch once
   * per claimed task, requeued or not.
   */
  lemma {:induction false} RoundsTotals(maxRetries: int, rounds: seq<Round>)
    ensures RoundsAdds(KGetNext, maxRetries, rounds) == |rounds|
    ensures RoundsAdds(KUpdateJob, maxRetries, rounds) == Claimed(rounds)
    ensures RoundsAdds(KLaunched, maxRetries, rounds) == Claimed(rounds)
    decreases |rounds|
  {
    if rounds != [] {
      RoundsTotals(maxRetries, rounds[..|rounds| - 1]);
    }
  }

  /** `update_task` twice per claimed task, and `zip_results` once per successful task. */
  lemma {:induction false} RoundsUpdateTotals(maxRetries: int, rounds: seq<Round>)
    ensures RoundsAdds(KUpdateTask, maxRetries, rounds) == 2 * Claimed(rounds)
    ensures RoundsAdds(KZip, maxRetries, rounds) == Successes(rounds)
    decreases |rounds|
  {
    if rounds != [] {
      RoundsUpdateTotals(maxRetries, rounds[..|rounds| - 1]);
    }
  }

  /**
   * Over a whole run the store sees one `get_next_task` per iteration, one launch and
   * one `update_job` per claimed task, and one `zip_results` per task that succeeded.
   */
  lemma RunTotals(log: Log, interval: int, maxRetries: int, scriptDir: string, rounds: seq<Round>)
    ensures var after := AfterRounds(log, interval, maxRetries, scriptDir, rounds);
      && Count(after, KGetNext) == Count(log, KGetNext) + |rounds|
      && Count(after, KLaunched) == Count(log, KLaunched) + Claimed(rounds)
      && Count(after, KUpdateJob) == Count(log, KUpdateJob) + Claimed(rounds)
      && Count(after, KZip) == Count(log, KZip) + Successes(rounds)
  {
    RoundsCounts(log, interval, maxRetries, scriptDir, rounds, KGetNext);
    RoundsCounts(log, interval, maxRetries, scriptDir, rounds, KLaunched);
    RoundsCounts(log, interval, maxRetries, scriptDir, rounds, KUpdateJob);
    RoundsCounts(log, interval, maxRetries, scriptDir, rounds, KZip);
    RoundsTotals(maxRetries, rounds);
    RoundsUpdateTotals(maxRetries, rounds);
  }

  class Daemon {
    const id: string
    const store: JobLog
    const scriptDir: string      // where `task_runner.sh` is installed
    const queuePollInterval: int
    const maxRetries: int

    constructor(id: string, store: JobLog, scriptDir: string, queuePollInterval: int := 2, maxRetries: int := 2)
      ensures this.id == id && this.store == store && this.scriptDir == scriptDir
      ensures this.queuePollInterval == queuePollInterval && this.maxRetries == maxRetries
    {
      this.id, this.store, this.scriptDir := id, store, scriptDir;
      this.queuePollInterval, this.maxRetries := queuePollInterval, maxRetries;
    }

    /**
     * `run_task`: runs a task's process, then marks it completed, or re-queues
     * it while retries remain, or marks it failed; that task is updated in the store
     * last; the result is whether the run succeeded.
     */
    method RunTask(t: Task, p: ProcessOracle) returns (ok: bool)
      requires DistinctKeys(t.spec) && Exits(p)
      modifies store
      ensures ok <==> ExitCode(p) == 0
      ensures store.actions == AfterRunTask(old(store.actions), scriptDir, maxRetries, t, ok)
    {
      var launch;
      ok, launch := TaskRunning.Run(t, scriptDir, p);
      store.Record(Launched(launch));
      var id := IdOf(t);
      if ok {
        store.Record(SetCompleted(id));
        store.Record(UpdateTask(id));
      } else {
        if t.retryCount < maxRetries {
          store.Record(Retry(id));
          store.Record(QueueTask(t.jobId, t.taskName));
        } else {
          store.Record(SetFailed(id, "Unknown error"));
        }
        store.Record(UpdateTask(id));
      }
    }

    /** One iteration of `run`'s loop. */
    method RunIteration(r: Round)
      requires Runnable(r)
      modifies store
      ensures store.actions == AfterIteration(old(store.actions), queuePollInterval, maxRetries, scriptDir, r.next, Succeeds(r))
    {
      store.Record(Sleep(queuePollInterval));
      store.Record(OpenOperations);
      store.Record(GetNextTask);
      var task := r.next;
      var ranOk := false;
      if task.Some? {
        store.Record(SetRunning(IdOf(task.value)));
        store.Record(UpdateTask(IdOf(task.value)));
        ranOk := RunTask(task.value, r.process);
      }
      store.Record(CloseOperations);
      if ranOk {
        store.Record(ZipResults(IdOf(task.value)));
      }
      if task.Some? {
        store.Record(UpdateJob(task.value.jobId));
      }
    }

    /** `run`'s loop, for as many iterations as there are rounds. */
    method Run(rounds: seq<Round>)
      requires forall k :: 0 <= k < |rounds| ==> Runnable(rounds[k])
      modifies store
      ensures store.actions == AfterRounds(old(store.actions), queuePollInterval, maxRetries, scriptDir, rounds)
    {
      for i := 0 to |rounds|
        invariant store.actions == AfterRounds(old(store.actions), queuePollInterval, maxRetries, scriptDir, rounds[..i])
      {
        RunIteration(rounds[i]);
        assert rounds[..i + 1][..i] == rounds[..i];
      }
      assert rounds[..|rounds|] == rounds;
    }
  }

  /** The registry key of the `n`-th daemon. */
  function DaemonKey(n: nat): string {
    "daemon" + Digits(n)
  }

  /** Different daemons get different keys. */
  lemma DaemonKeyInjective(a: nat, b: nat)
    requires DaemonKey(a) == DaemonKey(b)
    ensures a == b
  {
    assert Digits(a) == DaemonKey(a)[6..];
    assert Digits(b) == DaemonKey(b)[6..];
    DigitsInjective(a, b);
  }

  /** The keys of the first `n` daemons. */
  function DaemonKeys(n: nat): set<string> {
    set m | 0 <= m < n :: DaemonKey(m)
  }

  /** The next daemon's key is new, and adding it gives the keys of one more daemon. */
  lemma DaemonKeysStep(n: nat)
    ensures DaemonKey(n) !in DaemonKeys(n)
    ensures DaemonKeys(n + 1) == DaemonKeys(n) + {DaemonKey(n)}
  {
    if DaemonKey(n) in DaemonKeys(n) {
      var m :| 0 <= m < n && DaemonKey(m) == DaemonKey(n);
      DaemonKeyInjective(m, n);
    }
  }

  /** The class-level dict `Daemon.daemons`. */
  class Registry {
    var daemons: map<string, Daemon>

    constructor()
      ensures daemons == map[]
    {
      daemons := map[];
    }

    /**
     * `start_daemons(store, nr_threads)`: registers one daemon per thread number, under
     * the key `"daemon<n>"`, each sharing the store and using the default poll interval
     * and retry limit; a non-positive thread count registers none.
     */
    method StartDaemons(store: JobLog, scriptDir: string, nrThreads: int := 2)
      modifies this
      ensures var count := if nrThreads < 0 then 0 else nrThreads;
        && daemons.Keys == old(daemons).Keys + DaemonKeys(count)
        && (forall key :: key in old(daemons) && key !in DaemonKeys(count) ==> daemons[key] == old(daemons)[key])
        && (forall key :: key in DaemonKeys(count) ==>
              var d := daemons[key];
              fresh(d) && d.id == key && d.store == store && d.scriptDir == scriptDir
              && d.queuePollInterval == 2 && d.maxRetries == 2)
    {
      var count := if nrThreads < 0 then 0 else nrThreads;
      for n := 0 to count
        invariant daemons.Keys == old(daemons).Keys + DaemonKeys(n)
        invariant forall key :: key in old(daemons) && key !in DaemonKeys(n) ==> daemons[key] == old(daemons)[key]
        invariant forall key :: key in DaemonKeys(n) ==>
                    var d := daemons[key];
                    fresh(d) && d.id == key && d.store == store && d.scriptDir == scriptDir
                    && d.queuePollInterval == 2 && d.maxRetries == 2
      {
        var id := DaemonKey(n);
        var daemon := new Daemon(id, store, scriptDir);
        DaemonKeysStep(n);
        daemons := daemons[id := daemon];
      }
    }
  }
}
