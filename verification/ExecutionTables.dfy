/**
  Fenced task execution: the task, result and outbox tables, the worker's claim and its result
  commit, and the controller's dispatch, each as an atomic transaction.
 */
module ExecutionTables {
  import opened Wrappers

  type TaskId = nat
  type RunId = nat
  type WorkerId = nat
  type Body = nat       // the serialized result

  datatype TaskStatus = Routed | Queued | Running | Retrying | Settled

  datatype Task = Task(
    run: RunId,
    status: TaskStatus,
    attempt: int,
    generation: int,
    fence: int,
    described: bool,              // execution_descriptor_path is set
    lease: Option<WorkerId>,
    result: Option<Body>,         // execution_result_path
    version: nat)

  datatype ResultKey = ResultKey(task: TaskId, attempt: int, generation: int, fence: int)

  /** The unique identity of an 'agent.execution.finished.v1' outbox row. */
  datatype FinishedKey = FinishedKey(run: RunId, task: TaskId, generation: int)
  datatype Finished = Finished(attempt: int, fence: int)

  datatype Started = Started(key: ResultKey, worker: WorkerId)

  datatype Tables = Tables(
    tasks: map<TaskId, Task>,
    running: set<RunId>,                    // runs whose status is 'running'
    results: map<ResultKey, Body>,
    outbox: map<FinishedKey, Finished>,
    events: seq<Started>)                   // 'task.running' events

  /** An execute message as delivered, possibly many times and long after it was sent. */
  datatype Envelope = Envelope(run: RunId, task: TaskId, generation: int, attempt: Option<int>, fence: Option<int>)

  datatype Claim = Claim(run: RunId, key: ResultKey)

  datatype ClaimOutcome = Claimed(claim: Claim) | Stale | DescriptorMissing

  function ClaimExecution(db: Tables, env: Envelope, worker: WorkerId): (Tables, ClaimOutcome) {
    if env.task !in db.tasks || db.tasks[env.task].run != env.run then (db, Stale)
    else
      var task := db.tasks[env.task];
      var attempt := if env.attempt.Some? then env.attempt.value else 0;
      if env.run !in db.running || task.status != Queued || task.attempt != attempt
         || task.generation != env.generation || env.fence != Some(task.fence) then (db, Stale)
      else if !task.described then (db, DescriptorMissing)
      else
        var key := ResultKey(env.task, task.attempt, task.generation, task.fence);
        (db.(tasks := db.tasks[env.task := task.(status := Running, lease := Some(worker), version := task.version + 1)],
             events := db.events + [Started(key, worker)]),
         Claimed(Claim(env.run, key)))
  }

  predicate FenceHolds(db: Tables, key: ResultKey) {
    && key.task in db.tasks
    && db.tasks[key.task].generation == key.generation
    && db.tasks[key.task].fence == key.fence
  }

  /** Row inserts are ON CONFLICT DO NOTHING; a superseded worker's transaction is rolled back whole. */
  function PersistResult(db: Tables, c: Claim, body: Body): Tables {
    if !FenceHolds(db, c.key) then db
    else
      var task := db.tasks[c.key.task];
      var finished := FinishedKey(c.run, c.key.task, c.key.generation);
      db.(results := if c.key in db.results then db.results else db.results[c.key := body],
          tasks := db.tasks[c.key.task := task.(result := Some(body), lease := None, version := task.version + 1)],
          outbox := if finished in db.outbox then db.outbox else db.outbox[finished := Finished(c.key.attempt, c.key.fence)])
  }

  /** The controller queues a routed or retrying task under a fresh generation and a fresh fence. */
  function DispatchTask(db: Tables, t: TaskId, attempt: int, described: bool): Tables {
    if t !in db.tasks || !(db.tasks[t].status == Routed || db.tasks[t].status == Retrying) then db
    else
      var task := db.tasks[t];
      db.(tasks := db.tasks[t := task.(status := Queued, attempt := attempt, generation := task.generation + 1,
                                       fence := task.fence + 1, described := described, lease := None, result := None,
                                       version := task.version + 1)])
  }
}
