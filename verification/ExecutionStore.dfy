/** The execution tables as mutable state; each method runs one transaction statement by statement. */
module ExecutionStore {
  import opened Wrappers
  import opened Rows = ExecutionTables

  class Store {
    var tasks: map<TaskId, Task>
    var running: set<RunId>
    var results: map<ResultKey, Body>
    var outbox: map<FinishedKey, Finished>
    var events: seq<Started>

    constructor ()
      ensures View() == Tables(map[], {}, map[], map[], [])
    {
      tasks, running, results, outbox, events := map[], {}, map[], map[], [];
    }

    function View(): Tables
      reads this
    {
      Tables(tasks, running, results, outbox, events)
    }

    method ClaimExecution(env: Envelope, worker: WorkerId) returns (outcome: ClaimOutcome)
      modifies this
      ensures (View(), outcome) == Rows.ClaimExecution(old(View()), env, worker)
    {
      if env.task !in tasks || tasks[env.task].run != env.run {
        return Stale;
      }
      var task := tasks[env.task];
      var attempt := if env.attempt.Some? then env.attempt.value else 0;
      if env.run !in running || task.status != Queued || task.attempt != attempt
         || task.generation != env.generation || env.fence != Some(task.fence) {
        return Stale;
      }
      if !task.described {
        return DescriptorMissing;
      }
      tasks := tasks[env.task := task.(status := Running, lease := Some(worker), version := task.version + 1)];
      var key := ResultKey(env.task, task.attempt, task.generation, task.fence);
      events := events + [Started(key, worker)];
      return Claimed(Claim(env.run, key));
    }

    method PersistResult(c: Claim, body: Body)
      modifies this
      ensures View() == Rows.PersistResult(old(View()), c, body)
    {
      if c.key.task !in tasks { return; }
      var current := tasks[c.key.task];
      if current.generation != c.key.generation || current.fence != c.key.fence { return; }
      if c.key !in results {
        results := results[c.key := body];
      }
      tasks := tasks[c.key.task := current.(result := Some(body), lease := None, version := current.version + 1)];
      var finished := FinishedKey(c.run, c.key.task, c.key.generation);
      if finished !in outbox {
        outbox := outbox[finished := Finished(c.key.attempt, c.key.fence)];
      }
    }
  }
}
