/**
  Fenced execution over every run: execute messages may be redelivered at any time, workers may
  commit a result at any time after their claim and any number of times, and the controller may move
  a task to any status except queued, or dispatch it again under a fresh generation.
 */
module FencedExecution {
  import opened Wrappers
  import opened ExecutionTables

  datatype State = State(db: Tables, claims: seq<Claim>)

  datatype Action =
    | Create(t: TaskId, run: RunId)
    | SetRun(run: RunId, active: bool)
    | SetStatus(t: TaskId, status: TaskStatus)
    | Dispatch(t: TaskId, attempt: int, described: bool)
    | Execute(env: Envelope, worker: WorkerId)
    | Persist(claim: nat, body: Body)

  function Next(s: State, a: Action): State {
    match a
    case Create(t, run) =>
      if t in s.db.tasks then s
      else s.(db := s.db.(tasks := s.db.tasks[t := Task(run, Routed, 0, 0, 0, false, None, None, 0)]))
    case SetRun(run, active) => s.(db := s.db.(running := if active then s.db.running + {run} else s.db.running - {run}))
    case SetStatus(t, status) =>
      if t !in s.db.tasks || status == Queued then s
      else s.(db := s.db.(tasks := s.db.tasks[t := s.db.tasks[t].(status := status)]))
    case Dispatch(t, attempt, described) => s.(db := DispatchTask(s.db, t, attempt, described))
    case Execute(env, worker) =>
      var (db', outcome) := ClaimExecution(s.db, env, worker);
      State(db', if outcome.Claimed? then s.claims + [outcome.claim] else s.claims)
    case Persist(claim, body) =>
      if claim < |s.claims| then s.(db := PersistResult(s.db, s.claims[claim], body)) else s
  }

  function Run(s: State, acts: seq<Action>): State
    decreases |acts|
  {
    if acts == [] then s else Run(Next(s, acts[0]), acts[1..])
  }

  const EMPTY: State := State(Tables(map[], {}, map[], map[], []), [])

  // ---------------------------------------------------------------- the invariant

  /** A claim is of its task's current generation, already taken, or of an older one. */
  predicate ClaimOk(db: Tables, c: Claim) {
    && c.key.task in db.tasks
    && c.run == db.tasks[c.key.task].run
    && c.key.generation <= db.tasks[c.key.task].generation
    && c.key.fence <= db.tasks[c.key.task].fence
    && (c.key.generation == db.tasks[c.key.task].generation <==> c.key.fence == db.tasks[c.key.task].fence)
    && (c.key.generation == db.tasks[c.key.task].generation ==> db.tasks[c.key.task].status != Queued)
  }

  function Done(c: Claim): FinishedKey {
    FinishedKey(c.run, c.key.task, c.key.generation)
  }

  ghost predicate ClaimsOk(s: State) {
    && (forall i :: 0 <= i < |s.claims| ==> ClaimOk(s.db, s.claims[i]))
    && (forall i, j :: 0 <= i < j < |s.claims| && s.claims[i].key.task == s.claims[j].key.task ==>
          s.claims[i].key.generation != s.claims[j].key.generation)
  }

  ghost predicate Holds(claims: seq<Claim>, k: ResultKey) {
    exists c :: c in claims && c.key == k
  }

  ghost predicate FinishedBy(claims: seq<Claim>, results: map<ResultKey, Body>, f: FinishedKey) {
    exists c :: c in claims && Done(c) == f && c.key in results
  }

  ghost predicate ResultsClaimed(s: State) {
    forall k :: k in s.db.results ==> Holds(s.claims, k)
  }

  ghost predicate OutboxClaimed(s: State) {
    forall f :: f in s.db.outbox ==> FinishedBy(s.claims, s.db.results, f)
  }

  /** A committed result has its finished row, naming the same attempt and fence. */
  ghost predicate Paired(db: Tables, c: Claim) {
    c.key in db.results ==> Done(c) in db.outbox && db.outbox[Done(c)] == Finished(c.key.attempt, c.key.fence)
  }

  ghost predicate AllPaired(s: State) {
    forall c :: c in s.claims ==> Paired(s.db, c)
  }

  ghost predicate EventsOk(s: State) {
    |s.db.events| == |s.claims| && forall i :: 0 <= i < |s.claims| ==> s.db.events[i].key == s.claims[i].key
  }

  ghost predicate Inv(s: State) {
    ClaimsOk(s) && ResultsClaimed(s) && OutboxClaimed(s) && AllPaired(s) && EventsOk(s)
  }

  lemma ControllerKeepsClaims(s: State, a: Action)
    requires ClaimsOk(s) && !a.Execute? && !a.Persist?
    ensures ClaimsOk(Next(s, a)) && Next(s, a).claims == s.claims && Next(s, a).db.events == s.db.events
    ensures Next(s, a).db.results == s.db.results && Next(s, a).db.outbox == s.db.outbox
  {
    var s' := Next(s, a);
    forall i | 0 <= i < |s'.claims| ensures ClaimOk(s'.db, s'.claims[i]) { assert ClaimOk(s.db, s.claims[i]); }
  }

  lemma ControllerKeepsInv(s: State, a: Action)
    requires Inv(s) && !a.Execute? && !a.Persist?
    ensures Inv(Next(s, a))
  {
    ControllerKeepsClaims(s, a);
    var s' := Next(s, a);
    forall c | c in s'.claims ensures Paired(s'.db, c) { assert Paired(s.db, c); }
  }

  lemma ExecuteKeepsClaims(s: State, env: Envelope, worker: WorkerId)
    requires ClaimsOk(s)
    ensures ClaimsOk(Next(s, Execute(env, worker)))
  {
    var s' := Next(s, Execute(env, worker));
    forall i | 0 <= i < |s'.claims| ensures ClaimOk(s'.db, s'.claims[i]) {
      if i < |s.claims| { assert ClaimOk(s.db, s.claims[i]); }
    }
    if |s'.claims| > |s.claims| {
      var newest := s'.claims[|s.claims|];
      forall i | 0 <= i < |s.claims| && s.claims[i].key.task == newest.key.task
        ensures s.claims[i].key.generation != newest.key.generation
      {
        assert ClaimOk(s.db, s.claims[i]);
      }
    }
  }

  ghost predicate Includes(claims: seq<Claim>, more: seq<Claim>) {
    forall c :: c in claims ==> c in more
  }

  lemma HoldsGrows(claims: seq<Claim>, more: seq<Claim>, k: ResultKey)
    requires Holds(claims, k) && Includes(claims, more)
    ensures Holds(more, k)
  {
    var c :| c in claims && c.key == k;
    assert c in more;
  }

  lemma FinishedGrows(claims: seq<Claim>, more: seq<Claim>, results: map<ResultKey, Body>, results': map<ResultKey, Body>, f: FinishedKey)
    requires FinishedBy(claims, results, f) && Includes(claims, more) && results.Keys <= results'.Keys
    ensures FinishedBy(more, results', f)
  {
    var c :| c in claims && Done(c) == f && c.key in results;
    assert c in more && c.key in results';
  }

  /** A claim just made has no result row yet. */
  lemma NewClaimHasNoResult(s: State, env: Envelope, worker: WorkerId)
    requires ClaimsOk(s) && ResultsClaimed(s) && ClaimExecution(s.db, env, worker).1.Claimed?
    ensures ClaimExecution(s.db, env, worker).1.claim.key !in s.db.results
  {
    var k := ClaimExecution(s.db, env, worker).1.claim.key;
    forall c | c in s.claims ensures c.key != k {
      assert ClaimOk(s.db, c);
    }
  }

  lemma ExecuteKeepsInv(s: State, env: Envelope, worker: WorkerId)
    requires Inv(s)
    ensures Inv(Next(s, Execute(env, worker)))
  {
    var s' := Next(s, Execute(env, worker));
    ExecuteKeepsClaims(s, env, worker);
    var outcome := ClaimExecution(s.db, env, worker).1;
    if outcome.Claimed? {
      NewClaimHasNoResult(s, env, worker);
      OneMoreClaim(s, s', outcome.claim);
    }
  }

  lemma OneMoreClaim(s: State, s': State, c: Claim)
    requires ResultsClaimed(s) && OutboxClaimed(s) && AllPaired(s)
    requires s'.db.results == s.db.results && s'.db.outbox == s.db.outbox
    requires s'.claims == s.claims + [c] && c.key !in s.db.results
    ensures ResultsClaimed(s') && OutboxClaimed(s') && AllPaired(s')
  {
    forall d | d in s.claims ensures d in s'.claims { }
    forall k | k in s'.db.results ensures Holds(s'.claims, k) { HoldsGrows(s.claims, s'.claims, k); }
    forall f | f in s'.db.outbox ensures FinishedBy(s'.claims, s'.db.results, f) {
      FinishedGrows(s.claims, s'.claims, s.db.results, s'.db.results, f);
    }
    OneMorePaired(s, s', c);
  }

  lemma OneMorePaired(s: State, s': State, c: Claim)
    requires AllPaired(s)
    requires s'.db.results == s.db.results && s'.db.outbox == s.db.outbox
    requires s'.claims == s.claims + [c] && c.key !in s.db.results
    ensures AllPaired(s')
  {
    forall d | d in s'.claims ensures Paired(s'.db, d) {
      if d in s.claims { assert Paired(s.db, d); } else { assert d == c; }
    }
  }

  /** Two claims with one finished identity are one claim. */
  lemma SameDone(s: State, c: Claim, d: Claim)
    requires ClaimsOk(s) && c in s.claims && d in s.claims && Done(c) == Done(d)
    ensures c == d
  {
    var i :| 0 <= i < |s.claims| && s.claims[i] == c;
    var j :| 0 <= j < |s.claims| && s.claims[j] == d;
  }

  lemma SameRun(s: State, c: Claim, d: Claim)
    requires ClaimsOk(s) && c in s.claims && d in s.claims && c.key == d.key
    ensures c == d
  {
    var i :| 0 <= i < |s.claims| && s.claims[i] == c;
    var j :| 0 <= j < |s.claims| && s.claims[j] == d;
  }

  lemma PersistKeepsClaims(s: State, claim: nat, body: Body)
    requires ClaimsOk(s)
    ensures var s' := Next(s, Persist(claim, body));
            ClaimsOk(s') && s'.claims == s.claims && s'.db.events == s.db.events
  {
    var s' := Next(s, Persist(claim, body));
    forall i | 0 <= i < |s'.claims| ensures ClaimOk(s'.db, s'.claims[i]) { assert ClaimOk(s.db, s.claims[i]); }
  }

  lemma PersistKeepsRows(s: State, c: Claim, db': Tables, body: Body)
    requires ClaimsOk(s) && ResultsClaimed(s) && OutboxClaimed(s) && AllPaired(s) && c in s.claims
    requires db'.results == (if c.key in s.db.results then s.db.results else s.db.results[c.key := body])
    requires db'.outbox == if Done(c) in s.db.outbox then s.db.outbox
                           else s.db.outbox[Done(c) := Finished(c.key.attempt, c.key.fence)]
    ensures ResultsClaimed(State(db', s.claims)) && OutboxClaimed(State(db', s.claims)) && AllPaired(State(db', s.claims))
  {
    forall k | k in db'.results ensures Holds(s.claims, k) {
      if k in s.db.results { assert Holds(s.claims, k); } else { assert c in s.claims && c.key == k; }
    }
    forall f | f in db'.outbox ensures FinishedBy(s.claims, db'.results, f) {
      if f in s.db.outbox {
        FinishedGrows(s.claims, s.claims, s.db.results, db'.results, f);
      } else {
        assert c in s.claims && Done(c) == f && c.key in db'.results;
      }
    }
    PairedAfter(s, c);
    forall d | d in s.claims ensures Paired(db', d) { PersistKeepsPaired(s, c, db', body, d); }
  }

  lemma PersistKeepsPaired(s: State, c: Claim, db': Tables, body: Body, d: Claim)
    requires ClaimsOk(s) && c in s.claims && d in s.claims && Paired(s.db, d)
    requires Done(c) in s.db.outbox ==> s.db.outbox[Done(c)] == Finished(c.key.attempt, c.key.fence)
    requires db'.results == (if c.key in s.db.results then s.db.results else s.db.results[c.key := body])
    requires db'.outbox == if Done(c) in s.db.outbox then s.db.outbox
                           else s.db.outbox[Done(c) := Finished(c.key.attempt, c.key.fence)]
    ensures Paired(db', d)
  {
    if Done(d) == Done(c) { SameDone(s, d, c); }
    if d.key == c.key { SameRun(s, c, d); }
  }

  /** A finished row already there for this claim says what this claim would say. */
  lemma PairedAfter(s: State, c: Claim)
    requires ClaimsOk(s) && OutboxClaimed(s) && AllPaired(s) && c in s.claims
    ensures Done(c) in s.db.outbox ==> s.db.outbox[Done(c)] == Finished(c.key.attempt, c.key.fence)
  {
    if Done(c) in s.db.outbox {
      assert FinishedBy(s.claims, s.db.results, Done(c));
      var d :| d in s.claims && Done(d) == Done(c) && d.key in s.db.results;
      SameDone(s, c, d);
      assert Paired(s.db, c);
    }
  }

  lemma PersistKeepsInv(s: State, claim: nat, body: Body)
    requires Inv(s)
    ensures Inv(Next(s, Persist(claim, body)))
  {
    hide PersistResult;
    PersistKeepsClaims(s, claim, body);
    if claim < |s.claims| && FenceHolds(s.db, s.claims[claim].key) {
      PersistInserts(s, claim, body);
      PersistKeepsRows(s, s.claims[claim], Next(s, Persist(claim, body)).db, body);
    } else {
      PersistRefused(s, claim, body);
    }
  }

  lemma PersistRefused(s: State, claim: nat, body: Body)
    requires claim < |s.claims| ==> !FenceHolds(s.db, s.claims[claim].key)
    ensures Next(s, Persist(claim, body)) == s
  {
  }

  /** What a commit that passes the fence adds to the result and outbox tables. */
  lemma PersistInserts(s: State, claim: nat, body: Body)
    requires claim < |s.claims| && FenceHolds(s.db, s.claims[claim].key)
    ensures var c, db' := s.claims[claim], Next(s, Persist(claim, body)).db;
            && db'.results == (if c.key in s.db.results then s.db.results else s.db.results[c.key := body])
            && db'.outbox == if Done(c) in s.db.outbox then s.db.outbox
                             else s.db.outbox[Done(c) := Finished(c.key.attempt, c.key.fence)]
  {
  }

  lemma NextKeepsInv(s: State, a: Action)
    requires Inv(s)
    ensures Inv(Next(s, a))
  {
    match a {
      case Execute(env, worker) => ExecuteKeepsInv(s, env, worker);
      case Persist(claim, body) => PersistKeepsInv(s, claim, body);
      case _ => ControllerKeepsInv(s, a);
    }
  }

  lemma {:induction false} RunKeepsInv(s: State, acts: seq<Action>)
    requires Inv(s)
    ensures Inv(Run(s, acts))
    decreases |acts|
  {
    if acts != [] {
      NextKeepsInv(s, acts[0]);
      RunKeepsInv(Next(s, acts[0]), acts[1..]);
    }
  }

  // ---------------------------------------------------------------- the guarantees

  /** Over any redeliveries, each generation of a task, and so each fenced identity, is claimed at most once. */
  lemma ClaimedAtMostOnce(acts: seq<Action>, i: nat, j: nat)
    requires i < j < |Run(EMPTY, acts).claims|
    ensures var claims := Run(EMPTY, acts).claims;
            && claims[i].key != claims[j].key
            && (claims[i].key.task == claims[j].key.task ==> claims[i].key.generation != claims[j].key.generation)
  {
    RunKeepsInv(EMPTY, acts);
  }

  /** A finished message exists exactly when a result row exists, for the same fenced identity, and nothing else is in either table. */
  lemma ResultIffFinished(acts: seq<Action>)
    ensures var s := Run(EMPTY, acts);
            && (forall c :: c in s.claims ==> (c.key in s.db.results <==> Done(c) in s.db.outbox))
            && (forall c :: c in s.claims && Done(c) in s.db.outbox ==> s.db.outbox[Done(c)] == Finished(c.key.attempt, c.key.fence))
            && (forall k :: k in s.db.results ==> exists c :: c in s.claims && c.key == k)
            && (forall f :: f in s.db.outbox ==> exists c :: c in s.claims && Done(c) == f)
  {
    RunKeepsInv(EMPTY, acts);
    var s := Run(EMPTY, acts);
    forall c | c in s.claims ensures c.key in s.db.results <==> Done(c) in s.db.outbox {
      assert Paired(s.db, c);
      if Done(c) in s.db.outbox {
        assert FinishedBy(s.claims, s.db.results, Done(c));
        var d :| d in s.claims && Done(d) == Done(c) && d.key in s.db.results;
        SameDone(s, c, d);
      }
    }
    forall c | c in s.claims && Done(c) in s.db.outbox
      ensures s.db.outbox[Done(c)] == Finished(c.key.attempt, c.key.fence)
    {
      PairedAfter(s, c);
    }
    forall k | k in s.db.results ensures exists c :: c in s.claims && c.key == k { assert Holds(s.claims, k); }
    forall f | f in s.db.outbox ensures exists c :: c in s.claims && Done(c) == f { assert FinishedBy(s.claims, s.db.results, f); }
  }

  /** What no later action undoes: claims, result rows, finished rows, and the growth of generations and fences. */
  ghost predicate Keeps(s: State, s': State) {
    && s.claims <= s'.claims
    && (forall k :: k in s.db.results ==> k in s'.db.results && s'.db.results[k] == s.db.results[k])
    && (forall f :: f in s.db.outbox ==> f in s'.db.outbox && s'.db.outbox[f] == s.db.outbox[f])
    && (forall t :: t in s.db.tasks ==> t in s'.db.tasks && Advanced(s.db.tasks[t], s'.db.tasks[t]))
  }

  predicate Advanced(task: Task, task': Task) {
    && task'.run == task.run
    && task'.generation >= task.generation
    && task'.generation - task.generation == task'.fence - task.fence
  }

  lemma NextKeeps(s: State, a: Action)
    ensures Keeps(s, Next(s, a))
  {
  }

  lemma {:induction false} RunKeeps(s: State, acts: seq<Action>)
    ensures Keeps(s, Run(s, acts))
    decreases |acts|
  {
    if acts != [] {
      NextKeeps(s, acts[0]);
      RunKeeps(Next(s, acts[0]), acts[1..]);
    }
  }

  /** The first committed result of a fenced identity is final: retries and late workers cannot replace it. */
  lemma FirstResultWins(s: State, acts: seq<Action>, k: ResultKey)
    requires k in s.db.results
    ensures k in Run(s, acts).db.results && Run(s, acts).db.results[k] == s.db.results[k]
  {
    RunKeeps(s, acts);
  }

  /** Once a task was dispatched again, every later commit of an older claim leaves the whole database as it was. */
  lemma SupersededPersistIsInert(s: State, acts: seq<Action>, claim: nat, body: Body)
    requires claim < |s.claims| && s.claims[claim].key.task in s.db.tasks
    requires s.claims[claim].key.generation < s.db.tasks[s.claims[claim].key.task].generation
    ensures Next(Run(s, acts), Persist(claim, body)) == Run(s, acts)
  {
    RunKeeps(s, acts);
    assert s.claims[claim] == Run(s, acts).claims[claim];
  }
}
