/**
  Any number of relays over one outbox. A relay fetches a batch under row locks, skipping locked rows,
  publishes it row by row, and commits; it may die at any point, which rolls its writes back but
  leaves the broker with what was already published.
 */
module OutboxRelay {
  import opened OutboxTables

  type RelayId = nat

  datatype Fetched = Fetched(id: RowId, count: int)

  datatype Transaction = Transaction(todo: seq<Fetched>, writes: map<RowId, Row>, held: set<RowId>)

  datatype State = State(
    rows: map<RowId, Row>,               // committed
    relays: map<RelayId, Transaction>,
    confirmed: multiset<RowId>,          // copies the broker confirmed
    unconfirmed: multiset<RowId>)        // copies it kept without confirming

  datatype Config = Config(cap: int, limit: nat)

  datatype Action =
    | Insert(id: RowId)
    | Begin(relay: RelayId)
    | Publish(relay: RelayId, answer: Answer)
    | Commit(relay: RelayId)
    | Crash(relay: RelayId)

  ghost predicate Locked(s: State, id: RowId) {
    exists r :: r in s.relays && id in s.relays[r].held
  }

  ghost function Free(s: State): set<RowId> {
    set id | id in s.rows && Pending(s.rows[id]) && !Locked(s, id)
  }

  ghost predicate IsLeast(least: RowId, ids: set<RowId>) {
    least in ids && forall id :: id in ids ==> least <= id
  }

  ghost function Least(ids: set<RowId>): (least: RowId)
    requires ids != {}
    ensures IsLeast(least, ids)
  {
    LeastExists(ids);
    var least :| IsLeast(least, ids);
    least
  }

  lemma {:induction false} LeastExists(ids: set<RowId>)
    requires ids != {}
    ensures exists least :: IsLeast(least, ids)
    decreases ids
  {
    var some :| some in ids;
    var rest := ids - {some};
    if rest == {} {
      assert IsLeast(some, ids) by {
        forall id | id in ids ensures some <= id { assert id !in rest; }
      }
    } else {
      LeastExists(rest);
      var least :| IsLeast(least, rest);
      var winner := if some < least then some else least;
      assert IsLeast(winner, ids) by {
        forall id | id in ids ensures winner <= id { assert id == some || id in rest; }
      }
    }
  }

  /** ORDER BY created_at, outbox_id ... SKIP LOCKED LIMIT. */
  ghost function Select(free: set<RowId>, limit: nat): seq<RowId>
    decreases limit
  {
    if limit == 0 || free == {} then [] else [Least(free)] + Select(free - {Least(free)}, limit - 1)
  }

  function Fetch(rows: map<RowId, Row>, ids: seq<RowId>): (todo: seq<Fetched>)
    requires forall id :: id in ids ==> id in rows
    ensures |todo| == |ids|
    ensures forall i :: 0 <= i < |ids| ==> todo[i] == Fetched(ids[i], rows[ids[i]].count)
  {
    seq(|ids|, i requires 0 <= i < |ids| => Fetched(ids[i], rows[ids[i]].count))
  }

  /** The fetched rows are free, in order, at most the limit, and nothing free was passed over for a later row. */
  lemma {:induction false} SelectIsTheQuery(free: set<RowId>, limit: nat)
    ensures var ids := Select(free, limit);
            && |ids| <= limit
            && (forall i :: 0 <= i < |ids| ==> ids[i] in free)
            && (forall i, j :: 0 <= i < j < |ids| ==> ids[i] < ids[j])
            && (forall id :: id in free && id !in ids ==> |ids| == limit && forall i :: 0 <= i < |ids| ==> ids[i] < id)
    decreases limit
  {
    if limit != 0 && free != {} {
      var least := Least(free);
      SelectIsTheQuery(free - {least}, limit - 1);
      hide Least, Select;
      LeastFirst(free, least, limit - 1, Select(free - {least}, limit - 1));
    }
  }

  lemma LeastFirst(free: set<RowId>, least: RowId, limit: nat, more: seq<RowId>)
    requires IsLeast(least, free)
    requires |more| <= limit && forall i :: 0 <= i < |more| ==> more[i] in free && more[i] != least
    requires forall i, j :: 0 <= i < j < |more| ==> more[i] < more[j]
    requires forall id :: id in free - {least} && id !in more ==> |more| == limit && forall i :: 0 <= i < |more| ==> more[i] < id
    ensures var ids := [least] + more;
            && (forall i :: 0 <= i < |ids| ==> ids[i] in free)
            && (forall i, j :: 0 <= i < j < |ids| ==> ids[i] < ids[j])
            && (forall id :: id in free && id !in ids ==> |ids| == limit + 1 && forall i :: 0 <= i < |ids| ==> ids[i] < id)
  {
    var ids := [least] + more;
    forall i, j | 0 <= i < j < |ids| ensures ids[i] < ids[j] {
      if i == 0 { assert more[j - 1] in free; }
    }
    forall id | id in free && id !in ids ensures |ids| == limit + 1 && forall i :: 0 <= i < |ids| ==> ids[i] < id {
      assert id in free - {least} && id !in more;
    }
  }

  ghost function Next(c: Config, s: State, a: Action): State {
    match a
    case Insert(id) => if id in s.rows then s else s.(rows := s.rows[id := FRESH])
    case Begin(r) =>
      if r in s.relays then s
      else
        SelectIsTheQuery(Free(s), c.limit);
        var ids := Select(Free(s), c.limit);
        s.(relays := s.relays[r := Transaction(Fetch(s.rows, ids), map[], set id | id in ids)])
    case Publish(r, answer) =>
      if r !in s.relays || s.relays[r].todo == [] then s
      else
        var next := s.relays[r].todo[0];
        if next.id !in s.rows then s
        else
          var image := AfterPublish(s.rows[next.id], next.count, c.cap, answer);
          var t := s.relays[r];
          s.(relays := s.relays[r := t.(todo := t.todo[1..], writes := t.writes[next.id := image])],
             confirmed := if answer.Confirmed? then s.confirmed + multiset{next.id} else s.confirmed,
             unconfirmed := if answer == Failed(true) then s.unconfirmed + multiset{next.id} else s.unconfirmed)
    case Commit(r) =>
      if r !in s.relays || s.relays[r].todo != [] then s
      else s.(rows := s.rows + s.relays[r].writes, relays := s.relays - {r})
    case Crash(r) => s.(relays := s.relays - {r})
  }

  ghost function Run(c: Config, s: State, acts: seq<Action>): State
    decreases |acts|
  {
    if acts == [] then s else Run(c, Next(c, s, acts[0]), acts[1..])
  }

  const EMPTY: State := State(map[], map[], multiset{}, multiset{})

  // ---------------------------------------------------------------- the invariant

  predicate Backed(id: RowId, row: Row, confirmed: multiset<RowId>) {
    row.published ==> id in confirmed
  }

  predicate RowsOk(c: Config, s: State) {
    forall id :: id in s.rows ==> RowOk(s.rows[id], c.cap) && Backed(id, s.rows[id], s.confirmed)
  }

  /** A row still to be published is held, was fetched with its committed count, and comes once. */
  predicate TodoOk(rows: map<RowId, Row>, t: Transaction) {
    && (forall i :: 0 <= i < |t.todo| ==>
          t.todo[i].id in t.held && t.todo[i].id !in t.writes && t.todo[i].id in rows
          && t.todo[i].count == rows[t.todo[i].id].count)
    && (forall i, j :: 0 <= i < j < |t.todo| ==> t.todo[i].id != t.todo[j].id)
  }

  /** A written image is one attempt further than the committed row, and as well formed. */
  predicate WritesOk(c: Config, rows: map<RowId, Row>, t: Transaction, confirmed: multiset<RowId>) {
    forall id :: id in t.writes ==>
      && id in t.held && id in rows
      && t.writes[id].count == rows[id].count + 1
      && RowOk(t.writes[id], c.cap) && Backed(id, t.writes[id], confirmed)
  }

  predicate HeldOk(rows: map<RowId, Row>, t: Transaction) {
    forall id :: id in t.held ==> id in rows && Pending(rows[id])
  }

  predicate TransactionOk(c: Config, s: State, t: Transaction) {
    TodoOk(s.rows, t) && WritesOk(c, s.rows, t, s.confirmed) && HeldOk(s.rows, t)
  }

  predicate RelaysOk(c: Config, s: State) {
    forall r :: r in s.relays ==> TransactionOk(c, s, s.relays[r])
  }

  predicate LocksOk(s: State) {
    forall q, r :: q in s.relays && r in s.relays && q != r ==> s.relays[q].held !! s.relays[r].held
  }

  predicate Inv(c: Config, s: State) {
    RowsOk(c, s) && RelaysOk(c, s) && LocksOk(s)
  }

  lemma InsertKeepsInv(c: Config, s: State, id: RowId)
    requires Inv(c, s)
    ensures Inv(c, Next(c, s, Insert(id)))
  {
    var s' := Next(c, s, Insert(id));
    forall r | r in s'.relays ensures TransactionOk(c, s', s'.relays[r]) {
      assert TransactionOk(c, s, s.relays[r]);
    }
  }

  lemma BeginKeepsInv(c: Config, s: State, r: RelayId)
    requires Inv(c, s)
    ensures Inv(c, Next(c, s, Begin(r)))
  {
    var s' := Next(c, s, Begin(r));
    if r !in s.relays {
      SelectIsTheQuery(Free(s), c.limit);
      var ids := Select(Free(s), c.limit);
      var t := s'.relays[r];
      assert TransactionOk(c, s', t) by {
        assert TodoOk(s.rows, t);
      }
      forall q | q in s'.relays ensures TransactionOk(c, s', s'.relays[q]) {
        if q != r { assert TransactionOk(c, s, s.relays[q]); }
      }
      forall q | q in s.relays ensures s.relays[q].held !! t.held {
        forall id | id in t.held ensures id !in s.relays[q].held {
          assert id in Free(s);
        }
      }
      forall p, q | p in s'.relays && q in s'.relays && p != q ensures s'.relays[p].held !! s'.relays[q].held {
        assert p in s.relays || q in s.relays;
      }
    }
  }

  /** An attempt on a pending row gives a well-formed row, one attempt further. */
  lemma AttemptIsOk(c: Config, row: Row, answer: Answer)
    requires RowOk(row, c.cap) && Pending(row)
    ensures var image := AfterPublish(row, row.count, c.cap, answer);
            RowOk(image, c.cap) && image.count == row.count + 1 && (image.published <==> answer.Confirmed?)
  {
  }

  lemma PublishKeepsOthers(c: Config, s: State, confirmed: multiset<RowId>, t: Transaction)
    requires TransactionOk(c, s, t) && s.confirmed <= confirmed
    ensures TransactionOk(c, s.(confirmed := confirmed), t)
  {
  }

  /** The publishing transaction itself: the head of its work list becomes a written image. */
  lemma PublishKeepsItself(c: Config, s: State, t: Transaction, answer: Answer, confirmed: multiset<RowId>)
    requires TransactionOk(c, s, t) && RowsOk(c, s) && t.todo != [] && s.confirmed <= confirmed
    requires answer.Confirmed? ==> t.todo[0].id in confirmed
    ensures var image := AfterPublish(s.rows[t.todo[0].id], t.todo[0].count, c.cap, answer);
            TransactionOk(c, s.(confirmed := confirmed), t.(todo := t.todo[1..], writes := t.writes[t.todo[0].id := image]))
  {
    AttemptIsOk(c, s.rows[t.todo[0].id], answer);
  }

  lemma PublishKeepsInv(c: Config, s: State, r: RelayId, answer: Answer)
    requires Inv(c, s)
    ensures Inv(c, Next(c, s, Publish(r, answer)))
  {
    var s' := Next(c, s, Publish(r, answer));
    if s' != s {
      var t := s.relays[r];
      assert TransactionOk(c, s, t);
      PublishKeepsItself(c, s, t, answer, s'.confirmed);
      forall q | q in s'.relays ensures TransactionOk(c, s', s'.relays[q]) {
        if q != r {
          PublishKeepsOthers(c, s, s'.confirmed, s.relays[q]);
        }
      }
      assert LocksOk(s');
    }
  }

  lemma CommitKeepsInv(c: Config, s: State, r: RelayId)
    requires Inv(c, s)
    ensures Inv(c, Next(c, s, Commit(r)))
  {
    var s' := Next(c, s, Commit(r));
    if s' != s {
      assert TransactionOk(c, s, s.relays[r]);
      hide TodoOk, WritesOk;
      forall q | q in s'.relays ensures TransactionOk(c, s', s'.relays[q]) {
        assert TransactionOk(c, s, s.relays[q]);
        assert s.relays[q].held !! s.relays[r].held;
        CommitKeepsOther(c, s, r, q);
      }
    }
  }

  lemma CommitKeepsOther(c: Config, s: State, r: RelayId, q: RelayId)
    requires q in s.relays && r in s.relays && q != r && s.relays[r].todo == []
    requires TransactionOk(c, s, s.relays[q]) && TransactionOk(c, s, s.relays[r]) && s.relays[q].held !! s.relays[r].held
    ensures TransactionOk(c, Next(c, s, Commit(r)), s.relays[q])
  {
  }

  lemma CrashKeepsInv(c: Config, s: State, r: RelayId)
    requires Inv(c, s)
    ensures Inv(c, Next(c, s, Crash(r)))
  {
    var s' := Next(c, s, Crash(r));
    forall q | q in s'.relays ensures TransactionOk(c, s', s'.relays[q]) {
      assert TransactionOk(c, s, s.relays[q]);
    }
  }

  lemma NextKeepsInv(c: Config, s: State, a: Action)
    requires Inv(c, s)
    ensures Inv(c, Next(c, s, a))
  {
    match a {
      case Insert(id) => InsertKeepsInv(c, s, id);
      case Begin(r) => BeginKeepsInv(c, s, r);
      case Publish(r, answer) => PublishKeepsInv(c, s, r, answer);
      case Commit(r) => CommitKeepsInv(c, s, r);
      case Crash(r) => CrashKeepsInv(c, s, r);
    }
  }

  lemma {:induction false} RunKeepsInv(c: Config, s: State, acts: seq<Action>)
    requires Inv(c, s)
    ensures Inv(c, Run(c, s, acts))
    decreases |acts|
  {
    if acts != [] {
      NextKeepsInv(c, s, acts[0]);
      RunKeepsInv(c, Next(c, s, acts[0]), acts[1..]);
    }
  }

  // ---------------------------------------------------------------- the guarantees

  /**
    In every run each row is exactly one of pending, published or dead-lettered; a pending row has
    attempts left, a dead-lettered one has used them all, and a published one has a confirmed copy.
   */
  lemma EveryRowIsAccountedFor(c: Config, acts: seq<Action>, id: RowId)
    requires id in Run(c, EMPTY, acts).rows
    ensures var s := Run(c, EMPTY, acts); var row := s.rows[id];
            && !(row.published && row.terminal)
            && (Pending(row) ==> 0 <= row.count < Attempts(c.cap))
            && (row.terminal ==> row.count == Attempts(c.cap))
            && (row.published ==> id in s.confirmed && 1 <= row.count <= Attempts(c.cap))
  {
    RunKeepsInv(c, EMPTY, acts);
  }

  /** No row is ever in two open transactions, and an open transaction holds only pending rows. */
  lemma RelaysShareNothing(c: Config, acts: seq<Action>, q: RelayId, r: RelayId, id: RowId)
    requires var s := Run(c, EMPTY, acts);
             q in s.relays && r in s.relays && id in s.relays[q].held && id in s.relays[r].held
    ensures q == r && id in Run(c, EMPTY, acts).rows && Pending(Run(c, EMPTY, acts).rows[id])
  {
    RunKeepsInv(c, EMPTY, acts);
    var s := Run(c, EMPTY, acts);
    assert TransactionOk(c, s, s.relays[r]);
  }

  ghost predicate Later(s: State, s': State) {
    && s.confirmed <= s'.confirmed && s.unconfirmed <= s'.unconfirmed
    && forall id :: id in s.rows ==>
         && id in s'.rows && s.rows[id].count <= s'.rows[id].count
         && (!Pending(s.rows[id]) ==> s'.rows[id] == s.rows[id])
  }

  lemma NextIsLater(c: Config, s: State, a: Action)
    requires Inv(c, s)
    ensures Later(s, Next(c, s, a))
  {
    match a {
      case Commit(r) => CommitIsLater(c, s, r);
      case _ =>
    }
  }

  lemma CommitIsLater(c: Config, s: State, r: RelayId)
    requires Inv(c, s)
    ensures Later(s, Next(c, s, Commit(r)))
  {
    if r in s.relays { assert TransactionOk(c, s, s.relays[r]); }
  }

  /** Published and dead-lettered rows never change again; counts and broker copies never shrink. */
  lemma {:induction false} SettledRowsAreFinal(c: Config, s: State, acts: seq<Action>)
    requires Inv(c, s)
    ensures Later(s, Run(c, s, acts))
    decreases |acts|
  {
    if acts != [] {
      NextIsLater(c, s, acts[0]);
      NextKeepsInv(c, s, acts[0]);
      SettledRowsAreFinal(c, Next(c, s, acts[0]), acts[1..]);
    }
  }

  // ---------------------------------------------------------------- one transaction, whole

  function Publishes(r: RelayId, answers: seq<Answer>): seq<Action> {
    seq(|answers|, i requires 0 <= i < |answers| => Publish(r, answers[i]))
  }

  lemma {:induction false} RunSplit(c: Config, s: State, first: seq<Action>, last: Action)
    ensures Run(c, s, first + [last]) == Next(c, Run(c, s, first), last)
    decreases |first|
  {
    if first == [] {
      assert [last][1..] == [];
      assert first + [last] == [last];
    } else {
      assert (first + [last])[1..] == first[1..] + [last];
      RunSplit(c, Next(c, s, first[0]), first[1..], last);
    }
  }

  /** Publishing changes no committed row and no other transaction, and only adds broker copies. */
  lemma {:induction false} PublishesOnlyAddCopies(c: Config, s: State, r: RelayId, answers: seq<Answer>)
    requires r in s.relays
    ensures var s' := Run(c, s, Publishes(r, answers));
            && s'.rows == s.rows && r in s'.relays && s'.relays - {r} == s.relays - {r}
            && s.confirmed <= s'.confirmed && s.unconfirmed <= s'.unconfirmed
    decreases |answers|
  {
    if answers != [] {
      var k := |answers| - 1;
      PublishesOnlyAddCopies(c, s, r, answers[..k]);
      assert Publishes(r, answers) == Publishes(r, answers[..k]) + [Publish(r, answers[k])];
      RunSplit(c, s, Publishes(r, answers[..k]), Publish(r, answers[k]));
    }
  }

  /**
    A relay that dies after fetching and publishing anything leaves the table and every lock as they
    were: no row loses its chance to be published, only broker copies may have been added.
   */
  lemma RollbackOnlyAddsCopies(c: Config, s: State, r: RelayId, answers: seq<Answer>)
    requires r !in s.relays
    ensures var s' := Next(c, Run(c, Next(c, s, Begin(r)), Publishes(r, answers)), Crash(r));
            && s'.rows == s.rows && s'.relays == s.relays && Free(s') == Free(s)
            && s.confirmed <= s'.confirmed && s.unconfirmed <= s'.unconfirmed
  {
    var b := Next(c, s, Begin(r));
    PublishesOnlyAddCopies(c, b, r, answers);
    assert b.relays - {r} == s.relays;
  }

  ghost function Batch(c: Config, s: State): seq<RowId> {
    Select(Free(s), c.limit)
  }

  /** Where a transaction over `ids` is after its first `n` attempts. */
  ghost predicate Midway(c: Config, s: State, ids: seq<RowId>, b: State, r: RelayId, answers: seq<Answer>, n: nat) {
    && Fetchable(s, ids) && n <= |ids| && n <= |answers|
    && b.rows == s.rows && r in b.relays && b.relays - {r} == s.relays
    && b.relays[r].todo == Fetch(s.rows, ids)[n..]
    && s.rows + b.relays[r].writes == Relayed(s.rows, ids[..n], c.cap, answers[..n])
  }

  ghost predicate Fetchable(s: State, ids: seq<RowId>) {
    Distinct(ids) && forall id :: id in ids ==> id in s.rows
  }

  lemma BatchIsFetchable(c: Config, s: State)
    ensures Fetchable(s, Batch(c, s))
  {
    SelectIsTheQuery(Free(s), c.limit);
  }

  lemma NothingAttempted(c: Config, s: State, r: RelayId, answers: seq<Answer>)
    requires r !in s.relays && Fetchable(s, Batch(c, s))
    ensures Midway(c, s, Batch(c, s), Next(c, s, Begin(r)), r, answers, 0)
  {
    var b := Next(c, s, Begin(r));
    assert s.rows + b.relays[r].writes == s.rows;
    assert b.relays - {r} == s.relays;
  }

  lemma {:induction false} AttemptsInOrder(c: Config, s: State, r: RelayId, answers: seq<Answer>, n: nat)
    requires r !in s.relays && n <= |answers| && n <= |Batch(c, s)| && Fetchable(s, Batch(c, s))
    ensures Midway(c, s, Batch(c, s), Run(c, Next(c, s, Begin(r)), Publishes(r, answers[..n])), r, answers, n)
    decreases n
  {
    var b := Next(c, s, Begin(r));
    if n == 0 {
      assert Publishes(r, answers[..0]) == [];
      NothingAttempted(c, s, r, answers);
    } else {
      AttemptsInOrder(c, s, r, answers, n - 1);
      assert Publishes(r, answers[..n]) == Publishes(r, answers[..n - 1]) + [Publish(r, answers[n - 1])];
      RunSplit(c, b, Publishes(r, answers[..n - 1]), Publish(r, answers[n - 1]));
      OneMoreAttempt(c, s, Batch(c, s), Run(c, b, Publishes(r, answers[..n - 1])), r, answers, n - 1);
    }
  }

  lemma OneMoreAttempt(c: Config, s: State, ids: seq<RowId>, b: State, r: RelayId, answers: seq<Answer>, n: nat)
    requires Fetchable(s, ids) && n < |ids| && n < |answers| && Midway(c, s, ids, b, r, answers, n)
    ensures Midway(c, s, ids, Next(c, b, Publish(r, answers[n])), r, answers, n + 1)
  {
    var id := ids[n];
    var b' := Next(c, b, Publish(r, answers[n]));
    var image := AfterPublish(s.rows[id], s.rows[id].count, c.cap, answers[n]);
    assert b.relays[r].todo[0] == Fetched(id, s.rows[id].count);
    assert b'.relays[r].writes == b.relays[r].writes[id := image];
    RelayedOneMore(s.rows, ids, c.cap, answers, n);
    assert s.rows + b'.relays[r].writes == (s.rows + b.relays[r].writes)[id := image];
    assert b'.relays - {r} == b.relays - {r};
  }

  lemma RelayedOneMore(rows: map<RowId, Row>, ids: seq<RowId>, cap: int, answers: seq<Answer>, n: nat)
    requires n < |ids| && n < |answers| && Distinct(ids) && ids[n] in rows
    ensures Relayed(rows, ids[..n + 1], cap, answers[..n + 1])
            == Relayed(rows, ids[..n], cap, answers[..n])[ids[n] := AfterPublish(rows[ids[n]], rows[ids[n]].count, cap, answers[n])]
  {
    assert ids[..n + 1][..n] == ids[..n] && answers[..n + 1][..n] == answers[..n];
    RelayedAt(rows, ids[..n], cap, answers[..n], ids[n]);
    assert ids[n] !in ids[..n];
  }

  /** A transaction that commits applies exactly one attempt to each fetched row. */
  lemma CommitAppliesTheBatch(c: Config, s: State, r: RelayId, answers: seq<Answer>)
    requires r !in s.relays && |answers| == |Batch(c, s)|
    ensures var s' := Next(c, Run(c, Next(c, s, Begin(r)), Publishes(r, answers)), Commit(r));
            s'.rows == Relayed(s.rows, Batch(c, s), c.cap, answers) && s'.relays == s.relays
  {
    var n := |answers|;
    BatchIsFetchable(c, s);
    AttemptsInOrder(c, s, r, answers, n);
    assert answers[..n] == answers && Batch(c, s)[..n] == Batch(c, s);
  }

  /** With a broker that confirms everything, the first free rows are published by one transaction. */
  lemma HealthyBrokerPublishes(c: Config, s: State, r: RelayId, answers: seq<Answer>, id: RowId)
    requires r !in s.relays && |answers| == |Batch(c, s)| && (forall i :: 0 <= i < |answers| ==> answers[i] == Confirmed)
    requires id in Batch(c, s)
    ensures var s' := Next(c, Run(c, Next(c, s, Begin(r)), Publishes(r, answers)), Commit(r));
            id in s'.rows && s'.rows[id].published
  {
    CommitAppliesTheBatch(c, s, r, answers);
    SelectIsTheQuery(Free(s), c.limit);
    RelayedAt(s.rows, Batch(c, s), c.cap, answers, id);
  }
}
