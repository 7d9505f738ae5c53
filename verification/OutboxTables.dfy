/** The transactional outbox: its rows, one publish attempt, and one pass of the relay over a fetched batch. */
module OutboxTables {
  type RowId = nat                      // rank of the row by (created_at, outbox_id)

  datatype Row = Row(count: int, published: bool, terminal: bool)

  /** The broker's answer. A failure may still have left a copy behind: an error can arrive after delivery. */
  datatype Answer = Confirmed | Failed(delivered: bool)

  const FRESH: Row := Row(0, false, false)

  predicate Pending(row: Row) {
    !row.published && !row.terminal
  }

  /** What the attempt writes, given the count the query returned for the row. */
  function AfterPublish(row: Row, fetched: int, cap: int, answer: Answer): Row {
    match answer
    case Confirmed => row.(published := true, count := row.count + 1)
    case Failed(_) =>
      if fetched + 1 >= cap then row.(count := fetched + 1, terminal := true)
      else row.(count := fetched + 1)
  }

  /** How many attempts a row can get: the configured cap, but always at least one. */
  function Attempts(cap: int): int {
    if cap < 1 then 1 else cap
  }

  predicate RowOk(row: Row, cap: int) {
    && !(row.published && row.terminal)
    && (Pending(row) ==> 0 <= row.count < Attempts(cap))
    && (row.published ==> 1 <= row.count <= Attempts(cap))
    && (row.terminal ==> row.count == Attempts(cap))
  }

  /** One committed pass, row by row. */
  ghost function Relayed(rows: map<RowId, Row>, ids: seq<RowId>, cap: int, answers: seq<Answer>): map<RowId, Row>
    requires |ids| == |answers|
    decreases |ids|
  {
    if ids == [] then rows
    else
      var rest := Relayed(rows, ids[..|ids| - 1], cap, answers[..|ids| - 1]);
      var id := ids[|ids| - 1];
      if id in rest then rest[id := AfterPublish(rest[id], rest[id].count, cap, answers[|ids| - 1])] else rest
  }

  predicate Distinct(ids: seq<RowId>) {
    forall i, j :: 0 <= i < j < |ids| ==> ids[i] != ids[j]
  }

  /** A pass attempts every fetched row exactly once and touches no other row. */
  lemma {:induction false} RelayedAt(rows: map<RowId, Row>, ids: seq<RowId>, cap: int, answers: seq<Answer>, id: RowId)
    requires |ids| == |answers| && Distinct(ids) && id in rows
    ensures Relayed(rows, ids, cap, answers).Keys == rows.Keys
    ensures id !in ids ==> Relayed(rows, ids, cap, answers)[id] == rows[id]
    ensures forall i :: 0 <= i < |ids| && ids[i] == id ==>
              Relayed(rows, ids, cap, answers)[id] == AfterPublish(rows[id], rows[id].count, cap, answers[i])
    decreases |ids|
  {
    if ids != [] {
      var k := |ids| - 1;
      RelayedAt(rows, ids[..k], cap, answers[..k], id);
      if ids[k] == id {
        assert id !in ids[..k];
      } else {
        forall i | 0 <= i < |ids| && ids[i] == id
          ensures Relayed(rows, ids, cap, answers)[id] == AfterPublish(rows[id], rows[id].count, cap, answers[i])
        {
          assert ids[..k][i] == id;
        }
      }
    }
  }
}
