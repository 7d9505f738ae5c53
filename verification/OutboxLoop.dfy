/** One relay process: the pass over a fetched batch, and how long it sleeps before the next query. */
module OutboxLoop {
  import opened OutboxTables

  const MIN_POLL_MS: nat := 25
  const IDLE_MAX_POLL_MS: nat := 1000
  const U64_MAX: nat := 0xFFFF_FFFF_FFFF_FFFF

  function Smaller(a: nat, b: nat): nat { if a <= b then a else b }
  function Larger(a: nat, b: nat): nat { if a <= b then b else a }

  class Relay {
    const cap: int
    const limit: nat                 // batch size
    const base: nat
    const maxIdle: nat
    var nextPoll: nat
    var idlePoll: nat

    constructor (pollMs: nat, cap: int, limit: nat)
      requires pollMs <= U64_MAX
      ensures Valid() && this.cap == cap && this.limit == limit
      ensures base == Larger(pollMs, MIN_POLL_MS) && nextPoll == 0 && idlePoll == base
    {
      this.cap, this.limit := cap, limit;
      base := Larger(pollMs, MIN_POLL_MS);
      maxIdle := Larger(IDLE_MAX_POLL_MS, Larger(pollMs, MIN_POLL_MS));
      nextPoll := 0;
      idlePoll := Larger(pollMs, MIN_POLL_MS);
    }

    ghost predicate Valid()
      reads this
    {
      && maxIdle == Larger(IDLE_MAX_POLL_MS, base)
      && MIN_POLL_MS <= base <= U64_MAX && base <= idlePoll <= maxIdle
    }

    /** The pass over a fetched batch, inside one transaction that holds the fetched rows. */
    method Publish(rows: map<RowId, Row>, ids: seq<RowId>, answers: seq<Answer>) returns (written: map<RowId, Row>)
      requires |ids| == |answers| && Distinct(ids) && forall id :: id in ids ==> id in rows
      ensures written == Relayed(rows, ids, cap, answers)
    {
      written := rows;
      var k := 0;
      while k < |ids|
        invariant 0 <= k <= |ids|
        invariant written == Relayed(rows, ids[..k], cap, answers[..k])
        invariant written.Keys == rows.Keys
        invariant forall i :: k <= i < |ids| ==> ids[i] in rows && written[ids[i]] == rows[ids[i]]
      {
        var id := ids[k];
        var count := rows[id].count;             // as fetched
        assert ids[..k + 1][..k] == ids[..k] && answers[..k + 1][..k] == answers[..k];
        match answers[k] {
          case Confirmed =>
            written := written[id := written[id].(published := true, count := written[id].count + 1)];
          case Failed(_) =>
            var next := count + 1;
            if next >= cap {
              written := written[id := written[id].(count := next, terminal := true)];
            } else {
              written := written[id := written[id].(count := next)];
            }
        }
        k := k + 1;
      }
      assert ids[..k] == ids && answers[..k] == answers;
    }

    /** After the commit: back off while the outbox is empty, drain full batches at once. */
    method Pace(fetched: nat)
      requires Valid()
      modifies this
      ensures Valid()
      ensures (nextPoll, idlePoll) == Paced(base, limit, fetched, old(idlePoll))
    {
      if fetched == 0 {
        nextPoll := idlePoll;
        idlePoll := Smaller(Smaller(idlePoll * 2, U64_MAX), maxIdle);
      } else {
        idlePoll := base;
        nextPoll := if fetched >= Larger(limit, 1) then 0 else base;
      }
    }
  }

  /** The sleep and the next idle sleep after a pass that fetched `fetched` rows. */
  function Paced(base: nat, limit: nat, fetched: nat, idle: nat): (nat, nat) {
    if fetched == 0 then (idle, Smaller(Smaller(idle * 2, U64_MAX), Larger(IDLE_MAX_POLL_MS, base)))
    else (if fetched >= Larger(limit, 1) then 0 else base, base)
  }

  function Pow2(k: nat): nat {
    if k == 0 then 1 else 2 * Pow2(k - 1)
  }

  /** The idle sleep after `k` empty passes in a row, starting from the base. */
  function IdleAfter(base: nat, limit: nat, k: nat): nat {
    if k == 0 then base else Paced(base, limit, 0, IdleAfter(base, limit, k - 1)).1
  }

  /** Empty passes back off exponentially up to the ceiling; saturating 64-bit doubling never shows. */
  lemma {:induction false} BackoffIsExponential(base: nat, limit: nat, k: nat)
    requires base <= U64_MAX
    ensures IdleAfter(base, limit, k) == Smaller(base * Pow2(k), Larger(IDLE_MAX_POLL_MS, base))
  {
    if k == 0 {
      assert base * Pow2(0) == base;
    } else {
      BackoffIsExponential(base, limit, k - 1);
      assert base * Pow2(k) == 2 * (base * Pow2(k - 1));
    }
  }

  /** The relay polls again without sleeping exactly after a full, non-empty batch. */
  lemma OnlyFullBatchesSkipTheSleep(base: nat, limit: nat, fetched: nat, idle: nat)
    requires base >= MIN_POLL_MS && idle >= base
    ensures Paced(base, limit, fetched, idle).0 == 0 <==> fetched > 0 && fetched >= limit
    ensures Paced(base, limit, fetched, idle).0 != 0 ==> Paced(base, limit, fetched, idle).0 >= MIN_POLL_MS
  {
  }
}
