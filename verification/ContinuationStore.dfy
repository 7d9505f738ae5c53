/**
  The continuation tables as mutable state. Every method runs one transaction, SQL statement by SQL
  statement, counts the changed rows and rolls back by hand as the worker does; its contract says
  that the whole is exactly the atomic transaction of ContinuationTables.
 */
module ContinuationStore {
  import opened Wrappers
  import opened Tables = ContinuationTables

  /** The tables as mutable state; each method runs one transaction, statement by statement. */
  class Store {
    var inbox: map<MessageId, InboxRow>
    var deliveries: map<DeliveryId, DeliveryRow>
    var continuations: map<ContinuationId, ContinuationRow>
    var events: seq<Event>

    constructor ()
      ensures View() == Db(map[], map[], map[], [])
    {
      inbox, deliveries, continuations, events := map[], map[], map[], [];
    }

    function View(): Db
      reads this
    {
      Db(inbox, deliveries, continuations, events)
    }

    method Rollback(saved: Db)
      modifies this
      ensures View() == saved
    {
      inbox, deliveries, continuations, events := saved.inbox, saved.deliveries, saved.continuations, saved.events;
    }

    /** UPDATE agent_runtime_inbox ... WHERE message_id, payload_sha256, lease_owner and status='claimed' match. */
    method UpdateInboxOwned(msg: Message, tok: Token, status: InboxStatus) returns (changed: nat)
      modifies this
      ensures (View(), changed == 1) == CloseInbox(old(View()), msg, tok, status)
      ensures changed <= 1
    {
      changed := 0;
      var id := msg.env.message;
      if id in inbox {
        var row := inbox[id];
        if row.hash == msg.hash && row.owner == Some(tok) && row.status == InClaimed {
          inbox := inbox[id := row.(status := status, owner := None, expires := None)];
          changed := 1;
        }
      }
    }

    /** UPDATE agent_continuation_deliveries ... WHERE delivery_id=d AND lease_owner=tok. */
    method UpdateDeliveryOwned(d: DeliveryId, tok: Token, assign: DeliveryRow -> DeliveryRow) returns (changed: nat)
      modifies this
      ensures changed == if OwnsDelivery(old(View()), d, tok) then 1 else 0
      ensures View() == if changed == 1 then SetDelivery(old(View()), d, assign(old(View()).deliveries[d])) else old(View())
    {
      changed := 0;
      if d in deliveries && deliveries[d].lease == Some(tok) {
        deliveries := deliveries[d := assign(deliveries[d])];
        changed := 1;
      }
    }

    method ClaimInbox(now: Time, msg: Message, tok: Token) returns (claim: InboxClaim)
      modifies this
      ensures (View(), claim) == Tables.ClaimInbox(old(View()), now, msg, tok)
    {
      var id := msg.env.message;
      if id !in inbox {                                       // INSERT ... ON CONFLICT DO NOTHING
        inbox := inbox[id := InboxRow(msg.hash, InReceived, None, None, 0)];
      }
      var row := inbox[id];                                   // SELECT ... FOR UPDATE
      inbox := inbox[id := row.(deliveries := row.deliveries + 1)];
      ghost var counted := inbox;
      assert counted == old(inbox)[id := counted[id]];
      if row.hash != msg.hash {
        inbox := inbox[id := inbox[id].(status := InDead, owner := None, expires := None)];
        return Poison;
      }
      if row.status == InProcessed { return ProcessedDuplicate; }
      if row.status == InDead { return Poison; }
      if LeaseActive(row.owner, row.expires, now) { return InboxBusy; }
      inbox := inbox[id := inbox[id].(status := InClaimed, owner := Some(tok), expires := Some(now + INBOX_LEASE_MS))];
      assert inbox == old(inbox)[id := inbox[id]];
      return Won;
    }

    method LoadAndClaim(now: Time, msg: Message, tok: Token) returns (claim: DeliveryClaim)
      modifies this
      ensures (View(), claim) == Tables.LoadAndClaim(old(View()), now, msg, tok)
    {
      var env := msg.env;
      if env.delivery !in deliveries || deliveries[env.delivery].continuation !in continuations {
        return Unclaimable(None);
      }
      var row := deliveries[env.delivery];
      var value := Snapshot(env.delivery, row, continuations[row.continuation]);
      var identityMatches := row.continuation == env.continuation && row.run == env.run
        && row.generation == env.generation && row.effect == env.effect;
      if !identityMatches { return Unclaimable(None); }
      if !value.cont.promptIdentity { return Unclaimable(Some(value)); }
      if value.cont.status == Cancelled || value.cont.status == ManualReview { return Withdrawn; }
      match row.status {
        case Ambiguous => return Withdrawn;
        case Dead => return Unclaimable(None);
        case Observed => return AlreadyObserved;
        case _ =>
      }
      if row.nextAttempt.Some? && row.nextAttempt.value > now { return NotDue; }
      if LeaseActive(row.lease, row.leaseExpires, now) { return LeaseBusy; }
      var status := if row.status == Dispatching || row.status == Accepted then row.status else Claimed;
      deliveries := deliveries[env.delivery := row.(status := status, lease := Some(tok), leaseExpires := Some(now + DELIVERY_LEASE_MS))];
      return Ready(value);
    }

    method MarkDispatching(now: Time, snap: Snapshot, tok: Token) returns (ok: bool)
      modifies this
      ensures (View(), ok) == Tables.MarkDispatching(old(View()), now, snap, tok)
    {
      if snap.row.attempts >= MAX_ATTEMPTS { return false; }
      var changed := UpdateDeliveryOwned(snap.id, tok,
        (row: DeliveryRow) => row.(status := Dispatching, attempts := row.attempts + 1, dispatchStarted := Some(now)));
      return changed == 1;
    }

    method MarkAccepted(now: Time, d: DeliveryId, tok: Token) returns (ok: bool)
      modifies this
      ensures (View(), ok) == Tables.MarkAccepted(old(View()), now, d, tok)
    {
      var changed := UpdateDeliveryOwned(d, tok,
        (row: DeliveryRow) => row.(status := Accepted, acceptedAt := Coalesce(row.acceptedAt, now)));
      return changed == 1;
    }

    method DeferDelivery(now: Time, delay: nat, msg: Message, d: DeliveryId, tok: Token, next: DeliveryStatus) returns (ok: bool)
      modifies this
      ensures (View(), ok) == Tables.DeferDelivery(old(View()), now, delay, msg, d, tok, next)
    {
      if !(next == Deferred || next == Dispatching || next == Accepted) { return false; }
      var begin := View();
      var deliveryChanged := UpdateDeliveryOwned(d, tok,
        (row: DeliveryRow) => Released(row).(status := next, nextAttempt := Some(now + delay)));
      var inboxChanged := UpdateInboxOwned(msg, tok, InDeferred);
      if deliveryChanged != 1 || inboxChanged != 1 {
        Rollback(begin);
        return false;
      }
      return true;
    }

    method MarkDead(msg: Message, target: Option<Snapshot>, tok: Token) returns (ok: bool)
      modifies this
      ensures (View(), ok) == Tables.MarkDead(old(View()), msg, target, tok)
    {
      var begin := View();
      if target.Some? {
        var deliveryChanged := UpdateDeliveryOwned(target.value.id, tok, (row: DeliveryRow) => Released(row).(status := Dead));
        if deliveryChanged != 1 {
          Rollback(begin);
          return false;
        }
        events := events + [DeliveryDied(target.value.id)];
      }
      var inboxChanged := UpdateInboxOwned(msg, tok, InDead);
      if inboxChanged != 1 {
        Rollback(begin);
        return false;
      }
      return true;
    }

    /** UPDATE agent_continuations SET status=CASE WHEN current_delivery_id=d THEN status ELSE status END. */
    method UpdateContinuationIfCurrent(c: ContinuationId, d: DeliveryId, status: ContinuationStatus)
      modifies this
      ensures View() == SetContinuationIfCurrent(old(View()), c, d, status)
    {
      if c in continuations {
        var row := continuations[c];
        if row.current == Some(d) {
          continuations := continuations[c := row.(status := status)];
        }
      }
    }

    method MarkAmbiguous(msg: Message, snap: Snapshot, tok: Token) returns (ok: bool)
      modifies this
      ensures (View(), ok) == Tables.MarkAmbiguous(old(View()), msg, snap, tok)
    {
      var begin := View();
      var deliveryChanged := UpdateDeliveryOwned(snap.id, tok,
        (row: DeliveryRow) => Released(row).(status := Ambiguous, nextAttempt := None));
      var inboxChanged := UpdateInboxOwned(msg, tok, InProcessed);
      if deliveryChanged != 1 || inboxChanged != 1 {
        Rollback(begin);
        return false;
      }
      UpdateContinuationIfCurrent(snap.row.continuation, snap.id, ManualReview);
      events := events + [DeliveryAmbiguous(snap.id)];
      return true;
    }

    method MarkObserved(now: Time, msg: Message, snap: Snapshot, tok: Token) returns (ok: bool)
      modifies this
      ensures (View(), ok) == Tables.MarkObserved(old(View()), now, msg, snap, tok)
    {
      var begin := View();
      var deliveryChanged := UpdateDeliveryOwned(snap.id, tok,
        (row: DeliveryRow) => Released(row).(status := Observed, observedAt := Coalesce(row.observedAt, now), nextAttempt := None));
      var inboxChanged := UpdateInboxOwned(msg, tok, InProcessed);
      if deliveryChanged != 1 || inboxChanged != 1 {
        Rollback(begin);
        return false;
      }
      UpdateContinuationIfCurrent(snap.row.continuation, snap.id, Delivered);
      events := events + [DeliveryObserved(snap.id)];
      return true;
    }

    method ReleaseAfterError(msg: Message, tok: Token) returns (ok: bool)
      modifies this
      ensures (View(), ok) == Tables.ReleaseAfterError(old(View()), msg, tok)
    {
      var begin := View();
      var _ := UpdateDeliveryOwned(msg.env.delivery, tok, (row: DeliveryRow) => Released(row));
      var inboxChanged := UpdateInboxOwned(msg, tok, InDeferred);
      if inboxChanged != 1 {
        Rollback(begin);
        return false;
      }
      return true;
    }
  }
}
