/**
  The three PostgreSQL tables behind durable continuation delivery, and the transactions the
  worker runs on them.

  Each transaction is a function from one database value to the next: what it means when it commits
  or rolls back as a unit. Module ContinuationStore executes the same transactions statement by
  statement and proves that each has the meaning given here.
 */
module ContinuationTables {
  import opened Wrappers

  type Token = nat           // lease owner: worker id plus a fresh UUID
  type MessageId = nat
  type Hash = nat            // SHA-256 of the broker payload
  type DeliveryId = nat
  type ContinuationId = nat
  type RunId = nat
  type EffectKey = nat
  type SessionKey = nat      // adapter, server and session of the advisory lock
  type Time = int            // milliseconds

  const INBOX_LEASE_MS: int := 120_000
  const DELIVERY_LEASE_MS: int := 120_000
  const MAX_ATTEMPTS: int := 1

  datatype InboxStatus = InReceived | InClaimed | InProcessed | InDeferred | InDead

  datatype InboxRow = InboxRow(
    hash: Hash,
    status: InboxStatus,
    owner: Option<Token>,
    expires: Option<Time>,
    deliveries: nat)

  datatype DeliveryStatus = Pending | Claimed | Dispatching | Accepted | Observed | Deferred | Ambiguous | Dead

  datatype DeliveryRow = DeliveryRow(
    continuation: ContinuationId,
    run: RunId,
    generation: int,
    effect: EffectKey,
    status: DeliveryStatus,
    attempts: int,
    lease: Option<Token>,
    leaseExpires: Option<Time>,
    nextAttempt: Option<Time>,
    dispatchStarted: Option<Time>,
    acceptedAt: Option<Time>,
    observedAt: Option<Time>)

  datatype ContinuationStatus = Parked | WakePending | Delivered | ManualReview | Cancelled

  datatype ContinuationRow = ContinuationRow(
    status: ContinuationStatus,
    current: Option<DeliveryId>,
    session: SessionKey,
    adapterSupported: bool,     // session_adapter_id = 'opencode'
    promptIdentity: bool)       // agent, provider and model ids are all non-blank

  datatype Event = DeliveryDied(delivery: DeliveryId) | DeliveryAmbiguous(delivery: DeliveryId) | DeliveryObserved(delivery: DeliveryId)

  datatype Db = Db(
    inbox: map<MessageId, InboxRow>,
    deliveries: map<DeliveryId, DeliveryRow>,
    continuations: map<ContinuationId, ContinuationRow>,
    events: seq<Event>)

  datatype Envelope = Envelope(
    message: MessageId,
    run: RunId,
    continuation: ContinuationId,
    delivery: DeliveryId,
    effect: EffectKey,
    generation: int)

  /** A broker message with a valid envelope. One message id may arrive with two different payloads. */
  datatype Message = Message(env: Envelope, hash: Hash)

  /** What a claim remembers of the joined delivery and continuation rows, as they were before the claim. */
  datatype Snapshot = Snapshot(id: DeliveryId, row: DeliveryRow, cont: ContinuationRow)

  datatype InboxClaim = Won | ProcessedDuplicate | InboxBusy | Poison

  datatype DeliveryClaim =
    | Ready(snap: Snapshot)
    | AlreadyObserved
    | Withdrawn
    | LeaseBusy
    | NotDue
    | Unclaimable(target: Option<Snapshot>)

  predicate Terminal(status: DeliveryStatus) {
    status == Observed || status == Ambiguous || status == Dead
  }

  /** A lease blocks a claim while it has an owner and no recorded expiry that has been reached. */
  predicate LeaseActive(owner: Option<Token>, expires: Option<Time>, now: Time) {
    owner.Some? && (expires.Some? ==> expires.value > now)
  }

  predicate OwnsInbox(db: Db, msg: Message, tok: Token) {
    && msg.env.message in db.inbox
    && db.inbox[msg.env.message].hash == msg.hash
    && db.inbox[msg.env.message].owner == Some(tok)
    && db.inbox[msg.env.message].status == InClaimed
  }

  predicate OwnsDelivery(db: Db, d: DeliveryId, tok: Token) {
    d in db.deliveries && db.deliveries[d].lease == Some(tok)
  }

  function SetInbox(db: Db, msg: Message, status: InboxStatus): Db
    requires msg.env.message in db.inbox
  {
    db.(inbox := db.inbox[msg.env.message := db.inbox[msg.env.message].(status := status, owner := None, expires := None)])
  }

  function SetDelivery(db: Db, d: DeliveryId, row: DeliveryRow): Db {
    db.(deliveries := db.deliveries[d := row])
  }

  function Released(row: DeliveryRow): DeliveryRow {
    row.(lease := None, leaseExpires := None)
  }

  function SetContinuationIfCurrent(db: Db, c: ContinuationId, d: DeliveryId, status: ContinuationStatus): Db {
    if c in db.continuations && db.continuations[c].current == Some(d)
    then db.(continuations := db.continuations[c := db.continuations[c].(status := status)])
    else db
  }

  function ClaimInbox(db: Db, now: Time, msg: Message, tok: Token): (Db, InboxClaim) {
    var id := msg.env.message;
    var before := if id in db.inbox then db.inbox[id] else InboxRow(msg.hash, InReceived, None, None, 0);
    var row := before.(deliveries := before.deliveries + 1);
    var counted := db.(inbox := db.inbox[id := row]);
    if row.hash != msg.hash then (SetInbox(counted, msg, InDead), Poison)
    else if row.status == InProcessed then (counted, ProcessedDuplicate)
    else if row.status == InDead then (counted, Poison)
    else if LeaseActive(row.owner, row.expires, now) then (counted, InboxBusy)
    else (db.(inbox := db.inbox[id := row.(status := InClaimed, owner := Some(tok), expires := Some(now + INBOX_LEASE_MS))]), Won)
  }

  function CloseInbox(db: Db, msg: Message, tok: Token, status: InboxStatus): (Db, bool) {
    if OwnsInbox(db, msg, tok) then (SetInbox(db, msg, status), true) else (db, false)
  }

  function ClaimRow(row: DeliveryRow, now: Time, tok: Token): DeliveryRow {
    row.(status := if row.status == Dispatching || row.status == Accepted then row.status else Claimed,
         lease := Some(tok),
         leaseExpires := Some(now + DELIVERY_LEASE_MS))
  }

  function LoadAndClaim(db: Db, now: Time, msg: Message, tok: Token): (Db, DeliveryClaim) {
    var env := msg.env;
    if env.delivery !in db.deliveries || db.deliveries[env.delivery].continuation !in db.continuations then (db, Unclaimable(None))
    else
      var row := db.deliveries[env.delivery];
      var cont := db.continuations[row.continuation];
      var snap := Snapshot(env.delivery, row, cont);
      if row.continuation != env.continuation || row.run != env.run || row.generation != env.generation || row.effect != env.effect
      then (db, Unclaimable(None))
      else if !cont.promptIdentity then (db, Unclaimable(Some(snap)))
      else if cont.status == Cancelled || cont.status == ManualReview then (db, Withdrawn)
      else if row.status == Ambiguous then (db, Withdrawn)
      else if row.status == Dead then (db, Unclaimable(None))
      else if row.status == Observed then (db, AlreadyObserved)
      else if row.nextAttempt.Some? && row.nextAttempt.value > now then (db, NotDue)
      else if LeaseActive(row.lease, row.leaseExpires, now) then (db, LeaseBusy)
      else (SetDelivery(db, env.delivery, ClaimRow(row, now, tok)), Ready(snap))
  }

  function MarkDispatching(db: Db, now: Time, snap: Snapshot, tok: Token): (Db, bool) {
    if snap.row.attempts >= MAX_ATTEMPTS || !OwnsDelivery(db, snap.id, tok) then (db, false)
    else
      var row := db.deliveries[snap.id];
      (SetDelivery(db, snap.id, row.(status := Dispatching, attempts := row.attempts + 1, dispatchStarted := Some(now))), true)
  }

  function Coalesce<T>(a: Option<T>, b: T): Option<T> {
    if a.Some? then a else Some(b)
  }

  function MarkAccepted(db: Db, now: Time, d: DeliveryId, tok: Token): (Db, bool) {
    if !OwnsDelivery(db, d, tok) then (db, false)
    else
      var row := db.deliveries[d];
      (SetDelivery(db, d, row.(status := Accepted, acceptedAt := Coalesce(row.acceptedAt, now))), true)
  }

  function DeferDelivery(db: Db, now: Time, delay: nat, msg: Message, d: DeliveryId, tok: Token, next: DeliveryStatus): (Db, bool) {
    if !(next == Deferred || next == Dispatching || next == Accepted) then (db, false)
    else if !OwnsDelivery(db, d, tok) || !OwnsInbox(db, msg, tok) then (db, false)
    else
      var row := db.deliveries[d];
      (SetInbox(SetDelivery(db, d, Released(row).(status := next, nextAttempt := Some(now + delay))), msg, InDeferred), true)
  }

  /** `target` is absent when the delivery was never loaded; then only the inbox row is closed. */
  function MarkDead(db: Db, msg: Message, target: Option<Snapshot>, tok: Token): (Db, bool) {
    if target.Some? && !OwnsDelivery(db, target.value.id, tok) then (db, false)
    else if !OwnsInbox(db, msg, tok) then (db, false)
    else if target.None? then (SetInbox(db, msg, InDead), true)
    else
      var row := db.deliveries[target.value.id];
      var killed := SetDelivery(db, target.value.id, Released(row).(status := Dead));
      (SetInbox(killed.(events := killed.events + [DeliveryDied(target.value.id)]), msg, InDead), true)
  }

  function MarkAmbiguous(db: Db, msg: Message, snap: Snapshot, tok: Token): (Db, bool) {
    if !OwnsDelivery(db, snap.id, tok) || !OwnsInbox(db, msg, tok) then (db, false)
    else
      var row := db.deliveries[snap.id];
      var marked := SetInbox(SetDelivery(db, snap.id, Released(row).(status := Ambiguous, nextAttempt := None)), msg, InProcessed);
      var reviewed := SetContinuationIfCurrent(marked, snap.row.continuation, snap.id, ManualReview);
      (reviewed.(events := reviewed.events + [DeliveryAmbiguous(snap.id)]), true)
  }

  function MarkObserved(db: Db, now: Time, msg: Message, snap: Snapshot, tok: Token): (Db, bool) {
    if !OwnsDelivery(db, snap.id, tok) || !OwnsInbox(db, msg, tok) then (db, false)
    else
      var row := db.deliveries[snap.id];
      var marked := SetInbox(SetDelivery(db, snap.id,
        Released(row).(status := Observed, observedAt := Coalesce(row.observedAt, now), nextAttempt := None)), msg, InProcessed);
      var closed := SetContinuationIfCurrent(marked, snap.row.continuation, snap.id, Delivered);
      (closed.(events := closed.events + [DeliveryObserved(snap.id)]), true)
  }

  /** Frees the delivery lease if still held; the whole transaction depends only on the inbox claim. */
  function ReleaseAfterError(db: Db, msg: Message, tok: Token): (Db, bool) {
    if !OwnsInbox(db, msg, tok) then (db, false)
    else
      var freed := if OwnsDelivery(db, msg.env.delivery, tok)
                   then SetDelivery(db, msg.env.delivery, Released(db.deliveries[msg.env.delivery]))
                   else db;
      (SetInbox(freed, msg, InDeferred), true)
  }

  /** Operator cancellation, run by the control plane: withdraws the undelivered rows but leaves leases alone. */
  function CancelContinuation(db: Db, c: ContinuationId): Db {
    if c !in db.continuations || db.continuations[c].status == Cancelled then db
    else db.(
      continuations := db.continuations[c := db.continuations[c].(status := Cancelled)],
      deliveries := map d | d in db.deliveries :: CancelRow(db.deliveries[d], c))
  }

  function CancelRow(row: DeliveryRow, c: ContinuationId): DeliveryRow {
    if row.continuation == c && (row.status == Pending || row.status == Claimed || row.status == Deferred)
       && row.acceptedAt.None? && row.observedAt.None?
    then row.(status := Dead)
    else row
  }
}
