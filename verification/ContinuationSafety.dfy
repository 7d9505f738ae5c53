/** The invariant of the delivery protocol and what every run guarantees. */
module ContinuationSafety {
  import opened Wrappers
  import opened ContinuationTables
  import opened ContinuationProtocol

  // ---------------------------------------------------------------- the invariant

  ghost predicate RowOk(s: State, d: DeliveryId)
    requires d in s.db.deliveries
  {
    var row := s.db.deliveries[d];
    && row.continuation in s.db.continuations
    && 0 <= row.attempts <= MAX_ATTEMPTS
    && (row.attempts == 1 <==> row.dispatchStarted.Some?)
    && (row.attempts == 1 <==> d in s.dispatchedBy)
    && (row.acceptedAt.Some? ==> row.dispatchStarted.Some?)
    && (row.lease.Some? <==> row.leaseExpires.Some?)
    && (row.lease.Some? ==> row.lease.value in s.issued)
    && (row.status == Observed || row.status == Ambiguous ==> row.lease.None?)
    && (row.observedAt.Some? <==> row.status == Observed)
    && (!s.db.continuations[row.continuation].promptIdentity ==> row.lease.None? && row.attempts == 0)
  }

  ghost predicate EffectsUnique(db: Db) {
    forall d, e :: d in db.deliveries && e in db.deliveries && d != e ==> db.deliveries[d].effect != db.deliveries[e].effect
  }

  ghost predicate DispatchersOk(s: State) {
    forall d :: d in s.dispatchedBy ==> d in s.db.deliveries && s.dispatchedBy[d] in s.issued
  }

  ghost predicate EachRowOk(s: State) {
    forall d :: d in s.db.deliveries ==> RowOk(s, d)
  }

  ghost predicate RowsOk(s: State) {
    EachRowOk(s) && EffectsUnique(s.db) && DispatchersOk(s)
  }

  ghost predicate PostOk(s: State, p: Post) {
    && p.delivery in s.db.deliveries
    && p.delivery in s.dispatchedBy
    && p.poster == s.dispatchedBy[p.delivery]
    && p.effect == s.db.deliveries[p.delivery].effect
  }

  ghost predicate PostsOk(s: State) {
    && (forall i :: 0 <= i < |s.posts| ==> PostOk(s, s.posts[i]))
    && (forall i, j :: 0 <= i < j < |s.posts| ==> s.posts[i].delivery != s.posts[j].delivery)
  }

  predicate InboxRowOk(row: InboxRow, issued: set<Token>) {
    && (row.owner.Some? <==> row.status == InClaimed)
    && (row.owner.Some? <==> row.expires.Some?)
    && (row.owner.Some? ==> row.owner.value in issued)
  }

  ghost predicate InboxOk(s: State) {
    forall m :: m in s.db.inbox ==> InboxRowOk(s.db.inbox[m], s.issued)
  }

  predicate SettledOk(db: Db, m: MessageId, place: Place) {
    && (place.Acked? ==> m in db.inbox && (db.inbox[m].status == InProcessed || db.inbox[m].status == InDead))
    && (place.DeadLettered? ==> m in db.inbox && db.inbox[m].status == InDead)
  }

  ghost predicate CopyOk(s: State, id: CopyId)
    requires id in s.copies
  {
    && SettledOk(s.db, s.copies[id].msg.env.message, s.copies[id].place)
    && (s.copies[id].place.HeldBy? ==>
          s.copies[id].place.token in s.handlers && s.handlers[s.copies[id].place.token].copy == id)
  }

  ghost predicate CopiesOk(s: State) {
    forall id :: id in s.copies ==> CopyOk(s, id)
  }

  predicate SnapshotOk(s: State, msg: Message, snap: Snapshot) {
    && snap.id == msg.env.delivery
    && snap.id in s.db.deliveries
    && snap.row.effect == s.db.deliveries[snap.id].effect
    && snap.row.continuation == s.db.deliveries[snap.id].continuation
    && (snap.row.dispatchStarted.Some? ==> s.db.deliveries[snap.id].dispatchStarted == snap.row.dispatchStarted)
    && 0 <= snap.row.attempts <= MAX_ATTEMPTS
    && (snap.row.attempts == 1 <==> snap.row.dispatchStarted.Some?)
  }

  /** Control points from which this handler may still dispatch. */
  predicate BeforeDispatch(pc: Pc) {
    pc.Leased? || pc.Looking? || pc.CheckingSession? || pc.StartingDispatch?
  }

  predicate AfterDispatch(pc: Pc) {
    pc.Posting? || pc.Verifying? || pc.Accepting? || pc == Matched(true)
  }

  ghost predicate NotPosted(s: State, d: DeliveryId) {
    forall i :: 0 <= i < |s.posts| ==> s.posts[i].delivery != d
  }

  /** While the lease is still mine, the row is the row I claimed: nobody dispatched since. */
  predicate SnapshotCurrent(s: State, tok: Token, snap: Snapshot)
    requires snap.id in s.db.deliveries
  {
    s.db.deliveries[snap.id].lease == Some(tok) ==>
      && s.db.deliveries[snap.id].attempts == snap.row.attempts
      && s.db.deliveries[snap.id].dispatchStarted == snap.row.dispatchStarted
  }

  predicate HandlerHolds(s: State, tok: Token)
    requires tok in s.handlers
  {
    var h := s.handlers[tok];
    && tok in s.issued
    && h.copy in s.copies
    && s.copies[h.copy].msg == h.msg
    && (h.pc.Acking? ==> SettledOk(s.db, h.msg.env.message, Acked))
    && (h.pc.Rejecting? ==> SettledOk(s.db, h.msg.env.message, DeadLettered))
  }

  predicate HandlerKnows(s: State, tok: Token)
    requires tok in s.handlers
  {
    var h := s.handlers[tok];
    && (NeedsSnapshot(h.pc) ==> h.snap.Some?)
    && (h.snap.Some? ==> SnapshotOk(s, h.msg, h.snap.value))
    && (h.pc.Received? || h.pc.InboxClaimed? ==>
          h.snap.None? && (h.msg.env.delivery in s.db.deliveries ==> s.db.deliveries[h.msg.env.delivery].lease != Some(tok)))
    && (BeforeDispatch(h.pc) ==> SnapshotCurrent(s, tok, h.snap.value))
    && (h.pc.CheckingSession? || h.pc.StartingDispatch? ==> h.snap.value.row.dispatchStarted.None?)
  }

  ghost predicate HandlerPosts(s: State, tok: Token)
    requires tok in s.handlers
  {
    var h := s.handlers[tok];
    && (AfterDispatch(h.pc) ==> h.msg.env.delivery in s.dispatchedBy && s.dispatchedBy[h.msg.env.delivery] == tok)
    && (h.pc.Posting? ==> NotPosted(s, h.msg.env.delivery))
  }

  ghost predicate HandlerOk(s: State, tok: Token)
    requires tok in s.handlers
  {
    HandlerHolds(s, tok) && HandlerKnows(s, tok) && HandlerPosts(s, tok)
  }

  ghost predicate HandlersOk(s: State) {
    forall tok :: tok in s.handlers ==> HandlerOk(s, tok)
  }

  ghost predicate LocksOk(s: State) {
    && (forall k :: k in s.locks ==>
          && s.locks[k] in s.handlers
          && InLock(s.handlers[s.locks[k]].pc)
          && s.handlers[s.locks[k]].snap.Some?
          && s.handlers[s.locks[k]].snap.value.cont.session == k)
    && (forall t :: t in s.handlers && InLock(s.handlers[t].pc) && s.handlers[t].snap.Some? ==>
          && s.handlers[t].snap.value.cont.session in s.locks
          && s.locks[s.handlers[t].snap.value.cont.session] == t)
  }

  ghost predicate Inv(s: State) {
    RowsOk(s) && PostsOk(s) && InboxOk(s) && CopiesOk(s) && HandlersOk(s) && LocksOk(s)
  }

  // ---------------------------------------------------------------- what one handler step does to the tables

  predicate SameIdentity(r: DeliveryRow, r': DeliveryRow) {
    r'.continuation == r.continuation && r'.run == r.run && r'.generation == r.generation && r'.effect == r.effect
  }

  /** A row changes under a lease only at the hand of its holder, and only in these ways. */
  predicate HolderMoves(now: Time, tok: Token, r: DeliveryRow, r': DeliveryRow, dispatches: bool) {
    && SameIdentity(r, r')
    && (r'.lease == r.lease || r'.lease.None?)
    && (r'.leaseExpires == if r'.lease.None? then None else r.leaseExpires)
    && (dispatches ==> r'.attempts == r.attempts + 1 && r'.dispatchStarted == Some(now) && r'.lease == r.lease)
    && (!dispatches ==> r'.attempts == r.attempts && r'.dispatchStarted == r.dispatchStarted)
    && (r'.status == Observed || r'.status == Ambiguous ==> r'.status == r.status || r'.lease.None?)
    && (r'.acceptedAt != r.acceptedAt ==> r'.status == Accepted && r'.lease == r.lease)
    && (r'.observedAt == r.observedAt || (r'.observedAt.Some? && r'.status == Observed))
    && (r'.status == Observed ==> r'.observedAt.Some? || r'.status == r.status)
  }

  /** A delivery row moves only by a claim of a free, live row, or by the holder of its lease. */
  predicate RowMoves(now: Time, tok: Token, r: DeliveryRow, r': DeliveryRow, dispatches: bool) {
    && (dispatches ==> r.lease == Some(tok) && HolderMoves(now, tok, r, r', dispatches))
    && (!dispatches && r' != r ==>
          || (r' == ClaimRow(r, now, tok) && !Terminal(r.status) && !LeaseActive(r.lease, r.leaseExpires, now))
          || (r.lease == Some(tok) && HolderMoves(now, tok, r, r', dispatches)))
  }

  predicate InboxMoves(tok: Token, r: InboxRow, r': InboxRow) {
    && r'.hash == r.hash
    && (r.status == InDead ==> r'.status == InDead)
    && (r.status == InProcessed ==> r'.status == InProcessed || r'.status == InDead)
    && (r'.status == InClaimed ==> r' == r.(deliveries := r'.deliveries) || (r'.owner == Some(tok) && r'.expires.Some?))
    && (r'.status != InClaimed ==> r' == r.(deliveries := r'.deliveries) || (r'.owner.None? && r'.expires.None?))
  }

  ghost predicate DeliveriesMove(db: Db, db': Db, now: Time, tok: Token, d: DeliveryId, dispatches: bool) {
    && db'.deliveries.Keys == db.deliveries.Keys
    && (forall x :: x in db.deliveries && x != d ==> db'.deliveries[x] == db.deliveries[x])
    && (d in db.deliveries ==> RowMoves(now, tok, db.deliveries[d], db'.deliveries[d], dispatches))
    && (dispatches ==> d in db.deliveries)
    && (d in db.deliveries && db'.deliveries[d].lease.Some? && db'.deliveries[d].lease != db.deliveries[d].lease ==>
          db.deliveries[d].continuation in db.continuations && db.continuations[db.deliveries[d].continuation].promptIdentity)
  }

  ghost predicate ContinuationsMove(db: Db, db': Db) {
    && db'.continuations.Keys == db.continuations.Keys
    && (forall c :: c in db.continuations ==> db'.continuations[c] == db.continuations[c].(status := db'.continuations[c].status))
  }

  ghost predicate InboxesMove(db: Db, db': Db, tok: Token, m: MessageId) {
    && (forall x :: x in db.inbox && x != m ==> x in db'.inbox && db'.inbox[x] == db.inbox[x])
    && (m in db.inbox ==> m in db'.inbox && InboxMoves(tok, db.inbox[m], db'.inbox[m]))
    && (forall x :: x in db'.inbox && x !in db.inbox ==>
          x == m && db'.inbox[x].status == InClaimed && db'.inbox[x].owner == Some(tok) && db'.inbox[x].expires.Some?)
  }

  ghost predicate DbMoves(db: Db, db': Db, now: Time, tok: Token, msg: Message, dispatches: bool) {
    && DeliveriesMove(db, db', now, tok, msg.env.delivery, dispatches)
    && ContinuationsMove(db, db')
    && InboxesMove(db, db', tok, msg.env.message)
  }

  predicate AdvanceReady(tok: Token, h: Handler) {
    && !Settling(h.pc)
    && (NeedsSnapshot(h.pc) ==> h.snap.Some?)
    && (h.snap.Some? ==> h.snap.value.id == h.msg.env.delivery)
  }

  lemma ClaimInboxMoves(db: Db, now: Time, tok: Token, msg: Message)
    ensures DbMoves(db, ClaimInbox(db, now, msg, tok).0, now, tok, msg, false)
  {
  }
  lemma CloseInboxMoves(db: Db, now: Time, tok: Token, msg: Message, status: InboxStatus)
    requires status == InProcessed || status == InDeferred
    ensures DbMoves(db, CloseInbox(db, msg, tok, status).0, now, tok, msg, false)
  {
  }
  lemma ReleaseMoves(db: Db, now: Time, tok: Token, msg: Message)
    ensures DbMoves(db, ReleaseAfterError(db, msg, tok).0, now, tok, msg, false)
  {
  }
  lemma LoadAndClaimMovesRow(db: Db, now: Time, tok: Token, msg: Message)
    ensures DeliveriesMove(db, LoadAndClaim(db, now, msg, tok).0, now, tok, msg.env.delivery, false)
  {
  }

  lemma LoadAndClaimMoves(db: Db, now: Time, tok: Token, msg: Message)
    ensures DbMoves(db, LoadAndClaim(db, now, msg, tok).0, now, tok, msg, false)
  {
    LoadAndClaimMovesRow(db, now, tok, msg);
    var db' := LoadAndClaim(db, now, msg, tok).0;
    assert db'.inbox == db.inbox && db'.continuations == db.continuations;
  }

  lemma MarkDispatchingMoves(db: Db, now: Time, tok: Token, msg: Message, snap: Snapshot)
    requires snap.id == msg.env.delivery
    ensures DbMoves(db, MarkDispatching(db, now, snap, tok).0, now, tok, msg, MarkDispatching(db, now, snap, tok).1)
  {
  }
  lemma MarkAcceptedMoves(db: Db, now: Time, tok: Token, msg: Message, snap: Snapshot)
    requires snap.id == msg.env.delivery
    ensures DbMoves(db, MarkAccepted(db, now, snap.id, tok).0, now, tok, msg, false)
  {
  }
  lemma DeferMoves(db: Db, now: Time, delay: nat, tok: Token, msg: Message, snap: Snapshot, next: DeliveryStatus)
    requires snap.id == msg.env.delivery
    ensures DbMoves(db, DeferDelivery(db, now, delay, msg, snap.id, tok, next).0, now, tok, msg, false)
  {
  }
  lemma AmbiguousMoves(db: Db, now: Time, tok: Token, msg: Message, snap: Snapshot)
    requires snap.id == msg.env.delivery
    ensures DbMoves(db, MarkAmbiguous(db, msg, snap, tok).0, now, tok, msg, false)
  {
  }
  lemma ObservedMoves(db: Db, now: Time, tok: Token, msg: Message, snap: Snapshot)
    requires snap.id == msg.env.delivery
    ensures DbMoves(db, MarkObserved(db, now, msg, snap, tok).0, now, tok, msg, false)
  {
  }
  lemma DeadMoves(db: Db, now: Time, tok: Token, msg: Message, target: Option<Snapshot>)
    requires target.Some? ==> target.value.id == msg.env.delivery
    ensures DbMoves(db, MarkDead(db, msg, target, tok).0, now, tok, msg, false)
  {
  }
  lemma NothingMoves(db: Db, now: Time, tok: Token, msg: Message)
    ensures DbMoves(db, db, now, tok, msg, false)
  {
  }

  lemma AdvanceMoves(cfg: Config, now: Time, db: Db, tok: Token, h: Handler, w: World, lockFree: bool)
    requires AdvanceReady(tok, h)
    ensures DbMoves(db, Advance(cfg, now, db, tok, h, w, lockFree).db, now, tok, h.msg,
                    h.pc.StartingDispatch? && MarkDispatching(db, now, h.snap.value, tok).1)
  {
    hide DbMoves, ClaimInbox, LoadAndClaim, CloseInbox, MarkDispatching, MarkAccepted, DeferDelivery, MarkDead, MarkAmbiguous, MarkObserved, ReleaseAfterError;
    match h.pc {
      case Received => ClaimInboxMoves(db, now, tok, h.msg);
      case InboxClaimed => LoadAndClaimMoves(db, now, tok, h.msg);
      case ClosingInbox => CloseInboxMoves(db, now, tok, h.msg, InProcessed);
      case DeferringInbox => CloseInboxMoves(db, now, tok, h.msg, InDeferred);
      case Yielding => DeferMoves(db, now, cfg.verifyDelay, tok, h.msg, h.snap.value, Deferred);
      case Deferring(next) => DeferMoves(db, now, cfg.verifyDelay, tok, h.msg, h.snap.value, next);
      case Observing => ObservedMoves(db, now, tok, h.msg, h.snap.value);
      case StartingDispatch => MarkDispatchingMoves(db, now, tok, h.msg, h.snap.value);
      case Accepting => MarkAcceptedMoves(db, now, tok, h.msg, h.snap.value);
      case Disputing => AmbiguousMoves(db, now, tok, h.msg, h.snap.value);
      case Killing => DeadMoves(db, now, tok, h.msg, h.snap);
      case Failing => ReleaseMoves(db, now, tok, h.msg);
      case _ => NothingMoves(db, now, tok, h.msg);
    }
  }

  lemma StepMoves(cfg: Config, s: State, tok: Token, w: World, fault: Fault)
    requires CanAct(s, tok) && AdvanceReady(tok, s.handlers[tok])
    ensures DbMoves(s.db, HandlerEffect(cfg, s, tok, w, fault).db, s.now, tok, s.handlers[tok].msg, Dispatches(s, tok, s.handlers[tok], fault))
  {
    var h := s.handlers[tok];
    AdvanceMoves(cfg, s.now, s.db, tok, h, w, LockFree(s, h));
    NothingMoves(s.db, s.now, tok, h.msg);
  }

  // ---------------------------------------------------------------- every step keeps the invariant

  /** Where a step's control comes from. */
  ghost predicate PhaseMoves(s: State, tok: Token, e: Effect, posted: bool, dispatched: bool)
    requires tok in s.handlers
  {
    var h := s.handlers[tok];
    && (posted ==> h.pc.Posting?)
    && (dispatched ==> h.pc.StartingDispatch?)
    && !Settling(h.pc)
    && !e.pc.Received? && (e.pc.InboxClaimed? ==> h.pc.Received? && e.snap.None?)
    && (h.pc.Received? ==> e.db.deliveries == s.db.deliveries)
    && (BeforeDispatch(e.pc) ==> h.pc.InboxClaimed? || (BeforeDispatch(h.pc) && e.snap == h.snap && e.db == s.db))
    && (AfterDispatch(e.pc) ==>
          || (dispatched && e.pc.Posting? && e.snap == h.snap)
          || (AfterDispatch(h.pc) && e.snap == h.snap && !e.pc.Posting?))
    && (InLock(e.pc) ==> e.snap == h.snap && (InLock(h.pc) || (h.pc.Leased? && LockFree(s, h))))
  }

  /** Where a step's snapshot comes from. */
  ghost predicate SnapshotMoves(s: State, tok: Token, e: Effect)
    requires tok in s.handlers
  {
    var h := s.handlers[tok];
    var d := h.msg.env.delivery;
    && (NeedsSnapshot(e.pc) ==> e.snap.Some?)
    && (e.snap.Some? && e.snap != h.snap ==>
          && h.pc.InboxClaimed?
          && d in s.db.deliveries
          && s.db.deliveries[d].continuation in s.db.continuations
          && e.snap.value == Snapshot(d, s.db.deliveries[d], s.db.continuations[s.db.deliveries[d].continuation]))
    && (e.pc.CheckingSession? || e.pc.StartingDispatch? ==> e.snap.value.row.dispatchStarted.None?)
  }

  /** What the control flow of a step guarantees about its effect. */
  ghost predicate ControlMoves(s: State, tok: Token, e: Effect, posted: bool, dispatched: bool)
    requires tok in s.handlers
  {
    PhaseMoves(s, tok, e, posted, dispatched) && SnapshotMoves(s, tok, e)
  }

  /** Only mark_accepted stamps accepted_at. */
  predicate AcceptsFairly(s: State, tok: Token, e: Effect)
    requires tok in s.handlers
  {
    var d := s.handlers[tok].msg.env.delivery;
    d in s.db.deliveries && d in e.db.deliveries && e.db.deliveries[d].acceptedAt != s.db.deliveries[d].acceptedAt ==> s.handlers[tok].pc.Accepting?
  }

  lemma StepAccepts(cfg: Config, s: State, tok: Token, w: World, fault: Fault)
    requires CanAct(s, tok) && AdvanceReady(tok, s.handlers[tok])
    ensures AcceptsFairly(s, tok, HandlerEffect(cfg, s, tok, w, fault))
  {
  }

  /** A handler decides to acknowledge or reject only after the inbox row says so. */
  predicate SettlesFairly(msg: Message, e: Effect) {
    && (e.pc.Acking? ==> SettledOk(e.db, msg.env.message, Acked))
    && (e.pc.Rejecting? ==> SettledOk(e.db, msg.env.message, DeadLettered))
  }

  lemma StepPhase(cfg: Config, s: State, tok: Token, w: World, fault: Fault)
    requires CanAct(s, tok) && !Settling(s.handlers[tok].pc)
    ensures PhaseMoves(s, tok, HandlerEffect(cfg, s, tok, w, fault),
                       s.handlers[tok].pc.Posting? && !fault.LostCall?, Dispatches(s, tok, s.handlers[tok], fault))
  {
    hide LoadAndClaim, CloseInbox, MarkDispatching, MarkAccepted, DeferDelivery, MarkDead, MarkAmbiguous, MarkObserved, ReleaseAfterError;
  }

  lemma StepSnapshot(cfg: Config, s: State, tok: Token, w: World, fault: Fault)
    requires CanAct(s, tok) && !Settling(s.handlers[tok].pc) && HandlerKnows(s, tok)
    ensures SnapshotMoves(s, tok, HandlerEffect(cfg, s, tok, w, fault))
  {
  }

  lemma StepControl(cfg: Config, s: State, tok: Token, w: World, fault: Fault)
    requires CanAct(s, tok) && !Settling(s.handlers[tok].pc) && HandlerOk(s, tok)
    ensures ControlMoves(s, tok, HandlerEffect(cfg, s, tok, w, fault),
                         s.handlers[tok].pc.Posting? && !fault.LostCall?, Dispatches(s, tok, s.handlers[tok], fault))
  {
    StepPhase(cfg, s, tok, w, fault);
    StepSnapshot(cfg, s, tok, w, fault);
  }

  lemma StepSettles(cfg: Config, s: State, tok: Token, w: World, fault: Fault)
    requires CanAct(s, tok) && !Settling(s.handlers[tok].pc)
    ensures SettlesFairly(s.handlers[tok].msg, HandlerEffect(cfg, s, tok, w, fault))
  {
  }

  /** A committed mark_dispatching finds a row nobody dispatched before. */
  lemma DispatchIsFirst(s: State, tok: Token, e: Effect)
    requires tok in s.handlers && HandlerKnows(s, tok)
    requires s.handlers[tok].msg.env.delivery in s.db.deliveries && RowOk(s, s.handlers[tok].msg.env.delivery)
    requires DeliveriesMove(s.db, e.db, s.now, tok, s.handlers[tok].msg.env.delivery, true)
    requires s.handlers[tok].pc.StartingDispatch?
    ensures s.db.deliveries[s.handlers[tok].msg.env.delivery].attempts == 0
    ensures s.handlers[tok].msg.env.delivery !in s.dispatchedBy
  {
  }

  lemma MovedKeepsRow(s: State, tok: Token, e: Effect, posted: bool, dispatched: bool)
    requires tok in s.handlers && tok in s.issued && HandlerKnows(s, tok) && HandlerPosts(s, tok)
    requires s.handlers[tok].msg.env.delivery in s.db.deliveries && RowOk(s, s.handlers[tok].msg.env.delivery)
    requires DeliveriesMove(s.db, e.db, s.now, tok, s.handlers[tok].msg.env.delivery, dispatched)
    requires ContinuationsMove(s.db, e.db)
    requires ControlMoves(s, tok, e, posted, dispatched) && AcceptsFairly(s, tok, e)
    ensures RowOk(Moved(s, tok, e, posted, dispatched), s.handlers[tok].msg.env.delivery)
  {
    if dispatched { DispatchIsFirst(s, tok, e); }
  }

  lemma MovedKeepsEachRow(s: State, tok: Token, e: Effect, posted: bool, dispatched: bool)
    requires EachRowOk(s) && tok in s.handlers && tok in s.issued && HandlerKnows(s, tok) && HandlerPosts(s, tok)
    requires DeliveriesMove(s.db, e.db, s.now, tok, s.handlers[tok].msg.env.delivery, dispatched)
    requires ContinuationsMove(s.db, e.db)
    requires ControlMoves(s, tok, e, posted, dispatched) && AcceptsFairly(s, tok, e)
    ensures EachRowOk(Moved(s, tok, e, posted, dispatched))
  {
    var s' := Moved(s, tok, e, posted, dispatched);
    forall d | d in s'.db.deliveries ensures RowOk(s', d) {
      assert RowOk(s, d);
      if d == s.handlers[tok].msg.env.delivery {
        MovedKeepsRow(s, tok, e, posted, dispatched);
      } else {
        UntouchedRow(s, s', d);
      }
    }
  }

  lemma MovedKeepsEffects(db: Db, db': Db, now: Time, tok: Token, d: DeliveryId, dispatched: bool)
    requires EffectsUnique(db) && DeliveriesMove(db, db', now, tok, d, dispatched)
    ensures EffectsUnique(db')
  {
    forall x | x in db'.deliveries ensures db'.deliveries[x].effect == db.deliveries[x].effect {}
  }

  lemma UntouchedRow(s: State, s': State, d: DeliveryId)
    requires d in s.db.deliveries && RowOk(s, d)
    requires d in s'.db.deliveries && s'.db.deliveries[d] == s.db.deliveries[d]
    requires ContinuationsMove(s.db, s'.db)
    requires d in s'.dispatchedBy <==> d in s.dispatchedBy
    requires s.issued <= s'.issued
    ensures RowOk(s', d)
  {
  }

  lemma MovedKeepsInbox(s: State, tok: Token, e: Effect, posted: bool, dispatched: bool)
    requires InboxOk(s) && tok in s.handlers && tok in s.issued
    requires InboxesMove(s.db, e.db, tok, s.handlers[tok].msg.env.message)
    requires posted || dispatched ==> s.handlers[tok].snap.Some?
    ensures InboxOk(Moved(s, tok, e, posted, dispatched))
  {
  }

  lemma MovedKeepsPosts(s: State, tok: Token, e: Effect, posted: bool, dispatched: bool)
    requires PostsOk(s) && tok in s.handlers && HandlerKnows(s, tok) && HandlerPosts(s, tok)
    requires DeliveriesMove(s.db, e.db, s.now, tok, s.handlers[tok].msg.env.delivery, dispatched)
    requires ControlMoves(s, tok, e, posted, dispatched)
    requires dispatched ==> RowOk(s, s.handlers[tok].msg.env.delivery)
    ensures PostsOk(Moved(s, tok, e, posted, dispatched))
  {
    if dispatched { DispatchIsFirst(s, tok, e); }
    var s' := Moved(s, tok, e, posted, dispatched);
    forall i | 0 <= i < |s'.posts| ensures PostOk(s', s'.posts[i]) {
      if i < |s.posts| { assert PostOk(s, s.posts[i]); }
    }
  }

  lemma MovedKeepsCopies(s: State, tok: Token, e: Effect, posted: bool, dispatched: bool)
    requires CopiesOk(s) && tok in s.handlers
    requires InboxesMove(s.db, e.db, tok, s.handlers[tok].msg.env.message)
    requires posted || dispatched ==> s.handlers[tok].snap.Some?
    ensures CopiesOk(Moved(s, tok, e, posted, dispatched))
  {
    var s' := Moved(s, tok, e, posted, dispatched);
    forall id | id in s'.copies ensures CopyOk(s', id) {
      assert CopyOk(s, id);
    }
  }

  lemma MovedKeepsLocks(s: State, tok: Token, e: Effect, posted: bool, dispatched: bool)
    requires LocksOk(s) && tok in s.handlers && (NeedsSnapshot(s.handlers[tok].pc) ==> s.handlers[tok].snap.Some?)
    requires ControlMoves(s, tok, e, posted, dispatched)
    ensures LocksOk(Moved(s, tok, e, posted, dispatched))
  {
  }

  lemma OtherStillHolds(s: State, tok: Token, e: Effect, s': State, t: Token)
    requires tok in s.handlers && t in s.handlers && HandlerHolds(s, t)
    requires InboxesMove(s.db, e.db, tok, s.handlers[tok].msg.env.message)
    requires s'.db == e.db && t in s'.handlers && s'.handlers[t] == s.handlers[t]
    requires s'.copies == s.copies && s'.issued == s.issued
    ensures HandlerHolds(s', t)
  {
  }

  lemma OtherStillKnows(s: State, tok: Token, e: Effect, s': State, t: Token, dispatched: bool)
    requires tok in s.handlers && t in s.handlers && t != tok && HandlerKnows(s, t)
    requires DeliveriesMove(s.db, e.db, s.now, tok, s.handlers[tok].msg.env.delivery, dispatched)
    requires dispatched ==> s.db.deliveries[s.handlers[tok].msg.env.delivery].dispatchStarted.None?
    requires s'.db == e.db && t in s'.handlers && s'.handlers[t] == s.handlers[t]
    ensures HandlerKnows(s', t)
  {
  }

  /** Every other handler is undisturbed: my step leaves its lease, its posts and its settlement alone. */
  lemma MovedKeepsOther(s: State, tok: Token, e: Effect, posted: bool, dispatched: bool, t: Token)
    requires tok in s.handlers && t in s.handlers && t != tok
    requires HandlerOk(s, tok) && HandlerOk(s, t)
    requires s.handlers[tok].msg.env.delivery in s.db.deliveries ==> RowOk(s, s.handlers[tok].msg.env.delivery)
    requires DbMoves(s.db, e.db, s.now, tok, s.handlers[tok].msg, dispatched)
    requires ControlMoves(s, tok, e, posted, dispatched)
    ensures HandlerOk(Moved(s, tok, e, posted, dispatched), t)
  {
    if dispatched { DispatchIsFirst(s, tok, e); }
    var s' := Moved(s, tok, e, posted, dispatched);
    OtherStillHolds(s, tok, e, s', t);
    OtherStillKnows(s, tok, e, s', t, dispatched);
    assert HandlerPosts(s', t);
  }

  lemma MovedKeepsSelf(s: State, tok: Token, e: Effect, posted: bool, dispatched: bool)
    requires PostsOk(s) && tok in s.handlers && HandlerOk(s, tok)
    requires s.handlers[tok].msg.env.delivery in s.db.deliveries ==> RowOk(s, s.handlers[tok].msg.env.delivery)
    requires DbMoves(s.db, e.db, s.now, tok, s.handlers[tok].msg, dispatched)
    requires ControlMoves(s, tok, e, posted, dispatched) && SettlesFairly(s.handlers[tok].msg, e)
    ensures HandlerOk(Moved(s, tok, e, posted, dispatched), tok)
  {
    MovedStillHolds(s, tok, e, posted, dispatched);
    MovedStillKnows(s, tok, e, posted, dispatched);
    MovedStillPosts(s, tok, e, posted, dispatched);
  }

  lemma MovedStillHolds(s: State, tok: Token, e: Effect, posted: bool, dispatched: bool)
    requires tok in s.handlers && HandlerHolds(s, tok) && SettlesFairly(s.handlers[tok].msg, e)
    requires posted || dispatched ==> s.handlers[tok].snap.Some?
    ensures HandlerHolds(Moved(s, tok, e, posted, dispatched), tok)
  {
  }

  lemma MovedStillKnows(s: State, tok: Token, e: Effect, posted: bool, dispatched: bool)
    requires tok in s.handlers && HandlerKnows(s, tok) && ControlMoves(s, tok, e, posted, dispatched)
    requires s.handlers[tok].msg.env.delivery in s.db.deliveries ==> RowOk(s, s.handlers[tok].msg.env.delivery)
    requires DbMoves(s.db, e.db, s.now, tok, s.handlers[tok].msg, dispatched)
    ensures HandlerKnows(Moved(s, tok, e, posted, dispatched), tok)
  {
  }

  lemma MovedStillPosts(s: State, tok: Token, e: Effect, posted: bool, dispatched: bool)
    requires PostsOk(s) && tok in s.handlers && HandlerOk(s, tok)
    requires s.handlers[tok].msg.env.delivery in s.db.deliveries ==> RowOk(s, s.handlers[tok].msg.env.delivery)
    requires DbMoves(s.db, e.db, s.now, tok, s.handlers[tok].msg, dispatched) && ControlMoves(s, tok, e, posted, dispatched)
    ensures HandlerPosts(Moved(s, tok, e, posted, dispatched), tok)
  {
    if dispatched { DispatchIsFirst(s, tok, e); }
    forall i | 0 <= i < |s.posts| ensures PostOk(s, s.posts[i]) { }
  }

  lemma WorkKeepsInv(cfg: Config, s: State, tok: Token, w: World, fault: Fault)
    requires Inv(s) && CanAct(s, tok) && !Settling(s.handlers[tok].pc)
    ensures Inv(Work(cfg, s, tok, w, fault))
  {
    var h := s.handlers[tok];
    var e := HandlerEffect(cfg, s, tok, w, fault);
    var posted, dispatched := h.pc.Posting? && !fault.LostCall?, Dispatches(s, tok, h, fault);
    assert HandlerOk(s, tok);
    StepMoves(cfg, s, tok, w, fault);
    StepControl(cfg, s, tok, w, fault);
    StepAccepts(cfg, s, tok, w, fault);
    StepSettles(cfg, s, tok, w, fault);
    EffectKeepsInv(s, tok, e, posted, dispatched);
  }

  lemma MovedKeepsHandlers(s: State, tok: Token, e: Effect, posted: bool, dispatched: bool)
    requires HandlersOk(s) && EachRowOk(s) && PostsOk(s) && tok in s.handlers
    requires DbMoves(s.db, e.db, s.now, tok, s.handlers[tok].msg, dispatched)
    requires ControlMoves(s, tok, e, posted, dispatched) && SettlesFairly(s.handlers[tok].msg, e)
    requires posted || dispatched ==> s.handlers[tok].snap.Some?
    ensures HandlersOk(Moved(s, tok, e, posted, dispatched))
  {
    var s' := Moved(s, tok, e, posted, dispatched);
    forall t | t in s'.handlers ensures HandlerOk(s', t) {
      assert HandlerOk(s, tok) && HandlerOk(s, t);
      if t == tok {
        MovedKeepsSelf(s, tok, e, posted, dispatched);
      } else {
        MovedKeepsOther(s, tok, e, posted, dispatched, t);
      }
    }
  }

  lemma EffectKeepsInv(s: State, tok: Token, e: Effect, posted: bool, dispatched: bool)
    requires Inv(s) && tok in s.handlers
    requires DbMoves(s.db, e.db, s.now, tok, s.handlers[tok].msg, dispatched)
    requires ControlMoves(s, tok, e, posted, dispatched)
    requires AcceptsFairly(s, tok, e) && SettlesFairly(s.handlers[tok].msg, e)
    requires posted || dispatched ==> s.handlers[tok].snap.Some?
    ensures Inv(Moved(s, tok, e, posted, dispatched))
  {
    var d := s.handlers[tok].msg.env.delivery;
    var s' := Moved(s, tok, e, posted, dispatched);
    assert HandlersOk(s') by { MovedKeepsHandlers(s, tok, e, posted, dispatched); }
    assert HandlerOk(s, tok);
    assert dispatched ==> d in s.db.deliveries && RowOk(s, d);
    assert EachRowOk(s') by { MovedKeepsEachRow(s, tok, e, posted, dispatched); }
    assert EffectsUnique(s'.db) by { MovedKeepsEffects(s.db, e.db, s.now, tok, d, dispatched); }
    assert DispatchersOk(s');
    assert PostsOk(s') by { MovedKeepsPosts(s, tok, e, posted, dispatched); }
    assert InboxOk(s') by { MovedKeepsInbox(s, tok, e, posted, dispatched); }
    assert CopiesOk(s') by { MovedKeepsCopies(s, tok, e, posted, dispatched); }
    assert LocksOk(s') by { MovedKeepsLocks(s, tok, e, posted, dispatched); }
  }
}
