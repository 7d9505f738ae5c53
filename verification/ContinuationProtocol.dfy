/**
  Durable continuation delivery as a state machine: an at-least-once broker, any number of handlers,
  the tables of ContinuationTables, a session lock, and an external target whose answers are
  arbitrary. Every SQL transaction and every external call is one step; a crash, a redelivery, the
  passing of time, an operator cancellation or another handler may come between any two steps.
 */
module ContinuationProtocol {
  import opened Wrappers
  import opened ContinuationTables

  type CopyId = nat

  datatype Config = Config(completionTimeout: nat, ambiguityDelay: nat, verifyDelay: nat, verifyAttempts: nat)

  /** Where a published broker copy is. */
  datatype Place = Queued | HeldBy(token: Token) | Acked | DeadLettered
  datatype Copy = Copy(msg: Message, place: Place)

  /** The next thing a handler will do. */
  datatype Pc =
    | Received                     // claim_inbox
    | InboxClaimed                 // load_and_claim_delivery
    | ClosingInbox                 // mark_inbox_processed_owned
    | DeferringInbox               // defer_inbox_owned
    | Leased                       // adapter check, then the session lock
    | Yielding                     // defer_delivery after the session lock was refused
    | Looking                      // GET the deterministic target message
    | Matched(dispatched: bool)    // GET the session messages
    | Observing                    // mark_observed
    | Deferring(next: DeliveryStatus)  // defer_delivery
    | CheckingSession              // GET the session status, then the attempt budget
    | StartingDispatch             // mark_dispatching
    | Posting                      // spawn_terminal_prompt
    | Verifying(polls: nat)        // verify_after_dispatch
    | Accepting                    // mark_accepted
    | Disputing                    // mark_delivery_ambiguous
    | Killing                      // mark_delivery_dead
    | Failing                      // release_claim_after_error
    | Acking
    | Requeueing
    | Rejecting

  datatype Handler = Handler(copy: CopyId, msg: Message, pc: Pc, snap: Option<Snapshot>)

  datatype Target = Absent | TargetPending | Match | Collision
  datatype Turn = TurnPending | TurnCompleted | TurnFailed

  /** What the outside answers during a step. */
  datatype World = World(target: Target, turn: Turn, busy: bool)

  /** LostCall: the call failed without effect. LostReply: it took effect but was reported as failed. */
  datatype Fault = NoFault | LostCall | LostReply

  datatype Post = Post(delivery: DeliveryId, effect: EffectKey, poster: Token)

  datatype State = State(
    now: Time,
    db: Db,
    handlers: map<Token, Handler>,
    copies: map<CopyId, Copy>,
    locks: map<SessionKey, Token>,
    issued: set<Token>,                       // every token ever drawn
    posts: seq<Post>,                         // every prompt request ever spawned
    dispatchedBy: map<DeliveryId, Token>)     // whose mark_dispatching committed

  datatype Action =
    | Tick(ms: nat)
    | Bind(c: ContinuationId, cont: ContinuationRow)
    | Materialize(d: DeliveryId, row: DeliveryRow)
    | Cancel(target: ContinuationId)
    | Publish(id: CopyId, msg: Message)
    | Deliver(id: CopyId, tok: Token)
    | Redeliver(id: CopyId)          // the broker takes back an unacknowledged copy; its handler works on
    | Act(tok: Token, world: World, fault: Fault)
    | Crash(tok: Token)

  // ---------------------------------------------------------------- the handler

  predicate CompletionExpired(cfg: Config, snap: Snapshot, now: Time) {
    snap.row.dispatchStarted.Some? && now - snap.row.dispatchStarted.value >= cfg.completionTimeout
  }

  predicate AmbiguityActive(cfg: Config, snap: Snapshot, now: Time) {
    snap.row.dispatchStarted.Some? && 0 <= now - snap.row.dispatchStarted.value < cfg.ambiguityDelay
  }

  /** Steps taken between acquiring and releasing the session lock. */
  predicate InLock(pc: Pc) {
    pc.Looking? || pc.Matched? || pc.Observing? || pc.Deferring? || pc.CheckingSession?
    || pc.StartingDispatch? || pc.Posting? || pc.Verifying? || pc.Accepting?
  }

  predicate Settling(pc: Pc) {
    pc.Acking? || pc.Requeueing? || pc.Rejecting?
  }

  predicate NeedsSnapshot(pc: Pc) {
    InLock(pc) || pc.Leased? || pc.Yielding? || pc.Disputing?
  }

  /** Status a deferral keeps when the effect may already be in flight. */
  function InFlightStatus(snap: Snapshot): DeliveryStatus {
    if snap.row.status == Accepted then Accepted else Dispatching
  }

  /** What process_claimed does with the first answer about the target message. */
  function AfterLook(cfg: Config, snap: Snapshot, now: Time, target: Target): Pc {
    match target
    case Match => Matched(false)
    case Collision => Killing
    case TargetPending =>
      if snap.row.dispatchStarted.Some? && !AmbiguityActive(cfg, snap, now) then Disputing
      else Deferring(if snap.row.dispatchStarted.Some? then InFlightStatus(snap) else Deferred)
    case Absent =>
      if snap.row.dispatchStarted.None? then CheckingSession
      else if AmbiguityActive(cfg, snap, now) then Deferring(InFlightStatus(snap))
      else Disputing
  }

  function AfterTurn(cfg: Config, snap: Snapshot, now: Time, dispatched: bool, turn: Turn): Pc {
    match turn
    case TurnCompleted => Observing
    case TurnFailed => Disputing
    case TurnPending => if !dispatched && CompletionExpired(cfg, snap, now) then Disputing else Deferring(Accepted)
  }

  function AfterPoll(cfg: Config, polls: nat, target: Target): Pc {
    if polls >= cfg.verifyAttempts then Deferring(Dispatching)
    else match target
      case Match => Accepting
      case Collision => Killing
      case _ => if polls + 1 < cfg.verifyAttempts then Verifying(polls + 1) else Deferring(Dispatching)
  }

  /** Where an error sends the handler. */
  function ErrorPc(pc: Pc): Pc {
    if pc.Received? || pc.Disputing? || pc.Killing? || pc.Failing? then Requeueing else Failing
  }

  datatype Effect = Effect(db: Db, pc: Pc, snap: Option<Snapshot>)

  function Commit(h: Handler, result: (Db, bool), ok: Pc): Effect {
    Effect(result.0, if result.1 then ok else ErrorPc(h.pc), h.snap)
  }

  /** One fault-free step of a handler that still has database or target work to do. */
  function Advance(cfg: Config, now: Time, db: Db, tok: Token, h: Handler, w: World, lockFree: bool): Effect
    requires !Settling(h.pc)
    requires NeedsSnapshot(h.pc) ==> h.snap.Some?
  {
    match h.pc
    case Received =>
      var (db', claim) := ClaimInbox(db, now, h.msg, tok);
      Effect(db', match claim { case Won => InboxClaimed case ProcessedDuplicate => Acking case InboxBusy => Requeueing case Poison => Rejecting }, None)
    case InboxClaimed =>
      var (db', claim) := LoadAndClaim(db, now, h.msg, tok);
      (match claim
       case Ready(snap) => Effect(db', Leased, Some(snap))
       case AlreadyObserved => Effect(db', ClosingInbox, None)
       case Withdrawn => Effect(db', ClosingInbox, None)
       case LeaseBusy => Effect(db', DeferringInbox, None)
       case NotDue => Effect(db', DeferringInbox, None)
       case Unclaimable(target) => Effect(db', Killing, target))
    case ClosingInbox => Commit(h, CloseInbox(db, h.msg, tok, InProcessed), Acking)
    case DeferringInbox => Commit(h, CloseInbox(db, h.msg, tok, InDeferred), Requeueing)
    case Leased =>
      Effect(db, if !h.snap.value.cont.adapterSupported then Killing else if lockFree then Looking else Yielding, h.snap)
    case Yielding => Commit(h, DeferDelivery(db, now, cfg.verifyDelay, h.msg, h.snap.value.id, tok, Deferred), Requeueing)
    case Looking => Effect(db, AfterLook(cfg, h.snap.value, now, w.target), h.snap)
    case Matched(dispatched) => Effect(db, AfterTurn(cfg, h.snap.value, now, dispatched, w.turn), h.snap)
    case Observing => Commit(h, MarkObserved(db, now, h.msg, h.snap.value, tok), Acking)
    case Deferring(next) => Commit(h, DeferDelivery(db, now, cfg.verifyDelay, h.msg, h.snap.value.id, tok, next), Requeueing)
    case CheckingSession =>
      Effect(db, if w.busy then Deferring(Deferred) else if h.snap.value.row.attempts >= MAX_ATTEMPTS then Killing else StartingDispatch, h.snap)
    case StartingDispatch => Commit(h, MarkDispatching(db, now, h.snap.value, tok), Posting)
    case Posting => Effect(db, Verifying(0), h.snap)
    case Verifying(polls) => Effect(db, AfterPoll(cfg, polls, w.target), h.snap)
    case Accepting => Commit(h, MarkAccepted(db, now, h.snap.value.id, tok), Matched(true))
    case Disputing => Commit(h, MarkAmbiguous(db, h.msg, h.snap.value, tok), Acking)
    case Killing => Commit(h, MarkDead(db, h.msg, h.snap, tok), Rejecting)
    case Failing => Commit(h, ReleaseAfterError(db, h.msg, tok), Requeueing).(pc := Requeueing)
  }

  function WithFault(db: Db, h: Handler, e: Effect, fault: Fault): Effect {
    match fault
    case NoFault => e
    case LostCall => Effect(db, ErrorPc(h.pc), h.snap)
    case LostReply => Effect(e.db, ErrorPc(h.pc), h.snap)
  }

  // ---------------------------------------------------------------- the system

  function Unlock(locks: map<SessionKey, Token>, tok: Token): map<SessionKey, Token> {
    map k | k in locks && locks[k] != tok :: locks[k]
  }

  function Locks(s: State, tok: Token, e: Effect): map<SessionKey, Token> {
    if InLock(e.pc) && e.snap.Some? then s.locks[e.snap.value.cont.session := tok] else Unlock(s.locks, tok)
  }

  predicate CanAct(s: State, tok: Token) {
    && tok in s.handlers
    && s.handlers[tok].copy in s.copies
    && (NeedsSnapshot(s.handlers[tok].pc) ==> s.handlers[tok].snap.Some?)
  }

  function LockFree(s: State, h: Handler): bool {
    h.snap.None? || h.snap.value.cont.session !in s.locks
  }

  function HandlerEffect(cfg: Config, s: State, tok: Token, w: World, fault: Fault): Effect
    requires CanAct(s, tok) && !Settling(s.handlers[tok].pc)
  {
    var h := s.handlers[tok];
    WithFault(s.db, h, Advance(cfg, s.now, s.db, tok, h, w, LockFree(s, h)), fault)
  }

  /** This step is a mark_dispatching that commits. */
  predicate Dispatches(s: State, tok: Token, h: Handler, fault: Fault) {
    h.pc.StartingDispatch? && h.snap.Some? && !fault.LostCall? && MarkDispatching(s.db, s.now, h.snap.value, tok).1
  }

  /** The state after a handler's effect: tables, its own control, its lock, and the two ghost records. */
  function Moved(s: State, tok: Token, e: Effect, posted: bool, dispatched: bool): State
    requires tok in s.handlers && (posted || dispatched ==> s.handlers[tok].snap.Some?)
  {
    var h := s.handlers[tok];
    s.(db := e.db,
       handlers := s.handlers[tok := h.(pc := e.pc, snap := e.snap)],
       locks := Locks(s, tok, e),
       posts := if posted then s.posts + [Post(h.snap.value.id, h.snap.value.row.effect, tok)] else s.posts,
       dispatchedBy := if dispatched then s.dispatchedBy[h.snap.value.id := tok] else s.dispatchedBy)
  }

  /** A handler works: its transaction commits, its control moves, and a spawned prompt is recorded. */
  function Work(cfg: Config, s: State, tok: Token, w: World, fault: Fault): State
    requires CanAct(s, tok) && !Settling(s.handlers[tok].pc)
  {
    var h := s.handlers[tok];
    Moved(s, tok, HandlerEffect(cfg, s, tok, w, fault), h.pc.Posting? && !fault.LostCall?, Dispatches(s, tok, h, fault))
  }

  /** The handler is gone; its copy goes where its last call to the broker sent it, unless the broker took it back. */
  function Leave(s: State, tok: Token, place: Place): State
    requires tok in s.handlers && s.handlers[tok].copy in s.copies
  {
    var copy := s.handlers[tok].copy;
    s.(handlers := s.handlers - {tok},
       copies := if s.copies[copy].place == HeldBy(tok) then s.copies[copy := s.copies[copy].(place := place)] else s.copies,
       locks := Unlock(s.locks, tok))
  }

  predicate FreshDelivery(s: State, row: DeliveryRow) {
    && row.status == Pending && row.attempts == 0 && row.lease.None? && row.leaseExpires.None?
    && row.nextAttempt.None? && row.dispatchStarted.None? && row.acceptedAt.None? && row.observedAt.None?
    && row.continuation in s.db.continuations
    && s.db.continuations[row.continuation].status != Cancelled
    && (forall d :: d in s.db.deliveries ==> s.db.deliveries[d].effect != row.effect)
  }

  ghost predicate Enabled(s: State, a: Action) {
    match a
    case Tick(_) => true
    case Bind(c, cont) => c !in s.db.continuations
    case Materialize(d, row) => d !in s.db.deliveries && FreshDelivery(s, row)
    case Cancel(_) => true
    case Publish(id, _) => id !in s.copies
    case Deliver(id, tok) => id in s.copies && s.copies[id].place == Queued && tok !in s.issued
    case Redeliver(id) => id in s.copies && s.copies[id].place.HeldBy?
    case Act(tok, _, _) => CanAct(s, tok)
    case Crash(tok) => tok in s.handlers && s.handlers[tok].copy in s.copies
  }

  /** One action; an action that is not enabled changes nothing. */
  ghost function Next(cfg: Config, s: State, a: Action): State {
    if !Enabled(s, a) then s
    else match a
      case Tick(ms) => s.(now := s.now + ms)
      case Bind(c, cont) => s.(db := s.db.(continuations := s.db.continuations[c := cont]))
      case Materialize(d, row) =>
        var cont := s.db.continuations[row.continuation].(status := WakePending, current := Some(d));
        s.(db := s.db.(deliveries := s.db.deliveries[d := row], continuations := s.db.continuations[row.continuation := cont]))
      case Cancel(c) => s.(db := CancelContinuation(s.db, c))
      case Publish(id, msg) => s.(copies := s.copies[id := Copy(msg, Queued)])
      case Deliver(id, tok) =>
        s.(handlers := s.handlers[tok := Handler(id, s.copies[id].msg, Received, None)],
           copies := s.copies[id := s.copies[id].(place := HeldBy(tok))],
           issued := s.issued + {tok})
      case Redeliver(id) => s.(copies := s.copies[id := s.copies[id].(place := Queued)])
      case Act(tok, w, fault) =>
        (match s.handlers[tok].pc
         case Acking => Leave(s, tok, Acked)
         case Requeueing => Leave(s, tok, Queued)
         case Rejecting => Leave(s, tok, DeadLettered)
         case _ => Work(cfg, s, tok, w, fault))
      case Crash(tok) => Leave(s, tok, Queued)
  }

  ghost function Run(cfg: Config, s: State, acts: seq<Action>): State
    decreases |acts|
  {
    if acts == [] then s else Run(cfg, Next(cfg, s, acts[0]), acts[1..])
  }

  ghost function Init(now: Time): State {
    State(now, Db(map[], map[], map[], []), map[], map[], map[], {}, [], map[])
  }
}
