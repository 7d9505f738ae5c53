/** Exactly which deliveries can still be posted by some later run, and the condition kept by every step. */
module ContinuationPosting {
  import opened Wrappers
  import opened ContinuationTables
  import opened ContinuationProtocol
  import opened ContinuationSafety
  import opened ContinuationRuns
  import opened ContinuationDecisions
  import opened ContinuationFrozen

  // ---------------------------------------------------------------- the condition

  predicate AtPost(s: State, t: Token, d: DeliveryId) {
    t in s.handlers && s.handlers[t].pc.Posting? && s.handlers[t].msg.env.delivery == d
  }

  /** Control points from which the lease alone leads to mark_dispatching. */
  predicate Starts(h: Handler) {
    && h.snap.Some?
    && (h.pc.Looking? || h.pc.CheckingSession? || h.pc.StartingDispatch? || (h.pc.Leased? && h.snap.value.cont.adapterSupported))
  }

  /** Control points from which a deferral gives a withdrawn row back to the queue. */
  predicate Revives(pc: Pc) {
    || pc.Yielding? || pc.Matched?
    || (pc.Deferring? && (pc.next == Deferred || pc.next == Dispatching || pc.next == Accepted))
  }

  /** Control points from which mark_observed or mark_delivery_ambiguous can be reached. */
  predicate Closes(cfg: Config, h: Handler) {
    && h.snap.Some?
    && (|| (h.pc.Leased? && h.snap.value.cont.adapterSupported)
        || h.pc.Looking? || h.pc.Matched? || h.pc.Observing? || h.pc.Disputing? || h.pc.Accepting?
        || (h.pc.Verifying? && h.pc.polls < cfg.verifyAttempts)
        || (cfg.verifyAttempts > 0 && (h.pc.Posting? || h.pc.CheckingSession? || h.pc.StartingDispatch?)))
  }

  predicate HolderStarts(s: State, d: DeliveryId)
    requires d in s.db.deliveries
  {
    var lease := s.db.deliveries[d].lease;
    lease.Some? && lease.value in s.handlers && s.handlers[lease.value].msg.env.delivery == d && Starts(s.handlers[lease.value])
  }

  predicate HolderRevives(s: State, d: DeliveryId)
    requires d in s.db.deliveries
  {
    var lease := s.db.deliveries[d].lease;
    && s.db.deliveries[d].status == Dead
    && lease.Some? && lease.value in s.handlers && s.handlers[lease.value].msg.env.delivery == d
    && OwnsInbox(s.db, s.handlers[lease.value].msg, lease.value) && Revives(s.handlers[lease.value].pc)
  }

  /** The handler of a continuation's current delivery can still overwrite the continuation's status. */
  predicate CanClose(cfg: Config, s: State, c: ContinuationId, x: DeliveryId, t: Token) {
    && x in s.db.deliveries && s.db.deliveries[x].lease == Some(t) && s.db.deliveries[x].continuation == c
    && t in s.handlers && s.handlers[t].msg.env.delivery == x
    && OwnsInbox(s.db, s.handlers[t].msg, t) && Closes(cfg, s.handlers[t])
  }

  /** The continuation is not cancelled, or the handler of another delivery can still undo that. */
  predicate Open(cfg: Config, s: State, c: ContinuationId, d: DeliveryId) {
    && c in s.db.continuations
    && (|| s.db.continuations[c].status != Cancelled
        || (var x := s.db.continuations[c].current;
            && x.Some? && x.value != d && x.value in s.db.deliveries && s.db.deliveries[x.value].lease.Some?
            && CanClose(cfg, s, c, x.value, s.db.deliveries[x.value].lease.value)))
  }

  predicate Dispatchable(s: State, row: DeliveryRow) {
    && row.continuation in s.db.continuations
    && s.db.continuations[row.continuation].promptIdentity && s.db.continuations[row.continuation].adapterSupported
  }

  /** Not yet attempted, and either its holder is on the way to dispatch it or somebody can claim it again. */
  predicate CanStart(cfg: Config, s: State, d: DeliveryId)
    requires d in s.db.deliveries
  {
    var row := s.db.deliveries[d];
    && row.attempts == 0
    && (|| HolderStarts(s, d)
        || ((!Terminal(row.status) || HolderRevives(s, d)) && Dispatchable(s, row) && Open(cfg, s, row.continuation, d)))
  }

  ghost predicate CanPost(cfg: Config, s: State, d: DeliveryId)
    requires d in s.db.deliveries
  {
    (exists t :: AtPost(s, t, d)) || CanStart(cfg, s, d)
  }

  // ---------------------------------------------------------------- where control comes from

  lemma StartsComesFrom(cfg: Config, now: Time, db: Db, tok: Token, h: Handler, w: World, lockFree: bool)
    requires !Settling(h.pc) && (NeedsSnapshot(h.pc) ==> h.snap.Some?)
    ensures var e := Advance(cfg, now, db, tok, h, w, lockFree); var h' := h.(pc := e.pc, snap := e.snap);
            && (Starts(h') ==> Starts(h) || h.pc.InboxClaimed?)
            && (Revives(h'.pc) ==> Revives(h.pc) || Starts(h) || AfterDispatch(h.pc))
            && (Closes(cfg, h') ==> Closes(cfg, h) || h.pc.InboxClaimed?)
            && (h.pc.InboxClaimed? && Starts(h') ==> e.pc.Leased?)
    ensures !Starts(h.(pc := ErrorPc(h.pc))) && !Revives(ErrorPc(h.pc)) && !Closes(cfg, h.(pc := ErrorPc(h.pc)))
  {
  }

  /** Only a claim gives an inbox row an owner, and only at the start. */
  lemma InboxOwnedBefore(cfg: Config, now: Time, db: Db, tok: Token, h: Handler, w: World, lockFree: bool)
    requires !Settling(h.pc) && !h.pc.Received? && (NeedsSnapshot(h.pc) ==> h.snap.Some?)
    ensures OwnsInbox(Advance(cfg, now, db, tok, h, w, lockFree).db, h.msg, tok) ==> OwnsInbox(db, h.msg, tok)
  {
  }

  /** A lease is newly taken only on a live row of a continuation that is not withdrawn, and the snapshot shows it. */
  lemma ClaimsOnlyLive(cfg: Config, now: Time, db: Db, tok: Token, h: Handler, w: World, lockFree: bool)
    requires AdvanceReady(tok, h) && h.msg.env.delivery in db.deliveries && db.deliveries[h.msg.env.delivery].lease != Some(tok)
    ensures var e, d := Advance(cfg, now, db, tok, h, w, lockFree), h.msg.env.delivery;
            d in e.db.deliveries && (e.db.deliveries[d].lease == Some(tok) ==>
              var row := db.deliveries[d];
              && h.pc.InboxClaimed? && !Terminal(row.status) && row.continuation in db.continuations
              && db.continuations[row.continuation].promptIdentity && db.continuations[row.continuation].status != Cancelled
              && (e.snap.Some? ==> e.snap.value.cont == db.continuations[row.continuation]))
  {
  }

  /** How a dead row can leave its status. */
  lemma DeadRowRevivedBy(cfg: Config, now: Time, db: Db, tok: Token, h: Handler, w: World, lockFree: bool)
    requires AdvanceReady(tok, h) && h.msg.env.delivery in db.deliveries && db.deliveries[h.msg.env.delivery].status == Dead
    ensures var e, d := Advance(cfg, now, db, tok, h, w, lockFree), h.msg.env.delivery;
            d in e.db.deliveries && (!Terminal(e.db.deliveries[d].status) ==>
              && db.deliveries[d].lease == Some(tok)
              && (h.pc.Accepting? || h.pc.StartingDispatch?
                  || (OwnsInbox(db, h.msg, tok) && Revives(h.pc))))
  {
  }

  /** How a continuation can leave the status cancelled. */
  lemma ReopenedBy(cfg: Config, now: Time, db: Db, tok: Token, h: Handler, w: World, lockFree: bool, c: ContinuationId)
    requires AdvanceReady(tok, h) && c in db.continuations && db.continuations[c].status == Cancelled
    ensures var e := Advance(cfg, now, db, tok, h, w, lockFree);
            c in e.db.continuations && (e.db.continuations[c].status != Cancelled ==>
              && (h.pc.Observing? || h.pc.Disputing?) && h.snap.Some? && h.snap.value.row.continuation == c
              && db.continuations[c].current == Some(h.msg.env.delivery)
              && OwnsDelivery(db, h.msg.env.delivery, tok) && OwnsInbox(db, h.msg, tok)
              && h.msg.env.delivery in e.db.deliveries && Terminal(e.db.deliveries[h.msg.env.delivery].status)
              && e.db.deliveries[h.msg.env.delivery].lease.None?)
  {
  }

  // ---------------------------------------------------------------- a step opens nothing that was not open

  /** What one working handler does, as far as posting is concerned. */
  ghost predicate Worked(cfg: Config, s: State, s': State, t: Token)
    requires t in s.handlers
  {
    var h, d := s.handlers[t], s.handlers[t].msg.env.delivery;
    && t in s'.handlers && s'.handlers[t].msg == h.msg
    && (forall u :: u != t ==> (u in s'.handlers <==> u in s.handlers) && (u in s.handlers ==> s'.handlers[u] == s.handlers[u]))
    && (Starts(s'.handlers[t]) ==> Starts(h) || h.pc.InboxClaimed?)
    && (Revives(s'.handlers[t].pc) ==> Revives(h.pc) || Starts(h) || AfterDispatch(h.pc))
    && (Closes(cfg, s'.handlers[t]) ==> Closes(cfg, h) || h.pc.InboxClaimed?)
    && (h.pc.InboxClaimed? && Starts(s'.handlers[t]) ==> s'.handlers[t].pc.Leased?)
    && (h.pc.Received? ==> !Starts(s'.handlers[t]) && !Revives(s'.handlers[t].pc) && !Closes(cfg, s'.handlers[t]))
    && (s'.handlers[t].pc.Posting? ==> h.pc.StartingDispatch? && OwnsDelivery(s.db, d, t))
  }

  lemma StepWorked(cfg: Config, s: State, t: Token, w: World, fault: Fault)
    requires CanAct(s, t) && !Settling(s.handlers[t].pc) && HandlerKnows(s, t)
    ensures Worked(cfg, s, Work(cfg, s, t, w, fault), t)
  {
    var h := s.handlers[t];
    StartsComesFrom(cfg, s.now, s.db, t, h, w, LockFree(s, h));
    PostingComesFrom(cfg, s, t, w, fault);
  }

  lemma PostingComesFrom(cfg: Config, s: State, t: Token, w: World, fault: Fault)
    requires CanAct(s, t) && !Settling(s.handlers[t].pc) && HandlerKnows(s, t)
    ensures HandlerEffect(cfg, s, t, w, fault).pc.Posting? ==>
              s.handlers[t].pc.StartingDispatch? && OwnsDelivery(s.db, s.handlers[t].msg.env.delivery, t)
  {
  }

  // What one working handler does to the tables, as far as posting is concerned.

  ghost predicate InboxKept(db: Db, db': Db, t: Token, h: Handler) {
    !h.pc.Received? && OwnsInbox(db', h.msg, t) ==> OwnsInbox(db, h.msg, t)
  }

  ghost predicate ClaimedLive(db: Db, db': Db, t: Token, h: Handler, snap': Option<Snapshot>) {
    var d := h.msg.env.delivery;
    d in db.deliveries && d in db'.deliveries && db.deliveries[d].lease != Some(t) && db'.deliveries[d].lease == Some(t) ==>
      var row := db.deliveries[d];
      && h.pc.InboxClaimed? && !Terminal(row.status) && row.continuation in db.continuations
      && db.continuations[row.continuation].promptIdentity && db.continuations[row.continuation].status != Cancelled
      && (snap'.Some? ==> snap'.value.cont == db.continuations[row.continuation])
  }

  ghost predicate RevivedBy(db: Db, db': Db, t: Token, h: Handler) {
    var d := h.msg.env.delivery;
    d in db.deliveries && d in db'.deliveries && db.deliveries[d].status == Dead && !Terminal(db'.deliveries[d].status) ==>
      && db.deliveries[d].lease == Some(t)
      && (h.pc.Accepting? || h.pc.StartingDispatch? || (OwnsInbox(db, h.msg, t) && Revives(h.pc)))
  }

  ghost predicate Reopened(db: Db, db': Db, t: Token, h: Handler, c: ContinuationId) {
    var d := h.msg.env.delivery;
    c in db.continuations && c in db'.continuations && db.continuations[c].status == Cancelled && db'.continuations[c].status != Cancelled ==>
      && (h.pc.Observing? || h.pc.Disputing?) && h.snap.Some? && h.snap.value.row.continuation == c
      && db.continuations[c].current == Some(d)
      && OwnsDelivery(db, d, t) && OwnsInbox(db, h.msg, t)
      && d in db'.deliveries && (db'.deliveries[d].status == Observed || db'.deliveries[d].status == Ambiguous)
  }

  lemma StepKeepsInbox(cfg: Config, s: State, t: Token, w: World, fault: Fault)
    requires CanAct(s, t) && AdvanceReady(t, s.handlers[t])
    ensures InboxKept(s.db, HandlerEffect(cfg, s, t, w, fault).db, t, s.handlers[t])
  {
    if !s.handlers[t].pc.Received? { InboxOwnedBefore(cfg, s.now, s.db, t, s.handlers[t], w, LockFree(s, s.handlers[t])); }
  }

  lemma StepClaims(cfg: Config, s: State, t: Token, w: World, fault: Fault)
    requires CanAct(s, t) && AdvanceReady(t, s.handlers[t]) && (s.handlers[t].pc.InboxClaimed? ==> s.handlers[t].snap.None?)
    ensures ClaimedLive(s.db, HandlerEffect(cfg, s, t, w, fault).db, t, s.handlers[t], HandlerEffect(cfg, s, t, w, fault).snap)
  {
    var h, d := s.handlers[t], s.handlers[t].msg.env.delivery;
    if d in s.db.deliveries && s.db.deliveries[d].lease != Some(t) {
      ClaimsOnlyLive(cfg, s.now, s.db, t, h, w, LockFree(s, h));
    }
  }

  lemma StepRevives(cfg: Config, s: State, t: Token, w: World, fault: Fault)
    requires CanAct(s, t) && AdvanceReady(t, s.handlers[t])
    ensures RevivedBy(s.db, HandlerEffect(cfg, s, t, w, fault).db, t, s.handlers[t])
  {
    var h, d := s.handlers[t], s.handlers[t].msg.env.delivery;
    if d in s.db.deliveries && s.db.deliveries[d].status == Dead {
      DeadRowRevivedBy(cfg, s.now, s.db, t, h, w, LockFree(s, h));
    }
  }

  lemma StepReopens(cfg: Config, s: State, t: Token, w: World, fault: Fault, c: ContinuationId)
    requires CanAct(s, t) && AdvanceReady(t, s.handlers[t])
    ensures Reopened(s.db, HandlerEffect(cfg, s, t, w, fault).db, t, s.handlers[t], c)
  {
    if c in s.db.continuations && s.db.continuations[c].status == Cancelled {
      ReopenedBy(cfg, s.now, s.db, t, s.handlers[t], w, LockFree(s, s.handlers[t]), c);
    }
  }

  // ---------------------------------------------------------------- a working handler opens nothing

  /** Everything known about one working step. */
  ghost predicate Stepped(cfg: Config, s: State, s': State, t: Token, dispatched: bool)
  {
    && t in s.handlers && Worked(cfg, s, s', t)
    && DbMoves(s.db, s'.db, s.now, t, s.handlers[t].msg, dispatched)
    && (dispatched ==> s.handlers[t].pc.StartingDispatch?)
    && InboxKept(s.db, s'.db, t, s.handlers[t])
    && ClaimedLive(s.db, s'.db, t, s.handlers[t], s'.handlers[t].snap)
    && RevivedBy(s.db, s'.db, t, s.handlers[t])
    && forall c :: c in s.db.continuations ==> Reopened(s.db, s'.db, t, s.handlers[t], c)
  }

  lemma WorkIsStepped(cfg: Config, s: State, t: Token, w: World, fault: Fault)
    requires CanAct(s, t) && !Settling(s.handlers[t].pc) && HandlerKnows(s, t)
    ensures Stepped(cfg, s, Work(cfg, s, t, w, fault), t, Dispatches(s, t, s.handlers[t], fault))
  {
    StepWorked(cfg, s, t, w, fault);
    StepMoves(cfg, s, t, w, fault);
    StepKeepsInbox(cfg, s, t, w, fault);
    StepClaims(cfg, s, t, w, fault);
    StepRevives(cfg, s, t, w, fault);
    forall c | c in s.db.continuations ensures Reopened(s.db, Work(cfg, s, t, w, fault).db, t, s.handlers[t], c) {
      StepReopens(cfg, s, t, w, fault, c);
    }
  }

  lemma OthersInboxKept(s: State, s': State, t: Token, u: Token, msg: Message)
    requires t in s.handlers && InboxesMove(s.db, s'.db, t, s.handlers[t].msg.env.message) && u != t
    ensures OwnsInbox(s'.db, msg, u) ==> OwnsInbox(s.db, msg, u)
  {
    InboxNotGained(s.db, s'.db, t, u, s.handlers[t].msg.env.message, msg);
  }

  /** A handler that may now start held the lease and could start before, or has just claimed a live row. */
  lemma HolderStartedBefore(cfg: Config, s: State, s': State, t: Token, dispatched: bool, d: DeliveryId)
    requires Stepped(cfg, s, s', t, dispatched) && HandlerKnows(s, t) && EachRowOk(s) && d in s.db.deliveries
    requires s'.db.deliveries[d].attempts == 0 && HolderStarts(s', d)
    ensures CanStart(cfg, s, d)
  {
    assert RowOk(s, d);
    var u := s'.db.deliveries[d].lease.value;
    if u == t && s.db.deliveries[d].lease != Some(t) {
      assert Dispatchable(s, s.db.deliveries[d]);
    }
  }

  lemma AttemptsOnlyGrow(cfg: Config, s: State, s': State, t: Token, dispatched: bool, d: DeliveryId)
    requires Stepped(cfg, s, s', t, dispatched) && EachRowOk(s) && d in s.db.deliveries
    ensures d in s'.db.deliveries && s'.db.deliveries[d].continuation == s.db.deliveries[d].continuation
    ensures s'.db.deliveries[d].attempts == 0 ==> s.db.deliveries[d].attempts == 0
    ensures Dispatchable(s', s'.db.deliveries[d]) ==> Dispatchable(s, s.db.deliveries[d])
    ensures s.db.deliveries[d].continuation in s.db.continuations
  {
    hide Worked, InboxKept, ClaimedLive, RevivedBy, Reopened, InboxesMove;
    assert RowOk(s, d);
  }

  /** A row that can be claimed or revived afterwards could be claimed, revived or dispatched before. */
  lemma LiveBefore(cfg: Config, s: State, s': State, t: Token, dispatched: bool, d: DeliveryId)
    requires Stepped(cfg, s, s', t, dispatched) && HandlerKnows(s, t) && HandlerPosts(s, t) && EachRowOk(s) && d in s.db.deliveries
    requires s'.db.deliveries[d].attempts == 0 && (!Terminal(s'.db.deliveries[d].status) || HolderRevives(s', d))
    ensures s.db.deliveries[d].attempts == 0
    ensures !Terminal(s.db.deliveries[d].status) || HolderRevives(s, d) || HolderStarts(s, d)
  {
    AttemptsOnlyGrow(cfg, s, s', t, dispatched, d);
    hide Stepped, EachRowOk, HandlerKnows, HandlerPosts, HolderRevives, HolderStarts;
    var row, row' := s.db.deliveries[d], s'.db.deliveries[d];
    if Terminal(row.status) {
      DeadUnlessTouched(cfg, s, s', t, dispatched, d);
      if !Terminal(row'.status) {
        RevivedBefore(cfg, s, s', t, dispatched, d);
      } else {
        DeadAndRevives(cfg, s, s', t, dispatched, d);
      }
    }
  }

  /** An observed or ambiguous row stays as it is, so a row that may still move was dead. */
  lemma DeadUnlessTouched(cfg: Config, s: State, s': State, t: Token, dispatched: bool, d: DeliveryId)
    requires Stepped(cfg, s, s', t, dispatched) && EachRowOk(s) && d in s.db.deliveries && Terminal(s.db.deliveries[d].status)
    requires !Terminal(s'.db.deliveries[d].status) || HolderRevives(s', d)
    ensures s.db.deliveries[d].status == Dead
  {
    hide Worked, InboxKept, ClaimedLive, RevivedBy, Reopened, InboxesMove, ContinuationsMove;
    assert RowOk(s, d);
  }

  lemma RevivedBefore(cfg: Config, s: State, s': State, t: Token, dispatched: bool, d: DeliveryId)
    requires Stepped(cfg, s, s', t, dispatched) && HandlerKnows(s, t) && HandlerPosts(s, t) && EachRowOk(s) && d in s.db.deliveries
    requires s'.db.deliveries[d].attempts == 0 && s.db.deliveries[d].status == Dead && !Terminal(s'.db.deliveries[d].status)
    ensures HolderRevives(s, d) || HolderStarts(s, d)
  {
    hide Worked, InboxKept, ClaimedLive, Reopened, InboxesMove, ContinuationsMove;
    assert RowOk(s, d);
    assert s.handlers[t].msg.env.delivery == d;
  }

  lemma DeadAndRevives(cfg: Config, s: State, s': State, t: Token, dispatched: bool, d: DeliveryId)
    requires Stepped(cfg, s, s', t, dispatched) && HandlerKnows(s, t) && HandlerPosts(s, t) && EachRowOk(s) && d in s.db.deliveries
    requires s'.db.deliveries[d].attempts == 0 && s.db.deliveries[d].status == Dead && HolderRevives(s', d)
    ensures HolderRevives(s, d) || HolderStarts(s, d)
  {
    hide ClaimedLive, Reopened, ContinuationsMove, InboxesMove, Closes, Starts;
    assert RowOk(s, d);
    var u := s'.db.deliveries[d].lease.value;
    if u != t { OthersInboxKept(s, s', t, u, s.handlers[u].msg); }
  }

  /** A continuation that is open afterwards was open before, unless the step settled this very delivery. */
  lemma OpenBefore(cfg: Config, s: State, s': State, t: Token, dispatched: bool, c: ContinuationId, d: DeliveryId)
    requires Stepped(cfg, s, s', t, dispatched) && HandlerKnows(s, t) && EachRowOk(s) && c in s.db.continuations
    requires Open(cfg, s', c, d)
    requires d in s'.db.deliveries && s'.db.deliveries[d].status != Observed && s'.db.deliveries[d].status != Ambiguous
    ensures Open(cfg, s, c, d)
  {
    if s.db.continuations[c].status == Cancelled {
      if s'.db.continuations[c].status != Cancelled {
        CloserClosed(cfg, s, s', t, dispatched, c, d);
      } else {
        CloserBefore(cfg, s, s', t, dispatched, c, s'.db.continuations[c].current.value);
      }
    }
  }

  lemma CloserClosed(cfg: Config, s: State, s': State, t: Token, dispatched: bool, c: ContinuationId, d: DeliveryId)
    requires Stepped(cfg, s, s', t, dispatched) && HandlerKnows(s, t)
    requires c in s.db.continuations && s.db.continuations[c].status == Cancelled
    requires c in s'.db.continuations && s'.db.continuations[c].status != Cancelled
    requires d in s'.db.deliveries && s'.db.deliveries[d].status != Observed && s'.db.deliveries[d].status != Ambiguous
    ensures Open(cfg, s, c, d)
  {
    assert Reopened(s.db, s'.db, t, s.handlers[t], c);
    assert CanClose(cfg, s, c, s.handlers[t].msg.env.delivery, t);
  }

  lemma CloserBefore(cfg: Config, s: State, s': State, t: Token, dispatched: bool, c: ContinuationId, x: DeliveryId)
    requires Stepped(cfg, s, s', t, dispatched) && HandlerKnows(s, t) && EachRowOk(s)
    requires c in s.db.continuations && s.db.continuations[c].status == Cancelled
    requires x in s'.db.deliveries && s'.db.deliveries[x].lease.Some? && CanClose(cfg, s', c, x, s'.db.deliveries[x].lease.value)
    ensures x in s.db.deliveries && s.db.deliveries[x].lease == s'.db.deliveries[x].lease
    ensures CanClose(cfg, s, c, x, s'.db.deliveries[x].lease.value)
  {
    var u := s'.db.deliveries[x].lease.value;
    assert x in s.db.deliveries && RowOk(s, x);
    if u == t { CloserWorked(cfg, s, s', t, dispatched, c, x); } else { CloserWaited(cfg, s, s', t, dispatched, c, x, u); }
  }

  lemma CloserWaited(cfg: Config, s: State, s': State, t: Token, dispatched: bool, c: ContinuationId, x: DeliveryId, u: Token)
    requires Stepped(cfg, s, s', t, dispatched) && x in s.db.deliveries && u != t && CanClose(cfg, s', c, x, u)
    ensures s.db.deliveries[x].lease == Some(u) && CanClose(cfg, s, c, x, u)
  {
    OthersInboxKept(s, s', t, u, s.handlers[u].msg);
  }

  lemma CloserWorked(cfg: Config, s: State, s': State, t: Token, dispatched: bool, c: ContinuationId, x: DeliveryId)
    requires Stepped(cfg, s, s', t, dispatched) && HandlerKnows(s, t) && x in s.db.deliveries && CanClose(cfg, s', c, x, t)
    requires c in s.db.continuations && s.db.continuations[c].status == Cancelled
    ensures s.db.deliveries[x].lease == Some(t) && CanClose(cfg, s, c, x, t)
  {
    assert s.handlers[t].msg.env.delivery == x && s.db.deliveries[x].continuation == c;
  }

  /** One step of a working handler makes no delivery postable that was not. */
  lemma WorkOpensNothing(cfg: Config, s: State, s': State, t: Token, dispatched: bool, d: DeliveryId)
    requires Stepped(cfg, s, s', t, dispatched) && HandlerKnows(s, t) && HandlerPosts(s, t) && EachRowOk(s) && d in s.db.deliveries
    requires d in s'.db.deliveries && CanPost(cfg, s', d)
    ensures CanPost(cfg, s, d)
  {
    hide EachRowOk, HandlerKnows, HandlerPosts, HolderRevives, HolderStarts, Open, Dispatchable, ClaimedLive, RevivedBy, Reopened, DbMoves, InboxKept;
    AttemptsOnlyGrow(cfg, s, s', t, dispatched, d);
    if u :| AtPost(s', u, d) {
      if u == t { PostStartedBefore(cfg, s, s', t, dispatched, d); } else { assert AtPost(s, u, d); }
    } else if HolderStarts(s', d) {
      HolderStartedBefore(cfg, s, s', t, dispatched, d);
    } else {
      LiveBefore(cfg, s, s', t, dispatched, d);
      var c := s.db.deliveries[d].continuation;
      StillUnsettled(s', d);
      OpenBefore(cfg, s, s', t, dispatched, c, d);
    }
  }

  lemma StillUnsettled(s: State, d: DeliveryId)
    requires d in s.db.deliveries && (!Terminal(s.db.deliveries[d].status) || HolderRevives(s, d))
    ensures s.db.deliveries[d].status != Observed && s.db.deliveries[d].status != Ambiguous
  {
  }

  lemma PostStartedBefore(cfg: Config, s: State, s': State, t: Token, dispatched: bool, d: DeliveryId)
    requires Stepped(cfg, s, s', t, dispatched) && HandlerKnows(s, t) && EachRowOk(s) && d in s.db.deliveries && AtPost(s', t, d)
    ensures CanStart(cfg, s, d)
  {
    assert RowOk(s, d);
  }

  // ---------------------------------------------------------------- nor does any other action

  lemma LeaveOpensNothing(cfg: Config, s: State, t: Token, place: Place, d: DeliveryId)
    requires t in s.handlers && s.handlers[t].copy in s.copies && d in s.db.deliveries && CanPost(cfg, Leave(s, t, place), d)
    ensures CanPost(cfg, s, d)
  {
    var s' := Leave(s, t, place);
    if u :| AtPost(s', u, d) { assert AtPost(s, u, d); }
  }

  lemma OutsideOpensNothing(cfg: Config, s: State, a: Action, d: DeliveryId)
    requires Enabled(s, a) && !a.Act? && !a.Crash? && EachRowOk(s) && HandlersOk(s) && d in s.db.deliveries
    ensures d in Next(cfg, s, a).db.deliveries
    ensures CanPost(cfg, Next(cfg, s, a), d) ==> CanPost(cfg, s, d)
  {
    hide CanStart, EachRowOk, HandlersOk;
    var s' := Next(cfg, s, a);
    ControlPlaneIsBackground(cfg, s, a);
    if u :| AtPost(s', u, d) {
      assert AtPost(s, u, d);
    } else if CanPost(cfg, s', d) {
      OutsideKeepsStart(cfg, s, a, d);
    }
  }

  lemma CrashOpensNothing(cfg: Config, s: State, t: Token, d: DeliveryId)
    requires Enabled(s, Crash(t)) && d in s.db.deliveries
    ensures d in Next(cfg, s, Crash(t)).db.deliveries
    ensures CanPost(cfg, Next(cfg, s, Crash(t)), d) ==> CanPost(cfg, s, d)
  {
    if CanPost(cfg, Next(cfg, s, Crash(t)), d) { LeaveOpensNothing(cfg, s, t, Queued, d); }
  }

  lemma OutsideKeepsStart(cfg: Config, s: State, a: Action, d: DeliveryId)
    requires Enabled(s, a) && !a.Act? && !a.Crash? && EachRowOk(s) && HandlersOk(s) && d in s.db.deliveries
    requires d in Next(cfg, s, a).db.deliveries && CanStart(cfg, Next(cfg, s, a), d)
    ensures CanStart(cfg, s, d)
  {
    hide CanStart, RowOk, HandlersOk;
    match a {
      case Bind(c, cont) => BindKeepsStart(cfg, s, c, cont, d);
      case Materialize(x, row) => MaterializeKeepsStart(cfg, s, x, row, d);
      case Cancel(c) => CancelKeepsStart(cfg, s, c, d);
      case Deliver(id, tok) => NewHandlerOpensNothing(cfg, s, id, tok, d);
      case _ => SameTablesSameStart(cfg, s, Next(cfg, s, a), d);
    }
  }

  lemma SameTablesSameStart(cfg: Config, s: State, s': State, d: DeliveryId)
    requires s'.db == s.db && s'.handlers == s.handlers && d in s.db.deliveries
    ensures CanStart(cfg, s', d) == CanStart(cfg, s, d)
  {
  }

  lemma BindKeepsStart(cfg: Config, s: State, c: ContinuationId, cont: ContinuationRow, d: DeliveryId)
    requires Enabled(s, Bind(c, cont)) && EachRowOk(s) && d in s.db.deliveries && CanStart(cfg, Next(cfg, s, Bind(c, cont)), d)
    ensures CanStart(cfg, s, d)
  {
    assert RowOk(s, d);
  }

  lemma MaterializeKeepsStart(cfg: Config, s: State, x: DeliveryId, row: DeliveryRow, d: DeliveryId)
    requires Enabled(s, Materialize(x, row)) && EachRowOk(s) && d in s.db.deliveries && CanStart(cfg, Next(cfg, s, Materialize(x, row)), d)
    ensures CanStart(cfg, s, d)
  {
    assert RowOk(s, d);
  }

  lemma CancelKeepsStart(cfg: Config, s: State, c: ContinuationId, d: DeliveryId)
    requires EachRowOk(s) && d in s.db.deliveries
    requires d in Next(cfg, s, Cancel(c)).db.deliveries && CanStart(cfg, Next(cfg, s, Cancel(c)), d)
    ensures CanStart(cfg, s, d)
  {
    assert RowOk(s, d);
  }

  /** A new handler's token is fresh: it holds no lease. */
  lemma NewHandlerOpensNothing(cfg: Config, s: State, id: CopyId, tok: Token, d: DeliveryId)
    requires Enabled(s, Deliver(id, tok)) && EachRowOk(s) && HandlersOk(s) && d in s.db.deliveries
    requires CanStart(cfg, Next(cfg, s, Deliver(id, tok)), d)
    ensures CanStart(cfg, s, d)
  {
    var s' := Next(cfg, s, Deliver(id, tok));
    var c := s.db.deliveries[d].continuation;
    assert RowOk(s, d);
    if c in s'.db.continuations && s'.db.continuations[c].current.Some? {
      var x := s'.db.continuations[c].current.value;
      if x in s.db.deliveries { assert RowOk(s, x); }
    }
  }

  lemma ActOpensNothing(cfg: Config, s: State, t: Token, w: World, fault: Fault, d: DeliveryId)
    requires Inv(s) && d in s.db.deliveries && Enabled(s, Act(t, w, fault))
    ensures var s' := Next(cfg, s, Act(t, w, fault));
            d in s'.db.deliveries && (CanPost(cfg, s', d) ==> CanPost(cfg, s, d))
  {
    assert HandlerOk(s, t);
    var s' := Next(cfg, s, Act(t, w, fault));
    if Settling(s.handlers[t].pc) {
      ActLeaves(cfg, s, t, w, fault);
      if CanPost(cfg, s', d) { LeaveOpensNothing(cfg, s, t, LastPlace(s.handlers[t].pc), d); }
    } else {
      ActWorks(cfg, s, t, w, fault);
      WorkIsStepped(cfg, s, t, w, fault);
      if CanPost(cfg, s', d) { WorkOpensNothing(cfg, s, s', t, Dispatches(s, t, s.handlers[t], fault), d); }
    }
  }

  lemma NothingOpens(cfg: Config, s: State, a: Action, d: DeliveryId)
    requires Inv(s) && d in s.db.deliveries
    ensures d in Next(cfg, s, a).db.deliveries
    ensures CanPost(cfg, Next(cfg, s, a), d) ==> CanPost(cfg, s, d)
  {
    hide *;
    if Enabled(s, a) {
      RowsAndHandlers(s);
      match a {
        case Act(t, w, fault) => ActOpensNothing(cfg, s, t, w, fault, d);
        case Crash(t) => CrashOpensNothing(cfg, s, t, d);
        case _ => OutsideOpensNothing(cfg, s, a, d);
      }
    } else {
      NotEnabledStays(cfg, s, a);
    }
  }

  lemma RowsAndHandlers(s: State)
    requires Inv(s)
    ensures EachRowOk(s) && HandlersOk(s)
  {
  }

  lemma NotEnabledStays(cfg: Config, s: State, a: Action)
    requires !Enabled(s, a)
    ensures Next(cfg, s, a) == s
  {
  }

  /** Only a handler at its post adds to the record of posts. */
  lemma PostsOnlyAtPost(cfg: Config, s: State, a: Action, d: DeliveryId)
    requires Inv(s) && d in PostedDeliveries(Next(cfg, s, a).posts) && d !in PostedDeliveries(s.posts)
    ensures a.Act? && AtPost(s, a.tok, d)
  {
    var s' := Next(cfg, s, a);
    assert Enabled(s, a);
    if a.Act? {
      assert HandlerOk(s, a.tok);
      if Settling(s.handlers[a.tok].pc) {
        ActLeaves(cfg, s, a.tok, a.world, a.fault);
      } else {
        ActWorks(cfg, s, a.tok, a.world, a.fault);
        WorkPosts(cfg, s, a.tok, a.world, a.fault, d);
      }
    }
  }

  lemma WorkPosts(cfg: Config, s: State, t: Token, w: World, fault: Fault, d: DeliveryId)
    requires CanAct(s, t) && !Settling(s.handlers[t].pc) && HandlerKnows(s, t)
    requires d in PostedDeliveries(Work(cfg, s, t, w, fault).posts) && d !in PostedDeliveries(s.posts)
    ensures AtPost(s, t, d)
  {
    var before, after := s.posts, Work(cfg, s, t, w, fault).posts;
    var i :| 0 <= i < |after| && after[i].delivery == d;
    assert forall j :: 0 <= j < |before| ==>
             PostedDeliveries(before)[j] in PostedDeliveries(before) && PostedDeliveries(before)[j] == before[j].delivery;
  }

  lemma {:induction false} NeverPosted(cfg: Config, s: State, acts: seq<Action>, d: DeliveryId)
    requires Inv(s) && d in s.db.deliveries && !CanPost(cfg, s, d) && d !in PostedDeliveries(s.posts)
    ensures d !in PostedDeliveries(Run(cfg, s, acts).posts)
    decreases |acts|
  {
    if acts != [] {
      NothingOpens(cfg, s, acts[0], d);
      NextKeepsInv(cfg, s, acts[0]);
      if d in PostedDeliveries(Next(cfg, s, acts[0]).posts) { PostsOnlyAtPost(cfg, s, acts[0], d); }
      NeverPosted(cfg, Next(cfg, s, acts[0]), acts[1..], d);
    }
  }
}
