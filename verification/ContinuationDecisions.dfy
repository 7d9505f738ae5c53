/** Lease fencing, bounded resolution of dispatched deliveries, and what cancellation can and cannot stop. */
module ContinuationDecisions {
  import opened Wrappers
  import opened ContinuationTables
  import opened ContinuationProtocol
  import opened ContinuationSafety
  import opened ContinuationRuns

  // ---------------------------------------------------------------- lease fencing

  predicate PastClaim(pc: Pc) {
    !pc.Received? && !pc.InboxClaimed?
  }

  /** The handler, if still alive, has made its delivery claim and no longer holds the lease. */
  predicate Superseded(s: State, tok: Token) {
    && tok in s.issued
    && (tok in s.handlers ==> PastClaim(s.handlers[tok].pc) && !OwnsDelivery(s.db, s.handlers[tok].msg.env.delivery, tok))
  }

  /** Control points whose transaction depends on the inbox claim alone. */
  predicate InboxOnly(h: Handler) {
    h.pc.ClosingInbox? || h.pc.DeferringInbox? || h.pc.Failing? || (h.pc.Killing? && h.snap.None?)
  }

  lemma AdvanceFenced(cfg: Config, now: Time, db: Db, tok: Token, h: Handler, w: World, lockFree: bool)
    requires AdvanceReady(tok, h) && PastClaim(h.pc) && !OwnsDelivery(db, h.msg.env.delivery, tok)
    ensures var e := Advance(cfg, now, db, tok, h, w, lockFree);
            && e.db.deliveries == db.deliveries && e.db.continuations == db.continuations && e.db.events == db.events
            && (e.db.inbox == db.inbox || (InboxOnly(h) && OwnsInbox(db, h.msg, tok)))
            && PastClaim(e.pc)
  {
  }

  /** A superseded handler's step changes no delivery, continuation or event row; its commits roll back whole. */
  lemma SupersededStepIsInert(cfg: Config, s: State, tok: Token, w: World, fault: Fault)
    requires Superseded(s, tok) && tok in s.handlers && HandlerKnows(s, tok)
    ensures var s' := Next(cfg, s, Act(tok, w, fault));
            && s'.db.deliveries == s.db.deliveries && s'.db.continuations == s.db.continuations && s'.db.events == s.db.events
            && (s'.db.inbox == s.db.inbox || (InboxOnly(s.handlers[tok]) && OwnsInbox(s.db, s.handlers[tok].msg, tok)))
            && Superseded(s', tok)
  {
    var h := s.handlers[tok];
    if CanAct(s, tok) {
      if Settling(h.pc) {
        ActLeaves(cfg, s, tok, w, fault);
      } else {
        ActWorks(cfg, s, tok, w, fault);
        EffectFenced(cfg, s, tok, w, fault);
      }
    }
  }

  lemma EffectFenced(cfg: Config, s: State, tok: Token, w: World, fault: Fault)
    requires Superseded(s, tok) && CanAct(s, tok) && !Settling(s.handlers[tok].pc) && AdvanceReady(tok, s.handlers[tok])
    ensures var e := HandlerEffect(cfg, s, tok, w, fault);
            && e.db.deliveries == s.db.deliveries && e.db.continuations == s.db.continuations && e.db.events == s.db.events
            && (e.db.inbox == s.db.inbox || (InboxOnly(s.handlers[tok]) && OwnsInbox(s.db, s.handlers[tok].msg, tok)))
            && PastClaim(e.pc)
  {
    var h := s.handlers[tok];
    AdvanceFenced(cfg, s.now, s.db, tok, h, w, LockFree(s, h));
  }

  lemma MovedCannotRestore(s: State, tok: Token, t: Token, e: Effect, posted: bool, dispatched: bool)
    requires Superseded(s, tok) && t != tok && t in s.handlers
    requires DeliveriesMove(s.db, e.db, s.now, t, s.handlers[t].msg.env.delivery, dispatched)
    requires posted || dispatched ==> s.handlers[t].snap.Some?
    ensures Superseded(Moved(s, t, e, posted, dispatched), tok)
  {
  }

  lemma OthersCannotRestore(cfg: Config, s: State, tok: Token, t: Token, w: World, fault: Fault)
    requires Superseded(s, tok) && t != tok && CanAct(s, t) && !Settling(s.handlers[t].pc) && HandlerKnows(s, t)
    ensures Superseded(Work(cfg, s, t, w, fault), tok)
  {
    StepMoves(cfg, s, t, w, fault);
    MovedCannotRestore(s, tok, t, HandlerEffect(cfg, s, t, w, fault), s.handlers[t].pc.Posting? && !fault.LostCall?,
                       Dispatches(s, t, s.handlers[t], fault));
  }

  lemma SupersededStays(cfg: Config, s: State, a: Action, tok: Token)
    requires EachRowOk(s) && HandlersOk(s) && Superseded(s, tok)
    ensures Superseded(Next(cfg, s, a), tok)
  {
    if Enabled(s, a) {
      match a {
        case Act(t, w, fault) =>
          assert HandlerOk(s, t);
          if t == tok {
            SupersededStepIsInert(cfg, s, tok, w, fault);
          } else if Settling(s.handlers[t].pc) {
            ActLeaves(cfg, s, t, w, fault);
          } else {
            ActWorks(cfg, s, t, w, fault);
            OthersCannotRestore(cfg, s, tok, t, w, fault);
          }
        case Crash(t) =>
        case _ => ControlPlaneIsBackground(cfg, s, a);
      }
    }
  }

  lemma {:induction false} SupersededForever(cfg: Config, s: State, acts: seq<Action>, tok: Token)
    requires Inv(s) && Superseded(s, tok)
    ensures Superseded(Run(cfg, s, acts), tok)
    decreases |acts|
  {
    if acts != [] {
      NextKeepsInv(cfg, s, acts[0]);
      SupersededStays(cfg, s, acts[0], tok);
      SupersededForever(cfg, Next(cfg, s, acts[0]), acts[1..], tok);
    }
  }

  /** Lease fencing: after a takeover, no step of the old handler in any later run writes the delivery side. */
  lemma LeaseFencing(cfg: Config, s: State, acts: seq<Action>, k: nat, tok: Token, u: Token)
    requires Reachable(cfg, s) && tok in s.handlers && PastClaim(s.handlers[tok].pc) && u != tok
    requires OwnsDelivery(s.db, s.handlers[tok].msg.env.delivery, u)
    requires k < |acts| && acts[k].Act? && acts[k].tok == tok
    ensures var before := Run(cfg, s, acts[..k]);
            var after := Next(cfg, before, acts[k]);
            && after.db.deliveries == before.db.deliveries
            && after.db.continuations == before.db.continuations
            && after.db.events == before.db.events
            && (after.db.inbox == before.db.inbox || (tok in before.handlers && InboxOnly(before.handlers[tok])))
  {
    ReachableInv(cfg, s);
    assert HandlerOk(s, tok);
    SupersededForever(cfg, s, acts[..k], tok);
    RunKeepsInv(cfg, s, acts[..k]);
    var before := Run(cfg, s, acts[..k]);
    if tok in before.handlers {
      assert HandlerOk(before, tok);
      SupersededStepIsInert(cfg, before, tok, acts[k].world, acts[k].fault);
    }
  }

  // ---------------------------------------------------------------- bounded resolution

  /** The decision process_claimed reaches for a locked delivery when the target answers. */
  function Decision(cfg: Config, snap: Snapshot, now: Time, w: World): Pc {
    match AfterLook(cfg, snap, now, w.target)
    case Matched(_) => AfterTurn(cfg, snap, now, false, w.turn)
    case CheckingSession =>
      if w.busy then Deferring(Deferred) else if snap.row.attempts >= MAX_ATTEMPTS then Killing else StartingDispatch
    case pc => pc
  }

  predicate TerminalDecision(pc: Pc) {
    pc.Observing? || pc.Disputing? || pc.Killing?
  }

  /** Every answer of the target resolves the delivery exactly when it was dispatched at least both windows ago. */
  lemma ResolutionIsBounded(cfg: Config, snap: Snapshot, now: Time)
    requires snap.row.attempts < MAX_ATTEMPTS || snap.row.dispatchStarted.Some?
    ensures (forall w :: TerminalDecision(Decision(cfg, snap, now, w))) <==>
              && snap.row.dispatchStarted.Some?
              && now - snap.row.dispatchStarted.value >= cfg.completionTimeout
              && now - snap.row.dispatchStarted.value >= cfg.ambiguityDelay
  {
    if forall w :: TerminalDecision(Decision(cfg, snap, now, w)) {
      assert TerminalDecision(Decision(cfg, snap, now, World(Match, TurnPending, true)));
      assert TerminalDecision(Decision(cfg, snap, now, World(Absent, TurnPending, true)));
    }
  }

  /** A dispatched delivery is never dispatched again, whatever the target answers and however much time has passed. */
  lemma DispatchedNeverReposts(cfg: Config, snap: Snapshot, now: Time, w: World)
    requires snap.row.dispatchStarted.Some?
    ensures !Decision(cfg, snap, now, w).StartingDispatch?
    ensures Decision(cfg, snap, now, w).Deferring? ==> Decision(cfg, snap, now, w).next == Accepted || Decision(cfg, snap, now, w).next == Dispatching
  {
  }

  predicate Overdue(cfg: Config, snap: Snapshot, now: Time) {
    && snap.row.dispatchStarted.Some?
    && now - snap.row.dispatchStarted.value >= cfg.completionTimeout
    && now - snap.row.dispatchStarted.value >= cfg.ambiguityDelay
  }

  /** The delivery is final and its handler is about to settle the broker copy for good. */
  predicate Resolved(s: State, tok: Token) {
    && tok in s.handlers
    && (s.handlers[tok].pc.Acking? || s.handlers[tok].pc.Rejecting?)
    && s.handlers[tok].msg.env.delivery in s.db.deliveries
    && Final(s.db.deliveries[s.handlers[tok].msg.env.delivery])
  }

  predicate OwnsBoth(s: State, tok: Token) {
    && tok in s.handlers
    && s.handlers[tok].copy in s.copies
    && OwnsDelivery(s.db, s.handlers[tok].msg.env.delivery, tok)
    && OwnsInbox(s.db, s.handlers[tok].msg, tok)
    && s.handlers[tok].snap.Some? && s.handlers[tok].snap.value.id == s.handlers[tok].msg.env.delivery
  }

  lemma CommitsFinally(cfg: Config, s: State, tok: Token, w: World)
    requires OwnsBoth(s, tok) && TerminalDecision(s.handlers[tok].pc)
    ensures Resolved(Next(cfg, s, Act(tok, w, NoFault)), tok)
  {
  }

  lemma DecidesOnly(cfg: Config, s: State, tok: Token, w: World)
    requires OwnsBoth(s, tok) && (s.handlers[tok].pc.Looking? || s.handlers[tok].pc == Matched(false))
    ensures var s' := Next(cfg, s, Act(tok, w, NoFault));
            && s'.db == s.db && s'.now == s.now && OwnsBoth(s', tok)
            && s'.handlers[tok] == s.handlers[tok].(
                 pc := if s.handlers[tok].pc.Looking? then AfterLook(cfg, s.handlers[tok].snap.value, s.now, w.target)
                       else AfterTurn(cfg, s.handlers[tok].snap.value, s.now, false, w.turn))
  {
  }

  /**
    An overdue dispatched delivery, locked by a handler that still holds its lease and its inbox claim,
    is final within three of that handler's own steps, whatever the target answers.
   */
  lemma OverdueResolvesInThreeSteps(cfg: Config, s: State, tok: Token, w1: World, w2: World, w3: World)
    requires Reachable(cfg, s) && tok in s.handlers && s.handlers[tok].pc.Looking? && s.handlers[tok].snap.Some?
    requires Overdue(cfg, s.handlers[tok].snap.value, s.now)
    requires OwnsDelivery(s.db, s.handlers[tok].msg.env.delivery, tok) && OwnsInbox(s.db, s.handlers[tok].msg, tok)
    ensures var s1 := Next(cfg, s, Act(tok, w1, NoFault));
            var s2 := Next(cfg, s1, Act(tok, w2, NoFault));
            var s3 := Next(cfg, s2, Act(tok, w3, NoFault));
            Resolved(s2, tok) || Resolved(s3, tok)
  {
    assert OwnsBoth(s, tok) by {
      ReachableInv(cfg, s);
      assert HandlerOk(s, tok);
    }
    var s1 := Next(cfg, s, Act(tok, w1, NoFault));
    DecidesOnly(cfg, s, tok, w1);
    if s1.handlers[tok].pc.Matched? {
      DecidesOnly(cfg, s1, tok, w2);
      CommitsFinally(cfg, Next(cfg, s1, Act(tok, w2, NoFault)), tok, w3);
    } else {
      CommitsFinally(cfg, s1, tok, w2);
    }
  }

  // ---------------------------------------------------------------- operator cancellation

  /** A withdrawn delivery that nobody has leased is never posted, in any later run. */
  lemma CancelledUnleasedIsNeverPosted(cfg: Config, s: State, acts: seq<Action>, d: DeliveryId)
    requires Reachable(cfg, s) && d in s.db.deliveries
    requires Final(s.db.deliveries[d]) && s.db.deliveries[d].attempts == 0
    ensures d !in PostedDeliveries(Run(cfg, s, acts).posts)
  {
    FinalRowsAreFrozen(cfg, s, acts, d);
    var s' := Run(cfg, s, acts);
    ReachableInv(cfg, s);
    RunKeepsInv(cfg, s, acts);
    assert RowOk(s', d);
    forall i | 0 <= i < |s'.posts| ensures s'.posts[i].delivery != d { assert PostOk(s', s'.posts[i]); }
  }

  predicate HasStatus(s: State, d: DeliveryId, status: DeliveryStatus) {
    d in s.db.deliveries && s.db.deliveries[d].status == status
  }

  predicate IsCancelled(s: State, c: ContinuationId) {
    c in s.db.continuations && s.db.continuations[c].status == Cancelled
  }

  predicate AboutToDispatch(s: State, tok: Token) {
    OwnsBoth(s, tok) && s.handlers[tok].pc.StartingDispatch? && s.handlers[tok].snap.value.row.attempts == 0
  }

  lemma CancelKillsTheRow(cfg: Config, s: State, tok: Token, c: ContinuationId)
    requires AboutToDispatch(s, tok) && c in s.db.continuations && s.db.continuations[c].status != Cancelled
    requires CancelRow(s.db.deliveries[s.handlers[tok].msg.env.delivery], c).status == Dead
    ensures var s' := Next(cfg, s, Cancel(c));
            && HasStatus(s', s.handlers[tok].msg.env.delivery, Dead) && IsCancelled(s', c)
            && s'.handlers == s.handlers && s'.posts == s.posts && AboutToDispatch(s', tok)
  {
  }

  lemma DispatchOverwrites(cfg: Config, s: State, tok: Token, w: World)
    requires AboutToDispatch(s, tok)
    ensures var s' := Next(cfg, s, Act(tok, w, NoFault));
            && HasStatus(s', s.handlers[tok].msg.env.delivery, Dispatching)
            && s'.db.continuations == s.db.continuations && s'.posts == s.posts
            && CanAct(s', tok) && s'.handlers[tok] == s.handlers[tok].(pc := Posting)
  {
  }

  lemma PostingPosts(cfg: Config, s: State, tok: Token, w: World)
    requires CanAct(s, tok) && s.handlers[tok].pc.Posting?
    ensures var s' := Next(cfg, s, Act(tok, w, NoFault));
            && s'.db == s.db && |s'.posts| == |s.posts| + 1
            && s'.posts[|s.posts|].delivery == s.handlers[tok].snap.value.id
  {
  }

  /**
    Cancellation leaves leases alone, so it does not stop a handler that is about to dispatch: the row
    it just marked dead is overwritten and the prompt is posted after the cancellation committed.
   */
  lemma CancelCannotStopAStartedDispatch(cfg: Config, s: State, tok: Token, c: ContinuationId, w: World)
    requires AboutToDispatch(s, tok) && c in s.db.continuations && s.db.continuations[c].status != Cancelled
    requires CancelRow(s.db.deliveries[s.handlers[tok].msg.env.delivery], c).status == Dead
    ensures var d := s.handlers[tok].msg.env.delivery;
            var s1 := Next(cfg, s, Cancel(c));
            var s2 := Next(cfg, s1, Act(tok, w, NoFault));
            var s3 := Next(cfg, s2, Act(tok, w, NoFault));
            && HasStatus(s1, d, Dead) && HasStatus(s3, d, Dispatching) && IsCancelled(s3, c)
            && s1.posts == s.posts && |s3.posts| == |s.posts| + 1 && s3.posts[|s.posts|].delivery == d
  {
    var s1 := Next(cfg, s, Cancel(c));
    CancelKillsTheRow(cfg, s, tok, c);
    DispatchOverwrites(cfg, s1, tok, w);
    PostingPosts(cfg, Next(cfg, s1, Act(tok, w, NoFault)), tok, w);
  }
}
