/** What durable continuation delivery guarantees over every run. */
module ContinuationRuns {
  import opened Wrappers
  import opened ContinuationTables
  import opened ContinuationProtocol
  import opened ContinuationSafety

  // ---------------------------------------------------------------- the invariant holds in every reachable state

  lemma LeaveKeepsRows(s: State, tok: Token, place: Place)
    requires RowsOk(s) && PostsOk(s) && tok in s.handlers && s.handlers[tok].copy in s.copies
    ensures RowsOk(Leave(s, tok, place)) && PostsOk(Leave(s, tok, place))
  {
    var s' := Leave(s, tok, place);
    forall d | d in s'.db.deliveries ensures RowOk(s', d) { assert RowOk(s, d); }
    forall i | 0 <= i < |s'.posts| ensures PostOk(s', s'.posts[i]) { assert PostOk(s, s.posts[i]); }
  }

  lemma LeaveKeepsCopies(s: State, tok: Token, place: Place)
    requires CopiesOk(s) && tok in s.handlers && HandlerHolds(s, tok)
    requires place.Queued? || (place.Acked? && s.handlers[tok].pc.Acking?) || (place.DeadLettered? && s.handlers[tok].pc.Rejecting?)
    ensures CopiesOk(Leave(s, tok, place))
  {
    var s' := Leave(s, tok, place);
    forall id | id in s'.copies ensures CopyOk(s', id) { assert CopyOk(s, id); }
  }

  lemma LeaveKeepsHandlers(s: State, tok: Token, place: Place)
    requires HandlersOk(s) && tok in s.handlers && s.handlers[tok].copy in s.copies
    ensures HandlersOk(Leave(s, tok, place))
  {
    var s' := Leave(s, tok, place);
    forall t | t in s'.handlers ensures HandlerOk(s', t) { assert HandlerOk(s, t); }
  }

  lemma LeaveKeepsInv(s: State, tok: Token, place: Place)
    requires Inv(s) && tok in s.handlers && s.handlers[tok].copy in s.copies
    requires place.Queued? || (place.Acked? && s.handlers[tok].pc.Acking?) || (place.DeadLettered? && s.handlers[tok].pc.Rejecting?)
    ensures Inv(Leave(s, tok, place))
  {
    hide RowsOk, PostsOk, CopiesOk, InboxOk;
    assert HandlerOk(s, tok);
    LeaveKeepsRows(s, tok, place);
    LeaveKeepsCopies(s, tok, place);
    LeaveKeepsHandlers(s, tok, place);
    LeaveKeepsRest(s, tok, place);
    hide HandlersOk, LocksOk;
  }

  lemma LeaveKeepsRest(s: State, tok: Token, place: Place)
    requires InboxOk(s) && LocksOk(s) && tok in s.handlers && s.handlers[tok].copy in s.copies
    ensures InboxOk(Leave(s, tok, place)) && LocksOk(Leave(s, tok, place))
  {
  }

  /** Steps outside the handlers: they may add rows, copies and one fresh handler, and may only kill an idle row. */
  predicate BackgroundRow(r: DeliveryRow, r': DeliveryRow) {
    r' == r || (r' == r.(status := Dead) && !Terminal(r.status) && r.observedAt.None?)
  }

  ghost predicate Background(s: State, s': State) {
    && s'.posts == s.posts && s'.dispatchedBy == s.dispatchedBy && s'.locks == s.locks && s'.db.inbox == s.db.inbox
    && s.issued <= s'.issued
    && (forall d :: d in s.db.deliveries ==> d in s'.db.deliveries && BackgroundRow(s.db.deliveries[d], s'.db.deliveries[d]))
    && (forall d :: d in s'.db.deliveries && d !in s.db.deliveries ==> FreshDelivery(s, s'.db.deliveries[d]))
    && (forall d, e :: d in s'.db.deliveries && e in s'.db.deliveries && d !in s.db.deliveries && e !in s.db.deliveries ==> d == e)
    && (forall c :: c in s.db.continuations ==> c in s'.db.continuations && s'.db.continuations[c].promptIdentity == s.db.continuations[c].promptIdentity)
  }

  lemma BackgroundKeepsRows(s: State, s': State)
    requires Background(s, s') && EachRowOk(s) && EffectsUnique(s.db) && DispatchersOk(s)
    ensures EachRowOk(s') && EffectsUnique(s'.db) && DispatchersOk(s')
  {
    BackgroundKeepsEachRow(s, s');
    BackgroundKeepsEffects(s, s');
  }

  lemma BackgroundKeepsEachRow(s: State, s': State)
    requires Background(s, s') && EachRowOk(s) && DispatchersOk(s)
    ensures EachRowOk(s')
  {
    forall d | d in s'.db.deliveries ensures RowOk(s', d) {
      if d in s.db.deliveries { assert RowOk(s, d); }
    }
  }

  lemma BackgroundKeepsEffects(s: State, s': State)
    requires Background(s, s') && EffectsUnique(s.db) && DispatchersOk(s)
    ensures EffectsUnique(s'.db) && DispatchersOk(s')
  {
  }

  lemma BackgroundKeepsPosts(s: State, s': State)
    requires Background(s, s') && PostsOk(s)
    ensures PostsOk(s')
  {
    forall i | 0 <= i < |s'.posts| ensures PostOk(s', s'.posts[i]) { assert PostOk(s, s.posts[i]); }
  }

  lemma BackgroundKeepsHandler(s: State, s': State, t: Token)
    requires Background(s, s') && t in s.handlers && t in s'.handlers && s'.handlers[t] == s.handlers[t] && HandlerOk(s, t)
    requires s.handlers[t].copy in s'.copies && s'.copies[s.handlers[t].copy].msg == s.copies[s.handlers[t].copy].msg
    ensures HandlerOk(s', t)
  {
  }

  lemma BackgroundKeepsInv(s: State, s': State)
    requires Background(s, s') && Inv(s) && s'.handlers == s.handlers
    requires forall id :: id in s.copies ==>
               id in s'.copies && s'.copies[id].msg == s.copies[id].msg && (s'.copies[id] == s.copies[id] || s'.copies[id].place.Queued?)
    requires forall id :: id in s'.copies && id !in s.copies ==> s'.copies[id].place.Queued?
    ensures Inv(s')
  {
    BackgroundKeepsRows(s, s');
    BackgroundKeepsPosts(s, s');
    forall t | t in s'.handlers ensures HandlerOk(s', t) {
      assert HandlerOk(s, t);
      BackgroundKeepsHandler(s, s', t);
    }
    forall id | id in s'.copies ensures CopyOk(s', id) { if id in s.copies { assert CopyOk(s, id); } }
  }

  ghost predicate Delivers(s: State, s': State, id: CopyId, tok: Token) {
    && Background(s, s') && tok !in s.issued && tok in s'.issued && s'.db == s.db
    && id in s.copies && s.copies[id].place.Queued?
    && s'.copies == s.copies[id := s.copies[id].(place := HeldBy(tok))]
    && s'.handlers == s.handlers[tok := Handler(id, s.copies[id].msg, Received, None)]
  }

  lemma DeliverKeepsHandlers(s: State, s': State, id: CopyId, tok: Token)
    requires Delivers(s, s', id, tok) && HandlersOk(s) && EachRowOk(s)
    ensures HandlersOk(s')
  {
    assert s.copies[id].msg.env.delivery in s.db.deliveries ==> RowOk(s, s.copies[id].msg.env.delivery);
    forall t | t in s'.handlers ensures HandlerOk(s', t) {
      if t != tok {
        assert HandlerOk(s, t);
        BackgroundKeepsHandler(s, s', t);
      }
    }
  }

  lemma DeliverKeepsCopies(s: State, s': State, id: CopyId, tok: Token)
    requires Delivers(s, s', id, tok) && CopiesOk(s) && tok !in s.handlers
    ensures CopiesOk(s')
  {
    forall x | x in s'.copies ensures CopyOk(s', x) { assert CopyOk(s, x); }
  }

  lemma DeliverKeepsLocks(s: State, s': State, id: CopyId, tok: Token)
    requires Delivers(s, s', id, tok) && LocksOk(s) && tok !in s.handlers
    ensures LocksOk(s')
  {
  }

  lemma DeliverKeepsInv(s: State, s': State, id: CopyId, tok: Token)
    requires Delivers(s, s', id, tok) && Inv(s)
    ensures Inv(s')
  {
    assert tok in s.handlers ==> HandlerOk(s, tok);
    assert RowsOk(s') by { BackgroundKeepsRows(s, s'); }
    assert PostsOk(s') by { BackgroundKeepsPosts(s, s'); }
    assert HandlersOk(s') by { DeliverKeepsHandlers(s, s', id, tok); }
    assert CopiesOk(s') by { DeliverKeepsCopies(s, s', id, tok); }
    assert LocksOk(s') by { DeliverKeepsLocks(s, s', id, tok); }
    assert InboxOk(s');
  }

  lemma CancelIsBackground(s: State, c: ContinuationId)
    requires EachRowOk(s)
    ensures Background(s, s.(db := CancelContinuation(s.db, c)))
  {
    forall d | d in s.db.deliveries ensures BackgroundRow(s.db.deliveries[d], CancelContinuation(s.db, c).deliveries[d]) {
      assert RowOk(s, d);
    }
  }

  lemma ControlPlaneIsBackground(cfg: Config, s: State, a: Action)
    requires Enabled(s, a) && EachRowOk(s) && !a.Act? && !a.Crash?
    ensures Background(s, Next(cfg, s, a))
  {
    if a.Cancel? { CancelIsBackground(s, a.target); }
  }

  lemma ActKeepsInv(cfg: Config, s: State, tok: Token, w: World, fault: Fault)
    requires Inv(s) && Enabled(s, Act(tok, w, fault))
    ensures Inv(Next(cfg, s, Act(tok, w, fault)))
  {
    if Settling(s.handlers[tok].pc) {
      ActLeaves(cfg, s, tok, w, fault);
      LeaveKeepsInv(s, tok, LastPlace(s.handlers[tok].pc));
    } else {
      ActWorks(cfg, s, tok, w, fault);
      WorkKeepsInv(cfg, s, tok, w, fault);
    }
  }

  function LastPlace(pc: Pc): Place {
    if pc.Acking? then Acked else if pc.Rejecting? then DeadLettered else Queued
  }

  lemma ActWorks(cfg: Config, s: State, tok: Token, w: World, fault: Fault)
    requires CanAct(s, tok) && !Settling(s.handlers[tok].pc)
    ensures Next(cfg, s, Act(tok, w, fault)) == Work(cfg, s, tok, w, fault)
  {
  }

  lemma ActLeaves(cfg: Config, s: State, tok: Token, w: World, fault: Fault)
    requires CanAct(s, tok) && Settling(s.handlers[tok].pc)
    ensures Next(cfg, s, Act(tok, w, fault)) == Leave(s, tok, LastPlace(s.handlers[tok].pc))
  {
  }

  lemma NextKeepsInv(cfg: Config, s: State, a: Action)
    requires Inv(s)
    ensures Inv(Next(cfg, s, a))
  {
    if Enabled(s, a) {
      match a {
        case Act(tok, w, fault) => ActKeepsInv(cfg, s, tok, w, fault);
        case Crash(tok) => LeaveKeepsInv(s, tok, Queued);
        case _ => OutsideKeepsInv(cfg, s, a);
      }
    }
  }

  lemma OutsideKeepsInv(cfg: Config, s: State, a: Action)
    requires Inv(s) && Enabled(s, a) && !a.Act? && !a.Crash?
    ensures Inv(Next(cfg, s, a))
  {
    ControlPlaneIsBackground(cfg, s, a);
    if a.Deliver? {
      DeliverKeepsInv(s, Next(cfg, s, a), a.id, a.tok);
    } else {
      OutsideKeepsCopies(cfg, s, a);
      BackgroundKeepsInv(s, Next(cfg, s, a));
    }
  }

  lemma OutsideKeepsCopies(cfg: Config, s: State, a: Action)
    requires Enabled(s, a) && !a.Act? && !a.Crash? && !a.Deliver?
    ensures var s' := Next(cfg, s, a);
            && s'.handlers == s.handlers
            && (forall id :: id in s.copies ==>
                  id in s'.copies && s'.copies[id].msg == s.copies[id].msg && (s'.copies[id] == s.copies[id] || s'.copies[id].place.Queued?))
            && (forall id :: id in s'.copies && id !in s.copies ==> s'.copies[id].place.Queued?)
  {
  }

  lemma {:induction false} RunKeepsInv(cfg: Config, s: State, acts: seq<Action>)
    requires Inv(s)
    ensures Inv(Run(cfg, s, acts))
    decreases |acts|
  {
    if acts != [] {
      NextKeepsInv(cfg, s, acts[0]);
      RunKeepsInv(cfg, Next(cfg, s, acts[0]), acts[1..]);
    }
  }

  ghost predicate Reachable(cfg: Config, s: State) {
    exists start: Time, acts: seq<Action> :: s == Run(cfg, Init(start), acts)
  }

  lemma ReachableInv(cfg: Config, s: State)
    requires Reachable(cfg, s)
    ensures Inv(s)
  {
    var start: Time, acts: seq<Action> :| s == Run(cfg, Init(start), acts);
    RunKeepsInv(cfg, Init(start), acts);
  }

  // ---------------------------------------------------------------- at most one dispatch

  function PostedDeliveries(posts: seq<Post>): seq<DeliveryId> {
    seq(|posts|, i requires 0 <= i < |posts| => posts[i].delivery)
  }

  function PostedEffects(posts: seq<Post>): seq<EffectKey> {
    seq(|posts|, i requires 0 <= i < |posts| => posts[i].effect)
  }

  lemma {:induction false} CountDistinct(xs: seq<nat>, x: nat)
    requires forall i, j :: 0 <= i < j < |xs| ==> xs[i] != xs[j]
    ensures multiset(xs)[x] == if x in xs then 1 else 0
    decreases |xs|
  {
    if xs != [] {
      var last := |xs| - 1;
      assert xs == xs[..last] + [xs[last]];
      CountDistinct(xs[..last], x);
    }
  }

  /** In every reachable state each delivery has been posted at most as often as it was attempted: at most once. */
  lemma AtMostOneDispatch(cfg: Config, s: State, d: DeliveryId)
    requires Reachable(cfg, s) && d in s.db.deliveries
    ensures multiset(PostedDeliveries(s.posts))[d] <= s.db.deliveries[d].attempts <= 1
    ensures s.db.deliveries[d].attempts == 1 <==> s.db.deliveries[d].dispatchStarted.Some?
    ensures multiset(PostedEffects(s.posts))[s.db.deliveries[d].effect] <= 1
  {
    ReachableInv(cfg, s);
    assert RowOk(s, d);
    var ds, es := PostedDeliveries(s.posts), PostedEffects(s.posts);
    assert forall i :: 0 <= i < |ds| ==> PostOk(s, s.posts[i]) && ds[i] == s.posts[i].delivery && es[i] == s.posts[i].effect;
    CountDistinct(ds, d);
    if d in ds {
      var i :| 0 <= i < |ds| && ds[i] == d;
    }
    CountDistinct(es, s.db.deliveries[d].effect);
  }

  /** Every post was preceded by a committed mark_dispatching of the same handler on a known delivery. */
  lemma NoUnrecordedPost(cfg: Config, s: State, i: nat)
    requires Reachable(cfg, s) && i < |s.posts|
    ensures s.posts[i].delivery in s.db.deliveries
    ensures s.db.deliveries[s.posts[i].delivery].dispatchStarted.Some?
    ensures s.db.deliveries[s.posts[i].delivery].effect == s.posts[i].effect
  {
    ReachableInv(cfg, s);
    assert PostOk(s, s.posts[i]);
    assert RowOk(s, s.posts[i].delivery);
  }

  /** The attempt budget can never be what kills a delivery: that branch is unreachable. */
  lemma BudgetNeverExhausted(cfg: Config, s: State, tok: Token)
    requires Reachable(cfg, s) && tok in s.handlers && s.handlers[tok].pc.CheckingSession?
    ensures s.handlers[tok].snap.Some? && s.handlers[tok].snap.value.row.attempts < MAX_ATTEMPTS
  {
    ReachableInv(cfg, s);
    assert HandlerOk(s, tok);
  }

  /** A delivery whose continuation lacks its prompt identity is never leased, attempted or posted. */
  lemma UnidentifiedNeverTouched(cfg: Config, s: State, d: DeliveryId)
    requires Reachable(cfg, s) && d in s.db.deliveries
    requires s.db.deliveries[d].continuation in s.db.continuations ==> !s.db.continuations[s.db.deliveries[d].continuation].promptIdentity
    ensures s.db.deliveries[d].lease.None? && s.db.deliveries[d].attempts == 0
    ensures forall i :: 0 <= i < |s.posts| ==> s.posts[i].delivery != d
  {
    ReachableInv(cfg, s);
    assert RowOk(s, d);
    forall i | 0 <= i < |s.posts| ensures s.posts[i].delivery != d { assert PostOk(s, s.posts[i]); }
  }

  /** Two handlers never work on the same session between taking and releasing its lock. */
  lemma SessionsAreExclusive(cfg: Config, s: State, t: Token, u: Token)
    requires Reachable(cfg, s) && t in s.handlers && u in s.handlers
    requires InLock(s.handlers[t].pc) && InLock(s.handlers[u].pc)
    requires s.handlers[t].snap.Some? && s.handlers[u].snap.Some?
    requires s.handlers[t].snap.value.cont.session == s.handlers[u].snap.value.cont.session
    ensures t == u
  {
    ReachableInv(cfg, s);
  }

  // ---------------------------------------------------------------- no wake is lost

  /**
    Every copy ever published is queued, held by a live handler that carries exactly it, or settled;
    acknowledged copies have a processed or dead inbox row, dead-lettered ones a dead row.
   */
  lemma NoWakeIsLost(cfg: Config, s: State, id: CopyId)
    requires Reachable(cfg, s) && id in s.copies
    ensures match s.copies[id].place
            case Queued => true
            case HeldBy(tok) => tok in s.handlers && s.handlers[tok].copy == id && s.handlers[tok].msg == s.copies[id].msg
            case Acked =>
              var m := s.copies[id].msg.env.message;
              m in s.db.inbox && (s.db.inbox[m].status == InProcessed || s.db.inbox[m].status == InDead)
            case DeadLettered =>
              var m := s.copies[id].msg.env.message;
              m in s.db.inbox && s.db.inbox[m].status == InDead
  {
    ReachableInv(cfg, s);
    assert CopyOk(s, id);
    if s.copies[id].place.HeldBy? {
      assert HandlerOk(s, s.copies[id].place.token);
    }
  }

  // ---------------------------------------------------------------- what never changes again

  /** A delivery row that is final: terminal, and nobody holds its lease. */
  predicate Final(row: DeliveryRow) {
    Terminal(row.status) && row.lease.None?
  }

  /** Facts about the past that survive a step: identities, the dispatch time, final rows, dead and processed messages, posts. */
  ghost predicate RowsKept(db: Db, db': Db) {
    forall d :: d in db.deliveries ==>
      && d in db'.deliveries
      && SameIdentity(db.deliveries[d], db'.deliveries[d])
      && (db.deliveries[d].dispatchStarted.Some? ==> db'.deliveries[d].dispatchStarted == db.deliveries[d].dispatchStarted)
      && (Final(db.deliveries[d]) ==> db'.deliveries[d] == db.deliveries[d])
  }

  ghost predicate MessagesKept(db: Db, db': Db) {
    forall m :: m in db.inbox ==>
      && m in db'.inbox && db'.inbox[m].hash == db.inbox[m].hash
      && (db.inbox[m].status == InDead ==> db'.inbox[m].status == InDead)
      && (db.inbox[m].status == InProcessed ==> db'.inbox[m].status == InProcessed || db'.inbox[m].status == InDead)
  }

  ghost predicate Keeps(s: State, s': State) {
    RowsKept(s.db, s'.db) && MessagesKept(s.db, s'.db) && s.posts <= s'.posts && s.issued <= s'.issued
  }

  lemma StepKeepsRows(s: State, tok: Token, db': Db, dispatched: bool)
    requires EachRowOk(s) && tok in s.handlers && HandlerKnows(s, tok)
    requires DeliveriesMove(s.db, db', s.now, tok, s.handlers[tok].msg.env.delivery, dispatched)
    requires dispatched ==> s.handlers[tok].pc.StartingDispatch?
    ensures RowsKept(s.db, db')
  {
    var d := s.handlers[tok].msg.env.delivery;
    assert d in s.db.deliveries ==> RowOk(s, d);
  }

  lemma WorkKeeps(cfg: Config, s: State, tok: Token, w: World, fault: Fault)
    requires EachRowOk(s) && CanAct(s, tok) && HandlerOk(s, tok) && !Settling(s.handlers[tok].pc)
    ensures Keeps(s, Work(cfg, s, tok, w, fault))
  {
    var h := s.handlers[tok];
    var e := HandlerEffect(cfg, s, tok, w, fault);
    StepMoves(cfg, s, tok, w, fault);
    assert RowsKept(s.db, e.db) by { StepKeepsRows(s, tok, e.db, Dispatches(s, tok, h, fault)); }
    assert MessagesKept(s.db, e.db);
  }

  lemma BackgroundKeeps(s: State, s': State)
    requires Background(s, s')
    ensures Keeps(s, s')
  {
  }

  lemma ActKeeps(cfg: Config, s: State, tok: Token, w: World, fault: Fault)
    requires EachRowOk(s) && Enabled(s, Act(tok, w, fault)) && HandlerOk(s, tok)
    ensures Keeps(s, Next(cfg, s, Act(tok, w, fault)))
  {
    if Settling(s.handlers[tok].pc) {
      ActLeaves(cfg, s, tok, w, fault);
    } else {
      ActWorks(cfg, s, tok, w, fault);
      WorkKeeps(cfg, s, tok, w, fault);
    }
  }

  lemma NextKeeps(cfg: Config, s: State, a: Action)
    requires EachRowOk(s) && HandlersOk(s)
    ensures Keeps(s, Next(cfg, s, a))
  {
    if Enabled(s, a) {
      match a {
        case Act(tok, w, fault) => ActKeeps(cfg, s, tok, w, fault);
        case Crash(tok) =>
        case _ =>
          ControlPlaneIsBackground(cfg, s, a);
          BackgroundKeeps(s, Next(cfg, s, a));
      }
    }
  }

  lemma {:induction false} RunKeeps(cfg: Config, s: State, acts: seq<Action>)
    requires Inv(s)
    ensures Keeps(s, Run(cfg, s, acts))
    decreases |acts|
  {
    if acts != [] {
      NextKeepsInv(cfg, s, acts[0]);
      NextKeeps(cfg, s, acts[0]);
      RunKeeps(cfg, Next(cfg, s, acts[0]), acts[1..]);
    }
  }

  /** Observed, ambiguous and released dead deliveries never change again, in any field. */
  lemma FinalRowsAreFrozen(cfg: Config, s: State, acts: seq<Action>, d: DeliveryId)
    requires Reachable(cfg, s) && d in s.db.deliveries
    requires s.db.deliveries[d].status == Observed || s.db.deliveries[d].status == Ambiguous || Final(s.db.deliveries[d])
    ensures d in Run(cfg, s, acts).db.deliveries && Run(cfg, s, acts).db.deliveries[d] == s.db.deliveries[d]
  {
    ReachableInv(cfg, s);
    assert RowOk(s, d);
    RunKeeps(cfg, s, acts);
  }

  /** The dispatch time, once written, is never cleared or moved: no decision forgets a dispatch. */
  lemma DispatchTimeIsPermanent(cfg: Config, s: State, acts: seq<Action>, d: DeliveryId)
    requires Reachable(cfg, s) && d in s.db.deliveries && s.db.deliveries[d].dispatchStarted.Some?
    ensures d in Run(cfg, s, acts).db.deliveries
    ensures Run(cfg, s, acts).db.deliveries[d].dispatchStarted == s.db.deliveries[d].dispatchStarted
  {
    ReachableInv(cfg, s);
    RunKeeps(cfg, s, acts);
  }

  lemma DeadMessagesStayDead(cfg: Config, s: State, acts: seq<Action>, m: MessageId)
    requires Reachable(cfg, s) && m in s.db.inbox && s.db.inbox[m].status == InDead
    ensures m in Run(cfg, s, acts).db.inbox && Run(cfg, s, acts).db.inbox[m].status == InDead
  {
    ReachableInv(cfg, s);
    RunKeeps(cfg, s, acts);
  }

  lemma AdvanceLeavesProcessed(cfg: Config, now: Time, db: Db, tok: Token, h: Handler, w: World, lockFree: bool, m: MessageId)
    requires !Settling(h.pc) && (NeedsSnapshot(h.pc) ==> h.snap.Some?)
    requires m in db.inbox && db.inbox[m].status == InProcessed
    ensures var db' := Advance(cfg, now, db, tok, h, w, lockFree).db;
            && m in db'.inbox
            && db'.inbox[m].status == if h.pc.Received? && h.msg.env.message == m && h.msg.hash != db.inbox[m].hash then InDead else InProcessed
  {
  }

  /** A processed message leaves that status exactly when a copy with another payload hash is claimed, and then it is dead. */
  lemma ProcessedLeavesOnlyByAnotherPayload(cfg: Config, s: State, a: Action, m: MessageId)
    requires m in s.db.inbox && s.db.inbox[m].status == InProcessed
    ensures m in Next(cfg, s, a).db.inbox
    ensures Next(cfg, s, a).db.inbox[m].status ==
              if a.Act? && CanAct(s, a.tok) && s.handlers[a.tok].pc.Received? && !a.fault.LostCall?
                 && s.handlers[a.tok].msg.env.message == m && s.handlers[a.tok].msg.hash != s.db.inbox[m].hash
              then InDead else InProcessed
  {
    if a.Act? && Enabled(s, a) && !Settling(s.handlers[a.tok].pc) {
      var h := s.handlers[a.tok];
      AdvanceLeavesProcessed(cfg, s.now, s.db, a.tok, h, a.world, LockFree(s, h), m);
    }
  }
}
