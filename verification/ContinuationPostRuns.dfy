/** The runs behind the posting condition: wherever it holds, some run posts the delivery. */
module ContinuationPostRuns {
  import opened Wrappers
  import opened ContinuationTables
  import opened ContinuationProtocol
  import opened ContinuationSafety
  import opened ContinuationRuns
  import opened ContinuationDecisions
  import opened ContinuationFrozen
  import opened ContinuationPosting

  const GO: World := World(Absent, TurnPending, false)        // nothing there yet, the session is idle
  const DONE: World := World(Match, TurnCompleted, false)     // the prompt is there and its turn has ended
  const BUSY: World := World(TargetPending, TurnPending, true)

  // ---------------------------------------------------------------- fresh names

  lemma {:induction false} SomeBound(xs: set<nat>) returns (n: nat)
    ensures forall x :: x in xs ==> x < n
    decreases xs
  {
    if xs == {} { return 0; }
    var x :| x in xs;
    var rest := xs - {x};
    var m := SomeBound(rest);
    n := if x < m then m else x + 1;
    forall y | y in xs ensures y < n { if y != x { assert y in rest; } }
  }

  // ---------------------------------------------------------------- from the lease to the post

  lemma PostNow(cfg: Config, s: State, t: Token, d: DeliveryId)
    requires AtPost(s, t, d) && HandlerOk(s, t)
    ensures d in PostedDeliveries(Next(cfg, s, Act(t, GO, NoFault)).posts)
  {
    Decides(cfg, s, t, GO);
    var posts := Next(cfg, s, Act(t, GO, NoFault)).posts;
    assert PostedDeliveries(posts)[|s.posts|] == d;
  }

  lemma StartStep(cfg: Config, s: State, d: DeliveryId, t: Token)
    requires Holds(s, d, t) && HandlerOk(s, t) && RowOk(s, d) && s.db.deliveries[d].attempts == 0
    requires Starts(s.handlers[t]) && !s.handlers[t].pc.StartingDispatch?
    requires s.handlers[t].pc.Leased? ==> LockFree(s, s.handlers[t])
    ensures var s' := Next(cfg, s, Act(t, GO, NoFault));
            && s'.db == s.db && Holds(s', d, t) && Starts(s'.handlers[t])
            && s'.handlers == s.handlers[t := s.handlers[t].(pc := s'.handlers[t].pc)] && s'.posts == s.posts
            && Distance(s'.handlers[t].pc) < Distance(s.handlers[t].pc)
  {
    Decides(cfg, s, t, GO);
  }

  lemma DispatchStep(cfg: Config, s: State, d: DeliveryId, t: Token)
    requires Holds(s, d, t) && HandlerOk(s, t) && s.handlers[t].pc.StartingDispatch?
    ensures AtPost(Next(cfg, s, Act(t, GO, NoFault)), t, d)
  {
    ActWorks(cfg, s, t, GO, NoFault);
  }

  /** The handler is about to dispatch, and nothing but its own control and dead lock holders has changed. */
  lemma {:induction false} ReachStartingDispatch(cfg: Config, s: State, d: DeliveryId, t: Token) returns (acts: seq<Action>)
    requires Inv(s) && Holds(s, d, t) && s.db.deliveries[d].attempts == 0 && Starts(s.handlers[t])
    ensures var s' := Run(cfg, s, acts);
            && Inv(s') && s'.db == s.db && s'.posts == s.posts && Holds(s', d, t) && s'.handlers[t].pc.StartingDispatch?
            && s'.handlers[t] == s.handlers[t].(pc := StartingDispatch)
    decreases Distance(s.handlers[t].pc)
  {
    if s.handlers[t].pc.StartingDispatch? { return []; }
    var before := [];
    if s.handlers[t].pc.Leased? { before := FreeTheLock(cfg, s, t); }
    var s0, a := Run(cfg, s, before), Act(t, GO, NoFault);
    assert HandlerOk(s0, t) && RowOk(s0, d);
    StartStep(cfg, s0, d, t);
    NextKeepsInv(cfg, s0, a);
    var rest := ReachStartingDispatch(cfg, Next(cfg, s0, a), d, t);
    acts := before + ([a] + rest);
    RunCons(cfg, s0, a, rest);
    RunAppend(cfg, s, before, [a] + rest);
  }

  lemma StartPosts(cfg: Config, s: State, d: DeliveryId, t: Token) returns (acts: seq<Action>)
    requires Inv(s) && Holds(s, d, t) && s.db.deliveries[d].attempts == 0 && Starts(s.handlers[t])
    ensures d in PostedDeliveries(Run(cfg, s, acts).posts)
  {
    var first := ReachStartingDispatch(cfg, s, d, t);
    var a := Act(t, GO, NoFault);
    var s1 := Run(cfg, s, first);
    assert HandlerOk(s1, t);
    DispatchStep(cfg, s1, d, t);
    var s2 := Next(cfg, s1, a);
    NextKeepsInv(cfg, s1, a);
    assert HandlerOk(s2, t);
    PostNow(cfg, s2, t, d);
    acts := first + ([a] + [a]);
    RunOne(cfg, s2, a);
    RunCons(cfg, s1, a, [a]);
    RunAppend(cfg, s, first, [a] + [a]);
  }

  // ---------------------------------------------------------------- a live row is claimed by a new handler

  predicate Claimable(s: State, d: DeliveryId) {
    && d in s.db.deliveries && !Terminal(s.db.deliveries[d].status) && s.db.deliveries[d].attempts == 0
    && Dispatchable(s, s.db.deliveries[d])
    && s.db.continuations[s.db.deliveries[d].continuation].status != Cancelled
    && s.db.continuations[s.db.deliveries[d].continuation].status != ManualReview
  }

  /** The row is due and its last lease, if any, has expired. */
  predicate Due(s: State, d: DeliveryId)
    requires d in s.db.deliveries
  {
    var row := s.db.deliveries[d];
    && (row.nextAttempt.Some? ==> row.nextAttempt.value <= s.now)
    && (row.lease.Some? ==> row.leaseExpires.Some? && row.leaseExpires.value <= s.now)
  }

  predicate Addresses(msg: Message, d: DeliveryId, row: DeliveryRow) {
    msg.env.delivery == d && msg.env.run == row.run && msg.env.continuation == row.continuation
    && msg.env.effect == row.effect && msg.env.generation == row.generation
  }

  /** How long until the row may be claimed. */
  function Wait(s: State, row: DeliveryRow): nat {
    var due := if row.nextAttempt.Some? then row.nextAttempt.value else s.now;
    var free := if row.leaseExpires.Some? then row.leaseExpires.value else s.now;
    var last := if due < free then free else due;
    if last <= s.now then 0 else last - s.now
  }

  lemma DueAfterWait(s: State, d: DeliveryId)
    requires d in s.db.deliveries && RowOk(s, d)
    ensures Due(s.(now := s.now + Wait(s, s.db.deliveries[d])), d)
  {
  }

  lemma TickMovesTheClock(cfg: Config, s: State, ms: nat)
    ensures Next(cfg, s, Tick(ms)) == s.(now := s.now + ms)
  {
  }

  lemma WaitUntilDue(cfg: Config, s: State, d: DeliveryId) returns (a: Action)
    requires Inv(s) && d in s.db.deliveries
    ensures var s' := Next(cfg, s, a); Inv(s') && s'.db == s.db && s'.handlers == s.handlers && d in s'.db.deliveries && Due(s', d)
    ensures Next(cfg, s, a).posts == s.posts
  {
    hide *;
    RowIsOk(s, d);
    a := Tick(Wait(s, s.db.deliveries[d]));
    DueAfterWait(s, d);
    TickMovesTheClock(cfg, s, Wait(s, s.db.deliveries[d]));
    NextKeepsInv(cfg, s, a);
  }

  /** A new copy of the wake reaches a new handler under a message id never seen before. */
  lemma SendWake(cfg: Config, s: State, d: DeliveryId) returns (acts: seq<Action>, tok: Token)
    requires Inv(s) && d in s.db.deliveries
    ensures var s' := Run(cfg, s, acts);
            && Inv(s') && s'.db == s.db && s'.now == s.now && s'.posts == s.posts
            && tok in s'.handlers && s'.handlers[tok].pc.Received? && tok !in s.issued
            && Addresses(s'.handlers[tok].msg, d, s.db.deliveries[d])
            && s'.handlers[tok].msg.env.message !in s.db.inbox
  {
    var id := SomeBound(s.copies.Keys);
    var m := SomeBound(s.db.inbox.Keys);
    tok := SomeBound(s.issued);
    var row := s.db.deliveries[d];
    var msg := Message(Envelope(m, row.run, row.continuation, d, row.effect, row.generation), 0);
    var a, b := Publish(id, msg), Deliver(id, tok);
    acts := [a] + [b];
    var s1 := Next(cfg, s, a);
    NextKeepsInv(cfg, s, a);
    NextKeepsInv(cfg, s1, b);
    RunOne(cfg, s1, b);
    RunCons(cfg, s, a, [b]);
  }

  lemma WinsInbox(cfg: Config, s: State, tok: Token)
    requires tok in s.handlers && HandlerOk(s, tok) && s.handlers[tok].pc.Received? && s.handlers[tok].msg.env.message !in s.db.inbox
    ensures var s' := Next(cfg, s, Act(tok, GO, NoFault));
            && s'.db.deliveries == s.db.deliveries && s'.db.continuations == s.db.continuations && s'.now == s.now && s'.posts == s.posts
            && tok in s'.handlers && s'.handlers[tok] == s.handlers[tok].(pc := InboxClaimed)
            && OwnsInbox(s'.db, s.handlers[tok].msg, tok)
  {
    ActWorks(cfg, s, tok, GO, NoFault);
  }

  lemma WinsDelivery(cfg: Config, s: State, tok: Token, d: DeliveryId)
    requires tok in s.handlers && HandlerOk(s, tok) && s.handlers[tok].pc.InboxClaimed?
    requires Claimable(s, d) && Due(s, d) && Addresses(s.handlers[tok].msg, d, s.db.deliveries[d])
    ensures var s' := Next(cfg, s, Act(tok, GO, NoFault));
            && Holds(s', d, tok) && s'.db.deliveries[d] == ClaimRow(s.db.deliveries[d], s.now, tok)
            && s'.db.continuations == s.db.continuations && s'.db.inbox == s.db.inbox && s'.posts == s.posts
            && s'.handlers[tok].pc.Leased? && s'.handlers[tok].msg == s.handlers[tok].msg && Starts(s'.handlers[tok])
            && s'.handlers[tok].snap.value.row.attempts == 0
  {
    ActWorks(cfg, s, tok, GO, NoFault);
  }

  lemma HandlerIsOk(s: State, tok: Token)
    requires Inv(s) && tok in s.handlers
    ensures HandlerOk(s, tok)
  {
  }

  /** A handler that has just received a fresh wake for a due, claimable row takes both claims. */
  lemma TakesBothClaims(cfg: Config, s: State, d: DeliveryId, tok: Token) returns (acts: seq<Action>)
    requires Inv(s) && Claimable(s, d) && Due(s, d)
    requires tok in s.handlers && s.handlers[tok].pc.Received? && s.handlers[tok].msg.env.message !in s.db.inbox
    requires Addresses(s.handlers[tok].msg, d, s.db.deliveries[d])
    ensures NewlyHeld(s, Run(cfg, s, acts), d, tok)
  {
    hide Inv, Next, HandlerOk, OwnsInbox;
    var a := Act(tok, GO, NoFault);
    HandlerIsOk(s, tok);
    WinsInbox(cfg, s, tok);
    NextKeepsInv(cfg, s, a);
    var s1 := Next(cfg, s, a);
    HandlerIsOk(s1, tok);
    WinsDelivery(cfg, s1, tok, d);
    NextKeepsInv(cfg, s1, a);
    acts := [a] + [a];
    RunOne(cfg, s1, a);
    RunCons(cfg, s, a, [a]);
    InboxStillOwned(s1.db, Next(cfg, s1, a).db, s1.handlers[tok].msg, tok);
  }

  lemma InboxStillOwned(db: Db, db': Db, msg: Message, tok: Token)
    requires OwnsInbox(db, msg, tok) && db'.inbox == db.inbox
    ensures OwnsInbox(db', msg, tok)
  {
  }

  /** The row has a live holder with both claims, on its way to dispatch, and the rest of what matters is as before. */
  ghost predicate NewlyHeld(s: State, s': State, d: DeliveryId, tok: Token) {
    && Inv(s') && Holds(s', d, tok) && Starts(s'.handlers[tok]) && OwnsInbox(s'.db, s'.handlers[tok].msg, tok)
    && s'.handlers[tok].snap.Some? && s'.handlers[tok].snap.value.row.attempts == 0
    && s'.db.continuations == s.db.continuations && s'.posts == s.posts
    && d in s.db.deliveries && (exists at: Time :: s'.db.deliveries[d] == ClaimRow(s.db.deliveries[d], at, tok))
  }

  /** A claimable row gets a new holder with both claims, on its way to dispatch. */
  lemma NewHolder(cfg: Config, s: State, d: DeliveryId) returns (acts: seq<Action>, tok: Token)
    requires Inv(s) && Claimable(s, d)
    ensures NewlyHeld(s, Run(cfg, s, acts), d, tok)
  {
    hide Inv, Next, HandlerOk, OwnsInbox, Holds, Starts;
    var wait := WaitUntilDue(cfg, s, d);
    var s0 := Next(cfg, s, wait);
    var send, claim;
    send, tok := SendWake(cfg, s0, d);
    var s1 := Run(cfg, s0, send);
    claim := TakesBothClaims(cfg, s1, d, tok);
    acts := [wait] + (send + claim);
    RunAppend(cfg, s0, send, claim);
    RunCons(cfg, s, wait, send + claim);
  }

  lemma ClaimablePosts(cfg: Config, s: State, d: DeliveryId) returns (acts: seq<Action>)
    requires Inv(s) && Claimable(s, d)
    ensures d in PostedDeliveries(Run(cfg, s, acts).posts)
  {
    hide Inv, Next, HandlerOk, OwnsInbox, Holds, Starts;
    var first, tok := NewHolder(cfg, s, d);
    var second := StartPosts(cfg, Run(cfg, s, first), d, tok);
    acts := first + second;
    RunAppend(cfg, s, first, second);
  }

  // ---------------------------------------------------------------- reopening a continuation

  ghost predicate SameRow(s: State, s': State, d: DeliveryId) {
    d in s.db.deliveries && d in s'.db.deliveries && s'.db.deliveries[d] == s.db.deliveries[d]
  }

  ghost predicate SameBinding(s: State, s': State, c: ContinuationId) {
    && c in s.db.continuations && c in s'.db.continuations
    && s'.db.continuations[c].promptIdentity == s.db.continuations[c].promptIdentity
    && s'.db.continuations[c].adapterSupported == s.db.continuations[c].adapterSupported
  }

  /** A continuation under manual review is woken by the next delivery. */
  lemma ReviewReopens(cfg: Config, s: State, c: ContinuationId, d: DeliveryId) returns (a: Action)
    requires Inv(s) && c in s.db.continuations && s.db.continuations[c].status != Cancelled && d in s.db.deliveries
    ensures var s' := Next(cfg, s, a);
            Inv(s') && SameRow(s, s', d) && SameBinding(s, s', c) && s'.db.continuations[c].status == WakePending
  {
    hide Inv, RowOk;
    var x := SomeBound(s.db.deliveries.Keys);
    var effects := set e | e in s.db.deliveries :: s.db.deliveries[e].effect;
    var effect := SomeBound(effects);
    var row := DeliveryRow(c, 0, 0, effect, Pending, 0, None, None, None, None, None, None);
    forall e | e in s.db.deliveries ensures s.db.deliveries[e].effect != effect {
      assert s.db.deliveries[e].effect in effects;
    }
    a := Materialize(x, row);
    NextKeepsInv(cfg, s, a);
  }

  // The way of the current delivery's handler to the commit that closes it.

  function CloseDistance(pc: Pc): nat {
    if pc.Leased? then 9 else if pc.Looking? then 8 else if pc.CheckingSession? then 7 else if pc.StartingDispatch? then 6
    else if pc.Posting? then 5 else if pc.Verifying? then 4 else if pc.Accepting? then 3 else if pc.Matched? then 2 else 1
  }

  /** The handler is still on its way to close the continuation's current delivery. */
  ghost predicate Closing(cfg: Config, s: State, c: ContinuationId, x: DeliveryId, t: Token) {
    && CanClose(cfg, s, c, x, t)
    && c in s.db.continuations && s.db.continuations[c].current == Some(x)
  }

  lemma CloserDecides(cfg: Config, s: State, c: ContinuationId, x: DeliveryId, t: Token)
    requires Closing(cfg, s, c, x, t) && HandlerOk(s, t) && Deciding(s.handlers[t].pc)
    requires s.handlers[t].pc.Leased? ==> LockFree(s, s.handlers[t])
    ensures var s' := Next(cfg, s, Act(t, DONE, NoFault));
            s'.db == s.db && Closing(cfg, s', c, x, t) && CloseDistance(s'.handlers[t].pc) < CloseDistance(s.handlers[t].pc)
  {
    Decides(cfg, s, t, DONE);
  }

  lemma CloserWrites(cfg: Config, s: State, c: ContinuationId, x: DeliveryId, t: Token, d: DeliveryId)
    requires Closing(cfg, s, c, x, t) && HandlerOk(s, t) && x != d && d in s.db.deliveries
    requires s.handlers[t].pc.StartingDispatch? || s.handlers[t].pc.Accepting?
    ensures var s' := Next(cfg, s, Act(t, DONE, NoFault));
            && s'.db.continuations == s.db.continuations && SameRow(s, s', d)
            && Closing(cfg, s', c, x, t) && CloseDistance(s'.handlers[t].pc) < CloseDistance(s.handlers[t].pc)
  {
    ActWorks(cfg, s, t, DONE, NoFault);
  }

  lemma CloserCommits(cfg: Config, s: State, c: ContinuationId, x: DeliveryId, t: Token, d: DeliveryId)
    requires Closing(cfg, s, c, x, t) && HandlerOk(s, t) && x != d && d in s.db.deliveries
    requires s.handlers[t].pc.Observing? || s.handlers[t].pc.Disputing?
    ensures var s' := Next(cfg, s, Act(t, DONE, NoFault));
            SameRow(s, s', d) && SameBinding(s, s', c) && s'.db.continuations[c].status != Cancelled
  {
    ActWorks(cfg, s, t, DONE, NoFault);
  }

  lemma {:induction false} CloserReopens(cfg: Config, s: State, c: ContinuationId, x: DeliveryId, t: Token, d: DeliveryId)
    returns (acts: seq<Action>)
    requires Inv(s) && Closing(cfg, s, c, x, t) && x != d && d in s.db.deliveries
    ensures var s' := Run(cfg, s, acts);
            Inv(s') && SameRow(s, s', d) && SameBinding(s, s', c) && s'.db.continuations[c].status != Cancelled
    decreases CloseDistance(s.handlers[t].pc)
  {
    hide Inv, Next, HandlerOk;
    var pc, a := s.handlers[t].pc, Act(t, DONE, NoFault);
    HandlerIsOk(s, t);
    if pc.Observing? || pc.Disputing? {
      CloserCommits(cfg, s, c, x, t, d);
      NextKeepsInv(cfg, s, a);
      acts := [a];
      RunOne(cfg, s, a);
    } else if pc.StartingDispatch? || pc.Accepting? {
      CloserWrites(cfg, s, c, x, t, d);
      NextKeepsInv(cfg, s, a);
      var rest := CloserReopens(cfg, Next(cfg, s, a), c, x, t, d);
      acts := [a] + rest;
      RunCons(cfg, s, a, rest);
    } else {
      var before := [];
      if pc.Leased? { before := FreeTheLock(cfg, s, t); }
      var s0 := Run(cfg, s, before);
      HandlerIsOk(s0, t);
      CloserDecides(cfg, s0, c, x, t);
      NextKeepsInv(cfg, s0, a);
      var rest := CloserReopens(cfg, Next(cfg, s0, a), c, x, t, d);
      acts := before + ([a] + rest);
      RunCons(cfg, s0, a, rest);
      RunAppend(cfg, s, before, [a] + rest);
    }
  }

  /** A live, unattempted row of an open continuation is posted by some run. */
  lemma LivePosts(cfg: Config, s: State, d: DeliveryId) returns (acts: seq<Action>)
    requires Inv(s) && d in s.db.deliveries && !Terminal(s.db.deliveries[d].status) && s.db.deliveries[d].attempts == 0
    requires Dispatchable(s, s.db.deliveries[d]) && Open(cfg, s, s.db.deliveries[d].continuation, d)
    ensures d in PostedDeliveries(Run(cfg, s, acts).posts)
  {
    hide Inv, Next, HandlerOk, CanClose;
    var c := s.db.deliveries[d].continuation;
    var first, second := [], [];
    if s.db.continuations[c].status == Cancelled {
      var x := s.db.continuations[c].current.value;
      first := CloserReopens(cfg, s, c, x, s.db.deliveries[x].lease.value, d);
    }
    var s1 := Run(cfg, s, first);
    if s1.db.continuations[c].status == ManualReview {
      var a := ReviewReopens(cfg, s1, c, d);
      second := [a];
      RunOne(cfg, s1, a);
    }
    var s2 := Run(cfg, s1, second);
    var third := ClaimablePosts(cfg, s2, d);
    acts := first + (second + third);
    RunAppend(cfg, s1, second, third);
    RunAppend(cfg, s, first, second + third);
  }

  // ---------------------------------------------------------------- reviving a withdrawn row

  ghost predicate Reviving(s: State, d: DeliveryId, t: Token) {
    && Holds(s, d, t) && s.db.deliveries[d].status == Dead && s.db.deliveries[d].attempts == 0
    && OwnsInbox(s.db, s.handlers[t].msg, t) && Revives(s.handlers[t].pc)
  }

  lemma TurnPends(cfg: Config, s: State, d: DeliveryId, t: Token)
    requires Reviving(s, d, t) && HandlerOk(s, t) && RowOk(s, d) && s.handlers[t].pc.Matched?
    ensures var s' := Next(cfg, s, Act(t, BUSY, NoFault));
            && s'.db == s.db && s'.handlers == s.handlers[t := s.handlers[t].(pc := Deferring(Accepted))] && Reviving(s', d, t)
  {
    Decides(cfg, s, t, BUSY);
  }

  /** A deferral gives the row back and leaves every other row, handler and inbox claim alone. */
  lemma DefersBack(cfg: Config, s: State, d: DeliveryId, t: Token)
    requires Reviving(s, d, t) && HandlerOk(s, t) && !s.handlers[t].pc.Matched?
    ensures var s' := Next(cfg, s, Act(t, BUSY, NoFault)); GivenBack(s, s', d, t)
  {
    ActWorks(cfg, s, t, BUSY, NoFault);
  }

  ghost predicate GivenBack(s: State, s': State, d: DeliveryId, t: Token) {
    && t in s.handlers && d in s.db.deliveries && d in s'.db.deliveries
    && !Terminal(s'.db.deliveries[d].status) && s'.db.deliveries[d].attempts == s.db.deliveries[d].attempts
    && s'.db.deliveries[d].continuation == s.db.deliveries[d].continuation
    && s'.db.continuations == s.db.continuations
    && (forall x :: x in s.db.deliveries && x != d ==> x in s'.db.deliveries && s'.db.deliveries[x] == s.db.deliveries[x])
    && (forall u :: u in s.handlers && u != t ==> u in s'.handlers && s'.handlers[u] == s.handlers[u])
    && (forall m :: m in s.db.inbox && m != s.handlers[t].msg.env.message ==> m in s'.db.inbox && s'.db.inbox[m] == s.db.inbox[m])
  }

  lemma OpenStill(cfg: Config, s: State, s': State, c: ContinuationId, d: DeliveryId, t: Token)
    requires GivenBack(s, s', d, t) && Holds(s, d, t) && OwnsInbox(s.db, s.handlers[t].msg, t) && Open(cfg, s, c, d)
    ensures Open(cfg, s', c, d)
  {
    if s.db.continuations[c].status == Cancelled {
      var x := s.db.continuations[c].current.value;
      var u := s.db.deliveries[x].lease.value;
      assert CanClose(cfg, s, c, x, u) && u != t;
      assert CanClose(cfg, s', c, x, u);
    }
  }

  lemma RevivingPosts(cfg: Config, s: State, d: DeliveryId, t: Token) returns (acts: seq<Action>)
    requires Inv(s) && Reviving(s, d, t)
    requires Dispatchable(s, s.db.deliveries[d]) && Open(cfg, s, s.db.deliveries[d].continuation, d)
    ensures d in PostedDeliveries(Run(cfg, s, acts).posts)
  {
    hide Inv, Next, HandlerOk, OwnsInbox, CanClose;
    var a := Act(t, BUSY, NoFault);
    HandlerIsOk(s, t);
    RowIsOk(s, d);
    var before := [];
    if s.handlers[t].pc.Matched? {
      TurnPends(cfg, s, d, t);
      NextKeepsInv(cfg, s, a);
      before := [a];
      RunOne(cfg, s, a);
      OpenSame(cfg, s, Next(cfg, s, a), s.db.deliveries[d].continuation, d, t);
    }
    var s0 := Run(cfg, s, before);
    HandlerIsOk(s0, t);
    DefersBack(cfg, s0, d, t);
    NextKeepsInv(cfg, s0, a);
    var s1 := Next(cfg, s0, a);
    OpenStill(cfg, s0, s1, s0.db.deliveries[d].continuation, d, t);
    var rest := LivePosts(cfg, s1, d);
    acts := before + ([a] + rest);
    RunCons(cfg, s0, a, rest);
    RunAppend(cfg, s, before, [a] + rest);
  }

  lemma RowIsOk(s: State, d: DeliveryId)
    requires Inv(s) && d in s.db.deliveries
    ensures RowOk(s, d)
  {
  }

  lemma OpenSame(cfg: Config, s: State, s': State, c: ContinuationId, d: DeliveryId, t: Token)
    requires t in s.handlers && s.handlers[t].msg.env.delivery == d && s'.db == s.db
    requires t in s'.handlers && s'.handlers == s.handlers[t := s'.handlers[t]]
    requires Open(cfg, s, c, d)
    ensures Open(cfg, s', c, d)
  {
  }

  // ---------------------------------------------------------------- the exact condition

  lemma CanPostPosts(cfg: Config, s: State, d: DeliveryId) returns (acts: seq<Action>)
    requires Inv(s) && d in s.db.deliveries && CanPost(cfg, s, d)
    ensures d in PostedDeliveries(Run(cfg, s, acts).posts)
  {
    hide Inv, Next, HandlerOk, OwnsInbox, CanClose;
    if t :| AtPost(s, t, d) {
      HandlerIsOk(s, t);
      PostNow(cfg, s, t, d);
      acts := [Act(t, GO, NoFault)];
      RunOne(cfg, s, acts[0]);
    } else if HolderStarts(s, d) {
      acts := StartPosts(cfg, s, d, s.db.deliveries[d].lease.value);
    } else if Terminal(s.db.deliveries[d].status) {
      acts := RevivingPosts(cfg, s, d, s.db.deliveries[d].lease.value);
    } else {
      acts := LivePosts(cfg, s, d);
    }
  }

  /**
    In every reachable state, a delivery not posted so far is never posted by any later run if and only
    if no handler stands at its post and it cannot be started: already attempted, or no holder on the way
    to dispatch and no way for another handler to claim it.
   */
  lemma NeverPostedIff(cfg: Config, s: State, d: DeliveryId)
    requires Reachable(cfg, s) && d in s.db.deliveries && d !in PostedDeliveries(s.posts)
    ensures (forall acts: seq<Action> :: d !in PostedDeliveries(Run(cfg, s, acts).posts)) <==> !CanPost(cfg, s, d)
  {
    ReachableInv(cfg, s);
    if CanPost(cfg, s, d) {
      var acts := CanPostPosts(cfg, s, d);
      assert d in PostedDeliveries(Run(cfg, s, acts).posts);
    } else {
      forall acts: seq<Action> ensures d !in PostedDeliveries(Run(cfg, s, acts).posts) { NeverPosted(cfg, s, acts, d); }
    }
  }

  lemma {:induction false} NextIsReachable(cfg: Config, s: State, acts: seq<Action>)
    requires Reachable(cfg, s)
    ensures Reachable(cfg, Run(cfg, s, acts))
  {
    var start: Time, before: seq<Action> :| s == Run(cfg, Init(start), before);
    RunAppend(cfg, Init(start), before, acts);
    assert Run(cfg, s, acts) == Run(cfg, Init(start), before + acts);
  }

  /**
    Cancelling a continuation stops a withdrawn delivery for good if and only if no handler stands at its
    post and, when it was never attempted, its lease holder is neither on the way to dispatch nor able to
    give the row back while the continuation's current delivery can still be closed by its own handler.
   */
  lemma CancelStopsThePostIff(cfg: Config, s: State, c: ContinuationId, d: DeliveryId)
    requires Reachable(cfg, s) && c in s.db.continuations && s.db.continuations[c].status != Cancelled
    requires d in s.db.deliveries && CancelRow(s.db.deliveries[d], c) != s.db.deliveries[d] && d !in PostedDeliveries(s.posts)
    ensures var s' := Next(cfg, s, Cancel(c));
            && d in s'.db.deliveries && s'.db.deliveries[d].status == Dead && s'.db.continuations[c].status == Cancelled
            && ((forall acts: seq<Action> :: d !in PostedDeliveries(Run(cfg, s', acts).posts)) <==>
                  && (forall t :: !AtPost(s, t, d))
                  && !(s.db.deliveries[d].attempts == 0
                       && (HolderStarts(s, d) || (HolderRevives(s', d) && Dispatchable(s, s.db.deliveries[d]) && Open(cfg, s', c, d)))))
  {
    var s' := Next(cfg, s, Cancel(c));
    NextIsReachable(cfg, s, [Cancel(c)]);
    RunOne(cfg, s, Cancel(c));
    NeverPostedIff(cfg, s', d);
    forall t ensures AtPost(s', t, d) <==> AtPost(s, t, d) { }
  }

  // ---------------------------------------------------------------- a cancelled delivery that is posted

  const WAITING: ContinuationRow := ContinuationRow(Parked, None, 0, true, true)
  const FIRST: DeliveryRow := DeliveryRow(0, 0, 0, 0, Pending, 0, None, None, None, None, None, None)

  lemma FirstWake(cfg: Config) returns (acts: seq<Action>)
    ensures var s := Run(cfg, Init(0), acts);
            Inv(s) && Claimable(s, 0) && s.db.deliveries[0] == FIRST && s.posts == []
  {
    var a, b := Bind(0, WAITING), Materialize(0, FIRST);
    acts := [a] + [b];
    var s0 := Init(0);
    var s1 := Next(cfg, s0, a);
    NextKeepsInv(cfg, s0, a);
    NextKeepsInv(cfg, s1, b);
    RunOne(cfg, s1, b);
    RunCons(cfg, s0, a, [b]);
  }

  lemma IsAboutToDispatch(s: State, d: DeliveryId, tok: Token)
    requires Holds(s, d, tok) && HandlerOk(s, tok) && OwnsInbox(s.db, s.handlers[tok].msg, tok)
    requires s.handlers[tok].pc.StartingDispatch? && s.handlers[tok].snap.Some? && s.handlers[tok].snap.value.row.attempts == 0
    ensures AboutToDispatch(s, tok)
  {
  }

  /** A reachable state in which a handler is about to dispatch the only delivery of a live continuation. */
  lemma AboutToDispatchIsReachable(cfg: Config) returns (s: State, tok: Token)
    ensures Reachable(cfg, s) && Inv(s) && s.posts == [] && AboutToDispatch(s, tok) && Holds(s, 0, tok)
    ensures exists at: Time :: s.db.deliveries[0] == ClaimRow(FIRST, at, tok)
    ensures 0 in s.db.continuations && s.db.continuations[0].status != Cancelled
  {
    hide Inv, Next, HandlerOk, OwnsInbox;
    var first := FirstWake(cfg);
    var s1 := Run(cfg, Init(0), first);
    var second;
    second, tok := NewHolder(cfg, s1, 0);
    var s2 := Run(cfg, s1, second);
    var third := ReachStartingDispatch(cfg, s2, 0, tok);
    s := Run(cfg, s2, third);
    RunAppend(cfg, s1, second, third);
    RunAppend(cfg, Init(0), first, second + third);
    assert s == Run(cfg, Init(0), first + (second + third));
    HandlerIsOk(s, tok);
    IsAboutToDispatch(s, 0, tok);
  }

  /** So cancellation really can be too late: a reachable cancelled continuation whose dead delivery a later run posts. */
  lemma CancelledDeliveryIsPosted(cfg: Config) returns (s: State, acts: seq<Action>)
    ensures Reachable(cfg, s) && IsCancelled(s, 0) && HasStatus(s, 0, Dead) && s.posts == []
    ensures 0 in PostedDeliveries(Run(cfg, s, acts).posts)
  {
    var before, tok := AboutToDispatchIsReachable(cfg);
    s := Next(cfg, before, Cancel(0));
    NextIsReachable(cfg, before, [Cancel(0)]);
    RunOne(cfg, before, Cancel(0));
    NextKeepsInv(cfg, before, Cancel(0));
    CancelledHolderStarts(cfg, before, tok);
    acts := CanPostPosts(cfg, s, 0);
  }

  lemma CancelledHolderStarts(cfg: Config, s: State, tok: Token)
    requires AboutToDispatch(s, tok) && Holds(s, 0, tok) && (exists at: Time :: s.db.deliveries[0] == ClaimRow(FIRST, at, tok))
    requires 0 in s.db.continuations && s.db.continuations[0].status != Cancelled
    ensures var s' := Next(cfg, s, Cancel(0));
            IsCancelled(s', 0) && HasStatus(s', 0, Dead) && s'.posts == s.posts && CanPost(cfg, s', 0)
  {
    var s' := Next(cfg, s, Cancel(0));
    assert HolderStarts(s', 0);
  }
}
