/** When a withdrawn or dead delivery row is final: the exact condition, over every later run. */
module ContinuationFrozen {
  import opened Wrappers
  import opened ContinuationTables
  import opened ContinuationProtocol
  import opened ContinuationSafety
  import opened ContinuationRuns
  import opened ContinuationDecisions

  // ---------------------------------------------------------------- runs put together

  lemma RunCons(cfg: Config, s: State, a: Action, rest: seq<Action>)
    ensures Run(cfg, s, [a] + rest) == Run(cfg, Next(cfg, s, a), rest)
  {
    assert ([a] + rest)[1..] == rest;
  }

  lemma RunOne(cfg: Config, s: State, a: Action)
    ensures Run(cfg, s, [a]) == Next(cfg, s, a)
  {
    assert [a][1..] == [];
    assert Run(cfg, Next(cfg, s, a), []) == Next(cfg, s, a);
  }

  lemma {:induction false} RunAppend(cfg: Config, s: State, first: seq<Action>, second: seq<Action>)
    ensures Run(cfg, s, first + second) == Run(cfg, Run(cfg, s, first), second)
    decreases |first|
  {
    if first == [] {
      assert first + second == second;
    } else {
      assert (first + second)[1..] == first[1..] + second;
      RunAppend(cfg, Next(cfg, s, first[0]), first[1..], second);
    }
  }

  // ---------------------------------------------------------------- steps that only decide

  /** Steps that ask and decide but write no table. */
  predicate Deciding(pc: Pc) {
    pc.Leased? || pc.Looking? || pc.Matched? || pc.CheckingSession? || pc.Posting? || pc.Verifying?
  }

  function DecidedPc(cfg: Config, now: Time, h: Handler, w: World, lockFree: bool): Pc
    requires h.snap.Some?
  {
    match h.pc
    case Leased => if !h.snap.value.cont.adapterSupported then Killing else if lockFree then Looking else Yielding
    case Looking => AfterLook(cfg, h.snap.value, now, w.target)
    case Matched(dispatched) => AfterTurn(cfg, h.snap.value, now, dispatched, w.turn)
    case CheckingSession =>
      if w.busy then Deferring(Deferred) else if h.snap.value.row.attempts >= MAX_ATTEMPTS then Killing else StartingDispatch
    case Posting => Verifying(0)
    case Verifying(polls) => AfterPoll(cfg, polls, w.target)
    case pc => pc
  }

  lemma Decides(cfg: Config, s: State, tok: Token, w: World)
    requires CanAct(s, tok) && Deciding(s.handlers[tok].pc)
    ensures var s', h := Next(cfg, s, Act(tok, w, NoFault)), s.handlers[tok];
            && s'.db == s.db && s'.now == s.now && s'.copies == s.copies && s'.issued == s.issued
            && s'.handlers == s.handlers[tok := h.(pc := DecidedPc(cfg, s.now, h, w, LockFree(s, h)))]
            && s'.posts == (if h.pc.Posting? then s.posts + [Post(h.snap.value.id, h.snap.value.row.effect, tok)] else s.posts)
  {
    ActWorks(cfg, s, tok, w, NoFault);
  }

  /** A handler that waits for its session lock gets it when the holder dies. */
  lemma FreeTheLock(cfg: Config, s: State, tok: Token) returns (acts: seq<Action>)
    requires Inv(s) && tok in s.handlers && s.handlers[tok].pc.Leased?
    ensures var s' := Run(cfg, s, acts);
            && Inv(s') && s'.db == s.db && s'.now == s.now && s'.posts == s.posts
            && tok in s'.handlers && s'.handlers[tok] == s.handlers[tok] && LockFree(s', s.handlers[tok])
  {
    var h := s.handlers[tok];
    if LockFree(s, h) { return []; }
    var u := s.locks[h.snap.value.cont.session];
    assert u in s.handlers && HandlerOk(s, u);
    acts := [Crash(u)];
    RunOne(cfg, s, Crash(u));
    CrashFrees(cfg, s, tok, u);
    NextKeepsInv(cfg, s, Crash(u));
  }

  lemma CrashFrees(cfg: Config, s: State, tok: Token, u: Token)
    requires LocksOk(s) && tok in s.handlers && s.handlers[tok].pc.Leased? && s.handlers[tok].snap.Some?
    requires s.handlers[tok].snap.value.cont.session in s.locks && u == s.locks[s.handlers[tok].snap.value.cont.session]
    requires u in s.handlers && s.handlers[u].copy in s.copies
    ensures var s' := Next(cfg, s, Crash(u));
            && s'.db == s.db && s'.now == s.now && s'.posts == s.posts
            && tok in s'.handlers && s'.handlers[tok] == s.handlers[tok] && LockFree(s', s.handlers[tok])
  {
  }

  // ---------------------------------------------------------------- what can still be written

  /** Without its inbox claim a handler can still reach mark_dispatching or mark_accepted, which check the lease alone. */
  predicate Unguarded(cfg: Config, h: Handler) {
    && h.snap.Some?
    && (|| h.pc.Accepting?
        || (h.pc.Verifying? && h.pc.polls < cfg.verifyAttempts)
        || (h.pc.Posting? && cfg.verifyAttempts > 0)
        || h.pc.StartingDispatch?
        || h.pc.CheckingSession?
        || (h.pc.Looking? && h.snap.value.row.dispatchStarted.None?)
        || (h.pc.Leased? && h.snap.value.cont.adapterSupported && h.snap.value.row.dispatchStarted.None?))
  }

  /** With its inbox claim every unfinished handler can write, if only the release after an error. */
  predicate Guarded(db: Db, tok: Token, h: Handler) {
    OwnsInbox(db, h.msg, tok) && (h.pc.Killing? ==> h.snap.Some?)
  }

  predicate Writes(cfg: Config, db: Db, tok: Token, h: Handler) {
    !Settling(h.pc) && (Guarded(db, tok, h) || Unguarded(cfg, h))
  }

  /** A live handler of this delivery holds its lease and has a guarded write still ahead. */
  predicate WriteAhead(cfg: Config, s: State, d: DeliveryId)
    requires d in s.db.deliveries
  {
    var lease := s.db.deliveries[d].lease;
    && lease.Some? && lease.value in s.handlers
    && s.handlers[lease.value].msg.env.delivery == d
    && Writes(cfg, s.db, lease.value, s.handlers[lease.value])
  }

  ghost predicate Stuck(cfg: Config, s: State, d: DeliveryId) {
    d in s.db.deliveries && s.db.deliveries[d].status == Dead && !WriteAhead(cfg, s, d)
  }

  // ---------------------------------------------------------------- nothing ahead: the row never changes

  lemma AdvanceStuck(cfg: Config, now: Time, db: Db, tok: Token, h: Handler, w: World, lockFree: bool)
    requires AdvanceReady(tok, h) && PastClaim(h.pc) && !Writes(cfg, db, tok, h)
    ensures var e := Advance(cfg, now, db, tok, h, w, lockFree);
            && e.db.deliveries == db.deliveries
            && !Writes(cfg, e.db, tok, h.(pc := e.pc, snap := e.snap))
            && !Writes(cfg, db, tok, h.(pc := ErrorPc(h.pc)))
            && !Writes(cfg, e.db, tok, h.(pc := ErrorPc(h.pc)))
  {
  }

  lemma HolderStaysStuck(cfg: Config, s: State, tok: Token, w: World, fault: Fault)
    requires CanAct(s, tok) && HandlerOk(s, tok) && PastClaim(s.handlers[tok].pc) && !Settling(s.handlers[tok].pc)
    requires !Writes(cfg, s.db, tok, s.handlers[tok])
    ensures var s' := Work(cfg, s, tok, w, fault);
            s'.db.deliveries == s.db.deliveries && !Writes(cfg, s'.db, tok, s'.handlers[tok])
  {
    AdvanceStuck(cfg, s.now, s.db, tok, s.handlers[tok], w, LockFree(s, s.handlers[tok]));
  }

  /** Another handler neither touches a leased dead row nor hands its holder an inbox claim. */
  lemma OthersKeepStuck(cfg: Config, s: State, t: Token, w: World, fault: Fault, d: DeliveryId)
    requires Stuck(cfg, s, d) && CanAct(s, t) && !Settling(s.handlers[t].pc) && HandlerKnows(s, t)
    requires s.db.deliveries[d].lease != Some(t)
    ensures Stuck(cfg, Work(cfg, s, t, w, fault), d)
    ensures Work(cfg, s, t, w, fault).db.deliveries[d] == s.db.deliveries[d]
  {
    StepMoves(cfg, s, t, w, fault);
    var s' := Work(cfg, s, t, w, fault);
    assert s'.db.deliveries[d] == s.db.deliveries[d];
    var lease := s.db.deliveries[d].lease;
    if lease.Some? && lease.value in s.handlers {
      InboxNotGained(s.db, s'.db, t, lease.value, s.handlers[t].msg.env.message, s.handlers[lease.value].msg);
    }
  }

  lemma InboxNotGained(db: Db, db': Db, t: Token, tok: Token, m: MessageId, msg: Message)
    requires InboxesMove(db, db', t, m) && t != tok
    ensures OwnsInbox(db', msg, tok) ==> OwnsInbox(db, msg, tok)
  {
  }

  lemma StuckStays(cfg: Config, s: State, a: Action, d: DeliveryId)
    requires Inv(s) && Stuck(cfg, s, d)
    ensures Stuck(cfg, Next(cfg, s, a), d) && Next(cfg, s, a).db.deliveries[d] == s.db.deliveries[d]
  {
    if Enabled(s, a) {
      assert RowOk(s, d);
      match a {
        case Act(t, w, fault) => ActKeepsStuck(cfg, s, t, w, fault, d);
        case Crash(t) =>
        case _ => ControlPlaneIsBackground(cfg, s, a);
      }
    }
  }

  lemma ActKeepsStuck(cfg: Config, s: State, t: Token, w: World, fault: Fault, d: DeliveryId)
    requires Inv(s) && Stuck(cfg, s, d) && Enabled(s, Act(t, w, fault))
    ensures var s' := Next(cfg, s, Act(t, w, fault)); Stuck(cfg, s', d) && s'.db.deliveries[d] == s.db.deliveries[d]
  {
    assert HandlerOk(s, t);
    if Settling(s.handlers[t].pc) {
      ActLeaves(cfg, s, t, w, fault);
    } else {
      ActWorks(cfg, s, t, w, fault);
      if s.db.deliveries[d].lease != Some(t) {
        OthersKeepStuck(cfg, s, t, w, fault, d);
      } else if s.handlers[t].msg.env.delivery == d {
        HolderStaysStuck(cfg, s, t, w, fault);
      } else {
        StepMoves(cfg, s, t, w, fault);
      }
    }
  }

  lemma {:induction false} StuckForever(cfg: Config, s: State, acts: seq<Action>, d: DeliveryId)
    requires Inv(s) && Stuck(cfg, s, d)
    ensures d in Run(cfg, s, acts).db.deliveries && Run(cfg, s, acts).db.deliveries[d] == s.db.deliveries[d]
    decreases |acts|
  {
    if acts != [] {
      StuckStays(cfg, s, acts[0], d);
      NextKeepsInv(cfg, s, acts[0]);
      StuckForever(cfg, Next(cfg, s, acts[0]), acts[1..], d);
    }
  }

  // ---------------------------------------------------------------- a write ahead: some run performs it

  /** The handler is alive, handles this delivery and has its lease. */
  ghost predicate Holds(s: State, d: DeliveryId, tok: Token) {
    && tok in s.handlers && s.handlers[tok].msg.env.delivery == d
    && d in s.db.deliveries && s.db.deliveries[d].lease == Some(tok)
  }

  lemma FailingReleases(cfg: Config, s: State, d: DeliveryId, tok: Token)
    requires Holds(s, d, tok) && HandlerOk(s, tok) && s.handlers[tok].pc.Failing? && OwnsInbox(s.db, s.handlers[tok].msg, tok)
    ensures var s' := Next(cfg, s, Act(tok, World(Absent, TurnPending, false), NoFault));
            d in s'.db.deliveries && s'.db.deliveries[d].lease.None?
  {
    ActWorks(cfg, s, tok, World(Absent, TurnPending, false), NoFault);
  }

  /** A failed call sends every handler that is not yet settling the row to the release after an error. */
  lemma CallFails(cfg: Config, s: State, tok: Token, w: World)
    requires CanAct(s, tok) && !Settling(s.handlers[tok].pc)
    ensures var s' := Next(cfg, s, Act(tok, w, LostCall));
            s'.db == s.db && s'.handlers == s.handlers[tok := s.handlers[tok].(pc := ErrorPc(s.handlers[tok].pc))]
  {
    ActWorks(cfg, s, tok, w, LostCall);
  }

  lemma SettlesRow(cfg: Config, s: State, d: DeliveryId, tok: Token, w: World)
    requires Holds(s, d, tok) && HandlerOk(s, tok) && OwnsInbox(s.db, s.handlers[tok].msg, tok)
    requires s.handlers[tok].pc.Disputing? || (s.handlers[tok].pc.Killing? && s.handlers[tok].snap.Some?)
    ensures var s' := Next(cfg, s, Act(tok, w, NoFault)); d in s'.db.deliveries && s'.db.deliveries[d].lease.None?
  {
    ActWorks(cfg, s, tok, w, NoFault);
  }

  lemma GuardedWriteHappens(cfg: Config, s: State, d: DeliveryId, tok: Token) returns (acts: seq<Action>)
    requires Inv(s) && Holds(s, d, tok) && !Settling(s.handlers[tok].pc) && Guarded(s.db, tok, s.handlers[tok])
    ensures d in Run(cfg, s, acts).db.deliveries && Run(cfg, s, acts).db.deliveries[d] != s.db.deliveries[d]
  {
    var w := World(Absent, TurnPending, false);
    assert HandlerOk(s, tok);
    var pc := s.handlers[tok].pc;
    if pc.Disputing? || pc.Killing? {
      acts := [Act(tok, w, NoFault)];
      RunOne(cfg, s, acts[0]);
      SettlesRow(cfg, s, d, tok, w);
    } else if pc.Failing? {
      acts := [Act(tok, w, NoFault)];
      RunOne(cfg, s, acts[0]);
      FailingReleases(cfg, s, d, tok);
    } else {
      acts := [Act(tok, w, LostCall), Act(tok, w, NoFault)];
      assert acts == [acts[0]] + [acts[1]];
      RunCons(cfg, s, acts[0], [acts[1]]);
      CallFails(cfg, s, tok, w);
      var s1 := Next(cfg, s, acts[0]);
      NextKeepsInv(cfg, s, acts[0]);
      RunOne(cfg, s1, acts[1]);
      assert HandlerOk(s1, tok);
      FailingReleases(cfg, s1, d, tok);
    }
  }

  function Distance(pc: Pc): nat {
    if pc.Leased? then 4 else if pc.Looking? || pc.Posting? then 3 else if pc.CheckingSession? || pc.Verifying? then 2 else 1
  }

  lemma LeaseAloneWrites(cfg: Config, s: State, d: DeliveryId, tok: Token, w: World)
    requires Holds(s, d, tok) && HandlerOk(s, tok) && s.db.deliveries[d].status == Dead
    requires s.handlers[tok].pc.Accepting? || s.handlers[tok].pc.StartingDispatch?
    ensures var s' := Next(cfg, s, Act(tok, w, NoFault)); d in s'.db.deliveries && s'.db.deliveries[d].status != Dead
  {
    ActWorks(cfg, s, tok, w, NoFault);
  }

  lemma UnguardedStep(cfg: Config, s: State, d: DeliveryId, tok: Token)
    requires Holds(s, d, tok) && HandlerOk(s, tok) && Deciding(s.handlers[tok].pc) && Unguarded(cfg, s.handlers[tok])
    requires s.handlers[tok].pc.Leased? ==> LockFree(s, s.handlers[tok])
    ensures var target := if s.handlers[tok].pc.Verifying? then Match else Absent;
            var s' := Next(cfg, s, Act(tok, World(target, TurnPending, false), NoFault));
            && s'.db == s.db && Holds(s', d, tok) && Unguarded(cfg, s'.handlers[tok])
            && Distance(s'.handlers[tok].pc) < Distance(s.handlers[tok].pc)
  {
    Decides(cfg, s, tok, World(if s.handlers[tok].pc.Verifying? then Match else Absent, TurnPending, false));
  }

  lemma {:induction false} UnguardedWriteHappens(cfg: Config, s: State, d: DeliveryId, tok: Token) returns (acts: seq<Action>)
    requires Inv(s) && Holds(s, d, tok) && s.db.deliveries[d].status == Dead && Unguarded(cfg, s.handlers[tok])
    ensures d in Run(cfg, s, acts).db.deliveries && Run(cfg, s, acts).db.deliveries[d].status != Dead
    decreases Distance(s.handlers[tok].pc)
  {
    var pc := s.handlers[tok].pc;
    if Deciding(pc) {
      var before := [];
      if pc.Leased? { before := FreeTheLock(cfg, s, tok); }
      var s0 := Run(cfg, s, before);
      var a := Act(tok, World(if pc.Verifying? then Match else Absent, TurnPending, false), NoFault);
      assert HandlerOk(s0, tok);
      UnguardedStep(cfg, s0, d, tok);
      NextKeepsInv(cfg, s0, a);
      var rest := UnguardedWriteHappens(cfg, Next(cfg, s0, a), d, tok);
      acts := before + ([a] + rest);
      RunCons(cfg, s0, a, rest);
      RunAppend(cfg, s, before, [a] + rest);
    } else {
      acts := [Act(tok, World(Absent, TurnPending, false), NoFault)];
      RunOne(cfg, s, acts[0]);
      assert HandlerOk(s, tok);
      LeaseAloneWrites(cfg, s, d, tok, World(Absent, TurnPending, false));
    }
  }

  /**
    The exact condition: a dead row is final, in every field and over every later run, if and only if no
    live handler of this delivery holds its lease with a guarded write still ahead.
   */
  lemma DeadRowIsFinalIff(cfg: Config, s: State, d: DeliveryId)
    requires Reachable(cfg, s) && d in s.db.deliveries && s.db.deliveries[d].status == Dead
    ensures (forall acts: seq<Action> ::
               d in Run(cfg, s, acts).db.deliveries && Run(cfg, s, acts).db.deliveries[d] == s.db.deliveries[d])
            <==> !WriteAhead(cfg, s, d)
  {
    ReachableInv(cfg, s);
    if WriteAhead(cfg, s, d) {
      var tok := s.db.deliveries[d].lease.value;
      var acts;
      if Guarded(s.db, tok, s.handlers[tok]) {
        acts := GuardedWriteHappens(cfg, s, d, tok);
      } else {
        acts := UnguardedWriteHappens(cfg, s, d, tok);
      }
      assert Run(cfg, s, acts).db.deliveries[d] != s.db.deliveries[d];
    } else {
      forall acts: seq<Action>
        ensures d in Run(cfg, s, acts).db.deliveries && Run(cfg, s, acts).db.deliveries[d] == s.db.deliveries[d]
      {
        StuckForever(cfg, s, acts, d);
      }
    }
  }
}
