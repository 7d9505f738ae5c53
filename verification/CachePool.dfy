/**
  The replicated exact cache as a function of its state: every configured member and every local
  circuit. An operation sends each member whose circuit is closed a list of commands, one at a time;
  the network decides, member by member, where the list is cut.
 */
module CachePool {
  import opened Wrappers
  import opened CacheMember

  /** All commands answered, or a failure after `served` of them; the failed one may still take effect. */
  datatype Reach = All | Cut(served: nat, late: bool)

  /** What the network does to each member in one operation; members beyond the list are reached. */
  type Network = seq<Reach>

  datatype Pool = Pool(members: seq<Member>, until: map<nat, int>)

  datatype Options = Options(cooldown: int, closed: bool)

  datatype Outcome<T> = Done(value: T) | Unavailable

  datatype Answer = Hit(value: Value, deps: seq<Hash>) | StaleEverywhere | Miss

  function ReachOf(net: Network, i: nat): Reach {
    if i < |net| then net[i] else All
  }

  function Took(cs: seq<Command>, r: Reach): (n: nat)
    ensures n <= |cs|
  {
    match r
    case All => |cs|
    case Cut(served, late) =>
      var n := if late then served + 1 else served;
      if n < |cs| then n else |cs|
  }

  predicate Answered(cs: seq<Command>, r: Reach) {
    r.All? || r.served >= |cs|
  }

  predicate Open(p: Pool, i: nat, now: int) {
    i in p.until && p.until[i] > now
  }

  predicate AllActive(p: Pool, now: int) {
    forall i :: 0 <= i < |p.members| ==> !Open(p, i, now)
  }

  predicate NoneActive(p: Pool, now: int) {
    forall i :: 0 <= i < |p.members| ==> Open(p, i, now)
  }

  /** The member was active and answered its whole list. */
  predicate Fulfilled(p: Pool, lists: seq<seq<Command>>, net: Network, now: int, i: nat)
    requires |lists| == |p.members|
  {
    i < |p.members| && !Open(p, i, now) && Answered(lists[i], ReachOf(net, i))
  }

  predicate SomeFulfilled(p: Pool, lists: seq<seq<Command>>, net: Network, now: int)
    requires |lists| == |p.members|
  {
    exists i :: 0 <= i < |p.members| && Fulfilled(p, lists, net, now, i)
  }

  predicate AllFulfilled(p: Pool, lists: seq<seq<Command>>, net: Network, now: int)
    requires |lists| == |p.members|
  {
    forall i :: 0 <= i < |p.members| ==> Fulfilled(p, lists, net, now, i)
  }

  /** A success closes the circuit, a failure opens it for the cooldown; an open circuit is left alone. */
  function Circuits(p: Pool, o: Options, lists: seq<seq<Command>>, net: Network, now: int): map<nat, int>
    requires |lists| == |p.members|
  {
    map i: nat | i < |p.members| && !Fulfilled(p, lists, net, now, i) :: if Open(p, i, now) then p.until[i] else now + o.cooldown
  }

  function MemberAfter(p: Pool, cs: seq<Command>, net: Network, now: int, i: nat): Member
    requires i < |p.members|
  {
    if Open(p, i, now) then p.members[i] else Applied(p.members[i], cs[..Took(cs, ReachOf(net, i))])
  }

  function Broadcast(p: Pool, o: Options, lists: seq<seq<Command>>, net: Network, now: int): (q: Pool)
    requires |lists| == |p.members|
    ensures |q.members| == |p.members|
  {
    Pool(seq(|p.members|, i requires 0 <= i < |p.members| => MemberAfter(p, lists[i], net, now, i)), Circuits(p, o, lists, net, now))
  }

  function ToAll(p: Pool, cs: seq<Command>): (lists: seq<seq<Command>>)
    ensures |lists| == |p.members| && forall i :: 0 <= i < |lists| ==> lists[i] == cs
  {
    seq(|p.members|, i => cs)
  }

  function Deletes(p: Pool, key: Key): (lists: seq<seq<Command>>)
    ensures |lists| == |p.members| && forall i :: 0 <= i < |lists| ==> lists[i] == DeleteCommands(p.members[i], key)
  {
    seq(|p.members|, i requires 0 <= i < |p.members| => DeleteCommands(p.members[i], key))
  }

  function Reads(p: Pool, key: Key, now: int): (lists: seq<seq<Command>>)
    ensures |lists| == |p.members| && forall i :: 0 <= i < |lists| ==> lists[i] == ReadCommands(p.members[i], key, now)
  {
    seq(|p.members|, i requires 0 <= i < |p.members| => ReadCommands(p.members[i], key, now))
  }

  /** The SMEMBERS replies: each lists the member's index set, in an order of the server's choosing. */
  ghost predicate Replies(p: Pool, dep: Hash, replies: seq<seq<Key>>) {
    |replies| == |p.members| && forall i :: 0 <= i < |p.members| ==> Lists(replies[i], Indexed(p.members[i], dep))
  }

  function Invalidations(p: Pool, dep: Hash, replies: seq<seq<Key>>): (lists: seq<seq<Command>>)
    requires |replies| == |p.members|
    ensures |lists| == |p.members| && forall i :: 0 <= i < |lists| ==> lists[i] == InvalidateCommands(dep, replies[i])
  {
    seq(|p.members|, i requires 0 <= i < |p.members| => InvalidateCommands(dep, replies[i]))
  }

  function Entry(value: Value, deps: seq<Hash>, ttl: int, now: int): Raw {
    Stored(1, value, Unique(deps), now, if ttl > 0 then ttl else 0)
  }

  // ---------------------------------------------------------------- lookups

  predicate SomeStale(p: Pool, key: Key, now: int) {
    exists i :: 0 <= i < |p.members| && ReadMember(p.members[i], key, now).stale
  }

  predicate AllStale(p: Pool, key: Key, now: int) {
    forall i :: 0 <= i < |p.members| ==> ReadMember(p.members[i], key, now).stale
  }

  predicate AllAbsent(p: Pool, key: Key) {
    forall i :: 0 <= i < |p.members| ==> key !in p.members[i].entries
  }

  predicate AllSame(p: Pool, key: Key)
    requires |p.members| > 0
  {
    && key in p.members[0].entries
    && forall i :: 0 <= i < |p.members| ==>
         key in p.members[i].entries && p.members[i].entries[key] == p.members[0].entries[key]
  }

  /** What the client makes of a complete set of readings. */
  datatype Verdict = Keep(answer: Answer) | Drop(answer: Answer)

  function Judged(p: Pool, key: Key, now: int): Verdict
    requires |p.members| > 0
  {
    if SomeStale(p, key, now) then Drop(if AllStale(p, key, now) then StaleEverywhere else Miss)
    else if AllAbsent(p, key) then Keep(Miss)
    else if !AllSame(p, key) then Drop(Miss)
    else
      var raw := p.members[0].entries[key];
      Keep(if raw.Stored? then Hit(raw.value, raw.deps) else Miss)
  }

  /** `net` cuts the reads, `cleanup` the delete that follows a stale or divergent reading. */
  function Lookup(p: Pool, o: Options, key: Key, now: int, net: Network, cleanup: Network): (Pool, Outcome<Answer>)
    requires |p.members| > 0
  {
    if NoneActive(p, now) then (p, if o.closed then Unavailable else Done(Miss))
    else if !AllActive(p, now) then (p, Done(Miss))
    else
      var sent := Reads(p, key, now);
      var q := p.(until := Circuits(p, o, sent, net, now));
      if !SomeFulfilled(p, sent, net, now) then (q, if o.closed then Unavailable else Done(Miss))
      else if !AllFulfilled(p, sent, net, now) then (q, Done(Miss))
      else match Judged(p, key, now)
        case Keep(answer) => (q, Done(answer))
        case Drop(answer) => (Broadcast(q, o, Deletes(q, key), cleanup, now), Done(answer))
  }

  // ---------------------------------------------------------------- results

  /** Writes throw only in fail-closed mode, when no member took the whole list. */
  function WriteOutcome<T>(p: Pool, o: Options, lists: seq<seq<Command>>, net: Network, now: int, value: T): Outcome<T>
    requires |lists| == |p.members|
  {
    if o.closed && !SomeFulfilled(p, lists, net, now) then Unavailable else Done(value)
  }

  predicate SomeRemoved(p: Pool, key: Key, net: Network, now: int) {
    exists i :: 0 <= i < |p.members| && Fulfilled(p, Deletes(p, key), net, now, i) && key in p.members[i].entries
  }

  /** How many of the DEL commands find something. */
  function DelReplies(present: set<Key>, keys: seq<Key>): nat
    decreases |keys|
  {
    if keys == [] then 0 else (if keys[0] in present then 1 else 0) + DelReplies(present - {keys[0]}, keys[1..])
  }

  function Elements(keys: seq<Key>): (s: set<Key>)
    ensures forall k :: k in s <==> k in keys
    decreases |keys|
  {
    if keys == [] then {}
    else
      assert keys == [keys[0]] + keys[1..];
      {keys[0]} + Elements(keys[1..])
  }

  /** The replies add up to the number of indexed entries that were there. */
  lemma {:induction false} DelRepliesCount(present: set<Key>, keys: seq<Key>)
    ensures DelReplies(present, keys) == |present * Elements(keys)|
    decreases |keys|
  {
    if keys != [] {
      DelRepliesCount(present - {keys[0]}, keys[1..]);
      OneMore(present, keys[0], Elements(keys[1..]));
    }
  }

  lemma OneMore(here: set<Key>, key: Key, others: set<Key>)
    ensures |here * ({key} + others)| == (if key in here then 1 else 0) + |(here - {key}) * others|
  {
    var rest := (here - {key}) * others;
    if key in here {
      assert here * ({key} + others) == rest + {key};
    } else {
      assert here * ({key} + others) == rest;
    }
  }

  /** The largest removal count of the first `n` members that answered everything. */
  function MostRemoved(p: Pool, dep: Hash, replies: seq<seq<Key>>, net: Network, now: int, n: nat): nat
    requires |replies| == |p.members| && n <= |p.members|
  {
    if n == 0 then 0
    else
      var before := MostRemoved(p, dep, replies, net, now, n - 1);
      var here := if Fulfilled(p, Invalidations(p, dep, replies), net, now, n - 1) then DelReplies(p.members[n - 1].entries.Keys, replies[n - 1]) else 0;
      if here > before then here else before
  }

  function FileAt(m: Member, path: Path): Option<Hash> {
    if path in m.files then Some(m.files[path]) else None
  }

  predicate SameFile(p: Pool, path: Path)
    requires |p.members| > 0
  {
    forall i :: 0 <= i < |p.members| ==> FileAt(p.members[i], path) == FileAt(p.members[0], path)
  }

  /** The recorded hash of a file, if every member is reachable and says the same. */
  function FileHash(p: Pool, o: Options, path: Path, now: int, net: Network): (Pool, Outcome<Option<Hash>>)
    requires |p.members| > 0
  {
    if NoneActive(p, now) then (p, if o.closed then Unavailable else Done(None))
    else if !AllActive(p, now) then (p, Done(None))
    else
      var sent := ToAll(p, [HGetFile(path)]);
      var q := p.(until := Circuits(p, o, sent, net, now));
      if !SomeFulfilled(p, sent, net, now) then (q, if o.closed then Unavailable else Done(None))
      else if !AllFulfilled(p, sent, net, now) then (q, Done(None))
      else (q, Done(if SameFile(p, path) then FileAt(p.members[0], path) else None))
  }

  // ---------------------------------------------------------------- runs

  /** Every operation of a client, and the server dropping an entry whose time to live has passed. */
  datatype Action =
    | Find(key: Key, now: int, net: Network, cleanup: Network)
    | Store(key: Key, value: Value, deps: seq<Hash>, ttl: int, now: int, net: Network)
    | Delete(key: Key, now: int, net: Network)
    | Invalidate(dep: Hash, replies: seq<seq<Key>>, now: int, net: Network)
    | Redirect(from: Hash, to: Hash, now: int, net: Network)
    | Record(path: Path, hash: Hash, now: int, net: Network)
    | Ask(path: Path, now: int, net: Network)
    | Evict(member: nat, key: Key, now: int)

  ghost function Next(p: Pool, o: Options, a: Action): (q: Pool)
    requires |p.members| > 0
    ensures |q.members| == |p.members|
  {
    match a
    case Find(key, now, net, cleanup) => Lookup(p, o, key, now, net, cleanup).0
    case Store(key, value, deps, ttl, now, net) =>
      Broadcast(p, o, ToAll(p, SetCommands(key, Entry(value, deps, ttl, now))), net, now)
    case Delete(key, now, net) => Broadcast(p, o, Deletes(p, key), net, now)
    case Invalidate(dep, replies, now, net) =>
      if Replies(p, dep, replies) then Broadcast(p, o, Invalidations(p, dep, replies), net, now) else p
    case Redirect(from, to, now, net) => Broadcast(p, o, ToAll(p, [HSet(from, to)]), net, now)
    case Record(path, hash, now, net) => Broadcast(p, o, ToAll(p, [HSetFile(path, hash)]), net, now)
    case Ask(path, now, net) => FileHash(p, o, path, now, net).0
    case Evict(i, key, now) =>
      if i < |p.members| && key in p.members[i].entries && p.members[i].entries[key].Stored?
         && Expired(p.members[i].entries[key], now)
      then p.(members := p.members[i := Exec(p.members[i], Del(key))])
      else p
  }

  ghost function Run(p: Pool, o: Options, acts: seq<Action>): (q: Pool)
    requires |p.members| > 0
    ensures |q.members| == |p.members|
    decreases |acts|
  {
    if acts == [] then p else Run(Next(p, o, acts[0]), o, acts[1..])
  }
}
