/** The exact cache as mutable state: each operation is proved to move the pool as CachePool says. */
module ExactCache {
  import opened Wrappers
  import opened CacheMember
  import Pools = CachePool
  import opened Types = CachePool

  class RedisExactCache {
    var members: seq<Member>
    var until: map<nat, int>             // member circuits, by member
    const options: Options

    constructor (members: seq<Member>, options: Options)
      requires |members| > 0             // the original throws on an empty list
      ensures Valid() && View() == Pool(members, map[]) && this.options == options
    {
      this.members, this.until, this.options := members, map[], options;
    }

    function View(): Pool
      reads this
    {
      Pool(members, until)
    }

    ghost predicate Valid()
      reads this
    {
      |members| > 0 && forall i :: i in until ==> i < |members|
    }

    /** Sends one member its commands in turn; the first failure ends the list and opens the circuit. */
    method Send(i: nat, cs: seq<Command>, r: Reach, now: int) returns (answered: bool)
      requires Valid() && i < |members| && cs != []
      modifies this
      ensures Valid() && members == old(members)[i := Applied(old(members[i]), cs[..Took(cs, r)])]
      ensures answered == Answered(cs, r)
      ensures until == if answered then old(until) - {i} else old(until)[i := now + options.cooldown]
    {
      var k := 0;
      while k < |cs|
        invariant 0 <= k <= |cs| && Valid() && i < |members|
        invariant r.Cut? ==> k <= r.served
        invariant members == old(members)[i := Applied(old(members[i]), cs[..k])]
        invariant until == if k == 0 then old(until) else old(until) - {i}
      {
        if r.Cut? && k == r.served {
          if r.late {
            AppliedNext(old(members[i]), cs, k);
            members := members[i := Exec(members[i], cs[k])];
          }
          until := until[i := now + options.cooldown];
          return false;
        }
        AppliedNext(old(members[i]), cs, k);
        members := members[i := Exec(members[i], cs[k])];
        until := until - {i};
        k := k + 1;
      }
      assert cs[..k] == cs;
      return true;
    }

    /** One member's part of an operation: nothing at all while its circuit is open. */
    method Visit(i: nat, cs: seq<Command>, net: Network, now: int) returns (answered: bool)
      requires Valid() && i < |members| && cs != []
      modifies this
      ensures Valid() && members == old(members)[i := MemberAfter(old(View()), cs, net, now, i)]
      ensures answered == (!Open(old(View()), i, now) && Answered(cs, ReachOf(net, i)))
      ensures until == if Open(old(View()), i, now) then old(until)
                       else if answered then old(until) - {i}
                       else old(until)[i := now + options.cooldown]
    {
      if Open(View(), i, now) { return false; }
      answered := Send(i, cs, ReachOf(net, i), now);
    }

    /** Sends every member with a closed circuit its own list. */
    method Broadcast(lists: seq<seq<Command>>, net: Network, now: int) returns (answered: seq<bool>)
      requires Valid() && |lists| == |members| && forall i :: 0 <= i < |lists| ==> lists[i] != []
      modifies this
      ensures Valid() && View() == Pools.Broadcast(old(View()), options, lists, net, now)
      ensures |answered| == |members| && forall i :: 0 <= i < |members| ==> answered[i] == Fulfilled(old(View()), lists, net, now, i)
    {
      hide Pools.Broadcast, Partial;
      ghost var p := View();
      PartialEnds(p, options, lists, net, now);
      answered := [];
      var i := 0;
      while i < |members|
        invariant 0 <= i <= |members| == |p.members| && |answered| == i && Valid()
        invariant forall j :: 0 <= j < i ==> answered[j] == Fulfilled(p, lists, net, now, j)
        invariant View() == Partial(p, options, lists, net, now, i)
      {
        PartialStep(p, options, lists, net, now, i);
        var ok := Visit(i, lists[i], net, now);
        answered := answered + [ok];
        i := i + 1;
      }
      PartialEnds(p, options, lists, net, now);
    }

    /** The largest number of entries a member that answered everything has dropped. */
    method Most(p: Pool, dep: Hash, replies: seq<seq<Key>>, net: Network, now: int, answered: seq<bool>) returns (most: nat)
      requires |replies| == |p.members| == |answered|
      requires forall i :: 0 <= i < |answered| ==> answered[i] == Fulfilled(p, Invalidations(p, dep, replies), net, now, i)
      ensures most == MostRemoved(p, dep, replies, net, now, |p.members|)
    {
      most := 0;
      var i := 0;
      while i < |answered|
        invariant 0 <= i <= |answered| && most == MostRemoved(p, dep, replies, net, now, i)
      {
        if answered[i] {
          var removed := DelReplies(p.members[i].entries.Keys, replies[i]);
          most := if removed > most then removed else most;
        }
        i := i + 1;
      }
    }

    method Get(key: Key, now: int, net: Network, cleanup: Network) returns (r: Outcome<Answer>)
      requires Valid()
      modifies this
      ensures Valid() && (View(), r) == Lookup(old(View()), options, key, now, net, cleanup)
    {
      var p := View();
      if NoneActive(p, now) { return if options.closed then Unavailable else Done(Miss); }
      if !AllActive(p, now) { return Done(Miss); }
      var some, all := ReadAll(key, now, net);
      if !some { return if options.closed then Unavailable else Done(Miss); }
      if !all { return Done(Miss); }
      match Judged(p, key, now) {
        case Keep(answer) => return Done(answer);
        case Drop(answer) =>
          var _ := Broadcast(Deletes(View(), key), cleanup, now);
          return Done(answer);
      }
    }

    /** Reads the entry on every member; which members answered is all that can change. */
    method ReadAll(key: Key, now: int, net: Network) returns (some: bool, all: bool)
      requires Valid()
      modifies this
      ensures Valid() && View() == old(View()).(until := Circuits(old(View()), options, Reads(old(View()), key, now), net, now))
      ensures some == SomeFulfilled(old(View()), Reads(old(View()), key, now), net, now)
      ensures all == AllFulfilled(old(View()), Reads(old(View()), key, now), net, now)
    {
      var p := View();
      var answered := Broadcast(Reads(p, key, now), net, now);
      ReadsChangeNothing(p, options, key, now, net);
      some := exists i :: 0 <= i < |answered| && answered[i];
      all := forall i :: 0 <= i < |answered| ==> answered[i];
    }

    method Set(key: Key, value: Value, deps: seq<Hash>, ttl: int, now: int, net: Network) returns (r: Outcome<()>)
      requires Valid()
      modifies this
      ensures Valid() && View() == Next(old(View()), options, Store(key, value, deps, ttl, now, net))
      ensures r == WriteOutcome(old(View()), options, ToAll(old(View()), SetCommands(key, Entry(value, deps, ttl, now))), net, now, ())
    {
      var p := View();
      var lists := ToAll(p, SetCommands(key, Entry(value, deps, ttl, now)));
      var answered := Broadcast(lists, net, now);
      r := if options.closed && !(exists i :: 0 <= i < |answered| && answered[i]) then Unavailable else Done(());
    }

    method Remove(key: Key, now: int, net: Network) returns (r: Outcome<bool>)
      requires Valid()
      modifies this
      ensures Valid() && View() == Next(old(View()), options, Delete(key, now, net))
      ensures r == WriteOutcome(old(View()), options, Deletes(old(View()), key), net, now, SomeRemoved(old(View()), key, net, now))
    {
      var p := View();
      var answered := Broadcast(Deletes(p, key), net, now);
      r := if options.closed && !(exists i :: 0 <= i < |answered| && answered[i]) then Unavailable
           else Done(exists i :: 0 <= i < |answered| && answered[i] && key in p.members[i].entries);
    }

    /** SMEMBERS on one member; the order is the server's. */
    method ListIndex(i: nat, dep: Hash) returns (keys: seq<Key>)
      requires i < |members|
      ensures Lists(keys, Indexed(members[i], dep))
    {
      var left := Indexed(members[i], dep);
      keys := [];
      while left != {}
        invariant left <= Indexed(members[i], dep)
        invariant Lists(keys, Indexed(members[i], dep) - left)
        decreases left
      {
        var k :| k in left;
        left := left - {k};
        keys := keys + [k];
      }
    }

    method ListIndexes(dep: Hash) returns (replies: seq<seq<Key>>)
      ensures Replies(View(), dep, replies)
    {
      replies := [];
      while |replies| < |members|
        invariant |replies| <= |members|
        invariant forall i :: 0 <= i < |replies| ==> Lists(replies[i], Indexed(members[i], dep))
      {
        var keys := ListIndex(|replies|, dep);
        replies := replies + [keys];
      }
    }

    method InvalidateHash(dep: Hash, now: int, net: Network) returns (r: Outcome<nat>, replies: seq<seq<Key>>)
      requires Valid()
      modifies this
      ensures Valid() && Replies(old(View()), dep, replies)
      ensures View() == Next(old(View()), options, Invalidate(dep, replies, now, net))
      ensures r == WriteOutcome(old(View()), options, Invalidations(old(View()), dep, replies), net, now,
                                MostRemoved(old(View()), dep, replies, net, now, |old(members)|))
    {
      var p := View();
      replies := ListIndexes(dep);
      var lists := Invalidations(p, dep, replies);
      var answered := Broadcast(lists, net, now);
      var most := Most(p, dep, replies, net, now, answered);
      r := if options.closed && !(exists i :: 0 <= i < |answered| && answered[i]) then Unavailable else Done(most);
    }

    method UpdateHash(from: Hash, to: Hash, now: int, net: Network) returns (r: Outcome<()>)
      requires Valid()
      modifies this
      ensures Valid() && View() == Next(old(View()), options, Redirect(from, to, now, net))
      ensures r == WriteOutcome(old(View()), options, ToAll(old(View()), [HSet(from, to)]), net, now, ())
    {
      var p := View();
      var answered := Broadcast(ToAll(p, [HSet(from, to)]), net, now);
      r := if options.closed && !(exists i :: 0 <= i < |answered| && answered[i]) then Unavailable else Done(());
    }

    method RecordFileHash(path: Path, hash: Hash, now: int, net: Network) returns (r: Outcome<()>)
      requires Valid()
      modifies this
      ensures Valid() && View() == Next(old(View()), options, Record(path, hash, now, net))
      ensures r == WriteOutcome(old(View()), options, ToAll(old(View()), [HSetFile(path, hash)]), net, now, ())
    {
      var p := View();
      var answered := Broadcast(ToAll(p, [HSetFile(path, hash)]), net, now);
      r := if options.closed && !(exists i :: 0 <= i < |answered| && answered[i]) then Unavailable else Done(());
    }

    method GetFileHash(path: Path, now: int, net: Network) returns (r: Outcome<Option<Hash>>)
      requires Valid()
      modifies this
      ensures Valid() && (View(), r) == FileHash(old(View()), options, path, now, net)
    {
      var p := View();
      if NoneActive(p, now) { return if options.closed then Unavailable else Done(None); }
      if !AllActive(p, now) { return Done(None); }
      var answered := Broadcast(ToAll(p, [HGetFile(path)]), net, now);
      FileReadsChangeNothing(p, options, path, now, net);
      if !(exists i :: 0 <= i < |answered| && answered[i]) {
        return if options.closed then Unavailable else Done(None);
      }
      if exists i :: 0 <= i < |answered| && !answered[i] { return Done(None); }
      return Done(if SameFile(p, path) then FileAt(p.members[0], path) else None);
    }
  }

  lemma AppliedNext(m: Member, cs: seq<Command>, k: nat)
    requires k < |cs|
    ensures Applied(m, cs[..k + 1]) == Exec(Applied(m, cs[..k]), cs[k])
  {
    assert cs[..k + 1] == cs[..k] + [cs[k]];
    AppliedConcat(m, cs[..k], [cs[k]]);
    AppliedOne(Applied(m, cs[..k]), cs[k]);
  }

  /** The pool once the first `n` members have been sent their lists. */
  ghost function Partial(p: Pool, o: Options, lists: seq<seq<Command>>, net: Network, now: int, n: nat): Pool
    requires |lists| == |p.members|
  {
    Pool(seq(|p.members|, i requires 0 <= i < |p.members| => if i < n then MemberAfter(p, lists[i], net, now, i) else p.members[i]),
         CircuitsUpTo(p, o, lists, net, now, n))
  }

  ghost function CircuitsUpTo(p: Pool, o: Options, lists: seq<seq<Command>>, net: Network, now: int, n: nat): map<nat, int>
    requires |lists| == |p.members|
  {
    map i: nat | i < |p.members| && (if i < n then !Fulfilled(p, lists, net, now, i) else i in p.until)
      :: if i < n && !Open(p, i, now) then now + o.cooldown else p.until[i]
  }

  lemma PartialEnds(p: Pool, o: Options, lists: seq<seq<Command>>, net: Network, now: int)
    requires |lists| == |p.members| && forall i :: i in p.until ==> i < |p.members|
    ensures Partial(p, o, lists, net, now, 0) == p
    ensures Partial(p, o, lists, net, now, |p.members|) == Pools.Broadcast(p, o, lists, net, now)
  {
    assert CircuitsUpTo(p, o, lists, net, now, 0) == p.until;
  }

  lemma PartialStep(p: Pool, o: Options, lists: seq<seq<Command>>, net: Network, now: int, n: nat)
    requires |lists| == |p.members| && n < |p.members|
    ensures var before, after := Partial(p, o, lists, net, now, n), Partial(p, o, lists, net, now, n + 1);
            && before.members[n] == p.members[n] && Open(before, n, now) == Open(p, n, now)
            && after.members == before.members[n := MemberAfter(p, lists[n], net, now, n)]
            && after.until == (if Open(p, n, now) then before.until
                               else if Answered(lists[n], ReachOf(net, n)) then before.until - {n}
                               else before.until[n := now + o.cooldown])
  {
  }

  predicate OnlyReads(cs: seq<Command>) {
    forall i :: 0 <= i < |cs| ==> cs[i].Get? || cs[i].HGet? || cs[i].HGetFile?
  }

  lemma {:induction false} ReadingKeepsMember(m: Member, cs: seq<Command>)
    requires OnlyReads(cs)
    ensures Applied(m, cs) == m
    decreases |cs|
  {
    if cs != [] { ReadingKeepsMember(m, cs[1..]); }
  }

  /** Sending only reads moves the circuits and nothing else. */
  lemma ReadsChangeNothing(p: Pool, o: Options, key: Key, now: int, net: Network)
    ensures Pools.Broadcast(p, o, Reads(p, key, now), net, now) == p.(until := Circuits(p, o, Reads(p, key, now), net, now))
  {
    forall i | 0 <= i < |p.members| ensures MemberAfter(p, Reads(p, key, now)[i], net, now, i) == p.members[i] {
      var cs := ReadCommands(p.members[i], key, now);
      assert OnlyReads(cs);
      ReadingKeepsMember(p.members[i], cs[..Took(cs, ReachOf(net, i))]);
    }
    assert Pools.Broadcast(p, o, Reads(p, key, now), net, now).members == p.members;
  }

  lemma FileReadsChangeNothing(p: Pool, o: Options, path: Path, now: int, net: Network)
    ensures Pools.Broadcast(p, o, ToAll(p, [HGetFile(path)]), net, now)
            == p.(until := Circuits(p, o, ToAll(p, [HGetFile(path)]), net, now))
  {
    forall i | 0 <= i < |p.members| ensures MemberAfter(p, [HGetFile(path)], net, now, i) == p.members[i] {
      ReadingKeepsMember(p.members[i], [HGetFile(path)][..Took([HGetFile(path)], ReachOf(net, i))]);
    }
    assert Pools.Broadcast(p, o, ToAll(p, [HGetFile(path)]), net, now).members == p.members;
  }
}
