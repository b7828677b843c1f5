/**
 The weak-value LRU cache: an ordered dictionary of weak references, oldest
 first. Which referents are alive is given anew at every call.
 */
module WeakCache {
  import opened Keyed
  import opened Options

  type Key = nat
  type Ref = nat

  type Entries = seq<(Key, Ref)>

  ghost predicate HasKey(c: Entries, k: Key) {
    exists i :: 0 <= i < |c| && c[i].0 == k
  }

  function Without(c: Entries, k: Key): Entries {
    if c == [] then [] else (if c[0].0 == k then [] else [c[0]]) + Without(c[1..], k)
  }

  /** The entries whose referent is in `truthy`, and the others, in order. */
  function Kept(c: Entries, truthy: set<Ref>): Entries {
    if c == [] then [] else (if c[0].1 in truthy then [c[0]] else []) + Kept(c[1..], truthy)
  }

  function Dead(c: Entries, truthy: set<Ref>): Entries {
    if c == [] then [] else (if c[0].1 in truthy then [] else [c[0]]) + Dead(c[1..], truthy)
  }

  function Max(a: int, b: int): int {
    if a < b then b else a
  }

  function Min(a: int, b: int): int {
    if a < b then a else b
  }

  /** How many entries have to go before one more fits. */
  function Needed(c: Entries, capacity: int): nat {
    Max(0, |c| + 1 - capacity)
  }

  /** How far the eviction loop looks: up to the `need`-th entry it may drop, or the whole cache once. */
  function Reach(c: Entries, loose: bool, truthy: set<Ref>, need: nat): (n: nat)
    ensures n <= |c|
    decreases |c|
  {
    if c == [] || need == 0 then 0
    else 1 + Reach(c[1..], loose, truthy, if loose && c[0].1 in truthy then need else need - 1)
  }

  /** The cache after the eviction loop: what it did not reach, then what it skipped. */
  function Evicted(c: Entries, loose: bool, truthy: set<Ref>, need: nat): Entries {
    var n := Reach(c, loose, truthy, need);
    c[n..] + Skipped(c, n, loose, truthy)
  }

  /** The entries among the first `n` that loose mode moves to the end instead of dropping. */
  function Skipped(c: Entries, n: nat, loose: bool, truthy: set<Ref>): Entries
    requires n <= |c|
  {
    if loose then Kept(c[..n], truthy) else []
  }

  /** How far one pass goes: to the last entry it drops, or through everything if that is not enough. */
  ghost predicate Pass(c: Entries, truthy: set<Ref>, need: nat, n: nat) {
    && n <= |c|
    && |Dead(c[..n], truthy)| == Min(need, |Dead(c, truthy)|)
    && if |Dead(c, truthy)| < need then n == |c| else n > 0 ==> c[n - 1].1 !in truthy
  }

  class WeakValueLRUCache {
    var capacity: int
    var looseMode: bool
    var cache: Entries

    constructor (capacity: nat, looseMode: bool)
      ensures this.capacity == capacity && this.looseMode == looseMode && cache == [] && Valid()
    {
      this.capacity := capacity;
      this.looseMode := looseMode;
      cache := [];
    }

    ghost predicate Valid()
      reads this
    {
      Distinct(cache)
    }

    method Resize(newSize: int)
      modifies this`capacity
      ensures capacity == newSize
    {
      capacity := newSize;
    }

    method Find(key: Key) returns (ref: Option<Ref>)
      requires Valid()
      ensures ref.Some? <==> HasKey(cache, key)
      ensures ref.Some? ==> (key, ref.value) in cache
    {
      for i := 0 to |cache|
        invariant forall j | 0 <= j < i :: cache[j].0 != key
      {
        if cache[i].0 == key {
          return Some(cache[i].1);
        }
      }
      return None;
    }

    method Remove(key: Key)
      requires Valid()
      modifies this`cache
      ensures cache == Without(old(cache), key) && Valid()
    {
      hide Without;
      ghost var all := cache;
      var rest: Entries := [];
      assert cache[0..] == cache;
      for i := 0 to |cache|
        invariant cache == all && rest + Without(cache[i..], key) == Without(cache, key)
      {
        WithoutStep(cache, i, key);
        if cache[i].0 != key {
          rest := rest + [cache[i]];
        }
      }
      WithoutStep(all, |all|, key);
      cache := rest;
      WithoutDistinct(all, key);
    }

    /** A live value is returned and becomes the newest entry; a dead one is dropped. */
    method Get(key: Key, alive: set<Ref>) returns (r: Option<Ref>)
      requires Valid()
      modifies this`cache
      ensures Valid()
      ensures r.Some? <==> exists ref :: (key, ref) in old(cache) && ref in alive
      ensures r.Some? ==> (key, r.value) in old(cache) && cache == Without(old(cache), key) + [(key, r.value)]
      ensures r.None? ==> cache == Without(old(cache), key)
    {
      r := Find(key);
      if r.None? {
        WithoutMissing(cache, key);
        return;
      }
      OneRef(cache, key, r.value);
      ghost var all := cache;
      if r.value !in alive {
        Remove(key);
        return None;
      }
      var ref := r.value;
      Remove(key);
      AppendDistinct(all, key, ref);
      cache := cache + [(key, ref)];
    }

    /** The eviction loop is bounded by one pass over the cache. */
    method Put(key: Key, ref: Ref, truthy: set<Ref>)
      requires Valid()
      modifies this`cache
      ensures Valid()
      ensures cache == (if HasKey(old(cache), key) then Without(old(cache), key)
                        else Evicted(old(cache), looseMode, truthy, Needed(old(cache), capacity))) + [(key, ref)]
      ensures var need := Needed(old(cache), capacity);
              !HasKey(old(cache), key) ==>
                if looseMode
                then exists n: nat :: Pass(old(cache), truthy, need, n)
                                 && cache == old(cache)[n..] + Kept(old(cache)[..n], truthy) + [(key, ref)]
                else cache == old(cache)[Min(need, |old(cache)|)..] + [(key, ref)]
    {
      ghost var all := cache;
      var found := Find(key);
      if found.Some? {
        Remove(key);
        AppendDistinct(all, key, ref);
      } else {
        var shouldExpire := Max(0, |cache| + 1 - capacity);
        if shouldExpire > 0 {
          EvictOldest(shouldExpire, truthy);
        }
        EvictedDistinct(all, looseMode, truthy, Needed(all, capacity), key);
        LooseOrder(all, truthy, Needed(all, capacity));
        NormalEviction(all, truthy, capacity);
      }
      cache := cache + [(key, ref)];
    }

    method EvictOldest(shouldExpire: nat, truthy: set<Ref>)
      requires shouldExpire > 0
      modifies this`cache
      ensures cache == Evicted(old(cache), looseMode, truthy, shouldExpire)
    {
      hide Reach, Kept;
      ghost var all := cache;
      var collected := 0;
      var steps := |cache|;
      assert all[0..] == all && all[..0] == [];
      KeptNothing(truthy);
      ReachNothing(looseMode, truthy, shouldExpire);
      for i := 0 to steps
        invariant steps == |all| && collected < shouldExpire
        invariant cache == all[i..] + Skipped(all, i, looseMode, truthy)
        invariant Reach(all, looseMode, truthy, shouldExpire)
               == i + Reach(all[i..], looseMode, truthy, shouldExpire - collected)
      {
        var oldest := cache[0];
        assert oldest == all[i];
        ReachStep(all, i, looseMode, truthy, shouldExpire - collected);
        SkippedStep(all, i, looseMode, truthy);
        assert cache[1..] == all[i + 1..] + Skipped(all, i, looseMode, truthy);
        if looseMode && oldest.1 in truthy {
          cache := cache[1..] + [oldest];
        } else {
          cache := cache[1..];
          collected := collected + 1;
        }
        if collected >= shouldExpire {
          return;
        }
      }
    }

    /** `None` asks for the oldest fifth; a negative length counts from the newest entry, as a slice does. */
    method Expire(length: Option<int>, alive: set<Ref>)
      requires Valid()
      modifies this`cache
      ensures Valid()
      ensures length.None? ==>
                cache == Kept(old(cache)[..|old(cache)| / 5], alive) + old(cache)[|old(cache)| / 5..]
      ensures length.Some? && 0 <= length.value <= |old(cache)| ==>
                cache == Kept(old(cache)[..length.value], alive) + old(cache)[length.value..]
      ensures length.Some? && length.value >= |old(cache)| ==> cache == Kept(old(cache), alive)
      ensures length.Some? && -|old(cache)| <= length.value < 0 ==>
                var n := |old(cache)| + length.value;
                cache == Kept(old(cache)[..n], alive) + old(cache)[n..]
      ensures length.Some? && length.value <= -|old(cache)| ==> cache == old(cache)
    {
      ghost var all := cache;
      assert all[..|all|] == all && all[|all|..] == [] && all[0..] == all && all[..0] == [];
      var l := Min(if length.None? then |cache| / 5 else length.value, |cache|);
      var n := if l >= 0 then l else Max(0, |cache| + l);
      var rest: Entries := [];
      for i := 0 to n
        invariant cache == all && rest == Kept(cache[..i], alive)
      {
        assert cache[..i + 1] == cache[..i] + [cache[i]];
        KeptAppend(cache[..i], [cache[i]], alive);
        if cache[i].1 in alive {
          rest := rest + [cache[i]];
        }
      }
      cache := rest + cache[n..];
      KeptDistinct(all, n, alive);
    }
  }

  // ----- ordered-dictionary facts -----

  lemma WithoutStep(c: Entries, i: nat, k: Key)
    requires i <= |c|
    ensures Without(c[i..], k)
         == if i == |c| then [] else (if c[i].0 == k then [] else [c[i]]) + Without(c[i + 1..], k)
  {
    if i < |c| {
      assert c[i..][1..] == c[i + 1..];
    }
  }

  lemma {:induction false} WithoutExact(c: Entries, k: Key)
    ensures forall e :: e in Without(c, k) <==> e in c && e.0 != k
    decreases |c|
  {
    if c != [] {
      WithoutExact(c[1..], k);
      assert c == [c[0]] + c[1..];
    }
  }

  lemma {:induction false} WithoutDistinct(c: Entries, k: Key)
    requires Distinct(c)
    ensures Distinct(Without(c, k))
    decreases |c|
  {
    if c != [] {
      DistinctTail(c);
      WithoutDistinct(c[1..], k);
      WithoutExact(c[1..], k);
      PrependDistinct(c[0], Without(c[1..], k));
    }
  }

  lemma DistinctTail(c: Entries)
    requires Distinct(c) && c != []
    ensures Distinct(c[1..]) && !HasKey(c[1..], c[0].0)
  {
    forall i | 0 <= i < |c[1..]|
      ensures c[1..][i] == c[i + 1]
    {
    }
  }

  lemma PrependDistinct(e: (Key, Ref), c: Entries)
    requires Distinct(c)
    ensures Distinct([e] + c) <==> !HasKey(c, e.0)
  {
    var d := [e] + c;
    assert forall i | 0 < i < |d| :: d[i] == c[i - 1];
    if HasKey(c, e.0) {
      var i :| 0 <= i < |c| && c[i].0 == e.0;
      assert d[0].0 == d[i + 1].0;
    }
  }

  lemma ConcatDistinct(a: Entries, b: Entries)
    requires Distinct(a) && Distinct(b)
    requires forall x, y | x in a && y in b :: x.0 != y.0
    ensures Distinct(a + b)
  {
    var c := a + b;
    forall i, j | 0 <= i < j < |c|
      ensures c[i].0 != c[j].0
    {
      if i < |a| && j >= |a| {
        assert c[i] in a && c[j] == b[j - |a|] && b[j - |a|] in b;
      }
    }
  }

  lemma {:induction false} WithoutMissing(c: Entries, k: Key)
    requires !HasKey(c, k)
    ensures Without(c, k) == c
    decreases |c|
  {
    if c != [] {
      assert c[0].0 != k;
      assert forall i | 0 <= i < |c[1..]| :: c[1..][i] == c[i + 1];
      WithoutMissing(c[1..], k);
    }
  }

  lemma OneRef(c: Entries, k: Key, r: Ref)
    requires Distinct(c) && (k, r) in c
    ensures forall r' :: (k, r') in c ==> r' == r
  {
  }

  lemma AppendDistinct(c: Entries, k: Key, r: Ref)
    requires Distinct(c)
    ensures Distinct(Without(c, k) + [(k, r)])
  {
    WithoutDistinct(c, k);
    WithoutExact(c, k);
    ConcatDistinct(Without(c, k), [(k, r)]);
  }

  lemma {:induction false} KeptExact(c: Entries, truthy: set<Ref>)
    ensures forall e :: e in Kept(c, truthy) <==> e in c && e.1 in truthy
    ensures forall e :: e in Dead(c, truthy) <==> e in c && e.1 !in truthy
    ensures |Kept(c, truthy)| + |Dead(c, truthy)| == |c|
    decreases |c|
  {
    if c != [] {
      KeptExact(c[1..], truthy);
      assert c == [c[0]] + c[1..];
    }
  }

  lemma {:induction false} KeptSubDistinct(c: Entries, truthy: set<Ref>)
    requires Distinct(c)
    ensures Distinct(Kept(c, truthy))
    decreases |c|
  {
    if c != [] {
      DistinctTail(c);
      KeptSubDistinct(c[1..], truthy);
      KeptExact(c[1..], truthy);
      PrependDistinct(c[0], Kept(c[1..], truthy));
    }
  }

  lemma {:induction false} KeptAppend(a: Entries, b: Entries, truthy: set<Ref>)
    ensures Kept(a + b, truthy) == Kept(a, truthy) + Kept(b, truthy)
    ensures Dead(a + b, truthy) == Dead(a, truthy) + Dead(b, truthy)
    decreases |a|
  {
    if a == [] {
      assert a + b == b;
    } else {
      var rest := a[1..];
      assert (a + b)[1..] == rest + b;
      KeptAppend(rest, b, truthy);
      var k := if a[0].1 in truthy then [a[0]] else [];
      var d := if a[0].1 in truthy then [] else [a[0]];
      assert k + (Kept(rest, truthy) + Kept(b, truthy)) == (k + Kept(rest, truthy)) + Kept(b, truthy);
      assert d + (Dead(rest, truthy) + Dead(b, truthy)) == (d + Dead(rest, truthy)) + Dead(b, truthy);
    }
  }

  lemma KeptNothing(truthy: set<Ref>)
    ensures Kept([], truthy) == []
  {
  }

  lemma ReachNothing(loose: bool, truthy: set<Ref>, need: nat)
    ensures Reach([], loose, truthy, need) == 0
    ensures forall c :: Reach(c, loose, truthy, 0) == 0
  {
  }

  lemma ReachStep(c: Entries, i: nat, loose: bool, truthy: set<Ref>, need: nat)
    requires i < |c| && need > 0
    ensures Reach(c[i..], loose, truthy, need)
         == 1 + Reach(c[i + 1..], loose, truthy, if loose && c[i].1 in truthy then need else need - 1)
  {
    assert c[i..][1..] == c[i + 1..];
  }

  lemma SkippedStep(c: Entries, i: nat, loose: bool, truthy: set<Ref>)
    requires i < |c|
    ensures Skipped(c, i + 1, loose, truthy)
         == Skipped(c, i, loose, truthy) + if loose && c[i].1 in truthy then [c[i]] else []
  {
    assert c[..i + 1] == c[..i] + [c[i]];
    KeptAppend(c[..i], [c[i]], truthy);
    assert |[c[i]]| == 1;
  }

  lemma KeptDistinct(c: Entries, n: nat, alive: set<Ref>)
    requires Distinct(c) && n <= |c|
    ensures Distinct(Kept(c[..n], alive) + c[n..])
  {
    assert c == c[..n] + c[n..];
    SplitDistinct(c[..n], c[n..]);
    KeptSubDistinct(c[..n], alive);
    KeptExact(c[..n], alive);
    ConcatDistinct(Kept(c[..n], alive), c[n..]);
  }

  lemma EvictedDistinct(c: Entries, loose: bool, truthy: set<Ref>, need: nat, k: Key)
    requires Distinct(c) && !HasKey(c, k)
    ensures forall r :: Distinct(Evicted(c, loose, truthy, need) + [(k, r)])
  {
    var n := Reach(c, loose, truthy, need);
    var e := Evicted(c, loose, truthy, need);
    assert c == c[..n] + c[n..];
    SplitDistinct(c[..n], c[n..]);
    KeptSubDistinct(c[..n], truthy);
    KeptExact(c[..n], truthy);
    ConcatDistinct(c[n..], if loose then Kept(c[..n], truthy) else []);
    forall r
      ensures Distinct(e + [(k, r)])
    {
      forall x | x in e
        ensures x.0 != k
      {
        assert x in c;
      }
      ConcatDistinct(e, [(k, r)]);
    }
  }

  // ----- what one put evicts -----

  /** Normal mode: exactly the least recent entries needed, so that at most max(1, capacity) remain. */
  lemma {:induction false} NormalEviction(c: Entries, truthy: set<Ref>, capacity: int)
    ensures Evicted(c, false, truthy, Needed(c, capacity)) == c[Min(Needed(c, capacity), |c|)..]
    ensures |Evicted(c, false, truthy, Needed(c, capacity))| + 1 <= Max(1, capacity)
  {
    NormalReach(c, truthy, Needed(c, capacity));
  }

  lemma {:induction false} NormalReach(c: Entries, truthy: set<Ref>, need: nat)
    ensures Reach(c, false, truthy, need) == Min(need, |c|)
    decreases |c|
  {
    if c != [] && need > 0 {
      NormalReach(c[1..], truthy, need - 1);
    }
  }

  lemma {:induction false} LooseReach(c: Entries, truthy: set<Ref>, need: nat)
    ensures var n := Reach(c, true, truthy, need);
            && Dead(c[..n], truthy) == Dead(c, truthy)[..Min(need, |Dead(c, truthy)|)]
            && (n < |c| ==> |Dead(c[..n], truthy)| == need)
    decreases |c|
  {
    if c == [] || need == 0 {
      assert c[..0] == [];
    } else {
      var n := Reach(c, true, truthy, need);
      assert c[..n] == [c[0]] + c[1..][..n - 1];
      assert c[..n][1..] == c[1..][..n - 1];
      LooseReach(c[1..], truthy, if c[0].1 in truthy then need else need - 1);
    }
  }

  /**
   Loose mode: the entries dropped are exactly the first droppable ones, as
   many as needed or as there are, found in one pass; everything else stays.
   */
  lemma LooseEviction(c: Entries, truthy: set<Ref>, need: nat)
    requires Distinct(c)
    ensures var dropped := Dead(c, truthy)[..Min(need, |Dead(c, truthy)|)];
            var r := Evicted(c, true, truthy, need);
            && (forall e :: e in r <==> e in c && e !in dropped)
            && |r| + |dropped| == |c|
  {
    hide Reach, Kept, Dead;
    var n := Reach(c, true, truthy, need);
    LooseReach(c, truthy, need);
    KeptExact(c[..n], truthy);
    assert c == c[..n] + c[n..];
    SplitDistinct(c[..n], c[n..]);
  }

  /** There is one such place. */
  lemma PassOnce(c: Entries, truthy: set<Ref>, need: nat, n: nat, n': nat)
    requires Pass(c, truthy, need, n) && Pass(c, truthy, need, n')
    ensures n == n'
  {
    if n < n' {
      DeadBetween(c, truthy, n, n');
    } else if n' < n {
      DeadBetween(c, truthy, n', n);
    }
  }

  lemma DeadBetween(c: Entries, truthy: set<Ref>, n: nat, n': nat)
    requires n < n' <= |c| && c[n' - 1].1 !in truthy
    ensures |Dead(c[..n], truthy)| < |Dead(c[..n'], truthy)|
  {
    assert c[..n'] == c[..n] + c[n..n'];
    KeptAppend(c[..n], c[n..n'], truthy);
    KeptExact(c[n..n'], truthy);
    assert c[n..n'][n' - 1 - n] == c[n' - 1];
    assert c[n' - 1] in Dead(c[n..n'], truthy);
  }

  /**
   The order a pass leaves: the entries behind the last one dropped as they
   were, then the live ones before it as they were.
   */
  lemma LooseOrder(c: Entries, truthy: set<Ref>, need: nat)
    ensures exists n: nat ::
              Pass(c, truthy, need, n) && Evicted(c, true, truthy, need) == c[n..] + Kept(c[..n], truthy)
  {
    var n := Reach(c, true, truthy, need);
    LooseReach(c, truthy, need);
    LooseStops(c, truthy, need);
    assert Pass(c, truthy, need, n);
  }

  lemma {:induction false} LooseStops(c: Entries, truthy: set<Ref>, need: nat)
    ensures var n := Reach(c, true, truthy, need);
            if |Dead(c, truthy)| < need then n == |c| else n > 0 ==> c[n - 1].1 !in truthy
    decreases |c|
  {
    if c != [] && need > 0 {
      LooseStops(c[1..], truthy, if c[0].1 in truthy then need else need - 1);
      var n := Reach(c[1..], true, truthy, if c[0].1 in truthy then need else need - 1);
      if c[0].1 in truthy && |Dead(c, truthy)| >= need {
        assert n > 0;
      }
    }
  }

  /**
   What `put` takes for dead is a value that is false as a condition. So loose
   mode keeps every live entry if and only if no live value is false.
   */
  lemma LooseKeepsLive(c: Entries, alive: set<Ref>, truthy: set<Ref>)
    requires Distinct(c) && truthy <= alive
    ensures (forall need: nat, e | e in c && e.1 in alive :: e in Evicted(c, true, truthy, need))
       <==> (forall e | e in c && e.1 in alive :: e.1 in truthy)
  {
    KeptExact(c, truthy);
    if forall e | e in c && e.1 in alive :: e.1 in truthy {
      forall need: nat, e | e in c && e.1 in alive
        ensures e in Evicted(c, true, truthy, need)
      {
        LooseEviction(c, truthy, need);
      }
    } else {
      var e :| e in c && e.1 in alive && e.1 !in truthy;
      LooseEviction(c, truthy, |c|);
      assert Dead(c, truthy)[..Min(|c|, |Dead(c, truthy)|)] == Dead(c, truthy);
      assert e !in Evicted(c, true, truthy, |c|);
    }
  }

  // ----- least recently used, against the whole history of uses -----

  datatype Op = DoGet(key: Key) | DoPut(key: Key, ref: Ref)

  /** An operation, and which referents are alive, and true as a condition, when it is performed. */
  datatype Use = Use(op: Op, alive: set<Ref>, truthy: set<Ref>)

  function Lookup(c: Entries, k: Key): Option<Ref> {
    if c == [] then None else if c[0].0 == k then Some(c[0].1) else Lookup(c[1..], k)
  }

  /** What `Get` and `Put` do to a cache. */
  function Step(c: Entries, capacity: int, loose: bool, u: Use): Entries {
    var hit := Lookup(c, u.op.key);
    match u.op
    case DoGet(k) =>
      if hit.None? then c
      else if hit.value in u.alive then Without(c, k) + [(k, hit.value)]
      else Without(c, k)
    case DoPut(k, r) =>
      (if hit.Some? then Without(c, k) else Evicted(c, loose, u.truthy, Needed(c, capacity))) + [(k, r)]
  }

  /** The last `b` entries. */
  function Newest(h: Entries, b: nat): Entries {
    h[|h| - Min(b, |h|)..]
  }

  /**
   Every key ever put and not yet found dead, ordered by last use, and how many
   of them are still within reach. A get counts as a use only if it reaches a
   live value; one that reaches a dead value takes the key away.
   */
  datatype Window = Window(used: Entries, size: nat)

  function AfterUse(w: Window, b: nat, u: Use): Window {
    var hit := Lookup(Newest(w.used, w.size), u.op.key);
    match u.op
    case DoGet(k) =>
      if hit.None? then w
      else if hit.value in u.alive then w.(used := Without(w.used, k) + [(k, hit.value)])
      else Window(Without(w.used, k), Max(0, w.size - 1))
    case DoPut(k, r) =>
      Window(Without(w.used, k) + [(k, r)], if hit.Some? then w.size else Min(w.size + 1, b))
  }

  function Cached(capacity: int, loose: bool, uses: seq<Use>): Entries {
    if uses == [] then [] else Step(Cached(capacity, loose, uses[..|uses| - 1]), capacity, loose, uses[|uses| - 1])
  }

  function History(b: nat, uses: seq<Use>): Window {
    if uses == [] then Window([], 0) else AfterUse(History(b, uses[..|uses| - 1]), b, uses[|uses| - 1])
  }

  ghost predicate Bounded(w: Window, b: nat) {
    Distinct(w.used) && w.size <= |w.used| && w.size <= b
  }

  lemma {:induction false} WithoutAppend(a: Entries, b: Entries, k: Key)
    ensures Without(a + b, k) == Without(a, k) + Without(b, k)
    decreases |a|
  {
    if a == [] {
      assert a + b == b;
    } else {
      assert (a + b)[1..] == a[1..] + b;
      WithoutAppend(a[1..], b, k);
    }
  }

  lemma {:induction false} LookupFinds(c: Entries, k: Key)
    requires Distinct(c)
    ensures Lookup(c, k).Some? <==> HasKey(c, k)
    ensures Lookup(c, k).Some? ==> (k, Lookup(c, k).value) in c
    ensures |Without(c, k)| == if HasKey(c, k) then |c| - 1 else |c|
    decreases |c|
  {
    if c != [] {
      DistinctTail(c);
      LookupFinds(c[1..], k);
      if HasKey(c[1..], k) {
        var i :| 0 <= i < |c[1..]| && c[1..][i].0 == k;
        assert c[i + 1].0 == k;
      }
      if HasKey(c, k) && c[0].0 != k {
        var i :| 0 <= i < |c| && c[i].0 == k;
        assert c[1..][i - 1].0 == k;
      }
      if c[0].0 == k {
        WithoutMissing(c[1..], k);
      }
    }
  }

  lemma NewestTail(o: Entries, c: Entries)
    ensures Newest(o + c, |c|) == c
  {
  }

  /** A key within reach, taken away. */
  lemma DropStep(o: Entries, c: Entries, k: Key)
    requires Distinct(o + c) && HasKey(c, k)
    ensures Without(o + c, k) == o + Without(c, k)
    ensures Newest(Without(o + c, k), |c| - 1) == Without(c, k) && Distinct(Without(o + c, k))
    ensures |Without(c, k)| == |c| - 1 >= 0
  {
    hide Without, Newest;
    SplitDistinct(o, c);
    LookupFinds(c, k);
    WithoutAppend(o, c, k);
    assert !HasKey(o, k);
    WithoutMissing(o, k);
    WithoutDistinct(o + c, k);
    NewestTail(o, Without(c, k));
  }

  /** A use that finds its key. */
  lemma HitStep(o: Entries, c: Entries, k: Key, r: Ref)
    requires Distinct(o + c) && HasKey(c, k)
    ensures Newest(Without(o + c, k) + [(k, r)], |c|) == Without(c, k) + [(k, r)]
    ensures Distinct(Without(o + c, k) + [(k, r)])
    ensures |Without(o + c, k) + [(k, r)]| == |o + c|
  {
    hide Without, Newest;
    DropStep(o, c, k);
    AppendDistinct(o + c, k, r);
    assert (o + Without(c, k)) + [(k, r)] == o + (Without(c, k) + [(k, r)]);
    NewestTail(o, Without(c, k) + [(k, r)]);
  }

  /** A put of a key that is out of reach. */
  lemma MissStep(o: Entries, c: Entries, capacity: int, alive: set<Ref>, k: Key, r: Ref)
    requires Distinct(o + c) && !HasKey(c, k) && |c| <= Max(1, capacity)
    ensures var b := Max(1, capacity);
            Newest(Without(o + c, k) + [(k, r)], Min(|c| + 1, b))
            == Evicted(c, false, alive, Needed(c, capacity)) + [(k, r)]
    ensures Distinct(Without(o + c, k) + [(k, r)])
    ensures |c| < |Without(o + c, k) + [(k, r)]|
    ensures |c| == Max(1, capacity) ==> |Without(o + c, k) + [(k, r)]| >= |c|
  {
    hide Without, Evicted, Newest;
    var b: nat := Max(1, capacity);
    WithoutAppend(o, c, k);
    WithoutMissing(c, k);
    AppendDistinct(o + c, k, r);
    NormalEviction(c, alive, capacity);
    if |c| < b {
      assert (Without(o, k) + c) + [(k, r)] == Without(o, k) + (c + [(k, r)]);
      NewestTail(Without(o, k), c + [(k, r)]);
    } else {
      assert (Without(o, k) + c) + [(k, r)] == (Without(o, k) + [c[0]]) + (c[1..] + [(k, r)]);
      NewestTail(Without(o, k) + [c[0]], c[1..] + [(k, r)]);
    }
  }

  /** One use moves the window as the cache moves. */
  lemma StepIsUse(w: Window, capacity: int, u: Use)
    requires Bounded(w, Max(1, capacity))
    ensures var b := Max(1, capacity);
            var w' := AfterUse(w, b, u);
            Step(Newest(w.used, w.size), capacity, false, u) == Newest(w'.used, w'.size) && Bounded(w', b)
  {
    hide Without, Evicted, Lookup, Distinct, HasKey;
    var k := u.op.key;
    var c := Newest(w.used, w.size);
    var o := w.used[..|w.used| - w.size];
    assert w.used == o + c && |c| == w.size;
    SplitDistinct(o, c);
    LookupFinds(c, k);
    if HasKey(c, k) {
      DropStep(o, c, k);
      HitStep(o, c, k, if u.op.DoGet? then Lookup(c, k).value else u.op.ref);
    } else if u.op.DoPut? {
      MissStep(o, c, capacity, u.truthy, k, u.op.ref);
    }
  }

  /**
   After any gets and puts, whatever dies in between, the cache holds the most
   recently used entries not found dead, in order of use: as many as there
   were puts of keys out of reach, up to max(1, capacity), one fewer for each
   value a get found dead.
   */
  lemma {:induction false} LeastRecentlyUsed(capacity: int, uses: seq<Use>)
    ensures var b := Max(1, capacity);
            var w := History(b, uses);
            Cached(capacity, false, uses) == Newest(w.used, w.size) && Bounded(w, b)
    decreases |uses|
  {
    if uses != [] {
      LeastRecentlyUsed(capacity, uses[..|uses| - 1]);
      StepIsUse(History(Max(1, capacity), uses[..|uses| - 1]), capacity, uses[|uses| - 1]);
    }
  }

  /** No value of the history dies. */
  predicate Lasting(uses: seq<Use>, live: set<Ref>) {
    forall u | u in uses :: live <= u.alive && (u.op.DoPut? ==> u.op.ref in live)
  }

  /** While nothing dies the cache is full as soon as max(1, capacity) keys were put. */
  lemma {:induction false} FullWindow(capacity: int, uses: seq<Use>, live: set<Ref>)
    requires Lasting(uses, live)
    ensures var b := Max(1, capacity);
            var w := History(b, uses);
            w.size == Min(b, |w.used|) && forall e | e in w.used :: e.1 in live
    decreases |uses|
  {
    if uses != [] {
      var b: nat := Max(1, capacity);
      var before, u := uses[..|uses| - 1], uses[|uses| - 1];
      FullWindow(capacity, before, live);
      LeastRecentlyUsed(capacity, before);
      var w := History(b, before);
      FullStep(w, capacity, u, live);
    }
  }

  lemma FullStep(w: Window, capacity: int, u: Use, live: set<Ref>)
    requires Bounded(w, Max(1, capacity)) && w.size == Min(Max(1, capacity), |w.used|)
    requires live <= u.alive && (u.op.DoPut? ==> u.op.ref in live) && forall e | e in w.used :: e.1 in live
    ensures var b := Max(1, capacity);
            var w' := AfterUse(w, b, u);
            w'.size == Min(b, |w'.used|) && forall e | e in w'.used :: e.1 in live
  {
    FullLive(w, Max(1, capacity), u, live);
    hide *;
    FullSize(w, capacity, u, live);
  }

  lemma FullLive(w: Window, b: nat, u: Use, live: set<Ref>)
    requires Distinct(w.used) && w.size <= |w.used| && (u.op.DoPut? ==> u.op.ref in live)
    requires forall e | e in w.used :: e.1 in live
    ensures forall e | e in AfterUse(w, b, u).used :: e.1 in live
  {
    hide Without, Lookup, Distinct, HasKey;
    var k := u.op.key;
    var c := Newest(w.used, w.size);
    WithoutExact(w.used, k);
    assert w.used == w.used[..|w.used| - w.size] + c;
    SplitDistinct(w.used[..|w.used| - w.size], c);
    LookupFinds(c, k);
    assert Lookup(c, k).Some? ==> (k, Lookup(c, k).value) in w.used;
  }

  lemma FullSize(w: Window, capacity: int, u: Use, live: set<Ref>)
    requires Bounded(w, Max(1, capacity)) && w.size == Min(Max(1, capacity), |w.used|)
    requires live <= u.alive && forall e | e in w.used :: e.1 in live
    ensures var w' := AfterUse(w, Max(1, capacity), u); w'.size == Min(Max(1, capacity), |w'.used|)
  {
    hide Without, Evicted, Lookup, Distinct, HasKey;
    var k := u.op.key;
    var c := Newest(w.used, w.size);
    var o := w.used[..|w.used| - w.size];
    assert w.used == o + c && |c| == w.size;
    SplitDistinct(o, c);
    LookupFinds(c, k);
    if HasKey(c, k) {
      var ref := Lookup(c, k).value;
      assert (k, ref) in w.used && ref in u.alive;
      HitStep(o, c, k, if u.op.DoGet? then ref else u.op.ref);
    } else if u.op.DoPut? {
      MissStep(o, c, capacity, u.truthy, k, u.op.ref);
      hide Newest;
      assert o == [] ==> w.used == c;
    }
  }

  /** If no value dies the cache holds exactly the max(1, capacity) most recently used entries. */
  lemma LastingUsed(capacity: int, uses: seq<Use>, live: set<Ref>)
    requires Lasting(uses, live)
    ensures var b := Max(1, capacity); Cached(capacity, false, uses) == Newest(History(b, uses).used, b)
  {
    LeastRecentlyUsed(capacity, uses);
    FullWindow(capacity, uses, live);
  }

  // ----- loose mode, against a history in which skipped entries count as used -----

  /** A use of a cache without a limit. */
  function Touch(c: Entries, u: Use): Entries {
    match u.op
    case DoGet(k) =>
      var hit := Lookup(c, k);
      if hit.None? then c else Without(c, k) + if hit.value in u.alive then [(k, hit.value)] else []
    case DoPut(k, r) => Without(c, k) + [(k, r)]
  }

  function Touched(c: Entries, uses: seq<Use>): Entries
    decreases |uses|
  {
    if uses == [] then c else Touched(Touch(c, uses[0]), uses[1..])
  }

  /** Each entry looked up: those in `truthy` are found alive, the others dead. */
  function Looks(seen: Entries, truthy: set<Ref>): (r: seq<Use>)
    ensures |r| == |seen|
  {
    seq(|seen|, i requires 0 <= i < |seen| => Use(DoGet(seen[i].0), truthy, truthy))
  }

  /** A loose put of a new key, preceded by a look at every entry its pass reaches. */
  function Spelled(c: Entries, capacity: int, u: Use): seq<Use> {
    if u.op.DoPut? && Lookup(c, u.op.key).None?
    then Looks(c[..Reach(c, true, u.truthy, Needed(c, capacity))], u.truthy) + [u] else [u]
  }

  function SpelledOut(capacity: int, uses: seq<Use>): seq<Use> {
    if uses == [] then []
    else
      var earlier := uses[..|uses| - 1];
      SpelledOut(capacity, earlier) + Spelled(Cached(capacity, true, earlier), capacity, uses[|uses| - 1])
  }

  lemma {:induction false} TouchedAppend(c: Entries, x: seq<Use>, y: seq<Use>)
    ensures Touched(c, x + y) == Touched(Touched(c, x), y)
    decreases |x|
  {
    if x == [] {
      assert x + y == y;
    } else {
      assert (x + y)[1..] == x[1..] + y;
      TouchedAppend(Touch(c, x[0]), x[1..], y);
    }
  }

  /** Looking at the entries of `a` in turn takes the dead ones away and moves the others to the end. */
  lemma {:induction false} LooksMove(a: Entries, rest: Entries, truthy: set<Ref>)
    requires Distinct(a + rest)
    ensures Touched(a + rest, Looks(a, truthy)) == rest + Kept(a, truthy)
    decreases |a|
  {
    hide Distinct, Touch, Looks;
    LooksStep(a, truthy);
    if a == [] {
      assert a + rest == rest;
    } else {
      var tail := a[1..];
      var moved := if a[0].1 in truthy then [a[0]] else [];
      assert (a + rest)[1..] == tail + rest && (a + rest)[0] == a[0];
      LookFirst(a + rest, truthy);
      assert (tail + rest) + moved == tail + (rest + moved);
      LooksMove(tail, rest + moved, truthy);
      assert (rest + moved) + Kept(tail, truthy) == rest + (moved + Kept(tail, truthy));
    }
  }

  lemma LooksStep(a: Entries, truthy: set<Ref>)
    ensures if a == [] then Looks(a, truthy) == []
            else Looks(a, truthy) == [Use(DoGet(a[0].0), truthy, truthy)] + Looks(a[1..], truthy)
  {
  }

  lemma LookFirst(c: Entries, truthy: set<Ref>)
    requires Distinct(c) && c != []
    ensures var c' := c[1..] + if c[0].1 in truthy then [c[0]] else [];
            Touch(c, Use(DoGet(c[0].0), truthy, truthy)) == c' && Distinct(c')
  {
    var k, ref := c[0].0, c[0].1;
    DistinctTail(c);
    assert Without(c, k) == c[1..] by {
      WithoutMissing(c[1..], k);
      assert [] + c[1..] == c[1..];
    }
    assert Lookup(c, k) == Some(ref) && c[0] == (k, ref);
    hide Without, Distinct, HasKey, Lookup;
    AppendDistinct(c, k, ref);
    assert c[1..] + [] == c[1..];
  }

  /** One operation in loose mode is its spelled-out form on a cache without a limit. */
  lemma SpelledStep(c: Entries, capacity: int, u: Use)
    requires Distinct(c)
    ensures Step(c, capacity, true, u) == Touched(c, Spelled(c, capacity, u)) && Distinct(Step(c, capacity, true, u))
  {
    hide Without, Reach, Lookup, Kept;
    var k := u.op.key;
    LookupFinds(c, k);
    assert Touched(c, [u]) == Touch(c, u);
    if u.op.DoPut? && Lookup(c, k).None? {
      var n := Reach(c, true, u.truthy, Needed(c, capacity));
      assert c == c[..n] + c[n..];
      LooksMove(c[..n], c[n..], u.truthy);
      TouchedAppend(c, Looks(c[..n], u.truthy), [u]);
      var e := Evicted(c, true, u.truthy, Needed(c, capacity));
      assert Touched(e, [u]) == Touch(e, u);
      EvictedDistinct(c, true, u.truthy, Needed(c, capacity), k);
      KeyGone(e, k, u.op.ref);
    } else {
      if u.op.DoGet? && Lookup(c, k).Some? {
        AppendDistinct(c, k, Lookup(c, k).value);
        assert Without(c, k) + [] == Without(c, k);
      } else if u.op.DoPut? {
        AppendDistinct(c, k, u.op.ref);
      }
      WithoutDistinct(c, k);
    }
  }

  lemma KeyGone(e: Entries, k: Key, r: Ref)
    requires Distinct(e + [(k, r)])
    ensures Without(e, k) == e
  {
    SplitDistinct(e, [(k, r)]);
    assert [(k, r)][0].0 == k;
    WithoutMissing(e, k);
  }

  /**
   A loose cache holds, after any gets and puts, the keys not found dead, in
   order of last use, where a put of a new key counts as a look at every entry
   its pass reaches: the live ones are used by it, the others found dead.
   */
  lemma {:induction false} LooselyUsed(capacity: int, uses: seq<Use>)
    ensures Cached(capacity, true, uses) == Touched([], SpelledOut(capacity, uses))
    ensures Distinct(Cached(capacity, true, uses))
    decreases |uses|
  {
    if uses != [] {
      var earlier, u := uses[..|uses| - 1], uses[|uses| - 1];
      LooselyUsed(capacity, earlier);
      var c := Cached(capacity, true, earlier);
      SpelledStep(c, capacity, u);
      TouchedAppend([], SpelledOut(capacity, earlier), Spelled(c, capacity, u));
    }
  }

  /** How far the looks of one put go, without saying how the pass is made. */
  lemma SpelledPass(c: Entries, capacity: int, u: Use, n: nat)
    requires u.op.DoPut? && Lookup(c, u.op.key).None? && Pass(c, u.truthy, Needed(c, capacity), n)
    ensures Spelled(c, capacity, u) == Looks(c[..n], u.truthy) + [u]
  {
    var need := Needed(c, capacity);
    LooseReach(c, u.truthy, need);
    LooseStops(c, u.truthy, need);
    PassOnce(c, u.truthy, need, n, Reach(c, true, u.truthy, need));
  }

  /** A cache put through gets and puts between which values may die. */
  method Replay(capacity: nat, loose: bool, uses: seq<Use>) returns (entries: Entries)
    ensures !loose ==> var w := History(Max(1, capacity), uses); entries == Newest(w.used, w.size)
    ensures loose ==> entries == Touched([], SpelledOut(capacity, uses))
  {
    hide Without, Evicted, Lookup, Newest, History, Touched, SpelledOut;
    var c := new WeakValueLRUCache(capacity, loose);
    for i := 0 to |uses|
      invariant fresh(c) && c.Valid() && c.capacity == capacity && c.looseMode == loose
      invariant c.cache == Cached(capacity, loose, uses[..i])
    {
      ghost var was := c.cache;
      var u := uses[i];
      assert uses[..i + 1][..i] == uses[..i];
      LookupFinds(was, u.op.key);
      match u.op
      case DoGet(k) =>
        var r := c.Get(k, u.alive);
        GetSteps(was, capacity, loose, u, r, c.cache);
      case DoPut(k, ref) => c.Put(k, ref, u.truthy);
    }
    assert uses[..|uses|] == uses;
    LeastRecentlyUsed(capacity, uses);
    LooselyUsed(capacity, uses);
    entries := c.cache;
  }

  lemma GetSteps(was: Entries, capacity: int, loose: bool, u: Use, r: Option<Ref>, now: Entries)
    requires Distinct(was) && u.op.DoGet?
    requires r.Some? <==> exists ref :: (u.op.key, ref) in was && ref in u.alive
    requires r.Some? ==> (u.op.key, r.value) in was && now == Without(was, u.op.key) + [(u.op.key, r.value)]
    requires r.None? ==> now == Without(was, u.op.key)
    ensures now == Step(was, capacity, loose, u)
  {
    hide Without, Evicted, Lookup, Distinct;
    var k := u.op.key;
    LookupFinds(was, k);
    if Lookup(was, k).None? {
      WithoutMissing(was, k);
      assert forall e | e in was :: e.0 != k;
    } else {
      OneRef(was, k, Lookup(was, k).value);
    }
  }
}
