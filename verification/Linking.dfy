/**
 The rendered host graph, the proxies of its dynamically linked slots, and
 relinking a slot in place.
 */
module Linking {
  import opened Options
  import opened Addressing
  import opened Walks
  import opened Keyed
  import opened Rendering

  /** What a proxy remembers: its fixed address, and the aliases its payload registered. */
  datatype Proxy = Proxy(prefix: Path, delta: set<Name>)

  predicate NoSlots(k: Part)
    decreases k
  {
    match k
    case Single(_) => true
    case Compose(kids) => forall x | x in kids :: NoSlots(x)
    case Dll(_, _) => false
  }

  /** No slot inside the payload of a slot. */
  predicate Flat(k: Part)
    decreases k
  {
    match k
    case Single(_) => true
    case Compose(kids) => forall x | x in kids :: Flat(x)
    case Dll(_, payload) => forall x | x in payload :: NoSlots(x)
  }

  function NamesOf(es: seq<(Name, Path)>): set<Name> {
    set e | e in es :: e.0
  }

  function ProxyAt(payload: seq<Part>, p: Path): Proxy {
    Proxy(p, NamesOf(AliasesIn(WrittenFrom(payload, p, 0))))
  }

  /** The slots of an element at `p`, with the proxies rendering gives them. */
  function Slots(k: Part, p: Path): seq<(SlotId, Proxy)>
    decreases k, 0
  {
    match k
    case Single(_) => []
    case Compose(kids) => SlotsFrom(kids, p, 0)
    case Dll(slot, payload) => [(slot, ProxyAt(payload, p))]
  }

  function SlotsFrom(kids: seq<Part>, p: Path, i: nat): seq<(SlotId, Proxy)>
    requires i <= |kids|
    decreases kids, |kids| - i
  {
    if i == |kids| then [] else Slots(kids[i], p + [i]) + SlotsFrom(kids, p, i + 1)
  }

  /** The source with another payload in one slot. */
  function Replace(k: Part, slot: SlotId, payload: seq<Part>): Part
    decreases k
  {
    match k
    case Single(_) => k
    case Compose(kids) => Compose(ReplaceAll(kids, slot, payload))
    case Dll(s, old') => if s == slot then Dll(s, payload) else k
  }

  function ReplaceAll(kids: seq<Part>, slot: SlotId, payload: seq<Part>): (r: seq<Part>)
    ensures |r| == |kids|
    decreases kids
  {
    seq(|kids|, i requires 0 <= i < |kids| => Replace(kids[i], slot, payload))
  }

  /** No slot with that name on the way to the position. */
  predicate Outside(k: Part, q: Path, slot: SlotId)
    decreases |q|
  {
    q == [] || (!(k.Dll? && k.slot == slot) && (q[0] < |Inner(k)| ==> Outside(Inner(k)[q[0]], q[1..], slot)))
  }

  /** Replacing leaves every position where it was; the slot holds the new payload. */
  lemma {:induction false} ReplaceAt(k: Part, q: Path, slot: SlotId, payload: seq<Part>)
    requires Flat(k) && Outside(k, q, slot)
    ensures match PartAt(k, q)
            case None => PartAt(Replace(k, slot, payload), q) == None
            case Some(Single(n)) => PartAt(Replace(k, slot, payload), q) == Some(Single(n))
            case Some(Dll(s, _)) => s == slot ==> PartAt(Replace(k, slot, payload), q) == Some(Dll(slot, payload))
            case Some(Compose(kids)) =>
              var x := PartAt(Replace(k, slot, payload), q);
              x.Some? && x.value.Compose? && |x.value.kids| == |kids|
    decreases |q|
  {
    if q != [] && k.Dll? {
      NoSlotsInside(k, q, slot);
    } else if q != [] && q[0] < |Inner(k)| {
      ReplaceAt(k.kids[q[0]], q[1..], slot, payload);
    }
  }

  /** The proxies are those of the slots written in the source, each at its position, owning its payload's aliases. */
  lemma {:induction false} SlotsExact(k: Part, p: Path, slot: SlotId, proxy: Proxy)
    requires Flat(k)
    ensures (slot, proxy) in Slots(k, p) <==>
            && p <= proxy.prefix
            && exists payload ::
                 PartAt(k, proxy.prefix[|p|..]) == Some(Dll(slot, payload)) && proxy == ProxyAt(payload, proxy.prefix)
    decreases k, 0
  {
    var rel := if p <= proxy.prefix then proxy.prefix[|p|..] else [];
    assert p <= proxy.prefix ==> proxy.prefix == p + rel && (rel == [] ==> proxy.prefix == p);
    match k
    case Single(_) =>
    case Compose(kids) =>
      SlotsFromExact(kids, p, 0, slot, proxy);
      if p < proxy.prefix {
        assert rel[1..] == proxy.prefix[|p| + 1..];
      }
    case Dll(s, inner) =>
      if p < proxy.prefix {
        NoSlotsInside(k, rel, slot);
      }
  }

  lemma {:induction false} SlotsFromExact(kids: seq<Part>, p: Path, i: nat, slot: SlotId, proxy: Proxy)
    requires i <= |kids| && forall x | x in kids :: Flat(x)
    ensures (slot, proxy) in SlotsFrom(kids, p, i) <==>
            && p < proxy.prefix && i <= proxy.prefix[|p|] < |kids|
            && exists payload ::
                 && PartAt(kids[proxy.prefix[|p|]], proxy.prefix[|p| + 1..]) == Some(Dll(slot, payload))
                 && proxy == ProxyAt(payload, proxy.prefix)
    decreases kids, |kids| - i
  {
    if i < |kids| {
      hide ProxyAt, PartAt;
      SlotsExact(kids[i], p + [i], slot, proxy);
      SlotsFromExact(kids, p, i + 1, slot, proxy);
      if p < proxy.prefix && proxy.prefix[|p|] == i {
        assert p + [i] <= proxy.prefix;
      }
    }
  }

  /** In a payload there is no slot. */
  lemma {:induction false} NoSlotsInside(k: Part, q: Path, slot: SlotId)
    requires q != [] && forall x | x in Inner(k) :: NoSlots(x)
    ensures PartAt(k, q).Some? ==> !PartAt(k, q).value.Dll?
    decreases |q|
  {
    if q[0] < |Inner(k)| {
      var x := Inner(k)[q[0]];
      assert x in Inner(k);
      if q[1..] != [] {
        NoSlotsInside(x, q[1..], slot);
      }
    }
  }

  /** Writing a subtree at an address. */
  function Put<T>(g: Tree<T>, p: Path, t: Tree<T>): Tree<T>
    decreases |p|
  {
    if p == [] then t
    else if g.Leaf? || p[0] >= |g.kids| then g
    else Box(g.kids[p[0] := Put(g.kids[p[0]], p[1..], t)])
  }

  /** Lookups that neither pass through the address nor end above it are unchanged. */
  lemma {:induction false} PutElsewhere<T>(g: Tree<T>, p: Path, t: Tree<T>, q: Path)
    requires !(p <= q) && !(q <= p)
    ensures Locate(Put(g, p, t), q) == Locate(g, q)
    decreases |p|
  {
    if g.Box? && p[0] < |g.kids| && p[0] == q[0] {
      assert p == [p[0]] + p[1..] && q == [q[0]] + q[1..];
      PutElsewhere(g.kids[p[0]], p[1..], t, q[1..]);
    }
  }

  lemma {:induction false} PutThere<T>(g: Tree<T>, p: Path, t: Tree<T>)
    requires Locate(g, p).Hit?
    ensures Locate(Put(g, p, t), p) == Hit(t)
    decreases |p|
  {
    if p != [] {
      PutThere(g.kids[p[0]], p[1..], t);
    }
  }

  // ----- one slot in a source -----

  lemma {:induction false} NoSlotsHere(k: Part, p: Path)
    requires NoSlots(k)
    ensures Slots(k, p) == []
    decreases k, 0
  {
    if k.Compose? {
      NoSlotsFrom(k.kids, p, 0);
    }
  }

  lemma {:induction false} NoSlotsFrom(kids: seq<Part>, p: Path, i: nat)
    requires i <= |kids| && forall x | x in kids :: NoSlots(x)
    ensures SlotsFrom(kids, p, i) == []
    decreases kids, |kids| - i
  {
    if i < |kids| {
      NoSlotsHere(kids[i], p + [i]);
      NoSlotsFrom(kids, p, i + 1);
    }
  }

  predicate Has(es: seq<(SlotId, Proxy)>, slot: SlotId) {
    exists e :: e in es && e.0 == slot
  }

  lemma {:induction false} Untouched(k: Part, p: Path, slot: SlotId, payload: seq<Part>)
    requires !Has(Slots(k, p), slot)
    ensures Replace(k, slot, payload) == k
    decreases k, 0
  {
    match k
    case Single(_) =>
    case Compose(kids) =>
      UntouchedFrom(kids, p, 0, slot, payload);
      assert ReplaceAll(kids, slot, payload) == kids;
    case Dll(s, old') =>
      assert Slots(k, p)[0] in Slots(k, p);
  }

  lemma {:induction false} UntouchedFrom(kids: seq<Part>, p: Path, i: nat, slot: SlotId, payload: seq<Part>)
    requires i <= |kids| && !Has(SlotsFrom(kids, p, i), slot)
    ensures forall j | i <= j < |kids| :: Replace(kids[j], slot, payload) == kids[j]
    decreases kids, |kids| - i
  {
    if i < |kids| {
      var a, b := Slots(kids[i], p + [i]), SlotsFrom(kids, p, i + 1);
      assert forall e :: e in a + b <==> e in a || e in b;
      Untouched(kids[i], p + [i], slot, payload);
      UntouchedFrom(kids, p, i + 1, slot, payload);
    }
  }

  /** A source's listing around one slot: what is before, the slot's own part, what is after. */
  datatype Around = Around(before: Listed, after: Listed)

  /**
   Replacing a slot's payload changes the listing, the slots and the layout at
   the slot's address, and nowhere else.
   */
  ghost predicate Swapped(k: Part, p: Path, slot: SlotId, payload: seq<Part>, proxy: Proxy, old': seq<Part>,
      a: Around) {
    var k' := Replace(k, slot, payload);
    && p <= proxy.prefix
    && proxy == ProxyAt(old', proxy.prefix)
    && Written(k, p) == a.before + WrittenFrom(old', proxy.prefix, 0) + a.after
    && Written(k', p) == a.before + WrittenFrom(payload, proxy.prefix, 0) + a.after
    && Layout(k') == Put(Layout(k), proxy.prefix[|p|..], Box(LayoutAll(payload)))
    && Locate(Layout(k), proxy.prefix[|p|..]) == Hit(Box(LayoutAll(old')))
  }

  lemma {:induction false} Swap(k: Part, p: Path, slot: SlotId, payload: seq<Part>, proxy: Proxy)
    returns (old': seq<Part>, a: Around)
    requires Distinct(Slots(k, p)) && (slot, proxy) in Slots(k, p)
    ensures Swapped(k, p, slot, payload, proxy, old', a)
    decreases k, 0
  {
    match k
    case Compose(kids) =>
      var i;
      i, old', a := SwapFrom(kids, p, 0, slot, payload, proxy);
      var g, g' := Layout(k), Layout(Replace(k, slot, payload));
      var rel := proxy.prefix[|p|..];
      var kids' := ReplaceAll(kids, slot, payload);
      assert Replace(k, slot, payload) == Compose(kids') && g' == Box(LayoutAll(kids')) && g == Box(LayoutAll(kids));
      forall j | 0 <= j < |kids| && j != i
        ensures g'.kids[j] == g.kids[j]
      {
        assert kids'[j] == Replace(kids[j], slot, payload) == kids[j];
      }
      assert rel[1..] == proxy.prefix[|p| + 1..];
      assert kids'[i] == Replace(kids[i], slot, payload);
      assert g'.kids == g.kids[i := Put(g.kids[i], rel[1..], Box(LayoutAll(payload)))];
    case Dll(s, inner) =>
      assert Slots(k, p) == [(s, ProxyAt(inner, p))];
      old' := inner;
      a := Around([], []);
      assert p[|p|..] == [];
  }

  lemma {:induction false} SwapFrom(kids: seq<Part>, p: Path, i: nat, slot: SlotId, payload: seq<Part>, proxy: Proxy)
    returns (at: nat, old': seq<Part>, a: Around)
    requires i <= |kids| && Distinct(SlotsFrom(kids, p, i)) && (slot, proxy) in SlotsFrom(kids, p, i)
    ensures i <= at < |kids| && p + [at] <= proxy.prefix && proxy == ProxyAt(old', proxy.prefix)
    ensures WrittenFrom(kids, p, i) == a.before + WrittenFrom(old', proxy.prefix, 0) + a.after
    ensures WrittenFrom(ReplaceAll(kids, slot, payload), p, i)
         == a.before + WrittenFrom(payload, proxy.prefix, 0) + a.after
    ensures forall j | i <= j < |kids| && j != at :: Replace(kids[j], slot, payload) == kids[j]
    ensures var rel := proxy.prefix[|p| + 1..];
            && Layout(Replace(kids[at], slot, payload)) == Put(Layout(kids[at]), rel, Box(LayoutAll(payload)))
            && Locate(Layout(kids[at]), rel) == Hit(Box(LayoutAll(old')))
    decreases kids, |kids| - i
  {
    hide ProxyAt, Put, Locate, Replace, Slots, WrittenFrom, Written, Layout;
    WrittenStep(kids, p, i);
    WrittenStep(ReplaceAll(kids, slot, payload), p, i);
    var here, rest := Slots(kids[i], p + [i]), SlotsFrom(kids, p, i + 1);
    var kids' := ReplaceAll(kids, slot, payload);
    HasOnce(here, rest, slot);
    if (slot, proxy) in here {
      at := i;
      old', a := Swap(kids[i], p + [i], slot, payload, proxy);
      UntouchedFrom(kids, p, i + 1, slot, payload);
      SameUnder(kids, kids', p, i + 1);
      a := Around(a.before, a.after + WrittenFrom(kids, p, i + 1));
    } else {
      Untouched(kids[i], p + [i], slot, payload);
      at, old', a := SwapFrom(kids, p, i + 1, slot, payload, proxy);
      a := Around(Written(kids[i], p + [i]) + a.before, a.after);
    }
  }

  lemma WrittenStep(kids: seq<Part>, p: Path, i: nat)
    requires i < |kids|
    ensures WrittenFrom(kids, p, i) == Written(kids[i], p + [i]) + WrittenFrom(kids, p, i + 1)
  {
    hide Written;
  }

  lemma HasOnce(a: seq<(SlotId, Proxy)>, b: seq<(SlotId, Proxy)>, slot: SlotId)
    requires Distinct(a + b)
    ensures Distinct(a) && Distinct(b) && !(Has(a, slot) && Has(b, slot))
  {
    SplitDistinct(a, b);
  }

  lemma {:induction false} SameUnder(kids: seq<Part>, kids': seq<Part>, p: Path, i: nat)
    requires |kids| == |kids'| && i <= |kids| && forall j | i <= j < |kids| :: kids'[j] == kids[j]
    ensures WrittenFrom(kids', p, i) == WrittenFrom(kids, p, i)
    decreases |kids| - i
  {
    if i < |kids| {
      SameUnder(kids, kids', p, i + 1);
    }
  }

  // ----- tables under relinking -----

  /** Removing a slot's aliases from the table and registering the new payload's. */
  lemma Relink(before: seq<(Name, Path)>, was: seq<(Name, Path)>, now: seq<(Name, Path)>, after: seq<(Name, Path)>)
    requires Fresh(map[], before + was + after)
    ensures var cleared := Register(map[], before + was + after) - NamesOf(was);
            && (Fresh(cleared, now) <==> Fresh(map[], before + now + after))
            && (Fresh(cleared, now) ==> Register(cleared, now) == Register(map[], before + now + after))
  {
    var rest := before + after;
    Permute(before, was, after);
    FreshAppend(map[], rest, was);
    RegisterAppend(map[], rest, was);
    var t := Register(map[], rest);
    var cleared := Register(map[], before + was + after) - NamesOf(was);
    assert cleared == t by {
      Uncovered(t, was);
    }
    FreshAppend(map[], rest, now);
    RegisterAppend(map[], rest, now);
    if Fresh(map[], rest + now) {
      Permute'(before, now, after);
    } else if Fresh(map[], before + now + after) {
      Permute(before, now, after);
    }
    if Fresh(map[], before + now + after) {
      Permute(before, now, after);
    }
  }

  lemma Permute(a: seq<(Name, Path)>, m: seq<(Name, Path)>, b: seq<(Name, Path)>)
    requires Fresh(map[], a + m + b)
    ensures Fresh(map[], a + b + m) && Register(map[], a + b + m) == Register(map[], a + m + b)
  {
    var x, y := a + m + b, a + b + m;
    forall i, j | 0 <= i < j < |y|
      ensures y[i].0 != y[j].0
    {
      var i', j' := Old(|a|, |m|, |b|, i), Old(|a|, |m|, |b|, j);
      assert x[i'] == y[i] && x[j'] == y[j] && i' != j';
    }
    RegisterSame(map[], x, y);
  }

  lemma Permute'(a: seq<(Name, Path)>, m: seq<(Name, Path)>, b: seq<(Name, Path)>)
    requires Fresh(map[], a + b + m)
    ensures Fresh(map[], a + m + b)
  {
    Permute(a, b, m);
  }

  function Old(a: nat, m: nat, b: nat, i: nat): nat {
    if i < a then i else if i < a + b then i + m else if i < a + b + m then i - b else i
  }

  lemma Uncovered(t: Table, es: seq<(Name, Path)>)
    requires Fresh(t, es)
    ensures Register(t, es) - NamesOf(es) == t
  {
    var r := Register(t, es) - NamesOf(es);
    forall a
      ensures a in r <==> a in t
      ensures a in t ==> r[a] == t[a]
    {
      RegisterNames(t, es, a);
      if a in t {
        RegisterExact(t, es, a, t[a]);
      }
    }
    assert r.Keys == t.Keys;
  }

  /** The names a build adds to the table are those of its aliases. */
  lemma Delta(t: Table, es: seq<(Name, Path)>)
    requires Fresh(t, es)
    ensures Register(t, es).Keys - t.Keys == NamesOf(es)
  {
    forall a
      ensures a in Register(t, es).Keys - t.Keys <==> a in NamesOf(es)
    {
      RegisterNames(t, es, a);
    }
  }

  // ----- slots under relinking -----

  /** The slots of a source after one payload was replaced. */
  function Renew(es: seq<(SlotId, Proxy)>, slot: SlotId, payload: seq<Part>): (r: seq<(SlotId, Proxy)>)
    ensures |r| == |es|
  {
    seq(|es|, i requires 0 <= i < |es| => if es[i].0 == slot then (slot, ProxyAt(payload, es[i].1.prefix)) else es[i])
  }

  lemma {:induction false} ReplaceSlots(k: Part, p: Path, slot: SlotId, payload: seq<Part>)
    ensures Slots(Replace(k, slot, payload), p) == Renew(Slots(k, p), slot, payload)
    decreases k, 0
  {
    if k.Compose? {
      ReplaceSlotsFrom(k.kids, p, 0, slot, payload);
    }
  }

  lemma {:induction false} ReplaceSlotsFrom(kids: seq<Part>, p: Path, i: nat, slot: SlotId, payload: seq<Part>)
    requires i <= |kids|
    ensures SlotsFrom(ReplaceAll(kids, slot, payload), p, i) == Renew(SlotsFrom(kids, p, i), slot, payload)
    decreases kids, |kids| - i
  {
    if i < |kids| {
      ReplaceSlots(kids[i], p + [i], slot, payload);
      ReplaceSlotsFrom(kids, p, i + 1, slot, payload);
    }
  }

  lemma RenewAt(es: seq<(SlotId, Proxy)>, slot: SlotId, proxy: Proxy, payload: seq<Part>, a: SlotId, v: Proxy)
    requires Distinct(es) && (slot, proxy) in es
    ensures Distinct(Renew(es, slot, payload))
    ensures (a, v) in Renew(es, slot, payload) <==>
            if a == slot then v == ProxyAt(payload, proxy.prefix) else (a, v) in es
  {
    var es' := Renew(es, slot, payload);
    var k :| 0 <= k < |es| && es[k] == (slot, proxy);
    assert es'[k] == (slot, ProxyAt(payload, proxy.prefix));
    if (a, v) in es && a != slot {
      var j :| 0 <= j < |es| && es[j] == (a, v);
      assert es'[j] == (a, v);
    }
    if (a, v) in es' {
      var j :| 0 <= j < |es'| && es'[j] == (a, v);
      assert es[j].0 == a;
    }
  }

  lemma RenewRegister(es: seq<(SlotId, Proxy)>, slot: SlotId, proxy: Proxy, payload: seq<Part>)
    requires Fresh(map[], es) && (slot, proxy) in es
    ensures var es' := Renew(es, slot, payload);
            && Fresh(map[], es')
            && Register(map[], es') == Register(map[], es)[slot := ProxyAt(payload, proxy.prefix)]
  {
    hide Renew, Register, ProxyAt;
    var es' := Renew(es, slot, payload);
    var r, r' := Register(map[], es)[slot := ProxyAt(payload, proxy.prefix)], Register(map[], es');
    RenewAt(es, slot, proxy, payload, slot, proxy);
    forall a | a in r
      ensures a in r' && r'[a] == r[a]
    {
      RenewAt(es, slot, proxy, payload, a, r[a]);
      RegisterExact(map[], es, a, r[a]);
      RegisterExact(map[], es', a, r[a]);
    }
    forall a | a in r'
      ensures a in r
    {
      RenewAt(es, slot, proxy, payload, a, r'[a]);
      RegisterExact(map[], es', a, r'[a]);
      RegisterExact(map[], es, a, r'[a]);
    }
    assert r.Keys == r'.Keys;
  }

  lemma {:induction false} ReplaceFlat(k: Part, slot: SlotId, payload: seq<Part>)
    requires Flat(k) && forall x | x in payload :: NoSlots(x)
    ensures Flat(Replace(k, slot, payload))
    decreases k
  {
    if k.Compose? {
      forall i | 0 <= i < |k.kids|
        ensures Flat(ReplaceAll(k.kids, slot, payload)[i])
      {
        ReplaceFlat(k.kids[i], slot, payload);
      }
    }
  }

  // ----- what the slots own -----

  lemma NamesAppend(a: Listed, b: Listed)
    ensures NamesOf(AliasesIn(a + b)) == NamesOf(AliasesIn(a)) + NamesOf(AliasesIn(b))
  {
    AliasesAppend(a, b);
    var x, y := AliasesIn(a), AliasesIn(b);
    assert forall e :: e in x + y <==> e in x || e in y;
  }

  lemma DistinctApart(a: Listed, b: Listed)
    requires Distinct(AliasesIn(a + b))
    ensures Distinct(AliasesIn(a)) && Distinct(AliasesIn(b))
    ensures NamesOf(AliasesIn(a)) !! NamesOf(AliasesIn(b))
  {
    hide AliasesIn, Distinct;
    AliasesAppend(a, b);
    SplitDistinct(AliasesIn(a), AliasesIn(b));
  }

  /** A slot owns only aliases registered below its address. */
  lemma {:induction false} DeltaWithin(k: Part, p: Path, e: (SlotId, Proxy))
    requires e in Slots(k, p)
    ensures e.1.delta <= NamesOf(AliasesIn(Written(k, p)))
    decreases k, 0
  {
    match k
    case Single(_) =>
    case Compose(kids) => DeltaWithinFrom(kids, p, 0, e);
    case Dll(s, payload) => assert e == (s, ProxyAt(payload, p));
  }

  lemma {:induction false} DeltaWithinFrom(kids: seq<Part>, p: Path, i: nat, e: (SlotId, Proxy))
    requires i <= |kids| && e in SlotsFrom(kids, p, i)
    ensures e.1.delta <= NamesOf(AliasesIn(WrittenFrom(kids, p, i)))
    decreases kids, |kids| - i
  {
    NamesAppend(Written(kids[i], p + [i]), WrittenFrom(kids, p, i + 1));
    if e in Slots(kids[i], p + [i]) {
      DeltaWithin(kids[i], p + [i], e);
    } else {
      DeltaWithinFrom(kids, p, i + 1, e);
    }
  }

  /** Two slots never own the same alias. */
  lemma {:induction false} DeltasDisjoint(k: Part, p: Path, i: nat, j: nat)
    requires i < j < |Slots(k, p)| && Distinct(AliasesIn(Written(k, p)))
    ensures Slots(k, p)[i].1.delta !! Slots(k, p)[j].1.delta
    decreases k, 0
  {
    if k.Compose? {
      DeltasDisjointFrom(k.kids, p, 0, i, j);
    }
  }

  lemma {:induction false} DeltasDisjointFrom(kids: seq<Part>, p: Path, n: nat, i: nat, j: nat)
    requires n <= |kids| && i < j < |SlotsFrom(kids, p, n)| && Distinct(AliasesIn(WrittenFrom(kids, p, n)))
    ensures SlotsFrom(kids, p, n)[i].1.delta !! SlotsFrom(kids, p, n)[j].1.delta
    decreases kids, |kids| - n
  {
    hide AliasesIn, NamesOf, ProxyAt, Distinct, Written;
    var a, b := Slots(kids[n], p + [n]), SlotsFrom(kids, p, n + 1);
    DistinctApart(Written(kids[n], p + [n]), WrittenFrom(kids, p, n + 1));
    if j < |a| {
      DeltasDisjoint(kids[n], p + [n], i, j);
    } else if i >= |a| {
      DeltasDisjointFrom(kids, p, n + 1, i - |a|, j - |a|);
    } else {
      DeltaWithin(kids[n], p + [n], a[i]);
      DeltaWithinFrom(kids, p, n + 1, b[j - |a|]);
    }
  }

  // ----- the host graph -----

  /** Everything one build registers: aliases, hooks, slots. */
  ghost predicate Builds(nodes: seq<Part>, p: Path, t: Table, px: map<SlotId, Proxy>) {
    Fresh(t, AliasesIn(WrittenFrom(nodes, p, 0))) && Fresh(px, SlotsFrom(nodes, p, 0))
  }

  /**
   Every node written in the source stands in the graph where it is written,
   its alias resolves to that place, and no other alias resolves.
   */
  ghost predicate Resolves(source: seq<Part>, graph: Tree<Node>, aliases: Table) {
    && (forall e | e in WrittenFrom(source, [], 0) ::
          && Locate(graph, e.0) == Hit(Leaf(e.1))
          && (e.1.alias.Some? ==> e.1.alias.value in aliases && aliases[e.1.alias.value] == e.0))
    && (forall a | a in aliases :: exists n :: (aliases[a], n) in WrittenFrom(source, [], 0) && n.alias == Some(a))
  }

  /** So it is in every graph that a source builds, whatever was linked into it. */
  lemma SourceResolves(source: seq<Part>)
    requires Builds(source, [], map[], map[])
    ensures Resolves(source, Box(LayoutAll(source)), Register(map[], AliasesIn(WrittenFrom(source, [], 0))))
  {
    hide Register, AliasesIn, WrittenFrom, Locate, Fresh;
    var w := WrittenFrom(source, [], 0);
    var aliases := Register(map[], AliasesIn(w));
    forall e | e in w
      ensures Locate(Box(LayoutAll(source)), e.0) == Hit(Leaf(e.1))
      ensures e.1.alias.Some? ==> e.1.alias.value in aliases && aliases[e.1.alias.value] == e.0
    {
      NodeStands(source, e.0, e.1);
      if e.1.alias.Some? {
        AliasListed(w, e.1.alias.value, e.0);
        RegisterExact(map[], AliasesIn(w), e.1.alias.value, e.0);
      }
    }
    forall a | a in aliases
      ensures exists n :: (aliases[a], n) in w && n.alias == Some(a)
    {
      RegisterExact(map[], AliasesIn(w), a, aliases[a]);
      AliasListed(w, a, aliases[a]);
      var i :| 0 <= i < |w| && w[i].0 == aliases[a] && w[i].1.alias == Some(a);
      assert (aliases[a], w[i].1) in w;
    }
  }

  lemma NodeStands(source: seq<Part>, p: Path, n: Node)
    requires (p, n) in WrittenFrom(source, [], 0)
    ensures Locate(Box(LayoutAll(source)), p) == Hit(Leaf(n))
  {
    hide Locate;
    WrittenExact(Compose(source), [], p, n);
    assert p[0..] == p;
    LayoutShape(Compose(source), p);
  }

  /** The hooks collected are those of the nodes that have one, where they are written, in order, each once. */
  lemma SourceHooks(source: seq<Part>, p: Path)
    ensures InOrder(HooksIn(WrittenFrom(source, [], 0)))
    ensures p in HooksIn(WrittenFrom(source, [], 0)) <==>
              exists n: Node :: n.hook && PartAt(Compose(source), p) == Some(Single(n))
  {
    hide PartAt, HooksIn, WrittenFrom;
    var w := WrittenFrom(source, [], 0);
    HooksExact(Box(LayoutAll(source)));
    LayoutListsFrom(source, [], 0);
    HookListed(w, p);
    assert p[0..] == p;
    if i :| 0 <= i < |w| && w[i].0 == p && w[i].1.hook {
      assert (p, w[i].1) in w;
      WrittenExact(Compose(source), [], p, w[i].1);
    }
    if n: Node :| n.hook && PartAt(Compose(source), p) == Some(Single(n)) {
      WrittenExact(Compose(source), [], p, n);
      var i :| 0 <= i < |w| && w[i] == (p, n);
    }
  }

  class Host {
    var aliases: Table
    var hooks: seq<Path>                 // `_collected_hooks`
    var graph: Tree<Node>
    var proxies: map<SlotId, Proxy>
    var ran: seq<(Path, Table)>          // hooks run so far, each with the table it saw
    ghost var source: seq<Part>

    constructor ()
      ensures aliases == map[] && hooks == [] && proxies == map[] && ran == []
    {
      aliases := map[];
      hooks := [];
      graph := Box([]);
      proxies := map[];
      ran := [];
      source := [];
    }

    /** The graph, the table and the proxies are those of rendering `source`. */
    ghost predicate Valid()
      reads this
    {
      && (forall k | k in source :: Flat(k))
      && Builds(source, [], map[], map[])
      && graph == Box(LayoutAll(source))
      && aliases == Register(map[], AliasesIn(WrittenFrom(source, [], 0)))
      && proxies == Register(map[], SlotsFrom(source, [], 0))
    }

    /** `_process_nodes`: false stands for the exceptions raised for a repeated alias or a reused slot. */
    method ProcessNodes(nodes: seq<Part>, path: Path) returns (built: seq<Tree<Node>>, ok: bool)
      requires forall k | k in nodes :: Flat(k)
      modifies this`aliases, this`hooks, this`proxies
      ensures ok <==> Builds(nodes, path, old(aliases), old(proxies))
      ensures ok ==> built == LayoutAll(nodes)
      ensures ok ==> aliases == Register(old(aliases), AliasesIn(WrittenFrom(nodes, path, 0)))
      ensures ok ==> hooks == old(hooks) + HooksIn(WrittenFrom(nodes, path, 0))
      ensures ok ==> proxies == Register(old(proxies), SlotsFrom(nodes, path, 0))
      decreases nodes, 0
    {
      hide Fresh, Register, AliasesIn, HooksIn, Layout, Slots;
      built, ok := [], true;
      Nothing(aliases);
      Nothing(proxies);
      ghost var all := WrittenFrom(nodes, path, 0);
      ghost var slots := SlotsFrom(nodes, path, 0);
      ghost var done: Listed, doneSlots: seq<(SlotId, Proxy)> := [], [];
      for idx := 0 to |nodes|
        invariant ok && built == LayoutAll(nodes)[..idx]
        invariant done + WrittenFrom(nodes, path, idx) == all && doneSlots + SlotsFrom(nodes, path, idx) == slots
        invariant Fresh(old(aliases), AliasesIn(done)) && aliases == Register(old(aliases), AliasesIn(done))
        invariant Fresh(old(proxies), doneSlots) && proxies == Register(old(proxies), doneSlots)
        invariant hooks == old(hooks) + HooksIn(done)
      {
        var node := nodes[idx];
        assert node in nodes;
        ghost var here, hereSlots := Written(node, path + [idx]), Slots(node, path + [idx]);
        RegisterNext(old(aliases), done, here, WrittenFrom(nodes, path, idx + 1));
        AdvanceSlots(old(proxies), doneSlots, hereSlots, SlotsFrom(nodes, path, idx + 1));
        var subtree;
        subtree, ok := ProcessNode(node, path + [idx]);
        if !ok {
          return;
        }
        built := built + [subtree];
        done, doneSlots := done + here, doneSlots + hereSlots;
      }
      assert done == all && doneSlots == slots;
    }

    method ProcessNode(node: Part, path: Path) returns (subtree: Tree<Node>, ok: bool)
      requires Flat(node)
      modifies this`aliases, this`hooks, this`proxies
      ensures ok <==>
                Fresh(old(aliases), AliasesIn(Written(node, path))) && Fresh(old(proxies), Slots(node, path))
      ensures ok ==> subtree == Layout(node)
      ensures ok ==> aliases == Register(old(aliases), AliasesIn(Written(node, path)))
      ensures ok ==> hooks == old(hooks) + HooksIn(Written(node, path))
      ensures ok ==> proxies == Register(old(proxies), Slots(node, path))
      decreases node, 2
    {
      match node
      case Single(n) =>
        subtree, ok := Leaf(n), true;
        OneListed(path, n);
        Nothing(aliases);
        Nothing(proxies);
        if n.alias.Some? {
          OneEntry(aliases, n.alias.value, path);
          if n.alias.value in aliases {
            return subtree, false;
          }
          aliases := aliases[n.alias.value := path];
        }
        if n.hook {
          hooks := hooks + [path];
        }
      case Compose(kids) =>
        var inner;
        inner, ok := ProcessNodes(kids, path);
        subtree := Box(inner);
      case Dll(slot, payload) =>
        subtree := Box([]);
        OneEntry(proxies, slot, ProxyAt(payload, path));
        if slot in proxies {
          return subtree, false;
        }
        var inner;
        inner, ok := BuildSlot(slot, payload, path);
        subtree := Box(inner);
    }

    /** `_build_unlocked` without its hooks run: they are collected apart, then handed to the host. */
    method BuildSlot(slot: SlotId, payload: seq<Part>, path: Path) returns (built: seq<Tree<Node>>, ok: bool)
      requires forall x | x in payload :: NoSlots(x)
      modifies this`aliases, this`hooks, this`proxies
      ensures ok <==> Fresh(old(aliases), AliasesIn(WrittenFrom(payload, path, 0)))
      ensures ok ==> built == LayoutAll(payload)
      ensures ok ==> aliases == Register(old(aliases), AliasesIn(WrittenFrom(payload, path, 0)))
      ensures ok ==> hooks == old(hooks) + HooksIn(WrittenFrom(payload, path, 0))
      ensures ok ==> proxies == old(proxies)[slot := ProxyAt(payload, path)]
      decreases payload, 1
    {
      hide Fresh, Register, AliasesIn, HooksIn, Layout, Written, NamesOf;
      var symbols := aliases.Keys;
      var outer := hooks;
      hooks := [];
      NoSlotsFrom(payload, path, 0);
      NoSlotsFlat(payload);
      Nothing(proxies);
      ghost var t := aliases;
      built, ok := ProcessNodes(payload, path);
      var collected := hooks;
      hooks := outer;
      if ok {
        Delta(t, AliasesIn(WrittenFrom(payload, path, 0)));
        proxies := proxies[slot := Proxy(path, aliases.Keys - symbols)];
        hooks := outer + collected;
      }
    }

    /** Every collected hook runs once, in graph order, and sees the finished table. */
    method RunHooks(collected: seq<Path>)
      modifies this`ran
      ensures ran == old(ran) + Runs(collected, aliases)
    {
      for i := 0 to |collected|
        invariant ran == old(ran) + Runs(collected[..i], aliases)
      {
        ran := ran + [(collected[i], aliases)];
        assert collected[..i + 1] == collected[..i] + [collected[i]];
      }
      assert collected[..|collected|] == collected;
    }

    /** `_build` of a top-level composition. */
    method Render(nodes: seq<Part>) returns (ok: bool)
      requires aliases == map[] && proxies == map[] && ran == []
      requires forall k | k in nodes :: Flat(k)
      modifies this
      ensures ok <==> Builds(nodes, [], map[], map[])
      ensures ok ==> Valid() && source == nodes && Resolves(nodes, graph, aliases)
      ensures ok ==> var collected := HooksIn(WrittenFrom(nodes, [], 0));
                |ran| == |collected| && forall i | 0 <= i < |ran| :: ran[i] == (collected[i], aliases)
    {
      hooks := [];
      var built;
      built, ok := ProcessNodes(nodes, []);
      if ok {
        graph := Box(built);
        source := nodes;
        SourceResolves(nodes);
        RunHooks(hooks);
      }
    }

    /** `DLLCompose.apply`: the slot is rebuilt at its fixed address. */
    method Apply(slot: SlotId, payload: seq<Part>) returns (ok: bool)
      requires Valid() && forall x | x in payload :: NoSlots(x)
      modifies this
      ensures ok <==> slot in old(proxies) && Builds(ReplaceAll(old(source), slot, payload), [], map[], map[])
      ensures ok ==> Valid() && source == ReplaceAll(old(source), slot, payload) && Resolves(source, graph, aliases)
      ensures ok ==> ran == old(ran) + Runs(HooksIn(WrittenFrom(payload, old(proxies)[slot].prefix, 0)), aliases)
      ensures ok ==> forall q | !(old(proxies)[slot].prefix <= q) && !(q <= old(proxies)[slot].prefix) ::
                       Locate(graph, q) == Locate(old(graph), q)
    {
      hide Fresh, Register, AliasesIn, HooksIn, Layout, SlotsFrom, WrittenFrom, Resolves;
      if slot !in proxies {
        return false;
      }
      var Proxy(prefix, delta) := proxies[slot];
      RelinkSource(source, slot, payload, prefix, delta);
      aliases := aliases - delta;
      hooks := [];
      var inner;
      inner, ok := BuildSlot(slot, payload, prefix);
      if ok {
        ghost var before := graph;
        graph := Put(graph, prefix, Box(inner));
        forall q | !(prefix <= q) && !(q <= prefix)
          ensures Locate(graph, q) == Locate(before, q)
        {
          PutElsewhere(before, prefix, Box(inner), q);
        }
        forall i | 0 <= i < |source|
          ensures Flat(ReplaceAll(source, slot, payload)[i])
        {
          ReplaceFlat(source[i], slot, payload);
        }
        source := ReplaceAll(source, slot, payload);
        SourceResolves(source);
        RunHooks(hooks);
      } else {
        proxies := proxies[slot := Proxy(prefix, {})];
      }
    }
  }

  lemma Nothing<K, V>(t: map<K, V>)
    ensures Fresh(t, []) && Register(t, []) == t && AliasesIn([]) == [] && HooksIn([]) == []
  {
  }

  lemma OneEntry<K, V>(t: map<K, V>, k: K, v: V)
    ensures Fresh(t, [(k, v)]) <==> k !in t
    ensures Register(t, [(k, v)]) == t[k := v]
  {
    assert [(k, v)][0] in [(k, v)];
    assert [(k, v)][1..] == [];
  }

  lemma OneListed(p: Path, n: Node)
    ensures AliasesIn([(p, n)]) == if n.alias.Some? then [(n.alias.value, p)] else []
    ensures HooksIn([(p, n)]) == if n.hook then [p] else []
  {
    assert [(p, n)][1..] == [];
  }

  function Runs(collected: seq<Path>, t: Table): seq<(Path, Table)> {
    seq(|collected|, i requires 0 <= i < |collected| => (collected[i], t))
  }

  lemma NoSlotsFlat(kids: seq<Part>)
    requires forall x | x in kids :: NoSlots(x)
    ensures forall x | x in kids :: Flat(x)
  {
    forall x | x in kids
      ensures Flat(x)
    {
      NoSlotsFlatOne(x);
    }
  }

  lemma {:induction false} NoSlotsFlatOne(k: Part)
    requires NoSlots(k)
    ensures Flat(k)
    decreases k
  {
    if k.Compose? {
      forall x | x in k.kids
        ensures Flat(x)
      {
        NoSlotsFlatOne(x);
      }
    }
  }

  /** Registering the next child keeps a build going exactly if its aliases are new. */
  lemma RegisterNext(t: Table, done: Listed, here: Listed, rest: Listed)
    ensures Fresh(t, AliasesIn(done + (here + rest))) ==>
              Fresh(Register(t, AliasesIn(done)), AliasesIn(here))
    ensures Fresh(t, AliasesIn(done)) ==>
              (Fresh(t, AliasesIn(done + here)) <==> Fresh(Register(t, AliasesIn(done)), AliasesIn(here)))
    ensures Register(t, AliasesIn(done + here)) == Register(Register(t, AliasesIn(done)), AliasesIn(here))
    ensures HooksIn(done + here) == HooksIn(done) + HooksIn(here)
    ensures done + (here + rest) == (done + here) + rest
  {
    hide Fresh, Register, AliasesIn, HooksIn;
    var x, y, z := AliasesIn(done), AliasesIn(here), AliasesIn(rest);
    AliasesAppend(here, rest);
    AliasesAppend(done, here + rest);
    AliasesAppend(done, here);
    HooksAppend(done, here);
    FreshAppend(t, x, y + z);
    FreshAppend(Register(t, x), y, z);
    FreshAppend(t, x, y);
    RegisterAppend(t, x, y);
  }

  lemma AdvanceSlots(t: map<SlotId, Proxy>, done: seq<(SlotId, Proxy)>, here: seq<(SlotId, Proxy)>,
      rest: seq<(SlotId, Proxy)>)
    ensures Fresh(t, done + (here + rest)) ==> Fresh(Register(t, done), here)
    ensures Fresh(t, done) ==> (Fresh(t, done + here) <==> Fresh(Register(t, done), here))
    ensures Register(t, done + here) == Register(Register(t, done), here)
    ensures done + (here + rest) == (done + here) + rest
  {
    hide Fresh, Register;
    FreshAppend(t, done, here + rest);
    FreshAppend(Register(t, done), here, rest);
    FreshAppend(t, done, here);
    RegisterAppend(t, done, here);
  }

  /** What replacing one payload does to everything rendering registers. */
  lemma RelinkSource(source: seq<Part>, slot: SlotId, payload: seq<Part>, prefix: Path, delta: set<Name>)
    requires Builds(source, [], map[], map[])
    requires var px := Register(map[], SlotsFrom(source, [], 0)); slot in px && px[slot] == Proxy(prefix, delta)
    ensures var source' := ReplaceAll(source, slot, payload);
            var g, g' := Box(LayoutAll(source)), Box(LayoutAll(source'));
            var cleared := Register(map[], AliasesIn(WrittenFrom(source, [], 0))) - delta;
            var new' := AliasesIn(WrittenFrom(payload, prefix, 0));
            && (Builds(source', [], map[], map[]) <==> Fresh(cleared, new'))
            && (Fresh(cleared, new') ==>
                  Register(cleared, new') == Register(map[], AliasesIn(WrittenFrom(source', [], 0))))
            && Register(map[], SlotsFrom(source', [], 0))
               == Register(map[], SlotsFrom(source, [], 0))[slot := ProxyAt(payload, prefix)]
            && g' == Put(g, prefix, Box(LayoutAll(payload)))
  {
    var k := Compose(source);
    var px := SlotsFrom(source, [], 0);
    RegisterExact(map[], px, slot, Proxy(prefix, delta));
    var old', a := Swap(k, [], slot, payload, Proxy(prefix, delta));
    assert prefix[0..] == prefix;
    ReplaceSlotsFrom(source, [], 0, slot, payload);
    RenewRegister(px, slot, Proxy(prefix, delta), payload);
    var was, now := WrittenFrom(old', prefix, 0), WrittenFrom(payload, prefix, 0);
    AliasesAppend(a.before + was, a.after);
    AliasesAppend(a.before, was);
    AliasesAppend(a.before + now, a.after);
    AliasesAppend(a.before, now);
    Relink(AliasesIn(a.before), AliasesIn(was), AliasesIn(now), AliasesIn(a.after));
  }
}
