/**
 Sequences of keyed entries without repetition, and the maps they are registered into.
 */
module Keyed {

  ghost predicate Distinct<K, V>(es: seq<(K, V)>) {
    forall i, j | 0 <= i < j < |es| :: es[i].0 != es[j].0
  }

  /** Nothing registered twice, and nothing already in the table. */
  ghost predicate Fresh<K, V>(t: map<K, V>, es: seq<(K, V)>) {
    Distinct(es) && forall e | e in es :: e.0 !in t
  }

  function Register<K(==), V>(t: map<K, V>, es: seq<(K, V)>): map<K, V>
    decreases |es|
  {
    if es == [] then t else Register(t[es[0].0 := es[0].1], es[1..])
  }

  lemma {:induction false} RegisterAppend<K, V>(t: map<K, V>, a: seq<(K, V)>, b: seq<(K, V)>)
    ensures Register(t, a + b) == Register(Register(t, a), b)
    decreases |a|
  {
    if a == [] {
      assert a + b == b;
    } else {
      assert (a + b)[1..] == a[1..] + b;
      RegisterAppend(t[a[0].0 := a[0].1], a[1..], b);
    }
  }

  /** A table filled without repetition holds its old entries and the new ones, and nothing else. */
  lemma {:induction false} RegisterExact<K, V>(t: map<K, V>, es: seq<(K, V)>, a: K, p: V)
    requires Fresh(t, es)
    ensures a in Register(t, es) && Register(t, es)[a] == p <==> (a in t && t[a] == p) || (a, p) in es
    decreases |es|
  {
    if es != [] {
      var (a0, p0) := es[0];
      var rest := es[1..];
      assert es == [es[0]] + rest;
      assert forall e | e in rest :: e in es && e.0 != a0 by {
        forall e | e in rest
          ensures e in es && e.0 != a0
        {
          var i :| 0 <= i < |rest| && rest[i] == e;
          assert es[i + 1] == e;
        }
      }
      RegisterExact(t[a0 := p0], rest, a, p);
      assert (a, p) in es <==> (a, p) == es[0] || (a, p) in rest;
      assert es[0] in es;
    }
  }

  lemma RegisterSame<K(!new), V(!new)>(t: map<K, V>, es: seq<(K, V)>, es': seq<(K, V)>)
    requires Fresh(t, es) && Fresh(t, es') && forall e :: e in es <==> e in es'
    ensures Register(t, es) == Register(t, es')
  {
    var r, r' := Register(t, es), Register(t, es');
    forall a
      ensures a in r <==> a in r'
      ensures a in r ==> r[a] == r'[a]
    {
      if a in r {
        RegisterExact(t, es, a, r[a]);
        RegisterExact(t, es', a, r[a]);
      }
      if a in r' {
        RegisterExact(t, es, a, r'[a]);
        RegisterExact(t, es', a, r'[a]);
      }
    }
    assert r.Keys == r'.Keys;
    assert forall a | a in r :: r[a] == r'[a];
    assert r == r';
  }

  lemma {:induction false} FreshAppend<K, V>(t: map<K, V>, a: seq<(K, V)>, b: seq<(K, V)>)
    ensures Fresh(t, a + b) <==> Fresh(t, a) && Fresh(Register(t, a), b)
  {
    if Fresh(t, a) {
      forall x
        ensures x in Register(t, a) <==> x in t || exists e :: e in a && e.0 == x
      {
        RegisterNames(t, a, x);
      }
      if Fresh(t, a + b) {
        forall i | 0 <= i < |b|
          ensures b[i].0 !in Register(t, a)
        {
          assert (a + b)[|a| + i] == b[i] && b[i] in a + b;
          RegisterNames(t, a, b[i].0);
          forall j | 0 <= j < |a|
            ensures a[j].0 != b[i].0
          {
            assert (a + b)[j] == a[j];
          }
        }
        forall i, j | 0 <= i < j < |b|
          ensures b[i].0 != b[j].0
        {
          assert (a + b)[|a| + i] == b[i] && (a + b)[|a| + j] == b[j];
        }
      }
      if Fresh(Register(t, a), b) {
        forall i, j | 0 <= i < j < |a + b|
          ensures (a + b)[i].0 != (a + b)[j].0
        {
          if j >= |a| && i < |a| {
            assert b[j - |a|] in b && a[i] in a;
          }
        }
        forall e | e in a + b
          ensures e.0 !in t
        {
        }
      }
    } else {
      if Fresh(t, a + b) {
        FreshPrefix(t, a, b);
      }
    }
  }

  lemma FreshPrefix<K, V>(t: map<K, V>, a: seq<(K, V)>, b: seq<(K, V)>)
    requires Fresh(t, a + b)
    ensures Fresh(t, a)
  {
    assert forall i | 0 <= i < |a| :: (a + b)[i] == a[i];
    assert forall e | e in a :: e in a + b;
  }

  lemma {:induction false} RegisterNames<K, V>(t: map<K, V>, es: seq<(K, V)>, x: K)
    ensures x in Register(t, es) <==> x in t || exists e :: e in es && e.0 == x
    decreases |es|
  {
    if es != [] {
      RegisterNames(t[es[0].0 := es[0].1], es[1..], x);
      assert forall e :: e in es <==> e == es[0] || e in es[1..];
    }
  }

  lemma SplitDistinct<K, V>(a: seq<(K, V)>, b: seq<(K, V)>)
    requires Distinct(a + b)
    ensures Distinct(a) && Distinct(b)
    ensures forall i, j | 0 <= i < |a| && 0 <= j < |b| :: a[i].0 != b[j].0
  {
    var c := a + b;
    assert forall i | 0 <= i < |a| :: c[i] == a[i];
    assert forall i | 0 <= i < |b| :: c[|a| + i] == b[i];
    forall i, j | 0 <= i < |a| && 0 <= j < |b|
      ensures a[i].0 != b[j].0
    {
      assert c[i] == a[i] && c[|a| + j] == b[j];
    }
  }
}
