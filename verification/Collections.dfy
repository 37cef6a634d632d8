/** Option values and the few sequence functions that the other modules share. */
module Collections {

  datatype Option<+T> = None | Some(value: T)

  function Last<T>(s: seq<T>): T
    requires s != []
  {
    s[|s| - 1]
  }

  function Front<T>(s: seq<T>): seq<T>
    requires s != []
  {
    s[..|s| - 1]
  }

  function Elements<T>(s: seq<T>): set<T> {
    if s == [] then {} else Elements(Front(s)) + {Last(s)}
  }

  /** No element occurs twice. */
  predicate Distinct<T(==)>(s: seq<T>) {
    s == [] || (Distinct(Front(s)) && Last(s) !in Elements(Front(s)))
  }

  /** The elements of s outside gone, in their order. */
  function Minus<T(==)>(s: seq<T>, gone: set<T>): seq<T> {
    if s == [] then []
    else if Last(s) in gone then Minus(Front(s), gone)
    else Minus(Front(s), gone) + [Last(s)]
  }

  /** How often x occurs in s. */
  function Count<T(==)>(s: seq<T>, x: T): nat {
    if s == [] then 0 else Count(Front(s), x) + (if Last(s) == x then 1 else 0)
  }

  /** What one more element at the end does to all of these. */
  lemma {:induction false} Snoc<T>(s: seq<T>, x: T, gone: set<T>)
    ensures Elements(s + [x]) == Elements(s) + {x}
    ensures Distinct(s + [x]) <==> Distinct(s) && x !in Elements(s)
    ensures Minus(s + [x], gone) == Minus(s, gone) + (if x in gone then [] else [x])
    ensures forall y :: Count(s + [x], y) == Count(s, y) + (if x == y then 1 else 0)
  {
    assert Front(s + [x]) == s;
  }

  lemma {:induction false} ElementsAre<T>(s: seq<T>, x: T)
    ensures x in Elements(s) <==> x in s
  {
    if s != [] {
      ElementsAre(Front(s), x);
      assert s == Front(s) + [Last(s)];
    }
  }

  lemma {:induction false} ElementsOfSum<T>(a: seq<T>, b: seq<T>)
    ensures Elements(a + b) == Elements(a) + Elements(b)
  {
    if b == [] {
      assert a + b == a;
    } else {
      ElementsOfSum(a, Front(b));
      assert Front(a + b) == a + Front(b);
    }
  }

  lemma {:induction false} DistinctMeans<T>(s: seq<T>)
    ensures Distinct(s) <==> forall i, j :: 0 <= i < j < |s| ==> s[i] != s[j]
  {
    if s != [] {
      var f := Front(s);
      DistinctMeans(f);
      ElementsAre(f, Last(s));
      if Distinct(s) {
        forall i, j | 0 <= i < j < |s| ensures s[i] != s[j] {
          assert s[i] == f[i] && (j < |f| ==> s[j] == f[j]);
        }
      } else if Distinct(f) {
        var i :| 0 <= i < |f| && f[i] == Last(s);
        assert s[i] == s[|s| - 1];
      } else {
        var i, j :| 0 <= i < j < |f| && f[i] == f[j];
        assert s[i] == s[j];
      }
    }
  }

  lemma {:induction false} DistinctCount<T>(s: seq<T>, x: T)
    ensures Distinct(s) ==> Count(s, x) == if x in Elements(s) then 1 else 0
    ensures Count(s, x) == 0 <==> x !in Elements(s)
  {
    if s != [] {
      DistinctCount(Front(s), x);
    }
  }

  lemma {:induction false} MinusElements<T>(s: seq<T>, gone: set<T>)
    ensures Elements(Minus(s, gone)) == Elements(s) - gone
    ensures Distinct(s) ==> Distinct(Minus(s, gone))
  {
    if s != [] {
      MinusElements(Front(s), gone);
      Snoc(Minus(Front(s), gone), Last(s), gone);
    }
  }

  /** Removing in two goes is removing once. */
  lemma {:induction false} MinusMinus<T>(s: seq<T>, a: set<T>, b: set<T>)
    ensures Minus(Minus(s, a), b) == Minus(s, a + b)
  {
    if s != [] {
      MinusMinus(Front(s), a, b);
      if Last(s) !in a {
        Snoc(Minus(Front(s), a), Last(s), b);
      }
    }
  }

  lemma {:induction false} MinusNothing<T>(s: seq<T>, gone: set<T>)
    requires Elements(s) !! gone
    ensures Minus(s, gone) == s
  {
    if s != [] {
      MinusNothing(Front(s), gone);
      assert s == Front(s) + [Last(s)];
    }
  }

  lemma {:induction false} MinusOfSum<T>(a: seq<T>, b: seq<T>, gone: set<T>)
    ensures Minus(a + b, gone) == Minus(a, gone) + Minus(b, gone)
  {
    if b == [] {
      assert a + b == a;
    } else {
      MinusOfSum(a, Front(b), gone);
      assert Front(a + b) == a + Front(b);
    }
  }

  lemma {:induction false} DistinctSum<T>(a: seq<T>, b: seq<T>)
    ensures Distinct(a + b) <==> Distinct(a) && Distinct(b) && Elements(a) !! Elements(b)
  {
    if b == [] {
      assert a + b == a;
    } else {
      DistinctSum(a, Front(b));
      ElementsOfSum(a, Front(b));
      assert Front(a + b) == a + Front(b);
    }
  }
}

/** A JavaScript Map: keys keep the order of their first insertion, also when a value is overwritten. */
module InsertionMaps {
  import opened Collections

  datatype InsertionMap<K(==), V> = InsertionMap(order: seq<K>, at: map<K, V>) {

    predicate Valid() {
      Distinct(order) && Elements(order) == at.Keys
    }

    function Get(k: K): Option<V> {
      if k in at then Some(at[k]) else None
    }

    function Set(k: K, v: V): (m: InsertionMap<K, V>)
      ensures Valid() ==> m.Valid()
    {
      Snoc(order, k, {});
      InsertionMap(if k in at then order else order + [k], at[k := v])
    }

    function Delete(k: K): (m: InsertionMap<K, V>)
      ensures Valid() ==> m.Valid()
    {
      MinusElements(order, {k});
      if k in at then InsertionMap(Minus(order, {k}), at - {k}) else this
    }
  }

  function EmptyMap<K(==), V>(): (m: InsertionMap<K, V>)
    ensures m.Valid()
  {
    InsertionMap([], map[])
  }
}
