/** The JavaScript array methods the services rely on: findIndex (and find, which returns the element at that index), filter (also a filter
    whose predicate reads `x.product.id`, which throws on an undefined product) and the stable
    Array.prototype.sort with a comparator `(a, b) => key(b) - key(a)`, newest/largest first. */
module ArrayOps {
  import opened Wrappers

  /** Array.prototype.findIndex: the first index whose element satisfies p. */
  function FindIndex<T>(s: seq<T>, p: T -> bool): (r: Option<nat>)
    ensures r.Some? ==> r.value < |s| && p(s[r.value])
    ensures r.Some? ==> forall j :: 0 <= j < r.value ==> !p(s[j])
    ensures r.None? <==> forall j :: 0 <= j < |s| ==> !p(s[j])
  {
    if s == [] then None
    else if p(s[0]) then Some(0)
    else match FindIndex(s[1..], p)
      case Some(i) => Some(i + 1)
      case None => None
  }

  /** Array.prototype.filter: the elements that satisfy p, in their order. */
  function Filter<T>(s: seq<T>, p: T -> bool): (r: seq<T>)
    ensures |r| <= |s|
    ensures forall x :: x in r ==> x in s && p(x)
    ensures forall j :: 0 <= j < |s| && p(s[j]) ==> s[j] in r
  {
    if s == [] then [] else (if p(s[0]) then [s[0]] else []) + Filter(s[1..], p)
  }

  lemma {:induction false} FilterMultiset<T>(s: seq<T>, p: T -> bool, x: T)
    ensures multiset(Filter(s, p))[x] == if p(x) then multiset(s)[x] else 0
  {
    if s != [] {
      FilterMultiset(s[1..], p, x);
      assert s == [s[0]] + s[1..];
    }
  }

  lemma {:induction false} FilterNone<T>(s: seq<T>, p: T -> bool)
    requires forall j :: 0 <= j < |s| ==> !p(s[j])
    ensures Filter(s, p) == []
  {
    if s != [] {
      FilterNone(s[1..], p);
    }
  }

  /** filter keeps the input order: filtering a concatenation filters each part in turn. */
  lemma {:induction false} FilterConcat<T>(a: seq<T>, b: seq<T>, p: T -> bool)
    ensures Filter(a + b, p) == Filter(a, p) + Filter(b, p)
  {
    if a != [] {
      assert (a + b)[0] == a[0];
      assert (a + b)[1..] == a[1..] + b;
      FilterConcat(a[1..], b, p);
    } else {
      assert a + b == b;
    }
  }

  /** `xs.filter(x => x.product.id === id)` where `productId(x)` is None when `x.product` is
      undefined: the read then throws a TypeError. */
  function FilterByProduct<T>(xs: seq<T>, productId: T -> Option<string>, id: string): (r: Result<seq<T>>)
    ensures r.Ok? <==> forall j :: 0 <= j < |xs| ==> productId(xs[j]).Some?
    ensures r.Err? ==> r.error == UndefinedProperty("id")
    ensures r.Ok? ==> |r.value| <= |xs|
    ensures r.Ok? ==> forall x :: x in r.value ==> x in xs && productId(x) == Some(id)
    ensures r.Ok? ==> forall j :: 0 <= j < |xs| && productId(xs[j]) == Some(id) ==> xs[j] in r.value
  {
    if xs == [] then Ok([])
    else
      match productId(xs[0])
      case None => Err(UndefinedProperty("id"))
      case Some(pid) =>
        var rest :- FilterByProduct(xs[1..], productId, id);
        assert xs == [xs[0]] + xs[1..];
        Ok(if pid == id then [xs[0]] + rest else rest)
  }

  /** The filter keeps every matching element as often as it occurs, and no other. */
  lemma {:induction false} FilterByProductMultiset<T>(xs: seq<T>, productId: T -> Option<string>, id: string, x: T)
    requires FilterByProduct(xs, productId, id).Ok?
    ensures multiset(FilterByProduct(xs, productId, id).value)[x]
         == if productId(x) == Some(id) then multiset(xs)[x] else 0
  {
    if xs != [] {
      FilterByProductMultiset(xs[1..], productId, id, x);
      assert xs == [xs[0]] + xs[1..];
    }
  }

  /** The product filter keeps the input order: over a concatenation it succeeds exactly when
      it succeeds on both parts, and then yields the two results one after the other. */
  lemma {:induction false} FilterByProductConcat<T>(a: seq<T>, b: seq<T>, productId: T -> Option<string>, id: string)
    ensures FilterByProduct(a + b, productId, id).Ok?
            <==> FilterByProduct(a, productId, id).Ok? && FilterByProduct(b, productId, id).Ok?
    ensures FilterByProduct(a + b, productId, id).Ok? ==>
              FilterByProduct(a + b, productId, id).value
              == FilterByProduct(a, productId, id).value + FilterByProduct(b, productId, id).value
  {
    if a != [] {
      assert (a + b)[0] == a[0];
      assert (a + b)[1..] == a[1..] + b;
      FilterByProductConcat(a[1..], b, productId, id);
    } else {
      assert a + b == b;
    }
  }

  /** No element has the product: the filter succeeds with nothing. */
  lemma {:induction false} FilterByProductNone<T>(xs: seq<T>, productId: T -> Option<string>, id: string)
    requires forall j :: 0 <= j < |xs| ==> productId(xs[j]).Some? && productId(xs[j]) != Some(id)
    ensures FilterByProduct(xs, productId, id) == Ok([])
  {
    if xs != [] {
      FilterByProductNone(xs[1..], productId, id);
    }
  }

  // ----- Stable sort, largest key first -----

  ghost predicate SortedDesc<T>(s: seq<T>, key: T -> int) {
    forall i, j :: 0 <= i < j < |s| ==> key(s[i]) >= key(s[j])
  }

  /** The elements of s whose key is k, in their order in s. */
  function WithKey<T>(s: seq<T>, key: T -> int, k: int): seq<T> {
    if s == [] then [] else (if key(s[0]) == k then [s[0]] else []) + WithKey(s[1..], key, k)
  }

  /** Inserts x before the first element whose key is not larger than x's: so x stays ahead
      of the elements with its key, which came after it in the input. */
  function InsertDesc<T>(x: T, s: seq<T>, key: T -> int): (r: seq<T>)
    ensures |r| == |s| + 1
    ensures multiset(r) == multiset(s) + multiset{x}
  {
    if s == [] || key(s[0]) <= key(x) then [x] + s
    else
      assert s == [s[0]] + s[1..];
      [s[0]] + InsertDesc(x, s[1..], key)
  }

  /** The array sorted by key, largest first, the way the stable Array.prototype.sort orders it. */
  function SortDesc<T>(s: seq<T>, key: T -> int): (r: seq<T>)
    ensures |r| == |s|
    ensures multiset(r) == multiset(s)
  {
    if s == [] then []
    else
      assert s == [s[0]] + s[1..];
      InsertDesc(s[0], SortDesc(s[1..], key), key)
  }

  /** Inserting an element whose key is at most b among elements whose keys are at most b. */
  lemma {:induction false} InsertDescBound<T>(x: T, s: seq<T>, key: T -> int, b: int)
    requires key(x) <= b
    requires forall i :: 0 <= i < |s| ==> key(s[i]) <= b
    ensures forall i :: 0 <= i < |InsertDesc(x, s, key)| ==> key(InsertDesc(x, s, key)[i]) <= b
  {
    if s == [] || key(s[0]) <= key(x) {
      var t := [x] + s;
      assert InsertDesc(x, s, key) == t;
      forall i | 0 <= i < |t| ensures key(t[i]) <= b {
        if i > 0 { assert t[i] == s[i - 1]; }
      }
    } else {
      InsertDescBound(x, s[1..], key, b);
      var r := InsertDesc(x, s[1..], key);
      var t := [s[0]] + r;
      assert InsertDesc(x, s, key) == t;
      forall i | 0 <= i < |t| ensures key(t[i]) <= b {
        if i > 0 { assert t[i] == r[i - 1]; }
      }
    }
  }

  lemma {:induction false} InsertDescSorted<T>(x: T, s: seq<T>, key: T -> int)
    requires SortedDesc(s, key)
    ensures SortedDesc(InsertDesc(x, s, key), key)
  {
    if s == [] || key(s[0]) <= key(x) {
      var t := [x] + s;
      assert InsertDesc(x, s, key) == t;
      forall i, j | 0 <= i < j < |t| ensures key(t[i]) >= key(t[j]) {
        assert t[j] == s[j - 1];
        if i > 0 { assert t[i] == s[i - 1]; }
        else if j > 1 { assert key(s[0]) >= key(s[j - 1]); }
      }
    } else {
      var s0, rest := s[0], s[1..];
      assert forall i :: 0 <= i < |rest| ==> rest[i] == s[i + 1];
      InsertDescSorted(x, rest, key);
      InsertDescBound(x, rest, key, key(s0));
      var r := InsertDesc(x, rest, key);
      var t := [s0] + r;
      assert InsertDesc(x, s, key) == t;
      forall i, j | 0 <= i < j < |t| ensures key(t[i]) >= key(t[j]) {
        assert t[j] == r[j - 1];
        if i > 0 { assert t[i] == r[i - 1]; }
      }
    }
  }

  lemma {:induction false} SortDescSorted<T>(s: seq<T>, key: T -> int)
    ensures SortedDesc(SortDesc(s, key), key)
  {
    if s != [] {
      SortDescSorted(s[1..], key);
      InsertDescSorted(s[0], SortDesc(s[1..], key), key);
    }
  }

  lemma WithKeyConsKeep<T>(y: T, t: seq<T>, key: T -> int, k: int)
    requires key(y) == k
    ensures WithKey([y] + t, key, k) == [y] + WithKey(t, key, k)
  {
    assert ([y] + t)[1..] == t;
  }

  lemma WithKeyConsSkip<T>(y: T, t: seq<T>, key: T -> int, k: int)
    requires key(y) != k
    ensures WithKey([y] + t, key, k) == WithKey(t, key, k)
  {
    assert ([y] + t)[1..] == t;
  }

  lemma {:induction false} InsertDescWithKey<T>(x: T, s: seq<T>, key: T -> int, k: int)
    ensures WithKey(InsertDesc(x, s, key), key, k)
         == (if key(x) == k then [x] else []) + WithKey(s, key, k)
  {
    if s == [] || key(s[0]) <= key(x) {
      assert InsertDesc(x, s, key) == [x] + s;
      if key(x) == k {
        WithKeyConsKeep(x, s, key, k);
      } else {
        WithKeyConsSkip(x, s, key, k);
      }
    } else {
      var s0, rest := s[0], s[1..];
      assert s == [s0] + rest;
      InsertDescWithKey(x, rest, key, k);
      var r := InsertDesc(x, rest, key);
      assert InsertDesc(x, s, key) == [s0] + r;
      if key(s0) == k {
        WithKeyConsKeep(s0, r, key, k);
        WithKeyConsKeep(s0, rest, key, k);
        assert key(x) != k;
      } else {
        WithKeyConsSkip(s0, r, key, k);
        WithKeyConsSkip(s0, rest, key, k);
      }
    }
  }

  /** Equal keys keep their input order: the sort is stable. */
  lemma {:induction false} SortDescStable<T>(s: seq<T>, key: T -> int, k: int)
    ensures WithKey(SortDesc(s, key), key, k) == WithKey(s, key, k)
  {
    if s != [] {
      SortDescStable(s[1..], key, k);
      InsertDescWithKey(s[0], SortDesc(s[1..], key), key, k);
    }
  }

  lemma {:induction false} WithKeyMember<T>(s: seq<T>, key: T -> int, k: int, y: T)
    requires y in WithKey(s, key, k)
    ensures y in s && key(y) == k
  {
    if s != [] && !(key(s[0]) == k && y == s[0]) {
      WithKeyMember(s[1..], key, k, y);
    }
  }

  lemma WithKeyHead<T>(s: seq<T>, key: T -> int)
    requires s != []
    ensures WithKey(s, key, key(s[0])) != []
  {
  }

  lemma SortedHeadMax<T>(s: seq<T>, key: T -> int, y: T)
    requires SortedDesc(s, key) && y in s
    ensures key(s[0]) >= key(y)
  {
    var i :| 0 <= i < |s| && s[i] == y;
    if i > 0 {
      assert key(s[0]) >= key(s[i]);
    }
  }

  /** Two sequences sorted largest key first that agree, key by key, on the order of their
      elements are equal. */
  lemma {:induction false} SortedStableEqual<T>(t1: seq<T>, t2: seq<T>, key: T -> int)
    requires SortedDesc(t1, key) && SortedDesc(t2, key)
    requires forall k :: WithKey(t1, key, k) == WithKey(t2, key, k)
    ensures t1 == t2
    decreases |t1|
  {
    if t1 == [] || t2 == [] {
      if t1 != [] {
        WithKeyHead(t1, key);
        assert false;
      } else if t2 != [] {
        WithKeyHead(t2, key);
        assert false;
      }
    } else {
      var k1, k2 := key(t1[0]), key(t2[0]);
      assert t1[0] in WithKey(t2, key, k1) by {
        assert WithKey(t1, key, k1)[0] == t1[0];
      }
      WithKeyMember(t2, key, k1, t1[0]);
      SortedHeadMax(t2, key, t1[0]);
      assert t2[0] in WithKey(t1, key, k2) by {
        assert WithKey(t2, key, k2)[0] == t2[0];
      }
      WithKeyMember(t1, key, k2, t2[0]);
      SortedHeadMax(t1, key, t2[0]);
      assert k1 == k2;
      assert t1[0] == t2[0] by {
        assert WithKey(t1, key, k1)[0] == t1[0];
        assert WithKey(t2, key, k1)[0] == t2[0];
      }
      forall k ensures WithKey(t1[1..], key, k) == WithKey(t2[1..], key, k) {
        assert WithKey(t1, key, k) == WithKey(t2, key, k);
        if k == k1 {
          assert WithKey(t1, key, k) == [t1[0]] + WithKey(t1[1..], key, k);
          assert WithKey(t2, key, k) == [t2[0]] + WithKey(t2[1..], key, k);
          assert WithKey(t1[1..], key, k) == WithKey(t1, key, k)[1..];
          assert WithKey(t2[1..], key, k) == WithKey(t2, key, k)[1..];
        } else {
          assert WithKey(t1, key, k) == WithKey(t1[1..], key, k);
          assert WithKey(t2, key, k) == WithKey(t2[1..], key, k);
        }
      }
      SortedStableEqual(t1[1..], t2[1..], key);
      assert t1 == [t1[0]] + t1[1..] && t2 == [t2[0]] + t2[1..];
    }
  }

  /** SortDesc is the only stable sort, largest key first: every sequence sorted that way that
      keeps the input order among equal keys is SortDesc's result. */
  lemma SortDescUnique<T>(s: seq<T>, t: seq<T>, key: T -> int)
    requires SortedDesc(t, key)
    requires forall k :: WithKey(t, key, k) == WithKey(s, key, k)
    ensures t == SortDesc(s, key)
  {
    SortDescSorted(s, key);
    forall k ensures WithKey(t, key, k) == WithKey(SortDesc(s, key), key, k) {
      SortDescStable(s, key, k);
    }
    SortedStableEqual(t, SortDesc(s, key), key);
  }
}
