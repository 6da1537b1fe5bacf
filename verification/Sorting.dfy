// Stable sorting by a lexicographic key, and what makes its result canonical.

module Sorting {
  /** The parts of a key in order: ranks and times first, then the bytes of an id. */
  type Key = seq<int>

  predicate Le(a: Key, b: Key) {
    a == [] || (b != [] && (a[0] < b[0] || (a[0] == b[0] && Le(a[1..], b[1..]))))
  }

  predicate Lt(a: Key, b: Key) { Le(a, b) && a != b }

  lemma {:induction false} LeTotal(a: Key, b: Key)
    ensures Le(a, b) || Le(b, a)
    ensures Le(a, b) && Le(b, a) ==> a == b
    ensures a == b ==> Le(a, b)
  {
    if a != [] && b != [] {
      LeTotal(a[1..], b[1..]);
      assert a == [a[0]] + a[1..] && b == [b[0]] + b[1..];
    }
  }

  lemma {:induction false} LeTransitive(a: Key, b: Key, c: Key)
    requires Le(a, b) && Le(b, c)
    ensures Le(a, c)
  {
    if a != [] && b[0] == a[0] && c[0] == b[0] {
      LeTransitive(a[1..], b[1..], c[1..]);
    }
  }

  // ---- Stable insertion sort ----

  function Insert<T>(x: T, s: seq<T>, key: T -> Key): (r: seq<T>)
    ensures multiset(r) == multiset{x} + multiset(s)
  {
    if s == [] || Le(key(x), key(s[0])) then [x] + s
    else
      assert s == [s[0]] + s[1..];
      [s[0]] + Insert(x, s[1..], key)
  }

  /** `sort_by_key`: equal keys keep their order. */
  function Sort<T>(s: seq<T>, key: T -> Key): (r: seq<T>)
    ensures multiset(r) == multiset(s) && |r| == |s|
  {
    if s == [] then []
    else
      assert s == [s[0]] + s[1..];
      var r := Insert(s[0], Sort(s[1..], key), key);
      assert |multiset(r)| == |multiset(s)|;
      r
  }

  predicate Ordered<T>(s: seq<T>, key: T -> Key) {
    forall i, j :: 0 <= i < j < |s| ==> Le(key(s[i]), key(s[j]))
  }

  lemma {:induction false} InsertOrdered<T>(x: T, s: seq<T>, key: T -> Key)
    requires Ordered(s, key)
    ensures Ordered(Insert(x, s, key), key)
  {
    if s == [] {
    } else if Le(key(x), key(s[0])) {
      forall j | 0 <= j < |s|
        ensures Le(key(x), key(s[j]))
      {
        if j > 0 {
          LeTransitive(key(x), key(s[0]), key(s[j]));
        }
      }
    } else {
      LeTotal(key(x), key(s[0]));
      InsertOrdered(x, s[1..], key);
      var r := Insert(x, s[1..], key);
      forall j | 0 <= j < |r|
        ensures Le(key(s[0]), key(r[j]))
      {
        assert r[j] in multiset(r);
        if r[j] != x {
          assert r[j] in s[1..];
        }
      }
    }
  }

  lemma {:induction false} SortOrders<T>(s: seq<T>, key: T -> Key)
    ensures Ordered(Sort(s, key), key)
  {
    if s == [] {
    } else {
      SortOrders(s[1..], key);
      InsertOrdered(s[0], Sort(s[1..], key), key);
    }
  }

  /** No two different elements share a key. */
  ghost predicate Distinguishes<T(!new)>(s: seq<T>, key: T -> Key) {
    forall x, y :: x in s && y in s && key(x) == key(y) ==> x == y
  }

  lemma SameHead<T(!new)>(s: seq<T>, t: seq<T>, key: T -> Key)
    requires multiset(s) == multiset(t) && s != [] && t != []
    requires Ordered(s, key) && Ordered(t, key) && Distinguishes(s, key)
    ensures s[0] == t[0]
  {
    assert s[0] in multiset(t) && t[0] in multiset(s);
    var i :| 0 <= i < |t| && t[i] == s[0];
    var j :| 0 <= j < |s| && s[j] == t[0];
    LeTotal(key(s[0]), key(t[0]));
  }

  lemma TailsMatch<T>(x: T, s: seq<T>, t: seq<T>)
    requires multiset([x] + s) == multiset([x] + t)
    ensures multiset(s) == multiset(t)
  {
    assert multiset([x] + s) == multiset{x} + multiset(s);
    assert multiset([x] + t) == multiset{x} + multiset(t);
    assert multiset(s) == multiset([x] + s) - multiset{x};
    assert multiset(t) == multiset([x] + t) - multiset{x};
  }

  lemma SameLength<T>(s: seq<T>, t: seq<T>)
    requires multiset(s) == multiset(t)
    ensures |s| == |t|
  {
    assert |s| == |multiset(s)|;
  }

  lemma {:induction false} OneOrder<T(!new)>(s: seq<T>, t: seq<T>, key: T -> Key)
    requires multiset(s) == multiset(t)
    requires Ordered(s, key) && Ordered(t, key) && Distinguishes(s, key)
    ensures s == t
  {
    SameLength(s, t);
    if s != [] {
      SameHead(s, t, key);
      assert s == [s[0]] + s[1..] && t == [s[0]] + t[1..];
      TailsMatch(s[0], s[1..], t[1..]);
      OneOrder(s[1..], t[1..], key);
    }
  }

  /** When keys tell elements apart, sorting forgets the order of the input. */
  lemma SortIsCanonical<T(!new)>(s: seq<T>, t: seq<T>, key: T -> Key)
    requires multiset(s) == multiset(t) && Distinguishes(s, key)
    ensures Sort(s, key) == Sort(t, key)
  {
    SortOrders(s, key);
    SortOrders(t, key);
    assert forall x :: x in Sort(s, key) ==> x in multiset(Sort(s, key));
    assert forall x :: x in multiset(s) ==> x in s;
    OneOrder(Sort(s, key), Sort(t, key), key);
  }

  // ---- Selecting ----

  function Keep<T>(s: seq<T>, p: T -> bool): seq<T> {
    if s == [] then [] else (if p(s[0]) then [s[0]] else []) + Keep(s[1..], p)
  }

  lemma {:induction false} KeepIn<T>(s: seq<T>, p: T -> bool, x: T)
    ensures x in Keep(s, p) <==> x in s && p(x)
  {
    if s == [] {
    } else {
      KeepIn(s[1..], p, x);
    }
  }

  lemma KeepFirst<T>(x: T, s: seq<T>, p: T -> bool)
    ensures Keep([x] + s, p) == if p(x) then [x] + Keep(s, p) else Keep(s, p)
  {
    assert ([x] + s)[1..] == s;
  }

  lemma InsertFirst<T>(x: T, s: seq<T>, key: T -> Key)
    ensures s == [] || Le(key(x), key(s[0])) ==> Insert(x, s, key) == [x] + s
  {
  }

  lemma InsertLater<T>(x: T, y: T, s: seq<T>, key: T -> Key)
    requires !Le(key(x), key(y))
    ensures Insert(x, [y] + s, key) == [y] + Insert(x, s, key)
  {
    assert ([y] + s)[1..] == s;
  }

  lemma KeepBelow<T>(x: T, s: seq<T>, key: T -> Key, p: T -> bool)
    requires Ordered(s, key) && (s == [] || Le(key(x), key(s[0])))
    ensures Insert(x, Keep(s, p), key) == [x] + Keep(s, p)
  {
    var kept := Keep(s, p);
    if kept != [] {
      KeepIn(s, p, kept[0]);
      var j :| 0 <= j < |s| && s[j] == kept[0];
      if j > 0 {
        LeTransitive(key(x), key(s[0]), key(s[j]));
      }
    }
    InsertFirst(x, kept, key);
  }

  lemma {:induction false} KeepInsert<T>(x: T, s: seq<T>, key: T -> Key, p: T -> bool)
    requires Ordered(s, key)
    ensures Keep(Insert(x, s, key), p) == if p(x) then Insert(x, Keep(s, p), key) else Keep(s, p)
  {
    if s == [] || Le(key(x), key(s[0])) {
      InsertFirst(x, s, key);
      KeepFirst(x, s, p);
      KeepBelow(x, s, key, p);
    } else {
      var y, rest := s[0], s[1..];
      assert s == [y] + rest;
      KeepInsert(x, rest, key, p);
      InsertLater(x, y, rest, key);
      KeepFirst(y, Insert(x, rest, key), p);
      KeepFirst(y, rest, p);
      InsertLater(x, y, Keep(rest, p), key);
    }
  }

  lemma SortFirst<T>(x: T, s: seq<T>, key: T -> Key)
    ensures Sort([x] + s, key) == Insert(x, Sort(s, key), key)
  {
    assert ([x] + s)[1..] == s;
  }

  lemma KeepSortedStep<T>(x: T, s: seq<T>, key: T -> Key, p: T -> bool)
    requires Keep(Sort(s, key), p) == Sort(Keep(s, p), key)
    ensures Keep(Sort([x] + s, key), p) == Sort(Keep([x] + s, p), key)
  {
    SortOrders(s, key);
    SortFirst(x, s, key);
    KeepInsert(x, Sort(s, key), key, p);
    KeepFirst(x, s, p);
    SortFirst(x, Keep(s, p), key);
  }

  /** Selecting from the sorted whole is sorting the selection. */
  lemma {:induction false} KeepSorted<T>(s: seq<T>, key: T -> Key, p: T -> bool)
    ensures Keep(Sort(s, key), p) == Sort(Keep(s, p), key)
  {
    if s == [] {
    } else {
      assert s == [s[0]] + s[1..];
      KeepSorted(s[1..], key, p);
      KeepSortedStep(s[0], s[1..], key, p);
    }
  }

  lemma {:induction false} KeepConcat<T>(s: seq<T>, t: seq<T>, p: T -> bool)
    ensures Keep(s + t, p) == Keep(s, p) + Keep(t, p)
  {
    if s == [] {
      assert s + t == t;
    } else {
      assert (s + t)[1..] == s[1..] + t;
      KeepConcat(s[1..], t, p);
    }
  }

  // ---- Distinct keys ----

  predicate DistinctKeys<T>(s: seq<T>, key: T -> Key) {
    forall i, j :: 0 <= i < j < |s| ==> key(s[i]) != key(s[j])
  }

  lemma DistinctDistinguishes<T(!new)>(s: seq<T>, key: T -> Key)
    requires DistinctKeys(s, key)
    ensures Distinguishes(s, key)
  {
    forall x, y | x in s && y in s && key(x) == key(y)
      ensures x == y
    {
      var i :| 0 <= i < |s| && s[i] == x;
      var j :| 0 <= j < |s| && s[j] == y;
    }
  }

  lemma {:induction false} DistinctOnce<T>(s: seq<T>, key: T -> Key, x: T)
    requires DistinctKeys(s, key) && x in s
    ensures multiset(s)[x] == 1
  {
    assert s == [s[0]] + s[1..];
    if x in s[1..] {
      var j :| 0 <= j < |s[1..]| && s[1..][j] == x;
      assert s[j + 1] == x;
      DistinctOnce(s[1..], key, x);
    }
  }

  lemma {:induction false} InsertDistinct<T>(x: T, s: seq<T>, key: T -> Key)
    requires DistinctKeys(s, key) && forall y :: y in s ==> key(y) != key(x)
    ensures DistinctKeys(Insert(x, s, key), key)
  {
    if s != [] && !Le(key(x), key(s[0])) {
      assert s == [s[0]] + s[1..];
      InsertDistinct(x, s[1..], key);
      var r := Insert(x, s[1..], key);
      forall j | 0 <= j < |r|
        ensures key(s[0]) != key(r[j])
      {
        assert r[j] in multiset(r);
        assert s[0] in s;
        if r[j] != x {
          assert r[j] in s[1..];
        }
      }
    }
  }

  lemma {:induction false} SortDistinct<T>(s: seq<T>, key: T -> Key)
    requires DistinctKeys(s, key)
    ensures DistinctKeys(Sort(s, key), key)
  {
    if s == [] {
    } else {
      SortDistinct(s[1..], key);
      forall y | y in Sort(s[1..], key)
        ensures key(y) != key(s[0])
      {
        assert y in multiset(s[1..]);
        var j :| 0 <= j < |s[1..]| && s[1..][j] == y;
        assert s[j + 1] == y;
      }
      InsertDistinct(s[0], Sort(s[1..], key), key);
    }
  }

  lemma {:induction false} TwoInserts<T>(x: T, y: T, s: seq<T>, key: T -> Key)
    requires key(x) == key(y) && x != y
    ensures Insert(x, Insert(y, s, key), key) != Insert(y, Insert(x, s, key), key)
  {
    LeTotal(key(x), key(y));
    if s == [] || Le(key(x), key(s[0])) {
      InsertFirst(x, s, key);
      InsertFirst(y, s, key);
      InsertFirst(x, [y] + s, key);
      InsertFirst(y, [x] + s, key);
      assert ([x] + ([y] + s))[0] != ([y] + ([x] + s))[0];
    } else {
      var z, rest := s[0], s[1..];
      assert s == [z] + rest;
      TwoInserts(x, y, rest, key);
      InsertLater(x, z, rest, key);
      InsertLater(y, z, rest, key);
      InsertLater(x, z, Insert(y, rest, key), key);
      InsertLater(y, z, Insert(x, rest, key), key);
      var a, b := Insert(x, Insert(y, rest, key), key), Insert(y, Insert(x, rest, key), key);
      assert ([z] + a)[1..] == a && ([z] + b)[1..] == b;
    }
  }

  /** Only then: two different elements with one key come out in the order they went in. */
  lemma TiesKeepOrder<T>(x: T, y: T, rest: seq<T>, key: T -> Key)
    requires key(x) == key(y) && x != y
    ensures multiset([x, y] + rest) == multiset([y, x] + rest)
    ensures Sort([x, y] + rest, key) != Sort([y, x] + rest, key)
  {
    assert [x, y] + rest == [x] + ([y] + rest) && [y, x] + rest == [y] + ([x] + rest);
    SortFirst(x, [y] + rest, key);
    SortFirst(y, rest, key);
    SortFirst(y, [x] + rest, key);
    SortFirst(x, rest, key);
    TwoInserts(x, y, Sort(rest, key), key);
  }

  // ---- Concatenating what each element gives ----

  function FlatMap<A, B>(s: seq<A>, f: A -> seq<B>): seq<B> {
    if s == [] then [] else f(s[0]) + FlatMap(s[1..], f)
  }

  lemma {:induction false} FlatMapConcat<A, B>(s: seq<A>, t: seq<A>, f: A -> seq<B>)
    ensures FlatMap(s + t, f) == FlatMap(s, f) + FlatMap(t, f)
  {
    if s == [] {
      assert s + t == t;
    } else {
      assert (s + t)[1..] == s[1..] + t;
      FlatMapConcat(s[1..], t, f);
    }
  }

  lemma FlatMapOne<A, B>(x: A, f: A -> seq<B>)
    ensures FlatMap([x], f) == f(x)
  {
    assert FlatMap([x][1..], f) == [];
  }

  lemma {:induction false} FlatMapHas<A, B>(s: seq<A>, f: A -> seq<B>, y: B)
    ensures y in FlatMap(s, f) <==> exists i :: 0 <= i < |s| && y in f(s[i])
  {
    if s == [] {
    } else {
      FlatMapHas(s[1..], f, y);
      if y in FlatMap(s[1..], f) {
        var i :| 0 <= i < |s[1..]| && y in f(s[1..][i]);
        assert y in f(s[i + 1]);
      }
      if i :| 0 < i < |s| && y in f(s[i]) {
        assert s[1..][i - 1] == s[i];
      }
    }
  }

  lemma FlatMapMiddle<A, B>(pre: seq<A>, x: A, post: seq<A>, f: A -> seq<B>)
    ensures FlatMap(pre + ([x] + post), f) == FlatMap(pre, f) + (f(x) + FlatMap(post, f))
    ensures multiset(FlatMap(pre + ([x] + post), f)) == multiset(f(x)) + multiset(FlatMap(pre + post, f))
  {
    FlatMapConcat(pre, [x] + post, f);
    FlatMapConcat([x], post, f);
    FlatMapOne(x, f);
    FlatMapConcat(pre, post, f);
  }

  lemma Removing<A>(x: A, t: seq<A>) returns (pre: seq<A>, post: seq<A>)
    requires x in t
    ensures t == pre + ([x] + post) && multiset(t) == multiset([x] + (pre + post)) && |pre + post| == |t| - 1
  {
    var i :| 0 <= i < |t| && t[i] == x;
    pre, post := t[..i], t[i + 1..];
    assert t == pre + ([x] + post);
  }

  /** Rearranging the elements rearranges what they give. */
  lemma {:induction false} FlatMapPermute<A, B>(s: seq<A>, t: seq<A>, f: A -> seq<B>)
    requires multiset(s) == multiset(t)
    ensures multiset(FlatMap(s, f)) == multiset(FlatMap(t, f))
  {
    SameLength(s, t);
    if s != [] {
      assert s == [s[0]] + s[1..];
      assert s[0] in multiset(s);
      var pre, post := Removing(s[0], t);
      TailsMatch(s[0], s[1..], pre + post);
      FlatMapPermute(s[1..], pre + post, f);
      FlatMapMiddle(pre, s[0], post, f);
    }
  }

  // ---- When order matters ----

  /** Every arrangement of the same elements sorts alike. */
  ghost predicate OrderFree<T(!new)>(s: seq<T>, key: T -> Key) {
    forall t :: multiset(t) == multiset(s) ==> Sort(t, key) == Sort(s, key)
  }

  lemma TwoRemoved<T>(s: seq<T>, x: T, y: T) returns (rest: seq<T>)
    requires x in s && y in s && x != y
    ensures multiset([x, y] + rest) == multiset(s)
  {
    var pre, post := Removing(x, s);
    var others := pre + post;
    assert multiset(s) == multiset{x} + multiset(others);
    assert y in multiset(s);
    assert y in others;
    var pre', post' := Removing(y, others);
    rest := pre' + post';
    assert multiset([x, y] + rest) == multiset{x} + multiset([y] + rest);
  }

  lemma TwoOrders<T>(s: seq<T>, key: T -> Key, x: T, y: T) returns (t: seq<T>, u: seq<T>)
    requires x in s && y in s && key(x) == key(y) && x != y
    ensures multiset(t) == multiset(s) && multiset(u) == multiset(s) && Sort(t, key) != Sort(u, key)
  {
    var rest := TwoRemoved(s, x, y);
    TiesKeepOrder(x, y, rest, key);
    t, u := [x, y] + rest, [y, x] + rest;
  }

  lemma TiesMatter<T(!new)>(s: seq<T>, key: T -> Key, x: T, y: T)
    requires x in s && y in s && key(x) == key(y) && x != y
    ensures !OrderFree(s, key)
  {
    var t, u := TwoOrders(s, key, x, y);
    assert Sort(t, key) != Sort(s, key) || Sort(u, key) != Sort(s, key);
  }

  lemma NoTiesNoMatter<T(!new)>(s: seq<T>, key: T -> Key)
    requires Distinguishes(s, key)
    ensures OrderFree(s, key)
  {
    forall t | multiset(t) == multiset(s)
      ensures Sort(t, key) == Sort(s, key)
    {
      SortIsCanonical(s, t, key);
    }
  }

  /** A sort by key forgets the order of its input exactly when no two different elements tie. */
  lemma OrderFreeIff<T(!new)>(s: seq<T>, key: T -> Key)
    ensures OrderFree(s, key) <==> Distinguishes(s, key)
  {
    if Distinguishes(s, key) {
      NoTiesNoMatter(s, key);
    } else {
      var x, y :| x in s && y in s && key(x) == key(y) && x != y;
      TiesMatter(s, key, x, y);
    }
  }

  lemma {:induction false} SortEqualKeys<T>(s: seq<T>, key: T -> Key, k: Key)
    requires forall x :: x in s ==> key(x) == k
    ensures Sort(s, key) == s
  {
    if s == [] {
    } else {
      assert s == [s[0]] + s[1..];
      SortEqualKeys(s[1..], key, k);
      LeTotal(k, k);
      InsertFirst(s[0], s[1..], key);
    }
  }

  /** Elements with one key stay in the order they came in. */
  lemma TiesStay<T>(s: seq<T>, key: T -> Key, k: Key, tied: T -> bool)
    requires forall x :: x in s ==> (tied(x) <==> key(x) == k)
    ensures Keep(Sort(s, key), tied) == Keep(s, tied)
  {
    KeepSorted(s, key, tied);
    forall x | x in Keep(s, tied)
      ensures key(x) == k
    {
      KeepIn(s, tied, x);
    }
    SortEqualKeys(Keep(s, tied), key, k);
  }

  // ---- Counting ----

  lemma {:induction false} KeepCounts<T>(s: seq<T>, p: T -> bool, x: T)
    ensures multiset(Keep(s, p))[x] == if p(x) then multiset(s)[x] else 0
  {
    if s == [] {
    } else {
      assert s == [s[0]] + s[1..];
      KeepCounts(s[1..], p, x);
    }
  }

  lemma KeepPermute<T(!new)>(s: seq<T>, t: seq<T>, p: T -> bool)
    requires multiset(s) == multiset(t)
    ensures multiset(Keep(s, p)) == multiset(Keep(t, p))
  {
    forall x
      ensures multiset(Keep(s, p))[x] == multiset(Keep(t, p))[x]
    {
      KeepCounts(s, p, x);
      KeepCounts(t, p, x);
    }
  }

  lemma {:induction false} KeepSame<T>(s: seq<T>, p: T -> bool, q: T -> bool)
    requires forall x :: x in s ==> p(x) == q(x)
    ensures Keep(s, p) == Keep(s, q)
  {
    if s == [] {
    } else {
      assert s == [s[0]] + s[1..];
      KeepSame(s[1..], p, q);
    }
  }

  lemma {:induction false} KeepKeep<T>(s: seq<T>, p: T -> bool, q: T -> bool, both: T -> bool)
    requires forall x :: x in s ==> (both(x) <==> p(x) && q(x))
    ensures Keep(Keep(s, p), q) == Keep(s, both)
  {
    if s == [] {
    } else {
      assert s == [s[0]] + s[1..];
      KeepKeep(s[1..], p, q, both);
      if p(s[0]) {
        KeepFirst(s[0], Keep(s[1..], p), q);
      } else {
        assert Keep(s, p) == Keep(s[1..], p);
      }
    }
  }

  lemma Contributor<A, B>(s: seq<A>, gives: A -> seq<B>, x: B) returns (a: A)
    requires x in FlatMap(s, gives)
    ensures a in s && x in gives(a)
  {
    FlatMapHas(s, gives, x);
    var i :| 0 <= i < |s| && x in gives(s[i]);
    a := s[i];
  }

  lemma NoneGives<A, B>(s: seq<A>, f: A -> seq<B>, x: B)
    requires forall y :: y in s ==> x !in f(y)
    ensures multiset(FlatMap(s, f))[x] == 0
  {
    if x in multiset(FlatMap(s, f)) {
      var y := Contributor(s, f, x);
    }
  }

  /** What only one element gives is counted there. */
  lemma FlatMapCount<A, B>(s: seq<A>, f: A -> seq<B>, k: nat, x: B)
    requires k < |s| && forall i :: 0 <= i < |s| && i != k ==> x !in f(s[i])
    ensures multiset(FlatMap(s, f))[x] == multiset(f(s[k]))[x]
  {
    var pre, post := s[..k], s[k + 1..];
    assert s == pre + ([s[k]] + post);
    FlatMapMiddle(pre, s[k], post, f);
    FlatMapConcat(pre, post, f);
    NoneGives(pre, f, x);
    NoneGives(post, f, x);
  }

  lemma SortedHas<T>(s: seq<T>, key: T -> Key, x: T)
    ensures x in Sort(s, key) <==> x in s
  {
    assert x in Sort(s, key) <==> x in multiset(Sort(s, key));
    assert x in s <==> x in multiset(s);
  }
}
