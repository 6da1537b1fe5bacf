// The bounded composition cache: a map and a recency list, least recent first.
// A composition's Ledger revision is part of its key.

module CompositionCache {
  import opened Prelude

  // ---- Recency lists ----

  function Without<K(==)>(s: seq<K>, k: K): seq<K> {
    if s == [] then [] else if s[0] == k then Without(s[1..], k) else [s[0]] + Without(s[1..], k)
  }

  function Touched<K(==)>(s: seq<K>, k: K): seq<K> { Without(s, k) + [k] }

  predicate Distinct<K(==)>(s: seq<K>) { forall i, j :: 0 <= i < j < |s| ==> s[i] != s[j] }

  lemma WithoutFirst<K>(x: K, s: seq<K>, k: K)
    ensures Without([x] + s, k) == if x == k then Without(s, k) else [x] + Without(s, k)
  {
    assert ([x] + s)[1..] == s;
  }

  lemma {:induction false} WithoutHas<K>(s: seq<K>, k: K)
    ensures forall x :: x in Without(s, k) <==> x in s && x != k
  {
    if s == [] {
    } else {
      assert s == [s[0]] + s[1..];
      WithoutHas(s[1..], k);
    }
  }

  lemma {:induction false} WithoutAbsent<K>(s: seq<K>, k: K)
    requires k !in s
    ensures Without(s, k) == s
  {
    if s == [] {
    } else {
      assert s == [s[0]] + s[1..];
      WithoutAbsent(s[1..], k);
    }
  }

  lemma {:induction false} WithoutDistinct<K>(s: seq<K>, k: K)
    requires Distinct(s)
    ensures Distinct(Without(s, k)) && |Without(s, k)| == if k in s then |s| - 1 else |s|
  {
    if s == [] {
    } else {
      var x, rest := s[0], s[1..];
      assert s == [x] + rest;
      assert x !in rest && Distinct(rest);
      WithoutDistinct(rest, k);
      WithoutHas(rest, k);
    }
  }

  lemma WithoutMiddle<K>(pre: seq<K>, k: K, post: seq<K>)
    requires k !in pre && k !in post
    ensures Without(pre + ([k] + post), k) == pre + post
  {
    WithoutConcat(pre, [k] + post, k);
    WithoutFirst(k, post, k);
    WithoutAbsent(pre, k);
    WithoutAbsent(post, k);
  }

  lemma {:induction false} WithoutConcat<K>(s: seq<K>, t: seq<K>, k: K)
    ensures Without(s + t, k) == Without(s, k) + Without(t, k)
  {
    if s == [] {
      assert s + t == t;
    } else {
      assert (s + t)[1..] == s[1..] + t;
      WithoutConcat(s[1..], t, k);
    }
  }

  // ---- The cache ----

  datatype Lru<K, V> = Lru(capacity: nat, entries: map<K, V>, usage: seq<K>)

  ghost predicate Sound<K(!new), V>(c: Lru<K, V>) {
    && Distinct(c.usage)
    && (forall k :: k in c.usage <==> k in c.entries)
    && |c.usage| == |c.entries| <= c.capacity
  }

  function GetState<K(!new), V>(c: Lru<K, V>, k: K): Lru<K, V> {
    if k in c.entries then c.(usage := Touched(c.usage, k)) else c
  }

  function PutState<K(!new), V>(c: Lru<K, V>, k: K, v: V): Lru<K, V> {
    if c.capacity == 0 then c
    else if k !in c.entries && |c.entries| == c.capacity && c.usage != [] then
      Lru(c.capacity, (c.entries - {c.usage[0]})[k := v], Touched(c.usage[1..], k))
    else Lru(c.capacity, c.entries[k := v], Touched(c.usage, k))
  }

  function ClearState<K(!new), V>(c: Lru<K, V>): Lru<K, V> { Lru(c.capacity, map[], []) }

  class Cache<K(!new, ==), V> {
    const capacity: nat
    var entries: map<K, V>
    var usage: seq<K>

    function State(): Lru<K, V>
      reads this
    {
      Lru(capacity, entries, usage)
    }

    ghost predicate Valid()
      reads this
    {
      Sound(State())
    }

    constructor (capacity: nat)
      ensures Valid() && State() == Lru(capacity, map[], [])
    {
      this.capacity, entries, usage := capacity, map[], [];
    }

    method Touch(k: K)
      requires Distinct(usage)
      modifies this`usage
      ensures usage == Touched(old(usage), k)
    {
      var position := 0;
      while position < |usage| && usage[position] != k
        invariant position <= |usage| && usage == old(usage) && k !in usage[..position]
      {
        position := position + 1;
      }
      WithoutAt(usage, position, k);
      if position < |usage| {
        usage := usage[..position] + usage[position + 1..];
      }
      usage := usage + [k];
    }

    /** A composition built at exactly this key, or nothing; a hit becomes the most recent. */
    method Get(k: K) returns (found: Option<V>)
      requires Valid()
      modifies this`usage
      ensures Valid() && State() == GetState(old(State()), k)
      ensures found == Look(entries, k)
    {
      GetStaysSound(State(), k);
      if k !in entries { return None; }
      Touch(k);
      found := Some(entries[k]);
    }

    method Put(k: K, v: V)
      requires Valid()
      modifies this`entries, this`usage
      ensures Valid() && State() == PutState(old(State()), k, v)
    {
      PutStaysSound(State(), k, v);
      if capacity == 0 { return; }
      if k !in entries && |entries| == capacity {
        if usage != [] {
          entries := entries - {usage[0]};
          usage := usage[1..];
        }
      }
      entries := entries[k := v];
      Touch(k);
    }

    method Clear()
      modifies this`entries, this`usage
      ensures Valid() && State() == ClearState(old(State()))
    {
      entries, usage := map[], [];
    }

    /** Read-through use: the answer is the computed one whether or not it was cached. */
    method Query(k: K, compute: K -> V) returns (v: V)
      requires Valid() && Agrees(State(), compute)
      modifies this`entries, this`usage
      ensures Valid() && Agrees(State(), compute)
      ensures v == compute(k) && State() == Accessed(old(State()), k, compute)
    {
      var found := Get(k);
      if found.Some? {
        v := found.value;
      } else {
        v := compute(k);
        Put(k, v);
      }
    }
  }

  lemma NotLater<K>(s: seq<K>, position: nat)
    requires Distinct(s) && position < |s|
    ensures s[position] !in s[position + 1..]
  {
    forall j | position < j < |s|
      ensures s[j] != s[position]
    {
    }
  }

  lemma WithoutAt<K>(s: seq<K>, position: nat, k: K)
    requires Distinct(s) && position <= |s| && k !in s[..position] && (position < |s| ==> s[position] == k)
    ensures Without(s, k) == if position < |s| then s[..position] + s[position + 1..] else s
  {
    if position < |s| {
      NotLater(s, position);
      WithoutMiddle(s[..position], k, s[position + 1..]);
      Rejoin(s, position);
    } else {
      assert s[..position] == s;
      WithoutAbsent(s, k);
    }
  }

  lemma Rejoin<K>(s: seq<K>, position: nat)
    requires position < |s|
    ensures s[..position] + ([s[position]] + s[position + 1..]) == s
  {
  }

  lemma TouchStaysSound<K(!new), V>(c: Lru<K, V>, k: K)
    requires Distinct(c.usage) && k in c.entries && |c.entries| <= c.capacity
    requires forall x :: x in c.usage ==> x in c.entries
    requires forall x :: x in c.entries ==> x in c.usage || x == k
    requires |c.usage| == if k in c.usage then |c.entries| else |c.entries| - 1
    ensures Sound(c.(usage := Touched(c.usage, k)))
  {
    WithoutHas(c.usage, k);
    WithoutDistinct(c.usage, k);
  }

  lemma GetStaysSound<K(!new), V>(c: Lru<K, V>, k: K)
    requires Sound(c)
    ensures Sound(GetState(c, k))
  {
    if k in c.entries {
      TouchStaysSound(c, k);
    }
  }

  lemma Replacing<K, V>(m: map<K, V>, oldest: K, k: K, v: V) returns (n: map<K, V>)
    requires oldest in m && k !in m
    ensures n == (m - {oldest})[k := v] && |n| == |m|
    ensures forall x :: x in n <==> (x in m && x != oldest) || x == k
  {
    n := (m - {oldest})[k := v];
    assert n.Keys == m.Keys - {oldest} + {k};
    assert |m.Keys - {oldest} + {k}| == |m.Keys|;
    assert |n| == |n.Keys| && |m| == |m.Keys|;
  }

  lemma HeadAndTail<K(!new)>(s: seq<K>) returns (head: K, tail: seq<K>)
    requires s != [] && Distinct(s)
    ensures head == s[0] && tail == s[1..] && Distinct(tail) && |tail| == |s| - 1
    ensures head !in tail && forall x :: x in s <==> x == head || x in tail
  {
    head, tail := s[0], s[1..];
    assert s == [head] + tail;
  }

  lemma EvictStaysSound<K(!new), V>(c: Lru<K, V>, k: K, v: V)
    requires Sound(c) && k !in c.entries && |c.entries| == c.capacity > 0
    ensures Sound(PutState(c, k, v))
  {
    var oldest, rest := HeadAndTail(c.usage);
    var entries := Replacing(c.entries, oldest, k, v);
    EvictedIsSound(Lru(c.capacity, entries, rest), c, oldest, k);
  }

  lemma EvictedIsSound<K(!new), V>(d: Lru<K, V>, c: Lru<K, V>, oldest: K, k: K)
    requires Sound(c) && k !in c.entries && d.capacity == c.capacity && |d.entries| == |c.entries|
    requires Distinct(d.usage) && |d.usage| == |c.usage| - 1
    requires oldest !in d.usage && forall x :: x in c.usage <==> x == oldest || x in d.usage
    requires forall x :: x in d.entries <==> (x in c.entries && x != oldest) || x == k
    ensures Sound(d.(usage := Touched(d.usage, k)))
  {
    TouchStaysSound(d, k);
  }

  lemma PutStaysSound<K(!new), V>(c: Lru<K, V>, k: K, v: V)
    requires Sound(c)
    ensures Sound(PutState(c, k, v))
  {
    if c.capacity > 0 {
      if k !in c.entries && |c.entries| == c.capacity {
        EvictStaysSound(c, k, v);
      } else {
        var entries := c.entries[k := v];
        assert entries.Keys == c.entries.Keys + {k};
        assert |entries| == |entries.Keys| && |c.entries| == |c.entries.Keys|;
        assert k in c.entries ==> c.entries.Keys + {k} == c.entries.Keys;
        TouchStaysSound(c.(entries := entries), k);
      }
    }
  }

  function AfterEviction<K(!new), V>(c: Lru<K, V>, k: K): seq<K> {
    if k !in c.entries && |c.entries| == c.capacity && c.usage != [] then c.usage[1..] else c.usage
  }

  lemma PutUsage<K(!new), V>(c: Lru<K, V>, k: K, v: V)
    requires c.capacity > 0
    ensures PutState(c, k, v).usage == Touched(AfterEviction(c, k), k)
    ensures PutState(c, k, v).capacity == c.capacity
    ensures PutState(c, k, v).entries ==
            (if AfterEviction(c, k) != c.usage then c.entries - {c.usage[0]} else c.entries)[k := v]
  {
    if c.usage != [] {
      assert |c.usage[1..]| < |c.usage|;
    }
  }

  lemma PutLength<K(!new), V>(c: Lru<K, V>, k: K, v: V)
    requires Sound(c) && c.capacity > 0
    ensures |PutState(c, k, v).usage| ==
            if k in c.usage || |c.usage| == c.capacity then |c.usage| else |c.usage| + 1
  {
    PutUsage(c, k, v);
    WithoutDistinct(AfterEviction(c, k), k);
    if k !in c.usage && |c.usage| == c.capacity {
      var oldest, rest := HeadAndTail(c.usage);
    }
  }

  // ---- Traces of queries and clears ----

  datatype Event<K> = Access(k: K) | Clear

  function Accessed<K(!new), V>(c: Lru<K, V>, k: K, compute: K -> V): Lru<K, V> {
    if k in c.entries then GetState(c, k) else PutState(GetState(c, k), k, compute(k))
  }

  function Step<K(!new), V>(c: Lru<K, V>, e: Event<K>, compute: K -> V): Lru<K, V> {
    match e
    case Access(k) => Accessed(c, k, compute)
    case Clear => ClearState(c)
  }

  function Trace<K(!new), V>(capacity: nat, es: seq<Event<K>>, compute: K -> V): Lru<K, V> {
    if es == [] then Lru(capacity, map[], [])
    else Step(Trace(capacity, es[..|es| - 1], compute), es[|es| - 1], compute)
  }

  ghost predicate Agrees<K(!new), V>(c: Lru<K, V>, compute: K -> V) {
    forall k :: k in c.entries ==> c.entries[k] == compute(k)
  }

  /** The distinct keys queried since the last clear, by last query, oldest first. */
  function Recency<K(==)>(es: seq<Event<K>>): seq<K> {
    if es == [] then []
    else
      var e := es[|es| - 1];
      if e.Clear? then [] else Touched(Recency(es[..|es| - 1]), e.k)
  }

  /** The last at most `n` of `s`. */
  function Last<K>(s: seq<K>, n: nat): (t: seq<K>)
    ensures |t| == if n < |s| then n else |s|
  {
    if n < |s| then s[|s| - n..] else s
  }

  ghost predicate Queried<K>(es: seq<Event<K>>, i: nat, k: K) {
    i < |es| && es[i] == Access(k) && forall j :: i <= j < |es| ==> es[j].Access?
  }

  /** `i` is the last query of `k`, with no clear since. */
  ghost predicate LastQuery<K>(es: seq<Event<K>>, i: nat, k: K) {
    Queried(es, i, k) && forall j :: i < j < |es| ==> es[j] != Access(k)
  }

  /** Each key of `r` with its last query, in order. */
  ghost predicate ByLastQuery<K(!new)>(es: seq<Event<K>>, r: seq<K>, at: seq<nat>) {
    && |at| == |r|
    && (forall i :: 0 <= i < |r| ==> LastQuery(es, at[i], r[i]))
    && (forall i, j :: 0 <= i < j < |at| ==> at[i] < at[j])
  }

  lemma ByLastQueryDistinct<K(!new)>(es: seq<Event<K>>, r: seq<K>, at: seq<nat>)
    requires ByLastQuery(es, r, at)
    ensures Distinct(r)
  {
    forall i, j | 0 <= i < j < |r|
      ensures r[i] != r[j]
    {
      assert LastQuery(es, at[i], r[i]) && LastQuery(es, at[j], r[j]);
    }
  }

  /** Recency is by last query: each key queried since the last clear stands once, after every key
      last queried before it. */
  lemma {:induction false} RecencyIsByLastQuery<K(!new)>(es: seq<Event<K>>) returns (at: seq<nat>)
    ensures ByLastQuery(es, Recency(es), at) && Distinct(Recency(es))
    ensures forall i: nat, k :: Queried(es, i, k) ==> k in Recency(es)
  {
    at := [];
    if es != [] && es[|es| - 1].Access? {
      var k := es[|es| - 1].k;
      var es' := es[..|es| - 1];
      var before := RecencyIsByLastQuery(es');
      var last: nat := |es| - 1;
      at := WithoutIndices(Recency(es'), before, k) + [last];
      LastQueriesExtend(es, before, Recency(es'), k);
      ByLastQueryDistinct(es, Recency(es), at);
      WithoutHas(Recency(es'), k);
      forall i: nat, x | Queried(es, i, x)
        ensures x in Recency(es)
      {
        if i < |es'| {
          assert Queried(es', i, x);
        }
      }
    }
  }

  function WithoutIndices<K(==)>(s: seq<K>, at: seq<nat>, k: K): seq<nat>
    requires |s| == |at|
  {
    if s == [] then []
    else if s[0] == k then WithoutIndices(s[1..], at[1..], k)
    else [at[0]] + WithoutIndices(s[1..], at[1..], k)
  }

  /** `x`, not `k`, stands in `s` where `at` says `n`. */
  ghost predicate StandsAt<K>(s: seq<K>, at: seq<nat>, k: K, x: K, n: nat) {
    exists j :: 0 <= j < |s| && j < |at| && s[j] == x != k && at[j] == n
  }

  lemma StandsLater<K>(s: seq<K>, at: seq<nat>, k: K, x: K, n: nat)
    requires s != [] && at != [] && StandsAt(s[1..], at[1..], k, x, n)
    ensures StandsAt(s, at, k, x, n)
    ensures (forall i, j :: 0 <= i < j < |at| ==> at[i] < at[j]) ==> at[0] < n
  {
    var j :| 0 <= j < |s[1..]| && j < |at[1..]| && s[1..][j] == x != k && at[1..][j] == n;
    assert s[j + 1] == x && at[j + 1] == n;
  }

  lemma {:induction false} WithoutKeepsIndices<K>(s: seq<K>, at: seq<nat>, k: K)
    requires |s| == |at| && forall i, j :: 0 <= i < j < |at| ==> at[i] < at[j]
    ensures
      var t, u := Without(s, k), WithoutIndices(s, at, k);
      && |t| == |u|
      && (forall i :: 0 <= i < |t| ==> StandsAt(s, at, k, t[i], u[i]))
      && (forall i, j :: 0 <= i < j < |u| ==> u[i] < u[j])
  {
    if s == [] {
    } else {
      WithoutKeepsIndices(s[1..], at[1..], k);
      var t, u := Without(s[1..], k), WithoutIndices(s[1..], at[1..], k);
      forall i | 0 <= i < |t|
        ensures StandsAt(s, at, k, t[i], u[i]) && at[0] < u[i]
      {
        StandsLater(s, at, k, t[i], u[i]);
      }
      if s[0] != k {
        assert StandsAt(s, at, k, s[0], at[0]);
      }
    }
  }

  lemma LastQueriesExtend<K(!new)>(es: seq<Event<K>>, at: seq<nat>, r: seq<K>, k: K)
    requires es != [] && es[|es| - 1] == Access(k)
    requires ByLastQuery(es[..|es| - 1], r, at)
    ensures ByLastQuery(es, Touched(r, k), WithoutIndices(r, at, k) + [|es| - 1])
  {
    WithoutKeepsIndices(r, at, k);
    var t, u := Without(r, k), WithoutIndices(r, at, k);
    var es' := es[..|es| - 1];
    forall i | 0 <= i < |t|
      ensures LastQuery(es, u[i], t[i]) && u[i] < |es| - 1
    {
      assert StandsAt(r, at, k, t[i], u[i]);
      var j :| 0 <= j < |r| && j < |at| && r[j] == t[i] != k && at[j] == u[i];
      assert LastQuery(es', at[j], r[j]);
    }
    assert LastQuery(es, |es| - 1, k);
  }

  // ---- Main results ----

  lemma LastTouchedIn<K>(pre: seq<K>, u: seq<K>, k: K)
    requires k !in pre
    ensures Touched(pre + u, k) == pre + Touched(u, k)
  {
    WithoutConcat(pre, u, k);
    WithoutAbsent(pre, k);
  }

  lemma LastTouchedOut<K>(pre: seq<K>, u: seq<K>, k: K)
    requires k !in u
    ensures Touched(pre + u, k) == Without(pre, k) + (u + [k])
  {
    WithoutConcat(pre, u, k);
    WithoutAbsent(u, k);
  }

  lemma LastOfConcat<K>(pre: seq<K>, u: seq<K>, n: nat)
    requires |u| == n || (pre == [] && |u| <= n)
    ensures Last(pre + u, n) == u
  {
  }

  /** What one query does to the last `n` of a recency list. */
  lemma LastTouched<K>(r: seq<K>, n: nat, k: K)
    requires Distinct(r) && n > 0
    ensures
      var u := Last(r, n);
      Last(Touched(r, k), n) ==
      if k in u then Touched(u, k) else if |u| == n then Touched(u[1..], k) else Touched(u, k)
  {
    var u := Last(r, n);
    var pre := r[..|r| - |u|];
    assert r == pre + u;
    if k in u {
      assert k !in pre;
      LastTouchedIn(pre, u, k);
      WithoutDistinct(u, k);
      LastOfConcat(pre, Touched(u, k), n);
    } else if |u| == n {
      LastTouchedFull(pre, u, k);
    } else {
      assert pre == [] && pre + u == u;
      WithoutAbsent(u, k);
      LastOfConcat([], u + [k], n);
      assert u + [k] == [] + (u + [k]);
    }
  }

  lemma LastTouchedFull<K>(pre: seq<K>, u: seq<K>, k: K)
    requires k !in u && u != []
    ensures Last(Touched(pre + u, k), |u|) == Touched(u[1..], k)
  {
    var rest := u[1..];
    LastTouchedOut(pre, u, k);
    assert u == [u[0]] + rest && k !in rest;
    WithoutAbsent(rest, k);
    var before := Without(pre, k) + [u[0]];
    assert Touched(pre + u, k) == before + (rest + [k]);
    LastOfConcat(before, rest + [k], |u|);
  }

  ghost predicate Holds<K(!new), V>(c: Lru<K, V>, capacity: nat, r: seq<K>, compute: K -> V) {
    Sound(c) && Agrees(c, compute) && c.capacity == capacity && c.usage == Last(r, capacity)
  }

  lemma StackStep<K(!new), V>(c: Lru<K, V>, capacity: nat, r: seq<K>, k: K, compute: K -> V)
    requires Holds(c, capacity, r, compute) && Distinct(r)
    ensures Holds(Accessed(c, k, compute), capacity, Touched(r, k), compute)
  {
    if capacity > 0 {
      LastTouched(r, capacity, k);
    }
    if k in c.entries {
      GetStaysSound(c, k);
    } else {
      PutStaysSound(c, k, compute(k));
      MissStep(c, k, compute);
    }
  }

  lemma MissStep<K(!new), V>(c: Lru<K, V>, k: K, compute: K -> V)
    requires Sound(c) && Agrees(c, compute) && k !in c.entries
    ensures
      var d := PutState(c, k, compute(k));
      && Agrees(d, compute) && d.capacity == c.capacity
      && d.usage ==
         if c.capacity == 0 then c.usage
         else if |c.usage| == c.capacity then Touched(c.usage[1..], k)
         else Touched(c.usage, k)
  {
    if c.capacity > 0 {
      PutUsage(c, k, compute(k));
    }
  }

  /** After any trace of queries and clears, the cache holds exactly the last `capacity` distinct keys
      queried since the last clear, in recency order, each with its computed answer. */
  lemma {:induction false} StackProperty<K(!new), V>(capacity: nat, es: seq<Event<K>>, compute: K -> V)
    ensures Holds(Trace(capacity, es, compute), capacity, Recency(es), compute)
  {
    if es == [] {
    } else {
      var es' := es[..|es| - 1];
      StackProperty(capacity, es', compute);
      if es[|es| - 1].Access? {
        var at := RecencyIsByLastQuery(es');
        StackStep(Trace(capacity, es', compute), capacity, Recency(es'), es[|es| - 1].k, compute);
      }
    }
  }

  lemma LastOfLast<K>(r: seq<K>, small: nat, large: nat)
    requires small <= large
    ensures Last(Last(r, large), small) == Last(r, small)
  {
  }

  /** So a larger cache always holds what a smaller one does, in the same order at its recent end. */
  lemma LargerContains<K(!new), V>(small: nat, large: nat, es: seq<Event<K>>, compute: K -> V)
    requires small <= large
    ensures
      var s, l := Trace(small, es, compute), Trace(large, es, compute);
      && s.usage == Last(l.usage, small)
      && forall k :: k in s.entries ==> k in l.entries && l.entries[k] == s.entries[k]
  {
    var s, l := Trace(small, es, compute), Trace(large, es, compute);
    StackProperty(small, es, compute);
    StackProperty(large, es, compute);
    LastOfLast(Recency(es), small, large);
    forall k | k in s.entries
      ensures k in l.entries && l.entries[k] == s.entries[k]
    {
      assert k in s.usage && k in l.usage;
    }
  }

  /** A query hits exactly when its key is among those, and the answer is then the uncached one. */
  lemma AnswersAreUncached<K(!new), V>(capacity: nat, es: seq<Event<K>>, compute: K -> V, k: K)
    ensures
      var found := Look(Trace(capacity, es, compute).entries, k);
      && (found.Some? <==> k in Last(Recency(es), capacity))
      && (found.Some? ==> found.value == compute(k))
  {
    StackProperty(capacity, es, compute);
  }

  // ---- Any gets and puts ----

  datatype Use<K, V> = Get(k: K) | Put(k: K, v: V) | Drop

  function Used<K(!new), V>(c: Lru<K, V>, u: Use<K, V>): Lru<K, V> {
    match u
    case Get(k) => GetState(c, k)
    case Put(k, v) => PutState(c, k, v)
    case Drop => ClearState(c)
  }

  function Uses<K(!new), V>(c: Lru<K, V>, us: seq<Use<K, V>>): Lru<K, V>
    decreases |us|
  {
    if us == [] then c else Uses(Used(c, us[0]), us[1..])
  }

  predicate Subseq<K(==)>(s: seq<K>, t: seq<K>) {
    s == [] || (t != [] && if s[0] == t[0] then Subseq(s[1..], t[1..]) else Subseq(s, t[1..]))
  }

  /** Without its first element it still is one. */
  lemma {:induction false} SubseqTail<K>(s: seq<K>, t: seq<K>)
    requires s != [] && Subseq(s, t)
    ensures Subseq(s[1..], t)
    decreases |t|, 0
  {
    if s[0] != t[0] {
      SubseqTail(s, t[1..]);
    }
    SubseqLonger(s[1..], t[0], t[1..]);
    assert t == [t[0]] + t[1..];
  }

  lemma {:induction false} SubseqLonger<K>(s: seq<K>, x: K, t: seq<K>)
    requires Subseq(s, t)
    ensures Subseq(s, [x] + t)
    decreases |t|, 1
  {
    assert ([x] + t)[1..] == t;
    if s != [] && s[0] == x {
      SubseqTail(s, t);
    }
  }

  lemma {:induction false} SubseqAppend<K>(s: seq<K>, t: seq<K>, k: K)
    requires Subseq(s, t)
    ensures Subseq(s + [k], t + [k])
  {
    if t == [] {
    } else {
      assert (t + [k])[1..] == t[1..] + [k];
      if s == [] {
        SubseqAppend(s, t[1..], k);
        SubseqLonger(s + [k], t[0], t[1..] + [k]);
        assert t + [k] == [t[0]] + (t[1..] + [k]);
      } else if s[0] == t[0] {
        assert (s + [k])[1..] == s[1..] + [k];
        SubseqAppend(s[1..], t[1..], k);
      } else {
        SubseqAppend(s, t[1..], k);
      }
    }
  }

  lemma {:induction false} SubseqWithout<K>(s: seq<K>, t: seq<K>, k: K)
    requires Subseq(s, t)
    ensures Subseq(Without(s, k), Without(t, k))
  {
    if s == [] {
    } else {
      if s[0] == t[0] {
        SubseqWithout(s[1..], t[1..], k);
        assert s[0] != k ==> Without(s, k)[1..] == Without(s[1..], k) && Without(t, k)[1..] == Without(t[1..], k);
      } else {
        SubseqWithout(s, t[1..], k);
        SubseqLonger(Without(s, k), t[0], Without(t[1..], k));
      }
    }
  }

  lemma {:induction false} SubseqHas<K>(s: seq<K>, t: seq<K>)
    requires Subseq(s, t)
    ensures forall k :: k in s ==> k in t
    ensures |s| <= |t|
  {
    if s == [] {
    } else {
      assert s == [s[0]] + s[1..] && t == [t[0]] + t[1..];
      if s[0] == t[0] {
        SubseqHas(s[1..], t[1..]);
      } else {
        SubseqHas(s, t[1..]);
      }
    }
  }

  /** The smaller cache keeps, in the larger one's order, part of what that keeps; all of it until
      the smaller one is full. */
  ghost predicate Within<K(!new), V>(s: Lru<K, V>, l: Lru<K, V>) {
    && Sound(s) && Sound(l) && s.capacity <= l.capacity
    && Subseq(s.usage, l.usage)
    && (s.usage == l.usage || |s.usage| == s.capacity)
    && (forall k :: k in s.entries && k in l.entries ==> s.entries[k] == l.entries[k])
  }

  lemma TouchedWithin<K>(s: seq<K>, t: seq<K>, k: K)
    requires Subseq(s, t)
    ensures Subseq(Touched(s, k), Touched(t, k))
  {
    SubseqWithout(s, t, k);
    SubseqAppend(Without(s, k), Without(t, k), k);
  }

  /** A key only the larger one holds may move there, or go. */
  lemma TouchedOutside<K>(s: seq<K>, t: seq<K>, k: K)
    requires Subseq(s, t) && k !in s
    ensures Subseq(s, Touched(t, k))
  {
    SubseqWithout(s, t, k);
    WithoutAbsent(s, k);
    SubseqAppend(s, Without(t, k), k);
    assert (s + [k])[..|s|] == s;
    SubseqPrefix(s, k, Touched(t, k));
  }

  lemma {:induction false} SubseqPrefix<K>(s: seq<K>, k: K, t: seq<K>)
    requires Subseq(s + [k], t)
    ensures Subseq(s, t)
  {
    if s == [] {
    } else {
      if s[0] == t[0] {
        assert (s + [k])[1..] == s[1..] + [k];
        SubseqPrefix(s[1..], k, t[1..]);
      } else {
        SubseqPrefix(s, k, t[1..]);
      }
    }
  }

  lemma GetKeepsWithin<K(!new), V>(s: Lru<K, V>, l: Lru<K, V>, k: K)
    requires Within(s, l)
    ensures Within(GetState(s, k), GetState(l, k))
  {
    GetStaysSound(s, k);
    GetStaysSound(l, k);
    SubseqHas(s.usage, l.usage);
    if k in s.entries {
      TouchedWithin(s.usage, l.usage, k);
      WithoutDistinct(s.usage, k);
    } else if k in l.entries {
      TouchedOutside(s.usage, l.usage, k);
    }
  }

  lemma EvictionKeepsWithin<K(!new), V>(s: Lru<K, V>, l: Lru<K, V>, k: K)
    requires Within(s, l) && s.capacity > 0
    ensures k in s.entries || Subseq(AfterEviction(s, k), AfterEviction(l, k))
    ensures k in s.entries ==> k in l.entries && Subseq(s.usage, l.usage)
  {
    SubseqHas(s.usage, l.usage);
    if k !in s.entries && |s.usage| == s.capacity {
      SubseqTail(s.usage, l.usage);
      if s.usage[0] != l.usage[0] {
        SubseqTail(s.usage, l.usage[1..]);
      }
    }
  }

  lemma PutKeepsWithin<K(!new), V>(s: Lru<K, V>, l: Lru<K, V>, k: K, v: V)
    requires Within(s, l)
    ensures Within(PutState(s, k, v), PutState(l, k, v))
  {
    PutStaysSound(s, k, v);
    PutStaysSound(l, k, v);
    if s.capacity > 0 {
      PutUsage(s, k, v);
      PutUsage(l, k, v);
      PutLength(s, k, v);
      PutLength(l, k, v);
      SubseqHas(s.usage, l.usage);
      PutKeepsOrder(s, l, k);
    }
  }

  lemma PutKeepsOrder<K(!new), V>(s: Lru<K, V>, l: Lru<K, V>, k: K)
    requires Within(s, l) && s.capacity > 0
    ensures Subseq(Touched(AfterEviction(s, k), k), Touched(AfterEviction(l, k), k))
  {
    EvictionKeepsWithin(s, l, k);
    TouchedWithin(AfterEviction(s, k), AfterEviction(l, k), k);
  }

  /** For any trace of gets, puts and clears, whatever is put: a larger cache contains what a smaller
      one does, with the same values. */
  lemma {:induction false} AnyTraceKeepsWithin<K(!new), V>(s: Lru<K, V>, l: Lru<K, V>, us: seq<Use<K, V>>)
    requires Within(s, l)
    ensures Within(Uses(s, us), Uses(l, us))
    ensures forall k :: k in Uses(s, us).entries ==> Look(Uses(l, us).entries, k) == Look(Uses(s, us).entries, k)
    decreases |us|
  {
    if us == [] {
      SubseqHas(s.usage, l.usage);
    } else {
      match us[0] {
        case Get(k) => GetKeepsWithin(s, l, k);
        case Put(k, v) => PutKeepsWithin(s, l, k, v);
        case Drop =>
      }
      AnyTraceKeepsWithin(Used(s, us[0]), Used(l, us[0]), us[1..]);
    }
  }

  // ---- Grouping ----

  datatype Group<T> = Group(tier: nat, items: seq<T>)

  function Flatten<T>(groups: seq<Group<T>>): seq<T> {
    if groups == [] then [] else Flatten(groups[..|groups| - 1]) + groups[|groups| - 1].items
  }

  /** The groups are the maximal runs of one tier, in order. */
  ghost predicate Runs<T>(groups: seq<Group<T>>, tier: T -> nat) {
    && (forall g :: g in groups ==> IsRun(g, tier))
    && (forall i :: 0 < i < |groups| ==> groups[i].tier != groups[i - 1].tier)
  }

  lemma FlattenExtends<T>(groups: seq<Group<T>>, g: Group<T>)
    ensures Flatten(groups + [g]) == Flatten(groups) + g.items
  {
    assert (groups + [g])[..|groups|] == groups;
  }

  predicate IsRun<T(==)>(g: Group<T>, tier: T -> nat) { g.items != [] && forall x :: x in g.items ==> tier(x) == g.tier }

  lemma RunsExtend<T>(groups: seq<Group<T>>, g: Group<T>, tier: T -> nat)
    requires Runs(groups, tier) && IsRun(g, tier)
    requires groups != [] ==> groups[|groups| - 1].tier != g.tier
    ensures Runs(groups + [g], tier)
  {
  }

  lemma RunsShorter<T>(groups: seq<Group<T>>, tier: T -> nat)
    requires Runs(groups, tier) && groups != []
    ensures
      var n := |groups| - 1;
      Runs(groups[..n], tier) && IsRun(groups[n], tier) && (n > 0 ==> groups[n - 1].tier != groups[n].tier)
  {
    assert groups[|groups| - 1] in groups;
    assert forall g :: g in groups[..|groups| - 1] ==> g in groups;
  }

  method GroupByTier<T(==)>(items: seq<T>, tier: T -> nat) returns (groups: seq<Group<T>>)
    ensures Flatten(groups) == items && Runs(groups, tier)
  {
    groups := [];
    for i := 0 to |items|
      invariant Flatten(groups) == items[..i] && Runs(groups, tier)
    {
      var item, n := items[i], |groups|;
      if n > 0 && groups[n - 1].tier == tier(item) {
        var whole, last := groups[..n - 1], groups[n - 1];
        var longer := last.(items := last.items + [item]);
        assert groups == whole + [last];
        FlattenExtends(whole, last);
        FlattenExtends(whole, longer);
        RunsShorter(groups, tier);
        RunsExtend(whole, longer, tier);
        groups := whole + [longer];
      } else {
        FlattenExtends(groups, Group(tier(item), [item]));
        RunsExtend(groups, Group(tier(item), [item]), tier);
        groups := groups + [Group(tier(item), [item])];
      }
    }
  }

  lemma {:induction false} FlattenHas<T>(groups: seq<Group<T>>, i: nat, x: T)
    requires i < |groups| && x in groups[i].items
    ensures x in Flatten(groups)
  {
    if i < |groups| - 1 {
      FlattenHas(groups[..|groups| - 1], i, x);
    }
  }

  predicate Ranked<T>(items: seq<T>, tier: T -> nat) {
    forall i, j :: 0 <= i < j < |items| ==> tier(items[i]) <= tier(items[j])
  }

  /** Over ranked items no tier is split: each has one group, and the groups stand in tier order. */
  lemma {:induction false} RankedGroups<T>(groups: seq<Group<T>>, tier: T -> nat)
    requires Runs(groups, tier) && Ranked(Flatten(groups), tier)
    ensures forall i, j :: 0 <= i < j < |groups| ==> groups[i].tier < groups[j].tier
  {
    var n := |groups| - 1;
    if n > 0 {
      var before, last := groups[..n], groups[n];
      var flat := Flatten(before);
      assert Flatten(groups) == flat + last.items;
      assert forall i :: 0 <= i < |flat| ==> Flatten(groups)[i] == flat[i];
      RunsShorter(groups, tier);
      RankedGroups(before, tier);
      assert IsRun(groups[n - 1], tier) && IsRun(last, tier) && IsRun(before[n - 1], tier);
      var x, y := groups[n - 1].items[0], last.items[0];
      FlattenHas(before, n - 1, x);
      var k :| 0 <= k < |flat| && flat[k] == x;
      assert Flatten(groups)[|flat|] == y;
    }
  }
}
