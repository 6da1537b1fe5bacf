// Filters over composed entities, and the fingerprint that names one in a
// cache key.

module EntityFilter {
  import opened Prelude
  import opened Classification
  import Sorting

  datatype Filter = Filter(atMost: Option<Level>, onlyNeedingAttention: bool, onlyDegraded: bool)

  datatype Entity = Entity(id: string, level: Level, attention: nat, degraded: bool)

  predicate Matches(f: Filter, e: Entity) {
    && !(f.onlyNeedingAttention && e.attention == 0)
    && !(f.onlyDegraded && !e.degraded)
    && (f.atMost.Some? ==> Combine(f.atMost.value, e.level) == f.atMost.value)
  }

  function Filtered(f: Filter, es: seq<Entity>): seq<Entity> { Sorting.Keep(es, e => Matches(f, e)) }

  function BoundName(l: Option<Level>): string {
    match l
    case None => "any"
    case Some(Public) => "public"
    case Some(Internal) => "internal"
    case Some(Confidential) => "confidential"
    case Some(Restricted) => "restricted"
    case Some(Unclassified) => "unclassified"
  }

  function BoolName(b: bool): string { if b then "true" else "false" }

  function Fingerprint(f: Filter): string {
    "at_most=" + (BoundName(f.atMost) + (";attention=" + (BoolName(f.onlyNeedingAttention)
    + (";degraded=" + BoolName(f.onlyDegraded)))))
  }

  lemma SameTail<T>(a: seq<T>, s: seq<T>, t: seq<T>)
    requires a + s == a + t
    ensures s == t
  {
    assert s == (a + s)[|a|..];
  }

  lemma BoolSplit(b: bool, s: string, c: bool, t: string)
    requires BoolName(b) + s == BoolName(c) + t
    ensures b == c && s == t
  {
    assert (BoolName(b) + s)[0] == BoolName(b)[0] && (BoolName(c) + t)[0] == BoolName(c)[0];
    SameTail(BoolName(b), s, t);
  }

  lemma BoundSplit(l: Option<Level>, s: string, m: Option<Level>, t: string)
    requires BoundName(l) + s == BoundName(m) + t
    ensures l == m && s == t
  {
    assert (BoundName(l) + s)[0] == BoundName(l)[0] && (BoundName(m) + t)[0] == BoundName(m)[0];
    assert BoundName(l)[0] == BoundName(m)[0];
    SameTail(BoundName(l), s, t);
  }

  /** Two filters share a fingerprint, and so a cache scope, only if they are the same filter. */
  lemma FingerprintInjective(f: Filter, g: Filter)
    ensures Fingerprint(f) == Fingerprint(g) <==> f == g
  {
    if Fingerprint(f) == Fingerprint(g) {
      var df, dg := ";degraded=" + BoolName(f.onlyDegraded), ";degraded=" + BoolName(g.onlyDegraded);
      var af, ag := BoolName(f.onlyNeedingAttention) + df, BoolName(g.onlyNeedingAttention) + dg;
      SameTail("at_most=", BoundName(f.atMost) + (";attention=" + af), BoundName(g.atMost) + (";attention=" + ag));
      BoundSplit(f.atMost, ";attention=" + af, g.atMost, ";attention=" + ag);
      SameTail(";attention=", af, ag);
      BoolSplit(f.onlyNeedingAttention, df, g.onlyNeedingAttention, dg);
      SameTail(";degraded=", BoolName(f.onlyDegraded), BoolName(g.onlyDegraded));
      assert BoolName(f.onlyDegraded)[0] == BoolName(g.onlyDegraded)[0];
    }
  }

  /** What a filter asks of an entity, bound by bound. */
  predicate Within(f: Filter, e: Entity) {
    && (f.onlyNeedingAttention ==> e.attention > 0)
    && (f.onlyDegraded ==> e.degraded)
    && (f.atMost.Some? ==> Dominates(f.atMost.value, e.level))
  }

  ghost predicate Positions(f: Filter, es: seq<Entity>, kept: seq<Entity>, at: seq<nat>) {
    && |at| == |kept|
    && (forall i :: 0 <= i < |at| ==> at[i] < |es| && kept[i] == es[at[i]])
    && (forall i, j :: 0 <= i < j < |at| ==> at[i] < at[j])
    && (forall k :: 0 <= k < |es| ==> (k in at <==> Within(f, es[k])))
  }

  lemma PositionsMore(f: Filter, es: seq<Entity>, kept: seq<Entity>, at: seq<nat>, e: Entity)
    requires Positions(f, es, kept, at)
    ensures
      if Within(f, e) then Positions(f, es + [e], kept + [e], at + [|es|]) else Positions(f, es + [e], kept, at)
  {
    assert |es| !in at;
    var all := es + [e];
    assert all[|es|] == e && forall k :: 0 <= k < |es| ==> all[k] == es[k];
  }

  lemma FilteredMore(f: Filter, es: seq<Entity>, e: Entity)
    ensures Filtered(f, es + [e]) == if Within(f, e) then Filtered(f, es) + [e] else Filtered(f, es)
  {
    var p := (x: Entity) => Matches(f, x);
    FilteredIs(f, es + [e], p);
    FilteredIs(f, es, p);
    Sorting.KeepConcat(es, [e], p);
    Sorting.KeepFirst(e, [], p);
    assert [e] + [] == [e];
  }

  lemma FilteredStep(f: Filter, es: seq<Entity>, e: Entity, at: seq<nat>) returns (more: seq<nat>)
    requires Positions(f, es, Filtered(f, es), at)
    ensures Positions(f, es + [e], Filtered(f, es + [e]), more)
  {
    PositionsMore(f, es, Filtered(f, es), at, e);
    FilteredMore(f, es, e);
    more := if Within(f, e) then at + [|es|] else at;
  }

  /** A filter keeps exactly the entities within every bound it sets, each as often as it was there and
      in the order they came in. */
  lemma {:induction false} FilteredInOrder(f: Filter, es: seq<Entity>) returns (at: seq<nat>)
    ensures Positions(f, es, Filtered(f, es), at)
  {
    if es == [] {
      at := [];
    } else {
      var before, last := es[..|es| - 1], es[|es| - 1];
      assert es == before + [last];
      at := FilteredInOrder(f, before);
      at := FilteredStep(f, before, last, at);
    }
  }

  lemma {:induction false} FilteredIs(f: Filter, es: seq<Entity>, p: Entity -> bool)
    requires forall e :: p(e) == Matches(f, e)
    ensures Filtered(f, es) == Sorting.Keep(es, p)
  {
    Sorting.KeepSame(es, e => Matches(f, e), p);
  }
}
