// Data classifications: the join, fail-closed inheritance, and the folds that
// name the contributor forcing a level.

module Classification {
  import opened Prelude

  datatype Level = Public | Internal | Confidential | Restricted | Unclassified

  function Rank(l: Level): nat {
    match l
    case Public => 0
    case Internal => 1
    case Confidential => 2
    case Restricted => 3
    case Unclassified => 4
  }

  function Combine(a: Level, b: Level): Level {
    if a == Unclassified || b == Unclassified then Unclassified
    else if Rank(a) >= Rank(b) then a
    else b
  }

  predicate Dominates(a: Level, b: Level) { Rank(b) <= Rank(a) }

  /** Combining is the least upper bound, so its order and grouping do not matter. */
  lemma CombineIsJoin(a: Level, b: Level, c: Level)
    ensures Dominates(c, Combine(a, b)) <==> Dominates(c, a) && Dominates(c, b)
    ensures Combine(a, b) == Combine(b, a) && (Combine(a, b) == a || Combine(a, b) == b)
    ensures Combine(Combine(a, b), c) == Combine(a, Combine(b, c))
  {
  }

  function JoinAll(base: Level, levels: seq<Level>): Level
    decreases |levels|
  {
    if levels == [] then base else JoinAll(Combine(base, levels[0]), levels[1..])
  }

  lemma {:induction false} JoinAllIsJoin(base: Level, levels: seq<Level>, c: Level)
    ensures Dominates(c, JoinAll(base, levels)) <==>
            Dominates(c, base) && forall i :: 0 <= i < |levels| ==> Dominates(c, levels[i])
    ensures JoinAll(base, levels) == base || JoinAll(base, levels) in levels
    decreases |levels|
  {
    if levels == [] {
    } else {
      CombineIsJoin(base, levels[0], c);
      JoinAllIsJoin(Combine(base, levels[0]), levels[1..], c);
      assert forall i :: 0 < i < |levels| ==> levels[i] == levels[1..][i - 1];
    }
  }

  // ---- Inheritance from required sources ----

  datatype Source =
    | Trusted(id: nat, level: Level) | AiSuggestion(id: nat, level: Level)
    | Missing(id: nat) | Unknown(id: nat)

  datatype Snapshot = Snapshot(manifest: seq<nat>, entries: seq<Source>)

  datatype SnapshotError =
    EmptyManifest | CountMismatch | DuplicateManifestId | MissingManifestId | UnexpectedEntryId | DuplicateEntryId

  datatype Resolved = Resolved(level: Level, failClosed: bool, trusted: nat)

  const UNAVAILABLE := Snapshot([0], [Missing(0)])

  function Ids(entries: seq<Source>): (ids: seq<nat>)
    ensures |ids| == |entries| && forall i :: 0 <= i < |ids| ==> ids[i] == entries[i].id
  {
    seq(|entries|, i requires 0 <= i < |entries| => entries[i].id)
  }

  predicate Distinct(ids: seq<nat>) { forall i, j :: 0 <= i < j < |ids| ==> ids[i] != ids[j] }

  /** Every required source named once, and one entry for each. */
  predicate Complete(manifest: seq<nat>, entries: seq<Source>) {
    manifest != [] && Distinct(manifest) && multiset(Ids(entries)) == multiset(manifest)
  }

  lemma {:induction false} DistinctOnce(ids: seq<nat>, x: nat)
    requires Distinct(ids)
    ensures multiset(ids)[x] == if x in ids then 1 else 0
  {
    if ids == [] {
    } else {
      assert ids == [ids[0]] + ids[1..];
      DistinctOnce(ids[1..], x);
    }
  }

  lemma Without(ids: seq<nat>, k: nat) returns (rest: seq<nat>)
    requires k < |ids|
    ensures |rest| == |ids| - 1 && multiset(ids) == multiset(rest) + multiset{ids[k]}
    ensures forall y :: y in ids && y != ids[k] ==> y in rest
  {
    rest := ids[..k] + ids[k + 1..];
    assert ids == ids[..k] + [ids[k]] + ids[k + 1..];
    forall y | y in ids && y != ids[k]
      ensures y in rest
    {
      var j :| 0 <= j < |ids| && ids[j] == y;
      assert y == if j < k then rest[j] else rest[j - 1];
    }
  }

  /** A distinct list within one no longer than it is a rearrangement of it. */
  lemma {:induction false} SameIds(m: seq<nat>, ids: seq<nat>)
    requires Distinct(m) && |m| == |ids| && forall i :: 0 <= i < |m| ==> m[i] in ids
    ensures multiset(m) == multiset(ids)
  {
    if m == [] {
    } else {
      assert m[0] in ids;
      var k :| 0 <= k < |ids| && ids[k] == m[0];
      var rest := Without(ids, k);
      forall i | 0 <= i < |m| - 1
        ensures m[1..][i] in rest
      {
        assert m[i + 1] in ids && m[i + 1] != m[0];
      }
      SameIds(m[1..], rest);
      assert m == [m[0]] + m[1..];
    }
  }

  /** The snapshot checks accept exactly the complete ones, and once the manifest has been checked no
      entry can be unexpected or duplicated. */
  method FromAuthority(manifest: seq<nat>, entries: seq<Source>) returns (r: Result<Snapshot, SnapshotError>)
    ensures r.Ok? <==> Complete(manifest, entries)
    ensures r.Ok? ==> r.value == Snapshot(manifest, entries)
    ensures r == Err(EmptyManifest) <==> manifest == []
    ensures r == Err(CountMismatch) <==> manifest != [] && |manifest| != |entries|
    ensures r == Err(DuplicateManifestId) ==> !Distinct(manifest)
    ensures r == Err(MissingManifestId) ==> exists id :: id in manifest && id !in Ids(entries)
    ensures r != Err(UnexpectedEntryId) && r != Err(DuplicateEntryId)
  {
    if manifest == [] { return Err(EmptyManifest); }
    var ids := Ids(entries);
    if |manifest| != |entries| {
      assert |multiset(ids)| == |ids| && |multiset(manifest)| == |manifest|;
      return Err(CountMismatch);
    }
    for i := 0 to |manifest|
      invariant Distinct(manifest[..i]) && forall k :: 0 <= k < i ==> manifest[k] in ids
    {
      if manifest[i] in manifest[..i] {
        return Err(DuplicateManifestId);
      }
      if manifest[i] !in ids {
        assert manifest[i] in multiset(manifest) && manifest[i] !in multiset(ids);
        return Err(MissingManifestId);
      }
    }
    assert manifest[..|manifest|] == manifest;
    SameIds(manifest, ids);
    for j := 0 to |ids| {
      assert ids[j] in multiset(manifest);
      DistinctOnce(manifest, ids[j]);
      if ids[j] !in manifest {
        return Err(UnexpectedEntryId);
      }
      if multiset(ids)[ids[j]] > 1 {
        return Err(DuplicateEntryId);
      }
    }
    r := Ok(Snapshot(manifest, entries));
  }

  function Matching(entries: seq<Source>, id: nat): seq<Source> {
    if entries == [] then []
    else (if entries[0].id == id then [entries[0]] else []) + Matching(entries[1..], id)
  }

  function Step(r: Resolved, entries: seq<Source>, id: nat): Resolved {
    var matching := Matching(entries, id);
    if |matching| == 1 && matching[0].Trusted? then
      var level := matching[0].level;
      Resolved(Combine(r.level, level), r.failClosed || level == Unclassified, r.trusted + 1)
    else r.(failClosed := true)
  }

  function Steps(r: Resolved, entries: seq<Source>, manifest: seq<nat>): Resolved
    decreases |manifest|
  {
    if manifest == [] then r
    else Step(Steps(r, entries, manifest[..|manifest| - 1]), entries, manifest[|manifest| - 1])
  }

  function Closed(r: Resolved): Resolved {
    if r.trusted == 0 || r.failClosed then Resolved(Unclassified, true, r.trusted) else r
  }

  function Resolution(s: Snapshot): Resolved { Closed(Steps(Resolved(Public, false, 0), s.entries, s.manifest)) }

  /** One pass over the manifest. */
  method ResolveInheritance(s: Snapshot) returns (r: Resolved)
    ensures r == Resolution(s)
  {
    var level, trusted, failClosed := Public, 0, false;
    for i := 0 to |s.manifest|
      invariant Resolved(level, failClosed, trusted) == Steps(Resolved(Public, false, 0), s.entries, s.manifest[..i])
    {
      assert s.manifest[..i + 1][..i] == s.manifest[..i];
      var matching := Matching(s.entries, s.manifest[i]);
      if |matching| != 1 {
        failClosed := true;
        continue;
      }
      match matching[0] {
        case Trusted(_, found) =>
          trusted := trusted + 1;
          level := Combine(level, found);
          if found == Unclassified {
            failClosed := true;
          }
        case _ => failClosed := true;
      }
    }
    assert s.manifest[..|s.manifest|] == s.manifest;
    if trusted == 0 || failClosed {
      level, failClosed := Unclassified, true;
    }
    r := Resolved(level, failClosed, trusted);
  }

  lemma {:induction false} MatchingCount(entries: seq<Source>, id: nat)
    ensures |Matching(entries, id)| == multiset(Ids(entries))[id]
  {
    if entries == [] {
    } else {
      assert Ids(entries) == [entries[0].id] + Ids(entries[1..]);
      MatchingCount(entries[1..], id);
    }
  }

  lemma {:induction false} MatchingHas(entries: seq<Source>, id: nat)
    ensures forall e :: e in Matching(entries, id) <==> e in entries && e.id == id
  {
    if entries == [] {
    } else {
      assert entries == [entries[0]] + entries[1..];
      MatchingHas(entries[1..], id);
    }
  }

  predicate Sound(e: Source) { e.Trusted? && e.level != Unclassified }

  /** The one entry each manifest id of a complete snapshot has. */
  lemma SoleEntry(s: Snapshot, id: nat) returns (e: Source)
    requires Complete(s.manifest, s.entries) && id in s.manifest
    ensures Matching(s.entries, id) == [e] && e in s.entries && e.id == id
    ensures forall f :: f in s.entries && f.id == id ==> f == e
  {
    DistinctOnce(s.manifest, id);
    MatchingCount(s.entries, id);
    MatchingHas(s.entries, id);
    e := Matching(s.entries, id)[0];
    assert Matching(s.entries, id) == [e];
    assert e in Matching(s.entries, id);
  }

  /** What the first `n` steps have seen. */
  ghost predicate SeenSo(s: Snapshot, n: nat, r: Resolved)
    requires n <= |s.manifest|
  {
    && (r.failClosed <==> exists e :: e in s.entries && e.id in s.manifest[..n] && !Sound(e))
    && (!r.failClosed ==> r.trusted == n)
    && (forall e :: e in s.entries && e.id in s.manifest[..n] && e.Trusted? ==> Dominates(r.level, e.level))
    && (r.level == Public || exists e :: e in s.entries && e.id in s.manifest[..n] && e.Trusted? && e.level == r.level)
  }

  lemma {:induction false} StepsSee(s: Snapshot, n: nat)
    requires Complete(s.manifest, s.entries) && n <= |s.manifest|
    ensures SeenSo(s, n, Steps(Resolved(Public, false, 0), s.entries, s.manifest[..n]))
  {
    if n == 0 {
    } else {
      StepsSee(s, n - 1);
      var id := s.manifest[n - 1];
      assert s.manifest[..n][..n - 1] == s.manifest[..n - 1];
      assert s.manifest[..n] == s.manifest[..n - 1] + [id];
      var e := SoleEntry(s, id);
      var before := Steps(Resolved(Public, false, 0), s.entries, s.manifest[..n - 1]);
      StepSees(s, n, e, before);
    }
  }

  lemma StepSees(s: Snapshot, n: nat, e: Source, before: Resolved)
    requires 0 < n <= |s.manifest| && s.manifest[..n] == s.manifest[..n - 1] + [s.manifest[n - 1]]
    requires SeenSo(s, n - 1, before)
    requires e in s.entries && e.id == s.manifest[n - 1] && Matching(s.entries, e.id) == [e]
    requires forall f :: f in s.entries && f.id == e.id ==> f == e
    ensures SeenSo(s, n, Step(before, s.entries, e.id))
  {
    assert e.id in s.manifest[..n];
    assert forall id :: id in s.manifest[..n] <==> id in s.manifest[..n - 1] || id == e.id;
    var after := Step(before, s.entries, e.id);
    assert after.failClosed <==> before.failClosed || !Sound(e);
    if before.failClosed {
      var f :| f in s.entries && f.id in s.manifest[..n - 1] && !Sound(f);
      assert f.id in s.manifest[..n];
    }
    assert after.level == before.level || (e.Trusted? && after.level == e.level);
    if after.level == before.level && before.level != Public {
      var f :| f in s.entries && f.id in s.manifest[..n - 1] && f.Trusted? && f.level == before.level;
      assert f.id in s.manifest[..n];
    }
  }

  /** Inheritance over a complete snapshot fails closed exactly when some source is untrusted or
      Unclassified, and otherwise is the least level dominating every source. */
  lemma ResolutionIsJoin(s: Snapshot)
    requires Complete(s.manifest, s.entries)
    ensures
      var r := Resolution(s);
      && (r.failClosed <==> exists e :: e in s.entries && !Sound(e))
      && (r.failClosed ==> r.level == Unclassified)
      && (!r.failClosed ==>
            && r.level != Unclassified && r.trusted == |s.manifest|
            && (exists e :: e in s.entries && e.level == r.level)
            && forall e :: e in s.entries ==> Dominates(r.level, e.level))
  {
    var n := |s.manifest|;
    StepsSee(s, n);
    assert s.manifest[..n] == s.manifest;
    var steps := Steps(Resolved(Public, false, 0), s.entries, s.manifest);
    forall e | e in s.entries
      ensures e.id in s.manifest
    {
      var k :| 0 <= k < |s.entries| && s.entries[k] == e;
      assert Ids(s.entries)[k] in multiset(Ids(s.entries));
    }
    if !steps.failClosed {
      var e := SoleEntry(s, s.manifest[0]);
      assert Sound(e) && Dominates(steps.level, e.level);
      if steps.level == Public {
        assert e.level == Public;
      }
    }
  }

  /** The order of the manifest and of the entries does not matter. */
  lemma ResolutionIsOrderFree(s: Snapshot, t: Snapshot)
    requires Complete(s.manifest, s.entries)
    requires multiset(t.manifest) == multiset(s.manifest) && multiset(t.entries) == multiset(s.entries)
    requires Complete(t.manifest, t.entries)
    ensures Resolution(t).level == Resolution(s).level && Resolution(t).failClosed == Resolution(s).failClosed
  {
    ResolutionIsJoin(s);
    ResolutionIsJoin(t);
    assert forall e :: e in s.entries <==> e in multiset(s.entries);
    assert forall e :: e in t.entries <==> e in multiset(t.entries);
  }

  // ---- The authority service ----

  datatype Reading = Classified(level: Level) | NoReading | UnknownReading | ReadFailed

  function EntryOf(id: nat, reading: Reading): Source {
    match reading
    case Classified(level) => Trusted(id, level)
    case NoReading => Missing(id)
    case _ => Unknown(id)
  }

  /** `manifest` is none when it could not be read. */
  method Resolve(manifest: Option<seq<nat>>, read: nat -> Reading) returns (r: Resolved)
    ensures
      var sound := manifest.Some? && manifest.value != [] && Distinct(manifest.value)
                   && forall id :: id in manifest.value ==> read(id).Classified? && read(id).level != Unclassified;
      && (r.failClosed <==> !sound)
      && (r.failClosed ==> r.level == Unclassified)
      && (sound ==>
            && (exists id :: id in manifest.value && read(id).level == r.level)
            && forall id :: id in manifest.value ==> Dominates(r.level, read(id).level))
  {
    if manifest.None? || manifest.value == [] || !Distinct(manifest.value) {
      UnavailableFailsClosed();
      r := ResolveInheritance(UNAVAILABLE);
      return;
    }
    var ids := manifest.value;
    var entries := seq(|ids|, i requires 0 <= i < |ids| => EntryOf(ids[i], read(ids[i])));
    assert Ids(entries) == ids;
    var snapshot := FromAuthority(ids, entries);
    r := ResolveInheritance(snapshot.value);
    ResolutionIsJoin(snapshot.value);
    forall id | id in ids
      ensures EntryOf(id, read(id)) in entries
    {
      var k :| 0 <= k < |ids| && ids[k] == id;
      assert entries[k] == EntryOf(id, read(id));
    }
    assert forall e :: e in entries ==> e.id in ids && e == EntryOf(e.id, read(e.id));
  }

  lemma UnavailableFailsClosed()
    ensures Resolution(UNAVAILABLE) == Resolved(Unclassified, true, 0)
  {
    assert UNAVAILABLE.manifest[..0] == [];
    assert Steps(Resolved(Public, false, 0), UNAVAILABLE.entries, []) == Resolved(Public, false, 0);
    assert Matching(UNAVAILABLE.entries[1..], 0) == [];
    assert Matching(UNAVAILABLE.entries, 0) == [Missing(0)];
  }

  // ---- Ordinary writes ----

  datatype Write = Applied(level: Level) | Quarantined(level: Level) | QuarantineNotAllowed | RequiresLowering

  function Decide(allowQuarantine: bool, current: Level, proposed: Level): Write {
    if proposed == Unclassified then
      if allowQuarantine then Quarantined(proposed)
      else if current == Unclassified then QuarantineNotAllowed
      else RequiresLowering
    else if current != Unclassified && Rank(current) > Rank(proposed) then RequiresLowering
    else Applied(proposed)
  }

  function Written(allowQuarantine: bool, current: Level, proposals: seq<Level>): Level
    decreases |proposals|
  {
    if proposals == [] then current
    else
      var w := Decide(allowQuarantine, current, proposals[0]);
      Written(allowQuarantine, if w.Applied? || w.Quarantined? then w.level else current, proposals[1..])
  }

  /** Over any run of ordinary writes a classified record stays classified and never drops a level. */
  lemma {:induction false} WritesNeverLower(current: Level, proposals: seq<Level>)
    requires current != Unclassified
    ensures
      var after := Written(false, current, proposals);
      after != Unclassified && Dominates(after, current)
    decreases |proposals|
  {
    if proposals == [] {
    } else {
      var w := Decide(false, current, proposals[0]);
      WritesNeverLower(if w.Applied? then w.level else current, proposals[1..]);
    }
  }

  /** Nor do they stop at less than was proposed: the record ends at the highest classified level it
      had or was proposed, and a proposal is refused only if it would lower the record or leave it
      unclassified. */
  lemma {:induction false} WritesReachHighest(current: Level, proposals: seq<Level>)
    requires current != Unclassified
    ensures
      var after := Written(false, current, proposals);
      && (after == current || after in proposals)
      && forall p :: p in proposals && p != Unclassified ==> Dominates(after, p)
    decreases |proposals|
  {
    if proposals == [] {
    } else {
      var w := Decide(false, current, proposals[0]);
      var next := if w.Applied? then w.level else current;
      WritesReachHighest(next, proposals[1..]);
      WritesNeverLower(next, proposals[1..]);
      assert proposals == [proposals[0]] + proposals[1..];
    }
  }

  // ---- Folds that name the contributor forcing the level ----

  datatype Contribution = Contribution(kind: string, id: string, level: Level)

  function Levels(cs: seq<Contribution>): (ls: seq<Level>)
    ensures |ls| == |cs| && forall i :: 0 <= i < |ls| ==> ls[i] == cs[i].level
  {
    seq(|cs|, i requires 0 <= i < |cs| => cs[i].level)
  }

  ghost predicate FirstAt(cs: seq<Contribution>, level: Level, c: Contribution) {
    exists k :: 0 <= k < |cs| && cs[k] == c && c.level == level && forall j :: 0 <= j < k ==> cs[j].level != level
  }

  /** The effective level is the join of everything shown; nothing forces it exactly when the record's
      own level stands, and otherwise the first contributor attaining the join does. */
  ghost predicate Forced(own: Level, cs: seq<Contribution>, effective: Level, forcedBy: Option<Contribution>) {
    && effective == JoinAll(own, Levels(cs))
    && (forcedBy.None? <==> effective == own)
    && (forcedBy.Some? ==> FirstAt(cs, effective, forcedBy.value))
  }

  /** The effective level is the least one dominating everything shown. */
  lemma ForcedIsLeast(own: Level, cs: seq<Contribution>, effective: Level, forcedBy: Option<Contribution>, l: Level)
    requires Forced(own, cs, effective, forcedBy)
    ensures Dominates(l, effective) <==> Dominates(l, own) && forall c :: c in cs ==> Dominates(l, c.level)
    ensures effective == own <==> forall c :: c in cs ==> Dominates(own, c.level)
  {
    JoinAllIsJoin(own, Levels(cs), l);
    JoinAllIsJoin(own, Levels(cs), effective);
    JoinAllIsJoin(own, Levels(cs), own);
    assert forall i :: 0 <= i < |cs| ==> cs[i] in cs;
  }

  class Fold {
    const own: Level
    var effective: Level
    var forcedBy: Option<Contribution>
    ghost var shown: seq<Contribution>

    ghost predicate Valid()
      reads this
    {
      Forced(own, shown, effective, forcedBy)
    }

    constructor (own: Level)
      ensures Valid() && shown == [] && this.own == own
    {
      this.own, this.effective, this.forcedBy, this.shown := own, own, None, [];
    }

    method Add(c: Contribution)
      requires Valid()
      modifies this
      ensures Valid() && shown == old(shown) + [c]
    {
      var next := Combine(effective, c.level);
      JoinMore(own, Levels(shown), c.level);
      assert Levels(shown + [c]) == Levels(shown) + [c.level];
      if next != effective {
        JoinAllIsJoin(own, Levels(shown), effective);
        assert forall j :: 0 <= j < |shown| ==> Dominates(effective, Levels(shown)[j]);
        assert (shown + [c])[|shown|] == c;
        forcedBy := Some(c);
        effective := next;
      } else if forcedBy.Some? {
        ghost var k :| 0 <= k < |shown| && shown[k] == forcedBy.value && forcedBy.value.level == effective
                 && forall j :: 0 <= j < k ==> shown[j].level != effective;
        assert (shown + [c])[k] == forcedBy.value;
      }
      shown := shown + [c];
    }
  }

  lemma {:induction false} JoinMore(base: Level, levels: seq<Level>, l: Level)
    ensures JoinAll(base, levels + [l]) == Combine(JoinAll(base, levels), l)
    decreases |levels|
  {
    if levels == [] {
      assert JoinAll(Combine(base, l), []) == Combine(base, l);
      assert ([l])[1..] == [];
    } else {
      assert (levels + [l])[1..] == levels[1..] + [l];
      JoinMore(Combine(base, levels[0]), levels[1..], l);
    }
  }

  datatype Evidence = Evidence(id: string, level: Level, levelAtLink: Level)

  datatype Person = Person(id: string, level: Level, carried: seq<Contribution>)

  datatype ProductFacts = ProductFacts(
    own: Level, structure: seq<Contribution>, evidence: seq<Evidence>, people: seq<Person>)

  function ShownEvidence(evidence: seq<Evidence>, n: nat): seq<Contribution>
    requires n <= |evidence|
  {
    if n == 0 then []
    else
      var e := evidence[n - 1];
      ShownEvidence(evidence, n - 1)
      + [Contribution("evidence", e.id, e.level), Contribution("evidence", e.id, e.levelAtLink)]
  }

  function ShownPerson(p: Person): seq<Contribution> { [Contribution("stakeholder", p.id, p.level)] + p.carried }

  function ShownPeople(people: seq<Person>, n: nat): seq<Contribution>
    requires n <= |people|
  {
    if n == 0 then [] else ShownPeople(people, n - 1) + ShownPerson(people[n - 1])
  }

  /** Everything the inspector shows, in the order it is folded. */
  function Shown(facts: ProductFacts): seq<Contribution> {
    facts.structure + ShownEvidence(facts.evidence, |facts.evidence|) + ShownPeople(facts.people, |facts.people|)
  }

  predicate DominatesEach(l: Level, cs: seq<Contribution>) {
    forall i :: 0 <= i < |cs| ==> Dominates(l, cs[i].level)
  }

  lemma EachOfBoth(l: Level, a: seq<Contribution>, b: seq<Contribution>)
    ensures DominatesEach(l, a + b) <==> DominatesEach(l, a) && DominatesEach(l, b)
  {
    assert forall i :: 0 <= i < |a| ==> (a + b)[i] == a[i];
    assert forall i :: 0 <= i < |b| ==> (a + b)[|a| + i] == b[i];
  }

  lemma {:induction false} EachEvidence(l: Level, evidence: seq<Evidence>, n: nat)
    requires n <= |evidence|
    ensures DominatesEach(l, ShownEvidence(evidence, n)) <==>
            forall i :: 0 <= i < n ==> Dominates(l, evidence[i].level) && Dominates(l, evidence[i].levelAtLink)
  {
    if n == 0 {
    } else {
      var e := evidence[n - 1];
      var two := [Contribution("evidence", e.id, e.level), Contribution("evidence", e.id, e.levelAtLink)];
      EachEvidence(l, evidence, n - 1);
      EachOfBoth(l, ShownEvidence(evidence, n - 1), two);
      assert DominatesEach(l, two) <==> Dominates(l, two[0].level) && Dominates(l, two[1].level);
    }
  }

  lemma {:induction false} EachPerson(l: Level, people: seq<Person>, n: nat)
    requires n <= |people|
    ensures DominatesEach(l, ShownPeople(people, n)) <==>
            forall i :: 0 <= i < n ==> Dominates(l, people[i].level) && DominatesEach(l, people[i].carried)
  {
    if n == 0 {
    } else {
      var p := people[n - 1];
      var own := [Contribution("stakeholder", p.id, p.level)];
      EachPerson(l, people, n - 1);
      EachOfBoth(l, ShownPeople(people, n - 1), ShownPerson(p));
      EachOfBoth(l, own, p.carried);
      assert DominatesEach(l, own) <==> Dominates(l, own[0].level);
    }
  }

  /** What is folded is the Product's level, every structural child's, every Evidence record's both now
      and as linked, every person's and that of everything a person carries, and nothing else. */
  lemma EffectiveIsLeast(facts: ProductFacts, effective: Level, forcedBy: Option<Contribution>, l: Level)
    requires Forced(facts.own, Shown(facts), effective, forcedBy)
    ensures Dominates(l, effective) <==>
            && Dominates(l, facts.own) && DominatesEach(l, facts.structure)
            && (forall i :: 0 <= i < |facts.evidence| ==>
                  Dominates(l, facts.evidence[i].level) && Dominates(l, facts.evidence[i].levelAtLink))
            && (forall i :: 0 <= i < |facts.people| ==>
                  Dominates(l, facts.people[i].level) && DominatesEach(l, facts.people[i].carried))
  {
    ForcedIsLeast(facts.own, Shown(facts), effective, forcedBy, l);
    var evidence := ShownEvidence(facts.evidence, |facts.evidence|);
    var people := ShownPeople(facts.people, |facts.people|);
    EachOfBoth(l, facts.structure + evidence, people);
    EachOfBoth(l, facts.structure, evidence);
    EachEvidence(l, facts.evidence, |facts.evidence|);
    EachPerson(l, facts.people, |facts.people|);
  }

  method FoldAll(fold: Fold, cs: seq<Contribution>)
    requires fold.Valid()
    modifies fold
    ensures fold.Valid() && fold.shown == old(fold.shown) + cs
  {
    for i := 0 to |cs|
      invariant fold.Valid() && fold.shown == old(fold.shown) + cs[..i]
    {
      fold.Add(cs[i]);
    }
    assert cs[..|cs|] == cs;
  }

  method FoldEvidence(fold: Fold, evidence: seq<Evidence>)
    requires fold.Valid()
    modifies fold
    ensures fold.Valid() && fold.shown == old(fold.shown) + ShownEvidence(evidence, |evidence|)
  {
    for i := 0 to |evidence|
      invariant fold.Valid() && fold.shown == old(fold.shown) + ShownEvidence(evidence, i)
    {
      var e := evidence[i];
      fold.Add(Contribution("evidence", e.id, e.level));
      fold.Add(Contribution("evidence", e.id, e.levelAtLink));
    }
  }

  method FoldPerson(fold: Fold, p: Person)
    requires fold.Valid()
    modifies fold
    ensures fold.Valid() && fold.shown == old(fold.shown) + ShownPerson(p)
  {
    fold.Add(Contribution("stakeholder", p.id, p.level));
    FoldAll(fold, p.carried);
  }

  method FoldPeople(fold: Fold, people: seq<Person>)
    requires fold.Valid()
    modifies fold
    ensures fold.Valid() && fold.shown == old(fold.shown) + ShownPeople(people, |people|)
  {
    for i := 0 to |people|
      invariant fold.Valid() && fold.shown == old(fold.shown) + ShownPeople(people, i)
    {
      FoldPerson(fold, people[i]);
    }
  }

  method EffectiveClassification(facts: ProductFacts) returns (effective: Level, forcedBy: Option<Contribution>)
    ensures Forced(facts.own, Shown(facts), effective, forcedBy)
  {
    var fold := new Fold(facts.own);
    FoldAll(fold, facts.structure);
    assert fold.shown == facts.structure;
    FoldEvidence(fold, facts.evidence);
    assert fold.shown == facts.structure + ShownEvidence(facts.evidence, |facts.evidence|);
    FoldPeople(fold, facts.people);
    assert fold.shown == Shown(facts);
    effective, forcedBy := fold.effective, fold.forcedBy;
  }

  /** The Lens folds what its three measures contribute, in that order. */
  method LensClassification(
    own: Level, timing: seq<Contribution>, observability: seq<Contribution>, coverage: seq<Contribution>)
    returns (effective: Level, forcedBy: Option<Contribution>)
    ensures Forced(own, timing + observability + coverage, effective, forcedBy)
  {
    var fold := new Fold(own);
    FoldAll(fold, timing + observability + coverage);
    assert fold.shown == timing + observability + coverage;
    effective, forcedBy := fold.effective, fold.forcedBy;
  }
}
