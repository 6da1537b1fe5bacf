// Superseding an Evidence reference: a canonical, digest-bound preview, and an
// execution that goes ahead only if nothing it binds has drifted.

module EvidenceSupersession {
  import opened Prelude
  import opened Classification
  import opened Sorting
  import opened EvidenceDigest

  datatype SourceRecord = SourceRecord(
    id: Text, path: Text, fingerprint: Option<Fingerprint>, level: Level, version: u64)

  datatype Current = Current(record: SourceRecord, links: Links)

  datatype Intent = Intent(
    sourceId: Text, expectedVersion: u64, replacementId: Text, replacementPath: Text,
    fingerprint: Fingerprint, observedAt: i64, level: Level, provenance: Provenance, rationale: Text)

  datatype Prepared = Prepared(preview: Preview, digest: string, createdAt: i64)

  datatype Approval = Approval(preparedId: Text, acknowledged: string)

  datatype NewLink = NewLink(evidenceId: Text, target: Target, level: Level, linkedAt: i64)

  datatype Replacement = Replacement(
    id: Text, path: Text, fingerprint: Fingerprint, verifiedAt: i64, verifiedDigest: Text,
    level: Level, provenance: Provenance, version: u64, createdAt: i64, updatedAt: i64)

  datatype Effects = Effects(
    replacement: Replacement, links: seq<NewLink>, sourceId: Text, sourceNewVersion: u64)

  datatype Error =
    | SourceMismatch | ReplacementIsSource | NotAGenuineReplacement | UnclassifiedReplacement
    | ReplacementLowersClassification | PreparedIntentMismatch | DigestMismatch | Expired
    | SourceAlreadySuperseded | PreviewChanged

  const TTL_MILLIS := 300_000
  const MAX_I64: i64 := 0x7fff_ffff_ffff_ffff

  function SaturatingAdd(a: i64, b: nat): i64 { if a + b > MAX_I64 then MAX_I64 else a + b }

  /** By target kind, then target id. */
  function LinkKey(l: Link): Key { [Discriminant(l.target.kind) as int] + l.target.id }

  function Canonical(links: seq<Link>): seq<Link> { Sort(links, LinkKey) }

  function LinkLevels(links: seq<Link>): seq<Level> {
    if links == [] then [] else [links[0].targetLevel, links[0].linkLevel] + LinkLevels(links[1..])
  }

  // ---- Prepare ----

  /** The payload digest is the hash of the canonical encoding. */
  ghost predicate IsDigest(digest: Preview -> string, sha256: seq<byte> -> string) {
    forall p :: digest(p) == sha256(Encoding(p))
  }

  function PreviewOf(intent: Intent, intentId: Text, source: Current, now: i64): Preview {
    var links := Canonical(source.links);
    Preview(
      intentId, source.record.id, source.record.version, source.record.path, source.record.fingerprint,
      source.record.level, intent.replacementId, intent.replacementPath, intent.fingerprint, intent.observedAt,
      intent.level, intent.provenance, links,
      JoinAll(Combine(source.record.level, intent.level), LinkLevels(links)),
      intent.rationale, SaturatingAdd(now, TTL_MILLIS))
  }

  function Prepare(digest: Preview -> string, intent: Intent, intentId: Text, source: Current, now: i64)
    : Result<Prepared, Error>
  {
    if source.record.id != intent.sourceId || source.record.version != intent.expectedVersion then Err(SourceMismatch)
    else if intent.replacementId == intent.sourceId then Err(ReplacementIsSource)
    else if source.record.fingerprint == Some(intent.fingerprint) then Err(NotAGenuineReplacement)
    else if intent.level == Unclassified then Err(UnclassifiedReplacement)
    else if Combine(intent.level, source.record.level) != intent.level then Err(ReplacementLowersClassification)
    else
      var preview := PreviewOf(intent, intentId, source, now);
      Ok(Prepared(preview, digest(preview), now))
  }

  // ---- Execute ----

  function NewLinks(p: Preview, links: seq<Link>, now: i64): (r: seq<NewLink>)
    ensures |r| == |links|
  {
    seq(|links|, i requires 0 <= i < |links| => NewLink(p.replacementId, links[i].target, p.level, now))
  }

  function Execute(a: Approval, prepared: Prepared, current: Current, alreadySuperseded: bool, now: i64)
    : Result<Effects, Error>
  {
    var p := prepared.preview;
    if a.preparedId != p.intentId then Err(PreparedIntentMismatch)
    else if a.acknowledged != prepared.digest then Err(DigestMismatch)
    else if now >= p.expiresAt then Err(Expired)
    else if alreadySuperseded then Err(SourceAlreadySuperseded)
    else if current.record.id != p.sourceId || current.record.version != p.sourceVersion then Err(PreviewChanged)
    else if Canonical(current.links) != p.links then Err(PreviewChanged)
    else if p.sourceVersion + 1 == U64 then Err(SourceMismatch)
    else
      Ok(Effects(
        Replacement(
          p.replacementId, p.replacementPath, p.replacementFingerprint, p.observedAt, p.replacementFingerprint.digest,
          p.level, p.provenance, 1, now, now),
        NewLinks(p, p.links, now), p.sourceId, p.sourceVersion + 1))
  }

  // ---- Canonical links ----

  predicate DistinctTargets(links: seq<Link>) {
    forall i, j :: 0 <= i < j < |links| ==> links[i].target != links[j].target
  }

  lemma KeysDistinguish(links: seq<Link>)
    requires DistinctTargets(links)
    ensures Distinguishes(links, LinkKey)
  {
    forall x, y | x in links && y in links && LinkKey(x) == LinkKey(y)
      ensures x == y
    {
      assert LinkKey(x)[0] == LinkKey(y)[0] && LinkKey(x)[1..] == x.target.id && LinkKey(y)[1..] == y.target.id;
      NamesInjective(Public, Public, x.target.kind, y.target.kind);
      var i :| 0 <= i < |links| && links[i] == x;
      var j :| 0 <= j < |links| && links[j] == y;
    }
  }

  /** Two link sets have one canonical form exactly when they are the same links. */
  lemma CanonicalLinks(links: seq<Link>, others: seq<Link>)
    requires DistinctTargets(links)
    ensures Canonical(links) == Canonical(others) <==> multiset(links) == multiset(others)
  {
    KeysDistinguish(links);
    if multiset(links) == multiset(others) {
      SortIsCanonical(links, others, LinkKey);
    }
  }

  // ---- Main results ----

  /** The preview and its digest do not depend on the order the links were read in. */
  lemma PreviewIsOrderFree(
    digest: Preview -> string, intent: Intent, intentId: Text, source: Current, links: Links, now: i64)
    requires DistinctTargets(source.links) && multiset(links) == multiset(source.links)
    ensures Prepare(digest, intent, intentId, source, now)
            == Prepare(digest, intent, intentId, source.(links := links), now)
  {
    CanonicalLinks(source.links, links);
  }

  /** A supersession can be prepared exactly for the source named, at the version named, by another
      identity with other content, classified and not below the source. */
  lemma PreparesIff(digest: Preview -> string, intent: Intent, intentId: Text, source: Current, now: i64)
    ensures Prepare(digest, intent, intentId, source, now).Ok? <==>
            && source.record.id == intent.sourceId && source.record.version == intent.expectedVersion
            && intent.replacementId != source.record.id && source.record.fingerprint != Some(intent.fingerprint)
            && intent.level != Unclassified && Dominates(intent.level, source.record.level)
  {
  }

  lemma PreparedIs(
    digest: Preview -> string, intent: Intent, intentId: Text, source: Current, preparedAt: i64, prepared: Prepared)
    requires Prepare(digest, intent, intentId, source, preparedAt) == Ok(prepared)
    ensures
      var p := prepared.preview;
      && p == PreviewOf(intent, intentId, source, preparedAt)
      && prepared.digest == digest(p) && p.intentId == intentId
      && p.sourceId == source.record.id == intent.sourceId
      && p.sourceVersion == source.record.version == intent.expectedVersion
      && p.replacementId == intent.replacementId != p.sourceId
      && source.record.fingerprint != Some(intent.fingerprint)
      && p.links == Canonical(source.links)
      && p.expiresAt == SaturatingAdd(preparedAt, TTL_MILLIS)
  {
  }

  /** The order of links in a preview: by kind of target, then by its id. */
  predicate LinkBefore(a: Link, b: Link) {
    var j, k := Discriminant(a.target.kind), Discriminant(b.target.kind);
    j < k || (j == k && Le(a.target.id, b.target.id))
  }

  lemma LinkOrder(a: Link, b: Link)
    ensures Le(LinkKey(a), LinkKey(b)) <==> LinkBefore(a, b)
  {
    assert LinkKey(a)[1..] == a.target.id && LinkKey(b)[1..] == b.target.id;
  }

  /** What an approver is shown is what was given: the source as it is, the replacement as intended,
      every link of the source in order, and the least level dominating all of them; and it stands for
      five minutes. */
  lemma PreparedShows(
    digest: Preview -> string, intent: Intent, intentId: Text, source: Current, preparedAt: i64, prepared: Prepared,
    l: Level)
    requires Prepare(digest, intent, intentId, source, preparedAt) == Ok(prepared)
    ensures prepared.createdAt == preparedAt && prepared.digest == digest(prepared.preview)
    ensures
      var p, r := prepared.preview, source.record;
      && p.intentId == intentId
      && p.sourceId == r.id && p.sourceVersion == r.version && p.sourcePath == r.path
      && p.sourceFingerprint == r.fingerprint && p.sourceLevel == r.level
      && p.replacementId == intent.replacementId && p.replacementPath == intent.replacementPath
      && p.replacementFingerprint == intent.fingerprint && p.observedAt == intent.observedAt
      && p.replacementLevel == intent.level && p.provenance == intent.provenance && p.rationale == intent.rationale
      && multiset(p.links) == multiset(source.links)
      && (forall i, j :: 0 <= i < j < |p.links| ==> LinkBefore(p.links[i], p.links[j]))
      && p.expiresAt == (if preparedAt + 300_000 < MAX_I64 then preparedAt + 300_000 else MAX_I64)
      && (Dominates(l, p.level) <==>
            && Dominates(l, r.level) && Dominates(l, intent.level)
            && forall k :: k in source.links ==> Dominates(l, k.targetLevel) && Dominates(l, k.linkLevel))
  {
    PreparedIs(digest, intent, intentId, source, preparedAt, prepared);
    PreviewLevelIsLeast(intent, intentId, source, preparedAt, l);
    SortOrders(source.links, LinkKey);
    var links := prepared.preview.links;
    forall i, j | 0 <= i < j < |links|
      ensures LinkBefore(links[i], links[j])
    {
      LinkOrder(links[i], links[j]);
    }
  }

  /** Each refusal says what stands in the way, the first that does in this order. */
  lemma PrepareRefusals(digest: Preview -> string, intent: Intent, intentId: Text, source: Current, now: i64)
    ensures
      var r, e := source.record, Prepare(digest, intent, intentId, source, now);
      var stale := r.id != intent.sourceId || r.version != intent.expectedVersion;
      var itself, same := intent.replacementId == intent.sourceId, r.fingerprint == Some(intent.fingerprint);
      && (e == Err(SourceMismatch) <==> stale)
      && (e == Err(ReplacementIsSource) <==> !stale && itself)
      && (e == Err(NotAGenuineReplacement) <==> !stale && !itself && same)
      && (e == Err(UnclassifiedReplacement) <==> !stale && !itself && !same && intent.level == Unclassified)
      && (e == Err(ReplacementLowersClassification) <==>
            !stale && !itself && !same && intent.level != Unclassified && !Dominates(intent.level, r.level))
  {
  }

  lemma ExecuteRefusals(a: Approval, prepared: Prepared, current: Current, alreadySuperseded: bool, now: i64)
    ensures
      var p, e := prepared.preview, Execute(a, prepared, current, alreadySuperseded, now);
      var named, acknowledged := a.preparedId == p.intentId, a.acknowledged == prepared.digest;
      var inTime := now < p.expiresAt;
      var drifted := current.record.id != p.sourceId || current.record.version != p.sourceVersion
                     || Canonical(current.links) != p.links;
      && (e == Err(PreparedIntentMismatch) <==> !named)
      && (e == Err(DigestMismatch) <==> named && !acknowledged)
      && (e == Err(Expired) <==> named && acknowledged && !inTime)
      && (e == Err(SourceAlreadySuperseded) <==> named && acknowledged && inTime && alreadySuperseded)
      && (e == Err(PreviewChanged) <==> named && acknowledged && inTime && !alreadySuperseded && drifted)
      && (e == Err(SourceMismatch) <==>
            named && acknowledged && inTime && !alreadySuperseded && !drifted && p.sourceVersion == U64 - 1)
  {
  }

  lemma ExecutesIff(a: Approval, prepared: Prepared, current: Current, alreadySuperseded: bool, now: i64)
    ensures
      var p := prepared.preview;
      Execute(a, prepared, current, alreadySuperseded, now).Ok? <==>
      && a.preparedId == p.intentId && a.acknowledged == prepared.digest
      && now < p.expiresAt && !alreadySuperseded
      && current.record.id == p.sourceId && current.record.version == p.sourceVersion
      && Canonical(current.links) == p.links
      && p.sourceVersion + 1 < U64
  {
  }

  /** What was prepared executes exactly when the approval names it and acknowledges its digest, it has
      not expired, and the source's identity, version and links are still those prepared, in any
      order; a version at its limit cannot be superseded. */
  lemma PreparedExecutes(
    digest: Preview -> string, intent: Intent, intentId: Text, source: Current, preparedAt: i64, prepared: Prepared,
    a: Approval, current: Current, alreadySuperseded: bool, now: i64)
    requires Prepare(digest, intent, intentId, source, preparedAt) == Ok(prepared)
    requires DistinctTargets(source.links)
    ensures
      Execute(a, prepared, current, alreadySuperseded, now).Ok? <==>
      && a.preparedId == intentId && a.acknowledged == digest(prepared.preview)
      && now < preparedAt + TTL_MILLIS && now < MAX_I64
      && !alreadySuperseded
      && current.record.id == intent.sourceId && current.record.version == intent.expectedVersion
      && multiset(current.links) == multiset(source.links)
      && intent.expectedVersion + 1 < U64
  {
    PreparedIs(digest, intent, intentId, source, preparedAt, prepared);
    ExecutesIff(a, prepared, current, alreadySuperseded, now);
    CanonicalLinks(source.links, current.links);
  }

  /** Drift in the links is what stops an execution that would otherwise go ahead. */
  lemma DriftStops(a: Approval, prepared: Prepared, current: Current, links: Links, now: i64)
    requires Execute(a, prepared, current, false, now).Ok?
    requires DistinctTargets(current.links) && multiset(links) != multiset(current.links)
    ensures Execute(a, prepared, current.(links := links), false, now) == Err(PreviewChanged)
  {
    CanonicalLinks(current.links, links);
  }

  function Targets(links: seq<Link>): (ts: seq<Target>)
    ensures |ts| == |links| && forall i :: 0 <= i < |ts| ==> ts[i] == links[i].target
  {
    seq(|links|, i requires 0 <= i < |links| => links[i].target)
  }

  function NewTargets(links: seq<NewLink>): (ts: seq<Target>)
    ensures |ts| == |links| && forall i :: 0 <= i < |ts| ==> ts[i] == links[i].target
  {
    seq(|links|, i requires 0 <= i < |links| => links[i].target)
  }

  lemma TargetsFirst(x: Link, s: seq<Link>)
    ensures multiset(Targets([x] + s)) == multiset{x.target} + multiset(Targets(s))
  {
    assert Targets([x] + s) == [x.target] + Targets(s);
  }

  lemma {:induction false} InsertTargets(x: Link, s: seq<Link>)
    ensures multiset(Targets(Insert(x, s, LinkKey))) == multiset{x.target} + multiset(Targets(s))
  {
    if s == [] || Le(LinkKey(x), LinkKey(s[0])) {
      InsertFirst(x, s, LinkKey);
      TargetsFirst(x, s);
    } else {
      var y, rest := s[0], s[1..];
      assert s == [y] + rest;
      InsertTargets(x, rest);
      InsertLater(x, y, rest, LinkKey);
      TargetsFirst(y, Insert(x, rest, LinkKey));
      TargetsFirst(y, rest);
    }
  }

  lemma {:induction false} CanonicalTargets(links: seq<Link>)
    ensures multiset(Targets(Canonical(links))) == multiset(Targets(links))
  {
    if links == [] {
    } else {
      var first, rest := links[0], links[1..];
      assert links == [first] + rest;
      CanonicalTargets(rest);
      SortFirst(first, rest, LinkKey);
      InsertTargets(first, Canonical(rest));
      TargetsFirst(first, rest);
    }
  }

  ghost predicate AllWithin(l: Level, levels: seq<Level>) {
    forall i :: 0 <= i < |levels| ==> Dominates(l, levels[i])
  }

  lemma TwoMoreLevels(a: Level, b: Level, rest: seq<Level>, l: Level)
    ensures AllWithin(l, [a, b] + rest) <==> Dominates(l, a) && Dominates(l, b) && AllWithin(l, rest)
  {
    var all := [a, b] + rest;
    assert all[0] == a && all[1] == b;
    assert forall i :: 0 <= i < |rest| ==> rest[i] == all[i + 2];
  }

  ghost predicate Bounds(l: Level, k: Link) { Dominates(l, k.targetLevel) && Dominates(l, k.linkLevel) }

  lemma {:induction false} LevelsOfLinks(links: seq<Link>, l: Level)
    ensures AllWithin(l, LinkLevels(links)) <==> forall k :: k in links ==> Bounds(l, k)
  {
    if links == [] {
    } else {
      var first, rest := links[0], links[1..];
      LevelsOfLinks(rest, l);
      TwoMoreLevels(first.targetLevel, first.linkLevel, LinkLevels(rest), l);
      assert first in links && forall k :: k in rest ==> k in links;
      forall k | k in links
        ensures k == first || k in rest
      {
        var i :| 0 <= i < |links| && links[i] == k;
        assert i > 0 ==> rest[i - 1] == k;
      }
      assert AllWithin(l, LinkLevels(links)) <==> Bounds(l, first) && AllWithin(l, LinkLevels(rest));
    }
  }

  /** The bound classification is the least one dominating the source, the replacement, and every link
      and its target. */
  lemma PreviewLevelIsLeast(intent: Intent, intentId: Text, source: Current, now: i64, l: Level)
    ensures Dominates(l, PreviewOf(intent, intentId, source, now).level) <==>
            && Dominates(l, source.record.level) && Dominates(l, intent.level)
            && forall k :: k in source.links ==> Dominates(l, k.targetLevel) && Dominates(l, k.linkLevel)
  {
    var links := Canonical(source.links);
    CombineIsJoin(source.record.level, intent.level, l);
    JoinAllIsJoin(Combine(source.record.level, intent.level), LinkLevels(links), l);
    LevelsOfLinks(links, l);
    assert forall k :: k in links <==> k in multiset(links);
    assert forall k :: k in source.links <==> k in multiset(source.links);
  }

  lemma NewLinksConserve(p: Preview, links: seq<Link>, now: i64)
    ensures
      var e := NewLinks(p, links, now);
      && NewTargets(e) == Targets(links)
      && forall n :: n in e ==> n.evidenceId == p.replacementId && n.level == p.level && n.linkedAt == now
  {
  }

  lemma EffectsOf(a: Approval, prepared: Prepared, current: Current, now: i64, e: Effects)
    requires Execute(a, prepared, current, false, now) == Ok(e)
    ensures
      var p := prepared.preview;
      && e.links == NewLinks(p, p.links, now) && |p.links| == |current.links|
      && e.sourceId == p.sourceId == current.record.id && e.sourceNewVersion == p.sourceVersion + 1
      && p.sourceVersion == current.record.version
      && e.replacement ==
         Replacement(p.replacementId, p.replacementPath, p.replacementFingerprint, p.observedAt,
                     p.replacementFingerprint.digest, p.level, p.provenance, 1, now, now)
  {
    ExecutesIff(a, prepared, current, false, now);
    assert |Canonical(current.links)| == |current.links|;
  }

  /** A completed supersession carries every link of the source over, once, leaves the source one
      version on and the replacement a different, pinned identity, all at one classification that
      dominates everything involved. */
  lemma EffectsConserve(
    digest: Preview -> string, intent: Intent, intentId: Text, source: Current, preparedAt: i64, prepared: Prepared,
    a: Approval, current: Current, now: i64, e: Effects)
    requires Prepare(digest, intent, intentId, source, preparedAt) == Ok(prepared)
    requires Execute(a, prepared, current, false, now) == Ok(e)
    ensures |e.links| == |current.links| == |source.links|
    ensures multiset(NewTargets(e.links)) == multiset(Targets(source.links))
    ensures forall n :: n in e.links ==>
              n.evidenceId == e.replacement.id && n.level == e.replacement.level && n.linkedAt == now
    ensures e.sourceId == current.record.id && e.sourceNewVersion == current.record.version + 1
    ensures e.replacement.id != e.sourceId && source.record.fingerprint != Some(e.replacement.fingerprint)
    ensures e.replacement ==
            Replacement(intent.replacementId, intent.replacementPath, intent.fingerprint, intent.observedAt,
                        intent.fingerprint.digest, e.replacement.level, intent.provenance, 1, now, now)
    ensures Dominates(e.replacement.level, source.record.level) && Dominates(e.replacement.level, intent.level)
    ensures forall k :: k in source.links ==>
              Dominates(e.replacement.level, k.targetLevel) && Dominates(e.replacement.level, k.linkLevel)
  {
    var p := prepared.preview;
    PreparedIs(digest, intent, intentId, source, preparedAt, prepared);
    EffectsOf(a, prepared, current, now, e);
    PreviewLevelIsLeast(intent, intentId, source, preparedAt, p.level);
    CanonicalTargets(source.links);
    NewLinksConserve(p, p.links, now);
  }

  /** Unless the hash collides, a digest names one preview: an approval that executes what was prepared
      acknowledged exactly what it carries out. */
  lemma DigestBindsPreview(
    digest: Preview -> string, sha256: seq<byte> -> string, a: Approval, prepared: Prepared, current: Current,
    now: i64, seen: Preview)
    requires IsDigest(digest, sha256) && prepared.digest == digest(prepared.preview)
    requires sha256(Encoding(prepared.preview)) == sha256(Encoding(seen)) ==>
               Encoding(prepared.preview) == Encoding(seen)
    requires Execute(a, prepared, current, false, now).Ok?
    ensures a.acknowledged == digest(seen) <==> seen == prepared.preview
  {
    EncodingInjective(prepared.preview, seen);
  }
}
