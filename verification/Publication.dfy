// Publishing a managed projection: an approved change set goes to disk file by
// file, and a manifest is attached only to what is really there.

module Publication {
  import opened Prelude
  import opened Sorting
  import Classification

  type Bytes = seq<byte>

  /** The bytes of a relative path. */
  type Path = seq<byte>

  datatype Fields = Fields(kind: nat, id: string, level: Classification.Level, body: string)

  datatype Artifact = Artifact(path: Path, fields: Fields, content: Bytes, payloadHash: string, finalHash: string)

  /** What this model leaves uninterpreted: hashing, rendering and naming a file. */
  datatype Env = Env(hash: Bytes -> string, render: (Fields, Option<string>) -> Bytes, pathOf: Fields -> Path)

  datatype Change = Created | Updated | Removed

  datatype ChangeEntry = ChangeEntry(path: Path, fields: Option<Fields>, change: Change)

  /** A change as approved: a file to write carries the hash approved for it. */
  datatype Approved = Approved(path: Path, change: Change, hash: Option<string>)

  datatype ManifestEntry = ManifestEntry(path: Path, finalHash: string)

  datatype ItemState = Committed | FailedItem | Untouched

  datatype ReportItem = ReportItem(path: Path, state: ItemState)

  datatype Status = Succeeded | Cancelled | Failed

  datatype Manifest = Manifest(id: string, entries: seq<ManifestEntry>)

  datatype Report = Report(status: Status, items: seq<ReportItem>, manifest: Option<Manifest>)

  type Disk = map<Path, Bytes>

  // ---- Rendering and its verification ----

  function Rendered(env: Env, f: Fields): Artifact {
    var payloadHash := env.hash(env.render(f, None));
    var content := env.render(f, Some(payloadHash));
    Artifact(env.pathOf(f), f, content, payloadHash, env.hash(content))
  }

  /** The whole staged set re-derives from its own fields. */
  predicate Verified(env: Env, staged: seq<Artifact>) {
    forall i :: 0 <= i < |staged| ==> staged[i] == Rendered(env, staged[i].fields)
  }

  // ---- The change set ----

  function ArtifactFor(staged: seq<Artifact>, path: Path): Option<Artifact> {
    if staged == [] then None
    else if staged[0].path == path then Some(staged[0])
    else ArtifactFor(staged[1..], path)
  }

  function PublishedHash(published: seq<ManifestEntry>, path: Path): Option<string> {
    if published == [] then None
    else
      var last := published[|published| - 1];
      if last.path == path then Some(last.finalHash) else PublishedHash(published[..|published| - 1], path)
  }

  function FreshChange(published: seq<ManifestEntry>): Artifact -> seq<ChangeEntry> {
    (a: Artifact) =>
      var before := PublishedHash(published, a.path);
      if before.None? then [ChangeEntry(a.path, Some(a.fields), Created)]
      else if before.value != a.finalHash then [ChangeEntry(a.path, Some(a.fields), Updated)]
      else []
  }

  function GoneChange(staged: seq<Artifact>): ManifestEntry -> seq<ChangeEntry> {
    (e: ManifestEntry) => if ArtifactFor(staged, e.path).None? then [ChangeEntry(e.path, None, Removed)] else []
  }

  function PathKey(e: ChangeEntry): Key { e.path }

  function Diff(staged: seq<Artifact>, published: seq<ManifestEntry>): seq<ChangeEntry> {
    Sort(FlatMap(staged, FreshChange(published)) + FlatMap(published, GoneChange(staged)), PathKey)
  }

  function ApprovedEntry(staged: seq<Artifact>): ChangeEntry -> seq<Approved> {
    (e: ChangeEntry) =>
      var artifact := ArtifactFor(staged, e.path);
      if e.change == Removed then [Approved(e.path, Removed, None)]
      else if artifact.None? then []
      else [Approved(e.path, e.change, Some(artifact.value.finalHash))]
  }

  /** What a prepared intent binds; an entry without its artifact is dropped, not guessed at. */
  function H2aEntries(changes: seq<ChangeEntry>, staged: seq<Artifact>): seq<Approved> {
    FlatMap(changes, ApprovedEntry(staged))
  }

  // ---- What a report says ----

  /** How many items were committed before the first that was not. */
  function Leading(items: seq<ReportItem>): (n: nat)
    ensures n <= |items| && forall i :: 0 <= i < n ==> items[i].state == Committed
    ensures n < |items| ==> items[n].state != Committed
  {
    if items == [] || items[0].state != Committed then 0 else 1 + Leading(items[1..])
  }

  lemma LeadingIs(items: seq<ReportItem>, c: nat)
    requires c <= |items| && (forall i :: 0 <= i < c ==> items[i].state == Committed)
    requires c < |items| ==> items[c].state != Committed
    ensures Leading(items) == c
  {
  }

  predicate DistinctPaths(changes: seq<Approved>) {
    forall i, j :: 0 <= i < j < |changes| ==> changes[i].path != changes[j].path
  }

  /** The path holds what was approved for it. */
  predicate Landed(env: Env, disk: Disk, staged: seq<Artifact>, e: Approved) {
    if e.change == Removed then e.path !in disk
    else
      && e.path in disk
      && e.hash == Some(env.hash(disk[e.path]))
      && ArtifactFor(staged, e.path).Some? && disk[e.path] == ArtifactFor(staged, e.path).value.content
  }

  /** What was approved for the path is what is staged for it. */
  predicate Publishable(staged: seq<Artifact>, e: Approved) {
    || e.change == Removed
    || (ArtifactFor(staged, e.path).Some? && e.hash == Some(ArtifactFor(staged, e.path).value.finalHash))
  }

  /** No path has changed but those of the first `c` changes; and these have landed, if no path is
      changed twice. */
  ghost predicate Published(env: Env, before: Disk, after: Disk, staged: seq<Artifact>, changes: seq<Approved>, c: nat)
    requires c <= |changes|
  {
    && (forall p :: (forall i :: 0 <= i < c ==> changes[i].path != p) ==> Look(after, p) == Look(before, p))
    && (DistinctPaths(changes) ==> forall i :: 0 <= i < c ==> Landed(env, after, staged, changes[i]))
  }

  lemma {:induction false} ArtifactForHas(staged: seq<Artifact>, path: Path)
    ensures
      var a := ArtifactFor(staged, path);
      if a.Some? then a.value in staged && a.value.path == path
      else forall i :: 0 <= i < |staged| ==> staged[i].path != path
  {
    if staged == [] {
    } else {
      assert staged == [staged[0]] + staged[1..];
      ArtifactForHas(staged[1..], path);
    }
  }

  lemma PublishedMore(
    env: Env, before: Disk, disk: Disk, after: Disk, staged: seq<Artifact>, changes: seq<Approved>, c: nat)
    requires c < |changes| && Published(env, before, disk, staged, changes, c)
    requires Landed(env, after, staged, changes[c])
    requires forall p :: p != changes[c].path ==> Look(after, p) == Look(disk, p)
    ensures Published(env, before, after, staged, changes, c + 1)
  {
    forall i | 0 <= i < c && DistinctPaths(changes)
      ensures Landed(env, after, staged, changes[i])
    {
      assert Look(after, changes[i].path) == Look(disk, changes[i].path);
    }
  }

  /** The whole set is on disk with exactly the bytes it was hashed as. */
  predicate Matches(env: Env, disk: Disk, staged: seq<Artifact>) {
    forall i :: 0 <= i < |staged| ==> staged[i].path in disk && env.hash(disk[staged[i].path]) == staged[i].finalHash
  }

  function ManifestEntries(staged: seq<Artifact>): (es: seq<ManifestEntry>)
    ensures |es| == |staged|
    ensures forall i :: 0 <= i < |staged| ==> es[i] == ManifestEntry(staged[i].path, staged[i].finalHash)
  {
    seq(|staged|, i requires 0 <= i < |staged| => ManifestEntry(staged[i].path, staged[i].finalHash))
  }

  function AllUntouched(changes: seq<Approved>): (items: seq<ReportItem>)
    ensures |items| == |changes|
    ensures forall i :: 0 <= i < |items| ==> items[i] == ReportItem(changes[i].path, Untouched)
  {
    seq(|changes|, i requires 0 <= i < |changes| => ReportItem(changes[i].path, Untouched))
  }

  /** The publication of some first changes, at most `c`. */
  ghost predicate IsPrefix(env: Env, before: Disk, disk: Disk, staged: seq<Artifact>, changes: seq<Approved>, c: nat)
    requires c <= |changes|
  {
    exists b: nat :: b <= c && Published(env, before, disk, staged, changes, b)
  }

  ghost predicate Prefixes(
    env: Env, before: Disk, passed: seq<Disk>, from: nat, staged: seq<Artifact>, changes: seq<Approved>, c: nat)
    requires c <= |changes|
  {
    forall k :: from <= k < |passed| ==> IsPrefix(env, before, passed[k], staged, changes, c)
  }

  lemma PrefixesMore(
    env: Env, before: Disk, was: seq<Disk>, passed: seq<Disk>, from: nat, now: Disk, after: Disk,
    staged: seq<Artifact>, changes: seq<Approved>, c: nat, d: nat)
    requires c <= d <= |changes| && was <= passed
    requires Prefixes(env, before, was, from, staged, changes, c)
    requires Published(env, before, now, staged, changes, c) && Published(env, before, after, staged, changes, d)
    requires forall k :: |was| <= k < |passed| ==> passed[k] == now || passed[k] == after
    ensures Prefixes(env, before, passed, from, staged, changes, d)
  {
    forall k | from <= k < |passed|
      ensures IsPrefix(env, before, passed[k], staged, changes, d)
    {
      if k < |was| {
        assert IsPrefix(env, before, was[k], staged, changes, c) && passed[k] == was[k];
      }
    }
  }

  /** `disk` holds the managed files, `stages` the temporary name beside each destination, which no
      managed file has. Which effects fail is given, `taken` of them having been tried. `passed` is a
      history variable: the managed files after each single effect, any of which the power may fail
      after. */
  class Publisher {
    const env: Env
    const fails: nat -> bool
    var taken: nat
    var disk: Disk
    var stages: Disk
    ghost var passed: seq<Disk>

    constructor (env: Env, fails: nat -> bool, disk: Disk, stages: Disk)
      ensures this.env == env && this.fails == fails && this.disk == disk && this.stages == stages && passed == []
    {
      this.env, this.fails, taken, this.disk, this.stages, passed := env, fails, 0, disk, stages, [];
    }

    /** No effect since the first `since` has failed. */
    ghost predicate NoFault(since: nat)
      reads this
    {
      forall k :: since <= k < taken ==> !fails(k)
    }

    /** Whether the next effect succeeds. */
    method Try() returns (ok: bool)
      modifies this`taken
      ensures ok == !fails(old(taken)) && taken == old(taken) + 1
    {
      ok := !fails(taken);
      taken := taken + 1;
    }

    // ---- Single effects ----

    ghost method Note()
      modifies this`passed
      ensures passed == old(passed) + [disk]
    {
      passed := passed + [disk];
    }

    /** Nothing already at the temporary name is opened through: a regular leftover is removed first,
        and one that is not regular or cannot be removed makes this fail. */
    method OpenStage(path: Path) returns (ok: bool)
      modifies this`stages, this`passed, this`taken
      ensures ok ==> stages == old(stages)[path := []]
      ensures stages - {path} == old(stages) - {path}
      ensures old(passed) <= passed && forall k :: |old(passed)| <= k < |passed| ==> passed[k] == disk
      ensures old(taken) < taken && (NoFault(old(taken)) ==> ok)
    {
      if path in stages {
        var removed := Try();
        if !removed { return false; }
        stages := stages - {path};
        Note();
      }
      ok := Try();
      if ok {
        stages := stages[path := []];
      }
      Note();
    }

    /** Written piece by piece and flushed: until then the temporary name holds any first part. */
    method WriteStage(path: Path, content: Bytes) returns (ok: bool)
      requires path in stages && stages[path] == []
      modifies this`stages, this`passed, this`taken
      ensures path in stages && stages[path] <= content && (ok ==> stages[path] == content)
      ensures stages - {path} == old(stages) - {path}
      ensures old(passed) <= passed && forall k :: |old(passed)| <= k < |passed| ==> passed[k] == disk
      ensures old(taken) <= taken && (NoFault(old(taken)) ==> ok)
    {
      var written := 0;
      while written < |content|
        invariant written <= |content| && path in stages && stages[path] == content[..written]
        invariant stages - {path} == old(stages) - {path}
        invariant old(passed) <= passed && forall k :: |old(passed)| <= k < |passed| ==> passed[k] == disk
        invariant old(taken) <= taken
      {
        var wrote := Try();
        if !wrote { return false; }
        var more: nat :| written < more <= |content|;
        written := more;
        stages := stages[path := content[..written]];
        Note();
      }
      ok := Try();
      Note();
    }

    method RenameStage(path: Path) returns (ok: bool)
      requires path in stages
      modifies this`disk, this`stages, this`passed, this`taken
      ensures ok ==> disk == old(disk)[path := old(stages)[path]] && stages == old(stages) - {path}
      ensures !ok ==> disk == old(disk) && stages == old(stages)
      ensures passed == old(passed) + [disk]
      ensures old(taken) <= taken && (NoFault(old(taken)) ==> ok)
    {
      ok := Try();
      if ok {
        disk, stages := disk[path := stages[path]], stages - {path};
      }
      Note();
    }

    /** A failed publication tries to leave no temporary file. */
    method DropStage(path: Path)
      modifies this`stages, this`passed, this`taken
      ensures stages - {path} == old(stages) - {path}
      ensures passed == old(passed) + [disk]
      ensures old(taken) <= taken && (NoFault(old(taken)) ==> path !in stages)
    {
      var removed := Try();
      if removed {
        stages := stages - {path};
      }
      Note();
    }

    // ---- Files ----

    /** Staged beside the destination and renamed over it. After every single effect the destination
        holds all of the old bytes or all of the new ones, never a part, and no other file changes. */
    method PublishFile(path: Path, content: Bytes) returns (ok: bool)
      modifies this`disk, this`stages, this`passed, this`taken
      ensures disk == if ok then old(disk)[path := content] else old(disk)
      ensures ok ==> path !in stages
      ensures old(taken) <= taken && (NoFault(old(taken)) ==> ok)
      ensures stages - {path} == old(stages) - {path}
      ensures old(passed) <= passed
      ensures forall k :: |old(passed)| <= k < |passed| ==> passed[k] == old(disk) || passed[k] == disk
    {
      ok := OpenStage(path);
      if ok {
        ok := WriteStage(path, content);
      }
      if ok {
        ok := RenameStage(path);
      }
      if !ok {
        DropStage(path);
      }
    }

    /** A path already absent succeeds. */
    method RemoveFile(path: Path) returns (ok: bool)
      modifies this`disk, this`passed, this`taken
      ensures disk == if ok then old(disk) - {path} else old(disk)
      ensures passed == old(passed) + [disk]
      ensures old(taken) <= taken && (NoFault(old(taken)) ==> ok)
    {
      ok := Try();
      if ok {
        disk := disk - {path};
      }
      Note();
    }

    /** Refuses what was not approved for the path, and otherwise fails only if an effect does. */
    method PublishEntry(staged: seq<Artifact>, e: Approved) returns (ok: bool)
      requires Verified(env, staged)
      modifies this`disk, this`stages, this`passed, this`taken
      ensures ok ==> Landed(env, disk, staged, e) && forall p :: p != e.path ==> Look(disk, p) == Look(old(disk), p)
      ensures !ok ==> disk == old(disk)
      ensures ok ==> Publishable(staged, e)
      ensures old(taken) <= taken && (NoFault(old(taken)) && Publishable(staged, e) ==> ok)
      ensures old(passed) <= passed
      ensures forall k :: |old(passed)| <= k < |passed| ==> passed[k] == old(disk) || passed[k] == disk
    {
      var artifact := ArtifactFor(staged, e.path);
      ArtifactForHas(staged, e.path);
      if e.change == Removed {
        ok := RemoveFile(e.path);
      } else if artifact.None? || e.hash != Some(artifact.value.finalHash) {
        ok := false;
      } else {
        ok := PublishFile(e.path, artifact.value.content);
      }
    }

    /** Stops at the first failure, or before the first change where it is asked to, and nowhere else.
        Lost power leaves the publication of some first changes, each whole. */
    method PublishChangeSet(staged: seq<Artifact>, changes: seq<Approved>, asked: nat -> bool)
      returns (report: Report)
      modifies this`disk, this`stages, this`passed, this`taken
      ensures report.manifest.None? && |report.items| == |changes|
      ensures old(passed) <= passed
      ensures Prefixes(env, old(disk), passed, |old(passed)|, staged, changes, Leading(report.items))
      ensures forall i :: 0 <= i < |changes| ==> report.items[i].path == changes[i].path
      ensures forall i :: Leading(report.items) < i < |changes| ==> report.items[i].state == Untouched
      ensures Published(env, old(disk), disk, staged, changes, Leading(report.items))
      ensures report.status == Succeeded <==> Verified(env, staged) && Leading(report.items) == |changes|
      ensures !Verified(env, staged) ==> report.status == Failed && disk == old(disk) && Leading(report.items) == 0
      ensures report.status == Cancelled ==>
                && Leading(report.items) < |changes| && report.items[Leading(report.items)].state == Untouched
                && asked(Leading(report.items))
      ensures report.status == Failed && Verified(env, staged) ==>
                && Leading(report.items) < |changes| && report.items[Leading(report.items)].state == FailedItem
                && (NoFault(old(taken)) ==> !Publishable(staged, changes[Leading(report.items)]))
      ensures forall i :: 0 <= i < Leading(report.items) ==> !asked(i) && Publishable(staged, changes[i])
      ensures old(taken) <= taken
    {
      if !Verified(env, staged) {
        LeadingIs(AllUntouched(changes), 0);
        return Report(Failed, AllUntouched(changes), None);
      }
      var items: seq<ReportItem>, failed, cancelled := [], false, false;
      ghost var c := 0;
      ghost var before, was := disk, passed;
      for i := 0 to |changes|
        invariant |items| == i && c <= i && forall k :: 0 <= k < i ==> items[k].path == changes[k].path
        invariant forall k :: 0 <= k < c ==> items[k].state == Committed
        invariant forall k :: c < k < i ==> items[k].state == Untouched
        invariant c < i ==> if failed then items[c].state == FailedItem else cancelled && items[c].state == Untouched
        invariant failed || cancelled <==> c < i
        invariant !(failed && cancelled)
        invariant Published(env, before, disk, staged, changes, c)
        invariant old(taken) <= taken
        invariant forall k :: 0 <= k < c ==> !asked(k) && Publishable(staged, changes[k])
        invariant cancelled ==> asked(c)
        invariant failed ==> NoFault(old(taken)) ==> !Publishable(staged, changes[c])
        invariant was <= passed && Prefixes(env, before, passed, |was|, staged, changes, c)
      {
        if !failed && !cancelled {
          cancelled := asked(i);
        }
        if failed || cancelled {
          items := items + [ReportItem(changes[i].path, Untouched)];
          continue;
        }
        ghost var now, noted := disk, passed;
        var ok := PublishEntry(staged, changes[i]);
        if ok {
          PublishedMore(env, before, now, disk, staged, changes, i);
        }
        PrefixesMore(env, before, noted, passed, |was|, now, disk, staged, changes, c, if ok then c + 1 else c);
        if ok {
          items := items + [ReportItem(changes[i].path, Committed)];
          c := c + 1;
        } else {
          failed := true;
          items := items + [ReportItem(changes[i].path, FailedItem)];
        }
      }
      LeadingIs(items, c);
      var everything := forall k :: 0 <= k < |items| ==> items[k].state == Committed;
      report := Report(if everything then Succeeded else if cancelled then Cancelled else Failed, items, None);
    }

    /** What is on disk is read again: only that makes a publication synchronized. */
    method AttachVerifiedManifest(staged: seq<Artifact>, report: Report, id: string) returns (r: Report)
      ensures r.status == report.status && r.items == report.items
      ensures r.manifest.Some? <==>
              && report.status == Succeeded
              && (forall i :: 0 <= i < |report.items| ==> report.items[i].state == Committed)
              && Matches(env, disk, staged)
      ensures r.manifest.Some? ==> r.manifest.value == Manifest(id, ManifestEntries(staged))
    {
      var committed :=
        report.status == Succeeded && forall i :: 0 <= i < |report.items| ==> report.items[i].state == Committed;
      if !committed || !Matches(env, disk, staged) {
        r := report.(manifest := None);
      } else {
        r := report.(manifest := Some(Manifest(id, ManifestEntries(staged))));
      }
    }

    /** From a disk that holds what was last published, publishing the difference that succeeds leaves
        exactly the staged set: it verifies, what left the set is gone, and no other path has changed.
        It does succeed if the set verifies, no effect fails and nobody asks to stop. */
    method Synchronize(staged: seq<Artifact>, published: seq<ManifestEntry>, id: string, asked: nat -> bool)
      returns (r: Report)
      requires DistinctArtifacts(staged) && DistinctManifest(published)
      requires Holds(env, disk, published)
      modifies this`disk, this`stages, this`passed, this`taken
      ensures r.manifest.Some? <==> r.status == Succeeded
      ensures Verified(env, staged) && NoFault(old(taken)) && (forall i: nat :: !asked(i)) ==> r.status == Succeeded
      ensures r.status == Succeeded ==>
                && Matches(env, disk, staged)
                && (forall i :: 0 <= i < |published| && ArtifactFor(staged, published[i].path).None? ==>
                      published[i].path !in disk)
                && (forall p :: ArtifactFor(staged, p).None? && PublishedHash(published, p).None? ==>
                      Look(disk, p) == Look(old(disk), p))
      ensures r.manifest.Some? ==> Holds(env, disk, r.manifest.value.entries)
    {
      var changes := H2aEntries(Diff(staged, published), staged);
      ChangesDistinct(staged, published);
      var report := PublishChangeSet(staged, changes, asked);
      forall i | 0 <= i < |changes|
        ensures Publishable(staged, changes[i])
      {
        EntryPublishable(Diff(staged, published), staged, i);
      }
      if report.status == Succeeded {
        SucceededMatches(env, old(disk), disk, staged, published);
      }
      r := AttachVerifiedManifest(staged, report, id);
    }
  }

  predicate DistinctArtifacts(staged: seq<Artifact>) {
    forall i, j :: 0 <= i < j < |staged| ==> staged[i].path != staged[j].path
  }

  predicate DistinctManifest(published: seq<ManifestEntry>) {
    forall i, j :: 0 <= i < j < |published| ==> published[i].path != published[j].path
  }

  predicate Holds(env: Env, disk: Disk, published: seq<ManifestEntry>) {
    forall i :: 0 <= i < |published| ==>
      published[i].path in disk && env.hash(disk[published[i].path]) == published[i].finalHash
  }

  // ---- The change set covers the difference ----

  lemma {:induction false} PublishedHashHas(published: seq<ManifestEntry>, path: Path)
    ensures
      var h := PublishedHash(published, path);
      if h.Some? then ManifestEntry(path, h.value) in published
      else forall i :: 0 <= i < |published| ==> published[i].path != path
  {
    if published == [] {
    } else {
      var n := |published| - 1;
      assert published == published[..n] + [published[n]];
      PublishedHashHas(published[..n], path);
    }
  }

  lemma ArtifactIs(staged: seq<Artifact>, i: nat)
    requires i < |staged| && DistinctArtifacts(staged)
    ensures ArtifactFor(staged, staged[i].path) == Some(staged[i])
  {
    ArtifactForHas(staged, staged[i].path);
  }

  lemma DiffHas(staged: seq<Artifact>, published: seq<ManifestEntry>, e: ChangeEntry)
    ensures e in Diff(staged, published) <==>
            || (exists i :: 0 <= i < |staged| && e in FreshChange(published)(staged[i]))
            || (exists j :: 0 <= j < |published| && e in GoneChange(staged)(published[j]))
  {
    var all := FlatMap(staged, FreshChange(published)) + FlatMap(published, GoneChange(staged));
    assert e in Diff(staged, published) <==> e in multiset(Diff(staged, published));
    assert e in all <==> e in multiset(all);
    FlatMapHas(staged, FreshChange(published), e);
    FlatMapHas(published, GoneChange(staged), e);
  }

  lemma EntryHas(diff: seq<ChangeEntry>, staged: seq<Artifact>, e: ChangeEntry) returns (k: nat)
    requires e in diff && (e.change != Removed ==> ArtifactFor(staged, e.path).Some?)
    ensures k < |H2aEntries(diff, staged)|
    ensures H2aEntries(diff, staged)[k].path == e.path && H2aEntries(diff, staged)[k].change == e.change
  {
    var n :| 0 <= n < |diff| && diff[n] == e;
    var a := ApprovedEntry(staged)(diff[n])[0];
    assert a in ApprovedEntry(staged)(diff[n]);
    FlatMapHas(diff, ApprovedEntry(staged), a);
    k :| 0 <= k < |H2aEntries(diff, staged)| && H2aEntries(diff, staged)[k] == a;
  }

  lemma EntryFrom(diff: seq<ChangeEntry>, staged: seq<Artifact>, k: nat) returns (e: ChangeEntry)
    requires k < |H2aEntries(diff, staged)|
    ensures e in diff && H2aEntries(diff, staged)[k].path == e.path
    ensures H2aEntries(diff, staged)[k].change == e.change
  {
    var a := H2aEntries(diff, staged)[k];
    FlatMapHas(diff, ApprovedEntry(staged), a);
    var n :| 0 <= n < |diff| && a in ApprovedEntry(staged)(diff[n]);
    e := diff[n];
  }

  lemma EntryPublishable(diff: seq<ChangeEntry>, staged: seq<Artifact>, k: nat)
    requires k < |H2aEntries(diff, staged)|
    ensures Publishable(staged, H2aEntries(diff, staged)[k])
  {
    var a := H2aEntries(diff, staged)[k];
    FlatMapHas(diff, ApprovedEntry(staged), a);
    var n :| 0 <= n < |diff| && a in ApprovedEntry(staged)(diff[n]);
  }

  lemma DiffParts(staged: seq<Artifact>, published: seq<ManifestEntry>, e: ChangeEntry)
    ensures e in Diff(staged, published) <==>
            e in FlatMap(staged, FreshChange(published)) || e in FlatMap(published, GoneChange(staged))
  {
    SortedHas(FlatMap(staged, FreshChange(published)) + FlatMap(published, GoneChange(staged)), PathKey, e);
  }

  lemma FreshFrom(staged: seq<Artifact>, published: seq<ManifestEntry>, e: ChangeEntry) returns (a: Artifact)
    requires e in Diff(staged, published) && e.change != Removed
    ensures a in staged && e in FreshChange(published)(a)
  {
    DiffParts(staged, published, e);
    if e in FlatMap(published, GoneChange(staged)) {
      var m := Contributor(published, GoneChange(staged), e);
    }
    a := Contributor(staged, FreshChange(published), e);
  }

  lemma FreshIn(staged: seq<Artifact>, published: seq<ManifestEntry>, a: Artifact, e: ChangeEntry)
    requires a in staged && e in FreshChange(published)(a)
    ensures e in Diff(staged, published)
  {
    DiffHas(staged, published, e);
  }

  lemma GoneFrom(staged: seq<Artifact>, published: seq<ManifestEntry>, e: ChangeEntry) returns (m: ManifestEntry)
    requires e in Diff(staged, published) && e.change == Removed
    ensures m in published && e in GoneChange(staged)(m)
  {
    DiffParts(staged, published, e);
    if e in FlatMap(staged, FreshChange(published)) {
      var a := Contributor(staged, FreshChange(published), e);
    }
    m := Contributor(published, GoneChange(staged), e);
  }

  lemma GoneIn(staged: seq<Artifact>, published: seq<ManifestEntry>, m: ManifestEntry, e: ChangeEntry)
    requires m in published && e in GoneChange(staged)(m)
    ensures e in Diff(staged, published)
  {
    DiffHas(staged, published, e);
  }

  predicate StagedAs(a: Artifact, e: ChangeEntry) { a.path == e.path && e.fields == Some(a.fields) }

  ghost predicate PublishedAt(published: seq<ManifestEntry>, path: Path) {
    exists m :: m in published && m.path == path
  }

  lemma PublishedAtIs(published: seq<ManifestEntry>, path: Path)
    ensures PublishedHash(published, path).Some? <==> PublishedAt(published, path)
  {
    PublishedHashHas(published, path);
  }

  lemma PublishedHashIs(published: seq<ManifestEntry>, m: ManifestEntry)
    requires DistinctManifest(published) && m in published
    ensures PublishedHash(published, m.path) == Some(m.finalHash)
  {
    PublishedHashHas(published, m.path);
    var j :| 0 <= j < |published| && published[j] == m;
  }

  ghost predicate IsCreated(staged: seq<Artifact>, published: seq<ManifestEntry>, e: ChangeEntry) {
    !PublishedAt(published, e.path) && exists a :: a in staged && StagedAs(a, e)
  }

  ghost predicate IsUpdated(staged: seq<Artifact>, published: seq<ManifestEntry>, e: ChangeEntry) {
    exists a, m :: a in staged && m in published && StagedAs(a, e) && m.path == e.path && a.finalHash != m.finalHash
  }

  ghost predicate IsRemoved(staged: seq<Artifact>, published: seq<ManifestEntry>, e: ChangeEntry) {
    e.fields == None && PublishedAt(published, e.path) && ArtifactFor(staged, e.path).None?
  }

  lemma FreshIs(published: seq<ManifestEntry>, a: Artifact, e: ChangeEntry)
    requires e in FreshChange(published)(a)
    ensures StagedAs(a, e) && (e.change == Created <==> PublishedHash(published, e.path).None?)
    ensures PublishedHash(published, e.path).Some? ==> a.finalHash != PublishedHash(published, e.path).value
  {
  }

  lemma CreatedSays(staged: seq<Artifact>, published: seq<ManifestEntry>, e: ChangeEntry)
    requires e.change == Created && e in Diff(staged, published)
    ensures IsCreated(staged, published, e)
  {
    var a := FreshFrom(staged, published, e);
    FreshIs(published, a, e);
    PublishedAtIs(published, e.path);
  }

  lemma CreatedIs(staged: seq<Artifact>, published: seq<ManifestEntry>, e: ChangeEntry)
    requires e.change == Created
    ensures e in Diff(staged, published) <==> IsCreated(staged, published, e)
  {
    if e in Diff(staged, published) {
      CreatedSays(staged, published, e);
    } else if IsCreated(staged, published, e) {
      PublishedAtIs(published, e.path);
      var a :| a in staged && StagedAs(a, e);
      FreshIn(staged, published, a, e);
    }
  }

  lemma UpdatedSays(staged: seq<Artifact>, published: seq<ManifestEntry>, e: ChangeEntry)
    requires DistinctManifest(published) && e.change == Updated && e in Diff(staged, published)
    ensures IsUpdated(staged, published, e)
  {
    var a := FreshFrom(staged, published, e);
    FreshIs(published, a, e);
    PublishedHashHas(published, e.path);
    var m := ManifestEntry(e.path, PublishedHash(published, e.path).value);
    assert m in published && StagedAs(a, e) && m.path == e.path && a.finalHash != m.finalHash;
  }

  lemma UpdatedIs(staged: seq<Artifact>, published: seq<ManifestEntry>, e: ChangeEntry)
    requires DistinctManifest(published) && e.change == Updated
    ensures e in Diff(staged, published) <==> IsUpdated(staged, published, e)
  {
    if e in Diff(staged, published) {
      UpdatedSays(staged, published, e);
    } else if IsUpdated(staged, published, e) {
      var a, m :| a in staged && m in published && StagedAs(a, e) && m.path == e.path && a.finalHash != m.finalHash;
      PublishedHashIs(published, m);
      FreshIn(staged, published, a, e);
    }
  }

  lemma RemovedIs(staged: seq<Artifact>, published: seq<ManifestEntry>, e: ChangeEntry)
    requires e.change == Removed
    ensures e in Diff(staged, published) <==> IsRemoved(staged, published, e)
  {
    if e in Diff(staged, published) {
      var m := GoneFrom(staged, published, e);
      assert m.path == e.path;
    }
    if IsRemoved(staged, published, e) {
      var m :| m in published && m.path == e.path;
      GoneIn(staged, published, m, e);
    }
  }

  /** What the difference says: created is what is staged and was not published, updated what is staged
      under another hash than was published, removed what was published and is not staged. */
  lemma DiffSays(staged: seq<Artifact>, published: seq<ManifestEntry>, e: ChangeEntry)
    requires DistinctManifest(published)
    ensures e in Diff(staged, published) <==>
            match e.change
            case Created => IsCreated(staged, published, e)
            case Updated => IsUpdated(staged, published, e)
            case Removed => IsRemoved(staged, published, e)
  {
    match e.change
    case Created => CreatedIs(staged, published, e);
    case Updated => UpdatedIs(staged, published, e);
    case Removed => RemovedIs(staged, published, e);
  }

  /** Of one path the difference says one thing. */
  lemma DiffKeysDistinct(staged: seq<Artifact>, published: seq<ManifestEntry>)
    requires DistinctArtifacts(staged) && DistinctManifest(published)
    ensures DistinctKeys(Diff(staged, published), PathKey)
  {
    FreshDistinct(staged, published);
    GoneDistinct(published, staged);
    var a, b := FlatMap(staged, FreshChange(published)), FlatMap(published, GoneChange(staged));
    forall i, j | 0 <= i < |a| && 0 <= j < |b|
      ensures a[i].path != b[j].path
    {
      FlatMapHas(staged, FreshChange(published), a[i]);
      FlatMapHas(published, GoneChange(staged), b[j]);
      ArtifactForHas(staged, b[j].path);
    }
    SortDistinct(a + b, PathKey);
  }

  lemma {:induction false} FreshDistinct(staged: seq<Artifact>, published: seq<ManifestEntry>)
    requires DistinctArtifacts(staged)
    ensures DistinctKeys(FlatMap(staged, FreshChange(published)), PathKey)
  {
    if staged == [] {
    } else {
      FreshDistinct(staged[1..], published);
      var rest := FlatMap(staged[1..], FreshChange(published));
      forall j | 0 <= j < |rest|
        ensures rest[j].path != staged[0].path
      {
        FlatMapHas(staged[1..], FreshChange(published), rest[j]);
        var i :| 0 <= i < |staged[1..]| && rest[j] in FreshChange(published)(staged[1..][i]);
        assert staged[1..][i] == staged[i + 1];
      }
    }
  }

  lemma {:induction false} GoneDistinct(published: seq<ManifestEntry>, staged: seq<Artifact>)
    requires DistinctManifest(published)
    ensures DistinctKeys(FlatMap(published, GoneChange(staged)), PathKey)
  {
    if published == [] {
    } else {
      GoneDistinct(published[1..], staged);
      var rest := FlatMap(published[1..], GoneChange(staged));
      forall j | 0 <= j < |rest|
        ensures rest[j].path != published[0].path
      {
        FlatMapHas(published[1..], GoneChange(staged), rest[j]);
        var i :| 0 <= i < |published[1..]| && rest[j] in GoneChange(staged)(published[1..][i]);
        assert published[1..][i] == published[i + 1];
      }
    }
  }

  lemma {:induction false} ApprovedDistinct(changes: seq<ChangeEntry>, staged: seq<Artifact>)
    requires DistinctKeys(changes, PathKey)
    ensures DistinctPaths(H2aEntries(changes, staged))
  {
    if changes == [] {
    } else {
      ApprovedDistinct(changes[1..], staged);
      var rest := H2aEntries(changes[1..], staged);
      forall j | 0 <= j < |rest|
        ensures rest[j].path != changes[0].path
      {
        FlatMapHas(changes[1..], ApprovedEntry(staged), rest[j]);
        var i :| 0 <= i < |changes[1..]| && rest[j] in ApprovedEntry(staged)(changes[1..][i]);
        assert changes[1..][i] == changes[i + 1];
      }
    }
  }

  lemma ChangesDistinct(staged: seq<Artifact>, published: seq<ManifestEntry>)
    requires DistinctArtifacts(staged) && DistinctManifest(published)
    ensures DistinctPaths(H2aEntries(Diff(staged, published), staged))
  {
    DiffKeysDistinct(staged, published);
    ApprovedDistinct(Diff(staged, published), staged);
  }

  lemma FreshLands(
    env: Env, before: Disk, after: Disk, staged: seq<Artifact>, published: seq<ManifestEntry>, i: nat)
    requires DistinctArtifacts(staged) && DistinctManifest(published) && Holds(env, before, published) && i < |staged|
    requires Verified(env, staged)
    requires
      var changes := H2aEntries(Diff(staged, published), staged);
      Published(env, before, after, staged, changes, |changes|)
    ensures staged[i].path in after && env.hash(after[staged[i].path]) == staged[i].finalHash
  {
    var changes, path := H2aEntries(Diff(staged, published), staged), staged[i].path;
    ChangesDistinct(staged, published);
    ArtifactIs(staged, i);
    PublishedHashHas(published, path);
    var given := FreshChange(published)(staged[i]);
    if given != [] {
      DiffHas(staged, published, given[0]);
      var k := EntryHas(Diff(staged, published), staged, given[0]);
      assert Landed(env, after, staged, changes[k]);
    } else {
      if k :| 0 <= k < |changes| && changes[k].path == path {
        NotChanged(staged, published, i, k);
      }
      assert Look(after, path) == Look(before, path);
    }
  }

  lemma NotChanged(staged: seq<Artifact>, published: seq<ManifestEntry>, i: nat, k: nat)
    requires DistinctArtifacts(staged) && i < |staged| && FreshChange(published)(staged[i]) == []
    requires k < |H2aEntries(Diff(staged, published), staged)|
    ensures H2aEntries(Diff(staged, published), staged)[k].path != staged[i].path
  {
    var e := EntryFrom(Diff(staged, published), staged, k);
    DiffHas(staged, published, e);
    ArtifactForHas(staged, e.path);
  }

  lemma GoneIsGone(
    env: Env, before: Disk, after: Disk, staged: seq<Artifact>, published: seq<ManifestEntry>, j: nat)
    requires DistinctArtifacts(staged) && DistinctManifest(published)
    requires j < |published| && ArtifactFor(staged, published[j].path).None?
    requires
      var changes := H2aEntries(Diff(staged, published), staged);
      Published(env, before, after, staged, changes, |changes|)
    ensures published[j].path !in after
  {
    var changes := H2aEntries(Diff(staged, published), staged);
    ChangesDistinct(staged, published);
    var e := ChangeEntry(published[j].path, None, Removed);
    assert e in GoneChange(staged)(published[j]);
    DiffHas(staged, published, e);
    var k := EntryHas(Diff(staged, published), staged, e);
    assert Landed(env, after, staged, changes[k]);
  }

  lemma OthersStay(
    env: Env, before: Disk, after: Disk, staged: seq<Artifact>, published: seq<ManifestEntry>, p: Path)
    requires ArtifactFor(staged, p).None? && PublishedHash(published, p).None?
    requires
      var changes := H2aEntries(Diff(staged, published), staged);
      Published(env, before, after, staged, changes, |changes|)
    ensures Look(after, p) == Look(before, p)
  {
    var changes := H2aEntries(Diff(staged, published), staged);
    forall k | 0 <= k < |changes|
      ensures changes[k].path != p
    {
      var e := EntryFrom(Diff(staged, published), staged, k);
      DiffElsewhere(staged, published, e, p);
    }
  }

  lemma FreshChangePath(staged: seq<Artifact>, published: seq<ManifestEntry>, e: ChangeEntry)
    requires exists i :: 0 <= i < |staged| && e in FreshChange(published)(staged[i])
    ensures exists i :: 0 <= i < |staged| && staged[i].path == e.path
  {
    var i :| 0 <= i < |staged| && e in FreshChange(published)(staged[i]);
    assert staged[i].path == e.path;
  }

  lemma GoneChangePath(staged: seq<Artifact>, published: seq<ManifestEntry>, e: ChangeEntry)
    requires exists j :: 0 <= j < |published| && e in GoneChange(staged)(published[j])
    ensures exists j :: 0 <= j < |published| && published[j].path == e.path
  {
    var j :| 0 <= j < |published| && e in GoneChange(staged)(published[j]);
    assert published[j].path == e.path;
  }

  /** Every change is to a path of the one set or the other. */
  lemma DiffFrom(staged: seq<Artifact>, published: seq<ManifestEntry>, e: ChangeEntry)
    requires e in Diff(staged, published)
    ensures || (exists i :: 0 <= i < |staged| && staged[i].path == e.path)
            || (exists j :: 0 <= j < |published| && published[j].path == e.path)
  {
    DiffHas(staged, published, e);
    if exists i :: 0 <= i < |staged| && e in FreshChange(published)(staged[i]) {
      FreshChangePath(staged, published, e);
    } else {
      GoneChangePath(staged, published, e);
    }
  }

  lemma DiffElsewhere(staged: seq<Artifact>, published: seq<ManifestEntry>, e: ChangeEntry, p: Path)
    requires ArtifactFor(staged, p).None? && PublishedHash(published, p).None? && e in Diff(staged, published)
    ensures e.path != p
  {
    DiffFrom(staged, published, e);
    ArtifactForHas(staged, p);
    PublishedHashHas(published, p);
  }

  lemma SucceededMatches(env: Env, before: Disk, after: Disk, staged: seq<Artifact>, published: seq<ManifestEntry>)
    requires DistinctArtifacts(staged) && DistinctManifest(published) && Holds(env, before, published)
    requires Verified(env, staged)
    requires
      var changes := H2aEntries(Diff(staged, published), staged);
      Published(env, before, after, staged, changes, |changes|)
    ensures Matches(env, after, staged)
    ensures forall j :: 0 <= j < |published| && ArtifactFor(staged, published[j].path).None? ==>
              published[j].path !in after
    ensures forall p :: ArtifactFor(staged, p).None? && PublishedHash(published, p).None? ==>
              Look(after, p) == Look(before, p)
  {
    forall i | 0 <= i < |staged|
      ensures staged[i].path in after && env.hash(after[staged[i].path]) == staged[i].finalHash
    {
      FreshLands(env, before, after, staged, published, i);
    }
    forall j | 0 <= j < |published| && ArtifactFor(staged, published[j].path).None?
      ensures published[j].path !in after
    {
      GoneIsGone(env, before, after, staged, published, j);
    }
    forall p | ArtifactFor(staged, p).None? && PublishedHash(published, p).None?
      ensures Look(after, p) == Look(before, p)
    {
      OthersStay(env, before, after, staged, published, p);
    }
  }
}
