// An execution left alone: what one claimed restore comes to when no effect
// fails and nothing interrupts it, decided by what it finds.

module RestoreForward {
  import opened Prelude
  import opened RestoreControl
  import opened RestoreMachine
  import opened RestoreInvariant
  import opened RestoreTheorems
  import opened RestoreConvergence

  /** What the executor is given: the archive's snapshot, and what SQLite will leave at the live names
      once it has opened and marked the installed Ledger. */
  datatype Given = Given(snapshot: Content, marked: Files)

  /** The next effect, succeeding. */
  function Smooth(env: Env, s: State, g: Given): Event {
    match s.pc
    case Checking(CopyStaged) => Copy(g.snapshot, true)
    case Replacing(Mark(_)) =>
      if IsExecuting(s.control) && Prep(s).archiveSchemaVersion < env.currentSchemaVersion then Done
      else Sqlite(g.marked, true)
    case _ => Done
  }

  /** The executor left alone: `n` more effects, all succeeding. */
  function Smoothly(env: Env, s: State, g: Given, n: nat): State
    decreases n
  {
    if n == 0 then s else Smoothly(env, Next(env, s, Smooth(env, s, g)), g, n - 1)
  }

  lemma {:induction false} SmoothlyRests(env: Env, s: State, g: Given, n: nat)
    requires s.pc == Idle
    ensures Smoothly(env, s, g, n) == s
    decreases n
  {
    if n == 0 {
    } else {
      SmoothlyRests(env, s, g, n - 1);
    }
  }

  lemma {:induction false} SmoothlyMore(env: Env, s: State, g: Given, m: nat, n: nat)
    ensures Smoothly(env, s, g, m + n) == Smoothly(env, Smoothly(env, s, g, m), g, n)
    decreases m
  {
    if m == 0 {
    } else {
      SmoothlyMore(env, Next(env, s, Smooth(env, s, g)), g, m - 1, n);
    }
  }

  /** Wherever it comes to rest, it comes to rest in one way. */
  lemma RestsAlike(env: Env, s: State, g: Given, m: nat, n: nat)
    requires Smoothly(env, s, g, m).pc == Idle && Smoothly(env, s, g, n).pc == Idle
    ensures Smoothly(env, s, g, m) == Smoothly(env, s, g, n)
  {
    if m <= n {
      SmoothlyMore(env, s, g, m, n - m);
      SmoothlyRests(env, Smoothly(env, s, g, m), g, n - m);
    } else {
      SmoothlyMore(env, s, g, n, m - n);
      SmoothlyRests(env, Smoothly(env, s, g, n), g, m - n);
    }
  }

  predicate Backing(pc: Pc) { pc.PuttingBack? || pc == ClearWork(Idle) || pc == Idle }

  lemma BackingOn(env: Env, s: State)
    requires Backing(s.pc)
    ensures Backing(Next(env, s, Done).pc)
  {
  }

  /** Putting back has nothing to choose. */
  lemma {:induction false} SmoothIsUndisturbed(env: Env, s: State, g: Given, n: nat)
    requires Backing(s.pc)
    ensures Smoothly(env, s, g, n) == Undisturbed(env, s, n)
    decreases n
  {
    if n == 0 {
    } else {
      BackingOn(env, s);
      SmoothIsUndisturbed(env, Next(env, s, Done), g, n - 1);
    }
  }

  predicate Upgrades(env: Env, p: PreparedRestore) { p.archiveSchemaVersion < env.currentSchemaVersion }

  /** The snapshot is what was checked, and reads as the archive's Ledger. */
  predicate Good(env: Env, c: Content, p: PreparedRestore) {
    c != [] && SnapshotIs(env, c, p) && IsArchives(env.inspect(c).value, p)
  }

  /** What an execution that succeeds leaves: the snapshot alone at the live names until the upgrade, or
      what SQLite made of it; nothing of its own beside it; the archive's settings merged into those
      there were; and projections waiting only for an upgrade. */
  ghost predicate EndsRestored(env: Env, o: State, p: PreparedRestore, g: Given, u: State) {
    && Over(o, p, u, Restored)
    && NothingLeft(u.disk, p.intentId)
    && LiveFiles(u.disk) == (if Upgrades(env, p) then map[Ledger := g.snapshot] else g.marked)
    && u.settings == Settings(o.settings.revision + 1, o.settings.selected, env.applyExport(p, o.settings.body))
    && Says(env, o, p, u.control.finished[|o.control.finished|])
  }

  /** What the terminal of a restore that succeeded says of it. */
  predicate Says(env: Env, o: State, p: PreparedRestore, t: Terminal) {
    && IsExecuting(o.control) && t.idempotencyId == o.control.active.value.idempotencyId
    && t.intentId == p.intentId && t.outcome == Restored && t.recovery == p.recovery && t.completedAt == o.clock
    && t.projectionsPendingFor == if Upgrades(env, p) then Some(p.inventorySha256) else None
  }

  /** What one leaves that finds the installed file not to be the archive's: everything as it was. */
  ghost predicate EndsPutBack(env: Env, o: State, p: PreparedRestore, u: State) {
    && Over(o, p, u, RecoveryPutBack)
    && NothingLeft(u.disk, p.intentId)
    && LiveBack(u.disk, p, o.orig)
    && StillBound(env, LiveFiles(u.disk), p.current)
    && SettingsBack(o, u)
  }

  /** What one leaves that refuses before anything moves. */
  ghost predicate EndsUntouched(o: State, p: PreparedRestore, u: State) {
    && Over(o, p, u, FailedBeforeReplacement)
    && NoAsides(u.disk, p.intentId)
    && Look(u.disk, Live(Ledger)) == Look(o.disk, Live(Ledger))
    && u.settings == o.settings
  }

  ghost predicate Ends(env: Env, o: State, p: PreparedRestore, g: Given, u: State) {
    if !SnapshotIs(env, g.snapshot, p) then EndsUntouched(o, p, u)
    else if !Good(env, g.snapshot, p) then EndsPutBack(env, o, p, u)
    else EndsRestored(env, o, p, g, u)
  }

  /** A later state of the execution claimed in `o`. */
  ghost predicate Later(o: State, p: PreparedRestore, s: State) {
    && IsExecuting(s.control) && Prep(s) == p && s.clock == o.clock
    && IsExecuting(o.control) && s.control.active.value.idempotencyId == o.control.active.value.idempotencyId
    && s.control.finished == o.control.finished && s.orig == o.orig && s.preimage == o.preimage
    && s.settings.selected == o.settings.selected
  }

  // ---- From the end backwards ----

  ghost predicate AsidesOf(d: Disk, id: string, moved: set<Member>) {
    (Aside(id, Wal) in d ==> Wal in moved) && (Aside(id, Shm) in d ==> Shm in moved)
  }

  function Moved(p: PreparedRestore): set<Member> { if p.current.Opaque? then p.current.files.Keys else {} }

  lemma LiveStays(d: Disk, n: Name)
    requires !n.Live?
    ensures LiveFiles(Removed(d, n)) == LiveFiles(d)
  {
  }

  lemma FromDropShm(env: Env, s: State, g: Given, id: string, moved: set<Member>, n: nat)
    requires s.pc == DropSet(id, moved, Shm) && n >= 1
    requires Staged(id) !in s.disk && Aside(id, Ledger) !in s.disk && Aside(id, Wal) !in s.disk
    requires AsidesOf(s.disk, id, moved)
    ensures
      var u := Smoothly(env, s, g, n);
      u == s.(disk := u.disk, pc := Idle) && NothingLeft(u.disk, id) && LiveFiles(u.disk) == LiveFiles(s.disk)
  {
    LiveStays(s.disk, Aside(id, Shm));
    SmoothlyRests(env, Next(env, s, Done), g, n - 1);
  }

  lemma FromDropWal(env: Env, s: State, g: Given, id: string, moved: set<Member>, n: nat)
    requires s.pc == DropSet(id, moved, Wal) && n >= 2
    requires Staged(id) !in s.disk && Aside(id, Ledger) !in s.disk && AsidesOf(s.disk, id, moved)
    ensures
      var u := Smoothly(env, s, g, n);
      u == s.(disk := u.disk, pc := Idle) && NothingLeft(u.disk, id) && LiveFiles(u.disk) == LiveFiles(s.disk)
  {
    LiveStays(s.disk, Aside(id, Wal));
    FromDropShm(env, Next(env, s, Done), g, id, moved, n - 1);
  }

  lemma FromDropSet(env: Env, s: State, g: Given, id: string, moved: set<Member>, n: nat)
    requires s.pc == DropSet(id, moved, Ledger) && n >= 3
    requires Staged(id) !in s.disk && AsidesOf(s.disk, id, moved)
    ensures
      var u := Smoothly(env, s, g, n);
      u == s.(disk := u.disk, pc := Idle) && NothingLeft(u.disk, id) && LiveFiles(u.disk) == LiveFiles(s.disk)
  {
    LiveStays(s.disk, Aside(id, Ledger));
    FromDropWal(env, Next(env, s, Done), g, id, moved, n - 1);
  }

  ghost predicate Merged(env: Env, o: State, p: PreparedRestore, s: State) {
    s.settings == Settings(o.settings.revision + 1, o.settings.selected, env.applyExport(p, o.settings.body))
  }

  ghost predicate Tidy(d: Disk, p: PreparedRestore) {
    Staged(p.intentId) !in d && AsidesOf(d, p.intentId, Moved(p))
  }

  /** `Restored` is recorded, and the rollback set is about to go. */
  ghost predicate Recorded(env: Env, o: State, p: PreparedRestore, t: State) {
    && t.control.active.None?
    && |t.control.finished| == |o.control.finished| + 1 && o.control.finished <= t.control.finished
    && Says(env, o, p, t.control.finished[|o.control.finished|])
  }

  lemma FinishStep(env: Env, o: State, p: PreparedRestore, s: State, seen: LedgerBinding)
    requires Later(o, p, s) && s.pc == Replacing(FinishRestored(seen))
    requires Upgrades(env, p) ==> CurrentBinding(env, LiveFiles(s.disk)) == Some(seen) && IsArchives(seen, p)
    ensures
      var t := Next(env, s, Done);
      && t == s.(control := t.control, pc := ClearWork(DropSet(p.intentId, Moved(p), Ledger)))
      && Recorded(env, o, p, t)
  {
  }

  lemma FromFinishRestored(env: Env, o: State, p: PreparedRestore, s: State, g: Given, seen: LedgerBinding, n: nat)
    requires Later(o, p, s) && s.pc == Replacing(FinishRestored(seen)) && n >= 5
    requires Tidy(s.disk, p) && Merged(env, o, p, s)
    requires Upgrades(env, p) ==> CurrentBinding(env, LiveFiles(s.disk)) == Some(seen) && IsArchives(seen, p)
    requires LiveFiles(s.disk) == (if Upgrades(env, p) then map[Ledger := g.snapshot] else g.marked)
    ensures EndsRestored(env, o, p, g, Smoothly(env, s, g, n))
  {
    FinishStep(env, o, p, s, seen);
    var t := Next(env, s, Done);
    var v := t.(preimage := None, pc := t.pc.next);
    OneStep(env, s, g, n);
    OneStep(env, t, g, n - 1);
    assert Next(env, t, Smooth(env, t, g)) == v;
    FromDropSet(env, v, g, p.intentId, Moved(p), n - 2);
  }

  lemma OpenedLive(d: Disk, files: Files)
    ensures LiveFiles(WithLive(d, files)) == files
    ensures forall n: Name :: !n.Live? ==> (n in WithLive(d, files) <==> n in d)
  {
  }

  lemma OneStep(env: Env, s: State, g: Given, n: nat)
    requires n > 0
    ensures Smoothly(env, s, g, n) == Smoothly(env, Next(env, s, Smooth(env, s, g)), g, n - 1)
  {
  }

  lemma MarkStep(env: Env, s: State, g: Given, seen: LedgerBinding)
    requires IsExecuting(s.control) && s.pc == Replacing(Mark(seen))
    ensures Next(env, s, Smooth(env, s, g)) ==
            s.(disk := if Upgrades(env, Prep(s)) then s.disk else WithLive(s.disk, g.marked),
               pc := Replacing(FinishRestored(seen)))
  {
  }

  lemma FromMarkUnopened(env: Env, o: State, p: PreparedRestore, s: State, g: Given, seen: LedgerBinding, n: nat)
    requires Later(o, p, s) && s.pc == Replacing(Mark(seen)) && n >= 6 && Upgrades(env, p)
    requires Tidy(s.disk, p) && Merged(env, o, p, s)
    requires LiveFiles(s.disk) == map[Ledger := g.snapshot]
    requires CurrentBinding(env, LiveFiles(s.disk)) == Some(seen) && IsArchives(seen, p)
    ensures EndsRestored(env, o, p, g, Smoothly(env, s, g, n))
  {
    MarkStep(env, s, g, seen);
    OneStep(env, s, g, n);
    var t := Next(env, s, Smooth(env, s, g));
    assert Later(o, p, t) && Merged(env, o, p, t) && Tidy(t.disk, p);
    FromFinishRestored(env, o, p, t, g, seen, n - 1);
  }

  lemma FromMarkOpened(env: Env, o: State, p: PreparedRestore, s: State, g: Given, seen: LedgerBinding, n: nat)
    requires Later(o, p, s) && s.pc == Replacing(Mark(seen)) && n >= 6 && !Upgrades(env, p)
    requires Tidy(s.disk, p) && Merged(env, o, p, s)
    ensures EndsRestored(env, o, p, g, Smoothly(env, s, g, n))
  {
    MarkStep(env, s, g, seen);
    OpenedLive(s.disk, g.marked);
    OneStep(env, s, g, n);
    var t := Next(env, s, Smooth(env, s, g));
    assert Later(o, p, t) && Merged(env, o, p, t) && Tidy(t.disk, p);
    FromFinishRestored(env, o, p, t, g, seen, n - 1);
  }

  lemma FromMark(env: Env, o: State, p: PreparedRestore, s: State, g: Given, seen: LedgerBinding, n: nat)
    requires Later(o, p, s) && s.pc == Replacing(Mark(seen)) && n >= 6
    requires Tidy(s.disk, p) && Merged(env, o, p, s)
    requires LiveFiles(s.disk) == map[Ledger := g.snapshot]
    requires CurrentBinding(env, LiveFiles(s.disk)) == Some(seen) && IsArchives(seen, p)
    ensures EndsRestored(env, o, p, g, Smoothly(env, s, g, n))
  {
    if Upgrades(env, p) {
      FromMarkUnopened(env, o, p, s, g, seen, n);
    } else {
      FromMarkOpened(env, o, p, s, g, seen, n);
    }
  }

  lemma VerifyStep(env: Env, s: State, g: Given)
    requires IsExecuting(s.control) && s.pc == Replacing(Verify)
    requires LiveFiles(s.disk) == map[Ledger := g.snapshot]
    ensures
      var now := if g.snapshot == [] then None else env.inspect(g.snapshot);
      && CurrentBinding(env, LiveFiles(s.disk)) == now
      && Next(env, s, Smooth(env, s, g)) ==
         s.(pc := if now.Some? && IsArchives(now.value, Prep(s)) then Replacing(Mark(now.value))
                  else PuttingBack(Begin))
  {
  }

  /** Putting back from the middle of an execution. */
  lemma FromFailure(env: Env, o: State, p: PreparedRestore, s: State, g: Given, n: nat)
    requires Later(o, p, s) && Inv(env, s) && s.pc == PuttingBack(Begin) && n >= 13
    requires Aside(p.intentId, Ledger) in s.disk
    ensures EndsPutBack(env, o, p, Smoothly(env, s, g, n))
  {
    FromBegin(env, s, n);
    SmoothIsUndisturbed(env, s, g, n);
  }

  lemma FromVerify(env: Env, o: State, p: PreparedRestore, s: State, g: Given, n: nat)
    requires Later(o, p, s) && Inv(env, s) && s.pc == Replacing(Verify) && n >= 14
    requires Tidy(s.disk, p) && Merged(env, o, p, s)
    requires LiveFiles(s.disk) == map[Ledger := g.snapshot] && SnapshotIs(env, g.snapshot, p)
    ensures Ends(env, o, p, g, Smoothly(env, s, g, n))
  {
    VerifyStep(env, s, g);
    OneStep(env, s, g, n);
    if Good(env, g.snapshot, p) {
      var seen := env.inspect(g.snapshot).value;
      var t := s.(pc := Replacing(Mark(seen)));
      assert Next(env, s, Smooth(env, s, g)) == t;
      FromMark(env, o, p, t, g, seen, n - 1);
    } else {
      var t := s.(pc := PuttingBack(Begin));
      NextKeepsInv(env, s, Smooth(env, s, g));
      assert Next(env, s, Smooth(env, s, g)) == t;
      FromFailure(env, o, p, t, g, n - 1);
    }
  }

  predicate NoLive(d: Disk) { Live(Ledger) !in d && Live(Wal) !in d && Live(Shm) !in d }

  lemma InstalledAlone(d: Disk, id: string)
    requires NoLive(d) && Staged(id) in d
    ensures LiveFiles(Renamed(d, Staged(id), Live(Ledger))) == map[Ledger := d[Staged(id)]]
  {
    var files := LiveFiles(Renamed(d, Staged(id), Live(Ledger)));
    forall m: Member
      ensures Look(files, m) == Look(map[Ledger := d[Staged(id)]], m)
    {
      match m
      case Ledger =>
      case Wal =>
      case Shm =>
    }
    LookExtensional(files, map[Ledger := d[Staged(id)]]);
  }

  // ---- Going in ----

  function InPhase(c: Control, phase: Phase): Control
    requires IsExecuting(c)
  {
    c.(active := Some(c.active.value.(phase := phase)))
  }

  lemma JournalVerifyStep(env: Env, s: State, g: Given)
    requires IsExecuting(s.control) && s.control.active.value.phase == ApplyingSettings
    requires s.pc == Replacing(JournalVerify)
    ensures Next(env, s, Smooth(env, s, g)) == s.(control := InPhase(s.control, Verifying), pc := Replacing(Verify))
  {
  }

  lemma VerifyingPhase(env: Env, s: State)
    requires Inv(env, s) && s.pc == Replacing(JournalVerify)
    ensures s.control.active.value.phase == ApplyingSettings
  {
  }

  lemma FromJournalVerify(env: Env, o: State, p: PreparedRestore, s: State, g: Given, n: nat)
    requires Later(o, p, s) && Inv(env, s) && s.pc == Replacing(JournalVerify) && n >= 15
    requires Tidy(s.disk, p) && Merged(env, o, p, s)
    requires LiveFiles(s.disk) == map[Ledger := g.snapshot] && SnapshotIs(env, g.snapshot, p)
    ensures Ends(env, o, p, g, Smoothly(env, s, g, n))
  {
    VerifyingPhase(env, s);
    JournalVerifyStep(env, s, g);
    NextKeepsInv(env, s, Smooth(env, s, g));
    OneStep(env, s, g, n);
    var t := Next(env, s, Smooth(env, s, g));
    assert Later(o, p, t) && Merged(env, o, p, t) && t.pc == Replacing(Verify) && t.disk == s.disk;
    FromVerify(env, o, p, t, g, n - 1);
  }

  lemma ApplySettingsStep(env: Env, s: State, g: Given)
    requires IsExecuting(s.control) && s.pc == Replacing(ApplySettings)
    ensures Next(env, s, Smooth(env, s, g)) ==
            s.(settings :=
                 Settings(s.settings.revision + 1, s.settings.selected, env.applyExport(Prep(s), s.settings.body)),
               pc := Replacing(JournalVerify))
  {
  }

  lemma FromApplySettings(env: Env, o: State, p: PreparedRestore, s: State, g: Given, n: nat)
    requires Later(o, p, s) && Inv(env, s) && s.pc == Replacing(ApplySettings) && n >= 16
    requires Tidy(s.disk, p) && s.settings == o.settings
    requires LiveFiles(s.disk) == map[Ledger := g.snapshot] && SnapshotIs(env, g.snapshot, p)
    ensures Ends(env, o, p, g, Smoothly(env, s, g, n))
  {
    ApplySettingsStep(env, s, g);
    NextKeepsInv(env, s, Smooth(env, s, g));
    OneStep(env, s, g, n);
    FromJournalVerify(env, o, p, Next(env, s, Smooth(env, s, g)), g, n - 1);
  }

  lemma JournalSettingsStep(env: Env, s: State, g: Given)
    requires IsExecuting(s.control) && s.control.active.value.phase == Installing
    requires s.pc == Replacing(JournalSettings)
    ensures Next(env, s, Smooth(env, s, g)) ==
            s.(control := InPhase(s.control, ApplyingSettings), pc := Replacing(ApplySettings))
  {
  }

  lemma FromJournalSettings(env: Env, o: State, p: PreparedRestore, s: State, g: Given, n: nat)
    requires Later(o, p, s) && Inv(env, s) && s.pc == Replacing(JournalSettings) && n >= 17
    requires Tidy(s.disk, p) && s.settings == o.settings
    requires LiveFiles(s.disk) == map[Ledger := g.snapshot] && SnapshotIs(env, g.snapshot, p)
    ensures Ends(env, o, p, g, Smoothly(env, s, g, n))
  {
    JournalSettingsStep(env, s, g);
    NextKeepsInv(env, s, Smooth(env, s, g));
    OneStep(env, s, g, n);
    FromApplySettings(env, o, p, Next(env, s, Smooth(env, s, g)), g, n - 1);
  }

  /** The set has moved whole, and the snapshot waits. */
  ghost predicate Cleared(d: Disk, p: PreparedRestore, g: Given) {
    NoLive(d) && Look(d, Staged(p.intentId)) == Some(g.snapshot) && AsidesOf(d, p.intentId, Moved(p))
  }

  lemma InstallStagedStep(env: Env, s: State, g: Given)
    requires IsExecuting(s.control) && s.pc == Replacing(InstallStaged)
    requires Cleared(s.disk, Prep(s), g)
    ensures
      var t := Next(env, s, Smooth(env, s, g));
      && t == s.(disk := t.disk, pc := Replacing(JournalSettings))
      && LiveFiles(t.disk) == map[Ledger := g.snapshot] && Tidy(t.disk, Prep(s))
  {
    InstalledAlone(s.disk, Prep(s).intentId);
  }

  lemma FromInstallStaged(env: Env, o: State, p: PreparedRestore, s: State, g: Given, n: nat)
    requires Later(o, p, s) && Inv(env, s) && s.pc == Replacing(InstallStaged) && n >= 18
    requires s.settings == o.settings && Cleared(s.disk, p, g) && SnapshotIs(env, g.snapshot, p)
    ensures Ends(env, o, p, g, Smoothly(env, s, g, n))
  {
    InstallStagedStep(env, s, g);
    NextKeepsInv(env, s, Smooth(env, s, g));
    OneStep(env, s, g, n);
    FromJournalSettings(env, o, p, Next(env, s, Smooth(env, s, g)), g, n - 1);
  }

  lemma JournalInstallStep(env: Env, s: State, g: Given)
    requires IsExecuting(s.control) && s.control.active.value.phase == MovingLiveAside
    requires s.pc == Replacing(JournalInstall)
    ensures Next(env, s, Smooth(env, s, g)) ==
            s.(control := InPhase(s.control, Installing), pc := Replacing(InstallStaged))
  {
  }

  lemma FromJournalInstall(env: Env, o: State, p: PreparedRestore, s: State, g: Given, n: nat)
    requires Later(o, p, s) && Inv(env, s) && s.pc == Replacing(JournalInstall) && n >= 19
    requires s.settings == o.settings && Cleared(s.disk, p, g) && SnapshotIs(env, g.snapshot, p)
    ensures Ends(env, o, p, g, Smoothly(env, s, g, n))
  {
    JournalInstallStep(env, s, g);
    NextKeepsInv(env, s, Smooth(env, s, g));
    OneStep(env, s, g, n);
    FromInstallStaged(env, o, p, Next(env, s, Smooth(env, s, g)), g, n - 1);
  }

  // ---- Moving aside ----

  /** Part of an opaque set has moved: what is still at the live names is bound, and in `left`. */
  ghost predicate PartMoved(d: Disk, p: PreparedRestore, g: Given, left: set<Member>) {
    && Live(Ledger) !in d
    && (Live(Wal) in d <==> Wal in left && Wal in BoundMembers(p))
    && (Live(Shm) in d <==> Shm in left && Shm in BoundMembers(p))
    && Look(d, Staged(p.intentId)) == Some(g.snapshot)
  }

  /** What has moved is the very set that was bound. */
  lemma MovedSet(d: Disk, p: PreparedRestore, orig: Files)
    requires p.current.Opaque? && orig.Keys == BoundMembers(p)
    requires AllAside(d, p) && AsidesOrderly(d, p) && NoLoss(d, p, orig)
    ensures AsideFiles(d, p.intentId) == orig
  {
    var files := AsideFiles(d, p.intentId);
    assert KeptAtHome(d, p, orig, Ledger) && KeptAtHome(d, p, orig, Wal) && KeptAtHome(d, p, orig, Shm);
    forall m: Member
      ensures Look(files, m) == Look(orig, m)
    {
      match m
      case Ledger =>
      case Wal => assert AsideAllowed(d, p, Wal);
      case Shm => assert AsideAllowed(d, p, Shm);
    }
    LookExtensional(files, orig);
  }

  lemma NothingLive(d: Disk)
    requires NoLive(d)
    ensures LiveFiles(d) == map[]
  {
    forall m: Member
      ensures Live(m) !in d
    {
      match m
      case Ledger =>
      case Wal =>
      case Shm =>
    }
  }

  lemma OpaqueKeys(env: Env, p: PreparedRestore, orig: Files)
    requires p.current.Opaque? && StillBound(env, orig, p.current)
    ensures orig.Keys == BoundMembers(p) == Moved(p)
  {
    assert orig.Keys == p.current.files.Keys;
  }

  lemma CheckMovedStep(env: Env, s: State, g: Given)
    requires Inv(env, s) && s.pc == Moving(CheckMoved) && PartMoved(s.disk, Prep(s), g, {})
    ensures Next(env, s, Smooth(env, s, g)) == s.(pc := Replacing(JournalInstall))
    ensures Cleared(s.disk, Prep(s), g)
  {
    var p := Prep(s);
    OpaqueKeys(env, p, s.orig);
    MovedSet(s.disk, p, s.orig);
    NothingLive(s.disk);
  }

  lemma FromCheckMoved(env: Env, o: State, p: PreparedRestore, s: State, g: Given, n: nat)
    requires Later(o, p, s) && Inv(env, s) && s.pc == Moving(CheckMoved) && n >= 20
    requires s.settings == o.settings && PartMoved(s.disk, p, g, {}) && SnapshotIs(env, g.snapshot, p)
    ensures Ends(env, o, p, g, Smoothly(env, s, g, n))
  {
    CheckMovedStep(env, s, g);
    var t := s.(pc := Replacing(JournalInstall));
    assert Next(env, s, Smooth(env, s, g)) == t;
    NextKeepsInv(env, s, Smooth(env, s, g));
    OneStep(env, s, g, n);
    FromJournalInstall(env, o, p, t, g, n - 1);
  }

  lemma MoveSidecarStep(env: Env, s: State, g: Given, m: Member)
    requires IsExecuting(s.control) && s.pc == Moving(MoveSidecar(m)) && m != Ledger
    requires PartMoved(s.disk, Prep(s), g, if m == Wal then {Wal, Shm} else {Shm})
    ensures
      var t := Next(env, s, Smooth(env, s, g));
      t == s.(disk := t.disk, pc := AfterSidecar(m)) && PartMoved(t.disk, Prep(s), g, if m == Wal then {Shm} else {})
  {
  }

  lemma FromMoveShm(env: Env, o: State, p: PreparedRestore, s: State, g: Given, n: nat)
    requires Later(o, p, s) && Inv(env, s) && s.pc == Moving(MoveSidecar(Shm)) && n >= 21
    requires s.settings == o.settings && PartMoved(s.disk, p, g, {Shm}) && SnapshotIs(env, g.snapshot, p)
    ensures Ends(env, o, p, g, Smoothly(env, s, g, n))
  {
    MoveSidecarStep(env, s, g, Shm);
    NextKeepsInv(env, s, Smooth(env, s, g));
    OneStep(env, s, g, n);
    FromCheckMoved(env, o, p, Next(env, s, Smooth(env, s, g)), g, n - 1);
  }

  lemma FromMoveWal(env: Env, o: State, p: PreparedRestore, s: State, g: Given, n: nat)
    requires Later(o, p, s) && Inv(env, s) && s.pc == Moving(MoveSidecar(Wal)) && n >= 22
    requires s.settings == o.settings && PartMoved(s.disk, p, g, {Wal, Shm}) && SnapshotIs(env, g.snapshot, p)
    ensures Ends(env, o, p, g, Smoothly(env, s, g, n))
  {
    MoveSidecarStep(env, s, g, Wal);
    NextKeepsInv(env, s, Smooth(env, s, g));
    OneStep(env, s, g, n);
    FromMoveShm(env, o, p, Next(env, s, Smooth(env, s, g)), g, n - 1);
  }

  lemma LedgerIsLive(env: Env, d: Disk, p: PreparedRestore, orig: Files)
    requires LiveIsBound(env, d, p, orig)
    ensures Live(Ledger) in d
  {
    if p.current.Opaque? {
      assert Ledger in LiveFiles(d);
    }
  }

  lemma MoveLedgerStep(env: Env, s: State, g: Given)
    requires Inv(env, s) && s.pc == Moving(MoveLedger) && Look(s.disk, Staged(Prep(s).intentId)) == Some(g.snapshot)
    ensures
      var p := Prep(s);
      Next(env, s, Smooth(env, s, g)) ==
      s.(disk := Renamed(s.disk, Live(Ledger), Aside(p.intentId, Ledger)),
         pc := if p.current.Opaque? then Moving(MoveSidecar(Wal)) else Replacing(JournalInstall))
    ensures Live(Ledger) in s.disk && SidecarsCleared(s.disk, Prep(s)) && NoAsides(s.disk, Prep(s).intentId)
    ensures Prep(s).current.Opaque? ==> StillBound(env, s.orig, Prep(s).current) && LiveFiles(s.disk) == s.orig
  {
    LedgerIsLive(env, s.disk, Prep(s), s.orig);
  }

  lemma LedgerMoved(env: Env, d: Disk, p: PreparedRestore, g: Given, orig: Files)
    requires Live(Ledger) in d && SidecarsCleared(d, p) && NoAsides(d, p.intentId)
    requires Look(d, Staged(p.intentId)) == Some(g.snapshot)
    requires p.current.Opaque? ==> StillBound(env, orig, p.current) && LiveFiles(d) == orig
    ensures
      var t := Renamed(d, Live(Ledger), Aside(p.intentId, Ledger));
      if p.current.Opaque? then PartMoved(t, p, g, {Wal, Shm}) else Cleared(t, p, g)
  {
    if p.current.Opaque? {
      OpaqueKeys(env, p, orig);
      assert Wal in orig <==> Wal in LiveFiles(d);
      assert Shm in orig <==> Shm in LiveFiles(d);
    }
  }

  lemma FromMoveLedger(env: Env, o: State, p: PreparedRestore, s: State, g: Given, n: nat)
    requires Later(o, p, s) && Inv(env, s) && s.pc == Moving(MoveLedger) && n >= 23
    requires s.settings == o.settings && SnapshotIs(env, g.snapshot, p)
    requires Look(s.disk, Staged(p.intentId)) == Some(g.snapshot)
    ensures Ends(env, o, p, g, Smoothly(env, s, g, n))
  {
    MoveLedgerStep(env, s, g);
    LedgerMoved(env, s.disk, p, g, s.orig);
    NextKeepsInv(env, s, Smooth(env, s, g));
    OneStep(env, s, g, n);
    var t := Next(env, s, Smooth(env, s, g));
    if p.current.Opaque? {
      FromMoveWal(env, o, p, t, g, n - 1);
    } else {
      FromJournalInstall(env, o, p, t, g, n - 1);
    }
  }

  // ---- Checking and staging ----

  lemma JournalMoveStep(env: Env, s: State, g: Given)
    requires IsExecuting(s.control) && s.control.active.value.phase == Staging
    requires s.pc == Checking(JournalMove)
    ensures Next(env, s, Smooth(env, s, g)) ==
            s.(control := InPhase(s.control, MovingLiveAside), pc := Moving(MoveLedger))
  {
  }

  lemma FromJournalMove(env: Env, o: State, p: PreparedRestore, s: State, g: Given, n: nat)
    requires Later(o, p, s) && Inv(env, s) && s.pc == Checking(JournalMove) && n >= 24
    requires s.settings == o.settings && SnapshotIs(env, g.snapshot, p)
    requires Look(s.disk, Staged(p.intentId)) == Some(g.snapshot)
    ensures Ends(env, o, p, g, Smoothly(env, s, g, n))
  {
    JournalMoveStep(env, s, g);
    var t := s.(control := InPhase(s.control, MovingLiveAside), pc := Moving(MoveLedger));
    assert Next(env, s, Smooth(env, s, g)) == t;
    NextKeepsInv(env, s, Smooth(env, s, g));
    OneStep(env, s, g, n);
    FromMoveLedger(env, o, p, t, g, n - 1);
  }

  /** A refusal before anything moved. */
  lemma FromRefusal(env: Env, o: State, p: PreparedRestore, s: State, g: Given, n: nat)
    requires Later(o, p, s) && s.pc == PuttingBack(Finishing(FailedBeforeReplacement)) && n >= 2
    requires s.settings == o.settings && NoAsides(s.disk, p.intentId)
    requires Look(s.disk, Live(Ledger)) == Look(o.disk, Live(Ledger))
    ensures EndsUntouched(o, p, Smoothly(env, s, g, n)) && LiveFiles(Smoothly(env, s, g, n).disk) == LiveFiles(s.disk)
  {
    FromFinishing(env, s, n);
    SmoothIsUndisturbed(env, s, g, n);
  }

  /** Nothing has moved yet. */
  ghost predicate Standing(o: State, p: PreparedRestore, s: State) {
    && Later(o, p, s) && s.settings == o.settings && NoAsides(s.disk, p.intentId)
    && Look(s.disk, Live(Ledger)) == Look(o.disk, Live(Ledger))
  }

  lemma VerifyStagedStep(env: Env, s: State, g: Given)
    requires IsExecuting(s.control) && s.pc == Checking(VerifyStaged)
    requires Look(s.disk, Staged(Prep(s).intentId)) == Some(g.snapshot)
    ensures Next(env, s, Smooth(env, s, g)) ==
            s.(pc := Checking(if SnapshotIs(env, g.snapshot, Prep(s)) then JournalMove else DropBadStaged))
  {
  }

  lemma DropBadStagedStep(env: Env, s: State, g: Given)
    requires IsExecuting(s.control) && s.pc == Checking(DropBadStaged)
    ensures Next(env, s, Smooth(env, s, g)) ==
            s.(disk := Removed(s.disk, Staged(Prep(s).intentId)), pc := PuttingBack(Finishing(FailedBeforeReplacement)))
  {
  }

  lemma FromDropBadStaged(env: Env, o: State, p: PreparedRestore, s: State, g: Given, n: nat)
    requires Standing(o, p, s) && s.pc == Checking(DropBadStaged) && n >= 3
    ensures EndsUntouched(o, p, Smoothly(env, s, g, n))
  {
    var t := s.(disk := Removed(s.disk, Staged(p.intentId)), pc := PuttingBack(Finishing(FailedBeforeReplacement)));
    DropBadStagedStep(env, s, g);
    assert Next(env, s, Smooth(env, s, g)) == t;
    OneStep(env, s, g, n);
    FromRefusal(env, o, p, t, g, n - 1);
  }

  lemma FromVerifyStaged(env: Env, o: State, p: PreparedRestore, s: State, g: Given, n: nat)
    requires Standing(o, p, s) && Inv(env, s) && s.pc == Checking(VerifyStaged) && n >= 25
    requires Look(s.disk, Staged(p.intentId)) == Some(g.snapshot)
    ensures Ends(env, o, p, g, Smoothly(env, s, g, n))
  {
    VerifyStagedStep(env, s, g);
    OneStep(env, s, g, n);
    NextKeepsInv(env, s, Smooth(env, s, g));
    if SnapshotIs(env, g.snapshot, p) {
      FromJournalMove(env, o, p, s.(pc := Checking(JournalMove)), g, n - 1);
    } else {
      FromDropBadStaged(env, o, p, s.(pc := Checking(DropBadStaged)), g, n - 1);
    }
  }

  lemma CopyStagedStep(env: Env, s: State, g: Given)
    requires IsExecuting(s.control) && s.pc == Checking(CopyStaged)
    ensures Next(env, s, Smooth(env, s, g)) ==
            s.(disk := s.disk[Staged(Prep(s).intentId) := g.snapshot], pc := Checking(VerifyStaged))
  {
  }

  lemma FromCopyStaged(env: Env, o: State, p: PreparedRestore, s: State, g: Given, n: nat)
    requires Standing(o, p, s) && Inv(env, s) && s.pc == Checking(CopyStaged) && n >= 26
    ensures Ends(env, o, p, g, Smoothly(env, s, g, n))
  {
    var t := s.(disk := s.disk[Staged(p.intentId) := g.snapshot], pc := Checking(VerifyStaged));
    CopyStagedStep(env, s, g);
    assert Next(env, s, Smooth(env, s, g)) == t;
    NextKeepsInv(env, s, Smooth(env, s, g));
    OneStep(env, s, g, n);
    FromVerifyStaged(env, o, p, t, g, n - 1);
  }

  lemma DropOldStagedStep(env: Env, s: State, g: Given)
    requires IsExecuting(s.control) && s.pc == Checking(DropOldStaged)
    ensures Next(env, s, Smooth(env, s, g)) ==
            s.(disk := Removed(s.disk, Staged(Prep(s).intentId)), pc := Checking(CopyStaged))
  {
  }

  lemma FromDropOldStaged(env: Env, o: State, p: PreparedRestore, s: State, g: Given, n: nat)
    requires Standing(o, p, s) && Inv(env, s) && s.pc == Checking(DropOldStaged) && n >= 27
    ensures Ends(env, o, p, g, Smoothly(env, s, g, n))
  {
    var t := s.(disk := Removed(s.disk, Staged(p.intentId)), pc := Checking(CopyStaged));
    DropOldStagedStep(env, s, g);
    assert Next(env, s, Smooth(env, s, g)) == t;
    NextKeepsInv(env, s, Smooth(env, s, g));
    OneStep(env, s, g, n);
    FromCopyStaged(env, o, p, t, g, n - 1);
  }

  lemma CheckMembersStep(env: Env, s: State, g: Given)
    requires IsExecuting(s.control) && s.pc == Checking(CheckMembers)
    ensures Next(env, s, Smooth(env, s, g)) == s.(pc := Checking(DropOldStaged))
  {
  }

  lemma FromCheckMembers(env: Env, o: State, p: PreparedRestore, s: State, g: Given, n: nat)
    requires Standing(o, p, s) && Inv(env, s) && s.pc == Checking(CheckMembers) && n >= 28
    ensures Ends(env, o, p, g, Smoothly(env, s, g, n))
  {
    var t := s.(pc := Checking(DropOldStaged));
    CheckMembersStep(env, s, g);
    assert Next(env, s, Smooth(env, s, g)) == t;
    NextKeepsInv(env, s, Smooth(env, s, g));
    OneStep(env, s, g, n);
    FromDropOldStaged(env, o, p, t, g, n - 1);
  }

  lemma FromClearShm(env: Env, o: State, p: PreparedRestore, s: State, g: Given, n: nat)
    requires Standing(o, p, s) && Inv(env, s) && s.pc == Checking(ClearShm) && n >= 29
    ensures Ends(env, o, p, g, Smoothly(env, s, g, n))
  {
    var t := s.(disk := Removed(s.disk, Live(Shm)), pc := Checking(CheckMembers));
    assert Live(Shm) !in s.disk ==> Removed(s.disk, Live(Shm)) == s.disk;
    assert Next(env, s, Smooth(env, s, g)) == t;
    NextKeepsInv(env, s, Smooth(env, s, g));
    OneStep(env, s, g, n);
    FromCheckMembers(env, o, p, t, g, n - 1);
  }

  /** A cleanly closed Ledger has no pending log beside it. */
  lemma NoPending(env: Env, d: Disk, p: PreparedRestore)
    requires p.current.Inspectable? && StillBound(env, LiveFiles(d), p.current)
    ensures !WalPending(d)
  {
    if Live(Wal) in d {
      assert LiveFiles(d)[Wal] == d[Live(Wal)];
    }
  }

  lemma FromClearWal(env: Env, o: State, p: PreparedRestore, s: State, g: Given, n: nat)
    requires Standing(o, p, s) && Inv(env, s) && s.pc == Checking(ClearWal) && n >= 30 && !WalPending(s.disk)
    ensures Ends(env, o, p, g, Smoothly(env, s, g, n))
  {
    var t := s.(disk := Removed(s.disk, Live(Wal)), pc := Checking(ClearShm));
    assert Live(Wal) !in s.disk ==> Removed(s.disk, Live(Wal)) == s.disk;
    assert Next(env, s, Smooth(env, s, g)) == t;
    NextKeepsInv(env, s, Smooth(env, s, g));
    OneStep(env, s, g, n);
    FromClearShm(env, o, p, t, g, n - 1);
  }

  /** Settings and files are still what the preview bound. */
  predicate Bound(env: Env, s: State)
    requires s.control.active.Some?
  {
    s.settings.revision == Prep(s).settingsRevision && StillBound(env, LiveFiles(s.disk), Prep(s).current)
  }

  lemma CheckBoundStep(env: Env, s: State, g: Given)
    requires IsExecuting(s.control) && s.pc == Checking(CheckBound)
    ensures Next(env, s, Smooth(env, s, g)) ==
            s.(pc := if !Bound(env, s) then PuttingBack(Finishing(FailedBeforeReplacement))
                     else Checking(if Prep(s).current.Opaque? then CheckMembers else ClearWal))
  {
  }

  /** A claimed restore left alone ends, for an inspectable Ledger and an opaque set alike. It restores
      exactly when settings and files are still what the preview bound and the snapshot is the
      archive's Ledger; a snapshot that only the installed copy shows not to be is put back, and
      anything else refuses with the live files as they were. */
  lemma ExecutionAlone(env: Env, s: State, g: Given, n: nat)
    requires Inv(env, s) && s.pc == Checking(CheckBound) && n >= 31
    ensures
      var p, u := Prep(s), Smoothly(env, s, g, n);
      if !Bound(env, s) then EndsUntouched(s, p, u) && LiveFiles(u.disk) == LiveFiles(s.disk)
      else if !SnapshotIs(env, g.snapshot, p) then EndsUntouched(s, p, u)
      else if !Good(env, g.snapshot, p) then EndsPutBack(env, s, p, u)
      else EndsRestored(env, s, p, g, u)
  {
    var p := Prep(s);
    CheckBoundStep(env, s, g);
    NextKeepsInv(env, s, Smooth(env, s, g));
    OneStep(env, s, g, n);
    var t := Next(env, s, Smooth(env, s, g));
    if !Bound(env, s) {
      FromRefusal(env, s, p, t, g, n - 1);
    } else if p.current.Opaque? {
      FromCheckMembers(env, s, p, t, g, n - 1);
    } else {
      NoPending(env, s.disk, p);
      FromClearWal(env, s, p, t, g, n - 1);
    }
  }

  /** What `ExecutionAlone` says of the end `u`. */
  ghost predicate AsLeftAlone(env: Env, o: State, g: Given, u: State)
    requires IsExecuting(o.control)
  {
    var p := Prep(o);
    if !Bound(env, o) || !SnapshotIs(env, g.snapshot, p) then EndsUntouched(o, p, u)
    else if !Good(env, g.snapshot, p) then EndsPutBack(env, o, p, u)
    else EndsRestored(env, o, p, g, u)
  }

  /** However many steps it takes to come to rest. */
  lemma ExecutionEnds(env: Env, s: State, g: Given, n: nat)
    requires Inv(env, s) && s.pc == Checking(CheckBound) && Smoothly(env, s, g, n).pc == Idle
    ensures AsLeftAlone(env, s, g, Smoothly(env, s, g, n))
  {
    ExecutionAlone(env, s, g, 31);
    RestsAlike(env, s, g, 31, n);
  }

  /** What an approved restore comes to if no effect fails. */
  function Answer(env: Env, p: PreparedRestore, now: Settings, files: Files, snapshot: Content): Outcome {
    if now.revision != p.settingsRevision || !StillBound(env, files, p.current) || !SnapshotIs(env, snapshot, p)
    then FailedBeforeReplacement
    else if !Good(env, snapshot, p) then RecoveryPutBack
    else Restored
  }

  /** A reply that says what was recorded, or that nothing was, says just that. */
  lemma AnswerIs(env: Env, o: State, g: Given, u: State, r: Result<Outcome, Refusal>)
    requires IsExecuting(o.control) && AsLeftAlone(env, o, g, u)
    requires r.Ok? ==>
               && |u.control.finished| == |o.control.finished| + 1
               && u.control.finished[|o.control.finished|].outcome == r.value
    requires r.Err? ==> u.control.finished == o.control.finished
    ensures r == Ok(Answer(env, Prep(o), o.settings, LiveFiles(o.disk), g.snapshot))
    ensures r == Ok(Restored) ==>
              && NothingLeft(u.disk, Prep(o).intentId)
              && LiveFiles(u.disk) == if Upgrades(env, Prep(o)) then map[Ledger := g.snapshot] else g.marked
  {
  }

  /** What `PassPutsBack` and `PassBeforeTheMove` say of the end `u` of a pass that began in `s`. */
  ghost predicate PassedAlone(env: Env, s: State, u: State)
    requires IsExecuting(s.control)
  {
    if Rank(s.control.active.value.phase) >= Rank(MovingLiveAside) then PassEnds(env, s, u)
    else
      && Over(s, Prep(s), u, FailedBeforeReplacement) && NothingLeft(u.disk, Prep(s).intentId)
      && LiveFiles(u.disk) == LiveFiles(s.disk) && u.settings == s.settings
  }

  function PassAnswer(s: State): Outcome
    requires IsExecuting(s.control)
  {
    if Rank(s.control.active.value.phase) >= Rank(MovingLiveAside) then PassOutcome(s.disk, Prep(s))
    else FailedBeforeReplacement
  }

  lemma PassAnswerIs(env: Env, s: State, u: State, r: Result<Option<Outcome>, Refusal>)
    requires IsExecuting(s.control) && PassedAlone(env, s, u)
    requires r.Ok? ==>
               && r.value.Some? && |u.control.finished| == |s.control.finished| + 1
               && u.control.finished[|s.control.finished|].outcome == r.value.value
    requires r.Err? ==> u.control.finished == s.control.finished
    ensures r == Ok(Some(PassAnswer(s)))
  {
  }

  lemma PassRests(env: Env, s: State, now: int)
    requires Inv(env, s) && s.pc == Down && IsExecuting(s.control)
    ensures PassedAlone(env, s, PutBackPass(env, s, now))
  {
    if Rank(s.control.active.value.phase) >= Rank(MovingLiveAside) {
      PassPutsBack(env, s, now);
    } else {
      PassBeforeTheMove(env, s, now);
    }
  }

  lemma StartBacks(env: Env, s: State, now: int)
    requires s.pc == Down && IsExecuting(s.control)
    ensures Backing(Next(env, s, Start(now)).pc)
  {
  }

  lemma PassConcludes(env: Env, s: State, now: int, g: Given, n: nat)
    requires Inv(env, s) && s.pc == Down && IsExecuting(s.control)
    requires Smoothly(env, Next(env, s, Start(now)), g, n).pc == Idle
    ensures PassedAlone(env, s, Smoothly(env, Next(env, s, Start(now)), g, n))
  {
    var t := Next(env, s, Start(now));
    StartBacks(env, s, now);
    PassRests(env, s, now);
    SmoothIsUndisturbed(env, t, g, 14);
    assert Smoothly(env, t, g, 14) == PutBackPass(env, s, now);
    RestsAlike(env, t, g, 14, n);
  }

  // ---- From the preview to the end ----

  /** An approval that names the prepared restore and acknowledges exactly its preview, in time. */
  predicate Approves(env: Env, a: Approval, p: PreparedRestore) {
    && a.intentId == p.intentId && a.now <= p.expiresAt && a.typedDate == p.confirmationDate
    && a.acknowledged == p.payloadSha256 == env.digest(p)
  }

  function ClaimedFor(env: Env, s: State, p: PreparedRestore, a: Approval, now: int): State {
    Next(env, Next(env, Next(env, s, PrepareWith(p, s.settings)), Call(ApproveIntent(a))), Event.Claim(now))
  }

  lemma ClaimedIs(env: Env, s: State, p: PreparedRestore, a: Approval, now: int)
    requires s.pc == Idle && !IsExecuting(s.control) && p.intentId !in s.issued
    requires p.settingsRevision == s.settings.revision && Approves(env, a, p)
    requires FindFinished(s.control.finished, a.idempotencyId).None?
    ensures ClaimedFor(env, s, p, a, now) ==
            State(s.disk, Control(Some(Executing(p, a.idempotencyId, a.receiptId, a.now, Staging)), s.control.finished),
                  s.settings, Some(s.settings), Checking(CheckBound), now, LiveFiles(s.disk), s.issued + {p.intentId})
  {
    var b := Next(env, s, PrepareWith(p, s.settings));
    assert b == s.(control := s.control.(active := Some(Prepared(p))), issued := s.issued + {p.intentId},
                   preimage := Some(s.settings));
    var c := Next(env, b, Call(ApproveIntent(a)));
    assert c == b.(control := b.control.(active := Some(Executing(p, a.idempotencyId, a.receiptId, a.now, Approved))));
  }

  /** In any reachable workspace at rest, a preview of what is there now, approved as shown and left
      alone, restores the archive's Ledger and settings and records it for the request that approved it. */
  lemma RestoreGoesThrough(env: Env, s: State, p: PreparedRestore, a: Approval, now: int, g: Given)
    requires Inv(env, s) && s.pc == Idle && !IsExecuting(s.control) && p.intentId !in s.issued
    requires p.settingsRevision == s.settings.revision && StillBound(env, LiveFiles(s.disk), p.current)
    requires Approves(env, a, p) && FindFinished(s.control.finished, a.idempotencyId).None?
    requires Good(env, g.snapshot, p)
    ensures
      var o := ClaimedFor(env, s, p, a, now);
      var u := Smoothly(env, o, g, 31);
      && o.control.finished == s.control.finished && o.settings == s.settings && o.clock == now
      && IsExecuting(o.control) && o.control.active.value.idempotencyId == a.idempotencyId
      && EndsRestored(env, o, p, g, u)
  {
    ClaimedIs(env, s, p, a, now);
    var b := Next(env, s, PrepareWith(p, s.settings));
    NextKeepsInv(env, s, PrepareWith(p, s.settings));
    NextKeepsInv(env, b, Call(ApproveIntent(a)));
    NextKeepsInv(env, Next(env, b, Call(ApproveIntent(a))), Event.Claim(now));
    ExecutionAlone(env, ClaimedFor(env, s, p, a, now), g, 31);
  }
}
