// What every reachable state of the restore machine keeps, and the proof, one
// group of steps at a time.

module RestoreInvariant {
  import opened Prelude
  import opened RestoreControl
  import opened RestoreMachine

  // ---- Where the previous files stand ----

  /** Where a bound member of the previous set stands: its rollback name once it is there. */
  function Home(d: Disk, id: string, m: Member): Name {
    if Aside(id, m) in d then Aside(id, m) else Live(m)
  }

  ghost predicate KeptAtHome(d: Disk, p: PreparedRestore, orig: Files, m: Member) {
    m in BoundMembers(p) ==> Look(d, Home(d, p.intentId, m)) == Look(orig, m)
  }

  /** No loss: every bound member's original bytes stand at its home. */
  ghost predicate NoLoss(d: Disk, p: PreparedRestore, orig: Files) {
    KeptAtHome(d, p, orig, Ledger) && KeptAtHome(d, p, orig, Wal) && KeptAtHome(d, p, orig, Shm)
  }

  ghost predicate NoAsides(d: Disk, id: string) {
    Aside(id, Ledger) !in d && Aside(id, Wal) !in d && Aside(id, Shm) !in d
  }

  ghost predicate AsideAllowed(d: Disk, p: PreparedRestore, m: Member) {
    Aside(p.intentId, m) in d ==> m in BoundMembers(p) && Aside(p.intentId, Ledger) in d
  }

  /** Only bound members wait at rollback names, and never without the Ledger. */
  ghost predicate AsidesOrderly(d: Disk, p: PreparedRestore) {
    AsideAllowed(d, p, Wal) && AsideAllowed(d, p, Shm)
  }

  ghost predicate AllAside(d: Disk, p: PreparedRestore) {
    && Aside(p.intentId, Ledger) in d
    && (Wal in BoundMembers(p) ==> Aside(p.intentId, Wal) in d)
    && (Shm in BoundMembers(p) ==> Aside(p.intentId, Shm) in d)
  }

  ghost predicate UnboundGone(d: Disk, p: PreparedRestore) {
    p.current.Opaque? ==>
      && (Wal !in BoundMembers(p) ==> Live(Wal) !in d)
      && (Shm !in BoundMembers(p) ==> Live(Shm) !in d)
  }

  ghost predicate Untouched(d: Disk, id: string) {
    Staged(id) !in d && NoAsides(d, id)
  }

  /** The live set is still what the preview bound, apart from stale sidecars already cleared. */
  ghost predicate LiveIsBound(env: Env, d: Disk, p: PreparedRestore, orig: Files) {
    && StillBound(env, orig, p.current)
    && (if p.current.Opaque? then LiveFiles(d) == orig
        else Look(d, Live(Ledger)) == Look(orig, Ledger) && Look(d, Live(Wal)) in {Look(orig, Wal), None})
  }

  ghost predicate SidecarsCleared(d: Disk, p: PreparedRestore) {
    p.current.Inspectable? ==> Live(Wal) !in d && Live(Shm) !in d
  }

  // ---- Invariants ----

  ghost predicate NamesIssued(s: State) {
    forall n :: n in s.disk && !n.Live? ==> n.id in s.issued
  }

  /** The preimage a put-back needs is there, and is the settings document the preview bound. */
  ghost predicate PreimageKept(s: State)
    requires s.control.active.Some?
  {
    && s.preimage.Some?
    && s.preimage.value.revision == Prep(s).settingsRevision
  }

  /** What holds of an active restore whatever the executor is doing: it survives any crash. */
  ghost predicate Durable(env: Env, s: State)
    requires s.control.active.Some?
  {
    var p := Prep(s);
    && PreimageKept(s)
    && (!Claimed(s.control) ==>
          && Untouched(s.disk, p.intentId)
          && s.settings.revision >= s.preimage.value.revision
          && (s.settings.revision == s.preimage.value.revision ==> s.settings == s.preimage.value))
    && (Claimed(s.control) ==>
          && NoLoss(s.disk, p, s.orig)
          && AsidesOrderly(s.disk, p)
          && (if s.control.active.value.phase == Staging then NoAsides(s.disk, p.intentId)
              else
                && StillBound(env, s.orig, p.current)
                && (Aside(p.intentId, Ledger) !in s.disk ==> UnboundGone(s.disk, p))))
  }

  ghost predicate AtCheck(env: Env, d: Disk, p: PreparedRestore, orig: Files, step: Check) {
    match step
    case CheckBound => LiveFiles(d) == orig
    case ClearWal => LiveIsBound(env, d, p, orig) && p.current.Inspectable?
    case ClearShm => LiveIsBound(env, d, p, orig) && p.current.Inspectable? && Live(Wal) !in d
    case CheckMembers | DropOldStaged | CopyStaged | VerifyStaged | JournalMove =>
      LiveIsBound(env, d, p, orig) && SidecarsCleared(d, p)
    case DropBadStaged => true
  }

  ghost predicate AtMove(env: Env, d: Disk, p: PreparedRestore, orig: Files, step: Move) {
    var id := p.intentId;
    match step
    case MoveLedger => LiveIsBound(env, d, p, orig) && SidecarsCleared(d, p) && NoAsides(d, id)
    case DropUnmoved => NoAsides(d, id) && StillBound(env, LiveFiles(d), p.current)
    case MoveSidecar(m) =>
      && p.current.Opaque? && Aside(id, Ledger) in d && m != Ledger && Aside(id, Shm) !in d
      && (m == Wal ==> Aside(id, Wal) !in d)
      && (m == Shm ==> Wal in BoundMembers(p) ==> Aside(id, Wal) in d)
    case CheckMoved => p.current.Opaque? && AllAside(d, p)
  }

  ghost predicate AtInstall(env: Env, d: Disk, p: PreparedRestore, phase: Phase, step: Install) {
    && AllAside(d, p)
    && match step
       case JournalInstall => phase == MovingLiveAside
       case InstallStaged | JournalSettings => phase == Installing
       case ApplySettings | JournalVerify => phase == ApplyingSettings
       case Verify => phase == Verifying
       case Mark(seen) => phase == Verifying && Rederived(env, d, p, seen)
       case FinishRestored(seen) => phase == Verifying && Rederived(env, d, p, seen)
  }

  ghost predicate AtBack(env: Env, s: State, p: PreparedRestore, phase: Phase, step: Back) {
    var d, id := s.disk, p.intentId;
    && (step.DropInterrupted? || step.Finishing? || Rank(phase) >= Rank(MovingLiveAside))
    && match step
       case DropInterrupted => Rank(phase) <= Rank(Staging)
       case Begin | FindAside => true
       case DropStagedEarly | Judge => Aside(id, Ledger) !in d
       case DropLive => Aside(id, Ledger) in d
       case Sidecar(m) => Aside(id, Ledger) in d && m != Ledger && (m == Shm ==> WalBack(d, p))
       case SidecarBack(m) =>
         && Aside(id, Ledger) in d && m != Ledger && p.current.Opaque?
         && Aside(id, m) in d && Live(m) !in d && (m == Shm ==> WalBack(d, p))
       case LedgerBack => Aside(id, Ledger) in d && WalBack(d, p) && Aside(id, Shm) !in d && UnboundGone(d, p)
       case DropStaged | PutSettings => Aside(id, Ledger) !in d
       case CheckBack =>
         Aside(id, Ledger) !in d && s.preimage.Some? && s.settings.body == s.preimage.value.body
       case Finishing(o) => AtEnd(env, s, p, phase, o)
  }

  /** What an outcome about to be recorded already guarantees. */
  ghost predicate AtEnd(env: Env, s: State, p: PreparedRestore, phase: Phase, o: Outcome) {
    match o
    case FailedBeforeReplacement =>
      && Aside(p.intentId, Ledger) !in s.disk
      && (Rank(phase) >= Rank(MovingLiveAside) ==> StillBound(env, LiveFiles(s.disk), p.current))
    case RecoveryPutBack =>
      && Rank(phase) >= Rank(MovingLiveAside)
      && Aside(p.intentId, Ledger) !in s.disk
      && StillBound(env, LiveFiles(s.disk), p.current)
      && s.preimage.Some? && s.settings.body == s.preimage.value.body
    case RecoveryFailed => true
    case Restored => false
  }

  /** What the running executor may rely on at each step. */
  ghost predicate AtPc(env: Env, s: State)
    requires IsExecuting(s.control)
  {
    var p, phase := Prep(s), s.control.active.value.phase;
    match s.pc
    case Checking(step) => phase == Staging && AtCheck(env, s.disk, p, s.orig, step)
    case Moving(step) => phase == MovingLiveAside && AtMove(env, s.disk, p, s.orig, step)
    case Replacing(step) => AtInstall(env, s.disk, p, phase, step)
    case PuttingBack(step) => AtBack(env, s, p, phase, step)
    case _ => true
  }

  ghost predicate WalBack(d: Disk, p: PreparedRestore) {
    && Aside(p.intentId, Wal) !in d
    && (p.current.Opaque? ==> Wal !in BoundMembers(p) ==> Live(Wal) !in d)
  }

  /** `seen` was read from the installed file and is the archive's; an older-schema Ledger has not
      been opened since. */
  ghost predicate Rederived(env: Env, d: Disk, p: PreparedRestore, seen: LedgerBinding) {
    && IsArchives(seen, p)
    && (p.archiveSchemaVersion < env.currentSchemaVersion ==> CurrentBinding(env, LiveFiles(d)) == Some(seen))
  }

  predicate RunsExecutor(pc: Pc) { pc.Checking? || pc.Moving? || pc.Replacing? || pc.PuttingBack? }

  ghost predicate Inv(env: Env, s: State) {
    && Consistent(Record(s.control, s.issued))
    && NamesIssued(s)
    && (s.control.active.Some? && !(s.pc.ClearWork? || s.pc.DropSet?) ==> Durable(env, s))
    && (s.pc.ClearWork? || s.pc.DropSet? || s.pc.Sweeping? ==> s.control.active.None?)
    && (s.pc.ClearWork? ==> s.pc.next.Idle? || s.pc.next.DropSet?)
    && (RunsExecutor(s.pc) ==> IsExecuting(s.control) && s.preimage.Some? && AtPc(env, s))
  }

  lemma InitialInv(env: Env, s: State)
    requires Initial(s)
    ensures Inv(env, s)
  {
  }

  // ---- One step ----

  lemma CrashKeepsInv(env: Env, s: State)
    requires Inv(env, s)
    ensures Inv(env, s.(pc := Down))
  {
  }

  lemma {:induction false} AtRestKeepsInv(env: Env, s: State, e: Event)
    requires Inv(env, s) && s.pc.Idle?
    ensures Inv(env, AtRest(env, s, e))
  {
    if e.Call? {
      ApplyKeepsConsistent(env.digest, Record(s.control, s.issued), e.request);
    } else if e.PrepareWith? {
      ApplyKeepsConsistent(env.digest, Record(s.control, s.issued), Prepare(e.prepared));
    }
  }

  lemma RestartKeepsInv(env: Env, s: State, e: Event)
    requires Inv(env, s) && s.pc.Down?
    ensures Inv(env, Startup(s, e))
  {
  }

  lemma SweepKeepsInv(env: Env, s: State, e: Event)
    requires Inv(env, s) && s.pc.Sweeping?
    ensures Inv(env, Startup(s, e))
  {
  }

  lemma CleanUpKeepsInv(env: Env, s: State, e: Event)
    requires Inv(env, s) && (s.pc.ClearWork? || s.pc.DropSet?)
    ensures Inv(env, CleanUp(s, e))
  {
  }

  // ---- One step of the executor, each its own small proof ----

  /** Removing the staged snapshot leaves the live set alone. */
  lemma StagedAside(d: Disk, id: string)
    ensures LiveFiles(Removed(d, Staged(id))) == LiveFiles(d)
  {
  }

  lemma CheckBoundKeeps(env: Env, s: State, e: Event)
    requires Inv(env, s) && s.pc.Checking? && s.pc.check.CheckBound?
    ensures Inv(env, CheckStep(env, s, s.pc.check, e))
  {
  }

  lemma ClearWalKeeps(env: Env, s: State, e: Event)
    requires Inv(env, s) && s.pc.Checking? && s.pc.check.ClearWal?
    ensures Inv(env, CheckStep(env, s, s.pc.check, e))
  {
  }

  lemma ClearShmKeeps(env: Env, s: State, e: Event)
    requires Inv(env, s) && s.pc.Checking? && s.pc.check.ClearShm?
    ensures Inv(env, CheckStep(env, s, s.pc.check, e))
  {
  }

  lemma CheckMembersKeeps(env: Env, s: State, e: Event)
    requires Inv(env, s) && s.pc.Checking? && s.pc.check.CheckMembers?
    ensures Inv(env, CheckStep(env, s, s.pc.check, e))
  {
  }

  lemma DropOldStagedKeeps(env: Env, s: State, e: Event)
    requires Inv(env, s) && s.pc.Checking? && s.pc.check.DropOldStaged?
    ensures Inv(env, CheckStep(env, s, s.pc.check, e))
  {
  }

  lemma CopyStagedKeeps(env: Env, s: State, e: Event)
    requires Inv(env, s) && s.pc.Checking? && s.pc.check.CopyStaged?
    ensures Inv(env, CheckStep(env, s, s.pc.check, e))
  {
  }

  lemma VerifyStagedKeeps(env: Env, s: State, e: Event)
    requires Inv(env, s) && s.pc.Checking? && s.pc.check.VerifyStaged?
    ensures Inv(env, CheckStep(env, s, s.pc.check, e))
  {
  }

  lemma DropBadStagedKeeps(env: Env, s: State, e: Event)
    requires Inv(env, s) && s.pc.Checking? && s.pc.check.DropBadStaged?
    ensures Inv(env, CheckStep(env, s, s.pc.check, e))
  {
  }

  lemma JournalMoveKeeps(env: Env, s: State, e: Event)
    requires Inv(env, s) && s.pc.Checking? && s.pc.check.JournalMove?
    ensures Inv(env, CheckStep(env, s, s.pc.check, e))
  {
  }

  lemma MoveLedgerKeeps(env: Env, s: State, e: Event)
    requires Inv(env, s) && s.pc.Moving? && s.pc.move.MoveLedger?
    ensures Inv(env, MoveStep(env, s, s.pc.move, e))
  {
  }

  lemma DropUnmovedKeeps(env: Env, s: State, e: Event)
    requires Inv(env, s) && s.pc.Moving? && s.pc.move.DropUnmoved?
    ensures Inv(env, MoveStep(env, s, s.pc.move, e))
  {
    StagedAside(s.disk, Prep(s).intentId);
  }

  lemma MoveWalKeeps(env: Env, s: State, e: Event)
    requires Inv(env, s) && s.pc == Moving(MoveSidecar(Wal))
    ensures Inv(env, MoveStep(env, s, s.pc.move, e))
  {
  }

  lemma MoveSidecarKeeps(env: Env, s: State, e: Event)
    requires Inv(env, s) && s.pc.Moving? && s.pc.move.MoveSidecar?
    ensures Inv(env, MoveStep(env, s, s.pc.move, e))
  {
    if s.pc.move.member == Wal {
      MoveWalKeeps(env, s, e);
    }
  }

  lemma CheckMovedKeeps(env: Env, s: State, e: Event)
    requires Inv(env, s) && s.pc.Moving? && s.pc.move.CheckMoved?
    ensures Inv(env, MoveStep(env, s, s.pc.move, e))
  {
  }

  lemma JournalInstallKeeps(env: Env, s: State, e: Event)
    requires Inv(env, s) && s.pc.Replacing? && s.pc.install.JournalInstall?
    ensures Inv(env, InstallStep(env, s, s.pc.install, e))
  {
  }

  lemma InstallStagedKeeps(env: Env, s: State, e: Event)
    requires Inv(env, s) && s.pc.Replacing? && s.pc.install.InstallStaged?
    ensures Inv(env, InstallStep(env, s, s.pc.install, e))
  {
  }

  lemma JournalSettingsKeeps(env: Env, s: State, e: Event)
    requires Inv(env, s) && s.pc.Replacing? && s.pc.install.JournalSettings?
    ensures Inv(env, InstallStep(env, s, s.pc.install, e))
  {
  }

  lemma ApplySettingsKeeps(env: Env, s: State, e: Event)
    requires Inv(env, s) && s.pc.Replacing? && s.pc.install.ApplySettings?
    ensures Inv(env, InstallStep(env, s, s.pc.install, e))
  {
  }

  lemma JournalVerifyKeeps(env: Env, s: State, e: Event)
    requires Inv(env, s) && s.pc.Replacing? && s.pc.install.JournalVerify?
    ensures Inv(env, InstallStep(env, s, s.pc.install, e))
  {
  }

  lemma VerifyKeeps(env: Env, s: State, e: Event)
    requires Inv(env, s) && s.pc.Replacing? && s.pc.install.Verify?
    ensures Inv(env, InstallStep(env, s, s.pc.install, e))
  {
  }

  lemma SqliteKeeps(env: Env, s: State, e: Event)
    requires Inv(env, s) && s.pc.Replacing? && s.pc.install.Mark? && e.Sqlite?
    ensures Inv(env, InstallStep(env, s, s.pc.install, e))
  {
  }

  lemma MarkKeeps(env: Env, s: State, e: Event)
    requires Inv(env, s) && s.pc.Replacing? && s.pc.install.Mark?
    ensures Inv(env, InstallStep(env, s, s.pc.install, e))
  {
    if e.Sqlite? {
      SqliteKeeps(env, s, e);
    }
  }

  lemma FinishRestoredKeeps(env: Env, s: State, e: Event)
    requires Inv(env, s) && s.pc.Replacing? && s.pc.install.FinishRestored?
    ensures Inv(env, InstallStep(env, s, s.pc.install, e))
  {
  }

  lemma DropInterruptedKeeps(env: Env, s: State, e: Event)
    requires Inv(env, s) && s.pc.PuttingBack? && s.pc.back.DropInterrupted?
    ensures Inv(env, BackStep(env, s, s.pc.back, e))
  {
  }

  lemma BeginKeeps(env: Env, s: State, e: Event)
    requires Inv(env, s) && s.pc.PuttingBack? && s.pc.back.Begin?
    ensures Inv(env, BackStep(env, s, s.pc.back, e))
  {
  }

  lemma FindAsideKeeps(env: Env, s: State, e: Event)
    requires Inv(env, s) && s.pc.PuttingBack? && s.pc.back.FindAside?
    ensures Inv(env, BackStep(env, s, s.pc.back, e))
  {
  }

  lemma DropStagedEarlyKeeps(env: Env, s: State, e: Event)
    requires Inv(env, s) && s.pc.PuttingBack? && s.pc.back.DropStagedEarly?
    ensures Inv(env, BackStep(env, s, s.pc.back, e))
  {
  }

  lemma JudgeKeeps(env: Env, s: State, e: Event)
    requires Inv(env, s) && s.pc.PuttingBack? && s.pc.back.Judge?
    ensures Inv(env, BackStep(env, s, s.pc.back, e))
  {
  }

  lemma DropLiveKeeps(env: Env, s: State, e: Event)
    requires Inv(env, s) && s.pc.PuttingBack? && s.pc.back.DropLive?
    ensures Inv(env, BackStep(env, s, s.pc.back, e))
  {
  }

  lemma SidecarInspectableKeeps(env: Env, s: State, e: Event)
    requires Inv(env, s) && s.pc.PuttingBack? && s.pc.back.Sidecar? && Prep(s).current.Inspectable?
    ensures Inv(env, BackStep(env, s, s.pc.back, e))
  {
  }

  lemma WalWaitingKeeps(env: Env, s: State, e: Event)
    requires Inv(env, s) && s.pc == PuttingBack(Sidecar(Wal)) && Prep(s).current.Opaque?
    requires Aside(Prep(s).intentId, Wal) in s.disk
    ensures Inv(env, BackStep(env, s, s.pc.back, e))
  {
  }

  lemma WalOpaqueKeeps(env: Env, s: State, e: Event)
    requires Inv(env, s) && s.pc == PuttingBack(Sidecar(Wal)) && Prep(s).current.Opaque?
    ensures Inv(env, BackStep(env, s, s.pc.back, e))
  {
    if Aside(Prep(s).intentId, Wal) in s.disk {
      WalWaitingKeeps(env, s, e);
    }
  }

  lemma ShmWaitingKeeps(env: Env, s: State, e: Event)
    requires Inv(env, s) && s.pc == PuttingBack(Sidecar(Shm)) && Prep(s).current.Opaque?
    requires Aside(Prep(s).intentId, Shm) in s.disk
    ensures Inv(env, BackStep(env, s, s.pc.back, e))
  {
  }

  lemma SidecarOpaqueKeeps(env: Env, s: State, e: Event)
    requires Inv(env, s) && s.pc.PuttingBack? && s.pc.back.Sidecar? && Prep(s).current.Opaque?
    ensures Inv(env, BackStep(env, s, s.pc.back, e))
  {
    if s.pc.back.member == Wal {
      WalOpaqueKeeps(env, s, e);
    } else if Aside(Prep(s).intentId, Shm) in s.disk {
      ShmWaitingKeeps(env, s, e);
    }
  }

  lemma SidecarBackKeeps(env: Env, s: State, e: Event)
    requires Inv(env, s) && s.pc.PuttingBack? && s.pc.back.SidecarBack?
    ensures Inv(env, BackStep(env, s, s.pc.back, e))
  {
  }

  lemma LedgerBackKeeps(env: Env, s: State, e: Event)
    requires Inv(env, s) && s.pc.PuttingBack? && s.pc.back.LedgerBack?
    ensures Inv(env, BackStep(env, s, s.pc.back, e))
  {
  }

  lemma DropStagedKeeps(env: Env, s: State, e: Event)
    requires Inv(env, s) && s.pc.PuttingBack? && s.pc.back.DropStaged?
    ensures Inv(env, BackStep(env, s, s.pc.back, e))
  {
  }

  lemma PutSettingsKeeps(env: Env, s: State, e: Event)
    requires Inv(env, s) && s.pc.PuttingBack? && s.pc.back.PutSettings?
    ensures Inv(env, BackStep(env, s, s.pc.back, e))
  {
  }

  lemma CheckBackKeeps(env: Env, s: State, e: Event)
    requires Inv(env, s) && s.pc.PuttingBack? && s.pc.back.CheckBack?
    ensures Inv(env, BackStep(env, s, s.pc.back, e))
  {
  }

  lemma FinishingKeeps(env: Env, s: State, e: Event)
    requires Inv(env, s) && s.pc.PuttingBack? && s.pc.back.Finishing?
    ensures Inv(env, BackStep(env, s, s.pc.back, e))
  {
  }

  lemma CheckKeepsInv(env: Env, s: State, e: Event)
    requires Inv(env, s) && s.pc.Checking?
    ensures Inv(env, CheckStep(env, s, s.pc.check, e))
  {
    match s.pc.check
    case CheckBound => CheckBoundKeeps(env, s, e);
    case ClearWal => ClearWalKeeps(env, s, e);
    case ClearShm => ClearShmKeeps(env, s, e);
    case CheckMembers => CheckMembersKeeps(env, s, e);
    case DropOldStaged => DropOldStagedKeeps(env, s, e);
    case CopyStaged => CopyStagedKeeps(env, s, e);
    case VerifyStaged => VerifyStagedKeeps(env, s, e);
    case DropBadStaged => DropBadStagedKeeps(env, s, e);
    case JournalMove => JournalMoveKeeps(env, s, e);
  }

  lemma MoveKeepsInv(env: Env, s: State, e: Event)
    requires Inv(env, s) && s.pc.Moving?
    ensures Inv(env, MoveStep(env, s, s.pc.move, e))
  {
    match s.pc.move
    case MoveLedger => MoveLedgerKeeps(env, s, e);
    case DropUnmoved => DropUnmovedKeeps(env, s, e);
    case MoveSidecar(_) => MoveSidecarKeeps(env, s, e);
    case CheckMoved => CheckMovedKeeps(env, s, e);
  }

  lemma InstallKeepsInv(env: Env, s: State, e: Event)
    requires Inv(env, s) && s.pc.Replacing?
    ensures Inv(env, InstallStep(env, s, s.pc.install, e))
  {
    match s.pc.install
    case JournalInstall => JournalInstallKeeps(env, s, e);
    case InstallStaged => InstallStagedKeeps(env, s, e);
    case JournalSettings => JournalSettingsKeeps(env, s, e);
    case ApplySettings => ApplySettingsKeeps(env, s, e);
    case JournalVerify => JournalVerifyKeeps(env, s, e);
    case Verify => VerifyKeeps(env, s, e);
    case Mark(_) => MarkKeeps(env, s, e);
    case FinishRestored(_) => FinishRestoredKeeps(env, s, e);
  }

  lemma BackKeepsInv(env: Env, s: State, e: Event)
    requires Inv(env, s) && s.pc.PuttingBack?
    ensures Inv(env, BackStep(env, s, s.pc.back, e))
  {
    match s.pc.back
    case DropInterrupted => DropInterruptedKeeps(env, s, e);
    case Begin => BeginKeeps(env, s, e);
    case FindAside => FindAsideKeeps(env, s, e);
    case DropStagedEarly => DropStagedEarlyKeeps(env, s, e);
    case Judge => JudgeKeeps(env, s, e);
    case DropLive => DropLiveKeeps(env, s, e);
    case Sidecar(_) =>
      if Prep(s).current.Opaque? {
        SidecarOpaqueKeeps(env, s, e);
      } else {
        SidecarInspectableKeeps(env, s, e);
      }
    case SidecarBack(_) => SidecarBackKeeps(env, s, e);
    case LedgerBack => LedgerBackKeeps(env, s, e);
    case DropStaged => DropStagedKeeps(env, s, e);
    case PutSettings => PutSettingsKeeps(env, s, e);
    case CheckBack => CheckBackKeeps(env, s, e);
    case Finishing(_) => FinishingKeeps(env, s, e);
  }

  lemma {:induction false} NextKeepsInv(env: Env, s: State, e: Event)
    requires Inv(env, s)
    ensures Inv(env, Next(env, s, e))
  {
    if e.Crash? {
      CrashKeepsInv(env, s);
    } else {
      match s.pc
      case Idle => AtRestKeepsInv(env, s, e);
      case Down => RestartKeepsInv(env, s, e);
      case Sweeping => SweepKeepsInv(env, s, e);
      case ClearWork(_) => CleanUpKeepsInv(env, s, e);
      case DropSet(_, _, _) => CleanUpKeepsInv(env, s, e);
      case Checking(_) => CheckKeepsInv(env, s, e);
      case Moving(_) => MoveKeepsInv(env, s, e);
      case Replacing(_) => InstallKeepsInv(env, s, e);
      case PuttingBack(_) => BackKeepsInv(env, s, e);
    }
  }

  /** Every run, with crashes, restarts and failed effects anywhere, keeps the invariant. */
  lemma {:induction false} RunKeepsInv(env: Env, s: State, es: seq<Event>)
    requires Inv(env, s)
    ensures Inv(env, Run(env, s, es))
    decreases |es|
  {
    if es == [] {
    } else {
      NextKeepsInv(env, s, es[0]);
      RunKeepsInv(env, Next(env, s, es[0]), es[1..]);
    }
  }
}
