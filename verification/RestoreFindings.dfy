// Two promises of the restore that hold only under a condition: what the
// settings are after "nothing was replaced", and putting back an inspectable
// Ledger after an interrupted pass that could not remove a write-ahead log.

module RestoreFindings {
  import opened Prelude
  import opened RestoreControl
  import opened RestoreMachine
  import opened RestoreInvariant
  import opened RestoreTheorems
  import opened RestoreConvergence

  // ---- The condition on interrupted passes ----

  /** Removing an installed copy's write-ahead log is the one failure a put-back ignores. */
  predicate Gentle(s: State, e: Event) {
    s.pc == PuttingBack(Sidecar(Wal)) ==> e.Done? || e.Crash?
  }

  predicate GentleRun(env: Env, s: State, es: seq<Event>)
    decreases |es|
  {
    es != [] ==> Gentle(s, es[0]) && GentleRun(env, Next(env, s, es[0]), es[1..])
  }

  ghost predicate NoLeftoverWal(s: State) {
    IsExecuting(s.control) && Rank(s.control.active.value.phase) >= Rank(MovingLiveAside)
    && Prep(s).current.Inspectable? ==>
      && (Aside(Prep(s).intentId, Ledger) !in s.disk ==> !WalPending(s.disk))
      && (s.pc == PuttingBack(Sidecar(Shm)) || s.pc == PuttingBack(LedgerBack) ==> Live(Wal) !in s.disk)
  }

  lemma CheckLeavesNoWal(env: Env, s: State, e: Event)
    requires IsExecuting(s.control) && s.control.active.value.phase == Staging && s.pc.Checking?
    requires s.pc.check.JournalMove? ==> SidecarsCleared(s.disk, Prep(s))
    ensures NoLeftoverWal(CheckStep(env, s, s.pc.check, e))
  {
  }

  lemma MoveLeavesNoWal(env: Env, s: State, e: Event)
    requires Inv(env, s) && s.pc.Moving? && NoLeftoverWal(s)
    ensures NoLeftoverWal(MoveStep(env, s, s.pc.move, e))
  {
  }

  lemma InstallLeavesNoWal(env: Env, s: State, e: Event)
    requires Inv(env, s) && s.pc.Replacing? && NoLeftoverWal(s)
    ensures NoLeftoverWal(InstallStep(env, s, s.pc.install, e))
  {
  }

  predicate MovesWal(step: Back) { step.Sidecar? || step.SidecarBack? || step.LedgerBack? }

  predicate OnlyReads(step: Back) {
    step.Begin? || step.FindAside? || step.Judge? || step.PutSettings? || step.CheckBack? || step.Finishing?
  }

  lemma ReadingLeavesWalAlone(env: Env, s: State, e: Event)
    requires IsExecuting(s.control) && s.pc.PuttingBack? && NoLeftoverWal(s) && OnlyReads(s.pc.back)
    ensures NoLeftoverWal(BackStep(env, s, s.pc.back, e))
  {
  }

  lemma DroppingLeavesWalAlone(env: Env, s: State, e: Event)
    requires IsExecuting(s.control) && s.pc.PuttingBack? && NoLeftoverWal(s)
    requires !MovesWal(s.pc.back) && !OnlyReads(s.pc.back)
    ensures NoLeftoverWal(BackStep(env, s, s.pc.back, e))
  {
  }

  lemma BackLeavesWalAlone(env: Env, s: State, e: Event)
    requires IsExecuting(s.control) && s.pc.PuttingBack? && NoLeftoverWal(s) && !MovesWal(s.pc.back)
    ensures NoLeftoverWal(BackStep(env, s, s.pc.back, e))
  {
    if OnlyReads(s.pc.back) {
      ReadingLeavesWalAlone(env, s, e);
    } else {
      DroppingLeavesWalAlone(env, s, e);
    }
  }

  lemma BackLeavesNoWal(env: Env, s: State, e: Event)
    requires IsExecuting(s.control) && s.pc.PuttingBack? && NoLeftoverWal(s) && Gentle(s, e)
    requires AtPc(env, s) && MovesWal(s.pc.back) && !e.Crash?
    ensures NoLeftoverWal(BackStep(env, s, s.pc.back, e))
  {
  }

  lemma RestLeavesNoWal(env: Env, s: State, e: Event)
    requires s.pc.Idle? && NoLeftoverWal(s)
    ensures NoLeftoverWal(AtRest(env, s, e))
  {
  }

  lemma StartupLeavesNoWal(env: Env, s: State, e: Event)
    requires s.pc.Down? || (s.pc.Sweeping? && s.control.active.None?)
    requires NoLeftoverWal(s)
    ensures NoLeftoverWal(Startup(s, e))
  {
  }

  lemma {:induction false} GentleLeavesNoWal(env: Env, s: State, e: Event)
    requires Inv(env, s) && NoLeftoverWal(s) && Gentle(s, e)
    ensures NoLeftoverWal(Next(env, s, e))
  {
    if !e.Crash? {
      match s.pc
      case Idle => RestLeavesNoWal(env, s, e);
      case Down | Sweeping => StartupLeavesNoWal(env, s, e);
      case Checking(_) => CheckLeavesNoWal(env, s, e);
      case Moving(_) => MoveLeavesNoWal(env, s, e);
      case Replacing(_) => InstallLeavesNoWal(env, s, e);
      case PuttingBack(step) =>
        if MovesWal(step) {
          BackLeavesNoWal(env, s, e);
        } else {
          BackLeavesWalAlone(env, s, e);
        }
      case ClearWork(_) =>
      case DropSet(_, _, _) =>
    }
  }

  lemma {:induction false} GentleRunLeavesNoWal(env: Env, s: State, es: seq<Event>)
    requires Inv(env, s) && NoLeftoverWal(s) && GentleRun(env, s, es)
    ensures NoLeftoverWal(Run(env, s, es))
    decreases |es|
  {
    if es == [] {
    } else {
      NextKeepsInv(env, s, es[0]);
      GentleLeavesNoWal(env, s, es[0]);
      GentleRunLeavesNoWal(env, Next(env, s, es[0]), es[1..]);
    }
  }

  /** In every run whose interrupted passes removed what write-ahead log they met, an undisturbed pass
      never reports a failed recovery: the live files are what the preview bound. */
  lemma CrashesConverge(env: Env, s: State, es: seq<Event>, now: int)
    requires Initial(s) && GentleRun(env, s, es)
    requires Run(env, s, es).pc == Down && IsExecuting(Run(env, s, es).control)
    requires Rank(Run(env, s, es).control.active.value.phase) >= Rank(MovingLiveAside)
    ensures
      var t := Run(env, s, es);
      var u := PutBackPass(env, t, now);
      && Over(t, Prep(t), u, PassOutcome(t.disk, Prep(t)))
      && PassOutcome(t.disk, Prep(t)) != RecoveryFailed
      && StillBound(env, LiveFiles(u.disk), Prep(t).current)
  {
    InitialInv(env, s);
    RunKeepsInv(env, s, es);
    GentleRunLeavesNoWal(env, s, es);
    PassPutsBack(env, Run(env, s, es), now);
  }

  // ---- The runs that show the conditions are needed ----

  const OLD_BINDING := LedgerBinding(1, 3, "old", "old")
  const NEW_BINDING := LedgerBinding(1, 7, "new", "new")

  /** A Ledger `[1]` and an archive's Ledger `[2]`. */
  const EXAMPLE := Env(
    c => if c == [1] then Some(OLD_BINDING) else if c == [2] then Some(NEW_BINDING) else None,
    c => MemberBinding(|c|, if c == [2] then "snapshot" else ""),
    p => "preview",
    (p, body) => "archived",
    1)

  const PREVIEW := PreparedRestore(
    "intent", "preview", 1, 7, "snapshot", "new", Inspectable(OLD_BINDING), None, 0, OperationalBackup("backup"),
    "2026-09-22", 1000)

  const MINE := Settings(0, "live", "mine")

  const UNTOUCHED := State(
    map[Live(Ledger) := [1]], Control(None, []), MINE, None, Idle, 0, map[], {})

  function During(phase: Phase, disk: Disk, settings: Settings, pc: Pc): State {
    State(disk, Control(Some(Executing(PREVIEW, "key", "receipt", 0, phase)), []), settings, Some(MINE), pc, 0,
          map[Ledger := [1]], {"intent"})
  }

  const OURS: Disk := map[Live(Ledger) := [1]]
  const COPIED: Disk := map[Live(Ledger) := [1], Staged("intent") := [2]]
  const MOVED: Disk := map[Aside("intent", Ledger) := [1], Staged("intent") := [2]]
  const INSTALLED: Disk := map[Aside("intent", Ledger) := [1], Live(Ledger) := [2]]
  const THEIRS := Settings(1, "live", "archived")

  lemma Snoc(env: Env, s: State, es: seq<Event>, e: Event)
    ensures Run(env, s, es + [e]) == Next(env, Run(env, s, es), e)
  {
    RunSplits(env, s, es, [e]);
    assert Run(env, Run(env, s, es), [e]) == Next(env, Run(env, s, es), e);
  }

  /** Extend a run by `n` succeeding effects. */
  lemma {:induction false} Extend(env: Env, s: State, es: seq<Event>, n: nat) returns (more: seq<Event>)
    ensures Run(env, s, more) == Undisturbed(env, Run(env, s, es), n)
    decreases n
  {
    if n == 0 {
      more := es;
    } else {
      Snoc(env, s, es, Done);
      more := Extend(env, s, es + [Done], n - 1);
    }
  }

  lemma ToApproved() returns (es: seq<Event>)
    ensures Run(EXAMPLE, UNTOUCHED, es) == During(Approved, OURS, MINE, Idle).(orig := map[])
  {
    var q := PrepareWith(PREVIEW, MINE);
    var a := Call(ApproveIntent(Approval("intent", "preview", "2026-09-22", "key", "receipt", 0)));
    var s1 := Next(EXAMPLE, UNTOUCHED, q);
    assert s1 == State(OURS, Control(Some(Prepared(PREVIEW)), []), MINE, Some(MINE), Idle, 0, map[], {"intent"});
    assert Next(EXAMPLE, s1, a) == During(Approved, OURS, MINE, Idle).(orig := map[]);
    Snoc(EXAMPLE, UNTOUCHED, [], q);
    Snoc(EXAMPLE, UNTOUCHED, [q], a);
    es := [q] + [a];
  }

  lemma CheckSteps()
    ensures Undisturbed(EXAMPLE, During(Staging, OURS, MINE, Checking(CheckBound)), 5)
         == During(Staging, OURS, MINE, Checking(CopyStaged))
  {
    assert LiveFiles(OURS) == map[Ledger := [1]];
    var s := During(Staging, OURS, MINE, Checking(CheckBound));
    var s1 := Next(EXAMPLE, s, Done);
    assert s1 == s.(pc := Checking(ClearWal));
    var s2 := Next(EXAMPLE, s1, Done);
    assert s2 == s.(pc := Checking(ClearShm));
    var s3 := Next(EXAMPLE, s2, Done);
    assert s3 == s.(pc := Checking(CheckMembers));
    var s4 := Next(EXAMPLE, s3, Done);
    assert s4 == s.(pc := Checking(DropOldStaged));
    assert Removed(OURS, Staged("intent")) == OURS;
    assert Undisturbed(EXAMPLE, s4, 1) == Next(EXAMPLE, s4, Done);
  }

  lemma MoveSteps()
    ensures Undisturbed(EXAMPLE, During(Staging, COPIED, MINE, Checking(VerifyStaged)), 3)
         == During(MovingLiveAside, MOVED, MINE, Replacing(JournalInstall))
  {
    var s1 := Next(EXAMPLE, During(Staging, COPIED, MINE, Checking(VerifyStaged)), Done);
    assert s1 == During(Staging, COPIED, MINE, Checking(JournalMove));
    var s2 := Next(EXAMPLE, s1, Done);
    assert s2 == During(MovingLiveAside, COPIED, MINE, Moving(MoveLedger));
    assert Renamed(COPIED, Live(Ledger), Aside("intent", Ledger)) == MOVED;
    assert Undisturbed(EXAMPLE, s2, 1) == Next(EXAMPLE, s2, Done);
  }

  lemma InstallSteps()
    ensures Undisturbed(EXAMPLE, During(MovingLiveAside, MOVED, MINE, Replacing(JournalInstall)), 3)
         == During(ApplyingSettings, INSTALLED, MINE, Replacing(ApplySettings))
  {
    var s1 := Next(EXAMPLE, During(MovingLiveAside, MOVED, MINE, Replacing(JournalInstall)), Done);
    assert s1 == During(Installing, MOVED, MINE, Replacing(InstallStaged));
    assert Renamed(MOVED, Staged("intent"), Live(Ledger)) == INSTALLED;
    var s2 := Next(EXAMPLE, s1, Done);
    assert s2 == During(Installing, INSTALLED, MINE, Replacing(JournalSettings));
    assert Undisturbed(EXAMPLE, s2, 1) == Next(EXAMPLE, s2, Done);
  }

  lemma InstalledBinding()
    ensures CurrentBinding(EXAMPLE, LiveFiles(INSTALLED)) == Some(NEW_BINDING)
  {
    assert LiveFiles(INSTALLED) == map[Ledger := [2]];
  }

  lemma VerifyStep()
    ensures Next(EXAMPLE, During(Verifying, INSTALLED, THEIRS, Replacing(Verify)), Done)
         == During(Verifying, INSTALLED, THEIRS, Replacing(Mark(NEW_BINDING)))
  {
    InstalledBinding();
  }

  lemma SettingsSteps()
    ensures Undisturbed(EXAMPLE, During(ApplyingSettings, INSTALLED, MINE, Replacing(ApplySettings)), 3)
         == During(Verifying, INSTALLED, THEIRS, Replacing(Mark(NEW_BINDING)))
  {
    var s1 := Next(EXAMPLE, During(ApplyingSettings, INSTALLED, MINE, Replacing(ApplySettings)), Done);
    assert s1 == During(ApplyingSettings, INSTALLED, THEIRS, Replacing(JournalVerify));
    var s2 := Next(EXAMPLE, s1, Done);
    assert s2 == During(Verifying, INSTALLED, THEIRS, Replacing(Verify));
    VerifyStep();
    assert Undisturbed(EXAMPLE, s2, 1) == Next(EXAMPLE, s2, Done);
  }

  lemma ToChecked() returns (es: seq<Event>)
    ensures Run(EXAMPLE, UNTOUCHED, es) == During(Staging, OURS, MINE, Checking(CopyStaged))
  {
    es := ToApproved();
    Snoc(EXAMPLE, UNTOUCHED, es, Claim(0));
    assert LiveFiles(OURS) == map[Ledger := [1]];
    assert Run(EXAMPLE, UNTOUCHED, es + [Claim(0)]) == During(Staging, OURS, MINE, Checking(CheckBound));
    es := Extend(EXAMPLE, UNTOUCHED, es + [Claim(0)], 5);
    CheckSteps();
  }

  lemma CopyStep()
    ensures Next(EXAMPLE, During(Staging, OURS, MINE, Checking(CopyStaged)), Copy([2], true))
         == During(Staging, COPIED, MINE, Checking(VerifyStaged))
  {
  }

  /** A run in which the archive's Ledger and settings are in place and being checked. */
  lemma ToMark() returns (es: seq<Event>)
    ensures Run(EXAMPLE, UNTOUCHED, es) == During(Verifying, INSTALLED, THEIRS, Replacing(Mark(NEW_BINDING)))
  {
    es := ToChecked();
    Snoc(EXAMPLE, UNTOUCHED, es, Copy([2], true));
    CopyStep();
    es := Extend(EXAMPLE, UNTOUCHED, es + [Copy([2], true)], 3);
    MoveSteps();
    es := Extend(EXAMPLE, UNTOUCHED, es, 3);
    InstallSteps();
    es := Extend(EXAMPLE, UNTOUCHED, es, 3);
    SettingsSteps();
  }

  // Putting back, up to the moment the Ledger is home again.

  lemma BackSteps()
    ensures Undisturbed(EXAMPLE, During(RollingBack, INSTALLED, THEIRS, PuttingBack(FindAside)), 5)
         == During(RollingBack, OURS, THEIRS, PuttingBack(DropStaged))
  {
    var aside: Disk := map[Aside("intent", Ledger) := [1]];
    var s1 := Next(EXAMPLE, During(RollingBack, INSTALLED, THEIRS, PuttingBack(FindAside)), Done);
    assert s1 == During(RollingBack, INSTALLED, THEIRS, PuttingBack(DropLive));
    assert Removed(INSTALLED, Live(Ledger)) == aside;
    var s2 := Next(EXAMPLE, s1, Done);
    assert s2 == During(RollingBack, aside, THEIRS, PuttingBack(Sidecar(Wal)));
    assert Removed(aside, Live(Wal)) == aside == Removed(aside, Live(Shm));
    var s3 := Next(EXAMPLE, s2, Done);
    assert s3 == During(RollingBack, aside, THEIRS, PuttingBack(Sidecar(Shm)));
    var s4 := Next(EXAMPLE, s3, Done);
    assert s4 == During(RollingBack, aside, THEIRS, PuttingBack(LedgerBack));
    assert Renamed(aside, Aside("intent", Ledger), Live(Ledger)) == OURS;
    assert Undisturbed(EXAMPLE, s4, 1) == Next(EXAMPLE, s4, Done);
  }

  lemma RestartSteps()
    ensures
      var s := Next(EXAMPLE, During(Verifying, INSTALLED, THEIRS, Replacing(Mark(NEW_BINDING))), Crash);
      Next(EXAMPLE, Next(EXAMPLE, s, Start(0)), Done)
        == During(RollingBack, INSTALLED, THEIRS, PuttingBack(FindAside))
  {
    assert Next(EXAMPLE, During(Verifying, INSTALLED, THEIRS, Down), Start(0))
        == During(Verifying, INSTALLED, THEIRS, PuttingBack(Begin));
  }

  /** A run that crashes with the Ledger home again and the archive's settings still in place. */
  lemma ToHomeUnsettled() returns (es: seq<Event>)
    ensures Run(EXAMPLE, UNTOUCHED, es) == During(RollingBack, OURS, THEIRS, Down)
  {
    es := ToMark();
    Snoc(EXAMPLE, UNTOUCHED, es, Crash);
    Snoc(EXAMPLE, UNTOUCHED, es + [Crash], Start(0));
    Snoc(EXAMPLE, UNTOUCHED, es + [Crash] + [Start(0)], Done);
    RestartSteps();
    es := Extend(EXAMPLE, UNTOUCHED, es + [Crash] + [Start(0)] + [Done], 5);
    BackSteps();
    Snoc(EXAMPLE, UNTOUCHED, es, Crash);
    es := es + [Crash];
  }

  /** "Nothing was replaced", with the archive's settings in place: a crash after the Ledger is home
      and before the settings are put back leaves them replaced for good. */
  lemma SettingsCanStayReplaced() returns (es: seq<Event>)
    ensures Initial(UNTOUCHED)
    ensures
      var t := Run(EXAMPLE, UNTOUCHED, es);
      var u := PutBackPass(EXAMPLE, t, 0);
      && t.pc == Down && IsExecuting(t.control)
      && Over(t, PREVIEW, u, FailedBeforeReplacement)
      && u.settings.body != UNTOUCHED.settings.body
  {
    es := ToHomeUnsettled();
    InitialInv(EXAMPLE, UNTOUCHED);
    RunKeepsInv(EXAMPLE, UNTOUCHED, es);
    PassPutsBack(EXAMPLE, During(RollingBack, OURS, THEIRS, Down), 0);
  }

  const PENDING: Disk := map[Aside("intent", Ledger) := [1], Live(Ledger) := [2], Live(Wal) := [9]]
  const PENDING_ASIDE: Disk := map[Aside("intent", Ledger) := [1], Live(Wal) := [9]]
  const LEFTOVER: Disk := map[Live(Ledger) := [1], Live(Wal) := [9]]

  lemma LiveWritten()
    ensures WithLive(INSTALLED, map[Ledger := [2], Wal := [9]]) == PENDING
  {
  }

  /** SQLite opens the installed copy and leaves a write-ahead log, and marking fails. */
  lemma SqliteStep()
    ensures Next(EXAMPLE, During(Verifying, INSTALLED, THEIRS, Replacing(Mark(NEW_BINDING))),
                 Sqlite(map[Ledger := [2], Wal := [9]], false))
         == During(Verifying, PENDING, THEIRS, Replacing(Mark(NEW_BINDING)))
  {
    LiveWritten();
  }

  lemma MarkFaultStep()
    ensures Next(EXAMPLE, During(Verifying, PENDING, THEIRS, Replacing(Mark(NEW_BINDING))), Fault)
         == During(Verifying, PENDING, THEIRS, PuttingBack(Begin))
  {
  }

  lemma PendingSteps()
    ensures Undisturbed(EXAMPLE, During(Verifying, PENDING, THEIRS, PuttingBack(Begin)), 3)
         == During(RollingBack, PENDING_ASIDE, THEIRS, PuttingBack(Sidecar(Wal)))
  {
    var s1 := Next(EXAMPLE, During(Verifying, PENDING, THEIRS, PuttingBack(Begin)), Done);
    assert s1 == During(RollingBack, PENDING, THEIRS, PuttingBack(FindAside));
    var s2 := Next(EXAMPLE, s1, Done);
    assert s2 == During(RollingBack, PENDING, THEIRS, PuttingBack(DropLive));
    assert Removed(PENDING, Live(Ledger)) == PENDING_ASIDE;
    assert Undisturbed(EXAMPLE, s2, 1) == Next(EXAMPLE, s2, Done);
  }

  lemma FaultStep()
    ensures Next(EXAMPLE, During(RollingBack, PENDING_ASIDE, THEIRS, PuttingBack(Sidecar(Wal))), Fault)
         == During(RollingBack, PENDING_ASIDE, THEIRS, PuttingBack(Sidecar(Shm)))
  {
  }

  lemma LeftoverSteps()
    ensures Undisturbed(EXAMPLE, During(RollingBack, PENDING_ASIDE, THEIRS, PuttingBack(Sidecar(Shm))), 2)
         == During(RollingBack, LEFTOVER, THEIRS, PuttingBack(DropStaged))
  {
    assert Removed(PENDING_ASIDE, Live(Shm)) == PENDING_ASIDE;
    var s := Next(EXAMPLE, During(RollingBack, PENDING_ASIDE, THEIRS, PuttingBack(Sidecar(Shm))), Done);
    assert s == During(RollingBack, PENDING_ASIDE, THEIRS, PuttingBack(LedgerBack));
    assert Renamed(PENDING_ASIDE, Aside("intent", Ledger), Live(Ledger)) == LEFTOVER;
    assert Undisturbed(EXAMPLE, s, 1) == Next(EXAMPLE, s, Done);
  }

  /** A run whose interrupted pass could not remove the installed copy's write-ahead log. */
  lemma ToLeftover() returns (es: seq<Event>)
    ensures Run(EXAMPLE, UNTOUCHED, es) == During(RollingBack, LEFTOVER, THEIRS, Down)
  {
    es := ToMark();
    var sqlite := Sqlite(map[Ledger := [2], Wal := [9]], false);
    Snoc(EXAMPLE, UNTOUCHED, es, sqlite);
    Snoc(EXAMPLE, UNTOUCHED, es + [sqlite], Fault);
    SqliteStep();
    MarkFaultStep();
    es := Extend(EXAMPLE, UNTOUCHED, es + [sqlite] + [Fault], 3);
    PendingSteps();
    Snoc(EXAMPLE, UNTOUCHED, es, Fault);
    FaultStep();
    es := Extend(EXAMPLE, UNTOUCHED, es + [Fault], 2);
    LeftoverSteps();
    Snoc(EXAMPLE, UNTOUCHED, es, Crash);
    es := es + [Crash];
  }

  /** A pass all of whose effects succeed can still report a failed recovery, with the previous Ledger
      home: an earlier interrupted pass left the installed copy's write-ahead log beside it. */
  lemma LeftoverWalFailsRecovery() returns (es: seq<Event>)
    ensures
      var t := Run(EXAMPLE, UNTOUCHED, es);
      var u := PutBackPass(EXAMPLE, t, 0);
      && t.pc == Down && IsExecuting(t.control)
      && Over(t, PREVIEW, u, RecoveryFailed)
      && Look(u.disk, Live(Ledger)) == Look(UNTOUCHED.disk, Live(Ledger))
  {
    es := ToLeftover();
    InitialInv(EXAMPLE, UNTOUCHED);
    RunKeepsInv(EXAMPLE, UNTOUCHED, es);
    PassPutsBack(EXAMPLE, During(RollingBack, LEFTOVER, THEIRS, Down), 0);
  }
}
