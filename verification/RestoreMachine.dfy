// Operational Restore as a step machine over durable state. Each step is one
// atomic effect (a rename, a removal, a journal write, a settings write) that
// succeeds or fails; a crash may fall between any two of them. `pc` says which
// effect the running executor attempts next and is lost in a crash.

module RestoreMachine {
  import opened Prelude
  import opened RestoreControl

  type Content = seq<byte>

  /** A file name the restore touches: the live Ledger set, and per intent the staged snapshot and
      the rollback names. */
  datatype Name = Live(member: Member) | Staged(id: string) | Aside(id: string, member: Member)

  type Disk = map<Name, Content>

  type Files = map<Member, Content>

  /** `body` is the display and operational settings other than the selected workspace. */
  datatype Settings = Settings(revision: nat, selected: string, body: string)

  /** What this model leaves uninterpreted: reading a Ledger's content, hashing a file, the digest
      of a preview, and merging an archive's settings export. */
  datatype Env = Env(
    inspect: Content -> Option<LedgerBinding>,
    bind: Content -> MemberBinding,
    digest: PreparedRestore -> string,
    applyExport: (PreparedRestore, string) -> string,
    currentSchemaVersion: nat)

  /** Up to the journal entry before the first move. */
  datatype Check =
    | CheckBound | ClearWal | ClearShm | CheckMembers
    | DropOldStaged | CopyStaged | VerifyStaged | DropBadStaged | JournalMove

  /** The live set moves aside. */
  datatype Move = MoveLedger | DropUnmoved | MoveSidecar(member: Member) | CheckMoved

  /** The snapshot and the archived settings go in, and are checked. */
  datatype Install =
    | JournalInstall | InstallStaged | JournalSettings | ApplySettings | JournalVerify | Verify
    | Mark(seen: LedgerBinding) | FinishRestored(seen: LedgerBinding)

  /** The previous set and settings go back, and the outcome is recorded. */
  datatype Back =
    | DropInterrupted
    | Begin | FindAside | DropStagedEarly | Judge
    | DropLive | Sidecar(member: Member) | SidecarBack(member: Member) | LedgerBack | DropStaged
    | PutSettings | CheckBack
    | Finishing(outcome: Outcome)

  datatype Pc =
    | Down | Idle | Sweeping
    | Checking(check: Check) | Moving(move: Move) | Replacing(install: Install) | PuttingBack(back: Back)
    | ClearWork(next: Pc) | DropSet(id: string, moved: set<Member>, member: Member)

  /** `orig` is a history variable: the live files when execution was claimed. */
  datatype State = State(
    disk: Disk, control: Control, settings: Settings, preimage: Option<Settings>,
    pc: Pc, clock: int, orig: Files, issued: set<string>)

  datatype Event =
    | Done | Fault | Crash
    | Start(now: int)
    | Claim(now: int)
    | Call(request: Request)
    | PrepareWith(prepared: PreparedRestore, document: Settings)
    | Copy(content: Content, complete: bool)
    | Sqlite(files: Files, complete: bool)
    | UseLedger(files: Files)
    | UseSettings(selected: string, body: string)
    | Sweep(id: string, member: Member)

  // ---- Files ----

  function Renamed(d: Disk, src: Name, dst: Name): Disk
    requires src in d
  {
    (d - {src})[dst := d[src]]
  }

  function Removed(d: Disk, n: Name): Disk { d - {n} }

  function LiveFiles(d: Disk): Files { map m: Member | Live(m) in d :: d[Live(m)] }

  function AsideFiles(d: Disk, id: string): Files { map m: Member | Aside(id, m) in d :: d[Aside(id, m)] }

  /** The live names replaced by what SQLite leaves there. */
  function WithLive(d: Disk, files: Files): Disk {
    (map n | n in d && !n.Live? :: d[n]) + (map m | m in files :: Live(m) := files[m])
  }

  /** The Ledger's binding, if it is a supported Ledger closed cleanly. */
  function CurrentBinding(env: Env, files: Files): Option<LedgerBinding> {
    if Ledger !in files || files[Ledger] == [] then None
    else if Wal in files && files[Wal] != [] then None
    else env.inspect(files[Ledger])
  }

  /** A file set bound by content; none without the Ledger file. */
  function BindFiles(env: Env, files: Files): Option<map<Member, MemberBinding>> {
    if Ledger !in files then None else Some(map m | m in files :: env.bind(files[m]))
  }

  predicate StillBound(env: Env, files: Files, current: SourceBinding) {
    match current
    case Inspectable(binding) => CurrentBinding(env, files) == Some(binding)
    case Opaque(bound) => BindFiles(env, files) == Some(bound)
  }

  predicate SnapshotIs(env: Env, c: Content, p: PreparedRestore) {
    && env.bind(c).sha256 == p.snapshotSha256
    && env.inspect(c).Some?
    && env.inspect(c).value.schemaVersion == p.archiveSchemaVersion
    && env.inspect(c).value.ledgerRevision == p.archiveLedgerRevision
  }

  /** The installed file is the archive's Ledger. */
  predicate IsArchives(b: LedgerBinding, p: PreparedRestore) {
    && b.ledgerRevision == p.archiveLedgerRevision
    && b.schemaVersion == p.archiveSchemaVersion
    && b.inventorySha256 == p.inventorySha256
  }

  function BoundMembers(p: PreparedRestore): set<Member> {
    match p.current
    case Inspectable(_) => {Ledger}
    case Opaque(files) => files.Keys + {Ledger}
  }

  // ---- Steps ----

  function Prep(s: State): PreparedRestore
    requires s.control.active.Some?
  {
    s.control.active.value.prepared
  }

  function Dropped(s: State, e: Event, n: Name, pc: Pc): State {
    if e.Done? then s.(disk := Removed(s.disk, n), pc := pc) else s.(pc := pc)
  }

  function Journal(s: State, from: Phase, to: Phase, pc: Pc): State {
    s.(control := Advance(s.control, from, to).control, pc := pc)
  }

  function Ending(s: State, outcome: Outcome): State { s.(pc := PuttingBack(Finishing(outcome))) }

  /** Nothing live is changed but an inspectable Ledger's stale sidecars. */
  function CheckStep(env: Env, s: State, step: Check, e: Event): State
    requires IsExecuting(s.control)
  {
    var p := Prep(s);
    var staged := Staged(p.intentId);
    var failed := Ending(s, FailedBeforeReplacement);
    match step
    case CheckBound =>
      if !(e.Done? && s.settings.revision == p.settingsRevision && StillBound(env, LiveFiles(s.disk), p.current))
      then failed
      else s.(pc := Checking(if p.current.Opaque? then CheckMembers else ClearWal))
    case ClearWal =>
      if Live(Wal) !in s.disk then s.(pc := Checking(ClearShm))
      else if s.disk[Live(Wal)] == [] && e.Done? then
        s.(disk := Removed(s.disk, Live(Wal)), pc := Checking(ClearShm))
      else failed
    case ClearShm =>
      if Live(Shm) !in s.disk then s.(pc := Checking(CheckMembers))
      else if e.Done? then s.(disk := Removed(s.disk, Live(Shm)), pc := Checking(CheckMembers))
      else failed
    case CheckMembers => if e.Done? then s.(pc := Checking(DropOldStaged)) else failed
    case DropOldStaged => Dropped(s, e, staged, Checking(CopyStaged))
    case CopyStaged =>
      if e.Copy? then
        s.(disk := s.disk[staged := e.content], pc := Checking(if e.complete then VerifyStaged else CopyStaged))
      else if e.Fault? then s.(pc := Checking(DropBadStaged))
      else s
    case VerifyStaged =>
      if e.Done? && staged in s.disk && SnapshotIs(env, s.disk[staged], p)
      then s.(pc := Checking(JournalMove))
      else s.(pc := Checking(DropBadStaged))
    case DropBadStaged => Dropped(s, e, staged, PuttingBack(Finishing(FailedBeforeReplacement)))
    case JournalMove =>
      if e.Done? then Journal(s, Staging, MovingLiveAside, Moving(MoveLedger)) else s.(pc := Idle)
  }

  function AfterSidecar(m: Member): Pc { Moving(if m == Wal then MoveSidecar(Shm) else CheckMoved) }

  /** An opaque set moves whole, and is checked again where it went. */
  function MoveStep(env: Env, s: State, step: Move, e: Event): State
    requires IsExecuting(s.control)
  {
    var p := Prep(s);
    var back := s.(pc := PuttingBack(Begin));
    match step
    case MoveLedger =>
      if e.Done? && Live(Ledger) in s.disk then
        s.(disk := Renamed(s.disk, Live(Ledger), Aside(p.intentId, Ledger)),
           pc := if p.current.Opaque? then Moving(MoveSidecar(Wal)) else Replacing(JournalInstall))
      else s.(pc := Moving(DropUnmoved))
    case DropUnmoved => Dropped(s, e, Staged(p.intentId), PuttingBack(Finishing(FailedBeforeReplacement)))
    case MoveSidecar(m) =>
      if m !in BoundMembers(p) then s.(pc := AfterSidecar(m))
      else if e.Done? && Live(m) in s.disk then
        s.(disk := Renamed(s.disk, Live(m), Aside(p.intentId, m)), pc := AfterSidecar(m))
      else back
    case CheckMoved =>
      if e.Done? && p.current.Opaque? && BindFiles(env, AsideFiles(s.disk, p.intentId)) == Some(p.current.files)
         && LiveFiles(s.disk) == map[]
      then s.(pc := Replacing(JournalInstall))
      else back
  }

  function InstallStep(env: Env, s: State, step: Install, e: Event): State
    requires IsExecuting(s.control)
  {
    var p := Prep(s);
    var back := s.(pc := PuttingBack(Begin));
    var upgrade := p.archiveSchemaVersion < env.currentSchemaVersion;
    match step
    case JournalInstall =>
      if e.Done? then Journal(s, MovingLiveAside, Installing, Replacing(InstallStaged)) else back
    case InstallStaged =>
      if e.Done? && Staged(p.intentId) in s.disk then
        s.(disk := Renamed(s.disk, Staged(p.intentId), Live(Ledger)), pc := Replacing(JournalSettings))
      else back
    case JournalSettings =>
      if e.Done? then Journal(s, Installing, ApplyingSettings, Replacing(ApplySettings)) else back
    case ApplySettings =>
      if e.Done? then
        s.(settings := Settings(s.settings.revision + 1, s.settings.selected, env.applyExport(p, s.settings.body)),
           pc := Replacing(JournalVerify))
      else back
    case JournalVerify =>
      if e.Done? then Journal(s, ApplyingSettings, Verifying, Replacing(Verify)) else back
    case Verify =>
      var now := CurrentBinding(env, LiveFiles(s.disk));
      if e.Done? && now.Some? && IsArchives(now.value, p) then s.(pc := Replacing(Mark(now.value))) else back
    case Mark(seen) =>
      if upgrade then s.(pc := Replacing(FinishRestored(seen)))
      else if e.Sqlite? then
        s.(disk := WithLive(s.disk, e.files),
           pc := Replacing(if e.complete then FinishRestored(seen) else Mark(seen)))
      else if e.Fault? then back
      else s
    case FinishRestored(seen) =>
      if e.Done? then
        var now := CurrentBinding(env, LiveFiles(s.disk));
        var pending := if upgrade && now.Some? then Some(now.value.inventorySha256) else None;
        var moved := if p.current.Opaque? then p.current.files.Keys else {};
        s.(control := Finish(s.control, Restored, pending, s.clock).control,
           pc := ClearWork(DropSet(p.intentId, moved, Ledger)))
      else s.(pc := Idle)
  }

  function AfterBack(m: Member): Pc { PuttingBack(if m == Wal then Sidecar(Shm) else LedgerBack) }

  function BackStep(env: Env, s: State, step: Back, e: Event): State
    requires IsExecuting(s.control)
  {
    var p := Prep(s);
    var id := p.intentId;
    var failed := Ending(s, RecoveryFailed);
    match step
    case DropInterrupted => Dropped(s, e, Staged(id), PuttingBack(Finishing(FailedBeforeReplacement)))
    case Begin =>
      s.(control := if e.Done? then BeginRollBack(s.control).control else s.control, pc := PuttingBack(FindAside))
    case FindAside => s.(pc := PuttingBack(if Aside(id, Ledger) in s.disk then DropLive else DropStagedEarly))
    case DropStagedEarly => Dropped(s, e, Staged(id), PuttingBack(Judge))
    case Judge =>
      if e.Done? && StillBound(env, LiveFiles(s.disk), p.current) then Ending(s, FailedBeforeReplacement)
      else failed
    case DropLive =>
      if Live(Ledger) in s.disk && !e.Done? then failed
      else s.(disk := Removed(s.disk, Live(Ledger)), pc := PuttingBack(Sidecar(Wal)))
    case Sidecar(m) =>
      if p.current.Inspectable? then Dropped(s, e, Live(m), AfterBack(m))
      else
        var aside := Aside(id, m) in s.disk;
        var drop := Live(m) in s.disk && (aside || m !in BoundMembers(p));
        if drop && !e.Done? then failed
        else
          s.(disk := if drop then Removed(s.disk, Live(m)) else s.disk,
             pc := if aside then PuttingBack(SidecarBack(m)) else AfterBack(m))
    case SidecarBack(m) =>
      if e.Done? && Aside(id, m) in s.disk
      then s.(disk := Renamed(s.disk, Aside(id, m), Live(m)), pc := AfterBack(m)) else failed
    case LedgerBack =>
      if e.Done? && Aside(id, Ledger) in s.disk
      then s.(disk := Renamed(s.disk, Aside(id, Ledger), Live(Ledger)), pc := PuttingBack(DropStaged)) else failed
    case DropStaged => Dropped(s, e, Staged(id), PuttingBack(PutSettings))
    case PutSettings =>
      if !e.Done? || s.preimage.None? then failed
      else
        var pre := s.preimage.value;
        if s.settings.body == pre.body && s.settings.selected == pre.selected then s.(pc := PuttingBack(CheckBack))
        else
          s.(settings := Settings(s.settings.revision + 1, s.settings.selected, pre.body),
             pc := PuttingBack(CheckBack))
    case CheckBack =>
      if e.Done? && StillBound(env, LiveFiles(s.disk), p.current) then Ending(s, RecoveryPutBack) else failed
    case Finishing(outcome) =>
      if e.Done? then
        s.(control := Finish(s.control, outcome, None, s.clock).control,
           pc := if outcome == RecoveryFailed then Idle else ClearWork(Idle))
      else s.(pc := Idle)
  }

  /** Removals after the operation is over. */
  function CleanUp(s: State, e: Event): State {
    match s.pc
    case ClearWork(next) => s.(preimage := if e.Done? then None else s.preimage, pc := next)
    case DropSet(id, moved, m) =>
      var next := if m == Ledger then DropSet(id, moved, Wal) else if m == Wal then DropSet(id, moved, Shm) else Idle;
      if m == Ledger || m in moved then Dropped(s, e, Aside(id, m), next) else s.(pc := next)
    case _ => s
  }

  predicate Sweepable(c: Control, id: string, m: Member) {
    exists t :: t in c.finished && t.outcome == Restored && t.intentId == id
                && (m == Ledger || (t.recovery.PreservationCopy? && m in t.recovery.files))
  }

  /** Startup reconciliation: it only ever puts things back. */
  function Startup(s: State, e: Event): State {
    if s.pc.Down? then
      if e.Start? then
        var t := s.(clock := e.now);
        if s.control.active.None? then t.(pc := Sweeping)
        else if IsPrepared(s.control) then t.(control := DropPrepared(s.control).control, pc := ClearWork(Idle))
        else if Rank(s.control.active.value.phase) <= Rank(Staging) then t.(pc := PuttingBack(DropInterrupted))
        else t.(pc := PuttingBack(Begin))
      else if e.Fault? then s.(pc := Idle)
      else s
    else if e.Sweep? then
      if Sweepable(s.control, e.id, e.member) then s.(disk := Removed(s.disk, Aside(e.id, e.member))) else s
    else if e.Done? then s.(pc := Idle)
    else s
  }

  predicate Claimed(c: Control) { IsExecuting(c) && c.active.value.phase != Approved }

  /** The document of a revision the settings have or once had. */
  predicate Held(now: Settings, document: Settings, revision: nat) {
    document.revision == revision <= now.revision && (revision == now.revision ==> document == now)
  }

  /** While no executor runs: the person's requests, ordinary use of a Ledger that may be open, and
      the claim of an approved restore. Intent ids are fresh, and a preview is made of a settings
      document the store holds or held before. */
  function AtRest(env: Env, s: State, e: Event): State {
    match e
    case Call(q) =>
      if !(q.CheckArchive? || q.RejectIntent? || q.ApproveIntent?) then s
      else
        var r := Apply(env.digest, Record(s.control, s.issued), q);
        var dropped := if q.CheckArchive? then !IsExecuting(s.control) else q.RejectIntent? && r.control != s.control;
        s.(control := r.control, preimage := if dropped then None else s.preimage)
    case PrepareWith(p, document) =>
      if IsExecuting(s.control) || p.intentId in s.issued || !Held(s.settings, document, p.settingsRevision) then s
      else
        var r := Apply(env.digest, Record(s.control, s.issued), Prepare(p));
        s.(control := r.control, issued := r.issued, preimage := Some(document))
    case Claim(now) =>
      if IsExecuting(s.control) && s.control.active.value.phase == Approved then
        Journal(s, Approved, Staging, Checking(CheckBound)).(clock := now, orig := LiveFiles(s.disk))
      else s
    case UseLedger(files) => if Claimed(s.control) then s else s.(disk := WithLive(s.disk, files))
    case UseSettings(selected, body) =>
      if Claimed(s.control) then s
      else s.(settings := Settings(s.settings.revision + 1, selected, body))
    case _ => s
  }

  /** One step of the whole system. */
  function Next(env: Env, s: State, e: Event): State {
    if e.Crash? then s.(pc := Down)
    else
      match s.pc
      case Idle => AtRest(env, s, e)
      case Down | Sweeping => Startup(s, e)
      case ClearWork(_) => CleanUp(s, e)
      case DropSet(_, _, _) => CleanUp(s, e)
      case Checking(step) => if IsExecuting(s.control) then CheckStep(env, s, step, e) else s
      case Moving(step) => if IsExecuting(s.control) then MoveStep(env, s, step, e) else s
      case Replacing(step) => if IsExecuting(s.control) then InstallStep(env, s, step, e) else s
      case PuttingBack(step) => if IsExecuting(s.control) then BackStep(env, s, step, e) else s
  }

  function Run(env: Env, s: State, es: seq<Event>): State
    decreases |es|
  {
    if es == [] then s else Run(env, Next(env, s, es[0]), es[1..])
  }

  /** A workspace no restore has touched. */
  predicate Initial(s: State) {
    && s.control == Control(None, [])
    && (forall n :: n in s.disk ==> n.Live?)
    && s.pc == Idle
    && s.issued == {}
  }
}
