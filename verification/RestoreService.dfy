// The restore service itself: methods that rename and remove files and update
// the control record in a fixed order, any of which may fail. Every
// effect appends one event, so `Valid` says that each state the service passes
// through is a state of a run of the machine, and what is proved of every run
// holds of the service. Which effects fail is given: what the service answers
// can blame nothing else.

module RestoreService {
  import opened Prelude
  import opened RestoreControl
  import opened RestoreMachine
  import opened RestoreInvariant
  import opened RestoreTheorems
  import opened RestoreConvergence
  import opened RestoreForward

  /** Where an executor began, how much of the history and how many effects went before, and what it
      was given. */
  datatype Trace = Trace(base: State, mark: nat, since: nat, given: Given)

  class Service {
    const env: Env
    const fails: nat -> bool
    var taken: nat
    var disk: Disk
    var control: Control
    var settings: Settings
    var preimage: Option<Settings>
    var clock: int
    ghost var pc: Pc
    ghost var orig: Files
    ghost var issued: set<string>
    ghost const start: State
    ghost var history: seq<Event>
    ghost var trace: Trace

    ghost function World(): State
      reads this
    {
      State(disk, control, settings, preimage, pc, clock, orig, issued)
    }

    ghost predicate Valid()
      reads this
    {
      World() == Run(env, start, history) && OnTrack()
    }

    /** No effect since the first `since` has failed. */
    ghost predicate NoFault(since: nat)
      reads this
    {
      forall k :: since <= k < taken ==> !fails(k)
    }

    /** As long as no effect fails, the executor does what it does when left alone. */
    ghost predicate OnTrack()
      reads this
    {
      && trace.mark <= |history| && trace.since <= taken
      && (NoFault(trace.since) ==> World() == Smoothly(env, trace.base, trace.given, |history| - trace.mark))
    }

    /** The executor is about to take this step of the restore it runs. */
    ghost predicate At(step: Pc)
      reads this
    {
      Valid() && pc == step && IsExecuting(control)
    }

    constructor (env: Env, fails: nat -> bool, disk: Disk, settings: Settings)
      ensures Valid() && history == [] && pc == Idle && this.fails == fails
      ensures this.env == env && this.disk == disk && this.settings == settings && control == Control(None, [])
    {
      this.env, this.disk, this.control, this.settings := env, disk, Control(None, []), settings;
      this.preimage, this.clock, this.pc, this.orig, this.issued := None, 0, Idle, map[], {};
      this.start := State(disk, Control(None, []), settings, None, Idle, 0, map[], {});
      this.history, this.fails, this.taken := [], fails, 0;
      this.trace :=
        Trace(State(disk, Control(None, []), settings, None, Idle, 0, map[], {}), 0, 0, Given([], map[]));
    }

    // ---- Single effects ----

    /** Whether the next effect succeeds. */
    method Try() returns (ok: bool)
      modifies this`taken
      ensures ok == !fails(old(taken)) && taken == old(taken) + 1
    {
      ok := !fails(taken);
      taken := taken + 1;
    }

    /** The latest effect failed. */
    predicate JustFailed()
      reads this
    {
      taken > 0 && fails(taken - 1)
    }

    /** A step of the executor. It is the one an executor left alone would take, unless the latest
        effect failed. */
    ghost method Log(before: State, e: Event)
      requires before == Run(env, start, history) && World() == Next(env, before, e)
      requires trace.mark <= |history| && trace.since <= taken
      requires NoFault(trace.since) ==> before == Smoothly(env, trace.base, trace.given, |history| - trace.mark)
      requires e == Smooth(env, before, trace.given) || (JustFailed() && trace.since < taken)
      modifies this`history
      ensures Valid() && history == old(history) + [e]
    {
      RunSplits(env, start, history, [e]);
      assert Run(env, before, [e]) == Next(env, before, e);
      SmoothlyMore(env, trace.base, trace.given, |history| - trace.mark, 1);
      history := history + [e];
    }

    /** What is not a step of an executor left alone begins anew. */
    ghost method Enter(before: State, e: Event, given: Given)
      requires before == Run(env, start, history) && World() == Next(env, before, e)
      requires e.Fault? ==> JustFailed()
      modifies this`history, this`trace
      ensures Valid() && history == old(history) + [e]
      ensures trace == Trace(World(), |history|, taken, given)
    {
      RunSplits(env, start, history, [e]);
      assert Run(env, before, [e]) == Next(env, before, e);
      history := history + [e];
      trace := Trace(World(), |history|, taken, given);
    }

    /** The next effect succeeds in one way, with nothing to choose. */
    ghost predicate Plain()
      reads this
    {
      Smooth(env, World(), trace.given) == Done
    }

    // What the next step does is said in these methods' preconditions: its definition is not needed.

    method Rename(src: Name, dst: Name, ghost done: Pc, ghost fault: Pc) returns (ok: bool)
      requires Valid() && Plain()
      requires Next(env, World(), Done) ==
               if src in disk then World().(disk := Renamed(disk, src, dst), pc := done) else World().(pc := fault)
      requires Next(env, World(), Fault) == World().(pc := fault)
      modifies this`disk, this`pc, this`history, this`taken
      ensures Valid() && taken == old(taken) + 1
      ensures ok <==> !fails(old(taken)) && src in old(disk)
      ensures ok ==> disk == Renamed(old(disk), src, dst) && pc == done
      ensures !ok ==> disk == old(disk) && pc == fault
    {
      hide Next, Run, Smoothly;
      ghost var before := World();
      var tried := Try();
      ok := tried && src in disk;
      if ok {
        disk := Renamed(disk, src, dst);
      }
      pc := if ok then done else fault;
      if tried {
        Log(before, Done);
      } else {
        Log(before, Fault);
      }
    }

    method Remove(n: Name, ghost done: Pc, ghost fault: Pc) returns (ok: bool)
      requires Valid() && Plain()
      requires Next(env, World(), Done) == World().(disk := Removed(disk, n), pc := done)
      requires Next(env, World(), Fault) == World().(pc := fault)
      modifies this`disk, this`pc, this`history, this`taken
      ensures Valid() && (ok <==> !fails(old(taken))) && taken == old(taken) + 1
      ensures ok ==> disk == Removed(old(disk), n) && pc == done
      ensures !ok ==> disk == old(disk) && pc == fault
    {
      hide Next, Run, Smoothly;
      ghost var before := World();
      ok := Try();
      if ok {
        disk := Removed(disk, n);
        pc := done;
        Log(before, Done);
      } else {
        pc := fault;
        Log(before, Fault);
      }
    }

    /** One atomic, durable replacement of the control record. */
    method Update(next: Control, ghost done: Pc, ghost fault: Pc) returns (ok: bool)
      requires Valid() && Plain()
      requires Next(env, World(), Done) == World().(control := next, pc := done)
      requires Next(env, World(), Fault) == World().(pc := fault)
      modifies this`control, this`pc, this`history, this`taken
      ensures Valid() && (ok <==> !fails(old(taken))) && taken == old(taken) + 1
      ensures ok ==> control == next && pc == done
      ensures !ok ==> control == old(control) && pc == fault
    {
      hide Next, Run, Smoothly;
      ghost var before := World();
      ok := Try();
      if ok {
        control := next;
        pc := done;
        Log(before, Done);
      } else {
        pc := fault;
        Log(before, Fault);
      }
    }

    method WriteSettings(next: Settings, ghost done: Pc, ghost fault: Pc) returns (ok: bool)
      requires Valid() && Plain()
      requires Next(env, World(), Done) == World().(settings := next, pc := done)
      requires Next(env, World(), Fault) == World().(pc := fault)
      modifies this`settings, this`pc, this`history, this`taken
      ensures Valid() && (ok <==> !fails(old(taken))) && taken == old(taken) + 1
      ensures ok ==> settings == next && pc == done
      ensures !ok ==> settings == old(settings) && pc == fault
    {
      hide Next, Run, Smoothly;
      ghost var before := World();
      ok := Try();
      if ok {
        settings := next;
        pc := done;
        Log(before, Done);
      } else {
        pc := fault;
        Log(before, Fault);
      }
    }

    /** A read that may fail and changes nothing: whether `holds` was seen. */
    method Confirm(holds: bool, ghost good: Pc, ghost bad: Pc) returns (ok: bool)
      requires Valid() && Plain()
      requires Next(env, World(), Done) == World().(pc := if holds then good else bad)
      requires Next(env, World(), Fault) == World().(pc := bad)
      modifies this`pc, this`history, this`taken
      ensures Valid() && (ok <==> !fails(old(taken)) && holds) && taken == old(taken) + 1
      ensures pc == if ok then good else bad
    {
      hide Next, Run, Smoothly;
      ghost var before := World();
      var read := Try();
      ok := read && holds;
      pc := if ok then good else bad;
      if read {
        Log(before, Done);
      } else {
        Log(before, Fault);
      }
    }

    /** Looking at what is there, without effect. */
    ghost method Pass(next: Pc)
      requires Valid() && Plain() && Next(env, World(), Done) == World().(pc := next)
      modifies this`pc, this`history
      ensures Valid() && pc == next
    {
      hide Next, Run, Smoothly;
      ghost var before := World();
      pc := next;
      Log(before, Done);
    }

    // ---- Putting back ----

    /** One sidecar: a bound one waiting at its rollback name goes back over whatever is at the live
        name, an unbound one at the live name goes. */
    method BackWithSidecar(p: PreparedRestore, m: Member) returns (ok: bool)
      requires m != Ledger && At(PuttingBack(Sidecar(m))) && p == control.active.value.prepared
      modifies this`disk, this`pc, this`history, this`taken
      ensures At(if ok then AfterBack(m) else PuttingBack(Finishing(RecoveryFailed)))
      ensures ok && p.current.Opaque? ==> Aside(p.intentId, m) !in disk
    {
      var live, aside := Live(m), Aside(p.intentId, m);
      ghost var next, failed := AfterBack(m), PuttingBack(Finishing(RecoveryFailed));
      ok := true;
      if p.current.Inspectable? {
        var _ := Remove(live, next, next);
      } else if aside in disk {
        if live in disk {
          ok := Remove(live, PuttingBack(SidecarBack(m)), failed);
          if !ok { return; }
        } else {
          Pass(PuttingBack(SidecarBack(m)));
        }
        ok := Rename(aside, live, next, failed);
      } else if m !in BoundMembers(p) && live in disk {
        ok := Remove(live, next, failed);
      } else {
        Pass(next);
      }
    }

    method BackWithSidecars(p: PreparedRestore) returns (ok: bool)
      requires At(PuttingBack(Sidecar(Wal))) && p == control.active.value.prepared
      modifies this`disk, this`pc, this`history, this`taken
      ensures At(if ok then PuttingBack(LedgerBack) else PuttingBack(Finishing(RecoveryFailed)))
      ensures ok && p.current.Opaque? ==> Aside(p.intentId, Shm) !in disk
    {
      ok := BackWithSidecar(p, Wal);
      if ok {
        ok := BackWithSidecar(p, Shm);
      }
    }

    /** Whatever is in the live name now is the restored copy. */
    method DropRestoredCopy() returns (ok: bool)
      requires At(PuttingBack(DropLive))
      modifies this`disk, this`pc, this`history, this`taken
      ensures At(if ok then PuttingBack(Sidecar(Wal)) else PuttingBack(Finishing(RecoveryFailed)))
      ensures ok ==> disk == Removed(old(disk), Live(Ledger))
    {
      ok := true;
      if Live(Ledger) in disk {
        ok := Remove(Live(Ledger), PuttingBack(Sidecar(Wal)), PuttingBack(Finishing(RecoveryFailed)));
      } else {
        Pass(PuttingBack(Sidecar(Wal)));
      }
    }

    method BackWithFiles(p: PreparedRestore) returns (ok: bool)
      requires At(PuttingBack(DropLive)) && p == control.active.value.prepared
      modifies this`disk, this`pc, this`history, this`taken
      ensures At(if ok then PuttingBack(DropStaged) else PuttingBack(Finishing(RecoveryFailed)))
      ensures ok ==> Live(Ledger) in disk && Aside(p.intentId, Ledger) !in disk
    {
      ok := DropRestoredCopy();
      if !ok { return; }
      ok := BackWithSidecars(p);
      if !ok { return; }
      ok := Rename(Aside(p.intentId, Ledger), Live(Ledger), PuttingBack(DropStaged),
                   PuttingBack(Finishing(RecoveryFailed)));
    }

    method BackWithSettings() returns (ok: bool)
      requires At(PuttingBack(PutSettings))
      modifies this`settings, this`pc, this`history, this`taken
      ensures At(if ok then PuttingBack(CheckBack) else PuttingBack(Finishing(RecoveryFailed)))
      ensures ok ==> preimage.Some? && settings.body == preimage.value.body
    {
      ghost var failed := PuttingBack(Finishing(RecoveryFailed));
      if preimage.None? {
        ok := Confirm(false, failed, failed);
      } else if settings.body == preimage.value.body && settings.selected == preimage.value.selected {
        ok := Confirm(true, PuttingBack(CheckBack), failed);
      } else {
        var next := Settings(settings.revision + 1, settings.selected, preimage.value.body);
        ok := WriteSettings(next, PuttingBack(CheckBack), failed);
      }
    }

    method ConfirmBack(p: PreparedRestore) returns (ok: bool)
      requires At(PuttingBack(CheckBack)) && p == control.active.value.prepared
      modifies this`pc, this`history, this`taken
      ensures At(PuttingBack(Finishing(if ok then RecoveryPutBack else RecoveryFailed)))
      ensures ok ==> StillBound(env, LiveFiles(disk), p.current)
    {
      ok := Confirm(StillBound(env, LiveFiles(disk), p.current), PuttingBack(Finishing(RecoveryPutBack)),
                    PuttingBack(Finishing(RecoveryFailed)));
    }

    method JudgeInPlace(p: PreparedRestore) returns (outcome: Outcome)
      requires At(PuttingBack(DropStagedEarly)) && p == control.active.value.prepared
      modifies this`disk, this`pc, this`history, this`taken
      ensures At(PuttingBack(Finishing(outcome)))
      ensures outcome == FailedBeforeReplacement || outcome == RecoveryFailed
      ensures outcome == FailedBeforeReplacement ==> StillBound(env, LiveFiles(disk), p.current)
    {
      var _ := Remove(Staged(p.intentId), PuttingBack(Judge), PuttingBack(Judge));
      var bound := Confirm(StillBound(env, LiveFiles(disk), p.current),
                           PuttingBack(Finishing(FailedBeforeReplacement)), PuttingBack(Finishing(RecoveryFailed)));
      outcome := if bound then FailedBeforeReplacement else RecoveryFailed;
    }

    method DropStagedCopy(p: PreparedRestore)
      requires At(PuttingBack(DropStaged)) && p == control.active.value.prepared
      modifies this`disk, this`pc, this`history, this`taken
      ensures At(PuttingBack(PutSettings))
    {
      var _ := Remove(Staged(p.intentId), PuttingBack(PutSettings), PuttingBack(PutSettings));
    }

    method PutBack(p: PreparedRestore) returns (outcome: Outcome)
      requires At(PuttingBack(DropLive)) && p == control.active.value.prepared
      modifies this`disk, this`settings, this`pc, this`history, this`taken
      ensures At(PuttingBack(Finishing(outcome)))
      ensures outcome == RecoveryPutBack || outcome == RecoveryFailed
      ensures outcome == RecoveryPutBack ==>
                && StillBound(env, LiveFiles(disk), p.current)
                && preimage.Some? && settings.body == preimage.value.body
    {
      var ok := BackWithFiles(p);
      if ok {
        DropStagedCopy(p);
        ok := BackWithSettings();
      }
      if ok {
        ok := ConfirmBack(p);
      }
      outcome := if ok then RecoveryPutBack else RecoveryFailed;
    }

    /** Put the previous Ledger and settings back; say what the files show. */
    method RollBack() returns (outcome: Outcome)
      requires At(PuttingBack(Begin))
      modifies this`disk, this`control, this`settings, this`pc, this`history, this`taken
      ensures At(PuttingBack(Finishing(outcome))) && outcome != Restored
      ensures control == old(control) || control == BeginRollBack(old(control)).control
      ensures outcome == RecoveryPutBack ==>
                && StillBound(env, LiveFiles(disk), control.active.value.prepared.current)
                && preimage.Some? && settings.body == preimage.value.body
      ensures outcome == FailedBeforeReplacement ==>
                StillBound(env, LiveFiles(disk), control.active.value.prepared.current)
    {
      var p := control.active.value.prepared;
      BeginBack();
      if Aside(p.intentId, Ledger) !in disk {
        Pass(PuttingBack(DropStagedEarly));
        outcome := JudgeInPlace(p);
      } else {
        Pass(PuttingBack(DropLive));
        outcome := PutBack(p);
      }
    }

    /** Rolling back goes on even where its own phase cannot be journaled. */
    method BeginBack()
      requires At(PuttingBack(Begin))
      modifies this`control, this`pc, this`history, this`taken
      ensures At(PuttingBack(FindAside))
      ensures control == old(control) || control == BeginRollBack(old(control)).control
      ensures control.active.value.prepared == old(control).active.value.prepared
    {
      var _ := Update(BeginRollBack(control).control, PuttingBack(FindAside), PuttingBack(FindAside));
    }

    // ---- Recording the outcome ----

    method ClearWorkArea(ghost next: Pc)
      requires Valid() && pc == ClearWork(next)
      modifies this`preimage, this`pc, this`history, this`taken
      ensures Valid() && pc == next
    {
      ghost var before := World();
      var cleared := Try();
      pc := next;
      if cleared {
        preimage := None;
      }
      Log(before, if cleared then Done else Fault);
    }

    /** The files are what an outcome says they are, given the live files when it was claimed. */
    ghost predicate Truly(p: PreparedRestore, files: Files, outcome: Outcome)
      reads this
    {
      && (outcome == FailedBeforeReplacement ==> Look(disk, Live(Ledger)) == Look(files, Ledger))
      && (outcome == RecoveryPutBack ==>
            && StillBound(env, LiveFiles(disk), p.current)
            && forall m :: m in BoundMembers(p) ==> Look(disk, Live(m)) == Look(files, m))
    }

    lemma RunsAreTruthful(outcome: Outcome)
      requires At(PuttingBack(Finishing(outcome))) && Initial(start) && Claimed(control)
      ensures Truly(control.active.value.prepared, orig, outcome)
    {
      var p := control.active.value.prepared;
      if outcome == FailedBeforeReplacement {
        NothingReplacedIsTrue(env, start, history);
      } else if outcome == RecoveryPutBack {
        PutBackIsTrue(env, start, history, Ledger);
        forall m | m in BoundMembers(p)
          ensures Look(disk, Live(m)) == Look(orig, m)
        {
          PutBackIsTrue(env, start, history, m);
        }
      }
    }

    /** The operation is over: its terminal, and no other, was appended with this outcome. */
    ghost predicate Recorded(before: Control, outcome: Outcome)
      reads this
    {
      && IsExecuting(before)
      && |control.finished| == |before.finished| + 1
      && var t, op := control.finished[|before.finished|], before.active.value;
         && t.idempotencyId == op.idempotencyId && t.intentId == op.prepared.intentId && t.outcome == outcome
         && t.recovery == op.prepared.recovery && t.completedAt == clock
         && (outcome != Restored ==> t.projectionsPendingFor.None?)
         && t.resolvedRecoveryFailure == Resolved(before, outcome)
         && control == Control(None, before.finished + [t])
    }

    /** The failed recovery that a restore prepared for it resolves by succeeding. */
    ghost function Resolved(before: Control, outcome: Outcome): Option<string>
      requires IsExecuting(before)
    {
      var failure := UnresolvedFailure(before.finished);
      if outcome == Restored && before.active.value.prepared.unopenedReason == Some(RestoreRecoveryRequired)
         && failure.Some?
      then Some(failure.value.idempotencyId) else None
    }

    method FinishBack(outcome: Outcome) returns (r: Result<Outcome, Refusal>)
      requires At(PuttingBack(Finishing(outcome))) && outcome != Restored
      modifies this`control, this`preimage, this`pc, this`history, this`taken
      ensures Valid() && pc == Idle
      ensures r.Ok? ==> r.value == outcome && Recorded(old(control), outcome)
      ensures r.Err? ==> control == old(control) && preimage == old(preimage)
    {
      var ok := Update(Finish(control, outcome, None, clock).control,
                       if outcome == RecoveryFailed then Idle else ClearWork(Idle), Idle);
      if !ok { return Err(NotPrepared); }
      if outcome != RecoveryFailed {
        ClearWorkArea(Idle);
      }
      r := Ok(outcome);
    }

    ghost predicate OnlyAsidesGo(before: Disk, after: Disk, id: string) {
      && (forall n :: n in after ==> n in before && after[n] == before[n])
      && (forall n :: n in before && n !in after ==> n.Aside? && n.id == id)
    }

    lemma LiveFilesStay(before: Disk, after: Disk, id: string)
      requires OnlyAsidesGo(before, after, id)
      ensures LiveFiles(after) == LiveFiles(before)
    {
    }

    /** Projections are out of step with an older Ledger until the upgrade has made it openable. */
    function PendingFor(p: PreparedRestore): Option<string> {
      if p.archiveSchemaVersion < env.currentSchemaVersion then Some(p.inventorySha256) else None
    }

    method RecordRestored(p: PreparedRestore, ghost seen: LedgerBinding, ghost next: Pc) returns (ok: bool)
      requires At(Replacing(Install.FinishRestored(seen))) && p == control.active.value.prepared
      requires next == DropSet(p.intentId, if p.current.Opaque? then p.current.files.Keys else {}, Ledger)
      modifies this`control, this`pc, this`history, this`taken
      ensures Valid()
      requires StillArchives(p, seen)
      ensures ok ==> pc == ClearWork(next) && Recorded(old(control), Restored)
      ensures ok ==> control.finished[|old(control).finished|].projectionsPendingFor == PendingFor(p)
      ensures !ok ==> pc == Idle && control == old(control)
    {
      var now := CurrentBinding(env, LiveFiles(disk));
      var pending :=
        if p.archiveSchemaVersion < env.currentSchemaVersion && now.Some? then Some(now.value.inventorySha256) else None;
      ok := Update(Finish(control, Restored, pending, clock).control, ClearWork(next), Idle);
    }

    method FinishTruthfully(outcome: Outcome) returns (r: Result<Outcome, Refusal>)
      requires At(PuttingBack(Finishing(outcome))) && outcome != Restored
      modifies this`control, this`preimage, this`pc, this`history, this`taken
      ensures Valid() && pc == Idle
      ensures r.Ok? ==> r.value == outcome && Recorded(old(control), outcome)
      ensures r.Err? ==> control == old(control) && preimage == old(preimage)
      ensures Initial(start) && Claimed(old(control)) ==> Truly(old(control).active.value.prepared, orig, outcome)
    {
      if Initial(start) && Claimed(control) {
        RunsAreTruthful(outcome);
      }
      r := FinishBack(outcome);
    }

    /** After `Restored` is durable, the rollback copies go; a crash leaves them to the next start. */
    method RemoveRollbackSet(id: string, moved: set<Member>)
      requires Valid() && pc == DropSet(id, moved, Ledger)
      modifies this`disk, this`pc, this`history, this`taken
      ensures Valid() && pc == Idle && old(taken) <= taken
      ensures OnlyAsidesGo(old(disk), disk, id)
      ensures NoFault(old(taken)) ==> forall m :: m == Ledger || m in moved ==> Aside(id, m) !in disk
    {
      RemoveMember(id, moved, Ledger);
      RemoveMember(id, moved, Wal);
      RemoveMember(id, moved, Shm);
    }

    method RemoveMember(id: string, moved: set<Member>, m: Member)
      requires Valid() && pc == DropSet(id, moved, m)
      modifies this`disk, this`pc, this`history, this`taken
      ensures Valid() && old(taken) <= taken
      ensures pc == if m == Ledger then DropSet(id, moved, Wal) else if m == Wal then DropSet(id, moved, Shm) else Idle
      ensures disk == old(disk) || disk == Removed(old(disk), Aside(id, m))
      ensures NoFault(old(taken)) && (m == Ledger || m in moved) ==> Aside(id, m) !in disk
    {
      ghost var next :=
        if m == Ledger then DropSet(id, moved, Wal) else if m == Wal then DropSet(id, moved, Shm) else Idle;
      if m == Ledger || m in moved {
        var _ := Remove(Aside(id, m), next, next);
      } else {
        Pass(next);
      }
    }

    method FinishRestored(p: PreparedRestore, ghost seen: LedgerBinding) returns (r: Result<Outcome, Refusal>)
      requires At(Replacing(Install.FinishRestored(seen))) && p == control.active.value.prepared
      requires StillArchives(p, seen)
      modifies this`disk, this`control, this`preimage, this`pc, this`history, this`taken
      ensures Valid() && pc == Idle
      ensures r.Ok? ==> r.value == Restored && Recorded(old(control), Restored) && LiveFiles(disk) == old(LiveFiles(disk))
      ensures r.Ok? ==>
                StillArchives(p, seen) && control.finished[|old(control).finished|].projectionsPendingFor == PendingFor(p)
      ensures r.Err? ==> control == old(control) && disk == old(disk)
    {
      var moved := if p.current.Opaque? then p.current.files.Keys else {};
      ghost var next := DropSet(p.intentId, moved, Ledger);
      ghost var before := disk;
      var ok := RecordRestored(p, seen, next);
      if !ok { return Err(NotPrepared); }
      ClearWorkArea(next);
      RemoveRollbackSet(p.intentId, moved);
      LiveFilesStay(before, disk, p.intentId);
      r := Ok(Restored);
    }

    // ---- Executing ----

    /** Exactly one executor: an approved restore can be claimed, and only once. */
    method Claim(now: int, ghost given: Given) returns (ok: bool)
      requires Valid() && pc == Idle
      modifies this`control, this`pc, this`clock, this`orig, this`history, this`taken, this`trace
      ensures ok ==>
                && At(Checking(CheckBound))
                && IsExecuting(old(control)) && old(control).active.value.phase == Approved
                && control == Advance(old(control), Approved, Staging).control
                && orig == LiveFiles(disk) && clock == now
                && trace.base == World() && trace.since >= old(taken) && trace.given == given
      ensures !ok ==> Valid() && World() == old(World()) && history == old(history) && trace == old(trace)
      ensures old(taken) <= taken
      ensures NoFault(old(taken)) ==> (ok <==> IsExecuting(old(control)) && old(control).active.value.phase == Approved)
    {
      var claimed := Advance(control, Approved, Staging);
      if claimed.reply.Err? { return false; }
      ok := Try();
      if !ok { return; }
      ghost var before := World();
      control, clock, pc, orig := claimed.control, now, Checking(CheckBound), LiveFiles(disk);
      Enter(before, Event.Claim(now), given);
    }

    method ClearStaleSidecars() returns (ok: bool)
      requires At(Checking(ClearWal))
      modifies this`disk, this`pc, this`history, this`taken
      ensures At(if ok then Checking(CheckMembers) else PuttingBack(Finishing(FailedBeforeReplacement)))
      ensures ok ==> disk == old(disk) - {Live(Wal), Live(Shm)}
      ensures WalPending(old(disk)) ==> !ok && disk == old(disk)
      ensures old(taken) <= taken && (NoFault(old(taken)) ==> (ok <==> !WalPending(old(disk))))
    {
      ok := ClearStaleWal();
      if ok {
        ok := ClearStaleShm();
      }
    }

    method ClearStaleWal() returns (ok: bool)
      requires At(Checking(ClearWal))
      modifies this`disk, this`pc, this`history, this`taken
      ensures At(if ok then Checking(ClearShm) else PuttingBack(Finishing(FailedBeforeReplacement)))
      ensures disk == if ok then old(disk) - {Live(Wal)} else old(disk)
      ensures WalPending(old(disk)) ==> !ok
      ensures old(taken) <= taken && (NoFault(old(taken)) ==> (ok <==> !WalPending(old(disk))))
    {
      ghost var failed := PuttingBack(Finishing(FailedBeforeReplacement));
      if Live(Wal) !in disk {
        Pass(Checking(ClearShm));
        ok := true;
      } else if disk[Live(Wal)] != [] {
        ok := Confirm(false, failed, failed);
      } else {
        ok := Remove(Live(Wal), Checking(ClearShm), failed);
      }
    }

    method ClearStaleShm() returns (ok: bool)
      requires At(Checking(ClearShm))
      modifies this`disk, this`pc, this`history, this`taken
      ensures At(if ok then Checking(CheckMembers) else PuttingBack(Finishing(FailedBeforeReplacement)))
      ensures disk == if ok then old(disk) - {Live(Shm)} else old(disk)
      ensures old(taken) <= taken && (NoFault(old(taken)) ==> ok)
    {
      if Live(Shm) !in disk {
        Pass(Checking(CheckMembers));
        ok := true;
      } else {
        ok := Remove(Live(Shm), Checking(CheckMembers), PuttingBack(Finishing(FailedBeforeReplacement)));
      }
    }

    /** Before anything moves: settings and files still what the preview bound, whatever kind of set it
        was. */
    method Ready(p: PreparedRestore) returns (ok: bool)
      requires At(Checking(CheckBound)) && p == control.active.value.prepared
      modifies this`disk, this`pc, this`history, this`taken
      ensures At(if ok then Checking(DropOldStaged) else PuttingBack(Finishing(FailedBeforeReplacement)))
      ensures ok ==> settings.revision == p.settingsRevision && StillBound(env, old(LiveFiles(disk)), p.current)
      ensures ok ==> disk == if p.current.Opaque? then old(disk) else old(disk) - {Live(Wal), Live(Shm)}
      ensures old(taken) <= taken
      ensures NoFault(old(taken)) ==>
                (ok <==> settings.revision == p.settingsRevision && StillBound(env, old(LiveFiles(disk)), p.current))
    {
      ok := ConfirmBound(p);
      if !ok { return; }
      if p.current.Inspectable? {
        NoPending(env, disk, p);
        ok := ClearStaleSidecars();
        if !ok { return; }
      }
      ok := ConfirmMembers();
    }

    /** The archive's members are still the files that were checked. */
    method ConfirmMembers() returns (ok: bool)
      requires At(Checking(CheckMembers))
      modifies this`pc, this`history, this`taken
      ensures At(if ok then Checking(DropOldStaged) else PuttingBack(Finishing(FailedBeforeReplacement)))
      ensures (ok <==> !fails(old(taken))) && taken == old(taken) + 1
    {
      ok := Confirm(true, Checking(DropOldStaged), PuttingBack(Finishing(FailedBeforeReplacement)));
    }

    method ConfirmBound(p: PreparedRestore) returns (ok: bool)
      requires At(Checking(CheckBound)) && p == control.active.value.prepared
      modifies this`pc, this`history, this`taken
      ensures At(if !ok then PuttingBack(Finishing(FailedBeforeReplacement))
                 else Checking(if p.current.Opaque? then CheckMembers else ClearWal))
      ensures ok <==>
                !fails(old(taken)) && settings.revision == p.settingsRevision
                && StillBound(env, LiveFiles(disk), p.current)
      ensures taken == old(taken) + 1
    {
      ok := Confirm(settings.revision == p.settingsRevision && StillBound(env, LiveFiles(disk), p.current),
                    Checking(if p.current.Opaque? then CheckMembers else ClearWal),
                    PuttingBack(Finishing(FailedBeforeReplacement)));
    }

    /** A copy that may stop half way. */
    method CopySnapshot(id: string, snapshot: Content) returns (ok: bool)
      requires At(Checking(CopyStaged)) && id == control.active.value.prepared.intentId
      requires snapshot == trace.given.snapshot
      modifies this`disk, this`pc, this`history, this`taken
      ensures At(Checking(if ok then VerifyStaged else DropBadStaged))
      ensures ok ==> disk == old(disk)[Staged(id) := snapshot]
      ensures disk - {Staged(id)} == old(disk) - {Staged(id)}
      ensures old(taken) <= taken && (NoFault(old(taken)) ==> ok)
    {
      ghost var before := World();
      ok := Try();
      if ok {
        disk := disk[Staged(id) := snapshot];
        pc := Checking(VerifyStaged);
        Log(before, Copy(snapshot, true));
      } else {
        CopyPart(id);
      }
    }

    method CopyPart(id: string)
      requires At(Checking(CopyStaged)) && id == control.active.value.prepared.intentId
      requires JustFailed() && trace.since < taken
      modifies this`disk, this`pc, this`history
      ensures At(Checking(DropBadStaged)) && disk - {Staged(id)} == old(disk) - {Staged(id)}
    {
      ghost var before := World();
      var written: Content := *;
      disk := disk[Staged(id) := written];
      Log(before, Copy(written, false));
      before := World();
      pc := Checking(DropBadStaged);
      Log(before, Fault);
    }

    method ConfirmStaged(p: PreparedRestore) returns (ok: bool)
      requires At(Checking(VerifyStaged)) && p == control.active.value.prepared
      modifies this`pc, this`history, this`taken
      ensures At(Checking(if ok then JournalMove else DropBadStaged))
      ensures ok <==>
                !fails(old(taken)) && Staged(p.intentId) in disk && SnapshotIs(env, disk[Staged(p.intentId)], p)
      ensures taken == old(taken) + 1
    {
      var staged := Staged(p.intentId);
      ok := Confirm(staged in disk && SnapshotIs(env, disk[staged], p), Checking(JournalMove), Checking(DropBadStaged));
    }

    method CopyAndConfirm(p: PreparedRestore, snapshot: Content) returns (ok: bool)
      requires At(Checking(CopyStaged)) && p == control.active.value.prepared && snapshot == trace.given.snapshot
      modifies this`disk, this`pc, this`history, this`taken
      ensures At(Checking(if ok then JournalMove else DropBadStaged))
      ensures ok ==> disk == old(disk)[Staged(p.intentId) := snapshot] && SnapshotIs(env, snapshot, p)
      ensures old(taken) <= taken && (NoFault(old(taken)) ==> (ok <==> SnapshotIs(env, snapshot, p)))
    {
      ok := CopySnapshot(p.intentId, snapshot);
      if ok {
        ok := ConfirmStaged(p);
      }
    }

    method Stage(p: PreparedRestore, snapshot: Content) returns (ok: bool)
      requires At(Checking(DropOldStaged)) && p == control.active.value.prepared && snapshot == trace.given.snapshot
      modifies this`disk, this`pc, this`history, this`taken
      ensures At(if ok then Checking(JournalMove) else PuttingBack(Finishing(FailedBeforeReplacement)))
      ensures ok ==> disk == old(disk)[Staged(p.intentId) := snapshot] && SnapshotIs(env, snapshot, p)
      ensures old(taken) <= taken && (NoFault(old(taken)) ==> (ok <==> SnapshotIs(env, snapshot, p)))
    {
      ghost var failed := PuttingBack(Finishing(FailedBeforeReplacement));
      var _ := Remove(Staged(p.intentId), Checking(CopyStaged), Checking(CopyStaged));
      ok := CopyAndConfirm(p, snapshot);
      if !ok {
        var _ := Remove(Staged(p.intentId), failed, failed);
      }
    }

    /** The live Ledger moves aside; nothing changed if that rename fails. */
    method MoveLedgerAside(p: PreparedRestore) returns (ok: bool)
      requires At(Moving(MoveLedger)) && p == control.active.value.prepared
      modifies this`disk, this`pc, this`history, this`taken
      ensures At(if !ok then PuttingBack(Finishing(FailedBeforeReplacement))
                 else if p.current.Opaque? then Moving(MoveSidecar(Wal)) else Replacing(JournalInstall))
      ensures if ok then Live(Ledger) in old(disk) && disk == Renamed(old(disk), Live(Ledger), Aside(p.intentId, Ledger))
              else disk - {Staged(p.intentId)} == old(disk) - {Staged(p.intentId)}
      ensures ok <==> !fails(old(taken)) && Live(Ledger) in old(disk)
    {
      ghost var failed := PuttingBack(Finishing(FailedBeforeReplacement));
      ok := Rename(Live(Ledger), Aside(p.intentId, Ledger),
                   if p.current.Opaque? then Moving(MoveSidecar(Wal)) else Replacing(JournalInstall),
                   Moving(DropUnmoved));
      if !ok {
        var _ := Remove(Staged(p.intentId), failed, failed);
      }
    }

    method MoveSidecarAside(p: PreparedRestore, m: Member) returns (ok: bool)
      requires At(Moving(MoveSidecar(m))) && m != Ledger && p == control.active.value.prepared && p.current.Opaque?
      modifies this`disk, this`pc, this`history, this`taken
      ensures At(if ok then AfterSidecar(m) else PuttingBack(Begin))
      ensures ok && m in p.current.files ==> Live(m) !in disk && Aside(p.intentId, m) in disk
    {
      if m !in p.current.files {
        Pass(AfterSidecar(m));
        ok := true;
      } else {
        ok := Rename(Live(m), Aside(p.intentId, m), AfterSidecar(m), PuttingBack(Begin));
      }
    }

    /** An opaque set moves whole: what now stands at the rollback names is exactly the bound set,
        and nothing is left at the live names. */
    method MoveSidecarsAside(p: PreparedRestore) returns (ok: bool)
      requires At(Moving(MoveSidecar(Wal))) && p == control.active.value.prepared && p.current.Opaque?
      modifies this`disk, this`pc, this`history, this`taken
      ensures At(if ok then Replacing(JournalInstall) else PuttingBack(Begin))
      ensures ok ==> BindFiles(env, AsideFiles(disk, p.intentId)) == Some(p.current.files) && LiveFiles(disk) == map[]
    {
      ok := MoveSidecarAside(p, Wal);
      if !ok { return; }
      ok := MoveSidecarAside(p, Shm);
      if !ok { return; }
      ok := ConfirmMoved(p);
    }

    method ConfirmMoved(p: PreparedRestore) returns (ok: bool)
      requires At(Moving(CheckMoved)) && p == control.active.value.prepared && p.current.Opaque?
      modifies this`pc, this`history, this`taken
      ensures At(if ok then Replacing(JournalInstall) else PuttingBack(Begin))
      ensures ok ==> BindFiles(env, AsideFiles(disk, p.intentId)) == Some(p.current.files) && LiveFiles(disk) == map[]
    {
      ok := Confirm(BindFiles(env, AsideFiles(disk, p.intentId)) == Some(p.current.files) && LiveFiles(disk) == map[],
                    Replacing(JournalInstall), PuttingBack(Begin));
    }

    method InstallSnapshot(p: PreparedRestore) returns (ok: bool)
      requires At(Replacing(JournalInstall)) && p == control.active.value.prepared
      requires control.active.value.phase == MovingLiveAside
      modifies this`disk, this`control, this`pc, this`history, this`taken
      ensures At(if ok then Replacing(JournalSettings) else PuttingBack(Begin))
      ensures control == old(control) || control == Advance(old(control), MovingLiveAside, Installing).control
      ensures ok ==> control.active.value.phase == Installing
      ensures ok ==> Staged(p.intentId) in old(disk) && disk == Renamed(old(disk), Staged(p.intentId), Live(Ledger))
    {
      ok := Update(Advance(control, MovingLiveAside, Installing).control, Replacing(InstallStaged), PuttingBack(Begin));
      if ok {
        ok := Rename(Staged(p.intentId), Live(Ledger), Replacing(JournalSettings), PuttingBack(Begin));
      }
    }

    /** The archive's settings are merged into those there were, and nothing else is changed. */
    ghost predicate Merged(p: PreparedRestore, before: Settings)
      reads this
    {
      settings == Settings(before.revision + 1, before.selected, env.applyExport(p, before.body))
    }

    /** A Ledger waiting for its upgrade still is the archive's. */
    ghost predicate StillArchives(p: PreparedRestore, seen: LedgerBinding)
      reads this
    {
      && IsArchives(seen, p)
      && (p.archiveSchemaVersion < env.currentSchemaVersion ==> CurrentBinding(env, LiveFiles(disk)) == Some(seen))
    }

    method InstallSettings(p: PreparedRestore) returns (ok: bool)
      requires At(Replacing(JournalSettings)) && p == control.active.value.prepared
      requires control.active.value.phase == Installing
      modifies this`control, this`settings, this`pc, this`history, this`taken
      ensures At(if ok then Replacing(JournalVerify) else PuttingBack(Begin))
      ensures control == old(control) || control == Advance(old(control), Installing, ApplyingSettings).control
      ensures ok ==> control.active.value.phase == ApplyingSettings
      ensures ok ==> Merged(p, old(settings))
    {
      ok := Update(Advance(control, Installing, ApplyingSettings).control, Replacing(ApplySettings), PuttingBack(Begin));
      if ok {
        var next := Settings(settings.revision + 1, settings.selected, env.applyExport(p, settings.body));
        ok := WriteSettings(next, Replacing(JournalVerify), PuttingBack(Begin));
      }
    }

    /** The installed file is read again in its live name: it must be the archive's Ledger. */
    method VerifyInstalled(p: PreparedRestore) returns (seen: Option<LedgerBinding>)
      requires At(Replacing(JournalVerify)) && p == control.active.value.prepared
      requires control.active.value.phase == ApplyingSettings
      modifies this`control, this`pc, this`history, this`taken
      ensures At(if seen.Some? then Replacing(Mark(seen.value)) else PuttingBack(Begin))
      ensures SameRestore(old(control))
      ensures seen.Some? ==> CurrentBinding(env, LiveFiles(disk)) == seen && IsArchives(seen.value, p)
    {
      var ok := Update(Advance(control, ApplyingSettings, Verifying).control, Replacing(Verify), PuttingBack(Begin));
      if !ok { return None; }
      seen := ReadInstalled(p);
    }

    method ReadInstalled(p: PreparedRestore) returns (seen: Option<LedgerBinding>)
      requires At(Replacing(Verify)) && p == control.active.value.prepared
      modifies this`pc, this`history, this`taken
      ensures At(if seen.Some? then Replacing(Mark(seen.value)) else PuttingBack(Begin))
      ensures seen.Some? ==> CurrentBinding(env, LiveFiles(disk)) == seen && IsArchives(seen.value, p)
    {
      var now := CurrentBinding(env, LiveFiles(disk));
      var ok := Confirm(now.Some? && IsArchives(now.value, p),
                        if now.Some? then Replacing(Mark(now.value)) else Replacing(Verify), PuttingBack(Begin));
      seen := if ok then now else None;
    }

    /** A current-version Ledger is opened and marked: what SQLite leaves at the live names is up
        to SQLite, `marked` if it succeeds. */
    method MarkProjections(p: PreparedRestore, ghost seen: LedgerBinding, marked: Files) returns (ok: bool)
      requires At(Replacing(Mark(seen))) && p == control.active.value.prepared && marked == trace.given.marked
      modifies this`disk, this`pc, this`history, this`taken
      ensures At(if ok then Replacing(Install.FinishRestored(seen)) else PuttingBack(Begin))
      ensures forall n: Name :: !n.Live? ==> (n in disk <==> n in old(disk)) && (n in disk ==> disk[n] == old(disk)[n])
      ensures p.archiveSchemaVersion < env.currentSchemaVersion ==> ok && disk == old(disk)
      ensures ok && old(StillArchives(p, seen)) ==> StillArchives(p, seen)
    {
      if p.archiveSchemaVersion < env.currentSchemaVersion {
        Pass(Replacing(Install.FinishRestored(seen)));
        return true;
      }
      ok := OpenAndMark(p, seen, marked);
    }

    method OpenAndMark(p: PreparedRestore, ghost seen: LedgerBinding, marked: Files) returns (ok: bool)
      requires At(Replacing(Mark(seen))) && p == control.active.value.prepared && marked == trace.given.marked
      requires !Upgrades(env, p)
      modifies this`disk, this`pc, this`history, this`taken
      ensures At(if ok then Replacing(Install.FinishRestored(seen)) else PuttingBack(Begin))
      ensures forall n: Name :: !n.Live? ==> (n in disk <==> n in old(disk)) && (n in disk ==> disk[n] == old(disk)[n])
    {
      ghost var before := World();
      ok := Try();
      if ok {
        disk := WithLive(disk, marked);
        pc := Replacing(Install.FinishRestored(seen));
        Log(before, Sqlite(marked, true));
      } else {
        OpenPart(p, seen);
      }
    }

    method OpenPart(p: PreparedRestore, ghost seen: LedgerBinding)
      requires At(Replacing(Mark(seen))) && p == control.active.value.prepared && !Upgrades(env, p)
      requires JustFailed() && trace.since < taken
      modifies this`disk, this`pc, this`history
      ensures At(PuttingBack(Begin))
      ensures forall n: Name :: !n.Live? ==> (n in disk <==> n in old(disk)) && (n in disk ==> disk[n] == old(disk)[n])
    {
      ghost var before := World();
      var files: Files := *;
      disk := WithLive(disk, files);
      Log(before, Sqlite(files, false));
      before := World();
      pc := PuttingBack(Begin);
      Log(before, Fault);
    }

    /** Both go in, whatever the set was. */
    method InstallBoth(p: PreparedRestore) returns (ok: bool)
      requires At(Replacing(JournalInstall)) && p == control.active.value.prepared
      requires control.active.value.phase == MovingLiveAside
      modifies this`disk, this`control, this`settings, this`pc, this`history, this`taken
      ensures At(if ok then Replacing(JournalVerify) else PuttingBack(Begin))
      ensures SameRestore(old(control))
      ensures ok ==> control.active.value.phase == ApplyingSettings && Merged(p, old(settings))
    {
      ok := InstallSnapshot(p);
      if ok {
        ok := InstallSettings(p);
      }
    }

    method CheckAndMark(p: PreparedRestore, marked: Files) returns (seen: Option<LedgerBinding>)
      requires At(Replacing(JournalVerify)) && p == control.active.value.prepared && marked == trace.given.marked
      requires control.active.value.phase == ApplyingSettings
      modifies this`disk, this`control, this`pc, this`history, this`taken
      ensures At(if seen.Some? then Replacing(Install.FinishRestored(seen.value)) else PuttingBack(Begin))
      ensures SameRestore(old(control))
      ensures seen.Some? ==> StillArchives(p, seen.value)
    {
      seen := VerifyInstalled(p);
      if seen.Some? {
        var ok := MarkProjections(p, seen.value, marked);
        if !ok {
          seen := None;
        }
      }
    }

    /** Only the phase of the executing restore has changed. */
    ghost predicate SameRestore(before: Control)
      reads this
    {
      && IsExecuting(before) && IsExecuting(control)
      && control == before.(active := Some(before.active.value.(phase := control.active.value.phase)))
      && Rank(before.active.value.phase) <= Rank(control.active.value.phase)
    }

    /** What `Restored` says besides: the settings are the archive's merged into those there were, a
        Ledger waiting for its upgrade still is the archive's, and projections wait for just that. */
    ghost predicate RestoredAs(p: PreparedRestore, before: Settings)
      reads this
    {
      && Merged(p, before)
      && (exists seen :: StillArchives(p, seen))
      && control.finished != []
      && control.finished[|control.finished| - 1].projectionsPendingFor == PendingFor(p)
    }

    /** From the Ledger moved aside to the installed copy checked and marked. */
    method Replace(p: PreparedRestore, marked: Files) returns (seen: Option<LedgerBinding>)
      requires marked == trace.given.marked
      requires At(if p.current.Opaque? then Moving(MoveSidecar(Wal)) else Replacing(JournalInstall))
      requires p == control.active.value.prepared && control.active.value.phase == MovingLiveAside
      modifies this`disk, this`control, this`settings, this`pc, this`history, this`taken
      ensures At(if seen.Some? then Replacing(Install.FinishRestored(seen.value)) else PuttingBack(Begin))
      ensures SameRestore(old(control))
      ensures seen.Some? ==> StillArchives(p, seen.value) && Merged(p, old(settings))
    {
      var ok := true;
      if p.current.Opaque? {
        ok := MoveSidecarsAside(p);
      }
      if ok {
        ok := InstallBoth(p);
      }
      if !ok { return None; }
      seen := CheckAndMark(p, marked);
    }

    /** The claimed restore, up to the journal entry before the first move. */
    method Stand(p: PreparedRestore, snapshot: Content) returns (ok: bool)
      requires At(Checking(CheckBound)) && p == control.active.value.prepared && snapshot == trace.given.snapshot
      modifies this`disk, this`pc, this`history, this`taken
      ensures At(if ok then Checking(JournalMove) else PuttingBack(Finishing(FailedBeforeReplacement)))
      ensures ok ==> settings.revision == p.settingsRevision
      ensures old(taken) <= taken
      ensures NoFault(old(taken)) ==>
                (ok <==> settings.revision == p.settingsRevision && StillBound(env, old(LiveFiles(disk)), p.current)
                         && SnapshotIs(env, snapshot, p))
    {
      ok := Ready(p);
      if ok {
        ok := Stage(p, snapshot);
      }
    }

    /** The file moves, and what went wrong is put back. */
    method Swap(p: PreparedRestore, marked: Files) returns (r: Result<Outcome, Refusal>)
      requires marked == trace.given.marked
      requires At(Moving(MoveLedger)) && p == control.active.value.prepared
      requires control.active.value.phase == MovingLiveAside
      modifies this`disk, this`control, this`settings, this`preimage, this`pc, this`history, this`taken
      ensures Valid() && pc == Idle
      ensures r.Ok? ==> Recorded(old(control), r.value)
      ensures r.Err? ==> control.finished == old(control).finished
      ensures r.Ok? && Initial(start) ==> Truly(p, orig, r.value)
      ensures r == Ok(Restored) ==> RestoredAs(p, old(settings))
    {
      var moved := MoveLedgerAside(p);
      if !moved {
        r := FinishTruthfully(FailedBeforeReplacement);
        return;
      }
      r := SwapMoved(p, marked);
    }

    method SwapMoved(p: PreparedRestore, marked: Files) returns (r: Result<Outcome, Refusal>)
      requires marked == trace.given.marked
      requires At(if p.current.Opaque? then Moving(MoveSidecar(Wal)) else Replacing(JournalInstall))
      requires p == control.active.value.prepared && control.active.value.phase == MovingLiveAside
      modifies this`disk, this`control, this`settings, this`preimage, this`pc, this`history, this`taken
      ensures Valid() && pc == Idle
      ensures r.Ok? ==> Recorded(old(control), r.value)
      ensures r.Err? ==> control.finished == old(control).finished
      ensures r.Ok? && Initial(start) ==> Truly(p, orig, r.value)
      ensures r == Ok(Restored) ==> RestoredAs(p, old(settings))
    {
      var seen := Replace(p, marked);
      if seen.Some? {
        r := FinishRestored(p, seen.value);
      } else {
        r := GiveUp(p);
      }
    }

    method GiveUp(p: PreparedRestore) returns (r: Result<Outcome, Refusal>)
      requires At(PuttingBack(Begin)) && p == control.active.value.prepared
      modifies this`disk, this`control, this`settings, this`preimage, this`pc, this`history, this`taken
      ensures Valid() && pc == Idle
      ensures r.Ok? ==> r.value != Restored && Recorded(old(control), r.value)
      ensures r.Err? ==> control.finished == old(control).finished
      ensures r.Ok? && Initial(start) && Claimed(old(control)) ==> Truly(p, orig, r.value)
    {
      var outcome := RollBack();
      r := FinishTruthfully(outcome);
    }

    /** The preimage of an approved restore is the settings as they are, if their revision is still the
        one its preview bound. */
    lemma PreimageIsCurrent()
      requires Valid() && pc == Idle && Initial(start)
      ensures (&& IsExecuting(control) && control.active.value.phase == Approved
               && settings.revision == control.active.value.prepared.settingsRevision) ==> preimage == Some(settings)
    {
      InitialInv(env, start);
      RunKeepsInv(env, start, history);
    }

    lemma ExecutionConcludes()
      requires Valid() && pc == Idle && NoFault(trace.since)
      requires Inv(env, trace.base) && trace.base.pc == Checking(CheckBound)
      ensures AsLeftAlone(env, trace.base, trace.given, World())
    {
      ExecutionEnds(env, trace.base, trace.given, |history| - trace.mark);
    }

    lemma Holds()
      requires Valid() && Initial(start)
      ensures Inv(env, World())
    {
      InitialInv(env, start);
      RunKeepsInv(env, start, history);
    }

    /** Step 4. What it answers is what it recorded, and what it recorded is true of the files as they
        were when execution was claimed; when it answers nothing, the record is left for the next
        start to settle. If no effect fails, an approved restore of what its preview bound, opaque or
        not, with a good snapshot is restored; it is refused only because something bound has changed
        or the snapshot is not what was checked, and put back only because the installed file is not
        the archive's Ledger. */
    method Execute(now: int, snapshot: Content, marked: Files) returns (r: Result<Outcome, Refusal>)
      requires Valid() && pc == Idle
      modifies this
      ensures Valid() && pc == Idle
      ensures r.Ok? ==>
                && IsExecuting(old(control)) && old(control).active.value.phase == Approved
                && Recorded(old(control), r.value)
      ensures r.Err? ==> control.finished == old(control).finished
      ensures r.Ok? && Initial(start) ==> Truly(old(control).active.value.prepared, old(LiveFiles(disk)), r.value)
      ensures r == Ok(Restored) ==> RestoredAs(old(control).active.value.prepared, old(settings))
      ensures r == Ok(Restored) && Initial(start) ==> old(preimage) == Some(old(settings))
      ensures NoFault(old(taken)) && Initial(start) && IsExecuting(old(control))
              && old(control).active.value.phase == Approved ==>
                var p := old(control).active.value.prepared;
                && r == Ok(Answer(env, p, old(settings), old(LiveFiles(disk)), snapshot))
                && (r == Ok(Restored) ==>
                      && NothingLeft(disk, p.intentId)
                      && LiveFiles(disk) == if Upgrades(env, p) then map[Ledger := snapshot] else marked)
    {
      if Initial(start) {
        PreimageIsCurrent();
      }
      var claimed := Claim(now, Given(snapshot, marked));
      if !claimed { return Err(NotPrepared); }
      r := ExecuteClaimed(snapshot, marked);
    }

    method ExecuteClaimed(snapshot: Content, marked: Files) returns (r: Result<Outcome, Refusal>)
      requires At(Checking(CheckBound)) && control.active.value.phase == Staging
      requires trace.base == World() && trace.given == Given(snapshot, marked)
      modifies this`disk, this`control, this`settings, this`preimage, this`pc, this`history, this`taken
      ensures Valid() && pc == Idle
      ensures r.Ok? ==> Recorded(old(control), r.value)
      ensures r.Err? ==> control.finished == old(control).finished
      ensures r.Ok? && Initial(start) ==> Truly(old(control).active.value.prepared, orig, r.value)
      ensures r == Ok(Restored) ==>
                && RestoredAs(old(control).active.value.prepared, old(settings))
                && old(settings).revision == old(control).active.value.prepared.settingsRevision
      ensures NoFault(trace.since) && Initial(start) ==>
                var p := old(control).active.value.prepared;
                && r == Ok(Answer(env, p, old(settings), old(LiveFiles(disk)), snapshot))
                && (r == Ok(Restored) ==>
                      && NothingLeft(disk, p.intentId)
                      && LiveFiles(disk) == if Upgrades(env, p) then map[Ledger := snapshot] else marked)
    {
      if Initial(start) {
        Holds();
      }
      ghost var o := World();
      r := Proceed(control.active.value.prepared, snapshot, marked);
      if Initial(start) && NoFault(trace.since) {
        ExecutionConcludes();
        AnswerIs(env, o, Given(snapshot, marked), World(), r);
      }
    }

    method Proceed(p: PreparedRestore, snapshot: Content, marked: Files) returns (r: Result<Outcome, Refusal>)
      requires trace.given == Given(snapshot, marked)
      requires At(Checking(CheckBound)) && p == control.active.value.prepared && control.active.value.phase == Staging
      modifies this`disk, this`control, this`settings, this`preimage, this`pc, this`history, this`taken
      ensures Valid() && pc == Idle
      ensures r.Ok? ==> Recorded(old(control), r.value)
      ensures r.Err? ==> control.finished == old(control).finished
      ensures r.Ok? && Initial(start) ==> Truly(p, orig, r.value)
      ensures r == Ok(Restored) ==> RestoredAs(p, old(settings)) && old(settings).revision == p.settingsRevision
    {
      var ready := Stand(p, snapshot);
      if !ready {
        r := FinishTruthfully(FailedBeforeReplacement);
        return;
      }
      var journaled := Update(Advance(control, Staging, MovingLiveAside).control, Moving(MoveLedger), Idle);
      if !journaled { return Err(NotPrepared); }
      r := Swap(p, marked);
    }

    // ---- What the person asks for ----

    /** Checking another archive drops a preview that was only prepared. */
    method CheckArchive() returns (r: Result<(), Refusal>)
      requires Valid() && pc == Idle
      modifies this`control, this`preimage, this`history, this`taken, this`trace
      ensures Valid()
      ensures r.Ok? ==> !IsExecuting(old(control)) && control == old(control).(active := None) && preimage == None
      ensures r.Err? ==> control == old(control) && preimage == old(preimage)
      ensures NoFault(old(taken)) ==> (r.Ok? <==> !IsExecuting(old(control)))
    {
      var next := DropForCheck(control);
      if next.reply.Err? { return Err(AnotherRestoreActive); }
      var written := Try();
      if !written { return Err(AnotherRestoreActive); }
      ghost var before := World();
      control, preimage := next.control, None;
      Enter(before, Call(Request.CheckArchive), trace.given);
      r := next.reply;
    }

    /** The settings given are kept before the intent that binds them exists. They may be behind the
        store: then `Ready` refuses. */
    method FinishPrepare(p: PreparedRestore, document: Settings) returns (r: Result<(), Refusal>)
      requires Valid() && pc == Idle && p.intentId !in issued && Held(settings, document, p.settingsRevision)
      modifies this`control, this`preimage, this`issued, this`history, this`taken, this`trace
      ensures Valid()
      ensures r.Ok? ==>
                !IsExecuting(old(control)) && control.finished == old(control).finished
                && control.active == Some(Operation.Prepared(p)) && preimage == Some(document)
      ensures r.Err? ==> control == old(control)
      ensures NoFault(old(taken)) ==> (r.Ok? <==> !IsExecuting(old(control)))
    {
      var next := CommitPrepared(control, p);
      if next.reply.Err? { return Err(AnotherRestoreActive); }
      var written := Try();
      if !written { return Err(AnotherRestoreActive); }
      ghost var before := World();
      control, preimage, issued := next.control, Some(document), issued + {p.intentId};
      Enter(before, PrepareWith(p, document), trace.given);
      r := next.reply;
    }

    method RejectIntent(intentId: string) returns (r: Result<(), Refusal>)
      requires Valid() && pc == Idle
      modifies this`control, this`preimage, this`history, this`taken, this`trace
      ensures Valid()
      ensures r.Ok? ==>
                IsPrepared(old(control)) && old(control).active.value.prepared.intentId == intentId
                && control == old(control).(active := None)
      ensures r.Err? ==> control == old(control) && preimage == old(preimage)
      ensures NoFault(old(taken)) ==>
                (r.Ok? <==> IsPrepared(old(control)) && old(control).active.value.prepared.intentId == intentId)
    {
      var next := Reject(control, intentId);
      if next.reply.Err? { return Err(NotPrepared); }
      var written := Try();
      if !written { return Err(NotPrepared); }
      ghost var before := World();
      control, preimage := next.control, None;
      Enter(before, Call(Request.RejectIntent(intentId)), trace.given);
      r := next.reply;
    }

    /** Checked and consumed under the record's lock; a repeated id gets the outcome it already had. */
    method ApproveIntent(a: Approval) returns (r: Result<Option<Outcome>, Refusal>)
      requires Valid() && pc == Idle
      modifies this`control, this`history, this`taken, this`trace
      ensures Valid()
      ensures r.Ok? && r.value.Some? ==>
                control == old(control)
                && exists t :: t in control.finished && t.idempotencyId == a.idempotencyId && t.outcome == r.value.value
      ensures r.Ok? && r.value.None? ==>
                && IsPrepared(old(control)) && IsExecuting(control) && control.finished == old(control).finished
                && (forall t :: t in control.finished ==> t.idempotencyId != a.idempotencyId)
                && control.active.value.phase == Phase.Approved
                && var p := old(control).active.value.prepared;
                   control.active.value.prepared == p && p.intentId == a.intentId && a.now <= p.expiresAt
                   && p.payloadSha256 == a.acknowledged == env.digest(p) && a.typedDate == p.confirmationDate
      ensures r.Err? ==> control == old(control)
      ensures NoFault(old(taken)) ==> r == Approve(old(control), env.digest, a).reply
    {
      var next := Approve(control, env.digest, a);
      var written := Try();
      if !written { return Err(NotPrepared); }
      ghost var before := World();
      if FindFinished(control.finished, a.idempotencyId).None? {
        FindFinishedNone(control.finished, a.idempotencyId);
      } else {
        FindFinishedSome(control.finished, a.idempotencyId);
      }
      control := next.control;
      Enter(before, Call(Request.ApproveIntent(a)), trace.given);
      r := next.reply;
    }

    // ---- At startup ----

    /** Power lost, or the process killed: only what is durable stays. */
    method PowerLoss()
      requires Valid()
      modifies this`pc, this`history, this`trace
      ensures Valid() && pc == Down
    {
      ghost var before := World();
      pc := Down;
      Enter(before, Crash, trace.given);
    }

    /** Rollback copies a finished restore left behind, and nothing else, may be removed; each that can
        be is. */
    method SweepRollbackSets()
      requires Valid() && pc == Sweeping
      modifies this`disk, this`pc, this`history, this`taken, this`trace
      ensures Valid() && pc == Idle && old(taken) <= taken
      ensures OnlySwept(old(disk), disk, control)
      ensures NoFault(old(taken)) ==> forall t :: t in control.finished ==> SweptOf(disk, t)
    {
      for i := 0 to |control.finished|
        invariant Valid() && pc == Sweeping && old(taken) <= taken
        invariant OnlySwept(old(disk), disk, control)
        invariant NoFault(old(taken)) ==> forall j :: 0 <= j < i ==> SweptOf(disk, control.finished[j])
      {
        ghost var before := disk;
        SweepTerminal(control.finished[i], old(disk));
        forall j | 0 <= j < i && SweptOf(before, control.finished[j])
          ensures SweptOf(disk, control.finished[j])
        {
          SweptStays(before, disk, control.finished[j]);
        }
      }
      Leave();
    }

    lemma SweptStays(before: Disk, after: Disk, t: Terminal)
      requires after.Keys <= before.Keys && SweptOf(before, t)
      ensures SweptOf(after, t)
    {
    }

    method Leave()
      requires Valid() && pc == Sweeping
      modifies this`pc, this`history, this`trace
      ensures Valid() && pc == Idle
    {
      ghost var before := World();
      pc := Idle;
      Enter(before, Done, trace.given);
    }

    /** Only rollback copies that may be swept are gone, and nothing else has changed. */
    ghost predicate OnlySwept(before: Disk, after: Disk, c: Control) {
      && (forall n :: n in after ==> n in before && after[n] == before[n])
      && (forall n :: n in before && n !in after ==> n.Aside? && Sweepable(c, n.id, n.member))
    }

    predicate Kept(t: Terminal, m: Member) { t.recovery.PreservationCopy? && m in t.recovery.files }

    /** A restore recorded as `Restored` has left no rollback copy of a member it moved. */
    predicate SweptOf(d: Disk, t: Terminal) {
      t.outcome == Restored ==>
        && Aside(t.intentId, Ledger) !in d
        && (Kept(t, Wal) ==> Aside(t.intentId, Wal) !in d) && (Kept(t, Shm) ==> Aside(t.intentId, Shm) !in d)
    }

    method SweepTerminal(t: Terminal, ghost before: Disk)
      requires Valid() && pc == Sweeping && t in control.finished && OnlySwept(before, disk, control)
      modifies this`disk, this`history, this`taken, this`trace
      ensures Valid() && OnlySwept(before, disk, control) && old(taken) <= taken && disk.Keys <= old(disk).Keys
      ensures NoFault(old(taken)) ==> SweptOf(disk, t)
    {
      if t.outcome == Restored {
        SweepMember(t, Ledger, before);
        if Kept(t, Wal) {
          SweepMember(t, Wal, before);
        }
        if Kept(t, Shm) {
          SweepMember(t, Shm, before);
        }
      }
    }

    method SweepMember(t: Terminal, m: Member, ghost before: Disk)
      requires Valid() && pc == Sweeping && OnlySwept(before, disk, control)
      requires t in control.finished && t.outcome == Restored && (m == Ledger || Kept(t, m))
      modifies this`disk, this`history, this`taken, this`trace
      ensures Valid() && OnlySwept(before, disk, control) && taken == old(taken) + 1
      ensures disk == if fails(old(taken)) then old(disk) else Removed(old(disk), Aside(t.intentId, m))
    {
      assert Sweepable(control, t.intentId, m);
      var removed := Try();
      if removed {
        ghost var now := World();
        disk := Removed(disk, Aside(t.intentId, m));
        Enter(now, Sweep(t.intentId, m), trace.given);
      }
    }

    method StartUp(now: int)
      requires Valid() && pc == Down
      modifies this`control, this`pc, this`clock, this`history, this`trace
      ensures Valid() && clock == now
      ensures trace.base == World() == Next(env, old(World()), Start(now)) && trace.since == taken
      ensures control == if IsPrepared(old(control)) then DropPrepared(old(control)).control else old(control)
      ensures pc == if old(control).active.None? then Sweeping
                    else if IsPrepared(old(control)) then ClearWork(Idle)
                    else if Rank(control.active.value.phase) <= Rank(Staging) then PuttingBack(DropInterrupted)
                    else PuttingBack(Begin)
    {
      ghost var before := World();
      clock := now;
      if control.active.None? {
        pc := Sweeping;
      } else if IsPrepared(control) {
        control, pc := DropPrepared(control).control, ClearWork(Idle);
      } else {
        pc := PuttingBack(if Rank(control.active.value.phase) <= Rank(Staging) then DropInterrupted else Begin);
      }
      Enter(before, Start(now), trace.given);
    }

    lemma ReconcileConcludes(s: State, now: int)
      requires Valid() && pc == Idle && NoFault(trace.since)
      requires Inv(env, s) && s.pc == Down && IsExecuting(s.control) && trace.base == Next(env, s, Start(now))
      ensures PassedAlone(env, s, World())
    {
      PassConcludes(env, s, now, trace.given, |history| - trace.mark);
    }

    /** Step 5, before the Ledger is opened: a prepared intent is dropped, an interrupted execution is
        put back and never finished. If no effect fails, it ends the operation, with the outcome the
        files decide, or sweeps every rollback copy it may. */
    method Reconcile(now: int) returns (r: Result<Option<Outcome>, Refusal>)
      requires Valid() && pc == Down
      modifies this
      ensures Valid() && pc == Idle
      ensures r.Ok? && r.value.Some? ==>
                && IsExecuting(old(control)) && r.value.value != Restored
                && Recorded(old(control), r.value.value)
                && (old(control).active.value.phase == Staging ==> r.value == Some(FailedBeforeReplacement))
      ensures r.Ok? && r.value.None? ==>
                control == old(control).(active := None) && !IsExecuting(old(control)) && settings == old(settings)
      ensures r.Err? ==> control.finished == old(control).finished
      ensures r.Ok? && r.value.Some? && Initial(start) && Claimed(old(control)) ==>
                Truly(old(control).active.value.prepared, old(orig), r.value.value)
      ensures NoFault(old(taken)) && !IsExecuting(old(control)) ==>
                r == Ok(None) && (old(control).active.None? ==> forall t :: t in control.finished ==> SweptOf(disk, t))
      ensures NoFault(old(taken)) && IsExecuting(old(control)) && Initial(start) ==>
                PassedAlone(env, old(World()), World()) && r == Ok(Some(PassAnswer(old(World()))))
    {
      var read := Try();
      if !read {
        ghost var before := World();
        pc := Idle;
        Enter(before, Fault, trace.given);
        return Err(NotPrepared);
      }
      if IsExecuting(control) {
        r := ReconcileInterrupted(now);
      } else {
        ReconcileResting(now);
        r := Ok(None);
      }
    }

    method ReconcileResting(now: int)
      requires Valid() && pc == Down && !IsExecuting(control)
      modifies this`disk, this`control, this`preimage, this`pc, this`clock, this`history, this`taken, this`trace
      ensures Valid() && pc == Idle && old(taken) <= taken && control == old(control).(active := None)
      ensures NoFault(old(taken)) && old(control).active.None? ==>
                forall t :: t in control.finished ==> SweptOf(disk, t)
    {
      var dropped := IsPrepared(control);
      StartUp(now);
      if dropped {
        ClearWorkArea(Idle);
      } else {
        SweepRollbackSets();
      }
    }

    method ReconcileInterrupted(now: int) returns (r: Result<Option<Outcome>, Refusal>)
      requires Valid() && pc == Down && IsExecuting(control)
      modifies this`disk, this`control, this`settings, this`preimage, this`pc, this`clock, this`history, this`taken,
               this`trace
      ensures Valid() && pc == Idle
      ensures r.Ok? ==>
                && r.value.Some? && r.value.value != Restored && Recorded(old(control), r.value.value)
                && (old(control).active.value.phase == Staging ==> r.value == Some(FailedBeforeReplacement))
                && (Initial(start) && Claimed(old(control)) ==>
                      Truly(old(control).active.value.prepared, orig, r.value.value))
      ensures r.Err? ==> control.finished == old(control).finished
      ensures trace.since == old(taken)
      ensures NoFault(old(taken)) && Initial(start) ==>
                PassedAlone(env, old(World()), World()) && r == Ok(Some(PassAnswer(old(World()))))
    {
      if Initial(start) {
        Holds();
      }
      ghost var s := World();
      StartUp(now);
      r := ReconcileExecuting();
      if Initial(start) && NoFault(trace.since) {
        ReconcileConcludes(s, now);
        PassAnswerIs(env, s, World(), r);
      }
    }

    method ReconcileExecuting() returns (r: Result<Option<Outcome>, Refusal>)
      requires IsExecuting(control)
      requires At(PuttingBack(if Rank(control.active.value.phase) <= Rank(Staging) then DropInterrupted else Begin))
      modifies this`disk, this`control, this`settings, this`preimage, this`pc, this`history, this`taken
      ensures Valid() && pc == Idle
      ensures r.Ok? ==>
                && r.value.Some? && r.value.value != Restored && Recorded(old(control), r.value.value)
                && (old(control).active.value.phase == Staging ==> r.value == Some(FailedBeforeReplacement))
                && (Initial(start) && Claimed(old(control)) ==>
                      Truly(old(control).active.value.prepared, orig, r.value.value))
      ensures r.Err? ==> control.finished == old(control).finished
    {
      var p := control.active.value.prepared;
      var outcome := FailedBeforeReplacement;
      if Rank(control.active.value.phase) <= Rank(Staging) {
        ghost var failed := PuttingBack(Finishing(FailedBeforeReplacement));
        var _ := Remove(Staged(p.intentId), failed, failed);
      } else {
        outcome := RollBack();
      }
      var finished := FinishTruthfully(outcome);
      r := if finished.Ok? then Ok(Some(outcome)) else Err(NotPrepared);
    }
  }
}
