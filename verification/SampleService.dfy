// The sample service itself: building, swapping and reconciling in a fixed
// order. Every effect appends one event, so `Valid` says that each state the
// service passes through is a state of a run of `SampleSwap`. Which effects
// fail is given: what the service answers can blame nothing else.

module SampleService {
  import opened Prelude
  import opened SampleSwap

  datatype Aside = Moved | Refused | Unknown

  datatype Reply = Ended(outcome: Outcome) | Repeated | InvalidIdentifier | OperationInProgress | Interrupted

  class Service {
    const env: Env
    const fails: nat -> bool
    var taken: nat
    var canonical: Option<Folder>
    var staging: Option<Folder>
    var retired: Option<Folder>
    var phase: Option<Phase>
    var built: Option<string>
    var outcome: Option<Outcome>
    var pending: set<Sibling>
    ghost var pc: Pc
    ghost var orig: Option<Folder>
    ghost var made: Option<Folder>
    ghost var trapped: bool
    ghost const start: State
    ghost var history: seq<Event>

    ghost function World(): State
      reads this
    {
      State(canonical, staging, retired, phase, built, outcome, pending, pc, orig, made, trapped)
    }

    /** What a start can see. */
    function Durable(pc: Pc): State
      reads this
    {
      State(canonical, staging, retired, phase, built, outcome, pending, pc, None, None, false)
    }

    ghost predicate Valid()
      reads this
    {
      World() == Run(env, start, history) && Initial(start)
    }

    ghost predicate At(at: Pc)
      reads this
    {
      Valid() && pc == at
    }

    /** No effect since the first `since` has failed. */
    ghost predicate NoFault(since: nat)
      reads this
    {
      forall k :: since <= k < taken ==> !fails(k)
    }

    predicate IsForeign(folder: Option<Folder>) { folder.Some? && env.inspect(folder.value) == Foreign }

    constructor (env: Env, fails: nat -> bool, sample: Option<Folder>)
      ensures At(Ready) && !trapped && this.env == env && this.fails == fails && canonical == sample == orig
    {
      this.env, this.fails, taken := env, fails, 0;
      canonical, staging, retired := sample, None, None;
      phase, built, outcome, pending := None, None, None, {};
      pc, orig, made, trapped, history := Ready, sample, None, false, [];
      start := State(sample, None, None, None, None, None, {}, Ready, sample, None, false);
    }

    /** An effect fails exactly when it is to; where there is none, nothing can fail. */
    ghost method Log(before: State, e: Event)
      requires before == Run(env, start, history) && World() == Next(env, before, e) && Initial(start)
      requires e.Fault? ==> fails(taken)
      requires e.Done? ==> !fails(taken) || Next(env, before, Done) == Next(env, before, Fault)
      modifies this`history
      ensures Valid()
    {
      RunSplits(env, start, history, [e]);
      assert Run(env, before, [e]) == Next(env, before, e);
      history := history + [e];
    }

    /** What holds of every run holds here. */
    lemma Holds()
      requires Valid()
      ensures Inv(env, World())
    {
      RunKeepsInv(env, start, history);
    }

    // ---- Building beside ----

    method BeginReset() returns (ok: bool)
      requires At(Ready)
      modifies this`phase, this`pc, this`history, this`taken
      ensures if ok then At(Creating) && phase == Some(Building) else At(Ready) && phase == old(phase)
      ensures ok == !fails(old(taken)) && taken == old(taken) + 1
    {
      ghost var before := World();
      ok := !fails(taken);
      if ok {
        phase, pc := Some(Building), Creating;
      }
      Log(before, if ok then Done else Fault);
      taken := taken + 1;
    }

    method CreateStaging() returns (ok: bool)
      requires At(Creating)
      modifies this`staging, this`pc, this`history, this`taken
      ensures At(if ok then Filling else Record(ResetRolledBack))
      ensures staging == if ok then Some([]) else old(staging)
      ensures ok == !fails(old(taken)) && taken == old(taken) + 1
    {
      ghost var before := World();
      ok := !fails(taken);
      if ok {
        staging, pc := Some([]), Filling;
      } else {
        pc := Record(ResetRolledBack);
      }
      Log(before, if ok then Done else Fault);
      taken := taken + 1;
    }

    /** What is written may be anything if it fails; what counts is what the folder then verifies as. */
    method BuildStaging(seed: Folder) returns (manifest: Option<string>)
      requires At(Filling)
      modifies this`staging, this`pc, this`history, this`taken
      ensures At(if manifest.Some? then RecordBuilt(manifest.value) else Clean)
      ensures manifest.Some? ==> staging.Some? && env.inspect(staging.value) == Current(manifest.value)
      ensures old(taken) <= taken
      ensures NoFault(old(taken)) ==> staging == Some(seed) && (manifest.Some? <==> env.inspect(seed).Current?)
    {
      ghost var before := World();
      var written := !fails(taken);
      var left: Folder := *;
      staging := Some(if written then seed else left);
      Log(before, Write(staging.value));
      before := World();
      if written && env.inspect(staging.value).Current? {
        manifest := Some(env.inspect(staging.value).manifest);
        pc := RecordBuilt(manifest.value);
      } else {
        manifest := None;
        pc := Clean;
      }
      Log(before, if written then Done else Fault);
      taken := taken + 1;
    }

    /** The recorded operation, or its phase, replaced by one durable write. */
    method RecordManifest(manifest: string) returns (ok: bool)
      requires At(RecordBuilt(manifest))
      modifies this`phase, this`built, this`made, this`pc, this`history, this`taken
      ensures At(if ok then Looking else Down)
      ensures ok ==> phase == Some(Built) && built == Some(manifest) && made == staging
      ensures ok == !fails(old(taken)) && taken == old(taken) + 1
    {
      ghost var before := World();
      ok := !fails(taken);
      if ok {
        phase, built, made, pc := Some(Built), Some(manifest), staging, Looking;
      } else {
        pc := Down;
      }
      Log(before, if ok then Done else Fault);
      taken := taken + 1;
    }

    // ---- Swapping ----

    /** Looked at again right before it moves: what PMC did not write is never renamed away, and
        anything else is refused only if it cannot be moved. */
    method MoveAside() returns (r: Aside)
      requires At(Looking)
      modifies this`canonical, this`retired, this`pc, this`history, this`taken
      ensures At(if r == Moved then RecordSwap else if r == Refused then Clean else Down)
      ensures r == Moved ==> canonical.None? && retired == if old(canonical).Some? then old(canonical) else old(retired)
      ensures r != Moved ==> canonical == old(canonical) && retired == old(retired)
      ensures IsForeign(old(canonical)) ==> r != Moved
      ensures old(taken) <= taken && (NoFault(old(taken)) ==> r == if IsForeign(old(canonical)) then Refused else Moved)
    {
      ghost var before := World();
      if canonical.None? {
        pc := RecordSwap;
        Log(before, Done);
        return Moved;
      }
      if fails(taken) {
        pc := Down;
        Log(before, Fault);
        taken := taken + 1;
        return Unknown;
      }
      pc := if env.inspect(canonical.value) == Foreign then Clean else Retire;
      Log(before, Done);
      taken := taken + 1;
      if env.inspect(canonical.value) == Foreign {
        return Refused;
      }
      var renamed := RetireSample();
      r := if renamed then Moved else Refused;
    }

    method RetireSample() returns (ok: bool)
      requires At(Retire)
      modifies this`canonical, this`retired, this`pc, this`history, this`taken
      ensures At(if ok then RecordSwap else Clean)
      ensures if ok then canonical.None? && retired == old(canonical)
              else canonical == old(canonical) && retired == old(retired)
      ensures ok == !fails(old(taken)) && taken == old(taken) + 1
    {
      ghost var before := World();
      ok := !fails(taken);
      if ok {
        canonical, retired, pc := None, canonical, RecordSwap;
      } else {
        pc := Clean;
      }
      Log(before, if ok then Done else Fault);
      taken := taken + 1;
    }

    method RecordSwapped() returns (ok: bool)
      requires At(RecordSwap)
      modifies this`phase, this`pc, this`history, this`taken
      ensures At(if ok then Install else Down) && (ok ==> phase == Some(SwappedAside))
      ensures ok == !fails(old(taken)) && taken == old(taken) + 1
    {
      ghost var before := World();
      ok := !fails(taken);
      if ok {
        phase, pc := Some(SwappedAside), Install;
      } else {
        pc := Down;
      }
      Log(before, if ok then Done else Fault);
      taken := taken + 1;
    }

    /** Renamed into place and verified there. */
    method InstallAndVerify() returns (ok: bool)
      requires At(Install)
      modifies this`canonical, this`staging, this`pc, this`history, this`taken
      ensures At(if ok then Record(Reset) else Undo(retired.Some?))
      ensures ok ==> Installed(env, World()) && canonical == old(staging)
      ensures old(taken) <= taken
      ensures NoFault(old(taken)) ==> canonical == old(staging) && staging.None? && (ok <==> Installed(env, World()))
    {
      ok := RenameIn();
      if ok {
        ok := VerifyInPlace();
      }
    }

    method RenameIn() returns (ok: bool)
      requires At(Install)
      modifies this`canonical, this`staging, this`pc, this`history, this`taken
      ensures At(if ok then Verify else Undo(retired.Some?))
      ensures ok ==> canonical == old(staging) && staging.None?
      ensures ok == !fails(old(taken)) && taken == old(taken) + 1
    {
      ghost var before := World();
      ok := !fails(taken);
      if ok {
        canonical, staging, pc := staging, None, Verify;
      } else {
        pc := Undo(retired.Some?);
      }
      Log(before, if ok then Done else Fault);
      taken := taken + 1;
    }

    method VerifyInPlace() returns (ok: bool)
      requires At(Verify)
      modifies this`pc, this`history, this`taken
      ensures At(if ok then Record(Reset) else Undo(retired.Some?))
      ensures ok <==> !fails(old(taken)) && Installed(env, World())
      ensures taken == old(taken) + 1
    {
      ghost var before := World();
      var read := !fails(taken);
      ok := read && Installed(env, Durable(Verify));
      pc := if ok then Record(Reset) else Undo(retired.Some?);
      Log(before, if read then Done else Fault);
      taken := taken + 1;
    }

    // ---- Rolling back ----

    /** Fails only if a rename does. */
    method RollBackInstall() returns (ok: bool)
      requires At(Undo(retired.Some?)) && phase.Some?
      modifies this`canonical, this`staging, this`retired, this`pending, this`pc, this`history, this`taken
      ensures At(if ok then Record(ResetRolledBack) else Down)
      ensures ok && !trapped ==> canonical == orig && retired.None? && (staging.None? || Staging in pending)
      ensures old(taken) <= taken && (NoFault(old(taken)) ==> ok && staging.None? && pending == old(pending))
    {
      ok := TakeBack();
      if ok {
        ok := PutOriginalBack();
      }
      if ok {
        Cleanup();
        Holds();
      }
    }

    /** The fresh copy goes back to staging, if it is what is in place. */
    method TakeBack() returns (ok: bool)
      requires At(Undo(retired.Some?))
      modifies this`canonical, this`staging, this`pc, this`history, this`taken
      ensures At(if ok then PutBack else Down)
      ensures !ok ==> canonical == old(canonical) && staging == old(staging)
      ensures old(taken) <= taken && (NoFault(old(taken)) ==> ok)
    {
      ghost var before := World();
      if phase == Some(SwappedAside) && canonical.Some? && staging.None? {
        ok := !fails(taken);
        if ok {
          staging, canonical, pc := canonical, None, PutBack;
        } else {
          pc := Down;
        }
        Log(before, if ok then Done else Fault);
        taken := taken + 1;
      } else {
        ok := true;
        pc := PutBack;
        Log(before, Done);
      }
    }

    method PutOriginalBack() returns (ok: bool)
      requires At(PutBack)
      modifies this`canonical, this`retired, this`pc, this`history, this`taken
      ensures At(if ok then Clean else Down)
      ensures ok && old(canonical).None? && old(retired).Some? ==> canonical == old(retired) && retired.None?
      ensures old(taken) <= taken && (NoFault(old(taken)) ==> ok)
    {
      ghost var before := World();
      if canonical.None? && retired.Some? {
        ok := !fails(taken);
        if ok {
          canonical, retired, pc := retired, None, Clean;
        } else {
          pc := Down;
        }
        Log(before, if ok then Done else Fault);
        taken := taken + 1;
      } else {
        ok := true;
        pc := Clean;
        Log(before, Done);
      }
    }

    /** Removed, or recorded for the next start. */
    method Cleanup()
      requires At(Clean)
      modifies this`staging, this`pending, this`pc, this`history, this`taken
      ensures At(Record(ResetRolledBack))
      ensures staging.None? || Staging in pending
      ensures old(taken) <= taken && (NoFault(old(taken)) ==> staging.None? && pending == old(pending))
    {
      var removed := !fails(taken);
      if !removed && staging.Some? {
        LeavePart();
      }
      ghost var before := World();
      pc := Record(ResetRolledBack);
      if removed {
        staging := None;
        Log(before, Done);
      } else {
        if staging.Some? {
          pending := pending + {Staging};
        }
        Log(before, Fault);
      }
      taken := taken + 1;
    }

    /** A removal that fails may have removed any part. */
    method LeavePart()
      requires At(Clean) && staging.Some?
      modifies this`staging, this`history
      ensures At(Clean) && staging.Some?
    {
      ghost var before := World();
      var left: Folder := *;
      staging := Some(left);
      Log(before, Write(left));
    }

    // ---- Recording ----

    lemma Recordable(o: Outcome)
      requires At(Record(o)) && phase.Some? && !trapped
      ensures Truth(env, World(), o) && Tidy(World())
    {
      Holds();
    }

    method Finish(o: Outcome) returns (ok: bool)
      requires At(Record(o)) && phase.Some?
      modifies this`phase, this`outcome, this`pc, this`history, this`taken
      ensures if ok then At(if o == Reset then CleanRetired else Over) && phase.None? && outcome == Some(o)
              else At(Down) && phase == old(phase) && outcome == old(outcome)
      ensures !trapped ==> Truth(env, World(), o) && Tidy(World())
      ensures ok == !fails(old(taken)) && taken == old(taken) + 1
    {
      if !trapped {
        Recordable(o);
      }
      ghost var before := World();
      ok := !fails(taken);
      if ok {
        phase, outcome := None, Some(o);
        pc := if o == Reset then CleanRetired else Over;
      } else {
        pc := Down;
      }
      Log(before, if ok then Done else Fault);
      taken := taken + 1;
    }

    /** Something PMC did not write that got into the previous sample is kept where it is. */
    method CleanupRetired()
      requires At(CleanRetired)
      modifies this`retired, this`pending, this`pc, this`history, this`taken
      ensures At(Over)
      ensures retired == old(retired) || retired.None?
      ensures IsForeign(old(retired)) ==> retired == old(retired)
      ensures old(pending) <= pending <= old(pending) + {Retired}
      ensures old(taken) <= taken
      ensures NoFault(old(taken)) ==> pending == old(pending) && (retired.None? <==> !IsForeign(old(retired)))
    {
      ghost var before := World();
      pc := Over;
      if retired.None? {
        Log(before, Done);
        return;
      }
      if fails(taken) {
        pending := pending + {Retired};
        Log(before, Fault);
      } else {
        if env.inspect(retired.value) != Foreign {
          retired := None;
        }
        Log(before, Done);
      }
      taken := taken + 1;
    }

    /** Record and tidy up: what is recorded is true, unless an earlier reconciliation was caught. */
    method End(o: Outcome) returns (ok: bool)
      requires At(Record(o)) && phase.Some?
      modifies this`phase, this`outcome, this`retired, this`pending, this`pc, this`history, this`taken
      ensures At(if ok then Over else Down)
      ensures ok ==> outcome == Some(o) && (!trapped ==> Truth(env, World(), o) && Tidy(World()))
      ensures !ok ==> outcome == old(outcome)
      ensures old(taken) <= taken
      ensures NoFault(old(taken)) ==>
                && ok && pending == old(pending)
                && (o == Reset ==> (retired.None? <==> !IsForeign(old(retired))))
                && (o == ResetRolledBack ==> retired == old(retired))
    {
      ok := Finish(o);
      if ok && o == Reset {
        CleanupRetired();
      }
    }

    // ---- Resetting ----

    /** Build a fresh sample beside the current one and swap it in. A repeated request is answered from
        its terminal, never with a second reset. With no effect failing, a seed that verifies replaces
        whatever PMC wrote, outdated or not, and leaves nothing beside it; otherwise nothing is
        replaced. */
    method Replace(seed: Folder) returns (r: Reply)
      requires Valid() && (pc == Ready || pc == Over || pc == Down)
      modifies this
      ensures Valid()
      ensures r == Repeated <==> old(outcome) == Some(Reset)
      ensures r == InvalidIdentifier <==> old(outcome) == Some(ResetRolledBack)
      ensures r == OperationInProgress <==> old(outcome).None? && old(phase).Some?
      ensures r == Repeated || r == InvalidIdentifier || r == OperationInProgress ==> World() == old(World())
      ensures r.Ended? ==> At(Over) && outcome == Some(r.outcome) && Truth(env, World(), r.outcome) && Tidy(World())
      ensures r == Interrupted ==> outcome.None? && (pc == Ready || pc == Down)
      ensures old(taken) <= taken
      ensures NoFault(old(taken)) && old(outcome).None? && old(phase).None? ==>
                && staging.None? && retired.None? && pending == old(pending)
                && if env.inspect(seed).Current? && !IsForeign(old(canonical))
                   then r == Ended(Reset) && canonical == Some(seed)
                   else r == Ended(ResetRolledBack) && canonical == old(canonical)
    {
      Holds();
      if outcome.Some? {
        return if outcome.value == Reset then Repeated else InvalidIdentifier;
      }
      if phase.Some? { return OperationInProgress; }
      if pc == Down {
        ghost var before := World();
        pc := Ready;
        Log(before, Start);
      }
      Holds();
      var began := BeginReset();
      if !began { return Interrupted; }
      var ended := ReplaceActive(seed);
      r := if ended.Some? then Ended(ended.value) else Interrupted;
    }

    method ReplaceActive(seed: Folder) returns (r: Option<Outcome>)
      requires At(Creating) && outcome.None? && !trapped && phase.Some?
      modifies this`canonical, this`staging, this`retired, this`phase, this`built, this`outcome, this`pending,
               this`made, this`pc, this`history, this`taken
      ensures Valid() && outcome == r
      ensures r.Some? ==> pc == Over && Truth(env, World(), r.value) && Tidy(World())
      ensures r.None? ==> pc == Down
      ensures old(taken) <= taken
      ensures NoFault(old(taken)) ==>
                && staging.None? && retired.None? && pending == old(pending)
                && if env.inspect(seed).Current? && !IsForeign(old(canonical))
                   then r == Some(Reset) && canonical == Some(seed)
                   else r == Some(ResetRolledBack) && canonical == old(canonical)
    {
      Holds();
      var o := ReplaceFolders(seed);
      if o.None? { return None; }
      Holds();
      var ok := End(o.value);
      r := if ok then o else None;
    }

    /** A verified folder is at the staging name, or none is left there. */
    method BuildBeside(seed: Folder) returns (r: Option<bool>)
      requires At(Creating)
      modifies this`staging, this`phase, this`built, this`pending, this`made, this`pc, this`history, this`taken
      ensures At(if r.None? then Down else if r.value then Looking else Record(ResetRolledBack))
      ensures old(taken) <= taken
      ensures NoFault(old(taken)) ==>
                && pending == old(pending) && r == Some(env.inspect(seed).Current?)
                && staging == if env.inspect(seed).Current? then Some(seed) else None
    {
      var created := CreateStaging();
      if !created { return Some(false); }
      var manifest := BuildStaging(seed);
      if manifest.None? {
        Cleanup();
        return Some(false);
      }
      var recorded := RecordManifest(manifest.value);
      r := if recorded then Some(true) else None;
    }

    /** Everything but the terminal. */
    method ReplaceFolders(seed: Folder) returns (o: Option<Outcome>)
      requires At(Creating) && retired.None? && !trapped
      modifies this`canonical, this`staging, this`retired, this`phase, this`built, this`pending, this`made, this`pc,
               this`history, this`taken
      ensures At(if o.Some? then Record(o.value) else Down)
      ensures old(taken) <= taken
      ensures NoFault(old(taken)) ==>
                && pending == old(pending)
                && if env.inspect(seed).Current? && !IsForeign(old(canonical))
                   then o == Some(Reset) && canonical == Some(seed) && retired == old(canonical)
                   else o == Some(ResetRolledBack) && staging.None? && canonical == old(canonical) && retired.None?
    {
      var built := BuildBeside(seed);
      if built.None? { return None; }
      if !built.value { return Some(ResetRolledBack); }
      var aside := MoveAside();
      if aside == Unknown { return None; }
      if aside == Refused {
        Cleanup();
        return Some(ResetRolledBack);
      }
      o := SwapIn();
    }

    lemma FreshWaits()
      requires At(RecordSwap) && !trapped
      ensures staging.Some? && env.inspect(staging.value).Current?
      ensures built == Some(env.inspect(staging.value).manifest)
    {
      Holds();
    }

    method SwapIn() returns (o: Option<Outcome>)
      requires At(RecordSwap) && !trapped
      modifies this`canonical, this`staging, this`retired, this`phase, this`pending, this`pc, this`history, this`taken
      ensures At(if o.Some? then Record(o.value) else Down)
      ensures old(taken) <= taken
      ensures NoFault(old(taken)) ==>
                o == Some(Reset) && canonical == old(staging) && retired == old(retired) && pending == old(pending)
    {
      FreshWaits();
      var recorded := RecordSwapped();
      if !recorded { return None; }
      var installed := InstallAndVerify();
      if installed { return Some(Reset); }
      var undone := RollBackInstall();
      o := if undone then Some(ResetRolledBack) else None;
    }

    // ---- At startup ----

    method PowerLoss()
      requires Valid()
      modifies this`pc, this`history
      ensures At(Down)
    {
      ghost var before := World();
      pc := Down;
      Log(before, Crash);
    }

    /** One recorded folder: removed and struck off, or removed and still listed, or neither. */
    method SweepOne(sibling: Sibling)
      requires At(Over)
      modifies this`staging, this`retired, this`pending, this`history, this`taken
      ensures At(Over)
      ensures pending <= old(pending) <= pending + {sibling}
      ensures sibling in old(pending) && sibling !in pending ==> if sibling == Staging then staging.None? else retired.None?
      ensures staging == old(staging) || (sibling == Staging && sibling in old(pending) && staging.None?)
      ensures retired == old(retired) || (sibling == Retired && sibling in old(pending) && retired.None?)
      ensures old(taken) <= taken && (NoFault(old(taken)) ==> sibling !in pending)
    {
      if sibling !in pending { return; }
      var removed, recorded := !fails(taken), !fails(taken + 1);
      taken := taken + 2;
      if removed {
        ghost var before := World();
        if sibling == Staging {
          staging := None;
        } else {
          retired := None;
        }
        if recorded {
          pending := pending - {sibling};
        }
        Log(before, Event.Sweep(sibling, recorded));
      } else {
        assert fails(taken - 2);
      }
      assert removed && !recorded ==> fails(taken - 1);
    }

    /** Removes exactly the folders recorded for it; one that cannot be removed stays recorded. */
    method Sweep()
      requires At(Over)
      modifies this`staging, this`retired, this`pending, this`history, this`taken
      ensures At(Over) && pending <= old(pending)
      ensures Staging !in old(pending) ==> staging == old(staging)
      ensures Retired !in old(pending) ==> retired == old(retired)
      ensures Staging in old(pending) && Staging !in pending ==> staging.None?
      ensures Retired in old(pending) && Retired !in pending ==> retired.None?
      ensures old(taken) <= taken && (NoFault(old(taken)) ==> pending == {})
    {
      SweepOne(Staging);
      SweepOne(Retired);
      assert forall x :: x in pending ==> x == Staging || x == Retired;
    }

    /** Finished only if the fresh sample is in place and verifies; anything short of that rolls back;
        then folders recorded for it are swept. What is recorded is true unless this or an earlier
        reconciliation began in the trap. With no effect failing, it ends the operation and sweeps
        everything recorded. */
    method Reconcile() returns (ok: bool, r: Option<Outcome>)
      requires At(Down)
      modifies this
      ensures Valid()
      ensures trapped ==> old(trapped) || Trap(old(World()))
      ensures r.Some? <==> ok && old(phase).Some?
      ensures r.Some? ==> At(Over) && outcome == r && (!trapped ==> Truth(env, World(), r.value) && Tidy(World()))
      ensures !ok ==> At(Down) && outcome == old(outcome)
      ensures ok && old(phase).None? ==> At(if outcome.None? then Ready else Over) && canonical == old(canonical)
      ensures old(taken) <= taken
      ensures NoFault(old(taken)) ==>
                && ok && (outcome.Some? ==> pending == {})
                && (old(phase).Some? ==>
                      r == Some(if Installed(env, old(World())) then Reset else ResetRolledBack) && staging.None?)
    {
      if fails(taken) {
        taken := taken + 1;
        return false, None;
      }
      taken := taken + 1;
      if phase.Some? {
        r := ReconcileReset();
        if r.None? { return false, None; }
      } else {
        ghost var before := World();
        pc := if outcome.None? then Ready else Over;
        Log(before, Start);
        r := None;
      }
      ok := true;
      if outcome.Some? {
        Sweep();
      }
      Holds();
    }

    method ReconcileReset() returns (r: Option<Outcome>)
      requires At(Down) && phase.Some?
      modifies this
      ensures Valid()
      ensures trapped ==> old(trapped) || Trap(old(World()))
      ensures r.Some? ==> At(Over) && outcome == r
      ensures r.None? ==> At(Down) && outcome == old(outcome)
      ensures old(taken) <= taken
      ensures NoFault(old(taken)) ==>
                r == Some(if Installed(env, old(World())) then Reset else ResetRolledBack) && staging.None?
    {
      var installed := Resume();
      if !installed {
        var undone := RollBackInstall();
        if !undone { return None; }
      }
      var o := if installed then Reset else ResetRolledBack;
      var ok := End(o);
      r := if ok then Some(o) else None;
    }

    method Resume() returns (installed: bool)
      requires At(Down) && phase.Some?
      modifies this`trapped, this`pc, this`history
      ensures installed <==> Installed(env, old(World()))
      ensures At(if installed then Record(Reset) else Undo(retired.Some?))
      ensures trapped <==> old(trapped) || Trap(old(World()))
    {
      installed := Installed(env, Durable(Down));
      ghost var before := World();
      trapped := trapped || Trap(before);
      pc := if installed then Record(Reset) else Undo(retired.Some?);
      Log(before, Start);
    }
  }
}
