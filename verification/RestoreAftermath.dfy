// No loss beyond the record: what a restore that did not succeed left at its
// rollback names stands there in every later state, whatever runs after it.

module RestoreAftermath {
  import opened Prelude
  import opened RestoreControl
  import opened RestoreMachine
  import opened RestoreInvariant
  import opened RestoreTheorems

  /** The intent whose rollback copies are being removed, or will be. */
  function Removing(pc: Pc): Option<string> {
    match pc
    case DropSet(id, _, _) => Some(id)
    case ClearWork(DropSet(id, _, _)) => Some(id)
    case _ => None
  }

  predicate WasRestored(c: Control, id: string) {
    exists t :: t in c.finished && t.intentId == id && t.outcome == Restored
  }

  /** Only copies of a restore recorded as `Restored` are ever removed. */
  predicate Restrained(s: State) {
    Removing(s.pc).Some? ==> WasRestored(s.control, Removing(s.pc).value)
  }

  lemma CheckRestrained(env: Env, s: State, e: Event)
    requires IsExecuting(s.control) && s.pc.Checking?
    ensures Restrained(CheckStep(env, s, s.pc.check, e))
  {
  }

  lemma InstallRestrained(env: Env, s: State, e: Event)
    requires IsExecuting(s.control) && s.pc.Replacing?
    ensures Restrained(InstallStep(env, s, s.pc.install, e))
  {
    var t := InstallStep(env, s, s.pc.install, e);
    if Removing(t.pc).Some? {
      assert t.control.finished[|s.control.finished|] in t.control.finished;
    }
  }

  lemma BackRestrained(env: Env, s: State, e: Event)
    requires IsExecuting(s.control) && s.pc.PuttingBack?
    ensures Restrained(BackStep(env, s, s.pc.back, e))
  {
  }

  lemma RestRestrained(env: Env, s: State, e: Event)
    requires s.pc.Idle?
    ensures Restrained(AtRest(env, s, e))
  {
  }

  lemma MoveRestrained(env: Env, s: State, e: Event)
    requires IsExecuting(s.control) && s.pc.Moving?
    ensures Restrained(MoveStep(env, s, s.pc.move, e))
  {
  }

  lemma StartupRestrained(s: State, e: Event)
    requires s.pc.Down? || s.pc.Sweeping?
    ensures Restrained(Startup(s, e))
  {
  }

  lemma NextRestrained(env: Env, s: State, e: Event)
    requires Inv(env, s) && Restrained(s)
    ensures Restrained(Next(env, s, e))
  {
    if !e.Crash? {
      match s.pc
      case Idle => RestRestrained(env, s, e);
      case Checking(_) => CheckRestrained(env, s, e);
      case Moving(_) => MoveRestrained(env, s, e);
      case Replacing(_) => InstallRestrained(env, s, e);
      case PuttingBack(_) => BackRestrained(env, s, e);
      case Down | Sweeping => StartupRestrained(s, e);
      case ClearWork(_) =>
      case DropSet(_, _, _) =>
    }
  }

  // ---- One step leaves the rollback names of every other intent alone ----

  lemma CheckSparesOthers(env: Env, s: State, e: Event, n: Name)
    requires IsExecuting(s.control) && s.pc.Checking? && n.Aside?
    ensures Look(CheckStep(env, s, s.pc.check, e).disk, n) == Look(s.disk, n)
  {
  }

  lemma MoveSparesOthers(env: Env, s: State, e: Event, n: Name)
    requires IsExecuting(s.control) && s.pc.Moving? && n.Aside? && n.id != Prep(s).intentId
    ensures Look(MoveStep(env, s, s.pc.move, e).disk, n) == Look(s.disk, n)
  {
  }

  lemma InstallSparesOthers(env: Env, s: State, e: Event, n: Name)
    requires IsExecuting(s.control) && s.pc.Replacing? && n.Aside?
    ensures Look(InstallStep(env, s, s.pc.install, e).disk, n) == Look(s.disk, n)
  {
  }

  lemma BackSparesOthers(env: Env, s: State, e: Event, n: Name)
    requires IsExecuting(s.control) && s.pc.PuttingBack? && n.Aside? && n.id != Prep(s).intentId
    ensures Look(BackStep(env, s, s.pc.back, e).disk, n) == Look(s.disk, n)
  {
  }

  lemma RestSparesAsides(env: Env, s: State, e: Event, n: Name)
    requires s.pc.Idle? && n.Aside?
    ensures Look(AtRest(env, s, e).disk, n) == Look(s.disk, n)
  {
  }

  /** One terminal per intent, so a failed restore is not also a restored one. */
  lemma NotRestored(c: Control, t: Terminal)
    requires Distinct(c.finished) && t in c.finished && t.outcome != Restored
    ensures !WasRestored(c, t.intentId)
  {
    var i :| 0 <= i < |c.finished| && c.finished[i] == t;
    forall u | u in c.finished && u.intentId == t.intentId
      ensures u == t
    {
      var j :| 0 <= j < |c.finished| && c.finished[j] == u;
    }
  }

  lemma SweepSparesOthers(s: State, e: Event, n: Name)
    requires (s.pc.Down? || s.pc.Sweeping?) && n.Aside? && !WasRestored(s.control, n.id)
    ensures Look(Startup(s, e).disk, n) == Look(s.disk, n)
  {
  }

  lemma StepKeepsCopy(env: Env, s: State, e: Event, t: Terminal, m: Member)
    requires Inv(env, s) && Restrained(s) && t in s.control.finished && t.outcome != Restored
    ensures Look(Next(env, s, e).disk, Aside(t.intentId, m)) == Look(s.disk, Aside(t.intentId, m))
  {
    var n := Aside(t.intentId, m);
    NotRestored(s.control, t);
    if !e.Crash? {
      match s.pc
      case Idle => RestSparesAsides(env, s, e, n);
      case Checking(_) => CheckSparesOthers(env, s, e, n);
      case Moving(_) => MoveSparesOthers(env, s, e, n);
      case Replacing(_) => InstallSparesOthers(env, s, e, n);
      case PuttingBack(_) => BackSparesOthers(env, s, e, n);
      case Down | Sweeping => SweepSparesOthers(s, e, n);
      case ClearWork(_) =>
      case DropSet(_, _, _) =>
    }
  }

  lemma FinishedStays(env: Env, s: State, e: Event)
    ensures s.control.finished <= Next(env, s, e).control.finished
  {
    RecordingMovesNothing(env, s, e);
  }

  /** What a restore that was not recorded as `Restored` left at a rollback name, or did not leave
      there, stays so through every later startup, sweep, crash and restore. */
  lemma {:induction false} CopiesOutliveFailure(env: Env, s: State, es: seq<Event>, t: Terminal, m: Member)
    requires Inv(env, s) && Restrained(s) && t in s.control.finished && t.outcome != Restored
    ensures t in Run(env, s, es).control.finished
    ensures Look(Run(env, s, es).disk, Aside(t.intentId, m)) == Look(s.disk, Aside(t.intentId, m))
    decreases |es|
  {
    if es == [] {
    } else {
      var next := Next(env, s, es[0]);
      NextKeepsInv(env, s, es[0]);
      NextRestrained(env, s, es[0]);
      FinishedStays(env, s, es[0]);
      StepKeepsCopy(env, s, es[0], t, m);
      CopiesOutliveFailure(env, next, es[1..], t, m);
    }
  }

  // ---- From the claim on ----

  /** The same restore goes on, or its terminal was appended. */
  ghost predicate GoesOn(s: State, t: State)
    requires IsExecuting(s.control)
  {
    && t.orig == s.orig
    && (|| (Claimed(t.control) && Prep(t) == Prep(s) && t.control.finished == s.control.finished)
        || (t.control.active.None? && |t.control.finished| == |s.control.finished| + 1))
  }

  lemma CheckGoesOn(env: Env, s: State, e: Event)
    requires Claimed(s.control) && s.pc.Checking? && s.control.active.value.phase == Staging
    ensures GoesOn(s, CheckStep(env, s, s.pc.check, e))
  {
  }

  lemma MoveGoesOn(env: Env, s: State, e: Event)
    requires Claimed(s.control) && s.pc.Moving?
    ensures GoesOn(s, MoveStep(env, s, s.pc.move, e))
  {
  }

  lemma InstallGoesOn(env: Env, s: State, e: Event)
    requires Claimed(s.control) && s.pc.Replacing?
    ensures GoesOn(s, InstallStep(env, s, s.pc.install, e))
  {
  }

  lemma BackGoesOn(env: Env, s: State, e: Event)
    requires Claimed(s.control) && s.pc.PuttingBack?
    ensures GoesOn(s, BackStep(env, s, s.pc.back, e))
  {
  }

  lemma RestGoesOn(env: Env, s: State, e: Event)
    requires Claimed(s.control) && s.pc.Idle?
    ensures GoesOn(s, AtRest(env, s, e))
  {
  }

  lemma NextGoesOn(env: Env, s: State, e: Event)
    requires Inv(env, s) && Claimed(s.control)
    ensures GoesOn(s, Next(env, s, e))
  {
    if !e.Crash? {
      match s.pc
      case Idle => RestGoesOn(env, s, e);
      case Checking(_) => CheckGoesOn(env, s, e);
      case Moving(_) => MoveGoesOn(env, s, e);
      case Replacing(_) => InstallGoesOn(env, s, e);
      case PuttingBack(_) => BackGoesOn(env, s, e);
      case _ =>
    }
  }

  /** After `k` events the executor is about to record the outcome of `id`, with nothing at this
      member's rollback name and the original bytes in its live name. */
  ghost predicate WentHome(env: Env, s: State, es: seq<Event>, k: nat, id: string, m: Member) {
    && k <= |es|
    && var r := Run(env, s, es[..k]);
       && ExecutesIntent(r.control, id) && AboutToRecord(r.pc).Some?
       && Aside(id, m) !in r.disk && Look(r.disk, Live(m)) == Look(s.orig, m)
  }

  /** Where the original bytes of a bound member are, after `es`: at its rollback name if anything is
      there; otherwise at its live name while the restore executes, or, once its outcome is recorded,
      they were at its live name when that happened. */
  ghost predicate Kept(env: Env, s: State, es: seq<Event>, id: string, m: Member) {
    var u := Run(env, s, es);
    if Aside(id, m) in u.disk then Look(u.disk, Aside(id, m)) == Look(s.orig, m)
    else if ExecutesIntent(u.control, id) then Look(u.disk, Live(m)) == Look(s.orig, m)
    else exists k :: WentHome(env, s, es, k, id, m)
  }

  lemma NotExecutedAgain(env: Env, s: State, es: seq<Event>, t: Terminal)
    requires Inv(env, s) && t in s.control.finished
    ensures !ExecutesIntent(Run(env, s, es).control, t.intentId)
  {
    RunKeepsInv(env, s, es);
    FinishedStaysRun(env, s, es);
  }

  lemma {:induction false} FinishedStaysRun(env: Env, s: State, es: seq<Event>)
    ensures s.control.finished <= Run(env, s, es).control.finished
    decreases |es|
  {
    if es == [] {
    } else {
      FinishedStays(env, s, es[0]);
      FinishedStaysRun(env, Next(env, s, es[0]), es[1..]);
    }
  }

  /** The step that records an outcome other than `Restored`, and everything after it. */
  lemma KeptFromRecord(env: Env, s: State, es: seq<Event>, m: Member)
    requires Inv(env, s) && Restrained(s) && Claimed(s.control) && es != []
    requires m in BoundMembers(Prep(s)) && !WasRestored(Run(env, s, es).control, Prep(s).intentId)
    requires Next(env, s, es[0]).control.active.None?
    ensures Kept(env, s, es, Prep(s).intentId, m)
  {
    var id, next := Prep(s).intentId, Next(env, s, es[0]);
    NextKeepsInv(env, s, es[0]);
    NextRestrained(env, s, es[0]);
    NextGoesOn(env, s, es[0]);
    RecordingMovesNothing(env, s, es[0]);
    FinishedStaysRun(env, next, es[1..]);
    var t := next.control.finished[|s.control.finished|];
    assert t in next.control.finished && t in Run(env, s, es).control.finished;
    CopiesOutliveFailure(env, next, es[1..], t, m);
    NotExecutedAgain(env, next, es[1..], t);
    assert es[..0] == [];
    if Aside(id, m) !in s.disk {
      assert WentHome(env, s, es, 0, id, m);
    }
  }

  lemma WentHomeLater(env: Env, s: State, es: seq<Event>, k: nat, id: string, m: Member)
    requires es != [] && Next(env, s, es[0]).orig == s.orig
    requires WentHome(env, Next(env, s, es[0]), es[1..], k, id, m)
    ensures WentHome(env, s, es, k + 1, id, m)
  {
    assert es[..k + 1][0] == es[0] && es[..k + 1][1..] == es[1..][..k];
  }

  /** From any state of an executing restore on, as long as no `Restored` is recorded for it, each
      bound member is kept: crashes, startups, sweeps, failed recoveries and other restores included. */
  lemma {:induction false} KeptUntilRestored(env: Env, s: State, es: seq<Event>, m: Member)
    requires Inv(env, s) && Restrained(s) && Claimed(s.control)
    requires m in BoundMembers(Prep(s)) && !WasRestored(Run(env, s, es).control, Prep(s).intentId)
    ensures Kept(env, s, es, Prep(s).intentId, m)
    decreases |es|
  {
    if es == [] {
      assert Run(env, s, es) == s;
    } else {
      var next := Next(env, s, es[0]);
      NextGoesOn(env, s, es[0]);
      if next.control.active.None? {
        KeptFromRecord(env, s, es, m);
      } else {
        NextKeepsInv(env, s, es[0]);
        NextRestrained(env, s, es[0]);
        KeptUntilRestored(env, next, es[1..], m);
        if k :| WentHome(env, next, es[1..], k, Prep(s).intentId, m) {
          WentHomeLater(env, s, es, k, Prep(s).intentId, m);
        }
      }
    }
  }

  lemma {:induction false} RunRestrained(env: Env, s: State, es: seq<Event>)
    requires Inv(env, s) && Restrained(s)
    ensures Restrained(Run(env, s, es))
    decreases |es|
  {
    if es == [] {
    } else {
      NextKeepsInv(env, s, es[0]);
      NextRestrained(env, s, es[0]);
      RunRestrained(env, Next(env, s, es[0]), es[1..]);
    }
  }

  // ---- Main results ----

  /** In every run, from any state in which a restore executes and until `Restored` is recorded for
      it, whatever else happens, each bound member's original bytes stand at its rollback name if
      anything does; otherwise at its live name while the restore executes, and if its outcome has
      been recorded, they stood at its live name when it was. */
  lemma NothingIsLostUntilRestored(env: Env, s: State, es: seq<Event>, fs: seq<Event>, m: Member)
    requires Initial(s) && Claimed(Run(env, s, es).control)
    requires m in BoundMembers(Prep(Run(env, s, es)))
    requires !WasRestored(Run(env, s, es + fs).control, Prep(Run(env, s, es)).intentId)
    ensures Kept(env, Run(env, s, es), fs, Prep(Run(env, s, es)).intentId, m)
  {
    InitialInv(env, s);
    RunKeepsInv(env, s, es);
    RunRestrained(env, s, es);
    RunSplits(env, s, es, fs);
    KeptUntilRestored(env, Run(env, s, es), fs, m);
  }

  /** When a recovery has failed, the previous files that are still at rollback names are there, with
      their original bytes, in every later state of every run. */
  lemma FailedRecoveryKeepsCopies(env: Env, s: State, es: seq<Event>, fs: seq<Event>, m: Member)
    requires Initial(s)
    requires Claimed(Run(env, s, es).control) && AboutToRecord(Run(env, s, es).pc) == Some(RecoveryFailed)
    requires m in BoundMembers(Prep(Run(env, s, es)))
    requires Aside(Prep(Run(env, s, es)).intentId, m) in Run(env, s, es).disk
    ensures
      var r := Run(env, s, es);
      Look(Run(env, s, es + ([Done] + fs)).disk, Aside(Prep(r).intentId, m)) == Look(r.orig, m)
  {
    var r := Run(env, s, es);
    var next := Next(env, r, Done);
    InitialInv(env, s);
    RunKeepsInv(env, s, es);
    RunRestrained(env, s, es);
    NextKeepsInv(env, r, Done);
    NextRestrained(env, r, Done);
    RecordingMovesNothing(env, r, Done);
    RunSplits(env, s, es, [Done] + fs);
    assert ([Done] + fs)[1..] == fs;
    var t := next.control.finished[|r.control.finished|];
    assert t in next.control.finished;
    CopiesOutliveFailure(env, next, fs, t, m);
  }
}
