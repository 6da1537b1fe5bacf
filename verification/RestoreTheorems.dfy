// What every run of a restore promises: nothing is lost, recorded outcomes are
// true, and one undisturbed pass after a crash puts everything back.

module RestoreTheorems {
  import opened Prelude
  import opened RestoreControl
  import opened RestoreMachine
  import opened RestoreInvariant

  // ---- The control record inside a run ----

  function Rec(s: State): Record { Record(s.control, s.issued) }

  ghost predicate Updates(env: Env, s: State, q: Option<Request>, t: State) {
    Rec(t) == if q.Some? then Apply(env.digest, Rec(s), q.value) else Rec(s)
  }

  lemma CheckUpdates(env: Env, s: State, step: Check, e: Event) returns (q: Option<Request>)
    requires IsExecuting(s.control)
    ensures Updates(env, s, q, CheckStep(env, s, step, e))
  {
    q := if step.JournalMove? && e.Done? then Some(AdvancePhase(Staging, MovingLiveAside)) else None;
  }

  lemma InstallUpdates(env: Env, s: State, step: Install, e: Event) returns (q: Option<Request>)
    requires IsExecuting(s.control)
    ensures Updates(env, s, q, InstallStep(env, s, step, e))
  {
    q := None;
    if e.Done? {
      match step
      case JournalInstall => q := Some(AdvancePhase(MovingLiveAside, Installing));
      case JournalSettings => q := Some(AdvancePhase(Installing, ApplyingSettings));
      case JournalVerify => q := Some(AdvancePhase(ApplyingSettings, Verifying));
      case FinishRestored(_) =>
        var t := InstallStep(env, s, step, e).control.finished[|s.control.finished|];
        q := Some(FinishWith(Restored, t.projectionsPendingFor, s.clock));
      case _ =>
    }
  }

  lemma BackUpdates(env: Env, s: State, step: Back, e: Event) returns (q: Option<Request>)
    requires IsExecuting(s.control)
    ensures Updates(env, s, q, BackStep(env, s, step, e))
  {
    q := if step.Begin? && e.Done? then Some(RollBackPhase)
         else if step.Finishing? && e.Done? then Some(FinishWith(step.outcome, None, s.clock))
         else None;
  }

  /** A step of the whole system updates the control record at most once. */
  lemma StepUpdatesOnce(env: Env, s: State, e: Event) returns (q: Option<Request>)
    ensures Updates(env, s, q, Next(env, s, e))
  {
    q := None;
    if !e.Crash? {
      match s.pc
      case Idle =>
        q := if e.Call? && Rec(AtRest(env, s, e)) != Rec(s) then Some(e.request)
             else if e.PrepareWith? && Rec(AtRest(env, s, e)) != Rec(s) then Some(Prepare(e.prepared))
             else if e.Claim? && IsExecuting(s.control) then Some(AdvancePhase(Approved, Staging))
             else None;
      case Down => q := if e.Start? && IsPrepared(s.control) then Some(DropAtStartup) else None;
      case Checking(step) => if IsExecuting(s.control) { q := CheckUpdates(env, s, step, e); }
      case Replacing(step) => if IsExecuting(s.control) { q := InstallUpdates(env, s, step, e); }
      case PuttingBack(step) => if IsExecuting(s.control) { q := BackUpdates(env, s, step, e); }
      case _ =>
    }
  }

  /** So every run is, on the control record, one of the interleavings of `RestoreControl`. */
  lemma {:induction false} RunIsInterleaving(env: Env, s: State, es: seq<Event>) returns (qs: seq<Request>)
    ensures Rec(Run(env, s, es)) == ApplyAll(env.digest, Rec(s), qs)
    decreases |es|
  {
    if es == [] {
      qs := [];
    } else {
      var q := StepUpdatesOnce(env, s, es[0]);
      var rest := RunIsInterleaving(env, Next(env, s, es[0]), es[1..]);
      if q.Some? {
        qs := [q.value] + rest;
        assert qs[1..] == rest;
      } else {
        qs := rest;
      }
    }
  }

  // ---- Runs ----

  lemma {:induction false} RunSplits(env: Env, s: State, es: seq<Event>, fs: seq<Event>)
    ensures Run(env, s, es + fs) == Run(env, Run(env, s, es), fs)
    decreases |es|
  {
    if es == [] {
      assert es + fs == fs;
    } else {
      assert (es + fs)[0] == es[0] && (es + fs)[1..] == es[1..] + fs;
      RunSplits(env, Next(env, s, es[0]), es[1..], fs);
    }
  }

  // ---- Recording an outcome ----

  /** The outcome the executor is about to record. */
  function AboutToRecord(pc: Pc): Option<Outcome> {
    match pc
    case PuttingBack(Finishing(o)) => Some(o)
    case Replacing(FinishRestored(_)) => Some(Restored)
    case _ => None
  }

  lemma RestRecordsNothing(env: Env, s: State, e: Event)
    ensures AtRest(env, s, e).control.finished == s.control.finished
  {
  }

  lemma CheckRecordsNothing(env: Env, s: State, step: Check, e: Event)
    requires IsExecuting(s.control)
    ensures CheckStep(env, s, step, e).control.finished == s.control.finished
  {
  }

  ghost predicate OnlyRecords(s: State, e: Event, t: State) {
    t.control.finished != s.control.finished ==>
      && e.Done? && IsExecuting(s.control) && AboutToRecord(s.pc).Some?
      && t.disk == s.disk && t.settings == s.settings && t.preimage == s.preimage && t.orig == s.orig
      && |t.control.finished| == |s.control.finished| + 1
      && s.control.finished <= t.control.finished
      && t.control.finished[|s.control.finished|].outcome == AboutToRecord(s.pc).value
      && t.control.finished[|s.control.finished|].intentId == Prep(s).intentId
      && t.control.active.None?
  }

  lemma InstallOnlyRecords(env: Env, s: State, e: Event)
    requires IsExecuting(s.control) && s.pc.Replacing?
    ensures OnlyRecords(s, e, InstallStep(env, s, s.pc.install, e))
  {
  }

  lemma BackOnlyRecords(env: Env, s: State, e: Event)
    requires IsExecuting(s.control) && s.pc.PuttingBack?
    ensures OnlyRecords(s, e, BackStep(env, s, s.pc.back, e))
  {
  }

  /** A terminal is appended only by the step that is about to record it; that step moves no file
      and changes no setting. */
  lemma RecordingMovesNothing(env: Env, s: State, e: Event)
    ensures OnlyRecords(s, e, Next(env, s, e))
  {
    if !e.Crash? {
      match s.pc
      case Idle => RestRecordsNothing(env, s, e);
      case Checking(step) => if IsExecuting(s.control) { CheckRecordsNothing(env, s, step, e); }
      case Replacing(step) => if IsExecuting(s.control) { InstallOnlyRecords(env, s, e); }
      case PuttingBack(step) => if IsExecuting(s.control) { BackOnlyRecords(env, s, e); }
      case _ =>
    }
  }

  // ---- No loss ----

  /** In every run, while a claimed restore executes, each bound member's original bytes stand at its
      rollback name if anything is there, and at its live name otherwise. `RestoreAftermath` takes
      this past the recording of an outcome. */
  lemma NothingIsLost(env: Env, s: State, es: seq<Event>, m: Member)
    requires Initial(s)
    requires Claimed(Run(env, s, es).control) && m in BoundMembers(Prep(Run(env, s, es)))
    ensures
      var t := Run(env, s, es);
      var id := Prep(t).intentId;
      if Aside(id, m) in t.disk then Some(t.disk[Aside(id, m)]) == Look(t.orig, m)
      else Look(t.disk, Live(m)) == Look(t.orig, m)
  {
    InitialInv(env, s);
    RunKeepsInv(env, s, es);
  }

  // ---- Truthful outcomes ----

  /** A restore that says nothing was replaced left the Ledger file as it was when it was claimed,
      and left no rollback copy. */
  lemma NothingReplacedIsTrue(env: Env, s: State, es: seq<Event>)
    requires Initial(s)
    requires IsExecuting(Run(env, s, es).control) && AboutToRecord(Run(env, s, es).pc) == Some(FailedBeforeReplacement)
    ensures
      var t := Run(env, s, es);
      && NoAsides(t.disk, Prep(t).intentId)
      && (Claimed(t.control) ==> Look(t.disk, Live(Ledger)) == Look(t.orig, Ledger))
      && (Rank(t.control.active.value.phase) >= Rank(MovingLiveAside) ==>
            StillBound(env, LiveFiles(t.disk), Prep(t).current))
  {
    InitialInv(env, s);
    RunKeepsInv(env, s, es);
  }

  /** A restore that says the previous set is back has every bound member's original bytes in its
      live name, still exactly what the preview bound, and the settings of the preimage. */
  lemma PutBackIsTrue(env: Env, s: State, es: seq<Event>, m: Member)
    requires Initial(s)
    requires IsExecuting(Run(env, s, es).control) && AboutToRecord(Run(env, s, es).pc) == Some(RecoveryPutBack)
    requires m in BoundMembers(Prep(Run(env, s, es)))
    ensures
      var t := Run(env, s, es);
      && StillBound(env, LiveFiles(t.disk), Prep(t).current)
      && t.preimage.Some? && t.settings.body == t.preimage.value.body
      && NoAsides(t.disk, Prep(t).intentId)
      && Look(t.disk, Live(m)) == Look(t.orig, m)
  {
    InitialInv(env, s);
    RunKeepsInv(env, s, es);
  }

  function Seen(pc: Pc): Option<LedgerBinding> {
    match pc
    case Replacing(Mark(seen)) => Some(seen)
    case Replacing(FinishRestored(seen)) => Some(seen)
    case _ => None
  }

  ghost predicate SeenAtVerify(env: Env, s: State, t: State) {
    Seen(t.pc).Some? ==>
      && t.control.active == s.control.active
      && (|| Seen(s.pc) == Seen(t.pc)
          || (s.pc == Replacing(Verify) && CurrentBinding(env, LiveFiles(s.disk)) == Seen(t.pc)))
  }

  lemma InstallSees(env: Env, s: State, e: Event)
    requires IsExecuting(s.control) && s.pc.Replacing?
    ensures SeenAtVerify(env, s, InstallStep(env, s, s.pc.install, e))
  {
  }

  lemma RestSeesNothing(env: Env, s: State, e: Event)
    requires s.pc.Idle?
    ensures Seen(AtRest(env, s, e).pc).None?
  {
  }

  lemma CheckSeesNothing(env: Env, s: State, e: Event)
    requires IsExecuting(s.control) && s.pc.Checking?
    ensures Seen(CheckStep(env, s, s.pc.check, e).pc).None?
  {
  }

  lemma MoveSeesNothing(env: Env, s: State, e: Event)
    requires IsExecuting(s.control) && s.pc.Moving?
    ensures Seen(MoveStep(env, s, s.pc.move, e).pc).None?
  {
  }

  lemma BackSeesNothing(env: Env, s: State, e: Event)
    requires IsExecuting(s.control) && s.pc.PuttingBack?
    ensures Seen(BackStep(env, s, s.pc.back, e).pc).None?
  {
  }

  /** A binding held by the executor was read from the installed file just before. */
  lemma SeenComesFromVerify(env: Env, s: State, e: Event)
    requires s.pc.ClearWork? ==> s.pc.next.Idle? || s.pc.next.DropSet?
    ensures SeenAtVerify(env, s, Next(env, s, e))
  {
    if !e.Crash? {
      match s.pc
      case Idle => RestSeesNothing(env, s, e);
      case Checking(_) => if IsExecuting(s.control) { CheckSeesNothing(env, s, e); }
      case Moving(_) => if IsExecuting(s.control) { MoveSeesNothing(env, s, e); }
      case Replacing(_) => if IsExecuting(s.control) { InstallSees(env, s, e); }
      case PuttingBack(_) => if IsExecuting(s.control) { BackSeesNothing(env, s, e); }
      case _ =>
    }
  }

  /** Before `Restored` can be recorded, the installed file was read in its live name during this same
      restore, and what was read is the archive's revision, schema and inventory. */
  lemma {:induction false} RestoredWasRederived(env: Env, s: State, es: seq<Event>) returns (k: nat)
    requires Initial(s)
    requires Seen(Run(env, s, es).pc).Some?
    ensures k <= |es|
    ensures
      var t, then_ := Run(env, s, es), Run(env, s, es[..k]);
      && then_.pc == Replacing(Verify)
      && then_.control.active == t.control.active && IsExecuting(t.control)
      && CurrentBinding(env, LiveFiles(then_.disk)) == Seen(t.pc)
      && IsArchives(Seen(t.pc).value, Prep(t))
    decreases |es|
  {
    InitialInv(env, s);
    RunKeepsInv(env, s, es);
    var n := |es| - 1;
    assert es == es[..n] + [es[n]];
    RunSplits(env, s, es[..n], [es[n]]);
    var before := Run(env, s, es[..n]);
    assert Run(env, before, [es[n]]) == Next(env, before, es[n]);
    RunKeepsInv(env, s, es[..n]);
    SeenComesFromVerify(env, before, es[n]);
    if Seen(before.pc).Some? {
      k := RestoredWasRederived(env, s, es[..n]);
      assert es[..n][..k] == es[..k];
    } else {
      k := n;
    }
  }
}
