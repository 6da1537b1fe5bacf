// One undisturbed pass after a crash, whatever interrupted passes came before.

module RestoreConvergence {
  import opened Prelude
  import opened RestoreControl
  import opened RestoreMachine
  import opened RestoreInvariant
  import opened RestoreTheorems

  /** The executor left alone: `n` more effects, all succeeding. */
  function Undisturbed(env: Env, s: State, n: nat): State
    decreases n
  {
    if n == 0 then s else Undisturbed(env, Next(env, s, Done), n - 1)
  }

  /** Startup after a crash, and a pass long enough to finish whatever it starts. */
  function PutBackPass(env: Env, s: State, now: int): State {
    Undisturbed(env, Next(env, s, Start(now)), 14)
  }

  /** What a pass leaves of the restore `p` that was executing in `s`. */
  ghost predicate Over(s: State, p: PreparedRestore, u: State, outcome: Outcome) {
    && u.pc == Idle
    && u.control.active.None?
    && |u.control.finished| == |s.control.finished| + 1
    && s.control.finished <= u.control.finished
    && u.control.finished[|s.control.finished|].intentId == p.intentId
    && u.control.finished[|s.control.finished|].outcome == outcome
  }

  ghost predicate NothingLeft(d: Disk, id: string) {
    Staged(id) !in d && NoAsides(d, id)
  }

  lemma {:induction false} Rest(env: Env, s: State, n: nat)
    requires s.pc == Idle
    ensures Undisturbed(env, s, n) == s
  {
    if n == 0 {
    } else {
      Rest(env, s, n - 1);
    }
  }

  /** Recording the outcome and clearing the work area. */
  lemma {:induction false} FromFinishing(env: Env, s: State, n: nat)
    requires IsExecuting(s.control) && s.pc.PuttingBack? && s.pc.back.Finishing? && n >= 2
    ensures
      var u := Undisturbed(env, s, n);
      && Over(s, Prep(s), u, s.pc.back.outcome)
      && u.disk == s.disk && u.settings == s.settings
  {
    var t := Next(env, s, Done);
    var v := Next(env, t, Done);
    assert Undisturbed(env, s, n) == Undisturbed(env, t, n - 1) == Undisturbed(env, v, n - 2);
    Rest(env, v, n - 2);
  }

  lemma {:induction false} FromJudge(env: Env, s: State, n: nat)
    requires IsExecuting(s.control) && s.pc == PuttingBack(Judge) && n >= 3
    ensures
      var p, u := Prep(s), Undisturbed(env, s, n);
      var bound := StillBound(env, LiveFiles(s.disk), p.current);
      && Over(s, p, u, if bound then FailedBeforeReplacement else RecoveryFailed)
      && u.disk == s.disk && u.settings == s.settings
  {
    FromFinishing(env, Next(env, s, Done), n - 1);
  }

  /** The rollback copy is gone: the previous Ledger never left, or is already back. */
  lemma {:induction false} FromDropStagedEarly(env: Env, s: State, n: nat)
    requires IsExecuting(s.control) && s.pc == PuttingBack(DropStagedEarly) && n >= 4
    ensures
      var p, u := Prep(s), Undisturbed(env, s, n);
      var bound := StillBound(env, LiveFiles(s.disk), p.current);
      && Over(s, p, u, if bound then FailedBeforeReplacement else RecoveryFailed)
      && u.disk == Removed(s.disk, Staged(p.intentId)) && u.settings == s.settings
  {
    StagedAside(s.disk, Prep(s).intentId);
    FromJudge(env, Next(env, s, Done), n - 1);
  }

  ghost predicate SettingsBack(s: State, u: State) {
    s.preimage.Some? && u.settings.body == s.preimage.value.body && u.settings.selected == s.settings.selected
  }

  /** The live names hold the previous set: an opaque one whole and nothing else, an inspectable
      Ledger without sidecars. */
  ghost predicate LiveBack(d: Disk, p: PreparedRestore, orig: Files) {
    if p.current.Opaque? then LiveFiles(d) == orig
    else Look(d, Live(Ledger)) == Look(orig, Ledger) && Live(Wal) !in d && Live(Shm) !in d
  }

  ghost predicate PutBackDone(s: State, u: State)
    requires IsExecuting(s.control)
  {
    var p := Prep(s);
    && Over(s, p, u, RecoveryPutBack)
    && NothingLeft(u.disk, p.intentId)
    && LiveBack(u.disk, p, s.orig)
    && SettingsBack(s, u)
  }

  lemma {:induction false} FromCheckBack(env: Env, s: State, n: nat)
    requires IsExecuting(s.control) && s.pc == PuttingBack(CheckBack) && n >= 3
    requires StillBound(env, LiveFiles(s.disk), Prep(s).current)
    ensures
      var u := Undisturbed(env, s, n);
      Over(s, Prep(s), u, RecoveryPutBack) && u.disk == s.disk && u.settings == s.settings
  {
    FromFinishing(env, Next(env, s, Done), n - 1);
  }

  lemma {:induction false} FromPutSettings(env: Env, s: State, n: nat)
    requires IsExecuting(s.control) && s.pc == PuttingBack(PutSettings) && n >= 4 && s.preimage.Some?
    requires StillBound(env, LiveFiles(s.disk), Prep(s).current)
    ensures
      var u := Undisturbed(env, s, n);
      Over(s, Prep(s), u, RecoveryPutBack) && u.disk == s.disk && SettingsBack(s, u)
  {
    FromCheckBack(env, Next(env, s, Done), n - 1);
  }

  lemma LiveBackIsBound(env: Env, d: Disk, p: PreparedRestore, orig: Files)
    requires LiveBack(d, p, orig) && StillBound(env, orig, p.current)
    ensures StillBound(env, LiveFiles(d), p.current)
  {
    if p.current.Inspectable? {
      assert Ledger in orig && orig[Ledger] == LiveFiles(d)[Ledger];
    }
  }

  lemma {:induction false} FromDropStaged(env: Env, s: State, n: nat)
    requires IsExecuting(s.control) && s.pc == PuttingBack(DropStaged) && n >= 5 && s.preimage.Some?
    requires NoAsides(s.disk, Prep(s).intentId)
    requires LiveBack(s.disk, Prep(s), s.orig) && StillBound(env, s.orig, Prep(s).current)
    ensures PutBackDone(s, Undisturbed(env, s, n))
  {
    var t := Next(env, s, Done);
    StagedAside(s.disk, Prep(s).intentId);
    LiveBackIsBound(env, t.disk, Prep(s), s.orig);
    FromPutSettings(env, t, n - 1);
  }

  /** Once every sidecar is home, moving the Ledger back restores the whole set. */
  lemma LedgerCompletes(env: Env, d: Disk, p: PreparedRestore, orig: Files)
    requires StillBound(env, orig, p.current) && NoLoss(d, p, orig)
    requires Aside(p.intentId, Ledger) in d && WalBack(d, p) && Aside(p.intentId, Shm) !in d && UnboundGone(d, p)
    requires p.current.Inspectable? ==> Live(Wal) !in d && Live(Shm) !in d
    ensures
      var d' := Renamed(d, Aside(p.intentId, Ledger), Live(Ledger));
      LiveBack(d', p, orig) && NoAsides(d', p.intentId)
  {
    var d' := Renamed(d, Aside(p.intentId, Ledger), Live(Ledger));
    if p.current.Opaque? {
      assert orig.Keys == p.current.files.Keys;
      assert KeptAtHome(d, p, orig, Ledger) && KeptAtHome(d, p, orig, Wal) && KeptAtHome(d, p, orig, Shm);
      forall m: Member
        ensures Look(LiveFiles(d'), m) == Look(orig, m)
      {
        match m
        case Ledger =>
        case Wal =>
        case Shm =>
      }
      LookExtensional(LiveFiles(d'), orig);
    }
  }

  lemma LookExtensional(a: Files, b: Files)
    requires forall m: Member :: Look(a, m) == Look(b, m)
    ensures a == b
  {
    forall m: Member
      ensures m in a <==> m in b
      ensures m in a ==> a[m] == b[m]
    {
      assert Look(a, m) == Look(b, m);
    }
  }

  lemma {:induction false} FromLedgerBack(env: Env, s: State, n: nat)
    requires Inv(env, s) && s.pc == PuttingBack(LedgerBack) && n >= 6
    requires Prep(s).current.Inspectable? ==> Live(Wal) !in s.disk && Live(Shm) !in s.disk
    ensures PutBackDone(s, Undisturbed(env, s, n))
  {
    LedgerCompletes(env, s.disk, Prep(s), s.orig);
    FromDropStaged(env, Next(env, s, Done), n - 1);
  }

  lemma {:induction false} FromSidecarBack(env: Env, s: State, n: nat)
    requires Inv(env, s) && s.pc == PuttingBack(SidecarBack(Shm)) && n >= 7
    ensures PutBackDone(s, Undisturbed(env, s, n))
  {
    NextKeepsInv(env, s, Done);
    FromLedgerBack(env, Next(env, s, Done), n - 1);
  }

  lemma {:induction false} FromShm(env: Env, s: State, n: nat)
    requires Inv(env, s) && s.pc == PuttingBack(Sidecar(Shm)) && n >= 8
    requires Prep(s).current.Inspectable? ==> Live(Wal) !in s.disk
    ensures PutBackDone(s, Undisturbed(env, s, n))
  {
    NextKeepsInv(env, s, Done);
    var t := Next(env, s, Done);
    if t.pc == PuttingBack(SidecarBack(Shm)) {
      FromSidecarBack(env, t, n - 1);
    } else {
      FromLedgerBack(env, t, n - 1);
    }
  }

  lemma {:induction false} FromWalBack(env: Env, s: State, n: nat)
    requires Inv(env, s) && s.pc == PuttingBack(SidecarBack(Wal)) && n >= 9
    ensures PutBackDone(s, Undisturbed(env, s, n))
  {
    NextKeepsInv(env, s, Done);
    FromShm(env, Next(env, s, Done), n - 1);
  }

  lemma {:induction false} FromWal(env: Env, s: State, n: nat)
    requires Inv(env, s) && s.pc == PuttingBack(Sidecar(Wal)) && n >= 10
    ensures PutBackDone(s, Undisturbed(env, s, n))
  {
    NextKeepsInv(env, s, Done);
    var t := Next(env, s, Done);
    if t.pc == PuttingBack(SidecarBack(Wal)) {
      FromWalBack(env, t, n - 1);
    } else {
      FromShm(env, t, n - 1);
    }
  }

  lemma {:induction false} FromDropLive(env: Env, s: State, n: nat)
    requires Inv(env, s) && s.pc == PuttingBack(DropLive) && n >= 11
    ensures PutBackDone(s, Undisturbed(env, s, n))
  {
    NextKeepsInv(env, s, Done);
    FromWal(env, Next(env, s, Done), n - 1);
  }

  /** With no rollback copy left, an opaque set is home whole and an inspectable Ledger is home; the
      latter still counts as bound exactly when no write-ahead log is pending beside it. */
  lemma HomeWithoutAsides(env: Env, d: Disk, p: PreparedRestore, orig: Files)
    requires StillBound(env, orig, p.current) && NoLoss(d, p, orig)
    requires NoAsides(d, p.intentId) && UnboundGone(d, p)
    ensures p.current.Opaque? ==> LiveFiles(d) == orig
    ensures Look(d, Live(Ledger)) == Look(orig, Ledger)
    ensures StillBound(env, LiveFiles(d), p.current) <==> p.current.Opaque? || !WalPending(d)
  {
    assert KeptAtHome(d, p, orig, Ledger) && KeptAtHome(d, p, orig, Wal) && KeptAtHome(d, p, orig, Shm);
    if p.current.Opaque? {
      assert orig.Keys == p.current.files.Keys;
      forall m: Member
        ensures Look(LiveFiles(d), m) == Look(orig, m)
      {
        match m
        case Ledger =>
        case Wal =>
        case Shm =>
      }
      LookExtensional(LiveFiles(d), orig);
    } else {
      assert LiveFiles(d)[Ledger] == orig[Ledger];
    }
  }

  predicate WalPending(d: Disk) { Live(Wal) in d && d[Live(Wal)] != [] }

  ghost predicate LiveHome(d: Disk, p: PreparedRestore, orig: Files) {
    if p.current.Opaque? then LiveFiles(d) == orig else Look(d, Live(Ledger)) == Look(orig, Ledger)
  }

  function PassOutcome(d: Disk, p: PreparedRestore): Outcome {
    if Aside(p.intentId, Ledger) in d then RecoveryPutBack
    else if p.current.Opaque? || !WalPending(d) then FailedBeforeReplacement
    else RecoveryFailed
  }

  /** The end `u` of an undisturbed pass that began with the files of `s`. */
  ghost predicate PassEnds(env: Env, s: State, u: State)
    requires IsExecuting(s.control)
  {
    var p := Prep(s);
    && Over(s, p, u, PassOutcome(s.disk, p))
    && NothingLeft(u.disk, p.intentId)
    && LiveHome(u.disk, p, s.orig)
    && (if Aside(p.intentId, Ledger) in s.disk then SettingsBack(s, u) && LiveBack(u.disk, p, s.orig)
        else u.settings == s.settings)
    && (PassOutcome(s.disk, p) != RecoveryFailed ==> StillBound(env, LiveFiles(u.disk), p.current))
  }

  lemma {:induction false} FromFindAside(env: Env, s: State, n: nat)
    requires Inv(env, s) && s.pc == PuttingBack(FindAside) && n >= 12
    ensures PassEnds(env, s, Undisturbed(env, s, n))
  {
    NextKeepsInv(env, s, Done);
    var p := Prep(s);
    if Aside(p.intentId, Ledger) in s.disk {
      FromDropLive(env, Next(env, s, Done), n - 1);
      LiveBackIsBound(env, Undisturbed(env, s, n).disk, p, s.orig);
    } else {
      HomeWithoutAsides(env, s.disk, p, s.orig);
      StagedAside(s.disk, p.intentId);
      FromDropStagedEarly(env, Next(env, s, Done), n - 1);
    }
  }

  lemma {:induction false} FromBegin(env: Env, s: State, n: nat)
    requires Inv(env, s) && s.pc == PuttingBack(Begin) && n >= 13
    ensures PassEnds(env, s, Undisturbed(env, s, n))
  {
    NextKeepsInv(env, s, Done);
    FromFindAside(env, Next(env, s, Done), n - 1);
  }

  /** From any crash after the move was journaled and before an outcome was recorded, however many
      interrupted passes came before, one undisturbed pass ends the restore with every bound member
      back in its live name and nothing at the staged or rollback names. It reports the previous set
      put back exactly when the rollback copy was still there. */
  lemma PassPutsBack(env: Env, s: State, now: int)
    requires Inv(env, s) && s.pc == Down
    requires IsExecuting(s.control) && Rank(s.control.active.value.phase) >= Rank(MovingLiveAside)
    ensures PassEnds(env, s, PutBackPass(env, s, now))
  {
    NextKeepsInv(env, s, Start(now));
    FromBegin(env, Next(env, s, Start(now)), 14);
  }

  /** The settings end as the preimage exactly when the rollback copy was still there or they already
      matched: a pass that finds the Ledger home never reads the preimage. */
  lemma SettingsAfterPass(env: Env, s: State, now: int)
    requires Inv(env, s) && s.pc == Down
    requires IsExecuting(s.control) && Rank(s.control.active.value.phase) >= Rank(MovingLiveAside)
    ensures
      PutBackPass(env, s, now).settings.body == s.preimage.value.body
      <==> Aside(Prep(s).intentId, Ledger) in s.disk || s.settings.body == s.preimage.value.body
  {
    PassPutsBack(env, s, now);
  }

  /** A crash before the move was journaled leaves every live file as it was. */
  lemma {:induction false} PassBeforeTheMove(env: Env, s: State, now: int)
    requires Inv(env, s) && s.pc == Down
    requires IsExecuting(s.control) && Rank(s.control.active.value.phase) <= Rank(Staging)
    ensures
      var p, u := Prep(s), PutBackPass(env, s, now);
      && Over(s, p, u, FailedBeforeReplacement)
      && NothingLeft(u.disk, p.intentId)
      && LiveFiles(u.disk) == LiveFiles(s.disk)
      && u.settings == s.settings
  {
    var a := Next(env, s, Start(now));
    var b := Next(env, a, Done);
    assert PutBackPass(env, s, now) == Undisturbed(env, a, 14) == Undisturbed(env, b, 13);
    StagedAside(s.disk, Prep(s).intentId);
    FromFinishing(env, b, 13);
  }
}
