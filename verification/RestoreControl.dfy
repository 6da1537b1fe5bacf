// The restore control record: one active operation and the terminals of
// finished ones. Every change is one atomic update that either replaces the
// whole record or writes nothing; the updates of all callers interleave freely.

module RestoreControl {
  import opened Prelude

  datatype Member = Ledger | Wal | Shm

  datatype LedgerBinding = LedgerBinding(
    schemaVersion: nat, ledgerRevision: nat, inventorySha256: string, contentSha256: string)

  datatype MemberBinding = MemberBinding(length: nat, sha256: string)

  /** What a restore replaces: a Ledger that could be inspected, or an exact file set. */
  datatype SourceBinding =
    | Inspectable(binding: LedgerBinding)
    | Opaque(files: map<Member, MemberBinding>)

  datatype RecoveryEvidence =
    | OperationalBackup(archiveId: string)
    | PreservationCopy(preservationId: string, files: map<Member, MemberBinding>)

  datatype UnopenedReason = UpgradeRequired | UnsupportedOld | OpenFailed | RestoreRecoveryRequired

  datatype PreparedRestore = PreparedRestore(
    intentId: string,
    payloadSha256: string,
    archiveSchemaVersion: nat,
    archiveLedgerRevision: nat,
    snapshotSha256: string,
    inventorySha256: string,
    current: SourceBinding,
    unopenedReason: Option<UnopenedReason>,
    settingsRevision: nat,
    recovery: RecoveryEvidence,
    confirmationDate: string,
    expiresAt: int)

  /** Each phase is written before the step it names is taken. */
  datatype Phase =
    Approved | Staging | MovingLiveAside | Installing | ApplyingSettings | Verifying | RollingBack

  datatype Operation =
    | Prepared(prepared: PreparedRestore)
    | Executing(prepared: PreparedRestore, idempotencyId: string, receiptId: string,
                approvedAt: int, phase: Phase)

  datatype Outcome = Restored | FailedBeforeReplacement | RecoveryPutBack | RecoveryFailed

  datatype Terminal = Terminal(
    idempotencyId: string,
    intentId: string,
    outcome: Outcome,
    recovery: RecoveryEvidence,
    completedAt: int,
    projectionsPendingFor: Option<string>,
    resolvedRecoveryFailure: Option<string>)

  datatype Control = Control(active: Option<Operation>, finished: seq<Terminal>)

  datatype Refusal = AnotherRestoreActive | NotPrepared | DigestMismatch | ConfirmationMismatch

  /** The record after one update, and what the caller is told. */
  datatype Decision<+R> = Decision(control: Control, reply: Result<R, Refusal>)

  function Rank(phase: Phase): nat {
    match phase
    case Approved => 0
    case Staging => 1
    case MovingLiveAside => 2
    case Installing => 3
    case ApplyingSettings => 4
    case Verifying => 5
    case RollingBack => 6
  }

  predicate IsExecuting(c: Control) { c.active.Some? && c.active.value.Executing? }

  predicate IsPrepared(c: Control) { c.active.Some? && c.active.value.Prepared? }

  // ---- The updates ----

  /** Checking another archive drops a preview that was only prepared. */
  function DropForCheck(c: Control): Decision<()> {
    if IsExecuting(c) then Decision(c, Err(AnotherRestoreActive))
    else Decision(c.(active := None), Ok(()))
  }

  function CommitPrepared(c: Control, p: PreparedRestore): Decision<()> {
    if IsExecuting(c) then Decision(c, Err(AnotherRestoreActive))
    else Decision(c.(active := Some(Prepared(p))), Ok(()))
  }

  function Reject(c: Control, intentId: string): Decision<()> {
    if IsPrepared(c) && c.active.value.prepared.intentId == intentId then
      Decision(c.(active := None), Ok(()))
    else Decision(c, Err(NotPrepared))
  }

  /** Startup drops whatever preview it finds, without looking again. */
  function DropPrepared(c: Control): Decision<()> {
    Decision(c.(active := None), Ok(()))
  }

  datatype Approval = Approval(
    intentId: string, acknowledged: string, typedDate: string,
    idempotencyId: string, receiptId: string, now: int)

  function FindFinished(finished: seq<Terminal>, idempotencyId: string): Option<Terminal> {
    if finished == [] then None
    else if finished[0].idempotencyId == idempotencyId then Some(finished[0])
    else FindFinished(finished[1..], idempotencyId)
  }

  /** `digest` is the SHA-256 of the preview text, left uninterpreted. */
  function Approve(c: Control, digest: PreparedRestore -> string, a: Approval): Decision<Option<Outcome>> {
    var repeated := FindFinished(c.finished, a.idempotencyId);
    if repeated.Some? then Decision(c, Ok(Some(repeated.value.outcome)))
    else if !IsPrepared(c) then Decision(c, Err(NotPrepared))
    else
      var p := c.active.value.prepared;
      if p.intentId != a.intentId || a.now > p.expiresAt then Decision(c, Err(NotPrepared))
      else if p.payloadSha256 != a.acknowledged || digest(p) != p.payloadSha256 then
        Decision(c, Err(DigestMismatch))
      else if a.typedDate != p.confirmationDate then Decision(c, Err(ConfirmationMismatch))
      else
        Decision(c.(active := Some(Executing(p, a.idempotencyId, a.receiptId, a.now, Approved))), Ok(None))
  }

  /** The compare-and-set that lets exactly one executor proceed. */
  function Advance(c: Control, from: Phase, to: Phase): Decision<()> {
    if IsExecuting(c) && c.active.value.phase == from then
      Decision(c.(active := Some(c.active.value.(phase := to))), Ok(()))
    else Decision(c, Err(NotPrepared))
  }

  function BeginRollBack(c: Control): Decision<()> {
    if IsExecuting(c) && Rank(c.active.value.phase) >= Rank(MovingLiveAside) then
      Decision(c.(active := Some(c.active.value.(phase := RollingBack))), Ok(()))
    else Decision(c, Err(NotPrepared))
  }

  /** The position of the newest `RecoveryFailed` terminal. */
  function NewestFailure(finished: seq<Terminal>): (i: Option<nat>)
    ensures i.Some? ==>
              && i.value < |finished| && finished[i.value].outcome == RecoveryFailed
              && forall k :: i.value < k < |finished| ==> finished[k].outcome != RecoveryFailed
    ensures i.None? ==> forall k :: 0 <= k < |finished| ==> finished[k].outcome != RecoveryFailed
  {
    if finished == [] then None
    else if finished[|finished| - 1].outcome == RecoveryFailed then Some(|finished| - 1)
    else NewestFailure(finished[..|finished| - 1])
  }

  /** The newest failed recovery that no later terminal names as resolved. */
  function UnresolvedFailure(finished: seq<Terminal>): Option<Terminal> {
    var i := NewestFailure(finished);
    if i.None? then None
    else if exists k :: i.value < k < |finished|
                        && finished[k].resolvedRecoveryFailure == Some(finished[i.value].idempotencyId)
    then None
    else Some(finished[i.value])
  }

  function TerminalOf(c: Control, outcome: Outcome, pending: Option<string>, now: int): Terminal
    requires IsExecuting(c)
  {
    var op := c.active.value;
    var unresolved := UnresolvedFailure(c.finished);
    var resolved :=
      if outcome == Restored && op.prepared.unopenedReason == Some(RestoreRecoveryRequired) && unresolved.Some?
      then Some(unresolved.value.idempotencyId)
      else None;
    Terminal(op.idempotencyId, op.prepared.intentId, outcome, op.prepared.recovery, now, pending, resolved)
  }

  function Finish(c: Control, outcome: Outcome, pending: Option<string>, now: int): Decision<Outcome> {
    if IsExecuting(c) then
      Decision(Control(None, c.finished + [TerminalOf(c, outcome, pending, now)]), Ok(outcome))
    else Decision(c, Err(NotPrepared))
  }

  /** `None` stands for a record that cannot be read. */
  predicate NeedsRecovery(loaded: Option<Control>) {
    loaded.None? || IsExecuting(loaded.value) || UnresolvedFailure(loaded.value.finished).Some?
  }

  // ---- All interleavings of the updates ----

  datatype Request =
    | CheckArchive
    | Prepare(prepared: PreparedRestore)
    | RejectIntent(intentId: string)
    | ApproveIntent(approval: Approval)
    | AdvancePhase(from: Phase, to: Phase)
    | RollBackPhase
    | FinishWith(outcome: Outcome, pending: Option<string>, now: int)
    | DropAtStartup

  /** The record, and the intent ids ever used: the host draws a fresh one for each preview. */
  datatype Record = Record(control: Control, issued: set<string>)

  const EMPTY := Record(Control(None, []), {})

  predicate Possible(r: Record, q: Request) {
    match q
    case Prepare(p) => p.intentId !in r.issued
    case AdvancePhase(from, to) => Rank(to) == Rank(from) + 1 && to != RollingBack
    case _ => true
  }

  function Apply(digest: PreparedRestore -> string, r: Record, q: Request): Record {
    if !Possible(r, q) then r else
    match q
    case CheckArchive => r.(control := DropForCheck(r.control).control)
    case Prepare(p) => Record(CommitPrepared(r.control, p).control, r.issued + {p.intentId})
    case RejectIntent(id) => r.(control := Reject(r.control, id).control)
    case ApproveIntent(a) => r.(control := Approve(r.control, digest, a).control)
    case AdvancePhase(from, to) => r.(control := Advance(r.control, from, to).control)
    case RollBackPhase => r.(control := BeginRollBack(r.control).control)
    case FinishWith(o, pending, now) => r.(control := Finish(r.control, o, pending, now).control)
    case DropAtStartup => r.(control := DropPrepared(r.control).control)
  }

  function ApplyAll(digest: PreparedRestore -> string, r: Record, qs: seq<Request>): Record
    decreases |qs|
  {
    if qs == [] then r else ApplyAll(digest, Apply(digest, r, qs[0]), qs[1..])
  }

  ghost predicate Distinct(finished: seq<Terminal>) {
    forall i, j :: 0 <= i < j < |finished| ==>
      finished[i].idempotencyId != finished[j].idempotencyId && finished[i].intentId != finished[j].intentId
  }

  ghost predicate Consistent(r: Record) {
    && Distinct(r.control.finished)
    && (forall t :: t in r.control.finished ==> t.intentId in r.issued)
    && (r.control.active.Some? ==>
          var id := r.control.active.value.prepared.intentId;
          id in r.issued && forall t :: t in r.control.finished ==> t.intentId != id)
    && (IsExecuting(r.control) ==>
          forall t :: t in r.control.finished ==> t.idempotencyId != r.control.active.value.idempotencyId)
  }

  lemma FindFinishedNone(finished: seq<Terminal>, idempotencyId: string)
    requires FindFinished(finished, idempotencyId).None?
    ensures forall t :: t in finished ==> t.idempotencyId != idempotencyId
  {
    if finished != [] {
      assert finished == [finished[0]] + finished[1..];
      FindFinishedNone(finished[1..], idempotencyId);
    }
  }

  lemma {:induction false} FindFinishedSome(finished: seq<Terminal>, idempotencyId: string)
    requires FindFinished(finished, idempotencyId).Some?
    ensures
      var t := FindFinished(finished, idempotencyId).value;
      t in finished && t.idempotencyId == idempotencyId
  {
    if finished[0].idempotencyId != idempotencyId {
      FindFinishedSome(finished[1..], idempotencyId);
    }
  }

  lemma {:induction false} ApplyKeepsConsistent(digest: PreparedRestore -> string, r: Record, q: Request)
    requires Consistent(r)
    ensures Consistent(Apply(digest, r, q))
    ensures r.control.finished <= Apply(digest, r, q).control.finished
    ensures r.issued <= Apply(digest, r, q).issued
  {
    if q.ApproveIntent? && FindFinished(r.control.finished, q.approval.idempotencyId).None? {
      FindFinishedNone(r.control.finished, q.approval.idempotencyId);
    }
  }

  /** Over every interleaving, finished idempotency and intent ids stay pairwise distinct. */
  lemma {:induction false} TerminalsStayDistinct(digest: PreparedRestore -> string, r: Record, qs: seq<Request>)
    requires Consistent(r)
    ensures Consistent(ApplyAll(digest, r, qs))
    ensures r.control.finished <= ApplyAll(digest, r, qs).control.finished
    decreases |qs|
  {
    if qs == [] {
    } else {
      ApplyKeepsConsistent(digest, r, qs[0]);
      TerminalsStayDistinct(digest, Apply(digest, r, qs[0]), qs[1..]);
    }
  }

  // ---- Single use ----

  predicate ExecutesIntent(c: Control, id: string) {
    IsExecuting(c) && c.active.value.prepared.intentId == id
  }

  /** How many steps of a run take the record into executing intent `id`. */
  function Claims(digest: PreparedRestore -> string, r: Record, qs: seq<Request>, id: string): nat
    decreases |qs|
  {
    if qs == [] then 0
    else
      var next := Apply(digest, r, qs[0]);
      (if !ExecutesIntent(r.control, id) && ExecutesIntent(next.control, id) then 1 else 0)
      + Claims(digest, next, qs[1..], id)
  }

  predicate Claimable(r: Record, id: string) {
    id !in r.issued || (IsPrepared(r.control) && r.control.active.value.prepared.intentId == id)
  }

  /** An intent enters `Executing` at most once, and never again once it has been claimed. */
  lemma {:induction false} ClaimedAtMostOnce(
    digest: PreparedRestore -> string, r: Record, qs: seq<Request>, id: string)
    requires Consistent(r)
    ensures Claims(digest, r, qs, id) <= if Claimable(r, id) then 1 else 0
    decreases |qs|
  {
    if qs == [] {
    } else {
      ApplyKeepsConsistent(digest, r, qs[0]);
      var next := Apply(digest, r, qs[0]);
      ClaimedAtMostOnce(digest, next, qs[1..], id);
      assert Claimable(next, id) ==> Claimable(r, id) && !ExecutesIntent(next.control, id);
    }
  }

  function TerminalsFor(finished: seq<Terminal>, id: string): nat {
    if finished == [] then 0
    else (if finished[0].intentId == id then 1 else 0) + TerminalsFor(finished[1..], id)
  }

  lemma {:induction false} DistinctCounts(finished: seq<Terminal>, id: string)
    requires Distinct(finished)
    ensures TerminalsFor(finished, id) <= 1
    ensures (forall t :: t in finished ==> t.intentId != id) ==> TerminalsFor(finished, id) == 0
  {
    if finished == [] {
    } else {
      var rest := finished[1..];
      assert forall i :: 0 <= i < |rest| ==> rest[i] == finished[i + 1];
      DistinctCounts(rest, id);
    }
  }

  /** Over all interleavings an intent is executed at most once and gets at most one terminal. */
  lemma SingleUse(digest: PreparedRestore -> string, qs: seq<Request>, id: string)
    ensures Claims(digest, EMPTY, qs, id) <= 1
    ensures TerminalsFor(ApplyAll(digest, EMPTY, qs).control.finished, id) <= 1
  {
    ClaimedAtMostOnce(digest, EMPTY, qs, id);
    TerminalsStayDistinct(digest, EMPTY, qs);
    DistinctCounts(ApplyAll(digest, EMPTY, qs).control.finished, id);
  }

  /** While one intent executes, its approval never changes and its phase only moves on: by one
      named forward step, or to rolling back once a file may have moved. */
  lemma PhaseMovesOn(digest: PreparedRestore -> string, r: Record, q: Request)
    requires Consistent(r) && IsExecuting(r.control)
    ensures
      var before, after := r.control.active.value, Apply(digest, r, q).control.active;
      after.Some? ==>
        && after.value == before.(phase := after.value.phase)
        && (|| after.value.phase == before.phase
            || (Rank(after.value.phase) == Rank(before.phase) + 1 && after.value.phase != RollingBack)
            || (after.value.phase == RollingBack && Rank(before.phase) >= Rank(MovingLiveAside)))
  {
  }

  /** An intent that is neither fresh nor waiting for approval never executes again. */
  lemma {:induction false} NeverAgain(
    digest: PreparedRestore -> string, r: Record, qs: seq<Request>, id: string)
    requires Consistent(r) && !Claimable(r, id) && !ExecutesIntent(r.control, id)
    ensures !ExecutesIntent(ApplyAll(digest, r, qs).control, id)
    decreases |qs|
  {
    if qs == [] {
    } else {
      ApplyKeepsConsistent(digest, r, qs[0]);
      NeverAgain(digest, Apply(digest, r, qs[0]), qs[1..], id);
    }
  }

  /** Over any run, two sightings of one executing intent show the same approval, later phase last. */
  lemma {:induction false} PhasesAreMonotone(
    digest: PreparedRestore -> string, r: Record, qs: seq<Request>)
    requires Consistent(r) && IsExecuting(r.control)
    requires ExecutesIntent(ApplyAll(digest, r, qs).control, r.control.active.value.prepared.intentId)
    ensures
      var before, after := r.control.active.value, ApplyAll(digest, r, qs).control.active.value;
      after == before.(phase := after.phase) && Rank(before.phase) <= Rank(after.phase)
    decreases |qs|
  {
    if qs == [] {
    } else {
      var id := r.control.active.value.prepared.intentId;
      var next := Apply(digest, r, qs[0]);
      ApplyKeepsConsistent(digest, r, qs[0]);
      PhaseMovesOn(digest, r, qs[0]);
      if ExecutesIntent(next.control, id) {
        PhasesAreMonotone(digest, next, qs[1..]);
      } else {
        NeverAgain(digest, next, qs[1..], id);
      }
    }
  }

  lemma {:induction false} FindFinishedPrefix(finished: seq<Terminal>, more: seq<Terminal>, id: string)
    requires finished <= more && FindFinished(finished, id).Some?
    ensures FindFinished(more, id) == FindFinished(finished, id)
  {
    if finished[0].idempotencyId != id {
      FindFinishedPrefix(finished[1..], more[1..], id);
    }
  }

  lemma {:induction false} FindFinishedIs(finished: seq<Terminal>, t: Terminal)
    requires Distinct(finished) && t in finished
    ensures FindFinished(finished, t.idempotencyId) == Some(t)
  {
    if finished[0] != t {
      var rest := finished[1..];
      assert forall i :: 0 <= i < |rest| ==> rest[i] == finished[i + 1];
      var k :| 0 <= k < |finished| && finished[k] == t;
      assert rest[k - 1] == t;
      FindFinishedIs(rest, t);
    }
  }

  /** An approval is consumed exactly if its request is new and it names the prepared restore, in time,
      with the digest of the very preview shown and its date; what it refuses changes nothing. */
  lemma ApprovalIsBound(c: Control, digest: PreparedRestore -> string, a: Approval)
    ensures
      var d := Approve(c, digest, a);
      var unheard := forall t :: t in c.finished ==> t.idempotencyId != a.idempotencyId;
      && (d.reply == Ok(None) <==>
            && unheard && c.active.Some? && c.active.value.Prepared?
            && var p := c.active.value.prepared;
               p.intentId == a.intentId && a.now <= p.expiresAt && p.payloadSha256 == a.acknowledged
               && digest(p) == p.payloadSha256 && a.typedDate == p.confirmationDate)
      && (d.reply == Ok(None) ==>
            d.control ==
            c.(active := Some(Executing(c.active.value.prepared, a.idempotencyId, a.receiptId, a.now, Approved))))
      && (d.reply != Ok(None) ==> d.control == c)
      && (d.reply.Err? ==> unheard)
  {
    if FindFinished(c.finished, a.idempotencyId).None? {
      FindFinishedNone(c.finished, a.idempotencyId);
    } else {
      FindFinishedSome(c.finished, a.idempotencyId);
    }
  }

  /** A repeated approval gets the outcome already recorded, whatever happened since and whatever
      else it says, and changes nothing. */
  lemma RepeatedApprovalAnswers(
    digest: PreparedRestore -> string, r: Record, qs: seq<Request>, t: Terminal, a: Approval)
    requires Consistent(r) && t in r.control.finished && a.idempotencyId == t.idempotencyId
    ensures
      var later := ApplyAll(digest, r, qs).control;
      Approve(later, digest, a) == Decision(later, Ok(Some(t.outcome)))
  {
    TerminalsStayDistinct(digest, r, qs);
    FindFinishedIs(r.control.finished, t);
    FindFinishedPrefix(r.control.finished, ApplyAll(digest, r, qs).control.finished, t.idempotencyId);
  }

  // ---- The recovery latch ----

  /** What one more terminal does to the unresolved failure. */
  lemma UnresolvedAfter(finished: seq<Terminal>, t: Terminal)
    ensures
      var before, after := UnresolvedFailure(finished), UnresolvedFailure(finished + [t]);
      if t.outcome == RecoveryFailed then after == Some(t)
      else if before.Some? && t.resolvedRecoveryFailure != Some(before.value.idempotencyId) then after == before
      else after.None?
  {
    var all := finished + [t];
    assert all[..|all| - 1] == finished;
    var i := NewestFailure(finished);
    assert NewestFailure(all) == if t.outcome == RecoveryFailed then Some(|finished|) else i;
    if t.outcome != RecoveryFailed && i.Some? {
      assert all[i.value] == finished[i.value];
      var key := Some(finished[i.value].idempotencyId);
      if k :| i.value < k < |finished| && finished[k].resolvedRecoveryFailure == key {
        assert all[k].resolvedRecoveryFailure == key;
      }
      if t.resolvedRecoveryFailure == key {
        assert all[|finished|].resolvedRecoveryFailure == key;
      }
    }
  }

  /** A `Restored` terminal of a restore prepared to resolve a failed recovery. */
  predicate Resolves(r: Record, q: Request) {
    q.FinishWith? && q.outcome == Restored && IsExecuting(r.control)
    && r.control.active.value.prepared.unopenedReason == Some(RestoreRecoveryRequired)
  }

  predicate Fails(r: Record, q: Request) {
    q.FinishWith? && q.outcome == RecoveryFailed && IsExecuting(r.control)
  }

  /** One update changes the latch only as its two events say. */
  lemma LatchStep(digest: PreparedRestore -> string, r: Record, q: Request)
    ensures
      var before, after := UnresolvedFailure(r.control.finished),
                           UnresolvedFailure(Apply(digest, r, q).control.finished);
      if Fails(r, q) then
        after.Some? && after.value.idempotencyId == r.control.active.value.idempotencyId
      else if Resolves(r, q) then after.None?
      else after == before
  {
    if q.FinishWith? && IsExecuting(r.control) {
      UnresolvedAfter(r.control.finished, TerminalOf(r.control, q.outcome, q.pending, q.now));
    }
  }

  predicate NoneResolves(digest: PreparedRestore -> string, r: Record, qs: seq<Request>)
    decreases |qs|
  {
    qs != [] ==> !Resolves(r, qs[0]) && NoneResolves(digest, Apply(digest, r, qs[0]), qs[1..])
  }

  predicate NoneFails(digest: PreparedRestore -> string, r: Record, qs: seq<Request>)
    decreases |qs|
  {
    qs != [] ==> !Fails(r, qs[0]) && NoneFails(digest, Apply(digest, r, qs[0]), qs[1..])
  }

  /** Once a recovery failed, the Ledger stays closed in every later state until a restore prepared
      for exactly that succeeds. */
  lemma {:induction false} LatchHolds(digest: PreparedRestore -> string, r: Record, qs: seq<Request>)
    requires UnresolvedFailure(r.control.finished).Some?
    requires NoneResolves(digest, r, qs)
    ensures NeedsRecovery(Some(ApplyAll(digest, r, qs).control))
    ensures UnresolvedFailure(ApplyAll(digest, r, qs).control.finished).Some?
    decreases |qs|
  {
    if qs == [] {
    } else {
      LatchStep(digest, r, qs[0]);
      LatchHolds(digest, Apply(digest, r, qs[0]), qs[1..]);
    }
  }

  /** Such a success clears the latch, and it stays clear until recovery fails again: from then on
      the Ledger is closed only while a restore executes. */
  lemma {:induction false} LatchClears(
    digest: PreparedRestore -> string, r: Record, q: Request, qs: seq<Request>)
    requires Resolves(r, q)
    requires NoneFails(digest, Apply(digest, r, q), qs)
    ensures
      var later := ApplyAll(digest, Apply(digest, r, q), qs).control;
      NeedsRecovery(Some(later)) <==> IsExecuting(later)
  {
    LatchStep(digest, r, q);
    LatchStaysClear(digest, Apply(digest, r, q), qs);
  }

  lemma {:induction false} LatchStaysClear(digest: PreparedRestore -> string, r: Record, qs: seq<Request>)
    requires UnresolvedFailure(r.control.finished).None?
    requires NoneFails(digest, r, qs)
    ensures UnresolvedFailure(ApplyAll(digest, r, qs).control.finished).None?
    decreases |qs|
  {
    if qs == [] {
    } else {
      LatchStep(digest, r, qs[0]);
      LatchStaysClear(digest, Apply(digest, r, qs[0]), qs[1..]);
    }
  }
}
