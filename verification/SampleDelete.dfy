// Deleting the sample: approved once, renamed aside, recorded, then removed.
// The rename alone decides what a start after a crash records.

module SampleDelete {
  import opened Prelude

  type Folder = seq<byte>

  datatype Prepared = Prepared(intentId: string, payload: string, binding: string, expiresAt: int)

  datatype Active =
    | DeletePrepared(prepared: Prepared)
    | Deleting(prepared: Prepared, idempotencyId: string, receipt: string)

  datatype Outcome = Deleted | NotDeleted

  datatype Terminal = Terminal(operationId: string, intentId: string, receipt: string, outcome: Outcome)

  datatype Refusal = InvalidIdentifier | PayloadMismatch | OperationInProgress | NotPrepared | Expired | Changed

  datatype Control = Control(active: Option<Active>, finished: seq<Terminal>)

  datatype Approval = Approval(intentId: string, payload: string, idempotencyId: string, now: int)

  /** What an approval comes to: an answer given before, a refusal, or consuming the intent. */
  datatype Decision = Answered(outcome: Outcome) | Refused(refusal: Refusal) | Consumed

  function TerminalOf(finished: seq<Terminal>, id: string): Option<Terminal> {
    if finished == [] then None
    else if finished[0].operationId == id then Some(finished[0])
    else TerminalOf(finished[1..], id)
  }

  /** `receiptOf` is a digest of intent, payload and request; `binding` is what exists now. */
  function Approve(receiptOf: (string, string, string) -> string, c: Control, a: Approval, binding: Option<string>)
    : (Decision, Control)
  {
    var known := TerminalOf(c.finished, a.idempotencyId);
    if known.Some? then
      if known.value.intentId != a.intentId then (Refused(InvalidIdentifier), c)
      else if known.value.receipt != receiptOf(a.intentId, a.payload, a.idempotencyId) then (Refused(PayloadMismatch), c)
      else (Answered(known.value.outcome), c)
    else if c.active.Some? && c.active.value.Deleting? then (Refused(OperationInProgress), c)
    else if c.active.None? || c.active.value.prepared.intentId != a.intentId then (Refused(NotPrepared), c)
    else
      var p := c.active.value.prepared;
      if a.now > p.expiresAt then (Refused(Expired), c.(active := None))
      else if p.payload != a.payload then (Refused(PayloadMismatch), c)
      else if binding != Some(p.binding) then (Refused(Changed), c.(active := None))
      else
        (Consumed, c.(active := Some(Deleting(p, a.idempotencyId, receiptOf(a.intentId, p.payload, a.idempotencyId)))))
  }

  datatype Pc = Idle | Rename | MarkAside | Finishing(outcome: Outcome) | Cleanup(id: string) | Down

  /** A request id names its own tombstone. `orig` is a history variable: the sample when its deletion
      was approved. */
  datatype State = State(
    canonical: Option<Folder>, tombstones: map<string, Folder>, control: Control, pending: set<string>, pc: Pc,
    orig: Option<Folder>)

  datatype Event =
    | Done | Fault | Crash | Start
    | Prepare(prepared: Prepared) | Reject(intentId: string) | ApproveWith(approval: Approval, binding: Option<string>)
    | Use(folder: Folder) | Sweep(id: string)

  predicate IsDeleting(c: Control) { c.active.Some? && c.active.value.Deleting? }

  function Finish(c: Control, o: Outcome): Control
    requires IsDeleting(c)
  {
    var d := c.active.value;
    Control(None, c.finished + [Terminal(d.idempotencyId, d.prepared.intentId, d.receipt, o)])
  }

  /** While nothing is being deleted, or left over from before. A binding exists only of a sample that
      does; a folder recorded for removal goes, or stays recorded. */
  function AtRest(receiptOf: (string, string, string) -> string, s: State, e: Event): State {
    match e
    case Prepare(p) => if s.control.active.None? then s.(control := s.control.(active := Some(DeletePrepared(p)))) else s
    case Reject(intentId) =>
      if s.control.active.Some? && s.control.active.value.DeletePrepared?
         && s.control.active.value.prepared.intentId == intentId
      then s.(control := s.control.(active := None)) else s
    case ApproveWith(a, binding) =>
      if s.canonical.None? && binding.Some? then s
      else
        var r := Approve(receiptOf, s.control, a, binding);
        if r.0 == Consumed then s.(control := r.1, pc := Rename, orig := s.canonical) else s.(control := r.1)
    case Use(folder) => if IsDeleting(s.control) then s else s.(canonical := Some(folder))
    case Sweep(id) => if id in s.pending then s.(tombstones := s.tombstones - {id}, pending := s.pending - {id}) else s
    case _ => s
  }

  function Next(receiptOf: (string, string, string) -> string, s: State, e: Event): State {
    if e.Crash? then s.(pc := Down)
    else
      match s.pc
      case Idle => AtRest(receiptOf, s, e)
      case Rename =>
        if e.Done? && IsDeleting(s.control) && s.canonical.Some? then
          s.(canonical := None, tombstones := s.tombstones[s.control.active.value.idempotencyId := s.canonical.value],
             pc := MarkAside)
        else s.(pc := Finishing(NotDeleted))
      case MarkAside => if e.Done? then s.(pc := Finishing(Deleted)) else s.(pc := Idle)
      case Finishing(o) =>
        if e.Done? && IsDeleting(s.control) then
          s.(control := Finish(s.control, o),
             pc := if o == Deleted then Cleanup(s.control.active.value.idempotencyId) else Idle)
        else s.(pc := Idle)
      case Cleanup(id) =>
        if e.Done? then s.(tombstones := s.tombstones - {id}, pc := Idle)
        else s.(pending := s.pending + {id}, pc := Idle)
      case Down =>
        if !e.Start? then s
        else if !IsDeleting(s.control) then s.(control := s.control.(active := None), pc := Idle)
        else
          var renamed := s.control.active.value.idempotencyId in s.tombstones || s.canonical.None?;
          s.(pc := Finishing(if renamed then Deleted else NotDeleted))
  }

  function Run(receiptOf: (string, string, string) -> string, s: State, es: seq<Event>): State
    decreases |es|
  {
    if es == [] then s else Run(receiptOf, Next(receiptOf, s, es[0]), es[1..])
  }

  predicate Initial(s: State) {
    s.tombstones == map[] && s.control == Control(None, []) && s.pc == Idle && s.pending == {}
  }

  predicate Intact(s: State, id: string) { s.canonical == s.orig && id !in s.tombstones }

  predicate Gone(s: State, id: string) { s.canonical.None? && Look(s.tombstones, id) == s.orig }

  predicate Known(c: Control, id: string) { exists t :: t in c.finished && t.operationId == id }

  /** What the active deletion relies on. */
  predicate DeletingInv(s: State) {
    IsDeleting(s.control) ==>
      var id := s.control.active.value.idempotencyId;
      && s.orig.Some? && !Known(s.control, id) && (Intact(s, id) || Gone(s, id))
      && (s.pc == Rename ==> Intact(s, id))
      && (s.pc == MarkAside || s.pc == Finishing(Deleted) ==> Gone(s, id))
      && (s.pc == Finishing(NotDeleted) ==> Intact(s, id))
  }

  /** Tombstones, and what is recorded for removal, are of deletions recorded or under way. */
  predicate TombstonesInv(s: State) {
    && (forall id :: id in s.tombstones ==>
          Known(s.control, id) || (IsDeleting(s.control) && s.control.active.value.idempotencyId == id))
    && (forall id :: id in s.pending ==> Known(s.control, id))
    && (s.pc.Cleanup? ==> Known(s.control, s.pc.id))
  }

  predicate Inv(s: State) {
    && DeletingInv(s) && TombstonesInv(s)
    && (s.pc == Rename || s.pc == MarkAside || s.pc.Finishing? ==> IsDeleting(s.control))
  }

  lemma KnownMore(c: Control, t: Terminal, id: string)
    ensures Known(Control(None, c.finished + [t]), id) <==> Known(c, id) || t.operationId == id
  {
    var d := Control(None, c.finished + [t]);
    if u :| u in c.finished && u.operationId == id {
      assert u in d.finished;
    }
    assert t in d.finished;
  }

  lemma AtRestKeepsInv(receiptOf: (string, string, string) -> string, s: State, e: Event)
    requires Inv(s) && s.pc == Idle
    ensures Inv(AtRest(receiptOf, s, e))
  {
    if e.ApproveWith? && TerminalOf(s.control.finished, e.approval.idempotencyId).None? {
      TerminalOfNone(s.control.finished, e.approval.idempotencyId);
    }
    var t := AtRest(receiptOf, s, e);
    assert t.control.finished == s.control.finished;
    assert forall id :: Known(t.control, id) <==> Known(s.control, id);
  }

  lemma FinishKeepsInv(receiptOf: (string, string, string) -> string, s: State, e: Event)
    requires Inv(s) && s.pc.Finishing?
    ensures Inv(Next(receiptOf, s, e))
  {
    if e.Done? {
      var t := Finish(s.control, s.pc.outcome).finished[|s.control.finished|];
      forall id { KnownMore(s.control, t, id); }
    }
  }

  lemma NextKeepsInv(receiptOf: (string, string, string) -> string, s: State, e: Event)
    requires Inv(s)
    ensures Inv(Next(receiptOf, s, e))
  {
    if e.Crash? {
    } else if s.pc == Idle {
      AtRestKeepsInv(receiptOf, s, e);
    } else if s.pc.Finishing? {
      FinishKeepsInv(receiptOf, s, e);
    } else {
      var t := Next(receiptOf, s, e);
      assert t.control.finished == s.control.finished;
      assert forall id :: Known(t.control, id) <==> Known(s.control, id);
    }
  }

  lemma {:induction false} RunKeepsInv(receiptOf: (string, string, string) -> string, s: State, es: seq<Event>)
    requires Inv(s)
    ensures Inv(Run(receiptOf, s, es))
    decreases |es|
  {
    if es == [] {
    } else {
      NextKeepsInv(receiptOf, s, es[0]);
      RunKeepsInv(receiptOf, Next(receiptOf, s, es[0]), es[1..]);
    }
  }

  /** In every run, with crashes and failures anywhere and whatever earlier deletions left behind, the
      step that records a terminal records `Deleted` exactly when the sample is gone from its place and
      whole at its own tombstone, and `NotDeleted` exactly when it is there as it was approved. */
  lemma {:induction false} DeletionIsTrue(
    receiptOf: (string, string, string) -> string, s: State, es: seq<Event>, e: Event)
    requires Initial(s)
    ensures
      var t := Run(receiptOf, s, es);
      var u := Next(receiptOf, t, e);
      |u.control.finished| > |t.control.finished| ==>
        var last := u.control.finished[|t.control.finished|];
        && u.control.active.None? && u.orig.Some?
        && (last.outcome == Deleted <==> u.canonical.None? && Look(u.tombstones, last.operationId) == u.orig)
        && (last.outcome == NotDeleted <==> u.canonical == u.orig && last.operationId !in u.tombstones)
  {
    RunKeepsInv(receiptOf, s, es);
  }

  predicate Answers(receiptOf: (string, string, string) -> string, t: Terminal, a: Approval) {
    && t.operationId == a.idempotencyId && t.intentId == a.intentId
    && t.receipt == receiptOf(a.intentId, a.payload, a.idempotencyId)
  }

  /** A preview is consumed only while it is exactly what exists, and an answer already given is
      repeated only for the same preview and payload. */
  lemma {:induction false} ApprovalIsBound(
    receiptOf: (string, string, string) -> string, c: Control, a: Approval, binding: Option<string>)
    ensures
      var r := Approve(receiptOf, c, a, binding);
      && (r.0 == Consumed <==>
            && TerminalOf(c.finished, a.idempotencyId).None?
            && c.active.Some? && c.active.value.DeletePrepared?
            && var p := c.active.value.prepared;
               p.intentId == a.intentId && a.now <= p.expiresAt && p.payload == a.payload && binding == Some(p.binding))
      && (r.0.Answered? ==>
            && r.1 == c
            && exists t :: t in c.finished && Answers(receiptOf, t, a) && t.outcome == r.0.outcome)
      && r.1.finished == c.finished
  {
    if TerminalOf(c.finished, a.idempotencyId).Some? {
      TerminalOfHas(c.finished, a.idempotencyId);
    }
  }

  lemma {:induction false} TerminalOfNone(finished: seq<Terminal>, id: string)
    requires TerminalOf(finished, id).None?
    ensures forall t :: t in finished ==> t.operationId != id
  {
    if finished == [] {
    } else {
      assert finished == [finished[0]] + finished[1..];
      TerminalOfNone(finished[1..], id);
    }
  }

  lemma {:induction false} TerminalOfHas(finished: seq<Terminal>, id: string)
    requires TerminalOf(finished, id).Some?
    ensures
      var t := TerminalOf(finished, id).value;
      t in finished && t.operationId == id
  {
    if finished[0].operationId != id {
      TerminalOfHas(finished[1..], id);
    }
  }

  /** What each refusal means, and what it leaves: only an expired or changed preview is dropped. */
  lemma RefusalsAre(receiptOf: (string, string, string) -> string, c: Control, a: Approval, binding: Option<string>)
    ensures
      var r := Approve(receiptOf, c, a, binding);
      var known := TerminalOf(c.finished, a.idempotencyId);
      var waits := known.None? && c.active.Some? && c.active.value.DeletePrepared?
                   && c.active.value.prepared.intentId == a.intentId;
      && (r.0 == Refused(InvalidIdentifier) <==> known.Some? && known.value.intentId != a.intentId)
      && (r.0 == Refused(OperationInProgress) <==> known.None? && IsDeleting(c))
      && (r.0 == Refused(NotPrepared) <==> known.None? && !IsDeleting(c) && !waits)
      && (r.0 == Refused(Expired) <==> waits && a.now > c.active.value.prepared.expiresAt)
      && (r.0 == Refused(Changed) <==>
            waits && a.now <= c.active.value.prepared.expiresAt && a.payload == c.active.value.prepared.payload
            && binding != Some(c.active.value.prepared.binding))
      && (r.0.Refused? ==>
            r.1 == if r.0.refusal == Expired || r.0.refusal == Changed then c.(active := None) else c)
      && (r.0 == Consumed ==>
            r.1 == c.(active := Some(Deleting(c.active.value.prepared, a.idempotencyId,
                                              receiptOf(a.intentId, a.payload, a.idempotencyId)))))
  {
  }

  function Undisturbed(receiptOf: (string, string, string) -> string, s: State, n: nat): State
    decreases n
  {
    if n == 0 then s else Undisturbed(receiptOf, Next(receiptOf, s, Done), n - 1)
  }

  /** A deletion left alone, from its consumed approval: the sample and its tombstone are gone, nothing
      else has moved, and `Deleted` is recorded for the request. */
  lemma DeletionAlone(receiptOf: (string, string, string) -> string, s: State, a: Approval, binding: Option<string>)
    requires Inv(s) && s.pc == Idle && s.canonical.Some?
    requires Approve(receiptOf, s.control, a, binding).0 == Consumed
    ensures
      var t := Undisturbed(receiptOf, Next(receiptOf, s, ApproveWith(a, binding)), 4);
      && t.pc == Idle && t.canonical.None? && t.tombstones == s.tombstones - {a.idempotencyId}
      && t.pending == s.pending && t.control.active.None?
      && t.control.finished ==
         s.control.finished
         + [Terminal(a.idempotencyId, a.intentId, receiptOf(a.intentId, a.payload, a.idempotencyId), Deleted)]
  {
    var b := Next(receiptOf, s, ApproveWith(a, binding));
    var c := Next(receiptOf, b, Done);
    var d := Next(receiptOf, c, Done);
    var e := Next(receiptOf, d, Done);
    assert Undisturbed(receiptOf, b, 4) == Undisturbed(receiptOf, c, 3) == Undisturbed(receiptOf, d, 2)
           == Undisturbed(receiptOf, e, 1) == Undisturbed(receiptOf, Next(receiptOf, e, Done), 0);
    RefusalsAre(receiptOf, s.control, a, binding);
  }

  /** After a crash a start left alone records the interrupted deletion: `Deleted` exactly if the sample
      had left its place, and then its tombstone goes too. */
  lemma StartAlone(receiptOf: (string, string, string) -> string, s: State)
    requires Inv(s) && s.pc == Down && IsDeleting(s.control)
    ensures
      var id := s.control.active.value.idempotencyId;
      var t := Undisturbed(receiptOf, Next(receiptOf, s, Start), 2);
      && t.pc == Idle && t.control.active.None? && t.canonical == s.canonical && id !in t.tombstones
      && |t.control.finished| == |s.control.finished| + 1
      && t.control.finished[|s.control.finished|].operationId == id
      && (t.control.finished[|s.control.finished|].outcome == Deleted <==> s.canonical.None?)
  {
    var a := Next(receiptOf, s, Start);
    var b := Next(receiptOf, a, Done);
    assert Undisturbed(receiptOf, a, 2) == Undisturbed(receiptOf, b, 1)
           == Undisturbed(receiptOf, Next(receiptOf, b, Done), 0);
  }
}
