// Deriving attention flags from read-only snapshots. Every kind of record has
// its checks; what is raised is sorted by target and reason.

module Attention {
  import opened Prelude
  import opened Sorting
  import opened Classification

  /** The bytes of an id, compared as strings are, byte by byte. */
  type Text = seq<byte>

  datatype Kind = ActionRequest | Action | DecisionRequest | Risk | Issue

  datatype Target = Target(kind: Kind, id: Text)

  datatype Reason =
    | ActionRequestNeedsInfo | ActionRequestStale | ActionRequestMissingIntendedOwner
    | ActionRequestResponseDue | ActionRequestResponseOverdue
    | ActionBlocked | ActionOverdue | ActionAtRisk | ActionNeedsEvidence
    | ActionEvidenceVerificationPending | ActionSupersededPremise
    | DecisionRequestNeedsInfo | DecisionRequestMissingDecisionOwner
    | DecisionRequestApproachingDeadline | DecisionRequestOverdue | DecisionRequestStale
    | RiskReviewDue | RiskExposureIncreased | RiskEvidenceStale | RiskControlInvalid | RiskMissingOwner
    | IssueBlocked | IssueResolutionDue | IssueResolutionOverdue | IssueNeedsEvidence | IssueStale
    | IssueRecurrence

  datatype Freshness = Fresh | Stale | UnknownFreshness

  datatype Metadata = Metadata(level: Level, freshness: Freshness, degraded: bool)

  datatype Guidance = Guidance(explanation: string, remediation: string, rationale: string)

  datatype Flag = Flag(target: Target, reason: Reason, metadata: Metadata, guidance: Option<Guidance>)

  // ---- Inputs ----

  datatype RequestState = Draft | Open | Accepted | Declined | Withdrawn

  datatype RequestInput = RequestInput(
    id: Text, state: RequestState, ownerPresent: bool, responseDue: Option<int>, needsInfo: bool, metadata: Metadata)

  datatype ActionState = ActionOpen | InProgress | Completed | Cancelled

  datatype EvidenceState = NoEvidenceAsked | EvidenceMissing | VerificationPending

  datatype ActionInput = ActionInput(
    id: Text, state: ActionState, dueAt: int, blocked: bool, atRisk: bool, evidence: EvidenceState,
    supersededPremise: bool, metadata: Metadata)

  datatype DecisionState = DecisionDraft | DecisionOpen | DecisionResolved | DecisionWithdrawn

  datatype DecisionInput = DecisionInput(
    id: Text, state: DecisionState, ownerPresent: bool, deadline: Option<int>, needsInfo: bool, metadata: Metadata)

  datatype RiskState = RiskOpen | RiskOccurred | RiskClosed

  /** A risk leaves the ordinary queue only with a complete proof, which names an owner and a review. */
  datatype RiskInput =
    | InQueue(id: Text, state: RiskState, nextReview: Option<int>, exposureIncreased: bool, evidenceStale: bool,
              controlInvalid: bool, ownerPresent: bool, metadata: Metadata)
    | Exited(id: Text, state: RiskState, reviewAt: int, exposureIncreased: bool, evidenceStale: bool,
             controlInvalid: bool, metadata: Metadata)

  datatype Verification = Complete | MissingEvidence | Pending | Failed(guidance: Guidance)

  datatype IssueSnapshot = IssueOpen(evidenceMissing: bool) | IssueResolved(verification: Verification) | IssueClosed

  datatype IssueInput = IssueInput(
    id: Text, snapshot: IssueSnapshot, resolutionDue: Option<int>, blocked: bool, recurrence: bool, metadata: Metadata)

  datatype Inputs = Inputs(
    asOf: int, decisionWindow: int, actionWindow: Option<int>,
    requests: seq<RequestInput>, actions: seq<ActionInput>, decisions: seq<DecisionInput>,
    risks: seq<RiskInput>, issues: seq<IssueInput>)

  // ---- The order of flags ----

  function KindRank(k: Kind): nat {
    match k
    case ActionRequest => 0
    case Action => 1
    case DecisionRequest => 2
    case Risk => 3
    case Issue => 4
  }

  function ReasonRank(r: Reason): nat {
    match r
    case ActionRequestNeedsInfo => 0
    case ActionRequestStale => 1
    case ActionRequestMissingIntendedOwner => 2
    case ActionRequestResponseDue => 3
    case ActionRequestResponseOverdue => 4
    case ActionBlocked => 5
    case ActionOverdue => 6
    case ActionAtRisk => 7
    case ActionNeedsEvidence => 8
    case ActionEvidenceVerificationPending => 9
    case ActionSupersededPremise => 10
    case DecisionRequestNeedsInfo => 11
    case DecisionRequestMissingDecisionOwner => 12
    case DecisionRequestApproachingDeadline => 13
    case DecisionRequestOverdue => 14
    case DecisionRequestStale => 15
    case RiskReviewDue => 16
    case RiskExposureIncreased => 17
    case RiskEvidenceStale => 18
    case RiskControlInvalid => 19
    case RiskMissingOwner => 20
    case IssueBlocked => 21
    case IssueResolutionDue => 22
    case IssueResolutionOverdue => 23
    case IssueNeedsEvidence => 24
    case IssueStale => 25
    case IssueRecurrence => 26
  }

  function TargetKey(t: Target): Key { [KindRank(t.kind) as int] + t.id }

  /** By target, then by reason; -1 ends the id, as a shorter id comes first. */
  function FlagKey(f: Flag): Key { TargetKey(f.target) + [-1, ReasonRank(f.reason) as int] }

  lemma TargetKeyInjective(t: Target, u: Target)
    ensures TargetKey(t) == TargetKey(u) <==> t == u
  {
    if TargetKey(t) == TargetKey(u) {
      assert TargetKey(t)[0] == TargetKey(u)[0];
      assert t.id == TargetKey(t)[1..] && u.id == TargetKey(u)[1..];
    }
  }

  lemma FlagKeyInjective(f: Flag, g: Flag)
    ensures FlagKey(f) == FlagKey(g) <==> f.target == g.target && f.reason == g.reason
  {
    if FlagKey(f) == FlagKey(g) {
      var n := |TargetKey(f.target)|;
      assert |FlagKey(f)| == n + 2 == |FlagKey(g)|;
      assert TargetKey(f.target) == FlagKey(f)[..n] && TargetKey(g.target) == FlagKey(g)[..n];
      assert FlagKey(f)[n + 1] == FlagKey(g)[n + 1];
      TargetKeyInjective(f.target, g.target);
      ReasonRankInjective(f.reason, g.reason);
    }
  }

  lemma ReasonRankInjective(r: Reason, q: Reason)
    ensures ReasonRank(r) == ReasonRank(q) ==> r == q
  {
  }

  // ---- Checks ----

  datatype Check = Check(reason: Reason, enabled: bool, guidance: Option<Guidance>)

  function When(reason: Reason, enabled: bool): Check { Check(reason, enabled, None) }

  function Raised(target: Target, metadata: Metadata, checks: seq<Check>): seq<Flag> {
    if checks == [] then []
    else
      (if checks[0].enabled then [Flag(target, checks[0].reason, metadata, checks[0].guidance)] else [])
      + Raised(target, metadata, checks[1..])
  }

  function Max0(n: int): int { if n < 0 then 0 else n }

  function RequestChecks(r: RequestInput, asOf: int): seq<Check> {
    var due := r.responseDue;
    [When(ActionRequestNeedsInfo, r.needsInfo),
     When(ActionRequestStale, r.metadata.freshness == Stale),
     When(ActionRequestMissingIntendedOwner, !r.ownerPresent),
     When(ActionRequestResponseOverdue, due.Some? && due.value < asOf),
     When(ActionRequestResponseDue, due.Some? && due.value == asOf)]
  }

  function ActionChecks(a: ActionInput, asOf: int, window: Option<int>): seq<Check> {
    [When(ActionBlocked, a.blocked),
     When(ActionOverdue, a.dueAt < asOf),
     When(ActionAtRisk, a.atRisk || (window.Some? && 0 <= a.dueAt - asOf <= Max0(window.value))),
     When(ActionNeedsEvidence, a.evidence == EvidenceMissing),
     When(ActionEvidenceVerificationPending, a.evidence == VerificationPending),
     When(ActionSupersededPremise, a.supersededPremise)]
  }

  function DecisionChecks(d: DecisionInput, asOf: int, window: int): seq<Check> {
    [When(DecisionRequestNeedsInfo, d.needsInfo),
     When(DecisionRequestMissingDecisionOwner, !d.ownerPresent),
     When(DecisionRequestStale, d.metadata.freshness == Stale),
     When(DecisionRequestOverdue, d.deadline.Some? && d.deadline.value < asOf),
     When(DecisionRequestApproachingDeadline, d.deadline.Some? && 0 <= d.deadline.value - asOf <= Max0(window))]
  }

  function ReviewDue(r: RiskInput, asOf: int): bool {
    match r
    case InQueue(_, _, nextReview, _, _, _, _, _) => nextReview.Some? && nextReview.value <= asOf
    case Exited(_, _, reviewAt, _, _, _, _) => reviewAt <= asOf
  }

  function RiskChecks(r: RiskInput, asOf: int): seq<Check> {
    [When(RiskReviewDue, ReviewDue(r, asOf)),
     When(RiskExposureIncreased, r.exposureIncreased),
     When(RiskEvidenceStale, r.evidenceStale),
     When(RiskControlInvalid, r.controlInvalid),
     When(RiskMissingOwner, r.InQueue? && !r.ownerPresent)]
  }

  function IssueChecks(i: IssueInput, asOf: int): seq<Check> {
    var due, s := i.resolutionDue, i.snapshot;
    var failed := s.IssueResolved? && s.verification.Failed?;
    var lacking := (s.IssueOpen? && s.evidenceMissing)
                   || (s.IssueResolved? && (s.verification == MissingEvidence || s.verification == Pending));
    [When(IssueBlocked, i.blocked),
     When(IssueResolutionOverdue, due.Some? && due.value < asOf),
     When(IssueResolutionDue, due.Some? && due.value == asOf),
     Check(IssueNeedsEvidence, lacking || failed, if failed then Some(s.verification.guidance) else None),
     When(IssueStale, i.metadata.freshness == Stale),
     When(IssueRecurrence, i.recurrence)]
  }

  function RequestFlags(asOf: int): RequestInput -> seq<Flag> {
    (r: RequestInput) =>
      if r.state == Accepted || r.state == Declined || r.state == Withdrawn then []
      else Raised(Target(ActionRequest, r.id), r.metadata, RequestChecks(r, asOf))
  }

  function ActionFlags(asOf: int, window: Option<int>): ActionInput -> seq<Flag> {
    (a: ActionInput) =>
      if a.state == Completed || a.state == Cancelled then []
      else Raised(Target(Action, a.id), a.metadata, ActionChecks(a, asOf, window))
  }

  function DecisionFlags(asOf: int, window: int): DecisionInput -> seq<Flag> {
    (d: DecisionInput) =>
      if d.state == DecisionResolved || d.state == DecisionWithdrawn then []
      else Raised(Target(DecisionRequest, d.id), d.metadata, DecisionChecks(d, asOf, window))
  }

  function RiskFlags(asOf: int): RiskInput -> seq<Flag> {
    (r: RiskInput) =>
      if r.state != RiskOpen then [] else Raised(Target(Risk, r.id), r.metadata, RiskChecks(r, asOf))
  }

  function IssueFlags(asOf: int): IssueInput -> seq<Flag> {
    (i: IssueInput) =>
      if i.snapshot == IssueClosed then [] else Raised(Target(Issue, i.id), i.metadata, IssueChecks(i, asOf))
  }

  function AllFlags(input: Inputs): seq<Flag> {
    FlatMap(input.requests, RequestFlags(input.asOf))
    + (FlatMap(input.actions, ActionFlags(input.asOf, input.actionWindow))
       + (FlatMap(input.decisions, DecisionFlags(input.asOf, input.decisionWindow))
          + (FlatMap(input.risks, RiskFlags(input.asOf))
             + FlatMap(input.issues, IssueFlags(input.asOf)))))
  }

  function Flags(input: Inputs): seq<Flag> { Sort(AllFlags(input), FlagKey) }

  // ---- Risks back for review ----

  datatype Reentry = Reentry(target: Target, reasons: seq<Reason>)

  predicate ForReentry(r: Reason) {
    r == RiskReviewDue || r == RiskExposureIncreased || r == RiskEvidenceStale || r == RiskControlInvalid
  }

  function Reasons(flags: seq<Flag>, target: Target): seq<Reason> {
    if flags == [] then []
    else
      (if flags[0].target == target && ForReentry(flags[0].reason) then [flags[0].reason] else [])
      + Reasons(flags[1..], target)
  }

  function ReentryOf(flags: seq<Flag>): RiskInput -> seq<Reentry> {
    (r: RiskInput) =>
      var target := Target(Risk, r.id);
      if r.Exited? && |Reasons(flags, target)| >= 2 then [Reentry(target, Reasons(flags, target))] else []
  }

  function ReentryKey(r: Reentry): Key { TargetKey(r.target) }

  function Reentries(input: Inputs, flags: seq<Flag>): seq<Reentry> {
    Sort(FlatMap(input.risks, ReentryOf(flags)), ReentryKey)
  }

  method Collect<A, B>(items: seq<A>, gives: A -> seq<B>) returns (all: seq<B>)
    ensures all == FlatMap(items, gives)
  {
    all := [];
    for i := 0 to |items|
      invariant all == FlatMap(items[..i], gives)
    {
      assert items[..i + 1] == items[..i] + [items[i]];
      FlatMapConcat(items[..i], [items[i]], gives);
      FlatMapOne(items[i], gives);
      all := all + gives(items[i]);
    }
    assert items[..|items|] == items;
  }

  method DeriveAttention(input: Inputs) returns (flags: seq<Flag>, reentries: seq<Reentry>)
    ensures flags == Flags(input) && reentries == Reentries(input, flags)
  {
    var requests := Collect(input.requests, RequestFlags(input.asOf));
    var actions := Collect(input.actions, ActionFlags(input.asOf, input.actionWindow));
    var decisions := Collect(input.decisions, DecisionFlags(input.asOf, input.decisionWindow));
    var risks := Collect(input.risks, RiskFlags(input.asOf));
    var issues := Collect(input.issues, IssueFlags(input.asOf));
    flags := Sort(requests + (actions + (decisions + (risks + issues))), FlagKey);
    var found := Collect(input.risks, ReentryOf(flags));
    reentries := Sort(found, ReentryKey);
  }

  // ---- Each reason at most once ----

  predicate DistinctReasons(checks: seq<Check>) {
    forall i, j :: 0 <= i < j < |checks| ==> checks[i].reason != checks[j].reason
  }

  ghost predicate Own(flags: seq<Flag>, target: Target) {
    DistinctKeys(flags, FlagKey) && forall f :: f in flags ==> f.target == target
  }

  lemma {:induction false} RaisedHas(target: Target, metadata: Metadata, checks: seq<Check>, f: Flag)
    ensures f in Raised(target, metadata, checks) <==>
            exists k :: 0 <= k < |checks| && checks[k].enabled
                        && f == Flag(target, checks[k].reason, metadata, checks[k].guidance)
  {
    if checks == [] {
    } else {
      RaisedHas(target, metadata, checks[1..], f);
      if k :| 0 < k < |checks| && checks[k].enabled
              && f == Flag(target, checks[k].reason, metadata, checks[k].guidance) {
        assert checks[1..][k - 1] == checks[k];
      }
    }
  }

  lemma {:induction false} RaisedOwn(target: Target, metadata: Metadata, checks: seq<Check>)
    requires DistinctReasons(checks)
    ensures Own(Raised(target, metadata, checks), target)
  {
    if checks == [] {
    } else {
      var rest := Raised(target, metadata, checks[1..]);
      RaisedOwn(target, metadata, checks[1..]);
      if checks[0].enabled {
        var f := Flag(target, checks[0].reason, metadata, checks[0].guidance);
        forall j | 0 <= j < |rest|
          ensures FlagKey(f) != FlagKey(rest[j])
        {
          RaisedHas(target, metadata, checks[1..], rest[j]);
          FlagKeyInjective(f, rest[j]);
        }
      }
    }
  }

  lemma RequestReasons(r: RequestInput, asOf: int)
    ensures DistinctReasons(RequestChecks(r, asOf))
  {
  }

  lemma RequestsOwn(r: RequestInput, asOf: int)
    ensures Own(RequestFlags(asOf)(r), Target(ActionRequest, r.id))
  {
    RequestReasons(r, asOf);
    RaisedOwn(Target(ActionRequest, r.id), r.metadata, RequestChecks(r, asOf));
  }

  lemma ActionReasons(a: ActionInput, asOf: int, window: Option<int>)
    ensures DistinctReasons(ActionChecks(a, asOf, window))
  {
  }

  lemma ActionsOwn(a: ActionInput, asOf: int, window: Option<int>)
    ensures Own(ActionFlags(asOf, window)(a), Target(Action, a.id))
  {
    ActionReasons(a, asOf, window);
    RaisedOwn(Target(Action, a.id), a.metadata, ActionChecks(a, asOf, window));
  }

  lemma DecisionReasons(d: DecisionInput, asOf: int, window: int)
    ensures DistinctReasons(DecisionChecks(d, asOf, window))
  {
  }

  lemma DecisionsOwn(d: DecisionInput, asOf: int, window: int)
    ensures Own(DecisionFlags(asOf, window)(d), Target(DecisionRequest, d.id))
  {
    DecisionReasons(d, asOf, window);
    RaisedOwn(Target(DecisionRequest, d.id), d.metadata, DecisionChecks(d, asOf, window));
  }

  lemma RiskReasons(r: RiskInput, asOf: int)
    ensures DistinctReasons(RiskChecks(r, asOf))
  {
  }

  lemma RisksOwn(r: RiskInput, asOf: int)
    ensures Own(RiskFlags(asOf)(r), Target(Risk, r.id))
  {
    RiskReasons(r, asOf);
    RaisedOwn(Target(Risk, r.id), r.metadata, RiskChecks(r, asOf));
  }

  lemma IssueReasons(i: IssueInput, asOf: int)
    ensures DistinctReasons(IssueChecks(i, asOf))
  {
  }

  lemma IssuesOwn(i: IssueInput, asOf: int)
    ensures Own(IssueFlags(asOf)(i), Target(Issue, i.id))
  {
    IssueReasons(i, asOf);
    RaisedOwn(Target(Issue, i.id), i.metadata, IssueChecks(i, asOf));
  }

  predicate DistinctTargets<A>(s: seq<A>, target: A -> Target) {
    forall i, j :: 0 <= i < j < |s| ==> target(s[i]) != target(s[j])
  }

  lemma {:induction false} FlatMapDistinct<A(!new)>(s: seq<A>, gives: A -> seq<Flag>, target: A -> Target)
    requires forall a :: Own(gives(a), target(a))
    requires DistinctTargets(s, target)
    ensures DistinctKeys(FlatMap(s, gives), FlagKey)
    ensures forall f :: f in FlatMap(s, gives) ==> exists i :: 0 <= i < |s| && f.target == target(s[i])
  {
    if s == [] {
    } else {
      FlatMapDistinct(s[1..], gives, target);
      assert Own(gives(s[0]), target(s[0]));
      var first, rest := gives(s[0]), FlatMap(s[1..], gives);
      forall i, j | 0 <= i < |first| && 0 <= j < |rest|
        ensures FlagKey(first[i]) != FlagKey(rest[j])
      {
        FlagKeyInjective(first[i], rest[j]);
        assert rest[j] in rest && first[i] in first;
      }
      forall f | f in FlatMap(s, gives)
        ensures exists i :: 0 <= i < |s| && f.target == target(s[i])
      {
        if f in first {
        } else {
          var i :| 0 <= i < |s[1..]| && f.target == target(s[1..][i]);
          assert f.target == target(s[i + 1]);
        }
      }
    }
  }

  function RequestTarget(r: RequestInput): Target { Target(ActionRequest, r.id) }

  function ActionTarget(a: ActionInput): Target { Target(Action, a.id) }

  function DecisionTarget(d: DecisionInput): Target { Target(DecisionRequest, d.id) }

  function RiskTarget(r: RiskInput): Target { Target(Risk, r.id) }

  function IssueTarget(i: IssueInput): Target { Target(Issue, i.id) }

  predicate DistinctIds(input: Inputs) {
    && DistinctTargets(input.requests, RequestTarget)
    && DistinctTargets(input.actions, ActionTarget)
    && DistinctTargets(input.decisions, DecisionTarget)
    && DistinctTargets(input.risks, RiskTarget)
    && DistinctTargets(input.issues, IssueTarget)
  }

  /** Flags of records of kinds from `low` on, each (target, reason) at most once. */
  ghost predicate OnceFrom(flags: seq<Flag>, low: nat) {
    DistinctKeys(flags, FlagKey) && forall f :: f in flags ==> KindRank(f.target.kind) >= low
  }

  lemma Joined(first: seq<Flag>, rest: seq<Flag>, kind: Kind)
    requires DistinctKeys(first, FlagKey) && forall f :: f in first ==> f.target.kind == kind
    requires OnceFrom(rest, KindRank(kind) + 1)
    ensures OnceFrom(first + rest, KindRank(kind))
  {
    forall i, j | 0 <= i < |first| && 0 <= j < |rest|
      ensures FlagKey(first[i]) != FlagKey(rest[j])
    {
      FlagKeyInjective(first[i], rest[j]);
      assert rest[j] in rest && first[i] in first;
    }
  }

  /** The flags of a target's kind. */
  function OfKind(input: Inputs, k: Kind): seq<Flag> {
    match k
    case ActionRequest => FlatMap(input.requests, RequestFlags(input.asOf))
    case Action => FlatMap(input.actions, ActionFlags(input.asOf, input.actionWindow))
    case DecisionRequest => FlatMap(input.decisions, DecisionFlags(input.asOf, input.decisionWindow))
    case Risk => FlatMap(input.risks, RiskFlags(input.asOf))
    case Issue => FlatMap(input.issues, IssueFlags(input.asOf))
  }

  lemma KindOnce(input: Inputs, k: Kind)
    requires DistinctIds(input)
    ensures DistinctKeys(OfKind(input, k), FlagKey) && forall f :: f in OfKind(input, k) ==> f.target.kind == k
  {
    var t := input.asOf;
    match k
    case ActionRequest =>
      forall r { RequestsOwn(r, t); }
      FlatMapDistinct(input.requests, RequestFlags(t), RequestTarget);
    case Action =>
      forall a { ActionsOwn(a, t, input.actionWindow); }
      FlatMapDistinct(input.actions, ActionFlags(t, input.actionWindow), ActionTarget);
    case DecisionRequest =>
      forall d { DecisionsOwn(d, t, input.decisionWindow); }
      FlatMapDistinct(input.decisions, DecisionFlags(t, input.decisionWindow), DecisionTarget);
    case Risk =>
      forall r { RisksOwn(r, t); }
      FlatMapDistinct(input.risks, RiskFlags(t), RiskTarget);
    case Issue =>
      forall i { IssuesOwn(i, t); }
      FlatMapDistinct(input.issues, IssueFlags(t), IssueTarget);
  }

  lemma AllFlagsOnce(input: Inputs)
    requires DistinctIds(input)
    ensures DistinctKeys(AllFlags(input), FlagKey)
  {
    KindOnce(input, Issue);
    KindOnce(input, Risk);
    KindOnce(input, DecisionRequest);
    KindOnce(input, Action);
    KindOnce(input, ActionRequest);
    var issues := OfKind(input, Issue);
    var risks := OfKind(input, Risk) + issues;
    var decisions := OfKind(input, DecisionRequest) + risks;
    var actions := OfKind(input, Action) + decisions;
    Joined(OfKind(input, Risk), issues, Risk);
    Joined(OfKind(input, DecisionRequest), risks, DecisionRequest);
    Joined(OfKind(input, Action), decisions, Action);
    Joined(OfKind(input, ActionRequest), actions, ActionRequest);
  }

  // ---- Main results ----

  /** By kind, then by id, byte by byte with a shorter one first, then by reason. */
  predicate FlaggedBefore(f: Flag, g: Flag) {
    var j, k := KindRank(f.target.kind), KindRank(g.target.kind);
    j < k || (j == k && (Lt(f.target.id, g.target.id)
                         || (f.target.id == g.target.id && ReasonRank(f.reason) < ReasonRank(g.reason))))
  }

  lemma {:induction false} EndedLe(a: Text, b: Text, x: int, y: int)
    ensures Le(a + [-1, x], b + [-1, y]) <==> Lt(a, b) || (a == b && x <= y)
  {
    if a == [] || b == [] {
      assert a + [-1, x] == [-1, x] || a[0] >= 0;
      assert b + [-1, y] == [-1, y] || b[0] >= 0;
      assert [-1, x][1..] == [x] && [-1, y][1..] == [y];
      assert [x][1..] == [] && [y][1..] == [];
      assert Le([x], [y]) <==> x <= y;
    } else {
      assert (a + [-1, x])[1..] == a[1..] + [-1, x] && (b + [-1, y])[1..] == b[1..] + [-1, y];
      EndedLe(a[1..], b[1..], x, y);
      assert a == [a[0]] + a[1..] && b == [b[0]] + b[1..];
    }
  }

  lemma FlagLt(f: Flag, g: Flag)
    ensures Lt(FlagKey(f), FlagKey(g)) <==> FlaggedBefore(f, g)
  {
    var a, b := f.target.id + [-1, ReasonRank(f.reason) as int], g.target.id + [-1, ReasonRank(g.reason) as int];
    assert FlagKey(f) == [KindRank(f.target.kind) as int] + a && FlagKey(g) == [KindRank(g.target.kind) as int] + b;
    assert FlagKey(f)[1..] == a && FlagKey(g)[1..] == b;
    EndedLe(f.target.id, g.target.id, ReasonRank(f.reason), ReasonRank(g.reason));
    FlagKeyInjective(f, g);
    ReasonRankInjective(f.reason, g.reason);
    KindRankInjective(f.target.kind, g.target.kind);
  }

  lemma KindRankInjective(j: Kind, k: Kind)
    ensures KindRank(j) == KindRank(k) ==> j == k
  {
  }

  /** With distinct ids, each (target, reason) is raised at most once, in strictly increasing order. */
  lemma FlagsIncrease(input: Inputs)
    requires DistinctIds(input)
    ensures
      var flags := Flags(input);
      forall i, j :: 0 <= i < j < |flags| ==>
        && FlaggedBefore(flags[i], flags[j])
        && (flags[i].target != flags[j].target || flags[i].reason != flags[j].reason)
  {
    AllFlagsOnce(input);
    SortOrders(AllFlags(input), FlagKey);
    SortDistinct(AllFlags(input), FlagKey);
    var flags := Flags(input);
    forall i, j | 0 <= i < j < |flags|
      ensures FlaggedBefore(flags[i], flags[j])
      ensures flags[i].target != flags[j].target || flags[i].reason != flags[j].reason
    {
      FlagLt(flags[i], flags[j]);
    }
  }

  // ---- What each flag means ----

  ghost predicate Raises(flags: seq<Flag>, target: Target, reason: Reason) {
    exists f :: f in flags && f.target == target && f.reason == reason
  }

  predicate RequestNeeds(r: RequestInput, reason: Reason, asOf: int) {
    && (r.state == Draft || r.state == Open)
    && match reason
       case ActionRequestNeedsInfo => r.needsInfo
       case ActionRequestStale => r.metadata.freshness == Stale
       case ActionRequestMissingIntendedOwner => !r.ownerPresent
       case ActionRequestResponseDue => r.responseDue == Some(asOf)
       case ActionRequestResponseOverdue => r.responseDue.Some? && r.responseDue.value < asOf
       case _ => false
  }

  predicate ActionNeeds(a: ActionInput, reason: Reason, asOf: int, window: Option<int>) {
    && (a.state == ActionOpen || a.state == InProgress)
    && match reason
       case ActionBlocked => a.blocked
       case ActionOverdue => a.dueAt < asOf
       case ActionAtRisk =>
         a.atRisk || (window.Some? && (a.dueAt == asOf || asOf < a.dueAt <= asOf + window.value))
       case ActionNeedsEvidence => a.evidence == EvidenceMissing
       case ActionEvidenceVerificationPending => a.evidence == VerificationPending
       case ActionSupersededPremise => a.supersededPremise
       case _ => false
  }

  predicate DecisionNeeds(d: DecisionInput, reason: Reason, asOf: int, window: int) {
    && (d.state == DecisionDraft || d.state == DecisionOpen)
    && match reason
       case DecisionRequestNeedsInfo => d.needsInfo
       case DecisionRequestMissingDecisionOwner => !d.ownerPresent
       case DecisionRequestStale => d.metadata.freshness == Stale
       case DecisionRequestOverdue => d.deadline.Some? && d.deadline.value < asOf
       case DecisionRequestApproachingDeadline =>
         d.deadline == Some(asOf) || (d.deadline.Some? && asOf < d.deadline.value <= asOf + window)
       case _ => false
  }

  /** Its review is at or before `asOf`: the next one planned, if any, or the one its proof named. */
  predicate ReviewReached(r: RiskInput, asOf: int) {
    if r.InQueue? then r.nextReview.Some? && r.nextReview.value <= asOf else r.reviewAt <= asOf
  }

  predicate RiskNeeds(r: RiskInput, reason: Reason, asOf: int) {
    && r.state == RiskOpen
    && match reason
       case RiskReviewDue => ReviewReached(r, asOf)
       case RiskExposureIncreased => r.exposureIncreased
       case RiskEvidenceStale => r.evidenceStale
       case RiskControlInvalid => r.controlInvalid
       case RiskMissingOwner => r.InQueue? && !r.ownerPresent
       case _ => false
  }

  predicate IssueNeeds(i: IssueInput, reason: Reason, asOf: int) {
    && i.snapshot != IssueClosed
    && match reason
       case IssueBlocked => i.blocked
       case IssueResolutionDue => i.resolutionDue == Some(asOf)
       case IssueResolutionOverdue => i.resolutionDue.Some? && i.resolutionDue.value < asOf
       case IssueNeedsEvidence => i.snapshot != IssueOpen(false) && i.snapshot != IssueResolved(Complete)
       case IssueStale => i.metadata.freshness == Stale
       case IssueRecurrence => i.recurrence
       case _ => false
  }

  predicate Enabled(checks: seq<Check>, reason: Reason) {
    checks != [] && ((checks[0].reason == reason && checks[0].enabled) || Enabled(checks[1..], reason))
  }

  lemma {:induction false} RaisedEnabled(target: Target, metadata: Metadata, checks: seq<Check>, reason: Reason)
    ensures Raises(Raised(target, metadata, checks), target, reason) <==> Enabled(checks, reason)
  {
    if checks == [] {
    } else {
      RaisedEnabled(target, metadata, checks[1..], reason);
      var rest := Raised(target, metadata, checks[1..]);
      if checks[0].enabled {
        var first := Flag(target, checks[0].reason, metadata, checks[0].guidance);
        assert Raised(target, metadata, checks) == [first] + rest;
      } else {
        assert Raised(target, metadata, checks) == rest;
      }
    }
  }

  lemma EnabledOfFive(c: seq<Check>, reason: Reason)
    requires |c| == 5
    ensures Enabled(c, reason) <==>
            || (c[0].reason == reason && c[0].enabled) || (c[1].reason == reason && c[1].enabled)
            || (c[2].reason == reason && c[2].enabled) || (c[3].reason == reason && c[3].enabled)
            || (c[4].reason == reason && c[4].enabled)
  {
    assert c[1..][1..] == c[2..] && c[2..][1..] == c[3..] && c[3..][1..] == c[4..] && c[4..][1..] == [];
    assert Enabled(c[4..], reason) <==> c[4].reason == reason && c[4].enabled;
    assert Enabled(c[3..], reason) <==> (c[3].reason == reason && c[3].enabled) || Enabled(c[4..], reason);
    assert Enabled(c[2..], reason) <==> (c[2].reason == reason && c[2].enabled) || Enabled(c[3..], reason);
    assert Enabled(c[1..], reason) <==> (c[1].reason == reason && c[1].enabled) || Enabled(c[2..], reason);
  }

  lemma EnabledOfSix(c: seq<Check>, reason: Reason)
    requires |c| == 6
    ensures Enabled(c, reason) <==>
            || (c[0].reason == reason && c[0].enabled) || (c[1].reason == reason && c[1].enabled)
            || (c[2].reason == reason && c[2].enabled) || (c[3].reason == reason && c[3].enabled)
            || (c[4].reason == reason && c[4].enabled) || (c[5].reason == reason && c[5].enabled)
  {
    EnabledOfFive(c[1..], reason);
  }

  /** A flag against a record comes from that record's own checks. */
  lemma OnlyFrom<A(!new)>(s: seq<A>, gives: A -> seq<Flag>, target: A -> Target, a: A, reason: Reason)
    requires forall x :: Own(gives(x), target(x))
    requires DistinctTargets(s, target) && a in s
    ensures Raises(FlatMap(s, gives), target(a), reason) <==> Raises(gives(a), target(a), reason)
  {
    var k :| 0 <= k < |s| && s[k] == a;
    if f :| f in FlatMap(s, gives) && f.target == target(a) && f.reason == reason {
      FlatMapHas(s, gives, f);
      var i :| 0 <= i < |s| && f in gives(s[i]);
      assert Own(gives(s[i]), target(s[i]));
      assert i == k;
    }
    if f :| f in gives(a) && f.target == target(a) && f.reason == reason {
      assert f in gives(s[k]);
      FlatMapHas(s, gives, f);
    }
  }

  lemma NeverOfKind<A(!new)>(s: seq<A>, gives: A -> seq<Flag>, target: A -> Target, t: Target, reason: Reason)
    requires forall x :: Own(gives(x), target(x)) && target(x).kind != t.kind
    ensures !Raises(FlatMap(s, gives), t, reason)
  {
    forall f | f in FlatMap(s, gives)
      ensures f.target != t
    {
      FlatMapHas(s, gives, f);
      var i :| 0 <= i < |s| && f in gives(s[i]);
      assert Own(gives(s[i]), target(s[i]));
    }
  }

  lemma RaisesInEither(a: seq<Flag>, b: seq<Flag>, t: Target, reason: Reason)
    ensures Raises(a + b, t, reason) <==> Raises(a, t, reason) || Raises(b, t, reason)
  {
    if f :| f in a && f.target == t && f.reason == reason {
      assert f in a + b;
    }
    if f :| f in b && f.target == t && f.reason == reason {
      assert f in a + b;
    }
  }

  lemma OtherKinds(input: Inputs, t: Target, reason: Reason, k: Kind)
    requires k != t.kind
    ensures !Raises(OfKind(input, k), t, reason)
  {
    var asOf := input.asOf;
    match k
    case ActionRequest =>
      forall r { RequestsOwn(r, asOf); }
      NeverOfKind(input.requests, RequestFlags(asOf), RequestTarget, t, reason);
    case Action =>
      forall a { ActionsOwn(a, asOf, input.actionWindow); }
      NeverOfKind(input.actions, ActionFlags(asOf, input.actionWindow), ActionTarget, t, reason);
    case DecisionRequest =>
      forall d { DecisionsOwn(d, asOf, input.decisionWindow); }
      NeverOfKind(input.decisions, DecisionFlags(asOf, input.decisionWindow), DecisionTarget, t, reason);
    case Risk =>
      forall r { RisksOwn(r, asOf); }
      NeverOfKind(input.risks, RiskFlags(asOf), RiskTarget, t, reason);
    case Issue =>
      forall i { IssuesOwn(i, asOf); }
      NeverOfKind(input.issues, IssueFlags(asOf), IssueTarget, t, reason);
  }

  lemma RaisesSorted(all: seq<Flag>, t: Target, reason: Reason)
    ensures Raises(Sort(all, FlagKey), t, reason) <==> Raises(all, t, reason)
  {
    var sorted := Sort(all, FlagKey);
    assert multiset(sorted) == multiset(all);
    assert forall f :: f in sorted <==> f in multiset(sorted);
    assert forall f :: f in all <==> f in multiset(all);
  }

  lemma RaisesInOne(
    a: seq<Flag>, b: seq<Flag>, c: seq<Flag>, d: seq<Flag>, e: seq<Flag>, t: Target, reason: Reason)
    ensures Raises(a + (b + (c + (d + e))), t, reason) <==>
            || Raises(a, t, reason) || Raises(b, t, reason) || Raises(c, t, reason) || Raises(d, t, reason)
            || Raises(e, t, reason)
  {
    RaisesInEither(a, b + (c + (d + e)), t, reason);
    RaisesInEither(b, c + (d + e), t, reason);
    RaisesInEither(c, d + e, t, reason);
    RaisesInEither(d, e, t, reason);
  }

  lemma RaisedByKind(input: Inputs, t: Target, reason: Reason)
    ensures Raises(Flags(input), t, reason) <==> Raises(OfKind(input, t.kind), t, reason)
  {
    RaisesSorted(AllFlags(input), t, reason);
    RaisesInOne(OfKind(input, ActionRequest), OfKind(input, Action), OfKind(input, DecisionRequest),
                OfKind(input, Risk), OfKind(input, Issue), t, reason);
    forall k | k != t.kind
      ensures !Raises(OfKind(input, k), t, reason)
    {
      OtherKinds(input, t, reason, k);
    }
  }

  lemma RequestEnabled(r: RequestInput, reason: Reason, asOf: int)
    requires r.state == Draft || r.state == Open
    ensures Enabled(RequestChecks(r, asOf), reason) <==> RequestNeeds(r, reason, asOf)
  {
    EnabledOfFive(RequestChecks(r, asOf), reason);
  }

  lemma RequestChecked(r: RequestInput, reason: Reason, asOf: int)
    ensures Raises(RequestFlags(asOf)(r), RequestTarget(r), reason) <==> RequestNeeds(r, reason, asOf)
  {
    if r.state == Draft || r.state == Open {
      RequestEnabled(r, reason, asOf);
      RaisedEnabled(RequestTarget(r), r.metadata, RequestChecks(r, asOf), reason);
    }
  }

  /** An action request is flagged for a reason exactly when it is still open to an answer and the
      reason holds of it. */
  lemma RequestFlaggedIff(input: Inputs, r: RequestInput, reason: Reason)
    requires DistinctIds(input) && r in input.requests
    ensures Raises(Flags(input), RequestTarget(r), reason) <==> RequestNeeds(r, reason, input.asOf)
  {
    RaisedByKind(input, RequestTarget(r), reason);
    forall x { RequestsOwn(x, input.asOf); }
    OnlyFrom(input.requests, RequestFlags(input.asOf), RequestTarget, r, reason);
    RequestChecked(r, reason, input.asOf);
  }

  lemma ActionEnabled(a: ActionInput, reason: Reason, asOf: int, window: Option<int>)
    requires a.state == ActionOpen || a.state == InProgress
    ensures Enabled(ActionChecks(a, asOf, window), reason) <==> ActionNeeds(a, reason, asOf, window)
  {
    EnabledOfSix(ActionChecks(a, asOf, window), reason);
  }

  lemma ActionChecked(a: ActionInput, reason: Reason, asOf: int, window: Option<int>)
    ensures Raises(ActionFlags(asOf, window)(a), ActionTarget(a), reason) <==> ActionNeeds(a, reason, asOf, window)
  {
    if a.state == ActionOpen || a.state == InProgress {
      ActionEnabled(a, reason, asOf, window);
      RaisedEnabled(ActionTarget(a), a.metadata, ActionChecks(a, asOf, window), reason);
    }
  }

  /** An action is flagged for a reason exactly when it is unfinished and the reason holds of it. */
  lemma ActionFlaggedIff(input: Inputs, a: ActionInput, reason: Reason)
    requires DistinctIds(input) && a in input.actions
    ensures Raises(Flags(input), ActionTarget(a), reason) <==> ActionNeeds(a, reason, input.asOf, input.actionWindow)
  {
    RaisedByKind(input, ActionTarget(a), reason);
    forall x { ActionsOwn(x, input.asOf, input.actionWindow); }
    OnlyFrom(input.actions, ActionFlags(input.asOf, input.actionWindow), ActionTarget, a, reason);
    ActionChecked(a, reason, input.asOf, input.actionWindow);
  }

  lemma DecisionEnabled(d: DecisionInput, reason: Reason, asOf: int, window: int)
    requires d.state == DecisionDraft || d.state == DecisionOpen
    ensures Enabled(DecisionChecks(d, asOf, window), reason) <==> DecisionNeeds(d, reason, asOf, window)
  {
    EnabledOfFive(DecisionChecks(d, asOf, window), reason);
  }

  lemma DecisionChecked(d: DecisionInput, reason: Reason, asOf: int, window: int)
    ensures Raises(DecisionFlags(asOf, window)(d), DecisionTarget(d), reason)
            <==> DecisionNeeds(d, reason, asOf, window)
  {
    if d.state == DecisionDraft || d.state == DecisionOpen {
      DecisionEnabled(d, reason, asOf, window);
      RaisedEnabled(DecisionTarget(d), d.metadata, DecisionChecks(d, asOf, window), reason);
    }
  }

  /** A decision request is flagged for a reason exactly when it is undecided and the reason holds of it. */
  lemma DecisionFlaggedIff(input: Inputs, d: DecisionInput, reason: Reason)
    requires DistinctIds(input) && d in input.decisions
    ensures Raises(Flags(input), DecisionTarget(d), reason)
            <==> DecisionNeeds(d, reason, input.asOf, input.decisionWindow)
  {
    RaisedByKind(input, DecisionTarget(d), reason);
    forall x { DecisionsOwn(x, input.asOf, input.decisionWindow); }
    OnlyFrom(input.decisions, DecisionFlags(input.asOf, input.decisionWindow), DecisionTarget, d, reason);
    DecisionChecked(d, reason, input.asOf, input.decisionWindow);
  }

  lemma RiskEnabled(r: RiskInput, reason: Reason, asOf: int)
    requires r.state == RiskOpen
    ensures Enabled(RiskChecks(r, asOf), reason) <==> RiskNeeds(r, reason, asOf)
  {
    EnabledOfFive(RiskChecks(r, asOf), reason);
  }

  lemma RiskChecked(r: RiskInput, reason: Reason, asOf: int)
    ensures Raises(RiskFlags(asOf)(r), RiskTarget(r), reason) <==> RiskNeeds(r, reason, asOf)
  {
    if r.state == RiskOpen {
      RiskEnabled(r, reason, asOf);
      RaisedEnabled(RiskTarget(r), r.metadata, RiskChecks(r, asOf), reason);
    }
  }

  /** A risk is flagged for a reason exactly when it is open and the reason holds of it. */
  lemma RiskFlaggedIff(input: Inputs, r: RiskInput, reason: Reason)
    requires DistinctIds(input) && r in input.risks
    ensures Raises(Flags(input), RiskTarget(r), reason) <==> RiskNeeds(r, reason, input.asOf)
  {
    RaisedByKind(input, RiskTarget(r), reason);
    forall x { RisksOwn(x, input.asOf); }
    OnlyFrom(input.risks, RiskFlags(input.asOf), RiskTarget, r, reason);
    RiskChecked(r, reason, input.asOf);
  }

  lemma IssueEnabled(i: IssueInput, reason: Reason, asOf: int)
    requires i.snapshot != IssueClosed
    ensures Enabled(IssueChecks(i, asOf), reason) <==> IssueNeeds(i, reason, asOf)
  {
    EnabledOfSix(IssueChecks(i, asOf), reason);
  }

  lemma IssueChecked(i: IssueInput, reason: Reason, asOf: int)
    ensures Raises(IssueFlags(asOf)(i), IssueTarget(i), reason) <==> IssueNeeds(i, reason, asOf)
  {
    if i.snapshot != IssueClosed {
      IssueEnabled(i, reason, asOf);
      RaisedEnabled(IssueTarget(i), i.metadata, IssueChecks(i, asOf), reason);
    }
  }

  /** An issue is flagged for a reason exactly when it is not closed and the reason holds of it. */
  lemma IssueFlaggedIff(input: Inputs, i: IssueInput, reason: Reason)
    requires DistinctIds(input) && i in input.issues
    ensures Raises(Flags(input), IssueTarget(i), reason) <==> IssueNeeds(i, reason, input.asOf)
  {
    RaisedByKind(input, IssueTarget(i), reason);
    forall x { IssuesOwn(x, input.asOf); }
    OnlyFrom(input.issues, IssueFlags(input.asOf), IssueTarget, i, reason);
    IssueChecked(i, reason, input.asOf);
  }

  // ---- What each flag carries ----

  predicate CarriesOnly(f: Flag, target: Target, metadata: Metadata) {
    f.target == target && f.metadata == metadata && f.guidance == None
  }

  predicate CarriesGuidance(f: Flag, i: IssueInput) {
    && f.target == Target(Issue, i.id) && f.metadata == i.metadata
    && f.guidance == match i.snapshot
                     case IssueResolved(Failed(g)) => if f.reason == IssueNeedsEvidence then Some(g) else None
                     case _ => None
  }

  /** Where a flag comes from, and what it says of its record. */
  ghost predicate Sourced(input: Inputs, f: Flag) {
    match f.target.kind
    case ActionRequest => exists r :: r in input.requests && CarriesOnly(f, Target(ActionRequest, r.id), r.metadata)
    case Action => exists a :: a in input.actions && CarriesOnly(f, Target(Action, a.id), a.metadata)
    case DecisionRequest =>
      exists d :: d in input.decisions && CarriesOnly(f, Target(DecisionRequest, d.id), d.metadata)
    case Risk => exists r :: r in input.risks && CarriesOnly(f, Target(Risk, r.id), r.metadata)
    case Issue => exists i :: i in input.issues && CarriesGuidance(f, i)
  }

  lemma RaisedCarries(target: Target, metadata: Metadata, checks: seq<Check>, f: Flag)
    requires f in Raised(target, metadata, checks)
    requires forall k :: 0 <= k < |checks| ==> checks[k].guidance == None
    ensures CarriesOnly(f, target, metadata)
  {
    RaisedHas(target, metadata, checks, f);
  }

  lemma IssueCarries(i: IssueInput, asOf: int, f: Flag)
    requires f in IssueFlags(asOf)(i)
    ensures CarriesGuidance(f, i)
  {
    RaisedHas(Target(Issue, i.id), i.metadata, IssueChecks(i, asOf), f);
  }

  lemma InOther(input: Inputs, f: Flag, k: Kind)
    requires f in OfKind(input, k)
    ensures k == f.target.kind
  {
    assert Raises(OfKind(input, k), f.target, f.reason);
    if k != f.target.kind { OtherKinds(input, f.target, f.reason, k); }
  }

  lemma InOneKind(input: Inputs, f: Flag)
    requires f in Flags(input)
    ensures f in OfKind(input, f.target.kind)
  {
    SortedHas(AllFlags(input), FlagKey, f);
    var k := InSome(input, f);
    InOther(input, f, k);
  }

  lemma InSome(input: Inputs, f: Flag) returns (k: Kind)
    requires f in AllFlags(input)
    ensures f in OfKind(input, k)
  {
    if f in OfKind(input, ActionRequest) { return ActionRequest; }
    if f in OfKind(input, Action) { return Action; }
    if f in OfKind(input, DecisionRequest) { return DecisionRequest; }
    if f in OfKind(input, Risk) { return Risk; }
    return Issue;
  }

  lemma RequestSourced(input: Inputs, f: Flag)
    requires f in OfKind(input, ActionRequest) && f.target.kind == ActionRequest
    ensures Sourced(input, f)
  {
    var r := Contributor(input.requests, RequestFlags(input.asOf), f);
    RaisedCarries(Target(ActionRequest, r.id), r.metadata, RequestChecks(r, input.asOf), f);
  }

  lemma ActionSourced(input: Inputs, f: Flag)
    requires f in OfKind(input, Action) && f.target.kind == Action
    ensures Sourced(input, f)
  {
    var a := Contributor(input.actions, ActionFlags(input.asOf, input.actionWindow), f);
    RaisedCarries(Target(Action, a.id), a.metadata, ActionChecks(a, input.asOf, input.actionWindow), f);
  }

  lemma DecisionSourced(input: Inputs, f: Flag)
    requires f in OfKind(input, DecisionRequest) && f.target.kind == DecisionRequest
    ensures Sourced(input, f)
  {
    var d := Contributor(input.decisions, DecisionFlags(input.asOf, input.decisionWindow), f);
    RaisedCarries(Target(DecisionRequest, d.id), d.metadata, DecisionChecks(d, input.asOf, input.decisionWindow), f);
  }

  lemma RiskSourced(input: Inputs, f: Flag)
    requires f in OfKind(input, Risk) && f.target.kind == Risk
    ensures Sourced(input, f)
  {
    var r := Contributor(input.risks, RiskFlags(input.asOf), f);
    RaisedCarries(Target(Risk, r.id), r.metadata, RiskChecks(r, input.asOf), f);
  }

  lemma IssueSourced(input: Inputs, f: Flag)
    requires f in OfKind(input, Issue) && f.target.kind == Issue
    ensures Sourced(input, f)
  {
    var i := Contributor(input.issues, IssueFlags(input.asOf), f);
    IssueCarries(i, input.asOf, f);
  }

  /** Each flag shows the metadata of a record it is raised against; guidance comes only from an issue
      whose verification failed, and always with its need for evidence. */
  lemma FlagSourced(input: Inputs, f: Flag)
    requires f in Flags(input)
    ensures Sourced(input, f)
  {
    InOneKind(input, f);
    match f.target.kind
    case ActionRequest => RequestSourced(input, f);
    case Action => ActionSourced(input, f);
    case DecisionRequest => DecisionSourced(input, f);
    case Risk => RiskSourced(input, f);
    case Issue => IssueSourced(input, f);
  }

  // ---- Order and re-entry ----

  ghost predicate Rearranged(input: Inputs, other: Inputs) {
    && other.asOf == input.asOf && other.decisionWindow == input.decisionWindow
    && other.actionWindow == input.actionWindow
    && multiset(other.requests) == multiset(input.requests)
    && multiset(other.actions) == multiset(input.actions)
    && multiset(other.decisions) == multiset(input.decisions)
    && multiset(other.risks) == multiset(input.risks)
    && multiset(other.issues) == multiset(input.issues)
  }

  lemma AllFlagsPermute(input: Inputs, other: Inputs)
    requires Rearranged(input, other)
    ensures multiset(AllFlags(other)) == multiset(AllFlags(input))
  {
    var t := input.asOf;
    FlatMapPermute(input.requests, other.requests, RequestFlags(t));
    FlatMapPermute(input.actions, other.actions, ActionFlags(t, input.actionWindow));
    FlatMapPermute(input.decisions, other.decisions, DecisionFlags(t, input.decisionWindow));
    FlatMapPermute(input.risks, other.risks, RiskFlags(t));
    FlatMapPermute(input.issues, other.issues, IssueFlags(t));
  }

  /** The result does not depend on the order of any of the five lists. */
  lemma DerivationIsOrderFree(input: Inputs, other: Inputs)
    requires DistinctIds(input) && Rearranged(input, other)
    ensures Flags(other) == Flags(input)
    ensures Reentries(other, Flags(other)) == Reentries(input, Flags(input))
  {
    AllFlagsOnce(input);
    AllFlagsPermute(input, other);
    DistinctDistinguishes(AllFlags(input), FlagKey);
    SortIsCanonical(AllFlags(input), AllFlags(other), FlagKey);
    var flags := Flags(input);
    FlatMapPermute(input.risks, other.risks, ReentryOf(flags));
    ReentriesDistinguish(input, flags);
    SortIsCanonical(FlatMap(input.risks, ReentryOf(flags)), FlatMap(other.risks, ReentryOf(flags)), ReentryKey);
  }

  lemma ReentriesDistinguish(input: Inputs, flags: seq<Flag>)
    ensures Distinguishes(FlatMap(input.risks, ReentryOf(flags)), ReentryKey)
  {
    var all := FlatMap(input.risks, ReentryOf(flags));
    forall x, y | x in all && y in all && ReentryKey(x) == ReentryKey(y)
      ensures x == y
    {
      FlatMapHas(input.risks, ReentryOf(flags), x);
      FlatMapHas(input.risks, ReentryOf(flags), y);
      TargetKeyInjective(x.target, y.target);
    }
  }

  function Active(r: RiskInput, asOf: int): nat {
    if r.state != RiskOpen then 0
    else
      (if ReviewReached(r, asOf) then 1 else 0) + (if r.exposureIncreased then 1 else 0)
      + (if r.evidenceStale then 1 else 0) + (if r.controlInvalid then 1 else 0)
  }

  predicate Of(f: Flag, target: Target) { f.target == target && ForReentry(f.reason) }

  lemma {:induction false} ReasonsCount(flags: seq<Flag>, target: Target)
    ensures |Reasons(flags, target)| == |Keep(flags, f => Of(f, target))|
  {
    if flags == [] {
    } else {
      ReasonsCount(flags[1..], target);
    }
  }

  lemma {:induction false} KeepNone<T>(s: seq<T>, p: T -> bool)
    requires forall x :: x in s ==> !p(x)
    ensures Keep(s, p) == []
  {
    if s == [] {
    } else {
      assert s == [s[0]] + s[1..];
      KeepNone(s[1..], p);
    }
  }

  lemma KeepOthers(risks: seq<RiskInput>, asOf: int, r: RiskInput, p: Flag -> bool)
    requires forall i :: 0 <= i < |risks| ==> RiskTarget(risks[i]) != RiskTarget(r)
    requires forall f :: p(f) == Of(f, RiskTarget(r))
    ensures Keep(FlatMap(risks, RiskFlags(asOf)), p) == []
  {
    forall f | f in FlatMap(risks, RiskFlags(asOf))
      ensures !p(f)
    {
      FlatMapHas(risks, RiskFlags(asOf), f);
      var i :| 0 <= i < |risks| && f in RiskFlags(asOf)(risks[i]);
      RisksOwn(risks[i], asOf);
    }
    KeepNone(FlatMap(risks, RiskFlags(asOf)), p);
  }

  lemma {:induction false} KeepOwn(risks: seq<RiskInput>, asOf: int, r: RiskInput, p: Flag -> bool)
    requires DistinctTargets(risks, RiskTarget) && r in risks
    requires forall f :: p(f) == Of(f, RiskTarget(r))
    ensures Keep(FlatMap(risks, RiskFlags(asOf)), p) == Keep(RiskFlags(asOf)(r), p)
  {
    var first, rest := risks[0], risks[1..];
    assert risks == [first] + rest;
    KeepConcat(RiskFlags(asOf)(first), FlatMap(rest, RiskFlags(asOf)), p);
    RisksOwn(first, asOf);
    if first == r {
      assert forall i :: 0 <= i < |rest| ==> rest[i] == risks[i + 1];
      KeepOthers(rest, asOf, r, p);
    } else {
      var i :| 0 <= i < |risks| && risks[i] == r;
      assert rest[i - 1] == r;
      KeepNone(RiskFlags(asOf)(first), p);
      KeepOwn(rest, asOf, r, p);
    }
  }

  lemma KeepRaised(r: RiskInput, asOf: int, p: Flag -> bool)
    requires forall f :: p(f) == Of(f, RiskTarget(r))
    ensures |Keep(RiskFlags(asOf)(r), p)| == Active(r, asOf)
  {
    if r.state == RiskOpen {
      var c, t := RiskChecks(r, asOf), RiskTarget(r);
      KeepCheck(t, r.metadata, c, p);
      KeepCheck(t, r.metadata, c[1..], p);
      KeepCheck(t, r.metadata, c[2..], p);
      KeepCheck(t, r.metadata, c[3..], p);
      KeepCheck(t, r.metadata, c[4..], p);
      assert c[1..][1..] == c[2..] && c[2..][1..] == c[3..] && c[3..][1..] == c[4..] && c[4..][1..] == [];
    }
  }

  lemma KeepCheck(t: Target, m: Metadata, checks: seq<Check>, p: Flag -> bool)
    requires checks != [] && forall f :: p(f) == Of(f, t)
    ensures |Keep(Raised(t, m, checks), p)| ==
            (if checks[0].enabled && ForReentry(checks[0].reason) then 1 else 0) + |Keep(Raised(t, m, checks[1..]), p)|
  {
    var rest := Raised(t, m, checks[1..]);
    if checks[0].enabled {
      KeepFirst(Flag(t, checks[0].reason, m, checks[0].guidance), rest, p);
    } else {
      assert Raised(t, m, checks) == rest;
    }
  }

  lemma OnlyRiskFlags(input: Inputs, target: Target, p: Flag -> bool)
    requires target.kind == Risk && forall f :: p(f) == Of(f, target)
    ensures Keep(AllFlags(input), p) == Keep(FlatMap(input.risks, RiskFlags(input.asOf)), p)
  {
    var t := input.asOf;
    forall r { RequestsOwn(r, t); }
    forall a { ActionsOwn(a, t, input.actionWindow); }
    forall d { DecisionsOwn(d, t, input.decisionWindow); }
    forall i { IssuesOwn(i, t); }
    var requests := FlatMap(input.requests, RequestFlags(t));
    var actions := FlatMap(input.actions, ActionFlags(t, input.actionWindow));
    var decisions := FlatMap(input.decisions, DecisionFlags(t, input.decisionWindow));
    var risks, issues := FlatMap(input.risks, RiskFlags(t)), FlatMap(input.issues, IssueFlags(t));
    NotOfKind(input.requests, RequestFlags(t), RequestTarget, ActionRequest, p);
    NotOfKind(input.actions, ActionFlags(t, input.actionWindow), ActionTarget, Action, p);
    NotOfKind(input.decisions, DecisionFlags(t, input.decisionWindow), DecisionTarget, DecisionRequest, p);
    NotOfKind(input.issues, IssueFlags(t), IssueTarget, Issue, p);
    KeepConcat(requests, actions + (decisions + (risks + issues)), p);
    KeepConcat(actions, decisions + (risks + issues), p);
    KeepConcat(decisions, risks + issues, p);
    KeepConcat(risks, issues, p);
  }

  lemma NotOfKind<A(!new)>(s: seq<A>, gives: A -> seq<Flag>, target: A -> Target, kind: Kind, p: Flag -> bool)
    requires forall a :: Own(gives(a), target(a)) && target(a).kind == kind
    requires forall f :: p(f) ==> f.target.kind != kind
    ensures Keep(FlatMap(s, gives), p) == []
  {
    forall f | f in FlatMap(s, gives)
      ensures !p(f)
    {
      FlatMapHas(s, gives, f);
      var i :| 0 <= i < |s| && f in gives(s[i]);
      assert Own(gives(s[i]), target(s[i]));
    }
    KeepNone(FlatMap(s, gives), p);
  }

  /** A risk that left the queue comes back with a summary exactly when it is open and at least two of
      the four review conditions hold; the summary lists as many reasons. */
  lemma ReentryIff(input: Inputs, r: RiskInput)
    requires DistinctIds(input) && r in input.risks
    ensures
      var flags := Flags(input);
      (exists s :: s in Reentries(input, flags) && s.target == RiskTarget(r))
      <==> r.Exited? && Active(r, input.asOf) >= 2
    ensures |Reasons(Flags(input), RiskTarget(r))| == Active(r, input.asOf)
  {
    var flags, target := Flags(input), RiskTarget(r);
    var p := (f: Flag) => Of(f, target);
    ReasonsCount(flags, target);
    KeepSorted(AllFlags(input), FlagKey, p);
    OnlyRiskFlags(input, target, p);
    KeepOwn(input.risks, input.asOf, r, p);
    KeepRaised(r, input.asOf, p);
    assert |Reasons(flags, target)| == Active(r, input.asOf);
    ReentryHas(input, flags, r);
  }

  lemma ReentryHas(input: Inputs, flags: seq<Flag>, r: RiskInput)
    requires DistinctIds(input) && r in input.risks
    ensures (exists s :: s in Reentries(input, flags) && s.target == RiskTarget(r))
            <==> r.Exited? && |Reasons(flags, RiskTarget(r))| >= 2
  {
    var all := FlatMap(input.risks, ReentryOf(flags));
    assert forall s :: s in Reentries(input, flags) <==> s in multiset(Reentries(input, flags));
    assert forall s :: s in all <==> s in multiset(all);
    ReentryGiven(input.risks, flags, r);
  }

  lemma ReentryGiven(risks: seq<RiskInput>, flags: seq<Flag>, r: RiskInput)
    requires DistinctTargets(risks, RiskTarget) && r in risks
    ensures (exists s :: s in FlatMap(risks, ReentryOf(flags)) && s.target == RiskTarget(r))
            <==> r.Exited? && |Reasons(flags, RiskTarget(r))| >= 2
  {
    var k :| 0 <= k < |risks| && risks[k] == r;
    if r.Exited? && |Reasons(flags, RiskTarget(r))| >= 2 {
      var s := Reentry(RiskTarget(r), Reasons(flags, RiskTarget(r)));
      assert s in ReentryOf(flags)(risks[k]);
      FlatMapHas(risks, ReentryOf(flags), s);
    }
    if s :| s in FlatMap(risks, ReentryOf(flags)) && s.target == RiskTarget(r) {
      FlatMapHas(risks, ReentryOf(flags), s);
      var i :| 0 <= i < |risks| && s in ReentryOf(flags)(risks[i]);
      assert RiskTarget(risks[i]) == RiskTarget(r);
    }
  }

  lemma {:induction false} ReasonsHas(flags: seq<Flag>, target: Target, reason: Reason)
    ensures reason in Reasons(flags, target) <==> ForReentry(reason) && Raises(flags, target, reason)
  {
    if flags == [] {
    } else {
      assert flags == [flags[0]] + flags[1..];
      RaisesInEither([flags[0]], flags[1..], target, reason);
      ReasonsHas(flags[1..], target, reason);
      assert Raises([flags[0]], target, reason) <==> flags[0].target == target && flags[0].reason == reason by {
        assert flags[0] in [flags[0]];
      }
    }
  }

  lemma FirstIsLeast(flags: seq<Flag>, target: Target, reason: Reason)
    requires forall m, n :: 0 <= m < n < |flags| ==> FlaggedBefore(flags[m], flags[n])
    requires flags != [] && flags[0].target == target && reason in Reasons(flags[1..], target)
    ensures ReasonRank(flags[0].reason) < ReasonRank(reason)
  {
    ReasonsHas(flags[1..], target, reason);
    var f :| f in flags[1..] && f.target == target && f.reason == reason;
    var n :| 0 < n < |flags| && flags[n] == f;
    assert FlaggedBefore(flags[0], flags[n]);
  }

  lemma {:induction false} ReasonsIncrease(flags: seq<Flag>, target: Target, i: nat, j: nat)
    requires forall m, n :: 0 <= m < n < |flags| ==> FlaggedBefore(flags[m], flags[n])
    requires i < j < |Reasons(flags, target)|
    ensures ReasonRank(Reasons(flags, target)[i]) < ReasonRank(Reasons(flags, target)[j])
  {
    var first, rest := flags[0], Reasons(flags[1..], target);
    if first.target == target && ForReentry(first.reason) {
      assert Reasons(flags, target) == [first.reason] + rest;
      if i == 0 {
        assert rest[j - 1] in rest;
        FirstIsLeast(flags, target, rest[j - 1]);
      } else {
        ReasonsIncrease(flags[1..], target, i - 1, j - 1);
      }
    } else {
      assert Reasons(flags, target) == rest;
      ReasonsIncrease(flags[1..], target, i, j);
    }
  }

  /** A review condition that holds of a risk out of the queue. */
  predicate Reviewed(r: RiskInput, reason: Reason, asOf: int)
    requires r.Exited?
  {
    && r.state == RiskOpen
    && match reason
       case RiskReviewDue => r.reviewAt <= asOf
       case RiskExposureIncreased => r.exposureIncreased
       case RiskEvidenceStale => r.evidenceStale
       case RiskControlInvalid => r.controlInvalid
       case _ => false
  }

  lemma ReentryFrom(risks: seq<RiskInput>, flags: seq<Flag>, s: Reentry) returns (r: RiskInput)
    requires s in FlatMap(risks, ReentryOf(flags))
    ensures r in risks && r.Exited? && s == Reentry(RiskTarget(r), Reasons(flags, RiskTarget(r)))
  {
    FlatMapHas(risks, ReentryOf(flags), s);
    var k :| 0 <= k < |risks| && s in ReentryOf(flags)(risks[k]);
    r := risks[k];
  }

  lemma ReviewedIs(input: Inputs, r: RiskInput, reason: Reason)
    requires DistinctIds(input) && r in input.risks && r.Exited?
    ensures reason in Reasons(Flags(input), RiskTarget(r)) <==> Reviewed(r, reason, input.asOf)
  {
    ReasonsHas(Flags(input), RiskTarget(r), reason);
    RiskFlaggedIff(input, r, reason);
  }

  /** A summary is of a risk out of the queue and lists exactly the review conditions that hold of it,
      each once, in the order of the reasons. */
  lemma ReentryLists(input: Inputs, s: Reentry) returns (r: RiskInput)
    requires DistinctIds(input) && s in Reentries(input, Flags(input))
    ensures r in input.risks && r.Exited? && s.target == RiskTarget(r)
    ensures forall reason :: reason in s.reasons <==> Reviewed(r, reason, input.asOf)
    ensures forall i, j :: 0 <= i < j < |s.reasons| ==> ReasonRank(s.reasons[i]) < ReasonRank(s.reasons[j])
  {
    SortedHas(FlatMap(input.risks, ReentryOf(Flags(input))), ReentryKey, s);
    r := ReentryFrom(input.risks, Flags(input), s);
    forall reason
      ensures reason in s.reasons <==> Reviewed(r, reason, input.asOf)
    {
      ReviewedIs(input, r, reason);
    }
    FlagsIncrease(input);
    forall i, j | 0 <= i < j < |s.reasons|
      ensures ReasonRank(s.reasons[i]) < ReasonRank(s.reasons[j])
    {
      ReasonsIncrease(Flags(input), s.target, i, j);
    }
  }

  lemma ReentryLt(s: Reentry, r: Reentry)
    requires s.target.kind == r.target.kind && Le(ReentryKey(s), ReentryKey(r)) && ReentryKey(s) != ReentryKey(r)
    ensures Lt(s.target.id, r.target.id)
  {
    assert ReentryKey(s)[1..] == s.target.id && ReentryKey(r)[1..] == r.target.id;
  }

  lemma ReentryOfRisk(input: Inputs, flags: seq<Flag>, i: nat)
    requires i < |Reentries(input, flags)|
    ensures Reentries(input, flags)[i].target.kind == Risk
  {
    var all := FlatMap(input.risks, ReentryOf(flags));
    SortedHas(all, ReentryKey, Reentries(input, flags)[i]);
    var r := ReentryFrom(input.risks, flags, Reentries(input, flags)[i]);
  }

  /** With distinct ids the summaries stand by id, each risk once. */
  lemma ReentriesIncrease(input: Inputs, flags: seq<Flag>, i: nat, j: nat)
    requires DistinctIds(input) && i < j < |Reentries(input, flags)|
    ensures Lt(Reentries(input, flags)[i].target.id, Reentries(input, flags)[j].target.id)
  {
    var all, s := FlatMap(input.risks, ReentryOf(flags)), Reentries(input, flags);
    ReentriesOnce(input.risks, flags);
    SortOrders(all, ReentryKey);
    SortDistinct(all, ReentryKey);
    ReentryOfRisk(input, flags, i);
    ReentryOfRisk(input, flags, j);
    ReentryLt(s[i], s[j]);
  }

  lemma {:induction false} ReentriesOnce(risks: seq<RiskInput>, flags: seq<Flag>)
    requires DistinctTargets(risks, RiskTarget)
    ensures DistinctKeys(FlatMap(risks, ReentryOf(flags)), ReentryKey)
  {
    if risks == [] {
    } else {
      ReentriesOnce(risks[1..], flags);
      var first, rest := ReentryOf(flags)(risks[0]), FlatMap(risks[1..], ReentryOf(flags));
      forall i, j | 0 <= i < |first| && 0 <= j < |rest|
        ensures ReentryKey(first[i]) != ReentryKey(rest[j])
      {
        assert rest[j] in rest;
        FlatMapHas(risks[1..], ReentryOf(flags), rest[j]);
        var n :| 0 <= n < |risks[1..]| && rest[j] in ReentryOf(flags)(risks[1..][n]);
        assert RiskTarget(risks[0]) != RiskTarget(risks[n + 1]);
        TargetKeyInjective(first[i].target, rest[j].target);
      }
    }
  }
}
