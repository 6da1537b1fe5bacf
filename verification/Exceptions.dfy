// From two Ledger snapshots to Work Queue facts and the Cockpit's exception
// list: every flag belongs to one record, and nothing is invented.

module Exceptions {
  import opened Prelude
  import opened Sorting
  import opened Classification
  import opened Attention
  import opened WorkQueue

  datatype RequestRecord = RequestRecord(
    id: Text, state: RequestState, ownerPresent: bool, responseDue: Option<int>, level: Level, body: string)

  datatype ActionRecord = ActionRecord(id: Text, state: ActionState, dueAt: int, level: Level, body: string)

  datatype DecisionRecord = DecisionRecord(
    id: Text, state: DecisionState, ownerPresent: bool, level: Level, body: string)

  datatype RiskRecord = RiskRecord(id: Text, state: RiskState, nextReview: Option<int>, level: Level, body: string)

  datatype IssueState = OpenIssue | ResolvedIssue | ClosedIssue

  datatype IssueRecord = IssueRecord(id: Text, state: IssueState, recurs: bool, level: Level, body: string)

  datatype Snapshots = Snapshots(
    asOf: int, decisionWindow: int, actionWindow: Option<int>,
    requests: seq<RequestRecord>, actions: seq<ActionRecord>, decisions: seq<DecisionRecord>,
    risks: seq<RiskRecord>, issues: seq<IssueRecord>)

  // ---- What a state admits ----

  function RequestIntents(s: RequestState): nat { if s == Draft then 1 else if s == Open then 3 else 0 }

  function ActionIntents(s: ActionState): nat { if s == ActionOpen then 2 else if s == InProgress then 3 else 1 }

  function DecisionIntents(s: DecisionState): nat {
    if s == DecisionDraft then 1 else if s == DecisionOpen then 2 else 0
  }

  function RiskIntents(s: RiskState): nat { if s == RiskOpen then 2 else 0 }

  function IssueIntents(s: IssueState): nat { if s == OpenIssue then 1 else if s == ResolvedIssue then 2 else 0 }

  // ---- Attention inputs: what is not known asserts nothing ----

  function Current(level: Level): Metadata { Metadata(level, Fresh, false) }

  /** `parses` says which stored ids are well-formed. */
  function RequestGiven(parses: Text -> bool): RequestRecord -> seq<RequestInput> {
    (r: RequestRecord) =>
      if !parses(r.id) then []
      else [RequestInput(r.id, r.state, r.ownerPresent, r.responseDue, false, Current(r.level))]
  }

  function ActionGiven(): ActionRecord -> seq<ActionInput> {
    (a: ActionRecord) => [ActionInput(a.id, a.state, a.dueAt, false, false, NoEvidenceAsked, false, Current(a.level))]
  }

  function DecisionGiven(parses: Text -> bool): DecisionRecord -> seq<DecisionInput> {
    (d: DecisionRecord) =>
      if !parses(d.id) then [] else [DecisionInput(d.id, d.state, d.ownerPresent, None, false, Current(d.level))]
  }

  function RiskGiven(): RiskRecord -> seq<RiskInput> {
    (r: RiskRecord) => [InQueue(r.id, r.state, r.nextReview, false, false, false, true, Current(r.level))]
  }

  function IssueGiven(parses: Text -> bool): IssueRecord -> seq<IssueInput> {
    (i: IssueRecord) =>
      if !parses(i.id) then []
      else
        [IssueInput(i.id, if i.state == OpenIssue then IssueOpen(false) else IssueResolved(Complete), None, false,
                    i.recurs, Current(i.level))]
  }

  function AttentionInputs(s: Snapshots, parses: Text -> bool): Inputs {
    Inputs(s.asOf, s.decisionWindow, s.actionWindow,
           FlatMap(s.requests, RequestGiven(parses)), FlatMap(s.actions, ActionGiven()),
           FlatMap(s.decisions, DecisionGiven(parses)), FlatMap(s.risks, RiskGiven()),
           FlatMap(s.issues, IssueGiven(parses)))
  }

  function FlagsOf(s: Snapshots, parses: Text -> bool): seq<Flag> { Flags(AttentionInputs(s, parses)) }

  // ---- The record a flag was raised against ----

  function FirstDue(rs: seq<RequestRecord>, id: Text): Option<int> {
    if rs == [] then None else if rs[0].id == id then rs[0].responseDue else FirstDue(rs[1..], id)
  }

  function FirstActionDue(rs: seq<ActionRecord>, id: Text): Option<int> {
    if rs == [] then None else if rs[0].id == id then Some(rs[0].dueAt) else FirstActionDue(rs[1..], id)
  }

  function FirstReview(rs: seq<RiskRecord>, id: Text): Option<int> {
    if rs == [] then None else if rs[0].id == id then rs[0].nextReview else FirstReview(rs[1..], id)
  }

  function RelevantAt(s: Snapshots, t: Target): Option<int> {
    match t.kind
    case ActionRequest => FirstDue(s.requests, t.id)
    case Action => FirstActionDue(s.actions, t.id)
    case Risk => FirstReview(s.risks, t.id)
    case _ => None
  }

  function Paired(s: Snapshots, f: Flag): Rankable { Rankable(f, RelevantAt(s, f.target)) }

  function AttentionFor(s: Snapshots, flags: seq<Flag>, target: Target): seq<Rankable> {
    if flags == [] then []
    else
      (if flags[0].target == target then [Paired(s, flags[0])] else []) + AttentionFor(s, flags[1..], target)
  }

  // ---- Facts ----

  function RequestFacts(s: Snapshots, flags: seq<Flag>): RequestRecord -> seq<Facts> {
    (r: RequestRecord) =>
      [Facts(ActionRequest, r.id, RequestIntents(r.state), r.responseDue,
             AttentionFor(s, flags, Target(ActionRequest, r.id)), r.body)]
  }

  function ActionFacts(s: Snapshots, flags: seq<Flag>): ActionRecord -> seq<Facts> {
    (a: ActionRecord) =>
      [Facts(Action, a.id, ActionIntents(a.state), Some(a.dueAt), AttentionFor(s, flags, Target(Action, a.id)), a.body)]
  }

  function DecisionFacts(s: Snapshots, flags: seq<Flag>): DecisionRecord -> seq<Facts> {
    (d: DecisionRecord) =>
      [Facts(DecisionRequest, d.id, DecisionIntents(d.state), None,
             AttentionFor(s, flags, Target(DecisionRequest, d.id)), d.body)]
  }

  function RiskFacts(s: Snapshots, flags: seq<Flag>): RiskRecord -> seq<Facts> {
    (r: RiskRecord) =>
      [Facts(Risk, r.id, RiskIntents(r.state), r.nextReview, AttentionFor(s, flags, Target(Risk, r.id)), r.body)]
  }

  function IssueFacts(s: Snapshots, flags: seq<Flag>): IssueRecord -> seq<Facts> {
    (i: IssueRecord) =>
      [Facts(Issue, i.id, IssueIntents(i.state), None, AttentionFor(s, flags, Target(Issue, i.id)), i.body)]
  }

  function FactsFrom(s: Snapshots, flags: seq<Flag>): seq<Facts> {
    FlatMap(s.requests, RequestFacts(s, flags))
    + (FlatMap(s.actions, ActionFacts(s, flags))
       + (FlatMap(s.decisions, DecisionFacts(s, flags))
          + (FlatMap(s.risks, RiskFacts(s, flags)) + FlatMap(s.issues, IssueFacts(s, flags)))))
  }

  method WorkItemFacts(s: Snapshots, parses: Text -> bool) returns (facts: seq<Facts>)
    ensures facts == FactsFrom(s, FlagsOf(s, parses))
  {
    var flags, _ := DeriveAttention(AttentionInputs(s, parses));
    var requests := Collect(s.requests, RequestFacts(s, flags));
    var actions := Collect(s.actions, ActionFacts(s, flags));
    var decisions := Collect(s.decisions, DecisionFacts(s, flags));
    var risks := Collect(s.risks, RiskFacts(s, flags));
    var issues := Collect(s.issues, IssueFacts(s, flags));
    facts := requests + (actions + (decisions + (risks + issues)));
  }

  const ONLY_FLAGGED := Filter([], true)

  function Attached(): Item -> seq<Rankable> { (i: Item) => i.attention }

  function ExceptionsFrom(facts: seq<Facts>): seq<Rankable> { FlatMap(Queue(ONLY_FLAGGED, facts), Attached()) }

  /** The Cockpit's exception list: the flagged Work Queue, flattened. */
  method PortfolioAttention(s: Snapshots, parses: Text -> bool) returns (exceptions: seq<Rankable>)
    ensures exceptions == ExceptionsFrom(FactsFrom(s, FlagsOf(s, parses)))
  {
    var facts := WorkItemFacts(s, parses);
    var queue := Queue(ONLY_FLAGGED, facts);
    exceptions := Collect(queue, Attached());
  }

  // ---- Conservation ----

  lemma {:induction false} AttentionForHas(s: Snapshots, flags: seq<Flag>, target: Target, x: Rankable)
    ensures x in AttentionFor(s, flags, target) <==>
            x.flag in flags && x.flag.target == target && x == Paired(s, x.flag)
    ensures multiset(AttentionFor(s, flags, target))[x] ==
            if x.flag.target == target && x == Paired(s, x.flag) then multiset(flags)[x.flag] else 0
  {
    if flags == [] {
    } else {
      assert flags == [flags[0]] + flags[1..];
      AttentionForHas(s, flags[1..], target, x);
    }
  }

  /** Each record carries its own flags and no other's. */
  ghost predicate Carries(s: Snapshots, flags: seq<Flag>, f: Facts) {
    f.attention == AttentionFor(s, flags, Target(f.kind, f.id))
  }

  lemma FactsCarry(s: Snapshots, flags: seq<Flag>)
    ensures forall f :: f in FactsFrom(s, flags) ==> Carries(s, flags, f)
  {
    forall f | f in FactsFrom(s, flags)
      ensures Carries(s, flags, f)
    {
      FlatMapHas(s.requests, RequestFacts(s, flags), f);
      FlatMapHas(s.actions, ActionFacts(s, flags), f);
      FlatMapHas(s.decisions, DecisionFacts(s, flags), f);
      FlatMapHas(s.risks, RiskFacts(s, flags), f);
      FlatMapHas(s.issues, IssueFacts(s, flags), f);
    }
  }

  lemma ExceptionsCount(facts: seq<Facts>, x: Rankable)
    ensures multiset(ExceptionsFrom(facts))[x] == multiset(FlatMap(Outstanding(facts), Attached()))[x]
  {
    var flagged := (i: Item) => Admits(ONLY_FLAGGED, i);
    FlatMapPermute(Queue(ONLY_FLAGGED, facts), Keep(Outstanding(facts), flagged), Attached());
    UnflaggedGiveNothing(Outstanding(facts), flagged);
  }

  lemma AttachedFirst(i: Item, rest: seq<Item>)
    ensures FlatMap([i] + rest, Attached()) == i.attention + FlatMap(rest, Attached())
  {
    assert ([i] + rest)[1..] == rest;
  }

  lemma {:induction false} UnflaggedGiveNothing(items: seq<Item>, flagged: Item -> bool)
    requires forall i :: flagged(i) <==> i.attention != []
    ensures FlatMap(Keep(items, flagged), Attached()) == FlatMap(items, Attached())
  {
    if items == [] {
    } else {
      var first, rest := items[0], items[1..];
      assert items == [first] + rest;
      UnflaggedGiveNothing(rest, flagged);
      KeepFirst(first, rest, flagged);
      AttachedFirst(first, rest);
      AttachedFirst(first, Keep(rest, flagged));
    }
  }

  function GivenBy(): Facts -> seq<Rankable> {
    (f: Facts) => if IsOutstanding(f) then RankAttention(f.attention) else []
  }

  lemma {:induction false} OutstandingGives(facts: seq<Facts>)
    ensures FlatMap(Outstanding(facts), Attached()) == FlatMap(facts, GivenBy())
  {
    if facts == [] {
    } else {
      OutstandingGives(facts[1..]);
      OutstandingFirst(facts);
      if IsOutstanding(facts[0]) {
        FlatMapConcat([ToItem(facts[0])], Outstanding(facts[1..]), Attached());
        FlatMapOne(ToItem(facts[0]), Attached());
      } else {
        assert Outstanding(facts) == Outstanding(facts[1..]);
      }
    }
  }

  /** How often a rankable flag is given: as often as it was derived, if the record it was raised
      against admits an intent, and otherwise never. */
  lemma GivenCount(s: Snapshots, flags: seq<Flag>, facts: seq<Facts>, k: nat, x: Rankable)
    requires k < |facts| && DistinctRecords(facts) && forall f :: f in facts ==> Carries(s, flags, f)
    requires x == Paired(s, x.flag) && x.flag.target == Target(facts[k].kind, facts[k].id)
    ensures multiset(ExceptionsFrom(facts))[x] == if IsOutstanding(facts[k]) then multiset(flags)[x.flag] else 0
  {
    forall i | 0 <= i < |facts| && i != k
      ensures x !in GivenBy()(facts[i])
    {
      assert Carries(s, flags, facts[i]);
      AttentionForHas(s, flags, Target(facts[i].kind, facts[i].id), x);
      assert x !in multiset(facts[i].attention);
      assert Target(facts[i].kind, facts[i].id) != x.flag.target;
    }
    ExceptionsCount(facts, x);
    OutstandingGives(facts);
    FlatMapCount(facts, GivenBy(), k, x);
    assert Carries(s, flags, facts[k]);
    AttentionForHas(s, flags, Target(facts[k].kind, facts[k].id), x);
  }

  lemma Given(s: Snapshots, flags: seq<Flag>, facts: seq<Facts>, x: Rankable)
    requires forall f :: f in facts ==> Carries(s, flags, f)
    ensures x in ExceptionsFrom(facts) ==>
              && x.flag in flags && x == Paired(s, x.flag)
              && exists k :: 0 <= k < |facts| && IsOutstanding(facts[k])
                             && x.flag.target == Target(facts[k].kind, facts[k].id)
  {
    ExceptionsCount(facts, x);
    OutstandingGives(facts);
    if x in ExceptionsFrom(facts) {
      assert x in multiset(FlatMap(facts, GivenBy()));
      FlatMapHas(facts, GivenBy(), x);
      var k :| 0 <= k < |facts| && x in GivenBy()(facts[k]);
      assert x in multiset(RankAttention(facts[k].attention));
      assert Carries(s, flags, facts[k]);
      AttentionForHas(s, flags, Target(facts[k].kind, facts[k].id), x);
    }
  }

  ghost predicate Distinct(s: Snapshots) {
    && (forall i, j :: 0 <= i < j < |s.requests| ==> s.requests[i].id != s.requests[j].id)
    && (forall i, j :: 0 <= i < j < |s.actions| ==> s.actions[i].id != s.actions[j].id)
    && (forall i, j :: 0 <= i < j < |s.decisions| ==> s.decisions[i].id != s.decisions[j].id)
    && (forall i, j :: 0 <= i < j < |s.risks| ==> s.risks[i].id != s.risks[j].id)
    && (forall i, j :: 0 <= i < j < |s.issues| ==> s.issues[i].id != s.issues[j].id)
  }

  /** Facts one by one, of one kind, with ids as the records have them. */
  lemma {:induction false} FactsEach<A(!new)>(
    records: seq<A>, give: A -> seq<Facts>, id: A -> Text, kind: Kind)
    requires forall a :: |give(a)| == 1 && give(a)[0].kind == kind && give(a)[0].id == id(a)
    ensures |FlatMap(records, give)| == |records|
    ensures forall i :: 0 <= i < |records| ==> FlatMap(records, give)[i] == give(records[i])[0]
  {
    if records == [] {
    } else {
      FactsEach(records[1..], give, id, kind);
    }
  }

  predicate KindsFrom(facts: seq<Facts>, low: nat) {
    DistinctRecords(facts) && forall f :: f in facts ==> KindRank(f.kind) >= low
  }

  lemma FactsJoin<A(!new)>(records: seq<A>, give: A -> seq<Facts>, id: A -> Text, kind: Kind, rest: seq<Facts>)
    requires forall a :: |give(a)| == 1 && give(a)[0].kind == kind && give(a)[0].id == id(a)
    requires forall i, j :: 0 <= i < j < |records| ==> id(records[i]) != id(records[j])
    requires KindsFrom(rest, KindRank(kind) + 1)
    ensures KindsFrom(FlatMap(records, give) + rest, KindRank(kind))
  {
    FactsEach(records, give, id, kind);
    assert forall j :: 0 <= j < |rest| ==> rest[j] in rest;
  }

  lemma FactsDistinct(s: Snapshots, flags: seq<Flag>)
    requires Distinct(s)
    ensures DistinctRecords(FactsFrom(s, flags))
  {
    var issues := FlatMap(s.issues, IssueFacts(s, flags));
    FactsJoin(s.issues, IssueFacts(s, flags), (i: IssueRecord) => i.id, Issue, []);
    assert issues + [] == issues;
    var risks := FlatMap(s.risks, RiskFacts(s, flags)) + issues;
    FactsJoin(s.risks, RiskFacts(s, flags), (r: RiskRecord) => r.id, Risk, issues);
    var decisions := FlatMap(s.decisions, DecisionFacts(s, flags)) + risks;
    FactsJoin(s.decisions, DecisionFacts(s, flags), (d: DecisionRecord) => d.id, DecisionRequest, risks);
    var actions := FlatMap(s.actions, ActionFacts(s, flags)) + decisions;
    FactsJoin(s.actions, ActionFacts(s, flags), (a: ActionRecord) => a.id, Action, decisions);
    FactsJoin(s.requests, RequestFacts(s, flags), (r: RequestRecord) => r.id, ActionRequest, actions);
  }

  ghost predicate OneEach<A(!new), B>(give: A -> seq<B>, id: A -> Text, kind: Kind, target: B -> Target) {
    forall a :: |give(a)| <= 1 && (give(a) != [] ==> target(give(a)[0]) == Target(kind, id(a)))
  }

  lemma GivenFrom<A(!new), B>(
    records: seq<A>, give: A -> seq<B>, id: A -> Text, kind: Kind, target: B -> Target, b: B) returns (i: nat)
    requires OneEach(give, id, kind, target) && b in FlatMap(records, give)
    ensures i < |records| && target(b) == Target(kind, id(records[i]))
  {
    FlatMapHas(records, give, b);
    i :| 0 <= i < |records| && b in give(records[i]);
  }

  /** At most one input per record, under the record's id. */
  lemma {:induction false} GivenDistinct<A(!new), B>(
    records: seq<A>, give: A -> seq<B>, id: A -> Text, kind: Kind, target: B -> Target)
    requires OneEach(give, id, kind, target)
    requires forall i, j :: 0 <= i < j < |records| ==> id(records[i]) != id(records[j])
    ensures DistinctTargets(FlatMap(records, give), target)
  {
    if records == [] {
    } else {
      GivenDistinct(records[1..], give, id, kind, target);
      var first, rest := give(records[0]), FlatMap(records[1..], give);
      forall j | 0 <= j < |rest|
        ensures first != [] ==> target(first[0]) != target(rest[j])
      {
        var i := GivenFrom(records[1..], give, id, kind, target, rest[j]);
        assert records[1..][i] == records[i + 1];
      }
    }
  }

  lemma InputsDistinct(s: Snapshots, parses: Text -> bool)
    requires Distinct(s)
    ensures DistinctIds(AttentionInputs(s, parses))
  {
    GivenDistinct(s.requests, RequestGiven(parses), (r: RequestRecord) => r.id, ActionRequest, RequestTarget);
    GivenDistinct(s.actions, ActionGiven(), (a: ActionRecord) => a.id, Action, ActionTarget);
    GivenDistinct(s.decisions, DecisionGiven(parses), (d: DecisionRecord) => d.id, DecisionRequest, DecisionTarget);
    GivenDistinct(s.risks, RiskGiven(), (r: RiskRecord) => r.id, Risk, RiskTarget);
    GivenDistinct(s.issues, IssueGiven(parses), (i: IssueRecord) => i.id, Issue, IssueTarget);
  }

  lemma FlagsOnce(input: Inputs, f: Flag)
    requires DistinctIds(input) && f in Flags(input)
    ensures multiset(Flags(input))[f] == 1
  {
    AllFlagsOnce(input);
    SortDistinct(AllFlags(input), FlagKey);
    Sorting.DistinctOnce(Flags(input), FlagKey, f);
  }

  lemma {:induction false} OwnDue(rs: seq<RequestRecord>, k: nat)
    requires k < |rs| && forall i, j :: 0 <= i < j < |rs| ==> rs[i].id != rs[j].id
    ensures FirstDue(rs, rs[k].id) == rs[k].responseDue
  {
    if k == 0 {
    } else {
      OwnDue(rs[1..], k - 1);
    }
  }

  lemma {:induction false} OwnActionDue(rs: seq<ActionRecord>, k: nat)
    requires k < |rs| && forall i, j :: 0 <= i < j < |rs| ==> rs[i].id != rs[j].id
    ensures FirstActionDue(rs, rs[k].id) == Some(rs[k].dueAt)
  {
    if k == 0 {
    } else {
      OwnActionDue(rs[1..], k - 1);
    }
  }

  lemma {:induction false} OwnReview(rs: seq<RiskRecord>, k: nat)
    requires k < |rs| && forall i, j :: 0 <= i < j < |rs| ==> rs[i].id != rs[j].id
    ensures FirstReview(rs, rs[k].id) == rs[k].nextReview
  {
    if k == 0 {
    } else {
      OwnReview(rs[1..], k - 1);
    }
  }

  /** A flag's time is the time of the very record it was raised against, if its kind has one. */
  lemma TimeIsOwn(s: Snapshots, k: nat)
    requires Distinct(s)
    ensures k < |s.requests| ==> RelevantAt(s, Target(ActionRequest, s.requests[k].id)) == s.requests[k].responseDue
    ensures k < |s.actions| ==> RelevantAt(s, Target(Action, s.actions[k].id)) == Some(s.actions[k].dueAt)
    ensures k < |s.risks| ==> RelevantAt(s, Target(Risk, s.risks[k].id)) == s.risks[k].nextReview
    ensures forall id :: RelevantAt(s, Target(DecisionRequest, id)).None? && RelevantAt(s, Target(Issue, id)).None?
  {
    if k < |s.requests| {
      OwnDue(s.requests, k);
    }
    if k < |s.actions| {
      OwnActionDue(s.actions, k);
    }
    if k < |s.risks| {
      OwnReview(s.risks, k);
    }
  }

  /** Some record with this identity admits an intent. */
  ghost predicate Admitting(facts: seq<Facts>, target: Target) {
    exists k :: 0 <= k < |facts| && IsOutstanding(facts[k]) && target == Target(facts[k].kind, facts[k].id)
  }

  /** For distinct records, the exception list holds each derived flag whose record admits an intent
      exactly once, with that record's own time, and nothing else. */
  lemma ExceptionsConserve(s: Snapshots, parses: Text -> bool, x: Rankable)
    requires Distinct(s)
    ensures
      var flags := FlagsOf(s, parses);
      var facts := FactsFrom(s, flags);
      multiset(ExceptionsFrom(facts))[x] ==
      if x.flag in flags && x == Paired(s, x.flag) && Admitting(facts, x.flag.target) then 1 else 0
  {
    var flags := FlagsOf(s, parses);
    var facts := FactsFrom(s, flags);
    FactsCarry(s, flags);
    FactsDistinct(s, flags);
    InputsDistinct(s, parses);
    Given(s, flags, facts, x);
    if x.flag in flags && x == Paired(s, x.flag) && Admitting(facts, x.flag.target) {
      var k :| 0 <= k < |facts| && IsOutstanding(facts[k]) && x.flag.target == Target(facts[k].kind, facts[k].id);
      GivenCount(s, flags, facts, k, x);
      FlagsOnce(AttentionInputs(s, parses), x.flag);
    }
  }

  ghost predicate Backs(f: Facts, target: Target) { IsOutstanding(f) && target == Target(f.kind, f.id) }

  lemma BackedBy<A(!new), B(!new)>(
    records: seq<A>, give: A -> seq<B>, raise: B -> seq<Flag>, facts: A -> seq<Facts>, f: Flag)
    requires f in FlatMap(FlatMap(records, give), raise)
    requires forall a, b :: a in records && b in give(a) && f in raise(b) ==>
               facts(a) != [] && Backs(facts(a)[0], f.target)
    ensures exists x :: x in FlatMap(records, facts) && Backs(x, f.target)
  {
    FlatMapHas(FlatMap(records, give), raise, f);
    var n :| 0 <= n < |FlatMap(records, give)| && f in raise(FlatMap(records, give)[n]);
    var b := FlatMap(records, give)[n];
    FlatMapHas(records, give, b);
    var k :| 0 <= k < |records| && b in give(records[k]);
    assert facts(records[k])[0] in facts(records[k]);
    FlatMapHas(records, facts, facts(records[k])[0]);
  }

  ghost predicate ClosedIn(s: Snapshots, target: Target) {
    exists i :: 0 <= i < |s.issues| && s.issues[i].state == ClosedIssue && target == Target(Issue, s.issues[i].id)
  }

  lemma RequestBacked(s: Snapshots, parses: Text -> bool, flags: seq<Flag>, f: Flag)
    requires f in FlatMap(FlatMap(s.requests, RequestGiven(parses)), RequestFlags(s.asOf))
    ensures exists x :: x in FlatMap(s.requests, RequestFacts(s, flags)) && Backs(x, f.target)
  {
    forall a: RequestRecord, b: RequestInput
      | a in s.requests && b in RequestGiven(parses)(a) && f in RequestFlags(s.asOf)(b)
      ensures Backs(RequestFacts(s, flags)(a)[0], f.target)
    {
      RequestsOwn(b, s.asOf);
    }
    BackedBy(s.requests, RequestGiven(parses), RequestFlags(s.asOf), RequestFacts(s, flags), f);
  }

  lemma ActionBacked(s: Snapshots, parses: Text -> bool, flags: seq<Flag>, f: Flag)
    requires f in FlatMap(FlatMap(s.actions, ActionGiven()), ActionFlags(s.asOf, s.actionWindow))
    ensures exists x :: x in FlatMap(s.actions, ActionFacts(s, flags)) && Backs(x, f.target)
  {
    forall a: ActionRecord, b: ActionInput
      | a in s.actions && b in ActionGiven()(a) && f in ActionFlags(s.asOf, s.actionWindow)(b)
      ensures Backs(ActionFacts(s, flags)(a)[0], f.target)
    {
      ActionsOwn(b, s.asOf, s.actionWindow);
    }
    BackedBy(s.actions, ActionGiven(), ActionFlags(s.asOf, s.actionWindow), ActionFacts(s, flags), f);
  }

  lemma DecisionBacked(s: Snapshots, parses: Text -> bool, flags: seq<Flag>, f: Flag)
    requires f in FlatMap(FlatMap(s.decisions, DecisionGiven(parses)), DecisionFlags(s.asOf, s.decisionWindow))
    ensures exists x :: x in FlatMap(s.decisions, DecisionFacts(s, flags)) && Backs(x, f.target)
  {
    forall a: DecisionRecord, b: DecisionInput
      | a in s.decisions && b in DecisionGiven(parses)(a) && f in DecisionFlags(s.asOf, s.decisionWindow)(b)
      ensures Backs(DecisionFacts(s, flags)(a)[0], f.target)
    {
      DecisionsOwn(b, s.asOf, s.decisionWindow);
    }
    BackedBy(s.decisions, DecisionGiven(parses), DecisionFlags(s.asOf, s.decisionWindow), DecisionFacts(s, flags), f);
  }

  lemma RiskBacked(s: Snapshots, parses: Text -> bool, flags: seq<Flag>, f: Flag)
    requires f in FlatMap(FlatMap(s.risks, RiskGiven()), RiskFlags(s.asOf))
    ensures exists x :: x in FlatMap(s.risks, RiskFacts(s, flags)) && Backs(x, f.target)
  {
    forall a: RiskRecord, b: RiskInput
      | a in s.risks && b in RiskGiven()(a) && f in RiskFlags(s.asOf)(b)
      ensures Backs(RiskFacts(s, flags)(a)[0], f.target)
    {
      RisksOwn(b, s.asOf);
    }
    BackedBy(s.risks, RiskGiven(), RiskFlags(s.asOf), RiskFacts(s, flags), f);
  }

  lemma IssueBacked(s: Snapshots, parses: Text -> bool, flags: seq<Flag>, f: Flag)
    requires f in FlatMap(FlatMap(s.issues, IssueGiven(parses)), IssueFlags(s.asOf))
    requires !ClosedIn(s, f.target)
    ensures exists x :: x in FlatMap(s.issues, IssueFacts(s, flags)) && Backs(x, f.target)
  {
    forall a: IssueRecord, b: IssueInput
      | a in s.issues && b in IssueGiven(parses)(a) && f in IssueFlags(s.asOf)(b)
      ensures Backs(IssueFacts(s, flags)(a)[0], f.target)
    {
      IssuesOwn(b, s.asOf);
      assert f.target == Target(Issue, a.id) && a.state != ClosedIssue;
    }
    BackedBy(s.issues, IssueGiven(parses), IssueFlags(s.asOf), IssueFacts(s, flags), f);
  }

  lemma InOneOf<T>(x: T, a: seq<T>, b: seq<T>, c: seq<T>, d: seq<T>, e: seq<T>)
    ensures x in a + (b + (c + (d + e))) <==> x in a || x in b || x in c || x in d || x in e
  {
  }

  lemma Backed(s: Snapshots, parses: Text -> bool, f: Flag)
    requires f in FlagsOf(s, parses) && !ClosedIn(s, f.target)
    ensures exists x :: x in FactsFrom(s, FlagsOf(s, parses)) && Backs(x, f.target)
  {
    var flags, input, t := FlagsOf(s, parses), AttentionInputs(s, parses), s.asOf;
    assert f in multiset(AllFlags(input));
    InOneOf(f, FlatMap(input.requests, RequestFlags(t)), FlatMap(input.actions, ActionFlags(t, s.actionWindow)),
            FlatMap(input.decisions, DecisionFlags(t, s.decisionWindow)), FlatMap(input.risks, RiskFlags(t)),
            FlatMap(input.issues, IssueFlags(t)));
    var x;
    if f in FlatMap(input.requests, RequestFlags(t)) {
      RequestBacked(s, parses, flags, f);
      x :| x in FlatMap(s.requests, RequestFacts(s, flags)) && Backs(x, f.target);
    } else if f in FlatMap(input.actions, ActionFlags(t, s.actionWindow)) {
      ActionBacked(s, parses, flags, f);
      x :| x in FlatMap(s.actions, ActionFacts(s, flags)) && Backs(x, f.target);
    } else if f in FlatMap(input.decisions, DecisionFlags(t, s.decisionWindow)) {
      DecisionBacked(s, parses, flags, f);
      x :| x in FlatMap(s.decisions, DecisionFacts(s, flags)) && Backs(x, f.target);
    } else if f in FlatMap(input.risks, RiskFlags(t)) {
      RiskBacked(s, parses, flags, f);
      x :| x in FlatMap(s.risks, RiskFacts(s, flags)) && Backs(x, f.target);
    } else {
      IssueBacked(s, parses, flags, f);
      x :| x in FlatMap(s.issues, IssueFacts(s, flags)) && Backs(x, f.target);
    }
    InOneOf(x, FlatMap(s.requests, RequestFacts(s, flags)), FlatMap(s.actions, ActionFacts(s, flags)),
            FlatMap(s.decisions, DecisionFacts(s, flags)), FlatMap(s.risks, RiskFacts(s, flags)),
            FlatMap(s.issues, IssueFacts(s, flags)));
  }

  lemma ClosedFact(s: Snapshots, flags: seq<Flag>, i: nat) returns (n: nat)
    requires i < |s.issues| && s.issues[i].state == ClosedIssue
    ensures n < |FactsFrom(s, flags)| && !IsOutstanding(FactsFrom(s, flags)[n])
    ensures FactsFrom(s, flags)[n].kind == Issue && FactsFrom(s, flags)[n].id == s.issues[i].id
  {
    var facts := FactsFrom(s, flags);
    var x := IssueFacts(s, flags)(s.issues[i])[0];
    FactsEach(s.issues, IssueFacts(s, flags), (r: IssueRecord) => r.id, Issue);
    assert FlatMap(s.issues, IssueFacts(s, flags))[i] == x;
    InOneOf(x, FlatMap(s.requests, RequestFacts(s, flags)), FlatMap(s.actions, ActionFacts(s, flags)),
            FlatMap(s.decisions, DecisionFacts(s, flags)), FlatMap(s.risks, RiskFacts(s, flags)),
            FlatMap(s.issues, IssueFacts(s, flags)));
    assert x in facts;
    n :| 0 <= n < |facts| && facts[n] == x;
  }

  lemma ClosedAdmitsNothing(s: Snapshots, flags: seq<Flag>, target: Target)
    requires Distinct(s) && ClosedIn(s, target)
    ensures !Admitting(FactsFrom(s, flags), target)
  {
    FactsDistinct(s, flags);
    var i :| 0 <= i < |s.issues| && s.issues[i].state == ClosedIssue && target == Target(Issue, s.issues[i].id);
    var n := ClosedFact(s, flags, i);
  }

  /** What the list drops is exactly the flags raised against closed issues. */
  lemma OnlyClosedIssuesDrop(s: Snapshots, parses: Text -> bool, f: Flag)
    requires Distinct(s) && f in FlagsOf(s, parses)
    ensures Admitting(FactsFrom(s, FlagsOf(s, parses)), f.target) <==> !ClosedIn(s, f.target)
  {
    var facts := FactsFrom(s, FlagsOf(s, parses));
    if ClosedIn(s, f.target) {
      ClosedAdmitsNothing(s, FlagsOf(s, parses), f.target);
    } else {
      Backed(s, parses, f);
      var x :| x in facts && Backs(x, f.target);
      var n :| 0 <= n < |facts| && facts[n] == x;
    }
  }

  /** A record's flags stand together. */
  lemma ExceptionsContiguous(s: Snapshots, flags: seq<Flag>, i: nat, j: nat, k: nat)
    requires Distinct(s) && i < j < k < |ExceptionsFrom(FactsFrom(s, flags))|
    ensures
      var e := ExceptionsFrom(FactsFrom(s, flags));
      e[i].flag.target == e[k].flag.target ==> e[j].flag.target == e[i].flag.target
  {
    var facts := FactsFrom(s, flags);
    FactsCarry(s, flags);
    FactsDistinct(s, flags);
    var queue := Queue(ONLY_FLAGGED, facts);
    QueueDistinct(facts);
    forall q | q in queue
      ensures forall x :: x in q.attention ==> x.flag.target == Target(q.kind, q.id)
    {
      var n := QueuedFrom(ONLY_FLAGGED, facts, q);
      assert Carries(s, flags, facts[n]);
      forall x | x in q.attention
        ensures x.flag.target == Target(q.kind, q.id)
      {
        assert x in multiset(RankAttention(facts[n].attention));
        AttentionForHas(s, flags, Target(facts[n].kind, facts[n].id), x);
      }
    }
    Contiguous(queue, i, j, k);
  }

  predicate DistinctItems(items: seq<Item>) {
    forall i, j :: 0 <= i < j < |items| ==> Target(items[i].kind, items[i].id) != Target(items[j].kind, items[j].id)
  }

  lemma QueueDistinct(facts: seq<Facts>)
    requires DistinctRecords(facts)
    ensures DistinctItems(Queue(ONLY_FLAGGED, facts))
  {
    var flagged := (i: Item) => Admits(ONLY_FLAGGED, i);
    OutstandingDistinct(facts);
    KeepDistinct(Outstanding(facts), flagged);
    SortDistinctItems(Keep(Outstanding(facts), flagged));
  }

  lemma {:induction false} OutstandingDistinct(facts: seq<Facts>)
    requires DistinctRecords(facts)
    ensures DistinctItems(Outstanding(facts))
  {
    if facts == [] {
    } else {
      OutstandingDistinct(facts[1..]);
      OutstandingFirst(facts);
      var rest := Outstanding(facts[1..]);
      forall j | 0 <= j < |rest|
        ensures Target(rest[j].kind, rest[j].id) != Target(facts[0].kind, facts[0].id)
      {
        var k := OutstandingFrom(facts[1..], rest[j]);
        assert facts[1..][k] == facts[k + 1];
      }
    }
  }

  lemma {:induction false} KeepDistinct(items: seq<Item>, p: Item -> bool)
    requires DistinctItems(items)
    ensures DistinctItems(Keep(items, p))
  {
    if items == [] {
    } else {
      KeepDistinct(items[1..], p);
      var rest := Keep(items[1..], p);
      forall j | 0 <= j < |rest|
        ensures Target(rest[j].kind, rest[j].id) != Target(items[0].kind, items[0].id)
      {
        KeepIn(items[1..], p, rest[j]);
        var k :| 0 <= k < |items[1..]| && items[1..][k] == rest[j];
        assert items[k + 1] == rest[j];
      }
    }
  }

  lemma SortDistinctItems(items: seq<Item>)
    requires DistinctItems(items)
    ensures DistinctItems(Sort(items, ItemKey))
  {
    forall i, j | 0 <= i < j < |items|
      ensures ItemKey(items[i]) != ItemKey(items[j])
    {
      if ItemKey(items[i]) == ItemKey(items[j]) {
        ItemKeyInjective(items[i], items[j]);
      }
    }
    SortDistinct(items, ItemKey);
    var sorted := Sort(items, ItemKey);
    forall i, j | 0 <= i < j < |sorted|
      ensures Target(sorted[i].kind, sorted[i].id) != Target(sorted[j].kind, sorted[j].id)
    {
      assert sorted[i] in multiset(items) && sorted[j] in multiset(items);
      var a :| 0 <= a < |items| && items[a] == sorted[i];
      var b :| 0 <= b < |items| && items[b] == sorted[j];
      assert a != b;
    }
  }

  ghost predicate OwnOnly(items: seq<Item>) {
    forall q :: q in items ==> forall x :: x in q.attention ==> x.flag.target == Target(q.kind, q.id)
  }

  /** What a later item carries is not of the first one's record. */
  lemma NotAcross(first: Item, rest: seq<Item>, x: Rankable)
    requires DistinctItems([first] + rest) && OwnOnly(rest) && x in FlatMap(rest, Attached())
    ensures x.flag.target != Target(first.kind, first.id)
  {
    FlatMapHas(rest, Attached(), x);
    var m :| 0 <= m < |rest| && x in rest[m].attention;
    var all := [first] + rest;
    assert rest[m] in rest && all[0] == first && all[m + 1] == rest[m];
  }

  lemma {:induction false} Contiguous(items: seq<Item>, i: nat, j: nat, k: nat)
    requires DistinctItems(items) && OwnOnly(items)
    requires i < j < k < |FlatMap(items, Attached())|
    ensures
      var e := FlatMap(items, Attached());
      e[i].flag.target == e[k].flag.target ==> e[j].flag.target == e[i].flag.target
  {
    var first, rest := items[0], items[1..];
    var own, later := first.attention, FlatMap(rest, Attached());
    assert items == [first] + rest && FlatMap(items, Attached()) == own + later;
    var n := |own|;
    if i >= n {
      Contiguous(rest, i - n, j - n, k - n);
    } else {
      assert first in items && own[i] in own;
      if k < n {
        assert own[j] in own;
      } else {
        NotAcross(first, rest, later[k - n]);
      }
    }
  }

  // ---- What is raised against a record, in the record's own terms ----

  predicate RequestRaises(r: RequestRecord, reason: Reason, asOf: int) {
    && (r.state == Draft || r.state == Open)
    && match reason
       case ActionRequestMissingIntendedOwner => !r.ownerPresent
       case ActionRequestResponseDue => r.responseDue == Some(asOf)
       case ActionRequestResponseOverdue => r.responseDue.Some? && r.responseDue.value < asOf
       case _ => false
  }

  predicate ActionRaises(a: ActionRecord, reason: Reason, asOf: int, window: Option<int>) {
    && (a.state == ActionOpen || a.state == InProgress)
    && match reason
       case ActionOverdue => a.dueAt < asOf
       case ActionAtRisk => window.Some? && (a.dueAt == asOf || asOf < a.dueAt <= asOf + window.value)
       case _ => false
  }

  predicate DecisionRaises(d: DecisionRecord, reason: Reason) {
    (d.state == DecisionDraft || d.state == DecisionOpen)
    && reason == DecisionRequestMissingDecisionOwner && !d.ownerPresent
  }

  predicate RiskRaises(r: RiskRecord, reason: Reason, asOf: int) {
    r.state == RiskOpen && reason == RiskReviewDue && r.nextReview.Some? && r.nextReview.value <= asOf
  }

  predicate IssueRaises(i: IssueRecord, reason: Reason) { reason == IssueRecurrence && i.recurs }

  predicate DistinctBy<A>(records: seq<A>, id: A -> Text) {
    forall i, j :: 0 <= i < j < |records| ==> id(records[i]) != id(records[j])
  }

  lemma SameRecord<A>(records: seq<A>, id: A -> Text, k: nat, x: A)
    requires DistinctBy(records, id) && k < |records| && x in records && id(x) == id(records[k])
    ensures x == records[k]
  {
  }

  lemma OnlyGiven<A(!new), B>(give: A -> seq<B>, id: A -> Text, kind: Kind, target: B -> Target, x: A, b: B)
    requires OneEach(give, id, kind, target) && b in give(x)
    ensures target(b) == Target(kind, id(x))
  {
    assert b == give(x)[0];
  }

  /** An input under one record's id is what that record gives. */
  lemma OneGives<A(!new), B(!new)>(
    records: seq<A>, give: A -> seq<B>, id: A -> Text, kind: Kind, target: B -> Target, k: nat, b: B)
    requires OneEach(give, id, kind, target) && k < |records| && DistinctBy(records, id)
    requires b in FlatMap(records, give) && target(b) == Target(kind, id(records[k]))
    ensures b in give(records[k])
  {
    var x := Contributor(records, give, b);
    OnlyGiven(give, id, kind, target, x, b);
    SameRecord(records, id, k, x);
  }

  lemma GivesOne<A, B>(records: seq<A>, give: A -> seq<B>, k: nat, b: B)
    requires k < |records| && b in give(records[k])
    ensures b in FlatMap(records, give)
  {
    FlatMapHas(records, give, b);
  }

  /** A flag as these snapshots can raise it: of its record's level, current, without guidance. */
  predicate Bare(f: Flag, level: Level) { f.metadata == Metadata(level, Fresh, false) && f.guidance == None }

  lemma Decided(flags: seq<Flag>, f: Flag, level: Level, raised: bool)
    requires Raises(flags, f.target, f.reason) <==> raised
    requires forall g :: g in flags && g.target == f.target ==> Bare(g, level)
    ensures f in flags <==> raised && Bare(f, level)
  {
    if raised {
      var g :| g in flags && g.target == f.target && g.reason == f.reason;
    }
  }

  lemma RequestOf(input: Inputs, g: Flag) returns (x: RequestInput)
    requires g in Flags(input) && g.target.kind == ActionRequest
    ensures x in input.requests && CarriesOnly(g, Target(ActionRequest, x.id), x.metadata)
  {
    FlagSourced(input, g);
    x :| x in input.requests && CarriesOnly(g, Target(ActionRequest, x.id), x.metadata);
  }

  lemma RequestBare(s: Snapshots, parses: Text -> bool, k: nat, g: Flag)
    requires Distinct(s) && k < |s.requests| && g in FlagsOf(s, parses)
    requires g.target == Target(ActionRequest, s.requests[k].id)
    ensures parses(s.requests[k].id) && Bare(g, s.requests[k].level)
  {
    var x := RequestOf(AttentionInputs(s, parses), g);
    OneGives(s.requests, RequestGiven(parses), (r: RequestRecord) => r.id, ActionRequest, RequestTarget, k, x);
  }

  lemma RequestRaised(s: Snapshots, parses: Text -> bool, k: nat, reason: Reason)
    requires Distinct(s) && k < |s.requests| && parses(s.requests[k].id)
    ensures Raises(FlagsOf(s, parses), Target(ActionRequest, s.requests[k].id), reason)
            <==> RequestRaises(s.requests[k], reason, s.asOf)
  {
    InputsDistinct(s, parses);
    var x := RequestGiven(parses)(s.requests[k])[0];
    GivesOne(s.requests, RequestGiven(parses), k, x);
    RequestFlaggedIff(AttentionInputs(s, parses), x, reason);
  }

  /** A request's flags are decided by its own state, owner and response date; one whose stored id is
      not well-formed raises none. */
  lemma RequestFlagged(s: Snapshots, parses: Text -> bool, k: nat, f: Flag)
    requires Distinct(s) && k < |s.requests| && f.target == Target(ActionRequest, s.requests[k].id)
    ensures f in FlagsOf(s, parses) <==>
            parses(f.target.id) && RequestRaises(s.requests[k], f.reason, s.asOf) && Bare(f, s.requests[k].level)
  {
    var flags, level := FlagsOf(s, parses), s.requests[k].level;
    forall g | g in flags && g.target == f.target
      ensures parses(f.target.id) && Bare(g, level)
    {
      RequestBare(s, parses, k, g);
    }
    if parses(f.target.id) {
      RequestRaised(s, parses, k, f.reason);
      Decided(flags, f, level, RequestRaises(s.requests[k], f.reason, s.asOf));
    }
  }

  lemma ActionOf(input: Inputs, g: Flag) returns (x: ActionInput)
    requires g in Flags(input) && g.target.kind == Action
    ensures x in input.actions && CarriesOnly(g, Target(Action, x.id), x.metadata)
  {
    FlagSourced(input, g);
    x :| x in input.actions && CarriesOnly(g, Target(Action, x.id), x.metadata);
  }

  lemma ActionBare(s: Snapshots, parses: Text -> bool, k: nat, g: Flag)
    requires Distinct(s) && k < |s.actions| && g in FlagsOf(s, parses)
    requires g.target == Target(Action, s.actions[k].id)
    ensures Bare(g, s.actions[k].level)
  {
    var x := ActionOf(AttentionInputs(s, parses), g);
    OneGives(s.actions, ActionGiven(), (r: ActionRecord) => r.id, Action, ActionTarget, k, x);
  }

  lemma ActionRaised(s: Snapshots, parses: Text -> bool, k: nat, reason: Reason)
    requires Distinct(s) && k < |s.actions|
    ensures Raises(FlagsOf(s, parses), Target(Action, s.actions[k].id), reason)
            <==> ActionRaises(s.actions[k], reason, s.asOf, s.actionWindow)
  {
    InputsDistinct(s, parses);
    var x := ActionGiven()(s.actions[k])[0];
    GivesOne(s.actions, ActionGiven(), k, x);
    ActionFlaggedIff(AttentionInputs(s, parses), x, reason);
  }

  /** An action's flags are decided by its own state and due date. */
  lemma ActionFlagged(s: Snapshots, parses: Text -> bool, k: nat, f: Flag)
    requires Distinct(s) && k < |s.actions| && f.target == Target(Action, s.actions[k].id)
    ensures f in FlagsOf(s, parses) <==>
            ActionRaises(s.actions[k], f.reason, s.asOf, s.actionWindow) && Bare(f, s.actions[k].level)
  {
    var flags, level := FlagsOf(s, parses), s.actions[k].level;
    forall g | g in flags && g.target == f.target
      ensures Bare(g, level)
    {
      ActionBare(s, parses, k, g);
    }
    ActionRaised(s, parses, k, f.reason);
    Decided(flags, f, level, ActionRaises(s.actions[k], f.reason, s.asOf, s.actionWindow));
  }

  lemma DecisionOf(input: Inputs, g: Flag) returns (x: DecisionInput)
    requires g in Flags(input) && g.target.kind == DecisionRequest
    ensures x in input.decisions && CarriesOnly(g, Target(DecisionRequest, x.id), x.metadata)
  {
    FlagSourced(input, g);
    x :| x in input.decisions && CarriesOnly(g, Target(DecisionRequest, x.id), x.metadata);
  }

  lemma DecisionBare(s: Snapshots, parses: Text -> bool, k: nat, g: Flag)
    requires Distinct(s) && k < |s.decisions| && g in FlagsOf(s, parses)
    requires g.target == Target(DecisionRequest, s.decisions[k].id)
    ensures parses(s.decisions[k].id) && Bare(g, s.decisions[k].level)
  {
    var x := DecisionOf(AttentionInputs(s, parses), g);
    OneGives(s.decisions, DecisionGiven(parses), (r: DecisionRecord) => r.id, DecisionRequest, DecisionTarget, k, x);
  }

  lemma DecisionRaised(s: Snapshots, parses: Text -> bool, k: nat, reason: Reason)
    requires Distinct(s) && k < |s.decisions| && parses(s.decisions[k].id)
    ensures Raises(FlagsOf(s, parses), Target(DecisionRequest, s.decisions[k].id), reason)
            <==> DecisionRaises(s.decisions[k], reason)
  {
    InputsDistinct(s, parses);
    var x := DecisionGiven(parses)(s.decisions[k])[0];
    GivesOne(s.decisions, DecisionGiven(parses), k, x);
    DecisionFlaggedIff(AttentionInputs(s, parses), x, reason);
  }

  /** A decision request's only flag is that nobody owns it while it is undecided. */
  lemma DecisionFlagged(s: Snapshots, parses: Text -> bool, k: nat, f: Flag)
    requires Distinct(s) && k < |s.decisions| && f.target == Target(DecisionRequest, s.decisions[k].id)
    ensures f in FlagsOf(s, parses) <==>
            parses(f.target.id) && DecisionRaises(s.decisions[k], f.reason) && Bare(f, s.decisions[k].level)
  {
    var flags, level := FlagsOf(s, parses), s.decisions[k].level;
    forall g | g in flags && g.target == f.target
      ensures parses(f.target.id) && Bare(g, level)
    {
      DecisionBare(s, parses, k, g);
    }
    if parses(f.target.id) {
      DecisionRaised(s, parses, k, f.reason);
      Decided(flags, f, level, DecisionRaises(s.decisions[k], f.reason));
    }
  }

  lemma RiskOf(input: Inputs, g: Flag) returns (x: RiskInput)
    requires g in Flags(input) && g.target.kind == Risk
    ensures x in input.risks && CarriesOnly(g, Target(Risk, x.id), x.metadata)
  {
    FlagSourced(input, g);
    x :| x in input.risks && CarriesOnly(g, Target(Risk, x.id), x.metadata);
  }

  lemma RiskBare(s: Snapshots, parses: Text -> bool, k: nat, g: Flag)
    requires Distinct(s) && k < |s.risks| && g in FlagsOf(s, parses)
    requires g.target == Target(Risk, s.risks[k].id)
    ensures Bare(g, s.risks[k].level)
  {
    var x := RiskOf(AttentionInputs(s, parses), g);
    OneGives(s.risks, RiskGiven(), (r: RiskRecord) => r.id, Risk, RiskTarget, k, x);
  }

  lemma RiskRaised(s: Snapshots, parses: Text -> bool, k: nat, reason: Reason)
    requires Distinct(s) && k < |s.risks|
    ensures Raises(FlagsOf(s, parses), Target(Risk, s.risks[k].id), reason)
            <==> RiskRaises(s.risks[k], reason, s.asOf)
  {
    InputsDistinct(s, parses);
    var x := RiskGiven()(s.risks[k])[0];
    GivesOne(s.risks, RiskGiven(), k, x);
    RiskFlaggedIff(AttentionInputs(s, parses), x, reason);
  }

  /** A risk's only flag is that its review has come while it is open. */
  lemma RiskFlagged(s: Snapshots, parses: Text -> bool, k: nat, f: Flag)
    requires Distinct(s) && k < |s.risks| && f.target == Target(Risk, s.risks[k].id)
    ensures f in FlagsOf(s, parses) <==> RiskRaises(s.risks[k], f.reason, s.asOf) && Bare(f, s.risks[k].level)
  {
    var flags, level := FlagsOf(s, parses), s.risks[k].level;
    forall g | g in flags && g.target == f.target
      ensures Bare(g, level)
    {
      RiskBare(s, parses, k, g);
    }
    RiskRaised(s, parses, k, f.reason);
    Decided(flags, f, level, RiskRaises(s.risks[k], f.reason, s.asOf));
  }

  lemma IssueOf(input: Inputs, g: Flag) returns (x: IssueInput)
    requires g in Flags(input) && g.target.kind == Issue
    ensures x in input.issues && CarriesGuidance(g, x)
  {
    FlagSourced(input, g);
    x :| x in input.issues && CarriesGuidance(g, x);
  }

  lemma IssueBare(s: Snapshots, parses: Text -> bool, k: nat, g: Flag)
    requires Distinct(s) && k < |s.issues| && g in FlagsOf(s, parses)
    requires g.target == Target(Issue, s.issues[k].id)
    ensures parses(s.issues[k].id) && Bare(g, s.issues[k].level)
  {
    var x := IssueOf(AttentionInputs(s, parses), g);
    OneGives(s.issues, IssueGiven(parses), (r: IssueRecord) => r.id, Issue, IssueTarget, k, x);
  }

  lemma IssueRaised(s: Snapshots, parses: Text -> bool, k: nat, reason: Reason)
    requires Distinct(s) && k < |s.issues| && parses(s.issues[k].id)
    ensures Raises(FlagsOf(s, parses), Target(Issue, s.issues[k].id), reason)
            <==> IssueRaises(s.issues[k], reason)
  {
    InputsDistinct(s, parses);
    var x := IssueGiven(parses)(s.issues[k])[0];
    GivesOne(s.issues, IssueGiven(parses), k, x);
    IssueFlaggedIff(AttentionInputs(s, parses), x, reason);
  }

  /** An issue's only flag is its recurrence, and a closed issue still raises it. */
  lemma IssueFlagged(s: Snapshots, parses: Text -> bool, k: nat, f: Flag)
    requires Distinct(s) && k < |s.issues| && f.target == Target(Issue, s.issues[k].id)
    ensures f in FlagsOf(s, parses) <==>
            parses(f.target.id) && IssueRaises(s.issues[k], f.reason) && Bare(f, s.issues[k].level)
  {
    var flags, level := FlagsOf(s, parses), s.issues[k].level;
    forall g | g in flags && g.target == f.target
      ensures parses(f.target.id) && Bare(g, level)
    {
      IssueBare(s, parses, k, g);
    }
    if parses(f.target.id) {
      IssueRaised(s, parses, k, f.reason);
      Decided(flags, f, level, IssueRaises(s.issues[k], f.reason));
    }
  }

  // ---- What the queue is told of each record ----

  predicate RequestTold(r: RequestRecord, f: Facts) {
    && f.kind == ActionRequest && f.id == r.id && f.relevantAt == r.responseDue && f.body == r.body
    && (f.intents == 0 <==> r.state == Accepted || r.state == Declined || r.state == Withdrawn)
  }

  /** An action always admits an intent. */
  predicate ActionTold(a: ActionRecord, f: Facts) {
    f.kind == Action && f.id == a.id && f.relevantAt == Some(a.dueAt) && f.body == a.body && f.intents > 0
  }

  predicate DecisionTold(d: DecisionRecord, f: Facts) {
    && f.kind == DecisionRequest && f.id == d.id && f.relevantAt == None && f.body == d.body
    && (f.intents == 0 <==> d.state == DecisionResolved || d.state == DecisionWithdrawn)
  }

  predicate RiskTold(r: RiskRecord, f: Facts) {
    && f.kind == Risk && f.id == r.id && f.relevantAt == r.nextReview && f.body == r.body
    && (f.intents == 0 <==> r.state == RiskOccurred || r.state == RiskClosed)
  }

  predicate IssueTold(i: IssueRecord, f: Facts) {
    && f.kind == Issue && f.id == i.id && f.relevantAt == None && f.body == i.body
    && (f.intents == 0 <==> i.state == ClosedIssue)
  }

  lemma RequestsTold(s: Snapshots, flags: seq<Flag>)
    ensures
      var told := FlatMap(s.requests, RequestFacts(s, flags));
      |told| == |s.requests| && forall k :: 0 <= k < |told| ==> RequestTold(s.requests[k], told[k])
  {
    FactsEach(s.requests, RequestFacts(s, flags), (r: RequestRecord) => r.id, ActionRequest);
  }

  lemma ActionsTold(s: Snapshots, flags: seq<Flag>)
    ensures
      var told := FlatMap(s.actions, ActionFacts(s, flags));
      |told| == |s.actions| && forall k :: 0 <= k < |told| ==> ActionTold(s.actions[k], told[k])
  {
    FactsEach(s.actions, ActionFacts(s, flags), (r: ActionRecord) => r.id, Action);
  }

  lemma DecisionsTold(s: Snapshots, flags: seq<Flag>)
    ensures
      var told := FlatMap(s.decisions, DecisionFacts(s, flags));
      |told| == |s.decisions| && forall k :: 0 <= k < |told| ==> DecisionTold(s.decisions[k], told[k])
  {
    FactsEach(s.decisions, DecisionFacts(s, flags), (r: DecisionRecord) => r.id, DecisionRequest);
  }

  lemma RisksTold(s: Snapshots, flags: seq<Flag>)
    ensures
      var told := FlatMap(s.risks, RiskFacts(s, flags));
      |told| == |s.risks| && forall k :: 0 <= k < |told| ==> RiskTold(s.risks[k], told[k])
  {
    FactsEach(s.risks, RiskFacts(s, flags), (r: RiskRecord) => r.id, Risk);
  }

  lemma IssuesTold(s: Snapshots, flags: seq<Flag>)
    ensures
      var told := FlatMap(s.issues, IssueFacts(s, flags));
      |told| == |s.issues| && forall k :: 0 <= k < |told| ==> IssueTold(s.issues[k], told[k])
  {
    FactsEach(s.issues, IssueFacts(s, flags), (r: IssueRecord) => r.id, Issue);
  }

  lemma FiveAt<T>(a: seq<T>, b: seq<T>, c: seq<T>, d: seq<T>, e: seq<T>, k: nat)
    ensures
      var s := a + (b + (c + (d + e)));
      && |s| == |a| + |b| + |c| + |d| + |e|
      && (k < |a| ==> s[k] == a[k])
      && (k < |b| ==> s[|a| + k] == b[k])
      && (k < |c| ==> s[|a| + |b| + k] == c[k])
      && (k < |d| ==> s[|a| + |b| + |c| + k] == d[k])
      && (k < |e| ==> s[|a| + |b| + |c| + |d| + k] == e[k])
  {
  }

  /** Each record is told of once, under its own identity, with its own time and facts, and admits an
      intent exactly while its state does. */
  lemma FactsTold(s: Snapshots, flags: seq<Flag>, k: nat)
    ensures
      var facts := FactsFrom(s, flags);
      var a := |s.requests|;
      var d := a + |s.actions|;
      var r := d + |s.decisions|;
      var i := r + |s.risks|;
      && |facts| == i + |s.issues|
      && (k < |s.requests| ==> RequestTold(s.requests[k], facts[k]))
      && (k < |s.actions| ==> ActionTold(s.actions[k], facts[a + k]))
      && (k < |s.decisions| ==> DecisionTold(s.decisions[k], facts[d + k]))
      && (k < |s.risks| ==> RiskTold(s.risks[k], facts[r + k]))
      && (k < |s.issues| ==> IssueTold(s.issues[k], facts[i + k]))
  {
    RequestsTold(s, flags);
    ActionsTold(s, flags);
    DecisionsTold(s, flags);
    RisksTold(s, flags);
    IssuesTold(s, flags);
    FiveAt(FlatMap(s.requests, RequestFacts(s, flags)), FlatMap(s.actions, ActionFacts(s, flags)),
           FlatMap(s.decisions, DecisionFacts(s, flags)), FlatMap(s.risks, RiskFacts(s, flags)),
           FlatMap(s.issues, IssueFacts(s, flags)), k);
  }

  /** A record carries exactly the flags raised against it, each with that record's time. */
  lemma FactsCarryOwn(s: Snapshots, flags: seq<Flag>, f: Facts, x: Rankable)
    requires f in FactsFrom(s, flags)
    ensures x in f.attention <==>
            && x.flag in flags && x.flag.target == Target(f.kind, f.id)
            && x == Rankable(x.flag, RelevantAt(s, x.flag.target))
  {
    FactsCarry(s, flags);
    AttentionForHas(s, flags, Target(f.kind, f.id), x);
  }
}
