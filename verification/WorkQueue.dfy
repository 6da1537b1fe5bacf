// Ranking attention and composing the Work Queue: membership, order, filters,
// counts and pages.

module WorkQueue {
  import opened Prelude
  import opened Sorting
  import opened Attention

  // ---- Ranking ----

  datatype Tier =
    BreachedCommitment | Blocked | EvidenceIntegrity | ApproachingDeadline | NoAccountableOwner | Other

  function TierRank(t: Tier): nat {
    match t
    case BreachedCommitment => 0
    case Blocked => 1
    case EvidenceIntegrity => 2
    case ApproachingDeadline => 3
    case NoAccountableOwner => 4
    case Other => 5
  }

  function TierOf(r: Reason): Tier {
    match r
    case ActionOverdue | ActionRequestResponseOverdue | DecisionRequestOverdue | IssueResolutionOverdue =>
      BreachedCommitment
    case ActionBlocked | IssueBlocked => Blocked
    case ActionNeedsEvidence | ActionEvidenceVerificationPending | IssueNeedsEvidence | RiskControlInvalid
       | RiskEvidenceStale => EvidenceIntegrity
    case ActionAtRisk | ActionRequestResponseDue | DecisionRequestApproachingDeadline | IssueResolutionDue
       | RiskReviewDue => ApproachingDeadline
    case ActionRequestMissingIntendedOwner | DecisionRequestMissingDecisionOwner | RiskMissingOwner =>
      NoAccountableOwner
    case _ => Other
  }

  /** Each tier by the reasons it holds: what is past its date; what is blocked; what its evidence or
      controls do not support; what is due; what nobody owns; and the rest. */
  lemma TierReasons(r: Reason)
    ensures TierOf(r) == BreachedCommitment <==>
            r in {ActionOverdue, ActionRequestResponseOverdue, DecisionRequestOverdue, IssueResolutionOverdue}
    ensures TierOf(r) == Blocked <==> r in {ActionBlocked, IssueBlocked}
    ensures TierOf(r) == EvidenceIntegrity <==>
            r in {ActionNeedsEvidence, ActionEvidenceVerificationPending, IssueNeedsEvidence, RiskControlInvalid,
                  RiskEvidenceStale}
    ensures TierOf(r) == ApproachingDeadline <==>
            r in {ActionAtRisk, ActionRequestResponseDue, DecisionRequestApproachingDeadline, IssueResolutionDue,
                  RiskReviewDue}
    ensures TierOf(r) == NoAccountableOwner <==>
            r in {ActionRequestMissingIntendedOwner, DecisionRequestMissingDecisionOwner, RiskMissingOwner}
  {
  }

  datatype Rankable = Rankable(flag: Flag, relevantAt: Option<int>)

  /** An absent time is not an early one: it comes after every present one. */
  function TimeKey(t: Option<int>): (k: Key)
    ensures |k| == 2
  {
    if t.Some? then [0, t.value] else [1, 0]
  }

  function RankKey(r: Rankable): Key {
    [TierRank(TierOf(r.flag.reason)) as int] + (TimeKey(r.relevantAt) + r.flag.target.id)
  }

  function RankAttention(items: seq<Rankable>): seq<Rankable> { Sort(items, RankKey) }

  predicate Earlier(a: Option<int>, b: Option<int>) { a.Some? && (b.None? || a.value < b.value) }

  lemma LePrefix(x: int, a: Key, y: int, b: Key)
    ensures Le([x] + a, [y] + b) <==> x < y || (x == y && Le(a, b))
  {
    assert ([x] + a)[1..] == a && ([y] + b)[1..] == b;
  }

  lemma LeTime(t: Option<int>, a: Key, u: Option<int>, b: Key)
    ensures Le(TimeKey(t) + a, TimeKey(u) + b) <==> Earlier(t, u) || (t == u && Le(a, b))
  {
    var s, v := TimeKey(t), TimeKey(u);
    assert s + a == [s[0]] + ([s[1]] + a) && v + b == [v[0]] + ([v[1]] + b);
    LePrefix(s[0], [s[1]] + a, v[0], [v[1]] + b);
    LePrefix(s[1], a, v[1], b);
  }

  /** The order of the accepted policy: tier, then time with absent last, then id. */
  predicate RankedBefore(a: Rankable, b: Rankable) {
    var s, t := TierRank(TierOf(a.flag.reason)), TierRank(TierOf(b.flag.reason));
    s < t || (s == t && (Earlier(a.relevantAt, b.relevantAt)
                         || (a.relevantAt == b.relevantAt && Le(a.flag.target.id, b.flag.target.id))))
  }

  lemma RankOrder(items: seq<Rankable>)
    ensures multiset(RankAttention(items)) == multiset(items)
    ensures forall i, j :: 0 <= i < j < |items| ==> RankedBefore(RankAttention(items)[i], RankAttention(items)[j])
  {
    SortOrders(items, RankKey);
    var ranked := RankAttention(items);
    forall i, j | 0 <= i < j < |items|
      ensures RankedBefore(ranked[i], ranked[j])
    {
      assert Le(RankKey(ranked[i]), RankKey(ranked[j]));
      RankLe(ranked[i], ranked[j]);
    }
  }

  lemma RankLe(a: Rankable, b: Rankable)
    ensures Le(RankKey(a), RankKey(b)) <==> RankedBefore(a, b)
  {
    LePrefix(TierRank(TierOf(a.flag.reason)), TimeKey(a.relevantAt) + a.flag.target.id,
             TierRank(TierOf(b.flag.reason)), TimeKey(b.relevantAt) + b.flag.target.id);
    LeTime(a.relevantAt, a.flag.target.id, b.relevantAt, b.flag.target.id);
  }

  predicate Tied(a: Rankable, b: Rankable) {
    TierOf(a.flag.reason) == TierOf(b.flag.reason) && a.relevantAt == b.relevantAt
    && a.flag.target.id == b.flag.target.id
  }

  lemma TierRankInjective(s: Tier, t: Tier)
    ensures TierRank(s) == TierRank(t) ==> s == t
  {
  }

  lemma TiedIs(a: Rankable, b: Rankable)
    ensures RankKey(a) == RankKey(b) <==> Tied(a, b)
  {
    RankLe(a, b);
    RankLe(b, a);
    LeTotal(RankKey(a), RankKey(b));
    LeTotal(a.flag.target.id, b.flag.target.id);
    TierRankInjective(TierOf(a.flag.reason), TierOf(b.flag.reason));
  }

  /** No two different items share tier, time and id. */
  ghost predicate NoTies(items: seq<Rankable>) {
    forall a, b :: a in items && b in items && Tied(a, b) ==> a == b
  }

  lemma NoTiesIs(items: seq<Rankable>)
    ensures NoTies(items) <==> Distinguishes(items, RankKey)
  {
    if NoTies(items) {
      forall a, b | a in items && b in items && RankKey(a) == RankKey(b)
        ensures a == b
      {
        TiedIs(a, b);
      }
    } else {
      var a, b :| a in items && b in items && Tied(a, b) && a != b;
      TiedIs(a, b);
    }
  }

  /** The ranking is independent of the order of its input exactly when nothing ties. */
  lemma RankingIsOrderFreeIff(items: seq<Rankable>)
    ensures OrderFree(items, RankKey) <==> NoTies(items)
  {
    NoTiesIs(items);
    OrderFreeIff(items, RankKey);
  }

  /** Two reasons of one record can tie: then they rank in the order they were given. */
  lemma RankingCanDependOnOrder()
    ensures exists a, b :: a != b && RankAttention([a, b]) != RankAttention([b, a])
  {
    var m := Metadata(Classification.Public, Stale, false);
    var t := Target(ActionRequest, [97]);
    var a := Rankable(Flag(t, ActionRequestNeedsInfo, m, None), None);
    var b := Rankable(Flag(t, ActionRequestStale, m, None), None);
    TieDependsOnOrder(a, b);
  }

  lemma TieDependsOnOrder(a: Rankable, b: Rankable)
    requires Tied(a, b) && a != b
    ensures RankAttention([a, b]) != RankAttention([b, a])
  {
    TiedIs(a, b);
    TiesKeepOrder(a, b, [], RankKey);
    assert [a, b] + [] == [a, b] && [b, a] + [] == [b, a];
  }

  /** What ties keeps its given order: for flags as derived, the order of the reasons' declaration. */
  lemma RankingKeepsTies(items: seq<Rankable>, a: Rankable, tied: Rankable -> bool)
    requires forall x :: tied(x) <==> Tied(x, a)
    ensures Keep(RankAttention(items), tied) == Keep(items, tied)
  {
    forall x { TiedIs(x, a); }
    TiesStay(items, RankKey, RankKey(a), tied);
  }

  // ---- Items ----

  /** `intents` counts what the record's state admits; `body` stands for the facts carried along. */
  datatype Facts = Facts(
    kind: Kind, id: Text, intents: nat, relevantAt: Option<int>, attention: seq<Rankable>, body: string)

  datatype Item = Item(
    kind: Kind, id: Text, relevantAt: Option<int>, attention: seq<Rankable>, placement: Option<Tier>, body: string)

  predicate IsOutstanding(f: Facts) { f.intents > 0 }

  function ToItem(f: Facts): Item {
    var attention := RankAttention(f.attention);
    Item(f.kind, f.id, f.relevantAt, attention,
         if attention == [] then None else Some(TierOf(attention[0].flag.reason)), f.body)
  }

  function PlacingTime(i: Item): Option<int> {
    if i.attention == [] then i.relevantAt else i.attention[0].relevantAt
  }

  function PlacementRank(p: Option<Tier>): nat { if p.None? then 6 else TierRank(p.value) }

  function KindName(k: Kind): string {
    match k
    case ActionRequest => "action_request"
    case Action => "action"
    case DecisionRequest => "decision_request"
    case Risk => "risk"
    case Issue => "issue"
  }

  /** Where a kind's name stands among the names, alphabetically. */
  function NameRank(k: Kind): nat {
    match k
    case Action => 0
    case ActionRequest => 1
    case DecisionRequest => 2
    case Issue => 3
    case Risk => 4
  }

  predicate NameBefore(s: string, t: string) {
    t != [] && (s == [] || s[0] < t[0] || (s[0] == t[0] && NameBefore(s[1..], t[1..])))
  }

  /** Only "action" and "action_request" share their first letter. */
  lemma NameRankIsAlphabetical(j: Kind, k: Kind)
    ensures NameBefore(KindName(j), KindName(k)) <==> NameRank(j) < NameRank(k)
  {
    if j == k {
      NotBeforeItself(KindName(j));
    } else if (j == Action && k == ActionRequest) || (j == ActionRequest && k == Action) {
      assert "action_request" == "action" + "_request";
      BeforeLonger("action", "_request");
    } else {
      assert KindName(j)[0] != KindName(k)[0];
    }
  }

  lemma {:induction false} BeforeLonger(s: string, t: string)
    requires t != []
    ensures NameBefore(s, s + t) && !NameBefore(s + t, s)
  {
    if s == [] {
    } else {
      assert (s + t)[1..] == s[1..] + t;
      BeforeLonger(s[1..], t);
    }
  }

  lemma {:induction false} NotBeforeItself(a: string)
    ensures !NameBefore(a, a)
  {
    if a == [] {
    } else {
      NotBeforeItself(a[1..]);
    }
  }

  function ItemKey(i: Item): Key {
    [PlacementRank(i.placement) as int] + (TimeKey(PlacingTime(i)) + ([NameRank(i.kind) as int] + i.id))
  }

  // ---- The queue ----

  datatype Filter = Filter(kinds: seq<Kind>, onlyFlagged: bool)

  datatype Request = Request(offset: nat, limit: nat, filter: Filter)

  datatype Body = Body(items: seq<Item>, counts: seq<(Kind, nat)>, total: nat)

  const ALL_KINDS := [ActionRequest, Action, DecisionRequest, Risk, Issue]

  predicate AdmitsFlag(f: Filter, i: Item) { !f.onlyFlagged || i.attention != [] }

  predicate Admits(f: Filter, i: Item) { AdmitsFlag(f, i) && (f.kinds == [] || i.kind in f.kinds) }

  function Outstanding(facts: seq<Facts>): seq<Item> {
    FlatMap(facts, (f: Facts) => if IsOutstanding(f) then [ToItem(f)] else [])
  }

  function Queue(filter: Filter, facts: seq<Facts>): seq<Item> {
    Sort(Keep(Outstanding(facts), (i: Item) => Admits(filter, i)), ItemKey)
  }

  function Min(a: nat, b: nat): nat { if a < b then a else b }

  /** `skip` and `take`. */
  function Page<T>(s: seq<T>, offset: nat, limit: nat): seq<T> {
    var start := Min(offset, |s|);
    s[start..Min(start + limit, |s|)]
  }

  function CountOf(filter: Filter, items: seq<Item>, kind: Kind): nat {
    |Keep(items, (i: Item) => i.kind == kind && AdmitsFlag(filter, i))|
  }

  function Compose(request: Request, facts: seq<Facts>): Body {
    var items := Queue(request.filter, facts);
    Body(Page(items, request.offset, request.limit),
         seq(|ALL_KINDS|, i requires 0 <= i < |ALL_KINDS| =>
           (ALL_KINDS[i], CountOf(request.filter, Outstanding(facts), ALL_KINDS[i]))),
         |items|)
  }

  // ---- Main results ----

  predicate DistinctRecords(facts: seq<Facts>) {
    forall i, j :: 0 <= i < j < |facts| ==> facts[i].kind != facts[j].kind || facts[i].id != facts[j].id
  }

  lemma OutstandingFrom(facts: seq<Facts>, x: Item) returns (k: nat)
    requires x in Outstanding(facts)
    ensures k < |facts| && IsOutstanding(facts[k]) && x == ToItem(facts[k])
  {
    var give := (f: Facts) => if IsOutstanding(f) then [ToItem(f)] else [];
    FlatMapHas(facts, give, x);
    k :| 0 <= k < |facts| && x in give(facts[k]);
  }

  lemma ItemKeyInjective(x: Item, y: Item)
    requires ItemKey(x) == ItemKey(y)
    ensures x.kind == y.kind && x.id == y.id
  {
    var a, b := ItemKey(x), ItemKey(y);
    assert a[3] == NameRank(x.kind) && b[3] == NameRank(y.kind);
    assert a[4..] == x.id && b[4..] == y.id;
  }

  lemma ItemsDistinguished(facts: seq<Facts>, p: Item -> bool)
    requires DistinctRecords(facts)
    ensures Distinguishes(Keep(Outstanding(facts), p), ItemKey)
  {
    var items := Keep(Outstanding(facts), p);
    forall x, y | x in items && y in items && ItemKey(x) == ItemKey(y)
      ensures x == y
    {
      KeepIn(Outstanding(facts), p, x);
      KeepIn(Outstanding(facts), p, y);
      ItemKeyInjective(x, y);
      var i := OutstandingFrom(facts, x);
      var j := OutstandingFrom(facts, y);
      assert i == j;
    }
  }

  /** For distinct records, the whole answer, page, counts and total, does not depend on the order in
      which the records were read. */
  lemma QueueIsOrderFree(request: Request, facts: seq<Facts>, other: seq<Facts>)
    requires DistinctRecords(facts) && multiset(other) == multiset(facts)
    ensures Compose(request, other) == Compose(request, facts)
  {
    var give := (f: Facts) => if IsOutstanding(f) then [ToItem(f)] else [];
    var admits := (i: Item) => Admits(request.filter, i);
    FlatMapPermute(facts, other, give);
    OutstandingIs(facts, give);
    OutstandingIs(other, give);
    KeepPermute(Outstanding(facts), Outstanding(other), admits);
    ItemsDistinguished(facts, admits);
    SortIsCanonical(Keep(Outstanding(facts), admits), Keep(Outstanding(other), admits), ItemKey);
    forall kind
      ensures CountOf(request.filter, Outstanding(facts), kind) == CountOf(request.filter, Outstanding(other), kind)
    {
      var counted := (i: Item) => i.kind == kind && AdmitsFlag(request.filter, i);
      KeepPermute(Outstanding(facts), Outstanding(other), counted);
      SameLength(Keep(Outstanding(facts), counted), Keep(Outstanding(other), counted));
    }
  }

  lemma {:induction false} OutstandingIs(facts: seq<Facts>, give: Facts -> seq<Item>)
    requires forall f :: give(f) == if IsOutstanding(f) then [ToItem(f)] else []
    ensures Outstanding(facts) == FlatMap(facts, give)
  {
    FlatMapSame(facts, give, (f: Facts) => if IsOutstanding(f) then [ToItem(f)] else []);
  }

  lemma {:induction false} FlatMapSame<A(!new), B>(s: seq<A>, f: A -> seq<B>, g: A -> seq<B>)
    requires forall x :: f(x) == g(x)
    ensures FlatMap(s, f) == FlatMap(s, g)
  {
    if s == [] {
    } else {
      FlatMapSame(s[1..], f, g);
    }
  }

  /** Filtering keeps the queue's order: it is what remains of the whole queue. */
  lemma FilteredIsSubsequence(filter: Filter, facts: seq<Facts>)
    ensures Queue(filter, facts) == Keep(Queue(Filter([], false), facts), (i: Item) => Admits(filter, i))
  {
    var all := (i: Item) => Admits(Filter([], false), i);
    var some_ := (i: Item) => Admits(filter, i);
    KeepSorted(Keep(Outstanding(facts), all), ItemKey, some_);
    KeepKeep(Outstanding(facts), all, some_, some_);
  }

  function Pages<T>(s: seq<T>, limit: nat, n: nat): seq<T> {
    if n == 0 then [] else Pages(s, limit, n - 1) + Page(s, (n - 1) * limit, limit)
  }

  /** Consecutive pages are the queue, each item once. */
  lemma {:induction false} PagesConcatenate<T>(s: seq<T>, limit: nat, n: nat)
    ensures Pages(s, limit, n) == s[..Min(n * limit, |s|)]
  {
    if n == 0 {
    } else {
      PagesConcatenate(s, limit, n - 1);
      assert n * limit == (n - 1) * limit + limit;
    }
  }

  /** Each kind's count is the total of the query narrowed to that kind. */
  lemma CountsAreTotals(request: Request, facts: seq<Facts>, k: nat)
    requires k < |ALL_KINDS|
    ensures
      var narrowed := request.(filter := request.filter.(kinds := [ALL_KINDS[k]]));
      Compose(request, facts).counts[k] == (ALL_KINDS[k], Compose(narrowed, facts).total)
  {
    var filter := request.filter.(kinds := [ALL_KINDS[k]]);
    KeepSame(Outstanding(facts), (i: Item) => i.kind == ALL_KINDS[k] && AdmitsFlag(request.filter, i),
             (i: Item) => Admits(filter, i));
  }

  lemma PlacedAs(f: Facts)
    ensures
      var i := ToItem(f);
      && (i.placement.None? <==> i.attention == [])
      && forall a :: a in i.attention ==> TierRank(i.placement.value) <= TierRank(TierOf(a.flag.reason))
  {
    RankOrder(f.attention);
    var ranked := RankAttention(f.attention);
    forall a | a in ranked
      ensures TierRank(TierOf(ranked[0].flag.reason)) <= TierRank(TierOf(a.flag.reason))
    {
      var j :| 0 <= j < |ranked| && ranked[j] == a;
      if j > 0 {
        assert RankedBefore(ranked[0], ranked[j]);
      }
    }
  }

  lemma PlacementsIncrease(filter: Filter, facts: seq<Facts>, i: nat, j: nat)
    requires i < j < |Queue(filter, facts)|
    ensures PlacementRank(Queue(filter, facts)[i].placement) <= PlacementRank(Queue(filter, facts)[j].placement)
  {
    var q, admits := Queue(filter, facts), (x: Item) => Admits(filter, x);
    SortOrders(Keep(Outstanding(facts), admits), ItemKey);
    assert Le(ItemKey(q[i]), ItemKey(q[j]));
    assert ItemKey(q[i])[0] == PlacementRank(q[i].placement) && ItemKey(q[j])[0] == PlacementRank(q[j].placement);
  }

  /** The accepted order of the queue: placement, then the placing time with absent last, then the
      kind's name, then the id. */
  predicate QueuedBefore(a: Item, b: Item) {
    var p, q := PlacementRank(a.placement), PlacementRank(b.placement);
    var t, u := PlacingTime(a), PlacingTime(b);
    p < q || (p == q && (Earlier(t, u) || (t == u &&
      (NameBefore(KindName(a.kind), KindName(b.kind)) || (a.kind == b.kind && Le(a.id, b.id))))))
  }

  lemma ItemLe(a: Item, b: Item)
    ensures Le(ItemKey(a), ItemKey(b)) <==> QueuedBefore(a, b)
  {
    var j, k := [NameRank(a.kind) as int] + a.id, [NameRank(b.kind) as int] + b.id;
    LePrefix(PlacementRank(a.placement), TimeKey(PlacingTime(a)) + j,
             PlacementRank(b.placement), TimeKey(PlacingTime(b)) + k);
    LeTime(PlacingTime(a), j, PlacingTime(b), k);
    LePrefix(NameRank(a.kind), a.id, NameRank(b.kind), b.id);
    NameRankIsAlphabetical(a.kind, b.kind);
  }

  lemma QueueOrder(filter: Filter, facts: seq<Facts>, i: nat, j: nat)
    requires i < j < |Queue(filter, facts)|
    ensures QueuedBefore(Queue(filter, facts)[i], Queue(filter, facts)[j])
  {
    var admits := (x: Item) => Admits(filter, x);
    SortOrders(Keep(Outstanding(facts), admits), ItemKey);
    ItemLe(Queue(filter, facts)[i], Queue(filter, facts)[j]);
  }

  lemma QueuedFrom(filter: Filter, facts: seq<Facts>, x: Item) returns (k: nat)
    requires x in Queue(filter, facts)
    ensures k < |facts| && IsOutstanding(facts[k]) && x == ToItem(facts[k]) && Admits(filter, x)
  {
    var admits := (i: Item) => Admits(filter, i);
    assert x in multiset(Queue(filter, facts));
    assert x in multiset(Keep(Outstanding(facts), admits));
    KeepIn(Outstanding(facts), admits, x);
    k := OutstandingFrom(facts, x);
  }

  /** A flagged item is placed by its most severe flag, and stands before every unflagged one. */
  lemma PlacedByWorstFlag(filter: Filter, facts: seq<Facts>, i: nat)
    requires i < |Queue(filter, facts)|
    ensures
      var q := Queue(filter, facts);
      && (q[i].placement.None? <==> q[i].attention == [])
      && (forall a :: a in q[i].attention ==> TierRank(q[i].placement.value) <= TierRank(TierOf(a.flag.reason)))
      && (forall j :: i < j < |q| && q[j].placement.Some? ==>
            q[i].placement.Some? && TierRank(q[i].placement.value) <= TierRank(q[j].placement.value))
  {
    var q := Queue(filter, facts);
    var k := QueuedFrom(filter, facts, q[i]);
    PlacedAs(facts[k]);
    forall j | i < j < |q|
      ensures PlacementRank(q[i].placement) <= PlacementRank(q[j].placement)
    {
      PlacementsIncrease(filter, facts, i, j);
    }
  }

  // ---- What the queue holds, in the records' own terms ----

  /** Whether a record is to be shown. */
  predicate Shown(filter: Filter, f: Facts) {
    && f.intents > 0
    && (filter.onlyFlagged ==> f.attention != [])
    && (filter.kinds == [] || f.kind in filter.kinds)
  }

  predicate PlacedByFlags(i: Item) {
    match i.placement
    case None => i.attention == []
    case Some(t) =>
      && (exists a :: a in i.attention && TierOf(a.flag.reason) == t)
      && (forall a :: a in i.attention ==> TierRank(t) <= TierRank(TierOf(a.flag.reason)))
  }

  /** An item that stands for a record: its identity, time and facts, its flags ranked, and placed by
      the most severe of them. */
  predicate StandsFor(i: Item, f: Facts) {
    && i.kind == f.kind && i.id == f.id && i.relevantAt == f.relevantAt && i.body == f.body
    && i.attention == RankAttention(f.attention) && PlacedByFlags(i)
  }

  lemma StandsForIs(i: Item, f: Facts)
    ensures StandsFor(i, f) <==> i == ToItem(f)
  {
    PlacedAs(f);
    var j := ToItem(f);
    if j.attention != [] {
      assert j.attention[0] in j.attention;
    }
    if StandsFor(i, f) && i.placement.Some? {
      var a :| a in i.attention && TierOf(a.flag.reason) == i.placement.value;
      TierRankInjective(i.placement.value, j.placement.value);
    }
  }

  lemma FlaggedAlike(f: Facts)
    ensures ToItem(f).attention == [] <==> f.attention == []
  {
    SameLength(RankAttention(f.attention), f.attention);
  }

  lemma OutstandingFirst(facts: seq<Facts>)
    requires facts != []
    ensures Outstanding(facts) ==
            (if IsOutstanding(facts[0]) then [ToItem(facts[0])] else []) + Outstanding(facts[1..])
  {
    var give := (f: Facts) => if IsOutstanding(f) then [ToItem(f)] else [];
    OutstandingIs(facts, give);
    OutstandingIs(facts[1..], give);
  }

  lemma {:induction false} OutstandingCount(facts: seq<Facts>, p: Facts -> bool, x: Item)
    requires forall f :: p(f) <==> IsOutstanding(f) && ToItem(f) == x
    ensures multiset(Outstanding(facts))[x] == |Keep(facts, p)|
  {
    if facts == [] {
    } else {
      OutstandingCount(facts[1..], p, x);
      OutstandingFirst(facts);
      assert multiset(Outstanding(facts)) ==
             multiset(if IsOutstanding(facts[0]) then [ToItem(facts[0])] else []) + multiset(Outstanding(facts[1..]));
    }
  }

  /** An item stands in the queue as often as there are records it stands for that are to be shown. */
  lemma QueueHolds(filter: Filter, facts: seq<Facts>, x: Item)
    ensures multiset(Queue(filter, facts))[x] == |Keep(facts, (f: Facts) => Shown(filter, f) && StandsFor(x, f))|
  {
    var admits := (i: Item) => Admits(filter, i);
    var from := (f: Facts) => IsOutstanding(f) && ToItem(f) == x;
    var shown := (f: Facts) => Shown(filter, f) && StandsFor(x, f);
    KeepCounts(Outstanding(facts), admits, x);
    OutstandingCount(facts, from, x);
    forall f | f in facts
      ensures shown(f) == (from(f) && Admits(filter, x))
    {
      StandsForIs(x, f);
      FlaggedAlike(f);
    }
    if Admits(filter, x) {
      KeepSame(facts, from, shown);
    } else {
      KeepNone(facts, shown);
    }
  }

  lemma {:induction false} ShownCount(filter: Filter, facts: seq<Facts>, admits: Item -> bool, shown: Facts -> bool)
    requires forall i :: admits(i) <==> Admits(filter, i)
    requires forall f :: shown(f) <==> Shown(filter, f)
    ensures |Keep(Outstanding(facts), admits)| == |Keep(facts, shown)|
  {
    if facts == [] {
    } else {
      var rest := Outstanding(facts[1..]);
      ShownCount(filter, facts[1..], admits, shown);
      OutstandingFirst(facts);
      FlaggedAlike(facts[0]);
      if IsOutstanding(facts[0]) {
        KeepFirst(ToItem(facts[0]), rest, admits);
      } else {
        assert Outstanding(facts) == rest;
      }
    }
  }

  lemma TotalIs(filter: Filter, facts: seq<Facts>)
    ensures |Queue(filter, facts)| == |Keep(facts, (f: Facts) => Shown(filter, f))|
  {
    ShownCount(filter, facts, (i: Item) => Admits(filter, i), (f: Facts) => Shown(filter, f));
  }

  predicate Counted(counts: seq<(Kind, nat)>, kind: Kind) { exists k :: 0 <= k < |counts| && counts[k].0 == kind }

  /** The page shown is the queue from the offset on, at most `limit` items of it; the total and the
      five counts are numbers of records, the counts taken without regard to the kinds selected. */
  lemma ComposedIs(request: Request, facts: seq<Facts>)
    ensures
      var q, body := Queue(request.filter, facts), Compose(request, facts);
      && |body.items| == (if |q| <= request.offset then 0 else Min(request.limit, |q| - request.offset))
      && (forall i :: 0 <= i < |body.items| ==> body.items[i] == q[request.offset + i])
      && body.total == |Keep(facts, (f: Facts) => Shown(request.filter, f))|
      && |body.counts| == 5
    ensures forall kind: Kind :: Counted(Compose(request, facts).counts, kind)
    ensures
      forall k :: 0 <= k < 5 ==>
        var (kind, n) := Compose(request, facts).counts[k];
        n == |Keep(facts, (f: Facts) => Shown(Filter([kind], request.filter.onlyFlagged), f))|
  {
    TotalIs(request.filter, facts);
    var counts := Compose(request, facts).counts;
    forall kind: Kind
      ensures Counted(counts, kind)
    {
      var k := match kind
               case ActionRequest => 0
               case Action => 1
               case DecisionRequest => 2
               case Risk => 3
               case Issue => 4;
      assert counts[k].0 == kind;
    }
    forall k | 0 <= k < 5
      ensures counts[k].1 == |Keep(facts, (f: Facts) => Shown(Filter([counts[k].0], request.filter.onlyFlagged), f))|
    {
      CountsAreTotals(request, facts, k);
      TotalIs(Filter([counts[k].0], request.filter.onlyFlagged), facts);
    }
  }

  /** The default filter shows the whole queue: every record that admits an intent. */
  lemma DefaultShowsAll(facts: seq<Facts>, f: Facts)
    requires f in facts && f.intents > 0
    ensures exists x :: x in Queue(Filter([], false), facts) && StandsFor(x, f)
  {
    var x := ToItem(f);
    StandsForIs(x, f);
    QueueHolds(Filter([], false), facts, x);
    var shown := (g: Facts) => Shown(Filter([], false), g) && StandsFor(x, g);
    KeepIn(facts, shown, f);
    assert x in multiset(Queue(Filter([], false), facts));
  }
}
