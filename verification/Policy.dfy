/**
 Deny-by-default review of an operational proposal, and the deadline until which a passed review stays good.
 Times are integers in microseconds.
 */
module Policy {
  import opened Records

  const SECOND := 1000000

  // ----- identities

  datatype Role = Viewer | Responder | Approver | Executor

  datatype Principal = Principal(subject: string, roles: set<Role>, namespaces: set<string>, verifiedAt: int,
                                 expiresAt: int, enabled: bool)

  predicate IdentityValid(p: Option<Principal>, role: Role, namespace: string, now: int) {
    && p.Some? && p.value.enabled && role in p.value.roles && namespace in p.value.namespaces
    && p.value.expiresAt > now && 0 <= now - p.value.verifiedAt <= 60 * SECOND
  }

  // ----- proposals

  datatype Mode = LocalKind | CloudGke | FixtureReplay

  datatype Kind = Restart | Scale(replicas: int) | Rollback(revision: string) | Pause

  datatype Action = Action(kind: Kind, incident: string, namespace: string, service: string, uid: string,
                           version: string, evidence: seq<string>, mode: Mode)

  /** The closed action schemas: one to eight distinct citations and a bounded replica target. */
  predicate WellFormed(a: Action) {
    && 1 <= |a.evidence| <= 8 && Distinct(a.evidence)
    && (a.kind.Scale? ==> 1 <= a.kind.replicas <= 3)
  }

  /** `action_digest`: canonical content, so two digests agree exactly when the actions do. */
  datatype ActionId = DigestOf(action: Action)

  // ----- what the backend knows

  datatype Resource = Resource(namespace: string, service: string, uid: string, version: string, observedAt: int,
                               traffic: bool, synthetic: bool, revisions: set<string>, mode: Mode)

  datatype Item = Item(id: string, incident: string, source: Source, query: string, observedAt: int, collectedAt: int)

  function ItemIds(items: seq<Item>): seq<string> {
    seq(|items|, i requires 0 <= i < |items| => items[i].id)
  }

  /** A report's evidence ids are distinct by its own validator. */
  type Items = items: seq<Item> | Distinct(ItemIds(items)) witness []

  datatype Report = Report(escalated: bool, mode: Mode, evidence: Items)

  /** What the artifact bytes of an item say when they are read again. */
  datatype Reading = Unreadable | Intact | Window(complete: bool)

  datatype PolicyContext = PolicyContext(incident: string, namespace: string, report: Option<Report>,
                                         resource: Resource, reading: Item -> Reading)

  datatype Reason =
    | IdentityDenied | ScopeDenied | IncidentScopeMismatch | ResourceScopeMismatch | OperationModeMismatch
    | ResourceNotCurrent | StalePrecondition | ResourceKindMismatch | RevisionNotApproved
    | IncidentNotActionable | EvidenceModeMismatch | EvidenceScopeMismatch | EvidenceStale | EvidenceNotOperational
    | EvidenceInvalid

  const SERVICES := {"payments-api", "processor-adapter", "risk-sim", "webhook-sim"}

  // ----- the review

  function ScopeFailure(a: Action, p: Option<Principal>, c: PolicyContext, now: int): Option<Reason> {
    if !IdentityValid(p, Responder, a.namespace, now) then Some(IdentityDenied)
    else if a.namespace != "payops-sandbox" || a.service !in SERVICES then Some(ScopeDenied)
    else if a.incident != c.incident || a.namespace != c.namespace then Some(IncidentScopeMismatch)
    else if (a.namespace, a.service) != (c.resource.namespace, c.resource.service) then Some(ResourceScopeMismatch)
    else if a.mode != c.resource.mode then Some(OperationModeMismatch)
    else if !c.resource.synthetic || !(0 <= now - c.resource.observedAt <= 30 * SECOND) then Some(ResourceNotCurrent)
    else if (a.uid, a.version) != (c.resource.uid, c.resource.version) then Some(StalePrecondition)
    else if c.resource.traffic != a.kind.Pause? then Some(ResourceKindMismatch)
    else if a.kind.Rollback? && a.kind.revision !in c.resource.revisions then Some(RevisionNotApproved)
    else None
  }

  function OperationalFailure(item: Item, c: PolicyContext): Option<Reason> {
    if item.source in {RUNBOOK, MEMORY, TRACE} then Some(EvidenceNotOperational)
    else if item.source == LOG && item.query == "trace.console-log.v1" then Some(EvidenceNotOperational)
    else if item.source == PAYMENT then
      match c.reading(item)
      case Window(complete) => if complete then None else Some(EvidenceNotOperational)
      case _ => Some(EvidenceInvalid)
    else if c.reading(item).Unreadable? then Some(EvidenceInvalid)
    else None
  }

  function Lookup(items: seq<Item>, id: string): (r: Option<Item>)
    ensures r.Some? ==> r.value in items && r.value.id == id
    ensures r.None? <==> id !in ItemIds(items)
  {
    if items == [] then None
    else
      assert ItemIds(items) == ItemIds(items[..|items| - 1]) + [items[|items| - 1].id];
      if items[|items| - 1].id == id then Some(items[|items| - 1])
      else Lookup(items[..|items| - 1], id)
  }

  function CitationFailure(a: Action, item: Item, c: PolicyContext, now: int): Option<Reason> {
    if item.incident != a.incident then Some(EvidenceScopeMismatch)
    else if !(0 <= now - item.observedAt <= 300 * SECOND) then Some(EvidenceStale)
    else if !(0 <= now - item.collectedAt <= 300 * SECOND) then Some(EvidenceStale)
    else OperationalFailure(item, c)
  }

  function CitationsFailure(a: Action, ids: seq<string>, items: seq<Item>, c: PolicyContext, now: int): Option<Reason> {
    if ids == [] then None
    else match Lookup(items, ids[0])
      case None => Some(EvidenceInvalid)
      case Some(item) =>
        if CitationFailure(a, item, c, now).Some? then CitationFailure(a, item, c, now)
        else CitationsFailure(a, ids[1..], items, c, now)
  }

  function EvidenceFailure(a: Action, c: PolicyContext, now: int): Option<Reason> {
    match c.report
    case None => Some(IncidentNotActionable)
    case Some(report) =>
      if !report.escalated then Some(IncidentNotActionable)
      else if report.mode != c.resource.mode then Some(EvidenceModeMismatch)
      else CitationsFailure(a, a.evidence, report.evidence, c, now)
  }

  /** `evaluate` on a parsed proposal; `None` is APPROVAL_REQUIRED. */
  function Evaluate(a: Action, p: Option<Principal>, c: PolicyContext, now: int): Option<Reason> {
    var scope := ScopeFailure(a, p, c, now);
    if scope.Some? then scope else EvidenceFailure(a, c, now)
  }

  /** The loop of `evidence_failure`, citation by citation. */
  method ReviewCitations(a: Action, items: seq<Item>, c: PolicyContext, now: int) returns (failure: Option<Reason>)
    ensures failure == CitationsFailure(a, a.evidence, items, c, now)
  {
    for i := 0 to |a.evidence|
      invariant CitationsFailure(a, a.evidence[i..], items, c, now) == CitationsFailure(a, a.evidence, items, c, now)
    {
      var item := Lookup(items, a.evidence[i]);
      if item.None? {
        return Some(EvidenceInvalid);
      }
      failure := CitationFailure(a, item.value, c, now);
      if failure.Some? {
        return;
      }
    }
    failure := None;
  }

  // ----- what a passed review means

  /** Age limits alone: they are all that can change between a review and a later instant. */
  predicate Fresh(a: Action, c: PolicyContext, now: int) {
    && 0 <= now - c.resource.observedAt <= 30 * SECOND
    && c.report.Some?
    && forall x :: x in c.report.value.evidence && x.id in a.evidence ==>
         0 <= now - x.observedAt <= 300 * SECOND && 0 <= now - x.collectedAt <= 300 * SECOND
  }

  /** Everything else a review establishes about the context it was given. */
  predicate Supported(a: Action, c: PolicyContext) {
    && a.namespace == "payops-sandbox" == c.namespace && a.service in SERVICES && a.incident == c.incident
    && (a.namespace, a.service, a.uid, a.version, a.mode)
       == (c.resource.namespace, c.resource.service, c.resource.uid, c.resource.version, c.resource.mode)
    && c.resource.synthetic && c.resource.traffic == a.kind.Pause?
    && (a.kind.Rollback? ==> a.kind.revision in c.resource.revisions)
    && c.report.Some? && c.report.value.escalated && c.report.value.mode == a.mode
    && (forall id :: id in a.evidence ==> id in ItemIds(c.report.value.evidence))
    && (forall x :: x in c.report.value.evidence && x.id in a.evidence ==>
          x.incident == a.incident && OperationalFailure(x, c).None?)
  }

  lemma ItemOf(items: Items, x: Item)
    requires x in items
    ensures Lookup(items, x.id) == Some(x)
  {
    var i :| 0 <= i < |items| && items[i] == x;
    assert ItemIds(items)[i] == x.id;
    var y := Lookup(items, x.id).value;
    var j :| 0 <= j < |items| && items[j] == y;
    assert ItemIds(items)[i] == ItemIds(items)[j];
  }

  predicate CitationPasses(a: Action, id: string, items: seq<Item>, c: PolicyContext, now: int) {
    Lookup(items, id).Some? && CitationFailure(a, Lookup(items, id).value, c, now).None?
  }

  lemma {:induction false} CitationsPass(a: Action, ids: seq<string>, items: seq<Item>, c: PolicyContext, now: int)
    ensures CitationsFailure(a, ids, items, c, now).None? <==>
      forall id :: id in ids ==> CitationPasses(a, id, items, c, now)
  {
    hide CitationFailure;
    if ids != [] {
      CitationsPass(a, ids[1..], items, c, now);
      assert CitationsFailure(a, ids, items, c, now).None? <==>
        CitationPasses(a, ids[0], items, c, now) && CitationsFailure(a, ids[1..], items, c, now).None?;
      assert forall id :: id in ids <==> id in [ids[0]] + ids[1..];
    }
  }

  lemma CitationsAreSupported(a: Action, p: Option<Principal>, c: PolicyContext, now: int)
    requires c.report.Some?
    ensures CitationsFailure(a, a.evidence, c.report.value.evidence, c, now).None? <==>
      && (forall id :: id in a.evidence ==> id in ItemIds(c.report.value.evidence))
      && (forall x :: x in c.report.value.evidence && x.id in a.evidence ==> CitationFailure(a, x, c, now).None?)
  {
    hide OperationalFailure, Lookup, CitationFailure;
    var items := c.report.value.evidence;
    CitationsPass(a, a.evidence, items, c, now);
    forall x | x in items ensures Lookup(items, x.id) == Some(x) {
      ItemOf(items, x);
    }
  }

  /** A review passes exactly when identity, support and freshness all hold at its instant. */
  lemma ReviewedExactly(a: Action, p: Option<Principal>, c: PolicyContext, now: int)
    ensures Evaluate(a, p, c, now).None? <==>
      IdentityValid(p, Responder, a.namespace, now) && Supported(a, c) && Fresh(a, c, now)
  {
    hide OperationalFailure, Lookup, IdentityValid, CitationsFailure;
    if c.report.Some? {
      CitationsAreSupported(a, p, c, now);
    }
  }

  // ----- the deadline of a review

  function Least(times: seq<int>): (m: int)
    requires times != []
  {
    if |times| == 1 then times[0]
    else
      var rest := Least(times[..|times| - 1]);
      if times[|times| - 1] < rest then times[|times| - 1] else rest
  }

  predicate NotPast(now: int, times: seq<int>) {
    forall t :: t in times ==> now <= t
  }

  lemma NotPastEither(now: int, a: seq<int>, b: seq<int>)
    ensures NotPast(now, a + b) <==> NotPast(now, a) && NotPast(now, b)
  {
    assert forall t :: t in a + b <==> t in a || t in b;
  }

  lemma {:induction false} LeastExactly(times: seq<int>, now: int)
    requires times != []
    ensures now <= Least(times) <==> NotPast(now, times)
  {
    var front, last := times[..|times| - 1], times[|times| - 1];
    NotPastEither(now, front, [last]);
    assert times == front + [last] && last in [last];
    if |times| > 1 {
      LeastExactly(front, now);
    }
  }

  function CitedDeadlines(a: Action, items: seq<Item>): seq<int> {
    if items == [] then []
    else
      var last := items[|items| - 1];
      CitedDeadlines(a, items[..|items| - 1])
      + (if last.id in a.evidence then [last.observedAt + 300 * SECOND, last.collectedAt + 300 * SECOND] else [])
  }

  /** The last instant at which everything a review relied on is still young enough. */
  function Deadline(a: Action, c: PolicyContext): int
    requires c.report.Some?
  {
    Least([c.resource.observedAt + 30 * SECOND] + CitedDeadlines(a, c.report.value.evidence))
  }

  /** The loop of `_review` that collects the deadlines. */
  method ReviewDeadline(a: Action, c: PolicyContext) returns (deadline: int)
    requires c.report.Some?
    ensures deadline == Deadline(a, c)
  {
    var deadlines := [c.resource.observedAt + 30 * SECOND];
    var items := c.report.value.evidence;
    for i := 0 to |items|
      invariant deadlines == [c.resource.observedAt + 30 * SECOND] + CitedDeadlines(a, items[..i])
    {
      assert items[..i + 1][..i] == items[..i];
      var item := items[i];
      if item.id in a.evidence {
        deadlines := deadlines + [item.observedAt + 300 * SECOND, item.collectedAt + 300 * SECOND];
      }
    }
    assert items[..|items|] == items;
    deadline := Least(deadlines);
  }

  /** No cited item is too old by either of its timestamps. */
  predicate Young(a: Action, items: seq<Item>, now: int) {
    forall x :: x in items && x.id in a.evidence ==>
      now - x.observedAt <= 300 * SECOND && now - x.collectedAt <= 300 * SECOND
  }

  lemma {:induction false} CitedDeadlinesExactly(a: Action, items: seq<Item>, now: int)
    ensures NotPast(now, CitedDeadlines(a, items)) <==> Young(a, items, now)
  {
    if items != [] {
      var front, last := items[..|items| - 1], items[|items| - 1];
      CitedDeadlinesExactly(a, front, now);
      var older, both := CitedDeadlines(a, front), [last.observedAt + 300 * SECOND, last.collectedAt + 300 * SECOND];
      NotPastEither(now, older, both);
      assert both[0] in both && both[1] in both;
      assert items == front + [last];
      assert forall x :: x in front + [last] <==> x in front || x == last;
      assert CitedDeadlines(a, items) == if last.id in a.evidence then older + both else older + [];
      assert older + [] == older;
    }
  }

  /** From a passed review on, freshness holds exactly until the deadline. */
  lemma FreshUntilDeadline(a: Action, c: PolicyContext, reviewed: int, now: int)
    requires Fresh(a, c, reviewed) && reviewed <= now
    ensures Fresh(a, c, now) <==> now <= Deadline(a, c)
  {
    var first, cited := [c.resource.observedAt + 30 * SECOND], CitedDeadlines(a, c.report.value.evidence);
    LeastExactly(first + cited, now);
    NotPastEither(now, first, cited);
    CitedDeadlinesExactly(a, c.report.value.evidence, now);
    assert first[0] in first;
  }
}
