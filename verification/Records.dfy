/**
 The immutable contracts shared by the reasoning loop, the ledger and the context builder.

 A SHA-256 digest is the free constructor `Sha256` over the bytes it names, so two digests are
 equal exactly when their contents are. Prompt text is the term of the values it is built from.
 Times are integers in microseconds.
 */
module Records {

  datatype Option<+T> = None | Some(value: T)

  // ----- evidence and context

  datatype Source = PAYMENT | DEPLOYMENT | KUBERNETES | PROMETHEUS | TRACE | LOG | RUNBOOK | MEMORY

  datatype Metadata = Metadata(id: string, incident: string, source: Source, observedAt: int, collectedAt: int,
                               query: string, resource: string, summary: string)

  datatype Evidence = Evidence(meta: Metadata, artifact: Digest)

  /** `facts.None?` is the source's `facts_omitted`. */
  datatype Entry = Entry(evidence: Evidence, facts: Option<string>)

  datatype ReasoningContext = ReasoningContext(entries: seq<Entry>, omitted: nat)

  // ----- decisions

  datatype Tool = WorkloadStatus | PodEvents | RecentLogs | PaymentSnapshot | RunbookSearch | IncidentSearch

  datatype ReadRequest = ReadRequest(tool: Tool, service: string, query: Option<string>)

  datatype Cause = Cause(code: string, confidence: real, supports: seq<string>, refutes: seq<string>)

  datatype Verdict = Read | Finish | Refuse

  datatype Decision = Decision(verdict: Verdict, requests: seq<ReadRequest>, causes: seq<Cause>)

  datatype ReadStatus = ReadOk | ReadDenied | ReadError | ReadTimeout | ReadBusy | ReadBudgetExhausted

  datatype ReadResult = ReadResult(request: ReadRequest, status: ReadStatus, evidence: seq<Evidence>)

  datatype Usage = Usage(input: nat, output: nat, cached: nat)

  datatype ModelStatus = ModelOk | Refused | InvalidOutput | ModelError | ModelTimeout | ModelDenied | ModelBusy

  datatype RawObservation = Observation(status: ModelStatus, decision: Option<Decision>, usage: Option<Usage>)

  predicate CoherentDecision(d: Decision) {
    && |d.requests| <= 2 && |d.causes| <= 3
    && ((d.verdict == Read) <==> d.requests != [])
    && (d.verdict != Finish ==> d.causes == [])
    && Distinct(d.requests)
    && Distinct(Codes(d.causes))
    && (forall c :: c in d.causes ==> 1 <= |c.supports| <= 8 && |c.refutes| <= 8)
    && (forall r :: r in d.requests ==> ValidRequest(r))
  }

  predicate CoherentObservation(o: RawObservation) {
    && (o.status in {ModelOk, Refused} <==> o.decision.Some?)
    && (o.decision.Some? ==> CoherentDecision(o.decision.value))
    && (o.decision.Some? ==> (o.decision.value.verdict == Refuse <==> o.status == Refused))
  }

  type Observation = o: RawObservation | CoherentObservation(o)
    witness Observation(ModelError, None, None)

  predicate ValidRequest(r: ReadRequest) {
    r.tool in {RunbookSearch, IncidentSearch} <==> r.query.Some?
  }

  predicate Distinct<T(==)>(s: seq<T>) {
    forall i, j :: 0 <= i < j < |s| ==> s[i] != s[j]
  }

  function Codes(causes: seq<Cause>): seq<string> {
    seq(|causes|, i requires 0 <= i < |causes| => causes[i].code)
  }

  function Ids(evidence: seq<Evidence>): seq<string> {
    seq(|evidence|, i requires 0 <= i < |evidence| => evidence[i].meta.id)
  }

  /** The backend commands one read costs: the closed tool catalog. */
  function BackendReads(tool: Tool): (n: nat)
    ensures 1 <= n <= 2
  {
    match tool
    case WorkloadStatus | PodEvents | PaymentSnapshot => 2
    case RecentLogs | RunbookSearch | IncidentSearch => 1
  }

  // ----- operations, receipts and the artifact store

  /** `model-NN` and `reads-NN`. */
  datatype OpId = ModelOp(turn: nat) | ReadsOp(turn: nat)

  datatype Feedback =
    | BadOutput
    | AlreadyCompleted
    | ReadBudgetSpent
    | ReadOutcome(tool: Tool, status: ReadStatus, detail: Option<(string, Option<string>, seq<string>)>)

  /** Everything the prompt text of one turn is a function of. */
  datatype PromptText = PromptText(turn: nat, context: ReasoningContext, feedback: seq<Feedback>, exhausted: bool)

  datatype PreparedTurn = PreparedTurn(run: string, op: OpId, binding: Digest, context: ReasoningContext,
                                       text: PromptText, inputTokens: nat)

  datatype Price = Price(input: nat, cached: nat, output: nat)

  datatype ReasoningBudget = ReasoningBudget(modelCalls: nat, tokens: nat, cost: nat, toolCalls: nat,
                                             backendReads: nat, providerRequests: nat)

  datatype Settings = Settings(local: bool, ceiling: bool, inputTokenLimit: nat, outputTokenLimit: nat, price: Price)

  datatype Artifact =
    | SourceArtifact(meta: Metadata, payload: string)
    | BindingArtifact(run: string, initial: seq<Evidence>, subject: string, causes: set<string>,
                      settings: Settings, limits: ReasoningBudget)
    | PreparedArtifact(turn: PreparedTurn)
    | ModelReceipt(run: string, op: OpId, prompt: Digest, observation: Observation)
    | ReadReceipt(run: string, op: OpId, results: seq<ReadResult>)

  datatype Digest = Sha256(content: Artifact)

  type Store = map<Digest, Artifact>

  /** Every file still holds the bytes its name digests. */
  ghost predicate Intact(store: Store) {
    forall d :: d in store ==> store[d] == d.content
  }

  /** `ArtifactStore.write`: exclusive creation; an existing file must hold the same bytes. */
  function Retain(store: Store, a: Artifact): (r: Option<Store>)
    ensures Intact(store) ==> r.Some? && Intact(r.value) && Sha256(a) in r.value
    ensures r.Some? ==> forall d :: d in store ==> d in r.value && r.value[d] == store[d]
  {
    var d := Sha256(a);
    if d in store && store[d] != a then None else Some(store[d := a])
  }

  /** `restore`: absent bytes and bytes that do not hash to their name are both integrity errors. */
  function Restore(store: Store, d: Digest): (r: Option<Artifact>)
    ensures r.Some? ==> r.value == d.content
    ensures Intact(store) ==> (r.Some? <==> d in store)
  {
    if d in store && Sha256(store[d]) == d then Some(store[d]) else None
  }

  /** `ArtifactStore.verify`: the artifact must hold exactly this item's metadata. */
  predicate Verified(store: Store, item: Evidence) {
    match Restore(store, item.artifact)
    case Some(SourceArtifact(meta, _)) => meta == item.meta
    case _ => false
  }

  ghost predicate StoreExtends(before: Store, after: Store) {
    forall d :: d in before ==> d in after
  }
}
