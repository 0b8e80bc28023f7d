/**
 The re-entrant reasoning loop as functions of its durable and volatile state.

 `Durable` is what survives a crash (the run's ledger record and the artifact files) together with
 `effects`, the list of operations the outside world has been asked to perform. `Session` is rebuilt from
 nothing on every entry. The model, the read handlers, the authority checks and the moment of death are
 an arbitrary environment.
 */
module Loop {
  import opened Records
  import opened Context
  import opened Budget

  // ----- host configuration and environment

  /**
   `bounded` are the message bounds every runtime checks; `count` is what the provider's adapter counts, if it accepts
   the text.
   */
  datatype Host = Host(run: string, subject: string, initial: seq<Evidence>, causes: set<string>,
                       limits: ReasoningBudget, settings: Settings, view: View,
                       support: ReasoningContext -> map<string, set<string>>,
                       bounded: PromptText -> bool, count: PromptText -> Option<nat>)

  predicate ValidHost(h: Host) {
    && ValidLimits(h.limits) && ValidPrice(h.settings.price)
    && 1 <= h.settings.inputTokenLimit <= 100000 && 1 <= h.settings.outputTokenLimit <= 16384
  }

  datatype Authority = Granted | Revoked | Busy | TimedOut | Failed

  datatype StopReason = Finished | StopRefused | StopInvalidOutput | StopBudget | StopUnknown | StopError
                      | StopTimeout | StopDenied | StopBusy

  /** Durable writes and external calls after which the process may die. */
  datatype Site = PromptRetained | ModelReserved | ModelCalled | ModelReceiptRetained | ModelCompleted
                | ReadsReserved | ReadsCalled | ReadsReceiptRetained | ReadsCompleted

  type HandlerStatus = s: ReadStatus | s != ReadBudgetExhausted witness ReadOk

  /** What one handler returns and the source artifacts it stored on the way. */
  datatype Handled = Handled(status: HandlerStatus, evidence: seq<Evidence>, files: seq<Artifact>)

  /**
   `Sealed` is a host that can only replay: a read-only ledger, inert handlers, and an adapter that cannot invoke but
   still counts the prompts it is asked to prepare.
   */
  datatype World =
    | Sealed(adapter: PromptText -> Option<nat>)
    | Live(observe: nat -> Observation, handle: (nat, nat) -> Handled, dies: (nat, Site) -> bool)

  /** `authority(t)` answers the check before turn t, `publication` the one before a finished answer. */
  datatype Env = Env(authority: nat -> Authority, publication: Authority, world: World)

  // ----- state

  datatype Session = Session(evidence: seq<Evidence>, receipts: seq<Digest>, feedback: seq<Feedback>,
                             exhausted: bool, completedReads: set<ReadRequest>, preferred: set<string>, invalid: nat)

  datatype Durable = Durable(record: BudgetRecord, store: Store, effects: seq<OpId>)

  /** `Integrity` stands for every integrity or validation exception; `NewWorkRefused` for the sealed refusals. */
  datatype Failure = Integrity | NewWorkRefused

  datatype Outcome<+T> = Go(value: T) | Halt(reason: StopReason) | Fail(failure: Failure) | Dead

  datatype Step<+T> = Step(out: Outcome<T>, s: Session, d: Durable)

  function BindingOf(h: Host): Digest {
    Sha256(BindingArtifact(h.run, h.initial, h.subject, h.causes, h.settings, h.limits))
  }

  function Dies(w: World, turn: nat, site: Site): bool { w.Live? && w.dies(turn, site) }

  function StopOf(a: Authority): StopReason
    requires a != Granted
  {
    match a
    case Revoked => StopDenied
    case Busy => StopBusy
    case TimedOut => StopTimeout
    case Failed => StopError
  }

  function StopOfModel(s: ModelStatus): StopReason
    requires s !in {ModelOk, InvalidOutput}
  {
    match s
    case Refused => StopRefused
    case ModelError => StopError
    case ModelTimeout => StopTimeout
    case ModelDenied => StopDenied
    case ModelBusy => StopBusy
  }

  // ----- context and prompt

  function ContextLimit(s: Settings): int {
    if s.local then
      var capped := if s.inputTokenLimit < 4096 then s.inputTokenLimit else 4096;
      if capped < 128 then 128 else capped
    else 24000
  }

  function VerifiedIn(store: Store): Evidence -> bool { (e: Evidence) => Verified(store, e) }

  function ContextOf(h: Host, s: Session, store: Store): Built {
    BuildContext(s.evidence, h.run, VerifiedIn(store), h.view, ContextLimit(h.settings), 64, h.settings.local,
                 s.preferred)
  }

  /** The unconditional check before and after the turns. */
  predicate EvidenceChecked(h: Host, evidence: seq<Evidence>, store: Store) {
    BuildContext(evidence, h.run, VerifiedIn(store), h.view, 24000, 64, false, {}).Built?
  }

  /** The sealed host that counts prompts as the provider's adapter does. */
  function Sealing(h: Host): World { Sealed(h.count) }

  function Counted(h: Host, w: World, text: PromptText): Option<nat> {
    if w.Sealed? then w.adapter(text) else h.count(text)
  }

  /** `prepare`: the message bounds, the adapter's count, and the input allowance. */
  function Prepare(h: Host, w: World, text: PromptText): Option<nat> {
    if !h.bounded(text) then None
    else match Counted(h, w, text)
    case None => None
    case Some(n) =>
      if n > h.settings.inputTokenLimit || (h.settings.ceiling && n != h.settings.inputTokenLimit) then None
      else Some(n)
  }

  function PreparedFor(h: Host, turn: nat, c: ReasoningContext, s: Session, tokens: nat): PreparedTurn {
    PreparedTurn(h.run, ModelOp(turn), BindingOf(h), c, PromptText(turn, c, s.feedback, s.exhausted), tokens)
  }

  /** `parse_decision` on a typed decision: closed vocabulary, resolved and unconflicted citations. */
  predicate CitationsResolve(c: Cause, ids: set<string>, causes: set<string>) {
    var supports, refutes := (set x | x in c.supports), (set x | x in c.refutes);
    && c.code in causes && supports + refutes <= ids && supports !! refutes
    && Distinct(c.supports) && Distinct(c.refutes)
  }

  predicate Parses(d: Decision, ids: set<string>, causes: set<string>) {
    forall c :: c in d.causes ==> CitationsResolve(c, ids, causes)
  }

  /** `supported`: a local claim must be licensed, citation by citation, by the included facts. */
  predicate Licensed(h: Host, c: ReasoningContext, cause: Cause) {
    var index := h.support(c);
    (set x | x in cause.supports) <= (if cause.code in index then index[cause.code] else {}) && cause.refutes == []
  }

  function LicensedCauses(h: Host, c: ReasoningContext, causes: seq<Cause>): seq<Cause> {
    if causes == [] then []
    else
      LicensedCauses(h, c, causes[..|causes| - 1])
      + (if Licensed(h, c, causes[|causes| - 1]) then [causes[|causes| - 1]] else [])
  }

  function Supported(h: Host, c: ReasoningContext, causes: seq<Cause>): seq<Cause> {
    if h.settings.local then LicensedCauses(h, c, causes) else causes
  }

  // ----- ledger access

  function ReserveNow(w: World, r: BudgetRecord, c: Charge): Reply {
    if w.Sealed? then SealedReserveReply(Some(r), r, c) else ReserveReply(Some(r), r, c)
  }

  /** The second half of `publish`: anchor a retained receipt's digest. */
  function Anchored(w: World, turn: nat, completed: Site, op: OpId, digest: Digest, s: Session, d: Durable)
    : (r: Step<()>)
    ensures r.s == s && !r.out.Halt? && r.d.effects == d.effects && r.d.store == d.store
    ensures r.d.record == d.record || r.d.record == Completed(d.record, op, digest)
    ensures r.out.Go? && FindCompletion(d.record.completions, op).None? ==>
      r.d.record == Completed(d.record, op, digest)
  {
    if w.Sealed? then Step(Fail(NewWorkRefused), s, d)
    else match CompleteReply(Some(d.record), d.record, op, digest)
      case New =>
        var d1 := d.(record := Completed(d.record, op, digest));
        if Dies(w, turn, completed) then Step(Dead, s, d1) else Step(Go(()), s, d1)
      case Existing => Step(Go(()), s, d)
      case _ => Step(Fail(Integrity), s, d)
  }

  /** `publish`: fsync the receipt, then anchor its digest. */
  function Publish(w: World, turn: nat, retained: Site, completed: Site, op: OpId, receipt: Artifact, s: Session,
                   d: Durable): (r: Step<()>)
    ensures r.s == s && !r.out.Halt? && r.d.effects == d.effects && r.d.record.charges == d.record.charges
    ensures r.d.record == d.record || r.d.record == Completed(d.record, op, Sha256(receipt))
    ensures r.out.Go? && FindCompletion(d.record.completions, op).None? ==>
      r.d.record == Completed(d.record, op, Sha256(receipt))
  {
    match Retain(d.store, receipt)
    case None => Step(Fail(Integrity), s, d)
    case Some(store) =>
      if Dies(w, turn, retained) then Step(Dead, s, d.(store := store))
      else Anchored(w, turn, completed, op, Sha256(receipt), s, d.(store := store))
  }

  // ----- model

  /** The shared end of a fresh and a replayed model turn: everything is reloaded and rechecked. */
  function ModelSaved(h: Host, turn: nat, c: ReasoningContext, charged: Charge, s: Session, d: Durable)
    : (r: Step<Observation>)
    ensures r.d == d && r.out != Dead && r.out != Fail(NewWorkRefused)
  {
    if !charged.ModelCharge? then Step(Fail(Integrity), s, d)
    else match Restore(d.store, charged.prompt)
      case Some(PreparedArtifact(p)) =>
        if (p.run, p.op, p.binding, p.context) != (h.run, ModelOp(turn), BindingOf(h), c)
        then Step(Fail(Integrity), s, d)
        else (match FindCompletion(d.record.completions, ModelOp(turn))
          case None => Step(Halt(StopUnknown), s, d)
          case Some(digest) =>
            var s1 := s.(receipts := s.receipts + [digest]);
            match Restore(d.store, digest)
            case Some(ModelReceipt(run, op, prompt, observation)) =>
              if (run, op, prompt) != (h.run, ModelOp(turn), charged.prompt) then Step(Fail(Integrity), s1, d)
              else if observation.decision.Some? && !Parses(observation.decision.value, ContextIds(c), h.causes)
              then Step(Fail(Integrity), s1, d)
              else Step(Go(observation), s1, d)
            case _ => Step(Fail(Integrity), s1, d))
      case _ => Step(Fail(Integrity), s, d)
  }

  /** After a NEW reservation: the one place the provider is called. */
  function ModelGranted(h: Host, w: World, turn: nat, c: ReasoningContext, charge: Charge, s: Session, d: Durable)
    : (r: Step<Observation>)
    requires w.Live? && charge.ModelCharge?
    ensures r.d.record.charges == d.record.charges
    ensures r.d.record == d.record || exists a :: r.d.record == Completed(d.record, ModelOp(turn), a)
    ensures (r.out.Go? || r.out.Halt?) && FindCompletion(d.record.completions, ModelOp(turn)).None? ==>
      r.d.record != d.record
  {
    if Dies(w, turn, ModelReserved) then Step(Dead, s, d)
    else
      var called := d.(effects := d.effects + [ModelOp(turn)]);
      if Dies(w, turn, ModelCalled) then Step(Dead, s, called)
      else
        var receipt := ModelReceipt(h.run, ModelOp(turn), charge.prompt, w.observe(turn));
        var p := Publish(w, turn, ModelReceiptRetained, ModelCompleted, ModelOp(turn), receipt, s, called);
        match p.out
        case Go(_) => ModelSaved(h, turn, c, charge, s, p.d)
        case Halt(reason) => Step(Halt(reason), p.s, p.d)
        case Fail(failure) => Step(Fail(failure), p.s, p.d)
        case Dead => Step(Dead, p.s, p.d)
  }

  function ModelChargeFor(h: Host, turn: nat, prompt: Digest, tokens: nat): Charge {
    ModelCharge(ModelOp(turn), prompt, tokens, h.settings.outputTokenLimit, h.settings.price, h.settings.ceiling,
                if h.settings.ceiling then 2 else 0)
  }

  function Model(h: Host, w: World, turn: nat, c: ReasoningContext, s: Session, d: Durable): (r: Step<Observation>)
    ensures d.record.charges <= r.d.record.charges
    ensures r.d.record.charges == d.record.charges ==> r.d.effects == d.effects
  {
    match FindCharge(d.record.charges, ModelOp(turn))
    case Some(charged) => ModelSaved(h, turn, c, charged, s, d)
    case None =>
      match Prepare(h, w, PromptText(turn, c, s.feedback, s.exhausted))
      case None => Step(Halt(StopBudget), s, d)
      case Some(tokens) =>
        var prepared := PreparedArtifact(PreparedFor(h, turn, c, s, tokens));
        match Retain(d.store, prepared)
        case None => Step(Fail(Integrity), s, d)
        case Some(store) =>
          var d1 := d.(store := store);
          var charge := ModelChargeFor(h, turn, Sha256(prepared), tokens);
          if Dies(w, turn, PromptRetained) then Step(Dead, s, d1)
          else match ReserveNow(w, d1.record, charge)
            case New => ModelGranted(h, w, turn, c, charge, s, d1.(record := Charged(d1.record, charge)))
            case Existing | Denied => Step(Halt(StopBudget), s, d1)
            case NewWork => Step(Fail(NewWorkRefused), s, d1)
            case _ => Step(Fail(Integrity), s, d1)
  }

  // ----- reads

  function FindEvidence(items: seq<Evidence>, id: string): (r: Option<Evidence>)
    ensures r.Some? ==> r.value in items && r.value.meta.id == id
    ensures r.None? <==> id !in Ids(items)
  {
    if items == [] then None
    else if items[0].meta.id == id then
      assert Ids(items)[0] == id;
      Some(items[0])
    else
      assert Ids(items)[1..] == Ids(items[1..]);
      FindEvidence(items[1..], id)
  }

  /** One result's items into the insertion-ordered dictionary; `None` is an integrity error. */
  function MergeItems(h: Host, store: Store, service: string, items: seq<Evidence>, merged: seq<Evidence>)
    : Option<seq<Evidence>>
  {
    if items == [] then Some(merged)
    else
      var item := items[0];
      var known := FindEvidence(merged, item.meta.id);
      if item.meta.incident != h.run || item.meta.resource != service || !Verified(store, item) then None
      else if known.Some? && known.value != item then None
      else MergeItems(h, store, service, items[1..], if known.Some? then merged else merged + [item])
  }

  function FeedbackOf(h: Host, r: ReadResult): Feedback {
    ReadOutcome(r.request.tool, r.status,
                if h.settings.local then Some((r.request.service, r.request.query, Ids(r.evidence))) else None)
  }

  datatype Merge = Merge(out: Outcome<()>, merged: seq<Evidence>, feedback: seq<Feedback>)

  function StopOfRead(s: ReadStatus): StopReason
    requires s in {ReadDenied, ReadTimeout, ReadBusy}
  {
    match s
    case ReadDenied => StopDenied
    case ReadTimeout => StopTimeout
    case ReadBusy => StopBusy
  }

  function MergeResults(h: Host, store: Store, results: seq<ReadResult>, merged: seq<Evidence>, feedback: seq<Feedback>)
    : (m: Merge)
    ensures m.out != Dead && m.out != Fail(NewWorkRefused) && m.out !in {Halt(StopUnknown), Halt(StopBudget)}
  {
    if results == [] then Merge(Go(()), merged, feedback)
    else
      var r := results[0];
      if r.status != ReadOk && r.evidence != [] then Merge(Fail(Integrity), merged, feedback)
      else if r.status in {ReadDenied, ReadTimeout, ReadBusy} then Merge(Halt(StopOfRead(r.status)), merged, feedback)
      else match MergeItems(h, store, r.request.service, r.evidence, merged)
        case None => Merge(Fail(Integrity), merged, feedback)
        case Some(next) => MergeResults(h, store, results[1..], next, feedback + [FeedbackOf(h, r)])
  }

  function AcceptReads(h: Host, results: seq<ReadResult>, s: Session, d: Durable): (r: Step<()>)
    ensures r.d == d && r.s.receipts == s.receipts && r.out != Dead && r.out != Fail(NewWorkRefused)
    ensures r.out != Halt(StopUnknown)
  {
    var m := MergeResults(h, d.store, results, s.evidence, s.feedback);
    var s1 := s.(feedback := m.feedback);
    if !m.out.Go? then Step(m.out, s1, d)
    else if |m.merged| > 256 then Step(Halt(StopBudget), s1, d)
    else Step(Go(()), s1.(evidence := m.merged,
                          completedReads := s.completedReads + (set r | r in results :: r.request),
                          preferred := set r, e | r in results && e in r.evidence :: e.meta.id), d)
  }

  function Requests(results: seq<ReadResult>): seq<ReadRequest> {
    seq(|results|, i requires 0 <= i < |results| => results[i].request)
  }

  function ReadsSaved(h: Host, turn: nat, requests: seq<ReadRequest>, s: Session, d: Durable): (r: Step<()>)
    ensures r.d == d && r.out != Dead && r.out != Fail(NewWorkRefused)
  {
    match FindCompletion(d.record.completions, ReadsOp(turn))
    case None => Step(Halt(StopUnknown), s, d)
    case Some(digest) =>
      var s1 := s.(receipts := s.receipts + [digest]);
      match Restore(d.store, digest)
      case Some(ReadReceipt(run, op, results)) =>
        if (run, op) != (h.run, ReadsOp(turn)) || Requests(results) != requests then Step(Fail(Integrity), s1, d)
        else AcceptReads(h, results, s1, d)
      case _ => Step(Fail(Integrity), s1, d)
  }

  function RetainAll(store: Store, files: seq<Artifact>): Option<Store>
    decreases |files|
  {
    if files == [] then Some(store)
    else match Retain(store, files[0])
      case None => None
      case Some(next) => RetainAll(next, files[1..])
  }

  /** The handlers of one batch, in order: their stored artifacts and their results. */
  function Handle(w: World, turn: nat, requests: seq<ReadRequest>, i: nat, store: Store): (Store, seq<ReadResult>)
    requires w.Live? && i <= |requests|
    decreases |requests| - i
  {
    if i == |requests| then (store, [])
    else
      var reply := w.handle(turn, i);
      var stored := RetainAll(store, reply.files);
      var result := if stored.None? then ReadResult(requests[i], ReadError, [])
                    else ReadResult(requests[i], reply.status, reply.evidence);
      var rest := Handle(w, turn, requests, i + 1, if stored.None? then store else stored.value);
      (rest.0, [result] + rest.1)
  }

  function ReadsGranted(h: Host, w: World, turn: nat, requests: seq<ReadRequest>, s: Session, d: Durable): (r: Step<()>)
    requires w.Live?
    ensures r.d.record.charges == d.record.charges
    ensures r.d.record == d.record || exists a :: r.d.record == Completed(d.record, ReadsOp(turn), a)
    ensures (r.out.Go? || r.out.Halt?) && FindCompletion(d.record.completions, ReadsOp(turn)).None? ==>
      r.d.record != d.record
  {
    if Dies(w, turn, ReadsReserved) then Step(Dead, s, d)
    else
      var called := d.(effects := d.effects + [ReadsOp(turn)]);
      var handled := Handle(w, turn, requests, 0, d.store);
      var stored := called.(store := handled.0);
      if Dies(w, turn, ReadsCalled) then Step(Dead, s, stored)
      else
        var receipt := ReadReceipt(h.run, ReadsOp(turn), handled.1);
        var p := Publish(w, turn, ReadsReceiptRetained, ReadsCompleted, ReadsOp(turn), receipt, s, stored);
        if p.out.Go? then ReadsSaved(h, turn, requests, s, p.d) else p
  }

  /** `reads`, with the registry's contract: the whole batch is validated, then charged, then dispatched. */
  function Reads(h: Host, w: World, turn: nat, requests: seq<ReadRequest>, s: Session, d: Durable): (r: Step<()>)
    ensures d.record.charges <= r.d.record.charges
    ensures r.d.record.charges == d.record.charges ==> r.d.effects == d.effects
  {
    match FindCharge(d.record.charges, ReadsOp(turn))
    case Some(charged) =>
      if !charged.ReadCharge? || charged.requests != requests then Step(Fail(Integrity), s, d)
      else ReadsSaved(h, turn, requests, s, d)
    case None =>
      var charge := ReadCharge(ReadsOp(turn), requests, CatalogCost(requests));
      match ReserveNow(w, d.record, charge)
      case New => ReadsGranted(h, w, turn, requests, s, d.(record := Charged(d.record, charge)))
      case Existing | Denied => Step(Halt(StopBudget), s, d)
      case NewWork => Step(Fail(NewWorkRefused), s, d)
      case _ => Step(Fail(Integrity), s, d)
  }

  function NotCompleted(s: Session, requests: seq<ReadRequest>): seq<ReadRequest> {
    if requests == [] then []
    else
      var last := requests[|requests| - 1];
      NotCompleted(s, requests[..|requests| - 1]) + (if last in s.completedReads then [] else [last])
  }

  function Wanted(h: Host, s: Session, requests: seq<ReadRequest>): seq<ReadRequest> {
    if h.settings.local then NotCompleted(s, requests) else requests
  }

  function RequestReads(h: Host, w: World, turn: nat, requests: seq<ReadRequest>, s: Session, d: Durable): Step<()> {
    var wanted := Wanted(h, s, requests);
    if wanted == [] then Step(Go(()), s.(exhausted := true, feedback := s.feedback + [AlreadyCompleted]), d)
    else
      var r := Reads(h, w, turn, wanted, s, d);
      if r.out == Halt(StopBudget) && h.settings.local && turn < h.limits.modelCalls
      then Step(Go(()), r.s.(exhausted := true, feedback := r.s.feedback + [ReadBudgetSpent]), r.d)
      else r
  }

  // ----- turns

  datatype Progress = Continue | Answer(causes: seq<Cause>)

  /** What a turn does with an accepted observation. */
  function Act(h: Host, w: World, turn: nat, c: ReasoningContext, o: Observation, s: Session, d: Durable)
    : Step<Progress>
  {
    if o.status == InvalidOutput then
      var s1 := s.(invalid := s.invalid + 1);
      if s1.invalid > 1 then Step(Halt(StopInvalidOutput), s1, d)
      else Step(Go(Continue), s1.(feedback := s1.feedback + [BadOutput]), d)
    else if o.status != ModelOk then Step(Halt(StopOfModel(o.status)), s, d)
    else if o.decision.value.verdict == Finish then
      Step(Go(Answer(Supported(h, c, o.decision.value.causes))), s, d)
    else
      var r := RequestReads(h, w, turn, o.decision.value.requests, s, d);
      match r.out
      case Go(_) => Step(Go(Continue), r.s, r.d)
      case Halt(reason) => Step(Halt(reason), r.s, r.d)
      case Fail(failure) => Step(Fail(failure), r.s, r.d)
      case Dead => Step(Dead, r.s, r.d)
  }

  function Turn(h: Host, e: Env, turn: nat, s: Session, d: Durable): Step<Progress> {
    if e.authority(turn) != Granted then Step(Halt(StopOf(e.authority(turn))), s, d)
    else match ContextOf(h, s, d.store)
      case Built(c) =>
        var m := Model(h, e.world, turn, c, s, d);
        (match m.out
         case Go(o) => Act(h, e.world, turn, c, o, m.s, m.d)
         case Halt(reason) => Step(Halt(reason), m.s, m.d)
         case Fail(failure) => Step(Fail(failure), m.s, m.d)
         case Dead => Step(Dead, m.s, m.d))
      case _ => Step(Fail(Integrity), s, d)
  }

  function Ended(t: Step<Progress>): (r: Step<seq<Cause>>)
    requires t.out != Go(Continue)
    ensures r.s == t.s && r.d == t.d
    ensures (r.out.Go? <==> t.out.Go?) && (t.out.Halt? ==> r.out == Halt(t.out.reason)) && (r.out.Halt? ==> t.out.Halt?)
  {
    match t.out
    case Go(p) => Step(Go(p.causes), t.s, t.d)
    case Halt(reason) => Step(Halt(reason), t.s, t.d)
    case Fail(failure) => Step(Fail(failure), t.s, t.d)
    case Dead => Step(Dead, t.s, t.d)
  }

  function Turns(h: Host, e: Env, turn: nat, s: Session, d: Durable): Step<seq<Cause>>
    decreases h.limits.modelCalls + 1 - turn
  {
    if turn > h.limits.modelCalls then Step(Halt(StopBudget), s, d)
    else
      var t := Turn(h, e, turn, s, d);
      if t.out == Go(Continue) then Turns(h, e, turn + 1, t.s, t.d) else Ended(t)
  }

  // ----- a whole entry

  datatype LoopResult = LoopResult(stop: StopReason, causes: seq<Cause>, evidence: seq<Evidence>, receipts: seq<Digest>)

  datatype Ending = Done(result: LoopResult) | Raised(failure: Failure) | Crashed

  datatype RunEnd = RunEnd(ending: Ending, d: Durable)

  function NewSession(h: Host): Session {
    Session(h.initial, [], [], false, {}, {}, 0)
  }

  function Concluded(h: Host, e: Env, t: Step<seq<Cause>>): Ending {
    match t.out
    case Dead => Crashed
    case Fail(failure) => Raised(failure)
    case Halt(reason) =>
      if !EvidenceChecked(h, t.s.evidence, t.d.store) then Raised(Integrity)
      else Done(LoopResult(reason, [], t.s.evidence, t.s.receipts))
    case Go(causes) =>
      if !EvidenceChecked(h, t.s.evidence, t.d.store) then Raised(Integrity)
      else if e.publication != Granted then Done(LoopResult(StopOf(e.publication), [], t.s.evidence, t.s.receipts))
      else Done(LoopResult(Finished, causes, t.s.evidence, t.s.receipts))
  }

  function RunSession(h: Host, e: Env, d: Durable): RunEnd {
    if !EvidenceChecked(h, h.initial, d.store) then RunEnd(Raised(Integrity), d)
    else
      var t := Turns(h, e, 1, NewSession(h), d);
      RunEnd(Concluded(h, e, t), t.d)
  }

  /** The run's row, the artifact files and the outside world, as an entry finds them. */
  datatype Disk = Disk(row: Option<BudgetRecord>, store: Store, effects: seq<OpId>)

  datatype EntryEnd = EntryEnd(ending: Ending, disk: Disk)

  /** `ReasoningLoop.run`: store the binding, open the ledger, run one session. */
  function Enter(h: Host, e: Env, disk: Disk): EntryEnd {
    match Retain(disk.store, BindingOf(h).content)
    case None => EntryEnd(Raised(Integrity), disk)
    case Some(store) =>
      var bound := disk.(store := store);
      var reply := if e.world.Sealed? then SealedOpenReply(disk.row, h.run, BindingOf(h), h.limits)
                   else OpenReply(disk.row, h.run, BindingOf(h), h.limits);
      if reply !in {New, Existing} then EntryEnd(Raised(Integrity), bound)
      else
        var record := if reply == New then Fresh(h.run, BindingOf(h), h.limits) else disk.row.value;
        var r := RunSession(h, e, Durable(record, store, disk.effects));
        EntryEnd(r.ending, Disk(Some(r.d.record), r.d.store, r.d.effects))
  }
}
