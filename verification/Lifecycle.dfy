/**
 The investigation around the reasoning loop: nodes that reserve attempts in durable files, a checkpoint after
 each node, a one-shot collection, and read allowances shared between graph and ledger. A node may die, or
 raise, at any point; then its durable traces stay and its checkpoint does not.
 */
module Lifecycle {
  import opened Records
  import opened Budget
  import opened Loop
  import opened Grounding

  // ----- state

  datatype Phase = Received | Triaged | ReadsHeld | EvidenceCollected | Ranked | Finished

  datatype Terminal = Escalated | EvidenceInsufficient | SecurityBlock | BudgetExhausted | DependencyUnavailable
                    | Unrecoverable

  datatype InvestigationBudget = InvestigationBudget(maxSteps: nat, maxToolCalls: nat, maxBackendReads: nat,
                                                     startBefore: int)

  datatype Investigation = Investigation(
    incident: string, inScope: bool, payments: bool, reasoned: bool, budget: InvestigationBudget,
    phase: Phase, stepsUsed: nat, toolCalls: nat, backendReads: nat, evidence: seq<Evidence>, causes: seq<Cause>,
    terminal: Option<Terminal>, receipts: seq<Digest>, report: Option<(Report, Terminal)>)

  /** The bounds every validated reconstruction enforces. */
  predicate ValidState(s: Investigation) {
    && s.budget.maxSteps <= 16 && s.budget.maxToolCalls <= 40 && s.budget.maxBackendReads <= 64
    && s.stepsUsed <= 16 && s.toolCalls <= 40 && s.backendReads <= 64 && |s.receipts| <= 20
  }

  function CollectionCost(s: Investigation): nat { if s.payments then 34 else 30 }

  datatype Node = Triage | Reserve | Collect | Rank | Finish | End

  datatype Collection = Collection(incident: string, evidence: seq<Evidence>)

  datatype ResultFile = Absent | Partial | Complete(collection: Collection)

  /** The recorded checkpoint: the state and the node to run next. */
  datatype Checkpoint = Checkpoint(state: Investigation, next: Node)

  /** Everything durable about one incident, with counts of the operations and collections ever started. */
  datatype Files = Files(attempts: set<nat>, marker: bool, result: ResultFile, ledger: Disk, operations: nat,
                         collections: nat)

  // ----- environment

  /** `left`: whether a write that did not succeed leaves its file behind. */
  datatype WriteEnd = WriteDies(left: bool) | WriteFails(left: bool) | Written

  datatype CollectorEnd = MarkerDies | MarkerFails(left: bool) | CollectorDies | CollectorRaises(integrity: bool)
                        | CollectorReturns(collection: Collection, write: WriteEnd)

  /**
   `host` is what the factory built; `differs` its mode or store mismatch; `caught` whether the loop's exception is.
   */
  datatype NodeEnv = NodeEnv(now: int, diesEarly: bool, diesLate: bool, collector: CollectorEnd,
                             artifacts: seq<Artifact>,
                             host: Host, loop: Env, differs: bool, caught: bool, baseline: seq<Cause>)

  /** How a node run ends: a state to checkpoint, or nothing but its durable traces. */
  datatype NodeEnd = Updated(state: Investigation, files: Files) | Lost(files: Files)

  // ----- reserve_attempt

  datatype Attempt = NoAttempt(state: Investigation) | NewAttempt(state: Investigation, file: nat) | Collides

  function Used(s: Investigation, attempts: set<nat>): nat {
    Max(s.stepsUsed, |attempts|)
  }

  function ReserveAttempt(s: Investigation, attempts: set<nat>, now: int): Attempt {
    var used := Used(s, attempts);
    if used >= s.budget.maxSteps || now >= s.budget.startBefore
    then NoAttempt(s.(stepsUsed := used, terminal := Some(BudgetExhausted)))
    else if used + 1 in attempts then Collides
    else NewAttempt(s.(stepsUsed := used + 1), used + 1)
  }

  // ----- node operations

  function TriageState(s: Investigation): Investigation {
    s.(phase := Triaged, terminal := if s.inScope then None else Some(SecurityBlock))
  }

  function ReserveState(s: Investigation): Investigation {
    var calls, backend := s.toolCalls + 20, s.backendReads + CollectionCost(s);
    if calls > s.budget.maxToolCalls || backend > s.budget.maxBackendReads then s.(terminal := Some(BudgetExhausted))
    else s.(phase := ReadsHeld, toolCalls := calls, backendReads := backend)
  }

  predicate Acceptable(s: Investigation, c: Collection, store: Store) {
    c.incident == s.incident && forall e :: e in c.evidence ==> e.meta.incident == s.incident && Verified(store, e)
  }

  function Collected(s: Investigation, c: Collection, store: Store): Investigation {
    if Acceptable(s, c, store) then s.(phase := EvidenceCollected, evidence := c.evidence)
    else s.(terminal := Some(SecurityBlock))
  }

  function Stored(store: Store, artifacts: seq<Artifact>): Store {
    var r := RetainAll(store, artifacts);
    if r.None? then store else r.value
  }

  /** After the marker exists: the one call of the collector and the write of its result. */
  function Dispatched(s: Investigation, f: Files, e: NodeEnv): NodeEnd {
    var marked := f.(marker := true);
    if e.collector.MarkerDies? then Lost(marked)
    else if e.collector.MarkerFails?
    then Updated(s.(terminal := Some(DependencyUnavailable)), if e.collector.left then marked else f)
    else
      var called := marked.(collections := f.collections + 1,
                            ledger := f.ledger.(store := Stored(f.ledger.store, e.artifacts)));
      match e.collector
      case CollectorReturns(collection, write) =>
        if write.Written? then
          var kept := called.(result := Complete(collection));
          Updated(Collected(s, collection, kept.ledger.store), kept)
        else
          var torn := called.(result := if write.left then Partial else Absent);
          if write.WriteDies? then Lost(torn) else Updated(s.(terminal := Some(DependencyUnavailable)), torn)
      case CollectorRaises(integrity) =>
        Updated(s.(terminal := Some(if integrity then SecurityBlock else DependencyUnavailable)), called)
      case _ => Lost(called)
  }

  function CollectState(s: Investigation, f: Files, e: NodeEnv): NodeEnd {
    if s.toolCalls < 20 || s.backendReads < CollectionCost(s) then Updated(s.(terminal := Some(BudgetExhausted)), f)
    else match f.result
      case Complete(collection) => Updated(Collected(s, collection, f.ledger.store), f)
      case Partial => Updated(s.(terminal := Some(DependencyUnavailable)), f)
      case Absent =>
        if f.marker then Updated(s.(terminal := Some(DependencyUnavailable)), f) else Dispatched(s, f, e)
  }

  /** `terminal`: only a finished loop with causes escalates. */
  function TerminalOf(r: LoopResult): Terminal {
    match r.stop
    case Finished => if r.causes != [] then Escalated else EvidenceInsufficient
    case StopDenied => SecurityBlock
    case StopBudget => BudgetExhausted
    case StopRefused | StopInvalidOutput => EvidenceInsufficient
    case _ => DependencyUnavailable
  }

  function HostFor(s: Investigation, h: Host): Host {
    h.(run := s.incident, initial := s.evidence)
  }

  /** The factory's limits must fit into what the graph has not reserved. */
  predicate AllowanceFits(s: Investigation, limits: ReasoningBudget) {
    && s.toolCalls + limits.toolCalls <= s.budget.maxToolCalls
    && s.backendReads + limits.backendReads <= s.budget.maxBackendReads
  }

  function Reasoned(s: Investigation, r: LoopResult, spent: Spend): Investigation {
    s.(phase := Ranked, evidence := r.evidence, causes := r.causes, terminal := Some(TerminalOf(r)),
       receipts := r.receipts,
       toolCalls := s.toolCalls + spent.toolCalls, backendReads := s.backendReads + spent.backendReads)
  }

  /** `reason` inside `rank`: a fresh entry into the loop, then the whole ledger is counted. */
  function ReasonState(s: Investigation, f: Files, e: NodeEnv): NodeEnd {
    if e.differs || !AllowanceFits(s, e.host.limits) then Updated(s.(terminal := Some(SecurityBlock)), f)
    else
      var r := Enter(HostFor(s, e.host), e.loop, f.ledger);
      var f1 := f.(ledger := r.disk);
      match r.ending
      case Done(result) =>
        if r.disk.row.None? then Lost(f1) else Updated(Reasoned(s, result, Spent(r.disk.row.value.charges)), f1)
      case Raised(_) => if e.caught then Updated(s.(terminal := Some(SecurityBlock)), f1) else Lost(f1)
      case Crashed => Lost(f1)
  }

  function RankState(s: Investigation, f: Files, e: NodeEnv): NodeEnd {
    if exists x :: x in s.evidence && !Verified(f.ledger.store, x) then Updated(s.(terminal := Some(SecurityBlock)), f)
    else if s.reasoned then ReasonState(s, f, e)
    else
      Updated(s.(phase := Ranked, causes := e.baseline,
                 terminal := Some(if e.baseline != [] then Escalated else EvidenceInsufficient)), f)
  }

  function ReportFor(s: Investigation): Report {
    Report(s.incident, s.evidence, s.causes, s.receipts)
  }

  /** `finish` takes no attempt; a report that fails its validators raises. */
  function FinishState(s: Investigation, f: Files): NodeEnd {
    if !ValidReport(ReportFor(s)) then Lost(f)
    else Updated(s.(phase := Phase.Finished,
                    report := Some((ReportFor(s), if s.terminal.Some? then s.terminal.value else Unrecoverable))), f)
  }

  function Operate(s: Investigation, f: Files, node: Node, e: NodeEnv): NodeEnd {
    match node
    case Triage => Updated(TriageState(s), f)
    case Reserve => Updated(ReserveState(s), f)
    case Collect => CollectState(s, f, e)
    case _ => RankState(s, f, e)
  }

  /** `_step`: attempt, then operation; `finish` runs without either. */
  function RunNode(s: Investigation, f: Files, node: Node, e: NodeEnv): NodeEnd {
    if node == Node.Finish then FinishState(s, f)
    else match ReserveAttempt(s, f.attempts, e.now)
      case NoAttempt(state) => if e.diesEarly then Lost(f) else Updated(state, f)
      case Collides => Lost(f)
      case NewAttempt(state, file) =>
        var reserved := f.(attempts := f.attempts + {file});
        if e.diesEarly then Lost(reserved) else Operate(state, reserved.(operations := f.operations + 1), node, e)
  }

  /** `route`; `None` is its ValueError. */
  function Route(s: Investigation): Option<Node> {
    if s.terminal.Some? then Some(Node.Finish)
    else match s.phase
      case Triaged => Some(Reserve)
      case ReadsHeld => Some(Collect)
      case EvidenceCollected => Some(Rank)
      case _ => None
  }

  /** The compiled edges. */
  function After(node: Node, s: Investigation): Option<Node> {
    match node
    case Triage | Reserve | Collect => Route(s)
    case Rank => Some(Node.Finish)
    case _ => Some(End)
  }

  // ----- whole lives

  datatype Life = Life(saved: Checkpoint, files: Files)

  /** One node under the worker's lock: checkpointed when it ends, lost with a trace when it does not. */
  function Next(l: Life, e: NodeEnv): Life {
    if l.saved.next == End then l
    else match RunNode(l.saved.state, l.files, l.saved.next, e)
      case Lost(files) => l.(files := files)
      case Updated(state, files) =>
        if e.diesLate || !ValidState(state) || After(l.saved.next, state).None? then l.(files := files)
        else Life(Checkpoint(state, After(l.saved.next, state).value), files)
  }

  function Lives(l: Life, envs: seq<NodeEnv>): Life
    decreases |envs|
  {
    if envs == [] then l else Next(Lives(l, envs[..|envs| - 1]), envs[|envs| - 1])
  }

  function NewInvestigation(incident: string, inScope: bool, payments: bool, reasoned: bool,
                            budget: InvestigationBudget)
    : Investigation
  {
    Investigation(incident, inScope, payments, reasoned, budget, Received, 0, 0, 0, [], [], None, [], None)
  }

  const NO_FILES := Files({}, false, Absent, Disk(None, map[], []), 0, 0)

  /** `start` stores the input as the first checkpoint. */
  function Started(s: Investigation): Life {
    Life(Checkpoint(s, Triage), NO_FILES)
  }
}
