/** What restarts and crashes of an investigation cannot break. */
module LifecycleSafety {
  import opened Records
  import opened Budget
  import opened Loop
  import opened LoopGrowth
  import opened LoopReplay
  import opened Grounding
  import opened Lifecycle

  // ----- the ledger under any number of entries

  function SpentIn(d: Disk): Spend {
    if d.row.None? then ZERO else Spent(d.row.value.charges)
  }

  /** The part of an investigation no node changes and the ledger depends on. */
  datatype Key = Key(incident: string, cost: nat, maxToolCalls: nat, maxBackendReads: nat)

  function KeyOf(s: Investigation): Key {
    Key(s.incident, CollectionCost(s), s.budget.maxToolCalls, s.budget.maxBackendReads)
  }

  /** Whatever hosts have entered, their row is valid and its limits fit beside the collection. */
  ghost predicate LedgerOk(key: Key, d: Disk) {
    && Intact(d.store)
    && Accounted(d.effects, if d.row.Some? then d.row.value.charges else [])
    && (d.row.Some? ==>
          && ValidRecord(d.row.value) && d.row.value.run == key.incident
          && 20 + d.row.value.limits.toolCalls <= key.maxToolCalls
          && key.cost + d.row.value.limits.backendReads <= key.maxBackendReads)
  }

  ghost predicate ValidEnv(e: NodeEnv) {
    ValidHost(e.host) && e.loop.world.Live?
  }

  predicate Fits(s: Investigation, h: Host) {
    && ValidHost(h) && h.run == s.incident
    && 20 + h.limits.toolCalls <= s.budget.maxToolCalls
    && CollectionCost(s) + h.limits.backendReads <= s.budget.maxBackendReads
  }

  lemma SessionKeepsGood(h: Host, e: Env, d: Durable)
    requires Good(h, d)
    ensures Good(h, RunSession(h, e, d).d)
  {
    hide Turns, EvidenceChecked, Good, Grows;
    TurnsGrow(h, e, 1, NewSession(h), d);
  }

  /** An entry that gets past the ledger finds the journal of its own binding. */
  lemma OpensGood(s: Investigation, h: Host, e: Env, d: Disk)
    requires LedgerOk(KeyOf(s), d) && Fits(s, h) && e.world.Live?
    requires OpenReply(d.row, h.run, BindingOf(h), h.limits) in {New, Existing}
    ensures GoodDisk(h, d)
  {
  }

  lemma RefusedEntry(h: Host, e: Env, d: Disk)
    requires Intact(d.store) && e.world.Live? && OpenReply(d.row, h.run, BindingOf(h), h.limits) !in {New, Existing}
    ensures Enter(h, e, d).ending == Raised(Integrity)
    ensures Enter(h, e, d).disk == d.(store := d.store[BindingOf(h) := BindingOf(h).content])
  {
    hide RunSession;
  }

  lemma EnterKeepsLedger(s: Investigation, h: Host, e: Env, d: Disk)
    requires LedgerOk(KeyOf(s), d) && Fits(s, h) && e.world.Live?
    ensures LedgerOk(KeyOf(s), Enter(h, e, d).disk)
    ensures var r := Enter(h, e, d);
      r.ending.Done? ==>
        && r.disk.row.Some? && ValidReport(ReportOf(h, r.ending.result))
        && (r.ending.result.stop != StopReason.Finished ==> r.ending.result.causes == [])
  {
    hide Enter, RunSession, OpenReply, Accounted;
    if OpenReply(d.row, h.run, BindingOf(h), h.limits) in {New, Existing} {
      OpensGood(s, h, e, d);
      EnterOpens(h, e, d);
      SessionKeepsGood(h, e, Opened(h, d));
      if Enter(h, e, d).ending.Done? {
        EveryResultIsGrounded(h, e, d);
      }
    } else {
      RefusedEntry(h, e, d);
    }
  }

  // ----- the invariant of a life

  ghost predicate Numbered(attempts: set<nat>) {
    forall k: nat :: k in attempts <==> 1 <= k <= |attempts|
  }

  ghost predicate CountsHold(s: Investigation, f: Files) {
    && Numbered(f.attempts) && s.stepsUsed <= |f.attempts| <= s.budget.maxSteps
    && f.operations <= |f.attempts|
    && f.collections <= 1 && (f.collections == 1 || f.result != Absent ==> f.marker)
  }

  predicate NothingRanked(s: Investigation) {
    s.causes == [] && s.receipts == [] && OneIncident(s.evidence, s.incident)
  }

  /** What the next node to run may take for granted. */
  ghost predicate Positioned(s: Investigation, next: Node, d: Disk) {
    match next
    case Triage => s.phase == Received && s.terminal.None? && s.toolCalls == 0 == s.backendReads && NothingRanked(s)
    case Reserve => s.phase == Triaged && s.terminal.None? && s.toolCalls == 0 == s.backendReads && NothingRanked(s)
    case Collect =>
      && s.phase == ReadsHeld && s.terminal.None? && s.toolCalls == 20 && s.backendReads == CollectionCost(s)
      && NothingRanked(s)
    case Rank =>
      && s.phase == EvidenceCollected && s.terminal.None? && s.toolCalls == 20 && s.backendReads == CollectionCost(s)
      && NothingRanked(s)
    case Finish =>
      && s.terminal.Some? && s.terminal != Some(Unrecoverable)
      && (s.phase != Ranked ==> NothingRanked(s) && s.phase != Phase.Finished)
      && (s.reasoned ==> (s.terminal == Some(Escalated) <==> s.causes != []))
      && (s.phase == Ranked && s.reasoned ==>
            && d.row.Some? && ValidReport(ReportFor(s))
            && s.toolCalls == 20 + SpentIn(d).toolCalls
            && s.backendReads == CollectionCost(s) + SpentIn(d).backendReads)
    case End =>
      && s.phase == Phase.Finished && s.report.Some? && s.report.value.0 == ReportFor(s)
      && ValidReport(s.report.value.0) && s.report.value.1 != Unrecoverable
      && (s.reasoned ==> (s.report.value.1 == Escalated <==> s.causes != []))
  }

  /** Collection and model reads together stay within the investigation's allowances, checkpointed or not. */
  ghost predicate AllowancesHold(s: Investigation, d: Disk) {
    && s.toolCalls <= s.budget.maxToolCalls && s.backendReads <= s.budget.maxBackendReads
    && (d.row.Some? ==> 20 + SpentIn(d).toolCalls <= s.budget.maxToolCalls
                        && CollectionCost(s) + SpentIn(d).backendReads <= s.budget.maxBackendReads)
  }

  /** The durable side, which a lost node may change. */
  ghost predicate Durably(s: Investigation, next: Node, f: Files) {
    CountsHold(s, f) && LedgerOk(KeyOf(s), f.ledger) && Positioned(s, next, f.ledger)
  }

  ghost predicate LifeInv(s: Investigation, next: Node, f: Files) {
    ValidState(s) && Durably(s, next, f) && AllowancesHold(s, f.ledger)
  }

  function PhaseRank(p: Phase): nat {
    match p
    case Received => 0 case Triaged => 1 case ReadsHeld => 2 case EvidenceCollected => 3 case Ranked => 4
    case Finished => 5
  }

  predicate SameCase(s: Investigation, s2: Investigation) {
    && s2.incident == s.incident && s2.inScope == s.inScope && s2.payments == s.payments && s2.reasoned == s.reasoned
    && s2.budget == s.budget
  }

  /** What running the node `next` may end in. */
  ghost predicate Ends(s: Investigation, next: Node, end: NodeEnd) {
    && Durably(s, next, end.files)
    && (end.Updated? ==>
          && SameCase(s, end.state) && PhaseRank(s.phase) <= PhaseRank(end.state.phase)
          && After(next, end.state).Some? && LifeInv(end.state, After(next, end.state).value, end.files))
  }

  lemma LedgerAllows(s: Investigation, d: Disk)
    requires LedgerOk(KeyOf(s), d)
    ensures d.row.Some? ==> 20 + SpentIn(d).toolCalls <= s.budget.maxToolCalls
                            && CollectionCost(s) + SpentIn(d).backendReads <= s.budget.maxBackendReads
  {
    hide Accounted;
  }

  // ----- attempts

  /** The next number is always free, and taking it keeps the numbering. */
  lemma NextAttempt(s: Investigation, f: Files)
    requires CountsHold(s, f)
    ensures Used(s, f.attempts) == |f.attempts| && |f.attempts| + 1 !in f.attempts
    ensures Numbered(f.attempts + {|f.attempts| + 1}) && |f.attempts + {|f.attempts| + 1}| == |f.attempts| + 1
  {
    var more := f.attempts + {|f.attempts| + 1};
    forall k: nat ensures k in more <==> 1 <= k <= |f.attempts| + 1 {
      assert k in f.attempts <==> 1 <= k <= |f.attempts|;
    }
  }

  /** An attempt is refused, or recorded under a fresh number; either way nothing else changes. */
  lemma AttemptHolds(s: Investigation, next: Node, f: Files, now: int)
    requires LifeInv(s, next, f) && next !in {Node.Finish, End}
    ensures match ReserveAttempt(s, f.attempts, now)
      case NoAttempt(state) => Ends(s, next, Updated(state, f))
      case NewAttempt(state, file) =>
        && state == s.(stepsUsed := file)
        && Durably(s, next, f.(attempts := f.attempts + {file}))
        && LifeInv(state, next, f.(attempts := f.attempts + {file}, operations := f.operations + 1))
        && Durably(s, next, f.(attempts := f.attempts + {file}, operations := f.operations + 1))
      case Collides => false
  {
    hide LedgerOk, Numbered, SpentIn, ValidReport;
    NextAttempt(s, f);
  }

  // ----- operations

  /** The state an operation starts from is the checkpointed one with its attempt counted. */
  ghost predicate Attempting(s: Investigation, st: Investigation, next: Node, f: Files) {
    && st == s.(stepsUsed := st.stepsUsed)
    && Durably(s, next, f) && LifeInv(st, next, f)
  }

  lemma TriageEnds(s: Investigation, st: Investigation, f: Files)
    requires Attempting(s, st, Triage, f)
    ensures Ends(s, Triage, Updated(TriageState(st), f))
  {
    hide LedgerOk, Numbered;
  }

  lemma ReserveEnds(s: Investigation, st: Investigation, f: Files)
    requires Attempting(s, st, Reserve, f)
    ensures Ends(s, Reserve, Updated(ReserveState(st), f))
  {
    hide LedgerOk, Numbered;
  }

  lemma StoreKeepsLedger(s: Investigation, d: Disk, artifacts: seq<Artifact>)
    requires LedgerOk(KeyOf(s), d)
    ensures LedgerOk(KeyOf(s), d.(store := Stored(d.store, artifacts)))
  {
    RetainAllGrows(d.store, artifacts);
    hide Accounted, ValidRecord;
  }

  /** Storing an outcome of the collection, or losing it, on a store that only grew. */
  lemma CollectedEnds(s: Investigation, st: Investigation, f: Files, f2: Files)
    requires Attempting(s, st, Collect, f)
    requires f2.ledger.row == f.ledger.row && LedgerOk(KeyOf(s), f2.ledger)
    requires CountsHold(st, f2) && f2.attempts == f.attempts
    ensures Ends(s, Collect, Lost(f2))
    ensures forall t :: t in {SecurityBlock, BudgetExhausted, DependencyUnavailable} ==>
      Ends(s, Collect, Updated(st.(terminal := Some(t)), f2))
    ensures forall c :: Ends(s, Collect, Updated(Collected(st, c, f2.ledger.store), f2))
  {
    hide LedgerOk, Numbered, Verified;
    assert SpentIn(f2.ledger) == SpentIn(f.ledger);
  }

  lemma CollectEnds(s: Investigation, st: Investigation, f: Files, e: NodeEnv)
    requires Attempting(s, st, Collect, f)
    ensures Ends(s, Collect, CollectState(st, f, e))
  {
    hide LedgerOk, Numbered, Stored, Ends, Collected;
    CollectedEnds(s, st, f, f);
    if !f.marker {
      StoreKeepsLedger(s, f.ledger, e.artifacts);
      var marked := f.(marker := true);
      var called := marked.(collections := f.collections + 1,
                            ledger := f.ledger.(store := Stored(f.ledger.store, e.artifacts)));
      CollectedEnds(s, st, f, marked);
      CollectedEnds(s, st, f, called);
      CollectedEnds(s, st, f, called.(result := Partial));
      if e.collector.CollectorReturns? {
        CollectedEnds(s, st, f, called.(result := Complete(e.collector.collection)));
      }
    }
  }

  lemma ReasonEnds(s: Investigation, st: Investigation, f: Files, e: NodeEnv)
    requires Attempting(s, st, Rank, f) && ValidEnv(e) && s.reasoned
    ensures Ends(s, Rank, ReasonState(st, f, e))
  {
    hide LedgerOk, Numbered, Enter, SpentIn, ValidReport;
    if !e.differs && AllowanceFits(st, e.host.limits) {
      var h := HostFor(st, e.host);
      assert Fits(st, h);
      EnterKeepsLedger(st, h, e.loop, f.ledger);
      var d := Enter(h, e.loop, f.ledger).disk;
      LedgerAllows(st, d);
      if Enter(h, e.loop, f.ledger).ending.Done? {
        ReasonedCounts(st, Enter(h, e.loop, f.ledger).ending.result, d);
      }
    }
  }

  lemma ReasonedCounts(s: Investigation, r: LoopResult, d: Disk)
    requires d.row.Some? && ValidReport(Report(s.incident, r.evidence, r.causes, r.receipts))
    ensures var s2 := Reasoned(s, r, Spent(d.row.value.charges));
      && s2.toolCalls == s.toolCalls + SpentIn(d).toolCalls
      && s2.backendReads == s.backendReads + SpentIn(d).backendReads
      && ValidReport(ReportFor(s2)) && |s2.receipts| <= 20 && s2.terminal != Some(Unrecoverable)
  {
  }

  lemma RankEnds(s: Investigation, st: Investigation, f: Files, e: NodeEnv)
    requires Attempting(s, st, Rank, f) && ValidEnv(e)
    ensures Ends(s, Rank, RankState(st, f, e))
  {
    hide LedgerOk, Numbered, ReasonState, SpentIn, Verified;
    if s.reasoned {
      ReasonEnds(s, st, f, e);
    }
  }

  lemma FinishEnds(s: Investigation, f: Files)
    requires LifeInv(s, Node.Finish, f)
    ensures Ends(s, Node.Finish, FinishState(s, f))
  {
    hide LedgerOk, Numbered, ValidReport, SpentIn;
  }

  lemma NodeEnds(s: Investigation, next: Node, f: Files, e: NodeEnv)
    requires LifeInv(s, next, f) && next != End && ValidEnv(e)
    ensures Ends(s, next, RunNode(s, f, next, e))
  {
    hide LifeInv, Durably, Ends, ReserveAttempt, TriageState, ReserveState, CollectState, RankState, FinishState;
    if next == Node.Finish {
      FinishEnds(s, f);
    } else {
      AttemptHolds(s, next, f, e.now);
      LostEnds(s, next, f);
      match ReserveAttempt(s, f.attempts, e.now) {
        case NewAttempt(state, file) =>
          var reserved := f.(attempts := f.attempts + {file});
          LostEnds(s, next, reserved);
          var started := reserved.(operations := f.operations + 1);
          match next {
            case Triage => TriageEnds(s, state, started);
            case Reserve => ReserveEnds(s, state, started);
            case Collect => CollectEnds(s, state, started, e);
            case _ => RankEnds(s, state, started, e);
          }
        case _ =>
      }
    }
  }

  lemma LostEnds(s: Investigation, next: Node, f: Files)
    ensures Durably(s, next, f) ==> Ends(s, next, Lost(f))
    ensures LifeInv(s, next, f) ==> Durably(s, next, f)
  {
  }

  // ----- whole lives

  ghost predicate Alive(l: Life) {
    LifeInv(l.saved.state, l.saved.next, l.files)
  }

  lemma EndsMeans(s: Investigation, next: Node, f: Files, end: NodeEnd)
    requires LifeInv(s, next, f) && Ends(s, next, end)
    ensures LifeInv(s, next, end.files)
    ensures end.Updated? ==>
      && SameCase(s, end.state) && PhaseRank(s.phase) <= PhaseRank(end.state.phase)
      && After(next, end.state).Some? && LifeInv(end.state, After(next, end.state).value, end.files)
  {
    hide Positioned, CountsHold, SpentIn;
    LedgerAllows(s, end.files.ledger);
    hide LedgerOk;
  }

  /** One more node, whatever happens to it. */
  lemma NextKeeps(l: Life, e: NodeEnv)
    requires Alive(l) && ValidEnv(e)
    ensures Alive(Next(l, e)) && SameCase(l.saved.state, Next(l, e).saved.state)
    ensures PhaseRank(l.saved.state.phase) <= PhaseRank(Next(l, e).saved.state.phase)
  {
    hide RunNode, LifeInv, Ends, PhaseRank;
    var s, next := l.saved.state, l.saved.next;
    if next != End {
      NodeEnds(s, next, l.files, e);
      EndsMeans(s, next, l.files, RunNode(s, l.files, next, e));
    }
  }

  lemma StartedIsAlive(incident: string, inScope: bool, payments: bool, reasoned: bool, budget: InvestigationBudget)
    requires budget.maxSteps <= 16 && budget.maxToolCalls <= 40 && budget.maxBackendReads <= 64
    ensures Alive(Started(NewInvestigation(incident, inScope, payments, reasoned, budget)))
  {
  }

  lemma {:induction false} LivesStayAlive(l: Life, envs: seq<NodeEnv>)
    requires Alive(l) && forall e :: e in envs ==> ValidEnv(e)
    ensures Alive(Lives(l, envs)) && SameCase(l.saved.state, Lives(l, envs).saved.state)
    ensures PhaseRank(l.saved.state.phase) <= PhaseRank(Lives(l, envs).saved.state.phase)
    decreases |envs|
  {
    hide Alive, Next, ValidEnv;
    if envs != [] {
      LivesStayAlive(l, envs[..|envs| - 1]);
      NextKeeps(Lives(l, envs[..|envs| - 1]), envs[|envs| - 1]);
    }
  }

  // ----- theorems

  ghost predicate Reachable(s0: Investigation, envs: seq<NodeEnv>) {
    && s0 == NewInvestigation(s0.incident, s0.inScope, s0.payments, s0.reasoned, s0.budget)
    && s0.budget.maxSteps <= 16 && s0.budget.maxToolCalls <= 40 && s0.budget.maxBackendReads <= 64
    && forall e :: e in envs ==> ValidEnv(e)
  }

  lemma ReachableIsAlive(s0: Investigation, envs: seq<NodeEnv>)
    requires Reachable(s0, envs)
    ensures Alive(Lives(Started(s0), envs)) && SameCase(s0, Lives(Started(s0), envs).saved.state)
  {
    hide Alive, Lives, ValidEnv;
    StartedIsAlive(s0.incident, s0.inScope, s0.payments, s0.reasoned, s0.budget);
    LivesStayAlive(Started(s0), envs);
  }

  /** Over all restarts: attempts are numbered 1..n, none is ever taken twice, and the collector runs at most once. */
  lemma AttemptsAreBounded(s0: Investigation, envs: seq<NodeEnv>, now: int)
    requires Reachable(s0, envs)
    ensures var l := Lives(Started(s0), envs); var n := |l.files.attempts|;
      && (forall k: nat :: k in l.files.attempts <==> 1 <= k <= n)
      && l.saved.state.stepsUsed <= n <= s0.budget.maxSteps
      && l.files.operations <= s0.budget.maxSteps && l.files.collections <= 1
      && !ReserveAttempt(l.saved.state, l.files.attempts, now).Collides?
  {
    hide Lives, Reachable;
    ReachableIsAlive(s0, envs);
    var l := Lives(Started(s0), envs);
    NextAttempt(l.saved.state, l.files);
  }

  /** A node that ends has a legal successor, breaks no field bound and never moves the phase back. */
  lemma RouteNeverRaises(s0: Investigation, envs: seq<NodeEnv>, e: NodeEnv)
    requires Reachable(s0, envs) && ValidEnv(e) && Lives(Started(s0), envs).saved.next != End
    ensures var l := Lives(Started(s0), envs); var end := RunNode(l.saved.state, l.files, l.saved.next, e);
      end.Updated? ==>
        && After(l.saved.next, end.state).Some? && ValidState(end.state)
        && PhaseRank(l.saved.state.phase) <= PhaseRank(end.state.phase)
  {
    hide Lives, Reachable, RunNode, Durably, AllowancesHold;
    ReachableIsAlive(s0, envs);
    var l := Lives(Started(s0), envs);
    NodeEnds(l.saved.state, l.saved.next, l.files, e);
  }

  lemma {:induction false} LivesSplit(l: Life, first: seq<NodeEnv>, second: seq<NodeEnv>)
    ensures Lives(l, first + second) == Lives(Lives(l, first), second)
    decreases |second|
  {
    hide Next;
    if second == [] {
      assert first + second == first;
    } else {
      var whole := first + second;
      assert whole[..|whole| - 1] == first + second[..|second| - 1];
      LivesSplit(l, first, second[..|second| - 1]);
    }
  }

  lemma PhasesOnlyAdvance(s0: Investigation, first: seq<NodeEnv>, second: seq<NodeEnv>)
    requires Reachable(s0, first) && forall e :: e in second ==> ValidEnv(e)
    ensures PhaseRank(Lives(Started(s0), first).saved.state.phase)
         <= PhaseRank(Lives(Started(s0), first + second).saved.state.phase)
  {
    hide Lives, Reachable, Alive, ValidEnv;
    ReachableIsAlive(s0, first);
    LivesSplit(Started(s0), first, second);
    LivesStayAlive(Lives(Started(s0), first), second);
  }

  /**
   The shared allowances. At every moment, also between the ledger's commit and the checkpoint, the collection and
   all read charges fit; and a ranked checkpoint counts the whole ledger exactly once, however often rank was redone.
   */
  lemma AllowancesSurviveCrashes(s0: Investigation, envs: seq<NodeEnv>)
    requires Reachable(s0, envs)
    ensures var l := Lives(Started(s0), envs);
      && AllowancesHold(l.saved.state, l.files.ledger)
      && (l.saved.next == Node.Finish && l.saved.state.phase == Ranked && s0.reasoned ==>
            && l.saved.state.toolCalls == 20 + SpentIn(l.files.ledger).toolCalls
            && l.saved.state.backendReads == CollectionCost(s0) + SpentIn(l.files.ledger).backendReads)
  {
    hide Lives, Reachable, SpentIn;
    ReachableIsAlive(s0, envs);
  }

  /**
   Failed or ambiguous model work never becomes an answer: with a reasoner, an investigation escalates exactly with
   causes.
   */
  lemma EscalatesExactlyWithCauses(s0: Investigation, envs: seq<NodeEnv>)
    requires Reachable(s0, envs) && s0.reasoned && Lives(Started(s0), envs).saved.next in {Node.Finish, End}
    ensures var l := Lives(Started(s0), envs); var s := l.saved.state;
      && (l.saved.next == Node.Finish ==> (s.terminal == Some(Escalated) <==> s.causes != []))
      && (l.saved.next == End ==> s.report.Some? && (s.report.value.1 == Escalated <==> s.report.value.0.causes != []))
  {
    hide Lives, Reachable, CountsHold, LedgerOk, SpentIn;
    ReachableIsAlive(s0, envs);
  }

  /** With a reasoner, the final report passes its validators exactly when the collected ids are distinct. */
  lemma FinishSucceedsExactly(s0: Investigation, envs: seq<NodeEnv>, e: NodeEnv)
    requires Reachable(s0, envs) && s0.reasoned && Lives(Started(s0), envs).saved.next == Node.Finish
    ensures var l := Lives(Started(s0), envs);
      && (RunNode(l.saved.state, l.files, Node.Finish, e).Updated? <==> Distinct(Ids(l.saved.state.evidence)))
      && (!Distinct(Ids(l.saved.state.evidence)) ==> Next(l, e) == l)
  {
    hide Lives, Reachable, CountsHold, LedgerOk, SpentIn;
    ReachableIsAlive(s0, envs);
    assert Codes([]) == [];
  }

  lemma DuplicatesAreNotReasoned(s: Investigation, f: Files, e: NodeEnv)
    requires !Distinct(Ids(s.evidence))
    ensures var end := ReasonState(s, f, e);
      end.Updated? ==> end.state == s.(terminal := Some(SecurityBlock))
  {
    hide Turns, Concluded, Distinct;
  }

  lemma DuplicatesStay(s0: Investigation, envs: seq<NodeEnv>, e: NodeEnv)
    requires Reachable(s0, envs) && s0.reasoned && ValidEnv(e)
    requires var l := Lives(Started(s0), envs);
      l.saved.next in {Rank, Node.Finish} && !Distinct(Ids(l.saved.state.evidence))
    ensures var l := Lives(Started(s0), envs);
      Next(l, e).saved.next in {Rank, Node.Finish} && Next(l, e).saved.state.evidence == l.saved.state.evidence
  {
    hide Lives, Reachable, ReasonState, CountsHold, LedgerOk, Distinct, ReserveAttempt, Verified, Positioned;
    ReachableIsAlive(s0, envs);
    var l := Lives(Started(s0), envs);
    if l.saved.next == Node.Finish {
      FinishSucceedsExactly(s0, envs, e);
    } else {
      AttemptKeepsEvidence(l.saved.state, l.files.attempts, e.now);
      match ReserveAttempt(l.saved.state, l.files.attempts, e.now) {
        case NewAttempt(state, file) =>
          var reserved := l.files.(attempts := l.files.attempts + {file});
          DuplicatesAreNotReasoned(state, reserved.(operations := l.files.operations + 1), e);
        case _ =>
      }
    }
  }

  /** Where it fails: an investigation that collected a repeated id is never reported, whatever happens to it later. */
  lemma {:induction false} DuplicatesNeverFinish(s0: Investigation, first: seq<NodeEnv>, second: seq<NodeEnv>)
    requires Reachable(s0, first) && s0.reasoned && forall e :: e in second ==> ValidEnv(e)
    requires var l := Lives(Started(s0), first);
      l.saved.next in {Rank, Node.Finish} && !Distinct(Ids(l.saved.state.evidence))
    ensures var l := Lives(Started(s0), first + second);
      && l.saved.next in {Rank, Node.Finish}
      && l.saved.state.evidence == Lives(Started(s0), first).saved.state.evidence
    decreases |second|
  {
    hide Lives, ValidEnv, Distinct, Next;
    if second == [] {
      assert first + second == first;
    } else {
      var (front, last) := (second[..|second| - 1], second[|second| - 1]);
      DuplicatesNeverFinish(s0, first, front);
      DuplicatesStay(s0, first + front, last);
      LivesLast(Started(s0), first, second);
    }
  }

  lemma LivesLast(l: Life, first: seq<NodeEnv>, second: seq<NodeEnv>)
    requires second != []
    ensures Lives(l, first + second) == Next(Lives(l, first + second[..|second| - 1]), second[|second| - 1])
  {
    hide Next;
    var whole := first + second;
    assert whole[..|whole| - 1] == first + second[..|second| - 1];
  }

  // ----- such an investigation exists

  function SampleItem(): Evidence {
    var meta := Metadata("snapshot", "incident", PROMETHEUS, 0, 0, "", "", "");
    Evidence(meta, Sha256(SourceArtifact(meta, "")))
  }

  /** Three quiet nodes of any host, whose collector returns the same item twice. */
  function Twice(e: NodeEnv): NodeEnv {
    e.(now := 0, diesEarly := false, diesLate := false, artifacts := [SampleItem().artifact.content],
       collector := CollectorReturns(Collection("incident", [SampleItem(), SampleItem()]), Written))
  }

  lemma SampleIsAcceptable(s: Investigation, e: NodeEnv)
    requires s.incident == "incident"
    ensures Acceptable(s, Twice(e).collector.collection, Stored(map[], Twice(e).artifacts))
  {
    var x := SampleItem();
    assert RetainAll(map[], [x.artifact.content]) == Some(map[x.artifact := x.artifact.content]) by {
      assert [x.artifact.content][1..] == [];
    }
  }

  function SampleStart(): Investigation {
    NewInvestigation("incident", true, false, true, InvestigationBudget(16, 40, 64, 100))
  }

  lemma ThreeNodes(l: Life, a: NodeEnv, b: NodeEnv, c: NodeEnv)
    ensures Lives(l, [a, b, c]) == Next(Next(Next(l, a), b), c)
  {
    hide Next;
    assert [a, b, c][..2] == [a, b] && [a, b][..1] == [a] && [a][..0] == [];
    assert Lives(l, [a]) == Next(Lives(l, []), a);
    assert Lives(l, [a, b]) == Next(Lives(l, [a]), b);
  }

  function AfterNode(n: nat): Life {
    var (s, f) := (SampleStart(), NO_FILES);
    if n == 1 then Life(Checkpoint(s.(stepsUsed := 1, phase := Triaged), Reserve), f.(attempts := {1}, operations := 1))
    else
      Life(Checkpoint(s.(stepsUsed := 2, phase := ReadsHeld, toolCalls := 20, backendReads := 30), Collect),
           f.(attempts := {1, 2}, operations := 2))
  }

  lemma FirstNodes(e: NodeEnv)
    ensures Next(Started(SampleStart()), Twice(e)) == AfterNode(1)
    ensures Next(AfterNode(1), Twice(e)) == AfterNode(2)
  {
    hide CollectState, RankState, FinishState;
    assert {} + {1} == {1} && {1} + {2} == {1, 2};
  }

  lemma ThirdNode(e: NodeEnv)
    ensures var l := Next(AfterNode(2), Twice(e));
      l.saved.next == Rank && l.saved.state.evidence == [SampleItem(), SampleItem()]
  {
    hide Acceptable, Stored, RankState, FinishState;
    var s := SampleStart().(stepsUsed := 3, phase := ReadsHeld, toolCalls := 20, backendReads := 30);
    assert |{1, 2}| == 2;
    SampleIsAcceptable(s, e);
  }

  /** Whatever the host: a collection of one item twice is accepted and goes on to ranking. */
  lemma RepeatedIdIsReachable(e: NodeEnv)
    requires ValidEnv(e)
    ensures var (s0, envs) := (SampleStart(), [Twice(e), Twice(e), Twice(e)]); var l := Lives(Started(s0), envs);
      && Reachable(s0, envs) && s0.reasoned && l.saved.next == Rank
      && l.saved.state.evidence == [SampleItem(), SampleItem()] && !Distinct(Ids(l.saved.state.evidence))
  {
    hide Next, Lives;
    ThreeNodes(Started(SampleStart()), Twice(e), Twice(e), Twice(e));
    FirstNodes(e);
    ThirdNode(e);
    var ids := Ids([SampleItem(), SampleItem()]);
    assert ids[0] == ids[1];
  }

  lemma AttemptKeepsEvidence(s: Investigation, attempts: set<nat>, now: int)
    ensures var a := ReserveAttempt(s, attempts, now);
      !a.Collides? ==> a.state.evidence == s.evidence && a.state.reasoned == s.reasoned
  {
  }
}
