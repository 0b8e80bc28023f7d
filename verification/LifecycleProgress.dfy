/** Without crashes an investigation ends: every node run moves the checkpoint on, and five of them reach the report. */
module LifecycleProgress {
  import opened Records
  import opened Budget
  import opened Loop
  import opened LoopReplay
  import opened Grounding
  import opened Lifecycle
  import opened LifecycleSafety

  // ----- a process that is never killed never crashes

  ghost predicate Immortal(w: World) {
    w.Live? && forall turn, site :: !w.dies(turn, site)
  }

  lemma ModelSurvives(h: Host, w: World, turn: nat, c: ReasoningContext, s: Session, d: Durable)
    requires Immortal(w)
    ensures Model(h, w, turn, c, s, d).out != Dead
  {
    hide ModelSaved, CompleteReply, ReserveReply, FindCharge, Prepare, Retain;
  }

  lemma ReadsSurvive(h: Host, w: World, turn: nat, requests: seq<ReadRequest>, s: Session, d: Durable)
    requires Immortal(w)
    ensures Reads(h, w, turn, requests, s, d).out != Dead
  {
    hide ReadsSaved, CompleteReply, ReserveReply, FindCharge, Handle, Retain;
  }

  lemma TurnSurvives(h: Host, e: Env, turn: nat, s: Session, d: Durable)
    requires Immortal(e.world)
    ensures Turn(h, e, turn, s, d).out != Dead
  {
    hide Model, Reads, ContextOf, Supported, Wanted;
    if e.authority(turn) == Granted && ContextOf(h, s, d.store).Built? {
      var c := ContextOf(h, s, d.store).context;
      ModelSurvives(h, e.world, turn, c, s, d);
      var m := Model(h, e.world, turn, c, s, d);
      if m.out.Go? && m.out.value.decision.Some? {
        ReadsSurvive(h, e.world, turn, Wanted(h, m.s, m.out.value.decision.value.requests), m.s, m.d);
      }
    }
  }

  lemma {:induction false} TurnsSurvive(h: Host, e: Env, turn: nat, s: Session, d: Durable)
    requires Immortal(e.world)
    ensures Turns(h, e, turn, s, d).out != Dead
    decreases h.limits.modelCalls + 1 - turn
  {
    hide Turn, Turns, Ended;
    if turn > h.limits.modelCalls {
      TurnsBeyond(h, e, turn, s, d);
    } else {
      TurnsStep(h, e, turn, s, d);
      TurnSurvives(h, e, turn, s, d);
      var t := Turn(h, e, turn, s, d);
      if t.out == Go(Continue) {
        TurnsSurvive(h, e, turn + 1, t.s, t.d);
      } else {
        EndedSurvives(t);
      }
    }
  }

  lemma EndedSurvives(t: Loop.Step<Progress>)
    requires t.out != Go(Continue) && t.out != Dead
    ensures Ended(t).out != Dead
  {
  }

  lemma SessionSurvives(h: Host, e: Env, d: Durable)
    requires Immortal(e.world)
    ensures RunSession(h, e, d).ending != Crashed
  {
    hide Turns, EvidenceChecked;
    TurnsSurvive(h, e, 1, NewSession(h), d);
  }

  lemma EnterSurvives(h: Host, e: Env, disk: Disk)
    requires Immortal(e.world)
    ensures Enter(h, e, disk).ending != Crashed
  {
    hide RunSession;
    forall d: Durable ensures RunSession(h, e, d).ending != Crashed {
      SessionSurvives(h, e, d);
    }
  }

  // ----- nodes

  /** Nothing is killed, and what the loop raises is the integrity error `rank` handles. */
  ghost predicate Quiet(e: NodeEnv) {
    && !e.diesEarly && !e.diesLate && e.caught && Immortal(e.loop.world) && ValidHost(e.host)
    && !e.collector.MarkerDies? && !e.collector.CollectorDies?
    && (e.collector.CollectorReturns? ==> !e.collector.write.WriteDies?)
  }

  function Stage(node: Node): nat {
    match node
    case Triage => 0 case Reserve => 1 case Collect => 2 case Rank => 3 case Finish => 4 case End => 5
  }

  lemma QuietReasonUpdates(s: Investigation, f: Files, e: NodeEnv)
    requires Quiet(e) && LedgerOk(KeyOf(s), f.ledger) && s.toolCalls == 20 && s.backendReads == CollectionCost(s)
    ensures ReasonState(s, f, e).Updated?
  {
    hide Enter, LedgerOk, Immortal;
    if !e.differs && AllowanceFits(s, e.host.limits) {
      var h := HostFor(s, e.host);
      EnterSurvives(h, e.loop, f.ledger);
      LiveWhenImmortal(e.loop.world);
      EnterKeepsLedger(s, h, e.loop, f.ledger);
    }
  }

  lemma LiveWhenImmortal(w: World)
    requires Immortal(w)
    ensures w.Live?
  {
  }

  /** A quiet node always leaves a new checkpoint. */
  lemma QuietNodeUpdates(s: Investigation, next: Node, f: Files, e: NodeEnv)
    requires Quiet(e) && LifeInv(s, next, f) && next != End
    requires next == Node.Finish ==> ValidReport(ReportFor(s))
    ensures RunNode(s, f, next, e).Updated?
  {
    hide LedgerOk, ReasonState, Immortal, Verified, ValidReport, Enter;
    if next != Node.Finish {
      NextAttempt(s, f);
      match ReserveAttempt(s, f.attempts, e.now) {
        case NewAttempt(state, file) =>
          if next == Rank {
            var started := f.(attempts := f.attempts + {file}, operations := f.operations + 1);
            QuietReasonUpdates(state, started, e);
          }
        case _ =>
      }
    }
  }

  lemma OperationSuccessor(s: Investigation, next: Node, f: Files, e: NodeEnv)
    requires next in {Triage, Reserve, Collect} && s.terminal.None?
    requires next == Collect ==> s.phase == ReadsHeld
    requires Operate(s, f, next, e).Updated? && After(next, Operate(s, f, next, e).state).Some?
    ensures Stage(After(next, Operate(s, f, next, e).state).value) > Stage(next)
  {
    hide Acceptable, Stored;
  }

  /** The successor of a node that ended is later in the lifecycle. */
  lemma SuccessorIsLater(s: Investigation, next: Node, f: Files, e: NodeEnv)
    requires LifeInv(s, next, f) && next != End && RunNode(s, f, next, e).Updated?
    requires After(next, RunNode(s, f, next, e).state).Some?
    ensures Stage(After(next, RunNode(s, f, next, e).state).value) > Stage(next)
  {
    hide LedgerOk, FinishState, CountsHold, Operate;
    if next in {Triage, Reserve, Collect} {
      match ReserveAttempt(s, f.attempts, e.now) {
        case NewAttempt(state, file) =>
          OperationSuccessor(state, next, f.(attempts := f.attempts + {file}, operations := f.operations + 1), e);
        case _ =>
      }
    }
  }

  /** Progress: a quiet node run moves the checkpoint strictly forward, unless the report itself is refused. */
  lemma QuietNodeAdvances(l: Life, e: NodeEnv)
    requires Alive(l) && Quiet(e) && l.saved.next != End
    requires l.saved.next == Node.Finish ==> ValidReport(ReportFor(l.saved.state))
    ensures Stage(Next(l, e).saved.next) > Stage(l.saved.next)
  {
    hide LifeInv, RunNode, Ends, ValidReport, Stage, Immortal;
    var s, next := l.saved.state, l.saved.next;
    LiveWhenImmortal(e.loop.world);
    NodeEnds(s, next, l.files, e);
    QuietNodeUpdates(s, next, l.files, e);
    EndsMeans(s, next, l.files, RunNode(s, l.files, next, e));
    UpdatedIsValid(s, next, RunNode(s, l.files, next, e));
    SuccessorIsLater(s, next, l.files, e);
  }

  lemma UpdatedIsValid(s: Investigation, next: Node, end: NodeEnd)
    requires Ends(s, next, end) && end.Updated?
    ensures ValidState(end.state) && After(next, end.state).Some?
  {
    hide Durably, AllowancesHold;
  }

  // ----- five quiet nodes

  /** No evidence id was ever collected twice. */
  ghost predicate DistinctSoFar(l: Life) {
    && Distinct(Ids(l.saved.state.evidence))
    && (l.files.result.Complete? ==> Distinct(Ids(l.files.result.collection.evidence)))
  }

  ghost predicate CollectsDistinct(e: NodeEnv) {
    e.collector.CollectorReturns? ==> Distinct(Ids(e.collector.collection.evidence))
  }

  lemma CollectKeepsDistinct(s: Investigation, f: Files, e: NodeEnv)
    requires CollectsDistinct(e) && Distinct(Ids(s.evidence))
    requires f.result.Complete? ==> Distinct(Ids(f.result.collection.evidence))
    ensures var end := CollectState(s, f, e);
      && (end.files.result.Complete? ==> Distinct(Ids(end.files.result.collection.evidence)))
      && (end.Updated? ==> Distinct(Ids(end.state.evidence)))
  {
    hide Distinct, Acceptable, Stored;
  }

  lemma RankKeepsDistinct(s: Investigation, f: Files, e: NodeEnv)
    requires Distinct(Ids(s.evidence)) && LedgerOk(KeyOf(s), f.ledger) && ValidEnv(e)
    requires s.toolCalls == 20 && s.backendReads == CollectionCost(s)
    ensures var end := RankState(s, f, e);
      end.files.result == f.result && (end.Updated? ==> Distinct(Ids(end.state.evidence)))
  {
    hide Distinct, Enter, LedgerOk, Verified;
    if s.reasoned && !e.differs && AllowanceFits(s, e.host.limits) {
      EnterKeepsLedger(s, HostFor(s, e.host), e.loop, f.ledger);
    }
  }

  lemma RunKeepsDistinct(s: Investigation, next: Node, f: Files, e: NodeEnv)
    requires LifeInv(s, next, f) && next != End && ValidEnv(e) && CollectsDistinct(e)
    requires Distinct(Ids(s.evidence)) && (f.result.Complete? ==> Distinct(Ids(f.result.collection.evidence)))
    ensures var end := RunNode(s, f, next, e);
      && (end.files.result.Complete? ==> Distinct(Ids(end.files.result.collection.evidence)))
      && (end.Updated? ==> Distinct(Ids(end.state.evidence)))
  {
    hide Distinct, Operate, LedgerOk, ValidReport, ReserveAttempt;
    if next != Node.Finish {
      AttemptHolds(s, next, f, e.now);
      AttemptKeepsEvidence(s, f.attempts, e.now);
      match ReserveAttempt(s, f.attempts, e.now) {
        case NewAttempt(state, file) =>
          OperateKeepsDistinct(state, next, f.(attempts := f.attempts + {file}, operations := f.operations + 1), e);
        case _ =>
      }
    }
  }

  lemma OperateKeepsDistinct(s: Investigation, next: Node, f: Files, e: NodeEnv)
    requires LifeInv(s, next, f) && next !in {Node.Finish, End} && ValidEnv(e) && CollectsDistinct(e)
    requires Distinct(Ids(s.evidence)) && (f.result.Complete? ==> Distinct(Ids(f.result.collection.evidence)))
    ensures var end := Operate(s, f, next, e);
      && (end.files.result.Complete? ==> Distinct(Ids(end.files.result.collection.evidence)))
      && (end.Updated? ==> Distinct(Ids(end.state.evidence)))
  {
    hide Distinct, CollectState, RankState, LedgerOk, CountsHold, ValidEnv, CollectsDistinct;
    if next == Collect {
      CollectKeepsDistinct(s, f, e);
    } else if next == Rank {
      RankKeepsDistinct(s, f, e);
    }
  }

  lemma NextKeepsDistinct(l: Life, e: NodeEnv)
    requires Alive(l) && ValidEnv(e) && CollectsDistinct(e) && DistinctSoFar(l)
    ensures DistinctSoFar(Next(l, e))
  {
    hide LifeInv, RunNode, Distinct, ValidEnv, CollectsDistinct;
    if l.saved.next != End {
      RunKeepsDistinct(l.saved.state, l.saved.next, l.files, e);
    }
  }

  lemma DistinctReports(l: Life)
    requires Alive(l) && DistinctSoFar(l) && l.saved.next == Node.Finish && l.saved.state.reasoned
    ensures ValidReport(ReportFor(l.saved.state))
  {
    hide LedgerOk, CountsHold;
    assert Codes([]) == [];
  }

  lemma {:induction false} QuietLifeStage(l: Life, envs: seq<NodeEnv>)
    requires Alive(l) && DistinctSoFar(l) && l.saved.state.reasoned
    requires forall e :: e in envs ==> Quiet(e) && CollectsDistinct(e)
    ensures Alive(Lives(l, envs)) && DistinctSoFar(Lives(l, envs)) && Lives(l, envs).saved.state.reasoned
    ensures Lives(l, envs).saved.next == End || Stage(Lives(l, envs).saved.next) >= Stage(l.saved.next) + |envs|
    decreases |envs|
  {
    hide Alive, DistinctSoFar, Quiet, CollectsDistinct, Next, Stage;
    if envs != [] {
      var front, e := envs[..|envs| - 1], envs[|envs| - 1];
      QuietLifeStage(l, front);
      QuietIsValid(e);
      var before := Lives(l, front);
      NextKeeps(before, e);
      NextKeepsDistinct(before, e);
      if before.saved.next == End {
        EndStays(before, e);
      } else {
        if before.saved.next == Node.Finish {
          DistinctReports(before);
        }
        QuietNodeAdvances(before, e);
      }
    }
  }

  lemma QuietIsValid(e: NodeEnv)
    requires Quiet(e)
    ensures ValidEnv(e)
  {
  }

  lemma EndStays(l: Life, e: NodeEnv)
    requires l.saved.next == End
    ensures Next(l, e) == l
  {
  }

  /**
   Five quiet node runs with distinct collected ids always end in a valid report, whatever the model and the tools do.
   */
  lemma FiveQuietNodesFinish(s0: Investigation, envs: seq<NodeEnv>)
    requires Reachable(s0, []) && s0.reasoned && |envs| == 5
    requires forall e :: e in envs ==> Quiet(e) && CollectsDistinct(e)
    ensures var l := Lives(Started(s0), envs);
      && l.saved.next == End && l.saved.state.phase == Phase.Finished
      && l.saved.state.report.Some? && ValidReport(l.saved.state.report.value.0)
  {
    hide Lives, Quiet, CollectsDistinct, Alive;
    StartedIsAlive(s0.incident, s0.inScope, s0.payments, s0.reasoned, s0.budget);
    QuietLifeStage(Started(s0), envs);
    EndIsReported(Lives(Started(s0), envs));
  }

  lemma EndIsReported(l: Life)
    requires Alive(l) && l.saved.next == End
    ensures l.saved.state.phase == Phase.Finished
    ensures l.saved.state.report.Some? && ValidReport(l.saved.state.report.value.0)
  {
    hide LedgerOk, CountsHold;
  }
}
