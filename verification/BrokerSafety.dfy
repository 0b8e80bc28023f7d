/** What every interleaving of proposers, approvers and executors keeps, crashes included. */
module BrokerSafety {
  import opened Records
  import opened Policy
  import opened ActionStore
  import opened Broker

  // ----- what a worker may rely on

  /** A record read earlier: the stored one is a later version of it. */
  ghost predicate Seen(t: Tables, r: ActionRecord) {
    Consistent(r) && r.id in t.actions && Continues(r, t.actions[r.id])
  }

  /** The record of a granted claim: nobody else can change it any more. */
  ghost predicate Owned(t: Tables, r: ActionRecord) {
    r.id in t.actions && t.actions[r.id] == r && r.state == Executing
  }

  function SeenBy(pc: Pc): Option<ActionRecord> {
    if InApproval(pc) || pc.ApproveWrite? || InExecution(pc) || pc.Claim? then Some(pc.record) else None
  }

  function ClaimedBy(pc: Pc): Option<ActionRecord> {
    if InDispatch(pc) || pc.Terminal? then Some(pc.record) else None
  }

  /** The review this worker passed, at some instant up to now. */
  ghost predicate Passed(mode: Mode, r: ActionRecord, review: Review, clock: int) {
    && review.at <= clock && r.proposal.mode == mode
    && Supported(r.proposal, review.context) && Fresh(r.proposal, review.context, review.at)
  }

  ghost predicate Begun(r: ActionRecord, clock: int) {
    r.approval.Some? && r.approval.value.approvedAt <= clock
  }

  predicate IdentitiesAt(r: ActionRecord, subject: string, a: Authority) {
    var ns := r.proposal.namespace;
    && r.approval.Some?
    && IdentityValid(Some(a.executor), Executor, ns, a.now) && a.executor.subject == subject
    && IdentityValid(Some(a.approver), Approver, ns, a.now) && a.approver.subject == r.approval.value.subject
    && IdentityValid(Some(a.responder), Responder, ns, a.now) && a.responder.subject == r.proposer
  }

  /** Everything that authorizes an effect holds together at one instant. */
  ghost predicate AuthorizedAt(mode: Mode, r: ActionRecord, subject: string, review: Review, a: Authority) {
    && IdentitiesAt(r, subject, a)
    && r.approval.value.approvedAt <= a.now < r.approval.value.expiresAt
    && r.proposal.mode == mode && Supported(r.proposal, review.context) && Fresh(r.proposal, review.context, a.now)
  }

  /** What a worker's own position has already established. */
  ghost predicate Established(mode: Mode, pc: Pc, clock: int) {
    match pc
    case ApproveReviewer(r, subject) => r.state == Proposed && subject != r.proposer
    case ApproveReview(r, subject, _) => r.state == Proposed && subject != r.proposer
    case ApproveAgain(r, subject, _) => r.state == Proposed && subject != r.proposer
    case ApproveClock(r, subject, _) => r.state == Proposed && subject != r.proposer
    case ApproveWrite(r, subject, approval) => r.state == Proposed && ValidApproval(r, approval)
    case ExecuteWindow(r, _) => r.proposal.mode == mode
    case ExecuteApprover(r, _) => r.proposal.mode == mode && r.state == Approved && Begun(r, clock)
    case ExecuteReviewer(r, _) => r.proposal.mode == mode && r.state == Approved && Begun(r, clock)
    case ExecuteReview(r, _, _) => r.proposal.mode == mode && r.state == Approved && Begun(r, clock)
    case ExecuteCurrent(r, _, review) => r.state == Approved && Begun(r, clock) && Passed(mode, r, review, clock)
    case Claim(r, _, review) => r.state == Approved && Begun(r, clock) && Passed(mode, r, review, clock)
    case DispatchExecutor(r, _, review) => Begun(r, clock) && Passed(mode, r, review, clock)
    case DispatchApprover(r, subject, review, executor) =>
      Begun(r, clock) && Passed(mode, r, review, clock) && executor.subject == subject
    case DispatchResponder(r, subject, review, executor, approver) =>
      && Begun(r, clock) && Passed(mode, r, review, clock) && executor.subject == subject
      && approver.subject == r.approval.value.subject
    case DispatchInstant(r, subject, review, executor, approver, responder) =>
      && Begun(r, clock) && Passed(mode, r, review, clock) && executor.subject == subject
      && approver.subject == r.approval.value.subject && responder.subject == r.proposer
    case DispatchCurrent(r, subject, review, a) =>
      Begun(r, a.now) && a.now <= clock && Passed(mode, r, review, a.now) && IdentitiesAt(r, subject, a)
    case DispatchDeadline(r, subject, review, a) =>
      && Begun(r, a.now) && a.now <= clock && Passed(mode, r, review, a.now) && IdentitiesAt(r, subject, a)
      && a.now < r.approval.value.expiresAt
    case Effect(r, subject, review, a) => AuthorizedAt(mode, r, subject, review, a)
    case Terminal(r, change) =>
      && change.state in {Succeeded, Failed, Unknown} && change.approval.None?
      && (if change.state == Unknown then change.result.None?
          else change.result == Some(EffectReceipt(change.state == Succeeded, r.proposal.uid, r.proposal.version)))
    case _ => true
  }

  // ----- what all of them keep

  ghost predicate WasDispatched(t: Tables, id: ActionId) {
    id in t.actions && t.actions[id].state in {Executing, Succeeded, Failed, Unknown}
  }

  function ExecutedIds(executed: seq<Executed>): seq<ActionId> {
    seq(|executed|, i requires 0 <= i < |executed| => executed[i].record.id)
  }

  ghost predicate GoodWorker(mode: Mode, s: State, pc: Pc) {
    && Established(mode, pc, s.clock)
    && (SeenBy(pc).Some? ==> Seen(s.tables, SeenBy(pc).value))
    && (ClaimedBy(pc).Some? ==> Owned(s.tables, ClaimedBy(pc).value))
    && (InDispatch(pc) ==> pc.record.id !in ExecutedIds(s.executed))
  }

  /** One claimant per action. */
  ghost predicate Exclusive(workers: map<nat, Pc>) {
    forall v, w :: v in workers && w in workers && v != w && ClaimedBy(workers[v]).Some? && ClaimedBy(workers[w]).Some?
      ==> ClaimedBy(workers[v]).value.id != ClaimedBy(workers[w]).value.id
  }

  ghost predicate GoodEffects(t: Tables, executed: seq<Executed>) {
    && Distinct(ExecutedIds(executed))
    && forall e :: e in executed ==>
         && WasDispatched(t, e.record.id) && Consistent(e.record)
         && AuthorizedAt(e.mode, e.record, e.subject, e.review, e.authority)
  }

  ghost predicate Inv(modes: nat -> Mode, s: State) {
    && GoodTables(s.tables)
    && (forall w :: w in s.workers ==> GoodWorker(modes(w), s, s.workers[w]))
    && Exclusive(s.workers)
    && GoodEffects(s.tables, s.executed)
  }

  // ----- local steps

  lemma PassedNow(mode: Mode, r: ActionRecord, principal: Principal, a: Answers, now: int)
    requires Reviewed(mode, r.proposal, principal, a, now).Some?
    ensures Passed(mode, r, Reviewed(mode, r.proposal, principal, a, now).value, now)
  {
    hide Supported, Fresh, Evaluate, IdentityValid;
    ReviewedExactly(r.proposal, Some(principal), a.context, now);
  }

  /** The instant of authority: what held before and after it held at it. */
  lemma AuthorizedAtInstant(mode: Mode, r: ActionRecord, subject: string, review: Review, a: Authority, now: int)
    requires Established(mode, DispatchDeadline(r, subject, review, a), now)
    requires review.context.report.Some? && now <= Deadline(r.proposal, review.context)
    ensures AuthorizedAt(mode, r, subject, review, a)
  {
    hide Supported, IdentityValid;
    FreshUntilDeadline(r.proposal, review.context, review.at, a.now);
  }

  lemma ApproveEstablishes(mode: Mode, pc: Pc, a: Answers, clock: int, now: int)
    requires Established(mode, pc, clock) && clock <= now
    requires InApproval(pc)
    ensures Established(mode, ApproveStep(mode, pc, a, now), now)
  {
    hide Identified, Reviewed, Deadline, Begun, Passed, IdentitiesAt, AuthorizedAt;
  }

  lemma ExecuteEstablishes(mode: Mode, pc: Pc, a: Answers, clock: int, now: int)
    requires Established(mode, pc, clock) && clock <= now
    requires InExecution(pc)
    ensures Established(mode, ExecuteStep(mode, pc, a, now), now)
  {
    hide Identified, Reviewed, Fresh, Supported, IdentitiesAt, AuthorizedAt, ValidApproval;
    if pc.ExecuteReview? && Reviewed(mode, pc.record.proposal, pc.principal, a, now).Some? {
      PassedNow(mode, pc.record, pc.principal, a, now);
    }
  }

  lemma DispatchEstablishes(mode: Mode, pc: Pc, a: Answers, clock: int, now: int)
    requires Established(mode, pc, clock) && clock <= now && InDispatch(pc)
    ensures Established(mode, DispatchStep(pc, a, now), now)
  {
    hide IdentityValid, Fresh, Supported, AuthorizedAt, ValidApproval, Deadline;
    if pc.DispatchDeadline? && pc.review.context.report.Some? && now <= Deadline(pc.record.proposal, pc.review.context)
    {
      AuthorizedAtInstant(mode, pc.record, pc.subject, pc.review, pc.authority, now);
    }
  }

  lemma LocalEstablishes(mode: Mode, pc: Pc, a: Answers, clock: int, now: int)
    requires !Transacts(pc) && Established(mode, pc, clock) && clock <= now
    ensures Established(mode, LocalStep(mode, pc, a, now), now)
  {
    hide ProposeStep, ApproveStep, ExecuteStep, DispatchStep, Established;
    EstablishedLater(mode, pc, clock, now);
    if InProposal(pc) {
      ProposeEstablishes(mode, pc, a, now);
    } else if InApproval(pc) {
      ApproveEstablishes(mode, pc, a, clock, now);
    } else if InExecution(pc) {
      ExecuteEstablishes(mode, pc, a, clock, now);
    } else if InDispatch(pc) {
      DispatchEstablishes(mode, pc, a, clock, now);
    }
  }

  lemma ProposeEstablishes(mode: Mode, pc: Pc, a: Answers, now: int)
    requires InProposal(pc)
    ensures Established(mode, ProposeStep(mode, pc, a, now), now)
  {
    hide Identified, Reviewed;
  }

  lemma EstablishedLater(mode: Mode, pc: Pc, clock: int, now: int)
    requires Established(mode, pc, clock) && clock <= now
    ensures Established(mode, pc, now)
  {
    hide IdentityValid, Supported, Fresh, ValidApproval;
  }

  /** The step stays on the same record, and leaves the claim only by the effect. */
  predicate KeepsRecord(pc: Pc, next: Pc) {
    && (SeenBy(next).Some? ==> SeenBy(next) == SeenBy(pc))
    && (ClaimedBy(next).Some? ==> ClaimedBy(next) == ClaimedBy(pc))
    && (InDispatch(next) ==> InDispatch(pc) && !pc.Effect?)
  }

  lemma ApproveKeepsRecord(mode: Mode, pc: Pc, a: Answers, now: int)
    requires InApproval(pc)
    ensures KeepsRecord(pc, ApproveStep(mode, pc, a, now))
  {
    hide Identified, Reviewed, Deadline;
  }

  lemma ExecuteKeepsRecord(mode: Mode, pc: Pc, a: Answers, now: int)
    requires InExecution(pc)
    ensures KeepsRecord(pc, ExecuteStep(mode, pc, a, now))
  {
    hide Identified, Reviewed, InWindow;
  }

  lemma DispatchKeepsRecord(mode: Mode, pc: Pc, a: Answers, now: int)
    requires InDispatch(pc)
    ensures KeepsRecord(pc, DispatchStep(pc, a, now))
  {
    hide Identified, IdentityValid, InWindow, Deadline;
  }

  lemma LocalKeepsRecords(mode: Mode, pc: Pc, a: Answers, now: int)
    requires !Transacts(pc)
    ensures KeepsRecord(pc, LocalStep(mode, pc, a, now))
  {
    hide Identified, Reviewed, ApproveStep, ExecuteStep, DispatchStep;
    if InApproval(pc) {
      ApproveKeepsRecord(mode, pc, a, now);
    } else if InExecution(pc) {
      ExecuteKeepsRecord(mode, pc, a, now);
    } else if InDispatch(pc) {
      DispatchKeepsRecord(mode, pc, a, now);
    }
  }

  lemma LocalKeepsInv(modes: nat -> Mode, s: State, w: nat, a: Answers)
    requires Inv(modes, s) && w in s.workers && !Transacts(s.workers[w])
    ensures Inv(modes, Apply(modes, s, Advance(w, a)))
  {
    hide LocalStep, Established, Seen, Owned, GoodTables, GoodEffects;
    var pc, s2 := s.workers[w], Apply(modes, s, Advance(w, a));
    LocalEstablishes(modes(w), pc, a, s.clock, s2.clock);
    LocalKeepsRecords(modes(w), pc, a, s2.clock);
    EffectRecorded(modes, s, w, a);
    forall v | v in s2.workers ensures GoodWorker(modes(v), s2, s2.workers[v]) {
      EstablishedLater(modes(v), s.workers[v], s.clock, s2.clock);
      if v != w && pc.Effect? && InDispatch(s.workers[v]) {
        assert ClaimedBy(s.workers[v]).value.id != ClaimedBy(pc).value.id;
      }
    }
  }

  lemma EffectRecorded(modes: nat -> Mode, s: State, w: nat, a: Answers)
    requires Inv(modes, s) && w in s.workers && !Transacts(s.workers[w])
    ensures var pc, s2 := s.workers[w], Apply(modes, s, Advance(w, a));
      && GoodEffects(s2.tables, s2.executed)
      && ExecutedIds(s2.executed) == ExecutedIds(s.executed) + (if pc.Effect? then [pc.record.id] else [])
  {
    hide LocalStep, AuthorizedAt, Consistent, Exclusive, Audited;
    var pc := s.workers[w];
    assert GoodWorker(modes(w), s, pc);
    if pc.Effect? {
      assert Consistent(s.tables.actions[pc.record.id]);
      var added := Executed(modes(w), pc.record, pc.subject, pc.review, pc.authority);
      assert ExecutedIds(s.executed + [added]) == ExecutedIds(s.executed) + [pc.record.id];
      assert AuthorizedAt(modes(w), pc.record, pc.subject, pc.review, pc.authority);
      assert Distinct(ExecutedIds(s.executed) + [pc.record.id]);
    }
  }

  // ----- transactions

  lemma SeenLater(t: Tables, t2: Tables, r: ActionRecord)
    requires Seen(t, r) && TablesContinue(t, t2)
    ensures Seen(t2, r)
  {
    hide Continues, Consistent;
    ContinuesTransitive(r, t.actions[r.id], t2.actions[r.id]);
  }

  lemma DispatchedLater(t: Tables, t2: Tables, id: ActionId)
    requires WasDispatched(t, id) && TablesContinue(t, t2)
    ensures WasDispatched(t2, id)
  {
  }

  /** Everything but the acting worker survives a transaction that leaves claimed records alone. */
  lemma OthersSurvive(modes: nat -> Mode, s: State, s2: State, v: nat)
    requires Inv(modes, s) && v in s.workers && v in s2.workers && s2.workers[v] == s.workers[v]
    requires s.clock <= s2.clock && TablesContinue(s.tables, s2.tables) && s2.executed == s.executed
    requires ClaimedBy(s.workers[v]).Some? ==> Owned(s2.tables, ClaimedBy(s.workers[v]).value)
    ensures GoodWorker(modes(v), s2, s2.workers[v])
  {
    hide Established, Seen, Owned, TablesContinue, GoodTables, Exclusive, GoodEffects;
    EstablishedLater(modes(v), s.workers[v], s.clock, s2.clock);
    if SeenBy(s.workers[v]).Some? {
      SeenLater(s.tables, s2.tables, SeenBy(s.workers[v]).value);
    }
  }

  lemma EffectsSurvive(t: Tables, t2: Tables, executed: seq<Executed>)
    requires GoodEffects(t, executed) && TablesContinue(t, t2)
    ensures GoodEffects(t2, executed)
  {
    hide AuthorizedAt, Consistent, WasDispatched, TablesContinue;
    forall e | e in executed ensures WasDispatched(t2, e.record.id) {
      DispatchedLater(t, t2, e.record.id);
    }
  }

  function Changing(pc: Pc): Option<(ActionRecord, Change)> {
    match pc
    case ApproveWrite(record, subject, approval) => Some((record, Approving(subject, approval)))
    case Claim(record, subject, _) => Some((record, Dispatching(subject)))
    case Terminal(record, change) => Some((record, change))
    case _ => None
  }

  /** A transition started from a good position is never refused by the record's own validator. */
  lemma ChangeIsValid(mode: Mode, s: State, pc: Pc, now: int)
    requires GoodTables(s.tables) && GoodWorker(mode, s, pc) && Changing(pc).Some?
    ensures var (before, c) := Changing(pc).value;
      && Consistent(before) && Consistent(After(before, c, now)) && c.state in Allowed(before.state)
      && (before.approval.Some? ==> c.approval.None?)
      && (pc.Terminal? <==> before.state == Executing)
  {
    hide Audited, IdentityValid, Supported, Fresh, Continues;
  }

  /** Another worker's claim is not touched: its record is not the one this transition starts from. */
  lemma ClaimsUntouched(modes: nat -> Mode, s: State, w: nat, v: nat, now: int)
    requires Inv(modes, s) && w in s.workers && v in s.workers && v != w && Changing(s.workers[w]).Some?
    requires ClaimedBy(s.workers[v]).Some?
    ensures var (before, c) := Changing(s.workers[w]).value;
      Owned(Transitioned(s.tables, before, c, now), ClaimedBy(s.workers[v]).value)
  {
    hide Established, Consistent, Audited, Seen, GoodEffects, Allowed;
    var (before, c) := Changing(s.workers[w]).value;
    assert GoodWorker(modes(v), s, s.workers[v]);
    assert GoodWorker(modes(w), s, s.workers[w]);
    ChangeIsValid(modes(w), s, s.workers[w], now);
  }

  lemma ChangeKeepsInv(modes: nat -> Mode, s: State, w: nat, a: Answers)
    requires Inv(modes, s) && w in s.workers && Changing(s.workers[w]).Some?
    ensures Inv(modes, Apply(modes, s, Advance(w, a)))
    ensures TablesContinue(s.tables, Apply(modes, s, Advance(w, a)).tables)
  {
    hide Established, Consistent, Seen, Owned, GoodTables, TablesContinue, GoodEffects, TransitionReply, Transitioned,
      After;
    var pc, now := s.workers[w], s.clock + a.wait;
    var (before, c) := Changing(pc).value;
    var s2 := Apply(modes, s, Advance(w, a));
    assert GoodWorker(modes(w), s, pc);
    ChangeIsValid(modes(w), s, pc, now);
    TransitionKeeps(s.tables, before, c, now);
    EffectsSurvive(s.tables, s2.tables, s.executed);
    forall v | v in s2.workers && v != w ensures GoodWorker(modes(v), s2, s2.workers[v]) {
      if ClaimedBy(s.workers[v]).Some? {
        ClaimsUntouched(modes, s, w, v, now);
      }
      OthersSurvive(modes, s, s2, v);
    }
    if pc.Claim? {
      ClaimIsGood(modes, s, w, a);
    } else {
      EstablishedAfterRead(modes(w), s2.workers[w], s2.clock);
    }
  }

  /** An action that is still approved was never executed, and nobody holds a claim on it. */
  lemma ApprovedIsUnclaimed(modes: nat -> Mode, s: State, id: ActionId)
    requires Inv(modes, s) && id in s.tables.actions && s.tables.actions[id].state == Approved
    ensures id !in ExecutedIds(s.executed)
    ensures forall v :: v in s.workers && ClaimedBy(s.workers[v]).Some? ==> ClaimedBy(s.workers[v]).value.id != id
  {
    hide Consistent, GoodTables, AuthorizedAt, Established, Seen;
    forall e | e in s.executed ensures e.record.id != id {
      assert WasDispatched(s.tables, e.record.id);
    }
    forall v | v in s.workers && ClaimedBy(s.workers[v]).Some? ensures ClaimedBy(s.workers[v]).value.id != id {
      assert GoodWorker(modes(v), s, s.workers[v]);
    }
  }

  /** A won claim starts from an approved record, so it is the only one. */
  lemma ClaimIsGood(modes: nat -> Mode, s: State, w: nat, a: Answers)
    requires Inv(modes, s) && w in s.workers && s.workers[w].Claim?
    ensures var s2 := Apply(modes, s, Advance(w, a));
      && GoodWorker(modes(w), s2, s2.workers[w])
      && Exclusive(s2.workers)
  {
    hide Consistent, GoodTables, Established, Seen, GoodEffects, Exclusive;
    var pc, now := s.workers[w], s.clock + a.wait;
    var s2 := Apply(modes, s, Advance(w, a));
    assert GoodWorker(modes(w), s, pc);
    PassedLater(modes(w), pc, s.clock, now);
    if TransitionReply(s.tables, pc.record, Dispatching(pc.subject), now).Stored? {
      ApprovedIsUnclaimed(modes, s, pc.record.id);
      NewClaimIsExclusive(s.workers, w, s2.workers[w]);
    } else {
      NoNewClaim(s.workers, w, s2.workers[w]);
      EstablishedAfterRead(modes(w), s2.workers[w], now);
    }
  }

  lemma NewClaimIsExclusive(workers: map<nat, Pc>, w: nat, pc: Pc)
    requires Exclusive(workers) && ClaimedBy(pc).Some?
    requires forall v :: v in workers && ClaimedBy(workers[v]).Some? ==>
      ClaimedBy(workers[v]).value.id != ClaimedBy(pc).value.id
    ensures Exclusive(workers[w := pc])
  {
    hide ClaimedBy;
  }

  lemma NoNewClaim(workers: map<nat, Pc>, w: nat, pc: Pc)
    requires Exclusive(workers) && ClaimedBy(pc).None?
    ensures Exclusive(workers[w := pc])
  {
    hide ClaimedBy;
  }

  lemma PassedLater(mode: Mode, pc: Pc, clock: int, now: int)
    requires pc.Claim? && Established(mode, pc, clock) && clock <= now
    ensures var next := DispatchExecutor(After(pc.record, Dispatching(pc.subject), now), pc.subject, pc.review);
      Established(mode, next, now)
  {
    hide Supported, Fresh;
  }

  lemma ReadKeepsInv(modes: nat -> Mode, s: State, w: nat, a: Answers)
    requires Inv(modes, s) && w in s.workers && (s.workers[w].ApproveRead? || s.workers[w].ExecuteRead?)
    ensures Inv(modes, Apply(modes, s, Advance(w, a)))
  {
    hide Established, Consistent, Audited, Owned, TablesContinue, GoodEffects, Continues, Exclusive;
    var s2 := Apply(modes, s, Advance(w, a));
    ContinuesReflexive(s.tables);
    EffectsSurvive(s.tables, s2.tables, s.executed);
    forall v | v in s2.workers && v != w ensures GoodWorker(modes(v), s2, s2.workers[v]) {
      OthersSurvive(modes, s, s2, v);
    }
    var pc := s.workers[w];
    if pc.id in s.tables.actions {
      SameContinues(s.tables.actions[pc.id]);
    }
    EstablishedAfterRead(modes(w), s2.workers[w], s2.clock);
    NoNewClaim(s.workers, w, s2.workers[w]);
  }

  lemma EstablishedAfterRead(mode: Mode, pc: Pc, clock: int)
    requires pc.ApproveIdentity? || pc.ExecuteIdentity? || pc.Returned?
    ensures Established(mode, pc, clock)
  {
  }

  lemma CreateKeepsInv(modes: nat -> Mode, s: State, w: nat, a: Answers)
    requires Inv(modes, s) && w in s.workers && s.workers[w].ProposeWrite?
    ensures Inv(modes, Apply(modes, s, Advance(w, a)))
    ensures TablesContinue(s.tables, Apply(modes, s, Advance(w, a)).tables)
  {
    hide Established, Audited, TablesContinue, GoodEffects, Continues, Seen, GoodTables;
    var pc, now := s.workers[w], s.clock + a.wait;
    var s2 := Apply(modes, s, Advance(w, a));
    CreateKeeps(s.tables, NewRecord(pc.action, pc.subject, now));
    EffectsSurvive(s.tables, s2.tables, s.executed);
    forall v | v in s2.workers && v != w ensures GoodWorker(modes(v), s2, s2.workers[v]) {
      assert GoodWorker(modes(v), s, s.workers[v]);
      OthersSurvive(modes, s, s2, v);
    }
    EstablishedAfterRead(modes(w), s2.workers[w], s2.clock);
  }

  // ----- whole runs

  lemma EntryIsGood(mode: Mode, s: State, call: Call)
    ensures GoodWorker(mode, s, Broker.Entry(call)) && ClaimedBy(Broker.Entry(call)).None?
  {
    hide WellFormed, Seen, Owned;
  }

  lemma BeginKeepsInv(modes: nat -> Mode, s: State, w: nat, call: Call)
    requires Inv(modes, s)
    ensures Inv(modes, Apply(modes, s, Begin(w, call)))
  {
    hide GoodTables, Seen, Owned, GoodEffects, Established, Broker.Entry, Exclusive;
    var s2 := Apply(modes, s, Begin(w, call));
    EntryIsGood(modes(w), s, call);
    NoNewClaim(s.workers, w, Broker.Entry(call));
    forall v | v in s2.workers ensures GoodWorker(modes(v), s2, s2.workers[v]) {
      assert v in s.workers ==> GoodWorker(modes(v), s, s.workers[v]);
    }
  }

  lemma CrashKeepsInv(modes: nat -> Mode, s: State, w: nat)
    requires Inv(modes, s)
    ensures Inv(modes, Apply(modes, s, Crash(w)))
  {
    hide GoodTables, Seen, Owned, GoodEffects, Established;
    var s2 := Apply(modes, s, Crash(w));
    forall v | v in s2.workers ensures GoodWorker(modes(v), s2, s2.workers[v]) {
      assert GoodWorker(modes(v), s, s.workers[v]);
    }
  }

  lemma StepKeepsInv(modes: nat -> Mode, s: State, step: Step)
    requires Inv(modes, s)
    ensures Inv(modes, Apply(modes, s, step)) && TablesContinue(s.tables, Apply(modes, s, step).tables)
    ensures s.executed <= Apply(modes, s, step).executed
  {
    hide Inv, TablesContinue, LocalStep, Created, Transitioned, TransitionReply, CreateReply;
    ContinuesReflexive(s.tables);
    match step
    case Begin(w, call) => BeginKeepsInv(modes, s, w, call);
    case Crash(w) => CrashKeepsInv(modes, s, w);
    case Advance(w, a) =>
      if w in s.workers {
        var pc := s.workers[w];
        if !Transacts(pc) {
          LocalKeepsInv(modes, s, w, a);
        } else if pc.ProposeWrite? {
          CreateKeepsInv(modes, s, w, a);
        } else if Changing(pc).Some? {
          ChangeKeepsInv(modes, s, w, a);
        } else {
          ReadKeepsInv(modes, s, w, a);
        }
      }
  }

  lemma {:induction false} RunKeepsInv(modes: nat -> Mode, clock: int, steps: seq<Step>)
    ensures Inv(modes, Run(modes, Idle(clock), steps))
    decreases |steps|
  {
    if steps != [] {
      RunKeepsInv(modes, clock, steps[..|steps| - 1]);
      StepKeepsInv(modes, Run(modes, Idle(clock), steps[..|steps| - 1]), steps[|steps| - 1]);
    }
    hide Apply;
  }

  /** For every interleaving: an action is executed at most once. */
  lemma ExecutedAtMostOnce(modes: nat -> Mode, clock: int, steps: seq<Step>)
    ensures Distinct(ExecutedIds(Run(modes, Idle(clock), steps).executed))
  {
    hide Run;
    RunKeepsInv(modes, clock, steps);
  }

  /**
   One instant of authority: behind every effect there is a moment at which all three identities were valid,
   held by three roles of whom approver and proposer differ, the approval was open, the resource was at most
   30 s old and every cited item between 0 and 300 s old by both timestamps.
   */
  lemma OneInstantOfAuthority(modes: nat -> Mode, clock: int, steps: seq<Step>, e: Executed)
    requires e in Run(modes, Idle(clock), steps).executed
    ensures AuthorizedAt(e.mode, e.record, e.subject, e.review, e.authority)
    ensures e.authority.approver.subject != e.authority.responder.subject
  {
    hide Run;
    RunKeepsInv(modes, clock, steps);
  }

  /** The claimant's last write is stored, whatever the other workers did meanwhile. */
  lemma ClaimantAlwaysRecords(modes: nat -> Mode, clock: int, steps: seq<Step>, w: nat, now: int)
    requires var s := Run(modes, Idle(clock), steps); w in s.workers && s.workers[w].Terminal?
    ensures var s := Run(modes, Idle(clock), steps);
      TransitionReply(s.tables, s.workers[w].record, s.workers[w].change, now)
        == Stored(After(s.workers[w].record, s.workers[w].change, now))
  {
    hide Run, Consistent, Continues, Allowed;
    RunKeepsInv(modes, clock, steps);
    var s := Run(modes, Idle(clock), steps);
    assert GoodWorker(modes(w), s, s.workers[w]);
    ChangeIsValid(modes(w), s, s.workers[w], now);
    assert Audited(s.tables, s.tables.actions[s.workers[w].record.id]);
  }

  /**
   At every moment the history of every action is revisions 0..n, a path of transitions ending in the stored state.
   */
  lemma AuditIsThePath(modes: nat -> Mode, clock: int, steps: seq<Step>, id: ActionId, events: seq<AuditEvent>)
    requires var t := Run(modes, Idle(clock), steps).tables; id in t.actions && Listed(t, id, events)
    ensures var r := Run(modes, Idle(clock), steps).tables.actions[id];
      && |events| == r.revision + 1 && events[0].state == Proposed && events[r.revision].state == r.state
      && (forall k :: 0 <= k <= r.revision ==> events[k].id == id && events[k].revision == k)
      && (forall k :: 0 <= k < r.revision ==> events[k + 1].state in Allowed(events[k].state))
  {
    hide Run, Listed;
    RunKeepsInv(modes, clock, steps);
    var t := Run(modes, Idle(clock), steps).tables;
    HistoryIsComplete(t, t.actions[id], events);
  }

  lemma {:induction false} RunsContinue(modes: nat -> Mode, clock: int, first: seq<Step>, second: seq<Step>)
    ensures var a, b := Run(modes, Idle(clock), first), Run(modes, Idle(clock), first + second);
      TablesContinue(a.tables, b.tables) && a.executed <= b.executed
    decreases |second|
  {
    hide Run, TablesContinue, Apply, Inv;
    if second == [] {
      assert first + second == first;
      ContinuesReflexive(Run(modes, Idle(clock), first).tables);
    } else {
      var front := second[..|second| - 1];
      RunsContinue(modes, clock, first, front);
      RunKeepsInv(modes, clock, first + front);
      StepKeepsInv(modes, Run(modes, Idle(clock), first + front), second[|second| - 1]);
      RunLast(modes, clock, first, second);
      TablesContinueTransitive(Run(modes, Idle(clock), first).tables, Run(modes, Idle(clock), first + front).tables,
                               Run(modes, Idle(clock), first + second).tables);
    }
  }

  lemma RunLast(modes: nat -> Mode, clock: int, first: seq<Step>, second: seq<Step>)
    requires second != []
    ensures Run(modes, Idle(clock), first + second)
         == Apply(modes, Run(modes, Idle(clock), first + second[..|second| - 1]), second[|second| - 1])
  {
    hide Apply;
    var whole := first + second;
    assert whole[..|whole| - 1] == first + second[..|second| - 1];
  }

  /** Once stored, proposal and proposer never change, nor does an approval, nor a final record, nor any audit row. */
  lemma DecisionsAreFixed(modes: nat -> Mode, clock: int, first: seq<Step>, second: seq<Step>, id: ActionId)
    requires id in Run(modes, Idle(clock), first).tables.actions
    ensures var a, b := Run(modes, Idle(clock), first).tables, Run(modes, Idle(clock), first + second).tables;
      id in b.actions && Continues(a.actions[id], b.actions[id])
      && forall k :: k in a.audit ==> k in b.audit && b.audit[k] == a.audit[k]
  {
    hide Run, Continues;
    RunsContinue(modes, clock, first, second);
  }
}
