/**
 When the broker acts. Over a period in which the backend's answers keep their meaning, what holds when a call
 starts decides whether it proposes, approves or executes, and a call that acts always stores its result.
 */
module BrokerProgress {
  import opened Records
  import opened Policy
  import opened ActionStore
  import opened Broker
  import opened BrokerObject
  import opened BrokerSafety

  // ----- a worker of the machine that nobody disturbs

  function AsLone(s: State, w: nat, asked: nat): Lone
    requires w in s.workers
  {
    Lone(s.clock, s.tables, s.executed, s.workers[w], asked)
  }

  /** Worker `w` of the machine, alone, from its position to its return. */
  function Solo(modes: nat -> Mode, s: State, w: nat, answers: nat -> Answers, asked: nat): State
    requires w in s.workers
    decreases Rank(s.workers[w])
  {
    if s.workers[w].Returned? then s
    else
      RankFalls(modes(w), answers, AsLone(s, w, asked));
      LoneStepIsAStep(modes, answers, AsLone(s, w, asked), s, w);
      Solo(modes, Apply(modes, s, Advance(w, answers(asked))), w, answers, asked + 1)
  }

  /** The results below, stated for a lone worker, are results about the machine. */
  lemma {:induction false} SoloIsLone(modes: nat -> Mode, s: State, w: nat, answers: nat -> Answers, asked: nat)
    requires w in s.workers
    ensures var (end, lone) := (Solo(modes, s, w, answers, asked), ToTheEnd(modes(w), answers, AsLone(s, w, asked)));
      && (end.clock, end.tables, end.executed) == (lone.clock, lone.tables, lone.executed)
      && end.workers == s.workers[w := lone.pc]
    decreases Rank(s.workers[w])
  {
    hide LoneStep, Apply;
    var l := AsLone(s, w, asked);
    if !l.pc.Returned? {
      RankFalls(modes(w), answers, l);
      LoneStepIsAStep(modes, answers, l, s, w);
      LoneStepAsks(modes(w), answers, l);
      SoloIsLone(modes, Apply(modes, s, Advance(w, answers(asked))), w, answers, asked + 1);
    } else {
      assert s.workers[w := l.pc] == s.workers;
    }
  }

  lemma LoneStepAsks(mode: Mode, answers: nat -> Answers, l: Lone)
    ensures LoneStep(mode, answers, l).asked == l.asked + 1
  {
    hide LocalStep, Transacted;
  }

  // ----- a steady backend

  /** What the backend answers throughout a period: one directory of principals and one context. */
  datatype Backend = Backend(directory: string -> Option<Principal>, context: PolicyContext, since: int, until: int)

  ghost predicate ValidFor(b: Backend, subject: string, role: Role, namespace: string, now: int) {
    IdentityValid(b.directory(subject), role, namespace, now) && b.directory(subject).value.subject == subject
  }

  /** An identity that is valid, or invalid, for the whole period. */
  ghost predicate SteadyIdentity(b: Backend, subject: string, role: Role, namespace: string) {
    forall t :: b.since <= t <= b.until ==>
      (ValidFor(b, subject, role, namespace, t) <==> ValidFor(b, subject, role, namespace, b.since))
  }

  ghost predicate SteadyContext(b: Backend, action: Action) {
    forall t :: b.since <= t <= b.until ==> (Fresh(action, b.context, t) <==> Fresh(action, b.context, b.since))
  }

  ghost predicate SteadyWindow(b: Backend, approval: Option<Approval>) {
    forall t :: b.since <= t <= b.until ==> (InWindow(approval, t) <==> InWindow(approval, b.since))
  }

  predicate Checks(pc: Pc) {
    InProposal(pc) || InApproval(pc) || InExecution(pc) || (InDispatch(pc) && !pc.Effect?)
  }

  /** Whose identity this position refreshes. */
  function AsksFor(pc: Pc): Option<string> {
    match pc
    case ProposeIdentity(_, subject) => Some(subject)
    case ApproveIdentity(_, subject) => Some(subject)
    case ApproveReviewer(record, _) => Some(record.proposer)
    case ApproveAgain(_, subject, _) => Some(subject)
    case ExecuteIdentity(_, subject) => Some(subject)
    case ExecuteApprover(record, _) => if record.approval.Some? then Some(record.approval.value.subject) else None
    case ExecuteReviewer(record, _) => Some(record.proposer)
    case DispatchExecutor(_, subject, _) => Some(subject)
    case DispatchApprover(record, _, _, _) =>
      if record.approval.Some? then Some(record.approval.value.subject) else None
    case DispatchResponder(record, _, _, _, _) => Some(record.proposer)
    case _ => None
  }

  ghost predicate ServedHere(b: Backend, pc: Pc, a: Answers, now: int) {
    Checks(pc) ==>
      && b.since <= now <= b.until && a.context == b.context
      && (AsksFor(pc).Some? ==> a.principal == b.directory(AsksFor(pc).value))
  }

  /** Every check this call still makes is answered by the backend, within the period. */
  ghost predicate Served(mode: Mode, b: Backend, answers: nat -> Answers, l: Lone)
    decreases Rank(l.pc)
  {
    if l.pc.Returned? then true
    else
      RankFalls(mode, answers, l);
      && ServedHere(b, l.pc, answers(l.asked), l.clock + answers(l.asked).wait)
      && Served(mode, b, answers, LoneStep(mode, answers, l))
  }

  // ----- positions of one call

  /** The clock after k more answers. */
  function Reading(answers: nat -> Answers, l: Lone, k: nat): int {
    if k == 0 then l.clock else Reading(answers, l, k - 1) + answers(l.asked + k - 1).wait
  }

  lemma {:induction false} ReadingShifts(answers: nat -> Answers, l: Lone, l2: Lone, k: nat, j: nat)
    requires l2.clock == Reading(answers, l, k) && l2.asked == l.asked + k
    ensures Reading(answers, l2, j) == Reading(answers, l, k + j)
  {
    if j > 0 {
      ReadingShifts(answers, l, l2, k, j - 1);
    }
  }

  /** The call that stood at `l`, after k checks, now at `pc`. */
  function Stand(answers: nat -> Answers, l: Lone, k: nat, pc: Pc): Lone {
    l.(clock := Reading(answers, l, k), pc := pc, asked := l.asked + k)
  }

  /** From `pc` this call goes on at `next`. */
  ghost predicate Leads(mode: Mode, b: Backend, answers: nat -> Answers, l: Lone, k: nat, pc: Pc, next: Pc) {
    var (here, there) := (Stand(answers, l, k, pc), Stand(answers, l, k + 1, next));
    && Served(mode, b, answers, there) && ToTheEnd(mode, answers, here) == ToTheEnd(mode, answers, there)
    && (next.Returned? ==> ToTheEnd(mode, answers, here) == there)
  }

  lemma CheckLeads(mode: Mode, b: Backend, answers: nat -> Answers, l: Lone, k: nat, pc: Pc)
    requires Checks(pc) && Served(mode, b, answers, Stand(answers, l, k, pc))
    ensures ServedHere(b, pc, answers(l.asked + k), Reading(answers, l, k + 1))
    ensures Leads(mode, b, answers, l, k, pc, LocalStep(mode, pc, answers(l.asked + k), Reading(answers, l, k + 1)))
  {
    hide LocalStep, ToTheEnd, ServedHere;
    Onward(mode, answers, Stand(answers, l, k, pc));
  }

  lemma IdentifiedExactly(b: Backend, a: Answers, subject: string, role: Role, namespace: string, now: int)
    requires a.principal == b.directory(subject) && SteadyIdentity(b, subject, role, namespace)
    requires b.since <= now <= b.until
    ensures Identified(a, subject, role, namespace, now)
         == if ValidFor(b, subject, role, namespace, b.since) then b.directory(subject) else None
    ensures ValidFor(b, subject, role, namespace, b.since) ==> b.directory(subject).Some?
  {
    hide IdentityValid;
    assert ValidFor(b, subject, role, namespace, now) <==> ValidFor(b, subject, role, namespace, b.since);
    ValidIsKnown(b.directory(subject), role, namespace, b.since);
  }

  lemma ValidIsKnown(p: Option<Principal>, role: Role, namespace: string, now: int)
    ensures IdentityValid(p, role, namespace, now) ==> p.Some?
  {
  }

  /** What the review comes to: the right mode, support, and freshness. */
  ghost predicate Reviewable(mode: Mode, action: Action, b: Backend) {
    action.mode == mode && Supported(action, b.context) && Fresh(action, b.context, b.since)
  }

  lemma ReviewedSteadily(mode: Mode, b: Backend, a: Answers, action: Action, subject: string, now: int)
    requires a.context == b.context && SteadyContext(b, action)
    requires SteadyIdentity(b, subject, Responder, action.namespace)
    requires ValidFor(b, subject, Responder, action.namespace, b.since) && b.since <= now <= b.until
    requires b.directory(subject).Some?
    ensures Reviewed(mode, action, b.directory(subject).value, a, now)
         == if Reviewable(mode, action, b) then Some(Review(b.context, now)) else None
  {
    hide Supported, Evaluate, IdentityValid, Fresh;
    assert ValidFor(b, subject, Responder, action.namespace, now);
    ReviewedExactly(action, b.directory(subject), b.context, now);
    assert Fresh(action, b.context, now) <==> Fresh(action, b.context, b.since);
  }

  lemma MayReviewUntilDeadline(mode: Mode, b: Backend, action: Action)
    requires Reviewable(mode, action, b) && SteadyContext(b, action) && b.since <= b.until
    ensures b.context.report.Some? && b.until <= Deadline(action, b.context)
  {
    hide Deadline, Supported;
    assert Fresh(action, b.context, b.until);
    FreshUntilDeadline(action, b.context, b.since, b.until);
  }

  /** Nothing written, nothing performed, and an error for the caller. */
  ghost predicate Refused(l: Lone, end: Lone) {
    end.tables == l.tables && end.executed == l.executed && end.pc == REFUSED
  }

  /** The call names no stored action. */
  ghost predicate Misses(mode: Mode, answers: nat -> Answers, l: Lone) {
    var end := ToTheEnd(mode, answers, l);
    end.tables == l.tables && end.executed == l.executed && end.pc == Returned(Missing)
  }

  // ----- propose

  ghost predicate MayPropose(mode: Mode, b: Backend, action: Action, subject: string) {
    ValidFor(b, subject, Responder, action.namespace, b.since) && Reviewable(mode, action, b)
  }

  lemma ProposeIdentityLeads(mode: Mode, b: Backend, answers: nat -> Answers, l: Lone, k: nat, action: Action,
                             subject: string)
    requires Served(mode, b, answers, Stand(answers, l, k, ProposeIdentity(action, subject)))
    requires SteadyIdentity(b, subject, Responder, action.namespace)
    ensures ValidFor(b, subject, Responder, action.namespace, b.since) ==> b.directory(subject).Some?
    ensures Leads(mode, b, answers, l, k, ProposeIdentity(action, subject),
                  if ValidFor(b, subject, Responder, action.namespace, b.since)
                  then ProposeReview(action, subject, b.directory(subject).value) else REFUSED)
  {
    hide Identified, ValidFor, SteadyIdentity, Served, Leads, ExecuteStep, ApproveStep, DispatchStep;
    CheckLeads(mode, b, answers, l, k, ProposeIdentity(action, subject));
    IdentifiedExactly(b, answers(l.asked + k), subject, Responder, action.namespace, Reading(answers, l, k + 1));
  }

  lemma ProposeReviewLeads(mode: Mode, b: Backend, answers: nat -> Answers, l: Lone, k: nat, action: Action,
                           subject: string)
    requires ValidFor(b, subject, Responder, action.namespace, b.since) && b.directory(subject).Some?
    requires Served(mode, b, answers, Stand(answers, l, k, ProposeReview(action, subject, b.directory(subject).value)))
    requires SteadyIdentity(b, subject, Responder, action.namespace) && SteadyContext(b, action)
    ensures Leads(mode, b, answers, l, k, ProposeReview(action, subject, b.directory(subject).value),
                  if Reviewable(mode, action, b) then ProposeWrite(action, subject) else REFUSED)
  {
    hide Reviewed, ValidFor, SteadyIdentity, SteadyContext, Reviewable, Served, Leads, ExecuteStep, ApproveStep,
      DispatchStep;
    CheckLeads(mode, b, answers, l, k, ProposeReview(action, subject, b.directory(subject).value));
    ReviewedSteadily(mode, b, answers(l.asked + k), action, subject, Reading(answers, l, k + 1));
  }

  lemma ProposeEnds(mode: Mode, b: Backend, answers: nat -> Answers, l: Lone, action: Action, subject: string)
    requires l.pc == ProposeIdentity(action, subject) && Served(mode, b, answers, l)
    requires SteadyIdentity(b, subject, Responder, action.namespace) && SteadyContext(b, action)
    ensures var (end, r) := (ToTheEnd(mode, answers, l), NewRecord(action, subject, Reading(answers, l, 3)));
      if MayPropose(mode, b, action, subject) then
        && end.tables == Created(l.tables, r) && end.executed == l.executed
        && end.pc == Returned(CreateReply(l.tables, r))
      else Refused(l, end)
  {
    hide ToTheEnd, Served, SteadyIdentity, SteadyContext, Reviewable, ValidFor, Created, CreateReply;
    assert Stand(answers, l, 0, l.pc) == l;
    ProposeIdentityLeads(mode, b, answers, l, 0, action, subject);
    if ValidFor(b, subject, Responder, action.namespace, b.since) {
      ProposeReviewLeads(mode, b, answers, l, 1, action, subject);
      if Reviewable(mode, action, b) {
        TransactionTurn(mode, answers, Stand(answers, l, 2, ProposeWrite(action, subject)));
      }
    }
  }

  /**
   An undisturbed proposal over a steady period: stored under its digest with the final reading when it may be
   proposed and is new; answered with the stored record when the same proposer repeats it; otherwise refused.
   */
  lemma ProposalIsStoredExactly(modes: nat -> Mode, s: State, w: nat, b: Backend, answers: nat -> Answers, asked: nat,
                                action: Action, subject: string)
    requires Inv(modes, s) && w in s.workers && s.workers[w] == ProposeIdentity(action, subject)
    requires Served(modes(w), b, answers, AsLone(s, w, asked))
    requires SteadyIdentity(b, subject, Responder, action.namespace) && SteadyContext(b, action)
    ensures var (l, id) := (AsLone(s, w, asked), DigestOf(action));
      var (end, r) := (ToTheEnd(modes(w), answers, l), NewRecord(action, subject, Reading(answers, l, 3)));
      && end.executed == s.executed
      && (if MayPropose(modes(w), b, action, subject) && id !in s.tables.actions then
            end.tables == Recorded(s.tables, r, subject, PolicyReviewed) && end.pc == Returned(Stored(r))
          else if MayPropose(modes(w), b, action, subject) && s.tables.actions[id].proposer == subject then
            end.tables == s.tables && end.pc == Returned(Stored(s.tables.actions[id]))
          else Refused(l, end))
  {
    hide ToTheEnd, MayPropose, Served, SteadyIdentity, SteadyContext, GoodWorker, Audited, GoodEffects, Exclusive,
      Consistent;
    ProposeEnds(modes(w), b, answers, AsLone(s, w, asked), action, subject);
    StoredUnderItsDigest(s.tables, DigestOf(action));
  }

  lemma StoredUnderItsDigest(t: Tables, id: ActionId)
    requires GoodTables(t)
    ensures id !in t.actions ==> (id, 0) !in t.audit
    ensures id in t.actions ==>
      t.actions[id].id == id && DigestOf(t.actions[id].proposal) == id && Consistent(t.actions[id])
  {
    hide Audited;
  }

  // ----- stored transitions

  /** A legal change of the stored record is stored, and the stored record is then the changed one. */
  lemma ChangeIsStored(t: Tables, r: ActionRecord, c: Change, now: int)
    requires GoodTables(t) && r.id in t.actions && t.actions[r.id] == r
    requires c.state in Allowed(r.state) && Consistent(After(r, c, now))
    ensures TransitionReply(t, r, c, now) == Stored(After(r, c, now))
    ensures Transitioned(t, r, c, now) == Recorded(t, After(r, c, now), c.actor, c.reason)
  {
    hide Consistent, Allowed, Audited;
    NoDuplicate(t, r, c, now);
  }

  // ----- approve

  function ApprovedAt(record: ActionRecord, subject: string, at: int): Change {
    Approving(subject, Approval(subject, record.id, at, at + 300 * SECOND))
  }

  ghost predicate SteadyApproval(b: Backend, record: ActionRecord, subject: string) {
    && SteadyIdentity(b, subject, Approver, record.proposal.namespace)
    && SteadyIdentity(b, record.proposer, Responder, record.proposal.namespace) && SteadyContext(b, record.proposal)
  }

  /** What an approval needs when it starts. */
  ghost predicate MayApprove(mode: Mode, b: Backend, record: ActionRecord, subject: string) {
    && record.state == Proposed && subject != record.proposer
    && ValidFor(b, subject, Approver, record.proposal.namespace, b.since)
    && ValidFor(b, record.proposer, Responder, record.proposal.namespace, b.since)
    && Reviewable(mode, record.proposal, b)
  }

  lemma ApproveIdentityLeads(mode: Mode, b: Backend, answers: nat -> Answers, l: Lone, k: nat, record: ActionRecord,
                             subject: string)
    requires Served(mode, b, answers, Stand(answers, l, k, ApproveIdentity(record, subject)))
    requires SteadyIdentity(b, subject, Approver, record.proposal.namespace)
    ensures Leads(mode, b, answers, l, k, ApproveIdentity(record, subject),
                  if ValidFor(b, subject, Approver, record.proposal.namespace, b.since) && record.state == Proposed
                     && subject != record.proposer
                  then ApproveReviewer(record, subject) else REFUSED)
  {
    hide Identified, ValidFor, SteadyIdentity, Served, Leads, ExecuteStep, ProposeStep, DispatchStep;
    CheckLeads(mode, b, answers, l, k, ApproveIdentity(record, subject));
    IdentifiedExactly(b, answers(l.asked + k), subject, Approver, record.proposal.namespace,
                      Reading(answers, l, k + 1));
  }

  lemma ApproveReviewerLeads(mode: Mode, b: Backend, answers: nat -> Answers, l: Lone, k: nat, record: ActionRecord,
                             subject: string)
    requires Served(mode, b, answers, Stand(answers, l, k, ApproveReviewer(record, subject)))
    requires SteadyIdentity(b, record.proposer, Responder, record.proposal.namespace)
    ensures var valid := ValidFor(b, record.proposer, Responder, record.proposal.namespace, b.since);
      && (valid ==> b.directory(record.proposer).Some?)
      && Leads(mode, b, answers, l, k, ApproveReviewer(record, subject),
               if valid then ApproveReview(record, subject, b.directory(record.proposer).value) else REFUSED)
  {
    hide Identified, ValidFor, SteadyIdentity, Served, Leads, ExecuteStep, ProposeStep, DispatchStep;
    CheckLeads(mode, b, answers, l, k, ApproveReviewer(record, subject));
    IdentifiedExactly(b, answers(l.asked + k), record.proposer, Responder, record.proposal.namespace,
                      Reading(answers, l, k + 1));
  }

  lemma ApproveReviewLeads(mode: Mode, b: Backend, answers: nat -> Answers, l: Lone, k: nat, record: ActionRecord,
                           subject: string)
    requires ValidFor(b, record.proposer, Responder, record.proposal.namespace, b.since)
    requires b.directory(record.proposer).Some?
    requires Served(mode, b, answers,
                    Stand(answers, l, k, ApproveReview(record, subject, b.directory(record.proposer).value)))
    requires SteadyIdentity(b, record.proposer, Responder, record.proposal.namespace)
    requires SteadyContext(b, record.proposal)
    ensures Reviewable(mode, record.proposal, b) ==> b.context.report.Some?
    ensures Leads(mode, b, answers, l, k, ApproveReview(record, subject, b.directory(record.proposer).value),
                  if Reviewable(mode, record.proposal, b)
                  then ApproveAgain(record, subject, Deadline(record.proposal, b.context)) else REFUSED)
  {
    hide Reviewed, Deadline, ValidFor, SteadyIdentity, SteadyContext, Supported, Served, Leads, ExecuteStep,
      ProposeStep, DispatchStep;
    CheckLeads(mode, b, answers, l, k, ApproveReview(record, subject, b.directory(record.proposer).value));
    ReviewedSteadily(mode, b, answers(l.asked + k), record.proposal, record.proposer, Reading(answers, l, k + 1));
  }

  lemma ApproveAgainLeads(mode: Mode, b: Backend, answers: nat -> Answers, l: Lone, k: nat, record: ActionRecord,
                          subject: string, deadline: int)
    requires Served(mode, b, answers, Stand(answers, l, k, ApproveAgain(record, subject, deadline)))
    requires SteadyIdentity(b, subject, Approver, record.proposal.namespace)
    requires ValidFor(b, subject, Approver, record.proposal.namespace, b.since)
    ensures Leads(mode, b, answers, l, k, ApproveAgain(record, subject, deadline),
                  ApproveClock(record, subject, deadline))
  {
    hide Identified, ValidFor, SteadyIdentity, Served, Leads, ExecuteStep, ProposeStep, DispatchStep;
    CheckLeads(mode, b, answers, l, k, ApproveAgain(record, subject, deadline));
    IdentifiedExactly(b, answers(l.asked + k), subject, Approver, record.proposal.namespace,
                      Reading(answers, l, k + 1));
  }

  lemma ApproveClockLeads(mode: Mode, b: Backend, answers: nat -> Answers, l: Lone, k: nat, record: ActionRecord,
                          subject: string, deadline: int)
    requires Served(mode, b, answers, Stand(answers, l, k, ApproveClock(record, subject, deadline)))
    requires b.until <= deadline
    ensures var at := Reading(answers, l, k + 1);
      && at <= deadline
      && Leads(mode, b, answers, l, k, ApproveClock(record, subject, deadline),
               ApproveWrite(record, subject, Approval(subject, record.id, at, at + 300 * SECOND)))
  {
    hide Served, Leads, ExecuteStep, ProposeStep, DispatchStep;
    CheckLeads(mode, b, answers, l, k, ApproveClock(record, subject, deadline));
  }

  /** Approved at one reading, written at the next. */
  ghost predicate Approves(l: Lone, end: Lone, record: ActionRecord, subject: string, at: int, now: int) {
    && end.executed == l.executed
    && end.tables == Transitioned(l.tables, record, ApprovedAt(record, subject, at), now)
    && end.pc == Returned(TransitionReply(l.tables, record, ApprovedAt(record, subject, at), now))
  }

  lemma ApproveReviewedEnds(mode: Mode, b: Backend, answers: nat -> Answers, l: Lone, k: nat, record: ActionRecord,
                            subject: string)
    requires Reviewable(mode, record.proposal, b) && b.context.report.Some? && b.since <= b.until
    requires var pc := ApproveAgain(record, subject, Deadline(record.proposal, b.context));
      Served(mode, b, answers, Stand(answers, l, k, pc))
    requires SteadyApproval(b, record, subject) && ValidFor(b, subject, Approver, record.proposal.namespace, b.since)
    ensures var pc := ApproveAgain(record, subject, Deadline(record.proposal, b.context));
      Approves(l, ToTheEnd(mode, answers, Stand(answers, l, k, pc)), record, subject, Reading(answers, l, k + 2),
               Reading(answers, l, k + 3))
    ensures Reading(answers, l, k + 2) <= Deadline(record.proposal, b.context)
  {
    hide ToTheEnd, Served, SteadyIdentity, SteadyContext, Reviewable, ValidFor, Transitioned, TransitionReply, Deadline;
    var deadline := Deadline(record.proposal, b.context);
    MayReviewUntilDeadline(mode, b, record.proposal);
    ApproveAgainLeads(mode, b, answers, l, k, record, subject, deadline);
    ApproveClockLeads(mode, b, answers, l, k + 1, record, subject, deadline);
    var at := Reading(answers, l, k + 2);
    var approval := Approval(subject, record.id, at, at + 300 * SECOND);
    TransactionTurn(mode, answers, Stand(answers, l, k + 2, ApproveWrite(record, subject, approval)));
  }

  lemma ApproveEnds(mode: Mode, b: Backend, answers: nat -> Answers, l: Lone, k: nat, record: ActionRecord,
                    subject: string)
    requires Served(mode, b, answers, Stand(answers, l, k, ApproveIdentity(record, subject)))
    requires SteadyApproval(b, record, subject) && b.since <= b.until
    ensures var end := ToTheEnd(mode, answers, Stand(answers, l, k, ApproveIdentity(record, subject)));
      if MayApprove(mode, b, record, subject) then
        && Approves(l, end, record, subject, Reading(answers, l, k + 5), Reading(answers, l, k + 6))
        && b.context.report.Some? && Reading(answers, l, k + 5) <= Deadline(record.proposal, b.context)
      else Refused(l, end)
  {
    hide ToTheEnd, Served, SteadyIdentity, SteadyContext, Reviewable, ValidFor, Approves, Deadline, Reading;
    ApproveIdentityLeads(mode, b, answers, l, k, record, subject);
    if ValidFor(b, subject, Approver, record.proposal.namespace, b.since) && record.state == Proposed
       && subject != record.proposer
    {
      ApproveReviewerLeads(mode, b, answers, l, k + 1, record, subject);
      if ValidFor(b, record.proposer, Responder, record.proposal.namespace, b.since) {
        ApproveReviewLeads(mode, b, answers, l, k + 2, record, subject);
        if Reviewable(mode, record.proposal, b) {
          ApproveReviewedEnds(mode, b, answers, l, k + 3, record, subject);
        }
      }
    }
  }

  lemma ReadLeads(mode: Mode, b: Backend, answers: nat -> Answers, l: Lone, id: ActionId, subject: string)
    requires Served(mode, b, answers, l) && (l.pc == ApproveRead(id, subject) || l.pc == ExecuteRead(id, subject))
    ensures Leads(mode, b, answers, l, 0, l.pc,
                  if id !in l.tables.actions then Returned(Missing)
                  else if l.pc.ApproveRead? then ApproveIdentity(l.tables.actions[id], subject)
                  else ExecuteIdentity(l.tables.actions[id], subject))
  {
    hide ToTheEnd, ServedHere;
    assert Stand(answers, l, 0, l.pc) == l;
    TransactionTurn(mode, answers, l);
  }

  /**
   An undisturbed approval over a steady period: given exactly when it may be. The stored record then carries an
   approval from the last clock reading, not after the review's deadline; otherwise nothing changes.
   */
  lemma ApprovalIsStoredExactly(modes: nat -> Mode, s: State, w: nat, b: Backend, answers: nat -> Answers, asked: nat,
                                id: ActionId, subject: string)
    requires Inv(modes, s) && w in s.workers && s.workers[w] == ApproveRead(id, subject)
    requires Served(modes(w), b, answers, AsLone(s, w, asked)) && b.since <= b.until
    requires id in s.tables.actions ==> SteadyApproval(b, s.tables.actions[id], subject)
    ensures id !in s.tables.actions ==> Misses(modes(w), answers, AsLone(s, w, asked))
    ensures id in s.tables.actions ==>
      var (l, before) := (AsLone(s, w, asked), s.tables.actions[id]);
      var end := ToTheEnd(modes(w), answers, l);
      if MayApprove(modes(w), b, before, subject) then
        var at := Reading(answers, l, 6);
        var r := After(before, ApprovedAt(before, subject, at), Reading(answers, l, 7));
        && end.tables == Recorded(s.tables, r, subject, HumanApproved) && end.pc == Returned(Stored(r))
        && end.executed == s.executed && r.state == Approved
        && r.approval == Some(Approval(subject, id, at, at + 300 * SECOND))
        && b.context.report.Some? && at <= Deadline(before.proposal, b.context)
      else Refused(l, end)
  {
    hide ToTheEnd, Served, GoodWorker, GoodEffects, Exclusive, SteadyApproval, ValidFor, Reviewable, Reading,
      Transitioned, TransitionReply, Deadline, Consistent, GoodTables;
    var l := AsLone(s, w, asked);
    StandsAtStart(answers, l);
    ReadLeads(modes(w), b, answers, l, id, subject);
    if id !in s.tables.actions {
      return;
    }
    var before := s.tables.actions[id];
    ApproveEnds(modes(w), b, answers, l, 1, before, subject);
    StoredUnderItsDigest(s.tables, id);
    if MayApprove(modes(w), b, before, subject) {
      var (at, now) := (Reading(answers, l, 6), Reading(answers, l, 7));
      ApprovedIsConsistent(before, subject, at, now);
      ChangeIsStored(s.tables, before, ApprovedAt(before, subject, at), now);
    }
  }

  lemma StandsAtStart(answers: nat -> Answers, l: Lone)
    ensures Stand(answers, l, 0, l.pc) == l
  {
  }

  lemma ApprovedIsConsistent(r: ActionRecord, subject: string, at: int, now: int)
    requires Consistent(r) && r.state == Proposed && subject != r.proposer
    ensures Consistent(After(r, ApprovedAt(r, subject, at), now)) && Approved in Allowed(r.state)
  {
  }

  // ----- dispatch

  /** The three people an execution depends on, valid when it starts. */
  ghost predicate PeopleValid(b: Backend, record: ActionRecord, subject: string)
    requires record.approval.Some?
  {
    var ns := record.proposal.namespace;
    && ValidFor(b, subject, Executor, ns, b.since)
    && ValidFor(b, record.approval.value.subject, Approver, ns, b.since)
    && ValidFor(b, record.proposer, Responder, ns, b.since)
  }

  ghost predicate SteadyPeople(b: Backend, record: ActionRecord, subject: string)
    requires record.approval.Some?
  {
    var ns := record.proposal.namespace;
    && SteadyIdentity(b, subject, Executor, ns) && SteadyIdentity(b, record.approval.value.subject, Approver, ns)
    && SteadyIdentity(b, record.proposer, Responder, ns)
  }

  /** What a claimed action needs when its dispatch starts. */
  ghost predicate MayDispatch(b: Backend, record: ActionRecord, subject: string, review: Review)
    requires record.approval.Some? && review.context.report.Some?
  {
    && PeopleValid(b, record, subject) && InWindow(record.approval, b.since)
    && b.since <= Deadline(record.proposal, review.context)
  }

  /** Neither the identities, nor the approval, nor the review's deadline change sides within the period. */
  ghost predicate SteadyDispatch(b: Backend, record: ActionRecord, subject: string, review: Review)
    requires record.approval.Some? && review.context.report.Some?
  {
    && SteadyPeople(b, record, subject) && SteadyWindow(b, record.approval)
    && (b.since <= Deadline(record.proposal, review.context) ==> b.until <= Deadline(record.proposal, review.context))
  }

  lemma DispatchExecutorLeads(mode: Mode, b: Backend, answers: nat -> Answers, l: Lone, k: nat, record: ActionRecord,
                              subject: string, review: Review)
    requires Served(mode, b, answers, Stand(answers, l, k, DispatchExecutor(record, subject, review)))
    requires SteadyIdentity(b, subject, Executor, record.proposal.namespace)
    ensures var valid := ValidFor(b, subject, Executor, record.proposal.namespace, b.since);
      && (valid ==> b.directory(subject).Some?)
      && Leads(mode, b, answers, l, k, DispatchExecutor(record, subject, review),
               if valid then DispatchApprover(record, subject, review, b.directory(subject).value)
               else Refusal(record, subject))
  {
    hide Identified, ValidFor, SteadyIdentity, Served, Leads, ExecuteStep, ProposeStep, ApproveStep, Refusal;
    CheckLeads(mode, b, answers, l, k, DispatchExecutor(record, subject, review));
    IdentifiedExactly(b, answers(l.asked + k), subject, Executor, record.proposal.namespace,
                      Reading(answers, l, k + 1));
  }

  lemma DispatchApproverLeads(mode: Mode, b: Backend, answers: nat -> Answers, l: Lone, k: nat, record: ActionRecord,
                              subject: string, review: Review, executor: Principal)
    requires record.approval.Some?
    requires Served(mode, b, answers, Stand(answers, l, k, DispatchApprover(record, subject, review, executor)))
    requires SteadyIdentity(b, record.approval.value.subject, Approver, record.proposal.namespace)
    ensures var valid := ValidFor(b, record.approval.value.subject, Approver, record.proposal.namespace, b.since);
      && (valid ==> b.directory(record.approval.value.subject).Some?)
      && Leads(mode, b, answers, l, k, DispatchApprover(record, subject, review, executor),
               if valid
               then DispatchResponder(record, subject, review, executor,
                                      b.directory(record.approval.value.subject).value)
               else Refusal(record, subject))
  {
    hide Identified, ValidFor, SteadyIdentity, Served, Leads, ExecuteStep, ProposeStep, ApproveStep, Refusal;
    CheckLeads(mode, b, answers, l, k, DispatchApprover(record, subject, review, executor));
    IdentifiedExactly(b, answers(l.asked + k), record.approval.value.subject, Approver, record.proposal.namespace,
                      Reading(answers, l, k + 1));
  }

  lemma DispatchResponderLeads(mode: Mode, b: Backend, answers: nat -> Answers, l: Lone, k: nat, record: ActionRecord,
                               subject: string, review: Review, executor: Principal, approver: Principal)
    requires Served(mode, b, answers,
                    Stand(answers, l, k, DispatchResponder(record, subject, review, executor, approver)))
    requires SteadyIdentity(b, record.proposer, Responder, record.proposal.namespace)
    ensures var valid := ValidFor(b, record.proposer, Responder, record.proposal.namespace, b.since);
      && (valid ==> b.directory(record.proposer).Some?)
      && Leads(mode, b, answers, l, k, DispatchResponder(record, subject, review, executor, approver),
               if valid
               then DispatchInstant(record, subject, review, executor, approver, b.directory(record.proposer).value)
               else Refusal(record, subject))
  {
    hide Identified, ValidFor, SteadyIdentity, Served, Leads, ExecuteStep, ProposeStep, ApproveStep, Refusal;
    CheckLeads(mode, b, answers, l, k, DispatchResponder(record, subject, review, executor, approver));
    IdentifiedExactly(b, answers(l.asked + k), record.proposer, Responder, record.proposal.namespace,
                      Reading(answers, l, k + 1));
  }

  lemma ValidThroughout(b: Backend, subject: string, role: Role, namespace: string, now: int)
    requires SteadyIdentity(b, subject, role, namespace) && ValidFor(b, subject, role, namespace, b.since)
    requires b.since <= now <= b.until
    ensures b.directory(subject).Some? && IdentityValid(Some(b.directory(subject).value), role, namespace, now)
  {
    hide IdentityValid;
    assert ValidFor(b, subject, role, namespace, now);
    ValidIsKnown(b.directory(subject), role, namespace, now);
  }

  /** The people who authorize this record, as the backend knows them. */
  function AuthorityAt(b: Backend, record: ActionRecord, subject: string, now: int): Authority
    requires record.approval.Some? && b.directory(subject).Some? && b.directory(record.proposer).Some?
    requires b.directory(record.approval.value.subject).Some?
  {
    Authority(now, b.directory(subject).value, b.directory(record.approval.value.subject).value,
              b.directory(record.proposer).value)
  }

  lemma DispatchInstantLeads(mode: Mode, b: Backend, answers: nat -> Answers, l: Lone, k: nat, record: ActionRecord,
                             subject: string, review: Review)
    requires record.approval.Some? && SteadyPeople(b, record, subject) && PeopleValid(b, record, subject)
    requires b.directory(subject).Some? && b.directory(record.proposer).Some?
    requires b.directory(record.approval.value.subject).Some?
    requires var a := AuthorityAt(b, record, subject, 0);
      Served(mode, b, answers,
             Stand(answers, l, k, DispatchInstant(record, subject, review, a.executor, a.approver, a.responder)))
    ensures var a := AuthorityAt(b, record, subject, Reading(answers, l, k + 1));
      Leads(mode, b, answers, l, k, DispatchInstant(record, subject, review, a.executor, a.approver, a.responder),
            DispatchCurrent(record, subject, review, a))
  {
    hide IdentityValid, ValidFor, SteadyIdentity, Served, Leads, ExecuteStep, ProposeStep, ApproveStep, Refusal;
    var (a, ns, now) := (AuthorityAt(b, record, subject, 0), record.proposal.namespace, Reading(answers, l, k + 1));
    CheckLeads(mode, b, answers, l, k, DispatchInstant(record, subject, review, a.executor, a.approver, a.responder));
    ValidThroughout(b, subject, Executor, ns, now);
    ValidThroughout(b, record.approval.value.subject, Approver, ns, now);
    ValidThroughout(b, record.proposer, Responder, ns, now);
  }

  lemma DispatchCurrentLeads(mode: Mode, b: Backend, answers: nat -> Answers, l: Lone, k: nat, record: ActionRecord,
                             subject: string, review: Review, a: Authority)
    requires Served(mode, b, answers, Stand(answers, l, k, DispatchCurrent(record, subject, review, a)))
    requires SteadyWindow(b, record.approval)
    ensures Leads(mode, b, answers, l, k, DispatchCurrent(record, subject, review, a),
                  if InWindow(record.approval, b.since) then DispatchDeadline(record, subject, review, a)
                  else Refusal(record, subject))
  {
    hide InWindow, Served, Leads, ExecuteStep, ProposeStep, ApproveStep, Refusal;
    CheckLeads(mode, b, answers, l, k, DispatchCurrent(record, subject, review, a));
    assert InWindow(record.approval, Reading(answers, l, k + 1)) <==> InWindow(record.approval, b.since);
  }

  lemma DispatchDeadlineLeads(mode: Mode, b: Backend, answers: nat -> Answers, l: Lone, k: nat, record: ActionRecord,
                              subject: string, review: Review, a: Authority)
    requires Served(mode, b, answers, Stand(answers, l, k, DispatchDeadline(record, subject, review, a)))
    requires review.context.report.Some?
    requires b.since <= Deadline(record.proposal, review.context) ==>
      b.until <= Deadline(record.proposal, review.context)
    ensures Leads(mode, b, answers, l, k, DispatchDeadline(record, subject, review, a),
                  if b.since <= Deadline(record.proposal, review.context) then Effect(record, subject, review, a)
                  else Refusal(record, subject))
  {
    hide Deadline, Served, Leads, ExecuteStep, ProposeStep, ApproveStep, Refusal;
    CheckLeads(mode, b, answers, l, k, DispatchDeadline(record, subject, review, a));
  }

  /** This call ends with the terminal write that `pc` decided on. */
  ghost predicate Concludes(tables: Tables, end: Lone, pc: Pc)
    requires pc.Terminal?
  {
    && end.tables == Transitioned(tables, pc.record, pc.change, end.clock)
    && end.pc == Returned(TransitionReply(tables, pc.record, pc.change, end.clock))
  }

  lemma TerminalEnds(mode: Mode, answers: nat -> Answers, l: Lone)
    requires l.pc.Terminal?
    ensures var end := ToTheEnd(mode, answers, l);
      Concludes(l.tables, end, l.pc) && end.executed == l.executed && end.clock == l.clock + answers(l.asked).wait
  {
    hide ToTheEnd, Transitioned, TransitionReply;
    TransactionTurn(mode, answers, l);
  }

  /** The effect is performed once, and its answer goes to the terminal write. */
  lemma EffectIsRecorded(mode: Mode, answers: nat -> Answers, l: Lone, k: nat, pc: Pc)
    requires pc.Effect?
    ensures var end := ToTheEnd(mode, answers, Stand(answers, l, k, pc));
      && end.executed == l.executed + [Executed(mode, pc.record, pc.subject, pc.review, pc.authority)]
      && end.clock == Reading(answers, l, k + 2)
      && Concludes(l.tables, end, Outcome(pc.record, pc.subject, answers(l.asked + k).effect))
  {
    hide ToTheEnd, Outcome, Concludes, Reading;
    var l1 := Stand(answers, l, k, pc);
    EffectEnds(mode, answers, l1);
    TerminalEnds(mode, answers, LoneStep(mode, answers, l1));
    ReadingNext(answers, l, k);
    ReadingNext(answers, l, k + 1);
  }

  lemma ReadingNext(answers: nat -> Answers, l: Lone, k: nat)
    ensures Reading(answers, l, k + 1) == Reading(answers, l, k) + answers(l.asked + k).wait
  {
  }

  /** The effect of a dispatch, with the people behind it as they were at `now`. */
  ghost predicate Performs(mode: Mode, b: Backend, l: Lone, end: Lone, record: ActionRecord, subject: string,
                           review: Review, now: int)
    requires record.approval.Some?
  {
    && b.directory(subject).Some? && b.directory(record.proposer).Some?
    && b.directory(record.approval.value.subject).Some?
    && end.executed == l.executed + [Executed(mode, record, subject, review, AuthorityAt(b, record, subject, now))]
  }

  /** A dispatch that acts: one effect, and its answer in the terminal record. */
  ghost predicate Dispatches(mode: Mode, b: Backend, answers: nat -> Answers, l: Lone, k: nat, end: Lone,
                             record: ActionRecord, subject: string, review: Review)
    requires record.approval.Some?
  {
    && Performs(mode, b, l, end, record, subject, review, Reading(answers, l, k + 4))
    && end.clock == Reading(answers, l, k + 8)
    && Concludes(l.tables, end, Outcome(record, subject, answers(l.asked + k + 6).effect))
  }

  /** Nothing performed, and the failure recorded. */
  ghost predicate RecordsRefusal(l: Lone, end: Lone, record: ActionRecord, subject: string) {
    end.executed == l.executed && Concludes(l.tables, end, Refusal(record, subject))
  }

  lemma RefusalEnds(mode: Mode, answers: nat -> Answers, l: Lone, k: nat, record: ActionRecord, subject: string)
    ensures RecordsRefusal(l, ToTheEnd(mode, answers, Stand(answers, l, k, Refusal(record, subject))), record, subject)
  {
    hide ToTheEnd, Concludes;
    TerminalEnds(mode, answers, Stand(answers, l, k, Refusal(record, subject)));
  }

  lemma DispatchClocksEnd(mode: Mode, b: Backend, answers: nat -> Answers, l: Lone, k: nat, record: ActionRecord,
                          subject: string, review: Review)
    requires record.approval.Some? && review.context.report.Some? && SteadyDispatch(b, record, subject, review)
    requires PeopleValid(b, record, subject)
    requires b.directory(subject).Some? && b.directory(record.proposer).Some?
    requires b.directory(record.approval.value.subject).Some?
    requires var a := AuthorityAt(b, record, subject, 0);
      Served(mode, b, answers,
             Stand(answers, l, k + 3, DispatchInstant(record, subject, review, a.executor, a.approver, a.responder)))
    ensures var a := AuthorityAt(b, record, subject, 0);
      var pc := DispatchInstant(record, subject, review, a.executor, a.approver, a.responder);
      var end := ToTheEnd(mode, answers, Stand(answers, l, k + 3, pc));
      if MayDispatch(b, record, subject, review) then Dispatches(mode, b, answers, l, k, end, record, subject, review)
      else RecordsRefusal(l, end, record, subject)
  {
    hide ToTheEnd, Served, Stand, Reading, PeopleValid, SteadyPeople, SteadyWindow, InWindow, Deadline, Refusal,
      Outcome, RecordsRefusal, Concludes;
    var a := AuthorityAt(b, record, subject, Reading(answers, l, k + 4));
    DispatchInstantLeads(mode, b, answers, l, k + 3, record, subject, review);
    DispatchCurrentLeads(mode, b, answers, l, k + 4, record, subject, review, a);
    if !InWindow(record.approval, b.since) {
      RefusalEnds(mode, answers, l, k + 5, record, subject);
    } else {
      DispatchDeadlineLeads(mode, b, answers, l, k + 5, record, subject, review, a);
      if b.since <= Deadline(record.proposal, review.context) {
        EffectIsRecorded(mode, answers, l, k + 6, Effect(record, subject, review, a));
      } else {
        RefusalEnds(mode, answers, l, k + 6, record, subject);
      }
    }
  }

  lemma DispatchEnds(mode: Mode, b: Backend, answers: nat -> Answers, l: Lone, k: nat, record: ActionRecord,
                     subject: string, review: Review)
    requires record.approval.Some? && review.context.report.Some? && SteadyDispatch(b, record, subject, review)
    requires Served(mode, b, answers, Stand(answers, l, k, DispatchExecutor(record, subject, review)))
    ensures var end := ToTheEnd(mode, answers, Stand(answers, l, k, DispatchExecutor(record, subject, review)));
      if MayDispatch(b, record, subject, review) then Dispatches(mode, b, answers, l, k, end, record, subject, review)
      else RecordsRefusal(l, end, record, subject)
  {
    hide ToTheEnd, Served, Stand, Reading, ValidFor, SteadyIdentity, SteadyWindow, InWindow, Deadline, Refusal,
      RecordsRefusal, Dispatches;
    var ns := record.proposal.namespace;
    DispatchExecutorLeads(mode, b, answers, l, k, record, subject, review);
    if !ValidFor(b, subject, Executor, ns, b.since) {
      RefusalEnds(mode, answers, l, k + 1, record, subject);
    } else {
      DispatchApproverLeads(mode, b, answers, l, k + 1, record, subject, review, b.directory(subject).value);
      DispatchHumansEnd(mode, b, answers, l, k, record, subject, review);
    }
  }

  lemma DispatchHumansEnd(mode: Mode, b: Backend, answers: nat -> Answers, l: Lone, k: nat, record: ActionRecord,
                          subject: string, review: Review)
    requires record.approval.Some? && review.context.report.Some? && SteadyDispatch(b, record, subject, review)
    requires ValidFor(b, subject, Executor, record.proposal.namespace, b.since) && b.directory(subject).Some?
    requires var pc := DispatchApprover(record, subject, review, b.directory(subject).value);
      Served(mode, b, answers, Stand(answers, l, k + 1, pc))
    ensures var pc := DispatchApprover(record, subject, review, b.directory(subject).value);
      var end := ToTheEnd(mode, answers, Stand(answers, l, k + 1, pc));
      if MayDispatch(b, record, subject, review) then Dispatches(mode, b, answers, l, k, end, record, subject, review)
      else RecordsRefusal(l, end, record, subject)
  {
    hide ToTheEnd, Served, Stand, Reading, ValidFor, SteadyIdentity, SteadyWindow, InWindow, Deadline, Refusal,
      RecordsRefusal, Dispatches;
    var (ns, ex, human) := (record.proposal.namespace, b.directory(subject).value, record.approval.value.subject);
    DispatchApproverLeads(mode, b, answers, l, k + 1, record, subject, review, ex);
    if !ValidFor(b, human, Approver, ns, b.since) {
      RefusalEnds(mode, answers, l, k + 2, record, subject);
    } else {
      DispatchResponderLeads(mode, b, answers, l, k + 2, record, subject, review, ex, b.directory(human).value);
      if !ValidFor(b, record.proposer, Responder, ns, b.since) {
        RefusalEnds(mode, answers, l, k + 3, record, subject);
      } else {
        DispatchClocksEnd(mode, b, answers, l, k, record, subject, review);
      }
    }
  }

  // ----- what a claimant's record comes to

  lemma TerminalIsConsistent(r: ActionRecord, pc: Pc, subject: string, effect: Option<EffectReceipt>, now: int)
    requires Consistent(r) && r.state == Executing && (pc == Refusal(r, subject) || pc == Outcome(r, subject, effect))
    ensures pc.record == r && pc.change.state in Allowed(r.state) && Consistent(After(r, pc.change, now))
  {
  }

  /** The stored terminal record of a claimed action. */
  ghost predicate StoresTerminal(t: Tables, end: Lone, pc: Pc)
    requires pc.Terminal?
  {
    var r := After(pc.record, pc.change, end.clock);
    end.tables == Recorded(t, r, pc.change.actor, pc.change.reason) && end.pc == Returned(Stored(r))
    && end.tables.actions[r.id] == r && r.state in {Succeeded, Failed, Unknown}
  }

  lemma TerminalIsStored(t: Tables, end: Lone, r: ActionRecord, pc: Pc, subject: string, effect: Option<EffectReceipt>)
    requires GoodTables(t) && r.id in t.actions && t.actions[r.id] == r && r.state == Executing
    requires (pc == Refusal(r, subject) || pc == Outcome(r, subject, effect)) && Concludes(t, end, pc)
    ensures StoresTerminal(t, end, pc)
  {
    hide Consistent, TransitionReply, Transitioned, Refusal, Outcome;
    assert Consistent(r) by {
      StoredUnderItsDigest(t, r.id);
    }
    TerminalIsConsistent(r, pc, subject, effect, end.clock);
    ChangeIsStored(t, r, pc.change, end.clock);
  }

  /** From the claim of the stored record on, by one worker alone. */
  lemma DispatchIsStored(mode: Mode, b: Backend, answers: nat -> Answers, l: Lone, record: ActionRecord,
                         subject: string, review: Review)
    requires l.pc == DispatchExecutor(record, subject, review) && Served(mode, b, answers, l)
    requires GoodTables(l.tables) && record.id in l.tables.actions && l.tables.actions[record.id] == record
    requires record.state == Executing && record.approval.Some? && review.context.report.Some?
    requires SteadyDispatch(b, record, subject, review)
    ensures var end := ToTheEnd(mode, answers, l);
      if MayDispatch(b, record, subject, review) then
        && Performs(mode, b, l, end, record, subject, review, Reading(answers, l, 4))
        && end.clock == Reading(answers, l, 8)
        && StoresTerminal(l.tables, end, Outcome(record, subject, answers(l.asked + 6).effect))
      else end.executed == l.executed && StoresTerminal(l.tables, end, Refusal(record, subject))
  {
    hide ToTheEnd, Served, Reading, SteadyDispatch, MayDispatch, Refusal, Outcome, GoodTables, Concludes,
      StoresTerminal, Performs;
    var (end, effect) := (ToTheEnd(mode, answers, l), answers(l.asked + 6).effect);
    StandsAtStart(answers, l);
    DispatchEnds(mode, b, answers, l, 0, record, subject, review);
    if MayDispatch(b, record, subject, review) {
      TerminalIsStored(l.tables, end, record, Outcome(record, subject, effect), subject, effect);
    } else {
      TerminalIsStored(l.tables, end, record, Refusal(record, subject), subject, effect);
    }
  }

  /**
   An undisturbed dispatch over a steady period: exactly when the people, the approval and the review's deadline are
   good at its start, the claimed action is performed, once, and its answer stored; otherwise its failure is stored.
   */
  lemma DispatchExecutesExactly(modes: nat -> Mode, s: State, w: nat, b: Backend, answers: nat -> Answers, asked: nat,
                                record: ActionRecord, subject: string, review: Review)
    requires Inv(modes, s) && w in s.workers && s.workers[w] == DispatchExecutor(record, subject, review)
    requires record.approval.Some? && review.context.report.Some?
    requires Served(modes(w), b, answers, AsLone(s, w, asked)) && SteadyDispatch(b, record, subject, review)
    ensures var l := AsLone(s, w, asked);
      var end := ToTheEnd(modes(w), answers, l);
      if MayDispatch(b, record, subject, review) then
        && Performs(modes(w), b, l, end, record, subject, review, Reading(answers, l, 4))
        && StoresTerminal(s.tables, end, Outcome(record, subject, answers(asked + 6).effect))
      else end.executed == s.executed && StoresTerminal(s.tables, end, Refusal(record, subject))
  {
    hide ToTheEnd, Served, Reading, Established, GoodEffects, Exclusive, Seen, SteadyDispatch, MayDispatch, Refusal,
      Outcome, GoodTables, StoresTerminal, Performs;
    assert GoodWorker(modes(w), s, s.workers[w]);
    DispatchIsStored(modes(w), b, answers, AsLone(s, w, asked), record, subject, review);
  }

  // ----- execute

  /** What an execution needs when it starts. */
  ghost predicate MayExecute(mode: Mode, b: Backend, record: ActionRecord, subject: string) {
    && record.state == Approved && record.approval.Some? && PeopleValid(b, record, subject)
    && InWindow(record.approval, b.since) && Reviewable(mode, record.proposal, b)
  }

  /** An executor who only learns what became of the action. */
  ghost predicate MayLearn(mode: Mode, b: Backend, record: ActionRecord, subject: string) {
    && record.state in {Executing, Succeeded, Failed, Unknown} && record.proposal.mode == mode
    && ValidFor(b, subject, Executor, record.proposal.namespace, b.since)
  }

  ghost predicate SteadyExecution(b: Backend, record: ActionRecord, subject: string) {
    && SteadyIdentity(b, subject, Executor, record.proposal.namespace)
    && (record.approval.Some? ==> SteadyPeople(b, record, subject))
    && SteadyContext(b, record.proposal) && SteadyWindow(b, record.approval)
  }

  lemma ExecuteIdentityLeads(mode: Mode, b: Backend, answers: nat -> Answers, l: Lone, k: nat, record: ActionRecord,
                             subject: string)
    requires Served(mode, b, answers, Stand(answers, l, k, ExecuteIdentity(record, subject)))
    requires SteadyIdentity(b, subject, Executor, record.proposal.namespace)
    ensures Leads(mode, b, answers, l, k, ExecuteIdentity(record, subject),
                  if !ValidFor(b, subject, Executor, record.proposal.namespace, b.since) || record.proposal.mode != mode
                  then REFUSED
                  else if record.state in {Executing, Succeeded, Failed, Unknown} then Returned(Stored(record))
                  else ExecuteWindow(record, subject))
  {
    hide Identified, ValidFor, SteadyIdentity, Served, Leads, DispatchStep, ProposeStep, ApproveStep;
    CheckLeads(mode, b, answers, l, k, ExecuteIdentity(record, subject));
    IdentifiedExactly(b, answers(l.asked + k), subject, Executor, record.proposal.namespace,
                      Reading(answers, l, k + 1));
  }

  lemma ExecuteWindowLeads(mode: Mode, b: Backend, answers: nat -> Answers, l: Lone, k: nat, record: ActionRecord,
                           subject: string)
    requires Served(mode, b, answers, Stand(answers, l, k, ExecuteWindow(record, subject)))
    requires SteadyWindow(b, record.approval)
    ensures Leads(mode, b, answers, l, k, ExecuteWindow(record, subject),
                  if record.state == Approved && InWindow(record.approval, b.since)
                  then ExecuteApprover(record, subject) else REFUSED)
  {
    hide InWindow, Served, Leads, DispatchStep, ProposeStep, ApproveStep;
    CheckLeads(mode, b, answers, l, k, ExecuteWindow(record, subject));
    assert InWindow(record.approval, Reading(answers, l, k + 1)) <==> InWindow(record.approval, b.since);
  }

  lemma ExecuteApproverLeads(mode: Mode, b: Backend, answers: nat -> Answers, l: Lone, k: nat, record: ActionRecord,
                             subject: string)
    requires record.approval.Some? && Served(mode, b, answers, Stand(answers, l, k, ExecuteApprover(record, subject)))
    requires SteadyIdentity(b, record.approval.value.subject, Approver, record.proposal.namespace)
    ensures Leads(mode, b, answers, l, k, ExecuteApprover(record, subject),
                  if ValidFor(b, record.approval.value.subject, Approver, record.proposal.namespace, b.since)
                  then ExecuteReviewer(record, subject) else REFUSED)
  {
    hide Identified, ValidFor, SteadyIdentity, Served, Leads, DispatchStep, ProposeStep, ApproveStep;
    CheckLeads(mode, b, answers, l, k, ExecuteApprover(record, subject));
    IdentifiedExactly(b, answers(l.asked + k), record.approval.value.subject, Approver, record.proposal.namespace,
                      Reading(answers, l, k + 1));
  }

  lemma ExecuteReviewerLeads(mode: Mode, b: Backend, answers: nat -> Answers, l: Lone, k: nat, record: ActionRecord,
                             subject: string)
    requires Served(mode, b, answers, Stand(answers, l, k, ExecuteReviewer(record, subject)))
    requires SteadyIdentity(b, record.proposer, Responder, record.proposal.namespace)
    ensures var valid := ValidFor(b, record.proposer, Responder, record.proposal.namespace, b.since);
      && (valid ==> b.directory(record.proposer).Some?)
      && Leads(mode, b, answers, l, k, ExecuteReviewer(record, subject),
               if valid then ExecuteReview(record, subject, b.directory(record.proposer).value) else REFUSED)
  {
    hide Identified, ValidFor, SteadyIdentity, Served, Leads, DispatchStep, ProposeStep, ApproveStep;
    CheckLeads(mode, b, answers, l, k, ExecuteReviewer(record, subject));
    IdentifiedExactly(b, answers(l.asked + k), record.proposer, Responder, record.proposal.namespace,
                      Reading(answers, l, k + 1));
  }

  lemma ExecuteReviewLeads(mode: Mode, b: Backend, answers: nat -> Answers, l: Lone, k: nat, record: ActionRecord,
                           subject: string)
    requires ValidFor(b, record.proposer, Responder, record.proposal.namespace, b.since)
    requires b.directory(record.proposer).Some?
    requires Served(mode, b, answers,
                    Stand(answers, l, k, ExecuteReview(record, subject, b.directory(record.proposer).value)))
    requires SteadyIdentity(b, record.proposer, Responder, record.proposal.namespace)
    requires SteadyContext(b, record.proposal)
    ensures Leads(mode, b, answers, l, k, ExecuteReview(record, subject, b.directory(record.proposer).value),
                  if Reviewable(mode, record.proposal, b)
                  then ExecuteCurrent(record, subject, Review(b.context, Reading(answers, l, k + 1))) else REFUSED)
  {
    hide Reviewed, ValidFor, SteadyIdentity, SteadyContext, Reviewable, Served, Leads, DispatchStep, ProposeStep,
      ApproveStep;
    CheckLeads(mode, b, answers, l, k, ExecuteReview(record, subject, b.directory(record.proposer).value));
    ReviewedSteadily(mode, b, answers(l.asked + k), record.proposal, record.proposer, Reading(answers, l, k + 1));
  }

  lemma ExecuteCurrentLeads(mode: Mode, b: Backend, answers: nat -> Answers, l: Lone, k: nat, record: ActionRecord,
                            subject: string, review: Review)
    requires Served(mode, b, answers, Stand(answers, l, k, ExecuteCurrent(record, subject, review)))
    requires SteadyWindow(b, record.approval) && InWindow(record.approval, b.since)
    ensures Leads(mode, b, answers, l, k, ExecuteCurrent(record, subject, review), Claim(record, subject, review))
  {
    hide InWindow, Served, Leads, DispatchStep, ProposeStep, ApproveStep;
    CheckLeads(mode, b, answers, l, k, ExecuteCurrent(record, subject, review));
    assert InWindow(record.approval, Reading(answers, l, k + 1));
  }

  function Claimed(record: ActionRecord, subject: string, now: int): ActionRecord {
    After(record, Dispatching(subject), now)
  }

  lemma ClaimIsConsistent(r: ActionRecord, subject: string, now: int)
    requires Consistent(r) && r.state == Approved
    ensures Consistent(Claimed(r, subject, now)) && Executing in Allowed(r.state) && r.approval.Some?
  {
  }

  lemma ClaimIsStored(t: Tables, record: ActionRecord, subject: string, now: int)
    requires GoodTables(t) && record.id in t.actions && t.actions[record.id] == record && record.state == Approved
    ensures var (c, r) := (Dispatching(subject), Claimed(record, subject, now));
      && TransitionReply(t, record, c, now) == Stored(r)
      && Transitioned(t, record, c, now) == Recorded(t, r, subject, Dispatch)
      && GoodTables(Recorded(t, r, subject, Dispatch))
  {
    hide GoodTables, TransitionReply, Transitioned, Consistent, Allowed, Audited;
    StoredUnderItsDigest(t, record.id);
    ClaimIsConsistent(record, subject, now);
    ChangeIsStored(t, record, Dispatching(subject), now);
    TransitionKeeps(t, record, Dispatching(subject), now);
  }

  lemma ServedOn(mode: Mode, b: Backend, answers: nat -> Answers, l: Lone)
    requires Served(mode, b, answers, l) && !l.pc.Returned?
    ensures Served(mode, b, answers, LoneStep(mode, answers, l))
  {
    hide LoneStep, ServedHere;
  }

  /** A claim on the stored, approved record is won, and the call goes on with the claimed record. */
  lemma ClaimLeads(mode: Mode, b: Backend, answers: nat -> Answers, l: Lone, k: nat, record: ActionRecord,
                   subject: string, review: Review)
    requires Served(mode, b, answers, Stand(answers, l, k, Claim(record, subject, review)))
    requires GoodTables(l.tables) && record.id in l.tables.actions && l.tables.actions[record.id] == record
    requires record.state == Approved
    ensures var r := Claimed(record, subject, Reading(answers, l, k + 1));
      var l2 := Stand(answers, l, k + 1, DispatchExecutor(r, subject, review))
                .(tables := Recorded(l.tables, r, subject, Dispatch));
      && ToTheEnd(mode, answers, Stand(answers, l, k, Claim(record, subject, review))) == ToTheEnd(mode, answers, l2)
      && Served(mode, b, answers, l2) && GoodTables(l2.tables)
  {
    hide ToTheEnd, Served, GoodTables, TransitionReply, Transitioned, Recorded, Claimed;
    var here := Stand(answers, l, k, Claim(record, subject, review));
    ClaimIsStored(l.tables, record, subject, Reading(answers, l, k + 1));
    ServedOn(mode, b, answers, here);
    Onward(mode, answers, here);
  }

  /**
   How an execution that acts ends: the claim and then the terminal record are stored, and the effect is performed.
   */
  ghost predicate Executes(mode: Mode, b: Backend, answers: nat -> Answers, l: Lone, end: Lone, before: ActionRecord,
                           subject: string) {
    var (r, review) := (Claimed(before, subject, Reading(answers, l, 8)), Review(b.context, Reading(answers, l, 6)));
    && r.approval.Some?
    && Performs(mode, b, l, end, r, subject, review, Reading(answers, l, 12))
    && StoresTerminal(Recorded(l.tables, r, subject, Dispatch), end, Outcome(r, subject, answers(l.asked + 14).effect))
    && end.clock == Reading(answers, l, 16)
  }

  lemma RecordedIsStored(t: Tables, r: ActionRecord, actor: string, reason: Why)
    ensures r.id in Recorded(t, r, actor, reason).actions && Recorded(t, r, actor, reason).actions[r.id] == r
  {
  }

  lemma SteadyOverReview(mode: Mode, b: Backend, record: ActionRecord, r: ActionRecord, subject: string, review: Review)
    requires MayExecute(mode, b, record, subject) && SteadyExecution(b, record, subject) && b.since <= b.until
    requires review.context == b.context && r.proposal == record.proposal && r.proposer == record.proposer
    requires r.approval == record.approval
    ensures review.context.report.Some?
    ensures SteadyDispatch(b, r, subject, review) && MayDispatch(b, r, subject, review)
  {
    hide ValidFor, SteadyIdentity, SteadyContext, SteadyWindow, InWindow, Deadline, Reviewable;
    MayReviewUntilDeadline(mode, b, record.proposal);
  }

  lemma SamePerformed(mode: Mode, b: Backend, l: Lone, l2: Lone, end: Lone, record: ActionRecord, subject: string,
                      review: Review, now: int)
    requires record.approval.Some? && l2.executed == l.executed
    ensures Performs(mode, b, l, end, record, subject, review, now) <==>
      Performs(mode, b, l2, end, record, subject, review, now)
  {
  }

  lemma DispatchAfterClaim(mode: Mode, b: Backend, answers: nat -> Answers, l: Lone, l2: Lone, record: ActionRecord,
                           subject: string)
    requires MayExecute(mode, b, record, subject) && SteadyExecution(b, record, subject) && b.since <= b.until
    requires l2.clock == Reading(answers, l, 8) && l2.asked == l.asked + 8 && l2.executed == l.executed
    requires var r := Claimed(record, subject, Reading(answers, l, 8));
      && l2.pc == DispatchExecutor(r, subject, Review(b.context, Reading(answers, l, 6)))
      && l2.tables == Recorded(l.tables, r, subject, Dispatch)
    requires GoodTables(l2.tables) && Served(mode, b, answers, l2)
    ensures Executes(mode, b, answers, l, ToTheEnd(mode, answers, l2), record, subject)
  {
    hide ToTheEnd, Served, GoodTables, Reading, PeopleValid, InWindow, Reviewable, Outcome, StoresTerminal, Performs,
      SteadyExecution, SteadyDispatch, MayDispatch, Recorded;
    var (review, r) := (Review(b.context, Reading(answers, l, 6)), Claimed(record, subject, Reading(answers, l, 8)));
    SteadyOverReview(mode, b, record, r, subject, review);
    RecordedIsStored(l.tables, r, subject, Dispatch);
    DispatchIsStored(mode, b, answers, l2, r, subject, review);
    ReadingShifts(answers, l, l2, 8, 4);
    ReadingShifts(answers, l, l2, 8, 8);
    SamePerformed(mode, b, l, l2, ToTheEnd(mode, answers, l2), r, subject, review, Reading(answers, l, 12));
  }

  lemma ClaimEnds(mode: Mode, b: Backend, answers: nat -> Answers, l: Lone, record: ActionRecord, subject: string)
    requires MayExecute(mode, b, record, subject) && SteadyExecution(b, record, subject) && b.since <= b.until
    requires var review := Review(b.context, Reading(answers, l, 6));
      Served(mode, b, answers, Stand(answers, l, 7, Claim(record, subject, review)))
    requires GoodTables(l.tables) && record.id in l.tables.actions && l.tables.actions[record.id] == record
    ensures var review := Review(b.context, Reading(answers, l, 6));
      var end := ToTheEnd(mode, answers, Stand(answers, l, 7, Claim(record, subject, review)));
      Executes(mode, b, answers, l, end, record, subject)
  {
    hide ToTheEnd, Served, GoodTables, Reading, PeopleValid, InWindow, Reviewable, SteadyExecution, Executes,
      Recorded, Claimed;
    var (review, r) := (Review(b.context, Reading(answers, l, 6)), Claimed(record, subject, Reading(answers, l, 8)));
    ClaimLeads(mode, b, answers, l, 7, record, subject, review);
    var l2 := Stand(answers, l, 8, DispatchExecutor(r, subject, review))
              .(tables := Recorded(l.tables, r, subject, Dispatch));
    DispatchAfterClaim(mode, b, answers, l, l2, record, subject);
  }

  lemma ExecuteReviewedEnds(mode: Mode, b: Backend, answers: nat -> Answers, l: Lone, record: ActionRecord,
                            subject: string)
    requires record.state == Approved && record.approval.Some? && InWindow(record.approval, b.since)
    requires b.since <= b.until
    requires ValidFor(b, subject, Executor, record.proposal.namespace, b.since) && SteadyExecution(b, record, subject)
    requires Served(mode, b, answers, Stand(answers, l, 3, ExecuteApprover(record, subject)))
    requires GoodTables(l.tables) && record.id in l.tables.actions && l.tables.actions[record.id] == record
    ensures var end := ToTheEnd(mode, answers, Stand(answers, l, 3, ExecuteApprover(record, subject)));
      if MayExecute(mode, b, record, subject) then Executes(mode, b, answers, l, end, record, subject)
      else Refused(l, end)
  {
    hide ToTheEnd, Served, GoodTables, Reading, ValidFor, SteadyIdentity, SteadyContext, SteadyWindow, InWindow,
      Reviewable, Executes;
    var (ns, human) := (record.proposal.namespace, record.approval.value.subject);
    ExecuteApproverLeads(mode, b, answers, l, 3, record, subject);
    if ValidFor(b, human, Approver, ns, b.since) {
      ExecuteReviewerLeads(mode, b, answers, l, 4, record, subject);
      if ValidFor(b, record.proposer, Responder, ns, b.since) {
        ExecuteReviewLeads(mode, b, answers, l, 5, record, subject);
        if Reviewable(mode, record.proposal, b) {
          ExecuteCurrentLeads(mode, b, answers, l, 6, record, subject, Review(b.context, Reading(answers, l, 6)));
          ClaimEnds(mode, b, answers, l, record, subject);
        }
      }
    }
  }

  /**
   An undisturbed execution over a steady period. When it may execute, the action is claimed, performed once under
   three identities of one instant, and ends as the stored terminal record of the backend's answer. An executor of an
   action already claimed is shown its record. Otherwise nothing is written and nothing performed.
   */
  lemma ExecutionIsPerformedExactly(modes: nat -> Mode, s: State, w: nat, b: Backend, answers: nat -> Answers,
                                    asked: nat, id: ActionId, subject: string)
    requires Inv(modes, s) && w in s.workers && s.workers[w] == ExecuteRead(id, subject)
    requires Served(modes(w), b, answers, AsLone(s, w, asked)) && b.since <= b.until
    requires id in s.tables.actions ==> SteadyExecution(b, s.tables.actions[id], subject)
    ensures id !in s.tables.actions ==> Misses(modes(w), answers, AsLone(s, w, asked))
    ensures id in s.tables.actions ==>
      var (l, before) := (AsLone(s, w, asked), s.tables.actions[id]);
      var end := ToTheEnd(modes(w), answers, l);
      if MayExecute(modes(w), b, before, subject) then Executes(modes(w), b, answers, l, end, before, subject)
      else if MayLearn(modes(w), b, before, subject) then
        end.tables == s.tables && end.executed == s.executed && end.pc == Returned(Stored(before))
      else Refused(l, end)
  {
    hide ToTheEnd, Served, GoodWorker, GoodEffects, Exclusive, ValidFor, SteadyIdentity, SteadyPeople, SteadyContext,
      SteadyWindow, InWindow, Reading, Consistent, GoodTables, Executes;
    var (mode, l) := (modes(w), AsLone(s, w, asked));
    StandsAtStart(answers, l);
    ReadLeads(mode, b, answers, l, id, subject);
    if id !in s.tables.actions {
      return;
    }
    var before := s.tables.actions[id];
    StoredUnderItsDigest(s.tables, id);
    ExecuteIdentityLeads(mode, b, answers, l, 1, before, subject);
    if ValidFor(b, subject, Executor, before.proposal.namespace, b.since) && before.proposal.mode == mode
       && before.state !in {Executing, Succeeded, Failed, Unknown}
    {
      ExecuteWindowLeads(mode, b, answers, l, 2, before, subject);
      if before.state == Approved && InWindow(before.approval, b.since) {
        OpenIsGiven(before.approval, b.since);
        ExecuteReviewedEnds(mode, b, answers, l, before, subject);
      }
    }
  }

  lemma OpenIsGiven(approval: Option<Approval>, now: int)
    ensures InWindow(approval, now) ==> approval.Some?
  {
  }
}
