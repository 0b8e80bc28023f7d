/**
 Remediation workers as interleaved micro-steps. Every clock reading, every answer of the trusted backend and
 every database transaction of `propose`, `approve` and `execute` is one step, so any other worker may act in
 between, and a worker may die after any step. The clock is one monotone clock for all of them.
 */
module Broker {
  import opened Records
  import opened Policy
  import opened ActionStore

  datatype Call = Propose(action: Action, subject: string) | Approve(id: ActionId, subject: string)
                | Execute(id: ActionId, subject: string)

  /** The context a review passed on, and when. */
  datatype Review = Review(context: PolicyContext, at: int)

  /** The identities held at dispatch and the instant they were checked together. */
  datatype Authority = Authority(now: int, executor: Principal, approver: Principal, responder: Principal)

  /** Where a worker stands: the call it is about to make, with what it has learned. */
  datatype Pc =
    | ProposeIdentity(action: Action, subject: string)
    | ProposeReview(action: Action, subject: string, principal: Principal)
    | ProposeWrite(action: Action, subject: string)
    | ApproveRead(id: ActionId, subject: string)
    | ApproveIdentity(record: ActionRecord, subject: string)
    | ApproveReviewer(record: ActionRecord, subject: string)
    | ApproveReview(record: ActionRecord, subject: string, principal: Principal)
    | ApproveAgain(record: ActionRecord, subject: string, deadline: int)
    | ApproveClock(record: ActionRecord, subject: string, deadline: int)
    | ApproveWrite(record: ActionRecord, subject: string, approval: Approval)
    | ExecuteRead(id: ActionId, subject: string)
    | ExecuteIdentity(record: ActionRecord, subject: string)
    | ExecuteWindow(record: ActionRecord, subject: string)
    | ExecuteApprover(record: ActionRecord, subject: string)
    | ExecuteReviewer(record: ActionRecord, subject: string)
    | ExecuteReview(record: ActionRecord, subject: string, principal: Principal)
    | ExecuteCurrent(record: ActionRecord, subject: string, review: Review)
    | Claim(record: ActionRecord, subject: string, review: Review)
    | DispatchExecutor(record: ActionRecord, subject: string, review: Review)
    | DispatchApprover(record: ActionRecord, subject: string, review: Review, executor: Principal)
    | DispatchResponder(record: ActionRecord, subject: string, review: Review, executor: Principal, approver: Principal)
    | DispatchInstant(record: ActionRecord, subject: string, review: Review, executor: Principal, approver: Principal,
                      responder: Principal)
    | DispatchCurrent(record: ActionRecord, subject: string, review: Review, authority: Authority)
    | DispatchDeadline(record: ActionRecord, subject: string, review: Review, authority: Authority)
    | Effect(record: ActionRecord, subject: string, review: Review, authority: Authority)
    | Terminal(record: ActionRecord, change: Change)
    | Returned(reply: StoreReply)

  /** The backend's answers to one step; a step uses at most one of them. */
  datatype Answers = Answers(wait: nat, principal: Option<Principal>, context: PolicyContext,
                             effect: Option<EffectReceipt>)

  /** A call of `backend.execute`, as the outside world saw it. */
  datatype Executed = Executed(mode: Mode, record: ActionRecord, subject: string, review: Review, authority: Authority)

  // ----- one step of one worker

  function Identified(a: Answers, subject: string, role: Role, namespace: string, now: int): (p: Option<Principal>)
    ensures p.Some? ==> p.value.subject == subject && IdentityValid(p, role, namespace, now)
  {
    if IdentityValid(a.principal, role, namespace, now) && a.principal.value.subject == subject then a.principal
    else None
  }

  function Reviewed(mode: Mode, action: Action, principal: Principal, a: Answers, now: int): (r: Option<Review>)
    ensures r.Some? ==> action.mode == mode && Evaluate(action, Some(principal), r.value.context, r.value.at).None?
    ensures r.Some? ==> r.value == Review(a.context, now) && r.value.context.report.Some?
  {
    if action.mode != mode || Evaluate(action, Some(principal), a.context, now).Some? then None
    else
      ReviewedExactly(action, Some(principal), a.context, now);
      Some(Review(a.context, now))
  }

  predicate InWindow(approval: Option<Approval>, now: int) {
    approval.Some? && approval.value.approvedAt <= now < approval.value.expiresAt
  }

  const REFUSED := Returned(Denied)

  function ProposeStep(mode: Mode, pc: Pc, a: Answers, now: int): Pc {
    match pc
    case ProposeIdentity(action, subject) =>
      var p := Identified(a, subject, Responder, action.namespace, now);
      if p.None? then REFUSED else ProposeReview(action, subject, p.value)
    case ProposeReview(action, subject, principal) =>
      if Reviewed(mode, action, principal, a, now).None? then REFUSED else ProposeWrite(action, subject)
    case _ => pc
  }

  function ApproveStep(mode: Mode, pc: Pc, a: Answers, now: int): Pc {
    match pc
    case ApproveIdentity(record, subject) =>
      if Identified(a, subject, Approver, record.proposal.namespace, now).None? then REFUSED
      else if subject == record.proposer || record.state != Proposed then REFUSED
      else ApproveReviewer(record, subject)
    case ApproveReviewer(record, subject) =>
      var p := Identified(a, record.proposer, Responder, record.proposal.namespace, now);
      if p.None? then REFUSED else ApproveReview(record, subject, p.value)
    case ApproveReview(record, subject, principal) =>
      var review := Reviewed(mode, record.proposal, principal, a, now);
      if review.None? then REFUSED
      else ApproveAgain(record, subject, Deadline(record.proposal, review.value.context))
    case ApproveAgain(record, subject, deadline) =>
      if Identified(a, subject, Approver, record.proposal.namespace, now).None? then REFUSED
      else ApproveClock(record, subject, deadline)
    case ApproveClock(record, subject, deadline) =>
      if now > deadline then REFUSED
      else ApproveWrite(record, subject, Approval(subject, record.id, now, now + 300 * SECOND))
    case _ => pc
  }

  function ExecuteStep(mode: Mode, pc: Pc, a: Answers, now: int): Pc {
    match pc
    case ExecuteIdentity(record, subject) =>
      if Identified(a, subject, Executor, record.proposal.namespace, now).None? || record.proposal.mode != mode
      then REFUSED
      else if record.state in {Executing, Succeeded, Failed, Unknown} then Returned(Stored(record))
      else ExecuteWindow(record, subject)
    case ExecuteWindow(record, subject) =>
      if record.state != Approved || !InWindow(record.approval, now) then REFUSED else ExecuteApprover(record, subject)
    case ExecuteApprover(record, subject) =>
      if record.approval.None?
         || Identified(a, record.approval.value.subject, Approver, record.proposal.namespace, now).None?
      then REFUSED else ExecuteReviewer(record, subject)
    case ExecuteReviewer(record, subject) =>
      var p := Identified(a, record.proposer, Responder, record.proposal.namespace, now);
      if p.None? then REFUSED else ExecuteReview(record, subject, p.value)
    case ExecuteReview(record, subject, principal) =>
      var review := Reviewed(mode, record.proposal, principal, a, now);
      if review.None? then REFUSED else ExecuteCurrent(record, subject, review.value)
    case ExecuteCurrent(record, subject, review) =>
      if !InWindow(record.approval, now) then REFUSED else Claim(record, subject, review)
    case _ => pc
  }

  /** A refusal after the claim is a recorded failure, not an exception. */
  function Refusal(record: ActionRecord, subject: string): (p: Pc)
    ensures p.Terminal? && p.record == record
  {
    Terminal(record, Change(Failed, subject, AuthorityDenied, None,
                            Some(EffectReceipt(false, record.proposal.uid, record.proposal.version))))
  }

  function Outcome(record: ActionRecord, subject: string, effect: Option<EffectReceipt>): (p: Pc)
    ensures p.Terminal? && p.record == record
  {
    if effect.None? || (effect.value.uid, effect.value.previous) != (record.proposal.uid, record.proposal.version)
    then Terminal(record, Change(Unknown, subject, ResultUnknown, None, None))
    else
      var state := if effect.value.succeeded then Succeeded else Failed;
      Terminal(record, Change(state, subject, ExecutorResult, None, effect))
  }

  function DispatchStep(pc: Pc, a: Answers, now: int): Pc {
    match pc
    case DispatchExecutor(record, subject, review) =>
      var p := Identified(a, subject, Executor, record.proposal.namespace, now);
      if p.None? then Refusal(record, subject) else DispatchApprover(record, subject, review, p.value)
    case DispatchApprover(record, subject, review, executor) =>
      var p := if record.approval.None? then None
               else Identified(a, record.approval.value.subject, Approver, record.proposal.namespace, now);
      if p.None? then Refusal(record, subject) else DispatchResponder(record, subject, review, executor, p.value)
    case DispatchResponder(record, subject, review, executor, approver) =>
      var p := Identified(a, record.proposer, Responder, record.proposal.namespace, now);
      if p.None? then Refusal(record, subject)
      else DispatchInstant(record, subject, review, executor, approver, p.value)
    case DispatchInstant(record, subject, review, executor, approver, responder) =>
      var ns := record.proposal.namespace;
      if IdentityValid(Some(executor), Executor, ns, now) && IdentityValid(Some(approver), Approver, ns, now)
         && IdentityValid(Some(responder), Responder, ns, now)
      then DispatchCurrent(record, subject, review, Authority(now, executor, approver, responder))
      else Refusal(record, subject)
    case DispatchCurrent(record, subject, review, authority) =>
      if !InWindow(record.approval, now) then Refusal(record, subject)
      else DispatchDeadline(record, subject, review, authority)
    case DispatchDeadline(record, subject, review, authority) =>
      if review.context.report.None? || now > Deadline(record.proposal, review.context) then Refusal(record, subject)
      else Effect(record, subject, review, authority)
    case Effect(record, subject, _, _) => Outcome(record, subject, a.effect)
    case _ => pc
  }

  predicate InProposal(pc: Pc) {
    pc.ProposeIdentity? || pc.ProposeReview?
  }

  predicate InApproval(pc: Pc) {
    pc.ApproveIdentity? || pc.ApproveReviewer? || pc.ApproveReview? || pc.ApproveAgain? || pc.ApproveClock?
  }

  predicate InExecution(pc: Pc) {
    pc.ExecuteIdentity? || pc.ExecuteWindow? || pc.ExecuteApprover? || pc.ExecuteReviewer? || pc.ExecuteReview?
    || pc.ExecuteCurrent?
  }

  predicate InDispatch(pc: Pc) {
    pc.DispatchExecutor? || pc.DispatchApprover? || pc.DispatchResponder? || pc.DispatchInstant? || pc.DispatchCurrent?
    || pc.DispatchDeadline? || pc.Effect?
  }

  function LocalStep(mode: Mode, pc: Pc, a: Answers, now: int): Pc {
    if InProposal(pc) then ProposeStep(mode, pc, a, now)
    else if InApproval(pc) then ApproveStep(mode, pc, a, now)
    else if InExecution(pc) then ExecuteStep(mode, pc, a, now)
    else if InDispatch(pc) then DispatchStep(pc, a, now)
    else pc
  }

  predicate Transacts(pc: Pc) {
    pc.ProposeWrite? || pc.ApproveRead? || pc.ApproveWrite? || pc.ExecuteRead? || pc.Claim? || pc.Terminal?
  }

  function NewRecord(action: Action, subject: string, now: int): ActionRecord {
    ActionRecord(DigestOf(action), action, subject, Proposed, 0, now, now, None, None)
  }

  function Dispatching(subject: string): Change {
    Change(Executing, subject, Dispatch, None, None)
  }

  function Approving(subject: string, approval: Approval): Change {
    Change(Approved, subject, HumanApproved, Some(approval), None)
  }

  function Transacted(t: Tables, pc: Pc, now: int): (Tables, Pc)
    requires Transacts(pc)
  {
    match pc
    case ProposeWrite(action, subject) =>
      var r := NewRecord(action, subject, now);
      (Created(t, r), Returned(CreateReply(t, r)))
    case ApproveRead(id, subject) =>
      (t, if id in t.actions then ApproveIdentity(t.actions[id], subject) else Returned(Missing))
    case ApproveWrite(record, subject, approval) =>
      var c := Approving(subject, approval);
      (Transitioned(t, record, c, now), Returned(TransitionReply(t, record, c, now)))
    case ExecuteRead(id, subject) =>
      (t, if id in t.actions then ExecuteIdentity(t.actions[id], subject) else Returned(Missing))
    case Claim(record, subject, review) =>
      var reply := TransitionReply(t, record, Dispatching(subject), now);
      (Transitioned(t, record, Dispatching(subject), now),
       if reply.Stored? then DispatchExecutor(reply.record, subject, review) else Returned(reply))
    case Terminal(record, change) =>
      (Transitioned(t, record, change, now), Returned(TransitionReply(t, record, change, now)))
  }

  // ----- all workers

  datatype State = State(clock: int, tables: Tables, workers: map<nat, Pc>, executed: seq<Executed>)

  datatype Step = Begin(worker: nat, call: Call) | Advance(worker: nat, answers: Answers) | Crash(worker: nat)

  function Entry(call: Call): Pc {
    match call
    case Propose(action, subject) => if WellFormed(action) then ProposeIdentity(action, subject) else REFUSED
    case Approve(id, subject) => ApproveRead(id, subject)
    case Execute(id, subject) => ExecuteRead(id, subject)
  }

  /** One step; each worker is bound to the operation mode of its own process. */
  function Apply(modes: nat -> Mode, s: State, step: Step): State {
    match step
    case Begin(w, call) => if w in s.workers then s else s.(workers := s.workers[w := Entry(call)])
    case Crash(w) => s.(workers := s.workers - {w})
    case Advance(w, a) =>
      if w !in s.workers then s
      else
        var pc, now := s.workers[w], s.clock + a.wait;
        if Transacts(pc) then
          var (tables, next) := Transacted(s.tables, pc, now);
          s.(clock := now, tables := tables, workers := s.workers[w := next])
        else
          s.(clock := now, workers := s.workers[w := LocalStep(modes(w), pc, a, now)],
             executed := if pc.Effect?
                         then s.executed + [Executed(modes(w), pc.record, pc.subject, pc.review, pc.authority)]
                         else s.executed)
  }

  function Run(modes: nat -> Mode, s: State, steps: seq<Step>): State
    decreases |steps|
  {
    if steps == [] then s else Apply(modes, Run(modes, s, steps[..|steps| - 1]), steps[|steps| - 1])
  }

  /** No action, no worker, no effect yet. */
  function Idle(clock: int): State {
    State(clock, Tables(map[], map[]), map[], [])
  }
}
