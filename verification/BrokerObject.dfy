/**
 The broker as the host runs it: `propose`, `approve` and `execute` of one object over the action database and
 the trusted backend. A call performs exactly the micro-steps of one worker of the `Broker` machine.
 */
module BrokerObject {
  import opened Records
  import opened Policy
  import opened ActionStore
  import opened Broker

  /** One worker of the machine: `asked` counts the answers it has used up. */
  datatype Lone = Lone(clock: int, tables: Tables, executed: seq<Executed>, pc: Pc, asked: nat)

  function LoneStep(mode: Mode, answers: nat -> Answers, l: Lone): Lone {
    var a := answers(l.asked);
    var now := l.clock + a.wait;
    if Transacts(l.pc) then
      var (tables, next) := Transacted(l.tables, l.pc, now);
      Lone(now, tables, l.executed, next, l.asked + 1)
    else
      Lone(now, l.tables,
           if l.pc.Effect?
           then l.executed + [Executed(mode, l.pc.record, l.pc.subject, l.pc.review, l.pc.authority)]
           else l.executed,
           LocalStep(mode, l.pc, a, now), l.asked + 1)
  }

  /** A lone step is a step of the machine, whatever other workers there are. */
  lemma LoneStepIsAStep(modes: nat -> Mode, answers: nat -> Answers, l: Lone, s: State, w: nat)
    requires s.clock == l.clock && s.tables == l.tables && s.executed == l.executed && w in s.workers
    requires s.workers[w] == l.pc
    ensures var l2, s2 := LoneStep(modes(w), answers, l), Apply(modes, s, Advance(w, answers(l.asked)));
      && (s2.clock, s2.tables, s2.executed) == (l2.clock, l2.tables, l2.executed)
      && s2.workers == s.workers[w := l2.pc]
  {
    hide LocalStep, Transacted;
  }

  /** Steps a worker at this position may still take. */
  function Rank(pc: Pc): nat {
    match pc
    case ProposeIdentity(_, _) => 3 case ProposeReview(_, _, _) => 2 case ProposeWrite(_, _) => 1
    case ApproveRead(_, _) => 7 case ApproveIdentity(_, _) => 6 case ApproveReviewer(_, _) => 5
    case ApproveReview(_, _, _) => 4 case ApproveAgain(_, _, _) => 3 case ApproveClock(_, _, _) => 2
    case ApproveWrite(_, _, _) => 1
    case ExecuteRead(_, _) => 16 case ExecuteIdentity(_, _) => 15 case ExecuteWindow(_, _) => 14
    case ExecuteApprover(_, _) => 13 case ExecuteReviewer(_, _) => 12 case ExecuteReview(_, _, _) => 11
    case ExecuteCurrent(_, _, _) => 10 case Claim(_, _, _) => 9 case DispatchExecutor(_, _, _) => 8
    case DispatchApprover(_, _, _, _) => 7 case DispatchResponder(_, _, _, _, _) => 6
    case DispatchInstant(_, _, _, _, _, _) => 5 case DispatchCurrent(_, _, _, _) => 4
    case DispatchDeadline(_, _, _, _) => 3 case Effect(_, _, _, _) => 2 case Terminal(_, _) => 1
    case Returned(_) => 0
  }

  lemma ApproveRankFalls(mode: Mode, pc: Pc, a: Answers, now: int)
    requires InApproval(pc)
    ensures Rank(ApproveStep(mode, pc, a, now)) < Rank(pc)
  {
    hide Identified, Reviewed, Deadline;
  }

  lemma ExecuteRankFalls(mode: Mode, pc: Pc, a: Answers, now: int)
    requires InExecution(pc)
    ensures Rank(ExecuteStep(mode, pc, a, now)) < Rank(pc)
  {
    hide Identified, Reviewed, InWindow;
  }

  lemma DispatchRankFalls(pc: Pc, a: Answers, now: int)
    requires InDispatch(pc)
    ensures Rank(DispatchStep(pc, a, now)) < Rank(pc)
  {
    hide Identified, IdentityValid, InWindow, Deadline;
  }

  lemma TransactionRankFalls(t: Tables, pc: Pc, now: int)
    requires Transacts(pc)
    ensures Rank(Transacted(t, pc, now).1) < Rank(pc)
  {
    hide TransitionReply, Transitioned, Created, CreateReply;
  }

  lemma RankFalls(mode: Mode, answers: nat -> Answers, l: Lone)
    requires !l.pc.Returned?
    ensures Rank(LoneStep(mode, answers, l).pc) < Rank(l.pc)
  {
    hide ApproveStep, ExecuteStep, DispatchStep, Transacted, Rank, Identified, Reviewed;
    var a := answers(l.asked);
    var now := l.clock + a.wait;
    if Transacts(l.pc) {
      TransactionRankFalls(l.tables, l.pc, now);
    } else if InProposal(l.pc) {
      ProposeRankFalls(mode, l.pc, a, now);
    } else if InApproval(l.pc) {
      ApproveRankFalls(mode, l.pc, a, now);
    } else if InExecution(l.pc) {
      ExecuteRankFalls(mode, l.pc, a, now);
    } else {
      DispatchRankFalls(l.pc, a, now);
    }
  }

  lemma ProposeRankFalls(mode: Mode, pc: Pc, a: Answers, now: int)
    requires InProposal(pc)
    ensures Rank(ProposeStep(mode, pc, a, now)) < Rank(pc)
  {
    hide Identified, Reviewed;
  }

  /** The worker runs to its return. */
  function ToTheEnd(mode: Mode, answers: nat -> Answers, l: Lone): (r: Lone)
    ensures r.pc.Returned?
    decreases Rank(l.pc)
  {
    if l.pc.Returned? then l
    else
      RankFalls(mode, answers, l);
      ToTheEnd(mode, answers, LoneStep(mode, answers, l))
  }

  /** One step further, the call ends the same way; once returned, it has ended. */
  lemma Onward(mode: Mode, answers: nat -> Answers, l: Lone)
    requires !l.pc.Returned?
    ensures var next := LoneStep(mode, answers, l);
      && ToTheEnd(mode, answers, l) == ToTheEnd(mode, answers, next)
      && (next.pc.Returned? ==> ToTheEnd(mode, answers, l) == next)
  {
    hide LoneStep;
  }

  lemma Over(mode: Mode, answers: nat -> Answers, l: Lone)
    requires l.pc.Returned?
    ensures ToTheEnd(mode, answers, l) == l
  {
  }

  lemma ProposeTurn(mode: Mode, answers: nat -> Answers, l: Lone)
    requires InProposal(l.pc)
    ensures var a := answers(l.asked);
      var next := Lone(l.clock + a.wait, l.tables, l.executed, ProposeStep(mode, l.pc, a, l.clock + a.wait),
                       l.asked + 1);
      && ToTheEnd(mode, answers, l) == ToTheEnd(mode, answers, next)
      && (next.pc.Returned? ==> ToTheEnd(mode, answers, l) == next)
  {
    hide ProposeStep, ApproveStep, ExecuteStep, DispatchStep, ToTheEnd;
    Onward(mode, answers, l);
  }

  lemma ApproveTurn(mode: Mode, answers: nat -> Answers, l: Lone)
    requires InApproval(l.pc)
    ensures var a := answers(l.asked);
      var next := Lone(l.clock + a.wait, l.tables, l.executed, ApproveStep(mode, l.pc, a, l.clock + a.wait),
                       l.asked + 1);
      && ToTheEnd(mode, answers, l) == ToTheEnd(mode, answers, next)
      && (next.pc.Returned? ==> ToTheEnd(mode, answers, l) == next)
  {
    hide ProposeStep, ApproveStep, ExecuteStep, DispatchStep, ToTheEnd;
    Onward(mode, answers, l);
  }

  lemma ExecuteTurn(mode: Mode, answers: nat -> Answers, l: Lone)
    requires InExecution(l.pc)
    ensures var a := answers(l.asked);
      var next := Lone(l.clock + a.wait, l.tables, l.executed, ExecuteStep(mode, l.pc, a, l.clock + a.wait),
                       l.asked + 1);
      && ToTheEnd(mode, answers, l) == ToTheEnd(mode, answers, next)
      && (next.pc.Returned? ==> ToTheEnd(mode, answers, l) == next)
  {
    hide ProposeStep, ApproveStep, ExecuteStep, DispatchStep, ToTheEnd;
    Onward(mode, answers, l);
  }

  lemma DispatchTurn(mode: Mode, answers: nat -> Answers, l: Lone)
    requires InDispatch(l.pc) && !l.pc.Effect?
    ensures var a := answers(l.asked);
      var next := Lone(l.clock + a.wait, l.tables, l.executed, DispatchStep(l.pc, a, l.clock + a.wait), l.asked + 1);
      && ToTheEnd(mode, answers, l) == ToTheEnd(mode, answers, next)
      && (next.pc.Returned? ==> ToTheEnd(mode, answers, l) == next)
  {
    hide ProposeStep, ApproveStep, ExecuteStep, DispatchStep, ToTheEnd;
    Onward(mode, answers, l);
  }

  lemma TransactionTurn(mode: Mode, answers: nat -> Answers, l: Lone)
    requires Transacts(l.pc)
    ensures var a := answers(l.asked);
      var (tables, pc) := Transacted(l.tables, l.pc, l.clock + a.wait);
      var next := Lone(l.clock + a.wait, tables, l.executed, pc, l.asked + 1);
      && ToTheEnd(mode, answers, l) == ToTheEnd(mode, answers, next)
      && (next.pc.Returned? ==> ToTheEnd(mode, answers, l) == next)
  {
    hide Transacted;
    Onward(mode, answers, l);
  }

  class TrustedBackend {
    const answers: nat -> Answers
    var asked: nat
    var clock: int
    var executed: seq<Executed>

    constructor (answers: nat -> Answers, clock: int)
      ensures this.answers == answers && asked == 0 && this.clock == clock && executed == []
    {
      this.answers, asked, this.clock, executed := answers, 0, clock, [];
    }

    /** Time passes, and one question is answered. */
    method Ask() returns (a: Answers)
      modifies this`asked, this`clock
      ensures a == answers(old(asked)) && asked == old(asked) + 1 && clock == old(clock) + a.wait
    {
      a := answers(asked);
      asked, clock := asked + 1, clock + a.wait;
    }

    method Execute(mode: Mode, record: ActionRecord, subject: string, review: Review, authority: Authority)
      returns (effect: Option<EffectReceipt>)
      modifies this
      ensures asked == old(asked) + 1 && clock == old(clock) + answers(old(asked)).wait
      ensures executed == old(executed) + [Executed(mode, record, subject, review, authority)]
      ensures effect == answers(old(asked)).effect
    {
      var a := Ask();
      executed := executed + [Executed(mode, record, subject, review, authority)];
      effect := a.effect;
    }
  }

  class RemediationBroker {
    const mode: Mode
    const store: Database
    const backend: TrustedBackend

    constructor (mode: Mode, store: Database, backend: TrustedBackend)
      ensures this.mode == mode && this.store == store && this.backend == backend
    {
      this.mode, this.store, this.backend := mode, store, backend;
    }

    /** This object's state as a worker at position `pc`. */
    ghost function At(pc: Pc): Lone
      reads store, backend
    {
      Lone(backend.clock, store.Contents(), backend.executed, pc, backend.asked)
    }

    method Identity(subject: string, role: Role, namespace: string) returns (p: Option<Principal>)
      modifies backend`asked, backend`clock
      ensures backend.asked == old(backend.asked) + 1
      ensures var a := backend.answers(old(backend.asked));
        backend.clock == old(backend.clock) + a.wait && p == Identified(a, subject, role, namespace, backend.clock)
    {
      var a := backend.Ask();
      var valid := IdentityValid(a.principal, role, namespace, backend.clock);
      if !valid || a.principal.value.subject != subject {
        return None;
      }
      p := a.principal;
    }

    /** The context half of `_review`, after the identity half. */
    method ReviewContext(action: Action, principal: Principal) returns (review: Option<Review>)
      modifies backend`asked, backend`clock
      ensures backend.asked == old(backend.asked) + 1
      ensures var a := backend.answers(old(backend.asked));
        backend.clock == old(backend.clock) + a.wait && review == Reviewed(mode, action, principal, a, backend.clock)
    {
      hide Evaluate;
      var a := backend.Ask();
      if action.mode != mode {
        return None;
      }
      var failure := Evaluate(action, Some(principal), a.context, backend.clock);
      if failure.Some? {
        return None;
      }
      review := Some(Review(a.context, backend.clock));
    }

    method Propose(action: Action, subject: string) returns (reply: StoreReply)
      modifies store, backend
      ensures At(Returned(reply)) == ToTheEnd(mode, backend.answers,
                                              old(At(Broker.Entry(Call.Propose(action, subject)))))
    {
      hide WellFormed, ToTheEnd;
      if !WellFormed(action) {
        Over(mode, backend.answers, At(REFUSED));
        return Denied;
      }
      reply := ProposeParsed(action, subject);
    }

    method ProposeParsed(action: Action, subject: string) returns (reply: StoreReply)
      modifies store, backend
      ensures At(Returned(reply)) == ToTheEnd(mode, backend.answers, old(At(ProposeIdentity(action, subject))))
    {
      hide LocalStep, Identified, Transacted, LoneStep, ToTheEnd;
      ghost var l := At(ProposeIdentity(action, subject));
      var principal := Identity(subject, Responder, action.namespace);
      ProposeTurn(mode, backend.answers, l);
      if principal.None? {
        return Denied;
      }
      reply := ProposeInContext(action, subject, principal.value);
    }

    method ProposeInContext(action: Action, subject: string, principal: Principal) returns (reply: StoreReply)
      modifies store, backend
      ensures At(Returned(reply)) == ToTheEnd(mode, backend.answers, old(At(ProposeReview(action, subject, principal))))
    {
      hide LocalStep, Reviewed, Evaluate, Transacted, LoneStep, ToTheEnd;
      ghost var l := At(ProposeReview(action, subject, principal));
      var review := ReviewContext(action, principal);
      ProposeTurn(mode, backend.answers, l);
      if review.None? {
        return Denied;
      }
      reply := ProposeReviewed(action, subject);
    }

    method ProposeReviewed(action: Action, subject: string) returns (reply: StoreReply)
      modifies store, backend
      ensures At(Returned(reply)) == ToTheEnd(mode, backend.answers, old(At(ProposeWrite(action, subject))))
    {
      hide LocalStep, CreateReply, Created, ToTheEnd, LoneStep;
      ghost var l := At(ProposeWrite(action, subject));
      var _ := backend.Ask();
      reply := store.Create(NewRecord(action, subject, backend.clock));
      TransactionTurn(mode, backend.answers, l);
    }

    method Approve(id: ActionId, subject: string) returns (reply: StoreReply)
      modifies store, backend
      ensures At(Returned(reply)) == ToTheEnd(mode, backend.answers, old(At(ApproveRead(id, subject))))
    {
      hide LocalStep, Identified, ToTheEnd, LoneStep;
      ghost var l := At(ApproveRead(id, subject));
      var _ := backend.Ask();
      var read := store.Get(id);
      TransactionTurn(mode, backend.answers, l);
      if !read.Stored? {
        return read;
      }
      var record := read.record;
      l := At(ApproveIdentity(record, subject));
      var approver := Identity(subject, Approver, record.proposal.namespace);
      ApproveTurn(mode, backend.answers, l);
      if approver.None? || subject == record.proposer || record.state != Proposed {
        return Denied;
      }
      reply := ApproveProposed(record, subject);
    }

    method ApproveProposed(record: ActionRecord, subject: string) returns (reply: StoreReply)
      modifies store, backend
      ensures At(Returned(reply)) == ToTheEnd(mode, backend.answers, old(At(ApproveReviewer(record, subject))))
    {
      hide LocalStep, Identified, Reviewed, Deadline, ToTheEnd, LoneStep;
      ghost var l := At(ApproveReviewer(record, subject));
      var responder := Identity(record.proposer, Responder, record.proposal.namespace);
      ApproveTurn(mode, backend.answers, l);
      if responder.None? {
        return Denied;
      }
      reply := ApproveInContext(record, subject, responder.value);
    }

    method ApproveInContext(record: ActionRecord, subject: string, responder: Principal) returns (reply: StoreReply)
      modifies store, backend
      ensures At(Returned(reply)) == ToTheEnd(mode, backend.answers, old(At(ApproveReview(record, subject, responder))))
    {
      hide LocalStep, Reviewed, Evaluate, Deadline, ToTheEnd, LoneStep, Transacted;
      ghost var l := At(ApproveReview(record, subject, responder));
      var review := ReviewContext(record.proposal, responder);
      ApproveTurn(mode, backend.answers, l);
      if review.None? {
        return Denied;
      }
      var deadline := ReviewDeadline(record.proposal, review.value.context);
      reply := ApproveReviewed(record, subject, deadline);
    }

    method ApproveReviewed(record: ActionRecord, subject: string, deadline: int) returns (reply: StoreReply)
      modifies store, backend
      ensures At(Returned(reply)) == ToTheEnd(mode, backend.answers, old(At(ApproveAgain(record, subject, deadline))))
    {
      hide LocalStep, Identified, Transacted, ToTheEnd, LoneStep;
      ghost var l := At(ApproveAgain(record, subject, deadline));
      var approver := Identity(subject, Approver, record.proposal.namespace);
      ApproveTurn(mode, backend.answers, l);
      if approver.None? {
        return Denied;
      }
      l := At(ApproveClock(record, subject, deadline));
      var _ := backend.Ask();
      var now := backend.clock;
      ApproveTurn(mode, backend.answers, l);
      if now > deadline {
        return Denied;
      }
      var approval := Approval(subject, record.id, now, now + 300 * SECOND);
      reply := ApproveNow(record, subject, approval);
    }

    method ApproveNow(record: ActionRecord, subject: string, approval: Approval) returns (reply: StoreReply)
      modifies store, backend
      ensures At(Returned(reply)) == ToTheEnd(mode, backend.answers, old(At(ApproveWrite(record, subject, approval))))
    {
      hide LocalStep, TransitionReply, Transitioned, ToTheEnd, LoneStep;
      ghost var l := At(ApproveWrite(record, subject, approval));
      var _ := backend.Ask();
      reply := store.Transition(record, Approving(subject, approval), backend.clock);
      TransactionTurn(mode, backend.answers, l);
    }

    method Execute(id: ActionId, subject: string) returns (reply: StoreReply)
      modifies store, backend
      ensures At(Returned(reply)) == ToTheEnd(mode, backend.answers, old(At(ExecuteRead(id, subject))))
    {
      hide LocalStep, Identified, ToTheEnd, LoneStep;
      ghost var l := At(ExecuteRead(id, subject));
      var _ := backend.Ask();
      var read := store.Get(id);
      TransactionTurn(mode, backend.answers, l);
      if !read.Stored? {
        return read;
      }
      reply := ExecuteKnown(read.record, subject);
    }

    method ExecuteKnown(record: ActionRecord, subject: string) returns (reply: StoreReply)
      modifies store, backend
      ensures At(Returned(reply)) == ToTheEnd(mode, backend.answers, old(At(ExecuteIdentity(record, subject))))
    {
      hide LocalStep, Identified, ToTheEnd, LoneStep, Transacted;
      ghost var l := At(ExecuteIdentity(record, subject));
      var executor := Identity(subject, Executor, record.proposal.namespace);
      ExecuteTurn(mode, backend.answers, l);
      if executor.None? || record.proposal.mode != mode {
        return Denied;
      }
      if record.state in {Executing, Succeeded, Failed, Unknown} {
        return Stored(record);
      }
      l := At(ExecuteWindow(record, subject));
      var _ := backend.Ask();
      ExecuteTurn(mode, backend.answers, l);
      if record.state != Approved || !InWindow(record.approval, backend.clock) {
        return Denied;
      }
      reply := ExecuteApproved(record, subject);
    }

    method ExecuteApproved(record: ActionRecord, subject: string) returns (reply: StoreReply)
      requires record.approval.Some?
      modifies store, backend
      ensures At(Returned(reply)) == ToTheEnd(mode, backend.answers, old(At(ExecuteApprover(record, subject))))
    {
      hide LocalStep, Identified, Reviewed, InWindow, ToTheEnd, LoneStep;
      ghost var l := At(ExecuteApprover(record, subject));
      var approver := Identity(record.approval.value.subject, Approver, record.proposal.namespace);
      ExecuteTurn(mode, backend.answers, l);
      if approver.None? {
        return Denied;
      }
      l := At(ExecuteReviewer(record, subject));
      var responder := Identity(record.proposer, Responder, record.proposal.namespace);
      ExecuteTurn(mode, backend.answers, l);
      if responder.None? {
        return Denied;
      }
      reply := ExecuteInContext(record, subject, responder.value);
    }

    method ExecuteInContext(record: ActionRecord, subject: string, responder: Principal) returns (reply: StoreReply)
      requires record.approval.Some?
      modifies store, backend
      ensures At(Returned(reply)) == ToTheEnd(mode, backend.answers, old(At(ExecuteReview(record, subject, responder))))
    {
      hide LocalStep, Reviewed, Evaluate, InWindow, ToTheEnd, LoneStep, Transacted;
      ghost var l := At(ExecuteReview(record, subject, responder));
      var review := ReviewContext(record.proposal, responder);
      ExecuteTurn(mode, backend.answers, l);
      if review.None? {
        return Denied;
      }
      reply := ExecuteReviewed(record, subject, review.value);
    }

    method ExecuteReviewed(record: ActionRecord, subject: string, review: Review) returns (reply: StoreReply)
      requires record.approval.Some? && review.context.report.Some?
      modifies store, backend
      ensures At(Returned(reply)) == ToTheEnd(mode, backend.answers, old(At(ExecuteCurrent(record, subject, review))))
    {
      hide LocalStep, TransitionReply, Transitioned, InWindow, ToTheEnd, LoneStep;
      ghost var l := At(ExecuteCurrent(record, subject, review));
      var _ := backend.Ask();
      ExecuteTurn(mode, backend.answers, l);
      if !InWindow(record.approval, backend.clock) {
        return Denied;
      }
      l := At(Claim(record, subject, review));
      var _ := backend.Ask();
      var claimed := store.Transition(record, Dispatching(subject), backend.clock);
      TransactionTurn(mode, backend.answers, l);
      if !claimed.Stored? {
        return claimed;
      }
      ClaimKeepsApproval(old(store.Contents()), record, subject, backend.clock);
      reply := Dispatch(claimed.record, subject, review);
    }

    /** After the claim every ending is recorded: a denial, an ambiguous call, or the receipt. */
    method Dispatch(record: ActionRecord, subject: string, review: Review) returns (reply: StoreReply)
      requires record.approval.Some? && review.context.report.Some?
      modifies store, backend
      ensures At(Returned(reply)) == ToTheEnd(mode, backend.answers, old(At(DispatchExecutor(record, subject, review))))
    {
      hide LocalStep, TransitionReply, Transitioned, ToTheEnd, LoneStep;
      var authority := DispatchAuthority(record, subject, review);
      if authority.None? {
        reply := Record(record, Change(Failed, subject, AuthorityDenied, None,
                                       Some(EffectReceipt(false, record.proposal.uid, record.proposal.version))));
        return;
      }
      ghost var l := At(Effect(record, subject, review, authority.value));
      var effect := backend.Execute(mode, record, subject, review, authority.value);
      EffectEnds(mode, backend.answers, l);
      if effect.None? || (effect.value.uid, effect.value.previous) != (record.proposal.uid, record.proposal.version) {
        reply := Record(record, Change(Unknown, subject, ResultUnknown, None, None));
        return;
      }
      var state := if effect.value.succeeded then Succeeded else Failed;
      reply := Record(record, Change(state, subject, ExecutorResult, None, effect));
    }

    method Record(record: ActionRecord, change: Change) returns (reply: StoreReply)
      modifies store, backend
      ensures At(Returned(reply)) == ToTheEnd(mode, backend.answers, old(At(Terminal(record, change))))
    {
      hide LocalStep, TransitionReply, Transitioned, ToTheEnd, LoneStep;
      ghost var l := At(Terminal(record, change));
      var _ := backend.Ask();
      reply := store.Transition(record, change, backend.clock);
      TransactionTurn(mode, backend.answers, l);
    }

    /** `_dispatch_authority`: `None` stands for its PermissionError. */
    method DispatchAuthority(record: ActionRecord, subject: string, review: Review)
      returns (authority: Option<Authority>)
      requires record.approval.Some? && review.context.report.Some?
      modifies backend`asked, backend`clock
      ensures ToTheEnd(mode, backend.answers, old(At(DispatchExecutor(record, subject, review))))
           == ToTheEnd(mode, backend.answers,
                       At(if authority.None? then Refusal(record, subject)
                          else Effect(record, subject, review, authority.value)))
    {
      hide LocalStep, Identified, ToTheEnd, LoneStep, Refusal;
      var namespace := record.proposal.namespace;
      ghost var l := At(DispatchExecutor(record, subject, review));
      var executor := Identity(subject, Executor, namespace);
      DispatchTurn(mode, backend.answers, l);
      if executor.None? {
        return None;
      }
      authority := DispatchHumans(record, subject, review, executor.value);
    }

    method DispatchHumans(record: ActionRecord, subject: string, review: Review, executor: Principal)
      returns (authority: Option<Authority>)
      requires record.approval.Some? && review.context.report.Some?
      modifies backend`asked, backend`clock
      ensures ToTheEnd(mode, backend.answers, old(At(DispatchApprover(record, subject, review, executor))))
           == ToTheEnd(mode, backend.answers,
                       At(if authority.None? then Refusal(record, subject)
                          else Effect(record, subject, review, authority.value)))
    {
      hide LocalStep, Identified, ToTheEnd, LoneStep, Refusal, Transacted;
      var namespace := record.proposal.namespace;
      ghost var l := At(DispatchApprover(record, subject, review, executor));
      var approver := Identity(record.approval.value.subject, Approver, namespace);
      DispatchTurn(mode, backend.answers, l);
      if approver.None? {
        return None;
      }
      l := At(DispatchResponder(record, subject, review, executor, approver.value));
      var responder := Identity(record.proposer, Responder, namespace);
      DispatchTurn(mode, backend.answers, l);
      if responder.None? {
        return None;
      }
      authority := DispatchClocks(record, subject, review, executor, approver.value, responder.value);
    }

    /** The three clock readings at the end of `_dispatch_authority`. */
    method DispatchClocks(record: ActionRecord, subject: string, review: Review, executor: Principal,
                          approver: Principal, responder: Principal) returns (authority: Option<Authority>)
      requires record.approval.Some? && review.context.report.Some?
      modifies backend`asked, backend`clock
      ensures ToTheEnd(mode, backend.answers,
                       old(At(DispatchInstant(record, subject, review, executor, approver, responder))))
           == ToTheEnd(mode, backend.answers,
                       At(if authority.None? then Refusal(record, subject)
                          else Effect(record, subject, review, authority.value)))
    {
      hide LocalStep, IdentityValid, Deadline, ToTheEnd, LoneStep, Refusal, InWindow;
      var namespace := record.proposal.namespace;
      ghost var l := At(DispatchInstant(record, subject, review, executor, approver, responder));
      var _ := backend.Ask();
      var now := backend.clock;
      DispatchTurn(mode, backend.answers, l);
      if !IdentityValid(Some(executor), Executor, namespace, now)
         || !IdentityValid(Some(approver), Approver, namespace, now)
         || !IdentityValid(Some(responder), Responder, namespace, now)
      {
        return None;
      }
      authority := DispatchWindow(record, subject, review, Authority(now, executor, approver, responder));
    }

    method DispatchWindow(record: ActionRecord, subject: string, review: Review, held: Authority)
      returns (authority: Option<Authority>)
      requires record.approval.Some? && review.context.report.Some?
      modifies backend`asked, backend`clock
      ensures ToTheEnd(mode, backend.answers, old(At(DispatchCurrent(record, subject, review, held))))
           == ToTheEnd(mode, backend.answers,
                       At(if authority.None? then Refusal(record, subject)
                          else Effect(record, subject, review, authority.value)))
    {
      hide LocalStep, IdentityValid, Deadline, ToTheEnd, LoneStep, Refusal, InWindow, Transacted;
      ghost var l := At(DispatchCurrent(record, subject, review, held));
      var _ := backend.Ask();
      DispatchTurn(mode, backend.answers, l);
      if !InWindow(record.approval, backend.clock) {
        return None;
      }
      l := At(DispatchDeadline(record, subject, review, held));
      var _ := backend.Ask();
      DispatchTurn(mode, backend.answers, l);
      var deadline := ReviewDeadline(record.proposal, review.context);
      if backend.clock > deadline {
        return None;
      }
      authority := Some(held);
    }
  }

  lemma EffectEnds(mode: Mode, answers: nat -> Answers, l: Lone)
    requires l.pc.Effect?
    ensures ToTheEnd(mode, answers, l) == ToTheEnd(mode, answers, LoneStep(mode, answers, l))
    ensures var a := answers(l.asked);
      LoneStep(mode, answers, l) == Lone(l.clock + a.wait, l.tables,
                                         l.executed
                                         + [Executed(mode, l.pc.record, l.pc.subject, l.pc.review, l.pc.authority)],
                                         Outcome(l.pc.record, l.pc.subject, a.effect), l.asked + 1)
  {
    hide Outcome;
    Onward(mode, answers, l);
  }

  lemma ClaimKeepsApproval(t: Tables, record: ActionRecord, subject: string, now: int)
    ensures var reply := TransitionReply(t, record, Dispatching(subject), now);
      reply.Stored? ==> reply.record.approval == record.approval
  {
  }
}
