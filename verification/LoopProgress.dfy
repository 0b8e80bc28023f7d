/**
 What an undisturbed operation does, exactly: it is charged, performed, receipted and anchored once, or it is
 denied and nothing happens. And a run in which a read batch is denied and the answer still comes.
 */
module LoopProgress {
  import opened Records
  import opened Context
  import opened Budget
  import opened Loop
  import opened LoopGrowth
  import opened LoopReplay

  ghost predicate Undisturbed(w: World, turn: nat) {
    w.Live? && forall site :: !w.dies(turn, site)
  }

  lemma {:induction false} DistinctFits(a: seq<OpId>, b: seq<OpId>)
    requires Distinct(a) && forall x :: x in a ==> x in b
    ensures |a| <= |b|
    decreases |b|
  {
    if a != [] {
      var last := a[|a| - 1];
      assert last in a;
      var i :| 0 <= i < |b| && b[i] == last;
      var rest := b[..i] + b[i + 1..];
      forall x | x in a[..|a| - 1] ensures x in rest {
        var k :| 0 <= k < |a| - 1 && a[k] == x;
        assert x in b;
        var j :| 0 <= j < |b| && b[j] == x;
        assert x == if j < i then rest[j] else rest[j - 1];
      }
      DistinctFits(a[..|a| - 1], rest);
    }
  }

  /** A granted operation can always be completed: there is room for its completion, and it is the first. */
  lemma CompletionIsNew(h: Host, d: Durable, c: Charge, artifact: Digest)
    requires Good(h, d) && ReserveReply(Some(d.record), d.record, c) == New
    ensures var r := Charged(d.record, c);
      && FindCompletion(r.completions, c.op).None?
      && CompleteReply(Some(r), r, c.op, artifact) == New
  {
    hide FindCharge, FindCompletion, ValidCharge, Within;
    var r := Charged(d.record, c);
    var after := Completed(r, c.op, artifact);
    assert ChargeIds(r.charges) == ChargeIds(d.record.charges) + [c.op];
    assert CompletionIds(after.completions) == CompletionIds(d.record.completions) + [c.op];
    assert c.op !in ChargeIds(d.record.charges);
    DistinctFits(CompletionIds(after.completions), ChargeIds(r.charges));
  }

  lemma AffordableIsNew(h: Host, d: Durable, c: Charge)
    requires Good(h, d) && ValidCharge(c) && FindCharge(d.record.charges, c.op).None?
    ensures ReserveReply(Some(d.record), d.record, c)
         == if Unaffordable(d.record.charges, d.record.limits, c) then Denied else New
  {
    hide FindCharge, Unaffordable, ValidCharge;
    DeniedExactly(d.record, c);
  }

  lemma PublishCompletes(h: Host, w: World, turn: nat, retained: Site, completed: Site, op: OpId, receipt: Artifact,
                         s: Session, d: Durable)
    requires Undisturbed(w, turn) && Intact(d.store)
    requires CompleteReply(Some(d.record), d.record, op, Sha256(receipt)) == New
    ensures Publish(w, turn, retained, completed, op, receipt, s, d)
         == Step(Go(()), s, Durable(Completed(d.record, op, Sha256(receipt)), d.store[Sha256(receipt) := receipt],
                                    d.effects))
  {
    hide CompleteReply;
  }

  // ----- one model operation

  function PreparedBy(h: Host, turn: nat, c: ReasoningContext, s: Session, tokens: nat): Artifact {
    PreparedArtifact(PreparedFor(h, turn, c, s, tokens))
  }

  function ReceiptBy(h: Host, turn: nat, prompt: Digest, o: Observation): Artifact {
    ModelReceipt(h.run, ModelOp(turn), prompt, o)
  }

  lemma ModelChargeIsValid(h: Host, w: World, text: PromptText, turn: nat, prompt: Digest, tokens: nat)
    requires ValidHost(h) && Prepare(h, w, text) == Some(tokens)
    ensures ValidCharge(ModelChargeFor(h, turn, prompt, tokens))
  {
  }

  /** The exact effect of a granted model operation on disk, world and session. */
  lemma GrantedModelCompletes(h: Host, w: World, turn: nat, c: ReasoningContext, s: Session, d: Durable, tokens: nat)
    requires Good(h, d) && Undisturbed(w, turn)
    requires var prepared := PreparedBy(h, turn, c, s, tokens);
      var charge := ModelChargeFor(h, turn, Sha256(prepared), tokens);
      Sha256(prepared) in d.store && ReserveReply(Some(d.record), d.record, charge) == New
    ensures var prepared := PreparedBy(h, turn, c, s, tokens);
      var charge, o := ModelChargeFor(h, turn, Sha256(prepared), tokens), w.observe(turn);
      var receipt := ReceiptBy(h, turn, Sha256(prepared), o);
      ModelGranted(h, w, turn, c, charge, s, d.(record := Charged(d.record, charge)))
        == Step(if o.decision.Some? && !Parses(o.decision.value, ContextIds(c), h.causes) then Fail(Integrity)
                else Go(o),
                s.(receipts := s.receipts + [Sha256(receipt)]),
                Durable(Completed(Charged(d.record, charge), ModelOp(turn), Sha256(receipt)),
                        d.store[Sha256(receipt) := receipt], d.effects + [ModelOp(turn)]))
  {
    hide Publish, CompleteReply, ReserveReply, Parses, FindCompletion, BindingOf;
    var prepared := PreparedBy(h, turn, c, s, tokens);
    var charge, o := ModelChargeFor(h, turn, Sha256(prepared), tokens), w.observe(turn);
    var receipt := ReceiptBy(h, turn, Sha256(prepared), o);
    CompletionIsNew(h, d, charge, Sha256(receipt));
    var charged := Charged(d.record, charge);
    var called := Durable(charged, d.store, d.effects + [ModelOp(turn)]);
    PublishCompletes(h, w, turn, ModelReceiptRetained, ModelCompleted, ModelOp(turn), receipt, s, called);
    FindCompletionAppend(charged.completions, Completion(ModelOp(turn), Sha256(receipt)), ModelOp(turn));
  }

  /**
   A fresh model operation, undisturbed: denied exactly when unaffordable, with nothing performed; otherwise
   charged, performed once, receipted and anchored, and its observation returned unless its citations do not resolve.
   */
  lemma FreshModelCompletes(h: Host, w: World, turn: nat, c: ReasoningContext, s: Session, d: Durable, tokens: nat)
    requires Good(h, d) && Undisturbed(w, turn) && FindCharge(d.record.charges, ModelOp(turn)).None?
    requires Prepare(h, w, PromptText(turn, c, s.feedback, s.exhausted)) == Some(tokens)
    ensures var prepared := PreparedBy(h, turn, c, s, tokens);
      var charge, o := ModelChargeFor(h, turn, Sha256(prepared), tokens), w.observe(turn);
      var receipt := ReceiptBy(h, turn, Sha256(prepared), o);
      var kept := d.(store := d.store[Sha256(prepared) := prepared]);
      Model(h, w, turn, c, s, d) ==
        if Unaffordable(d.record.charges, d.record.limits, charge) then Step(Halt(StopBudget), s, kept)
        else
          Step(if o.decision.Some? && !Parses(o.decision.value, ContextIds(c), h.causes) then Fail(Integrity)
               else Go(o),
               s.(receipts := s.receipts + [Sha256(receipt)]),
               Durable(Completed(Charged(d.record, charge), ModelOp(turn), Sha256(receipt)),
                       kept.store[Sha256(receipt) := receipt], d.effects + [ModelOp(turn)]))
  {
    hide ModelGranted, ReserveReply, Unaffordable, Parses, PreparedBy, ModelChargeFor, Prepare;
    var prepared := PreparedBy(h, turn, c, s, tokens);
    var charge := ModelChargeFor(h, turn, Sha256(prepared), tokens);
    ModelChargeIsValid(h, w, PromptText(turn, c, s.feedback, s.exhausted), turn, Sha256(prepared), tokens);
    RetainGrows(h, d, prepared, ModelOp(turn));
    var kept := d.(store := d.store[Sha256(prepared) := prepared]);
    assert charge.op == ModelOp(turn) by { ModelChargeOp(h, turn, Sha256(prepared), tokens); }
    AffordableIsNew(h, kept, charge);
    if ReserveReply(Some(kept.record), kept.record, charge) == New {
      GrantedModelCompletes(h, w, turn, c, s, kept, tokens);
    }
    ModelUnfolds(h, w, turn, c, s, d, tokens);
  }

  lemma ModelChargeOp(h: Host, turn: nat, prompt: Digest, tokens: nat)
    ensures ModelChargeFor(h, turn, prompt, tokens).op == ModelOp(turn)
  {
  }

  lemma ModelUnfolds(h: Host, w: World, turn: nat, c: ReasoningContext, s: Session, d: Durable, tokens: nat)
    requires Good(h, d) && Undisturbed(w, turn) && FindCharge(d.record.charges, ModelOp(turn)).None?
    requires Prepare(h, w, PromptText(turn, c, s.feedback, s.exhausted)) == Some(tokens)
    ensures var prepared := PreparedBy(h, turn, c, s, tokens);
      var charge := ModelChargeFor(h, turn, Sha256(prepared), tokens);
      var kept := d.(store := d.store[Sha256(prepared) := prepared]);
      var reply := ReserveReply(Some(d.record), d.record, charge);
      && (reply == Denied ==> Model(h, w, turn, c, s, d) == Step(Halt(StopBudget), s, kept))
      && (reply == New ==>
            Model(h, w, turn, c, s, d)
              == ModelGranted(h, w, turn, c, charge, s, kept.(record := Charged(d.record, charge))))
  {
    hide ModelGranted, ReserveReply, ModelSaved, FindCharge, Prepare;
  }

  // ----- one read batch

  lemma {:induction false} HandledRequests(w: World, turn: nat, requests: seq<ReadRequest>, i: nat, store: Store)
    requires w.Live? && i <= |requests|
    ensures Requests(Handle(w, turn, requests, i, store).1) == requests[i..]
    decreases |requests| - i
  {
    hide RetainAll;
    if i < |requests| {
      var stored := RetainAll(store, w.handle(turn, i).files);
      HandledRequests(w, turn, requests, i + 1, if stored.None? then store else stored.value);
      var results := Handle(w, turn, requests, i, store).1;
      assert results[1..] == Handle(w, turn, requests, i + 1, if stored.None? then store else stored.value).1;
      assert Requests(results) == [results[0].request] + Requests(results[1..]);
    }
  }

  /**
   A fresh batch, undisturbed: denied exactly when unaffordable; otherwise charged, handled once, anchored and merged.
   */
  lemma FreshReadsComplete(h: Host, w: World, turn: nat, requests: seq<ReadRequest>, s: Session, d: Durable)
    requires Good(h, d) && Undisturbed(w, turn) && FindCharge(d.record.charges, ReadsOp(turn)).None?
    requires ValidCharge(ReadCharge(ReadsOp(turn), requests, CatalogCost(requests)))
    ensures var charge := ReadCharge(ReadsOp(turn), requests, CatalogCost(requests));
      var (store, results) := Handle(w, turn, requests, 0, d.store);
      var receipt := ReadReceipt(h.run, ReadsOp(turn), results);
      Reads(h, w, turn, requests, s, d) ==
        if Unaffordable(d.record.charges, d.record.limits, charge) then Step(Halt(StopBudget), s, d)
        else
          AcceptReads(h, results, s.(receipts := s.receipts + [Sha256(receipt)]),
                      Durable(Completed(Charged(d.record, charge), ReadsOp(turn), Sha256(receipt)),
                              store[Sha256(receipt) := receipt], d.effects + [ReadsOp(turn)]))
  {
    hide ReserveReply, Unaffordable, AcceptReads, Handle, CompleteReply, Publish, FindCompletion, ValidCharge,
      FindCharge;
    var charge := ReadCharge(ReadsOp(turn), requests, CatalogCost(requests));
    AffordableIsNew(h, d, charge);
    if ReserveReply(Some(d.record), d.record, charge) == New {
      var handled := Handle(w, turn, requests, 0, d.store);
      var receipt := ReadReceipt(h.run, ReadsOp(turn), handled.1);
      HandledRequests(w, turn, requests, 0, d.store);
      HandleGrows(w, turn, requests, 0, d.store);
      CompletionIsNew(h, d, charge, Sha256(receipt));
      var charged := Charged(d.record, charge);
      var stored := Durable(charged, handled.0, d.effects + [ReadsOp(turn)]);
      PublishCompletes(h, w, turn, ReadsReceiptRetained, ReadsCompleted, ReadsOp(turn), receipt, s, stored);
      FindCompletionAppend(charged.completions, Completion(ReadsOp(turn), Sha256(receipt)), ReadsOp(turn));
      assert requests[0..] == requests;
    }
  }

  // ----- a run that survives a denied batch

  /**
   A local host, whose model is free, without initial evidence, without read allowance, and with room for two prompts.
   */
  ghost predicate ReadlessHost(h: Host) {
    && ValidHost(h) && h.settings.local && h.settings.ceiling && h.initial == []
    && h.limits.modelCalls >= 2 && h.limits.toolCalls == 0 && h.settings.price == Price(0, 0, 0)
    && 2 * (h.settings.inputTokenLimit + h.settings.outputTokenLimit) <= h.limits.tokens
    && h.limits.providerRequests >= 4
    && forall text :: h.bounded(text) && h.count(text) == Some(h.settings.inputTokenLimit)
  }

  /** First a read request, then an answer without causes; nothing dies and authority stands. */
  ghost predicate AsksThenAnswers(e: Env, q: ReadRequest) {
    && (forall t :: e.authority(t) == Granted) && e.publication == Granted
    && Undisturbed(e.world, 1) && Undisturbed(e.world, 2) && ValidRequest(q)
    && e.world.observe(1) == Observation(ModelOk, Some(Decision(Read, [q], [])), None)
    && e.world.observe(2) == Observation(ModelOk, Some(Decision(Finish, [], [])), None)
  }

  lemma EmptyContext(h: Host, s: Session, store: Store)
    requires s.evidence == [] && ValidHost(h)
    ensures ContextOf(h, s, store).Built? && EvidenceChecked(h, [], store)
  {
    hide Fill, OrderedEvidence;
  }

  function SmallSpend(h: Host): Spend {
    Spend(1, h.settings.inputTokenLimit + h.settings.outputTokenLimit, 0, 2, 0, 0)
  }

  lemma SmallPrompt(h: Host, w: World, text: PromptText)
    requires ReadlessHost(h) && w.Live?
    ensures Prepare(h, w, text) == Some(h.settings.inputTokenLimit)
  {
  }

  lemma SmallCharge(h: Host, turn: nat, prompt: Digest, charges: seq<Charge>)
    requires ReadlessHost(h) && |charges| <= 1 && AtMost(Spent(charges), SmallSpend(h))
    ensures var c := ModelChargeFor(h, turn, prompt, h.settings.inputTokenLimit);
      && c.op == ModelOp(turn) && Reserved(c) == SmallSpend(h) && !Unaffordable(charges, h.limits, c)
      && ChargeIds(charges + [c]) == ChargeIds(charges) + [ModelOp(turn)]
      && Spent(charges + [c]) == Plus(Spent(charges), SmallSpend(h))
  {
    hide Spent, ChargeIds, ValidLimits, ValidPrice;
    var c := ModelChargeFor(h, turn, prompt, h.settings.inputTokenLimit);
    assert Reserved(c) == SmallSpend(h);
    SpentAppend(charges, c);
    IdsOfAppend(charges, c);
  }

  /** What a small model call leaves behind: one more zero-cost charge, and an observation whose citations resolve. */
  lemma SmallCallCompletes(h: Host, e: Env, turn: nat, c: ReasoningContext, s: Session, d: Durable)
    requires Good(h, d) && ReadlessHost(h) && Undisturbed(e.world, turn)
    requires FindCharge(d.record.charges, ModelOp(turn)).None? && |d.record.charges| <= 1
    requires AtMost(Spent(d.record.charges), SmallSpend(h))
    requires e.world.observe(turn).decision.Some? && e.world.observe(turn).decision.value.causes == []
    ensures var m := Model(h, e.world, turn, c, s, d);
      && m.out == Go(e.world.observe(turn)) && Good(h, m.d)
      && m.s == s.(receipts := m.s.receipts) && |m.s.receipts| == |s.receipts| + 1
      && |m.d.record.charges| == |d.record.charges| + 1
      && ChargeIds(m.d.record.charges) == ChargeIds(d.record.charges) + [ModelOp(turn)]
      && Spent(m.d.record.charges) == Plus(Spent(d.record.charges), SmallSpend(h))
  {
    hide Model, Unaffordable, ContextIds, Good, Advances, PreparedBy, ModelChargeFor, ReceiptBy, Spent, Prepare,
      ReadlessHost;
    SmallPrompt(h, e.world, PromptText(turn, c, s.feedback, s.exhausted));
    FreshModelCompletes(h, e.world, turn, c, s, d, h.settings.inputTokenLimit);
    ModelAdvances(h, e.world, turn, c, s, d);
    AdvancesIsGood(h, d, Model(h, e.world, turn, c, s, d).d, ModelOp(turn));
    LimitsOfGood(h, d);
    SmallCharge(h, turn, Sha256(PreparedBy(h, turn, c, s, h.settings.inputTokenLimit)), d.record.charges);
  }

  lemma DeniedBatch(h: Host, w: World, turn: nat, q: ReadRequest, s: Session, d: Durable)
    requires Good(h, d) && ReadlessHost(h) && Undisturbed(w, turn) && ValidRequest(q) && s.completedReads == {}
    requires turn < h.limits.modelCalls && FindCharge(d.record.charges, ReadsOp(turn)).None?
    ensures RequestReads(h, w, turn, [q], s, d)
         == Step(Go(()), s.(exhausted := true, feedback := s.feedback + [ReadBudgetSpent]), d)
  {
    hide FindCharge, AcceptReads, Handle, Good, Reads, Unaffordable, Undisturbed;
    assert NotCompleted(s, [q]) == [q] by { assert [q][..0] == []; }
    assert CatalogCost([q]) == BackendReads(q.tool) by { assert [q][..0] == []; }
    var charge := ReadCharge(ReadsOp(turn), [q], CatalogCost([q]));
    assert ValidCharge(charge);
    ReadNeedsAllowance(d.record.charges, h.limits, charge);
    LimitsOfGood(h, d);
    FreshReadsComplete(h, w, turn, [q], s, d);
  }

  lemma LimitsOfGood(h: Host, d: Durable)
    requires Good(h, d)
    ensures d.record.limits == h.limits
  {
  }

  lemma ReadNeedsAllowance(charges: seq<Charge>, limits: ReasoningBudget, c: Charge)
    requires limits.toolCalls == 0 && c.ReadCharge? && |c.requests| == 1
    ensures Unaffordable(charges, limits, c)
  {
  }

  lemma FirstTurnContinues(h: Host, e: Env, q: ReadRequest, d: Durable)
    requires Good(h, d) && ReadlessHost(h) && AsksThenAnswers(e, q) && d.record.charges == []
    ensures var t := Turn(h, e, 1, NewSession(h), d);
      && t.out == Go(Continue) && Good(h, t.d) && t.s.evidence == [] && |t.s.receipts| == 1
      && ChargeIds(t.d.record.charges) == [ModelOp(1)] && |t.d.record.charges| == 1
      && AtMost(Spent(t.d.record.charges), SmallSpend(h))
  {
    hide Model, RequestReads, ContextOf, Good, FindCharge;
    var s := NewSession(h);
    EmptyContext(h, s, d.store);
    var c := ContextOf(h, s, d.store).context;
    SmallCallCompletes(h, e, 1, c, s, d);
    var m := Model(h, e.world, 1, c, s, d);
    DeniedBatch(h, e.world, 1, q, m.s, m.d);
  }

  lemma SecondTurnAnswers(h: Host, e: Env, q: ReadRequest, s: Session, d: Durable)
    requires Good(h, d) && ReadlessHost(h) && AsksThenAnswers(e, q) && s.evidence == [] && |s.receipts| == 1
    requires ChargeIds(d.record.charges) == [ModelOp(1)]
    requires AtMost(Spent(d.record.charges), SmallSpend(h))
    ensures var t := Turn(h, e, 2, s, d);
      t.out == Go(Answer([])) && t.s.evidence == [] && |t.s.receipts| == 2
  {
    hide Model, RequestReads, ContextOf, Good, FindCharge;
    EmptyContext(h, s, d.store);
    assert |ChargeIds(d.record.charges)| == 1;
    SmallCallCompletes(h, e, 2, ContextOf(h, s, d.store).context, s, d);
  }

  /** A denied read batch does not end a local run: the next turn still answers, with both receipts in hand. */
  lemma AnswersAfterDeniedBatch(h: Host, e: Env, q: ReadRequest)
    requires ReadlessHost(h) && AsksThenAnswers(e, q)
    ensures var r := Enter(h, e, Disk(None, map[], []));
      && r.ending.Done? && r.ending.result.stop == Finished && |r.ending.result.receipts| == 2
      && Enter(h, Replaying(h, e), r.disk) == r
  {
    hide Enter, Turn, Turns, EvidenceChecked, Good, Ended;
    var blank := Disk(None, map[], []);
    EnterOpens(h, e, blank);
    var d := Opened(h, blank);
    FirstTurnContinues(h, e, q, d);
    var t := Turn(h, e, 1, NewSession(h), d);
    SecondTurnAnswers(h, e, q, t.s, t.d);
    TurnsStep(h, e, 1, NewSession(h), d);
    TurnsStep(h, e, 2, t.s, t.d);
    EndedAnswer(Turn(h, e, 2, t.s, t.d));
    EmptyContext(h, NewSession(h), d.store);
    EmptyContext(h, t.s, Turn(h, e, 2, t.s, t.d).d.store);
    ReplayIsExact(h, e, blank);
  }

  lemma EndedAnswer(t: Step<Progress>)
    requires t.out == Go(Answer([]))
    ensures Ended(t) == Step(Go([]), t.s, t.d)
  {
  }
}
