/** What every step of the loop keeps: a valid, only growing journal, and nobody else's operations. */
module LoopGrowth {
  import opened Records
  import opened Context
  import opened Budget
  import opened Loop

  /** Every operation the outside world has seen was charged first, and none was performed twice. */
  ghost predicate Accounted(effects: seq<OpId>, charges: seq<Charge>) {
    Distinct(effects) && forall op :: op in effects ==> FindCharge(charges, op).Some?
  }

  /** Durable state of this host's run. */
  ghost predicate Good(h: Host, d: Durable) {
    && ValidHost(h) && ValidRecord(d.record) && Intact(d.store)
    && d.record.run == h.run && d.record.binding == BindingOf(h) && d.record.limits == h.limits
    && Accounted(d.effects, d.record.charges)
  }

  ghost predicate Grows(d: Durable, d2: Durable) {
    Extends(d.record, d2.record) && StoreExtends(d.store, d2.store) && d.effects <= d2.effects
  }

  /** The journal says the same about this operation in both states. */
  ghost predicate Untouched(d: Durable, d2: Durable, op: OpId) {
    && FindCharge(d.record.charges, op) == FindCharge(d2.record.charges, op)
    && FindCompletion(d.record.completions, op) == FindCompletion(d2.record.completions, op)
  }

  /** Grown, and only in what it says about `op`. */
  ghost predicate Advances(h: Host, d: Durable, d2: Durable, op: OpId) {
    Good(h, d2) && Grows(d, d2) && forall x :: x != op ==> Untouched(d, d2, x)
  }

  lemma {:induction false} FindChargeAppend(charges: seq<Charge>, c: Charge, op: OpId)
    ensures FindCharge(charges + [c], op) ==
      if FindCharge(charges, op).Some? then FindCharge(charges, op) else if c.op == op then Some(c) else None
  {
    if charges != [] {
      assert (charges + [c])[1..] == charges[1..] + [c];
      FindChargeAppend(charges[1..], c, op);
    }
  }

  lemma {:induction false} FindCompletionAppend(completions: seq<Completion>, c: Completion, op: OpId)
    ensures FindCompletion(completions + [c], op) ==
      if FindCompletion(completions, op).Some? then FindCompletion(completions, op)
      else if c.op == op then Some(c.artifact) else None
  {
    if completions != [] {
      assert (completions + [c])[1..] == completions[1..] + [c];
      FindCompletionAppend(completions[1..], c, op);
    }
  }

  /** A NEW reservation keeps the journal good and is visible under its own id only. */
  lemma ReserveAdvances(h: Host, w: World, d: Durable, c: Charge)
    requires Good(h, d) && ReserveNow(w, d.record, c) == New
    ensures var d2 := d.(record := Charged(d.record, c));
      && Advances(h, d, d2, c.op) && FindCharge(d2.record.charges, c.op) == Some(c)
      && FindCharge(d.record.charges, c.op).None?
      && FindCompletion(d2.record.completions, c.op).None? && w.Live? && c.op !in d2.effects
  {
    forall op ensures FindCharge(d.record.charges + [c], op) ==
      if FindCharge(d.record.charges, op).Some? then FindCharge(d.record.charges, op)
      else if c.op == op then Some(c) else None
    {
      FindChargeAppend(d.record.charges, c, op);
    }
  }

  lemma RetainGrows(h: Host, d: Durable, a: Artifact, op: OpId)
    requires Good(h, d)
    ensures Retain(d.store, a).Some?
    ensures Advances(h, d, d.(store := Retain(d.store, a).value), op)
  {
  }

  lemma CompleteAdvances(h: Host, d: Durable, op: OpId, artifact: Digest)
    requires Good(h, d) && CompleteReply(Some(d.record), d.record, op, artifact) == New
    ensures var d2 := d.(record := Completed(d.record, op, artifact));
      Advances(h, d, d2, op) && FindCharge(d2.record.charges, op) == FindCharge(d.record.charges, op)
  {
    forall x ensures FindCompletion(d.record.completions + [Completion(op, artifact)], x) ==
      if FindCompletion(d.record.completions, x).Some? then FindCompletion(d.record.completions, x)
      else if op == x then Some(artifact) else None
    {
      FindCompletionAppend(d.record.completions, Completion(op, artifact), x);
    }
  }

  lemma AdvancesReflexive(h: Host, d: Durable, op: OpId)
    requires Good(h, d)
    ensures Advances(h, d, d, op)
  {
  }

  lemma AdvancesTransitive(h: Host, a: Durable, b: Durable, c: Durable, op: OpId)
    requires Advances(h, a, b, op) && Advances(h, b, c, op)
    ensures Advances(h, a, c, op)
  {
    forall x | x != op ensures Untouched(a, c, x) {
      assert Untouched(a, b, x) && Untouched(b, c, x);
    }
  }

  lemma EffectAdvances(h: Host, d: Durable, op: OpId)
    requires Good(h, d) && FindCharge(d.record.charges, op).Some? && op !in d.effects
    ensures Advances(h, d, d.(effects := d.effects + [op]), op)
  {
  }

  lemma AnchoredAdvances(h: Host, w: World, turn: nat, completed: Site, op: OpId, digest: Digest, s: Session,
                         d: Durable)
    requires Good(h, d)
    ensures Advances(h, d, Anchored(w, turn, completed, op, digest, s, d).d, op)
  {
    hide Advances, CompleteReply, Good, FindCompletion;
    AdvancesReflexive(h, d, op);
    if CompleteReply(Some(d.record), d.record, op, digest) == New {
      CompleteAdvances(h, d, op, digest);
    }
  }

  lemma PublishAdvances(h: Host, w: World, turn: nat, retained: Site, completed: Site, op: OpId, receipt: Artifact,
                        s: Session, d: Durable)
    requires Good(h, d)
    ensures Advances(h, d, Publish(w, turn, retained, completed, op, receipt, s, d).d, op)
  {
    hide Anchored, Advances, Retain, FindCompletion;
    RetainGrows(h, d, receipt, op);
    var d1 := d.(store := Retain(d.store, receipt).value);
    AdvancesIsGood(h, d, d1, op);
    AnchoredAdvances(h, w, turn, completed, op, Sha256(receipt), s, d1);
    AdvancesTransitive(h, d, d1, Anchored(w, turn, completed, op, Sha256(receipt), s, d1).d, op);
    hide Good;
  }

  lemma AdvancesIsGood(h: Host, d: Durable, d2: Durable, op: OpId)
    requires Advances(h, d, d2, op)
    ensures Good(h, d2)
  {
    hide Good;
  }

  lemma ModelGrantedAdvances(h: Host, w: World, turn: nat, c: ReasoningContext, charge: Charge, s: Session, d: Durable)
    requires Good(h, d) && w.Live? && charge.ModelCharge?
    requires FindCharge(d.record.charges, ModelOp(turn)).Some? && ModelOp(turn) !in d.effects
    ensures Advances(h, d, ModelGranted(h, w, turn, c, charge, s, d).d, ModelOp(turn))
  {
    var called := d.(effects := d.effects + [ModelOp(turn)]);
    EffectAdvances(h, d, ModelOp(turn));
    AdvancesReflexive(h, d, ModelOp(turn));
    var receipt := ModelReceipt(h.run, ModelOp(turn), charge.prompt, w.observe(turn));
    PublishAdvances(h, w, turn, ModelReceiptRetained, ModelCompleted, ModelOp(turn), receipt, s, called);
    var p := Publish(w, turn, ModelReceiptRetained, ModelCompleted, ModelOp(turn), receipt, s, called);
    AdvancesTransitive(h, d, called, p.d, ModelOp(turn));
    hide Advances, Publish, ModelSaved, Good;
  }

  lemma ModelAdvances(h: Host, w: World, turn: nat, c: ReasoningContext, s: Session, d: Durable)
    requires Good(h, d)
    ensures Advances(h, d, Model(h, w, turn, c, s, d).d, ModelOp(turn))
  {
    AdvancesReflexive(h, d, ModelOp(turn));
    var tokens := Prepare(h, w, PromptText(turn, c, s.feedback, s.exhausted));
    if FindCharge(d.record.charges, ModelOp(turn)).None? && tokens.Some? {
      var prepared := PreparedArtifact(PreparedFor(h, turn, c, s, tokens.value));
      RetainGrows(h, d, prepared, ModelOp(turn));
      var d1 := d.(store := Retain(d.store, prepared).value);
      var charge := ModelChargeFor(h, turn, Sha256(prepared), tokens.value);
      if !Dies(w, turn, PromptRetained) && ReserveNow(w, d1.record, charge) == New {
        ReserveAdvances(h, w, d1, charge);
        var d2 := d1.(record := Charged(d1.record, charge));
        ModelGrantedAdvances(h, w, turn, c, charge, s, d2);
        AdvancesTransitive(h, d, d1, d2, ModelOp(turn));
        AdvancesTransitive(h, d, d2, ModelGranted(h, w, turn, c, charge, s, d2).d, ModelOp(turn));
      }
    }
    hide Advances, ModelGranted, ModelSaved, Good, ReserveNow, Prepare, Retain, FindCharge;
  }

  lemma {:induction false} RetainAllGrows(store: Store, files: seq<Artifact>)
    requires Intact(store)
    ensures RetainAll(store, files).Some? && Intact(RetainAll(store, files).value)
    ensures StoreExtends(store, RetainAll(store, files).value)
    decreases |files|
  {
    if files != [] {
      RetainAllGrows(Retain(store, files[0]).value, files[1..]);
    }
  }

  lemma {:induction false} HandleGrows(w: World, turn: nat, requests: seq<ReadRequest>, i: nat, store: Store)
    requires w.Live? && i <= |requests| && Intact(store)
    ensures Intact(Handle(w, turn, requests, i, store).0) && StoreExtends(store, Handle(w, turn, requests, i, store).0)
    decreases |requests| - i
  {
    if i < |requests| {
      RetainAllGrows(store, w.handle(turn, i).files);
      HandleGrows(w, turn, requests, i + 1, RetainAll(store, w.handle(turn, i).files).value);
    }
  }

  lemma ReadsGrantedAdvances(h: Host, w: World, turn: nat, requests: seq<ReadRequest>, s: Session, d: Durable)
    requires Good(h, d) && w.Live?
    requires FindCharge(d.record.charges, ReadsOp(turn)).Some? && ReadsOp(turn) !in d.effects
    ensures Advances(h, d, ReadsGranted(h, w, turn, requests, s, d).d, ReadsOp(turn))
  {
    var op := ReadsOp(turn);
    AdvancesReflexive(h, d, op);
    HandleGrows(w, turn, requests, 0, d.store);
    var handled := Handle(w, turn, requests, 0, d.store);
    var called := d.(effects := d.effects + [op]);
    var stored := called.(store := handled.0);
    EffectAdvances(h, d, op);
    assert Advances(h, called, stored, op);
    AdvancesTransitive(h, d, called, stored, op);
    var receipt := ReadReceipt(h.run, op, handled.1);
    PublishAdvances(h, w, turn, ReadsReceiptRetained, ReadsCompleted, op, receipt, s, stored);
    var p := Publish(w, turn, ReadsReceiptRetained, ReadsCompleted, op, receipt, s, stored);
    AdvancesTransitive(h, d, stored, p.d, op);
    hide Advances, Publish, ReadsSaved, Good, Handle;
  }

  lemma ReadsAdvances(h: Host, w: World, turn: nat, requests: seq<ReadRequest>, s: Session, d: Durable)
    requires Good(h, d)
    ensures Advances(h, d, Reads(h, w, turn, requests, s, d).d, ReadsOp(turn))
  {
    AdvancesReflexive(h, d, ReadsOp(turn));
    var charge := ReadCharge(ReadsOp(turn), requests, CatalogCost(requests));
    if FindCharge(d.record.charges, ReadsOp(turn)).None? && ReserveNow(w, d.record, charge) == New {
      ReserveAdvances(h, w, d, charge);
      var d1 := d.(record := Charged(d.record, charge));
      ReadsGrantedAdvances(h, w, turn, requests, s, d1);
      AdvancesTransitive(h, d, d1, ReadsGranted(h, w, turn, requests, s, d1).d, ReadsOp(turn));
    }
    hide Advances, ReadsGranted, ReadsSaved, Good, ReserveNow, FindCharge;
  }

  lemma ActAdvances(h: Host, w: World, turn: nat, c: ReasoningContext, o: Observation, s: Session, d: Durable)
    requires Good(h, d)
    ensures Advances(h, d, Act(h, w, turn, c, o, s, d).d, ReadsOp(turn))
  {
    AdvancesReflexive(h, d, ReadsOp(turn));
    if o.status == ModelOk && o.decision.value.verdict != Finish {
      ReadsAdvances(h, w, turn, Wanted(h, s, o.decision.value.requests), s, d);
    }
    hide Advances, Reads, Wanted, Good, Supported;
  }

  /** A turn only ever writes under its own number. */
  ghost predicate TurnAdvances(h: Host, d: Durable, d2: Durable, turn: nat) {
    Good(h, d2) && Grows(d, d2) && forall x: OpId :: x.turn != turn ==> Untouched(d, d2, x)
  }

  lemma BothOpsAdvance(h: Host, a: Durable, b: Durable, c: Durable, turn: nat)
    requires Good(h, a) && Advances(h, a, b, ModelOp(turn)) && Advances(h, b, c, ReadsOp(turn))
    ensures TurnAdvances(h, a, c, turn)
  {
    forall x: OpId | x.turn != turn ensures Untouched(a, c, x) {
      assert Untouched(a, b, x) && Untouched(b, c, x);
    }
  }

  lemma TurnGrows(h: Host, e: Env, turn: nat, s: Session, d: Durable)
    requires Good(h, d)
    ensures TurnAdvances(h, d, Turn(h, e, turn, s, d).d, turn)
  {
    AdvancesReflexive(h, d, ModelOp(turn));
    AdvancesReflexive(h, d, ReadsOp(turn));
    BothOpsAdvance(h, d, d, d, turn);
    if e.authority(turn) == Granted && ContextOf(h, s, d.store).Built? {
      var c := ContextOf(h, s, d.store).context;
      ModelAdvances(h, e.world, turn, c, s, d);
      var m := Model(h, e.world, turn, c, s, d);
      AdvancesReflexive(h, m.d, ReadsOp(turn));
      BothOpsAdvance(h, d, m.d, m.d, turn);
      if m.out.Go? {
        ActAdvances(h, e.world, turn, c, m.out.value, m.s, m.d);
        BothOpsAdvance(h, d, m.d, Act(h, e.world, turn, c, m.out.value, m.s, m.d).d, turn);
      }
    }
    hide TurnAdvances, Advances, Good, Model, Act, ContextOf;
  }

  /** What turns `turn` and later may have done to the journal. */
  ghost predicate LaterAdvances(h: Host, d: Durable, d2: Durable, turn: nat) {
    Good(h, d2) && Grows(d, d2) && forall x: OpId :: x.turn < turn ==> Untouched(d, d2, x)
  }

  lemma LaterChain(h: Host, a: Durable, b: Durable, c: Durable, turn: nat)
    requires TurnAdvances(h, a, b, turn) && LaterAdvances(h, b, c, turn + 1)
    ensures LaterAdvances(h, a, c, turn)
  {
    forall x: OpId | x.turn < turn ensures Untouched(a, c, x) {
      assert Untouched(a, b, x) && Untouched(b, c, x);
    }
  }

  lemma LaterReflexive(h: Host, d: Durable, turn: nat)
    requires Good(h, d)
    ensures LaterAdvances(h, d, d, turn) && TurnAdvances(h, d, d, turn)
  {
  }

  lemma TurnLandsGood(h: Host, d: Durable, d2: Durable, turn: nat)
    requires TurnAdvances(h, d, d2, turn)
    ensures Good(h, d2)
  {
  }

  lemma {:induction false} TurnsGrow(h: Host, e: Env, turn: nat, s: Session, d: Durable)
    requires Good(h, d)
    ensures LaterAdvances(h, d, Turns(h, e, turn, s, d).d, turn)
    decreases h.limits.modelCalls + 1 - turn
  {
    hide Turn, Ended, LaterAdvances, TurnAdvances, Good;
    LaterReflexive(h, d, turn);
    if turn <= h.limits.modelCalls {
      TurnGrows(h, e, turn, s, d);
      var t := Turn(h, e, turn, s, d);
      TurnLandsGood(h, d, t.d, turn);
      if t.out == Go(Continue) {
        TurnsGrow(h, e, turn + 1, t.s, t.d);
        LaterChain(h, d, t.d, Turns(h, e, turn + 1, t.s, t.d).d, turn);
      } else {
        LaterReflexive(h, t.d, turn + 1);
        LaterChain(h, d, t.d, t.d, turn);
      }
    }
  }
}
