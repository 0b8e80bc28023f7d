/**
 The journal over every schedule of entries, stops and crashes: its shape, its freezing after a lost
 receipt, and the agreement of receipts and completions that reconstruction relies on.
 */
module LoopJournal {
  import opened Records
  import opened Context
  import opened Budget
  import opened Loop
  import opened LoopGrowth
  import opened LoopReplay

  /** Completions anchor the charges in order; at most the last charge lacks one. */
  ghost predicate Aligned(r: BudgetRecord) {
    && |r.completions| <= |r.charges| <= |r.completions| + 1
    && forall i :: 0 <= i < |r.completions| ==> r.completions[i].op == r.charges[i].op
  }

  /** The session has consumed a prefix of the completions. */
  ghost predicate Receipted(s: Session, d: Durable) {
    s.receipts <= Digests(d.record.completions)
  }

  ghost predicate Past(d: Durable, p: nat, turn: nat) {
    p <= |d.record.charges| && forall i :: 0 <= i < p ==> d.record.charges[i].op.turn < turn
  }

  ghost predicate ChargedAt(d: Durable, p: nat, op: OpId) {
    p < |d.record.charges| && d.record.charges[p].op == op
  }

  // ----- positions in the journal

  lemma ChargeFound(h: Host, d: Durable, p: nat, op: OpId)
    requires Good(h, d) && ChargedAt(d, p, op)
    ensures FindCharge(d.record.charges, op) == Some(d.record.charges[p])
  {
    var charges := d.record.charges;
    assert ChargeIds(charges)[p] == op;
    var found := FindCharge(charges, op);
    var j :| 0 <= j < |charges| && charges[j] == found.value;
    assert ChargeIds(charges)[j] == op;
  }

  lemma CompletionFound(h: Host, d: Durable, p: nat, op: OpId)
    requires Good(h, d) && Aligned(d.record) && ChargedAt(d, p, op)
    ensures FindCompletion(d.record.completions, op)
         == if p < |d.record.completions| then Some(d.record.completions[p].artifact) else None
  {
    var charges, completions := d.record.charges, d.record.completions;
    var found := FindCompletion(completions, op);
    assert ChargeIds(charges)[p] == op;
    assert p < |completions| ==> CompletionIds(completions)[p] == op;
    if found.Some? {
      var j :| 0 <= j < |completions| && completions[j] == Completion(op, found.value);
      assert ChargeIds(charges)[j] == op;
    }
  }

  lemma NothingAhead(d: Durable, op: OpId)
    requires Past(d, |d.record.charges|, op.turn)
    ensures FindCharge(d.record.charges, op).None?
  {
    assert forall i :: 0 <= i < |d.record.charges| ==> ChargeIds(d.record.charges)[i].turn < op.turn;
  }

  lemma OneMoreReceipt(s: Session, d: Durable, p: nat)
    requires Receipted(s, d) && p == |s.receipts| < |d.record.completions|
    ensures Receipted(s.(receipts := s.receipts + [d.record.completions[p].artifact]), d)
  {
    assert Digests(d.record.completions)[p] == d.record.completions[p].artifact;
  }

  // ----- one model operation

  /** What a saved operation at position p does to the consumed prefix. */
  lemma ModelSavedConsumes(h: Host, turn: nat, c: ReasoningContext, charged: Charge, s: Session, d: Durable)
    requires Good(h, d) && Aligned(d.record) && Receipted(s, d) && ChargedAt(d, |s.receipts|, ModelOp(turn))
    ensures var m := ModelSaved(h, turn, c, charged, s, d);
      m.out.Go? ==> |m.s.receipts| == |s.receipts| + 1 && Receipted(m.s, d)
    ensures |s.receipts| == |d.record.completions| ==> !ModelSaved(h, turn, c, charged, s, d).out.Go?
  {
    hide Good, FindCompletion, Aligned, Parses, BindingOf, ChargedAt, Receipted;
    CompletionFound(h, d, |s.receipts|, ModelOp(turn));
    if |s.receipts| < |d.record.completions| {
      OneMoreReceipt(s, d, |s.receipts|);
    } else {
      ReceiptedBound(s, d);
    }
  }

  lemma ReceiptedBound(s: Session, d: Durable)
    requires Receipted(s, d)
    ensures |s.receipts| <= |d.record.completions|
  {
  }

  lemma ReadsSavedConsumes(h: Host, turn: nat, requests: seq<ReadRequest>, s: Session, d: Durable)
    requires Good(h, d) && Aligned(d.record) && Receipted(s, d) && ChargedAt(d, |s.receipts|, ReadsOp(turn))
    ensures var r := ReadsSaved(h, turn, requests, s, d);
      (r.out.Go? || (r.out.Halt? && r.out != Halt(StopUnknown))) ==>
        |r.s.receipts| == |s.receipts| + 1 && Receipted(r.s, d)
    ensures |s.receipts| == |d.record.completions| ==> ReadsSaved(h, turn, requests, s, d).out == Halt(StopUnknown)
  {
    hide Good, FindCompletion, Aligned, AcceptReads, ChargedAt, Receipted;
    CompletionFound(h, d, |s.receipts|, ReadsOp(turn));
    ReceiptedBound(s, d);
    if |s.receipts| < |d.record.completions| {
      OneMoreReceipt(s, d, |s.receipts|);
      ReceiptsOnly(s, d);
    }
  }

  lemma ReceiptsOnly(s: Session, d: Durable)
    ensures forall s2: Session :: s2.receipts == s.receipts ==> (Receipted(s2, d) <==> Receipted(s, d))
    ensures |s.receipts| < |d.record.completions| ==>
      forall s2: Session :: s2.receipts == s.receipts + [d.record.completions[|s.receipts|].artifact] ==>
        (Receipted(s2, d) <==> Receipted(s.(receipts := s.receipts + [d.record.completions[|s.receipts|].artifact]), d))
  {
  }

  /** Everything charged is completed, and the session has consumed all of it. */
  ghost predicate Frontier(s: Session, d: Durable) {
    && |s.receipts| == |d.record.charges| == |d.record.completions|
    && Aligned(d.record) && Receipted(s, d)
  }

  ghost predicate OneMore(d: Durable, d2: Durable, op: OpId) {
    |d2.record.charges| == |d.record.charges| + 1 && d.record.charges <= d2.record.charges
    && d2.record.charges[|d.record.charges|].op == op
  }

  /** A fresh grant ends charged and unanchored, or charged and anchored; in the latter case it may go on. */
  lemma GrantedAligns(h: Host, d: Durable, d2: Durable, op: OpId)
    requires Aligned(d.record) && |d.record.completions| + 1 == |d.record.charges|
    requires ChargedAt(d, |d.record.completions|, op)
    requires d2.record == d.record || exists a :: d2.record == Completed(d.record, op, a)
    ensures Aligned(d2.record)
    ensures d2.record != d.record ==> |d2.record.completions| == |d2.record.charges|
  {
  }

  lemma ModelGrantedJournal(h: Host, w: World, turn: nat, c: ReasoningContext, charge: Charge, s: Session, d: Durable)
    requires Good(h, d) && w.Live? && charge.ModelCharge? && charge.op == ModelOp(turn)
    requires Aligned(d.record) && Receipted(s, d) && ChargedAt(d, |s.receipts|, ModelOp(turn))
    requires |s.receipts| == |d.record.completions| && |d.record.completions| + 1 == |d.record.charges|
    requires FindCharge(d.record.charges, ModelOp(turn)).Some? && ModelOp(turn) !in d.effects
    ensures var m := ModelGranted(h, w, turn, c, charge, s, d);
      && Aligned(m.d.record)
      && (m.out.Go? ==> Frontier(m.s, m.d) && |m.s.receipts| == |s.receipts| + 1)
      && !m.out.Halt?
  {
    hide Good, Aligned, ModelGranted, ModelSaved, FindCompletion, FindCharge, Advances;
    var m := ModelGranted(h, w, turn, c, charge, s, d);
    GrantedAligns(h, d, m.d, ModelOp(turn));
    CompletionFound(h, d, |s.receipts|, ModelOp(turn));
    ModelGrantedIsSaved(h, w, turn, c, charge, s, d);
    if m.out.Go? || m.out.Halt? {
      CompletionFound(h, m.d, |s.receipts|, ModelOp(turn));
      ModelSavedConsumes(h, turn, c, charge, s, m.d);
      ModelSavedKnown(h, turn, c, charge, s, m.d);
    }
  }

  lemma ModelSavedKnown(h: Host, turn: nat, c: ReasoningContext, charged: Charge, s: Session, d: Durable)
    requires FindCompletion(d.record.completions, ModelOp(turn)).Some?
    ensures !ModelSaved(h, turn, c, charged, s, d).out.Halt?
  {
    hide FindCompletion, Restore, Parses;
  }

  lemma ModelFreshJournal(h: Host, w: World, turn: nat, c: ReasoningContext, s: Session, d: Durable)
    requires Good(h, d) && w.Live? && Frontier(s, d) && Past(d, |s.receipts|, turn)
    ensures var m := Model(h, w, turn, c, s, d);
      && Aligned(m.d.record)
      && (m.d.record == d.record || OneMore(d, m.d, ModelOp(turn)))
      && (m.out.Go? ==> Frontier(m.s, m.d) && |m.s.receipts| == |s.receipts| + 1 && OneMore(d, m.d, ModelOp(turn)))
      && (m.out.Halt? ==> Frontier(m.s, m.d) && m.out != Halt(StopUnknown) && m.d.record == d.record)
  {
    hide Good, Aligned, ModelGranted, ModelSaved, FindCompletion, FindCharge, Prepare, ReserveNow, Retain, Receipted,
      Advances;
    NothingAhead(d, ModelOp(turn));
    var tokens := Prepare(h, w, PromptText(turn, c, s.feedback, s.exhausted));
    if tokens.Some? {
      var prepared := PreparedArtifact(PreparedFor(h, turn, c, s, tokens.value));
      RetainGrows(h, d, prepared, ModelOp(turn));
      var d1 := d.(store := Retain(d.store, prepared).value);
      AdvancesIsGood(h, d, d1, ModelOp(turn));
      ReceiptsFrame(s, d, d1);
      var charge := ModelChargeFor(h, turn, Sha256(prepared), tokens.value);
      if ReserveNow(w, d1.record, charge) == New {
        ReserveAdvances(h, w, d1, charge);
        var d2 := d1.(record := Charged(d1.record, charge));
        AdvancesIsGood(h, d1, d2, ModelOp(turn));
        FrontierThenCharged(s, d1, charge);
        ModelGrantedJournal(h, w, turn, c, charge, s, d2);
      }
    }
  }

  lemma ReceiptsFrame(s: Session, d: Durable, d2: Durable)
    requires d.record == d2.record
    ensures Receipted(s, d) == Receipted(s, d2)
  {
  }

  lemma ReadsGrantedJournal(h: Host, w: World, turn: nat, requests: seq<ReadRequest>, s: Session, d: Durable)
    requires Good(h, d) && w.Live?
    requires Aligned(d.record) && Receipted(s, d) && ChargedAt(d, |s.receipts|, ReadsOp(turn))
    requires |s.receipts| == |d.record.completions| && |d.record.completions| + 1 == |d.record.charges|
    requires FindCharge(d.record.charges, ReadsOp(turn)).Some? && ReadsOp(turn) !in d.effects
    ensures var r := ReadsGranted(h, w, turn, requests, s, d);
      && Aligned(r.d.record)
      && (r.out.Go? || r.out.Halt? ==> Frontier(r.s, r.d) && r.out != Halt(StopUnknown))
  {
    hide Good, Aligned, ReadsGranted, ReadsSaved, FindCompletion, FindCharge, Advances;
    var r := ReadsGranted(h, w, turn, requests, s, d);
    GrantedAligns(h, d, r.d, ReadsOp(turn));
    CompletionFound(h, d, |s.receipts|, ReadsOp(turn));
    ReadsGrantedIsSaved(h, w, turn, requests, s, d);
    if r.out.Go? || r.out.Halt? {
      CompletionFound(h, r.d, |s.receipts|, ReadsOp(turn));
      ReadsSavedConsumes(h, turn, requests, s, r.d);
      ReadsSavedKnown(h, turn, requests, s, r.d);
    }
  }

  lemma ReadsSavedKnown(h: Host, turn: nat, requests: seq<ReadRequest>, s: Session, d: Durable)
    requires FindCompletion(d.record.completions, ReadsOp(turn)).Some?
    ensures ReadsSaved(h, turn, requests, s, d).out != Halt(StopUnknown)
  {
    hide FindCompletion, AcceptReads, Restore;
  }

  /** At the frontier, a read batch is either refused without a trace or becomes the new last charge. */
  lemma ReadsFreshJournal(h: Host, w: World, turn: nat, requests: seq<ReadRequest>, s: Session, d: Durable)
    requires Good(h, d) && w.Live? && Frontier(s, d) && FindCharge(d.record.charges, ReadsOp(turn)).None?
    ensures var r := Reads(h, w, turn, requests, s, d);
      && Aligned(r.d.record)
      && ((r.d == d && r.s == s && !r.out.Go?)
          || (OneMore(d, r.d, ReadsOp(turn))
              && r.d.record.charges[|d.record.charges|] == ReadCharge(ReadsOp(turn), requests, CatalogCost(requests))))
      && (r.out.Go? || r.out.Halt? ==> Frontier(r.s, r.d) && r.out != Halt(StopUnknown))
  {
    hide Good, Aligned, ReadsGranted, ReadsSaved, FindCompletion, FindCharge, ReserveNow, Receipted, Advances,
      CatalogCost;
    var charge := ReadCharge(ReadsOp(turn), requests, CatalogCost(requests));
    if ReserveNow(w, d.record, charge) == New {
      ReserveAdvances(h, w, d, charge);
      var d1 := d.(record := Charged(d.record, charge));
      AdvancesIsGood(h, d, d1, ReadsOp(turn));
      FrontierThenCharged(s, d, charge);
      ReadsGrantedJournal(h, w, turn, requests, s, d1);
    }
  }

  lemma FrontierThenCharged(s: Session, d: Durable, c: Charge)
    requires Frontier(s, d)
    ensures var d2 := d.(record := Charged(d.record, c));
      Aligned(d2.record) && Receipted(s, d2) && ChargedAt(d2, |s.receipts|, c.op) && OneMore(d, d2, c.op)
      && |d2.record.completions| + 1 == |d2.record.charges|
  {
  }

  // ----- the tail of the journal, as a sealed walk from the current turn meets it

  function Walk(h: Host): Env { Env(_ => Granted, Granted, Sealing(h)) }

  /** The reads an accepted observation leads to. */
  function WantedBy(h: Host, o: Observation, s: Session): seq<ReadRequest> {
    if o.status == ModelOk && o.decision.value.verdict == Read then Wanted(h, s, o.decision.value.requests) else []
  }

  /** The reads that the saved answer of this turn asks for. */
  function Batch(h: Host, turn: nat, s: Session, d: Durable): seq<ReadRequest> {
    match ContextOf(h, s, d.store)
    case Built(c) =>
      var m := Model(h, Sealing(h), turn, c, s, d);
      if m.out.Go? then WantedBy(h, m.out.value, m.s) else []
    case _ => []
  }

  /** The turn consumed its model receipt, and its read receipt if it has one. */
  ghost predicate Consumed(s: Session, s2: Session, d: Durable, turn: nat) {
    var p := |s.receipts|;
    && Receipted(s2, d)
    && (|s2.receipts| == p + 1 || (|s2.receipts| == p + 2 && ChargedAt(d, p + 1, ReadsOp(turn))))
  }

  /**
   What the rest of the journal may be: nothing, this turn's model operation, both of this turn's
   operations, or everything a fully recorded turn consumes followed by the tail of the next turn.
   */
  ghost predicate Tail(h: Host, d: Durable, turn: nat, s: Session)
    decreases h.limits.modelCalls + 1 - turn
  {
    var p, n := |s.receipts|, |d.record.charges|;
    || p == n
    || (turn <= h.limits.modelCalls && ChargedAt(d, p, ModelOp(turn)) &&
        (|| p + 1 == n
         || (p + 2 == n && ReadsLast(h, d, turn, s))
         || (var t := Turn(h, Walk(h), turn, s, d);
             t.out == Go(Continue) && t.d == d && Consumed(s, t.s, d, turn) && Tail(h, d, turn + 1, t.s))))
  }

  ghost predicate ReadsLast(h: Host, d: Durable, turn: nat, s: Session) {
    var p := |s.receipts|;
    && ChargedAt(d, p + 1, ReadsOp(turn)) && d.record.charges[p + 1].ReadCharge?
    && d.record.charges[p + 1].requests == Batch(h, turn, s, d) != []
  }

  ghost predicate Journal(h: Host, d: Durable, turn: nat, s: Session) {
    && Good(h, d) && Aligned(d.record) && Receipted(s, d) && Past(d, |s.receipts|, turn) && Tail(h, d, turn, s)
  }

  // ----- one turn

  lemma ActAtFrontier(h: Host, w: World, turn: nat, c: ReasoningContext, o: Observation, s: Session, d: Durable)
    requires Good(h, d) && w.Live? && Frontier(s, d) && FindCharge(d.record.charges, ReadsOp(turn)).None?
    ensures var a := Act(h, w, turn, c, o, s, d);
      && Aligned(a.d.record)
      && (a.d == d || (OneMore(d, a.d, ReadsOp(turn)) && WantedBy(h, o, s) != []
            && a.d.record.charges[|d.record.charges|]
                 == ReadCharge(ReadsOp(turn), WantedBy(h, o, s), CatalogCost(WantedBy(h, o, s)))))
      && (a.out.Go? || a.out.Halt? ==> Frontier(a.s, a.d) && a.out != Halt(StopUnknown))
  {
    hide Good, Reads, FindCharge, Wanted, Receipted, Supported;
    if WantedBy(h, o, s) != [] {
      ReadsFreshJournal(h, w, turn, WantedBy(h, o, s), s, d);
    }
    ReceiptsOnly(s, d);
    ReceiptsOnly(Reads(h, w, turn, WantedBy(h, o, s), s, d).s, Reads(h, w, turn, WantedBy(h, o, s), s, d).d);
  }

  lemma ActOnLastReads(h: Host, w: World, turn: nat, c: ReasoningContext, o: Observation, s: Session, d: Durable)
    requires Good(h, d) && Aligned(d.record) && Receipted(s, d)
    requires ChargedAt(d, |s.receipts|, ReadsOp(turn)) && |d.record.charges| == |s.receipts| + 1
    requires d.record.charges[|s.receipts|].ReadCharge?
    requires d.record.charges[|s.receipts|].requests == WantedBy(h, o, s) != []
    ensures var a := Act(h, w, turn, c, o, s, d);
      && a.d == d
      && (a.out.Go? || a.out.Halt? ==> a.out == Halt(StopUnknown) || Frontier(a.s, a.d))
  {
    hide Good, FindCharge, Wanted, ReadsSaved, Supported, Receipted;
    ChargeFound(h, d, |s.receipts|, ReadsOp(turn));
    ReadsSavedConsumes(h, turn, WantedBy(h, o, s), s, d);
    var r := Reads(h, w, turn, WantedBy(h, o, s), s, d);
    if r.out.Go? || (r.out.Halt? && r.out != Halt(StopUnknown)) {
      ReceiptedBound(r.s, d);
    }
    ReceiptsOnly(r.s, d);
  }

  /** The sealed walk reads back the batch a live turn asked for. */
  lemma BatchReadsBack(h: Host, e: Env, turn: nat, s: Session, d: Durable, d2: Durable)
    requires Good(h, d) && Good(h, d2) && e.world.Live? && StoreExtends(d.store, d2.store)
    requires ContextOf(h, s, d.store).Built?
    requires var m := Model(h, e.world, turn, ContextOf(h, s, d.store).context, s, d);
      m.out.Go? && Settled(m.d, d2, ModelOp(turn))
    ensures var m := Model(h, e.world, turn, ContextOf(h, s, d.store).context, s, d);
      Batch(h, turn, s, d2) == WantedBy(h, m.out.value, m.s)
  {
    hide Model, BuildContext, Settled, StoreExtends, WantedBy, ValidRecord, FindCharge;
    BuildStable(s.evidence, h.run, d.store, d2.store, h.view, ContextLimit(h.settings), 64, h.settings.local,
                s.preferred);
    ModelReplays(h, e.world, turn, ContextOf(h, s, d.store).context, s, d, d2);
  }

  lemma NothingAfterModel(d: Durable, d2: Durable, turn: nat)
    requires Past(d, |d.record.charges|, turn) && OneMore(d, d2, ModelOp(turn))
    ensures FindCharge(d2.record.charges, ReadsOp(turn)).None?
  {
    hide FindCharge;
    forall i | 0 <= i < |d2.record.charges| ensures ChargeIds(d2.record.charges)[i] != ReadsOp(turn) {
      if i < |d.record.charges| {
        assert d2.record.charges[i] == d.record.charges[i];
      }
    }
  }

  /** What a live turn leaves behind when the journal ends within it. */
  ghost predicate TurnLeaves(h: Host, e: Env, turn: nat, s: Session, d: Durable) {
    var t := Turn(h, e, turn, s, d);
    && Aligned(t.d.record)
    && (|| |t.d.record.charges| == |s.receipts|
        || (|t.d.record.charges| == |s.receipts| + 1 && ChargedAt(t.d, |s.receipts|, ModelOp(turn)))
        || (|t.d.record.charges| == |s.receipts| + 2 && ChargedAt(t.d, |s.receipts|, ModelOp(turn))
            && ReadsLast(h, t.d, turn, s)))
    && (t.out == Go(Continue) ==> |t.s.receipts| > |s.receipts|)
    && (t.out.Go? || (t.out.Halt? && e.authority(turn) == Granted) ==> Frontier(t.s, t.d) || t.out == Halt(StopUnknown))
    && (|d.record.completions| < |d.record.charges| ==> t.d.record == d.record)
  }

  lemma TwoMore(d: Durable, m: Durable, t: Durable, turn: nat)
    requires OneMore(d, m, ModelOp(turn)) && OneMore(m, t, ReadsOp(turn))
    ensures ChargedAt(t, |d.record.charges|, ModelOp(turn)) && ChargedAt(t, |d.record.charges| + 1, ReadsOp(turn))
    ensures |t.record.charges| == |d.record.charges| + 2
  {
    assert t.record.charges[|d.record.charges|] == m.record.charges[|d.record.charges|];
  }

  lemma TurnAtFrontier(h: Host, e: Env, turn: nat, s: Session, d: Durable)
    requires Good(h, d) && e.world.Live? && Frontier(s, d) && Past(d, |s.receipts|, turn)
    ensures TurnLeaves(h, e, turn, s, d)
  {
    hide Good, Model, Act, ContextOf, Aligned, Receipted, Past, FindCharge, WantedBy, Batch, StoreExtends, Advances,
      Settled, Grows;
    if e.authority(turn) == Granted && ContextOf(h, s, d.store).Built? {
      var c := ContextOf(h, s, d.store).context;
      ModelFreshJournal(h, e.world, turn, c, s, d);
      ModelAdvances(h, e.world, turn, c, s, d);
      var m := Model(h, e.world, turn, c, s, d);
      AdvancesIsGood(h, d, m.d, ModelOp(turn));
      if m.out.Go? {
        NothingAfterModel(d, m.d, turn);
        ActAtFrontier(h, e.world, turn, c, m.out.value, m.s, m.d);
        var a := Act(h, e.world, turn, c, m.out.value, m.s, m.d);
        ActAdvances(h, e.world, turn, c, m.out.value, m.s, m.d);
        if a.d != m.d {
          TwoMore(d, m.d, a.d, turn);
          AdvancesIsGood(h, m.d, a.d, ReadsOp(turn));
          AdvanceSettles(h, d, m.d, a.d, turn);
          BatchReadsBack(h, e, turn, s, d, a.d);
        }
      }
    }
  }

  lemma AdvanceSettles(h: Host, a: Durable, b: Durable, c: Durable, turn: nat)
    requires Advances(h, a, b, ModelOp(turn)) && Advances(h, b, c, ReadsOp(turn))
    ensures Settled(b, c, ModelOp(turn)) && StoreExtends(a.store, c.store)
  {
    hide Good, FindCharge, FindCompletion;
    assert Untouched(b, c, ModelOp(turn));
  }

  lemma NothingAfterLastModel(d: Durable, p: nat, turn: nat)
    requires Past(d, p, turn) && ChargedAt(d, p, ModelOp(turn)) && |d.record.charges| == p + 1
    ensures FindCharge(d.record.charges, ReadsOp(turn)).None?
  {
    hide FindCharge;
    forall i | 0 <= i < |d.record.charges| ensures ChargeIds(d.record.charges)[i] != ReadsOp(turn) {
    }
  }

  /** A model operation that is already charged touches nothing; if it goes on, its receipt was there. */
  lemma ModelRecorded(h: Host, w: World, turn: nat, c: ReasoningContext, s: Session, d: Durable)
    requires Good(h, d) && Aligned(d.record) && Receipted(s, d) && ChargedAt(d, |s.receipts|, ModelOp(turn))
    ensures var m := Model(h, w, turn, c, s, d);
      && m == Model(h, Sealing(h), turn, c, s, d) && m.d == d
      && (m.out.Go? ==> |m.s.receipts| == |s.receipts| + 1 && Receipted(m.s, d))
      && (m.out.Halt? ==> m.out == Halt(StopUnknown))
      && (|s.receipts| == |d.record.completions| ==> !m.out.Go?)
  {
    hide Good, Aligned, FindCharge, FindCompletion, Receipted, Restore, Parses, BindingOf;
    ChargeFound(h, d, |s.receipts|, ModelOp(turn));
    ModelSavedConsumes(h, turn, c, d.record.charges[|s.receipts|], s, d);
  }

  lemma TurnOnLastModel(h: Host, e: Env, turn: nat, s: Session, d: Durable)
    requires Good(h, d) && e.world.Live? && Aligned(d.record) && Receipted(s, d) && Past(d, |s.receipts|, turn)
    requires ChargedAt(d, |s.receipts|, ModelOp(turn)) && |d.record.charges| == |s.receipts| + 1
    ensures TurnLeaves(h, e, turn, s, d)
  {
    hide Good, Model, Act, ContextOf, Past, FindCharge, WantedBy, Batch, StoreExtends, Advances, Settled, Grows;
    if e.authority(turn) == Granted && ContextOf(h, s, d.store).Built? {
      var c := ContextOf(h, s, d.store).context;
      ModelRecorded(h, e.world, turn, c, s, d);
      var m := Model(h, e.world, turn, c, s, d);
      if m.out.Go? {
        ReceiptedBound(m.s, d);
        NothingAfterLastModel(d, |s.receipts|, turn);
        ActAtFrontier(h, e.world, turn, c, m.out.value, m.s, m.d);
        var a := Act(h, e.world, turn, c, m.out.value, m.s, m.d);
        ActAdvances(h, e.world, turn, c, m.out.value, m.s, m.d);
        if a.d != m.d {
          AdvancesIsGood(h, m.d, a.d, ReadsOp(turn));
          AdvancesReflexive(h, d, ModelOp(turn));
          AdvanceSettles(h, d, m.d, a.d, turn);
          BatchReadsBack(h, e, turn, s, d, a.d);
        }
      }
    }
  }

  lemma TurnOnLastReads(h: Host, e: Env, turn: nat, s: Session, d: Durable)
    requires Good(h, d) && e.world.Live? && Aligned(d.record) && Receipted(s, d)
    requires ChargedAt(d, |s.receipts|, ModelOp(turn)) && |d.record.charges| == |s.receipts| + 2
    requires ReadsLast(h, d, turn, s)
    ensures TurnLeaves(h, e, turn, s, d)
  {
    hide Good, Model, Act, ContextOf, FindCharge, WantedBy;
    if e.authority(turn) == Granted && ContextOf(h, s, d.store).Built? {
      var c := ContextOf(h, s, d.store).context;
      ModelRecorded(h, e.world, turn, c, s, d);
      var m := Model(h, e.world, turn, c, s, d);
      if m.out.Go? {
        ActOnLastReads(h, e.world, turn, c, m.out.value, m.s, m.d);
      }
    }
  }

  lemma SealedDenies(h: Host, d: Durable, w: World, c: Charge)
    requires Good(h, d) && FindCharge(d.record.charges, c.op).None?
    requires ReserveNow(Sealing(h), d.record, c) !in {NewWork, Invalid}
    ensures ReserveNow(w, d.record, c) == ReserveNow(Sealing(h), d.record, c) == Denied
  {
  }

  lemma ReadsFollow(h: Host, w: World, turn: nat, requests: seq<ReadRequest>, s: Session, d: Durable)
    requires Good(h, d) && !Reads(h, Sealing(h), turn, requests, s, d).out.Fail?
    ensures Reads(h, w, turn, requests, s, d) == Reads(h, Sealing(h), turn, requests, s, d)
  {
    hide Good, FindCharge, ReserveNow, ReadsSaved, ReadsGranted, CatalogCost;
    if FindCharge(d.record.charges, ReadsOp(turn)).None? {
      SealedDenies(h, d, w, ReadCharge(ReadsOp(turn), requests, CatalogCost(requests)));
    }
  }

  lemma ActFollows(h: Host, w: World, turn: nat, c: ReasoningContext, o: Observation, s: Session, d: Durable)
    requires Good(h, d) && !Act(h, Sealing(h), turn, c, o, s, d).out.Fail?
    ensures Act(h, w, turn, c, o, s, d) == Act(h, Sealing(h), turn, c, o, s, d)
  {
    hide Good, Reads, Wanted, Supported;
    if o.status == ModelOk && Wanted(h, s, o.decision.value.requests) != []
      && !Reads(h, Sealing(h), turn, Wanted(h, s, o.decision.value.requests), s, d).out.Fail?
    {
      ReadsFollow(h, w, turn, Wanted(h, s, o.decision.value.requests), s, d);
    }
  }

  /** Where the walk gets through a turn without new work, every authorized live entry does the same. */
  lemma TurnFollowsWalk(h: Host, e: Env, turn: nat, s: Session, d: Durable)
    requires Good(h, d) && e.world.Live? && Aligned(d.record) && Receipted(s, d)
    requires ChargedAt(d, |s.receipts|, ModelOp(turn))
    requires var t := Turn(h, Walk(h), turn, s, d); t.out == Go(Continue) && t.d == d
    ensures Turn(h, e, turn, s, d) ==
      if e.authority(turn) == Granted then Turn(h, Walk(h), turn, s, d) else Step(Halt(StopOf(e.authority(turn))), s, d)
  {
    hide Good, Aligned, Receipted, ChargedAt, Model, Act, ContextOf;
    if e.authority(turn) == Granted {
      var c := ContextOf(h, s, d.store).context;
      ModelRecorded(h, e.world, turn, c, s, d);
      var m := Model(h, Sealing(h), turn, c, s, d);
      ActFollows(h, e.world, turn, c, m.out.value, m.s, d);
    }
  }

  // ----- the rest of an entry

  lemma TurnIgnoresOtherAnswers(h: Host, e: Env, e2: Env, turn: nat, s: Session, d: Durable)
    requires e.world == e2.world && e.authority(turn) == e2.authority(turn)
    ensures Turn(h, e, turn, s, d) == Turn(h, e2, turn, s, d)
  {
    hide Model, Act, ContextOf;
  }

  lemma ChargedAtSurvives(d: Durable, d2: Durable, p: nat, op: OpId)
    requires Extends(d.record, d2.record) && ChargedAt(d, p, op)
    ensures ChargedAt(d2, p, op)
  {
  }

  lemma ReceiptedSurvives(s: Session, d: Durable, d2: Durable)
    requires Extends(d.record, d2.record) && Receipted(s, d)
    ensures Receipted(s, d2)
  {
    assert Digests(d.record.completions) <= Digests(d2.record.completions);
  }

  lemma PastNext(s: Session, s2: Session, d: Durable, turn: nat)
    requires Past(d, |s.receipts|, turn) && ChargedAt(d, |s.receipts|, ModelOp(turn)) && Consumed(s, s2, d, turn)
    requires |s2.receipts| <= |d.record.charges|
    ensures Past(d, |s2.receipts|, turn + 1)
  {
  }

  lemma PastSurvives(d: Durable, d2: Durable, p: nat, turn: nat)
    requires Extends(d.record, d2.record) && Past(d, p, turn)
    ensures Past(d2, p, turn)
  {
    assert forall i :: 0 <= i < p ==> d2.record.charges[i] == d.record.charges[i];
  }

  /** A consumed turn stays consumed, and the walk over the final journal passes it. */
  lemma TailThroughTurn(h: Host, e: Env, turn: nat, s: Session, d: Durable)
    requires Good(h, d) && e.world.Live? && turn <= h.limits.modelCalls
    requires var t := Turn(h, e, turn, s, d);
      t.out == Go(Continue) && ChargedAt(t.d, |s.receipts|, ModelOp(turn)) && Consumed(s, t.s, t.d, turn)
      && Tail(h, Turns(h, e, turn, s, d).d, turn + 1, t.s)
    ensures Tail(h, Turns(h, e, turn, s, d).d, turn, s)
  {
    hide Good, Turn, Turns, Ended, ChargedAt, Receipted, StoreExtends, TurnSettled, Extends;
    var t, r := Turn(h, e, turn, s, d), Turns(h, e, turn, s, d);
    TurnsStep(h, e, turn, s, d);
    LaterSettles(h, e, turn, s, d);
    TurnReplays(h, e, turn, s, d, r.d);
    NeedsAuthority(h, e, turn, s, d);
    TurnIgnoresOtherAnswers(h, Replaying(h, e), Walk(h), turn, s, r.d);
    LaterExtends(h, e, turn, s, d);
    ChargedAtSurvives(t.d, r.d, |s.receipts|, ModelOp(turn));
    ReceiptedSurvives(t.s, t.d, r.d);
    if |t.s.receipts| == |s.receipts| + 2 {
      ChargedAtSurvives(t.d, r.d, |s.receipts| + 1, ReadsOp(turn));
    }
  }

  lemma NeedsAuthority(h: Host, e: Env, turn: nat, s: Session, d: Durable)
    requires Turn(h, e, turn, s, d).out.Go?
    ensures e.authority(turn) == Granted
  {
  }

  lemma LaterExtends(h: Host, e: Env, turn: nat, s: Session, d: Durable)
    requires Good(h, d) && turn <= h.limits.modelCalls && Turn(h, e, turn, s, d).out == Go(Continue)
    ensures Extends(Turn(h, e, turn, s, d).d.record, Turns(h, e, turn, s, d).d.record)
    ensures Good(h, Turn(h, e, turn, s, d).d)
  {
    hide Good, Turn, Turns, Extends, Untouched;
    TurnGrows(h, e, turn, s, d);
    var t := Turn(h, e, turn, s, d);
    TurnsGrow(h, e, turn + 1, t.s, t.d);
    TurnsStep(h, e, turn, s, d);
  }

  /** After a continuing turn the journal is one for the next turn. */
  lemma JournalNext(h: Host, e: Env, turn: nat, s: Session, d: Durable)
    requires Journal(h, d, turn, s) && e.world.Live? && turn <= h.limits.modelCalls
    requires Turn(h, e, turn, s, d).out == Go(Continue)
    ensures var t := Turn(h, e, turn, s, d);
      && Journal(h, t.d, turn + 1, t.s)
      && ChargedAt(t.d, |s.receipts|, ModelOp(turn)) && Consumed(s, t.s, t.d, turn)
      && (Frontier(t.s, t.d) || (t.d == d && !Frontier(s, d)))
      && (|d.record.completions| < |d.record.charges| ==> t.d.record == d.record)
  {
    hide Good, Turn;
    var t := Turn(h, e, turn, s, d);
    NeedsAuthority(h, e, turn, s, d);
    LaterExtends(h, e, turn, s, d);
    TurnExtends(h, e, turn, s, d);
    PastSurvives(d, t.d, |s.receipts|, turn);
    var p, n := |s.receipts|, |d.record.charges|;
    if p == n {
      TurnAtFrontier(h, e, turn, s, d);
    } else if p + 1 == n {
      TurnOnLastModel(h, e, turn, s, d);
    } else if p + 2 == n && ReadsLast(h, d, turn, s) {
      TurnOnLastReads(h, e, turn, s, d);
    } else {
      TurnFollowsWalk(h, e, turn, s, d);
    }
    PastNext(s, t.s, t.d, turn);
  }

  lemma TurnExtends(h: Host, e: Env, turn: nat, s: Session, d: Durable)
    requires Good(h, d)
    ensures Extends(d.record, Turn(h, e, turn, s, d).d.record)
  {
    hide Good, Turn, Untouched;
    TurnGrows(h, e, turn, s, d);
  }

  /** A turn that ends the entry leaves a journal for the same turn. */
  lemma JournalEnds(h: Host, e: Env, turn: nat, s: Session, d: Durable)
    requires Journal(h, d, turn, s) && e.world.Live? && turn <= h.limits.modelCalls
    requires Turn(h, e, turn, s, d).out != Go(Continue)
    ensures var t := Turn(h, e, turn, s, d);
      && Aligned(t.d.record) && Tail(h, t.d, turn, s)
      && (|d.record.completions| < |d.record.charges| ==> t.d.record == d.record)
      && (t.out.Go? || (t.out.Halt? && t.out != Halt(StopUnknown) && e.authority(turn) == Granted) ==>
            Frontier(t.s, t.d))
  {
    hide Good, Turn;
    var p, n := |s.receipts|, |d.record.charges|;
    if p == n {
      TurnAtFrontier(h, e, turn, s, d);
    } else if p + 1 == n {
      TurnOnLastModel(h, e, turn, s, d);
    } else if p + 2 == n && ReadsLast(h, d, turn, s) {
      TurnOnLastReads(h, e, turn, s, d);
    } else {
      TurnFollowsWalk(h, e, turn, s, d);
    }
  }

  ghost predicate AlwaysGranted(h: Host, e: Env, turn: nat) {
    forall t :: turn <= t <= h.limits.modelCalls ==> e.authority(t) == Granted
  }

  lemma {:induction false} TurnsKeepJournal(h: Host, e: Env, turn: nat, s: Session, d: Durable)
    requires Journal(h, d, turn, s) && e.world.Live?
    ensures var r := Turns(h, e, turn, s, d);
      && Aligned(r.d.record) && Tail(h, r.d, turn, s)
      && (|d.record.completions| < |d.record.charges| ==> r.d.record == d.record)
      && (AlwaysGranted(h, e, turn) && (r.out.Go? || (r.out.Halt? && r.out != Halt(StopUnknown))) ==>
            Frontier(r.s, r.d))
    decreases h.limits.modelCalls + 1 - turn
  {
    hide Good, Turn, Turns, Ended, ReadsLast;
    if turn > h.limits.modelCalls {
      TurnsBeyond(h, e, turn, s, d);
    } else {
      TurnsStep(h, e, turn, s, d);
      var t := Turn(h, e, turn, s, d);
      if t.out == Go(Continue) {
        JournalNext(h, e, turn, s, d);
        TurnsKeepJournal(h, e, turn + 1, t.s, t.d);
        TailThroughTurn(h, e, turn, s, d);
      } else {
        JournalEnds(h, e, turn, s, d);
      }
    }
  }
}
