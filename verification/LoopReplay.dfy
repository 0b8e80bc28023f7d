/**
 Replay is exact. Whatever a live entry concluded, re-running the loop over the journal it left, with a
 ledger that refuses to change, an adapter that cannot invoke and inert handlers, concludes the same and
 changes nothing. This includes runs that carried on after a denied read batch.
 */
module LoopReplay {
  import opened Records
  import opened Context
  import opened Budget
  import opened Loop
  import opened LoopGrowth

  // ----- everything that is read back survives the growth of the store

  lemma RestoreStable(store: Store, store2: Store, digest: Digest)
    requires Intact(store) && Intact(store2) && StoreExtends(store, store2)
    requires Restore(store, digest).Some?
    ensures Restore(store2, digest) == Restore(store, digest)
  {
  }

  lemma VerifiedStable(store: Store, store2: Store, item: Evidence)
    requires Intact(store) && Intact(store2) && StoreExtends(store, store2)
    requires Verified(store, item)
    ensures Verified(store2, item)
  {
    RestoreStable(store, store2, item.artifact);
  }

  lemma BuildStable(evidence: seq<Evidence>, incident: string, store: Store, store2: Store, view: View,
                    limit: int, cap: int, recent: bool, preferred: set<string>)
    requires Intact(store) && Intact(store2) && StoreExtends(store, store2)
    requires BuildContext(evidence, incident, VerifiedIn(store), view, limit, cap, recent, preferred).Built?
    ensures BuildContext(evidence, incident, VerifiedIn(store2), view, limit, cap, recent, preferred)
         == BuildContext(evidence, incident, VerifiedIn(store), view, limit, cap, recent, preferred)
  {
    assert Admissible(evidence, incident, VerifiedIn(store));
    forall e | e in evidence ensures e.meta.incident == incident && VerifiedIn(store2)(e) {
      assert VerifiedIn(store)(e);
      VerifiedStable(store, store2, e);
    }
    assert Admissible(evidence, incident, VerifiedIn(store2));
    hide Fill, OrderedEvidence, Verified;
  }

  lemma {:induction false} MergeItemsStable(h: Host, store: Store, store2: Store, service: string, items: seq<Evidence>,
                                            merged: seq<Evidence>)
    requires Intact(store) && Intact(store2) && StoreExtends(store, store2)
    requires MergeItems(h, store, service, items, merged).Some?
    ensures MergeItems(h, store2, service, items, merged) == MergeItems(h, store, service, items, merged)
  {
    if items != [] {
      VerifiedStable(store, store2, items[0]);
      var known := FindEvidence(merged, items[0].meta.id);
      MergeItemsStable(h, store, store2, service, items[1..], if known.Some? then merged else merged + [items[0]]);
    }
    hide Verified, FindEvidence;
  }

  lemma {:induction false} MergeResultsStable(h: Host, store: Store, store2: Store, results: seq<ReadResult>,
                                              merged: seq<Evidence>, feedback: seq<Feedback>)
    requires Intact(store) && Intact(store2) && StoreExtends(store, store2)
    requires !MergeResults(h, store, results, merged, feedback).out.Fail?
    ensures MergeResults(h, store2, results, merged, feedback) == MergeResults(h, store, results, merged, feedback)
  {
    if results != [] {
      var r := results[0];
      if MergeItems(h, store, r.request.service, r.evidence, merged).Some? {
        MergeItemsStable(h, store, store2, r.request.service, r.evidence, merged);
        if r.status !in {ReadDenied, ReadTimeout, ReadBusy} && (r.status == ReadOk || r.evidence == []) {
          var next := MergeItems(h, store, r.request.service, r.evidence, merged).value;
          MergeResultsStable(h, store, store2, results[1..], next, feedback + [FeedbackOf(h, r)]);
        }
      }
    }
    hide MergeItems;
  }

  lemma ReadsSavedStable(h: Host, turn: nat, requests: seq<ReadRequest>, s: Session, d: Durable, d2: Durable)
    requires Good(h, d) && Good(h, d2) && StoreExtends(d.store, d2.store)
    requires FindCompletion(d.record.completions, ReadsOp(turn)) == FindCompletion(d2.record.completions, ReadsOp(turn))
    requires !ReadsSaved(h, turn, requests, s, d).out.Fail?
    ensures var r := ReadsSaved(h, turn, requests, s, d);
      ReadsSaved(h, turn, requests, s, d2) == Step(r.out, r.s, d2)
  {
    var found := FindCompletion(d.record.completions, ReadsOp(turn));
    if found.Some? {
      RestoreStable(d.store, d2.store, found.value);
      match Restore(d.store, found.value)
      case Some(ReadReceipt(_, _, results)) =>
        MergeResultsStable(h, d.store, d2.store, results, s.evidence, s.feedback);
      case _ =>
    }
    hide MergeResults, Restore, FindCompletion, Good, StoreExtends;
  }

  lemma ModelSavedStable(h: Host, turn: nat, c: ReasoningContext, charged: Charge, s: Session, d: Durable, d2: Durable)
    requires Good(h, d) && Good(h, d2) && StoreExtends(d.store, d2.store)
    requires FindCompletion(d.record.completions, ModelOp(turn)) == FindCompletion(d2.record.completions, ModelOp(turn))
    requires !ModelSaved(h, turn, c, charged, s, d).out.Fail?
    ensures var r := ModelSaved(h, turn, c, charged, s, d);
      ModelSaved(h, turn, c, charged, s, d2) == Step(r.out, r.s, d2)
  {
    if charged.ModelCharge? {
      RestoreStable(d.store, d2.store, charged.prompt);
      var found := FindCompletion(d.record.completions, ModelOp(turn));
      if found.Some? && Restore(d.store, found.value).Some? {
        RestoreStable(d.store, d2.store, found.value);
      }
    }
    hide Restore, FindCompletion, Good, StoreExtends, Parses, BindingOf;
  }

  // ----- one operation

  /** A settled denial: the live ledger refused this charge, and so does the sealed one over any later record. */
  lemma DenialReplays(h: Host, d: Durable, d2: Durable, w: World, c: Charge)
    requires Good(h, d) && Good(h, d2) && Extends(d.record, d2.record)
    requires FindCharge(d.record.charges, c.op).None? && FindCharge(d2.record.charges, c.op).None?
    requires ReserveNow(w, d.record, c) == Denied
    ensures ReserveNow(Sealing(h), d2.record, c) == Denied
  {
    assert IsDenied(d.record, c);
    DenialPersists(d.record, d2.record, c);
  }

  lemma RetainedAlready(store: Store, a: Artifact)
    requires Intact(store) && Sha256(a) in store
    ensures Retain(store, a) == Some(store)
  {
    assert store[Sha256(a) := a] == store;
  }

  /** Unless it died or failed, what a fresh model operation returns is what its saved receipt returns. */
  lemma ModelGrantedIsSaved(h: Host, w: World, turn: nat, c: ReasoningContext, charge: Charge, s: Session, d: Durable)
    requires Good(h, d) && w.Live? && charge.ModelCharge?
    requires FindCharge(d.record.charges, ModelOp(turn)).Some? && ModelOp(turn) !in d.effects
    ensures var r := ModelGranted(h, w, turn, c, charge, s, d);
      (r.out.Go? || r.out.Halt?) ==> Good(h, r.d) && r == ModelSaved(h, turn, c, charge, s, r.d)
  {
    ModelGrantedAdvances(h, w, turn, c, charge, s, d);
    hide Publish, ModelSaved, Good;
  }

  lemma ReadsGrantedIsSaved(h: Host, w: World, turn: nat, requests: seq<ReadRequest>, s: Session, d: Durable)
    requires Good(h, d) && w.Live?
    requires FindCharge(d.record.charges, ReadsOp(turn)).Some? && ReadsOp(turn) !in d.effects
    ensures var r := ReadsGranted(h, w, turn, requests, s, d);
      (r.out.Go? || r.out.Halt?) ==> Good(h, r.d) && r == ReadsSaved(h, turn, requests, s, r.d)
  {
    ReadsGrantedAdvances(h, w, turn, requests, s, d);
    hide Publish, ReadsSaved, Good, Handle;
  }

  ghost predicate Settled(d: Durable, d2: Durable, op: OpId) {
    Grows(d, d2) && Untouched(d, d2, op)
  }

  lemma LiveReplies(h: Host, d: Durable, w: World, c: Charge)
    requires Good(h, d) && w.Live? && FindCharge(d.record.charges, c.op).None?
    ensures ReserveNow(w, d.record, c) in {New, Denied, Invalid}
  {
  }

  lemma ModelReplaysFresh(h: Host, w: World, turn: nat, c: ReasoningContext, s: Session, d: Durable, d2: Durable,
                          charge: Charge)
    requires Good(h, d) && Good(h, d2) && w.Live? && charge.ModelCharge? && charge.op == ModelOp(turn)
    requires ReserveNow(w, d.record, charge) == New
    requires var r := ModelGranted(h, w, turn, c, charge, s, d.(record := Charged(d.record, charge)));
      (r.out.Go? || r.out.Halt?) && Settled(r.d, d2, ModelOp(turn))
    ensures var r := ModelGranted(h, w, turn, c, charge, s, d.(record := Charged(d.record, charge)));
      Model(h, Sealing(h), turn, c, s, d2) == Step(r.out, r.s, d2)
  {
    ReserveAdvances(h, w, d, charge);
    var granted := d.(record := Charged(d.record, charge));
    ModelGrantedIsSaved(h, w, turn, c, charge, s, granted);
    var r := ModelGranted(h, w, turn, c, charge, s, granted);
    ModelSavedStable(h, turn, c, charge, s, r.d, d2);
    assert FindCharge(d2.record.charges, ModelOp(turn)) == Some(charge);
    hide ModelSaved, ModelGranted, FindCharge, FindCompletion, Good, ReserveNow;
  }

  lemma ModelReplaysDenied(h: Host, w: World, turn: nat, c: ReasoningContext, s: Session, d: Durable, d2: Durable,
                           tokens: nat)
    requires Good(h, d) && Good(h, d2) && w.Live? && FindCharge(d.record.charges, ModelOp(turn)).None?
    requires Prepare(h, w, PromptText(turn, c, s.feedback, s.exhausted)) == Some(tokens)
    requires var prepared := PreparedArtifact(PreparedFor(h, turn, c, s, tokens));
      && Sha256(prepared) in d2.store
      && ReserveNow(w, d.record, ModelChargeFor(h, turn, Sha256(prepared), tokens)) == Denied
    requires Extends(d.record, d2.record) && Untouched(d, d2, ModelOp(turn))
    ensures Model(h, Sealing(h), turn, c, s, d2) == Step(Halt(StopBudget), s, d2)
  {
    var prepared := PreparedArtifact(PreparedFor(h, turn, c, s, tokens));
    RetainedAlready(d2.store, prepared);
    DenialReplays(h, d, d2, w, ModelChargeFor(h, turn, Sha256(prepared), tokens));
    hide ReserveNow, Good, FindCharge, FindCompletion, Extends, Prepare, Retain, ModelSaved, ModelGranted, PreparedFor;
  }

  lemma ModelReplays(h: Host, w: World, turn: nat, c: ReasoningContext, s: Session, d: Durable, d2: Durable)
    requires Good(h, d) && Good(h, d2) && w.Live?
    requires var r := Model(h, w, turn, c, s, d); (r.out.Go? || r.out.Halt?) && Settled(r.d, d2, ModelOp(turn))
    ensures var r := Model(h, w, turn, c, s, d);
      Model(h, Sealing(h), turn, c, s, d2) == Step(r.out, r.s, d2)
  {
    ModelAdvances(h, w, turn, c, s, d);
    var found := FindCharge(d.record.charges, ModelOp(turn));
    var tokens := Prepare(h, w, PromptText(turn, c, s.feedback, s.exhausted));
    if found.Some? {
      ModelSavedStable(h, turn, c, found.value, s, d, d2);
    } else if tokens.Some? {
      var prepared := PreparedArtifact(PreparedFor(h, turn, c, s, tokens.value));
      RetainGrows(h, d, prepared, ModelOp(turn));
      var d1 := d.(store := Retain(d.store, prepared).value);
      var charge := ModelChargeFor(h, turn, Sha256(prepared), tokens.value);
      LiveReplies(h, d1, w, charge);
      if ReserveNow(w, d1.record, charge) == New {
        ModelReplaysFresh(h, w, turn, c, s, d1, d2, charge);
      } else if ReserveNow(w, d1.record, charge) == Denied && !Dies(w, turn, PromptRetained) {
        ModelReplaysDenied(h, w, turn, c, s, d, d2, tokens.value);
      }
    }
    hide ModelSaved, ModelGranted, FindCharge, FindCompletion, Prepare, Good, Advances, ReserveNow, PreparedFor;
  }

  lemma ReadsReplayFresh(h: Host, w: World, turn: nat, requests: seq<ReadRequest>, s: Session, d: Durable, d2: Durable,
                         charge: Charge)
    requires Good(h, d) && Good(h, d2) && w.Live?
    requires charge == ReadCharge(ReadsOp(turn), requests, CatalogCost(requests))
    requires ReserveNow(w, d.record, charge) == New
    requires var r := ReadsGranted(h, w, turn, requests, s, d.(record := Charged(d.record, charge)));
      (r.out.Go? || r.out.Halt?) && Settled(r.d, d2, ReadsOp(turn))
    ensures var r := ReadsGranted(h, w, turn, requests, s, d.(record := Charged(d.record, charge)));
      Reads(h, Sealing(h), turn, requests, s, d2) == Step(r.out, r.s, d2)
  {
    ReserveAdvances(h, w, d, charge);
    var granted := d.(record := Charged(d.record, charge));
    ReadsGrantedIsSaved(h, w, turn, requests, s, granted);
    var r := ReadsGranted(h, w, turn, requests, s, granted);
    ReadsSavedStable(h, turn, requests, s, r.d, d2);
    assert FindCharge(d2.record.charges, ReadsOp(turn)) == Some(charge);
    hide ReadsSaved, ReadsGranted, FindCharge, FindCompletion, Good, ReserveNow;
  }

  lemma ReadsReplay(h: Host, w: World, turn: nat, requests: seq<ReadRequest>, s: Session, d: Durable, d2: Durable)
    requires Good(h, d) && Good(h, d2) && w.Live?
    requires var r := Reads(h, w, turn, requests, s, d); (r.out.Go? || r.out.Halt?) && Settled(r.d, d2, ReadsOp(turn))
    ensures var r := Reads(h, w, turn, requests, s, d);
      Reads(h, Sealing(h), turn, requests, s, d2) == Step(r.out, r.s, d2)
  {
    ReadsAdvances(h, w, turn, requests, s, d);
    var found := FindCharge(d.record.charges, ReadsOp(turn));
    var charge := ReadCharge(ReadsOp(turn), requests, CatalogCost(requests));
    if found.Some? {
      ReadsSavedStable(h, turn, requests, s, d, d2);
    } else {
      LiveReplies(h, d, w, charge);
      if ReserveNow(w, d.record, charge) == New {
        ReadsReplayFresh(h, w, turn, requests, s, d, d2, charge);
      } else if ReserveNow(w, d.record, charge) == Denied {
        DenialReplays(h, d, d2, w, charge);
      }
    }
    hide ReadsSaved, ReadsGranted, FindCharge, FindCompletion, Good, Advances, ReserveNow, CatalogCost;
  }

  // ----- one turn, and the rest of the run

  lemma ActReplays(h: Host, w: World, turn: nat, c: ReasoningContext, o: Observation, s: Session, d: Durable,
                   d2: Durable)
    requires Good(h, d) && Good(h, d2) && w.Live?
    requires var r := Act(h, w, turn, c, o, s, d); (r.out.Go? || r.out.Halt?) && Settled(r.d, d2, ReadsOp(turn))
    ensures var r := Act(h, w, turn, c, o, s, d);
      Act(h, Sealing(h), turn, c, o, s, d2) == Step(r.out, r.s, d2)
  {
    if o.status == ModelOk && o.decision.value.verdict != Finish {
      var wanted := Wanted(h, s, o.decision.value.requests);
      if wanted != [] {
        ReadsReplay(h, w, turn, wanted, s, d, d2);
      }
    }
    hide Reads, Wanted, Good, Supported, Untouched, Grows;
  }

  function Replaying(h: Host, e: Env): Env { e.(world := Sealing(h)) }

  ghost predicate TurnSettled(d: Durable, d2: Durable, turn: nat) {
    Settled(d, d2, ModelOp(turn)) && Settled(d, d2, ReadsOp(turn))
  }

  lemma GrowsTransitive(a: Durable, b: Durable, c: Durable)
    requires Grows(a, b) && Grows(b, c)
    ensures Grows(a, c)
  {
  }

  lemma SettledThrough(h: Host, a: Durable, b: Durable, c: Durable, turn: nat)
    requires Advances(h, a, b, ReadsOp(turn)) && TurnSettled(b, c, turn)
    ensures Settled(a, c, ModelOp(turn)) && Settled(b, c, ReadsOp(turn))
  {
    assert Untouched(a, b, ModelOp(turn));
    GrowsTransitive(a, b, c);
    hide Good, FindCharge, FindCompletion, Grows;
  }

  lemma TurnReplays(h: Host, e: Env, turn: nat, s: Session, d: Durable, d2: Durable)
    requires Good(h, d) && Good(h, d2) && e.world.Live? && StoreExtends(d.store, d2.store)
    requires var t := Turn(h, e, turn, s, d); (t.out.Go? || t.out.Halt?) && TurnSettled(t.d, d2, turn)
    ensures var t := Turn(h, e, turn, s, d);
      Turn(h, Replaying(h, e), turn, s, d2) == Step(t.out, t.s, d2)
  {
    if e.authority(turn) == Granted && ContextOf(h, s, d.store).Built? {
      var c := ContextOf(h, s, d.store).context;
      BuildStable(s.evidence, h.run, d.store, d2.store, h.view, ContextLimit(h.settings), 64, h.settings.local,
                  s.preferred);
      assert ContextOf(h, s, d2.store) == Built(c);
      ModelAdvances(h, e.world, turn, c, s, d);
      var m := Model(h, e.world, turn, c, s, d);
      if m.out.Go? {
        ActAdvances(h, e.world, turn, c, m.out.value, m.s, m.d);
        SettledThrough(h, m.d, Act(h, e.world, turn, c, m.out.value, m.s, m.d).d, d2, turn);
        ActReplays(h, e.world, turn, c, m.out.value, m.s, m.d, d2);
      }
      ModelReplays(h, e.world, turn, c, s, d, d2);
    }
    hide Model, Act, Good, BuildContext, Settled, StoreExtends, ContextOf;
  }

  lemma UntouchedReflexive(d: Durable, turn: nat)
    ensures TurnSettled(d, d, turn)
  {
  }

  lemma LaterSettles(h: Host, e: Env, turn: nat, s: Session, d: Durable)
    requires Good(h, d)
    ensures var t := Turn(h, e, turn, s, d);
      && Good(h, t.d) && StoreExtends(d.store, t.d.store)
      && TurnSettled(t.d, t.d, turn)
      && var r := Turns(h, e, turn + 1, t.s, t.d);
         Good(h, r.d) && StoreExtends(d.store, r.d.store) && TurnSettled(t.d, r.d, turn)
  {
    hide Turn, Turns, Good, Extends, Untouched;
    TurnGrows(h, e, turn, s, d);
    var t := Turn(h, e, turn, s, d);
    TurnsGrow(h, e, turn + 1, t.s, t.d);
    var r := Turns(h, e, turn + 1, t.s, t.d);
    assert Untouched(t.d, r.d, ModelOp(turn)) && Untouched(t.d, r.d, ReadsOp(turn));
    UntouchedReflexive(t.d, turn);
  }

  lemma TurnsStep(h: Host, e: Env, turn: nat, s: Session, d: Durable)
    requires turn <= h.limits.modelCalls
    ensures var t := Turn(h, e, turn, s, d);
      Turns(h, e, turn, s, d) == if t.out == Go(Continue) then Turns(h, e, turn + 1, t.s, t.d) else Ended(t)
  {
    hide Turn, Ended;
  }

  /** The turn an entry is in, seen from the state the whole entry ended in. */
  lemma TurnReplaysAtTheEnd(h: Host, e: Env, turn: nat, s: Session, d: Durable)
    requires Good(h, d) && e.world.Live? && turn <= h.limits.modelCalls
    requires var r := Turns(h, e, turn, s, d); r.out.Go? || r.out.Halt?
    ensures var r, t := Turns(h, e, turn, s, d), Turn(h, e, turn, s, d);
      && Good(h, t.d)
      && r == (if t.out == Go(Continue) then Turns(h, e, turn + 1, t.s, t.d) else Ended(t))
      && Turn(h, Replaying(h, e), turn, s, r.d) == Step(t.out, t.s, r.d)
  {
    hide Turn, Turns, Good, TurnSettled, StoreExtends, Replaying, Ended;
    LaterSettles(h, e, turn, s, d);
    TurnsStep(h, e, turn, s, d);
    TurnReplays(h, e, turn, s, d, Turns(h, e, turn, s, d).d);
  }

  lemma {:induction false} TurnsReplay(h: Host, e: Env, turn: nat, s: Session, d: Durable)
    requires Good(h, d) && e.world.Live?
    requires var r := Turns(h, e, turn, s, d); r.out.Go? || r.out.Halt?
    ensures var r := Turns(h, e, turn, s, d);
      Turns(h, Replaying(h, e), turn, s, r.d) == r
    decreases h.limits.modelCalls + 1 - turn
  {
    hide Turn, Turns, Good, Replaying, Ended;
    if turn > h.limits.modelCalls {
      TurnsBeyond(h, e, turn, s, d);
      TurnsBeyond(h, Replaying(h, e), turn, s, d);
    } else {
      var r, t := Turns(h, e, turn, s, d), Turn(h, e, turn, s, d);
      TurnReplaysAtTheEnd(h, e, turn, s, d);
      TurnsStep(h, Replaying(h, e), turn, s, r.d);
      if t.out == Go(Continue) {
        TurnsReplay(h, e, turn + 1, t.s, t.d);
      }
    }
  }

  lemma TurnsBeyond(h: Host, e: Env, turn: nat, s: Session, d: Durable)
    requires turn > h.limits.modelCalls
    ensures Turns(h, e, turn, s, d) == Step(Halt(StopBudget), s, d)
  {
    hide Turn;
  }

  // ----- a whole entry

  lemma CheckedStable(h: Host, evidence: seq<Evidence>, d: Durable, d2: Durable)
    requires Intact(d.store) && Intact(d2.store) && StoreExtends(d.store, d2.store)
    requires EvidenceChecked(h, evidence, d.store)
    ensures EvidenceChecked(h, evidence, d2.store)
  {
    BuildStable(evidence, h.run, d.store, d2.store, h.view, 24000, 64, false, {});
  }

  /** What an entry may find: intact files and, if the run exists, a valid record that accounts for all effects. */
  ghost predicate GoodDisk(h: Host, disk: Disk) {
    && ValidHost(h) && Intact(disk.store)
    && Accounted(disk.effects, if disk.row.Some? then disk.row.value.charges else [])
    && (disk.row.Some? ==>
          ValidRecord(disk.row.value) && disk.row.value.run == h.run
          && disk.row.value.binding == BindingOf(h) && disk.row.value.limits == h.limits)
  }

  /** What a session is started on, once the binding is stored and the ledger opened. */
  function Opened(h: Host, disk: Disk): Durable {
    Durable(if disk.row.Some? then disk.row.value else Fresh(h.run, BindingOf(h), h.limits),
            disk.store[BindingOf(h) := BindingOf(h).content], disk.effects)
  }

  lemma EnterOpens(h: Host, e: Env, disk: Disk)
    requires GoodDisk(h, disk) && (e.world.Live? || disk.row.Some?)
    ensures Good(h, Opened(h, disk))
    ensures var r := RunSession(h, e, Opened(h, disk));
      Enter(h, e, disk) == EntryEnd(r.ending, Disk(Some(r.d.record), r.d.store, r.d.effects))
  {
    assert Spent([]) == ZERO;
    assert Retain(disk.store, BindingOf(h).content) == Some(disk.store[BindingOf(h) := BindingOf(h).content]);
    hide RunSession;
  }

  lemma SessionReplays(h: Host, e: Env, d: Durable)
    requires Good(h, d) && e.world.Live? && RunSession(h, e, d).ending.Done?
    ensures var r := RunSession(h, e, d);
      Good(h, r.d) && Grows(d, r.d) && RunSession(h, Replaying(h, e), r.d) == r
  {
    TurnsGrow(h, e, 1, NewSession(h), d);
    TurnsReplay(h, e, 1, NewSession(h), d);
    CheckedStable(h, h.initial, d, Turns(h, e, 1, NewSession(h), d).d);
    hide Turns, EvidenceChecked;
  }

  /**
   Replay refinement. Given the same authority answers, the sealed re-entry over what a live entry left
   behind returns the identical result and leaves record, artifacts and outside world untouched.
   */
  lemma ReplayIsExact(h: Host, e: Env, disk: Disk)
    requires GoodDisk(h, disk) && e.world.Live? && Enter(h, e, disk).ending.Done?
    ensures var r := Enter(h, e, disk);
      Enter(h, Replaying(h, e), r.disk) == r
  {
    EnterOpens(h, e, disk);
    SessionReplays(h, e, Opened(h, disk));
    var r := Enter(h, e, disk);
    var d := RunSession(h, e, Opened(h, disk)).d;
    assert r.disk == Disk(Some(d.record), d.store, d.effects);
    assert BindingOf(h) in d.store;
    assert d.store[BindingOf(h) := BindingOf(h).content] == d.store;
    assert Opened(h, r.disk) == d;
    EnterOpens(h, Replaying(h, e), r.disk);
    hide RunSession, Enter;
  }
}
