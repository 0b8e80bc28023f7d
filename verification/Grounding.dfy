/**
 Grounding. Whatever the model answers, a run that returns a result returns verified evidence of its own
 incident and causes that cite nothing else, so the report built from it passes its own validator.

 Since a sealed re-entry concludes the same (LoopReplay), only sealed turns need to be examined.
 */
module Grounding {
  import opened Records
  import opened Context
  import opened Budget
  import opened Loop
  import opened LoopGrowth
  import opened LoopReplay

  /** The fields of `IncidentReport` its validators read. */
  datatype Report = Report(incident: string, evidence: seq<Evidence>, causes: seq<Cause>, receipts: seq<Digest>)

  function IdSet(evidence: seq<Evidence>): set<string> { set x | x in Ids(evidence) }

  predicate OneIncident(evidence: seq<Evidence>, incident: string) {
    forall e :: e in evidence ==> e.meta.incident == incident
  }

  predicate CitesOnly(c: Cause, ids: set<string>) {
    var supports, refutes := (set x | x in c.supports), (set x | x in c.refutes);
    supports + refutes <= ids && supports !! refutes
  }

  /** `IncidentReport.validate_citations` and the bound on receipts. */
  predicate ValidReport(r: Report) {
    && Distinct(Ids(r.evidence)) && OneIncident(r.evidence, r.incident)
    && Distinct(Codes(r.causes)) && (forall c :: c in r.causes ==> CitesOnly(c, IdSet(r.evidence)))
    && |r.receipts| <= 20
  }

  // ----- the session's evidence

  ghost predicate Verifiable(h: Host, evidence: seq<Evidence>, store: Store) {
    Distinct(Ids(evidence)) && Admissible(evidence, h.run, VerifiedIn(store))
  }

  /** The evidence a session holds: its initial items first, distinct, of one incident, and verified. */
  ghost predicate Sound(h: Host, s: Session, store: Store) {
    h.initial <= s.evidence && |s.evidence| <= 256 && Verifiable(h, s.evidence, store)
  }

  lemma AdmitOne(h: Host, merged: seq<Evidence>, store: Store, item: Evidence)
    requires Verifiable(h, merged, store) && FindEvidence(merged, item.meta.id).None?
    requires item.meta.incident == h.run && Verified(store, item)
    ensures Verifiable(h, merged + [item], store)
  {
    assert Ids(merged + [item]) == Ids(merged) + [item.meta.id];
    assert VerifiedIn(store)(item);
  }

  lemma {:induction false} MergeItemsSound(h: Host, store: Store, service: string, items: seq<Evidence>,
                                           merged: seq<Evidence>)
    requires Verifiable(h, merged, store)
    ensures var r := MergeItems(h, store, service, items, merged);
      r.Some? ==> merged <= r.value && Verifiable(h, r.value, store)
  {
    hide Verified, Verifiable, FindEvidence;
    if items != [] && MergeItems(h, store, service, items, merged).Some? {
      var known := FindEvidence(merged, items[0].meta.id);
      if known.None? {
        AdmitOne(h, merged, store, items[0]);
      }
      MergeItemsSound(h, store, service, items[1..], if known.Some? then merged else merged + [items[0]]);
    }
  }

  lemma {:induction false} MergeResultsSound(h: Host, store: Store, results: seq<ReadResult>, merged: seq<Evidence>,
                                             feedback: seq<Feedback>)
    requires Verifiable(h, merged, store)
    ensures var m := MergeResults(h, store, results, merged, feedback);
      m.out.Go? ==> merged <= m.merged && Verifiable(h, m.merged, store)
  {
    hide Verifiable, MergeItems;
    if results != [] {
      var r := results[0];
      MergeItemsSound(h, store, r.request.service, r.evidence, merged);
      var next := MergeItems(h, store, r.request.service, r.evidence, merged);
      if next.Some? {
        MergeResultsSound(h, store, results[1..], next.value, feedback + [FeedbackOf(h, r)]);
      }
    }
  }

  /** Sound, with at most `n` receipts more. */
  ghost predicate Kept(h: Host, s: Session, s2: Session, store: Store, n: nat) {
    Sound(h, s2, store) && |s2.receipts| <= |s.receipts| + n
  }

  lemma ReadsSavedSound(h: Host, turn: nat, requests: seq<ReadRequest>, s: Session, d: Durable)
    requires Sound(h, s, d.store)
    ensures Kept(h, s, ReadsSaved(h, turn, requests, s, d).s, d.store, 1)
  {
    hide Verifiable, MergeResults;
    match FindCompletion(d.record.completions, ReadsOp(turn))
    case Some(digest) =>
      match Restore(d.store, digest) {
        case Some(ReadReceipt(_, _, results)) => MergeResultsSound(h, d.store, results, s.evidence, s.feedback);
        case _ =>
      }
    case None =>
  }

  lemma ActSealedSound(h: Host, w: World, turn: nat, c: ReasoningContext, o: Observation, s: Session, d: Durable)
    requires w.Sealed? && Sound(h, s, d.store)
    ensures var t := Act(h, w, turn, c, o, s, d);
      && Kept(h, s, t.s, d.store, 1) && t.d == d
      && (t.out.Go? && t.out.value.Answer? ==>
            t.s == s && o.status == ModelOk && t.out.value.causes == Supported(h, c, o.decision.value.causes))
  {
    hide Verifiable, ReadsSaved, Supported, Wanted, FindCharge, ValidRecord;
    if o.status == ModelOk && o.decision.value.verdict == Read {
      ReadsSavedSound(h, turn, Wanted(h, s, o.decision.value.requests), s, d);
    }
  }

  // ----- the causes of an answer

  lemma {:induction false} LicensedIsSelection(h: Host, c: ReasoningContext, causes: seq<Cause>)
    requires Distinct(Codes(causes))
    ensures var kept := LicensedCauses(h, c, causes);
      && |kept| <= |causes| && Distinct(Codes(kept))
      && (forall x :: x in kept ==> x in causes && Licensed(h, c, x))
  {
    hide Licensed;
    if causes != [] {
      var front, last := causes[..|causes| - 1], causes[|causes| - 1];
      assert Codes(front) == Codes(causes)[..|causes| - 1];
      LicensedIsSelection(h, c, front);
      var kept := LicensedCauses(h, c, front);
      forall k | 0 <= k < |kept| ensures kept[k].code != last.code {
        assert kept[k] in front;
        var j :| 0 <= j < |front| && front[j] == kept[k];
        assert Codes(causes)[j] != Codes(causes)[|causes| - 1];
      }
      assert Codes(kept + [last]) == Codes(kept) + [last.code];
      assert Distinct(Codes(kept) + [last.code]);
      assert kept + [] == kept;
    }
  }

  /** What a finished answer may say, given the context it was shown. */
  ghost predicate Grounded(h: Host, causes: seq<Cause>, ids: set<string>) {
    && |causes| <= 3 && Distinct(Codes(causes))
    && (forall c :: c in causes ==> c.code in h.causes && CitesOnly(c, ids) && 1 <= |c.supports| <= 8)
    && (h.settings.local ==> forall c :: c in causes ==> c.refutes == [])
  }

  lemma AnswerIsGrounded(h: Host, c: ReasoningContext, o: Observation)
    requires o.status == ModelOk && Parses(o.decision.value, ContextIds(c), h.causes)
    ensures Grounded(h, Supported(h, c, o.decision.value.causes), ContextIds(c))
  {
    hide LicensedCauses, ContextIds;
    var causes := o.decision.value.causes;
    LicensedIsSelection(h, c, causes);
    forall x | x in Supported(h, c, causes) ensures x.code in h.causes && CitesOnly(x, ContextIds(c)) {
      assert CitationsResolve(x, ContextIds(c), h.causes);
    }
  }

  lemma GroundedIn(h: Host, causes: seq<Cause>, few: set<string>, many: set<string>)
    requires Grounded(h, causes, few) && few <= many
    ensures Grounded(h, causes, many)
  {
    forall c | c in causes ensures CitesOnly(c, many) {
      assert CitesOnly(c, few);
    }
  }

  lemma SealedModelParses(h: Host, w: World, turn: nat, c: ReasoningContext, s: Session, d: Durable)
    requires w.Sealed? && Intact(d.store)
    ensures var m := Model(h, w, turn, c, s, d);
      && m.s.evidence == s.evidence && |m.s.receipts| <= |s.receipts| + 1
      && Intact(m.d.store) && StoreExtends(d.store, m.d.store)
      && (m.out.Go? && m.out.value.status == ModelOk ==> Parses(m.out.value.decision.value, ContextIds(c), h.causes))
  {
    hide ContextIds, Parses, FindCharge, FindCompletion, Prepare, PreparedFor, SealedReserveReply;
  }

  lemma SoundInLaterStore(h: Host, s: Session, s2: Session, store: Store, store2: Store)
    requires Sound(h, s, store) && s2.evidence == s.evidence
    requires Intact(store) && Intact(store2) && StoreExtends(store, store2)
    ensures Sound(h, s2, store2)
  {
    forall e | e in s.evidence ensures e.meta.incident == h.run && VerifiedIn(store2)(e) {
      assert VerifiedIn(store)(e);
      VerifiedStable(store, store2, e);
    }
  }

  lemma SealedTurnSound(h: Host, e: Env, turn: nat, s: Session, d: Durable)
    requires e.world.Sealed? && Intact(d.store) && Sound(h, s, d.store)
    ensures var t := Turn(h, e, turn, s, d);
      && Intact(t.d.store) && Kept(h, s, t.s, t.d.store, 2)
      && (t.out.Go? && t.out.value.Answer? ==> Grounded(h, t.out.value.causes, IdSet(t.s.evidence)))
  {
    hide Sound, Model, Act, ContextIds, Grounded, BuildContext, Supported;
    if e.authority(turn) == Granted && ContextOf(h, s, d.store).Built? {
      var c := ContextOf(h, s, d.store).context;
      ContextIsSound(s.evidence, h.run, VerifiedIn(d.store), h.view, ContextLimit(h.settings), 64, h.settings.local,
                     s.preferred);
      SealedModelParses(h, e.world, turn, c, s, d);
      var m := Model(h, e.world, turn, c, s, d);
      SoundInLaterStore(h, s, m.s, d.store, m.d.store);
      if m.out.Go? {
        ActSealedSound(h, e.world, turn, c, m.out.value, m.s, m.d);
        var t := Act(h, e.world, turn, c, m.out.value, m.s, m.d);
        if t.out.Go? && t.out.value.Answer? {
          AnswerIsGrounded(h, c, m.out.value);
          GroundedIn(h, t.out.value.causes, ContextIds(c), IdSet(s.evidence));
        }
      }
    }
  }

  lemma {:induction false} SealedTurnsSound(h: Host, e: Env, turn: nat, s: Session, d: Durable)
    requires e.world.Sealed? && Intact(d.store) && Sound(h, s, d.store) && 1 <= turn <= h.limits.modelCalls + 1
    ensures var t := Turns(h, e, turn, s, d);
      && Intact(t.d.store) && Kept(h, s, t.s, t.d.store, 2 * (h.limits.modelCalls + 1 - turn))
      && (t.out.Go? ==> Grounded(h, t.out.value, IdSet(t.s.evidence)))
    decreases h.limits.modelCalls + 1 - turn
  {
    hide Turn, Sound, Grounded;
    if turn <= h.limits.modelCalls {
      SealedTurnSound(h, e, turn, s, d);
      var t := Turn(h, e, turn, s, d);
      if t.out == Go(Continue) {
        SealedTurnsSound(h, e, turn + 1, t.s, t.d);
      }
    }
  }

  // ----- whole runs

  lemma CheckedIsSound(h: Host, s: Session, store: Store)
    requires h.initial <= s.evidence
    ensures EvidenceChecked(h, s.evidence, store) <==> Sound(h, s, store)
  {
    hide Fill, OrderedEvidence, Verified;
  }

  /** The check that closes a run never fails: it finds what the opening check and every merge established. */
  lemma ClosingCheckHolds(h: Host, e: Env, d: Durable)
    requires Good(h, d) && e.world.Live? && EvidenceChecked(h, h.initial, d.store)
    requires var t := Turns(h, e, 1, NewSession(h), d); t.out.Go? || t.out.Halt?
    ensures var t := Turns(h, e, 1, NewSession(h), d);
      && Sound(h, t.s, t.d.store) && |t.s.receipts| <= 2 * h.limits.modelCalls
      && EvidenceChecked(h, t.s.evidence, t.d.store)
      && (t.out.Go? ==> Grounded(h, t.out.value, IdSet(t.s.evidence)))
  {
    hide Turns, EvidenceChecked, Sound, Good, Grounded;
    var s := NewSession(h);
    TurnsGrow(h, e, 1, s, d);
    TurnsReplay(h, e, 1, s, d);
    var t := Turns(h, e, 1, s, d);
    LaterIsIntact(h, d, t.d);
    CheckedIsSound(h, s, d.store);
    SoundInLaterStore(h, s, s, d.store, t.d.store);
    SealedTurnsSound(h, Replaying(h, e), 1, s, t.d);
    SoundStartsInitial(h, t.s, t.d.store);
    CheckedIsSound(h, t.s, t.d.store);
  }

  lemma LaterIsIntact(h: Host, d: Durable, d2: Durable)
    requires Good(h, d) && LaterAdvances(h, d, d2, 1)
    ensures Intact(d.store) && Intact(d2.store) && StoreExtends(d.store, d2.store)
  {
  }

  lemma SoundStartsInitial(h: Host, s: Session, store: Store)
    requires Sound(h, s, store)
    ensures h.initial <= s.evidence
  {
  }

  function ReportOf(h: Host, r: LoopResult): Report {
    Report(h.run, r.evidence, r.causes, r.receipts)
  }

  /**
   For every answer of the model and the tools: the published evidence continues the initial evidence with
   verified items of the same incident, and every published cause is in the host's vocabulary and cites only it.
   */
  lemma EveryResultIsGrounded(h: Host, e: Env, disk: Disk)
    requires GoodDisk(h, disk) && e.world.Live? && Enter(h, e, disk).ending.Done?
    ensures var r := Enter(h, e, disk);
      && h.initial <= r.ending.result.evidence && |r.ending.result.evidence| <= 256
      && Verifiable(h, r.ending.result.evidence, r.disk.store)
      && Grounded(h, r.ending.result.causes, IdSet(r.ending.result.evidence))
      && (r.ending.result.stop != Finished ==> r.ending.result.causes == [])
      && ValidReport(ReportOf(h, r.ending.result))
  {
    hide Enter, Turns, EvidenceChecked, GoodDisk, Good, Verifiable;
    EnterOpens(h, e, disk);
    var d := Opened(h, disk);
    ClosingCheckHolds(h, e, d);
    OpenedLimits(h, disk);
    var t := Turns(h, e, 1, NewSession(h), d);
    OneIncidentOf(h, t.s.evidence, t.d.store);
  }

  lemma OpenedLimits(h: Host, disk: Disk)
    requires GoodDisk(h, disk)
    ensures h.limits.modelCalls <= 10
  {
  }

  lemma OneIncidentOf(h: Host, evidence: seq<Evidence>, store: Store)
    requires Verifiable(h, evidence, store)
    ensures Distinct(Ids(evidence)) && OneIncident(evidence, h.run)
  {
  }
}
