/**
 Reconstruction of a finished report. It replays the journal through a sealed ledger, inert handlers and an adapter that
 cannot invoke. That adapter counts every prompt at the input ceiling, while a provider's adapter may also refuse a
 prompt; a run that stopped at such a refusal is the one thing a reconstruction cannot follow.
 */
module LoopReconstruct {
  import opened Records
  import opened Context
  import opened Budget
  import opened Loop
  import opened LoopGrowth
  import opened LoopReplay
  import opened LoopJournal
  import opened LoopProgress
  import opened LoopSchedule

  /** `NoDispatchAdapter`. */
  function NoDispatch(h: Host): World {
    Sealed(_ => Some(h.settings.inputTokenLimit))
  }

  function Sealedly(e: Env, w: World): Env {
    e.(world := w)
  }

  // ----- one prompt

  /** Within the message bounds every runtime checks, but not accepted by the provider's adapter. */
  predicate OnlyProviderRefuses(h: Host, text: PromptText) {
    h.bounded(text) && h.count(text) != Some(h.settings.inputTokenLimit)
  }

  lemma PreparesAlike(h: Host, text: PromptText)
    requires ValidHost(h) && h.settings.ceiling
    ensures !OnlyProviderRefuses(h, text) ==> Prepare(h, Sealing(h), text) == Prepare(h, NoDispatch(h), text)
    ensures OnlyProviderRefuses(h, text) ==>
      Prepare(h, Sealing(h), text).None? && Prepare(h, NoDispatch(h), text) == Some(h.settings.inputTokenLimit)
  {
  }

  // ----- one turn

  function TextOf(turn: nat, c: ReasoningContext, s: Session): PromptText {
    PromptText(turn, c, s.feedback, s.exhausted)
  }

  /** This turn would ask for a new model operation with a prompt that only the provider refuses. */
  predicate StopsAt(h: Host, turn: nat, s: Session, d: Durable) {
    && ContextOf(h, s, d.store).Built? && FindCharge(d.record.charges, ModelOp(turn)).None?
    && OnlyProviderRefuses(h, TextOf(turn, ContextOf(h, s, d.store).context, s))
  }

  lemma SealedNeverGrants(r: BudgetRecord, c: Charge)
    ensures SealedReserveReply(Some(r), r, c) != New
  {
    hide ValidRecord, ValidCharge, FindCharge;
  }

  lemma ModelAlike(h: Host, turn: nat, c: ReasoningContext, s: Session, d: Durable)
    requires ValidHost(h) && h.settings.ceiling
    requires FindCharge(d.record.charges, ModelOp(turn)).Some? || !OnlyProviderRefuses(h, TextOf(turn, c, s))
    ensures Model(h, NoDispatch(h), turn, c, s, d) == Model(h, Sealing(h), turn, c, s, d)
  {
    hide FindCharge, ModelSaved, Prepare, OnlyProviderRefuses, SealedReserveReply, Retain;
    PreparesAlike(h, TextOf(turn, c, s));
    forall r: BudgetRecord, charge ensures SealedReserveReply(Some(r), r, charge) != New {
      SealedNeverGrants(r, charge);
    }
  }

  lemma ActAlike(h: Host, w: World, w2: World, turn: nat, c: ReasoningContext, o: Observation, s: Session, d: Durable)
    requires w.Sealed? && w2.Sealed?
    ensures Act(h, w, turn, c, o, s, d) == Act(h, w2, turn, c, o, s, d)
  {
    hide FindCharge, ReadsSaved, Wanted, Supported, SealedReserveReply;
    forall r: BudgetRecord, charge ensures SealedReserveReply(Some(r), r, charge) != New {
      SealedNeverGrants(r, charge);
    }
  }

  lemma TurnAlike(h: Host, e: Env, turn: nat, s: Session, d: Durable)
    requires ValidHost(h) && h.settings.ceiling && !(e.authority(turn) == Granted && StopsAt(h, turn, s, d))
    ensures Turn(h, Sealedly(e, NoDispatch(h)), turn, s, d) == Turn(h, Sealedly(e, Sealing(h)), turn, s, d)
  {
    hide Model, Act, ContextOf, FindCharge, OnlyProviderRefuses;
    if e.authority(turn) == Granted && ContextOf(h, s, d.store).Built? {
      var c := ContextOf(h, s, d.store).context;
      ModelAlike(h, turn, c, s, d);
      var m := Model(h, Sealing(h), turn, c, s, d);
      if m.out.Go? {
        ActAlike(h, NoDispatch(h), Sealing(h), turn, c, m.out.value, m.s, m.d);
      }
    }
  }

  /** What a ceiling prompt reserves; the same for every turn. */
  function CeilingSpend(h: Host): Spend {
    var (input, output, price) := (h.settings.inputTokenLimit, h.settings.outputTokenLimit, h.settings.price);
    Spend(1, input + output, input * Max(price.input, price.cached) + output * price.output, 2, 0, 0)
  }

  /** The ledger still has room for one more ceiling prompt. */
  predicate RoomForPrompt(h: Host, r: BudgetRecord) {
    |r.charges| < 50 && Within(Plus(Spent(r.charges), CeilingSpend(h)), r.limits)
  }

  function PromptAt(h: Host, turn: nat, c: ReasoningContext, s: Session): Artifact {
    PreparedArtifact(PreparedFor(h, turn, c, s, h.settings.inputTokenLimit))
  }

  lemma CeilingReply(h: Host, turn: nat, prompt: Digest, d: Durable)
    requires Good(h, d) && h.settings.ceiling && FindCharge(d.record.charges, ModelOp(turn)).None?
    ensures var charge := ModelChargeFor(h, turn, prompt, h.settings.inputTokenLimit);
      ReserveNow(NoDispatch(h), d.record, charge) == if RoomForPrompt(h, d.record) then NewWork else Denied
  {
    hide FindCharge, Within, Spent;
    var charge := ModelChargeFor(h, turn, prompt, h.settings.inputTokenLimit);
    assert Budget.Reserved(charge) == CeilingSpend(h);
    DeniedExactly(d.record, charge);
  }

  /** At such a prompt the provider's adapter stops the run, and the other one goes on to the sealed ledger. */
  lemma StopOutcome(h: Host, e: Env, turn: nat, s: Session, d: Durable)
    requires Good(h, d) && h.settings.ceiling && e.authority(turn) == Granted && StopsAt(h, turn, s, d)
    ensures Turn(h, Sealedly(e, Sealing(h)), turn, s, d) == Step(Halt(StopBudget), s, d)
    ensures var prompt := PromptAt(h, turn, ContextOf(h, s, d.store).context, s);
      Turn(h, Sealedly(e, NoDispatch(h)), turn, s, d)
        == Step(if RoomForPrompt(h, d.record) then Fail(NewWorkRefused) else Halt(StopBudget), s,
                d.(store := d.store[Sha256(prompt) := prompt]))
  {
    hide ContextOf, FindCharge, Prepare, OnlyProviderRefuses, SealedReserveReply, ModelChargeFor, RoomForPrompt,
      PreparedFor;
    var c := ContextOf(h, s, d.store).context;
    var prompt := PromptAt(h, turn, c, s);
    PreparesAlike(h, TextOf(turn, c, s));
    CeilingReply(h, turn, Sha256(prompt), d);
  }

  // ----- the remaining turns

  /** The turn and session at which a replay first meets a prompt that only the provider refuses. */
  function FirstStop(h: Host, e: Env, turn: nat, s: Session, d: Durable): Option<(nat, Session, Durable)>
    decreases h.limits.modelCalls + 1 - turn
  {
    if turn > h.limits.modelCalls then None
    else if e.authority(turn) == Granted && StopsAt(h, turn, s, d) then Some((turn, s, d))
    else
      var t := Turn(h, Sealedly(e, Sealing(h)), turn, s, d);
      if t.out == Go(Continue) then FirstStop(h, e, turn + 1, t.s, t.d) else None
  }

  lemma {:induction false} TurnsAlike(h: Host, e: Env, turn: nat, s: Session, d: Durable)
    requires Good(h, d) && h.settings.ceiling && FirstStop(h, e, turn, s, d).None?
    ensures Turns(h, Sealedly(e, NoDispatch(h)), turn, s, d) == Turns(h, Sealedly(e, Sealing(h)), turn, s, d)
    decreases h.limits.modelCalls + 1 - turn
  {
    hide Turn, Turns, Ended, StopsAt;
    ValidOfGood(h, d);
    var (a, b) := (Sealedly(e, NoDispatch(h)), Sealedly(e, Sealing(h)));
    if turn > h.limits.modelCalls {
      TurnsBeyond(h, a, turn, s, d);
      TurnsBeyond(h, b, turn, s, d);
    } else {
      TurnAlike(h, e, turn, s, d);
      TurnsStep(h, a, turn, s, d);
      TurnsStep(h, b, turn, s, d);
      var t := Turn(h, b, turn, s, d);
      if t.out == Go(Continue) {
        TurnGrows(h, b, turn, s, d);
        TurnLandsGood(h, d, t.d, turn);
        TurnsAlike(h, e, turn + 1, t.s, t.d);
      }
    }
  }

  lemma ValidOfGood(h: Host, d: Durable)
    requires Good(h, d)
    ensures ValidHost(h) && ValidRecord(d.record) && Intact(d.store)
  {
  }

  /** How the two replays end when there is such a prompt. */
  lemma {:induction false} TurnsPart(h: Host, e: Env, turn: nat, s: Session, d: Durable)
    requires Good(h, d) && h.settings.ceiling && FirstStop(h, e, turn, s, d).Some?
    ensures var (n, s2, d2) := FirstStop(h, e, turn, s, d).value;
      && Good(h, d2) && ContextOf(h, s2, d2.store).Built?
      && Turns(h, Sealedly(e, Sealing(h)), turn, s, d) == Step(Halt(StopBudget), s2, d2)
      && var prompt := PromptAt(h, n, ContextOf(h, s2, d2.store).context, s2);
         Turns(h, Sealedly(e, NoDispatch(h)), turn, s, d)
           == Step(if RoomForPrompt(h, d2.record) then Fail(NewWorkRefused) else Halt(StopBudget), s2,
                   d2.(store := d2.store[Sha256(prompt) := prompt]))
    decreases h.limits.modelCalls + 1 - turn
  {
    hide Turn, Turns, StopsAt, RoomForPrompt, PromptAt, ContextOf, Good;
    ValidOfGood(h, d);
    var (a, b) := (Sealedly(e, NoDispatch(h)), Sealedly(e, Sealing(h)));
    TurnsStep(h, a, turn, s, d);
    TurnsStep(h, b, turn, s, d);
    if e.authority(turn) == Granted && StopsAt(h, turn, s, d) {
      StopOutcome(h, e, turn, s, d);
      StopsInContext(h, turn, s, d);
    } else {
      TurnAlike(h, e, turn, s, d);
      var t := Turn(h, b, turn, s, d);
      TurnGrows(h, b, turn, s, d);
      TurnLandsGood(h, d, t.d, turn);
      TurnsPart(h, e, turn + 1, t.s, t.d);
    }
  }

  lemma StopsInContext(h: Host, turn: nat, s: Session, d: Durable)
    requires StopsAt(h, turn, s, d)
    ensures ContextOf(h, s, d.store).Built?
  {
  }

  // ----- a whole entry

  /** A replay of this disk meets a prompt that only the provider refuses. */
  predicate MeetsRefusal(h: Host, e: Env, disk: Disk) {
    FirstStop(h, e, 1, NewSession(h), Opened(h, disk)).Some?
  }

  lemma SessionsPart(h: Host, e: Env, d: Durable)
    requires Good(h, d) && h.settings.ceiling && FirstStop(h, e, 1, NewSession(h), d).Some?
    requires RunSession(h, Sealedly(e, Sealing(h)), d).ending.Done?
    ensures var (r, q) := (RunSession(h, Sealedly(e, Sealing(h)), d), RunSession(h, Sealedly(e, NoDispatch(h)), d));
      && r.ending.result.stop == StopBudget && (q.d.record, q.d.effects) == (r.d.record, r.d.effects)
      && q.ending == if RoomForPrompt(h, r.d.record) then Raised(NewWorkRefused) else r.ending
  {
    hide Turns, EvidenceChecked, FirstStop, Good, RoomForPrompt, PromptAt, ContextOf;
    TurnsPart(h, e, 1, NewSession(h), d);
    var (n, s2, d2) := FirstStop(h, e, 1, NewSession(h), d).value;
    var prompt := PromptAt(h, n, ContextOf(h, s2, d2.store).context, s2);
    var more := d2.(store := d2.store[Sha256(prompt) := prompt]);
    ValidOfGood(h, d2);
    assert Intact(more.store) && StoreExtends(d2.store, more.store);
    CheckedStable(h, s2.evidence, d2, more);
  }

  lemma SessionsAlike(h: Host, e: Env, d: Durable)
    requires Good(h, d) && h.settings.ceiling && FirstStop(h, e, 1, NewSession(h), d).None?
    ensures RunSession(h, Sealedly(e, NoDispatch(h)), d) == RunSession(h, Sealedly(e, Sealing(h)), d)
  {
    hide Turns, EvidenceChecked, FirstStop, Good;
    TurnsAlike(h, e, 1, NewSession(h), d);
  }

  /**
   Reconstruction refinement. A sealed re-entry with the adapter that cannot invoke never changes record or world. It
   repeats the live entry exactly, unless that entry stopped at a prompt only the provider refuses; then it raises if
   the ledger had room for that prompt, and otherwise returns the same result.
   */
  lemma ReconstructionIsExactly(h: Host, e: Env, disk: Disk)
    requires GoodDisk(h, disk) && e.world.Live? && h.settings.ceiling && Enter(h, e, disk).ending.Done?
    ensures var r := Enter(h, e, disk); var q := Enter(h, Sealedly(e, NoDispatch(h)), r.disk);
      && r.disk.row.Some? && q.disk.row == r.disk.row && q.disk.effects == r.disk.effects
      && (!MeetsRefusal(h, e, r.disk) ==> q == r)
      && (MeetsRefusal(h, e, r.disk) ==>
            && r.ending.result.stop == StopBudget
            && q.ending == if RoomForPrompt(h, r.disk.row.value) then Raised(NewWorkRefused) else r.ending)
  {
    hide Enter, RunSession, GoodDisk, FirstStop, RoomForPrompt;
    ReplayIsExact(h, e, disk);
    EnterOpens(h, e, disk);
    SessionReplays(h, e, Opened(h, disk));
    var r := Enter(h, e, disk);
    LandsGood(h, e, disk);
    EnterOpens(h, Sealedly(e, Sealing(h)), r.disk);
    EnterOpens(h, Sealedly(e, NoDispatch(h)), r.disk);
    assert Replaying(h, e) == Sealedly(e, Sealing(h));
    var d := Opened(h, r.disk);
    if MeetsRefusal(h, e, r.disk) {
      SessionsPart(h, e, d);
    } else {
      SessionsAlike(h, e, d);
    }
  }

  /** A finished entry leaves a disk as good as it found it. */
  lemma LandsGood(h: Host, e: Env, disk: Disk)
    requires GoodDisk(h, disk) && e.world.Live? && Enter(h, e, disk).ending.Done?
    ensures GoodDisk(h, Enter(h, e, disk).disk) && Enter(h, e, disk).disk.row.Some?
  {
    hide Enter, RunSession, Accounted;
    EnterOpens(h, e, disk);
    SessionReplays(h, e, Opened(h, disk));
  }

  /** The replay returns the live result exactly under this condition. */
  lemma ReconstructsExactlyWhen(h: Host, e: Env, disk: Disk)
    requires GoodDisk(h, disk) && e.world.Live? && h.settings.ceiling && Enter(h, e, disk).ending.Done?
    ensures var r := Enter(h, e, disk);
      && r.disk.row.Some?
      && (Enter(h, Sealedly(e, NoDispatch(h)), r.disk).ending == r.ending
          <==> !(MeetsRefusal(h, e, r.disk) && RoomForPrompt(h, r.disk.row.value)))
  {
    hide Enter, GoodDisk, MeetsRefusal, RoomForPrompt;
    ReconstructionIsExactly(h, e, disk);
  }

  lemma {:induction false} AcceptingAdapterNeverStops(h: Host, e: Env, turn: nat, s: Session, d: Durable)
    requires forall text :: h.bounded(text) ==> h.count(text) == Some(h.settings.inputTokenLimit)
    ensures FirstStop(h, e, turn, s, d).None?
    decreases h.limits.modelCalls + 1 - turn
  {
    hide Turn, ContextOf, FindCharge;
    if turn <= h.limits.modelCalls {
      var t := Turn(h, Sealedly(e, Sealing(h)), turn, s, d);
      AcceptingAdapterNeverStops(h, e, turn + 1, t.s, t.d);
    }
  }

  /** Where the provider accepts every prompt within bounds, replay is exact, result and disk. */
  lemma AcceptingProviderReplaysExactly(h: Host, e: Env, disk: Disk)
    requires GoodDisk(h, disk) && e.world.Live? && h.settings.ceiling && Enter(h, e, disk).ending.Done?
    requires forall text :: h.bounded(text) ==> h.count(text) == Some(h.settings.inputTokenLimit)
    ensures var r := Enter(h, e, disk); Enter(h, Sealedly(e, NoDispatch(h)), r.disk) == r
  {
    hide Enter, GoodDisk, FirstStop;
    ReconstructionIsExactly(h, e, disk);
    AcceptingAdapterNeverStops(h, e, 1, NewSession(h), Opened(h, Enter(h, e, disk).disk));
  }

  // ----- reconstruction of a finished report

  function Authorized(w: World): Env {
    Env(_ => Granted, Granted, w)
  }

  /** `_reconstruct`: a complete journal, the claimed receipts, and a replay that says the same. */
  predicate Reconstructs(h: Host, disk: Disk, claimed: LoopResult) {
    && disk.row.Some?
    && |disk.row.value.charges| == |disk.row.value.completions|
    && Digests(disk.row.value.completions) == claimed.receipts
    && var replay := Enter(h, Authorized(NoDispatch(h)), disk);
       replay.ending == Done(claimed) && replay.disk.row == disk.row
  }

  lemma FrontierReceipts(s: Session, d: Durable)
    requires Frontier(s, d)
    ensures s.receipts == Digests(d.record.completions) && |d.record.charges| == |d.record.completions|
  {
  }

  lemma SessionConsumesAll(h: Host, e: Env, d: Durable)
    requires Journal(h, d, 1, NewSession(h)) && e.world.Live? && AlwaysGranted(h, e, 1)
    requires var r := RunSession(h, e, d); r.ending.Done? && r.ending.result.stop != StopUnknown
    requires e.publication == Granted
    ensures var r := RunSession(h, e, d);
      r.ending.result.receipts == Digests(r.d.record.completions) && |r.d.record.charges| == |r.d.record.completions|
  {
    hide Turns, Journal, EvidenceChecked, Frontier;
    TurnsKeepJournal(h, e, 1, NewSession(h), d);
    var t := Turns(h, e, 1, NewSession(h), d);
    FrontierReceipts(t.s, t.d);
  }

  lemma AuthorityIsAllThatMatters(h: Host, e: Env, e2: Env, turn: nat, s: Session, d: Durable)
    requires e.world == e2.world && AlwaysGranted(h, e, turn) && AlwaysGranted(h, e2, turn)
    ensures Turns(h, e, turn, s, d) == Turns(h, e2, turn, s, d)
    decreases h.limits.modelCalls + 1 - turn
  {
    hide Turn, Turns, Ended;
    if turn > h.limits.modelCalls {
      TurnsBeyond(h, e, turn, s, d);
      TurnsBeyond(h, e2, turn, s, d);
    } else {
      TurnsStep(h, e, turn, s, d);
      TurnsStep(h, e2, turn, s, d);
      TurnIgnoresOtherAnswers(h, e, e2, turn, s, d);
      var t := Turn(h, e, turn, s, d);
      if t.out == Go(Continue) {
        AuthorityIsAllThatMatters(h, e, e2, turn + 1, t.s, t.d);
      }
    }
  }

  lemma SessionIfAuthorized(h: Host, e: Env, d: Durable)
    requires AlwaysGranted(h, e, 1) && e.publication == Granted
    ensures RunSession(h, e, d) == RunSession(h, Authorized(e.world), d)
  {
    hide Turns, EvidenceChecked;
    AuthorityIsAllThatMatters(h, e, Authorized(e.world), 1, NewSession(h), d);
  }

  lemma EnterIfAuthorized(h: Host, e: Env, disk: Disk)
    requires e.world.Sealed? && AlwaysGranted(h, e, 1) && e.publication == Granted
    ensures Enter(h, e, disk) == Enter(h, Authorized(e.world), disk)
  {
    var store := Retain(disk.store, BindingOf(h).content);
    if store.Some? && SealedOpenReply(disk.row, h.run, BindingOf(h), h.limits) in {New, Existing} {
      SessionIfAuthorized(h, e, Durable(disk.row.value, store.value, disk.effects));
    }
    hide RunSession, BindingOf, Retain;
  }

  /**
   After any schedule, an authorized entry that reaches a result with every receipt in hand leaves a journal whose
   receipts are its completions; the report is reconstructed from it, exactly unless the entry stopped at a prompt
   that only the provider refuses and that the ledger had room for.
   */
  lemma ReconstructionAcceptsExactly(h: Host, envs: seq<Env>, e: Env)
    requires ValidHost(h) && h.settings.ceiling && AllLive(envs) && e.world.Live?
    requires AlwaysGranted(h, e, 1) && e.publication == Granted
    requires var end := Enter(h, e, Schedule(h, envs, BLANK)).ending; end.Done? && end.result.stop != StopUnknown
    ensures var r := Enter(h, e, Schedule(h, envs, BLANK));
      && r.disk.row.Some?
      && (Reconstructs(h, r.disk, r.ending.result)
          <==> !(MeetsRefusal(h, e, r.disk) && RoomForPrompt(h, r.disk.row.value)))
  {
    hide Enter, RunSession, Tail, Schedule, Journal, MeetsRefusal, RoomForPrompt;
    ScheduleIsReachable(h, envs);
    var disk := Schedule(h, envs, BLANK);
    EnterOpens(h, e, disk);
    OpenedIsJournal(h, disk);
    SessionConsumesAll(h, e, Opened(h, disk));
    ReconstructionIsExactly(h, e, disk);
    ReconstructsExactlyWhen(h, e, disk);
    EnterIfAuthorized(h, Sealedly(e, NoDispatch(h)), Enter(h, e, disk).disk);
  }

  /** A local run that answered after a denied read batch is among those replayed exactly. */
  lemma DeniedBatchReplaysExactly(h: Host, e: Env, q: ReadRequest)
    requires ReadlessHost(h) && AsksThenAnswers(e, q)
    ensures var r := Enter(h, e, BLANK);
      && r.ending.Done? && r.ending.result.stop == StopReason.Finished && |r.ending.result.receipts| == 2
      && Enter(h, Sealedly(e, NoDispatch(h)), r.disk) == r
  {
    hide Enter;
    AnswersAfterDeniedBatch(h, e, q);
    AcceptingProviderReplaysExactly(h, e, BLANK);
  }

  // ----- such a run exists

  /** No evidence, room for one prompt, and a provider that refuses it. */
  function RefusingHost(): Host {
    Host("incident", "operator", [], {}, ReasoningBudget(1, 110, 0, 0, 0, 2),
         Settings(false, true, 100, 10, Price(0, 0, 0)),
         View((e: Entry) => 2, (e: Evidence) => "", (s: seq<Evidence>) => {}), (c: ReasoningContext) => map[],
         (t: PromptText) => true, (t: PromptText) => None)
  }

  lemma RefusedFirstPrompt(e: Env, d: Durable)
    requires e.authority(1) == Granted && d.record.charges == []
    ensures var h := RefusingHost();
      && StopsAt(h, 1, NewSession(h), d)
      && (e.world.Live? || e.world == Sealing(h) ==>
            Turn(h, e, 1, NewSession(h), d) == Step(Halt(StopBudget), NewSession(h), d))
  {
    hide ContextOf, ModelGranted, ModelSaved;
    EmptyContext(RefusingHost(), NewSession(RefusingHost()), d.store);
  }

  /** A finished, authorized run whose report the reconstruction refuses. */
  lemma RefusedPromptIsNotReconstructed(e: Env)
    requires e.world.Live? && AlwaysGranted(RefusingHost(), e, 1) && e.publication == Granted
    ensures var h := RefusingHost(); var r := Enter(h, e, BLANK);
      && ValidHost(h) && r.ending == Done(LoopResult(StopBudget, [], [], []))
      && Enter(h, Authorized(NoDispatch(h)), r.disk).ending == Raised(NewWorkRefused)
      && !Reconstructs(h, r.disk, r.ending.result)
  {
    hide Enter, Turn, Turns, EvidenceChecked, Ended, StopsAt, ContextOf;
    var h := RefusingHost();
    EnterOpens(h, e, BLANK);
    var d := Opened(h, BLANK);
    RefusedFirstPrompt(e, d);
    TurnsStep(h, e, 1, NewSession(h), d);
    EndedBudget(NewSession(h), d);
    EmptyContext(h, NewSession(h), d.store);
    var r := Enter(h, e, BLANK);
    assert d.store[BindingOf(h) := BindingOf(h).content] == d.store;
    assert Opened(h, r.disk) == d;
    assert Spent([]) == ZERO;
    ReconstructionIsExactly(h, e, BLANK);
    EnterIfAuthorized(h, Sealedly(e, NoDispatch(h)), r.disk);
  }

  lemma EndedBudget(s: Session, d: Durable)
    ensures Ended(Step(Halt(StopBudget), s, d)) == Step(Halt(StopBudget), s, d)
  {
  }
}
