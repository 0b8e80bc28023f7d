/**
 The reasoning loop in the form the host runs it: a session object that updates its own fields, a ledger
 object, artifact files and the outside world. Every method does exactly what the functions of `Loop` say.
 */
module LoopSession {
  import opened Records
  import opened Context
  import opened Budget
  import opened Loop

  /** The artifact directory. */
  class ArtifactFiles {
    var files: Store

    constructor (files: Store)
      ensures this.files == files
    {
      this.files := files;
    }

    method Write(a: Artifact) returns (ok: bool)
      modifies this
      ensures ok == Retain(old(files), a).Some?
      ensures files == if ok then Retain(old(files), a).value else old(files)
    {
      var digest := Sha256(a);
      if digest in files && files[digest] != a {
        return false;
      }
      files := files[digest := a];
      ok := true;
    }

    /** What one handler stored; a failed write undoes nothing but fails the read. */
    method WriteAll(artifacts: seq<Artifact>) returns (ok: bool)
      modifies this
      ensures ok == RetainAll(old(files), artifacts).Some?
      ensures files == if ok then RetainAll(old(files), artifacts).value else old(files)
    {
      var before := files;
      var i := 0;
      while i < |artifacts|
        invariant i <= |artifacts|
        invariant RetainAll(before, artifacts) == RetainAll(files, artifacts[i..])
      {
        var written := Write(artifacts[i]);
        if !written {
          files := before;
          return false;
        }
        i := i + 1;
      }
      ok := true;
    }
  }

  /** The provider and the read handlers, with the calls they have received. */
  class Outside {
    const world: World
    var effects: seq<OpId>

    constructor (world: World, effects: seq<OpId>)
      ensures this.world == world && this.effects == effects
    {
      this.world := world;
      this.effects := effects;
    }

    method Observe(turn: nat) returns (o: Observation)
      requires world.Live?
      modifies this
      ensures effects == old(effects) + [ModelOp(turn)] && o == world.observe(turn)
    {
      effects := effects + [ModelOp(turn)];
      o := world.observe(turn);
    }

    /** The registry's charged batch: one handler per request, in order. */
    method Dispatch(turn: nat, requests: seq<ReadRequest>, store: ArtifactFiles) returns (results: seq<ReadResult>)
      requires world.Live?
      modifies this, store
      ensures effects == old(effects) + [ReadsOp(turn)]
      ensures (store.files, results) == Handle(world, turn, requests, 0, old(store.files))
    {
      effects := effects + [ReadsOp(turn)];
      results := [];
      var before := store.files;
      for i := 0 to |requests|
        invariant effects == old(effects) + [ReadsOp(turn)] && |results| == i
        invariant var rest := Handle(world, turn, requests, i, store.files);
          var whole := Handle(world, turn, requests, 0, before);
          whole.0 == rest.0 && whole.1 == results + rest.1
      {
        var reply := world.handle(turn, i);
        var stored := store.WriteAll(reply.files);
        var result := if stored then ReadResult(requests[i], reply.status, reply.evidence)
                      else ReadResult(requests[i], ReadError, []);
        ghost var earlier, later := results, Handle(world, turn, requests, i + 1, store.files).1;
        results := results + [result];
        assert results + later == earlier + ([result] + later);
      }
      assert results + [] == results;
    }
  }

  class Conversation {
    const host: Host
    const ledger: BudgetLedger
    const store: ArtifactFiles
    const outside: Outside
    var evidence: seq<Evidence>
    var receipts: seq<Digest>
    var feedback: seq<Feedback>
    var exhausted: bool
    var completedReads: set<ReadRequest>
    var preferred: set<string>
    var invalid: nat

    constructor (host: Host, ledger: BudgetLedger, store: ArtifactFiles, outside: Outside)
      ensures this.host == host && this.ledger == ledger && this.store == store && this.outside == outside
      ensures Volatile() == NewSession(host)
    {
      this.host, this.ledger, this.store, this.outside := host, ledger, store, outside;
      evidence, receipts, feedback, exhausted := host.initial, [], [], false;
      completedReads, preferred, invalid := {}, {}, 0;
    }

    ghost predicate Valid()
      reads ledger
    {
      && host.run in ledger.rows && ledger.rows[host.run].run == host.run
      && ledger.finished == outside.world.Sealed?
    }

    ghost function Volatile(): Session
      reads this
    {
      Session(evidence, receipts, feedback, exhausted, completedReads, preferred, invalid)
    }

    ghost function State(): Durable
      requires host.run in ledger.rows
      reads ledger, store, outside
    {
      Durable(ledger.rows[host.run], store.files, outside.effects)
    }

    /** Where a method stands: what it returned, the session and the durable state. */
    ghost function At<T>(out: Outcome<T>): Step<T>
      requires host.run in ledger.rows
      reads this, ledger, store, outside
    {
      Step(out, Volatile(), State())
    }

    /** The second half of `publish`: the compare-and-set that anchors the receipt. */
    method Anchor(turn: nat, completed: Site, op: OpId, digest: Digest) returns (out: Outcome<()>)
      requires Valid()
      modifies ledger
      ensures Valid()
      ensures At(out) == Anchored(outside.world, turn, completed, op, digest, old(Volatile()), old(State()))
    {
      hide CompleteReply;
      var reply := ledger.Complete(ledger.rows[host.run], op, digest);
      if reply == NewWork {
        return Fail(NewWorkRefused);
      }
      if reply !in {New, Existing} {
        return Fail(Integrity);
      }
      if reply == New && Dies(outside.world, turn, completed) {
        return Dead;
      }
      out := Go(());
    }

    method Publish(turn: nat, retained: Site, completed: Site, op: OpId, receipt: Artifact) returns (out: Outcome<()>)
      requires Valid()
      modifies ledger, store
      ensures Valid()
      ensures At(out) == Loop.Publish(outside.world, turn, retained, completed, op, receipt, old(Volatile()),
                                      old(State()))
    {
      hide Anchored, Loop.Publish, Retain;
      ghost var s, d := Volatile(), State();
      var written := store.Write(receipt);
      if !written {
        PublishUnwritten(outside.world, turn, retained, completed, op, receipt, s, d);
        return Fail(Integrity);
      }
      PublishWritten(outside.world, turn, retained, completed, op, receipt, s, d);
      if Dies(outside.world, turn, retained) {
        return Dead;
      }
      out := Anchor(turn, completed, op, Sha256(receipt));
    }

    /** The saved end of a model turn, the same for a fresh and a replayed one. */
    method SavedModel(turn: nat, c: ReasoningContext, charged: Charge) returns (out: Outcome<Observation>)
      requires Valid()
      modifies this
      ensures At(out) == ModelSaved(host, turn, c, charged, old(Volatile()), old(State()))
    {
      hide FindCompletion, ContextIds, Parses;
      if !charged.ModelCharge? {
        return Fail(Integrity);
      }
      var prepared := Restore(store.files, charged.prompt);
      if prepared.None? || !prepared.value.PreparedArtifact? {
        return Fail(Integrity);
      }
      var p := prepared.value.turn;
      if (p.run, p.op, p.binding, p.context) != (host.run, ModelOp(turn), BindingOf(host), c) {
        return Fail(Integrity);
      }
      var digest := FindCompletion(ledger.rows[host.run].completions, ModelOp(turn));
      if digest.None? {
        return Halt(StopUnknown);
      }
      receipts := receipts + [digest.value];
      var saved := Restore(store.files, digest.value);
      if saved.None? || !saved.value.ModelReceipt? {
        return Fail(Integrity);
      }
      if (saved.value.run, saved.value.op, saved.value.prompt) != (host.run, ModelOp(turn), charged.prompt) {
        return Fail(Integrity);
      }
      var observation := saved.value.observation;
      if observation.decision.Some? && !Parses(observation.decision.value, ContextIds(c), host.causes) {
        return Fail(Integrity);
      }
      out := Go(observation);
    }

    method GrantedModel(turn: nat, c: ReasoningContext, charge: Charge) returns (out: Outcome<Observation>)
      requires Valid() && outside.world.Live? && charge.ModelCharge?
      modifies this, ledger, store, outside
      ensures Valid()
      ensures At(out) == ModelGranted(host, outside.world, turn, c, charge, old(Volatile()), old(State()))
    {
      hide Loop.Publish, ModelSaved;
      if Dies(outside.world, turn, ModelReserved) {
        return Dead;
      }
      var observation := outside.Observe(turn);
      if Dies(outside.world, turn, ModelCalled) {
        return Dead;
      }
      var receipt := ModelReceipt(host.run, ModelOp(turn), charge.prompt, observation);
      var published := Publish(turn, ModelReceiptRetained, ModelCompleted, ModelOp(turn), receipt);
      match published
      case Go(_) => out := SavedModel(turn, c, charge);
      case Halt(reason) => out := Halt(reason);
      case Fail(failure) => out := Fail(failure);
      case Dead => out := Dead;
    }

    method Model(turn: nat, c: ReasoningContext) returns (out: Outcome<Observation>)
      requires Valid()
      modifies this, ledger, store, outside
      ensures Valid()
      ensures At(out) == Loop.Model(host, outside.world, turn, c, old(Volatile()), old(State()))
    {
      hide ModelGranted, ModelSaved, ValidRecord, FindCharge, Prepare;
      var record := ledger.rows[host.run];
      var charged := FindCharge(record.charges, ModelOp(turn));
      if charged.Some? {
        out := SavedModel(turn, c, charged.value);
        return;
      }
      var tokens := Prepare(host, outside.world, PromptText(turn, c, feedback, exhausted));
      if tokens.None? {
        return Halt(StopBudget);
      }
      var prepared := PreparedArtifact(PreparedFor(host, turn, c, Session(evidence, receipts, feedback, exhausted,
                                                   completedReads, preferred, invalid), tokens.value));
      var written := store.Write(prepared);
      if !written {
        return Fail(Integrity);
      }
      var charge := ModelChargeFor(host, turn, Sha256(prepared), tokens.value);
      if Dies(outside.world, turn, PromptRetained) {
        return Dead;
      }
      var reply := ledger.Reserve(record, charge);
      match reply
      case New => out := GrantedModel(turn, c, charge);
      case Existing | Denied => out := Halt(StopBudget);
      case NewWork => out := Fail(NewWorkRefused);
      case _ => out := Fail(Integrity);
    }

    /** One result's items, checked and entered under their ids. */
    method MergeOne(service: string, items: seq<Evidence>, merged: seq<Evidence>)
      returns (result: Option<seq<Evidence>>)
      ensures result == MergeItems(host, store.files, service, items, merged)
    {
      hide Verified, FindEvidence;
      var current := merged;
      for i := 0 to |items|
        invariant MergeItems(host, store.files, service, items, merged)
               == MergeItems(host, store.files, service, items[i..], current)
      {
        var item := items[i];
        if item.meta.incident != host.run || item.meta.resource != service || !Verified(store.files, item) {
          return None;
        }
        var known := FindEvidence(current, item.meta.id);
        if known.Some? && known.value != item {
          return None;
        }
        if known.None? {
          current := current + [item];
        }
      }
      result := Some(current);
    }

    /** `accept_reads`: a failing batch keeps the feedback of the results before it and nothing else. */
    method Accept(results: seq<ReadResult>) returns (out: Outcome<()>)
      requires Valid()
      modifies this
      ensures At(out) == AcceptReads(host, results, old(Volatile()), old(State()))
    {
      hide MergeItems;
      var merged := evidence;
      for i := 0 to |results|
        invariant Volatile() == old(Volatile()).(feedback := feedback)
        invariant MergeResults(host, store.files, results, evidence, old(feedback))
               == MergeResults(host, store.files, results[i..], merged, feedback)
      {
        var r := results[i];
        if r.status != ReadOk && r.evidence != [] {
          return Fail(Integrity);
        }
        if r.status in {ReadDenied, ReadTimeout, ReadBusy} {
          return Halt(StopOfRead(r.status));
        }
        var next := MergeOne(r.request.service, r.evidence, merged);
        if next.None? {
          return Fail(Integrity);
        }
        merged := next.value;
        feedback := feedback + [FeedbackOf(host, r)];
      }
      if |merged| > 256 {
        return Halt(StopBudget);
      }
      evidence := merged;
      completedReads := completedReads + set r | r in results :: r.request;
      preferred := set r, e | r in results && e in r.evidence :: e.meta.id;
      out := Go(());
    }

    method SavedReads(turn: nat, requests: seq<ReadRequest>) returns (out: Outcome<()>)
      requires Valid()
      modifies this
      ensures At(out) == ReadsSaved(host, turn, requests, old(Volatile()), old(State()))
    {
      hide FindCompletion, AcceptReads;
      var digest := FindCompletion(ledger.rows[host.run].completions, ReadsOp(turn));
      if digest.None? {
        return Halt(StopUnknown);
      }
      receipts := receipts + [digest.value];
      var saved := Restore(store.files, digest.value);
      if saved.None? || !saved.value.ReadReceipt? {
        return Fail(Integrity);
      }
      if (saved.value.run, saved.value.op) != (host.run, ReadsOp(turn)) || Requests(saved.value.results) != requests {
        return Fail(Integrity);
      }
      out := Accept(saved.value.results);
    }

    method GrantedReads(turn: nat, requests: seq<ReadRequest>) returns (out: Outcome<()>)
      requires Valid() && outside.world.Live?
      modifies this, ledger, store, outside
      ensures Valid()
      ensures At(out) == ReadsGranted(host, outside.world, turn, requests, old(Volatile()), old(State()))
    {
      hide Loop.Publish, ReadsSaved, Handle;
      if Dies(outside.world, turn, ReadsReserved) {
        return Dead;
      }
      var results := outside.Dispatch(turn, requests, store);
      if Dies(outside.world, turn, ReadsCalled) {
        return Dead;
      }
      out := Publish(turn, ReadsReceiptRetained, ReadsCompleted, ReadsOp(turn),
                     ReadReceipt(host.run, ReadsOp(turn), results));
      if out.Go? {
        out := SavedReads(turn, requests);
      }
    }

    method Reads(turn: nat, requests: seq<ReadRequest>) returns (out: Outcome<()>)
      requires Valid()
      modifies this, ledger, store, outside
      ensures Valid()
      ensures At(out) == Loop.Reads(host, outside.world, turn, requests, old(Volatile()), old(State()))
    {
      hide ReadsGranted, ReadsSaved, ValidRecord, FindCharge;
      var record := ledger.rows[host.run];
      var charged := FindCharge(record.charges, ReadsOp(turn));
      if charged.Some? {
        if !charged.value.ReadCharge? || charged.value.requests != requests {
          return Fail(Integrity);
        }
        out := SavedReads(turn, requests);
        return;
      }
      var reply := ledger.Reserve(record, ReadCharge(ReadsOp(turn), requests, CatalogCost(requests)));
      match reply
      case New => out := GrantedReads(turn, requests);
      case Existing | Denied => out := Halt(StopBudget);
      case NewWork => out := Fail(NewWorkRefused);
      case _ => out := Fail(Integrity);
    }

    /** The requests of this batch the session has not completed before. */
    method Outstanding(requests: seq<ReadRequest>) returns (kept: seq<ReadRequest>)
      ensures kept == NotCompleted(Volatile(), requests)
    {
      kept := [];
      ghost var s := Volatile();
      for i := 0 to |requests|
        invariant kept == NotCompleted(s, requests[..i])
      {
        assert requests[..i + 1][..i] == requests[..i];
        if requests[i] !in completedReads {
          kept := kept + [requests[i]];
        }
      }
      assert requests[..|requests|] == requests;
    }

    method RequestReads(turn: nat, requests: seq<ReadRequest>) returns (out: Outcome<()>)
      requires Valid()
      modifies this, ledger, store, outside
      ensures Valid()
      ensures At(out) == Loop.RequestReads(host, outside.world, turn, requests, old(Volatile()), old(State()))
    {
      hide Loop.Reads, NotCompleted;
      var wanted := requests;
      if host.settings.local {
        wanted := Outstanding(requests);
      }
      if wanted == [] {
        exhausted := true;
        feedback := feedback + [AlreadyCompleted];
        return Go(());
      }
      out := Reads(turn, wanted);
      if out == Halt(StopBudget) && host.settings.local && turn < host.limits.modelCalls {
        exhausted := true;
        feedback := feedback + [ReadBudgetSpent];
        out := Go(());
      }
    }

    /** The body of one iteration of `run`. */
    method OneTurn(e: Env, turn: nat) returns (out: Outcome<Progress>)
      requires Valid() && e.world == outside.world
      modifies this, ledger, store, outside
      ensures Valid()
      ensures At(out) == Turn(host, e, turn, old(Volatile()), old(State()))
    {
      hide Loop.Model, Loop.RequestReads, BuildContext, Supported;
      if e.authority(turn) != Granted {
        return Halt(StopOf(e.authority(turn)));
      }
      var built := Build(evidence, host.run, VerifiedIn(store.files), host.view, ContextLimit(host.settings), 64,
                         host.settings.local, preferred);
      if !built.Built? {
        return Fail(Integrity);
      }
      var c := built.context;
      var observed := Model(turn, c);
      if !observed.Go? {
        return Stopped(observed);
      }
      var o := observed.value;
      if o.status == InvalidOutput {
        invalid := invalid + 1;
        if invalid > 1 {
          return Halt(StopInvalidOutput);
        }
        feedback := feedback + [BadOutput];
        return Go(Continue);
      }
      if o.status != ModelOk {
        return Halt(StopOfModel(o.status));
      }
      if o.decision.value.verdict == Finish {
        return Go(Answer(Supported(host, c, o.decision.value.causes)));
      }
      var batch := RequestReads(turn, o.decision.value.requests);
      out := if batch.Go? then Go(Continue) else Stopped(batch);
    }

    /** `LoopSession.run`: turns until an answer, a stop, a failure or death, then the closing checks. */
    method Run(e: Env) returns (ending: Ending)
      requires Valid() && e.world == outside.world && Volatile() == NewSession(host)
      modifies this, ledger, store, outside
      ensures Valid()
      ensures RunEnd(ending, State()) == RunSession(host, e, old(State()))
    {
      hide Turn, Turns, BuildContext;
      var opening := Build(evidence, host.run, VerifiedIn(store.files), host.view, 24000, 64, false, {});
      if !opening.Built? {
        return Raised(Integrity);
      }
      var out: Outcome<seq<Cause>> := Halt(StopBudget);
      var turn, running := 1, true;
      ghost var whole := Turns(host, e, 1, Volatile(), State());
      while running && turn <= host.limits.modelCalls
        invariant Valid() && 1 <= turn
        invariant running ==> Turns(host, e, turn, Volatile(), State()) == whole && out == Halt(StopBudget)
        invariant !running ==> At(out) == whole
        decreases running, host.limits.modelCalls - turn
      {
        TurnsUnfold(host, e, turn, Volatile(), State());
        var progress := OneTurn(e, turn);
        if progress == Go(Continue) {
          turn := turn + 1;
        } else {
          out := if progress.Go? then Go(progress.value.causes) else Stopped(progress);
          running := false;
        }
      }
      TurnsUnfold(host, e, turn, Volatile(), State());
      ending := Close(e, out);
    }

    /** The recheck of all evidence and, for an answer, the last authority check. */
    method Close(e: Env, out: Outcome<seq<Cause>>) returns (ending: Ending)
      requires Valid()
      ensures ending == Concluded(host, e, At(out))
    {
      hide BuildContext;
      if out.Dead? {
        return Crashed;
      }
      if out.Fail? {
        return Raised(out.failure);
      }
      var closing := Build(evidence, host.run, VerifiedIn(store.files), host.view, 24000, 64, false, {});
      if !closing.Built? {
        return Raised(Integrity);
      }
      if out.Halt? {
        return Done(LoopResult(out.reason, [], evidence, receipts));
      }
      if e.publication != Granted {
        return Done(LoopResult(StopOf(e.publication), [], evidence, receipts));
      }
      ending := Done(LoopResult(Finished, out.value, evidence, receipts));
    }
  }

  /** `ReasoningLoop.run`: store the binding, open the ledger, run one session. */
  method RunLoop(host: Host, e: Env, ledger: BudgetLedger, store: ArtifactFiles, outside: Outside)
    returns (ending: Ending)
    requires ledger.finished == e.world.Sealed? && outside.world == e.world
    requires host.run in ledger.rows ==> ledger.rows[host.run].run == host.run
    modifies ledger, store, outside
    ensures var r := Enter(host, e, Disk(Row(old(ledger.rows), host.run), old(store.files), old(outside.effects)));
      ending == r.ending && Disk(Row(ledger.rows, host.run), store.files, outside.effects) == r.disk
  {
    hide RunSession;
    var written := store.Write(BindingOf(host).content);
    if !written {
      return Raised(Integrity);
    }
    var reply := ledger.Open(host.run, BindingOf(host), host.limits);
    if reply !in {New, Existing} {
      return Raised(Integrity);
    }
    var session := new Conversation(host, ledger, store, outside);
    ending := session.Run(e);
  }

  lemma PublishUnwritten(w: World, turn: nat, retained: Site, completed: Site, op: OpId, receipt: Artifact, s: Session,
                         d: Durable)
    requires Retain(d.store, receipt).None?
    ensures Loop.Publish(w, turn, retained, completed, op, receipt, s, d) == Step(Fail(Integrity), s, d)
  {
    hide Anchored, Retain;
  }

  lemma PublishWritten(w: World, turn: nat, retained: Site, completed: Site, op: OpId, receipt: Artifact, s: Session,
                       d: Durable)
    requires Retain(d.store, receipt).Some?
    ensures var d1 := d.(store := Retain(d.store, receipt).value);
      Loop.Publish(w, turn, retained, completed, op, receipt, s, d)
        == if Dies(w, turn, retained) then Step(Dead, s, d1)
           else Anchored(w, turn, completed, op, Sha256(receipt), s, d1)
  {
    hide Anchored, Retain;
  }

  function Stopped<T, U>(out: Outcome<T>): (r: Outcome<U>)
    requires !out.Go?
    ensures !r.Go?
  {
    match out
    case Halt(reason) => Halt(reason)
    case Fail(failure) => Fail(failure)
    case Dead => Dead
  }

  lemma TurnsUnfold(h: Host, e: Env, turn: nat, s: Session, d: Durable)
    ensures turn > h.limits.modelCalls ==> Turns(h, e, turn, s, d) == Step(Halt(StopBudget), s, d)
    ensures turn <= h.limits.modelCalls ==> var t := Turn(h, e, turn, s, d);
      Turns(h, e, turn, s, d) == if t.out == Go(Continue) then Turns(h, e, turn + 1, t.s, t.d) else Ended(t)
  {
  }
}
