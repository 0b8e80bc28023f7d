/**
 Sessions of one run side by side, as if the file lock were not there. Each re-reads the row for every operation,
 consumes what is completed, asks for what is not charged, performs only what was granted, and anchors the receipt;
 between any two of these steps any other session, or its own death, may come. The conditional update alone keeps the
 journal in order.
 */
module SessionRace {
  import opened Records
  import opened Budget
  import opened LoopJournal
  import opened LoopSchedule

  /**
   What a session that has consumed these completions asks for: one charge after the other, the next one only when the
   ledger denied the one before. Sessions are replays of each other, so all follow the same plan.
   */
  type Plan = seq<Completion> -> seq<Charge>

  datatype Worker =
    | Consuming(done: seq<Completion>, tried: nat)
    | Asking(done: seq<Completion>, tried: nat, record: BudgetRecord)
    | Holding(op: OpId)
    | Performed(op: OpId)
    | Anchoring(op: OpId, record: BudgetRecord, artifact: Digest)

  datatype State = State(row: BudgetRecord, workers: map<nat, Worker>, effects: seq<OpId>)

  datatype Move = Join(worker: nat) | Look(worker: nat) | Reserve(worker: nat) | Perform(worker: nat)
                | Fetch(worker: nat, artifact: Digest) | Anchor(worker: nat) | Leave(worker: nat)

  function Put(s: State, w: nat, worker: Worker): State {
    s.(workers := s.workers[w := worker])
  }

  function Gone(s: State, w: nat): State {
    s.(workers := s.workers - {w})
  }

  /** The saved operation is consumed, an open or foreign one stops the session, an uncharged one is asked for. */
  function Looked(plan: Plan, s: State, w: nat): State
    requires w in s.workers && s.workers[w].Consuming?
  {
    var (done, tried) := (s.workers[w].done, s.workers[w].tried);
    if tried >= |plan(done)| then Gone(s, w)
    else
      var c := plan(done)[tried];
      match FindCharge(s.row.charges, c.op)
      case None => Put(s, w, Asking(done, tried, s.row))
      case Some(charged) =>
        var saved := FindCompletion(s.row.completions, c.op);
        if charged != c || saved.None? then Gone(s, w)
        else Put(s, w, Consuming(done + [Completion(c.op, saved.value)], 0))
  }

  function Swapped(plan: Plan, s: State, w: nat): State
    requires w in s.workers && s.workers[w].Asking?
  {
    var (done, tried, record) := (s.workers[w].done, s.workers[w].tried, s.workers[w].record);
    if tried >= |plan(done)| then Gone(s, w)
    else
      var c := plan(done)[tried];
      match ReserveReply(Some(s.row), record, c)
      case New => Put(s, w, Holding(c.op)).(row := Charged(record, c))
      case Denied => Put(s, w, Consuming(done, tried + 1))
      case _ => Gone(s, w)
  }

  function Anchored(s: State, w: nat): State
    requires w in s.workers && s.workers[w].Anchoring?
  {
    var (op, record, artifact) := (s.workers[w].op, s.workers[w].record, s.workers[w].artifact);
    match CompleteReply(Some(s.row), record, op, artifact)
    case New =>
      var r := Completed(record, op, artifact);
      Put(s, w, Consuming(r.completions, 0)).(row := r)
    case _ => Gone(s, w)
  }

  function Apply(plan: Plan, s: State, m: Move): State {
    if m.Join? then (if m.worker in s.workers then s else Put(s, m.worker, Consuming([], 0)))
    else if m.worker !in s.workers then s
    else
      var (w, p) := (m.worker, s.workers[m.worker]);
      if m.Look? && p.Consuming? then Looked(plan, s, w)
      else if m.Reserve? && p.Asking? then Swapped(plan, s, w)
      else if m.Perform? && p.Holding? then Put(s, w, Performed(p.op)).(effects := s.effects + [p.op])
      else if m.Fetch? && p.Performed? then Put(s, w, Anchoring(p.op, s.row, m.artifact))
      else if m.Anchor? && p.Anchoring? then Anchored(s, w)
      else if m.Leave? then Gone(s, w)
      else s
  }

  function Run(plan: Plan, s: State, moves: seq<Move>): State
    decreases |moves|
  {
    if moves == [] then s else Apply(plan, Run(plan, s, moves[..|moves| - 1]), moves[|moves| - 1])
  }

  function Opened(run: string, binding: Digest, limits: ReasoningBudget): State {
    State(Fresh(run, binding, limits), map[], [])
  }

  // ----- what sessions ask for

  /** The operations that may come after these: the model of the next turn, or the reads of a turn that has none yet. */
  predicate Follows(ids: seq<OpId>, op: OpId) {
    if ids == [] then op == ModelOp(1)
    else
      var last := ids[|ids| - 1];
      op == ModelOp(last.turn + 1) || (last.ModelOp? && op == ReadsOp(last.turn))
  }

  /** Sessions ask for valid charges in turn order. */
  ghost predicate InTurnOrder(plan: Plan) {
    forall done, t :: 0 <= t < |plan(done)| ==>
      ValidCharge(plan(done)[t]) && Follows(CompletionIds(done), plan(done)[t].op)
  }

  lemma {:induction false} ShapeExtends(ids: seq<OpId>, op: OpId, turn: nat)
    requires Shape(ids, turn) && (if ids == [] then op == ModelOp(turn) else Follows(ids, op))
    ensures Shape(ids + [op], turn)
    decreases |ids|
  {
    var more := ids + [op];
    if ids == [] {
      assert more[1..] == [];
    } else if |ids| == 1 {
      assert ids[1..] == [] && more[1..] == [op] && [op][1..] == [] && more[2..] == [];
    } else if ids[1] == ReadsOp(turn) && Shape(ids[2..], turn + 1) {
      assert more[2..] == ids[2..] + [op];
      if |ids| > 2 {
        assert ids[2..][|ids| - 3] == ids[|ids| - 1];
      }
      ShapeExtends(ids[2..], op, turn + 1);
    } else {
      assert more[1..] == ids[1..] + [op];
      assert ids[1..][|ids| - 2] == ids[|ids| - 1];
      ShapeExtends(ids[1..], op, turn + 1);
    }
  }

  /** Turns never fall; within one turn the model comes before the reads. */
  ghost predicate Ascending(ids: seq<OpId>, turn: nat) {
    && (forall i :: 0 <= i < |ids| ==> turn <= ids[i].turn)
    && (forall i, j :: 0 <= i < j < |ids| ==>
          ids[i].turn < ids[j].turn || (ids[i] == ModelOp(ids[i].turn) && ids[j] == ReadsOp(ids[i].turn)))
  }

  lemma {:induction false} ShapeAscends(ids: seq<OpId>, turn: nat)
    requires Shape(ids, turn)
    ensures Ascending(ids, turn)
    decreases |ids|
  {
    if ids != [] {
      var skip := if Shape(ids[1..], turn + 1) then 1 else 2;
      ShapeAscends(ids[skip..], turn + 1);
      assert forall i :: skip <= i < |ids| ==> ids[i] == ids[skip..][i - skip];
    }
  }

  lemma FollowingIsNew(ids: seq<OpId>, op: OpId)
    requires Shape(ids, 1) && Follows(ids, op)
    ensures op !in ids
  {
    ShapeAscends(ids, 1);
  }

  // ----- what every interleaving keeps

  predicate Holds(w: Worker) { w.Holding? || w.Performed? || w.Anchoring? }

  predicate IsOpen(r: BudgetRecord) { |r.completions| < |r.charges| }

  /** Asked for after exactly the completions before it, everything ahead of it in the plan having been unaffordable. */
  ghost predicate PlannedAt(plan: Plan, r: BudgetRecord, i: nat, t: nat)
    requires i < |r.charges| && i <= |r.completions|
  {
    var wanted := plan(r.completions[..i]);
    && t < |wanted| && wanted[t] == r.charges[i]
    && forall u :: 0 <= u < t ==> Unaffordable(r.charges[..i], r.limits, wanted[u])
  }

  ghost predicate WasPlanned(plan: Plan, r: BudgetRecord, i: nat)
    requires i < |r.charges| && i <= |r.completions|
  {
    exists t: nat :: PlannedAt(plan, r, i, t)
  }

  ghost predicate Planned(plan: Plan, r: BudgetRecord)
    requires Aligned(r)
  {
    forall i :: 0 <= i < |r.charges| ==> WasPlanned(plan, r, i)
  }

  ghost predicate GoodRow(plan: Plan, r: BudgetRecord) {
    ValidRecord(r) && Aligned(r) && Shape(ChargeIds(r.charges), 1) && Planned(plan, r)
  }

  /** This charge is not in the record and can never be. */
  ghost predicate Excluded(r: BudgetRecord, c: Charge) {
    c !in r.charges && Unaffordable(r.charges, r.limits, c)
  }

  /** A session's history is the beginning of the row's, and what it was denied stays denied. */
  ghost predicate GoodSession(plan: Plan, r: BudgetRecord, done: seq<Completion>, tried: nat) {
    && done <= r.completions && tried <= |plan(done)|
    && forall u :: 0 <= u < tried ==> Excluded(r, plan(done)[u])
  }

  /** The holder's operation is the open one. */
  ghost predicate GoodHolder(s: State, w: Worker)
    requires Holds(w)
  {
    && IsOpen(s.row) && s.row.charges[|s.row.charges| - 1].op == w.op
    && (w.op in s.effects <==> !w.Holding?) && (w.Anchoring? ==> w.record == s.row)
  }

  ghost predicate GoodWorker(plan: Plan, s: State, w: Worker) {
    match w
    case Consuming(done, tried) => GoodSession(plan, s.row, done, tried)
    case Asking(done, tried, record) =>
      && GoodSession(plan, s.row, done, tried) && ValidRecord(record) && Extends(record, s.row)
      && (tried < |plan(done)| ==> plan(done)[tried].op !in ChargeIds(record.charges))
    case _ => GoodHolder(s, w)
  }

  /** Everything completed was performed, everything performed is charged, nothing twice. */
  ghost predicate GoodEffects(s: State) {
    && Distinct(s.effects)
    && (forall op :: op in s.effects ==> op in ChargeIds(s.row.charges))
    && (forall op :: op in CompletionIds(s.row.completions) ==> op in s.effects)
  }

  ghost predicate OneHolder(workers: map<nat, Worker>) {
    forall v, w :: v in workers && w in workers && Holds(workers[v]) && Holds(workers[w]) ==> v == w
  }

  ghost predicate Inv(plan: Plan, s: State) {
    && GoodRow(plan, s.row) && GoodEffects(s) && OneHolder(s.workers)
    && forall w :: w in s.workers ==> GoodWorker(plan, s, s.workers[w])
  }

  lemma ExcludedLater(r: BudgetRecord, r2: BudgetRecord, c: Charge)
    requires Excluded(r, c) && Extends(r, r2) && ValidRecord(r2)
    ensures Excluded(r2, c)
  {
    UnaffordablePersists(r.charges, r2.charges, r.limits, c);
    if c in r2.charges {
      var i :| 0 <= i < |r2.charges| && r2.charges[i] == c;
      assert i >= |r.charges|;
      UnaffordableNeverAppended(r.charges, r2.charges, r.limits, c, i);
    }
  }

  lemma SessionLater(plan: Plan, r: BudgetRecord, r2: BudgetRecord, done: seq<Completion>, tried: nat)
    requires GoodSession(plan, r, done, tried) && Extends(r, r2) && ValidRecord(r2)
    ensures GoodSession(plan, r2, done, tried)
  {
    hide Excluded, ValidRecord;
    forall u | 0 <= u < tried ensures Excluded(r2, plan(done)[u]) {
      ExcludedLater(r, r2, plan(done)[u]);
    }
  }

  lemma LateUnaffordable(r: BudgetRecord, i: nat, c: Charge)
    requires ValidRecord(r) && i <= |r.charges| && Unaffordable(r.charges[..i], r.limits, c)
    ensures Unaffordable(r.charges, r.limits, c)
    ensures forall j :: i <= j < |r.charges| ==> r.charges[j] != c
  {
    UnaffordablePersists(r.charges[..i], r.charges, r.limits, c);
    forall j | i <= j < |r.charges| ensures r.charges[j] != c {
      if r.charges[j] == c {
        UnaffordableNeverAppended(r.charges[..i], r.charges, r.limits, c, j);
      }
    }
  }

  /** The charge behind what a session has consumed: its own next one, or one it was or would be denied for. */
  lemma NextIsPlanned(plan: Plan, r: BudgetRecord, done: seq<Completion>, tried: nat)
    requires GoodRow(plan, r) && GoodSession(plan, r, done, tried) && tried < |plan(done)| && |done| < |r.charges|
    ensures var (c, i) := (plan(done)[tried], |done|);
      || r.charges[i] == c
      || (Unaffordable(r.charges, r.limits, c) && forall j :: i <= j < |r.charges| ==> r.charges[j] != c)
  {
    hide ValidRecord, Unaffordable, Shape;
    var i := |done|;
    assert WasPlanned(plan, r, i);
    var t: nat :| PlannedAt(plan, r, i, t);
    assert r.completions[..i] == done && r.charges[i] in r.charges;
    assert forall u :: 0 <= u < tried ==> plan(done)[u] !in r.charges;
    if tried < t {
      assert Unaffordable(r.charges[..i], r.limits, plan(done)[tried]);
      LateUnaffordable(r, i, plan(done)[tried]);
    }
  }

  /** A granted charge is the next one behind a closed record, all of which the session has consumed. */
  lemma NewStandsLast(plan: Plan, r: BudgetRecord, done: seq<Completion>, tried: nat)
    requires GoodRow(plan, r) && GoodSession(plan, r, done, tried) && tried < |plan(done)| && InTurnOrder(plan)
    requires ReserveReply(Some(r), r, plan(done)[tried]) == New
    ensures r.completions == done && |r.charges| == |done|
  {
    hide Shape, ValidCharge, Unaffordable, ValidRecord;
    var c := plan(done)[tried];
    if |done| < |r.charges| {
      NextIsPlanned(plan, r, done, tried);
      assert ChargeIds(r.charges)[|done|] == r.charges[|done|].op;
      DeniedExactly(r, c);
    }
  }

  /** A saved charge is consumed where it stands: right behind what the session has consumed before. */
  lemma SavedStandsNext(plan: Plan, r: BudgetRecord, done: seq<Completion>, tried: nat)
    requires GoodRow(plan, r) && GoodSession(plan, r, done, tried) && tried < |plan(done)| && InTurnOrder(plan)
    requires FindCharge(r.charges, plan(done)[tried].op) == Some(plan(done)[tried])
    requires FindCompletion(r.completions, plan(done)[tried].op).Some?
    ensures var op := plan(done)[tried].op;
      done + [Completion(op, FindCompletion(r.completions, op).value)] <= r.completions
  {
    hide Shape, Unaffordable, FindCharge;
    var (c, i) := (plan(done)[tried], |done|);
    var saved := Completion(c.op, FindCompletion(r.completions, c.op).value);
    var k :| 0 <= k < |r.completions| && r.completions[k] == saved;
    var ids := ChargeIds(r.charges);
    if k < i {
      assert CompletionIds(done)[k] == c.op;
      ConsumedShape(r, done);
      FollowingIsNew(CompletionIds(done), c.op);
    } else {
      NextIsPlanned(plan, r, done, tried);
      assert ids[k] == r.charges[k].op == c.op;
      var j :| 0 <= j < |r.charges| && r.charges[j] == c;
      assert ids[j] == c.op;
      assert ids[i] == r.charges[i].op;
    }
  }

  lemma {:induction false} ShapePrefix(ids: seq<OpId>, n: nat, turn: nat)
    requires Shape(ids, turn) && n <= |ids|
    ensures Shape(ids[..n], turn)
    decreases |ids|
  {
    if n > 0 {
      if Shape(ids[1..], turn + 1) {
        ShapePrefix(ids[1..], n - 1, turn + 1);
        assert ids[..n][1..] == ids[1..][..n - 1];
      } else if n == 1 {
        assert ids[..1][1..] == [];
      } else {
        ShapePrefix(ids[2..], n - 2, turn + 1);
        assert ids[..n][2..] == ids[2..][..n - 2];
      }
    }
  }

  lemma ConsumedShape(r: BudgetRecord, done: seq<Completion>)
    requires Aligned(r) && Shape(ChargeIds(r.charges), 1) && done <= r.completions
    ensures Shape(CompletionIds(done), 1) && CompletionIds(done) == ChargeIds(r.charges)[..|done|]
  {
    hide Shape;
    assert CompletionIds(done) == ChargeIds(r.charges)[..|done|];
    ShapePrefix(ChargeIds(r.charges), |done|, 1);
  }

  // ----- the three steps that touch the row or a history

  lemma PlannedAfterCharge(plan: Plan, r: BudgetRecord, done: seq<Completion>, tried: nat)
    requires Aligned(r) && Planned(plan, r) && GoodSession(plan, r, done, tried) && tried < |plan(done)|
    requires r.completions == done && |r.charges| == |done|
    ensures Aligned(Charged(r, plan(done)[tried])) && Planned(plan, Charged(r, plan(done)[tried]))
  {
    hide Unaffordable;
    var (n, r2) := (|r.charges|, Charged(r, plan(done)[tried]));
    forall i | 0 <= i < n + 1 ensures WasPlanned(plan, r2, i) {
      if i < n {
        assert WasPlanned(plan, r, i);
        var t: nat :| PlannedAt(plan, r, i, t);
        assert r2.charges[..i] == r.charges[..i];
        assert PlannedAt(plan, r2, i, t);
      } else {
        assert r2.completions[..n] == done && r2.charges[..n] == r.charges;
        assert forall u :: 0 <= u < tried ==> Excluded(r, plan(done)[u]);
        assert PlannedAt(plan, r2, n, tried);
      }
    }
  }

  lemma PlannedAfterCompletion(plan: Plan, r: BudgetRecord, r2: BudgetRecord)
    requires Aligned(r) && Planned(plan, r) && Aligned(r2)
    requires r2.charges == r.charges && r.completions <= r2.completions && r2.limits == r.limits
    ensures Planned(plan, r2)
  {
    hide Unaffordable;
    forall i | 0 <= i < |r2.charges| ensures WasPlanned(plan, r2, i) {
      assert WasPlanned(plan, r, i);
      var t: nat :| PlannedAt(plan, r, i, t);
      assert r2.completions[..i] == r.completions[..i];
      assert PlannedAt(plan, r2, i, t);
    }
  }

  lemma NewRowIsGood(plan: Plan, r: BudgetRecord, done: seq<Completion>, tried: nat)
    requires GoodRow(plan, r) && GoodSession(plan, r, done, tried) && tried < |plan(done)| && InTurnOrder(plan)
    requires ReserveReply(Some(r), r, plan(done)[tried]) == New
    ensures var (c, r2) := (plan(done)[tried], Charged(r, plan(done)[tried]));
      && GoodRow(plan, r2) && Extends(r, r2) && !IsOpen(r) && IsOpen(r2)
      && ChargeIds(r2.charges) == ChargeIds(r.charges) + [c.op] && c.op !in ChargeIds(r.charges)
  {
    hide Shape, ValidRecord, FindCharge, Follows, ValidCharge, Planned;
    var c := plan(done)[tried];
    NewStandsLast(plan, r, done, tried);
    PlannedAfterCharge(plan, r, done, tried);
    IdsOfAppend(r.charges, c);
    ConsumedShape(r, done);
    assert ChargeIds(r.charges)[..|done|] == ChargeIds(r.charges);
    FollowsFirst(ChargeIds(r.charges), c.op);
    ShapeExtends(ChargeIds(r.charges), c.op, 1);
  }

  lemma FollowsFirst(ids: seq<OpId>, op: OpId)
    requires Follows(ids, op)
    ensures if ids == [] then op == ModelOp(1) else Follows(ids, op)
  {
  }

  /** The holder of the open operation always gets its receipt anchored. */
  lemma HolderCompletes(plan: Plan, r: BudgetRecord, op: OpId, artifact: Digest)
    requires GoodRow(plan, r) && IsOpen(r) && r.charges[|r.charges| - 1].op == op
    ensures CompleteReply(Some(r), r, op, artifact) == New
    ensures var done := Completed(r, op, artifact);
      && GoodRow(plan, done) && !IsOpen(done) && Extends(r, done)
      && CompletionIds(done.completions) == CompletionIds(r.completions) + [op]
  {
    hide Shape, Planned;
    var (done, n) := (Completed(r, op, artifact), |r.completions|);
    assert CompletionIds(done.completions) == CompletionIds(r.completions) + [op];
    assert ChargeIds(r.charges)[n] == op;
    forall i | 0 <= i < n ensures CompletionIds(r.completions)[i] != op {
      assert CompletionIds(r.completions)[i] == ChargeIds(r.charges)[i];
    }
    PlannedAfterCompletion(plan, r, done);
  }

  // ----- one move

  /** What a move may change for the sessions that did not make it. */
  lemma OthersLater(plan: Plan, s: State, s2: State, v: nat)
    requires Inv(plan, s) && v in s.workers && v in s2.workers && s2.workers[v] == s.workers[v]
    requires ValidRecord(s2.row) && Extends(s.row, s2.row)
    requires Holds(s.workers[v]) ==>
      s2.row == s.row && (s.workers[v].op in s2.effects <==> s.workers[v].op in s.effects)
    ensures GoodWorker(plan, s2, s2.workers[v])
  {
    hide ValidRecord, GoodSession, GoodRow, GoodEffects, OneHolder;
    var p := s.workers[v];
    assert GoodWorker(plan, s, p);
    if !Holds(p) {
      SessionLater(plan, s.row, s2.row, p.done, p.tried);
      if p.Asking? {
        ExtendsTransitive(p.record, s.row, s2.row);
      }
    }
  }

  lemma LookKeeps(plan: Plan, s: State, w: nat)
    requires Inv(plan, s) && InTurnOrder(plan) && w in s.workers && s.workers[w].Consuming?
    ensures Inv(plan, Looked(plan, s, w)) && Looked(plan, s, w).row == s.row && Looked(plan, s, w).effects == s.effects
  {
    hide GoodRow, GoodEffects, FindCharge, FindCompletion, InTurnOrder, ValidRecord;
    var (s2, p) := (Looked(plan, s, w), s.workers[w]);
    assert GoodWorker(plan, s, p);
    if p.tried < |plan(p.done)| && FindCharge(s.row.charges, plan(p.done)[p.tried].op) == Some(plan(p.done)[p.tried])
       && FindCompletion(s.row.completions, plan(p.done)[p.tried].op).Some?
    {
      SavedStandsNext(plan, s.row, p.done, p.tried);
    }
    SameEffects(s, s2);
    ValidRow(plan, s.row);
    forall v | v in s2.workers ensures GoodWorker(plan, s2, s2.workers[v]) {
      if v != w {
        OthersLater(plan, s, s2, v);
      }
    }
  }

  lemma SameEffects(s: State, s2: State)
    requires GoodEffects(s) && s2.row == s.row && s2.effects == s.effects
    ensures GoodEffects(s2)
  {
  }

  lemma ValidRow(plan: Plan, r: BudgetRecord)
    requires GoodRow(plan, r)
    ensures ValidRecord(r) && Extends(r, r)
  {
  }

  lemma ReserveKeeps(plan: Plan, s: State, w: nat)
    requires Inv(plan, s) && InTurnOrder(plan) && w in s.workers && s.workers[w].Asking?
    ensures Inv(plan, Swapped(plan, s, w)) && Extends(s.row, Swapped(plan, s, w).row)
    ensures Swapped(plan, s, w).effects == s.effects && (IsOpen(s.row) ==> Swapped(plan, s, w).row == s.row)
  {
    hide GoodRow, GoodEffects, FindCharge, ValidRecord, GoodSession, GoodHolder, IsOpen;
    var (s2, p) := (Swapped(plan, s, w), s.workers[w]);
    assert GoodWorker(plan, s, p);
    ValidRow(plan, s.row);
    if p.tried < |plan(p.done)| && ReserveReply(Some(s.row), p.record, plan(p.done)[p.tried]) == New {
      GrantKeeps(plan, s, w);
    } else {
      if p.tried < |plan(p.done)| && ReserveReply(Some(s.row), p.record, plan(p.done)[p.tried]) == Denied {
        DenialKeeps(plan, s.row, p.record, p.done, p.tried);
      }
      SameEffects(s, s2);
      forall v | v in s2.workers ensures GoodWorker(plan, s2, s2.workers[v]) {
        if v != w {
          OthersLater(plan, s, s2, v);
        }
      }
    }
  }

  lemma DenialKeeps(plan: Plan, r: BudgetRecord, record: BudgetRecord, done: seq<Completion>, tried: nat)
    requires GoodSession(plan, r, done, tried) && tried < |plan(done)| && ValidRecord(r) && ValidRecord(record)
    requires Extends(record, r) && ReserveReply(Some(r), record, plan(done)[tried]) == Denied
    ensures GoodSession(plan, r, done, tried + 1)
  {
    hide ValidRecord, ValidCharge, FindCharge, Unaffordable;
    var c := plan(done)[tried];
    DenialPersists(record, r, c);
    DeniedExactly(record, c);
    UnaffordablePersists(record.charges, r.charges, r.limits, c);
  }

  lemma GrantKeeps(plan: Plan, s: State, w: nat)
    requires Inv(plan, s) && InTurnOrder(plan) && w in s.workers && s.workers[w].Asking?
    requires var p := s.workers[w];
      p.tried < |plan(p.done)| && ReserveReply(Some(s.row), p.record, plan(p.done)[p.tried]) == New
    ensures Inv(plan, Swapped(plan, s, w)) && Extends(s.row, Swapped(plan, s, w).row) && !IsOpen(s.row)
  {
    hide GoodRow, FindCharge, ValidRecord, GoodSession;
    var (s2, p) := (Swapped(plan, s, w), s.workers[w]);
    assert GoodWorker(plan, s, p);
    var c := plan(p.done)[p.tried];
    GrantedSame(s.row, p.record, c);
    NewRowIsGood(plan, s.row, p.done, p.tried);
    ValidRow(plan, s2.row);
    assert c.op !in s.effects;
    assert ChargeIds(s2.row.charges)[|s.row.charges|] == c.op;
    assert forall op :: op in ChargeIds(s.row.charges) ==> op in ChargeIds(s2.row.charges);
    forall v | v in s2.workers && v != w ensures GoodWorker(plan, s2, s2.workers[v]) && !Holds(s2.workers[v]) {
      assert GoodWorker(plan, s, s.workers[v]);
      OthersLater(plan, s, s2, v);
    }
  }

  lemma GrantedSame(r: BudgetRecord, record: BudgetRecord, c: Charge)
    requires ReserveReply(Some(r), record, c) == New
    ensures record == r && Charged(record, c) != r
  {
    hide ValidRecord, FindCharge;
    assert |Charged(record, c).charges| == |record.charges| + 1;
  }

  lemma AnchorKeeps(plan: Plan, s: State, w: nat)
    requires Inv(plan, s) && w in s.workers && s.workers[w].Anchoring?
    ensures var (s2, p) := (Anchored(s, w), s.workers[w]);
      && Inv(plan, s2) && Extends(s.row, s2.row)
      && s2.row == Completed(s.row, p.op, p.artifact) && s2.effects == s.effects
  {
    hide GoodRow, ValidRecord, GoodSession, FindCompletion;
    var (s2, p) := (Anchored(s, w), s.workers[w]);
    assert GoodWorker(plan, s, p);
    HolderCompletes(plan, s.row, p.op, p.artifact);
    ValidRow(plan, s2.row);
    EmptyTries(plan, s2.row);
    assert Holds(s.workers[w]);
    forall v | v in s2.workers && v != w ensures GoodWorker(plan, s2, s2.workers[v]) && !Holds(s2.workers[v]) {
      assert !Holds(s.workers[v]);
      OthersLater(plan, s, s2, v);
    }
  }

  lemma EmptyTries(plan: Plan, r: BudgetRecord)
    ensures GoodSession(plan, r, r.completions, 0) && GoodSession(plan, r, [], 0)
  {
  }

  lemma PerformKeeps(plan: Plan, s: State, w: nat)
    requires Inv(plan, s) && w in s.workers && s.workers[w].Holding?
    ensures Inv(plan, Apply(plan, s, Perform(w)))
  {
    hide GoodRow, ValidRecord, GoodSession;
    var (s2, op) := (Apply(plan, s, Perform(w)), s.workers[w].op);
    assert GoodWorker(plan, s, s.workers[w]);
    ValidRow(plan, s.row);
    assert ChargeIds(s.row.charges)[|s.row.charges| - 1] == op;
    assert Holds(s.workers[w]);
    forall v | v in s2.workers && v != w ensures GoodWorker(plan, s2, s2.workers[v]) && !Holds(s2.workers[v]) {
      assert !Holds(s.workers[v]);
      OthersLater(plan, s, s2, v);
    }
  }

  lemma FetchKeeps(plan: Plan, s: State, w: nat, artifact: Digest)
    requires Inv(plan, s) && w in s.workers && s.workers[w].Performed?
    ensures Inv(plan, Apply(plan, s, Fetch(w, artifact)))
  {
    hide GoodRow, ValidRecord, GoodSession, GoodEffects;
    var s2 := Apply(plan, s, Fetch(w, artifact));
    assert GoodWorker(plan, s, s.workers[w]);
    SameEffects(s, s2);
    ValidRow(plan, s.row);
    assert Holds(s.workers[w]);
    forall v | v in s2.workers && v != w ensures GoodWorker(plan, s2, s2.workers[v]) && !Holds(s2.workers[v]) {
      assert !Holds(s.workers[v]);
      OthersLater(plan, s, s2, v);
    }
  }

  lemma RosterKeeps(plan: Plan, s: State, m: Move)
    requires Inv(plan, s) && (m.Join? || m.Leave?)
    ensures Inv(plan, Apply(plan, s, m))
  {
    hide GoodRow, ValidRecord, GoodSession, GoodEffects;
    var s2 := Apply(plan, s, m);
    SameEffects(s, s2);
    ValidRow(plan, s.row);
    EmptyTries(plan, s.row);
    forall v | v in s2.workers ensures GoodWorker(plan, s2, s2.workers[v]) {
      if v in s.workers {
        OthersLater(plan, s, s2, v);
      }
    }
  }

  lemma MoveKeepsInv(plan: Plan, s: State, m: Move)
    requires Inv(plan, s) && InTurnOrder(plan)
    ensures Inv(plan, Apply(plan, s, m)) && Extends(s.row, Apply(plan, s, m).row)
  {
    hide Inv, Looked, Swapped, Anchored, InTurnOrder;
    assert Extends(s.row, s.row);
    if m.Join? || m.Leave? {
      RosterKeeps(plan, s, m);
    } else if m.worker in s.workers {
      var p := s.workers[m.worker];
      if m.Look? && p.Consuming? {
        LookKeeps(plan, s, m.worker);
      } else if m.Reserve? && p.Asking? {
        ReserveKeeps(plan, s, m.worker);
      } else if m.Perform? && p.Holding? {
        PerformKeeps(plan, s, m.worker);
      } else if m.Fetch? && p.Performed? {
        FetchKeeps(plan, s, m.worker, m.artifact);
      } else if m.Anchor? && p.Anchoring? {
        AnchorKeeps(plan, s, m.worker);
      }
    }
  }

  // ----- whole races

  lemma OpenedIsGood(plan: Plan, run: string, binding: Digest, limits: ReasoningBudget)
    requires ValidLimits(limits)
    ensures Inv(plan, Opened(run, binding, limits))
  {
    assert Spent([]) == ZERO;
  }

  lemma {:induction false} RunKeepsInv(plan: Plan, run: string, binding: Digest, limits: ReasoningBudget,
                                       moves: seq<Move>)
    requires ValidLimits(limits) && InTurnOrder(plan)
    ensures Inv(plan, Run(plan, Opened(run, binding, limits), moves))
    decreases |moves|
  {
    hide Inv, Apply, InTurnOrder;
    if moves == [] {
      OpenedIsGood(plan, run, binding, limits);
    } else {
      RunKeepsInv(plan, run, binding, limits, moves[..|moves| - 1]);
      MoveKeepsInv(plan, Run(plan, Opened(run, binding, limits), moves[..|moves| - 1]), moves[|moves| - 1]);
    }
  }

  /**
   For every interleaving of sessions and deaths: no operation is performed twice, nothing is performed uncharged,
   nothing is completed unperformed, and the journal has the shape a single session gives it.
   */
  lemma JournalSurvivesRaces(plan: Plan, run: string, binding: Digest, limits: ReasoningBudget, moves: seq<Move>)
    requires ValidLimits(limits) && InTurnOrder(plan)
    ensures var s := Run(plan, Opened(run, binding, limits), moves);
      && Distinct(s.effects)
      && (forall op :: op in s.effects ==> op in ChargeIds(s.row.charges))
      && (forall op :: op in CompletionIds(s.row.completions) ==> op in s.effects)
      && Shape(ChargeIds(s.row.charges), 1) && |s.row.completions| >= |s.row.charges| - 1
      && CompletionIds(s.row.completions) <= ChargeIds(s.row.charges) && ValidRecord(s.row)
  {
    hide Run, ValidRecord, Shape, Planned, OneHolder, GoodWorker;
    RunKeepsInv(plan, run, binding, limits, moves);
  }

  /** A session that waits for its receipt to be anchored succeeds, whatever the others did meanwhile. */
  lemma ReceiptIsAnchored(plan: Plan, run: string, binding: Digest, limits: ReasoningBudget, moves: seq<Move>, w: nat)
    requires ValidLimits(limits) && InTurnOrder(plan)
    requires var s := Run(plan, Opened(run, binding, limits), moves); w in s.workers && s.workers[w].Anchoring?
    ensures var s := Run(plan, Opened(run, binding, limits), moves);
      Apply(plan, s, Anchor(w)).row == Completed(s.row, s.workers[w].op, s.workers[w].artifact)
  {
    hide Run, ValidRecord, Shape, Anchored, Inv;
    RunKeepsInv(plan, run, binding, limits, moves);
    AnchorKeeps(plan, Run(plan, Opened(run, binding, limits), moves), w);
  }

  /** Every session has consumed the beginning of one common history. */
  lemma SessionsAgree(plan: Plan, run: string, binding: Digest, limits: ReasoningBudget, moves: seq<Move>, v: nat,
                      w: nat)
    requires ValidLimits(limits) && InTurnOrder(plan)
    requires var s := Run(plan, Opened(run, binding, limits), moves);
      v in s.workers && w in s.workers && s.workers[v].Consuming? && s.workers[w].Consuming?
    ensures var s := Run(plan, Opened(run, binding, limits), moves);
      s.workers[v].done <= s.workers[w].done || s.workers[w].done <= s.workers[v].done
  {
    hide Run, GoodRow, GoodEffects, OneHolder, Excluded;
    RunKeepsInv(plan, run, binding, limits, moves);
    var s := Run(plan, Opened(run, binding, limits), moves);
    assert GoodWorker(plan, s, s.workers[v]) && GoodWorker(plan, s, s.workers[w]);
  }

  ghost predicate Orphaned(s: State) {
    IsOpen(s.row) && forall w :: w in s.workers ==> !Holds(s.workers[w])
  }

  lemma OrphanStays(plan: Plan, s: State, m: Move)
    requires Inv(plan, s) && InTurnOrder(plan) && Orphaned(s)
    ensures Orphaned(Apply(plan, s, m)) && Apply(plan, s, m).row == s.row && Apply(plan, s, m).effects == s.effects
  {
    hide Inv, InTurnOrder, IsOpen, FindCharge, FindCompletion, ReserveReply, CompleteReply;
    if m.Reserve? && m.worker in s.workers && s.workers[m.worker].Asking? {
      ReserveKeeps(plan, s, m.worker);
      StaysFree(plan, s, m.worker);
    }
  }

  lemma StaysFree(plan: Plan, s: State, w: nat)
    requires w in s.workers && s.workers[w].Asking? && Swapped(plan, s, w).row == s.row
    requires forall v :: v in s.workers ==> !Holds(s.workers[v])
    ensures forall v :: v in Swapped(plan, s, w).workers ==> !Holds(Swapped(plan, s, w).workers[v])
  {
    hide ReserveReply;
    var (p, s2) := (s.workers[w], Swapped(plan, s, w));
    if p.tried < |plan(p.done)| && ReserveReply(Some(s.row), p.record, plan(p.done)[p.tried]) == New {
      GrantedSame(s.row, p.record, plan(p.done)[p.tried]);
    }
  }

  /** Once the holder of an open operation is gone, nothing is ever performed or recorded for this run again. */
  lemma {:induction false} LostHolderFreezes(plan: Plan, run: string, binding: Digest, limits: ReasoningBudget,
                                             first: seq<Move>, second: seq<Move>)
    requires ValidLimits(limits) && InTurnOrder(plan) && Orphaned(Run(plan, Opened(run, binding, limits), first))
    ensures var s := Opened(run, binding, limits);
      var (a, b) := (Run(plan, s, first), Run(plan, s, first + second));
      Orphaned(b) && b.row == a.row && b.effects == a.effects
    decreases |second|
  {
    hide Run, Orphaned, Apply, InTurnOrder;
    var s := Opened(run, binding, limits);
    if second == [] {
      assert first + second == first;
    } else {
      var front := second[..|second| - 1];
      LostHolderFreezes(plan, run, binding, limits, first, front);
      RunKeepsInv(plan, run, binding, limits, first + front);
      OrphanStays(plan, Run(plan, s, first + front), second[|second| - 1]);
      RunLast(plan, s, first, second);
    }
  }

  lemma RunLast(plan: Plan, s: State, first: seq<Move>, second: seq<Move>)
    requires second != []
    ensures Run(plan, s, first + second)
         == Apply(plan, Run(plan, s, first + second[..|second| - 1]), second[|second| - 1])
  {
    hide Apply;
    var whole := first + second;
    assert whole[..|whole| - 1] == first + second[..|second| - 1];
  }
}
