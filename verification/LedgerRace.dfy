/**
 Workers racing on one ledger without any file lock. A publication is two steps, a read of the row and
 a conditional update, and every other worker, opening, or crash may run between them.
 */
module LedgerRace {
  import opened Records
  import opened Budget

  datatype Call = ReserveCall(charge: Charge) | CompleteCall(op: OpId, artifact: Digest)

  /** A worker between its read and its conditional update. */
  datatype Pending = Pending(expected: BudgetRecord, call: Call)

  datatype Grant = Grant(run: string, op: OpId)

  /** `grants` lists, in commit order, the reservations that returned NEW: the permissions to dispatch. */
  datatype State = State(table: Rows, pending: map<nat, Pending>, grants: seq<Grant>)

  datatype Step =
    | OpenStep(run: string, binding: Digest, limits: ReasoningBudget)
    | ReadStep(worker: nat, expected: BudgetRecord, call: Call)
    | SwapStep(worker: nat)
    | CrashStep(worker: nat)

  const INITIAL := State(map[], map[], [])

  function Updated(p: Pending): BudgetRecord {
    match p.call
    case ReserveCall(charge) => Charged(p.expected, charge)
    case CompleteCall(op, artifact) => Completed(p.expected, op, artifact)
  }

  function ReplyOf(rows: Rows, p: Pending): Reply {
    match p.call
    case ReserveCall(charge) => ReserveReply(Row(rows, p.expected.run), p.expected, charge)
    case CompleteCall(op, artifact) => CompleteReply(Row(rows, p.expected.run), p.expected, op, artifact)
  }

  function Apply(s: State, step: Step): State {
    match step
    case OpenStep(run, binding, limits) =>
      if OpenReply(Row(s.table, run), run, binding, limits) == New
      then s.(table := s.table[run := Fresh(run, binding, limits)])
      else s
    case ReadStep(worker, expected, call) =>
      if worker !in s.pending && ReplyOf(s.table, Pending(expected, call)) == New
      then s.(pending := s.pending[worker := Pending(expected, call)]) else s
    case SwapStep(worker) =>
      if worker !in s.pending then s
      else
        var p := s.pending[worker];
        var idle := s.(pending := s.pending - {worker});
        if p.expected.run !in s.table || s.table[p.expected.run] != p.expected then idle
        else idle.(table := s.table[p.expected.run := Updated(p)],
                   grants := s.grants + (if p.call.ReserveCall? then [Grant(p.expected.run, p.call.charge.op)] else []))
    case CrashStep(worker) => s.(pending := s.pending - {worker})
  }

  function Run(s: State, steps: seq<Step>): State
    decreases |steps|
  {
    if steps == [] then s else Run(Apply(s, steps[0]), steps[1..])
  }

  ghost predicate GoodRows(table: Rows) {
    forall run :: run in table ==> table[run].run == run && ValidRecord(table[run])
  }

  ghost predicate GrantCharged(table: Rows, g: Grant) {
    g.run in table && g.op in ChargeIds(table[g.run].charges)
  }

  ghost predicate GrantsCharged(table: Rows, grants: seq<Grant>) {
    forall g :: g in grants ==> GrantCharged(table, g)
  }

  ghost predicate GoodPending(p: Pending) {
    && ValidRecord(p.expected) && ValidRecord(Updated(p))
    && (p.call.ReserveCall? ==> p.call.charge.op !in ChargeIds(p.expected.charges))
  }

  ghost predicate Inv(s: State) {
    && GoodRows(s.table)
    && (forall w :: w in s.pending ==> GoodPending(s.pending[w]))
    && GrantsCharged(s.table, s.grants)
    && Distinct(s.grants)
  }

  ghost predicate TableGrown(before: Rows, after: Rows) {
    forall run :: run in before ==> run in after && Extends(before[run], after[run])
  }

  /** Rows of `before` survive in `after` and only ever grow. */
  ghost predicate Grown(before: State, after: State) {
    TableGrown(before.table, after.table) && before.grants <= after.grants
  }

  lemma IdsGrow(before: seq<Charge>, after: seq<Charge>, op: OpId)
    requires before <= after && op in ChargeIds(before)
    ensures op in ChargeIds(after)
  {
    var i :| 0 <= i < |before| && ChargeIds(before)[i] == op;
    assert ChargeIds(after)[i] == op;
  }

  lemma GrantsSurvive(before: Rows, after: Rows, grants: seq<Grant>)
    requires TableGrown(before, after) && GrantsCharged(before, grants)
    ensures GrantsCharged(after, grants)
  {
    forall g | g in grants ensures GrantCharged(after, g) {
      assert GrantCharged(before, g);
      IdsGrow(before[g.run].charges, after[g.run].charges, g.op);
    }
  }

  lemma UpdateExtends(p: Pending)
    ensures Extends(p.expected, Updated(p)) && Updated(p) != p.expected
    ensures p.call.ReserveCall? ==> p.call.charge.op in ChargeIds(Updated(p).charges)
  {
    match p.call
    case ReserveCall(charge) =>
      assert |Updated(p).charges| == |p.expected.charges| + 1;
      IdsOfAppend(p.expected.charges, charge);
    case CompleteCall(_, _) => assert |Updated(p).completions| == |p.expected.completions| + 1;
  }

  lemma NewReplyIsGood(rows: Rows, p: Pending)
    requires ReplyOf(rows, p) == New
    ensures GoodPending(p)
  {
  }

  /** The conditional update itself: the row held what the worker had read. */
  lemma WinningSwap(table: Rows, grants: seq<Grant>, p: Pending)
    requires GoodRows(table) && GrantsCharged(table, grants) && Distinct(grants) && GoodPending(p)
    requires p.expected.run in table && table[p.expected.run] == p.expected
    ensures var after := table[p.expected.run := Updated(p)];
      && GoodRows(after) && TableGrown(table, after) && GrantsCharged(after, grants)
      && (p.call.ReserveCall? ==> var mine := Grant(p.expected.run, p.call.charge.op);
            GrantCharged(after, mine) && Distinct(grants + [mine]))
  {
    var after := table[p.expected.run := Updated(p)];
    UpdateExtends(p);
    GrantsSurvive(table, after, grants);
    if p.call.ReserveCall? {
      var mine := Grant(p.expected.run, p.call.charge.op);
      assert !GrantCharged(table, mine);
    }
  }

  lemma FreshIsValid(run: string, binding: Digest, limits: ReasoningBudget)
    requires ValidLimits(limits)
    ensures ValidRecord(Fresh(run, binding, limits))
  {
    assert Spent([]) == ZERO;
  }

  lemma StepKeepsInv(s: State, step: Step)
    requires Inv(s)
    ensures Inv(Apply(s, step)) && Grown(s, Apply(s, step))
  {
    hide ValidRecord, FindCharge, FindCompletion, GrantCharged, ReplyOf, Updated;
    match step
    case OpenStep(run, binding, limits) =>
      if OpenReply(Row(s.table, run), run, binding, limits) == New {
        FreshIsValid(run, binding, limits);
        GrantsSurvive(s.table, s.table[run := Fresh(run, binding, limits)], s.grants);
      }
    case ReadStep(worker, expected, call) =>
      if ReplyOf(s.table, Pending(expected, call)) == New {
        NewReplyIsGood(s.table, Pending(expected, call));
      }
    case SwapStep(worker) =>
      if worker in s.pending {
        var p := s.pending[worker];
        if p.expected.run in s.table && s.table[p.expected.run] == p.expected {
          WinningSwap(s.table, s.grants, p);
        }
      }
    case CrashStep(worker) =>
  }

  lemma {:induction false} RunKeepsInv(s: State, steps: seq<Step>)
    requires Inv(s)
    ensures Inv(Run(s, steps)) && Grown(s, Run(s, steps))
    decreases |steps|
  {
    if steps != [] {
      StepKeepsInv(s, steps[0]);
      RunKeepsInv(Apply(s, steps[0]), steps[1..]);
      forall run | run in s.table
        ensures run in Run(s, steps).table && Extends(s.table[run], Run(s, steps).table[run])
      {
        ExtendsTransitive(s.table[run], Apply(s, steps[0]).table[run], Run(s, steps).table[run]);
      }
    }
  }

  /** However workers interleave and crash, no operation of a run is ever granted twice. */
  lemma GrantedAtMostOnce(steps: seq<Step>)
    ensures Distinct(Run(INITIAL, steps).grants)
    ensures forall g :: g in Run(INITIAL, steps).grants ==> GrantCharged(Run(INITIAL, steps).table, g)
  {
    RunKeepsInv(INITIAL, steps);
  }

  lemma {:induction false} RunSplit(s: State, first: seq<Step>, second: seq<Step>)
    ensures Run(s, first + second) == Run(Run(s, first), second)
    decreases |first|
  {
    if first == [] {
      assert first + second == second;
    } else {
      assert (first + second)[0] == first[0] && (first + second)[1..] == first[1..] + second;
      RunSplit(Apply(s, first[0]), first[1..], second);
    }
  }

  /** A run's record only grows, and never leaves its binding, limits or allowances. */
  lemma RecordsOnlyGrow(first: seq<Step>, second: seq<Step>, run: string)
    requires run in Run(INITIAL, first).table
    ensures var before, after := Run(INITIAL, first), Run(INITIAL, first + second);
      && run in after.table && Extends(before.table[run], after.table[run])
      && ValidRecord(after.table[run]) && Within(Spent(after.table[run].charges), before.table[run].limits)
  {
    RunKeepsInv(INITIAL, first);
    RunSplit(INITIAL, first, second);
    RunKeepsInv(Run(INITIAL, first), second);
  }

  /** Of two workers holding the same record, the loser of the update is told so and dispatches nothing. */
  lemma LoserGetsNothing(s: State, winner: nat, loser: nat)
    requires Inv(s) && winner in s.pending && loser in s.pending && winner != loser
    requires s.pending[winner].expected == s.pending[loser].expected
    requires s.pending[winner].expected.run in s.table
          && s.table[s.pending[winner].expected.run] == s.pending[winner].expected
    ensures var once := Apply(s, SwapStep(winner));
      Apply(once, SwapStep(loser)) == once.(pending := once.pending - {loser})
  {
    hide ValidRecord, FindCharge, FindCompletion, GrantCharged;
    UpdateExtends(s.pending[winner]);
  }
}
