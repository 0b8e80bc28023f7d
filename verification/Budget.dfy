/** The reasoning ledger: one validated record per run, extended only by compare-and-set. */
module Budget {
  import opened Records

  datatype Charge =
    | ModelCharge(op: OpId, prompt: Digest, inputTokens: nat, outputLimit: nat, price: Price, ceiling: bool,
                  providerRequests: nat)
    | ReadCharge(op: OpId, requests: seq<ReadRequest>, backendReads: nat)

  datatype Completion = Completion(op: OpId, artifact: Digest)

  datatype BudgetRecord = BudgetRecord(run: string, binding: Digest, limits: ReasoningBudget,
                                       charges: seq<Charge>, completions: seq<Completion>)

  /** Everything a charge reserves, one component per allowance. */
  datatype Spend = Spend(modelCalls: nat, tokens: nat, cost: nat, providerRequests: nat, toolCalls: nat,
                         backendReads: nat)

  const ZERO := Spend(0, 0, 0, 0, 0, 0)

  function Plus(a: Spend, b: Spend): Spend {
    Spend(a.modelCalls + b.modelCalls, a.tokens + b.tokens, a.cost + b.cost,
          a.providerRequests + b.providerRequests, a.toolCalls + b.toolCalls, a.backendReads + b.backendReads)
  }

  predicate Within(a: Spend, limits: ReasoningBudget) {
    && a.modelCalls <= limits.modelCalls && a.tokens <= limits.tokens && a.cost <= limits.cost
    && a.providerRequests <= limits.providerRequests && a.toolCalls <= limits.toolCalls
    && a.backendReads <= limits.backendReads
  }

  predicate AtMost(a: Spend, b: Spend) {
    && a.modelCalls <= b.modelCalls && a.tokens <= b.tokens && a.cost <= b.cost
    && a.providerRequests <= b.providerRequests && a.toolCalls <= b.toolCalls && a.backendReads <= b.backendReads
  }

  function Max(a: nat, b: nat): nat { if a > b then a else b }

  function Reserved(c: Charge): Spend {
    match c
    case ModelCharge(_, _, input, output, price, _, requests) =>
      Spend(1, input + output, input * Max(price.input, price.cached) + output * price.output, requests, 0, 0)
    case ReadCharge(_, requests, backend) =>
      Spend(0, 0, 0, 0, |requests|, backend)
  }

  function Spent(charges: seq<Charge>): Spend {
    if charges == [] then ZERO else Plus(Spent(charges[..|charges| - 1]), Reserved(charges[|charges| - 1]))
  }

  function CatalogCost(requests: seq<ReadRequest>): nat {
    if requests == [] then 0
    else CatalogCost(requests[..|requests| - 1]) + BackendReads(requests[|requests| - 1].tool)
  }

  // ----- validators

  predicate ValidLimits(l: ReasoningBudget) {
    && l.modelCalls <= 10 && l.tokens <= 100000 && l.cost <= 1000000000000 && l.toolCalls <= 40
    && l.backendReads <= 64 && l.providerRequests <= 20
  }

  predicate ValidPrice(p: Price) {
    p.input <= 10000000 && p.cached <= 10000000 && p.output <= 10000000
  }

  predicate ValidCharge(c: Charge) {
    match c
    case ModelCharge(_, _, input, output, price, ceiling, requests) =>
      input <= 100000 && 1 <= output <= 16384 && ValidPrice(price) && requests == (if ceiling then 2 else 0)
    case ReadCharge(_, requests, backend) =>
      && 1 <= |requests| <= 2 && Distinct(requests) && backend == CatalogCost(requests)
      && (forall r :: r in requests ==> ValidRequest(r))
  }

  function ChargeIds(charges: seq<Charge>): seq<OpId> {
    seq(|charges|, i requires 0 <= i < |charges| => charges[i].op)
  }

  function CompletionIds(completions: seq<Completion>): seq<OpId> {
    seq(|completions|, i requires 0 <= i < |completions| => completions[i].op)
  }

  function Digests(completions: seq<Completion>): seq<Digest> {
    seq(|completions|, i requires 0 <= i < |completions| => completions[i].artifact)
  }

  /** `BudgetRecord.within_limits` and the field bounds. */
  predicate ValidRecord(r: BudgetRecord) {
    && ValidLimits(r.limits)
    && (forall c :: c in r.charges ==> ValidCharge(c))
    && |r.charges| <= 50 && |r.completions| <= 50
    && Distinct(ChargeIds(r.charges))
    && Distinct(CompletionIds(r.completions))
    && (forall op :: op in CompletionIds(r.completions) ==> op in ChargeIds(r.charges))
    && Within(Spent(r.charges), r.limits)
  }

  function FindCharge(charges: seq<Charge>, op: OpId): (r: Option<Charge>)
    ensures r.Some? ==> r.value in charges && r.value.op == op
    ensures r.None? <==> op !in ChargeIds(charges)
  {
    if charges == [] then None
    else if charges[0].op == op then
      assert ChargeIds(charges)[0] == op;
      Some(charges[0])
    else
      assert ChargeIds(charges)[1..] == ChargeIds(charges[1..]);
      FindCharge(charges[1..], op)
  }

  function FindCompletion(completions: seq<Completion>, op: OpId): (r: Option<Digest>)
    ensures r.Some? ==> Completion(op, r.value) in completions
    ensures r.None? <==> op !in CompletionIds(completions)
  {
    if completions == [] then None
    else if completions[0].op == op then
      assert CompletionIds(completions)[0] == op;
      Some(completions[0].artifact)
    else
      assert CompletionIds(completions)[1..] == CompletionIds(completions[1..]);
      FindCompletion(completions[1..], op)
  }

  // ----- the ledger operations as functions of the stored rows

  type Rows = map<string, BudgetRecord>

  /** The replies a ledger call can end in; all but the first three are exceptions. */
  datatype Reply = New | Existing | Denied | Conflict | Invalid | Missing | NewWork

  function Charged(r: BudgetRecord, c: Charge): BudgetRecord {
    r.(charges := r.charges + [c])
  }

  function Completed(r: BudgetRecord, op: OpId, artifact: Digest): BudgetRecord {
    r.(completions := r.completions + [Completion(op, artifact)])
  }

  function Row(rows: Rows, run: string): Option<BudgetRecord> {
    if run in rows then Some(rows[run]) else None
  }

  /** `get(run) != expected`, with the exceptions of `get`. */
  function Compare(row: Option<BudgetRecord>, expected: BudgetRecord): Reply {
    if row.None? then Missing else if row.value != expected then Conflict else Existing
  }

  function ReserveReply(row: Option<BudgetRecord>, expected: BudgetRecord, charge: Charge): Reply {
    if !ValidRecord(expected) || !ValidCharge(charge) then Invalid
    else match FindCharge(expected.charges, charge.op)
      case Some(found) => if found != charge then Conflict else Compare(row, expected)
      case None =>
        if !ValidRecord(Charged(expected, charge)) then Denied
        else if row != Some(expected) then Conflict
        else New
  }

  function CompleteReply(row: Option<BudgetRecord>, expected: BudgetRecord, op: OpId, artifact: Digest): (reply: Reply)
    ensures reply !in {Denied, NewWork}
  {
    if !ValidRecord(expected) then Invalid
    else match FindCompletion(expected.completions, op)
      case Some(found) => if found != artifact then Conflict else Compare(row, expected)
      case None =>
        if !ValidRecord(Completed(expected, op, artifact)) then Invalid
        else if row != Some(expected) then Conflict
        else New
  }

  /** `ReadOnlyLedger.reserve`: known denials replay, work that would still be affordable is refused. */
  function SealedReserveReply(row: Option<BudgetRecord>, expected: BudgetRecord, charge: Charge): Reply {
    if !ValidRecord(expected) || !ValidCharge(charge) then Invalid
    else if Compare(row, expected) != Existing then Compare(row, expected)
    else match FindCharge(expected.charges, charge.op)
      case Some(found) => if found != charge then Conflict else Existing
      case None => if !ValidRecord(Charged(expected, charge)) then Denied else NewWork
  }

  function Fresh(run: string, binding: Digest, limits: ReasoningBudget): BudgetRecord {
    BudgetRecord(run, binding, limits, [], [])
  }

  function OpenReply(row: Option<BudgetRecord>, run: string, binding: Digest, limits: ReasoningBudget): Reply {
    if !ValidLimits(limits) then Invalid
    else if row.None? then New
    else if row.value.run != run || row.value.binding != binding || row.value.limits != limits then Conflict
    else Existing
  }

  function SealedOpenReply(row: Option<BudgetRecord>, run: string, binding: Digest, limits: ReasoningBudget): Reply {
    if row.None? then Missing
    else if row.value.run != run || row.value.binding != binding || row.value.limits != limits then Conflict
    else Existing
  }

  // ----- the ledger objects

  /** `finished` selects the read-only subclass used for reconstruction. */
  class BudgetLedger {
    var rows: Rows
    const finished: bool

    constructor (finished: bool, rows: Rows)
      ensures this.finished == finished && this.rows == rows
    {
      this.finished := finished;
      this.rows := rows;
    }

    method Open(run: string, binding: Digest, limits: ReasoningBudget) returns (reply: Reply)
      modifies this`rows
      ensures reply == if finished then SealedOpenReply(Row(old(rows), run), run, binding, limits)
                       else OpenReply(Row(old(rows), run), run, binding, limits)
      ensures rows == if reply == New then old(rows)[run := Fresh(run, binding, limits)] else old(rows)
    {
      if !finished {
        if !ValidLimits(limits) {
          return Invalid;
        }
        if run !in rows {
          rows := rows[run := Fresh(run, binding, limits)];
          return New;
        }
      } else if run !in rows {
        return Missing;
      }
      var existing := rows[run];
      if existing.run != run || existing.binding != binding || existing.limits != limits {
        return Conflict;
      }
      reply := Existing;
    }

    /** The single compare-and-set both publications share. */
    method Replace(expected: BudgetRecord, updated: BudgetRecord) returns (won: bool)
      requires expected.run == updated.run
      modifies this`rows
      ensures won == (expected.run in old(rows) && old(rows)[expected.run] == expected)
      ensures rows == if won then old(rows)[expected.run := updated] else old(rows)
    {
      won := expected.run in rows && rows[expected.run] == expected;
      if won {
        rows := rows[expected.run := updated];
      }
    }

    method Reserve(expected: BudgetRecord, charge: Charge) returns (reply: Reply)
      modifies this`rows
      ensures reply == if finished then SealedReserveReply(Row(old(rows), expected.run), expected, charge)
                       else ReserveReply(Row(old(rows), expected.run), expected, charge)
      ensures rows == if reply == New then old(rows)[expected.run := Charged(expected, charge)] else old(rows)
    {
      if !ValidRecord(expected) || !ValidCharge(charge) {
        return Invalid;
      }
      if finished {
        reply := Compare(Row(rows, expected.run), expected);
        if reply != Existing {
          return;
        }
      }
      var found := FindCharge(expected.charges, charge.op);
      if found.Some? {
        if found.value != charge {
          return Conflict;
        }
        return Compare(Row(rows, expected.run), expected);
      }
      var updated := Charged(expected, charge);
      if !ValidRecord(updated) {
        return Denied;
      }
      if finished {
        return NewWork;
      }
      var won := Replace(expected, updated);
      reply := if won then New else Conflict;
    }

    method Complete(expected: BudgetRecord, op: OpId, artifact: Digest) returns (reply: Reply)
      modifies this`rows
      ensures reply == if finished then NewWork else CompleteReply(Row(old(rows), expected.run), expected, op, artifact)
      ensures rows == if reply == New then old(rows)[expected.run := Completed(expected, op, artifact)] else old(rows)
    {
      if finished {
        return NewWork;
      }
      if !ValidRecord(expected) {
        return Invalid;
      }
      var found := FindCompletion(expected.completions, op);
      if found.Some? {
        if found.value != artifact {
          return Conflict;
        }
        return Compare(Row(rows, expected.run), expected);
      }
      var updated := Completed(expected, op, artifact);
      if !ValidRecord(updated) {
        return Invalid;
      }
      var won := Replace(expected, updated);
      reply := if won then New else Conflict;
    }
  }

  // ----- growth, and why a denial is final

  /** Later records of a run: same binding and limits, only appended charges and completions. */
  predicate Extends(before: BudgetRecord, after: BudgetRecord) {
    && before.run == after.run && before.binding == after.binding && before.limits == after.limits
    && before.charges <= after.charges && before.completions <= after.completions
  }

  lemma ExtendsTransitive(a: BudgetRecord, b: BudgetRecord, c: BudgetRecord)
    requires Extends(a, b) && Extends(b, c)
    ensures Extends(a, c)
  {
  }

  lemma {:induction false} SpentGrows(before: seq<Charge>, after: seq<Charge>)
    requires before <= after
    ensures AtMost(Spent(before), Spent(after))
    decreases |after|
  {
    if |before| < |after| {
      SpentGrows(before, after[..|after| - 1]);
    } else {
      assert before == after;
    }
  }

  lemma {:induction false} SpentContains(charges: seq<Charge>, i: nat, c: Charge)
    requires i < |charges| && charges[i] == c
    ensures AtMost(Plus(Spent(charges[..i]), Reserved(c)), Spent(charges))
  {
    SpentGrows(charges[..i + 1], charges);
    assert charges[..i + 1][..i] == charges[..i];
  }

  lemma SpentAppend(charges: seq<Charge>, c: Charge)
    ensures Spent(charges + [c]) == Plus(Spent(charges), Reserved(c))
  {
    assert (charges + [c])[..|charges|] == charges;
  }

  predicate IsDenied(r: BudgetRecord, c: Charge) {
    FindCharge(r.charges, c.op).None? && !ValidRecord(Charged(r, c))
  }

  lemma IdsOfAppend(charges: seq<Charge>, c: Charge)
    ensures ChargeIds(charges + [c]) == ChargeIds(charges) + [c.op]
  {
  }

  /** The allowance, or the row's capacity, does not cover this charge. */
  predicate Unaffordable(charges: seq<Charge>, limits: ReasoningBudget, c: Charge) {
    |charges| >= 50 || !Within(Plus(Spent(charges), Reserved(c)), limits)
  }

  /** A new charge is refused exactly when it is unaffordable. */
  lemma DeniedExactly(r: BudgetRecord, c: Charge)
    requires ValidRecord(r) && ValidCharge(c) && FindCharge(r.charges, c.op).None?
    ensures IsDenied(r, c) <==> Unaffordable(r.charges, r.limits, c)
  {
    SpentAppend(r.charges, c);
    IdsOfAppend(r.charges, c);
    var after := Charged(r, c);
    assert forall op :: op in ChargeIds(r.charges) ==> op in ChargeIds(after.charges);
  }

  lemma UnaffordablePersists(before: seq<Charge>, after: seq<Charge>, limits: ReasoningBudget, c: Charge)
    requires before <= after && Unaffordable(before, limits, c)
    ensures Unaffordable(after, limits, c)
  {
    SpentGrows(before, after);
  }

  lemma UnaffordableNeverAppended(before: seq<Charge>, after: seq<Charge>, limits: ReasoningBudget, c: Charge, i: nat)
    requires before <= after && Unaffordable(before, limits, c)
    requires |before| <= i < |after| && after[i] == c
    ensures |after| > 50 || !Within(Spent(after), limits)
  {
    UnaffordablePersists(before, after[..i], limits, c);
    SpentContains(after, i, c);
  }

  /** `reserve` denies without looking at the stored row; it may, because a denial outlives every extension. */
  lemma DenialPersists(before: BudgetRecord, after: BudgetRecord, c: Charge)
    requires ValidRecord(before) && ValidRecord(after) && ValidCharge(c) && Extends(before, after)
    requires IsDenied(before, c)
    ensures c !in after.charges
    ensures FindCharge(after.charges, c.op).None? ==> IsDenied(after, c)
  {
    DeniedExactly(before, c);
    assert forall k :: 0 <= k < |before.charges| ==> ChargeIds(before.charges)[k] == before.charges[k].op;
    if c in after.charges {
      var i :| 0 <= i < |after.charges| && after.charges[i] == c;
      UnaffordableNeverAppended(before.charges, after.charges, before.limits, c, i);
    }
    if FindCharge(after.charges, c.op).None? {
      UnaffordablePersists(before.charges, after.charges, before.limits, c);
      DeniedExactly(after, c);
    }
  }
}
