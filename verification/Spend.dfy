/**
 What a provider reports against what was reserved for it. A run is covered by its charges at every price table
 exactly when every retained usage keeps the token contract of its prompt. Only an error keeps one that does not.
 */
module Spend {
  import opened Records
  import opened Budget

  /** `ProviderUsage.census`: cached input is part of the input. */
  predicate ValidUsage(u: Usage) { u.cached <= u.input }

  /** The token contract of one prepared prompt. */
  predicate Fits(u: Usage, input: nat, output: nat) {
    u.input <= input && u.output <= output
  }

  function Cost(p: Price, u: Usage): nat
    requires ValidUsage(u)
  {
    (u.input - u.cached) * p.input + u.cached * p.cached + u.output * p.output
  }

  function ReservedCost(p: Price, input: nat, output: nat): nat {
    input * Max(p.input, p.cached) + output * p.output
  }

  // ----- the runtime's handling of one answer

  type ParsedDecision = d: Decision | CoherentDecision(d) witness Decision(Finish, [], [])

  /** `_stage_allowed`: granted, refused (also by PermissionError), or broken by any other exception. */
  datatype Stage = Granted | Withheld | Broken

  /** `counted` is the staged adapter's own count of the input. */
  datatype Reply =
    | NotDispatched(denied: bool)
    | Unreadable
    | Answered(counted: Option<nat>, usage: Option<Usage>, decision: Option<ParsedDecision>, refusalDiffers: bool)

  function Without(status: ModelStatus, usage: Option<Usage>): Observation
    requires status !in {ModelOk, Refused}
  {
    Observation(status, None, usage)
  }

  /** `_decision`: malformed output, or a parsed decision. */
  function Decided(decision: Option<ParsedDecision>, usage: Option<Usage>): Observation {
    match decision
    case None => Without(InvalidOutput, usage)
    case Some(d) => Observation(if d.verdict == Refuse then Refused else ModelOk, decision, usage)
  }

  /** What the usage check compares with: the adapter's count if there is one. */
  function Expected(input: nat, reply: Reply): nat
    requires reply.Answered?
  {
    if reply.counted.Some? then reply.counted.value else input
  }

  /** `_invoke`: the stage checks, the count, the usage check and the parsed decision, in their order. */
  function Invoke(input: nat, output: nat, before: Stage, reply: Reply, after: Stage): Observation {
    if !before.Granted? then Without(if before.Withheld? then ModelDenied else ModelError, None)
    else match reply
      case NotDispatched(denied) => Without(if denied then ModelDenied else ModelError, None)
      case Unreadable => Without(ModelError, None)
      case Answered(_, usage, decision, refusalDiffers) =>
        if Expected(input, reply) > input || (usage.Some? && !ValidUsage(usage.value)) then Without(ModelError, None)
        else if usage.Some? && (usage.value.input != Expected(input, reply) || !Fits(usage.value, input, output))
        then Without(ModelError, usage)
        else
          var decided := Decided(decision, usage);
          if refusalDiffers && decided.status != Refused then Without(ModelError, usage)
          else if after.Granted? then decided
          else Without(if after.Withheld? then ModelDenied else ModelError, usage)
  }

  /** How the worker's future ends: still running at the deadline, raised, or done, in time or too late. */
  datatype Future = Running | Raised | Done(late: bool, before: Stage, reply: Reply, after: Stage)

  datatype Runtime = Runtime(inputLimit: nat, outputLimit: nat, ceiling: bool, closed: bool, busy: bool)

  /** `observe`; None is its ValueError, and nothing that ends without an observation in time keeps a usage. */
  function Observe(runtime: Runtime, input: nat, ceiling: bool, future: Future): Option<Observation> {
    if input > runtime.inputLimit || runtime.closed || ceiling != runtime.ceiling then None
    else if runtime.busy then Some(Without(ModelBusy, None))
    else match future
      case Running => Some(Without(ModelTimeout, None))
      case Raised => Some(Without(ModelError, None))
      case Done(late, before, reply, after) =>
        Some(if late then Without(ModelTimeout, None) else Invoke(input, runtime.outputLimit, before, reply, after))
  }

  /** Whatever is retained is a proper usage, and keeps the token contract unless the outcome is an error. */
  lemma RetainedIsCovered(runtime: Runtime, input: nat, ceiling: bool, future: Future)
    requires Observe(runtime, input, ceiling, future).Some?
    ensures var o := Observe(runtime, input, ceiling, future).value;
      o.usage.Some? ==>
        ValidUsage(o.usage.value) && (o.status != ModelError ==> Fits(o.usage.value, input, runtime.outputLimit))
  {
  }

  /** The guard of the failing branch: an answer in time, properly counted, whose proper usage breaks the contract. */
  predicate Overspends(runtime: Runtime, input: nat, future: Future) {
    && !runtime.busy && future.Done? && !future.late && future.before.Granted? && future.reply.Answered?
    && Expected(input, future.reply) <= input && future.reply.usage.Some? && ValidUsage(future.reply.usage.value)
    && !Fits(future.reply.usage.value, input, runtime.outputLimit)
  }

  /** A usage that keeps no contract is retained exactly by that branch, whose outcome is an error. */
  lemma UncoveredExactly(runtime: Runtime, input: nat, ceiling: bool, future: Future)
    requires Observe(runtime, input, ceiling, future).Some?
    ensures var o := Observe(runtime, input, ceiling, future).value;
      && (Overspends(runtime, input, future) <==> o.usage.Some? && !Fits(o.usage.value, input, runtime.outputLimit))
      && (Overspends(runtime, input, future) ==> o.status == ModelError)
  {
  }

  // ----- coverage of one charge

  lemma {:induction false} Scale(a: nat, b: nat, c: nat)
    requires a <= b
    ensures a * c <= b * c
    decreases c
  {
    if c > 0 {
      Scale(a, b, c - 1);
      assert a * c == a * (c - 1) + a && b * c == b * (c - 1) + b;
    }
  }

  lemma CostIsCovered(p: Price, u: Usage, input: nat, output: nat)
    requires ValidUsage(u) && Fits(u, input, output)
    ensures Cost(p, u) <= ReservedCost(p, input, output)
  {
    var top := Max(p.input, p.cached);
    Scale(p.input, top, u.input - u.cached);
    Scale(p.cached, top, u.cached);
    assert (u.input - u.cached) * top + u.cached * top == u.input * top;
    Scale(u.input, input, top);
    Scale(u.output, output, p.output);
  }

  /** A reported usage is covered at every price table exactly when it keeps the prompt's token contract. */
  lemma CoveredExactly(u: Usage, input: nat, output: nat)
    requires ValidUsage(u)
    ensures Fits(u, input, output) <==>
      forall p: Price :: ValidPrice(p) ==> Cost(p, u) <= ReservedCost(p, input, output)
  {
    if Fits(u, input, output) {
      forall p: Price | ValidPrice(p) ensures Cost(p, u) <= ReservedCost(p, input, output) {
        CostIsCovered(p, u, input, output);
      }
    } else {
      var inputOnly, outputOnly := Price(1, 1, 0), Price(0, 0, 1);
      assert Cost(inputOnly, u) == u.input && ReservedCost(inputOnly, input, output) == input;
      assert Cost(outputOnly, u) == u.output && ReservedCost(outputOnly, input, output) == output;
    }
  }

  // ----- whole runs

  function UsageIn(receipt: Digest): Option<Usage> {
    match receipt.content
    case ModelReceipt(_, _, _, observation) => observation.usage
    case _ => None
  }

  /** The usage anchored for a charge: only a completed model call has one. */
  function Reported(c: Charge, completions: seq<Completion>): Option<Usage> {
    if !c.ModelCharge? || FindCompletion(completions, c.op).None? then None
    else UsageIn(FindCompletion(completions, c.op).value)
  }

  function ActualOf(c: Charge, completions: seq<Completion>): Spend
    requires Reported(c, completions).Some? ==> ValidUsage(Reported(c, completions).value)
  {
    match Reported(c, completions)
    case None => ZERO
    case Some(u) => Spend(1, u.input + u.output, Cost(c.price, u), 0, 0, 0)
  }

  predicate AllValid(charges: seq<Charge>, completions: seq<Completion>) {
    forall c :: c in charges && Reported(c, completions).Some? ==> ValidUsage(Reported(c, completions).value)
  }

  function Actual(charges: seq<Charge>, completions: seq<Completion>): Spend
    requires AllValid(charges, completions)
  {
    if charges == [] then ZERO
    else Plus(Actual(charges[..|charges| - 1], completions), ActualOf(charges[|charges| - 1], completions))
  }

  /** The receipt of this charge is what the runtime made of exactly this prompt. */
  ghost predicate FromRuntime(c: Charge, o: Observation)
    requires c.ModelCharge?
  {
    exists runtime: Runtime, future ::
      runtime.outputLimit == c.outputLimit && Observe(runtime, c.inputTokens, c.ceiling, future) == Some(o)
  }

  /** Every completed model call was made by the runtime, whatever its outcome. */
  ghost predicate Observed(r: BudgetRecord) {
    forall c :: c in r.charges && c.ModelCharge? && FindCompletion(r.completions, c.op).Some? ==>
      && FindCompletion(r.completions, c.op).value.content.ModelReceipt?
      && FromRuntime(c, FindCompletion(r.completions, c.op).value.content.observation)
  }

  predicate KeepsContract(c: Charge, completions: seq<Completion>) {
    Reported(c, completions).Some? ==> Fits(Reported(c, completions).value, c.inputTokens, c.outputLimit)
  }

  /** Every retained usage keeps the token contract of its charge. */
  predicate Kept(charges: seq<Charge>, completions: seq<Completion>) {
    forall c :: c in charges ==> KeepsContract(c, completions)
  }

  /** What the runtime retains is always a proper usage. */
  lemma ObservedIsValid(r: BudgetRecord)
    requires Observed(r)
    ensures AllValid(r.charges, r.completions)
  {
    hide Observe;
    forall c | c in r.charges && Reported(c, r.completions).Some? ensures ValidUsage(Reported(c, r.completions).value) {
      var o := FindCompletion(r.completions, c.op).value.content.observation;
      var runtime: Runtime, future :|
        runtime.outputLimit == c.outputLimit && Observe(runtime, c.inputTokens, c.ceiling, future) == Some(o);
      RetainedIsCovered(runtime, c.inputTokens, c.ceiling, future);
    }
  }

  ghost predicate WithoutErrors(r: BudgetRecord) {
    forall c :: c in r.charges && c.ModelCharge? && FindCompletion(r.completions, c.op).Some? ==>
      var content := FindCompletion(r.completions, c.op).value.content;
      content.ModelReceipt? ==> content.observation.status != ModelError
  }

  /** Answers, refusals, denials, timeouts, busy runtimes and calls without a receipt all keep the contract. */
  lemma OnlyErrorsOverspend(r: BudgetRecord)
    requires Observed(r) && WithoutErrors(r)
    ensures Kept(r.charges, r.completions)
  {
    hide Observe, FindCompletion;
    forall c | c in r.charges && Reported(c, r.completions).Some? ensures KeepsContract(c, r.completions) {
      var o := FindCompletion(r.completions, c.op).value.content.observation;
      var runtime: Runtime, future :|
        runtime.outputLimit == c.outputLimit && Observe(runtime, c.inputTokens, c.ceiling, future) == Some(o);
      RetainedIsCovered(runtime, c.inputTokens, c.ceiling, future);
    }
  }

  lemma {:induction false} SumIsCovered(charges: seq<Charge>, completions: seq<Completion>)
    requires AllValid(charges, completions) && Kept(charges, completions)
    ensures AtMost(Actual(charges, completions), Spent(charges))
  {
    hide Reported, Cost;
    if charges != [] {
      var front, last := charges[..|charges| - 1], charges[|charges| - 1];
      SumIsCovered(front, completions);
      OnlyModelsReport(last, completions);
      if Reported(last, completions).Some? {
        assert KeepsContract(last, completions);
        CostIsCovered(last.price, Reported(last, completions).value, last.inputTokens, last.outputLimit);
      }
    }
  }

  lemma OnlyModelsReport(c: Charge, completions: seq<Completion>)
    ensures Reported(c, completions).Some? ==> c.ModelCharge?
  {
  }

  /**
   Any outcomes, any number of turns: while the contract is kept, what was paid for is within what the run may spend.
   */
  lemma SpendStaysWithinLimits(r: BudgetRecord)
    requires ValidRecord(r) && Observed(r) && Kept(r.charges, r.completions)
    ensures AllValid(r.charges, r.completions)
    ensures AtMost(Actual(r.charges, r.completions), Spent(r.charges))
    ensures Within(Actual(r.charges, r.completions), r.limits)
  {
    hide Observed, Kept, Actual, Spent, AllValid;
    ObservedIsValid(r);
    SumIsCovered(r.charges, r.completions);
  }

  // ----- a run at every price table

  /** The same work at other prices, one per operation. */
  function Repriced(charges: seq<Charge>, prices: OpId -> Price): (r: seq<Charge>)
    ensures |r| == |charges|
  {
    if charges == [] then []
    else
      var last := charges[|charges| - 1];
      Repriced(charges[..|charges| - 1], prices) + [if last.ModelCharge? then last.(price := prices(last.op)) else last]
  }

  lemma {:induction false} RepricedKeeps(charges: seq<Charge>, completions: seq<Completion>, prices: OpId -> Price)
    ensures AllValid(charges, completions) ==> AllValid(Repriced(charges, prices), completions)
    ensures Kept(charges, completions) ==> Kept(Repriced(charges, prices), completions)
  {
    hide FindCompletion;
    if charges != [] {
      var front, last := charges[..|charges| - 1], charges[|charges| - 1];
      RepricedKeeps(front, completions, prices);
      assert charges == front + [last] && last in charges;
      assert forall c :: c in front ==> c in charges;
    }
  }

  /** Everything free except one operation. */
  function Only(op: OpId, price: Price): OpId -> Price {
    x => if x == op then price else Price(0, 0, 0)
  }

  lemma OneCost(c: Charge, completions: seq<Completion>, op: OpId, price: Price)
    requires AllValid([c], completions)
    ensures AllValid(Repriced([c], Only(op, price)), completions)
    ensures var p := Repriced([c], Only(op, price))[0];
      && (c.op != op ==> ActualOf(p, completions).cost == 0 && Reserved(p).cost == 0)
      && (c.op == op && Reported(c, completions).Some? ==>
            && ActualOf(p, completions).cost == Cost(price, Reported(c, completions).value)
            && Reserved(p).cost == ReservedCost(price, c.inputTokens, c.outputLimit))
  {
    hide FindCompletion;
    RepricedKeeps([c], completions, Only(op, price));
    assert [c][..0] == [];
    assert Repriced([c], Only(op, price)) == [if c.ModelCharge? then c.(price := Only(op, price)(c.op)) else c];
  }

  lemma RepricedLast(charges: seq<Charge>, prices: OpId -> Price)
    requires charges != []
    ensures Repriced(charges, prices)
         == Repriced(charges[..|charges| - 1], prices) + Repriced([charges[|charges| - 1]], prices)
    ensures |Repriced([charges[|charges| - 1]], prices)| == 1
  {
    assert [charges[|charges| - 1]][..0] == [];
  }

  lemma SumLast(charges: seq<Charge>, c: Charge, completions: seq<Completion>)
    requires AllValid(charges + [c], completions)
    ensures AllValid(charges, completions)
    ensures Actual(charges + [c], completions) == Plus(Actual(charges, completions), ActualOf(c, completions))
    ensures Spent(charges + [c]) == Plus(Spent(charges), Reserved(c))
  {
    hide Reported, ActualOf, Reserved;
    assert (charges + [c])[..|charges|] == charges;
    assert forall x :: x in charges ==> x in charges + [c];
  }

  /** At such prices the whole run costs what its one operation costs. */
  lemma {:induction false} OnlyOneCosts(charges: seq<Charge>, completions: seq<Completion>, op: OpId, price: Price)
    requires AllValid(charges, completions) && Distinct(ChargeIds(charges))
    ensures var p := Repriced(charges, Only(op, price));
      && AllValid(p, completions)
      && (op !in ChargeIds(charges) ==> Actual(p, completions).cost == 0 && Spent(p).cost == 0)
      && forall c :: c in charges && c.op == op && Reported(c, completions).Some? ==>
           && Actual(p, completions).cost == Cost(price, Reported(c, completions).value)
           && Spent(p).cost == ReservedCost(price, c.inputTokens, c.outputLimit)
  {
    hide Reported, Cost, ReservedCost, Repriced, ActualOf, Reserved, Actual, Spent;
    var p := Repriced(charges, Only(op, price));
    RepricedKeeps(charges, completions, Only(op, price));
    if charges == [] {
      assert p == [];
      NothingCosts(completions);
    } else {
      var front, last := charges[..|charges| - 1], charges[|charges| - 1];
      assert charges == front + [last];
      assert ChargeIds(charges) == ChargeIds(front) + [last.op];
      SplitIds(front, last);
      OnlyOneCosts(front, completions, op, price);
      OneCost(last, completions, op, price);
      RepricedLast(charges, Only(op, price));
      SumLast(Repriced(front, Only(op, price)), Repriced([last], Only(op, price))[0], completions);
      assert p == Repriced(front, Only(op, price)) + [Repriced([last], Only(op, price))[0]];
    }
  }

  lemma NothingCosts(completions: seq<Completion>)
    ensures Actual([], completions).cost == 0 && Spent([]).cost == 0
  {
  }

  lemma SplitIds(front: seq<Charge>, last: Charge)
    ensures Distinct(ChargeIds(front + [last])) ==> Distinct(ChargeIds(front)) && last.op !in ChargeIds(front)
    ensures forall c :: c in front ==> c.op in ChargeIds(front)
  {
    var ids := ChargeIds(front + [last]);
    assert forall i :: 0 <= i < |front| ==> ids[i] == front[i].op == ChargeIds(front)[i];
    assert ids[|front|] == last.op;
  }

  /** The run is covered at these prices. */
  ghost predicate CoveredAt(charges: seq<Charge>, completions: seq<Completion>, prices: OpId -> Price)
    requires AllValid(charges, completions)
  {
    RepricedKeeps(charges, completions, prices);
    AtMost(Actual(Repriced(charges, prices), completions), Spent(Repriced(charges, prices)))
  }

  ghost predicate ValidPrices(prices: OpId -> Price) {
    forall op :: ValidPrice(prices(op))
  }

  /**
   A whole run is covered by its charges at every price table exactly when every retained usage keeps its contract.
   */
  lemma RunCoveredExactly(r: BudgetRecord)
    requires ValidRecord(r) && AllValid(r.charges, r.completions)
    ensures Kept(r.charges, r.completions) <==>
      forall prices: OpId -> Price :: ValidPrices(prices) ==> CoveredAt(r.charges, r.completions, prices)
  {
    hide Repriced, Actual, Spent, Reported, AllValid, Cost, ReservedCost, Spent;
    if Kept(r.charges, r.completions) {
      forall prices: OpId -> Price ensures CoveredAt(r.charges, r.completions, prices) {
        RepricedKeeps(r.charges, r.completions, prices);
        SumIsCovered(Repriced(r.charges, prices), r.completions);
      }
    } else {
      var c :| c in r.charges && !KeepsContract(c, r.completions);
      UncoveredAtSomePrice(r, c);
    }
  }

  lemma UncoveredAtSomePrice(r: BudgetRecord, c: Charge)
    requires ValidRecord(r) && AllValid(r.charges, r.completions) && c in r.charges && !KeepsContract(c, r.completions)
    ensures exists prices: OpId -> Price :: ValidPrices(prices) && !CoveredAt(r.charges, r.completions, prices)
  {
    hide Repriced, Actual, Spent, Reported;
    OnlyModelsReport(c, r.completions);
    var u := Reported(c, r.completions).value;
    assert ValidUsage(u);
    var price := if u.input > c.inputTokens then Price(1, 1, 0) else Price(0, 0, 1);
    assert Cost(price, u) > ReservedCost(price, c.inputTokens, c.outputLimit);
    OnlyOneCosts(r.charges, r.completions, c.op, price);
    assert ValidPrices(Only(c.op, price)) && !CoveredAt(r.charges, r.completions, Only(c.op, price));
  }

  /** A run of one call limited to 11 tokens, whose refused report names 100. */
  function ErrorRun(binding: Digest, prompt: Digest): BudgetRecord {
    var o: Observation := Observation(ModelError, None, Some(Usage(100, 1, 0)));
    BudgetRecord("run", binding, ReasoningBudget(1, 11, 1000, 0, 0, 0),
                 [ModelCharge(ModelOp(1), prompt, 10, 1, Price(1, 1, 1), false, 0)],
                 [Completion(ModelOp(1), Sha256(ModelReceipt("run", ModelOp(1), prompt, o)))])
  }

  lemma OneCallIsValid(r: BudgetRecord, c: Charge, done: Completion)
    requires r.charges == [c] && r.completions == [done] && done.op == c.op
    requires ValidLimits(r.limits) && ValidCharge(c) && Within(Reserved(c), r.limits)
    ensures ValidRecord(r)
  {
    hide ValidCharge, ValidLimits, Reserved;
    assert ChargeIds(r.charges) == [c.op] && CompletionIds(r.completions) == [c.op];
    assert r.charges[..0] == [];
    assert Spent(r.charges) == Plus(ZERO, Reserved(c));
  }

  lemma OneCallReports(c: Charge, done: Completion, u: Usage)
    requires c.ModelCharge? && done.op == c.op && UsageIn(done.artifact) == Some(u) && ValidUsage(u)
    ensures AllValid([c], [done]) && Actual([c], [done]) == Spend(1, u.input + u.output, Cost(c.price, u), 0, 0, 0)
  {
    hide UsageIn, Cost;
    assert Reported(c, [done]) == Some(u);
    assert [c][..0] == [];
    assert Actual([c], [done]) == Plus(ZERO, ActualOf(c, [done]));
  }

  /** The case that is not covered: the refused report stays in the observation. */
  lemma ErrorRetainsUncheckedUsage()
    ensures var future := Done(false, Granted, Answered(None, Some(Usage(100, 1, 0)), None, false), Granted);
      Observe(Runtime(10, 1, false, false, false), 10, false, future)
        == Some(Without(ModelError, Some(Usage(100, 1, 0))))
  {
  }

  /** With an error among them, what the runtime retained can exceed the limits of a valid record. */
  lemma ErrorSpendIsNotCovered(binding: Digest, prompt: Digest)
    ensures var r := ErrorRun(binding, prompt);
      && ValidRecord(r) && Observed(r) && AllValid(r.charges, r.completions)
      && !Within(Actual(r.charges, r.completions), r.limits)
  {
    hide ValidRecord, Actual, AllValid, Observe;
    var r := ErrorRun(binding, prompt);
    OneCallIsValid(r, r.charges[0], r.completions[0]);
    OneCallReports(r.charges[0], r.completions[0], Usage(100, 1, 0));
    ErrorRetainsUncheckedUsage();
    assert FromRuntime(r.charges[0], r.completions[0].artifact.content.observation);
  }
}
