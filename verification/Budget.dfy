/**
 The arithmetic of admission budgets (crewos/application/services/execution_control.py):
 what a reservation and a reconciliation make of a checkpoint, and the ledger
 of calls whose total the checkpoint carries. Money is exact.
 */
module Budget {
  import opened Wrappers
  import opened AgentData

  type Rates = Option<(real, real)>

  /** What a worker is configured with when it starts an attempt. */
  datatype Settings = Settings(maxDecisions: nat, maxTokens: nat, maxCost: Option<real>, maxRecoveries: nat, rates: Rates)

  /** The limits in force for one attempt. */
  datatype Allowance = Allowance(maxTokens: nat, maxCost: Option<real>, maxRecoveries: nat, rates: Rates)

  predicate ValidAllowance(a: Allowance) {
    && a.maxTokens >= 1
    && (a.maxCost.Some? ==> a.rates.Some? && a.maxCost.value >= 0.0)
    && (a.rates.Some? ==> a.rates.value.0 >= 0.0 && a.rates.value.1 >= 0.0)
  }

  /** The limits recorded by the first attempt, or the settings of this one if it is the first. */
  function RecordedLimits(cp: Checkpoint, s: Settings): Limits {
    if cp.limits.Some? then cp.limits.value else Limits(s.maxTokens, s.maxCost, s.maxRecoveries)
  }

  function MinNat(a: nat, b: nat): nat {
    if a < b then a else b
  }

  function MaxNat(a: nat, b: nat): nat {
    if a < b then b else a
  }

  function TighterCost(original: Option<real>, current: Option<real>): Option<real> {
    if original.Some? && current.Some? then
      (if original.value < current.value then original else current)
    else if original.Some? then original else current
  }

  /** A later attempt may be configured tighter than the first, never looser. */
  function AllowanceFor(l: Limits, s: Settings): Allowance {
    Allowance(
      MinNat(l.maxTokens, s.maxTokens), TighterCost(l.maxCost, s.maxCost), MinNat(l.maxRecoveries, s.maxRecoveries), s.rates)
  }

  predicate Within(a: Allowance, l: Limits) {
    && a.maxTokens <= l.maxTokens
    && a.maxRecoveries <= l.maxRecoveries
    && (l.maxCost.Some? ==> a.maxCost.Some? && a.maxCost.value <= l.maxCost.value)
  }

  /** No looser than what the first attempt recorded, nor than what this one is configured with, and one of the two in each. */
  lemma AllowanceIsTighter(l: Limits, s: Settings)
    ensures var a := AllowanceFor(l, s);
      && Within(a, l) && Within(a, Limits(s.maxTokens, s.maxCost, s.maxRecoveries))
      && a.maxTokens in {l.maxTokens, s.maxTokens} && a.maxRecoveries in {l.maxRecoveries, s.maxRecoveries}
      && a.maxCost in {l.maxCost, s.maxCost}
  {
  }

  /** An attempt cannot run on a budget without tokens, with a money limit but no rates, or with negative amounts. */
  lemma AllowanceRefusedExactly(l: Limits, s: Settings)
    ensures !ValidAllowance(AllowanceFor(l, s)) <==>
      || l.maxTokens == 0 || s.maxTokens == 0
      || ((l.maxCost.Some? || s.maxCost.Some?) && s.rates.None?)
      || (l.maxCost.Some? && l.maxCost.value < 0.0) || (s.maxCost.Some? && s.maxCost.value < 0.0)
      || (s.rates.Some? && (s.rates.value.0 < 0.0 || s.rates.value.1 < 0.0))
  {
  }

  function Cost(rates: Rates, input: nat, output: nat): real {
    if rates.None? then 0.0
    else ((input as real) * rates.value.0 + (output as real) * rates.value.1) / 1000000.0
  }

  predicate Exceeds(a: Allowance, tokens: nat, cost: real) {
    tokens > a.maxTokens || (a.maxCost.Some? && cost > a.maxCost.value)
  }

  function Reserved(cp: Checkpoint, rates: Rates, input: nat, output: nat): Checkpoint {
    cp.(
      reservedTokens := cp.reservedTokens + input + output,
      reservedCost := cp.reservedCost + Cost(rates, input, output))
  }

  /** A reservation is admitted exactly when the totals with it are within the allowance, money at the attempt's own rates. */
  lemma AdmittedExactly(a: Allowance, cp: Checkpoint, input: nat, output: nat)
    ensures var next := Reserved(cp, a.rates, input, output);
      !Exceeds(a, next.reservedTokens, next.reservedCost) <==>
        && cp.reservedTokens + input + output <= a.maxTokens
        && (a.maxCost.Some? ==>
          cp.reservedCost
            + (if a.rates.None? then 0.0
              else ((input as real) * a.rates.value.0 + (output as real) * a.rates.value.1) / 1000000.0)
          <= a.maxCost.value)
  {
    CostIs(a.rates, input, output);
    hide Cost;
  }

  lemma CostIs(rates: Rates, input: nat, output: nat)
    ensures Cost(rates, input, output) ==
      if rates.None? then 0.0 else ((input as real) * rates.value.0 + (output as real) * rates.value.1) / 1000000.0
  {
  }

  function Excess(reported: nat, reserved: nat): nat {
    if reported > reserved then reported - reserved else 0
  }

  function Reconciled(cp: Checkpoint, rates: Rates, input: nat, output: nat, reservedInput: nat, reservedOutput: nat): Checkpoint {
    var extraInput, extraOutput := Excess(input, reservedInput), Excess(output, reservedOutput);
    cp.(
      reservedTokens := cp.reservedTokens + extraInput + extraOutput,
      reservedCost := cp.reservedCost + Cost(rates, extraInput, extraOutput),
      reportedInput := cp.reportedInput + input,
      reportedOutput := cp.reportedOutput + output)
  }

  // ------------------------------------------------------------------ ledger

  /** One model call: what was reserved for it and, if it came back, what it reported. */
  datatype Charge = Charge(payer: Token, rates: Rates, input: nat, output: nat, reported: Option<(nat, nat)>)

  /** Per component, the larger of what was reserved and what was reported. */
  function ChargedInput(c: Charge): nat {
    if c.reported.Some? then MaxNat(c.input, c.reported.value.0) else c.input
  }

  function ChargedOutput(c: Charge): nat {
    if c.reported.Some? then MaxNat(c.output, c.reported.value.1) else c.output
  }

  function ReportedInput(c: Charge): nat {
    if c.reported.Some? then c.reported.value.0 else 0
  }

  function ReportedOutput(c: Charge): nat {
    if c.reported.Some? then c.reported.value.1 else 0
  }

  datatype Totals = Totals(tokens: nat, cost: real, reportedInput: nat, reportedOutput: nat)

  function Total(ledger: seq<Charge>): Totals {
    if ledger == [] then Totals(0, 0.0, 0, 0)
    else
      var rest := Total(ledger[..|ledger| - 1]);
      var c := ledger[|ledger| - 1];
      Totals(
        rest.tokens + ChargedInput(c) + ChargedOutput(c),
        rest.cost + Cost(c.rates, ChargedInput(c), ChargedOutput(c)),
        rest.reportedInput + ReportedInput(c),
        rest.reportedOutput + ReportedOutput(c))
  }

  function TotalsOf(cp: Checkpoint): Totals {
    Totals(cp.reservedTokens, cp.reservedCost, cp.reportedInput, cp.reportedOutput)
  }

  lemma CostAdds(rates: Rates, input: nat, output: nat, moreInput: nat, moreOutput: nat)
    ensures Cost(rates, input, output) + Cost(rates, moreInput, moreOutput)
      == Cost(rates, input + moreInput, output + moreOutput)
  {
    if rates.Some? {
      Spread(input, moreInput, rates.value.0);
      Spread(output, moreOutput, rates.value.1);
    }
  }

  lemma Spread(a: nat, b: nat, rate: real)
    ensures ((a + b) as real) * rate == (a as real) * rate + (b as real) * rate
  {
    assert (a + b) as real == (a as real) + (b as real);
  }

  /** A reservation is a new ledger entry. */
  lemma ReserveConserves(cp: Checkpoint, ledger: seq<Charge>, c: Charge)
    requires TotalsOf(cp) == Total(ledger) && c.reported.None?
    ensures TotalsOf(Reserved(cp, c.rates, c.input, c.output)) == Total(ledger + [c])
  {
    assert (ledger + [c])[..|ledger|] == ledger;
  }

  /** A reconciliation raises one open entry to what it reported. */
  lemma {:induction false} ReconcileConserves(cp: Checkpoint, ledger: seq<Charge>, i: nat, input: nat, output: nat)
    requires TotalsOf(cp) == Total(ledger)
    requires i < |ledger| && ledger[i].reported.None?
    ensures var c := ledger[i];
      TotalsOf(Reconciled(cp, c.rates, input, output, c.input, c.output))
        == Total(ledger[i := c.(reported := Some((input, output)))])
    decreases |ledger|
  {
    var n := |ledger| - 1;
    var c := ledger[i];
    var raised := c.(reported := Some((input, output)));
    var after := ledger[i := raised];
    if i == n {
      assert after[..n] == ledger[..n];
      CostAdds(c.rates, c.input, c.output, Excess(input, c.input), Excess(output, c.output));
    } else {
      var rest := Total(ledger[..n]);
      var short := cp.(reservedTokens := rest.tokens, reservedCost := rest.cost,
        reportedInput := rest.reportedInput, reportedOutput := rest.reportedOutput);
      ReconcileConserves(short, ledger[..n], i, input, output);
      assert after[..n] == ledger[..n][i := raised];
    }
  }

  /** The reserved total bounds everything ever reported. */
  lemma {:induction false} ReservedBoundsReported(ledger: seq<Charge>)
    ensures Total(ledger).reportedInput + Total(ledger).reportedOutput <= Total(ledger).tokens
  {
    if ledger == [] {
    } else {
      ReservedBoundsReported(ledger[..|ledger| - 1]);
    }
  }

  /** The total is at least every single charge, so nothing admitted is ever forgotten. */
  lemma {:induction false} TotalCoversEntry(ledger: seq<Charge>, i: nat)
    requires i < |ledger|
    ensures ChargedInput(ledger[i]) + ChargedOutput(ledger[i]) <= Total(ledger).tokens
  {
    if i == |ledger| - 1 {
    } else {
      TotalCoversEntry(ledger[..|ledger| - 1], i);
    }
  }
}
