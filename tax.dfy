/** The tax service: the progressive income-tax calculator
    (tax-service/app/tax_calculator.py) and the request handlers that wrap it
    (tax-service/app/utils.py). */
module TaxCalculator {

  /** The upper edge of a bracket; the last bracket's edge is `float('inf')`. */
  datatype Limit = Upto(bound: real) | Unbounded

  /** One `(limit, rate)` pair of the bracket table. */
  datatype Bracket = Bracket(limit: Limit, rate: real)

  /** The fixed marginal table of `calculate_income_tax`. */
  const Brackets: seq<Bracket> := [
    Bracket(Upto(9875.0), 0.10),
    Bracket(Upto(40125.0), 0.12),
    Bracket(Upto(85525.0), 0.22),
    Bracket(Upto(163300.0), 0.24),
    Bracket(Upto(207350.0), 0.32),
    Bracket(Upto(518400.0), 0.35),
    Bracket(Unbounded, 0.37)
  ]

  const LowestRate: real := 0.10
  const HighestRate: real := 0.37

  /** `taxable_income > previous_limit`; nothing exceeds infinity. */
  predicate Exceeds(t: real, l: Limit) {
    l.Upto? && t > l.bound
  }

  /** `min(taxable_income, limit)`. */
  function Cap(t: real, l: Limit): (r: real)
    ensures r <= t
    ensures l.Upto? ==> r <= l.bound
    ensures r == t || (l.Upto? && r == l.bound)
  {
    if l.Upto? && l.bound < t then l.bound else t
  }

  /** `max(0, income - deductions)`. */
  function TaxableIncome(income: real, deductions: real): (t: real)
    ensures t >= 0.0
    ensures t >= income - deductions
    ensures t == 0.0 || t == income - deductions
    ensures deductions >= income ==> t == 0.0
  {
    if income - deductions > 0.0 then income - deductions else 0.0
  }

  /** A table the loop can walk: finite, strictly ascending edges above 0,
      one unbounded last bracket, and no negative rate. */
  ghost predicate WellFormed(bs: seq<Bracket>) {
    && |bs| > 0
    && bs[|bs| - 1].limit == Unbounded
    && (forall k :: 0 <= k < |bs| - 1 ==> bs[k].limit.Upto?)
    && (forall k :: 0 <= k < |bs| - 1 ==> bs[k].limit.bound > 0.0)
    && (forall j, k :: 0 <= j < k < |bs| - 1 ==> bs[j].limit.bound < bs[k].limit.bound)
    && (forall k :: 0 <= k < |bs| ==> bs[k].rate >= 0.0)
  }

  lemma BracketsWellFormed()
    ensures WellFormed(Brackets)
  {
  }

  /** The value of `previous_limit` when bracket `k` is reached: 0 for the
      first bracket, otherwise the limit of bracket `k - 1`. */
  function Floor(bs: seq<Bracket>, k: nat): Limit
    requires k <= |bs|
  {
    if k == 0 then Upto(0.0) else bs[k - 1].limit
  }

  lemma FloorFinite(bs: seq<Bracket>, k: nat)
    requires WellFormed(bs) && k < |bs|
    ensures Floor(bs, k).Upto?
    ensures Floor(bs, k).bound >= 0.0
    ensures Floor(bs, k + 1).Unbounded? || Exceeds(Floor(bs, k + 1).bound, Floor(bs, k))
  {
  }

  /** The part of `t` that lies in `(lower, limit]`. */
  function Slice(t: real, lower: real, limit: Limit): (s: real)
    ensures s >= 0.0
    ensures t <= lower ==> s == 0.0
  {
    if Cap(t, limit) - lower > 0.0 then Cap(t, limit) - lower else 0.0
  }

  /** The marginal tax on `t` owed to the first `k` brackets. */
  function PartialTax(bs: seq<Bracket>, t: real, k: nat): real
    requires WellFormed(bs) && k <= |bs|
  {
    if k == 0 then 0.0 else PartialTax(bs, t, k - 1) + SliceTax(bs, t, k - 1)
  }

  /** The part of `t` that falls in bracket `j`. */
  function SliceOf(bs: seq<Bracket>, t: real, j: nat): (s: real)
    requires WellFormed(bs) && j < |bs|
    ensures s >= 0.0
  {
    FloorFinite(bs, j);
    Slice(t, Floor(bs, j).bound, bs[j].limit)
  }

  /** `taxable_amount * rate` for bracket `j`. */
  function SliceTax(bs: seq<Bracket>, t: real, j: nat): real
    requires WellFormed(bs) && j < |bs|
  {
    SliceOf(bs, t, j) * bs[j].rate
  }

  lemma SliceTaxMonotone(bs: seq<Bracket>, t1: real, t2: real, j: nat)
    requires WellFormed(bs) && j < |bs| && t1 <= t2
    ensures SliceTax(bs, t1, j) <= SliceTax(bs, t2, j)
  {
    FloorFinite(bs, j);
    ScaleLeq(SliceOf(bs, t1, j), SliceOf(bs, t2, j), bs[j].rate);
  }

  /** The part of `t` covered by the first `k` brackets. */
  function CoveredIncome(bs: seq<Bracket>, t: real, k: nat): real
    requires WellFormed(bs) && k <= |bs|
  {
    if k == 0 then 0.0 else CoveredIncome(bs, t, k - 1) + SliceOf(bs, t, k - 1)
  }

  /** Marginal (not flat) tax on taxable income `t` under table `bs`. */
  ghost function MarginalTax(bs: seq<Bracket>, t: real): real
    requires WellFormed(bs)
  {
    PartialTax(bs, t, |bs|)
  }

  /** The tax the fixed table levies on taxable income `t`. */
  ghost function IncomeTax(t: real): real {
    BracketsWellFormed();
    MarginalTax(Brackets, t)
  }

  /** Once `t` no longer exceeds the floor of bracket `k`, brackets `k..`
      add nothing: the early `break` loses no tax. */
  lemma {:induction false} NothingAboveIncome(bs: seq<Bracket>, t: real, k: nat)
    requires WellFormed(bs) && k <= |bs|
    requires k == |bs| || !Exceeds(t, Floor(bs, k))
    ensures PartialTax(bs, t, |bs|) == PartialTax(bs, t, k)
    decreases |bs| - k
  {
    if k < |bs| {
      FloorFinite(bs, k);
      assert Slice(t, Floor(bs, k).bound, bs[k].limit) == 0.0;
      assert PartialTax(bs, t, k + 1) == PartialTax(bs, t, k);
      NothingAboveIncome(bs, t, k + 1);
    }
  }

  /** The first `k` brackets cover `t` up to the floor of bracket `k`. */
  lemma {:induction false} CoveredUpToFloor(bs: seq<Bracket>, t: real, k: nat)
    requires WellFormed(bs) && k <= |bs| && t >= 0.0
    ensures CoveredIncome(bs, t, k) == Cap(t, Floor(bs, k))
  {
    if k > 0 {
      CoveredUpToFloor(bs, t, k - 1);
      FloorFinite(bs, k - 1);
    }
  }

  /** Because the last bracket is unbounded, all of `t` is taxed. */
  lemma FullyCovered(bs: seq<Bracket>, t: real)
    requires WellFormed(bs) && t >= 0.0
    ensures CoveredIncome(bs, t, |bs|) == t
  {
    CoveredUpToFloor(bs, t, |bs|);
  }

  /** A slice taxed at a rate in `[LowestRate, HighestRate]` owes between
      those rates times its width. */
  lemma SliceTaxBetweenRates(bs: seq<Bracket>, t: real, j: nat)
    requires WellFormed(bs) && j < |bs|
    requires LowestRate <= bs[j].rate <= HighestRate
    ensures LowestRate * SliceOf(bs, t, j) <= SliceTax(bs, t, j)
    ensures SliceTax(bs, t, j) <= HighestRate * SliceOf(bs, t, j)
  {
    ScaleBetween(LowestRate, bs[j].rate, HighestRate, SliceOf(bs, t, j), SliceTax(bs, t, j));
  }

  /** Summed over the first `k` brackets, the tax lies between the lowest and
      the highest rate times the income those brackets cover. */
  lemma {:induction false} PartialTaxBetweenRates(bs: seq<Bracket>, t: real, k: nat)
    requires WellFormed(bs) && k <= |bs|
    requires forall j :: 0 <= j < |bs| ==> LowestRate <= bs[j].rate <= HighestRate
    ensures LowestRate * CoveredIncome(bs, t, k) <= PartialTax(bs, t, k) <= HighestRate * CoveredIncome(bs, t, k)
  {
    if k > 0 {
      PartialTaxBetweenRates(bs, t, k - 1);
      SliceTaxBetweenRates(bs, t, k - 1);
    }
  }

  lemma ScaleBetween(lo: real, r: real, hi: real, s: real, x: real)
    requires lo <= r <= hi && s >= 0.0 && x == s * r
    ensures lo * s <= x && x <= hi * s
  {
    ScaleLeq(lo, r, s);
    ScaleLeq(r, hi, s);
  }

  lemma ScaleLeq(a: real, b: real, s: real)
    requires a <= b && s >= 0.0
    ensures a * s <= b * s && s * a <= s * b
  {
    assert b * s - a * s == (b - a) * s;
  }

  /** For any well-formed table whose rates lie between the lowest and the
      highest rate, `LowestRate * t <= tax <= HighestRate * t`. */
  lemma MarginalTaxBounds(bs: seq<Bracket>, t: real)
    requires WellFormed(bs) && t >= 0.0
    requires forall j :: 0 <= j < |bs| ==> LowestRate <= bs[j].rate <= HighestRate
    ensures LowestRate * t <= MarginalTax(bs, t) <= HighestRate * t
  {
    PartialTaxBetweenRates(bs, t, |bs|);
    FullyCovered(bs, t);
  }

  /** The table's bounds: `0.10 * t <= tax <= 0.37 * t`, and no tax on nothing. */
  lemma IncomeTaxBounds(t: real)
    requires t >= 0.0
    ensures LowestRate * t <= IncomeTax(t) <= HighestRate * t
    ensures t == 0.0 ==> IncomeTax(t) == 0.0
  {
    BracketsWellFormed();
    MarginalTaxBounds(Brackets, t);
  }

  lemma {:induction false} PartialTaxMonotone(bs: seq<Bracket>, t1: real, t2: real, k: nat)
    requires WellFormed(bs) && k <= |bs| && t1 <= t2
    ensures PartialTax(bs, t1, k) <= PartialTax(bs, t2, k)
  {
    if k > 0 {
      PartialTaxMonotone(bs, t1, t2, k - 1);
      SliceTaxMonotone(bs, t1, t2, k - 1);
    }
  }

  /** More taxable income never means less tax. */
  lemma IncomeTaxMonotone(t1: real, t2: real)
    requires t1 <= t2
    ensures IncomeTax(t1) <= IncomeTax(t2)
  {
    BracketsWellFormed();
    PartialTaxMonotone(Brackets, t1, t2, |Brackets|);
  }

  /** Tax rises with income and falls with deductions. */
  lemma TaxMonotoneInIncomeAndDeductions(income1: real, income2: real, deductions1: real, deductions2: real)
    requires income1 <= income2 && deductions2 <= deductions1
    ensures IncomeTax(TaxableIncome(income1, deductions1)) <= IncomeTax(TaxableIncome(income2, deductions2))
  {
    IncomeTaxMonotone(TaxableIncome(income1, deductions1), TaxableIncome(income2, deductions2));
  }

  /** Deductions at or above income leave nothing to tax. */
  lemma NoTaxWithoutTaxableIncome(income: real, deductions: real)
    requires deductions >= income
    ensures IncomeTax(TaxableIncome(income, deductions)) == 0.0
  {
    IncomeTaxBounds(0.0);
  }

  /** 10000 falls in the second bracket: 987.5 + 125 * 0.12. */
  lemma IncomeTaxOf10000()
    ensures IncomeTax(10000.0) == 1002.5
  {
    BracketsWellFormed();
    NothingAboveIncome(Brackets, 10000.0, 2);
  }

  /** 50000 falls in the third bracket: 987.5 + 3630 + 2172.5. */
  lemma IncomeTaxOf50000()
    ensures IncomeTax(50000.0) == 6790.0
  {
    BracketsWellFormed();
    NothingAboveIncome(Brackets, 50000.0, 3);
  }

  /** The bracket loop of `calculate_income_tax`, early `break` included,
      over any well-formed table. */
  method TaxByBrackets(brackets: seq<Bracket>, taxableIncome: real) returns (tax: real)
    requires WellFormed(brackets)
    ensures tax == MarginalTax(brackets, taxableIncome)
  {
    tax := 0.0;
    var previousLimit: Limit := Upto(0.0);
    var i := 0;
    while i < |brackets|
      invariant 0 <= i <= |brackets|
      invariant previousLimit == Floor(brackets, i)
      invariant tax == PartialTax(brackets, taxableIncome, i)
    {
      var limit, rate := brackets[i].limit, brackets[i].rate;
      FloorFinite(brackets, i);
      if Exceeds(taxableIncome, previousLimit) {
        var taxableAmount := Cap(taxableIncome, limit) - previousLimit.bound;
        assert taxableAmount == SliceOf(brackets, taxableIncome, i);
        tax := tax + taxableAmount * rate;
        previousLimit := limit;
      } else {
        break;
      }
      i := i + 1;
    }
    NothingAboveIncome(brackets, taxableIncome, i);
  }

  /** `calculate_income_tax`: clamp the income, then walk the fixed table. */
  method CalculateIncomeTax(income: real, deductions: real) returns (tax: real)
    ensures tax == IncomeTax(TaxableIncome(income, deductions))
  {
    BracketsWellFormed();
    var taxableIncome := TaxableIncome(income, deductions);
    tax := TaxByBrackets(Brackets, taxableIncome);
  }

  /** The result record of `calculate_tax`. */
  datatype TaxCalculationResult = TaxCalculationResult(taxableIncome: real, taxDue: real)

  /** `calculate_tax`: the clamped taxable income and the calculator's tax. */
  method CalculateTax(income: real, deductions: real) returns (r: TaxCalculationResult)
    ensures r.taxableIncome >= 0.0
    ensures r.taxableIncome == if income > deductions then income - deductions else 0.0
    ensures r.taxDue == IncomeTax(r.taxableIncome)
    ensures LowestRate * r.taxableIncome <= r.taxDue <= HighestRate * r.taxableIncome
  {
    var taxDue := CalculateIncomeTax(income, deductions);
    r := TaxCalculationResult(TaxableIncome(income, deductions), taxDue);
    IncomeTaxBounds(r.taxableIncome);
  }

  /** The example request: income 60000, deductions 10000. */
  method CalculateTaxExample() returns (r: TaxCalculationResult)
    ensures r.taxableIncome == 50000.0
    ensures r.taxDue == 6790.0 && r.taxDue > 0.0
  {
    r := CalculateTax(60000.0, 10000.0);
    IncomeTaxOf50000();
  }

  /** The filing request of `file_tax_return`. */
  datatype TaxFiling = TaxFiling(userId: int, filingYear: int, income: real, deductions: real)

  /** The result record of `file_tax_return`. */
  datatype TaxFilingResult = TaxFilingResult(filingId: int, status: string, filedAt: string)

  const SimulatedFilingId: int := 12345

  /** `file_tax_return`: a placeholder that files nothing; `filedAt` is the
      clock reading it stamps on the result. */
  function FileTaxReturn(filing: TaxFiling, filedAt: string): (r: TaxFilingResult)
    ensures r.filingId == 12345 && r.status == "Filed"
    ensures r.filedAt == filedAt
  {
    TaxFilingResult(SimulatedFilingId, "Filed", filedAt)
  }

  /** The filing itself does not influence the result. */
  lemma FileTaxReturnIgnoresFiling(a: TaxFiling, b: TaxFiling, filedAt: string)
    ensures FileTaxReturn(a, filedAt) == FileTaxReturn(b, filedAt)
  {
  }
}
