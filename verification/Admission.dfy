/** Admission of the two disruption budgets, and the value the planner reads from them. */
module Admission {
  import opened Decimal
  import opened Model

  datatype FieldError = FieldError(path: string, message: string)

  /** The pattern of IsValidPercent: one or more digits, then a percent sign. */
  predicate IsValidPercent(s: string) {
    |s| >= 2 && s[|s| - 1] == '%' && AllDigits(s[..|s| - 1])
  }

  function PercentValue(v: IntOrString): Option<int> {
    if v.kind != StringKind || !IsValidPercent(v.strVal) then None
    else Some(ValueOrZero(v.strVal[..|v.strVal| - 1]))
  }

  method ValidatePositiveIntOrPercent(v: IntOrString, path: string) returns (errs: seq<FieldError>)
    ensures errs == [] <==> (v.kind.IntKind? && v.intVal >= 0) || (v.kind.StringKind? && IsValidPercent(v.strVal))
    ensures forall e :: e in errs ==> e.path == path
  {
    errs := [];
    match v.kind
    case StringKind =>
      if !IsValidPercent(v.strVal) {
        errs := errs + [FieldError(path, "a valid percent string must be a number followed by %")];
      }
    case IntKind =>
      if v.intVal < 0 {
        errs := errs + [FieldError(path, "must be greater than or equal to 0")];
      }
    case OtherKind =>
      errs := errs + [FieldError(path, "must be an integer or percentage")];
  }

  method IsNotMoreThan100Percent(v: IntOrString, path: string) returns (errs: seq<FieldError>)
    ensures errs == [] <==> PercentValue(v).None? || PercentValue(v).value <= 100
    ensures forall e :: e in errs ==> e.path == path
  {
    errs := [];
    if PercentValue(v).Some? && PercentValue(v).value > 100 {
      errs := errs + [FieldError(path, "must not be greater than 100%")];
    }
  }

  method IsNotZero(v: IntOrString, path: string) returns (errs: seq<FieldError>)
    ensures errs == [] <==> if PercentValue(v).None? then v.intVal != 0 else PercentValue(v).value != 0
    ensures forall e :: e in errs ==> e.path == path
  {
    errs := [];
    var percent := PercentValue(v);
    if (percent.None? && v.intVal == 0) || (percent.Some? && percent.value == 0) {
      errs := errs + [FieldError(path, "must not be zero")];
    }
  }

  /** Integers from one up, and one to a hundred percent. */
  predicate Accepted(v: IntOrString) {
    match v.kind
    case IntKind => v.intVal >= 1
    case StringKind => IsValidPercent(v.strVal) && 1 <= DigitsValue(v.strVal[..|v.strVal| - 1]) <= 100
    case OtherKind => false
  }

  lemma PercentOfDigits(s: string)
    requires IsValidPercent(s)
    ensures var d := DigitsValue(s[..|s| - 1]);
            ValueOrZero(s[..|s| - 1]) == (if d <= MAX_INT64 then d else MAX_INT64)
    ensures Parse(s[..|s| - 1]) == (if DigitsValue(s[..|s| - 1]) <= MAX_INT64
                                    then Number(DigitsValue(s[..|s| - 1])) else OutOfRange(MAX_INT64))
  {
    assert IsDigit(s[..|s| - 1][0]);
  }

  /** The validator reports nothing exactly on the accepted values. */
  method ValidateIntOrPercent(v: IntOrString, path: string) returns (errs: seq<FieldError>)
    ensures errs == [] <==> Accepted(v)
    ensures forall e :: e in errs ==> e.path == path
  {
    errs := ValidatePositiveIntOrPercent(v, path);
    var more := IsNotMoreThan100Percent(v, path);
    errs := errs + more;
    more := IsNotZero(v, path);
    errs := errs + more;
    if v.kind.StringKind? && IsValidPercent(v.strVal) {
      PercentOfDigits(v.strVal);
    }
  }

  /** Leading zeros at most, a number and a percent sign. */
  predicate Writes(s: string, zeros: nat, d: nat) {
    s == PercentString(zeros, d)
  }

  lemma PercentIsWritten(s: string) returns (zeros: nat)
    requires IsValidPercent(s)
    ensures Writes(s, zeros, DigitsValue(s[..|s| - 1]))
  {
    zeros := DigitsArePadded(s[..|s| - 1]);
    assert s == s[..|s| - 1] + "%";
  }

  lemma WrittenIsPercent(s: string, zeros: nat, d: nat)
    requires Writes(s, zeros, d)
    ensures IsValidPercent(s) && DigitsValue(s[..|s| - 1]) == d
  {
    PercentStringIsValid(zeros, d);
  }

  /** The accepted values written out: integers from one up, and numbers from one to a hundred before a
      percent sign. */
  lemma AcceptedMeans(v: IntOrString)
    ensures v.kind == IntKind ==> (Accepted(v) <==> v.intVal >= 1)
    ensures v.kind == StringKind ==> (Accepted(v) <==> exists zeros, d :: Writes(v.strVal, zeros, d) && 1 <= d <= 100)
    ensures v.kind == OtherKind ==> !Accepted(v)
  {
    if v.kind.StringKind? && IsValidPercent(v.strVal) {
      var zeros := PercentIsWritten(v.strVal);
    }
    forall zeros, d | Writes(v.strVal, zeros, d)
      ensures IsValidPercent(v.strVal) && DigitsValue(v.strVal[..|v.strVal| - 1]) == d
    {
      WrittenIsPercent(v.strVal, zeros, d);
    }
  }

  function PercentString(zeros: nat, d: nat): string {
    Zeros(zeros) + Print(d) + "%"
  }

  lemma PercentStringIsValid(zeros: nat, d: nat)
    ensures var s := PercentString(zeros, d); IsValidPercent(s) && DigitsValue(s[..|s| - 1]) == d
  {
    var s := PercentString(zeros, d);
    assert s[..|s| - 1] == Zeros(zeros) + Print(d);
    ZerosAddNothing(zeros, Print(d));
    DigitsOfPrint(d);
  }

  predicate AcceptedStrategy(spec: TAppSpec) {
    (spec.maxUnavailable.None? || Accepted(spec.maxUnavailable.value))
    && (spec.forceMaxUnavailable.None? || Accepted(spec.forceMaxUnavailable.value))
  }

  method ValidateUpdateStrategy(spec: TAppSpec) returns (errs: seq<FieldError>)
    ensures errs == [] <==> AcceptedStrategy(spec)
  {
    errs := [];
    if spec.maxUnavailable.Some? {
      var more := ValidateIntOrPercent(spec.maxUnavailable.value, "spec.updateStrategy.maxUnavailable");
      errs := errs + more;
    }
    if spec.forceMaxUnavailable.Some? {
      var more := ValidateIntOrPercent(spec.forceMaxUnavailable.value,
                                       "spec.updateStrategy.forceUpdate.maxUnavailable");
      errs := errs + more;
    }
  }

  // ---------------------------------------------------------------- the budgets

  /** The division rounds down, so this rounds up, for a negative percentage too. */
  function CeilPercent(percent: int, total: nat): int {
    (percent * total + 99) / 100
  }

  function WithoutPercentSigns(s: string): string {
    if s == [] then []
    else WithoutPercentSigns(s[..|s| - 1]) + if s[|s| - 1] == '%' then [] else [s[|s| - 1]]
  }

  lemma {:induction false} NothingToStrip(s: string)
    requires AllDigits(s)
    ensures WithoutPercentSigns(s) == s
  {
    if s != [] {
      assert IsDigit(s[|s| - 1]);
      NothingToStrip(s[..|s| - 1]);
    }
  }

  /** GetValueFromIntOrPercent, rounding up, as the library of that version has it: an integer is itself;
      a string is a share of the total once its percent signs are dropped, so that "50" reads as 50%;
      anything else is an error. */
  function ScaledValue(v: IntOrString, total: nat): Option<int> {
    match v.kind
    case IntKind => Some(v.intVal)
    case StringKind =>
      var parsed := Parse(WithoutPercentSigns(v.strVal));
      if parsed.Number? then Some(CeilPercent(parsed.value, total)) else None
    case OtherKind => None
  }

  const FORCE_DEFAULT := IntOrString(StringKind, 0, "100%")
  const ROLLING_DEFAULT := 1

  function ForceBudget(spec: TAppSpec, total: nat): Option<int> {
    ScaledValue(if spec.forceMaxUnavailable.Some? then spec.forceMaxUnavailable.value else FORCE_DEFAULT, total)
  }

  function RollingBudget(spec: TAppSpec, total: nat): Option<int> {
    if spec.maxUnavailable.Some? then ScaledValue(spec.maxUnavailable.value, total) else Some(ROLLING_DEFAULT)
  }

  /** What the budgets are: an integer as it stands, d% of the desired set rounded up, and without a value
      all of the set for force updates and one pod for rolling updates. */
  lemma BudgetsMean(spec: TAppSpec, n: nat, k: int32, d: nat, percent: string)
    requires IsValidPercent(percent) && d == DigitsValue(percent[..|percent| - 1]) && d <= MAX_INT64
    ensures spec.forceMaxUnavailable == None ==> ForceBudget(spec, n) == Some(n)
    ensures spec.maxUnavailable == None ==> RollingBudget(spec, n) == Some(1)
    ensures forall s :: spec.forceMaxUnavailable == Some(IntOrString(IntKind, k, s)) ==> ForceBudget(spec, n) == Some(k)
    ensures forall s :: spec.maxUnavailable == Some(IntOrString(IntKind, k, s)) ==> RollingBudget(spec, n) == Some(k)
    ensures forall i :: spec.forceMaxUnavailable == Some(IntOrString(StringKind, i, percent)) ==>
              ForceBudget(spec, n).Some? && IsShare(ForceBudget(spec, n).value, d, n)
    ensures forall i :: spec.maxUnavailable == Some(IntOrString(StringKind, i, percent)) ==>
              RollingBudget(spec, n).Some? && IsShare(RollingBudget(spec, n).value, d, n)
  {
    HundredPercent();
    ScaledPercent(FORCE_DEFAULT, n);
    ScaledPercent(IntOrString(StringKind, 0, percent), n);
    assert forall i :: ScaledValue(IntOrString(StringKind, i, percent), n)
                    == ScaledValue(IntOrString(StringKind, 0, percent), n);
    assert IsShare(CeilPercent(d, n), d, n);
  }

  /** The least share that is not below d percent of n. */
  predicate IsShare(share: int, d: nat, n: nat) {
    100 * (share - 1) < d * n <= 100 * share
  }

  lemma HundredPercent()
    ensures IsValidPercent(FORCE_DEFAULT.strVal)
    ensures DigitsValue(FORCE_DEFAULT.strVal[..|FORCE_DEFAULT.strVal| - 1]) == 100
  {
    var s := FORCE_DEFAULT.strVal;
    assert s[..3] == "100";
    assert "100"[..2] == "10" && "10"[..1] == "1" && "1"[..0] == "";
  }

  lemma CeilPercentBounds(percent: nat, total: nat)
    requires 1 <= percent <= 100 && total >= 1
    ensures 1 <= CeilPercent(percent, total) <= total
  {
    assert percent * total >= total >= 1;
    assert percent * total <= 100 * total;
  }

  lemma StripsToDigits(s: string)
    requires IsValidPercent(s)
    ensures WithoutPercentSigns(s) == s[..|s| - 1]
  {
    NothingToStrip(s[..|s| - 1]);
  }

  lemma ScaledPercent(v: IntOrString, n: nat)
    requires v.kind.StringKind? && IsValidPercent(v.strVal)
    ensures var d := DigitsValue(v.strVal[..|v.strVal| - 1]);
            ScaledValue(v, n) == if d <= MAX_INT64 then Some(CeilPercent(d, n)) else None
  {
    StripsToDigits(v.strVal);
    PercentOfDigits(v.strVal);
  }

  /** A budget the planner can work with, whatever the size of the desired set. */
  ghost predicate Useful(v: IntOrString) {
    forall n: nat :: n >= 1 ==>
      ScaledValue(v, n).Some? && ScaledValue(v, n).value >= 1
      && (v.kind.StringKind? ==> ScaledValue(v, n).value <= n)
  }

  lemma UsefulPercent(v: IntOrString)
    requires v.kind.StringKind? && IsValidPercent(v.strVal)
    ensures Useful(v) <==> 1 <= DigitsValue(v.strVal[..|v.strVal| - 1]) <= 100
  {
    var d := DigitsValue(v.strVal[..|v.strVal| - 1]);
    ScaledPercent(v, 100);
    if 1 <= d <= 100 {
      forall n: nat | n >= 1 ensures ScaledValue(v, n).Some? && 1 <= ScaledValue(v, n).value <= n {
        ScaledPercent(v, n);
        CeilPercentBounds(d, n);
      }
    } else {
      assert ScaledValue(v, 100) == Some(d) || ScaledValue(v, 100) == None;
    }
  }

  /** Accepted values are exactly those whose budget is at least one for every non-empty desired
      set and, for a percentage, never more than the whole set; a string must also look like a
      percentage, because the reading of the budget is more lenient than the validator. */
  lemma AcceptedIffUsefulBudget(v: IntOrString)
    ensures Accepted(v) <==> Useful(v) && (v.kind.StringKind? ==> IsValidPercent(v.strVal))
  {
    if v.kind.StringKind? {
      if IsValidPercent(v.strVal) { UsefulPercent(v); }
    } else {
      assert v.kind.OtherKind? ==> ScaledValue(v, 1) == None;
      assert v.kind.IntKind? ==> ScaledValue(v, 1) == Some(v.intVal);
    }
  }

  /** The lenient reading: fifty without a percent sign is rejected, and would be read as 50%. */
  lemma RejectedButUseful(v: IntOrString)
    requires v.kind == StringKind && v.strVal == "50"
    ensures !Accepted(v) && Useful(v)
  {
    NothingToStrip(v.strVal);
    assert Print(5) == "5" && Print(50) == "50";
    ParsePrint(50);
    forall n: nat | n >= 1 ensures ScaledValue(v, n) == Some(CeilPercent(50, n)) && 1 <= CeilPercent(50, n) <= n {
      CeilPercentBounds(50, n);
    }
  }

  /** Every admitted strategy, defaults included, leaves both phases room for at least one pod. */
  lemma AdmittedBudgetsArePositive(spec: TAppSpec, n: nat)
    requires AcceptedStrategy(spec) && n >= 1
    ensures ForceBudget(spec, n).Some? && ForceBudget(spec, n).value >= 1
    ensures RollingBudget(spec, n).Some? && RollingBudget(spec, n).value >= 1
  {
    HundredPercent();
    AcceptedIffUsefulBudget(FORCE_DEFAULT);
    if spec.maxUnavailable.Some? { AcceptedIffUsefulBudget(spec.maxUnavailable.value); }
    if spec.forceMaxUnavailable.Some? { AcceptedIffUsefulBudget(spec.forceMaxUnavailable.value); }
  }
}
