/**
  The cost engine of the AI Rudder cost calculator: retained agents, the
  admin-hours value, the frequency-dispatched ledger of cost items, the
  monthly cost comparison of the client's current set-up against the AI
  solution, the payroll saved, the 24-month cumulative timeline with its
  break-even month, and the dashboard metrics.

  Money is an exact `real`. The engine reads most numeric inputs through
  JavaScript's `x || 0`, which turns `null`, `undefined`, `NaN`, `0` and the
  empty string into 0; such an input is an `Input`, and `OrZero` is that
  coercion.
 */
module Calculator {
  import opened Wrappers
  import Text

  // ---------------------------------------------------------------------------
  // Numeric inputs

  /** A numeric input as the caller hands it over: missing/invalid, or a number. */
  datatype Input = Missing | Num(value: real)

  /** The `x || 0` coercion: a missing or invalid input reads as 0. */
  function OrZero(x: Input): (r: real)
    ensures x.Missing? ==> r == 0.0
    ensures x.Num? ==> r == x.value
  {
    match x
    case Missing => 0.0
    case Num(v) => v
  }

  predicate IsWhole(x: real) {
    x.Floor as real == x
  }

  /** `Math.ceil`, written with the floor. */
  function Ceil(x: real): int {
    -((-x).Floor)
  }

  /** The ceiling is the least integer not below `x`. */
  lemma CeilBounds(x: real)
    ensures x <= Ceil(x) as real < x + 1.0
  {
  }

  lemma CeilIsLeast(x: real, n: int)
    requires x <= n as real
    ensures Ceil(x) <= n
  {
  }

  lemma CeilMonotone(x: real, y: real)
    requires x <= y
    ensures Ceil(x) <= Ceil(y)
  {
    CeilBounds(y);
    CeilIsLeast(x, Ceil(y));
  }

  lemma CeilShift(n: int, x: real)
    ensures Ceil(n as real + x) == n + Ceil(x)
  {
    CeilBounds(x);
    CeilBounds(n as real + x);
    CeilIsLeast(n as real + x, n + Ceil(x));
    CeilIsLeast(x, Ceil(n as real + x) - n);
  }

  // ---------------------------------------------------------------------------
  // calculateRetainedAgents, calculateAdminValue, calculatePayrollSaved

  /**
    The agents still needed once a `deflectionRate` share of the work is
    automated, rounded up so that the savings are never overstated.
   */
  function RetainedAgents(totalAgents: Input, deflectionRate: Input): (r: int)
    ensures var x := OrZero(totalAgents) * (1.0 - OrZero(deflectionRate)); x <= r as real < x + 1.0
  {
    var total := OrZero(totalAgents);
    var rate := OrZero(deflectionRate);
    CeilBounds(total * (1.0 - rate));
    Ceil(total * (1.0 - rate))
  }

  /**
    The retained agents are the least whole number of agents that covers the
    remaining workload `totalAgents * (1 - deflectionRate)`, missing inputs read as 0.
   */
  lemma RetainedAgentsIsCeiling(totalAgents: Input, deflectionRate: Input, n: int)
    ensures var x := OrZero(totalAgents) * (1.0 - OrZero(deflectionRate));
            && x <= RetainedAgents(totalAgents, deflectionRate) as real < x + 1.0
            && (x <= n as real ==> RetainedAgents(totalAgents, deflectionRate) <= n)
  {
    var x := OrZero(totalAgents) * (1.0 - OrZero(deflectionRate));
    assert RetainedAgents(totalAgents, deflectionRate) == Ceil(x);
    CeilBounds(x);
    if x <= n as real {
      CeilIsLeast(x, n);
    }
  }

  /** With no deflection, a whole head count is kept as it is. */
  lemma RetainedAgentsNoDeflection(totalAgents: Input, deflectionRate: Input)
    requires IsWhole(OrZero(totalAgents))
    requires OrZero(deflectionRate) == 0.0
    ensures RetainedAgents(totalAgents, deflectionRate) as real == OrZero(totalAgents)
  {
    var t := OrZero(totalAgents);
    assert RetainedAgents(totalAgents, deflectionRate) == Ceil(t * (1.0 - 0.0));
    CeilBounds(t);
    CeilIsLeast(t, t.Floor);
  }

  lemma MulNonNegative(a: real, b: real)
    requires a >= 0.0 && b >= 0.0
    ensures a * b >= 0.0
  {
  }

  lemma ScaleMonotone(t: real, x: real, y: real)
    requires t >= 0.0 && x <= y
    ensures t * x <= t * y
  {
  }

  /** For a whole, non-negative head count and a rate in [0, 1], the result lies in [0, totalAgents]. */
  lemma RetainedAgentsBounds(totalAgents: Input, deflectionRate: Input)
    requires IsWhole(OrZero(totalAgents)) && OrZero(totalAgents) >= 0.0
    requires 0.0 <= OrZero(deflectionRate) <= 1.0
    ensures 0 <= RetainedAgents(totalAgents, deflectionRate)
    ensures RetainedAgents(totalAgents, deflectionRate) as real <= OrZero(totalAgents)
  {
    var t, d := OrZero(totalAgents), OrZero(deflectionRate);
    var x := t * (1.0 - d);
    MulNonNegative(t, 1.0 - d);
    ScaleMonotone(t, 1.0 - d, 1.0);
    CeilBounds(x);
    CeilIsLeast(x, t.Floor);
    assert RetainedAgents(totalAgents, deflectionRate) == Ceil(x);
  }

  /** A higher deflection rate never needs more agents. */
  lemma RetainedAgentsAntitone(totalAgents: Input, rate1: real, rate2: real)
    requires OrZero(totalAgents) >= 0.0
    requires rate1 <= rate2
    ensures RetainedAgents(totalAgents, Num(rate2)) <= RetainedAgents(totalAgents, Num(rate1))
  {
    var t := OrZero(totalAgents);
    ScaleMonotone(t, 1.0 - rate2, 1.0 - rate1);
    CeilMonotone(t * (1.0 - rate2), t * (1.0 - rate1));
  }

  lemma CeilOfWholeMinus(n: int, y: real)
    ensures (n as real - Ceil(n as real - y) as real) == y.Floor as real
  {
    assert n as real - y == n as real + -y;
    CeilShift(n, -y);
  }

  lemma ScaleComplement(t: real, d: real)
    ensures t * (1.0 - d) == t - t * d
  {
  }

  lemma WholeMinusCeil(t: real, d: real)
    requires IsWhole(t)
    ensures t - Ceil(t * (1.0 - d)) as real == (t * d).Floor as real
  {
    var n, y := t.Floor, t * d;
    ScaleComplement(t, d);
    assert t * (1.0 - d) == n as real - y;
    CeilOfWholeMinus(n, y);
  }

  /** The agents replaced by automation are the whole-agent floor of `totalAgents * deflectionRate`. */
  lemma AgentsReplacedIsFloor(totalAgents: real, deflectionRate: real)
    requires IsWhole(totalAgents)
    ensures totalAgents - RetainedAgents(Num(totalAgents), Num(deflectionRate)) as real
            == (totalAgents * deflectionRate).Floor as real
  {
    assert RetainedAgents(Num(totalAgents), Num(deflectionRate)) == Ceil(totalAgents * (1.0 - deflectionRate));
    WholeMinusCeil(totalAgents, deflectionRate);
  }

  /** The retained-agent values tests/calculator.test.js expects. */
  lemma RetainedAgentsExamples()
    ensures RetainedAgents(Num(100.0), Num(0.2)) == 80
    ensures RetainedAgents(Num(100.0), Num(0.5)) == 50
    ensures RetainedAgents(Num(100.0), Num(0.0)) == 100
    ensures RetainedAgents(Num(0.0), Num(0.2)) == 0
    ensures RetainedAgents(Num(100.0), Num(0.25)) == 75
    ensures RetainedAgents(Num(99.0), Num(0.2)) == 80
    ensures RetainedAgents(Num(95.0), Num(0.3)) == 67
    ensures RetainedAgents(Missing, Num(0.2)) == 0
    ensures RetainedAgents(Missing, Missing) == 0
    ensures RetainedAgents(Num(100.0), Missing) == 100
  {
  }

  /** The monthly value of the admin hours freed by automation. */
  function AdminValue(hoursPerMonth: Input, hourlyRate: Input): (v: real)
    ensures OrZero(hoursPerMonth) == 0.0 || OrZero(hourlyRate) == 0.0 ==> v == 0.0
  {
    var hours := OrZero(hoursPerMonth);
    var rate := OrZero(hourlyRate);
    hours * rate
  }

  /** Non-negative hours at a non-negative rate are worth a non-negative amount. */
  lemma AdminValueNonNegative(hoursPerMonth: Input, hourlyRate: Input)
    requires OrZero(hoursPerMonth) >= 0.0 && OrZero(hourlyRate) >= 0.0
    ensures AdminValue(hoursPerMonth, hourlyRate) >= 0.0
  {
    MulNonNegative(OrZero(hoursPerMonth), OrZero(hourlyRate));
  }

  /** The admin value is linear in the hours: splitting the hours splits the value. */
  lemma AdminValueAdditive(h1: real, h2: real, hourlyRate: Input)
    ensures AdminValue(Num(h1 + h2), hourlyRate)
            == AdminValue(Num(h1), hourlyRate) + AdminValue(Num(h2), hourlyRate)
  {
    var r := OrZero(hourlyRate);
    assert (h1 + h2) * r == h1 * r + h2 * r;
  }

  lemma AdminValueExamples()
    ensures AdminValue(Num(160.0), Num(150.0)) == 24000.0
    ensures AdminValue(Num(100.0), Num(200.0)) == 20000.0
    ensures AdminValue(Missing, Num(150.0)) == 0.0
    ensures AdminValue(Num(160.0), Missing) == 0.0
  {
  }

  /**
    The monthly payroll freed by the replaced agents, each costing a salary and
    optionally a legacy licence; a missing licence cost is 0.
   */
  function PayrollSaved(agentsReplaced: Input, monthlySalary: Input, legacyLicenseCost: Input): (p: real)
    ensures OrZero(agentsReplaced) == 0.0 ==> p == 0.0
  {
    var agents := OrZero(agentsReplaced);
    var salary := OrZero(monthlySalary);
    var license := OrZero(legacyLicenseCost);
    agents * (salary + license)
  }

  /** Replacing a non-negative number of agents at non-negative costs saves a non-negative amount. */
  lemma PayrollSavedNonNegative(agentsReplaced: Input, monthlySalary: Input, legacyLicenseCost: Input)
    requires OrZero(agentsReplaced) >= 0.0 && OrZero(monthlySalary) >= 0.0 && OrZero(legacyLicenseCost) >= 0.0
    ensures PayrollSaved(agentsReplaced, monthlySalary, legacyLicenseCost) >= 0.0
  {
    MulNonNegative(OrZero(agentsReplaced), OrZero(monthlySalary) + OrZero(legacyLicenseCost));
  }

  lemma DistributeSum(a: real, s: real, l: real)
    ensures a * (s + l) == a * s + a * l
  {
  }

  /** Leaving out the licence cost means a licence cost of 0; a licence cost adds `agents * license`. */
  lemma PayrollSavedLicense(agentsReplaced: Input, monthlySalary: Input, license: real)
    ensures PayrollSaved(agentsReplaced, monthlySalary, Missing) == PayrollSaved(agentsReplaced, monthlySalary, Num(0.0))
    ensures PayrollSaved(agentsReplaced, monthlySalary, Num(license))
            == PayrollSaved(agentsReplaced, monthlySalary, Missing) + OrZero(agentsReplaced) * license
  {
    var a, s := OrZero(agentsReplaced), OrZero(monthlySalary);
    assert PayrollSaved(agentsReplaced, monthlySalary, Num(license)) == a * (s + license);
    assert PayrollSaved(agentsReplaced, monthlySalary, Missing) == a * (s + 0.0);
    DistributeSum(a, s, license);
  }

  lemma PayrollSavedExamples()
    ensures PayrollSaved(Num(20.0), Num(25000.0), Missing) == 500000.0
    ensures PayrollSaved(Num(50.0), Num(30000.0), Missing) == 1500000.0
    ensures PayrollSaved(Num(20.0), Num(25000.0), Num(2000.0)) == 540000.0
    ensures PayrollSaved(Num(20.0), Missing, Missing) == 0.0
    ensures PayrollSaved(Missing, Num(25000.0), Missing) == 0.0
  {
  }

  // ---------------------------------------------------------------------------
  // calculateLedgerTotals

  /**
    One cost line. `amount` is the result of `parseFloat(item.amount) || 0`
    before the coercion; `frequency` is the raw text ("" when absent);
    `isAISide` is the side tag (absent reads as false).
   */
  datatype CostItem = CostItem(name: string, amount: Input, frequency: string, isAISide: bool)

  /**
    The parameters the engine reads: the ledger uses the first five; the
    monthly cost comparison also reads `adminHours` and `hourlyRate`.
    `monthlySalary` is carried by callers and read by nothing here.
   */
  datatype GlobalParams = GlobalParams(
    volume: Input, humanTime: Input, aiTime: Input,
    totalAgents: Input, deflectionRate: Input,
    monthlySalary: Input, adminHours: Input, hourlyRate: Input)

  /** An absent parameter object (`globalParams = {}`): every field is missing. */
  const NoParams := GlobalParams(Missing, Missing, Missing, Missing, Missing, Missing, Missing, Missing)

  datatype Totals = Totals(capex: real, monthlyOpex: real) {
    function Plus(other: Totals): Totals {
      Totals(capex + other.capex, monthlyOpex + other.monthlyOpex)
    }
  }

  const Zero := Totals(0.0, 0.0)

  datatype Frequency = OneTime | Monthly | Yearly | PerMinute | PerSession | PerAgent | Unrecognised

  /** The case labels of the `switch`, all in lower case. */
  const KnownFrequencies: set<string> := {"one-time", "monthly", "yearly", "per minute", "per session", "per agent"}

  /** The `switch` on the lower-cased frequency text: the default case takes every other text. */
  function ParseFrequency(frequency: string): (r: Frequency)
    ensures r == Unrecognised <==> Text.Lower(frequency) !in KnownFrequencies
  {
    var key := Text.Lower(frequency);
    if key == "one-time" then OneTime
    else if key == "monthly" then Monthly
    else if key == "yearly" then Yearly
    else if key == "per minute" then PerMinute
    else if key == "per session" then PerSession
    else if key == "per agent" then PerAgent
    else Unrecognised
  }

  /** Each frequency is recognised exactly when the lower-cased text is its name. */
  lemma ParseFrequencyNames(frequency: string)
    ensures ParseFrequency(frequency) == OneTime <==> Text.Lower(frequency) == "one-time"
    ensures ParseFrequency(frequency) == Monthly <==> Text.Lower(frequency) == "monthly"
    ensures ParseFrequency(frequency) == Yearly <==> Text.Lower(frequency) == "yearly"
    ensures ParseFrequency(frequency) == PerMinute <==> Text.Lower(frequency) == "per minute"
    ensures ParseFrequency(frequency) == PerSession <==> Text.Lower(frequency) == "per session"
    ensures ParseFrequency(frequency) == PerAgent <==> Text.Lower(frequency) == "per agent"
  {
  }

  /** Frequency matching ignores letter case. */
  lemma FrequencyCaseInsensitive(frequency: string)
    ensures ParseFrequency(frequency) == ParseFrequency(Text.Lower(frequency))
  {
    Text.LowerIdempotent(frequency);
  }

  /** What one item adds to the totals, given the retained-agent count for per-agent items. */
  function Contribution(item: CostItem, p: GlobalParams, retained: int): (c: Totals)
    ensures c.capex != 0.0 ==> ParseFrequency(item.frequency) == OneTime
    ensures ParseFrequency(item.frequency) == OneTime ==> c.monthlyOpex == 0.0
  {
    var amount := OrZero(item.amount);
    match ParseFrequency(item.frequency)
    case OneTime => Totals(amount, 0.0)
    case Monthly => Totals(0.0, amount)
    case Yearly => Totals(0.0, amount / 12.0)
    case PerMinute =>
      var handleTime := if item.isAISide then p.aiTime else p.humanTime;
      Totals(0.0, amount * OrZero(p.volume) * OrZero(handleTime))
    case PerSession => Totals(0.0, amount * OrZero(p.volume))
    case PerAgent => Totals(0.0, amount * retained as real)
    case Unrecognised => Totals(0.0, amount)
  }

  /** The retained-agent count the ledger multiplies per-agent items by. */
  function LedgerRetained(p: GlobalParams): int {
    RetainedAgents(p.totalAgents, p.deflectionRate)
  }

  /** Totals of a list of items, adding `f` of each item from the first item to the last. */
  function SumBy(items: seq<CostItem>, f: CostItem -> Totals): Totals
  {
    if items == [] then Zero
    else SumBy(items[..|items| - 1], f).Plus(f(items[|items| - 1]))
  }

  /** Summing is additive over concatenation. */
  lemma {:induction false} SumByAppend(a: seq<CostItem>, b: seq<CostItem>, f: CostItem -> Totals)
    ensures SumBy(a + b, f) == SumBy(a, f).Plus(SumBy(b, f))
    decreases |b|
  {
    if b == [] {
      assert a + b == a;
    } else {
      var b' := b[..|b| - 1];
      var x := b[|b| - 1];
      assert (a + b)[..|a + b| - 1] == a + b';
      assert (a + b)[|a + b| - 1] == x;
      SumByAppend(a, b', f);
      calc {
        SumBy(a + b, f);
        SumBy(a + b', f).Plus(f(x));
        SumBy(a, f).Plus(SumBy(b', f)).Plus(f(x));
        SumBy(a, f).Plus(SumBy(b', f).Plus(f(x)));
        SumBy(a, f).Plus(SumBy(b, f));
      }
    }
  }

  lemma PlusSwap(a: Totals, b: Totals, c: Totals)
    ensures a.Plus(b).Plus(c) == a.Plus(c).Plus(b)
  {
  }

  /** Taking one item out of the middle takes its contribution out of the totals. */
  lemma SumByRemove(b: seq<CostItem>, j: int, f: CostItem -> Totals)
    requires 0 <= j < |b|
    ensures SumBy(b, f) == SumBy(b[..j] + b[j + 1..], f).Plus(f(b[j]))
  {
    var b1, x, b2 := b[..j], b[j], b[j + 1..];
    assert b == b1 + [x] + b2;
    SumBySplit(b1, x, b2, f);
  }

  lemma SumBySplit(b1: seq<CostItem>, x: CostItem, b2: seq<CostItem>, f: CostItem -> Totals)
    ensures SumBy(b1 + [x] + b2, f) == SumBy(b1 + b2, f).Plus(f(x))
  {
    var b1x := b1 + [x];
    assert b1x[..|b1x| - 1] == b1;
    assert SumBy(b1x, f) == SumBy(b1, f).Plus(f(x));
    SumByAppend(b1x, b2, f);
    SumByAppend(b1, b2, f);
    PlusSwap(SumBy(b1, f), f(x), SumBy(b2, f));
  }

  lemma MultisetRemove(a: seq<CostItem>, b: seq<CostItem>, j: int)
    requires |a| > 0 && 0 <= j < |b| && b[j] == a[|a| - 1]
    requires multiset(a) == multiset(b)
    ensures multiset(a[..|a| - 1]) == multiset(b[..j] + b[j + 1..])
  {
    var x, a', b1, b2 := b[j], a[..|a| - 1], b[..j], b[j + 1..];
    assert a == a' + [x];
    assert b == b1 + [x] + b2;
    calc {
      multiset(a') + multiset{x};
      multiset(a);
      multiset(b);
      multiset(b1 + [x] + b2);
      multiset(b1) + multiset{x} + multiset(b2);
      multiset(b1 + b2) + multiset{x};
    }
    assert multiset(a') == multiset(a') + multiset{x} - multiset{x};
    assert multiset(b1 + b2) == multiset(b1 + b2) + multiset{x} - multiset{x};
  }

  /** Summing does not depend on the order of the items. */
  lemma {:induction false} SumByPermutation(a: seq<CostItem>, b: seq<CostItem>, f: CostItem -> Totals)
    requires multiset(a) == multiset(b)
    ensures SumBy(a, f) == SumBy(b, f)
    decreases |a|
  {
    if a == [] {
      assert |b| == |multiset(b)| == 0;
    } else {
      var x := a[|a| - 1];
      assert x in multiset(b);
      var j :| 0 <= j < |b| && b[j] == x;
      MultisetRemove(a, b, j);
      SumByPermutation(a[..|a| - 1], b[..j] + b[j + 1..], f);
      SumByRemove(b, j, f);
    }
  }

  /** Two contribution functions that agree on every item give the same totals. */
  lemma {:induction false} SumByPointwise(items: seq<CostItem>, f: CostItem -> Totals, g: CostItem -> Totals)
    requires forall i :: 0 <= i < |items| ==> f(items[i]) == g(items[i])
    ensures SumBy(items, f) == SumBy(items, g)
  {
    if items != [] {
      SumByPointwise(items[..|items| - 1], f, g);
    }
  }

  /** A contribution function that never touches capex gives capex 0. */
  lemma {:induction false} SumByNoCapex(items: seq<CostItem>, f: CostItem -> Totals)
    requires forall i :: 0 <= i < |items| ==> f(items[i]).capex == 0.0
    ensures SumBy(items, f).capex == 0.0
  {
    if items != [] {
      SumByNoCapex(items[..|items| - 1], f);
    }
  }

  /** The ledger's contribution function under the parameters `p`. */
  function ContributionUnder(p: GlobalParams): CostItem -> Totals {
    item => Contribution(item, p, LedgerRetained(p))
  }

  /** The ledger totals of a list of items. */
  function LedgerSum(items: seq<CostItem>, p: GlobalParams): (r: Totals)
    ensures items == [] ==> r == Zero
  {
    SumBy(items, ContributionUnder(p))
  }

  function ItemsOrEmpty(items: Option<seq<CostItem>>): seq<CostItem> {
    match items
    case None => []
    case Some(xs) => xs
  }

  /** The body of the `forEach` callback: adds one item to the running totals. */
  method AddItem(capex: real, monthlyOpex: real, item: CostItem, p: GlobalParams, retainedAgents: int)
    returns (capex': real, monthlyOpex': real)
    ensures Totals(capex', monthlyOpex') == Totals(capex, monthlyOpex).Plus(Contribution(item, p, retainedAgents))
  {
    capex', monthlyOpex' := capex, monthlyOpex;
    var amount := OrZero(item.amount);
    match ParseFrequency(item.frequency) {
      case OneTime =>
        capex' := capex + amount;
      case Monthly =>
        monthlyOpex' := monthlyOpex + amount;
      case Yearly =>
        monthlyOpex' := monthlyOpex + amount / 12.0;
      case PerMinute =>
        var handleTime := if item.isAISide then p.aiTime else p.humanTime;
        monthlyOpex' := monthlyOpex + amount * OrZero(p.volume) * OrZero(handleTime);
      case PerSession =>
        monthlyOpex' := monthlyOpex + amount * OrZero(p.volume);
      case PerAgent =>
        monthlyOpex' := monthlyOpex + amount * retainedAgents as real;
      case Unrecognised =>
        monthlyOpex' := monthlyOpex + amount;
    }
  }

  /** `calculateLedgerTotals`: one pass over the items, dispatching on the lower-cased frequency. */
  method LedgerTotals(items: Option<seq<CostItem>>, p: GlobalParams) returns (t: Totals)
    ensures t == LedgerSum(ItemsOrEmpty(items), p)
    ensures ItemsOrEmpty(items) == [] ==> t == Zero
  {
    if items.None? || |items.value| == 0 {
      return Zero;
    }
    var xs := items.value;
    ghost var f := ContributionUnder(p);
    var retainedAgents := RetainedAgents(p.totalAgents, p.deflectionRate);
    var capex, monthlyOpex := 0.0, 0.0;
    var i := 0;
    while i < |xs|
      invariant 0 <= i <= |xs|
      invariant Totals(capex, monthlyOpex) == SumBy(xs[..i], f)
    {
      capex, monthlyOpex := AddItem(capex, monthlyOpex, xs[i], p, retainedAgents);
      assert xs[..i + 1][..i] == xs[..i];
      assert f(xs[i]) == Contribution(xs[i], p, retainedAgents);
      i := i + 1;
    }
    assert xs[..i] == xs;
    t := Totals(capex, monthlyOpex);
  }

  /** Ledger totals are additive: the totals of `a + b` are the sums of the totals of `a` and `b`. */
  lemma LedgerSumAppend(a: seq<CostItem>, b: seq<CostItem>, p: GlobalParams)
    ensures LedgerSum(a + b, p) == LedgerSum(a, p).Plus(LedgerSum(b, p))
  {
    SumByAppend(a, b, ContributionUnder(p));
  }

  /** Reordering the items does not change the totals. */
  lemma LedgerSumPermutation(a: seq<CostItem>, b: seq<CostItem>, p: GlobalParams)
    requires multiset(a) == multiset(b)
    ensures LedgerSum(a, p) == LedgerSum(b, p)
  {
    SumByPermutation(a, b, ContributionUnder(p));
  }

  /** Only one-time items move `capex`: with none of them, capex is 0. */
  lemma LedgerCapexOnlyOneTime(items: seq<CostItem>, p: GlobalParams)
    requires forall i :: 0 <= i < |items| ==> ParseFrequency(items[i].frequency) != OneTime
    ensures LedgerSum(items, p).capex == 0.0
  {
    SumByNoCapex(items, ContributionUnder(p));
  }

  /** A one-item ledger is that item's contribution. */
  lemma LedgerSumSingle(item: CostItem, p: GlobalParams)
    ensures LedgerSum([item], p) == Contribution(item, p, LedgerRetained(p))
  {
    var f := ContributionUnder(p);
    var c := Contribution(item, p, LedgerRetained(p));
    assert [item][..0] == [];
    assert f(item) == c;
    assert SumBy([item], f) == Zero.Plus(c);
    assert Zero.Plus(c) == Totals(c.capex, c.monthlyOpex);
  }

  /** The frequency texts the examples use, already in lower case. */
  lemma FrequencyExamples()
    ensures ParseFrequency("one-time") == OneTime
    ensures ParseFrequency("monthly") == Monthly
    ensures ParseFrequency("yearly") == Yearly
    ensures ParseFrequency("per agent") == PerAgent
  {
    assert Text.Lower("one-time") == "one-time";
    assert Text.Lower("monthly") == "monthly";
    assert Text.Lower("yearly") == "yearly";
    assert Text.Lower("per agent") == "per agent";
  }

  /** One-time, monthly and yearly items together: the mixed-frequency case of tests/calculator.test.js. */
  lemma LedgerMixedExample()
    ensures LedgerSum([CostItem("Setup", Num(50000.0), "one-time", false),
                       CostItem("Monthly Fee", Num(10000.0), "monthly", false),
                       CostItem("Annual Contract", Num(120000.0), "yearly", false)], NoParams)
            == Totals(50000.0, 20000.0)
  {
    var setup := CostItem("Setup", Num(50000.0), "one-time", false);
    var fee := CostItem("Monthly Fee", Num(10000.0), "monthly", false);
    var contract := CostItem("Annual Contract", Num(120000.0), "yearly", false);
    FrequencyExamples();
    LedgerSumSingle(setup, NoParams);
    LedgerSumSingle(fee, NoParams);
    LedgerSumSingle(contract, NoParams);
    LedgerSumAppend([setup], [fee], NoParams);
    LedgerSumAppend([setup, fee], [contract], NoParams);
    assert [setup] + [fee] == [setup, fee];
    assert [setup, fee] + [contract] == [setup, fee, contract];
  }

  /** A per-agent item adds its amount once per retained agent, and nothing to capex. */
  lemma ContributionPerAgent(item: CostItem, p: GlobalParams, retained: int)
    requires ParseFrequency(item.frequency) == PerAgent
    ensures Contribution(item, p, retained) == Totals(0.0, OrZero(item.amount) * retained as real)
  {
  }

  /** A per-agent item is priced by the retained agents: 80 of 100 agents at a 20% deflection rate. */
  lemma LedgerPerAgentExample()
    ensures LedgerSum([CostItem("CRM License", Num(2000.0), "per agent", false)],
                      NoParams.(totalAgents := Num(100.0), deflectionRate := Num(0.2)))
            == Totals(0.0, 2000.0 * 80.0)
  {
    var p := NoParams.(totalAgents := Num(100.0), deflectionRate := Num(0.2));
    var item := CostItem("CRM License", Num(2000.0), "per agent", false);
    FrequencyExamples();
    assert ParseFrequency(item.frequency) == PerAgent;
    assert LedgerRetained(p) == 80 by {
      RetainedAgentsExamples();
    }
    ContributionPerAgent(item, p, 80);
    assert Contribution(item, p, 80) == Totals(0.0, 2000.0 * 80.0);
    LedgerSumSingle(item, p);
  }

  /** Without parameters a per-agent item costs nothing. */
  lemma LedgerPerAgentNoParamsExample()
    ensures LedgerSum([CostItem("Per Agent", Num(2000.0), "per agent", false)], NoParams) == Zero
  {
    var item := CostItem("Per Agent", Num(2000.0), "per agent", false);
    FrequencyExamples();
    assert ParseFrequency(item.frequency) == PerAgent;
    assert LedgerRetained(NoParams) == 0 by {
      RetainedAgentsExamples();
    }
    ContributionPerAgent(item, NoParams, 0);
    assert Contribution(item, NoParams, 0) == Zero;
    LedgerSumSingle(item, NoParams);
  }

  /** A negative monthly amount is a credit. */
  lemma LedgerCreditExample()
    ensures LedgerSum([CostItem("Discount", Num(-5000.0), "monthly", false)], NoParams) == Totals(0.0, -5000.0)
  {
    var item := CostItem("Discount", Num(-5000.0), "monthly", false);
    var r := LedgerRetained(NoParams);
    FrequencyExamples();
    assert ParseFrequency(item.frequency) == Monthly;
    assert Contribution(item, NoParams, r) == Totals(0.0, -5000.0);
    LedgerSumSingle(item, NoParams);
  }

  /** Two parameter sets that agree on what the ledger reads. */
  predicate SameLedgerInputs(p: GlobalParams, q: GlobalParams) {
    && OrZero(p.volume) == OrZero(q.volume)
    && OrZero(p.humanTime) == OrZero(q.humanTime)
    && OrZero(p.aiTime) == OrZero(q.aiTime)
    && LedgerRetained(p) == LedgerRetained(q)
  }

  /** The ledger reads nothing of the parameters but volume, the two handle times and the retained-agent count. */
  lemma LedgerSumParams(items: seq<CostItem>, p: GlobalParams, q: GlobalParams)
    requires SameLedgerInputs(p, q)
    ensures LedgerSum(items, p) == LedgerSum(items, q)
  {
    forall i | 0 <= i < |items|
      ensures ContributionUnder(p)(items[i]) == ContributionUnder(q)(items[i])
    {
      var item := items[i];
      assert ContributionUnder(p)(item) == Contribution(item, p, LedgerRetained(p));
      assert ContributionUnder(q)(item) == Contribution(item, q, LedgerRetained(q));
    }
    SumByPointwise(items, ContributionUnder(p), ContributionUnder(q));
  }

  /** Items tagged as client side never read `aiTime`; items tagged as AI side never read `humanTime`. */
  lemma LedgerSumSideTime(items: seq<CostItem>, aiSide: bool, p: GlobalParams, t: Input)
    requires forall i :: 0 <= i < |items| ==> items[i].isAISide == aiSide
    ensures aiSide ==> LedgerSum(items, p) == LedgerSum(items, p.(humanTime := t))
    ensures !aiSide ==> LedgerSum(items, p) == LedgerSum(items, p.(aiTime := t))
  {
    var q := if aiSide then p.(humanTime := t) else p.(aiTime := t);
    assert LedgerRetained(q) == LedgerRetained(p);
    forall i | 0 <= i < |items|
      ensures ContributionUnder(p)(items[i]) == ContributionUnder(q)(items[i])
    {
      var item := items[i];
      assert ContributionUnder(p)(item) == Contribution(item, p, LedgerRetained(p));
      assert ContributionUnder(q)(item) == Contribution(item, q, LedgerRetained(p));
    }
    SumByPointwise(items, ContributionUnder(p), ContributionUnder(q));
  }

  // ---------------------------------------------------------------------------
  // calculateMonthlyCosts

  datatype MonthlyCosts = MonthlyCosts(
    clientMonthly: real, aiMonthly: real,
    clientCapex: real, aiCapex: real,
    agentsReplaced: real, retainedAgents: int,
    adminValue: real)

  /** `{...item, isAISide: side}` over a list, with `null` read as the empty list. */
  function WithSide(items: Option<seq<CostItem>>, aiSide: bool): (r: seq<CostItem>)
    ensures |r| == |ItemsOrEmpty(items)|
    ensures forall i :: 0 <= i < |r| ==> r[i] == ItemsOrEmpty(items)[i].(isAISide := aiSide)
  {
    var xs := ItemsOrEmpty(items);
    seq(|xs|, i requires 0 <= i < |xs| => xs[i].(isAISide := aiSide))
  }

  function ParamsOrNone(globalParams: Option<GlobalParams>): GlobalParams {
    match globalParams
    case None => NoParams
    case Some(p) => p
  }

  /**
    The monthly comparison: ledger totals of each side, with every client item
    tagged as client side and every AI item as AI side, plus the agent split
    and the admin value. No payroll enters the monthly totals.
   */
  function CalculateMonthlyCosts(clientItems: Option<seq<CostItem>>, aiItems: Option<seq<CostItem>>,
                                 globalParams: Option<GlobalParams>): (r: MonthlyCosts)
    ensures var p := ParamsOrNone(globalParams);
            && Totals(r.clientCapex, r.clientMonthly) == LedgerSum(WithSide(clientItems, false), p)
            && Totals(r.aiCapex, r.aiMonthly) == LedgerSum(WithSide(aiItems, true), p)
            && r.retainedAgents == LedgerRetained(p)
            && r.agentsReplaced + r.retainedAgents as real == OrZero(p.totalAgents)
            && r.adminValue == AdminValue(p.adminHours, p.hourlyRate)
  {
    var p := ParamsOrNone(globalParams);
    var clientTotals := LedgerSum(WithSide(clientItems, false), p);
    var aiTotals := LedgerSum(WithSide(aiItems, true), p);
    var totalAgents := OrZero(p.totalAgents);
    var retainedAgents := RetainedAgents(p.totalAgents, p.deflectionRate);
    MonthlyCosts(
      clientTotals.monthlyOpex, aiTotals.monthlyOpex,
      clientTotals.capex, aiTotals.capex,
      totalAgents - retainedAgents as real, retainedAgents,
      AdminValue(p.adminHours, p.hourlyRate))
  }

  /** Whatever side tags the incoming items carry, the result is the same. */
  lemma MonthlyCostsIgnoreIncomingTags(client1: seq<CostItem>, client2: seq<CostItem>,
                                       ai1: seq<CostItem>, ai2: seq<CostItem>, p: Option<GlobalParams>)
    requires |client1| == |client2| && |ai1| == |ai2|
    requires forall i :: 0 <= i < |client1| ==> client1[i].(isAISide := false) == client2[i].(isAISide := false)
    requires forall i :: 0 <= i < |ai1| ==> ai1[i].(isAISide := true) == ai2[i].(isAISide := true)
    ensures CalculateMonthlyCosts(Some(client1), Some(ai1), p) == CalculateMonthlyCosts(Some(client2), Some(ai2), p)
  {
    assert WithSide(Some(client1), false) == WithSide(Some(client2), false);
    assert WithSide(Some(ai1), true) == WithSide(Some(ai2), true);
  }

  /** The client side is priced with `humanTime`, never `aiTime`; the AI side with `aiTime`, never `humanTime`. */
  lemma MonthlyCostsSideTimes(clientItems: Option<seq<CostItem>>, aiItems: Option<seq<CostItem>>,
                              p: GlobalParams, t: Input)
    ensures var r, r' := CalculateMonthlyCosts(clientItems, aiItems, Some(p)),
                         CalculateMonthlyCosts(clientItems, aiItems, Some(p.(aiTime := t)));
            r.clientMonthly == r'.clientMonthly && r.clientCapex == r'.clientCapex
    ensures var r, r' := CalculateMonthlyCosts(clientItems, aiItems, Some(p)),
                         CalculateMonthlyCosts(clientItems, aiItems, Some(p.(humanTime := t)));
            r.aiMonthly == r'.aiMonthly && r.aiCapex == r'.aiCapex
  {
    LedgerSumSideTime(WithSide(clientItems, false), false, p, t);
    LedgerSumSideTime(WithSide(aiItems, true), true, p, t);
  }

  /** The monthly salary has no effect on any of the results: payroll is not part of the monthly totals. */
  lemma MonthlyCostsIgnoreSalary(clientItems: Option<seq<CostItem>>, aiItems: Option<seq<CostItem>>,
                                 p: GlobalParams, salary: Input)
    ensures CalculateMonthlyCosts(clientItems, aiItems, Some(p))
            == CalculateMonthlyCosts(clientItems, aiItems, Some(p.(monthlySalary := salary)))
  {
    var q := p.(monthlySalary := salary);
    LedgerSumParams(WithSide(clientItems, false), p, q);
    LedgerSumParams(WithSide(aiItems, true), p, q);
  }

  /** Missing item lists cost nothing. */
  lemma MonthlyCostsNoItems(p: Option<GlobalParams>)
    ensures var r := CalculateMonthlyCosts(None, Some([]), p);
            r.clientMonthly == r.aiMonthly == r.clientCapex == r.aiCapex == 0.0
  {
  }

  // ---------------------------------------------------------------------------
  // generateROITimeline and calculateDashboardMetrics

  /** The last month of the timeline and of the break-even search. */
  const Horizon: nat := 24

  /** Cumulative cost after `month` months: the capex plus `month` monthly costs. */
  function Cumulative(capex: real, monthly: real, month: nat): (c: real)
    ensures month == 0 ==> c == capex
  {
    capex + monthly * month as real
  }

  /** Each further month adds the monthly cost once. */
  lemma CumulativeStep(capex: real, monthly: real, month: nat)
    requires month > 0
    ensures Cumulative(capex, monthly, month) == Cumulative(capex, monthly, month - 1) + monthly
  {
    assert monthly * month as real == monthly * (month - 1) as real + monthly;
  }

  /** With a non-negative monthly cost the cumulative cost never falls; with a positive one it always rises. */
  lemma CumulativeMonotone(capex: real, monthly: real, i: nat, j: nat)
    requires i <= j
    ensures monthly >= 0.0 ==> Cumulative(capex, monthly, i) <= Cumulative(capex, monthly, j)
    ensures monthly > 0.0 && i < j ==> Cumulative(capex, monthly, i) < Cumulative(capex, monthly, j)
  {
    assert Cumulative(capex, monthly, j) - Cumulative(capex, monthly, i) == monthly * (j - i) as real;
  }

  /** The AI side is cheaper in cumulative terms at `month`. */
  predicate AICheaperAt(clientMonthly: real, aiMonthly: real, clientCapex: real, aiCapex: real, month: nat) {
    Cumulative(aiCapex, aiMonthly, month) < Cumulative(clientCapex, clientMonthly, month)
  }

  /**
    `b` is the first month in 1..24 at which the AI side is cheaper, or `None`
    when there is no such month.
   */
  predicate IsFirstBreakEven(b: Option<nat>, clientMonthly: real, aiMonthly: real, clientCapex: real, aiCapex: real) {
    match b
    case Some(m) =>
      && 1 <= m <= Horizon
      && AICheaperAt(clientMonthly, aiMonthly, clientCapex, aiCapex, m)
      && forall k :: 1 <= k < m ==> !AICheaperAt(clientMonthly, aiMonthly, clientCapex, aiCapex, k)
    case None =>
      forall k :: 1 <= k <= Horizon ==> !AICheaperAt(clientMonthly, aiMonthly, clientCapex, aiCapex, k)
  }

  /** The search from `month` onwards. */
  function BreakEvenFrom(clientMonthly: real, aiMonthly: real, clientCapex: real, aiCapex: real, month: nat): (b: Option<nat>)
    requires 1 <= month
    ensures b.Some? ==> month <= b.value <= Horizon && AICheaperAt(clientMonthly, aiMonthly, clientCapex, aiCapex, b.value)
    ensures forall k :: month <= k <= Horizon && (b.None? || k < b.value) ==> !AICheaperAt(clientMonthly, aiMonthly, clientCapex, aiCapex, k)
    decreases Horizon + 1 - month
  {
    if month > Horizon then None
    else if AICheaperAt(clientMonthly, aiMonthly, clientCapex, aiCapex, month) then Some(month)
    else BreakEvenFrom(clientMonthly, aiMonthly, clientCapex, aiCapex, month + 1)
  }

  /** The break-even month: the first month in 1..24 at which the AI side is cheaper, if any. */
  function BreakEvenMonth(clientMonthly: real, aiMonthly: real, clientCapex: real, aiCapex: real): (b: Option<nat>)
    ensures IsFirstBreakEven(b, clientMonthly, aiMonthly, clientCapex, aiCapex)
  {
    BreakEvenFrom(clientMonthly, aiMonthly, clientCapex, aiCapex, 1)
  }

  /** At most one value is the first break-even month. */
  lemma FirstBreakEvenUnique(b1: Option<nat>, b2: Option<nat>, clientMonthly: real, aiMonthly: real, clientCapex: real, aiCapex: real)
    requires IsFirstBreakEven(b1, clientMonthly, aiMonthly, clientCapex, aiCapex)
    requires IsFirstBreakEven(b2, clientMonthly, aiMonthly, clientCapex, aiCapex)
    ensures b1 == b2
  {
  }

  lemma NoCheaperWithoutSavings(clientMonthly: real, aiMonthly: real, clientCapex: real, aiCapex: real, k: real)
    requires aiMonthly >= clientMonthly && aiCapex >= clientCapex && k >= 0.0
    ensures clientCapex + clientMonthly * k <= aiCapex + aiMonthly * k
  {
    ScaleMonotone(k, clientMonthly, aiMonthly);
    var clientRun, aiRun := clientMonthly * k, aiMonthly * k;
    assert clientRun == k * clientMonthly;
    assert aiRun == k * aiMonthly;
  }

  lemma NeverCheaperWithoutSavings(clientMonthly: real, aiMonthly: real, clientCapex: real, aiCapex: real)
    requires aiMonthly >= clientMonthly && aiCapex >= clientCapex
    ensures IsFirstBreakEven(None, clientMonthly, aiMonthly, clientCapex, aiCapex)
  {
    forall k: nat | 1 <= k <= Horizon
      ensures !AICheaperAt(clientMonthly, aiMonthly, clientCapex, aiCapex, k)
    {
      NoCheaperWithoutSavings(clientMonthly, aiMonthly, clientCapex, aiCapex, k as real);
    }
  }

  /** Without monthly savings, an AI side that starts no cheaper never breaks even. */
  lemma NoBreakEvenWithoutSavings(clientMonthly: real, aiMonthly: real, clientCapex: real, aiCapex: real)
    requires aiMonthly >= clientMonthly && aiCapex >= clientCapex
    ensures BreakEvenMonth(clientMonthly, aiMonthly, clientCapex, aiCapex) == None
  {
    NeverCheaperWithoutSavings(clientMonthly, aiMonthly, clientCapex, aiCapex);
    FirstBreakEvenUnique(None, BreakEvenMonth(clientMonthly, aiMonthly, clientCapex, aiCapex),
                         clientMonthly, aiMonthly, clientCapex, aiCapex);
  }

  /** Savings large enough to cover the extra capex within 24 months give a break-even month. */
  lemma BreakEvenWithinHorizon(clientMonthly: real, aiMonthly: real, clientCapex: real, aiCapex: real)
    requires aiCapex - clientCapex < (clientMonthly - aiMonthly) * Horizon as real
    ensures BreakEvenMonth(clientMonthly, aiMonthly, clientCapex, aiCapex).Some?
  {
    assert AICheaperAt(clientMonthly, aiMonthly, clientCapex, aiCapex, Horizon);
  }

  predicate NonDecreasing(s: seq<real>) {
    forall i, j :: 0 <= i <= j < |s| ==> s[i] <= s[j]
  }

  predicate StrictlyIncreasing(s: seq<real>) {
    forall i, j :: 0 <= i < j < |s| ==> s[i] < s[j]
  }

  /** `Month ${month}`. */
  function MonthLabel(month: nat): string {
    "Month " + Text.NatToString(month)
  }

  /** A month label is the word, a space, then digits that read back as the month. */
  lemma MonthLabelReadsBack(month: nat)
    ensures var l := MonthLabel(month);
            && |l| > 6 && l[..6] == "Month "
            && (forall i :: 6 <= i < |l| ==> '0' <= l[i] <= '9')
            && Text.DigitsValue(l[6..]) == month
  {
    assert MonthLabel(month)[6..] == Text.NatToString(month);
    Text.NatToStringRoundTrip(month);
  }

  /** The labels of months 0 .. n-1. */
  function Labels(n: nat): (labels: seq<string>)
    ensures |labels| == n
  {
    if n == 0 then [] else Labels(n - 1) + [MonthLabel(n - 1)]
  }

  lemma LabelsStep(n: nat)
    ensures Labels(n + 1) == Labels(n) + [MonthLabel(n)]
  {
  }

  lemma SeriesStep(capex: real, monthly: real, n: nat)
    ensures Series(capex, monthly, n + 1) == Series(capex, monthly, n) + [Cumulative(capex, monthly, n)]
  {
  }

  /** Entry `m` of the labels is the label of month `m`. */
  lemma {:induction false} LabelsAt(n: nat, m: nat)
    requires m < n
    ensures Labels(n)[m] == MonthLabel(m)
  {
    if m < n - 1 {
      LabelsAt(n - 1, m);
    }
  }

  /** The cumulative costs at months 0 .. n-1. */
  function Series(capex: real, monthly: real, n: nat): (s: seq<real>)
    ensures |s| == n
  {
    if n == 0 then [] else Series(capex, monthly, n - 1) + [Cumulative(capex, monthly, n - 1)]
  }

  /** Entry `m` of a series is the cumulative cost after `m` months. */
  lemma {:induction false} SeriesAt(capex: real, monthly: real, n: nat, m: nat)
    requires m < n
    ensures Series(capex, monthly, n)[m] == Cumulative(capex, monthly, m)
  {
    if m < n - 1 {
      SeriesAt(capex, monthly, n - 1, m);
    }
  }

  /** A cumulative series starts at the capex and rises with its month index when its monthly cost does. */
  lemma SeriesShape(capex: real, monthly: real, n: nat)
    ensures n > 0 ==> Series(capex, monthly, n)[0] == capex
    ensures monthly >= 0.0 ==> NonDecreasing(Series(capex, monthly, n))
    ensures monthly > 0.0 ==> StrictlyIncreasing(Series(capex, monthly, n))
  {
    var s := Series(capex, monthly, n);
    if n > 0 {
      SeriesAt(capex, monthly, n, 0);
    }
    forall i, j | 0 <= i <= j < |s|
      ensures monthly >= 0.0 ==> s[i] <= s[j]
      ensures monthly > 0.0 && i < j ==> s[i] < s[j]
    {
      SeriesAt(capex, monthly, n, i);
      SeriesAt(capex, monthly, n, j);
      CumulativeMonotone(capex, monthly, i, j);
    }
  }

  /** Different months carry different labels. */
  lemma LabelsDistinct(n: nat, i: nat, j: nat)
    requires i < n && j < n && i != j
    ensures Labels(n)[i] != Labels(n)[j]
  {
    LabelsAt(n, i);
    LabelsAt(n, j);
    if Text.NatToString(i) == Text.NatToString(j) {
      Text.NatToStringInjective(i, j);
    }
    assert MonthLabel(i)[6..] == Text.NatToString(i);
    assert MonthLabel(j)[6..] == Text.NatToString(j);
  }

  datatype Timeline = Timeline(labels: seq<string>, clientData: seq<real>, aiData: seq<real>, breakEvenMonth: Option<nat>)

  /**
    `generateROITimeline`: cumulative costs of both sides at months 0..24, the
    AI side's monthly cost reduced by the admin value (0 when missing), and the
    first month after month 0 at which the AI side is cheaper.
   */
  method GenerateROITimeline(clientMonthly: real, aiMonthly: real, clientCapex: real, aiCapex: real, adminValue: Input)
    returns (t: Timeline)
    ensures |t.labels| == Horizon + 1 && t.labels == Labels(|t.labels|)
    ensures t.clientData == Series(clientCapex, clientMonthly, Horizon + 1)
    ensures t.aiData == Series(aiCapex, aiMonthly - OrZero(adminValue), Horizon + 1)
    ensures t.breakEvenMonth == BreakEvenMonth(clientMonthly, aiMonthly - OrZero(adminValue), clientCapex, aiCapex)
  {
    var labels: seq<string> := [];
    var clientData: seq<real> := [];
    var aiData: seq<real> := [];
    var breakEvenMonth: Option<nat> := None;
    var effectiveAIMonthly := aiMonthly - OrZero(adminValue);
    ghost var expected := BreakEvenMonth(clientMonthly, effectiveAIMonthly, clientCapex, aiCapex);
    var month: nat := 0;
    while month <= Horizon
      invariant month <= Horizon + 1
      invariant labels == Labels(month)
      invariant clientData == Series(clientCapex, clientMonthly, month)
      invariant aiData == Series(aiCapex, effectiveAIMonthly, month)
      invariant breakEvenMonth.Some? ==> breakEvenMonth == expected
      invariant breakEvenMonth.None? ==> expected == BreakEvenFrom(clientMonthly, effectiveAIMonthly, clientCapex, aiCapex, if month == 0 then 1 else month)
    {
      labels := labels + [MonthLabel(month)];
      var clientCumulative := Cumulative(clientCapex, clientMonthly, month);
      var aiCumulative := Cumulative(aiCapex, effectiveAIMonthly, month);
      clientData := clientData + [clientCumulative];
      aiData := aiData + [aiCumulative];
      SeriesStep(clientCapex, clientMonthly, month);
      SeriesStep(aiCapex, effectiveAIMonthly, month);
      LabelsStep(month);
      if breakEvenMonth.None? && month > 0 && aiCumulative < clientCumulative {
        breakEvenMonth := Some(month);
      }
      month := month + 1;
    }
    assert month == Horizon + 1;
    t := Timeline(labels, clientData, aiData, breakEvenMonth);
  }

  /** The timeline points and break-even month tests/calculator.test.js expects. */
  lemma TimelineExamples()
    ensures Series(0.0, 100000.0, Horizon + 1)[1] == 100000.0
    ensures Series(50000.0, 50000.0, Horizon + 1)[1] == 100000.0
    ensures Series(0.0, 100000.0, Horizon + 1)[12] == 1200000.0
    ensures Series(50000.0, 50000.0, Horizon + 1)[12] == 650000.0
    ensures Series(10000.0, 0.0, Horizon + 1)[12] == 10000.0
    ensures BreakEvenMonth(100000.0, 50000.0, 0.0, 50000.0) == Some(2)
  {
    SeriesAt(0.0, 100000.0, Horizon + 1, 1);
    SeriesAt(50000.0, 50000.0, Horizon + 1, 1);
    SeriesAt(0.0, 100000.0, Horizon + 1, 12);
    SeriesAt(50000.0, 50000.0, Horizon + 1, 12);
    SeriesAt(10000.0, 0.0, Horizon + 1, 12);
    assert AICheaperAt(100000.0, 50000.0, 0.0, 50000.0, 2);
    assert !AICheaperAt(100000.0, 50000.0, 0.0, 50000.0, 1);
    FirstBreakEvenUnique(Some(2), BreakEvenMonth(100000.0, 50000.0, 0.0, 50000.0), 100000.0, 50000.0, 0.0, 50000.0);
  }

  /** The dashboard's first-year net savings are the gap between the two timeline series at month 12. */
  lemma Year1FromTimeline(clientMonthly: real, aiMonthly: real, clientCapex: real, aiCapex: real, adminValue: real)
    ensures Series(clientCapex, clientMonthly, Horizon + 1)[12] - Series(aiCapex, aiMonthly - adminValue, Horizon + 1)[12]
            == 12.0 * (clientMonthly - (aiMonthly - adminValue)) + clientCapex - aiCapex
  {
    SeriesAt(clientCapex, clientMonthly, Horizon + 1, 12);
    SeriesAt(aiCapex, aiMonthly - adminValue, Horizon + 1, 12);
  }

  datatype Dashboard = Dashboard(
    initialInvestment: real, monthlySavings: real, payrollSaved: real,
    year1NetSavings: real, breakEvenMonth: Option<nat>)

  /**
    `calculateDashboardMetrics`: the monthly savings against the AI side's
    cost net of the admin value, the first-year net savings, the capex as
    initial investment, the payroll figure passed through, and the break-even
    month found by a search that stops at the first hit.
   */
  method DashboardMetrics(clientMonthly: real, aiMonthly: real, clientCapex: real, aiCapex: real,
                          adminValue: real, payrollSaved: real) returns (d: Dashboard)
    ensures d.initialInvestment == aiCapex
    ensures d.payrollSaved == payrollSaved
    ensures d.monthlySavings == clientMonthly - (aiMonthly - adminValue)
    ensures d.year1NetSavings == 12.0 * d.monthlySavings + clientCapex - aiCapex
    ensures d.year1NetSavings == Cumulative(clientCapex, clientMonthly, 12) - Cumulative(aiCapex, aiMonthly - adminValue, 12)
    ensures IsFirstBreakEven(d.breakEvenMonth, clientMonthly, aiMonthly - adminValue, clientCapex, aiCapex)
    ensures d.breakEvenMonth == BreakEvenMonth(clientMonthly, aiMonthly - adminValue, clientCapex, aiCapex)
  {
    var effectiveAIMonthly := aiMonthly - adminValue;
    var monthlySavings := clientMonthly - effectiveAIMonthly;
    var year1ClientTotal := clientCapex + clientMonthly * 12.0;
    var year1AITotal := aiCapex + effectiveAIMonthly * 12.0;
    var year1NetSavings := year1ClientTotal - year1AITotal;

    var breakEvenMonth: Option<nat> := None;
    var month: nat := 1;
    while month <= Horizon
      invariant 1 <= month <= Horizon + 1
      invariant forall k :: 1 <= k < month ==> !AICheaperAt(clientMonthly, effectiveAIMonthly, clientCapex, aiCapex, k)
      invariant breakEvenMonth == None
    {
      var clientCumulative := Cumulative(clientCapex, clientMonthly, month);
      var aiCumulative := Cumulative(aiCapex, effectiveAIMonthly, month);
      if aiCumulative < clientCumulative {
        breakEvenMonth := Some(month);
        break;
      }
      month := month + 1;
    }
    FirstBreakEvenUnique(breakEvenMonth, BreakEvenMonth(clientMonthly, effectiveAIMonthly, clientCapex, aiCapex),
                         clientMonthly, effectiveAIMonthly, clientCapex, aiCapex);
    d := Dashboard(aiCapex, monthlySavings, payrollSaved, year1NetSavings, breakEvenMonth);
  }
}
