/** Balance reductions over transactions: money in hand up to a day, money
    still to come after it, the total, per-stream balances, a balance series
    for charts and income against expense over a range.  Amounts may be
    converted to a target currency with a `FROM_TO` rate table. */
module Balance {
  import opened Calendar
  import opened Domain
  import opened Seqs
  import opened Sorting

  /** A rate table keyed `FROM_TO`.  Every rate is non-zero: the inverse rule
      divides by a stored rate. */
  type Rates = m: map<string, real> | forall k :: k in m ==> m[k] != 0.0 witness map[]

  function RateKey(from: string, to: string): string {
    from + "_" + to
  }

  /** The conversion rule: nothing to do without a target, without rates or
      when the currencies match; otherwise multiply by the direct rate, else
      divide by the inverse rate, else keep the amount (1:1). */
  function Convert(amount: real, from: string, target: Option<string>, rates: Option<Rates>): (r: real)
    ensures amount == 0.0 ==> r == 0.0
    ensures r != amount ==>
      Truthy(target) && from != target.value && rates.Some? &&
      (RateKey(from, target.value) in rates.value || RateKey(target.value, from) in rates.value)
  {
    if !Truthy(target) || from == target.value || rates.None? then amount
    else if RateKey(from, target.value) in rates.value then amount * rates.value[RateKey(from, target.value)]
    else if RateKey(target.value, from) in rates.value then amount / rates.value[RateKey(target.value, from)]
    else amount
  }

  /** Converting there and back with a table that holds only one direction of
      the pair returns the original amount: the direct rate going out, the
      inverse rate coming back. */
  lemma ConvertRoundTrip(amount: real, a: string, b: string, rates: Rates)
    requires a != "" && b != "" && a != b
    requires RateKey(a, b) in rates && RateKey(b, a) !in rates
    ensures Convert(Convert(amount, a, Some(b), Some(rates)), b, Some(a), Some(rates)) == amount
  {
    var r := rates[RateKey(a, b)];
    assert Convert(amount, a, Some(b), Some(rates)) == amount * r;
    assert Convert(amount * r, b, Some(a), Some(rates)) == amount * r / r;
  }

  /** Without a table entry for either direction the amount is kept, and with
      a consistent table (the inverse entry is the reciprocal) both entries
      convert alike. */
  lemma ConvertCases(amount: real, from: string, to: string, rates: Rates)
    requires to != "" && from != to
    ensures RateKey(from, to) !in rates && RateKey(to, from) !in rates ==>
      Convert(amount, from, Some(to), Some(rates)) == amount
    ensures (RateKey(from, to) in rates && RateKey(to, from) in rates &&
             rates[RateKey(to, from)] * rates[RateKey(from, to)] == 1.0) ==>
      Convert(amount, from, Some(to), Some(rates)) == amount / rates[RateKey(to, from)]
  {
    if RateKey(from, to) in rates && RateKey(to, from) in rates && rates[RateKey(to, from)] * rates[RateKey(from, to)] == 1.0 {
      var d, i := rates[RateKey(from, to)], rates[RateKey(to, from)];
      assert amount * d == amount * d * i / i;
    }
  }

  /** A transaction's share of a balance: its converted amount, added for
      income and subtracted for expense. */
  function Contribution(tx: Transaction, target: Option<string>, rates: Option<Rates>): real {
    var amount := Convert(tx.amount, tx.currency, target, rates);
    if tx.kind == Income then amount else -amount
  }

  function Total(txs: seq<Transaction>, target: Option<string>, rates: Option<Rates>): real {
    Sum(txs, (tx: Transaction) => Contribution(tx, target, rates))
  }

  /** `calculateMoneyInHand`: the total of the transactions dated on or
      before `asOf`, so all of it when every transaction is, and nothing
      when every one is later. */
  function MoneyInHand(txs: seq<Transaction>, asOf: Date, target: Option<string>, rates: Option<Rates>): (r: real)
    ensures (forall tx :: tx in txs ==> OnOrBefore(tx.applicabilityDate, asOf)) ==> r == TotalBalance(txs, target, rates)
    ensures (forall tx :: tx in txs ==> Before(asOf, tx.applicabilityDate)) ==> r == 0.0
  {
    FilterExtremes(txs, (tx: Transaction) => OnOrBefore(tx.applicabilityDate, asOf));
    Total(Filter(txs, (tx: Transaction) => OnOrBefore(tx.applicabilityDate, asOf)), target, rates)
  }

  /** `calculateProjectedMoney`: the total of the transactions dated after
      `asOf`, so all of it when every transaction is, and nothing when none
      is. */
  function ProjectedMoney(txs: seq<Transaction>, asOf: Date, target: Option<string>, rates: Option<Rates>): (r: real)
    ensures (forall tx :: tx in txs ==> Before(asOf, tx.applicabilityDate)) ==> r == TotalBalance(txs, target, rates)
    ensures (forall tx :: tx in txs ==> OnOrBefore(tx.applicabilityDate, asOf)) ==> r == 0.0
  {
    FilterExtremes(txs, (tx: Transaction) => Before(asOf, tx.applicabilityDate));
    Total(Filter(txs, (tx: Transaction) => Before(asOf, tx.applicabilityDate)), target, rates)
  }

  /** `calculateTotalBalance`. */
  function TotalBalance(txs: seq<Transaction>, target: Option<string>, rates: Option<Rates>): real {
    Total(txs, target, rates)
  }

  /** Money in hand starts at 0 and a further transaction changes it by its
      contribution exactly when it is dated on or before `asOf`. */
  lemma MoneyInHandStep(txs: seq<Transaction>, tx: Transaction, asOf: Date, target: Option<string>, rates: Option<Rates>)
    ensures MoneyInHand([], asOf, target, rates) == 0.0
    ensures MoneyInHand(txs + [tx], asOf, target, rates) ==
      MoneyInHand(txs, asOf, target, rates) +
      (if OnOrBefore(tx.applicabilityDate, asOf) then Contribution(tx, target, rates) else 0.0)
  {
    var p := (t: Transaction) => OnOrBefore(t.applicabilityDate, asOf);
    var f := (t: Transaction) => Contribution(t, target, rates);
    FilterAppend(txs, [tx], p);
    assert Filter([tx], p) == Filter([], p) + (if p(tx) then [tx] else []);
    SumAppend(Filter(txs, p), Filter([tx], p), f);
    assert Sum([tx], f) == Sum([], f) + f(tx);
  }

  /** Money in hand and projected money split the total: every transaction
      is counted in exactly one of them. */
  lemma BalancePartition(txs: seq<Transaction>, asOf: Date, target: Option<string>, rates: Option<Rates>)
    ensures MoneyInHand(txs, asOf, target, rates) + ProjectedMoney(txs, asOf, target, rates) ==
      TotalBalance(txs, target, rates)
  {
    SumSplit(txs, (tx: Transaction) => OnOrBefore(tx.applicabilityDate, asOf), (tx: Transaction) => Before(asOf, tx.applicabilityDate),
      (tx: Transaction) => Contribution(tx, target, rates));
  }

  /** Money in hand does not depend on the order of the transactions. */
  lemma MoneyInHandOrderFree(txs: seq<Transaction>, other: seq<Transaction>, asOf: Date, target: Option<string>, rates: Option<Rates>)
    requires multiset(txs) == multiset(other)
    ensures MoneyInHand(txs, asOf, target, rates) == MoneyInHand(other, asOf, target, rates)
  {
    var p := (t: Transaction) => OnOrBefore(t.applicabilityDate, asOf);
    var f := (t: Transaction) => Contribution(t, target, rates);
    var g := (t: Transaction) => if p(t) then f(t) else 0.0;
    SumFilter(txs, p, f, g);
    SumFilter(other, p, f, g);
    SumPermutation(txs, other, g);
  }

  /** `calculateStreamBalance`: the stream's transactions up to `asOf`,
      summed without conversion. */
  function StreamBalance(txs: seq<Transaction>, streamId: string, asOf: Date): real {
    MoneyInHand(Filter(txs, (tx: Transaction) => tx.streamId == streamId && OnOrBefore(tx.applicabilityDate, asOf)), asOf, None, None)
  }

  /** The signed, unconverted sum of one stream's transactions. */
  function StreamSum(txs: seq<Transaction>, streamId: string): real {
    Sum(txs, (tx: Transaction) => if tx.streamId == streamId then Contribution(tx, None, None) else 0.0)
  }

  /** A stream's balance is the unconverted money in hand of that stream's
      transactions only, which is the stream's signed sum over the
      transactions dated on or before `asOf`. */
  lemma StreamBalanceIsStreamMoneyInHand(txs: seq<Transaction>, streamId: string, asOf: Date)
    ensures StreamBalance(txs, streamId, asOf) ==
      MoneyInHand(Filter(txs, (tx: Transaction) => tx.streamId == streamId), asOf, None, None)
    ensures StreamBalance(txs, streamId, asOf) ==
      StreamSum(Filter(txs, (tx: Transaction) => OnOrBefore(tx.applicabilityDate, asOf)), streamId)
  {
    var both := (t: Transaction) => t.streamId == streamId && OnOrBefore(t.applicabilityDate, asOf);
    var inStream := (t: Transaction) => t.streamId == streamId;
    var upTo := (t: Transaction) => OnOrBefore(t.applicabilityDate, asOf);
    var f := (t: Transaction) => Contribution(t, None, None);
    FilterFilter(txs, both, upTo, both);
    FilterFilter(txs, inStream, upTo, both);
    FilterFilter(txs, upTo, inStream, both);
    SumFilter(Filter(txs, upTo), inStream, f, (t: Transaction) => if t.streamId == streamId then Contribution(t, None, None) else 0.0);
  }

  lemma StreamSumAppend(txs: seq<Transaction>, tx: Transaction, streamId: string)
    ensures StreamSum(txs + [tx], streamId) ==
      StreamSum(txs, streamId) + (if tx.streamId == streamId then Contribution(tx, None, None) else 0.0)
  {
    assert (txs + [tx])[..|txs|] == txs;
  }

  /** `calculateStreamBalances`: a map with exactly the streams that have a
      transaction dated on or before `asOf`, each holding its stream balance. */
  method CalculateStreamBalances(txs: seq<Transaction>, asOf: Date) returns (balances: map<string, real>)
    ensures balances.Keys == StreamsOf(Filter(txs, (tx: Transaction) => OnOrBefore(tx.applicabilityDate, asOf)))
    ensures forall id :: id in balances ==> balances[id] == StreamBalance(txs, id, asOf)
  {
    var kept := Filter(txs, (tx: Transaction) => OnOrBefore(tx.applicabilityDate, asOf));
    balances := map[];
    for i := 0 to |kept|
      invariant balances.Keys == StreamsOf(kept[..i])
      invariant forall id :: id in balances ==> balances[id] == StreamSum(kept[..i], id)
      invariant forall id :: id !in balances ==> StreamSum(kept[..i], id) == 0.0
    {
      var tx := kept[i];
      var current := if tx.streamId in balances then balances[tx.streamId] else 0.0;
      var newBalance := if tx.kind == Income then current + tx.amount else current - tx.amount;
      StreamSumsStep(kept, i);
      assert kept[..i + 1][..i] == kept[..i];
      balances := balances[tx.streamId := newBalance];
    }
    assert kept[..|kept|] == kept;
    forall id | id in balances
      ensures balances[id] == StreamBalance(txs, id, asOf)
    {
      StreamBalanceIsStreamMoneyInHand(txs, id, asOf);
    }
  }

  /** The stream ids of a list of transactions. */
  function StreamsOf(txs: seq<Transaction>): set<string> {
    if |txs| == 0 then {} else StreamsOf(txs[..|txs| - 1]) + {txs[|txs| - 1].streamId}
  }

  /** The keys of `calculateStreamBalances` are exactly the streams with a
      transaction dated on or before `asOf`. */
  lemma {:induction false} StreamsOfMembers(txs: seq<Transaction>, id: string)
    ensures id in StreamsOf(txs) <==> exists tx :: tx in txs && tx.streamId == id
    decreases |txs|
  {
    if |txs| > 0 {
      var init := txs[..|txs| - 1];
      StreamsOfMembers(init, id);
      assert txs == init + [txs[|txs| - 1]];
      if exists tx :: tx in txs && tx.streamId == id {
        var tx :| tx in txs && tx.streamId == id;
        if tx != txs[|txs| - 1] {
          assert tx in init;
        }
      }
    }
  }

  lemma StreamSumsStep(kept: seq<Transaction>, i: nat)
    requires i < |kept|
    ensures forall id ::
      StreamSum(kept[..i + 1], id) ==
      StreamSum(kept[..i], id) + (if kept[i].streamId == id then Contribution(kept[i], None, None) else 0.0)
  {
    PrefixGrow(kept, i);
    forall id
      ensures StreamSum(kept[..i + 1], id) ==
        StreamSum(kept[..i], id) + (if kept[i].streamId == id then Contribution(kept[i], None, None) else 0.0)
    {
      StreamSumAppend(kept[..i], kept[i], id);
    }
  }

  /** One point of the balance chart. */
  datatype BalancePoint = BalancePoint(date: Date, balance: real)

  /** Orders transactions by date, as the chart's copy is sorted. */
  predicate TxLe(a: Transaction, b: Transaction) {
    DayNumber(a.applicabilityDate) <= DayNumber(b.applicabilityDate)
  }

  lemma TxLeIsPreorder()
    ensures TotalPreorder(TxLe)
  {
  }

  /** `(a, b) => b.applicabilityDate - a.applicabilityDate` as an order:
      later days first. */
  predicate TxLaterFirst(a: Transaction, b: Transaction) {
    DayNumber(b.applicabilityDate) <= DayNumber(a.applicabilityDate)
  }

  lemma TxLaterFirstIsPreorder()
    ensures TotalPreorder(TxLaterFirst)
  {
  }

  /** `calculateBalanceOverTime`: one point every `intervalDays` days from
      `startDate` while on or before `endDate`, each holding the money in
      hand on its day.  An interval of zero or less is accepted when the
      start is already past the end (no points); otherwise the loop would
      not end, so that input is excluded. */
  method CalculateBalanceOverTime(txs: seq<Transaction>, startDate: Date, endDate: Date, intervalDays: int,
                                  target: Option<string>, rates: Option<Rates>)
    returns (points: seq<BalancePoint>)
    requires intervalDays > 0 || DayNumber(endDate) < DayNumber(startDate)
    ensures forall i :: 0 <= i < |points| ==>
      DayNumber(points[i].date) == DayNumber(startDate) + i * intervalDays &&
      OnOrBefore(points[i].date, endDate) &&
      points[i].balance == MoneyInHand(txs, points[i].date, target, rates)
    ensures DayNumber(endDate) < DayNumber(startDate) + |points| * intervalDays
  {
    TxLeIsPreorder();
    var sorted := SortWith(txs, TxLe);
    var current := startDate;
    points := [];
    while OnOrBefore(current, endDate)
      invariant DayNumber(current) == DayNumber(startDate) + |points| * intervalDays
      invariant ChartSoFar(points, txs, startDate, endDate, intervalDays, target, rates)
      invariant intervalDays > 0 || points == []
      decreases DayNumber(endDate) - DayNumber(current)
    {
      var balance := MoneyInHand(sorted, current, target, rates);
      MoneyInHandOrderFree(sorted, txs, current, target, rates);
      ChartExtend(points, BalancePoint(current, balance), txs, startDate, endDate, intervalDays, target, rates);
      points := points + [BalancePoint(current, balance)];
      current := AddDays(current, intervalDays);
    }
  }

  /** The chart's loop invariant: point `i` lies `i` intervals after the
      start, on or before the end, and holds the money in hand on its day. */
  ghost predicate ChartSoFar(points: seq<BalancePoint>, txs: seq<Transaction>, startDate: Date, endDate: Date,
                             intervalDays: int, target: Option<string>, rates: Option<Rates>)
  {
    forall i :: 0 <= i < |points| ==>
      DayNumber(points[i].date) == DayNumber(startDate) + i * intervalDays &&
      OnOrBefore(points[i].date, endDate) &&
      points[i].balance == MoneyInHand(txs, points[i].date, target, rates)
  }

  /** Appending the next point keeps the chart's invariant, and the day after
      it lies one more interval past the start. */
  lemma ChartExtend(points: seq<BalancePoint>, p: BalancePoint, txs: seq<Transaction>, startDate: Date, endDate: Date,
                    intervalDays: int, target: Option<string>, rates: Option<Rates>)
    requires ChartSoFar(points, txs, startDate, endDate, intervalDays, target, rates)
    requires DayNumber(p.date) == DayNumber(startDate) + |points| * intervalDays
    requires OnOrBefore(p.date, endDate) && p.balance == MoneyInHand(txs, p.date, target, rates)
    ensures ChartSoFar(points + [p], txs, startDate, endDate, intervalDays, target, rates)
    ensures DayNumber(p.date) + intervalDays == DayNumber(startDate) + (|points| + 1) * intervalDays
  {
    var k := |points|;
    assert (k + 1) * intervalDays == k * intervalDays + intervalDays;
    forall i | 0 <= i < k + 1
      ensures var q := (points + [p])[i];
        DayNumber(q.date) == DayNumber(startDate) + i * intervalDays &&
        OnOrBefore(q.date, endDate) && q.balance == MoneyInHand(txs, q.date, target, rates)
    {
      if i < k {
        assert (points + [p])[i] == points[i];
      }
    }
  }

  /** Income and expense totals of a date range. */
  datatype IncomeExpense = IncomeExpense(income: real, expense: real)

  predicate InRange(tx: Transaction, startDate: Date, endDate: Date) {
    OnOrBefore(startDate, tx.applicabilityDate) && OnOrBefore(tx.applicabilityDate, endDate)
  }

  function Converted(tx: Transaction, target: Option<string>, rates: Option<Rates>): real {
    Convert(tx.amount, tx.currency, target, rates)
  }

  /** `calculateIncomeVsExpense`: separate sums of the converted income and
      expense amounts dated within the range, both ends included. */
  function IncomeVsExpense(txs: seq<Transaction>, startDate: Date, endDate: Date,
                           target: Option<string>, rates: Option<Rates>): IncomeExpense
  {
    var inRange := Filter(txs, (tx: Transaction) => InRange(tx, startDate, endDate));
    IncomeExpense(
      Sum(Filter(inRange, (tx: Transaction) => tx.kind == Income), (tx: Transaction) => Converted(tx, target, rates)),
      Sum(Filter(inRange, (tx: Transaction) => tx.kind == Expense), (tx: Transaction) => Converted(tx, target, rates)))
  }

  /** Both totals start at 0, and a further transaction adds its converted
      amount to the total of its type exactly when it is dated within the
      range, both ends included. */
  lemma IncomeVsExpenseStep(txs: seq<Transaction>, tx: Transaction, startDate: Date, endDate: Date,
                            target: Option<string>, rates: Option<Rates>)
    ensures IncomeVsExpense([], startDate, endDate, target, rates) == IncomeExpense(0.0, 0.0)
    ensures var before := IncomeVsExpense(txs, startDate, endDate, target, rates);
      var after := IncomeVsExpense(txs + [tx], startDate, endDate, target, rates);
      var counted := InRange(tx, startDate, endDate);
      after.income == before.income + (if counted && tx.kind == Income then Converted(tx, target, rates) else 0.0) &&
      after.expense == before.expense + (if counted && tx.kind == Expense then Converted(tx, target, rates) else 0.0)
  {
    var r := (t: Transaction) => InRange(t, startDate, endDate);
    var isIncome := (t: Transaction) => t.kind == Income;
    var isExpense := (t: Transaction) => t.kind == Expense;
    var f := (t: Transaction) => Converted(t, target, rates);
    FilterAppend(txs, [tx], r);
    assert Filter([tx], r) == Filter([], r) + (if r(tx) then [tx] else []);
    var head := Filter(txs, r);
    var one := Filter([tx], r);
    FilterAppend(head, one, isIncome);
    FilterAppend(head, one, isExpense);
    SumAppend(Filter(head, isIncome), Filter(one, isIncome), f);
    SumAppend(Filter(head, isExpense), Filter(one, isExpense), f);
    if r(tx) {
      assert Filter([tx], isIncome) == Filter([], isIncome) + (if isIncome(tx) then [tx] else []);
      assert Filter([tx], isExpense) == Filter([], isExpense) + (if isExpense(tx) then [tx] else []);
      assert Sum([tx], f) == Sum([], f) + f(tx);
    }
  }

  /** Income minus expense over the range is the range's converted net total. */
  lemma IncomeMinusExpenseIsNet(txs: seq<Transaction>, startDate: Date, endDate: Date,
                                target: Option<string>, rates: Option<Rates>)
    ensures var ie := IncomeVsExpense(txs, startDate, endDate, target, rates);
      ie.income - ie.expense == Total(Filter(txs, (tx: Transaction) => InRange(tx, startDate, endDate)), target, rates)
  {
    var inRange := Filter(txs, (tx: Transaction) => InRange(tx, startDate, endDate));
    var f := (t: Transaction) => Converted(t, target, rates);
    var gi := (t: Transaction) => if t.kind == Income then f(t) else 0.0;
    var ge := (t: Transaction) => if t.kind == Expense then f(t) else 0.0;
    SumFilter(inRange, (t: Transaction) => t.kind == Income, f, gi);
    SumFilter(inRange, (t: Transaction) => t.kind == Expense, f, ge);
    SumPointwise(inRange, (t: Transaction) => Contribution(t, target, rates), ge, gi);
  }
}
