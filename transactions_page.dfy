/** The transactions screen: the filtered list (up to the selected day, by
    type, by stream and by an inclusive date window), latest first, shown ten
    at a time, with the converted income and expense totals of the list. */
module TransactionsPage {
  import opened Calendar
  import opened Domain
  import opened Seqs
  import opened Sorting
  import opened Balance

  const TransactionsPerPage: nat := 10

  /** The type filter: `'all' | 'income' | 'expense'`. */
  datatype TypeFilter = AllTypes | OnlyIncome | OnlyExpense

  /** The filter controls.  `stream` is a stream id or the text "all". */
  datatype Filters = Filters(kind: TypeFilter, stream: string, dateFrom: Option<Date>, dateTo: Option<Date>)

  /** The controls as the screen opens. */
  const NoFilters := Filters(AllTypes, "all", None, None)

  predicate KindMatches(f: TypeFilter, k: TxType) {
    match f
    case AllTypes => true
    case OnlyIncome => k == Income
    case OnlyExpense => k == Expense
  }

  /** A transaction passes every filter of the pipeline: dated on or before
      the selected day, of the chosen type and stream, not before `dateFrom`
      and not after the end of `dateTo`'s day. */
  predicate Passes(tx: Transaction, selected: Date, f: Filters) {
    OnOrBefore(tx.applicabilityDate, selected) &&
    KindMatches(f.kind, tx.kind) &&
    (f.stream == "all" || tx.streamId == f.stream) &&
    (f.dateFrom.None? || !Before(tx.applicabilityDate, f.dateFrom.value)) &&
    (f.dateTo.None? || OnOrBefore(tx.applicabilityDate, f.dateTo.value))
  }

  /** The transactions that pass, in input order. */
  function Passing(txs: seq<Transaction>, selected: Date, f: Filters): seq<Transaction> {
    Filter(txs, (tx: Transaction) => Passes(tx, selected, f))
  }

  /** `filteredTransactions`: the passing transactions, latest first. */
  function FilteredTransactions(txs: seq<Transaction>, selected: Date, f: Filters): (r: seq<Transaction>)
    ensures multiset(r) == multiset(Passing(txs, selected, f))
    ensures forall t :: t in r <==> t in txs && Passes(t, selected, f)
    ensures SortedWith(r, TxLaterFirst)
  {
    TxLaterFirstIsPreorder();
    var r := SortWith(Passing(txs, selected, f), TxLaterFirst);
    SameMembers(r, Passing(txs, selected, f));
    r
  }

  /** The converted amounts of the list's transactions of one type, summed
      (`totalIncome` for income, `totalExpense` for expense). */
  function TotalOf(list: seq<Transaction>, k: TxType, primary: Option<string>, rates: Rates): real {
    Sum(Filter(list, (tx: Transaction) => tx.kind == k), (tx: Transaction) => Converted(tx, primary, Some(rates)))
  }

  /** Income less expense of the filtered list is the converted net total of
      the passing transactions, whatever their order. */
  lemma NetOfFiltered(txs: seq<Transaction>, selected: Date, f: Filters, primary: Option<string>, rates: Rates)
    ensures TotalOf(FilteredTransactions(txs, selected, f), Income, primary, rates) -
      TotalOf(FilteredTransactions(txs, selected, f), Expense, primary, rates) ==
      Total(Passing(txs, selected, f), primary, Some(rates))
  {
    var list := FilteredTransactions(txs, selected, f);
    var conv := (t: Transaction) => Converted(t, primary, Some(rates));
    var gi := (t: Transaction) => if t.kind == Income then conv(t) else 0.0;
    var ge := (t: Transaction) => if t.kind == Expense then conv(t) else 0.0;
    SumFilter(list, (t: Transaction) => t.kind == Income, conv, gi);
    SumFilter(list, (t: Transaction) => t.kind == Expense, conv, ge);
    SumPointwise(list, (t: Transaction) => Contribution(t, primary, Some(rates)), ge, gi);
    SumPermutation(list, Passing(txs, selected, f), (t: Transaction) => Contribution(t, primary, Some(rates)));
  }

  /** With no filter set, the list's net total is the money in hand on the
      selected day. */
  lemma UnfilteredNetIsMoneyInHand(txs: seq<Transaction>, selected: Date, primary: Option<string>, rates: Rates)
    ensures TotalOf(FilteredTransactions(txs, selected, NoFilters), Income, primary, rates) -
      TotalOf(FilteredTransactions(txs, selected, NoFilters), Expense, primary, rates) ==
      MoneyInHand(txs, selected, primary, Some(rates))
  {
    NetOfFiltered(txs, selected, NoFilters, primary, rates);
    FilterCongruent(txs, (tx: Transaction) => Passes(tx, selected, NoFilters),
      (tx: Transaction) => OnOrBefore(tx.applicabilityDate, selected));
  }

  /** The screen's paging state. */
  class Page {
    var filters: Filters
    var displayCount: nat

    constructor()
      ensures filters == NoFilters && displayCount == TransactionsPerPage
    {
      filters := NoFilters;
      displayCount := TransactionsPerPage;
    }

    /** `displayedTransactions`: the first `displayCount` items of the list.
        Something is left unshown exactly when `HasMore` holds. */
    function Displayed(txs: seq<Transaction>, selected: Date): (r: seq<Transaction>)
      reads this
      ensures |r| == if displayCount < |FilteredTransactions(txs, selected, filters)| then displayCount
                     else |FilteredTransactions(txs, selected, filters)|
      ensures r == FilteredTransactions(txs, selected, filters)[..|r|]
      ensures HasMore(txs, selected) <==> |r| < |FilteredTransactions(txs, selected, filters)|
    {
      Take(FilteredTransactions(txs, selected, filters), displayCount)
    }

    /** `hasMore`. */
    predicate HasMore(txs: seq<Transaction>, selected: Date)
      reads this
    {
      displayCount < |FilteredTransactions(txs, selected, filters)|
    }

    /** `handleLoadMore`: ten more items; what was shown stays shown, in
        place. */
    method HandleLoadMore()
      modifies this
      ensures displayCount == old(displayCount) + TransactionsPerPage && filters == old(filters)
      ensures forall txs, selected :: old(Displayed(txs, selected)) <= Displayed(txs, selected)
    {
      displayCount := displayCount + TransactionsPerPage;
    }
  }
}
