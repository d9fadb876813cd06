/** The home screen's derived figures: the `FROM_TO` rate table built from
    the cached rates (the latest-dated rate of each pair wins), the total
    balance, the number of transactions up to the selected day and the five
    most recent of them. */
module HomePage {
  import opened Calendar
  import opened Domain
  import opened Seqs
  import opened Sorting
  import opened Text
  import opened Balance

  /** The key a cached rate is filed under in the table. */
  function Key(e: ExchangeRateCache): string {
    RateKey(e.fromCurrency, e.toCurrency)
  }

  /** `a.date.localeCompare(b.date)` as an order: earlier dates first. */
  predicate EarlierFirst(a: ExchangeRateCache, b: ExchangeRateCache) {
    LexLe(a.date, b.date)
  }

  lemma EarlierFirstIsPreorder()
    ensures TotalPreorder(EarlierFirst)
  {
    forall a: ExchangeRateCache, b: ExchangeRateCache
      ensures EarlierFirst(a, b) || EarlierFirst(b, a)
    {
      LexTotal(a.date, b.date);
    }
    forall a: ExchangeRateCache, b: ExchangeRateCache, c: ExchangeRateCache | EarlierFirst(a, b) && EarlierFirst(b, c)
      ensures EarlierFirst(a, c)
    {
      LexTransitive(a.date, b.date, c.date);
    }
  }

  /** `rateMap.set(key, rate)` for each entry in turn: a later entry
      overwrites an earlier one with the same key. */
  function RateFold(s: seq<ExchangeRateCache>): map<string, real> {
    if |s| == 0 then map[] else RateFold(s[..|s| - 1])[Key(s[|s| - 1]) := s[|s| - 1].rate]
  }

  /** `rate` is the rate of an entry of `s` under key `k` dated no earlier
      than any other entry of `s` under that key. */
  ghost predicate LatestOf(s: seq<ExchangeRateCache>, k: string, rate: real) {
    exists e :: e in s && Key(e) == k && e.rate == rate &&
      forall e' :: e' in s && Key(e') == k ==> LexLe(e'.date, e.date)
  }

  /** Folding entries sorted by date leaves one key per pair present, each
      holding the rate of the pair's latest-dated entry. */
  lemma {:induction false} FoldKeepsLatest(s: seq<ExchangeRateCache>)
    requires SortedWith(s, EarlierFirst)
    ensures forall k :: k in RateFold(s) <==> exists e :: e in s && Key(e) == k
    ensures forall k :: k in RateFold(s) ==> LatestOf(s, k, RateFold(s)[k])
    decreases |s|
  {
    if |s| > 0 {
      var init := s[..|s| - 1];
      var x := s[|s| - 1];
      assert s == init + [x];
      FoldKeepsLatest(init);
      var m := RateFold(s);
      forall k | k in m
        ensures LatestOf(s, k, m[k])
      {
        if k == Key(x) {
          forall e' | e' in s && Key(e') == k
            ensures LexLe(e'.date, x.date)
          {
            if e' in init {
              var j :| 0 <= j < |init| && init[j] == e';
              assert EarlierFirst(s[j], s[|s| - 1]);
            } else {
              LexTotal(x.date, x.date);
            }
          }
        } else {
          assert k in RateFold(init) && m[k] == RateFold(init)[k];
          assert LatestOf(init, k, m[k]);
          var e :| e in init && Key(e) == k && e.rate == m[k] &&
            forall e' :: e' in init && Key(e') == k ==> LexLe(e'.date, e.date);
          assert e in s;
        }
      }
    }
  }

  /** The rate table built in `loadData`: the cached rates sorted by date,
      earliest first, then set into the table one by one. */
  method BuildRateMap(ratesList: seq<ExchangeRateCache>) returns (rateMap: map<string, real>)
    ensures forall k :: k in rateMap <==> exists e :: e in ratesList && Key(e) == k
    ensures forall k :: k in rateMap ==> LatestOf(ratesList, k, rateMap[k])
  {
    EarlierFirstIsPreorder();
    var sortedRates := SortWith(ratesList, EarlierFirst);
    rateMap := map[];
    for i := 0 to |sortedRates|
      invariant rateMap == RateFold(sortedRates[..i])
    {
      assert sortedRates[..i + 1][..i] == sortedRates[..i];
      rateMap := rateMap[Key(sortedRates[i]) := sortedRates[i].rate];
    }
    assert sortedRates[..|sortedRates|] == sortedRates;
    FoldKeepsLatest(sortedRates);
    assert forall e :: e in sortedRates <==> e in ratesList by {
      forall e
        ensures e in sortedRates <==> e in ratesList
      {
        assert e in sortedRates <==> e in multiset(sortedRates);
      }
    }
  }

  /** `moneyInHand + projectedMoney` in the primary currency. */
  function ShownTotalBalance(txs: seq<Transaction>, selected: Date, primary: Option<string>, rates: Rates): real {
    MoneyInHand(txs, selected, primary, Some(rates)) + ProjectedMoney(txs, selected, primary, Some(rates))
  }

  /** The total shown is the converted total of every transaction, whatever
      the selected day. */
  lemma ShownTotalIsTotal(txs: seq<Transaction>, selected: Date, primary: Option<string>, rates: Rates)
    ensures ShownTotalBalance(txs, selected, primary, rates) == TotalBalance(txs, primary, Some(rates))
  {
    BalancePartition(txs, selected, primary, Some(rates));
  }

  /** The transactions dated on or before the selected day. */
  function UpTo(txs: seq<Transaction>, selected: Date): seq<Transaction> {
    Filter(txs, (tx: Transaction) => OnOrBefore(tx.applicabilityDate, selected))
  }

  /** The transaction count shown on the home screen. */
  function TransactionCount(txs: seq<Transaction>, selected: Date): nat {
    |UpTo(txs, selected)|
  }

  /** The count and the number of transactions still to come add up to
      all transactions. */
  lemma CountSplitsTransactions(txs: seq<Transaction>, selected: Date)
    ensures TransactionCount(txs, selected) +
      |Filter(txs, (tx: Transaction) => Before(selected, tx.applicabilityDate))| == |txs|
  {
    var p := (tx: Transaction) => OnOrBefore(tx.applicabilityDate, selected);
    var q := (tx: Transaction) => Before(selected, tx.applicabilityDate);
    FilterPartition(txs, p, q);
    assert |multiset(Filter(txs, p)) + multiset(Filter(txs, q))| == |multiset(txs)|;
  }

  /** The "Recent Transactions" list: up to five transactions dated on or
      before the selected day, latest first. */
  function RecentTransactions(txs: seq<Transaction>, selected: Date): (r: seq<Transaction>)
    ensures |r| == if |UpTo(txs, selected)| < 5 then |UpTo(txs, selected)| else 5
    ensures forall t :: t in r ==> t in txs && OnOrBefore(t.applicabilityDate, selected)
    ensures SortedWith(r, TxLaterFirst)
  {
    TxLaterFirstIsPreorder();
    var kept := UpTo(txs, selected);
    var sorted := SortWith(kept, TxLaterFirst);
    TakeOfSorted(kept, sorted, 5);
    Take(sorted, 5)
  }

  /** A prefix of a later-first ordering of `kept` is itself ordered and
      holds only elements of `kept`. */
  lemma TakeOfSorted(kept: seq<Transaction>, sorted: seq<Transaction>, n: nat)
    requires multiset(sorted) == multiset(kept) && SortedWith(sorted, TxLaterFirst)
    ensures |Take(sorted, n)| == if |kept| < n then |kept| else n
    ensures forall t :: t in Take(sorted, n) ==> t in kept
    ensures SortedWith(Take(sorted, n), TxLaterFirst)
  {
    assert |sorted| == |multiset(sorted)| == |multiset(kept)| == |kept|;
    forall t | t in Take(sorted, n)
      ensures t in kept
    {
      assert t in multiset(sorted);
    }
  }

  /** No transaction dated on or before the selected day is left out of the
      recent list while an earlier-dated one is in it. */
  lemma RecentAreLatest(txs: seq<Transaction>, selected: Date, t: Transaction, x: Transaction)
    requires t in txs && OnOrBefore(t.applicabilityDate, selected)
    requires x in RecentTransactions(txs, selected)
    requires DayNumber(x.applicabilityDate) < DayNumber(t.applicabilityDate)
    ensures t in RecentTransactions(txs, selected)
  {
    TxLaterFirstIsPreorder();
    var kept := UpTo(txs, selected);
    var sorted := SortWith(kept, TxLaterFirst);
    var r := RecentTransactions(txs, selected);
    assert r == Take(sorted, 5);
    assert t in multiset(sorted) by {
      assert t in kept;
    }
    var j :| 0 <= j < |sorted| && sorted[j] == t;
    var i :| 0 <= i < |r| && r[i] == x;
    assert sorted[i] == x;
    assert j < |r|;
    assert r[j] == t;
  }
}
