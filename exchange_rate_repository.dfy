/** The exchange-rate cache: entries keyed `FROM_TO_DATE`, looked up by key,
    replaced by id, and searched for the latest-dated entry of a pair. */
module ExchangeRateRepository {
  import opened Domain
  import opened Seqs
  import opened Sorting
  import opened Text
  import opened Store

  /** The key an entry for `from` → `to` on `date` is stored under. */
  function RateId(from: string, to: string, date: string): string {
    from + "_" + to + "_" + date
  }

  /** `getRate`: the entry stored under `FROM_TO_DATE`, if any. */
  method GetRate(db: Database, from: string, to: string, date: string) returns (r: Option<ExchangeRateCache>)
    requires db.Valid()
    ensures r.Some? <==> RateId(from, to, date) in db.exchangeRates
    ensures r.Some? ==> r.value == db.exchangeRates[RateId(from, to, date)] && r.value.id == RateId(from, to, date)
  {
    var id := RateId(from, to, date);
    if id in db.exchangeRates {
      r := Some(db.exchangeRates[id]);
    } else {
      r := None;
    }
  }

  /** `saveRate`: puts the entry under its id, replacing any entry there. */
  method SaveRate(db: Database, rate: ExchangeRateCache)
    requires db.Valid()
    modifies db
    ensures db.Valid()
    ensures db.exchangeRates == old(db.exchangeRates)[rate.id := rate]
    ensures db.streams == old(db.streams) && db.transactions == old(db.transactions)
    ensures db.tags == old(db.tags) && db.settings == old(db.settings)
    ensures db.automations == old(db.automations)
  {
    db.exchangeRates := db.exchangeRates[rate.id := rate];
  }

  /** `findAll`: every stored entry. */
  method FindAll(db: Database) returns (rs: seq<ExchangeRateCache>)
    ensures |rs| == |db.exchangeRates.Keys|
    ensures forall e :: e in rs <==> e in db.exchangeRates.Values
  {
    rs := ValuesOf(db.exchangeRates);
  }

  /** The entry converts `from` into `to`. */
  predicate OfPair(e: ExchangeRateCache, from: string, to: string) {
    e.fromCurrency == from && e.toCurrency == to
  }

  /** `b.date.localeCompare(a.date)` as an order: later dates first. */
  predicate LaterFirst(a: ExchangeRateCache, b: ExchangeRateCache) {
    LexLe(b.date, a.date)
  }

  lemma LaterFirstIsPreorder()
    ensures TotalPreorder(LaterFirst)
  {
    forall a: ExchangeRateCache, b: ExchangeRateCache
      ensures LaterFirst(a, b) || LaterFirst(b, a)
    {
      LexTotal(a.date, b.date);
    }
    forall a: ExchangeRateCache, b: ExchangeRateCache, c: ExchangeRateCache | LaterFirst(a, b) && LaterFirst(b, c)
      ensures LaterFirst(a, c)
    {
      LexTransitive(c.date, b.date, a.date);
    }
  }

  /** The head of a later-first ordering of `logs` is dated no earlier
      than any of them. */
  lemma HeadIsLatest(logs: seq<ExchangeRateCache>, sorted: seq<ExchangeRateCache>)
    requires |logs| > 0 && multiset(sorted) == multiset(logs) && SortedWith(sorted, LaterFirst)
    ensures |sorted| > 0 && sorted[0] in logs
    ensures forall e :: e in logs ==> LexLe(e.date, sorted[0].date)
  {
    assert |sorted| == |multiset(logs)| == |logs|;
    assert sorted[0] in multiset(logs);
    forall e | e in logs
      ensures LexLe(e.date, sorted[0].date)
    {
      assert e in multiset(sorted);
      var j :| 0 <= j < |sorted| && sorted[j] == e;
      if j > 0 {
        assert LaterFirst(sorted[0], sorted[j]);
      } else {
        LexTotal(e.date, e.date);
      }
    }
  }

  /** `getLatestRate`: none when the pair has no entry; otherwise the first
      entry of the pair's entries sorted by date, latest first. */
  method GetLatestRate(db: Database, from: string, to: string) returns (r: Option<ExchangeRateCache>)
    ensures r.None? <==> forall e :: e in db.exchangeRates.Values ==> !OfPair(e, from, to)
    ensures r.Some? ==>
      r.value in db.exchangeRates.Values && OfPair(r.value, from, to) &&
      forall e :: e in db.exchangeRates.Values && OfPair(e, from, to) ==> LexLe(e.date, r.value.date)
  {
    var all := FindAll(db);
    var logs := Filter(all, (e: ExchangeRateCache) => OfPair(e, from, to));
    if |logs| == 0 {
      return None;
    }
    LaterFirstIsPreorder();
    var sorted := SortWith(logs, LaterFirst);
    HeadIsLatest(logs, sorted);
    r := Some(sorted[0]);
  }
}
