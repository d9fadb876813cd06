/** The start-up work of the repository provider: when no rate into the
    primary currency is dated today, derive FROM → primary rates for the
    common currencies from a USD-based rate table and cache them; then, in
    any case, run the automations for today. */
module RepositoryContext {
  import opened Calendar
  import opened Domain
  import opened Text
  import opened Store
  import ExchangeRateRepository
  import SettingsRepository
  import AutomationService
  import TransactionRepository

  /** The outcome of the rate download, which is a network call: no API key
      configured, a failed request, or the USD-based table and its date
      (already normalised to `YYYY-MM-DD`). */
  datatype FetchOutcome = NoApiKey | FetchFailed | Fetched(usdRates: map<string, real>, date: string)

  /** `allRates.some(r => r.toCurrency === base && r.date.startsWith(today))`. */
  predicate HasTodayRates(all: seq<ExchangeRateCache>, base: string, today: string) {
    exists e :: e in all && e.toCurrency == base && StartsWith(e.date, today)
  }

  /** How many units of `code` one US dollar buys, when the table knows it
      and it is non-zero (`usdRates[code]` is falsy otherwise); one for USD. */
  function UsdTo(code: string, usdRates: map<string, real>): (r: Option<real>)
    ensures r.Some? ==> r.value != 0.0
    ensures code == "USD" ==> r == Some(1.0)
  {
    if code == "USD" then Some(1.0)
    else if code in usdRates && usdRates[code] != 0.0 then Some(usdRates[code])
    else None
  }

  /** The entry saved for `from`: `usdToPrimary / usdToFrom`, filed under
      `FROM_BASE_DATE`, so that one unit of `from` is worth as many units of
      `base` as the two dollar rates imply. */
  function CrossRate(from: string, base: string, usdToPrimary: real, usdToFrom: real, date: string, now: int): (r: ExchangeRateCache)
    requires usdToFrom != 0.0
    ensures r.fromCurrency == from && r.toCurrency == base && r.date == date
    ensures r.id == ExchangeRateRepository.RateId(from, base, date)
    ensures r.rate * usdToFrom == usdToPrimary
  {
    ExchangeRateCache(ExchangeRateRepository.RateId(from, base, date), from, base, usdToPrimary / usdToFrom, date, now)
  }

  /** The entries the loop saves for `codes`, in order: none for the base
      currency itself or for a code without a usable USD rate. */
  function EntriesFor(codes: seq<string>, base: string, usdToPrimary: real, usdRates: map<string, real>,
                      date: string, now: int): seq<ExchangeRateCache>
  {
    if |codes| == 0 then []
    else
      var from := codes[|codes| - 1];
      EntriesFor(codes[..|codes| - 1], base, usdToPrimary, usdRates, date, now) +
      (if from == base || UsdTo(from, usdRates).None? then []
       else [CrossRate(from, base, usdToPrimary, UsdTo(from, usdRates).value, date, now)])
  }

  /** Everything the rate step saves: nothing when the primary currency is
      not USD and the table has no usable rate for it. */
  function CrossRateEntries(base: string, usdRates: map<string, real>, date: string, now: int): seq<ExchangeRateCache> {
    if UsdTo(base, usdRates).None? then []
    else EntriesFor(CommonCurrencies, base, UsdTo(base, usdRates).value, usdRates, date, now)
  }

  /** A saved entry converts into the primary currency consistently with the
      USD table: converting one unit of `from` at its rate gives what the
      table says a dollar's worth of `from` is worth in the primary currency. */
  predicate Consistent(e: ExchangeRateCache, base: string, usdRates: map<string, real>, date: string) {
    e.toCurrency == base && e.fromCurrency != base && e.date == date &&
    e.id == ExchangeRateRepository.RateId(e.fromCurrency, base, date) &&
    UsdTo(e.fromCurrency, usdRates).Some? && UsdTo(base, usdRates).Some? &&
    e.rate * UsdTo(e.fromCurrency, usdRates).value == UsdTo(base, usdRates).value
  }

  lemma {:induction false} EntriesForSpec(codes: seq<string>, base: string, usdRates: map<string, real>, date: string, now: int)
    requires UsdTo(base, usdRates).Some?
    ensures var es := EntriesFor(codes, base, UsdTo(base, usdRates).value, usdRates, date, now);
      (forall e :: e in es ==> e.fromCurrency in codes && Consistent(e, base, usdRates, date)) &&
      (forall c :: c in codes && c != base && UsdTo(c, usdRates).Some? ==> exists e :: e in es && e.fromCurrency == c)
    decreases |codes|
  {
    if |codes| > 0 {
      var init := codes[..|codes| - 1];
      var from := codes[|codes| - 1];
      var p := UsdTo(base, usdRates).value;
      EntriesForSpec(init, base, usdRates, date, now);
      assert codes == init + [from];
      if from != base && UsdTo(from, usdRates).Some? {
        var q := UsdTo(from, usdRates).value;
        var e := CrossRate(from, base, p, q, date, now);
        assert e.rate * q == p;
        assert e in EntriesFor(codes, base, p, usdRates, date, now);
      }
    }
  }

  /** What the rate step saves: only entries into the primary currency,
      consistent with the USD table, one for every other common currency the
      table has a usable rate for, and nothing without a usable rate for the
      primary currency itself. */
  lemma CrossRateEntriesSpec(base: string, usdRates: map<string, real>, date: string, now: int)
    ensures UsdTo(base, usdRates).None? ==> CrossRateEntries(base, usdRates, date, now) == []
    ensures forall e :: e in CrossRateEntries(base, usdRates, date, now) ==>
      e.fromCurrency in CommonCurrencies && Consistent(e, base, usdRates, date)
    ensures UsdTo(base, usdRates).Some? ==>
      forall c :: c in CommonCurrencies && c != base && UsdTo(c, usdRates).Some? ==>
        exists e :: e in CrossRateEntries(base, usdRates, date, now) && e.fromCurrency == c
  {
    if UsdTo(base, usdRates).Some? {
      EntriesForSpec(CommonCurrencies, base, usdRates, date, now);
    }
  }

  /** The cache after saving the entries in order. */
  function PutRates(m: map<string, ExchangeRateCache>, es: seq<ExchangeRateCache>): map<string, ExchangeRateCache> {
    if |es| == 0 then m else PutRates(m, es[..|es| - 1])[es[|es| - 1].id := es[|es| - 1]]
  }

  /** Entries filed for different currencies into the same currency on the
      same date get different ids. */
  lemma RateIdsDiffer(a: string, b: string, base: string, date: string)
    ensures ExchangeRateRepository.RateId(a, base, date) == ExchangeRateRepository.RateId(b, base, date) ==> a == b
  {
    var tail := "_" + base + "_" + date;
    assert ExchangeRateRepository.RateId(a, base, date) == a + tail;
    assert ExchangeRateRepository.RateId(b, base, date) == b + tail;
    if a + tail == b + tail {
      assert |a| == |b|;
      assert a == (a + tail)[..|a|];
      assert b == (b + tail)[..|b|];
    }
  }

  /** No two entries share an id. */
  predicate DistinctIds(es: seq<ExchangeRateCache>) {
    forall i, j :: 0 <= i < j < |es| ==> es[i].id != es[j].id
  }

  lemma {:induction false} EntriesForDistinct(codes: seq<string>, base: string, usdToPrimary: real,
                                              usdRates: map<string, real>, date: string, now: int)
    requires forall i, j :: 0 <= i < j < |codes| ==> codes[i] != codes[j]
    ensures var es := EntriesFor(codes, base, usdToPrimary, usdRates, date, now);
      DistinctIds(es) &&
      (forall e :: e in es ==> e.fromCurrency in codes && e.id == ExchangeRateRepository.RateId(e.fromCurrency, base, date))
    decreases |codes|
  {
    if |codes| > 0 {
      var init := codes[..|codes| - 1];
      var from := codes[|codes| - 1];
      EntriesForDistinct(init, base, usdToPrimary, usdRates, date, now);
      var head := EntriesFor(init, base, usdToPrimary, usdRates, date, now);
      assert codes == init + [from];
      if from != base && UsdTo(from, usdRates).Some? {
        var e := CrossRate(from, base, usdToPrimary, UsdTo(from, usdRates).value, date, now);
        var es := head + [e];
        forall i | 0 <= i < |head|
          ensures head[i].id != e.id
        {
          assert head[i] in head;
          assert from !in init;
          RateIdsDiffer(head[i].fromCurrency, from, base, date);
        }
        forall i, j | 0 <= i < j < |es|
          ensures es[i].id != es[j].id
        {
          if j < |head| {
            assert es[i] == head[i] && es[j] == head[j];
          } else {
            assert es[i] == head[i] && es[j] == e;
          }
        }
      } else {
        assert EntriesFor(codes, base, usdToPrimary, usdRates, date, now) == head + [];
      }
    }
  }

  /** Saving entries with distinct ids stores every one of them. */
  lemma {:induction false} PutRatesStores(m: map<string, ExchangeRateCache>, es: seq<ExchangeRateCache>)
    requires DistinctIds(es)
    ensures forall e :: e in es ==> e.id in PutRates(m, es) && PutRates(m, es)[e.id] == e
    decreases |es|
  {
    if |es| > 0 {
      var init := es[..|es| - 1];
      var x := es[|es| - 1];
      PutRatesStores(m, init);
      forall e | e in es
        ensures e.id in PutRates(m, es) && PutRates(m, es)[e.id] == e
      {
        if e != x {
          var j :| 0 <= j < |es| && es[j] == e;
          assert j < |es| - 1;
          assert e in init;
        }
      }
    }
  }

  /** After the rate step, looking up a derived entry by its currencies and
      date finds exactly that entry. */
  lemma SavedRatesReadBack(m: map<string, ExchangeRateCache>, base: string, usdRates: map<string, real>, date: string, now: int)
    ensures forall e :: e in CrossRateEntries(base, usdRates, date, now) ==>
      ExchangeRateRepository.RateId(e.fromCurrency, e.toCurrency, date) in PutRates(m, CrossRateEntries(base, usdRates, date, now)) &&
      PutRates(m, CrossRateEntries(base, usdRates, date, now))[ExchangeRateRepository.RateId(e.fromCurrency, e.toCurrency, date)] == e
  {
    if UsdTo(base, usdRates).Some? {
      EntriesForDistinct(CommonCurrencies, base, UsdTo(base, usdRates).value, usdRates, date, now);
      CrossRateEntriesSpec(base, usdRates, date, now);
      PutRatesStores(m, CrossRateEntries(base, usdRates, date, now));
    }
  }

  /** The loop over the common currencies that saves each derived rate. */
  method SaveCrossRates(db: Database, base: string, usdRates: map<string, real>, date: string, now: int)
    requires db.Valid()
    modifies db
    ensures db.Valid()
    ensures db.exchangeRates == PutRates(old(db.exchangeRates), CrossRateEntries(base, usdRates, date, now))
    ensures db.streams == old(db.streams) && db.transactions == old(db.transactions)
    ensures db.tags == old(db.tags) && db.settings == old(db.settings)
    ensures db.automations == old(db.automations)
  {
    var usdToPrimary := UsdTo(base, usdRates);
    if usdToPrimary.None? {
      return;
    }
    var codes := CommonCurrencies;
    for i := 0 to |codes|
      invariant db.Valid()
      invariant db.exchangeRates == PutRates(old(db.exchangeRates), EntriesFor(codes[..i], base, usdToPrimary.value, usdRates, date, now))
      invariant db.streams == old(db.streams) && db.transactions == old(db.transactions)
      invariant db.tags == old(db.tags) && db.settings == old(db.settings)
      invariant db.automations == old(db.automations)
    {
      var from := codes[i];
      EntriesForStep(codes, i, base, usdToPrimary.value, usdRates, date, now);
      if from == base {
        continue;
      }
      var usdToFrom := UsdTo(from, usdRates);
      if usdToFrom.None? {
        continue;
      }
      var entry := CrossRate(from, base, usdToPrimary.value, usdToFrom.value, date, now);
      ghost var done := EntriesFor(codes[..i], base, usdToPrimary.value, usdRates, date, now);
      ExchangeRateRepository.SaveRate(db, entry);
      PutRatesSnoc(old(db.exchangeRates), done, entry);
    }
    assert codes[..|codes|] == codes;
  }

  /** The entries for one more code: those before, then this code's entry
      unless it is the primary currency or has no usable rate. */
  lemma EntriesForStep(codes: seq<string>, i: int, base: string, usdToPrimary: real, usdRates: map<string, real>,
                       date: string, now: int)
    requires 0 <= i < |codes|
    ensures codes[i] == base || UsdTo(codes[i], usdRates).None? ==>
      EntriesFor(codes[..i + 1], base, usdToPrimary, usdRates, date, now) ==
      EntriesFor(codes[..i], base, usdToPrimary, usdRates, date, now)
    ensures codes[i] != base && UsdTo(codes[i], usdRates).Some? ==>
      EntriesFor(codes[..i + 1], base, usdToPrimary, usdRates, date, now) ==
      EntriesFor(codes[..i], base, usdToPrimary, usdRates, date, now) +
      [CrossRate(codes[i], base, usdToPrimary, UsdTo(codes[i], usdRates).value, date, now)]
  {
    assert codes[..i + 1][..i] == codes[..i];
    var done := EntriesFor(codes[..i], base, usdToPrimary, usdRates, date, now);
    assert done + [] == done;
  }

  /** Putting one more entry is one more map update. */
  lemma PutRatesSnoc(m: map<string, ExchangeRateCache>, done: seq<ExchangeRateCache>, e: ExchangeRateCache)
    ensures PutRates(m, done + [e]) == PutRates(m, done)[e.id := e]
  {
    assert (done + [e])[..|done|] == done;
  }

  /** Some cached rate into `base` is dated `today`. */
  predicate FreshFor(m: map<string, ExchangeRateCache>, base: string, today: string) {
    exists e :: e in m.Values && e.toCurrency == base && StartsWith(e.date, today)
  }

  /** The rate step of the initialisation effect: with a settings record
      and no rate into its currency dated today, a successful fetch saves
      the derived cross rates; otherwise nothing changes. */
  method RefreshRates(db: Database, todayText: string, outcome: FetchOutcome, now: int)
    requires db.Valid()
    modifies db
    ensures db.Valid()
    ensures (SettingsId !in old(db.settings) ||
             FreshFor(old(db.exchangeRates), old(db.settings)[SettingsId].primaryCurrency, todayText) ||
             !outcome.Fetched?) ==>
      db.exchangeRates == old(db.exchangeRates)
    ensures (SettingsId in old(db.settings) &&
             !FreshFor(old(db.exchangeRates), old(db.settings)[SettingsId].primaryCurrency, todayText) &&
             outcome.Fetched?) ==>
      db.exchangeRates == PutRates(old(db.exchangeRates),
        CrossRateEntries(old(db.settings)[SettingsId].primaryCurrency, outcome.usdRates, outcome.date, now))
    ensures db.transactions == old(db.transactions) && db.streams == old(db.streams)
    ensures db.tags == old(db.tags) && db.settings == old(db.settings)
    ensures db.automations == old(db.automations)
  {
    var settings := SettingsRepository.Get(db);
    if settings.Some? {
      var base := settings.value.primaryCurrency;
      var allRates := ExchangeRateRepository.FindAll(db);
      assert HasTodayRates(allRates, base, todayText) <==> FreshFor(db.exchangeRates, base, todayText);
      if !HasTodayRates(allRates, base, todayText) && outcome.Fetched? {
        SaveCrossRates(db, base, outcome.usdRates, outcome.date, now);
      }
    }
  }

  /** The initialisation effect after the database opens.  Rates are fetched
      only with a settings record and no rate into its currency dated today;
      the automations for today run afterwards whatever the rate step did. */
  method Initialise(db: Database, today: Date, todayText: string, outcome: FetchOutcome,
                    withStreamRepo: bool, failing: set<string>, now: int)
    returns (created: seq<Transaction>)
    requires db.Valid()
    modifies db
    ensures db.Valid()
    ensures db.automations == AutomationService.MarkedAll(old(db.automations), today, failing)
    ensures (SettingsId !in old(db.settings) ||
             FreshFor(old(db.exchangeRates), old(db.settings)[SettingsId].primaryCurrency, todayText) ||
             !outcome.Fetched?) ==>
      db.exchangeRates == old(db.exchangeRates)
    ensures (SettingsId in old(db.settings) &&
             !FreshFor(old(db.exchangeRates), old(db.settings)[SettingsId].primaryCurrency, todayText) &&
             outcome.Fetched?) ==>
      db.exchangeRates == PutRates(old(db.exchangeRates),
        CrossRateEntries(old(db.settings)[SettingsId].primaryCurrency, outcome.usdRates, outcome.date, now))
    ensures db.transactions == AutomationService.PutAll(old(db.transactions), created)
    ensures db.streams == TransactionRepository.StreamsAfterCreates(old(db.streams), created)
    ensures exists autos: seq<Automation> ::
      |autos| == |old(db.automations).Keys| &&
      (forall a :: a in autos <==> a in old(db.automations).Values) &&
      AutomationService.Payloads(created) == AutomationService.RunLegs(autos, today, old(db.streams), withStreamRepo, failing)
    ensures db.tags == old(db.tags) && db.settings == old(db.settings)
  {
    RefreshRates(db, todayText, outcome, now);
    created := AutomationService.RunAutomationsForDate(db, today, withStreamRepo, failing, now);
  }
}
