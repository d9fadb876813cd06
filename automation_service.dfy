/** The automation runner: for one calendar day, every active monthly
    automation scheduled on that day of the month and not yet run that day
    creates its transactions through the transaction repository and is
    stamped with the day. */
module AutomationService {
  import opened Calendar
  import opened Domain
  import opened Store
  import TransactionRepository
  import Projections
  import Seqs

  type NewTransaction = TransactionRepository.NewTransaction

  /** The automation runs on `date`: active, monthly, scheduled on that day
      of the month (a numeric day equal to it), and not already run on that
      calendar day. */
  predicate Acts(a: Automation, date: Date) {
    a.isActive &&
    a.schedule.frequency == ScheduleMonthly &&
    a.schedule.day == Some(date.day) &&
    a.lastRunAt != Some(date)
  }

  /** `inferCurrency`: the automation's own currency, else (when a stream
      repository is supplied and the leg has a stream) that stream's base
      currency, else `EGP`. */
  function InferCurrency(a: Automation, streamId: string, streams: map<string, Stream>, withStreamRepo: bool): (c: string)
    ensures c != ""
    ensures Truthy(a.currency) ==> c == a.currency.value
    ensures (!Truthy(a.currency) && withStreamRepo && streamId != "" && streamId in streams &&
             streams[streamId].baseCurrency != "") ==>
      c == streams[streamId].baseCurrency
    ensures (!Truthy(a.currency) &&
             (!withStreamRepo || streamId == "" || streamId !in streams || streams[streamId].baseCurrency == "")) ==>
      c == "EGP"
  {
    if Truthy(a.currency) then a.currency.value
    else if !withStreamRepo || streamId == "" then "EGP"
    else if streamId in streams && streams[streamId].baseCurrency != "" then streams[streamId].baseCurrency
    else "EGP"
  }

  /** Stores that differ at most in card usage. */
  predicate SameCurrencies(s1: map<string, Stream>, s2: map<string, Stream>) {
    s1.Keys == s2.Keys && forall k :: k in s1 ==> s1[k].baseCurrency == s2[k].baseCurrency
  }

  /** Creating a transaction does not change any leg's currency. */
  lemma CurrencyIgnoresUsage(a: Automation, streamId: string, s1: map<string, Stream>, s2: map<string, Stream>, w: bool)
    requires SameCurrencies(s1, s2)
    ensures InferCurrency(a, streamId, s1, w) == InferCurrency(a, streamId, s2, w)
  {
  }

  /** One transaction the runner creates for `a` on `date`. */
  function RunnerLeg(a: Automation, streamId: string, kind: TxType, date: Date,
                     streams: map<string, Stream>, w: bool): NewTransaction
  {
    TransactionRepository.NewTransaction(streamId, a.amount, InferCurrency(a, streamId, streams, w),
      date, kind, [], None, Some(a.name))
  }

  /** The transactions the runner creates for an automation that acts:
      salary an income on the target; transfer an expense on the source and
      an income on the target, each when that stream is set; card payment
      both, only when both streams are set; other types nothing. */
  function RunnerLegs(a: Automation, date: Date, streams: map<string, Stream>, w: bool): (legs: seq<NewTransaction>)
    ensures |legs| <= 2
    ensures forall i :: 0 <= i < |legs| ==>
      legs[i].applicabilityDate == date && legs[i].amount == a.amount &&
      legs[i].description == Some(a.name) && legs[i].recurrenceId.None? && legs[i].tags == [] &&
      legs[i].currency == InferCurrency(a, legs[i].streamId, streams, w)
    ensures forall i :: 0 <= i < |legs| && legs[i].kind == Income ==>
      Truthy(a.targetStreamId) && legs[i].streamId == a.targetStreamId.value
    ensures forall i :: 0 <= i < |legs| && legs[i].kind == Expense ==>
      Truthy(a.sourceStreamId) && legs[i].streamId == a.sourceStreamId.value
  {
    match a.kind
    case Salary =>
      if Truthy(a.targetStreamId) then [RunnerLeg(a, a.targetStreamId.value, Income, date, streams, w)] else []
    case Transfer =>
      (if Truthy(a.sourceStreamId) then [RunnerLeg(a, a.sourceStreamId.value, Expense, date, streams, w)] else []) +
      (if Truthy(a.targetStreamId) then [RunnerLeg(a, a.targetStreamId.value, Income, date, streams, w)] else [])
    case CcPayment =>
      if Truthy(a.sourceStreamId) && Truthy(a.targetStreamId) then
        [RunnerLeg(a, a.sourceStreamId.value, Expense, date, streams, w),
         RunnerLeg(a, a.targetStreamId.value, Income, date, streams, w)]
      else []
    case _ => []
  }

  /** The runner creates, leg for leg, what the projection engine predicts
      for the same day (streams, types, amount, description), except for a
      card payment with only one stream set, for which it creates nothing. */
  lemma RunnerMatchesProjection(a: Automation, date: Date, streams: map<string, Stream>, w: bool, currency: string, now: Date)
    ensures var legs := RunnerLegs(a, date, streams, w);
      var ps := Projections.Legs(a, date, currency, now);
      (a.kind != CcPayment || (Truthy(a.sourceStreamId) && Truthy(a.targetStreamId)) ==>
        |legs| == |ps| &&
        forall i :: 0 <= i < |legs| ==>
          legs[i].streamId == ps[i].streamId && legs[i].kind == ps[i].kind &&
          legs[i].amount == ps[i].amount && legs[i].applicabilityDate == ps[i].applicabilityDate &&
          legs[i].description == ps[i].description) &&
      (a.kind == CcPayment && Truthy(a.sourceStreamId) != Truthy(a.targetStreamId) ==>
        legs == [] && |ps| == 1)
  {
  }

  /** The payloads of stored transactions. */
  function Payloads(txs: seq<Transaction>): (r: seq<NewTransaction>)
    ensures |r| == |txs|
    ensures forall i :: 0 <= i < |txs| ==> r[i] == TransactionRepository.Payload(txs[i])
  {
    seq(|txs|, i requires 0 <= i < |txs| => TransactionRepository.Payload(txs[i]))
  }

  /** The transactions store after putting `txs` in order. */
  function PutAll(m: map<string, Transaction>, txs: seq<Transaction>): map<string, Transaction> {
    if |txs| == 0 then m else PutAll(m, txs[..|txs| - 1])[txs[|txs| - 1].id := txs[|txs| - 1]]
  }

  /** Every id is new to `m` and used once. */
  predicate IdsFresh(m: map<string, Transaction>, txs: seq<Transaction>) {
    (forall j :: 0 <= j < |txs| ==> txs[j].id !in m) &&
    (forall i, j :: 0 <= i < j < |txs| ==> txs[i].id != txs[j].id)
  }

  /** The records after the puts are the earlier ones and the put ones. */
  lemma {:induction false} PutAllKeys(m: map<string, Transaction>, txs: seq<Transaction>)
    ensures forall k :: k in PutAll(m, txs) <==> k in m || exists j :: 0 <= j < |txs| && txs[j].id == k
    decreases |txs|
  {
    if |txs| > 0 {
      var init := txs[..|txs| - 1];
      PutAllKeys(m, init);
      forall k | k in PutAll(m, init)
        ensures k in m || exists j :: 0 <= j < |txs| && txs[j].id == k
      {
        if k !in m {
          var j :| 0 <= j < |init| && init[j].id == k;
          assert txs[j].id == k;
        }
      }
      forall k | exists j :: 0 <= j < |txs| && txs[j].id == k
        ensures k in PutAll(m, txs)
      {
        var j :| 0 <= j < |txs| && txs[j].id == k;
        if j < |init| {
          assert init[j].id == k;
        }
      }
    }
  }

  /** Putting transactions with fresh ids adds exactly one record each and
      keeps every earlier record. */
  lemma {:induction false} PutAllAdds(m: map<string, Transaction>, txs: seq<Transaction>)
    requires IdsFresh(m, txs)
    ensures |PutAll(m, txs).Keys| == |m.Keys| + |txs|
    ensures forall k :: k in m ==> k in PutAll(m, txs) && PutAll(m, txs)[k] == m[k]
    decreases |txs|
  {
    if |txs| > 0 {
      var init := txs[..|txs| - 1];
      var last := txs[|txs| - 1];
      PutAllAdds(m, init);
      PutAllKeys(m, init);
      assert last.id !in PutAll(m, init);
      assert PutAll(m, txs).Keys == PutAll(m, init).Keys + {last.id};
    }
  }

  /** The transactions created for the automations of `autos` that act and
      do not fail, in order. */
  function RunLegs(autos: seq<Automation>, date: Date, streams: map<string, Stream>, w: bool,
                   failing: set<string>): seq<NewTransaction>
  {
    if |autos| == 0 then []
    else
      var a := autos[|autos| - 1];
      RunLegs(autos[..|autos| - 1], date, streams, w, failing) +
      (if Acts(a, date) && a.id !in failing then RunnerLegs(a, date, streams, w) else [])
  }

  /** The automations store after one automation is processed: an acting,
      non-failing automation that is still stored gets `lastRunAt := date`. */
  function MarkOne(m: map<string, Automation>, a: Automation, date: Date, failing: set<string>): map<string, Automation> {
    if Acts(a, date) && a.id !in failing && a.id in m then m[a.id := m[a.id].(lastRunAt := Some(date))] else m
  }

  function Marked(m: map<string, Automation>, autos: seq<Automation>, date: Date, failing: set<string>): map<string, Automation> {
    if |autos| == 0 then m else MarkOne(Marked(m, autos[..|autos| - 1], date, failing), autos[|autos| - 1], date, failing)
  }

  /** The automations store after a run over every stored automation: each
      that acts and does not fail is stamped with `date`, the others are
      untouched.  Afterwards only the failed ones would act again that day. */
  function MarkedAll(m: map<string, Automation>, date: Date, failing: set<string>): (r: map<string, Automation>)
    ensures r.Keys == m.Keys
    ensures forall k :: k in m && !(Acts(m[k], date) && k !in failing) ==> r[k] == m[k]
    ensures forall k :: k in m && Acts(m[k], date) && k !in failing ==> r[k].lastRunAt == Some(date)
    ensures forall k :: k in r && Acts(r[k], date) ==> k in failing
  {
    map k | k in m :: if Acts(m[k], date) && k !in failing then m[k].(lastRunAt := Some(date)) else m[k]
  }

  /** Stamping is idempotent: a second run on the same day, with no
      failures the first time, changes no automation. */
  lemma MarkedAllIdempotent(m: map<string, Automation>, date: Date, failing: set<string>)
    ensures MarkedAll(MarkedAll(m, date, {}), date, failing) == MarkedAll(m, date, {})
  {
  }

  /** Some automation of `autos` stored under `k` acts on `date`. */
  ghost predicate ActedIn(autos: seq<Automation>, k: string, date: Date) {
    exists i :: 0 <= i < |autos| && autos[i].id == k && Acts(autos[i], date)
  }

  lemma ActedInStep(autos: seq<Automation>, k: string, date: Date)
    requires |autos| > 0
    ensures ActedIn(autos, k, date) <==>
      ActedIn(autos[..|autos| - 1], k, date) || (autos[|autos| - 1].id == k && Acts(autos[|autos| - 1], date))
  {
    var init := autos[..|autos| - 1];
    if ActedIn(init, k, date) {
      var i :| 0 <= i < |init| && init[i].id == k && Acts(init[i], date);
      assert autos[i] == init[i];
    }
    if ActedIn(autos, k, date) {
      var i :| 0 <= i < |autos| && autos[i].id == k && Acts(autos[i], date);
      if i < |init| {
        assert init[i] == autos[i];
      }
    }
  }

  /** A closed form of `Marked` for any list of automations: a stored
      automation is stamped when some listed automation with its id acted. */
  lemma {:induction false} MarkedClosed(m: map<string, Automation>, autos: seq<Automation>, date: Date, failing: set<string>)
    ensures Marked(m, autos, date, failing).Keys == m.Keys
    ensures forall k :: k in m ==>
      Marked(m, autos, date, failing)[k] ==
        if ActedIn(autos, k, date) && k !in failing then m[k].(lastRunAt := Some(date)) else m[k]
    decreases |autos|
  {
    if |autos| > 0 {
      var init := autos[..|autos| - 1];
      MarkedClosed(m, init, date, failing);
      forall k | k in m
        ensures Marked(m, autos, date, failing)[k] ==
          if ActedIn(autos, k, date) && k !in failing then m[k].(lastRunAt := Some(date)) else m[k]
      {
        ActedInStep(autos, k, date);
      }
    }
  }

  /** A run over exactly the stored automations stamps them as `MarkedAll`
      says. */
  lemma MarkedOverAll(m: map<string, Automation>, autos: seq<Automation>, date: Date, failing: set<string>)
    requires forall k :: k in m ==> m[k].id == k
    requires forall a :: a in autos <==> a in m.Values
    ensures Marked(m, autos, date, failing) == MarkedAll(m, date, failing)
  {
    MarkedClosed(m, autos, date, failing);
    var r := Marked(m, autos, date, failing);
    forall k | k in m
      ensures r[k] == MarkedAll(m, date, failing)[k]
    {
      if Acts(m[k], date) {
        assert m[k] in autos;
        var i :| 0 <= i < |autos| && autos[i] == m[k];
        assert autos[i].id == k;
      }
      if ActedIn(autos, k, date) {
        var i :| 0 <= i < |autos| && autos[i].id == k && Acts(autos[i], date);
        assert autos[i] in m.Values;
      }
    }
  }

  /** Automations that do not act, or fail, create nothing. */
  lemma {:induction false} IdleRunCreatesNothing(autos: seq<Automation>, date: Date, streams: map<string, Stream>,
                                                w: bool, failing: set<string>)
    requires forall i :: 0 <= i < |autos| ==> !Acts(autos[i], date) || autos[i].id in failing
    ensures RunLegs(autos, date, streams, w, failing) == []
    decreases |autos|
  {
    if |autos| > 0 {
      IdleRunCreatesNothing(autos[..|autos| - 1], date, streams, w, failing);
    }
  }

  /** Running twice on the same day: when nothing failed the first time, the
      second run, over the stamped automations, creates no transaction. */
  lemma SecondRunCreatesNothing(m: map<string, Automation>, date: Date, autos: seq<Automation>,
                                streams: map<string, Stream>, w: bool, failing: set<string>)
    requires forall a :: a in autos ==> a in MarkedAll(m, date, {}).Values
    ensures RunLegs(autos, date, streams, w, failing) == []
  {
    forall i | 0 <= i < |autos|
      ensures !Acts(autos[i], date) || autos[i].id in failing
    {
      assert autos[i] in MarkedAll(m, date, {}).Values;
    }
    IdleRunCreatesNothing(autos, date, streams, w, failing);
  }

  /** Appending one created transaction extends each summary by it. */
  lemma AppendCreated(t0: map<string, Transaction>, s0: map<string, Stream>, created: seq<Transaction>, tx: Transaction)
    requires IdsFresh(t0, created) && tx.id !in PutAll(t0, created)
    ensures Payloads(created + [tx]) == Payloads(created) + [TransactionRepository.Payload(tx)]
    ensures PutAll(t0, created + [tx]) == PutAll(t0, created)[tx.id := tx]
    ensures TransactionRepository.StreamsAfterCreates(s0, created + [tx]) ==
      TransactionRepository.StreamsAfterCreate(TransactionRepository.StreamsAfterCreates(s0, created), tx)
    ensures IdsFresh(t0, created + [tx])
  {
    assert (created + [tx])[..|created|] == created;
    PutAllKeys(t0, created);
    forall j | 0 <= j < |created|
      ensures created[j].id != tx.id
    {
      assert created[j].id in PutAll(t0, created);
    }
  }

  /** The legs do not depend on card usage. */
  lemma RunnerLegsIgnoreUsage(a: Automation, date: Date, s1: map<string, Stream>, s2: map<string, Stream>, w: bool)
    requires SameCurrencies(s1, s2)
    ensures RunnerLegs(a, date, s1, w) == RunnerLegs(a, date, s2, w)
  {
    if Truthy(a.sourceStreamId) {
      CurrencyIgnoresUsage(a, a.sourceStreamId.value, s1, s2, w);
    }
    if Truthy(a.targetStreamId) {
      CurrencyIgnoresUsage(a, a.targetStreamId.value, s1, s2, w);
    }
  }

  /** The state a run has reached: starting from transactions `t0` and
      streams `s0`, the transactions `created` have been created. */
  ghost predicate Reached(db: Database, t0: map<string, Transaction>, s0: map<string, Stream>,
                          created: seq<Transaction>, now: int)
    reads db
  {
    db.Valid() &&
    (forall j :: 0 <= j < |created| ==> created[j].createdAt == now) &&
    IdsFresh(t0, created) &&
    db.transactions == PutAll(t0, created) &&
    db.streams == TransactionRepository.StreamsAfterCreates(s0, created)
  }

  /** One repository create moves a run from `created0` to `created0 + [tx]`. */
  lemma CreatedStep(t0: map<string, Transaction>, s0: map<string, Stream>, created0: seq<Transaction>,
                    tx: Transaction, now: int, txs: map<string, Transaction>, streams: map<string, Stream>)
    requires forall j :: 0 <= j < |created0| ==> created0[j].createdAt == now
    requires IdsFresh(t0, created0) && tx.id !in PutAll(t0, created0) && tx.createdAt == now
    requires txs == PutAll(t0, created0)[tx.id := tx]
    requires streams == TransactionRepository.StreamsAfterCreate(TransactionRepository.StreamsAfterCreates(s0, created0), tx)
    ensures forall j :: 0 <= j < |created0 + [tx]| ==> (created0 + [tx])[j].createdAt == now
    ensures IdsFresh(t0, created0 + [tx])
    ensures txs == PutAll(t0, created0 + [tx])
    ensures streams == TransactionRepository.StreamsAfterCreates(s0, created0 + [tx])
    ensures Payloads(created0 + [tx]) == Payloads(created0) + [TransactionRepository.Payload(tx)]
  {
    AppendCreated(t0, s0, created0, tx);
  }

  /** Creates one leg through the repository. */
  method CreateOne(db: Database, leg: NewTransaction, now: int,
                   ghost t0: map<string, Transaction>, ghost s0: map<string, Stream>, created0: seq<Transaction>)
    returns (created: seq<Transaction>)
    requires Reached(db, t0, s0, created0, now)
    modifies db
    ensures Reached(db, t0, s0, created, now)
    ensures Payloads(created) == Payloads(created0) + [leg]
    ensures db.automations == old(db.automations)
    ensures db.tags == old(db.tags) && db.exchangeRates == old(db.exchangeRates)
    ensures db.settings == old(db.settings)
  {
    var tx := TransactionRepository.Create(db, leg, now);
    CreatedStep(t0, s0, created0, tx, now, db.transactions, db.streams);
    created := created0 + [tx];
  }

  /** Creates the legs in order through the repository. */
  method CreateAll(db: Database, legs: seq<NewTransaction>, now: int,
                   ghost t0: map<string, Transaction>, ghost s0: map<string, Stream>, created0: seq<Transaction>)
    returns (created: seq<Transaction>)
    requires Reached(db, t0, s0, created0, now)
    modifies db
    ensures Reached(db, t0, s0, created, now)
    ensures Payloads(created) == Payloads(created0) + legs
    ensures db.automations == old(db.automations)
    ensures db.tags == old(db.tags) && db.exchangeRates == old(db.exchangeRates)
    ensures db.settings == old(db.settings)
  {
    created := created0;
    var i := 0;
    while i < |legs|
      invariant CreateLoop(db, t0, s0, created0, created, legs, i, now)
      invariant db.automations == old(db.automations)
      invariant db.tags == old(db.tags) && db.exchangeRates == old(db.exchangeRates)
      invariant db.settings == old(db.settings)
    {
      created := CreateOne(db, legs[i], now, t0, s0, created);
      Seqs.HeadPrefixGrow(Payloads(created0), legs, i);
      i := i + 1;
    }
    assert legs[..i] == legs;
  }

  /** The state of `CreateAll` after `i` legs. */
  ghost predicate CreateLoop(db: Database, t0: map<string, Transaction>, s0: map<string, Stream>,
                             created0: seq<Transaction>, created: seq<Transaction>,
                             legs: seq<NewTransaction>, i: int, now: int)
    reads db
  {
    0 <= i <= |legs| &&
    Reached(db, t0, s0, created, now) &&
    Payloads(created) == Payloads(created0) + legs[..i]
  }

  /** The loop body for one automation: skip it unless it acts; otherwise
      create its legs and stamp it.  A failing automation writes nothing. */
  method RunOne(db: Database, a: Automation, date: Date, w: bool, failing: set<string>, now: int,
                ghost t0: map<string, Transaction>, ghost s0: map<string, Stream>, created0: seq<Transaction>)
    returns (created: seq<Transaction>)
    requires Reached(db, t0, s0, created0, now)
    modifies db
    ensures Reached(db, t0, s0, created, now)
    ensures Payloads(created) == Payloads(created0) +
      (if Acts(a, date) && a.id !in failing then RunnerLegs(a, date, s0, w) else [])
    ensures db.automations == MarkOne(old(db.automations), a, date, failing)
    ensures db.tags == old(db.tags) && db.exchangeRates == old(db.exchangeRates)
    ensures db.settings == old(db.settings)
  {
    created := created0;
    if !Acts(a, date) || a.id in failing {
      assert Payloads(created0) + [] == Payloads(created0);
      return;
    }
    RunnerLegsIgnoreUsage(a, date, s0, db.streams, w);
    var legs := RunnerLegs(a, date, db.streams, w);
    created := CreateAll(db, legs, now, t0, s0, created);
    StampLastRun(db, a.id, date);
  }

  /** `automationRepo.update(id, { lastRunAt: date })`: the stored record
      gets the run date; a missing record makes the update throw, which
      the runner's handler absorbs, so nothing changes. */
  method StampLastRun(db: Database, id: string, date: Date)
    requires db.Valid()
    modifies db
    ensures db.Valid()
    ensures db.automations ==
      if id in old(db.automations) then old(db.automations)[id := old(db.automations)[id].(lastRunAt := Some(date))]
      else old(db.automations)
    ensures db.transactions == old(db.transactions) && db.streams == old(db.streams)
    ensures db.tags == old(db.tags) && db.exchangeRates == old(db.exchangeRates)
    ensures db.settings == old(db.settings)
  {
    if id in db.automations {
      db.automations := db.automations[id := db.automations[id].(lastRunAt := Some(date))];
    }
  }

  /** The loop over the automations `findAll` returned: each is processed in
      turn; a failure in one leaves its stamp alone and the loop goes on. */
  method RunAutomations(db: Database, autos: seq<Automation>, date: Date, w: bool, failing: set<string>, now: int)
    returns (created: seq<Transaction>)
    requires db.Valid()
    modifies db
    ensures Reached(db, old(db.transactions), old(db.streams), created, now)
    ensures Payloads(created) == RunLegs(autos, date, old(db.streams), w, failing)
    ensures db.automations == Marked(old(db.automations), autos, date, failing)
    ensures db.tags == old(db.tags) && db.exchangeRates == old(db.exchangeRates)
    ensures db.settings == old(db.settings)
  {
    created := [];
    ghost var t0 := db.transactions;
    ghost var s0 := db.streams;
    var i := 0;
    while i < |autos|
      invariant 0 <= i <= |autos|
      invariant Reached(db, t0, s0, created, now)
      invariant Payloads(created) == RunLegs(autos[..i], date, s0, w, failing)
      invariant db.automations == Marked(old(db.automations), autos[..i], date, failing)
      invariant db.tags == old(db.tags) && db.exchangeRates == old(db.exchangeRates)
      invariant db.settings == old(db.settings)
    {
      created := RunOne(db, autos[i], date, w, failing, now, t0, s0, created);
      Seqs.PrefixGrow(autos, i);
      i := i + 1;
    }
    assert autos[..i] == autos;
  }

  /** `runAutomationsForDate`: runs every stored automation for `date`.
      Afterwards every automation that acted and did not fail is stamped
      with `date`, every other one is unchanged, and the created
      transactions are exactly the legs of the stored automations taken in
      some order, so each one is a leg of an acting automation. */
  method RunAutomationsForDate(db: Database, date: Date, withStreamRepo: bool, failing: set<string>, now: int)
    returns (created: seq<Transaction>)
    requires db.Valid()
    modifies db
    ensures Reached(db, old(db.transactions), old(db.streams), created, now)
    ensures db.streams == TransactionRepository.StreamsAfterCreates(old(db.streams), created)
    ensures db.automations == MarkedAll(old(db.automations), date, failing)
    ensures forall j :: 0 <= j < |created| ==>
      exists a :: (a in old(db.automations).Values && Acts(a, date) && a.id !in failing &&
                   TransactionRepository.Payload(created[j]) in RunnerLegs(a, date, old(db.streams), withStreamRepo))
    ensures exists autos: seq<Automation> ::
      |autos| == |old(db.automations).Keys| &&
      (forall a :: a in autos <==> a in old(db.automations).Values) &&
      Payloads(created) == RunLegs(autos, date, old(db.streams), withStreamRepo, failing)
    ensures db.tags == old(db.tags) && db.exchangeRates == old(db.exchangeRates)
    ensures db.settings == old(db.settings)
  {
    var autos := ValuesOf(db.automations);
    created := RunAutomations(db, autos, date, withStreamRepo, failing, now);
    assert Payloads(created) == RunLegs(autos, date, old(db.streams), withStreamRepo, failing);
    MarkedOverAll(old(db.automations), autos, date, failing);
    forall j | 0 <= j < |created|
      ensures exists a :: (a in old(db.automations).Values && Acts(a, date) && a.id !in failing &&
                           TransactionRepository.Payload(created[j]) in RunnerLegs(a, date, old(db.streams), withStreamRepo))
    {
      var i := RunLegsSource(autos, date, old(db.streams), withStreamRepo, failing, j);
      assert autos[i] in old(db.automations).Values;
    }
  }

  /** Every created leg comes from an automation of the list that acts. */
  lemma {:induction false} RunLegsSource(autos: seq<Automation>, date: Date, streams: map<string, Stream>, w: bool,
                                        failing: set<string>, j: nat) returns (i: nat)
    requires j < |RunLegs(autos, date, streams, w, failing)|
    ensures i < |autos| && Acts(autos[i], date) && autos[i].id !in failing
    ensures RunLegs(autos, date, streams, w, failing)[j] in RunnerLegs(autos[i], date, streams, w)
    decreases |autos|
  {
    var init := autos[..|autos| - 1];
    var a := autos[|autos| - 1];
    var before := RunLegs(init, date, streams, w, failing);
    if j < |before| {
      i := RunLegsSource(init, date, streams, w, failing, j);
      assert autos[i] == init[i];
    } else {
      i := |autos| - 1;
    }
  }
}
