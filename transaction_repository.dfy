/** The transaction repository: creating a transaction (which also moves the
    owning credit card's usage), updating, deleting and the finders, all over
    the transactions store of a `Store.Database`. */
module TransactionRepository {
  import opened Calendar
  import opened Domain
  import opened Seqs
  import opened Store

  /** What a caller supplies to `create`: a transaction without id and createdAt. */
  datatype NewTransaction = NewTransaction(
    streamId: string,
    amount: real,
    currency: string,
    applicabilityDate: Date,
    kind: TxType,
    tags: seq<string>,
    recurrenceId: Option<string>,
    description: Option<string>)

  /** The caller-supplied part of a stored transaction. */
  function Payload(tx: Transaction): NewTransaction {
    NewTransaction(tx.streamId, tx.amount, tx.currency, tx.applicabilityDate,
      tx.kind, tx.tags, tx.recurrenceId, tx.description)
  }

  /** `{...data, id, createdAt}`. */
  function WithIdentity(data: NewTransaction, id: string, createdAt: int): (tx: Transaction)
    ensures Payload(tx) == data && tx.id == id && tx.createdAt == createdAt
  {
    Transaction(id, data.streamId, data.amount, data.currency, data.applicabilityDate,
      createdAt, data.kind, data.tags, data.recurrenceId, data.description)
  }

  /** A card's usage after a transaction: the previous usage (0 when absent)
      plus the amount for an expense or minus it for an income, raised to 0
      and then capped at the credit limit. */
  function UsageAfter(prev: Option<real>, creditLimit: real, kind: TxType, amount: real): (u: real)
    ensures u <= creditLimit
    ensures creditLimit >= 0.0 ==> 0.0 <= u
    ensures var raw := (if prev.Some? then prev.value else 0.0) + (if kind == Expense then amount else -amount);
      (0.0 <= raw <= creditLimit ==> u == raw) &&
      (raw < 0.0 && creditLimit >= 0.0 ==> u == 0.0) &&
      (raw > creditLimit ==> u == creditLimit)
  {
    var prevUsage := if prev.Some? then prev.value else 0.0;
    var delta := if kind == Expense then amount else -amount;
    var newUsage := prevUsage + delta;
    var raised := if newUsage < 0.0 then 0.0 else newUsage;
    if raised > creditLimit then creditLimit else raised
  }

  /** The streams store after `create(tx)`: the owning stream, when it exists
      and has a credit limit, gets its new usage; nothing else changes. */
  function StreamsAfterCreate(streams: map<string, Stream>, tx: Transaction): (r: map<string, Stream>)
    ensures r.Keys == streams.Keys
    ensures forall k :: k in streams && k != tx.streamId ==> r[k] == streams[k]
    ensures forall k :: k in streams ==> r[k] == streams[k].(currentUsage := r[k].currentUsage)
    ensures tx.streamId in streams && streams[tx.streamId].creditLimit.None? ==> r == streams
    ensures tx.streamId in streams && streams[tx.streamId].creditLimit.Some? ==>
      var s := streams[tx.streamId];
      r[tx.streamId].currentUsage == Some(UsageAfter(s.currentUsage, s.creditLimit.value, tx.kind, tx.amount))
  {
    if tx.streamId in streams && streams[tx.streamId].creditLimit.Some? then
      var s := streams[tx.streamId];
      streams[tx.streamId := s.(currentUsage := Some(UsageAfter(s.currentUsage, s.creditLimit.value, tx.kind, tx.amount)))]
    else streams
  }

  /** A card with a non-negative limit whose usage is absent or within
      [0, limit]. */
  predicate CardInBounds(s: Stream) {
    s.creditLimit.Some? && s.creditLimit.value >= 0.0 ==>
      s.currentUsage.None? || 0.0 <= s.currentUsage.value <= s.creditLimit.value
  }

  /** Creating transactions keeps every card's usage within its limit. */
  lemma {:induction false} CardsStayInBounds(streams: map<string, Stream>, txs: seq<Transaction>)
    requires forall k :: k in streams ==> CardInBounds(streams[k])
    ensures forall k :: k in streams ==> CardInBounds(StreamsAfterCreates(streams, txs)[k])
    decreases |txs|
  {
    if |txs| > 0 {
      var mid := StreamsAfterCreates(streams, txs[..|txs| - 1]);
      var tx := txs[|txs| - 1];
      CardsStayInBounds(streams, txs[..|txs| - 1]);
      var r := StreamsAfterCreate(mid, tx);
      assert r == StreamsAfterCreates(streams, txs);
      forall k | k in streams
        ensures CardInBounds(r[k])
      {
        if k == tx.streamId && mid[k].creditLimit.Some? {
          var s := mid[k];
          var u := UsageAfter(s.currentUsage, s.creditLimit.value, tx.kind, tx.amount);
          assert r[k].currentUsage == Some(u);
          assert r[k].creditLimit == s.creditLimit;
        } else {
          assert r[k] == mid[k];
        }
      }
    }
  }

  /** The streams store after creating `txs` in order. */
  function StreamsAfterCreates(streams: map<string, Stream>, txs: seq<Transaction>): (r: map<string, Stream>)
    ensures r.Keys == streams.Keys
    ensures forall k :: k in streams ==> r[k] == streams[k].(currentUsage := r[k].currentUsage)
  {
    if |txs| == 0 then streams
    else StreamsAfterCreate(StreamsAfterCreates(streams, txs[..|txs| - 1]), txs[|txs| - 1])
  }

  /** `create`: stores `data` under a fresh id with createdAt `now`, then
      updates the owning card's usage. */
  method Create(db: Database, data: NewTransaction, now: int) returns (tx: Transaction)
    requires db.Valid()
    modifies db
    ensures db.Valid()
    ensures Payload(tx) == data && tx.createdAt == now && tx.id !in old(db.transactions)
    ensures db.transactions == old(db.transactions)[tx.id := tx]
    ensures db.streams == StreamsAfterCreate(old(db.streams), tx)
    ensures db.tags == old(db.tags) && db.exchangeRates == old(db.exchangeRates)
    ensures db.settings == old(db.settings) && db.automations == old(db.automations)
  {
    var id := NewId(db.transactions.Keys);
    tx := WithIdentity(data, id, now);
    db.transactions := db.transactions[id := tx];
    if tx.streamId in db.streams && db.streams[tx.streamId].creditLimit.Some? {
      var s := db.streams[tx.streamId];
      var newUsage := UsageAfter(s.currentUsage, s.creditLimit.value, tx.kind, tx.amount);
      db.streams := db.streams[tx.streamId := s.(currentUsage := Some(newUsage))];
    }
  }

  /** `findById`. */
  method FindById(db: Database, id: string) returns (r: Option<Transaction>)
    requires db.Valid()
    ensures r.Some? <==> id in db.transactions
    ensures r.Some? ==> r.value == db.transactions[id] && r.value.id == id
  {
    if id in db.transactions {
      r := Some(db.transactions[id]);
    } else {
      r := None;
    }
  }

  /** `findAll`. */
  method FindAll(db: Database) returns (txs: seq<Transaction>)
    ensures |txs| == |db.transactions.Keys|
    ensures forall tx :: tx in txs <==> tx in db.transactions.Values
  {
    txs := ValuesOf(db.transactions);
  }

  /** `findByStream`: the `by-stream` index lookup. */
  method FindByStream(db: Database, streamId: string) returns (txs: seq<Transaction>)
    ensures forall tx :: tx in txs <==> tx in db.transactions.Values && tx.streamId == streamId
  {
    var all := FindAll(db);
    txs := Filter(all, (tx: Transaction) => tx.streamId == streamId);
  }

  /** `findByDateRange`: both ends inclusive. */
  method FindByDateRange(db: Database, fromDate: Date, toDate: Date) returns (txs: seq<Transaction>)
    ensures forall tx :: tx in txs <==>
      tx in db.transactions.Values && OnOrBefore(fromDate, tx.applicabilityDate) && OnOrBefore(tx.applicabilityDate, toDate)
  {
    var all := FindAll(db);
    txs := Filter(all, (tx: Transaction) =>
      OnOrBefore(fromDate, tx.applicabilityDate) && OnOrBefore(tx.applicabilityDate, toDate));
  }

  /** The transactions of `all` that apply on or before `asOf`. */
  function MoneyInHandOf(all: seq<Transaction>, asOf: Date): seq<Transaction> {
    Filter(all, (tx: Transaction) => OnOrBefore(tx.applicabilityDate, asOf))
  }

  /** The transactions of `all` that apply after `asOf`. */
  function ProjectedOf(all: seq<Transaction>, asOf: Date): seq<Transaction> {
    Filter(all, (tx: Transaction) => Before(asOf, tx.applicabilityDate))
  }

  /** `findMoneyInHand` and `findProjected` split `findAll` in two: every
      transaction lands in exactly one of them, each in `findAll`'s order. */
  lemma MoneyInHandProjectedPartition(all: seq<Transaction>, asOf: Date)
    ensures multiset(MoneyInHandOf(all, asOf)) + multiset(ProjectedOf(all, asOf)) == multiset(all)
    ensures forall tx :: tx in MoneyInHandOf(all, asOf) ==> tx !in ProjectedOf(all, asOf)
  {
    FilterPartition(all, (tx: Transaction) => OnOrBefore(tx.applicabilityDate, asOf),
      (tx: Transaction) => Before(asOf, tx.applicabilityDate));
  }

  method FindMoneyInHand(db: Database, asOfDate: Date) returns (txs: seq<Transaction>)
    ensures forall tx :: tx in txs <==> tx in db.transactions.Values && OnOrBefore(tx.applicabilityDate, asOfDate)
  {
    var all := FindAll(db);
    txs := MoneyInHandOf(all, asOfDate);
  }

  method FindProjected(db: Database, asOfDate: Date) returns (txs: seq<Transaction>)
    ensures forall tx :: tx in txs <==> tx in db.transactions.Values && Before(asOfDate, tx.applicabilityDate)
  {
    var all := FindAll(db);
    txs := ProjectedOf(all, asOfDate);
  }

  /** `findByRecurrence`: the `by-recurrence` index lookup. */
  method FindByRecurrence(db: Database, recurrenceId: string) returns (txs: seq<Transaction>)
    ensures forall tx :: tx in txs <==> tx in db.transactions.Values && tx.recurrenceId == Some(recurrenceId)
  {
    var all := FindAll(db);
    txs := Filter(all, (tx: Transaction) => tx.recurrenceId == Some(recurrenceId));
  }

  /** A `Partial<Transaction>`: `Some` for every field the caller sets
      (id and createdAt are overwritten by `update`, so they are not listed). */
  datatype TransactionPatch = TransactionPatch(
    streamId: Option<string>,
    amount: Option<real>,
    currency: Option<string>,
    applicabilityDate: Option<Date>,
    kind: Option<TxType>,
    tags: Option<seq<string>>,
    recurrenceId: Option<Option<string>>,
    description: Option<Option<string>>)

  function Pick<T>(given: Option<T>, current: T): T {
    if given.Some? then given.value else current
  }

  /** `{...existing, ...updates, id: existing.id, createdAt: existing.createdAt}`. */
  function ApplyPatch(tx: Transaction, p: TransactionPatch): (r: Transaction)
    ensures r.id == tx.id && r.createdAt == tx.createdAt
    ensures p == TransactionPatch(None, None, None, None, None, None, None, None) ==> r == tx
    ensures p.amount.Some? ==> r.amount == p.amount.value
    ensures p.amount.None? ==> r.amount == tx.amount
  {
    Transaction(tx.id, Pick(p.streamId, tx.streamId), Pick(p.amount, tx.amount),
      Pick(p.currency, tx.currency), Pick(p.applicabilityDate, tx.applicabilityDate),
      tx.createdAt, Pick(p.kind, tx.kind), Pick(p.tags, tx.tags),
      Pick(p.recurrenceId, tx.recurrenceId), Pick(p.description, tx.description))
  }

  /** Applying the same patch twice is applying it once. */
  lemma ApplyPatchIdempotent(tx: Transaction, p: TransactionPatch)
    ensures ApplyPatch(ApplyPatch(tx, p), p) == ApplyPatch(tx, p)
  {
  }

  /** `update`: fails for an unknown id; otherwise stores the merged record.
      The owning card's usage is not adjusted. */
  method Update(db: Database, id: string, patch: TransactionPatch) returns (r: Result<Transaction>)
    requires db.Valid()
    modifies db
    ensures db.Valid()
    ensures r.Err? <==> id !in old(db.transactions)
    ensures r.Err? ==> db.transactions == old(db.transactions)
    ensures r.Ok? ==>
      r.value == ApplyPatch(old(db.transactions)[id], patch) &&
      r.value.id == id && r.value.createdAt == old(db.transactions)[id].createdAt &&
      db.transactions == old(db.transactions)[id := r.value]
    ensures db.streams == old(db.streams) && db.tags == old(db.tags)
    ensures db.exchangeRates == old(db.exchangeRates) && db.settings == old(db.settings)
    ensures db.automations == old(db.automations)
  {
    var existing := FindById(db, id);
    if existing.None? {
      return Err("Transaction with id " + id + " not found");
    }
    var updated := ApplyPatch(existing.value, patch);
    db.transactions := db.transactions[id := updated];
    r := Ok(updated);
  }

  /** `delete`: removes the record, if any; the card's usage is not adjusted. */
  method Delete(db: Database, id: string)
    requires db.Valid()
    modifies db
    ensures db.Valid()
    ensures db.transactions == old(db.transactions) - {id}
    ensures db.streams == old(db.streams) && db.tags == old(db.tags)
    ensures db.exchangeRates == old(db.exchangeRates) && db.settings == old(db.settings)
    ensures db.automations == old(db.automations)
  {
    db.transactions := db.transactions - {id};
  }

  /** The transactions store without the records of recurrence `rid`. */
  function WithoutRecurrence(txs: map<string, Transaction>, rid: string): (r: map<string, Transaction>)
    ensures forall k :: k in r <==> k in txs && txs[k].recurrenceId != Some(rid)
    ensures forall k :: k in r ==> r[k] == txs[k]
  {
    map k | k in txs && txs[k].recurrenceId != Some(rid) :: txs[k]
  }

  /** `deleteByRecurrence`: deletes, one by one, every transaction the
      `by-recurrence` index returns for `recurrenceId`. */
  method DeleteByRecurrence(db: Database, recurrenceId: string)
    requires db.Valid()
    modifies db
    ensures db.Valid()
    ensures db.transactions == WithoutRecurrence(old(db.transactions), recurrenceId)
    ensures db.streams == old(db.streams) && db.tags == old(db.tags)
    ensures db.exchangeRates == old(db.exchangeRates) && db.settings == old(db.settings)
    ensures db.automations == old(db.automations)
  {
    var found := FindByRecurrence(db, recurrenceId);
    ghost var before := db.transactions;
    ghost var removed: set<string> := {};
    var i := 0;
    while i < |found|
      invariant db.Valid()
      invariant db.transactions == before - removed
      invariant DeleteLoop(before, recurrenceId, found, removed, i)
      invariant db.streams == old(db.streams) && db.tags == old(db.tags)
      invariant db.exchangeRates == old(db.exchangeRates) && db.settings == old(db.settings)
      invariant db.automations == old(db.automations)
    {
      Delete(db, found[i].id);
      DeleteAdvance(before, recurrenceId, found, removed, i);
      removed := removed + {found[i].id};
      i := i + 1;
    }
    RemovedIsRecurrence(before, recurrenceId, found, removed);
  }

  /** After `i` deletions: the first `i` found ids are removed, and every
      removed record belonged to the recurrence. */
  ghost predicate DeleteLoop(before: map<string, Transaction>, rid: string, found: seq<Transaction>,
                             removed: set<string>, i: int)
  {
    0 <= i <= |found| &&
    (forall j :: 0 <= j < i ==> found[j].id in removed) &&
    (forall k :: k in removed && k in before ==> before[k].recurrenceId == Some(rid))
  }

  /** Deleting the next found record keeps `DeleteLoop`. */
  lemma DeleteAdvance(before: map<string, Transaction>, rid: string, found: seq<Transaction>,
                      removed: set<string>, i: int)
    requires forall k :: k in before ==> before[k].id == k
    requires forall tx :: tx in found <==> tx in before.Values && tx.recurrenceId == Some(rid)
    requires DeleteLoop(before, rid, found, removed, i) && i < |found|
    ensures DeleteLoop(before, rid, found, removed + {found[i].id}, i + 1)
  {
    assert found[i] in found;
    var k :| k in before && before[k] == found[i];
  }

  /** Deleting the ids of the found records removes exactly the records of
      the recurrence. */
  lemma RemovedIsRecurrence(before: map<string, Transaction>, rid: string, found: seq<Transaction>, removed: set<string>)
    requires forall k :: k in before ==> before[k].id == k
    requires forall tx :: tx in found <==> tx in before.Values && tx.recurrenceId == Some(rid)
    requires forall j :: 0 <= j < |found| ==> found[j].id in removed
    requires forall k :: k in removed && k in before ==> before[k].recurrenceId == Some(rid)
    ensures before - removed == WithoutRecurrence(before, rid)
  {
    forall k | k in before && before[k].recurrenceId == Some(rid)
      ensures k in removed
    {
      assert before[k] in found;
      var j :| 0 <= j < |found| && found[j] == before[k];
    }
  }
}
