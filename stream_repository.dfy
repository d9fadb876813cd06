/** The stream (account) repository: create, the active/archived split, the
    update that refuses to change a stream's currency, archive and delete. */
module StreamRepository {
  import opened Domain
  import opened Seqs
  import opened Store

  /** What a caller supplies to `create`. */
  datatype NewStream = NewStream(
    name: string,
    icon: string,
    baseCurrency: string,
    creditLimit: Option<real>,
    currentUsage: Option<real>,
    isCreditCard: Option<bool>)

  /** `create`: stores `data` under a fresh id, stamped `now`, not archived. */
  method Create(db: Database, data: NewStream, now: int) returns (s: Stream)
    requires db.Valid()
    modifies db
    ensures db.Valid()
    ensures s.id !in old(db.streams) && s.createdAt == now && s.archivedAt.None?
    ensures s.name == data.name && s.icon == data.icon && s.baseCurrency == data.baseCurrency
    ensures s.creditLimit == data.creditLimit && s.currentUsage == data.currentUsage
    ensures s.isCreditCard == data.isCreditCard
    ensures db.streams == old(db.streams)[s.id := s]
    ensures db.transactions == old(db.transactions) && db.tags == old(db.tags)
    ensures db.exchangeRates == old(db.exchangeRates) && db.settings == old(db.settings)
    ensures db.automations == old(db.automations)
  {
    var id := NewId(db.streams.Keys);
    s := Stream(id, data.name, data.icon, data.baseCurrency, data.creditLimit,
      data.currentUsage, data.isCreditCard, now, None);
    db.streams := db.streams[id := s];
  }

  method FindById(db: Database, id: string) returns (r: Option<Stream>)
    requires db.Valid()
    ensures r.Some? <==> id in db.streams
    ensures r.Some? ==> r.value == db.streams[id] && r.value.id == id
  {
    if id in db.streams {
      r := Some(db.streams[id]);
    } else {
      r := None;
    }
  }

  method FindAll(db: Database) returns (ss: seq<Stream>)
    ensures |ss| == |db.streams.Keys|
    ensures forall s :: s in ss <==> s in db.streams.Values
  {
    ss := ValuesOf(db.streams);
  }

  /** A stream that has not been archived. */
  predicate IsActive(s: Stream) {
    s.archivedAt.None?
  }

  /** `findActive`: exactly the stored streams that are not archived. */
  method FindActive(db: Database) returns (ss: seq<Stream>)
    ensures forall s :: s in ss <==> s in db.streams.Values && IsActive(s)
  {
    var all := FindAll(db);
    ss := Filter(all, IsActive);
  }

  /** A `Partial<Stream>`: `Some` for every field the caller sets. */
  datatype StreamPatch = StreamPatch(
    name: Option<string>,
    icon: Option<string>,
    baseCurrency: Option<string>,
    creditLimit: Option<Option<real>>,
    currentUsage: Option<Option<real>>,
    isCreditCard: Option<Option<bool>>,
    archivedAt: Option<Option<int>>)

  const NoChange := StreamPatch(None, None, None, None, None, None, None)

  /** The patch `archive` sends. */
  function ArchivePatch(now: int): StreamPatch {
    NoChange.(archivedAt := Some(Some(now)))
  }

  function Pick<T>(given: Option<T>, current: T): T {
    if given.Some? then given.value else current
  }

  /** The patch asks for a different currency: a non-empty `baseCurrency`
      that is not the stored one. */
  predicate ChangesCurrency(s: Stream, p: StreamPatch) {
    Truthy(p.baseCurrency) && p.baseCurrency.value != s.baseCurrency
  }

  /** `{...existing, ...updates, id, createdAt, baseCurrency of existing}`. */
  function ApplyPatch(s: Stream, p: StreamPatch): (r: Stream)
    ensures r.id == s.id && r.createdAt == s.createdAt && r.baseCurrency == s.baseCurrency
    ensures p == NoChange ==> r == s
    ensures r.archivedAt == (if p.archivedAt.Some? then p.archivedAt.value else s.archivedAt)
    ensures r.name == (if p.name.Some? then p.name.value else s.name)
  {
    Stream(s.id, Pick(p.name, s.name), Pick(p.icon, s.icon), s.baseCurrency,
      Pick(p.creditLimit, s.creditLimit), Pick(p.currentUsage, s.currentUsage),
      Pick(p.isCreditCard, s.isCreditCard), s.createdAt, Pick(p.archivedAt, s.archivedAt))
  }

  /** `update`: fails for an unknown id and for a currency change; otherwise
      stores the merged record, whose id, createdAt and currency are kept. */
  method Update(db: Database, id: string, patch: StreamPatch) returns (r: Result<Stream>)
    requires db.Valid()
    modifies db
    ensures db.Valid()
    ensures r.Err? <==> id !in old(db.streams) || ChangesCurrency(old(db.streams)[id], patch)
    ensures r.Err? ==> db.streams == old(db.streams)
    ensures r.Ok? ==>
      r.value == ApplyPatch(old(db.streams)[id], patch) &&
      db.streams == old(db.streams)[id := r.value]
    ensures db.transactions == old(db.transactions) && db.tags == old(db.tags)
    ensures db.exchangeRates == old(db.exchangeRates) && db.settings == old(db.settings)
    ensures db.automations == old(db.automations)
  {
    var existing := FindById(db, id);
    if existing.None? {
      return Err("Stream with id " + id + " not found");
    }
    if ChangesCurrency(existing.value, patch) {
      return Err("Cannot change base currency of an existing stream");
    }
    var updated := ApplyPatch(existing.value, patch);
    db.streams := db.streams[id := updated];
    r := Ok(updated);
  }

  /** No sequence of successful updates changes a stream's currency. */
  lemma {:induction false} CurrencyLocked(s: Stream, patches: seq<StreamPatch>)
    ensures ApplyAll(s, patches).baseCurrency == s.baseCurrency
    ensures ApplyAll(s, patches).id == s.id && ApplyAll(s, patches).createdAt == s.createdAt
    decreases |patches|
  {
    if |patches| > 0 {
      CurrencyLocked(s, patches[..|patches| - 1]);
    }
  }

  /** The stream after the patches, in order. */
  function ApplyAll(s: Stream, patches: seq<StreamPatch>): Stream {
    if |patches| == 0 then s else ApplyPatch(ApplyAll(s, patches[..|patches| - 1]), patches[|patches| - 1])
  }

  /** `archive`: an update that sets archivedAt to `now`, after which the
      stream is no longer active. */
  method Archive(db: Database, id: string, now: int) returns (r: Result<Stream>)
    requires db.Valid()
    modifies db
    ensures db.Valid()
    ensures r.Err? <==> id !in old(db.streams)
    ensures r.Err? ==> db.streams == old(db.streams)
    ensures r.Ok? ==>
      r.value == old(db.streams)[id].(archivedAt := Some(now)) &&
      db.streams == old(db.streams)[id := r.value] && !IsActive(r.value)
    ensures db.transactions == old(db.transactions) && db.tags == old(db.tags)
    ensures db.exchangeRates == old(db.exchangeRates) && db.settings == old(db.settings)
    ensures db.automations == old(db.automations)
  {
    r := Update(db, id, ArchivePatch(now));
  }

  /** `delete`: removes the record, if any. */
  method Delete(db: Database, id: string)
    requires db.Valid()
    modifies db
    ensures db.Valid()
    ensures db.streams == old(db.streams) - {id}
    ensures db.transactions == old(db.transactions) && db.tags == old(db.tags)
    ensures db.exchangeRates == old(db.exchangeRates) && db.settings == old(db.settings)
    ensures db.automations == old(db.automations)
  {
    db.streams := db.streams - {id};
  }
}
