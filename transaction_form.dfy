/** The transaction form: a tag list edited one tag at a time, and a submit
    that checks the amount and the stream, makes sure every tag exists in
    the tag store, and then creates the transaction or updates the one being
    edited. */
module TransactionForm {
  import opened Calendar
  import opened Domain
  import opened Seqs
  import opened Text
  import opened Store
  import Projections
  import TagRepository
  import TransactionRepository

  /** `handleAddTag` on the list: the trimmed input is appended when it is
      not empty and not in the list yet. */
  function WithTag(tags: seq<string>, input: string): (r: seq<string>)
    ensures Trim(input) != "" && Trim(input) !in tags ==> r == tags + [Trim(input)]
    ensures Trim(input) == "" || Trim(input) in tags ==> r == tags
  {
    var trimmed := Trim(input);
    if trimmed != "" && trimmed !in tags then tags + [trimmed] else tags
  }

  /** `handleRemoveTag` on the list: every other tag, in order. */
  function WithoutTag(tags: seq<string>, tag: string): (r: seq<string>)
    ensures forall t :: t in r <==> t in tags && t != tag
  {
    Filter(tags, (t: string) => t != tag)
  }

  /** Adding keeps the list free of repeats, and adds nothing but the
      trimmed input. */
  lemma AddKeepsDistinct(tags: seq<string>, input: string)
    requires Distinct(tags)
    ensures Distinct(WithTag(tags, input))
    ensures forall t :: t in WithTag(tags, input) <==> t in tags || (t == Trim(input) && t != "")
  {
    if Trim(input) != "" && Trim(input) !in tags {
      DistinctAppend(tags, Trim(input));
    }
  }

  /** Removing keeps the list free of repeats. */
  lemma RemoveKeepsDistinct(tags: seq<string>, tag: string)
    requires Distinct(tags)
    ensures Distinct(WithoutTag(tags, tag))
  {
    FilterDistinct(tags, (t: string) => t != tag);
  }

  /** Removing a tag that was just added gives back the list as it was;
      removing a tag that is not there changes nothing. */
  lemma RemoveUndoesAdd(tags: seq<string>, input: string)
    requires Trim(input) != "" && Trim(input) !in tags
    ensures WithoutTag(WithTag(tags, input), Trim(input)) == tags
    ensures WithoutTag(tags, Trim(input)) == tags
  {
    var p := (t: string) => t != Trim(input);
    FilterAppend(tags, [Trim(input)], p);
    assert Filter([Trim(input)], p) == Filter([], p) + [];
    FilterAll(tags, p);
  }

  /** `selectedStream?.baseCurrency || 'USD'`: the base currency of the first
      stream with the chosen id. */
  function FormCurrency(streams: seq<Stream>, streamId: string): (c: string)
    ensures c != ""
    ensures forall i :: (0 <= i < |streams| && streams[i].id == streamId &&
                         (forall j :: 0 <= j < i ==> streams[j].id != streamId)) ==>
      c == (if streams[i].baseCurrency != "" then streams[i].baseCurrency else "USD")
    ensures (forall i :: 0 <= i < |streams| ==> streams[i].id != streamId) ==> c == "USD"
  {
    match Projections.FindStream(streams, streamId)
    case None => "USD"
    case Some(s) => if s.baseCurrency != "" then s.baseCurrency else "USD"
  }

  /** The amount check of the submit: entered and positive. */
  predicate ValidAmount(amount: Option<real>) {
    amount.Some? && amount.value > 0.0
  }

  datatype SubmitOutcome = Rejected(message: string) | Saved(tx: Transaction) | Failed(message: string)

  /** Tags stored before are still stored, unchanged. */
  ghost predicate TagsGrow(before: map<string, Tag>, after: map<string, Tag>) {
    forall k :: k in before ==> k in after && after[k] == before[k]
  }

  lemma StoredStaysStored(before: map<string, Tag>, after: map<string, Tag>, name: string)
    requires TagsGrow(before, after) && TagRepository.NameStored(before, name)
    ensures TagRepository.NameStored(after, name)
  {
    var k :| k in before && before[k].name == name;
    assert k in after && after[k].name == name;
  }

  /** The tag step of `handleSubmit`: `findOrCreate` for every name.  The
      result says whether all of them succeeded, and then every name is
      stored; stored tags are kept either way. */
  method StoreTags(db: Database, names: seq<string>, indexFails: bool, now: int) returns (allFound: bool)
    requires db.Valid()
    modifies db
    ensures db.Valid() && TagsGrow(old(db.tags), db.tags)
    ensures allFound ==> forall t :: t in names ==> TagRepository.NameStored(db.tags, t)
    ensures db.transactions == old(db.transactions) && db.streams == old(db.streams)
    ensures db.exchangeRates == old(db.exchangeRates) && db.settings == old(db.settings)
    ensures db.automations == old(db.automations)
  {
    allFound := true;
    for i := 0 to |names|
      invariant db.Valid()
      invariant TagsGrow(old(db.tags), db.tags)
      invariant db.transactions == old(db.transactions) && db.streams == old(db.streams)
      invariant db.exchangeRates == old(db.exchangeRates) && db.settings == old(db.settings)
      invariant db.automations == old(db.automations)
      invariant allFound ==> forall j :: 0 <= j < i ==> TagRepository.NameStored(db.tags, names[j])
    {
      ghost var before := db.tags;
      var found := TagRepository.FindOrCreate(db, names[i], indexFails, now);
      assert TagsGrow(before, db.tags);
      forall j | 0 <= j < i && allFound
        ensures TagRepository.NameStored(db.tags, names[j])
      {
        StoredStaysStored(before, db.tags, names[j]);
      }
      if found.Err? {
        allFound := false;
      } else {
        assert found.value.id in db.tags && db.tags[found.value.id].name == names[i];
      }
    }
  }

  /** The write step of `handleSubmit`: update the transaction being edited,
      which fails when it is no longer stored, or create a new one. */
  method Save(db: Database, editingId: Option<string>, changes: TransactionRepository.TransactionPatch,
              record: TransactionRepository.NewTransaction, now: int) returns (r: SubmitOutcome)
    requires db.Valid()
    modifies db
    ensures db.Valid() && !r.Rejected?
    ensures r.Failed? <==> editingId.Some? && editingId.value !in old(db.transactions)
    ensures r.Failed? ==> db.transactions == old(db.transactions)
    ensures r.Saved? && editingId.None? ==>
      TransactionRepository.Payload(r.tx) == record && r.tx.id !in old(db.transactions) &&
      db.transactions == old(db.transactions)[r.tx.id := r.tx]
    ensures r.Saved? && editingId.Some? ==>
      r.tx == TransactionRepository.ApplyPatch(old(db.transactions)[editingId.value], changes) &&
      db.transactions == old(db.transactions)[editingId.value := r.tx]
    ensures r.Saved? && editingId.None? ==> db.streams == TransactionRepository.StreamsAfterCreate(old(db.streams), r.tx)
    ensures !(r.Saved? && editingId.None?) ==> db.streams == old(db.streams)
    ensures db.tags == old(db.tags) && db.exchangeRates == old(db.exchangeRates)
    ensures db.settings == old(db.settings) && db.automations == old(db.automations)
  {
    if editingId.Some? {
      var u := TransactionRepository.Update(db, editingId.value, changes);
      if u.Err? {
        return Failed("Failed to save transaction. Please try again.");
      }
      r := Saved(u.value);
    } else {
      var tx := TransactionRepository.Create(db, record, now);
      r := Saved(tx);
    }
  }

  /** The form's state. */
  class Form {
    var kind: TxType
    var amount: Option<real>
    var streamId: string
    var applicabilityDate: Date
    var description: string
    var tagInput: string
    var tags: seq<string>
    var isSubmitting: bool
    /** The id of the transaction being edited, when it has one. */
    const editingId: Option<string>

    /** The form opened on `initial`, or blank on `today` with the first
        stream chosen. */
    constructor(streams: seq<Stream>, initial: Option<Transaction>, today: Date)
      ensures initial.Some? ==>
        kind == initial.value.kind && amount == Some(initial.value.amount) &&
        applicabilityDate == initial.value.applicabilityDate && tags == initial.value.tags &&
        description == OrElse(initial.value.description, "")
      ensures initial.None? ==>
        kind == Expense && amount.None? && applicabilityDate == today && tags == [] && description == ""
      ensures streamId == if initial.Some? && initial.value.streamId != "" then initial.value.streamId
                          else if |streams| > 0 then streams[0].id else ""
      ensures editingId.Some? <==> initial.Some? && initial.value.id != ""
      ensures editingId.Some? ==> editingId.value == initial.value.id
      ensures tagInput == "" && !isSubmitting
    {
      kind := if initial.Some? then initial.value.kind else Expense;
      amount := if initial.Some? then Some(initial.value.amount) else None;
      streamId := if initial.Some? && initial.value.streamId != "" then initial.value.streamId
                  else if |streams| > 0 then streams[0].id else "";
      applicabilityDate := if initial.Some? then initial.value.applicabilityDate else today;
      description := if initial.Some? then OrElse(initial.value.description, "") else "";
      tagInput := "";
      tags := if initial.Some? then initial.value.tags else [];
      isSubmitting := false;
      editingId := if initial.Some? && initial.value.id != "" then Some(initial.value.id) else None;
    }

    /** `handleAddTag`: the input is cleared only when the tag was added. */
    method HandleAddTag()
      modifies this
      ensures tags == WithTag(old(tags), old(tagInput))
      ensures tagInput == if |tags| > |old(tags)| then "" else old(tagInput)
      ensures |tags| > |old(tags)| <==> Trim(old(tagInput)) != "" && Trim(old(tagInput)) !in old(tags)
      ensures kind == old(kind) && amount == old(amount) && streamId == old(streamId)
      ensures applicabilityDate == old(applicabilityDate) && description == old(description)
      ensures isSubmitting == old(isSubmitting)
    {
      var trimmed := Trim(tagInput);
      if trimmed != "" && trimmed !in tags {
        tags := tags + [trimmed];
        tagInput := "";
      }
    }

    /** `handleRemoveTag`. */
    method HandleRemoveTag(tag: string)
      modifies this
      ensures tags == WithoutTag(old(tags), tag)
      ensures tagInput == old(tagInput) && kind == old(kind) && amount == old(amount)
      ensures streamId == old(streamId) && applicabilityDate == old(applicabilityDate)
      ensures description == old(description) && isSubmitting == old(isSubmitting)
    {
      tags := WithoutTag(tags, tag);
    }

    /** The record a new transaction is created from. */
    function NewRecord(streams: seq<Stream>): (data: TransactionRepository.NewTransaction)
      reads this
      ensures data.recurrenceId.None? && data.tags == tags && data.kind == kind
      ensures data.currency == FormCurrency(streams, streamId)
      ensures data.description == TrimOrAbsent(description)
    {
      TransactionRepository.NewTransaction(streamId, if amount.Some? then amount.value else 0.0,
        FormCurrency(streams, streamId), applicabilityDate, kind, tags, None, TrimOrAbsent(description))
    }

    /** The changes an edit writes: every field but the recurrence link. */
    function Changes(streams: seq<Stream>): (p: TransactionRepository.TransactionPatch)
      reads this
      ensures p.recurrenceId.None? && p.tags == Some(tags)
      ensures p.description == Some(TrimOrAbsent(description))
    {
      TransactionRepository.TransactionPatch(Some(streamId), Some(if amount.Some? then amount.value else 0.0),
        Some(FormCurrency(streams, streamId)), Some(applicabilityDate), Some(kind), Some(tags), None,
        Some(TrimOrAbsent(description)))
    }

    /** `handleSubmit`.  A missing or non-positive amount and a missing
        stream are rejected before anything is written.  Otherwise every tag
        goes through `findOrCreate`, then the transaction is updated (when
        an existing one is edited) or created.  A failure in either step
        leaves the transactions as they were and re-enables the form. */
    method HandleSubmit(db: Database, streams: seq<Stream>, indexFails: bool, now: int) returns (r: SubmitOutcome)
      requires db.Valid()
      modifies this, db
      ensures db.Valid()
      ensures r.Rejected? <==> !ValidAmount(old(amount)) || old(streamId) == ""
      ensures r.Rejected? ==>
        r.message == (if !ValidAmount(old(amount)) then "Please enter a valid amount" else "Please select a stream") &&
        db.tags == old(db.tags) && db.transactions == old(db.transactions) && isSubmitting == old(isSubmitting)
      ensures r.Saved? ==> isSubmitting && forall t :: t in tags ==> TagRepository.NameStored(db.tags, t)
      ensures r.Saved? && editingId.None? ==>
        TransactionRepository.Payload(r.tx) == NewRecord(streams) && r.tx.id !in old(db.transactions) &&
        db.transactions == old(db.transactions)[r.tx.id := r.tx]
      ensures r.Saved? && editingId.Some? ==>
        editingId.value in old(db.transactions) &&
        r.tx == TransactionRepository.ApplyPatch(old(db.transactions)[editingId.value], Changes(streams)) &&
        db.transactions == old(db.transactions)[editingId.value := r.tx]
      ensures r.Failed? ==> !isSubmitting && db.transactions == old(db.transactions)
      ensures r.Saved? && editingId.None? ==> db.streams == TransactionRepository.StreamsAfterCreate(old(db.streams), r.tx)
      ensures !(r.Saved? && editingId.None?) ==> db.streams == old(db.streams)
      ensures TagsGrow(old(db.tags), db.tags)
      ensures db.exchangeRates == old(db.exchangeRates) && db.settings == old(db.settings)
      ensures db.automations == old(db.automations)
      ensures kind == old(kind) && amount == old(amount) && streamId == old(streamId) && tags == old(tags)
      ensures applicabilityDate == old(applicabilityDate) && description == old(description) && tagInput == old(tagInput)
    {
      if !ValidAmount(amount) {
        return Rejected("Please enter a valid amount");
      }
      if streamId == "" {
        return Rejected("Please select a stream");
      }
      isSubmitting := true;
      var allFound := StoreTags(db, tags, indexFails, now);
      if !allFound {
        isSubmitting := false;
        return Failed("Failed to save transaction. Please try again.");
      }
      r := Save(db, editingId, Changes(streams), NewRecord(streams), now);
      if r.Failed? {
        isSubmitting := false;
      }
    }
  }
}
