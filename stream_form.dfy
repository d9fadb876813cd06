/** The stream form: a name (required, saved trimmed), an icon, a currency
    (fixed once the stream exists), and, for the card icon, a credit limit
    and the usage so far. */
module StreamForm {
  import opened Domain
  import opened Text
  import opened Store
  import StreamRepository
  import StreamsSection

  /** The icon that marks a credit card. */
  const CardIcon: string := "card"

  /** `parseFloat(x) || 0` on a number input. */
  function OrZero(x: Option<real>): real {
    if x.Some? then x.value else 0.0
  }

  /** The form's fields. */
  datatype Fields = Fields(
    name: string,
    icon: string,
    baseCurrency: string,
    isCreditCard: bool,
    creditLimit: Option<real>,
    currentUsage: Option<real>)

  datatype Submission =
    | Rejected(message: string)
    | UpdateStream(id: string, patch: StreamRepository.StreamPatch)
    | CreateStream(data: StreamRepository.NewStream)

  /** `handleSubmit` as written: the card flag the form keeps is not part
      of what it saves. */
  function SubmitAsWritten(f: Fields, initial: Option<Stream>): (s: Submission)
    ensures s.Rejected? <==> Trim(f.name) == ""
    ensures s.CreateStream? ==> s.data.isCreditCard.None?
    ensures s.UpdateStream? ==> s.patch.isCreditCard.None?
  {
    if Trim(f.name) == "" then Rejected("Please enter a stream name")
    else if initial.Some? && initial.value.id != "" then
      UpdateStream(initial.value.id, StreamRepository.StreamPatch(
        Some(Trim(f.name)), Some(f.icon), Some(initial.value.baseCurrency),
        if f.isCreditCard then Some(Some(OrZero(f.creditLimit))) else None,
        if f.isCreditCard then Some(Some(OrZero(f.currentUsage))) else None,
        None, None))
    else
      CreateStream(StreamRepository.NewStream(Trim(f.name), f.icon, f.baseCurrency,
        if f.isCreditCard then Some(OrZero(f.creditLimit)) else None,
        if f.isCreditCard then Some(OrZero(f.currentUsage)) else None,
        None))
  }

  /** `handleSubmit` saving the card flag along with the credit fields. */
  function Submit(f: Fields, initial: Option<Stream>): (s: Submission)
    ensures s.Rejected? <==> Trim(f.name) == ""
    ensures s.Rejected? ==> s.message == "Please enter a stream name"
    ensures s.UpdateStream? <==> !s.Rejected? && initial.Some? && initial.value.id != ""
    ensures s.UpdateStream? ==>
      s.id == initial.value.id &&
      s.patch.name == Some(Trim(f.name)) && s.patch.icon == Some(f.icon) &&
      s.patch.baseCurrency == Some(initial.value.baseCurrency) &&
      s.patch.isCreditCard == Some(Some(f.isCreditCard)) && s.patch.archivedAt.None? &&
      (s.patch.creditLimit.Some? <==> f.isCreditCard) && (s.patch.currentUsage.Some? <==> f.isCreditCard)
    ensures s.CreateStream? ==>
      s.data.name == Trim(f.name) && s.data.icon == f.icon && s.data.baseCurrency == f.baseCurrency &&
      s.data.isCreditCard == Some(f.isCreditCard) &&
      (s.data.creditLimit.Some? <==> f.isCreditCard) && (s.data.currentUsage.Some? <==> f.isCreditCard)
    ensures f.isCreditCard && s.CreateStream? ==>
      s.data.creditLimit == Some(OrZero(f.creditLimit)) && s.data.currentUsage == Some(OrZero(f.currentUsage))
    ensures f.isCreditCard && s.UpdateStream? ==>
      s.patch.creditLimit == Some(Some(OrZero(f.creditLimit))) &&
      s.patch.currentUsage == Some(Some(OrZero(f.currentUsage)))
  {
    match SubmitAsWritten(f, initial)
    case Rejected(m) => Rejected(m)
    case UpdateStream(id, p) => UpdateStream(id, p.(isCreditCard := Some(Some(f.isCreditCard))))
    case CreateStream(d) => CreateStream(d.(isCreditCard := Some(f.isCreditCard)))
  }

  /** As written, a stream created from the form is never shown as a card,
      whatever its icon and limit: neither the stream list nor the credit
      summary offers available credit for it. */
  lemma AsWrittenCardNeverShowsCredit(f: Fields, id: string, now: int)
    requires SubmitAsWritten(f, None).CreateStream?
    ensures var d := SubmitAsWritten(f, None).data;
      !StreamsSection.ShowsCredit(Stream(id, d.name, d.icon, d.baseCurrency, d.creditLimit, d.currentUsage,
                                         d.isCreditCard, now, None))
  {
  }

  /** A card entered with a limit of 5000 under a name that needs no
      trimming (such as "Visa"), as written: the saved record has the limit
      but not the flag, so it does not show as a card. */
  lemma AsWrittenCardExample(name: string)
    requires name != "" && Trim(name) == name
    ensures var f := Fields(name, CardIcon, "EGP", true, Some(5000.0), None);
      var d := SubmitAsWritten(f, None).data;
      SubmitAsWritten(f, None).CreateStream? && d.name == name && d.creditLimit == Some(5000.0) &&
      !StreamsSection.ShowsCredit(Stream("s1", d.name, d.icon, d.baseCurrency, d.creditLimit, d.currentUsage,
                                         d.isCreditCard, 0, None))
  {
    AsWrittenCardNeverShowsCredit(Fields(name, CardIcon, "EGP", true, Some(5000.0), None), "s1", 0);
  }

  /** With the flag saved, a card created with a non-zero limit shows its
      available credit, and a stream created without the card icon does
      not. */
  lemma CardShowsCredit(f: Fields, id: string, now: int)
    requires Submit(f, None).CreateStream?
    requires f.isCreditCard <==> f.icon == CardIcon
    ensures var d := Submit(f, None).data;
      var s := Stream(id, d.name, d.icon, d.baseCurrency, d.creditLimit, d.currentUsage, d.isCreditCard, now, None);
      StreamsSection.ShowsCredit(s) <==> f.icon == CardIcon && OrZero(f.creditLimit) != 0.0
  {
  }

  datatype SubmitOutcome = Refused(message: string) | Saved(stream: Stream) | Failed(message: string)

  /** Hands an accepted submission to the repository: an update may be turned
      down by it, a creation always succeeds. */
  method Save(db: Database, s: Submission, now: int) returns (r: SubmitOutcome)
    requires db.Valid() && !s.Rejected?
    modifies db
    ensures db.Valid() && !r.Refused?
    ensures r.Failed? ==> db.streams == old(db.streams)
    ensures s.CreateStream? ==>
      r.Saved? && r.stream.id !in old(db.streams) && r.stream.archivedAt.None? && r.stream.createdAt == now &&
      r.stream.isCreditCard == s.data.isCreditCard && r.stream.name == s.data.name &&
      db.streams == old(db.streams)[r.stream.id := r.stream]
    ensures s.UpdateStream? ==>
      (r.Saved? <==> s.id in old(db.streams) && !StreamRepository.ChangesCurrency(old(db.streams)[s.id], s.patch))
    ensures s.UpdateStream? && r.Saved? ==>
      r.stream == StreamRepository.ApplyPatch(old(db.streams)[s.id], s.patch) &&
      db.streams == old(db.streams)[s.id := r.stream]
    ensures db.transactions == old(db.transactions) && db.tags == old(db.tags)
    ensures db.exchangeRates == old(db.exchangeRates) && db.settings == old(db.settings)
    ensures db.automations == old(db.automations)
  {
    if s.UpdateStream? {
      var u := StreamRepository.Update(db, s.id, s.patch);
      if u.Err? {
        return Failed("Failed to save stream. Please try again.");
      }
      r := Saved(u.value);
    } else {
      var created := StreamRepository.Create(db, s.data, now);
      r := Saved(created);
    }
  }

  /** The form's state. */
  class Form {
    var name: string
    var icon: string
    var baseCurrency: string
    var isCreditCard: bool
    var creditLimit: Option<real>
    var currentUsage: Option<real>
    var isSubmitting: bool
    const initial: Option<Stream>

    /** The card flag follows the icon. */
    ghost predicate Valid()
      reads this
    {
      isCreditCard <==> icon == CardIcon
    }

    function Current(): Fields
      reads this`name, this`icon, this`baseCurrency, this`isCreditCard, this`creditLimit, this`currentUsage
    {
      Fields(name, icon, baseCurrency, isCreditCard, creditLimit, currentUsage)
    }

    /** The form opened on `initial`, or blank: a bank account in USD. */
    constructor(initial: Option<Stream>)
      ensures Valid() && this.initial == initial && !isSubmitting
      ensures name == (if initial.Some? then initial.value.name else "")
      ensures icon == (if initial.Some? && initial.value.icon != "" then initial.value.icon else "bank")
      ensures baseCurrency == (if initial.Some? && initial.value.baseCurrency != "" then initial.value.baseCurrency else "USD")
      ensures isCreditCard <==> initial.Some? && initial.value.icon == CardIcon
      ensures creditLimit == (if initial.Some? then initial.value.creditLimit else None)
      ensures currentUsage == (if initial.Some? then initial.value.currentUsage else None)
    {
      name := if initial.Some? then initial.value.name else "";
      icon := if initial.Some? && initial.value.icon != "" then initial.value.icon else "bank";
      baseCurrency := if initial.Some? && initial.value.baseCurrency != "" then initial.value.baseCurrency else "USD";
      isCreditCard := initial.Some? && initial.value.icon == CardIcon;
      creditLimit := if initial.Some? then initial.value.creditLimit else None;
      currentUsage := if initial.Some? then initial.value.currentUsage else None;
      isSubmitting := false;
      this.initial := initial;
    }

    /** An icon button: the card icon turns the card fields on, any other
        icon turns them off. */
    method SelectIcon(id: string)
      requires Valid()
      modifies this
      ensures Valid() && icon == id && isCreditCard == (id == CardIcon)
      ensures name == old(name) && baseCurrency == old(baseCurrency) && creditLimit == old(creditLimit)
      ensures currentUsage == old(currentUsage) && isSubmitting == old(isSubmitting)
    {
      icon := id;
      if id == CardIcon {
        isCreditCard := true;
      } else {
        isCreditCard := false;
      }
    }

    /** `handleSubmit` with the card flag saved.  An edit sends the stream's
        own currency, so it never trips the currency lock of the store. */
    method HandleSubmit(db: Database, now: int) returns (r: SubmitOutcome)
      requires db.Valid() && Valid()
      modifies this, db
      ensures db.Valid() && Valid()
      ensures r.Refused? <==> Trim(name) == ""
      ensures r.Refused? ==> db.streams == old(db.streams) && isSubmitting == old(isSubmitting)
      ensures r.Saved? ==> isSubmitting
      ensures r.Failed? ==> !isSubmitting && db.streams == old(db.streams)
      ensures Submit(Current(), initial).CreateStream? ==>
        r.Saved? && r.stream.id !in old(db.streams) && r.stream.archivedAt.None? && r.stream.createdAt == now &&
        db.streams == old(db.streams)[r.stream.id := r.stream]
      ensures Submit(Current(), initial).CreateStream? ==>
        r.Saved? && r.stream.isCreditCard == Some(isCreditCard) && r.stream.name == Trim(name)
      ensures Submit(Current(), initial).UpdateStream? ==>
        (r.Saved? <==> initial.value.id in old(db.streams) &&
                       (initial.value.baseCurrency == "" ||
                        old(db.streams)[initial.value.id].baseCurrency == initial.value.baseCurrency))
      ensures Submit(Current(), initial).UpdateStream? && r.Saved? ==>
        r.stream == StreamRepository.ApplyPatch(old(db.streams)[initial.value.id], Submit(Current(), initial).patch) &&
        db.streams == old(db.streams)[initial.value.id := r.stream]
      ensures db.transactions == old(db.transactions) && db.tags == old(db.tags)
      ensures db.exchangeRates == old(db.exchangeRates) && db.settings == old(db.settings)
      ensures db.automations == old(db.automations)
      ensures name == old(name) && icon == old(icon) && baseCurrency == old(baseCurrency)
      ensures isCreditCard == old(isCreditCard) && creditLimit == old(creditLimit) && currentUsage == old(currentUsage)
    {
      var s := Submit(Current(), initial);
      if s.Rejected? {
        return Refused(s.message);
      }
      isSubmitting := true;
      r := Save(db, s, now);
      if r.Failed? {
        isSubmitting := false;
      }
    }
  }
}
