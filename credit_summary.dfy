/** The home screen's credit summary: over the streams flagged as credit
    cards with a limit, the total limit, the total usage up to the selected
    day and the credit still available.  Nothing is shown without a card. */
module CreditSummary {
  import opened Calendar
  import opened Domain
  import opened Seqs
  import opened StreamsSection

  datatype CreditTotals = CreditTotals(totalCreditLimit: real, totalUsedCredit: real, availableCredit: real)

  /** The streams the summary counts. */
  function Cards(streams: seq<Stream>): (cards: seq<Stream>)
    ensures forall s :: s in cards <==> s in streams && ShowsCredit(s)
  {
    Filter(streams, ShowsCredit)
  }

  /** `card.creditLimit || 0`. */
  function LimitOf(s: Stream): real {
    if s.creditLimit.Some? then s.creditLimit.value else 0.0
  }

  /** The card's usage as a function of the card, for summing. */
  function UsageOf(txs: seq<Transaction>, selected: Date): Stream -> real {
    (s: Stream) => CardUsage(s, txs, selected)
  }

  /** The summary: `None` when no stream is a card; otherwise the limits and
      usages summed over the cards, and their difference. */
  method Summarize(streams: seq<Stream>, txs: seq<Transaction>, selected: Date) returns (r: Option<CreditTotals>)
    ensures r.None? <==> forall s :: s in streams ==> !ShowsCredit(s)
    ensures r.Some? ==>
      r.value.totalCreditLimit == Sum(Cards(streams), LimitOf) &&
      r.value.totalUsedCredit == Sum(Cards(streams), UsageOf(txs, selected)) &&
      r.value.availableCredit == r.value.totalCreditLimit - r.value.totalUsedCredit
    ensures r.Some? ==> r.value.availableCredit == Sum(Cards(streams), (s: Stream) => ShownValue(s, txs, selected))
  {
    var cards := Filter(streams, ShowsCredit);
    if |cards| == 0 {
      return None;
    }
    assert cards[0] in cards;
    var totalCreditLimit := 0.0;
    var totalUsedCredit := 0.0;
    for i := 0 to |cards|
      invariant totalCreditLimit == Sum(cards[..i], LimitOf)
      invariant totalUsedCredit == Sum(cards[..i], UsageOf(txs, selected))
    {
      var card := cards[i];
      totalCreditLimit := totalCreditLimit + LimitOf(card);
      var cardTransactions := CardTxs(txs, card.id, selected);
      var transactionUsage := Sum(cardTransactions, UsageChange);
      var usage := OpeningUsage(card) + transactionUsage;
      totalUsedCredit := totalUsedCredit + usage;
      assert cards[..i + 1][..i] == cards[..i];
    }
    assert cards[..|cards|] == cards;
    AvailableIsSumOfShown(cards, txs, selected);
    r := Some(CreditTotals(totalCreditLimit, totalUsedCredit, totalCreditLimit - totalUsedCredit));
  }

  /** The available credit of the summary is the sum of the available
      credit the stream list shows on each card. */
  lemma {:induction false} AvailableIsSumOfShown(cards: seq<Stream>, txs: seq<Transaction>, selected: Date)
    requires forall s :: s in cards ==> ShowsCredit(s)
    ensures Sum(cards, LimitOf) - Sum(cards, UsageOf(txs, selected)) ==
      Sum(cards, (s: Stream) => ShownValue(s, txs, selected))
    decreases |cards|
  {
    if |cards| > 0 {
      var init := cards[..|cards| - 1];
      assert forall s :: s in init ==> s in cards;
      AvailableIsSumOfShown(init, txs, selected);
      assert cards[|cards| - 1] in cards;
    }
  }
}
