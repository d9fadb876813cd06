/** The home screen's stream list: streams ordered by their latest activity,
    each shown with its balance up to the selected day, or, for a credit
    card, with the credit still available on it. */
module StreamsSection {
  import opened Calendar
  import opened Domain
  import opened Seqs
  import opened Sorting
  import Balance

  /** The stream's transactions. */
  function TxsOf(txs: seq<Transaction>, id: string): seq<Transaction> {
    Filter(txs, (tx: Transaction) => tx.streamId == id)
  }

  /** `Math.max(...txs.map(tx => tx.createdAt))` over a non-empty list. */
  function MaxCreatedAt(txs: seq<Transaction>): (m: int)
    requires |txs| > 0
    ensures forall tx :: tx in txs ==> tx.createdAt <= m
    ensures exists tx :: tx in txs && tx.createdAt == m
  {
    if |txs| == 1 then txs[0].createdAt
    else
      var rest := MaxCreatedAt(txs[..|txs| - 1]);
      assert forall tx :: tx in txs ==> tx in txs[..|txs| - 1] || tx == txs[|txs| - 1];
      if txs[|txs| - 1].createdAt > rest then txs[|txs| - 1].createdAt else rest
  }

  /** The time a stream was last active: its latest transaction's creation
      time, or its own creation time when it has no transaction. */
  function LatestActivity(s: Stream, txs: seq<Transaction>): (t: int)
    ensures (forall tx :: tx in txs ==> tx.streamId != s.id) ==> t == s.createdAt
    ensures (exists tx :: tx in txs && tx.streamId == s.id) ==>
      (exists tx :: tx in txs && tx.streamId == s.id && tx.createdAt == t) &&
      (forall tx :: tx in txs && tx.streamId == s.id ==> tx.createdAt <= t)
  {
    var own := TxsOf(txs, s.id);
    if |own| > 0 then MaxCreatedAt(own)
    else
      assert forall tx :: tx in txs ==> (tx in own <==> tx.streamId == s.id);
      s.createdAt
  }

  /** The comparator `bLatest - aLatest` as an order: most recent first. */
  function RecentFirst(txs: seq<Transaction>): (Stream, Stream) -> bool {
    (a: Stream, b: Stream) => LatestActivity(b, txs) <= LatestActivity(a, txs)
  }

  lemma RecentFirstIsPreorder(txs: seq<Transaction>)
    ensures TotalPreorder(RecentFirst(txs))
  {
  }

  /** `sortedStreams`: the streams, copied and sorted most recently active
      first. */
  function SortedStreams(streams: seq<Stream>, txs: seq<Transaction>): (r: seq<Stream>)
    ensures multiset(r) == multiset(streams)
    ensures forall i, j :: 0 <= i < j < |r| ==> LatestActivity(r[j], txs) <= LatestActivity(r[i], txs)
  {
    RecentFirstIsPreorder(txs);
    var r := SortWith(streams, RecentFirst(txs));
    assert forall i, j :: 0 <= i < j < |r| ==> RecentFirst(txs)(r[i], r[j]);
    r
  }

  /** `stream.isCreditCard && stream.creditLimit`: flagged as a card with a
      non-zero limit. */
  predicate ShowsCredit(s: Stream) {
    s.isCreditCard == Some(true) && s.creditLimit.Some? && s.creditLimit.value != 0.0
  }

  /** The stream's transactions dated on or before the selected day. */
  function CardTxs(txs: seq<Transaction>, id: string, selected: Date): seq<Transaction> {
    Filter(txs, (tx: Transaction) => tx.streamId == id && OnOrBefore(tx.applicabilityDate, selected))
  }

  /** Income adds, expense subtracts. */
  function Signed(tx: Transaction): real {
    if tx.kind == Income then tx.amount else -tx.amount
  }

  /** Expense adds to a card's usage, income (a payment) takes it off. */
  function UsageChange(tx: Transaction): real {
    if tx.kind == Expense then tx.amount else -tx.amount
  }

  /** `stream.currentUsage || 0`. */
  function OpeningUsage(s: Stream): real {
    if s.currentUsage.Some? then s.currentUsage.value else 0.0
  }

  /** A card's usage on the selected day: its opening usage plus what its
      transactions up to that day add. */
  function CardUsage(s: Stream, txs: seq<Transaction>, selected: Date): real {
    OpeningUsage(s) + Sum(CardTxs(txs, s.id, selected), UsageChange)
  }

  /** The value shown for a stream: the available credit of a card, the
      balance of any other stream. */
  function ShownValue(s: Stream, txs: seq<Transaction>, selected: Date): real {
    if ShowsCredit(s) then s.creditLimit.value - CardUsage(s, txs, selected)
    else Sum(CardTxs(txs, s.id, selected), Signed)
  }

  /** A stream's shown value is the stream balance of the balance engine;
      for a card it is the limit less the opening usage, plus that balance
      (payments free credit, spending uses it). */
  lemma ShownValueIsBalance(s: Stream, txs: seq<Transaction>, selected: Date)
    ensures !ShowsCredit(s) ==> ShownValue(s, txs, selected) == Balance.StreamBalance(txs, s.id, selected)
    ensures ShowsCredit(s) ==>
      ShownValue(s, txs, selected) == s.creditLimit.value - OpeningUsage(s) + Balance.StreamBalance(txs, s.id, selected)
  {
    var own := CardTxs(txs, s.id, selected);
    var upTo := (tx: Transaction) => OnOrBefore(tx.applicabilityDate, selected);
    var both := (tx: Transaction) => tx.streamId == s.id && OnOrBefore(tx.applicabilityDate, selected);
    FilterFilter(txs, both, upTo, both);
    FilterCongruent(txs, both, (tx: Transaction) => tx.streamId == s.id && OnOrBefore(tx.applicabilityDate, selected));
    assert Balance.StreamBalance(txs, s.id, selected) == Sum(own, (tx: Transaction) => Balance.Contribution(tx, None, None));
    SumCongruent(own, (tx: Transaction) => Balance.Contribution(tx, None, None), Signed);
    SumNegated(own, Signed, UsageChange);
  }
}
