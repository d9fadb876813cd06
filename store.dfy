/** The browser database the repositories write to: one object store per
    record kind, each keyed by the record's `id`, modelled as a map from key
    to record that the repository methods reassign. */
module Store {
  import opened Domain

  /** The key of the single settings record. */
  const SettingsId: string := "1"

  class Database {
    var streams: map<string, Stream>
    var transactions: map<string, Transaction>
    var tags: map<string, Tag>
    var exchangeRates: map<string, ExchangeRateCache>
    var settings: map<string, UserSettings>
    var automations: map<string, Automation>

    /** A freshly created, empty database. */
    constructor ()
      ensures Valid()
      ensures streams == map[] && transactions == map[] && tags == map[]
      ensures exchangeRates == map[] && settings == map[] && automations == map[]
    {
      streams := map[];
      transactions := map[];
      tags := map[];
      exchangeRates := map[];
      settings := map[];
      automations := map[];
    }

    /** Every store has key path `id`; the `by-name` index on tags is unique;
        the settings store holds at most the record with id "1". */
    ghost predicate Valid()
      reads this
    {
      (forall k :: k in streams ==> streams[k].id == k) &&
      (forall k :: k in transactions ==> transactions[k].id == k) &&
      (forall k :: k in tags ==> tags[k].id == k) &&
      (forall k :: k in exchangeRates ==> exchangeRates[k].id == k) &&
      (forall k :: k in settings ==> k == SettingsId && settings[k].id == k) &&
      (forall k :: k in automations ==> automations[k].id == k) &&
      UniqueTagNames(tags)
    }
  }

  /** No two stored tags share a name. */
  ghost predicate UniqueTagNames(tags: map<string, Tag>) {
    forall k, k' :: k in tags && k' in tags && tags[k].name == tags[k'].name ==> k == k'
  }

  /** `getAll` on a store: every stored record, each once per key. */
  method ValuesOf<V(==)>(m: map<string, V>) returns (vs: seq<V>)
    ensures |vs| == |m.Keys|
    ensures forall v :: v in vs <==> v in m.Values
  {
    vs := [];
    var rest := m.Keys;
    while rest != {}
      invariant rest <= m.Keys
      invariant |vs| + |rest| == |m.Keys|
      invariant forall v :: v in vs <==> exists k :: k in m.Keys - rest && m[k] == v
      decreases rest
    {
      var k :| k in rest;
      vs := vs + [m[k]];
      rest := rest - {k};
    }
  }

  /** `uuidv4()`: an identifier not used by any stored record (it is longer
      than every key in `used`). */
  method NewId(used: set<string>) returns (id: string)
    ensures id !in used
  {
    var longest: nat := 0;
    var rest := used;
    while rest != {}
      invariant rest <= used
      invariant forall u :: u in used - rest ==> |u| <= longest
      decreases rest
    {
      var u :| u in rest;
      if |u| > longest {
        longest := |u|;
      }
      rest := rest - {u};
    }
    id := seq(longest + 1, _ => 'x');
    assert forall u :: u in used ==> |u| < |id|;
  }
}
