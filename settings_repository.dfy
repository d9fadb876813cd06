/** The settings repository: a single record under id "1", created once,
    merged into by `update`, with the first-launch flag read from it. */
module SettingsRepository {
  import opened Domain
  import opened Store

  /** `get`: the record under "1", if any. */
  method Get(db: Database) returns (r: Option<UserSettings>)
    requires db.Valid()
    ensures r.Some? <==> SettingsId in db.settings
    ensures r.Some? ==> r.value == db.settings[SettingsId] && r.value.id == SettingsId
  {
    if SettingsId in db.settings {
      r := Some(db.settings[SettingsId]);
    } else {
      r := None;
    }
  }

  /** `create`: writes the record "1" with the given name and currency, the
      first launch marked done and both timestamps `now`. */
  method Create(db: Database, name: string, primaryCurrency: string, now: int) returns (s: UserSettings)
    requires db.Valid()
    modifies db
    ensures db.Valid()
    ensures s == UserSettings(SettingsId, name, primaryCurrency, false, now, now)
    ensures db.settings == map[SettingsId := s]
    ensures db.streams == old(db.streams) && db.transactions == old(db.transactions)
    ensures db.tags == old(db.tags) && db.exchangeRates == old(db.exchangeRates)
    ensures db.automations == old(db.automations)
  {
    s := UserSettings(SettingsId, name, primaryCurrency, false, now, now);
    db.settings := db.settings[SettingsId := s];
  }

  /** A `Partial<UserSettings>` (id and the timestamps are overwritten by
      `update`, so they are not listed). */
  datatype SettingsPatch = SettingsPatch(
    name: Option<string>,
    primaryCurrency: Option<string>,
    isFirstLaunch: Option<bool>)

  function Pick<T>(given: Option<T>, current: T): T {
    if given.Some? then given.value else current
  }

  /** The merged record: id "1", createdAt kept, updatedAt refreshed. */
  function Merge(s: UserSettings, p: SettingsPatch, now: int): (r: UserSettings)
    ensures r.id == SettingsId && r.createdAt == s.createdAt && r.updatedAt == now
    ensures p.isFirstLaunch.Some? ==> r.isFirstLaunch == p.isFirstLaunch.value
    ensures p.isFirstLaunch.None? ==> r.isFirstLaunch == s.isFirstLaunch
    ensures p == SettingsPatch(None, None, None) ==> r == s.(id := SettingsId, updatedAt := now)
  {
    UserSettings(SettingsId, Pick(p.name, s.name), Pick(p.primaryCurrency, s.primaryCurrency),
      Pick(p.isFirstLaunch, s.isFirstLaunch), s.createdAt, now)
  }

  /** `update`: fails when there is no record; otherwise stores the merge. */
  method Update(db: Database, patch: SettingsPatch, now: int) returns (r: Result<UserSettings>)
    requires db.Valid()
    modifies db
    ensures db.Valid()
    ensures r.Err? <==> SettingsId !in old(db.settings)
    ensures r.Err? ==> db.settings == old(db.settings)
    ensures r.Ok? ==>
      r.value == Merge(old(db.settings)[SettingsId], patch, now) &&
      db.settings == map[SettingsId := r.value]
    ensures db.streams == old(db.streams) && db.transactions == old(db.transactions)
    ensures db.tags == old(db.tags) && db.exchangeRates == old(db.exchangeRates)
    ensures db.automations == old(db.automations)
  {
    var existing := Get(db);
    if existing.None? {
      return Err("Settings not found. Please initialize settings first.");
    }
    var updated := Merge(existing.value, patch, now);
    db.settings := db.settings[SettingsId := updated];
    r := Ok(updated);
  }

  /** `isFirstLaunch`: true when there is no record or its flag is set. */
  method IsFirstLaunch(db: Database) returns (b: bool)
    requires db.Valid()
    ensures b <==> SettingsId !in db.settings || db.settings[SettingsId].isFirstLaunch
  {
    var s := Get(db);
    b := s.None? || s.value.isFirstLaunch;
  }

  /** `markLaunchComplete`: clears the flag of an existing record; does
      nothing when there is none.  Afterwards it is no longer a first launch
      exactly when a record exists. */
  method MarkLaunchComplete(db: Database, now: int)
    requires db.Valid()
    modifies db
    ensures db.Valid()
    ensures SettingsId !in old(db.settings) ==> db.settings == old(db.settings)
    ensures SettingsId in old(db.settings) ==>
      db.settings == map[SettingsId := old(db.settings)[SettingsId].(isFirstLaunch := false, updatedAt := now)]
    ensures (SettingsId !in db.settings || db.settings[SettingsId].isFirstLaunch) <==> SettingsId !in old(db.settings)
    ensures db.streams == old(db.streams) && db.transactions == old(db.transactions)
    ensures db.tags == old(db.tags) && db.exchangeRates == old(db.exchangeRates)
    ensures db.automations == old(db.automations)
  {
    var s := Get(db);
    if s.Some? {
      var _ := Update(db, SettingsPatch(None, None, Some(false)), now);
    }
  }
}
