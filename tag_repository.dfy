/** The tag repository.  Tag names are unique: the `by-name` index refuses a
    second record with a name already stored, so a write that would create
    one fails. */
module TagRepository {
  import opened Domain
  import opened Store

  /** Some stored tag has this name. */
  predicate NameStored(tags: map<string, Tag>, name: string) {
    exists k :: k in tags && tags[k].name == name
  }

  /** Some stored tag other than the one under `except` has this name. */
  predicate NameTaken(tags: map<string, Tag>, name: string, except: string) {
    exists k :: k in tags && k != except && tags[k].name == name
  }

  /** `create`: stores a tag with a fresh id, stamped `now`; the put fails
      when the name is already taken. */
  method Create(db: Database, name: string, now: int) returns (r: Result<Tag>)
    requires db.Valid()
    modifies db
    ensures db.Valid()
    ensures r.Err? <==> NameStored(old(db.tags), name)
    ensures r.Err? ==> db.tags == old(db.tags)
    ensures r.Ok? ==>
      r.value.id !in old(db.tags) && r.value.name == name && r.value.createdAt == now &&
      db.tags == old(db.tags)[r.value.id := r.value]
    ensures db.streams == old(db.streams) && db.transactions == old(db.transactions)
    ensures db.exchangeRates == old(db.exchangeRates) && db.settings == old(db.settings)
    ensures db.automations == old(db.automations)
  {
    var id := NewId(db.tags.Keys);
    var taken := FindNamed(db.tags, name);
    if taken.Some? {
      return Err("ConstraintError: tag name already stored");
    }
    var tag := Tag(id, name, now);
    db.tags := db.tags[id := tag];
    r := Ok(tag);
  }

  /** The stored tag named `name`, if any (an index lookup). */
  method FindNamed(tags: map<string, Tag>, name: string) returns (r: Option<Tag>)
    ensures r.None? <==> !NameStored(tags, name)
    ensures r.Some? ==> r.value in tags.Values && r.value.name == name
  {
    var rest := tags.Keys;
    while rest != {}
      invariant rest <= tags.Keys
      invariant forall k :: k in tags.Keys - rest ==> tags[k].name != name
      decreases rest
    {
      var k :| k in rest;
      if tags[k].name == name {
        return Some(tags[k]);
      }
      rest := rest - {k};
    }
    r := None;
  }

  method FindById(db: Database, id: string) returns (r: Option<Tag>)
    requires db.Valid()
    ensures r.Some? <==> id in db.tags
    ensures r.Some? ==> r.value == db.tags[id] && r.value.id == id
  {
    if id in db.tags {
      r := Some(db.tags[id]);
    } else {
      r := None;
    }
  }

  method FindAll(db: Database) returns (ts: seq<Tag>)
    ensures |ts| == |db.tags.Keys|
    ensures forall t :: t in ts <==> t in db.tags.Values
  {
    ts := ValuesOf(db.tags);
  }

  /** `findByName`: the tag with that name, or none when there is none or
      when the index lookup throws (`indexFails`). */
  method FindByName(db: Database, name: string, indexFails: bool) returns (r: Option<Tag>)
    requires db.Valid()
    ensures indexFails ==> r.None?
    ensures !indexFails ==> (r.None? <==> !NameStored(db.tags, name))
    ensures r.Some? ==> r.value.id in db.tags && db.tags[r.value.id] == r.value && r.value.name == name
  {
    if indexFails {
      return None;
    }
    r := FindNamed(db.tags, name);
  }

  /** `findOrCreate`: the stored tag of that name, without writing, or a new
      one.  When the lookup fails although the name is stored, the create
      hits the unique index and fails. */
  method FindOrCreate(db: Database, name: string, indexFails: bool, now: int) returns (r: Result<Tag>)
    requires db.Valid()
    modifies db
    ensures db.Valid()
    ensures !indexFails && NameStored(old(db.tags), name) ==>
      r.Ok? && r.value in old(db.tags).Values && db.tags == old(db.tags)
    ensures !NameStored(old(db.tags), name) ==>
      r.Ok? && r.value.id !in old(db.tags) && db.tags == old(db.tags)[r.value.id := r.value]
    ensures indexFails && NameStored(old(db.tags), name) ==> r.Err? && db.tags == old(db.tags)
    ensures r.Ok? ==> r.value.name == name && r.value.id in db.tags && db.tags[r.value.id] == r.value
    ensures r.Ok? ==> forall k :: k in db.tags && db.tags[k].name == name ==> k == r.value.id
    ensures db.streams == old(db.streams) && db.transactions == old(db.transactions)
    ensures db.exchangeRates == old(db.exchangeRates) && db.settings == old(db.settings)
    ensures db.automations == old(db.automations)
  {
    var existing := FindByName(db, name, indexFails);
    if existing.Some? {
      return Ok(existing.value);
    }
    r := Create(db, name, now);
  }

  /** A `Partial<Tag>`: only the name can usefully change. */
  datatype TagPatch = TagPatch(name: Option<string>)

  /** `update`: fails for an unknown id and when the new name belongs to
      another tag; otherwise keeps id and createdAt. */
  method Update(db: Database, id: string, patch: TagPatch) returns (r: Result<Tag>)
    requires db.Valid()
    modifies db
    ensures db.Valid()
    ensures r.Err? <==> id !in old(db.tags) || (patch.name.Some? && NameTaken(old(db.tags), patch.name.value, id))
    ensures r.Err? ==> db.tags == old(db.tags)
    ensures r.Ok? ==>
      r.value.id == id && r.value.createdAt == old(db.tags)[id].createdAt &&
      r.value.name == (if patch.name.Some? then patch.name.value else old(db.tags)[id].name) &&
      db.tags == old(db.tags)[id := r.value]
    ensures db.streams == old(db.streams) && db.transactions == old(db.transactions)
    ensures db.exchangeRates == old(db.exchangeRates) && db.settings == old(db.settings)
    ensures db.automations == old(db.automations)
  {
    var existing := FindById(db, id);
    if existing.None? {
      return Err("Tag with id " + id + " not found");
    }
    var updated := existing.value;
    if patch.name.Some? {
      updated := updated.(name := patch.name.value);
      var rest := db.tags.Keys - {id};
      var clash := false;
      while rest != {}
        invariant rest <= db.tags.Keys - {id}
        invariant clash ==> NameTaken(db.tags, updated.name, id)
        invariant !clash ==> forall k :: k in db.tags.Keys - {id} - rest ==> db.tags[k].name != updated.name
        decreases rest
      {
        var k :| k in rest;
        if db.tags[k].name == updated.name {
          clash := true;
        }
        rest := rest - {k};
      }
      if clash {
        return Err("ConstraintError: tag name already stored");
      }
    }
    db.tags := db.tags[id := updated];
    r := Ok(updated);
  }

  /** `delete`: removes the record, if any. */
  method Delete(db: Database, id: string)
    requires db.Valid()
    modifies db
    ensures db.Valid()
    ensures db.tags == old(db.tags) - {id}
    ensures db.streams == old(db.streams) && db.transactions == old(db.transactions)
    ensures db.exchangeRates == old(db.exchangeRates) && db.settings == old(db.settings)
    ensures db.automations == old(db.automations)
  {
    db.tags := db.tags - {id};
  }
}
