/** The dynamic-property database (src/catalyst/core/database.ts): a
    key/value cache kept in memory and stored on a host as one JSON text
    under the id `db:<id>`. `JSON.stringify` and `JSON.parse` are not part
    of this model: they are passed in as functions. */
module Database {
  import opened Base
  import opened Json

  /** The size limit of the stored text. */
  const MaxSize := 32767

  const InvalidFormat := "Invalid format!"
  const StoreFailed := "Store failed!"
  const Overflow := "Database overflow!"

  /** The cached record: key to value. A key set to `undefined` stays a key. */
  type Cache = map<string, Json>

  /** A dynamic property value of the host: a string, or a number, boolean
      or vector. */
  datatype Property = Text(text: string) | NonText

  /** The three kinds of host. */
  datatype HostKind = World | Entity(entityId: string) | ItemStack

  /** A host and its dynamic properties; an id that is not a key is unset. */
  class Host {
    const kind: HostKind
    var properties: map<string, Property>

    constructor(kind: HostKind, properties: map<string, Property>)
      ensures this.kind == kind && this.properties == properties
    {
      this.kind := kind;
      this.properties := properties;
    }
  }

  // ---------------------------------------------------------------------------
  // The cache as a value

  /** `get(key, def)`: the cached value, unless it is absent, `null` or
      `undefined`, in which case the default. */
  function Lookup(cache: Cache, key: string, def: Json): (r: Json)
    ensures key !in cache ==> r == def
    ensures key in cache && Nullish(cache[key]) ==> r == def
    ensures key in cache && !Nullish(cache[key]) ==> r == cache[key]
  {
    if key in cache && !Nullish(cache[key]) then cache[key] else def
  }

  /** `has(key)`: the cached value is not `undefined` (a `null` value counts). */
  function Present(cache: Cache, key: string): (r: bool)
    ensures r <==> key in cache && !cache[key].Undefined?
  {
    key in cache && !cache[key].Undefined?
  }

  /** After `set(key, val)`, `get(key, def)` is the value unless it is
      nullish, `has(key)` holds unless it is `undefined`, and every other key
      reads as before. */
  lemma GetAfterSet(cache: Cache, key: string, val: Json, def: Json, other: string)
    requires other != key
    ensures Lookup(cache[key := val], key, def) == if Nullish(val) then def else val
    ensures Present(cache[key := val], key) <==> !val.Undefined?
    ensures Lookup(cache[key := val], other, def) == Lookup(cache, other, def)
    ensures Present(cache[key := val], other) == Present(cache, other)
  {
  }

  /** A present value that `get` still replaces by the default: `null`. */
  lemma NullPresentButDefaulted(cache: Cache, key: string, def: Json)
    requires key in cache && cache[key].Null?
    ensures Present(cache, key) && Lookup(cache, key, def) == def
  {
  }

  /** After `del(key)` the key is gone and the other keys are as before;
      after `clear()` no key is present. */
  lemma AbsentAfterDelete(cache: Cache, key: string, other: string)
    requires other != key
    ensures !Present(cache - {key}, key)
    ensures Present(cache - {key}, other) == Present(cache, other)
    ensures !Present(map[], key)
  {
  }

  // ---------------------------------------------------------------------------
  // Loading and saving

  /** `load`: nothing stored gives undefined and keeps the cache; a stored
      value that is not a string throws; otherwise the parsed text, or the
      parser's error. */
  function LoadOutcome(stored: Option<Property>, parse: string -> Result<Cache, string>): (r: Result<Option<Cache>, string>)
    ensures stored.None? ==> r == Ok(None)
    ensures stored == Some(NonText) ==> r == Err(InvalidFormat)
    ensures stored.Some? && stored.value.Text? ==>
      r == (if parse(stored.value.text).Ok? then Ok(Some(parse(stored.value.text).value)) else Err(parse(stored.value.text).error))
  {
    match stored
    case None => Ok(None)
    case Some(NonText) => Err(InvalidFormat)
    case Some(Text(raw)) =>
      var json :- parse(raw);
      Ok(Some(json))
  }

  /** `save`: the serialised cache, unless serialisation gives nothing or
      an empty text, or the text is longer than the size limit. */
  function SaveOutcome(cache: Cache, stringify: Cache -> Option<string>): (r: Result<string, string>)
    ensures r.Ok? <==> stringify(cache).Some? && 0 < |stringify(cache).value| <= MaxSize
    ensures r.Ok? ==> r.value == stringify(cache).value && |r.value| <= MaxSize
    ensures r.Err? ==> r.error == (if stringify(cache).None? || stringify(cache).value == [] then StoreFailed else Overflow)
  {
    match stringify(cache)
    case None => Err(StoreFailed)
    case Some(json) =>
      if json == [] then Err(StoreFailed)
      else if |json| > MaxSize then Err(Overflow)
      else Ok(json)
  }

  /** With a parser that reads back what the serialiser writes, a saved
      cache loads back as itself. */
  lemma SaveLoad(cache: Cache, stringify: Cache -> Option<string>, parse: string -> Result<Cache, string>)
    requires stringify(cache).Some? ==> parse(stringify(cache).value) == Ok(cache)
    requires SaveOutcome(cache, stringify).Ok?
    ensures LoadOutcome(Some(Text(SaveOutcome(cache, stringify).value)), parse) == Ok(Some(cache))
  {
  }

  /** `toString`: the id and the kind of host. */
  function Describe(id: string, kind: HostKind): (r: string)
    ensures |r| > |"Database[" + id + " @ "|
    ensures r[..|"Database[" + id + " @ "|] == "Database[" + id + " @ "
  {
    var host := match kind
      case Entity(entityId) => entityId
      case ItemStack => "itemStack"
      case World => "world";
    var head := "Database[" + id + " @ ";
    var r := head + host + "]";
    assert r[..|head|] == head;
    r
  }

  // ---------------------------------------------------------------------------
  // The database object

  class Database {
    /** `"db:"` and the given id: the property the data is stored under. */
    const id: string
    const host: Host
    var cache: Cache

    /** `new Database(id, host)`: an empty cache. */
    constructor(id: string, host: Host)
      ensures this.id == "db:" + id && this.host == host && cache == map[]
    {
      this.id := "db:" + id;
      this.host := host;
      cache := map[];
    }

    function Get(key: string, def: Json): Json
      reads this
    {
      Lookup(cache, key, def)
    }

    function Has(key: string): bool
      reads this
    {
      Present(cache, key)
    }

    /** `set`: the key now holds the value, the others are unchanged. */
    method Set(key: string, val: Json)
      modifies this
      ensures cache == old(cache)[key := val]
    {
      cache := cache[key := val];
    }

    /** `del`: the key is removed. As written it reports a removal whether
        or not the key was there; here the result says whether it was. */
    method Del(key: string) returns (existed: bool)
      modifies this
      ensures (existed, cache) == Deleted(old(cache), key)
    {
      existed := key in cache;
      cache := cache - {key};
    }

    /** `clear`: an empty cache, nothing stored changes. */
    method Clear()
      modifies this
      ensures cache == map[]
    {
      cache := map[];
    }

    /** `load`, with `JSON.parse` as `parse`. */
    method Load(parse: string -> Result<Cache, string>) returns (r: Result<Option<Cache>, string>)
      modifies this
      ensures r == LoadOutcome(if id in host.properties then Some(host.properties[id]) else None, parse)
      ensures cache == if r.Ok? && r.value.Some? then r.value.value else old(cache)
    {
      if id !in host.properties {
        return Ok(None);
      }
      var raw := host.properties[id];
      if raw.NonText? {
        return Err(InvalidFormat);
      }
      var json := parse(raw.text);
      if json.Err? {
        return Err(json.error);
      }
      cache := json.value;
      return Ok(Some(json.value));
    }

    /** `save`, with `JSON.stringify` as `stringify`: the text is stored
        under the id, unless saving fails, and the cache is kept. */
    method Save(stringify: Cache -> Option<string>) returns (r: Result<(), string>)
      modifies host
      ensures var s := SaveOutcome(cache, stringify);
        && (r.Err? <==> s.Err?)
        && (r.Err? ==> r.error == s.error && host.properties == old(host.properties))
        && (r.Ok? ==> host.properties == old(host.properties)[id := Text(s.value)])
    {
      var json := stringify(cache);
      if json.None? || json.value == [] {
        return Err(StoreFailed);
      }
      if |json.value| > MaxSize {
        return Err(Overflow);
      }
      host.properties := host.properties[id := Text(json.value)];
      return Ok(());
    }

    /** `destroy`: the stored property is unset, the cache is kept. */
    method Destroy()
      modifies host
      ensures host.properties == old(host.properties) - {id}
    {
      host.properties := host.properties - {id};
    }
  }

  /** `del` as documented: whether the key existed, and the cache without
      it; afterwards the key is not present and every other key is as before. */
  function Deleted(cache: Cache, key: string): (r: (bool, Cache))
    ensures r.0 <==> key in cache
    ensures key !in r.1 && !Present(r.1, key)
    ensures forall k :: k != key ==> (k in r.1 <==> k in cache)
    ensures forall k :: k != key && k in cache ==> r.1[k] == cache[k]
  {
    (key in cache, cache - {key})
  }

  /** `del` as written: `delete` on a record's own key always succeeds, so
      the result is true whether or not the key was there. */
  function DelAsWritten(cache: Cache, key: string): (r: bool)
    ensures r
  {
    true
  }

  /** For a key that was never set, `del` as written reports a removal. */
  lemma DelReportsAbsentKey()
    ensures var cache: Cache := map[];
      "money" !in cache && DelAsWritten(cache, "money")
  {
  }
}
