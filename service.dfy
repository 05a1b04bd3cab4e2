/** The cache-aside entity service shared by films, genres and persons: reads go to the
    cache first, fall back to the engine on a miss, and write what they found back under
    `<entity name>_<id>` for five minutes. */
module Services {
  import opened Wrappers
  import opened JsonValues
  import opened ElasticSearch

  const CacheExpireInSeconds: int := 60 * 5

  /** The entity model a service hydrates: validation of a JSON document, serialisation
      back to JSON, and the entity's id. */
  datatype Model<!T> = Model(validate: Json -> Result<T, ValidationError>, dump: T -> Json, id: T -> string)

  /** Whatever the model dumps it validates back unchanged. */
  ghost predicate RoundTrips<T(!new)>(m: Model<T>)
  {
    forall t :: m.validate(m.dump(t)) == Ok(t)
  }

  /** What a cache key holds: an empty value, or non-empty text holding a JSON document. */
  datatype Stored = Blank | Text(json: Json)

  /** A cached value with the time-to-live it was written with (expiry is not modelled). */
  datatype Entry = Entry(value: Stored, ttl: int)

  /** The cache key of entity `id` in the namespace `entityName`. */
  function Key(entityName: string, id: string): string
  {
    entityName + "_" + id
  }

  /** Within one namespace, distinct ids have distinct keys. */
  lemma KeyInjective(entityName: string, a: string, b: string)
    ensures Key(entityName, a) == Key(entityName, b) <==> a == b
  {
    if Key(entityName, a) == Key(entityName, b) {
      var n := |entityName| + 1;
      assert a == Key(entityName, a)[n..];
      assert b == Key(entityName, b)[n..];
    }
  }

  /** `_get_from_cache`: a missing or empty value is a miss; any other value is validated,
      and a failing validation raises. */
  function ReadCache<T>(cache: map<string, Entry>, key: string, m: Model<T>): (r: Result<Option<T>, ValidationError>)
  {
    if key !in cache || cache[key].value.Blank? then Ok(None)
    else
      match m.validate(cache[key].value.json)
      case Ok(t) => Ok(Some(t))
      case Err(e) => Err(e)
  }

  /** `_put_to_cache`: the dumped entity under the key of its own id, with the fixed TTL. */
  function WriteCache<T>(cache: map<string, Entry>, entityName: string, m: Model<T>, item: T): (c: map<string, Entry>)
  {
    cache[Key(entityName, m.id(item)) := Entry(Text(m.dump(item)), CacheExpireInSeconds)]
  }

  /** A write is read back as the entity written, with a 300-second TTL, and touches no
      other key. */
  lemma WriteThenRead<T(!new)>(cache: map<string, Entry>, entityName: string, m: Model<T>, item: T, other: string)
    requires RoundTrips(m)
    ensures var c := WriteCache(cache, entityName, m, item);
            && ReadCache(c, Key(entityName, m.id(item)), m) == Ok(Some(item))
            && c[Key(entityName, m.id(item))].ttl == 300
            && (other != Key(entityName, m.id(item)) ==>
                  (other in c <==> other in cache) && (other in cache ==> c[other] == cache[other]))
  {
    assert m.validate(m.dump(item)) == Ok(item);
  }

  /** `get_by_id` as a step of the state machine: its result and the cache afterwards. A
      validation failure, from the cache or from the engine document, propagates. */
  function GetByIdStep<T>(cache: map<string, Entry>, entityName: string, m: Model<T>, engine: Engine, itemId: string)
    : (Result<Option<T>, ValidationError>, map<string, Entry>)
  {
    match ReadCache(cache, Key(entityName, itemId), m)
    case Err(e) => (Err(e), cache)
    case Ok(Some(t)) => (Ok(Some(t)), cache)
    case Ok(None) =>
      var d := GetById(engine, itemId);
      if !Truthy(d) then (Ok(None), cache)
      else
        match m.validate(Obj(d.value))
        case Err(e) => (Err(e), cache)
        case Ok(t) => (Ok(Some(t)), WriteCache(cache, entityName, m, t))
  }

  /** On a hit the cached entity is returned, the cache is left alone, and the engine
      plays no part: any engine gives the same outcome. */
  lemma GetByIdHit<T>(cache: map<string, Entry>, entityName: string, m: Model<T>, engine: Engine, other: Engine,
                      itemId: string, t: T)
    requires ReadCache(cache, Key(entityName, itemId), m) == Ok(Some(t))
    ensures GetByIdStep(cache, entityName, m, engine, itemId) == (Ok(Some(t)), cache)
    ensures GetByIdStep(cache, entityName, m, engine, itemId) == GetByIdStep(cache, entityName, m, other, itemId)
  {
  }

  /** A miss for an id the engine does not have, or whose `_source` is empty, gives absent
      and writes nothing: there is no negative caching. */
  lemma GetByIdAbsent<T>(cache: map<string, Entry>, entityName: string, m: Model<T>, engine: Engine, itemId: string)
    requires ReadCache(cache, Key(entityName, itemId), m) == Ok(None)
    requires itemId !in engine.docs || engine.docs[itemId] == map[]
    ensures GetByIdStep(cache, entityName, m, engine, itemId) == (Ok(None), cache)
  {
  }

  /** A cached value that fails validation raises its error whatever the engine holds,
      and the cache is left as it was. */
  lemma GetByIdCorruptCache<T>(cache: map<string, Entry>, entityName: string, m: Model<T>, engine: Engine,
                               itemId: string)
    requires ReadCache(cache, Key(entityName, itemId), m).Err?
    ensures cache[Key(entityName, itemId)].value.Text?
    ensures GetByIdStep(cache, entityName, m, engine, itemId)
            == (Err(m.validate(cache[Key(entityName, itemId)].value.json).error), cache)
  {
  }

  /** On a miss, an engine document that fails validation raises its error, and nothing
      is cached. */
  lemma GetByIdInvalidDocument<T>(cache: map<string, Entry>, entityName: string, m: Model<T>, engine: Engine,
                                  itemId: string)
    requires ReadCache(cache, Key(entityName, itemId), m) == Ok(None)
    requires itemId in engine.docs && engine.docs[itemId] != map[]
    requires m.validate(Obj(engine.docs[itemId])).Err?
    ensures GetByIdStep(cache, entityName, m, engine, itemId)
            == (Err(m.validate(Obj(engine.docs[itemId])).error), cache)
  {
  }

  /** A miss for a valid document returns the hydrated entity and caches it under its own
      id; a later `get_by_id` for that id is a hit that returns an equal entity, whatever
      the engine holds by then. */
  lemma GetByIdWriteBack<T(!new)>(cache: map<string, Entry>, entityName: string, m: Model<T>, engine: Engine,
                                  later: Engine, itemId: string)
    requires RoundTrips(m)
    requires ReadCache(cache, Key(entityName, itemId), m) == Ok(None)
    requires itemId in engine.docs && engine.docs[itemId] != map[]
    requires m.validate(Obj(engine.docs[itemId])).Ok?
    ensures var t := m.validate(Obj(engine.docs[itemId])).value;
            var (r, c) := GetByIdStep(cache, entityName, m, engine, itemId);
            && r == Ok(Some(t))
            && c == WriteCache(cache, entityName, m, t)
            && GetByIdStep(c, entityName, m, later, m.id(t)) == (Ok(Some(t)), c)
  {
    var t := m.validate(Obj(engine.docs[itemId])).value;
    WriteThenRead(cache, entityName, m, t, "");
  }

  /** Repeating `get_by_id` changes nothing more: the second call returns what the first
      did and leaves the cache as the first left it, even when the document's own id
      differs from the requested one. */
  lemma GetByIdIdempotent<T(!new)>(cache: map<string, Entry>, entityName: string, m: Model<T>, engine: Engine,
                                   itemId: string)
    requires RoundTrips(m)
    ensures var (r, c) := GetByIdStep(cache, entityName, m, engine, itemId);
            GetByIdStep(c, entityName, m, engine, itemId) == (r, c)
  {
    var key := Key(entityName, itemId);
    var (r, c) := GetByIdStep(cache, entityName, m, engine, itemId);
    if ReadCache(cache, key, m) == Ok(None) && Truthy(GetById(engine, itemId)) {
      var d := GetById(engine, itemId);
      if m.validate(Obj(d.value)).Ok? {
        var t := m.validate(Obj(d.value)).value;
        var written := Key(entityName, m.id(t));
        KeyInjective(entityName, itemId, m.id(t));
        if written == key {
          WriteThenRead(cache, entityName, m, t, key);
        } else {
          assert ReadCache(c, key, m) == Ok(None);
          assert WriteCache(c, entityName, m, t) == c;
        }
      }
    }
  }

  /** `r` holds one entity per hit, validated from the hit's `_source`, in hit order; or
      `r` is the error of the first hit that fails validation. This determines `r`. */
  ghost predicate Hydrated<T>(hits: seq<Hit>, validate: Json -> Result<T, ValidationError>,
                              r: Result<seq<T>, ValidationError>)
  {
    && (r.Ok? ==> |r.value| == |hits| && forall i :: 0 <= i < |hits| ==> validate(Obj(hits[i].source)) == Ok(r.value[i]))
    && (r.Err? ==> exists i :: 0 <= i < |hits| && validate(Obj(hits[i].source)) == Err(r.error)
                     && forall j :: 0 <= j < i ==> validate(Obj(hits[j].source)).Ok?)
  }

  /** Validating the `_source` of every hit in turn hydrates the hits. */
  lemma HydrateHits<T>(hits: seq<Hit>, validate: Json -> Result<T, ValidationError>)
    ensures Hydrated(hits, validate, EachOk(Objects(Sources(hits)), validate))
  {
    var xs := Objects(Sources(hits));
    assert forall i :: 0 <= i < |hits| ==> xs[i] == Obj(hits[i].source);
    var r := EachOk(xs, validate);
    if r.Err? {
      var i :| 0 <= i < |xs| && validate(xs[i]) == Err(r.error) && FirstFailure(xs, validate, i);
      assert validate(Obj(hits[i].source)) == Err(r.error);
    }
  }

  /** `get_by_text_field`: the first hit of a single-field text search with default
      params, validated, or absent when there is no hit. The cache is not consulted. */
  function FirstByText<T>(engine: Engine, m: Model<T>, searchField: string, searchText: string)
    : Result<Option<T>, ValidationError>
  {
    var items := TextSearch(engine, Some(searchText), [searchField], None);
    if items == [] then Ok(None)
    else
      match m.validate(Obj(items[0]))
      case Ok(t) => Ok(Some(t))
      case Err(e) => Err(e)
  }

  /** The search behind `get_by_text_field` asks for the first page of ten by relevance
      only, with a fuzzy `match` on the one field (or no query when the text is empty). */
  lemma FirstByTextRequest(index: string, searchField: string, searchText: string)
    ensures var r := TextSearchRequest(index, Some(searchText), [searchField], None);
            && r.size == 10 && r.from == 0 && r.sort == [ScoreDesc] && r.query.should == []
            && r.query.must == (if searchText == "" then [] else [Match(searchField, searchText, "auto")])
  {
  }

  /** The base entity service: a cache (the only state), an engine and the model. */
  class Service<T(!new)> {
    const engine: Engine
    const entityName: string
    const model: Model<T>
    var cache: map<string, Entry>

    constructor(cache: map<string, Entry>, engine: Engine, entityName: string, model: Model<T>)
      ensures this.cache == cache && this.engine == engine
      ensures this.entityName == entityName && this.model == model
    {
      this.cache := cache;
      this.engine := engine;
      this.entityName := entityName;
      this.model := model;
    }

    /** `_get_from_cache`, step by step; `ReadCache` is its specification, and the
        lemmas about cache reads are stated over that function. */
    method GetFromCache(itemId: string) returns (r: Result<Option<T>, ValidationError>)
      ensures r == ReadCache(cache, Key(entityName, itemId), model)
    {
      var data := if Key(entityName, itemId) in cache then cache[Key(entityName, itemId)].value else Blank;
      if data.Blank? {
        return Ok(None);
      }
      var item :- model.validate(data.json);
      return Ok(Some(item));
    }

    method PutToCache(item: T)
      modifies this
      ensures cache == WriteCache(old(cache), entityName, model, item)
    {
      cache := cache[Key(entityName, model.id(item)) := Entry(Text(model.dump(item)), CacheExpireInSeconds)];
    }

    method GetById(itemId: string) returns (r: Result<Option<T>, ValidationError>)
      modifies this
      ensures (r, cache) == GetByIdStep(old(cache), entityName, model, engine, itemId)
    {
      var item :- GetFromCache(itemId);
      if item.None? {
        var itemDict := ElasticSearch.GetById(engine, itemId);
        if Truthy(itemDict) {
          var hydrated :- model.validate(Obj(itemDict.value));
          item := Some(hydrated);
          PutToCache(hydrated);
        }
      }
      return Ok(item);
    }

    /** `get_by_text_field`, step by step; `FirstByText` is its specification. The search
        is issued twice and the second answer used; the engine answers a request the same
        way both times. */
    method GetByTextField(searchField: string, searchText: string) returns (r: Result<Option<T>, ValidationError>)
      ensures r == FirstByText(engine, model, searchField, searchText)
    {
      var items := TextSearch(engine, Some(searchText), [searchField], None);
      items := TextSearch(engine, Some(searchText), [searchField], None);
      if items == [] {
        return Ok(None);
      }
      var item :- model.validate(Obj(items[0]));
      return Ok(Some(item));
    }
  }
}
