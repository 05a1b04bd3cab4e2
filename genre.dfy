/** The genre service: the base service over the `genres` index, with its own `get_by_id`
    that logs and swallows a validation failure of the engine document, and a plain
    listing. */
module Genres {
  import opened Wrappers
  import opened JsonValues
  import opened QueryParams
  import opened ElasticSearch
  import opened Models
  import opened Services

  const EntityName: string := "genres"

  const GenreModel: Model<Genre> := Model(ValidateGenre, DumpGenre, (g: Genre) => g.id)

  lemma GenreModelRoundTrips()
    ensures RoundTrips(GenreModel)
  {
    forall g: Genre ensures GenreModel.validate(GenreModel.dump(g)) == Ok(g) {
      GenreRoundTrip(g);
    }
  }

  /** `GenreService(cache, search_service)`. */
  method NewGenreService(cache: map<string, Entry>, engine: Engine) returns (s: Service<Genre>)
    ensures fresh(s)
    ensures s.entityName == "genres" && s.model == GenreModel && s.engine == engine && s.cache == cache
  {
    s := new Service(cache, engine, EntityName, GenreModel);
  }

  /** `GenreService.get_by_id` as a step: a failing cached value still raises, but a
      failing engine document is logged and gives absent, with nothing cached. */
  function GetByIdStep(cache: map<string, Entry>, entityName: string, engine: Engine, genreId: string)
    : (Result<Option<Genre>, ValidationError>, map<string, Entry>)
  {
    match ReadCache(cache, Key(entityName, genreId), GenreModel)
    case Err(e) => (Err(e), cache)
    case Ok(Some(g)) => (Ok(Some(g)), cache)
    case Ok(None) =>
      var d := ElasticSearch.GetById(engine, genreId);
      if !Truthy(d) then (Ok(None), cache)
      else
        match ValidateGenre(Obj(d.value))
        case Err(_) => (Ok(None), cache)
        case Ok(g) => (Ok(Some(g)), WriteCache(cache, entityName, GenreModel, g))
  }

  /** The genre lookup behaves as the base lookup in every case but one: where the base
      raises on an invalid engine document, the genre lookup returns absent and caches
      nothing. Only a corrupt cached value makes it raise. */
  lemma GetByIdAgreesWithBase(cache: map<string, Entry>, entityName: string, engine: Engine, genreId: string)
    ensures var mine := GetByIdStep(cache, entityName, engine, genreId);
            var base := Services.GetByIdStep(cache, entityName, GenreModel, engine, genreId);
            && (base.0.Ok? ==> mine == base)
            && (base.0.Err? && ReadCache(cache, Key(entityName, genreId), GenreModel).Ok? ==> mine == (Ok(None), cache))
            && (mine.0.Err? <==> ReadCache(cache, Key(entityName, genreId), GenreModel).Err?)
  {
  }

  /** On a miss, a document that fails validation gives absent and leaves the cache as it
      was, so the next lookup asks the engine again. */
  lemma InvalidDocumentNotCached(cache: map<string, Entry>, entityName: string, engine: Engine, genreId: string)
    requires ReadCache(cache, Key(entityName, genreId), GenreModel) == Ok(None)
    requires genreId in engine.docs && engine.docs[genreId] != map[]
    requires ValidateGenre(Obj(engine.docs[genreId])).Err?
    ensures GetByIdStep(cache, entityName, engine, genreId) == (Ok(None), cache)
  {
  }

  /** A miss for a valid document caches it under `genres_<id>`, and the next lookup of
      that id is a hit for the same genre. */
  lemma ValidDocumentCached(cache: map<string, Entry>, engine: Engine, genreId: string)
    requires ReadCache(cache, Key("genres", genreId), GenreModel) == Ok(None)
    requires genreId in engine.docs && engine.docs[genreId] != map[]
    requires ValidateGenre(Obj(engine.docs[genreId])).Ok?
    ensures var g := ValidateGenre(Obj(engine.docs[genreId])).value;
            var (r, c) := GetByIdStep(cache, "genres", engine, genreId);
            && r == Ok(Some(g))
            && c == cache["genres_" + g.id := Entry(Text(DumpGenre(g)), 300)]
            && GetByIdStep(c, "genres", engine, g.id) == (Ok(Some(g)), c)
  {
    var g := ValidateGenre(Obj(engine.docs[genreId])).value;
    GenreModelRoundTrips();
    WriteThenRead(cache, "genres", GenreModel, g, "");
    assert Key("genres", g.id) == "genres_" + g.id;
    var c := WriteCache(cache, "genres", GenreModel, g);
    assert ReadCache(c, Key("genres", g.id), GenreModel) == Ok(Some(g));
  }

  /** Repeating the genre lookup changes nothing more: the second call returns what the
      first did and leaves the cache as the first left it. */
  lemma GetByIdIdempotent(cache: map<string, Entry>, entityName: string, engine: Engine, genreId: string)
    ensures var (r, c) := GetByIdStep(cache, entityName, engine, genreId);
            GetByIdStep(c, entityName, engine, genreId) == (r, c)
  {
    var key := Key(entityName, genreId);
    var (r, c) := GetByIdStep(cache, entityName, engine, genreId);
    var d := ElasticSearch.GetById(engine, genreId);
    if ReadCache(cache, key, GenreModel) == Ok(None) && Truthy(d) && ValidateGenre(Obj(d.value)).Ok? {
      var g := ValidateGenre(Obj(d.value)).value;
      KeyInjective(entityName, genreId, g.id);
      if Key(entityName, g.id) == key {
        GenreModelRoundTrips();
        WriteThenRead(cache, entityName, GenreModel, g, key);
      } else {
        assert ReadCache(c, key, GenreModel) == Ok(None);
        assert WriteCache(c, entityName, GenreModel, g) == c;
      }
    }
  }

  /** `GenreService.get_by_id`. */
  method GetById(s: Service<Genre>, genreId: string) returns (r: Result<Option<Genre>, ValidationError>)
    requires s.model == GenreModel
    modifies s
    ensures (r, s.cache) == GetByIdStep(old(s.cache), s.entityName, s.engine, genreId)
  {
    var genre :- s.GetFromCache(genreId);
    if genre.Some? {
      return Ok(genre);
    }
    var genreDict := ElasticSearch.GetById(s.engine, genreId);
    if Truthy(genreDict) {
      var validated := ValidateGenre(Obj(genreDict.value));
      if validated.Ok? {
        s.PutToCache(validated.value);
        return Ok(Some(validated.value));
      }
    }
    return Ok(None);
  }

  /** `get_list`: a plain listing, no text and no filters, one genre per hit in the
      engine's order; the first hit that is not a valid genre raises. */
  function GetList(engine: Engine, params: CommonQueryParams): (r: Result<seq<Genre>, ValidationError>)
    requires DirectivesIndexable(Some(params))
    ensures Hydrated(engine.search(ListRequest(engine.index, Some(params), None)), ValidateGenre, r)
  {
    HydrateHits(engine.search(ListRequest(engine.index, Some(params), None)), ValidateGenre);
    EachOk(Objects(ElasticSearch.GetList(engine, Some(params), None)), ValidateGenre)
  }

  /** The genre listing's request carries neither a text query nor a nested filter. */
  lemma GetListRequest(index: string, params: CommonQueryParams)
    requires DirectivesIndexable(Some(params))
    ensures var r := ListRequest(index, Some(params), None);
            r.query == BoolQuery([], []) && r.size == params.pageSize
            && r.from == params.pageSize * (params.pageNumber - 1)
  {
  }
}
