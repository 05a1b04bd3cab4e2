/** The film service: the base service over the `movies` index, plus full-text search,
    listing by genre and listing by person. */
module Films {
  import opened Wrappers
  import opened JsonValues
  import opened QueryParams
  import opened ElasticSearch
  import opened Models
  import opened Services

  /** The three credited roles, in the order role derivation reports them. */
  const PersonRoles: seq<string> := ["actor", "director", "writer"]

  /** The fields a film search runs over; the title is boosted threefold. */
  const SearchFields: seq<string> := ["title^3", "description", "actors_names", "writers_names", "directors_names"]

  const EntityName: string := "movies"

  const FilmModel: Model<Film> := Model(ValidateFilm, DumpFilm, (f: Film) => f.id)

  lemma FilmModelRoundTrips()
    ensures RoundTrips(FilmModel)
  {
    forall f: Film ensures FilmModel.validate(FilmModel.dump(f)) == Ok(f) {
      FilmRoundTrip(f);
    }
  }

  /** `FilmService(cache, search_service)`. */
  method NewFilmService(cache: map<string, Entry>, engine: Engine) returns (s: Service<Film>)
    ensures fresh(s)
    ensures s.entityName == "movies" && s.model == FilmModel && s.engine == engine && s.cache == cache
  {
    s := new Service(cache, engine, EntityName, FilmModel);
  }

  /** `search`: a text search over the five film fields, one film per hit in the engine's
      order; the first hit that is not a valid film raises. */
  function Search(engine: Engine, text: string, params: CommonQueryParams): (r: Result<seq<Film>, ValidationError>)
    requires DirectivesIndexable(Some(params))
    ensures Hydrated(engine.search(TextSearchRequest(engine.index, Some(text), SearchFields, Some(params))), ValidateFilm, r)
  {
    HydrateHits(engine.search(TextSearchRequest(engine.index, Some(text), SearchFields, Some(params))), ValidateFilm);
    EachOk(Objects(TextSearch(engine, Some(text), SearchFields, Some(params))), ValidateFilm)
  }

  /** `get_films`: with a genre, a text search of the genre's name (not its id) in
      `genres`; without one, every film. One film per hit in the engine's order; the first
      hit that is not a valid film raises. */
  function GetFilms(engine: Engine, params: CommonQueryParams, genre: Option<Genre>): (r: Result<seq<Film>, ValidationError>)
    requires DirectivesIndexable(Some(params))
    ensures var searchQuery := if genre.Some? then Some(genre.value.name) else None;
            Hydrated(engine.search(TextSearchRequest(engine.index, searchQuery, ["genres"], Some(params))), ValidateFilm, r)
  {
    var searchQuery := if genre.Some? then Some(genre.value.name) else None;
    HydrateHits(engine.search(TextSearchRequest(engine.index, searchQuery, ["genres"], Some(params))), ValidateFilm);
    EachOk(Objects(TextSearch(engine, searchQuery, ["genres"], Some(params))), ValidateFilm)
  }

  /** One nested filter per role, on the `<role>s` collection's `id`. */
  function PersonFilters(personId: string): seq<NestedObjectQuery>
  {
    seq(|PersonRoles|, i requires 0 <= i < |PersonRoles| => NestedObjectQuery(PersonRoles[i] + "s", "id", personId))
  }

  /** `get_person_films`: films where the person is credited in any role, one film per hit
      in the engine's order; the first hit that is not a valid film raises. */
  function GetPersonFilms(engine: Engine, personId: string, params: CommonQueryParams)
    : (r: Result<seq<Film>, ValidationError>)
    requires DirectivesIndexable(Some(params))
    ensures Hydrated(engine.search(ListRequest(engine.index, Some(params), Some(PersonFilters(personId)))), ValidateFilm, r)
  {
    HydrateHits(engine.search(ListRequest(engine.index, Some(params), Some(PersonFilters(personId)))), ValidateFilm);
    EachOk(Objects(GetList(engine, Some(params), Some(PersonFilters(personId)))), ValidateFilm)
  }

  /** The search is a `multi_match` over exactly the five film fields, paged as asked. */
  lemma SearchRequest(index: string, text: string, params: CommonQueryParams)
    requires DirectivesIndexable(Some(params))
    ensures var r := TextSearchRequest(index, Some(text), SearchFields, Some(params));
            && r.query.must == (if text == "" then [] else [MultiMatch(text, SearchFields)])
            && r.query.should == []
            && r.size == params.pageSize && r.from == params.pageSize * (params.pageNumber - 1)
  {
  }

  /** The genre filter is a fuzzy `match` of the genre's name on `genres`; no genre (or an
      empty name) means no query at all. */
  lemma GetFilmsRequest(index: string, params: CommonQueryParams, genre: Option<Genre>)
    requires DirectivesIndexable(Some(params))
    ensures var r := TextSearchRequest(index, if genre.Some? then Some(genre.value.name) else None, ["genres"], Some(params));
            && r.query.must == (if genre.Some? && genre.value.name != "" then [Match("genres", genre.value.name, "auto")] else [])
            && r.query.should == []
            && r.size == params.pageSize && r.from == params.pageSize * (params.pageNumber - 1)
  {
  }

  /** Listing page 1 of size 2 in genre "Drama" asks for a fuzzy match of "Drama" on
      `genres`, two hits from offset zero. */
  lemma DramaPageRequest(index: string, genreId: string, description: Option<string>)
    ensures var r := TextSearchRequest(index, Some(Genre(genreId, "Drama", description).name), ["genres"],
                                       Some(CommonQueryParams(1, 2, [])));
            r.query.must == [Match("genres", "Drama", "auto")] && r.size == 2 && r.from == 0
  {
  }

  /** Exactly three filters: actors, directors, writers, each on `id` equal to the person. */
  lemma PersonFiltersExact(personId: string)
    ensures PersonFilters(personId) == [
      NestedObjectQuery("actors", "id", personId),
      NestedObjectQuery("directors", "id", personId),
      NestedObjectQuery("writers", "id", personId)]
  {
    assert "actor" + "s" == "actors";
    assert "director" + "s" == "directors";
    assert "writer" + "s" == "writers";
  }

  /** Listing by person sends no text query, the caller's paging, and three nested term
      clauses on `actors.id`, `directors.id` and `writers.id`. */
  lemma PersonFilmsRequest(index: string, personId: string, params: CommonQueryParams)
    requires DirectivesIndexable(Some(params))
    ensures var r := ListRequest(index, Some(params), Some(PersonFilters(personId)));
            && r.query.must == []
            && r.query.should == [
                 NestedClause("actors", "actors.id", personId),
                 NestedClause("directors", "directors.id", personId),
                 NestedClause("writers", "writers.id", personId)]
            && r.size == params.pageSize && r.from == params.pageSize * (params.pageNumber - 1)
            && r.sort == SortFor(params.sort)
  {
    PersonFiltersExact(personId);
    assert "actors" + "." + "id" == "actors.id";
    assert "directors" + "." + "id" == "directors.id";
    assert "writers" + "." + "id" == "writers.id";
  }
}
