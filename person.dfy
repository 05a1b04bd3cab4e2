/** The person service: the base service over the `persons` index, whose lookups and
    searches also derive, for each of the person's films, the roles the person's full
    name is credited under. */
module Persons {
  import opened Wrappers
  import opened JsonValues
  import opened QueryParams
  import opened ElasticSearch
  import opened Models
  import opened Services
  import Films
  import Genres

  const EntityName: string := "persons"

  /** The page size of the related-films fetch: all of a person's films, assuming nobody
      is credited in more than this many; beyond it the list is silently truncated. */
  const FetchAllPageSize: int := 10000

  const PersonModel: Model<Person> := Model(ValidatePerson, DumpPerson, (p: Person) => p.id)

  lemma PersonModelRoundTrips()
    ensures RoundTrips(PersonModel)
  {
    forall p: Person ensures PersonModel.validate(PersonModel.dump(p)) == Ok(p) {
      PersonRoundTrip(p);
    }
  }

  /** The three services share one cache store; their key namespaces never meet, so each
      service can be given a cache of its own. */
  lemma NamespacesDisjoint(a: string, b: string)
    ensures Key(Films.EntityName, a) != Key(Genres.EntityName, b)
    ensures Key(Films.EntityName, a) != Key(EntityName, b)
    ensures Key(Genres.EntityName, a) != Key(EntityName, b)
  {
    assert Key(Films.EntityName, a)[0] == 'm';
    assert Key(Genres.EntityName, a)[0] == 'g';
    assert Key(EntityName, b)[0] == 'p';
    assert Key(Genres.EntityName, b)[0] == 'g';
  }

  /** `PersonService(cache, search_service, film_service)`; the film service is passed to
      each operation that uses it. */
  method NewPersonService(cache: map<string, Entry>, engine: Engine) returns (s: Service<Person>)
    ensures fresh(s)
    ensures s.entityName == "persons" && s.model == PersonModel && s.engine == engine && s.cache == cache
  {
    s := new Service(cache, engine, EntityName, PersonModel);
  }

  // ---- Role derivation ----

  /** `getattr(film, f"{role}s_names")`. */
  function NamesFor(f: Film, role: string): seq<string>
    requires role in Films.PersonRoles
  {
    if role == "actor" then f.actorsNames
    else if role == "director" then f.directorsNames
    else f.writersNames
  }

  predicate AllRoles(roles: seq<string>)
  {
    forall i :: 0 <= i < |roles| ==> roles[i] in Films.PersonRoles
  }

  /** The roles of `roles`, in order, under whose name list `name` appears. */
  function RolesAmong(name: string, f: Film, roles: seq<string>): seq<string>
    requires AllRoles(roles)
  {
    if roles == [] then []
    else
      var last := roles[|roles| - 1];
      RolesAmong(name, f, roles[..|roles| - 1]) + (if name in NamesFor(f, last) then [last] else [])
  }

  /** The roles `name` is credited under in film `f`. */
  function FilmRoles(name: string, f: Film): seq<string>
  {
    RolesAmong(name, f, Films.PersonRoles)
  }

  /** `_get_roles_from_filmworks`, as a function of its inputs. */
  function RolesFromFilmworks(person: Person, films: seq<Film>): seq<PersonFilm>
  {
    seq(|films|, i requires 0 <= i < |films| => PersonFilm(films[i].id, FilmRoles(person.fullName, films[i])))
  }

  /** The three roles, one test each, in the fixed order actor, director, writer. */
  lemma {:induction false} FilmRolesClosedForm(name: string, f: Film)
    ensures FilmRoles(name, f) ==
      (if name in f.actorsNames then ["actor"] else [])
      + (if name in f.directorsNames then ["director"] else [])
      + (if name in f.writersNames then ["writer"] else [])
  {
    var roles := Films.PersonRoles;
    var actor := if name in f.actorsNames then ["actor"] else [];
    var director := if name in f.directorsNames then ["director"] else [];
    var writer := if name in f.writersNames then ["writer"] else [];
    assert roles[..2][..1] == roles[..1] == ["actor"] && roles[..1][..0] == [];
    assert RolesAmong(name, f, roles[..1]) == actor by {
      assert NamesFor(f, "actor") == f.actorsNames;
    }
    assert roles[..2] == ["actor", "director"];
    assert RolesAmong(name, f, roles[..2]) == actor + director by {
      assert "director" != "actor";
      assert NamesFor(f, "director") == f.directorsNames;
    }
    assert roles[..|roles| - 1] == roles[..2];
    assert RolesAmong(name, f, roles) == actor + director + writer by {
      assert "writer" != "actor" && "writer" != "director";
      assert NamesFor(f, "writer") == f.writersNames;
    }
  }

  /** A role is derived exactly when it is one of the three and the name is in that
      role's name list; the derived roles have no duplicates and keep the order of the
      three roles. */
  lemma FilmRolesMeaning(name: string, f: Film)
    ensures forall role :: role in FilmRoles(name, f) <==> role in Films.PersonRoles && name in NamesFor(f, role)
    ensures var roles := FilmRoles(name, f);
            forall i, j :: 0 <= i < j < |roles| ==> RoleRank(roles[i]) < RoleRank(roles[j])
    ensures var roles := FilmRoles(name, f);
            forall i, j :: 0 <= i < j < |roles| ==> roles[i] != roles[j]
  {
    FilmRolesClosedForm(name, f);
  }

  /** The position of a role in `PERSON_ROLES`. */
  function RoleRank(role: string): int
  {
    if role == "actor" then 0 else if role == "director" then 1 else 2
  }

  /** A person credited as actor and director but not as writer gets exactly those two
      roles. */
  lemma ActorDirectorExample(f: Film)
    requires f.actorsNames == ["Alice"] && f.writersNames == [] && f.directorsNames == ["Alice"]
    ensures FilmRoles("Alice", f) == ["actor", "director"]
  {
    FilmRolesClosedForm("Alice", f);
  }

  /** One entry per film, in film order, carrying the film's id and the roles derived for
      it; a film with no match still has its entry, with no roles. */
  lemma RolesFromFilmworksMeaning(person: Person, films: seq<Film>)
    ensures var r := RolesFromFilmworks(person, films);
            && |r| == |films|
            && (forall i :: 0 <= i < |films| ==> r[i].id == films[i].id)
            && (forall i, role :: 0 <= i < |films| ==>
                  (role in r[i].roles <==> role in Films.PersonRoles && person.fullName in NamesFor(films[i], role)))
  {
    forall i | 0 <= i < |films| {
      FilmRolesMeaning(person.fullName, films[i]);
    }
  }

  /** `_get_roles_from_filmworks`: for each film, for each role in order, append the
      role when the person's full name is in that role's name list. */
  method GetRolesFromFilmworks(person: Person, filmworks: seq<Film>) returns (result: seq<PersonFilm>)
    ensures result == RolesFromFilmworks(person, filmworks)
  {
    result := [];
    for i := 0 to |filmworks|
      invariant |result| == i
      invariant forall k :: 0 <= k < i ==> result[k] == PersonFilm(filmworks[k].id, FilmRoles(person.fullName, filmworks[k]))
    {
      var filmwork := filmworks[i];
      var personFilm := PersonFilm(filmwork.id, []);
      for j := 0 to |Films.PersonRoles|
        invariant personFilm == PersonFilm(filmwork.id, RolesAmong(person.fullName, filmwork, Films.PersonRoles[..j]))
      {
        var role := Films.PersonRoles[j];
        assert Films.PersonRoles[..j + 1][..j] == Films.PersonRoles[..j];
        if person.fullName in NamesFor(filmwork, role) {
          personFilm := personFilm.(roles := personFilm.roles + [role]);
        }
      }
      assert Films.PersonRoles[..|Films.PersonRoles|] == Films.PersonRoles;
      result := result + [personFilm];
    }
  }

  // ---- Lookup and search ----

  /** The params of the related-films fetch: `CommonQueryParams(page_size=10000)`. */
  function FetchAllParams(): CommonQueryParams
  {
    WithPageSize(FetchAllPageSize)
  }

  /** The person with `films` set from the roles derived over all of the person's films;
      a film document that fails validation raises. Only `films` changes. */
  function Enrich(filmEngine: Engine, p: Person): (r: Result<Person, ValidationError>)
    ensures var related := Films.GetPersonFilms(filmEngine, p.id, FetchAllParams());
            && (r.Ok? <==> related.Ok?)
            && (r.Err? ==> r.error == related.error)
            && (r.Ok? ==> r.value.id == p.id && r.value.fullName == p.fullName
                          && r.value.films == RolesFromFilmworks(p, related.value))
  {
    var related :- Films.GetPersonFilms(filmEngine, p.id, FetchAllParams());
    Ok(p.(films := RolesFromFilmworks(p, related)))
  }

  /** The related-films fetch asks for page 1 of 10000 films of the person, by relevance,
      with the three role filters and no text query. */
  lemma EnrichRequest(index: string, personId: string)
    ensures var r := ListRequest(index, Some(FetchAllParams()), Some(Films.PersonFilters(personId)));
            && r.size == 10000 && r.from == 0 && r.sort == [ScoreDesc] && r.query.must == []
            && r.query.should == [
                 NestedClause("actors", "actors.id", personId),
                 NestedClause("directors", "directors.id", personId),
                 NestedClause("writers", "writers.id", personId)]
  {
    Films.PersonFilmsRequest(index, personId, FetchAllParams());
  }

  /** `PersonService.get_by_id` as a step. The `except ValidationError` around role
      derivation cannot fire (building a `PersonFilm` from a validated film's id always
      succeeds), so a successful miss always writes the cache. */
  function GetByIdStep(cache: map<string, Entry>, entityName: string, engine: Engine, filmEngine: Engine,
                       personId: string)
    : (Result<Option<Person>, ValidationError>, map<string, Entry>)
  {
    match ReadCache(cache, Key(entityName, personId), PersonModel)
    case Err(e) => (Err(e), cache)
    case Ok(Some(p)) => (Ok(Some(p)), cache)
    case Ok(None) =>
      var d := ElasticSearch.GetById(engine, personId);
      if !Truthy(d) then (Ok(None), cache)
      else
        match ValidatePerson(Obj(d.value))
        case Err(e) => (Err(e), cache)
        case Ok(p) =>
          match Enrich(filmEngine, p)
          case Err(e) => (Err(e), cache)
          case Ok(q) => (Ok(Some(q)), WriteCache(cache, entityName, PersonModel, q))
  }

  /** A hit returns the cached person as stored, films included, and neither engine is
      consulted: any pair of engines gives the same outcome. */
  lemma GetByIdHit(cache: map<string, Entry>, entityName: string, engine: Engine, filmEngine: Engine,
                   otherEngine: Engine, otherFilmEngine: Engine, personId: string, p: Person)
    requires ReadCache(cache, Key(entityName, personId), PersonModel) == Ok(Some(p))
    ensures GetByIdStep(cache, entityName, engine, filmEngine, personId) == (Ok(Some(p)), cache)
    ensures GetByIdStep(cache, entityName, otherEngine, otherFilmEngine, personId) == (Ok(Some(p)), cache)
  {
  }

  /** An unknown person, or one whose `_source` is empty, is absent, and nothing is
      cached. */
  lemma GetByIdAbsent(cache: map<string, Entry>, entityName: string, engine: Engine, filmEngine: Engine,
                      personId: string)
    requires ReadCache(cache, Key(entityName, personId), PersonModel) == Ok(None)
    requires personId !in engine.docs || engine.docs[personId] == map[]
    ensures GetByIdStep(cache, entityName, engine, filmEngine, personId) == (Ok(None), cache)
  {
  }

  /** A cached value that is not a valid person raises its error whatever the engines
      hold, and the cache is left as it was. */
  lemma GetByIdCorruptCache(cache: map<string, Entry>, entityName: string, engine: Engine, filmEngine: Engine,
                            personId: string)
    requires ReadCache(cache, Key(entityName, personId), PersonModel).Err?
    ensures cache[Key(entityName, personId)].value.Text?
    ensures GetByIdStep(cache, entityName, engine, filmEngine, personId)
            == (Err(ValidatePerson(cache[Key(entityName, personId)].value.json).error), cache)
  {
  }

  /** On a miss, a person document that fails validation raises its error, and nothing is
      cached. */
  lemma GetByIdInvalidPerson(cache: map<string, Entry>, entityName: string, engine: Engine, filmEngine: Engine,
                             personId: string)
    requires ReadCache(cache, Key(entityName, personId), PersonModel) == Ok(None)
    requires personId in engine.docs && engine.docs[personId] != map[]
    requires ValidatePerson(Obj(engine.docs[personId])).Err?
    ensures GetByIdStep(cache, entityName, engine, filmEngine, personId)
            == (Err(ValidatePerson(Obj(engine.docs[personId])).error), cache)
  {
  }

  /** On a miss for a valid person, a related film that fails validation raises the error
      of the first such film, and nothing is cached. */
  lemma GetByIdInvalidFilm(cache: map<string, Entry>, entityName: string, engine: Engine, filmEngine: Engine,
                           personId: string)
    requires ReadCache(cache, Key(entityName, personId), PersonModel) == Ok(None)
    requires personId in engine.docs && engine.docs[personId] != map[]
    requires ValidatePerson(Obj(engine.docs[personId])).Ok?
    requires Films.GetPersonFilms(filmEngine, ValidatePerson(Obj(engine.docs[personId])).value.id, FetchAllParams()).Err?
    ensures var p := ValidatePerson(Obj(engine.docs[personId])).value;
            var hits := filmEngine.search(ListRequest(filmEngine.index, Some(FetchAllParams()), Some(Films.PersonFilters(p.id))));
            var (r, c) := GetByIdStep(cache, entityName, engine, filmEngine, personId);
            && c == cache
            && r.Err?
            && exists i :: 0 <= i < |hits| && ValidateFilm(Obj(hits[i].source)) == Err(r.error)
                 && forall j :: 0 <= j < i ==> ValidateFilm(Obj(hits[j].source)).Ok?
  {
  }

  /** Repeating the person lookup changes nothing more: the second call returns what the
      first did and leaves the cache as the first left it. */
  lemma GetByIdIdempotent(cache: map<string, Entry>, entityName: string, engine: Engine, filmEngine: Engine,
                          personId: string)
    ensures var (r, c) := GetByIdStep(cache, entityName, engine, filmEngine, personId);
            GetByIdStep(c, entityName, engine, filmEngine, personId) == (r, c)
  {
    var key := Key(entityName, personId);
    var (r, c) := GetByIdStep(cache, entityName, engine, filmEngine, personId);
    var d := ElasticSearch.GetById(engine, personId);
    if ReadCache(cache, key, PersonModel) == Ok(None) && Truthy(d) && ValidatePerson(Obj(d.value)).Ok?
       && Enrich(filmEngine, ValidatePerson(Obj(d.value)).value).Ok? {
      var q := Enrich(filmEngine, ValidatePerson(Obj(d.value)).value).value;
      KeyInjective(entityName, personId, q.id);
      if Key(entityName, q.id) == key {
        PersonModelRoundTrips();
        WriteThenRead(cache, entityName, PersonModel, q, key);
      } else {
        assert ReadCache(c, key, PersonModel) == Ok(None);
        assert WriteCache(c, entityName, PersonModel, q) == c;
      }
    }
  }

  /** A miss for a valid person whose films validate returns the person with `films`
      derived from all of the person's films, caches that enriched person under its own
      id, and a later lookup of that id is a hit for the same person. */
  lemma GetByIdEnrichesAndCaches(cache: map<string, Entry>, entityName: string, engine: Engine, filmEngine: Engine,
                                 personId: string)
    requires ReadCache(cache, Key(entityName, personId), PersonModel) == Ok(None)
    requires personId in engine.docs && engine.docs[personId] != map[]
    requires ValidatePerson(Obj(engine.docs[personId])).Ok?
    requires Films.GetPersonFilms(filmEngine, ValidatePerson(Obj(engine.docs[personId])).value.id, FetchAllParams()).Ok?
    ensures var p := ValidatePerson(Obj(engine.docs[personId])).value;
            var related := Films.GetPersonFilms(filmEngine, p.id, FetchAllParams()).value;
            var q := p.(films := RolesFromFilmworks(p, related));
            var (r, c) := GetByIdStep(cache, entityName, engine, filmEngine, personId);
            && r == Ok(Some(q))
            && c == WriteCache(cache, entityName, PersonModel, q)
            && GetByIdStep(c, entityName, engine, filmEngine, p.id) == (Ok(Some(q)), c)
  {
    var p := ValidatePerson(Obj(engine.docs[personId])).value;
    var related := Films.GetPersonFilms(filmEngine, p.id, FetchAllParams()).value;
    var q := p.(films := RolesFromFilmworks(p, related));
    PersonModelRoundTrips();
    WriteThenRead(cache, entityName, PersonModel, q, "");
  }

  /** `PersonService.get_by_id`. */
  method GetById(s: Service<Person>, films: Service<Film>, personId: string)
    returns (r: Result<Option<Person>, ValidationError>)
    requires s.model == PersonModel
    modifies s
    ensures (r, s.cache) == GetByIdStep(old(s.cache), s.entityName, s.engine, films.engine, personId)
  {
    var person :- s.GetFromCache(personId);
    if person.Some? {
      return Ok(person);
    }
    var personDict := ElasticSearch.GetById(s.engine, personId);
    if !Truthy(personDict) {
      return Ok(None);
    }
    var p :- ValidatePerson(Obj(personDict.value));
    var related :- Films.GetPersonFilms(films.engine, p.id, FetchAllParams());
    var roles := GetRolesFromFilmworks(p, related);
    p := p.(films := roles);
    s.PutToCache(p);
    return Ok(Some(p));
  }

  /** `get_person_films`: the film service's listing, with the arguments unchanged. */
  function GetPersonFilms(filmEngine: Engine, personId: string, params: CommonQueryParams)
    : (r: Result<seq<Film>, ValidationError>)
    requires DirectivesIndexable(Some(params))
    ensures r == Films.GetPersonFilms(filmEngine, personId, params)
  {
    Films.GetPersonFilms(filmEngine, personId, params)
  }

  /** `search` as a function: the persons of a `full_name` text search, one per hit in
      the engine's order, each enriched with its film roles. A hit that is not a valid
      person raises before any enrichment; otherwise the first person, in hit order, whose
      films fail validation raises. Nothing is cached. */
  function SearchSpec(engine: Engine, filmEngine: Engine, query: string, params: CommonQueryParams)
    : (r: Result<seq<Person>, ValidationError>)
    requires DirectivesIndexable(Some(params))
    ensures var hits := engine.search(TextSearchRequest(engine.index, Some(query), ["full_name"], Some(params)));
            && ((exists i :: 0 <= i < |hits| && ValidatePerson(Obj(hits[i].source)).Err?) ==>
                  r.Err? && Hydrated(hits, ValidatePerson, r))
            && (r.Ok? ==> |r.value| == |hits| && forall i :: 0 <= i < |hits| ==>
                  ValidatePerson(Obj(hits[i].source)).Ok?
                  && Enrich(filmEngine, ValidatePerson(Obj(hits[i].source)).value) == Ok(r.value[i]))
            && (r.Err? && (forall i :: 0 <= i < |hits| ==> ValidatePerson(Obj(hits[i].source)).Ok?) ==>
                  exists i :: 0 <= i < |hits| && Enrich(filmEngine, ValidatePerson(Obj(hits[i].source)).value) == Err(r.error)
                    && forall j :: 0 <= j < i ==> Enrich(filmEngine, ValidatePerson(Obj(hits[j].source)).value).Ok?)
  {
    var hits := engine.search(TextSearchRequest(engine.index, Some(query), ["full_name"], Some(params)));
    HydrateHits(hits, ValidatePerson);
    var persons :- EachOk(Objects(TextSearch(engine, Some(query), ["full_name"], Some(params))), ValidatePerson);
    EnrichEach(hits, persons, filmEngine);
    EachOk(persons, (p: Person) => Enrich(filmEngine, p))
  }

  /** Enriching the persons validated from the hits, in turn, gives one enriched person
      per hit, or the error of the first hit whose enrichment fails. */
  lemma EnrichEach(hits: seq<Hit>, persons: seq<Person>, filmEngine: Engine)
    requires |persons| == |hits|
    requires forall i :: 0 <= i < |hits| ==> ValidatePerson(Obj(hits[i].source)) == Ok(persons[i])
    ensures var r := EachOk(persons, (p: Person) => Enrich(filmEngine, p));
            && (r.Ok? ==> |r.value| == |hits| && forall i :: 0 <= i < |hits| ==>
                  Enrich(filmEngine, ValidatePerson(Obj(hits[i].source)).value) == Ok(r.value[i]))
            && (r.Err? ==>
                  exists i :: 0 <= i < |hits| && Enrich(filmEngine, ValidatePerson(Obj(hits[i].source)).value) == Err(r.error)
                    && forall j :: 0 <= j < i ==> Enrich(filmEngine, ValidatePerson(Obj(hits[j].source)).value).Ok?)
  {
    var f := (p: Person) => Enrich(filmEngine, p);
    var r := EachOk(persons, f);
    assert forall i :: 0 <= i < |hits| ==> ValidatePerson(Obj(hits[i].source)).value == persons[i];
    if r.Err? {
      var i :| 0 <= i < |persons| && f(persons[i]) == Err(r.error) && FirstFailure(persons, f, i);
      assert Enrich(filmEngine, ValidatePerson(Obj(hits[i].source)).value) == Err(r.error);
    }
  }

  /** `search`: validate every hit, then enrich each person in turn. */
  method Search(s: Service<Person>, films: Service<Film>, query: string, params: CommonQueryParams)
    returns (r: Result<seq<Person>, ValidationError>)
    requires DirectivesIndexable(Some(params))
    ensures r == SearchSpec(s.engine, films.engine, query, params)
  {
    var rawPersons := TextSearch(s.engine, Some(query), ["full_name"], Some(params));
    var persons :- EachOk(Objects(rawPersons), ValidatePerson);
    ghost var hydrated := persons;
    ghost var enrich := (p: Person) => Enrich(films.engine, p);
    for i := 0 to |persons|
      invariant |persons| == |hydrated|
      invariant forall k :: 0 <= k < i ==> enrich(hydrated[k]) == Ok(persons[k])
      invariant forall k :: i <= k < |persons| ==> persons[k] == hydrated[k]
    {
      var person := persons[i];
      var related := Films.GetPersonFilms(films.engine, person.id, FetchAllParams());
      if related.Err? {
        EachOkFirstError(hydrated, enrich, i);
        return Err(related.error);
      }
      var roles := GetRolesFromFilmworks(person, related.value);
      persons := persons[i := person.(films := roles)];
    }
    EachOkAllPass(hydrated, enrich, persons);
    return Ok(persons);
  }

  /** A person search text-searches `full_name` only, with the caller's paging. */
  lemma SearchRequest(index: string, query: string, params: CommonQueryParams)
    requires DirectivesIndexable(Some(params))
    ensures var r := TextSearchRequest(index, Some(query), ["full_name"], Some(params));
            && r.query.must == (if query == "" then [] else [Match("full_name", query, "auto")])
            && r.query.should == []
            && r.size == params.pageSize && r.from == params.pageSize * (params.pageNumber - 1)
  {
  }
}
