# Movie catalogue query-and-caching layer, modelled in Dafny

This project models the service layer of a read-only movie API that sits over an
Elasticsearch index per entity kind (`movies`, `genres`, `persons`) and a Redis cache.

* **Query parameters** (`QueryParams`): page number, page size and sort directives with
  their defaults (1, 10, no directives) and the positivity constraint.
* **Entity models** (`JsonValues`, `Models`): films, genres, persons and their film roles
  as datatypes, with validation from JSON documents (required fields, nullable fields,
  list fields defaulting to empty, unknown keys ignored) and serialisation back to JSON.
  Every entity survives a dump followed by a validation unchanged.
* **Search-request builder** (`ElasticSearch`): how paging, sort directives, an optional
  text query and nested-object filters become one Query DSL request (`size`, `from`,
  `query.bool.must`, `query.bool.should`, `sort`). The request is a datatype.
  `BuildRequest` builds it step by step, as the source does, and is proved equal to the
  specification function `RequestFor`. The engine is a value: the stored documents of an
  index by id, and an uninterpreted function from a request to its hits.
* **Cache-aside services** (`Services`, `Films`, `Genres`, `Persons`): a generic
  `Service<T>` class whose only state is the cache map. Keys are `<entity name>_<id>`.
  Each write stores the dumped entity with a 300-second TTL.
  - Each `get_by_id` variant is a pure step function of (cache, engine, id) giving
    (result, new cache). The class methods are proved against these step functions.
  - For the base, genre and person lookups, lemmas cover a hit, a miss then found and
    written back, and a miss then absent (not found or empty `_source`; there is no
    negative caching).
  - Lemmas also cover validation failures. For the base and person lookups, a cached
    value or an engine document that fails validation raises and caches nothing; so does
    a related film that fails validation, for the person lookup. For the genre lookup, an
    invalid engine document gives absent, and only a corrupt cached value raises.
  - For each of the three lookups, repeating it changes nothing more, and the entity
    written back is read back equal by the next lookup of its id.
* **Listings and searches** (`Films.Search`, `Films.GetFilms`, `Films.GetPersonFilms`,
  `Genres.GetList`, `Persons.SearchSpec`): one entity per engine hit, in the engine's
  order, validated from the hit's `_source`; the first hit that fails validation raises.
* **Person role derivation** (`Persons.GetRolesFromFilmworks`): a nested loop over films
  and over the roles actor, director, writer. For each film, the person's roles are the
  roles whose name list contains the person's full name. The result has one entry per
  film, in order, and its roles have no duplicates and follow the fixed role order.

Python's truthiness is modelled where the code relies on it. An engine document whose
`_source` is `{}` counts as absent. A cached value that is empty counts as a miss.

In these places the model follows the code as written:

* Only the genre lookup logs and swallows a validation failure of an engine document.
  The base lookup (used for films) and the person lookup let it propagate, and a cached
  value that fails validation raises in every lookup.
* An engine document with an empty `_source` is treated as absent, like a not-found one.
* A person's roles for a film are an ordered list (actor, director, writer order), not a
  set.
* The cache write after a miss uses the id of the validated entity (`item.id`), not the
  id that was asked for. When the two differ, later lookups of the requested id keep
  missing. `Services.GetByIdIdempotent` shows that the outcome is still stable.
* The `except ValidationError` around role derivation in `PersonService.get_by_id`
  cannot be reached: a `PersonFilm` built from a validated film's id always validates,
  and assigning `person.films` is not validated. In the model a successful miss always
  writes the cache.

## Model

| member | source | states |
|---|---|---|
| `QueryParams.Make` | src/utils/params.py:9-11 | an omitted page number is 1, an omitted page size is 10, omitted sort directives are the empty list; given arguments are kept |
| `QueryParams.DefaultsAreValid` | src/utils/params.py:9-10 | the defaults meet the strictly-positive constraint, and `CommonQueryParams(page_size=n)` is page 1 of size n with no directives |
| `JsonValues.EachOk` | src/services/film.py:30 | converting raw documents one per entity succeeds iff every document validates; the result has one entity per document, in document order; otherwise the first failing document's error is raised |
| `JsonValues.EachOkFirstError` | src/services/person.py:54 | a list conversion raises exactly the error of its first failing element |
| `JsonValues.EachOkAllPass` | src/services/genre.py:40 | when every element converts, the list conversion returns exactly the converted elements |
| `JsonValues.EachOkDumpEach` | src/models/model.py:33-39 | a list field that was dumped validates back to the same list |
| `JsonValues.StrListRoundTrip` | src/models/model.py:36-39 | a `list[str]` field survives dump and validation unchanged |
| `Models.PersonFilmRoundTrip` | src/models/model.py:6-8 | a `PersonFilm` survives dump and validation unchanged |
| `Models.PersonFilmRolesDefault` | src/models/model.py:8 | a document without `roles` gives an entry with no roles |
| `Models.PersonRoundTrip` | src/models/model.py:11-14 | a `Person` survives dump and validation unchanged |
| `Models.PersonFilmsDefault` | src/models/model.py:14 | a person document without `films` gives a person with no films |
| `Models.GenreRoundTrip` | src/models/model.py:17-20 | a `Genre` survives dump and validation unchanged |
| `Models.GenreDescriptionOptional` | src/models/model.py:20 | a genre's description may be null but must be present |
| `Models.FilmPeopleRoundTrip` | src/models/model.py:33-35 | the actor, writer and director reference lists survive dump and validation |
| `Models.FilmNamesRoundTrip` | src/models/model.py:36-39 | the genre list and the three name lists survive dump and validation |
| `Models.FilmRoundTrip` | src/models/model.py:28-39 | a `Film` survives dump and validation unchanged |
| `Models.FilmDefaults` | src/models/model.py:31-39 | every list field of a film defaults to empty; description and rating are nullable but required |
| `ElasticSearch.Offset` | src/services/search/elastic.py:68 | both branches of the offset equal `page_size * (page_number - 1)`, which is never negative for valid params |
| `ElasticSearch.OffsetNextPage` | src/services/search/elastic.py:68 | the next page starts exactly `page_size` hits later, so pages neither overlap nor leave gaps |
| `ElasticSearch.SortKeyForMeaning` | src/services/search/elastic.py:70 | a directive sorts descending iff it starts with `-`, and the directive can be read back from its sort key |
| `ElasticSearch.BuildRequest` | src/services/search/elastic.py:66-97 | the request built by appending sort keys, the text query and one nested clause per filter equals `RequestFor` |
| `ElasticSearch.RequestForMeaning` | src/services/search/elastic.py:66-101 | size is the page size and from is the offset; the sort list has one key per directive, in order, then one trailing `_score` desc; `must` holds the text query iff one is given; `should` holds one clause per filter, in order, with path `name` and a term on `name.filter_field` equal to `term_value` |
| `ElasticSearch.RequestForDefaults` | src/services/search/elastic.py:66-79 | missing params act as page 1, size 10, no directives; missing filters act as an empty list |
| `ElasticSearch.TextQueryForMeaning` | src/services/search/elastic.py:45-50 | an absent or empty text gives no query; otherwise the query searches exactly that text over exactly the given fields, as a fuzzy `match` iff there is one field and as a `multi_match` otherwise |
| `ElasticSearch.GetById` | src/services/search/elastic.py:16-22 | the result is absent iff the engine does not have the id, and otherwise it is the stored `_source` |
| `ElasticSearch.Sources` | src/services/search/elastic.py:102 | the result is the hits' `_source` values, one per hit, in hit order |
| `Services.KeyInjective` | src/services/service.py:29 | within one entity namespace, two ids share a cache key iff they are equal |
| `Services.WriteThenRead` | src/services/service.py:34-35 | a cache write is read back as the entity written, with TTL 300, and leaves every other key alone |
| `Services.GetByIdHit` | src/services/service.py:20-26 | on a hit the cached entity is returned, the cache is unchanged, and the engine does not affect the outcome |
| `Services.GetByIdAbsent` | src/services/service.py:23-26 | a miss for an id the engine lacks, or whose `_source` is empty, returns absent and writes nothing |
| `Services.GetByIdCorruptCache` | src/services/service.py:28-32 | a cached value that fails validation raises its error whatever the engine holds, and the cache is unchanged |
| `Services.GetByIdInvalidDocument` | src/services/service.py:23-25 | on a miss, an engine document that fails validation raises its error and nothing is cached |
| `Services.GetByIdWriteBack` | src/services/service.py:23-25 | a miss for a valid document returns it, writes it under its own id, and the next lookup of that id is a hit returning an equal entity |
| `Services.GetByIdIdempotent` | src/services/service.py:20-26 | a second lookup of the same id returns the same result and leaves the cache as the first left it |
| `Services.HydrateHits` | src/services/film.py:30 | validating every hit's `_source` in turn gives one entity per hit in hit order, or the error of the first hit that fails validation |
| `Services.FirstByTextRequest` | src/services/service.py:37-40 | the search behind `get_by_text_field` is page 1 of 10, relevance-sorted, with a fuzzy match on the one field |
| `Services.Service.constructor` | src/services/service.py:14-18 | the service holds the given cache, engine, entity name and model |
| `Services.Service.GetFromCache` | src/services/service.py:28-32 | a missing or empty cached value is a miss; any other value is validated, and a failure raises |
| `Services.Service.PutToCache` | src/services/service.py:34-35 | the cache afterwards maps `<entity name>_<item.id>` to the dumped item with TTL 300 and is otherwise unchanged |
| `Services.Service.GetById` | src/services/service.py:20-26 | the result and the new cache are those of the cache-aside step function |
| `Services.Service.GetByTextField` | src/services/service.py:37-40 | returns the first hit of the single-field search, validated, or absent when there is none; the cache is not touched |
| `Films.FilmModelRoundTrips` | src/services/film.py:20 | the film model reads back whatever it writes to the cache |
| `Films.NewFilmService` | src/services/film.py:19-20 | the film service uses entity name `movies` and the film model |
| `Films.Search` | src/services/film.py:22-30 | one film per hit of the five-field text search, in the engine's order; the first invalid hit raises |
| `Films.GetFilms` | src/services/film.py:32-36 | one film per hit of the genre-name search (or of an unfiltered search), in the engine's order; the first invalid hit raises |
| `Films.GetPersonFilms` | src/services/film.py:38-45 | one film per hit of the three-role listing, in the engine's order; the first invalid hit raises |
| `Films.SearchRequest` | src/services/film.py:22-30 | a film search is a `multi_match` over exactly `title^3`, `description`, `actors_names`, `writers_names`, `directors_names`, with the caller's paging |
| `Films.GetFilmsRequest` | src/services/film.py:32-36 | with a genre, the listing is a fuzzy match of the genre's name (not its id) on `genres`; without one there is no query |
| `Films.DramaPageRequest` | src/services/film.py:34-35 | page 1 of size 2 in genre "Drama" asks for a match of "Drama" on `genres`, size 2, from 0 |
| `Films.PersonFiltersExact` | src/services/film.py:39-41 | there are exactly three filters, `actors`, `directors`, `writers`, each on field `id` equal to the person id |
| `Films.PersonFilmsRequest` | src/services/film.py:38-45 | listing by person sends no text query, the caller's paging and sort, and term clauses on `actors.id`, `directors.id`, `writers.id` |
| `Genres.GenreModelRoundTrips` | src/services/genre.py:21 | the genre model reads back whatever it writes to the cache |
| `Genres.NewGenreService` | src/services/genre.py:20-21 | the genre service uses entity name `genres`, so keys are `genres_<id>` |
| `Genres.GetByIdAgreesWithBase` | src/services/genre.py:23-35 | the genre lookup matches the base lookup except that an invalid engine document gives absent instead of raising; it raises only on a corrupt cached value |
| `Genres.InvalidDocumentNotCached` | src/services/genre.py:28-35 | on a miss, a document that fails validation gives absent and nothing is cached |
| `Genres.ValidDocumentCached` | src/services/genre.py:29-33 | on a miss, a valid document is returned and cached under `genres_<id>`, and the next lookup of that id is a hit for it |
| `Genres.GetByIdIdempotent` | src/services/genre.py:23-35 | a second genre lookup of the same id returns the same result and leaves the cache as the first left it |
| `Genres.GetList` | src/services/genre.py:37-41 | one genre per hit of the plain listing, in the engine's order; the first invalid hit raises |
| `Genres.GetById` | src/services/genre.py:23-35 | the result and the new cache are those of the genre step function |
| `Genres.GetListRequest` | src/services/genre.py:37-41 | the genre listing sends no text query and no nested filter, with the caller's paging |
| `Persons.PersonModelRoundTrips` | src/services/person.py:22 | the person model reads back whatever it writes to the cache |
| `Persons.NamespacesDisjoint` | src/services/person.py:74-79 | the `movies_`, `genres_` and `persons_` keys of the one shared cache never coincide, whatever the ids |
| `Persons.NewPersonService` | src/services/person.py:21-23 | the person service uses entity name `persons` and the person model |
| `Persons.FilmRolesClosedForm` | src/services/person.py:67-69 | a film's derived roles are `actor`, `director`, `writer`, in that order, each included iff the full name is in that role's name list |
| `Persons.FilmRolesMeaning` | src/services/person.py:66-70 | a role is derived iff it is one of the three and the name is in its list; derived roles follow the fixed role order and have no duplicates |
| `Persons.ActorDirectorExample` | src/services/person.py:67-69 | a person listed as actor and director but not writer gets exactly `actor` and `director` |
| `Persons.RolesFromFilmworksMeaning` | src/services/person.py:63-71 | there is one entry per film, in film order, with the film's id; a film with no match gets an entry with no roles |
| `Persons.GetRolesFromFilmworks` | src/services/person.py:62-71 | the nested loops compute exactly the role derivation |
| `Persons.Enrich` | src/services/person.py:32-39 | the person gets `films` derived from all of its films, and nothing else changes; a film that fails validation raises |
| `Persons.EnrichRequest` | src/services/person.py:32-37 | the related-films fetch is page 1 of 10000, relevance-sorted, with no text query and term clauses on `actors.id`, `directors.id`, `writers.id` |
| `Persons.GetByIdHit` | src/services/person.py:25-27 | a hit returns the cached person as stored; neither the person engine nor the film engine affects the outcome |
| `Persons.GetByIdAbsent` | src/services/person.py:28-30 | an unknown person, or one with an empty `_source`, is absent and nothing is cached |
| `Persons.GetByIdCorruptCache` | src/services/person.py:26 | a cached value that is not a valid person raises its error whatever the engines hold, and the cache is unchanged |
| `Persons.GetByIdInvalidPerson` | src/services/person.py:31 | on a miss, a person document that fails validation raises its error and nothing is cached |
| `Persons.GetByIdInvalidFilm` | src/services/person.py:32-37 | on a miss, a related film that fails validation raises the error of the first such film and nothing is cached |
| `Persons.GetByIdIdempotent` | src/services/person.py:25-44 | a second person lookup of the same id returns the same result and leaves the cache as the first left it |
| `Persons.GetByIdEnrichesAndCaches` | src/services/person.py:31-44 | a miss for a valid person returns the person with films derived from all related films, caches that person under its own id, and the next lookup of that id is a hit for it |
| `Persons.GetById` | src/services/person.py:25-44 | the result and the new cache are those of the person step function |
| `Persons.GetPersonFilms` | src/services/person.py:46-48 | delegates to the film service's listing with its arguments unchanged |
| `Persons.SearchSpec` | src/services/person.py:50-60 | one person per hit of the `full_name` search, in the engine's order, each enriched with its film roles; an invalid person hit raises the first such error before any enrichment, otherwise the first failing enrichment, in hit order, raises |
| `Persons.EnrichEach` | src/services/person.py:55-59 | enriching validated persons in hit order gives one enriched person per hit, or the error of the first hit whose enrichment fails |
| `Persons.Search` | src/services/person.py:50-60 | each search hit is validated, then enriched in order with its film roles; a failure raises; nothing is cached |
| `Persons.SearchRequest` | src/services/person.py:50-53 | a person search matches the text on `full_name` only, with the caller's paging |

## Left out

- `Services.Service`: in the source the film, genre and person services all write to one shared cache store. The model gives each service its own `cache` map. `Persons.NamespacesDisjoint` shows that no key of one service can ever be a key of another, so no service's write can touch another's entries, and the split loses nothing.
- `AbstractSearchService`: as an interface with swappable implementations it is not modelled. The model has its single Elasticsearch implementation, as functions over an `Engine` value.
- Engine behaviour: relevance scoring, fuzziness, the `^3` title boost, and how `bool`/`should`/`nested` clauses select documents belong to the engine. `Engine.search` is an uninterpreted function from a request to hits. So the film ranking and the "each film appears once" behaviour of the three OR'd role filters are not modelled.
- Connectivity failures: engine unavailability and the cache's `ConnectionCacheError` propagate to the HTTP layer uncaught. They are not modelled.
- TTL expiry: real time is not modelled. The TTL is recorded with each write.
- JSON text: serialisation to text is not modelled. The cache holds the JSON document the text encodes, or `Blank` for an empty value. Cached text that is not JSON at all is not represented.
- `Models.ValidateFilm`: accepts only JSON numbers for `imdb_rating`, and `ValidationError` keeps a single location. pydantic's lax coercions (numeric strings, booleans) and full error lists are not modelled.
- `Models.Film`: the rating is a `real`, not an IEEE float. It is only carried through.
- `Models.Film`: the alignment of each name list with its reference list is not checked by the source, so the model does not assume it.
- `ElasticSearch.BuildRequest`: requires every sort directive to be non-empty (`DirectivesIndexable`). The source raises `IndexError` on an empty directive (for example `?sort=`), and this crash is not modelled as an outcome.
- `Films.Search`, `Films.GetFilms`, `Films.GetPersonFilms`, `Genres.GetList`, `Persons.SearchSpec`, `Persons.Search` and `Persons.GetPersonFilms`: require the same non-empty sort directives, so the `IndexError` an empty directive raises in every listing and search is not modelled either.
- `Services.Service.GetByTextField`: issues its search twice, as the source does. The model's engine answers a request the same way each time, so the first answer is discarded.
- Concurrency: async/await, concurrent requests, the `lru_cache` service factories and logging are not modelled.
- HTTP and wiring: the HTTP route handlers, the application and client lifecycle, settings loading and the unused Redis handle are not modelled.
- `PersonService`: its `film_service` field is passed as an argument to each person operation instead of being stored. Updating a person in place is modelled as replacing the person value in the list.
