/** The entity records and their validation from, and serialisation to, JSON documents.
    Fields without a default are required (even when they may be null); list fields
    with a default factory fall back to the empty list when missing; unknown keys are
    ignored. */
module Models {
  import opened Wrappers
  import opened JsonValues

  datatype PersonFilm = PersonFilm(id: string, roles: seq<string>)

  datatype Person = Person(id: string, fullName: string, films: seq<PersonFilm>)

  datatype Genre = Genre(id: string, name: string, description: Option<string>)

  datatype FilmPerson = FilmPerson(id: string, name: string)

  /** `imdbRating` is only carried through; a float is modelled as a `real`. */
  datatype Film = Film(
    id: string,
    title: string,
    description: Option<string>,
    imdbRating: Option<real>,
    actors: seq<FilmPerson>,
    writers: seq<FilmPerson>,
    directors: seq<FilmPerson>,
    genres: seq<string>,
    actorsNames: seq<string>,
    writersNames: seq<string>,
    directorsNames: seq<string>)

  // ---- PersonFilm ----

  function ValidatePersonFilm(j: Json): Result<PersonFilm, ValidationError>
  {
    if !j.Obj? then Err(ValidationError("PersonFilm"))
    else
      var id :- StrField(j.fields, "id");
      var roles :- ListField(j.fields, "roles", StrItem);
      Ok(PersonFilm(id, roles))
  }

  function DumpPersonFilm(pf: PersonFilm): Json
  {
    Obj(map["id" := Str(pf.id), "roles" := Arr(DumpEach(pf.roles, StrJson))])
  }

  lemma PersonFilmRoundTrip(pf: PersonFilm)
    ensures ValidatePersonFilm(DumpPersonFilm(pf)) == Ok(pf)
  {
    StrListRoundTrip(pf.roles);
  }

  /** `roles` defaults to the empty list. */
  lemma PersonFilmRolesDefault(d: Doc, id: string)
    requires "id" in d && d["id"] == Str(id) && "roles" !in d
    ensures ValidatePersonFilm(Obj(d)) == Ok(PersonFilm(id, []))
  {
  }

  // ---- Person ----

  function ValidatePerson(j: Json): Result<Person, ValidationError>
  {
    if !j.Obj? then Err(ValidationError("Person"))
    else
      var id :- StrField(j.fields, "id");
      var fullName :- StrField(j.fields, "full_name");
      var films :- ListField(j.fields, "films", ValidatePersonFilm);
      Ok(Person(id, fullName, films))
  }

  function DumpPerson(p: Person): Json
  {
    Obj(map[
      "id" := Str(p.id),
      "full_name" := Str(p.fullName),
      "films" := Arr(DumpEach(p.films, DumpPersonFilm))])
  }

  lemma PersonRoundTrip(p: Person)
    ensures ValidatePerson(DumpPerson(p)) == Ok(p)
  {
    forall pf: PersonFilm ensures ValidatePersonFilm(DumpPersonFilm(pf)) == Ok(pf) {
      PersonFilmRoundTrip(pf);
    }
    EachOkDumpEach(p.films, ValidatePersonFilm, DumpPersonFilm);
  }

  /** `films` defaults to the empty list: a person document as the engine stores it. */
  lemma PersonFilmsDefault(d: Doc, id: string, fullName: string)
    requires "id" in d && d["id"] == Str(id)
    requires "full_name" in d && d["full_name"] == Str(fullName)
    requires "films" !in d
    ensures ValidatePerson(Obj(d)) == Ok(Person(id, fullName, []))
  {
  }

  // ---- Genre ----

  function ValidateGenre(j: Json): Result<Genre, ValidationError>
  {
    if !j.Obj? then Err(ValidationError("Genre"))
    else
      var id :- StrField(j.fields, "id");
      var name :- StrField(j.fields, "name");
      var description :- OptStrField(j.fields, "description");
      Ok(Genre(id, name, description))
  }

  function DumpGenre(g: Genre): Json
  {
    Obj(map["id" := Str(g.id), "name" := Str(g.name), "description" := OptStrJson(g.description)])
  }

  lemma GenreRoundTrip(g: Genre)
    ensures ValidateGenre(DumpGenre(g)) == Ok(g)
  {
  }

  /** `description` may be null but, having no default, may not be missing. */
  lemma GenreDescriptionOptional(d: Doc, id: string, name: string)
    requires "id" in d && d["id"] == Str(id) && "name" in d && d["name"] == Str(name)
    ensures "description" !in d ==> ValidateGenre(Obj(d)).Err?
    ensures "description" in d && d["description"] == Null ==> ValidateGenre(Obj(d)) == Ok(Genre(id, name, None))
  {
  }

  // ---- FilmPerson ----

  function ValidateFilmPerson(j: Json): Result<FilmPerson, ValidationError>
  {
    if !j.Obj? then Err(ValidationError("FilmPerson"))
    else
      var id :- StrField(j.fields, "id");
      var name :- StrField(j.fields, "name");
      Ok(FilmPerson(id, name))
  }

  function DumpFilmPerson(fp: FilmPerson): Json
  {
    Obj(map["id" := Str(fp.id), "name" := Str(fp.name)])
  }

  // ---- Film ----

  function ValidateFilm(j: Json): Result<Film, ValidationError>
  {
    if !j.Obj? then Err(ValidationError("Film"))
    else
      var d := j.fields;
      var id :- StrField(d, "id");
      var title :- StrField(d, "title");
      var description :- OptStrField(d, "description");
      var imdbRating :- OptNumField(d, "imdb_rating");
      var people :- FilmPeople(d);
      var names :- FilmNames(d);
      Ok(Film(id, title, description, imdbRating, people.0, people.1, people.2,
              names.0, names.1, names.2, names.3))
  }

  /** The three person-reference lists: actors, writers, directors. */
  function FilmPeople(d: Doc): Result<(seq<FilmPerson>, seq<FilmPerson>, seq<FilmPerson>), ValidationError>
  {
    var actors :- ListField(d, "actors", ValidateFilmPerson);
    var writers :- ListField(d, "writers", ValidateFilmPerson);
    var directors :- ListField(d, "directors", ValidateFilmPerson);
    Ok((actors, writers, directors))
  }

  /** The genre list and the three flattened name lists. */
  function FilmNames(d: Doc): Result<(seq<string>, seq<string>, seq<string>, seq<string>), ValidationError>
  {
    var genres :- ListField(d, "genres", StrItem);
    var actorsNames :- ListField(d, "actors_names", StrItem);
    var writersNames :- ListField(d, "writers_names", StrItem);
    var directorsNames :- ListField(d, "directors_names", StrItem);
    Ok((genres, actorsNames, writersNames, directorsNames))
  }

  function DumpFilm(f: Film): Json
  {
    Obj(map[
      "id" := Str(f.id),
      "title" := Str(f.title),
      "description" := OptStrJson(f.description),
      "imdb_rating" := OptNumJson(f.imdbRating),
      "actors" := Arr(DumpEach(f.actors, DumpFilmPerson)),
      "writers" := Arr(DumpEach(f.writers, DumpFilmPerson)),
      "directors" := Arr(DumpEach(f.directors, DumpFilmPerson)),
      "genres" := Arr(DumpEach(f.genres, StrJson)),
      "actors_names" := Arr(DumpEach(f.actorsNames, StrJson)),
      "writers_names" := Arr(DumpEach(f.writersNames, StrJson)),
      "directors_names" := Arr(DumpEach(f.directorsNames, StrJson))])
  }

  lemma FilmRoundTrip(f: Film)
    ensures ValidateFilm(DumpFilm(f)) == Ok(f)
  {
    var d := DumpFilm(f).fields;
    assert StrField(d, "id") == Ok(f.id);
    assert StrField(d, "title") == Ok(f.title);
    assert OptStrField(d, "description") == Ok(f.description);
    assert OptNumField(d, "imdb_rating") == Ok(f.imdbRating);
    FilmPeopleRoundTrip(f);
    FilmNamesRoundTrip(f);
  }

  lemma FilmPeopleRoundTrip(f: Film)
    ensures FilmPeople(DumpFilm(f).fields) == Ok((f.actors, f.writers, f.directors))
  {
    var d := DumpFilm(f).fields;
    assert forall fp: FilmPerson :: ValidateFilmPerson(DumpFilmPerson(fp)) == Ok(fp);
    assert ListField(d, "actors", ValidateFilmPerson) == Ok(f.actors) by {
      EachOkDumpEach(f.actors, ValidateFilmPerson, DumpFilmPerson);
    }
    assert ListField(d, "writers", ValidateFilmPerson) == Ok(f.writers) by {
      EachOkDumpEach(f.writers, ValidateFilmPerson, DumpFilmPerson);
    }
    assert ListField(d, "directors", ValidateFilmPerson) == Ok(f.directors) by {
      EachOkDumpEach(f.directors, ValidateFilmPerson, DumpFilmPerson);
    }
  }

  lemma FilmNamesRoundTrip(f: Film)
    ensures FilmNames(DumpFilm(f).fields) == Ok((f.genres, f.actorsNames, f.writersNames, f.directorsNames))
  {
    var d := DumpFilm(f).fields;
    assert ListField(d, "genres", StrItem) == Ok(f.genres) by {
      StrListRoundTrip(f.genres);
    }
    assert ListField(d, "actors_names", StrItem) == Ok(f.actorsNames) by {
      StrListRoundTrip(f.actorsNames);
    }
    assert ListField(d, "writers_names", StrItem) == Ok(f.writersNames) by {
      StrListRoundTrip(f.writersNames);
    }
    assert ListField(d, "directors_names", StrItem) == Ok(f.directorsNames) by {
      StrListRoundTrip(f.directorsNames);
    }
  }

  /** Every list field of a film defaults to the empty list; description and rating are
      nullable but required. */
  lemma FilmDefaults(d: Doc, id: string, title: string)
    requires "id" in d && d["id"] == Str(id) && "title" in d && d["title"] == Str(title)
    requires "description" in d && d["description"] == Null
    requires "imdb_rating" in d && d["imdb_rating"] == Null
    requires forall k :: k in d ==> k in {"id", "title", "description", "imdb_rating"}
    ensures ValidateFilm(Obj(d)) == Ok(Film(id, title, None, None, [], [], [], [], [], [], []))
    ensures ValidateFilm(Obj(d - {"description"})).Err?
    ensures ValidateFilm(Obj(d - {"imdb_rating"})).Err?
  {
    assert "actors" !in d && "writers" !in d && "directors" !in d && "genres" !in d;
    assert "actors_names" !in d && "writers_names" !in d && "directors_names" !in d;
  }
}
