/**
 * The actor and movie handlers of app.py with the database reduced to two id-indexed
 * tables of mutable objects: required-field validation for POST, in-place partial update
 * for PATCH, and removal for DELETE, each refusing a missing id with 404 before it
 * changes anything.
 */
module Catalog {
  import opened Wrappers

  /** A scalar JSON value of a request body. */
  datatype Json = JNull | JBool(b: bool) | JNum(n: int) | JStr(s: string)

  /** A JSON request body (an object). */
  type Body = map<string, Json>

  /** The `abort(code)` calls of the handlers. */
  datatype Abort = BadRequest | NotFound | MethodNotAllowed | Unprocessable | InternalError {
    function Code(): int {
      match this
      case BadRequest => 400
      case NotFound => 404
      case MethodNotAllowed => 405
      case Unprocessable => 422
      case InternalError => 500
    }

    /** The `message` of the JSON error handler registered for the code. */
    function Message(): string {
      match this
      case BadRequest => "bad request"
      case NotFound => "resource not found"
      case MethodNotAllowed => "method not allowed"
      case Unprocessable => "unprocessable"
      case InternalError => "internal server error"
    }
  }

  /** `body.get(name)`: `None` when the member is absent or JSON `null`. */
  function Field(body: Body, name: string): Option<Json> {
    if name in body && body[name] != JNull then Some(body[name]) else None
  }

  datatype ActorRecord = ActorRecord(name: Json, age: Json, gender: Json)
  datatype MovieRecord = MovieRecord(title: Json, releaseDate: Json)

  /** The required-field check of `add_actor`. */
  function NewActor(body: Body): (r: Result<ActorRecord, Abort>)
    ensures r.Failure? ==> r.error == BadRequest
    ensures r.Success? <==>
      Field(body, "name").Some? && Field(body, "age").Some? && Field(body, "gender").Some?
    ensures r.Success? ==>
      Field(body, "name") == Some(r.value.name) && Field(body, "age") == Some(r.value.age) &&
      Field(body, "gender") == Some(r.value.gender)
  {
    var name := Field(body, "name");
    var age := Field(body, "age");
    var gender := Field(body, "gender");
    if name.None? || age.None? || gender.None? then Failure(BadRequest)
    else Success(ActorRecord(name.value, age.value, gender.value))
  }

  /** The required-field check of `add_movie`. */
  function NewMovie(body: Body): (r: Result<MovieRecord, Abort>)
    ensures r.Failure? ==> r.error == BadRequest
    ensures r.Success? <==> Field(body, "title").Some? && Field(body, "release_date").Some?
    ensures r.Success? ==>
      Field(body, "title") == Some(r.value.title) && Field(body, "release_date") == Some(r.value.releaseDate)
  {
    var title := Field(body, "title");
    var releaseDate := Field(body, "release_date");
    if title.None? || releaseDate.None? then Failure(BadRequest)
    else Success(MovieRecord(title.value, releaseDate.value))
  }

  /** A field after a partial update: the body's value when present, the old one otherwise. */
  function Overwrite(current: Json, given: Option<Json>): Json {
    match given
    case None => current
    case Some(v) => v
  }

  /** The record `edit_actor` leaves behind. */
  function PatchedActor(rec: ActorRecord, body: Body): ActorRecord {
    ActorRecord(Overwrite(rec.name, Field(body, "name")),
                Overwrite(rec.age, Field(body, "age")),
                Overwrite(rec.gender, Field(body, "gender")))
  }

  /** The record `edit_movie` leaves behind. */
  function PatchedMovie(rec: MovieRecord, body: Body): MovieRecord {
    MovieRecord(Overwrite(rec.title, Field(body, "title")),
                Overwrite(rec.releaseDate, Field(body, "release_date")))
  }

  /** Two bodies applied one after the other: the later one wins on every member it gives a value. */
  function Merge(first: Body, second: Body): (m: Body)
    ensures forall k :: Field(m, k) == (if Field(second, k).Some? then Field(second, k) else Field(first, k))
  {
    map k | k in first.Keys + second.Keys ::
      if k in second && second[k] != JNull then second[k]
      else if k in first then first[k]
      else JNull
  }

  /** Applying the same PATCH body twice gives the same record as applying it once. */
  lemma PatchActorIdempotent(rec: ActorRecord, body: Body)
    ensures PatchedActor(PatchedActor(rec, body), body) == PatchedActor(rec, body)
  {
  }

  lemma PatchMovieIdempotent(rec: MovieRecord, body: Body)
    ensures PatchedMovie(PatchedMovie(rec, body), body) == PatchedMovie(rec, body)
  {
  }

  /** Fields the body gives are overwritten; fields it leaves out (or sets to null) keep their old values. */
  lemma PatchActorFields(rec: ActorRecord, body: Body)
    ensures Field(body, "name").Some? ==> PatchedActor(rec, body).name == Field(body, "name").value
    ensures Field(body, "age").Some? ==> PatchedActor(rec, body).age == Field(body, "age").value
    ensures Field(body, "gender").Some? ==> PatchedActor(rec, body).gender == Field(body, "gender").value
    ensures Field(body, "name").None? ==> PatchedActor(rec, body).name == rec.name
    ensures Field(body, "age").None? ==> PatchedActor(rec, body).age == rec.age
    ensures Field(body, "gender").None? ==> PatchedActor(rec, body).gender == rec.gender
    ensures Field(body, "name").None? && Field(body, "age").None? && Field(body, "gender").None? ==>
      PatchedActor(rec, body) == rec
  {
  }

  lemma PatchMovieFields(rec: MovieRecord, body: Body)
    ensures Field(body, "title").Some? ==> PatchedMovie(rec, body).title == Field(body, "title").value
    ensures Field(body, "release_date").Some? ==> PatchedMovie(rec, body).releaseDate == Field(body, "release_date").value
    ensures Field(body, "title").None? ==> PatchedMovie(rec, body).title == rec.title
    ensures Field(body, "release_date").None? ==> PatchedMovie(rec, body).releaseDate == rec.releaseDate
    ensures Field(body, "title").None? && Field(body, "release_date").None? ==> PatchedMovie(rec, body) == rec
  {
  }

  /** Two successive PATCHes equal one PATCH with the merged body. */
  lemma PatchActorCompose(rec: ActorRecord, first: Body, second: Body)
    ensures PatchedActor(PatchedActor(rec, first), second) == PatchedActor(rec, Merge(first, second))
  {
  }

  lemma PatchMovieCompose(rec: MovieRecord, first: Body, second: Body)
    ensures PatchedMovie(PatchedMovie(rec, first), second) == PatchedMovie(rec, Merge(first, second))
  {
  }

  /** A body accepted by POST overwrites every field when sent as a PATCH: it yields the created record. */
  lemma CreateBodyIsFullActorPatch(rec: ActorRecord, body: Body)
    requires NewActor(body).Success?
    ensures PatchedActor(rec, body) == NewActor(body).value
  {
  }

  lemma CreateBodyIsFullMoviePatch(rec: MovieRecord, body: Body)
    requires NewMovie(body).Success?
    ensures PatchedMovie(rec, body) == NewMovie(body).value
  {
  }

  /** A row of the `actors` table, updated in place by `edit_actor`. */
  class Actor {
    var id: int
    var name: Json
    var age: Json
    var gender: Json

    constructor (id: int, rec: ActorRecord)
      ensures this.id == id && Record() == rec
    {
      this.id := id;
      name, age, gender := rec.name, rec.age, rec.gender;
    }

    function Record(): ActorRecord
      reads this
    {
      ActorRecord(name, age, gender)
    }

    /** The three conditional assignments of `edit_actor`. */
    method Update(body: Body)
      modifies this
      ensures Record() == PatchedActor(old(Record()), body)
      ensures id == old(id)
    {
      var newName := Field(body, "name");
      var newAge := Field(body, "age");
      var newGender := Field(body, "gender");
      if newName.Some? {
        name := newName.value;
      }
      if newAge.Some? {
        age := newAge.value;
      }
      if newGender.Some? {
        gender := newGender.value;
      }
    }
  }

  /** A row of the `movies` table, updated in place by `edit_movie`. */
  class Movie {
    var id: int
    var title: Json
    var releaseDate: Json

    constructor (id: int, rec: MovieRecord)
      ensures this.id == id && Record() == rec
    {
      this.id := id;
      title, releaseDate := rec.title, rec.releaseDate;
    }

    function Record(): MovieRecord
      reads this
    {
      MovieRecord(title, releaseDate)
    }

    /** The two conditional assignments of `edit_movie`. */
    method Update(body: Body)
      modifies this
      ensures Record() == PatchedMovie(old(Record()), body)
      ensures id == old(id)
    {
      var newTitle := Field(body, "title");
      var newReleaseDate := Field(body, "release_date");
      if newTitle.Some? {
        title := newTitle.value;
      }
      if newReleaseDate.Some? {
        releaseDate := newReleaseDate.value;
      }
    }
  }

  datatype Added = Added(id: int, total: nat)
  datatype Deleted = Deleted(id: int, total: nat)

  /**
   * The two tables. Ids come from an increasing sequence, each row object is stored under
   * its own id, and no object is stored twice.
   */
  class Database {
    var actors: map<int, Actor>
    var movies: map<int, Movie>
    var nextActorId: int
    var nextMovieId: int

    ghost predicate Valid()
      reads this, actors.Values, movies.Values
    {
      && (forall i :: i in actors ==> actors[i].id == i && i < nextActorId)
      && (forall i, j :: i in actors && j in actors && i != j ==> actors[i] != actors[j])
      && (forall i :: i in movies ==> movies[i].id == i && i < nextMovieId)
      && (forall i, j :: i in movies && j in movies && i != j ==> movies[i] != movies[j])
    }

    /** The actor rows as values, by id. */
    function ActorRecords(): map<int, ActorRecord>
      reads this, actors.Values
    {
      map i | i in actors :: actors[i].Record()
    }

    /** The movie rows as values, by id. */
    function MovieRecords(): map<int, MovieRecord>
      reads this, movies.Values
    {
      map i | i in movies :: movies[i].Record()
    }

    constructor ()
      ensures Valid() && ActorRecords() == map[] && MovieRecords() == map[]
    {
      actors, movies := map[], map[];
      nextActorId, nextMovieId := 1, 1;
    }

    /** `add_actor`: 400 when a field is missing, otherwise a new row under a fresh id. */
    method AddActor(body: Body) returns (r: Result<Added, Abort>)
      requires Valid()
      modifies this
      ensures Valid()
      ensures MovieRecords() == old(MovieRecords())
      ensures NewActor(body).Failure? ==> r == Failure(BadRequest) && ActorRecords() == old(ActorRecords())
      ensures NewActor(body).Success? ==>
        && old(nextActorId) !in old(ActorRecords())
        && ActorRecords() == old(ActorRecords())[old(nextActorId) := NewActor(body).value]
        && r == Success(Added(old(nextActorId), |ActorRecords()|))
    {
      var rec := NewActor(body);
      if rec.Failure? {
        return Failure(rec.error);
      }
      var id := nextActorId;
      var actor := new Actor(id, rec.value);
      actors := actors[id := actor];
      nextActorId := nextActorId + 1;
      assert ActorRecords() == old(ActorRecords())[id := rec.value];
      r := Success(Added(id, |ActorRecords()|));
    }

    /** `add_movie`: 400 when a field is missing, otherwise a new row under a fresh id. */
    method AddMovie(body: Body) returns (r: Result<Added, Abort>)
      requires Valid()
      modifies this
      ensures Valid()
      ensures ActorRecords() == old(ActorRecords())
      ensures NewMovie(body).Failure? ==> r == Failure(BadRequest) && MovieRecords() == old(MovieRecords())
      ensures NewMovie(body).Success? ==>
        && old(nextMovieId) !in old(MovieRecords())
        && MovieRecords() == old(MovieRecords())[old(nextMovieId) := NewMovie(body).value]
        && r == Success(Added(old(nextMovieId), |MovieRecords()|))
    {
      var rec := NewMovie(body);
      if rec.Failure? {
        return Failure(rec.error);
      }
      var id := nextMovieId;
      var movie := new Movie(id, rec.value);
      movies := movies[id := movie];
      nextMovieId := nextMovieId + 1;
      assert MovieRecords() == old(MovieRecords())[id := rec.value];
      r := Success(Added(id, |MovieRecords()|));
    }

    /** `delete_actor`: 404 for an unknown id, otherwise the row is removed. */
    method DeleteActor(id: int) returns (r: Result<Deleted, Abort>)
      requires Valid()
      modifies this
      ensures Valid()
      ensures MovieRecords() == old(MovieRecords())
      ensures id !in old(ActorRecords()) ==> r == Failure(NotFound) && ActorRecords() == old(ActorRecords())
      ensures id in old(ActorRecords()) ==>
        ActorRecords() == old(ActorRecords()) - {id} && r == Success(Deleted(id, |ActorRecords()|))
    {
      if id !in actors {
        return Failure(NotFound);
      }
      actors := actors - {id};
      assert ActorRecords() == old(ActorRecords()) - {id};
      r := Success(Deleted(id, |ActorRecords()|));
    }

    /** `delete_movie`: 404 for an unknown id, otherwise the row is removed. */
    method DeleteMovie(id: int) returns (r: Result<Deleted, Abort>)
      requires Valid()
      modifies this
      ensures Valid()
      ensures ActorRecords() == old(ActorRecords())
      ensures id !in old(MovieRecords()) ==> r == Failure(NotFound) && MovieRecords() == old(MovieRecords())
      ensures id in old(MovieRecords()) ==>
        MovieRecords() == old(MovieRecords()) - {id} && r == Success(Deleted(id, |MovieRecords()|))
    {
      if id !in movies {
        return Failure(NotFound);
      }
      movies := movies - {id};
      assert MovieRecords() == old(MovieRecords()) - {id};
      r := Success(Deleted(id, |MovieRecords()|));
    }

    /** `edit_actor`: 404 for an unknown id, otherwise the row is patched in place; the other rows are untouched. */
    method EditActor(id: int, body: Body) returns (r: Result<ActorRecord, Abort>)
      requires Valid()
      modifies actors.Values
      ensures Valid()
      ensures MovieRecords() == old(MovieRecords())
      ensures id !in old(ActorRecords()) ==> r == Failure(NotFound) && ActorRecords() == old(ActorRecords())
      ensures id in old(ActorRecords()) ==>
        && r == Success(PatchedActor(old(ActorRecords())[id], body))
        && ActorRecords() == old(ActorRecords())[id := PatchedActor(old(ActorRecords())[id], body)]
    {
      if id !in actors {
        return Failure(NotFound);
      }
      var actor := actors[id];
      actor.Update(body);
      assert forall i :: i in actors && i != id ==> actors[i] != actor;
      assert ActorRecords() == old(ActorRecords())[id := PatchedActor(old(ActorRecords())[id], body)];
      r := Success(actor.Record());
    }

    /** `edit_movie`: 404 for an unknown id, otherwise the row is patched in place; the other rows are untouched. */
    method EditMovie(id: int, body: Body) returns (r: Result<MovieRecord, Abort>)
      requires Valid()
      modifies movies.Values
      ensures Valid()
      ensures ActorRecords() == old(ActorRecords())
      ensures id !in old(MovieRecords()) ==> r == Failure(NotFound) && MovieRecords() == old(MovieRecords())
      ensures id in old(MovieRecords()) ==>
        && r == Success(PatchedMovie(old(MovieRecords())[id], body))
        && MovieRecords() == old(MovieRecords())[id := PatchedMovie(old(MovieRecords())[id], body)]
    {
      if id !in movies {
        return Failure(NotFound);
      }
      var movie := movies[id];
      movie.Update(body);
      assert forall i :: i in movies && i != id ==> movies[i] != movie;
      assert MovieRecords() == old(MovieRecords())[id := PatchedMovie(old(MovieRecords())[id], body)];
      r := Success(movie.Record());
    }
  }
}
