/**
 * The routes of app.py behind the request gate: each asks the gate for its permission,
 * runs its handler only when the gate passes, and turns failures into the JSON error
 * responses of the registered error handlers.
 */
module Api {
  import opened Wrappers
  import opened Auth
  import opened Pagination
  import opened Catalog

  /** Why a request failed: an `AuthError` from the gate, or an `abort(code)`. */
  datatype Problem = AuthFailure(err: AuthError) | Aborted(abort: Abort)

  /**
   * The JSON body of an error response. Both kinds carry the JSON member `error`: the
   * status code for an abort (`code` here), the message for an `AuthError`.
   */
  datatype ErrorBody =
    | AbortBody(success: bool, code: int, message: string)
    | AuthErrorBody(success: bool, error: string, statusCode: int)

  datatype ErrorResponse = ErrorResponse(status: int, body: ErrorBody)

  /** Everything the gate reads about a request and its environment. */
  datatype Credentials = Credentials(config: Config, jose: Jose, jwks: KeySetFetch, authorization: Option<string>)

  const GetActorsPermission := "get:actors"
  const GetMoviesPermission := "get:movies"
  const DeleteActorPermission := "delete:actor"
  const DeleteMoviePermission := "delete:movie"
  const PostActorPermission := "post:actor"
  const PostMoviePermission := "post:movie"
  const PatchActorPermission := "patch:actor"
  const PatchMoviePermission := "patch:movie"

  /** The `AuthError` handler: the error's status is both the HTTP status and the body's `status_code`. */
  function HandleAuthError(e: AuthError): (r: ErrorResponse)
    ensures r.status == e.statusCode
    ensures r.body.AuthErrorBody? && r.body.statusCode == e.statusCode
    ensures !r.body.success && r.body.error == e.error
  {
    ErrorResponse(e.statusCode, AuthErrorBody(false, e.error, e.statusCode))
  }

  /** The response to a failed request; an escaped exception is answered like `abort(500)`. */
  function Render(p: Problem): (r: ErrorResponse)
    ensures !r.body.success
    ensures p.AuthFailure? ==> r == HandleAuthError(p.err)
    ensures p.Aborted? ==>
      r.status == p.abort.Code() && r.body == AbortBody(false, p.abort.Code(), p.abort.Message())
  {
    match p
    case AuthFailure(e) => HandleAuthError(e)
    case Aborted(a) => ErrorResponse(a.Code(), AbortBody(false, a.Code(), a.Message()))
  }

  /** An `AuthError` reaches the error handler; any other exception is answered 500. */
  function FromFault(f: Fault): Problem {
    match f
    case Raised(e) => AuthFailure(e)
    case Crash => Aborted(InternalError)
  }

  /** `requires_auth(permission)` before the handler: the payload, or the problem to answer with. */
  function Gate(c: Credentials, permission: string): (r: Result<Payload, Problem>)
    ensures r.Success? <==> Authenticate(c.config, c.jose, c.jwks, c.authorization, permission).Success?
    ensures r.Success? ==> r.value == Authenticate(c.config, c.jose, c.jwks, c.authorization, permission).value
    ensures r.Failure? ==> r.error == FromFault(Authenticate(c.config, c.jose, c.jwks, c.authorization, permission).error)
    ensures Authenticate(c.config, c.jose, c.jwks, c.authorization, permission) == Failure(Crash) ==>
      r == Failure(Aborted(InternalError))
    ensures Authenticate(c.config, c.jose, c.jwks, c.authorization, permission).Failure? &&
            Authenticate(c.config, c.jose, c.jwks, c.authorization, permission).error.Raised? ==>
      r == Failure(AuthFailure(Authenticate(c.config, c.jose, c.jwks, c.authorization, permission).error.err))
  {
    match Authenticate(c.config, c.jose, c.jwks, c.authorization, permission)
    case Success(payload) => Success(payload)
    case Failure(f) => Failure(FromFault(f))
  }

  /** The body of a successful list request. */
  datatype Listing<U> = Listing(items: seq<U>, total: nat, currentPage: int)

  /** The handler part of `get_actors`/`get_movies`: 404 when the requested page is empty. */
  function ListPage<T, U>(format: T -> U, selection: seq<T>, arg: Option<int>): (r: Result<Listing<U>, Abort>)
    ensures r.Failure? <==> Paginate(format, selection, arg).items == []
    ensures r.Failure? ==> r.error == NotFound
    ensures r.Success? ==>
      r.value == Listing(Paginate(format, selection, arg).items, |selection|, PageNumber(arg))
  {
    var page := Paginate(format, selection, arg);
    if |page.items| == 0 then Failure(NotFound)
    else Success(Listing(page.items, |selection|, page.page))
  }

  /** A page number past the last item is answered 404 `resource not found`. */
  lemma PageBeyondAvailableIs404<T, U>(format: T -> U, selection: seq<T>, p: int)
    requires p >= 1 && (p - 1) * ItemsPerPage >= |selection|
    ensures ListPage(format, selection, Some(p)) == Failure(NotFound)
    ensures Render(Aborted(NotFound)) == ErrorResponse(404, AbortBody(false, 404, "resource not found"))
  {
    PastTheEndIsEmpty(format, selection, p);
  }

  /**
   * `GET /actors` and `GET /movies`: `selection` is the table in id order as the query
   * returns it, `format` the row's `format()`.
   */
  function GetList<T, U>(c: Credentials, permission: string, format: T -> U, selection: seq<T>, arg: Option<int>): (r: Result<Listing<U>, Problem>)
    ensures Gate(c, permission).Failure? ==> r == Failure(Gate(c, permission).error)
    ensures Gate(c, permission).Success? ==>
      r == (match ListPage(format, selection, arg)
            case Success(l) => Success(l)
            case Failure(a) => Failure(Aborted(a)))
  {
    var _ :- Gate(c, permission);
    match ListPage(format, selection, arg)
    case Success(l) => Success(l)
    case Failure(a) => Failure(Aborted(a))
  }

  /** `GET /actors?page=10000` on a table of fewer than 99991 rows, with a token that may list actors, is answered 404. */
  lemma FarPageOfActorsIs404<T, U>(c: Credentials, format: T -> U, selection: seq<T>)
    requires Gate(c, GetActorsPermission).Success? && |selection| <= 99990
    ensures GetList(c, GetActorsPermission, format, selection, Some(10000)) == Failure(Aborted(NotFound))
  {
    PageBeyondAvailableIs404(format, selection, 10000);
  }

  /** The same for `GET /movies?page=10000`. */
  lemma FarPageOfMoviesIs404<T, U>(c: Credentials, format: T -> U, selection: seq<T>)
    requires Gate(c, GetMoviesPermission).Success? && |selection| <= 99990
    ensures GetList(c, GetMoviesPermission, format, selection, Some(10000)) == Failure(Aborted(NotFound))
  {
    PageBeyondAvailableIs404(format, selection, 10000);
  }

  /** A request without an `Authorization` header is answered 401 on every protected route. */
  lemma MissingHeaderIs401(c: Credentials, permission: string)
    requires c.authorization.None?
    ensures Gate(c, permission) == Failure(AuthFailure(HeaderExpected))
    ensures Render(Gate(c, permission).error).status == 401
  {
    NoHeaderIs401(c.config, c.jose, c.jwks, permission);
  }

  /** A valid token without the route's permission is answered 403. */
  lemma MissingPermissionIs403(c: Credentials, permission: string, payload: Payload)
    requires GetTokenAuthHeader(c.authorization).Success?
    requires VerifyDecodeJwt(c.config, c.jose, c.jwks, GetTokenAuthHeader(c.authorization).value) == Success(payload)
    requires payload.permissions.Some? && permission !in payload.permissions.value
    ensures Render(Gate(c, permission).error).status == 403
  {
    PermissionDecides(c.config, c.jose, c.jwks, c.authorization, permission, payload);
  }

  /** `POST /actors`: the gate, then `add_actor`. */
  method PostActor(db: Database, c: Credentials, body: Body) returns (r: Result<Added, Problem>)
    requires db.Valid()
    modifies db
    ensures db.Valid()
    ensures Gate(c, PostActorPermission).Failure? ==>
      r == Failure(Gate(c, PostActorPermission).error) &&
      db.ActorRecords() == old(db.ActorRecords()) && db.MovieRecords() == old(db.MovieRecords())
    ensures Gate(c, PostActorPermission).Success? ==>
      db.MovieRecords() == old(db.MovieRecords()) &&
      (NewActor(body).Failure? <==> r == Failure(Aborted(BadRequest))) &&
      (NewActor(body).Failure? ==> db.ActorRecords() == old(db.ActorRecords())) &&
      (NewActor(body).Success? ==>
        && r == Success(Added(old(db.nextActorId), |db.ActorRecords()|))
        && db.ActorRecords() == old(db.ActorRecords())[old(db.nextActorId) := NewActor(body).value])
  {
    var gate := Gate(c, PostActorPermission);
    if gate.Failure? {
      return Failure(gate.error);
    }
    var added := db.AddActor(body);
    r := if added.Success? then Success(added.value) else Failure(Aborted(added.error));
  }

  /** `POST /movies`: the gate, then `add_movie`. */
  method PostMovie(db: Database, c: Credentials, body: Body) returns (r: Result<Added, Problem>)
    requires db.Valid()
    modifies db
    ensures db.Valid()
    ensures Gate(c, PostMoviePermission).Failure? ==>
      r == Failure(Gate(c, PostMoviePermission).error) &&
      db.ActorRecords() == old(db.ActorRecords()) && db.MovieRecords() == old(db.MovieRecords())
    ensures Gate(c, PostMoviePermission).Success? ==>
      db.ActorRecords() == old(db.ActorRecords()) &&
      (NewMovie(body).Failure? <==> r == Failure(Aborted(BadRequest))) &&
      (NewMovie(body).Failure? ==> db.MovieRecords() == old(db.MovieRecords())) &&
      (NewMovie(body).Success? ==>
        && r == Success(Added(old(db.nextMovieId), |db.MovieRecords()|))
        && db.MovieRecords() == old(db.MovieRecords())[old(db.nextMovieId) := NewMovie(body).value])
  {
    var gate := Gate(c, PostMoviePermission);
    if gate.Failure? {
      return Failure(gate.error);
    }
    var added := db.AddMovie(body);
    r := if added.Success? then Success(added.value) else Failure(Aborted(added.error));
  }

  /** `DELETE /actors/<id>`: the gate, then `delete_actor`. */
  method DeleteActor(db: Database, c: Credentials, id: int) returns (r: Result<Deleted, Problem>)
    requires db.Valid()
    modifies db
    ensures db.Valid()
    ensures db.MovieRecords() == old(db.MovieRecords())
    ensures Gate(c, DeleteActorPermission).Failure? ==>
      r == Failure(Gate(c, DeleteActorPermission).error) && db.ActorRecords() == old(db.ActorRecords())
    ensures Gate(c, DeleteActorPermission).Success? && id !in old(db.ActorRecords()) ==>
      r == Failure(Aborted(NotFound)) && db.ActorRecords() == old(db.ActorRecords())
    ensures Gate(c, DeleteActorPermission).Success? && id in old(db.ActorRecords()) ==>
      db.ActorRecords() == old(db.ActorRecords()) - {id} && r == Success(Deleted(id, |db.ActorRecords()|))
  {
    var gate := Gate(c, DeleteActorPermission);
    if gate.Failure? {
      return Failure(gate.error);
    }
    var deleted := db.DeleteActor(id);
    r := if deleted.Success? then Success(deleted.value) else Failure(Aborted(deleted.error));
  }

  /** `DELETE /movies/<id>`: the gate, then `delete_movie`. */
  method DeleteMovie(db: Database, c: Credentials, id: int) returns (r: Result<Deleted, Problem>)
    requires db.Valid()
    modifies db
    ensures db.Valid()
    ensures db.ActorRecords() == old(db.ActorRecords())
    ensures Gate(c, DeleteMoviePermission).Failure? ==>
      r == Failure(Gate(c, DeleteMoviePermission).error) && db.MovieRecords() == old(db.MovieRecords())
    ensures Gate(c, DeleteMoviePermission).Success? && id !in old(db.MovieRecords()) ==>
      r == Failure(Aborted(NotFound)) && db.MovieRecords() == old(db.MovieRecords())
    ensures Gate(c, DeleteMoviePermission).Success? && id in old(db.MovieRecords()) ==>
      db.MovieRecords() == old(db.MovieRecords()) - {id} && r == Success(Deleted(id, |db.MovieRecords()|))
  {
    var gate := Gate(c, DeleteMoviePermission);
    if gate.Failure? {
      return Failure(gate.error);
    }
    var deleted := db.DeleteMovie(id);
    r := if deleted.Success? then Success(deleted.value) else Failure(Aborted(deleted.error));
  }

  /** `PATCH /actors/<id>`: the gate, then `edit_actor`. */
  method PatchActor(db: Database, c: Credentials, id: int, body: Body) returns (r: Result<ActorRecord, Problem>)
    requires db.Valid()
    modifies db.actors.Values
    ensures db.Valid()
    ensures db.MovieRecords() == old(db.MovieRecords())
    ensures Gate(c, PatchActorPermission).Failure? ==>
      r == Failure(Gate(c, PatchActorPermission).error) && db.ActorRecords() == old(db.ActorRecords())
    ensures Gate(c, PatchActorPermission).Success? && id !in old(db.ActorRecords()) ==>
      r == Failure(Aborted(NotFound)) && db.ActorRecords() == old(db.ActorRecords())
    ensures Gate(c, PatchActorPermission).Success? && id in old(db.ActorRecords()) ==>
      && r == Success(PatchedActor(old(db.ActorRecords())[id], body))
      && db.ActorRecords() == old(db.ActorRecords())[id := PatchedActor(old(db.ActorRecords())[id], body)]
  {
    var gate := Gate(c, PatchActorPermission);
    if gate.Failure? {
      return Failure(gate.error);
    }
    var edited := db.EditActor(id, body);
    r := if edited.Success? then Success(edited.value) else Failure(Aborted(edited.error));
  }

  /** `PATCH /movies/<id>`: the gate, then `edit_movie`. */
  method PatchMovie(db: Database, c: Credentials, id: int, body: Body) returns (r: Result<MovieRecord, Problem>)
    requires db.Valid()
    modifies db.movies.Values
    ensures db.Valid()
    ensures db.ActorRecords() == old(db.ActorRecords())
    ensures Gate(c, PatchMoviePermission).Failure? ==>
      r == Failure(Gate(c, PatchMoviePermission).error) && db.MovieRecords() == old(db.MovieRecords())
    ensures Gate(c, PatchMoviePermission).Success? && id !in old(db.MovieRecords()) ==>
      r == Failure(Aborted(NotFound)) && db.MovieRecords() == old(db.MovieRecords())
    ensures Gate(c, PatchMoviePermission).Success? && id in old(db.MovieRecords()) ==>
      && r == Success(PatchedMovie(old(db.MovieRecords())[id], body))
      && db.MovieRecords() == old(db.MovieRecords())[id := PatchedMovie(old(db.MovieRecords())[id], body)]
  {
    var gate := Gate(c, PatchMoviePermission);
    if gate.Failure? {
      return Failure(gate.error);
    }
    var edited := db.EditMovie(id, body);
    r := if edited.Success? then Success(edited.value) else Failure(Aborted(edited.error));
  }
}
