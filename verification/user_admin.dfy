/**
 * The user endpoints of the admin server: `user_list`, `user_create`,
 * `user_delete`, and the field lookup (`Queryable`) of the list view.
 *
 * The authentication driver and the query helpers are collaborators whose code
 * lies outside this model; they are passed in as values and functions.
 */
module UserAdmin {
  import opened Wrappers
  import HttpResponse

  /** `MqttUser`: a stored user, password included. */
  datatype MqttUser = MqttUser(username: string, password: string, isSuperuser: bool)

  /**
   * `UserListRow`: the list view of a user. It has no password field, so no
   * value of this type can carry one.
   */
  datatype UserListRow = UserListRow(username: string, isSuperuser: bool)
  {
    /** `Queryable::get_field_str`: only `username` is a known field. */
    function GetFieldStr(field: string): (r: Option<string>)
      ensures r.Some? <==> field == "username"
      ensures r.Some? ==> r.value == username
    {
      if field == "username" then Some(username) else None
    }
  }

  /** `PageReplyData<T>`: one page of rows and the size of the filtered set. */
  datatype PageReplyData<T> = PageReplyData(data: seq<T>, totalCount: nat)

  datatype CreateUserReq = CreateUserReq(username: string, password: string, isSuperuser: bool)
  datatype DeleteUserReq = DeleteUserReq(username: string)

  /**
   * The `AuthDriver` as far as these handlers see it: the outcome of
   * `read_all_user` (its users in iteration order), and `save_user` and
   * `delete_user` as functions from their argument to their outcome. Errors are
   * given as their `to_string()` text.
   */
  datatype AuthDriver = AuthDriver(
    readAllUser: Result<seq<MqttUser>, string>,
    saveUser: MqttUser -> Result<(), string>,
    deleteUser: string -> Result<(), string>)

  /**
   * `apply_filters`, `apply_sorting` and `apply_pagination` over query options of
   * type `O` (built by `build_query_params`). Their semantics are not modelled.
   */
  datatype QueryPipeline<!O, !T> = QueryPipeline(
    filter: (seq<T>, O) -> seq<T>,
    sort: (seq<T>, O) -> seq<T>,
    paginate: (seq<T>, O) -> (seq<T>, nat))

  /** The list view of one user. */
  function ToRow(u: MqttUser): UserListRow
  {
    UserListRow(u.username, u.isSuperuser)
  }

  /** The rows the projection loop of `user_list` pushes, in order. */
  function Rows(users: seq<MqttUser>): seq<UserListRow>
    decreases |users|
  {
    if users == [] then [] else Rows(users[..|users| - 1]) + [ToRow(users[|users| - 1])]
  }

  /** One row per user, in the same order, with username and superuser flag copied. */
  lemma {:induction false} RowsProjects(users: seq<MqttUser>)
    ensures |Rows(users)| == |users|
    ensures forall i :: 0 <= i < |users| ==>
      Rows(users)[i].username == users[i].username && Rows(users)[i].isSuperuser == users[i].isSuperuser
  {
    if users != [] {
      RowsProjects(users[..|users| - 1]);
    }
  }

  /**
   * The rows do not depend on the passwords: two user lists that agree on every
   * username and superuser flag give the same rows.
   */
  lemma {:induction false} RowsIgnorePasswords(a: seq<MqttUser>, b: seq<MqttUser>)
    requires |a| == |b|
    requires forall i :: 0 <= i < |a| ==> a[i].username == b[i].username && a[i].isSuperuser == b[i].isSuperuser
    ensures Rows(a) == Rows(b)
  {
    if a != [] {
      RowsIgnorePasswords(a[..|a| - 1], b[..|b| - 1]);
    }
  }

  /**
   * `user_list`. A failed `read_all_user` gives the error envelope and nothing
   * else; otherwise the users are projected row by row and the rows go through
   * the query pipeline.
   */
  method UserList<O>(driver: AuthDriver, options: O, q: QueryPipeline<O, UserListRow>)
    returns (reply: Result<HttpResponse.AdminServerResponse<PageReplyData<UserListRow>>, HttpResponse.AdminServerResponse<string>>)
    ensures driver.readAllUser.Err? ==>
      reply.Err? && reply.error.Code() == HttpResponse.ErrorCode && reply.error.Data() == driver.readAllUser.error
    ensures driver.readAllUser.Ok? ==>
      var page := q.paginate(q.sort(q.filter(Rows(driver.readAllUser.value), options), options), options);
      reply.Ok? && reply.value.IsOk() && reply.value.Data().data == page.0 && reply.value.Data().totalCount == page.1
  {
    if driver.readAllUser.Err? {
      return Err(HttpResponse.Err(driver.readAllUser.error));
    }
    var data := driver.readAllUser.value;
    var users: seq<UserListRow> := [];
    for i := 0 to |data|
      invariant users == Rows(data[..i])
    {
      assert data[..i + 1][..i] == data[..i];
      users := users + [UserListRow(data[i].username, data[i].isSuperuser)];
    }
    assert data[..|data|] == data;
    var filtered := q.filter(users, options);
    var sorted := q.sort(filtered, options);
    var pagination := q.paginate(sorted, options);
    reply := Ok(HttpResponse.Ok(PageReplyData(pagination.0, pagination.1)));
  }

  /** The user `user_create` builds from the request. */
  function UserOf(req: CreateUserReq): MqttUser
  {
    MqttUser(req.username, req.password, req.isSuperuser)
  }

  /** The match both mutation handlers make on the driver's outcome. */
  function FromDriver(outcome: Result<(), string>): (r: HttpResponse.AdminServerResponse<string>)
    ensures r.IsOk() <==> outcome.Ok?
    ensures outcome.Ok? ==> r.Code() == HttpResponse.SuccessCode && r.Data() == "success"
    ensures outcome.Err? ==> r.Code() == HttpResponse.ErrorCode && r.Data() == outcome.error
    ensures r.Code() in {HttpResponse.SuccessCode, HttpResponse.ErrorCode}
  {
    match outcome
    case Ok(_) => HttpResponse.Success()
    case Err(e) => HttpResponse.Err(e)
  }

  /**
   * `user_create`: saves the user whose three fields are the request's, and
   * reports `success` or the driver's error text.
   */
  function UserCreate(driver: AuthDriver, req: CreateUserReq): (r: HttpResponse.AdminServerResponse<string>)
    ensures var saved := MqttUser(req.username, req.password, req.isSuperuser);
      && (driver.saveUser(saved).Ok? ==> r == HttpResponse.Success())
      && (driver.saveUser(saved).Err? ==> r == HttpResponse.Err(driver.saveUser(saved).error))
    ensures r.Code() in {HttpResponse.SuccessCode, HttpResponse.ErrorCode}
  {
    FromDriver(driver.saveUser(UserOf(req)))
  }

  /**
   * `user_delete`: deletes the request's username, and reports `success` or the
   * driver's error text.
   */
  function UserDelete(driver: AuthDriver, req: DeleteUserReq): (r: HttpResponse.AdminServerResponse<string>)
    ensures driver.deleteUser(req.username).Ok? ==> r == HttpResponse.Success()
    ensures driver.deleteUser(req.username).Err? ==> r == HttpResponse.Err(driver.deleteUser(req.username).error)
    ensures r.Code() in {HttpResponse.SuccessCode, HttpResponse.ErrorCode}
  {
    FromDriver(driver.deleteUser(req.username))
  }
}
