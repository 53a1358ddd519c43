/**
 * The user-list slice: `fetchUsers` returns the `$values` field of the
 * parsed body without checking it, and the reducers follow the thunk's
 * lifecycle. Unlike the product slice, a failure keeps the list shown.
 */
module UserSlice {
  import opened Common
  import opened AuthSlice

  /**
   * What the request can yield: a parsed body, whose `$values` field may be
   * missing, or a thrown error (network failure, a body that is not JSON, or
   * a `null` body).
   */
  datatype UsersResponse = UsersBody(values: Option<seq<User>>) | UsersFailed(message: Option<string>)

  /** The payload is `data.$values` exactly: missing stays missing (`undefined`). */
  datatype UsersOutcome = UsersFulfilled(payload: Option<seq<User>>) | UsersRejected(message: Option<string>)

  function FetchUsers(response: UsersResponse): (r: UsersOutcome)
    ensures r.UsersFulfilled? <==> response.UsersBody?
    ensures response.UsersBody? ==> r.payload == response.values
    ensures response.UsersFailed? ==> r.message == response.message
  {
    match response
    case UsersBody(values) => UsersFulfilled(values)
    case UsersFailed(message) => UsersRejected(message)
  }

  /** `users` is `None` when a fulfilled payload was `undefined`. */
  datatype UserState = UserState(users: Option<seq<User>>, loading: bool, error: Option<string>)

  const Initial: UserState := UserState(Some([]), false, None)

  lemma InitialIsEmpty()
    ensures Initial.users == Some([]) && !Initial.loading && Initial.error.None?
  {
  }

  function Pending(s: UserState): (r: UserState)
    ensures r.loading && r.error.None? && r.users == s.users
  {
    s.(loading := true, error := None)
  }

  /** Success leaves `error` as it was. */
  function Fulfilled(s: UserState, payload: Option<seq<User>>): (r: UserState)
    ensures r.users == payload && !r.loading && r.error == s.error
  {
    s.(loading := false, users := payload)
  }

  function Rejected(s: UserState, message: Option<string>): (r: UserState)
    ensures r.users == s.users && !r.loading && r.error == message
  {
    s.(loading := false, error := message)
  }

  function Settle(s: UserState, outcome: UsersOutcome): UserState {
    match outcome
    case UsersFulfilled(payload) => Fulfilled(s, payload)
    case UsersRejected(message) => Rejected(s, message)
  }

  /**
   * One whole fetch: a failure keeps the previous list beside the error; a
   * body replaces the list with its `$values`, and a body lacking `$values`
   * leaves no list at all.
   */
  lemma FetchLifecycle(s: UserState, response: UsersResponse)
    ensures var r := Settle(Pending(s), FetchUsers(response));
      && !r.loading
      && (response.UsersFailed? ==> r.users == s.users && r.error == response.message)
      && (response.UsersBody? ==> r.users == response.values && r.error.None?)
      && (response == UsersBody(None) ==> r.users.None?)
  {
  }
}
