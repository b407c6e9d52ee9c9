/** The client's session store: the access token, the signed-in user, the
    request status and the last error. */
module AuthSlice {
  import opened Common
  import opened ClientTypes

  /** The signed-in user as `/api/profile/me` returns it. */
  datatype SessionUser = SessionUser(id: Id, email: string, name: string, role: string)

  datatype AuthState = AuthState(
    token: Option<string>, user: Option<SessionUser>, status: RequestStatus, error: Option<string>)

  class Store {
    var token: Option<string>
    var user: Option<SessionUser>
    var status: RequestStatus
    var error: Option<string>

    function State(): AuthState
      reads this
    {
      AuthState(token, user, status, error)
    }

    constructor ()
      ensures State() == AuthState(None, None, Idle, None)
    {
      token, user, status, error := None, None, Idle, None;
    }

    /** logout: token and user go; status and error stay. */
    method Logout()
      modifies this
      ensures State() == old(State()).(token := None, user := None)
    {
      token, user := None, None;
    }

    /** The pending case of login and of fetchUser. */
    method Pending()
      modifies this
      ensures State() == old(State()).(status := Loading)
    {
      status := Loading;
    }

    /** login.fulfilled: the token of the response, absent when the response
        has none. An earlier error is not cleared. */
    method LoginFulfilled(received: Option<string>)
      modifies this
      ensures State() == old(State()).(status := Succeeded, token := received)
    {
      status, token := Succeeded, received;
    }

    /** login.rejected: the user, if any, stays signed in. */
    method LoginRejected(message: string)
      modifies this
      ensures State() == old(State()).(status := Failed, error := Some(message))
    {
      status, error := Failed, Some(message);
    }

    /** register.fulfilled: only the status changes; registering signs
        nobody in. */
    method RegisterFulfilled()
      modifies this
      ensures State() == old(State()).(status := Succeeded)
    {
      status := Succeeded;
    }

    method FetchUserFulfilled(received: SessionUser)
      modifies this
      ensures State() == old(State()).(status := Succeeded, user := Some(received))
    {
      status, user := Succeeded, Some(received);
    }

    /** fetchUser.rejected: the user is dropped but the token is kept. */
    method FetchUserRejected(message: string)
      modifies this
      ensures State() == old(State()).(status := Failed, user := None, error := Some(message))
    {
      status, user, error := Failed, None, Some(message);
    }
  }
}
