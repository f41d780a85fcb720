/** The admin authentication slice of the store: four reducers over one state record. */
module AuthSlice {
  import opened Wrappers

  /** The signed-in admin as the login flow hands it over. */
  datatype AdminProfile = AdminProfile(uid: string, email: string, name: string, role: string)

  /** The slice's actions and their payloads. */
  datatype Action =
    | AdminLoggedIn(accessToken: Option<string>, admin: Option<AdminProfile>)
    | AdminLoggedOut
    | AuthStart
    | AuthError(payload: Option<string>)

  /** The slice state; `None` stands for both `undefined` and `null`. */
  class AuthState {
    var accessToken: Option<string>
    var admin: Option<AdminProfile>
    var loading: bool
    var error: Option<string>

    /** `initialState`: signed out, idle, no error. */
    constructor ()
      ensures accessToken.None? && admin.None? && !loading && error.None?
    {
      accessToken := None;
      admin := None;
      loading := false;
      error := None;
    }

    /** `adminLoggedIn`: stores the payload's token and admin, idle, no error. */
    method LogIn(token: Option<string>, profile: Option<AdminProfile>)
      modifies this
      ensures accessToken == token && admin == profile && !loading && error.None?
    {
      accessToken := token;
      admin := profile;
      loading := false;
      error := None;
    }

    /**
     * `adminLoggedOut`: signed out, idle, no error, whatever the state was
     * before, so a second logout changes nothing.
     */
    method LogOut()
      modifies this
      ensures accessToken.None? && admin.None? && !loading && error.None?
    {
      accessToken := None;
      admin := None;
      loading := false;
      error := None;
    }

    /** `authStart`: loading, no error; the session is kept. */
    method Start()
      modifies this
      ensures loading && error.None?
      ensures accessToken == old(accessToken) && admin == old(admin)
    {
      loading := true;
      error := None;
    }

    /** `authError`: idle with the payload as the error; the session is kept. */
    method Fail(payload: Option<string>)
      modifies this
      ensures !loading && error == payload
      ensures accessToken == old(accessToken) && admin == old(admin)
    {
      loading := false;
      error := payload;
    }

    /** The slice's reducer: routes an action to its case. */
    method Dispatch(action: Action)
      modifies this
      ensures loading <==> action.AuthStart?
      ensures action.AdminLoggedIn? ==> accessToken == action.accessToken && admin == action.admin && error.None?
      ensures action.AdminLoggedOut? ==> accessToken.None? && admin.None? && error.None?
      ensures action.AuthStart? ==> accessToken == old(accessToken) && admin == old(admin) && error.None?
      ensures action.AuthError? ==> accessToken == old(accessToken) && admin == old(admin) && error == action.payload
    {
      match action {
        case AdminLoggedIn(token, profile) => LogIn(token, profile);
        case AdminLoggedOut => LogOut();
        case AuthStart => Start();
        case AuthError(payload) => Fail(payload);
      }
    }
  }
}
