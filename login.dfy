/** src/pages/Login.tsx: the sign-in form. `handleSubmit` checks the form in
    a fixed order, stopping at the first problem, and only then calls the
    provider's `login`; what that call gives back (an answer, or a thrown
    error) is a parameter here. Toasts are left out; navigation is
    returned. */
module Login {
  import opened Wrappers
  import opened Types
  import AuthContext
  import RoleProtectedRoute

  /** The form's checks, in the order the page makes them: a login type,
      then both credentials, then a verified location. */
  function Validate(role: Option<UserRole>, username: string, password: string,
                    location: Option<UserLocation>): (e: Option<string>)
    ensures role.None? ==> e == Some("Please select a login type")
    ensures role.Some? && (username == "" || password == "") ==> e == Some("Please enter username and password")
    ensures role.Some? && username != "" && password != "" && location.None? ==>
      e == Some("Please enter and verify your location")
    ensures e.None? <==> role.Some? && username != "" && password != "" && location.Some?
  {
    if role.None? then Some("Please select a login type")
    else if username == "" || password == "" then Some("Please enter username and password")
    else if location.None? then Some("Please enter and verify your location")
    else None
  }

  /** A form that passes the checks carries credentials the provider's
      `login` accepts, so with the real provider the reply is always true
      and 'Invalid credentials' is never shown. */
  lemma ValidatedFormIsAccepted(role: Option<UserRole>, username: string, password: string,
                                location: Option<UserLocation>)
    requires Validate(role, username, password, location).None?
    ensures AuthContext.CredentialsAccepted(username, password)
  {
  }

  /** What `await login(...)` gave: a boolean, or an exception. */
  datatype LoginReply = Returned(success: bool) | Threw

  /** The form's state. */
  class LoginForm {
    var selectedRole: Option<UserRole>
    var username: string
    var password: string
    var location: Option<UserLocation>
    var isLoading: bool
    var error: string

    constructor ()
      ensures selectedRole == None && username == "" && password == "" && location == None
      ensures !isLoading && error == ""
    {
      selectedRole, username, password, location := None, "", "", None;
      isLoading, error := false, "";
    }

    /** `handleSubmit`. The error is cleared first. A failed check sets its
        message, calls nothing and leaves `isLoading` alone. Otherwise
        `login` is called; `reply` is what it gave. A true answer navigates
        to the selected role's dashboard with no error, a false one shows
        'Invalid credentials', a throw shows 'Login failed. Please try
        again.'; in every case `isLoading` ends false. */
    method HandleSubmit(reply: LoginReply) returns (loginCalled: bool, navigateTo: Option<string>)
      modifies this`isLoading, this`error
      ensures loginCalled <==> Validate(selectedRole, username, password, location).None?
      ensures !loginCalled ==> error == Validate(selectedRole, username, password, location).value
      ensures !loginCalled ==> isLoading == old(isLoading) && navigateTo == None
      ensures loginCalled ==> !isLoading
      ensures loginCalled && reply == Returned(true) ==>
        navigateTo == Some(RoleProtectedRoute.DashboardPath(selectedRole.value)) && error == ""
      ensures loginCalled && reply == Returned(false) ==> navigateTo == None && error == "Invalid credentials"
      ensures loginCalled && reply == Threw ==> navigateTo == None && error == "Login failed. Please try again."
    {
      error := "";
      navigateTo := None;
      loginCalled := false;
      if selectedRole.None? {
        error := "Please select a login type";
        return;
      }
      if username == "" || password == "" {
        error := "Please enter username and password";
        return;
      }
      if location.None? {
        error := "Please enter and verify your location";
        return;
      }
      isLoading := true;
      loginCalled := true;
      match reply {
        case Returned(success) =>
          if success {
            navigateTo := Some(if selectedRole.value == Industry then "/industry/dashboard" else "/user/dashboard");
          } else {
            error := "Invalid credentials";
          }
        case Threw =>
          error := "Login failed. Please try again.";
      }
      isLoading := false;
    }
  }
}
