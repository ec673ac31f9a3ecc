/** src/context/AuthContext.tsx: the signed-in user. The mock `login`
    accepts any non-empty username and password and makes up an id from the
    role and the clock; `Date.now()` is the parameter `now`. */
module AuthContext {
  import opened Wrappers
  import opened Types
  import Text

  /** `username && password`: both strings non-empty. */
  predicate CredentialsAccepted(username: string, password: string)
  {
    username != "" && password != ""
  }

  /** `${role}-${Date.now()}`. */
  function MockUserId(role: UserRole, now: nat): (id: string)
    ensures |RoleName(role)| + 1 < |id|
    ensures id[..|RoleName(role)| + 1] == RoleName(role) + "-"
    ensures id[|RoleName(role)| + 1..] == Text.Decimal(now)
  {
    RoleName(role) + "-" + Text.Decimal(now)
  }

  /** Ids made at different instants, or for different roles, differ: the
      role is the prefix and the instant reads back from the digits. */
  lemma MockUserIdsDistinct(role1: UserRole, now1: nat, role2: UserRole, now2: nat)
    requires role1 != role2 || now1 != now2
    ensures MockUserId(role1, now1) != MockUserId(role2, now2)
  {
    var id1, id2 := MockUserId(role1, now1), MockUserId(role2, now2);
    if role1 != role2 {
      assert id1[0] != id2[0];
    } else {
      Text.DecimalRoundTrip(now1);
      Text.DecimalRoundTrip(now2);
      var k := |RoleName(role1)| + 1;
      assert Text.DigitsValue(id1[k..]) != Text.DigitsValue(id2[k..]);
    }
  }

  /** The provider's state. */
  class AuthState {
    var user: Option<User>

    /** Nobody is signed in at first. */
    constructor ()
      ensures user == None
    {
      user := None;
    }

    /** `isAuthenticated`: `!!user`, signed in exactly when a user is held. */
    predicate IsAuthenticated()
      reads this
      ensures IsAuthenticated() <==> user != None
    {
      user.Some?
    }

    /** `login(...)`. With both credentials it signs in a user with exactly
        the given name, role and location and answers true; otherwise it
        answers false and the current user stays. */
    method Login(username: string, password: string, role: UserRole, location: UserLocation, now: nat)
      returns (success: bool)
      modifies this
      ensures success <==> CredentialsAccepted(username, password)
      ensures success ==> user == Some(User(MockUserId(role, now), username, role, location))
      ensures !success ==> user == old(user)
      ensures success ==> IsAuthenticated()
    {
      if username != "" && password != "" {
        user := Some(User(MockUserId(role, now), username, role, location));
        return true;
      }
      return false;
    }

    /** `logout()`: from any state, nobody is signed in afterwards. */
    method Logout()
      modifies this
      ensures user == None
      ensures !IsAuthenticated()
    {
      user := None;
    }
  }
}
