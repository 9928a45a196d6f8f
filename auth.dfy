/** The authentication container (src/stores/authStore.ts): a session made of `user` and
    `isAuthenticated`, a loading flag, and one hard-coded administrator credential. */
module Auth {
  import opened Types

  const AdminEmail := "admin@lumiere-botanical.com"
  const AdminPassword := "admin123"

  /** `MOCK_ADMIN`. Its timestamps are taken when the module is loaded, so they are a
      parameter here; the last name is spelled as it is in the source file. */
  function MockAdmin(loadedAt: int): (u: User)
    ensures u.role == Admin && u.email == AdminEmail && u.id == "admin-001"
    ensures u.createdAt == loadedAt && u.updatedAt == loadedAt
  {
    User("admin-001", AdminEmail, "Admin", "Lumi\U{221A}\U{00AE}re", Admin, loadedAt, loadedAt)
  }

  /** The only credential `login` accepts. */
  predicate CredentialsValid(email: string, password: string) {
    email == AdminEmail && password == AdminPassword
  }

  /** A spread merge `{ ...user, ...updates }` takes each field from the patch when the patch
      carries it and from the user otherwise, so merging the same patch twice changes nothing,
      and the empty patch changes nothing. */
  lemma SpreadTakesPatchFields(user: User, u: UserPatch)
    ensures var m := u.Spread(user);
      && (m.id == if u.id.Some? then u.id.value else user.id)
      && (m.email == if u.email.Some? then u.email.value else user.email)
      && (m.firstName == if u.firstName.Some? then u.firstName.value else user.firstName)
      && (m.lastName == if u.lastName.Some? then u.lastName.value else user.lastName)
      && (m.role == if u.role.Some? then u.role.value else user.role)
      && (m.createdAt == if u.createdAt.Some? then u.createdAt.value else user.createdAt)
      && (m.updatedAt == if u.updatedAt.Some? then u.updatedAt.value else user.updatedAt)
    ensures u.Spread(u.Spread(user)) == u.Spread(user)
    ensures UserPatch(None, None, None, None, None, None, None).Spread(user) == user
  {
  }

  /** The zustand store; persistence of `user` and `isAuthenticated` is not modelled. */
  class AuthStore {
    /** The `MOCK_ADMIN` record of this page load. */
    const mockAdmin: User
    var user: Option<User>
    var isAuthenticated: bool
    var isLoading: bool

    /** `isAuthenticated` is true exactly when a user is present. */
    ghost predicate Valid()
      reads this
    {
      isAuthenticated <==> user.Some?
    }

    /** The initial state: nobody signed in, nothing loading. */
    constructor (loadedAt: int)
      ensures Valid()
      ensures user == None && !isAuthenticated && !isLoading
      ensures mockAdmin == MockAdmin(loadedAt)
    {
      mockAdmin := MockAdmin(loadedAt);
      user := None;
      isAuthenticated := false;
      isLoading := false;
    }

    /** The part of `login` before its simulated delay: the session is untouched and the
        store shows that a login is in progress. */
    method BeginLogin()
      modifies this
      ensures isLoading
      ensures user == old(user) && isAuthenticated == old(isAuthenticated)
    {
      isLoading := true;
    }

    /** The part of `login` after its simulated delay. On the admin credential the admin
        session starts; on any other credential the session is left as it was, so a failed
        attempt does not sign out a user who is already signed in. */
    method FinishLogin(email: string, password: string) returns (ok: bool)
      modifies this
      ensures ok == CredentialsValid(email, password)
      ensures ok ==> user == Some(mockAdmin) && isAuthenticated
      ensures !ok ==> user == old(user) && isAuthenticated == old(isAuthenticated)
      ensures !isLoading
    {
      if email == AdminEmail && password == AdminPassword {
        user := Some(mockAdmin);
        isAuthenticated := true;
        isLoading := false;
        return true;
      }
      isLoading := false;
      return false;
    }

    /** `login`, with the delay between its two halves left out. */
    method Login(email: string, password: string) returns (ok: bool)
      requires Valid()
      modifies this
      ensures Valid()
      ensures ok == CredentialsValid(email, password)
      ensures ok ==> user == Some(mockAdmin) && isAuthenticated
      ensures !ok ==> user == old(user) && isAuthenticated == old(isAuthenticated)
      ensures !isLoading
    {
      BeginLogin();
      ok := FinishLogin(email, password);
    }

    /** `logout`: the session ends whatever it was; the loading flag is not touched. */
    method Logout()
      modifies this
      ensures Valid()
      ensures user == None && !isAuthenticated && isLoading == old(isLoading)
    {
      user := None;
      isAuthenticated := false;
    }

    /** `setUser`: `isAuthenticated` becomes `!!user`. */
    method SetUser(u: Option<User>)
      modifies this
      ensures Valid()
      ensures user == u && isAuthenticated == u.Some? && isLoading == old(isLoading)
    {
      user := u;
      isAuthenticated := u.Some?;
    }

    method SetLoading(loading: bool)
      requires Valid()
      modifies this
      ensures Valid()
      ensures isLoading == loading && user == old(user) && isAuthenticated == old(isAuthenticated)
    {
      isLoading := loading;
    }

    /** `updateUser`: the patch is merged into the user when there is one; with nobody signed
        in the user stays absent. */
    method UpdateUser(updates: UserPatch)
      requires Valid()
      modifies this
      ensures Valid()
      ensures old(user).None? ==> user == None
      ensures old(user).Some? ==> user == Some(updates.Spread(old(user).value))
      ensures isAuthenticated == old(isAuthenticated) && isLoading == old(isLoading)
    {
      user := if user.Some? then Some(updates.Spread(user.value)) else None;
    }
  }
}
