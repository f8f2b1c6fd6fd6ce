/**
 * The demo sign-in hook: the signed-in user, the loading flag, and the copy
 * of the user kept in the browser's storage, here a map from storage keys to
 * stored user records.
 */
module Auth {
  import opened Wrappers
  import AdminDashboard

  datatype AuthUser = AuthUser(id: string, email: string, name: string)

  /** The value `session` exposes: the user wrapped in a record. */
  datatype Session = Session(user: AuthUser)

  const StorageKey := "vibestays_admin"
  const AdminEmail := "admin@vibestays.com"
  const AdminPassword := "admin123"
  const AdminUser := AuthUser("1", "admin@vibestays.com", "VibeStays Admin")
  const InvalidCredentials := "Invalid login credentials"

  /** The hook's credential test. */
  predicate Accepts(email: string, password: string) {
    email == AdminEmail && password == AdminPassword
  }

  /** The user a fresh mount finds in `storage`, if any. */
  function Restored(storage: map<string, AuthUser>): (r: Option<AuthUser>)
    ensures r.Some? <==> StorageKey in storage
    ensures r.Some? ==> r.value == storage[StorageKey]
  {
    if StorageKey in storage then Some(storage[StorageKey]) else None
  }

  /** The hook and the dashboard's own login form expect different passwords for the same email. */
  lemma TwoCredentialChecks()
    ensures AdminDashboard.DemoEmail == AdminEmail
    ensures !Accepts(AdminDashboard.DemoEmail, AdminDashboard.DemoPassword)
  {
  }

  /** After a successful sign-in, a reload restores the admin user. */
  lemma SignInSurvivesReload(storage: map<string, AuthUser>)
    ensures Restored(storage[StorageKey := AdminUser]) == Some(AdminUser)
  {
  }

  /** After a sign-out, a reload finds nobody signed in. */
  lemma SignOutSurvivesReload(storage: map<string, AuthUser>)
    ensures Restored(storage - {StorageKey}) == None
  {
  }

  class AuthState {
    var user: Option<AuthUser>
    var loading: bool
    var storage: map<string, AuthUser>

    /** The hook's first render: nobody signed in, still loading, over the browser's `storage`. */
    constructor (storage: map<string, AuthUser>)
      ensures user.None? && loading && this.storage == storage
    {
      user := None;
      loading := true;
      this.storage := storage;
    }

    /** The mount effect: restore a stored user if there is one, then stop loading. */
    method Mount()
      modifies this
      ensures user == (if StorageKey in old(storage) then Some(old(storage)[StorageKey]) else old(user))
      ensures !loading && storage == old(storage)
    {
      if StorageKey in storage {
        user := Some(storage[StorageKey]);
      }
      loading := false;
    }

    /** `signIn`: the admin pair signs in and is stored; anything else is an error that changes nothing. */
    method SignIn(email: string, password: string) returns (error: Option<string>)
      modifies this
      ensures Accepts(email, password) ==> error.None? && user == Some(AdminUser)
      ensures Accepts(email, password) ==> storage == old(storage)[StorageKey := AdminUser]
      ensures !Accepts(email, password) ==> error == Some(InvalidCredentials)
      ensures !Accepts(email, password) ==> user == old(user) && storage == old(storage)
      ensures loading == old(loading)
    {
      if email == AdminEmail && password == AdminPassword {
        user := Some(AdminUser);
        storage := storage[StorageKey := AdminUser];
        error := None;
      } else {
        error := Some(InvalidCredentials);
      }
    }

    /** `signOut`: nobody signed in, and the stored copy removed. */
    method SignOut()
      modifies this
      ensures user.None? && storage == old(storage) - {StorageKey}
      ensures loading == old(loading)
    {
      user := None;
      storage := storage - {StorageKey};
    }

    /** `session`: present exactly when a user is signed in, and holding that user. */
    function CurrentSession(): (s: Option<Session>)
      reads this
      ensures s.Some? <==> user.Some?
      ensures s.Some? ==> s.value.user == user.value
    {
      if user.Some? then Some(Session(user.value)) else None
    }
  }
}
