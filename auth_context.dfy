/**
 * The authentication context: the admin test, the mapping of a stored
 * profile onto the session user, and the session state that sign-out,
 * refresh and the auth listener update. Profile reads are given as a
 * `Lookup` value instead of a Firestore call.
 */
module AuthContext {
  import opened Wrappers
  import opened Text

  /** The fields of a Firebase Auth user the context reads. */
  datatype FirebaseUser = FirebaseUser(
    uid: string,
    email: Option<string>,
    displayName: Option<string>,
    photoURL: Option<string>)

  /** A stored `usuarios_registrados` document; any field may be missing. */
  datatype StoredProfile = StoredProfile(
    displayName: Option<string>,
    photoURL: Option<string>,
    rol: Option<string>,
    activo: Option<bool>,
    fechaCreacion: Option<string>,
    proveedor: Option<string>)

  /** What the profile read produced: the document, no document, or an exception. */
  datatype Lookup = Found(profile: StoredProfile) | Missing | Failed

  /** The session user (`User` of the context). */
  datatype User = User(
    uid: string,
    email: Option<string>,
    displayName: Option<string>,
    photoURL: Option<string>,
    rol: string,
    activo: bool,
    fechaCreacion: Option<string>,
    proveedor: Option<string>)

  /** `user?.rol === 'gerente'`. */
  predicate IsAdmin(user: Option<User>) {
    user.Some? && user.value.rol == "gerente"
  }

  /** `getUserData`: the session user built from the auth user and the profile read. */
  function GetUserData(fb: FirebaseUser, lookup: Lookup): (r: Option<User>)
    ensures lookup.Failed? <==> r.None?
    ensures r.Some? ==> r.value.uid == fb.uid && r.value.email == fb.email && r.value.rol != ""
    ensures lookup.Missing? ==> r == Some(User(fb.uid, fb.email, fb.displayName, fb.photoURL, "usuario", true, None, None))
    ensures lookup.Found? ==>
      var p := lookup.profile;
      && r.value.displayName == (if Truthy(fb.displayName) then fb.displayName else p.displayName)
      && r.value.photoURL == (if Truthy(fb.photoURL) then fb.photoURL else p.photoURL)
      && (r.value.activo <==> p.activo != Some(false))
      && (Truthy(p.rol) ==> r.value.rol == p.rol.value)
      && (!Truthy(p.rol) ==> r.value.rol == "usuario")
      && r.value.fechaCreacion == p.fechaCreacion && r.value.proveedor == p.proveedor
  {
    match lookup
    case Found(p) =>
      Some(User(fb.uid, fb.email, OrElse(fb.displayName, p.displayName), OrElse(fb.photoURL, p.photoURL),
        OrDefault(p.rol, "usuario"), if p.activo.Some? then p.activo.value else true, p.fechaCreacion, p.proveedor))
    case Missing =>
      Some(User(fb.uid, fb.email, fb.displayName, fb.photoURL, "usuario", true, None, None))
    case Failed =>
      None
  }

  /**
   * A signed-in user is an admin exactly when the stored profile says
   * `'gerente'`: a missing profile, a failed read or any other role
   * (`'administrador'` included) is not.
   */
  lemma AdminIffStoredGerente(fb: FirebaseUser, lookup: Lookup)
    ensures IsAdmin(GetUserData(fb, lookup)) <==> lookup.Found? && lookup.profile.rol == Some("gerente")
  {
    if lookup.Found? && lookup.profile.rol == Some("gerente") {
      assert Truthy(lookup.profile.rol);
    }
  }

  /** The session state of the provider. */
  class AuthState {
    var user: Option<User>
    var firebaseUser: Option<FirebaseUser>
    var loading: bool

    /** `useState(null)`, `useState(null)`, `useState(true)`. */
    constructor ()
      ensures user.None? && firebaseUser.None? && loading
    {
      user := None;
      firebaseUser := None;
      loading := true;
    }

    /** `isAdmin` as the context exposes it. */
    predicate IsAdminNow()
      reads this
    {
      IsAdmin(user)
    }

    /** `{!loading && children}`: the pages render only once loading has finished. */
    predicate RendersChildren()
      reads this
    {
      !loading
    }

    /**
     * `handleSignOut`. The auth service's `signOut` reports failure in its
     * result rather than throwing, so both users are cleared whatever
     * `serviceError` says.
     */
    method SignOut(serviceError: Option<string>)
      modifies this
      ensures user.None? && firebaseUser.None?
      ensures loading == old(loading)
      ensures !IsAdminNow()
    {
      user := None;
      firebaseUser := None;
    }

    /** `refreshUser`: reload the profile of the current auth user, keeping the old user on failure. */
    method RefreshUser(lookup: Lookup)
      modifies this
      ensures firebaseUser == old(firebaseUser) && loading == old(loading)
      ensures old(firebaseUser).Some? && GetUserData(old(firebaseUser).value, lookup).Some? ==>
        user == GetUserData(old(firebaseUser).value, lookup)
      ensures old(firebaseUser).None? || lookup.Failed? ==> user == old(user)
    {
      if firebaseUser.Some? {
        var userData := GetUserData(firebaseUser.value, lookup);
        if userData.Some? {
          user := userData;
        }
      }
    }

    /** The `onAuthStateChanged` callback for one auth event. */
    method OnAuthStateChanged(fbUser: Option<FirebaseUser>, lookup: Lookup)
      modifies this
      ensures firebaseUser == fbUser
      ensures fbUser.None? ==> user.None?
      ensures fbUser.Some? ==> user == GetUserData(fbUser.value, lookup)
      ensures !loading && RendersChildren()
    {
      firebaseUser := fbUser;
      if fbUser.Some? {
        user := GetUserData(fbUser.value, lookup);
      } else {
        user := None;
      }
      loading := false;
    }
  }
}
