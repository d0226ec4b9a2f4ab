/**
 * The authentication service: the error-code switches of sign-in, sign-up
 * and Google sign-in, the `AuthResult` each returns, the profile documents
 * it writes, and the sign-out result. The Firebase calls are given as their
 * outcomes.
 */
module AuthService {
  import opened Wrappers

  /** A Firebase Auth error: its `code` and `message`. */
  datatype AuthError = AuthError(code: string, message: string)

  /** The signed-in Firebase user, as far as the service reads it. */
  datatype AuthUser = AuthUser(uid: string, email: Option<string>, displayName: Option<string>, photoURL: Option<string>)

  /** `AuthResult`: the user on success, the message on failure. */
  datatype AuthResult = AuthResult(user: Option<AuthUser>, error: Option<string>)

  /** One `case` of a `switch (error.code)`. */
  datatype Case = Case(code: string, message: string)

  const SignInCases: seq<Case> := [
    Case("auth/invalid-email", "Correo electrónico inválido"),
    Case("auth/user-disabled", "Usuario deshabilitado"),
    Case("auth/user-not-found", "Usuario no encontrado"),
    Case("auth/wrong-password", "Contraseña incorrecta"),
    Case("auth/invalid-credential", "Credenciales inválidas")
  ]

  const SignUpCases: seq<Case> := [
    Case("auth/email-already-in-use", "El correo ya está registrado"),
    Case("auth/invalid-email", "Correo electrónico inválido"),
    Case("auth/operation-not-allowed", "Operación no permitida"),
    Case("auth/weak-password", "La contraseña debe tener al menos 6 caracteres")
  ]

  const GoogleCases: seq<Case> := [
    Case("auth/popup-closed-by-user", "Ventana de inicio de sesión cerrada"),
    Case("auth/popup-blocked", "Ventana emergente bloqueada. Permite ventanas emergentes para este sitio"),
    Case("auth/cancelled-popup-request", "Solicitud cancelada"),
    Case("auth/account-exists-with-different-credential", "Ya existe una cuenta con este correo usando otro método")
  ]

  predicate HasCode(cases: seq<Case>, code: string) {
    exists i :: 0 <= i < |cases| && cases[i].code == code
  }

  /**
   * The `switch`: the message of the first case whose code matches, and
   * `error.message` in the `default` branch.
   */
  function ErrorMessage(cases: seq<Case>, e: AuthError): (r: string)
    ensures !HasCode(cases, e.code) ==> r == e.message
    ensures HasCode(cases, e.code) ==>
      exists i :: 0 <= i < |cases| && cases[i].code == e.code && r == cases[i].message
        && forall j :: 0 <= j < i ==> cases[j].code != e.code
    decreases |cases|
  {
    if cases == [] then e.message
    else if cases[0].code == e.code then cases[0].message
    else
      var r := ErrorMessage(cases[1..], e);
      assert HasCode(cases, e.code) ==> HasCode(cases[1..], e.code) by {
        if HasCode(cases, e.code) {
          var i :| 0 <= i < |cases| && cases[i].code == e.code;
          assert cases[1..][i - 1].code == e.code;
        }
      }
      assert HasCode(cases[1..], e.code) ==> HasCode(cases, e.code) by {
        if HasCode(cases[1..], e.code) {
          var i :| 0 <= i < |cases[1..]| && cases[1..][i].code == e.code;
          assert cases[i + 1].code == e.code;
        }
      }
      if HasCode(cases, e.code) then
        var i :| 0 <= i < |cases[1..]| && cases[1..][i].code == e.code && r == cases[1..][i].message
          && forall j :: 0 <= j < i ==> cases[1..][j].code != e.code;
        assert cases[i + 1].code == e.code && forall j :: 0 <= j < i + 1 ==> cases[j].code != e.code by {
          forall j | 0 <= j < i + 1 ensures cases[j].code != e.code {
            if j > 0 { assert cases[j] == cases[1..][j - 1]; }
          }
        }
        r
      else r
  }

  predicate CodesDistinct(cases: seq<Case>) {
    forall i, j :: 0 <= i < j < |cases| ==> cases[i].code != cases[j].code
  }

  /** The three tables list each code once, so every listed code gets exactly its own message. */
  lemma TablesHaveDistinctCodes()
    ensures CodesDistinct(SignInCases) && CodesDistinct(SignUpCases) && CodesDistinct(GoogleCases)
  {
    forall i, j | 0 <= i < j < |SignInCases| ensures SignInCases[i].code != SignInCases[j].code {
      assert SignInCases[i].code[5] != SignInCases[j].code[5] || SignInCases[i].code[10] != SignInCases[j].code[10]
        || SignInCases[i].code[13] != SignInCases[j].code[13];
    }
    forall i, j | 0 <= i < j < |SignUpCases| ensures SignUpCases[i].code != SignUpCases[j].code {
      assert SignUpCases[i].code[5] != SignUpCases[j].code[5];
    }
    forall i, j | 0 <= i < j < |GoogleCases| ensures GoogleCases[i].code != GoogleCases[j].code {
      assert GoogleCases[i].code[5] != GoogleCases[j].code[5] || GoogleCases[i].code[11] != GoogleCases[j].code[11];
    }
  }

  /** In a table that lists each code once, a listed code gets exactly its own message. */
  lemma ListedCodeMessage(cases: seq<Case>, e: AuthError, k: int)
    requires CodesDistinct(cases)
    requires 0 <= k < |cases| && cases[k].code == e.code
    ensures ErrorMessage(cases, e) == cases[k].message
  {
    assert HasCode(cases, e.code);
  }

  /** Every listed sign-in code yields its fixed message; any other code yields `error.message`. */
  lemma SignInMessages(e: AuthError)
    ensures forall k :: 0 <= k < |SignInCases| && SignInCases[k].code == e.code ==>
      SignIn(Err(e)).error == Some(SignInCases[k].message)
    ensures !HasCode(SignInCases, e.code) ==> SignIn(Err(e)).error == Some(e.message)
  {
    TablesHaveDistinctCodes();
    forall k | 0 <= k < |SignInCases| && SignInCases[k].code == e.code
      ensures SignIn(Err(e)).error == Some(SignInCases[k].message)
    {
      ListedCodeMessage(SignInCases, e, k);
    }
  }

  /** Every listed sign-up code yields its fixed message. */
  lemma SignUpMessages(e: AuthError, named: Option<AuthError>, stored: Option<AuthError>, displayName: string)
    ensures forall k :: 0 <= k < |SignUpCases| && SignUpCases[k].code == e.code ==>
      SignUp(Err(e), named, stored, displayName).0.error == Some(SignUpCases[k].message)
  {
    TablesHaveDistinctCodes();
    forall k | 0 <= k < |SignUpCases| && SignUpCases[k].code == e.code
      ensures SignUp(Err(e), named, stored, displayName).0.error == Some(SignUpCases[k].message)
    {
      ListedCodeMessage(SignUpCases, e, k);
    }
  }

  /** `signIn`: the credential's user, or the mapped message. */
  function SignIn(outcome: Result<AuthUser, AuthError>): (r: AuthResult)
    ensures r.user.Some? != r.error.Some?
    ensures outcome.Ok? ==> r.user == Some(outcome.value)
    ensures outcome.Err? ==> r.error == Some(ErrorMessage(SignInCases, outcome.error))
  {
    match outcome
    case Ok(u) => AuthResult(Some(u), None)
    case Err(e) => AuthResult(None, Some(ErrorMessage(SignInCases, e)))
  }

  /** The profile document the service writes for a new account. */
  datatype NewProfile = NewProfile(
    uid: string,
    email: Option<string>,
    displayName: Option<string>,
    photoURL: Option<string>,
    rol: string,
    activo: bool,
    proveedor: Option<string>)

  /**
   * `signUp`: `created` is the account creation, `named` the failure (if
   * any) of the display-name update that follows it, and `stored` the
   * failure (if any) of the profile write after that. Each failure lands in
   * the same `catch`. Returns the result and the profile the service tries
   * to write, which it reaches only once the name update has succeeded.
   */
  function SignUp(created: Result<AuthUser, AuthError>, named: Option<AuthError>, stored: Option<AuthError>,
                  displayName: string): (r: (AuthResult, Option<NewProfile>))
    ensures r.0.user.Some? != r.0.error.Some?
    ensures r.1.Some? <==> created.Ok? && named.None?
    ensures r.1.Some? ==>
      (r.1.value.rol == "usuario" && r.1.value.activo && r.1.value.displayName == Some(displayName)
      && r.1.value.uid == created.value.uid && r.1.value.email == created.value.email && r.1.value.proveedor.None?)
    ensures r.0.user.Some? <==> created.Ok? && named.None? && stored.None?
    ensures created.Ok? && named.None? && stored.None? ==> r.0.user == Some(created.value)
    ensures created.Err? ==> r.0.error == Some(ErrorMessage(SignUpCases, created.error))
    ensures created.Ok? && named.Some? ==> r.0.error == Some(ErrorMessage(SignUpCases, named.value))
    ensures created.Ok? && named.None? && stored.Some? ==> r.0.error == Some(ErrorMessage(SignUpCases, stored.value))
  {
    match created
    case Err(e) => (AuthResult(None, Some(ErrorMessage(SignUpCases, e))), None)
    case Ok(u) =>
      if named.Some? then (AuthResult(None, Some(ErrorMessage(SignUpCases, named.value))), None)
      else
        var profile := NewProfile(u.uid, u.email, Some(displayName), None, "usuario", true, None);
        if stored.Some? then (AuthResult(None, Some(ErrorMessage(SignUpCases, stored.value))), Some(profile))
        else (AuthResult(Some(u), None), Some(profile))
  }

  /**
   * `signInWithGoogle` after the popup: the profile is written only when
   * none exists, so a stored profile is never replaced.
   */
  function GoogleProfileWrite(u: AuthUser, profileExists: bool): (w: Option<NewProfile>)
    ensures w.Some? <==> !profileExists
    ensures w.Some? ==> w.value == NewProfile(u.uid, u.email, u.displayName, u.photoURL, "usuario", true, Some("google"))
  {
    if profileExists then None else Some(NewProfile(u.uid, u.email, u.displayName, u.photoURL, "usuario", true, Some("google")))
  }

  /**
   * `signInWithGoogle`: `popup` is the popup sign-in, `lookup` the read of
   * the profile document (whether it exists), `stored` the failure (if any)
   * of the profile write that follows for a new user. Each failure lands in
   * the same `catch`. Returns the result and the profile the service tries
   * to write.
   */
  function SignInWithGoogle(popup: Result<AuthUser, AuthError>, lookup: Result<bool, AuthError>,
                            stored: Option<AuthError>): (r: (AuthResult, Option<NewProfile>))
    ensures r.0.user.Some? != r.0.error.Some?
    ensures r.1.Some? <==> popup.Ok? && lookup.Ok? && !lookup.value
    ensures r.1.Some? ==> r.1 == GoogleProfileWrite(popup.value, false)
    ensures r.0.user.Some? <==> popup.Ok? && lookup.Ok? && (lookup.value || stored.None?)
    ensures r.0.user.Some? ==> r.0.user == Some(popup.value)
    ensures popup.Err? ==> r.0.error == Some(ErrorMessage(GoogleCases, popup.error))
    ensures popup.Ok? && lookup.Err? ==> r.0.error == Some(ErrorMessage(GoogleCases, lookup.error))
    ensures popup.Ok? && lookup.Ok? && !lookup.value && stored.Some? ==>
      r.0.error == Some(ErrorMessage(GoogleCases, stored.value))
  {
    match popup
    case Err(e) => (AuthResult(None, Some(ErrorMessage(GoogleCases, e))), None)
    case Ok(u) =>
      match lookup
      case Err(e) => (AuthResult(None, Some(ErrorMessage(GoogleCases, e))), None)
      case Ok(profileExists) =>
        var w := GoogleProfileWrite(u, profileExists);
        if w.Some? && stored.Some? then (AuthResult(None, Some(ErrorMessage(GoogleCases, stored.value))), w)
        else (AuthResult(Some(u), None), w)
  }

  /** `signOut`: `{ error: null }` on success, the error's message otherwise. */
  function SignOut(failure: Option<AuthError>): (r: Option<string>)
    ensures r.None? <==> failure.None?
    ensures failure.Some? ==> r == Some(failure.value.message)
  {
    if failure.Some? then Some(failure.value.message) else None
  }
}
