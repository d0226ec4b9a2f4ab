/**
 * The user service over `usuarios_registrados`: how a stored document
 * becomes a `User` (role normalisation and field defaults), the list the
 * `forEach`/`push` loops build, the role statistics, and the role a new
 * profile gets. The Firestore reads are given as the documents they return.
 */
module FirestoreService {
  import opened Wrappers
  import opened Text
  import opened Seqs

  /** The stored fields the service reads; any may be missing. Timestamps are opaque numbers. */
  datatype UserData = UserData(
    email: Option<string>,
    displayName: Option<string>,
    nombre: Option<string>,
    rol: Option<string>,
    createdAt: Option<int>,
    lastLogin: Option<int>,
    photoURL: Option<string>)

  /** A query-snapshot document: its id and its data. */
  datatype Doc = Doc(id: string, data: UserData)

  /** The service's `User`. */
  datatype User = User(
    uid: string,
    email: string,
    displayName: Option<string>,
    rol: string,
    createdAt: Option<int>,
    lastLogin: Option<int>,
    photoURL: Option<string>)

  /** The roles `getAllUsers` and `getUserById` let through. */
  const ListedRoles: seq<string> := ["administrador", "conductor", "usuario"]

  /** The roles `getUsersByRole` lets through. */
  const QueriedRoles: seq<string> := ["administrador", "conductor", "usuario", "gerente"]

  /** `validRol`: `data.rol || 'usuario'` if it is one of `allowed`, else `'usuario'`. */
  function NormalizeRole(rol: Option<string>, allowed: seq<string>): (r: string)
    requires "usuario" in allowed
    ensures r in allowed
    ensures Truthy(rol) && rol.value in allowed ==> r == rol.value
    ensures !(Truthy(rol) && rol.value in allowed) ==> r == "usuario"
  {
    var candidate := OrDefault(rol, "usuario");
    if candidate in allowed then candidate else "usuario"
  }

  /** Without `'gerente'` in the list, a stored `'gerente'` is shown as `'usuario'`. */
  lemma GerenteListedAsUsuario()
    ensures NormalizeRole(Some("gerente"), ListedRoles) == "usuario"
    ensures NormalizeRole(Some("gerente"), QueriedRoles) == "gerente"
  {
    assert "gerente" != ListedRoles[0] && "gerente" != ListedRoles[1] && "gerente" != ListedRoles[2];
    assert "gerente" == QueriedRoles[3];
  }

  /** `x || null` on an optional string: an empty string becomes `null`. */
  function OrNull(x: Option<string>): (r: Option<string>)
    ensures Truthy(x) ==> r == x
    ensures !Truthy(x) ==> r.None?
  {
    if Truthy(x) then x else None
  }

  /** The object pushed for one document. */
  function MapUser(d: Doc, allowed: seq<string>): (u: User)
    requires "usuario" in allowed
    ensures u.uid == d.id && u.rol in allowed
    ensures u.email == OrDefault(d.data.email, "")
    ensures Truthy(d.data.displayName) ==> u.displayName == d.data.displayName
    ensures !Truthy(d.data.displayName) && Truthy(d.data.nombre) ==> u.displayName == d.data.nombre
    ensures !Truthy(d.data.displayName) && !Truthy(d.data.nombre) ==> u.displayName.None?
    ensures u.displayName.Some? ==> u.displayName.value != ""
  {
    User(d.id, OrDefault(d.data.email, ""), OrNull(OrElse(d.data.displayName, d.data.nombre)),
      NormalizeRole(d.data.rol, allowed), d.data.createdAt, d.data.lastLogin, OrNull(d.data.photoURL))
  }

  /** The users built from `docs`, one per document, in snapshot order. */
  function MapUsers(docs: seq<Doc>, allowed: seq<string>): (r: seq<User>)
    requires "usuario" in allowed
    ensures |r| == |docs|
    ensures forall i :: 0 <= i < |r| ==> r[i] == MapUser(docs[i], allowed) && r[i].rol in allowed
  {
    seq(|docs|, i requires 0 <= i < |docs| => MapUser(docs[i], allowed))
  }

  /**
   * A Firestore query with `orderBy('createdAt', …)` returns only the
   * documents that have a `createdAt` field.
   */
  predicate HasCreatedAt(d: Doc) {
    d.data.createdAt.Some?
  }

  /**
   * `getAllUsers`: the `orderBy('createdAt', 'desc')` query over
   * `collection`, then the `forEach` that pushes one mapped user per
   * document.
   */
  method GetAllUsers(collection: seq<Doc>) returns (users: seq<User>)
    ensures users == MapUsers(Filter(collection, HasCreatedAt), ListedRoles)
    ensures forall i :: 0 <= i < |users| ==> users[i].rol in ListedRoles && users[i].createdAt.Some?
  {
    var docs := Filter(collection, HasCreatedAt);
    users := [];
    for i := 0 to |docs|
      invariant |users| == i
      invariant forall j :: 0 <= j < i ==> users[j] == MapUser(docs[j], ListedRoles) && users[j].createdAt.Some?
    {
      assert HasCreatedAt(docs[i]);
      users := users + [MapUser(docs[i], ListedRoles)];
    }
  }

  /** `getUserById`: the mapped user, or `null` when there is no document. */
  function GetUserById(doc: Option<Doc>): (r: Option<User>)
    ensures r.Some? <==> doc.Some?
    ensures r.Some? ==> r.value.uid == doc.value.id && r.value.rol in ListedRoles
  {
    if doc.Some? then Some(MapUser(doc.value, ListedRoles)) else None
  }

  /** The documents `where('rol', '==', rol)` with `orderBy('createdAt', …)` selects. */
  predicate StoredRoleIs(d: Doc, rol: string) {
    d.data.rol == Some(rol) && HasCreatedAt(d)
  }

  /**
   * `getUsersByRole`: the documents the `where('rol', '==', rol)` and
   * `orderBy('createdAt', 'desc')` query selects from `collection`, mapped
   * with `'gerente'` allowed, so each user keeps the requested role.
   */
  method GetUsersByRole(collection: seq<Doc>, rol: string) returns (users: seq<User>)
    requires rol in QueriedRoles
    ensures users == MapUsers(Filter(collection, d => StoredRoleIs(d, rol)), QueriedRoles)
    ensures forall i :: 0 <= i < |users| ==> users[i].rol == rol && users[i].createdAt.Some?
  {
    var docs := Filter(collection, d => StoredRoleIs(d, rol));
    users := [];
    for i := 0 to |docs|
      invariant |users| == i
      invariant forall j :: 0 <= j < i ==>
        users[j] == MapUser(docs[j], QueriedRoles) && users[j].rol == rol && users[j].createdAt.Some?
    {
      assert StoredRoleIs(docs[i], rol) && Truthy(docs[i].data.rol);
      users := users + [MapUser(docs[i], QueriedRoles)];
    }
  }

  /** The role counts of `getUserStats` (the `activos` count is left out). */
  datatype UserStats = UserStats(total: nat, administradores: nat, conductores: nat, usuarios: nat, gerente: nat)

  predicate HasRole(u: User, rol: string) {
    u.rol == rol
  }

  function GetUserStats(users: seq<User>): (s: UserStats)
    ensures s.total == |users|
    ensures s.administradores + s.conductores + s.usuarios <= s.total
  {
    CountDisjoint3(users, u => HasRole(u, "administrador"), u => HasRole(u, "conductor"), u => HasRole(u, "usuario"));
    UserStats(|users|, Count(users, u => HasRole(u, "administrador")), Count(users, u => HasRole(u, "conductor")),
      Count(users, u => HasRole(u, "usuario")), Count(users, u => HasRole(u, "gerente")))
  }

  /**
   * Over the list `getAllUsers` returns, the three role counts add up to the
   * total and no user is counted as `'gerente'`.
   */
  lemma StatsOfAllUsers(docs: seq<Doc>)
    ensures var s := GetUserStats(MapUsers(docs, ListedRoles));
      s.administradores + s.conductores + s.usuarios == s.total && s.gerente == 0
  {
    var users := MapUsers(docs, ListedRoles);
    CountPartition3(users, u => HasRole(u, "administrador"), u => HasRole(u, "conductor"), u => HasRole(u, "usuario"));
    forall i | 0 <= i < |users| ensures !HasRole(users[i], "gerente") {
      assert users[i].rol in ListedRoles;
    }
    FilterNone(users, u => HasRole(u, "gerente"));
  }

  /** `createOrUpdateUser` on a missing document: the role written is `userData.rol || 'usuario'`. */
  function NewProfileRol(rol: Option<string>): (r: string)
    ensures r != ""
    ensures Truthy(rol) ==> r == rol.value
    ensures !Truthy(rol) ==> r == "usuario"
  {
    OrDefault(rol, "usuario")
  }
}
