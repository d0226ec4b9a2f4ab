/**
 * The user-management page: the role counters, the row ids of the table,
 * the role badge, the connected-users line and the role-editing dialog.
 */
module UsuariosPage {
  import opened Wrappers
  import opened Text
  import opened Seqs
  import opened Types
  import opened FirebaseCollections

  predicate HasRol(u: UsuarioRegistrado, rol: string) {
    u.rol == rol
  }

  /** One of the three roles the page counts. */
  predicate CountedRol(u: UsuarioRegistrado) {
    u.rol == "administrador" || u.rol == "conductor" || u.rol == "usuario"
  }

  datatype Counters = Counters(total: nat, admins: nat, conductores: nat, usuarios: nat, conectados: nat)

  /** `users.length`, `adminCount`, `conductorCount`, `userCount` and `conectadosCount`. */
  function PageCounters(users: seq<UsuarioRegistrado>): (c: Counters)
    ensures c.total == |users|
    ensures c.admins + c.conductores + c.usuarios <= c.total
    ensures c.conectados <= c.total
  {
    CountDisjoint3(users, u => HasRol(u, "administrador"), u => HasRol(u, "conductor"), u => HasRol(u, "usuario"));
    Counters(|users|, Count(users, u => HasRol(u, "administrador")), Count(users, u => HasRol(u, "conductor")),
      Count(users, u => HasRol(u, "usuario")), Count(users, IsConectado))
  }

  /**
   * The three counters miss exactly the users with any other role (a
   * `'gerente'` among them): together with those they make up the total.
   */
  lemma CountersMissOtherRoles(users: seq<UsuarioRegistrado>)
    ensures var c := PageCounters(users);
      c.admins + c.conductores + c.usuarios + Count(users, u => !CountedRol(u)) == c.total
  {
    CountUnion3(users, CountedRol, u => HasRol(u, "administrador"), u => HasRol(u, "conductor"), u => HasRol(u, "usuario"));
    CountComplement(users, CountedRol, u => !CountedRol(u));
  }

  /** `u.id || u.uid || ''`. */
  function RowId(u: UsuarioRegistrado): (id: string)
    ensures Truthy(u.id) ==> id == u.id.value
    ensures !Truthy(u.id) ==> id == OrDefault(u.uid, "")
  {
    if Truthy(u.id) then u.id.value else OrDefault(u.uid, "")
  }

  /** `usersWithId`: the same users in the same order, each carrying its row id. */
  function UsersWithId(users: seq<UsuarioRegistrado>): (r: seq<UsuarioRegistrado>)
    ensures |r| == |users|
    ensures forall i :: 0 <= i < |r| ==> r[i] == users[i].(id := Some(RowId(users[i])))
  {
    seq(|users|, i requires 0 <= i < |users| => users[i].(id := Some(RowId(users[i]))))
  }

  /** A table row can have its role saved exactly when the stored user has an `id` or a `uid`. */
  lemma RowEditableIffIdentified(users: seq<UsuarioRegistrado>, i: int)
    requires 0 <= i < |users|
    ensures Truthy(UsersWithId(users)[i].id) <==> Truthy(users[i].id) || Truthy(users[i].uid)
  {
  }

  datatype BadgeVariant = Default | Secondary
  datatype RoleIcon = Shield | Truck | UserIcon

  datatype RoleBadge = RoleBadge(variant: BadgeVariant, icon: RoleIcon, text: string, color: string)

  /** `getRoleBadge`. */
  function GetRoleBadge(rol: string): (b: RoleBadge)
    ensures b.text == "Gerente" <==> rol == "gerente"
    ensures b.text == "Administrador" <==> rol == "administrador"
    ensures b.text == "Conductor" <==> rol == "conductor"
    ensures b.text == "Usuario" <==> rol !in {"gerente", "administrador", "conductor"}
    ensures b.variant == Default <==> b.icon == Shield
  {
    match rol
    case "gerente" => RoleBadge(Default, Shield, "Gerente", "bg-green-500/10 text-green-500")
    case "administrador" => RoleBadge(Default, Shield, "Administrador", "bg-primary/10 text-primary")
    case "conductor" => RoleBadge(Secondary, Truck, "Conductor", "bg-blue-500/10 text-blue-500")
    case _ => RoleBadge(Secondary, UserIcon, "Usuario", "bg-muted text-muted-foreground")
  }

  /** The `'s'` appended to "usuario" and "conectado" unless exactly one user is connected. */
  function Plural(count: nat): (s: string)
    ensures s == "s" <==> count != 1
    ensures s == "" <==> count == 1
  {
    if count != 1 then "s" else ""
  }

  /** The connected-users line after the number. */
  function ConectadosText(count: nat): (t: string)
    ensures count == 1 ==> t == "usuario conectado ahora"
    ensures count != 1 ==> t == "usuarios conectados ahora"
  {
    "usuario" + Plural(count) + " conectado" + Plural(count) + " ahora"
  }

  /** The state of the role-editing dialog. */
  class RoleDialog {
    var editingUser: Option<UsuarioRegistrado>
    var newRole: string
    var isDialogOpen: bool
    var updating: bool

    constructor ()
      ensures editingUser.None? && newRole == "usuario" && !isDialogOpen && !updating
    {
      editingUser := None;
      newRole := "usuario";
      isDialogOpen := false;
      updating := false;
    }

    /** `disabled={updating || newRole === editingUser?.rol}` on the save button. */
    predicate SaveDisabled()
      reads this
    {
      updating || (editingUser.Some? && newRole == editingUser.value.rol)
    }

    /** The warning box is rendered when `newRole === 'administrador'`. */
    predicate WarningVisible()
      reads this
    {
      newRole == "administrador"
    }

    /** `handleOpenEditDialog`: the dialog opens on the user's current role, so saving starts disabled. */
    method OpenEditDialog(user: UsuarioRegistrado)
      modifies this
      ensures editingUser == Some(user) && newRole == user.rol && isDialogOpen
      ensures updating == old(updating)
      ensures SaveDisabled()
    {
      editingUser := Some(user);
      newRole := user.rol;
      isDialogOpen := true;
    }

    /** `handleCloseDialog`. */
    method CloseDialog()
      modifies this
      ensures !isDialogOpen && editingUser.None? && newRole == "usuario"
      ensures updating == old(updating)
      ensures !WarningVisible()
    {
      isDialogOpen := false;
      editingUser := None;
      newRole := "usuario";
    }

    /** The role picker's `onValueChange`. */
    method SelectRole(rol: string)
      modifies this
      ensures newRole == rol && editingUser == old(editingUser) && isDialogOpen == old(isDialogOpen) && updating == old(updating)
      ensures WarningVisible() <==> rol == "administrador"
    {
      newRole := rol;
    }

    /**
     * `handleUpdateRole`: without an editing user, a role or an id nothing
     * happens; otherwise the role is written under the user's id and, when
     * the write succeeds, the dialog closes. `writeFails` is the outcome of
     * the write; `written` is the `(id, role)` sent.
     */
    method UpdateRole(writeFails: bool) returns (written: Option<(string, string)>)
      modifies this
      ensures old(editingUser).None? || old(newRole) == "" || !Truthy(old(editingUser).value.id) ==>
        written.None? && editingUser == old(editingUser) && newRole == old(newRole)
          && isDialogOpen == old(isDialogOpen) && updating == old(updating)
      ensures old(editingUser).Some? && old(newRole) != "" && Truthy(old(editingUser).value.id) ==>
        && written == Some((old(editingUser).value.id.value, old(newRole)))
        && !updating
        && (writeFails ==> editingUser == old(editingUser) && newRole == old(newRole) && isDialogOpen == old(isDialogOpen))
        && (!writeFails ==> !isDialogOpen && editingUser.None? && newRole == "usuario")
    {
      if editingUser.None? || newRole == "" || !Truthy(editingUser.value.id) {
        return None;
      }
      updating := true;
      written := Some((editingUser.value.id.value, newRole));
      if !writeFails {
        CloseDialog();
      }
      updating := false;
    }
  }
}
