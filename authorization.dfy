/** The permission context of src/hooks/usePermissions.tsx: one current-user
    slot and the membership queries the UI uses to decide what to show.

    The role and permission vocabularies and the role-to-defaults table are
    not part of this model's source files, so `Role` and `Permission` are
    type parameters and the admin tag is a constructor argument. */
module Authorization {
  import opened Wrappers
  import opened UserData
  import Seqs

  /** A user as the authorization code sees it: the users page's record with
      a role and a list of permissions. */
  datatype User<Role, Permission> = User(
    id: string,
    nome: string,
    email: string,
    cargo: string,
    status: UserStatus,
    ultimoAcesso: Option<string>,
    role: Role,
    permissoes: seq<Permission>,
    dataCriacao: string)

  class PermissionsContext<Role(==), Permission(==)> {
    var currentUser: Option<User<Role, Permission>>
    const adminRole: Role

    constructor (initial: Option<User<Role, Permission>>, adminRole: Role)
      ensures currentUser == initial && this.adminRole == adminRole
    {
      currentUser := initial;
      this.adminRole := adminRole;
    }

    /** Replaces the current user wholesale; nothing of the previous user survives. */
    method SetCurrentUser(user: Option<User<Role, Permission>>)
      modifies this
      ensures currentUser == user
    {
      currentUser := user;
    }

    /** `hasPermission`: false without a user, otherwise membership in the user's list. */
    function HasPermission(p: Permission): (r: bool)
      reads this
      ensures r <==> currentUser.Some? && p in currentUser.value.permissoes
    {
      if currentUser.None? then false
      else Seqs.Any(currentUser.value.permissoes, (q: Permission) => q == p)
    }

    /** `hasAnyPermission`: false without a user; otherwise some listed permission is held. */
    function HasAnyPermission(ps: seq<Permission>): (r: bool)
      reads this
      ensures r <==> currentUser.Some? && exists i :: 0 <= i < |ps| && ps[i] in currentUser.value.permissoes
      ensures ps == [] ==> !r
    {
      if currentUser.None? then false
      else
        var held := currentUser.value.permissoes;
        Seqs.Any(ps, (p: Permission) => p in held)
    }

    /** `hasAllPermissions`: false without a user; otherwise every listed permission is held,
        so the empty list is granted exactly when a user is present. */
    function HasAllPermissions(ps: seq<Permission>): (r: bool)
      reads this
      ensures r <==> currentUser.Some? && forall i :: 0 <= i < |ps| ==> ps[i] in currentUser.value.permissoes
      ensures ps == [] ==> (r <==> currentUser.Some?)
    {
      if currentUser.None? then false
      else
        var held := currentUser.value.permissoes;
        Seqs.All(ps, (p: Permission) => p in held)
    }

    /** `isAdmin`: decided by the role alone. */
    function IsAdmin(): (r: bool)
      reads this
      ensures r <==> currentUser.Some? && currentUser.value.role == adminRole
    {
      currentUser.Some? && currentUser.value.role == adminRole
    }
  }

  /** The access decision of `RequirePermission`: a single `permission` wins over
      `anyOf`, which wins over `allOf`; with no criterion access is granted. */
  function RequirePermission<Role(==), Permission(==)>(
    ctx: PermissionsContext<Role, Permission>,
    permission: Option<Permission>,
    anyOf: Option<seq<Permission>>,
    allOf: Option<seq<Permission>>): (hasAccess: bool)
    reads ctx
    ensures permission.None? && anyOf.None? && allOf.None? ==> hasAccess
    ensures permission.Some? ==> (hasAccess <==> ctx.HasPermission(permission.value))
    ensures permission.None? && anyOf.Some? ==> (hasAccess <==> ctx.HasAnyPermission(anyOf.value))
    ensures permission.None? && anyOf.None? && allOf.Some? ==> (hasAccess <==> ctx.HasAllPermissions(allOf.value))
  {
    if permission.Some? then ctx.HasPermission(permission.value)
    else if anyOf.Some? then ctx.HasAnyPermission(anyOf.value)
    else if allOf.Some? then ctx.HasAllPermissions(allOf.value)
    else true
  }

  /** Without a current user every query and every criterion denies, the
      empty `allOf` list included; only the absence of any criterion grants. */
  lemma NoUserDenies<Role, Permission>(
    ctx: PermissionsContext<Role, Permission>,
    permission: Option<Permission>,
    anyOf: Option<seq<Permission>>,
    allOf: Option<seq<Permission>>)
    requires ctx.currentUser.None?
    ensures !ctx.IsAdmin()
    ensures RequirePermission(ctx, permission, anyOf, allOf)
        <==> permission.None? && anyOf.None? && allOf.None?
  {
  }

  /** An `anyOf` criterion with an empty list always denies. */
  lemma EmptyAnyOfDenies<Role, Permission>(
    ctx: PermissionsContext<Role, Permission>, allOf: Option<seq<Permission>>)
    ensures !RequirePermission(ctx, None, Some([]), allOf)
  {
  }

  /** For a single permission the three queries agree. */
  lemma SinglePermissionQueriesAgree<Role, Permission>(
    ctx: PermissionsContext<Role, Permission>, p: Permission)
    ensures ctx.HasAnyPermission([p]) == ctx.HasPermission(p)
    ensures ctx.HasAllPermissions([p]) == ctx.HasPermission(p)
  {
  }
}
