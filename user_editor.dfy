/** The permission editor of src/components/EditUserModal.tsx: a copy of the
    user being edited, the "Personalizar permissões" flag, and the handlers
    that change the role and the permission list. The role-to-defaults table
    (`defaultRolePermissions`) is a constructor argument. */
module UserEditor {
  import opened Wrappers
  import opened Authorization
  import Seqs

  /** The load-time check: the list differs in length from the role's
      defaults, or holds something the defaults do not. */
  function HasCustomPermissions<Permission(==)>(perms: seq<Permission>, defaults: seq<Permission>): bool
  {
    |perms| != |defaults| || !Seqs.All(perms, (p: Permission) => p in defaults)
  }

  predicate Distinct<T(==)>(s: seq<T>)
  {
    forall i, j :: 0 <= i < j < |s| ==> s[i] != s[j]
  }

  function Elements<T>(s: seq<T>): set<T>
  {
    set x | x in s
  }

  lemma {:induction false} DistinctCardinality<T>(s: seq<T>)
    requires Distinct(s)
    ensures |Elements(s)| == |s|
  {
    if s != [] {
      DistinctCardinality(s[1..]);
      assert Elements(s) == {s[0]} + Elements(s[1..]);
      assert s[0] !in Elements(s[1..]);
    }
  }

  lemma SubsetSameSize<T>(a: set<T>, b: set<T>)
    requires a <= b && |a| == |b|
    ensures a == b
  {
    assert b == a + (b - a);
    assert |b - a| == 0;
  }

  /** For duplicate-free lists the load-time check is exactly set inequality. */
  lemma CustomIffSetsDiffer<Permission>(perms: seq<Permission>, defaults: seq<Permission>)
    requires Distinct(perms) && Distinct(defaults)
    ensures HasCustomPermissions(perms, defaults) <==> Elements(perms) != Elements(defaults)
  {
    DistinctCardinality(perms);
    DistinctCardinality(defaults);
    if !HasCustomPermissions(perms, defaults) {
      assert Elements(perms) <= Elements(defaults);
      SubsetSameSize(Elements(perms), Elements(defaults));
    } else if |perms| == |defaults| {
      var i :| 0 <= i < |perms| && perms[i] !in defaults;
      assert perms[i] in Elements(perms) && perms[i] !in Elements(defaults);
    }
  }

  /** A role's own defaults never read as customised. */
  lemma DefaultsAreNotCustom<Permission>(defaults: seq<Permission>)
    ensures !HasCustomPermissions(defaults, defaults)
  {
  }

  /** `togglePermission`'s list update: drop every occurrence of a held
      permission, or append an absent one at the end. */
  function Toggled<Permission(==)>(perms: seq<Permission>, p: Permission): (r: seq<Permission>)
    ensures p in perms ==> p !in r && Seqs.IsSubsequence(r, perms)
    ensures p in perms ==> forall i :: 0 <= i < |perms| && perms[i] != p ==> perms[i] in r
    ensures forall i :: 0 <= i < |r| ==> r[i] in perms || r[i] == p
    ensures p !in perms ==> r == perms + [p]
    ensures p in perms ==> multiset(r) == multiset(perms)[p := 0]
  {
    if p in perms then
      var keep := (q: Permission) => q != p;
      Seqs.FilterIsSubsequence(perms, keep);
      Seqs.FilterMultiset(perms, keep);
      var r := Seqs.Filter(perms, keep);
      assert forall i :: 0 <= i < |perms| && perms[i] != p ==> perms[i] in r;
      r
    else perms + [p]
  }

  /** Toggling twice restores the set of held permissions, and the exact list
      when the permission was absent at first. */
  lemma ToggleTwice<Permission>(perms: seq<Permission>, p: Permission)
    ensures Elements(Toggled(Toggled(perms, p), p)) == Elements(perms)
    ensures p !in perms ==> Toggled(Toggled(perms, p), p) == perms
  {
    var keep := (q: Permission) => q != p;
    if p !in perms {
      Seqs.FilterConcat(perms, [p], keep);
      Seqs.FilterAll(perms, keep);
      assert Seqs.Filter([p], keep) == [];
    } else {
      var once := Toggled(perms, p);
      assert Toggled(once, p) == once + [p];
    }
  }

  /** The `+`/`-` badge next to a permission checkbox. */
  datatype Badge = Added | Removed

  class EditUserModal<Role(==), Permission(==)> {
    var editedUser: Option<User<Role, Permission>>
    var customPermissions: bool
    const defaults: Role -> seq<Permission>

    constructor (defaults: Role -> seq<Permission>)
      ensures editedUser == None && !customPermissions && this.defaults == defaults
    {
      editedUser := None;
      customPermissions := false;
      this.defaults := defaults;
    }

    /** The effect run when the `user` prop changes: copy it and decide
        whether its permissions are customised. A null prop changes nothing. */
    method Load(user: Option<User<Role, Permission>>)
      modifies this
      ensures user.Some? ==> (editedUser == user
        && customPermissions == HasCustomPermissions(user.value.permissoes, defaults(user.value.role)))
      ensures user.None? ==> editedUser == old(editedUser) && customPermissions == old(customPermissions)
    {
      if user.Some? {
        editedUser := user;
        customPermissions := HasCustomPermissions(user.value.permissoes, defaults(user.value.role));
      }
    }

    /** `handleRoleChange`: the role always changes; the permissions follow the
        new role's defaults unless custom mode is on. */
    method HandleRoleChange(role: Role)
      modifies this`editedUser
      ensures old(editedUser).None? ==> editedUser.None?
      ensures old(editedUser).Some? ==> editedUser == Some(old(editedUser).value.(
        role := role,
        permissoes := if customPermissions then old(editedUser).value.permissoes else defaults(role)))
    {
      if editedUser.Some? {
        var prev := editedUser.value;
        editedUser := Some(prev.(role := role, permissoes := if customPermissions then prev.permissoes else defaults(role)));
      }
    }

    /** `togglePermission`; the checkboxes are enabled only in custom mode. */
    method TogglePermission(p: Permission)
      requires customPermissions
      modifies this`editedUser
      ensures old(editedUser).None? ==> editedUser.None?
      ensures old(editedUser).Some? ==> editedUser == Some(old(editedUser).value.(
        permissoes := Toggled(old(editedUser).value.permissoes, p)))
    {
      if editedUser.Some? {
        var prev := editedUser.value;
        editedUser := Some(prev.(permissoes := Toggled(prev.permissoes, p)));
      }
    }

    /** `applyDefaultPermissions` ("Restaurar padrão"): the permissions become the
        role's defaults and custom mode turns off, so the load-time check agrees. */
    method ApplyDefaultPermissions()
      modifies this
      ensures !customPermissions
      ensures old(editedUser).None? ==> editedUser.None?
      ensures old(editedUser).Some? ==> editedUser == Some(old(editedUser).value.(
        permissoes := defaults(old(editedUser).value.role)))
      ensures editedUser.Some? ==> !HasCustomPermissions(editedUser.value.permissoes, defaults(editedUser.value.role))
    {
      if editedUser.Some? {
        var prev := editedUser.value;
        editedUser := Some(prev.(permissoes := defaults(prev.role)));
        DefaultsAreNotCustom(defaults(prev.role));
      }
      customPermissions := false;
    }

    /** The "Personalizar permissões" checkbox: unchecking resets the list to the
        role's defaults, checking leaves it as it is. */
    method SetCustomPermissions(checked: bool)
      modifies this
      ensures customPermissions == checked
      ensures checked || old(editedUser).None? ==> editedUser == old(editedUser)
      ensures !checked && old(editedUser).Some? ==> editedUser == Some(old(editedUser).value.(
        permissoes := defaults(old(editedUser).value.role)))
    {
      customPermissions := checked;
      if !checked && editedUser.Some? {
        var prev := editedUser.value;
        editedUser := Some(prev.(permissoes := defaults(prev.role)));
      }
    }

    /** The badge shown beside permission `p`: only in custom mode, `+` for a
        held permission that is not a default, `-` for a default that is not held. */
    function DiffBadge(p: Permission): (b: Option<Badge>)
      requires editedUser.Some?
      reads this
      ensures b.Some? ==> customPermissions
      ensures b == Some(Added) <==> (customPermissions
        && p in editedUser.value.permissoes && p !in defaults(editedUser.value.role))
      ensures b == Some(Removed) <==> (customPermissions
        && p !in editedUser.value.permissoes && p in defaults(editedUser.value.role))
    {
      var has := p in editedUser.value.permissoes;
      var isDefault := p in defaults(editedUser.value.role);
      if customPermissions && has != isDefault then Some(if has then Added else Removed) else None
    }

    /** `handleSave`: hands exactly the edited record to `onSave` and asks the
        dialog to close; nothing happens when no user is loaded. */
    method HandleSave() returns (saved: Option<User<Role, Permission>>, close: bool)
      ensures saved == editedUser
      ensures close <==> editedUser.Some?
    {
      if editedUser.Some? {
        saved := editedUser;
        close := true;
      } else {
        saved := None;
        close := false;
      }
    }
  }
}
