/** The access-management page: paid modules switched on and off through a
    confirmation step, and a per-role vector of module permissions edited
    one switch at a time. */
module Access {
  import opened Maybe

  /** The workspace roles, in the order the page lists them. */
  const Roles: seq<string> := ["Administrador", "Gestor", "Analista", "Leitor"]

  /** The page lists four modules; only their number matters here. */
  const ModuleCount: nat := 4

  /** A module switch waiting for confirmation: which module, and the value
      the dialog promises it will take. */
  datatype PendingToggle = PendingToggle(index: nat, nextValue: bool)

  /** A vector with every module on. */
  function AllOn(n: nat): (r: seq<bool>)
    ensures |r| == n && forall i :: 0 <= i < n ==> r[i]
  {
    seq(n, _ => true)
  }

  /** The copy of `s` with entry `i` negated and every other entry as it was. */
  function Flip(s: seq<bool>, i: nat): (r: seq<bool>)
    requires i < |s|
    ensures |r| == |s| && r[i] == !s[i]
    ensures forall j :: 0 <= j < |s| && j != i ==> r[j] == s[j]
  {
    s[i := !s[i]]
  }

  /** Flipping the same entry twice restores the vector. */
  lemma FlipTwice(s: seq<bool>, i: nat)
    requires i < |s|
    ensures Flip(Flip(s, i), i) == s
  {
    var once := Flip(s, i);
    assert forall j :: 0 <= j < |s| ==> Flip(once, i)[j] == s[j];
  }

  /** Flips of different entries can be made in either order. */
  lemma FlipsCommute(s: seq<bool>, i: nat, j: nat)
    requires i < |s| && j < |s|
    ensures Flip(Flip(s, i), j) == Flip(Flip(s, j), i)
  {
    var a, b := Flip(Flip(s, i), j), Flip(Flip(s, j), i);
    assert forall k :: 0 <= k < |s| ==> a[k] == b[k];
  }

  /** A role name the page treats as selected: present and non-empty. */
  predicate Selected(role: Option<string>)
  {
    role.Some? && role.value != []
  }

  class Panel {
    var moduleStates: seq<bool>
    var permissionDialogOpen: bool
    var activeRole: Option<string>
    var moduleConfirm: Option<PendingToggle>
    var rolePermissions: map<string, seq<bool>>

    /** Every vector has one entry per module, and a pending switch names a
        module and promises the opposite of its current state. */
    predicate Valid()
      reads this
    {
      && |moduleStates| == ModuleCount
      && (forall r :: r in rolePermissions ==> |rolePermissions[r]| == ModuleCount)
      && (moduleConfirm.Some? ==>
            moduleConfirm.value.index < ModuleCount
            && moduleConfirm.value.nextValue == !moduleStates[moduleConfirm.value.index])
    }

    /** The page opens with every module on, nothing pending, no role
        selected, and every role permitted every module. */
    constructor ()
      ensures Valid()
      ensures moduleStates == AllOn(ModuleCount)
      ensures rolePermissions.Keys == set r | r in Roles
      ensures forall r :: r in rolePermissions ==> rolePermissions[r] == AllOn(ModuleCount)
      ensures moduleConfirm.None? && activeRole.None? && !permissionDialogOpen
    {
      moduleStates := AllOn(ModuleCount);
      permissionDialogOpen := false;
      activeRole := None;
      moduleConfirm := None;
      var initial: map<string, seq<bool>> := map[];
      for k := 0 to |Roles|
        invariant initial.Keys == set r | r in Roles[..k]
        invariant forall r :: r in initial ==> initial[r] == AllOn(ModuleCount)
      {
        initial := initial[Roles[k] := AllOn(ModuleCount)];
        assert Roles[..k + 1] == Roles[..k] + [Roles[k]];
      }
      assert Roles[..|Roles|] == Roles;
      rolePermissions := initial;
    }

    /** Whether the permission switch of module `index` shows as on: the
        active role's entry, on when the role has no vector yet, and on when
        no role is selected. */
    function Permitted(index: nat): (b: bool)
      reads this
      requires Valid() && index < ModuleCount
      ensures !Selected(activeRole) ==> b
      ensures Selected(activeRole) && activeRole.value !in rolePermissions ==> b
      ensures Selected(activeRole) && activeRole.value in rolePermissions ==> b == rolePermissions[activeRole.value][index]
    {
      if !Selected(activeRole) then true
      else if activeRole.value in rolePermissions then rolePermissions[activeRole.value][index]
      else true
    }

    /** Flips module `index` and nothing else. */
    method ToggleModule(index: nat)
      requires Valid() && index < ModuleCount
      requires moduleConfirm.None?
      modifies this
      ensures moduleStates == Flip(old(moduleStates), index)
      ensures rolePermissions == old(rolePermissions) && moduleConfirm == old(moduleConfirm)
      ensures activeRole == old(activeRole) && permissionDialogOpen == old(permissionDialogOpen)
      ensures Valid()
    {
      var next := moduleStates;
      next := next[index := !next[index]];
      moduleStates := next;
    }

    /** Asks for confirmation to switch module `index` to the opposite of its
        current state; no module changes yet. */
    method RequestModuleToggle(index: nat)
      requires Valid() && index < ModuleCount
      modifies this
      ensures moduleConfirm == Some(PendingToggle(index, !old(moduleStates)[index]))
      ensures moduleStates == old(moduleStates) && rolePermissions == old(rolePermissions)
      ensures activeRole == old(activeRole) && permissionDialogOpen == old(permissionDialogOpen)
      ensures Valid()
    {
      moduleConfirm := Some(PendingToggle(index, !moduleStates[index]));
    }

    /** The confirmation dialog is dismissed: nothing is switched. */
    method CancelModuleToggle()
      requires Valid()
      modifies this
      ensures moduleConfirm.None?
      ensures moduleStates == old(moduleStates) && rolePermissions == old(rolePermissions)
      ensures activeRole == old(activeRole) && permissionDialogOpen == old(permissionDialogOpen)
      ensures Valid()
    {
      moduleConfirm := None;
    }

    /** Confirms the pending switch: with nothing pending nothing happens;
        otherwise the recorded module takes the promised value and nothing is
        pending any more. */
    method ConfirmModuleToggle()
      requires Valid()
      modifies this
      ensures old(moduleConfirm).None? ==> moduleStates == old(moduleStates) && moduleConfirm.None?
      ensures old(moduleConfirm).Some? ==>
        && moduleStates == Flip(old(moduleStates), old(moduleConfirm).value.index)
        && moduleStates[old(moduleConfirm).value.index] == old(moduleConfirm).value.nextValue
        && moduleConfirm.None?
      ensures rolePermissions == old(rolePermissions)
      ensures activeRole == old(activeRole) && permissionDialogOpen == old(permissionDialogOpen)
      ensures Valid()
    {
      if moduleConfirm.None? {
        return;
      }
      var index := moduleConfirm.value.index;
      moduleConfirm := None;
      ToggleModule(index);
    }

    /** Opens the permission editor for a role. */
    method OpenRolePermissions(roleName: string)
      requires Valid()
      modifies this
      ensures activeRole == Some(roleName) && permissionDialogOpen
      ensures moduleStates == old(moduleStates) && rolePermissions == old(rolePermissions)
      ensures moduleConfirm == old(moduleConfirm)
      ensures Valid()
    {
      activeRole := Some(roleName);
      permissionDialogOpen := true;
    }

    /** Closes the permission editor and forgets the selected role. */
    method CloseRolePermissions()
      requires Valid()
      modifies this
      ensures activeRole.None? && !permissionDialogOpen
      ensures moduleStates == old(moduleStates) && rolePermissions == old(rolePermissions)
      ensures moduleConfirm == old(moduleConfirm)
      ensures Valid()
    {
      permissionDialogOpen := false;
      activeRole := None;
    }

    /** Flips the active role's permission for module `index`, starting from
        all modules permitted when the role has no vector yet; without a
        selected role nothing changes, and other roles never change. */
    method ToggleRolePermission(index: nat)
      requires Valid() && index < ModuleCount
      modifies this
      ensures !Selected(old(activeRole)) ==> rolePermissions == old(rolePermissions)
      ensures Selected(old(activeRole)) ==>
        var role := old(activeRole).value;
        var current := if role in old(rolePermissions) then old(rolePermissions)[role] else AllOn(ModuleCount);
        rolePermissions == old(rolePermissions)[role := Flip(current, index)]
      ensures forall r :: r in old(rolePermissions) && Some(r) != old(activeRole) ==>
        r in rolePermissions && rolePermissions[r] == old(rolePermissions)[r]
      ensures moduleStates == old(moduleStates) && moduleConfirm == old(moduleConfirm)
      ensures activeRole == old(activeRole) && permissionDialogOpen == old(permissionDialogOpen)
      ensures Valid()
    {
      if !Selected(activeRole) {
        return;
      }
      var role := activeRole.value;
      var current := if role in rolePermissions then rolePermissions[role] else AllOn(ModuleCount);
      var next := current;
      next := next[index := !next[index]];
      rolePermissions := rolePermissions[role := next];
    }
  }
}
