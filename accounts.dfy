/** Staff accounts as the dashboards receive them. */
module Accounts {
  import opened Wrappers

  datatype Permissions = Permissions(canViewAnalytics: bool, canManageMenu: bool)

  /** The permission flags a checkbox can change. */
  datatype PermissionKey = CanViewAnalytics | CanManageMenu

  /** A staff user; `permissions` may be missing on the record. */
  datatype StaffUser = StaffUser(id: string, username: string, role: string, permissions: Option<Permissions>)

  /** `user.permissions || { canViewAnalytics: false, canManageMenu: false }`. */
  function EffectivePermissions(u: StaffUser): (p: Permissions)
    ensures u.permissions.None? ==> !p.canViewAnalytics && !p.canManageMenu
    ensures u.permissions.Some? ==> p == u.permissions.value
  {
    u.permissions.GetOr(Permissions(false, false))
  }

  /** `{ ...current, [key]: value }`: the chosen flag takes the value, the other keeps its own. */
  function SetPermission(current: Permissions, key: PermissionKey, value: bool): (p: Permissions)
    ensures key == CanViewAnalytics ==> p.canViewAnalytics == value && p.canManageMenu == current.canManageMenu
    ensures key == CanManageMenu ==> p.canManageMenu == value && p.canViewAnalytics == current.canViewAnalytics
  {
    match key
    case CanViewAnalytics => current.(canViewAnalytics := value)
    case CanManageMenu => current.(canManageMenu := value)
  }
}
