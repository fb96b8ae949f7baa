/** Who may moderate and who may submit designs (store-mm.php:131-177). */
module Roles {
  import opened Wrappers

  /** A signed-in WordPress user. `umRole` is the role the Ultimate Member
      plugin reports for the current user, present exactly when that plugin
      is active. */
  datatype User = User(id: nat, displayName: string, roles: seq<string>, umRole: Option<string>)

  const ModeratorUmRoles: seq<string> := ["administrator", "store_mm_moderator", "moderator"]
  const ModeratorWpRoles: seq<string> := ["administrator", "editor", "shop_manager"]
  const DesignerUmRoles: seq<string> :=
    ["administrator", "store_mm_moderator", "store_mm_designer", "moderator", "designer"]
  const DesignerWpRoles: seq<string> :=
    ["administrator", "editor", "shop_manager", "author", "contributor"]

  predicate IsAdministrator(u: User) {
    "administrator" in u.roles
  }

  /** PHP's `array_intersect($list, $roles)` taken as a truth value. */
  predicate Intersects(list: seq<string>, roles: seq<string>) {
    exists r :: r in list && r in roles
  }

  /** `store_mm_user_can_moderate`. */
  predicate CanModerate(u: User) {
    if IsAdministrator(u) then true
    else if u.umRole.Some? then u.umRole.value in ModeratorUmRoles
    else Intersects(ModeratorWpRoles, u.roles)
  }

  /** `store_mm_user_can_submit`. */
  predicate CanSubmit(u: User) {
    if IsAdministrator(u) then true
    else if u.umRole.Some? then u.umRole.value in DesignerUmRoles
    else Intersects(DesignerWpRoles, u.roles)
  }

  /** An administrator is always both a moderator and a designer. */
  lemma AdministratorHasEveryRole(u: User)
    requires IsAdministrator(u)
    ensures CanModerate(u) && CanSubmit(u)
  {
  }

  /** Each list of moderator roles is contained in the matching designer list,
      so whoever may moderate may also submit. */
  lemma ModeratorCanSubmit(u: User)
    ensures CanModerate(u) ==> CanSubmit(u)
  {
    if !IsAdministrator(u) && u.umRole.None? && CanModerate(u) {
      var r :| r in ModeratorWpRoles && r in u.roles;
      assert r in DesignerWpRoles;
    }
  }

  /** When Ultimate Member is active its role alone decides: a WordPress
      editor whose UM role is not a moderator role cannot moderate. */
  lemma UmRoleOverridesWordPressRoles(u: User)
    requires !IsAdministrator(u) && u.umRole.Some?
    ensures CanModerate(u) <==> u.umRole.value in ModeratorUmRoles
    ensures CanSubmit(u) <==> u.umRole.value in DesignerUmRoles
  {
  }

  /** The moderator and designer tests without Ultimate Member: the user
      holds one of the listed WordPress roles. */
  lemma WordPressFallback(u: User)
    requires u.umRole.None?
    ensures CanModerate(u) <==> exists r :: r in u.roles && r in ModeratorWpRoles
    ensures CanSubmit(u) <==> exists r :: r in u.roles && r in DesignerWpRoles
  {
    if IsAdministrator(u) {
      assert "administrator" in ModeratorWpRoles && "administrator" in DesignerWpRoles;
    }
  }
}
