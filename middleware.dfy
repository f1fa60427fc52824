/**
 * The admin gate in front of the profile update route (`requireAdmin`): it
 * looks the path's profile up and lets the request through only when that
 * profile's `isAdmin` is truthy.
 */
module Middleware {
  import opened Schema
  import opened Storage

  /** The gate either passes control on or answers with a status and message. */
  datatype Decision = Next | Denied(status: int, message: string)

  const AccessDenied := Denied(403, "Access denied. Admin only.")

  /** `!!profile.isAdmin`: an absent property is falsy. */
  predicate IsAdmin(p: Profile) {
    p.isAdmin == Some(true)
  }

  /**
   * `requireAdmin` for the path id after `parseInt` (`None` is NaN, which no
   * key equals). It only reads the store.
   */
  function RequireAdmin(store: MemStorage, id: Option<int>): (d: Decision)
    reads store
    ensures d == Next || d == AccessDenied
    ensures d == Next <==> id.Some? && id.value in store.profiles && store.profiles[id.value].isAdmin == Some(true)
  {
    if id.None? then AccessDenied
    else
      match store.GetProfile(id.value)
      case None => AccessDenied
      case Some(p) => if IsAdmin(p) then Next else AccessDenied
  }

  /** No stored profile is an administrator. */
  ghost predicate NoAdmin(profiles: map<int, Profile>) {
    forall k :: k in profiles ==> !IsAdmin(profiles[k])
  }

  /** Without an administrator profile the gate denies every request. */
  lemma NoAdminDeniesAll(store: MemStorage, id: Option<int>)
    requires NoAdmin(store.profiles)
    ensures RequireAdmin(store, id) == AccessDenied
  {
  }

  /** A profile created by the store is never an administrator. */
  lemma CreatedProfilesAreNotAdmins(profiles: map<int, Profile>, p: Profile)
    requires NoAdmin(profiles) && p.isAdmin == None
    ensures NoAdmin(profiles[p.id := p])
  {
  }
}
