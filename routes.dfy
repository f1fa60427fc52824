/**
 * The HTTP routes over the store, reduced to what they do with it: each
 * request is one store call (the profile update behind the admin gate) and
 * its answer.
 */
module Routes {
  import opened Schema
  import opened Storage
  import opened Middleware

  /**
   * One request per route. A path id is the result of `parseInt` (`None` is
   * NaN). A creation body is `None` when schema validation rejects it.
   */
  datatype Request =
    | GetProfileReq(id: Option<int>)
    | PostProfileReq(profileBody: Option<InsertProfile>)
    | PatchProfileReq(id: Option<int>, profilePatch: ProfilePatch)
    | GetLinksReq(id: Option<int>)
    | PostLinkReq(linkBody: Option<InsertLink>)
    | PatchLinkReq(id: Option<int>, linkPatch: LinkPatch)
    | DeleteLinkReq(id: Option<int>)
    | ClickReq(id: Option<int>)

  /**
   * The answer: a status with a message, a JSON body, an empty 204, or an
   * error thrown by the store, for which the routes set no status.
   */
  datatype Response =
    | Status(code: int, message: string)
    | ValidationFailed
    | ProfileJson(profile: Profile)
    | LinkJson(link: Link)
    | LinksJson(links: seq<Link>)
    | NoContent
    | Threw(error: StoreError)

  /** The store's answer to an update or a click, as the route forwards it. */
  function LinkResponse(r: Result<Link>): Response {
    match r
    case Ok(l) => LinkJson(l)
    case Err(e) => Threw(e)
  }

  function ProfileResponse(r: Result<Profile>): Response {
    match r
    case Ok(p) => ProfileJson(p)
    case Err(e) => Threw(e)
  }

  /** Handles one request against the store. */
  method Handle(store: MemStorage, req: Request) returns (resp: Response)
    requires store.Valid()
    modifies store
    ensures store.Valid()
    ensures old(NoAdmin(store.profiles)) ==> NoAdmin(store.profiles)
    ensures req.PatchProfileReq? && old(NoAdmin(store.profiles)) ==>
      resp == Status(403, "Access denied. Admin only.") && store.profiles == old(store.profiles)
    ensures req.PatchProfileReq? && old(RequireAdmin(store, req.id)) == AccessDenied ==>
      resp == Status(403, "Access denied. Admin only.") && store.profiles == old(store.profiles)
    ensures req.PatchProfileReq? && old(RequireAdmin(store, req.id)) == Next ==>
      var updated := MergeProfile(old(store.profiles)[req.id.value], req.profilePatch);
      resp == ProfileJson(updated) && store.profiles == old(store.profiles)[req.id.value := updated]
    ensures req.PatchProfileReq? || req.GetProfileReq? || req.GetLinksReq? ==>
      && store.links == old(store.links) && store.linkOrder == old(store.linkOrder)
      && store.profileId == old(store.profileId) && store.linkId == old(store.linkId)
    ensures req.GetProfileReq? || req.GetLinksReq? ==> store.profiles == old(store.profiles)
    ensures req.GetProfileReq? ==>
      resp == if req.id.Some? && req.id.value in old(store.profiles)
              then ProfileJson(old(store.profiles)[req.id.value])
              else Status(404, "Profile not found")
    ensures req.GetLinksReq? ==>
      resp == LinksJson(if req.id.Some? then old(store.GetLinks(req.id.value)) else [])
  {
    match req
    case GetProfileReq(id) =>
      var p := if id.Some? then store.GetProfile(id.value) else None;
      resp := if p.Some? then ProfileJson(p.value) else Status(404, "Profile not found");
    case PostProfileReq(body) =>
      if body.None? {
        resp := ValidationFailed;
      } else {
        // Schema parsing drops keys that are not columns, such as themePreferences.
        var p := store.CreateProfile(body.value.(themePreferences := None));
        resp := ProfileJson(p);
      }
    case PatchProfileReq(id, patch) =>
      var gate := RequireAdmin(store, id);
      if gate.Denied? {
        resp := Status(gate.status, gate.message);
      } else {
        var r := store.UpdateProfile(id.value, patch);
        resp := ProfileResponse(r);
      }
    case GetLinksReq(id) =>
      resp := LinksJson(if id.Some? then store.GetLinks(id.value) else []);
    case PostLinkReq(body) =>
      if body.None? {
        resp := ValidationFailed;
      } else {
        var l := store.CreateLink(body.value);
        resp := LinkJson(l);
      }
    case PatchLinkReq(id, patch) =>
      if id.None? {
        resp := Threw(LinkNotFound);
      } else {
        var r := store.UpdateLink(id.value, patch);
        resp := LinkResponse(r);
      }
    case DeleteLinkReq(id) =>
      if id.Some? {
        store.DeleteLink(id.value);
      }
      resp := NoContent;
    case ClickReq(id) =>
      if id.None? {
        resp := Threw(LinkNotFound);
      } else {
        var r := store.IncrementClicks(id.value);
        resp := LinkResponse(r);
      }
  }

  /**
   * A server run: the seeded store answers the requests in turn. No request
   * sequence makes a profile an administrator, so every profile update is
   * refused.
   */
  method Serve(reqs: seq<Request>) returns (resps: seq<Response>)
    ensures |resps| == |reqs|
    ensures forall i :: 0 <= i < |reqs| && reqs[i].PatchProfileReq? ==>
      resps[i] == Status(403, "Access denied. Admin only.")
  {
    var store := new MemStorage();
    resps := [];
    while |resps| < |reqs|
      invariant |resps| <= |reqs|
      invariant store.Valid() && NoAdmin(store.profiles)
      invariant forall i :: 0 <= i < |resps| && reqs[i].PatchProfileReq? ==>
        resps[i] == Status(403, "Access denied. Admin only.")
    {
      var resp := Handle(store, reqs[|resps|]);
      resps := resps + [resp];
    }
  }
}
