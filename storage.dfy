/**
 * The server's in-memory store (`MemStorage`): two maps keyed by integer id,
 * one for profiles and one for links, and two independent id counters.
 *
 * A JavaScript `Map` iterates in insertion order, and `getLinks` depends on
 * it, so the link map comes with `linkOrder`, its keys in iteration order:
 * `set` of a new key appends it, `set` of an existing key keeps its place,
 * `delete` takes it out.
 */
module Storage {
  import opened Schema
  import opened LinkQuery

  /** The errors the store throws. */
  datatype StoreError = ProfileNotFound | LinkNotFound {
    function Message(): string {
      match this
      case ProfileNotFound => "Profile not found"
      case LinkNotFound => "Link not found"
    }
  }

  datatype Result<T> = Ok(value: T) | Err(error: StoreError)

  /**
   * `{ ...existing, ...patch }` on profiles. Every field the patch names wins,
   * the record's `id` and `isAdmin` among them; every other field is kept.
   */
  function MergeProfile(p: Profile, patch: ProfilePatch): (r: Profile)
    ensures r.id == (if patch.id.Some? then patch.id.value else p.id)
    ensures r.isAdmin == (if patch.isAdmin.Some? then patch.isAdmin.value else p.isAdmin)
  {
    Profile(
      patch.id.GetOr(p.id),
      patch.name.GetOr(p.name),
      patch.bio.GetOr(p.bio),
      patch.avatarSeed.GetOr(p.avatarSeed),
      patch.theme.GetOr(p.theme),
      patch.background.GetOr(p.background),
      patch.glassEffect.GetOr(p.glassEffect),
      patch.mediaUrl.GetOr(p.mediaUrl),
      patch.mediaType.GetOr(p.mediaType),
      patch.themePreferences.GetOr(p.themePreferences),
      patch.lastThemeUpdate.GetOr(p.lastThemeUpdate),
      patch.isAdmin.GetOr(p.isAdmin))
  }

  /**
   * `{ ...existing, ...patch }` on links. Every field the patch names wins,
   * `id` and `clicks` among them; every other field is kept.
   */
  function MergeLink(l: Link, patch: LinkPatch): (r: Link)
    ensures r.id == (if patch.id.Some? then patch.id.value else l.id)
    ensures r.clicks == (if patch.clicks.Some? then patch.clicks.value else l.clicks)
    ensures patch.order.None? ==> r.order == l.order
    ensures patch.profileId.None? ==> r.profileId == l.profileId
  {
    Link(
      patch.id.GetOr(l.id),
      patch.profileId.GetOr(l.profileId),
      patch.title.GetOr(l.title),
      patch.url.GetOr(l.url),
      patch.platform.GetOr(l.platform),
      patch.order.GetOr(l.order),
      patch.clicks.GetOr(l.clicks))
  }

  /** A patch that only names `order` changes only `order`. */
  lemma MergeOrderOnly(l: Link, i: int)
    ensures MergeLink(l, OrderPatch(i)) == l.(order := i)
  {
  }

  /** Merging the same patch twice is merging it once. */
  lemma MergeLinkIdempotent(l: Link, patch: LinkPatch)
    ensures MergeLink(MergeLink(l, patch), patch) == MergeLink(l, patch)
  {
  }

  lemma MergeProfileIdempotent(p: Profile, patch: ProfilePatch)
    ensures MergeProfile(MergeProfile(p, patch), patch) == MergeProfile(p, patch)
  {
  }

  /** The empty patch is the identity. */
  lemma MergeLinkEmpty(l: Link)
    ensures MergeLink(l, EmptyLinkPatch) == l
  {
  }

  /** What `updateLink(id, patch)` does to the link map. */
  function UpdatedLinks(m: map<int, Link>, id: int, patch: LinkPatch): (r: map<int, Link>)
    ensures r.Keys == m.Keys
    ensures id in m ==> r[id] == MergeLink(m[id], patch)
    ensures forall k :: k in m && k != id ==> r[k] == m[k]
  {
    if id in m then m[id := MergeLink(m[id], patch)] else m
  }

  /** The iteration order after `Map.delete(k)`. */
  function Erase(keys: seq<int>, k: int): (r: seq<int>)
    ensures forall x :: x in r <==> x in keys && x != k
    ensures k !in keys ==> r == keys
    ensures StrictlyIncreasing(keys) ==> StrictlyIncreasing(r)
  {
    if keys == [] then []
    else if keys[0] == k then Erase(keys[1..], k)
    else
      var rest := Erase(keys[1..], k);
      assert forall j :: 0 <= j < |rest| ==> rest[j] in keys[1..];
      [keys[0]] + rest
  }

  /** Deleting a key twice is deleting it once. */
  lemma EraseIdempotent(keys: seq<int>, k: int)
    ensures Erase(Erase(keys, k), k) == Erase(keys, k)
  {
  }

  /** The link after n calls of `incrementClicks`. */
  function Clicked(l: Link, n: nat): (r: Link)
    ensures r.clicks >= l.clicks && r.id == l.id
  {
    if n == 0 then l else var c := Clicked(l, n - 1); c.(clicks := c.clicks + 1)
  }

  /** n successive increments add exactly n clicks and change nothing else. */
  lemma {:induction false} ClickedAddsN(l: Link, n: nat)
    ensures Clicked(l, n) == l.(clicks := l.clicks + n)
  {
    if n > 0 {
      ClickedAddsN(l, n - 1);
    }
  }

  /** The profile the constructor creates. */
  const SeedProfile := Profile(
    1,
    "Abdellatif Bayejou (ⵄⴰⴱⴷⵍⵟⵉⴼ ⴱⴰⵢⵊⵓ)",
    Some("Welcome to my links page!"),
    "abdellatif",
    "light",
    "gradient1",
    true,
    Some("https://www.youtube.com/watch?v=dQw4w9WgXcQ"),
    Some("youtube"),
    ["professional", "modern"],
    None,
    None)

  /** The links the constructor creates, in creation order. */
  const SeedLinks := [
    InsertLink(1, "GitHub", "https://github.com/abdelBAY", None, 0),
    InsertLink(1, "Instagram", "https://www.instagram.com/abdellatif_bj/", None, 1),
    InsertLink(1, "LinkedIn", "https://www.linkedin.com/in/abdellatif-bayejou-337770233", None, 2),
    InsertLink(1, "Facebook", "https://web.facebook.com/red.moon.161/", None, 3)
  ]

  /** The stored record for a created link: `clicks` is 0, `order` as given. */
  function Stored(id: int, input: InsertLink): (r: Link)
    ensures r.id == id && r.clicks == 0
    ensures r.profileId == input.profileId && r.order == input.order && r.platform == input.platform
  {
    Link(id, input.profileId, input.title, input.url, input.platform, input.order, 0)
  }

  class MemStorage {
    var profiles: map<int, Profile>
    var links: map<int, Link>
    /** The keys of `links` in the Map's iteration order. */
    var linkOrder: seq<int>
    /** The next profile id. */
    var profileId: int
    /** The next link id. */
    var linkId: int

    /**
     * Every key was taken from its counter (so the counters are fresh ids),
     * and the iteration order lists each link key once, ascending.
     */
    ghost predicate Valid()
      reads this
    {
      && 1 <= profileId && 1 <= linkId
      && (forall k :: k in profiles ==> 1 <= k < profileId)
      && (forall k :: k in links ==> 1 <= k < linkId)
      && AllIn(links, linkOrder)
      && (forall k :: k in links ==> k in linkOrder)
      && StrictlyIncreasing(linkOrder)
    }

    /** Seeds one profile (id 1) and four of its links (ids 1 to 4). */
    constructor ()
      ensures Valid() && IdsMatch(links)
      ensures profiles == map[1 := SeedProfile]
      ensures links == map[1 := Stored(1, SeedLinks[0]), 2 := Stored(2, SeedLinks[1]),
                           3 := Stored(3, SeedLinks[2]), 4 := Stored(4, SeedLinks[3])]
      ensures linkOrder == [1, 2, 3, 4]
      ensures profileId == 2 && linkId == 5
    {
      profiles := map[];
      links := map[];
      linkOrder := [];
      profileId := 1;
      linkId := 1;
      new;
      var seeded := CreateProfile(InsertProfile(
        SeedProfile.name, SeedProfile.bio, SeedProfile.avatarSeed,
        Some("light"), Some("gradient1"), Some(true),
        SeedProfile.mediaUrl, SeedProfile.mediaType,
        Some(["professional", "modern"])));
      assert profiles == map[1 := SeedProfile];
      CreateFourLinks(SeedLinks[0], SeedLinks[1], SeedLinks[2], SeedLinks[3]);
    }

    /** Four `createLink` calls in a row on an empty link map. */
    method CreateFourLinks(a: InsertLink, b: InsertLink, c: InsertLink, d: InsertLink)
      requires Valid() && links == map[] && linkOrder == [] && linkId == 1
      modifies this
      ensures Valid() && IdsMatch(links)
      ensures links == map[1 := Stored(1, a), 2 := Stored(2, b), 3 := Stored(3, c), 4 := Stored(4, d)]
      ensures linkOrder == [1, 2, 3, 4] && linkId == 5
      ensures profiles == old(profiles) && profileId == old(profileId)
    {
      var l1 := CreateLink(a);
      assert links == map[1 := Stored(1, a)] && linkOrder == [1];
      var l2 := CreateLink(b);
      assert links == map[1 := Stored(1, a), 2 := Stored(2, b)] && linkOrder == [1, 2];
      var l3 := CreateLink(c);
      assert links == map[1 := Stored(1, a), 2 := Stored(2, b), 3 := Stored(3, c)] && linkOrder == [1, 2, 3];
      var l4 := CreateLink(d);
    }

    /** `getProfile(id)`: a pure lookup. */
    function GetProfile(id: int): (r: Option<Profile>)
      reads this
      ensures r.Some? <==> id in profiles
      ensures r.Some? ==> r.value == profiles[id]
    {
      if id in profiles then Some(profiles[id]) else None
    }

    /**
     * `createProfile(input)`: takes the next profile id, fills the defaults,
     * and adds exactly one key.
     */
    method CreateProfile(input: InsertProfile) returns (p: Profile)
      requires Valid()
      modifies this
      ensures Valid()
      ensures p.id == old(profileId) && p.id !in old(profiles)
      ensures profileId == old(profileId) + 1
      ensures p.name == input.name && p.avatarSeed == input.avatarSeed
      ensures p.bio == input.bio && p.mediaUrl == input.mediaUrl && p.mediaType == input.mediaType
      ensures p.theme == input.theme.GetOr("light")
      ensures p.background == input.background.GetOr("gradient1")
      ensures p.glassEffect == input.glassEffect.GetOr(true)
      ensures p.themePreferences == input.themePreferences.GetOr(["professional", "modern"])
      ensures p.lastThemeUpdate == None && p.isAdmin == None
      ensures profiles == old(profiles)[p.id := p]
      ensures links == old(links) && linkOrder == old(linkOrder) && linkId == old(linkId)
    {
      var id := profileId;
      profileId := profileId + 1;
      p := Profile(
        id,
        input.name,
        input.bio,
        input.avatarSeed,
        input.theme.GetOr("light"),
        input.background.GetOr("gradient1"),
        input.glassEffect.GetOr(true),
        input.mediaUrl,
        input.mediaType,
        input.themePreferences.GetOr(["professional", "modern"]),
        None,
        None);
      profiles := profiles[id := p];
    }

    /**
     * `updateProfile(id, patch)`: fails on an unknown id and changes nothing;
     * otherwise stores the shallow merge under the same key.
     */
    method UpdateProfile(id: int, patch: ProfilePatch) returns (r: Result<Profile>)
      requires Valid()
      modifies this
      ensures Valid()
      ensures id !in old(profiles) ==> r == Err(ProfileNotFound) && profiles == old(profiles)
      ensures id in old(profiles) ==>
        && r == Ok(MergeProfile(old(profiles)[id], patch))
        && profiles == old(profiles)[id := r.value]
      ensures links == old(links) && linkOrder == old(linkOrder)
      ensures profileId == old(profileId) && linkId == old(linkId)
    {
      var existing := GetProfile(id);
      if existing.None? {
        return Err(ProfileNotFound);
      }
      var updated := MergeProfile(existing.value, patch);
      profiles := profiles[id := updated];
      r := Ok(updated);
    }

    /**
     * `getLinks(p)`: every link of profile p, each as often as it is stored
     * and no other, in non-decreasing `order`; ties keep the Map's iteration
     * order, that is ascending id.
     */
    function GetLinks(p: int): (r: seq<Link>)
      reads this
      requires Valid()
      ensures SortedByOrder(r)
      ensures forall x :: multiset(r)[x] == if x.profileId == p then multiset(Values(links, linkOrder))[x] else 0
      ensures IdsMatch(links) ==> OrderThenId(r)
    {
      TiesByAscendingId(links, linkOrder, p);
      LinksOf(links, linkOrder, p)
    }

    /**
     * `createLink(input)`: takes the next link id, stores `clicks` 0 and the
     * supplied `order`, and adds exactly one key at the back of the order.
     */
    method CreateLink(input: InsertLink) returns (l: Link)
      requires Valid()
      modifies this
      ensures Valid()
      ensures l.id == old(linkId) && l.id !in old(links)
      ensures linkId == old(linkId) + 1
      ensures l == Stored(l.id, input)
      ensures links == old(links)[l.id := l] && linkOrder == old(linkOrder) + [l.id]
      ensures old(IdsMatch(links)) ==> IdsMatch(links)
      ensures profiles == old(profiles) && profileId == old(profileId)
    {
      var id := linkId;
      linkId := linkId + 1;
      l := Link(id, input.profileId, input.title, input.url, input.platform, input.order, 0);
      links := links[id := l];
      linkOrder := linkOrder + [id];
    }

    /**
     * `updateLink(id, patch)`: fails on an unknown id and changes nothing;
     * otherwise stores the shallow merge under the same key, in the same
     * place of the iteration order.
     */
    method UpdateLink(id: int, patch: LinkPatch) returns (r: Result<Link>)
      requires Valid()
      modifies this
      ensures Valid()
      ensures r.Ok? <==> id in old(links)
      ensures r.Err? ==> r.error == LinkNotFound
      ensures r.Ok? ==> r.value == MergeLink(old(links)[id], patch)
      ensures links == UpdatedLinks(old(links), id, patch)
      ensures linkOrder == old(linkOrder)
      ensures profiles == old(profiles) && profileId == old(profileId) && linkId == old(linkId)
    {
      if id !in links {
        return Err(LinkNotFound);
      }
      var updated := MergeLink(links[id], patch);
      links := links[id := updated];
      r := Ok(updated);
    }

    /** `deleteLink(id)`: removes the key if present; otherwise a no-op. */
    method DeleteLink(id: int)
      requires Valid()
      modifies this
      ensures Valid()
      ensures links == old(links) - {id} && linkOrder == Erase(old(linkOrder), id)
      ensures id !in old(links) ==> links == old(links) && linkOrder == old(linkOrder)
      ensures old(IdsMatch(links)) ==> IdsMatch(links)
      ensures profiles == old(profiles) && profileId == old(profileId) && linkId == old(linkId)
    {
      var order := Erase(linkOrder, id);
      assert forall i :: 0 <= i < |order| ==> order[i] in order;
      links := links - {id};
      linkOrder := order;
    }

    /**
     * `incrementClicks(id)`: fails on an unknown id and changes nothing;
     * otherwise stores and returns the old link with one more click.
     */
    method IncrementClicks(id: int) returns (r: Result<Link>)
      requires Valid()
      modifies this
      ensures Valid()
      ensures r.Ok? <==> id in old(links)
      ensures r.Err? ==> r.error == LinkNotFound && links == old(links)
      ensures r.Ok? ==>
        && r.value == old(links)[id].(clicks := old(links)[id].clicks + 1)
        && links == old(links)[id := r.value]
      ensures old(IdsMatch(links)) ==> IdsMatch(links)
      ensures linkOrder == old(linkOrder)
      ensures profiles == old(profiles) && profileId == old(profileId) && linkId == old(linkId)
    {
      if id !in links {
        return Err(LinkNotFound);
      }
      var link := links[id];
      var updated := link.(clicks := link.clicks + 1);
      links := links[id := updated];
      r := Ok(updated);
    }
  }
}
