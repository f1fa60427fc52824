/**
 * Record shapes of the link-in-bio store: the `profiles` and `links` rows,
 * the insert inputs (rows with the server-assigned columns omitted) and the
 * partial records that a PATCH body carries.
 *
 * A nullable column is an `Option` (`None` is SQL/JSON null). An optional
 * input field is an `Option` too (`None` is "absent or null", the two cases
 * JavaScript's `??` treats alike). A patch field is an `Option` of the
 * record's field type: `None` leaves the field alone, `Some(v)` overwrites it.
 */
module Schema {

  datatype Option<+T> = None | Some(value: T) {
    /** The value, or `default` when absent: JavaScript's `x ?? default`. */
    function GetOr(default: T): T {
      match this
      case Some(v) => v
      case None => default
    }
  }

  /**
   * A profile row. The first nine fields are the declared columns; the last
   * three are written by the store (`themePreferences`, `lastThemeUpdate`) or
   * read by the admin gate (`isAdmin`) although the table declares no column
   * for them. `isAdmin` is `None` when the record has no such property.
   * `mediaType` is meant to be "spotify" or "youtube", but nothing enforces it.
   */
  datatype Profile = Profile(
    id: int,
    name: string,
    bio: Option<string>,
    avatarSeed: string,
    theme: string,
    background: string,
    glassEffect: bool,
    mediaUrl: Option<string>,
    mediaType: Option<string>,
    themePreferences: seq<string>,
    lastThemeUpdate: Option<string>,
    isAdmin: Option<bool>)

  /** A link row: `platform` is the only nullable column. */
  datatype Link = Link(
    id: int,
    profileId: int,
    title: string,
    url: string,
    platform: Option<string>,
    order: int,
    clicks: int)

  /**
   * The input of profile creation: a profile without `id`. The columns with
   * a default (`theme`, `background`, `glassEffect`) and the nullable ones
   * may be absent; so may `themePreferences`, which the store defaults.
   */
  datatype InsertProfile = InsertProfile(
    name: string,
    bio: Option<string>,
    avatarSeed: string,
    theme: Option<string>,
    background: Option<string>,
    glassEffect: Option<bool>,
    mediaUrl: Option<string>,
    mediaType: Option<string>,
    themePreferences: Option<seq<string>>)

  /**
   * The input of link creation: a link without `id` and without `clicks`,
   * so creation input cannot carry either.
   */
  datatype InsertLink = InsertLink(
    profileId: int,
    title: string,
    url: string,
    platform: Option<string>,
    order: int)

  /** A `Partial<Profile>`: any subset of a profile's fields, `id` included. */
  datatype ProfilePatch = ProfilePatch(
    id: Option<int>,
    name: Option<string>,
    bio: Option<Option<string>>,
    avatarSeed: Option<string>,
    theme: Option<string>,
    background: Option<string>,
    glassEffect: Option<bool>,
    mediaUrl: Option<Option<string>>,
    mediaType: Option<Option<string>>,
    themePreferences: Option<seq<string>>,
    lastThemeUpdate: Option<Option<string>>,
    isAdmin: Option<Option<bool>>)

  /** A `Partial<Link>`: any subset of a link's fields, `id` and `clicks` included. */
  datatype LinkPatch = LinkPatch(
    id: Option<int>,
    profileId: Option<int>,
    title: Option<string>,
    url: Option<string>,
    platform: Option<Option<string>>,
    order: Option<int>,
    clicks: Option<int>)

  /** The link patch `{ order: i }` that a reorder sends for position i. */
  function OrderPatch(i: int): LinkPatch {
    LinkPatch(None, None, None, None, None, Some(i), None)
  }

  /** The empty patch `{}`. */
  const EmptyLinkPatch := LinkPatch(None, None, None, None, None, None, None)
}
