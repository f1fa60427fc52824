/**
 * The link editor of the profile page: a form whose URL field fills in an
 * empty title from the platform name, and a submit that appends the new link
 * after the links on screen by giving it `order` = their count.
 */
module ProfilePage {
  import opened Schema
  import opened LinkQuery
  import opened Storage
  import opened PlatformIcons

  /** The one profile the page edits. */
  const DemoProfileId := 1

  /** The request body of a new link: the form data with `order` overridden by the count. */
  function NewLinkRequest(data: InsertLink, links: seq<Link>): (r: InsertLink)
    ensures r.order == |links|
    ensures r.(order := data.order) == data
  {
    data.(order := |links|)
  }

  /** The orders of the list are exactly 0 to n - 1, in sequence. */
  predicate Dense(links: seq<Link>) {
    forall i :: 0 <= i < |links| ==> links[i].order == i
  }

  /** On a dense list the appended link comes after every link, and the list stays dense. */
  lemma AppendKeepsDense(links: seq<Link>, data: InsertLink, id: int)
    requires Dense(links)
    ensures forall i :: 0 <= i < |links| ==> links[i].order < NewLinkRequest(data, links).order
    ensures Dense(links + [Stored(id, NewLinkRequest(data, links))])
  {
  }

  /**
   * After a delete leaves a gap, the count can be an order already in use:
   * with orders 0, 2, 3 the new link gets order 3, that of the last link.
   */
  lemma AppendAfterGapDuplicates(links: seq<Link>, data: InsertLink)
    requires |links| == 3 && links[0].order == 0 && links[1].order == 2 && links[2].order == 3
    ensures NewLinkRequest(data, links).order == links[2].order
    ensures !Dense(links)
  {
  }

  /** `toUpperCase` on one character (ASCII letters only). */
  function UpperChar(c: char): char {
    if 'a' <= c <= 'z' then (c as int - 32) as char else c
  }

  /** `s.charAt(0).toUpperCase() + s.slice(1)`. */
  function Capitalize(s: string): (r: string)
    ensures |r| == |s|
    ensures s != [] ==> r[0] == UpperChar(s[0]) && r[1..] == s[1..]
  {
    if s == [] then [] else [UpperChar(s[0])] + s[1..]
  }

  /** Lower-casing a capitalised lower-case name gives the name back. */
  lemma CapitalizeRoundTrip(s: string)
    requires forall i :: 0 <= i < |s| ==> !('A' <= s[i] <= 'Z')
    ensures ToLower(Capitalize(s)) == s
  {
    if s != [] {
      var r := Capitalize(s);
      var l := ToLower(r);
      forall i | 0 <= i < |s| ensures l[i] == s[i] {
        if i > 0 {
          assert r[i] == r[1..][i - 1] == s[1..][i - 1];
        }
      }
    }
  }

  /** The form of a new link, with its field values. */
  class LinkForm {
    var profileId: int
    var title: string
    var url: string
    var platform: string
    var order: int

    /** The page has no input for the profile: it stays the demo profile. */
    ghost predicate Valid()
      reads this
    {
      profileId == DemoProfileId
    }

    /** The default values. */
    constructor ()
      ensures Valid()
      ensures title == "" && url == "" && platform == "" && order == 0
    {
      profileId := DemoProfileId;
      title := "";
      url := "";
      platform := "";
      order := 0;
    }

    /** Typing in the title field. */
    method SetTitle(value: string)
      modifies this
      ensures title == value
      ensures profileId == old(profileId) && url == old(url) && platform == old(platform) && order == old(order)
    {
      title := value;
    }

    /**
     * Typing in the URL field. `hostname` is the host name the URL parser
     * gives for `value`, `None` where it throws; the exception is swallowed
     * and the title is left alone. An empty title becomes the capitalised
     * platform name; a non-empty title is never overwritten.
     */
    method OnUrlChange(value: string, hostname: Option<string>)
      modifies this
      ensures url == value
      ensures old(title) != "" || hostname.None? ==> title == old(title)
      ensures old(title) == "" && hostname.Some? ==> title == Capitalize(PlatformName(ToLower(hostname.value)))
      ensures hostname.Some? ==> title != ""
      ensures profileId == old(profileId) && platform == old(platform) && order == old(order)
    {
      url := value;
      var name := GetPlatformName(hostname);
      if name.Some? && name.value != "" && title == "" {
        title := Capitalize(name.value);
      }
    }

    /** `linkForm.reset()`: back to the default values. */
    method Reset()
      modifies this
      ensures Valid()
      ensures title == "" && url == "" && platform == "" && order == 0
    {
      profileId := DemoProfileId;
      title := "";
      url := "";
      platform := "";
      order := 0;
    }

    /**
     * The form data as submitted: always for the demo profile, and with the
     * platform field always sent, as a string that may be empty.
     */
    function Data(): (d: InsertLink)
      requires Valid()
      reads this
      ensures d.profileId == DemoProfileId
      ensures d.platform.Some? && d.platform.value == platform
    {
      InsertLink(profileId, title, url, Some(platform), order)
    }
  }

  /**
   * Submitting the form: the link is created with `order` = the number of
   * links on screen, then the form is reset. When the screen shows the
   * profile's current links and their orders are dense, the new link is
   * listed last and the orders stay dense.
   */
  method SubmitLink(store: MemStorage, form: LinkForm, onScreen: seq<Link>) returns (l: Link)
    requires store.Valid() && form.Valid()
    modifies store, form
    ensures store.Valid()
    ensures l == Stored(l.id, NewLinkRequest(old(form.Data()), onScreen))
    ensures l.id == old(store.linkId) && l.profileId == DemoProfileId && l.order == |onScreen|
    ensures store.links == old(store.links)[l.id := l] && store.linkOrder == old(store.linkOrder) + [l.id]
    ensures store.linkId == old(store.linkId) + 1 && store.profileId == old(store.profileId)
    ensures store.profiles == old(store.profiles)
    ensures form.Valid() && form.title == "" && form.url == "" && form.platform == "" && form.order == 0
    ensures onScreen == old(store.GetLinks(DemoProfileId)) && Dense(onScreen) ==>
      store.GetLinks(DemoProfileId) == onScreen + [l] && Dense(store.GetLinks(DemoProfileId))
  {
    var request := NewLinkRequest(form.Data(), onScreen);
    ghost var before, keys := store.links, store.linkOrder;
    l := store.CreateLink(request);
    form.Reset();
    if request.profileId == DemoProfileId && onScreen == LinksOf(before, keys, DemoProfileId) && Dense(onScreen) {
      LinksOfAppend(before, keys, DemoProfileId, l.id, l);
      AppendKeepsDense(onScreen, request, l.id);
    }
  }
}
