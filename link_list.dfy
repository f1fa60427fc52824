/**
 * The drag-and-drop reorder of the link list (`handleDragEnd`): move one
 * element from its source index to its destination index, then send one
 * `{ order: i }` patch per position i of the new sequence.
 */
module LinkList {
  import opened Schema
  import opened LinkQuery
  import opened Storage

  /** `items.splice(i, 1)`: the sequence without its element at i. */
  function RemoveAt<T>(xs: seq<T>, i: nat): (r: seq<T>)
    requires i < |xs|
    ensures |r| == |xs| - 1
  {
    xs[..i] + xs[i + 1..]
  }

  /** `items.splice(i, 0, x)`: the sequence with x inserted before index i. */
  function InsertAt<T>(xs: seq<T>, i: nat, x: T): (r: seq<T>)
    requires i <= |xs|
    ensures |r| == |xs| + 1
  {
    xs[..i] + [x] + xs[i..]
  }

  /** The sequence after moving the element at s to index d. */
  function Reordered<T>(xs: seq<T>, s: nat, d: nat): (r: seq<T>)
    requires s < |xs| && d < |xs|
    ensures |r| == |xs|
  {
    InsertAt(RemoveAt(xs, s), d, xs[s])
  }

  /** The reordered sequence is a permutation of the original. */
  lemma ReorderedIsPermutation<T>(xs: seq<T>, s: nat, d: nat)
    requires s < |xs| && d < |xs|
    ensures |Reordered(xs, s, d)| == |xs|
    ensures multiset(Reordered(xs, s, d)) == multiset(xs)
  {
    var rest := RemoveAt(xs, s);
    assert xs == xs[..s] + [xs[s]] + xs[s + 1..];
    assert multiset(xs) == multiset(xs[..s]) + multiset{xs[s]} + multiset(xs[s + 1..]);
    assert multiset(rest) == multiset(xs[..s]) + multiset(xs[s + 1..]);
    assert rest == rest[..d] + rest[d..];
    assert multiset(rest) == multiset(rest[..d]) + multiset(rest[d..]);
    var r := Reordered(xs, s, d);
    assert r == rest[..d] + [xs[s]] + rest[d..];
    assert multiset(r) == multiset(rest[..d]) + multiset{xs[s]} + multiset(rest[d..]);
    assert multiset(r) == multiset(rest) + multiset{xs[s]};
  }

  /** The moved element ends at the destination index. */
  lemma ReorderedMovesElement<T>(xs: seq<T>, s: nat, d: nat)
    requires s < |xs| && d < |xs|
    ensures Reordered(xs, s, d)[d] == xs[s]
  {
  }

  /** All other elements keep their relative order. */
  lemma ReorderedKeepsOthers<T>(xs: seq<T>, s: nat, d: nat)
    requires s < |xs| && d < |xs|
    ensures RemoveAt(Reordered(xs, s, d), d) == RemoveAt(xs, s)
  {
    var rest := RemoveAt(xs, s);
    var r := Reordered(xs, s, d);
    assert r[..d] == rest[..d];
    assert r[d + 1..] == rest[d..];
    assert rest == rest[..d] + rest[d..];
  }

  /** Dropping an element where it was picked up changes nothing. */
  lemma ReorderedIdentity<T>(xs: seq<T>, s: nat)
    requires s < |xs|
    ensures Reordered(xs, s, s) == xs
  {
    assert xs == xs[..s] + [xs[s]] + xs[s + 1..];
    assert RemoveAt(xs, s)[..s] == xs[..s];
    assert RemoveAt(xs, s)[s..] == xs[s + 1..];
  }

  /** The records the store holds after all patches: item i has `order` i. */
  function Numbered(items: seq<Link>): (r: seq<Link>)
    ensures |r| == |items|
    ensures forall i :: 0 <= i < |items| ==> r[i] == items[i].(order := i)
  {
    if items == [] then [] else Numbered(items[..|items| - 1]) + [items[|items| - 1].(order := |items| - 1)]
  }

  /** The link map after the patches for the first |items| positions. */
  function SetOrders(m: map<int, Link>, items: seq<Link>): (r: map<int, Link>)
    ensures r.Keys == m.Keys
  {
    if items == [] then m
    else UpdatedLinks(SetOrders(m, items[..|items| - 1]), items[|items| - 1].id, OrderPatch(|items| - 1))
  }

  /** The index of the first item with the given id, or |s| if there is none. */
  function IdxOf(s: seq<Link>, id: int): (j: nat)
    ensures j <= |s|
    ensures j < |s| ==> s[j].id == id
    ensures forall i :: 0 <= i < j ==> s[i].id != id
  {
    if s == [] then 0 else if s[0].id == id then 0 else 1 + IdxOf(s[1..], id)
  }

  /**
   * After the patches, the link under key k carries, as its `order`, the
   * position of k among the items; a key no item names is untouched.
   */
  lemma {:induction false} SetOrdersAt(m: map<int, Link>, items: seq<Link>, k: int)
    requires NoDupIds(items) && k in m
    ensures SetOrders(m, items)[k] ==
      if IdxOf(items, k) < |items| then m[k].(order := IdxOf(items, k)) else m[k]
  {
    if items != [] {
      var n := |items|;
      var pre := items[..n - 1];
      assert NoDupIds(pre);
      SetOrdersAt(m, pre, k);
      if items[n - 1].id == k {
        assert IdxOf(items, k) == n - 1;
      } else {
        if IdxOf(pre, k) < n - 1 {
          assert pre[IdxOf(pre, k)] == items[IdxOf(pre, k)];
          assert IdxOf(items, k) == IdxOf(pre, k);
        } else {
          assert IdxOf(items, k) == n;
        }
      }
    }
  }

  /** Every link of s gets, as its `order`, its position among the items. */
  function Relabelled(items: seq<Link>, s: seq<Link>): (r: seq<Link>)
    ensures |r| == |s|
    ensures forall i :: 0 <= i < |s| ==> r[i] == s[i].(order := IdxOf(items, s[i].id))
  {
    if s == [] then [] else [s[0].(order := IdxOf(items, s[0].id))] + Relabelled(items, s[1..])
  }

  lemma {:induction false} RelabelledConcat(items: seq<Link>, a: seq<Link>, b: seq<Link>)
    ensures Relabelled(items, a + b) == Relabelled(items, a) + Relabelled(items, b)
  {
    if a == [] {
      assert a + b == b;
    } else {
      assert (a + b)[0] == a[0] && (a + b)[1..] == a[1..] + b;
      RelabelledConcat(items, a[1..], b);
    }
  }

  /** Taking the element at i out of b takes its relabelled copy out of the relabelled b. */
  lemma RelabelledRemove(items: seq<Link>, b: seq<Link>, i: nat)
    requires i < |b|
    ensures multiset(Relabelled(items, b)) ==
      multiset(Relabelled(items, b[..i] + b[i + 1..])) + multiset{b[i].(order := IdxOf(items, b[i].id))}
  {
    RelabelledConcat(items, b[..i], b[i + 1..]);
    RelabelledConcat(items, b[..i], b[i..]);
    assert b[..i] + b[i..] == b;
    var tail := b[i..];
    assert tail[0] == b[i] && tail[1..] == b[i + 1..];
    var l, r := Relabelled(items, b[..i]), Relabelled(items, b[i + 1..]);
    var rx := b[i].(order := IdxOf(items, b[i].id));
    assert Relabelled(items, tail) == [rx] + r;
    assert multiset(Relabelled(items, b)) == multiset(l) + multiset([rx] + r);
  }

  /** Relabelling two permutations of each other gives permutations of each other. */
  lemma {:induction false} RelabelledPermutation(items: seq<Link>, a: seq<Link>, b: seq<Link>)
    requires multiset(a) == multiset(b)
    ensures multiset(Relabelled(items, a)) == multiset(Relabelled(items, b))
  {
    if a == [] {
      assert |b| == |multiset(b)| == 0;
    } else {
      var x := a[0];
      assert x in multiset(b);
      var i :| 0 <= i < |b| && b[i] == x;
      MultisetRemove(a, b, i);
      RelabelledPermutation(items, a[1..], b[..i] + b[i + 1..]);
      RelabelledRemove(items, b, i);
      assert Relabelled(items, a) == [x.(order := IdxOf(items, x.id))] + Relabelled(items, a[1..]);
    }
  }

  /** Removing equal heads from two permutations leaves permutations. */
  lemma MultisetRemove(a: seq<Link>, b: seq<Link>, i: nat)
    requires multiset(a) == multiset(b) && |a| > 0 && i < |b| && b[i] == a[0]
    ensures multiset(a[1..]) == multiset(b[..i] + b[i + 1..])
  {
    assert b == b[..i] + [b[i]] + b[i + 1..];
    assert multiset(b) == multiset(b[..i]) + multiset{b[i]} + multiset(b[i + 1..]);
    assert a == [a[0]] + a[1..];
    assert multiset(a) == multiset{a[0]} + multiset(a[1..]);
    assert multiset(b[..i] + b[i + 1..]) == multiset(b[..i]) + multiset(b[i + 1..]);
    assert multiset(a[1..]) == multiset(a) - multiset{a[0]};
    assert multiset(b[..i] + b[i + 1..]) == multiset(b) - multiset{b[i]};
  }

  /**
   * Filtering commutes with relabelling, when the relabelled sequence agrees
   * with the original on every `profileId` and relabels the links of p.
   */
  lemma {:induction false} OfProfileRelabelled(items: seq<Link>, s: seq<Link>, s': seq<Link>, p: int)
    requires |s| == |s'|
    requires forall i :: 0 <= i < |s| ==> s'[i].profileId == s[i].profileId
    requires forall i :: 0 <= i < |s| && s[i].profileId == p ==> s'[i] == s[i].(order := IdxOf(items, s[i].id))
    ensures OfProfile(s', p) == Relabelled(items, OfProfile(s, p))
  {
    if s != [] {
      OfProfileRelabelled(items, s[1..], s'[1..], p);
      var head := if s[0].profileId == p then [s[0]] else [];
      RelabelledConcat(items, head, OfProfile(s[1..], p));
    }
  }

  /** Relabelling the items themselves numbers them, when their ids are distinct. */
  lemma RelabelledSelf(items: seq<Link>)
    requires NoDupIds(items)
    ensures Relabelled(items, items) == Numbered(items)
  {
    forall i | 0 <= i < |items| ensures IdxOf(items, items[i].id) == i {
    }
  }

  /**
   * Once every link of p that the store holds appears among the items, the
   * patches relabel exactly the links of p, each with its position.
   */
  lemma SetOrdersRelabels(m: map<int, Link>, keys: seq<int>, p: int, items: seq<Link>)
    requires AllIn(m, keys) && IdsMatch(m) && NoDupIds(items)
    requires forall i :: 0 <= i < |keys| && m[keys[i]].profileId == p ==> m[keys[i]] in items
    ensures AllIn(SetOrders(m, items), keys)
    ensures OfProfile(Values(SetOrders(m, items), keys), p) == Relabelled(items, OfProfile(Values(m, keys), p))
  {
    var vs := Values(m, keys);
    var m' := SetOrders(m, items);
    var vs' := Values(m', keys);
    forall i | 0 <= i < |keys|
      ensures vs'[i].profileId == vs[i].profileId
      ensures vs[i].profileId == p ==> vs'[i] == vs[i].(order := IdxOf(items, vs[i].id))
    {
      SetOrdersAt(m, items, keys[i]);
      if vs[i].profileId == p {
        var j :| 0 <= j < |items| && items[j] == vs[i];
        assert IdxOf(items, keys[i]) <= j;
      }
    }
    OfProfileRelabelled(items, vs, vs', p);
  }

  /**
   * The end state of a reorder. Suppose the items are a permutation of the
   * links of profile p (as `getLinks(p)` and any reordering of it are) and
   * every record sits under its own id. Then once the patch `{ order: i }`
   * has been applied to item i for every i, `getLinks(p)` returns exactly
   * the items, in their sequence, with orders 0 to n - 1.
   */
  lemma ReorderEndState(m: map<int, Link>, keys: seq<int>, p: int, items: seq<Link>)
    requires AllIn(m, keys) && StrictlyIncreasing(keys) && IdsMatch(m)
    requires multiset(items) == multiset(OfProfile(Values(m, keys), p))
    ensures AllIn(SetOrders(m, items), keys)
    ensures LinksOf(SetOrders(m, items), keys, p) == Numbered(items)
  {
    var vs := Values(m, keys);
    var f := OfProfile(vs, p);
    ValuesIdsIncreasing(m, keys);
    OfProfileIdsIncreasing(vs, p);
    NoDupIdsOfPermutation(items, f);
    OfProfileCount(vs, p);
    forall i | 0 <= i < |keys| && m[keys[i]].profileId == p
      ensures m[keys[i]] in items
    {
      assert vs[i] in multiset(vs);
      assert vs[i] in multiset(items);
    }
    SetOrdersRelabels(m, keys, p, items);
    RelabelledPermutation(items, f, items);
    RelabelledSelf(items);
    var numbered := Numbered(items);
    assert StrictlyByOrder(numbered);
    SortedUnique(LinksOf(SetOrders(m, items), keys, p), numbered);
  }

  /** Two order patches on different ids commute. */
  lemma PatchesCommute(m: map<int, Link>, a: int, i: int, b: int, j: int)
    requires a != b
    ensures UpdatedLinks(UpdatedLinks(m, a, OrderPatch(i)), b, OrderPatch(j))
         == UpdatedLinks(UpdatedLinks(m, b, OrderPatch(j)), a, OrderPatch(i))
  {
  }

  /**
   * Moving one link of the listed links and patching every link with its new
   * position makes the listing the moved sequence, renumbered 0 to n - 1.
   */
  lemma DragEndState(m: map<int, Link>, keys: seq<int>, p: int, links: seq<Link>, s: nat, d: nat)
    requires AllIn(m, keys) && StrictlyIncreasing(keys) && IdsMatch(m)
    requires links == LinksOf(m, keys, p) && s < |links| && d < |links|
    ensures LinksOf(SetOrders(m, Reordered(links, s, d)), keys, p) == Numbered(Reordered(links, s, d))
  {
    ReorderedIsPermutation(links, s, d);
    ReorderEndState(m, keys, p, Reordered(links, s, d));
  }

  /** What the drag-and-drop library reports at the end of a drag. */
  datatype DropResult = DropResult(source: nat, destination: Option<nat>)

  /**
   * The `updates` of `handleDragEnd`: one `PATCH` of `{ order: index }` per
   * item, applied one after the other.
   */
  method PatchOrders(store: MemStorage, items: seq<Link>)
    requires store.Valid()
    modifies store
    ensures store.Valid()
    ensures store.links == SetOrders(old(store.links), items)
    ensures store.linkOrder == old(store.linkOrder) && store.profiles == old(store.profiles)
    ensures store.profileId == old(store.profileId) && store.linkId == old(store.linkId)
  {
    var i := 0;
    while i < |items|
      invariant 0 <= i <= |items|
      invariant store.Valid()
      invariant store.links == SetOrders(old(store.links), items[..i])
      invariant store.linkOrder == old(store.linkOrder) && store.profiles == old(store.profiles)
      invariant store.profileId == old(store.profileId) && store.linkId == old(store.linkId)
    {
      var outcome := store.UpdateLink(items[i].id, OrderPatch(i));
      assert items[..i + 1][..i] == items[..i];
      i := i + 1;
    }
    assert items[..|items|] == items;
  }

  /**
   * `handleDragEnd(result)` for the list `links` shown for `profileId`:
   * without a destination nothing happens; otherwise the moved sequence is
   * computed by two splices and each of its links is patched with its new
   * position, one `updateLink` per link, applied in sequence.
   */
  method HandleDragEnd(store: MemStorage, links: seq<Link>, profileId: int, result: DropResult)
    requires store.Valid()
    requires result.source < |links|
    requires result.destination.Some? ==> result.destination.value < |links|
    modifies store
    ensures store.Valid()
    ensures result.destination.None? ==> store.links == old(store.links)
    ensures result.destination.Some? ==>
      store.links == SetOrders(old(store.links), Reordered(links, result.source, result.destination.value))
    ensures result.destination.Some? && IdsMatch(old(store.links)) && links == old(store.GetLinks(profileId)) ==>
      store.GetLinks(profileId) == Numbered(Reordered(links, result.source, result.destination.value))
    ensures store.linkOrder == old(store.linkOrder) && store.profiles == old(store.profiles)
    ensures store.profileId == old(store.profileId) && store.linkId == old(store.linkId)
  {
    if result.destination.None? {
      return;
    }
    var d := result.destination.value;
    var items := links;
    var moved := items[result.source];
    items := items[..result.source] + items[result.source + 1..];
    items := items[..d] + [moved] + items[d..];
    assert items == Reordered(links, result.source, d);
    PatchOrders(store, items);
    if IdsMatch(old(store.links)) && links == old(store.GetLinks(profileId)) {
      DragEndState(old(store.links), old(store.linkOrder), profileId, links, result.source, d);
    }
  }
}
