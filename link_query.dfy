/**
 * The read side of the link store (`getLinks`): the Map's records in
 * iteration order, filtered by profile, then sorted by `order` with a stable
 * sort (JavaScript's `Array.prototype.sort` is stable).
 */
module LinkQuery {
  import opened Schema

  /** The keys are in strictly ascending order. */
  predicate StrictlyIncreasing(keys: seq<int>) {
    forall i, j :: 0 <= i < j < |keys| ==> keys[i] < keys[j]
  }

  /** Every record sits under the key equal to its own `id`. */
  predicate IdsMatch(m: map<int, Link>) {
    forall k :: k in m ==> m[k].id == k
  }

  predicate AllIn(m: map<int, Link>, keys: seq<int>) {
    forall i :: 0 <= i < |keys| ==> keys[i] in m
  }

  predicate SortedByOrder(s: seq<Link>) {
    forall i, j :: 0 <= i < j < |s| ==> s[i].order <= s[j].order
  }

  /** No two elements share an `order`, and they ascend. */
  predicate StrictlyByOrder(s: seq<Link>) {
    forall i, j :: 0 <= i < j < |s| ==> s[i].order < s[j].order
  }

  predicate IdsIncreasing(s: seq<Link>) {
    forall i, j :: 0 <= i < j < |s| ==> s[i].id < s[j].id
  }

  predicate NoDupIds(s: seq<Link>) {
    forall i, j :: 0 <= i < j < |s| ==> s[i].id != s[j].id
  }

  /** Ascending by `order`, ties by ascending `id`. */
  predicate OrderThenId(s: seq<Link>) {
    forall i, j :: 0 <= i < j < |s| ==>
      s[i].order < s[j].order || (s[i].order == s[j].order && s[i].id < s[j].id)
  }

  /** `Array.from(map.values())`: the records of `m` in the order of `keys`. */
  function Values(m: map<int, Link>, keys: seq<int>): (r: seq<Link>)
    requires AllIn(m, keys)
    ensures |r| == |keys|
    ensures forall i :: 0 <= i < |keys| ==> r[i] == m[keys[i]]
  {
    if keys == [] then [] else [m[keys[0]]] + Values(m, keys[1..])
  }

  /** `.filter((link) => link.profileId === p)`. */
  function OfProfile(s: seq<Link>, p: int): (r: seq<Link>)
    ensures forall i :: 0 <= i < |r| ==> r[i].profileId == p
  {
    if s == [] then [] else (if s[0].profileId == p then [s[0]] else []) + OfProfile(s[1..], p)
  }

  /** The filter keeps every link of profile p as often as it occurs, and no other. */
  lemma {:induction false} OfProfileCount(s: seq<Link>, p: int)
    ensures forall x :: multiset(OfProfile(s, p))[x] == if x.profileId == p then multiset(s)[x] else 0
  {
    if s != [] {
      assert s == [s[0]] + s[1..];
      OfProfileCount(s[1..], p);
    }
  }

  /** The subsequence of the elements whose `order` is v. */
  function WithOrder(s: seq<Link>, v: int): seq<Link> {
    if s == [] then [] else (if s[0].order == v then [s[0]] else []) + WithOrder(s[1..], v)
  }

  /** Puts x in front of the first element whose `order` is not smaller. */
  function Insert(x: Link, t: seq<Link>): (r: seq<Link>)
    ensures |r| == |t| + 1
    ensures multiset(r) == multiset{x} + multiset(t)
  {
    if t == [] then [x]
    else if x.order <= t[0].order then [x] + t
    else
      assert t == [t[0]] + t[1..];
      [t[0]] + Insert(x, t[1..])
  }

  /** `.sort((a, b) => a.order - b.order)`, as a stable insertion sort. */
  function SortByOrder(s: seq<Link>): (r: seq<Link>)
    ensures |r| == |s|
  {
    if s == [] then [] else Insert(s[0], SortByOrder(s[1..]))
  }

  /** The links of profile p, as `getLinks(p)` returns them. */
  function LinksOf(m: map<int, Link>, keys: seq<int>, p: int): (r: seq<Link>)
    requires AllIn(m, keys)
    ensures SortedByOrder(r)
    ensures multiset(r) == multiset(OfProfile(Values(m, keys), p))
    ensures forall x :: multiset(r)[x] == if x.profileId == p then multiset(Values(m, keys))[x] else 0
  {
    SortByOrderSpec(OfProfile(Values(m, keys), p));
    OfProfileCount(Values(m, keys), p);
    SortByOrder(OfProfile(Values(m, keys), p))
  }

  lemma {:induction false} InsertSorted(x: Link, t: seq<Link>)
    requires SortedByOrder(t)
    ensures SortedByOrder(Insert(x, t))
  {
    if t != [] && x.order > t[0].order {
      var rest := Insert(x, t[1..]);
      InsertSorted(x, t[1..]);
      forall j | 0 <= j < |rest| ensures t[0].order <= rest[j].order {
        assert rest[j] in multiset(rest);
        assert rest[j] == x || rest[j] in t[1..];
      }
      ConsSorted(t[0], rest);
    }
  }

  /** A head no later than every element of a sorted tail gives a sorted list. */
  lemma ConsSorted(h: Link, rest: seq<Link>)
    requires SortedByOrder(rest)
    requires forall j :: 0 <= j < |rest| ==> h.order <= rest[j].order
    ensures SortedByOrder([h] + rest)
  {
    var r := [h] + rest;
    forall i, j | 0 <= i < j < |r| ensures r[i].order <= r[j].order {
      assert r[j] == rest[j - 1];
      if i > 0 {
        assert r[i] == rest[i - 1];
      }
    }
  }

  /** Insert keeps the elements of every `order` value in their relative order. */
  lemma {:induction false} InsertStable(x: Link, t: seq<Link>, v: int)
    ensures WithOrder(Insert(x, t), v) == (if x.order == v then [x] else []) + WithOrder(t, v)
  {
    if t == [] {
      WithOrderCons(x, [], v);
    } else if x.order <= t[0].order {
      WithOrderCons(x, t, v);
    } else {
      var rest := Insert(x, t[1..]);
      InsertStable(x, t[1..], v);
      WithOrderCons(t[0], rest, v);
      WithOrderCons(t[0], t[1..], v);
      assert t == [t[0]] + t[1..];
      var h := if t[0].order == v then [t[0]] else [];
      var hx := if x.order == v then [x] else [];
      var w := WithOrder(t[1..], v);
      assert WithOrder(Insert(x, t), v) == h + (hx + w);
      assert WithOrder(t, v) == h + w;
      // x.order > t[0].order, so at most one of the two heads has order v.
      if x.order == v {
        assert h == [];
        assert h + (hx + w) == hx + w;
        assert h + w == w;
      } else {
        assert hx == [];
        assert hx + w == w;
        assert hx + (h + w) == h + w;
      }
    }
  }

  lemma WithOrderCons(h: Link, t: seq<Link>, v: int)
    ensures WithOrder([h] + t, v) == (if h.order == v then [h] else []) + WithOrder(t, v)
  {
    assert ([h] + t)[0] == h && ([h] + t)[1..] == t;
  }

  /** The sort yields a sorted permutation of its input. */
  lemma {:induction false} SortByOrderSpec(s: seq<Link>)
    ensures |SortByOrder(s)| == |s|
    ensures multiset(SortByOrder(s)) == multiset(s)
    ensures SortedByOrder(SortByOrder(s))
  {
    if s != [] {
      SortByOrderSpec(s[1..]);
      InsertSorted(s[0], SortByOrder(s[1..]));
      assert s == [s[0]] + s[1..];
    }
  }

  /** The sort is stable: the links with a given `order` keep their input order. */
  lemma {:induction false} SortByOrderStable(s: seq<Link>, v: int)
    ensures WithOrder(SortByOrder(s), v) == WithOrder(s, v)
  {
    if s != [] {
      SortByOrderStable(s[1..], v);
      InsertStable(s[0], SortByOrder(s[1..]), v);
    }
  }

  /** `getLinks` is stable with respect to the Map's iteration order. */
  lemma LinksOfStable(m: map<int, Link>, keys: seq<int>, p: int, v: int)
    requires AllIn(m, keys)
    ensures WithOrder(LinksOf(m, keys, p), v) == WithOrder(OfProfile(Values(m, keys), p), v)
  {
    SortByOrderStable(OfProfile(Values(m, keys), p), v);
  }

  lemma {:induction false} InsertOrderThenId(x: Link, t: seq<Link>)
    requires OrderThenId(t)
    requires forall j :: 0 <= j < |t| ==> x.id < t[j].id
    ensures OrderThenId(Insert(x, t))
  {
    if t != [] && x.order > t[0].order {
      var rest := Insert(x, t[1..]);
      InsertOrderThenId(x, t[1..]);
      forall j | 0 <= j < |rest|
        ensures t[0].order < rest[j].order || (t[0].order == rest[j].order && t[0].id < rest[j].id)
      {
        assert rest[j] in multiset(rest);
        if rest[j] != x {
          assert rest[j] in t[1..];
          var k :| 0 <= k < |t[1..]| && t[1..][k] == rest[j];
          assert t[k + 1] == rest[j];
        }
      }
      ConsOrderThenId(t[0], rest);
    }
  }

  /** A head before every element of an (order, id)-sorted tail keeps it sorted. */
  lemma ConsOrderThenId(h: Link, rest: seq<Link>)
    requires OrderThenId(rest)
    requires forall j :: 0 <= j < |rest| ==>
      h.order < rest[j].order || (h.order == rest[j].order && h.id < rest[j].id)
    ensures OrderThenId([h] + rest)
  {
    var r := [h] + rest;
    forall i, j | 0 <= i < j < |r|
      ensures r[i].order < r[j].order || (r[i].order == r[j].order && r[i].id < r[j].id)
    {
      assert r[j] == rest[j - 1];
      if i > 0 {
        assert r[i] == rest[i - 1];
      }
    }
  }

  lemma {:induction false} SortOrderThenId(s: seq<Link>)
    requires IdsIncreasing(s)
    ensures OrderThenId(SortByOrder(s))
  {
    if s != [] {
      SortOrderThenId(s[1..]);
      SortByOrderSpec(s[1..]);
      var t := SortByOrder(s[1..]);
      forall j | 0 <= j < |t| ensures s[0].id < t[j].id {
        assert t[j] in multiset(s[1..]);
        var k :| 0 <= k < |s[1..]| && s[1..][k] == t[j];
        assert s[k + 1] == t[j];
      }
      InsertOrderThenId(s[0], t);
    }
  }

  lemma {:induction false} OfProfileIdsIncreasing(s: seq<Link>, p: int)
    requires IdsIncreasing(s)
    ensures IdsIncreasing(OfProfile(s, p))
  {
    if s != [] {
      OfProfileIdsIncreasing(s[1..], p);
      var rest := OfProfile(s[1..], p);
      OfProfileCount(s[1..], p);
      forall j | 0 <= j < |rest| ensures s[0].id < rest[j].id {
        assert rest[j] in multiset(rest);
        assert rest[j] in multiset(s[1..]);
        var k :| 0 <= k < |s[1..]| && s[1..][k] == rest[j];
        assert s[k + 1] == rest[j];
      }
    }
  }

  lemma ValuesIdsIncreasing(m: map<int, Link>, keys: seq<int>)
    requires AllIn(m, keys) && StrictlyIncreasing(keys) && IdsMatch(m)
    ensures IdsIncreasing(Values(m, keys))
  {
  }

  /**
   * Ties in `order` fall back to the Map's iteration order; when that order
   * is ascending by key and every record's `id` is its key, the result is
   * ascending by `order`, then by `id`.
   */
  lemma TiesByAscendingId(m: map<int, Link>, keys: seq<int>, p: int)
    requires AllIn(m, keys) && StrictlyIncreasing(keys)
    ensures IdsMatch(m) ==> OrderThenId(LinksOf(m, keys, p))
  {
    if IdsMatch(m) {
      ValuesIdsIncreasing(m, keys);
      OfProfileIdsIncreasing(Values(m, keys), p);
      SortOrderThenId(OfProfile(Values(m, keys), p));
    }
  }

  /**
   * A sorted sequence is determined by its elements when their orders are
   * distinct: it equals any strictly ordered sequence with the same elements.
   */
  lemma {:induction false} SortedUnique(a: seq<Link>, b: seq<Link>)
    requires SortedByOrder(a) && StrictlyByOrder(b)
    requires multiset(a) == multiset(b)
    ensures a == b
  {
    if a == [] {
      assert |b| == |multiset(b)| == 0;
    } else {
      HeadsEqual(a, b);
      TailsPermutation(a, b);
      SortedUnique(a[1..], b[1..]);
      assert a == [a[0]] + a[1..];
      assert b == [b[0]] + b[1..];
    }
  }

  /** The first of a sorted list is the first of its strictly sorted permutation. */
  lemma HeadsEqual(a: seq<Link>, b: seq<Link>)
    requires SortedByOrder(a) && StrictlyByOrder(b)
    requires multiset(a) == multiset(b) && a != []
    ensures b != [] && a[0] == b[0]
  {
    assert a[0] in multiset(b);
    var k :| 0 <= k < |b| && b[k] == a[0];
    assert b[0] in multiset(a);
    var j :| 0 <= j < |a| && a[j] == b[0];
    assert a[0].order <= a[j].order;
    assert k == 0;
  }

  /** Two permutations with the same first element have permuted tails. */
  lemma TailsPermutation(a: seq<Link>, b: seq<Link>)
    requires a != [] && b != [] && a[0] == b[0] && multiset(a) == multiset(b)
    ensures multiset(a[1..]) == multiset(b[1..])
  {
    assert a == [a[0]] + a[1..];
    assert b == [b[0]] + b[1..];
    assert multiset(a[1..]) == multiset(a) - multiset{a[0]};
    assert multiset(b[1..]) == multiset(b) - multiset{b[0]};
  }

  /** A value at two positions occurs at least twice. */
  lemma CountTwo(a: seq<Link>, i: nat, j: nat)
    requires i < j < |a|
    ensures a[i] == a[j] ==> multiset(a)[a[j]] >= 2
  {
    assert a == a[..j] + [a[j]] + a[j + 1..];
    assert a[i] in a[..j];
  }

  /** With distinct ids, every element occurs once. */
  lemma CountOne(b: seq<Link>, k: nat)
    requires NoDupIds(b) && k < |b|
    ensures multiset(b)[b[k]] == 1
  {
    assert b == b[..k] + [b[k]] + b[k + 1..];
    assert b[k] !in b[..k];
    assert b[k] !in b[k + 1..];
  }

  /** A permutation of a sequence with distinct ids has distinct ids. */
  lemma NoDupIdsOfPermutation(a: seq<Link>, b: seq<Link>)
    requires multiset(a) == multiset(b) && NoDupIds(b)
    ensures NoDupIds(a)
  {
    forall i, j | 0 <= i < j < |a| ensures a[i].id != a[j].id {
      assert a[i] in multiset(b) && a[j] in multiset(b);
      var i' :| 0 <= i' < |b| && b[i'] == a[i];
      var j' :| 0 <= j' < |b| && b[j'] == a[j];
      CountOne(b, i');
      CountTwo(a, i, j);
    }
  }

  /** A link with the largest `order` inserted at the back stays at the back. */
  lemma {:induction false} InsertBeforeLast(x: Link, t: seq<Link>, last: Link)
    requires x.order <= last.order
    ensures Insert(x, t + [last]) == Insert(x, t) + [last]
  {
    if t == [] {
    } else {
      assert (t + [last])[0] == t[0];
      assert (t + [last])[1..] == t[1..] + [last];
      if x.order > t[0].order {
        InsertBeforeLast(x, t[1..], last);
        assert Insert(x, t + [last]) == [t[0]] + (Insert(x, t[1..]) + [last]);
        assert [t[0]] + (Insert(x, t[1..]) + [last]) == ([t[0]] + Insert(x, t[1..])) + [last];
      } else {
        assert [x] + (t + [last]) == ([x] + t) + [last];
      }
    }
  }

  lemma {:induction false} SortAppendLast(s: seq<Link>, last: Link)
    requires forall j :: 0 <= j < |s| ==> s[j].order <= last.order
    ensures SortByOrder(s + [last]) == SortByOrder(s) + [last]
  {
    if s == [] {
    } else {
      assert (s + [last])[0] == s[0];
      assert (s + [last])[1..] == s[1..] + [last];
      SortAppendLast(s[1..], last);
      InsertBeforeLast(s[0], SortByOrder(s[1..]), last);
    }
  }

  lemma {:induction false} OfProfileAppend(s: seq<Link>, x: Link, p: int)
    requires x.profileId == p
    ensures OfProfile(s + [x], p) == OfProfile(s, p) + [x]
  {
    if s == [] {
      assert s + [x] == [x];
      assert [x][1..] == [];
      assert OfProfile([x], p) == [x] + OfProfile([], p);
    } else {
      var t := s + [x];
      assert t[0] == s[0];
      assert t[1..] == s[1..] + [x];
      OfProfileAppend(s[1..], x, p);
      var head := if s[0].profileId == p then [s[0]] else [];
      assert OfProfile(t, p) == head + OfProfile(s[1..] + [x], p);
      assert OfProfile(s, p) == head + OfProfile(s[1..], p);
    }
  }

  /** `Map.set` of a new key appends its record to the values in iteration order. */
  lemma ValuesAppend(m: map<int, Link>, keys: seq<int>, k: int, x: Link)
    requires AllIn(m, keys) && k !in m
    ensures AllIn(m[k := x], keys + [k])
    ensures Values(m[k := x], keys + [k]) == Values(m, keys) + [x]
  {
    var m' := m[k := x];
    assert AllIn(m', keys + [k]);
    var a := Values(m', keys + [k]);
    var b := Values(m, keys) + [x];
    assert |a| == |b|;
    forall i | 0 <= i < |a| ensures a[i] == b[i] {
      if i < |keys| {
        assert (keys + [k])[i] == keys[i];
      }
    }
  }

  /**
   * Adding a new key at the back of the iteration order, holding a link of
   * profile p whose `order` is at least every existing order of p, appends
   * that link to the end of `getLinks(p)`.
   */
  lemma LinksOfAppend(m: map<int, Link>, keys: seq<int>, p: int, k: int, x: Link)
    requires AllIn(m, keys) && k !in m && x.profileId == p
    requires forall j :: 0 <= j < |LinksOf(m, keys, p)| ==> LinksOf(m, keys, p)[j].order <= x.order
    ensures AllIn(m[k := x], keys + [k])
    ensures LinksOf(m[k := x], keys + [k], p) == LinksOf(m, keys, p) + [x]
  {
    ValuesAppend(m, keys, k, x);
    var vs := Values(m, keys);
    OfProfileAppend(vs, x, p);
    var f := OfProfile(vs, p);
    OrdersBelowOfPermutation(LinksOf(m, keys, p), f, x.order);
    SortAppendLast(f, x);
  }

  /** A bound on every `order` carries over to a permutation. */
  lemma OrdersBelowOfPermutation(l: seq<Link>, f: seq<Link>, bound: int)
    requires multiset(l) == multiset(f)
    requires forall j :: 0 <= j < |l| ==> l[j].order <= bound
    ensures forall j :: 0 <= j < |f| ==> f[j].order <= bound
  {
    forall j | 0 <= j < |f| ensures f[j].order <= bound {
      assert f[j] in multiset(l);
      var i :| 0 <= i < |l| && l[i] == f[j];
    }
  }

  /** A filter that no element passes leaves nothing. */
  lemma {:induction false} OfProfileNone(s: seq<Link>, p: int)
    requires forall i :: 0 <= i < |s| ==> s[i].profileId != p
    ensures OfProfile(s, p) == []
  {
    if s != [] {
      OfProfileNone(s[1..], p);
    }
  }

  /** A profile that owns no stored link gets the empty list. */
  lemma LinksOfUnknownProfile(m: map<int, Link>, keys: seq<int>, p: int)
    requires AllIn(m, keys)
    requires forall k :: k in m ==> m[k].profileId != p
    ensures LinksOf(m, keys, p) == []
  {
    var vs := Values(m, keys);
    forall i | 0 <= i < |vs| ensures vs[i].profileId != p {
      var k := keys[i];
      assert k in m;
      assert m[k].profileId != p;
      assert vs[i] == m[k];
    }
    OfProfileNone(vs, p);
    assert |multiset(LinksOf(m, keys, p))| == 0;
  }
}
