/** Which extension is in effect for each slug: installed MCP servers and skills
    are resolved by the same body, in which a user's own installation overrides the
    organization's. */
module Effective {
  import opened Wire

  datatype Scope = Org | User

  /** An installed extension; `id` stands for everything else in its row. */
  datatype Item = Item(slug: string, scope: Scope, id: nat)

  // ------------------------------------------------------------ string order

  predicate Less(a: string, b: string) {
    b != [] && (a == [] || a[0] < b[0] || (a[0] == b[0] && Less(a[1..], b[1..])))
  }

  lemma {:induction false} LessTransitive(a: string, b: string, c: string)
    requires Less(a, b) && Less(b, c)
    ensures Less(a, c)
  {
    if a != [] && a[0] == b[0] && b[0] == c[0] {
      LessTransitive(a[1..], b[1..], c[1..]);
    }
  }

  lemma {:induction false} LessTotal(a: string, b: string)
    ensures a != b ==> Less(a, b) || Less(b, a)
    ensures !(Less(a, b) && Less(b, a))
  {
    if a != [] && b != [] && a[0] == b[0] {
      LessTotal(a[1..], b[1..]);
      if a != b {
        assert a == [a[0]] + a[1..] && b == [b[0]] + b[1..];
      }
    }
  }

  /** The order of strings: a proper prefix comes first, and otherwise the first
      character that differs decides. */
  lemma {:induction false} LessExactlyWhen(a: string, b: string)
    ensures Less(a, b) <==> (a <= b && a != b) || exists k :: Differ(a, b, k) && a[k] < b[k]
  {
    if a != [] && b != [] && a[0] == b[0] {
      LessExactlyWhen(a[1..], b[1..]);
      assert a == [a[0]] + a[1..] && b == [b[0]] + b[1..];
      if k :| Differ(a[1..], b[1..], k) && a[1..][k] < b[1..][k] {
        assert Differ(a, b, k + 1) by { assert a[..k + 1] == [a[0]] + a[1..][..k] && b[..k + 1] == [b[0]] + b[1..][..k]; }
      }
      if k :| Differ(a, b, k) && a[k] < b[k] {
        assert Differ(a[1..], b[1..], k - 1) by { assert a[1..][..k - 1] == a[..k][1..] && b[1..][..k - 1] == b[..k][1..]; }
      }
    } else if a != [] && b != [] {
      assert a[0] < b[0] ==> Differ(a, b, 0);
      if k :| Differ(a, b, k) && a[k] < b[k] {
        assert k > 0 ==> a[..k][0] == b[..k][0];
      }
    }
  }

  /** The first place at which the two differ. */
  predicate Differ(a: string, b: string, k: int) {
    0 <= k < |a| && k < |b| && a[..k] == b[..k] && a[k] != b[k]
  }

  predicate SortedBySlug(s: seq<Item>) {
    forall i, j :: 0 <= i < j < |s| ==> Less(s[i].slug, s[j].slug)
  }

  // ------------------------------------------------------------ what wins

  /** The first item of the list with this slug and scope. */
  function FirstWith(xs: seq<Item>, slug: string, scope: Scope): Option<Item> {
    if xs == [] then None
    else if xs[0].slug == slug && xs[0].scope == scope then Some(xs[0])
    else FirstWith(xs[1..], slug, scope)
  }

  /** The first user-scope item if there is one, otherwise the first org-scope one. */
  function Winner(xs: seq<Item>, slug: string): Option<Item> {
    if FirstWith(xs, slug, User).Some? then FirstWith(xs, slug, User) else FirstWith(xs, slug, Org)
  }

  /** Who wins, by positions: the winner is the item at some position such that, among
      the items with its slug, it is the first of its scope, and it is a user's unless
      there is none. */
  lemma {:induction false} WinnerIsFirst(xs: seq<Item>, slug: string)
    ensures Winner(xs, slug).Some? ==> exists i :: Wins(xs, slug, i) && xs[i] == Winner(xs, slug).value
    ensures Winner(xs, slug).None? ==> forall i :: 0 <= i < |xs| ==> xs[i].slug != slug
  {
    FirstWithIsFirst(xs, slug, User);
    FirstWithIsFirst(xs, slug, Org);
    if Winner(xs, slug).Some? {
      var scope := if FirstWith(xs, slug, User).Some? then User else Org;
      var i :| FirstAt(xs, slug, scope, i) && xs[i] == Winner(xs, slug).value;
      assert Wins(xs, slug, i);
    }
  }

  predicate FirstAt(xs: seq<Item>, slug: string, scope: Scope, i: int) {
    && 0 <= i < |xs| && xs[i].slug == slug && xs[i].scope == scope
    && forall j :: 0 <= j < i ==> !(xs[j].slug == slug && xs[j].scope == scope)
  }

  predicate Wins(xs: seq<Item>, slug: string, i: int) {
    && 0 <= i < |xs| && FirstAt(xs, slug, xs[i].scope, i)
    && (xs[i].scope == User || forall j :: 0 <= j < |xs| && xs[j].slug == slug ==> xs[j].scope != User)
  }

  lemma {:induction false} FirstWithIsFirst(xs: seq<Item>, slug: string, scope: Scope)
    ensures FirstWith(xs, slug, scope).Some? ==> exists i :: FirstAt(xs, slug, scope, i) && xs[i] == FirstWith(xs, slug, scope).value
    ensures FirstWith(xs, slug, scope).None? ==> forall i :: 0 <= i < |xs| ==> !(xs[i].slug == slug && xs[i].scope == scope)
  {
    if xs != [] && !(xs[0].slug == slug && xs[0].scope == scope) {
      var rest := xs[1..];
      FirstWithIsFirst(rest, slug, scope);
      if i :| FirstAt(rest, slug, scope, i) && rest[i] == FirstWith(rest, slug, scope).value {
        assert xs[i + 1] == rest[i];
        assert forall j :: 0 < j <= i ==> xs[j] == rest[j - 1];
        assert FirstAt(xs, slug, scope, i + 1);
      }
      assert forall i :: 0 < i < |xs| ==> xs[i] == rest[i - 1];
    } else if xs != [] {
      assert FirstAt(xs, slug, scope, 0);
    }
  }

  /** The list that resolution must return: strictly sorted, one item per slug that
      occurs, namely the winner. */
  ghost predicate Resolves(xs: seq<Item>, r: seq<Item>) {
    && SortedBySlug(r)
    && (forall i :: 0 <= i < |r| ==> Winner(xs, r[i].slug) == Some(r[i]))
    && (forall k :: 0 <= k < |xs| ==> HasSlug(r, xs[k].slug))
  }

  ghost predicate HasSlug(r: seq<Item>, slug: string) {
    exists i :: 0 <= i < |r| && r[i].slug == slug
  }

  lemma {:induction false} WinnerOccurs(xs: seq<Item>, slug: string)
    ensures Winner(xs, slug).Some? <==> HasSlug(xs, slug)
    ensures Winner(xs, slug).Some? ==> Winner(xs, slug).value in xs && Winner(xs, slug).value.slug == slug
  {
    if xs != [] {
      WinnerOccurs(xs[1..], slug);
      if i :| 0 <= i < |xs| && xs[i].slug == slug {
        assert i > 0 ==> xs[1..][i - 1] == xs[i];
      }
      if i :| 0 <= i < |xs[1..]| && xs[1..][i].slug == slug {
        assert xs[i + 1].slug == slug;
      }
    }
  }

  /** Only one list resolves the input, so the order in which the map is iterated
      cannot matter. */
  lemma {:induction false} ResolutionUnique(xs: seq<Item>, a: seq<Item>, b: seq<Item>)
    requires Resolves(xs, a) && Resolves(xs, b)
    ensures a == b
  {
    SameSlugs(xs, a, b);
    SameSlugs(xs, b, a);
    SortedSame(a, b);
  }

  ghost predicate AllIn(a: seq<Item>, b: seq<Item>) {
    forall x :: x in a ==> x in b
  }

  lemma SameSlugs(xs: seq<Item>, a: seq<Item>, b: seq<Item>)
    requires Resolves(xs, a) && Resolves(xs, b)
    ensures AllIn(a, b)
  {
    forall x | x in a ensures x in b {
      WinnerOccurs(xs, x.slug);
      var k :| 0 <= k < |xs| && xs[k] == x;
      assert HasSlug(b, xs[k].slug);
      var j :| 0 <= j < |b| && b[j].slug == x.slug;
    }
  }

  lemma {:induction false} SortedSame(a: seq<Item>, b: seq<Item>)
    requires SortedBySlug(a) && SortedBySlug(b) && AllIn(a, b) && AllIn(b, a)
    ensures a == b
  {
    NonEmptyToo(a, b);
    NonEmptyToo(b, a);
    if a != [] {
      SameHead(a, b);
      TailIn(a, b);
      TailIn(b, a);
      SortedSame(a[1..], b[1..]);
      assert a == [a[0]] + a[1..] && b == [b[0]] + b[1..];
    }
  }

  lemma NonEmptyToo(a: seq<Item>, b: seq<Item>)
    requires AllIn(a, b)
    ensures a != [] ==> b != []
  {
    if a != [] {
      assert a[0] in b;
    }
  }

  /** The smallest item comes first in both. */
  lemma SameHead(a: seq<Item>, b: seq<Item>)
    requires SortedBySlug(a) && SortedBySlug(b) && a != [] && b != [] && AllIn(a, b) && AllIn(b, a)
    ensures a[0] == b[0]
  {
    assert b[0] in a && a[0] in b;
    var i :| 0 <= i < |a| && a[i] == b[0];
    var j :| 0 <= j < |b| && b[j] == a[0];
    LessTotal(a[0].slug, b[0].slug);
  }

  lemma TailIn(a: seq<Item>, b: seq<Item>)
    requires SortedBySlug(a) && a != [] && b != [] && a[0] == b[0] && AllIn(a, b)
    ensures AllIn(a[1..], b[1..])
  {
    forall x | x in a[1..] ensures x in b[1..] {
      var i :| 1 <= i < |a| && a[i] == x;
      LessTotal(a[0].slug, a[i].slug);
      assert x in b;
      var j :| 0 <= j < |b| && b[j] == x;
      assert j > 0 && b[1..][j - 1] == x;
    }
  }

  // ---------------------------------------------------------------- the code

  /** The map after the first loop has seen `xs`. */
  ghost predicate Deduplicated(xs: seq<Item>, seen: map<string, Item>) {
    && (forall s :: s in seen ==> Winner(xs, s) == Some(seen[s]))
    && (forall k :: 0 <= k < |xs| ==> xs[k].slug in seen)
  }

  lemma {:induction false} FirstWithAppend(xs: seq<Item>, x: Item, slug: string, scope: Scope)
    ensures FirstWith(xs + [x], slug, scope) ==
            if FirstWith(xs, slug, scope).Some? then FirstWith(xs, slug, scope)
            else if x.slug == slug && x.scope == scope then Some(x) else None
  {
    if xs == [] {
      assert (xs + [x])[1..] == [];
    } else {
      assert (xs + [x])[1..] == xs[1..] + [x];
      FirstWithAppend(xs[1..], x, slug, scope);
    }
  }

  lemma {:induction false} FirstWithScope(xs: seq<Item>, slug: string, scope: Scope)
    ensures FirstWith(xs, slug, scope).Some? ==> FirstWith(xs, slug, scope).value.scope == scope
  {
    if xs != [] {
      FirstWithScope(xs[1..], slug, scope);
    }
  }

  /** One more item: keep the first, unless a user's item meets an organization's. */
  lemma DeduplicateStep(xs: seq<Item>, x: Item, seen: map<string, Item>)
    requires Deduplicated(xs, seen)
    ensures Deduplicated(xs + [x],
                         if x.slug !in seen || (x.scope == User && seen[x.slug].scope == Org) then seen[x.slug := x] else seen)
  {
    var next := if x.slug !in seen || (x.scope == User && seen[x.slug].scope == Org) then seen[x.slug := x] else seen;
    forall s | s in next ensures Winner(xs + [x], s) == Some(next[s]) {
      FirstWithAppend(xs, x, s, User);
      FirstWithAppend(xs, x, s, Org);
      FirstWithScope(xs, s, User);
      FirstWithScope(xs, s, Org);
      WinnerOccurs(xs, s);
    }
    forall k | 0 <= k < |xs + [x]| ensures (xs + [x])[k].slug in next {
      if k < |xs| { assert (xs + [x])[k] == xs[k]; }
    }
  }

  /** Inserts an item in front of the first one that is not smaller. */
  method InsertBySlug(sorted: seq<Item>, x: Item) returns (r: seq<Item>)
    requires SortedBySlug(sorted) && forall i :: 0 <= i < |sorted| ==> sorted[i].slug != x.slug
    ensures SortedBySlug(r) && multiset(r) == multiset(sorted) + multiset{x}
  {
    var k := 0;
    while k < |sorted| && Less(sorted[k].slug, x.slug)
      invariant 0 <= k <= |sorted| && forall i :: 0 <= i < k ==> Less(sorted[i].slug, x.slug)
    {
      k := k + 1;
    }
    r := sorted[..k] + [x] + sorted[k..];
    assert sorted == sorted[..k] + sorted[k..];
    if k < |sorted| { LessTotal(sorted[k].slug, x.slug); }
    forall i | k <= i < |sorted| ensures Less(x.slug, sorted[i].slug) {
      if i > k { LessTransitive(x.slug, sorted[k].slug, sorted[i].slug); }
    }
  }

  /** Sorting items with distinct slugs. */
  method SortBySlug(items: seq<Item>) returns (r: seq<Item>)
    requires forall i, j :: 0 <= i < j < |items| ==> items[i].slug != items[j].slug
    ensures SortedBySlug(r) && multiset(r) == multiset(items)
  {
    r := [];
    for i := 0 to |items|
      invariant SortedBySlug(r) && multiset(r) == multiset(items[..i])
    {
      assert items[..i + 1] == items[..i] + [items[i]];
      forall j | 0 <= j < |r| ensures r[j].slug != items[i].slug {
        assert r[j] in multiset(r);
        assert r[j] in items[..i];
      }
      r := InsertBySlug(r, items[i]);
    }
    assert items[..|items|] == items;
  }

  /** The dedup-and-sort body of GetEffectiveMcpServers and GetEffectiveSkills, for
      any input list and any iteration order of the map. */
  method GetEffective(xs: seq<Item>) returns (result: seq<Item>)
    ensures Resolves(xs, result)
    ensures forall other :: Resolves(xs, other) ==> other == result
    ensures forall i :: 0 <= i < |result| ==> exists j :: Wins(xs, result[i].slug, j) && xs[j] == result[i]
  {
    var seen: map<string, Item> := map[];
    for i := 0 to |xs|
      invariant Deduplicated(xs[..i], seen)
    {
      var x := xs[i];
      DeduplicateStep(xs[..i], x, seen);
      assert xs[..i + 1] == xs[..i] + [x];
      if x.slug !in seen {
        seen := seen[x.slug := x];
      } else if x.scope == User && seen[x.slug].scope == Org {
        seen := seen[x.slug := x];
      }
    }
    assert xs[..|xs|] == xs;
    var collected := Collect(xs, seen);
    result := SortBySlug(collected);
    SortedResolves(xs, seen, collected, result);
    forall other | Resolves(xs, other) ensures other == result {
      ResolutionUnique(xs, other, result);
    }
    forall i | 0 <= i < |result| ensures exists j :: Wins(xs, result[i].slug, j) && xs[j] == result[i] {
      WinnerIsFirst(xs, result[i].slug);
    }
  }

  /** The collecting loop: the map's values, in whatever order it is iterated. */
  method Collect(ghost xs: seq<Item>, seen: map<string, Item>) returns (items: seq<Item>)
    requires Deduplicated(xs, seen)
    ensures forall i :: 0 <= i < |items| ==> items[i].slug in seen && seen[items[i].slug] == items[i]
    ensures forall s :: s in seen ==> seen[s] in items
    ensures forall i, j :: 0 <= i < j < |items| ==> items[i].slug != items[j].slug
  {
    items := [];
    var todo := seen.Keys;
    while todo != {}
      invariant todo <= seen.Keys
      invariant forall i :: 0 <= i < |items| ==>
                              items[i].slug in seen && items[i].slug !in todo && seen[items[i].slug] == items[i]
      invariant forall s :: s in seen && s !in todo ==> seen[s] in items
      invariant forall i, j :: 0 <= i < j < |items| ==> items[i].slug != items[j].slug
      decreases todo
    {
      var s :| s in todo;
      WinnerOccurs(xs, s);
      items, todo := items + [seen[s]], todo - {s};
    }
  }

  lemma SortedResolves(xs: seq<Item>, seen: map<string, Item>, items: seq<Item>, r: seq<Item>)
    requires Deduplicated(xs, seen) && SortedBySlug(r) && multiset(r) == multiset(items)
    requires forall i :: 0 <= i < |items| ==> items[i].slug in seen && seen[items[i].slug] == items[i]
    requires forall s :: s in seen ==> seen[s] in items
    ensures Resolves(xs, r)
  {
    forall i | 0 <= i < |r| ensures Winner(xs, r[i].slug) == Some(r[i]) {
      assert r[i] in multiset(items);
    }
    forall k | 0 <= k < |xs| ensures HasSlug(r, xs[k].slug) {
      var x := seen[xs[k].slug];
      WinnerOccurs(xs, xs[k].slug);
      assert x in multiset(items);
      assert x in r;
      var i :| 0 <= i < |r| && r[i] == x;
    }
  }
}
