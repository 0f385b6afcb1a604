/** The runner's agent cache and the deltas it reports: a replica that applies the
    reported lists in order always equals the cache. Probing itself is an
    arbitrary list of results. */
module AgentProbe {
  import opened Wire

  type Slug = string

  datatype Entry = Entry(version: string, path: string)

  datatype ProbeResult = ProbeResult(slug: Slug, version: string, path: string, found: bool)

  datatype Info = Info(slug: Slug, version: string, path: string)

  type Cache = map<Slug, Entry>

  /** A command that was found has a path. */
  predicate Sound(rs: seq<ProbeResult>) {
    forall i :: 0 <= i < |rs| && rs[i].found ==> rs[i].path != ""
  }

  function Lookup(c: Cache, s: Slug): Option<Entry> {
    if s in c then Some(c[s]) else None
  }

  function Outcome(r: ProbeResult): Option<Entry> {
    if r.found then Some(Entry(r.version, r.path)) else None
  }

  // ------------------------------------------------------------- the replica

  /** The receiver's rule: an empty version and path mean removal. */
  function Apply(c: Cache, i: Info): Cache {
    if i.version == "" && i.path == "" then c - {i.slug} else c[i.slug := Entry(i.version, i.path)]
  }

  function ApplyAll(c: Cache, infos: seq<Info>): Cache {
    if infos == [] then c else Apply(ApplyAll(c, infos[..|infos| - 1]), infos[|infos| - 1])
  }

  lemma {:induction false} ApplyConcat(c: Cache, a: seq<Info>, b: seq<Info>)
    ensures ApplyAll(c, a + b) == ApplyAll(ApplyAll(c, a), b)
  {
    if b == [] {
      assert a + b == a;
    } else {
      ApplyConcat(c, a, b[..|b| - 1]);
      assert (a + b)[..|a + b| - 1] == a + b[..|b| - 1];
    }
  }

  /** The receiver's own way of applying a diff: first the last entry for each slug,
      then one removal or replacement per slug, in whatever order. */
  function Incoming(infos: seq<Info>): map<Slug, Info> {
    if infos == [] then map[] else Incoming(infos[..|infos| - 1])[infos[|infos| - 1].slug := infos[|infos| - 1]]
  }

  predicate Removes(i: Info) {
    i.version == "" && i.path == ""
  }

  function Merge(c: Cache, changes: map<Slug, Info>): Cache {
    map s | s in c.Keys + changes.Keys && (s in changes ==> !Removes(changes[s])) ::
      if s in changes then Entry(changes[s].version, changes[s].path) else c[s]
  }

  /** Merging is folding: the receiver ends up as if it had applied the list entry
      by entry. */
  lemma {:induction false} MergeIsFold(c: Cache, infos: seq<Info>)
    ensures Merge(c, Incoming(infos)) == ApplyAll(c, infos)
  {
    if infos != [] {
      MergeIsFold(c, infos[..|infos| - 1]);
      MergeOne(c, Incoming(infos[..|infos| - 1]), infos[|infos| - 1]);
    }
  }

  lemma MergeOne(c: Cache, changes: map<Slug, Info>, i: Info)
    ensures Merge(c, changes[i.slug := i]) == Apply(Merge(c, changes), i)
  {
    var m, n := Merge(c, changes[i.slug := i]), Apply(Merge(c, changes), i);
    assert forall s :: s in m <==> s in n;
    assert forall s :: s in m ==> m[s] == n[s];
  }

  // ---------------------------------------------------------------- the diff

  function Report(r: ProbeResult): Info {
    if r.found then Info(r.slug, r.version, r.path) else Info(r.slug, "", "")
  }

  /** One result against the cache: nothing when it says what the cache says. */
  function Update(c: Cache, r: ProbeResult): (Cache, seq<Info>) {
    if Lookup(c, r.slug) == Outcome(r) then (c, [])
    else ((if r.found then c[r.slug := Entry(r.version, r.path)] else c - {r.slug}), [Report(r)])
  }

  function UpdateAll(c: Cache, rs: seq<ProbeResult>): (Cache, seq<Info>) {
    if rs == [] then (c, [])
    else
      var (d, infos) := UpdateAll(c, rs[..|rs| - 1]);
      var (e, more) := Update(d, rs[|rs| - 1]);
      (e, infos + more)
  }

  function Probed(rs: seq<ProbeResult>): set<Slug> {
    set i | 0 <= i < |rs| :: rs[i].slug
  }

  function Removals(order: seq<Slug>): seq<Info> {
    seq(|order|, i requires 0 <= i < |order| => Info(order[i], "", ""))
  }

  predicate Enumerates(order: seq<Slug>, s: set<Slug>) {
    && (forall i :: 0 <= i < |order| ==> order[i] in s)
    && (forall x :: x in s ==> x in order)
    && (forall i, j :: 0 <= i < j < |order| ==> order[i] != order[j])
  }

  /** A whole ProbeAndDiff from cache `c` to cache `d`, reporting `infos`: the
      results one by one, then the cached agents that were not probed, in whatever
      order the map is iterated. */
  ghost predicate Diffs(c: Cache, rs: seq<ProbeResult>, d: Cache, infos: seq<Info>) {
    var (e, first) := UpdateAll(c, rs);
    exists order :: Enumerates(order, e.Keys - Probed(rs)) && d == e - (e.Keys - Probed(rs)) && infos == first + Removals(order)
  }

  lemma {:induction false} UpdateAllReplicates(c: Cache, rs: seq<ProbeResult>)
    requires Sound(rs)
    ensures ApplyAll(c, UpdateAll(c, rs).1) == UpdateAll(c, rs).0
  {
    if rs != [] {
      var front, r := rs[..|rs| - 1], rs[|rs| - 1];
      UpdateAllReplicates(c, front);
      var (d, infos) := UpdateAll(c, front);
      ApplyConcat(c, infos, Update(d, r).1);
      assert Update(d, r).1 != [] ==> Update(d, r).1[..0] == [];
    }
  }

  lemma {:induction false} RemovalsReplicate(c: Cache, order: seq<Slug>)
    ensures ApplyAll(c, Removals(order)) == c - (set x | x in order)
    decreases |order|
  {
    if order != [] {
      var front, x := order[..|order| - 1], order[|order| - 1];
      RemovalsReplicate(c, front);
      assert Removals(order)[..|order| - 1] == Removals(front);
      assert order == front + [x];
      assert (set y | y in order) == (set y | y in front) + {x};
    }
  }

  /** One diff carries the replica from the old cache to the new one. */
  lemma DiffReplicates(c: Cache, rs: seq<ProbeResult>, d: Cache, infos: seq<Info>)
    requires Sound(rs) && Diffs(c, rs, d, infos)
    ensures ApplyAll(c, infos) == d
  {
    var (e, first) := UpdateAll(c, rs);
    var gone := e.Keys - Probed(rs);
    var order :| Enumerates(order, gone) && infos == first + Removals(order);
    UpdateAllReplicates(c, rs);
    ApplyConcat(c, first, Removals(order));
    RemovesExactly(e, order, gone);
  }

  lemma RemovesExactly(c: Cache, order: seq<Slug>, gone: set<Slug>)
    requires Enumerates(order, gone)
    ensures ApplyAll(c, Removals(order)) == c - gone
  {
    RemovalsReplicate(c, order);
    assert (set x | x in order) == gone;
  }

  /** What the last result for a slug says; nothing if the slug was not probed. */
  function LastOutcome(rs: seq<ProbeResult>, s: Slug): Option<Entry> {
    if rs == [] then None
    else if rs[|rs| - 1].slug == s then Outcome(rs[|rs| - 1])
    else LastOutcome(rs[..|rs| - 1], s)
  }

  lemma {:induction false} UpdateAllLast(c: Cache, rs: seq<ProbeResult>, s: Slug)
    ensures Lookup(UpdateAll(c, rs).0, s) == if s in Probed(rs) then LastOutcome(rs, s) else Lookup(c, s)
  {
    if rs != [] {
      var front, r := rs[..|rs| - 1], rs[|rs| - 1];
      UpdateAllLast(c, front, s);
      assert s in Probed(rs) <==> s in Probed(front) || s == r.slug by {
        assert forall i :: 0 <= i < |front| ==> rs[i] == front[i];
        if s in Probed(front) { var i :| 0 <= i < |front| && front[i].slug == s; assert rs[i].slug == s; }
        assert rs[|rs| - 1].slug == r.slug;
      }
    }
  }

  lemma {:induction false} LastOutcomeProbed(rs: seq<ProbeResult>, s: Slug)
    ensures s !in Probed(rs) ==> LastOutcome(rs, s) == None
  {
    if rs != [] {
      LastOutcomeProbed(rs[..|rs| - 1], s);
      assert rs[|rs| - 1].slug in Probed(rs);
      assert forall i :: 0 <= i < |rs| - 1 ==> rs[i].slug in Probed(rs) && rs[..|rs| - 1][i] == rs[i];
    }
  }

  /** After a diff the cache says exactly what the results say: for each slug the last
      result, and nothing about a slug that was not found or not probed. */
  lemma DiffCacheIsResults(c: Cache, rs: seq<ProbeResult>, d: Cache, infos: seq<Info>, s: Slug)
    requires Diffs(c, rs, d, infos)
    ensures Lookup(d, s) == LastOutcome(rs, s)
  {
    UpdateAllLast(c, rs, s);
    LastOutcomeProbed(rs, s);
  }

  // ------------------------------------------------------------ a whole session

  /** A session: full probes, whose list replaces the replica, and diffs. */
  datatype Event = Full(results: seq<ProbeResult>) | Diff(results: seq<ProbeResult>, cache: Cache, infos: seq<Info>)

  function FoundInfos(rs: seq<ProbeResult>): seq<Info> {
    if rs == [] then []
    else FoundInfos(rs[..|rs| - 1]) + (if rs[|rs| - 1].found then [Report(rs[|rs| - 1])] else [])
  }

  /** The cache after ProbeAll: the last result found for each slug. */
  function Found(rs: seq<ProbeResult>): Cache {
    if rs == [] then map[]
    else
      var c, r := Found(rs[..|rs| - 1]), rs[|rs| - 1];
      if r.found then c[r.slug := Entry(r.version, r.path)] else c
  }

  /** A full probe leaves exactly the slugs found, each with its last result found. */
  lemma {:induction false} FoundIsLastFound(rs: seq<ProbeResult>, s: Slug)
    ensures s in Found(rs) <==> exists i :: 0 <= i < |rs| && rs[i].found && rs[i].slug == s
    ensures s in Found(rs) ==> exists i :: LastFoundAt(rs, s, i) && Found(rs)[s] == Entry(rs[i].version, rs[i].path)
  {
    if rs != [] {
      var front, r := rs[..|rs| - 1], rs[|rs| - 1];
      FoundIsLastFound(front, s);
      if r.found && r.slug == s {
        assert LastFoundAt(rs, s, |rs| - 1);
      } else {
        if i :| LastFoundAt(front, s, i) && Found(front)[s] == Entry(front[i].version, front[i].path) {
          assert LastFoundAt(rs, s, i);
        }
        if i :| 0 <= i < |rs| && rs[i].found && rs[i].slug == s { assert front[i] == rs[i]; }
      }
    }
  }

  predicate LastFoundAt(rs: seq<ProbeResult>, s: Slug, i: int) {
    && 0 <= i < |rs| && rs[i].found && rs[i].slug == s
    && forall j :: i < j < |rs| ==> !(rs[j].found && rs[j].slug == s)
  }

  ghost predicate Session(es: seq<Event>) {
    es == [] ||
    (Session(es[..|es| - 1]) && Sound(es[|es| - 1].results) &&
     (es[|es| - 1].Diff? ==> Diffs(CacheAfter(es[..|es| - 1]), es[|es| - 1].results, es[|es| - 1].cache, es[|es| - 1].infos)))
  }

  function CacheAfter(es: seq<Event>): Cache {
    if es == [] then map[]
    else
      match es[|es| - 1]
      case Full(rs) => Found(rs)
      case Diff(_, c, _) => c
  }

  /** The receiver: a full list replaces what it has, except that an empty one is
      taken for an old runner's silence and ignored. */
  function ReplicaAfter(es: seq<Event>): Cache {
    if es == [] then map[]
    else
      var before := ReplicaAfter(es[..|es| - 1]);
      match es[|es| - 1]
      case Full(rs) => if FoundInfos(rs) == [] then before else ApplyAll(map[], FoundInfos(rs))
      case Diff(_, _, infos) => Merge(before, Incoming(infos))
  }

  /** The slugs that an ignored empty list has left behind at the receiver and no
      diff has named since. */
  ghost function Stale(es: seq<Event>): set<Slug> {
    if es == [] then {}
    else
      var rest := es[..|es| - 1];
      match es[|es| - 1]
      case Full(rs) => if FoundInfos(rs) == [] then CacheAfter(rest).Keys + Stale(rest) else {}
      case Diff(_, _, infos) => Stale(rest) - Incoming(infos).Keys
  }

  lemma {:induction false} FullReplicates(rs: seq<ProbeResult>)
    requires Sound(rs)
    ensures ApplyAll(map[], FoundInfos(rs)) == Found(rs)
  {
    if rs != [] {
      var front, r := rs[..|rs| - 1], rs[|rs| - 1];
      FullReplicates(front);
      var one := if r.found then [Report(r)] else [];
      ApplyConcat(map[], FoundInfos(front), one);
      assert one != [] ==> one[..0] == [];
    }
  }

  lemma {:induction false} NothingFound(rs: seq<ProbeResult>)
    ensures FoundInfos(rs) == [] ==> Found(rs) == map[]
  {
    if rs != [] {
      NothingFound(rs[..|rs| - 1]);
    }
  }

  /** The replica is the cache plus leftovers. */
  ghost predicate Leftover(cache: Cache, replica: Cache, stale: set<Slug>) {
    && replica.Keys == cache.Keys + stale && cache.Keys !! stale
    && forall s :: s in cache ==> replica[s] == cache[s]
  }

  lemma MergeLeftover(cache: Cache, replica: Cache, stale: set<Slug>, changes: map<Slug, Info>)
    requires Leftover(cache, replica, stale)
    ensures Leftover(Merge(cache, changes), Merge(replica, changes), stale - changes.Keys)
  {
  }

  lemma {:induction false} ReplicaIsCachePlusStale(es: seq<Event>)
    requires Session(es)
    ensures Leftover(CacheAfter(es), ReplicaAfter(es), Stale(es))
  {
    if es != [] {
      var rest, e := es[..|es| - 1], es[|es| - 1];
      ReplicaIsCachePlusStale(rest);
      match e
      case Full(rs) =>
        FullReplicates(rs);
        NothingFound(rs);
      case Diff(rs, c, infos) =>
        DiffReplicates(CacheAfter(rest), rs, c, infos);
        MergeIsFold(CacheAfter(rest), infos);
        MergeLeftover(CacheAfter(rest), ReplicaAfter(rest), Stale(rest), Incoming(infos));
    }
  }

  /** Replica agreement: after any session of probes, duplicates and all, the
      receiver holds exactly the runner's cache if and only if no slug is left over
      from a full probe that found nothing. */
  lemma ReplicaAgreement(es: seq<Event>)
    requires Session(es)
    ensures ReplicaAfter(es) == CacheAfter(es) <==> Stale(es) == {}
  {
    ReplicaIsCachePlusStale(es);
  }

  /** A full probe that finds nothing, of a runner whose cache was not empty. */
  predicate Forgets(es: seq<Event>) {
    es != [] && es[|es| - 1].Full? && FoundInfos(es[|es| - 1].results) == [] && CacheAfter(es[..|es| - 1]) != map[]
  }

  ghost predicate AlwaysAgrees(es: seq<Event>) {
    ReplicaAfter(es) == CacheAfter(es) && (es == [] || AlwaysAgrees(es[..|es| - 1]))
  }

  predicate EverForgets(es: seq<Event>) {
    es != [] && (Forgets(es) || EverForgets(es[..|es| - 1]))
  }

  /** The two agree throughout a session if and only if the runner never comes up
      with nothing after having had something. */
  lemma {:induction false} AgreesThroughoutExactlyWhen(es: seq<Event>)
    requires Session(es)
    ensures AlwaysAgrees(es) <==> !EverForgets(es)
  {
    if es != [] {
      AgreesThroughoutExactlyWhen(es[..|es| - 1]);
      ReplicaAgreement(es);
      ReplicaAgreement(es[..|es| - 1]);
    }
  }

  /** The leftovers are real: one agent found, then none. */
  lemma EmptyListLeavesStale(r: ProbeResult) returns (es: seq<Event>)
    requires r.found && r.path != ""
    ensures Session(es) && CacheAfter(es) == map[] && r.slug in ReplicaAfter(es)
  {
    var one := [Full([r])];
    assert one[..0] == [] && [r][..0] == [];
    assert Sound([r]) && Session(one);
    es := one + [Full([])];
    assert es[..1] == one;
    ReplicaIsCachePlusStale(one);
  }

  // ------------------------------------------------------------- exact deltas

  ghost predicate Names(infos: seq<Info>, s: Slug) {
    exists i :: 0 <= i < |infos| && infos[i].slug == s
  }

  predicate OncePerSlug(infos: seq<Info>) {
    forall i, j :: 0 <= i < j < |infos| ==> infos[i].slug != infos[j].slug
  }

  /** The list names the slugs whose cached state changed, each of them once. */
  ghost predicate Exact(c: Cache, d: Cache, infos: seq<Info>) {
    OncePerSlug(infos) && forall s :: Names(infos, s) <==> Lookup(c, s) != Lookup(d, s)
  }

  /** Results for the same slug do not contradict each other. */
  predicate Consistent(rs: seq<ProbeResult>) {
    forall i, j :: 0 <= i < j < |rs| && rs[i].slug == rs[j].slug ==> Outcome(rs[i]) == Outcome(rs[j])
  }

  lemma NamesAppend(a: seq<Info>, b: seq<Info>, s: Slug)
    ensures Names(a + b, s) <==> Names(a, s) || Names(b, s)
  {
    if i :| 0 <= i < |a| && a[i].slug == s { assert (a + b)[i] == a[i]; }
    if i :| 0 <= i < |b| && b[i].slug == s { assert (a + b)[|a| + i] == b[i]; }
  }

  /** What holds after the results `rs` have been compared. */
  ghost predicate Reported(c: Cache, rs: seq<ProbeResult>, d: Cache, infos: seq<Info>) {
    && Exact(c, d, infos)
    && (forall i :: 0 <= i < |rs| ==> Lookup(d, rs[i].slug) == Outcome(rs[i]))
    && (forall s :: s !in Probed(rs) ==> Lookup(d, s) == Lookup(c, s))
  }

  /** A result that changes the cache is the first one for its slug. */
  lemma ChangeIsNew(c: Cache, rs: seq<ProbeResult>, r: ProbeResult, d: Cache, infos: seq<Info>)
    requires Reported(c, rs, d, infos) && Consistent(rs + [r]) && Lookup(d, r.slug) != Outcome(r)
    ensures r.slug !in Probed(rs) && !Names(infos, r.slug)
  {
    var all := rs + [r];
    forall i | 0 <= i < |rs| ensures rs[i].slug != r.slug {
      assert all[i] == rs[i] && all[|rs|] == r;
    }
  }

  lemma UpdateReports(c: Cache, rs: seq<ProbeResult>, r: ProbeResult, d: Cache, infos: seq<Info>)
    requires Reported(c, rs, d, infos) && Consistent(rs + [r])
    ensures var (e, more) := Update(d, r); Reported(c, rs + [r], e, infos + more)
  {
    var all := rs + [r];
    assert Probed(all) == Probed(rs) + {r.slug} by {
      assert forall i :: 0 <= i < |rs| ==> all[i] == rs[i];
      assert all[|rs|] == r;
    }
    if Lookup(d, r.slug) == Outcome(r) {
      assert infos + [] == infos;
    } else {
      ChangeIsNew(c, rs, r, d, infos);
      var e, more := Update(d, r).0, [Report(r)];
      forall s ensures Names(infos + more, s) <==> Lookup(c, s) != Lookup(e, s) {
        NamesAppend(infos, more, s);
        assert Names(more, s) <==> s == r.slug by { assert more[0].slug == r.slug; }
      }
      forall i | 0 <= i < |infos| ensures infos[i].slug != r.slug { assert Names(infos, infos[i].slug); }
    }
  }

  lemma {:induction false} UpdateAllExact(c: Cache, rs: seq<ProbeResult>)
    requires Consistent(rs)
    ensures var (d, infos) := UpdateAll(c, rs); Reported(c, rs, d, infos)
  {
    if rs != [] {
      var front, r := rs[..|rs| - 1], rs[|rs| - 1];
      UpdateAllExact(c, front);
      var (d, infos) := UpdateAll(c, front);
      assert front + [r] == rs;
      UpdateReports(c, front, r, d, infos);
    }
  }

  lemma RemovalsName(order: seq<Slug>, gone: set<Slug>, s: Slug)
    requires Enumerates(order, gone)
    ensures Names(Removals(order), s) <==> s in gone
  {
    if s in gone {
      var i :| 0 <= i < |order| && order[i] == s;
      assert Removals(order)[i].slug == s;
    }
  }

  /** Appending entries for other slugs, each once, keeps the list once per slug. */
  lemma OnceAppend(first: seq<Info>, order: seq<Slug>, gone: set<Slug>)
    requires OncePerSlug(first) && Enumerates(order, gone) && forall s :: s in gone ==> !Names(first, s)
    ensures OncePerSlug(first + Removals(order))
  {
    var infos := first + Removals(order);
    forall i, j | 0 <= i < j < |infos| ensures infos[i].slug != infos[j].slug {
      if i < |first| <= j {
        assert infos[j].slug == order[j - |first|] && order[j - |first|] in gone;
        assert Names(first, first[i].slug);
      }
    }
  }

  lemma ConsistentDiffIsExact(c: Cache, rs: seq<ProbeResult>, d: Cache, infos: seq<Info>)
    requires Consistent(rs) && Diffs(c, rs, d, infos)
    ensures Exact(c, d, infos)
  {
    UpdateAllExact(c, rs);
    var (e, first) := UpdateAll(c, rs);
    var gone := e.Keys - Probed(rs);
    var order :| Enumerates(order, gone) && d == e - gone && infos == first + Removals(order);
    ExactWithRemovals(c, rs, e, first, order, gone);
  }

  lemma ExactWithRemovals(c: Cache, rs: seq<ProbeResult>, e: Cache, first: seq<Info>, order: seq<Slug>, gone: set<Slug>)
    requires Reported(c, rs, e, first) && gone == e.Keys - Probed(rs) && Enumerates(order, gone)
    ensures Exact(c, e - gone, first + Removals(order))
  {
    forall s ensures Names(first + Removals(order), s) <==> Lookup(c, s) != Lookup(e - gone, s) {
      NamesAppend(first, Removals(order), s);
      RemovalsName(order, gone, s);
    }
    OnceAppend(first, order, gone);
  }

  /** A contradicting pair of results, the second one as early as possible. */
  lemma FirstClash(rs: seq<ProbeResult>) returns (i: nat, j: nat)
    requires !Consistent(rs)
    ensures i < j < |rs| && rs[i].slug == rs[j].slug && Outcome(rs[i]) != Outcome(rs[j]) && Consistent(rs[..j])
  {
    i, j :| 0 <= i < j < |rs| && rs[i].slug == rs[j].slug && Outcome(rs[i]) != Outcome(rs[j]);
    while !Consistent(rs[..j])
      invariant 0 <= i < j < |rs| && rs[i].slug == rs[j].slug && Outcome(rs[i]) != Outcome(rs[j])
      decreases j
    {
      var p := rs[..j];
      i, j :| 0 <= i < j < |p| && p[i].slug == p[j].slug && Outcome(p[i]) != Outcome(p[j]);
    }
  }

  lemma {:induction false} UpdateAllGrows(c: Cache, rs: seq<ProbeResult>, k: nat)
    requires k <= |rs|
    ensures UpdateAll(c, rs[..k]).1 <= UpdateAll(c, rs).1
    decreases |rs|
  {
    if k < |rs| {
      var front := rs[..|rs| - 1];
      UpdateAllGrows(c, front, k);
      assert front[..k] == rs[..k];
    } else {
      assert rs[..k] == rs;
    }
  }

  lemma EnumerationExists(s: set<Slug>) returns (order: seq<Slug>)
    ensures Enumerates(order, s)
  {
    order := [];
    var todo := s;
    while todo != {}
      invariant todo <= s && Enumerates(order, s - todo)
      decreases todo
    {
      var x :| x in todo;
      order, todo := order + [x], todo - {x};
    }
    assert s - todo == s;
  }

  /** Contradicting results make some diff inexact: from a suitable cache, the slug
      is reported twice. */
  lemma ClashIsInexact(rs: seq<ProbeResult>) returns (c: Cache, d: Cache, infos: seq<Info>)
    requires !Consistent(rs)
    ensures Diffs(c, rs, d, infos) && !Exact(c, d, infos)
  {
    var i, j := FirstClash(rs);
    var s := rs[i].slug;
    c := if rs[i].found then map[] else map[s := Entry("", "/")];
    ClashReported(rs, i, j, c);
    UpdateAllGrows(c, rs, j + 1);
    var (f, first) := UpdateAll(c, rs);
    var order := EnumerationExists(f.Keys - Probed(rs));
    d, infos := f - (f.Keys - Probed(rs)), first + Removals(order);
    NamedTwice(infos, UpdateAll(c, rs[..j + 1]).1, UpdateAll(c, rs[..j]).1, s);
  }

  /** From a cache that the first result changes, the contradicting one is reported
      as well. */
  lemma ClashReported(rs: seq<ProbeResult>, i: nat, j: nat, c: Cache)
    requires i < j < |rs| && rs[i].slug == rs[j].slug && Outcome(rs[i]) != Outcome(rs[j]) && Consistent(rs[..j])
    requires Lookup(c, rs[i].slug) != Outcome(rs[i])
    ensures Names(UpdateAll(c, rs[..j]).1, rs[i].slug)
    ensures UpdateAll(c, rs[..j + 1]).1 == UpdateAll(c, rs[..j]).1 + [Report(rs[j])]
  {
    var p := rs[..j];
    UpdateAllExact(c, p);
    assert p[i] == rs[i] && Lookup(UpdateAll(c, p).0, rs[i].slug) == Outcome(rs[i]);
    var next := rs[..j + 1];
    assert next[..|next| - 1] == p && next[|next| - 1] == rs[j];
  }

  /** A list that names `s` once more after having named it. */
  lemma NamedTwice(infos: seq<Info>, upTo: seq<Info>, before: seq<Info>, s: Slug)
    requires upTo <= infos && before < upTo && Names(before, s) && upTo[|before|].slug == s
    ensures !OncePerSlug(infos)
  {
    var k :| 0 <= k < |before| && before[k].slug == s;
    assert infos[k].slug == s && infos[|before|].slug == s;
  }

  /** The diff lists are exact, for every cache and every iteration order, if and
      only if no two results for one slug contradict each other. */
  lemma ExactExactlyWhenConsistent(rs: seq<ProbeResult>)
    ensures Consistent(rs) <==> forall c, d, infos :: Diffs(c, rs, d, infos) ==> Exact(c, d, infos)
  {
    if Consistent(rs) {
      forall c, d, infos | Diffs(c, rs, d, infos) ensures Exact(c, d, infos) {
        ConsistentDiffIsExact(c, rs, d, infos);
      }
    } else {
      var c, d, infos := ClashIsInexact(rs);
    }
  }

  /** In particular, an exact diff is empty exactly when the cache is unchanged. */
  lemma EmptyExactlyWhenUnchanged(c: Cache, rs: seq<ProbeResult>, d: Cache, infos: seq<Info>)
    requires Consistent(rs) && Diffs(c, rs, d, infos)
    ensures infos == [] <==> c == d
  {
    ConsistentDiffIsExact(c, rs, d, infos);
    if infos == [] {
      forall s ensures Lookup(c, s) == Lookup(d, s) { assert !Names(infos, s); }
      assert c.Keys == d.Keys by {
        forall s ensures s in c <==> s in d { assert Lookup(c, s) == Lookup(d, s); }
      }
      assert forall s :: s in c ==> Lookup(c, s) == Lookup(d, s);
    } else {
      assert Names(infos, infos[0].slug);
    }
  }

  // ------------------------------------------------------------- the object

  class Probe {
    var agentTypes: seq<string>
    var cache: Cache

    constructor ()
      ensures cache == map[] && agentTypes == []
    {
      cache, agentTypes := map[], [];
    }

    /** ProbeAll, given the results of probing `types`. */
    method ProbeAll(types: seq<string>, results: seq<ProbeResult>) returns (available: seq<Slug>, versions: seq<Info>)
      modifies this
      ensures agentTypes == types && cache == Found(results) && versions == FoundInfos(results)
      ensures |available| == |versions| && forall i :: 0 <= i < |versions| ==> available[i] == versions[i].slug
    {
      agentTypes, cache := types, map[];
      available, versions := [], [];
      for i := 0 to |results|
        invariant agentTypes == types && cache == Found(results[..i]) && versions == FoundInfos(results[..i])
        invariant |available| == |versions| && forall k :: 0 <= k < |versions| ==> available[k] == versions[k].slug
      {
        var r := results[i];
        assert results[..i + 1][..i] == results[..i];
        if r.found {
          cache := cache[r.slug := Entry(r.version, r.path)];
          available := available + [r.slug];
          versions := versions + [Info(r.slug, r.version, r.path)];
        }
      }
      assert results[..|results|] == results;
    }

    /** ProbeAndDiff, given the results of probing the known types. */
    method ProbeAndDiff(results: seq<ProbeResult>) returns (changes: seq<Info>)
      modifies this`cache
      ensures agentTypes == [] ==> changes == [] && cache == old(cache)
      ensures agentTypes != [] ==> Diffs(old(cache), results, cache, changes)
      ensures Sound(results) ==> cache == ApplyAll(old(cache), changes)
    {
      changes := [];
      if agentTypes == [] {
        return;
      }
      changes := Compare(results);
      ghost var (updated, first) := UpdateAll(old(cache), results);
      var probed := Probed(results);
      var todo := cache.Keys - probed;
      ghost var order := [];
      while todo != {}
        invariant todo <= cache.Keys - probed && cache == updated - (updated.Keys - probed - todo)
        invariant Enumerates(order, updated.Keys - probed - todo)
        invariant changes == first + Removals(order)
        decreases todo
      {
        var s :| s in todo;
        assert Removals(order + [s]) == Removals(order) + [Info(s, "", "")];
        changes := changes + [Info(s, "", "")];
        order, todo := order + [s], todo - {s};
        cache := cache - {s};
      }
      assert updated.Keys - probed - todo == updated.Keys - probed;
      assert Diffs(old(cache), results, cache, changes);
      if Sound(results) { DiffReplicates(old(cache), results, cache, changes); }
    }

    /** The first loop of ProbeAndDiff. */
    method Compare(results: seq<ProbeResult>) returns (changes: seq<Info>)
      modifies this`cache
      ensures (cache, changes) == UpdateAll(old(cache), results)
    {
      changes := [];
      for i := 0 to |results|
        invariant (cache, changes) == UpdateAll(old(cache), results[..i])
      {
        var r := results[i];
        assert results[..i + 1][..i] == results[..i];
        assert changes + [] == changes;
        if !r.found {
          if r.slug in cache {
            cache := cache - {r.slug};
            changes := changes + [Info(r.slug, "", "")];
          }
        } else if r.slug !in cache || cache[r.slug].version != r.version || cache[r.slug].path != r.path {
          cache := cache[r.slug := Entry(r.version, r.path)];
          changes := changes + [Info(r.slug, r.version, r.path)];
        }
      }
      assert results[..|results|] == results;
    }
  }
}
