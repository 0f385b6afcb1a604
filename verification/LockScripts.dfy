/** The lock programs are those of the transition system.

    Every action of the channel is given the lock operations of its critical
    section. Whatever an action changes, it changes under the lock that guards it,
    and the program of each goroutine in `Locks` is the program of a script of such
    actions, so the goroutines that cannot deadlock are the ones that the
    transition system interleaves. */
module LockScripts {
  import opened Wire
  import opened Channel
  import Locks

  /** The lock operations of one action on channel `c`. Taking publisherReplaceMu and
      handing it back are actions of their own, or `Unlock` below. */
  function LocksOf(c: Locks.Chan, a: Action): seq<Locks.Op> {
    match a
    case Replace(r) => ReplaceLocks(c, r)
    case Broadcast(_, k) => CastLocks(c, k)
    case Forward(_, f) => ForwardLocks(c, f)
    case Timer(t) =>
      (match t
       case Fire(_) => []
       case EnterTimer(_) => [Locks.Acquire(Locks.ReplaceMu(c), Locks.Exclusive)]
       case TimerCheck => Locks.Section(Locks.PublisherMu(c), Locks.Exclusive))
    case Shutdown(k) => CloseLocks(c, k)
    case Subscriber(x, b) => SubscriberLocks(c, x, b)
  }

  function ReplaceLocks(c: Locks.Chan, r: ReplaceAct): seq<Locks.Op> {
    match r
    case EnterSet(_) => [Locks.Acquire(Locks.ReplaceMu(c), Locks.Exclusive)]
    case Install => Locks.Within(Locks.PublisherMu(c), Locks.Exclusive, Locks.Section(Locks.ClosedMu(c), Locks.Mode.Shared))
    case CloseOld => []
    case AwaitOld => Locks.Section(Locks.ForwarderWg(c), Locks.Exclusive)
    case Spawn(_) => []
  }

  function CastLocks(c: Locks.Chan, k: CastAct): seq<Locks.Op> {
    match k
    case Snap => Locks.Section(Locks.SubscribersMu(c), Locks.Mode.Shared)
    case Write(x, _) => Locks.Section(Locks.SubscriberWriteMu(c, x), Locks.Exclusive)
    case Evict(_) => Locks.Section(Locks.SubscribersMu(c), Locks.Exclusive)
    case EndCast => []
  }

  function ForwardLocks(c: Locks.Chan, f: FwdAct): seq<Locks.Op> {
    match f
    case FwdStart => Locks.Section(Locks.PublisherMu(c), Locks.Mode.Shared)
    case FwdRead(_) => []
    case FwdClear => Locks.Section(Locks.OutputBufferMu(c), Locks.Exclusive)
    case FwdBuffer => Locks.Section(Locks.OutputBufferMu(c), Locks.Exclusive)
    case FwdFail => []
    case FwdDrop => Locks.Section(Locks.PublisherMu(c), Locks.Exclusive)
    case FwdHangup => []
    case FwdExit => [Locks.Release(Locks.ForwarderWg(c))]
  }

  function CloseLocks(c: Locks.Chan, k: CloseAct): seq<Locks.Op> {
    match k
    case EnterClose => [Locks.Acquire(Locks.ReplaceMu(c), Locks.Exclusive)]
    case CloseFlag => Locks.Section(Locks.ClosedMu(c), Locks.Exclusive)
    case CloseDetach => Locks.Section(Locks.PublisherMu(c), Locks.Exclusive)
    case CloseAwait => Locks.Section(Locks.ForwarderWg(c), Locks.Exclusive)
    case CloseSubs => Locks.Section(Locks.SubscribersMu(c), Locks.Exclusive)
    case CloseBuffer => Locks.Section(Locks.OutputBufferMu(c), Locks.Exclusive)
    case CloseNotify => Locks.Section(Locks.ManagerMu, Locks.Exclusive)
  }

  function SubscriberLocks(c: Locks.Chan, x: SubId, b: SubAct): seq<Locks.Op> {
    match b
    case JoinInsert(_) => Locks.Within(Locks.SubscribersMu(c), Locks.Exclusive, Locks.Section(Locks.ClosedMu(c), Locks.Mode.Shared))
    case JoinCopy => Locks.Section(Locks.OutputBufferMu(c), Locks.Mode.Shared)
    case JoinWrite(_) => Locks.Section(Locks.SubscriberWriteMu(c, x), Locks.Exclusive)
    case JoinStatus => Locks.Section(Locks.PublisherMu(c), Locks.Mode.Shared)
    case JoinTell(_) => Locks.Section(Locks.SubscriberWriteMu(c, x), Locks.Exclusive)
    case Remove => Locks.Section(Locks.SubscribersMu(c), Locks.Exclusive)
    case ClearControl => Locks.Section(Locks.ControllerMu(c), Locks.Exclusive)
    case Request => Locks.Section(Locks.ControllerMu(c), Locks.Exclusive)
    case Release => Locks.Section(Locks.ControllerMu(c), Locks.Exclusive)
    case Input => Locks.Section(Locks.ControllerMu(c), Locks.Mode.Shared)
  }

  // ------------------------------------------------------------------ lock coverage

  predicate Takes(ops: seq<Locks.Op>, l: Locks.Lock, m: Locks.Mode) {
    Locks.Acquire(l, m) in ops
  }

  lemma SectionTakes(l: Locks.Lock, m: Locks.Mode)
    ensures Takes(Locks.Section(l, m), l, m)
  {
    assert Locks.Section(l, m)[0] == Locks.Acquire(l, m);
  }

  lemma WithinTakes(l: Locks.Lock, m: Locks.Mode, k: Locks.Lock, n: Locks.Mode)
    ensures Takes(Locks.Within(l, m, Locks.Section(k, n)), l, m) && Takes(Locks.Within(l, m, Locks.Section(k, n)), k, n)
  {
    assert Locks.Within(l, m, Locks.Section(k, n))[0] == Locks.Acquire(l, m);
    assert Locks.Within(l, m, Locks.Section(k, n))[1] == Locks.Acquire(k, n);
  }

  /** The publisher's fields are changed under publisherMu, the closed flag under
      closedMu. */
  lemma PublisherIsLocked(c: Locks.Chan, s: State, a: Action)
    requires Enabled(s, a)
    ensures var p, q := s.pub, Do(s, a).pub;
            && (q.publisher != p.publisher || q.disconnected != p.disconnected || q.epoch != p.epoch || q.timer != p.timer ==>
                  Takes(LocksOf(c, a), Locks.PublisherMu(c), Locks.Exclusive))
            && (q.closed != p.closed ==> Takes(LocksOf(c, a), Locks.ClosedMu(c), Locks.Exclusive))
  {
    SectionTakes(Locks.PublisherMu(c), Locks.Exclusive);
    SectionTakes(Locks.ClosedMu(c), Locks.Exclusive);
    WithinTakes(Locks.PublisherMu(c), Locks.Exclusive, Locks.ClosedMu(c), Locks.Mode.Shared);
    match a
    case Replace(r) => ReplaceIsLocked(c, s.pub, r);
    case Broadcast(who, k) => CastSparesPublisher(s, who, k);
    case Forward(g, f) => ForwardSparesPublisher(s, g, f);
    case Timer(t) =>
    case Shutdown(k) =>
    case Subscriber(x, b) =>
  }

  predicate SameFields(p: Pub, q: Pub) {
    q.publisher == p.publisher && q.disconnected == p.disconnected && q.epoch == p.epoch && q.timer == p.timer && q.closed == p.closed
  }

  lemma ReplaceIsLocked(c: Locks.Chan, p: Pub, a: ReplaceAct)
    requires CanReplace(p, a)
    ensures SameFields(p, DoReplace(p, a)) || (Takes(ReplaceLocks(c, a), Locks.PublisherMu(c), Locks.Exclusive) && DoReplace(p, a).closed == p.closed)
  {
    WithinTakes(Locks.PublisherMu(c), Locks.Exclusive, Locks.ClosedMu(c), Locks.Mode.Shared);
  }

  lemma CastSparesPublisher(s: State, who: Caster, a: CastAct)
    requires CanCast(s.pub, who, a)
    ensures SameFields(s.pub, DoCast(s, who, a).pub)
  {
  }

  lemma ForwardSparesPublisher(s: State, g: nat, a: FwdAct)
    requires CanForward(s.pub, g, a)
    ensures a.FwdDrop? || SameFields(s.pub, DoForward(s, g, a).pub)
    ensures DoForward(s, g, a).pub.closed == s.pub.closed
  {
  }

  /** What the locks on the subscribers' side guard, changed from `b` to `d`. */
  predicate Guarded(c: Locks.Chan, ops: seq<Locks.Op>, b: Sub, d: Sub) {
    && (d.subs != b.subs ==> Takes(ops, Locks.SubscribersMu(c), Locks.Exclusive))
    && (d.controller != b.controller ==> Takes(ops, Locks.ControllerMu(c), Locks.Exclusive))
    && (d.buf != b.buf ==> Takes(ops, Locks.OutputBufferMu(c), Locks.Exclusive))
    && (forall x :: x in b.inbox && x in b.joins && (x !in d.inbox || d.inbox[x] != b.inbox[x]) ==>
                      Takes(ops, Locks.SubscriberWriteMu(c, x), Locks.Exclusive))
  }

  lemma CastIsGuarded(c: Locks.Chan, s: State, who: Caster, a: CastAct)
    requires CanCast(s.pub, who, a)
    ensures Guarded(c, CastLocks(c, a), s.sub, DoCast(s, who, a).sub)
  {
    SectionTakes(Locks.SubscribersMu(c), Locks.Exclusive);
    if a.Write? { SectionTakes(Locks.SubscriberWriteMu(c, a.x), Locks.Exclusive); }
  }

  lemma ForwardIsGuarded(c: Locks.Chan, s: State, g: nat, a: FwdAct)
    requires CanForward(s.pub, g, a)
    ensures Guarded(c, ForwardLocks(c, a), s.sub, DoForward(s, g, a).sub)
  {
    SectionTakes(Locks.OutputBufferMu(c), Locks.Exclusive);
  }

  lemma CloseIsGuarded(c: Locks.Chan, s: State, a: CloseAct)
    requires CanClose(s.pub, a)
    ensures Guarded(c, CloseLocks(c, a), s.sub, DoClose(s, a).sub)
  {
    SectionTakes(Locks.SubscribersMu(c), Locks.Exclusive);
    SectionTakes(Locks.OutputBufferMu(c), Locks.Exclusive);
  }

  lemma DeliverIsGuarded(c: Locks.Chan, b: Sub, d: Sub, x: SubId, what: Cast)
    requires d.subs == b.subs && d.controller == b.controller && d.buf == b.buf
    requires d.inbox == b.inbox || d.inbox == Deliver(b.inbox, x, what)
    ensures Guarded(c, Locks.Section(Locks.SubscriberWriteMu(c, x), Locks.Exclusive), b, d)
  {
    SectionTakes(Locks.SubscriberWriteMu(c, x), Locks.Exclusive);
  }

  lemma WritesAreGuarded(c: Locks.Chan, p: Pub, b: Sub, x: SubId, a: SubAct)
    requires CanSubscribe(p, b, x, a) && (a.JoinWrite? || a.JoinTell?)
    ensures Guarded(c, SubscriberLocks(c, x, a), b, DoSubscribe(p, b, x, a))
  {
    if a.JoinWrite? {
      var j := b.joins[x];
      DeliverIsGuarded(c, b, DoJoinWrite(b, x, a.ok), x, Data(j.copy[j.pos], Some(j.base + j.pos)));
    } else {
      DeliverIsGuarded(c, b, DoJoinTell(b, x, a.ok), x, RunnerGone);
    }
  }

  lemma TokenIsGuarded(c: Locks.Chan, p: Pub, b: Sub, x: SubId, a: SubAct)
    requires CanSubscribe(p, b, x, a) && (a.Request? || a.Release? || a.ClearControl? || a.Input?)
    ensures Guarded(c, SubscriberLocks(c, x, a), b, DoSubscribe(p, b, x, a))
  {
    SectionTakes(Locks.ControllerMu(c), Locks.Exclusive);
  }

  lemma MapIsGuarded(c: Locks.Chan, p: Pub, b: Sub, x: SubId, a: SubAct)
    requires CanSubscribe(p, b, x, a) && (a.JoinInsert? || a.Remove? || a.JoinCopy? || a.JoinStatus?)
    ensures Guarded(c, SubscriberLocks(c, x, a), b, DoSubscribe(p, b, x, a))
  {
    SectionTakes(Locks.SubscribersMu(c), Locks.Exclusive);
    WithinTakes(Locks.SubscribersMu(c), Locks.Exclusive, Locks.ClosedMu(c), Locks.Mode.Shared);
  }

  lemma SubscriberIsGuarded(c: Locks.Chan, p: Pub, b: Sub, x: SubId, a: SubAct)
    requires CanSubscribe(p, b, x, a)
    ensures Guarded(c, SubscriberLocks(c, x, a), b, DoSubscribe(p, b, x, a))
  {
    if a.JoinWrite? || a.JoinTell? { WritesAreGuarded(c, p, b, x, a); }
    else if a.Request? || a.Release? || a.ClearControl? || a.Input? { TokenIsGuarded(c, p, b, x, a); }
    else { MapIsGuarded(c, p, b, x, a); }
  }

  /** Lock coverage: in whatever state, every change that an action makes to the
      subscriber map, the control token, the buffer or what a subscriber is sent is made
      under the lock that guards it. */
  lemma SubscribersAreLocked(c: Locks.Chan, s: State, a: Action)
    requires Enabled(s, a)
    ensures Guarded(c, LocksOf(c, a), s.sub, Do(s, a).sub)
  {
    match a
    case Broadcast(who, k) => CastIsGuarded(c, s, who, k);
    case Forward(g, f) => ForwardIsGuarded(c, s, g, f);
    case Shutdown(k) => CloseIsGuarded(c, s, k);
    case Subscriber(x, b) => SubscriberIsGuarded(c, s.pub, s.sub, x, b);
    case Replace(r) =>
    case Timer(t) =>
  }

  /** What an action learns it reads under the lock as well: the subscribers of a
      broadcast, the copy of the buffer, the disconnected flag, the closed flag. */
  lemma ReadsAreLocked(c: Locks.Chan, x: SubId, max: nat)
    ensures Takes(CastLocks(c, Snap), Locks.SubscribersMu(c), Locks.Mode.Shared)
    ensures Takes(SubscriberLocks(c, x, JoinCopy), Locks.OutputBufferMu(c), Locks.Mode.Shared)
    ensures Takes(SubscriberLocks(c, x, JoinStatus), Locks.PublisherMu(c), Locks.Mode.Shared)
    ensures Takes(SubscriberLocks(c, x, Input), Locks.ControllerMu(c), Locks.Mode.Shared)
    ensures Takes(SubscriberLocks(c, x, JoinInsert(max)), Locks.ClosedMu(c), Locks.Mode.Shared)
    ensures Takes(ReplaceLocks(c, Install), Locks.ClosedMu(c), Locks.Mode.Shared)
    ensures Takes(ForwardLocks(c, FwdStart), Locks.PublisherMu(c), Locks.Mode.Shared)
  {
    SectionTakes(Locks.SubscribersMu(c), Locks.Mode.Shared);
    SectionTakes(Locks.OutputBufferMu(c), Locks.Mode.Shared);
    SectionTakes(Locks.PublisherMu(c), Locks.Mode.Shared);
    SectionTakes(Locks.ControllerMu(c), Locks.Mode.Shared);
    WithinTakes(Locks.SubscribersMu(c), Locks.Exclusive, Locks.ClosedMu(c), Locks.Mode.Shared);
    WithinTakes(Locks.PublisherMu(c), Locks.Exclusive, Locks.ClosedMu(c), Locks.Mode.Shared);
  }

  // ------------------------------------------------------------------------ scripts

  /** A step of a goroutine: an action, a section for the keep-alive timer, or handing
      publisherReplaceMu back. */
  datatype Item = Does(act: Action) | KeepAlive | Unlock

  function ItemLocks(c: Locks.Chan, i: Item): seq<Locks.Op> {
    match i
    case Does(a) => LocksOf(c, a)
    case KeepAlive => Locks.Section(Locks.SubscribersMu(c), Locks.Exclusive)
    case Unlock => [Locks.Release(Locks.ReplaceMu(c))]
  }

  function ScriptLocks(c: Locks.Chan, items: seq<Item>): seq<Locks.Op> {
    if items == [] then [] else ItemLocks(c, items[0]) + ScriptLocks(c, items[1..])
  }

  lemma {:induction false} ScriptConcat(c: Locks.Chan, a: seq<Item>, b: seq<Item>)
    ensures ScriptLocks(c, a + b) == ScriptLocks(c, a) + ScriptLocks(c, b)
  {
    if a == [] {
      assert a + b == b;
    } else {
      assert (a + b)[1..] == a[1..] + b;
      ScriptConcat(c, a[1..], b);
    }
  }

  lemma ScriptOne(c: Locks.Chan, i: Item)
    ensures ScriptLocks(c, [i]) == ItemLocks(c, i)
  {
    assert [i][1..] == [];
  }

  lemma ScriptTwo(c: Locks.Chan, i: Item, j: Item)
    ensures ScriptLocks(c, [i, j]) == ItemLocks(c, i) + ItemLocks(c, j)
  {
    assert [i, j] == [i] + [j];
    ScriptConcat(c, [i], [j]);
    ScriptOne(c, i);
    ScriptOne(c, j);
  }

  lemma ScriptFour(c: Locks.Chan, a: seq<Item>, b: seq<Item>, d: seq<Item>, e: seq<Item>)
    ensures ScriptLocks(c, a + b + d + e) == ScriptLocks(c, a) + ScriptLocks(c, b) + ScriptLocks(c, d) + ScriptLocks(c, e)
  {
    ScriptConcat(c, a, b);
    ScriptConcat(c, a + b, d);
    ScriptConcat(c, a + b + d, e);
  }

  lemma Regroup(a: seq<Locks.Op>, b: seq<Locks.Op>, d: seq<Locks.Op>, e: seq<Locks.Op>, f: seq<Locks.Op>)
    ensures a + b + (d + e) + f == a + b + d + e + f
  {
  }

  /** A broadcast: the snapshot, the writes, and for each failed one its removal. */
  function WritesScript(who: Caster, xs: seq<SubId>): seq<Item> {
    if xs == [] then [] else [Does(Broadcast(who, Write(xs[0], true)))] + WritesScript(who, xs[1..])
  }

  function RemovalScript(who: Caster, x: SubId, r: Locks.Removal): seq<Item> {
    [Does(Broadcast(who, Evict(x)))] + (if r.found then [Does(Subscriber(x, ClearControl))] else []) +
    (if r.found && r.last then [KeepAlive] else [])
  }

  function RemovalsScript(who: Caster, x: SubId, rs: seq<Locks.Removal>): seq<Item> {
    if rs == [] then [] else RemovalScript(who, x, rs[0]) + RemovalsScript(who, x, rs[1..])
  }

  function CastScript(who: Caster, x: SubId, k: Locks.Cast): seq<Item> {
    [Does(Broadcast(who, Snap))] + WritesScript(who, k.writes) + RemovalsScript(who, x, k.removals) + [Does(Broadcast(who, EndCast))]
  }

  lemma {:induction false} WritesAreScript(c: Locks.Chan, who: Caster, xs: seq<SubId>)
    ensures ScriptLocks(c, WritesScript(who, xs)) == Locks.Sections(Locks.WriteLocks(c, xs))
  {
    if xs != [] {
      WritesAreScript(c, who, xs[1..]);
      assert Locks.WriteLocks(c, xs)[1..] == Locks.WriteLocks(c, xs[1..]);
      var first := Does(Broadcast(who, Write(xs[0], true)));
      ScriptConcat(c, [first], WritesScript(who, xs[1..]));
      ScriptOne(c, first);
    }
  }

  lemma RemovalIsScript(c: Locks.Chan, who: Caster, x: SubId, r: Locks.Removal)
    ensures ScriptLocks(c, RemovalScript(who, x, r)) == Locks.RemoveCode(c, r)
  {
    var a := [Does(Broadcast(who, Evict(x)))];
    var b := if r.found then [Does(Subscriber(x, ClearControl))] else [];
    var d := if r.found && r.last then [KeepAlive] else [];
    ScriptConcat(c, a, b);
    ScriptConcat(c, a + b, d);
    ScriptOne(c, Does(Broadcast(who, Evict(x))));
    ScriptOne(c, Does(Subscriber(x, ClearControl)));
    ScriptOne(c, KeepAlive);
  }

  lemma {:induction false} RemovalsAreScript(c: Locks.Chan, who: Caster, x: SubId, rs: seq<Locks.Removal>)
    ensures ScriptLocks(c, RemovalsScript(who, x, rs)) == Locks.RemovalsCode(c, rs)
  {
    if rs != [] {
      RemovalIsScript(c, who, x, rs[0]);
      RemovalsAreScript(c, who, x, rs[1..]);
      ScriptConcat(c, RemovalScript(who, x, rs[0]), RemovalsScript(who, x, rs[1..]));
    }
  }

  lemma BroadcastIsScript(c: Locks.Chan, who: Caster, x: SubId, k: Locks.Cast)
    ensures ScriptLocks(c, CastScript(who, x, k)) == Locks.CastCode(c, k)
  {
    var a, w, r := [Does(Broadcast(who, Snap))], WritesScript(who, k.writes), RemovalsScript(who, x, k.removals);
    WritesAreScript(c, who, k.writes);
    RemovalsAreScript(c, who, x, k.removals);
    ScriptOne(c, Does(Broadcast(who, Snap)));
    ScriptOne(c, Does(Broadcast(who, EndCast)));
    ScriptConcat(c, a, w);
    ScriptConcat(c, a + w, r);
    ScriptConcat(c, a + w + r, [Does(Broadcast(who, EndCast))]);
  }

  /** The part of SetPublisher that follows an installation. */
  function ResumeScript(g: nat, x: SubId, announce: Option<Locks.Cast>): seq<Item> {
    [Does(Replace(CloseOld)), Does(Replace(AwaitOld))] +
    (if announce.Some? then CastScript(ByHolder, x, announce.value) else []) + [Does(Replace(Spawn(g)))]
  }

  function ReplaceScript(conn: Conn, g: nat, x: SubId, r: Locks.Replacement): seq<Item> {
    [Does(Replace(EnterSet(conn))), Does(Replace(Install))] +
    (if r.Replaced? then ResumeScript(g, x, r.announce) else []) + [Unlock]
  }

  lemma ResumeIsScript(c: Locks.Chan, g: nat, x: SubId, announce: Option<Locks.Cast>)
    ensures ScriptLocks(c, ResumeScript(g, x, announce)) ==
            Locks.Section(Locks.ForwarderWg(c), Locks.Exclusive) + (if announce.Some? then Locks.CastCode(c, announce.value) else [])
  {
    var b := [Does(Replace(CloseOld)), Does(Replace(AwaitOld))];
    var d := if announce.Some? then CastScript(ByHolder, x, announce.value) else [];
    ScriptTwo(c, Does(Replace(CloseOld)), Does(Replace(AwaitOld)));
    if announce.Some? { BroadcastIsScript(c, ByHolder, x, announce.value); }
    ScriptOne(c, Does(Replace(Spawn(g))));
    ScriptConcat(c, b, d);
    ScriptConcat(c, b + d, [Does(Replace(Spawn(g)))]);
  }

  /** SetPublisher's lock program is that of its actions. */
  lemma ReplacementIsScript(c: Locks.Chan, conn: Conn, g: nat, x: SubId, r: Locks.Replacement)
    ensures ScriptLocks(c, ReplaceScript(conn, g, x, r)) == Locks.SetPublisherCode(c, r)
  {
    var a := [Does(Replace(EnterSet(conn))), Does(Replace(Install))];
    var b := if r.Replaced? then ResumeScript(g, x, r.announce) else [];
    ScriptTwo(c, Does(Replace(EnterSet(conn))), Does(Replace(Install)));
    ScriptOne(c, Unlock);
    if r.Replaced? { ResumeIsScript(c, g, x, r.announce); }
    ScriptConcat(c, a, b);
    ScriptConcat(c, a + b, [Unlock]);
  }

  function CloseInternalScript(first: bool): seq<Item> {
    if first then
      [Does(Shutdown(CloseFlag)), KeepAlive] + [Does(Shutdown(CloseDetach)), Does(Shutdown(CloseAwait))] +
      [Does(Shutdown(CloseSubs)), Does(Shutdown(CloseBuffer))] + [Does(Shutdown(CloseNotify))]
    else [Does(Shutdown(CloseFlag))]
  }

  lemma SectionsTwo(l: Locks.Lock, k: Locks.Lock, rest: seq<Locks.Lock>)
    ensures Locks.Sections([l, k] + rest) == Locks.Section(l, Locks.Exclusive) + Locks.Section(k, Locks.Exclusive) + Locks.Sections(rest)
  {
    assert ([l, k] + rest)[1..] == [k] + rest && ([k] + rest)[1..] == rest;
  }

  lemma SectionsOne(l: Locks.Lock)
    ensures Locks.Sections([l]) == Locks.Section(l, Locks.Exclusive)
  {
    assert [l][1..] == [] && Locks.Section(l, Locks.Exclusive) + [] == Locks.Section(l, Locks.Exclusive);
  }

  lemma CloseInternalIsScript(c: Locks.Chan, first: bool)
    ensures ScriptLocks(c, CloseInternalScript(first)) == Locks.CloseInternalCode(c, first)
  {
    ScriptOne(c, Does(Shutdown(CloseFlag)));
    if first {
      var a, b := [Does(Shutdown(CloseFlag)), KeepAlive], [Does(Shutdown(CloseDetach)), Does(Shutdown(CloseAwait))];
      var d, e := [Does(Shutdown(CloseSubs)), Does(Shutdown(CloseBuffer))], [Does(Shutdown(CloseNotify))];
      ScriptTwo(c, Does(Shutdown(CloseFlag)), KeepAlive);
      ScriptTwo(c, Does(Shutdown(CloseDetach)), Does(Shutdown(CloseAwait)));
      ScriptTwo(c, Does(Shutdown(CloseSubs)), Does(Shutdown(CloseBuffer)));
      ScriptOne(c, Does(Shutdown(CloseNotify)));
      ScriptFour(c, a, b, d, e);
      CloseSections(c);
    } else {
      SectionsOne(Locks.ClosedMu(c));
    }
  }

  lemma CloseSections(c: Locks.Chan)
    ensures Locks.CloseInternalCode(c, true) ==
            Locks.Section(Locks.ClosedMu(c), Locks.Exclusive) + Locks.Section(Locks.SubscribersMu(c), Locks.Exclusive) +
            (Locks.Section(Locks.PublisherMu(c), Locks.Exclusive) + Locks.Section(Locks.ForwarderWg(c), Locks.Exclusive)) +
            (Locks.Section(Locks.SubscribersMu(c), Locks.Exclusive) + Locks.Section(Locks.OutputBufferMu(c), Locks.Exclusive)) +
            Locks.Section(Locks.ManagerMu, Locks.Exclusive)
  {
    var d := [Locks.SubscribersMu(c), Locks.OutputBufferMu(c)] + [Locks.ManagerMu];
    var b := [Locks.PublisherMu(c), Locks.ForwarderWg(c)] + d;
    SectionsTwo(Locks.ClosedMu(c), Locks.SubscribersMu(c), b);
    SectionsTwo(Locks.PublisherMu(c), Locks.ForwarderWg(c), d);
    SectionsTwo(Locks.SubscribersMu(c), Locks.OutputBufferMu(c), [Locks.ManagerMu]);
    assert [Locks.ManagerMu][1..] == [];
    assert [Locks.ClosedMu(c), Locks.SubscribersMu(c), Locks.PublisherMu(c), Locks.ForwarderWg(c), Locks.SubscribersMu(c),
            Locks.OutputBufferMu(c), Locks.ManagerMu] == [Locks.ClosedMu(c), Locks.SubscribersMu(c)] + b;
  }

  /** Close's lock program, and the reconnect timer's, are those of their actions. */
  lemma CloseIsScript(c: Locks.Chan, t: nat, still: bool, first: bool)
    ensures ScriptLocks(c, [Does(Shutdown(EnterClose))] + CloseInternalScript(first) + [Unlock]) == Locks.CloseCode(c, first)
    ensures ScriptLocks(c, [Does(Timer(EnterTimer(t))), Does(Timer(TimerCheck))] +
                           (if still then CloseInternalScript(first) else []) + [Unlock]) == Locks.TimerCode(c, still, first)
  {
    var a, b := [Does(Shutdown(EnterClose))], CloseInternalScript(first);
    CloseInternalIsScript(c, first);
    ScriptOne(c, Does(Shutdown(EnterClose)));
    ScriptOne(c, Unlock);
    ScriptConcat(c, a, b);
    ScriptConcat(c, a + b, [Unlock]);
    var d, e := [Does(Timer(EnterTimer(t))), Does(Timer(TimerCheck))], if still then b else [];
    ScriptTwo(c, Does(Timer(EnterTimer(t))), Does(Timer(TimerCheck)));
    ScriptConcat(c, d, e);
    ScriptConcat(c, d + e, [Unlock]);
  }

  function Repeat(n: nat, i: Item): seq<Item> {
    if n == 0 then [] else [i] + Repeat(n - 1, i)
  }

  lemma {:induction false} RepeatIsTimes(c: Locks.Chan, n: nat, i: Item, l: Locks.Lock)
    requires ItemLocks(c, i) == Locks.Section(l, Locks.Exclusive)
    ensures ScriptLocks(c, Repeat(n, i)) == Locks.Sections(Locks.Times(n, l))
  {
    if n > 0 {
      RepeatIsTimes(c, n - 1, i, l);
      assert Locks.Times(n, l)[1..] == Locks.Times(n - 1, l);
      ScriptConcat(c, [i], Repeat(n - 1, i));
      ScriptOne(c, i);
    }
  }

  function MessageScript(g: nat, x: SubId, m: Locks.Forwarded): seq<Item> {
    [Does(Forward(g, FwdRead([])))] + Repeat(m.buffered, Does(Forward(g, FwdBuffer))) + CastScript(ByForwarder(g), x, m.cast)
  }

  function MessagesScript(g: nat, x: SubId, ms: seq<Locks.Forwarded>): seq<Item> {
    if ms == [] then [] else MessageScript(g, x, ms[0]) + MessagesScript(g, x, ms[1..])
  }

  lemma MessageIsScript(c: Locks.Chan, g: nat, x: SubId, m: Locks.Forwarded)
    ensures ScriptLocks(c, MessageScript(g, x, m)) ==
            Locks.Sections(Locks.Times(m.buffered, Locks.OutputBufferMu(c))) + Locks.CastCode(c, m.cast)
  {
    var a, b := [Does(Forward(g, FwdRead([])))], Repeat(m.buffered, Does(Forward(g, FwdBuffer)));
    ScriptOne(c, Does(Forward(g, FwdRead([]))));
    RepeatIsTimes(c, m.buffered, Does(Forward(g, FwdBuffer)), Locks.OutputBufferMu(c));
    BroadcastIsScript(c, ByForwarder(g), x, m.cast);
    ScriptConcat(c, a, b);
    ScriptConcat(c, a + b, CastScript(ByForwarder(g), x, m.cast));
  }

  lemma {:induction false} MessagesAreScript(c: Locks.Chan, g: nat, x: SubId, ms: seq<Locks.Forwarded>)
    ensures ScriptLocks(c, MessagesScript(g, x, ms)) == Locks.ForwardedCode(c, ms)
  {
    if ms != [] {
      MessageIsScript(c, g, x, ms[0]);
      MessagesAreScript(c, g, x, ms[1..]);
      ScriptConcat(c, MessageScript(g, x, ms[0]), MessagesScript(g, x, ms[1..]));
    }
  }

  function DropScript(g: nat, x: SubId, farewell: Option<Locks.Cast>): seq<Item> {
    [Does(Forward(g, FwdFail)), Does(Forward(g, FwdDrop))] +
    (if farewell.Some? then [Does(Forward(g, FwdHangup))] + CastScript(ByForwarder(g), x, farewell.value) else [])
  }

  function ForwarderScript(g: nat, x: SubId, ms: seq<Locks.Forwarded>, farewell: Option<Locks.Cast>): seq<Item> {
    [Does(Forward(g, FwdStart))] + MessagesScript(g, x, ms) + DropScript(g, x, farewell) + [Does(Forward(g, FwdExit))]
  }

  lemma DropIsScript(c: Locks.Chan, g: nat, x: SubId, farewell: Option<Locks.Cast>)
    ensures ScriptLocks(c, DropScript(g, x, farewell)) ==
            Locks.Section(Locks.PublisherMu(c), Locks.Exclusive) + (if farewell.Some? then Locks.CastCode(c, farewell.value) else [])
  {
    var b := [Does(Forward(g, FwdFail)), Does(Forward(g, FwdDrop))];
    var d := if farewell.Some? then [Does(Forward(g, FwdHangup))] + CastScript(ByForwarder(g), x, farewell.value) else [];
    ScriptTwo(c, Does(Forward(g, FwdFail)), Does(Forward(g, FwdDrop)));
    ScriptOne(c, Does(Forward(g, FwdHangup)));
    if farewell.Some? {
      BroadcastIsScript(c, ByForwarder(g), x, farewell.value);
      ScriptConcat(c, [Does(Forward(g, FwdHangup))], CastScript(ByForwarder(g), x, farewell.value));
    }
    ScriptConcat(c, b, d);
  }

  /** The forwarder's lock program is that of its actions. */
  lemma ForwarderIsScript(c: Locks.Chan, g: nat, x: SubId, ms: seq<Locks.Forwarded>, farewell: Option<Locks.Cast>)
    ensures ScriptLocks(c, ForwarderScript(g, x, ms, farewell)) == Locks.Code(Locks.Forwarder(c, ms, farewell))
  {
    var a, m, d := [Does(Forward(g, FwdStart))], MessagesScript(g, x, ms), DropScript(g, x, farewell);
    ScriptOne(c, Does(Forward(g, FwdStart)));
    MessagesAreScript(c, g, x, ms);
    DropIsScript(c, g, x, farewell);
    ScriptOne(c, Does(Forward(g, FwdExit)));
    ScriptFour(c, a, m, d, [Does(Forward(g, FwdExit))]);
    Regroup(Locks.Section(Locks.PublisherMu(c), Locks.Mode.Shared), Locks.ForwardedCode(c, ms),
            Locks.Section(Locks.PublisherMu(c), Locks.Exclusive),
            if farewell.Some? then Locks.CastCode(c, farewell.value) else [], [Locks.Release(Locks.ForwarderWg(c))]);
  }

  function JoinScript(x: SubId, max: nat, a: Locks.Admission): seq<Item> {
    [Does(Subscriber(x, JoinInsert(max)))] +
    (if a.Admitted? then
       [Does(Subscriber(x, JoinCopy))] + Repeat(a.replayed, Does(Subscriber(x, JoinWrite(true)))) +
       [Does(Subscriber(x, JoinStatus))] + Repeat(if a.down then 1 else 0, Does(Subscriber(x, JoinTell(true))))
     else [])
  }

  /** addSubscriberInternal's lock program is that of its actions. */
  lemma JoinIsScript(c: Locks.Chan, x: SubId, max: nat, a: Locks.Admission)
    ensures ScriptLocks(c, JoinScript(x, max, a)) == Locks.AddSubscriberCode(c, x, a)
  {
    var i := [Does(Subscriber(x, JoinInsert(max)))];
    ScriptOne(c, Does(Subscriber(x, JoinInsert(max))));
    if a.Admitted? {
      var b, w := [Does(Subscriber(x, JoinCopy))], Repeat(a.replayed, Does(Subscriber(x, JoinWrite(true))));
      var d, e := [Does(Subscriber(x, JoinStatus))], Repeat(if a.down then 1 else 0, Does(Subscriber(x, JoinTell(true))));
      ScriptOne(c, Does(Subscriber(x, JoinCopy)));
      ScriptOne(c, Does(Subscriber(x, JoinStatus)));
      RepeatIsTimes(c, a.replayed, Does(Subscriber(x, JoinWrite(true))), Locks.SubscriberWriteMu(c, x));
      RepeatIsTimes(c, if a.down then 1 else 0, Does(Subscriber(x, JoinTell(true))), Locks.SubscriberWriteMu(c, x));
      ScriptConcat(c, b, w);
      ScriptConcat(c, b + w, d);
      ScriptConcat(c, b + w + d, e);
      ScriptConcat(c, i, b + w + d + e);
    } else {
      assert i + [] == i;
    }
  }
}
