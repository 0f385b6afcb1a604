/** The terminal channel as the object that its methods update in place.

    Each method is written the way the relay's method is, with its loops, and is
    proved to be a run of the transition system: from any protocol state `s` that
    the object shows, the critical sections it performs, with nobody running in
    between, lead to a state `q` that the object shows afterwards. The two places
    where a goroutine waits for another one split a method in two. Whether a
    write succeeds is up to the environment: `fails` names the subscribers to
    which it does not. */
module Terminal {
  import opened Wire
  import opened ReplayBuffer
  import opened Channel

  // ------------------------------------------------------ a broadcast, uninterrupted

  lemma SetCastTwice(p: Pub, who: Caster, c: CastPC, d: CastPC)
    requires CastOf(p, who).Some?
    ensures CastOf(SetCast(p, who, c), who) == Some(c)
    ensures SetCast(SetCast(p, who, c), who, d) == SetCast(p, who, d)
  {
  }

  /** `c` differs from `b` only in that everybody in `to` got `what` once more. */
  ghost predicate WrittenTo(b: Sub, c: Sub, what: Cast, to: set<SubId>) {
    && (forall x :: x in to ==> x in c.inbox && c.inbox[x] == (if x in b.inbox then b.inbox[x] else []) + [what])
    && (forall x :: x !in to ==> (x in c.inbox <==> x in b.inbox) && (x in b.inbox ==> c.inbox[x] == b.inbox[x]))
  }

  /** A broadcast in its writing phase in `s` has reached `q`, having written to
      `done`; nothing else has changed. */
  ghost predicate Midway(s: State, q: State, who: Caster, done: set<SubId>, c: CastPC) {
    && CastOf(s.pub, who).Some? && c.Writing?
    && q == s.(pub := SetCast(s.pub, who, c), sub := s.sub.(inbox := q.sub.inbox, broken := s.sub.broken + c.failed))
    && WrittenTo(s.sub, q.sub, c.what, done)
  }

  lemma MidwayStart(s: State, who: Caster)
    requires CastOf(s.pub, who).Some? && CastOf(s.pub, who).value.Writing? && CastOf(s.pub, who).value.failed == {}
    ensures Midway(s, s, who, {}, CastOf(s.pub, who).value)
  {
  }

  lemma MidwayWrite(s: State, q: State, who: Caster, done: set<SubId>, c: CastPC, x: SubId, ok: bool)
    requires Midway(s, q, who, done, c) && x !in done && x in c.todo
    ensures CanCast(q.pub, who, Write(x, ok))
    ensures Midway(s, DoWrite(q, who, x, ok), who, if ok then done + {x} else done,
                   Writing(c.what, c.todo - {x}, if ok then c.failed else c.failed + {x}))
  {
    SetCastTwice(s.pub, who, c, Writing(c.what, c.todo - {x}, if ok then c.failed else c.failed + {x}));
  }

  /** The removing phase: `gone` have been removed and their control cleared. */
  ghost predicate Removing(s: State, q: State, who: Caster, gone: set<SubId>, c: CastPC) {
    && CastOf(s.pub, who).Some? && c.Writing? && c.todo == {} && gone !! c.failed
    && q == s.(pub := SetCast(s.pub, who, c), sub := q.sub)
    && q.sub == s.sub.(subs := s.sub.subs - gone, controller := q.sub.controller, control := q.sub.control,
                       uncleared := q.sub.uncleared)
    && q.sub.controller == (if s.sub.controller.Some? && s.sub.controller.value in gone * s.sub.subs then None else s.sub.controller)
  }

  /** RemoveSubscriber, both of its critical sections, nobody in between. */
  function Removed(b: Sub, x: SubId): Sub {
    if x in b.subs then DoClear(RemoveLocked(b, x), x) else b
  }

  lemma EvictReaches(s: State, q: State, who: Caster, x: SubId)
    requires Reaches(s, q) && CanCast(q.pub, who, Evict(x))
    ensures Reaches(s, DoEvict(q, who, x).(sub := Removed(q.sub, x)))
  {
    Steps(s, q, Broadcast(who, Evict(x)));
    if x in q.sub.subs {
      Steps(s, DoEvict(q, who, x), Subscriber(x, ClearControl));
    }
  }

  lemma RemovingOne(s: State, q: State, who: Caster, gone: set<SubId>, c: CastPC, x: SubId)
    requires Removing(s, q, who, gone, c) && x in c.failed
    ensures CanCast(q.pub, who, Evict(x))
    ensures Removing(s, DoEvict(q, who, x).(sub := Removed(q.sub, x)), who, gone + {x}, c.(failed := c.failed - {x}))
  {
    SetCastTwice(s.pub, who, c, c.(failed := c.failed - {x}));
  }

  /** What a broadcast comes to when nobody interferes. */
  ghost predicate Announced(s: State, q: State, who: Caster, fails: set<SubId>) {
    && CastOf(s.pub, who).Some?
    && var what := CastOf(s.pub, who).value.what;
    && q.limits == s.limits && q.pub == DoEndCast(BeginCast(s.pub, who, {}), who)
    && q.sub.subs == s.sub.subs - fails
    && WrittenTo(s.sub, q.sub, what, s.sub.subs - fails) && q.sub.broken == s.sub.broken + s.sub.subs * fails
    && q.pub.casts == s.pub.casts + [CastRecord(CastEpoch(s.pub, who), what)]
    && q.sub.begun == s.sub.begun + (if what.Data? && what.id.Some? then 1 else 0) && q.sub.told == s.sub.told
    && q.sub.joins == s.sub.joins && q.sub.buf == s.sub.buf && q.sub.pushed == s.sub.pushed && q.sub.log == s.sub.log
  }

  lemma SnapIs(s: State, who: Caster)
    requires CastOf(s.pub, who).Some?
    ensures var what, q := CastOf(s.pub, who).value.what, DoSnap(s, who);
            && CastOf(q.pub, who) == Some(Writing(what, s.sub.subs, {}))
            && SetCast(q.pub, who, Writing(what, {}, {})) == BeginCast(s.pub, who, {})
  {
    var what, p := CastOf(s.pub, who).value.what, s.pub;
    SetCastTwice(p, who, Writing(what, s.sub.subs, {}), Writing(what, {}, {}));
  }

  lemma SnapReaches(s: State, who: Caster)
    requires CanCast(s.pub, who, Snap)
    ensures Reaches(s, DoSnap(s, who))
  {
    Stays(s);
    Steps(s, s, Broadcast(who, Snap));
  }

  /** The phases of a broadcast, put together. */
  lemma PhasesAnnounce(s: State, m: State, r: State, who: Caster, fails: set<SubId>)
    requires CanCast(s.pub, who, Snap)
    requires var what := CastOf(s.pub, who).value.what;
             var failed := s.sub.subs * fails;
             && Midway(DoSnap(s, who), m, who, s.sub.subs - fails, Writing(what, {}, failed))
             && Removing(m, r, who, failed, Writing(what, {}, {}))
    ensures CanCast(r.pub, who, EndCast)
    ensures Announced(s, r.(pub := DoEndCast(r.pub, who)), who, fails)
  {
    var what, n := CastOf(s.pub, who).value.what, DoSnap(s, who);
    SnapIs(s, who);
    SetCastTwice(n.pub, who, Writing(what, {}, s.sub.subs * fails), Writing(what, {}, {}));
    assert s.sub.subs - s.sub.subs * fails == s.sub.subs - fails;
  }

  // -------------------------------------------------- a forwarder, uninterrupted

  /** One message read and buffered, its broadcast still to begin. */
  function Taken(s: State, g: nat, f: Frame): State
    requires CanForward(s.pub, g, FwdRead(f))
  {
    var n := DoFwdRead(s, g, f);
    match KindOf(f)
    case Other => n
    case Output => DoFwdBuffer(n, g)
    case Snapshot => DoFwdBuffer(DoFwdClear(n, g), g)
  }

  lemma TakenReaches(s: State, g: nat, f: Frame)
    requires CanForward(s.pub, g, FwdRead(f))
    ensures Reaches(s, Taken(s, g, f))
  {
    var n := DoFwdRead(s, g, f);
    Stays(s);
    Steps(s, s, Forward(g, FwdRead(f)));
    match KindOf(f)
    case Other =>
    case Output => Steps(s, n, Forward(g, FwdBuffer));
    case Snapshot =>
      Steps(s, n, Forward(g, FwdClear));
      Steps(s, DoFwdClear(n, g), Forward(g, FwdBuffer));
  }

  lemma TakenIs(s: State, g: nat, f: Frame)
    requires CanForward(s.pub, g, FwdRead(f))
    ensures var n := Taken(s, g, f);
            var c := if Replayable(f) then Data(f, Some(s.sub.pushed)) else Data(f, None);
            && n.pub == Goto(s.pub, g, Casting(s.pub.forwarders[g].pc.conn, Pending(c)))
            && n.limits == s.limits && n.sub.subs == s.sub.subs && n.sub.controller == s.sub.controller
            && n.sub.inbox == s.sub.inbox && n.sub.joins == s.sub.joins
            && n.sub.log == s.sub.log + (if Replayable(f) then [f] else [])
            && n.sub.buf == (if Replayable(f) then Absorb(s.sub.buf, f, s.limits) else s.sub.buf)
  {
  }

  /** After a broadcast by a forwarder, the forwarder is back at its loop or leaves. */
  lemma AnnouncedPC(s: State, q: State, g: nat, fails: set<SubId>)
    requires Announced(s, q, ByForwarder(g), fails)
    ensures g in q.pub.forwarders
    ensures var pc := s.pub.forwarders[g].pc;
            q.pub.forwarders[g] == s.pub.forwarders[g].(pc := if pc.Casting? then Reading(pc.conn) else Exiting)
  {
  }

  /** A message went through the forwarder, which is back where it was: it is in the
      history if replayable, and with every subscriber that is left. */
  ghost predicate Forwarded(s: State, q: State, g: nat, data: Frame) {
    && q.sub.log == s.sub.log + (if Replayable(data) then [data] else [])
    && (forall x :: x in q.sub.subs ==> x in q.sub.inbox && q.sub.inbox[x] != [] && GotFrame(q.sub.inbox[x], data))
    && g in s.pub.forwarders && g in q.pub.forwarders && q.pub.forwarders[g] == s.pub.forwarders[g]
  }

  lemma ForwardedIs(s: State, n: State, q: State, g: nat, data: Frame, fails: set<SubId>)
    requires CanForward(s.pub, g, FwdRead(data)) && n == Taken(s, g, data) && Announced(n, q, ByForwarder(g), fails)
    ensures Forwarded(s, q, g, data)
  {
    TakenIs(s, g, data);
    AnnouncedPC(n, q, g, fails);
  }

  /** handlePublisherDisconnect up to its broadcast, when the identity check passes. */
  function Dropped(s: State, g: nat): State
    requires CanForward(s.pub, g, FwdDrop)
    requires s.pub.publisher == Some(s.pub.forwarders[g].pc.conn) && s.pub.epoch == s.pub.forwarders[g].epoch
  {
    s.(pub := DoFwdHangup(DoFwdDrop(s.pub, g), g))
  }

  lemma DroppedReaches(s: State, g: nat)
    requires CanForward(s.pub, g, FwdDrop)
    requires s.pub.publisher == Some(s.pub.forwarders[g].pc.conn) && s.pub.epoch == s.pub.forwarders[g].epoch
    ensures Reaches(s, Dropped(s, g))
  {
    Stays(s);
    Steps(s, s, Forward(g, FwdDrop));
    Steps(s, Do(s, Forward(g, FwdDrop)), Forward(g, FwdHangup));
  }

  /** The broadcast of RunnerDisconnected that follows. */
  lemma DroppedIs(s: State, g: nat, q: State, fails: set<SubId>)
    requires CanForward(s.pub, g, FwdDrop)
    requires s.pub.publisher == Some(s.pub.forwarders[g].pc.conn) && s.pub.epoch == s.pub.forwarders[g].epoch
    requires Announced(Dropped(s, g), q, ByForwarder(g), fails)
    ensures Lost(s, q, g, fails)
  {
  }

  /** The disconnect of the installed publisher has been recorded and announced. */
  ghost predicate Lost(s: State, q: State, g: nat, fails: set<SubId>) {
    && g in q.pub.forwarders && q.pub.forwarders[g].pc == Exiting
    && s.pub.timers in q.pub.armed && (s.pub.publisher.Some? ==> s.pub.publisher.value in q.pub.shut)
    && q.pub.notices == s.pub.notices + [GoneBegins] + [GoneEnds]
    && q.sub.subs == s.sub.subs - fails && WrittenTo(s.sub, q.sub, RunnerGone, q.sub.subs)
  }

  lemma StaleReaches(s: State, g: nat) returns (q: State)
    requires CanForward(s.pub, g, FwdDrop)
    requires s.pub.publisher != Some(s.pub.forwarders[g].pc.conn) || s.pub.epoch != s.pub.forwarders[g].epoch
    ensures Reaches(s, q) && q == s.(pub := Goto(s.pub, g, Exiting))
  {
    Stays(s);
    Steps(s, s, Forward(g, FwdDrop));
    q := Do(s, Forward(g, FwdDrop));
  }

  // ------------------------------------------------------ a replay, uninterrupted

  /** The first `k` messages of the buffer as the replay numbers them. */
  function Replayed(b: Sub, k: nat): seq<Cast>
    requires k <= |b.buf|
  {
    seq(k, i requires 0 <= i < k => Data(b.buf[i], Some(Oldest(b) + i)))
  }

  /** Joining touches nothing but what belongs to the new subscriber. */
  predicate Joining(s: State, q: State, x: SubId) {
    && q == s.(sub := s.sub.(subs := s.sub.subs + {x}, joins := q.sub.joins, inbox := q.sub.inbox, broken := q.sub.broken,
                             told := q.sub.told))
    && x in q.sub.joins && x in q.sub.inbox && q.sub.joins[x].Copied?
    && q.sub.joins - {x} == s.sub.joins - {x} && q.sub.inbox - {x} == s.sub.inbox - {x}
    && q.sub.told - {x} == s.sub.told - {x} && q.sub.broken - {x} == s.sub.broken - {x}
  }

  /** `x` has joined in `s`, copied the buffer and been sent `k` messages of it. */
  ghost predicate Replaying(s: State, q: State, x: SubId, k: nat) {
    && k <= |s.sub.buf| && Joining(s, q, x) && q.sub.told == s.sub.told
    && q.sub.joins[x] == Copied(s.sub.begun, Oldest(s.sub), s.sub.buf, k, s.sub.cleared)
    && q.sub.inbox[x] == Replayed(s.sub, k) && q.sub.broken == s.sub.broken
  }

  lemma ReplayBegins(s: State, x: SubId, max: nat) returns (q: State)
    requires CanSubscribe(s.pub, s.sub, x, JoinInsert(max))
    ensures Reaches(s, q) && Replaying(s, q, x, 0)
  {
    Stays(s);
    Steps(s, s, Subscriber(x, JoinInsert(max)));
    var n := Do(s, Subscriber(x, JoinInsert(max)));
    Steps(s, n, Subscriber(x, JoinCopy));
    q := Do(n, Subscriber(x, JoinCopy));
  }

  lemma ReplayContinues(s: State, q: State, x: SubId, k: nat) returns (r: State)
    requires Reaches(s, q) && Replaying(s, q, x, k) && k < |s.sub.buf|
    ensures Reaches(s, r) && Replaying(s, r, x, k + 1)
  {
    Steps(s, q, Subscriber(x, JoinWrite(true)));
    r := Do(q, Subscriber(x, JoinWrite(true)));
    assert Replayed(s.sub, k) + [Data(s.sub.buf[k], Some(Oldest(s.sub) + k))] == Replayed(s.sub, k + 1);
  }

  /** `x` has joined and been sent the first `k` messages of the buffer, in order;
      a replay that stopped short was stopped by a failed write. */
  ghost predicate Replays(s: State, q: State, x: SubId, k: nat) {
    && Joining(s, q, x) && q.sub.told == s.sub.told && q.sub.joins[x].pos == |q.sub.joins[x].copy|
    && k <= |s.sub.buf| && q.sub.broken == s.sub.broken + (if k < |s.sub.buf| then {x} else {})
    && q.sub.inbox[x] == Replayed(s.sub, k)
  }

  /** A failed write ends the replay and marks the subscriber. */
  lemma ReplayBreaks(s: State, q: State, x: SubId, k: nat) returns (r: State)
    requires Reaches(s, q) && Replaying(s, q, x, k) && k < |s.sub.buf|
    ensures Reaches(s, r) && Replays(s, r, x, k)
  {
    Steps(s, q, Subscriber(x, JoinWrite(false)));
    r := Do(q, Subscriber(x, JoinWrite(false)));
  }

  /** The join is over: after the replay, a subscriber that found the publisher away
      has been sent RunnerDisconnected, unless that write failed. */
  ghost predicate Welcomed(s: State, q: State, x: SubId, k: nat, notified: bool) {
    && Joining(s, q, x) && x in q.sub.told && !q.sub.told[x]
    && k <= |s.sub.buf| && (notified ==> s.pub.disconnected)
    && q.sub.broken == s.sub.broken + (if k < |s.sub.buf| || (s.pub.disconnected && !notified) then {x} else {})
    && q.sub.inbox[x] == Replayed(s.sub, k) + (if notified then [RunnerGone] else [])
  }

  /** The replay is over and the flag has been looked at. */
  ghost predicate Asked(s: State, q: State, x: SubId, k: nat) {
    && Joining(s, q, x) && x in q.sub.told && q.sub.told[x] == s.pub.disconnected
    && k <= |s.sub.buf| && q.sub.broken == s.sub.broken + (if k < |s.sub.buf| then {x} else {})
    && q.sub.inbox[x] == Replayed(s.sub, k)
  }

  lemma StatusAsked(s: State, q: State, x: SubId, k: nat)
    requires Replays(s, q, x, k) && x !in s.sub.told
    ensures CanSubscribe(q.pub, q.sub, x, JoinStatus)
    ensures Asked(s, q.(sub := q.sub.(told := q.sub.told[x := q.pub.disconnected])), x, k)
  {
  }

  lemma StatusTold(s: State, q: State, x: SubId, k: nat, ok: bool)
    requires Asked(s, q, x, k) && s.pub.disconnected
    ensures CanSubscribe(q.pub, q.sub, x, JoinTell(ok)) && Welcomed(s, q.(sub := DoJoinTell(q.sub, x, ok)), x, k, ok)
  {
    var c := DoJoinTell(q.sub, x, ok);
    assert c.inbox - {x} == q.sub.inbox - {x} && c.told - {x} == q.sub.told - {x};
  }

  lemma StatusReaches(s: State, q: State, x: SubId, k: nat, ok: bool) returns (r: State)
    requires Reaches(s, q) && Replays(s, q, x, k) && x !in s.sub.told
    ensures Reaches(s, r) && Welcomed(s, r, x, k, s.pub.disconnected && ok)
  {
    StatusAsked(s, q, x, k);
    Steps(s, q, Subscriber(x, JoinStatus));
    r := Do(q, Subscriber(x, JoinStatus));
    if s.pub.disconnected {
      StatusTold(s, r, x, k, ok);
      Steps(s, r, Subscriber(x, JoinTell(ok)));
      r := Do(r, Subscriber(x, JoinTell(ok)));
    }
  }

  datatype JoinResult = ChannelClosed | AtCapacity | Joined(sent: nat, notified: bool)

  datatype Replacement = Unwanted | Already | Proceed(epoch: nat, was: bool)

  /** The end of a broadcast whose phases led from `s` over `n` and `m` to `r`. */
  lemma Concludes(s: State, n: State, m: State, r: State, who: Caster, fails: set<SubId>) returns (q: State)
    requires CanCast(s.pub, who, Snap) && n == DoSnap(s, who)
    requires var what := CastOf(s.pub, who).value.what;
             var failed := s.sub.subs * fails;
             && Midway(n, m, who, s.sub.subs - fails, Writing(what, {}, failed))
             && Removing(m, r, who, failed, Writing(what, {}, {}))
    requires Reaches(s, n) && Reaches(n, m) && Reaches(m, r)
    ensures Reaches(s, q) && Announced(s, q, who, fails) && SameFields(r, q)
  {
    PhasesAnnounce(s, m, r, who, fails);
    Continues(s, n, m);
    Continues(s, m, r);
    Steps(s, r, Broadcast(who, EndCast));
    q := r.(pub := DoEndCast(r.pub, who));
  }

  /** No field of the object tells `s` from `q`. */
  predicate SameFields(s: State, q: State) {
    && q == s.(pub := q.pub)
    && q.pub == s.pub.(holder := q.pub.holder, forwarders := q.pub.forwarders, casts := q.pub.casts, notices := q.pub.notices)
  }

  // ------------------------------------------------- a replacement, uninterrupted

  lemma InstallReaches(s: State, conn: Conn) returns (q: State)
    requires s.pub.holder.Free?
    ensures Reaches(s, q) && q == s.(pub := DoInstall(s.pub.(holder := Entered(conn))))
  {
    Stays(s);
    Steps(s, s, Replace(EnterSet(conn)));
    var n := Do(s, Replace(EnterSet(conn)));
    Steps(s, n, Replace(Install));
    q := Do(n, Replace(Install));
  }

  lemma CloseOldReaches(s: State, n: State) returns (q: State)
    requires Reaches(s, n) && n.pub.holder.Installed?
    ensures Reaches(s, q) && q == n.(pub := DoCloseOld(n.pub))
  {
    Steps(s, n, Replace(CloseOld));
    q := Do(n, Replace(CloseOld));
  }

  class TerminalChannel {
    const output: OutputBuffer
    var closed: bool
    var publisher: Option<Conn>
    var publisherDisconnected: bool
    var publisherEpoch: nat
    var publisherReconnectTimer: Option<nat>
    var timers: nat
    var subscribers: set<SubId>
    var controllerID: Option<SubId>

    constructor (l: Budget)
      ensures Shows(Init(l)) && fresh(output) && fresh(output.backing)
    {
      output := new OutputBuffer(l);
      closed, publisher, publisherDisconnected, publisherEpoch := false, None, false, 0;
      publisherReconnectTimer, timers := None, 0;
      subscribers, controllerID := {}, None;
    }

    ghost predicate ShowsPub(p: Pub)
      reads this
    {
      && closed == p.closed && publisher == p.publisher && publisherDisconnected == p.disconnected
      && publisherEpoch == p.epoch && publisherReconnectTimer == p.timer && timers == p.timers
    }

    ghost predicate ShowsBuffer(buf: seq<Frame>, l: Limits)
      reads this, output, output.backing
    {
      output.Valid() && output.limits == l && output.Contents() == buf
    }

    /** The object holds what the protocol state says it holds. */
    ghost predicate Shows(s: State)
      reads this, output, output.backing
    {
      && ShowsPub(s.pub) && ShowsBuffer(s.sub.buf, s.limits)
      && subscribers == s.sub.subs && controllerID == s.sub.controller
    }

    // ---------------------------------------------------------- input control

    method CanInput(x: SubId, ghost s: State) returns (ok: bool, ghost q: State)
      requires Shows(s) && x in s.sub.joins
      ensures Reaches(s, q) && Shows(q)
      ensures ok <==> controllerID == None || controllerID == Some(x)
      ensures q == s.(sub := s.sub.(control := s.sub.control + [if ok then Passed(x) else Refused(x)]))
    {
      q := Do(s, Subscriber(x, Input));
      Stays(s);
      Steps(s, s, Subscriber(x, Input));
      ok := controllerID == None || controllerID == Some(x);
    }

    method RequestControl(x: SubId, ghost s: State) returns (ok: bool, ghost q: State)
      requires Shows(s) && x in s.sub.joins
      modifies this`controllerID
      ensures Reaches(s, q) && Shows(q)
      ensures ok <==> old(controllerID) == None
      ensures q.sub.control == s.sub.control + [if ok then Granted(x) else Denied(x)]
      ensures controllerID == if ok then Some(x) else old(controllerID)
    {
      q := Do(s, Subscriber(x, Request));
      Stays(s);
      Steps(s, s, Subscriber(x, Request));
      ok := controllerID == None;
      if ok { controllerID := Some(x); }
    }

    method ReleaseControl(x: SubId, ghost s: State) returns (ghost q: State)
      requires Shows(s) && x in s.sub.joins
      modifies this`controllerID
      ensures Reaches(s, q) && Shows(q)
      ensures controllerID == if old(controllerID) == Some(x) then None else old(controllerID)
    {
      q := Do(s, Subscriber(x, Release));
      Stays(s);
      Steps(s, s, Subscriber(x, Release));
      if controllerID == Some(x) { controllerID := None; }
    }

    // ------------------------------------------------------------- subscribers

    /** RemoveSubscriber: first the map, then, separately, the control token. */
    method RemoveSubscriber(x: SubId, ghost s: State) returns (ghost q: State)
      requires Shows(s)
      modifies this`subscribers, this`controllerID
      ensures Reaches(s, q) && Shows(q) && q == s.(sub := Removed(s.sub, x))
    {
      q := s.(sub := Removed(s.sub, x));
      Stays(s);
      if x in subscribers {
        Steps(s, s, Subscriber(x, Remove));
        Steps(s, Do(s, Subscriber(x, Remove)), Subscriber(x, ClearControl));
        DropSubscriber(x);
      }
    }

    method DropSubscriber(x: SubId)
      modifies this`subscribers, this`controllerID
      ensures subscribers == old(subscribers) - {x}
      ensures controllerID == if x in old(subscribers) && old(controllerID) == Some(x) then None else old(controllerID)
    {
      if x !in subscribers { return; }
      subscribers := subscribers - {x};
      if controllerID == Some(x) { controllerID := None; }
    }

    // -------------------------------------------------------------- broadcasting

    /** The writing loop of a broadcast over its snapshot of the subscribers, in
        any order. */
    method WriteAll(ghost what: Cast, snapshot: set<SubId>, fails: set<SubId>, ghost s: State, ghost who: Caster)
      returns (failed: set<SubId>, ghost q: State)
      requires CastOf(s.pub, who) == Some(Writing(what, snapshot, {}))
      ensures failed == snapshot * fails
      ensures Reaches(s, q) && Midway(s, q, who, snapshot - fails, Writing(what, {}, failed))
    {
      var todo := snapshot;
      failed, q := {}, s;
      MidwayStart(s, who);
      Stays(s);
      while todo != {}
        invariant todo <= snapshot && failed == (snapshot - todo) * fails
        invariant Reaches(s, q) && Midway(s, q, who, (snapshot - todo) - fails, Writing(what, todo, failed))
        decreases todo
      {
        var x :| x in todo;
        ghost var ok, done := x !in fails, (snapshot - todo) - fails;
        MidwayWrite(s, q, who, done, Writing(what, todo, failed), x, ok);
        Steps(s, q, Channel.Broadcast(who, Write(x, ok)));
        q := DoWrite(q, who, x, ok);
        todo := todo - {x};
        if x in fails { failed := failed + {x}; }
        assert (snapshot - todo) - fails == if ok then done + {x} else done;
      }
      assert (snapshot - todo) - fails == snapshot - fails;
    }

    /** The removing loop of a broadcast over the subscribers whose write failed. */
    method RemoveFailed(ghost what: Cast, failed: set<SubId>, ghost s: State, ghost who: Caster) returns (ghost q: State)
      requires Shows(s) && CastOf(s.pub, who) == Some(Writing(what, {}, failed))
      modifies this`subscribers, this`controllerID
      ensures Shows(q) && Reaches(s, q) && Removing(s, q, who, failed, Writing(what, {}, {}))
    {
      var todo := failed;
      ghost var gone := {};
      q := s;
      Stays(s);
      while todo != {}
        invariant todo + gone == failed && subscribers == q.sub.subs && controllerID == q.sub.controller
        invariant Reaches(s, q) && Removing(s, q, who, gone, Writing(what, {}, todo))
        decreases todo
      {
        var x :| x in todo;
        RemovingOne(s, q, who, gone, Writing(what, {}, todo), x);
        EvictReaches(s, q, who, x);
        DropSubscriber(x);
        q := DoEvict(q, who, x).(sub := Removed(q.sub, x));
        todo, gone := todo - {x}, gone + {x};
      }
      assert gone == failed;
    }

    /** Broadcast: exactly the subscribers whose write failed are gone, every
        other one has the message, and the broadcaster has moved on. */
    method Broadcast(ghost what: Cast, fails: set<SubId>, ghost s: State, ghost who: Caster) returns (ghost q: State)
      requires Shows(s) && CastOf(s.pub, who) == Some(Pending(what))
      modifies this`subscribers, this`controllerID
      ensures Reaches(s, q) && Shows(q) && Announced(s, q, who, fails)
    {
      var snapshot := subscribers;
      ghost var n := DoSnap(s, who);
      SnapIs(s, who);
      SnapReaches(s, who);
      var failed;
      ghost var m, r;
      failed, m := WriteAll(what, snapshot, fails, n, who);
      r := RemoveFailed(what, failed, m, who);
      q := Concludes(s, n, m, r, who, fails);
    }

    // ---------------------------------------------------------------- forwarding

    /** The start of forwardPublisherToSubscribers: the connection to read from, or
        none if the publisher is gone or of another epoch already. */
    method StartForwarding(epoch: nat, ghost s: State, ghost g: nat) returns (conn: Option<Conn>, ghost q: State)
      requires Shows(s) && g in s.pub.forwarders && s.pub.forwarders[g] == Forwarder(epoch, Starting)
      ensures Reaches(s, q) && Shows(q) && q == s.(pub := Goto(s.pub, g, if conn.Some? then Reading(conn.value) else Exiting))
      ensures conn == if publisherEpoch == epoch then publisher else None
    {
      q := Do(s, Forward(g, FwdStart));
      Stays(s);
      Steps(s, s, Forward(g, FwdStart));
      conn := publisher;
      if conn == None || publisherEpoch != epoch {
        conn := None;
      }
    }

    /** One iteration of forwardPublisherToSubscribers on a message that was read:
        it ends up in the buffer if it is replayable and with every subscriber
        whose write succeeds. */
    method ForwardMessage(data: Frame, fails: set<SubId>, ghost s: State, ghost g: nat) returns (ghost q: State)
      requires Shows(s) && CanForward(s.pub, g, FwdRead(data))
      modifies this`subscribers, this`controllerID, output, output.backing
      ensures Reaches(s, q) && Shows(q)
      ensures subscribers == old(subscribers) - fails
      ensures output.Contents() == if Replayable(data) then Absorb(old(output.Contents()), data, output.limits) else old(output.Contents())
      ensures Forwarded(s, q, g, data)
    {
      ghost var n := Taken(s, g, data);
      TakenReaches(s, g, data);
      TakenIs(s, g, data);
      if Replayable(data) {
        output.Forward(data);
      }
      ghost var pc := n.pub.forwarders[g].pc;
      q := Broadcast(pc.cast.what, fails, n, ByForwarder(g));
      Continues(s, n, q);
      ForwardedIs(s, n, q, g, data, fails);
    }

    /** handlePublisherDisconnect: a disconnect of the installed publisher takes it
        out, arms the reconnect timer and tells every subscriber; any other
        changes nothing. */
    method HandlePublisherDisconnect(conn: Conn, epoch: nat, fails: set<SubId>, ghost s: State, ghost g: nat)
      returns (ghost q: State)
      requires Shows(s) && g in s.pub.forwarders && s.pub.forwarders[g] == Forwarder(epoch, Dropping(conn))
      modifies this
      ensures Reaches(s, q) && Shows(q) && g in q.pub.forwarders && q.pub.forwarders[g].pc == Exiting
      ensures if old(publisher) == Some(conn) && old(publisherEpoch) == epoch
              then && publisher == None && publisherDisconnected && publisherReconnectTimer.Some?
                   && publisherReconnectTimer.value in q.pub.armed && conn in q.pub.shut
                   && Lost(s, q, g, fails)
              else q == s.(pub := Goto(s.pub, g, Exiting))
    {
      if publisher != Some(conn) || publisherEpoch != epoch {
        q := StaleReaches(s, g);
      } else {
        q := LosePublisher(fails, s, g);
      }
    }

    method LosePublisher(fails: set<SubId>, ghost s: State, ghost g: nat) returns (ghost q: State)
      requires Shows(s) && CanForward(s.pub, g, FwdDrop)
      requires s.pub.publisher == Some(s.pub.forwarders[g].pc.conn) && s.pub.epoch == s.pub.forwarders[g].epoch
      modifies this
      ensures Reaches(s, q) && Shows(q) && Lost(s, q, g, fails)
      ensures publisher == None && publisherDisconnected && publisherReconnectTimer == Some(s.pub.timers)
    {
      ghost var n := Dropped(s, g);
      publisher, publisherDisconnected := None, true;
      publisherReconnectTimer, timers := Some(timers), timers + 1;
      q := Broadcast(RunnerGone, fails, n, ByForwarder(g));
      DroppedReaches(s, g);
      Continues(s, n, q);
      DroppedIs(s, g, q, fails);
    }

    // ----------------------------------------------------------------- joining

    /** addSubscriberInternal: the replay sends the buffer in order until a write
        fails, which the environment lets happen after `good` of them, and then the
        publisher's absence is notified, with a write that succeeds if `heard`. */
    method AddSubscriber(x: SubId, max: nat, good: nat, heard: bool, ghost s: State) returns (r: JoinResult, ghost q: State)
      requires Shows(s) && x !in s.sub.joins && x !in s.sub.told
      modifies this`subscribers
      ensures Reaches(s, q) && Shows(q)
      ensures r.ChannelClosed? <==> old(closed)
      ensures r.AtCapacity? <==> !old(closed) && max > 0 && |old(subscribers)| >= max
      ensures !r.Joined? ==> q == s
      ensures r.Joined? ==>
                && subscribers == old(subscribers) + {x}
                && r.sent == (if good < |s.sub.buf| then good else |s.sub.buf|)
                && r.notified == (publisherDisconnected && heard)
                && Welcomed(s, q, x, r.sent, r.notified)
    {
      q := s;
      Stays(s);
      if closed { return ChannelClosed, q; }
      if max > 0 && |subscribers| >= max { return AtCapacity, q; }
      subscribers := subscribers + {x};
      q := ReplayBegins(s, x, max);
      var sent;
      sent, q := ReplayBuffered(x, good, s, q);
      q := StatusReaches(s, q, x, sent, heard);
      r := Joined(sent, publisherDisconnected && heard);
    }

    /** The replaying loop, after the buffer has been copied. */
    method ReplayBuffered(x: SubId, good: nat, ghost s: State, ghost n: State) returns (k: nat, ghost q: State)
      requires ShowsBuffer(s.sub.buf, s.limits) && Reaches(s, n) && Replaying(s, n, x, 0)
      ensures k == if good < |s.sub.buf| then good else |s.sub.buf|
      ensures Reaches(s, q) && Replays(s, q, x, k)
    {
      var bufferedOutput := output.GetBufferedOutput();
      k, q := 0, n;
      while k < |bufferedOutput| && k < good
        invariant k <= |bufferedOutput| && k <= good
        invariant Reaches(s, q) && Replaying(s, q, x, k)
      {
        q := ReplayContinues(s, q, x, k);
        k := k + 1;
      }
      if k < |bufferedOutput| {
        q := ReplayBreaks(s, q, x, k);
      }
    }

    // ----------------------------------------------------- replacing the publisher

    /** SetPublisher up to the wait for the old forwarder. */
    method ReplacePublisher(conn: Conn, ghost s: State) returns (r: Replacement, ghost q: State)
      requires Shows(s) && s.pub.holder.Free?
      modifies this
      ensures Reaches(s, q) && Shows(q) && q.sub == s.sub
      ensures r.Unwanted? <==> old(closed)
      ensures r.Already? <==> !old(closed) && old(publisher) == Some(conn)
      ensures r.Unwanted? ==> q.pub == s.pub.(shut := s.pub.shut + {conn})
      ensures r.Already? ==> q == s
      ensures r.Proceed? ==>
                && publisher == Some(conn) && !publisherDisconnected && publisherReconnectTimer == None
                && publisherEpoch == r.epoch == old(publisherEpoch) + 1 && r.was == old(publisherDisconnected)
                && q.pub.holder == Waiting(r.epoch, r.was) && q.pub.forwarders == s.pub.forwarders
                && (old(publisher).Some? ==> old(publisher).value in q.pub.shut)
    {
      q := InstallReaches(s, conn);
      if closed { return Unwanted, q; }
      if publisher == Some(conn) { return Already, q; }
      r := Proceed(publisherEpoch + 1, publisherDisconnected);
      publisher, publisherDisconnected, publisherEpoch := Some(conn), false, publisherEpoch + 1;
      publisherReconnectTimer := None;
      q := CloseOldReaches(s, q);
    }

    /** SetPublisher once the old forwarder has left. */
    method ResumePublisher(epoch: nat, was: bool, fails: set<SubId>, ghost s: State, ghost g: nat) returns (ghost q: State)
      requires Shows(s) && s.pub.holder == Waiting(epoch, was) && s.pub.wg == 0 && g !in s.pub.forwarders
      modifies this`subscribers, this`controllerID
      ensures Reaches(s, q) && Shows(q) && q.pub.holder.Free? && q.pub.wg == 1
      ensures q.pub.forwarders == s.pub.forwarders[g := Forwarder(epoch, Starting)]
      ensures q.pub.notices == s.pub.notices + (if was then [BackBegins] + [BackEnds] else [])
      ensures subscribers == if was then old(subscribers) - fails else old(subscribers)
      ensures was ==> WrittenTo(s.sub, q.sub, RunnerBack, subscribers)
    {
      Stays(s);
      Steps(s, s, Replace(AwaitOld));
      ghost var n := s.(pub := DoAwaitOld(s.pub));
      q := n;
      if was {
        q := Broadcast(RunnerBack, fails, n, ByHolder);
        BackIs(n, q, fails);
        Continues(s, n, q);
      }
      q := SpawnReaches(s, q, g);
    }

    // ------------------------------------------------------------------ closing

    /** closeInternal up to the wait for the forwarder. Only the first one goes on. */
    method BeginClose(ghost s: State, ghost byTimer: bool) returns (first: bool, ghost q: State)
      requires Shows(s) && s.pub.holder == Closing(Flag, byTimer)
      modifies this
      ensures Reaches(s, q) && Shows(q) && q.sub == s.sub
      ensures closed && first == !old(closed)
      ensures !first ==> q == s.(pub := s.pub.(holder := Free))
      ensures first ==> publisher == None && publisherReconnectTimer == None
                        && q.pub.holder == Closing(Await, byTimer) && q.pub.cleanups == s.pub.cleanups + 1
                        && (old(publisher).Some? ==> old(publisher).value in q.pub.shut)
    {
      Stays(s);
      Steps(s, s, Shutdown(CloseFlag));
      q := s.(pub := DoCloseFlag(s.pub));
      first := !closed;
      if closed { return; }
      closed := true;
      Steps(s, q, Shutdown(CloseDetach));
      q := q.(pub := DoCloseDetach(q.pub));
      publisher, publisherReconnectTimer := None, None;
    }

    /** closeInternal once the forwarder has left. */
    method FinishClose(ghost s: State) returns (ghost q: State)
      requires Shows(s) && s.pub.holder.Closing? && s.pub.holder.stage == Await && s.pub.wg == 0
      modifies this`subscribers, output, output.backing
      ensures Reaches(s, q) && Shows(q)
      ensures subscribers == {} && output.Contents() == [] && output.backing.Length == 0
      ensures q.pub == s.pub.(holder := Free, callbacks := s.pub.callbacks + 1)
    {
      q := FinishReaches(s);
      subscribers := {};
      output.Release();
    }

    /** The reconnect timer's callback: it closes only if still disconnected. */
    method ReconnectTimeout(ghost t: nat, ghost s: State) returns (closing: bool, ghost q: State)
      requires Shows(s) && s.pub.holder.Free? && t in s.pub.fired
      modifies this
      ensures Reaches(s, q) && Shows(q) && q.sub == s.sub
      ensures closing == (old(publisherDisconnected) && !old(closed))
      ensures closing ==> closed && q.pub.holder == Closing(Await, true)
      ensures !closing ==> q == s.(pub := s.pub.(fired := s.pub.fired - {t}))
    {
      ghost var n := TimerReaches(t, s);
      if !publisherDisconnected { return false, n; }
      closing, q := BeginClose(n, true);
      Continues(s, n, q);
    }
  }

  lemma FinishReaches(s: State) returns (q: State)
    requires s.pub.holder.Closing? && s.pub.holder.stage == Await && s.pub.wg == 0
    ensures Reaches(s, q)
    ensures q == s.(pub := s.pub.(holder := Free, callbacks := s.pub.callbacks + 1), sub := s.sub.(subs := {}, buf := []))
  {
    Stays(s);
    Steps(s, s, Shutdown(CloseAwait));
    var a := Do(s, Shutdown(CloseAwait));
    Steps(s, a, Shutdown(CloseSubs));
    var b := Do(a, Shutdown(CloseSubs));
    Steps(s, b, Shutdown(CloseBuffer));
    var c := Do(b, Shutdown(CloseBuffer));
    Steps(s, c, Shutdown(CloseNotify));
    q := Do(c, Shutdown(CloseNotify));
  }

  lemma SpawnReaches(s: State, q: State, g: nat) returns (r: State)
    requires Reaches(s, q) && q.pub.holder.Spawning? && g !in q.pub.forwarders
    ensures Reaches(s, r) && r == q.(pub := DoSpawn(q.pub, g))
  {
    Steps(s, q, Replace(Spawn(g)));
    r := q.(pub := DoSpawn(q.pub, g));
  }

  /** The announcement of a reconnect leaves the holder about to spawn. */
  lemma BackIs(n: State, q: State, fails: set<SubId>)
    requires n.pub.holder.Announcing? && n.pub.holder.cast == Pending(RunnerBack) && Announced(n, q, ByHolder, fails)
    ensures q.pub == n.pub.(holder := Spawning(n.pub.holder.epoch), notices := n.pub.notices + [BackBegins] + [BackEnds],
                            casts := q.pub.casts)
  {
  }

  lemma TimerReaches(t: nat, s: State) returns (q: State)
    requires s.pub.holder.Free? && t in s.pub.fired
    ensures Reaches(s, q)
    ensures q == s.(pub := s.pub.(fired := s.pub.fired - {t}, holder := if s.pub.disconnected then Closing(Flag, true) else Free))
  {
    Stays(s);
    Steps(s, s, Timer(EnterTimer(t)));
    var n := Do(s, Timer(EnterTimer(t)));
    Steps(s, n, Timer(TimerCheck));
    q := Do(n, Timer(TimerCheck));
  }

  predicate GotFrame(inbox: seq<Cast>, data: Frame)
    requires inbox != []
  {
    var last := inbox[|inbox| - 1];
    last.Data? && last.frame == data
  }
}
