/** What a subscriber last heard about the runner, against what is the case.

    Two sources tell it: the broadcasts of RunnerDisconnected and RunnerReconnected,
    and the notice that a join sends after a look at the disconnected flag. */
module Status {
  import opened Wire
  import opened ReplayBuffer
  import opened Channel
  import opened PublisherSafety

  predicate IsNotice(c: Cast) {
    c.RunnerGone? || c.RunnerBack?
  }

  /** The last thing heard about the runner. */
  function LastNotice(inbox: seq<Cast>): Option<Cast> {
    if inbox == [] then None
    else if IsNotice(inbox[|inbox| - 1]) then Some(inbox[|inbox| - 1])
    else LastNotice(inbox[..|inbox| - 1])
  }

  lemma LastAppend(inbox: seq<Cast>, c: Cast)
    ensures LastNotice(inbox + [c]) == if IsNotice(c) then Some(c) else LastNotice(inbox)
  {
    assert (inbox + [c])[..|inbox|] == inbox;
  }

  function Heard(b: Sub, x: SubId): Option<Cast> {
    if x in b.inbox then LastNotice(b.inbox[x]) else None
  }

  lemma HeardDeliver(b: Sub, y: SubId, c: Cast, x: SubId)
    ensures Heard(b.(inbox := Deliver(b.inbox, y, c)), x) == if x == y && IsNotice(c) then Some(c) else Heard(b, x)
  {
    LastAppend(if y in b.inbox then b.inbox[y] else [], c);
  }

  predicate Listening(b: Sub, x: SubId) {
    x in b.subs && x !in b.broken
  }

  // -------------------------------------------------------------------- invariants

  /** The forwarder at `pc` will still tell `x` that the runner is gone. */
  predicate WillTell(pc: FwdPC, x: SubId) {
    pc.Hangup? || (pc.Farewell? && (pc.cast.Pending? || x in pc.cast.todo))
  }

  ghost predicate WillBeTold(p: Pub, x: SubId) {
    exists g :: g in p.forwarders && WillTell(p.forwarders[g].pc, x)
  }

  /** The join of `x` is past telling it anything. */
  predicate JoinDone(b: Sub, x: SubId) {
    x in b.told && !b.told[x]
  }

  /** While the runner is away, everybody listening knows, or is about to be told. */
  ghost predicate Known(p: Pub, b: Sub) {
    p.disconnected ==>
      forall x :: Listening(b, x) ==> Heard(b, x) == Some(RunnerGone) || WillBeTold(p, x) || !JoinDone(b, x)
  }

  /** The runner is away, or `x` is still to hear that it is back. */
  predicate StillDown(p: Pub, x: SubId) {
    || p.disconnected
    || ((p.holder.Installed? || p.holder.Waiting?) && p.holder.was)
    || (p.holder.Announcing? && (p.holder.cast.Pending? || x in p.holder.cast.todo))
  }

  /** Whoever was last told that the runner is gone was told the truth. */
  ghost predicate Truthful(p: Pub, b: Sub) {
    forall x :: Listening(b, x) && Heard(b, x) == Some(RunnerGone) ==> StillDown(p, x)
  }

  ghost predicate ToldJoined(b: Sub) {
    b.told.Keys <= b.joins.Keys
  }

  /** A status notice, decided while the runner was away, that is sent to a listening
      subscriber after the runner is back and the subscriber has heard so. */
  predicate TellsLate(s: State, a: Action) {
    a.Subscriber? && a.sub == JoinTell(true) && Listening(s.sub, a.x) && !StillDown(s.pub, a.x)
  }

  /** Neither of the two is lost between `p`, `b` and `q`, `c`. */
  ghost predicate Kept(p: Pub, b: Sub, q: Pub, c: Sub) {
    (Known(p, b) ==> Known(q, c)) && (Truthful(p, b) ==> Truthful(q, c))
  }

  // ---------------------------------------------------------- steps of a subscriber

  lemma KnownSubscriber(p: Pub, b: Sub, x: SubId, a: SubAct)
    requires Known(p, b) && ToldJoined(b) && CanSubscribe(p, b, x, a)
    ensures Known(p, DoSubscribe(p, b, x, a)) && ToldJoined(DoSubscribe(p, b, x, a))
  {
    var c := DoSubscribe(p, b, x, a);
    forall y | p.disconnected && Listening(c, y)
      ensures Heard(c, y) == Some(RunnerGone) || WillBeTold(p, y) || !JoinDone(c, y)
    {
      HeardBySubscriber(p, b, x, a, y);
    }
  }

  /** How a subscriber's own step changes what anybody listening has heard. */
  lemma HeardBySubscriber(p: Pub, b: Sub, x: SubId, a: SubAct, y: SubId)
    requires CanSubscribe(p, b, x, a)
    ensures Heard(DoSubscribe(p, b, x, a), y) == HeardNext(b, x, a, y)
    ensures Listening(DoSubscribe(p, b, x, a), y) && !(a.JoinInsert? && y == x) ==> Listening(b, y)
  {
    ListeningBefore(p, b, x, a, y);
    if a == JoinWrite(true) {
      HeardReplay(b, x, y);
    } else if a == JoinTell(true) {
      HeardTell(b, x, y);
    } else if !a.JoinInsert? {
      InboxSame(p, b, x, a);
    }
  }

  function HeardNext(b: Sub, x: SubId, a: SubAct, y: SubId): Option<Cast> {
    if y == x && a == JoinTell(true) then Some(RunnerGone)
    else if y == x && a.JoinInsert? then None
    else Heard(b, y)
  }

  lemma HeardReplay(b: Sub, x: SubId, y: SubId)
    requires x in b.joins && b.joins[x].Copied? && b.joins[x].pos < |b.joins[x].copy|
    ensures Heard(DoJoinWrite(b, x, true), y) == Heard(b, y)
  {
    var j := b.joins[x];
    HeardDeliver(b, x, Data(j.copy[j.pos], Some(j.base + j.pos)), y);
  }

  lemma HeardTell(b: Sub, x: SubId, y: SubId)
    ensures Heard(DoJoinTell(b, x, true), y) == if y == x then Some(RunnerGone) else Heard(b, y)
  {
    HeardDeliver(b, x, RunnerGone, y);
  }

  lemma InboxSame(p: Pub, b: Sub, x: SubId, a: SubAct)
    requires CanSubscribe(p, b, x, a) && a != JoinWrite(true) && a != JoinTell(true) && !a.JoinInsert?
    ensures DoSubscribe(p, b, x, a).inbox == b.inbox
  {
  }

  lemma ListeningBefore(p: Pub, b: Sub, x: SubId, a: SubAct, y: SubId)
    requires CanSubscribe(p, b, x, a)
    ensures Listening(DoSubscribe(p, b, x, a), y) && !(a.JoinInsert? && y == x) ==> Listening(b, y)
  {
  }

  lemma TruthfulSubscriber(p: Pub, b: Sub, x: SubId, a: SubAct)
    requires Truthful(p, b) && CanSubscribe(p, b, x, a)
    ensures Truthful(p, DoSubscribe(p, b, x, a)) <==> !(a == JoinTell(true) && Listening(b, x) && !StillDown(p, x))
  {
    var c := DoSubscribe(p, b, x, a);
    forall y ensures Listening(c, y) && Heard(c, y) == Some(RunnerGone) ==>
                       StillDown(p, y) || (y == x && a == JoinTell(true) && Listening(b, x))
    {
      HeardBySubscriber(p, b, x, a, y);
    }
    HeardBySubscriber(p, b, x, a, x);
  }

  // ----------------------------------------------------------- steps of a broadcast

  /** A write of `what` to `y`. */
  lemma KnownWrite(p: Pub, q: Pub, b: Sub, y: SubId, what: Cast, ok: bool)
    requires Known(p, b) && q.disconnected == p.disconnected && (p.disconnected ==> what != RunnerBack)
    requires forall x :: WillBeTold(p, x) ==> WillBeTold(q, x) || (x == y && what == RunnerGone)
    ensures Known(q, Wrote(b, y, what, ok))
  {
    var c := Wrote(b, y, what, ok);
    forall x | q.disconnected && Listening(c, x)
      ensures Heard(c, x) == Some(RunnerGone) || WillBeTold(q, x) || !JoinDone(c, x)
    {
      HeardDeliver(b, y, what, x);
      assert Listening(b, x);
    }
  }

  function Wrote(b: Sub, y: SubId, what: Cast, ok: bool): Sub {
    if ok then b.(inbox := Deliver(b.inbox, y, what)) else b.(broken := b.broken + {y})
  }

  lemma TruthfulWrite(p: Pub, q: Pub, b: Sub, y: SubId, what: Cast, ok: bool)
    requires Truthful(p, b) && (what == RunnerGone ==> StillDown(q, y))
    requires forall x :: StillDown(p, x) ==> StillDown(q, x) || (x == y && what == RunnerBack)
    ensures Truthful(q, Wrote(b, y, what, ok))
  {
    var c := Wrote(b, y, what, ok);
    forall x | Listening(c, x) && Heard(c, x) == Some(RunnerGone) ensures StillDown(q, x) {
      HeardDeliver(b, y, what, x);
    }
  }

  lemma CastWrite(s: State, who: Caster, x: SubId, ok: bool)
    requires PubInv(s.pub) && CanCast(s.pub, who, Write(x, ok))
    ensures var q := DoWrite(s, who, x, ok); Kept(s.pub, s.sub, q.pub, q.sub)
  {
    var p, q, c := s.pub, DoWrite(s, who, x, ok).pub, CastOf(s.pub, who).value;
    assert q.disconnected == p.disconnected;
    forall y | WillBeTold(p, y) && !(y == x && c.what == RunnerGone) ensures WillBeTold(q, y) {
      var g :| g in p.forwarders && WillTell(p.forwarders[g].pc, y);
      assert WillTell(q.forwarders[g].pc, y);
    }
    if Known(p, s.sub) { KnownWrite(p, q, s.sub, x, c.what, ok); }
    if Truthful(p, s.sub) { TruthfulWrite(p, q, s.sub, x, c.what, ok); }
  }

  lemma CastOther(s: State, who: Caster, a: CastAct)
    requires PubInv(s.pub) && CanCast(s.pub, who, a) && !a.Write?
    ensures var q := DoCast(s, who, a); Kept(s.pub, s.sub, q.pub, q.sub)
  {
    var p, q := s.pub, DoCast(s, who, a);
    assert q.pub.disconnected == p.disconnected;
    forall x | Listening(q.sub, x) ensures Listening(s.sub, x) && Heard(q.sub, x) == Heard(s.sub, x) {}
    forall x | Listening(s.sub, x) && WillBeTold(p, x) ensures WillBeTold(q.pub, x) {
      var g :| g in p.forwarders && WillTell(p.forwarders[g].pc, x);
      assert WillTell(q.pub.forwarders[g].pc, x);
    }
  }

  // --------------------------------------------------------- steps of the publisher

  /** A step that tells nobody anything. */
  lemma Silent(p: Pub, b: Sub, q: Pub, c: Sub)
    requires c.subs <= b.subs && c.inbox == b.inbox && c.broken == b.broken && c.told == b.told
    requires forall x :: Listening(b, x) && WillBeTold(p, x) ==> WillBeTold(q, x)
    requires q.disconnected ==> p.disconnected || forall x :: Listening(b, x) ==> WillBeTold(q, x)
    requires forall x :: StillDown(p, x) ==> StillDown(q, x)
    ensures Kept(p, b, q, c)
  {
    forall x | Listening(c, x)
      ensures Listening(b, x) && Heard(c, x) == Heard(b, x) && (JoinDone(c, x) <==> JoinDone(b, x))
    {
    }
  }

  lemma ForwardLeavesSubs(s: State, g: nat, a: FwdAct)
    requires CanForward(s.pub, g, a)
    ensures var c, b := DoForward(s, g, a).sub, s.sub;
            c.subs == b.subs && c.inbox == b.inbox && c.broken == b.broken && c.told == b.told && c.joins == b.joins
  {
  }

  /** A disconnect comes with somebody who will announce it. */
  lemma ForwardTells(s: State, g: nat, a: FwdAct, x: SubId)
    requires Counted(s.pub) && CanForward(s.pub, g, a)
    ensures var p, q := s.pub, DoForward(s, g, a).pub;
            WillBeTold(p, x) || (q.disconnected && !p.disconnected) ==> WillBeTold(q, x)
  {
    var p, q := s.pub, DoForward(s, g, a).pub;
    if WillBeTold(p, x) {
      var h :| h in p.forwarders && WillTell(p.forwarders[h].pc, x);
      assert h == g && WillTell(q.forwarders[g].pc, x);
    } else if q.disconnected && !p.disconnected {
      assert WillTell(q.forwarders[g].pc, x);
    }
  }

  lemma ForwardStatus(s: State, g: nat, a: FwdAct)
    requires PubInv(s.pub) && CanForward(s.pub, g, a)
    ensures var q := DoForward(s, g, a); Kept(s.pub, s.sub, q.pub, q.sub)
  {
    var p, q := s.pub, DoForward(s, g, a);
    ForwardLeavesSubs(s, g, a);
    forall x ensures WillBeTold(p, x) || (q.pub.disconnected && !p.disconnected) ==> WillBeTold(q.pub, x) {
      ForwardTells(s, g, a, x);
    }
    assert q.pub.holder == p.holder && (p.disconnected ==> q.pub.disconnected);
    Silent(p, s.sub, q.pub, q.sub);
  }

  lemma ReplaceStatus(p: Pub, b: Sub, a: ReplaceAct)
    requires PubInv(p) && CanReplace(p, a)
    ensures Kept(p, b, DoReplace(p, a), b)
  {
    var q := DoReplace(p, a);
    assert q.disconnected ==> p.disconnected && q.forwarders == p.forwarders;
    assert forall x :: StillDown(p, x) ==> StillDown(q, x);
  }

  lemma CloseStatus(s: State, a: CloseAct)
    requires CanClose(s.pub, a)
    ensures var q := DoClose(s, a); Kept(s.pub, s.sub, q.pub, q.sub)
  {
    var p, q := s.pub, DoClose(s, a);
    assert q.pub.disconnected == p.disconnected && q.pub.forwarders == p.forwarders;
    assert forall x :: WillBeTold(q.pub, x) <==> WillBeTold(p, x);
    assert forall x :: StillDown(p, x) ==> StillDown(q.pub, x);
    Silent(p, s.sub, q.pub, q.sub);
  }

  lemma TimeStatus(p: Pub, b: Sub, a: TimerAct)
    requires CanTime(p, a)
    ensures Kept(p, b, DoTime(p, a), b)
  {
    var q := DoTime(p, a);
    assert q.disconnected == p.disconnected && q.forwarders == p.forwarders;
    assert forall x :: StillDown(p, x) ==> StillDown(q, x);
  }

  // --------------------------------------------------------------------- every step

  /** Whatever is not a subscriber's own step tells the truth. */
  lemma OthersKeep(s: State, a: Action)
    requires PubInv(s.pub) && Enabled(s, a) && !a.Subscriber?
    ensures Kept(s.pub, s.sub, Do(s, a).pub, Do(s, a).sub)
  {
    match a
    case Replace(r) => ReplaceStatus(s.pub, s.sub, r);
    case Broadcast(who, c) => if c.Write? { CastWrite(s, who, c.x, c.ok); } else { CastOther(s, who, c); }
    case Forward(g, f) => ForwardStatus(s, g, f);
    case Timer(t) => TimeStatus(s.pub, s.sub, t);
    case Shutdown(c) => CloseStatus(s, c);
  }

  lemma CastToldSame(s: State, who: Caster, a: CastAct)
    requires CanCast(s.pub, who, a)
    ensures DoCast(s, who, a).sub.told == s.sub.told && DoCast(s, who, a).sub.joins == s.sub.joins
  {
  }

  lemma ToldStep(s: State, a: Action)
    requires ToldJoined(s.sub) && Enabled(s, a) && !a.Subscriber?
    ensures ToldJoined(Do(s, a).sub)
  {
    match a
    case Forward(g, f) => ForwardLeavesSubs(s, g, f);
    case Broadcast(who, c) => CastToldSame(s, who, c);
    case Replace(r) =>
    case Timer(t) =>
    case Shutdown(c) =>
  }

  lemma KnownStep(s: State, a: Action)
    requires PubInv(s.pub) && Known(s.pub, s.sub) && ToldJoined(s.sub) && Enabled(s, a)
    ensures Known(Do(s, a).pub, Do(s, a).sub) && ToldJoined(Do(s, a).sub)
  {
    if a.Subscriber? {
      KnownSubscriber(s.pub, s.sub, a.x, a.sub);
    } else {
      OthersKeep(s, a);
      ToldStep(s, a);
    }
  }

  lemma TruthfulStep(s: State, a: Action)
    requires PubInv(s.pub) && Truthful(s.pub, s.sub) && Enabled(s, a)
    ensures Truthful(Do(s, a).pub, Do(s, a).sub) <==> !TellsLate(s, a)
  {
    if a.Subscriber? {
      TruthfulSubscriber(s.pub, s.sub, a.x, a.sub);
    } else {
      OthersKeep(s, a);
    }
  }

  lemma {:induction false} RunKnown(l: Budget, acts: seq<Action>)
    requires Run(Init(l), acts)
    ensures Known(After(Init(l), acts).pub, After(Init(l), acts).sub) && ToldJoined(After(Init(l), acts).sub)
  {
    if acts != [] {
      var rest := acts[..|acts| - 1];
      RunKnown(l, rest);
      PublisherSafety.RunKeeps(l, rest);
      KnownStep(After(Init(l), rest), acts[|acts| - 1]);
    }
  }

  // ----------------------------------------------------------------------- theorems

  /** No subscriber misses that the runner is gone: in every run, while the publisher
      is disconnected and its farewell has been broadcast, the last thing that each
      subscriber with sound writes and a finished join has heard is just that. */
  lemma DisconnectIsKnown(l: Budget, acts: seq<Action>, x: SubId)
    requires Run(Init(l), acts)
    requires var s := After(Init(l), acts);
             && s.pub.disconnected && (forall g :: g in s.pub.forwarders ==> !Leaving(s.pub.forwarders[g].pc))
             && Listening(s.sub, x) && JoinDone(s.sub, x)
    ensures Heard(After(Init(l), acts).sub, x) == Some(RunnerGone)
  {
    RunKnown(l, acts);
  }

  ghost predicate AlwaysTruthful(s: State, acts: seq<Action>)
    requires Run(s, acts)
    decreases |acts|
  {
    Truthful(After(s, acts).pub, After(s, acts).sub) && (acts == [] || AlwaysTruthful(s, acts[..|acts| - 1]))
  }

  ghost predicate ToldLate(s: State, acts: seq<Action>)
    requires Run(s, acts)
    decreases |acts|
  {
    acts != [] &&
    (ToldLate(s, acts[..|acts| - 1]) || TellsLate(After(s, acts[..|acts| - 1]), acts[|acts| - 1]))
  }

  /** Conversely, throughout a run whoever last heard that the runner is gone is right,
      or still to be told otherwise, if and only if no join sends its notice after
      the runner's return has been announced to it. */
  lemma {:induction false} NoticesAreTrueExactlyWhen(l: Budget, acts: seq<Action>)
    requires Run(Init(l), acts)
    ensures AlwaysTruthful(Init(l), acts) <==> !ToldLate(Init(l), acts)
  {
    if acts != [] {
      var rest := acts[..|acts| - 1];
      NoticesAreTrueExactlyWhen(l, rest);
      PublisherSafety.RunKeeps(l, rest);
      if AlwaysTruthful(Init(l), rest) {
        TruthfulStep(After(Init(l), rest), acts[|acts| - 1]);
      }
    }
  }

  // ------------------------------------------------------------ a notice that is late

  /** A runner connects to a channel that has none. */
  lemma Connect(i: State, s: State, c: Conn) returns (q: State)
    requires Reaches(i, s) && s.pub.holder.Free? && s.pub.wg == 0 && s.pub.forwarders == map[]
    requires !s.pub.closed && !s.pub.disconnected && s.pub.publisher.None? && s.pub.timer.None?
    ensures Reaches(i, q) && q.sub == s.sub && q.pub.publisher == Some(c) && !q.pub.disconnected && !q.pub.closed
    ensures q.pub.holder.Free? && q.pub.forwarders == map[0 := Forwarder(q.pub.epoch, Starting)] && q.pub.wg == 1
    ensures q.pub.shut == s.pub.shut
  {
    Steps(i, s, Replace(EnterSet(c)));
    var a := Do(s, Replace(EnterSet(c)));
    Steps(i, a, Replace(Install));
    var b := Do(a, Replace(Install));
    Steps(i, b, Replace(CloseOld));
    var d := Do(b, Replace(CloseOld));
    Steps(i, d, Replace(AwaitOld));
    var e := Do(d, Replace(AwaitOld));
    Steps(i, e, Replace(Spawn(0)));
    q := Do(e, Replace(Spawn(0)));
  }

  /** Its connection fails before anybody listens. */
  lemma Fail(i: State, s: State) returns (q: State)
    requires Reaches(i, s) && s.pub.publisher.Some? && s.pub.holder.Free? && s.pub.wg == 1
    requires s.pub.forwarders == map[0 := Forwarder(s.pub.epoch, Starting)]
    ensures Reaches(i, q) && q.sub == s.sub && q.pub.holder.Free? && q.pub.wg == 1 && q.pub.closed == s.pub.closed
    ensures q.pub.disconnected && q.pub.publisher.None? && q.pub.epoch == s.pub.epoch
    ensures q.pub.forwarders == map[0 := Forwarder(s.pub.epoch, Farewell(Pending(RunnerGone)))]
  {
    Steps(i, s, Forward(0, FwdStart));
    var a := Do(s, Forward(0, FwdStart));
    Steps(i, a, Forward(0, FwdFail));
    var b := Do(a, Forward(0, FwdFail));
    Steps(i, b, Forward(0, FwdDrop));
    var d := Do(b, Forward(0, FwdDrop));
    Steps(i, d, Forward(0, FwdHangup));
    q := Do(d, Forward(0, FwdHangup));
  }

  lemma Farewells(i: State, s: State) returns (q: State)
    requires Reaches(i, s) && s.pub.wg == 1 && s.sub.subs == {}
    requires s.pub.forwarders == map[0 := Forwarder(s.pub.epoch, Farewell(Pending(RunnerGone)))]
    ensures Reaches(i, q) && q.sub == s.sub && q.pub.forwarders == map[] && q.pub.wg == 0
    ensures q.pub.disconnected == s.pub.disconnected && q.pub.holder == s.pub.holder && q.pub.publisher == s.pub.publisher
    ensures q.pub.closed == s.pub.closed
  {
    var who := ByForwarder(0);
    Steps(i, s, Broadcast(who, Snap));
    var a := Do(s, Broadcast(who, Snap));
    Steps(i, a, Broadcast(who, EndCast));
    var b := Do(a, Broadcast(who, EndCast));
    Steps(i, b, Forward(0, FwdExit));
    q := Do(b, Forward(0, FwdExit));
    assert q.pub.forwarders == map[];
  }

  /** A subscriber joins, looks at the flag, and is about to be told. */
  lemma Looks(i: State, s: State, x: SubId) returns (q: State)
    requires Reaches(i, s) && !s.pub.closed && s.pub.disconnected && x !in s.sub.joins && x !in s.sub.told && s.sub.buf == []
    ensures Reaches(i, q) && q.pub == s.pub && q.sub.subs == s.sub.subs + {x} && q.sub.broken == s.sub.broken
    ensures x in q.sub.told && q.sub.told[x] && x in q.sub.inbox && q.sub.inbox[x] == []
  {
    Steps(i, s, Subscriber(x, JoinInsert(0)));
    var a := Do(s, Subscriber(x, JoinInsert(0)));
    Steps(i, a, Subscriber(x, JoinCopy));
    var b := Do(a, Subscriber(x, JoinCopy));
    Steps(i, b, Subscriber(x, JoinStatus));
    q := Do(b, Subscriber(x, JoinStatus));
  }

  /** The runner comes back and is about to say so. */
  lemma Returns(i: State, s: State, c: Conn) returns (q: State)
    requires Reaches(i, s) && s.pub.holder.Free? && s.pub.wg == 0 && !s.pub.closed && s.pub.disconnected && s.pub.publisher.None?
    ensures Reaches(i, q) && q.sub == s.sub && q.pub.publisher == Some(c) && !q.pub.disconnected
    ensures q.pub.holder.Announcing? && q.pub.holder.cast == Pending(RunnerBack)
  {
    Steps(i, s, Replace(EnterSet(c)));
    var a := Do(s, Replace(EnterSet(c)));
    Steps(i, a, Replace(Install));
    var b := Do(a, Replace(Install));
    Steps(i, b, Replace(CloseOld));
    var d := Do(b, Replace(CloseOld));
    Steps(i, d, Replace(AwaitOld));
    q := Do(d, Replace(AwaitOld));
  }

  /** It tells the one subscriber, and only then does the join send its notice. */
  lemma TellsAfterwards(i: State, s: State, x: SubId) returns (q: State)
    requires Reaches(i, s) && s.pub.holder.Announcing? && s.pub.holder.cast == Pending(RunnerBack) && !s.pub.disconnected
    requires s.sub.subs == {x} && x !in s.sub.broken && x in s.sub.told && s.sub.told[x] && x in s.sub.inbox
    ensures Reaches(i, q) && TellsLate(q, Subscriber(x, JoinTell(true))) && Enabled(q, Subscriber(x, JoinTell(true)))
    ensures q.pub.publisher == s.pub.publisher
  {
    Steps(i, s, Broadcast(ByHolder, Snap));
    var a := Do(s, Broadcast(ByHolder, Snap));
    Steps(i, a, Broadcast(ByHolder, Write(x, true)));
    var b := Do(a, Broadcast(ByHolder, Write(x, true)));
    Steps(i, b, Broadcast(ByHolder, EndCast));
    q := Do(b, Broadcast(ByHolder, EndCast));
  }

  /** A late notice does happen: in the end a runner is connected and a listening
      subscriber was last told that it is gone, with nobody about to correct it. */
  lemma NoticeCanBeLate(l: Budget, x: SubId) returns (s: State)
    ensures Reaches(Init(l), s) && s.pub.publisher.Some? && Listening(s.sub, x)
    ensures Heard(s.sub, x) == Some(RunnerGone) && !StillDown(s.pub, x)
  {
    var i := Init(l);
    Stays(i);
    s := Connect(i, i, 1);
    s := Fail(i, s);
    s := Farewells(i, s);
    s := Looks(i, s, x);
    s := Returns(i, s, 2);
    var late := TellsAfterwards(i, s, x);
    var a := Subscriber(x, JoinTell(true));
    Steps(i, late, a);
    HeardBySubscriber(late.pub, late.sub, x, JoinTell(true), x);
    s := Do(late, a);
  }
}
