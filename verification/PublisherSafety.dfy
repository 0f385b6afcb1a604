/** What every interleaving of publisher replacements, disconnects, reconnect
    timers and closes keeps. */
module PublisherSafety {
  import opened Wire
  import opened ReplayBuffer
  import opened Channel

  // -------------------------------------------------------------- invariant

  /** The wait group counts the forwarders, and there is at most one. */
  ghost predicate Counted(p: Pub) {
    && p.wg == |p.forwarders|
    && (forall g, h :: g in p.forwarders && h in p.forwarders ==> g == h)
  }

  /** Past a completed wait, and before the lock is handed on. */
  predicate PastWait(h: Holder) {
    h.Announcing? || h.Spawning? || (h.Closing? && h.stage in {DropSubs, DropBuffer, Notify})
  }

  predicate Replacing(h: Holder) {
    h.Installed? || h.Waiting? || h.Announcing? || h.Spawning?
  }

  predicate ClosingNow(p: Pub) {
    p.holder.Closing? && p.holder.stage != Flag
  }

  /** closeInternal has run to its end. */
  predicate Finished(p: Pub) {
    p.closed && !ClosingNow(p)
  }

  /** closeInternal is past the section that detaches the publisher. */
  predicate Detached(p: Pub) {
    p.closed && !(p.holder.Closing? && p.holder.stage == Detach)
  }

  ghost predicate Lifecycle(p: Pub) {
    && (PastWait(p.holder) || Finished(p) ==> p.forwarders == map[])
    && (forall g :: g in p.forwarders ==> p.forwarders[g].epoch <= p.epoch)
    && (Replacing(p.holder) ==>
          && p.holder.epoch == p.epoch && p.publisher.Some? && !p.disconnected && !p.closed
          && (forall g :: g in p.forwarders ==> p.forwarders[g].epoch < p.epoch))
    && (ClosingNow(p) ==> p.closed)
    && p.cleanups == (if p.closed then 1 else 0)
    && p.callbacks == (if Finished(p) then 1 else 0)
  }

  ghost predicate Timers(p: Pub) {
    && (p.disconnected ==> p.publisher.None?)
    && (p.timer.Some? ==> p.disconnected)
    && (forall t :: t in p.armed ==> p.timer == Some(t))
    && (Detached(p) ==> p.publisher.None? && p.timer.None?)
    && (p.holder.Closing? && p.holder.byTimer ==> p.publisher.None? && p.disconnected)
  }

  /** The connection a forwarder will read from next. */
  function ReadsFrom(pc: FwdPC): Option<Conn> {
    match pc
    case Reading(c) => Some(c)
    case Clearing(c, _) => Some(c)
    case Buffering(c, _) => Some(c)
    case Casting(c, _) => Some(c)
    case _ => None
  }

  /** A forwarder reads the installed connection, or one that is closed already,
      or one that the replacement in progress is about to close. */
  ghost predicate Reads(p: Pub) {
    forall g :: g in p.forwarders && ReadsFrom(p.forwarders[g].pc).Some? ==>
                  var c := ReadsFrom(p.forwarders[g].pc).value;
                  || c in p.shut
                  || (p.publisher == Some(c) && p.forwarders[g].epoch == p.epoch)
                  || (p.holder.Installed? && p.holder.prior == Some(c))
  }

  ghost predicate EpochsOrdered(p: Pub) {
    && (forall i, j :: 0 <= i < j < |p.casts| ==> p.casts[i].epoch <= p.casts[j].epoch)
    && (forall i :: 0 <= i < |p.casts| ==> p.casts[i].epoch <= p.epoch)
    && (forall i, g :: 0 <= i < |p.casts| && g in p.forwarders ==> p.casts[i].epoch <= p.forwarders[g].epoch)
  }

  ghost predicate CastKinds(p: Pub) {
    && (p.holder.Announcing? ==> p.holder.cast.what == RunnerBack)
    && (forall g :: g in p.forwarders ==>
                      && (p.forwarders[g].pc.Casting? ==> p.forwarders[g].pc.cast.what.Data?)
                      && (p.forwarders[g].pc.Farewell? ==> p.forwarders[g].pc.cast.what == RunnerGone))
  }

  /** The only order in which the notifications can happen. */
  function Cycle(i: nat): Notice {
    var k := i % 4;
    if k == 0 then GoneBegins else if k == 1 then GoneEnds else if k == 2 then BackBegins else BackEnds
  }

  predicate Alternating(n: seq<Notice>) {
    forall i :: 0 <= i < |n| ==> n[i] == Cycle(i)
  }

  /** A disconnect has been recorded that no RunnerReconnected has answered yet. */
  predicate Down(p: Pub) {
    p.disconnected || ((p.holder.Installed? || p.holder.Waiting?) && p.holder.was)
  }

  predicate Leaving(pc: FwdPC) {
    pc.Hangup? || pc.Farewell?
  }

  ghost predicate NoticePhase(p: Pub) {
    && Alternating(p.notices)
    && (forall g :: g in p.forwarders && Leaving(p.forwarders[g].pc) ==>
                      && Down(p)
                      && |p.notices| % 4 ==
                         (if p.forwarders[g].pc.Farewell? && p.forwarders[g].pc.cast.Writing? then 1 else 0))
    && ((forall g :: g in p.forwarders ==> !Leaving(p.forwarders[g].pc)) ==>
          |p.notices| % 4 == (if p.holder.Announcing? then (if p.holder.cast.Pending? then 2 else 3)
                              else if Down(p) then 2 else 0))
  }

  ghost predicate PubInv(p: Pub) {
    Counted(p) && Lifecycle(p) && Timers(p) && Reads(p) && EpochsOrdered(p) && CastKinds(p) && NoticePhase(p)
  }

  // ----------------------------------------------------------- preservation

  lemma InitKeeps(l: Budget)
    ensures PubInv(Init(l).pub)
  {
  }

  lemma EnterKeeps(p: Pub, h: Holder)
    requires PubInv(p) && p.holder.Free?
    requires h.Entered? || h.TimerEntered? || h == Closing(Flag, false)
    ensures PubInv(p.(holder := h))
  {
  }

  lemma InstallKeeps(p: Pub)
    requires PubInv(p) && p.holder.Entered?
    ensures PubInv(DoInstall(p))
  {
    var q := DoInstall(p);
    assert Counted(q) && Lifecycle(q);
    assert Timers(q) && Reads(q);
    assert EpochsOrdered(q) && CastKinds(q) && NoticePhase(q);
  }

  lemma CloseOldKeeps(p: Pub)
    requires PubInv(p) && p.holder.Installed?
    ensures PubInv(DoCloseOld(p))
  {
  }

  lemma AwaitOldKeeps(p: Pub)
    requires PubInv(p) && p.holder.Waiting? && p.wg == 0
    ensures PubInv(DoAwaitOld(p))
  {
  }

  lemma SpawnKeeps(p: Pub, g: nat)
    requires PubInv(p) && p.holder.Spawning? && g !in p.forwarders
    ensures PubInv(DoSpawn(p, g))
  {
  }

  /** A forwarder that moves on without touching the shared state. */
  lemma GotoKeeps(p: Pub, g: nat, pc: FwdPC)
    requires PubInv(p) && g in p.forwarders
    requires !Leaving(p.forwarders[g].pc) && !Leaving(pc)
    requires ReadsFrom(pc).None? || ReadsFrom(pc) == ReadsFrom(p.forwarders[g].pc) ||
             (ReadsFrom(pc) == p.publisher && p.forwarders[g].epoch == p.epoch)
    requires pc.Casting? ==> pc.cast.what.Data?
    ensures PubInv(Goto(p, g, pc))
  {
  }

  lemma DropKeeps(p: Pub, g: nat)
    requires PubInv(p) && g in p.forwarders && p.forwarders[g].pc.Dropping?
    ensures PubInv(DoFwdDrop(p, g))
  {
    if p.publisher != Some(p.forwarders[g].pc.conn) || p.epoch != p.forwarders[g].epoch {
      GotoKeeps(p, g, Exiting);
    } else {
      LoseKeeps(p, g);
    }
  }

  lemma LoseKeeps(p: Pub, g: nat)
    requires PubInv(p) && g in p.forwarders && p.forwarders[g].pc.Dropping?
    requires p.publisher == Some(p.forwarders[g].pc.conn) && p.epoch == p.forwarders[g].epoch
    ensures PubInv(DoFwdDrop(p, g))
  {
    var q := DoFwdDrop(p, g);
    assert !Replacing(p.holder) && !Down(p) && Down(q);
    assert Counted(q) && Lifecycle(q) && Timers(q) && Reads(q) && EpochsOrdered(q) && CastKinds(q);
  }

  lemma HangupKeeps(p: Pub, g: nat)
    requires PubInv(p) && g in p.forwarders && p.forwarders[g].pc.Hangup?
    ensures PubInv(DoFwdHangup(p, g))
  {
  }

  lemma ExitKeeps(p: Pub, g: nat)
    requires PubInv(p) && g in p.forwarders && p.forwarders[g].pc.Exiting?
    ensures p.wg > 0 && PubInv(DoFwdExit(p, g))
  {
    assert DoFwdExit(p, g).forwarders == map[];
  }

  lemma AppendNotice(n: seq<Notice>, x: Notice)
    requires Alternating(n) && x == Cycle(|n|)
    ensures Alternating(n + [x])
  {
  }

  /** One notification more is one phase further. */
  lemma NextPhase(n: nat)
    ensures (n + 1) % 4 == if n % 4 == 3 then 0 else n % 4 + 1
  {
  }

  lemma HolderBeginsKeeps(p: Pub, subs: set<SubId>)
    requires PubInv(p) && p.holder.Announcing? && p.holder.cast.Pending?
    ensures PubInv(BeginCast(p, ByHolder, subs))
  {
    assert p.forwarders == map[];
    var q := BeginCast(p, ByHolder, subs);
    assert q.notices == p.notices + [BackBegins] && q.forwarders == map[];
    AppendNotice(p.notices, BackBegins);
    NextPhase(|p.notices|);
    assert NoticePhase(q);
    assert EpochsOrdered(q);
  }

  lemma ForwarderBeginsKeeps(p: Pub, g: nat, subs: set<SubId>)
    requires PubInv(p) && CastOf(p, ByForwarder(g)).Some? && CastOf(p, ByForwarder(g)).value.Pending?
    ensures PubInv(BeginCast(p, ByForwarder(g), subs))
  {
    var q := BeginCast(p, ByForwarder(g), subs);
    assert Counted(q) && Lifecycle(q) && Timers(q) && Reads(q) && CastKinds(q);
    assert EpochsOrdered(q);
    ForwarderBeginsPhase(p, g, subs);
  }

  lemma ForwarderBeginsPhase(p: Pub, g: nat, subs: set<SubId>)
    requires Counted(p) && CastKinds(p) && NoticePhase(p)
    requires CastOf(p, ByForwarder(g)).Some? && CastOf(p, ByForwarder(g)).value.Pending?
    ensures NoticePhase(BeginCast(p, ByForwarder(g), subs))
  {
    if p.forwarders[g].pc.Farewell? {
      AppendNotice(p.notices, GoneBegins);
      NextPhase(|p.notices|);
      assert Leaving(BeginCast(p, ByForwarder(g), subs).forwarders[g].pc);
    }
  }

  /** Progress of a broadcast that stays in its writing phase. */
  lemma WritingKeeps(p: Pub, who: Caster, c: CastPC)
    requires PubInv(p) && CastOf(p, who).Some? && CastOf(p, who).value.Writing?
    requires c.Writing? && c.what == CastOf(p, who).value.what
    ensures PubInv(SetCast(p, who, c))
  {
    var q := SetCast(p, who, c);
    assert Counted(q) && Lifecycle(q) && Timers(q) && Reads(q);
    assert EpochsOrdered(q) && CastKinds(q);
  }

  lemma HolderEndsKeeps(p: Pub)
    requires PubInv(p) && p.holder.Announcing? && p.holder.cast.Writing?
    ensures PubInv(DoEndCast(p, ByHolder))
  {
    var q := DoEndCast(p, ByHolder);
    assert q.notices == p.notices + [BackEnds] && q.forwarders == map[];
    assert |p.notices| % 4 == 3;
    AppendNotice(p.notices, BackEnds);
    NextPhase(|p.notices|);
    assert Counted(q) && Lifecycle(q) && Timers(q) && Reads(q) && EpochsOrdered(q) && CastKinds(q);
  }

  lemma ForwarderEndsKeeps(p: Pub, g: nat)
    requires PubInv(p) && CastOf(p, ByForwarder(g)).Some? && CastOf(p, ByForwarder(g)).value.Writing?
    ensures PubInv(DoEndCast(p, ByForwarder(g)))
  {
    var q := DoEndCast(p, ByForwarder(g));
    assert Counted(q) && Lifecycle(q) && Timers(q) && Reads(q) && CastKinds(q) && EpochsOrdered(q);
    assert NoticePhase(q);
  }

  lemma FireKeeps(p: Pub, t: nat)
    requires PubInv(p) && t in p.armed
    ensures PubInv(p.(armed := p.armed - {t}, fired := p.fired + {t}))
  {
  }

  lemma TimerCheckKeeps(p: Pub)
    requires PubInv(p) && p.holder.TimerEntered?
    ensures PubInv(DoTimerCheck(p))
  {
  }

  lemma CloseFlagKeeps(p: Pub)
    requires PubInv(p) && p.holder.Closing? && p.holder.stage == Flag
    ensures PubInv(DoCloseFlag(p))
  {
  }

  lemma CloseDetachKeeps(p: Pub)
    requires PubInv(p) && p.holder.Closing? && p.holder.stage == Detach
    ensures PubInv(DoCloseDetach(p))
  {
  }

  lemma AdvanceKeeps(p: Pub, next: Stage)
    requires PubInv(p) && ClosingNow(p) && p.holder.stage != Detach
    requires next in {DropSubs, DropBuffer, Notify}
    requires p.holder.stage == Await ==> p.wg == 0
    ensures PubInv(Advance(p, next))
  {
  }

  lemma NotifyKeeps(p: Pub)
    requires PubInv(p) && p.holder.Closing? && p.holder.stage == Notify
    ensures PubInv(p.(holder := Free, callbacks := p.callbacks + 1))
  {
  }

  lemma ReplaceKeeps(p: Pub, a: ReplaceAct)
    requires PubInv(p) && CanReplace(p, a)
    ensures PubInv(DoReplace(p, a))
  {
    match a
    case EnterSet(c) => EnterKeeps(p, Entered(c));
    case Install => InstallKeeps(p);
    case CloseOld => CloseOldKeeps(p);
    case AwaitOld => AwaitOldKeeps(p);
    case Spawn(g) => SpawnKeeps(p, g);
  }

  lemma CastKeeps(s: State, who: Caster, a: CastAct)
    requires PubInv(s.pub) && CanCast(s.pub, who, a)
    ensures PubInv(DoCast(s, who, a).pub)
  {
    var p, c := s.pub, CastOf(s.pub, who).value;
    match a
    case Snap =>
      if who.ByHolder? { HolderBeginsKeeps(p, s.sub.subs); } else { ForwarderBeginsKeeps(p, who.g, s.sub.subs); }
    case Write(x, ok) =>
      WritingKeeps(p, who, c.(todo := c.todo - {x}, failed := if ok then c.failed else c.failed + {x}));
    case Evict(x) =>
      WritingKeeps(p, who, c.(failed := c.failed - {x}));
    case EndCast =>
      if who.ByHolder? { HolderEndsKeeps(p); } else { ForwarderEndsKeeps(p, who.g); }
  }

  lemma ForwardMoveKeeps(s: State, g: nat, a: FwdAct)
    requires PubInv(s.pub) && CanForward(s.pub, g, a) && !a.FwdDrop? && !a.FwdHangup? && !a.FwdExit?
    ensures PubInv(DoForward(s, g, a).pub)
  {
    match a
    case FwdStart => GotoKeeps(s.pub, g, DoFwdStart(s.pub, g).forwarders[g].pc);
    case FwdRead(f) => ReadMoveKeeps(s, g, f);
    case FwdClear => GotoKeeps(s.pub, g, DoFwdClear(s, g).pub.forwarders[g].pc);
    case FwdBuffer => GotoKeeps(s.pub, g, DoFwdBuffer(s, g).pub.forwarders[g].pc);
    case FwdFail => GotoKeeps(s.pub, g, Dropping(s.pub.forwarders[g].pc.conn));
  }

  lemma ReadMoveKeeps(s: State, g: nat, f: Frame)
    requires PubInv(s.pub) && CanForward(s.pub, g, FwdRead(f))
    ensures PubInv(DoFwdRead(s, g, f).pub)
  {
    GotoKeeps(s.pub, g, DoFwdRead(s, g, f).pub.forwarders[g].pc);
  }

  lemma ForwardKeeps(s: State, g: nat, a: FwdAct)
    requires PubInv(s.pub) && CanForward(s.pub, g, a)
    ensures PubInv(DoForward(s, g, a).pub)
  {
    if a.FwdDrop? { DropKeeps(s.pub, g); }
    else if a.FwdHangup? { HangupKeeps(s.pub, g); }
    else if a.FwdExit? { ExitKeeps(s.pub, g); }
    else { ForwardMoveKeeps(s, g, a); }
  }

  lemma TimeKeeps(p: Pub, a: TimerAct)
    requires PubInv(p) && CanTime(p, a)
    ensures PubInv(DoTime(p, a))
  {
    match a
    case Fire(t) => FireKeeps(p, t);
    case EnterTimer(t) => EnterKeeps(p.(fired := p.fired - {t}), TimerEntered);
    case TimerCheck => TimerCheckKeeps(p);
  }

  lemma CloseKeeps(s: State, a: CloseAct)
    requires PubInv(s.pub) && CanClose(s.pub, a)
    ensures PubInv(DoClose(s, a).pub)
  {
    match a
    case EnterClose => EnterKeeps(s.pub, Closing(Flag, false));
    case CloseFlag => CloseFlagKeeps(s.pub);
    case CloseDetach => CloseDetachKeeps(s.pub);
    case CloseAwait => AdvanceKeeps(s.pub, DropSubs);
    case CloseSubs => AdvanceKeeps(s.pub, DropBuffer);
    case CloseBuffer => AdvanceKeeps(s.pub, Notify);
    case CloseNotify => NotifyKeeps(s.pub);
  }

  lemma StepKeeps(s: State, a: Action)
    requires PubInv(s.pub) && Enabled(s, a)
    ensures PubInv(Do(s, a).pub)
  {
    match a
    case Replace(r) => ReplaceKeeps(s.pub, r);
    case Broadcast(who, c) => CastKeeps(s, who, c);
    case Forward(g, f) => ForwardKeeps(s, g, f);
    case Timer(t) => TimeKeeps(s.pub, t);
    case Shutdown(c) => CloseKeeps(s, c);
    case Subscriber(x, b) =>
  }

  lemma {:induction false} RunKeeps(l: Budget, acts: seq<Action>)
    requires Run(Init(l), acts)
    ensures PubInv(After(Init(l), acts).pub)
  {
    if acts == [] {
      InitKeeps(l);
    } else {
      var rest := acts[..|acts| - 1];
      RunKeeps(l, rest);
      StepKeeps(After(Init(l), rest), acts[|acts| - 1]);
    }
  }

  // ---------------------------------------------------------------- theorems

  /** At most one forwarding goroutine, exactly what the wait group counts, and
      at most one broadcast in progress, whoever makes it. */
  lemma SingleForwarder(l: Budget, acts: seq<Action>)
    requires Run(Init(l), acts)
    ensures var p := After(Init(l), acts).pub;
            && p.wg == |p.forwarders| <= 1
            && (forall v, w :: CastOf(p, v).Some? && CastOf(p, w).Some? ==> v == w)
  {
    RunKeeps(l, acts);
    var p := After(Init(l), acts).pub;
    if g :| g in p.forwarders {
      assert p.forwarders.Keys == {g};
    }
  }

  /** Whatever is broadcast on behalf of an epoch comes before anything broadcast
      on behalf of a later one. */
  lemma EpochOrder(l: Budget, acts: seq<Action>)
    requires Run(Init(l), acts)
    ensures var casts := After(Init(l), acts).pub.casts;
            forall i, j :: 0 <= i < |casts| && 0 <= j < |casts| && casts[i].epoch < casts[j].epoch ==> i < j
  {
    RunKeeps(l, acts);
  }

  /** The notifications strictly alternate, starting with a disconnect, and each
      broadcast ends before the next one begins. Whenever no goroutine is in the
      middle of the protocol, the last notification tells the truth. */
  lemma NotificationsAlternate(l: Budget, acts: seq<Action>)
    requires Run(Init(l), acts)
    ensures var p := After(Init(l), acts).pub;
            && Alternating(p.notices)
            && (p.holder.Free? && p.forwarders == map[] ==>
                  && |p.notices| % 2 == 0
                  && (p.disconnected <==> p.notices != [] && p.notices[|p.notices| - 1] == GoneEnds))
  {
    RunKeeps(l, acts);
    SettledNotices(After(Init(l), acts).pub);
  }

  /** What precedes position 4k + r of the cycle. */
  lemma CycleBefore(k: nat, r: nat)
    requires r < 4 && 4 * k + r > 0
    ensures Cycle(4 * k + r - 1) == GoneEnds <==> r == 2
  {
    if r == 0 {
      assert 4 * k - 1 == 4 * (k - 1) + 3;
    }
  }

  lemma SettledNotices(p: Pub)
    requires NoticePhase(p)
    ensures p.holder.Free? && p.forwarders == map[] ==>
              && |p.notices| % 2 == 0
              && (p.disconnected <==> p.notices != [] && p.notices[|p.notices| - 1] == GoneEnds)
  {
    if p.holder.Free? && p.forwarders == map[] {
      var n := |p.notices|;
      assert n % 4 == if p.disconnected then 2 else 0;
      EvenPhase(n);
      if n > 0 {
        LastOfCycle(n);
        assert p.notices[n - 1] == Cycle(n - 1);
      }
    }
  }

  lemma EvenPhase(n: nat)
    requires n % 4 == 0 || n % 4 == 2
    ensures n % 2 == 0
  {
    var k, r := n / 4, n % 4;
    Doubled(2 * k + (if r == 0 then 0 else 1));
    assert n == 2 * (2 * k + (if r == 0 then 0 else 1));
  }

  lemma {:induction false} Doubled(m: nat)
    ensures (2 * m) % 2 == 0
  {
    if m > 0 {
      Doubled(m - 1);
    }
  }

  lemma LastOfCycle(n: nat)
    requires n > 0
    ensures Cycle(n - 1) == GoneEnds <==> n % 4 == 2
  {
    assert n == 4 * (n / 4) + n % 4;
    CycleBefore(n / 4, n % 4);
  }

  /** A reconnect timer can only be armed, and can only close the channel, while
      no publisher is installed and none is being installed. */
  lemma ReconnectTimeoutSafety(l: Budget, acts: seq<Action>)
    requires Run(Init(l), acts)
    ensures var p := After(Init(l), acts).pub;
            && (p.disconnected ==> p.publisher.None?)
            && (p.armed != {} ==> p.disconnected)
            && |p.armed| <= 1
            && (p.holder.Closing? && p.holder.byTimer ==> p.publisher.None? && p.disconnected)
  {
    RunKeeps(l, acts);
    var p := After(Init(l), acts).pub;
    if t :| t in p.armed {
      assert p.armed == {t};
    }
  }

  // ------------------------------------------------------------ stale forwarders

  /** The connection a forwarder works on, up to its identity check. */
  function WorksOn(pc: FwdPC): Option<Conn> {
    if pc.Dropping? then Some(pc.conn) else ReadsFrom(pc)
  }

  /** Outside a replacement every forwarder is of the current epoch; it works on the
      installed connection as long as there is one, and a forwarder of an older
      epoch never works on the connection that is installed now. */
  ghost predicate Owns(p: Pub) {
    forall g :: g in p.forwarders ==>
                  && (!Replacing(p.holder) ==> p.forwarders[g].epoch == p.epoch)
                  && var c := WorksOn(p.forwarders[g].pc);
                  c.Some? ==>
                    if p.forwarders[g].epoch == p.epoch then p.publisher == c || Detached(p) else p.publisher != c
  }

  lemma OwnsGoto(p: Pub, g: nat, pc: FwdPC)
    requires Owns(p) && g in p.forwarders
    requires WorksOn(pc).None? || WorksOn(pc) == WorksOn(p.forwarders[g].pc) ||
             (WorksOn(pc) == p.publisher && p.forwarders[g].epoch == p.epoch)
    ensures Owns(Goto(p, g, pc))
  {
  }

  lemma OwnsForward(s: State, g: nat, a: FwdAct)
    requires Counted(s.pub) && Owns(s.pub) && CanForward(s.pub, g, a)
    ensures Owns(DoForward(s, g, a).pub)
  {
    var q := DoForward(s, g, a).pub;
    if !a.FwdExit? && !a.FwdDrop? {
      OwnsGoto(s.pub, g, q.forwarders[g].pc);
    }
  }

  lemma OwnsCast(s: State, who: Caster, a: CastAct)
    requires Owns(s.pub) && CanCast(s.pub, who, a)
    ensures Owns(DoCast(s, who, a).pub)
  {
    var q := DoCast(s, who, a).pub;
    if who.ByForwarder? {
      OwnsGoto(s.pub, who.g, q.forwarders[who.g].pc);
    }
  }

  lemma OwnsReplace(p: Pub, a: ReplaceAct)
    requires PubInv(p) && Owns(p) && CanReplace(p, a)
    ensures Owns(DoReplace(p, a))
  {
  }

  lemma OwnsStep(s: State, a: Action)
    requires PubInv(s.pub) && Owns(s.pub) && Enabled(s, a)
    ensures Owns(Do(s, a).pub)
  {
    match a
    case Replace(r) => OwnsReplace(s.pub, r);
    case Broadcast(who, c) => OwnsCast(s, who, c);
    case Forward(g, f) => OwnsForward(s, g, f);
    case Timer(t) => OwnsFrame(s.pub, DoTime(s.pub, t));
    case Shutdown(c) => OwnsFrame(s.pub, DoClose(s, c).pub);
    case Subscriber(x, b) =>
  }

  lemma OwnsFrame(p: Pub, q: Pub)
    requires Owns(p) && q.forwarders == p.forwarders && q.epoch == p.epoch && (Detached(p) ==> Detached(q))
    requires q.publisher == p.publisher || (q.publisher.None? && Detached(q))
    requires Replacing(p.holder) ==> Replacing(q.holder)
    ensures Owns(q)
  {
  }

  lemma {:induction false} RunOwns(l: Budget, acts: seq<Action>)
    requires Run(Init(l), acts)
    ensures Owns(After(Init(l), acts).pub)
  {
    if acts != [] {
      var rest := acts[..|acts| - 1];
      RunOwns(l, rest);
      RunKeeps(l, rest);
      OwnsStep(After(Init(l), rest), acts[|acts| - 1]);
    }
  }

  /** An installed publisher has its reader: unless a replacement is still on its way
      to spawning one, a forwarder of the current epoch is about to start or works on
      the installed connection. */
  ghost predicate Served(p: Pub) {
    p.publisher.Some? && !Replacing(p.holder) ==> exists g :: Serves(p, g)
  }

  predicate Serves(p: Pub, g: nat) {
    && g in p.forwarders && p.forwarders[g].epoch == p.epoch
    && (p.forwarders[g].pc.Starting? || WorksOn(p.forwarders[g].pc) == p.publisher)
  }

  lemma ServedForward(s: State, g: nat, a: FwdAct)
    requires PubInv(s.pub) && Owns(s.pub) && Served(s.pub) && CanForward(s.pub, g, a)
    ensures Served(DoForward(s, g, a).pub)
  {
    var p, q := s.pub, DoForward(s, g, a).pub;
    if q.publisher.Some? && !Replacing(q.holder) {
      var h :| Serves(p, h);
      assert h == g;
      assert Serves(q, g);
    }
  }

  lemma ServedCast(s: State, who: Caster, a: CastAct)
    requires PubInv(s.pub) && Served(s.pub) && CanCast(s.pub, who, a)
    ensures Served(DoCast(s, who, a).pub)
  {
    var p, q := s.pub, DoCast(s, who, a).pub;
    if q.publisher.Some? && !Replacing(q.holder) {
      var h :| Serves(p, h);
      assert Serves(q, h);
    }
  }

  lemma ServedReplace(p: Pub, a: ReplaceAct)
    requires PubInv(p) && Served(p) && CanReplace(p, a)
    ensures Served(DoReplace(p, a))
  {
    var q := DoReplace(p, a);
    if a.Spawn? {
      assert Serves(q, a.g);
    } else if q.publisher.Some? && !Replacing(q.holder) {
      var h :| Serves(p, h);
      assert Serves(q, h);
    }
  }

  lemma ServedFrame(p: Pub, q: Pub)
    requires Served(p) && q.forwarders == p.forwarders && q.epoch == p.epoch && Replacing(q.holder) == Replacing(p.holder)
    requires q.publisher == p.publisher || q.publisher.None?
    ensures Served(q)
  {
    if q.publisher.Some? && !Replacing(q.holder) {
      var h :| Serves(p, h);
      assert Serves(q, h);
    }
  }

  lemma ServedStep(s: State, a: Action)
    requires PubInv(s.pub) && Owns(s.pub) && Served(s.pub) && Enabled(s, a)
    ensures Served(Do(s, a).pub)
  {
    match a
    case Replace(r) => ServedReplace(s.pub, r);
    case Broadcast(who, c) => ServedCast(s, who, c);
    case Forward(g, f) => ServedForward(s, g, f);
    case Timer(t) => ServedFrame(s.pub, DoTime(s.pub, t));
    case Shutdown(c) => ServedFrame(s.pub, DoClose(s, c).pub);
    case Subscriber(x, b) =>
  }

  /** An installed publisher is always read: in every run, whatever replacements,
      timers and closes do, no publisher is left installed without a forwarder. */
  lemma {:induction false} PublisherIsServed(l: Budget, acts: seq<Action>)
    requires Run(Init(l), acts)
    ensures Served(After(Init(l), acts).pub)
  {
    if acts != [] {
      var rest := acts[..|acts| - 1];
      PublisherIsServed(l, rest);
      RunKeeps(l, rest);
      RunOwns(l, rest);
      ServedStep(After(Init(l), rest), acts[|acts| - 1]);
    }
  }

  /** Everything a disconnect is about. */
  predicate SameConnection(p: Pub, q: Pub) {
    && q.publisher == p.publisher && q.disconnected == p.disconnected && q.epoch == p.epoch
    && q.timer == p.timer && q.armed == p.armed && q.timers == p.timers
  }

  lemma ForwardChanges(s: State, g: nat, a: FwdAct)
    requires CanForward(s.pub, g, a)
    ensures SameConnection(s.pub, DoForward(s, g, a).pub) <==>
            !(a.FwdDrop? && s.pub.publisher == Some(s.pub.forwarders[g].pc.conn) && s.pub.epoch == s.pub.forwarders[g].epoch)
  {
  }

  lemma CastChanges(s: State, who: Caster, a: CastAct)
    requires CanCast(s.pub, who, a)
    ensures SameConnection(s.pub, DoCast(s, who, a).pub)
  {
  }

  /** Stale disconnects are ignored: in every run, no action of a forwarder whose
      epoch is over changes the publisher, the disconnected flag, the epoch or any
      reconnect timer. */
  lemma StaleDisconnectIsIgnored(l: Budget, acts: seq<Action>, g: nat, a: Action)
    requires Run(Init(l), acts) && Enabled(After(Init(l), acts), a) && Moves(a, g)
    requires var p := After(Init(l), acts).pub; g in p.forwarders && p.forwarders[g].epoch < p.epoch
    ensures SameConnection(After(Init(l), acts).pub, Do(After(Init(l), acts), a).pub)
  {
    var s := After(Init(l), acts);
    if a.Forward? { ForwardChanges(s, g, a.fwd); } else { CastChanges(s, a.who, a.cast); }
  }

  /** And in every run a disconnect takes effect exactly when the installed
      connection is the forwarder's own: the pointer decides, the epoch agrees. */
  lemma DisconnectCountsExactlyWhen(l: Budget, acts: seq<Action>, g: nat)
    requires Run(Init(l), acts) && CanForward(After(Init(l), acts).pub, g, FwdDrop)
    ensures var s := After(Init(l), acts);
            SameConnection(s.pub, Do(s, Forward(g, FwdDrop)).pub) <==> s.pub.publisher != Some(s.pub.forwarders[g].pc.conn)
  {
    RunOwns(l, acts);
    ForwardChanges(After(Init(l), acts), g, FwdDrop);
  }

  // ------------------------------------------------------------------ closing

  /** What closeInternal has emptied stays empty. */
  predicate SubsGone(p: Pub) {
    Finished(p) || (p.holder.Closing? && p.holder.stage in {DropBuffer, Notify})
  }

  predicate BufferGone(p: Pub) {
    Finished(p) || (p.holder.Closing? && p.holder.stage == Notify)
  }

  ghost predicate Emptied(s: State) {
    && (SubsGone(s.pub) ==> s.sub.subs == {})
    && (BufferGone(s.pub) ==> s.sub.buf == [])
  }

  lemma EmptiedForward(s: State, g: nat, a: FwdAct)
    requires PubInv(s.pub) && Emptied(s) && CanForward(s.pub, g, a)
    ensures Emptied(DoForward(s, g, a))
  {
    assert !SubsGone(s.pub) && !BufferGone(s.pub) && (s.pub.closed ==> ClosingNow(s.pub));
    var q := DoForward(s, g, a).pub;
    assert q.holder == s.pub.holder && q.closed == s.pub.closed;
  }

  lemma EmptiedCast(s: State, who: Caster, a: CastAct)
    requires PubInv(s.pub) && Emptied(s) && CanCast(s.pub, who, a)
    ensures Emptied(DoCast(s, who, a))
  {
    assert !SubsGone(s.pub) && !BufferGone(s.pub);
  }

  lemma EmptiedClose(s: State, a: CloseAct)
    requires PubInv(s.pub) && Emptied(s) && CanClose(s.pub, a)
    ensures Emptied(DoClose(s, a))
  {
  }

  lemma EmptiedSubscribe(s: State, x: SubId, a: SubAct)
    requires PubInv(s.pub) && Emptied(s) && CanSubscribe(s.pub, s.sub, x, a)
    ensures Emptied(s.(sub := DoSubscribe(s.pub, s.sub, x, a)))
  {
    var c := DoSubscribe(s.pub, s.sub, x, a);
    assert c.buf == s.sub.buf && (s.pub.closed && s.sub.subs == {} ==> c.subs == {});
  }

  lemma EmptiedStep(s: State, a: Action)
    requires PubInv(s.pub) && Emptied(s) && Enabled(s, a)
    ensures Emptied(Do(s, a))
  {
    match a
    case Broadcast(who, c) => EmptiedCast(s, who, c);
    case Forward(g, f) => EmptiedForward(s, g, f);
    case Replace(r) =>
    case Timer(t) =>
    case Shutdown(c) => EmptiedClose(s, c);
    case Subscriber(x, b) => EmptiedSubscribe(s, x, b);
  }

  lemma {:induction false} RunEmptied(l: Budget, acts: seq<Action>)
    requires Run(Init(l), acts)
    ensures Emptied(After(Init(l), acts))
  {
    if acts != [] {
      var rest := acts[..|acts| - 1];
      RunEmptied(l, rest);
      RunKeeps(l, rest);
      EmptiedStep(After(Init(l), rest), acts[|acts| - 1]);
    }
  }

  lemma CastCallsNothing(s: State, who: Caster, a: CastAct)
    requires CanCast(s.pub, who, a)
    ensures DoCast(s, who, a).pub.callbacks == s.pub.callbacks
  {
  }

  lemma ForwardCallsNothing(s: State, g: nat, a: FwdAct)
    requires CanForward(s.pub, g, a)
    ensures DoForward(s, g, a).pub.callbacks == s.pub.callbacks
  {
  }

  lemma CallbacksGrow(s: State, a: Action)
    requires Enabled(s, a)
    ensures s.pub.callbacks <= Do(s, a).pub.callbacks
  {
    if a.Broadcast? { CastCallsNothing(s, a.who, a.cast); }
    else if a.Forward? { ForwardCallsNothing(s, a.g, a.fwd); }
  }

  lemma {:induction false} CallbacksPersist(s: State, acts: seq<Action>, more: seq<Action>)
    requires Run(s, acts + more)
    ensures Run(s, acts) && After(s, acts).pub.callbacks <= After(s, acts + more).pub.callbacks
  {
    if more == [] {
      assert acts + more == acts;
    } else {
      var rest := more[..|more| - 1];
      assert (acts + more)[..|acts + more| - 1] == acts + rest;
      CallbacksPersist(s, acts, rest);
      CallbacksGrow(After(s, acts + rest), more[|more| - 1]);
    }
  }

  /** However many closes and timers race, cleanup and the close callback happen
      at most once; once the callback has run, nothing is ever installed, joined,
      buffered or armed again. */
  lemma CloseIsFinalAndOnce(l: Budget, acts: seq<Action>, more: seq<Action>)
    requires Run(Init(l), acts + more)
    ensures Run(Init(l), acts)
    ensures var p := After(Init(l), acts).pub; p.cleanups <= 1 && p.callbacks <= p.cleanups
    ensures After(Init(l), acts).pub.callbacks > 0 ==>
              var s := After(Init(l), acts + more);
              && s.pub.closed && s.pub.cleanups == 1 && s.pub.callbacks == 1
              && s.pub.publisher.None? && s.pub.forwarders == map[]
              && s.pub.timer.None? && s.pub.armed == {}
              && s.sub.subs == {} && s.sub.buf == []
  {
    CallbacksPersist(Init(l), acts, more);
    RunKeeps(l, acts);
    RunKeeps(l, acts + more);
    RunEmptied(l, acts + more);
    var p := After(Init(l), acts + more).pub;
    assert forall t :: t in p.armed ==> p.timer == Some(t);
  }

  // ------------------------------------------------------- waiting terminates

  /** Somebody waits for the forwarder while holding publisherReplaceMu. */
  predicate Awaiting(p: Pub) {
    p.holder.Waiting? || (p.holder.Closing? && p.holder.stage == Await)
  }

  /** How far a forwarder is from leaving, once it can read nothing more. */
  function Distance(pc: FwdPC): nat {
    match pc
    case Clearing(_, _) => 10
    case Buffering(_, _) => 9
    case Casting(_, c) => if c.Pending? then 8 else 7
    case Reading(_) => 6
    case Dropping(_) => 5
    case Hangup(_) => 4
    case Farewell(c) => if c.Pending? then 3 else 2
    case Starting => 1
    case Exiting => 0
  }

  function WritesLeft(pc: FwdPC): nat {
    match pc
    case Casting(_, Writing(_, todo, failed)) => 2 * |todo| + |failed|
    case Farewell(Writing(_, todo, failed)) => 2 * |todo| + |failed|
    case _ => 0
  }

  predicate Closer(before: FwdPC, after: FwdPC) {
    Distance(after) < Distance(before) ||
    (Distance(after) == Distance(before) && WritesLeft(after) < WritesLeft(before))
  }

  /** The awaited forwarder is never stuck: one of its own actions is enabled. */
  lemma AwaitedForwarderCanStep(p: Pub, g: nat)
    requires PubInv(p) && Awaiting(p) && g in p.forwarders
    ensures (exists a :: CanForward(p, g, a)) || (exists a :: CanCast(p, ByForwarder(g), a))
  {
    var pc := p.forwarders[g].pc;
    match pc
    case Starting => assert CanForward(p, g, FwdStart);
    case Reading(_) => assert CanForward(p, g, FwdFail);
    case Clearing(_, _) => assert CanForward(p, g, FwdClear);
    case Buffering(_, _) => assert CanForward(p, g, FwdBuffer);
    case Dropping(_) => assert CanForward(p, g, FwdDrop);
    case Hangup(_) => assert CanForward(p, g, FwdHangup);
    case Exiting => assert CanForward(p, g, FwdExit);
    case Casting(_, c) => CastCanStep(p, ByForwarder(g));
    case Farewell(c) => CastCanStep(p, ByForwarder(g));
  }

  lemma CastCanStep(p: Pub, who: Caster)
    requires CastOf(p, who).Some?
    ensures exists a :: CanCast(p, who, a)
  {
    var c := CastOf(p, who).value;
    if c.Pending? {
      assert CanCast(p, who, Snap);
    } else if x :| x in c.todo {
      assert CanCast(p, who, Write(x, true));
    } else if x :| x in c.failed {
      assert CanCast(p, who, Evict(x));
    } else {
      assert CanCast(p, who, EndCast);
    }
  }

  /** No forwarder is ever stuck, awaited or not. */
  lemma ForwarderCanStep(l: Budget, acts: seq<Action>, g: nat)
    requires Run(Init(l), acts) && g in After(Init(l), acts).pub.forwarders
    ensures exists a :: Moves(a, g) && Enabled(After(Init(l), acts), a)
  {
    RunKeeps(l, acts);
    var s := After(Init(l), acts);
    match s.pub.forwarders[g].pc
    case Starting => assert Enabled(s, Forward(g, FwdStart));
    case Reading(_) => assert Enabled(s, Forward(g, FwdFail));
    case Clearing(_, _) => assert Enabled(s, Forward(g, FwdClear));
    case Buffering(_, _) => assert Enabled(s, Forward(g, FwdBuffer));
    case Dropping(_) => assert Enabled(s, Forward(g, FwdDrop));
    case Hangup(_) => assert Enabled(s, Forward(g, FwdHangup));
    case Exiting => assert Enabled(s, Forward(g, FwdExit));
    case Casting(_, _) => CasterCanStep(s, ByForwarder(g));
    case Farewell(_) => CasterCanStep(s, ByForwarder(g));
  }

  lemma CasterCanStep(s: State, who: Caster)
    requires CastOf(s.pub, who).Some?
    ensures exists a :: Enabled(s, Broadcast(who, a))
  {
    CastCanStep(s.pub, who);
    var a :| CanCast(s.pub, who, a);
    assert Enabled(s, Broadcast(who, a));
  }

  /** A forwarder that reads an open connection takes whatever arrives. */
  lemma ReaderTakesAnything(s: State, g: nat, f: Frame)
    requires g in s.pub.forwarders && s.pub.forwarders[g].pc.Reading? && s.pub.forwarders[g].pc.conn !in s.pub.shut
    ensures Enabled(s, Forward(g, FwdRead(f)))
  {
  }

  /** Nor is whoever holds publisherReplaceMu, except while it waits for a forwarder
      that exists; and when nobody holds it, every replacement, every close and every
      callback that fired can have it, as every armed timer can fire. */
  lemma HolderCanStep(l: Budget, acts: seq<Action>)
    requires Run(Init(l), acts)
    ensures var s := After(Init(l), acts);
            && (!s.pub.holder.Free? ==> (exists a :: ByTheHolder(a) && Enabled(s, a)) || (Awaiting(s.pub) && s.pub.forwarders != map[]))
            && (s.pub.holder.Free? ==> (forall c :: Enabled(s, Replace(EnterSet(c)))) && Enabled(s, Shutdown(EnterClose))
                                       && forall t :: t in s.pub.fired ==> Enabled(s, Timer(EnterTimer(t))))
            && (forall t :: t in s.pub.armed ==> Enabled(s, Timer(Fire(t))))
  {
    RunKeeps(l, acts);
    var s := After(Init(l), acts);
    match s.pub.holder
    case Free =>
    case Entered(_) => assert Enabled(s, Replace(Install));
    case Installed(_, _, _) => assert Enabled(s, Replace(CloseOld));
    case Waiting(_, _) => assert s.pub.forwarders == map[] ==> Enabled(s, Replace(AwaitOld));
    case Announcing(_, _) => CasterCanStep(s, ByHolder);
    case Spawning(_) => assert Enabled(s, Replace(Spawn(0)));
    case TimerEntered => assert Enabled(s, Timer(TimerCheck));
    case Closing(_, _) => CloserCanStep(s);
  }

  predicate ByTheHolder(a: Action) {
    || (a.Replace? && !a.replace.EnterSet?) || (a.Broadcast? && a.who == ByHolder)
    || (a.Timer? && a.timer.TimerCheck?) || (a.Shutdown? && !a.close.EnterClose?)
  }

  lemma CloserCanStep(s: State)
    requires PubInv(s.pub) && s.pub.holder.Closing?
    ensures (exists a :: ByTheHolder(a) && Enabled(s, a)) || (Awaiting(s.pub) && s.pub.forwarders != map[])
  {
    match s.pub.holder.stage
    case Flag => assert Enabled(s, Shutdown(CloseFlag));
    case Detach => assert Enabled(s, Shutdown(CloseDetach));
    case Await => assert s.pub.forwarders == map[] ==> Enabled(s, Shutdown(CloseAwait));
    case DropSubs => assert Enabled(s, Shutdown(CloseSubs));
    case DropBuffer => assert Enabled(s, Shutdown(CloseBuffer));
    case Notify => assert Enabled(s, Shutdown(CloseNotify));
  }

  predicate Moves(a: Action, g: nat) {
    (a.Forward? && a.g == g) || (a.Broadcast? && a.who == ByForwarder(g))
  }

  /** publisherWg.Wait() ends: while somebody waits, every action of the awaited
      forwarder brings it strictly closer to leaving, it can no longer read, and
      no action of anybody else sends it back. */
  lemma WaitEnds(s: State, g: nat, a: Action)
    requires PubInv(s.pub) && Awaiting(s.pub) && g in s.pub.forwarders && Enabled(s, a)
    ensures var q := Do(s, a).pub;
            && q.holder == s.pub.holder
            && (if Moves(a, g) then g in q.forwarders ==> Closer(s.pub.forwarders[g].pc, q.forwarders[g].pc)
                else g in q.forwarders && q.forwarders[g] == s.pub.forwarders[g])
  {
    match a
    case Broadcast(who, c) => CastCloser(s, g, c);
    case Forward(_, f) => ForwardCloser(s, g, f);
    case Replace(r) =>
    case Timer(t) =>
    case Shutdown(c) =>
    case Subscriber(x, b) =>
  }

  lemma CastCloser(s: State, g: nat, a: CastAct)
    requires PubInv(s.pub) && Awaiting(s.pub) && CanCast(s.pub, ByForwarder(g), a)
    ensures var q := DoCast(s, ByForwarder(g), a).pub;
            q.holder == s.pub.holder && g in q.forwarders && Closer(s.pub.forwarders[g].pc, q.forwarders[g].pc)
  {
    var c := CastOf(s.pub, ByForwarder(g)).value;
    if a.Write? {
      assert |c.todo - {a.x}| == |c.todo| - 1;
    } else if a.Evict? {
      assert |c.failed - {a.x}| == |c.failed| - 1;
    }
  }

  lemma ForwardCloser(s: State, g: nat, a: FwdAct)
    requires PubInv(s.pub) && Awaiting(s.pub) && CanForward(s.pub, g, a)
    ensures var q := DoForward(s, g, a).pub;
            q.holder == s.pub.holder && (g in q.forwarders ==> Closer(s.pub.forwarders[g].pc, q.forwarders[g].pc))
  {
  }
}
