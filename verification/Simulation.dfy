/** The detailed channel, seen from the manager, is the manager's channel.

    `Relay` keeps of a channel only what connections and registration need.
    Here every critical section of the detailed channel, in every reachable
    state, is matched by at most one critical section of that coarser channel.
    `Composition` builds on that: the manager with any number of detailed channels
    projects to a run of `Relay`, so what is proved there about connections,
    registry and admission holds of channels that behave as in `Channel`. */
module Simulation {
  import opened Wire
  import opened ReplayBuffer
  import opened Channel
  import opened PublisherSafety
  import Registry
  import Relay

  // -------------------------------------------------------------- the relation

  function StageOf(p: Pub): Relay.Stage {
    if !p.closed then Relay.Open
    else if !ClosingNow(p) then Relay.Gone
    else match p.holder.stage
         case Flag => Relay.Gone
         case Detach => Relay.Flagged
         case Await => Relay.Detached
         case DropSubs => Relay.Detached
         case DropBuffer => Relay.Emptied
         case Notify => Relay.Emptied
  }

  /** The publisher that a replacement has displaced and will close next. */
  predicate Displaced(p: Pub, c: Conn) {
    p.holder.Installed? && p.holder.prior == Some(c)
  }

  /** The publisher whose disconnect a forwarder has recorded and will close next. */
  ghost predicate HangingUp(p: Pub, c: Conn) {
    exists g :: g in p.forwarders && p.forwarders[g].pc == Hangup(c)
  }

  /** The coarse channel `h` is what the manager can see of `s`, and whatever the
      channel has closed is known to be closed. */
  ghost predicate Shows(h: Relay.Chan, shut: set<Conn>, s: State) {
    && h.stage == StageOf(s.pub)
    && h.publisher == s.pub.publisher
    && (forall c :: c in h.leaving <==> Displaced(s.pub, c) || HangingUp(s.pub, c))
    && h.subs.Keys == s.sub.subs
    && s.pub.shut <= shut
  }

  ghost predicate ShowsAt(r: Relay.State, ch: Registry.ChanId, s: State) {
    ch in r.chans && Shows(r.chans[ch], r.shut, s)
  }

  /** A replacement that ends a disconnection displaces nobody. */
  predicate Succession(p: Pub) {
    p.holder.Installed? && p.holder.was ==> p.holder.prior.None?
  }

  lemma SuccessionForward(s: State, g: nat, a: FwdAct)
    requires CanForward(s.pub, g, a)
    ensures DoForward(s, g, a).pub.holder == s.pub.holder
  {
  }

  lemma SuccessionCast(s: State, who: Caster, a: CastAct)
    requires CanCast(s.pub, who, a)
    ensures DoCast(s, who, a).pub.holder == s.pub.holder || !DoCast(s, who, a).pub.holder.Installed?
  {
  }

  lemma SuccessionReplace(p: Pub, a: ReplaceAct)
    requires Timers(p) && Succession(p) && CanReplace(p, a)
    ensures Succession(DoReplace(p, a))
  {
  }

  lemma SuccessionStep(s: State, a: Action)
    requires PubInv(s.pub) && Succession(s.pub) && Enabled(s, a)
    ensures Succession(Do(s, a).pub)
  {
    match a
    case Forward(g, f) => SuccessionForward(s, g, f);
    case Broadcast(who, c) => SuccessionCast(s, who, c);
    case Replace(r) => SuccessionReplace(s.pub, r);
    case Timer(t) =>
    case Shutdown(c) =>
    case Subscriber(x, b) =>
  }

  lemma {:induction false} RunSuccession(l: Budget, acts: seq<Action>)
    requires Run(Init(l), acts)
    ensures Succession(After(Init(l), acts).pub)
  {
    if acts != [] {
      var rest := acts[..|acts| - 1];
      RunSuccession(l, rest);
      RunKeeps(l, rest);
      SuccessionStep(After(Init(l), rest), acts[|acts| - 1]);
    }
  }

  /** So no connection is both displaced and hung up. */
  lemma LeavesOnce(p: Pub, c: Conn)
    requires PubInv(p) && Succession(p) && Displaced(p, c)
    ensures forall g :: g in p.forwarders ==> !p.forwarders[g].pc.Hangup?
  {
  }

  // --------------------------------------------------------------- the matching

  /** The manager's name for what a channel does on its own; `None` when the
      manager cannot see it. */
  function Match(s: State, a: Action): Option<Relay.ChanAct>
    requires Enabled(s, a)
  {
    var p := s.pub;
    match a
    case Replace(r) =>
      if r.CloseOld? && p.holder.prior.Some? then Some(Relay.CloseLeaving(p.holder.prior.value)) else None
    case Broadcast(_, c) => if c.Evict? && c.x in s.sub.subs then Some(Relay.RemoveSub(c.x)) else None
    case Forward(g, f) =>
      if f.FwdDrop? && p.publisher == Some(p.forwarders[g].pc.conn) && p.epoch == p.forwarders[g].epoch
      then Some(Relay.Disconnect)
      else if f.FwdHangup? then Some(Relay.CloseLeaving(p.forwarders[g].pc.conn))
      else None
    case Timer(_) => None
    case Shutdown(c) =>
      if c.CloseFlag? && !p.closed then Some(Relay.SetFlag)
      else if c.CloseDetach? then Some(Relay.Detach)
      else if c.CloseSubs? then Some(Relay.Empty)
      else if c.CloseNotify? then Some(Relay.Callback)
      else None
    case Subscriber(x, b) => if b.Remove? then Some(Relay.RemoveSub(x)) else None
  }

  /** The two sections that complete a connect call. */
  predicate FromCall(a: Action) {
    (a.Replace? && a.replace.Install?) || (a.Subscriber? && a.sub.JoinInsert?)
  }

  ghost function Matched(r: Relay.State, ch: Registry.ChanId, w: Option<Relay.ChanAct>): Relay.State
    requires ch in r.chans && (w.Some? ==> Relay.CanWithin(r, ch, w.value))
  {
    if w.None? then r else Relay.DoWithin(r, ch, w.value)
  }

  ghost predicate Simulated(r: Relay.State, ch: Registry.ChanId, s: State, a: Action)
    requires Enabled(s, a) && ch in r.chans
  {
    var w := Match(s, a);
    && (w.Some? ==> Relay.CanWithin(r, ch, w.value))
    && ShowsAt(Matched(r, ch, w), ch, Do(s, a))
  }

  /** Nothing the manager can see differs between `p` and `q`. */
  ghost predicate Alike(p: Pub, q: Pub) {
    && StageOf(q) == StageOf(p) && q.publisher == p.publisher && q.shut == p.shut
    && (forall c :: Displaced(q, c) <==> Displaced(p, c))
    && (forall c :: HangingUp(q, c) <==> HangingUp(p, c))
  }

  lemma AlikeShows(r: Relay.State, ch: Registry.ChanId, s: State, q: State)
    requires ShowsAt(r, ch, s) && Alike(s.pub, q.pub) && q.sub.subs == s.sub.subs
    ensures ShowsAt(r, ch, q)
  {
  }

  // ------------------------------------------------------- publisher replacement

  lemma CloseOldSimulated(r: Relay.State, ch: Registry.ChanId, s: State)
    requires PubInv(s.pub) && Succession(s.pub) && ShowsAt(r, ch, s) && s.pub.holder.Installed?
    ensures Simulated(r, ch, s, Replace(CloseOld))
  {
    var q := DoCloseOld(s.pub);
    assert forall c :: HangingUp(q, c) <==> HangingUp(s.pub, c);
    if s.pub.holder.prior.Some? {
      LeavesOnce(s.pub, s.pub.holder.prior.value);
    }
  }

  lemma ReplaceSimulated(r: Relay.State, ch: Registry.ChanId, s: State, a: ReplaceAct)
    requires PubInv(s.pub) && Succession(s.pub) && ShowsAt(r, ch, s) && CanReplace(s.pub, a) && !a.Install?
    ensures Simulated(r, ch, s, Replace(a))
  {
    var q := DoReplace(s.pub, a);
    if a.CloseOld? {
      CloseOldSimulated(r, ch, s);
    } else {
      assert a.Spawn? ==> forall g :: g in q.forwarders ==> q.forwarders[g].pc == Starting;
      AlikeShows(r, ch, s, s.(pub := q));
    }
  }

  // ----------------------------------------------------------------- the forwarder

  /** A forwarder that is not at a hang-up before or after is invisible. */
  lemma GotoAlike(p: Pub, g: nat, pc: FwdPC)
    requires g in p.forwarders && !pc.Hangup? && !p.forwarders[g].pc.Hangup?
    ensures Alike(p, Goto(p, g, pc))
  {
    var q := Goto(p, g, pc);
    forall c ensures HangingUp(q, c) <==> HangingUp(p, c) {
      if h :| h in p.forwarders && p.forwarders[h].pc == Hangup(c) { assert q.forwarders[h].pc == Hangup(c); }
      if h :| h in q.forwarders && q.forwarders[h].pc == Hangup(c) { assert p.forwarders[h].pc == Hangup(c); }
    }
  }

  lemma DropSimulated(r: Relay.State, ch: Registry.ChanId, s: State, g: nat)
    requires PubInv(s.pub) && ShowsAt(r, ch, s) && CanForward(s.pub, g, FwdDrop)
    ensures Simulated(r, ch, s, Forward(g, FwdDrop))
  {
    var p, q := s.pub, DoFwdDrop(s.pub, g);
    var c0 := p.forwarders[g].pc.conn;
    assert p.forwarders.Keys == {g};
    if p.publisher == Some(c0) && p.epoch == p.forwarders[g].epoch {
      assert q.forwarders[g].pc == Hangup(c0);
      assert forall c :: HangingUp(q, c) <==> c == c0;
    } else {
      GotoAlike(p, g, Exiting);
      AlikeShows(r, ch, s, s.(pub := q));
    }
  }

  lemma HangupSimulated(r: Relay.State, ch: Registry.ChanId, s: State, g: nat)
    requires PubInv(s.pub) && Succession(s.pub) && ShowsAt(r, ch, s) && CanForward(s.pub, g, FwdHangup)
    ensures Simulated(r, ch, s, Forward(g, FwdHangup))
  {
    var p, q := s.pub, DoFwdHangup(s.pub, g);
    var c0 := p.forwarders[g].pc.conn;
    assert p.forwarders.Keys == {g};
    assert HangingUp(p, c0);
    assert forall c :: HangingUp(p, c) ==> c == c0;
    assert forall c :: !HangingUp(q, c);
    assert !Displaced(p, c0);
  }

  lemma ExitAlike(p: Pub, g: nat)
    requires PubInv(p) && CanForward(p, g, FwdExit)
    ensures Alike(p, DoFwdExit(p, g))
  {
    var q := DoFwdExit(p, g);
    assert p.forwarders.Keys == {g};
    assert forall c :: !HangingUp(q, c) && !HangingUp(p, c);
  }

  lemma MoveAlike(s: State, g: nat, a: FwdAct)
    requires CanForward(s.pub, g, a) && !a.FwdDrop? && !a.FwdHangup? && !a.FwdExit?
    ensures Alike(s.pub, DoForward(s, g, a).pub)
  {
    GotoAlike(s.pub, g, DoForward(s, g, a).pub.forwarders[g].pc);
  }

  lemma ForwardSimulated(r: Relay.State, ch: Registry.ChanId, s: State, g: nat, a: FwdAct)
    requires PubInv(s.pub) && Succession(s.pub) && ShowsAt(r, ch, s) && CanForward(s.pub, g, a)
    ensures Simulated(r, ch, s, Forward(g, a))
  {
    if a.FwdDrop? { DropSimulated(r, ch, s, g); }
    else if a.FwdHangup? { HangupSimulated(r, ch, s, g); }
    else {
      if a.FwdExit? { ExitAlike(s.pub, g); } else { MoveAlike(s, g, a); }
      AlikeShows(r, ch, s, DoForward(s, g, a));
    }
  }

  // ------------------------------------------------------------------- broadcasts

  lemma CastAlike(s: State, who: Caster, a: CastAct)
    requires CanCast(s.pub, who, a)
    ensures Alike(s.pub, DoCast(s, who, a).pub)
  {
    var p, q := s.pub, DoCast(s, who, a).pub;
    if who.ByForwarder? {
      GotoAlike(p, who.g, q.forwarders[who.g].pc);
      assert q.forwarders == Goto(p, who.g, q.forwarders[who.g].pc).forwarders;
    }
  }

  lemma CastSimulated(r: Relay.State, ch: Registry.ChanId, s: State, who: Caster, a: CastAct)
    requires ShowsAt(r, ch, s) && CanCast(s.pub, who, a)
    ensures Simulated(r, ch, s, Broadcast(who, a))
  {
    CastAlike(s, who, a);
    var q := DoCast(s, who, a);
    AlikeShows(r, ch, s, s.(pub := q.pub));
    if a.Evict? && a.x in s.sub.subs {
      RemovalShows(r, ch, s.(pub := q.pub), a.x, q);
    } else {
      AlikeShows(r, ch, s, q);
    }
  }

  /** Taking a subscriber out of the map. */
  lemma RemovalShows(r: Relay.State, ch: Registry.ChanId, s: State, x: SubId, q: State)
    requires ShowsAt(r, ch, s) && x in s.sub.subs && q.pub == s.pub && q.sub.subs == s.sub.subs - {x}
    ensures Relay.CanWithin(r, ch, Relay.RemoveSub(x))
    ensures ShowsAt(Relay.DoWithin(r, ch, Relay.RemoveSub(x)), ch, q)
  {
    var h := r.chans[ch];
    assert (h.subs - {x}).Keys == h.subs.Keys - {x};
  }

  lemma SubscriberSimulated(r: Relay.State, ch: Registry.ChanId, s: State, x: SubId, a: SubAct)
    requires ShowsAt(r, ch, s) && CanSubscribe(s.pub, s.sub, x, a) && !a.JoinInsert?
    ensures Simulated(r, ch, s, Subscriber(x, a))
  {
    var q := Do(s, Subscriber(x, a));
    if a.Remove? {
      RemovalShows(r, ch, s, x, q);
    } else {
      AlikeShows(r, ch, s, q);
    }
  }

  // ---------------------------------------------------------------------- closing

  lemma FlagSimulated(r: Relay.State, ch: Registry.ChanId, s: State)
    requires PubInv(s.pub) && ShowsAt(r, ch, s) && CanClose(s.pub, CloseFlag)
    ensures Simulated(r, ch, s, Shutdown(CloseFlag))
  {
    var q := DoCloseFlag(s.pub);
    assert forall c :: HangingUp(q, c) <==> HangingUp(s.pub, c);
  }

  lemma DetachSimulated(r: Relay.State, ch: Registry.ChanId, s: State)
    requires PubInv(s.pub) && ShowsAt(r, ch, s) && CanClose(s.pub, CloseDetach)
    ensures Simulated(r, ch, s, Shutdown(CloseDetach))
  {
    var q := DoCloseDetach(s.pub);
    assert forall c :: HangingUp(q, c) <==> HangingUp(s.pub, c);
  }

  /** Once closeInternal is past its wait, nobody is left who owes a close. */
  lemma NothingLeaves(h: Relay.Chan, shut: set<Conn>, s: State)
    requires s.pub.forwarders == map[] && !s.pub.holder.Installed?
    ensures forall c :: !HangingUp(s.pub, c) && !Displaced(s.pub, c)
    ensures Shows(h, shut, s) ==> h.leaving == {}
  {
  }

  lemma EmptySimulated(r: Relay.State, ch: Registry.ChanId, s: State)
    requires PubInv(s.pub) && ShowsAt(r, ch, s) && CanClose(s.pub, CloseSubs)
    ensures Simulated(r, ch, s, Shutdown(CloseSubs))
  {
    NothingLeaves(r.chans[ch], r.shut, s);
    NothingLeaves(r.chans[ch], r.shut, s.(pub := Advance(s.pub, DropBuffer)));
  }

  lemma NotifySimulated(r: Relay.State, ch: Registry.ChanId, s: State)
    requires PubInv(s.pub) && ShowsAt(r, ch, s) && CanClose(s.pub, CloseNotify)
    ensures Simulated(r, ch, s, Shutdown(CloseNotify))
  {
    var q := DoClose(s, CloseNotify).pub;
    assert forall c :: HangingUp(q, c) <==> HangingUp(s.pub, c);
  }

  lemma CloseSimulated(r: Relay.State, ch: Registry.ChanId, s: State, a: CloseAct)
    requires PubInv(s.pub) && ShowsAt(r, ch, s) && CanClose(s.pub, a)
    ensures Simulated(r, ch, s, Shutdown(a))
  {
    match a
    case CloseFlag => FlagSimulated(r, ch, s);
    case CloseDetach => DetachSimulated(r, ch, s);
    case CloseSubs => EmptySimulated(r, ch, s);
    case CloseNotify => NotifySimulated(r, ch, s);
    case EnterClose => AlikeShows(r, ch, s, DoClose(s, EnterClose));
    case CloseAwait => AlikeShows(r, ch, s, DoClose(s, CloseAwait));
    case CloseBuffer => AlikeShows(r, ch, s, DoClose(s, CloseBuffer));
  }

  lemma TimerSimulated(r: Relay.State, ch: Registry.ChanId, s: State, a: TimerAct)
    requires PubInv(s.pub) && ShowsAt(r, ch, s) && CanTime(s.pub, a)
    ensures Simulated(r, ch, s, Timer(a))
  {
    AlikeShows(r, ch, s, s.(pub := DoTime(s.pub, a)));
  }

  // --------------------------------------------------------------------- theorems

  lemma StepSimulated(r: Relay.State, ch: Registry.ChanId, s: State, a: Action)
    requires PubInv(s.pub) && Succession(s.pub) && ShowsAt(r, ch, s) && Enabled(s, a) && !FromCall(a)
    ensures Simulated(r, ch, s, a)
  {
    match a
    case Replace(c) => ReplaceSimulated(r, ch, s, c);
    case Broadcast(who, c) => CastSimulated(r, ch, s, who, c);
    case Forward(g, f) => ForwardSimulated(r, ch, s, g, f);
    case Timer(t) => TimerSimulated(r, ch, s, t);
    case Shutdown(c) => CloseSimulated(r, ch, s, c);
    case Subscriber(x, b) => SubscriberSimulated(r, ch, s, x, b);
  }

  /** Whatever a channel does on its own, after any run of the channel and any
      run of the manager that shows it, is at most one critical section of the
      manager's channel, and is shown by it afterwards. */
  lemma ChannelStepIsManagerStep(l: Budget, acts: seq<Action>, a: Action,
                                 max: nat, timeout: int, calls: seq<Relay.Action>, ch: Registry.ChanId)
    requires Run(Init(l), acts) && Enabled(After(Init(l), acts), a) && !FromCall(a)
    requires Relay.Run(Relay.Init(max, timeout), calls)
    requires ShowsAt(Relay.After(Relay.Init(max, timeout), calls), ch, After(Init(l), acts))
    ensures exists more: seq<Relay.Action> ::
              && |more| <= 1 && Relay.Run(Relay.Init(max, timeout), calls + more)
              && ShowsAt(Relay.After(Relay.Init(max, timeout), calls + more), ch, Do(After(Init(l), acts), a))
  {
    var s, m := After(Init(l), acts), Relay.Init(max, timeout);
    var r := Relay.After(m, calls);
    RunKeeps(l, acts);
    RunSuccession(l, acts);
    StepSimulated(r, ch, s, a);
    match Match(s, a)
    case None =>
      assert calls + [] == calls;
    case Some(w) =>
      Relay.RunExtend(m, calls, Relay.Within(ch, w));
  }

  /** SetPublisher's critical section is the one that the connect call performs. */
  lemma InstallIsManagerStep(r: Relay.State, t: nat, s: State)
    requires PubInv(s.pub) && Succession(s.pub) && Relay.Conserved(r) && Relay.CanCall(r, t, Relay.Install)
    requires ShowsAt(r, r.calls[t].ch, s)
    requires s.pub.holder == Entered(if r.calls[t].Attach? then r.calls[t].conn else r.calls[t].pub)
    ensures ShowsAt(Relay.DoInstall(r, t), r.calls[t].ch, Do(s, Replace(Install)))
  {
    var k, p, q := r.calls[t], s.pub, DoInstall(s.pub);
    var c, h := p.holder.conn, r.chans[k.ch];
    assert Relay.Holds(r, c, Relay.InCall(t));
    if p.publisher == Some(c) {
      assert Relay.Holds(r, c, Relay.Publishing(k.ch));
    }
    assert forall d :: HangingUp(q, d) <==> HangingUp(p, d);
  }

  /** A subscriber that is still connecting is in no channel yet. */
  lemma NotYetSubscribed(r: Relay.State, t: nat)
    requires Relay.Conserved(r) && Relay.Named(r) && Relay.CanCall(r, t, Relay.Admit)
    ensures r.calls[t].id !in r.chans[r.calls[t].ch].subs
  {
    var k := r.calls[t];
    assert Relay.Holds(r, k.conn, Relay.InCall(t));
    assert !Relay.Holds(r, k.conn, Relay.Subscribed(k.ch, k.id));
  }

  function JoinOf(r: Relay.State, t: nat): Action
    requires Relay.CanCall(r, t, Relay.Admit)
  {
    Subscriber(r.calls[t].id, JoinInsert(if r.calls[t].Finish? then 0 else r.max))
  }

  /** The channel takes a subscriber exactly when the manager's channel does. */
  lemma AdmitAgrees(r: Relay.State, t: nat, s: State)
    requires Relay.CanCall(r, t, Relay.Admit) && ShowsAt(r, r.calls[t].ch, s)
    requires r.calls[t].id !in s.sub.joins && r.calls[t].id !in r.chans[r.calls[t].ch].subs
    ensures Enabled(s, JoinOf(r, t)) <==>
            Relay.Holds(Relay.DoAdmit(r, t), r.calls[t].conn, Relay.Subscribed(r.calls[t].ch, r.calls[t].id))
  {
    var h := r.chans[r.calls[t].ch];
    assert |h.subs| == |h.subs.Keys|;
  }

  /** addSubscriberInternal inserts exactly when the connect call does. */
  lemma AdmitIsManagerStep(r: Relay.State, t: nat, s: State)
    requires Relay.Conserved(r) && Relay.Named(r) && Relay.CanCall(r, t, Relay.Admit)
    requires ShowsAt(r, r.calls[t].ch, s) && r.calls[t].id !in s.sub.joins
    ensures var k, a := r.calls[t], JoinOf(r, t);
            && (Enabled(s, a) <==> Relay.Holds(Relay.DoAdmit(r, t), k.conn, Relay.Subscribed(k.ch, k.id)))
            && ShowsAt(Relay.DoAdmit(r, t), k.ch, if Enabled(s, a) then Do(s, a) else s)
  {
    var k := r.calls[t];
    NotYetSubscribed(r, t);
    AdmitAgrees(r, t, s);
    assert r.chans[k.ch].subs[k.id := k.conn].Keys == r.chans[k.ch].subs.Keys + {k.id};
  }

  /** What the manager does elsewhere leaves the channel as shown. */
  predicate Concerns(r: Relay.State, ch: Registry.ChanId, a: Relay.Action)
    requires Relay.Enabled(r, a)
  {
    || (a.Within? && a.ch == ch)
    || (a.Calling? && (a.call.Install? || a.call.Admit?) && r.calls[a.t].ch == ch)
  }

  lemma OthersKeepShowing(r: Relay.State, ch: Registry.ChanId, s: State, a: Relay.Action)
    requires ShowsAt(r, ch, s) && Relay.Enabled(r, a) && !Concerns(r, ch, a)
    ensures ShowsAt(Relay.Do(r, a), ch, s)
  {
    if a.Calling? {
      CallElsewhere(r, ch, a.t, a.call);
    } else if a.Within? {
      WithinElsewhere(r, ch, a.ch, a.act);
    }
  }

  lemma CallElsewhere(r: Relay.State, ch: Registry.ChanId, t: nat, a: Relay.CallAct)
    requires ch in r.chans && Relay.CanCall(r, t, a) && !((a.Install? || a.Admit?) && r.calls[t].ch == ch)
    ensures var q := Relay.DoCall(r, t, a); ch in q.chans && q.chans[ch] == r.chans[ch] && r.shut <= q.shut
  {
  }

  lemma WithinElsewhere(r: Relay.State, ch: Registry.ChanId, d: Registry.ChanId, a: Relay.ChanAct)
    requires ch in r.chans && Relay.CanWithin(r, d, a) && d != ch
    ensures var q := Relay.DoWithin(r, d, a); ch in q.chans && q.chans[ch] == r.chans[ch] && r.shut <= q.shut
  {
  }

  /** A channel just created by a pairing connect is shown. */
  lemma NewChannelIsShown(l: Budget, r: Relay.State, ch: Registry.ChanId)
    requires ch in r.chans && r.chans[ch] == Relay.Chan(r.chans[ch].key, Relay.Open, None, {}, map[], r.chans[ch].creator)
    ensures ShowsAt(r, ch, Init(l))
  {
  }
}
