/** The input-control token: who may type, in every run. */
module Control {
  import opened Wire
  import opened ReplayBuffer
  import opened Channel

  /** The holder according to the events alone: the last grant, unless a release
      or the clean-up of a removed subscriber came after it. */
  function HolderOf(ev: seq<ControlEvent>): Option<SubId> {
    if ev == [] then None
    else
      var last, before := ev[|ev| - 1], HolderOf(ev[..|ev| - 1]);
      match last
      case Granted(x) => Some(x)
      case Released(_) => None
      case Cleared(_) => None
      case _ => before
  }

  /** May `e` happen while `h` holds control? */
  predicate Lawful(h: Option<SubId>, e: ControlEvent) {
    match e
    case Granted(_) => h.None?
    case Denied(_) => h.Some?
    case Released(x) => h == Some(x)
    case Cleared(x) => h == Some(x)
    case Passed(x) => h.None? || h == Some(x)
    case Refused(x) => h.Some? && h != Some(x)
  }

  ghost predicate AllLawful(ev: seq<ControlEvent>) {
    forall i :: 0 <= i < |ev| ==> Lawful(HolderOf(ev[..i]), ev[i])
  }

  ghost predicate ControlInv(b: Sub) {
    && b.controller == HolderOf(b.control)
    && AllLawful(b.control)
    && b.uncleared !! b.subs
    && b.uncleared <= b.joins.Keys && b.subs <= b.joins.Keys
  }

  lemma Extend(ev: seq<ControlEvent>, e: ControlEvent)
    requires AllLawful(ev) && Lawful(HolderOf(ev), e)
    ensures AllLawful(ev + [e])
    ensures (ev + [e])[..|ev|] == ev
  {
    var all := ev + [e];
    assert all[..|ev|] == ev;
    forall i | 0 <= i < |all| ensures Lawful(HolderOf(all[..i]), all[i]) {
      if i < |ev| {
        assert all[..i] == ev[..i] && all[i] == ev[i];
      } else {
        assert all[..i] == ev && all[i] == e;
      }
    }
  }

  /** A step of the token: one lawful event more. */
  lemma EventKeeps(b: Sub, c: Sub, e: ControlEvent)
    requires ControlInv(b) && Lawful(HolderOf(b.control), e)
    requires c.control == b.control + [e] && c.controller == HolderOf(b.control + [e])
    requires c.subs == b.subs && c.joins == b.joins && c.uncleared <= b.uncleared
    ensures ControlInv(c)
  {
    Extend(b.control, e);
  }

  /** A step that does not concern the token. */
  lemma FrameKeeps(b: Sub, c: Sub)
    requires ControlInv(b) && c.control == b.control && c.controller == b.controller
    requires c.subs <= b.subs && c.uncleared <= b.uncleared + (b.subs - c.subs) && b.joins.Keys <= c.joins.Keys
    ensures ControlInv(c)
  {
  }

  lemma HolderAfter(ev: seq<ControlEvent>, e: ControlEvent)
    ensures HolderOf(ev + [e]) ==
            (if e.Granted? then Some(e.id) else if e.Released? || e.Cleared? then None else HolderOf(ev))
  {
    assert (ev + [e])[..|ev|] == ev;
  }

  lemma TokenKeeps(p: Pub, b: Sub, x: SubId, a: SubAct)
    requires ControlInv(b) && CanSubscribe(p, b, x, a) && (a.Request? || a.Release? || a.ClearControl? || a.Input?)
    ensures ControlInv(DoSubscribe(p, b, x, a))
  {
    var c := DoSubscribe(p, b, x, a);
    if c.control == b.control {
      FrameKeeps(b, c);
    } else {
      var e := c.control[|b.control|];
      HolderAfter(b.control, e);
      EventKeeps(b, c, e);
    }
  }

  lemma SubStepKeeps(p: Pub, b: Sub, x: SubId, a: SubAct)
    requires ControlInv(b) && CanSubscribe(p, b, x, a)
    ensures ControlInv(DoSubscribe(p, b, x, a))
  {
    if a.Request? || a.Release? || a.ClearControl? || a.Input? {
      TokenKeeps(p, b, x, a);
    } else if !a.JoinInsert? {
      FrameKeeps(b, DoSubscribe(p, b, x, a));
    }
  }

  lemma CastStepKeeps(s: State, who: Caster, a: CastAct)
    requires ControlInv(s.sub) && CanCast(s.pub, who, a)
    ensures ControlInv(DoCast(s, who, a).sub)
  {
    FrameKeeps(s.sub, DoCast(s, who, a).sub);
  }

  lemma ForwardStepKeeps(s: State, g: nat, a: FwdAct)
    requires ControlInv(s.sub) && CanForward(s.pub, g, a)
    ensures ControlInv(DoForward(s, g, a).sub)
  {
    FrameKeeps(s.sub, DoForward(s, g, a).sub);
  }

  lemma CloseStepKeeps(s: State, a: CloseAct)
    requires ControlInv(s.sub) && CanClose(s.pub, a)
    ensures ControlInv(DoClose(s, a).sub)
  {
    FrameKeeps(s.sub, DoClose(s, a).sub);
  }

  lemma StepKeeps(s: State, a: Action)
    requires ControlInv(s.sub) && Enabled(s, a)
    ensures ControlInv(Do(s, a).sub)
  {
    match a
    case Subscriber(x, b) => SubStepKeeps(s.pub, s.sub, x, b);
    case Broadcast(who, c) => CastStepKeeps(s, who, c);
    case Replace(r) =>
    case Forward(g, f) => ForwardStepKeeps(s, g, f);
    case Timer(t) =>
    case Shutdown(c) => CloseStepKeeps(s, c);
  }

  lemma {:induction false} RunKeeps(l: Budget, acts: seq<Action>)
    requires Run(Init(l), acts)
    ensures ControlInv(After(Init(l), acts).sub)
  {
    if acts != [] {
      RunKeeps(l, acts[..|acts| - 1]);
      StepKeeps(After(Init(l), acts[..|acts| - 1]), acts[|acts| - 1]);
    }
  }

  lemma {:induction false} HeldSince(ev: seq<ControlEvent>, i: nat, j: nat, x: SubId)
    requires AllLawful(ev) && i < j <= |ev| && ev[i] == Granted(x)
    requires forall k :: i < k < j ==> ev[k] != Released(x) && ev[k] != Cleared(x)
    ensures HolderOf(ev[..j]) == Some(x)
  {
    assert ev[..j][..j - 1] == ev[..j - 1];
    if j > i + 1 {
      HeldSince(ev, i, j - 1, x);
      assert Lawful(HolderOf(ev[..j - 1]), ev[j - 1]);
    }
  }

  /** Control exclusivity, in every run: from a grant to `x` until `x` releases
      control or is cleaned up after its removal, nobody is granted control, only
      the input of `x` passes, and nobody else's step takes control away. */
  lemma ControlExclusive(l: Budget, acts: seq<Action>, i: nat, j: nat, x: SubId)
    requires Run(Init(l), acts)
    requires var ev := After(Init(l), acts).sub.control;
             && i < j < |ev| && ev[i] == Granted(x)
             && forall k :: i < k < j ==> ev[k] != Released(x) && ev[k] != Cleared(x)
    ensures var e := After(Init(l), acts).sub.control[j];
            && !e.Granted?
            && (e.Passed? || e.Released? || e.Cleared? ==> e.id == x)
  {
    RunKeeps(l, acts);
    var ev := After(Init(l), acts).sub.control;
    HeldSince(ev, i, j, x);
    assert Lawful(HolderOf(ev[..j]), ev[j]);
  }

  /** The token is only ever cleaned up for a subscriber that has left the map. */
  lemma ClearedOnlyAfterRemoval(l: Budget, acts: seq<Action>, x: SubId)
    requires Run(Init(l), acts) && Enabled(After(Init(l), acts), Subscriber(x, ClearControl))
    ensures x in After(Init(l), acts).sub.joins && x !in After(Init(l), acts).sub.subs
  {
    RunKeeps(l, acts);
  }

  // ---------------------------------------------------- is the holder still there?

  /** The holder, if any, is subscribed, or removed and about to be cleaned up. */
  predicate Live(b: Sub) {
    b.controller.None? || b.controller.value in b.subs + b.uncleared
  }

  /** A grant to a subscriber that has left and has been cleaned up already. */
  predicate GrantsToGone(s: State, a: Action) {
    a.Subscriber? && a.sub.Request? && s.sub.controller.None? && a.x !in s.sub.subs + s.sub.uncleared
  }

  /** closeInternal replacing the map under a holder that nobody is cleaning up. */
  predicate ClosesOnHolder(s: State, a: Action) {
    a == Shutdown(CloseSubs) && s.sub.controller.Some? && s.sub.controller.value !in s.sub.uncleared
  }

  predicate LosesHolder(s: State, a: Action) {
    GrantsToGone(s, a) || ClosesOnHolder(s, a)
  }

  lemma LiveSubscriber(p: Pub, b: Sub, x: SubId, a: SubAct)
    requires Live(b) && CanSubscribe(p, b, x, a)
    ensures Live(DoSubscribe(p, b, x, a)) <==> !(a.Request? && b.controller.None? && x !in b.subs + b.uncleared)
  {
  }

  lemma LiveCast(s: State, who: Caster, a: CastAct)
    requires Live(s.sub) && CanCast(s.pub, who, a)
    ensures Live(DoCast(s, who, a).sub)
  {
  }

  /** From a state in which the holder is live, every step keeps it live except
      exactly two: a grant to somebody gone, and the close that drops the map. */
  lemma LiveStep(s: State, a: Action)
    requires Live(s.sub) && Enabled(s, a)
    ensures Live(Do(s, a).sub) <==> !LosesHolder(s, a)
  {
    match a
    case Subscriber(x, b) => LiveSubscriber(s.pub, s.sub, x, b);
    case Broadcast(who, c) => LiveCast(s, who, c);
    case Replace(r) =>
    case Forward(g, f) =>
    case Timer(t) =>
    case Shutdown(c) =>
  }

  /** The holder has been live after every prefix of the run. */
  ghost predicate AlwaysLive(s: State, acts: seq<Action>)
    requires Run(s, acts)
    decreases |acts|
  {
    Live(After(s, acts).sub) && (acts == [] || AlwaysLive(s, acts[..|acts| - 1]))
  }

  /** Some step of the run was taken when its guard said that it loses the holder. */
  ghost predicate LostOnTheWay(s: State, acts: seq<Action>)
    requires Run(s, acts)
    decreases |acts|
  {
    acts != [] &&
    (LostOnTheWay(s, acts[..|acts| - 1]) || LosesHolder(After(s, acts[..|acts| - 1]), acts[|acts| - 1]))
  }

  /** The controller is always a subscriber, or one being cleaned up, if and only if
      the run never grants control to somebody gone and never closes on a holder. */
  lemma {:induction false} HolderIsLiveExactlyWhen(l: Budget, acts: seq<Action>)
    requires Run(Init(l), acts)
    ensures AlwaysLive(Init(l), acts) <==> !LostOnTheWay(Init(l), acts)
  {
    if acts != [] {
      var rest := acts[..|acts| - 1];
      HolderIsLiveExactlyWhen(l, rest);
      if AlwaysLive(Init(l), rest) {
        LiveStep(After(Init(l), rest), acts[|acts| - 1]);
      }
    }
  }

  /** Both ways of losing the holder happen. A removed subscriber whose reader
      goroutine still runs can be granted control after its clean-up ... */
  lemma HolderMayBeGone(l: Budget, x: SubId) returns (acts: seq<Action>)
    ensures Run(Init(l), acts)
    ensures var b := After(Init(l), acts).sub; b.controller == Some(x) && x !in b.subs
  {
    acts := [];
    var todo := [JoinInsert(0), Remove, ClearControl, Request];
    for i := 0 to 4
      invariant Run(Init(l), acts)
      invariant var s := After(Init(l), acts);
                && s.pub == Init(l).pub && (x in s.sub.joins <==> i > 0) && s.sub.subs == (if i == 1 then {x} else {})
                && s.sub.uncleared == (if i == 2 then {x} else {})
                && s.sub.controller == (if i == 4 then Some(x) else None)
    {
      RunExtend(Init(l), acts, Subscriber(x, todo[i]));
      acts := acts + [Subscriber(x, todo[i])];
    }
  }

  /** ... and closing the channel forgets the holder together with the others. */
  lemma CloseLeavesHolder(l: Budget, x: SubId) returns (s: State)
    ensures Reaches(Init(l), s) && s.sub.controller == Some(x) && x !in s.sub.subs + s.sub.uncleared
  {
    var i := Init(l);
    Stays(i);
    Steps(i, i, Subscriber(x, JoinInsert(0)));
    var s1 := Do(i, Subscriber(x, JoinInsert(0)));
    Steps(i, s1, Subscriber(x, Request));
    s := CloseAlone(i, Do(s1, Subscriber(x, Request)));
  }

  /** A channel without forwarders runs closeInternal up to dropping its map. */
  lemma CloseAlone(i: State, s: State) returns (q: State)
    requires Reaches(i, s) && s.pub.holder.Free? && s.pub.wg == 0 && !s.pub.closed
    ensures Reaches(i, q) && q.sub == s.sub.(subs := {})
  {
    Steps(i, s, Shutdown(EnterClose));
    var a := Do(s, Shutdown(EnterClose));
    Steps(i, a, Shutdown(CloseFlag));
    var b := Do(a, Shutdown(CloseFlag));
    Steps(i, b, Shutdown(CloseDetach));
    var c := Do(b, Shutdown(CloseDetach));
    Steps(i, c, Shutdown(CloseAwait));
    var d := Do(c, Shutdown(CloseAwait));
    Steps(i, d, Shutdown(CloseSubs));
    q := Do(d, Shutdown(CloseSubs));
  }
}
