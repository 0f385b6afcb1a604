/** No gap for a joining subscriber.

    A forwarder buffers a message, takes its snapshot of the subscribers and
    only then writes; a join inserts itself, copies the buffer and only then
    replays. However the two interleave, with writes, removals, replacements and
    closes in between, a subscriber that stays and whose writes succeed receives
    every replayable message, live or by replay, except those that had left the
    buffer for a reason before it copied it. */
module Delivery {
  import opened Wire
  import opened ReplayBuffer
  import opened Channel
  import opened PublisherSafety

  // -------------------------------------------------------------- invariant

  /** The program counter of the only forwarder there can be. */
  ghost function Current(forwarders: map<nat, Forwarder>): Option<FwdPC> {
    if exists g :: g in forwarders then
      var g :| g in forwarders;
      Some(forwarders[g].pc)
    else
      None
  }

  /** Read, but not yet through the buffer. */
  predicate AtBuffer(pc: FwdPC) {
    pc.Clearing? || pc.Buffering?
  }

  predicate CarriesId(pc: FwdPC) {
    pc.Casting? && pc.cast.what.Data? && pc.cast.what.id.Some?
  }

  /** Read, but its broadcast has not looked at the subscribers yet. */
  predicate BeforeSnap(pc: FwdPC) {
    AtBuffer(pc) || (CarriesId(pc) && pc.cast.Pending?)
  }

  /** The buffer has been cleared for a snapshot that is not in it yet. */
  predicate Superseding(pc: FwdPC) {
    pc.Buffering? && KindOf(pc.frame) == Snapshot
  }

  /** The history and the forwarder agree on how far the last message got. */
  predicate LogInv(b: Sub, pc: Option<FwdPC>) {
    && b.begun <= b.pushed <= |b.log|
    && (if pc.Some? && AtBuffer(pc.value)
        then b.pushed + 1 == |b.log| && b.log[b.pushed] == pc.value.frame
        else b.pushed == |b.log|)
    && (pc.Some? && pc.value.Clearing? ==> KindOf(pc.value.frame) == Snapshot)
    && b.begun + (if pc.Some? && BeforeSnap(pc.value) then 1 else 0) == |b.log|
    && (pc.Some? && CarriesId(pc.value) ==>
          var c := pc.value.cast.what;
          c.id.value + 1 == |b.log| && b.log[c.id.value] == c.frame)
  }

  /** Unless it has been cleared for good, the buffer is the longest affordable
      suffix of what went through it. */
  predicate BufInv(b: Sub, pc: Option<FwdPC>, gone: bool, l: Limits) {
    && (!gone ==> (b.cleared <==> pc.Some? && Superseding(pc.value)))
    && if pc.Some? && Superseding(pc.value) then b.buf == []
       else !gone ==> b.pushed <= |b.log| && b.buf == Replay(b.log[..b.pushed], l)
  }

  /** Message `n` had left the buffer when the first `hi` messages had gone
      through it: a later snapshot among them superseded it, or keeping it would
      have broken the budget, or the buffer had just been `cleared` for the
      snapshot that comes next. */
  ghost predicate Lost(log: seq<Frame>, n: nat, hi: nat, cleared: bool, l: Limits)
    requires n <= hi <= |log|
  {
    || (exists k :: n < k < hi && KindOf(log[k]) == Snapshot)
    || !Fits(log[n..hi], l)
    || (cleared && hi < |log| && KindOf(log[hi]) == Snapshot)
  }

  ghost predicate GoodJoin(b: Sub, j: Join, l: Limits) {
    && j.since <= b.begun
    && (j.Copied? ==>
          var hi := j.base + |j.copy|;
          && j.since <= hi <= b.pushed <= |b.log|
          && j.copy == b.log[j.base..hi] && j.pos <= |j.copy|
          && (forall n :: 0 <= n < j.base ==> Lost(b.log, n, hi, j.cleared, l)))
  }

  ghost predicate JoinInv(b: Sub, l: Limits) {
    forall x :: x in b.subs ==> x in b.joins && x in b.inbox && GoodJoin(b, b.joins[x], l)
  }

  predicate Received(b: Sub, x: SubId, n: nat) {
    n < |b.log| && x in b.inbox && Data(b.log[n], Some(n)) in b.inbox[x]
  }

  /** A broadcast of message `n` that still has to write to `x`. */
  predicate Owes(pc: FwdPC, n: nat, x: SubId) {
    CarriesId(pc) && pc.cast.Writing? && pc.cast.what.id == Some(n) && x in pc.cast.todo
  }

  predicate ReplayOwes(j: Join, n: nat) {
    n < j.since && (j.Inserted? || n < j.base || j.base + j.pos <= n < j.base + |j.copy|)
  }

  predicate Covered(b: Sub, pc: Option<FwdPC>, x: SubId, n: nat) {
    || n >= b.begun
    || Received(b, x, n)
    || (pc.Some? && Owes(pc.value, n, x))
    || (x in b.joins && ReplayOwes(b.joins[x], n))
  }

  ghost predicate NoGap(b: Sub, pc: Option<FwdPC>) {
    forall x, n :: x in b.subs && x !in b.broken && 0 <= n < |b.log| ==> Covered(b, pc, x, n)
  }

  ghost predicate DelInv(b: Sub, pc: Option<FwdPC>, gone: bool, l: Limits) {
    LogInv(b, pc) && BufInv(b, pc, gone, l) && JoinInv(b, l) && NoGap(b, pc)
  }

  // ----------------------------------------------- preservation: the forwarder

  /** Moving between points that neither hold a message nor owe a write. */
  predicate Neutral(pc: Option<FwdPC>) {
    pc.None? || (!AtBuffer(pc.value) && !CarriesId(pc.value))
  }

  lemma NeutralKeeps(b: Sub, pc: Option<FwdPC>, next: Option<FwdPC>, gone: bool, l: Limits)
    requires DelInv(b, pc, gone, l) && Neutral(pc) && Neutral(next)
    ensures DelInv(b, next, gone, l)
  {
    forall x, n | x in b.subs && x !in b.broken && 0 <= n < |b.log| ensures Covered(b, next, x, n) {
      assert Covered(b, pc, x, n);
    }
  }

  lemma ReadKeeps(b: Sub, pc: Option<FwdPC>, next: FwdPC, f: Frame, gone: bool, l: Limits)
    requires DelInv(b, pc, gone, l) && Neutral(pc)
    requires (next.Buffering? && KindOf(f) == Output) || (next.Clearing? && KindOf(f) == Snapshot)
    requires next.frame == f
    ensures DelInv(b.(log := b.log + [f]), Some(next), gone, l)
  {
    var c := b.(log := b.log + [f]);
    assert c.log[..c.pushed] == b.log[..b.pushed];
    LogGrows(b, f, l);
    forall x, n | x in c.subs && x !in c.broken && 0 <= n < |c.log| ensures Covered(c, Some(next), x, n) {
      if n < |b.log| {
        assert Covered(b, pc, x, n);
      }
    }
  }

  lemma LostGrows(log: seq<Frame>, f: Frame, n: nat, hi: nat, cleared: bool, l: Limits)
    requires n <= hi <= |log| && Lost(log, n, hi, cleared, l)
    ensures Lost(log + [f], n, hi, cleared, l)
  {
    assert (log + [f])[n..hi] == log[n..hi];
    if k :| n < k < hi && KindOf(log[k]) == Snapshot {
      assert (log + [f])[k] == log[k];
    }
  }

  /** Appending to the history keeps every join's account of what it copied. */
  lemma LogGrows(b: Sub, f: Frame, l: Limits)
    requires JoinInv(b, l)
    ensures JoinInv(b.(log := b.log + [f]), l)
  {
    var c := b.(log := b.log + [f]);
    forall x | x in c.subs ensures GoodJoin(c, c.joins[x], l) {
      var j := b.joins[x];
      assert GoodJoin(b, j, l);
      if j.Copied? {
        var hi := j.base + |j.copy|;
        assert c.log[j.base..hi] == b.log[j.base..hi];
        forall n | 0 <= n < j.base ensures Lost(c.log, n, hi, j.cleared, l) {
          LostGrows(b.log, f, n, hi, j.cleared, l);
        }
      }
    }
  }

  lemma ClearKeeps(b: Sub, pc: FwdPC, gone: bool, l: Limits)
    requires DelInv(b, Some(pc), gone, l) && pc.Clearing?
    ensures DelInv(b.(buf := [], cleared := true), Some(Buffering(pc.conn, pc.frame)), gone, l)
  {
    var c, next := b.(buf := [], cleared := true), Some(Buffering(pc.conn, pc.frame));
    forall x | x in c.subs ensures GoodJoin(c, c.joins[x], l) {
      assert GoodJoin(b, b.joins[x], l);
    }
    forall x, n | x in c.subs && x !in c.broken && 0 <= n < |c.log| ensures Covered(c, next, x, n) {
      assert Covered(b, Some(pc), x, n);
    }
  }

  lemma BufferKeeps(b: Sub, pc: FwdPC, l: Budget)
    requires DelInv(b, Some(pc), false, l) && pc.Buffering?
    ensures var c := b.(buf := Push(b.buf, pc.frame, l), cleared := false, pushed := b.pushed + 1);
            DelInv(c, Some(Casting(pc.conn, Pending(Data(pc.frame, Some(b.pushed))))), false, l)
  {
    var c := b.(buf := Push(b.buf, pc.frame, l), cleared := false, pushed := b.pushed + 1);
    var next := Some(Casting(pc.conn, Pending(Data(pc.frame, Some(b.pushed)))));
    var h := b.log[..b.pushed];
    assert c.log[..c.pushed] == h + [pc.frame];
    ReplayStep(h, pc.frame, l);
    forall x | x in c.subs ensures GoodJoin(c, c.joins[x], l) {
      assert GoodJoin(b, b.joins[x], l);
    }
    forall x, n | x in c.subs && x !in c.broken && 0 <= n < |c.log| ensures Covered(c, next, x, n) {
      assert Covered(b, Some(pc), x, n);
    }
  }

  // ---------------------------------------------- preservation: the broadcast

  lemma SnapKeeps(b: Sub, pc: FwdPC, gone: bool, l: Limits)
    requires DelInv(b, Some(pc), gone, l) && CarriesId(pc) && pc.cast.Pending?
    ensures DelInv(b.(begun := b.begun + 1), Some(pc.(cast := Writing(pc.cast.what, b.subs, {}))), gone, l)
  {
    var c, next := b.(begun := b.begun + 1), pc.(cast := Writing(pc.cast.what, b.subs, {}));
    forall x | x in c.subs ensures GoodJoin(c, c.joins[x], l) {
      assert GoodJoin(b, b.joins[x], l);
    }
    forall x, n | x in c.subs && x !in c.broken && 0 <= n < |c.log| ensures Covered(c, Some(next), x, n) {
      assert Covered(b, Some(pc), x, n);
      if n == b.begun {
        assert Owes(next, n, x);
      }
    }
  }

  /** A write of the broadcast that carries a numbered message. */
  lemma OwedWriteKeeps(b: Sub, pc: FwdPC, y: SubId, ok: bool, failed: set<SubId>, gone: bool, l: Limits)
    requires DelInv(b, Some(pc), gone, l) && CarriesId(pc) && pc.cast.Writing?
    ensures DelInv(Written(b, y, pc.cast.what, ok),
                   Some(pc.(cast := Writing(pc.cast.what, pc.cast.todo - {y}, failed))), gone, l)
  {
    var c := Written(b, y, pc.cast.what, ok);
    var next := pc.(cast := Writing(pc.cast.what, pc.cast.todo - {y}, failed));
    forall x | x in c.subs ensures GoodJoin(c, c.joins[x], l) && x in c.joins && x in c.inbox {
      assert GoodJoin(b, b.joins[x], l);
    }
    forall x, n | x in c.subs && x !in c.broken && 0 <= n < |c.log| ensures Covered(c, Some(next), x, n) {
      assert Covered(b, Some(pc), x, n);
      if Owes(pc, n, x) && x == y {
        assert Received(c, y, n);
      }
    }
  }

  function Written(b: Sub, y: SubId, what: Cast, ok: bool): Sub {
    if ok then b.(inbox := Deliver(b.inbox, y, what)) else b.(broken := b.broken + {y})
  }

  /** A write of any other broadcast. */
  lemma OtherWriteKeeps(b: Sub, pc: Option<FwdPC>, next: Option<FwdPC>, what: Cast, y: SubId, ok: bool, gone: bool, l: Limits)
    requires DelInv(b, pc, gone, l) && Neutral(pc) && Neutral(next)
    ensures DelInv(Written(b, y, what, ok), next, gone, l)
  {
    var c := Written(b, y, what, ok);
    forall x | x in c.subs ensures GoodJoin(c, c.joins[x], l) && x in c.joins && x in c.inbox {
      assert GoodJoin(b, b.joins[x], l);
    }
    forall x, n | x in c.subs && x !in c.broken && 0 <= n < |c.log| ensures Covered(c, next, x, n) {
      assert Covered(b, pc, x, n);
    }
  }

  lemma EndKeeps(b: Sub, pc: FwdPC, next: FwdPC, gone: bool, l: Limits)
    requires DelInv(b, Some(pc), gone, l) && CarriesId(pc) && pc.cast.Writing? && pc.cast.todo == {}
    requires Neutral(Some(next))
    ensures DelInv(b, Some(next), gone, l)
  {
    forall x, n | x in b.subs && x !in b.broken && 0 <= n < |b.log| ensures Covered(b, Some(next), x, n) {
      assert Covered(b, Some(pc), x, n);
    }
  }

  predicate Shrinks(b: Sub, c: Sub) {
    && c.subs <= b.subs && c.joins == b.joins && c.buf == b.buf && c.cleared == b.cleared && c.pushed == b.pushed
    && c.log == b.log && c.begun == b.begun && c.inbox == b.inbox && c.broken == b.broken
  }

  /** Fewer subscribers, or other fields that the account does not mention. */
  lemma ShrinkKeeps(b: Sub, c: Sub, pc: Option<FwdPC>, gone: bool, l: Limits)
    requires DelInv(b, pc, gone, l) && Shrinks(b, c)
    ensures DelInv(c, pc, gone, l)
  {
    forall x | x in c.subs ensures GoodJoin(c, c.joins[x], l) {
      assert GoodJoin(b, b.joins[x], l);
    }
    forall x, n | x in c.subs && x !in c.broken && 0 <= n < |c.log| ensures Covered(c, pc, x, n) {
      assert Covered(b, pc, x, n);
    }
  }

  // --------------------------------------------------- preservation: the join

  lemma InsertKeeps(b: Sub, x0: SubId, pc: Option<FwdPC>, gone: bool, l: Limits)
    requires DelInv(b, pc, gone, l) && x0 !in b.joins
    ensures DelInv(b.(subs := b.subs + {x0}, joins := b.joins[x0 := Inserted(b.begun)], inbox := b.inbox[x0 := []]),
                   pc, gone, l)
  {
    var c := b.(subs := b.subs + {x0}, joins := b.joins[x0 := Inserted(b.begun)], inbox := b.inbox[x0 := []]);
    forall x | x in c.subs ensures x in c.joins && x in c.inbox && GoodJoin(c, c.joins[x], l) {
      if x != x0 {
        assert GoodJoin(b, b.joins[x], l);
      }
    }
    forall x, n | x in c.subs && x !in c.broken && 0 <= n < |c.log| ensures Covered(c, pc, x, n) {
      if x != x0 {
        assert Covered(b, pc, x, n);
      }
    }
  }

  /** What a copy of the buffer leaves out is lost for a reason. */
  lemma CopyAccounts(b: Sub, pc: Option<FwdPC>, l: Limits)
    requires LogInv(b, pc) && BufInv(b, pc, false, l)
    ensures |b.buf| <= b.pushed
    ensures b.buf == b.log[b.pushed - |b.buf|..b.pushed]
    ensures forall n :: 0 <= n < b.pushed - |b.buf| ==> Lost(b.log, n, b.pushed, b.cleared, l)
  {
    var h := b.log[..b.pushed];
    if pc.Some? && Superseding(pc.value) {
      assert b.cleared && b.pushed < |b.log| && KindOf(b.log[b.pushed]) == Snapshot;
    } else {
      ReplayOmits(h, l);
      forall n | 0 <= n < b.pushed - |b.buf| ensures Lost(b.log, n, b.pushed, b.cleared, l) {
        assert h[n..] == b.log[n..b.pushed];
        if Superseded(h, n) {
          var k :| n < k < |h| && KindOf(h[k]) == Snapshot;
          assert b.log[k] == h[k];
        }
      }
    }
  }

  lemma CopyJoins(b: Sub, x0: SubId, pc: Option<FwdPC>, gone: bool, l: Limits)
    requires LogInv(b, pc) && BufInv(b, pc, gone, l) && JoinInv(b, l) && x0 in b.joins
    requires gone ==> b.subs == {}
    ensures JoinInv(DoJoinCopy(b, x0), l)
  {
    var c := DoJoinCopy(b, x0);
    if !gone {
      CopyAccounts(b, pc, l);
    }
    forall x | x in c.subs ensures x in c.joins && x in c.inbox && GoodJoin(c, c.joins[x], l) {
      assert GoodJoin(b, b.joins[x], l);
    }
  }

  lemma CopyKeeps(b: Sub, x0: SubId, pc: Option<FwdPC>, gone: bool, l: Limits)
    requires DelInv(b, pc, gone, l) && x0 in b.joins && b.joins[x0].Inserted?
    requires gone ==> b.subs == {}
    ensures DelInv(DoJoinCopy(b, x0), pc, gone, l)
  {
    var c := DoJoinCopy(b, x0);
    CopyJoins(b, x0, pc, gone, l);
    forall x, n | x in c.subs && x !in c.broken && 0 <= n < |c.log| ensures Covered(c, pc, x, n) {
      assert Covered(b, pc, x, n);
      assert x == x0 ==> GoodJoin(c, c.joins[x0], l);
    }
  }

  lemma ReplayJoins(b: Sub, x0: SubId, ok: bool, l: Limits)
    requires JoinInv(b, l) && x0 in b.joins && b.joins[x0].Copied? && b.joins[x0].pos < |b.joins[x0].copy|
    ensures JoinInv(DoJoinWrite(b, x0, ok), l)
  {
    var c := DoJoinWrite(b, x0, ok);
    forall x | x in c.subs ensures x in c.joins && x in c.inbox && GoodJoin(c, c.joins[x], l) {
      assert GoodJoin(b, b.joins[x], l);
    }
  }

  lemma ReplayKeeps(b: Sub, x0: SubId, ok: bool, pc: Option<FwdPC>, gone: bool, l: Limits)
    requires DelInv(b, pc, gone, l) && x0 in b.joins && b.joins[x0].Copied? && b.joins[x0].pos < |b.joins[x0].copy|
    ensures DelInv(DoJoinWrite(b, x0, ok), pc, gone, l)
  {
    var c, j := DoJoinWrite(b, x0, ok), b.joins[x0];
    ReplayJoins(b, x0, ok, l);
    forall x, n | x in c.subs && x !in c.broken && 0 <= n < |c.log| ensures Covered(c, pc, x, n) {
      assert Covered(b, pc, x, n);
      if x == x0 && n == j.base + j.pos {
        assert GoodJoin(b, j, l);
        assert Received(c, x, n);
      }
    }
  }

  /** The status notice is not one of the messages that the account is about. */
  lemma TellKeeps(b: Sub, x0: SubId, ok: bool, pc: Option<FwdPC>, gone: bool, l: Limits)
    requires DelInv(b, pc, gone, l)
    ensures DelInv(DoJoinTell(b, x0, ok), pc, gone, l)
  {
    var c := DoJoinTell(b, x0, ok);
    forall x | x in c.subs ensures GoodJoin(c, c.joins[x], l) && x in c.joins && x in c.inbox {
      assert GoodJoin(b, b.joins[x], l);
    }
    forall x, n | x in c.subs && x !in c.broken && 0 <= n < |c.log| ensures Covered(c, pc, x, n) {
      assert Covered(b, pc, x, n);
    }
  }

  /** The buffer is released for good. */
  lemma ReleaseKeeps(b: Sub, pc: Option<FwdPC>, gone: bool, l: Limits)
    requires DelInv(b, pc, gone, l) && b.subs == {}
    ensures DelInv(b.(buf := []), pc, true, l)
  {
  }

  // --------------------------------------------------------------- every step

  ghost predicate Delivers(s: State) {
    DelInv(s.sub, Current(s.pub.forwarders), BufferGone(s.pub), s.limits)
  }

  lemma CurrentIs(p: Pub, g: nat)
    requires Counted(p) && g in p.forwarders
    ensures Current(p.forwarders) == Some(p.forwarders[g].pc)
  {
  }

  /** After a forwarder's own action, its program counter is the current one. */
  lemma CurrentAfter(p: Pub, g: nat, f: Forwarder)
    requires Counted(p) && g in p.forwarders
    ensures Current(p.forwarders[g := f]) == Some(f.pc)
  {
    var fs := p.forwarders[g := f];
    assert fs.Keys == {g};
    assert forall h :: h in fs ==> h in fs.Keys;
    assert g in fs;
  }

  lemma ExitDelivers(s: State, g: nat)
    requires Counted(s.pub) && !BufferGone(s.pub) && Delivers(s) && CanForward(s.pub, g, FwdExit)
    ensures Delivers(DoForward(s, g, FwdExit))
  {
    var q := DoForward(s, g, FwdExit);
    CurrentIs(s.pub, g);
    assert s.pub.forwarders.Keys == {g};
    assert q.pub.forwarders == map[];
    NeutralKeeps(s.sub, Some(s.pub.forwarders[g].pc), None, false, s.limits);
  }

  /** The forwarder's other actions neither hold a message nor touch the subscribers. */
  lemma MoveIsNeutral(s: State, g: nat, a: FwdAct)
    requires CanForward(s.pub, g, a) && !a.FwdExit? && !a.FwdClear? && !a.FwdBuffer?
    requires a.FwdRead? ==> !Replayable(a.frame)
    ensures DoForward(s, g, a).sub == s.sub
    ensures Neutral(Some(s.pub.forwarders[g].pc)) && Neutral(Some(DoForward(s, g, a).pub.forwarders[g].pc))
  {
  }

  /** The forwarder `g` moves to `next` and the subscribers' side becomes `c`. */
  lemma GotoDelivers(s: State, g: nat, next: FwdPC, c: Sub)
    requires Counted(s.pub) && g in s.pub.forwarders && !BufferGone(s.pub)
    requires DelInv(c, Some(next), false, s.limits)
    ensures Delivers(s.(pub := Goto(s.pub, g, next), sub := c))
  {
    CurrentAfter(s.pub, g, s.pub.forwarders[g].(pc := next));
  }

  lemma ForwardDelivers(s: State, g: nat, a: FwdAct)
    requires Counted(s.pub) && !BufferGone(s.pub) && Delivers(s) && CanForward(s.pub, g, a) && !a.FwdExit?
    ensures Delivers(DoForward(s, g, a))
  {
    var pc := s.pub.forwarders[g].pc;
    CurrentIs(s.pub, g);
    if a.FwdRead? && Replayable(a.frame) {
      var next := if KindOf(a.frame) == Output then Buffering(pc.conn, a.frame) else Clearing(pc.conn, a.frame);
      ReadKeeps(s.sub, Some(pc), next, a.frame, false, s.limits);
      GotoDelivers(s, g, next, s.sub.(log := s.sub.log + [a.frame]));
    } else if a.FwdClear? {
      ClearKeeps(s.sub, pc, false, s.limits);
      GotoDelivers(s, g, Buffering(pc.conn, pc.frame), s.sub.(buf := [], cleared := true));
    } else if a.FwdBuffer? {
      BufferKeeps(s.sub, pc, s.limits);
      GotoDelivers(s, g, Casting(pc.conn, Pending(Data(pc.frame, Some(s.sub.pushed)))),
                   s.sub.(buf := Push(s.sub.buf, pc.frame, s.limits), cleared := false, pushed := s.sub.pushed + 1));
    } else {
      MoveDelivers(s, g, a);
    }
  }

  lemma MoveDelivers(s: State, g: nat, a: FwdAct)
    requires Counted(s.pub) && !BufferGone(s.pub) && Delivers(s) && CanForward(s.pub, g, a)
    requires !a.FwdExit? && !a.FwdClear? && !a.FwdBuffer? && (a.FwdRead? ==> !Replayable(a.frame))
    ensures Delivers(DoForward(s, g, a))
  {
    var q := DoForward(s, g, a);
    CurrentIs(s.pub, g);
    CurrentAfter(s.pub, g, q.pub.forwarders[g]);
    assert q.pub.forwarders == s.pub.forwarders[g := q.pub.forwarders[g]];
    MoveIsNeutral(s, g, a);
    NeutralKeeps(s.sub, Some(s.pub.forwarders[g].pc), Some(q.pub.forwarders[g].pc), false, s.limits);
  }

  /** A broadcast by the forwarder. */
  lemma ForwarderCastDelivers(s: State, g: nat, a: CastAct)
    requires Counted(s.pub) && CastKinds(s.pub) && !BufferGone(s.pub) && Delivers(s)
    requires CanCast(s.pub, ByForwarder(g), a)
    ensures Delivers(DoCast(s, ByForwarder(g), a))
  {
    var q, b, pc := DoCast(s, ByForwarder(g), a), s.sub, s.pub.forwarders[g].pc;
    var next := q.pub.forwarders[g].pc;
    CurrentIs(s.pub, g);
    CurrentAfter(s.pub, g, q.pub.forwarders[g]);
    assert q.pub.forwarders == s.pub.forwarders[g := q.pub.forwarders[g]];
    assert !BufferGone(q.pub);
    match a
    case Snap =>
      if CarriesId(pc) { SnapKeeps(b, pc, false, s.limits); }
      else { NeutralKeeps(b, Some(pc), Some(next), false, s.limits); }
    case Write(y, ok) =>
      if CarriesId(pc) { OwedWriteKeeps(b, pc, y, ok, next.cast.failed, false, s.limits); }
      else { OtherWriteKeeps(b, Some(pc), Some(next), pc.cast.what, y, ok, false, s.limits); }
    case Evict(y) =>
      EvictKeeps(b, pc, next, false, s.limits);
      ShrinkKeeps(b, q.sub, Some(next), false, s.limits);
    case EndCast =>
      if CarriesId(pc) { EndKeeps(b, pc, next, false, s.limits); }
      else { NeutralKeeps(b, Some(pc), Some(next), false, s.limits); }
  }

  lemma EvictKeeps(b: Sub, pc: FwdPC, next: FwdPC, gone: bool, l: Limits)
    requires DelInv(b, Some(pc), gone, l) && (pc.Casting? || pc.Farewell?) && pc.cast.Writing?
    requires exists failed :: next == pc.(cast := pc.cast.(failed := failed))
    ensures DelInv(b, Some(next), gone, l)
  {
    forall x, n | x in b.subs && x !in b.broken && 0 <= n < |b.log| ensures Covered(b, Some(next), x, n) {
      assert Covered(b, Some(pc), x, n);
    }
  }

  /** A broadcast of RunnerReconnected by the lock holder: no forwarder exists. */
  lemma HolderCastDelivers(s: State, a: CastAct)
    requires s.pub.forwarders == map[] && s.pub.holder.Announcing? && s.pub.holder.cast.what == RunnerBack
    requires !s.pub.closed && Delivers(s) && CanCast(s.pub, ByHolder, a)
    ensures Delivers(DoCast(s, ByHolder, a))
  {
    var q := DoCast(s, ByHolder, a);
    assert q.pub.forwarders == map[] && Current(q.pub.forwarders) == None;
    if a.Write? {
      OtherWriteKeeps(s.sub, None, None, RunnerBack, a.x, a.ok, false, s.limits);
    } else {
      ShrinkKeeps(s.sub, q.sub, None, false, s.limits);
    }
  }

  lemma SubscribeDelivers(s: State, x: SubId, a: SubAct)
    requires Emptied(s) && Delivers(s) && CanSubscribe(s.pub, s.sub, x, a)
    ensures Delivers(s.(sub := DoSubscribe(s.pub, s.sub, x, a)))
  {
    var pc, gone := Current(s.pub.forwarders), BufferGone(s.pub);
    match a
    case JoinInsert(_) => InsertKeeps(s.sub, x, pc, gone, s.limits);
    case JoinCopy => CopyKeeps(s.sub, x, pc, gone, s.limits);
    case JoinWrite(ok) => ReplayKeeps(s.sub, x, ok, pc, gone, s.limits);
    case JoinTell(ok) => TellKeeps(s.sub, x, ok, pc, gone, s.limits);
    case JoinStatus => OtherDelivers(s, x, a);
    case Remove => OtherDelivers(s, x, a);
    case ClearControl => OtherDelivers(s, x, a);
    case Request => OtherDelivers(s, x, a);
    case Release => OtherDelivers(s, x, a);
    case Input => OtherDelivers(s, x, a);
  }

  /** A subscriber's steps that deliver nothing. */
  lemma OtherDelivers(s: State, x: SubId, a: SubAct)
    requires Delivers(s) && CanSubscribe(s.pub, s.sub, x, a)
    requires !a.JoinInsert? && !a.JoinCopy? && !a.JoinWrite? && !a.JoinTell?
    ensures Delivers(s.(sub := DoSubscribe(s.pub, s.sub, x, a)))
  {
    OtherShrinks(s.pub, s.sub, x, a);
    ShrinkKeeps(s.sub, DoSubscribe(s.pub, s.sub, x, a), Current(s.pub.forwarders), BufferGone(s.pub), s.limits);
  }

  lemma OtherShrinks(p: Pub, b: Sub, x: SubId, a: SubAct)
    requires CanSubscribe(p, b, x, a) && !a.JoinInsert? && !a.JoinCopy? && !a.JoinWrite? && !a.JoinTell?
    ensures Shrinks(b, DoSubscribe(p, b, x, a))
  {
  }

  lemma CloseDelivers(s: State, a: CloseAct)
    requires Emptied(s) && Delivers(s) && CanClose(s.pub, a)
    requires ClosingNow(s.pub) ==> s.pub.closed
    ensures Delivers(DoClose(s, a))
  {
    var pc, gone, q := Current(s.pub.forwarders), BufferGone(s.pub), DoClose(s, a);
    if a.CloseSubs? {
      ShrinkKeeps(s.sub, q.sub, pc, gone, s.limits);
    } else if a.CloseBuffer? {
      ReleaseKeeps(s.sub, pc, gone, s.limits);
    }
  }

  lemma ReplaceDelivers(s: State, a: ReplaceAct)
    requires Counted(s.pub) && Delivers(s) && CanReplace(s.pub, a)
    requires s.pub.holder.Spawning? ==> s.pub.forwarders == map[] && !s.pub.closed
    ensures Delivers(s.(pub := DoReplace(s.pub, a)))
  {
    if a.Spawn? {
      var fs := DoReplace(s.pub, a).forwarders;
      assert fs.Keys == {a.g};
      assert forall h :: h in fs ==> h in fs.Keys;
      assert a.g in fs && Current(fs) == Some(Starting);
      NeutralKeeps(s.sub, None, Some(Starting), BufferGone(s.pub), s.limits);
    }
  }

  lemma StepDelivers(s: State, a: Action)
    requires PubInv(s.pub) && Emptied(s) && Delivers(s) && Enabled(s, a)
    ensures Delivers(Do(s, a))
  {
    match a
    case Replace(r) => ReplaceDelivers(s, r);
    case Broadcast(who, c) =>
      if who.ByHolder? { HolderCastDelivers(s, c); } else { ForwarderCastDelivers(s, who.g, c); }
    case Forward(g, f) => if f.FwdExit? { ExitDelivers(s, g); } else { ForwardDelivers(s, g, f); }
    case Timer(t) =>
    case Shutdown(c) => CloseDelivers(s, c);
    case Subscriber(x, b) => SubscribeDelivers(s, x, b);
  }

  lemma {:induction false} RunDelivers(l: Budget, acts: seq<Action>)
    requires Run(Init(l), acts)
    ensures Delivers(After(Init(l), acts))
  {
    if acts != [] {
      var rest := acts[..|acts| - 1];
      RunDelivers(l, rest);
      RunKeeps(l, rest);
      RunEmptied(l, rest);
      StepDelivers(After(Init(l), rest), acts[|acts| - 1]);
    }
  }

  // ----------------------------------------------------------------- theorems

  /** Some forwarder still has message `n` in its hands. */
  ghost predicate InHand(s: State, n: nat) {
    exists g :: g in s.pub.forwarders && Holds(s, s.pub.forwarders[g].pc, n)
  }

  predicate Holds(s: State, pc: FwdPC, n: nat) {
    (AtBuffer(pc) && n + 1 == |s.sub.log|) || (CarriesId(pc) && pc.cast.what.id == Some(n))
  }

  /** No-gap join. In every run, take a subscriber that is still subscribed, to
      which no write failed and whose replay is over, and any message that no
      forwarder is still handling. The subscriber has received that very message,
      or the message was broadcast before the subscriber joined and had, by the
      time it copied the buffer, been superseded by a later snapshot or pushed out
      by the budget. */
  lemma NoGapJoin(l: Budget, acts: seq<Action>, x: SubId, n: nat)
    requires Run(Init(l), acts) && Awaited(After(Init(l), acts), x, n)
    ensures Explained(After(Init(l), acts), l, x, n)
  {
    var s := Reached(l, acts);
    NothingOwed(s, x, n);
  }

  /** `x` is subscribed, sound and past its replay; `n` is published and in
      nobody's hands. */
  ghost predicate Awaited(s: State, x: SubId, n: nat) {
    && x in s.sub.subs && x !in s.sub.broken && x in s.sub.joins
    && s.sub.joins[x].Copied? && s.sub.joins[x].pos == |s.sub.joins[x].copy|
    && n < |s.sub.log| && !InHand(s, n)
  }

  ghost predicate Explained(s: State, l: Budget, x: SubId, n: nat)
    requires x in s.sub.joins && s.sub.joins[x].Copied?
  {
    var j := s.sub.joins[x];
    || Received(s.sub, x, n)
    || (n < j.since && n < j.base && j.base + |j.copy| <= |s.sub.log|
        && Lost(s.sub.log, n, j.base + |j.copy|, j.cleared, l))
  }

  lemma Reached(l: Budget, acts: seq<Action>) returns (s: State)
    requires Run(Init(l), acts)
    ensures s == After(Init(l), acts) && s.limits == l && Counted(s.pub) && Delivers(s)
  {
    s := After(Init(l), acts);
    RunDelivers(l, acts);
    RunKeeps(l, acts);
    RunLimits(l, acts);
  }

  lemma NothingOwed(s: State, x: SubId, n: nat)
    requires Counted(s.pub) && Delivers(s) && Awaited(s, x, n)
    ensures Explained(s, s.limits, x, n)
  {
    if g :| g in s.pub.forwarders {
      CurrentIs(s.pub, g);
      assert !Holds(s, s.pub.forwarders[g].pc, n);
    }
    assert Covered(s.sub, Current(s.pub.forwarders), x, n);
    assert GoodJoin(s.sub, s.sub.joins[x], s.limits);
  }

  lemma {:induction false} RunLimits(l: Budget, acts: seq<Action>)
    requires Run(Init(l), acts)
    ensures After(Init(l), acts).limits == l
  {
    if acts != [] {
      RunLimits(l, acts[..|acts| - 1]);
    }
  }

  /** In every run, until the buffer is released and except while a snapshot is
      replacing it, what a joining subscriber is shown is the longest suffix since
      the last snapshot within the budget. */
  lemma LiveBuffer(l: Budget, acts: seq<Action>)
    requires Run(Init(l), acts)
    requires var p := After(Init(l), acts).pub;
             !BufferGone(p) && forall g :: g in p.forwarders ==> !Superseding(p.forwarders[g].pc)
    ensures var s := After(Init(l), acts);
            s.sub.pushed <= |s.sub.log| <= s.sub.pushed + 1 && s.sub.buf == Replay(s.sub.log[..s.sub.pushed], l)
  {
    var s := Reached(l, acts);
    if g :| g in s.pub.forwarders {
      CurrentIs(s.pub, g);
    }
  }

  // ------------------------------------------------------------- authenticity

  /** What a numbered delivery says was published under that number. */
  predicate True(log: seq<Frame>, c: Cast) {
    c.Data? && c.id.Some? ==> c.id.value < |log| && log[c.id.value] == c.frame
  }

  /** Replays in progress, of anybody, hold what was published. */
  predicate TrueCopy(log: seq<Frame>, j: Join) {
    j.Copied? ==> j.base + |j.copy| <= |log| && j.copy == log[j.base..j.base + |j.copy|]
  }

  ghost predicate Genuine(b: Sub) {
    && (forall x, i :: x in b.inbox && 0 <= i < |b.inbox[x]| ==> True(b.log, b.inbox[x][i]))
    && (forall x :: x in b.joins ==> TrueCopy(b.log, b.joins[x]))
  }

  lemma GenuineRead(b: Sub, f: Frame)
    requires Genuine(b)
    ensures Genuine(b.(log := b.log + [f]))
  {
    forall x | x in b.joins ensures TrueCopy(b.log + [f], b.joins[x]) {
      var j := b.joins[x];
      assert TrueCopy(b.log, j);
      if j.Copied? {
        assert (b.log + [f])[j.base..j.base + |j.copy|] == b.log[j.base..j.base + |j.copy|];
      }
    }
  }

  lemma GenuineDeliver(b: Sub, y: SubId, c: Cast)
    requires Genuine(b) && True(b.log, c)
    ensures Genuine(b.(inbox := Deliver(b.inbox, y, c)))
  {
  }

  /** What the buffer holds is a piece of what was published. */
  predicate TrueBuffer(b: Sub) {
    |b.buf| <= b.pushed <= |b.log| && b.buf == b.log[b.pushed - |b.buf|..b.pushed]
  }

  lemma BufferIsTrue(s: State)
    requires Delivers(s) && Emptied(s)
    ensures TrueBuffer(s.sub)
  {
    if !BufferGone(s.pub) {
      CopyAccounts(s.sub, Current(s.pub.forwarders), s.limits);
    }
  }

  lemma GenuineCopy(b: Sub, x: SubId)
    requires Genuine(b) && TrueBuffer(b) && x in b.joins
    ensures Genuine(DoJoinCopy(b, x))
  {
    assert TrueCopy(b.log, DoJoinCopy(b, x).joins[x]);
  }

  lemma GenuineReplay(b: Sub, x: SubId, ok: bool)
    requires Genuine(b) && x in b.joins && b.joins[x].Copied? && b.joins[x].pos < |b.joins[x].copy|
    ensures Genuine(DoJoinWrite(b, x, ok))
  {
    var j, c := b.joins[x], DoJoinWrite(b, x, ok);
    assert TrueCopy(b.log, j) && TrueCopy(b.log, c.joins[x]);
    if ok { GenuineDeliver(b, x, Data(j.copy[j.pos], Some(j.base + j.pos))); }
  }

  lemma GenuineInsert(b: Sub, x: SubId)
    requires Genuine(b)
    ensures Genuine(b.(subs := b.subs + {x}, joins := b.joins[x := Inserted(b.begun)], inbox := b.inbox[x := []]))
  {
  }

  /** Anything that leaves the history, the joins and the deliveries alone. */
  lemma GenuineFrame(b: Sub, c: Sub)
    requires Genuine(b) && c.log == b.log && c.joins == b.joins && c.inbox == b.inbox
    ensures Genuine(c)
  {
  }

  lemma GenuineSubscribe(p: Pub, b: Sub, x: SubId, a: SubAct)
    requires Genuine(b) && TrueBuffer(b) && CanSubscribe(p, b, x, a)
    ensures Genuine(DoSubscribe(p, b, x, a))
  {
    if a.JoinCopy? {
      GenuineCopy(b, x);
    } else if a.JoinWrite? {
      GenuineReplay(b, x, a.ok);
    } else if a.JoinTell? {
      if a.ok { GenuineDeliver(b, x, RunnerGone); }
      GenuineFrame(b.(inbox := DoJoinTell(b, x, a.ok).inbox), DoJoinTell(b, x, a.ok));
    } else if a.JoinInsert? {
      GenuineInsert(b, x);
    } else {
      GenuineFrame(b, DoSubscribe(p, b, x, a));
    }
  }

  /** A broadcast by the only forwarder carries what was published. */
  lemma CastIsTrue(s: State, who: Caster)
    requires Counted(s.pub) && CastKinds(s.pub) && Delivers(s) && CastOf(s.pub, who).Some?
    ensures True(s.sub.log, CastOf(s.pub, who).value.what)
  {
    if who.ByForwarder? { CurrentIs(s.pub, who.g); }
  }

  lemma GenuineCast(s: State, who: Caster, a: CastAct)
    requires Counted(s.pub) && CastKinds(s.pub) && Delivers(s) && Genuine(s.sub) && CanCast(s.pub, who, a)
    ensures Genuine(DoCast(s, who, a).sub)
  {
    if a.Write? && a.ok {
      CastIsTrue(s, who);
      GenuineDeliver(s.sub, a.x, CastOf(s.pub, who).value.what);
    } else {
      GenuineFrame(s.sub, DoCast(s, who, a).sub);
    }
  }

  lemma GenuineForward(s: State, g: nat, a: FwdAct)
    requires Genuine(s.sub) && CanForward(s.pub, g, a)
    ensures Genuine(DoForward(s, g, a).sub)
  {
    if a.FwdRead? && Replayable(a.frame) {
      GenuineRead(s.sub, a.frame);
    } else {
      GenuineFrame(s.sub, DoForward(s, g, a).sub);
    }
  }

  lemma GenuineStep(s: State, a: Action)
    requires PubInv(s.pub) && Emptied(s) && Delivers(s) && Genuine(s.sub) && Enabled(s, a)
    ensures Genuine(Do(s, a).sub)
  {
    match a
    case Broadcast(who, c) => GenuineCast(s, who, c);
    case Forward(g, f) => GenuineForward(s, g, f);
    case Subscriber(x, b) =>
      BufferIsTrue(s);
      GenuineSubscribe(s.pub, s.sub, x, b);
    case Replace(r) =>
    case Timer(t) =>
    case Shutdown(c) => GenuineFrame(s.sub, DoClose(s, c).sub);
  }

  lemma {:induction false} RunGenuine(l: Budget, acts: seq<Action>)
    requires Run(Init(l), acts)
    ensures Genuine(After(Init(l), acts).sub)
  {
    if acts != [] {
      var rest := acts[..|acts| - 1];
      RunGenuine(l, rest);
      RunKeeps(l, rest);
      RunEmptied(l, rest);
      RunDelivers(l, rest);
      GenuineStep(After(Init(l), rest), acts[|acts| - 1]);
    }
  }

  /** Nobody is ever sent a numbered message that was not published as that one,
      be it live or from a replay. */
  lemma DeliveriesAreGenuine(l: Budget, acts: seq<Action>, x: SubId, i: nat)
    requires Run(Init(l), acts)
    requires var b := After(Init(l), acts).sub; x in b.inbox && i < |b.inbox[x]| && CarriesNumber(b.inbox[x][i])
    ensures var b := After(Init(l), acts).sub;
            var c := b.inbox[x][i];
            c.id.value < |b.log| && c.frame == b.log[c.id.value]
  {
    RunGenuine(l, acts);
    var b := After(Init(l), acts).sub;
    assert True(b.log, b.inbox[x][i]);
  }

  predicate CarriesNumber(c: Cast) {
    c.Data? && c.id.Some?
  }
}
