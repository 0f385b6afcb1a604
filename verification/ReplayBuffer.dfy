/** The replay buffer of a terminal channel: what a late subscriber is shown.

    The specification is one sentence: the buffer is the longest suffix of the
    messages published since, and including, the last snapshot that fits both
    the count and the byte budget. The eviction loop of the relay is modelled
    twice, as a function that can panic and as a class over a backing array
    with an offset, and both are proved to meet that sentence. */
module ReplayBuffer {
  import opened Wire

  datatype Limits = Limits(count: nat, size: nat)

  /** Limits with which buffering cannot panic; see `PanicsExactlyWithoutSlots`. */
  type Budget = l: Limits | l.count >= 1 witness Limits(1, 0)

  function Bytes(s: seq<Frame>): nat {
    if s == [] then 0 else |s[0]| + Bytes(s[1..])
  }

  predicate Fits(s: seq<Frame>, l: Limits) {
    |s| <= l.count && Bytes(s) <= l.size
  }

  /** The longest suffix within the limits. */
  function Retain(s: seq<Frame>, l: Limits): seq<Frame> {
    if s == [] || Fits(s, l) then s else Retain(s[1..], l)
  }

  /** The messages from the last snapshot on; all of them when there is none. */
  function SinceSnapshot(h: seq<Frame>): seq<Frame> {
    if h == [] then []
    else
      var last := h[|h| - 1];
      if KindOf(last) == Snapshot then [last] else SinceSnapshot(h[..|h| - 1]) + [last]
  }

  function Replay(h: seq<Frame>, l: Limits): seq<Frame> {
    Retain(SinceSnapshot(h), l)
  }

  // ---------------------------------------------------------------- the code

  /** The eviction loop. `None` is the run-time panic of indexing an empty slice. */
  function Evict(buf: seq<Frame>, need: nat, l: Limits): Option<seq<Frame>> {
    if |buf| >= l.count || (Bytes(buf) + need > l.size && |buf| > 0) then
      if buf == [] then None else Evict(buf[1..], need, l)
    else
      Some(buf)
  }

  /** bufferOutput: evict, then append unless the message alone is too big. */
  function BufferOutput(buf: seq<Frame>, f: Frame, l: Limits): Option<seq<Frame>> {
    match Evict(buf, |f|, l)
    case None => None
    case Some(kept) => Some(if |f| <= l.size then kept + [f] else kept)
  }

  /** Buffering fails if and only if the configured count leaves no slot at all. */
  lemma {:induction false} PanicsExactlyWithoutSlots(buf: seq<Frame>, f: Frame, l: Limits)
    ensures BufferOutput(buf, f, l).None? <==> l.count == 0
  {
    EvictDefined(buf, |f|, l);
  }

  lemma {:induction false} EvictDefined(buf: seq<Frame>, need: nat, l: Limits)
    ensures Evict(buf, need, l).None? <==> l.count == 0
  {
    if buf != [] {
      EvictDefined(buf[1..], need, l);
    }
  }

  function Push(buf: seq<Frame>, f: Frame, l: Budget): seq<Frame> {
    PanicsExactlyWithoutSlots(buf, f, l);
    BufferOutput(buf, f, l).value
  }

  /** One step of the forwarder on a replayable message: a snapshot clears first. */
  function Absorb(buf: seq<Frame>, f: Frame, l: Budget): seq<Frame> {
    Push(if KindOf(f) == Snapshot then [] else buf, f, l)
  }

  function AbsorbAll(h: seq<Frame>, l: Budget): seq<Frame> {
    if h == [] then [] else Absorb(AbsorbAll(h[..|h| - 1], l), h[|h| - 1], l)
  }

  // --------------------------------------------------------------- properties

  lemma {:induction false} BytesAppend(s: seq<Frame>, t: seq<Frame>)
    ensures Bytes(s + t) == Bytes(s) + Bytes(t)
  {
    if s == [] {
      assert s + t == t;
    } else {
      assert (s + t)[1..] == s[1..] + t;
      BytesAppend(s[1..], t);
    }
  }

  /** Dropping from the front never breaks the limits. */
  lemma FitsSuffix(s: seq<Frame>, k: nat, l: Limits)
    requires k <= |s| && Fits(s, l)
    ensures Fits(s[k..], l)
  {
    assert s == s[..k] + s[k..];
    BytesAppend(s[..k], s[k..]);
  }

  /** `Retain` is characterised without its recursion: a fitting suffix such
      that no longer suffix fits. */
  lemma {:induction false} RetainIsLongest(s: seq<Frame>, l: Limits)
    ensures |Retain(s, l)| <= |s|
    ensures Retain(s, l) == s[|s| - |Retain(s, l)|..]
    ensures Fits(Retain(s, l), l) && |Retain(s, l)| <= l.count && Bytes(Retain(s, l)) <= l.size
    ensures forall k :: 0 <= k < |s| - |Retain(s, l)| ==> !Fits(s[k..], l) && (|s| - k > l.count || Bytes(s[k..]) > l.size)
  {
    if s == [] || Fits(s, l) {
      assert s[0..] == s;
    } else {
      var t := s[1..];
      RetainIsLongest(t, l);
      var cut := |t| - |Retain(t, l)|;
      assert t[cut..] == s[cut + 1..];
      forall k | 0 <= k < |s| - |Retain(s, l)|
        ensures !Fits(s[k..], l) && (|s| - k > l.count || Bytes(s[k..]) > l.size)
      {
        if k == 0 {
          assert s[0..] == s;
        } else {
          assert s[k..] == t[k - 1..];
        }
      }
    }
  }

  /** Trimming early makes no difference to trimming late. */
  lemma {:induction false} RetainAppend(s: seq<Frame>, f: Frame, l: Limits)
    ensures Retain(Retain(s, l) + [f], l) == Retain(s + [f], l)
  {
    if s != [] && !Fits(s, l) {
      BytesAppend(s, [f]);
      assert (s + [f])[1..] == s[1..] + [f];
      RetainAppend(s[1..], f, l);
    }
  }

  lemma {:induction false} PushRetains(buf: seq<Frame>, f: Frame, l: Budget)
    requires Fits(buf, l)
    ensures Push(buf, f, l) == Retain(buf + [f], l)
  {
    PanicsExactlyWithoutSlots(buf, f, l);
    BytesAppend(buf, [f]);
    assert Bytes([f]) == |f|;
    if |buf| >= l.count || (Bytes(buf) + |f| > l.size && |buf| > 0) {
      FitsSuffix(buf, 1, l);
      assert (buf + [f])[1..] == buf[1..] + [f];
      PushRetains(buf[1..], f, l);
    } else if |f| > l.size {
      assert buf == [] && buf + [f] == [f] && [f][1..] == [];
    }
  }

  /** Buffering one more message keeps the specification. */
  lemma ReplayStep(h: seq<Frame>, f: Frame, l: Budget)
    ensures Absorb(Replay(h, l), f, l) == Replay(h + [f], l)
  {
    assert (h + [f])[..|h|] == h;
    if KindOf(f) == Snapshot {
      PushRetains([], f, l);
      assert [] + [f] == [f];
    } else {
      RetainIsLongest(SinceSnapshot(h), l);
      PushRetains(Replay(h, l), f, l);
      RetainAppend(SinceSnapshot(h), f, l);
    }
  }

  /** Buffer refinement: whatever is published, the code's buffer is exactly
      the longest affordable suffix since the last snapshot. */
  lemma {:induction false} BufferRefinesReplay(h: seq<Frame>, l: Budget)
    ensures AbsorbAll(h, l) == Replay(h, l)
  {
    if h != [] {
      var g := h[..|h| - 1];
      BufferRefinesReplay(g, l);
      ReplayStep(g, h[|h| - 1], l);
      assert g + [h[|h| - 1]] == h;
    }
  }

  /** What `Replay` leaves out, message by message: message `n` of `h` is absent
      only when a later snapshot supersedes it or the suffix from it on is over
      budget. */
  predicate Superseded(h: seq<Frame>, n: nat) {
    exists k :: n < k < |h| && KindOf(h[k]) == Snapshot
  }

  lemma {:induction false} SinceSnapshotSplit(h: seq<Frame>)
    ensures |SinceSnapshot(h)| <= |h|
    ensures SinceSnapshot(h) == h[|h| - |SinceSnapshot(h)|..]
    ensures forall n :: 0 <= n < |h| - |SinceSnapshot(h)| ==> Superseded(h, n)
    ensures forall k :: |h| - |SinceSnapshot(h)| < k < |h| ==> KindOf(h[k]) != Snapshot
  {
    if h != [] {
      var g, last := h[..|h| - 1], h[|h| - 1];
      if KindOf(last) == Snapshot {
        assert h[|h| - 1..] == [last];
        forall n | 0 <= n < |h| - 1 ensures Superseded(h, n) {
          assert n < |h| - 1 < |h| && KindOf(h[|h| - 1]) == Snapshot;
        }
      } else {
        SinceSnapshotSplit(g);
        var cut := |g| - |SinceSnapshot(g)|;
        assert h[cut..] == g[cut..] + [last];
        forall n | 0 <= n < cut ensures Superseded(h, n) {
          assert Superseded(g, n);
          var k :| n < k < |g| && KindOf(g[k]) == Snapshot;
          assert h[k] == g[k];
        }
      }
    }
  }

  lemma ReplayOmits(h: seq<Frame>, l: Limits)
    ensures |Replay(h, l)| <= |h|
    ensures Replay(h, l) == h[|h| - |Replay(h, l)|..]
    ensures forall n :: 0 <= n < |h| - |Replay(h, l)| ==> Superseded(h, n) || !Fits(h[n..], l)
  {
    SinceSnapshotSplit(h);
    var t := SinceSnapshot(h);
    RetainIsLongest(t, l);
    var cut := |h| - |t|;
    assert Replay(h, l) == h[|h| - |Replay(h, l)|..];
    forall n | 0 <= n < |h| - |Replay(h, l)|
      ensures Superseded(h, n) || !Fits(h[n..], l)
    {
      if n >= cut {
        assert h[n..] == t[n - cut..];
      }
    }
  }

  // ------------------------------------------------- the buffer in its own form

  /** A slot of the backing array: cleared, or holding a message. */
  datatype Slot = Nil | Held(frame: Frame)

  function Frames(slots: seq<Slot>): seq<Frame>
    requires forall s :: s in slots ==> s.Held?
  {
    seq(|slots|, i requires 0 <= i < |slots| => slots[i].frame)
  }

  /** The slice `outputBuffer` with its backing array: the live window starts at
      `off` and is `len` long; everything to the right of it is spare capacity. */
  class OutputBuffer {
    const limits: Budget
    var backing: array<Slot>
    var off: nat
    var len: nat
    var bytes: int

    /** Live slots hold messages, every dead slot has been cleared (so nothing
        evicted is kept reachable), and the byte counter is exact. */
    ghost predicate Valid()
      reads this, backing
    {
      && off + len <= backing.Length
      && (forall i :: off <= i < off + len ==> backing[i].Held?)
      && (forall i :: 0 <= i < backing.Length && !(off <= i < off + len) ==> backing[i] == Nil)
      && bytes == Bytes(Contents())
      && Fits(Contents(), limits)
    }

    ghost function Contents(): seq<Frame>
      requires off + len <= backing.Length
      requires forall i :: off <= i < off + len ==> backing[i].Held?
      reads this, backing
    {
      Frames(backing[off..off + len])
    }

    constructor (l: Budget)
      ensures Valid() && Contents() == [] && fresh(backing) && limits == l
    {
      limits := l;
      backing := new Slot[l.count](_ => Nil);
      off, len, bytes := 0, 0, 0;
    }

    /** Drop the oldest message: clear its slot, then slide the window. */
    method EvictOldest()
      requires Valid() && len > 0
      modifies this, backing
      ensures Valid() && backing == old(backing)
      ensures Contents() == old(Contents())[1..]
      ensures off + len == old(off + len) && len == old(len) - 1
    {
      ghost var before := Contents();
      FitsSuffix(before, 1, limits);
      bytes := bytes - |backing[off].frame|;
      backing[off] := Nil;
      off, len := off + 1, len - 1;
      assert Contents() == before[1..];
    }

    /** Move the live window to the start of an array with room for `capacity`. */
    method Relocate(capacity: nat)
      requires Valid() && len <= capacity
      modifies this
      ensures Valid() && fresh(backing) && backing.Length == capacity
      ensures off == 0 && len == old(len) && Contents() == old(Contents())
    {
      var live := backing[off..off + len];
      var room := new Slot[capacity](i requires 0 <= i => if i < |live| then live[i] else Nil);
      ghost var before := Contents();
      backing, off := room, 0;
      assert backing[..len] == live;
      assert Contents() == before;
    }

    /** Append one message; a full backing array is first replaced by one of
        unspecified larger capacity, as the language's append does. */
    method Append(f: Frame)
      requires Valid() && Fits(Contents() + [f], limits)
      modifies this, backing
      ensures Valid() && (backing == old(backing) || fresh(backing))
      ensures Contents() == old(Contents()) + [f]
    {
      ghost var before := Contents();
      if off + len == backing.Length {
        var capacity :| capacity > len;
        Relocate(capacity);
      }
      BytesAppend(before, [f]);
      backing[off + len] := Held(f);
      len, bytes := len + 1, bytes + |f|;
      assert Contents() == before + [f];
    }

    method BufferOutput(f: Frame)
      requires Valid()
      modifies this, backing
      ensures Valid() && (backing == old(backing) || fresh(backing))
      ensures Contents() == Push(old(Contents()), f, limits)
    {
      ghost var before := Contents();
      PanicsExactlyWithoutSlots(before, f, limits);
      while len >= limits.count || (bytes + |f| > limits.size && len > 0)
        invariant Valid() && backing == old(backing)
        invariant Evict(Contents(), |f|, limits) == Evict(before, |f|, limits)
        decreases len
      {
        EvictOldest();
      }
      ghost var kept := Contents();
      if backing.Length - off > len * 3 && backing.Length - off > limits.count {
        Relocate(limits.count);
      }
      if |f| <= limits.size {
        BytesAppend(kept, [f]);
        Append(f);
      }
    }

    method ClearOutputBuffer()
      requires Valid()
      modifies this, backing
      ensures Valid() && backing == old(backing) && Contents() == []
    {
      var i := 0;
      while i < len
        invariant 0 <= i <= len && off == old(off) && len == old(len) && backing == old(backing)
        invariant off + len <= backing.Length
        invariant forall j :: 0 <= j < backing.Length && !(off + i <= j < off + len) ==> backing[j] == Nil
        modifies backing
      {
        backing[off + i] := Nil;
        i := i + 1;
      }
      len, bytes := 0, 0;
    }

    /** What closing does to the buffer: clear it and let the backing array go. */
    method Release()
      requires Valid()
      modifies this, backing
      ensures Valid() && fresh(backing) && backing.Length == 0 && Contents() == []
      ensures forall i :: 0 <= i < old(backing).Length ==> old(backing)[i] == Nil
    {
      ClearOutputBuffer();
      backing := new Slot[0];
      off := 0;
    }

    /** getBufferedOutput: a copy that later changes to the buffer cannot reach. */
    method GetBufferedOutput() returns (result: seq<Frame>)
      requires Valid()
      ensures result == Contents()
    {
      result := [];
      for i := 0 to len
        invariant result == Contents()[..i]
      {
        result := result + [backing[off + i].frame];
      }
    }

    /** The buffering half of one forwarder iteration. */
    method Forward(f: Frame)
      requires Valid() && Replayable(f)
      modifies this, backing
      ensures Valid() && (backing == old(backing) || fresh(backing))
      ensures Contents() == Absorb(old(Contents()), f, limits)
      ensures forall h :: old(Contents()) == Replay(h, limits) ==> Contents() == Replay(h + [f], limits)
    {
      ghost var before := Contents();
      if KindOf(f) == Snapshot {
        ClearOutputBuffer();
      }
      BufferOutput(f);
      forall h | before == Replay(h, limits) ensures Contents() == Replay(h + [f], limits) {
        ReplayStep(h, f, limits);
      }
    }
  }
}
