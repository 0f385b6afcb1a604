/** What a connection meets on its way through the manager: where the mutex sends it,
    what the channel answers, how long it may wait, and that no call gets stuck. */
module Connects {
  import opened Wire
  import opened Registry
  import opened Relay

  predicate Arriving(k: Call) {
    k.PubArrives? || k.SubArrives?
  }

  /** Wherever `c` is waiting, it has been since `at`; and it is not arriving again. */
  ghost predicate Timed(s: State, c: Conn, at: int) {
    && c in s.places
    && (forall t :: t in s.calls && Arriving(s.calls[t]) ==> s.calls[t].conn != c)
    && (forall k :: k in s.maps.pubs && s.maps.pubs[k].conn == c ==> s.maps.pubs[k].at == at)
    && (forall k :: k in s.maps.subs && s.maps.subs[k].conn == c ==> s.maps.subs[k].at == at)
  }

  lemma LockStamps(s: State, t: nat, now: int, newId: ChanId)
    requires Conserved(s) && CanCall(s, t, Lock(now, newId))
    ensures Timed(DoCall(s, t, Lock(now, newId)), s.calls[t].conn, now)
  {
    var c := s.calls[t].conn;
    assert Holds(s, c, InCall(t));
    forall u | u in s.calls && u != t ensures s.calls[u].conn != c { assert Holds(s, s.calls[u].conn, InCall(u)); }
    forall k | k in s.maps.pubs ensures s.maps.pubs[k].conn != c { assert Holds(s, s.maps.pubs[k].conn, PendingPublisher(k)); }
    forall k | k in s.maps.subs ensures s.maps.subs[k].conn != c { assert Holds(s, s.maps.subs[k].conn, PendingSubscriber(k)); }
  }

  lemma TimedCall(s: State, t: nat, a: CallAct, c: Conn, at: int)
    requires Timed(s, c, at) && CanCall(s, t, a)
    ensures Timed(DoCall(s, t, a), c, at)
  {
  }

  lemma TimedStep(s: State, a: Action, c: Conn, at: int)
    requires Timed(s, c, at) && Enabled(s, a)
    ensures Timed(Do(s, a), c, at)
  {
    match a
    case Calling(t, k) => TimedCall(s, t, k, c, at);
    case Within(ch, w) =>
    case HandlerCloses(d) =>
    case CloseChannel(k) =>
    case SweepPending(now) =>
    case CloseAll =>
  }

  /** Action `i` of the run is the section of the mutex that call of `c` went through
      at time `at`. */
  ghost predicate LockedAt(s: State, acts: seq<Action>, i: nat, c: Conn, at: int) {
    && i < |acts| && Run(s, acts[..i]) && acts[i].Calling? && acts[i].call.Lock? && acts[i].call.now == at
    && acts[i].t in After(s, acts[..i]).calls && After(s, acts[..i]).calls[acts[i].t].conn == c
  }

  lemma {:induction false} TimedSince(max: nat, timeout: int, acts: seq<Action>, i: nat, c: Conn, at: int)
    requires Run(Init(max, timeout), acts) && LockedAt(Init(max, timeout), acts, i, c, at)
    ensures Timed(After(Init(max, timeout), acts), c, at) && After(Init(max, timeout), acts).timeout == timeout
  {
    var s, rest := Init(max, timeout), acts[..|acts| - 1];
    RunTimeout(max, timeout, acts);
    if i == |acts| - 1 {
      RunConserves(max, timeout, rest);
      LockStamps(After(s, rest), acts[i].t, at, acts[i].call.newId);
    } else {
      assert rest[..i] == acts[..i] && rest[i] == acts[i];
      TimedSince(max, timeout, rest, i, c, at);
      TimedStep(After(s, rest), acts[|acts| - 1], c, at);
    }
  }

  lemma {:induction false} RunTimeout(max: nat, timeout: int, acts: seq<Action>)
    requires Run(Init(max, timeout), acts)
    ensures After(Init(max, timeout), acts).timeout == timeout
  {
    if acts != [] {
      RunTimeout(max, timeout, acts[..|acts| - 1]);
      StepTimeout(After(Init(max, timeout), acts[..|acts| - 1]), acts[|acts| - 1]);
    }
  }

  lemma CallTimeout(s: State, t: nat, a: CallAct)
    requires CanCall(s, t, a)
    ensures DoCall(s, t, a).timeout == s.timeout
  {
  }

  lemma WithinTimeout(s: State, ch: ChanId, a: ChanAct)
    requires CanWithin(s, ch, a)
    ensures DoWithin(s, ch, a).timeout == s.timeout && DoWithin(s, ch, a).calls == s.calls
    ensures DoWithin(s, ch, a).chans.Keys == s.chans.Keys
  {
  }

  lemma StepTimeout(s: State, a: Action)
    requires Enabled(s, a)
    ensures Do(s, a).timeout == s.timeout
  {
    if a.Calling? { CallTimeout(s, a.t, a.call); }
    else if a.Within? { WithinTimeout(s, a.ch, a.act); }
  }

  /** Clean-up is by age: in every run, a sweep at `now` closes a connection that is
      waiting exactly when its connect call went through the mutex more than the
      timeout earlier, and otherwise leaves it where it is. */
  lemma SweepClosesExactlyStale(max: nat, timeout: int, acts: seq<Action>, i: nat, c: Conn, at: int, now: int)
    requires Run(Init(max, timeout), acts) && LockedAt(Init(max, timeout), acts, i, c, at)
    requires var s := After(Init(max, timeout), acts); c in s.places && (s.places[c].PendingPublisher? || s.places[c].PendingSubscriber?)
    ensures var s := After(Init(max, timeout), acts);
            var q := Do(s, SweepPending(now));
            && c in q.places
            && (now - at > timeout ==> q.places[c] == Closed && c in q.shut)
            && (now - at <= timeout ==> q.places[c] == s.places[c] && Holds(q, c, s.places[c]))
  {
    TimedSince(max, timeout, acts, i, c, at);
    RunConserves(max, timeout, acts);
    SweepByAge(After(Init(max, timeout), acts), c, at, now);
  }

  lemma SweepByAge(s: State, c: Conn, at: int, now: int)
    requires Conserved(s) && Timed(s, c, at) && (s.places[c].PendingPublisher? || s.places[c].PendingSubscriber?)
    ensures var q := Do(s, SweepPending(now));
            && c in q.places
            && (now - at > s.timeout ==> q.places[c] == Closed && c in q.shut)
            && (now - at <= s.timeout ==> q.places[c] == s.places[c] && Holds(q, c, s.places[c]))
  {
    var m := Sweep(s.maps, now, s.timeout);
    assert Holds(s, c, s.places[c]);
    DropPlaces(s, m, c);
    DropConserves(s, m);
    assert Drop(s, m) == Do(s, SweepPending(now));
  }

  /** The mutex routes by key, over every run: to the channel registered under the key,
      which is a channel of that key; else together with the one waiting on the other
      side, in a new, registered channel; else into the waiting list, closing whoever
      waited there before. */
  lemma LockRoutes(max: nat, timeout: int, acts: seq<Action>, t: nat, now: int, newId: ChanId)
    requires Run(Init(max, timeout), acts) && CanCall(After(Init(max, timeout), acts), t, Lock(now, newId))
    ensures var s := After(Init(max, timeout), acts);
            Routed(s, Do(s, Calling(t, Lock(now, newId))), t, newId)
  {
    RunConserves(max, timeout, acts);
    RunRegisters(max, timeout, acts);
    var s := After(Init(max, timeout), acts);
    if s.calls[t].PubArrives? { PubRoutes(s, t, now, newId); } else { SubRoutes(s, t, now, newId); }
  }

  ghost predicate Routed(s: State, q: State, t: nat, newId: ChanId)
    requires t in s.calls && Arriving(s.calls[t])
  {
    var a := s.calls[t];
    var k := a.key;
    if k in s.maps.channels then
      && q.maps == s.maps && q.chans == s.chans && s.maps.channels[k] in s.chans && s.chans[s.maps.channels[k]].key == k
      && q.calls == s.calls[t := if a.PubArrives? then Attach(s.maps.channels[k], a.conn) else Join(s.maps.channels[k], a.id, a.conn)]
    else if a.PubArrives? && k in s.maps.subs then
      Paired(s, q, t, k, newId, PairUp(newId, a.conn, s.maps.subs[k].id, s.maps.subs[k].conn)) && k !in q.maps.subs
    else if a.SubArrives? && k in s.maps.pubs then
      Paired(s, q, t, k, newId, PairUp(newId, s.maps.pubs[k].conn, a.id, a.conn)) && k !in q.maps.pubs
    else
      && t !in q.calls && q.chans == s.chans
      && Holds(q, a.conn, if a.PubArrives? then PendingPublisher(k) else PendingSubscriber(k))
      && (a.PubArrives? && k in s.maps.pubs ==> Holds(q, s.maps.pubs[k].conn, Closed))
      && (a.SubArrives? && k in s.maps.subs ==> Holds(q, s.maps.subs[k].conn, Closed))
      && (a.SubArrives? ==> q.maps.subs[k].id == a.id)
  }

  ghost predicate Paired(s: State, q: State, t: nat, k: Key, newId: ChanId, pair: Call) {
    && q.maps.channels == s.maps.channels[k := newId] && q.calls == s.calls[t := pair]
    && q.chans == s.chans[newId := Chan(k, Open, None, {}, map[], Some(t))]
  }

  lemma PubRoutes(s: State, t: nat, now: int, newId: ChanId)
    requires Conserved(s) && Registered(s) && CanCall(s, t, Lock(now, newId)) && s.calls[t].PubArrives?
    ensures Routed(s, Do(s, Calling(t, Lock(now, newId))), t, newId)
  {
  }

  lemma SubRoutes(s: State, t: nat, now: int, newId: ChanId)
    requires Conserved(s) && Registered(s) && CanCall(s, t, Lock(now, newId)) && s.calls[t].SubArrives?
    ensures Routed(s, Do(s, Calling(t, Lock(now, newId))), t, newId)
  {
  }

  /** The channel's answer to a join: a closed channel closes the connection, a full one
      hands it back, any other takes it; only the limited join can be full. */
  lemma AdmitByCases(s: State, t: nat)
    requires CanCall(s, t, Admit)
    ensures var k, q := s.calls[t], Do(s, Calling(t, Admit));
            var h := s.chans[k.ch];
            && t !in q.calls
            && (h.stage != Open ==> Holds(q, k.conn, Closed) && q.chans[k.ch].subs == h.subs)
            && (h.stage == Open && k.Join? && 0 < s.max <= |h.subs| ==> Holds(q, k.conn, Returned) && q.chans == s.chans)
            && (h.stage == Open && !(k.Join? && 0 < s.max <= |h.subs|) ==>
                  Holds(q, k.conn, Subscribed(k.ch, k.id)) && q.chans[k.ch].subs == h.subs[k.id := k.conn])
  {
  }

  /** Nobody is kept from connecting, and nothing keeps the manager from cleaning up or
      closing: fresh connections can arrive under any key, at any time. */
  lemma AlwaysPossible(s: State, t: nat, k: Key, x: SubId, c: Conn, now: int)
    requires t !in s.calls && c !in s.places && x !in s.owner
    ensures Enabled(s, Calling(t, ArrivePub(k, c))) && Enabled(s, Calling(t, ArriveSub(k, x, c)))
    ensures Enabled(s, SweepPending(now)) && Enabled(s, CloseChannel(k)) && Enabled(s, CloseAll)
    ensures Do(s, Calling(t, ArrivePub(k, c))).calls == s.calls[t := PubArrives(k, c)]
    ensures Do(s, Calling(t, ArriveSub(k, x, c))).calls == s.calls[t := SubArrives(k, x, c)]
  {
  }

  /** A connection handed back can always be closed by the handler it was handed to. */
  lemma ReturnedIsClosed(s: State, c: Conn)
    requires c in s.returned
    ensures Enabled(s, HandlerCloses(c))
    ensures Holds(Do(s, HandlerCloses(c)), c, Closed) && !Holds(Do(s, HandlerCloses(c)), c, Returned)
  {
  }

  /** The manager's Close closes every waiting connection and empties its maps. */
  lemma CloseAllCloses(s: State, c: Conn)
    requires Conserved(s) && c in s.places
    ensures var q := Do(s, CloseAll);
            && q.maps == Maps(map[], map[], map[]) && c in q.places
            && q.places[c] == if s.places[c].PendingPublisher? || s.places[c].PendingSubscriber? then Closed else s.places[c]
  {
    assert Holds(s, c, s.places[c]);
    DropPlaces(s, Maps(map[], map[], map[]), c);
  }

  /** Whatever a call was pointed to exists. */
  ghost predicate Pointed(s: State) {
    forall t :: t in s.calls && !Arriving(s.calls[t]) ==> s.calls[t].ch in s.chans
  }

  lemma PointedCall(s: State, t: nat, a: CallAct)
    requires Pointed(s) && Registered(s) && CanCall(s, t, a)
    ensures Pointed(DoCall(s, t, a))
  {
    var q := DoCall(s, t, a);
    assert forall ch :: ch in s.chans ==> ch in q.chans;
  }

  lemma {:induction false} RunPoints(max: nat, timeout: int, acts: seq<Action>)
    requires Run(Init(max, timeout), acts)
    ensures Pointed(After(Init(max, timeout), acts))
  {
    if acts != [] {
      var rest, a := acts[..|acts| - 1], acts[|acts| - 1];
      RunPoints(max, timeout, rest);
      RunRegisters(max, timeout, rest);
      PointedStep(After(Init(max, timeout), rest), a);
    }
  }

  lemma PointedStep(s: State, a: Action)
    requires Pointed(s) && Registered(s) && Enabled(s, a)
    ensures Pointed(Do(s, a))
  {
    match a
    case Calling(t, k) => PointedCall(s, t, k);
    case Within(ch, w) =>
      WithinTimeout(s, ch, w);
      assert forall d :: d in s.chans ==> d in DoWithin(s, ch, w).chans.Keys;
    case HandlerCloses(c) =>
    case CloseChannel(k) =>
    case SweepPending(now) =>
    case CloseAll =>
  }

  lemma FreshId(ids: set<nat>) returns (n: nat)
    ensures forall i :: i in ids ==> i < n
  {
    n := 0;
    var todo := ids;
    while todo != {}
      invariant todo <= ids && forall i :: i in ids && i !in todo ==> i < n
      decreases todo
    {
      var i :| i in todo;
      todo := todo - {i};
      if i >= n { n := i + 1; }
    }
  }

  /** No connect call is ever stuck: in every run each call in progress has a next
      section that it can perform. */
  lemma CallCanStep(max: nat, timeout: int, acts: seq<Action>, t: nat) returns (a: CallAct)
    requires Run(Init(max, timeout), acts) && t in After(Init(max, timeout), acts).calls
    ensures (a.Lock? || a.Install? || a.Admit?) && Enabled(After(Init(max, timeout), acts), Calling(t, a))
  {
    RunPoints(max, timeout, acts);
    var s := After(Init(max, timeout), acts);
    var k := s.calls[t];
    if Arriving(k) {
      var n := FreshId(s.chans.Keys);
      assert n !in s.chans.Keys;
      a := Lock(0, n);
    } else if k.Attach? || k.PairUp? {
      a := Install;
    } else {
      a := Admit;
    }
  }
}
