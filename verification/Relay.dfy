/** The manager together with its channels, as a transition system.

    A connect call first goes through the manager's mutex and then, with the
    mutex released, through the channel it was pointed to, so calls interleave
    between any two critical sections. A channel is represented by its own
    critical sections in any order that its closed flag allows; module
    `Simulation` proves that the detailed channel never does anything else.

    `places` is a history variable: where each connection handed to the manager
    was last put. That it always agrees with the data structures is proved. */
module Relay {
  import opened Wire
  import opened Registry

  /** closeInternal, critical section by critical section. */
  datatype Stage = Open | Flagged | Detached | Emptied | Gone

  datatype Chan = Chan(
    key: Key,
    stage: Stage,
    publisher: Option<Conn>,
    leaving: set<Conn>,         // taken out of `publisher`, still to be closed
    subs: map<SubId, Conn>,
    creator: Option<nat>)       // the call that will admit without limit, until it has

  datatype Call =
    | PubArrives(key: Key, conn: Conn)
    | SubArrives(key: Key, id: SubId, conn: Conn)
    | Attach(ch: ChanId, conn: Conn)
    | PairUp(ch: ChanId, pub: Conn, id: SubId, conn: Conn)
    | Finish(ch: ChanId, id: SubId, conn: Conn)
    | Join(ch: ChanId, id: SubId, conn: Conn)

  datatype Place =
    | InCall(t: nat)
    | PendingPublisher(key: Key)
    | PendingSubscriber(key: Key)
    | Publishing(ch: ChanId)
    | Leaving(ch: ChanId)
    | Subscribed(ch: ChanId, id: SubId)
    | Returned
    | Closed

  datatype State = State(
    max: nat,
    timeout: int,
    maps: Maps,
    chans: map<ChanId, Chan>,
    calls: map<nat, Call>,
    returned: set<Conn>,
    shut: set<Conn>,
    owner: map<SubId, Conn>,    // the connection each subscriber id arrived with
    admin: set<Key>,            // keys ever closed through CloseChannel or Close
    places: map<Conn, Place>)

  function Init(max: nat, timeout: int): State {
    State(max, timeout, Maps(map[], map[], map[]), map[], map[], {}, {}, map[], {}, map[])
  }

  datatype CallAct =
    | ArrivePub(key: Key, conn: Conn)
    | ArriveSub(key: Key, id: SubId, conn: Conn)
    | Lock(now: int, newId: ChanId)
    | Install
    | Admit

  datatype ChanAct =
    | CloseLeaving(conn: Conn)
    | Disconnect
    | RemoveSub(id: SubId)
    | SetFlag
    | Detach
    | Empty
    | Callback

  datatype Action =
    | Calling(t: nat, call: CallAct)
    | Within(ch: ChanId, act: ChanAct)
    | HandlerCloses(conn: Conn)
    | CloseChannel(key: Key)
    | SweepPending(now: int)
    | CloseAll

  function Move(places: map<Conn, Place>, cs: set<Conn>, p: Place): map<Conn, Place> {
    map c | c in places :: if c in cs then p else places[c]
  }

  predicate CanCall(s: State, t: nat, a: CallAct) {
    match a
    case ArrivePub(_, c) => t !in s.calls && c !in s.places
    case ArriveSub(_, x, c) => t !in s.calls && c !in s.places && x !in s.owner
    case Lock(_, newId) => t in s.calls && (s.calls[t].PubArrives? || s.calls[t].SubArrives?) && newId !in s.chans
    case Install => t in s.calls && (s.calls[t].Attach? || s.calls[t].PairUp?) && s.calls[t].ch in s.chans
    case Admit => t in s.calls && (s.calls[t].Finish? || s.calls[t].Join?) && s.calls[t].ch in s.chans
  }

  predicate CanWithin(s: State, ch: ChanId, a: ChanAct) {
    && ch in s.chans
    && var h := s.chans[ch];
       match a
       case CloseLeaving(c) => c in h.leaving
       case Disconnect => h.publisher.Some?
       case RemoveSub(x) => x in h.subs
       case SetFlag => h.stage == Open
       case Detach => h.stage == Flagged
       case Empty => h.stage == Detached && h.leaving == {}   // closeInternal has waited for the forwarder
       case Callback => h.stage == Emptied
  }

  predicate Enabled(s: State, a: Action) {
    match a
    case Calling(t, c) => CanCall(s, t, c)
    case Within(ch, w) => CanWithin(s, ch, w)
    case HandlerCloses(c) => c in s.returned
    case CloseChannel(_) => true
    case SweepPending(_) => true
    case CloseAll => true
  }

  /** HandlePublisherConnect inside the mutex. */
  function DoLockPub(s: State, t: nat, now: int, newId: ChanId): State
    requires t in s.calls && s.calls[t].PubArrives?
  {
    var k, c := s.calls[t].key, s.calls[t].conn;
    var (m, r) := ConnectPub(s.maps, k, c, now, newId);
    match r
    case PubExisting(ch) => s.(maps := m, calls := s.calls[t := Attach(ch, c)])
    case PubPaired(ch, w) =>
      s.(maps := m, calls := s.calls[t := PairUp(ch, c, w.id, w.conn)],
      chans := s.chans[ch := Chan(k, Open, None, {}, map[], Some(t))],
      places := s.places[w.conn := InCall(t)])
    case PubParked(displaced) =>
      var out := if displaced.Some? then {displaced.value} else {};
      s.(maps := m, calls := s.calls - {t}, shut := s.shut + out,
      places := Move(s.places, out, Closed)[c := PendingPublisher(k)])
  }

  function DoLockSub(s: State, t: nat, now: int, newId: ChanId): State
    requires t in s.calls && s.calls[t].SubArrives?
  {
    var k, x, c := s.calls[t].key, s.calls[t].id, s.calls[t].conn;
    var (m, r) := ConnectSub(s.maps, k, x, c, now, newId);
    match r
    case SubExisting(ch) => s.(maps := m, calls := s.calls[t := Join(ch, x, c)])
    case SubPaired(ch, w) =>
      s.(maps := m, calls := s.calls[t := PairUp(ch, w.conn, x, c)],
      chans := s.chans[ch := Chan(k, Open, None, {}, map[], Some(t))],
      places := s.places[w.conn := InCall(t)])
    case SubParked(displaced) =>
      var out := if displaced.Some? then {displaced.value} else {};
      s.(maps := m, calls := s.calls - {t}, shut := s.shut + out,
      places := Move(s.places, out, Closed)[c := PendingSubscriber(k)])
  }

  /** SetPublisher's section: refuse on a closed channel, otherwise install. */
  function DoInstall(s: State, t: nat): State
    requires t in s.calls && (s.calls[t].Attach? || s.calls[t].PairUp?) && s.calls[t].ch in s.chans
  {
    var k := s.calls[t];
    var c := if k.Attach? then k.conn else k.pub;
    var calls := if k.Attach? then s.calls - {t} else s.calls[t := Finish(k.ch, k.id, k.conn)];
    var h := s.chans[k.ch];
    if h.stage != Open then
      s.(calls := calls, shut := s.shut + {c}, places := s.places[c := Closed])
    else
      var out := if h.publisher.Some? then {h.publisher.value} else {};
      s.(calls := calls,
      chans := s.chans[k.ch := h.(publisher := Some(c), leaving := h.leaving + out)],
      places := Move(s.places, out, Leaving(k.ch))[c := Publishing(k.ch)])
  }

  /** addSubscriberInternal's section: closed, full, or inserted. */
  function DoAdmit(s: State, t: nat): State
    requires t in s.calls && (s.calls[t].Finish? || s.calls[t].Join?) && s.calls[t].ch in s.chans
  {
    var k := s.calls[t];
    var calls := s.calls - {t};
    var h := s.chans[k.ch].(creator := if k.Finish? then None else s.chans[k.ch].creator);
    if h.stage != Open then
      s.(calls := calls, chans := s.chans[k.ch := h], shut := s.shut + {k.conn}, places := s.places[k.conn := Closed])
    else if k.Join? && s.max > 0 && |h.subs| >= s.max then
      s.(calls := calls, returned := s.returned + {k.conn}, places := s.places[k.conn := Returned])
    else
      s.(calls := calls, chans := s.chans[k.ch := h.(subs := h.subs[k.id := k.conn])],
      places := s.places[k.conn := Subscribed(k.ch, k.id)])
  }

  function DoCall(s: State, t: nat, a: CallAct): State
    requires CanCall(s, t, a)
  {
    match a
    case ArrivePub(k, c) => s.(calls := s.calls[t := PubArrives(k, c)], places := s.places[c := InCall(t)])
    case ArriveSub(k, x, c) =>
      s.(calls := s.calls[t := SubArrives(k, x, c)], owner := s.owner[x := c], places := s.places[c := InCall(t)])
    case Lock(now, newId) =>
      if s.calls[t].PubArrives? then DoLockPub(s, t, now, newId) else DoLockSub(s, t, now, newId)
    case Install => DoInstall(s, t)
    case Admit => DoAdmit(s, t)
  }

  function DoDisconnect(s: State, ch: ChanId): State
    requires ch in s.chans && s.chans[ch].publisher.Some?
  {
    var h := s.chans[ch];
    s.(chans := s.chans[ch := h.(publisher := None, leaving := h.leaving + {h.publisher.value})],
       places := s.places[h.publisher.value := Leaving(ch)])
  }

  function DoDetach(s: State, ch: ChanId): State
    requires ch in s.chans
  {
    var h := s.chans[ch];
    var out := if h.publisher.Some? then {h.publisher.value} else {};
    s.(chans := s.chans[ch := h.(stage := Detached, publisher := None)],
       shut := s.shut + out, places := Move(s.places, out, Closed))
  }

  function DoWithin(s: State, ch: ChanId, a: ChanAct): State
    requires CanWithin(s, ch, a)
  {
    var h := s.chans[ch];
    match a
    case CloseLeaving(c) =>
      s.(chans := s.chans[ch := h.(leaving := h.leaving - {c})], shut := s.shut + {c}, places := s.places[c := Closed])
    case Disconnect => DoDisconnect(s, ch)
    case RemoveSub(x) =>
      s.(chans := s.chans[ch := h.(subs := h.subs - {x})], shut := s.shut + {h.subs[x]}, places := s.places[h.subs[x] := Closed])
    case SetFlag => s.(chans := s.chans[ch := h.(stage := Flagged)])
    case Detach => DoDetach(s, ch)
    case Empty =>
      s.(chans := s.chans[ch := h.(stage := Emptied, subs := map[])],
      shut := s.shut + h.subs.Values, places := Move(s.places, h.subs.Values, Closed))
    case Callback =>
      s.(chans := s.chans[ch := h.(stage := Gone)], maps := s.maps.(channels := s.maps.channels - {h.key}))
  }

  function WaitingPubs(m: Maps): set<Conn> {
    set k | k in m.pubs :: m.pubs[k].conn
  }

  function WaitingSubs(m: Maps): set<Conn> {
    set k | k in m.subs :: m.subs[k].conn
  }

  /** Closes whatever waits in the maps and no longer waits in `m`. */
  function Drop(s: State, m: Maps): State {
    var out := (WaitingPubs(s.maps) - WaitingPubs(m)) + (WaitingSubs(s.maps) - WaitingSubs(m));
    s.(maps := m, shut := s.shut + out, places := Move(s.places, out, Closed))
  }

  function Do(s: State, a: Action): State
    requires Enabled(s, a)
  {
    match a
    case Calling(t, c) => DoCall(s, t, c)
    case Within(ch, w) => DoWithin(s, ch, w)
    case HandlerCloses(c) => s.(returned := s.returned - {c}, shut := s.shut + {c}, places := s.places[c := Closed])
    case CloseChannel(k) => s.(maps := s.maps.(channels := s.maps.channels - {k}), admin := s.admin + {k})
    case SweepPending(now) => Drop(s, Sweep(s.maps, now, s.timeout))
    case CloseAll => Drop(s, Maps(map[], map[], map[])).(admin := s.admin + s.maps.channels.Keys)
  }

  ghost predicate Run(s: State, acts: seq<Action>)
    decreases |acts|, 0
  {
    acts == [] ||
    (Run(s, acts[..|acts| - 1]) && Enabled(After(s, acts[..|acts| - 1]), acts[|acts| - 1]))
  }

  ghost function After(s: State, acts: seq<Action>): State
    requires Run(s, acts)
    decreases |acts|, 1
  {
    if acts == [] then s else Do(After(s, acts[..|acts| - 1]), acts[|acts| - 1])
  }

  lemma RunExtend(s: State, acts: seq<Action>, a: Action)
    requires Run(s, acts) && Enabled(After(s, acts), a)
    ensures Run(s, acts + [a]) && After(s, acts + [a]) == Do(After(s, acts), a)
  {
    assert (acts + [a])[..|acts|] == acts;
  }

  // ---------------------------------------------------------------- conservation

  function Carries(k: Call): set<Conn> {
    if k.PairUp? then {k.pub, k.conn} else {k.conn}
  }

  /** The data structures themselves hold `c` at `p`. */
  predicate Holds(s: State, c: Conn, p: Place) {
    match p
    case InCall(t) => t in s.calls && c in Carries(s.calls[t])
    case PendingPublisher(k) => k in s.maps.pubs && s.maps.pubs[k].conn == c
    case PendingSubscriber(k) => k in s.maps.subs && s.maps.subs[k].conn == c
    case Publishing(ch) => ch in s.chans && s.chans[ch].publisher == Some(c)
    case Leaving(ch) => ch in s.chans && c in s.chans[ch].leaving
    case Subscribed(ch, x) => ch in s.chans && x in s.chans[ch].subs && s.chans[ch].subs[x] == c
    case Returned => c in s.returned
    case Closed => c in s.shut
  }

  ghost predicate Placed(s: State) {
    forall c, p :: Holds(s, c, p) <==> c in s.places && s.places[c] == p
  }

  /** The two connections of a pairing call are different ones. */
  ghost predicate PairsDiffer(s: State) {
    forall t :: t in s.calls && s.calls[t].PairUp? ==> s.calls[t].pub != s.calls[t].conn
  }

  /** A subscriber id stays with the connection it arrived with. */
  ghost predicate Named(s: State) {
    && (forall t :: t in s.calls && !s.calls[t].PubArrives? && !s.calls[t].Attach? ==>
                      s.calls[t].id in s.owner && s.owner[s.calls[t].id] == s.calls[t].conn)
    && (forall k :: k in s.maps.subs ==>
                      s.maps.subs[k].id in s.owner && s.owner[s.maps.subs[k].id] == s.maps.subs[k].conn)
    && (forall ch, x :: ch in s.chans && x in s.chans[ch].subs ==>
                          x in s.owner && s.owner[x] == s.chans[ch].subs[x])
  }

  ghost predicate Conserved(s: State) {
    Placed(s) && PairsDiffer(s)
  }

  lemma ArriveConserves(s: State, t: nat, a: CallAct)
    requires Conserved(s) && CanCall(s, t, a) && (a.ArrivePub? || a.ArriveSub?)
    ensures Conserved(DoCall(s, t, a))
  {
    var q := DoCall(s, t, a);
    forall c, p ensures Holds(q, c, p) <==> c in q.places && q.places[c] == p {
      assert Holds(s, c, p) <==> c in s.places && s.places[c] == p;
    }
  }

  lemma LockPubConserves(s: State, t: nat, now: int, newId: ChanId)
    requires Conserved(s) && t in s.calls && s.calls[t].PubArrives? && newId !in s.chans
    ensures Conserved(DoLockPub(s, t, now, newId))
  {
    var q, k, c0 := DoLockPub(s, t, now, newId), s.calls[t].key, s.calls[t].conn;
    assert Holds(s, c0, InCall(t));
    if k in s.maps.subs { assert Holds(s, s.maps.subs[k].conn, PendingSubscriber(k)); }
    if k in s.maps.pubs { assert Holds(s, s.maps.pubs[k].conn, PendingPublisher(k)); }
    forall c, p ensures Holds(q, c, p) <==> c in q.places && q.places[c] == p {
      assert Holds(s, c, p) <==> c in s.places && s.places[c] == p;
    }
  }

  lemma LockSubConserves(s: State, t: nat, now: int, newId: ChanId)
    requires Conserved(s) && t in s.calls && s.calls[t].SubArrives? && newId !in s.chans
    ensures Conserved(DoLockSub(s, t, now, newId))
  {
    var q, k, c0 := DoLockSub(s, t, now, newId), s.calls[t].key, s.calls[t].conn;
    assert Holds(s, c0, InCall(t));
    if k in s.maps.subs { assert Holds(s, s.maps.subs[k].conn, PendingSubscriber(k)); }
    if k in s.maps.pubs { assert Holds(s, s.maps.pubs[k].conn, PendingPublisher(k)); }
    forall c, p ensures Holds(q, c, p) <==> c in q.places && q.places[c] == p {
      assert Holds(s, c, p) <==> c in s.places && s.places[c] == p;
    }
  }

  lemma InstallConserves(s: State, t: nat)
    requires Conserved(s) && CanCall(s, t, Install)
    ensures Conserved(DoInstall(s, t))
  {
    var q, k := DoInstall(s, t), s.calls[t];
    var c0 := if k.Attach? then k.conn else k.pub;
    assert Holds(s, c0, InCall(t)) && Holds(s, k.conn, InCall(t));
    var h := s.chans[k.ch];
    if h.publisher.Some? { assert Holds(s, h.publisher.value, Publishing(k.ch)); }
    forall c, p ensures Holds(q, c, p) <==> c in q.places && q.places[c] == p {
      assert Holds(s, c, p) <==> c in s.places && s.places[c] == p;
    }
  }

  lemma AdmitConserves(s: State, t: nat)
    requires Conserved(s) && Named(s) && CanCall(s, t, Admit)
    ensures Conserved(DoAdmit(s, t))
  {
    var q, k := DoAdmit(s, t), s.calls[t];
    assert Holds(s, k.conn, InCall(t));
    if k.id in s.chans[k.ch].subs {
      assert Holds(s, k.conn, Subscribed(k.ch, k.id));
      assert false;
    }
    forall c, p ensures Holds(q, c, p) <==> c in q.places && q.places[c] == p {
      assert Holds(s, c, p) <==> c in s.places && s.places[c] == p;
    }
  }

  lemma WithinConserves(s: State, ch: ChanId, a: ChanAct)
    requires Conserved(s) && CanWithin(s, ch, a) && !a.Empty?
    ensures Conserved(DoWithin(s, ch, a))
  {
    var q, h := DoWithin(s, ch, a), s.chans[ch];
    if h.publisher.Some? { assert Holds(s, h.publisher.value, Publishing(ch)); }
    if a.CloseLeaving? { assert Holds(s, a.conn, Leaving(ch)); }
    if a.RemoveSub? { assert Holds(s, h.subs[a.id], Subscribed(ch, a.id)); }
    forall c, p ensures Holds(q, c, p) <==> c in q.places && q.places[c] == p {
      assert Holds(s, c, p) <==> c in s.places && s.places[c] == p;
    }
  }

  lemma EmptyConserves(s: State, ch: ChanId)
    requires Conserved(s) && CanWithin(s, ch, Empty)
    ensures Conserved(DoWithin(s, ch, Empty))
  {
    var q, h := DoWithin(s, ch, Empty), s.chans[ch];
    forall c, p ensures Holds(q, c, p) <==> c in q.places && q.places[c] == p {
      assert Holds(s, c, p) <==> c in s.places && s.places[c] == p;
      if c in h.subs.Values {
        var x :| x in h.subs && h.subs[x] == c;
        assert Holds(s, c, Subscribed(ch, x));
      }
    }
  }

  lemma HandlerConserves(s: State, c0: Conn)
    requires Conserved(s) && c0 in s.returned
    ensures Conserved(Do(s, HandlerCloses(c0)))
  {
    var q := Do(s, HandlerCloses(c0));
    assert Holds(s, c0, Returned);
    forall c, p ensures Holds(q, c, p) <==> c in q.places && q.places[c] == p {
      assert Holds(s, c, p) <==> c in s.places && s.places[c] == p;
    }
  }

  /** Dropping waiters closes exactly those that are no longer in the maps. */
  lemma DropConserves(s: State, m: Maps)
    requires Conserved(s)
    requires m.pubs.Keys <= s.maps.pubs.Keys && forall k :: k in m.pubs ==> m.pubs[k] == s.maps.pubs[k]
    requires m.subs.Keys <= s.maps.subs.Keys && forall k :: k in m.subs ==> m.subs[k] == s.maps.subs[k]
    ensures Conserved(Drop(s, m))
  {
    var q := Drop(s, m);
    forall c, p ensures Holds(q, c, p) <==> c in q.places && q.places[c] == p {
      DropPlaces(s, m, c);
      assert Holds(s, c, p) <==> c in s.places && s.places[c] == p;
    }
  }

  lemma DropPlaces(s: State, m: Maps, c: Conn)
    requires Conserved(s)
    requires m.pubs.Keys <= s.maps.pubs.Keys && forall k :: k in m.pubs ==> m.pubs[k] == s.maps.pubs[k]
    requires m.subs.Keys <= s.maps.subs.Keys && forall k :: k in m.subs ==> m.subs[k] == s.maps.subs[k]
    ensures c in WaitingPubs(s.maps) ==>
              c in s.places && s.places[c].PendingPublisher? && (c in WaitingPubs(m) <==> s.places[c].key in m.pubs)
    ensures c in WaitingSubs(s.maps) ==>
              c in s.places && s.places[c].PendingSubscriber? && (c in WaitingSubs(m) <==> s.places[c].key in m.subs)
    ensures c in s.places && s.places[c].PendingPublisher? ==> c in WaitingPubs(s.maps)
    ensures c in s.places && s.places[c].PendingSubscriber? ==> c in WaitingSubs(s.maps)
  {
    if c in s.places {
      assert Holds(s, c, s.places[c]);
    }
    if c in WaitingPubs(s.maps) {
      var k :| k in s.maps.pubs && s.maps.pubs[k].conn == c;
      assert Holds(s, c, PendingPublisher(k));
      if c in WaitingPubs(m) {
        var j :| j in m.pubs && m.pubs[j].conn == c;
        assert Holds(s, c, PendingPublisher(j));
      }
    }
    if c in WaitingSubs(s.maps) {
      var k :| k in s.maps.subs && s.maps.subs[k].conn == c;
      assert Holds(s, c, PendingSubscriber(k));
      if c in WaitingSubs(m) {
        var j :| j in m.subs && m.subs[j].conn == c;
        assert Holds(s, c, PendingSubscriber(j));
      }
    }
  }

  /** Forgetting a channel or recording a key moves no connection. */
  lemma ForgetConserves(s: State, m: Maps, admin: set<Key>)
    requires Conserved(s) && m == s.maps.(channels := m.channels)
    ensures Conserved(s.(maps := m, admin := admin))
  {
    var q := s.(maps := m, admin := admin);
    forall c, p ensures Holds(q, c, p) <==> c in q.places && q.places[c] == p {
      assert Holds(s, c, p) <==> c in s.places && s.places[c] == p;
    }
  }

  lemma CallConserves(s: State, t: nat, a: CallAct)
    requires Conserved(s) && Named(s) && CanCall(s, t, a)
    ensures Conserved(DoCall(s, t, a))
  {
    match a
    case ArrivePub(_, _) => ArriveConserves(s, t, a);
    case ArriveSub(_, _, _) => ArriveConserves(s, t, a);
    case Lock(now, newId) =>
      if s.calls[t].PubArrives? { LockPubConserves(s, t, now, newId); } else { LockSubConserves(s, t, now, newId); }
    case Install => InstallConserves(s, t);
    case Admit => AdmitConserves(s, t);
  }

  lemma StepConserves(s: State, a: Action)
    requires Conserved(s) && Named(s) && Enabled(s, a)
    ensures Conserved(Do(s, a))
  {
    match a
    case Calling(t, c) => CallConserves(s, t, c);
    case Within(ch, w) => if w.Empty? { EmptyConserves(s, ch); } else { WithinConserves(s, ch, w); }
    case HandlerCloses(c) => HandlerConserves(s, c);
    case CloseChannel(k) => ForgetConserves(s, s.maps.(channels := s.maps.channels - {k}), s.admin + {k});
    case SweepPending(now) => DropConserves(s, Sweep(s.maps, now, s.timeout));
    case CloseAll =>
      DropConserves(s, Maps(map[], map[], map[]));
      var q := Drop(s, Maps(map[], map[], map[]));
      ForgetConserves(q, q.maps, s.admin + s.maps.channels.Keys);
  }

  lemma LockPubNames(s: State, t: nat, now: int, newId: ChanId)
    requires Named(s) && t in s.calls && s.calls[t].PubArrives? && newId !in s.chans
    ensures Named(DoLockPub(s, t, now, newId))
  {
  }

  lemma LockSubNames(s: State, t: nat, now: int, newId: ChanId)
    requires Named(s) && t in s.calls && s.calls[t].SubArrives? && newId !in s.chans
    ensures Named(DoLockSub(s, t, now, newId))
  {
  }

  lemma InstallNames(s: State, t: nat)
    requires Named(s) && CanCall(s, t, Install)
    ensures Named(DoInstall(s, t))
  {
  }

  lemma AdmitNames(s: State, t: nat)
    requires Named(s) && CanCall(s, t, Admit)
    ensures Named(DoAdmit(s, t))
  {
    var k, q := s.calls[t], DoAdmit(s, t);
    assert q.owner == s.owner && q.maps == s.maps && q.calls == s.calls - {t};
    assert forall x :: x in q.chans[k.ch].subs && x != k.id ==> x in s.chans[k.ch].subs && s.chans[k.ch].subs[x] == q.chans[k.ch].subs[x];
  }

  lemma ArriveNames(s: State, t: nat, a: CallAct)
    requires Named(s) && CanCall(s, t, a) && (a.ArrivePub? || a.ArriveSub?)
    ensures Named(DoCall(s, t, a))
  {
  }

  lemma CallNames(s: State, t: nat, a: CallAct)
    requires Named(s) && CanCall(s, t, a)
    ensures Named(DoCall(s, t, a))
  {
    if a.ArrivePub? || a.ArriveSub? { ArriveNames(s, t, a); }
    else if a.Install? { InstallNames(s, t); }
    else if a.Admit? { AdmitNames(s, t); }
    else if s.calls[t].PubArrives? { LockPubNames(s, t, a.now, a.newId); }
    else { LockSubNames(s, t, a.now, a.newId); }
  }

  lemma WithinNames(s: State, ch: ChanId, a: ChanAct)
    requires Named(s) && CanWithin(s, ch, a)
    ensures Named(DoWithin(s, ch, a))
  {
    var q := DoWithin(s, ch, a);
    assert q.chans[ch].subs.Keys <= s.chans[ch].subs.Keys;
    assert forall x :: x in q.chans[ch].subs ==> q.chans[ch].subs[x] == s.chans[ch].subs[x];
  }

  lemma StepNames(s: State, a: Action)
    requires Named(s) && Enabled(s, a)
    ensures Named(Do(s, a))
  {
    if a.Calling? { CallNames(s, a.t, a.call); }
    else if a.Within? { WithinNames(s, a.ch, a.act); }
  }

  lemma {:induction false} RunConserves(max: nat, timeout: int, acts: seq<Action>)
    requires Run(Init(max, timeout), acts)
    ensures Conserved(After(Init(max, timeout), acts)) && Named(After(Init(max, timeout), acts))
  {
    if acts != [] {
      RunConserves(max, timeout, acts[..|acts| - 1]);
      StepConserves(After(Init(max, timeout), acts[..|acts| - 1]), acts[|acts| - 1]);
      StepNames(After(Init(max, timeout), acts[..|acts| - 1]), acts[|acts| - 1]);
    }
  }

  predicate Arrives(a: Action, c: Conn) {
    a.Calling? && ((a.call.ArrivePub? && a.call.conn == c) || (a.call.ArriveSub? && a.call.conn == c))
  }

  lemma {:induction false} HandedIsPlaced(max: nat, timeout: int, acts: seq<Action>, c: Conn)
    requires Run(Init(max, timeout), acts)
    ensures c in After(Init(max, timeout), acts).places <==> exists i :: 0 <= i < |acts| && Arrives(acts[i], c)
  {
    if acts != [] {
      var rest, last := acts[..|acts| - 1], acts[|acts| - 1];
      HandedIsPlaced(max, timeout, rest, c);
      RunConserves(max, timeout, rest);
      PlacesGrow(After(Init(max, timeout), rest), last, c);
      if i :| 0 <= i < |rest| && Arrives(rest[i], c) { assert Arrives(acts[i], c); }
      if i :| 0 <= i < |acts| && Arrives(acts[i], c) { assert i < |rest| ==> Arrives(rest[i], c); }
    }
  }

  lemma PlacesGrow(s: State, a: Action, c: Conn)
    requires Conserved(s) && Enabled(s, a)
    ensures c in Do(s, a).places <==> c in s.places || Arrives(a, c)
  {
    var q := Do(s, a);
    match a
    case Calling(t, k) =>
      if t in s.calls {
        assert Holds(s, s.calls[t].conn, InCall(t));
        if s.calls[t].PairUp? { assert Holds(s, s.calls[t].pub, InCall(t)); }
        if s.calls[t].PubArrives? && s.calls[t].key in s.maps.subs {
          assert Holds(s, s.maps.subs[s.calls[t].key].conn, PendingSubscriber(s.calls[t].key));
        }
        if s.calls[t].SubArrives? && s.calls[t].key in s.maps.pubs {
          assert Holds(s, s.maps.pubs[s.calls[t].key].conn, PendingPublisher(s.calls[t].key));
        }
      }
    case Within(ch, w) =>
      var h := s.chans[ch];
      if h.publisher.Some? { assert Holds(s, h.publisher.value, Publishing(ch)); }
      if w.CloseLeaving? { assert Holds(s, w.conn, Leaving(ch)); }
      if w.RemoveSub? { assert Holds(s, h.subs[w.id], Subscribed(ch, w.id)); }
    case HandlerCloses(c0) => assert Holds(s, c0, Returned);
    case CloseChannel(k) =>
    case SweepPending(now) =>
    case CloseAll =>
  }

  /** What closeInternal has let go of stays let go of: past its sections a channel
      has no publisher, nothing still to be closed, and no subscribers. */
  predicate Hollow(h: Chan) {
    && (h.stage == Detached || h.stage == Emptied || h.stage == Gone ==> h.publisher.None?)
    && (h.stage == Emptied || h.stage == Gone ==> h.leaving == {} && h.subs == map[])
  }

  ghost predicate AllHollow(chans: map<ChanId, Chan>) {
    forall ch :: ch in chans ==> Hollow(chans[ch])
  }

  lemma CallHollows(s: State, t: nat, a: CallAct)
    requires AllHollow(s.chans) && CanCall(s, t, a)
    ensures AllHollow(DoCall(s, t, a).chans)
  {
    var q := DoCall(s, t, a).chans;
    if a.Install? || a.Admit? {
      assert Hollow(s.chans[s.calls[t].ch]);
      assert Hollow(q[s.calls[t].ch]);
    }
  }

  lemma WithinHollows(s: State, ch: ChanId, a: ChanAct)
    requires AllHollow(s.chans) && CanWithin(s, ch, a)
    ensures AllHollow(DoWithin(s, ch, a).chans)
  {
    assert Hollow(s.chans[ch]);
    var q := DoWithin(s, ch, a).chans;
    assert Hollow(q[ch]);
  }

  lemma {:induction false} RunHollows(max: nat, timeout: int, acts: seq<Action>)
    requires Run(Init(max, timeout), acts)
    ensures AllHollow(After(Init(max, timeout), acts).chans)
  {
    if acts != [] {
      var s, a := After(Init(max, timeout), acts[..|acts| - 1]), acts[|acts| - 1];
      RunHollows(max, timeout, acts[..|acts| - 1]);
      if a.Calling? { CallHollows(s, a.t, a.call); }
      else if a.Within? { WithinHollows(s, a.ch, a.act); }
    }
  }

  /** A place in which an open connection still has somebody to close it: a call in
      progress, a waiting list, a caller, or a channel that has yet to drop it. */
  predicate Attended(s: State, p: Place) {
    match p
    case Publishing(ch) => ch in s.chans && s.chans[ch].stage in {Open, Flagged}
    case Leaving(ch) => ch in s.chans && s.chans[ch].stage in {Open, Flagged, Detached}
    case Subscribed(ch, _) => ch in s.chans && s.chans[ch].stage in {Open, Flagged, Detached}
    case _ => true
  }

  /** Connection conservation: in every run, each connection ever handed to the
      manager is in exactly one place, and no other connection is in any. None is
      dropped while open: no channel that is past closing a connection holds one. */
  lemma ConnectionConservation(max: nat, timeout: int, acts: seq<Action>, c: Conn)
    requires Run(Init(max, timeout), acts)
    ensures var s := After(Init(max, timeout), acts);
            && ((exists i :: 0 <= i < |acts| && Arrives(acts[i], c)) <==> (exists p :: Holds(s, c, p)))
            && (forall p, q :: Holds(s, c, p) && Holds(s, c, q) ==> p == q)
            && (forall p :: Holds(s, c, p) ==> Attended(s, p))
  {
    RunConserves(max, timeout, acts);
    HandedIsPlaced(max, timeout, acts, c);
    RunHollows(max, timeout, acts);
    var s := After(Init(max, timeout), acts);
    if c in s.places { assert Holds(s, c, s.places[c]); }
    forall p | Holds(s, c, p) ensures Attended(s, p) {
      HeldIsAttended(s, c, p);
    }
  }

  lemma HeldIsAttended(s: State, c: Conn, p: Place)
    requires AllHollow(s.chans) && Holds(s, c, p)
    ensures Attended(s, p)
  {
    if p.Publishing? || p.Leaving? || p.Subscribed? {
      assert Hollow(s.chans[p.ch]);
    }
  }

  // -------------------------------------------------------------------- registry

  /** Keys are in one map at most; a registered channel is registered under its
      own key; and a channel whose callback has not run is registered, unless its
      key has been closed administratively. */
  ghost predicate RegOk(m: Maps, chans: map<ChanId, Chan>, admin: set<Key>) {
    && Disjoint(m)
    && (forall k :: k in m.channels ==> m.channels[k] in chans && chans[m.channels[k]].key == k)
    && (forall ch :: ch in chans && chans[ch].stage != Gone && chans[ch].key !in admin ==>
                       chans[ch].key in m.channels && m.channels[chans[ch].key] == ch)
  }

  ghost predicate Registered(s: State) {
    RegOk(s.maps, s.chans, s.admin)
  }

  /** Changes inside a channel that is not finishing do not concern the registry. */
  lemma RegFrame(m: Maps, chans: map<ChanId, Chan>, ch: ChanId, h: Chan, admin: set<Key>)
    requires RegOk(m, chans, admin) && ch in chans
    requires h.key == chans[ch].key && (h.stage == Gone <==> chans[ch].stage == Gone)
    ensures RegOk(m, chans[ch := h], admin)
  {
  }

  lemma CallbackRegisters(m: Maps, chans: map<ChanId, Chan>, ch: ChanId, admin: set<Key>)
    requires RegOk(m, chans, admin) && ch in chans && chans[ch].stage == Emptied
    ensures RegOk(m.(channels := m.channels - {chans[ch].key}), chans[ch := chans[ch].(stage := Gone)], admin)
  {
  }

  /** A new channel is created only for a key that names none. */
  lemma CreateRegisters(m: Maps, n: Maps, chans: map<ChanId, Chan>, ch: ChanId, h: Chan, admin: set<Key>)
    requires RegOk(m, chans, admin) && ch !in chans && h.key !in m.channels
    requires n.channels == m.channels[h.key := ch]
    requires Disjoint(n)
    ensures RegOk(n, chans[ch := h], admin)
  {
  }

  lemma LockRegisters(s: State, t: nat, now: int, newId: ChanId)
    requires Registered(s) && CanCall(s, t, Lock(now, newId))
    ensures Registered(DoCall(s, t, Lock(now, newId)))
  {
    var k, q := s.calls[t].key, DoCall(s, t, Lock(now, newId));
    if k !in s.maps.channels && (if s.calls[t].PubArrives? then k in s.maps.subs else k in s.maps.pubs) {
      CreateRegisters(s.maps, q.maps, s.chans, newId, Chan(k, Open, None, {}, map[], Some(t)), s.admin);
    }
  }

  lemma StepRegisters(s: State, a: Action)
    requires Registered(s) && Enabled(s, a)
    ensures Registered(Do(s, a))
  {
    match a
    case Calling(t, c) =>
      if c.Lock? { LockRegisters(s, t, c.now, c.newId); }
      else if c.Install? && s.chans[s.calls[t].ch].stage == Open {
        RegFrame(s.maps, s.chans, s.calls[t].ch, DoInstall(s, t).chans[s.calls[t].ch], s.admin);
      } else if c.Admit? {
        AdmitRegisters(s, t);
      }
    case Within(ch, w) =>
      if w.Callback? { CallbackRegisters(s.maps, s.chans, ch, s.admin); }
      else { RegFrame(s.maps, s.chans, ch, DoWithin(s, ch, w).chans[ch], s.admin); }
    case HandlerCloses(c) =>
    case CloseChannel(k) =>
    case SweepPending(now) =>
    case CloseAll =>
  }

  lemma AdmitRegisters(s: State, t: nat)
    requires Registered(s) && CanCall(s, t, Admit)
    ensures Registered(DoAdmit(s, t))
  {
    var q, ch := DoAdmit(s, t), s.calls[t].ch;
    RegFrame(s.maps, s.chans, ch, q.chans[ch], s.admin);
    assert q.chans == s.chans[ch := q.chans[ch]];
  }

  lemma {:induction false} RunRegisters(max: nat, timeout: int, acts: seq<Action>)
    requires Run(Init(max, timeout), acts)
    ensures Registered(After(Init(max, timeout), acts))
  {
    if acts != [] {
      RunRegisters(max, timeout, acts[..|acts| - 1]);
      StepRegisters(After(Init(max, timeout), acts[..|acts| - 1]), acts[|acts| - 1]);
    }
  }

  /** Registry consistency, in every run. For a pod key that was never closed
      through CloseChannel or the manager's Close, every channel that has not
      finished closing is the one registered under its key, so its close callback
      removes that channel's entry and no other. */
  lemma RegistryConsistency(max: nat, timeout: int, acts: seq<Action>, ch: ChanId)
    requires Run(Init(max, timeout), acts)
    ensures var s := After(Init(max, timeout), acts);
            Disjoint(s.maps) && (ch in s.chans && s.chans[ch].key !in s.admin ==> OwnEntry(s, ch))
  {
    RunRegisters(max, timeout, acts);
  }

  ghost predicate OwnEntry(s: State, ch: ChanId)
    requires ch in s.chans
  {
    var k, m := s.chans[ch].key, s.maps.channels;
    s.chans[ch].stage != Gone ==>
      && k in m && m[k] == ch
      && (forall j :: j in m && m[j] == ch ==> j == k)
  }

  /** The callback of such a channel takes out its own entry and leaves every
      other channel registered as it was. */
  lemma CallbackRemovesOnlyItself(max: nat, timeout: int, acts: seq<Action>, ch: ChanId)
    requires Run(Init(max, timeout), acts)
    requires CanWithin(After(Init(max, timeout), acts), ch, Callback)
    requires var s := After(Init(max, timeout), acts); s.chans[ch].key !in s.admin
    ensures var s := After(Init(max, timeout), acts);
            var n := Do(s, Within(ch, Callback)).maps.channels;
            forall k :: k in s.maps.channels ==> (k in n <==> s.maps.channels[k] != ch)
  {
    RunRegisters(max, timeout, acts);
  }

  /** Actions after which nothing is said: the key is closed administratively, or
      the channel's own callback runs. */
  predicate Unregisters(a: Action, ch: ChanId, k: Key) {
    a == CloseChannel(k) || a == CloseAll || a == Within(ch, Callback)
  }

  predicate Undisturbed(more: seq<Action>, ch: ChanId, k: Key) {
    forall i :: 0 <= i < |more| ==> !Unregisters(more[i], ch, k)
  }

  predicate IsRegistered(s: State, ch: ChanId, k: Key) {
    k in s.maps.channels && s.maps.channels[k] == ch
  }

  /** Whatever happens next, the channel stays registered until its own callback. */
  ghost predicate StaysRegistered(s: State, ch: ChanId, k: Key) {
    forall more :: Run(s, more) && Undisturbed(more, ch, k) ==> IsRegistered(After(s, more), ch, k)
  }

  /** No other channel of the key is still on its way to its callback. */
  ghost predicate Sole(s: State, ch: ChanId, k: Key) {
    forall d :: d in s.chans && d != ch && s.chans[d].key == k ==> s.chans[d].stage == Gone
  }

  /** A call creates a channel only for a key that names none, and changes neither
      key nor stage of any other. */
  lemma OldChannels(s: State, t: nat, a: CallAct, d: ChanId)
    requires CanCall(s, t, a) && d in DoCall(s, t, a).chans
    ensures var h := DoCall(s, t, a).chans[d];
            if d in s.chans then h.key == s.chans[d].key && h.stage == s.chans[d].stage else h.key !in s.maps.channels
  {
  }

  lemma SoleCall(s: State, t: nat, a: CallAct, ch: ChanId, k: Key)
    requires IsRegistered(s, ch, k) && Sole(s, ch, k) && CanCall(s, t, a)
    ensures var q := DoCall(s, t, a); IsRegistered(q, ch, k) && Sole(q, ch, k)
  {
    var q := DoCall(s, t, a);
    forall d | d in q.chans && d != ch && q.chans[d].key == k ensures q.chans[d].stage == Gone {
      OldChannels(s, t, a, d);
    }
  }

  lemma SoleWithin(s: State, d: ChanId, w: ChanAct, ch: ChanId, k: Key)
    requires IsRegistered(s, ch, k) && Sole(s, ch, k) && CanWithin(s, d, w) && !(d == ch && w == Callback)
    ensures var q := DoWithin(s, d, w); IsRegistered(q, ch, k) && Sole(q, ch, k)
  {
    var h, q := s.chans[d], DoWithin(s, d, w);
    assert d != ch && h.key == k ==> h.stage == Gone;
    assert q.chans == s.chans[d := q.chans[d]] && q.chans[d].key == h.key && (h.stage == Gone ==> q.chans[d].stage == Gone);
  }

  lemma SoleStep(s: State, a: Action, ch: ChanId, k: Key)
    requires IsRegistered(s, ch, k) && Sole(s, ch, k) && Enabled(s, a) && !Unregisters(a, ch, k)
    ensures var q := Do(s, a); IsRegistered(q, ch, k) && Sole(q, ch, k)
  {
    match a
    case Calling(t, c) => SoleCall(s, t, c, ch, k);
    case Within(d, w) => SoleWithin(s, d, w, ch, k);
    case HandlerCloses(c) =>
    case CloseChannel(j) =>
    case SweepPending(now) =>
    case CloseAll =>
  }

  lemma {:induction false} SoleStays(s: State, more: seq<Action>, ch: ChanId, k: Key)
    requires IsRegistered(s, ch, k) && Sole(s, ch, k) && Run(s, more) && Undisturbed(more, ch, k)
    ensures var q := After(s, more); IsRegistered(q, ch, k) && Sole(q, ch, k)
  {
    if more != [] {
      SoleStays(s, more[..|more| - 1], ch, k);
      SoleStep(After(s, more[..|more| - 1]), more[|more| - 1], ch, k);
    }
  }

  /** A channel on its way to its callback can always get there by itself. */
  lemma Finishes(s: State, d: ChanId, ch: ChanId, k: Key) returns (more: seq<Action>)
    requires d in s.chans && s.chans[d].stage != Gone && s.chans[d].key == k && d != ch
    ensures Run(s, more) && Undisturbed(more, ch, k) && k !in After(s, more).maps.channels
  {
    more := [];
    while After(s, more).chans[d].stage != Emptied
      invariant Run(s, more) && Undisturbed(more, ch, k)
      invariant d in After(s, more).chans && After(s, more).chans[d].stage != Gone && After(s, more).chans[d].key == k
      decreases Ahead(After(s, more).chans[d].stage), |After(s, more).chans[d].leaving|
    {
      var a := Onward(After(s, more), d);
      RunExtend(s, more, a);
      more := more + [a];
    }
    RunExtend(s, more, Within(d, Callback));
    more := more + [Within(d, Callback)];
  }

  function Ahead(g: Stage): nat {
    match g
    case Open => 4
    case Flagged => 3
    case Detached => 2
    case Emptied => 1
    case Gone => 0
  }

  /** The next section of closeInternal, or a close that it waits for. */
  lemma Onward(s: State, d: ChanId) returns (a: Action)
    requires d in s.chans && s.chans[d].stage != Gone && s.chans[d].stage != Emptied
    ensures a.Within? && a.ch == d && Enabled(s, a) && a.act != Callback
    ensures var h, g := s.chans[d], Do(s, a).chans[d];
            && d in Do(s, a).chans && g.key == h.key && g.stage != Gone
            && (Ahead(g.stage) < Ahead(h.stage) || (g.stage == h.stage && |g.leaving| < |h.leaving|))
  {
    var h := s.chans[d];
    if h.stage == Open { a := Within(d, SetFlag); }
    else if h.stage == Flagged { a := Within(d, Detach); }
    else if h.leaving == {} { a := Within(d, Empty); }
    else {
      var c :| c in h.leaving;
      a := Within(d, CloseLeaving(c));
      assert |h.leaving - {c}| == |h.leaving| - 1;
    }
  }

  /** Because the callback removes by key, a registered channel is safe from the
      others' callbacks, in every continuation without an administrative close of
      its key, if and only if every other channel ever created for the key has
      finished closing. */
  lemma StaysRegisteredExactlyWhen(max: nat, timeout: int, acts: seq<Action>, k: Key)
    requires Run(Init(max, timeout), acts) && k in After(Init(max, timeout), acts).maps.channels
    ensures var s := After(Init(max, timeout), acts);
            StaysRegistered(s, s.maps.channels[k], k) <==> Sole(s, s.maps.channels[k], k)
  {
    var s := After(Init(max, timeout), acts);
    var ch := s.maps.channels[k];
    if Sole(s, ch, k) {
      forall more | Run(s, more) && Undisturbed(more, ch, k) ensures IsRegistered(After(s, more), ch, k) {
        SoleStays(s, more, ch, k);
      }
    } else {
      var d :| d in s.chans && d != ch && s.chans[d].key == k && s.chans[d].stage != Gone;
      var more := Finishes(s, d, ch, k);
      assert !IsRegistered(After(s, more), ch, k);
    }
  }

  // ------------------------------------------------------------------- admission

  predicate InBound(h: Chan, max: nat) {
    max > 0 ==> |h.subs| <= max + (if h.creator.Some? then 0 else 1)
  }

  ghost predicate Admitted(s: State) {
    && (forall t :: t in s.calls && (s.calls[t].PairUp? || s.calls[t].Finish?) ==>
                      s.calls[t].ch in s.chans && s.chans[s.calls[t].ch].creator == Some(t))
    && (forall ch :: ch in s.chans ==> InBound(s.chans[ch], s.max))
  }

  /** The call that creates a channel is recorded as its creator. */
  lemma PairUpAdmits(s: State, q: State, t: nat, ch: ChanId, k: Call, h: Chan)
    requires Admitted(s) && ch !in s.chans && h.subs == map[] && h.creator == Some(t) && k.PairUp? && k.ch == ch
    requires q.calls == s.calls[t := k] && q.chans == s.chans[ch := h] && q.max == s.max
    ensures Admitted(q)
  {
  }

  lemma LockAdmits(s: State, t: nat, now: int, newId: ChanId)
    requires Admitted(s) && CanCall(s, t, Lock(now, newId))
    ensures Admitted(DoCall(s, t, Lock(now, newId)))
  {
    var k, q := s.calls[t].key, DoCall(s, t, Lock(now, newId));
    if k !in s.maps.channels && (if s.calls[t].PubArrives? then k in s.maps.subs else k in s.maps.pubs) {
      PairUpAdmits(s, q, t, newId, q.calls[t], q.chans[newId]);
    }
  }

  lemma InstallAdmits(s: State, t: nat)
    requires Admitted(s) && CanCall(s, t, Install)
    ensures Admitted(DoInstall(s, t))
  {
  }

  lemma AdmitAdmits(s: State, t: nat)
    requires Admitted(s) && CanCall(s, t, Admit)
    ensures Admitted(DoAdmit(s, t))
  {
    var q, ch := DoAdmit(s, t), s.calls[t].ch;
    assert InBound(s.chans[ch], s.max);
    assert InBound(q.chans[ch], s.max);
  }

  lemma FewerInBound(h: Chan, g: Chan, max: nat)
    requires InBound(h, max) && g.creator == h.creator && g.subs.Keys <= h.subs.Keys
    ensures InBound(g, max)
  {
    FewerMembers(g.subs.Keys, h.subs.Keys);
  }

  lemma FewerMembers(a: set<SubId>, b: set<SubId>)
    requires a <= b
    ensures |a| <= |b|
  {
    assert b == a + (b - a);
  }

  lemma FrameAdmits(s: State, q: State, ch: ChanId)
    requires Admitted(s) && ch in s.chans && ch in q.chans && q.calls == s.calls && q.max == s.max
    requires q.chans == s.chans[ch := q.chans[ch]] && InBound(q.chans[ch], s.max) && q.chans[ch].creator == s.chans[ch].creator
    ensures Admitted(q)
  {
  }

  lemma WithinAdmits(s: State, ch: ChanId, a: ChanAct)
    requires Admitted(s) && CanWithin(s, ch, a)
    ensures Admitted(DoWithin(s, ch, a))
  {
    var h, q := s.chans[ch], DoWithin(s, ch, a);
    assert InBound(h, s.max);
    FewerInBound(h, q.chans[ch], s.max);
    FrameAdmits(s, q, ch);
  }

  lemma StepAdmits(s: State, a: Action)
    requires Admitted(s) && Enabled(s, a)
    ensures Admitted(Do(s, a))
  {
    match a
    case Calling(t, c) =>
      if c.Lock? { LockAdmits(s, t, c.now, c.newId); }
      else if c.Install? { InstallAdmits(s, t); }
      else if c.Admit? { AdmitAdmits(s, t); }
    case Within(ch, w) => WithinAdmits(s, ch, w);
    case HandlerCloses(c) =>
    case CloseChannel(k) =>
    case SweepPending(now) =>
    case CloseAll =>
  }

  lemma {:induction false} RunAdmits(max: nat, timeout: int, acts: seq<Action>)
    requires Run(Init(max, timeout), acts)
    ensures Admitted(After(Init(max, timeout), acts)) && After(Init(max, timeout), acts).max == max
  {
    if acts != [] {
      RunAdmits(max, timeout, acts[..|acts| - 1]);
      StepAdmits(After(Init(max, timeout), acts[..|acts| - 1]), acts[|acts| - 1]);
    }
  }

  /** Admission bound: with a positive limit, a channel holds at most `max`
      subscribers until its creator has been admitted, and at most one more after. */
  lemma AdmissionBound(max: nat, timeout: int, acts: seq<Action>, ch: ChanId)
    requires max > 0 && Run(Init(max, timeout), acts) && ch in After(Init(max, timeout), acts).chans
    ensures var h := After(Init(max, timeout), acts).chans[ch];
            |h.subs| <= (if h.creator.Some? then max else max + 1)
  {
    RunAdmits(max, timeout, acts);
  }
}
