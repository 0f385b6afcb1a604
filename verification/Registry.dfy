/** The channel manager's three maps: what each critical section of its mutex
    does to them, and the manager as the object that updates them in place. */
module Registry {
  import opened Wire

  type Key = nat
  type ChanId = nat

  datatype PendingPub = PendingPub(conn: Conn, at: int)
  datatype PendingSub = PendingSub(conn: Conn, id: SubId, at: int)

  datatype Maps = Maps(
    channels: map<Key, ChanId>,
    pubs: map<Key, PendingPub>,
    subs: map<Key, PendingSub>)

  /** What a connecting publisher or subscriber is told to do once the mutex is
      released: use the channel that exists, complete a pair in the channel just
      created, or wait, having displaced an older waiter. */
  datatype PubOutcome = PubExisting(ch: ChanId) | PubPaired(ch: ChanId, waiting: PendingSub) | PubParked(displaced: Option<Conn>)
  datatype SubOutcome = SubExisting(ch: ChanId) | SubPaired(ch: ChanId, waiting: PendingPub) | SubParked(displaced: Option<Conn>)

  /** HandlePublisherConnect inside the mutex; `newId` names a new channel. */
  function ConnectPub(m: Maps, k: Key, c: Conn, now: int, newId: ChanId): (Maps, PubOutcome) {
    if k in m.channels then (m, PubExisting(m.channels[k]))
    else if k in m.subs then
      (m.(subs := m.subs - {k}, channels := m.channels[k := newId]), PubPaired(newId, m.subs[k]))
    else
      (m.(pubs := m.pubs[k := PendingPub(c, now)]), PubParked(if k in m.pubs then Some(m.pubs[k].conn) else None))
  }

  function ConnectSub(m: Maps, k: Key, x: SubId, c: Conn, now: int, newId: ChanId): (Maps, SubOutcome) {
    if k in m.channels then (m, SubExisting(m.channels[k]))
    else if k in m.pubs then
      (m.(pubs := m.pubs - {k}, channels := m.channels[k := newId]), SubPaired(newId, m.pubs[k]))
    else
      (m.(subs := m.subs[k := PendingSub(c, x, now)]), SubParked(if k in m.subs then Some(m.subs[k].conn) else None))
  }

  predicate Stale(now: int, at: int, timeout: int) {
    now - at > timeout
  }

  function FreshPubs(ps: map<Key, PendingPub>, now: int, timeout: int): map<Key, PendingPub> {
    map k | k in ps && !Stale(now, ps[k].at, timeout) :: ps[k]
  }

  function FreshSubs(ps: map<Key, PendingSub>, now: int, timeout: int): map<Key, PendingSub> {
    map k | k in ps && !Stale(now, ps[k].at, timeout) :: ps[k]
  }

  /** One pass of cleanupPendingConnections. */
  function Sweep(m: Maps, now: int, timeout: int): Maps {
    m.(pubs := FreshPubs(m.pubs, now, timeout), subs := FreshSubs(m.subs, now, timeout))
  }

  /** No pod key is in two of the maps. */
  predicate Disjoint(m: Maps) {
    m.channels.Keys !! m.pubs.Keys && m.channels.Keys !! m.subs.Keys && m.pubs.Keys !! m.subs.Keys
  }

  /** The manager object. Closing a connection is an effect on the connection, so
      the methods return the connections they close. */
  class ChannelManager {
    var channels: map<Key, ChanId>
    var pendingPublishers: map<Key, PendingPub>
    var pendingSubscribers: map<Key, PendingSub>
    const pendingTimeout: int

    ghost function View(): Maps
      reads this
    {
      Maps(channels, pendingPublishers, pendingSubscribers)
    }

    constructor (timeout: int)
      ensures View() == Maps(map[], map[], map[]) && pendingTimeout == timeout
    {
      channels, pendingPublishers, pendingSubscribers := map[], map[], map[];
      pendingTimeout := timeout;
    }

    method HandlePublisherConnect(k: Key, c: Conn, now: int, newId: ChanId) returns (r: PubOutcome)
      requires Disjoint(View())
      modifies this
      ensures (View(), r) == ConnectPub(old(View()), k, c, now, newId) && Disjoint(View())
      ensures k in old(channels) ==> r == PubExisting(old(channels)[k]) && View() == old(View())
      ensures k in old(pendingSubscribers) ==>
                && r == PubPaired(newId, old(pendingSubscribers)[k]) && channels == old(channels)[k := newId]
                && pendingSubscribers == old(pendingSubscribers) - {k} && pendingPublishers == old(pendingPublishers)
      ensures k !in old(channels) && k !in old(pendingSubscribers) ==>
                && r == PubParked(if k in old(pendingPublishers) then Some(old(pendingPublishers)[k].conn) else None)
                && pendingPublishers == old(pendingPublishers)[k := PendingPub(c, now)]
                && channels == old(channels) && pendingSubscribers == old(pendingSubscribers)
    {
      if k in channels {
        return PubExisting(channels[k]);
      }
      if k in pendingSubscribers {
        r := PubPaired(newId, pendingSubscribers[k]);
        pendingSubscribers := pendingSubscribers - {k};
        channels := channels[k := newId];
        return;
      }
      r := PubParked(if k in pendingPublishers then Some(pendingPublishers[k].conn) else None);
      pendingPublishers := pendingPublishers[k := PendingPub(c, now)];
    }

    method HandleSubscriberConnect(k: Key, x: SubId, c: Conn, now: int, newId: ChanId) returns (r: SubOutcome)
      requires Disjoint(View())
      modifies this
      ensures (View(), r) == ConnectSub(old(View()), k, x, c, now, newId) && Disjoint(View())
      ensures k in old(channels) ==> r == SubExisting(old(channels)[k]) && View() == old(View())
      ensures k in old(pendingPublishers) ==>
                && r == SubPaired(newId, old(pendingPublishers)[k]) && channels == old(channels)[k := newId]
                && pendingPublishers == old(pendingPublishers) - {k} && pendingSubscribers == old(pendingSubscribers)
      ensures k !in old(channels) && k !in old(pendingPublishers) ==>
                && r == SubParked(if k in old(pendingSubscribers) then Some(old(pendingSubscribers)[k].conn) else None)
                && pendingSubscribers == old(pendingSubscribers)[k := PendingSub(c, x, now)]
                && channels == old(channels) && pendingPublishers == old(pendingPublishers)
    {
      if k in channels {
        return SubExisting(channels[k]);
      }
      if k in pendingPublishers {
        r := SubPaired(newId, pendingPublishers[k]);
        pendingPublishers := pendingPublishers - {k};
        channels := channels[k := newId];
        return;
      }
      r := SubParked(if k in pendingSubscribers then Some(pendingSubscribers[k].conn) else None);
      pendingSubscribers := pendingSubscribers[k := PendingSub(c, x, now)];
    }

    /** CloseChannel and onChannelClosed both forget whatever the key names. */
    method Forget(k: Key) returns (ch: Option<ChanId>)
      requires Disjoint(View())
      modifies this
      ensures View() == old(View()).(channels := old(channels) - {k}) && Disjoint(View())
      ensures ch == if k in old(channels) then Some(old(channels)[k]) else None
    {
      ch := if k in channels then Some(channels[k]) else None;
      channels := channels - {k};
    }

    /** The two cleaning loops, in whatever order the maps are iterated: exactly
        the stale waiters are taken out, and each of them is handed back closed. */
    method CleanupPending(now: int) returns (gonePubs: map<Key, PendingPub>, goneSubs: map<Key, PendingSub>)
      requires Disjoint(View())
      modifies this
      ensures View() == Sweep(old(View()), now, pendingTimeout) && Disjoint(View())
      ensures gonePubs == old(pendingPublishers) - pendingPublishers.Keys
      ensures goneSubs == old(pendingSubscribers) - pendingSubscribers.Keys
      ensures forall k :: k in gonePubs ==> now - gonePubs[k].at > pendingTimeout
      ensures forall k :: k in goneSubs ==> now - goneSubs[k].at > pendingTimeout
      ensures forall k :: k in pendingPublishers ==> now - pendingPublishers[k].at <= pendingTimeout
      ensures forall k :: k in pendingSubscribers ==> now - pendingSubscribers[k].at <= pendingTimeout
    {
      gonePubs := SweepPublishers(now);
      goneSubs := SweepSubscribers(now);
    }

    method SweepPublishers(now: int) returns (gone: map<Key, PendingPub>)
      modifies this`pendingPublishers
      ensures pendingPublishers == FreshPubs(old(pendingPublishers), now, pendingTimeout)
      ensures gone == old(pendingPublishers) - pendingPublishers.Keys
      ensures forall k :: k in gone ==> now - gone[k].at > pendingTimeout
      ensures forall k :: k in pendingPublishers ==> now - pendingPublishers[k].at <= pendingTimeout
    {
      ghost var was := pendingPublishers;
      var todo := pendingPublishers.Keys;
      gone := map[];
      while todo != {}
        invariant todo <= pendingPublishers.Keys
        invariant was == pendingPublishers + gone && pendingPublishers.Keys !! gone.Keys
        invariant forall k :: k in gone ==> Stale(now, gone[k].at, pendingTimeout)
        invariant forall k :: k in pendingPublishers && k !in todo ==> !Stale(now, pendingPublishers[k].at, pendingTimeout)
        decreases todo
      {
        var k :| k in todo;
        todo := todo - {k};
        if now - pendingPublishers[k].at > pendingTimeout {
          gone := gone[k := pendingPublishers[k]];
          pendingPublishers := pendingPublishers - {k};
        }
      }
    }

    method SweepSubscribers(now: int) returns (gone: map<Key, PendingSub>)
      modifies this`pendingSubscribers
      ensures pendingSubscribers == FreshSubs(old(pendingSubscribers), now, pendingTimeout)
      ensures gone == old(pendingSubscribers) - pendingSubscribers.Keys
      ensures forall k :: k in gone ==> now - gone[k].at > pendingTimeout
      ensures forall k :: k in pendingSubscribers ==> now - pendingSubscribers[k].at <= pendingTimeout
    {
      ghost var was := pendingSubscribers;
      var todo := pendingSubscribers.Keys;
      gone := map[];
      while todo != {}
        invariant todo <= pendingSubscribers.Keys
        invariant was == pendingSubscribers + gone && pendingSubscribers.Keys !! gone.Keys
        invariant forall k :: k in gone ==> Stale(now, gone[k].at, pendingTimeout)
        invariant forall k :: k in pendingSubscribers && k !in todo ==> !Stale(now, pendingSubscribers[k].at, pendingTimeout)
        decreases todo
      {
        var k :| k in todo;
        todo := todo - {k};
        if now - pendingSubscribers[k].at > pendingTimeout {
          gone := gone[k := pendingSubscribers[k]];
          pendingSubscribers := pendingSubscribers - {k};
        }
      }
    }

    /** Close inside the mutex: every channel is handed out to be closed, and the
        waiting connections, all of them, are closed on the spot. */
    method Close() returns (handed: seq<ChanId>, gonePubs: map<Key, PendingPub>, goneSubs: map<Key, PendingSub>)
      modifies this
      ensures View() == Maps(map[], map[], map[])
      ensures |handed| == |old(channels)| && forall ch :: ch in handed <==> ch in old(channels).Values
      ensures gonePubs == old(pendingPublishers) && goneSubs == old(pendingSubscribers)
    {
      handed := DrainChannels();
      gonePubs := map[];
      while pendingPublishers.Keys != {}
        invariant old(pendingPublishers) == pendingPublishers + gonePubs && pendingPublishers.Keys !! gonePubs.Keys
        invariant channels == map[] && pendingSubscribers == old(pendingSubscribers)
        decreases pendingPublishers.Keys
      {
        var k :| k in pendingPublishers;
        gonePubs := gonePubs[k := pendingPublishers[k]];
        pendingPublishers := pendingPublishers - {k};
      }
      goneSubs := map[];
      while pendingSubscribers.Keys != {}
        invariant old(pendingSubscribers) == pendingSubscribers + goneSubs && pendingSubscribers.Keys !! goneSubs.Keys
        invariant channels == map[] && pendingPublishers == map[]
        decreases pendingSubscribers.Keys
      {
        var k :| k in pendingSubscribers;
        goneSubs := goneSubs[k := pendingSubscribers[k]];
        pendingSubscribers := pendingSubscribers - {k};
      }
    }

    method DrainChannels() returns (handed: seq<ChanId>)
      modifies this`channels
      ensures channels == map[] && |handed| == |old(channels)|
      ensures forall ch :: ch in handed <==> ch in old(channels).Values
    {
      handed := [];
      ghost var was := channels;
      while channels.Keys != {}
        invariant forall k :: k in channels ==> k in was && channels[k] == was[k]
        invariant |handed| + |channels| == |was|
        invariant forall ch :: ch in handed ==> ch in was.Values
        invariant forall k :: k in was && k !in channels ==> was[k] in handed
        decreases channels.Keys
      {
        var k :| k in channels;
        handed := handed + [channels[k]];
        assert (channels - {k}).Keys == channels.Keys - {k};
        channels := channels - {k};
      }
    }
  }
}
