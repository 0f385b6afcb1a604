/** Particular runs of the manager: what its guarantees do not cover, and that
    its admission bound is reached. */
module RelayRuns {
  import opened Wire
  import opened Registry
  import opened Relay

  /** Some run leads from `s` to `q`. */
  ghost predicate Reaches(s: State, q: State) {
    exists acts :: Run(s, acts) && After(s, acts) == q
  }

  lemma Start(s: State)
    ensures Reaches(s, s)
  {
    assert Run(s, []) && After(s, []) == s;
  }

  lemma Step(s: State, q: State, a: Action)
    requires Reaches(s, q) && Enabled(q, a)
    ensures Reaches(s, Do(q, a))
  {
    var acts :| Run(s, acts) && After(s, acts) == q;
    RunExtend(s, acts, a);
  }

  /** A publisher arrives under `k` first and waits. */
  lemma Park(s: State, q: State, k: Key, c: Conn, newId: ChanId) returns (r: State)
    requires Reaches(s, q) && q.calls == map[] && c !in q.places && newId !in q.chans
    requires k !in q.maps.channels && k !in q.maps.pubs && k !in q.maps.subs
    ensures Reaches(s, r)
    ensures r == q.(maps := q.maps.(pubs := q.maps.pubs[k := PendingPub(c, 0)]), places := r.places)
    ensures r.places.Keys == q.places.Keys + {c}
  {
    var a, b := Calling(0, ArrivePub(k, c)), Calling(0, Lock(0, newId));
    Step(s, q, a);
    var q1 := Do(q, a);
    Step(s, q1, b);
    r := Do(q1, b);
    assert r.calls == map[];
    assert Move(q1.places, {}, Closed) == q1.places;
  }

  /** A subscriber then arrives under `k`: channel `ch` is created for the two. */
  lemma Meet(s: State, q: State, k: Key, ch: ChanId, x: SubId, d: Conn) returns (r: State)
    requires Reaches(s, q) && q.calls == map[] && d !in q.places && x !in q.owner && ch !in q.chans
    requires k in q.maps.pubs && k !in q.maps.channels && q.maps.pubs[k].conn in q.places
    ensures Reaches(s, r)
    ensures r == q.(maps := q.maps.(pubs := q.maps.pubs - {k}, channels := q.maps.channels[k := ch]),
                    calls := map[0 := PairUp(ch, q.maps.pubs[k].conn, x, d)], owner := q.owner[x := d],
                    chans := q.chans[ch := Chan(k, Open, None, {}, map[], Some(0))], places := r.places)
    ensures r.places.Keys == q.places.Keys + {d}
  {
    var a, b := Calling(0, ArriveSub(k, x, d)), Calling(0, Lock(0, ch));
    Step(s, q, a);
    var q1 := Do(q, a);
    Step(s, q1, b);
    r := Do(q1, b);
  }

  /** The pairing call installs its publisher and admits its subscriber. */
  lemma Settle(s: State, q: State) returns (r: State)
    requires Reaches(s, q) && 0 in q.calls && q.calls.Keys == {0} && q.calls[0].PairUp?
    requires q.calls[0].ch in q.chans && q.chans[q.calls[0].ch].stage == Open && q.chans[q.calls[0].ch].publisher.None?
    requires q.calls[0].pub in q.places && q.calls[0].conn in q.places
    ensures Reaches(s, r)
    ensures var k := q.calls[0];
            var h := q.chans[k.ch];
            r == q.(calls := map[], places := r.places,
                    chans := q.chans[k.ch := h.(publisher := Some(k.pub), creator := None, subs := h.subs[k.id := k.conn])])
    ensures r.places.Keys == q.places.Keys
  {
    Step(s, q, Calling(0, Install));
    var q1 := Do(q, Calling(0, Install));
    assert q1.chans[q.calls[0].ch].leaving == q.chans[q.calls[0].ch].leaving;
    Step(s, q1, Calling(0, Admit));
    r := Do(q1, Calling(0, Admit));
    assert r.calls == map[];
  }

  /** Channel `ch` runs closeInternal to its end. */
  lemma CloseDown(s: State, q: State, ch: ChanId) returns (r: State)
    requires Reaches(s, q) && ch in q.chans && q.chans[ch].stage == Open && q.chans[ch].leaving == {}
    ensures Reaches(s, r)
    ensures ch in r.chans && r.chans == q.chans[ch := r.chans[ch]]
    ensures r.maps.channels == q.maps.channels - {q.chans[ch].key}
  {
    Step(s, q, Within(ch, SetFlag));
    var q1 := Do(q, Within(ch, SetFlag));
    Step(s, q1, Within(ch, Detach));
    var q2 := Do(q1, Within(ch, Detach));
    Step(s, q2, Within(ch, Empty));
    var q3 := Do(q2, Within(ch, Empty));
    Step(s, q3, Within(ch, Callback));
    r := Do(q3, Within(ch, Callback));
    assert r.chans == q.chans[ch := r.chans[ch]];
  }

  /** A channel is opened under `k`, with its creator admitted. */
  lemma OpenChannel(s: State, q: State, k: Key, ch: ChanId, c: Conn, x: SubId, d: Conn) returns (r: State)
    requires Reaches(s, q) && q.calls == map[] && c !in q.places && d !in q.places && c != d && x !in q.owner
    requires ch !in q.chans && k !in q.maps.channels && k !in q.maps.pubs && k !in q.maps.subs
    ensures Reaches(s, r)
    ensures r == q.(maps := q.maps.(channels := q.maps.channels[k := ch]), owner := q.owner[x := d], places := r.places,
                    chans := q.chans[ch := Chan(k, Open, Some(c), {}, map[x := d], None)])
    ensures r.places.Keys == q.places.Keys + {c, d}
  {
    var q1 := Park(s, q, k, c, ch);
    assert q1.maps.pubs - {k} == q.maps.pubs;
    r := Pair(s, q1, k, ch, x, d);
  }

  lemma Pair(s: State, q: State, k: Key, ch: ChanId, x: SubId, d: Conn) returns (r: State)
    requires Reaches(s, q) && q.calls == map[] && d !in q.places && x !in q.owner && ch !in q.chans
    requires k in q.maps.pubs && k !in q.maps.channels && q.maps.pubs[k].conn in q.places
    ensures Reaches(s, r)
    ensures r == q.(maps := q.maps.(pubs := q.maps.pubs - {k}, channels := q.maps.channels[k := ch]), owner := q.owner[x := d],
                    places := r.places, chans := q.chans[ch := Chan(k, Open, Some(q.maps.pubs[k].conn), {}, map[x := d], None)])
    ensures r.places.Keys == q.places.Keys + {d}
  {
    var q1 := Meet(s, q, k, ch, x, d);
    r := Settle(s, q1);
  }

  /** Registry completeness does fail once CloseChannel is used: the old channel's
      callback, running after a new channel took over the key, unregisters the new
      one, which stays open and keeps its subscriber. */
  lemma CloseChannelCanOrphan(max: nat, timeout: int) returns (s: State)
    ensures Reaches(Init(max, timeout), s)
    ensures 1 in s.chans && s.chans[1].stage == Open && s.chans[1].subs != map[] && s.chans[1].key !in s.maps.channels
  {
    var i := Init(max, timeout);
    Start(i);
    var s1 := OpenChannel(i, i, 7, 0, 100, 1, 101);
    Step(i, s1, CloseChannel(7));
    var s2 := Do(s1, CloseChannel(7));
    assert 7 !in s2.maps.channels;
    var s3 := OpenChannel(i, s2, 7, 1, 102, 2, 103);
    assert s3.chans[1].subs[2] == 103;
    s := CloseDown(i, s3, 0);
  }

  /** The bound is reached: with a limit of one, a join that overtakes the creator
      leaves the channel with two subscribers. */
  lemma AdmissionBoundIsTight(timeout: int) returns (s: State)
    ensures Reaches(Init(1, timeout), s) && 0 in s.chans && |s.chans[0].subs| == 2
  {
    var i := Init(1, timeout);
    Start(i);
    s := Park(i, i, 7, 100, 0);
    s := Meet(i, s, 7, 0, 1, 101);
    s := Overtake(i, s, 7, 0, 2, 102, 1);
    s := Settle(i, s);
    assert s.chans[0].subs == map[2 := 102, 1 := 101];
  }

  /** While the creator is still on its way, another subscriber is let in. */
  lemma Overtake(s: State, q: State, k: Key, ch: ChanId, x: SubId, d: Conn, newId: ChanId) returns (r: State)
    requires Reaches(s, q) && q.calls.Keys == {0} && d !in q.places && x !in q.owner && newId !in q.chans
    requires k in q.maps.channels && q.maps.channels[k] == ch && ch in q.chans && q.chans[ch].stage == Open
    requires q.chans[ch].subs == map[] && q.max > 0
    ensures Reaches(s, r)
    ensures r == q.(owner := r.owner, places := r.places, chans := q.chans[ch := q.chans[ch].(subs := map[x := d])])
    ensures r.places.Keys == q.places.Keys + {d}
  {
    var q2 := ArriveLate(s, q, k, ch, x, d, newId);
    assert q2.calls - {1} == q.calls;
    assert q.chans[ch].subs[x := d] == map[x := d];
    r := LetIn(s, q2, 1);
  }

  /** A join of an open channel with room. */
  lemma LetIn(s: State, q: State, t: nat) returns (r: State)
    requires Reaches(s, q) && t in q.calls && q.calls[t].Join? && q.calls[t].ch in q.chans && q.calls[t].conn in q.places
    requires q.chans[q.calls[t].ch].stage == Open && (q.max > 0 ==> |q.chans[q.calls[t].ch].subs| < q.max)
    ensures Reaches(s, r)
    ensures var k := q.calls[t];
            var h := q.chans[k.ch];
            r == q.(calls := q.calls - {t}, chans := q.chans[k.ch := h.(subs := h.subs[k.id := k.conn])],
                    places := q.places[k.conn := Subscribed(k.ch, k.id)])
  {
    Step(s, q, Calling(t, Admit));
    r := Do(q, Calling(t, Admit));
  }

  lemma ArriveLate(s: State, q: State, k: Key, ch: ChanId, x: SubId, d: Conn, newId: ChanId) returns (r: State)
    requires Reaches(s, q) && q.calls.Keys == {0} && d !in q.places && x !in q.owner && newId !in q.chans
    requires k in q.maps.channels && q.maps.channels[k] == ch
    ensures Reaches(s, r)
    ensures r == q.(owner := q.owner[x := d], places := q.places[d := InCall(1)], calls := q.calls[1 := Join(ch, x, d)])
  {
    var a, b := Calling(1, ArriveSub(k, x, d)), Calling(1, Lock(0, newId));
    Step(s, q, a);
    var q1 := Do(q, a);
    Step(s, q1, b);
    r := Do(q1, b);
    assert r.calls == q.calls[1 := Join(ch, x, d)];
  }
}
