/** The manager and its detailed channels as one system.

    Each channel that the manager creates is a full terminal channel with its own
    goroutines; connect calls go through the manager's mutex and then perform the
    channel's own critical sections. The manager's coarse channels are carried
    along, and no guard looks at them: that they always show the detailed ones,
    and that the whole projects to a run of `Relay`, is what is proved. */
module Composition {
  import opened Wire
  import opened ReplayBuffer
  import opened Channel
  import opened PublisherSafety
  import opened Simulation
  import Registry
  import Relay
  import RelayRuns

  datatype World = World(limits: Budget, relay: Relay.State, details: map<Registry.ChanId, State>)

  function Start(l: Budget, max: nat, timeout: int): World {
    World(l, Relay.Init(max, timeout), map[])
  }

  datatype Step =
    | Managing(act: Relay.Action)               // arrivals, sections of the mutex, handlers
    | EnterFor(t: nat)                          // call `t` gets publisherReplaceMu
    | InstallFor(t: nat)                        // and performs SetPublisher's section
    | AdmitFor(t: nat)                          // call `t` performs addSubscriberInternal's
    | Own(ch: Registry.ChanId, own: Action)     // everything else a channel does

  predicate OfChannel(a: Relay.Action) {
    a.Within? || (a.Calling? && (a.call.Install? || a.call.Admit?))
  }

  predicate OfCall(a: Action) {
    FromCall(a) || (a.Replace? && a.replace.EnterSet?)
  }

  /** The connection that a connect call installs. */
  function Brought(r: Relay.State, t: nat): Conn
    requires Relay.CanCall(r, t, Relay.Install)
  {
    if r.calls[t].Attach? then r.calls[t].conn else r.calls[t].pub
  }

  predicate Can(w: World, st: Step) {
    match st
    case Managing(a) => !OfChannel(a) && Relay.Enabled(w.relay, a)
    case EnterFor(t) =>
      && Relay.CanCall(w.relay, t, Relay.Install) && w.relay.calls[t].ch in w.details
      && w.details[w.relay.calls[t].ch].pub.holder.Free?
    case InstallFor(t) =>
      && Relay.CanCall(w.relay, t, Relay.Install) && w.relay.calls[t].ch in w.details
      && w.details[w.relay.calls[t].ch].pub.holder == Entered(Brought(w.relay, t))
    case AdmitFor(t) => Relay.CanCall(w.relay, t, Relay.Admit) && w.relay.calls[t].ch in w.details
    case Own(ch, a) => ch in w.details && !OfCall(a) && Enabled(w.details[ch], a)
  }

  function Follow(r: Relay.State, ch: Registry.ChanId, v: Option<Relay.ChanAct>): Relay.State {
    if v.Some? && Relay.CanWithin(r, ch, v.value) then Relay.DoWithin(r, ch, v.value) else r
  }

  function Next(w: World, st: Step): World
    requires Can(w, st)
  {
    var r, ds := w.relay, w.details;
    match st
    case Managing(a) =>
      var q := Relay.Do(r, a);
      w.(relay := q, details := map ch | ch in q.chans :: if ch in ds then ds[ch] else Init(w.limits))
    case EnterFor(t) =>
      var ch := r.calls[t].ch;
      w.(details := ds[ch := Do(ds[ch], Replace(EnterSet(Brought(r, t))))])
    case InstallFor(t) =>
      var ch := r.calls[t].ch;
      w.(relay := Relay.DoInstall(r, t), details := ds[ch := Do(ds[ch], Replace(Install))])
    case AdmitFor(t) =>
      var ch := r.calls[t].ch;
      w.(relay := Relay.DoAdmit(r, t),
         details := ds[ch := if Enabled(ds[ch], JoinOf(r, t)) then Do(ds[ch], JoinOf(r, t)) else ds[ch]])
    case Own(ch, a) =>
      w.(relay := Follow(r, ch, Match(ds[ch], a)), details := ds[ch := Do(ds[ch], a)])
  }

  ghost predicate History(w: World, sts: seq<Step>)
    decreases |sts|, 0
  {
    sts == [] || (History(w, sts[..|sts| - 1]) && Can(Reached(w, sts[..|sts| - 1]), sts[|sts| - 1]))
  }

  ghost function Reached(w: World, sts: seq<Step>): World
    requires History(w, sts)
    decreases |sts|, 1
  {
    if sts == [] then w else Next(Reached(w, sts[..|sts| - 1]), sts[|sts| - 1])
  }

  // -------------------------------------------------------------------- invariant

  /** A subscriber that ever joined a channel is there, or its connection is closed. */
  predicate Settled(r: Relay.State, ch: Registry.ChanId, x: SubId) {
    && x in r.owner && r.owner[x] in r.places
    && (r.places[r.owner[x]] == Relay.Subscribed(ch, x) || r.places[r.owner[x]] == Relay.Closed)
  }

  ghost predicate AllSettled(r: Relay.State, ch: Registry.ChanId, b: Sub) {
    forall x :: x in b.joins ==> Settled(r, ch, x)
  }

  /** One channel: reachable on its own, shown by the manager, its joins settled. */
  ghost predicate Sound(l: Budget, r: Relay.State, ch: Registry.ChanId, s: State) {
    Reaches(Init(l), s) && ShowsAt(r, ch, s) && AllSettled(r, ch, s.sub)
  }

  ghost predicate Joined(w: World, max: nat, timeout: int) {
    && RelayRuns.Reaches(Relay.Init(max, timeout), w.relay)
    && w.details.Keys == w.relay.chans.Keys
    && (forall ch :: ch in w.details ==> Sound(w.limits, w.relay, ch, w.details[ch]))
  }

  lemma ChannelFacts(l: Budget, s: State)
    requires Reaches(Init(l), s)
    ensures PubInv(s.pub) && Succession(s.pub)
  {
    var acts :| Run(Init(l), acts) && After(Init(l), acts) == s;
    RunKeeps(l, acts);
    RunSuccession(l, acts);
  }

  lemma ManagerFacts(max: nat, timeout: int, r: Relay.State)
    requires RelayRuns.Reaches(Relay.Init(max, timeout), r)
    ensures Relay.Conserved(r) && Relay.Named(r)
  {
    var acts :| Relay.Run(Relay.Init(max, timeout), acts) && Relay.After(Relay.Init(max, timeout), acts) == r;
    Relay.RunConserves(max, timeout, acts);
  }

  /** Where a call finds the connections that it moves: never subscribed, never closed. */
  lemma CallMoves(r: Relay.State, t: nat)
    requires Relay.Conserved(r) && t in r.calls
    ensures forall c :: c in Relay.Carries(r.calls[t]) ==> c in r.places && r.places[c] == Relay.InCall(t)
    ensures r.calls[t].PubArrives? || r.calls[t].SubArrives? ==>
              var k := r.calls[t].key;
              && (k in r.maps.pubs ==> r.maps.pubs[k].conn in r.places && r.places[r.maps.pubs[k].conn] == Relay.PendingPublisher(k))
              && (k in r.maps.subs ==> r.maps.subs[k].conn in r.places && r.places[r.maps.subs[k].conn] == Relay.PendingSubscriber(k))
    ensures (r.calls[t].Attach? || r.calls[t].PairUp?) && r.calls[t].ch in r.chans && r.chans[r.calls[t].ch].publisher.Some? ==>
              var c := r.chans[r.calls[t].ch].publisher.value; c in r.places && r.places[c] == Relay.Publishing(r.calls[t].ch)
  {
    var k := r.calls[t];
    forall c | c in Relay.Carries(k) ensures c in r.places && r.places[c] == Relay.InCall(t) {
      assert Relay.Holds(r, c, Relay.InCall(t));
    }
    if k.PubArrives? || k.SubArrives? {
      if k.key in r.maps.pubs { assert Relay.Holds(r, r.maps.pubs[k.key].conn, Relay.PendingPublisher(k.key)); }
      if k.key in r.maps.subs { assert Relay.Holds(r, r.maps.subs[k.key].conn, Relay.PendingSubscriber(k.key)); }
    } else if k.ch in r.chans && r.chans[k.ch].publisher.Some? {
      assert Relay.Holds(r, r.chans[k.ch].publisher.value, Relay.Publishing(k.ch));
    }
  }

  lemma SettledCall(r: Relay.State, t: nat, a: Relay.CallAct, ch: Registry.ChanId, x: SubId)
    requires Relay.Conserved(r) && Relay.CanCall(r, t, a) && Settled(r, ch, x)
    ensures Settled(Relay.DoCall(r, t, a), ch, x)
  {
    if t in r.calls {
      CallMoves(r, t);
      assert r.calls[t].conn in Relay.Carries(r.calls[t]);
      assert r.calls[t].PairUp? ==> r.calls[t].pub in Relay.Carries(r.calls[t]);
    }
  }

  lemma SettledWithin(r: Relay.State, d: Registry.ChanId, a: Relay.ChanAct, ch: Registry.ChanId, x: SubId)
    requires Relay.Conserved(r) && Relay.CanWithin(r, d, a) && Settled(r, ch, x)
    ensures Settled(Relay.DoWithin(r, d, a), ch, x)
  {
    var h := r.chans[d];
    if h.publisher.Some? { assert Relay.Holds(r, h.publisher.value, Relay.Publishing(d)); }
  }

  lemma SettledDrop(r: Relay.State, m: Registry.Maps, ch: Registry.ChanId, x: SubId)
    requires Settled(r, ch, x)
    ensures Settled(Relay.Drop(r, m), ch, x)
  {
  }

  /** No step of the manager moves a subscriber's connection but to close it. */
  lemma SettledStays(r: Relay.State, a: Relay.Action, ch: Registry.ChanId, x: SubId)
    requires Relay.Conserved(r) && Relay.Enabled(r, a) && Settled(r, ch, x)
    ensures Settled(Relay.Do(r, a), ch, x)
  {
    match a
    case Calling(t, k) => SettledCall(r, t, k, ch, x);
    case Within(d, v) => SettledWithin(r, d, v, ch, x);
    case HandlerCloses(d) =>
    case CloseChannel(k) =>
    case SweepPending(now) => SettledDrop(r, Registry.Sweep(r.maps, now, r.timeout), ch, x);
    case CloseAll => SettledDrop(r, Registry.Maps(map[], map[], map[]), ch, x);
  }

  /** A step of the manager that does not concern a channel leaves it sound. */
  lemma SoundElsewhere(l: Budget, r: Relay.State, a: Relay.Action, ch: Registry.ChanId, s: State)
    requires Relay.Conserved(r) && Relay.Enabled(r, a) && Sound(l, r, ch, s) && !Concerns(r, ch, a)
    ensures Sound(l, Relay.Do(r, a), ch, s)
  {
    OthersKeepShowing(r, ch, s, a);
    forall x | x in s.sub.joins ensures Settled(Relay.Do(r, a), ch, x) {
      SettledStays(r, a, ch, x);
    }
  }

  // ------------------------------------------------------------------- every step

  lemma ManagingKeeps(w: World, max: nat, timeout: int, a: Relay.Action)
    requires Joined(w, max, timeout) && Can(w, Managing(a))
    ensures Joined(Next(w, Managing(a)), max, timeout)
  {
    var q := Next(w, Managing(a));
    ManagerFacts(max, timeout, w.relay);
    RelayRuns.Step(Relay.Init(max, timeout), w.relay, a);
    assert q.details.Keys == q.relay.chans.Keys;
    forall ch | ch in q.details ensures Sound(w.limits, q.relay, ch, q.details[ch]) {
      if ch in w.details {
        SoundElsewhere(w.limits, w.relay, a, ch, w.details[ch]);
      } else {
        CreatedIsSound(w.limits, w.relay, a, ch);
      }
    }
  }

  /** Only a pairing section of the mutex creates a channel, and it creates it new. */
  lemma CreatedIsSound(l: Budget, r: Relay.State, a: Relay.Action, ch: Registry.ChanId)
    requires Relay.Enabled(r, a) && !OfChannel(a) && ch !in r.chans && ch in Relay.Do(r, a).chans
    ensures Sound(l, Relay.Do(r, a), ch, Init(l))
  {
    var q := Relay.Do(r, a);
    assert q.chans[ch] == Relay.Chan(q.chans[ch].key, Relay.Open, None, {}, map[], q.chans[ch].creator);
    NewChannelIsShown(l, q, ch);
    Stays(Init(l));
  }

  lemma SameChannels(r: Relay.State, a: Relay.Action)
    requires Relay.Enabled(r, a) && OfChannel(a)
    ensures Relay.Do(r, a).chans.Keys == r.chans.Keys
  {
  }

  /** What one channel's step must establish, the others being left alone. */
  lemma OneChannel(w: World, max: nat, timeout: int, a: Relay.Action, ch: Registry.ChanId, s: State)
    requires Joined(w, max, timeout) && ch in w.details && Relay.Enabled(w.relay, a) && OfChannel(a) && Concerns(w.relay, ch, a)
    requires Sound(w.limits, Relay.Do(w.relay, a), ch, s)
    ensures Joined(w.(relay := Relay.Do(w.relay, a), details := w.details[ch := s]), max, timeout)
  {
    ManagerFacts(max, timeout, w.relay);
    RelayRuns.Step(Relay.Init(max, timeout), w.relay, a);
    SameChannels(w.relay, a);
    OthersStaySound(w.limits, w.relay, w.details, a, ch);
    Assemble(w, max, timeout, Relay.Do(w.relay, a), ch, s);
  }

  lemma Assemble(w: World, max: nat, timeout: int, r: Relay.State, ch: Registry.ChanId, s: State)
    requires RelayRuns.Reaches(Relay.Init(max, timeout), r) && w.details.Keys == r.chans.Keys && ch in w.details
    requires forall d :: d in w.details && d != ch ==> Sound(w.limits, r, d, w.details[d])
    requires Sound(w.limits, r, ch, s)
    ensures Joined(w.(relay := r, details := w.details[ch := s]), max, timeout)
  {
  }

  lemma OthersStaySound(l: Budget, r: Relay.State, ds: map<Registry.ChanId, State>, a: Relay.Action, ch: Registry.ChanId)
    requires Relay.Conserved(r) && Relay.Enabled(r, a) && OfChannel(a) && Concerns(r, ch, a)
    requires forall d :: d in ds ==> Sound(l, r, d, ds[d])
    ensures forall d :: d in ds && d != ch ==> Sound(l, Relay.Do(r, a), d, ds[d])
  {
    forall d | d in ds && d != ch ensures Sound(l, Relay.Do(r, a), d, ds[d]) {
      SoundElsewhere(l, r, a, d, ds[d]);
    }
  }

  /** A step of the detailed channel that the manager does not see. */
  lemma Unseen(w: World, max: nat, timeout: int, ch: Registry.ChanId, s: State)
    requires Joined(w, max, timeout) && ch in w.details && Sound(w.limits, w.relay, ch, s)
    ensures Joined(w.(details := w.details[ch := s]), max, timeout)
  {
  }

  lemma EnterKeepsJoined(w: World, max: nat, timeout: int, t: nat)
    requires Joined(w, max, timeout) && Can(w, EnterFor(t))
    ensures Joined(Next(w, EnterFor(t)), max, timeout)
  {
    var ch := w.relay.calls[t].ch;
    var s, a := w.details[ch], Replace(EnterSet(Brought(w.relay, t)));
    ChannelFacts(w.limits, s);
    StepSimulated(w.relay, ch, s, a);
    Steps(Init(w.limits), s, a);
    Unseen(w, max, timeout, ch, Do(s, a));
  }

  lemma InstallKeepsJoined(w: World, max: nat, timeout: int, t: nat)
    requires Joined(w, max, timeout) && Can(w, InstallFor(t))
    ensures Joined(Next(w, InstallFor(t)), max, timeout)
  {
    var ch, a := w.relay.calls[t].ch, Relay.Calling(t, Relay.Install);
    var s := w.details[ch];
    ChannelFacts(w.limits, s);
    ManagerFacts(max, timeout, w.relay);
    InstallIsManagerStep(w.relay, t, s);
    Steps(Init(w.limits), s, Replace(Install));
    forall x | x in s.sub.joins ensures Settled(Relay.Do(w.relay, a), ch, x) { SettledStays(w.relay, a, ch, x); }
    OneChannel(w, max, timeout, a, ch, Do(s, Replace(Install)));
  }

  /** A subscriber that is still connecting has joined no channel. */
  lemma NotYetJoined(r: Relay.State, t: nat, b: Sub)
    requires Relay.Conserved(r) && Relay.Named(r) && Relay.CanCall(r, t, Relay.Admit) && AllSettled(r, r.calls[t].ch, b)
    ensures r.calls[t].id !in b.joins
  {
    CallMoves(r, t);
    assert r.calls[t].conn in Relay.Carries(r.calls[t]);
    assert !Settled(r, r.calls[t].ch, r.calls[t].id);
  }

  lemma AdmitKeepsJoined(w: World, max: nat, timeout: int, t: nat)
    requires Joined(w, max, timeout) && Can(w, AdmitFor(t))
    ensures Joined(Next(w, AdmitFor(t)), max, timeout)
  {
    var k, a, join := w.relay.calls[t], Relay.Calling(t, Relay.Admit), JoinOf(w.relay, t);
    var s := w.details[k.ch];
    ManagerFacts(max, timeout, w.relay);
    NotYetJoined(w.relay, t, s.sub);
    AdmitIsManagerStep(w.relay, t, s);
    forall x | x in s.sub.joins ensures Settled(Relay.Do(w.relay, a), k.ch, x) { SettledStays(w.relay, a, k.ch, x); }
    if Enabled(s, join) {
      Steps(Init(w.limits), s, join);
      AdmittedIsSettled(w.relay, t);
      OneChannel(w, max, timeout, a, k.ch, Do(s, join));
    } else {
      OneChannel(w, max, timeout, a, k.ch, s);
    }
  }

  lemma AdmittedIsSettled(r: Relay.State, t: nat)
    requires Relay.Conserved(r) && Relay.Named(r) && Relay.CanCall(r, t, Relay.Admit)
    requires Relay.Holds(Relay.DoAdmit(r, t), r.calls[t].conn, Relay.Subscribed(r.calls[t].ch, r.calls[t].id))
    ensures Settled(Relay.DoAdmit(r, t), r.calls[t].ch, r.calls[t].id)
  {
    Relay.AdmitConserves(r, t);
  }

  lemma ForwardJoins(s: State, g: nat, a: FwdAct)
    requires CanForward(s.pub, g, a)
    ensures DoForward(s, g, a).sub.joins == s.sub.joins
  {
  }

  lemma CastJoins(s: State, who: Caster, a: CastAct)
    requires CanCast(s.pub, who, a)
    ensures DoCast(s, who, a).sub.joins == s.sub.joins
  {
  }

  lemma SubscriberJoins(p: Pub, b: Sub, x: SubId, a: SubAct)
    requires CanSubscribe(p, b, x, a) && !a.JoinInsert?
    ensures DoSubscribe(p, b, x, a).joins.Keys == b.joins.Keys
  {
  }

  /** Nothing else inserts subscribers. */
  lemma OwnJoins(s: State, a: Action)
    requires Enabled(s, a) && !OfCall(a)
    ensures Do(s, a).sub.joins.Keys == s.sub.joins.Keys
  {
    match a
    case Forward(g, f) => ForwardJoins(s, g, f);
    case Broadcast(who, c) => CastJoins(s, who, c);
    case Subscriber(x, b) => SubscriberJoins(s.pub, s.sub, x, b);
    case Replace(r) =>
    case Timer(t) =>
    case Shutdown(c) =>
  }

  lemma OwnKeepsJoined(w: World, max: nat, timeout: int, ch: Registry.ChanId, a: Action)
    requires Joined(w, max, timeout) && Can(w, Own(ch, a))
    ensures Joined(Next(w, Own(ch, a)), max, timeout)
  {
    var s := w.details[ch];
    ChannelFacts(w.limits, s);
    ManagerFacts(max, timeout, w.relay);
    StepSimulated(w.relay, ch, s, a);
    Steps(Init(w.limits), s, a);
    OwnJoins(s, a);
    match Match(s, a)
    case None =>
      assert forall x :: x in Do(s, a).sub.joins ==> x in Do(s, a).sub.joins.Keys && x in s.sub.joins;
      Unseen(w, max, timeout, ch, Do(s, a));
    case Some(v) =>
      var b := Relay.Within(ch, v);
      forall x | x in Do(s, a).sub.joins ensures Settled(Relay.Do(w.relay, b), ch, x) {
        assert x in Do(s, a).sub.joins.Keys && x in s.sub.joins;
        SettledStays(w.relay, b, ch, x);
      }
      OneChannel(w, max, timeout, b, ch, Do(s, a));
  }

  lemma {:induction false} Projects(l: Budget, max: nat, timeout: int, sts: seq<Step>)
    requires History(Start(l, max, timeout), sts)
    ensures Joined(Reached(Start(l, max, timeout), sts), max, timeout) && Reached(Start(l, max, timeout), sts).limits == l
  {
    if sts == [] {
      RelayRuns.Start(Relay.Init(max, timeout));
    } else {
      var w, st := Reached(Start(l, max, timeout), sts[..|sts| - 1]), sts[|sts| - 1];
      Projects(l, max, timeout, sts[..|sts| - 1]);
      match st
      case Managing(a) => ManagingKeeps(w, max, timeout, a);
      case EnterFor(t) => EnterKeepsJoined(w, max, timeout, t);
      case InstallFor(t) => InstallKeepsJoined(w, max, timeout, t);
      case AdmitFor(t) => AdmitKeepsJoined(w, max, timeout, t);
      case Own(ch, a) => OwnKeepsJoined(w, max, timeout, ch, a);
    }
  }

  // --------------------------------------------------------------------- theorems

  /** Composition: whatever the manager and any number of detailed channels do
      together, the manager's part is a run of `Relay`, every channel's part is a run
      of `Channel`, and the manager's view of each channel is what the channel is. */
  lemma ComposedRunsProject(l: Budget, max: nat, timeout: int, sts: seq<Step>) returns (calls: seq<Relay.Action>)
    requires History(Start(l, max, timeout), sts)
    ensures var w := Reached(Start(l, max, timeout), sts);
            && Relay.Run(Relay.Init(max, timeout), calls) && Relay.After(Relay.Init(max, timeout), calls) == w.relay
            && w.details.Keys == w.relay.chans.Keys
            && (forall ch :: ch in w.details ==> Reaches(Init(l), w.details[ch]) && ShowsAt(w.relay, ch, w.details[ch]))
  {
    Projects(l, max, timeout, sts);
    var w := Reached(Start(l, max, timeout), sts);
    calls :| Relay.Run(Relay.Init(max, timeout), calls) && Relay.After(Relay.Init(max, timeout), calls) == w.relay;
  }

  /** In particular, once a channel's close callback has run, no connection is left
      with it, be it as publisher, on its way out, or as subscriber. */
  lemma FinishedHoldsNothing(l: Budget, max: nat, timeout: int, sts: seq<Step>, ch: Registry.ChanId, c: Conn, p: Relay.Place)
    requires History(Start(l, max, timeout), sts)
    requires var w := Reached(Start(l, max, timeout), sts);
             ch in w.details && w.details[ch].pub.callbacks > 0 && Relay.Holds(w.relay, c, p)
    ensures !(p.Publishing? || p.Leaving? || p.Subscribed?) || p.ch != ch
  {
    var calls := ComposedRunsProject(l, max, timeout, sts);
    var w := Reached(Start(l, max, timeout), sts);
    ChannelFacts(l, w.details[ch]);
    Relay.RunHollows(max, timeout, calls);
    assert Relay.Hollow(w.relay.chans[ch]) && w.relay.chans[ch].stage == Relay.Gone;
  }
}
