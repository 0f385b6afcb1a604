/** Deadlock freedom of the relay.

    Every goroutine of the relay is reduced to the sequence of its lock
    operations, for every way its branches and loops can go. Waiting for
    publisherWg is an acquisition too: a forwarder holds the wait group from its
    start to its end, and Wait() acquires it exclusively for an instant. Any
    number of goroutines, over any number of channels sharing one manager, run
    interleaved. */
module Locks {
  import opened Wire

  type Chan = nat

  datatype Lock =
    | ReplaceMu(ch: Chan)
    | ForwarderWg(ch: Chan)
    | ManagerMu
    | PublisherWriteMu(ch: Chan)
    | PublisherMu(ch: Chan)
    | SubscribersMu(ch: Chan)
    | ControllerMu(ch: Chan)
    | OutputBufferMu(ch: Chan)
    | SubscriberWriteMu(ch: Chan, id: SubId)
    | ClosedMu(ch: Chan)

  /** The one order that all acquisitions respect. */
  function Rank(l: Lock): nat {
    match l
    case ReplaceMu(_) => 0
    case ForwarderWg(_) => 1
    case ManagerMu => 2
    case PublisherWriteMu(_) => 3
    case PublisherMu(_) => 4
    case SubscribersMu(_) => 5
    case ControllerMu(_) => 6
    case OutputBufferMu(_) => 7
    case SubscriberWriteMu(_, _) => 8
    case ClosedMu(_) => 9
  }

  datatype Mode = Shared | Exclusive

  datatype Op = Acquire(lock: Lock, mode: Mode) | Release(lock: Lock)

  // ----------------------------------------------------------- lock programs

  function Section(l: Lock, m: Mode): seq<Op> {
    [Acquire(l, m), Release(l)]
  }

  /** Exclusive critical sections one after the other. */
  function Sections(ls: seq<Lock>): seq<Op> {
    if ls == [] then [] else Section(ls[0], Exclusive) + Sections(ls[1..])
  }

  function Times(n: nat, l: Lock): seq<Lock> {
    seq(n, _ => l)
  }

  function Within(l: Lock, m: Mode, inner: seq<Op>): seq<Op> {
    [Acquire(l, m)] + inner + [Release(l)]
  }

  /** RemoveSubscriber: `found` in the map, and `last` one to leave it. */
  datatype Removal = Removal(found: bool, last: bool)

  function RemoveCode(c: Chan, r: Removal): seq<Op> {
    Section(SubscribersMu(c), Exclusive) +
    (if r.found then Section(ControllerMu(c), Exclusive) else []) +
    (if r.found && r.last then Section(SubscribersMu(c), Exclusive) else [])
  }

  function RemovalsCode(c: Chan, rs: seq<Removal>): seq<Op> {
    if rs == [] then [] else RemoveCode(c, rs[0]) + RemovalsCode(c, rs[1..])
  }

  function WriteLocks(c: Chan, ids: seq<SubId>): seq<Lock> {
    seq(|ids|, i requires 0 <= i < |ids| => SubscriberWriteMu(c, ids[i]))
  }

  /** Broadcast: a snapshot, a write to each of `writes`, a removal per failure. */
  datatype Cast = Cast(writes: seq<SubId>, removals: seq<Removal>)

  function CastCode(c: Chan, k: Cast): seq<Op> {
    Section(SubscribersMu(c), Shared) + Sections(WriteLocks(c, k.writes)) + RemovalsCode(c, k.removals)
  }

  /** SetPublisher: refused because closed, the same connection again, or a
      replacement, with a broadcast when the publisher had been disconnected. */
  datatype Replacement = Refused | SameConn | Replaced(announce: Option<Cast>)

  function SetPublisherCode(c: Chan, r: Replacement): seq<Op> {
    Within(ReplaceMu(c), Exclusive,
           Within(PublisherMu(c), Exclusive, Section(ClosedMu(c), Shared)) +
           (if r.Replaced? then
              Section(ForwarderWg(c), Exclusive) +
              (if r.announce.Some? then CastCode(c, r.announce.value) else [])
            else []))
  }

  /** closeInternal up to and including the callback into the manager. */
  function CloseInternalCode(c: Chan, first: bool): seq<Op> {
    Sections(if first then
               [ClosedMu(c), SubscribersMu(c), PublisherMu(c), ForwarderWg(c),
                SubscribersMu(c), OutputBufferMu(c), ManagerMu]
             else
               [ClosedMu(c)])
  }

  function CloseCode(c: Chan, first: bool): seq<Op> {
    Within(ReplaceMu(c), Exclusive, CloseInternalCode(c, first))
  }

  function TimerCode(c: Chan, still: bool, first: bool): seq<Op> {
    Within(ReplaceMu(c), Exclusive,
           Section(PublisherMu(c), Exclusive) + (if still then CloseInternalCode(c, first) else []))
  }

  /** One message through the forwarder: `buffered` critical sections of the
      output buffer (none, one for output, two for a snapshot), then a broadcast. */
  datatype Forwarded = Forwarded(buffered: nat, cast: Cast)

  function ForwardedCode(c: Chan, ms: seq<Forwarded>): seq<Op> {
    if ms == [] then []
    else Sections(Times(ms[0].buffered, OutputBufferMu(c))) + CastCode(c, ms[0].cast) + ForwardedCode(c, ms[1..])
  }

  /** The forwarder; `farewell` is its broadcast when its own disconnect counts. */
  function ForwarderCode(c: Chan, ms: seq<Forwarded>, farewell: Option<Cast>): seq<Op> {
    Section(PublisherMu(c), Shared) +
    ForwardedCode(c, ms) +
    Section(PublisherMu(c), Exclusive) +
    (if farewell.Some? then CastCode(c, farewell.value) else [])
  }

  datatype Admission = Rejected | Admitted(replayed: nat, down: bool)

  function AddSubscriberCode(c: Chan, x: SubId, a: Admission): seq<Op> {
    Within(SubscribersMu(c), Exclusive, Section(ClosedMu(c), Shared)) +
    (if a.Admitted? then
       Section(OutputBufferMu(c), Shared) +
       Sections(Times(a.replayed, SubscriberWriteMu(c, x))) +
       Section(PublisherMu(c), Shared) +
       Sections(Times(if a.down then 1 else 0, SubscriberWriteMu(c, x)))
     else [])
  }

  /** What a subscriber's reader does with one message. */
  datatype Incoming =
    | Garbage
    | ControlMessage(locked: nat, present: bool)  // sections of controllerMu, then the answer
    | Typed(allowed: bool)
    | Ping
    | Passthrough

  function ToPublisherCode(c: Chan): seq<Op> {
    Within(PublisherWriteMu(c), Exclusive, Section(PublisherMu(c), Shared))
  }

  function IncomingCode(c: Chan, x: SubId, m: Incoming): seq<Op> {
    match m
    case Garbage => []
    case ControlMessage(locked, present) =>
      Sections(Times(locked, ControllerMu(c))) + Section(SubscribersMu(c), Shared) +
      (if present then Section(SubscriberWriteMu(c, x), Exclusive) else [])
    case Typed(allowed) => Section(ControllerMu(c), Shared) + (if allowed then ToPublisherCode(c) else [])
    case Ping => Section(SubscriberWriteMu(c, x), Exclusive)
    case Passthrough => ToPublisherCode(c)
  }

  function AllIncomingCode(c: Chan, x: SubId, ms: seq<Incoming>): seq<Op> {
    if ms == [] then [] else IncomingCode(c, x, ms[0]) + AllIncomingCode(c, x, ms[1..])
  }

  function StatsCode(cs: seq<Chan>): seq<Op> {
    if cs == [] then [] else Section(SubscribersMu(cs[0]), Shared) + StatsCode(cs[1..])
  }

  function CloseAllCode(cs: seq<(Chan, bool)>): seq<Op> {
    if cs == [] then [] else CloseCode(cs[0].0, cs[0].1) + CloseAllCode(cs[1..])
  }

  /** Every goroutine there can be, with every outcome of its branches. */
  datatype Goroutine =
    | Forwarder(ch: Chan, messages: seq<Forwarded>, farewell: Option<Cast>)
    | StaleForwarder(ch: Chan)
    | ReconnectTimer(ch: Chan, still: bool, first: bool)
    | KeepAliveTimer(ch: Chan, closed: bool)
    | Reader(ch: Chan, id: SubId, typed: seq<Incoming>, removal: Removal)
    | PublisherReconnect(ch: Chan, replacement: Replacement)
    | SubscriberJoin(ch: Chan, id: SubId, admission: Admission)
    | PairUp(ch: Chan, replacement: Replacement, id: SubId, admission: Admission)
    | ParkOrCleanup
    | CloseChannel(ch: Chan, first: bool)
    | CloseManager(chans: seq<(Chan, bool)>)
    | Stats(listed: seq<Chan>)

  function Code(g: Goroutine): seq<Op> {
    match g
    case Forwarder(c, ms, farewell) => ForwarderCode(c, ms, farewell) + [Release(ForwarderWg(c))]
    case StaleForwarder(c) => Section(PublisherMu(c), Shared) + [Release(ForwarderWg(c))]
    case ReconnectTimer(c, still, first) => TimerCode(c, still, first)
    case KeepAliveTimer(c, closed) =>
      Section(ClosedMu(c), Shared) + (if closed then [] else Section(SubscribersMu(c), Shared))
    case Reader(c, x, ms, r) => Section(SubscribersMu(c), Shared) + AllIncomingCode(c, x, ms) + RemoveCode(c, r)
    case PublisherReconnect(c, r) => Section(ManagerMu, Exclusive) + SetPublisherCode(c, r)
    case SubscriberJoin(c, x, a) => Section(ManagerMu, Exclusive) + AddSubscriberCode(c, x, a)
    case PairUp(c, r, x, a) => Section(ManagerMu, Exclusive) + SetPublisherCode(c, r) + AddSubscriberCode(c, x, a)
    case ParkOrCleanup => Section(ManagerMu, Exclusive)
    case CloseChannel(c, first) => Section(ManagerMu, Exclusive) + CloseCode(c, first)
    case CloseManager(cs) => Section(ManagerMu, Exclusive) + CloseAllCode(cs)
    case Stats(cs) => Within(ManagerMu, Shared, StatsCode(cs))
  }

  /** A forwarder is counted by the wait group before it runs. */
  function Initially(g: Goroutine): map<Lock, Mode> {
    match g
    case Forwarder(c, _, _) => map[ForwarderWg(c) := Mode.Shared]
    case StaleForwarder(c) => map[ForwarderWg(c) := Mode.Shared]
    case _ => map[]
  }

  // ------------------------------------------------------------ lock discipline

  predicate Below(held: set<Lock>, r: nat) {
    forall h :: h in held ==> Rank(h) < r
  }

  /** Waiting for a channel's forwarder, and setting its closed flag, is done under that
      channel's publisherReplaceMu only, which is a plain mutex. */
  predicate Under(l: Lock, m: Mode, held: set<Lock>) {
    && ((l.ForwarderWg? || l.ClosedMu?) && m == Exclusive ==> ReplaceMu(l.ch) in held)
    && (l.ReplaceMu? ==> m == Exclusive)
  }

  /** Each acquisition is above everything held and where it belongs, each release is of
      a held lock. */
  predicate Fine(code: seq<Op>, held: set<Lock>) {
    code == [] ||
    match code[0]
    case Acquire(l, m) => Below(held, Rank(l)) && Under(l, m, held) && Fine(code[1..], held + {l})
    case Release(l) => l in held && Fine(code[1..], held - {l})
  }

  function Leaves(code: seq<Op>, held: set<Lock>): set<Lock> {
    if code == [] then held
    else match code[0]
         case Acquire(l, _) => Leaves(code[1..], held + {l})
         case Release(l) => Leaves(code[1..], held - {l})
  }

  predicate Balanced(code: seq<Op>, held: set<Lock>) {
    Fine(code, held) && Leaves(code, held) == held
  }

  lemma {:induction false} FineAppend(a: seq<Op>, b: seq<Op>, held: set<Lock>)
    requires Fine(a, held) && Fine(b, Leaves(a, held))
    ensures Fine(a + b, held) && Leaves(a + b, held) == Leaves(b, Leaves(a, held))
  {
    if a == [] {
      assert a + b == b;
    } else {
      assert (a + b)[1..] == a[1..] + b;
      match a[0]
      case Acquire(l, _) => FineAppend(a[1..], b, held + {l});
      case Release(l) => FineAppend(a[1..], b, held - {l});
    }
  }

  lemma SectionBalanced(l: Lock, m: Mode, held: set<Lock>)
    requires Below(held, Rank(l)) && Under(l, m, held)
    ensures Balanced(Section(l, m), held)
  {
    assert l !in held;
    assert held + {l} - {l} == held;
    assert Section(l, m)[1..] == [Release(l)];
    ReleaseLast(l, held + {l});
  }

  lemma ReleaseLast(l: Lock, held: set<Lock>)
    requires l in held
    ensures Fine([Release(l)], held) && Leaves([Release(l)], held) == held - {l}
  {
    assert [Release(l)][1..] == [];
  }

  lemma WithinBalanced(l: Lock, m: Mode, inner: seq<Op>, held: set<Lock>)
    requires Below(held, Rank(l)) && Under(l, m, held) && Balanced(inner, held + {l})
    ensures Balanced(Within(l, m, inner), held)
  {
    assert l !in held;
    assert held + {l} - {l} == held;
    ReleaseLast(l, held + {l});
    FineAppend(inner, [Release(l)], held + {l});
    assert Within(l, m, inner) == [Acquire(l, m)] + (inner + [Release(l)]);
    assert Within(l, m, inner)[1..] == inner + [Release(l)];
  }

  lemma Then(a: seq<Op>, b: seq<Op>, held: set<Lock>)
    requires Balanced(a, held) && Balanced(b, held)
    ensures Balanced(a + b, held)
  {
    FineAppend(a, b, held);
  }

  lemma {:induction false} SectionsBalanced(ls: seq<Lock>, held: set<Lock>)
    requires forall l :: l in ls ==> Below(held, Rank(l)) && Under(l, Exclusive, held)
    ensures Balanced(Sections(ls), held)
  {
    if ls != [] {
      SectionBalanced(ls[0], Exclusive, held);
      SectionsBalanced(ls[1..], held);
      Then(Section(ls[0], Exclusive), Sections(ls[1..]), held);
    }
  }

  // --------------------------------------- every goroutine keeps the discipline

  lemma RemoveBalanced(c: Chan, r: Removal, held: set<Lock>)
    requires Below(held, 5)
    ensures Balanced(RemoveCode(c, r), held)
  {
    SectionBalanced(SubscribersMu(c), Exclusive, held);
    SectionBalanced(ControllerMu(c), Exclusive, held);
    var a := Section(SubscribersMu(c), Exclusive);
    var b := if r.found then Section(ControllerMu(c), Exclusive) else [];
    Then(a, b, held);
    Then(a + b, if r.found && r.last then Section(SubscribersMu(c), Exclusive) else [], held);
  }

  lemma {:induction false} RemovalsBalanced(c: Chan, rs: seq<Removal>, held: set<Lock>)
    requires Below(held, 5)
    ensures Balanced(RemovalsCode(c, rs), held)
  {
    if rs != [] {
      RemoveBalanced(c, rs[0], held);
      RemovalsBalanced(c, rs[1..], held);
      Then(RemoveCode(c, rs[0]), RemovalsCode(c, rs[1..]), held);
    }
  }

  lemma CastBalanced(c: Chan, k: Cast, held: set<Lock>)
    requires Below(held, 5)
    ensures Balanced(CastCode(c, k), held)
  {
    SectionBalanced(SubscribersMu(c), Mode.Shared, held);
    SectionsBalanced(WriteLocks(c, k.writes), held);
    RemovalsBalanced(c, k.removals, held);
    var a := Section(SubscribersMu(c), Mode.Shared);
    Then(a, Sections(WriteLocks(c, k.writes)), held);
    Then(a + Sections(WriteLocks(c, k.writes)), RemovalsCode(c, k.removals), held);
  }

  lemma SetPublisherBalanced(c: Chan, r: Replacement)
    ensures Balanced(SetPublisherCode(c, r), {})
  {
    var held := {ReplaceMu(c)};
    assert {} + {ReplaceMu(c)} == held;
    SectionBalanced(ClosedMu(c), Mode.Shared, held + {PublisherMu(c)});
    var install := Within(PublisherMu(c), Exclusive, Section(ClosedMu(c), Mode.Shared));
    WithinBalanced(PublisherMu(c), Exclusive, Section(ClosedMu(c), Mode.Shared), held);
    var tail: seq<Op> := [];
    if r.Replaced? {
      SectionBalanced(ForwarderWg(c), Exclusive, held);
      var announce: seq<Op> := if r.announce.Some? then CastCode(c, r.announce.value) else [];
      if r.announce.Some? { CastBalanced(c, r.announce.value, held); }
      Then(Section(ForwarderWg(c), Exclusive), announce, held);
      tail := Section(ForwarderWg(c), Exclusive) + announce;
    }
    Then(install, tail, held);
    WithinBalanced(ReplaceMu(c), Exclusive, install + tail, {});
  }

  /** The close callback takes the manager's lock while publisherReplaceMu is
      held, after waiting for the forwarder: all three in rank order. */
  lemma CloseInternalBalanced(c: Chan, first: bool)
    ensures Balanced(CloseInternalCode(c, first), {ReplaceMu(c)})
  {
    SectionsBalanced(if first then
                       [ClosedMu(c), SubscribersMu(c), PublisherMu(c), ForwarderWg(c),
                        SubscribersMu(c), OutputBufferMu(c), ManagerMu]
                     else
                       [ClosedMu(c)], {ReplaceMu(c)});
  }

  lemma CloseBalanced(c: Chan, first: bool)
    ensures Balanced(CloseCode(c, first), {})
  {
    assert {} + {ReplaceMu(c)} == {ReplaceMu(c)};
    CloseInternalBalanced(c, first);
    WithinBalanced(ReplaceMu(c), Exclusive, CloseInternalCode(c, first), {});
  }

  lemma TimerBalanced(c: Chan, still: bool, first: bool)
    ensures Balanced(TimerCode(c, still, first), {})
  {
    var held := {ReplaceMu(c)};
    assert {} + {ReplaceMu(c)} == held;
    CloseInternalBalanced(c, first);
    SectionBalanced(PublisherMu(c), Exclusive, held);
    var tail := if still then CloseInternalCode(c, first) else [];
    Then(Section(PublisherMu(c), Exclusive), tail, held);
    WithinBalanced(ReplaceMu(c), Exclusive, Section(PublisherMu(c), Exclusive) + tail, {});
  }

  lemma {:induction false} ForwardedBalanced(c: Chan, ms: seq<Forwarded>)
    ensures Balanced(ForwardedCode(c, ms), {ForwarderWg(c)})
  {
    if ms != [] {
      var held, bufs := {ForwarderWg(c)}, Times(ms[0].buffered, OutputBufferMu(c));
      SectionsBalanced(bufs, held);
      CastBalanced(c, ms[0].cast, held);
      ForwardedBalanced(c, ms[1..]);
      Then(Sections(bufs), CastCode(c, ms[0].cast), held);
      Then(Sections(bufs) + CastCode(c, ms[0].cast), ForwardedCode(c, ms[1..]), held);
    }
  }

  lemma ForwarderBalanced(c: Chan, ms: seq<Forwarded>, farewell: Option<Cast>)
    ensures Balanced(ForwarderCode(c, ms, farewell), {ForwarderWg(c)})
  {
    var held := {ForwarderWg(c)};
    var a, b, d := Section(PublisherMu(c), Mode.Shared), ForwardedCode(c, ms), Section(PublisherMu(c), Exclusive);
    SectionBalanced(PublisherMu(c), Mode.Shared, held);
    SectionBalanced(PublisherMu(c), Exclusive, held);
    ForwardedBalanced(c, ms);
    Then(a, b, held);
    Then(a + b, d, held);
    if farewell.Some? { CastBalanced(c, farewell.value, held); }
    Then(a + b + d, if farewell.Some? then CastCode(c, farewell.value) else [], held);
  }

  lemma AddSubscriberBalanced(c: Chan, x: SubId, a: Admission)
    ensures Balanced(AddSubscriberCode(c, x, a), {})
  {
    assert {} + {SubscribersMu(c)} == {SubscribersMu(c)};
    SectionBalanced(ClosedMu(c), Mode.Shared, {SubscribersMu(c)});
    WithinBalanced(SubscribersMu(c), Exclusive, Section(ClosedMu(c), Mode.Shared), {});
    var insert := Within(SubscribersMu(c), Exclusive, Section(ClosedMu(c), Mode.Shared));
    if a.Admitted? {
      var replay := Sections(Times(a.replayed, SubscriberWriteMu(c, x)));
      var status := Sections(Times(if a.down then 1 else 0, SubscriberWriteMu(c, x)));
      SectionsBalanced(Times(a.replayed, SubscriberWriteMu(c, x)), {});
      SectionsBalanced(Times(if a.down then 1 else 0, SubscriberWriteMu(c, x)), {});
      SectionBalanced(OutputBufferMu(c), Mode.Shared, {});
      SectionBalanced(PublisherMu(c), Mode.Shared, {});
      var p, q := Section(OutputBufferMu(c), Mode.Shared), Section(PublisherMu(c), Mode.Shared);
      Then(p, replay, {});
      Then(p + replay, q, {});
      Then(p + replay + q, status, {});
      Then(insert, p + replay + q + status, {});
    } else {
      assert insert + [] == insert;
    }
  }

  lemma IncomingBalanced(c: Chan, x: SubId, m: Incoming)
    ensures Balanced(IncomingCode(c, x, m), {})
  {
    SectionBalanced(PublisherMu(c), Mode.Shared, {} + {PublisherWriteMu(c)});
    WithinBalanced(PublisherWriteMu(c), Exclusive, Section(PublisherMu(c), Mode.Shared), {});
    SectionBalanced(SubscriberWriteMu(c, x), Exclusive, {});
    match m
    case Garbage =>
    case ControlMessage(locked, present) =>
      var a := Sections(Times(locked, ControllerMu(c)));
      SectionsBalanced(Times(locked, ControllerMu(c)), {});
      SectionBalanced(SubscribersMu(c), Mode.Shared, {});
      Then(a, Section(SubscribersMu(c), Mode.Shared), {});
      Then(a + Section(SubscribersMu(c), Mode.Shared),
           if present then Section(SubscriberWriteMu(c, x), Exclusive) else [], {});
    case Typed(allowed) =>
      SectionBalanced(ControllerMu(c), Mode.Shared, {});
      Then(Section(ControllerMu(c), Mode.Shared), if allowed then ToPublisherCode(c) else [], {});
    case Ping =>
    case Passthrough =>
  }

  lemma {:induction false} AllIncomingBalanced(c: Chan, x: SubId, ms: seq<Incoming>)
    ensures Balanced(AllIncomingCode(c, x, ms), {})
  {
    if ms != [] {
      IncomingBalanced(c, x, ms[0]);
      AllIncomingBalanced(c, x, ms[1..]);
      Then(IncomingCode(c, x, ms[0]), AllIncomingCode(c, x, ms[1..]), {});
    }
  }

  lemma {:induction false} StatsBalanced(cs: seq<Chan>)
    ensures Balanced(StatsCode(cs), {ManagerMu})
  {
    if cs != [] {
      SectionBalanced(SubscribersMu(cs[0]), Mode.Shared, {ManagerMu});
      StatsBalanced(cs[1..]);
      Then(Section(SubscribersMu(cs[0]), Mode.Shared), StatsCode(cs[1..]), {ManagerMu});
    }
  }

  lemma {:induction false} CloseAllBalanced(cs: seq<(Chan, bool)>)
    ensures Balanced(CloseAllCode(cs), {})
  {
    if cs != [] {
      CloseBalanced(cs[0].0, cs[0].1);
      CloseAllBalanced(cs[1..]);
      Then(CloseCode(cs[0].0, cs[0].1), CloseAllCode(cs[1..]), {});
    }
  }

  /** A goroutine's remaining code respects the ranks and lets go of everything. */
  predicate Disciplined(code: seq<Op>, held: set<Lock>) {
    Fine(code, held) && Leaves(code, held) == {}
  }

  lemma ForwarderDisciplined(c: Chan, code: seq<Op>)
    requires Balanced(code, {ForwarderWg(c)})
    ensures Disciplined(code + [Release(ForwarderWg(c))], {ForwarderWg(c)})
  {
    ReleaseLast(ForwarderWg(c), {ForwarderWg(c)});
    FineAppend(code, [Release(ForwarderWg(c))], {ForwarderWg(c)});
  }

  /** Every goroutine of the relay, on every path, acquires in rank order. */
  lemma EveryGoroutineDisciplined(g: Goroutine)
    ensures Disciplined(Code(g), Initially(g).Keys)
  {
    SectionBalanced(ManagerMu, Exclusive, {});
    assert !g.Forwarder? && !g.StaleForwarder? ==> Initially(g).Keys == {};
    match g
    case Forwarder(c, ms, farewell) =>
      ForwarderBalanced(c, ms, farewell);
      ForwarderDisciplined(c, ForwarderCode(c, ms, farewell));
      assert Initially(g).Keys == {ForwarderWg(c)};
    case StaleForwarder(c) =>
      SectionBalanced(PublisherMu(c), Mode.Shared, {ForwarderWg(c)});
      ForwarderDisciplined(c, Section(PublisherMu(c), Mode.Shared));
      assert Initially(g).Keys == {ForwarderWg(c)};
    case ReconnectTimer(c, still, first) => TimerBalanced(c, still, first);
    case KeepAliveTimer(c, closed) =>
      SectionBalanced(ClosedMu(c), Mode.Shared, {});
      SectionBalanced(SubscribersMu(c), Mode.Shared, {});
      Then(Section(ClosedMu(c), Mode.Shared), if closed then [] else Section(SubscribersMu(c), Mode.Shared), {});
    case Reader(c, x, ms, r) =>
      SectionBalanced(SubscribersMu(c), Mode.Shared, {});
      AllIncomingBalanced(c, x, ms);
      RemoveBalanced(c, r, {});
      Then(Section(SubscribersMu(c), Mode.Shared), AllIncomingCode(c, x, ms), {});
      Then(Section(SubscribersMu(c), Mode.Shared) + AllIncomingCode(c, x, ms), RemoveCode(c, r), {});
    case PublisherReconnect(c, r) =>
      SetPublisherBalanced(c, r);
      Then(Section(ManagerMu, Exclusive), SetPublisherCode(c, r), {});
    case SubscriberJoin(c, x, a) =>
      AddSubscriberBalanced(c, x, a);
      Then(Section(ManagerMu, Exclusive), AddSubscriberCode(c, x, a), {});
    case PairUp(c, r, x, a) =>
      SetPublisherBalanced(c, r);
      AddSubscriberBalanced(c, x, a);
      Then(Section(ManagerMu, Exclusive), SetPublisherCode(c, r), {});
      Then(Section(ManagerMu, Exclusive) + SetPublisherCode(c, r), AddSubscriberCode(c, x, a), {});
    case ParkOrCleanup =>
    case CloseChannel(c, first) =>
      CloseBalanced(c, first);
      Then(Section(ManagerMu, Exclusive), CloseCode(c, first), {});
    case CloseManager(cs) =>
      CloseAllBalanced(cs);
      Then(Section(ManagerMu, Exclusive), CloseAllCode(cs), {});
    case Stats(cs) =>
      StatsBalanced(cs);
      assert {} + {ManagerMu} == {ManagerMu};
      WithinBalanced(ManagerMu, Mode.Shared, StatsCode(cs), {});
  }

  // --------------------------------------------------------------- executions

  datatype Thread = Thread(held: map<Lock, Mode>, code: seq<Op>)

  type Threads = map<nat, Thread>

  predicate Unfinished(ts: Threads, t: nat) {
    t in ts && ts[t].code != []
  }

  /** `u` holds the lock that `t` asks for, in a conflicting mode. */
  predicate Conflicts(ts: Threads, t: nat, u: nat) {
    && Unfinished(ts, t) && u in ts && ts[t].code[0].Acquire?
    && var l := ts[t].code[0].lock;
       l in ts[u].held && (ts[t].code[0].mode == Exclusive || ts[u].held[l] == Exclusive)
  }

  /** `u` may keep `t` from going on: by holding the lock or, since a pending
      writer keeps readers out, by being about to take exclusively what `t` asks
      to share. */
  predicate WaitsFor(ts: Threads, t: nat, u: nat) {
    || Conflicts(ts, t, u)
    || (&& Unfinished(ts, t) && Unfinished(ts, u) && ts[t].code[0].Acquire? && ts[t].code[0].mode == Mode.Shared
        && ts[u].code[0] == Acquire(ts[t].code[0].lock, Exclusive))
  }

  /** Possibly blocked; a goroutine that is not can go in either case. */
  ghost predicate Blocked(ts: Threads, t: nat) {
    exists u :: WaitsFor(ts, t, u)
  }

  datatype Event = Start(t: nat, g: Goroutine) | Go(t: nat)

  /** Only a conflicting holder certainly stops a goroutine: a reader may overtake
      a writer that has not asked for the lock yet, or may have to queue behind it. */
  ghost predicate Possible(ts: Threads, e: Event) {
    match e
    case Start(t, _) => t !in ts
    case Go(t) => Unfinished(ts, t) && forall u :: !Conflicts(ts, t, u)
  }

  function Perform(th: Thread): Thread
    requires th.code != []
  {
    match th.code[0]
    case Acquire(l, m) => Thread(th.held[l := m], th.code[1..])
    case Release(l) => Thread(th.held - {l}, th.code[1..])
  }

  function Next(ts: Threads, e: Event): Threads
    requires e.Go? ==> Unfinished(ts, e.t)
  {
    match e
    case Start(t, g) => ts[t := Thread(Initially(g), Code(g))]
    case Go(t) => ts[t := Perform(ts[t])]
  }

  /** The threads after a schedule, which may start goroutines at any time. */
  ghost predicate Schedule(es: seq<Event>)
    decreases |es|, 0
  {
    es == [] || (Schedule(es[..|es| - 1]) && Possible(Running(es[..|es| - 1]), es[|es| - 1]))
  }

  ghost function Running(es: seq<Event>): Threads
    requires Schedule(es)
    decreases |es|, 1
  {
    if es == [] then map[] else Next(Running(es[..|es| - 1]), es[|es| - 1])
  }

  ghost predicate AllDisciplined(ts: Threads) {
    forall t :: t in ts ==> Disciplined(ts[t].code, ts[t].held.Keys)
  }

  lemma {:induction false} ScheduleDisciplined(es: seq<Event>)
    requires Schedule(es)
    ensures AllDisciplined(Running(es))
  {
    if es != [] {
      var ts, e := Running(es[..|es| - 1]), es[|es| - 1];
      ScheduleDisciplined(es[..|es| - 1]);
      match e
      case Start(t, g) => EveryGoroutineDisciplined(g);
      case Go(t) =>
        assert Disciplined(ts[t].code, ts[t].held.Keys);
        var th := ts[t];
        match th.code[0]
        case Acquire(l, m) => assert th.held[l := m].Keys == th.held.Keys + {l};
        case Release(l) => assert (th.held - {l}).Keys == th.held.Keys - {l};
    }
  }

  // ----------------------------------------------------------------- exclusion

  /** Nobody shares a lock with somebody who holds it exclusively. The wait group is
      left out: it is counted up before its forwarder runs, without asking anybody. */
  ghost predicate Exclusion(ts: Threads) {
    forall t, u :: t in ts && u in ts && t != u ==> Compatible(ts[t], ts[u])
  }

  predicate Compatible(a: Thread, b: Thread) {
    forall l :: l in a.held && l in b.held && !l.ForwarderWg? ==> a.held[l] == Mode.Shared && b.held[l] == Mode.Shared
  }

  lemma ExclusionGo(ts: Threads, t: nat)
    requires Exclusion(ts) && Possible(ts, Go(t))
    ensures Exclusion(Next(ts, Go(t)))
  {
    var qs := Next(ts, Go(t));
    forall u, v | u in qs && v in qs && u != v ensures Compatible(qs[u], qs[v]) {
      assert Compatible(ts[u], ts[v]);
      assert !Conflicts(ts, t, u) && !Conflicts(ts, t, v);
    }
  }

  /** Mutual exclusion: in every schedule, of two goroutines that hold the same lock
      neither holds it exclusively. */
  lemma {:induction false} MutualExclusion(es: seq<Event>)
    requires Schedule(es)
    ensures Exclusion(Running(es))
  {
    if es != [] {
      MutualExclusion(es[..|es| - 1]);
      if es[|es| - 1].Go? { ExclusionGo(Running(es[..|es| - 1]), es[|es| - 1].t); }
    }
  }

  /** A goroutine in the middle of replacing, closing or timing out channel `c`: about to
      wait for the forwarder or to set the closed flag. */
  predicate Decides(ts: Threads, t: nat, c: Chan) {
    Unfinished(ts, t) && (ts[t].code[0] == Acquire(ForwarderWg(c), Exclusive) || ts[t].code[0] == Acquire(ClosedMu(c), Exclusive))
  }

  /** At most one goroutine at a time: in every schedule whoever waits for a channel's
      forwarder or decides that the channel is closed holds its publisherReplaceMu, and
      nobody else does. */
  lemma OneDecides(es: seq<Event>, t: nat, u: nat, c: Chan)
    requires Schedule(es) && Decides(Running(es), t, c) && u in Running(es)
    ensures ReplaceMu(c) in Running(es)[t].held
    ensures u != t ==> ReplaceMu(c) !in Running(es)[u].held && !Decides(Running(es), u, c)
  {
    ScheduleDisciplined(es);
    MutualExclusion(es);
    ReplaceMuIsExclusive(es);
    DeciderHolds(Running(es), t, c);
    if u != t {
      HeldOnce(Running(es), t, u, c);
      if Decides(Running(es), u, c) { DeciderHolds(Running(es), u, c); }
    }
  }

  lemma DeciderHolds(ts: Threads, t: nat, c: Chan)
    requires AllDisciplined(ts) && Decides(ts, t, c)
    ensures ReplaceMu(c) in ts[t].held
  {
    assert Disciplined(ts[t].code, ts[t].held.Keys);
  }

  lemma HeldOnce(ts: Threads, t: nat, u: nat, c: Chan)
    requires Exclusion(ts) && PlainMutex(ts) && t in ts && u in ts && t != u && ReplaceMu(c) in ts[t].held
    ensures ReplaceMu(c) !in ts[u].held
  {
    var l := ReplaceMu(c);
    assert ts[t].held[l] == Exclusive;
    assert Compatible(ts[t], ts[u]);
  }

  ghost predicate PlainMutex(ts: Threads) {
    forall t, c :: t in ts && ReplaceMu(c) in ts[t].held ==> ts[t].held[ReplaceMu(c)] == Exclusive
  }

  lemma {:induction false} ReplaceMuIsExclusive(es: seq<Event>)
    requires Schedule(es)
    ensures PlainMutex(Running(es))
  {
    if es != [] {
      var ts, e := Running(es[..|es| - 1]), es[|es| - 1];
      ReplaceMuIsExclusive(es[..|es| - 1]);
      ScheduleDisciplined(es[..|es| - 1]);
      assert e.Go? ==> Disciplined(ts[e.t].code, ts[e.t].held.Keys);
    }
  }

  /** A replacement waits for the forwarder exactly when it replaces, and a close or a
      timeout exactly when it is the one that closes. */
  lemma WhoWaits(c: Chan, r: Replacement, first: bool, still: bool)
    ensures Acquire(ForwarderWg(c), Exclusive) in SetPublisherCode(c, r) <==> r.Replaced?
    ensures Acquire(ForwarderWg(c), Exclusive) in CloseCode(c, first) <==> first
    ensures Acquire(ForwarderWg(c), Exclusive) in TimerCode(c, still, first) <==> still && first
  {
    var wait := Acquire(ForwarderWg(c), Exclusive);
    SectionsHave([ClosedMu(c), SubscribersMu(c), PublisherMu(c), ForwarderWg(c), SubscribersMu(c), OutputBufferMu(c), ManagerMu], c);
    SectionsHave([ClosedMu(c)], c);
    assert wait in Section(ForwarderWg(c), Exclusive) by { assert Section(ForwarderWg(c), Exclusive)[0] == wait; }
    if r.Replaced? && r.announce.Some? { CastNeverWaits(c, r.announce.value); }
  }

  lemma {:induction false} SectionsHave(ls: seq<Lock>, c: Chan)
    ensures Acquire(ForwarderWg(c), Exclusive) in Sections(ls) <==> ForwarderWg(c) in ls
  {
    if ls != [] {
      SectionsHave(ls[1..], c);
      assert Section(ls[0], Exclusive)[0] == Acquire(ls[0], Exclusive);
      assert ls == [ls[0]] + ls[1..];
    }
  }

  /** A broadcast waits for nobody's forwarder. */
  lemma CastNeverWaits(c: Chan, k: Cast)
    ensures Acquire(ForwarderWg(c), Exclusive) !in CastCode(c, k)
  {
    SectionsHave(WriteLocks(c, k.writes), c);
    RemovalsNeverWait(c, k.removals);
  }

  lemma {:induction false} RemovalsNeverWait(c: Chan, rs: seq<Removal>)
    ensures Acquire(ForwarderWg(c), Exclusive) !in RemovalsCode(c, rs)
  {
    if rs != [] {
      RemovalsNeverWait(c, rs[1..]);
    }
  }

  /** Strictly increases along every wait: the rank asked for, a writer counting
      as later than the readers it keeps out; a thread about to release is top. */
  function Height(th: Thread): nat
    requires th.code != []
  {
    match th.code[0]
    case Acquire(l, m) => 2 * Rank(l) + (if m == Exclusive then 1 else 0)
    case Release(_) => 20
  }

  lemma WaitsClimb(ts: Threads, t: nat, u: nat)
    requires AllDisciplined(ts) && WaitsFor(ts, t, u)
    ensures Unfinished(ts, u) && Height(ts[t]) < Height(ts[u])
  {
    assert Disciplined(ts[u].code, ts[u].held.Keys);
    assert Disciplined(ts[t].code, ts[t].held.Keys);
    var l := ts[t].code[0].lock;
    if l in ts[u].held {
      assert l in ts[u].held.Keys;
      assert ts[u].code != [];
      if ts[u].code[0].Acquire? {
        assert Rank(l) < Rank(ts[u].code[0].lock);
      }
    }
  }

  /** No schedule leads to a wait-for cycle. */
  lemma NoWaitCycle(es: seq<Event>, cycle: seq<nat>)
    requires Schedule(es) && |cycle| > 0
    ensures !(forall i :: 0 <= i < |cycle| ==> WaitsFor(Running(es), cycle[i], cycle[if i + 1 < |cycle| then i + 1 else 0]))
  {
    ScheduleDisciplined(es);
    var ts, n := Running(es), |cycle|;
    if forall i :: 0 <= i < n ==> WaitsFor(ts, cycle[i], cycle[if i + 1 < n then i + 1 else 0]) {
      for k := 0 to n - 1
        invariant WaitsFor(ts, cycle[k], cycle[if k + 1 < n then k + 1 else 0])
        invariant k > 0 ==> Height(ts[cycle[0]]) < Height(ts[cycle[k]])
      {
        WaitsClimb(ts, cycle[k], cycle[k + 1]);
        assert WaitsFor(ts, cycle[k + 1], cycle[if k + 2 < n then k + 2 else 0]);
      }
      WaitsClimb(ts, cycle[n - 1], cycle[0]);
      assert false;
    }
  }

  /** Deadlock freedom: in whatever state a schedule leaves the relay, if some
      goroutine has not finished then some goroutine can go on. */
  lemma DeadlockFree(es: seq<Event>, t: nat) returns (u: nat)
    requires Schedule(es) && Unfinished(Running(es), t)
    ensures Unfinished(Running(es), u) && !Blocked(Running(es), u) && Possible(Running(es), Go(u))
  {
    ScheduleDisciplined(es);
    var ts := Running(es);
    u := t;
    while Blocked(ts, u)
      invariant Unfinished(ts, u)
      decreases 20 - Height(ts[u])
    {
      var v :| WaitsFor(ts, u, v);
      WaitsClimb(ts, u, v);
      u := v;
    }
    forall v ensures !Conflicts(ts, u, v) {
      assert !WaitsFor(ts, u, v);
    }
  }
}
