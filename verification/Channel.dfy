/** The terminal channel as a transition system.

    Every critical section of the channel is one action, so a run is an
    arbitrary interleaving of the sections of any number of goroutines:
    publisher replacements, forwarders, reconnect timers, closes, joins,
    removals and control requests.

    A goroutine that waits for publisherReplaceMu has done nothing yet, so the
    only replacement, close or timer callback with a program counter is the one
    holding that lock (`Holder`). Forwarders, in contrast, form an arbitrary map:
    that there is never more than one is proved, not assumed.

    History variables (`log`, `casts`, `notices`, `inbox`, `control`, `begun`,
    `pushed`, `cleared`, `broken`, `cleanups`, `callbacks`) only record what happened; no
    guard reads them. */
module Channel {
  import opened Wire
  import opened ReplayBuffer

  /** What a broadcast carries; `id` numbers the replayable messages. */
  datatype Cast = Data(frame: Frame, id: Option<nat>) | RunnerGone | RunnerBack

  /** A broadcast: before its snapshot of the subscribers, then writing to the
      snapshot and finally removing those whose write failed. */
  datatype CastPC =
    | Pending(what: Cast)
    | Writing(what: Cast, todo: set<SubId>, failed: set<SubId>)

  datatype FwdPC =
    | Starting
    | Reading(conn: Conn)
    | Clearing(conn: Conn, frame: Frame)
    | Buffering(conn: Conn, frame: Frame)
    | Casting(conn: Conn, cast: CastPC)
    | Dropping(conn: Conn)      // the read failed, handlePublisherDisconnect begins
    | Hangup(conn: Conn)        // identity check passed, connection still to be closed
    | Farewell(cast: CastPC)    // announcing RunnerDisconnected
    | Exiting

  datatype Forwarder = Forwarder(epoch: nat, pc: FwdPC)

  datatype Stage = Flag | Detach | Await | DropSubs | DropBuffer | Notify

  /** The goroutine inside publisherReplaceMu. */
  datatype Holder =
    | Free
    | Entered(conn: Conn)
    | Installed(epoch: nat, prior: Option<Conn>, was: bool)
    | Waiting(epoch: nat, was: bool)
    | Announcing(epoch: nat, cast: CastPC)
    | Spawning(epoch: nat)
    | TimerEntered
    | Closing(stage: Stage, byTimer: bool)

  datatype Notice = GoneBegins | GoneEnds | BackBegins | BackEnds

  datatype CastRecord = CastRecord(epoch: nat, what: Cast)

  datatype Pub = Pub(
    closed: bool,
    publisher: Option<Conn>,
    disconnected: bool,
    epoch: nat,
    timer: Option<nat>,         // publisherReconnectTimer
    wg: nat,                    // publisherWg
    holder: Holder,
    forwarders: map<nat, Forwarder>,
    armed: set<nat>,            // reconnect timers that may still fire
    fired: set<nat>,            // callbacks that fired and wait for the lock
    timers: nat,                // timers created so far
    shut: set<Conn>,            // publisher connections closed by the channel
    notices: seq<Notice>,
    casts: seq<CastRecord>,
    cleanups: nat,
    callbacks: nat)

  /** A join: inserted into the map when `since` messages had been broadcast,
      later holding a copy of the buffer, messages `base ..`, `pos` of them sent.
      `cleared` records that the copy was taken while a snapshot that had already
      cleared the buffer was not yet in it. */
  datatype Join =
    | Inserted(since: nat)
    | Copied(since: nat, base: nat, copy: seq<Frame>, pos: nat, cleared: bool)

  datatype ControlEvent =
    | Granted(id: SubId)
    | Denied(id: SubId)
    | Released(id: SubId)
    | Cleared(id: SubId)
    | Passed(id: SubId)
    | Refused(id: SubId)

  datatype Sub = Sub(
    subs: set<SubId>,
    joins: map<SubId, Join>,    // every subscriber ever inserted
    buf: seq<Frame>,
    cleared: bool,              // for a snapshot that is not buffered yet
    pushed: nat,                // replayable messages that went through the buffer
    log: seq<Frame>,            // replayable messages read from publishers
    begun: nat,                 // replayable messages whose broadcast took its snapshot
    inbox: map<SubId, seq<Cast>>,
    broken: set<SubId>,         // subscribers to which some write failed
    told: map<SubId, bool>,     // joins past their status check: is a notice still to be sent?
    controller: Option<SubId>,
    uncleared: set<SubId>,      // removed from the map, control not yet released
    control: seq<ControlEvent>)

  datatype State = State(limits: Budget, pub: Pub, sub: Sub)

  function Init(l: Budget): State {
    State(l,
          Pub(false, None, false, 0, None, 0, Free, map[], {}, {}, 0, {}, [], [], 0, 0),
          Sub({}, map[], [], false, 0, [], 0, map[], {}, map[], None, {}, []))
  }

  // ------------------------------------------------------------- broadcasts

  /** Who is broadcasting: a forwarder, or the lock holder. */
  datatype Caster = ByForwarder(g: nat) | ByHolder

  function CastOf(p: Pub, who: Caster): Option<CastPC> {
    match who
    case ByHolder => if p.holder.Announcing? then Some(p.holder.cast) else None
    case ByForwarder(g) =>
      if g !in p.forwarders then None
      else match p.forwarders[g].pc
           case Casting(_, c) => Some(c)
           case Farewell(c) => Some(c)
           case _ => None
  }

  function SetCast(p: Pub, who: Caster, c: CastPC): Pub
    requires CastOf(p, who).Some?
  {
    match who
    case ByHolder => p.(holder := p.holder.(cast := c))
    case ByForwarder(g) => Goto(p, g, p.forwarders[g].pc.(cast := c))
  }

  function CastEpoch(p: Pub, who: Caster): nat
    requires CastOf(p, who).Some?
  {
    match who
    case ByHolder => p.holder.epoch
    case ByForwarder(g) => p.forwarders[g].epoch
  }

  function Begins(what: Cast): seq<Notice> {
    match what
    case Data(_, _) => []
    case RunnerGone => [GoneBegins]
    case RunnerBack => [BackBegins]
  }

  function Ends(what: Cast): seq<Notice> {
    match what
    case Data(_, _) => []
    case RunnerGone => [GoneEnds]
    case RunnerBack => [BackEnds]
  }

  function Deliver(inbox: map<SubId, seq<Cast>>, x: SubId, what: Cast): map<SubId, seq<Cast>> {
    inbox[x := (if x in inbox then inbox[x] else []) + [what]]
  }

  /** The first critical section of RemoveSubscriber. */
  function RemoveLocked(b: Sub, x: SubId): Sub {
    if x in b.subs then b.(subs := b.subs - {x}, uncleared := b.uncleared + {x}) else b
  }

  function Goto(p: Pub, g: nat, pc: FwdPC): Pub
    requires g in p.forwarders
  {
    p.(forwarders := p.forwarders[g := p.forwarders[g].(pc := pc)])
  }

  function StopTimer(p: Pub): Pub {
    p.(armed := (if p.timer.Some? then p.armed - {p.timer.value} else p.armed), timer := None)
  }

  function Shut(p: Pub, c: Option<Conn>): Pub {
    if c.Some? then p.(shut := p.shut + {c.value}) else p
  }

  // ---------------------------------------------------------------- actions

  /** SetPublisher. */
  datatype ReplaceAct = EnterSet(conn: Conn) | Install | CloseOld | AwaitOld | Spawn(g: nat)

  /** Broadcast. */
  datatype CastAct = Snap | Write(x: SubId, ok: bool) | Evict(x: SubId) | EndCast

  /** forwardPublisherToSubscribers and handlePublisherDisconnect. */
  datatype FwdAct = FwdStart | FwdRead(frame: Frame) | FwdClear | FwdBuffer | FwdFail | FwdDrop | FwdHangup | FwdExit

  /** The reconnect timer and its callback. */
  datatype TimerAct = Fire(t: nat) | EnterTimer(t: nat) | TimerCheck

  /** Close and closeInternal. */
  datatype CloseAct = EnterClose | CloseFlag | CloseDetach | CloseAwait | CloseSubs | CloseBuffer | CloseNotify

  /** addSubscriberInternal, RemoveSubscriber and the control token, for one subscriber. */
  datatype SubAct =
    | JoinInsert(max: nat)
    | JoinCopy
    | JoinWrite(ok: bool)
    | JoinStatus
    | JoinTell(ok: bool)
    | Remove
    | ClearControl
    | Request
    | Release
    | Input

  datatype Action =
    | Replace(replace: ReplaceAct)
    | Broadcast(who: Caster, cast: CastAct)
    | Forward(g: nat, fwd: FwdAct)
    | Timer(timer: TimerAct)
    | Shutdown(close: CloseAct)
    | Subscriber(x: SubId, sub: SubAct)

  predicate CanReplace(p: Pub, a: ReplaceAct) {
    match a
    case EnterSet(_) => p.holder.Free?
    case Install => p.holder.Entered?
    case CloseOld => p.holder.Installed?
    case AwaitOld => p.holder.Waiting? && p.wg == 0
    case Spawn(g) => p.holder.Spawning? && g !in p.forwarders
  }

  predicate CanCast(p: Pub, who: Caster, a: CastAct) {
    && CastOf(p, who).Some?
    && var c := CastOf(p, who).value;
       match a
       case Snap => c.Pending?
       case Write(x, _) => c.Writing? && x in c.todo
       case Evict(x) => c.Writing? && c.todo == {} && x in c.failed
       case EndCast => c.Writing? && c.todo == {} && c.failed == {}
  }

  /** Reading from a connection that the channel has closed can only fail. */
  predicate CanForward(p: Pub, g: nat, a: FwdAct) {
    && g in p.forwarders
    && var pc := p.forwarders[g].pc;
       match a
       case FwdStart => pc.Starting?
       case FwdRead(_) => pc.Reading? && pc.conn !in p.shut
       case FwdClear => pc.Clearing?
       case FwdBuffer => pc.Buffering?
       case FwdFail => pc.Reading?
       case FwdDrop => pc.Dropping?
       case FwdHangup => pc.Hangup?
       case FwdExit => pc.Exiting? && p.wg > 0
  }

  predicate CanTime(p: Pub, a: TimerAct) {
    match a
    case Fire(t) => t in p.armed
    case EnterTimer(t) => p.holder.Free? && t in p.fired
    case TimerCheck => p.holder.TimerEntered?
  }

  predicate CanClose(p: Pub, a: CloseAct) {
    match a
    case EnterClose => p.holder.Free?
    case CloseFlag => p.holder.Closing? && p.holder.stage == Flag
    case CloseDetach => p.holder.Closing? && p.holder.stage == Detach
    case CloseAwait => p.holder.Closing? && p.holder.stage == Await && p.wg == 0
    case CloseSubs => p.holder.Closing? && p.holder.stage == DropSubs
    case CloseBuffer => p.holder.Closing? && p.holder.stage == DropBuffer
    case CloseNotify => p.holder.Closing? && p.holder.stage == Notify
  }

  predicate CanSubscribe(p: Pub, b: Sub, x: SubId, a: SubAct) {
    match a
    case JoinInsert(max) => x !in b.joins && !p.closed && (max == 0 || |b.subs| < max)
    case JoinCopy => x in b.joins && b.joins[x].Inserted?
    case JoinWrite(_) => x in b.joins && b.joins[x].Copied? && b.joins[x].pos < |b.joins[x].copy|
    case JoinStatus => x in b.joins && b.joins[x].Copied? && b.joins[x].pos == |b.joins[x].copy| && x !in b.told
    case JoinTell(_) => x in b.told && b.told[x]
    case Remove => x in b.subs
    case ClearControl => x in b.uncleared
    case Request => x in b.joins
    case Release => x in b.joins
    case Input => x in b.joins
  }

  predicate Enabled(s: State, a: Action) {
    match a
    case Replace(r) => CanReplace(s.pub, r)
    case Broadcast(who, c) => CanCast(s.pub, who, c)
    case Forward(g, f) => CanForward(s.pub, g, f)
    case Timer(t) => CanTime(s.pub, t)
    case Shutdown(c) => CanClose(s.pub, c)
    case Subscriber(x, b) => CanSubscribe(s.pub, s.sub, x, b)
  }

  /** SetPublisher inside publisherMu: refuse when closed, ignore the connection
      already installed, otherwise install and take the next epoch. */
  function DoInstall(p: Pub): Pub
    requires p.holder.Entered?
  {
    var c := p.holder.conn;
    if p.closed then p.(shut := p.shut + {c}, holder := Free)
    else if p.publisher == Some(c) then p.(holder := Free)
    else
      StopTimer(p).(publisher := Some(c), disconnected := false, epoch := p.epoch + 1,
      holder := Installed(p.epoch + 1, p.publisher, p.disconnected))
  }

  function DoCloseOld(p: Pub): Pub
    requires p.holder.Installed?
  {
    Shut(p, p.holder.prior).(holder := Waiting(p.holder.epoch, p.holder.was))
  }

  function DoAwaitOld(p: Pub): Pub
    requires p.holder.Waiting?
  {
    p.(holder := if p.holder.was then Announcing(p.holder.epoch, Pending(RunnerBack))
                 else Spawning(p.holder.epoch))
  }

  function DoSpawn(p: Pub, g: nat): Pub
    requires p.holder.Spawning?
  {
    p.(wg := p.wg + 1, holder := Free, forwarders := p.forwarders[g := Forwarder(p.holder.epoch, Starting)])
  }

  function DoFwdStart(p: Pub, g: nat): Pub
    requires g in p.forwarders
  {
    if p.publisher.Some? && p.epoch == p.forwarders[g].epoch
    then Goto(p, g, Reading(p.publisher.value))
    else Goto(p, g, Exiting)
  }

  /** handlePublisherDisconnect inside publisherMu: pointer and epoch must match. */
  function DoFwdDrop(p: Pub, g: nat): Pub
    requires g in p.forwarders && p.forwarders[g].pc.Dropping?
  {
    var f := p.forwarders[g];
    if p.publisher != Some(f.pc.conn) || p.epoch != f.epoch then Goto(p, g, Exiting)
    else
      Goto(p, g, Hangup(f.pc.conn)).(publisher := None, disconnected := true,
      timer := Some(p.timers), armed := p.armed + {p.timers}, timers := p.timers + 1)
  }

  function DoFwdHangup(p: Pub, g: nat): Pub
    requires g in p.forwarders && p.forwarders[g].pc.Hangup?
  {
    Goto(p, g, Farewell(Pending(RunnerGone))).(shut := p.shut + {p.forwarders[g].pc.conn})
  }

  function DoFwdExit(p: Pub, g: nat): Pub
    requires p.wg > 0
  {
    p.(wg := p.wg - 1, forwarders := p.forwarders - {g})
  }

  function DoTimerCheck(p: Pub): Pub {
    p.(holder := if p.disconnected then Closing(Flag, true) else Free)
  }

  function DoCloseDetach(p: Pub): Pub
    requires p.holder.Closing?
  {
    Advance(Shut(StopTimer(p), p.publisher).(publisher := None), Await)
  }

  function DoCloseFlag(p: Pub): Pub
    requires p.holder.Closing?
  {
    if p.closed then p.(holder := Free)
    else p.(closed := true, cleanups := p.cleanups + 1, holder := Closing(Detach, p.holder.byTimer))
  }

  function Advance(p: Pub, next: Stage): Pub
    requires p.holder.Closing?
  {
    p.(holder := Closing(next, p.holder.byTimer))
  }

  /** The snapshot of the subscribers that starts a broadcast. */
  function BeginCast(p: Pub, who: Caster, subs: set<SubId>): Pub
    requires CastOf(p, who).Some?
  {
    var what := CastOf(p, who).value.what;
    SetCast(p, who, Writing(what, subs, {})).(casts := p.casts + [CastRecord(CastEpoch(p, who), what)],
                                              notices := p.notices + Begins(what))
  }

  function DoSnap(s: State, who: Caster): State
    requires CastOf(s.pub, who).Some?
  {
    var what := CastOf(s.pub, who).value.what;
    s.(pub := BeginCast(s.pub, who, s.sub.subs),
       sub := s.sub.(begun := s.sub.begun + if what.Data? && what.id.Some? then 1 else 0))
  }

  function DoWrite(s: State, who: Caster, x: SubId, ok: bool): State
    requires CastOf(s.pub, who).Some? && CastOf(s.pub, who).value.Writing?
  {
    var c := CastOf(s.pub, who).value;
    s.(pub := SetCast(s.pub, who, c.(todo := c.todo - {x}, failed := if ok then c.failed else c.failed + {x})),
       sub := if ok then s.sub.(inbox := Deliver(s.sub.inbox, x, c.what))
              else s.sub.(broken := s.sub.broken + {x}))
  }

  function DoEvict(s: State, who: Caster, x: SubId): State
    requires CastOf(s.pub, who).Some? && CastOf(s.pub, who).value.Writing?
  {
    var c := CastOf(s.pub, who).value;
    s.(pub := SetCast(s.pub, who, c.(failed := c.failed - {x})), sub := RemoveLocked(s.sub, x))
  }

  function DoEndCast(p: Pub, who: Caster): Pub
    requires CastOf(p, who).Some?
  {
    var what := CastOf(p, who).value.what;
    var q := p.(notices := p.notices + Ends(what));
    match who
    case ByHolder => q.(holder := Spawning(p.holder.epoch))
    case ByForwarder(g) =>
      var pc := p.forwarders[g].pc;
      Goto(q, g, if pc.Casting? then Reading(pc.conn) else Exiting)
  }

  function DoFwdRead(s: State, g: nat, f: Frame): State
    requires g in s.pub.forwarders && s.pub.forwarders[g].pc.Reading?
  {
    var c := s.pub.forwarders[g].pc.conn;
    match KindOf(f)
    case Other => s.(pub := Goto(s.pub, g, Casting(c, Pending(Data(f, None)))))
    case Output => s.(pub := Goto(s.pub, g, Buffering(c, f)), sub := s.sub.(log := s.sub.log + [f]))
    case Snapshot => s.(pub := Goto(s.pub, g, Clearing(c, f)), sub := s.sub.(log := s.sub.log + [f]))
  }

  function DoFwdClear(s: State, g: nat): State
    requires g in s.pub.forwarders && s.pub.forwarders[g].pc.Clearing?
  {
    var pc := s.pub.forwarders[g].pc;
    s.(pub := Goto(s.pub, g, Buffering(pc.conn, pc.frame)), sub := s.sub.(buf := [], cleared := true))
  }

  function DoFwdBuffer(s: State, g: nat): State
    requires g in s.pub.forwarders && s.pub.forwarders[g].pc.Buffering?
  {
    var pc := s.pub.forwarders[g].pc;
    s.(pub := Goto(s.pub, g, Casting(pc.conn, Pending(Data(pc.frame, Some(s.sub.pushed))))),
       sub := s.sub.(buf := Push(s.sub.buf, pc.frame, s.limits), cleared := false, pushed := s.sub.pushed + 1))
  }

  /** The number of the oldest buffered message. */
  function Oldest(b: Sub): nat {
    if |b.buf| <= b.pushed then b.pushed - |b.buf| else 0
  }

  function DoJoinCopy(b: Sub, x: SubId): Sub
    requires x in b.joins
  {
    b.(joins := b.joins[x := Copied(b.joins[x].since, Oldest(b), b.buf, 0, b.cleared)])
  }

  /** One replayed message; a failed write ends the replay. */
  function DoJoinWrite(b: Sub, x: SubId, ok: bool): Sub
    requires x in b.joins && b.joins[x].Copied? && b.joins[x].pos < |b.joins[x].copy|
  {
    var j := b.joins[x];
    if ok then
      b.(joins := b.joins[x := j.(pos := j.pos + 1)],
      inbox := Deliver(b.inbox, x, Data(j.copy[j.pos], Some(j.base + j.pos))))
    else
      b.(joins := b.joins[x := j.(pos := |j.copy|)], broken := b.broken + {x})
  }

  /** The status notice to a new subscriber, decided by an earlier look at the flag. */
  function DoJoinTell(b: Sub, x: SubId, ok: bool): Sub {
    var c := b.(told := b.told[x := false]);
    if ok then c.(inbox := Deliver(b.inbox, x, RunnerGone)) else c.(broken := b.broken + {x})
  }

  function DoRequest(b: Sub, x: SubId): Sub {
    if b.controller.None? then b.(controller := Some(x), control := b.control + [Granted(x)])
    else b.(control := b.control + [Denied(x)])
  }

  function DoRelease(b: Sub, x: SubId): Sub {
    if b.controller == Some(x) then b.(controller := None, control := b.control + [Released(x)]) else b
  }

  function DoClear(b: Sub, x: SubId): Sub {
    var c := b.(uncleared := b.uncleared - {x});
    if b.controller == Some(x) then c.(controller := None, control := b.control + [Cleared(x)]) else c
  }

  function DoInput(b: Sub, x: SubId): Sub {
    b.(control := b.control + [if b.controller.None? || b.controller == Some(x) then Passed(x) else Refused(x)])
  }

  function DoReplace(p: Pub, a: ReplaceAct): Pub
    requires CanReplace(p, a)
  {
    match a
    case EnterSet(c) => p.(holder := Entered(c))
    case Install => DoInstall(p)
    case CloseOld => DoCloseOld(p)
    case AwaitOld => DoAwaitOld(p)
    case Spawn(g) => DoSpawn(p, g)
  }

  function DoCast(s: State, who: Caster, a: CastAct): State
    requires CanCast(s.pub, who, a)
  {
    match a
    case Snap => DoSnap(s, who)
    case Write(x, ok) => DoWrite(s, who, x, ok)
    case Evict(x) => DoEvict(s, who, x)
    case EndCast => s.(pub := DoEndCast(s.pub, who))
  }

  function DoForward(s: State, g: nat, a: FwdAct): State
    requires CanForward(s.pub, g, a)
  {
    var p := s.pub;
    match a
    case FwdStart => s.(pub := DoFwdStart(p, g))
    case FwdRead(f) => DoFwdRead(s, g, f)
    case FwdClear => DoFwdClear(s, g)
    case FwdBuffer => DoFwdBuffer(s, g)
    case FwdFail => s.(pub := Goto(p, g, Dropping(p.forwarders[g].pc.conn)))
    case FwdDrop => s.(pub := DoFwdDrop(p, g))
    case FwdHangup => s.(pub := DoFwdHangup(p, g))
    case FwdExit => s.(pub := DoFwdExit(p, g))
  }

  function DoTime(p: Pub, a: TimerAct): Pub
    requires CanTime(p, a)
  {
    match a
    case Fire(t) => p.(armed := p.armed - {t}, fired := p.fired + {t})
    case EnterTimer(t) => p.(fired := p.fired - {t}, holder := TimerEntered)
    case TimerCheck => DoTimerCheck(p)
  }

  function DoClose(s: State, a: CloseAct): State
    requires CanClose(s.pub, a)
  {
    var p, b := s.pub, s.sub;
    match a
    case EnterClose => s.(pub := p.(holder := Closing(Flag, false)))
    case CloseFlag => s.(pub := DoCloseFlag(p))
    case CloseDetach => s.(pub := DoCloseDetach(p))
    case CloseAwait => s.(pub := Advance(p, DropSubs))
    case CloseSubs => s.(pub := Advance(p, DropBuffer), sub := b.(subs := {}))
    case CloseBuffer => s.(pub := Advance(p, Notify), sub := b.(buf := []))
    case CloseNotify => s.(pub := p.(holder := Free, callbacks := p.callbacks + 1))
  }

  function DoSubscribe(p: Pub, b: Sub, x: SubId, a: SubAct): Sub
    requires CanSubscribe(p, b, x, a)
  {
    match a
    case JoinInsert(_) =>
      b.(subs := b.subs + {x}, joins := b.joins[x := Inserted(b.begun)], inbox := b.inbox[x := []])
    case JoinCopy => DoJoinCopy(b, x)
    case JoinWrite(ok) => DoJoinWrite(b, x, ok)
    case JoinStatus => b.(told := b.told[x := p.disconnected])
    case JoinTell(ok) => DoJoinTell(b, x, ok)
    case Remove => RemoveLocked(b, x)
    case ClearControl => DoClear(b, x)
    case Request => DoRequest(b, x)
    case Release => DoRelease(b, x)
    case Input => DoInput(b, x)
  }

  function Do(s: State, a: Action): State
    requires Enabled(s, a)
  {
    match a
    case Replace(r) => s.(pub := DoReplace(s.pub, r))
    case Broadcast(who, c) => DoCast(s, who, c)
    case Forward(g, f) => DoForward(s, g, f)
    case Timer(t) => s.(pub := DoTime(s.pub, t))
    case Shutdown(c) => DoClose(s, c)
    case Subscriber(x, b) => s.(sub := DoSubscribe(s.pub, s.sub, x, b))
  }

  // ------------------------------------------------------------------- runs

  /** `acts` is a run of the channel from `s`. */
  predicate Run(s: State, acts: seq<Action>)
    decreases |acts|, 0
  {
    acts == [] ||
    (Run(s, acts[..|acts| - 1]) && Enabled(After(s, acts[..|acts| - 1]), acts[|acts| - 1]))
  }

  function After(s: State, acts: seq<Action>): State
    requires Run(s, acts)
    decreases |acts|, 1
  {
    if acts == [] then s else Do(After(s, acts[..|acts| - 1]), acts[|acts| - 1])
  }

  lemma RunExtend(s: State, acts: seq<Action>, a: Action)
    requires Run(s, acts) && Enabled(After(s, acts), a)
    ensures Run(s, acts + [a]) && After(s, acts + [a]) == Do(After(s, acts), a)
  {
    assert (acts + [a])[..|acts|] == acts;
  }

  /** Some run leads from `s` to `q`. */
  ghost predicate Reaches(s: State, q: State) {
    exists acts :: Run(s, acts) && After(s, acts) == q
  }

  lemma Stays(s: State)
    ensures Reaches(s, s)
  {
    assert Run(s, []) && After(s, []) == s;
  }

  lemma Steps(s: State, q: State, a: Action)
    requires Reaches(s, q) && Enabled(q, a)
    ensures Reaches(s, Do(q, a))
  {
    var acts :| Run(s, acts) && After(s, acts) == q;
    RunExtend(s, acts, a);
  }

  lemma {:induction false} RunConcat(s: State, acts: seq<Action>, more: seq<Action>)
    requires Run(s, acts) && Run(After(s, acts), more)
    ensures Run(s, acts + more) && After(s, acts + more) == After(After(s, acts), more)
  {
    if more == [] {
      assert acts + more == acts;
    } else {
      var rest, last := more[..|more| - 1], more[|more| - 1];
      RunConcat(s, acts, rest);
      assert acts + more == (acts + rest) + [last];
      RunExtend(s, acts + rest, last);
    }
  }

  lemma Continues(s: State, q: State, r: State)
    requires Reaches(s, q) && Reaches(q, r)
    ensures Reaches(s, r)
  {
    var acts :| Run(s, acts) && After(s, acts) == q;
    var more :| Run(q, more) && After(q, more) == r;
    RunConcat(s, acts, more);
  }
}
