/** Loop-run admission: a serialized allocator of run numbers and of concurrency
    slots. Each transaction runs under the lock of its loop row, so it is one
    step; retention and all other writers are steps of their own. */
module LoopRuns {
  import opened Wire

  type LoopId = nat
  type PodKey = nat

  datatype RunStatus = Pending | Running | Completed | Failed | TimedOut | Cancelled | Skipped

  datatype PodStatus = Initializing | Active | Paused | Disconnected | Orphaned | Done | Terminated | Errored

  predicate IsActivePod(s: PodStatus) {
    s in {Initializing, Active, Paused, Disconnected}
  }

  /** A row of loop_runs; rows are kept in the order of their serial ids. */
  datatype Row = Row(id: nat, loop_: LoopId, number: nat, status: RunStatus, pod: Option<PodKey>, finished: bool)

  datatype Loop = Loop(enabled: bool, max: int)

  type Pods = map<PodKey, PodStatus>

  datatype Db = Db(loops: map<LoopId, Loop>, rows: seq<Row>, pods: Pods, nextId: nat)

  /** Active by the pod's own status, or still pending without a pod. */
  predicate IsActive(r: Row, pods: Pods) {
    if r.pod.None? then r.status == Pending else r.pod.value in pods && IsActivePod(pods[r.pod.value])
  }

  function CountActive(rows: seq<Row>, pods: Pods, l: LoopId): nat {
    if rows == [] then 0
    else
      CountActive(rows[..|rows| - 1], pods, l) +
      (var r := rows[|rows| - 1]; if r.loop_ == l && IsActive(r, pods) then 1 else 0)
  }

  function Max(a: nat, b: nat): nat {
    if a < b then b else a
  }

  /** COALESCE(MAX(run_number), 0) over the loop's rows. */
  function MaxNumber(rows: seq<Row>, l: LoopId): nat {
    if rows == [] then 0
    else
      var r := rows[|rows| - 1];
      var m := MaxNumber(rows[..|rows| - 1], l);
      if r.loop_ == l then Max(m, r.number) else m
  }

  datatype Outcome = NotFound | LoopDisabled | Ran(run: Row, skipped: bool)

  /** TriggerRunAtomic, with the skip policy of handleConcurrencyPolicy: all three
      policies currently record a skipped run. */
  function Trigger(db: Db, l: LoopId): (Db, Outcome) {
    if l !in db.loops then (db, NotFound)
    else if !db.loops[l].enabled then (db, LoopDisabled)
    else
      var number := MaxNumber(db.rows, l) + 1;
      var skip := CountActive(db.rows, db.pods, l) >= db.loops[l].max;
      var run := if skip then Row(db.nextId, l, number, Skipped, None, true)
                 else Row(db.nextId, l, number, Pending, None, false);
      (db.(rows := db.rows + [run], nextId := db.nextId + 1), Ran(run, skip))
  }

  function NewerFinished(rows: seq<Row>, l: LoopId, id: nat): nat {
    if rows == [] then 0
    else
      NewerFinished(rows[..|rows| - 1], l, id) +
      (var r := rows[|rows| - 1]; if r.loop_ == l && r.finished && r.id > id then 1 else 0)
  }

  /** Among the `keep` finished runs of the loop with the largest ids. */
  predicate Retained(rows: seq<Row>, l: LoopId, keep: int, r: Row) {
    r.loop_ != l || !r.finished || NewerFinished(rows, l, r.id) < keep
  }

  function Filter(rows: seq<Row>, all: seq<Row>, l: LoopId, keep: int): seq<Row> {
    if rows == [] then []
    else
      var r := rows[|rows| - 1];
      Filter(rows[..|rows| - 1], all, l, keep) + (if Retained(all, l, keep, r) then [r] else [])
  }

  /** DeleteOldFinishedRuns; a non-positive limit deletes nothing. */
  function DeleteOldFinished(db: Db, l: LoopId, keep: int): Db {
    if keep <= 0 then db else db.(rows := Filter(db.rows, db.rows, l, keep))
  }

  // --------------------------------------------------------------------- runs

  /** Other writers may change anything about a run but its identity. */
  predicate SameRuns(a: seq<Row>, b: seq<Row>) {
    |a| == |b| &&
    forall i :: 0 <= i < |a| ==> a[i].id == b[i].id && a[i].loop_ == b[i].loop_ && a[i].number == b[i].number
  }

  datatype Event =
    | Triggered(loop_: LoopId)
    | Pruned(loop_: LoopId, keep: int)
    | PodChanged(pod: PodKey, status: PodStatus)
    | Written(rows: seq<Row>, pods: Pods, loops: map<LoopId, Loop>)

  predicate Possible(db: Db, e: Event) {
    e.Written? ==> SameRuns(db.rows, e.rows)
  }

  function Next(db: Db, e: Event): Db {
    match e
    case Triggered(l) => Trigger(db, l).0
    case Pruned(l, keep) => DeleteOldFinished(db, l, keep)
    case PodChanged(p, status) => db.(pods := db.pods[p := status])
    case Written(rows, pods, loops) => db.(rows := rows, pods := pods, loops := loops)
  }

  ghost predicate History(db: Db, es: seq<Event>)
    decreases |es|, 0
  {
    es == [] || (History(db, es[..|es| - 1]) && Possible(After(db, es[..|es| - 1]), es[|es| - 1]))
  }

  ghost function After(db: Db, es: seq<Event>): Db
    requires History(db, es)
    decreases |es|, 1
  {
    if es == [] then db else Next(After(db, es[..|es| - 1]), es[|es| - 1])
  }

  /** The numbers that one loop's runs were given, in the order of creation. */
  ghost function Issued(db: Db, es: seq<Event>, l: LoopId): seq<nat>
    requires History(db, es)
    decreases |es|
  {
    if es == [] then []
    else
      var rest := es[..|es| - 1];
      Issued(db, rest, l) + IssuedBy(After(db, rest), es[|es| - 1], l)
  }

  function IssuedBy(db: Db, e: Event, l: LoopId): seq<nat> {
    if e == Triggered(l) && Trigger(db, l).1.Ran? then [Trigger(db, l).1.run.number] else []
  }

  // --------------------------------------------------------------- triggering

  /** What a trigger does, by cases on the table alone: nothing for a loop that is
      missing or disabled; otherwise one new last row with the loop's id, the serial's
      next value and no pod, pending and open below the cap, skipped and closed at it. */
  lemma TriggerByCases(db: Db, l: LoopId)
    ensures var (q, r) := Trigger(db, l);
            && (r == NotFound <==> l !in db.loops)
            && (r == LoopDisabled <==> l in db.loops && !db.loops[l].enabled)
            && (!r.Ran? ==> q == db)
            && (r.Ran? ==>
                  && q == db.(rows := db.rows + [r.run], nextId := db.nextId + 1)
                  && r.run.id == db.nextId && r.run.loop_ == l && r.run.pod == None
                  && (if CountActive(db.rows, db.pods, l) < db.loops[l].max
                      then !r.skipped && r.run.status == Pending && !r.run.finished
                      else r.skipped && r.run.status == Skipped && r.run.finished))
  {
  }

  /** How many triggers of the loop came when it existed and was enabled. */
  ghost function Welcome(db: Db, es: seq<Event>, l: LoopId): nat
    requires History(db, es)
    decreases |es|
  {
    if es == [] then 0
    else
      var rest := es[..|es| - 1];
      var loops := After(db, rest).loops;
      Welcome(db, rest, l) + if es[|es| - 1] == Triggered(l) && l in loops && loops[l].enabled then 1 else 0
  }

  /** Over any history, a loop is issued one number for each trigger that comes while
      it is enabled, and none while it is disabled or missing. */
  lemma {:induction false} NumbersOnlyWhileEnabled(db: Db, es: seq<Event>, l: LoopId)
    requires History(db, es)
    ensures |Issued(db, es, l)| == Welcome(db, es, l)
    decreases |es|
  {
    if es != [] {
      NumbersOnlyWhileEnabled(db, es[..|es| - 1], l);
      TriggerByCases(After(db, es[..|es| - 1]), l);
    }
  }

  // -------------------------------------------------------------- run numbers

  ghost predicate HasRow(rows: seq<Row>, l: LoopId, id: nat, number: nat) {
    exists i :: 0 <= i < |rows| && rows[i].loop_ == l && rows[i].id == id && rows[i].number == number
  }

  /** The newest run of the loop is still there and carries the count of all runs
      ever created; nothing of the loop is newer or numbered higher. */
  ghost predicate NewestKept(db: Db, l: LoopId, k: nat, last: nat) {
    && (forall i :: 0 <= i < |db.rows| ==> db.rows[i].id < db.nextId)
    && (forall i :: 0 <= i < |db.rows| && db.rows[i].loop_ == l ==> db.rows[i].id <= last && 1 <= db.rows[i].number <= k)
    && (k > 0 ==> HasRow(db.rows, l, last, k))
  }

  lemma {:induction false} MaxNumberIs(rows: seq<Row>, l: LoopId, k: nat)
    requires forall i :: 0 <= i < |rows| && rows[i].loop_ == l ==> rows[i].number <= k
    ensures MaxNumber(rows, l) <= k
    ensures forall i :: 0 <= i < |rows| && rows[i].loop_ == l ==> rows[i].number <= MaxNumber(rows, l)
  {
    if rows != [] {
      MaxNumberIs(rows[..|rows| - 1], l, k);
    }
  }

  lemma {:induction false} NoneNewer(rows: seq<Row>, l: LoopId, id: nat)
    requires forall i :: 0 <= i < |rows| && rows[i].loop_ == l ==> rows[i].id <= id
    ensures NewerFinished(rows, l, id) == 0
  {
    if rows != [] {
      NoneNewer(rows[..|rows| - 1], l, id);
    }
  }

  /** Exactly the rows that are retained survive. */
  lemma {:induction false} FilterKeeps(rows: seq<Row>, all: seq<Row>, l: LoopId, keep: int)
    ensures forall r :: r in Filter(rows, all, l, keep) <==> r in rows && Retained(all, l, keep, r)
  {
    if rows != [] {
      var front, r := rows[..|rows| - 1], rows[|rows| - 1];
      FilterKeeps(front, all, l, keep);
      assert rows == front + [r];
    }
  }

  lemma {:induction false} NewerAntitone(rows: seq<Row>, l: LoopId, a: nat, b: nat)
    requires a <= b
    ensures NewerFinished(rows, l, b) <= NewerFinished(rows, l, a)
  {
    if rows != [] {
      NewerAntitone(rows[..|rows| - 1], l, a, b);
    }
  }

  /** Retention deletes only finished runs of its loop, and each of them is older
      than every finished run of the loop that it keeps. */
  lemma RetentionDropsOldest(db: Db, l: LoopId, keep: int, gone: Row, kept: Row)
    requires gone in db.rows && gone !in DeleteOldFinished(db, l, keep).rows
    requires kept in DeleteOldFinished(db, l, keep).rows && kept.loop_ == l && kept.finished
    ensures gone.loop_ == l && gone.finished && gone.id < kept.id && kept in db.rows
  {
    FilterKeeps(db.rows, db.rows, l, keep);
    if kept.id <= gone.id {
      NewerAntitone(db.rows, l, kept.id, gone.id);
    }
  }

  // ------------------------------------------------------- how much retention keeps

  /** The finished runs of the loop, counted. */
  function FinishedRuns(rows: seq<Row>, l: LoopId): nat {
    if rows == [] then 0
    else FinishedRuns(rows[..|rows| - 1], l) + (if rows[|rows| - 1].loop_ == l && rows[|rows| - 1].finished then 1 else 0)
  }

  /** All other rows, in order. */
  function OtherRows(rows: seq<Row>, l: LoopId): seq<Row> {
    if rows == [] then []
    else
      var r := rows[|rows| - 1];
      OtherRows(rows[..|rows| - 1], l) + (if r.loop_ == l && r.finished then [] else [r])
  }

  predicate DistinctIds(rows: seq<Row>) {
    forall i, j :: 0 <= i < j < |rows| ==> rows[i].id != rows[j].id
  }

  function FinishedIds(rows: seq<Row>, l: LoopId): set<nat> {
    set i | 0 <= i < |rows| && rows[i].loop_ == l && rows[i].finished :: rows[i].id
  }

  function Newer(ids: set<nat>, id: nat): set<nat> {
    set j | j in ids && j > id
  }

  function NewestIds(ids: set<nat>, keep: int): set<nat> {
    set id | id in ids && |Newer(ids, id)| < keep
  }

  lemma Smallest(ids: set<nat>) returns (m: nat)
    requires ids != {}
    ensures m in ids && forall i :: i in ids ==> m <= i
  {
    m :| m in ids;
    var rest := ids - {m};
    while rest != {}
      invariant rest <= ids && m in ids && forall i :: i in ids && i !in rest ==> m <= i
      decreases rest
    {
      var i :| i in rest;
      rest := rest - {i};
      if i < m { m := i; }
    }
  }

  /** Of a finite set of ids, those with fewer than `keep` larger ones number exactly
      `keep`, or all if there are no more. */
  lemma {:induction false} NewestIdsCount(ids: set<nat>, keep: int)
    requires keep > 0
    ensures |NewestIds(ids, keep)| == if |ids| <= keep then |ids| else keep
    decreases |ids|
  {
    if ids != {} {
      var m := Smallest(ids);
      var rest := ids - {m};
      NewestIdsCount(rest, keep);
      assert Newer(ids, m) == rest;
      forall id | id in rest ensures Newer(rest, id) == Newer(ids, id) {}
      assert NewestIds(rest, keep) == NewestIds(ids, keep) - {m};
      if |ids| <= keep {
        assert m in NewestIds(ids, keep);
      } else {
        assert NewestIds(ids, keep) == NewestIds(rest, keep);
      }
    } else {
      assert NewestIds(ids, keep) == {};
    }
  }

  lemma FinishedIdsAppend(front: seq<Row>, r: Row, l: LoopId)
    ensures FinishedIds(front + [r], l) == FinishedIds(front, l) + (if r.loop_ == l && r.finished then {r.id} else {})
  {
    var rows := front + [r];
    assert forall i :: 0 <= i < |front| ==> rows[i] == front[i];
    assert rows[|front|] == r;
  }

  lemma IdIsNew(front: seq<Row>, r: Row, l: LoopId)
    requires DistinctIds(front + [r])
    ensures r.id !in FinishedIds(front, l) && DistinctIds(front)
  {
    var rows := front + [r];
    assert forall i :: 0 <= i < |front| ==> rows[i] == front[i];
    assert rows[|front|] == r;
  }

  /** With distinct ids, counting rows is counting ids. */
  lemma {:induction false} FinishedRunsIsSize(rows: seq<Row>, l: LoopId)
    requires DistinctIds(rows)
    ensures FinishedRuns(rows, l) == |FinishedIds(rows, l)|
  {
    if rows == [] {
      assert FinishedIds(rows, l) == {};
    } else {
      var front, r := rows[..|rows| - 1], rows[|rows| - 1];
      assert rows == front + [r];
      IdIsNew(front, r, l);
      FinishedRunsIsSize(front, l);
      FinishedIdsAppend(front, r, l);
    }
  }

  lemma {:induction false} NewerFinishedIsSize(rows: seq<Row>, l: LoopId, id: nat)
    requires DistinctIds(rows)
    ensures NewerFinished(rows, l, id) == |Newer(FinishedIds(rows, l), id)|
  {
    if rows == [] {
      assert Newer(FinishedIds(rows, l), id) == {};
    } else {
      var front, r := rows[..|rows| - 1], rows[|rows| - 1];
      assert rows == front + [r];
      IdIsNew(front, r, l);
      NewerFinishedIsSize(front, l, id);
      FinishedIdsAppend(front, r, l);
      NewerAppend(FinishedIds(front, l), r.id, id);
      assert FinishedIds(front, l) + {} == FinishedIds(front, l);
    }
  }

  lemma NewerAppend(ids: set<nat>, more: nat, id: nat)
    requires more !in ids
    ensures |Newer(ids + {more}, id)| == |Newer(ids, id)| + (if more > id then 1 else 0)
  {
    if more > id {
      assert Newer(ids + {more}, id) == Newer(ids, id) + {more};
    } else {
      assert Newer(ids + {more}, id) == Newer(ids, id);
    }
  }

  /** The ids among `ids` of rows that the filter lets through. */
  function Surviving(ids: set<nat>, all: seq<Row>, l: LoopId, keep: int): set<nat> {
    set id | id in ids && NewerFinished(all, l, id) < keep
  }

  lemma SurvivingAppend(ids: set<nat>, more: nat, all: seq<Row>, l: LoopId, keep: int)
    requires more !in ids
    ensures |Surviving(ids + {more}, all, l, keep)| ==
            |Surviving(ids, all, l, keep)| + (if NewerFinished(all, l, more) < keep then 1 else 0)
  {
    if NewerFinished(all, l, more) < keep {
      assert Surviving(ids + {more}, all, l, keep) == Surviving(ids, all, l, keep) + {more};
    } else {
      assert Surviving(ids + {more}, all, l, keep) == Surviving(ids, all, l, keep);
    }
  }

  /** How many finished runs the filter lets through, by their ids. */
  lemma {:induction false} FilterCountsIds(rows: seq<Row>, all: seq<Row>, l: LoopId, keep: int)
    requires DistinctIds(rows)
    ensures FinishedRuns(Filter(rows, all, l, keep), l) == |Surviving(FinishedIds(rows, l), all, l, keep)|
    ensures OtherRows(Filter(rows, all, l, keep), l) == OtherRows(rows, l)
  {
    if rows == [] {
      assert Surviving(FinishedIds(rows, l), all, l, keep) == {};
    } else {
      var front, r := rows[..|rows| - 1], rows[|rows| - 1];
      assert rows == front + [r];
      IdIsNew(front, r, l);
      FilterCountsIds(front, all, l, keep);
      FinishedIdsAppend(front, r, l);
      SurvivingAppend(FinishedIds(front, l), r.id, all, l, keep);
      var f := Filter(front, all, l, keep);
      assert (f + [r])[..|f|] == f && f + [] == f;
      assert FinishedIds(front, l) + {} == FinishedIds(front, l);
    }
  }

  /** Retention keeps as many finished runs of the loop as asked for, or all if there
      are no more, and every other row, in order. */
  lemma RetentionKeepsExactly(db: Db, l: LoopId, keep: int)
    requires DistinctIds(db.rows) && keep > 0
    ensures var n, q := FinishedRuns(db.rows, l), DeleteOldFinished(db, l, keep);
            && FinishedRuns(q.rows, l) == (if n <= keep then n else keep)
            && OtherRows(q.rows, l) == OtherRows(db.rows, l)
            && q == db.(rows := q.rows)
  {
    var ids := FinishedIds(db.rows, l);
    FilterCountsIds(db.rows, db.rows, l, keep);
    FinishedRunsIsSize(db.rows, l);
    forall id | id in ids ensures NewerFinished(db.rows, l, id) == |Newer(ids, id)| {
      NewerFinishedIsSize(db.rows, l, id);
    }
    assert Surviving(ids, db.rows, l, keep) == NewestIds(ids, keep);
    NewestIdsCount(ids, keep);
  }

  /** Rows are in the order of their ids, and the serial is ahead of them. */
  predicate Serial(db: Db) {
    Ascending(db.rows, db.nextId)
  }

  predicate Ascending(rows: seq<Row>, top: nat) {
    && (forall i, j :: 0 <= i < j < |rows| ==> rows[i].id < rows[j].id)
    && (forall i :: 0 <= i < |rows| ==> rows[i].id < top)
  }

  lemma {:induction false} FilterInOrder(rows: seq<Row>, all: seq<Row>, l: LoopId, keep: int, top: nat)
    requires Ascending(rows, top)
    ensures Ascending(Filter(rows, all, l, keep), top)
  {
    if rows != [] {
      FilterInOrder(rows[..|rows| - 1], all, l, keep, rows[|rows| - 1].id);
    }
  }

  lemma SerialStep(db: Db, e: Event)
    requires Serial(db) && Possible(db, e)
    ensures Serial(Next(db, e))
  {
    if e.Pruned? && e.keep > 0 {
      FilterInOrder(db.rows, db.rows, e.loop_, e.keep, db.nextId);
    }
  }

  /** Ids are distinct over any history, so retention keeps exactly as many as asked. */
  lemma {:induction false} IdsStayDistinct(loops: map<LoopId, Loop>, pods: Pods, es: seq<Event>)
    requires History(Empty(loops, pods), es)
    ensures Serial(After(Empty(loops, pods), es)) && DistinctIds(After(Empty(loops, pods), es).rows)
    decreases |es|
  {
    if es != [] {
      IdsStayDistinct(loops, pods, es[..|es| - 1]);
      SerialStep(After(Empty(loops, pods), es[..|es| - 1]), es[|es| - 1]);
    }
  }

  lemma TriggerKeepsNewest(db: Db, m: LoopId, l: LoopId, k: nat, last: nat)
    requires NewestKept(db, l, k, last)
    ensures var (q, r) := Trigger(db, m);
            if m == l && r.Ran? then r.run.number == k + 1 && NewestKept(q, l, k + 1, r.run.id)
            else NewestKept(q, l, k, last)
  {
    MaxNumberIs(db.rows, l, k);
    var (q, r) := Trigger(db, m);
    if k > 0 {
      var i :| 0 <= i < |db.rows| && db.rows[i].loop_ == l && db.rows[i].id == last && db.rows[i].number == k;
      assert r.Ran? ==> q.rows[i] == db.rows[i];
    }
    if r.Ran? {
      assert q.rows[|db.rows|] == r.run;
    }
  }

  lemma PruneKeepsNewest(db: Db, m: LoopId, keep: int, l: LoopId, k: nat, last: nat)
    requires NewestKept(db, l, k, last)
    ensures NewestKept(DeleteOldFinished(db, m, keep), l, k, last)
  {
    var q := DeleteOldFinished(db, m, keep);
    if keep > 0 {
      FilterKeeps(db.rows, db.rows, m, keep);
      forall i | 0 <= i < |q.rows| ensures q.rows[i] in db.rows {
        assert q.rows[i] in q.rows;
      }
      if k > 0 {
        var i :| 0 <= i < |db.rows| && db.rows[i].loop_ == l && db.rows[i].id == last && db.rows[i].number == k;
        NoneNewer(db.rows, l, last);
        assert Retained(db.rows, m, keep, db.rows[i]);
        assert db.rows[i] in q.rows;
      }
    }
  }

  lemma WriteKeepsNewest(db: Db, e: Event, l: LoopId, k: nat, last: nat)
    requires NewestKept(db, l, k, last) && e.Written? && Possible(db, e)
    ensures NewestKept(Next(db, e), l, k, last)
  {
    if k > 0 {
      var i :| 0 <= i < |db.rows| && db.rows[i].loop_ == l && db.rows[i].id == last && db.rows[i].number == k;
      assert e.rows[i].loop_ == l && e.rows[i].id == last && e.rows[i].number == k;
    }
  }

  function Empty(loops: map<LoopId, Loop>, pods: Pods): Db {
    Db(loops, [], pods, 0)
  }

  lemma {:induction false} NewestSurvives(loops: map<LoopId, Loop>, pods: Pods, es: seq<Event>, l: LoopId) returns (last: nat)
    requires History(Empty(loops, pods), es)
    ensures NewestKept(After(Empty(loops, pods), es), l, |Issued(Empty(loops, pods), es, l)|, last)
    ensures forall i :: 0 <= i < |Issued(Empty(loops, pods), es, l)| ==> Issued(Empty(loops, pods), es, l)[i] == i + 1
    decreases |es|
  {
    var db := Empty(loops, pods);
    last := 0;
    if es != [] {
      var rest, e := es[..|es| - 1], es[|es| - 1];
      last := NewestSurvives(loops, pods, rest, l);
      last := NewestStep(After(db, rest), e, l, |Issued(db, rest, l)|, last);
    }
  }

  /** One event: a number it issues for the loop is the next one. */
  lemma NewestStep(db: Db, e: Event, l: LoopId, k: nat, last: nat) returns (newest: nat)
    requires NewestKept(db, l, k, last) && Possible(db, e)
    ensures IssuedBy(db, e, l) == [] || IssuedBy(db, e, l) == [k + 1]
    ensures NewestKept(Next(db, e), l, k + |IssuedBy(db, e, l)|, newest)
  {
    newest := last;
    match e
    case Triggered(m) =>
      TriggerKeepsNewest(db, m, l, k, last);
      if m == l && Trigger(db, l).1.Ran? { newest := Trigger(db, l).1.run.id; }
    case Pruned(m, keep) => PruneKeepsNewest(db, m, keep, l, k, last);
    case PodChanged(_, _) =>
    case Written(_, _, _) => WriteKeepsNewest(db, e, l, k, last);
  }

  /** Run numbers are never reissued: whatever is triggered, skipped, finished,
      rewritten and pruned, the runs of a loop are numbered 1, 2, 3, ... in the
      order of their creation. */
  lemma RunNumbersAreConsecutive(loops: map<LoopId, Loop>, pods: Pods, es: seq<Event>, l: LoopId)
    requires History(Empty(loops, pods), es)
    ensures var n := Issued(Empty(loops, pods), es, l); n == seq(|n|, i => i + 1)
  {
    var last := NewestSurvives(loops, pods, es, l);
  }

  // ---------------------------------------------------------- concurrency cap

  /** No run that had no slot has one afterwards. */
  ghost predicate NoRevival(db: Db, rows: seq<Row>, pods: Pods) {
    |rows| == |db.rows| &&
    forall i :: 0 <= i < |rows| && IsActive(rows[i], pods) ==> IsActive(db.rows[i], db.pods)
  }

  /** An event after which the cap of loop `l` is still `max` and no run revives. */
  ghost predicate Quiet(db: Db, e: Event, l: LoopId, max: int) {
    && (e.Written? ==> NoRevival(db, e.rows, e.pods) && (l in e.loops ==> e.loops[l].max == max))
    && (e.PodChanged? ==> NoRevival(db, db.rows, db.pods[e.pod := e.status]))
  }

  ghost predicate QuietHistory(db: Db, es: seq<Event>, l: LoopId, max: int)
    requires History(db, es)
    decreases |es|
  {
    es == [] ||
    (QuietHistory(db, es[..|es| - 1], l, max) && Quiet(After(db, es[..|es| - 1]), es[|es| - 1], l, max))
  }

  lemma {:induction false} CountMonotone(a: seq<Row>, p: Pods, b: seq<Row>, q: Pods, l: LoopId)
    requires SameRuns(a, b) && forall i :: 0 <= i < |a| && IsActive(b[i], q) ==> IsActive(a[i], p)
    ensures CountActive(b, q, l) <= CountActive(a, p, l)
  {
    if a != [] {
      CountMonotone(a[..|a| - 1], p, b[..|b| - 1], q, l);
    }
  }

  lemma {:induction false} FilterCounts(rows: seq<Row>, all: seq<Row>, m: LoopId, keep: int, pods: Pods, l: LoopId)
    ensures CountActive(Filter(rows, all, m, keep), pods, l) <= CountActive(rows, pods, l)
  {
    if rows != [] {
      var front, r := rows[..|rows| - 1], rows[|rows| - 1];
      FilterCounts(front, all, m, keep, pods, l);
      var f := Filter(front, all, m, keep);
      assert (f + [r])[..|f + [r]| - 1] == f && f + [] == f;
    }
  }

  lemma TriggerCounts(db: Db, m: LoopId, l: LoopId)
    ensures var (q, r) := Trigger(db, m);
            CountActive(q.rows, q.pods, l) ==
            CountActive(db.rows, db.pods, l) + (if m == l && r.Ran? && !r.skipped then 1 else 0)
  {
    var (q, r) := Trigger(db, m);
    if r.Ran? {
      assert q.rows[..|q.rows| - 1] == db.rows;
    }
  }

  lemma {:induction false} CapHolds(db: Db, es: seq<Event>, l: LoopId, max: int)
    requires History(db, es) && QuietHistory(db, es, l, max)
    requires WithinCap(db, l, max)
    requires l in db.loops ==> db.loops[l].max == max
    ensures var q := After(db, es);
            && WithinCap(q, l, max)
            && (l in q.loops ==> q.loops[l].max == max)
    decreases |es|
  {
    if es != [] {
      var rest, e := es[..|es| - 1], es[|es| - 1];
      CapHolds(db, rest, l, max);
      var s := After(db, rest);
      QuietStepHolds(s, e, l, max);
    }
  }

  /** Concurrency cap: from an empty table, with a fixed cap for the loop, and as
      long as no other writer gives a slot to a run that had none, the number of
      active runs never exceeds the cap. */
  lemma ConcurrencyCap(loops: map<LoopId, Loop>, pods: Pods, es: seq<Event>, l: LoopId)
    requires l in loops && History(Empty(loops, pods), es) && QuietHistory(Empty(loops, pods), es, l, loops[l].max)
    ensures var q := After(Empty(loops, pods), es);
            CountActive(q.rows, q.pods, l) <= Cap(loops[l].max)
  {
    CapHolds(Empty(loops, pods), es, l, loops[l].max);
  }

  /** Skipped runs never consume a slot, and a run is skipped exactly at the cap. */
  lemma SkippedExactlyAtCap(db: Db, l: LoopId)
    requires Trigger(db, l).1.Ran?
    ensures var (q, r) := Trigger(db, l);
            && (r.skipped <==> CountActive(db.rows, db.pods, l) >= db.loops[l].max)
            && (r.skipped <==> CountActive(q.rows, q.pods, l) == CountActive(db.rows, db.pods, l))
            && (r.skipped <==> !IsActive(r.run, q.pods))
  {
    TriggerCounts(db, l, l);
  }

  // ---------------------------------------------- the writers that are quiet

  /** Attaching a pod to a pending run that has none. */
  lemma AttachIsQuiet(db: Db, i: nat, p: PodKey)
    requires i < |db.rows| && db.rows[i].pod.None? && db.rows[i].status == Pending
    ensures NoRevival(db, db.rows[i := db.rows[i].(pod := Some(p))], db.pods)
  {
  }

  /** FinishRun: a run that is not pending any more and whose pod is untouched. */
  lemma FinishIsQuiet(db: Db, i: nat, status: RunStatus)
    requires i < |db.rows| && !db.rows[i].finished && status != Pending
    ensures NoRevival(db, db.rows[i := db.rows[i].(status := status, finished := true)], db.pods)
  {
  }

  /** A pod's status change is quiet if and only if it does not turn an inactive
      pod of some run into an active one. */
  lemma PodChangeIsQuietExactlyWhen(db: Db, p: PodKey, s: PodStatus)
    ensures NoRevival(db, db.rows, db.pods[p := s]) <==>
            ((exists i :: 0 <= i < |db.rows| && db.rows[i].pod == Some(p)) && IsActivePod(s) ==>
               p in db.pods && IsActivePod(db.pods[p]))
  {
    if i :| 0 <= i < |db.rows| && db.rows[i].pod == Some(p) {
      assert IsActivePod(s) ==> IsActive(db.rows[i], db.pods[p := s]);
    }
  }

  // ------------------------------------------- when pods change as they please

  /** The runs of the loop that are attached to the pod. */
  function OnPod(rows: seq<Row>, l: LoopId, p: PodKey): nat {
    if rows == [] then 0
    else
      OnPod(rows[..|rows| - 1], l, p) +
      (var r := rows[|rows| - 1]; if r.loop_ == l && r.pod == Some(p) then 1 else 0)
  }

  predicate IsUp(pods: Pods, p: PodKey) {
    p in pods && IsActivePod(pods[p])
  }

  /** How many slots of the loop the pod's change takes, or gives back. */
  function Taken(rows: seq<Row>, pods: Pods, l: LoopId, p: PodKey, s: PodStatus): int {
    var runs: int := OnPod(rows, l, p);
    if IsActivePod(s) && !IsUp(pods, p) then runs
    else if !IsActivePod(s) && IsUp(pods, p) then -runs
    else 0
  }

  /** What the pod's change will make of the active count, told beforehand. */
  function Expected(db: Db, l: LoopId, p: PodKey, s: PodStatus): int {
    CountActive(db.rows, db.pods, l) + Taken(db.rows, db.pods, l, p, s)
  }

  lemma {:induction false} PodChangeCounts(rows: seq<Row>, pods: Pods, l: LoopId, p: PodKey, s: PodStatus)
    ensures CountActive(rows, pods[p := s], l) ==
            CountActive(rows, pods, l) + Taken(rows, pods, l, p, s)
  {
    if rows != [] {
      PodChangeCounts(rows[..|rows| - 1], pods, l, p, s);
    }
  }

  function Cap(max: int): nat {
    if max < 0 then 0 else max
  }

  ghost predicate WithinCap(db: Db, l: LoopId, max: int) {
    CountActive(db.rows, db.pods, l) <= Cap(max)
  }

  /** After a pod's status change the cap holds if and only if the active runs, plus
      the loop's runs on that pod when it comes back, minus them when it goes, are
      within it. */
  lemma CapAfterPodChangeExactlyWhen(db: Db, l: LoopId, max: int, p: PodKey, s: PodStatus)
    ensures WithinCap(Next(db, PodChanged(p, s)), l, max) <==> Expected(db, l, p, s) <= Cap(max)
  {
    PodChangeCounts(db.rows, db.pods, l, p, s);
  }

  /** Like a quiet history, but pods may change as they please. */
  ghost predicate PodHistory(db: Db, es: seq<Event>, l: LoopId, max: int)
    requires History(db, es)
    decreases |es|
  {
    es == [] ||
    (PodHistory(db, es[..|es| - 1], l, max) &&
     (es[|es| - 1].PodChanged? || Quiet(After(db, es[..|es| - 1]), es[|es| - 1], l, max)))
  }

  ghost predicate AlwaysWithinCap(db: Db, es: seq<Event>, l: LoopId, max: int)
    requires History(db, es)
    decreases |es|
  {
    WithinCap(After(db, es), l, max) && (es == [] || AlwaysWithinCap(db, es[..|es| - 1], l, max))
  }

  /** Some pod of the history changed although its runs did not fit. */
  ghost predicate Overbooked(db: Db, es: seq<Event>, l: LoopId, max: int)
    requires History(db, es)
    decreases |es|
  {
    es != [] &&
    (Overbooked(db, es[..|es| - 1], l, max) ||
     (es[|es| - 1].PodChanged? &&
      Expected(After(db, es[..|es| - 1]), l, es[|es| - 1].pod, es[|es| - 1].status) > Cap(max)))
  }

  /** One event that is quiet, from a state within the cap. */
  lemma QuietStepHolds(db: Db, e: Event, l: LoopId, max: int)
    requires Possible(db, e) && Quiet(db, e, l, max) && WithinCap(db, l, max) && (l in db.loops ==> db.loops[l].max == max)
    ensures WithinCap(Next(db, e), l, max)
  {
    match e
    case Triggered(m) => TriggerCounts(db, m, l);
    case Pruned(m, keep) => if keep > 0 { FilterCounts(db.rows, db.rows, m, keep, db.pods, l); }
    case PodChanged(p, status) => CountMonotone(db.rows, db.pods, db.rows, db.pods[p := status], l);
    case Written(rows, pods, _) => CountMonotone(db.rows, db.pods, rows, pods, l);
  }

  lemma {:induction false} CapStaysFixed(db: Db, es: seq<Event>, l: LoopId, max: int)
    requires History(db, es) && PodHistory(db, es, l, max) && (l in db.loops ==> db.loops[l].max == max)
    ensures l in After(db, es).loops ==> After(db, es).loops[l].max == max
    decreases |es|
  {
    if es != [] {
      CapStaysFixed(db, es[..|es| - 1], l, max);
    }
  }

  /** The cap holds throughout a history, whatever pods do, if and only if no pod
      ever comes back to find too little room for its runs. */
  lemma {:induction false} CapHoldsExactlyWhen(loops: map<LoopId, Loop>, pods: Pods, es: seq<Event>, l: LoopId)
    requires l in loops && History(Empty(loops, pods), es) && PodHistory(Empty(loops, pods), es, l, loops[l].max)
    ensures AlwaysWithinCap(Empty(loops, pods), es, l, loops[l].max) <==> !Overbooked(Empty(loops, pods), es, l, loops[l].max)
    decreases |es|
  {
    var db, max := Empty(loops, pods), loops[l].max;
    if es != [] {
      var rest, e := es[..|es| - 1], es[|es| - 1];
      CapHoldsExactlyWhen(loops, pods, rest, l);
      CapStaysFixed(db, rest, l, max);
      if AlwaysWithinCap(db, rest, l, max) {
        if e.PodChanged? { CapAfterPodChangeExactlyWhen(After(db, rest), l, max, e.pod, e.status); }
        else { QuietStepHolds(After(db, rest), e, l, max); }
      }
    }
  }

  /** That does happen: an orphaned pod that comes back finds its slot taken. */
  lemma OrphanReturnExceedsCap(l: LoopId, p: PodKey) returns (es: seq<Event>)
    ensures History(Empty(map[l := Loop(true, 1)], map[]), es)
    ensures var q := After(Empty(map[l := Loop(true, 1)], map[]), es); CountActive(q.rows, q.pods, l) == 2
  {
    var loops := map[l := Loop(true, 1)];
    var db := Empty(loops, map[]);
    var first := Row(0, l, 1, Pending, Some(p), false);
    var second := Row(1, l, 2, Pending, None, false);
    var e1, e2 := Triggered(l), Written([first], map[p := Orphaned], loops);
    var e3, e4 := Triggered(l), PodChanged(p, Active);
    var s1 := Next(db, e1);
    assert s1.rows == [first.(pod := None)];
    var s2 := Next(s1, e2);
    TwoRows(first, second, map[p := Orphaned], l);
    assert MaxNumber([first], l) == 1 by { assert [first][..0] == []; }
    var s3 := Next(s2, e3);
    assert s3.rows == [first, second];
    var s4 := Next(s3, e4);
    assert map[p := Orphaned][p := Active] == map[p := Active];
    TwoRows(first, second, map[p := Active], l);
    es := [];
    Extend(db, es, e1);
    es := es + [e1];
    Extend(db, es, e2);
    es := es + [e2];
    Extend(db, es, e3);
    es := es + [e3];
    Extend(db, es, e4);
    es := es + [e4];
  }

  lemma Extend(db: Db, es: seq<Event>, e: Event)
    requires History(db, es) && Possible(After(db, es), e)
    ensures History(db, es + [e]) && After(db, es + [e]) == Next(After(db, es), e)
  {
    assert (es + [e])[..|es|] == es;
  }

  lemma TwoRows(a: Row, b: Row, pods: Pods, l: LoopId)
    requires a.loop_ == l && b.loop_ == l
    ensures CountActive([a], pods, l) == (if IsActive(a, pods) then 1 else 0)
    ensures CountActive([a, b], pods, l) == CountActive([a], pods, l) + (if IsActive(b, pods) then 1 else 0)
  {
    assert [a][..0] == [] && [a, b][..1] == [a];
  }

  // --------------------------------------------------- the repository object

  /** An autopilot's phase, as far as it matters to its run. */
  datatype Phase = InProgress | PhaseCompleted | PhaseFailed | PhaseStopped | PhaseMaxIterations

  /** DeriveRunStatus: a terminal autopilot phase decides, otherwise a pod that is
      done, otherwise the run is running. */
  function Derived(pod: Option<PodStatus>, phase: Option<Phase>): RunStatus {
    match phase
    case Some(PhaseCompleted) => Completed
    case Some(PhaseMaxIterations) => Completed
    case Some(PhaseFailed) => Failed
    case Some(PhaseStopped) => Cancelled
    case _ =>
      match pod
      case Some(Done) => Completed
      case Some(Terminated) => Cancelled
      case Some(Errored) => Failed
      case _ => Running
  }

  function Effective(r: Row, pods: Pods, autopilots: map<nat, Phase>): RunStatus {
    if r.finished || r.pod.None? then r.status
    else
      Derived(if r.pod.value in pods then Some(pods[r.pod.value]) else None,
              if r.id in autopilots then Some(autopilots[r.id]) else None)
  }

  predicate IsFailure(s: RunStatus) {
    s in {Failed, TimedOut, Cancelled}
  }

  /** How many rows of the loop, finished or not as asked, have which result. */
  datatype Tally = Tally(total: nat, successful: nat, failed: nat)

  function Counted(rows: seq<Row>, pods: Pods, autopilots: map<nat, Phase>, l: LoopId, wanted: set<bool>): Tally {
    if rows == [] then Tally(0, 0, 0)
    else
      var r := rows[|rows| - 1];
      var t := Counted(rows[..|rows| - 1], pods, autopilots, l, wanted);
      if r.loop_ != l || r.finished !in wanted then t
      else
        var e := Effective(r, pods, autopilots);
        Tally(t.total + 1, t.successful + (if e == Completed then 1 else 0), t.failed + (if IsFailure(e) then 1 else 0))
  }

  lemma {:induction false} CountedSplits(rows: seq<Row>, pods: Pods, autopilots: map<nat, Phase>, l: LoopId)
    ensures var f, u := Counted(rows, pods, autopilots, l, {true}), Counted(rows, pods, autopilots, l, {false});
            Counted(rows, pods, autopilots, l, {true, false}) ==
            Tally(f.total + u.total, f.successful + u.successful, f.failed + u.failed)
  {
    if rows != [] {
      CountedSplits(rows[..|rows| - 1], pods, autopilots, l);
    }
  }

  /** What one run with a pod adds to the statistics while it is not finished: a
      success if its autopilot completed or ran out of iterations, or has not ended
      and its pod is done; a failure if the autopilot failed or was stopped, or has not
      ended and its pod was terminated or failed; nothing but itself otherwise. An
      orphaned pod is not done, for it may come back. */
  lemma UnfinishedRunTally(r: Row, pods: Pods, autopilots: map<nat, Phase>, l: LoopId)
    requires r.loop_ == l && !r.finished && r.pod.Some?
    ensures var ended := r.id in autopilots && autopilots[r.id] != InProgress;
            var p := r.pod.value;
            Counted([r], pods, autopilots, l, {true, false}) ==
            if (ended && autopilots[r.id] in {PhaseCompleted, PhaseMaxIterations}) || (!ended && p in pods && pods[p] == Done)
            then Tally(1, 1, 0)
            else if (ended && autopilots[r.id] in {PhaseFailed, PhaseStopped})
                 || (!ended && p in pods && pods[p] in {Terminated, Errored})
            then Tally(1, 0, 1)
            else Tally(1, 0, 0)
  {
    assert [r][..0] == [];
  }

  /** And a run whose own status counts, finished or never given a pod. */
  lemma OwnStatusTally(r: Row, pods: Pods, autopilots: map<nat, Phase>, l: LoopId)
    requires r.loop_ == l && (r.finished || r.pod.None?)
    ensures Counted([r], pods, autopilots, l, {true, false}) ==
            Tally(1, if r.status == Completed then 1 else 0, if r.status in {Failed, TimedOut, Cancelled} then 1 else 0)
  {
    assert [r][..0] == [];
  }

  /** The statistics of a table are those of its parts. */
  lemma {:induction false} TallyAppend(a: seq<Row>, b: seq<Row>, pods: Pods, autopilots: map<nat, Phase>, l: LoopId)
    ensures var both := {true, false};
            var s, t := Counted(a, pods, autopilots, l, both), Counted(b, pods, autopilots, l, both);
            Counted(a + b, pods, autopilots, l, both) ==
            Tally(s.total + t.total, s.successful + t.successful, s.failed + t.failed)
  {
    if b == [] {
      assert a + b == a;
    } else {
      TallyAppend(a, b[..|b| - 1], pods, autopilots, l);
      assert (a + b)[..|a + b| - 1] == a + b[..|b| - 1];
    }
  }

  /** A pod is active or finished, and never both; orphaned counts as finished here. */
  lemma PodIsActiveOrFinished(s: PodStatus)
    ensures IsActivePod(s) <==> s !in {Done, Terminated, Orphaned, Errored}
  {
  }

  class LoopRunRepo {
    var loops: map<LoopId, Loop>
    var rows: seq<Row>
    var pods: Pods
    var nextId: nat

    ghost function View(): Db
      reads this
    {
      Db(loops, rows, pods, nextId)
    }

    constructor (loops: map<LoopId, Loop>, pods: Pods)
      ensures View() == Empty(loops, pods)
    {
      this.loops, this.rows, this.pods, nextId := loops, [], pods, 0;
    }

    method TriggerRunAtomic(l: LoopId) returns (r: Outcome)
      modifies this
      ensures (View(), r) == Trigger(old(View()), l)
      ensures l !in old(loops) ==> r == NotFound && View() == old(View())
      ensures l in old(loops) && !old(loops)[l].enabled ==> r == LoopDisabled && View() == old(View())
      ensures l in old(loops) && old(loops)[l].enabled ==>
                r.Ran? && rows == old(rows) + [r.run] && loops == old(loops) && pods == old(pods)
    {
      if l !in loops { return NotFound; }
      if !loops[l].enabled { return LoopDisabled; }
      var active := CountActive(rows, pods, l);
      if active >= loops[l].max {
        r := HandleConcurrencyPolicy(l);
        return;
      }
      var run := Row(nextId, l, MaxNumber(rows, l) + 1, Pending, None, false);
      rows, nextId := rows + [run], nextId + 1;
      r := Ran(run, false);
    }

    method HandleConcurrencyPolicy(l: LoopId) returns (r: Outcome)
      modifies this`rows, this`nextId
      ensures r == Ran(Row(old(nextId), l, MaxNumber(old(rows), l) + 1, Skipped, None, true), true)
      ensures rows == old(rows) + [r.run] && nextId == old(nextId) + 1
    {
      var run := Row(nextId, l, MaxNumber(rows, l) + 1, Skipped, None, true);
      rows, nextId := rows + [run], nextId + 1;
      r := Ran(run, true);
    }

    method DeleteOldFinishedRuns(l: LoopId, keep: int) returns (deleted: nat)
      modifies this`rows
      ensures View() == DeleteOldFinished(old(View()), l, keep)
      ensures deleted == |old(rows)| - |rows|
      ensures keep <= 0 ==> View() == old(View())
      ensures keep > 0 && DistinctIds(old(rows)) ==>
                var n := FinishedRuns(old(rows), l);
                FinishedRuns(rows, l) == (if n <= keep then n else keep) && OtherRows(rows, l) == OtherRows(old(rows), l)
    {
      deleted := 0;
      if keep > 0 {
        FilterShorter(rows, rows, l, keep);
        if DistinctIds(rows) { RetentionKeepsExactly(View(), l, keep); }
        deleted := |rows| - |Filter(rows, rows, l, keep)|;
        rows := Filter(rows, rows, l, keep);
      }
    }

    /** The finished runs are aggregated by the database, the others one by one
        with their derived status; each run of the loop is counted exactly once. */
    method ComputeLoopStats(l: LoopId, autopilots: map<nat, Phase>) returns (total: nat, successful: nat, failed: nat)
      ensures Tally(total, successful, failed) == Counted(rows, pods, autopilots, l, {true, false})
    {
      var done := Counted(rows, pods, autopilots, l, {true});
      total, successful, failed := done.total, done.successful, done.failed;
      for i := 0 to |rows|
        invariant var u := Counted(rows[..i], pods, autopilots, l, {false});
                  total == done.total + u.total && successful == done.successful + u.successful && failed == done.failed + u.failed
      {
        var row := rows[i];
        assert rows[..i + 1][..i] == rows[..i];
        if row.loop_ == l && !row.finished {
          total := total + 1;
          var status := row.status;
          if row.pod.Some? {
            status := Derived(if row.pod.value in pods then Some(pods[row.pod.value]) else None,
                              if row.id in autopilots then Some(autopilots[row.id]) else None);
          }
          if status == Completed {
            successful := successful + 1;
          } else if IsFailure(status) {
            failed := failed + 1;
          }
        }
      }
      assert rows[..|rows|] == rows;
      CountedSplits(rows, pods, autopilots, l);
    }
  }

  lemma {:induction false} FilterShorter(rows: seq<Row>, all: seq<Row>, l: LoopId, keep: int)
    ensures |Filter(rows, all, l, keep)| <= |rows|
  {
    if rows != [] {
      FilterShorter(rows[..|rows| - 1], all, l, keep);
    }
  }
}
