/** The leased job queue: what each operation of the in-memory adapter does. */
module Queues {
  import opened Common
  import opened Failures
  import opened Jobs

  // Job ids are UUIDs of one fixed width, so their text order is a number order.

  const PRIORITY_BAND: int := 10_000_000_000_000

  /** Priority first, age as the tie-breaker; the lowest score is claimed first. */
  function Score(priority: Priority, createdAt: int): int { createdAt - priority.Rank() * PRIORITY_BAND }

  datatype Queue = Queue(
    jobs: map<nat, JobRecord>,
    ready: map<JobType, map<nat, int>>,
    scores: map<nat, int>,
    leases: map<nat, int>,
    runs: map<nat, set<nat>>,
    acknowledged: set<nat>)
  {
    function ReadyOf(kind: JobType): map<nat, int> { if kind in ready then ready[kind] else map[] }

    function RunOf(run: nat): set<nat> { if run in runs then runs[run] else {} }

    /** The stored score, which puts a job back where it was. Every stored job has one. */
    function PlaceOf(id: nat): int { if id in scores then scores[id] else 0 }

    function MakeReady(kind: JobType, id: nat, score: int): Queue {
      this.(ready := ready[kind := ReadyOf(kind)[id := score]])
    }

    function DropReady(kind: JobType, id: nat): Queue {
      if kind in ready then this.(ready := ready[kind := ready[kind] - {id}]) else this
    }

    function DropLease(id: nat): Queue { this.(leases := leases - {id}) }

    function Store(id: nat, job: JobRecord): Queue { this.(jobs := jobs[id := job]) }

    /** Whether the report comes from the worker that currently owns the job. */
    predicate Holds(id: nat, token: nat) {
      id in jobs && jobs[id].lease.Some? && jobs[id].lease.value.token == token
    }
  }

  function Empty(): Queue { Queue(map[], map[], map[], map[], map[], {}) }

  // ---- least entry of a scored set ----

  /** Lower score first, ties broken by id: the order of a sorted set. */
  predicate Precedes(m: map<nat, int>, a: nat, b: nat)
    requires a in m && b in m
  {
    m[a] < m[b] || (m[a] == m[b] && a < b)
  }

  ghost predicate IsLeast(m: map<nat, int>, a: nat) {
    a in m && forall b :: b in m && b != a ==> Precedes(m, a, b)
  }

  lemma {:induction false} LeastExists(m: map<nat, int>)
    requires m != map[]
    ensures exists a :: IsLeast(m, a)
    decreases |m|
  {
    var x :| x in m;
    var rest := m - {x};
    assert rest.Keys == m.Keys - {x};
    assert forall b :: b in m && b != x ==> b in rest && rest[b] == m[b];
    if rest == map[] {
      assert IsLeast(m, x);
    } else {
      LeastExists(rest);
      var a :| IsLeast(rest, a);
      var w := if Precedes(m, a, x) then a else x;
      forall b | b in m && b != w
        ensures Precedes(m, w, b)
      {
        assert b == x || b == a || Precedes(rest, a, b);
      }
      assert IsLeast(m, w);
    }
  }

  ghost function Least(m: map<nat, int>): (a: nat)
    requires m != map[]
    ensures IsLeast(m, a)
  {
    LeastExists(m);
    var a :| IsLeast(m, a);
    a
  }

  lemma LeastIsUnique(m: map<nat, int>, a: nat)
    requires IsLeast(m, a)
    ensures m != map[] && Least(m) == a
  {
    assert a in m;
    assert IsLeast(m, Least(m));
  }

  /** All ids of a scored set in its order. */
  ghost function Ordered(m: map<nat, int>): seq<nat>
    decreases |m|
  {
    if m == map[] then [] else
    var a := Least(m);
    assert (m - {a}).Keys == m.Keys - {a};
    [a] + Ordered(m - {a})
  }

  lemma {:induction false} OrderedHoldsAll(m: map<nat, int>)
    ensures forall id :: id in Ordered(m) <==> id in m
    decreases |m|
  {
    if m != map[] {
      var a := Least(m);
      var rest := m - {a};
      assert rest.Keys == m.Keys - {a};
      OrderedHoldsAll(rest);
      assert Ordered(m) == [a] + Ordered(rest);
    }
  }

  ghost predicate InOrder(m: map<nat, int>, r: seq<nat>) {
    forall i, j :: 0 <= i < j < |r| ==> r[i] in m && r[j] in m && Precedes(m, r[i], r[j])
  }

  lemma {:induction false} OrderedIsOrdered(m: map<nat, int>)
    ensures InOrder(m, Ordered(m))
    decreases |m|
  {
    if m != map[] {
      var a := Least(m);
      var rest := m - {a};
      assert rest.Keys == m.Keys - {a};
      OrderedIsOrdered(rest);
      OrderedHoldsAll(rest);
      var r, tail := Ordered(m), Ordered(rest);
      assert r == [a] + tail;
      forall i, j | 0 <= i < j < |r|
        ensures r[i] in m && r[j] in m && Precedes(m, r[i], r[j])
      {
        assert r[j] == tail[j - 1] && tail[j - 1] in rest;
        if i > 0 {
          assert r[i] == tail[i - 1] && tail[i - 1] in rest && Precedes(rest, tail[i - 1], tail[j - 1]);
        }
      }
    }
  }

  // ---- publication ----

  function EnqueueJob(q: Queue, job: JobRecord): Queue {
    if job.id in q.jobs && (q.jobs[job.id].status.IsInFlight() || job.id in q.acknowledged) then q
    else
      var score := Score(job.priority, job.createdAt);
      var q1 := q.Store(job.id, job.(status := Queued)).(scores := q.scores[job.id := score]);
      var q2 := q1.MakeReady(job.kind, job.id, score);
      q2.(runs := q2.runs[job.run := q2.RunOf(job.run) + {job.id}])
  }

  // ---- consumption ----

  datatype Spot = Spot(kind: JobType, id: nat, score: int)

  /** Lowest score across the requested types, ties broken by id. */
  ghost function NextReady(q: Queue, wanted: seq<JobType>): Option<Spot> {
    if wanted == [] then None else
    var best := NextReady(q, wanted[..|wanted| - 1]);
    var kind := wanted[|wanted| - 1];
    var ready := q.ReadyOf(kind);
    if ready == map[] then best else
    var head := Least(ready);
    if best.None? || ready[head] < best.value.score || (ready[head] == best.value.score && head < best.value.id)
    then Some(Spot(kind, head, ready[head])) else best
  }

  lemma {:induction false} NextReadyIsReady(q: Queue, wanted: seq<JobType>)
    ensures var spot := NextReady(q, wanted);
            spot.Some? ==> spot.value.kind in wanted && spot.value.kind in q.ready
                           && spot.value.id in q.ready[spot.value.kind]
                           && q.ready[spot.value.kind][spot.value.id] == spot.value.score
  {
    if wanted != [] {
      NextReadyIsReady(q, wanted[..|wanted| - 1]);
      var ready := q.ReadyOf(wanted[|wanted| - 1]);
      if ready != map[] {
        assert Least(ready) in ready;
      }
    }
  }

  ghost function ReadyPairs(q: Queue): set<(JobType, nat)> {
    set kind, id | kind in q.ready && id in q.ready[kind] :: (kind, id)
  }

  datatype Reply =
    | Nothing
    | Claimed(job: JobRecord, lease: Lease)
    | Extended(lease: Lease)
    | Refused
    | Ids(ids: seq<nat>)

  datatype Outcome = Outcome(queue: Queue, reply: Reply)

  /** Stale entries are dropped on the way; an invalid lease raises after the
      entry has already left the ready set. */
  ghost function ClaimNext(q: Queue, consumer: nat, wanted: seq<JobType>, duration: int, now: int, token: nat): Outcome
    decreases ReadyPairs(q)
  {
    var spot := NextReady(q, wanted);
    if spot.None? then Outcome(q, Nothing) else
    var id := spot.value.id;
    var q1 := q.DropReady(spot.value.kind, id);
    if id !in q.jobs || q.jobs[id].status != Queued then
      NextReadyIsReady(q, wanted);
      assert (spot.value.kind, id) in ReadyPairs(q) && (spot.value.kind, id) !in ReadyPairs(q1);
      ClaimNext(q1, consumer, wanted, duration, now, token)
    else
      var step := LeaseTo(q.jobs[id], consumer, now, duration, token);
      if !step.answer.Held? then Outcome(q1, Refused)
      else
        var lease := step.answer.lease;
        Outcome(q1.Store(id, step.job).(leases := q1.leases[id := lease.expiresAt]), Claimed(step.job, lease))
  }

  function Renew(q: Queue, id: nat, token: nat, duration: int, now: int): Outcome {
    if id !in q.jobs then Outcome(q, Refused) else
    var step := RenewLease(q.jobs[id], token, now, duration);
    if !step.answer.Held? then Outcome(q, Refused)
    else Outcome(q.Store(id, step.job).(leases := q.leases[id := step.answer.lease.expiresAt]), Extended(step.answer.lease))
  }

  function Acknowledge(q: Queue, id: nat, token: nat): Queue {
    if !q.Holds(id, token) then q else
    var job := q.jobs[id];
    var q1 := q.DropLease(id).Store(id, job.Released()).(acknowledged := q.acknowledged + {id});
    if job.run in q1.runs then q1.(runs := q1.runs[job.run := q1.runs[job.run] - {id}]) else q1
  }

  /** The attempt budget is not looked at here. */
  function Release(q: Queue, id: nat, token: nat, requeue: bool): Queue {
    if !q.Holds(id, token) then q else
    var job := q.jobs[id];
    var q1 := q.DropLease(id).Store(id, job.Released().(status := if requeue then Queued else Pending));
    if requeue then q1.MakeReady(job.kind, id, q.PlaceOf(id)) else q1
  }

  // ---- recovery ----

  function ReclaimOne(q: Queue, id: nat, now: int): Queue {
    var q1 := q.DropLease(id);
    if id !in q.jobs then q1 else
    var expired := ExpireLease(q.jobs[id], now);
    if expired.answer == Flag(true)
    then q1.Store(id, Requeue(expired.job).job).MakeReady(q.jobs[id].kind, id, q.PlaceOf(id))
    else q1.Store(id, expired.job)
  }

  function ReclaimAll(q: Queue, ids: seq<nat>, now: int): Queue {
    if ids == [] then q else ReclaimOne(ReclaimAll(q, ids[..|ids| - 1], now), ids[|ids| - 1], now)
  }

  function Lapsed(leases: map<nat, int>, now: int): map<nat, int> {
    map id | id in leases && leases[id] <= now :: leases[id]
  }

  ghost function Take(s: seq<nat>, limit: nat): seq<nat> { if |s| <= limit then s else s[..limit] }

  /** The lapsed leases a reclaim deals with, earliest expiry first. */
  ghost function Due(leases: map<nat, int>, now: int, limit: nat): seq<nat> {
    Take(Ordered(Lapsed(leases, now)), limit)
  }

  /** The ids that have a record, in the same order. */
  function Known(q: Queue, ids: seq<nat>): seq<nat> {
    if ids == [] then []
    else Known(q, ids[..|ids| - 1]) + if ids[|ids| - 1] in q.jobs then [ids[|ids| - 1]] else []
  }

  lemma {:induction false} AllKnown(q: Queue, ids: seq<nat>)
    requires forall id :: id in ids ==> id in q.jobs
    ensures Known(q, ids) == ids
  {
    if ids != [] {
      AllKnown(q, ids[..|ids| - 1]);
    }
  }

  ghost function ReclaimExpired(q: Queue, now: int, limit: nat): Outcome {
    var due := Due(q.leases, now, limit);
    Outcome(ReclaimAll(q, due, now), Ids(Known(q, due)))
  }

  function CancelOne(q: Queue, id: nat): Queue {
    if id !in q.jobs || q.jobs[id].status.IsTerminal() then q else
    var job := q.jobs[id];
    q.DropReady(job.kind, id).DropLease(id)
     .Store(id, job.Released().(status := Cancelled, failureKind := Some(CancelledByRun)))
  }

  function CancelAll(q: Queue, ids: seq<nat>): Queue {
    if ids == [] then q else CancelOne(CancelAll(q, ids[..|ids| - 1]), ids[|ids| - 1])
  }

  predicate Stoppable(q: Queue, id: nat) { id in q.jobs && !q.jobs[id].status.IsTerminal() }

  function StoppedBy(q: Queue, ids: seq<nat>): seq<nat> {
    if ids == [] then [] else
    StoppedBy(q, ids[..|ids| - 1]) + if Stoppable(q, ids[|ids| - 1]) then [ids[|ids| - 1]] else []
  }

  /** The ids of a run in order. */
  ghost function RunIds(q: Queue, run: nat): seq<nat> {
    Ordered(map id | id in q.RunOf(run) :: 0)
  }

  ghost function CancelRunJobs(q: Queue, run: nat): Outcome {
    var ids := RunIds(q, run);
    Outcome(CancelAll(q, ids), Ids(StoppedBy(q, ids)))
  }

  // ---- runs of the queue ----

  datatype Command =
    | Tick(elapsed: nat)
    | DoEnqueue(job: JobRecord)
    | DoClaim(consumer: nat, wanted: seq<JobType>, duration: int)
    | DoRenew(id: nat, token: nat, extension: int)
    | DoAcknowledge(id: nat, token: nat)
    | DoRelease(id: nat, token: nat, requeue: bool)
    | DoReclaim(limit: nat)
    | DoCancel(run: nat)

  /** The queue with its clock and the next fresh lease token. */
  datatype System = System(queue: Queue, now: int, nextToken: nat)

  ghost function Perform(s: System, c: Command): Outcome {
    match c
    case Tick(_) => Outcome(s.queue, Nothing)
    case DoEnqueue(job) => Outcome(EnqueueJob(s.queue, job), Nothing)
    case DoClaim(consumer, wanted, duration) => ClaimNext(s.queue, consumer, wanted, duration, s.now, s.nextToken)
    case DoRenew(id, token, extension) => Renew(s.queue, id, token, extension, s.now)
    case DoAcknowledge(id, token) => Outcome(Acknowledge(s.queue, id, token), Nothing)
    case DoRelease(id, token, requeue) => Outcome(Release(s.queue, id, token, requeue), Nothing)
    case DoReclaim(limit) => ReclaimExpired(s.queue, s.now, limit)
    case DoCancel(run) => CancelRunJobs(s.queue, run)
  }

  ghost function After(s: System, c: Command): System {
    System(Perform(s, c).queue,
           if c.Tick? then s.now + c.elapsed else s.now,
           if c.DoClaim? then s.nextToken + 1 else s.nextToken)
  }

  ghost function Exec(s: System, cs: seq<Command>): System {
    if cs == [] then s else After(Exec(s, cs[..|cs| - 1]), cs[|cs| - 1])
  }
}
