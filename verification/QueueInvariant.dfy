/** The queue's indices agree in every reachable state, and claims follow priority and age. */
module QueueInvariant {
  import opened Common
  import opened Failures
  import opened Jobs
  import opened Queues

  /** What the id of a job fixes once and for all. */
  datatype Identity = Identity(run: nat, kind: JobType, priority: Priority, createdAt: int)

  type Registry = nat -> Identity

  predicate Matches(reg: Registry, job: JobRecord) {
    reg(job.id) == Identity(job.run, job.kind, job.priority, job.createdAt)
  }

  /** What callers publish and ask for: a job that is not held and not finished,
      known by its id, and leases that last. */
  predicate Admissible(reg: Registry, c: Command) {
    match c
    case DoEnqueue(job) => Matches(reg, job) && job.lease == None && job.completedAt == None
    case DoClaim(_, _, duration) => duration > 0
    case DoRenew(_, _, extension) => extension > 0
    case _ => true
  }

  predicate AllAdmissible(reg: Registry, cs: seq<Command>) {
    forall i :: 0 <= i < |cs| ==> Admissible(reg, cs[i])
  }

  function ScoreOf(job: JobRecord): int { Score(job.priority, job.createdAt) }

  // ---- the agreement ----

  /** Ready exactly when QUEUED, under the job's own type. */
  ghost predicate ReadyAgrees(q: Queue) {
    forall kind, id :: id in q.ReadyOf(kind) <==>
      id in q.jobs && q.jobs[id].kind == kind && q.jobs[id].status == Queued
  }

  /** In the lease index exactly when the record holds a lease, at its expiry. */
  ghost predicate LeasesAgree(q: Queue) {
    && (forall id :: id in q.leases <==> id in q.jobs && q.jobs[id].lease.Some?)
    && (forall id :: id in q.leases ==> q.leases[id] == q.jobs[id].lease.value.expiresAt)
  }

  ghost predicate ScoresAgree(q: Queue) {
    && (forall id :: id in q.jobs ==> id in q.scores && q.scores[id] == ScoreOf(q.jobs[id]))
    && (forall kind, id :: id in q.ReadyOf(kind) && id in q.jobs ==> q.ReadyOf(kind)[id] == ScoreOf(q.jobs[id]))
  }

  ghost predicate RunsAgree(q: Queue) {
    forall run, id :: id in q.RunOf(run) <==> id in q.jobs && q.jobs[id].run == run && id !in q.acknowledged
  }

  ghost predicate RecordSound(reg: Registry, s: System, id: nat)
    requires id in s.queue.jobs
  {
    var job := s.queue.jobs[id];
    && job.id == id && Matches(reg, job)
    && job.status in {Queued, Leased, Pending, Dead, Cancelled}
    && (job.status != Dead ==> job.completedAt == None)
    && (job.lease.Some? ==>
          && job.status == Leased && id !in s.queue.acknowledged
          && 0 < job.lease.value.token < s.nextToken && job.lease.value.acquiredAt <= s.now)
    && (job.status == Leased && job.lease == None ==> id in s.queue.acknowledged)
    && (id in s.queue.acknowledged ==> job.status == Leased)
  }

  ghost predicate TokensDiffer(q: Queue) {
    forall a, b :: a in q.jobs && b in q.jobs && a != b && q.jobs[a].lease.Some? && q.jobs[b].lease.Some? ==>
      q.jobs[a].lease.value.token != q.jobs[b].lease.value.token
  }

  ghost predicate Inv(reg: Registry, s: System) {
    && ReadyAgrees(s.queue) && LeasesAgree(s.queue) && ScoresAgree(s.queue) && RunsAgree(s.queue)
    && (forall id :: id in s.queue.acknowledged ==> id in s.queue.jobs)
    && (forall id :: id in s.queue.jobs ==> RecordSound(reg, s, id))
    && TokensDiffer(s.queue)
    && s.nextToken > 0
  }

  // ---- one record rewritten, the indices following it ----

  ghost predicate Rewritten(q: Queue, r: Queue, id: nat, job: JobRecord) {
    && r.jobs == q.jobs[id := job]
    && (forall kind :: kind != job.kind ==> r.ReadyOf(kind) == q.ReadyOf(kind))
    && r.ReadyOf(job.kind) == (if job.status == Queued then q.ReadyOf(job.kind)[id := ScoreOf(job)]
                               else q.ReadyOf(job.kind) - {id})
    && r.leases == (if job.lease.Some? then q.leases[id := job.lease.value.expiresAt] else q.leases - {id})
    && r.scores == q.scores[id := ScoreOf(job)]
  }

  lemma RewritingKeepsIndices(reg: Registry, s: System, r: Queue, id: nat, job: JobRecord)
    requires Inv(reg, s) && Rewritten(s.queue, r, id, job)
    requires job.id == id && Matches(reg, job)
    ensures ReadyAgrees(r) && LeasesAgree(r) && ScoresAgree(r)
  {
    var q := s.queue;
    assert id in q.jobs ==> RecordSound(reg, s, id);
    forall kind, i
      ensures i in r.ReadyOf(kind) <==> i in r.jobs && r.jobs[i].kind == kind && r.jobs[i].status == Queued
      ensures i in r.ReadyOf(kind) ==> i in r.jobs && r.ReadyOf(kind)[i] == ScoreOf(r.jobs[i])
    {
      assert i in q.ReadyOf(kind) <==> i in q.jobs && q.jobs[i].kind == kind && q.jobs[i].status == Queued;
      assert kind == job.kind || r.ReadyOf(kind) == q.ReadyOf(kind);
    }
  }

  /** Only the rewritten record needs looking at: everything else follows. */
  lemma RewritingKeepsInv(reg: Registry, s: System, r: Queue, id: nat, job: JobRecord)
    requires Inv(reg, s) && Rewritten(s.queue, r, id, job) && RunsAgree(r)
    requires forall o :: o != id ==> (o in r.acknowledged <==> o in s.queue.acknowledged)
    requires RecordSound(reg, s.(queue := r), id)
    requires job.lease.Some? ==> forall o :: o in s.queue.jobs && o != id && s.queue.jobs[o].lease.Some? ==>
               s.queue.jobs[o].lease.value.token != job.lease.value.token
    ensures Inv(reg, s.(queue := r))
  {
    RewritingKeepsIndices(reg, s, r, id, job);
    forall i | i in r.jobs
      ensures RecordSound(reg, s.(queue := r), i)
    {
      assert i == id || RecordSound(reg, s, i);
    }
  }

  lemma SameRunsAgree(q: Queue, r: Queue, id: nat)
    requires RunsAgree(q) && r.runs == q.runs && r.acknowledged == q.acknowledged
    requires id in q.jobs && r.jobs.Keys == q.jobs.Keys && r.jobs[id].run == q.jobs[id].run
    requires forall o :: o in q.jobs && o != id ==> r.jobs[o] == q.jobs[o]
    ensures RunsAgree(r)
  {
    forall run, i
      ensures i in r.RunOf(run) <==> i in r.jobs && r.jobs[i].run == run && i !in r.acknowledged
    {
      assert i in q.RunOf(run) <==> i in q.jobs && q.jobs[i].run == run && i !in q.acknowledged;
    }
  }

  // ---- each operation ----

  predicate Publishable(q: Queue, job: JobRecord) {
    !(job.id in q.jobs && (q.jobs[job.id].status.IsInFlight() || job.id in q.acknowledged))
  }

  /** In any queue at all: a job that is leased, running or acknowledged refuses
      to be published; any other is then ready under its type and in its place. */
  lemma PublishingMeans(q: Queue, job: JobRecord)
    ensures var r := EnqueueJob(q, job);
      if job.id in q.jobs && (q.jobs[job.id].status.Leased? || q.jobs[job.id].status.Running? || job.id in q.acknowledged) then r == q
      else
        && job.id in r.jobs && r.jobs[job.id] == job.(status := Queued)
        && job.id in r.ReadyOf(job.kind) && r.ReadyOf(job.kind)[job.id] == Score(job.priority, job.createdAt)
        && job.id in r.RunOf(job.run) && r.leases == q.leases && r.acknowledged == q.acknowledged
  {
  }

  lemma EnqueueShape(q: Queue, job: JobRecord)
    requires Publishable(q, job) && job.lease == None && job.id !in q.leases
    ensures var r := EnqueueJob(q, job);
            Rewritten(q, r, job.id, job.(status := Queued)) && r.acknowledged == q.acknowledged
  {
    assert q.leases - {job.id} == q.leases;
  }

  lemma EnqueueKeepsRuns(q: Queue, job: JobRecord)
    requires Publishable(q, job) && RunsAgree(q) && job.id !in q.acknowledged
    requires job.id in q.jobs ==> q.jobs[job.id].run == job.run
    ensures RunsAgree(EnqueueJob(q, job))
  {
    var r := EnqueueJob(q, job);
    forall run, i
      ensures i in r.RunOf(run) <==> i in r.jobs && r.jobs[i].run == run && i !in r.acknowledged
    {
      assert i in q.RunOf(run) <==> i in q.jobs && q.jobs[i].run == run && i !in q.acknowledged;
      assert r.RunOf(run) == if run == job.run then q.RunOf(run) + {job.id} else q.RunOf(run);
    }
  }

  lemma EnqueueKeepsInv(reg: Registry, s: System, job: JobRecord)
    requires Inv(reg, s) && Admissible(reg, DoEnqueue(job))
    ensures Inv(reg, s.(queue := EnqueueJob(s.queue, job)))
  {
    var q := s.queue;
    var r := EnqueueJob(q, job);
    assert job.id in q.jobs ==> RecordSound(reg, s, job.id);
    if Publishable(q, job) {
      assert job.id !in q.acknowledged && job.id !in q.leases;
      EnqueueShape(q, job);
      EnqueueKeepsRuns(q, job);
      hide EnqueueJob, ReadyAgrees, LeasesAgree, ScoresAgree, RunsAgree, Score;
      RewritingKeepsInv(reg, s, r, job.id, job.(status := Queued));
    }
  }

  /** No entry of a ready set is stale, so a claim takes the first one it finds. */
  lemma ClaimTakesTheFirst(reg: Registry, s: System, consumer: nat, wanted: seq<JobType>, duration: int)
    requires Inv(reg, s)
    ensures var spot := NextReady(s.queue, wanted);
            spot.Some? ==>
              && spot.value.id in s.queue.jobs && s.queue.jobs[spot.value.id].status == Queued
              && s.queue.jobs[spot.value.id].kind == spot.value.kind && spot.value.kind in wanted
              && spot.value.score == ScoreOf(s.queue.jobs[spot.value.id])
  {
    NextReadyIsReady(s.queue, wanted);
    var spot := NextReady(s.queue, wanted);
    if spot.Some? {
      assert spot.value.id in s.queue.ReadyOf(spot.value.kind);
    }
  }

  lemma LaterTokenKeepsInv(reg: Registry, s: System)
    requires Inv(reg, s)
    ensures Inv(reg, s.(nextToken := s.nextToken + 1))
  {
    forall i | i in s.queue.jobs
      ensures RecordSound(reg, s.(nextToken := s.nextToken + 1), i)
    {
      assert RecordSound(reg, s, i);
    }
  }

  /** What a claim that finds a job does to the queue. */
  lemma ClaimShape(q: Queue, consumer: nat, wanted: seq<JobType>, duration: int, now: int, token: nat)
    requires duration > 0 && NextReady(q, wanted).Some?
    requires var spot := NextReady(q, wanted).value;
      && spot.id in q.jobs && q.jobs[spot.id].status == Queued && q.jobs[spot.id].kind == spot.kind
      && spot.kind in q.ready && spot.id in q.scores && q.scores[spot.id] == ScoreOf(q.jobs[spot.id])
    ensures var id := NextReady(q, wanted).value.id;
      var r := ClaimNext(q, consumer, wanted, duration, now, token).queue;
      && Rewritten(q, r, id, LeaseTo(q.jobs[id], consumer, now, duration, token).job)
      && r.runs == q.runs && r.acknowledged == q.acknowledged
  {
    var id := NextReady(q, wanted).value.id;
    assert q.scores == q.scores[id := ScoreOf(q.jobs[id])];
    hide NextReady;
  }

  lemma ClaimKeepsInv(reg: Registry, s: System, consumer: nat, wanted: seq<JobType>, duration: int)
    requires Inv(reg, s) && duration > 0
    ensures Inv(reg, s.(queue := ClaimNext(s.queue, consumer, wanted, duration, s.now, s.nextToken).queue,
                        nextToken := s.nextToken + 1))
  {
    var q := s.queue;
    ClaimTakesTheFirst(reg, s, consumer, wanted, duration);
    LaterTokenKeepsInv(reg, s);
    var spot := NextReady(q, wanted);
    if spot.Some? {
      NextReadyIsReady(q, wanted);
      var id := spot.value.id;
      var r := ClaimNext(q, consumer, wanted, duration, s.now, s.nextToken).queue;
      var job := LeaseTo(q.jobs[id], consumer, s.now, duration, s.nextToken).job;
      assert RecordSound(reg, s, id);
      ClaimShape(q, consumer, wanted, duration, s.now, s.nextToken);
      SameRunsAgree(q, r, id);
      forall o | o in q.jobs && o != id && q.jobs[o].lease.Some?
        ensures q.jobs[o].lease.value.token != s.nextToken
      {
        assert RecordSound(reg, s, o);
      }
      hide ClaimNext, NextReady, ReadyAgrees, ScoresAgree, RunsAgree, LeasesAgree, Score;
      RewritingKeepsInv(reg, s.(nextToken := s.nextToken + 1), r, id, job);
    }
  }

  /** Rewriting a record that stays out of the ready set. */
  lemma UnreadyShape(q: Queue, r: Queue, id: nat, job: JobRecord)
    requires id in q.scores && q.scores[id] == ScoreOf(job) && job.status != Queued
    requires id !in q.ReadyOf(job.kind) && r.ready == q.ready && r.scores == q.scores
    requires r.jobs == q.jobs[id := job]
    requires r.leases == if job.lease.Some? then q.leases[id := job.lease.value.expiresAt] else q.leases - {id}
    ensures Rewritten(q, r, id, job)
  {
    assert q.scores == q.scores[id := ScoreOf(job)];
    assert q.ReadyOf(job.kind) - {id} == q.ReadyOf(job.kind);
  }

  lemma RenewKeepsInv(reg: Registry, s: System, id: nat, token: nat, extension: int)
    requires Inv(reg, s)
    ensures Inv(reg, s.(queue := Renew(s.queue, id, token, extension, s.now).queue))
  {
    var q := s.queue;
    var r := Renew(q, id, token, extension, s.now).queue;
    if r != q {
      var job := RenewLease(q.jobs[id], token, s.now, extension).job;
      assert RecordSound(reg, s, id);
      UnreadyShape(q, r, id, job);
      SameRunsAgree(q, r, id);
      hide Renew, ReadyAgrees, ScoresAgree, RunsAgree, Score;
      RewritingKeepsInv(reg, s, r, id, job);
    }
  }

  lemma AcknowledgeKeepsRuns(q: Queue, id: nat, token: nat)
    requires RunsAgree(q) && q.Holds(id, token)
    ensures RunsAgree(Acknowledge(q, id, token))
  {
    var r := Acknowledge(q, id, token);
    var job := q.jobs[id];
    forall run, i
      ensures i in r.RunOf(run) <==> i in r.jobs && r.jobs[i].run == run && i !in r.acknowledged
    {
      assert i in q.RunOf(run) <==> i in q.jobs && q.jobs[i].run == run && i !in q.acknowledged;
      assert r.RunOf(run) == if run == job.run then q.RunOf(run) - {id} else q.RunOf(run);
    }
  }

  lemma AcknowledgeKeepsInv(reg: Registry, s: System, id: nat, token: nat)
    requires Inv(reg, s)
    ensures Inv(reg, s.(queue := Acknowledge(s.queue, id, token)))
  {
    var q := s.queue;
    var r := Acknowledge(q, id, token);
    if q.Holds(id, token) {
      var job := q.jobs[id].Released();
      assert RecordSound(reg, s, id);
      UnreadyShape(q, r, id, job);
      AcknowledgeKeepsRuns(q, id, token);
      assert r.acknowledged == q.acknowledged + {id};
      hide Acknowledge, ReadyAgrees, ScoresAgree, RunsAgree, LeasesAgree, Score;
      RewritingKeepsInv(reg, s, r, id, job);
    }
  }

  lemma RequeuedShape(q: Queue, r: Queue, id: nat, job: JobRecord)
    requires id in q.scores && q.scores[id] == ScoreOf(job) && job.status == Queued && job.lease == None
    requires r.jobs == q.jobs[id := job] && r.scores == q.scores && r.leases == q.leases - {id}
    requires r.ready == q.ready[job.kind := q.ReadyOf(job.kind)[id := q.scores[id]]]
    ensures Rewritten(q, r, id, job)
  {
    assert q.scores == q.scores[id := ScoreOf(job)];
  }

  lemma ReleaseShape(q: Queue, id: nat, token: nat, requeue: bool)
    requires q.Holds(id, token) && q.jobs[id].status == Leased && ReadyAgrees(q)
    requires id in q.scores && q.scores[id] == ScoreOf(q.jobs[id])
    ensures var r := Release(q, id, token, requeue);
            && Rewritten(q, r, id, q.jobs[id].Released().(status := if requeue then Queued else Pending))
            && r.runs == q.runs && r.acknowledged == q.acknowledged
  {
    var r := Release(q, id, token, requeue);
    var job := q.jobs[id].Released().(status := if requeue then Queued else Pending);
    if requeue {
      RequeuedShape(q, r, id, job);
    } else {
      UnreadyShape(q, r, id, job);
    }
  }

  lemma ReleaseKeepsInv(reg: Registry, s: System, id: nat, token: nat, requeue: bool)
    requires Inv(reg, s)
    ensures Inv(reg, s.(queue := Release(s.queue, id, token, requeue)))
  {
    var q := s.queue;
    var r := Release(q, id, token, requeue);
    if q.Holds(id, token) {
      var job := q.jobs[id].Released().(status := if requeue then Queued else Pending);
      assert RecordSound(reg, s, id);
      ReleaseShape(q, id, token, requeue);
      SameRunsAgree(q, r, id);
      hide Release, ReadyAgrees, ScoresAgree, RunsAgree, LeasesAgree, Score;
      RewritingKeepsInv(reg, s, r, id, job);
    }
  }

  /** Reclaiming one lapsed lease, spelled out: back in line, or dead on the spot. */
  lemma ReclaimOneShape(reg: Registry, s: System, id: nat)
    requires Inv(reg, s) && id in s.queue.leases && s.queue.leases[id] <= s.now
    ensures var job := s.queue.jobs[id];
            var r := ReclaimOne(s.queue, id, s.now);
            && r.jobs[id] == (if job.attempt < job.maxAttempts then job.Released().(status := Queued)
                              else job.Released().(status := Dead, failureKind := Some(Infrastructure),
                                                   completedAt := Some(s.now)))
            && Rewritten(s.queue, r, id, r.jobs[id])
            && r.runs == s.queue.runs && r.acknowledged == s.queue.acknowledged
  {
    var q := s.queue;
    assert RecordSound(reg, s, id);
    var job := q.jobs[id];
    var r := ReclaimOne(q, id, s.now);
    if job.attempt < job.maxAttempts {
      RequeuedShape(q, r, id, r.jobs[id]);
    } else {
      UnreadyShape(q, r, id, r.jobs[id]);
    }
  }

  lemma ReclaimOneKeepsInv(reg: Registry, s: System, id: nat)
    requires Inv(reg, s) && id in s.queue.leases && s.queue.leases[id] <= s.now
    ensures Inv(reg, s.(queue := ReclaimOne(s.queue, id, s.now)))
    ensures ReclaimOne(s.queue, id, s.now).leases == s.queue.leases - {id}
  {
    ReclaimOneShape(reg, s, id);
    assert RecordSound(reg, s, id);
    var r := ReclaimOne(s.queue, id, s.now);
    SameRunsAgree(s.queue, r, id);
    hide ReclaimOne, ReadyAgrees, ScoresAgree, RunsAgree, Score;
    RewritingKeepsInv(reg, s, r, id, r.jobs[id]);
  }

  ghost predicate DistinctIds(ids: seq<nat>) { forall i, j :: 0 <= i < j < |ids| ==> ids[i] != ids[j] }

  lemma {:induction false} ReclaimAllDropsLeases(q: Queue, ids: seq<nat>, now: int)
    ensures ReclaimAll(q, ids, now).leases == q.leases - (set id | id in ids)
  {
    hide ReclaimOne;
    if ids != [] {
      var before, id := ids[..|ids| - 1], ids[|ids| - 1];
      assert ids == before + [id];
      ReclaimAllDropsLeases(q, before, now);
      ReclaimOneDropsLease(ReclaimAll(q, before, now), id, now);
    }
  }

  lemma ReclaimOneDropsLease(q: Queue, id: nat, now: int)
    ensures ReclaimOne(q, id, now).leases == q.leases - {id}
  {
  }

  lemma {:induction false} ReclaimAllKeepsInv(reg: Registry, s: System, ids: seq<nat>)
    requires Inv(reg, s) && DistinctIds(ids)
    requires forall id :: id in ids ==> id in s.queue.leases && s.queue.leases[id] <= s.now
    ensures Inv(reg, s.(queue := ReclaimAll(s.queue, ids, s.now)))
    ensures ReclaimAll(s.queue, ids, s.now).leases == s.queue.leases - (set id | id in ids)
  {
    hide Inv, ReclaimOne;
    ReclaimAllDropsLeases(s.queue, ids, s.now);
    if ids != [] {
      var before, id := ids[..|ids| - 1], ids[|ids| - 1];
      assert ids == before + [id];
      assert id in ids && id !in before;
      ReclaimAllKeepsInv(reg, s, before);
      ReclaimAllDropsLeases(s.queue, before, s.now);
      ReclaimOneKeepsInv(reg, s.(queue := ReclaimAll(s.queue, before, s.now)), id);
    }
  }

  lemma DueIsDistinctAndLapsed(leases: map<nat, int>, now: int, limit: nat)
    ensures DistinctIds(Due(leases, now, limit))
    ensures forall id :: id in Due(leases, now, limit) ==> id in leases && leases[id] <= now
  {
    var lapsed := Lapsed(leases, now);
    OrderedHoldsAll(lapsed);
    OrderedIsOrdered(lapsed);
    var all, due := Ordered(lapsed), Due(leases, now, limit);
    forall i, j | 0 <= i < j < |due|
      ensures due[i] != due[j]
    {
      assert due[i] == all[i] && due[j] == all[j];
      assert Precedes(lapsed, all[i], all[j]);
    }
    forall id | id in due
      ensures id in leases && leases[id] <= now
    {
      assert id in all;
    }
  }

  /** A reclaim deals with leases that are due by now, the earliest first, and
      leaves a due one out only when it has dealt with as many as it may. */
  lemma EarliestAreDue(leases: map<nat, int>, now: int, limit: nat)
    ensures var due := Due(leases, now, limit);
      && |due| <= limit
      && (forall i, j :: 0 <= i < j < |due| ==> due[i] in leases && due[j] in leases && Precedes(leases, due[i], due[j]))
      && (forall id :: id in leases && leases[id] <= now && id !in due ==>
            |due| == limit && forall i :: 0 <= i < |due| ==> due[i] in leases && Precedes(leases, due[i], id))
  {
    var lapsed := Lapsed(leases, now);
    OrderedHoldsAll(lapsed);
    OrderedIsOrdered(lapsed);
    var all, due := Ordered(lapsed), Due(leases, now, limit);
    forall id | id in leases && leases[id] <= now && id !in due
      ensures |due| == limit && forall i :: 0 <= i < |due| ==> due[i] in leases && Precedes(leases, due[i], id)
    {
      assert id in all;
      var k :| 0 <= k < |all| && all[k] == id;
      assert k >= |due|;
      forall i | 0 <= i < |due|
        ensures due[i] in leases && Precedes(leases, due[i], id)
      {
        assert due[i] == all[i] && Precedes(lapsed, all[i], all[k]);
      }
    }
    forall i, j | 0 <= i < j < |due|
      ensures due[i] in leases && due[j] in leases && Precedes(leases, due[i], due[j])
    {
      assert due[i] == all[i] && due[j] == all[j] && Precedes(lapsed, all[i], all[j]);
    }
  }

  lemma CancelShape(q: Queue, id: nat)
    requires Stoppable(q, id) && id in q.scores && q.scores[id] == ScoreOf(q.jobs[id])
    ensures var job := q.jobs[id].Released().(status := Cancelled, failureKind := Some(CancelledByRun));
            Rewritten(q, CancelOne(q, id), id, job)
  {
    var r := CancelOne(q, id);
    assert q.scores == q.scores[id := q.scores[id]];
    assert r.ReadyOf(q.jobs[id].kind) == q.ReadyOf(q.jobs[id].kind) - {id};
  }

  lemma CancelOneKeepsInv(reg: Registry, s: System, id: nat)
    requires Inv(reg, s) && id !in s.queue.acknowledged
    ensures Inv(reg, s.(queue := CancelOne(s.queue, id)))
    ensures CancelOne(s.queue, id).acknowledged == s.queue.acknowledged
  {
    var q := s.queue;
    var r := CancelOne(q, id);
    if Stoppable(q, id) {
      var job := q.jobs[id].Released().(status := Cancelled, failureKind := Some(CancelledByRun));
      assert RecordSound(reg, s, id);
      CancelShape(q, id);
      SameRunsAgree(q, r, id);
      hide CancelOne, ReadyAgrees, ScoresAgree, RunsAgree, LeasesAgree, Score;
      RewritingKeepsInv(reg, s, r, id, job);
    }
  }

  lemma {:induction false} CancelAllKeepsInv(reg: Registry, s: System, ids: seq<nat>)
    requires Inv(reg, s) && forall id :: id in ids ==> id !in s.queue.acknowledged
    ensures Inv(reg, s.(queue := CancelAll(s.queue, ids)))
    ensures CancelAll(s.queue, ids).acknowledged == s.queue.acknowledged
  {
    if ids != [] {
      var before, id := ids[..|ids| - 1], ids[|ids| - 1];
      assert ids == before + [id];
      CancelAllKeepsInv(reg, s, before);
      CancelOneKeepsInv(reg, s.(queue := CancelAll(s.queue, before)), id);
    }
  }

  lemma RunIdsAreTheRun(q: Queue, run: nat)
    ensures forall id :: id in RunIds(q, run) <==> id in q.RunOf(run)
    ensures DistinctIds(RunIds(q, run))
  {
    var m := map id | id in q.RunOf(run) :: 0;
    OrderedHoldsAll(m);
    OrderedIsOrdered(m);
    var ids := Ordered(m);
    forall i, j | 0 <= i < j < |ids|
      ensures ids[i] != ids[j]
    {
      assert Precedes(m, ids[i], ids[j]);
    }
  }

  lemma StepKeepsInv(reg: Registry, s: System, c: Command)
    requires Inv(reg, s) && Admissible(reg, c)
    ensures Inv(reg, After(s, c))
  {
    match c
    case Tick(elapsed) =>
      forall id | id in s.queue.jobs
        ensures RecordSound(reg, After(s, c), id)
      {
        assert RecordSound(reg, s, id);
      }
    case DoEnqueue(job) => EnqueueKeepsInv(reg, s, job);
    case DoClaim(consumer, wanted, duration) => ClaimKeepsInv(reg, s, consumer, wanted, duration);
    case DoRenew(id, token, extension) => RenewKeepsInv(reg, s, id, token, extension);
    case DoAcknowledge(id, token) => AcknowledgeKeepsInv(reg, s, id, token);
    case DoRelease(id, token, requeue) => ReleaseKeepsInv(reg, s, id, token, requeue);
    case DoReclaim(limit) =>
      DueIsDistinctAndLapsed(s.queue.leases, s.now, limit);
      ReclaimAllKeepsInv(reg, s, Due(s.queue.leases, s.now, limit));
    case DoCancel(run) =>
      RunIdsAreTheRun(s.queue, run);
      forall id | id in RunIds(s.queue, run)
        ensures id !in s.queue.acknowledged
      {
        assert id in s.queue.RunOf(run);
      }
      CancelAllKeepsInv(reg, s, RunIds(s.queue, run));
  }

  function Start(now: int): System { System(Empty(), now, 1) }

  lemma {:induction false} InvAlways(reg: Registry, now: int, cs: seq<Command>)
    requires AllAdmissible(reg, cs)
    ensures Inv(reg, Exec(Start(now), cs))
  {
    if cs != [] {
      var before := cs[..|cs| - 1];
      InvAlways(reg, now, before);
      StepKeepsInv(reg, Exec(Start(now), before), cs[|cs| - 1]);
    }
  }

  /** Index agreement in every reachable state: ready means QUEUED, leased means
      holding a lease with that expiry, never both; and a ready job always stands
      at the place its priority and age give it, however often it was handed back. */
  lemma IndicesAgree(reg: Registry, now: int, cs: seq<Command>, id: nat, kind: JobType)
    requires AllAdmissible(reg, cs)
    ensures var q := Exec(Start(now), cs).queue;
            && (id in q.ReadyOf(kind) <==> id in q.jobs && q.jobs[id].status == Queued && q.jobs[id].kind == kind)
            && (id in q.leases <==> id in q.jobs && q.jobs[id].lease.Some?)
            && (id in q.leases ==> q.leases[id] == q.jobs[id].lease.value.expiresAt)
            && !(id in q.ReadyOf(kind) && id in q.leases)
            && (id in q.ReadyOf(kind) ==> q.ReadyOf(kind)[id] == ScoreOf(q.jobs[id]))
  {
    hide Exec, Start, AllAdmissible;
    InvAlways(reg, now, cs);
    var s := Exec(Start(now), cs);
    assert id in s.queue.jobs ==> RecordSound(reg, s, id);
  }

  // ---- acknowledged jobs are gone for good ----

  lemma {:induction false} ReclaimAllKeepsAcknowledged(q: Queue, ids: seq<nat>, now: int)
    ensures ReclaimAll(q, ids, now).acknowledged == q.acknowledged
  {
    if ids != [] {
      ReclaimAllKeepsAcknowledged(q, ids[..|ids| - 1], now);
    }
  }

  lemma {:induction false} CancelAllKeepsAcknowledged(q: Queue, ids: seq<nat>)
    ensures CancelAll(q, ids).acknowledged == q.acknowledged
  {
    if ids != [] {
      CancelAllKeepsAcknowledged(q, ids[..|ids| - 1]);
    }
  }

  lemma AcknowledgedGrows(reg: Registry, s: System, c: Command)
    requires Inv(reg, s)
    ensures s.queue.acknowledged <= After(s, c).queue.acknowledged
  {
    match c
    case DoClaim(consumer, wanted, duration) => ClaimTakesTheFirst(reg, s, consumer, wanted, duration);
    case DoReclaim(limit) => ReclaimAllKeepsAcknowledged(s.queue, Due(s.queue.leases, s.now, limit), s.now);
    case DoCancel(run) => CancelAllKeepsAcknowledged(s.queue, RunIds(s.queue, run));
    case _ =>
  }

  /** Once acknowledged, no redelivery and no sequence of commands makes a job claimable again. */
  lemma {:induction false} AcknowledgedNeverReturns(reg: Registry, s: System, cs: seq<Command>, id: nat, kind: JobType)
    requires Inv(reg, s) && AllAdmissible(reg, cs) && id in s.queue.acknowledged
    ensures Inv(reg, Exec(s, cs)) && id in Exec(s, cs).queue.acknowledged
    ensures id !in Exec(s, cs).queue.ReadyOf(kind)
  {
    if cs != [] {
      var before := cs[..|cs| - 1];
      AcknowledgedNeverReturns(reg, s, before, id, kind);
      StepKeepsInv(reg, Exec(s, before), cs[|cs| - 1]);
      AcknowledgedGrows(reg, Exec(s, before), cs[|cs| - 1]);
    }
    assert RecordSound(reg, Exec(s, cs), id);
  }

  // ---- the order of claims ----

  /** The single score encodes priority, then age, and stays an exact double. */
  lemma ScoreEncodesTheOrder(p: Priority, c: int, p': Priority, c': int)
    requires 0 <= c < 10_000_000_000_000 && 0 <= c' < 10_000_000_000_000
    ensures Score(p, c) < Score(p', c') <==> p.Above(p') || (p == p' && c < c')
    ensures Score(p, c) == Score(p', c') <==> p == p' && c == c'
    ensures -0x20_0000_0000_0000 < Score(p, c) < 0x20_0000_0000_0000
  {
  }

  /** However old, a job of a higher priority is claimed first. */
  lemma PrioritiesInLine(a: int, b: int, c: int, d: int)
    requires 0 <= a < 10_000_000_000_000 && 0 <= b < 10_000_000_000_000
    requires 0 <= c < 10_000_000_000_000 && 0 <= d < 10_000_000_000_000
    ensures Score(Critical, a) < Score(High, b) < Score(Normal, c) < Score(Low, d)
  {
  }

  /** `a` comes before `b` in line: higher priority, then older, then lower id. */
  predicate AheadOf(a: JobRecord, b: JobRecord) {
    if a.priority != b.priority then a.priority.Above(b.priority)
    else if a.createdAt != b.createdAt then a.createdAt < b.createdAt
    else a.id < b.id
  }

  ghost predicate Eligible(q: Queue, wanted: seq<JobType>, id: nat) {
    id in q.jobs && q.jobs[id].status == Queued && q.jobs[id].kind in wanted
  }

  lemma {:induction false} NextReadyIsLeast(q: Queue, wanted: seq<JobType>, kind: JobType, id: nat)
    requires kind in wanted && id in q.ReadyOf(kind)
    ensures var spot := NextReady(q, wanted);
            && spot.Some?
            && (spot.value.score < q.ReadyOf(kind)[id]
                || (spot.value.score == q.ReadyOf(kind)[id] && spot.value.id <= id))
  {
    var last := |wanted| - 1;
    var ready := q.ReadyOf(wanted[last]);
    if ready != map[] {
      assert IsLeast(ready, Least(ready));
    }
    if kind in wanted[..last] {
      NextReadyIsLeast(q, wanted[..last], kind, id);
    } else {
      assert kind == wanted[last];
    }
  }

  /** A claim takes the job that is first in line among the requested types, and
      answers that there is none only when there is none. */
  lemma ClaimTakesTheFirstInLine(reg: Registry, s: System, consumer: nat, wanted: seq<JobType>, duration: int)
    requires Inv(reg, s) && duration > 0
    requires forall id :: id in s.queue.jobs ==> 0 <= s.queue.jobs[id].createdAt < PRIORITY_BAND
    ensures var reply := Perform(s, DoClaim(consumer, wanted, duration)).reply;
            if reply.Claimed? then
              && Eligible(s.queue, wanted, reply.job.id)
              && reply.job == LeaseTo(s.queue.jobs[reply.job.id], consumer, s.now, duration, s.nextToken).job
              && (forall id :: Eligible(s.queue, wanted, id) && id != reply.job.id ==>
                    AheadOf(s.queue.jobs[reply.job.id], s.queue.jobs[id]))
            else reply == Nothing && forall id :: !Eligible(s.queue, wanted, id)
  {
    var q := s.queue;
    ClaimTakesTheFirst(reg, s, consumer, wanted, duration);
    var spot := NextReady(q, wanted);
    if spot.Some? {
      var head := spot.value.id;
      assert RecordSound(reg, s, head);
      forall id | Eligible(q, wanted, id) && id != head
        ensures AheadOf(q.jobs[head], q.jobs[id])
      {
        assert id in q.ReadyOf(q.jobs[id].kind) && RecordSound(reg, s, id);
        NextReadyIsLeast(q, wanted, q.jobs[id].kind, id);
        ScoreEncodesTheOrder(q.jobs[head].priority, q.jobs[head].createdAt, q.jobs[id].priority, q.jobs[id].createdAt);
      }
    } else {
      forall id
        ensures !Eligible(q, wanted, id)
      {
        if Eligible(q, wanted, id) {
          assert id in q.ReadyOf(q.jobs[id].kind);
          NextReadyIsLeast(q, wanted, q.jobs[id].kind, id);
        }
      }
    }
  }

  /** A claim with a duration that cannot make a lease loses the job: it leaves
      the ready set but stays QUEUED, and no claim can ever find it. With any
      job to claim, the indices go on agreeing exactly when the duration is positive. */
  lemma ClaimNeedsPositiveDuration(reg: Registry, s: System, consumer: nat, wanted: seq<JobType>, duration: int)
    requires Inv(reg, s) && NextReady(s.queue, wanted).Some?
    ensures ReadyAgrees(After(s, DoClaim(consumer, wanted, duration)).queue) <==> duration > 0
  {
    if duration > 0 {
      ClaimKeepsInv(reg, s, consumer, wanted, duration);
    } else {
      ClaimTakesTheFirst(reg, s, consumer, wanted, duration);
      var spot := NextReady(s.queue, wanted).value;
      var q := After(s, DoClaim(consumer, wanted, duration)).queue;
      assert spot.id !in q.ReadyOf(spot.kind) && q.jobs[spot.id].status == Queued;
    }
  }
}
