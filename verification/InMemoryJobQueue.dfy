/** The in-memory adapter as code: dictionaries changed in place, scans and loops. */
module InMemoryQueue {
  import opened Common
  import opened Failures
  import opened Jobs
  import opened Queues
  import opened QueueInvariant
  import opened QueueFencing

  /** The least key of a dictionary by (value, key). */
  method FindLeast(m: map<nat, int>) returns (best: nat)
    requires m != map[]
    ensures best == Least(m)
  {
    best :| best in m;
    var left := m.Keys - {best};
    while left != {}
      invariant best in m && left <= m.Keys && best !in left
      invariant forall b :: b in m && b !in left && b != best ==> Precedes(m, best, b)
      decreases left
    {
      var x: nat :| x in left;
      left := left - {x};
      if Precedes(m, x, best) {
        best := x;
      }
    }
    LeastIsUnique(m, best);
  }

  /** All keys of a dictionary in order, as `sorted` gives them. */
  method SortKeys(m: map<nat, int>) returns (r: seq<nat>)
    ensures r == Ordered(m)
  {
    r := [];
    var left := m;
    while left != map[]
      invariant r + Ordered(left) == Ordered(m)
      decreases |left|
    {
      var a := FindLeast(left);
      assert (left - {a}).Keys == left.Keys - {a};
      ghost var before, was := r, left;
      r := r + [a];
      left := left - {a};
      assert Ordered(was) == [a] + Ordered(left);
      assert r + Ordered(left) == before + Ordered(was);
    }
  }

  lemma LeastOfOneMore(m: map<nat, int>, x: nat, score: int)
    requires x !in m
    ensures var n := m[x := score];
            Least(n) == if m == map[] then x
                        else if m[Least(m)] < score || (m[Least(m)] == score && Least(m) < x) then Least(m) else x
  {
    var n := m[x := score];
    if m == map[] {
      LeastIsUnique(n, x);
    } else {
      var a := Least(m);
      LeastIsUnique(n, if m[a] < score || (m[a] == score && a < x) then a else x);
    }
  }

  /** The better of a choice so far and the least entry of one more set. */
  ghost function Improve(best: Option<Spot>, kind: JobType, ready: map<nat, int>): Option<Spot> {
    if ready == map[] then best else
    var head := Least(ready);
    if best.None? || ready[head] < best.value.score || (ready[head] == best.value.score && head < best.value.id)
    then Some(Spot(kind, head, ready[head])) else best
  }

  lemma ReclaimingNone(q: Queue, ids: seq<nat>, now: int)
    ensures ReclaimAll(q, ids[..0], now) == q && Known(q, ids[..0]) == []
  {
  }

  lemma ReclaimingOneMore(q: Queue, ids: seq<nat>, i: nat, now: int)
    requires i < |ids|
    ensures ReclaimAll(q, ids[..i + 1], now) == ReclaimOne(ReclaimAll(q, ids[..i], now), ids[i], now)
    ensures Known(q, ids[..i + 1]) == Known(q, ids[..i]) + if ids[i] in ReclaimAll(q, ids[..i], now).jobs then [ids[i]] else []
  {
    assert ids[..i + 1][..i] == ids[..i];
    ReclaimTouches(q, ids[..i], now);
    assert ids[i] in ReclaimAll(q, ids[..i], now).jobs.Keys <==> ids[i] in q.jobs.Keys;
    hide ReclaimOne;
  }

  lemma CancellingNone(q: Queue, ids: seq<nat>)
    ensures CancelAll(q, ids[..0]) == q && StoppedBy(q, ids[..0]) == []
  {
  }

  /** One more member: nothing done to the others has changed whether it is stoppable. */
  lemma CancellingOneMore(q: Queue, ids: seq<nat>, i: nat)
    requires DistinctIds(ids) && i < |ids|
    ensures CancelAll(q, ids[..i + 1]) == CancelOne(CancelAll(q, ids[..i]), ids[i])
    ensures StoppedBy(q, ids[..i + 1])
            == StoppedBy(q, ids[..i]) + if Stoppable(CancelAll(q, ids[..i]), ids[i]) then [ids[i]] else []
  {
    assert ids[..i + 1][..i] == ids[..i];
    CancelTouches(q, ids[..i]);
    assert ids[i] !in ids[..i];
    assert ids[i] in CancelAll(q, ids[..i]).jobs.Keys <==> ids[i] in q.jobs.Keys;
    hide CancelOne;
  }

  class InMemoryJobQueue {
    var jobs: map<nat, JobRecord>
    var ready: map<JobType, map<nat, int>>
    var scores: map<nat, int>
    var leases: map<nat, int>
    var runs: map<nat, set<nat>>
    var acknowledged: set<nat>

    ghost function Contents(): (q: Queue)
      reads this
    {
      Queue(jobs, ready, scores, leases, runs, acknowledged)
    }

    constructor ()
      ensures Contents() == Empty()
    {
      jobs, ready, scores, leases, runs, acknowledged := map[], map[], map[], map[], map[], {};
    }

    method Enqueue(job: JobRecord)
      modifies this
      ensures Contents() == EnqueueJob(old(Contents()), job)
    {
      if job.id in jobs && (jobs[job.id].status.IsInFlight() || job.id in acknowledged) {
        return;
      }
      var score := Score(job.priority, job.createdAt);
      jobs := jobs[job.id := job.(status := Queued)];
      scores := scores[job.id := score];
      var entries := if job.kind in ready then ready[job.kind] else map[];
      ready := ready[job.kind := entries[job.id := score]];
      var members := if job.run in runs then runs[job.run] else {};
      runs := runs[job.run := members + {job.id}];
    }

    /** Lowest score across the requested types, ties broken by id. */
    method Scan(wanted: seq<JobType>) returns (best: Option<Spot>)
      ensures best == NextReady(Contents(), wanted)
    {
      best := None;
      for i := 0 to |wanted|
        invariant best == NextReady(Contents(), wanted[..i])
      {
        var kind := wanted[i];
        var entries: map<nat, int> := if kind in ready then ready[kind] else map[];
        ghost var before := best;
        ghost var seen: map<nat, int> := map[];
        var left := entries.Keys;
        while left != {}
          invariant left <= entries.Keys && seen.Keys == entries.Keys - left
          invariant forall id :: id in seen ==> seen[id] == entries[id]
          invariant best == Improve(before, kind, seen)
          decreases left
        {
          var id: nat :| id in left;
          left := left - {id};
          var score := entries[id];
          LeastOfOneMore(seen, id, score);
          seen := seen[id := score];
          if best.None? || score < best.value.score || (score == best.value.score && id < best.value.id) {
            best := Some(Spot(kind, id, score));
          }
        }
        assert seen == entries;
        assert wanted[..i + 1][..i] == wanted[..i];
      }
      assert wanted[..|wanted|] == wanted;
    }

    /** Atomically take the highest-priority eligible job, or none. */
    method Claim(consumer: nat, wanted: seq<JobType>, duration: int, now: int, token: nat) returns (reply: Reply)
      modifies this
      ensures Outcome(Contents(), reply) == ClaimNext(old(Contents()), consumer, wanted, duration, now, token)
    {
      while true
        invariant ClaimNext(Contents(), consumer, wanted, duration, now, token)
                  == ClaimNext(old(Contents()), consumer, wanted, duration, now, token)
        decreases ReadyPairs(Contents())
      {
        var found := Scan(wanted);
        if found.None? {
          return Nothing;
        }
        NextReadyIsReady(Contents(), wanted);
        var kind, id := found.value.kind, found.value.id;
        ghost var was := Contents();
        ready := ready[kind := ready[kind] - {id}];
        assert Contents() == was.DropReady(kind, id);
        assert (kind, id) in ReadyPairs(was) && (kind, id) !in ReadyPairs(Contents());
        if id in jobs && jobs[id].status == Queued {
          var step := LeaseTo(jobs[id], consumer, now, duration, token);
          if !step.answer.Held? {
            return Refused;
          }
          jobs := jobs[id := step.job];
          leases := leases[id := step.answer.lease.expiresAt];
          return Claimed(step.job, step.answer.lease);
        }
      }
    }

    method Renew(id: nat, token: nat, duration: int, now: int) returns (reply: Reply)
      modifies this
      ensures Outcome(Contents(), reply) == Queues.Renew(old(Contents()), id, token, duration, now)
    {
      if id !in jobs {
        return Refused;
      }
      var step := RenewLease(jobs[id], token, now, duration);
      if !step.answer.Held? {
        return Refused;
      }
      jobs := jobs[id := step.job];
      leases := leases[id := step.answer.lease.expiresAt];
      reply := Extended(step.answer.lease);
    }

    method Acknowledge(id: nat, token: nat)
      modifies this
      ensures Contents() == Queues.Acknowledge(old(Contents()), id, token)
    {
      if id !in jobs || jobs[id].lease.None? || jobs[id].lease.value.token != token {
        return;
      }
      leases := leases - {id};
      if jobs[id].run in runs {
        runs := runs[jobs[id].run := runs[jobs[id].run] - {id}];
      }
      acknowledged := acknowledged + {id};
      jobs := jobs[id := jobs[id].Released()];
    }

    method Release(id: nat, token: nat, requeue: bool)
      modifies this
      ensures Contents() == Queues.Release(old(Contents()), id, token, requeue)
    {
      if id !in jobs || jobs[id].lease.None? || jobs[id].lease.value.token != token {
        return;
      }
      leases := leases - {id};
      jobs := jobs[id := jobs[id].Released().(status := if requeue then Queued else Pending)];
      if requeue {
        PutBack(jobs[id].kind, id);
      }
    }

    /** Into the ready set at the stored score: the place the job had. */
    method PutBack(kind: JobType, id: nat)
      modifies this`ready
      ensures Contents() == old(Contents()).MakeReady(kind, id, old(Contents()).PlaceOf(id))
    {
      var entries := if kind in ready then ready[kind] else map[];
      ready := ready[kind := entries[id := if id in scores then scores[id] else 0]];
    }

    /** One lapsed lease: back in line or dead, and whether there was a record at all. */
    method ReclaimJob(id: nat, now: int) returns (known: bool)
      modifies this
      ensures Contents() == ReclaimOne(old(Contents()), id, now) && known == (id in old(jobs))
    {
      leases := leases - {id};
      known := id in jobs;
      if known {
        var job := jobs[id];
        var expired := ExpireLease(job, now);
        if expired.answer == Flag(true) {
          jobs := jobs[id := Requeue(expired.job).job];
          PutBack(job.kind, id);
        } else {
          jobs := jobs[id := expired.job];
        }
      }
    }

    /** Return jobs whose lease lapsed, the earliest expiry first, at most `limit`. */
    method ReclaimExpired(now: int, limit: nat) returns (reclaimed: seq<nat>)
      modifies this
      ensures Outcome(Contents(), Ids(reclaimed)) == Queues.ReclaimExpired(old(Contents()), now, limit)
    {
      ghost var q := Contents();
      var lapsed: map<nat, int> := map id | id in leases && leases[id] <= now :: leases[id];
      var sorted := SortKeys(lapsed);
      var due := if |sorted| <= limit then sorted else sorted[..limit];
      assert due == Due(q.leases, now, limit);
      ReclaimingNone(q, due, now);
      hide ReclaimAll, ReclaimOne, Known, Due;
      reclaimed := [];
      for i := 0 to |due|
        invariant Contents() == ReclaimAll(q, due[..i], now)
        invariant reclaimed == Known(q, due[..i])
      {
        ReclaimingOneMore(q, due, i, now);
        var known := ReclaimJob(due[i], now);
        if known {
          reclaimed := reclaimed + [due[i]];
        }
      }
      assert due[..|due|] == due;
    }

    /** Stop one job, unless it is unknown or finished. */
    method CancelJob(id: nat) returns (stopped: bool)
      modifies this
      ensures Contents() == CancelOne(old(Contents()), id) && stopped == Stoppable(old(Contents()), id)
    {
      stopped := id in jobs && !jobs[id].status.IsTerminal();
      if stopped {
        var job := jobs[id];
        if job.kind in ready {
          ready := ready[job.kind := ready[job.kind] - {id}];
        }
        leases := leases - {id};
        jobs := jobs[id := job.Released().(status := Cancelled, failureKind := Some(CancelledByRun))];
      }
    }

    /** Drop every unfinished job of a run, in-flight ones included. */
    method CancelRunJobs(run: nat) returns (cancelled: seq<nat>)
      modifies this
      ensures Outcome(Contents(), Ids(cancelled)) == Queues.CancelRunJobs(old(Contents()), run)
    {
      ghost var q := Contents();
      var members: set<nat> := if run in runs then runs[run] else {};
      var ids := SortKeys(map id | id in members :: 0);
      assert ids == RunIds(q, run);
      RunIdsAreTheRun(q, run);
      hide CancelAll, CancelOne, StoppedBy, RunIds, DistinctIds, Stoppable;
      CancellingNone(q, ids);
      cancelled := [];
      for i := 0 to |ids|
        invariant Contents() == CancelAll(q, ids[..i])
        invariant cancelled == StoppedBy(q, ids[..i])
      {
        CancellingOneMore(q, ids, i);
        var stopped := CancelJob(ids[i]);
        if stopped {
          cancelled := cancelled + [ids[i]];
        }
      }
      assert ids[..|ids|] == ids;
    }
  }
}
