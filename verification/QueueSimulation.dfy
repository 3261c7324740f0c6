/** The two adapters stay in corresponding states and give the same answers. */
module QueueSimulation {
  import opened Common
  import opened Failures
  import opened Jobs
  import opened Queues
  import opened QueueInvariant
  import opened RedisScripts

  // ---- correspondence ----

  ghost predicate Alike(q: Queue, st: Store, id: nat)
    requires id in q.jobs && id in st.hashes
  {
    && Decode(id, st.hashes[id]) == q.jobs[id]
    && st.hashes[id].score == ScoreOf(q.jobs[id])
    && (st.hashes[id].acked <==> id in q.acknowledged)
  }

  ghost predicate SameReady(q: Queue, st: Store) { forall kind :: q.ReadyOf(kind) == st.ReadyOf(kind) }

  ghost predicate SameRuns(q: Queue, st: Store) { forall run :: q.RunOf(run) == st.RunOf(run) }

  ghost predicate SameIndices(q: Queue, st: Store) {
    SameReady(q, st) && q.leases == st.leases && SameRuns(q, st)
  }

  ghost predicate Corresponds(q: Queue, st: Store) {
    && q.jobs.Keys == st.hashes.Keys
    && (forall id :: id in q.jobs ==> Alike(q, st, id))
    && SameIndices(q, st)
  }

  /** Answers agree; the ids a cancellation stopped are compared as sets. */
  ghost predicate SameAnswer(c: Command, a: Reply, b: Reply) {
    if c.DoCancel? then a.Ids? && b.Ids? && forall id :: id in a.ids <==> id in b.ids
    else a == b
  }

  /** A lease token is never the empty string. */
  predicate Lawful(reg: Registry, c: Command) {
    Admissible(reg, c) && (c.DoRenew? || c.DoAcknowledge? || c.DoRelease? ==> c.token > 0)
  }

  predicate AllLawful(reg: Registry, cs: seq<Command>) {
    forall i :: 0 <= i < |cs| ==> Lawful(reg, cs[i])
  }

  // ---- claiming: where ties make a difference ----

  ghost predicate Attains(q: Queue, kind: JobType, score: int) {
    exists id :: id in q.ReadyOf(kind) && q.ReadyOf(kind)[id] == score
  }

  /** The type of the in-memory choice is the first listed type that has its score. */
  ghost predicate FirstToAttain(q: Queue, wanted: seq<JobType>, spot: Spot) {
    exists i :: 0 <= i < |wanted| && wanted[i] == spot.kind
                && forall j :: 0 <= j < i ==> !Attains(q, wanted[j], spot.score)
  }

  ghost predicate LeastScore(q: Queue, wanted: seq<JobType>, score: int) {
    forall j, id :: 0 <= j < |wanted| && id in q.ReadyOf(wanted[j]) ==> score <= q.ReadyOf(wanted[j])[id]
  }

  ghost predicate IsHead(q: Queue, spot: Spot) {
    var ready := q.ReadyOf(spot.kind);
    ready != map[] && spot.id == Least(ready) && spot.score == ready[spot.id]
  }

  lemma {:induction false} MemoryPicksALeastHead(q: Queue, wanted: seq<JobType>)
    ensures var spot := NextReady(q, wanted);
            if spot.None? then forall j :: 0 <= j < |wanted| ==> q.ReadyOf(wanted[j]) == map[]
            else IsHead(q, spot.value) && spot.value.kind in wanted && LeastScore(q, wanted, spot.value.score)
  {
    if wanted != [] {
      MemoryPicksALeastHead(q, wanted[..|wanted| - 1]);
      var ready := q.ReadyOf(wanted[|wanted| - 1]);
      if ready != map[] {
        assert IsLeast(ready, Least(ready));
      }
    }
  }

  lemma {:induction false} ScriptPicksTheFirstLeastHead(q: Queue, st: Store, wanted: seq<JobType>)
    requires SameIndices(q, st)
    ensures var spot := HeadScan(st, wanted);
            if spot.None? then forall j :: 0 <= j < |wanted| ==> q.ReadyOf(wanted[j]) == map[]
            else IsHead(q, spot.value) && LeastScore(q, wanted, spot.value.score)
                 && FirstToAttain(q, wanted, spot.value)
  {
    if wanted != [] {
      var last := |wanted| - 1;
      ScriptPicksTheFirstLeastHead(q, st, wanted[..last]);
      var before := HeadScan(st, wanted[..last]);
      var ready := q.ReadyOf(wanted[last]);
      if ready != map[] {
        assert IsLeast(ready, Least(ready));
      }
      var spot := HeadScan(st, wanted);
      if spot.Some? {
        if spot == before {
          var i :| 0 <= i < last && wanted[i] == spot.value.kind
                   && forall j :: 0 <= j < i ==> !Attains(q, wanted[..last][j], spot.value.score);
          assert forall j :: 0 <= j < i ==> !Attains(q, wanted[j], spot.value.score);
        } else {
          forall j | 0 <= j < last
            ensures !Attains(q, wanted[j], spot.value.score)
          {
            assert wanted[..last][j] == wanted[j];
          }
          assert wanted[last] == spot.value.kind;
        }
      }
    }
  }

  /** Exactly when both adapters pick the same job: unless an earlier listed type
      holds a ready job with the very score of the choice. */
  lemma PicksAgreeExactly(q: Queue, st: Store, wanted: seq<JobType>)
    requires SameIndices(q, st)
    ensures var spot := NextReady(q, wanted);
            HeadScan(st, wanted) == spot <==> (spot.Some? ==> FirstToAttain(q, wanted, spot.value))
  {
    MemoryPicksALeastHead(q, wanted);
    ScriptPicksTheFirstLeastHead(q, st, wanted);
    var spot, scan := NextReady(q, wanted), HeadScan(st, wanted);
    if spot.Some? {
      var k :| 0 <= k < |wanted| && wanted[k] == spot.value.kind;
      assert spot.value.id in q.ReadyOf(wanted[k]);
      assert scan.Some?;
      assert scan.value.kind in wanted;
      SameScore(q, wanted, spot.value, scan.value);
      if FirstToAttain(q, wanted, spot.value) {
        FirstIsUnique(q, wanted, spot.value, scan.value);
      }
    }
  }

  lemma SameScore(q: Queue, wanted: seq<JobType>, a: Spot, b: Spot)
    requires IsHead(q, a) && IsHead(q, b) && a.kind in wanted && b.kind in wanted
    requires LeastScore(q, wanted, a.score) && LeastScore(q, wanted, b.score)
    ensures a.score == b.score
  {
    var i :| 0 <= i < |wanted| && wanted[i] == a.kind;
    var j :| 0 <= j < |wanted| && wanted[j] == b.kind;
    assert a.id in q.ReadyOf(wanted[i]) && b.id in q.ReadyOf(wanted[j]);
  }

  lemma FirstIsUnique(q: Queue, wanted: seq<JobType>, a: Spot, b: Spot)
    requires IsHead(q, a) && IsHead(q, b) && a.score == b.score
    requires FirstToAttain(q, wanted, a) && FirstToAttain(q, wanted, b)
    ensures a == b
  {
    var i :| 0 <= i < |wanted| && wanted[i] == a.kind && forall j :: 0 <= j < i ==> !Attains(q, wanted[j], a.score);
    var k :| 0 <= k < |wanted| && wanted[k] == b.kind && forall j :: 0 <= j < k ==> !Attains(q, wanted[j], b.score);
    assert Attains(q, wanted[i], a.score) && Attains(q, wanted[k], b.score);
  }

  /** No two ready jobs of different requested types share a score. */
  ghost predicate TieFree(q: Queue, wanted: seq<JobType>) {
    forall j, k, a, b :: 0 <= j < |wanted| && 0 <= k < |wanted| && wanted[j] != wanted[k]
                         && a in q.ReadyOf(wanted[j]) && b in q.ReadyOf(wanted[k]) ==>
      q.ReadyOf(wanted[j])[a] != q.ReadyOf(wanted[k])[b]
  }

  lemma TieFreePicksAgree(q: Queue, st: Store, wanted: seq<JobType>)
    requires SameIndices(q, st) && TieFree(q, wanted)
    ensures HeadScan(st, wanted) == NextReady(q, wanted)
  {
    PicksAgreeExactly(q, st, wanted);
    MemoryPicksALeastHead(q, wanted);
    var spot := NextReady(q, wanted);
    if spot.Some? {
      FirstOccurrence(wanted, spot.value.kind);
      var i :| 0 <= i < |wanted| && wanted[i] == spot.value.kind && spot.value.kind !in wanted[..i];
      forall j | 0 <= j < i
        ensures !Attains(q, wanted[j], spot.value.score)
      {
        assert wanted[j] in wanted[..i];
        assert spot.value.id in q.ReadyOf(wanted[i]);
      }
    }
  }

  lemma {:induction false} FirstOccurrence(wanted: seq<JobType>, kind: JobType)
    requires kind in wanted
    ensures exists i :: 0 <= i < |wanted| && wanted[i] == kind && kind !in wanted[..i]
  {
    if wanted[0] == kind {
      assert kind !in wanted[..0];
    } else {
      FirstOccurrence(wanted[1..], kind);
      var i :| 0 <= i < |wanted| - 1 && wanted[1..][i] == kind && kind !in wanted[1..][..i];
      assert wanted[..i + 1] == [wanted[0]] + wanted[1..][..i];
      assert wanted[i + 1] == kind && kind !in wanted[..i + 1];
    }
  }

  // ---- the indices move together ----

  lemma ReadyAdded(q: Queue, st: Store, r: Queue, rt: Store, kind: JobType, id: nat, score: int)
    requires SameReady(q, st)
    requires r.ready == q.ready[kind := q.ReadyOf(kind)[id := score]]
    requires rt.ready == st.ready[kind := st.ReadyOf(kind)[id := score]]
    ensures SameReady(r, rt)
  {
    forall k
      ensures r.ReadyOf(k) == rt.ReadyOf(k)
    {
      assert q.ReadyOf(k) == st.ReadyOf(k) && q.ReadyOf(kind) == st.ReadyOf(kind);
    }
  }

  lemma ReadyDropped(q: Queue, st: Store, r: Queue, rt: Store, kind: JobType, id: nat)
    requires SameReady(q, st)
    requires r.ready == q.DropReady(kind, id).ready && rt.ready == st.ZRemReady(kind, id).ready
    ensures SameReady(r, rt)
  {
    forall k
      ensures r.ReadyOf(k) == rt.ReadyOf(k)
    {
      assert q.ReadyOf(k) == st.ReadyOf(k) && q.ReadyOf(kind) == st.ReadyOf(kind);
    }
  }

  lemma IndicesKept(q: Queue, st: Store, r: Queue, rt: Store)
    requires SameIndices(q, st)
    ensures r.ready == q.ready && rt.ready == st.ready ==> SameReady(r, rt)
    ensures r.runs == q.runs && rt.runs == st.runs ==> SameRuns(r, rt)
  {
    if r.ready == q.ready && rt.ready == st.ready {
      forall k
        ensures r.ReadyOf(k) == rt.ReadyOf(k)
      {
        assert q.ReadyOf(k) == st.ReadyOf(k);
      }
    }
    if r.runs == q.runs && rt.runs == st.runs {
      forall run
        ensures r.RunOf(run) == rt.RunOf(run)
      {
        assert q.RunOf(run) == st.RunOf(run);
      }
    }
  }

  lemma RunAdded(q: Queue, st: Store, r: Queue, rt: Store, run: nat, id: nat)
    requires SameRuns(q, st)
    requires r.runs == q.runs[run := q.RunOf(run) + {id}] && rt.runs == st.runs[run := st.RunOf(run) + {id}]
    ensures SameRuns(r, rt)
  {
    forall o
      ensures r.RunOf(o) == rt.RunOf(o)
    {
      assert q.RunOf(o) == st.RunOf(o) && q.RunOf(run) == st.RunOf(run);
    }
  }

  lemma RunDropped(q: Queue, st: Store, r: Queue, rt: Store, run: nat, id: nat)
    requires SameRuns(q, st)
    requires r.runs == if run in q.runs then q.runs[run := q.runs[run] - {id}] else q.runs
    requires rt.runs == st.runs[run := st.RunOf(run) - {id}]
    ensures SameRuns(r, rt)
  {
    forall o
      ensures r.RunOf(o) == rt.RunOf(o)
    {
      assert q.RunOf(o) == st.RunOf(o) && q.RunOf(run) == st.RunOf(run);
    }
  }

  // ---- one record rewritten on both sides ----

  lemma RewrittenTogether(q: Queue, st: Store, r: Queue, rt: Store, id: nat)
    requires Corresponds(q, st) && SameIndices(r, rt)
    requires id in r.jobs && id in rt.hashes && Alike(r, rt, id)
    requires r.jobs == q.jobs[id := r.jobs[id]] && rt.hashes == st.hashes[id := rt.hashes[id]]
    requires forall o :: o != id ==> (o in r.acknowledged <==> o in q.acknowledged)
    ensures Corresponds(r, rt)
  {
    hide SameIndices, Decode, Score;
    forall o | o in r.jobs
      ensures o in rt.hashes && Alike(r, rt, o)
    {
      assert o == id || (o in q.jobs.Keys && Alike(q, st, o));
    }
    assert r.jobs.Keys == q.jobs.Keys + {id} == st.hashes.Keys + {id} == rt.hashes.Keys;
  }

  lemma EnqueueTogether(reg: Registry, s: System, st: Store, job: JobRecord)
    requires Inv(reg, s) && Corresponds(s.queue, st) && Admissible(reg, DoEnqueue(job))
    ensures Corresponds(EnqueueJob(s.queue, job), EnqueueScript(st, job))
  {
    var q := s.queue;
    assert job.id in q.jobs.Keys <==> job.id in st.hashes.Keys;
    if job.id in q.jobs {
      assert RecordSound(reg, s, job.id) && Alike(q, st, job.id);
    }
    assert job.id in q.acknowledged ==> job.id in q.jobs;
    if Publishable(q, job) {
      EncodeThenDecode(job.(status := Queued));
      EnqueueRefusal(q, st, job);
      hide Inv, RecordSound, Score, Corresponds, SameIndices;
      EnqueueIndicesOf(q, st, job);
      RewrittenTogether(q, st, EnqueueJob(q, job), EnqueueScript(st, job), job.id);
    } else {
      EnqueueRefusal(q, st, job);
    }
  }

  lemma EnqueueRefusal(q: Queue, st: Store, job: JobRecord)
    requires Corresponds(q, st)
    requires job.id in q.acknowledged ==> job.id in q.jobs
    ensures Publishable(q, job) <==>
              !(job.id in st.hashes && (st.hashes[job.id].status in {Leased, Running} || st.hashes[job.id].acked))
  {
    assert job.id in q.jobs.Keys <==> job.id in st.hashes.Keys;
    if job.id in q.jobs {
      assert Alike(q, st, job.id);
    }
  }

  lemma EnqueueIndicesOf(q: Queue, st: Store, job: JobRecord)
    requires Corresponds(q, st) && Publishable(q, job)
    requires !(job.id in st.hashes && (st.hashes[job.id].status in {Leased, Running} || st.hashes[job.id].acked))
    ensures SameIndices(EnqueueJob(q, job), EnqueueScript(st, job))
  {
    hide Score;
    var r, rt := EnqueueJob(q, job), EnqueueScript(st, job);
    ReadyAdded(q, st, r, rt, job.kind, job.id, Score(job.priority, job.createdAt));
    RunAdded(q, st, r, rt, job.run, job.id);
  }

  lemma ClaimTogether(reg: Registry, s: System, st: Store, consumer: nat, wanted: seq<JobType>, duration: int)
    requires Inv(reg, s) && Corresponds(s.queue, st) && duration > 0 && TieFree(s.queue, wanted)
    ensures var a := ClaimNext(s.queue, consumer, wanted, duration, s.now, s.nextToken);
            var b := ClaimScript(st, consumer, wanted, duration, s.now, s.nextToken, CLAIM_TRIES);
            Corresponds(a.queue, b.store) && a.reply == b.reply
  {
    var q := s.queue;
    TieFreePicksAgree(q, st, wanted);
    ClaimTakesTheFirst(reg, s, consumer, wanted, duration);
    var spot := NextReady(q, wanted);
    if spot.Some? {
      var id := spot.value.id;
      assert RecordSound(reg, s, id);
      hide Inv, TieFree, NextReady, HeadScan, RecordSound, Score;
      assert id in q.jobs.Keys && Alike(q, st, id);
      var a := ClaimNext(q, consumer, wanted, duration, s.now, s.nextToken);
      var b := ClaimScript(st, consumer, wanted, duration, s.now, s.nextToken, CLAIM_TRIES);
      ClaimBoth(q, st, spot.value, consumer, wanted, duration, s.now, s.nextToken);
      hide ClaimNext, ClaimScript, Corresponds, SameIndices;
      RewrittenTogether(q, st, a.queue, b.store, id);
    }
  }

  /** Both take the same job off its set, lease it alike and index the lease. */
  lemma ClaimBoth(q: Queue, st: Store, spot: Spot, consumer: nat, wanted: seq<JobType>, duration: int, now: int, token: nat)
    requires SameIndices(q, st) && duration > 0 && token > 0
    requires NextReady(q, wanted) == Some(spot) && HeadScan(st, wanted) == Some(spot)
    requires spot.id in q.jobs && spot.id in st.hashes && Alike(q, st, spot.id)
    requires q.jobs[spot.id].status == Queued
    ensures var a := ClaimNext(q, consumer, wanted, duration, now, token);
            var b := ClaimScript(st, consumer, wanted, duration, now, token, CLAIM_TRIES);
            && a.reply == b.reply && SameIndices(a.queue, b.store)
            && a.queue.acknowledged == q.acknowledged
            && spot.id in a.queue.jobs && spot.id in b.store.hashes && Alike(a.queue, b.store, spot.id)
            && a.queue.jobs == q.jobs[spot.id := a.queue.jobs[spot.id]]
            && b.store.hashes == st.hashes[spot.id := b.store.hashes[spot.id]]
  {
    hide NextReady, HeadScan, Score;
    var a := ClaimNext(q, consumer, wanted, duration, now, token);
    var b := ClaimScript(st, consumer, wanted, duration, now, token, CLAIM_TRIES);
    IndicesKept(q, st, a.queue, b.store);
    ReadyDropped(q, st, a.queue, b.store, spot.kind, spot.id);
  }

  lemma RenewBoth(q: Queue, st: Store, id: nat, token: nat, extension: int, now: int)
    requires SameIndices(q, st) && token > 0 && extension > 0
    requires id in q.jobs && id in st.hashes && Alike(q, st, id)
    requires id in q.leases <==> q.jobs[id].lease.Some?
    requires id in q.leases ==> q.leases[id] == q.jobs[id].lease.value.expiresAt
    requires q.jobs[id].lease.Some? ==> q.jobs[id].lease.value.acquiredAt <= now
    ensures var a, b := Renew(q, id, token, extension, now), RenewScript(st, id, token, extension, now);
            && a.reply == b.reply && SameIndices(a.queue, b.store)
            && a.queue.acknowledged == q.acknowledged
            && id in a.queue.jobs && id in b.store.hashes && Alike(a.queue, b.store, id)
            && a.queue.jobs == q.jobs[id := a.queue.jobs[id]]
            && b.store.hashes == st.hashes[id := b.store.hashes[id]]
  {
    hide Score;
    var a, b := Renew(q, id, token, extension, now), RenewScript(st, id, token, extension, now);
    IndicesKept(q, st, a.queue, b.store);
    assert q.jobs == q.jobs[id := q.jobs[id]] && st.hashes == st.hashes[id := st.hashes[id]];
  }

  lemma RenewTogether(reg: Registry, s: System, st: Store, id: nat, token: nat, extension: int)
    requires Inv(reg, s) && Corresponds(s.queue, st) && token > 0 && extension > 0
    ensures var a := Renew(s.queue, id, token, extension, s.now);
            var b := RenewScript(st, id, token, extension, s.now);
            Corresponds(a.queue, b.store) && a.reply == b.reply
  {
    var q := s.queue;
    assert id in q.jobs.Keys <==> id in st.hashes.Keys;
    if id in q.jobs {
      assert RecordSound(reg, s, id) && Alike(q, st, id);
      assert id in q.leases <==> q.jobs[id].lease.Some?;
      hide Inv, RecordSound, Score, Renew, RenewScript, Alike;
      RenewBoth(q, st, id, token, extension, s.now);
      hide Corresponds, SameIndices;
      RewrittenTogether(q, st, Renew(q, id, token, extension, s.now).queue,
                        RenewScript(st, id, token, extension, s.now).store, id);
    }
  }

  lemma AcknowledgeBoth(q: Queue, st: Store, id: nat, token: nat)
    requires SameIndices(q, st) && token > 0 && q.Holds(id, token)
    requires id in st.hashes && Alike(q, st, id)
    ensures var r, rt := Acknowledge(q, id, token), AcknowledgeScript(st, id, token);
            && SameIndices(r, rt) && r.acknowledged == q.acknowledged + {id}
            && id in r.jobs && id in rt.hashes && Alike(r, rt, id)
            && r.jobs == q.jobs[id := r.jobs[id]] && rt.hashes == st.hashes[id := rt.hashes[id]]
  {
    hide Score;
    var r, rt := Acknowledge(q, id, token), AcknowledgeScript(st, id, token);
    IndicesKept(q, st, r, rt);
    RunDropped(q, st, r, rt, q.jobs[id].run, id);
  }

  lemma AcknowledgeTogether(reg: Registry, s: System, st: Store, id: nat, token: nat)
    requires Inv(reg, s) && Corresponds(s.queue, st) && token > 0
    ensures Corresponds(Acknowledge(s.queue, id, token), AcknowledgeScript(st, id, token))
  {
    hide Inv, Score;
    var q := s.queue;
    assert id in q.jobs.Keys <==> id in st.hashes.Keys;
    if id in q.jobs {
      assert Alike(q, st, id);
      if q.Holds(id, token) {
        AcknowledgeBoth(q, st, id, token);
        hide Corresponds, SameIndices, Acknowledge, AcknowledgeScript, Alike;
        RewrittenTogether(q, st, Acknowledge(q, id, token), AcknowledgeScript(st, id, token), id);
      }
    }
  }

  lemma ReleaseBoth(q: Queue, st: Store, id: nat, token: nat, requeue: bool)
    requires SameIndices(q, st) && token > 0 && q.Holds(id, token)
    requires id in st.hashes && Alike(q, st, id) && q.PlaceOf(id) == st.hashes[id].score
    ensures var r, rt := Release(q, id, token, requeue), ReleaseScript(st, id, token, requeue);
            && SameIndices(r, rt) && r.acknowledged == q.acknowledged
            && id in r.jobs && id in rt.hashes && Alike(r, rt, id)
            && r.jobs == q.jobs[id := r.jobs[id]] && rt.hashes == st.hashes[id := rt.hashes[id]]
  {
    hide Score;
    var r, rt := Release(q, id, token, requeue), ReleaseScript(st, id, token, requeue);
    IndicesKept(q, st, r, rt);
    if requeue {
      ReadyAdded(q, st, r, rt, q.jobs[id].kind, id, q.PlaceOf(id));
    }
  }

  lemma PlacesAgree(reg: Registry, s: System, st: Store, id: nat)
    requires Inv(reg, s) && Corresponds(s.queue, st) && id in s.queue.jobs
    ensures id in st.hashes && Alike(s.queue, st, id) && s.queue.PlaceOf(id) == st.hashes[id].score
  {
    assert id in s.queue.jobs.Keys && Alike(s.queue, st, id);
  }

  lemma ReleaseTogether(reg: Registry, s: System, st: Store, id: nat, token: nat, requeue: bool)
    requires Inv(reg, s) && Corresponds(s.queue, st) && token > 0
    ensures Corresponds(Release(s.queue, id, token, requeue), ReleaseScript(st, id, token, requeue))
  {
    hide Inv, Score;
    var q := s.queue;
    assert id in q.jobs.Keys <==> id in st.hashes.Keys;
    if id in q.jobs {
      PlacesAgree(reg, s, st, id);
      if q.Holds(id, token) {
        ReleaseBoth(q, st, id, token, requeue);
        hide Corresponds, SameIndices, Release, ReleaseScript, Alike;
        RewrittenTogether(q, st, Release(q, id, token, requeue), ReleaseScript(st, id, token, requeue), id);
      }
    }
  }

  function BackInLine(job: JobRecord): JobRecord { job.Released().(status := Queued, completedAt := None) }

  function OutOfAttempts(job: JobRecord, now: int): JobRecord {
    job.Released().(status := Dead, failureKind := Some(Infrastructure), completedAt := Some(now))
  }

  /** The reclaimed record and the reclaimed hash stay each other's image. */
  lemma ReclaimedAlike(id: nat, job: JobRecord, h: Hash, now: int)
    requires Decode(id, h) == job && job.completedAt == None
    ensures Decode(id, h.ClearLease().(status := Queued)) == BackInLine(job)
    ensures Decode(id, h.ClearLease().(status := Dead, failureKind := Some(Infrastructure), completedAt := Some(now)))
            == OutOfAttempts(job, now)
    ensures h.attempt == job.attempt && h.maxAttempts == job.maxAttempts && h.kind == job.kind
  {
  }

  lemma ReclaimOneWrittenOut(q: Queue, id: nat, now: int)
    requires id in q.jobs && q.jobs[id].lease.Some? && q.jobs[id].lease.value.IsExpired(now)
    ensures var r, job := ReclaimOne(q, id, now), q.jobs[id];
            if job.attempt < job.maxAttempts
            then r == q.DropLease(id).Store(id, BackInLine(job)).MakeReady(job.kind, id, q.PlaceOf(id))
            else r == q.DropLease(id).Store(id, OutOfAttempts(job, now))
  {
  }

  lemma ReclaimStepWrittenOut(st: Store, id: nat, now: int)
    requires id in st.hashes
    ensures var rt, h := ReclaimStep(st, id, now), st.hashes[id].ClearLease();
            if h.attempt < h.maxAttempts
            then rt == st.ZRemLease(id).HSet(id, h.(status := Queued)).ZAddReady(h.kind, id, h.score)
            else rt == st.ZRemLease(id).HSet(id, h.(status := Dead, failureKind := Some(Infrastructure),
                                                    completedAt := Some(now)))
  {
  }

  /** Both sides drop the lease of `id` and write the record `job`, whose image is `h`. */
  ghost predicate BothWrite(q: Queue, st: Store, r: Queue, rt: Store, id: nat, job: JobRecord, h: Hash) {
    && r.jobs == q.jobs[id := job] && rt.hashes == st.hashes[id := h]
    && Decode(id, h) == job && h.score == ScoreOf(job) && (h.acked <==> id in q.acknowledged)
    && r.acknowledged == q.acknowledged && r.runs == q.runs && rt.runs == st.runs
    && r.leases == q.leases - {id} && rt.leases == st.leases - {id}
  }

  lemma WritingTogether(q: Queue, st: Store, r: Queue, rt: Store, id: nat, job: JobRecord, h: Hash)
    requires Corresponds(q, st) && BothWrite(q, st, r, rt, id, job, h) && SameReady(r, rt)
    ensures Corresponds(r, rt)
  {
    IndicesKept(q, st, r, rt);
    assert Alike(r, rt, id);
    hide Decode, Score, SameReady, SameRuns;
    RewrittenTogether(q, st, r, rt, id);
  }

  lemma ReclaimBack(q: Queue, st: Store, id: nat, now: int)
    requires Corresponds(q, st) && id in q.jobs && id in st.hashes && Alike(q, st, id)
    requires q.PlaceOf(id) == st.hashes[id].score && q.jobs[id].completedAt == None
    requires q.jobs[id].lease.Some? && q.jobs[id].lease.value.IsExpired(now)
    requires q.jobs[id].attempt < q.jobs[id].maxAttempts
    ensures Corresponds(ReclaimOne(q, id, now), ReclaimStep(st, id, now))
  {
    var r, rt := ReclaimOne(q, id, now), ReclaimStep(st, id, now);
    var job, h := q.jobs[id], st.hashes[id];
    ReclaimedAlike(id, job, h, now);
    ReclaimOneWrittenOut(q, id, now);
    ReclaimStepWrittenOut(st, id, now);
    hide Decode, ReclaimOne, ReclaimStep, SameReady, SameRuns;
    assert ScoreOf(BackInLine(job)) == ScoreOf(job);
    hide Score;
    ReadyAdded(q, st, r, rt, job.kind, id, q.PlaceOf(id));
    WritingTogether(q, st, r, rt, id, BackInLine(job), h.ClearLease().(status := Queued));
  }

  lemma ReclaimDead(q: Queue, st: Store, id: nat, now: int)
    requires Corresponds(q, st) && id in q.jobs && id in st.hashes && Alike(q, st, id)
    requires q.jobs[id].completedAt == None
    requires q.jobs[id].lease.Some? && q.jobs[id].lease.value.IsExpired(now)
    requires q.jobs[id].attempt >= q.jobs[id].maxAttempts
    ensures Corresponds(ReclaimOne(q, id, now), ReclaimStep(st, id, now))
  {
    var r, rt := ReclaimOne(q, id, now), ReclaimStep(st, id, now);
    var job, h := q.jobs[id], st.hashes[id];
    ReclaimedAlike(id, job, h, now);
    ReclaimOneWrittenOut(q, id, now);
    ReclaimStepWrittenOut(st, id, now);
    hide Decode, ReclaimOne, ReclaimStep, SameReady, SameRuns;
    assert ScoreOf(OutOfAttempts(job, now)) == ScoreOf(job);
    hide Score;
    IndicesKept(q, st, r, rt);
    WritingTogether(q, st, r, rt, id, OutOfAttempts(job, now),
                    h.ClearLease().(status := Dead, failureKind := Some(Infrastructure), completedAt := Some(now)));
  }

  /** Why a published job must carry no completion time: the entity clears it when
      it requeues, the script does not. For any other lapsed record the images agree. */
  lemma ReclaimsAgreeExactly(q: Queue, st: Store, id: nat, now: int)
    requires id in q.jobs && id in st.hashes && Decode(id, st.hashes[id]) == q.jobs[id]
    requires q.jobs[id].lease.Some? && q.jobs[id].lease.value.IsExpired(now)
    ensures Decode(id, ReclaimStep(st, id, now).hashes[id]) == ReclaimOne(q, id, now).jobs[id]
            <==> q.jobs[id].completedAt == None || q.jobs[id].attempt >= q.jobs[id].maxAttempts
  {
    ReclaimOneWrittenOut(q, id, now);
    ReclaimStepWrittenOut(st, id, now);
    hide ReclaimOne, ReclaimStep;
  }

  lemma ReclaimStepTogether(reg: Registry, s: System, st: Store, id: nat)
    requires Inv(reg, s) && Corresponds(s.queue, st)
    requires id in s.queue.leases && s.queue.leases[id] <= s.now
    ensures Corresponds(ReclaimOne(s.queue, id, s.now), ReclaimStep(st, id, s.now))
  {
    var q := s.queue;
    assert id in q.jobs && RecordSound(reg, s, id);
    PlacesAgree(reg, s, st, id);
    hide Inv, Score, RecordSound, Alike, Corresponds, ReclaimOne, ReclaimStep;
    if q.jobs[id].attempt < q.jobs[id].maxAttempts {
      ReclaimBack(q, st, id, s.now);
    } else {
      ReclaimDead(q, st, id, s.now);
    }
  }

  lemma {:induction false} ReclaimTogether(reg: Registry, s: System, st: Store, ids: seq<nat>)
    requires Inv(reg, s) && Corresponds(s.queue, st) && DistinctIds(ids)
    requires forall id :: id in ids ==> id in s.queue.leases && s.queue.leases[id] <= s.now
    ensures Corresponds(ReclaimAll(s.queue, ids, s.now), ReclaimSteps(st, ids, s.now))
  {
    if ids != [] {
      var before, id := ids[..|ids| - 1], ids[|ids| - 1];
      assert ids == before + [id];
      ReclaimTogether(reg, s, st, before);
      ReclaimAllKeepsInv(reg, s, before);
      assert id in ids && id !in before;
      hide Inv, Corresponds, ReclaimOne, ReclaimStep;
      ReclaimStepTogether(reg, s.(queue := ReclaimAll(s.queue, before, s.now)), ReclaimSteps(st, before, s.now), id);
    }
  }

  lemma {:induction false} SameIdsKnown(q: Queue, st: Store, ids: seq<nat>)
    requires q.jobs.Keys == st.hashes.Keys
    ensures Known(q, ids) == Existing(st, ids)
  {
    if ids != [] {
      SameIdsKnown(q, st, ids[..|ids| - 1]);
      assert ids[|ids| - 1] in q.jobs.Keys <==> ids[|ids| - 1] in st.hashes.Keys;
    }
  }

  // ---- cancelling: the order of the members does not matter ----

  /** The members of `ids` a cancellation stops, and those of them of one type. */
  function Stopped(q: Queue, ids: set<nat>): set<nat> { set i | i in ids && Stoppable(q, i) }

  function StoppedOf(q: Queue, ids: set<nat>, kind: JobType): set<nat> {
    set i | i in ids && Stoppable(q, i) && q.jobs[i].kind == kind
  }

  function CancelledRecord(job: JobRecord): JobRecord {
    job.Released().(status := Cancelled, failureKind := Some(CancelledByRun))
  }

  ghost predicate RecordsCancelled(q: Queue, r: Queue, ids: set<nat>) {
    && r.jobs.Keys == q.jobs.Keys && r.runs == q.runs && r.acknowledged == q.acknowledged
    && (forall i :: i in q.jobs ==> r.jobs[i] == if i in Stopped(q, ids) then CancelledRecord(q.jobs[i]) else q.jobs[i])
    && r.leases == q.leases - Stopped(q, ids)
  }

  ghost predicate ReadyCancelled(q: Queue, r: Queue, ids: set<nat>) {
    forall kind :: r.ReadyOf(kind) == q.ReadyOf(kind) - StoppedOf(q, ids, kind)
  }

  lemma StoppedGrows(q: Queue, ids: set<nat>, id: nat, kind: JobType)
    ensures Stopped(q, ids + {id}) == Stopped(q, ids) + if Stoppable(q, id) then {id} else {}
    ensures StoppedOf(q, ids + {id}, kind)
            == StoppedOf(q, ids, kind) + if Stoppable(q, id) && q.jobs[id].kind == kind then {id} else {}
  {
  }

  lemma RecordsCancelledGrows(q: Queue, r: Queue, ids: set<nat>, id: nat)
    requires RecordsCancelled(q, r, ids)
    ensures RecordsCancelled(q, CancelOne(r, id), ids + {id})
    ensures Stoppable(r, id) <==> Stoppable(q, id) && id !in ids
  {
    StoppedGrows(q, ids, id, Plan);
    assert id in q.jobs.Keys <==> id in r.jobs.Keys;
  }

  lemma CancelOneReady(r: Queue, id: nat, kind: JobType)
    ensures CancelOne(r, id).ReadyOf(kind)
            == if Stoppable(r, id) && r.jobs[id].kind == kind then r.ReadyOf(kind) - {id} else r.ReadyOf(kind)
  {
  }

  lemma ReadyCancelledGrows(q: Queue, r: Queue, ids: set<nat>, id: nat)
    requires RecordsCancelled(q, r, ids) && ReadyCancelled(q, r, ids)
    ensures ReadyCancelled(q, CancelOne(r, id), ids + {id})
  {
    RecordsCancelledGrows(q, r, ids, id);
    assert Stoppable(q, id) && id in ids ==> id in StoppedOf(q, ids, q.jobs[id].kind);
    assert Stoppable(r, id) ==> r.jobs[id].kind == q.jobs[id].kind;
    var t := CancelOne(r, id);
    forall kind
      ensures t.ReadyOf(kind) == q.ReadyOf(kind) - StoppedOf(q, ids + {id}, kind)
    {
      CancelOneReady(r, id, kind);
      StoppedGrows(q, ids, id, kind);
      var stops := Stoppable(r, id) && r.jobs[id].kind == kind;
      assert StoppedOf(q, ids + {id}, kind) == StoppedOf(q, ids, kind) + if stops then {id} else {};
      assert r.ReadyOf(kind) == q.ReadyOf(kind) - StoppedOf(q, ids, kind);
      hide *;
      DroppingOneMore(q.ReadyOf(kind), r.ReadyOf(kind), t.ReadyOf(kind), StoppedOf(q, ids, kind), id, stops);
    }
  }

  lemma DroppingOneMore(m: map<nat, int>, less: map<nat, int>, least: map<nat, int>, gone: set<nat>, id: nat, drop: bool)
    requires less == m - gone && least == if drop then less - {id} else less
    ensures least == m - (gone + if drop then {id} else {})
  {
  }

  function Members(ids: seq<nat>): set<nat> { set i | i in ids }

  lemma {:induction false} CancelAllEffect(q: Queue, ids: seq<nat>)
    ensures RecordsCancelled(q, CancelAll(q, ids), Members(ids)) && ReadyCancelled(q, CancelAll(q, ids), Members(ids))
  {
    if ids == [] {
      assert Members(ids) == {} && Stopped(q, {}) == {};
      assert forall kind :: StoppedOf(q, {}, kind) == {};
    } else {
      var before, id := ids[..|ids| - 1], ids[|ids| - 1];
      CancelAllEffect(q, before);
      hide RecordsCancelled, ReadyCancelled, CancelOne;
      RecordsCancelledGrows(q, CancelAll(q, before), Members(before), id);
      ReadyCancelledGrows(q, CancelAll(q, before), Members(before), id);
      assert ids == before + [id] && Members(ids) == Members(before) + {id};
    }
  }

  function StoppedHashes(st: Store, ids: set<nat>): set<nat> { set i | i in ids && StoppableHash(st, i) }

  function StoppedHashesOf(st: Store, ids: set<nat>, kind: JobType): set<nat> {
    set i | i in ids && StoppableHash(st, i) && st.hashes[i].kind == kind
  }

  function CancelledHash(h: Hash): Hash {
    h.ClearLease().(status := Cancelled, failureKind := Some(CancelledByRun))
  }

  ghost predicate HashesCancelled(st: Store, rt: Store, ids: set<nat>) {
    && rt.hashes.Keys == st.hashes.Keys && rt.runs == st.runs
    && (forall i :: i in st.hashes ==>
          rt.hashes[i] == if i in StoppedHashes(st, ids) then CancelledHash(st.hashes[i]) else st.hashes[i])
    && rt.leases == st.leases - StoppedHashes(st, ids)
  }

  ghost predicate SetsCancelled(st: Store, rt: Store, ids: set<nat>) {
    forall kind :: rt.ReadyOf(kind) == st.ReadyOf(kind) - StoppedHashesOf(st, ids, kind)
  }

  lemma StoppedHashesGrow(st: Store, ids: set<nat>, id: nat, kind: JobType)
    ensures StoppedHashes(st, ids + {id}) == StoppedHashes(st, ids) + if StoppableHash(st, id) then {id} else {}
    ensures StoppedHashesOf(st, ids + {id}, kind)
            == StoppedHashesOf(st, ids, kind) + if StoppableHash(st, id) && st.hashes[id].kind == kind then {id} else {}
  {
  }

  lemma HashesCancelledGrows(st: Store, rt: Store, ids: set<nat>, run: nat, id: nat)
    requires HashesCancelled(st, rt, ids) && id in st.hashes
    ensures HashesCancelled(st, CancelStep(rt, run, id), ids + {id})
    ensures StoppableHash(rt, id) <==> StoppableHash(st, id) && id !in ids
  {
    StoppedHashesGrow(st, ids, id, Plan);
    assert id in st.hashes.Keys <==> id in rt.hashes.Keys;
  }

  lemma CancelStepReady(rt: Store, run: nat, id: nat, kind: JobType)
    requires id in rt.hashes
    ensures CancelStep(rt, run, id).ReadyOf(kind)
            == if StoppableHash(rt, id) && rt.hashes[id].kind == kind then rt.ReadyOf(kind) - {id} else rt.ReadyOf(kind)
  {
  }

  lemma SetsCancelledGrows(st: Store, rt: Store, ids: set<nat>, run: nat, id: nat)
    requires HashesCancelled(st, rt, ids) && SetsCancelled(st, rt, ids) && id in st.hashes
    ensures SetsCancelled(st, CancelStep(rt, run, id), ids + {id})
  {
    HashesCancelledGrows(st, rt, ids, run, id);
    assert id in rt.hashes.Keys;
    assert StoppableHash(st, id) && id in ids ==> id in StoppedHashesOf(st, ids, st.hashes[id].kind);
    assert StoppableHash(rt, id) ==> rt.hashes[id].kind == st.hashes[id].kind;
    var t := CancelStep(rt, run, id);
    forall kind
      ensures t.ReadyOf(kind) == st.ReadyOf(kind) - StoppedHashesOf(st, ids + {id}, kind)
    {
      CancelStepReady(rt, run, id, kind);
      StoppedHashesGrow(st, ids, id, kind);
      var stops := StoppableHash(rt, id) && rt.hashes[id].kind == kind;
      assert StoppedHashesOf(st, ids + {id}, kind) == StoppedHashesOf(st, ids, kind) + if stops then {id} else {};
      assert rt.ReadyOf(kind) == st.ReadyOf(kind) - StoppedHashesOf(st, ids, kind);
      hide *;
      DroppingOneMore(st.ReadyOf(kind), rt.ReadyOf(kind), t.ReadyOf(kind), StoppedHashesOf(st, ids, kind), id, stops);
    }
  }

  lemma {:induction false} CancelStepsEffect(st: Store, run: nat, ids: seq<nat>)
    requires forall id :: id in ids ==> id in st.hashes
    ensures HashesCancelled(st, CancelSteps(st, run, ids), Members(ids))
    ensures SetsCancelled(st, CancelSteps(st, run, ids), Members(ids))
  {
    if ids == [] {
      assert Members(ids) == {} && StoppedHashes(st, {}) == {};
      assert forall kind :: StoppedHashesOf(st, {}, kind) == {};
    } else {
      var before, id := ids[..|ids| - 1], ids[|ids| - 1];
      CancelStepsEffect(st, run, before);
      assert id in ids;
      hide HashesCancelled, SetsCancelled, CancelStep;
      HashesCancelledGrows(st, CancelSteps(st, run, before), Members(before), run, id);
      SetsCancelledGrows(st, CancelSteps(st, run, before), Members(before), run, id);
      assert ids == before + [id] && Members(ids) == Members(before) + {id};
    }
  }

  lemma SameStoppable(q: Queue, st: Store, ids: set<nat>)
    requires Corresponds(q, st)
    ensures forall i :: Stoppable(q, i) <==> StoppableHash(st, i)
    ensures Stopped(q, ids) == StoppedHashes(st, ids)
    ensures forall kind :: StoppedOf(q, ids, kind) == StoppedHashesOf(st, ids, kind)
  {
    forall i
      ensures Stoppable(q, i) <==> StoppableHash(st, i)
      ensures Stoppable(q, i) ==> q.jobs[i].kind == st.hashes[i].kind
    {
      assert i in q.jobs.Keys <==> i in st.hashes.Keys;
      if i in q.jobs {
        assert Alike(q, st, i);
      }
    }
  }

  lemma EffectsCorrespond(q: Queue, st: Store, r: Queue, rt: Store, ids: set<nat>)
    requires Corresponds(q, st)
    requires RecordsCancelled(q, r, ids) && ReadyCancelled(q, r, ids)
    requires HashesCancelled(st, rt, ids) && SetsCancelled(st, rt, ids)
    ensures Corresponds(r, rt)
  {
    SameStoppable(q, st, ids);
    hide Stopped, StoppedHashes, StoppedOf, StoppedHashesOf, Score;
    forall i | i in r.jobs
      ensures i in rt.hashes && Alike(r, rt, i)
    {
      assert i in q.jobs.Keys && Alike(q, st, i);
    }
    forall kind
      ensures r.ReadyOf(kind) == rt.ReadyOf(kind)
    {
      assert q.ReadyOf(kind) == st.ReadyOf(kind);
    }
    IndicesKept(q, st, r, rt);
  }

  lemma {:induction false} StoppedMembers(q: Queue, ids: seq<nat>)
    ensures forall id :: id in StoppedBy(q, ids) <==> id in ids && Stoppable(q, id)
  {
    if ids != [] {
      StoppedMembers(q, ids[..|ids| - 1]);
      assert ids == ids[..|ids| - 1] + [ids[|ids| - 1]];
    }
  }

  lemma {:induction false} CancelledMembers(st: Store, ids: seq<nat>)
    ensures forall id :: id in CancelledBy(st, ids) <==> id in ids && StoppableHash(st, id)
  {
    if ids != [] {
      CancelledMembers(st, ids[..|ids| - 1]);
      assert ids == ids[..|ids| - 1] + [ids[|ids| - 1]];
    }
  }

  /** Both list the same jobs of the run, all of them stored. */
  lemma SameMembers(reg: Registry, s: System, st: Store, smembers: set<nat> -> seq<nat>, run: nat)
    requires Inv(reg, s) && Corresponds(s.queue, st) && Enumerates(smembers)
    ensures forall id :: id in RunIds(s.queue, run) <==> id in smembers(st.RunOf(run))
    ensures forall id :: id in smembers(st.RunOf(run)) ==> id in st.hashes
  {
    var q := s.queue;
    RunIdsAreTheRun(q, run);
    assert q.RunOf(run) == st.RunOf(run);
    hide RunIds;
    forall id | id in smembers(st.RunOf(run))
      ensures id in st.hashes
    {
      assert id in q.RunOf(run) && id in q.jobs.Keys;
    }
  }

  lemma CancelBoth(q: Queue, st: Store, ids: seq<nat>, run: nat, other: seq<nat>)
    requires Corresponds(q, st)
    requires (forall id :: id in ids <==> id in other) && (forall id :: id in other ==> id in st.hashes)
    ensures Corresponds(CancelAll(q, ids), CancelSteps(st, run, other))
    ensures forall id :: id in StoppedBy(q, ids) <==> id in CancelledBy(st, other)
  {
    assert Members(ids) == Members(other);
    CancelAllEffect(q, ids);
    CancelStepsEffect(st, run, other);
    StoppedMembers(q, ids);
    CancelledMembers(st, other);
    SameStoppable(q, st, {});
    hide Corresponds, RecordsCancelled, ReadyCancelled, HashesCancelled, SetsCancelled;
    EffectsCorrespond(q, st, CancelAll(q, ids), CancelSteps(st, run, other), Members(ids));
  }

  lemma CancelTogether(reg: Registry, s: System, st: Store, smembers: set<nat> -> seq<nat>, run: nat)
    requires Inv(reg, s) && Corresponds(s.queue, st) && Enumerates(smembers)
    ensures var a, b := CancelRunJobs(s.queue, run), CancelScript(st, smembers, run);
            Corresponds(a.queue, b.store) && SameAnswer(DoCancel(run), a.reply, b.reply)
  {
    hide Inv, Corresponds, Enumerates, RunIds, CancelAll, CancelSteps, StoppedBy, CancelledBy;
    SameMembers(reg, s, st, smembers, run);
    CancelBoth(s.queue, st, RunIds(s.queue, run), run, smembers(st.RunOf(run)));
  }

  // ---- every command, every history ----

  ghost predicate Together(s: System, t: RedisSystem) {
    Corresponds(s.queue, t.store) && s.now == t.now && s.nextToken == t.nextToken
  }

  lemma StepTogether(reg: Registry, s: System, t: RedisSystem, smembers: set<nat> -> seq<nat>, c: Command)
    requires Inv(reg, s) && Together(s, t) && Lawful(reg, c) && Enumerates(smembers)
    requires c.DoClaim? ==> TieFree(s.queue, c.wanted)
    ensures Together(After(s, c), AfterCommand(t, smembers, c))
    ensures SameAnswer(c, Perform(s, c).reply, RunCommand(t, smembers, c).reply)
  {
    match c
    case Tick(_) =>
    case DoEnqueue(job) => EnqueueTogether(reg, s, t.store, job);
    case DoClaim(consumer, wanted, duration) => ClaimTogether(reg, s, t.store, consumer, wanted, duration);
    case DoRenew(id, token, extension) => RenewTogether(reg, s, t.store, id, token, extension);
    case DoAcknowledge(id, token) => AcknowledgeTogether(reg, s, t.store, id, token);
    case DoRelease(id, token, requeue) => ReleaseTogether(reg, s, t.store, id, token, requeue);
    case DoReclaim(limit) =>
      var due := Due(s.queue.leases, s.now, limit);
      DueIsDistinctAndLapsed(s.queue.leases, s.now, limit);
      ReclaimTogether(reg, s, t.store, due);
      SameIdsKnown(s.queue, t.store, due);
    case DoCancel(run) => CancelTogether(reg, s, t.store, smembers, run);
  }

  /** At each claim of the history no two ready jobs of different requested types tie. */
  ghost predicate NoTies(s: System, cs: seq<Command>) {
    forall k :: 0 <= k < |cs| && cs[k].DoClaim? ==> TieFree(Exec(s, cs[..k]).queue, cs[k].wanted)
  }

  lemma {:induction false} HistoriesTogether(reg: Registry, now: int, smembers: set<nat> -> seq<nat>, cs: seq<Command>)
    requires AllLawful(reg, cs) && Enumerates(smembers) && NoTies(Start(now), cs)
    ensures Inv(reg, Exec(Start(now), cs))
    ensures Together(Exec(Start(now), cs), RunCommands(RedisSystem(EmptyStore(), now, 1), smembers, cs))
  {
    if cs != [] {
      var before, c := cs[..|cs| - 1], cs[|cs| - 1];
      assert forall k :: 0 <= k < |before| ==> before[..k] == cs[..k];
      HistoriesTogether(reg, now, smembers, before);
      hide Inv, Together, TieFree, After, AfterCommand, Perform, RunCommand;
      StepTogether(reg, Exec(Start(now), before), RunCommands(RedisSystem(EmptyStore(), now, 1), smembers, before),
                   smembers, c);
      StepKeepsInv(reg, Exec(Start(now), before), c);
    }
  }

  /** Simulation: started empty and fed the same commands, whatever order Redis
      lists a set in, the two adapters correspond after every history and answer
      the next command alike. */
  lemma AdaptersAgree(reg: Registry, now: int, smembers: set<nat> -> seq<nat>, cs: seq<Command>, next: Command)
    requires AllLawful(reg, cs) && Lawful(reg, next) && Enumerates(smembers) && NoTies(Start(now), cs)
    requires next.DoClaim? ==> TieFree(Exec(Start(now), cs).queue, next.wanted)
    ensures var s, t := Exec(Start(now), cs), RunCommands(RedisSystem(EmptyStore(), now, 1), smembers, cs);
            && Corresponds(s.queue, t.store)
            && SameAnswer(next, Perform(s, next).reply, RunCommand(t, smembers, next).reply)
  {
    HistoriesTogether(reg, now, smembers, cs);
    StepTogether(reg, Exec(Start(now), cs), RunCommands(RedisSystem(EmptyStore(), now, 1), smembers, cs), smembers, next);
  }

  // ---- a tie, spelled out ----

  function Twin(id: nat, kind: JobType): JobRecord { NewJob(id, 0, kind, None, Normal, 0, 3) }

  function TiedHistory(): seq<Command> { [DoEnqueue(Twin(2, Code)), DoEnqueue(Twin(1, Plan))] }

  function TiedRegistry(): Registry { id => Identity(0, if id == 1 then Plan else Code, Normal, 0) }

  lemma OneEntry(id: nat, score: int)
    ensures var m := map[id := score]; id in m && m != map[] && Least(m) == id
  {
    LeastIsUnique(map[id := score], id);
  }

  lemma TiedQueue(now: int)
    ensures var q := Exec(Start(now), TiedHistory()).queue;
            var twin := Score(Normal, 0);
            && q.ReadyOf(Code) == map[2 := twin] && q.ReadyOf(Plan) == map[1 := twin]
            && 1 in q.jobs && 2 in q.jobs
            && q.jobs[1] == Twin(1, Plan).(status := Queued) && q.jobs[2] == Twin(2, Code).(status := Queued)
  {
    var cs := TiedHistory();
    assert cs[..1] == [cs[0]] && cs[..1][..0] == [];
    assert Exec(Start(now), cs[..1]) == After(Exec(Start(now), []), cs[0]);
  }

  /** Two jobs of different types with one score: the in-memory queue takes the
      lower id, the script the type listed first. */
  lemma TiedJobsDiverge(now: int, smembers: set<nat> -> seq<nat>)
    requires Enumerates(smembers)
    ensures AllLawful(TiedRegistry(), TiedHistory())
    ensures var claim := DoClaim(0, [Code, Plan], 1);
            var s, t := Exec(Start(now), TiedHistory()), RunCommands(RedisSystem(EmptyStore(), now, 1), smembers, TiedHistory());
            && Perform(s, claim).reply.Claimed? && Perform(s, claim).reply.job.id == 1
            && RunCommand(t, smembers, claim).reply.Claimed? && RunCommand(t, smembers, claim).reply.job.id == 2
  {
    var s, t := Exec(Start(now), TiedHistory()), RunCommands(RedisSystem(EmptyStore(), now, 1), smembers, TiedHistory());
    assert AllLawful(TiedRegistry(), TiedHistory());
    assert NoTies(Start(now), TiedHistory());
    HistoriesTogether(TiedRegistry(), now, smembers, TiedHistory());
    TiedQueue(now);
    hide Exec, RunCommands, Inv, TiedHistory;
    TiedPicks(s.queue, t.store);
    assert Alike(s.queue, t.store, 2);
    TiedClaims(s, t, smembers);
  }

  lemma TiedPicks(q: Queue, st: Store)
    requires SameReady(q, st)
    requires q.ReadyOf(Code) == map[2 := Score(Normal, 0)] && q.ReadyOf(Plan) == map[1 := Score(Normal, 0)]
    ensures NextReady(q, [Code, Plan]) == Some(Spot(Plan, 1, Score(Normal, 0)))
    ensures HeadScan(st, [Code, Plan]) == Some(Spot(Code, 2, Score(Normal, 0)))
  {
    var wanted := [Code, Plan];
    assert wanted[..1] == [Code] && wanted[..1][..0] == [];
    OneEntry(1, Score(Normal, 0));
    OneEntry(2, Score(Normal, 0));
    hide Score;
    assert NextReady(q, [Code]) == Some(Spot(Code, 2, Score(Normal, 0)));
    assert HeadScan(st, [Code]) == Some(Spot(Code, 2, Score(Normal, 0)));
  }

  lemma TiedClaims(s: System, t: RedisSystem, smembers: set<nat> -> seq<nat>)
    requires NextReady(s.queue, [Code, Plan]) == Some(Spot(Plan, 1, Score(Normal, 0)))
    requires HeadScan(t.store, [Code, Plan]) == Some(Spot(Code, 2, Score(Normal, 0)))
    requires 1 in s.queue.jobs && s.queue.jobs[1] == Twin(1, Plan).(status := Queued)
    requires 2 in t.store.hashes && Decode(2, t.store.hashes[2]) == Twin(2, Code).(status := Queued)
    ensures var claim := DoClaim(0, [Code, Plan], 1);
            && Perform(s, claim).reply.Claimed? && Perform(s, claim).reply.job.id == 1
            && RunCommand(t, smembers, claim).reply.Claimed? && RunCommand(t, smembers, claim).reply.job.id == 2
  {
    hide NextReady, HeadScan, Score;
  }
}
