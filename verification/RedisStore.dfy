/** The Lua scripts as code: hashes and sorted sets rewritten in place, with their loops. */
module RedisStore {
  import opened Common
  import opened Failures
  import opened Jobs
  import opened Queues
  import opened RedisScripts
  import InMemoryQueue

  ghost function LeaseScript(st: Store, id: nat, consumer: nat, duration: int, now: int, token: nat): Scripted
    requires id in st.hashes
  {
    var h := st.hashes[id];
    var held := h.(status := Leased, attempt := h.attempt + 1, assignee := Some(consumer),
                   startedAt := if h.startedAt.Some? then h.startedAt else Some(now),
                   leaseToken := token, leaseHolder := consumer,
                   leaseAcquiredAt := now, leaseExpiresAt := now + duration);
    var replayed := LeaseTo(Decode(id, h), consumer, now, duration, token);
    Scripted(st.HSet(id, held).(leases := st.leases[id := now + duration]),
             if replayed.answer.Held? then Claimed(replayed.job, replayed.answer.lease) else Refused)
  }

  lemma ClaimUnfolds(st: Store, consumer: nat, keys: seq<JobType>, duration: int, now: int, token: nat, tries: nat)
    ensures ClaimScript(st, consumer, keys, duration, now, token, tries) ==
      var spot := HeadScan(st, keys);
      if tries == 0 || spot.None? then Scripted(st, Nothing) else
      var id := spot.value.id;
      var st1 := st.ZRemReady(spot.value.kind, id);
      if id in st1.hashes && st1.hashes[id].status == Queued then LeaseScript(st1, id, consumer, duration, now, token)
      else ClaimScript(st1, consumer, keys, duration, now, token, tries - 1)
  {
    hide HeadScan;
  }

  lemma HeadScanOneMore(st: Store, keys: seq<JobType>, i: nat)
    requires i < |keys|
    ensures var best := HeadScan(st, keys[..i]);
      var ready := st.ReadyOf(keys[i]);
      HeadScan(st, keys[..i + 1]) ==
        if ready == map[] then best
        else if best.None? || ready[Least(ready)] < best.value.score then Some(Spot(keys[i], Least(ready), ready[Least(ready)]))
        else best
  {
    assert keys[..i + 1][..i] == keys[..i];
  }

  lemma {:induction false} ReclaimKeepsKeys(st: Store, ids: seq<nat>, now: int)
    ensures ReclaimSteps(st, ids, now).hashes.Keys == st.hashes.Keys
  {
    if ids != [] {
      ReclaimKeepsKeys(st, ids[..|ids| - 1], now);
    }
  }

  lemma ReclaimOneMore(st: Store, ids: seq<nat>, i: nat, now: int)
    requires i < |ids|
    ensures var done := ReclaimSteps(st, ids[..i], now);
      && ReclaimSteps(st, ids[..i + 1], now) == ReclaimStep(done, ids[i], now)
      && Existing(st, ids[..i + 1]) == Existing(st, ids[..i]) + if ids[i] in done.hashes then [ids[i]] else []
  {
    assert ids[..i + 1][..i] == ids[..i];
    ReclaimKeepsKeys(st, ids[..i], now);
    assert ids[i] in ReclaimSteps(st, ids[..i], now).hashes.Keys <==> ids[i] in st.hashes.Keys;
  }

  /** Cancelling others does not touch a job's hash. */
  lemma {:induction false} CancelSparesOthers(st: Store, run: nat, ids: seq<nat>, id: nat)
    requires id !in ids
    ensures var n := CancelSteps(st, run, ids);
      && (id in n.hashes <==> id in st.hashes)
      && (id in st.hashes ==> n.hashes[id] == st.hashes[id])
  {
    if ids != [] {
      assert ids[|ids| - 1] in ids;
      CancelSparesOthers(st, run, ids[..|ids| - 1], id);
    }
  }

  lemma CancelOneMore(st: Store, run: nat, ids: seq<nat>, i: nat)
    requires i < |ids| && forall a, b :: 0 <= a < b < |ids| ==> ids[a] != ids[b]
    ensures var done := CancelSteps(st, run, ids[..i]);
      && CancelSteps(st, run, ids[..i + 1]) == CancelStep(done, run, ids[i])
      && CancelledBy(st, ids[..i + 1]) == CancelledBy(st, ids[..i]) + if StoppableHash(done, ids[i]) then [ids[i]] else []
  {
    assert ids[..i + 1][..i] == ids[..i];
    assert ids[i] !in ids[..i];
    CancelSparesOthers(st, run, ids[..i], ids[i]);
    hide CancelStep;
  }

  class RedisJobStore {
    var hashes: map<nat, Hash>
    var ready: map<JobType, map<nat, int>>
    var leases: map<nat, int>
    var runs: map<nat, set<nat>>

    ghost function Contents(): (st: Store)
      reads this
    {
      Store(hashes, ready, leases, runs)
    }

    constructor ()
      ensures Contents() == EmptyStore()
    {
      hashes, ready, leases, runs := map[], map[], map[], map[];
    }

    function ReadySet(kind: JobType): map<nat, int>
      reads this
    {
      if kind in ready then ready[kind] else map[]
    }

    function RunSet(run: nat): set<nat>
      reads this
    {
      if run in runs then runs[run] else {}
    }

    method Enqueue(job: JobRecord)
      modifies this
      ensures Contents() == EnqueueScript(old(Contents()), job)
    {
      if job.id in hashes && (hashes[job.id].status == Leased || hashes[job.id].status == Running) {
        return;
      }
      if job.id in hashes && hashes[job.id].acked {
        return;
      }
      hashes := hashes[job.id := Encode(job.(status := Queued))];
      ready := ready[job.kind := ReadySet(job.kind)[job.id := Score(job.priority, job.createdAt)]];
      runs := runs[job.run := RunSet(job.run) + {job.id}];
    }

    /** The best head over the requested sets. */
    method ScanHeads(keys: seq<JobType>) returns (best: Option<Spot>)
      ensures best == HeadScan(Contents(), keys)
    {
      best := None;
      for i := 0 to |keys|
        invariant best == HeadScan(Contents(), keys[..i])
      {
        HeadScanOneMore(Contents(), keys, i);
        var entries := ReadySet(keys[i]);
        if entries != map[] {
          var head := InMemoryQueue.FindLeast(entries);
          if best.None? || entries[head] < best.value.score {
            best := Some(Spot(keys[i], head, entries[head]));
          }
        }
      }
      assert keys[..|keys|] == keys;
    }

    /** Writes the lease into a queued job's hash and replays it on the entity. */
    method TakeLease(id: nat, consumer: nat, duration: int, now: int, token: nat) returns (reply: Reply)
      requires id in hashes
      modifies this
      ensures Scripted(Contents(), reply) == LeaseScript(old(Contents()), id, consumer, duration, now, token)
    {
      var before := hashes[id];
      hashes := hashes[id := before.(status := Leased, attempt := before.attempt + 1, assignee := Some(consumer),
                                     startedAt := if before.startedAt.Some? then before.startedAt else Some(now),
                                     leaseToken := token, leaseHolder := consumer,
                                     leaseAcquiredAt := now, leaseExpiresAt := now + duration)];
      leases := leases[id := now + duration];
      var replayed := LeaseTo(Decode(id, before), consumer, now, duration, token);
      return if replayed.answer.Held? then Claimed(replayed.job, replayed.answer.lease) else Refused;
    }

    method Claim(consumer: nat, keys: seq<JobType>, duration: int, now: int, token: nat) returns (reply: Reply)
      modifies this
      ensures Scripted(Contents(), reply) == ClaimScript(old(Contents()), consumer, keys, duration, now, token, CLAIM_TRIES)
    {
      hide ClaimScript, HeadScan, LeaseScript;
      var left: nat := CLAIM_TRIES;
      while left > 0
        invariant ClaimScript(Contents(), consumer, keys, duration, now, token, left)
               == ClaimScript(old(Contents()), consumer, keys, duration, now, token, CLAIM_TRIES)
      {
        ClaimUnfolds(Contents(), consumer, keys, duration, now, token, left);
        var best := ScanHeads(keys);
        if best.None? {
          return Nothing;
        }
        var kind, id := best.value.kind, best.value.id;
        ghost var was := Contents();
        ready := ready[kind := ReadySet(kind) - {id}];
        assert Contents() == was.ZRemReady(kind, id);
        if id in hashes && hashes[id].status == Queued {
          reply := TakeLease(id, consumer, duration, now, token);
          return;
        }
        left := left - 1;
      }
      ClaimUnfolds(Contents(), consumer, keys, duration, now, token, left);
      return Nothing;
    }

    method Renew(id: nat, token: nat, extension: int, now: int) returns (reply: Reply)
      modifies this
      ensures Scripted(Contents(), reply) == RenewScript(old(Contents()), id, token, extension, now)
    {
      if id !in hashes || hashes[id].leaseToken != token {
        return Refused;
      }
      if id !in leases || leases[id] <= now {
        return Refused;
      }
      hashes := hashes[id := hashes[id].(leaseExpiresAt := now + extension)];
      leases := leases[id := now + extension];
      var h := hashes[id];
      return if now + extension <= h.leaseAcquiredAt then Refused
        else Extended(Lease(h.leaseHolder, token, h.leaseAcquiredAt, now + extension));
    }

    method Acknowledge(id: nat, token: nat)
      modifies this
      ensures Contents() == AcknowledgeScript(old(Contents()), id, token)
    {
      if id !in hashes || hashes[id].leaseToken != token {
        return;
      }
      var run := hashes[id].run;
      leases := leases - {id};
      hashes := hashes[id := hashes[id].ClearLease().(acked := true)];
      runs := runs[run := RunSet(run) - {id}];
    }

    method Release(id: nat, token: nat, requeue: bool)
      modifies this
      ensures Contents() == ReleaseScript(old(Contents()), id, token, requeue)
    {
      if id !in hashes || hashes[id].leaseToken != token {
        return;
      }
      leases := leases - {id};
      var h := hashes[id].ClearLease();
      if requeue {
        hashes := hashes[id := h.(status := Queued)];
        ready := ready[h.kind := ReadySet(h.kind)[id := h.score]];
      } else {
        hashes := hashes[id := h.(status := Pending)];
      }
    }

    method ReclaimJob(id: nat, now: int) returns (known: bool)
      modifies this
      ensures Contents() == ReclaimStep(old(Contents()), id, now) && known == (id in old(hashes))
    {
      leases := leases - {id};
      known := id in hashes;
      if known {
        var h := hashes[id].ClearLease();
        if h.attempt < h.maxAttempts {
          hashes := hashes[id := h.(status := Queued)];
          ready := ready[h.kind := ReadySet(h.kind)[id := h.score]];
        } else {
          hashes := hashes[id := h.(status := Dead, failureKind := Some(Infrastructure), completedAt := Some(now))];
        }
      }
    }

    method ReclaimExpired(now: int, limit: nat) returns (reclaimed: seq<nat>)
      modifies this
      ensures Scripted(Contents(), Ids(reclaimed)) == ReclaimScript(old(Contents()), now, limit)
    {
      ghost var st := Contents();
      var lapsed: map<nat, int> := map id | id in leases && leases[id] <= now :: leases[id];
      var sorted := InMemoryQueue.SortKeys(lapsed);
      var due := if |sorted| <= limit then sorted else sorted[..limit];
      assert due == Due(st.leases, now, limit);
      reclaimed := [];
      for i := 0 to |due|
        invariant Contents() == ReclaimSteps(st, due[..i], now)
        invariant reclaimed == Existing(st, due[..i])
      {
        ReclaimOneMore(st, due, i, now);
        var known := ReclaimJob(due[i], now);
        if known {
          reclaimed := reclaimed + [due[i]];
        }
      }
      assert due[..|due|] == due;
    }

    method CancelJob(run: nat, id: nat) returns (stopped: bool)
      modifies this
      ensures Contents() == CancelStep(old(Contents()), run, id) && stopped == StoppableHash(old(Contents()), id)
    {
      stopped := false;
      if id !in hashes {
        runs := runs[run := RunSet(run) - {id}];
      } else if !hashes[id].status.IsTerminal() {
        var h := hashes[id];
        ready := ready[h.kind := ReadySet(h.kind) - {id}];
        leases := leases - {id};
        hashes := hashes[id := h.ClearLease().(status := Cancelled, failureKind := Some(CancelledByRun))];
        stopped := true;
      }
    }

    /** `smembers` lists a set in some order, without repeats. */
    method CancelRunJobs(run: nat, smembers: set<nat> -> seq<nat>) returns (cancelled: seq<nat>)
      requires forall a, b :: 0 <= a < b < |smembers(RunSet(run))| ==> smembers(RunSet(run))[a] != smembers(RunSet(run))[b]
      modifies this
      ensures Scripted(Contents(), Ids(cancelled)) == CancelScript(old(Contents()), smembers, run)
    {
      ghost var st := Contents();
      var ids := smembers(RunSet(run));
      cancelled := [];
      for i := 0 to |ids|
        invariant Contents() == CancelSteps(st, run, ids[..i])
        invariant cancelled == CancelledBy(st, ids[..i])
      {
        CancelOneMore(st, run, ids, i);
        hide CancelSteps, CancelledBy, CancelStep;
        var stopped := CancelJob(run, ids[i]);
        if stopped {
          cancelled := cancelled + [ids[i]];
        }
      }
      assert ids[..|ids|] == ids;
    }
  }
}
