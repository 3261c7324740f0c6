/** The Redis adapter: its Lua scripts as steps on a store of hashes and sorted sets. */
module RedisScripts {
  import opened Common
  import opened Failures
  import opened Jobs
  import opened Queues

  /** One job hash. A token of 0 stands for the empty string: no lease. */
  datatype Hash = Hash(
    run: nat, kind: JobType, candidate: Option<nat>, priority: Priority, createdAt: int, maxAttempts: nat,
    status: JobStatus, attempt: nat, assignee: Option<nat>,
    startedAt: Option<int>, completedAt: Option<int>, failureKind: Option<FailureKind>,
    leaseToken: nat, leaseHolder: nat, leaseAcquiredAt: int, leaseExpiresAt: int,
    score: int, acked: bool)
  {
    function ClearLease(): Hash {
      this.(assignee := None, leaseToken := 0, leaseHolder := 0, leaseAcquiredAt := 0, leaseExpiresAt := 0)
    }
  }

  datatype Store = Store(
    hashes: map<nat, Hash>, ready: map<JobType, map<nat, int>>, leases: map<nat, int>, runs: map<nat, set<nat>>)
  {
    function ReadyOf(kind: JobType): map<nat, int> { if kind in ready then ready[kind] else map[] }

    function RunOf(run: nat): set<nat> { if run in runs then runs[run] else {} }

    function HSet(id: nat, h: Hash): Store { this.(hashes := hashes[id := h]) }

    function ZAddReady(kind: JobType, id: nat, score: int): Store {
      this.(ready := ready[kind := ReadyOf(kind)[id := score]])
    }

    function ZRemReady(kind: JobType, id: nat): Store { this.(ready := ready[kind := ReadyOf(kind) - {id}]) }

    function ZRemLease(id: nat): Store { this.(leases := leases - {id}) }

    predicate TokenIs(id: nat, token: nat) { id in hashes && hashes[id].leaseToken == token }
  }

  function EmptyStore(): Store { Store(map[], map[], map[], map[]) }

  // ---- the codec ----

  function Encode(job: JobRecord): Hash {
    Hash(job.run, job.kind, job.candidate, job.priority, job.createdAt, job.maxAttempts,
         job.status, job.attempt, job.assignee, job.startedAt, job.completedAt, job.failureKind,
         if job.lease.Some? then job.lease.value.token else 0,
         if job.lease.Some? then job.lease.value.holder else 0,
         if job.lease.Some? then job.lease.value.acquiredAt else 0,
         if job.lease.Some? then job.lease.value.expiresAt else 0,
         Score(job.priority, job.createdAt), false)
  }

  function Decode(id: nat, h: Hash): JobRecord {
    JobRecord(id, h.run, h.kind, h.candidate, h.priority, h.createdAt, h.maxAttempts, h.status, h.attempt,
              if h.leaseToken == 0 then None
              else Some(Lease(h.leaseHolder, h.leaseToken, h.leaseAcquiredAt, h.leaseExpiresAt)),
              h.assignee, h.startedAt, h.completedAt, h.failureKind)
  }

  /** A record survives the round trip through its hash, as long as a held lease has a token. */
  lemma EncodeThenDecode(job: JobRecord)
    requires job.lease.Some? ==> job.lease.value.token > 0
    ensures Decode(job.id, Encode(job)) == job
  {
  }

  // ---- the scripts ----

  function EnqueueScript(st: Store, job: JobRecord): Store {
    if job.id in st.hashes && st.hashes[job.id].status in {Leased, Running} then st
    else if job.id in st.hashes && st.hashes[job.id].acked then st
    else
      var st1 := st.HSet(job.id, Encode(job.(status := Queued)))
                   .ZAddReady(job.kind, job.id, Score(job.priority, job.createdAt));
      st1.(runs := st1.runs[job.run := st1.RunOf(job.run) + {job.id}])
  }

  /** The head of each requested set; only a strictly lower score replaces the best. */
  ghost function HeadScan(st: Store, keys: seq<JobType>): Option<Spot> {
    if keys == [] then None else
    var best := HeadScan(st, keys[..|keys| - 1]);
    var kind := keys[|keys| - 1];
    var ready := st.ReadyOf(kind);
    if ready == map[] then best else
    var head := Least(ready);
    if best.None? || ready[head] < best.value.score then Some(Spot(kind, head, ready[head])) else best
  }

  datatype Scripted = Scripted(store: Store, reply: Reply)

  /** At most `tries` stale entries are skipped. The script answers with the hash
      before the lease, and the caller replays the transition on the entity. */
  ghost function ClaimScript(st: Store, consumer: nat, keys: seq<JobType>, duration: int, now: int, token: nat,
                             tries: nat): Scripted
    decreases tries
  {
    if tries == 0 then Scripted(st, Nothing) else
    var spot := HeadScan(st, keys);
    if spot.None? then Scripted(st, Nothing) else
    var id := spot.value.id;
    var st1 := st.ZRemReady(spot.value.kind, id);
    if id in st.hashes && st.hashes[id].status == Queued then
      var h := st.hashes[id];
      var held := h.(status := Leased, attempt := h.attempt + 1, assignee := Some(consumer),
                     startedAt := if h.startedAt.Some? then h.startedAt else Some(now),
                     leaseToken := token, leaseHolder := consumer,
                     leaseAcquiredAt := now, leaseExpiresAt := now + duration);
      var st2 := st1.HSet(id, held);
      var replayed := LeaseTo(Decode(id, h), consumer, now, duration, token);
      Scripted(st2.(leases := st2.leases[id := now + duration]),
               if replayed.answer.Held? then Claimed(replayed.job, replayed.answer.lease) else Refused)
    else ClaimScript(st1, consumer, keys, duration, now, token, tries - 1)
  }

  const CLAIM_TRIES: nat := 64

  /** The first `n` heads the scan comes to have no queued job behind them. */
  ghost predicate StaleHeads(st: Store, keys: seq<JobType>, n: nat)
    decreases n
  {
    n > 0 ==>
      && HeadScan(st, keys).Some?
      && !(HeadScan(st, keys).value.id in st.hashes && st.hashes[HeadScan(st, keys).value.id].status.Queued?)
      && StaleHeads(WithoutHead(st, keys), keys, n - 1)
  }

  ghost function WithoutHead(st: Store, keys: seq<JobType>): Store {
    match HeadScan(st, keys)
    case None => st
    case Some(spot) => st.ZRemReady(spot.kind, spot.id)
  }

  ghost function WithoutHeads(st: Store, keys: seq<JobType>, n: nat): Store
    decreases n
  {
    if n == 0 then st else WithoutHeads(WithoutHead(st, keys), keys, n - 1)
  }

  lemma {:induction false} StaleHeadsAreSkipped(st: Store, consumer: nat, keys: seq<JobType>, duration: int, now: int, token: nat,
                                                tries: nat, n: nat)
    requires StaleHeads(st, keys, n)
    ensures ClaimScript(st, consumer, keys, duration, now, token, tries)
      == if n < tries then ClaimScript(WithoutHeads(st, keys, n), consumer, keys, duration, now, token, tries - n)
         else Scripted(WithoutHeads(st, keys, tries), Nothing)
    decreases n
  {
    if n > 0 && tries > 0 {
      StaleHeadsAreSkipped(WithoutHead(st, keys), consumer, keys, duration, now, token, tries - 1, n - 1);
    }
  }

  function RenewScript(st: Store, id: nat, token: nat, extension: int, now: int): Scripted {
    if !st.TokenIs(id, token) then Scripted(st, Refused)
    else if id !in st.leases || st.leases[id] <= now then Scripted(st, Refused)
    else
      var h := st.hashes[id];
      var st1 := st.HSet(id, h.(leaseExpiresAt := now + extension)).(leases := st.leases[id := now + extension]);
      Scripted(st1, if now + extension <= h.leaseAcquiredAt then Refused
                    else Extended(Lease(h.leaseHolder, token, h.leaseAcquiredAt, now + extension)))
  }

  function AcknowledgeScript(st: Store, id: nat, token: nat): Store {
    if !st.TokenIs(id, token) then st else
    var run := st.hashes[id].run;
    var st1 := st.ZRemLease(id).HSet(id, st.hashes[id].ClearLease().(acked := true));
    st1.(runs := st1.runs[run := st1.RunOf(run) - {id}])
  }

  function ReleaseScript(st: Store, id: nat, token: nat, requeue: bool): Store {
    if !st.TokenIs(id, token) then st else
    var h := st.hashes[id].ClearLease();
    var st1 := st.ZRemLease(id);
    if requeue then st1.HSet(id, h.(status := Queued)).ZAddReady(h.kind, id, h.score)
    else st1.HSet(id, h.(status := Pending))
  }

  function ReclaimStep(st: Store, id: nat, now: int): Store {
    var st1 := st.ZRemLease(id);
    if id !in st.hashes then st1 else
    var h := st.hashes[id].ClearLease();
    if h.attempt < h.maxAttempts then st1.HSet(id, h.(status := Queued)).ZAddReady(h.kind, id, h.score)
    else st1.HSet(id, h.(status := Dead, failureKind := Some(Infrastructure), completedAt := Some(now)))
  }

  function ReclaimSteps(st: Store, ids: seq<nat>, now: int): Store {
    if ids == [] then st else ReclaimStep(ReclaimSteps(st, ids[..|ids| - 1], now), ids[|ids| - 1], now)
  }

  function Existing(st: Store, ids: seq<nat>): seq<nat> {
    if ids == [] then []
    else Existing(st, ids[..|ids| - 1]) + if ids[|ids| - 1] in st.hashes then [ids[|ids| - 1]] else []
  }

  /** The range query answers in score order, then in id order. */
  ghost function ReclaimScript(st: Store, now: int, limit: nat): Scripted {
    var due := Due(st.leases, now, limit);
    Scripted(ReclaimSteps(st, due, now), Ids(Existing(st, due)))
  }

  /** The job has a record, and is not finished. */
  predicate StoppableHash(st: Store, id: nat) { id in st.hashes && !st.hashes[id].status.IsTerminal() }

  function CancelStep(st: Store, run: nat, id: nat): Store {
    if id !in st.hashes then st.(runs := st.runs[run := st.RunOf(run) - {id}])
    else if st.hashes[id].status.IsTerminal() then st
    else
      var h := st.hashes[id];
      st.ZRemReady(h.kind, id).ZRemLease(id)
        .HSet(id, h.ClearLease().(status := Cancelled, failureKind := Some(CancelledByRun)))
  }

  function CancelSteps(st: Store, run: nat, ids: seq<nat>): Store {
    if ids == [] then st else CancelStep(CancelSteps(st, run, ids[..|ids| - 1]), run, ids[|ids| - 1])
  }

  function CancelledBy(st: Store, ids: seq<nat>): seq<nat> {
    if ids == [] then [] else
    CancelledBy(st, ids[..|ids| - 1]) +
    if ids[|ids| - 1] in st.hashes && !st.hashes[ids[|ids| - 1]].status.IsTerminal() then [ids[|ids| - 1]] else []
  }

  /** SMEMBERS lists a set in no particular order: any enumeration will do. */
  ghost predicate Enumerates(smembers: set<nat> -> seq<nat>) {
    forall ids: set<nat> ::
      && (forall id :: id in smembers(ids) <==> id in ids)
      && (forall i, j :: 0 <= i < j < |smembers(ids)| ==> smembers(ids)[i] != smembers(ids)[j])
  }

  function CancelScript(st: Store, smembers: set<nat> -> seq<nat>, run: nat): Scripted {
    var ids := smembers(st.RunOf(run));
    Scripted(CancelSteps(st, run, ids), Ids(CancelledBy(st, ids)))
  }

  // ---- the same commands, run by the scripts ----

  datatype RedisSystem = RedisSystem(store: Store, now: int, nextToken: nat)

  ghost function RunCommand(s: RedisSystem, smembers: set<nat> -> seq<nat>, c: Command): Scripted {
    match c
    case Tick(_) => Scripted(s.store, Nothing)
    case DoEnqueue(job) => Scripted(EnqueueScript(s.store, job), Nothing)
    case DoClaim(consumer, wanted, duration) =>
      ClaimScript(s.store, consumer, wanted, duration, s.now, s.nextToken, CLAIM_TRIES)
    case DoRenew(id, token, extension) => RenewScript(s.store, id, token, extension, s.now)
    case DoAcknowledge(id, token) => Scripted(AcknowledgeScript(s.store, id, token), Nothing)
    case DoRelease(id, token, requeue) => Scripted(ReleaseScript(s.store, id, token, requeue), Nothing)
    case DoReclaim(limit) => ReclaimScript(s.store, s.now, limit)
    case DoCancel(run) => CancelScript(s.store, smembers, run)
  }

  /** A claim gets past as many as 63 stale entries, and drops them; 64 of them
      make it answer that there is nothing, whatever stands behind. */
  lemma ClaimGivesUpAfter64(s: RedisSystem, smembers: set<nat> -> seq<nat>, consumer: nat, wanted: seq<JobType>, duration: int, n: nat)
    requires StaleHeads(s.store, wanted, n) && duration > 0
    ensures var r := RunCommand(s, smembers, DoClaim(consumer, wanted, duration));
      && (n >= 64 ==> r == Scripted(WithoutHeads(s.store, wanted, 64), Nothing))
      && (n < 64 ==>
            var st := WithoutHeads(s.store, wanted, n);
            var head := HeadScan(st, wanted);
            && (head.None? ==> r == Scripted(st, Nothing))
            && (head.Some? && head.value.id in st.hashes && st.hashes[head.value.id].status.Queued? ==>
                  r.reply.Claimed? && r.reply.job.id == head.value.id))
  {
    StaleHeadsAreSkipped(s.store, consumer, wanted, duration, s.now, s.nextToken, CLAIM_TRIES, n);
  }

  ghost function AfterCommand(s: RedisSystem, smembers: set<nat> -> seq<nat>, c: Command): RedisSystem {
    RedisSystem(RunCommand(s, smembers, c).store,
                if c.Tick? then s.now + c.elapsed else s.now,
                if c.DoClaim? then s.nextToken + 1 else s.nextToken)
  }

  ghost function RunCommands(s: RedisSystem, smembers: set<nat> -> seq<nat>, cs: seq<Command>): RedisSystem {
    if cs == [] then s
    else AfterCommand(RunCommands(s, smembers, cs[..|cs| - 1]), smembers, cs[|cs| - 1])
  }
}
