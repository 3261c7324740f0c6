/** What the workflow offers is what the queue would hand out: a run whose jobs
    are claimed in line is carried out, command by command, by the leased queue. */
module WorkflowClaims {
  import opened Common
  import opened RunStateMachine
  import opened Workflow
  import opened WorkflowQueue
  import opened WorkflowGeneral
  import Q = Queues
  import QI = QueueInvariant
  import QF = QueueFencing
  import J = Jobs

  const ALL_TYPES: seq<J.JobType> :=
    [J.Plan, J.Code, J.ReviewCode, J.LlmInference,
     J.Validate(Build), J.Validate(Test), J.Validate(StaticAnalysis), J.PatchApply]

  lemma EveryTypeIsWanted(kind: J.JobType)
    ensures kind in ALL_TYPES
  {
    if kind.Validate? {
      assert kind.stage == Build || kind.stage == Test || kind.stage == StaticAnalysis;
    }
    assert ALL_TYPES[0] == J.Plan && ALL_TYPES[1] == J.Code && ALL_TYPES[2] == J.ReviewCode && ALL_TYPES[3] == J.LlmInference;
    assert ALL_TYPES[4] == J.Validate(Build) && ALL_TYPES[5] == J.Validate(Test) && ALL_TYPES[6] == J.Validate(StaticAnalysis);
    assert ALL_TYPES[7] == J.PatchApply;
  }

  // ---- the correspondence ----

  /** The registry knows the jobs of this run: one run, their types and
      priorities, each created after the one before. */
  ghost predicate Registered(reg: QI.Registry, s: State, run: nat) {
    && (forall k :: 0 <= k < |s.jobs| ==>
          && reg(k).run == run && reg(k).kind == s.jobs[k].kind && reg(k).priority == s.jobs[k].priority
          && 0 <= reg(k).createdAt < Q.PRIORITY_BAND)
    && (forall k, l :: 0 <= k < l < |s.jobs| ==> reg(k).createdAt < reg(l).createdAt)
  }

  /** The row as it is published, under its number and with its date. */
  function Dated(reg: QI.Registry, k: nat, job: J.JobRecord): J.JobRecord {
    job.(id := k, run := reg(k).run, createdAt := reg(k).createdAt)
  }

  predicate SameWork(record: J.JobRecord, copy: J.JobRecord) {
    && record.kind == copy.kind && record.candidate == copy.candidate && record.priority == copy.priority
    && record.attempt == copy.attempt && record.maxAttempts == copy.maxAttempts
  }

  /** The queue's records are jobs of this run; those that are ready are the offers. */
  ghost predicate Ready(records: map<nat, J.JobRecord>, s: State) {
    && (forall k :: k in records ==> k < |s.jobs|)
    && (forall k :: k in s.offered <==> k in records && records[k].status == J.Queued)
    && (forall k :: k in s.offered ==> SameWork(records[k], s.offered[k]))
  }

  ghost predicate Offers(reg: QI.Registry, q: Q.System, s: State) { QI.Inv(reg, q) && Ready(q.queue.jobs, s) }

  // ---- a claim takes the first in line ----

  lemma SameOrder(reg: QI.Registry, q: Q.System, s: State, run: nat, k: nat, l: nat)
    requires Offers(reg, q, s) && Registered(reg, s, run) && k in s.offered && l in s.offered && k != l
    ensures QI.AheadOf(q.queue.jobs[k], q.queue.jobs[l]) <==> Ahead(s, k, l)
  {
    assert QI.RecordSound(reg, q, k) && QI.RecordSound(reg, q, l);
    assert k < |s.jobs| && l < |s.jobs|;
    assert k < l || l < k;
    hide QI.Inv;
  }

  /** Exactly the first offer in line answers a claim for every type of job. */
  lemma ClaimIsInLine(reg: QI.Registry, q: Q.System, s: State, run: nat, k: nat, consumer: nat, duration: int)
    requires Offers(reg, q, s) && Registered(reg, s, run) && duration > 0
    ensures var reply := Q.Perform(q, Q.DoClaim(consumer, ALL_TYPES, duration)).reply;
      FirstInLine(s, k) <==> reply.Claimed? && reply.job.id == k
  {
    forall id | id in q.queue.jobs
      ensures 0 <= q.queue.jobs[id].createdAt < Q.PRIORITY_BAND && q.queue.jobs[id].id == id
    {
      assert QI.RecordSound(reg, q, id) && id < |s.jobs|;
    }
    QI.ClaimTakesTheFirstInLine(reg, q, consumer, ALL_TYPES, duration);
    forall id
      ensures QI.Eligible(q.queue, ALL_TYPES, id) <==> id in s.offered
    {
      if id in q.queue.jobs {
        EveryTypeIsWanted(q.queue.jobs[id].kind);
      }
    }
    forall i, j | i in s.offered && j in s.offered && i != j
      ensures QI.AheadOf(q.queue.jobs[i], q.queue.jobs[j]) <==> Ahead(s, i, j)
    {
      SameOrder(reg, q, s, run, i, j);
    }
    hide QI.Inv, QI.Eligible, QI.AheadOf, Ahead, Q.Perform, SameWork;
    var reply := Q.Perform(q, Q.DoClaim(consumer, ALL_TYPES, duration)).reply;
    if reply.Claimed? {
      assert reply.job.id in s.offered;
      OnlyOneIsFirst(s, reply.job.id, k);
    }
  }

  lemma OnlyOneIsFirst(s: State, k: nat, l: nat)
    ensures FirstInLine(s, k) && FirstInLine(s, l) ==> k == l
  {
    assert FirstInLine(s, k) && l in s.offered && l != k ==> Ahead(s, k, l);
  }

  // ---- one event, as commands ----

  function Enqueues(reg: QI.Registry, base: nat, added: seq<J.JobRecord>): seq<Q.Command> {
    seq(|added|, i requires 0 <= i < |added| => Q.DoEnqueue(Dated(reg, base + i, added[i])))
  }

  /** What the handler reports once the execution is over. */
  function Report(reg: QI.Registry, t: State, k: nat, token: nat): seq<Q.Command>
    requires k < |t.jobs|
  {
    if k !in t.offered then
      if t.jobs[k].status == J.Dead then [Q.DoRelease(k, token, false)] else [Q.DoAcknowledge(k, token)]
    else if t.jobs[k].status == J.Queued then
      [Q.DoRelease(k, token, true), Q.DoEnqueue(Dated(reg, k, t.jobs[k]))]
    else [Q.DoRelease(k, token, true)]
  }

  /** A decision publishes, an execution claims and reports, a cancellation stops the run's jobs. */
  function Relay(reg: QI.Registry, run: nat, s: State, e: Event, t: State, token: nat): seq<Q.Command>
    requires |s.jobs| <= |t.jobs|
  {
    match e
    case Advance => Enqueues(reg, |s.jobs|, t.jobs[|s.jobs|..])
    case Execute(k, work) =>
      if k < |s.jobs| && k in s.offered then [Q.DoClaim(0, ALL_TYPES, 1)] + Report(reg, t, k, token) else []
    case Cancel => if t == s then [] else [Q.DoCancel(run)]
  }

  lemma {:induction false} ExecInTwo(q: Q.System, a: seq<Q.Command>, b: seq<Q.Command>)
    ensures Q.Exec(q, a + b) == Q.Exec(Q.Exec(q, a), b)
  {
    if b == [] {
      assert a + b == a;
    } else {
      ExecInTwo(q, a, b[..|b| - 1]);
      assert (a + b)[..|a + b| - 1] == a + b[..|b| - 1];
    }
  }

  lemma ExecOnce(q: Q.System, c: Q.Command)
    ensures Q.Exec(q, [c]) == Q.After(q, c)
  {
    assert [c][..0] == [];
    assert Q.Exec(q, []) == q;
  }

  // ---- decisions ----

  /** Publishing a job that the queue does not hold, or holds ready, puts its row on offer. */
  lemma EnqueuedIsOffered(reg: QI.Registry, q: Q.System, k: nat, job: J.JobRecord)
    requires QI.Inv(reg, q) && job.lease == None && job.completedAt == None && job.status == J.Queued
    requires reg(k).kind == job.kind && reg(k).priority == job.priority
    requires k in q.queue.jobs ==> q.queue.jobs[k].status == J.Queued
    ensures var c := Q.DoEnqueue(Dated(reg, k, job));
      && QI.Admissible(reg, c) && QI.Inv(reg, Q.After(q, c))
      && Q.After(q, c).queue.jobs == q.queue.jobs[k := Dated(reg, k, job)]
      && Q.After(q, c).nextToken == q.nextToken
  {
    var c := Q.DoEnqueue(Dated(reg, k, job));
    QI.StepKeepsInv(reg, q, c);
    assert k in q.queue.jobs ==> QI.RecordSound(reg, q, k);
    hide QI.Inv;
  }

  lemma OneMoreReady(records: map<nat, J.JobRecord>, s: State, job: J.JobRecord, record: J.JobRecord)
    requires Ready(records, s) && record.status == J.Queued && SameWork(record, job)
    ensures Ready(records[|s.jobs| := record], Publish(s, [job]))
  {
    var k := |s.jobs|;
    assert k !in records && k !in s.offered;
    hide SameWork;
  }

  lemma PublishInTwo(s: State, a: seq<J.JobRecord>, job: J.JobRecord)
    ensures Publish(Publish(s, a), [job]) == Publish(s, a + [job])
  {
    hide Publish;
    var v, t, u := Publish(s, a), Publish(Publish(s, a), [job]), Publish(s, a + [job]);
    assert t.jobs == u.jobs;
    assert forall k :: k in t.offered <==> k in u.offered;
    assert forall k :: k in t.offered ==> t.offered[k] == u.offered[k];
    assert t.offered == u.offered;
  }

  ghost predicate Fresh(reg: QI.Registry, base: nat, added: seq<J.JobRecord>) {
    forall i :: 0 <= i < |added| ==>
      && added[i].lease == None && added[i].completedAt == None && added[i].status == J.Queued
      && reg(base + i).kind == added[i].kind && reg(base + i).priority == added[i].priority
  }

  lemma PublishOne(reg: QI.Registry, q: Q.System, s: State, job: J.JobRecord)
    requires Offers(reg, q, s) && job.lease == None && job.completedAt == None && job.status == J.Queued
    requires reg(|s.jobs|).kind == job.kind && reg(|s.jobs|).priority == job.priority
    ensures var c := Q.DoEnqueue(Dated(reg, |s.jobs|, job));
      QI.Admissible(reg, c) && Offers(reg, Q.After(q, c), Publish(s, [job]))
  {
    hide QI.Inv, Q.After, QI.Admissible, Publish;
    assert |s.jobs| !in q.queue.jobs;
    EnqueuedIsOffered(reg, q, |s.jobs|, job);
    OneMoreReady(q.queue.jobs, s, job, Dated(reg, |s.jobs|, job));
  }

  lemma {:induction false} PublishMany(reg: QI.Registry, q: Q.System, s: State, added: seq<J.JobRecord>)
    requires Offers(reg, q, s) && Fresh(reg, |s.jobs|, added)
    ensures var cs := Enqueues(reg, |s.jobs|, added);
      QI.AllAdmissible(reg, cs) && Offers(reg, Q.Exec(q, cs), Publish(s, added))
  {
    hide Offers, Q.After, Q.Exec, QI.Admissible, Publish, Dated, Enqueues;
    if added == [] {
      NothingEnqueued(reg, q, |s.jobs|);
      SameOffers(reg, q, s, Publish(s, []));
    } else {
      var front, job := added[..|added| - 1], added[|added| - 1];
      assert front + [job] == added;
      PublishMany(reg, q, s, front);
      var before, c := Enqueues(reg, |s.jobs|, front), Q.DoEnqueue(Dated(reg, |s.jobs| + |front|, job));
      PublishOne(reg, Q.Exec(q, before), Publish(s, front), job);
      PublishInTwo(s, front, job);
      OneMoreEnqueued(reg, |s.jobs|, front, job);
      ExecInTwo(q, before, [c]);
      ExecOnce(Q.Exec(q, before), c);
    }
  }

  lemma NothingEnqueued(reg: QI.Registry, q: Q.System, base: nat)
    ensures Enqueues(reg, base, []) == [] && Q.Exec(q, []) == q
  {
  }

  lemma OneMoreEnqueued(reg: QI.Registry, base: nat, front: seq<J.JobRecord>, job: J.JobRecord)
    ensures Enqueues(reg, base, front + [job]) == Enqueues(reg, base, front) + [Q.DoEnqueue(Dated(reg, base + |front|, job))]
  {
    hide Dated;
  }

  lemma SameOffers(reg: QI.Registry, q: Q.System, s: State, t: State)
    requires Offers(reg, q, s) && t.offered == s.offered && |t.jobs| == |s.jobs|
    ensures Offers(reg, q, t)
  {
  }

  lemma NewJobsAreFresh(cfg: Config, reg: QI.Registry, s: State, t: State, run: nat, added: seq<J.JobRecord>)
    requires NewJobs(cfg, added) && t.jobs == s.jobs + added && Registered(reg, t, run)
    ensures Fresh(reg, |s.jobs|, added)
  {
    hide NewJob, Registered;
    forall i | 0 <= i < |added|
      ensures added[i].lease == None && added[i].completedAt == None && added[i].status == J.Queued
      ensures reg(|s.jobs| + i).kind == added[i].kind && reg(|s.jobs| + i).priority == added[i].priority
    {
      assert t.jobs[|s.jobs| + i] == added[i];
      NewJobIsUnheld(cfg, added[i]);
      RegisteredAt(reg, t, run, |s.jobs| + i);
    }
  }

  lemma NewJobIsUnheld(cfg: Config, j: J.JobRecord)
    requires NewJob(cfg, j)
    ensures j.lease == None && j.completedAt == None && j.status == J.Queued
  {
  }

  lemma RegisteredAt(reg: QI.Registry, t: State, run: nat, k: nat)
    requires Registered(reg, t, run) && k < |t.jobs|
    ensures reg(k).kind == t.jobs[k].kind && reg(k).priority == t.jobs[k].priority
  {
  }

  lemma DecisionIsRelayed(cfg: Config, reg: QI.Registry, q: Q.System, s: State, t: State, run: nat)
    requires Publishes(cfg, s, t) && Offers(reg, q, s) && Registered(reg, t, run)
    ensures |s.jobs| <= |t.jobs|
    ensures var cs := Enqueues(reg, |s.jobs|, t.jobs[|s.jobs|..]);
      QI.AllAdmissible(reg, cs) && Offers(reg, Q.Exec(q, cs), t)
  {
    hide Offers, Registered, QI.AllAdmissible, Enqueues, Fresh, NewJobs, Publish;
    var added :| NewJobs(cfg, added) && t.jobs == s.jobs + added && t.offered == Publish(s, added).offered;
    assert t.jobs[|s.jobs|..] == added;
    NewJobsAreFresh(cfg, reg, s, t, run, added);
    PublishMany(reg, q, s, added);
    SameOffers(reg, Q.Exec(q, Enqueues(reg, |s.jobs|, added)), Publish(s, added), t);
  }

  // ---- executions ----

  ghost predicate LeasedOnce(record: J.JobRecord, before: J.JobRecord) {
    && record.status == J.Leased && record.attempt == before.attempt + 1 && record.kind == before.kind
    && record.candidate == before.candidate && record.priority == before.priority && record.maxAttempts == before.maxAttempts
  }

  lemma ClaimLeases(reg: QI.Registry, q: Q.System, s: State, run: nat, k: nat)
    requires Offers(reg, q, s) && Registered(reg, s, run) && FirstInLine(s, k)
    ensures var q1 := Q.After(q, Q.DoClaim(0, ALL_TYPES, 1));
      && QI.Inv(reg, q1) && q1.nextToken == q.nextToken + 1 && q1.queue.Holds(k, q.nextToken)
      && k in q.queue.jobs && q1.queue.jobs == q.queue.jobs[k := q1.queue.jobs[k]]
      && LeasedOnce(q1.queue.jobs[k], q.queue.jobs[k])
  {
    hide Registered, Ready, FirstInLine, QI.Inv, Q.After, Q.Perform, LeasedOnce;
    var c := Q.DoClaim(0, ALL_TYPES, 1);
    ClaimIsInLine(reg, q, s, run, k, 0, 1);
    QI.StepKeepsInv(reg, q, c);
    QF.ClaimHolds(reg, q, c);
    ClaimRewrites(reg, q, c);
  }

  lemma ClaimRewrites(reg: QI.Registry, q: Q.System, c: Q.Command)
    requires QI.Inv(reg, q) && c.DoClaim? && c.duration > 0 && Q.Perform(q, c).reply.Claimed?
    ensures var k, q1 := Q.Perform(q, c).reply.job.id, Q.After(q, c);
      && k in q.queue.jobs && k in q1.queue.jobs && q1.queue.jobs == q.queue.jobs[k := q1.queue.jobs[k]]
      && LeasedOnce(q1.queue.jobs[k], q.queue.jobs[k]) && q1.nextToken == q.nextToken + 1
  {
    hide Q.NextReady;
    QI.ClaimTakesTheFirst(reg, q, c.consumer, c.wanted, c.duration);
    var spot := Q.NextReady(q.queue, c.wanted);
    assert QI.RecordSound(reg, q, spot.value.id);
    hide QI.Inv;
  }

  lemma ReportKeepsInv(reg: QI.Registry, q: Q.System, k: nat, token: nat, requeue: bool)
    requires QI.Inv(reg, q) && q.queue.Holds(k, token)
    ensures var r := Q.After(q, Q.DoRelease(k, token, requeue));
      && QI.Inv(reg, r) && r.nextToken == q.nextToken
      && r.queue.jobs == q.queue.jobs[k := q.queue.jobs[k].Released().(status := if requeue then J.Queued else J.Pending)]
    ensures var r := Q.After(q, Q.DoAcknowledge(k, token));
      QI.Inv(reg, r) && r.nextToken == q.nextToken && r.queue.jobs == q.queue.jobs[k := q.queue.jobs[k].Released()]
  {
    hide QI.Inv;
    QI.StepKeepsInv(reg, q, Q.DoRelease(k, token, requeue));
    QI.StepKeepsInv(reg, q, Q.DoAcknowledge(k, token));
  }

  ghost predicate OneOffer(s: State, t: State, k: nat) {
    && |t.jobs| == |s.jobs|
    && (t.offered == s.offered - {k} || (k in t.offered && t.offered == s.offered[k := t.offered[k]]))
  }

  lemma ReadyAgain(records: map<nat, J.JobRecord>, s: State, t: State, k: nat, record: J.JobRecord)
    requires Ready(records, s) && k in s.offered && OneOffer(s, t, k)
    requires if k in t.offered then record.status == J.Queued && SameWork(record, t.offered[k]) else record.status != J.Queued
    ensures Ready(records[k := record], t)
  {
    hide SameWork;
  }

  lemma RunReport(reg: QI.Registry, q: Q.System, t: State, k: nat, token: nat)
    requires QI.Inv(reg, q) && q.queue.Holds(k, token) && q.queue.jobs[k].status == J.Leased && k < |t.jobs|
    requires k in t.offered && t.jobs[k].status == J.Queued ==>
      && t.jobs[k].lease == None && t.jobs[k].completedAt == None
      && reg(k).kind == t.jobs[k].kind && reg(k).priority == t.jobs[k].priority
    ensures var cs := Report(reg, t, k, token);
      var record := if k !in t.offered then q.queue.jobs[k].Released().(status := if t.jobs[k].status == J.Dead then J.Pending else J.Leased)
                    else if t.jobs[k].status == J.Queued then Dated(reg, k, t.jobs[k])
                    else q.queue.jobs[k].Released().(status := J.Queued);
      && QI.AllAdmissible(reg, cs) && QI.Inv(reg, Q.Exec(q, cs)) && Q.Exec(q, cs).queue.jobs == q.queue.jobs[k := record]
  {
    hide QI.Inv, Q.After, Dated;
    ReportKeepsInv(reg, q, k, token, k in t.offered);
    if k !in t.offered {
      ExecOnce(q, if t.jobs[k].status == J.Dead then Q.DoRelease(k, token, false) else Q.DoAcknowledge(k, token));
    } else {
      var release := Q.DoRelease(k, token, true);
      ExecOnce(q, release);
      if t.jobs[k].status == J.Queued {
        var enqueue := Q.DoEnqueue(Dated(reg, k, t.jobs[k]));
        EnqueuedIsOffered(reg, Q.After(q, release), k, t.jobs[k]);
        ExecInTwo(q, [release], [enqueue]);
        ExecOnce(Q.After(q, release), enqueue);
        assert [release] + [enqueue] == [release, enqueue];
      }
    }
  }

  lemma ExecuteOffers(cfg: Config, s: State, k: nat, work: Work)
    requires cfg.Valid() && General(cfg, s) && k in s.offered
    ensures k < |s.jobs|
    ensures var t := ExecuteJob(cfg, s, k, work); OneRow(s, t, k) && Tracked(cfg, t) && OneOffer(s, t, k)
  {
    hide ExecuteJob, CandidatesKept, Firsts;
    if s.run.status.IsTerminal() {
      LateExecution(cfg, s, k, work);
    } else {
      ExecuteOutcome(cfg, s, k, work);
    }
  }

  lemma RedoneIsSame(cfg: Config, reg: QI.Registry, s: State, t: State, run: nat, k: nat)
    requires Tracked(cfg, s) && Tracked(cfg, t) && k in s.offered && k < |s.jobs| && OneRow(s, t, k) && Registered(reg, t, run)
    ensures k in t.offered ==>
      && t.offered[k].kind == s.offered[k].kind && t.offered[k].candidate == s.offered[k].candidate
      && t.offered[k].priority == s.offered[k].priority && t.offered[k].attempt == s.offered[k].attempt + 1
      && t.offered[k].maxAttempts == s.offered[k].maxAttempts
    ensures k in t.offered && t.jobs[k].status == J.Queued ==>
      && t.jobs[k] == t.offered[k] && t.jobs[k].lease == None && t.jobs[k].completedAt == None
      && reg(k).kind == t.jobs[k].kind && reg(k).priority == t.jobs[k].priority
  {
    assert Copies(cfg, s.offered[k], s.jobs[k]) && RowSound(cfg, s.jobs[k]) && RowSound(cfg, t.jobs[k]);
    assert k in t.offered ==> Copies(cfg, t.offered[k], t.jobs[k]);
  }

  lemma ExecutionIsRelayed(cfg: Config, reg: QI.Registry, q: Q.System, s: State, run: nat, k: nat, work: Work)
    requires cfg.Valid() && General(cfg, s) && Offers(reg, q, s) && FirstInLine(s, k)
    requires k < |s.jobs| && Registered(reg, s, run) && Registered(reg, ExecuteJob(cfg, s, k, work), run)
    ensures |ExecuteJob(cfg, s, k, work).jobs| == |s.jobs|
    ensures var t := ExecuteJob(cfg, s, k, work);
      k < |t.jobs| && var cs := [Q.DoClaim(0, ALL_TYPES, 1)] + Report(reg, t, k, q.nextToken);
      QI.AllAdmissible(reg, cs) && Offers(reg, Q.Exec(q, cs), t)
  {
    hide General, Tracked, Registered, ExecuteJob, QI.Inv, Q.After, Report, Ready, Ahead, OneRow, OneOffer;
    GeneralParts(cfg, s);
    ExecuteOffers(cfg, s, k, work);
    var t := ExecuteJob(cfg, s, k, work);
    RowsAsBefore(s, t, k);
    RedoneIsSame(cfg, reg, s, t, run, k);
    ClaimLeases(reg, q, s, run, k);
    var claim := Q.DoClaim(0, ALL_TYPES, 1);
    var q1 := Q.After(q, claim);
    RunReport(reg, q1, t, k, q.nextToken);
    var report := Report(reg, t, k, q.nextToken);
    ExecInTwo(q, [claim], report);
    ExecOnce(q, claim);
    var r := Q.Exec(q1, report);
    assert r.queue.jobs == q.queue.jobs[k := r.queue.jobs[k]];
    ReadyHere(q.queue.jobs, s, k);
    ReadyAgain(q.queue.jobs, s, t, k, r.queue.jobs[k]);
  }

  lemma RowsAsBefore(s: State, t: State, k: nat)
    requires k < |s.jobs| && OneRow(s, t, k)
    ensures |t.jobs| == |s.jobs|
  {
  }

  lemma ReadyHere(records: map<nat, J.JobRecord>, s: State, k: nat)
    requires Ready(records, s) && k in s.offered
    ensures k in records && SameWork(records[k], s.offered[k])
  {
  }

  // ---- cancellation ----

  lemma CancellingIsRelayed(reg: QI.Registry, q: Q.System, s: State, t: State, run: nat)
    requires Offers(reg, q, s) && Registered(reg, s, run) && |t.jobs| == |s.jobs| && t.offered == map[]
    ensures Offers(reg, Q.Exec(q, [Q.DoCancel(run)]), t)
  {
    hide QI.Inv, Q.After, SameWork;
    ExecOnce(q, Q.DoCancel(run));
    QI.StepKeepsInv(reg, q, Q.DoCancel(run));
    forall k | k in q.queue.jobs
      ensures q.queue.jobs[k].run == run
    {
      RunOfRecord(reg, q, k);
    }
    CancelStopsAll(reg, q, run);
  }

  lemma RunOfRecord(reg: QI.Registry, q: Q.System, k: nat)
    requires QI.Inv(reg, q) && k in q.queue.jobs
    ensures q.queue.jobs[k].run == reg(k).run
  {
    assert QI.RecordSound(reg, q, k);
  }

  lemma CancelStopsAll(reg: QI.Registry, q: Q.System, run: nat)
    requires QI.Inv(reg, q) && forall k :: k in q.queue.jobs ==> q.queue.jobs[k].run == run
    ensures var r := Q.After(q, Q.DoCancel(run));
      r.queue.jobs.Keys == q.queue.jobs.Keys && forall k :: k in r.queue.jobs ==> r.queue.jobs[k].status != J.Queued
  {
    hide Q.CancelAll, Q.RunIds, QI.Inv;
    var ids := Q.RunIds(q.queue, run);
    QI.RunIdsAreTheRun(q.queue, run);
    QF.CancelTouches(q.queue, ids);
    var r := Q.After(q, Q.DoCancel(run));
    forall k | k in r.queue.jobs
      ensures r.queue.jobs[k].status != J.Queued
    {
      assert k in q.queue.jobs.Keys;
      QueuedIsListed(reg, q, run, k);
      if q.queue.jobs[k].status.IsTerminal() {
        FinishedStays(q.queue, ids, k);
      }
    }
  }

  lemma {:induction false} FinishedStays(q: Q.Queue, ids: seq<nat>, k: nat)
    requires k in q.jobs && q.jobs[k].status.IsTerminal()
    ensures k in Q.CancelAll(q, ids).jobs && Q.CancelAll(q, ids).jobs[k] == q.jobs[k]
  {
    if ids != [] {
      FinishedStays(q, ids[..|ids| - 1], k);
    }
  }

  lemma QueuedIsListed(reg: QI.Registry, q: Q.System, run: nat, k: nat)
    requires QI.Inv(reg, q) && k in q.queue.jobs && q.queue.jobs[k].run == run
    ensures q.queue.jobs[k].status == J.Queued ==> k in q.queue.RunOf(run)
  {
    assert QI.RecordSound(reg, q, k);
  }

  // ---- whole runs ----

  /** One event of the workflow, as the commands it gives the queue. */
  lemma StepIsRelayed(cfg: Config, reg: QI.Registry, q: Q.System, s: State, e: Event, run: nat)
    requires cfg.Valid() && General(cfg, s) && Offers(reg, q, s) && InLine(s, e)
    requires Registered(reg, s, run) && Registered(reg, Step(cfg, s, e), run)
    ensures |s.jobs| <= |Step(cfg, s, e).jobs|
    ensures var cs := Relay(reg, run, s, e, Step(cfg, s, e), q.nextToken);
      QI.AllAdmissible(reg, cs) && Offers(reg, Q.Exec(q, cs), Step(cfg, s, e))
  {
    hide General, Offers, Registered, AdvanceRun, ExecuteJob, Report, Enqueues, FirstInLine, Publishes;
    GeneralParts(cfg, s);
    match e
    case Advance =>
      if AdvanceRun(cfg, s).Ok? {
        DecisionsPublish(cfg, s);
      } else {
        PublishingNothing(cfg, s, s);
      }
      DecisionIsRelayed(cfg, reg, q, s, Step(cfg, s, e), run);
    case Cancel =>
      if Step(cfg, s, e) != s {
        CancellingIsRelayed(reg, q, s, Step(cfg, s, e), run);
      }
    case Execute(k, work) =>
      if k < |s.jobs| && k in s.offered {
        ExecutionIsRelayed(cfg, reg, q, s, run, k, work);
      }
  }

  lemma RegisteredBefore(cfg: Config, reg: QI.Registry, s: State, e: Event, run: nat)
    requires cfg.Valid() && General(cfg, s) && Registered(reg, Step(cfg, s, e), run)
    ensures Registered(reg, s, run)
  {
    GeneralParts(cfg, s);
    hide General, AdvanceRun, ExecuteJob, Tracked;
    var t := Step(cfg, s, e);
    RowsStay(cfg, s, e);
    hide Step;
    assert forall k :: 0 <= k < |s.jobs| ==> t.jobs[k].kind == s.jobs[k].kind && t.jobs[k].priority == s.jobs[k].priority;
  }

  lemma RowsStay(cfg: Config, s: State, e: Event)
    requires cfg.Valid() && Tracked(cfg, s) && Steady(cfg, s)
    ensures var t := Step(cfg, s, e);
      |s.jobs| <= |t.jobs| && forall k :: 0 <= k < |s.jobs| ==> t.jobs[k].kind == s.jobs[k].kind && t.jobs[k].priority == s.jobs[k].priority
  {
    hide AdvanceRun, ExecuteJob, Tracked, Publishes;
    match e
    case Advance =>
      if AdvanceRun(cfg, s).Ok? {
        DecisionsPublish(cfg, s);
        OldRowsStay(cfg, s, AdvanceRun(cfg, s).value);
      }
    case Cancel =>
    case Execute(k, work) =>
      if k < |s.jobs| && k in s.offered {
        ExecutionKeepsTracked(cfg, s, k, work);
      }
  }

  lemma OldRowsStay(cfg: Config, s: State, t: State)
    requires Publishes(cfg, s, t)
    ensures |s.jobs| <= |t.jobs| && forall k :: 0 <= k < |s.jobs| ==> t.jobs[k] == s.jobs[k]
  {
  }

  /** All the commands of a run, from an empty queue. */
  ghost function Commands(cfg: Config, reg: QI.Registry, now: int, run: nat, events: seq<Event>): seq<Q.Command> {
    if events == [] then [] else
    var before, e := events[..|events| - 1], events[|events| - 1];
    var s, cs := Exec(cfg, Init(cfg), before), Commands(cfg, reg, now, run, before);
    var t := Step(cfg, s, e);
    if |s.jobs| > |t.jobs| then cs
    else cs + Relay(reg, run, s, e, t, Q.Exec(QI.Start(now), cs).nextToken)
  }

  /** Every run whose jobs are claimed in line is carried out by the queue: its
      decisions publish, its executions claim and report, its cancellation stops
      the run's jobs, and what is ready then is what the run has on offer. */
  lemma {:induction false} RunIsRelayed(cfg: Config, reg: QI.Registry, now: int, run: nat, events: seq<Event>)
    requires cfg.Valid() && InLineRun(cfg, Init(cfg), events) && Registered(reg, Exec(cfg, Init(cfg), events), run)
    ensures var cs := Commands(cfg, reg, now, run, events);
      QI.AllAdmissible(reg, cs) && Offers(reg, Q.Exec(QI.Start(now), cs), Exec(cfg, Init(cfg), events))
  {
    if events == [] {
      QI.InvAlways(reg, now, []);
    } else {
      hide General, Step, Offers, Registered, Relay, Q.Exec, QI.AllAdmissible, InLine;
      var before, e := events[..|events| - 1], events[|events| - 1];
      var s, first := Exec(cfg, Init(cfg), before), Commands(cfg, reg, now, run, before);
      GeneralAlways(cfg, before);
      RegisteredBefore(cfg, reg, s, e, run);
      RunIsRelayed(cfg, reg, now, run, before);
      var q := Q.Exec(QI.Start(now), first);
      StepIsRelayed(cfg, reg, q, s, e, run);
      var rest := Relay(reg, run, s, e, Step(cfg, s, e), q.nextToken);
      ExecInTwo(QI.Start(now), first, rest);
      AdmissibleBoth(reg, first, rest);
    }
  }

  lemma AdmissibleBoth(reg: QI.Registry, a: seq<Q.Command>, b: seq<Q.Command>)
    requires QI.AllAdmissible(reg, a) && QI.AllAdmissible(reg, b)
    ensures QI.AllAdmissible(reg, a + b)
  {
  }
}
