/** Fencing: while a lease is good nobody else gets the job; once it ends its token is worthless. */
module QueueFencing {
  import opened Common
  import opened Jobs
  import opened Queues
  import opened QueueInvariant

  /** The token was issued, and no record carries it any more. */
  ghost predicate Spent(s: System, token: nat) {
    token < s.nextToken
    && forall id :: id in s.queue.jobs && s.queue.jobs[id].lease.Some? ==> s.queue.jobs[id].lease.value.token != token
  }

  /** The ways a hold ends: the holder reports back, the run is cancelled, or a
      reclaim reaches it after its latest expiry. */
  ghost predicate Ends(s: System, c: Command, id: nat, token: nat) {
    match c
    case DoRelease(i, t, _) => i == id && t == token
    case DoAcknowledge(i, t) => i == id && t == token
    case DoCancel(run) => id in s.queue.jobs && run == s.queue.jobs[id].run
    case DoReclaim(limit) => id in Due(s.queue.leases, s.now, limit)
    case _ => false
  }

  ghost predicate Uses(c: Command, token: nat) {
    (c.DoRenew? || c.DoAcknowledge? || c.DoRelease?) && c.token == token
  }

  // ---- what the batch operations leave alone ----

  /** No lease appears out of nowhere, and records outside `ids` are untouched. */
  ghost predicate OnlyTouches(q: Queue, r: Queue, ids: seq<nat>) {
    && r.jobs.Keys == q.jobs.Keys
    && (forall i :: i in q.jobs && i !in ids ==> r.jobs[i] == q.jobs[i])
    && (forall i :: i in q.jobs && r.jobs[i].lease.Some? ==> r.jobs[i].lease == q.jobs[i].lease)
  }

  lemma {:induction false} ReclaimTouches(q: Queue, ids: seq<nat>, now: int)
    ensures OnlyTouches(q, ReclaimAll(q, ids, now), ids)
  {
    if ids != [] {
      var before, id := ids[..|ids| - 1], ids[|ids| - 1];
      ReclaimTouches(q, before, now);
      ReclaimOneTouches(ReclaimAll(q, before, now), id, now);
      hide ReclaimOne;
      assert ids == before + [id];
    }
  }

  lemma ReclaimOneTouches(q: Queue, id: nat, now: int)
    ensures OnlyTouches(q, ReclaimOne(q, id, now), [id])
  {
  }

  lemma {:induction false} CancelTouches(q: Queue, ids: seq<nat>)
    ensures OnlyTouches(q, CancelAll(q, ids), ids)
    ensures forall i :: i in ids && i in q.jobs && !q.jobs[i].status.IsTerminal() ==>
              CancelAll(q, ids).jobs[i].lease == None && CancelAll(q, ids).jobs[i].status == Cancelled
  {
    if ids != [] {
      CancelTouches(q, ids[..|ids| - 1]);
      assert ids == ids[..|ids| - 1] + [ids[|ids| - 1]];
    }
  }

  // ---- one step ----

  /** The lease of every other job differs from this token. */
  lemma OthersHoldOtherTokens(reg: Registry, s: System, id: nat, token: nat)
    requires Inv(reg, s) && s.queue.Holds(id, token)
    ensures token < s.nextToken
    ensures OnlyHolder(s.queue, id, token)
  {
    assert RecordSound(reg, s, id);
  }

  ghost predicate OnlyHolder(q: Queue, id: nat, token: nat) {
    forall o :: o in q.jobs && o != id && q.jobs[o].lease.Some? ==> q.jobs[o].lease.value.token != token
  }

  /** A batch that takes this job's lease away spends its token, or leaves the hold as it is. */
  lemma BatchAndHold(q: Queue, r: Queue, ids: seq<nat>, id: nat, token: nat)
    requires q.Holds(id, token) && OnlyHolder(q, id, token) && OnlyTouches(q, r, ids)
    requires id in ids ==> r.jobs[id].lease == None
    ensures id in ids ==>
              forall o :: o in r.jobs && r.jobs[o].lease.Some? ==> r.jobs[o].lease.value.token != token
    ensures id !in ids ==> r.Holds(id, token) && r.jobs[id] == q.jobs[id]
  {
  }

  lemma ReclaimedLoseTheirLease(reg: Registry, s: System, limit: nat, id: nat)
    requires Inv(reg, s) && id in Due(s.queue.leases, s.now, limit)
    ensures var r := ReclaimAll(s.queue, Due(s.queue.leases, s.now, limit), s.now);
            id in r.jobs ==> r.jobs[id].lease == None
  {
    var due := Due(s.queue.leases, s.now, limit);
    DueIsDistinctAndLapsed(s.queue.leases, s.now, limit);
    ReclaimAllKeepsInv(reg, s, due);
    assert LeasesAgree(ReclaimAll(s.queue, due, s.now));
    assert id !in ReclaimAll(s.queue, due, s.now).leases;
  }

  lemma ReclaimAndHold(reg: Registry, s: System, limit: nat, id: nat, token: nat)
    requires Inv(reg, s) && s.queue.Holds(id, token)
    ensures var t := After(s, DoReclaim(limit));
            if Ends(s, DoReclaim(limit), id, token) then Spent(t, token) else t.queue.Holds(id, token)
    ensures !Ends(s, DoReclaim(limit), id, token) ==>
              After(s, DoReclaim(limit)).queue.jobs[id] == s.queue.jobs[id]
  {
    hide Inv, Due, ReclaimAll;
    var due := Due(s.queue.leases, s.now, limit);
    ReclaimTouches(s.queue, due, s.now);
    OthersHoldOtherTokens(reg, s, id, token);
    if id in due {
      ReclaimedLoseTheirLease(reg, s, limit, id);
    }
    BatchAndHold(s.queue, ReclaimAll(s.queue, due, s.now), due, id, token);
  }

  lemma CancelAndHold(reg: Registry, s: System, run: nat, id: nat, token: nat)
    requires Inv(reg, s) && s.queue.Holds(id, token)
    ensures var t := After(s, DoCancel(run));
            if Ends(s, DoCancel(run), id, token) then Spent(t, token) else t.queue.Holds(id, token)
    ensures !Ends(s, DoCancel(run), id, token) ==> After(s, DoCancel(run)).queue.jobs[id] == s.queue.jobs[id]
  {
    RunIdsAreTheRun(s.queue, run);
    CancelTouches(s.queue, RunIds(s.queue, run));
    OthersHoldOtherTokens(reg, s, id, token);
    assert RecordSound(reg, s, id);
    assert id in s.queue.RunOf(run) <==> run == s.queue.jobs[id].run;
  }

  /** A held job stays held, at the same expiry unless its own holder renews, and
      is not handed out; or the step is one of the endings and the token is spent. */
  lemma HoldStep(reg: Registry, s: System, c: Command, id: nat, token: nat)
    requires Inv(reg, s) && Admissible(reg, c) && s.queue.Holds(id, token)
    ensures if Ends(s, c, id, token) then Spent(After(s, c), token)
            else
              && After(s, c).queue.Holds(id, token)
              && (After(s, c).queue.jobs[id] != s.queue.jobs[id] ==>
                    c.DoRenew? && c.id == id && c.token == token && Perform(s, c).reply.Extended?)
    ensures var reply := Perform(s, c).reply;
            reply.Claimed? ==> reply.job.id != id
  {
    OthersHoldOtherTokens(reg, s, id, token);
    assert RecordSound(reg, s, id);
    match c
    case Tick(_) =>
    case DoEnqueue(job) =>
    case DoClaim(consumer, wanted, duration) =>
      ClaimTakesTheFirst(reg, s, consumer, wanted, duration);
      var spot := NextReady(s.queue, wanted);
      assert spot.Some? ==> RecordSound(reg, s, spot.value.id);
    case DoRenew(i, t, extension) =>
    case DoAcknowledge(i, t) =>
    case DoRelease(i, t, requeue) =>
    case DoReclaim(limit) => ReclaimAndHold(reg, s, limit, id, token);
    case DoCancel(run) => CancelAndHold(reg, s, run, id, token);
  }

  lemma BatchAndSpent(q: Queue, r: Queue, ids: seq<nat>, token: nat)
    requires OnlyTouches(q, r, ids)
    requires forall o :: o in q.jobs && q.jobs[o].lease.Some? ==> q.jobs[o].lease.value.token != token
    ensures forall o :: o in r.jobs && r.jobs[o].lease.Some? ==> r.jobs[o].lease.value.token != token
  {
  }

  lemma BatchKeepsSpent(s: System, c: Command, token: nat)
    requires (c.DoReclaim? || c.DoCancel?) && Spent(s, token)
    ensures Spent(After(s, c), token)
  {
    hide ReclaimAll, CancelAll, Due, RunIds, StoppedBy;
    if c.DoReclaim? {
      var due := Due(s.queue.leases, s.now, c.limit);
      ReclaimTouches(s.queue, due, s.now);
      BatchAndSpent(s.queue, ReclaimAll(s.queue, due, s.now), due, token);
    } else {
      var ids := RunIds(s.queue, c.run);
      CancelTouches(s.queue, ids);
      BatchAndSpent(s.queue, CancelAll(s.queue, ids), ids, token);
    }
  }

  /** A claim leases at most one job, with the token it was given. */
  lemma ClaimGrantsItsToken(q: Queue, consumer: nat, wanted: seq<JobType>, duration: int, now: int, token: nat)
    requires NextReady(q, wanted).Some? ==>
      NextReady(q, wanted).value.id in q.jobs && q.jobs[NextReady(q, wanted).value.id].status == Queued
    ensures var r := ClaimNext(q, consumer, wanted, duration, now, token).queue;
      forall id :: id in r.jobs ==> id in q.jobs && (r.jobs[id] == q.jobs[id] || (r.jobs[id].lease.Some? && r.jobs[id].lease.value.token == token))
  {
    hide NextReady;
  }

  lemma ClaimKeepsSpent(reg: Registry, s: System, c: Command, token: nat)
    requires Inv(reg, s) && c.DoClaim? && Spent(s, token)
    ensures Spent(After(s, c), token)
  {
    ClaimTakesTheFirst(reg, s, c.consumer, c.wanted, c.duration);
    hide Inv, NextReady, ClaimNext;
    ClaimGrantsItsToken(s.queue, c.consumer, c.wanted, c.duration, s.now, s.nextToken);
  }

  /** A spent token stays spent, and whatever is asked with it changes nothing. */
  lemma SpentStep(reg: Registry, s: System, c: Command, token: nat)
    requires Inv(reg, s) && Admissible(reg, c) && Spent(s, token)
    ensures Spent(After(s, c), token)
    ensures Uses(c, token) ==> After(s, c) == s && !Perform(s, c).reply.Extended?
  {
    if c.DoClaim? {
      ClaimKeepsSpent(reg, s, c, token);
    } else if c.DoReclaim? || c.DoCancel? {
      BatchKeepsSpent(s, c, token);
    } else {
      hide Inv;
    }
  }

  // ---- whole histories ----

  ghost predicate NeverEnds(s: System, cs: seq<Command>, id: nat, token: nat) {
    forall j :: 0 <= j < |cs| ==> !Ends(Exec(s, cs[..j]), cs[j], id, token)
  }

  lemma NeverEndsSoFar(s: System, cs: seq<Command>, id: nat, token: nat)
    requires cs != []
    ensures var last := |cs| - 1;
            NeverEnds(s, cs, id, token) <==>
              NeverEnds(s, cs[..last], id, token) && !Ends(Exec(s, cs[..last]), cs[last], id, token)
  {
    hide Ends, Exec;
    var last := |cs| - 1;
    var before := cs[..last];
    assert forall j :: 0 <= j < last ==> before[..j] == cs[..j] && before[j] == cs[j];
    if NeverEnds(s, before, id, token) && !Ends(Exec(s, before), cs[last], id, token) {
      forall j | 0 <= j < |cs|
        ensures !Ends(Exec(s, cs[..j]), cs[j], id, token)
      {
        assert j < last ==> !Ends(Exec(s, before[..j]), before[j], id, token);
      }
    }
    if NeverEnds(s, cs, id, token) {
      forall j | 0 <= j < last
        ensures !Ends(Exec(s, before[..j]), before[j], id, token)
      {
        assert !Ends(Exec(s, cs[..j]), cs[j], id, token);
      }
    }
  }

  /** From a hold, every history either has an ending in it, and the token is
      spent, or has none, and the job is still held. */
  lemma {:induction false} HeldUntilEnded(reg: Registry, s: System, cs: seq<Command>, id: nat, token: nat)
    requires Inv(reg, s) && AllAdmissible(reg, cs) && s.queue.Holds(id, token)
    ensures Inv(reg, Exec(s, cs))
    ensures if NeverEnds(s, cs, id, token) then Exec(s, cs).queue.Holds(id, token) else Spent(Exec(s, cs), token)
  {
    if cs != [] {
      var before, c := cs[..|cs| - 1], cs[|cs| - 1];
      NeverEndsSoFar(s, cs, id, token);
      HeldUntilEnded(reg, s, before, id, token);
      hide Inv, Ends, Spent, After, Perform, NeverEnds;
      var u := Exec(s, before);
      StepKeepsInv(reg, u, c);
      if NeverEnds(s, before, id, token) {
        HoldStep(reg, u, c, id, token);
      } else {
        SpentStep(reg, u, c, token);
      }
    }
  }

  lemma ClaimHolds(reg: Registry, s: System, c: Command)
    requires Inv(reg, s) && Admissible(reg, c) && c.DoClaim? && Perform(s, c).reply.Claimed?
    ensures var reply := Perform(s, c).reply;
            && After(s, c).queue.Holds(reply.job.id, reply.lease.token)
            && reply.lease.token == s.nextToken
            && After(s, c).queue.jobs[reply.job.id].lease.value.expiresAt == s.now + c.duration == reply.lease.expiresAt
  {
    ClaimTakesTheFirst(reg, s, c.consumer, c.wanted, c.duration);
    var spot := NextReady(s.queue, c.wanted);
    assert RecordSound(reg, s, spot.value.id);
  }

  /** Fencing, over every history after a claim. First: the job is handed out
      again only after one of the endings. Second: after an ending, nothing done
      with the old token has any effect, forever. */
  lemma Fencing(reg: Registry, s: System, c: Command, later: seq<Command>, next: Command)
    requires Inv(reg, s) && Admissible(reg, c) && AllAdmissible(reg, later) && Admissible(reg, next)
    requires c.DoClaim? && Perform(s, c).reply.Claimed?
    ensures var claim := Perform(s, c).reply;
            var held, now := After(s, c), Exec(After(s, c), later);
            var reply := Perform(now, next).reply;
            && (reply.Claimed? && reply.job.id == claim.job.id ==>
                  !NeverEnds(held, later, claim.job.id, claim.lease.token))
            && (Uses(next, claim.lease.token) && !NeverEnds(held, later, claim.job.id, claim.lease.token) ==>
                  After(now, next) == now && !reply.Extended?)
  {
    var claim := Perform(s, c).reply;
    var id, token := claim.job.id, claim.lease.token;
    var held := After(s, c);
    StepKeepsInv(reg, s, c);
    ClaimHolds(reg, s, c);
    HeldUntilEnded(reg, held, later, id, token);
    var now := Exec(held, later);
    if NeverEnds(held, later, id, token) {
      HoldStep(reg, now, next, id, token);
    } else {
      SpentStep(reg, now, next, token);
    }
  }

  /** A reclaim ends a hold only once the clock has reached the expiry the record
      carries, which is the latest one its holder obtained. */
  lemma ReclaimWaitsForTheExpiry(reg: Registry, s: System, limit: nat, id: nat, token: nat)
    requires Inv(reg, s) && s.queue.Holds(id, token) && Ends(s, DoReclaim(limit), id, token)
    ensures s.now >= s.queue.jobs[id].lease.value.expiresAt
  {
    DueIsDistinctAndLapsed(s.queue.leases, s.now, limit);
  }

  /** Whether this command is a renewal that the holder obtained. */
  ghost predicate Renews(s: System, c: Command, id: nat, token: nat) {
    c.DoRenew? && c.id == id && c.token == token && Perform(s, c).reply.Extended?
  }

  /** The expiry of the latest renewal the holder obtained, or `granted` when there was none. */
  ghost function LatestExpiry(s: System, cs: seq<Command>, id: nat, token: nat, granted: int): int {
    if cs == [] then granted else
    var before, c := Exec(s, cs[..|cs| - 1]), cs[|cs| - 1];
    if Renews(before, c, id, token) then Perform(before, c).reply.lease.expiresAt
    else LatestExpiry(s, cs[..|cs| - 1], id, token, granted)
  }

  lemma ExpiryStep(reg: Registry, s: System, c: Command, id: nat, token: nat)
    requires Inv(reg, s) && Admissible(reg, c) && s.queue.Holds(id, token) && !Ends(s, c, id, token)
    ensures After(s, c).queue.Holds(id, token)
    ensures After(s, c).queue.jobs[id].lease.value.expiresAt
      == if Renews(s, c, id, token) then Perform(s, c).reply.lease.expiresAt else s.queue.jobs[id].lease.value.expiresAt
  {
    HoldStep(reg, s, c, id, token);
    hide Inv, Ends;
  }

  /** While a hold lasts, the expiry on record is the one its holder obtained last. */
  lemma {:induction false} ExpiryIsTheLatest(reg: Registry, s: System, cs: seq<Command>, id: nat, token: nat)
    requires Inv(reg, s) && AllAdmissible(reg, cs) && s.queue.Holds(id, token) && NeverEnds(s, cs, id, token)
    ensures Inv(reg, Exec(s, cs)) && Exec(s, cs).queue.Holds(id, token)
    ensures Exec(s, cs).queue.jobs[id].lease.value.expiresAt
      == LatestExpiry(s, cs, id, token, s.queue.jobs[id].lease.value.expiresAt)
  {
    if cs != [] {
      var before, c := cs[..|cs| - 1], cs[|cs| - 1];
      NeverEndsSoFar(s, cs, id, token);
      ExpiryIsTheLatest(reg, s, before, id, token);
      hide Inv, Ends, After, Perform, NeverEnds;
      StepKeepsInv(reg, Exec(s, before), c);
      ExpiryStep(reg, Exec(s, before), c, id, token);
    }
  }

  /** Over every history after a claim: the reclaim that ends the hold comes at or
      after the latest expiry its holder obtained, the claim's own if it never renewed. */
  lemma ReclaimWaitsForTheLatest(reg: Registry, s: System, c: Command, later: seq<Command>, limit: nat)
    requires Inv(reg, s) && Admissible(reg, c) && AllAdmissible(reg, later) && c.DoClaim? && Perform(s, c).reply.Claimed?
    requires var claim := Perform(s, c).reply;
      && NeverEnds(After(s, c), later, claim.job.id, claim.lease.token)
      && Ends(Exec(After(s, c), later), DoReclaim(limit), claim.job.id, claim.lease.token)
    ensures var claim := Perform(s, c).reply;
      Exec(After(s, c), later).now
        >= LatestExpiry(After(s, c), later, claim.job.id, claim.lease.token, claim.lease.expiresAt)
  {
    hide Inv, Ends, NeverEnds, LatestExpiry, After, Perform, Exec;
    var claim := Perform(s, c).reply;
    var id, token := claim.job.id, claim.lease.token;
    StepKeepsInv(reg, s, c);
    ClaimHolds(reg, s, c);
    ExpiryIsTheLatest(reg, After(s, c), later, id, token);
    ReclaimWaitsForTheExpiry(reg, Exec(After(s, c), later), limit, id, token);
  }

  /** Giving a job back puts it on offer again whatever its budget says, and the
      claim that takes it next counts one more attempt. */
  lemma ReleaseIgnoresTheBudget(reg: Registry, s: System, id: nat, token: nat, consumer: nat, wanted: seq<JobType>, duration: int)
    requires Inv(reg, s) && s.queue.Holds(id, token) && duration > 0
    ensures var t := After(s, DoRelease(id, token, true));
      var reply := Perform(t, DoClaim(consumer, wanted, duration)).reply;
      && id in t.queue.ReadyOf(s.queue.jobs[id].kind)
      && (reply.Claimed? && reply.job.id == id ==> reply.job.attempt == s.queue.jobs[id].attempt + 1)
  {
    var t := After(s, DoRelease(id, token, true));
    ReleaseKeepsInv(reg, s, id, token, true);
    ClaimTakesTheFirst(reg, t, consumer, wanted, duration);
    assert t.queue.jobs[id].attempt == s.queue.jobs[id].attempt;
    assert NextReady(t.queue, wanted).Some? ==> RecordSound(reg, t, NextReady(t.queue, wanted).value.id);
    hide Inv, NextReady, Release;
  }

  /** Two successful claims never share a token, so at most one consumer's report
      on a job can ever be accepted. */
  lemma OneHolderAtATime(reg: Registry, now: int, cs: seq<Command>, a: nat, b: nat, token: nat)
    requires AllAdmissible(reg, cs)
    requires Exec(Start(now), cs).queue.Holds(a, token) && Exec(Start(now), cs).queue.Holds(b, token)
    ensures a == b
  {
    InvAlways(reg, now, cs);
  }
}
