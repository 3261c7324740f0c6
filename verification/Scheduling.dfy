/** Which worker takes a job: least loaded, or in turn. */
module Scheduling {
  import opened Common
  import opened Ordering
  import opened Workers

  function Eligible(workers: seq<WorkerRecord>, r: Requirements): seq<WorkerRecord> {
    Filter(workers, (w: WorkerRecord) => w.CanAccept(r))
  }

  ghost predicate DistinctIds(workers: seq<WorkerRecord>) {
    forall i, j :: 0 <= i < |workers| && 0 <= j < |workers| && workers[i] != workers[j] ==> workers[i].id != workers[j].id
  }

  ghost predicate ValidWorkers(workers: seq<WorkerRecord>) {
    forall w :: w in workers ==> w.capabilities.Valid()
  }

  // ---- least loaded ----

  function Utilization(w: WorkerRecord): real {
    if w.capabilities.maxConcurrency < 1 then 0.0 else w.activeJobs as real / w.capabilities.maxConcurrency as real
  }

  /** Comparing the sort keys (utilization, -slots, -context, id). */
  predicate LessLoaded(a: WorkerRecord, b: WorkerRecord) {
    if Utilization(a) != Utilization(b) then Utilization(a) < Utilization(b)
    else if a.AvailableSlots() != b.AvailableSlots() then a.AvailableSlots() > b.AvailableSlots()
    else if a.capabilities.contextLength != b.capabilities.contextLength then
      a.capabilities.contextLength > b.capabilities.contextLength
    else a.id < b.id
  }

  function RankByLoad(candidates: seq<WorkerRecord>, r: Requirements): seq<WorkerRecord> {
    Sort(Eligible(candidates, r), LessLoaded)
  }

  function SelectLeastLoaded(candidates: seq<WorkerRecord>, r: Requirements): Option<WorkerRecord> {
    var ranked := RankByLoad(candidates, r);
    if ranked == [] then None else Some(ranked[0])
  }

  lemma LessLoadedIsAnOrder()
    ensures StrictWeakOrder(LessLoaded)
  {
    hide Utilization;
  }

  /** The load ratio compared in whole numbers. */
  ghost predicate LighterRatio(a: WorkerRecord, b: WorkerRecord) {
    a.activeJobs * b.capabilities.maxConcurrency < b.activeJobs * a.capabilities.maxConcurrency
  }

  lemma UtilizationIsTheRatio(a: WorkerRecord, b: WorkerRecord)
    requires a.capabilities.Valid() && b.capabilities.Valid()
    ensures Utilization(a) < Utilization(b) <==> LighterRatio(a, b)
  {
    var p, q := a.activeJobs as real, b.activeJobs as real;
    var m, n := a.capabilities.maxConcurrency as real, b.capabilities.maxConcurrency as real;
    CrossMultiply(p, m, q, n);
    assert p * n == (a.activeJobs * b.capabilities.maxConcurrency) as real;
    assert q * m == (b.activeJobs * a.capabilities.maxConcurrency) as real;
  }

  lemma CrossMultiply(p: real, m: real, q: real, n: real)
    requires m > 0.0 && n > 0.0
    ensures p / m < q / n <==> p * n < q * m
  {
    var x, y := p / m, q / n;
    assert p == x * m && q == y * n;
    var k := m * n;
    assert p * n == x * k;
    assert q * m == y * k;
    Scale(x, y, k);
  }

  lemma Scale(x: real, y: real, k: real)
    requires k > 0.0
    ensures x < y <==> x * k < y * k
  {
    assert (y - x) * k == y * k - x * k;
  }

  function Free(w: WorkerRecord): int { w.capabilities.maxConcurrency - w.activeJobs }

  /** Lighter ratio; then more free slots; then the longer context; then the lower id. */
  ghost predicate Preferred(a: WorkerRecord, b: WorkerRecord) {
    || LighterRatio(a, b)
    || (!LighterRatio(b, a)
        && (|| Free(a) > Free(b)
            || (Free(a) == Free(b)
                && (|| a.capabilities.contextLength > b.capabilities.contextLength
                    || (a.capabilities.contextLength == b.capabilities.contextLength && a.id < b.id)))))
  }

  /** Nobody is chosen only when nobody is eligible; otherwise the chosen one is
      eligible and preferred to every other eligible worker. */
  lemma LeastLoadedIsBest(candidates: seq<WorkerRecord>, r: Requirements)
    requires DistinctIds(candidates) && ValidWorkers(candidates)
    ensures SelectLeastLoaded(candidates, r).None? <==> forall w :: w in candidates ==> !w.CanAccept(r)
    ensures var chosen := SelectLeastLoaded(candidates, r);
      chosen.Some? ==>
        && chosen.value in candidates && chosen.value.CanAccept(r)
        && forall w :: w in candidates && w.CanAccept(r) && w != chosen.value ==> Preferred(chosen.value, w)
  {
    LessLoadedIsAnOrder();
    var eligible := Eligible(candidates, r);
    SortPermutes(eligible, LessLoaded);
    if eligible == [] {
      forall w | w in candidates
        ensures !w.CanAccept(r)
      {
        assert w !in eligible;
      }
    } else {
      assert eligible[0] in eligible;
      SortHead(eligible, LessLoaded);
      var best := Sort(eligible, LessLoaded)[0];
      forall w | w in candidates && w.CanAccept(r) && w != best
        ensures Preferred(best, w)
      {
        assert w in eligible && !LessLoaded(w, best);
        var i :| 0 <= i < |candidates| && candidates[i] == w;
        var j :| 0 <= j < |candidates| && candidates[j] == best;
        assert w.id != best.id;
        UtilizationIsTheRatio(best, w);
        UtilizationIsTheRatio(w, best);
        hide Utilization, LighterRatio;
      }
    }
  }

  /** The registration order of the workers does not matter. */
  lemma LeastLoadedIgnoresOrder(candidates: seq<WorkerRecord>, shuffled: seq<WorkerRecord>, r: Requirements)
    requires DistinctIds(candidates) && multiset(candidates) == multiset(shuffled)
    ensures RankByLoad(candidates, r) == RankByLoad(shuffled, r)
  {
    LessLoadedIsAnOrder();
    var keep := (w: WorkerRecord) => w.CanAccept(r);
    FilterPermutes(candidates, shuffled, keep);
    var eligible := Eligible(candidates, r);
    forall i, j | 0 <= i < |eligible| && 0 <= j < |eligible| && eligible[i] != eligible[j]
      ensures LessLoaded(eligible[i], eligible[j]) || LessLoaded(eligible[j], eligible[i])
    {
      KeptIdsDiffer(candidates, r, eligible[i], eligible[j]);
    }
    SortIgnoresInputOrder(eligible, Eligible(shuffled, r), LessLoaded);
  }

  lemma KeptIdsDiffer(candidates: seq<WorkerRecord>, r: Requirements, a: WorkerRecord, b: WorkerRecord)
    requires DistinctIds(candidates) && a in Eligible(candidates, r) && b in Eligible(candidates, r) && a != b
    ensures a.id != b.id
  {
    var i :| 0 <= i < |candidates| && candidates[i] == a;
    var j :| 0 <= j < |candidates| && candidates[j] == b;
  }

  // ---- round robin ----

  predicate EarlierId(a: WorkerRecord, b: WorkerRecord) { a.id < b.id }

  function RankById(candidates: seq<WorkerRecord>, r: Requirements): seq<WorkerRecord> {
    Sort(Eligible(candidates, r), EarlierId)
  }

  datatype Turn = Turn(chosen: Option<WorkerRecord>, cursor: nat)

  function TakeTurn(cursor: nat, candidates: seq<WorkerRecord>, r: Requirements): Turn {
    var ranked := RankById(candidates, r);
    if ranked == [] then Turn(None, cursor)
    else Turn(Some(ranked[cursor % |ranked|]), (cursor + 1) % |ranked|)
  }

  class RoundRobinScheduler {
    var cursor: nat

    constructor ()
      ensures cursor == 0
    {
      cursor := 0;
    }

    method Select(candidates: seq<WorkerRecord>, r: Requirements) returns (chosen: Option<WorkerRecord>)
      modifies this
      ensures Turn(chosen, cursor) == TakeTurn(old(cursor), candidates, r)
    {
      var ranked := RankById(candidates, r);
      if ranked == [] {
        return None;
      }
      chosen := Some(ranked[cursor % |ranked|]);
      cursor := (cursor + 1) % |ranked|;
    }
  }

  /** The one chosen has as many eligible workers with lower ids as the cursor
      says, counted round; the next turn goes one further. */
  lemma TurnGoesByPosition(cursor: nat, candidates: seq<WorkerRecord>, r: Requirements)
    requires NoTwins(candidates)
    ensures var turn := TakeTurn(cursor, candidates, r);
      var eligible := Eligible(candidates, r);
      if eligible == [] then turn == Turn(None, cursor)
      else
        && turn.chosen.Some? && turn.chosen.value in eligible
        && |Filter(eligible, LowerThan(turn.chosen.value.id))| == cursor % |eligible|
        && turn.cursor == (cursor % |eligible| + 1) % |eligible|
  {
    hide RankById, Eligible, Filter, Sorted, NoTwins, LowerThan;
    RankedById(candidates, r);
    var eligible, ranked := Eligible(candidates, r), RankById(candidates, r);
    if eligible != [] {
      var k := cursor % |ranked|;
      var lower := LowerThan(ranked[k].id);
      LowerMeans(ranked[k].id);
      NextTurn(cursor, |ranked|);
      LowerRanked(ranked, k, lower);
      FilterPermutes(eligible, ranked, lower);
      assert |multiset(Filter(eligible, lower))| == |multiset(Filter(ranked, lower))|;
    }
  }

  function LowerThan(id: nat): WorkerRecord -> bool { (w: WorkerRecord) => w.id < id }

  lemma LowerMeans(id: nat)
    ensures forall w :: LowerThan(id)(w) <==> w.id < id
  {
  }

  lemma RankedById(candidates: seq<WorkerRecord>, r: Requirements)
    requires NoTwins(candidates)
    ensures var eligible, ranked := Eligible(candidates, r), RankById(candidates, r);
      && multiset(ranked) == multiset(eligible) && |ranked| == |eligible| && (forall w :: w in ranked <==> w in eligible)
      && Sorted(ranked, EarlierId) && NoTwins(ranked)
  {
    hide Sort, Sorted, NoTwins, StrictWeakOrder;
    var eligible := Eligible(candidates, r);
    SortPermutes(eligible, EarlierId);
    EarlierIdIsAnOrder();
    SortSorts(eligible, EarlierId);
    EligibleHasNoTwins(candidates, r);
    RankedHasNoTwins(eligible, RankById(candidates, r));
  }

  lemma EarlierIdIsAnOrder()
    ensures StrictWeakOrder(EarlierId)
  {
  }

  lemma LowerRanked(ranked: seq<WorkerRecord>, k: nat, lower: WorkerRecord -> bool)
    requires NoTwins(ranked) && Sorted(ranked, EarlierId) && k < |ranked|
    requires forall w :: lower(w) <==> w.id < ranked[k].id
    ensures |Filter(ranked, lower)| == k
  {
    hide Filter;
    var below, rest := ranked[..k], ranked[k..];
    assert ranked == below + rest;
    FilterBoth(below, rest, lower);
    forall i | 0 <= i < k
      ensures lower(ranked[i])
    {
      assert ranked[i].id != ranked[k].id && !EarlierId(ranked[k], ranked[i]);
    }
    forall i | k <= i < |ranked|
      ensures !lower(ranked[i])
    {
      assert i == k || !EarlierId(ranked[i], ranked[k]);
    }
    FilterAll(below, lower);
    FilterNone(rest, lower);
  }

  lemma NextTurn(cursor: nat, m: nat)
    requires m > 0
    ensures (cursor + 1) % m == (cursor % m + 1) % m
  {
    var q, s := cursor / m, cursor % m;
    assert cursor == q * m + s;
    if s + 1 < m {
      UniqueRemainder(cursor + 1, m, q, s + 1);
    } else {
      assert cursor + 1 == (q + 1) * m + 0;
      UniqueRemainder(cursor + 1, m, q + 1, 0);
    }
  }

  /** Nobody is registered twice. */
  ghost predicate NoTwins(workers: seq<WorkerRecord>) {
    forall i, j :: 0 <= i < j < |workers| ==> workers[i].id != workers[j].id
  }

  lemma {:induction false} EligibleHasNoTwins(candidates: seq<WorkerRecord>, r: Requirements)
    requires NoTwins(candidates)
    ensures NoTwins(Eligible(candidates, r))
  {
    if candidates != [] {
      var front, last := candidates[..|candidates| - 1], candidates[|candidates| - 1];
      EligibleHasNoTwins(front, r);
      forall w | w in Eligible(front, r)
        ensures w.id != last.id
      {
        assert w in front;
        var i :| 0 <= i < |front| && front[i] == w;
        assert candidates[i] == w;
      }
    }
  }

  lemma RankedHasNoTwins(eligible: seq<WorkerRecord>, ranked: seq<WorkerRecord>)
    requires NoTwins(eligible) && multiset(eligible) == multiset(ranked)
    ensures NoTwins(ranked)
  {
    forall i, j | 0 <= i < j < |ranked|
      ensures ranked[i].id != ranked[j].id
    {
      var a, b := ranked[i], ranked[j];
      assert a in multiset(ranked) && b in multiset(ranked);
      if a == b {
        TwiceInARow(ranked, i, j);
        OnlyOnce(eligible, a);
      } else {
        var k :| 0 <= k < |eligible| && eligible[k] == a;
        var l :| 0 <= l < |eligible| && eligible[l] == b;
        assert k < l || l < k;
      }
    }
  }

  lemma TwiceInARow(s: seq<WorkerRecord>, i: nat, j: nat)
    requires i < j < |s| && s[i] == s[j]
    ensures multiset(s)[s[i]] >= 2
  {
    assert s == s[..j] + [s[j]] + s[j + 1..];
    assert s[i] in s[..j];
  }

  lemma {:induction false} OnlyOnce(s: seq<WorkerRecord>, w: WorkerRecord)
    requires NoTwins(s)
    ensures multiset(s)[w] <= 1
  {
    if s != [] {
      var front, last := s[..|s| - 1], s[|s| - 1];
      assert s == front + [last];
      OnlyOnce(front, w);
      assert forall i :: 0 <= i < |front| ==> front[i] == s[i] && front[i].id != last.id;
      assert last !in front;
    }
  }

  /** One call: the workers registered then and what the job needs. */
  datatype Request = Request(candidates: seq<WorkerRecord>, r: Requirements)

  function Ids(workers: seq<WorkerRecord>): seq<nat> { Map(workers, (w: WorkerRecord) => w.id) }

  /** The ids chosen by consecutive calls. */
  function ChosenIds(cursor: nat, requests: seq<Request>): seq<Option<nat>>
    decreases |requests|
  {
    if requests == [] then [] else
    var t := TakeTurn(cursor, requests[0].candidates, requests[0].r);
    [if t.chosen.Some? then Some(t.chosen.value.id) else None] + ChosenIds(t.cursor, requests[1..])
  }

  /** Every request finds workers with these ids eligible, in any order and under any load. */
  ghost predicate SamePool(requests: seq<Request>, ids: seq<nat>) {
    forall q :: q in requests ==> Meets(q, ids)
  }

  ghost predicate Meets(q: Request, ids: seq<nat>) {
    multiset(Ids(Eligible(q.candidates, q.r))) == multiset(ids)
  }

  ghost predicate NoRepeats(ids: seq<nat>) {
    forall i, j :: 0 <= i < j < |ids| ==> ids[i] != ids[j]
  }

  predicate Lower(a: nat, b: nat) { a < b }

  // ---- ranking by id depends on the ids alone ----

  lemma IdsOfBoth(a: seq<WorkerRecord>, b: seq<WorkerRecord>)
    ensures Ids(a + b) == Ids(a) + Ids(b)
  {
  }

  lemma {:induction false} InsertedIds(x: WorkerRecord, s: seq<WorkerRecord>)
    ensures multiset(Ids(Insert(x, s, EarlierId))) == multiset(Ids(s)) + multiset{x.id}
  {
    if s == [] || EarlierId(x, s[0]) {
      IdsOfBoth([x], s);
    } else {
      InsertedIds(x, s[1..]);
      IdsOfBoth([s[0]], Insert(x, s[1..], EarlierId));
      assert s == [s[0]] + s[1..];
      IdsOfBoth([s[0]], s[1..]);
    }
  }

  lemma {:induction false} SortedIds(s: seq<WorkerRecord>)
    ensures multiset(Ids(Sort(s, EarlierId))) == multiset(Ids(s))
  {
    if s != [] {
      var last := |s| - 1;
      SortedIds(s[..last]);
      InsertedIds(s[last], Sort(s[..last], EarlierId));
      assert s == s[..last] + [s[last]];
      IdsOfBoth(s[..last], [s[last]]);
    }
  }

  /** Whatever the order and the load, the ranking is the ids in order. */
  lemma SameRanking(q: Request, ids: seq<nat>)
    requires NoRepeats(ids) && Meets(q, ids)
    ensures Ids(RankById(q.candidates, q.r)) == Sort(ids, Lower)
  {
    var eligible := Eligible(q.candidates, q.r);
    var ranked, sorted := RankById(q.candidates, q.r), Sort(ids, Lower);
    SortedIds(eligible);
    SortSorts(eligible, EarlierId);
    SortSorts(ids, Lower);
    SortPermutes(ids, Lower);
    assert Sorted(Ids(ranked), Lower);
    hide Sort, Eligible;
    SortedPermutationsAgree(sorted, Ids(ranked), Lower);
  }

  // ---- picking from a fixed ranking ----

  /** The picks from a fixed ranking, starting at a slot of it. */
  ghost function Picks(ranked: seq<nat>, slot: nat, n: nat): seq<Option<nat>>
    requires slot < |ranked|
    decreases n
  {
    if n == 0 then [] else [Some(ranked[slot])] + Picks(ranked, NextSlot(ranked, slot), n - 1)
  }

  ghost function NextSlot(ranked: seq<nat>, slot: nat): (next: nat)
    requires slot < |ranked|
    ensures next < |ranked|
  {
    if slot + 1 == |ranked| then 0 else slot + 1
  }

  ghost function Later(ranked: seq<nat>, slot: nat, n: nat): (later: nat)
    requires slot < |ranked|
    ensures later < |ranked|
    decreases n
  {
    if n == 0 then slot else Later(ranked, NextSlot(ranked, slot), n - 1)
  }

  lemma NextModulo(cursor: nat, m: nat)
    requires m > 0
    ensures ((cursor + 1) % m) % m == if cursor % m + 1 == m then 0 else cursor % m + 1
  {
    var q, s := cursor / m, cursor % m;
    assert cursor == q * m + s;
    if s + 1 == m {
      assert cursor + 1 == (q + 1) * m;
      UniqueRemainder(cursor + 1, m, q + 1, 0);
    } else {
      UniqueRemainder(cursor + 1, m, q, s + 1);
    }
  }

  lemma UniqueRemainder(a: nat, m: nat, q: nat, s: nat)
    requires m > 0 && s < m && a == q * m + s
    ensures a % m == s && (a % m) % m == s
  {
    var e := a / m;
    var d := e - q;
    assert a == e * m + a % m;
    assert d * m == e * m - q * m;
    assert d > 0 ==> d * m >= m;
    assert d < 0 ==> d * m <= 0 - m;
  }

  /** One turn on a request that finds these ids eligible. */
  lemma TurnOnPool(cursor: nat, q: Request, ids: seq<nat>)
    requires ids != [] && NoRepeats(ids) && Meets(q, ids)
    ensures var ranked := Sort(ids, Lower);
      var t := TakeTurn(cursor, q.candidates, q.r);
      && |ranked| == |ids|
      && t.chosen.Some? && t.chosen.value.id == ranked[cursor % |ranked|] && t.cursor == (cursor + 1) % |ranked|
      && t.cursor % |ranked| == NextSlot(ranked, cursor % |ranked|)
  {
    SortPermutes(ids, Lower);
    SameRanking(q, ids);
    NextModulo(cursor, |ids|);
    hide Sort, NoRepeats, Meets;
    var workers := RankById(q.candidates, q.r);
    assert |workers| == |Ids(workers)|;
    hide RankById;
    assert Ids(workers)[cursor % |workers|] == workers[cursor % |workers|].id;
  }

  lemma {:induction false} ChosenArePicks(cursor: nat, requests: seq<Request>, ids: seq<nat>)
    requires ids != [] && NoRepeats(ids) && SamePool(requests, ids)
    ensures var ranked := Sort(ids, Lower);
      |ranked| == |ids| && ChosenIds(cursor, requests) == Picks(ranked, cursor % |ranked|, |requests|)
    decreases |requests|
  {
    if requests == [] {
      SortPermutes(ids, Lower);
    } else {
      assert requests[0] in requests;
      assert SamePool(requests[1..], ids) by {
        assert forall q :: q in requests[1..] ==> q in requests;
      }
      assert Meets(requests[0], ids);
      hide Sort, TakeTurn, NoRepeats, SamePool, Meets;
      TurnOnPool(cursor, requests[0], ids);
      ChosenArePicks((cursor + 1) % |ids|, requests[1..], ids);
    }
  }

  lemma {:induction false} PicksInParts(ranked: seq<nat>, slot: nat, a: nat, b: nat)
    requires slot < |ranked|
    ensures Picks(ranked, slot, a + b) == Picks(ranked, slot, a) + Picks(ranked, Later(ranked, slot, a), b)
    decreases a
  {
    if a > 0 {
      PicksInParts(ranked, NextSlot(ranked, slot), a - 1, b);
    }
  }

  function Wrapped(ids: seq<nat>): seq<Option<nat>> { Map(ids, (id: nat) => Some(id)) }

  /** Up to the end of the ranking the picks follow it. */
  lemma {:induction false} PicksStraight(ranked: seq<nat>, slot: nat, n: nat)
    requires slot < |ranked| && slot + n <= |ranked|
    ensures Picks(ranked, slot, n) == Wrapped(ranked[slot..slot + n])
    ensures Later(ranked, slot, n) == if slot + n == |ranked| then 0 else slot + n
    decreases n
  {
    if n > 1 {
      PicksStraight(ranked, slot + 1, n - 1);
    }
    if n > 0 {
      assert ranked[slot..slot + n] == [ranked[slot]] + ranked[slot + 1..slot + n];
      if n == 1 {
        assert Picks(ranked, slot, 1) == [Some(ranked[slot])];
        assert Later(ranked, slot, 1) == NextSlot(ranked, slot);
      }
    }
  }

  /** One full round from any slot picks the whole ranking, and comes back to that slot. */
  lemma OneRound(ranked: seq<nat>, slot: nat)
    requires slot < |ranked|
    ensures Picks(ranked, slot, |ranked|) == Wrapped(ranked[slot..]) + Wrapped(ranked[..slot])
    ensures Later(ranked, slot, |ranked|) == slot
  {
    var first := |ranked| - slot;
    PicksStraight(ranked, slot, first);
    PicksStraight(ranked, 0, slot);
    PicksInParts(ranked, slot, first, slot);
    LaterInParts(ranked, slot, first, slot);
    assert ranked[slot..slot + first] == ranked[slot..];
  }

  lemma {:induction false} LaterInParts(ranked: seq<nat>, slot: nat, a: nat, b: nat)
    requires slot < |ranked|
    ensures Later(ranked, slot, a + b) == Later(ranked, Later(ranked, slot, a), b)
    decreases a
  {
    if a > 0 {
      LaterInParts(ranked, NextSlot(ranked, slot), a - 1, b);
    }
  }

  lemma {:induction false} WrappedCount(ids: seq<nat>, id: nat)
    ensures multiset(Wrapped(ids))[Some(id)] == multiset(ids)[id]
  {
    if ids != [] {
      var n := |ids| - 1;
      WrappedCount(ids[..n], id);
      assert ids == ids[..n] + [ids[n]];
      assert Wrapped(ids) == Wrapped(ids[..n]) + [Some(ids[n])];
    }
  }

  lemma RoundCounts(ranked: seq<nat>, slot: nat, id: nat)
    requires slot < |ranked|
    ensures multiset(Picks(ranked, slot, |ranked|))[Some(id)] == multiset(ranked)[id]
  {
    OneRound(ranked, slot);
    WrappedCount(ranked[slot..], id);
    WrappedCount(ranked[..slot], id);
    assert ranked == ranked[..slot] + ranked[slot..];
    hide Picks, Wrapped;
  }

  ghost function Rounds(m: nat, k: nat): nat { if k == 0 then 0 else m + Rounds(m, k - 1) }

  lemma {:induction false} RoundsIsTimes(m: nat, k: nat)
    ensures Rounds(m, k) == k * m
  {
    if k > 0 {
      RoundsIsTimes(m, k - 1);
    }
  }

  lemma OneMoreRound(ranked: seq<nat>, slot: nat, n: nat, id: nat)
    requires slot < |ranked|
    ensures multiset(Picks(ranked, slot, |ranked| + n))[Some(id)] == multiset(ranked)[id] + multiset(Picks(ranked, slot, n))[Some(id)]
  {
    hide Picks, Later, Wrapped;
    RoundCounts(ranked, slot, id);
    OneRound(ranked, slot);
    PicksInParts(ranked, slot, |ranked|, n);
  }

  lemma {:induction false} ManyRounds(ranked: seq<nat>, slot: nat, k: nat, id: nat)
    requires slot < |ranked| && multiset(ranked)[id] == 1
    ensures multiset(Picks(ranked, slot, Rounds(|ranked|, k)))[Some(id)] == k
    decreases k
  {
    if k > 0 {
      hide Picks;
      ManyRounds(ranked, slot, k - 1, id);
      OneMoreRound(ranked, slot, Rounds(|ranked|, k - 1), id);
    }
  }

  lemma {:induction false} OccursOnce(ids: seq<nat>, id: nat)
    requires id in ids && NoRepeats(ids)
    ensures multiset(ids)[id] == 1
  {
    var n := |ids| - 1;
    assert ids == ids[..n] + [ids[n]];
    if id in ids[..n] {
      OccursOnce(ids[..n], id);
    }
  }

  /** Over any k rounds of calls that find workers with the same m ids eligible,
      in whatever registration order, under whatever load and from whatever
      cursor, each id is picked exactly k times. */
  lemma RoundRobinIsFair(cursor: nat, requests: seq<Request>, ids: seq<nat>, k: nat, id: nat)
    requires ids != [] && NoRepeats(ids) && SamePool(requests, ids)
    requires |requests| == k * |ids| && id in ids
    ensures multiset(ChosenIds(cursor, requests))[Some(id)] == k
  {
    ChosenArePicks(cursor, requests, ids);
    SortPermutes(ids, Lower);
    OccursOnce(ids, id);
    var ranked := Sort(ids, Lower);
    hide *;
    RoundsIsTimes(|ids|, k);
    ManyRounds(ranked, cursor % |ranked|, k, id);
  }

  // ---- the pool survives its own use ----

  lemma {:induction false} FilteredIds(a: seq<WorkerRecord>, b: seq<WorkerRecord>, r: Requirements)
    requires |a| == |b|
    requires forall i :: 0 <= i < |a| ==> a[i].id == b[i].id && a[i].CanAccept(r) == b[i].CanAccept(r)
    ensures Ids(Eligible(a, r)) == Ids(Eligible(b, r))
  {
    if a != [] {
      var n := |a| - 1;
      FilteredIds(a[..n], b[..n], r);
      IdsOfBoth(Eligible(a[..n], r), [a[n]]);
      IdsOfBoth(Eligible(b[..n], r), [b[n]]);
    }
  }

  /** A slot reserved on one of the workers changes its load and leaves the pool
      as it was, as long as the worker has another slot to offer. */
  lemma ReservationKeepsPool(q: Request, i: nat, ids: seq<nat>)
    requires i < |q.candidates| && q.candidates[i].CanAccept(q.r) && q.candidates[i].AvailableSlots() >= 2 && Meets(q, ids)
    ensures ReserveSlot(q.candidates[i], q.r).Ok?
    ensures Meets(q.(candidates := q.candidates[i := ReserveSlot(q.candidates[i], q.r).value]), ids)
  {
    FilteredIds(q.candidates, q.candidates[i := ReserveSlot(q.candidates[i], q.r).value], q.r);
  }
}
