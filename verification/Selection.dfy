/** Choosing between competing candidates: tool evidence first, then the smallest change. */
module Selection {
  import opened Common
  import opened Candidates
  import opened Ordering

  /** The sort key of a candidate; the larger key wins. */
  datatype Standing = Standing(
    reviewPassed: int, testsPassed: int, buildPassed: int, hasPatch: int, minusChurn: int, minusIndex: int)
  {
    predicate Exceeds(o: Standing) {
      if reviewPassed != o.reviewPassed then reviewPassed > o.reviewPassed
      else if testsPassed != o.testsPassed then testsPassed > o.testsPassed
      else if buildPassed != o.buildPassed then buildPassed > o.buildPassed
      else if hasPatch != o.hasPatch then hasPatch > o.hasPatch
      else if minusChurn != o.minusChurn then minusChurn > o.minusChurn
      else minusIndex > o.minusIndex
    }
  }

  function StandingOf(c: CandidateRecord): Standing {
    Standing(
      Bit(c.verdict == Some(Pass)),
      Bit(c.validation.Passed(Test) == Some(true)),
      Bit(c.validation.Passed(Build) == Some(true)),
      Bit(c.HasPatch()),
      if c.patch.Some? then 0 - c.patch.value.totalChurn else 0,
      0 - c.index)
  }

  predicate Better(a: CandidateRecord, b: CandidateRecord) { StandingOf(a).Exceeds(StandingOf(b)) }

  predicate Usable(c: CandidateRecord) { !c.status.IsTerminal() || c.IsViable() }

  datatype CandidateSelection = CandidateSelection(winner: Option<CandidateRecord>, rejected: seq<CandidateRecord>)

  function Rank(candidates: seq<CandidateRecord>): seq<CandidateRecord> {
    Sort(Filter(candidates, Usable), Better)
  }

  function SelectFrom(candidates: seq<CandidateRecord>): CandidateSelection {
    var ranked := Rank(candidates);
    if ranked == [] then CandidateSelection(None, [])
    else if !ranked[0].HasPatch() then CandidateSelection(None, ranked)
    else if !ranked[0].IsViable() then CandidateSelection(None, ranked)
    else CandidateSelection(Some(ranked[0]), ranked[1..])
  }

  function Viable(candidates: seq<CandidateRecord>): seq<CandidateRecord> {
    Filter(candidates, (c: CandidateRecord) => c.IsViable())
  }

  ghost predicate DistinctIndices(candidates: seq<CandidateRecord>) {
    forall i, j :: 0 <= i < |candidates| && 0 <= j < |candidates| && candidates[i] != candidates[j]
                   ==> candidates[i].index != candidates[j].index
  }

  /** `a` is preferred to `b`: a reviewer's PASS, tests seen to pass, a build
      seen to pass, a patch with something in it, each before the next; then
      less churn; then the lower index. */
  ghost predicate Preferred(a: CandidateRecord, b: CandidateRecord) {
    if Approved(a) != Approved(b) then Approved(a)
    else if SeenToPass(a, Test) != SeenToPass(b, Test) then SeenToPass(a, Test)
    else if SeenToPass(a, Build) != SeenToPass(b, Build) then SeenToPass(a, Build)
    else if Changes(a) != Changes(b) then Changes(a)
    else if Churn(a) != Churn(b) then Churn(a) < Churn(b)
    else a.index < b.index
  }

  ghost predicate Approved(c: CandidateRecord) { c.verdict.Some? && c.verdict.value.Pass? }

  ghost predicate SeenToPass(c: CandidateRecord, stage: Stage) {
    Reports(c.validation, stage) && !Breaks(c.validation, stage)
  }

  ghost predicate Changes(c: CandidateRecord) { c.patch.Some? && !c.patch.value.isEmpty }

  ghost function Churn(c: CandidateRecord): nat {
    match c.patch
    case None => 0
    case Some(patch) => patch.totalChurn
  }

  /** Worth a review: it changes something, and nothing that ran shows it broken. */
  ghost predicate Presentable(c: CandidateRecord) {
    && Changes(c)
    && !Breaks(c.validation, Build) && !Breaks(c.validation, Test)
    && (c.validation.staticAnalysisIsBlocking ==> !Breaks(c.validation, StaticAnalysis))
  }

  lemma PresentableMeansViable(c: CandidateRecord)
    ensures c.IsViable() <==> Presentable(c)
  {
    ViableMeans(c.validation);
  }

  /** Still under way, or finished with a presentable patch. */
  ghost predicate InTheRunning(c: CandidateRecord) {
    c.status.New? || c.status.Coding? || c.status.Validating? || c.status.Validated? || Presentable(c)
  }

  lemma UsableMeans(c: CandidateRecord)
    ensures Usable(c) <==> InTheRunning(c)
  {
    PresentableMeansViable(c);
  }

  lemma BetterIsAnOrder()
    ensures StrictWeakOrder(Better)
  {
    hide StandingOf;
  }

  lemma BetterMeansPreferred(a: CandidateRecord, b: CandidateRecord)
    ensures Better(a, b) <==> Preferred(a, b)
  {
    PassedMeans(a.validation, Test);
    PassedMeans(b.validation, Test);
    PassedMeans(a.validation, Build);
    PassedMeans(b.validation, Build);
  }

  lemma SomeoneIsPreferred(a: CandidateRecord, b: CandidateRecord)
    requires a.index != b.index
    ensures Preferred(a, b) || Preferred(b, a)
  {
  }

  /** Whoever ranks before another with a different index is preferred to it. */
  lemma RankedBefore(candidates: seq<CandidateRecord>, a: CandidateRecord, b: CandidateRecord)
    requires DistinctIndices(candidates) && a in candidates && b in candidates && a != b && !Better(b, a)
    ensures Preferred(a, b)
  {
    hide Better, Preferred;
    var k :| 0 <= k < |candidates| && candidates[k] == a;
    var l :| 0 <= l < |candidates| && candidates[l] == b;
    assert candidates[k].index != candidates[l].index;
    BetterMeansPreferred(b, a);
    SomeoneIsPreferred(a, b);
  }

  /** The winner of a non-empty presentable list is in it and is strictly
      preferred to every other member: the policy always decides, so its caller
      never has to fall back on the first entry. */
  lemma SelectionFindsTheBest(candidates: seq<CandidateRecord>)
    requires candidates != [] && DistinctIndices(candidates)
    requires forall c :: c in candidates ==> Presentable(c)
    ensures var w := SelectFrom(candidates).winner;
            && w.Some? && w.value in candidates
            && forall c :: c in candidates && c != w.value ==> Preferred(w.value, c)
  {
    var w := SelectionDecides(candidates);
    assert candidates[0] in candidates && InTheRunning(candidates[0]);
  }

  /** The best of those in the running, when there is one. */
  ghost predicate Leads(c: CandidateRecord, candidates: seq<CandidateRecord>) {
    && c in candidates && InTheRunning(c)
    && forall o :: o in candidates && InTheRunning(o) && o != c ==> Preferred(c, o)
  }

  lemma SelectionDecides(candidates: seq<CandidateRecord>) returns (best: Option<CandidateRecord>)
    requires DistinctIndices(candidates)
    ensures best.None? <==> forall c :: c in candidates ==> !InTheRunning(c)
    ensures best.None? ==> SelectFrom(candidates) == CandidateSelection(None, [])
    ensures best.Some? ==>
      && Leads(best.value, candidates)
      && SelectFrom(candidates).winner == if Presentable(best.value) then best else None
  {
    var usable := Filter(candidates, Usable);
    forall c
      ensures c in usable <==> c in candidates && InTheRunning(c)
    {
      UsableMeans(c);
    }
    BetterIsAnOrder();
    SortPermutes(usable, Better);
    if usable == [] {
      return None;
    }
    assert usable[0] in usable;
    SortHead(usable, Better);
    var w := Sort(usable, Better)[0];
    best := Some(w);
    PresentableMeansViable(w);
    forall c | c in candidates && InTheRunning(c) && c != w
      ensures Preferred(w, c)
    {
      assert c in usable && !Better(c, w);
      RankedBefore(candidates, w, c);
    }
  }

  /** For any list at all: whoever leads those in the running wins, if and only if
      it is presentable; and nobody else ever does. */
  lemma SelectionDecidesExactly(candidates: seq<CandidateRecord>, c: CandidateRecord)
    requires DistinctIndices(candidates)
    ensures SelectFrom(candidates).winner == Some(c) <==> Leads(c, candidates) && Presentable(c)
  {
    var best := SelectionDecides(candidates);
    if best.Some? && Leads(c, candidates) && c != best.value {
      assert Preferred(c, best.value) && Preferred(best.value, c);
    }
  }

  /** The winner, if there is one, and after it the rejected are everyone in the
      running, each preferred to all that follow. */
  lemma SelectionRanksEveryone(candidates: seq<CandidateRecord>)
    requires DistinctIndices(candidates)
    ensures var r := SelectFrom(candidates);
      var all := (if r.winner.Some? then [r.winner.value] else []) + r.rejected;
      && (forall c :: c in all <==> c in candidates && InTheRunning(c))
      && (forall c :: c in all ==> multiset(all)[c] == multiset(candidates)[c])
      && (forall i, j :: 0 <= i < j < |all| && all[i] != all[j] ==> Preferred(all[i], all[j]))
  {
    hide Better, Usable, Preferred, InTheRunning, Sort, StrictWeakOrder;
    var usable := Filter(candidates, Usable);
    BetterIsAnOrder();
    SortPermutes(usable, Better);
    SortSorts(usable, Better);
    var r, ranked := SelectFrom(candidates), Rank(candidates);
    forall c
      ensures c in usable <==> c in ranked
    {
      assert c in multiset(usable) <==> c in multiset(ranked);
    }
    var all := (if r.winner.Some? then [r.winner.value] else []) + r.rejected;
    assert all == ranked;
    forall c
      ensures c in usable <==> c in candidates && InTheRunning(c)
    {
      UsableMeans(c);
    }
    forall i, j | 0 <= i < j < |ranked| && ranked[i] != ranked[j]
      ensures Preferred(ranked[i], ranked[j])
    {
      assert ranked[i] in usable && ranked[j] in usable && !Better(ranked[j], ranked[i]);
      RankedBefore(candidates, ranked[i], ranked[j]);
    }
    forall c | c in all
      ensures multiset(all)[c] == multiset(candidates)[c]
    {
      FilterCount(candidates, Usable, c);
    }
  }

  /** The order in which candidates are listed does not matter. */
  lemma SelectionIgnoresInputOrder(s: seq<CandidateRecord>, t: seq<CandidateRecord>)
    requires multiset(s) == multiset(t) && DistinctIndices(s)
    ensures SelectFrom(s) == SelectFrom(t)
  {
    BetterIsAnOrder();
    FilterPermutes(s, t, Usable);
    var u := Filter(s, Usable);
    forall i, j | 0 <= i < |u| && 0 <= j < |u| && u[i] != u[j]
      ensures Better(u[i], u[j]) || Better(u[j], u[i])
    {
      assert u[i] in s && u[j] in s;
      var k :| 0 <= k < |s| && s[k] == u[i];
      var l :| 0 <= l < |s| && s[l] == u[j];
      assert s[k].index != s[l].index;
    }
    SortIgnoresInputOrder(u, Filter(t, Usable), Better);
  }
}
