/** The planner's task graph, and the plan's own layering of it. */
module Plans {
  import opened Ordering

  /** A task by its planner-chosen key and the keys it depends on. */
  datatype Task = Task(key: string, dependsOn: seq<string>)

  function KeysOf(tasks: seq<Task>): set<string> { set t | t in tasks :: t.key }

  predicate UniqueKeys(tasks: seq<Task>) {
    forall i, j :: 0 <= i < j < |tasks| ==> tasks[i].key != tasks[j].key
  }

  predicate NoDangling(tasks: seq<Task>) {
    forall t :: t in tasks ==> forall d :: d in t.dependsOn ==> d in KeysOf(tasks)
  }

  ghost predicate Depends(tasks: seq<Task>, a: string, b: string) {
    exists t :: t in tasks && t.key == a && b in t.dependsOn
  }

  /** Each key depends on the next. */
  ghost predicate IsChain(tasks: seq<Task>, p: seq<string>) {
    && (forall i :: 0 <= i < |p| ==> p[i] in KeysOf(tasks))
    && (forall i :: 0 <= i < |p| - 1 ==> Depends(tasks, p[i], p[i + 1]))
  }

  ghost predicate IsCycle(tasks: seq<Task>, p: seq<string>) {
    |p| >= 2 && IsChain(tasks, p) && p[0] == p[|p| - 1]
  }

  ghost predicate Acyclic(tasks: seq<Task>) { forall p :: !IsCycle(tasks, p) }

  // ---- what a layering should be ----

  /** Every task is one past its deepest dependency, and at 0 without any. */
  ghost predicate IsDepth(tasks: seq<Task>, depth: map<string, nat>) {
    && depth.Keys == KeysOf(tasks)
    && (forall t :: t in tasks ==> WellPlaced(t, depth))
  }

  ghost predicate WellPlaced(t: Task, depth: map<string, nat>) {
    && t.key in depth
    && (forall d :: d in t.dependsOn ==> d in depth && depth[d] < depth[t.key])
    && (depth[t.key] > 0 ==> exists d :: d in t.dependsOn && d in depth && depth[d] + 1 == depth[t.key])
  }

  ghost function Layer(tasks: seq<Task>, depth: map<string, nat>, k: nat): seq<Task> {
    Filter(tasks, (t: Task) => t.key in depth && depth[t.key] == k)
  }

  /** Layer k holds exactly the tasks of depth k, in their original order, and no layer is empty. */
  ghost predicate IsLayering(tasks: seq<Task>, depth: map<string, nat>, layers: seq<seq<Task>>) {
    && IsDepth(tasks, depth)
    && Below(depth, |layers|)
    && Filled(tasks, depth, layers)
  }

  ghost predicate Filled(tasks: seq<Task>, depth: map<string, nat>, layers: seq<seq<Task>>) {
    forall k :: 0 <= k < |layers| ==> layers[k] == Layer(tasks, depth, k) && layers[k] != []
  }

  ghost predicate Exact(tasks: seq<Task>, layers: seq<seq<Task>>) {
    exists depth :: IsLayering(tasks, depth, layers)
  }

  lemma ExactByDepth(tasks: seq<Task>, depth: map<string, nat>, layers: seq<seq<Task>>)
    requires IsLayering(tasks, depth, layers)
    ensures Exact(tasks, layers)
  {
  }

  lemma DepthIsAtMost(tasks: seq<Task>, d1: map<string, nat>, d2: map<string, nat>, key: string)
    requires IsDepth(tasks, d1) && IsDepth(tasks, d2) && key in d1
    ensures key in d2 && d1[key] <= d2[key]
    decreases d1[key]
  {
    var t :| t in tasks && t.key == key;
    assert WellPlaced(t, d1) && WellPlaced(t, d2);
    if d1[key] > 0 {
      var d :| d in t.dependsOn && d in d1 && d1[d] + 1 == d1[key];
      DepthIsAtMost(tasks, d1, d2, d);
    }
  }

  lemma DepthsAgree(tasks: seq<Task>, d1: map<string, nat>, d2: map<string, nat>)
    requires IsDepth(tasks, d1) && IsDepth(tasks, d2)
    ensures d1 == d2
  {
    forall key | key in d1
      ensures key in d2 && d1[key] == d2[key]
    {
      DepthIsAtMost(tasks, d1, d2, key);
      DepthIsAtMost(tasks, d2, d1, key);
    }
  }

  lemma TopLayerIsReached(tasks: seq<Task>, depth: map<string, nat>, layers: seq<seq<Task>>)
    returns (key: string)
    requires IsLayering(tasks, depth, layers) && |layers| > 0
    ensures key in depth && depth[key] == |layers| - 1
  {
    var top := layers[|layers| - 1];
    assert top[0] in top;
    key := top[0].key;
  }

  /** A graph has at most one exact layering. */
  lemma ExactIsUnique(tasks: seq<Task>, a: seq<seq<Task>>, b: seq<seq<Task>>)
    requires Exact(tasks, a) && Exact(tasks, b)
    ensures a == b
  {
    var d1 :| IsLayering(tasks, d1, a);
    var d2 :| IsLayering(tasks, d2, b);
    DepthsAgree(tasks, d1, d2);
    if |a| > 0 {
      var _ := TopLayerIsReached(tasks, d1, a);
    }
    if |b| > 0 {
      var _ := TopLayerIsReached(tasks, d2, b);
    }
    hide Layer, IsDepth;
    assert |a| == |b|;
  }

  // ---- chains ----

  lemma {:induction false} ChainsFit(tasks: seq<Task>, place: map<string, nat>, p: seq<string>)
    requires RespectsOrder(tasks, place) && IsChain(tasks, p) && p != []
    ensures p[0] in place && |p| <= place[p[0]] + 1
    ensures |p| > 1 ==> p[|p| - 1] in place && place[p[|p| - 1]] < place[p[0]]
  {
    assert p[0] in KeysOf(tasks);
    if |p| > 1 {
      var rest := p[1..];
      forall i | 0 <= i < |rest| - 1
        ensures Depends(tasks, rest[i], rest[i + 1])
      {
        assert Depends(tasks, p[i + 1], p[i + 2]);
      }
      ChainsFit(tasks, place, rest);
      assert Depends(tasks, p[0], p[0 + 1]);
    }
  }

  /** Any placement that puts every task after its dependencies. */
  ghost predicate RespectsOrder(tasks: seq<Task>, place: map<string, nat>) {
    && place.Keys == KeysOf(tasks)
    && (forall t, d :: t in tasks && d in t.dependsOn ==> d in place && place[d] < place[t.key])
  }

  lemma DepthRespectsOrder(tasks: seq<Task>, depth: map<string, nat>)
    requires IsDepth(tasks, depth)
    ensures RespectsOrder(tasks, depth)
  {
    forall t, d | t in tasks && d in t.dependsOn
      ensures d in depth && depth[d] < depth[t.key]
    {
      assert WellPlaced(t, depth);
    }
  }

  lemma DeepestChain(tasks: seq<Task>, depth: map<string, nat>, key: string) returns (p: seq<string>)
    requires IsDepth(tasks, depth) && key in depth
    ensures IsChain(tasks, p) && |p| == depth[key] + 1 && p[0] == key
    decreases depth[key]
  {
    p := [key];
    if depth[key] > 0 {
      var t :| t in tasks && t.key == key;
      assert WellPlaced(t, depth);
      var d :| d in t.dependsOn && d in depth && depth[d] + 1 == depth[key];
      var rest := DeepestChain(tasks, depth, d);
      assert Depends(tasks, key, d);
      PrependChain(tasks, key, rest);
      p := [key] + rest;
    }
  }

  /** The layer count is the length of the longest dependency chain. */
  lemma LayerCountIsLongestChain(tasks: seq<Task>, layers: seq<seq<Task>>)
    requires Exact(tasks, layers)
    ensures forall p :: IsChain(tasks, p) ==> |p| <= |layers|
    ensures exists p :: IsChain(tasks, p) && |p| == |layers|
  {
    var depth :| IsLayering(tasks, depth, layers);
    DepthRespectsOrder(tasks, depth);
    forall p | IsChain(tasks, p)
      ensures |p| <= |layers|
    {
      if p != [] {
        ChainsFit(tasks, depth, p);
      }
    }
    if |layers| == 0 {
      assert IsChain(tasks, []);
    } else {
      var key := TopLayerIsReached(tasks, depth, layers);
      var p := DeepestChain(tasks, depth, key);
    }
  }

  /** No placement that respects the dependencies uses fewer layers. */
  lemma LayersAreFewest(tasks: seq<Task>, layers: seq<seq<Task>>, place: map<string, nat>, count: nat)
    requires Exact(tasks, layers) && RespectsOrder(tasks, place)
    requires forall key :: key in place ==> place[key] < count
    ensures |layers| <= count
  {
    LayerCountIsLongestChain(tasks, layers);
    var p :| IsChain(tasks, p) && |p| == |layers|;
    if p != [] {
      ChainsFit(tasks, place, p);
    }
  }

  /** The layers hold every task exactly once. */
  lemma LayersPartition(tasks: seq<Task>, layers: seq<seq<Task>>, t: Task)
    requires Exact(tasks, layers) && UniqueKeys(tasks) && t in tasks
    ensures exists k :: 0 <= k < |layers| && multiset(layers[k])[t] == 1 && forall j :: 0 <= j < |layers| && j != k ==> t !in layers[j]
  {
    var depth :| IsLayering(tasks, depth, layers);
    assert WellPlaced(t, depth);
    var k := depth[t.key];
    FilterCount(tasks, (u: Task) => u.key in depth && depth[u.key] == k, t);
    UniqueOccurrence(tasks, t);
    assert layers[k] == Layer(tasks, depth, k);
  }

  lemma {:induction false} UniqueOccurrence(tasks: seq<Task>, t: Task)
    requires UniqueKeys(tasks) && t in tasks
    ensures multiset(tasks)[t] == 1
  {
    var last := |tasks| - 1;
    assert tasks == tasks[..last] + [tasks[last]];
    if t in tasks[..last] {
      UniqueOccurrence(tasks[..last], t);
    }
  }

  /** Only an acyclic graph without dangling dependencies has depths. */
  lemma DepthsMeanAcyclic(tasks: seq<Task>, depth: map<string, nat>)
    requires IsDepth(tasks, depth)
    ensures NoDangling(tasks) && Acyclic(tasks)
  {
    DepthRespectsOrder(tasks, depth);
    forall p
      ensures !IsCycle(tasks, p)
    {
      if IsCycle(tasks, p) {
        ChainsFit(tasks, depth, p);
      }
    }
  }

  // ---- a set in which every key waits for another holds a cycle ----

  /** Every member depends on a member. */
  ghost predicate Deadlocked(tasks: seq<Task>, keys: set<string>) {
    && keys <= KeysOf(tasks)
    && (forall key :: key in keys ==> WaitsWithin(tasks, keys, key))
  }

  ghost predicate WaitsWithin(tasks: seq<Task>, keys: set<string>, key: string) {
    exists d :: d in keys && Depends(tasks, key, d)
  }

  lemma Blocker(tasks: seq<Task>, keys: set<string>, key: string) returns (d: string)
    requires Deadlocked(tasks, keys) && key in keys
    ensures d in keys && d in KeysOf(tasks) && Depends(tasks, key, d)
  {
    hide Depends;
    assert WaitsWithin(tasks, keys, key);
    d :| d in keys && Depends(tasks, key, d);
  }

  lemma PrependChain(tasks: seq<Task>, key: string, rest: seq<string>)
    requires IsChain(tasks, rest) && rest != [] && key in KeysOf(tasks) && Depends(tasks, key, rest[0])
    ensures IsChain(tasks, [key] + rest)
  {
    hide Depends, KeysOf;
    var p := [key] + rest;
    forall i | 0 <= i < |p| - 1
      ensures Depends(tasks, p[i], p[i + 1])
    {
      assert i > 0 ==> Depends(tasks, rest[i - 1], rest[i - 1 + 1]);
    }
  }

  lemma {:induction false} Walk(tasks: seq<Task>, keys: set<string>, start: string, n: nat) returns (p: seq<string>)
    requires Deadlocked(tasks, keys) && start in keys
    ensures IsChain(tasks, p) && |p| == n + 1 && p[0] == start
    ensures forall i :: 0 <= i < |p| ==> p[i] in keys
    decreases n
  {
    hide Depends, KeysOf, WaitsWithin;
    p := [start];
    if n > 0 {
      var d := Blocker(tasks, keys, start);
      var rest := Walk(tasks, keys, d, n - 1);
      PrependChain(tasks, start, rest);
      p := [start] + rest;
    }
  }

  lemma {:induction false} Repeats(p: seq<string>, keys: set<string>) returns (i: nat, j: nat)
    requires (forall k :: 0 <= k < |p| ==> p[k] in keys) && |p| > |keys|
    ensures i < j < |p| && p[i] == p[j]
  {
    var last := |p| - 1;
    if m :| 0 <= m < last && p[m] == p[last] {
      return m, last;
    }
    i, j := Repeats(p[..last], keys - {p[last]});
  }

  lemma DeadlockHoldsACycle(tasks: seq<Task>, keys: set<string>)
    requires Deadlocked(tasks, keys) && keys != {}
    ensures !Acyclic(tasks)
  {
    hide Depends, KeysOf, WaitsWithin;
    var start :| start in keys;
    var p := Walk(tasks, keys, start, |keys|);
    var i, j := Repeats(p, keys);
    var cycle := p[i..j + 1];
    forall k | 0 <= k < |cycle| - 1
      ensures Depends(tasks, cycle[k], cycle[k + 1])
    {
      assert Depends(tasks, p[i + k], p[i + k + 1]);
    }
    assert IsCycle(tasks, cycle);
  }

  /** A key with a depth is in no deadlocked set. */
  lemma PlacedIsNotDeadlocked(tasks: seq<Task>, depth: map<string, nat>, keys: set<string>, key: string)
    requires UniqueKeys(tasks) && Deadlocked(tasks, keys) && key in keys
    requires Sound(tasks, depth)
    ensures key !in depth
    decreases if key in depth then depth[key] + 1 else 0
  {
    hide KeysOf, WaitsWithin, UniqueKeys;
    if key in depth {
      var d := Blocker(tasks, keys, key);
      var t :| t in tasks && t.key == key && d in t.dependsOn;
      assert WellPlaced(t, depth);
      PlacedIsNotDeadlocked(tasks, depth, keys, d);
      assert false;
    }
  }

  // ---- what one turn of either algorithm does ----

  function Remaining(tasks: seq<Task>, satisfied: set<string>): seq<Task> {
    Filter(tasks, (t: Task) => t.key !in satisfied)
  }

  predicate Unblocked(t: Task, satisfied: set<string>) {
    forall d :: d in t.dependsOn ==> d in satisfied
  }

  /** The layers so far place the satisfied tasks exactly, and each other task
      waits for an unplaced one or for one in the latest layer. */
  ghost predicate Progress(tasks: seq<Task>, depth: map<string, nat>, layers: seq<seq<Task>>) {
    && depth.Keys <= KeysOf(tasks)
    && Sound(tasks, depth)
    && Below(depth, |layers|)
    && Filled(tasks, depth, layers)
    && (|layers| > 0 ==> Waiting(tasks, depth, |layers| - 1))
  }

  ghost predicate Sound(tasks: seq<Task>, depth: map<string, nat>) {
    forall t :: t in tasks && t.key in depth ==> WellPlaced(t, depth)
  }

  ghost predicate Below(depth: map<string, nat>, level: nat) {
    forall key :: key in depth ==> depth[key] < level
  }

  ghost predicate Waiting(tasks: seq<Task>, depth: map<string, nat>, latest: nat) {
    forall t :: t in tasks && t.key !in depth ==> HeldBack(t, depth, latest)
  }

  ghost predicate HeldBack(t: Task, depth: map<string, nat>, latest: nat) {
    exists d :: d in t.dependsOn && (d !in depth || depth[d] == latest)
  }

  ghost function Placed(depth: map<string, nat>, ready: seq<Task>, level: nat): map<string, nat> {
    depth + map key | key in KeysOf(ready) :: level
  }

  /** The tasks that may start once the satisfied ones are done. */
  function Ready(tasks: seq<Task>, satisfied: set<string>): (r: seq<Task>)
    ensures forall t :: t in r <==> t in tasks && t.key !in satisfied && Unblocked(t, satisfied)
  {
    Filter(Remaining(tasks, satisfied), (t: Task) => Unblocked(t, satisfied))
  }

  lemma NextLayer(tasks: seq<Task>, depth: map<string, nat>, layers: seq<seq<Task>>)
    requires UniqueKeys(tasks) && Progress(tasks, depth, layers) && Ready(tasks, depth.Keys) != []
    ensures Progress(tasks, Placed(depth, Ready(tasks, depth.Keys), |layers|), layers + [Ready(tasks, depth.Keys)])
  {
    hide Sound, Filled, Waiting, UniqueKeys, Unblocked, Placed, Ready, KeysOf;
    ReadyRemain(tasks, depth.Keys);
    PlacedKeys(depth, Ready(tasks, depth.Keys), |layers|);
    StillSound(tasks, depth, |layers|);
    StillWaiting(tasks, depth, |layers|);
    StillFilled(tasks, depth, layers);
  }

  lemma StillSound(tasks: seq<Task>, depth: map<string, nat>, level: nat)
    requires UniqueKeys(tasks) && Sound(tasks, depth) && Below(depth, level)
    requires level > 0 ==> Waiting(tasks, depth, level - 1)
    ensures Sound(tasks, Placed(depth, Ready(tasks, depth.Keys), level))
  {
    hide WellPlaced, HeldBack, Ready, Placed, UniqueKeys;
    forall t | t in tasks && t.key in Placed(depth, Ready(tasks, depth.Keys), level)
      ensures WellPlaced(t, Placed(depth, Ready(tasks, depth.Keys), level))
    {
      PlaceIsRight(tasks, depth, level, t);
    }
  }

  lemma StillWaiting(tasks: seq<Task>, depth: map<string, nat>, level: nat)
    ensures Waiting(tasks, Placed(depth, Ready(tasks, depth.Keys), level), level)
  {
    var ready := Ready(tasks, depth.Keys);
    hide Ready;
    forall t | t in tasks && t.key !in Placed(depth, ready, level)
      ensures HeldBack(t, Placed(depth, ready, level), level)
    {
      assert t !in ready && t.key !in depth;
      assert !Unblocked(t, depth.Keys);
    }
  }

  lemma StillFilled(tasks: seq<Task>, depth: map<string, nat>, layers: seq<seq<Task>>)
    requires UniqueKeys(tasks) && Filled(tasks, depth, layers) && Ready(tasks, depth.Keys) != []
    requires Below(depth, |layers|)
    ensures Filled(tasks, Placed(depth, Ready(tasks, depth.Keys), |layers|), layers + [Ready(tasks, depth.Keys)])
  {
    var ready := Ready(tasks, depth.Keys);
    hide UniqueKeys, Unblocked, Placed, Ready, KeysOf, Layer;
    NewLayerIsReady(tasks, depth, |layers|);
    forall k | 0 <= k < |layers|
      ensures layers[k] == Layer(tasks, Placed(depth, ready, |layers|), k)
    {
      OldLayersStay(tasks, depth, ready, |layers|, k);
    }
  }

  lemma PlaceIsRight(tasks: seq<Task>, depth: map<string, nat>, level: nat, t: Task)
    requires UniqueKeys(tasks) && t in tasks && t.key in Placed(depth, Ready(tasks, depth.Keys), level)
    requires t.key in depth ==> WellPlaced(t, depth)
    requires Below(depth, level)
    requires t.key !in depth && level > 0 ==> HeldBack(t, depth, level - 1)
    ensures WellPlaced(t, Placed(depth, Ready(tasks, depth.Keys), level))
  {
    var ready := Ready(tasks, depth.Keys);
    hide Ready, WellPlaced, HeldBack, UniqueKeys, Unblocked;
    if t.key in depth {
      OldPlacesStay(depth, ready, level, t);
    } else {
      var u :| u in ready && u.key == t.key;
      SameKeySameTask(tasks, t, u);
      NewPlaceIsRight(depth, ready, level, t);
    }
  }

  lemma SameKeySameTask(tasks: seq<Task>, t: Task, u: Task)
    requires UniqueKeys(tasks) && t in tasks && u in tasks && t.key == u.key
    ensures t == u
  {
  }

  lemma OldPlacesStay(depth: map<string, nat>, ready: seq<Task>, level: nat, t: Task)
    requires WellPlaced(t, depth)
    requires forall u :: u in ready ==> u.key !in depth
    ensures WellPlaced(t, Placed(depth, ready, level))
  {
    var placed := Placed(depth, ready, level);
    assert forall key :: key in depth ==> key in placed && placed[key] == depth[key];
    hide Placed;
  }

  lemma NewPlaceIsRight(depth: map<string, nat>, ready: seq<Task>, level: nat, t: Task)
    requires t in ready && Unblocked(t, depth.Keys)
    requires forall u :: u in ready ==> u.key !in depth
    requires Below(depth, level)
    requires level > 0 ==> HeldBack(t, depth, level - 1)
    ensures WellPlaced(t, Placed(depth, ready, level))
  {
    var placed := Placed(depth, ready, level);
    assert forall key :: key in depth ==> key in placed && placed[key] == depth[key];
    assert t.key in placed && placed[t.key] == level;
    hide Placed;
  }

  lemma OldLayersStay(tasks: seq<Task>, depth: map<string, nat>, ready: seq<Task>, level: nat, k: nat)
    requires forall u :: u in ready ==> u.key !in depth
    requires k < level
    ensures Layer(tasks, Placed(depth, ready, level), k) == Layer(tasks, depth, k)
  {
    var placed := Placed(depth, ready, level);
    FilterCongruence(tasks, (t: Task) => t.key in placed && placed[t.key] == k, (t: Task) => t.key in depth && depth[t.key] == k);
  }

  lemma NewLayerIsReady(tasks: seq<Task>, depth: map<string, nat>, level: nat)
    requires UniqueKeys(tasks)
    requires Below(depth, level)
    ensures Layer(tasks, Placed(depth, Ready(tasks, depth.Keys), level), level) == Ready(tasks, depth.Keys)
  {
    var ready := Ready(tasks, depth.Keys);
    var placed := Placed(depth, ready, level);
    var satisfied := depth.Keys;
    var inLayer := (t: Task) => t.key in placed && placed[t.key] == level;
    var out, free := (t: Task) => t.key !in satisfied, (t: Task) => Unblocked(t, satisfied);
    forall t | t in tasks
      ensures inLayer(t) == (out(t) && free(t))
    {
      hide Unblocked, UniqueKeys, Filter;
      if inLayer(t) {
        var u :| u in ready && u.key == t.key;
        SameKeySameTask(tasks, t, u);
      }
      assert out(t) && free(t) ==> t in ready;
    }
    hide Filter;
    FilterTwice(tasks, out, free, inLayer);
    assert Layer(tasks, placed, level) == Filter(tasks, inLayer);
    assert ready == Filter(Filter(tasks, out), free);
  }

  lemma AllPlaced(tasks: seq<Task>, depth: map<string, nat>, layers: seq<seq<Task>>)
    requires Progress(tasks, depth, layers) && Remaining(tasks, depth.Keys) == []
    ensures IsLayering(tasks, depth, layers)
    ensures NoDangling(tasks) && Acyclic(tasks)
  {
    forall t | t in tasks
      ensures WellPlaced(t, depth)
    {
      assert t !in Remaining(tasks, depth.Keys);
    }
    DepthsMeanAcyclic(tasks, depth);
  }

  /** A turn that finds nothing ready has met a deadlocked set. */
  lemma StuckIsDeadlocked(tasks: seq<Task>, satisfied: set<string>)
    requires NoDangling(tasks)
    requires forall t :: t in Remaining(tasks, satisfied) ==> !Unblocked(t, satisfied)
    ensures Deadlocked(tasks, KeysOf(Remaining(tasks, satisfied)))
  {
    var rest := Remaining(tasks, satisfied);
    forall key | key in KeysOf(rest)
      ensures WaitsWithin(tasks, KeysOf(rest), key)
    {
      var t :| t in rest && t.key == key;
      var d :| d in t.dependsOn && d !in satisfied;
      var u :| u in tasks && u.key == d;
      assert u in rest;
      assert Depends(tasks, key, d);
    }
  }

  lemma HasAKey(tasks: seq<Task>)
    requires tasks != []
    ensures KeysOf(tasks) != {}
  {
    assert tasks[0] in tasks;
    assert tasks[0].key in KeysOf(tasks);
  }

  lemma StuckMeansCyclic(tasks: seq<Task>, satisfied: set<string>)
    requires NoDangling(tasks) && Remaining(tasks, satisfied) != []
    requires forall t :: t in Remaining(tasks, satisfied) ==> !Unblocked(t, satisfied)
    ensures !Acyclic(tasks)
  {
    StuckIsDeadlocked(tasks, satisfied);
    HasAKey(Remaining(tasks, satisfied));
    hide *;
    DeadlockHoldsACycle(tasks, KeysOf(Remaining(tasks, satisfied)));
  }

  // ---- the plan's own algorithm ----

  datatype PlanError =
    | NoTasks
    | DuplicateKeys(keys: set<string>)
    | UnknownTasks(task: string, missing: seq<string>)
    | Cycle(tasks: set<string>)

  datatype Outcome<T> = Accepted(value: T) | Refused(error: PlanError)

  /** The largest set of tasks each of which waits for another of them. */
  ghost predicate IsGreatestDeadlock(tasks: seq<Task>, keys: set<string>) {
    && keys != {} && Deadlocked(tasks, keys)
    && (forall other :: Deadlocked(tasks, other) ==> other <= keys)
  }

  lemma DeadlockedIsUnplaced(tasks: seq<Task>, depth: map<string, nat>, keys: set<string>)
    requires UniqueKeys(tasks) && Deadlocked(tasks, keys)
    requires Sound(tasks, depth)
    ensures keys <= KeysOf(Remaining(tasks, depth.Keys))
  {
    hide WaitsWithin, UniqueKeys, WellPlaced;
    forall key | key in keys
      ensures key in KeysOf(Remaining(tasks, depth.Keys))
    {
      PlacedIsNotDeadlocked(tasks, depth, keys, key);
      var t :| t in tasks && t.key == key;
      assert t in Remaining(tasks, depth.Keys);
    }
  }

  lemma RestIsGreatestDeadlock(tasks: seq<Task>, depth: map<string, nat>, layers: seq<seq<Task>>)
    requires UniqueKeys(tasks) && NoDangling(tasks) && Progress(tasks, depth, layers)
    requires Remaining(tasks, depth.Keys) != []
    requires forall t :: t in Remaining(tasks, depth.Keys) ==> !Unblocked(t, depth.Keys)
    ensures IsGreatestDeadlock(tasks, KeysOf(Remaining(tasks, depth.Keys)))
  {
    hide Deadlocked, Remaining, KeysOf, Sound, Filled, Waiting, NoDangling, UniqueKeys, Unblocked;
    var rest := Remaining(tasks, depth.Keys);
    HasAKey(rest);
    StuckIsDeadlocked(tasks, depth.Keys);
    forall other | Deadlocked(tasks, other)
      ensures other <= KeysOf(rest)
    {
      DeadlockedIsUnplaced(tasks, depth, other);
    }
  }

  /** Growing a satisfied set layer by layer accepts exactly the graphs that
      can be layered, and a refusal names exactly the tasks that cannot start. */
  method ExecutionLayers(tasks: seq<Task>) returns (r: Outcome<seq<seq<Task>>>)
    requires UniqueKeys(tasks)
    ensures r.Accepted? <==> NoDangling(tasks) && Acyclic(tasks)
    ensures r.Accepted? ==> Exact(tasks, r.value)
    ensures r.Refused? && NoDangling(tasks) ==> r.error.Cycle? && IsGreatestDeadlock(tasks, r.error.tasks)
  {
    hide *;
    var remaining := tasks;
    var satisfied: set<string> := {};
    var layers: seq<seq<Task>> := [];
    ghost var depth: map<string, nat> := map[];
    NothingPlaced(tasks, depth, satisfied);
    while remaining != []
      invariant satisfied == depth.Keys
      invariant remaining == Remaining(tasks, satisfied)
      invariant Progress(tasks, depth, layers)
      decreases |remaining|
    {
      var ready := Filter(remaining, (t: Task) => Unblocked(t, satisfied));
      ReadyIsFiltered(tasks, satisfied);
      if ready == [] {
        StuckOutcome(tasks, depth, layers);
        return Refused(Cycle(KeysOf(remaining)));
      }
      NextLayer(tasks, depth, layers);
      ReadyRemain(tasks, satisfied);
      layers := layers + [ready];
      remaining, satisfied := TakeOut(tasks, remaining, satisfied, ready);
      PlacedKeys(depth, ready, |layers| - 1);
      depth := Placed(depth, ready, |layers| - 1);
    }
    AllPlaced(tasks, depth, layers);
    ExactByDepth(tasks, depth, layers);
    return Accepted(layers);
  }

  lemma NothingPlaced(tasks: seq<Task>, depth: map<string, nat>, satisfied: set<string>)
    requires depth == map[] && satisfied == {}
    ensures satisfied == depth.Keys && tasks == Remaining(tasks, satisfied) && Progress(tasks, depth, [])
  {
    FilterAll(tasks, (t: Task) => t.key !in satisfied);
  }

  lemma ReadyIsFiltered(tasks: seq<Task>, satisfied: set<string>)
    ensures Filter(Remaining(tasks, satisfied), (t: Task) => Unblocked(t, satisfied)) == Ready(tasks, satisfied)
  {
  }

  lemma PlacedKeys(depth: map<string, nat>, ready: seq<Task>, level: nat)
    ensures Placed(depth, ready, level).Keys == depth.Keys + KeysOf(ready)
    ensures Below(depth, level) ==> Below(Placed(depth, ready, level), level + 1)
  {
  }

  lemma ReadyRemain(tasks: seq<Task>, satisfied: set<string>)
    ensures forall t :: t in Ready(tasks, satisfied) ==> t in Remaining(tasks, satisfied)
    ensures KeysOf(Ready(tasks, satisfied)) <= KeysOf(tasks)
  {
  }

  lemma StuckOutcome(tasks: seq<Task>, depth: map<string, nat>, layers: seq<seq<Task>>)
    requires UniqueKeys(tasks) && Progress(tasks, depth, layers)
    requires Remaining(tasks, depth.Keys) != [] && Ready(tasks, depth.Keys) == []
    ensures !(NoDangling(tasks) && Acyclic(tasks))
    ensures NoDangling(tasks) ==> IsGreatestDeadlock(tasks, KeysOf(Remaining(tasks, depth.Keys)))
  {
    forall t | t in Remaining(tasks, depth.Keys)
      ensures !Unblocked(t, depth.Keys)
    {
      assert t !in Ready(tasks, depth.Keys);
    }
    hide *;
    if NoDangling(tasks) {
      StuckMeansCyclic(tasks, depth.Keys);
      RestIsGreatestDeadlock(tasks, depth, layers);
    }
  }

  /** Moving the ready tasks from the remaining to the satisfied ones. */
  method TakeOut(tasks: seq<Task>, before: seq<Task>, had: set<string>, ready: seq<Task>)
    returns (remaining: seq<Task>, satisfied: set<string>)
    requires before == Remaining(tasks, had)
    requires forall t :: t in ready ==> t in before
    ensures satisfied == had + KeysOf(ready)
    ensures remaining == Remaining(tasks, satisfied)
    ensures ready != [] ==> |remaining| < |before|
  {
    remaining, satisfied := before, had;
    for i := 0 to |ready|
      invariant satisfied == had + KeysOf(ready[..i])
      invariant remaining == Remaining(tasks, satisfied)
    {
      ghost var sofar := satisfied;
      var key := ready[i].key;
      remaining := Filter(remaining, (t: Task) => t.key != key);
      satisfied := satisfied + {key};
      DropKey(tasks, sofar, key);
      assert ready[..i + 1] == ready[..i] + [ready[i]];
    }
    assert ready[..|ready|] == ready;
    if ready != [] {
      assert ready[0] in ready;
      FewerRemain(tasks, had, satisfied, ready[0]);
    }
  }

  lemma DropKey(tasks: seq<Task>, satisfied: set<string>, key: string)
    ensures Filter(Remaining(tasks, satisfied), (t: Task) => t.key != key) == Remaining(tasks, satisfied + {key})
  {
    var out, other := (t: Task) => t.key !in satisfied, (t: Task) => t.key != key;
    var have := satisfied + {key};
    var neither := (t: Task) => t.key !in have;
    hide Filter;
    FilterTwice(tasks, out, other, neither);
    assert Remaining(tasks, have) == Filter(tasks, neither);
    assert Remaining(tasks, satisfied) == Filter(tasks, out);
  }

  lemma FewerRemain(tasks: seq<Task>, had: set<string>, have: set<string>, t: Task)
    requires had <= have && t in Remaining(tasks, had) && t !in Remaining(tasks, have)
    ensures |Remaining(tasks, have)| < |Remaining(tasks, had)|
  {
    var before, after := Remaining(tasks, had), Remaining(tasks, have);
    forall u
      ensures multiset(after)[u] <= multiset(before)[u]
    {
      FilterCount(tasks, (v: Task) => v.key !in had, u);
      FilterCount(tasks, (v: Task) => v.key !in have, u);
    }
    assert multiset(after) <= multiset(before);
    assert t in multiset(before) && t !in multiset(after);
    assert |multiset(before)| == |multiset(after)| + |multiset(before) - multiset(after)|;
  }

  // ---- construction of a plan ----

  function Occurrences(tasks: seq<Task>, key: string): nat {
    if tasks == [] then 0 else
    Occurrences(tasks[..|tasks| - 1], key) + if tasks[|tasks| - 1].key == key then 1 else 0
  }

  function Duplicates(tasks: seq<Task>): set<string> {
    set t | t in tasks && Occurrences(tasks, t.key) > 1 :: t.key
  }

  lemma {:induction false} OccursOnlyAsAKey(tasks: seq<Task>, key: string)
    ensures Occurrences(tasks, key) > 0 <==> key in KeysOf(tasks)
  {
    if tasks != [] {
      var front, last := tasks[..|tasks| - 1], tasks[|tasks| - 1];
      assert tasks == front + [last];
      OccursOnlyAsAKey(front, key);
      assert KeysOf(tasks) == KeysOf(front) + {last.key};
    }
  }

  lemma {:induction false} OccursTwice(tasks: seq<Task>, key: string)
    ensures Occurrences(tasks, key) > 1 <==> exists i, j :: 0 <= i < j < |tasks| && tasks[i].key == tasks[j].key == key
  {
    if tasks != [] {
      var n := |tasks| - 1;
      var front := tasks[..n];
      OccursTwice(front, key);
      OccursOnlyAsAKey(front, key);
      if tasks[n].key == key && key in KeysOf(front) {
        var t :| t in front && t.key == key;
        var i :| 0 <= i < n && front[i] == t;
        assert tasks[i].key == tasks[n].key == key;
      }
      if i, j :| 0 <= i < j < |tasks| && tasks[i].key == tasks[j].key == key {
        assert tasks[i] in front;
        if j < n {
          assert front[i].key == front[j].key == key;
        }
      }
    }
  }

  lemma NoDuplicatesMeansUnique(tasks: seq<Task>)
    ensures Duplicates(tasks) == {} <==> UniqueKeys(tasks)
  {
    forall i, j | 0 <= i < j < |tasks| && tasks[i].key == tasks[j].key
      ensures tasks[i].key in Duplicates(tasks)
    {
      OccursTwice(tasks, tasks[i].key);
      assert tasks[i] in tasks;
    }
    forall key | key in Duplicates(tasks)
      ensures !UniqueKeys(tasks)
    {
      OccursTwice(tasks, key);
    }
  }

  /** Construction succeeds exactly on a non-empty acyclic graph with unique
      keys and known dependencies, and otherwise reports the first fault. */
  method ValidateGraph(tasks: seq<Task>) returns (r: Outcome<seq<seq<Task>>>)
    ensures r.Accepted? <==> tasks != [] && UniqueKeys(tasks) && NoDangling(tasks) && Acyclic(tasks)
    ensures r.Accepted? ==> Exact(tasks, r.value)
    ensures r == Refused(NoTasks) <==> tasks == []
    ensures r.Refused? && r.error.DuplicateKeys? <==> !UniqueKeys(tasks)
    ensures r.Refused? && r.error.DuplicateKeys? ==>
      forall key :: key in r.error.keys <==> exists i, j :: 0 <= i < j < |tasks| && tasks[i].key == tasks[j].key == key
    ensures r.Refused? && r.error.UnknownTasks? <==> UniqueKeys(tasks) && !NoDangling(tasks)
    ensures r.Refused? && r.error.UnknownTasks? ==> FirstDangling(tasks, r.error.task, r.error.missing)
    ensures r.Refused? && r.error.Cycle? ==> IsGreatestDeadlock(tasks, r.error.tasks)
  {
    if tasks == [] {
      return Refused(NoTasks);
    }
    NoDuplicatesMeansUnique(tasks);
    var duplicates := Duplicates(tasks);
    if duplicates != {} {
      forall key
        ensures key in duplicates <==> exists i, j :: 0 <= i < j < |tasks| && tasks[i].key == tasks[j].key == key
      {
        OccursTwice(tasks, key);
        OccursOnlyAsAKey(tasks, key);
      }
      return Refused(DuplicateKeys(duplicates));
    }
    var known := KeysOf(tasks);
    for i := 0 to |tasks|
      invariant forall j :: 0 <= j < i ==> Missing(tasks[j], known) == []
    {
      var dangling := Missing(tasks[i], known);
      if dangling != [] {
        assert dangling[0] in dangling;
        assert tasks[i] in tasks;
        return Refused(UnknownTasks(tasks[i].key, dangling));
      }
    }
    forall t, d | t in tasks && d in t.dependsOn
      ensures d in known
    {
      assert d !in Missing(t, known);
    }
    r := ExecutionLayers(tasks);
  }

  function Missing(t: Task, known: set<string>): seq<string> { Filter(t.dependsOn, (d: string) => d !in known) }

  /** The refusal names the first task with an unknown dependency, and all its unknown ones in order. */
  ghost predicate FirstDangling(tasks: seq<Task>, key: string, missing: seq<string>) {
    exists i :: 0 <= i < |tasks| && tasks[i].key == key && missing == Missing(tasks[i], KeysOf(tasks)) && missing != []
      && forall j :: 0 <= j < i ==> Missing(tasks[j], KeysOf(tasks)) == []
  }
}
