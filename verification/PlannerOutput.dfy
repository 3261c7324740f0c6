/** The planner answer's graph check and layering, which shrink dependency sets
    where the plan grows a satisfied set. */
module PlannerOutputs {
  import opened Ordering
  import opened Plans

  /** One entry of the `remaining` dictionary, kept in insertion order. */
  datatype Entry = Entry(key: string, deps: set<string>)

  datatype GraphError =
    | DuplicateTasks(keys: set<string>)
    | SelfDependent(task: string)
    | UnknownDependencies(task: string, missing: set<string>)
    | Cyclic(tasks: set<string>)

  datatype Verdict = Usable | Unusable(error: GraphError)

  function DependencySet(t: Task): set<string> { set d | d in t.dependsOn }

  function EntryOf(t: Task, satisfied: set<string>): Entry { Entry(t.key, DependencySet(t) - satisfied) }

  function Entries(rest: seq<Task>, satisfied: set<string>): (r: seq<Entry>)
    ensures |r| == |rest|
    ensures forall i :: 0 <= i < |rest| ==> r[i] == EntryOf(rest[i], satisfied)
  {
    Map(rest, (t: Task) => EntryOf(t, satisfied))
  }

  /** What `remaining` holds once the given keys are done. */
  function Pending(tasks: seq<Task>, satisfied: set<string>): seq<Entry> {
    Entries(Remaining(tasks, satisfied), satisfied)
  }

  function Keys(layer: seq<Task>): seq<string> { Map(layer, (t: Task) => t.key) }

  function KeyLayers(layers: seq<seq<Task>>): seq<seq<string>> { Map(layers, (layer: seq<Task>) => Keys(layer)) }

  function ReadyKeys(remaining: seq<Entry>): seq<string> {
    Map(Filter(remaining, (e: Entry) => e.deps == {}), (e: Entry) => e.key)
  }

  /** Empty dependency sets name the tasks whose dependencies are all satisfied, in the same order. */
  lemma ReadyAgrees(tasks: seq<Task>, satisfied: set<string>)
    ensures ReadyKeys(Pending(tasks, satisfied)) == Keys(Ready(tasks, satisfied))
  {
    var rest := Remaining(tasks, satisfied);
    forall t | t in rest
      ensures Unblocked(t, satisfied) == (EntryOf(t, satisfied).deps == {})
    {
      assert Unblocked(t, satisfied) ==> DependencySet(t) <= satisfied;
      if EntryOf(t, satisfied).deps == {} {
        assert forall d :: d in t.dependsOn ==> d in DependencySet(t) && d !in DependencySet(t) - satisfied;
      }
    }
    hide Filter, Unblocked, EntryOf;
    FilterMap(rest, (t: Task) => EntryOf(t, satisfied), (e: Entry) => e.deps == {}, (t: Task) => Unblocked(t, satisfied));
    SameKeys(Ready(tasks, satisfied), satisfied);
  }

  lemma SameKeys(rest: seq<Task>, satisfied: set<string>)
    ensures Map(Entries(rest, satisfied), (e: Entry) => e.key) == Keys(rest)
  {
  }

  lemma DropOne(tasks: seq<Task>, done: set<string>, satisfied: set<string>, key: string)
    ensures Filter(Entries(Remaining(tasks, done), satisfied), (e: Entry) => e.key != key)
         == Entries(Remaining(tasks, done + {key}), satisfied)
  {
    hide Filter, Entries, Remaining;
    DropEntry(Remaining(tasks, done), satisfied, key);
    DropKey(tasks, done, key);
  }

  lemma DropEntry(rest: seq<Task>, satisfied: set<string>, key: string)
    ensures Filter(Entries(rest, satisfied), (e: Entry) => e.key != key)
         == Entries(Filter(rest, (t: Task) => t.key != key), satisfied)
  {
    hide Filter;
    FilterMap(rest, (t: Task) => EntryOf(t, satisfied), (e: Entry) => e.key != key, (t: Task) => t.key != key);
  }

  function KeySet(keys: seq<string>): set<string> { set key | key in keys }

  lemma KeySetOf(layer: seq<Task>)
    ensures KeySet(Keys(layer)) == KeysOf(layer)
  {
    forall key | key in KeysOf(layer)
      ensures key in Keys(layer)
    {
      var i :| 0 <= i < |layer| && layer[i].key == key;
      assert Keys(layer)[i] == key;
    }
  }

  /** Deletes the ready keys, then strikes them from the other dependency sets. */
  method Shrink(ghost tasks: seq<Task>, ghost satisfied: set<string>, before: seq<Entry>, ready: seq<string>)
    returns (remaining: seq<Entry>)
    requires before == Pending(tasks, satisfied)
    ensures remaining == Pending(tasks, satisfied + KeySet(ready))
  {
    remaining := before;
    ghost var done := satisfied;
    for i := 0 to |ready|
      invariant done == satisfied + KeySet(ready[..i])
      invariant remaining == Entries(Remaining(tasks, done), satisfied)
    {
      var key := ready[i];
      DropOne(tasks, done, satisfied, key);
      remaining := Filter(remaining, (e: Entry) => e.key != key);
      assert ready[..i + 1] == ready[..i] + [key];
      done := done + {key};
    }
    assert ready[..|ready|] == ready;
    remaining := Strike(Remaining(tasks, done), satisfied, remaining, ready);
  }

  method Strike(ghost rest: seq<Task>, ghost satisfied: set<string>, entries: seq<Entry>, ready: seq<string>)
    returns (remaining: seq<Entry>)
    requires entries == Entries(rest, satisfied)
    ensures remaining == Entries(rest, satisfied + KeySet(ready))
  {
    remaining := entries;
    for j := 0 to |remaining|
      invariant |remaining| == |rest|
      invariant forall i :: 0 <= i < j ==> remaining[i] == EntryOf(rest[i], satisfied + KeySet(ready))
      invariant forall i :: j <= i < |rest| ==> remaining[i] == EntryOf(rest[i], satisfied)
    {
      remaining := remaining[j := Entry(remaining[j].key, remaining[j].deps - KeySet(ready))];
    }
  }

  // ---- the two loops ----

  lemma StartsPending(tasks: seq<Task>, depth: map<string, nat>)
    requires depth == map[]
    ensures Entries(tasks, {}) == Pending(tasks, depth.Keys)
    ensures Progress(tasks, depth, [])
  {
    var none: set<string> := {};
    assert depth.Keys == none;
    FilterAll(tasks, (t: Task) => t.key !in none);
    assert Remaining(tasks, none) == tasks;
  }

  /** One turn, seen from the satisfied keys it has not got. */
  lemma Turn(tasks: seq<Task>, depth: map<string, nat>, layers: seq<seq<Task>>)
    requires UniqueKeys(tasks) && Progress(tasks, depth, layers) && Ready(tasks, depth.Keys) != []
    ensures var ready := Ready(tasks, depth.Keys);
      && Progress(tasks, Placed(depth, ready, |layers|), layers + [ready])
      && Placed(depth, ready, |layers|).Keys == depth.Keys + KeySet(Keys(ready))
      && |Remaining(tasks, depth.Keys + KeySet(Keys(ready)))| < |Remaining(tasks, depth.Keys)|
  {
    var ready := Ready(tasks, depth.Keys);
    ReadyRemain(tasks, depth.Keys);
    assert ready[0] in ready;
    assert ready[0].key in KeysOf(ready);
    assert ready[0] !in Remaining(tasks, depth.Keys + KeysOf(ready));
    hide *;
    NextLayer(tasks, depth, layers);
    PlacedKeys(depth, ready, |layers|);
    KeySetOf(ready);
    FewerRemain(tasks, depth.Keys, depth.Keys + KeysOf(ready), ready[0]);
  }

  /** Everything the layering of an accepted graph promises. */
  ghost predicate ExactKeys(tasks: seq<Task>, keys: seq<seq<string>>) {
    exists layers :: Exact(tasks, layers) && keys == KeyLayers(layers)
  }

  lemma ExtendKeyLayers(layers: seq<seq<Task>>, layer: seq<Task>)
    ensures KeyLayers(layers + [layer]) == KeyLayers(layers) + [Keys(layer)]
  {
  }

  /** It has no check of its own, and ends on every graph the validator accepts. */
  method ExecutionLayers(tasks: seq<Task>) returns (layers: seq<seq<string>>)
    requires UniqueKeys(tasks) && NoDangling(tasks) && Acyclic(tasks)
    ensures ExactKeys(tasks, layers)
  {
    var remaining := Entries(tasks, {});
    layers := [];
    ghost var depth: map<string, nat> := map[];
    ghost var full: seq<seq<Task>> := [];
    StartsPending(tasks, depth);
    assert layers == KeyLayers(full);
    while remaining != []
      invariant Progress(tasks, depth, full)
      invariant remaining == Pending(tasks, depth.Keys)
      invariant layers == KeyLayers(full)
      decreases |remaining|
    {
      hide *;
      var ready := ReadyKeys(remaining);
      PendingLength(tasks, depth.Keys);
      ReadyAgrees(tasks, depth.Keys);
      if Ready(tasks, depth.Keys) == [] {
        StuckOutcome(tasks, depth, full);
        assert false;
      }
      Turn(tasks, depth, full);
      ExtendKeyLayers(full, Ready(tasks, depth.Keys));
      layers := layers + [ready];
      remaining := Shrink(tasks, depth.Keys, remaining, ready);
      PendingLength(tasks, depth.Keys + KeySet(ready));
      full, depth := full + [Ready(tasks, depth.Keys)], Placed(depth, Ready(tasks, depth.Keys), |full|);
    }
    PendingLength(tasks, depth.Keys);
    AllPlaced(tasks, depth, full);
  }

  lemma PendingLength(tasks: seq<Task>, satisfied: set<string>)
    ensures |Pending(tasks, satisfied)| == |Remaining(tasks, satisfied)|
  {
  }

  function EntryKeys(entries: seq<Entry>): set<string> { set e | e in entries :: e.key }

  lemma PendingKeys(tasks: seq<Task>, satisfied: set<string>)
    ensures EntryKeys(Pending(tasks, satisfied)) == KeysOf(Remaining(tasks, satisfied))
  {
    hide Remaining;
    var rest := Remaining(tasks, satisfied);
    var entries := Entries(rest, satisfied);
    forall t | t in rest
      ensures t.key in EntryKeys(entries)
    {
      var i :| 0 <= i < |rest| && rest[i] == t;
      assert entries[i] in entries;
    }
  }

  lemma SelfDependencyIsACycle(tasks: seq<Task>, t: Task)
    requires t in tasks && t.key in t.dependsOn
    ensures !Acyclic(tasks)
  {
    var p := [t.key, t.key];
    assert Depends(tasks, t.key, t.key);
    assert IsCycle(tasks, p);
  }

  ghost predicate NoFault(tasks: seq<Task>, t: Task) {
    t.key !in t.dependsOn && DependencySet(t) <= KeysOf(tasks)
  }

  /** The error describes the first task that names itself or an unknown task. */
  ghost predicate FirstFault(tasks: seq<Task>, error: GraphError) {
    exists i :: 0 <= i < |tasks| && (forall j :: 0 <= j < i ==> NoFault(tasks, tasks[j]))
      && !NoFault(tasks, tasks[i])
      && error == if tasks[i].key in tasks[i].dependsOn then SelfDependent(tasks[i].key)
                  else UnknownDependencies(tasks[i].key, DependencySet(tasks[i]) - KeysOf(tasks))
  }

  /** Accepts exactly the graphs a plan accepts, apart from the empty one,
      which the field's minimum length refuses before this check. */
  method GraphIsUsable(tasks: seq<Task>) returns (r: Verdict)
    ensures r.Usable? <==> UniqueKeys(tasks) && NoDangling(tasks) && Acyclic(tasks)
    ensures r.Unusable? && r.error.DuplicateTasks? <==> !UniqueKeys(tasks)
    ensures r.Unusable? && r.error.DuplicateTasks? ==> r.error.keys == Duplicates(tasks)
    ensures r.Unusable? && (r.error.SelfDependent? || r.error.UnknownDependencies?) ==> FirstFault(tasks, r.error)
    ensures r.Unusable? && r.error.Cyclic? ==> NoDangling(tasks) && IsGreatestDeadlock(tasks, r.error.tasks)
  {
    NoDuplicatesMeansUnique(tasks);
    var duplicates := Duplicates(tasks);
    if duplicates != {} {
      return Unusable(DuplicateTasks(duplicates));
    }
    var known := KeysOf(tasks);
    for i := 0 to |tasks|
      invariant forall j :: 0 <= j < i ==> NoFault(tasks, tasks[j])
    {
      if tasks[i].key in tasks[i].dependsOn {
        SelfDependencyIsACycle(tasks, tasks[i]);
        return Unusable(SelfDependent(tasks[i].key));
      }
      var unknown := DependencySet(tasks[i]) - known;
      assert forall d :: d in DependencySet(tasks[i]) ==> d in known || d in unknown;
      if unknown != {} {
        assert tasks[i] in tasks;
        return Unusable(UnknownDependencies(tasks[i].key, unknown));
      }
    }
    forall t, d | t in tasks && d in t.dependsOn
      ensures d in known
    {
      assert NoFault(tasks, t);
      assert d in DependencySet(t);
    }
    r := ConsumeGraph(tasks);
  }

  method ConsumeGraph(tasks: seq<Task>) returns (r: Verdict)
    requires UniqueKeys(tasks) && NoDangling(tasks)
    ensures r.Usable? <==> Acyclic(tasks)
    ensures r.Unusable? ==> r.error.Cyclic? && IsGreatestDeadlock(tasks, r.error.tasks)
  {
    hide *;
    var remaining := Entries(tasks, {});
    ghost var depth: map<string, nat> := map[];
    ghost var full: seq<seq<Task>> := [];
    StartsPending(tasks, depth);
    while remaining != []
      invariant Progress(tasks, depth, full)
      invariant remaining == Pending(tasks, depth.Keys)
      decreases |remaining|
    {
      var ready := ReadyKeys(remaining);
      PendingLength(tasks, depth.Keys);
      ReadyAgrees(tasks, depth.Keys);
      NoKeysNoTasks(Ready(tasks, depth.Keys));
      if ready == [] {
        StuckOutcome(tasks, depth, full);
        PendingKeys(tasks, depth.Keys);
        return Unusable(Cyclic(EntryKeys(remaining)));
      }
      Turn(tasks, depth, full);
      remaining := Shrink(tasks, depth.Keys, remaining, ready);
      PendingLength(tasks, depth.Keys + KeySet(ready));
      full, depth := full + [Ready(tasks, depth.Keys)], Placed(depth, Ready(tasks, depth.Keys), |full|);
    }
    PendingLength(tasks, depth.Keys);
    AllPlaced(tasks, depth, full);
    return Usable;
  }

  lemma NoKeysNoTasks(layer: seq<Task>)
    ensures Keys(layer) == [] <==> layer == []
  {
  }

  /** The two algorithms give the same layers in the same order. */
  lemma LayeringsAgree(tasks: seq<Task>, layers: seq<seq<Task>>, keys: seq<seq<string>>)
    requires Exact(tasks, layers)
    ensures ExactKeys(tasks, keys) <==> keys == KeyLayers(layers)
  {
    if ExactKeys(tasks, keys) {
      var other :| Exact(tasks, other) && keys == KeyLayers(other);
      ExactIsUnique(tasks, layers, other);
    }
  }
}
