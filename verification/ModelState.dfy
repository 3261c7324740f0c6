/** Making a model available on a shared volume: locked, resumable, and marked
    ready only after a check against sizes that come from outside the snapshot. */
module ModelPreparation {
  import opened Common

  /** A snapshot directory; its name is the revision it stands for. */
  datatype Path = Path(parent: string, name: string)

  type Files = map<string, nat>
  type Snapshots = map<Path, Files>

  datatype Marker = Marker(modelId: string, revision: string, path: Path, files: Files, verified: bool)

  /** What is on the volume; `fetches` counts the downloads ever started on it. */
  datatype Volume = Volume(marker: Option<Marker>, snapshots: Snapshots, fetches: nat)

  datatype Config = Config(modelId: string, revision: Option<string>, maxAttempts: nat)

  datatype FetchResult = Done(path: Path) | Transient | Quota

  /** A fetch may leave any snapshots behind, whether or not it succeeds. */
  datatype Fetched = Fetched(result: FetchResult, snapshots: Snapshots)

  type Hub = (nat, Snapshots) -> Fetched

  /** What a call meets outside the volume: the hub, the sizes it reports, the
      free space, and the files that cannot be unlinked. */
  datatype Surroundings = Surroundings(hub: Hub, hubSizes: Option<Files>, freeSpace: bool, stuck: set<string>)

  /** What other processes left while the caller polled for the lock. */
  datatype Wait = TimedOut(left: Volume) | Acquired(found: Volume)

  datatype PreparationError = LockTimeout | NoFreeSpace | OutOfQuota | Exhausted | StillBroken

  datatype Outcome =
    | Prepared(state: Marker, downloaded: bool, attempts: nat, volume: Volume)
    | Failed(error: PreparationError, volume: Volume)

  // ---- checks ----

  function FilesAt(snapshots: Snapshots, path: Path): Files { if path in snapshots then snapshots[path] else map[] }

  /** Files that are absent or of the wrong length. */
  function Broken(files: Files, expected: Files): set<string> {
    set name | name in expected && (name !in files || files[name] != expected[name])
  }

  predicate Intact(snapshots: Snapshots, path: Path, files: Files) {
    path in snapshots && Broken(snapshots[path], files) == {}
  }

  predicate Matches(m: Marker, c: Config) {
    m.modelId == c.modelId && (c.revision.None? || m.revision == c.revision.value)
  }

  function AlreadyPrepared(v: Volume, c: Config): Option<Marker> {
    if v.marker.Some? && Matches(v.marker.value, c) && v.marker.value.verified
       && Intact(v.snapshots, v.marker.value.path, v.marker.value.files)
    then v.marker else None
  }

  /** The hub's sizes, or those recorded by a verified preparation. */
  function AuthoritativeSizes(previous: Option<Marker>, hubSizes: Option<Files>): Option<Files> {
    if hubSizes.Some? && hubSizes.value != map[] then hubSizes
    else if previous.Some? && previous.value.verified && previous.value.files != map[] then Some(previous.value.files)
    else None
  }

  // ---- downloading ----

  datatype Download = Downloaded(path: Path, attempts: nat, volume: Volume) | Aborted(error: PreparationError, volume: Volume)

  function Fetch(hub: Hub, v: Volume): (FetchResult, Volume) {
    var f := hub(v.fetches, v.snapshots);
    (f.result, v.(snapshots := f.snapshots, fetches := v.fetches + 1))
  }

  function DownloadFrom(hub: Hub, c: Config, attempt: nat, v: Volume): Download
    decreases c.maxAttempts + 1 - attempt
  {
    if attempt > c.maxAttempts then Aborted(Exhausted, v) else
    var (result, next) := Fetch(hub, v);
    match result
    case Done(path) => Downloaded(path, attempt, next)
    case Quota => Aborted(OutOfQuota, next)
    case Transient => DownloadFrom(hub, c, attempt + 1, next)
  }

  function Discarded(v: Volume, path: Path, names: set<string>): Volume {
    if path in v.snapshots then v.(snapshots := v.snapshots[path := v.snapshots[path] - names]) else v
  }

  datatype Repair = Checked(path: Path, attempts: nat, verified: bool, volume: Volume) | Unrepaired(error: PreparationError, volume: Volume)

  function RepairUntilCorrect(s: Surroundings, c: Config, path: Path, expected: Option<Files>, attempts: nat, v: Volume): Repair {
    if expected.None? then Checked(path, attempts, false, v) else
    var broken := Broken(FilesAt(v.snapshots, path), expected.value);
    if broken == {} then Checked(path, attempts, true, v) else
    match DownloadFrom(s.hub, c, 1, Discarded(v, path, broken - s.stuck))
    case Aborted(error, w) => Unrepaired(error, w)
    case Downloaded(path2, retries, w) =>
      if Broken(FilesAt(w.snapshots, path2), expected.value) != {} then Unrepaired(StillBroken, w)
      else Checked(path2, attempts + retries, true, w)
  }

  function Record(c: Config, path: Path, verified: bool, v: Volume): Marker {
    Marker(c.modelId, path.name, path, FilesAt(v.snapshots, path), verified)
  }

  /** The section under the lock. */
  function PrepareLocked(s: Surroundings, c: Config, previous: Option<Marker>, v: Volume): Outcome {
    if AlreadyPrepared(v, c).Some? then Prepared(AlreadyPrepared(v, c).value, false, 0, v)
    else if !s.freeSpace then Failed(NoFreeSpace, v)
    else
      match DownloadFrom(s.hub, c, 1, v)
      case Aborted(error, w) => Failed(error, w)
      case Downloaded(path, attempts, w) =>
        match RepairUntilCorrect(s, c, path, AuthoritativeSizes(previous, s.hubSizes), attempts, w)
        case Unrepaired(error, u) => Failed(error, u)
        case Checked(final, total, verified, u) =>
          var state := Record(c, final, verified, u);
          Prepared(state, true, total, u.(marker := Some(state)))
  }

  function Prepare(s: Surroundings, c: Config, v: Volume, wait: Wait): Outcome {
    if AlreadyPrepared(v, c).Some? then Prepared(AlreadyPrepared(v, c).value, false, 0, v)
    else
      match wait
      case TimedOut(left) => Failed(LockTimeout, left)
      case Acquired(found) => PrepareLocked(s, c, v.marker, found)
  }

  // ---- the checks, file by file ----

  /** Every expected file is there with its size. */
  ghost predicate Right(files: Files, sizes: Files) {
    forall name :: name in sizes ==> name in files && files[name] == sizes[name]
  }

  lemma NothingBroken(files: Files, sizes: Files)
    ensures Broken(files, sizes) == {} <==> Right(files, sizes)
  {
    if Broken(files, sizes) == {} {
      forall name | name in sizes
        ensures name in files && files[name] == sizes[name]
      {
        assert name !in Broken(files, sizes);
      }
    }
  }

  /** The model is ready, exactly: a verified marker for this model, the revision
      unset or the marker's, and its snapshot with every recorded file intact. */
  lemma ReadyMeans(v: Volume, c: Config)
    ensures AlreadyPrepared(v, c).Some? <==>
      && v.marker.Some?
      && var m := v.marker.value;
         && m.verified && m.modelId == c.modelId && (c.revision == None || c.revision == Some(m.revision))
         && m.path in v.snapshots && Right(v.snapshots[m.path], m.files)
    ensures AlreadyPrepared(v, c).Some? ==> AlreadyPrepared(v, c) == v.marker
  {
    if v.marker.Some? && v.marker.value.path in v.snapshots {
      NothingBroken(v.snapshots[v.marker.value.path], v.marker.value.files);
    }
  }

  /** Sizes from outside the snapshot: the hub's when it reports any, otherwise
      those a verified preparation recorded, when it recorded any. */
  ghost predicate Truth(previous: Option<Marker>, hubSizes: Option<Files>, sizes: Files) {
    && sizes != map[]
    && (hubSizes == Some(sizes)
        || ((hubSizes == None || hubSizes == Some(map[]))
            && previous.Some? && previous.value.verified && previous.value.files == sizes))
  }

  lemma SizesMean(previous: Option<Marker>, hubSizes: Option<Files>, sizes: Files)
    ensures AuthoritativeSizes(previous, hubSizes) == Some(sizes) <==> Truth(previous, hubSizes, sizes)
  {
  }

  // ---- the retry loop, fetch by fetch ----

  ghost function VolumeAfter(hub: Hub, v: Volume, n: nat): Volume {
    if n == 0 then v else
    var u := VolumeAfter(hub, v, n - 1);
    Volume(u.marker, hub(u.fetches, u.snapshots).snapshots, u.fetches + 1)
  }

  ghost function Answer(hub: Hub, v: Volume, n: nat): FetchResult
    requires n > 0
  {
    hub(VolumeAfter(hub, v, n - 1).fetches, VolumeAfter(hub, v, n - 1).snapshots).result
  }

  /** The first `n` fetches all failed in passing. */
  ghost predicate OnlyTransient(hub: Hub, v: Volume, n: nat) {
    forall i :: 0 < i <= n ==> Answer(hub, v, i) == Transient
  }

  /** The `n`-th fetch is the first that did not fail in passing, and this is its answer. */
  ghost predicate Decides(hub: Hub, v: Volume, n: nat, result: FetchResult) {
    n > 0 && result != Transient && Answer(hub, v, n) == result && OnlyTransient(hub, v, n - 1)
  }

  ghost predicate RanOutOfDisk(hub: Hub, c: Config, v: Volume, w: Volume) {
    exists n: nat :: n <= c.maxAttempts && Decides(hub, v, n, Quota) && w == VolumeAfter(hub, v, n)
  }

  /** The loop ends with the first fetch that does not fail in passing: with its
      snapshot if it succeeded, with an error at once if the disk is full; and
      after the configured attempts otherwise. */
  ghost predicate Stops(hub: Hub, c: Config, v: Volume, d: Download) {
    match d
    case Downloaded(path, n, w) => n <= c.maxAttempts && Decides(hub, v, n, Done(path)) && w == VolumeAfter(hub, v, n)
    case Aborted(error, w) =>
      if error.OutOfQuota? then RanOutOfDisk(hub, c, v, w)
      else error.Exhausted? && OnlyTransient(hub, v, c.maxAttempts) && w == VolumeAfter(hub, v, c.maxAttempts)
  }

  lemma DownloadStops(hub: Hub, c: Config, v: Volume)
    ensures Stops(hub, c, v, DownloadFrom(hub, c, 1, v))
  {
    DownloadGoesOn(hub, c, v, 1);
  }

  lemma {:induction false} DownloadGoesOn(hub: Hub, c: Config, v: Volume, attempt: nat)
    requires 1 <= attempt <= c.maxAttempts + 1 && OnlyTransient(hub, v, attempt - 1)
    ensures Stops(hub, c, v, DownloadFrom(hub, c, attempt, VolumeAfter(hub, v, attempt - 1)))
    decreases c.maxAttempts + 1 - attempt
  {
    if attempt <= c.maxAttempts {
      var u, answer := VolumeAfter(hub, v, attempt - 1), Answer(hub, v, attempt);
      assert Fetch(hub, u) == (answer, VolumeAfter(hub, v, attempt));
      if answer == Transient {
        DownloadGoesOn(hub, c, v, attempt + 1);
      } else {
        assert Decides(hub, v, attempt, answer);
      }
    }
  }

  // ---- the one repair ----

  /** `clean` is `v` without the files of this snapshot that are wrong and can be removed. */
  ghost predicate Cleaned(v: Volume, clean: Volume, path: Path, sizes: Files, stuck: set<string>) {
    && clean.marker == v.marker && clean.fetches == v.fetches && clean.snapshots.Keys == v.snapshots.Keys
    && (forall p :: p in v.snapshots && p != path ==> clean.snapshots[p] == v.snapshots[p])
    && (path in v.snapshots ==>
          && (forall name :: name in clean.snapshots[path] <==>
                name in v.snapshots[path]
                && !(name in sizes && v.snapshots[path][name] != sizes[name] && name !in stuck))
          && (forall name :: name in clean.snapshots[path] ==> clean.snapshots[path][name] == v.snapshots[path][name]))
  }

  /** From the cleaned volume one more download, right after that or given up. */
  ghost predicate FetchedAgain(s: Surroundings, c: Config, sizes: Files, attempts: nat, clean: Volume, r: Repair) {
    match DownloadFrom(s.hub, c, 1, clean)
    case Aborted(error, w) => r == Unrepaired(error, w)
    case Downloaded(path, more, w) =>
      r == if Right(FilesAt(w.snapshots, path), sizes) then Checked(path, attempts + more, true, w) else Unrepaired(StillBroken, w)
  }

  ghost predicate CleanedAndFetchedAgain(s: Surroundings, c: Config, path: Path, sizes: Files, attempts: nat, v: Volume, r: Repair) {
    exists clean :: Cleaned(v, clean, path, sizes, s.stuck) && FetchedAgain(s, c, sizes, attempts, clean, r)
  }

  /** Without external sizes nothing is checked; with them a right snapshot is
      verified as it is, and a wrong one is cleaned and fetched once more. */
  lemma RepairMeans(s: Surroundings, c: Config, path: Path, expected: Option<Files>, attempts: nat, v: Volume)
    ensures var r := RepairUntilCorrect(s, c, path, expected, attempts, v);
      if expected.None? then r == Checked(path, attempts, false, v)
      else if Right(FilesAt(v.snapshots, path), expected.value) then r == Checked(path, attempts, true, v)
      else CleanedAndFetchedAgain(s, c, path, expected.value, attempts, v, r)
  {
    if expected.Some? {
      var sizes := expected.value;
      var files := FilesAt(v.snapshots, path);
      NothingBroken(files, sizes);
      if !Right(files, sizes) {
        var clean := Discarded(v, path, Broken(files, sizes) - s.stuck);
        assert Cleaned(v, clean, path, sizes, s.stuck);
        var d := DownloadFrom(s.hub, c, 1, clean);
        if d.Downloaded? {
          NothingBroken(FilesAt(d.volume.snapshots, d.path), sizes);
        }
        assert FetchedAgain(s, c, sizes, attempts, clean, RepairUntilCorrect(s, c, path, expected, attempts, v));
      }
    }
  }

  /** Why a call fails before it fetches, and with what it leaves the volume. */
  lemma EarlyFailures(s: Surroundings, c: Config, v: Volume, wait: Wait)
    requires AlreadyPrepared(v, c).None?
    ensures wait.TimedOut? ==> Prepare(s, c, v, wait) == Failed(LockTimeout, wait.left)
    ensures wait.Acquired? && AlreadyPrepared(wait.found, c).None? && !s.freeSpace ==>
      Prepare(s, c, v, wait) == Failed(NoFreeSpace, wait.found)
  {
  }

  // ---- what the loops do ----

  lemma {:induction false} DownloadIsBounded(hub: Hub, c: Config, attempt: nat, v: Volume)
    requires 1 <= attempt <= c.maxAttempts + 1
    ensures var d := DownloadFrom(hub, c, attempt, v);
      && d.volume.marker == v.marker
      && v.fetches <= d.volume.fetches <= v.fetches + (c.maxAttempts + 1 - attempt)
      && (d.Downloaded? ==> d.volume.fetches - v.fetches == d.attempts + 1 - attempt)
      && (attempt <= c.maxAttempts ==> d.volume.fetches > v.fetches)
    decreases c.maxAttempts + 1 - attempt
  {
    if attempt <= c.maxAttempts {
      DownloadIsBounded(hub, c, attempt + 1, Fetch(hub, v).1);
    }
  }

  /** One call fetches at most twice the configured attempts, reports how many
      it really made, and writes no marker when it fails. */
  lemma CallIsBounded(s: Surroundings, c: Config, v: Volume, wait: Wait)
    requires AlreadyPrepared(v, c).None? && wait.Acquired?
    ensures var o := Prepare(s, c, v, wait);
      && wait.found.fetches <= o.volume.fetches <= wait.found.fetches + 2 * c.maxAttempts
      && (o.Prepared? ==> o.attempts == o.volume.fetches - wait.found.fetches)
      && (o.Failed? ==> o.volume.marker == wait.found.marker)
  {
    var found := wait.found;
    DownloadIsBounded(s.hub, c, 1, found);
    var d := DownloadFrom(s.hub, c, 1, found);
    if d.Downloaded? {
      var expected := AuthoritativeSizes(v.marker, s.hubSizes);
      if expected.Some? {
        var broken := Broken(FilesAt(d.volume.snapshots, d.path), expected.value);
        DownloadIsBounded(s.hub, c, 1, Discarded(d.volume, d.path, broken - s.stuck));
      }
    }
  }

  /** Whatever a downloading call reports is what it wrote. It is marked verified
      exactly when an external truth was at hand, and then every expected file
      has its expected size. */
  lemma VerifiedMeansChecked(s: Surroundings, c: Config, v: Volume, wait: Wait)
    requires var o := Prepare(s, c, v, wait); o.Prepared? && o.downloaded
    ensures var o := Prepare(s, c, v, wait);
      var expected := AuthoritativeSizes(v.marker, s.hubSizes);
      && o.volume.marker == Some(o.state)
      && o.state.modelId == c.modelId && o.state.revision == o.state.path.name
      && o.state.files == FilesAt(o.volume.snapshots, o.state.path)
      && (o.state.verified <==> expected.Some?)
      && (o.state.verified <==> exists sizes :: Truth(v.marker, s.hubSizes, sizes))
      && (forall sizes :: Truth(v.marker, s.hubSizes, sizes) ==>
            o.state.path in o.volume.snapshots && Right(o.volume.snapshots[o.state.path], sizes))
      && (o.state.verified ==>
            && o.state.path in o.volume.snapshots
            && forall name :: name in expected.value ==>
                 name in o.volume.snapshots[o.state.path] && o.volume.snapshots[o.state.path][name] == expected.value[name])
  {
    var o := Prepare(s, c, v, wait);
    var expected := AuthoritativeSizes(v.marker, s.hubSizes);
    forall sizes
      ensures Truth(v.marker, s.hubSizes, sizes) <==> expected == Some(sizes)
    {
      SizesMean(v.marker, s.hubSizes, sizes);
    }
    if expected.Some? {
      assert Truth(v.marker, s.hubSizes, expected.value);
      var files := FilesAt(o.volume.snapshots, o.state.path);
      assert Broken(files, expected.value) == {};
      assert expected.value != map[];
      var some :| some in expected.value;
      assert some !in Broken(files, expected.value);
      forall name | name in expected.value
        ensures name in files && files[name] == expected.value[name]
      {
        assert name !in Broken(files, expected.value);
      }
    }
  }

  lemma NothingBrokenInItself(files: Files)
    ensures Broken(files, files) == {}
  {
  }

  /** After a preparation, on an unchanged volume, the model is reused exactly
      when it was verified and the revision is unset or names the snapshot. */
  lemma ReusedExactly(s: Surroundings, c: Config, v: Volume, wait: Wait, later: Config)
    requires var o := Prepare(s, c, v, wait); o.Prepared? && o.downloaded
    requires later.modelId == c.modelId
    ensures var o := Prepare(s, c, v, wait);
      && (AlreadyPrepared(o.volume, later).Some? <==>
            o.state.verified && (later.revision.None? || later.revision.value == o.state.path.name))
      && (AlreadyPrepared(o.volume, later).Some? ==> AlreadyPrepared(o.volume, later).value == o.state)
  {
    VerifiedMeansChecked(s, c, v, wait);
    NothingBrokenInItself(Prepare(s, c, v, wait).state.files);
  }

  /** A caller that finds the model ready, at once or once it gets the lock,
      fetches nothing and changes nothing. */
  lemma WarmCallFetchesNothing(s: Surroundings, c: Config, before: Volume, ready: Volume)
    requires AlreadyPrepared(ready, c).Some?
    ensures forall wait :: Prepare(s, c, ready, wait) == Prepared(ready.marker.value, false, 0, ready)
    ensures AlreadyPrepared(before, c).None? ==>
      Prepare(s, c, before, Acquired(ready)) == Prepared(ready.marker.value, false, 0, ready)
  {
  }

  /** A caller that does not, and has room and an attempt to make, does fetch. */
  lemma ColdCallFetches(s: Surroundings, c: Config, v: Volume)
    requires AlreadyPrepared(v, c).None? && s.freeSpace && c.maxAttempts >= 1
    ensures Prepare(s, c, v, Acquired(v)).volume.fetches > v.fetches
  {
    DownloadIsBounded(s.hub, c, 1, v);
    var d := DownloadFrom(s.hub, c, 1, v);
    if d.Downloaded? {
      var expected := AuthoritativeSizes(v.marker, s.hubSizes);
      if expected.Some? {
        var broken := Broken(FilesAt(d.volume.snapshots, d.path), expected.value);
        DownloadIsBounded(s.hub, c, 1, Discarded(d.volume, d.path, broken - s.stuck));
      }
    }
  }

  /** On the volume as a preparation left it, the next call fetches nothing if
      and only if that preparation was verified and the revision still fits. */
  lemma NextCallFetchesExactly(s: Surroundings, c: Config, v: Volume, wait: Wait, s2: Surroundings, later: Config)
    requires var o := Prepare(s, c, v, wait); o.Prepared? && o.downloaded
    requires later.modelId == c.modelId && s2.freeSpace && later.maxAttempts >= 1
    ensures var o := Prepare(s, c, v, wait);
      Prepare(s2, later, o.volume, Acquired(o.volume)).volume.fetches == o.volume.fetches <==>
        AuthoritativeSizes(v.marker, s.hubSizes).Some? && (later.revision.None? || later.revision.value == o.state.path.name)
  {
    var o := Prepare(s, c, v, wait);
    VerifiedMeansChecked(s, c, v, wait);
    ReusedExactly(s, c, v, wait, later);
    hide Prepare;
    if AlreadyPrepared(o.volume, later).Some? {
      WarmCallFetchesNothing(s2, later, o.volume, o.volume);
    } else {
      ColdCallFetches(s2, later, o.volume);
    }
  }

  /** However the files change afterwards, as long as the marker stands the
      model is reused only while every file it was checked against is right. */
  lemma ReuseIsStillCorrect(s: Surroundings, c: Config, v: Volume, wait: Wait, later: Config, now: Volume, name: string)
    requires var o := Prepare(s, c, v, wait); o.Prepared? && o.downloaded && o.state.verified && now.marker == Some(o.state)
    requires AlreadyPrepared(now, later).Some?
    ensures var o := Prepare(s, c, v, wait);
      var expected := AuthoritativeSizes(v.marker, s.hubSizes).value;
      name in expected ==> o.state.path in now.snapshots && name in now.snapshots[o.state.path] && now.snapshots[o.state.path][name] == expected[name]
  {
    VerifiedMeansChecked(s, c, v, wait);
    var o := Prepare(s, c, v, wait);
    assert name !in Broken(now.snapshots[o.state.path], o.state.files);
  }

  /** Any number of later calls that fit share the one download. */
  function Boots(calls: seq<(Surroundings, Config)>, v: Volume): Volume {
    if calls == [] then v else
    var before := Boots(calls[..|calls| - 1], v);
    var (s, c) := calls[|calls| - 1];
    Prepare(s, c, before, Acquired(before)).volume
  }

  lemma {:induction false} ReadyForAll(calls: seq<(Surroundings, Config)>, v: Volume)
    requires forall call :: call in calls ==> AlreadyPrepared(v, call.1).Some?
    ensures Boots(calls, v) == v
  {
    if calls != [] {
      var front := calls[..|calls| - 1];
      assert calls[|calls| - 1] in calls;
      assert forall call :: call in front ==> call in calls;
      ReadyForAll(front, v);
    }
  }

  /** Once a call has downloaded and verified a model, any number of later calls
      for it, with the revision unset or naming the snapshot, whatever their hub
      and disk, start no fetch and leave the volume as it is. */
  lemma OneDownloadServesAll(s: Surroundings, c: Config, v: Volume, wait: Wait, calls: seq<(Surroundings, Config)>)
    requires var o := Prepare(s, c, v, wait); o.Prepared? && o.downloaded && o.state.verified
    requires var path := Prepare(s, c, v, wait).state.path;
      forall call :: call in calls ==>
        call.1.modelId == c.modelId && (call.1.revision.None? || call.1.revision.value == path.name)
    ensures Boots(calls, Prepare(s, c, v, wait).volume) == Prepare(s, c, v, wait).volume
  {
    var o := Prepare(s, c, v, wait);
    forall call | call in calls
      ensures AlreadyPrepared(o.volume, call.1).Some?
    {
      ReusedExactly(s, c, v, wait, call.1);
    }
    ReadyForAll(calls, o.volume);
  }

  // ---- the procedures ----

  class ModelVolume {
    var marker: Option<Marker>
    var snapshots: Snapshots
    var fetches: nat

    constructor (v: Volume)
      ensures Contents() == v
    {
      marker, snapshots, fetches := v.marker, v.snapshots, v.fetches;
    }

    function Contents(): Volume reads this { Volume(marker, snapshots, fetches) }

    /** Collects every expected file that is absent or the wrong length. */
    method Mismatches(path: Path, expected: Files) returns (broken: set<string>)
      ensures broken == Broken(FilesAt(snapshots, path), expected)
    {
      broken := {};
      var files := FilesAt(snapshots, path);
      var todo := expected.Keys;
      while todo != {}
        invariant todo <= expected.Keys
        invariant broken == Broken(files, expected) - todo
        decreases |todo|
      {
        var name :| name in todo;
        if name !in files || files[name] != expected[name] {
          broken := broken + {name};
        }
        todo := todo - {name};
      }
    }

    method VerifySnapshot(path: Path, files: Files) returns (ok: bool)
      ensures ok <==> Intact(snapshots, path, files)
    {
      if path !in snapshots {
        return false;
      }
      var problems := Mismatches(path, files);
      return problems == {};
    }

    method AlreadyThere(c: Config) returns (found: Option<Marker>)
      ensures found == AlreadyPrepared(Contents(), c)
    {
      if marker.None? || !Matches(marker.value, c) || !marker.value.verified {
        return None;
      }
      var ok := VerifySnapshot(marker.value.path, marker.value.files);
      return if ok then marker else None;
    }

    method DownloadWithRetries(hub: Hub, c: Config) returns (r: Download)
      modifies this
      ensures r == DownloadFrom(hub, c, 1, old(Contents()))
      ensures Contents() == r.volume
    {
      var attempt := 1;
      while attempt <= c.maxAttempts
        invariant 1 <= attempt <= c.maxAttempts + 1
        invariant DownloadFrom(hub, c, attempt, Contents()) == DownloadFrom(hub, c, 1, old(Contents()))
      {
        var f := hub(fetches, snapshots);
        snapshots, fetches := f.snapshots, fetches + 1;
        match f.result {
          case Done(path) => return Downloaded(path, attempt, Contents());
          case Quota => return Aborted(OutOfQuota, Contents());
          case Transient => attempt := attempt + 1;
        }
      }
      return Aborted(Exhausted, Contents());
    }

    method Repaired(s: Surroundings, c: Config, path: Path, expected: Option<Files>, attempts: nat) returns (r: Repair)
      modifies this
      ensures r == RepairUntilCorrect(s, c, path, expected, attempts, old(Contents()))
      ensures Contents() == r.volume
    {
      if expected.None? {
        return Checked(path, attempts, false, Contents());
      }
      var broken := Mismatches(path, expected.value);
      if broken == {} {
        return Checked(path, attempts, true, Contents());
      }
      if path in snapshots {
        snapshots := snapshots[path := snapshots[path] - (broken - s.stuck)];
      }
      var d := DownloadWithRetries(s.hub, c);
      if d.Aborted? {
        return Unrepaired(d.error, d.volume);
      }
      broken := Mismatches(d.path, expected.value);
      if broken != {} {
        return Unrepaired(StillBroken, Contents());
      }
      return Checked(d.path, attempts + d.attempts, true, Contents());
    }

    method PrepareModel(s: Surroundings, c: Config, wait: Wait) returns (o: Outcome)
      modifies this
      ensures o == Prepare(s, c, old(Contents()), wait)
      ensures Contents() == o.volume
    {
      var previous := marker;
      var existing := AlreadyThere(c);
      if existing.Some? {
        return Prepared(existing.value, false, 0, Contents());
      }
      var left := if wait.TimedOut? then wait.left else wait.found;
      marker, snapshots, fetches := left.marker, left.snapshots, left.fetches;
      if wait.TimedOut? {
        return Failed(LockTimeout, Contents());
      }
      existing := AlreadyThere(c);
      if existing.Some? {
        return Prepared(existing.value, false, 0, Contents());
      }
      if !s.freeSpace {
        return Failed(NoFreeSpace, Contents());
      }
      var expected := AuthoritativeSizes(previous, s.hubSizes);
      var d := DownloadWithRetries(s.hub, c);
      if d.Aborted? {
        return Failed(d.error, d.volume);
      }
      var r := Repaired(s, c, d.path, expected, d.attempts);
      if r.Unrepaired? {
        return Failed(r.error, r.volume);
      }
      var state := Record(c, r.path, r.verified, r.volume);
      marker := Some(state);
      return Prepared(state, true, r.attempts, Contents());
    }
  }
}
