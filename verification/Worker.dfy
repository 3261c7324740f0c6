/** A registered worker: eligibility, occupancy and the READY/BUSY status kept in step with it. */
module Workers {
  import opened Common

  datatype WorkerStatus = Starting | Registering | Ready | Busy | Draining | Offline | Unhealthy {
    predicate AcceptsNewJobs() { Ready? || Busy? }
    predicate Unavailable() { Offline? || Unhealthy? }
  }

  datatype AgentRole = Planner | Coder | Reviewer

  datatype Capabilities = Capabilities(
    modelId: string, contextLength: int, maxConcurrency: int, roles: set<AgentRole>, tools: bool, jsonSchema: bool)
  {
    predicate Valid() { modelId != "" && contextLength > 0 && maxConcurrency >= 1 && roles != {} }
  }

  datatype Requirements = Requirements(
    role: AgentRole, modelId: Option<string>, promptTokens: nat, requiresTools: bool, requiresJsonSchema: bool)

  /** Ids stand for their text, which is what orders them. */
  datatype WorkerRecord = WorkerRecord(id: nat, status: WorkerStatus, activeJobs: nat, capabilities: Capabilities) {
    function AvailableSlots(): nat {
      if capabilities.maxConcurrency > activeJobs then capabilities.maxConcurrency - activeJobs else 0
    }

    predicate CanAccept(r: Requirements) {
      && status.AcceptsNewJobs()
      && AvailableSlots() > 0
      && r.role in capabilities.roles
      && (r.modelId.Some? ==> r.modelId.value == capabilities.modelId)
      && (r.requiresTools ==> capabilities.tools)
      && (r.requiresJsonSchema ==> capabilities.jsonSchema)
      && r.promptTokens <= capabilities.contextLength
    }
  }

  function SyncBusy(w: WorkerRecord): WorkerRecord {
    if !w.status.AcceptsNewJobs() then w
    else w.(status := if w.AvailableSlots() == 0 then Busy else Ready)
  }

  function ReserveSlot(w: WorkerRecord, r: Requirements): Result<WorkerRecord> {
    if !w.CanAccept(r) then Raised else Ok(SyncBusy(w.(activeJobs := w.activeJobs + 1)))
  }

  function ReleaseSlot(w: WorkerRecord): WorkerRecord {
    SyncBusy(w.(activeJobs := if w.activeJobs > 0 then w.activeJobs - 1 else 0))
  }

  function Heartbeat(w: WorkerRecord, status: Option<WorkerStatus>, load: Option<nat>, capabilities: Option<Capabilities>): WorkerRecord {
    var w1 := w.(
      capabilities := if capabilities.Some? then capabilities.value else w.capabilities,
      activeJobs := if load.Some? then load.value else w.activeJobs);
    var reported :=
      if status.Some? && status.value != w.status then status.value
      else if w.status.Unavailable() then Ready
      else w.status;
    SyncBusy(w1.(status := reported))
  }

  function StartDraining(w: WorkerRecord): Result<WorkerRecord> {
    if w.status.Draining? then Ok(w)
    else if w.status.Unavailable() then Raised
    else Ok(w.(status := Draining))
  }

  datatype WorkerCall =
    | Reserve(r: Requirements)
    | Release
    | Beat(status: Option<WorkerStatus>, load: Option<nat>, capabilities: Option<Capabilities>)
    | Drain
    | MarkOffline
    | MarkUnhealthy

  function Call(w: WorkerRecord, c: WorkerCall): WorkerRecord {
    match c
    case Reserve(r) => (match ReserveSlot(w, r) case Ok(n) => n case Raised => w)
    case Release => ReleaseSlot(w)
    case Beat(s, l, k) => Heartbeat(w, s, l, k)
    case Drain => (match StartDraining(w) case Ok(n) => n case Raised => w)
    case MarkOffline => w.(status := Offline)
    case MarkUnhealthy => w.(status := Unhealthy)
  }

  function Registered(id: nat, capabilities: Capabilities): WorkerRecord {
    WorkerRecord(id, Ready, 0, capabilities)
  }

  function Replay(start: WorkerRecord, calls: seq<WorkerCall>): WorkerRecord {
    if calls == [] then start else Call(Replay(start, calls[..|calls| - 1]), calls[|calls| - 1])
  }

  predicate ValidCall(c: WorkerCall) { c.Beat? && c.capabilities.Some? ==> c.capabilities.value.Valid() }

  /** READY has a free slot, BUSY has none. */
  predicate InStep(w: WorkerRecord) {
    && w.capabilities.Valid()
    && (w.status.Ready? ==> w.AvailableSlots() > 0)
    && (w.status.Busy? ==> w.AvailableSlots() == 0)
  }

  /** Over every sequence of calls the status says exactly whether a slot is
      free, so a busy worker never takes a job and a ready one lacks only a match. */
  lemma {:induction false} StatusTellsCapacity(id: nat, capabilities: Capabilities, calls: seq<WorkerCall>)
    requires capabilities.Valid() && forall c :: c in calls ==> ValidCall(c)
    ensures InStep(Replay(Registered(id, capabilities), calls))
    ensures forall r :: Replay(Registered(id, capabilities), calls).CanAccept(r) ==> Replay(Registered(id, capabilities), calls).status.Ready?
  {
    if calls != [] {
      var n := |calls| - 1;
      assert calls[n] in calls;
      StatusTellsCapacity(id, capabilities, calls[..n]);
      var w := Replay(Registered(id, capabilities), calls[..n]);
      assert InStep(Call(w, calls[n]));
    }
  }

  /** The job asks for nothing the worker does not offer. */
  ghost predicate Suits(k: Capabilities, r: Requirements) {
    && r.role in k.roles && r.promptTokens <= k.contextLength
    && !(r.requiresTools && !k.tools) && !(r.requiresJsonSchema && !k.jsonSchema)
    && (match r.modelId case None => true case Some(model) => model == k.modelId)
  }

  /** Over every sequence of calls a worker accepts exactly the jobs that suit it,
      exactly while it is READY. */
  lemma AcceptsWhenReady(id: nat, capabilities: Capabilities, calls: seq<WorkerCall>, r: Requirements)
    requires capabilities.Valid() && forall c :: c in calls ==> ValidCall(c)
    ensures var w := Replay(Registered(id, capabilities), calls);
      && (w.CanAccept(r) <==> w.status.Ready? && Suits(w.capabilities, r))
      && (w.status.Ready? ==> w.activeJobs < w.capabilities.maxConcurrency)
      && (w.status.Busy? ==> w.activeJobs >= w.capabilities.maxConcurrency)
  {
    StatusTellsCapacity(id, capabilities, calls);
    hide Replay;
  }

  /** What each call does to the record: only READY and BUSY follow the load, a
      worker given up on comes back with any heartbeat, and only one that is up
      can be drained. */
  lemma CallTable(w: WorkerRecord, call: WorkerCall)
    ensures Call(w, call) ==
      match call
      case Reserve(r) =>
        if (w.status.Ready? || w.status.Busy?) && w.activeJobs < w.capabilities.maxConcurrency && Suits(w.capabilities, r)
        then Levelled(w.(activeJobs := w.activeJobs + 1)) else w
      case Release => Levelled(w.(activeJobs := if w.activeJobs == 0 then 0 else w.activeJobs - 1))
      case Beat(status, load, capabilities) =>
        var back := w.status.Offline? || w.status.Unhealthy?;
        Levelled(WorkerRecord(
          w.id,
          if status == None || status == Some(w.status) then (if back then Ready else w.status) else status.value,
          if load.Some? then load.value else w.activeJobs,
          if capabilities.Some? then capabilities.value else w.capabilities))
      case Drain => if w.status.Offline? || w.status.Unhealthy? then w else w.(status := Draining)
      case MarkOffline => w.(status := Offline)
      case MarkUnhealthy => w.(status := Unhealthy)
  {
  }

  function Levelled(w: WorkerRecord): WorkerRecord {
    if w.status.Ready? || w.status.Busy?
    then w.(status := if w.activeJobs < w.capabilities.maxConcurrency then Ready else Busy) else w
  }

  /** A reservation given back leaves the worker as it was. */
  lemma ReserveThenRelease(w: WorkerRecord, r: Requirements)
    requires InStep(w)
    ensures ReserveSlot(w, r).Ok? <==> w.CanAccept(r)
    ensures ReserveSlot(w, r).Ok? ==> ReleaseSlot(ReserveSlot(w, r).value) == w
  {
  }

  /** The entity: the fields its methods update. */
  class Worker {
    const id: nat
    var capabilities: Capabilities
    var activeJobs: nat
    var status: WorkerStatus

    function Record(): WorkerRecord reads this { WorkerRecord(id, status, activeJobs, capabilities) }

    constructor (id: nat, capabilities: Capabilities)
      ensures Record() == Registered(id, capabilities)
    {
      this.id, this.capabilities, this.activeJobs, this.status := id, capabilities, 0, Ready;
    }

    method Sync()
      modifies this
      ensures Record() == SyncBusy(old(Record()))
    {
      if !status.AcceptsNewJobs() {
        return;
      }
      status := if Record().AvailableSlots() == 0 then Busy else Ready;
    }

    method Reserve(r: Requirements) returns (done: Result<()>)
      modifies this
      ensures done.Ok? <==> old(Record()).CanAccept(r)
      ensures Record() == Call(old(Record()), WorkerCall.Reserve(r))
    {
      if !Record().CanAccept(r) {
        return Raised;
      }
      activeJobs := activeJobs + 1;
      Sync();
      return Ok(());
    }

    method Release()
      modifies this
      ensures Record() == ReleaseSlot(old(Record()))
    {
      activeJobs := if activeJobs > 0 then activeJobs - 1 else 0;
      Sync();
    }

    method Beat(reported: Option<WorkerStatus>, load: Option<nat>, declared: Option<Capabilities>)
      modifies this
      ensures Record() == Heartbeat(old(Record()), reported, load, declared)
    {
      if declared.Some? {
        capabilities := declared.value;
      }
      if load.Some? {
        activeJobs := load.value;
      }
      var previous := status;
      if reported.Some? && reported.value != previous {
        status := reported.value;
      } else if previous.Unavailable() {
        status := Ready;
      }
      Sync();
    }
  }
}
