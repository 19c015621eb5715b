/**
 * Imaging requests and the task graph that carries them out
 * (`service/tasks/machine.py`).
 *
 * Celery signatures are modelled as data: a `Task` is an entry step with
 * the ordered list of callbacks linked to it, and a `Submission` is that
 * task with the error sink attached at `apply_async`. Database writes and
 * submissions are recorded, in order, in the event log of a `Backend`.
 */
module MachineTasks {
  import opened Wrappers

  /** The image-manager classes `prepare_manager` can return. */
  datatype ManagerClass = OSImageManager | EucaImageManager

  type Credentials = map<string, string>
  type ImagingArgs = map<string, string>

  /** What `prepare_manager` returns: source class and credentials, and the destination class (if any) and credentials. */
  datatype Managers = Managers(orig: ManagerClass, origCreds: Credentials, dest: Option<ManagerClass>, destCreds: Credentials)

  /** The steps a task graph is built from. */
  datatype Step =
    | FreezeInstanceStep(requestId: nat, instanceId: string)
    | MigrationStep(orig: ManagerClass, origCreds: Credentials, dest: ManagerClass, destCreds: Credentials, args: ImagingArgs)
    | ImagingStep(orig: ManagerClass, origCreds: Credentials, args: ImagingArgs)
    | ProcessRequestStep(requestId: nat)

  /** A signature: the step it runs and the callbacks linked to it, in link order. */
  datatype Task = Task(entry: Step, callbacks: seq<Step>)

  datatype ErrorSink = MachineRequestErrorSink(requestId: nat)

  /** A task handed to `apply_async` together with its `link_error` sink. */
  datatype Submission = Submission(task: Task, errorSink: ErrorSink)

  datatype PyError = NameError(name: string) | UnboundLocalError(name: string) | DoesNotExist

  /** Externally visible effects, in the order they happen. */
  datatype Effect = StatusSaved(requestId: nat, status: string) | Submitted(submission: Submission)

  const Processing := "processing"

  // ---------------------------------------------------------------------
  // The task graph

  /** A migration is chosen when a destination manager is given and its credentials differ from the source's. */
  predicate Migrates(m: Managers) {
    m.dest.Some? && m.destCreds != m.origCreds
  }

  predicate IsWork(s: Step) {
    s.MigrationStep? || s.ImagingStep?
  }

  /** Every step of a task: the entry, then the callbacks. */
  function Steps(t: Task): seq<Step> {
    [t.entry] + t.callbacks
  }

  function CountWork(steps: seq<Step>): nat {
    if steps == [] then 0 else (if IsWork(steps[0]) then 1 else 0) + CountWork(steps[1..])
  }

  /** The work steps of two step lists put together are those of each. */
  lemma {:induction false} CountWorkAppend(a: seq<Step>, b: seq<Step>)
    ensures CountWork(a + b) == CountWork(a) + CountWork(b)
  {
    if a == [] {
      assert a + b == b;
    } else {
      assert (a + b)[0] == a[0] && (a + b)[1..] == a[1..] + b;
      CountWorkAppend(a[1..], b);
    }
  }

  /** The one migration or imaging step the request calls for. */
  function WorkStep(m: Managers, args: ImagingArgs): Step {
    if Migrates(m) then MigrationStep(m.orig, m.origCreds, m.dest.value, m.destCreds, args)
    else ImagingStep(m.orig, m.origCreds, args)
  }

  /**
   * The task `start_machine_imaging` submits. Every link targets the entry
   * task, so when there is a freeze step, the work step and the
   * post-processing step are both callbacks of the freeze step.
   */
  function TaskGraph(requestId: nat, instanceId: string, m: Managers, args: ImagingArgs): (t: Task)
    ensures |t.callbacks| >= 1 && t.callbacks[|t.callbacks| - 1] == ProcessRequestStep(requestId)
    ensures t.entry.FreezeInstanceStep? <==> m.orig == OSImageManager
    ensures t.entry.FreezeInstanceStep? ==>
      t.entry == FreezeInstanceStep(requestId, instanceId) && t.callbacks == [WorkStep(m, args), ProcessRequestStep(requestId)]
    ensures !t.entry.FreezeInstanceStep? ==> t.entry == WorkStep(m, args) && t.callbacks == [ProcessRequestStep(requestId)]
    ensures CountWork(Steps(t)) == 1
    ensures (exists i :: 0 <= i < |Steps(t)| && Steps(t)[i].MigrationStep?) <==> Migrates(m)
  {
    var work := WorkStep(m, args);
    var finish := ProcessRequestStep(requestId);
    if m.orig == OSImageManager then
      var t := Task(FreezeInstanceStep(requestId, instanceId), [work, finish]);
      assert Steps(t) == [t.entry, work, finish];
      assert [t.entry, work, finish][1..] == [work, finish] && [work, finish][1..] == [finish] && [finish][1..] == [];
      assert CountWork([finish]) == 0;
      assert CountWork([work, finish]) == 1;
      assert Migrates(m) ==> Steps(t)[1].MigrationStep?;
      t
    else
      var t := Task(work, [finish]);
      assert Steps(t) == [work, finish];
      assert [work, finish][1..] == [finish] && [finish][1..] == [];
      assert CountWork([finish]) == 0;
      assert CountWork([work, finish]) == 1;
      assert Migrates(m) ==> Steps(t)[0].MigrationStep?;
      t
  }

  /** `init_task.link(s)`: add `s` as the last callback of the task. */
  function Link(t: Task, s: Step): (r: Task)
    ensures r.entry == t.entry
    ensures Steps(r) == Steps(t) + [s]
    ensures CountWork(Steps(r)) == CountWork(Steps(t)) + (if IsWork(s) then 1 else 0)
  {
    var r := t.(callbacks := t.callbacks + [s]);
    assert Steps(r) == Steps(t) + [s];
    CountWorkAppend(Steps(t), [s]);
    r
  }

  /** The chain construction of `start_machine_imaging`, with `init_task` starting out as no task. */
  method BuildImagingTasks(requestId: nat, instanceId: string, m: Managers, args: ImagingArgs) returns (t: Task)
    ensures t == TaskGraph(requestId, instanceId, m, args)
  {
    var initTask: Option<Task> := None;
    if m.orig == OSImageManager {
      var freezeTask := Task(FreezeInstanceStep(requestId, instanceId), []);
      initTask := Some(freezeTask);
    }
    if m.dest.Some? && m.destCreds != m.origCreds {
      var migrateTask := MigrationStep(m.orig, m.origCreds, m.dest.value, m.destCreds, args);
      if initTask.None? {
        initTask := Some(Task(migrateTask, []));
      } else {
        initTask := Some(Link(initTask.value, migrateTask));
      }
    } else {
      var imageTask := ImagingStep(m.orig, m.origCreds, args);
      if initTask.None? {
        initTask := Some(Task(imageTask, []));
      } else {
        initTask := Some(Link(initTask.value, imageTask));
      }
    }
    var processTask := ProcessRequestStep(requestId);
    t := Link(initTask.value, processTask);
  }

  /**
   * The chain construction as written: `init_task` is bound only inside
   * the OpenStack branch, so on any other source the test `not init_task`
   * raises before a task exists.
   */
  function TaskGraphAsWritten(requestId: nat, instanceId: string, m: Managers, args: ImagingArgs): (r: Result<Task, PyError>)
    ensures r.Err? <==> m.orig != OSImageManager
    ensures r.Ok? ==> r.value == TaskGraph(requestId, instanceId, m, args)
  {
    if m.orig == OSImageManager then Ok(TaskGraph(requestId, instanceId, m, args))
    else Err(UnboundLocalError("init_task"))
  }

  /** A Eucalyptus source: as written no task is built; with `init_task` starting as none, the imaging step is the entry. */
  lemma InitTaskUnboundOffOpenStack()
    ensures var m := Managers(EucaImageManager, map[], None, map[]);
      TaskGraphAsWritten(7, "i-1", m, map[]) == Err(UnboundLocalError("init_task")) &&
      TaskGraph(7, "i-1", m, map[]) == Task(ImagingStep(EucaImageManager, map[], map[]), [ProcessRequestStep(7)])
  {
  }

  // ---------------------------------------------------------------------
  // Requests and the backend

  /** The durable side: the status column of each request row, and the log of writes and submissions. */
  class Backend {
    var statuses: map<nat, string>
    var events: seq<Effect>

    constructor (statuses: map<nat, string>)
      ensures this.statuses == statuses && events == []
    {
      this.statuses := statuses;
      this.events := [];
    }
  }

  /** An imaging request as `start_machine_imaging` holds it; only its status changes. */
  class MachineRequest {
    const id: nat
    var status: string
    const instanceAlias: string
    const managers: Managers
    const imagingArgs: ImagingArgs
    const newMachineDescription: string
    const newMachineTags: string

    constructor (id: nat, status: string, instanceAlias: string, managers: Managers, imagingArgs: ImagingArgs, newMachineDescription: string, newMachineTags: string)
      ensures this.id == id && this.status == status && this.instanceAlias == instanceAlias
      ensures this.managers == managers && this.imagingArgs == imagingArgs
      ensures this.newMachineDescription == newMachineDescription && this.newMachineTags == newMachineTags
    {
      this.id := id;
      this.status := status;
      this.instanceAlias := instanceAlias;
      this.managers := managers;
      this.imagingArgs := imagingArgs;
      this.newMachineDescription := newMachineDescription;
      this.newMachineTags := newMachineTags;
    }

    /** `save()`: write the status column of this row. */
    method Save(db: Backend)
      modifies db
      ensures db.statuses == old(db.statuses)[id := status]
      ensures db.events == old(db.events) + [StatusSaved(id, status)]
    {
      db.statuses := db.statuses[id := status];
      db.events := db.events + [StatusSaved(id, status)];
    }
  }

  /** `start_machine_imaging`: mark the request processing, save it, then build and submit the task graph with its error sink. */
  method StartMachineImaging(req: MachineRequest, db: Backend) returns (s: Submission)
    modifies req`status, db
    ensures req.status == Processing
    ensures s == Submission(TaskGraph(req.id, req.instanceAlias, req.managers, req.imagingArgs), MachineRequestErrorSink(req.id))
    ensures db.statuses == old(db.statuses)[req.id := Processing]
    ensures db.events == old(db.events) + [StatusSaved(req.id, Processing), Submitted(s)]
  {
    req.status := Processing;
    req.Save(db);
    var initTask := BuildImagingTasks(req.id, req.instanceAlias, req.managers, req.imagingArgs);
    s := Submission(initTask, MachineRequestErrorSink(req.id));
    db.events := db.events + [Submitted(s)];
  }

  // ---------------------------------------------------------------------
  // Image metadata

  /** The metadata written after the first write of `{'deployed': 'True'}`: description and tags added only when the request has them. */
  function RequestMetadata(description: string, tags: string): (md: map<string, string>)
    ensures "deployed" in md && md["deployed"] == "True"
    ensures "description" in md <==> description != ""
    ensures "tags" in md <==> tags != ""
    ensures "description" in md ==> md["description"] == description
    ensures "tags" in md ==> md["tags"] == tags
    ensures md.Keys <= {"deployed", "description", "tags"}
  {
    var md := map["deployed" := "True"];
    var md := if description != "" then md["description" := description] else md;
    if tags != "" then md["tags" := tags] else md
  }

  /** The metadata writes the operation intends: none without metadata support, otherwise `deployed` first and then the full metadata. */
  function MetadataWrites(canSetMetadata: bool, description: string, tags: string): (w: seq<map<string, string>>)
    ensures w != [] <==> canSetMetadata
    ensures forall i :: 0 <= i < |w| ==> "deployed" in w[i] && w[i]["deployed"] == "True"
    ensures w != [] ==> w[|w| - 1] == RequestMetadata(description, tags)
  {
    if canSetMetadata then [map["deployed" := "True"], RequestMetadata(description, tags)] else []
  }

  /**
   * `set_machine_request_metadata`: choose the destination manager when
   * there is one and the source manager otherwise; when that manager's
   * driver can set image metadata, write `{'deployed': 'True'}` and then the
   * full metadata. `writes` lists the metadata of each write in order.
   */
  method SetMachineRequestMetadata(req: MachineRequest, hasSetMetadata: ManagerClass -> bool)
    returns (manager: ManagerClass, creds: Credentials, writes: seq<map<string, string>>)
    ensures req.managers.dest.None? ==> manager == req.managers.orig && creds == req.managers.origCreds
    ensures req.managers.dest.Some? ==> manager == req.managers.dest.value && creds == req.managers.destCreds
    ensures !hasSetMetadata(manager) ==> writes == []
    ensures hasSetMetadata(manager) ==>
      writes == [map["deployed" := "True"], RequestMetadata(req.newMachineDescription, req.newMachineTags)]
    ensures writes == MetadataWrites(hasSetMetadata(manager), req.newMachineDescription, req.newMachineTags)
  {
    if req.managers.dest.None? {
      manager, creds := req.managers.orig, req.managers.origCreds;
    } else {
      manager, creds := req.managers.dest.value, req.managers.destCreds;
    }
    writes := [];
    if !hasSetMetadata(manager) {
      return;
    }
    writes := writes + [map["deployed" := "True"]];
    var metadata := map["deployed" := "True"];
    if req.newMachineDescription != "" {
      metadata := metadata["description" := req.newMachineDescription];
    }
    if req.newMachineTags != "" {
      metadata := metadata["tags" := req.newMachineTags];
    }
    writes := writes + [metadata];
  }

  /**
   * `set_machine_request_metadata` as written: its first test reads
   * `new_manager`, a name it never binds (the unpacked name is
   * `new_managerCls`), so it raises before it writes anything; further on it
   * also extends a dictionary `metadata` that it never creates.
   */
  function MetadataWritesAsWritten(canSetMetadata: bool, description: string, tags: string): (r: Result<seq<map<string, string>>, PyError>)
    ensures r.Err?
  {
    Err(NameError("new_manager"))
  }

  /** For every request, the writes as written differ from the intended writes; with metadata support, the image is never marked deployed. */
  lemma MetadataNeverWritten(canSetMetadata: bool, description: string, tags: string)
    ensures MetadataWritesAsWritten(canSetMetadata, description, tags) != Ok(MetadataWrites(canSetMetadata, description, tags))
    ensures canSetMetadata ==> MetadataWrites(canSetMetadata, description, tags) != []
  {
  }

  // ---------------------------------------------------------------------
  // Freezing the source instance

  datatype DeployScript = SyncInstance | FreezeInstance

  /** The values the deploy keyword arguments hold. */
  datatype DeployArg = Text(text: string) | Number(number: int) | Script(script: DeployScript)

  /** `driver.deploy_to(...)` runs at once; `deploy_to.delay(...)` is queued. */
  datatype DeployMode = Immediate | Queued

  datatype DeployCall = DeployCall(mode: DeployMode, instanceId: string, kwargs: map<string, DeployArg>)

  const DeployTimeout := 120
  const SshKeyPath := "/opt/dev/atmosphere/extras/ssh/id_rsa"

  /** The keyword arguments of a deploy of `script`. */
  predicate DeployKwargs(kwargs: map<string, DeployArg>, script: DeployScript) {
    kwargs.Keys == {"ssh_key", "timeout", "deploy"} &&
    kwargs["ssh_key"] == Text(SshKeyPath) &&
    kwargs["timeout"] == Number(DeployTimeout) &&
    kwargs["deploy"] == Script(script)
  }

  /** `freeze_instance_task`: deploy the sync script at once, then queue the freeze script, both with the same key and timeout. */
  method FreezeInstanceTask(instanceId: string) returns (calls: seq<DeployCall>)
    ensures |calls| == 2
    ensures calls[0].mode == Immediate && DeployKwargs(calls[0].kwargs, SyncInstance)
    ensures calls[1].mode == Queued && DeployKwargs(calls[1].kwargs, FreezeInstance)
    ensures calls[0].instanceId == instanceId && calls[1].instanceId == instanceId
  {
    var kwargs: map<string, DeployArg> := map[];
    kwargs := kwargs["ssh_key" := Text(SshKeyPath)];
    kwargs := kwargs["timeout" := Number(DeployTimeout)];
    kwargs := kwargs["deploy" := Script(SyncInstance)];
    calls := [DeployCall(Immediate, instanceId, kwargs)];
    kwargs := kwargs["deploy" := Script(FreezeInstance)];
    calls := calls + [DeployCall(Queued, instanceId, kwargs)];
  }

  // ---------------------------------------------------------------------
  // The error sink

  /** The diagnostic the error sink stores: the failed task, its exception and its traceback, each already rendered with `%r`. */
  function ErrorReport(taskId: string, exc: string, traceback: string): (r: string)
    ensures r != Processing
  {
    "Task " + taskId + " raised exception: " + exc + "\n" + traceback
  }

  /** The status table the error sink intends to leave: the diagnostic stored as the status of the request, which must exist. */
  function ErrorSinkSpec(statuses: map<nat, string>, resultUuid: string, requestId: nat, exc: string, traceback: string): (r: Result<map<nat, string>, PyError>)
    ensures r.Ok? <==> requestId in statuses
    ensures r.Err? ==> r.error == DoesNotExist
    ensures r.Ok? ==>
      r.value.Keys == statuses.Keys && r.value[requestId] != Processing &&
      forall k :: k in statuses && k != requestId ==> r.value[k] == statuses[k]
  {
    if requestId in statuses then Ok(statuses[requestId := ErrorReport(resultUuid, exc, traceback)]) else Err(DoesNotExist)
  }

  /** `machine_request_error`: store the diagnostic of the failed task as the status of the request, which must exist. */
  method MachineRequestError(db: Backend, resultUuid: string, requestId: nat, exc: string, traceback: string) returns (r: Result<string, PyError>)
    modifies db
    ensures requestId in old(db.statuses) ==>
      r == Ok(ErrorReport(resultUuid, exc, traceback)) &&
      db.statuses == old(db.statuses)[requestId := ErrorReport(resultUuid, exc, traceback)] &&
      db.events == old(db.events) + [StatusSaved(requestId, ErrorReport(resultUuid, exc, traceback))]
    ensures requestId !in old(db.statuses) ==>
      r == Err(DoesNotExist) && db.statuses == old(db.statuses) && db.events == old(db.events)
    ensures match ErrorSinkSpec(old(db.statuses), resultUuid, requestId, exc, traceback)
      case Ok(st) => r.Ok? && db.statuses == st
      case Err(e) => r == Err(e) && db.statuses == old(db.statuses)
  {
    var errStr := ErrorReport(resultUuid, exc, traceback);
    if requestId !in db.statuses {
      return Err(DoesNotExist);
    }
    db.statuses := db.statuses[requestId := errStr];
    db.events := db.events + [StatusSaved(requestId, errStr)];
    r := Ok(errStr);
  }

  /**
   * The error sink as written: it reads a name `uuid` that the module never
   * binds, so it raises before it reaches the status write (and its format
   * string has three conversions for two values besides).
   */
  function ErrorSinkAsWritten(statuses: map<nat, string>, resultUuid: string, requestId: nat, exc: string, traceback: string): (r: Result<map<nat, string>, PyError>)
    ensures r.Err?
  {
    Err(NameError("uuid"))
  }

  /** For every failure, the sink as written does not leave the intended status table: it raises where the intended sink writes, and raises a different error where the request is missing. */
  lemma ErrorSinkDiffers(statuses: map<nat, string>, resultUuid: string, requestId: nat, exc: string, traceback: string)
    ensures ErrorSinkAsWritten(statuses, resultUuid, requestId, exc, traceback) != ErrorSinkSpec(statuses, resultUuid, requestId, exc, traceback)
    ensures requestId in statuses ==> ErrorSinkSpec(statuses, resultUuid, requestId, exc, traceback).Ok?
  {
  }

  /** A request left processing: as written it stays processing after a failure; the intended sink records the failure. */
  lemma ErrorSinkCounterexample()
    ensures var statuses := map[1 := Processing];
      ErrorSinkAsWritten(statuses, "t-1", 1, "e", "tb").Err? &&
      statuses[1] == Processing &&
      ErrorSinkSpec(statuses, "t-1", 1, "e", "tb").Ok? &&
      ErrorSinkSpec(statuses, "t-1", 1, "e", "tb").value[1] != Processing
  {
  }
}
