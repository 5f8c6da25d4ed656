/** The validator that an instance publishes into the current context's folder and task,
    and its repair action, which moves the created instance into that context. */
module ValidateInstanceInContext {
  import opened Wrappers

  /** The folder path and task of a publish context (or of an instance); the instance
      entries may be absent, and a task may be unset, so both are optional. */
  datatype Target = Target(folderPath: Option<string>, task: Option<string>)

  /** The publish context's `data`. */
  datatype PublishContext = PublishContext(folderPath: Option<string>, task: Option<string>)

  datatype Outcome =
    | Skipped
    | Passed
    /** `PublishValidationError`: the instance's target and the context's. */
    | WrongContext(instance: Target, context: Target)

  /** `get_context`: the context's folder path and task. */
  function GetContext(ctx: PublishContext): (r: Target)
    ensures r.folderPath == ctx.folderPath && r.task == ctx.task
  {
    Target(ctx.folderPath, ctx.task)
  }

  /** `process`: an inactive instance is never rejected; an active one is rejected exactly
      when its folder path or its task differs from the context's. */
  function Check(active: bool, instance: Target, ctx: PublishContext): (r: Outcome)
    ensures !active ==> r == Skipped
    ensures active ==> (r.WrongContext? <==> instance.folderPath != ctx.folderPath || instance.task != ctx.task)
    ensures active && !r.WrongContext? ==> r == Passed
    ensures r.WrongContext? ==> r.instance == instance && r.context == GetContext(ctx)
  {
    if !active then Skipped
    else if instance != GetContext(ctx) then WrongContext(instance, GetContext(ctx))
    else Passed
  }

  /** A created instance of the create context: the two entries `repair` writes. */
  class CreatedInstance {
    var folderPath: Option<string>
    var task: Option<string>

    constructor (folderPath: Option<string>, task: Option<string>)
      ensures this.folderPath == folderPath && this.task == task
    {
      this.folderPath := folderPath;
      this.task := task;
    }

    function AsTarget(): Target
      reads this
    {
      Target(folderPath, task)
    }
  }

  /** The create context: created instances by id, and how often changes were saved. */
  class CreateContext {
    var instances: map<string, CreatedInstance>
    var saveCount: nat

    constructor (instances: map<string, CreatedInstance>)
      ensures this.instances == instances && saveCount == 0
    {
      this.instances := instances;
      saveCount := 0;
    }

    /** `save_changes`, which the model only counts. */
    method SaveChanges()
      modifies this
      ensures instances == old(instances) && saveCount == old(saveCount) + 1
    {
      saveCount := saveCount + 1;
    }
  }

  datatype RepairOutcome =
    | Repaired
    /** A `KeyError`: the instance data holds no `instance_id`. */
    | MissingInstanceId
    /** `get_instance_by_id` found nothing, so the assignment fails. */
    | UnknownInstance(id: string)

  /** `repair`: the created instance gets the context's folder path and task, and the
      changes are saved; every other created instance is left alone. */
  method Repair(cc: CreateContext, instanceId: Option<string>, ctx: PublishContext) returns (r: RepairOutcome)
    modifies cc, cc.instances.Values
    ensures cc.instances == old(cc.instances)
    ensures instanceId.None? ==> r == MissingInstanceId
    ensures instanceId.Some? && instanceId.value !in old(cc.instances) ==> r == UnknownInstance(instanceId.value)
    ensures instanceId.Some? && instanceId.value in old(cc.instances) <==> r == Repaired
    ensures r == Repaired ==>
              var created := cc.instances[instanceId.value];
              && created.AsTarget() == GetContext(ctx)
              && Check(true, created.AsTarget(), ctx) == Passed
              && cc.saveCount == old(cc.saveCount) + 1
    ensures r != Repaired ==> cc.saveCount == old(cc.saveCount)
    ensures r == Repaired ==> forall id :: id in cc.instances && cc.instances[id] != cc.instances[instanceId.value] ==>
              cc.instances[id].AsTarget() == old(cc.instances[id].AsTarget())
    ensures r != Repaired ==> forall id :: id in cc.instances ==> cc.instances[id].AsTarget() == old(cc.instances[id].AsTarget())
  {
    var context := GetContext(ctx);
    if instanceId.None? {
      return MissingInstanceId;
    }
    var id := instanceId.value;
    if id !in cc.instances {
      return UnknownInstance(id);
    }
    var created := cc.instances[id];
    created.folderPath := context.folderPath;
    created.task := context.task;
    cc.SaveChanges();
    r := Repaired;
  }
}
