/**
  * The task ledger: compute tasks with a bounty reserved against their creator, a lifecycle
  * Pending -> Recruiting -> Running (-> Validating, set outside this pallet) -> Completed,
  * cancellation from Pending or Recruiting, and a (task, provider) membership map capped at
  * the task's `max_providers`.
  */
module TaskRegistry {
  import opened Frame
  import opened Currency

  const MINIMUM_BOUNTY: nat := 10 * GLIN
  const MAX_PROVIDERS_PER_TASK: nat := 100
  const MAX_NAME_LEN: nat := 255
  const MAX_IPFS_HASH_LEN: nat := 64

  /** The pallet's sovereign account (PalletId "py/tasks"), which receives completed bounties. */
  const ESCROW: AccountId := PalletAccount("py/tasks")

  datatype TaskStatus = Pending | Recruiting | Running | Validating | Completed | Failed | Cancelled

  datatype ModelType = ResNet | Bert | Gpt | Custom | LoraFineTune

  datatype HardwareRequirements = HardwareRequirements(minVramGb: nat, minComputeCapability: nat, minBandwidthMbps: nat)

  datatype Task = Task(
    creator: AccountId,
    name: seq<byte>,
    modelType: ModelType,
    bounty: nat,
    minProviders: nat,
    maxProviders: nat,
    status: TaskStatus,
    createdAt: nat,
    completedAt: Option<nat>,
    ipfsHash: seq<byte>,
    hardwareRequirements: HardwareRequirements)

  datatype TaskError =
    | TaskNotFound | BountyTooLow | InvalidHardwareRequirements | TaskAlreadyExists | InvalidTaskStatus
    | TooManyProviders | ProviderAlreadyJoined | NotTaskCreator | TaskAlreadyStarted | NameTooLong | IpfsHashTooLong

  type Membership = map<(Hash, AccountId), bool>

  /** The (task, provider) keys whose "joined" flag is set for task `id`. */
  function Memberships(m: Membership, id: Hash): set<(Hash, AccountId)>
  {
    set k | k in m.Keys && k.0 == id && m[k]
  }

  /** The joined memberships of task `id` among the keys in `seen`. */
  function JoinedAmong(m: Membership, id: Hash, seen: set<(Hash, AccountId)>): set<(Hash, AccountId)>
    requires seen <= m.Keys
  {
    set k | k in seen && k.0 == id && m[k]
  }

  /** Visiting one more key adds it to the joined memberships exactly when it is a joined one of `id`. */
  lemma JoinedAmongStep(m: Membership, id: Hash, seen: set<(Hash, AccountId)>, k: (Hash, AccountId))
    requires seen <= m.Keys && k in m.Keys && k !in seen
    ensures |JoinedAmong(m, id, seen + {k})| == |JoinedAmong(m, id, seen)| + if k.0 == id && m[k] then 1 else 0
  {
    if k.0 == id && m[k] {
      assert JoinedAmong(m, id, seen + {k}) == JoinedAmong(m, id, seen) + {k};
    } else {
      assert JoinedAmong(m, id, seen + {k}) == JoinedAmong(m, id, seen);
    }
  }

  /** The number of providers that have joined task `id` (the `iter_prefix` count of `join_task`). */
  method CountJoined(m: Membership, id: Hash) returns (n: nat)
    ensures n == |Memberships(m, id)|
  {
    var seen: set<(Hash, AccountId)> := {};
    n := 0;
    while seen != m.Keys
      invariant seen <= m.Keys
      invariant n == |JoinedAmong(m, id, seen)|
      decreases |m.Keys - seen|
    {
      var k :| k in m.Keys - seen;
      JoinedAmongStep(m, id, seen, k);
      if k.0 == id && m[k] {
        n := n + 1;
      }
      seen := seen + {k};
    }
    assert JoinedAmong(m, id, seen) == Memberships(m, id);
  }

  /** The id a task created by `creator` gets when the task counter is `count`. */
  function TaskIdFor(creator: AccountId, count: nat): Hash
  {
    HashOfTask(creator, count)
  }

  /** What every stored task satisfies: the checks `create_task` made, and completion bookkeeping. */
  ghost predicate WellFormed(t: Task)
  {
    && 0 < t.minProviders <= t.maxProviders <= MAX_PROVIDERS_PER_TASK
    && MINIMUM_BOUNTY <= t.bounty
    && |t.name| <= MAX_NAME_LEN && |t.ipfsHash| <= MAX_IPFS_HASH_LEN
    && (t.status == Completed <==> t.completedAt.Some?)
  }

  /**
    * `complete_task`'s balance movement: unreserve the bounty, then transfer it to the escrow.
    * When the whole bounty is reserved it moves exactly the bounty from the creator's
    * reservation to the escrow's free balance and leaves the creator's free balance as it was.
    */
  function MoveBountyToEscrow(b: Balances, creator: AccountId, bounty: nat): (r: Result<Balances, BalancesError>)
    requires creator != ESCROW
    ensures r.Failure? <==> 0 < bounty && Free(b, creator) + Min(bounty, Reserved(b, creator)) < bounty
    ensures r.Success? ==>
      && Reserved(r.value, creator) == Reserved(b, creator) - Min(bounty, Reserved(b, creator))
      && Free(r.value, creator) + bounty == Free(b, creator) + Min(bounty, Reserved(b, creator))
      && Free(r.value, ESCROW) == Free(b, ESCROW) + bounty
      && Reserved(r.value, ESCROW) == Reserved(b, ESCROW)
    ensures r.Success? && bounty <= Reserved(b, creator) ==>
      Reserved(r.value, creator) + bounty == Reserved(b, creator) && Free(r.value, creator) == Free(b, creator)
    ensures r.Success? ==> forall a :: a != creator && a != ESCROW ==> Free(r.value, a) == Free(b, a) && Reserved(r.value, a) == Reserved(b, a)
  {
    Transfer(Unreserve(b, creator, bounty).0, creator, ESCROW, bounty)
  }

  lemma MoveBountyToEscrowConserves(b: Balances, creator: AccountId, bounty: nat)
    requires creator != ESCROW && MoveBountyToEscrow(b, creator, bounty).Success?
    ensures TotalIssuance(MoveBountyToEscrow(b, creator, bounty).value) == TotalIssuance(b)
  {
    UnreserveConserves(b, creator, bounty);
    TransferConserves(Unreserve(b, creator, bounty).0, creator, ESCROW, bounty);
  }

  lemma MembershipsAfterJoin(m: Membership, id: Hash, who: AccountId)
    requires !((id, who) in m && m[(id, who)])
    ensures Memberships(m[(id, who) := true], id) == Memberships(m, id) + {(id, who)}
    ensures (id, who) !in Memberships(m, id)
    ensures forall other :: other != id ==> Memberships(m[(id, who) := true], other) == Memberships(m, other)
  {
  }

  /** What one task and its memberships satisfy: the cap, no members before recruiting, Running only at `min_providers`. */
  ghost predicate TaskInvariant(t: Task, joined: nat, noMembers: bool)
  {
    && WellFormed(t)
    && joined <= t.maxProviders
    && (t.status == Pending ==> noMembers)
    && (t.status == Running ==> t.minProviders <= joined)
  }

  /** The storage invariant: memberships only for stored tasks, and each task's invariant. */
  ghost predicate ValidStorage(tasks: map<Hash, Task>, m: Membership)
  {
    && (forall k :: k in m ==> k.0 in tasks)
    && (forall id :: id in tasks ==> TaskInvariant(tasks[id], |Memberships(m, id)|, Memberships(m, id) == {}))
  }

  /** A successful join keeps the storage invariant. */
  lemma JoinKeepsValid(tasks: map<Hash, Task>, m: Membership, id: Hash, who: AccountId)
    requires ValidStorage(tasks, m) && id in tasks && tasks[id].status == Recruiting
    requires !((id, who) in m && m[(id, who)])
    requires |Memberships(m, id)| < tasks[id].maxProviders
    ensures var m' := m[(id, who) := true];
      var tasks' := if tasks[id].minProviders <= |Memberships(m', id)| then tasks[id := tasks[id].(status := Running)] else tasks;
      ValidStorage(tasks', m')
  {
    var m' := m[(id, who) := true];
    var tasks' := if tasks[id].minProviders <= |Memberships(m', id)| then tasks[id := tasks[id].(status := Running)] else tasks;
    MembershipsAfterJoin(m, id, who);
    forall other | other in tasks'
      ensures TaskInvariant(tasks'[other], |Memberships(m', other)|, Memberships(m', other) == {})
    {
      if other != id {
        assert Memberships(m', other) == Memberships(m, other);
        assert tasks'[other] == tasks[other];
      }
    }
  }

  /** As written, `create_task` stores the new task under its id even when that id is taken. */
  function CreateTaskStorageAsWritten(tasks: map<Hash, Task>, count: nat, task: Task): (r: (map<Hash, Task>, nat))
    requires count <= U32_MAX
    ensures r.0.Keys == tasks.Keys + {TaskIdFor(task.creator, count)}
    ensures r.0[TaskIdFor(task.creator, count)] == task
    ensures r.1 == if count < U32_MAX then count + 1 else U32_MAX
  {
    (tasks[TaskIdFor(task.creator, count) := task], SaturatingAdd(count, 1, U32_MAX))
  }

  /**
    * Once the u32 task counter is saturated, a second task created by the same account gets
    * the same id as the first and replaces it in storage; the first bounty stays reserved
    * with no task left to cancel or complete.
    */
  lemma AsWrittenSecondTaskReplacesFirst(tasks: map<Hash, Task>, first: Task, second: Task)
    requires first.creator == second.creator && first != second
    ensures var (t1, c1) := CreateTaskStorageAsWritten(tasks, U32_MAX, first);
      var (t2, c2) := CreateTaskStorageAsWritten(t1, c1, second);
      && c1 == c2 == U32_MAX
      && t2.Keys == t1.Keys
      && t2[TaskIdFor(first.creator, U32_MAX)] == second
      && t1[TaskIdFor(first.creator, U32_MAX)] == first
  {
  }

  class TaskRegistry {
    var tasks: map<Hash, Task>
    var taskCount: nat
    var taskProviders: Membership

    ghost predicate Valid()
      reads this
    {
      taskCount <= U32_MAX && ValidStorage(tasks, taskProviders)
    }

    constructor ()
      ensures Valid() && tasks == map[] && taskCount == 0 && taskProviders == map[]
    {
      tasks, taskCount, taskProviders := map[], 0, map[];
    }

    /** `create_task` (with the task-id collision check; see `CreateTaskStorageAsWritten`). */
    method CreateTask(origin: Origin, name: seq<byte>, modelType: ModelType, bounty: nat, minProviders: nat,
                      maxProviders: nat, ipfsHash: seq<byte>, hardwareRequirements: HardwareRequirements,
                      now: nat, bal: Balances)
      returns (res: DispatchResult<TaskError>, bal': Balances)
      requires Valid()
      modifies this
      ensures Valid()
      ensures res == (
        if !origin.Signed? then Err(BadOrigin)
        else if bounty < MINIMUM_BOUNTY then Err(Module(BountyTooLow))
        else if MAX_PROVIDERS_PER_TASK < maxProviders then Err(Module(TooManyProviders))
        else if !(0 < minProviders <= maxProviders) then Err(Module(InvalidHardwareRequirements))
        else if Free(bal, origin.who) < bounty then Err(Currency(InsufficientBalance))
        else if TaskIdFor(origin.who, old(taskCount)) in old(tasks) then Err(Module(TaskAlreadyExists))
        else if MAX_NAME_LEN < |name| then Err(Module(NameTooLong))
        else if MAX_IPFS_HASH_LEN < |ipfsHash| then Err(Module(IpfsHashTooLong))
        else Ok)
      ensures res.Err? ==> unchanged(this) && bal' == bal
      ensures res.Ok? ==>
        && tasks == old(tasks)[TaskIdFor(origin.who, old(taskCount)) :=
             Task(origin.who, name, modelType, bounty, minProviders, maxProviders, Pending, now, None, ipfsHash, hardwareRequirements)]
        && taskCount == SaturatingAdd(old(taskCount), 1, U32_MAX)
        && taskProviders == old(taskProviders)
        && bal' == Reserve(bal, origin.who, bounty).value
      ensures forall id :: id in old(tasks) ==> id in tasks && tasks[id] == old(tasks)[id]
    {
      bal' := bal;
      if !origin.Signed? { return Err(BadOrigin), bal'; }
      var creator := origin.who;
      if bounty < MINIMUM_BOUNTY { return Err(Module(BountyTooLow)), bal'; }
      if MAX_PROVIDERS_PER_TASK < maxProviders { return Err(Module(TooManyProviders)), bal'; }
      if !(0 < minProviders <= maxProviders) { return Err(Module(InvalidHardwareRequirements)), bal'; }
      var reserved := Reserve(bal, creator, bounty);
      if reserved.Failure? { return Err(Currency(reserved.error)), bal'; }
      var id := TaskIdFor(creator, taskCount);
      if id in tasks { return Err(Module(TaskAlreadyExists)), bal'; }
      if MAX_NAME_LEN < |name| { return Err(Module(NameTooLong)), bal'; }
      if MAX_IPFS_HASH_LEN < |ipfsHash| { return Err(Module(IpfsHashTooLong)), bal'; }
      var task := Task(creator, name, modelType, bounty, minProviders, maxProviders, Pending, now, None, ipfsHash, hardwareRequirements);
      assert Memberships(taskProviders, id) == {};
      tasks := tasks[id := task];
      taskCount := SaturatingAdd(taskCount, 1, U32_MAX);
      res, bal' := Ok, reserved.value;
    }

    /** `start_recruiting`: the creator moves a Pending task to Recruiting; nothing else changes. */
    method StartRecruiting(origin: Origin, id: Hash) returns (res: DispatchResult<TaskError>)
      requires Valid()
      modifies this
      ensures Valid()
      ensures res == (
        if !origin.Signed? then Err(BadOrigin)
        else if id !in old(tasks) then Err(Module(TaskNotFound))
        else if old(tasks)[id].creator != origin.who then Err(Module(NotTaskCreator))
        else if old(tasks)[id].status != Pending then Err(Module(InvalidTaskStatus))
        else Ok)
      ensures res.Err? ==> unchanged(this)
      ensures res.Ok? ==>
        && tasks == old(tasks)[id := old(tasks)[id].(status := Recruiting)]
        && taskCount == old(taskCount) && taskProviders == old(taskProviders)
    {
      if !origin.Signed? { return Err(BadOrigin); }
      if id !in tasks { return Err(Module(TaskNotFound)); }
      var task := tasks[id];
      if task.creator != origin.who { return Err(Module(NotTaskCreator)); }
      if task.status != Pending { return Err(Module(InvalidTaskStatus)); }
      tasks := tasks[id := task.(status := Recruiting)];
      res := Ok;
    }

    /** `cancel_task`: the creator cancels a Pending or Recruiting task and gets the bounty unreserved. */
    method CancelTask(origin: Origin, id: Hash, bal: Balances) returns (res: DispatchResult<TaskError>, bal': Balances)
      requires Valid()
      modifies this
      ensures Valid()
      ensures res == (
        if !origin.Signed? then Err(BadOrigin)
        else if id !in old(tasks) then Err(Module(TaskNotFound))
        else if old(tasks)[id].creator != origin.who then Err(Module(NotTaskCreator))
        else if old(tasks)[id].status !in {Pending, Recruiting} then Err(Module(TaskAlreadyStarted))
        else Ok)
      ensures res.Err? ==> unchanged(this) && bal' == bal
      ensures res.Ok? ==>
        && tasks == old(tasks)[id := old(tasks)[id].(status := Cancelled)]
        && taskCount == old(taskCount) && taskProviders == old(taskProviders)
        && bal' == Unreserve(bal, origin.who, old(tasks)[id].bounty).0
    {
      bal' := bal;
      if !origin.Signed? { return Err(BadOrigin), bal'; }
      if id !in tasks { return Err(Module(TaskNotFound)), bal'; }
      var task := tasks[id];
      if task.creator != origin.who { return Err(Module(NotTaskCreator)), bal'; }
      if task.status != Pending && task.status != Recruiting { return Err(Module(TaskAlreadyStarted)), bal'; }
      bal' := Unreserve(bal, task.creator, task.bounty).0;
      tasks := tasks[id := task.(status := Cancelled)];
      res := Ok;
    }

    /**
      * `complete_task`: the creator completes a Validating task; it becomes Completed at `now`
      * and its bounty moves from the creator's reservation to the escrow account.
      */
    method CompleteTask(origin: Origin, id: Hash, now: nat, bal: Balances) returns (res: DispatchResult<TaskError>, bal': Balances)
      requires Valid()
      requires origin.Signed? ==> origin.who != ESCROW
      modifies this
      ensures Valid()
      ensures res == (
        if !origin.Signed? then Err(BadOrigin)
        else if id !in old(tasks) then Err(Module(TaskNotFound))
        else if old(tasks)[id].creator != origin.who then Err(Module(NotTaskCreator))
        else if old(tasks)[id].status != Validating then Err(Module(InvalidTaskStatus))
        else if MoveBountyToEscrow(bal, origin.who, old(tasks)[id].bounty).Failure? then Err(Currency(InsufficientBalance))
        else Ok)
      ensures res.Err? ==> unchanged(this) && bal' == bal
      ensures res.Ok? ==>
        && tasks == old(tasks)[id := old(tasks)[id].(status := Completed, completedAt := Some(now))]
        && taskCount == old(taskCount) && taskProviders == old(taskProviders)
        && bal' == MoveBountyToEscrow(bal, origin.who, old(tasks)[id].bounty).value
    {
      bal' := bal;
      if !origin.Signed? { return Err(BadOrigin), bal'; }
      if id !in tasks { return Err(Module(TaskNotFound)), bal'; }
      var task := tasks[id];
      if task.creator != origin.who { return Err(Module(NotTaskCreator)), bal'; }
      if task.status != Validating { return Err(Module(InvalidTaskStatus)), bal'; }
      var unreserved := Unreserve(bal, task.creator, task.bounty).0;
      var moved := Transfer(unreserved, task.creator, ESCROW, task.bounty);
      if moved.Failure? { return Err(Currency(moved.error)), bal'; }
      tasks := tasks[id := task.(status := Completed, completedAt := Some(now))];
      res, bal' := Ok, moved.value;
    }

    /**
      * `join_task`: a provider joins a Recruiting task it has not joined while fewer than
      * `max_providers` have joined; the join that brings the count to `min_providers` starts it.
      */
    method JoinTask(origin: Origin, id: Hash) returns (res: DispatchResult<TaskError>)
      requires Valid()
      modifies this
      ensures Valid()
      ensures res == (
        if !origin.Signed? then Err(BadOrigin)
        else if id !in old(tasks) then Err(Module(TaskNotFound))
        else if old(tasks)[id].status != Recruiting then Err(Module(InvalidTaskStatus))
        else if (id, origin.who) in old(taskProviders) && old(taskProviders)[(id, origin.who)] then Err(Module(ProviderAlreadyJoined))
        else if old(tasks)[id].maxProviders <= |Memberships(old(taskProviders), id)| then Err(Module(TooManyProviders))
        else Ok)
      ensures res.Err? ==> unchanged(this)
      ensures res.Ok? ==>
        && taskProviders == old(taskProviders)[(id, origin.who) := true]
        && |Memberships(taskProviders, id)| == |Memberships(old(taskProviders), id)| + 1
        && tasks == (if old(tasks)[id].minProviders <= |Memberships(taskProviders, id)|
                     then old(tasks)[id := old(tasks)[id].(status := Running)]
                     else old(tasks))
        && taskCount == old(taskCount)
    {
      if !origin.Signed? { return Err(BadOrigin); }
      var provider := origin.who;
      if id !in tasks { return Err(Module(TaskNotFound)); }
      var task := tasks[id];
      if task.status != Recruiting { return Err(Module(InvalidTaskStatus)); }
      if (id, provider) in taskProviders && taskProviders[(id, provider)] { return Err(Module(ProviderAlreadyJoined)); }
      var count := CountJoined(taskProviders, id);
      if task.maxProviders <= count { return Err(Module(TooManyProviders)); }
      MembershipsAfterJoin(taskProviders, id, provider);
      JoinKeepsValid(tasks, taskProviders, id, provider);
      taskProviders := taskProviders[(id, provider) := true];
      if task.minProviders <= count + 1 {
        tasks := tasks[id := task.(status := Running)];
      }
      res := Ok;
    }
  }
}
