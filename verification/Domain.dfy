/** Task states and jobs, shared by the dispatcher, the owner commands, the approval workflow and the
    merge gate. */
module Domain {
  import opened Wrappers

  datatype TaskState =
    | Clarifying | AwaitingSpecApproval
    | DraftingRequirements | AwaitingRequirementsConfirmation
    | PlanningImplementation | ReviewingImplementationPlan | AwaitingPlanApproval
    | Queued | Implementing | Fixing | Reviewing
    | AwaitingChecks | AwaitingMergeApproval | ReadyToMerge | Merging
    | Merged | Paused | Blocked | Cancelled

  predicate Stopped(state: TaskState) {
    state in {Paused, Blocked, TaskState.Cancelled, Merged}
  }

  datatype Kind = Clarify | DraftRequirements | Plan | ReviewPlan | Implement | Fix | Review | Consult
  datatype JobStatus = Waiting | Running | Finished | Failed | Dropped

  /** The state in which a v2 job of this kind is redone. */
  function KindState(kind: Kind): Option<TaskState> {
    match kind
    case DraftRequirements => Some(DraftingRequirements)
    case Plan => Some(PlanningImplementation)
    case ReviewPlan => Some(ReviewingImplementationPlan)
    case Implement => Some(Queued)
    case Fix => Some(Fixing)
    case Review => Some(Reviewing)
    case _ => None
  }

  /** What a job was made for: the authority (specification or requirements) and its version, the plan,
      and the commits. `v2` is the workflow version the job itself names. */
  datatype Identity = Identity(v2: bool, authority: string, version: nat, plan: string, base: string,
                               head: Option<string>)

  /** A job's saved data. `answered`: a response is saved; `asked`: it is blocked or needs clarification. */
  datatype Data = Data(identity: Identity, patchRetry: bool, answered: bool, asked: bool)

  function NewData(identity: Identity): Data { Data(identity, false, false, false) }

  /** A job's id is its position, so ids follow the order of creation. `v2` is the workflow version of
      its task. */
  datatype Job = Job(task: nat, v2: bool, role: string, kind: Kind, status: JobStatus, fence: nat, owner: nat,
                     lease: int, attempt: nat, data: Data)

  function NewJob(t: nat, v2: bool, role: string, kind: Kind, data: Data): Job {
    Job(t, v2, role, kind, Waiting, 0, 0, 0, 0, data)
  }

  /** identity_current: a v1 job names the specification, a v2 job whatever it does not leave empty. */
  predicate Matches(v2: bool, expected: Identity, actual: Identity) {
    if !v2 then !expected.v2 && expected.version == actual.version && expected.authority == actual.authority
    else
      && expected.v2
      && (expected.authority == "" || expected.authority == actual.authority)
      && (expected.version == 0 || expected.version == actual.version)
      && (expected.plan == "" || expected.plan == actual.plan)
      && (expected.base == "" || expected.base == actual.base)
      && (expected.head in {None, Some("")} || expected.head == actual.head)
  }

  /** The care every writer of the job table takes: a fence never falls, and a job that was not running runs
      again only under a larger one. */
  predicate Careful(a: Job, b: Job) {
    b.task == a.task && a.fence <= b.fence && (b.status.Running? && b.fence == a.fence ==> a.status.Running?)
  }

  ghost predicate CarefulJobs(jobs: seq<Job>, jobs': seq<Job>) {
    |jobs| <= |jobs'| && forall j | 0 <= j < |jobs| :: Careful(jobs[j], jobs'[j])
  }

  predicate Active(job: Job, t: nat) {
    job.task == t && (job.status.Waiting? || job.status.Running?)
  }

  /** What invalidate does to the jobs: the active ones of a task are dropped and fenced. */
  function InvalidateJobs(jobs: seq<Job>, t: nat): seq<Job> {
    seq(|jobs|, j requires 0 <= j < |jobs| =>
      if Active(jobs[j], t) then jobs[j].(status := Dropped, fence := jobs[j].fence + 1) else jobs[j])
  }

  /** The loop of invalidate over the job rows. */
  method DropActiveJobs(jobs: seq<Job>, t: nat) returns (after: seq<Job>)
    ensures after == InvalidateJobs(jobs, t)
  {
    after := jobs;
    var i := 0;
    while i < |after|
      invariant i <= |after| == |jobs|
      invariant forall k | 0 <= k < i :: after[k] == InvalidateJobs(jobs, t)[k]
      invariant forall k | i <= k < |after| :: after[k] == jobs[k]
    {
      if Active(after[i], t) {
        after := after[i := after[i].(status := Dropped, fence := after[i].fence + 1)];
      }
      i := i + 1;
    }
  }
}
