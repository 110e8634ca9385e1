/** Job statuses and leases, and the task and talk job lifecycles. */
module Jobs {
  import opened Basics
  import opened Lifecycle

  datatype JobStatus =
    | Created | Queued | Delivered | Running | Reclaimable | Done | Failed | Timeout | Cancelled | Closed

  /** Statuses a stored message can have. */
  datatype MessageStatus =
    | Pending | Queued | Delivered | Running | InProgress
    | Done | Completed | Failed | Timeout | Cancelled | Closed

  datatype ConversationStatus = Open | Closed | Timeout | Failed | Cancelled

  predicate IsTerminal(s: JobStatus) {
    s.Done? || s.Failed? || s.Timeout? || s.Cancelled? || s.Closed?
  }

  predicate IsBusy(s: MessageStatus) {
    s.Pending? || s.Queued? || s.Delivered? || s.Running? || s.InProgress?
  }

  function Allowed(s: JobStatus): set<JobStatus> {
    match s
    case Created => {JobStatus.Queued, JobStatus.Cancelled}
    case Queued => {JobStatus.Delivered, JobStatus.Running, JobStatus.Timeout, JobStatus.Cancelled}
    case Delivered =>
      {JobStatus.Running, Reclaimable, JobStatus.Done, JobStatus.Failed, JobStatus.Timeout, JobStatus.Cancelled}
    case Running =>
      {Reclaimable, JobStatus.Done, JobStatus.Failed, JobStatus.Timeout, JobStatus.Cancelled, JobStatus.Closed}
    case Reclaimable =>
      {JobStatus.Running, JobStatus.Done, JobStatus.Failed, JobStatus.Timeout, JobStatus.Cancelled, JobStatus.Closed}
    case _ => {}
  }

  const PREFERRED_STATUSES: seq<JobStatus> :=
    [JobStatus.Queued, JobStatus.Delivered, JobStatus.Running, JobStatus.Done, JobStatus.Failed, JobStatus.Timeout, JobStatus.Cancelled]

  const TASK_MOVES := Moves(Allowed, PREFERRED_STATUSES)

  // ---------------------------------------------------------------------
  // Leases and jobs
  // ---------------------------------------------------------------------

  const DEFAULT_HEARTBEAT_MS := 15000
  const GRACE_MULTIPLIER := 6

  datatype Lease = Lease(holder: string, expiresAt: int, epoch: int, heartbeatMs: int)

  function FreshLease(holder: string, heartbeatMs: int, epoch: int, now: int): Lease {
    var hb := if heartbeatMs == 0 then DEFAULT_HEARTBEAT_MS else heartbeatMs;
    var period := if hb < 1000 then 1000 else hb;
    Lease(holder, now + GRACE_MULTIPLIER * period, epoch, period)
  }

  /** Renewal keeps holder and epoch; 0 stands for "no interval given". */
  function Renew(lease: Lease, heartbeatMs: int, now: int): Lease {
    FreshLease(lease.holder, if heartbeatMs != 0 then heartbeatMs else lease.heartbeatMs, lease.epoch, now)
  }

  function Reclaim(lease: Lease, holder: string, now: int): Lease {
    FreshLease(holder, lease.heartbeatMs, lease.epoch + 1, now)
  }

  predicate Matches(lease: Lease, holder: string, epoch: int) {
    lease.holder == holder && lease.epoch == epoch
  }

  predicate IsActive(lease: Lease, now: int) {
    now < lease.expiresAt
  }

  datatype Job = Job(id: string, project: string, status: JobStatus, lease: Option<Lease>)

  datatype TransitionError = InvalidTransition(from: JobStatus, to: JobStatus)

  /** One legal move; arriving at a terminal status clears the lease. */
  function Advance(job: Job, to: JobStatus): Result<Job, TransitionError> {
    if to !in Allowed(job.status) then Err(InvalidTransition(job.status, to))
    else Ok(job.(status := to, lease := if IsTerminal(to) then None else job.lease))
  }

  /** The job status a message status asks for, if any. */
  function TargetOf(s: MessageStatus): Option<JobStatus> {
    match s
    case Pending => Some(JobStatus.Queued)
    case Queued => Some(JobStatus.Queued)
    case Delivered => Some(JobStatus.Delivered)
    case Running => Some(JobStatus.Running)
    case InProgress => Some(JobStatus.Running)
    case Done => Some(JobStatus.Done)
    case Completed => Some(JobStatus.Done)
    case Failed => Some(JobStatus.Failed)
    case Timeout => Some(JobStatus.Timeout)
    case Cancelled => Some(JobStatus.Cancelled)
    case Closed => None
  }

  /** Position in the lifecycle; every preferred move goes strictly forward. */
  function Rank(s: JobStatus): nat {
    match s
    case Created => 0
    case Queued => 1
    case Delivered => 2
    case Reclaimable => 2
    case Running => 3
    case _ => 4
  }

  predicate IsPreferred(s: JobStatus) {
    !s.Created? && !s.Reclaimable? && !s.Closed?
  }

  predicate Reaches(from: JobStatus, to: JobStatus) {
    IsPreferred(to) && Rank(from) < Rank(to)
  }

  /** What asking a task job for a message status does: arrive, stay put when terminal or unasked, or fail. */
  function Transition(job: Job, status: MessageStatus): Result<Job, TransitionError> {
    match TargetOf(status)
    case None => Ok(job)
    case Some(to) =>
      if job.status == to then Ok(job)
      else if Reaches(job.status, to) then Ok(job.(status := to, lease := if IsTerminal(to) then None else job.lease))
      else if IsTerminal(job.status) then Ok(job)
      else Err(InvalidTransition(job.status, to))
  }

  lemma PreferredIsListed(s: JobStatus)
    ensures s in PREFERRED_STATUSES <==> IsPreferred(s)
  {
    var p := PREFERRED_STATUSES;
    assert p[0].Queued? && p[1].Delivered? && p[2].Running? && p[3].Done? && p[4].Failed? && p[5].Timeout? && p[6].Cancelled?;
  }

  lemma {:induction false} PathGoesForward(path: seq<JobStatus>, start: JobStatus)
    requires IsPath(TASK_MOVES, start, path)
    ensures path != [] ==> Reaches(start, End(start, path))
    decreases |path|
  {
    if path != [] {
      var before := path[..|path| - 1];
      PathGoesForward(before, start);
      PreferredIsListed(path[|path| - 1]);
      assert CanStep(TASK_MOVES, End(start, before), path[|path| - 1]);
    }
  }

  lemma PathOfOne(start: JobStatus, a: JobStatus)
    requires a in Allowed(start) && IsPreferred(a)
    ensures IsPath(TASK_MOVES, start, [a]) && End(start, [a]) == a
  {
    PreferredIsListed(a);
    assert [a][..0] == [];
  }

  lemma PathExtends(start: JobStatus, path: seq<JobStatus>, a: JobStatus)
    requires IsPath(TASK_MOVES, start, path) && a in Allowed(End(start, path)) && IsPreferred(a)
    ensures IsPath(TASK_MOVES, start, path + [a]) && End(start, path + [a]) == a
  {
    PreferredIsListed(a);
    assert (path + [a])[..|path|] == path;
  }

  /** A witness path for every pair the closed form accepts. */
  lemma ForwardHasPath(start: JobStatus, to: JobStatus) returns (path: seq<JobStatus>)
    requires Reaches(start, to)
    ensures IsPath(TASK_MOVES, start, path) && End(start, path) == to
  {
    if to in Allowed(start) {
      PathOfOne(start, to);
      return [to];
    }
    if start.Created? {
      PathOfOne(start, JobStatus.Queued);
      path := [JobStatus.Queued];
    } else {
      path := [];
    }
    if to !in Allowed(End(start, path)) {
      PathExtends(start, path, JobStatus.Delivered);
      path := path + [JobStatus.Delivered];
    }
    PathExtends(start, path, to);
    path := path + [to];
  }

  /** The lifecycle's closed form is exactly what the search over the canonical table finds. */
  lemma ReachesIffPath(start: JobStatus, to: JobStatus)
    requires start != to
    ensures Reaches(start, to) <==> exists path :: IsPath(TASK_MOVES, start, path) && End(start, path) == to
  {
    if Reaches(start, to) {
      var path := ForwardHasPath(start, to);
    }
    forall path | IsPath(TASK_MOVES, start, path) && End(start, path) == to
      ensures Reaches(start, to)
    {
      PathGoesForward(path, start);
    }
  }

  /** Apply the lifecycle methods along a path, stopping at the first that refuses. */
  function Walk(job: Job, path: seq<JobStatus>): Result<Job, TransitionError> {
    if path == [] then Ok(job)
    else
      match Walk(job, path[..|path| - 1])
      case Err(e) => Err(e)
      case Ok(j) => Advance(j, path[|path| - 1])
  }

  /** Walking any legal path ends at its target, with the lease cleared exactly when that is terminal. */
  lemma {:induction false} WalkArrives(job: Job, path: seq<JobStatus>)
    requires IsPath(TASK_MOVES, job.status, path) && path != []
    ensures var to := End(job.status, path);
            Walk(job, path) == Ok(job.(status := to, lease := if IsTerminal(to) then None else job.lease))
    decreases |path|
  {
    var before := path[..|path| - 1];
    assert CanStep(TASK_MOVES, End(job.status, before), path[|path| - 1]);
    if before != [] {
      WalkArrives(job, before);
    }
  }

  /** The lifecycle method: search a path, apply it step by step, and excuse failures of finished jobs. */
  method TransitionTaskJob(job: Job, status: MessageStatus) returns (r: Result<Job, TransitionError>)
    ensures r == Transition(job, status)
  {
    hide Allowed;
    var target := TargetOf(status);
    if target.None? {
      return Ok(job);
    }
    var path := TransitionPath(TASK_MOVES, job.status, target.value);
    if path.None? {
      assert End(job.status, []) == job.status;
      ReachesIffPath(job.status, target.value);
      return if IsTerminal(job.status) then Ok(job) else Err(InvalidTransition(job.status, target.value));
    }
    var steps := path.value;
    if job.status == target.value {
      assert IsPath(TASK_MOVES, job.status, []);
      assert End(job.status, []) == job.status;
      return Ok(job);
    }
    ReachesIffPath(job.status, target.value);
    WalkArrives(job, steps);
    r := Ok(job);
    for i := 0 to |steps|
      invariant r == Walk(job, steps[..i])
    {
      assert steps[..i + 1][..i] == steps[..i];
      if r.Ok? {
        r := Advance(r.value, steps[i]);
      }
    }
    assert steps[..|steps|] == steps;
  }

  // ---------------------------------------------------------------------
  // Talk jobs
  // ---------------------------------------------------------------------

  function TalkTarget(wire: ConversationStatus): JobStatus {
    match wire
    case Open => JobStatus.Running
    case Closed => JobStatus.Closed
    case Timeout => JobStatus.Timeout
    case Failed => JobStatus.Failed
    case Cancelled => JobStatus.Cancelled
  }

  function Then(r: Result<Job, TransitionError>, to: JobStatus): Result<Job, TransitionError> {
    match r case Err(e) => Err(e) case Ok(j) => Advance(j, to)
  }

  function TransitionTalkJob(job: Job, wire: ConversationStatus): Result<Job, TransitionError> {
    var to := TalkTarget(wire);
    if job.status == to then Ok(job)
    else
      var started := Then(Advance(job, JobStatus.Queued), JobStatus.Running);
      var moved :=
        if job.status.Created? then (if to.Running? then started else Then(started, to)) else Advance(job, to);
      if moved.Err? && IsTerminal(job.status) then Ok(job) else moved
  }

  /** Statuses talk jobs are stored with. */
  predicate IsTalkStatus(s: JobStatus) {
    s.Running? || IsTerminal(s)
  }

  /** Talk jobs never fail to follow their conversation, and a finished one never moves again. */
  lemma TalkTransitionIsTotal(job: Job, wire: ConversationStatus)
    requires job.status.Created? || IsTalkStatus(job.status)
    ensures var r := TransitionTalkJob(job, wire);
            && r.Ok? && IsTalkStatus(r.value.status)
            && r.value.status == (if IsTerminal(job.status) then job.status else TalkTarget(wire))
  {
  }
}
