/** With peer sessions required, no busy work is left for an offline worker. */
module BrokerCover {
  import opened Basics
  import opened Jobs
  import opened BrokerState
  import opened BrokerOps
  import opened BrokerInvariants
  import opened BrokerSteps
  import opened BrokerActs

  /**
   * The acquired lease id is the active lease of another agent that still has busy work: the session
   * store overwrites that session without settling the work.
   */
  ghost predicate Orphans(s: State, c: AcquireCommand) {
    && c.lease in s.registry.byLease
    && var x := s.registry.byLease[c.lease];
       && x.status.Active? && !(x.project == c.project && x.agent == c.agent) && x.agent != []
       && exists id :: id in s.work.byId && Occupies(s.work.byId[id])
                       && s.work.byId[id].env.project == x.project && s.work.byId[id].env.target == x.agent
  }

  /** A granted session leaves all busy work covered exactly when it does not take over such a lease. */
  lemma AcquireKeepsCoverIff(cfg: Config, s: State, c: AcquireCommand, now: int)
    requires Inv(s) && Covered(s) && Acquire(cfg, s, c, now).outcome.Accepted?
    ensures Covered(Acquire(cfg, s, c, now).state) <==> !Orphans(s, c)
  {
    hide WaitsOK, BoardOK, TalksOK, WorkOK, OneBusyPerWorker, Occupies;
    if Orphans(s, c) {
      TakenOverLeaseOrphans(cfg, s, c, now);
    } else {
      OwnLeaseKeepsCover(cfg, s, c, now);
    }
  }

  lemma OwnLeaseKeepsCover(cfg: Config, s: State, c: AcquireCommand, now: int)
    requires Covered(s) && RegistryOK(s.registry) && !Orphans(s, c)
    ensures Covered(Acquire(cfg, s, c, now).state)
  {
    hide Occupies;
    var n := Acquire(cfg, s, c, now).state;
    forall id | id in n.work.byId && Occupies(n.work.byId[id]) && n.work.byId[id].env.target != []
      ensures HasActiveSession(n.registry, n.work.byId[id].env.target, Some(n.work.byId[id].env.project))
    {
      var env := s.work.byId[id].env;
      var l :| l in s.registry.byLease && IsActiveFor(s.registry.byLease[l], env.target, Some(env.project));
      assert l in n.registry.byLease && IsActiveFor(n.registry.byLease[l], env.target, Some(env.project));
    }
  }

  lemma TakenOverLeaseOrphans(cfg: Config, s: State, c: AcquireCommand, now: int)
    requires RegistryOK(s.registry) && OneSessionPerAgent(s.registry.byLease)
    requires Orphans(s, c) && Acquire(cfg, s, c, now).outcome.Accepted?
    ensures !Covered(Acquire(cfg, s, c, now).state)
  {
    hide Occupies;
    var n := Acquire(cfg, s, c, now).state;
    var x := s.registry.byLease[c.lease];
    var id :| id in s.work.byId && Occupies(s.work.byId[id])
              && s.work.byId[id].env.project == x.project && s.work.byId[id].env.target == x.agent;
    forall l | l in n.registry.byLease
      ensures !IsActiveFor(n.registry.byLease[l], x.agent, Some(x.project))
    {
    }
  }

  lemma HeartbeatKeepsCover(s: State, lease: Id, scope: Option<Id>, worker: Id, now: int)
    requires Covered(s)
    ensures Covered(HeartbeatSession(s, lease, scope, worker, now).state)
  {
    hide Occupies;
    var n := HeartbeatSession(s, lease, scope, worker, now).state;
    forall id | id in n.work.byId && Occupies(n.work.byId[id]) && n.work.byId[id].env.target != []
      ensures HasActiveSession(n.registry, n.work.byId[id].env.target, Some(n.work.byId[id].env.project))
    {
      var env := s.work.byId[id].env;
      var l :| l in s.registry.byLease && IsActiveFor(s.registry.byLease[l], env.target, Some(env.project));
      assert l in n.registry.byLease && IsActiveFor(n.registry.byLease[l], env.target, Some(env.project));
    }
  }

  lemma EnqueueKeepsCover(cfg: Config, s: State, env: Envelope, createWaiter: bool, now: int)
    requires Covered(s) && cfg.requirePeers
    ensures Covered(Enqueue(cfg, s, env, createWaiter, now).state)
  {
    hide UpsertTask, UpsertFails, Touch, ReplyFuture, HasActiveSession, ConversationRefusal;
  }

  /** Each operation keeps the work covered, unless it acquires a lease that orphans some. */
  lemma ActKeepsCover(cfg: Config, s: State, op: Op, now: int)
    requires Inv(s) && Covered(s) && cfg.requirePeers
    requires op.DoAcquire? ==> !Orphans(s, op.command)
    ensures Covered(Act(cfg, s, op, now).state)
  {
    hide Inv, Covered, Orphans, Winds, Acquire, HeartbeatSession, ReleaseSession, ExpireSessions, Enqueue, HeartbeatJob, ReclaimJob;
    match op {
      case DoAcquire(c) => RegistryIsOK(s); OwnLeaseKeepsCover(cfg, s, c, now);
      case DoHeartbeatSession(lease, scope, worker) => HeartbeatKeepsCover(s, lease, scope, worker, now);
      case DoReleaseSession(lease, scope) => ReleaseSessionKeeps(s, lease, scope, now);
      case DoExpireSessions => ExpireSessionsWinds(cfg, s, now);
      case DoEnqueue(env, createWaiter) => EnqueueKeepsCover(cfg, s, env, createWaiter, now);
      case DoHeartbeatJob(task, holder, epoch, scope, heartbeatMs) =>
        HeartbeatJobKeeps(s, task, holder, epoch, scope, heartbeatMs, now, []);
        OtherPartsKeepCover(s, Act(cfg, s, op, now).state);
      case DoReclaimJob(task, holder, scope) =>
        ReclaimJobKeeps(s, task, holder, scope, now, []);
        OtherPartsKeepCover(s, Act(cfg, s, op, now).state);
      case _ =>
        hide Act;
        WindingActKeeps(cfg, s, op, now);
        WindingKeepsCover(s, Act(cfg, s, op, now).state);
    }
  }

  lemma RegistryIsOK(s: State)
    requires Inv(s)
    ensures RegistryOK(s.registry) && OneSessionPerAgent(s.registry.byLease)
  {
  }

  lemma OtherPartsKeepCover(s: State, n: State)
    requires Covered(s) && n.work == s.work && n.registry == s.registry
    ensures Covered(n)
  {
  }

  lemma WindingKeepsCover(s: State, n: State)
    requires Covered(s) && Winds(s, n) && n.registry == s.registry
    ensures Covered(n)
  {
    hide Covered, LessBusy, Quiet, TalksQuiet, WaitsGrow;
    LessWorkIsCovered(s, n);
  }

  lemma ApplyKeepsCover(cfg: Config, s: State, op: Op, now: int)
    requires Inv(s) && Covered(s) && cfg.requirePeers
    requires op.DoAcquire? ==> !Orphans(Swept(cfg, s, op, now), op.command)
    ensures Covered(Apply(cfg, s, op, now).state)
  {
    hide Inv, Covered, Sweep, Act, Orphans;
    SweepIsComplete(cfg, s, now);
    ActKeepsCover(cfg, Swept(cfg, s, op, now), op, now);
  }
}
