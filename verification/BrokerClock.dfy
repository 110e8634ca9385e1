/** Time: how long sessions and messages live, in seconds as configured, and what ends when they do. */
module BrokerClock {
  import opened Basics
  import opened Jobs
  import opened BrokerState
  import opened BrokerOps
  import opened BrokerInvariants
  import opened BrokerSteps
  import opened BrokerActs
  import opened BrokerOutcomes
  import opened BrokerRuns
  import opened BrokerAnswers
  import opened BrokerCalls

  // ---------------------------------------------------------------------
  // Sessions
  // ---------------------------------------------------------------------

  /** A session's own grace, or the default if it has none. */
  function GraceOf(cfg: Config, seconds: int): int {
    if seconds != 0 then seconds else cfg.graceSeconds
  }

  /** Another active session of the project has the command's agent, or its worker's name. */
  predicate StandsInTheWay(r: Registry, c: AcquireCommand, l: Id) {
    && l in r.byLease && l != c.lease && r.byLease[l].status.Active? && r.byLease[l].project == c.project
    && (r.byLease[l].agent == c.agent || (c.worker != [] && r.byLease[l].worker == c.worker))
  }

  lemma ConflictReading(r: Registry, c: AcquireCommand)
    requires RegistryOK(r)
    ensures (exists l :: l in r.byLease && Conflicts(r.byLease[l], c)) <==> exists l :: StandsInTheWay(r, c, l)
  {
    forall l | l in r.byLease
      ensures Conflicts(r.byLease[l], c) <==> StandsInTheWay(r, c, l)
    {
    }
    hide Conflicts;
  }

  /** A session is refused exactly when another active one stands in its way; a granted one starts now, and no other changes. */
  lemma AcquireDecides(cfg: Config, s: State, c: AcquireCommand, now: int)
    requires Inv(s)
    ensures var e := Acquire(cfg, s, c, now);
            var r := e.state.registry;
            if exists l :: StandsInTheWay(s.registry, c, l) then e == Effect(s, Raised(LeaseConflict))
            else
              && e.outcome.Accepted? && e.state == s.(registry := r)
              && c.lease in r.byLease
              && r.byLease[c.lease].status.Active? && r.byLease[c.lease].project == c.project && r.byLease[c.lease].agent == c.agent
              && r.byLease[c.lease].worker == c.worker && r.byLease[c.lease].lastSeen == now && r.byLease[c.lease].settled == []
              && (forall l :: l != c.lease ==> (l in r.byLease <==> l in s.registry.byLease))
              && (forall l :: l != c.lease && l in s.registry.byLease ==> r.byLease[l] == s.registry.byLease[l])
  {
    RegistryIsFine(s);
    ConflictReading(s.registry, c);
    hide StandsInTheWay, Conflicts, Inv;
  }

  lemma RegistryIsFine(s: State)
    requires Inv(s)
    ensures RegistryOK(s.registry)
  {
  }

  /** The session lives for exactly its grace: a sweep expires it at that age and not before. */
  lemma GrantedSessionLives(cfg: Config, s: State, c: AcquireCommand, now: int, later: int)
    requires Inv(s) && Acquire(cfg, s, c, now).outcome.Accepted?
    ensures var granted := Acquire(cfg, s, c, now).state;
            var n := Sweep(cfg, granted, later);
            && c.lease in granted.registry.byLease && c.lease in n.registry.byLease
            && (later >= now + 1000 * GraceOf(cfg, c.graceSeconds) ==> n.registry.byLease[c.lease].status.Expired?)
            && (later < now + 1000 * GraceOf(cfg, c.graceSeconds) ==> n.registry.byLease[c.lease] == granted.registry.byLease[c.lease])
  {
    hide Sweep, Inv, Conflicts;
    AcquireKeeps(cfg, s, c, now);
    SweepExpires(cfg, Acquire(cfg, s, c, now).state, later, c.lease);
  }

  /** An agent gets its own active lease again, unless it asks for a worker's name that another session has. */
  lemma OwnLeaseAgain(cfg: Config, s: State, c: AcquireCommand, now: int)
    requires Inv(s) && SessionIsCurrent(s.registry, c.agent, c.project, c.lease)
    ensures Acquire(cfg, s, c, now).outcome.Raised? <==>
            c.worker != [] && exists l :: StandsInTheWay(s.registry, c, l) && s.registry.byLease[l].worker == c.worker
  {
    AcquireDecides(cfg, s, c, now);
    hide Acquire, WorkOK, BoardOK, TalksOK, WaitsOK, OneBusyPerWorker;
    forall l | StandsInTheWay(s.registry, c, l)
      ensures c.worker != [] && s.registry.byLease[l].worker == c.worker
    {
      assert l in s.registry.byLease && c.lease in s.registry.byLease;
    }
  }

  /** A session heartbeat is refused for an unknown session, and does nothing for one that has ended. */
  lemma SessionHeartbeatAnswers(s: State, lease: Id, scope: Option<Id>, worker: Id, now: int)
    ensures var e := HeartbeatSession(s, lease, scope, worker, now);
            if !(lease in s.registry.byLease && (scope.Some? ==> s.registry.byLease[lease].project == scope.value)) then e == Effect(s, Raised(NotFound))
            else if !s.registry.byLease[lease].status.Active? then e == Effect(s, Accepted)
            else
              && e.outcome.Accepted? && e.state == s.(registry := e.state.registry) && lease in e.state.registry.byLease
              && e.state.registry.byLease[lease] ==
                 s.registry.byLease[lease].(lastSeen := now, worker := if worker == [] then s.registry.byLease[lease].worker else worker)
  {
  }

  /** The items under which ended work is reported: its task, and its conversation if it is a talk message. */
  predicate ReportsAs(env: Envelope, item: Id) {
    item != [] && (env.task == item || (env.conversation == item && (env.kind.ChatStart? || env.kind.ChatTurn? || env.kind.ChatReply? || env.kind.ChatClose?)))
  }

  predicate IsWorkOf(m: Message, agent: Id, project: Id) {
    m.env.project == project && (m.env.sender == agent || m.env.target == agent) && !HasEnded(m.status)
  }

  lemma ConcernReading(m: Message, agent: Id, project: Id)
    ensures ConcernsAgent(m, agent, project) <==> IsWorkOf(m, agent, project)
  {
    BusyHasNotEnded(m.status);
  }

  /** Ending an agent's work reports exactly the tasks and conversations of its unfinished messages. */
  lemma {:induction false} SettleAgentReports(s: State, ids: seq<Id>, agent: Id, project: Id, now: int, item: Id)
    ensures item in SettleAgent(s, ids, agent, project, now).items <==>
            exists id :: id in ids && id in s.work.byId && ConcernsAgent(s.work.byId[id], agent, project) && ReportsAs(s.work.byId[id].env, item)
    decreases |ids|
  {
    hide Settle, ConcernsAgent, ReportsAs;
    if ids != [] {
      var id, rest := ids[|ids| - 1], ids[..|ids| - 1];
      var before := SettleAgent(s, rest, agent, project, now);
      SettleAgentReports(s, rest, agent, project, now, item);
      assert ids == rest + [id];
      SettleAgentKeepsIds(s, rest, agent, project, now);
      if id in s.work.byId {
        SettleAgentDecides(s, rest, agent, project, now, id);
        CancelledConcernsNobody(s.work.byId[id].(status := MessageStatus.Cancelled), agent, project);
        SettledIdsReport(s.work.byId[id].env, item);
      }
    }
  }

  lemma {:induction false} SettleAgentKeepsIds(s: State, ids: seq<Id>, agent: Id, project: Id, now: int)
    ensures SettleAgent(s, ids, agent, project, now).state.work.byId.Keys == s.work.byId.Keys
    decreases |ids|
  {
    hide UpsertTask, Touch, SettleWaits, SettledIds, ConcernsAgent;
    if ids != [] {
      SettleAgentKeepsIds(s, ids[..|ids| - 1], agent, project, now);
    }
  }

  lemma CancelledConcernsNobody(m: Message, agent: Id, project: Id)
    requires m.status.Cancelled?
    ensures !ConcernsAgent(m, agent, project)
  {
  }

  lemma SettledIdsReport(env: Envelope, item: Id)
    ensures item in SettledIds(env) <==> ReportsAs(env, item)
  {
  }

  /** A release answers with what it ended, or ended before, and the session remembers that. */
  lemma ReleaseAnswers(s: State, lease: Id, scope: Option<Id>, now: int)
    requires Inv(s)
    ensures var e := ReleaseSession(s, lease, scope, now);
            if !(lease in s.registry.byLease && (scope.Some? ==> s.registry.byLease[lease].project == scope.value)) then e == Effect(s, Raised(NotFound))
            else
              var x := s.registry.byLease[lease];
              if !x.status.Active? then e == Effect(s, Ended(x.settled))
              else
                && e.outcome.Ended? && lease in e.state.registry.byLease
                && e.state.registry.byLease[lease] == x.(status := Released, settled := e.outcome.settled)
                && (forall item :: item in e.outcome.settled <==>
                      exists id :: id in s.work.byId && IsWorkOf(s.work.byId[id], x.agent, x.project) && ReportsAs(s.work.byId[id].env, item))
  {
    if lease in s.registry.byLease {
      var x := s.registry.byLease[lease];
      forall item
        ensures item in SettleAgent(s, s.work.order, x.agent, x.project, now).items <==>
                exists id :: id in s.work.byId && IsWorkOf(s.work.byId[id], x.agent, x.project) && ReportsAs(s.work.byId[id].env, item)
      {
        ReportedWork(s, x.agent, x.project, now, item);
      }
      SettleAgentKeepsRegistry(s, s.work.order, x.agent, x.project, now);
    }
    hide SettleAgent, IsWorkOf, ReportsAs, Inv;
  }

  lemma ReportedWork(s: State, agent: Id, project: Id, now: int, item: Id)
    requires Inv(s)
    ensures item in SettleAgent(s, s.work.order, agent, project, now).items <==>
            exists id :: id in s.work.byId && IsWorkOf(s.work.byId[id], agent, project) && ReportsAs(s.work.byId[id].env, item)
  {
    hide SettleAgent, ReportsAs, ConcernsAgent, IsWorkOf, BoardOK, TalksOK, WaitsOK, RegistryOK, OneBusyPerWorker, OneSessionPerAgent;
    SettleAgentReports(s, s.work.order, agent, project, now, item);
    forall id | id in s.work.byId
      ensures ConcernsAgent(s.work.byId[id], agent, project) <==> IsWorkOf(s.work.byId[id], agent, project)
    {
      ConcernReading(s.work.byId[id], agent, project);
    }
  }

  // ---------------------------------------------------------------------
  // Sweeps
  // ---------------------------------------------------------------------

  /** An active session last seen at least its grace ago. */
  predicate HasOutlived(cfg: Config, r: Registry, l: Id, now: int) {
    l in r.byLease && r.byLease[l].status.Active? && now >= r.byLease[l].lastSeen + 1000 * GraceOf(cfg, r.byLease[l].graceSeconds)
  }

  /** The message is unfinished work of an agent whose session has outlived its grace. */
  ghost predicate LosesItsAgent(cfg: Config, s: State, m: Message, now: int) {
    exists l :: HasOutlived(cfg, s.registry, l, now) && IsWorkOf(m, s.registry.byLease[l].agent, s.registry.byLease[l].project)
  }

  /** The message has a timeout and is at least that old. */
  predicate IsDue(m: Message, now: int) {
    m.env.timeoutSeconds > 0 && now >= m.createdAt + 1000 * m.env.timeoutSeconds
  }

  /**
   * A sweep cancels the unfinished work of agents whose session has outlived its grace, times out the
   * rest that is due, and leaves every other message as it is.
   */
  lemma SweepEndsOnTime(cfg: Config, s: State, now: int, id: Id)
    requires Inv(s) && id in s.work.byId
    ensures var m := s.work.byId[id];
            var n := Sweep(cfg, s, now).work;
            id in n.byId
            && n.byId[id] == if HasEnded(m.status) then m
                             else if LosesItsAgent(cfg, s, m, now) then m.(status := MessageStatus.Cancelled)
                             else if IsDue(m, now) then m.(status := MessageStatus.Timeout)
                             else m
  {
    SweepDecides(cfg, s, now, id);
    var m := s.work.byId[id];
    BusyHasNotEnded(m.status);
    forall l | l in s.registry.byLease
      ensures IsStale(cfg, s.registry.byLease[l], now) && ConcernsAgent(m, s.registry.byLease[l].agent, s.registry.byLease[l].project) <==>
              HasOutlived(cfg, s.registry, l, now) && IsWorkOf(m, s.registry.byLease[l].agent, s.registry.byLease[l].project)
    {
      ConcernReading(m, s.registry.byLease[l].agent, s.registry.byLease[l].project);
    }
    NothingEndedIsWork(m);
    hide Sweep, HasOutlived, IsStale, ConcernsAgent, IsWorkOf, Inv, HasEnded;
  }

  lemma NothingEndedIsWork(m: Message)
    ensures HasEnded(m.status) ==> forall agent, project :: !IsWorkOf(m, agent, project)
  {
  }

  /** And it expires exactly the active sessions that have outlived their grace. */
  lemma SweepExpiresOnTime(cfg: Config, s: State, now: int, l: Id)
    requires Inv(s) && l in s.registry.byLease
    ensures var n := Sweep(cfg, s, now).registry;
            l in n.byLease
            && if HasOutlived(cfg, s.registry, l, now) then n.byLease[l].status.Expired? else n.byLease[l] == s.registry.byLease[l]
  {
    SweepExpires(cfg, s, now, l);
    hide Sweep, Inv;
  }

  // ---------------------------------------------------------------------
  // Messages over whole runs
  // ---------------------------------------------------------------------

  /** Every stored message is one that was there, but for its status, or the one the call enqueues now. */
  ghost predicate KeepsMessages(w: Work, n: Work, op: Op, now: int) {
    forall id :: id in n.byId ==>
      || (id in w.byId && n.byId[id].env == w.byId[id].env && n.byId[id].createdAt == w.byId[id].createdAt)
      || (op.DoEnqueue? && op.env.id == id && n.byId[id].env == op.env && n.byId[id].createdAt == now)
  }

  lemma LessBusyKeepsMessages(w: Work, n: Work, op: Op, now: int)
    requires LessBusy(w, n)
    ensures KeepsMessages(w, n, op, now)
  {
  }

  lemma ActKeepsMessages(cfg: Config, s: State, op: Op, now: int)
    requires Inv(s)
    ensures KeepsMessages(s.work, Act(cfg, s, op, now).state.work, op, now)
  {
    hide Inv, KeepsMessages, LessBusy, Quiet, TalksQuiet, WaitsGrow;
    if op.DoEnqueue? {
      QueueKeepsMessages(cfg, s, op.env, op.createWaiter, now, op);
    } else if op.DoHeartbeatJob? || op.DoReclaimJob? {
      LeaseCallsKeepWork(cfg, s, op, now);
      SameMessages(s.work, op, now);
    } else {
      hide Act;
      WindingActKeeps(cfg, s, op, now);
      LessBusyKeepsMessages(s.work, Act(cfg, s, op, now).state.work, op, now);
    }
  }

  lemma SameMessages(w: Work, op: Op, now: int)
    ensures KeepsMessages(w, w, op, now)
  {
  }

  lemma LeaseCallsKeepWork(cfg: Config, s: State, op: Op, now: int)
    requires op.DoHeartbeatJob? || op.DoReclaimJob?
    ensures Act(cfg, s, op, now).state.work == s.work
  {
    hide FindJob, Renew, Reclaim;
  }

  lemma QueueKeepsMessages(cfg: Config, s: State, env: Envelope, createWaiter: bool, now: int, op: Op)
    requires op == DoEnqueue(env, createWaiter)
    ensures KeepsMessages(s.work, Enqueue(cfg, s, env, createWaiter, now).state.work, op, now)
  {
    hide Refusal, UpsertTask, UpsertFails, Touch, ReplyFuture;
  }

  /** The call enqueued the message as it is stored, at the time it is stored with. */
  predicate Enqueued(call: Call, m: Message) {
    call.op.DoEnqueue? && call.op.env == m.env && call.now == m.createdAt
  }

  /** Every stored message was enqueued by a call of the run, at its creation time. */
  lemma {:induction false} MessagesWereEnqueued(cfg: Config, calls: seq<Call>, id: Id)
    requires id in Run(cfg, calls).work.byId
    ensures exists i :: 0 <= i < |calls| && Enqueued(calls[i], Run(cfg, calls).work.byId[id])
  {
    if calls != [] {
      var before, last := calls[..|calls| - 1], calls[|calls| - 1];
      RunKeepsInv(cfg, before);
      CallKeepsMessages(cfg, Run(cfg, before), last.op, last.now);
      var s, m := Run(cfg, before), Run(cfg, calls).work.byId[id];
      hide Run, Apply, Enqueued, Inv;
      if last.op.DoEnqueue? && m.env == last.op.env && m.createdAt == last.now {
        assert Enqueued(calls[|calls| - 1], m) by { ThatOne(last, m); }
      } else {
        MessagesWereEnqueued(cfg, before, id);
        var i :| 0 <= i < |before| && Enqueued(before[i], s.work.byId[id]);
        SameEnqueued(before[i], s.work.byId[id], m);
        assert Enqueued(calls[i], m);
      }
    }
  }

  lemma CallKeepsMessages(cfg: Config, s: State, op: Op, now: int)
    requires Inv(s)
    ensures KeepsMessages(s.work, Apply(cfg, s, op, now).state.work, op, now)
  {
    hide Inv, Act, Swept;
    SweptKeepsMessages(cfg, s, op, now);
    ActKeepsMessages(cfg, Swept(cfg, s, op, now), op, now);
  }

  lemma ThatOne(call: Call, m: Message)
    requires call.op.DoEnqueue? && m.env == call.op.env && m.createdAt == call.now
    ensures Enqueued(call, m)
  {
  }

  lemma SameEnqueued(call: Call, m: Message, n: Message)
    requires Enqueued(call, m) && n.env == m.env && n.createdAt == m.createdAt
    ensures Enqueued(call, n)
  {
  }

  lemma SweptKeepsMessages(cfg: Config, s: State, op: Op, now: int)
    requires Inv(s)
    ensures var swept := Swept(cfg, s, op, now);
            && Inv(swept) && swept.work.byId.Keys == s.work.byId.Keys
            && forall id :: id in s.work.byId ==>
                 swept.work.byId[id].env == s.work.byId[id].env && swept.work.byId[id].createdAt == s.work.byId[id].createdAt
  {
    hide Inv, Sweep, OnlyEndsJobs, EndsSettled, Covered, IsSwept, Quiet, TalksQuiet, WaitsGrow;
    if Sweeps(op) {
      SweepIsComplete(cfg, s, now);
      assert LessBusy(s.work, Swept(cfg, s, op, now).work);
    }
  }

  /**
   * Nothing but its age ends the message in this call: its agents keep their sessions, and the operation
   * neither ends nor replaces it.
   */
  ghost predicate IsLeftAlone(cfg: Config, s: State, op: Op, now: int, id: Id) {
    && id in s.work.byId
    && (Sweeps(op) ==> !LosesItsAgent(cfg, s, s.work.byId[id], now))
    && var swept := Swept(cfg, s, op, now).work;
       var n := Act(cfg, Swept(cfg, s, op, now), op, now).state.work;
       && id in n.byId && id in swept.byId
       && n.byId[id].env == swept.byId[id].env && n.byId[id].createdAt == swept.byId[id].createdAt
       && (HasEnded(swept.byId[id].status) ==> n.byId[id].status == swept.byId[id].status)
       && (!HasEnded(swept.byId[id].status) ==> !HasEnded(n.byId[id].status))
  }

  ghost predicate StaysAlone(cfg: Config, calls: seq<Call>, from: nat, id: Id) {
    forall j :: from <= j < |calls| ==> IsLeftAlone(cfg, Run(cfg, calls[..j]), calls[j].op, calls[j].now, id)
  }

  /** Some call since then swept at the message's due time or later. */
  predicate WasSweptWhenDue(calls: seq<Call>, from: nat, m: Message) {
    exists j :: from <= j < |calls| && Sweeps(calls[j].op) && IsDue(m, calls[j].now)
  }

  lemma OneCallLater(cfg: Config, s: State, op: Op, now: int, id: Id)
    requires Inv(s) && IsLeftAlone(cfg, s, op, now, id)
    ensures var m := s.work.byId[id];
            var n := Apply(cfg, s, op, now).state.work;
            && id in n.byId && n.byId[id].env == m.env && n.byId[id].createdAt == m.createdAt
            && (HasEnded(m.status) ==> n.byId[id].status == m.status)
            && (!HasEnded(m.status) && Sweeps(op) && IsDue(m, now) ==> n.byId[id].status.Timeout?)
            && (!HasEnded(m.status) && !(Sweeps(op) && IsDue(m, now)) ==> !HasEnded(n.byId[id].status))
  {
    hide Inv, Act, Sweep, LosesItsAgent, IsDue;
    if Sweeps(op) {
      SweepEndsOnTime(cfg, s, now, id);
    }
  }

  /**
   * Timeouts. A message that nothing else ends stays busy through every sweep before its creation time
   * plus 1000 ms for each second of its timeout, and has timed out after any sweep from then on; without
   * a positive timeout no sweep ever ends it.
   */
  lemma {:induction false} TimesOutOnTime(cfg: Config, calls: seq<Call>, from: nat, id: Id)
    requires from <= |calls| && id in Run(cfg, calls[..from]).work.byId && !HasEnded(Run(cfg, calls[..from]).work.byId[id].status)
    requires StaysAlone(cfg, calls, from, id)
    ensures var m, n := Run(cfg, calls[..from]).work.byId[id], Run(cfg, calls).work.byId;
            && id in n && n[id].env == m.env && n[id].createdAt == m.createdAt
            && (if WasSweptWhenDue(calls, from, m) then n[id].status.Timeout? else !HasEnded(n[id].status))
    decreases |calls|
  {
    if from == |calls| {
      assert calls[..from] == calls;
    } else {
      var before, last := calls[..|calls| - 1], calls[|calls| - 1];
      Prefix(calls, from);
      StaysAloneBefore(cfg, calls, from, id);
      TimesOutOnTime(cfg, before, from, id);
      RunKeepsInv(cfg, before);
      OneCallLater(cfg, Run(cfg, before), last.op, last.now, id);
      hide Inv, Apply, IsLeftAlone, StaysAlone, WasSweptWhenDue, IsDue;
      var m := Run(cfg, calls[..from]).work.byId[id];
      SweptOnceMore(calls, from, m);
      SameDue(m, Run(cfg, before).work.byId[id], last.now);
    }
  }

  lemma StaysAloneBefore(cfg: Config, calls: seq<Call>, from: nat, id: Id)
    requires from < |calls| && StaysAlone(cfg, calls, from, id)
    ensures StaysAlone(cfg, calls[..|calls| - 1], from, id)
    ensures IsLeftAlone(cfg, Run(cfg, calls[..|calls| - 1]), calls[|calls| - 1].op, calls[|calls| - 1].now, id)
  {
    hide Run, IsLeftAlone;
    var before := calls[..|calls| - 1];
    forall j | from <= j < |before|
      ensures IsLeftAlone(cfg, Run(cfg, before[..j]), before[j].op, before[j].now, id)
    {
      Prefix(calls, j);
    }
  }

  lemma SweptOnceMore(calls: seq<Call>, from: nat, m: Message)
    requires from < |calls|
    ensures var last := calls[|calls| - 1];
            WasSweptWhenDue(calls, from, m) <==> WasSweptWhenDue(calls[..|calls| - 1], from, m) || (Sweeps(last.op) && IsDue(m, last.now))
  {
    hide IsDue;
    var before := calls[..|calls| - 1];
    if WasSweptWhenDue(before, from, m) {
      var j :| from <= j < |before| && Sweeps(before[j].op) && IsDue(m, before[j].now);
      assert calls[j] == before[j];
    }
    if Sweeps(calls[|calls| - 1].op) && IsDue(m, calls[|calls| - 1].now) {
      assert WasSweptWhenDue(calls, from, m);
    }
  }

  lemma SameDue(m: Message, n: Message, now: int)
    requires m.env == n.env && m.createdAt == n.createdAt
    ensures IsDue(m, now) <==> IsDue(n, now)
  {
  }

  // ---------------------------------------------------------------------
  // Leases over whole runs
  // ---------------------------------------------------------------------

  /** Every lease is the one that was there, or it runs from this instant for six of its intervals. */
  ghost predicate LeasesRunFrom(b: Board, n: Board, now: int) {
    forall k :: k in n.jobs && n.jobs[k].lease.Some? ==>
      || (k in b.jobs && b.jobs[k].lease == n.jobs[k].lease)
      || RunsFrom(n.jobs[k].lease.value, now)
  }

  predicate RunsFrom(l: Lease, now: int) {
    l.heartbeatMs >= 1000 && l.expiresAt == now + 6 * l.heartbeatMs
  }

  lemma UpsertRunsFrom(b: Board, env: Envelope, status: MessageStatus, now: int)
    ensures LeasesRunFrom(b, UpsertTask(b, env, status, now), now)
  {
    hide Key, Transition;
    if JobFor(b, env).Some? && Transition(JobFor(b, env).value, status).Ok? {
      MovingGrantsNothing(JobFor(b, env).value, status);
    }
  }

  lemma MovingGrantsNothing(job: Job, status: MessageStatus)
    requires Transition(job, status).Ok?
    ensures Transition(job, status).value.lease in {None, job.lease}
  {
  }

  lemma StoredRunsFrom(s: State, key: Id, status: JobStatus, lease: Lease, now: int)
    requires key in s.board.jobs && RunsFrom(lease, now)
    ensures LeasesRunFrom(s.board, StoreLease(s, key, status, lease).board, now)
  {
  }

  lemma SameLeases(b: Board, now: int)
    ensures LeasesRunFrom(b, b, now)
  {
  }

  lemma OnlyEndingRunsFrom(b: Board, n: Board, now: int)
    requires OnlyEndsJobs(b, n)
    ensures LeasesRunFrom(b, n, now)
  {
  }

  lemma RenewingRunsFrom(lease: Lease, holder: Id, heartbeatMs: int, now: int)
    ensures RunsFrom(Renew(lease, heartbeatMs, now), now) && RunsFrom(Reclaim(lease, holder, now), now)
  {
  }

  lemma LeaseCallsRunFrom(cfg: Config, s: State, op: Op, now: int)
    requires op.DoHeartbeatJob? || op.DoReclaimJob?
    ensures LeasesRunFrom(s.board, Act(cfg, s, op, now).state.board, now)
  {
    hide FindJob, StoreLease, LeasesRunFrom, Renew, Reclaim;
    SameLeases(s.board, now);
    var found := FindJob(s.board, op.task, op.scope);
    if found.Some? && found.value in s.board.jobs && s.board.jobs[found.value].lease.Some? {
      var job := s.board.jobs[found.value];
      RenewingRunsFrom(job.lease.value, op.holder, if op.DoHeartbeatJob? then op.heartbeatMs else 0, now);
      if op.DoHeartbeatJob? {
        StoredRunsFrom(s, found.value, job.status, Renew(job.lease.value, op.heartbeatMs, now), now);
      } else {
        StoredRunsFrom(s, found.value, JobStatus.Running, Reclaim(job.lease.value, op.holder, now), now);
      }
    }
  }

  lemma SessionCallsRunFrom(cfg: Config, s: State, op: Op, now: int)
    requires Inv(s) && (ChangesSessions(op) || op.DoCancelWork?)
    ensures LeasesRunFrom(s.board, Act(cfg, s, op, now).state.board, now)
  {
    hide Inv, LeasesRunFrom, EndSession, ExpireSessions, StaleLeases, SettleAgent, CancelTargets, CancelAll, FindConversation, Touch, Winds, EndsSettled, OnlyEndsJobs, Covered;
    SameLeases(s.board, now);
    match op {
      case DoReleaseSession(lease, scope) =>
        if SessionFor(s, lease, scope).Some? {
          EndSessionKeeps(s, lease, Released, now);
          OnlyEndingRunsFrom(s.board, EndSession(s, lease, Released, now).board, now);
        }
      case DoExpireSessions =>
        ExpireSessionsKeeps(cfg, s, s.registry.order, now);
        OnlyEndingRunsFrom(s.board, ExpireSessions(cfg, s, s.registry.order, now).board, now);
      case DoCancelWork(item, scope) =>
        var targets := CancelTargets(s.work, s.work.order, item, scope);
        CancelAllKeeps(s, targets, now);
        OnlyEndingRunsFrom(s.board, CancelAll(s, targets, now).board, now);
      case _ =>
    }
  }

  /** Operations that project a message's status on its job. */
  predicate Projects(op: Op) {
    op.DoEnqueue? || op.DoDeliver? || op.DoSaveReply? || op.DoUpdateStatus? || op.DoRecordActivity? || op.DoTimeoutReply?
  }

  lemma ProjectingRunsFrom(cfg: Config, s: State, op: Op, now: int)
    requires Projects(op)
    ensures LeasesRunFrom(s.board, Act(cfg, s, op, now).state.board, now)
  {
    hide LeasesRunFrom, UpsertTask, Touch, Queue, Refusal, Advanced, PollRefused, HoldsLease, ReplyIsStale, SettleWaits, RecordActivity, FirstCorrelated, IsBusy, Key;
    SameLeases(s.board, now);
    match op {
      case DoEnqueue(env, createWaiter) => QueueRunsFrom(s, env, createWaiter, now);
      case DoDeliver(agent, scope, lease, env) =>
        if env.id in s.work.byId {
          AdvancedRunsFrom(s, env.id, MessageStatus.Delivered, None, now);
        }
      case DoSaveReply(message, env, claim, lease) => UpsertRunsFrom(s.board, env, ReplyStatus(env), now);
      case DoUpdateStatus(message, status, lease) =>
        if message in s.work.byId {
          AdvancedRunsFrom(s, message, status, Some(TalkStatusOf(status)), now);
        }
      case DoRecordActivity(activity) => ActivityRunsFrom(s, activity, now);
      case DoTimeoutReply(correlation) =>
        var target := FirstCorrelated(s.work, s.work.order, correlation);
        if target.Some? && target.value in s.work.byId {
          UpsertRunsFrom(s.board, s.work.byId[target.value].env, MessageStatus.Timeout, now);
        }
    }
  }

  lemma QueueRunsFrom(s: State, env: Envelope, createWaiter: bool, now: int)
    ensures LeasesRunFrom(s.board, Queue(s, env, createWaiter, now).state.board, now)
  {
    hide LeasesRunFrom, UpsertTask, UpsertFails, Touch, ReplyFuture, IsTalk;
    SameLeases(s.board, now);
    UpsertRunsFrom(s.board, env, MessageStatus.Queued, now);
  }

  lemma AdvancedRunsFrom(s: State, id: Id, status: MessageStatus, talk: Option<ConversationStatus>, now: int)
    requires id in s.work.byId
    ensures LeasesRunFrom(s.board, Advanced(s, id, status, talk, now).state.board, now)
  {
    hide LeasesRunFrom, UpsertTask, UpsertFails, Touch;
    SameLeases(s.board, now);
    UpsertRunsFrom(s.board, s.work.byId[id].env, status, now);
  }

  lemma ActivityRunsFrom(s: State, a: Activity, now: int)
    ensures LeasesRunFrom(s.board, RecordActivity(s, a, now).state.board, now)
  {
    hide LeasesRunFrom, UpsertTask, HoldsLease, ActivityTarget, RunProjection, IsBusy, Key;
    SameLeases(s.board, now);
    ShowingRunsFrom(s.board, s.board, Key(a.project, a.task), now);
    var target := ActivityTarget(s.work, a);
    if target.Some? && target.value in s.work.byId {
      var n := UpsertTask(s.board, s.work.byId[target.value].env, MessageStatus.Running, now);
      UpsertRunsFrom(s.board, s.work.byId[target.value].env, MessageStatus.Running, now);
      ShowingRunsFrom(s.board, n, Key(a.project, a.task), now);
    }
  }

  lemma ShowingRunsFrom(b: Board, n: Board, key: Id, now: int)
    requires LeasesRunFrom(b, n, now)
    ensures LeasesRunFrom(b, RunProjection(n, key), now)
  {
  }

  lemma OthersKeepBoard(cfg: Config, s: State, op: Op, now: int)
    requires !Projects(op) && !ChangesSessions(op) && !op.DoCancelWork? && !op.DoHeartbeatJob? && !op.DoReclaimJob?
    ensures Act(cfg, s, op, now).state.board == s.board
  {
    hide FindConversation, Touch, HoldsLease, IsOnlyResult, Key, Complete, Remove, Min;
  }

  /**
   * Whatever call a run ends with, a lease that is new or changed after it runs from that call's time,
   * for six of its heartbeat intervals of at least a second.
   */
  lemma LeasesRunFromTheirCall(cfg: Config, calls: seq<Call>)
    requires calls != []
    ensures LeasesRunFrom(Run(cfg, calls[..|calls| - 1]).board, Run(cfg, calls).board, calls[|calls| - 1].now)
  {
    hide Inv, Act, Sweep, LeasesRunFrom, Winds, EndsSettled, Covered, IsSwept, OnlyEndsJobs;
    var last, s := calls[|calls| - 1], Run(cfg, calls[..|calls| - 1]);
    var swept := Swept(cfg, s, last.op, last.now);
    RunKeepsInv(cfg, calls[..|calls| - 1]);
    if Sweeps(last.op) {
      SweepIsComplete(cfg, s, last.now);
    } else {
      SettlingReflexive(s);
    }
    assert Inv(swept) && OnlyEndsJobs(s.board, swept.board);
    SameLeases(swept.board, last.now);
    if last.op.DoHeartbeatJob? || last.op.DoReclaimJob? {
      LeaseCallsRunFrom(cfg, swept, last.op, last.now);
    } else if ChangesSessions(last.op) || last.op.DoCancelWork? {
      SessionCallsRunFrom(cfg, swept, last.op, last.now);
    } else if Projects(last.op) {
      ProjectingRunsFrom(cfg, swept, last.op, last.now);
    } else {
      OthersKeepBoard(cfg, swept, last.op, last.now);
    }
    SweptRunsFrom(s.board, swept.board, Act(cfg, swept, last.op, last.now).state.board, last.now);
  }

  lemma SweptRunsFrom(b: Board, swept: Board, n: Board, now: int)
    requires OnlyEndsJobs(b, swept) && LeasesRunFrom(swept, n, now)
    ensures LeasesRunFrom(b, n, now)
  {
    hide RunsFrom;
  }
}
