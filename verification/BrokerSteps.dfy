/** The sweep and the operations keep the broker's invariant on every exit, raising or not. */
module BrokerSteps {
  import opened Basics
  import opened Jobs
  import opened BrokerState
  import opened BrokerOps
  import opened BrokerInvariants

  // ---------------------------------------------------------------------
  // Settling: what offline agents and timeouts do to the work
  // ---------------------------------------------------------------------

  /** Whatever stopped being busy left a result, a finished job and no waiting caller behind. */
  ghost predicate EndsSettled(s: State, n: State) {
    forall id :: id in s.work.byId && id in n.work.byId && IsBusy(s.work.byId[id].status) && !IsBusy(n.work.byId[id].status) ==>
      IsSettled(n, s.work.byId[id].env)
  }

  /** New jobs are finished and no lease is granted or changed. */
  ghost predicate OnlyEndsJobs(b: Board, n: Board) {
    forall k :: k in n.jobs ==>
      && (k in b.jobs || IsTerminal(n.jobs[k].status))
      && (n.jobs[k].lease.Some? ==> k in b.jobs && b.jobs[k].lease == n.jobs[k].lease)
  }

  ghost predicate Settling(s: State, n: State) {
    Winds(s, n) && OnlyEndsJobs(s.board, n.board) && n.waits.replies == s.waits.replies && EndsSettled(s, n)
  }

  lemma SettledStays(s: State, n: State, env: Envelope)
    requires Winds(s, n) && OnlyEndsJobs(s.board, n.board) && n.waits.replies == s.waits.replies
    requires IsSettled(s, env)
    ensures IsSettled(n, env)
  {
    hide Key, LessBusy, TalksQuiet;
  }

  lemma SettlingTransitive(a: State, b: State, c: State)
    requires Inv(b) && Inv(c) && Settling(a, b) && Settling(b, c)
    ensures Settling(a, c)
  {
    WindsTransitive(a, b, c);
    hide IsSettled, TalksQuiet, WaitsGrow, Inv;
    forall id | id in a.work.byId && id in c.work.byId && IsBusy(a.work.byId[id].status) && !IsBusy(c.work.byId[id].status)
      ensures IsSettled(c, a.work.byId[id].env)
    {
      assert LessBusy(a.work, b.work) && LessBusy(b.work, c.work);
      if !IsBusy(b.work.byId[id].status) {
        SettledStays(b, c, a.work.byId[id].env);
      }
    }
    forall k | k in c.board.jobs
      ensures k in a.board.jobs || IsTerminal(c.board.jobs[k].status)
    {
      assert Quiet(b.board, c.board);
    }
  }

  lemma SettlingReflexive(s: State)
    ensures Settling(s, s)
  {
  }

  lemma SettleOnlyEnds(s: State, id: Id, status: MessageStatus, now: int)
    requires Inv(s) && id in s.work.byId && (status.Cancelled? || status.Timeout?)
    ensures OnlyEndsJobs(s.board, Settle(s, id, status, now).board)
  {
    hide UpsertTask, Touch, SettleWaits, WaitsOK, TalksOK, WorkOK, OneBusyPerWorker, RegistryOK, OneSessionPerAgent;
    EndingNeverFails(s.board, s.work.byId[id].env, status, now);
    UpsertKeeps(s.board, s.work.byId[id].env, status, now);
  }

  lemma SettleIsSettling(s: State, id: Id, status: MessageStatus, now: int)
    requires Inv(s) && id in s.work.byId && (status.Cancelled? || status.Timeout?)
    ensures var n := Settle(s, id, status, now);
            Inv(n) && Settling(s, n) && n.registry == s.registry && n.work == SetStatus(s.work, id, status)
  {
    hide UpsertTask, Touch, SettleWaits, IsSettled, Inv, Winds;
    SettleKeeps(s, id, status, now);
    SettleOnlyEnds(s, id, status, now);
  }

  /** No message of `ids` that is still busy concerns the agent. */
  ghost predicate ClearOf(w: Work, ids: seq<Id>, agent: Id, project: Id) {
    forall i :: 0 <= i < |ids| && ids[i] in w.byId ==> !ConcernsAgent(w.byId[ids[i]], agent, project)
  }

  lemma {:induction false} SettleAgentKeeps(s: State, ids: seq<Id>, agent: Id, project: Id, now: int)
    requires Inv(s)
    ensures var n := SettleAgent(s, ids, agent, project, now).state;
            Inv(n) && Settling(s, n) && n.registry == s.registry && ClearOf(n.work, ids, agent, project)
    decreases |ids|
  {
    hide Inv, Settle, Settling;
    if ids == [] {
      SettlingReflexive(s);
    } else {
      var id, rest := ids[|ids| - 1], ids[..|ids| - 1];
      var before := SettleAgent(s, rest, agent, project, now).state;
      SettleAgentKeeps(s, rest, agent, project, now);
      if id in before.work.byId && ConcernsAgent(before.work.byId[id], agent, project) {
        SettleIsSettling(before, id, MessageStatus.Cancelled, now);
        SettlingTransitive(s, before, Settle(before, id, MessageStatus.Cancelled, now));
      }
    }
  }

  lemma {:induction false} TimeoutMessagesKeeps(s: State, ids: seq<Id>, now: int)
    requires Inv(s)
    ensures var n := TimeoutMessages(s, ids, now);
            && Inv(n) && Settling(s, n) && n.registry == s.registry
            && forall i :: 0 <= i < |ids| && ids[i] in n.work.byId ==> !IsOverdue(n.work.byId[ids[i]], now)
    decreases |ids|
  {
    hide Inv, Settle, Settling;
    if ids == [] {
      SettlingReflexive(s);
    } else {
      var id, rest := ids[|ids| - 1], ids[..|ids| - 1];
      var before := TimeoutMessages(s, rest, now);
      TimeoutMessagesKeeps(s, rest, now);
      if id in before.work.byId && IsOverdue(before.work.byId[id], now) {
        SettleIsSettling(before, id, MessageStatus.Timeout, now);
        SettlingTransitive(s, before, Settle(before, id, MessageStatus.Timeout, now));
      }
    }
  }

  lemma {:induction false} CancelAllKeeps(s: State, ids: seq<Id>, now: int)
    requires Inv(s)
    ensures var n := CancelAll(s, ids, now);
            && Inv(n) && Settling(s, n) && n.registry == s.registry
            && forall i :: 0 <= i < |ids| && ids[i] in n.work.byId ==> n.work.byId[ids[i]].status.Cancelled?
    decreases |ids|
  {
    hide Inv, Settle, Settling;
    if ids == [] {
      SettlingReflexive(s);
    } else {
      var id, rest := ids[|ids| - 1], ids[..|ids| - 1];
      var before := CancelAll(s, rest, now);
      CancelAllKeeps(s, rest, now);
      if id in before.work.byId {
        SettleIsSettling(before, id, MessageStatus.Cancelled, now);
        SettlingTransitive(s, before, Settle(before, id, MessageStatus.Cancelled, now));
      }
    }
  }

  // ---------------------------------------------------------------------
  // Sessions and the work they cover
  // ---------------------------------------------------------------------

  /** With peer sessions required, every busy worker-bound message targets an agent with an active session. */
  ghost predicate Covered(s: State) {
    forall id :: id in s.work.byId && Occupies(s.work.byId[id]) && s.work.byId[id].env.target != [] ==>
      HasActiveSession(s.registry, s.work.byId[id].env.target, Some(s.work.byId[id].env.project))
  }

  lemma LessWorkIsCovered(s: State, n: State)
    requires Covered(s) && LessBusy(s.work, n.work) && n.registry == s.registry
    ensures Covered(n)
  {
    hide HasActiveSession;
  }

  /** Sessions only end; identities and order stay. */
  ghost predicate SessionsEnd(r: Registry, n: Registry) {
    && n.order == r.order
    && (forall l :: l in n.byLease <==> l in r.byLease)
    && (forall l :: l in r.byLease ==>
          && n.byLease[l].lease == r.byLease[l].lease
          && n.byLease[l].agent == r.byLease[l].agent
          && n.byLease[l].project == r.byLease[l].project
          && (n.byLease[l] == r.byLease[l] || !n.byLease[l].status.Active?))
  }

  lemma SessionsEndKeeps(r: Registry, n: Registry)
    requires RegistryOK(r) && OneSessionPerAgent(r.byLease) && SessionsEnd(r, n)
    ensures RegistryOK(n) && OneSessionPerAgent(n.byLease)
  {
  }

  lemma OthersStayCovered(s: State, n: State, x: Session)
    requires Covered(s) && WorkOK(s.work) && LessBusy(s.work, n.work) && ClearOf(n.work, s.work.order, x.agent, x.project)
    requires forall l :: l in s.registry.byLease && s.registry.byLease[l] != x ==>
               l in n.registry.byLease && n.registry.byLease[l] == s.registry.byLease[l]
    ensures Covered(n)
  {
    forall id | id in n.work.byId && Occupies(n.work.byId[id]) && n.work.byId[id].env.target != []
      ensures HasActiveSession(n.registry, n.work.byId[id].env.target, Some(n.work.byId[id].env.project))
    {
      var env := s.work.byId[id].env;
      assert HasActiveSession(s.registry, env.target, Some(env.project));
      var l :| l in s.registry.byLease && IsActiveFor(s.registry.byLease[l], env.target, Some(env.project));
      var i :| 0 <= i < |s.work.order| && s.work.order[i] == id;
      assert !ConcernsAgent(n.work.byId[s.work.order[i]], x.agent, x.project);
      assert l in n.registry.byLease && n.registry.byLease[l] == s.registry.byLease[l];
    }
  }

  lemma SettlingIgnoresRegistry(s: State, n: State, r: Registry)
    requires Settling(s, n)
    ensures Settling(s, n.(registry := r)) && LessBusy(s.work, n.work)
  {
    hide IsSettled, LessBusy, Quiet, TalksQuiet, WaitsGrow;
    var m := n.(registry := r);
    assert forall env :: IsSettled(n, env) ==> IsSettled(m, env) by { SameSettled(n, r); }
  }

  lemma SameSettled(n: State, r: Registry)
    ensures forall env :: IsSettled(n, env) ==> IsSettled(n.(registry := r), env)
  {
  }

  lemma EndSessionKeeps(s: State, lease: Id, status: SessionStatus, now: int)
    requires Inv(s) && lease in s.registry.byLease && !status.Active?
    ensures var n := EndSession(s, lease, status, now);
            && Inv(n) && Settling(s, n) && SessionsEnd(s.registry, n.registry)
            && n.registry.byLease[lease].status == status
            && (forall l :: l in s.registry.byLease && l != lease ==> n.registry.byLease[l] == s.registry.byLease[l])
            && ClearOf(n.work, s.work.order, s.registry.byLease[lease].agent, s.registry.byLease[lease].project)
            && (Covered(s) ==> Covered(n))
  {
    hide SettleAgent, ClearOf, Settling, LessBusy, WaitsOK, WorkOK, OneBusyPerWorker, OneSessionPerAgent, BoardOK, TalksOK, Covered;
    var x := s.registry.byLease[lease];
    var settled := SettleAgent(s, s.work.order, x.agent, x.project, now).state;
    var n := EndSession(s, lease, status, now);
    SettleAgentKeeps(s, s.work.order, x.agent, x.project, now);
    SettlingIgnoresRegistry(s, settled, n.registry);
    assert SessionsEnd(s.registry, n.registry);
    SessionsEndKeeps(s.registry, n.registry);
    if Covered(s) {
      OthersStayCovered(s, n, x);
    }
  }

  lemma {:induction false} ExpireSessionsKeeps(cfg: Config, s: State, leases: seq<Id>, now: int)
    requires Inv(s)
    ensures var n := ExpireSessions(cfg, s, leases, now);
            && Inv(n) && Settling(s, n) && SessionsEnd(s.registry, n.registry)
            && (forall i :: 0 <= i < |leases| && leases[i] in n.registry.byLease ==> !IsStale(cfg, n.registry.byLease[leases[i]], now))
            && (Covered(s) ==> Covered(n))
    decreases |leases|
  {
    hide Inv, EndSession, Settling, Covered;
    if leases == [] {
      SettlingReflexive(s);
    } else {
      var lease, rest := leases[|leases| - 1], leases[..|leases| - 1];
      var before := ExpireSessions(cfg, s, rest, now);
      ExpireSessionsKeeps(cfg, s, rest, now);
      if lease in before.registry.byLease && IsStale(cfg, before.registry.byLease[lease], now) {
        EndSessionKeeps(before, lease, Expired, now);
        SettlingTransitive(s, before, EndSession(before, lease, Expired, now));
      }
    }
  }

  /** Nothing stale or overdue is left. */
  ghost predicate IsSwept(cfg: Config, s: State, now: int) {
    && (forall l :: l in s.registry.byLease ==> !IsStale(cfg, s.registry.byLease[l], now))
    && (forall id :: id in s.work.byId ==> !IsOverdue(s.work.byId[id], now))
  }

  /**
   * The sweep is complete: every active session is within its grace and every busy message within its
   * timeout; what the sweep ended has a result and a finished job, and no caller still waits for it.
   */
  lemma SweepIsComplete(cfg: Config, s: State, now: int)
    requires Inv(s)
    ensures var n := Sweep(cfg, s, now);
            && Inv(n) && Settling(s, n) && IsSwept(cfg, n, now) && SessionsEnd(s.registry, n.registry)
            && (Covered(s) ==> Covered(n))
  {
    hide Settling, Covered, ExpireSessions, TimeoutMessages, OneBusyPerWorker, BoardOK, TalksOK, WaitsOK, OneSessionPerAgent, IsOverdue, IsStale;
    var expired := ExpireSessions(cfg, s, s.registry.order, now);
    var n := Sweep(cfg, s, now);
    ExpireSessionsKeeps(cfg, s, s.registry.order, now);
    TimeoutMessagesKeeps(expired, expired.work.order, now);
    SettlingTransitive(s, expired, n);
    SettlingIgnoresRegistry(expired, n, n.registry);
    if Covered(expired) {
      LessWorkIsCovered(expired, n);
    }
    forall id | id in n.work.byId
      ensures !IsOverdue(n.work.byId[id], now)
    {
      var i :| 0 <= i < |expired.work.order| && expired.work.order[i] == id;
    }
    forall l | l in n.registry.byLease
      ensures !IsStale(cfg, n.registry.byLease[l], now)
    {
      var i :| 0 <= i < |s.registry.order| && s.registry.order[i] == l;
    }
  }

  // ---------------------------------------------------------------------
  // Exactly which messages and sessions the sweep ends
  // ---------------------------------------------------------------------

  /** The message `id` as settling one agent's work leaves it. */
  lemma {:induction false} SettleAgentDecides(s: State, ids: seq<Id>, agent: Id, project: Id, now: int, id: Id)
    requires id in s.work.byId
    ensures var n := SettleAgent(s, ids, agent, project, now).state;
            && n.registry == s.registry && n.work.order == s.work.order && id in n.work.byId
            && n.work.byId[id] == if id in ids && ConcernsAgent(s.work.byId[id], agent, project)
                                  then s.work.byId[id].(status := MessageStatus.Cancelled) else s.work.byId[id]
    decreases |ids|
  {
    hide UpsertTask, Touch, SettleWaits, SettledIds;
    if ids != [] {
      SettleAgentDecides(s, ids[..|ids| - 1], agent, project, now, id);
      assert ids == ids[..|ids| - 1] + [ids[|ids| - 1]];
    }
  }

  lemma {:induction false} TimeoutMessagesDecides(s: State, ids: seq<Id>, now: int, id: Id)
    requires id in s.work.byId
    ensures var n := TimeoutMessages(s, ids, now);
            && n.registry == s.registry && id in n.work.byId
            && n.work.byId[id] == if id in ids && IsOverdue(s.work.byId[id], now)
                                  then s.work.byId[id].(status := MessageStatus.Timeout) else s.work.byId[id]
    decreases |ids|
  {
    hide UpsertTask, Touch, SettleWaits, SettledIds;
    if ids != [] {
      TimeoutMessagesDecides(s, ids[..|ids| - 1], now, id);
      assert ids == ids[..|ids| - 1] + [ids[|ids| - 1]];
    }
  }

  lemma {:induction false} ExpireSessionsDecides(cfg: Config, s: State, leases: seq<Id>, now: int, l: Id)
    ensures var n := ExpireSessions(cfg, s, leases, now);
            && (l in n.registry.byLease <==> l in s.registry.byLease)
            && (l in s.registry.byLease ==>
                  if l in leases && IsStale(cfg, s.registry.byLease[l], now) then n.registry.byLease[l].status.Expired?
                  else n.registry.byLease[l] == s.registry.byLease[l])
    decreases |leases|
  {
    hide SettleAgent, Grace;
    if leases != [] {
      var lease, rest := leases[|leases| - 1], leases[..|leases| - 1];
      var before := ExpireSessions(cfg, s, rest, now);
      ExpireSessionsDecides(cfg, s, rest, now, l);
      assert leases == rest + [lease];
      if lease in before.registry.byLease {
        var x := before.registry.byLease[lease];
        SettleAgentKeepsRegistry(before, before.work.order, x.agent, x.project, now);
      }
    }
  }

  lemma {:induction false} SettleAgentKeepsRegistry(s: State, ids: seq<Id>, agent: Id, project: Id, now: int)
    ensures SettleAgent(s, ids, agent, project, now).state.registry == s.registry
    decreases |ids|
  {
    hide UpsertTask, Touch, SettleWaits, SettledIds;
    if ids != [] {
      SettleAgentKeepsRegistry(s, ids[..|ids| - 1], agent, project, now);
    }
  }

  /** One of these sessions is stale and the busy message is its agent's. */
  ghost predicate AgentIsGone(cfg: Config, r: Registry, leases: seq<Id>, m: Message, now: int) {
    exists l :: l in leases && l in r.byLease && IsStale(cfg, r.byLease[l], now) && ConcernsAgent(m, r.byLease[l].agent, r.byLease[l].project)
  }

  lemma AgentIsGoneOneMore(cfg: Config, r: Registry, rest: seq<Id>, lease: Id, m: Message, now: int)
    ensures AgentIsGone(cfg, r, rest + [lease], m, now) <==>
            || AgentIsGone(cfg, r, rest, m, now)
            || (lease in r.byLease && IsStale(cfg, r.byLease[lease], now) && ConcernsAgent(m, r.byLease[lease].agent, r.byLease[lease].project))
  {
    hide IsStale, ConcernsAgent;
    assert forall l :: l in rest + [lease] <==> l in rest || l == lease;
  }

  lemma {:induction false} ExpiryDecides(cfg: Config, s: State, leases: seq<Id>, now: int, id: Id)
    requires id in s.work.byId && id in s.work.order
    ensures var n := ExpireSessions(cfg, s, leases, now);
            && n.work.order == s.work.order && id in n.work.byId
            && n.work.byId[id] == if AgentIsGone(cfg, s.registry, leases, s.work.byId[id], now)
                                  then s.work.byId[id].(status := MessageStatus.Cancelled) else s.work.byId[id]
    decreases |leases|
  {
    hide SettleAgent, Grace, AgentIsGone;
    if leases == [] {
      assert !AgentIsGone(cfg, s.registry, leases, s.work.byId[id], now) by { NobodyIsGone(cfg, s.registry, s.work.byId[id], now); }
    } else {
      var lease, rest := leases[|leases| - 1], leases[..|leases| - 1];
      var before := ExpireSessions(cfg, s, rest, now);
      ExpiryDecides(cfg, s, rest, now, id);
      assert leases == rest + [lease];
      AgentIsGoneOneMore(cfg, s.registry, rest, lease, s.work.byId[id], now);
      ExpireSessionsDecides(cfg, s, rest, now, lease);
      if lease in before.registry.byLease && IsStale(cfg, before.registry.byLease[lease], now) {
        var x := before.registry.byLease[lease];
        SettleAgentDecides(before, before.work.order, x.agent, x.project, now, id);
      } else if lease in s.registry.byLease && IsStale(cfg, s.registry.byLease[lease], now) {
        AlreadyGone(cfg, s.registry, rest, lease, s.work.byId[id], now);
      }
    }
  }

  lemma NobodyIsGone(cfg: Config, r: Registry, m: Message, now: int)
    ensures !AgentIsGone(cfg, r, [], m, now)
  {
  }

  lemma AlreadyGone(cfg: Config, r: Registry, rest: seq<Id>, lease: Id, m: Message, now: int)
    requires lease in rest && lease in r.byLease && IsStale(cfg, r.byLease[lease], now)
    ensures ConcernsAgent(m, r.byLease[lease].agent, r.byLease[lease].project) ==> AgentIsGone(cfg, r, rest, m, now)
  {
  }

  /**
   * The sweep ends exactly the busy messages of agents whose active session outlived its grace
   * (cancelled) and, of the others, those past their own timeout (timed out).
   */
  lemma SweepDecides(cfg: Config, s: State, now: int, id: Id)
    requires Inv(s) && id in s.work.byId
    ensures var m := s.work.byId[id];
            var n := Sweep(cfg, s, now);
            id in n.work.byId
            && n.work.byId[id] == m.(status :=
              if exists l :: l in s.registry.byLease && IsStale(cfg, s.registry.byLease[l], now)
                             && ConcernsAgent(m, s.registry.byLease[l].agent, s.registry.byLease[l].project)
              then MessageStatus.Cancelled
              else if IsOverdue(m, now) then MessageStatus.Timeout else m.status)
  {
    var expired := ExpireSessions(cfg, s, s.registry.order, now);
    ExpiryDecides(cfg, s, s.registry.order, now, id);
    TimeoutMessagesDecides(expired, expired.work.order, now, id);
    hide ExpireSessions, TimeoutMessages, IsStale, OneBusyPerWorker, BoardOK, TalksOK, WaitsOK, OneSessionPerAgent;
  }

  /** And it expires exactly the active sessions that outlived their grace. */
  lemma SweepExpires(cfg: Config, s: State, now: int, l: Id)
    requires Inv(s) && l in s.registry.byLease
    ensures var n := Sweep(cfg, s, now);
            && l in n.registry.byLease
            && if IsStale(cfg, s.registry.byLease[l], now) then n.registry.byLease[l].status.Expired?
               else n.registry.byLease[l] == s.registry.byLease[l]
  {
    var expired := ExpireSessions(cfg, s, s.registry.order, now);
    ExpireSessionsDecides(cfg, s, s.registry.order, now, l);
    ExpireSessionsKeeps(cfg, s, s.registry.order, now);
    TimeoutMessagesKeeps(expired, expired.work.order, now);
    hide ExpireSessions, TimeoutMessages, IsStale, Settling, WorkOK, OneBusyPerWorker, BoardOK, TalksOK, WaitsOK, OneSessionPerAgent;
  }
}
