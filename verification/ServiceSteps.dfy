/**
 * A call's store change and its checkpoint write as separate steps: calls under the checkpoint lock write
 * later, and deliveries and all other calls may come in between.
 */
module ServiceSteps {
  import opened Basics
  import opened Jobs
  import opened BrokerState
  import opened BrokerOps
  import opened BrokerInvariants
  import opened BrokerSteps
  import opened BrokerActs
  import opened BrokerRuns
  import opened Checkpoint
  import opened Service
  import opened ServiceNames
  import opened ServiceAgreement

  /** Calls that hold the checkpoint lock from before their store change until after their checkpoint write. */
  predicate IsLocked(op: Op) {
    op.DoReleaseSession? || op.DoExpireSessions? || op.DoSaveReply? || op.DoCancelWork? || op.DoHeartbeatJob? || op.DoReclaimJob?
  }

  /** What the holder of the checkpoint lock has yet to write. */
  datatype Unrecorded = Unrecorded(op: Op, effect: Effect)

  datatype Desk = Desk(store: State, file: seq<Entry>, pending: Option<Unrecorded>)

  const OPENED := Desk(EMPTY, [], None)

  datatype Step =
    | Begin(op: Op, now: int)
    | Finish
    | Free(op: Op, now: int)

  /** A delivery writes its own lease at once, inside the store's lock. */
  ghost function Next(cfg: Config, w: Desk, step: Step): Desk {
    match step
    case Begin(op, now) =>
      if w.pending.Some? || !IsLocked(op) then w
      else
        var e := Apply(cfg, w.store, op, now);
        w.(store := e.state, pending := Some(Unrecorded(op, e)))
    case Finish =>
      if w.pending.None? then w else w.(file := Finished(w), pending := None)
    case Free(op, now) =>
      if IsLocked(op) then w
      else
        var e := Apply(cfg, w.store, op, now);
        w.(store := e.state, file := Recorded(w.file, op, e))
  }

  /** The checkpoint as it will be once the pending write is done. */
  function Finished(w: Desk): seq<Entry> {
    match w.pending case None => w.file case Some(u) => Recorded(w.file, u.op, u.effect)
  }

  ghost function RunSteps(cfg: Config, steps: seq<Step>): Desk {
    if steps == [] then OPENED else Next(cfg, RunSteps(cfg, steps[..|steps| - 1]), steps[|steps| - 1])
  }

  /** The reply leaves the task it names finished. */
  predicate ReplyFinishes(b: Board, reply: Envelope) {
    var key := Key(reply.project, reply.task);
    reply.task == [] || (if key in b.jobs then !reply.kind.ChatClose? || IsTerminal(b.jobs[key].status) else reply.kind.TaskMessage?)
  }

  ghost predicate LawfulStep(names: Naming, cfg: Config, w: Desk, step: Step) {
    match step
    case Begin(op, now) =>
      var swept := Swept(cfg, w.store, op, now);
      Lawful(names, swept, op) && (op.DoSaveReply? ==> ReplyFinishes(swept.board, op.env))
    case Finish => true
    case Free(op, now) => Lawful(names, Swept(cfg, w.store, op, now), op)
  }

  ghost predicate LawfulSteps(names: Naming, cfg: Config, steps: seq<Step>) {
    steps != [] ==>
      LawfulSteps(names, cfg, steps[..|steps| - 1]) && LawfulStep(names, cfg, RunSteps(cfg, steps[..|steps| - 1]), steps[|steps| - 1])
  }

  // ---------------------------------------------------------------------
  // What a pending write does to one task's entry
  // ---------------------------------------------------------------------

  function ItemsOf(r: Registry, leases: seq<Id>): seq<Id> {
    if leases == [] then [] else ItemsOf(r, leases[..|leases| - 1]) + SettledBy(r, leases[|leases| - 1])
  }

  /** The items a write settles. */
  function Settles(u: Unrecorded): seq<Id> {
    match u.effect.outcome
    case Accepted => if u.op.DoSaveReply? && u.op.env.task != [] then [u.op.env.task] else []
    case CancelledItems(_) => if u.op.DoCancelWork? then [u.op.item] else []
    case Ended(settled) => settled
    case ExpiredSessions(leases) => ItemsOf(u.effect.state.registry, leases)
    case _ => []
  }

  predicate RecordsLease(u: Unrecorded) {
    (u.op.DoHeartbeatJob? && u.effect.outcome.LeaseRenewed?) || (u.op.DoReclaimJob? && u.effect.outcome.LeaseReclaimed?)
  }

  function WriteOf(u: Unrecorded, file: seq<Entry>): seq<Entry> {
    Recorded(file, u.op, u.effect)
  }

  lemma {:induction false} SettlingItemsSparesOthers(file: seq<Entry>, items: seq<Id>, task: Id)
    ensures task !in items ==> Find(RecordAllSettled(file, items), task) == Find(file, task)
    ensures Find(file, task).None? <==> Find(RecordAllSettled(file, items), task).None?
  {
    hide RecordSettled;
    if items != [] {
      var before, item := items[..|items| - 1], items[|items| - 1];
      SettlingItemsSparesOthers(file, before, task);
      assert items == before + [item];
      if item != task {
        SettlingOthersKeepsEntry(RecordAllSettled(file, before), task, item, None);
      } else {
        SettlingAddsNothing(RecordAllSettled(file, before), task);
      }
    }
  }

  /** Without a lease a settlement never adds or removes an entry. */
  lemma SettlingAddsNothing(file: seq<Entry>, task: Id)
    ensures Find(file, task).None? <==> Find(RecordSettled(file, task, None), task).None?
  {
    hide Upsert;
    if Find(file, task).None? {
      NothingToSettle(file, task);
    } else if task != [] && FirstInFlight(file, task).Some? {
      FindAfterUpsert(file, FirstInFlight(file, task).value.(status := RecentlySettled), task);
    }
  }

  lemma {:induction false} ExpiringSparesOthers(file: seq<Entry>, r: Registry, leases: seq<Id>, task: Id)
    ensures task !in ItemsOf(r, leases) ==> Find(RecordExpired(file, r, leases), task) == Find(file, task)
    ensures Find(file, task).None? <==> Find(RecordExpired(file, r, leases), task).None?
  {
    hide RecordAllSettled;
    if leases != [] {
      var before := leases[..|leases| - 1];
      ExpiringSparesOthers(file, r, before, task);
      SettlingItemsSparesOthers(RecordExpired(file, r, before), SettledBy(r, leases[|leases| - 1]), task);
    }
  }

  /** A write that settles leaves other tasks alone, and adds an entry only for a reply's own task. */
  lemma WriteSparesOthers(u: Unrecorded, file: seq<Entry>, task: Id)
    requires IsLocked(u.op) && !RecordsLease(u) && !u.effect.outcome.Delivery?
    ensures task !in Settles(u) ==> Find(WriteOf(u, file), task) == Find(file, task)
    ensures !(u.op.DoSaveReply? && u.op.env.task == task) ==> (Find(file, task).None? <==> Find(WriteOf(u, file), task).None?)
  {
    hide RecordSettled, RecordAllSettled, RecordExpired, DecodeClaim, FirstInFlight;
    match u.effect.outcome
    case Accepted =>
      if u.op.DoSaveReply? {
        if u.op.env.task != task {
          SettlingOthersKeepsEntry(file, task, u.op.env.task, DecodeClaim(u.op.claim));
        } else {
          NoTaskNoRecord(file, DecodeClaim(u.op.claim));
        }
      }
    case CancelledItems(_) =>
      if u.op.DoCancelWork? {
        SettlingItemsSparesOthers(file, [u.op.item], task);
        OneSettled(file, u.op.item);
      }
    case Ended(settled) => SettlingItemsSparesOthers(file, settled, task);
    case ExpiredSessions(leases) => ExpiringSparesOthers(file, u.effect.state.registry, leases, task);
    case _ =>
  }

  lemma OneSettled(file: seq<Entry>, item: Id)
    ensures RecordAllSettled(file, [item]) == RecordSettled(file, item, None)
  {
    hide RecordSettled;
    assert [item][..0] == [];
  }

  /** Recording the same lease before or after another move of its task leaves it on top. */
  lemma InFlightTwice(file: seq<Entry>, l: Entry, m: Entry)
    requires l.task == m.task && l.status.InFlight? && m.status.InFlight?
    requires Find(Upsert(file, l), m.task) == Some(m)
    ensures Find(Upsert(Upsert(file, m), l), m.task) == Some(m)
  {
    hide Upsert;
    FindAfterUpsert(file, l, m.task);
    FindAfterUpsert(file, m, m.task);
    FindAfterUpsert(Upsert(file, m), l, m.task);
  }

  // ---------------------------------------------------------------------
  // The agreement, as if the pending write were done
  // ---------------------------------------------------------------------

  /** What the pending write will settle is finished, and stays so. */
  ghost predicate PendingOK(names: Naming, b: Board, u: Unrecorded) {
    && IsLocked(u.op) && !u.effect.outcome.Delivery?
    && ItemsFinished(names, b, Settles(u))
    && (u.op.DoSaveReply? ==> u.op.env.task == [] || u.op.env.task in names.tasks)
  }

  ghost predicate Orderly(names: Naming, w: Desk, task: Id) {
    && Inv(w.store) && Named(names, w.store)
    && (w.pending.Some? ==> PendingOK(names, w.store.board, w.pending.value))
    && Agrees(w.store.board, Finished(w), names.project, task)
  }

  lemma {:induction false} ItemsOfAreFinished(names: Naming, s: State, leases: seq<Id>)
    requires Named(names, s)
    ensures ItemsFinished(names, s.board, ItemsOf(s.registry, leases))
  {
    hide ItemsFinished, WorkNamed, BoardNamed, TalksNamed;
    NoItems(names, s.board);
    if leases != [] {
      var before := leases[..|leases| - 1];
      ItemsOfAreFinished(names, s, before);
      FinishedItemsAdd(names, s.board, ItemsOf(s.registry, before), SettledBy(s.registry, leases[|leases| - 1]));
    }
  }

  lemma OneItemIsFinished(names: Naming, b: Board, item: Id)
    requires item in names.tasks ==> IsFinished(b, Key(names.project, item))
    ensures ItemsFinished(names, b, [item])
  {
    hide Key;
  }

  lemma ReplyLeavesFinished(names: Naming, s: State, op: Op, now: int)
    requires Inv(s) && op.DoSaveReply? && op.env.task != [] && ReplyFinishes(s.board, op.env)
    requires SaveReply(s, op.message, op.env, op.claim, op.lease, now).outcome.Accepted?
    ensures IsFinished(SaveReply(s, op.message, op.env, op.claim, op.lease, now).state.board, Key(op.env.project, op.env.task))
  {
    hide Key, Inv, UpsertTask, Touch, SettleWaits, HoldsLease, ReplyIsStale, BoardOK;
    BoardIsOK(s);
    var key := Key(op.env.project, op.env.task);
    if key in s.board.jobs && op.env.kind.ChatClose? {
      UpsertKeeps(s.board, op.env, ReplyStatus(op.env), now);
    } else {
      TaskReplyIsFaithful(s.board, op.env, op.claim, now);
    }
  }

  /** What a call leaves to be settled is finished by then. */
  lemma BegunIsFinished(names: Naming, cfg: Config, s: State, op: Op, now: int)
    requires Inv(s) && Named(names, s) && Lawful(names, s, op) && IsLocked(op)
    requires op.DoSaveReply? ==> ReplyFinishes(s.board, op.env)
    ensures var e := Act(cfg, s, op, now); PendingOK(names, e.state.board, Unrecorded(op, e))
  {
    hide Inv, Named, ItemsFinished, IsUsable, SaveReply, CancelWork, ReleaseSession, ExpireSessions, StaleLeases, HeartbeatJob, ReclaimJob, Key, IsFinished;
    var e := Act(cfg, s, op, now);
    NoItems(names, e.state.board);
    LockedOutcomes(cfg, s, op, now);
    match op {
      case DoSaveReply(message, env, claim, lease) =>
        if e.outcome.Accepted? && env.task != [] {
          ReplyLeavesFinished(names, s, op, now);
          OneItemIsFinished(names, e.state.board, env.task);
        }
      case DoCancelWork(item, scope) =>
        if e.outcome.CancelledItems? {
          if item in names.tasks {
            CancelledTaskIsFinished(names, s, item, scope, now);
          }
          OneItemIsFinished(names, e.state.board, item);
        }
      case DoReleaseSession(lease, scope) =>
        if SessionFor(s, lease, scope).Some? {
          ReleasedItemsAreFinished(names, s, lease, scope, now);
        }
      case DoExpireSessions =>
        SessionCallIsTidy(names, cfg, s, op, now);
        ItemsOfAreFinished(names, e.state, StaleLeases(cfg, s.registry, s.registry.order, now));
      case _ =>
    }
  }

  lemma LockedOutcomes(cfg: Config, s: State, op: Op, now: int)
    requires IsLocked(op)
    ensures var o := Act(cfg, s, op, now).outcome;
            && !o.Delivery?
            && (o.Accepted? ==> op.DoSaveReply?)
            && (o.CancelledItems? ==> op.DoCancelWork?)
            && (o.Ended? ==> op.DoReleaseSession? && SessionFor(s, op.lease, op.scope).Some?)
            && (o.ExpiredSessions? ==> op.DoExpireSessions?)
  {
    hide FindJob, FindConversation, CancelTargets, CancelAll, EndSession, ExpireSessions, StaleLeases, SettleAgent, HoldsLease, ReplyIsStale, Replied, Touch, StoreLease;
  }

  // ---------------------------------------------------------------------
  // A delivery between another call's store change and its write
  // ---------------------------------------------------------------------

  /** The lease a delivery writes down is the one its task now has. */
  lemma DeliveryNamesTask(names: Naming, s: State, op: Op, now: int)
    requires Inv(s) && Named(names, s) && op.DoDeliver?
    ensures var e := Deliver(s, op.agent, op.scope, op.lease, op.env, now);
            e.outcome.Delivery? && e.outcome.granted.Some? ==>
              && e.outcome.task in names.tasks
              && LeaseAt(e.state.board, Key(names.project, e.outcome.task)) == e.outcome.granted
              && IsUsable(e.outcome.granted.value.holder)
  {
    hide Inv, Key, PollRefused, Advanced, BoardNamed, TalksNamed, SessionsNamed, IsUsable;
    if op.env.id in s.work.byId && IsBusy(s.work.byId[op.env.id].status) {
      AdvancedIsTidy(names, s, op.env.id, MessageStatus.Delivered, None, now);
      LeasesAreUsable(names, Advanced(s, op.env.id, MessageStatus.Delivered, None, now).state);
    }
  }

  lemma LeasesAreUsable(names: Naming, s: State)
    requires Named(names, s)
    ensures forall k :: k in s.board.jobs && s.board.jobs[k].lease.Some? ==> IsUsable(s.board.jobs[k].lease.value.holder)
  {
    hide WorkNamed, TalksNamed, SessionsNamed, IsUsable;
  }

  /** Recording a lease changes a task's entry by what the entry was. */
  lemma RecordingDependsOnEntry(x: seq<Entry>, y: seq<Entry>, item: Id, lease: Option<LiveLease>, task: Id)
    requires Find(x, task) == Find(y, task)
    ensures Find(RecordInFlight(x, item, lease), task) == Find(RecordInFlight(y, item, lease), task)
  {
    if item != [] && lease.Some? {
      var e := Entry(item, lease.value.epoch, lease.value.holder, InFlight);
      FindAfterUpsert(x, e, task);
      FindAfterUpsert(y, e, task);
    }
  }

  /** The lease a heartbeat or a reclaim has yet to write. */
  function LeaseToWrite(u: Unrecorded): Option<LiveLease>
    requires RecordsLease(u)
  {
    DecodeLease(Some(u.effect.outcome.lease))
  }

  lemma LeaseWrite(u: Unrecorded, file: seq<Entry>)
    requires RecordsLease(u)
    ensures WriteOf(u, file) == RecordInFlight(file, u.op.task, LeaseToWrite(u))
  {
  }

  /** The two writes of a task's entry commute where the delivery's lease is the store's. */
  lemma LeaseWritesCommute(file: seq<Entry>, item: Id, pending: Option<LiveLease>, delivered: Id, lease: Option<LiveLease>, task: Id)
    requires item == task && delivered == task && pending.Some? && lease.Some? && task != [] ==>
               Find(RecordInFlight(file, item, pending), task) == Some(Entry(task, lease.value.epoch, lease.value.holder, InFlight))
    ensures Find(RecordInFlight(RecordInFlight(file, delivered, lease), item, pending), task) ==
            Find(RecordInFlight(RecordInFlight(file, item, pending), delivered, lease), task)
  {
    if item == task && delivered == task && pending.Some? && lease.Some? && task != [] {
      var l := Entry(task, pending.value.epoch, pending.value.holder, InFlight);
      var m := Entry(task, lease.value.epoch, lease.value.holder, InFlight);
      InFlightTwice(file, l, m);
      FindAfterUpsert(Upsert(file, l), m, task);
    } else {
      hide RecordInFlight;
      if item != task || pending.None? || item == [] {
        LeaseElsewhere(file, item, pending, task);
        LeaseElsewhere(RecordInFlight(file, delivered, lease), item, pending, task);
        RecordingDependsOnEntry(file, RecordInFlight(file, item, pending), delivered, lease, task);
      } else {
        LeaseElsewhere(file, delivered, lease, task);
        LeaseElsewhere(RecordInFlight(file, item, pending), delivered, lease, task);
        RecordingDependsOnEntry(file, RecordInFlight(file, delivered, lease), item, pending, task);
      }
    }
  }

  lemma LeaseElsewhere(file: seq<Entry>, item: Id, lease: Option<LiveLease>, task: Id)
    requires item != task || lease.None? || item == []
    ensures Find(RecordInFlight(file, item, lease), task) == Find(file, task)
  {
    if item != task && lease.Some? {
      RecordingOthersKeepsEntry(file, task, item, lease);
    }
  }

  /** A task that has a lease after a delivery and an entry before it had that lease, on record. */
  lemma LeaseWasOnRecord(b: Board, n: Board, file: seq<Entry>, project: Id, task: Id, now: int)
    requires Agrees(b, file, project, task) && Find(file, task).Some? && JobStep(b, n, Key(project, task), false, now)
    requires LeaseAt(n, Key(project, task)).Some?
    ensures var l := LeaseAt(n, Key(project, task)).value; Find(file, task) == Some(Entry(task, l.epoch, l.holder, InFlight))
  {
    hide Key;
  }

  lemma RecordedLeaseIsThere(file: seq<Entry>, task: Id, lease: Option<LiveLease>)
    requires task != [] && lease.Some?
    ensures Find(RecordInFlight(file, task, lease), task).Some?
  {
    FindAfterUpsert(file, Entry(task, lease.value.epoch, lease.value.holder, InFlight), task);
  }

  lemma UsableDecodes(l: Lease)
    requires IsUsable(l.holder)
    ensures DecodeLease(Some(l)) == Some(LiveLease(l.epoch, l.holder))
  {
  }

  /** A delivery's write comes before a pending write of a lease: it is as if it came after. */
  lemma DeliveryBeforeLeaseWrite(names: Naming, s: State, file: seq<Entry>, u: Unrecorded, op: Op, now: int, task: Id)
    requires Inv(s) && Named(names, s) && op.DoDeliver? && RecordsLease(u) && task != []
    requires Agrees(s.board, WriteOf(u, file), names.project, task)
    ensures var e := Deliver(s, op.agent, op.scope, op.lease, op.env, now);
            Find(WriteOf(u, Recorded(file, op, e)), task) == Find(Recorded(WriteOf(u, file), op, e), task)
  {
    hide Inv, Named, Deliver, IsUsable, RecordInFlight, DecodeLease, Key, Agrees, JobStep, Winds;
    var e := Deliver(s, op.agent, op.scope, op.lease, op.env, now);
    LeaseWrite(u, file);
    LeaseWrite(u, Recorded(file, op, e));
    DeliveryOutcome(s, op, now);
    if e.outcome.Delivery? {
      var pending, lease := LeaseToWrite(u), DecodeLease(e.outcome.granted);
      if u.op.task == task && e.outcome.task == task && pending.Some? && e.outcome.granted.Some? {
        DeliveryNamesTask(names, s, op, now);
        UsableDecodes(e.outcome.granted.value);
        DeliverKeeps(s, op.agent, op.scope, op.lease, op.env, now);
        WindsProceeds(s, e.state, Key(names.project, task), now);
        RecordedLeaseIsThere(file, task, pending);
        LeaseWasOnRecord(s.board, e.state.board, WriteOf(u, file), names.project, task, now);
      }
      NothingToRecord(file);
      LeaseWritesCommute(file, u.op.task, pending, e.outcome.task, lease, task);
    }
  }

  lemma DeliveryOutcome(s: State, op: Op, now: int)
    requires op.DoDeliver?
    ensures var o := Deliver(s, op.agent, op.scope, op.lease, op.env, now).outcome; o.Delivery? || o.Skipped? || o.Raised?
  {
    hide PollRefused, Advanced, Key;
  }

  /** And so it is for a pending settlement, of other tasks and of ids that are no task's. */
  lemma DeliveryBeforeSettlement(names: Naming, s: State, file: seq<Entry>, u: Unrecorded, op: Op, now: int, task: Id)
    requires Inv(s) && Named(names, s) && op.DoDeliver? && !RecordsLease(u) && PendingOK(names, s.board, u) && task != []
    requires Agrees(s.board, WriteOf(u, file), names.project, task) && !(task in Settles(u) && task in names.tasks)
    ensures var e := Deliver(s, op.agent, op.scope, op.lease, op.env, now);
            Find(WriteOf(u, Recorded(file, op, e)), task) == Find(Recorded(WriteOf(u, file), op, e), task)
  {
    hide Inv, Named, Deliver, IsUsable, RecordInFlight, DecodeLease, Key, Agrees, WriteOf, Settles, ItemsFinished;
    var e := Deliver(s, op.agent, op.scope, op.lease, op.env, now);
    DeliveryOutcome(s, op, now);
    DeliveryNamesTask(names, s, op, now);
    var after := Recorded(file, op, e);
    WriteSparesOthers(u, file, task);
    WriteSparesOthers(u, after, task);
    if e.outcome.Delivery? {
      var lease := DecodeLease(e.outcome.granted);
      NothingToRecord(file);
      if task in Settles(u) {
        BoardIsOK(s);
        BoardIsNamed(names, s);
        OthersHaveNoEntry(names, s.board, WriteOf(u, file), task);
        LeaseElsewhere(file, e.outcome.task, lease, task);
        LeaseElsewhere(WriteOf(u, file), e.outcome.task, lease, task);
      } else {
        RecordingDependsOnEntry(file, WriteOf(u, file), e.outcome.task, lease, task);
      }
    }
  }

  /** Whatever write is pending, a delivery in between keeps the agreement it will lead to. */
  lemma DeliveryInBetween(names: Naming, s: State, file: seq<Entry>, u: Unrecorded, op: Op, now: int, task: Id)
    requires Inv(s) && Named(names, s) && op.DoDeliver? && PendingOK(names, s.board, u) && task != []
    requires Agrees(s.board, WriteOf(u, file), names.project, task)
    ensures var e := Deliver(s, op.agent, op.scope, op.lease, op.env, now);
            PendingOK(names, e.state.board, u) && Agrees(e.state.board, WriteOf(u, Recorded(file, op, e)), names.project, task)
  {
    hide Inv, Named, Deliver, Recorded, Key, WriteOf, Agrees, Settles, RecordsLease, LessBusy, TalksQuiet, WaitsGrow, Quiet, BoardOK;
    var e := Deliver(s, op.agent, op.scope, op.lease, op.env, now);
    DeliverAgrees(names, s, WriteOf(u, file), op, now, task);
    DeliverKeeps(s, op.agent, op.scope, op.lease, op.env, now);
    FinishedItemsStay(names, s.board, e.state.board, Settles(u));
    if !RecordsLease(u) && task in Settles(u) && task in names.tasks {
      ListedIsFinished(names, e.state.board, Settles(u), task);
      BoardIsOK(e.state);
      FinishedAgrees(e.state.board, WriteOf(u, Recorded(file, op, e)), names.project, task);
    } else {
      if RecordsLease(u) {
        DeliveryBeforeLeaseWrite(names, s, file, u, op, now, task);
      } else {
        DeliveryBeforeSettlement(names, s, file, u, op, now, task);
      }
      UntouchedAgrees(e.state.board, e.state.board, Recorded(WriteOf(u, file), op, e), WriteOf(u, Recorded(file, op, e)), names.project, task);
    }
  }

  lemma ListedIsFinished(names: Naming, b: Board, items: seq<Id>, task: Id)
    requires ItemsFinished(names, b, items) && task in items && task in names.tasks
    ensures IsFinished(b, Key(names.project, task))
  {
    hide Key;
  }

  // ---------------------------------------------------------------------
  // Any step, any run
  // ---------------------------------------------------------------------

  lemma SweepIsOrderly(names: Naming, cfg: Config, s: State, op: Op, now: int)
    requires Inv(s) && Named(names, s)
    ensures var swept := Swept(cfg, s, op, now);
            Inv(swept) && Named(names, swept) && NoGrants(s.board, swept.board) && BoardOK(swept.board)
  {
    hide Inv, Named, NoGrants, Sweep, Settling, Covered, IsSwept, BoardOK;
    if Sweeps(op) {
      SweepIsComplete(cfg, s, now);
      SweepIsTidy(names, cfg, s, now);
    } else {
      TidyReflexive(names, s);
    }
    BoardIsOK(Swept(cfg, s, op, now));
  }

  lemma QuietKeepsPending(names: Naming, b: Board, n: Board, u: Unrecorded)
    requires PendingOK(names, b, u) && NoGrants(b, n)
    ensures PendingOK(names, n, u)
  {
    hide ItemsFinished, Settles, Quiet;
    FinishedItemsStay(names, b, n, Settles(u));
  }

  lemma FreeCallRecordsNothing(cfg: Config, s: State, file: seq<Entry>, op: Op, now: int)
    requires !IsLocked(op) && !op.DoDeliver?
    ensures Recorded(file, op, Act(cfg, s, op, now)) == file
  {
    hide RecordInFlight, RecordSettled, RecordAllSettled, RecordExpired;
    if op.DoAcquire? || op.DoHeartbeatSession? {
      hide Conflicts;
    } else {
      hide Act;
      SilentCallsRecordNothing(cfg, s, file, op, now);
    }
  }

  /** One call outside the checkpoint lock, on a swept state, while a write is pending. */
  lemma FreeActKeeps(names: Naming, cfg: Config, s: State, file: seq<Entry>, u: Unrecorded, op: Op, now: int, task: Id)
    requires Inv(s) && Named(names, s) && Lawful(names, s, op) && !IsLocked(op) && PendingOK(names, s.board, u) && task != []
    requires Agrees(s.board, WriteOf(u, file), names.project, task)
    ensures var e := Act(cfg, s, op, now);
            PendingOK(names, e.state.board, u) && Agrees(e.state.board, WriteOf(u, Recorded(file, op, e)), names.project, task)
  {
    hide Inv, Named, Lawful, PendingOK, WriteOf, Agrees, NoGrants, Deliver, Recorded, Proceeds;
    if op.DoDeliver? {
      DeliveryInBetween(names, s, file, u, op, now, task);
    } else {
      hide Act;
      var e := Act(cfg, s, op, now);
      ActIsTidy(names, cfg, s, op, now);
      FreeCallRecordsNothing(cfg, s, file, op, now);
      ActKeeps(cfg, s, op, now, []);
      BoardIsOK(e.state);
      QuietKeepsPending(names, s.board, e.state.board, u);
      QuietKeepsAgreement(s.board, e.state.board, WriteOf(u, file), names.project, task);
    }
  }

  lemma FreeStepKeeps(names: Naming, cfg: Config, w: Desk, op: Op, now: int, task: Id)
    requires Orderly(names, w, task) && task != [] && !IsLocked(op) && Lawful(names, Swept(cfg, w.store, op, now), op)
    ensures Orderly(names, Next(cfg, w, Free(op, now)), task)
  {
    hide Inv, Named, Lawful, PendingOK, Agrees, NoGrants, Recorded, Sweep, Act, Proceeds, Reclaims, BoardOK;
    var swept := Swept(cfg, w.store, op, now);
    var e := Apply(cfg, w.store, op, now);
    SweepIsOrderly(names, cfg, w.store, op, now);
    ApplyKeeps(cfg, w.store, op, now, []);
    ActIsNamed(names, cfg, swept, op, now);
    match w.pending {
      case None =>
        ServeAgrees(names, cfg, World(w.store, w.file), op, now, task);
      case Some(u) =>
        QuietKeepsPending(names, w.store.board, swept.board, u);
        QuietKeepsAgreement(w.store.board, swept.board, WriteOf(u, w.file), names.project, task);
        FreeActKeeps(names, cfg, swept, w.file, u, op, now, task);
    }
  }

  lemma BeginKeeps(names: Naming, cfg: Config, w: Desk, op: Op, now: int, task: Id)
    requires Orderly(names, w, task) && task != [] && IsLocked(op) && w.pending.None? && LawfulStep(names, cfg, w, Begin(op, now))
    ensures Orderly(names, Next(cfg, w, Begin(op, now)), task)
  {
    hide Inv, Named, Lawful, PendingOK, Agrees, NoGrants, Recorded, Sweep, Act, Proceeds, Reclaims, BoardOK, ReplyFinishes;
    var swept := Swept(cfg, w.store, op, now);
    SweepIsOrderly(names, cfg, w.store, op, now);
    ApplyKeeps(cfg, w.store, op, now, []);
    ServeAgrees(names, cfg, World(w.store, w.file), op, now, task);
    BegunIsFinished(names, cfg, swept, op, now);
  }

  lemma StepIsOrderly(names: Naming, cfg: Config, w: Desk, step: Step, task: Id)
    requires Orderly(names, w, task) && task != [] && LawfulStep(names, cfg, w, step)
    ensures Orderly(names, Next(cfg, w, step), task)
  {
    match step {
      case Begin(op, now) =>
        if w.pending.None? && IsLocked(op) {
          hide Next, Orderly, LawfulStep;
          BeginKeeps(names, cfg, w, op, now, task);
        } else {
          hide Orderly, LawfulStep, Apply;
        }
      case Finish => hide Inv, Named, PendingOK, Agrees, Recorded;
      case Free(op, now) =>
        if !IsLocked(op) {
          hide Next, Orderly, Lawful, Swept;
          FreeStepKeeps(names, cfg, w, op, now, task);
        } else {
          hide Orderly, LawfulStep, Apply;
        }
    }
  }

  lemma OpenedIsOrderly(names: Naming, task: Id)
    requires [] !in names.tasks
    ensures Orderly(names, OPENED, task)
  {
    EmptyIsOK();
    FreshIsNamed(names);
    FreshAgrees(names.project, task);
    hide Inv, Named;
  }

  lemma {:induction false} RunIsOrderly(names: Naming, cfg: Config, steps: seq<Step>, task: Id)
    requires [] !in names.tasks && task != [] && LawfulSteps(names, cfg, steps)
    ensures Orderly(names, RunSteps(cfg, steps), task)
  {
    hide Orderly, Next, LawfulStep;
    if steps == [] {
      OpenedIsOrderly(names, task);
    } else {
      var before := steps[..|steps| - 1];
      RunIsOrderly(names, cfg, before, task);
      StepIsOrderly(names, cfg, RunSteps(cfg, before), steps[|steps| - 1], task);
    }
  }

  /**
   * However deliveries and other calls fall between the store change of a locked call and its checkpoint
   * write: while no write is pending every live lease is in flight in the checkpoint as the store has it,
   * and otherwise it will be once that write is done.
   */
  lemma CheckpointCatchesUp(names: Naming, cfg: Config, steps: seq<Step>, task: Id)
    requires [] !in names.tasks && task != [] && LawfulSteps(names, cfg, steps)
    ensures var w := RunSteps(cfg, steps);
            && Agrees(w.store.board, Finished(w), names.project, task)
            && (w.pending.None? ==> Agrees(w.store.board, w.file, names.project, task))
  {
    hide RunSteps, Inv, Named, PendingOK, Agrees, Recorded;
    RunIsOrderly(names, cfg, steps, task);
  }

  /**
   * A reply that leaves its task unfinished is why such replies are kept out: its write, if no claim comes
   * with it, keeps the agreement exactly when no lease was granted in the meantime.
   */
  lemma LateSettlementAgreesIff(s: State, file: seq<Entry>, u: Unrecorded, project: Id)
    requires Inv(s) && u.op.DoSaveReply? && u.effect.outcome.Accepted? && DecodeClaim(u.op.claim).None? && u.op.env.task != []
    requires Agrees(s.board, file, project, u.op.env.task)
    ensures Agrees(s.board, WriteOf(u, file), project, u.op.env.task) <==> LeaseAt(s.board, Key(project, u.op.env.task)).None?
  {
    hide Inv, Key, RecordSettled, BoardOK, Agrees;
    BoardIsOK(s);
    SettledAgreesIff(s.board, s.board, file, project, u.op.env.task);
  }
}
