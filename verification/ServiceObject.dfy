/** The service as an object: the store, the checkpoint file, and the seam between them. */
module ServiceObject {
  import opened Basics
  import opened Jobs
  import opened BrokerState
  import opened BrokerOps
  import opened BrokerStore
  import opened Checkpoint
  import opened Service

  class BrokerService {
    const store: MemoryMessageStore
    const checkpoint: CheckpointFile

    ghost function View(): World
      reads store, checkpoint
    {
      World(store.View(), checkpoint.leases)
    }

    constructor (cfg: Config)
      ensures fresh(store) && fresh(checkpoint) && store.Valid() && store.cfg == cfg && View() == FRESH
    {
      store := new MemoryMessageStore(cfg);
      checkpoint := new CheckpointFile();
    }

    method RecordInFlight(task: Id, lease: Option<LiveLease>)
      modifies checkpoint
      ensures checkpoint.leases == Service.RecordInFlight(old(checkpoint.leases), task, lease)
    {
      if task == [] || lease.None? {
        return;
      }
      checkpoint.RecordLease(Entry(task, lease.value.epoch, lease.value.holder, InFlight));
    }

    method LoadPriorLease(task: Id) returns (prior: Option<Entry>)
      ensures prior == FirstInFlight(checkpoint.leases, task)
    {
      var leases := checkpoint.leases;
      assert leases[0..] == leases;
      for i := 0 to |leases|
        invariant FirstInFlight(leases, task) == FirstInFlight(leases[i..], task)
      {
        assert leases[i..][1..] == leases[i + 1..];
        if leases[i].status.InFlight? && leases[i].task == task {
          return Some(leases[i]);
        }
      }
      prior := None;
    }

    method RecordRecentlySettled(task: Id, lease: Option<LiveLease>)
      modifies checkpoint
      ensures checkpoint.leases == RecordSettled(old(checkpoint.leases), task, lease)
    {
      if task == [] {
        return;
      }
      if lease.Some? {
        checkpoint.RecordLease(Entry(task, lease.value.epoch, lease.value.holder, RecentlySettled));
        return;
      }
      var prior := LoadPriorLease(task);
      if prior.Some? {
        checkpoint.RecordLease(prior.value.(status := RecentlySettled));
        FirstInFlightTask(old(checkpoint.leases), task);
      }
    }

    static lemma FirstInFlightTask(file: seq<Entry>, task: Id)
      ensures FirstInFlight(file, task).Some? ==> FirstInFlight(file, task).value.task == task
    {
    }

    method RecordSessionSettlements(settled: seq<Id>)
      modifies checkpoint
      ensures checkpoint.leases == RecordAllSettled(old(checkpoint.leases), settled)
    {
      for i := 0 to |settled|
        invariant checkpoint.leases == RecordAllSettled(old(checkpoint.leases), settled[..i])
      {
        assert settled[..i + 1][..i] == settled[..i];
        RecordRecentlySettled(settled[i], None);
      }
      assert settled[..|settled|] == settled;
    }

    method RecordExpiredSessions(leases: seq<Id>)
      modifies checkpoint
      ensures checkpoint.leases == RecordExpired(old(checkpoint.leases), store.View().registry, leases)
    {
      for i := 0 to |leases|
        invariant checkpoint.leases == RecordExpired(old(checkpoint.leases), store.View().registry, leases[..i])
      {
        assert leases[..i + 1][..i] == leases[..i];
        RecordSessionSettlements(SettledBy(store.View().registry, leases[i]));
      }
      assert leases[..|leases|] == leases;
    }

    /** What the service does with the store's answer to a call. */
    method RecordOutcome(op: Op, outcome: Outcome)
      modifies checkpoint
      ensures checkpoint.leases == Recorded(old(checkpoint.leases), op, Effect(store.View(), outcome))
    {
      hide Service.RecordInFlight, RecordSettled, RecordAllSettled, RecordExpired;
      match outcome {
        case Delivery(task, granted) => RecordInFlight(task, DecodeLease(granted));
        case LeaseRenewed(lease) => if op.DoHeartbeatJob? { RecordInFlight(op.task, DecodeLease(Some(lease))); }
        case LeaseReclaimed(lease, _) => if op.DoReclaimJob? { RecordInFlight(op.task, DecodeLease(Some(lease))); }
        case Accepted => if op.DoSaveReply? { RecordRecentlySettled(op.env.task, DecodeClaim(op.claim)); }
        case CancelledItems(_) => if op.DoCancelWork? { RecordRecentlySettled(op.item, None); }
        case Ended(settled) => RecordSessionSettlements(settled);
        case ExpiredSessions(leases) => RecordExpiredSessions(leases);
        case _ =>
      }
    }

    /** One call: the store first, then the checkpoint. */
    method Call(op: Op, now: int) returns (outcome: Outcome)
      requires store.Valid()
      modifies store, checkpoint
      ensures store.Valid()
      ensures View() == Serve(store.cfg, old(View()), op, now) && outcome == Apply(store.cfg, old(View().store), op, now).outcome
    {
      hide Apply, Recorded;
      outcome := store.Execute(op, now);
      RecordOutcome(op, outcome);
    }

    /** The live leases, collected job by job. */
    method CurrentJobLeases() returns (live: map<Id, LiveLease>)
      ensures IsSnapshot(store.BoardView(), live)
    {
      live := map[];
      var jobs := store.taskJobs;
      var keys := jobs.Keys;
      while keys != {}
        invariant keys <= jobs.Keys
        invariant forall k :: k in jobs && k !in keys && jobs[k].lease.Some? ==> jobs[k].id in live
        invariant forall t :: t in live ==>
                    exists k :: k in jobs && jobs[k].id == t && jobs[k].lease.Some?
                                && live[t] == LiveLease(jobs[k].lease.value.epoch, jobs[k].lease.value.holder)
        decreases |keys|
      {
        var key :| key in keys;
        keys := keys - {key};
        if jobs[key].lease.Some? {
          live := live[jobs[key].id := LiveLease(jobs[key].lease.value.epoch, jobs[key].lease.value.holder)];
        }
      }
    }

    /** At startup the prior checkpoint is compared with the live store. */
    method StartupReconcileCheckpoint() returns (drifted: seq<Drift>)
      ensures exists live :: IsSnapshot(store.BoardView(), live) && drifted == Drifts(checkpoint.leases, live)
    {
      var live := CurrentJobLeases();
      drifted := ReconcileCheckpoint(checkpoint.leases, live);
    }
  }
}
