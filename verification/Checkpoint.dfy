/** The durable lease checkpoint: one entry per task, ordered by (epoch, status). */
module Checkpoint {
  import opened Basics

  datatype LeaseStatus = InFlight | RecentlySettled

  datatype Entry = Entry(task: string, epoch: int, holder: string, status: LeaseStatus)

  /** Within an epoch, settlement is later than delivery. */
  predicate NotOlder(a: Entry, b: Entry) {
    a.epoch > b.epoch || (a.epoch == b.epoch && (a.status.RecentlySettled? || b.status.InFlight?))
  }

  predicate SameOrder(a: Entry, b: Entry) {
    a.epoch == b.epoch && a.status == b.status
  }

  function Find(entries: seq<Entry>, task: string): (r: Option<Entry>)
    ensures r.Some? ==> r.value in entries && r.value.task == task
    ensures r.None? ==> forall e :: e in entries ==> e.task != task
  {
    if entries == [] then None
    else if entries[0].task == task then Some(entries[0])
    else Find(entries[1..], task)
  }

  function Without(entries: seq<Entry>, task: string): (r: seq<Entry>)
    ensures forall e :: e in r <==> e in entries && e.task != task
  {
    if entries == [] then []
    else (if entries[0].task == task then [] else [entries[0]]) + Without(entries[1..], task)
  }

  predicate Supersedes(entries: seq<Entry>, e: Entry) {
    match Find(entries, e.task) case None => true case Some(existing) => NotOlder(e, existing)
  }

  function Upsert(entries: seq<Entry>, e: Entry): seq<Entry> {
    if Supersedes(entries, e) then Without(entries, e.task) + [e] else entries
  }

  function RecordAll(entries: seq<Entry>, moves: seq<Entry>): seq<Entry> {
    if moves == [] then entries
    else Upsert(RecordAll(entries, moves[..|moves| - 1]), moves[|moves| - 1])
  }

  lemma FindInSum(a: seq<Entry>, b: seq<Entry>, task: string)
    ensures Find(a + b, task) == (if Find(a, task).Some? then Find(a, task) else Find(b, task))
  {
    if a == [] {
      assert a + b == b;
    } else {
      assert (a + b)[1..] == a[1..] + b;
    }
  }

  lemma FindInRest(entries: seq<Entry>, task: string, other: string)
    requires task != other
    ensures Find(Without(entries, other), task) == Find(entries, task)
  {
    if entries != [] {
      FindInSum(if entries[0].task == other then [] else [entries[0]], Without(entries[1..], other), task);
    }
  }

  /** Recording one move changes at most its own task's entry, to the newer of the two. */
  lemma FindAfterUpsert(entries: seq<Entry>, e: Entry, task: string)
    ensures Find(Upsert(entries, e), task) ==
            (if task == e.task && Supersedes(entries, e) then Some(e) else Find(entries, task))
  {
    FindInSum(Without(entries, e.task), [e], task);
    assert Find([e][1..], task) == None;
    if task != e.task {
      FindInRest(entries, task, e.task);
    }
  }

  /** The higher epoch wins; at one epoch a settlement wins over a delivery, and otherwise the later move. */
  lemma NewerWins(entries: seq<Entry>, e: Entry, existing: Entry)
    requires Find(entries, e.task) == Some(existing)
    ensures Find(Upsert(entries, e), e.task) ==
            Some(if e.epoch > existing.epoch then e
                 else if e.epoch < existing.epoch then existing
                 else if existing.status.RecentlySettled? && e.status.InFlight? then existing
                 else e)
  {
    hide Find, Without;
    FindAfterUpsert(entries, e, e.task);
  }

  ghost predicate OnePerTask(entries: seq<Entry>) {
    forall i, j :: 0 <= i < j < |entries| ==> entries[i].task != entries[j].task
  }

  lemma WithoutKeepsOnePerTask(entries: seq<Entry>, task: string)
    requires OnePerTask(entries)
    ensures OnePerTask(Without(entries, task))
  {
    if entries != [] {
      WithoutKeepsOnePerTask(entries[1..], task);
    }
  }

  lemma {:induction false} RecordingKeepsOnePerTask(entries: seq<Entry>, moves: seq<Entry>)
    requires OnePerTask(entries)
    ensures OnePerTask(RecordAll(entries, moves))
  {
    if moves != [] {
      var before := RecordAll(entries, moves[..|moves| - 1]);
      RecordingKeepsOnePerTask(entries, moves[..|moves| - 1]);
      WithoutKeepsOnePerTask(before, moves[|moves| - 1].task);
    }
  }

  /** `best` is a greatest of the moves of one task. */
  ghost predicate IsGreatest(best: Option<Entry>, moves: seq<Entry>, task: string) {
    match best
    case None => forall m :: m in moves ==> m.task != task
    case Some(b) => b in moves && b.task == task && forall m :: m in moves && m.task == task ==> NotOlder(b, m)
  }

  /** After any moves, each task's entry is a greatest of those recorded for it under (epoch, status). */
  lemma {:induction false} RecordedIsGreatest(moves: seq<Entry>, task: string)
    ensures IsGreatest(Find(RecordAll([], moves), task), moves, task)
  {
    if moves != [] {
      var before, last := moves[..|moves| - 1], moves[|moves| - 1];
      RecordedIsGreatest(before, task);
      FindAfterUpsert(RecordAll([], before), last, task);
      assert forall m :: m in moves <==> m in before || m == last;
    }
  }

  ghost predicate EpochDeterminesHolder(moves: seq<Entry>) {
    forall a, b :: a in moves && b in moves && a.task == b.task && a.epoch == b.epoch ==> a.holder == b.holder
  }

  /**
   * Order independence: every permutation of the moves leaves the same tasks with the same epoch and
   * status, and with the same holder too when a task's epoch determines its holder.
   */
  lemma RecordingIsOrderIndependent(moves: seq<Entry>, shuffled: seq<Entry>, task: string)
    requires multiset(moves) == multiset(shuffled)
    ensures var a, b := Find(RecordAll([], moves), task), Find(RecordAll([], shuffled), task);
            && a.Some? == b.Some?
            && (a.Some? ==> SameOrder(a.value, b.value))
            && (EpochDeterminesHolder(moves) ==> a == b)
  {
    RecordedIsGreatest(moves, task);
    RecordedIsGreatest(shuffled, task);
    assert forall m :: m in moves <==> m in multiset(moves);
    assert forall m :: m in shuffled <==> m in multiset(shuffled);
  }

  /** Recording never takes an entry back, so settled work is in flight again only at a higher epoch. */
  lemma {:induction false} EntriesNeverGoBack(entries: seq<Entry>, moves: seq<Entry>, task: string)
    requires Find(entries, task).Some?
    ensures var before, after := Find(entries, task), Find(RecordAll(entries, moves), task);
            && after.Some? && NotOlder(after.value, before.value)
            && (before.value.status.RecentlySettled? && after.value.status.InFlight? ==> after.value.epoch > before.value.epoch)
  {
    if moves != [] {
      EntriesNeverGoBack(entries, moves[..|moves| - 1], task);
      FindAfterUpsert(RecordAll(entries, moves[..|moves| - 1]), moves[|moves| - 1], task);
    }
  }

  // ---------------------------------------------------------------------
  // Reconciliation against the live store
  // ---------------------------------------------------------------------

  datatype Reason = MissingAfterRestart | EpochChanged | HolderChanged

  datatype Drift = Drift(previous: Entry, reason: Reason)

  datatype LiveLease = LiveLease(epoch: int, holder: string)

  /** Why a prior entry disagrees with the live leases, if it does. */
  function DriftOf(prior: Entry, live: map<string, LiveLease>): Option<Reason> {
    if prior.status.RecentlySettled? then None
    else if prior.task !in live then Some(MissingAfterRestart)
    else if live[prior.task].epoch != prior.epoch then Some(EpochChanged)
    else if live[prior.task].holder != prior.holder then Some(HolderChanged)
    else None
  }

  function Drifts(prior: seq<Entry>, live: map<string, LiveLease>): seq<Drift> {
    if prior == [] then []
    else
      var last := prior[|prior| - 1];
      Drifts(prior[..|prior| - 1], live) +
      (match DriftOf(last, live) case None => [] case Some(reason) => [Drift(last, reason)])
  }

  /** The ways an entry in flight can disagree: its task is not leased, or at another epoch, or by another holder at this one. */
  predicate Disagrees(e: Entry, live: map<string, LiveLease>, reason: Reason) {
    && e.status.InFlight?
    && match reason
       case MissingAfterRestart => e.task !in live
       case EpochChanged => e.task in live && live[e.task].epoch != e.epoch
       case HolderChanged => e.task in live && live[e.task].epoch == e.epoch && live[e.task].holder != e.holder
  }

  lemma DriftIsDisagreement(e: Entry, live: map<string, LiveLease>, reason: Reason)
    ensures DriftOf(e, live) == Some(reason) <==> Disagrees(e, live, reason)
  {
  }

  lemma {:induction false} DriftsAreDisagreements(prior: seq<Entry>, live: map<string, LiveLease>, d: Drift)
    ensures d in Drifts(prior, live) <==> d.previous in prior && DriftOf(d.previous, live) == Some(d.reason)
    decreases |prior|
  {
    if prior != [] {
      DriftsAreDisagreements(prior[..|prior| - 1], live, d);
      assert prior == prior[..|prior| - 1] + [prior[|prior| - 1]];
    }
  }

  /** One drift per disagreeing in-flight entry, in file order, and nothing else. */
  method ReconcileCheckpoint(prior: seq<Entry>, live: map<string, LiveLease>) returns (drifted: seq<Drift>)
    ensures drifted == Drifts(prior, live)
    ensures forall d :: d in drifted <==> d.previous in prior && Disagrees(d.previous, live, d.reason)
  {
    drifted := [];
    for i := 0 to |prior|
      invariant drifted == Drifts(prior[..i], live)
      invariant forall d :: d in drifted <==> d.previous in prior[..i] && DriftOf(d.previous, live) == Some(d.reason)
    {
      var lease := prior[i];
      assert prior[..i + 1] == prior[..i] + [lease];
      assert prior[..i + 1][..i] == prior[..i];
      if lease.status.RecentlySettled? {
        continue;
      }
      if lease.task !in live {
        drifted := drifted + [Drift(lease, MissingAfterRestart)];
        continue;
      }
      var present := live[lease.task];
      if present.epoch != lease.epoch {
        drifted := drifted + [Drift(lease, EpochChanged)];
        continue;
      }
      if present.holder != lease.holder {
        drifted := drifted + [Drift(lease, HolderChanged)];
      }
    }
    assert prior[..|prior|] == prior;
    forall e: Entry, reason
      ensures DriftOf(e, live) == Some(reason) <==> Disagrees(e, live, reason)
    {
      DriftIsDisagreement(e, live, reason);
    }
  }

  class CheckpointFile {
    var leases: seq<Entry>

    constructor ()
      ensures leases == []
    {
      leases := [];
    }

    /** Load, apply one ordered transition, and write back when it changed anything. */
    method RecordLease(e: Entry)
      modifies this
      ensures leases == Upsert(old(leases), e)
    {
      var existing := Find(leases, e.task);
      if existing.Some? && !NotOlder(e, existing.value) {
        return;
      }
      leases := Without(leases, e.task) + [e];
    }
  }
}
