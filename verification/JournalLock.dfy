/** The journal's re-entrant lock, and why its record order is the order of the recorded commits. */
module JournalLock {
  import opened Basics

  type TaskId = nat

  /** `held` is the wrapped non-reentrant lock. */
  datatype Lock = Lock(owner: Option<TaskId>, depth: nat, held: bool)

  const FREE := Lock(None, 0, false)

  predicate CanEnter(lock: Lock, task: TaskId) {
    lock.owner == Some(task) || !lock.held
  }

  function Enter(lock: Lock, task: TaskId): Lock
    requires CanEnter(lock, task)
  {
    if lock.owner == Some(task) then lock.(depth := lock.depth + 1) else Lock(Some(task), 1, true)
  }

  function Exit(lock: Lock): Lock
    requires lock.depth > 0
  {
    if lock.depth == 1 then Lock(None, 0, false) else lock.(depth := lock.depth - 1)
  }

  class ReentrantAsyncLock {
    var owner: Option<TaskId>
    var depth: nat
    var held: bool

    function View(): Lock
      reads this
    {
      Lock(owner, depth, held)
    }

    constructor ()
      ensures View() == FREE
    {
      owner, depth, held := None, 0, false;
    }

    /** One scheduling attempt of `__aenter__`; false means the task keeps waiting on the wrapped lock. */
    method AEnter(task: TaskId) returns (entered: bool)
      modifies this
      ensures entered == CanEnter(old(View()), task)
      ensures View() == if entered then Enter(old(View()), task) else old(View())
    {
      if owner == Some(task) {
        depth := depth + 1;
        return true;
      }
      if held {
        return false;
      }
      held := true;
      owner := Some(task);
      depth := 1;
      entered := true;
    }

    method AExit()
      requires depth > 0
      modifies this
      ensures View() == Exit(old(View()))
    {
      depth := depth - 1;
      if depth == 0 {
        owner := None;
        held := false;
      }
    }
  }

  // ---------------------------------------------------------------------
  // Tasks sharing the lock: recorded mutations, failing mutations and unrecorded visits
  // ---------------------------------------------------------------------

  /**
   * Where a task is. A wrapped mutation runs under a second, nested acquisition; a delivery or a wait's
   * timeout commits its change during a visit, under the one acquisition it has.
   */
  datatype Phase =
    | Outside
    | Entered
    | Inside
    | Mutated
    | Returned
    | Captured(snapshot: string)
    | Appended
    | Failed(depth: nat)
    | Visiting

  datatype World = World(lock: Lock, phases: map<TaskId, Phase>, state: string, journal: seq<string>, commits: seq<string>)

  const START := World(FREE, map[], [], [], [])

  datatype Action = BeginRecord | BeginVisit | Proceed | Change(state: string) | Raise(state: string) | Commit(state: string)

  function PhaseOf(w: World, task: TaskId): Phase {
    if task in w.phases then w.phases[task] else Outside
  }

  function At(w: World, task: TaskId, phase: Phase): World {
    w.(phases := w.phases[task := phase])
  }

  function Acquire(w: World, task: TaskId, phase: Phase): World {
    if CanEnter(w.lock, task) then At(w, task, phase).(lock := Enter(w.lock, task)) else w
  }

  function Release(w: World, task: TaskId, phase: Phase): World {
    if w.lock.depth > 0 then At(w, task, phase).(lock := Exit(w.lock)) else w
  }

  /** One atomic step of one task; an action that does not apply in its phase does nothing. */
  function Next(w: World, task: TaskId, action: Action): World {
    match (PhaseOf(w, task), action)
    case (Outside, BeginRecord) => Acquire(w, task, Entered)
    case (Outside, BeginVisit) => Acquire(w, task, Visiting)
    case (Entered, Proceed) => Acquire(w, task, Inside)
    case (Inside, Change(s)) => At(w, task, Mutated).(state := s, commits := w.commits + [s])
    case (Inside, Raise(s)) => At(w, task, Failed(2)).(state := s)
    case (Mutated, Proceed) => Release(w, task, Returned)
    case (Returned, Proceed) => At(w, task, Captured(w.state))
    case (Captured(s), Proceed) => At(w, task, Appended).(journal := w.journal + [s])
    case (Appended, Proceed) => Release(w, task, Outside)
    case (Failed(d), Proceed) => Release(w, task, if d == 2 then Failed(1) else Outside)
    case (Visiting, Change(s)) => w.(state := s)
    case (Visiting, Commit(s)) => At(w, task, Returned).(state := s, commits := w.commits + [s])
    case (Visiting, Proceed) => Release(w, task, Outside)
    case _ => w
  }

  function Run(schedule: seq<(TaskId, Action)>): World {
    if schedule == [] then START
    else
      var last := schedule[|schedule| - 1];
      Next(Run(schedule[..|schedule| - 1]), last.0, last.1)
  }

  /** How many acquisitions a task in this phase has not released. */
  function Nesting(phase: Phase): nat {
    match phase
    case Outside => 0
    case Inside => 2
    case Mutated => 2
    case Failed(d) => d
    case _ => 1
  }

  ghost predicate LockIsConsistent(w: World) {
    && (w.lock.held <==> w.lock.owner.Some?)
    && (w.lock.depth > 0 <==> w.lock.owner.Some?)
    && (forall t :: t in w.phases ==> (w.phases[t].Failed? ==> w.phases[t].depth in {1, 2}))
    && (forall t: TaskId :: Nesting(PhaseOf(w, t)) == if w.lock.owner == Some(t) then w.lock.depth else 0)
  }

  /** The snapshot the present holder still owes the journal. */
  function Owed(w: World): seq<string> {
    match w.lock.owner
    case None => []
    case Some(t) =>
      match PhaseOf(w, t)
      case Mutated => [w.state]
      case Returned => [w.state]
      case Captured(s) => [s]
      case _ => []
  }

  ghost predicate Inv(w: World) {
    LockIsConsistent(w) && w.commits == w.journal + Owed(w)
  }

  lemma StepKeepsLock(w: World, task: TaskId, action: Action)
    requires LockIsConsistent(w)
    ensures LockIsConsistent(Next(w, task, action))
  {
    var n := Next(w, task, action);
    assert Nesting(PhaseOf(w, task)) == if w.lock.owner == Some(task) then w.lock.depth else 0;
    assert forall t: TaskId :: t != task ==> PhaseOf(n, t) == PhaseOf(w, t);
  }

  lemma StepKeepsOrder(w: World, task: TaskId, action: Action)
    requires Inv(w)
    ensures var n := Next(w, task, action); n.commits == n.journal + Owed(n)
  {
    var n := Next(w, task, action);
    assert Nesting(PhaseOf(w, task)) == if w.lock.owner == Some(task) then w.lock.depth else 0;
    assert w.journal + [] == w.journal;
  }

  lemma {:induction false} RunKeepsInv(schedule: seq<(TaskId, Action)>)
    ensures Inv(Run(schedule))
  {
    if schedule != [] {
      var last := schedule[|schedule| - 1];
      RunKeepsInv(schedule[..|schedule| - 1]);
      StepKeepsLock(Run(schedule[..|schedule| - 1]), last.0, last.1);
      StepKeepsOrder(Run(schedule[..|schedule| - 1]), last.0, last.1);
    }
  }

  /** Under every interleaving at most one task is inside, and the depth is exactly its nesting. */
  lemma LockExcludes(schedule: seq<(TaskId, Action)>, a: TaskId, b: TaskId)
    requires PhaseOf(Run(schedule), a) != Outside && PhaseOf(Run(schedule), b) != Outside
    ensures a == b && Run(schedule).lock.owner == Some(a)
    ensures Run(schedule).lock.depth == Nesting(PhaseOf(Run(schedule), a)) > 0
  {
    RunKeepsInv(schedule);
    var w := Run(schedule);
    assert Nesting(PhaseOf(w, a)) > 0 && Nesting(PhaseOf(w, b)) > 0;
  }

  /**
   * The k-th journal record is the state of the k-th recorded commit, whatever tasks interleave; the
   * journal is never more than one commit behind, and not behind at all while nobody holds the lock.
   */
  lemma JournalOrderIsCommitOrder(schedule: seq<(TaskId, Action)>)
    ensures var w := Run(schedule);
            && w.journal <= w.commits
            && |w.commits| <= |w.journal| + 1
            && (w.lock == FREE ==> w.journal == w.commits)
  {
    RunKeepsInv(schedule);
  }

  /** A task outside gets in exactly when nobody holds the lock, and the holder always gets its nested acquisition. */
  lemma EntersIffFree(schedule: seq<(TaskId, Action)>, task: TaskId)
    requires PhaseOf(Run(schedule), task).Outside? || PhaseOf(Run(schedule), task).Entered?
    ensures var w := Run(schedule);
            && (PhaseOf(w, task).Outside? ==>
                  && (PhaseOf(Next(w, task, BeginRecord), task).Entered? <==> w.lock == FREE)
                  && (PhaseOf(Next(w, task, BeginVisit), task).Visiting? <==> w.lock == FREE))
            && (PhaseOf(w, task).Entered? ==> PhaseOf(Next(w, task, Proceed), task).Inside?)
  {
    RunKeepsInv(schedule);
    var w := Run(schedule);
    assert Nesting(PhaseOf(w, task)) == if w.lock.owner == Some(task) then w.lock.depth else 0;
  }
}
