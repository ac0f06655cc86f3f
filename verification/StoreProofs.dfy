/** What every step of every interleaving keeps, every crash point included. */
module StoreProofs {
  import opened Wrappers
  import opened Store

  /** Every row has its directory, and every deployment row has its app. */
  ghost predicate RowsHaveDirs(db: Db, disk: Disk) {
    && (forall a | a in db.apps :: a in disk.apps)
    && (forall d | d in db.deployments ::
          db.deployments[d].app in db.apps && (db.deployments[d].app, d) in disk.deployments)
  }

  predicate IsPending(db: Db, d: Uuid) {
    d in db.deployments && db.deployments[d].status == Pending
  }

  ghost predicate OnePending(db: Db) {
    forall d, e | IsPending(db, d) && IsPending(db, e) && db.deployments[d].app == db.deployments[e].app :: d == e
  }

  /** A request that has yet to insert the deployment row named after it. */
  predicate MayInsert(task: Task) {
    task.UpStage? || task.UpLock? || task.UpFind? || task.UpMove? || task.UpInsert?
    || task.PendLock? || task.PendFind? || task.PendCheck? || task.PendMkdir? || task.PendInsert?
  }

  /** A request about to remove the directory of deployment `d`, whose row it has deleted. */
  predicate Buries(task: Task, d: Uuid) {
    (task.DelUnlock? || task.DelMove?) && task.dep.Spelled? && task.dep.uuid == d
  }

  /** What request `t` may rely on at each of its steps. */
  ghost predicate TaskOk(db: Db, disk: Disk, t: nat, task: Task) {
    && (MayInsert(task) || task.UpUndo? ==> t !in db.deployments)
    && match task
       case AppInsert(_, _) => t in disk.apps
       case GoneMove(a) => a !in db.apps
       case UpMove(_, a) => a in db.apps
       case UpInsert(_, a) => a in db.apps && (a, t) in disk.deployments
       case PendCheck(a) => a in db.apps
       case PendMkdir(a) => a in db.apps && !HasPending(db, a)
       case PendInsert(a) => a in db.apps && !HasPending(db, a) && (a, t) in disk.deployments
       case ActFindDep(a, _) => a in db.apps
       case ActUpdate(a, d) => a in db.apps && BackedDeployment(db, a, d)
       case DelFindDep(a, _) => a in db.apps
       case DelRow(a, d, dep) => a in db.apps && BackedDeployment(db, a, d) && dep.Spelled? && dep.uuid == d
       case DelUnlock(_, dep) => dep.Spelled? ==> dep.uuid !in db.deployments
       case DelMove(_, dep) => dep.Spelled? ==> dep.uuid !in db.deployments
       case _ => true
  }

  /** The steps that write rows; no step writes both rows and directories. */
  predicate WritesRows(task: Task) {
    task.AppInsert? || task.GoneCommit? || task.UpInsert? || task.PendInsert?
    || task.EditRow? || task.ActUpdate? || task.DelRow?
  }

  lemma RowStepsLeaveDisk(db: Db, disk: Disk, t: nat, task: Task, ok: bool)
    ensures WritesRows(task) ==> Act(db, disk, t, task, ok).disk == disk
    ensures !WritesRows(task) ==> Act(db, disk, t, task, ok).db == db
  {
  }

  lemma RowStepKeepsDirs(db: Db, disk: Disk, t: nat, task: Task, ok: bool)
    requires RowsHaveDirs(db, disk) && TaskOk(db, disk, t, task) && WritesRows(task)
    ensures RowsHaveDirs(Act(db, disk, t, task, ok).db, disk)
  {
  }

  /** The directories a step can take away are those of an app or a deployment that has no row. */
  lemma DiskStepRemoves(db: Db, disk: Disk, t: nat, task: Task, ok: bool, a: Uuid, d: Uuid)
    requires TaskOk(db, disk, t, task) && !WritesRows(task)
    ensures var after := Act(db, disk, t, task, ok).disk;
            && (a in disk.apps && a !in after.apps ==> a !in db.apps)
            && ((a, d) in disk.deployments && (a, d) !in after.deployments ==> a !in db.apps || d !in db.deployments)
  {
  }

  lemma ActKeepsRowsHaveDirs(db: Db, disk: Disk, t: nat, task: Task, ok: bool)
    requires RowsHaveDirs(db, disk) && TaskOk(db, disk, t, task)
    ensures RowsHaveDirs(Act(db, disk, t, task, ok).db, Act(db, disk, t, task, ok).disk)
  {
    RowStepsLeaveDisk(db, disk, t, task, ok);
    if WritesRows(task) {
      RowStepKeepsDirs(db, disk, t, task, ok);
    } else {
      var after := Act(db, disk, t, task, ok).disk;
      forall a | a in db.apps ensures a in after.apps {
        DiskStepRemoves(db, disk, t, task, ok, a, 0);
      }
      forall d | d in db.deployments ensures (db.deployments[d].app, d) in after.deployments {
        DiskStepRemoves(db, disk, t, task, ok, db.deployments[d].app, d);
      }
    }
  }

  lemma ActKeepsOnePending(db: Db, disk: Disk, t: nat, task: Task, ok: bool)
    requires OnePending(db) && TaskOk(db, disk, t, task)
    ensures OnePending(Act(db, disk, t, task, ok).db)
  {
    var after := Act(db, disk, t, task, ok).db;
    forall d, e | IsPending(after, d) && IsPending(after, e) && after.deployments[d].app == after.deployments[e].app
      ensures d == e
    {
      ActPending(db, disk, t, task, ok, d);
      ActPending(db, disk, t, task, ok, e);
    }
  }

  /** A pending row after a step was pending before it, or is the one just created for an app that had none. */
  lemma ActPending(db: Db, disk: Disk, t: nat, task: Task, ok: bool, d: Uuid)
    requires TaskOk(db, disk, t, task)
    requires IsPending(Act(db, disk, t, task, ok).db, d)
    ensures var after := Act(db, disk, t, task, ok).db;
            || (IsPending(db, d) && db.deployments[d].app == after.deployments[d].app)
            || (d == t && task.PendInsert? && after.deployments[d].app == task.a && !HasPending(db, task.a))
  {
  }

  /** The lock-taking half of the requests: creating and deleting apps, and creating deployments. */
  predicate Creating(task: Task) {
    task.AppLock? || task.AppCheck? || task.AppStage? || task.AppStageInner? || task.AppPlace? || task.AppUnstage?
    || task.AppInsert? || task.GoneLock? || task.GoneFind? || task.GoneCommit? || task.GoneMove? || task.GoneRemove?
    || task.UpStage? || task.UpDiscard? || task.UpLock? || task.UpFind? || task.UpMove? || task.UpUnstage?
    || task.UpInsert? || task.UpUndo? || task.UpUnlock?
  }

  lemma CreatingKeepsOwn(db: Db, disk: Disk, t: nat, task: Task, ok: bool)
    requires TaskOk(db, disk, t, task) && Creating(task)
    ensures var after := Act(db, disk, t, task, ok);
            after.next.Some? ==> TaskOk(after.db, after.disk, t, after.next.value)
  {
  }

  lemma OtherKeepsOwn(db: Db, disk: Disk, t: nat, task: Task, ok: bool)
    requires TaskOk(db, disk, t, task) && !Creating(task)
    ensures var after := Act(db, disk, t, task, ok);
            after.next.Some? ==> TaskOk(after.db, after.disk, t, after.next.value)
  {
  }

  lemma ActKeepsOwn(db: Db, disk: Disk, t: nat, task: Task, ok: bool)
    requires TaskOk(db, disk, t, task)
    ensures var after := Act(db, disk, t, task, ok);
            after.next.Some? ==> TaskOk(after.db, after.disk, t, after.next.value)
  {
    if Creating(task) {
      CreatingKeepsOwn(db, disk, t, task, ok);
    } else {
      OtherKeepsOwn(db, disk, t, task, ok);
    }
  }

  /** A step of `t` leaves what every other request relies on alone. */
  lemma ActKeepsOthers(db: Db, disk: Disk, t: nat, task: Task, ok: bool, u: nat, other: Task)
    requires t != u && TaskOk(db, disk, t, task) && TaskOk(db, disk, u, other)
    requires !(Critical(task) && Critical(other))
    requires !(Buries(other, t) && MayInsert(task)) && !(Buries(task, u) && MayInsert(other))
    ensures TaskOk(Act(db, disk, t, task, ok).db, Act(db, disk, t, task, ok).disk, u, other)
  {
  }

  /** The only row a step of `t` can add is its own, and then it is done inserting. */
  lemma ActRows(db: Db, disk: Disk, t: nat, task: Task, ok: bool, d: Uuid)
    requires d in Act(db, disk, t, task, ok).db.deployments && d !in db.deployments
    ensures var after := Act(db, disk, t, task, ok);
            d == t && MayInsert(task) && (after.next.Some? ==> !MayInsert(after.next.value))
  {
  }

  /** A request that may insert was always going to, and one that buries a directory has just deleted its row. */
  lemma ActNext(db: Db, disk: Disk, t: nat, task: Task, ok: bool, d: Uuid)
    requires Act(db, disk, t, task, ok).next.Some?
    ensures var next := Act(db, disk, t, task, ok).next.value;
            && (MayInsert(next) ==> MayInsert(task))
            && (Buries(next, d) ==> Buries(task, d) || (task.DelRow? && task.dep.Spelled? && task.dep.uuid == d))
  {
  }

  /** The lock is held from the step after an acquire up to the release, and every request gives it back. */
  predicate Phases(task: Task, next: Option<Task>) {
    && (next.Some? ==> (Critical(next.value) <==> Acquires(task) || (Critical(task) && !Releases(task))))
    && (next.None? ==> !Acquires(task) && (Critical(task) ==> Releases(task)))
  }

  lemma CreatingPhases(db: Db, disk: Disk, t: nat, task: Task, ok: bool)
    requires Creating(task)
    ensures Phases(task, Act(db, disk, t, task, ok).next)
  {
  }

  lemma OtherPhases(db: Db, disk: Disk, t: nat, task: Task, ok: bool)
    requires !Creating(task)
    ensures Phases(task, Act(db, disk, t, task, ok).next)
  {
  }

  ghost predicate LockInv(s: System) {
    && (forall t | t in s.tasks :: Critical(s.tasks[t]) <==> s.lock == Some(t))
    && (s.lock.Some? ==> s.lock.value in s.tasks)
    && (s.mode == Starting ==> s.tasks == map[] && s.lock == None)
  }

  /** An id that has been used up: no request will insert a deployment row under it again. */
  ghost predicate Spent(s: System, d: Uuid) {
    d < s.next && (d in s.tasks ==> !MayInsert(s.tasks[d]))
  }

  ghost predicate TasksInv(s: System) {
    && (forall t | t in s.tasks :: t < s.next && TaskOk(s.db, s.disk, t, s.tasks[t]))
    && (forall d | d in s.db.deployments :: Spent(s, d))
    && (forall t, d | t in s.tasks && Buries(s.tasks[t], d) :: Spent(s, d))
  }

  ghost predicate Inv(s: System) {
    RowsHaveDirs(s.db, s.disk) && OnePending(s.db) && LockInv(s) && TasksInv(s)
  }

  lemma AdvanceKeepsLockInv(s: System, t: nat, ok: bool)
    requires LockInv(s) && Enabled(s, Advance(t, ok))
    ensures LockInv(Step(s, Advance(t, ok)))
  {
    if Creating(s.tasks[t]) {
      CreatingPhases(s.db, s.disk, t, s.tasks[t], ok);
    } else {
      OtherPhases(s.db, s.disk, t, s.tasks[t], ok);
    }
  }

  lemma AdvanceKeepsTask(s: System, t: nat, ok: bool, u: nat)
    requires LockInv(s) && TasksInv(s) && Enabled(s, Advance(t, ok))
    ensures var s' := Step(s, Advance(t, ok)); u in s'.tasks ==> u < s'.next && TaskOk(s'.db, s'.disk, u, s'.tasks[u])
  {
    var task := s.tasks[t];
    if u == t {
      ActKeepsOwn(s.db, s.disk, t, task, ok);
    } else if u in s.tasks {
      var other := s.tasks[u];
      assert Buries(other, t) ==> Spent(s, t);
      assert Buries(task, u) ==> Spent(s, u);
      ActKeepsOthers(s.db, s.disk, t, task, ok, u, other);
    }
  }

  /** An id that has been used up stays used up. */
  lemma AdvanceKeepsSpent(s: System, t: nat, ok: bool, d: Uuid)
    requires TasksInv(s) && Enabled(s, Advance(t, ok))
    requires Spent(s, d) || d in Step(s, Advance(t, ok)).db.deployments
    ensures Spent(Step(s, Advance(t, ok)), d)
  {
    var after := Act(s.db, s.disk, t, s.tasks[t], ok);
    if d in after.db.deployments && d !in s.db.deployments {
      ActRows(s.db, s.disk, t, s.tasks[t], ok, d);
    } else {
      assert d in s.db.deployments ==> Spent(s, d);
      if after.next.Some? {
        ActNext(s.db, s.disk, t, s.tasks[t], ok, d);
      }
    }
  }

  lemma AdvanceKeepsBuried(s: System, t: nat, ok: bool, u: nat, d: Uuid)
    requires TasksInv(s) && Enabled(s, Advance(t, ok))
    requires var s' := Step(s, Advance(t, ok)); u in s'.tasks && Buries(s'.tasks[u], d)
    ensures Spent(Step(s, Advance(t, ok)), d)
  {
    if u == t {
      ActNext(s.db, s.disk, t, s.tasks[t], ok, d);
    }
    assert Spent(s, d);
    AdvanceKeepsSpent(s, t, ok, d);
  }

  lemma AdvanceKeepsTasksInv(s: System, t: nat, ok: bool)
    requires LockInv(s) && TasksInv(s) && Enabled(s, Advance(t, ok))
    ensures TasksInv(Step(s, Advance(t, ok)))
  {
    var s' := Step(s, Advance(t, ok));
    forall u | u in s'.tasks ensures u < s'.next && TaskOk(s'.db, s'.disk, u, s'.tasks[u]) {
      AdvanceKeepsTask(s, t, ok, u);
    }
    forall d | d in s'.db.deployments ensures Spent(s', d) {
      AdvanceKeepsSpent(s, t, ok, d);
    }
    forall u, d | u in s'.tasks && Buries(s'.tasks[u], d) ensures Spent(s', d) {
      AdvanceKeepsBuried(s, t, ok, u, d);
    }
  }

  lemma SpawnKeepsInv(s: System, task: Task)
    requires Inv(s) && Enabled(s, Spawn(task))
    ensures Inv(Step(s, Spawn(task)))
  {
    var s' := Step(s, Spawn(task));
    assert forall d | Spent(s, d) :: Spent(s', d);
    assert s.next !in s.db.deployments;
    assert forall t, d | t in s'.tasks && Buries(s'.tasks[t], d) :: t in s.tasks && Buries(s.tasks[t], d);
  }

  /** Crashing, and every step of startup. */
  lemma RestartKeepsInv(s: System, l: Label)
    requires Inv(s) && Enabled(s, l) && !l.Advance? && !l.Spawn?
    ensures Inv(Step(s, l))
  {
    assert forall d | Spent(s, d) :: Spent(Step(s, l), d);
  }

  lemma StepKeepsInv(s: System, l: Label)
    requires Inv(s) && Enabled(s, l)
    ensures Inv(Step(s, l))
  {
    if l.Advance? {
      ActKeepsRowsHaveDirs(s.db, s.disk, l.t, s.tasks[l.t], l.ok);
      ActKeepsOnePending(s.db, s.disk, l.t, s.tasks[l.t], l.ok);
      AdvanceKeepsLockInv(s, l.t, l.ok);
      AdvanceKeepsTasksInv(s, l.t, l.ok);
    } else if l.Spawn? {
      SpawnKeepsInv(s, l.task);
    } else {
      RestartKeepsInv(s, l);
    }
  }

  lemma {:induction false} RunKeepsInv(ls: seq<Label>)
    requires Run(Init(), ls).Some?
    ensures Inv(Run(Init(), ls).value)
  {
    if |ls| > 0 {
      RunKeepsInv(ls[..|ls|-1]);
      StepKeepsInv(Run(Init(), ls[..|ls|-1]).value, ls[|ls|-1]);
    }
  }

  // ---- The theorems ---------------------------------------------------------------------------

  /**
   * At every step of every interleaving, crashes and sweeps included, every app row has its directory and
   * every deployment row has its app and its directory inside that app's.
   */
  lemma EveryRowHasItsDirectory(ls: seq<Label>)
    requires Run(Init(), ls).Some?
    ensures var s := Run(Init(), ls).value;
            && (forall a | a in s.db.apps :: a in s.disk.apps)
            && (forall d | d in s.db.deployments ::
                  && s.db.deployments[d].app in s.db.apps
                  && (s.db.deployments[d].app, d) in s.disk.deployments)
  {
    RunKeepsInv(ls);
  }

  /** An app never has two pending deployments, although statuses are changed without the lock. */
  lemma AtMostOnePendingPerApp(ls: seq<Label>, d: Uuid, e: Uuid)
    requires Run(Init(), ls).Some?
    requires var db := Run(Init(), ls).value.db;
             && d in db.deployments && e in db.deployments
             && db.deployments[d].app == db.deployments[e].app
             && db.deployments[d].status == Pending && db.deployments[e].status == Pending
    ensures d == e
  {
    RunKeepsInv(ls);
  }
}
