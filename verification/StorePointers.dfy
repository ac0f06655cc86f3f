/** `active_deployment_id` names an existing deployment of its own app, as long as deletions spell ids canonically. */
module StorePointers {
  import opened Wrappers
  import opened Store
  import opened StoreProofs

  /** The active deployment of app `a`, if any, is a row of that app. */
  predicate PointsHome(db: Db, a: Uuid) {
    a in db.apps && db.apps[a].active.Some? ==> BackedDeployment(db, a, db.apps[a].active.value)
  }

  ghost predicate Pointers(db: Db) {
    forall a | a in db.apps :: PointsHome(db, a)
  }

  predicate CanonicalOrGarbage(dep: IdText) {
    dep.Spelled? ==> dep.canonical
  }

  /** What a deletion has established about the app's active deployment. */
  predicate SparesActive(db: Db, task: Task) {
    match task
    case DelLock(_, dep) => CanonicalOrGarbage(dep)
    case DelFindApp(_, dep) => CanonicalOrGarbage(dep)
    case DelFindDep(a, dep) => a in db.apps && (dep.Spelled? ==> db.apps[a].active != Some(dep.uuid))
    case DelRow(a, d, _) => a in db.apps && db.apps[a].active != Some(d)
    case _ => true
  }

  lemma ActKeepsPointsHome(db: Db, disk: Disk, t: nat, task: Task, ok: bool, a: Uuid)
    requires PointsHome(db, a) && TaskOk(db, disk, t, task) && SparesActive(db, task)
    ensures PointsHome(Act(db, disk, t, task, ok).db, a)
  {
  }

  lemma ActKeepsSparing(db: Db, disk: Disk, t: nat, task: Task, ok: bool)
    requires TaskOk(db, disk, t, task) && SparesActive(db, task)
    ensures var after := Act(db, disk, t, task, ok); after.next.Some? ==> SparesActive(after.db, after.next.value)
  {
  }

  lemma ActKeepsOthersSparing(db: Db, disk: Disk, t: nat, task: Task, ok: bool, other: Task)
    requires SparesActive(db, other) && !(Critical(task) && Critical(other))
    ensures SparesActive(Act(db, disk, t, task, ok).db, other)
  {
  }

  ghost predicate PointerInv(s: System) {
    Pointers(s.db) && forall t | t in s.tasks :: SparesActive(s.db, s.tasks[t])
  }

  predicate DeletesCanonically(l: Label) {
    l.Spawn? && l.task.DelLock? ==> CanonicalOrGarbage(l.task.dep)
  }

  lemma StepKeepsPointers(s: System, l: Label)
    requires Inv(s) && PointerInv(s) && Enabled(s, l) && DeletesCanonically(l)
    ensures PointerInv(Step(s, l))
  {
    if l.Advance? {
      var t, task, s' := l.t, s.tasks[l.t], Step(s, l);
      forall a | a in s'.db.apps ensures PointsHome(s'.db, a) {
        ActKeepsPointsHome(s.db, s.disk, t, task, l.ok, a);
      }
      forall u | u in s'.tasks ensures SparesActive(s'.db, s'.tasks[u]) {
        if u == t {
          ActKeepsSparing(s.db, s.disk, t, task, l.ok);
        } else {
          ActKeepsOthersSparing(s.db, s.disk, t, task, l.ok, s.tasks[u]);
        }
      }
    }
  }

  /**
   * In every reachable state, whatever is interleaved and wherever it crashes, every deployment row's app
   * exists and every active id names a row of that same app - if deletions spell their ids canonically.
   */
  lemma {:induction false} ActiveAlwaysNamesARow(ls: seq<Label>)
    requires Run(Init(), ls).Some?
    requires forall l | l in ls :: DeletesCanonically(l)
    ensures PointerInv(Run(Init(), ls).value)
    ensures var db := Run(Init(), ls).value.db;
            && (forall d | d in db.deployments :: db.deployments[d].app in db.apps)
            && (forall a | a in db.apps && db.apps[a].active.Some? ::
                  BackedDeployment(db, a, db.apps[a].active.value))
  {
    RunKeepsInv(ls);
    if |ls| > 0 {
      ActiveAlwaysNamesARow(ls[..|ls|-1]);
      RunKeepsInv(ls[..|ls|-1]);
      StepKeepsPointers(Run(Init(), ls[..|ls|-1]).value, ls[|ls|-1]);
    }
    var db := Run(Init(), ls).value.db;
    assert forall a | a in db.apps :: PointsHome(db, a);
  }
}
