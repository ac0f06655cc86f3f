/**
 * What the hub puts right whenever an agent connects, taken as one pass with no other activity: it fails
 * interrupted deployments, starts what should run, and sweeps directories nobody owns off the agents.
 * Whatever goes wrong for one deployment, app or host is logged and skipped.
 */
module Reconcile {
  import opened Wrappers
  import opened Containers
  import A = Activation

  type Host = int

  datatype Status = Pending | Ready | Failed

  datatype AppRow = AppRow(runs: bool, installs: bool, active: Option<string>, host: Host)

  datatype DeploymentRow = DeploymentRow(app: string, container: Option<string>, status: Status)

  datatype Fleet = Fleet(
    apps: map<string, AppRow>,
    deployments: map<string, DeploymentRow>,
    connected: set<Host>,
    engines: map<Host, Engine>,
    dirs: map<Host, set<string>>)

  /** Every connected host has an engine and a directory listing. */
  predicate Wired(s: Fleet) {
    s.connected <= s.engines.Keys && s.connected <= s.dirs.Keys
  }

  predicate NoRepeats<T(==)>(items: seq<T>) {
    forall i, j | 0 <= i < j < |items| :: items[i] != items[j]
  }

  /** The orders in which the tables and directories happen to be listed; `dirs` is per host. */
  datatype Listing = Listing(apps: seq<string>, deployments: seq<string>, hosts: seq<Host>, dirs: Host -> seq<string>)

  predicate ListsAll(l: Listing, s: Fleet) {
    && NoRepeats(l.apps)
    && (forall a | a in s.apps :: a in l.apps) && (forall a | a in l.apps :: a in s.apps)
    && (forall d | d in s.deployments :: d in l.deployments) && (forall d | d in l.deployments :: d in s.deployments)
    && (forall h | h in s.connected :: h in l.hosts) && (forall h | h in l.hosts :: h in s.connected)
    && (forall h | h in s.connected && h in s.dirs ::
          (forall n | n in s.dirs[h] :: n in l.dirs(h)) && (forall n | n in l.dirs(h) :: n in s.dirs[h]))
  }

  /**
   * What goes wrong: by deployment for failing it, by app for starting it, by host and directory for the
   * sweep. The flags say what succeeds; requests to hosts that are not connected fail in any case.
   */
  datatype Faults = Faults(
    listsApps: bool, listsDeployments: string -> bool,
    stopRpc: string -> A.Rpc, stop: string -> StopFaults, updates: string -> bool,
    listsAppsAgain: bool, prepares: string -> bool, startRpc: string -> A.Rpc, start: string -> StartFaults,
    listsRows: bool, listsDirs: Host -> bool, removes: (Host, string) -> bool)

  function NoFaults(): Faults {
    Faults(true, a => true, d => A.Delivered, d => StopFaults(Done, Done), d => true,
           true, a => true, a => A.Delivered, a => WORKS, true, h => true, (h, n) => true)
  }

  // ---- Interrupted deployments --------------------------------------------------------------------

  /** What the request to remove an install container leaves of an engine. */
  function Uninstalled(e: Engine, name: string, d: string, f: Faults): Engine {
    if f.stopRpc(d) == A.NotSent then e else Now(StopTrail([e], InstallContainerName(name), f.stop(d)).h)
  }

  function Failing(s: Fleet, a: string, d: string, f: Faults): Fleet
    requires Wired(s) && a in s.apps && d in s.deployments
  {
    var row, host := s.deployments[d], s.apps[a].host;
    if row.app != a || row.status != Pending then s
    else
      var engines := if row.container.Some? && host in s.connected
                     then s.engines[host := Uninstalled(s.engines[host], row.container.value, d, f)]
                     else s.engines;
      var deployments := if f.updates(d) then s.deployments[d := row.(status := Failed)] else s.deployments;
      s.(deployments := deployments, engines := engines)
  }

  predicate SameTables(s: Fleet, t: Fleet) {
    && t.apps == s.apps && t.connected == s.connected && t.engines.Keys == s.engines.Keys
    && t.deployments.Keys == s.deployments.Keys
    && forall d | d in s.deployments ::
         t.deployments[d].app == s.deployments[d].app && t.deployments[d].container == s.deployments[d].container
  }

  function FailingIn(s: Fleet, a: string, deps: seq<string>, f: Faults): (t: Fleet)
    requires Wired(s) && a in s.apps && forall d | d in deps :: d in s.deployments
    ensures SameTables(s, t) && t.dirs == s.dirs
  {
    if |deps| == 0 then s else Failing(FailingIn(s, a, deps[..|deps|-1], f), a, deps[|deps|-1], f)
  }

  function FailingApp(s: Fleet, a: string, deps: seq<string>, f: Faults): (t: Fleet)
    requires Wired(s) && a in s.apps && forall d | d in deps :: d in s.deployments
    ensures SameTables(s, t) && t.dirs == s.dirs
  {
    if f.listsDeployments(a) then FailingIn(s, a, deps, f) else s
  }

  function FailingAll(s: Fleet, apps: seq<string>, deps: seq<string>, f: Faults): (t: Fleet)
    requires Wired(s) && (forall a | a in apps :: a in s.apps) && (forall d | d in deps :: d in s.deployments)
    ensures SameTables(s, t) && t.dirs == s.dirs
  {
    if |apps| == 0 then s else FailingApp(FailingAll(s, apps[..|apps|-1], deps, f), apps[|apps|-1], deps, f)
  }

  /** The first part of a pass. */
  function FirstPart(s: Fleet, l: Listing, f: Faults): (t: Fleet)
    requires Wired(s) && ListsAll(l, s)
    ensures SameTables(s, t) && t.dirs == s.dirs
  {
    if f.listsApps then FailingAll(s, l.apps, l.deployments, f) else s
  }

  // ---- Containers that should run -----------------------------------------------------------------

  /** The container an app is served from, if it has one. */
  function Wanted(s: Fleet, a: string): Option<string>
    requires a in s.apps
  {
    var row := s.apps[a];
    if !row.runs || row.active.None? || row.active.value !in s.deployments then None
    else if s.deployments[row.active.value].app != a then None
    else s.deployments[row.active.value].container
  }

  /** Whether the hub gets as far as asking the agent to start an app's container. */
  predicate Asks(f: Faults, a: string) {
    f.prepares(a) && f.startRpc(a) != A.NotSent
  }

  /** What the agent makes of its engine when asked. */
  function Started(e: Engine, name: string, installs: bool, f: StartFaults): Engine {
    Now(StartTrail([e], name, installs, f).h)
  }

  function Starting(s: Fleet, a: string, f: Faults): Fleet
    requires Wired(s) && a in s.apps
  {
    var name, host := Wanted(s, a), s.apps[a].host;
    if name.None? || host !in s.connected || !Asks(f, a) then s
    else s.(engines := s.engines[host := Started(s.engines[host], name.value, s.apps[a].installs, f.start(a))])
  }

  function StartingAll(s: Fleet, apps: seq<string>, f: Faults): (t: Fleet)
    requires Wired(s) && forall a | a in apps :: a in s.apps
    ensures t == s.(engines := t.engines) && t.engines.Keys == s.engines.Keys
  {
    if |apps| == 0 then s else Starting(StartingAll(s, apps[..|apps|-1], f), apps[|apps|-1], f)
  }

  /** The second part of a pass. */
  function SecondPart(s: Fleet, apps: seq<string>, f: Faults): (t: Fleet)
    requires Wired(s) && forall a | a in apps :: a in s.apps
    ensures t == s.(engines := t.engines) && t.engines.Keys == s.engines.Keys
  {
    if f.listsAppsAgain then StartingAll(s, apps, f) else s
  }

  // ---- Directories on the agents ------------------------------------------------------------------

  /** A directory is an orphan when its name spells an id and no deployment with a container has that id. */
  predicate Orphan(parse: A.Parser, s: Fleet, name: string) {
    parse(name).Some? && !(parse(name).value in s.deployments && s.deployments[parse(name).value].container.Some?)
  }

  function SweepingHost(parse: A.Parser, s: Fleet, h: Host, names: seq<string>, f: Faults): (t: Fleet)
    requires h in s.dirs
    ensures t == s.(dirs := t.dirs) && t.dirs.Keys == s.dirs.Keys
  {
    if |names| == 0 then s
    else
      var u, name := SweepingHost(parse, s, h, names[..|names|-1], f), names[|names|-1];
      if Orphan(parse, s, name) && f.removes(h, name) then u.(dirs := u.dirs[h := u.dirs[h] - {name}]) else u
  }

  function SweepingAll(parse: A.Parser, s: Fleet, hosts: seq<Host>, listing: Host -> seq<string>, f: Faults): (t: Fleet)
    requires forall h | h in hosts :: h in s.dirs
    ensures t == s.(dirs := t.dirs) && t.dirs.Keys == s.dirs.Keys
  {
    if |hosts| == 0 then s
    else
      var u, h := SweepingAll(parse, s, hosts[..|hosts|-1], listing, f), hosts[|hosts|-1];
      if f.listsDirs(h) then SweepingHost(parse, u, h, listing(h), f) else u
  }

  /** The third part of a pass. */
  function ThirdPart(parse: A.Parser, s: Fleet, hosts: seq<Host>, listing: Host -> seq<string>, f: Faults): (t: Fleet)
    requires forall h | h in hosts :: h in s.dirs
    ensures t == s.(dirs := t.dirs) && t.dirs.Keys == s.dirs.Keys
  {
    if f.listsRows then SweepingAll(parse, s, hosts, listing, f) else s
  }

  function Pass(parse: A.Parser, s: Fleet, l: Listing, f: Faults): (t: Fleet)
    requires Wired(s) && ListsAll(l, s)
    ensures SameTables(s, t) && t.dirs.Keys == s.dirs.Keys
  {
    ThirdPart(parse, SecondPart(FirstPart(s, l, f), l.apps, f), l.hosts, l.dirs, f)
  }

  // ---- The object -----------------------------------------------------------------------------------

  class Reconciler {
    const parse: A.Parser
    const apps: map<string, AppRow>
    const connected: set<Host>
    var deployments: map<string, DeploymentRow>
    var engines: map<Host, Engine>
    var dirs: map<Host, set<string>>

    constructor (parse: A.Parser, s: Fleet)
      ensures this.parse == parse && View() == s
    {
      this.parse, apps, connected := parse, s.apps, s.connected;
      deployments, engines, dirs := s.deployments, s.engines, s.dirs;
    }

    function View(): Fleet
      reads this
    {
      Fleet(apps, deployments, connected, engines, dirs)
    }

    method FailPendingDeployments(l: Listing, f: Faults)
      requires Wired(View()) && ListsAll(l, View())
      modifies this`deployments, this`engines
      ensures View() == FirstPart(old(View()), l, f)
    {
      if !f.listsApps {
        return;
      }
      for i := 0 to |l.apps|
        invariant View() == FailingAll(old(View()), l.apps[..i], l.deployments, f)
      {
        if f.listsDeployments(l.apps[i]) {
          FailPendingOf(l.apps[i], l.deployments, f);
        }
        assert l.apps[..i+1][..i] == l.apps[..i];
      }
      assert l.apps[..|l.apps|] == l.apps;
    }

    /** The inner loop, over the deployments of one app. */
    method FailPendingOf(a: string, deps: seq<string>, f: Faults)
      requires Wired(View()) && a in apps && forall d | d in deps :: d in deployments
      modifies this`deployments, this`engines
      ensures View() == FailingIn(old(View()), a, deps, f)
    {
      for i := 0 to |deps|
        invariant View() == FailingIn(old(View()), a, deps[..i], f)
      {
        FailOne(a, deps[i], f);
        assert deps[..i+1][..i] == deps[..i];
      }
      assert deps[..|deps|] == deps;
    }

    method FailOne(a: string, d: string, f: Faults)
      requires Wired(View()) && a in apps && d in deployments
      modifies this`deployments, this`engines
      ensures View() == Failing(old(View()), a, d, f)
    {
      var row, host := deployments[d], apps[a].host;
      if row.app != a || row.status != Pending {
        return;
      }
      if row.container.Some? && host in connected {
        engines := engines[host := Uninstalled(engines[host], row.container.value, d, f)];
      }
      if f.updates(d) {
        deployments := deployments[d := row.(status := Failed)];
      }
    }

    method ReconcileRunModeContainers(l: Listing, f: Faults)
      requires Wired(View()) && ListsAll(l, View())
      modifies this`engines
      ensures View() == SecondPart(old(View()), l.apps, f)
    {
      if !f.listsAppsAgain {
        return;
      }
      for i := 0 to |l.apps|
        invariant View() == StartingAll(old(View()), l.apps[..i], f)
      {
        ReconcileApp(l.apps[i], f);
        assert l.apps[..i+1][..i] == l.apps[..i];
      }
      assert l.apps[..|l.apps|] == l.apps;
    }

    method ReconcileApp(a: string, f: Faults)
      requires Wired(View()) && a in apps
      modifies this`engines
      ensures View() == Starting(old(View()), a, f)
    {
      var row := apps[a];
      if !row.runs || row.active.None? || !f.prepares(a) {
        return;
      }
      var d := row.active.value;
      if d !in deployments || deployments[d].app != a || deployments[d].container.None? {
        return;
      }
      if row.host !in connected || f.startRpc(a) == A.NotSent {
        return;
      }
      var started := Started(engines[row.host], deployments[d].container.value, row.installs, f.start(a));
      engines := engines[row.host := started];
    }

    method SweepAgentOrphanedDeploymentDirs(l: Listing, f: Faults)
      requires Wired(View()) && ListsAll(l, View())
      modifies this`dirs
      ensures View() == ThirdPart(parse, old(View()), l.hosts, l.dirs, f)
    {
      if !f.listsRows {
        return;
      }
      ghost var before := View();
      for i := 0 to |l.hosts|
        invariant View() == SweepingAll(parse, before, l.hosts[..i], l.dirs, f)
      {
        if f.listsDirs(l.hosts[i]) {
          SweepOnHost(l.hosts[i], l.dirs(l.hosts[i]), f);
        }
        assert l.hosts[..i+1][..i] == l.hosts[..i];
      }
      assert l.hosts[..|l.hosts|] == l.hosts;
    }

    method SweepOnHost(h: Host, names: seq<string>, f: Faults)
      requires h in dirs
      modifies this`dirs
      ensures View() == SweepingHost(parse, old(View()), h, names, f)
    {
      ghost var before := View();
      for i := 0 to |names|
        invariant View() == SweepingHost(parse, before, h, names[..i], f)
      {
        var id := parse(names[i]);
        if id.Some? && !(id.value in deployments && deployments[id.value].container.Some?) && f.removes(h, names[i]) {
          dirs := dirs[h := dirs[h] - {names[i]}];
        }
        assert names[..i+1][..i] == names[..i];
      }
      assert names[..|names|] == names;
    }

    /** Everything done when an agent connects. */
    method OnAgentConnected(l: Listing, f: Faults)
      requires Wired(View()) && ListsAll(l, View())
      modifies this`deployments, this`engines, this`dirs
      ensures View() == Pass(parse, old(View()), l, f)
    {
      FailPendingDeployments(l, f);
      ReconcileRunModeContainers(l, f);
      SweepAgentOrphanedDeploymentDirs(l, f);
    }
  }
}
