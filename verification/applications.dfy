/** Applications, their OAuth clients and the provider's copies of them as values
    (backend/internal/applications/model.go), and the invariant that ties the two together.
    The service that keeps it is in application_service.dfy. */
module Applications {
  import opened Outcomes

  datatype Status = Active | Disabled
  {
    predicate CanEnable() { Disabled? }

    predicate CanDisable() { Active? }
  }

  function Target(enable: bool): Status { if enable then Active else Disabled }

  predicate CanSwitch(s: Status, enable: bool) { if enable then s.CanEnable() else s.CanDisable() }

  predicate EffectiveClientActive(app: Status, client: Status) { app.Active? && client.Active? }

  datatype Stage = Provisioning | Provisioned | ProvisioningFailed | Deleting | DeleteFailed

  datatype Application = Application(status: Status, stage: Stage, deleted: bool, version: nat)
  {
    predicate Visible() { stage.Provisioned? && !deleted }
  }

  /** remote is the provider's identifier of the client, once the row knows it. */
  datatype Client = Client(
    id: string, app: string, status: Status, stage: Stage, deleted: bool, remote: Option<nat>, version: nat)
  {
    predicate Visible() { stage.Provisioned? && !deleted }
  }

  /** The provider's client, with the local identifier it was created for. */
  datatype Remote = Remote(local: string, enabled: bool)

  /** A reconciliation job names a client, and its provider resource when that is known. */
  datatype Job = Job(app: string, client: string, remote: Option<nat>, desired: Option<Status>)

  /** Both stores at one moment. torn are the clients whose mark for deletion was committed
      while the caller saw an error. */
  datatype State = State(
    apps: map<string, Application>, clients: map<string, Client>, jobs: seq<Job>,
    remotes: map<nat, Remote>, torn: set<string>)

  predicate Names(job: Job, pid: nat, local: string) { job.remote == Some(pid) || job.client == local }

  ghost predicate Named(jobs: seq<Job>, pid: nat, local: string) {
    exists i :: 0 <= i < |jobs| && Names(jobs[i], pid, local)
  }

  /** The local row of a provider client is live and the enablement is the effective one. */
  ghost predicate Agrees(s: State, pid: nat)
    requires pid in s.remotes
  {
    var local := s.remotes[pid].local;
    && local in s.clients && s.clients[local].remote == Some(pid) && s.clients[local].Visible()
    && s.clients[local].app in s.apps && s.apps[s.clients[local].app].Visible()
    && (s.remotes[pid].enabled <==> EffectiveClientActive(s.apps[s.clients[local].app].status, s.clients[local].status))
  }

  /** No silent drift. */
  ghost predicate Accounted(s: State) {
    forall pid :: pid in s.remotes ==>
      Agrees(s, pid) || Named(s.jobs, pid, s.remotes[pid].local) || s.remotes[pid].local in s.torn
  }

  /** Rows are keyed by their identifiers, and a provider resource belongs to the row that
      knows it. */
  ghost predicate Linked(s: State) {
    forall id :: id in s.clients ==>
      && s.clients[id].id == id
      && (s.clients[id].remote.Some? && s.clients[id].remote.value in s.remotes ==>
            s.remotes[s.clients[id].remote.value].local == id)
      && (s.clients[id].Visible() ==> s.clients[id].app in s.apps && s.apps[s.clients[id].app].Visible())
  }

  /** What makes enabling an application safe: under a disabled application, a client that
      is disabled itself is disabled at the provider too. */
  ghost predicate SwitchedOff(s: State) {
    forall id :: id in s.clients && s.clients[id].Visible() && s.clients[id].status.Disabled?
                 && s.clients[id].app in s.apps && s.apps[s.clients[id].app].status.Disabled?
                 && s.clients[id].remote.Some? && s.clients[id].remote.value in s.remotes ==>
      !s.remotes[s.clients[id].remote.value].enabled
  }

  /** A torn row is on its way out for good. */
  ghost predicate TornHidden(clients: map<string, Client>, torn: set<string>) {
    forall id :: id in torn ==>
      id in clients && (clients[id].deleted || clients[id].stage.Deleting? || clients[id].stage.DeleteFailed?)
  }

  /** A provider client is out of line without a job exactly if its row was torn and no job
      names it. */
  ghost predicate DriftIsTorn(s: State) {
    forall pid :: pid in s.remotes ==>
      (Agrees(s, pid) || Named(s.jobs, pid, s.remotes[pid].local)
       <==> s.remotes[pid].local !in s.torn || Named(s.jobs, pid, s.remotes[pid].local))
  }

  lemma DriftExactly(s: State)
    requires Accounted(s) && TornHidden(s.clients, s.torn)
    ensures DriftIsTorn(s)
  {
    forall pid | pid in s.remotes && s.remotes[pid].local in s.torn ensures !Agrees(s, pid) {
      assert !s.clients[s.remotes[pid].local].Visible();
    }
  }

  ghost predicate Consistent(s: State) { Accounted(s) && Linked(s) && SwitchedOff(s) }

  // ---- The fan-out of an application switch ----

  /** The clients SetStatus switches at the provider. */
  predicate IsTarget(c: Client, app: string, enable: bool) {
    c.app == app && c.Visible() && c.remote.Some? && (enable ==> c.status.Active?)
  }

  ghost function Targets(s: State, app: string, enable: bool): set<nat> {
    set id | id in s.clients && IsTarget(s.clients[id], app, enable) :: s.clients[id].remote.value
  }

  function Switched(remotes: map<nat, Remote>, pids: set<nat>, enable: bool): map<nat, Remote> {
    map pid | pid in remotes :: if pid in pids then remotes[pid].(enabled := enable) else remotes[pid]
  }

  predicate SwitchAllowed(s: State, app: string, enable: bool) {
    app in s.apps && s.apps[app].Visible() && CanSwitch(s.apps[app].status, enable)
  }

  function WithStatus(s: State, app: string, enable: bool): map<string, Application>
    requires app in s.apps
  {
    s.apps[app := s.apps[app].(status := Target(enable), version := s.apps[app].version + 1)]
  }

  /** The state after an application switch that met no fault. */
  ghost function SwitchedApp(s: State, app: string, enable: bool): State
    requires app in s.apps
  {
    s.(apps := WithStatus(s, app, enable), remotes := Switched(s.remotes, Targets(s, app, enable), enable))
  }

  /** A switch turns a disabled application active, or an active one disabled, and every
      client it has at the provider with it, except that enabling leaves out the clients that
      are disabled themselves; nothing else changes. */
  lemma SwitchedExactly(s: State, app: string, enable: bool)
    requires SwitchAllowed(s, app, enable) && Linked(s)
    ensures var t := SwitchedApp(s, app, enable);
      && s.apps[app].status == (if enable then Disabled else Active)
      && t.apps == s.apps[app := Application(if enable then Active else Disabled, Provisioned, false,
                                             s.apps[app].version + 1)]
      && t == s.(apps := t.apps, remotes := t.remotes) && t.remotes.Keys == s.remotes.Keys
      && (forall pid :: pid in s.remotes ==>
            var local := s.remotes[pid].local;
            var reached := && local in s.clients && s.clients[local].remote == Some(pid) && s.clients[local].app == app
                           && s.clients[local].stage == Provisioned && !s.clients[local].deleted
                           && (enable ==> s.clients[local].status == Active);
            t.remotes[pid] == if reached then Remote(local, enable) else s.remotes[pid])
  {
    var t := SwitchedApp(s, app, enable);
    forall pid | pid in s.remotes
      ensures pid in Targets(s, app, enable) <==>
        var local := s.remotes[pid].local;
        local in s.clients && s.clients[local].remote == Some(pid) && IsTarget(s.clients[local], app, enable)
    {
      var local := s.remotes[pid].local;
      if local in s.clients && s.clients[local].remote == Some(pid) {
        OwnTarget(s, local, app, enable);
      }
    }
  }

  /** Every client of the application that the provider knows is enabled exactly when it
      should be. */
  ghost predicate Restored(s: State, app: string) {
    forall id :: id in s.clients && s.clients[id].app == app && s.clients[id].Visible() && app in s.apps
                 && s.clients[id].remote.Some? && s.clients[id].remote.value in s.remotes ==>
      (s.remotes[s.clients[id].remote.value].enabled <==>
         EffectiveClientActive(s.apps[app].status, s.clients[id].status))
  }

  /** From any consistent state, however it came about, one application switch that meets
      no fault brings the provider in line for every client of the application. */
  lemma SwitchRestores(s: State, app: string, enable: bool)
    requires Consistent(s) && SwitchAllowed(s, app, enable)
    ensures Restored(SwitchedApp(s, app, enable), app)
  {
    var t := SwitchedApp(s, app, enable);
    forall id | id in t.clients && t.clients[id].app == app && t.clients[id].Visible()
      && t.clients[id].remote.Some? && t.clients[id].remote.value in t.remotes
      ensures t.remotes[t.clients[id].remote.value].enabled <==>
        EffectiveClientActive(t.apps[app].status, t.clients[id].status)
    {
      var pid := t.clients[id].remote.value;
      if IsTarget(s.clients[id], app, enable) {
        assert pid in Targets(s, app, enable);
      } else {
        OwnTarget(s, id, app, enable);
      }
    }
  }

  /** A provider client is a target only through its own row. */
  lemma OwnTarget(s: State, id: string, app: string, enable: bool)
    requires Linked(s) && id in s.clients && s.clients[id].remote.Some? && s.clients[id].remote.value in s.remotes
    ensures s.clients[id].remote.value in Targets(s, app, enable) <==> IsTarget(s.clients[id], app, enable)
  {
    var pid := s.clients[id].remote.value;
    assert forall other :: other in s.clients && s.clients[other].remote == Some(pid) ==> other == s.remotes[pid].local;
  }

  // ---- What keeps the invariant ----

  lemma NamedMore(jobs: seq<Job>, more: seq<Job>, pid: nat, local: string)
    requires Named(jobs, pid, local) && jobs <= more
    ensures Named(more, pid, local)
  {
    var i :| 0 <= i < |jobs| && Names(jobs[i], pid, local);
    assert Names(more[i], pid, local);
  }

  lemma MoreJobsKeep(s: State, jobs: seq<Job>)
    requires Consistent(s) && s.jobs <= jobs
    ensures Consistent(s.(jobs := jobs))
  {
    forall pid | pid in s.remotes && Named(s.jobs, pid, s.remotes[pid].local)
      ensures Named(jobs, pid, s.remotes[pid].local)
    {
      NamedMore(s.jobs, jobs, pid, s.remotes[pid].local);
    }
    forall pid | pid in s.remotes && Agrees(s, pid) ensures Agrees(s.(jobs := jobs), pid) {}
  }

  /** The complete switch, committed. */
  lemma SwitchKeeps(s: State, app: string, enable: bool)
    requires Consistent(s) && SwitchAllowed(s, app, enable)
    ensures Consistent(SwitchedApp(s, app, enable))
  {
    var t := SwitchedApp(s, app, enable);
    forall pid | pid in t.remotes
      ensures Agrees(t, pid) || Named(t.jobs, pid, t.remotes[pid].local) || t.remotes[pid].local in t.torn
    {
      if Agrees(s, pid) {
        OwnTarget(s, s.remotes[pid].local, app, enable);
        assert Agrees(t, pid);
      }
    }
    SwitchRestores(s, app, enable);
    assert Linked(t);
    forall id | id in t.clients && t.clients[id].Visible() && t.clients[id].status.Disabled?
      && t.clients[id].app in t.apps && t.apps[t.clients[id].app].status.Disabled?
      && t.clients[id].remote.Some? && t.clients[id].remote.value in t.remotes
      ensures !t.remotes[t.clients[id].remote.value].enabled
    {
      OwnTarget(s, id, app, enable);
    }
  }

  predicate AppActive(s: State, app: string) { app in s.apps && s.apps[app].status.Active? }

  /** What an interrupted switch may leave at the provider: a changed client is either named
      by a job, or disabled under a disabled application; and only a client that is active
      itself, or under an active application, was enabled. */
  ghost predicate Interrupted(s: State, remotes: map<nat, Remote>, jobs: seq<Job>) {
    && remotes.Keys == s.remotes.Keys && s.jobs <= jobs
    && forall pid :: pid in s.remotes && remotes[pid] != s.remotes[pid] ==>
         var local := s.remotes[pid].local;
         && remotes[pid].local == local
         && (remotes[pid].enabled ==>
               local in s.clients && (s.clients[local].status.Active? || AppActive(s, s.clients[local].app)))
         && (|| Named(jobs, pid, local)
             || (!remotes[pid].enabled && local in s.clients && s.clients[local].app in s.apps
                 && s.apps[s.clients[local].app].status.Disabled?))
  }

  lemma InterruptedKeeps(s: State, remotes: map<nat, Remote>, jobs: seq<Job>)
    requires Consistent(s) && Interrupted(s, remotes, jobs)
    ensures Consistent(s.(remotes := remotes, jobs := jobs))
  {
    var t := s.(remotes := remotes, jobs := jobs);
    forall pid | pid in t.remotes
      ensures Agrees(t, pid) || Named(jobs, pid, t.remotes[pid].local) || t.remotes[pid].local in t.torn
    {
      var local := s.remotes[pid].local;
      if Named(s.jobs, pid, local) {
        NamedMore(s.jobs, jobs, pid, local);
      } else if Agrees(s, pid) && !Named(jobs, pid, local) {
        assert Agrees(t, pid);
      }
    }
  }

  lemma RemovedKeeps(s: State, pid: nat)
    requires Consistent(s)
    ensures Consistent(s.(remotes := s.remotes - {pid}))
  {
    var t := s.(remotes := s.remotes - {pid});
    forall p | p in t.remotes && Agrees(s, p) ensures Agrees(t, p) {}
  }

  lemma NewAppKeeps(s: State, app: string, row: Application)
    requires Consistent(s) && app !in s.apps
    ensures Consistent(s.(apps := s.apps[app := row]))
  {
    var t := s.(apps := s.apps[app := row]);
    forall pid | pid in t.remotes && Agrees(s, pid) ensures Agrees(t, pid) {}
  }

  lemma NewClientKeeps(s: State, row: Client)
    requires Consistent(s) && row.id !in s.clients && row.remote.None? && !row.Visible()
    ensures Consistent(s.(clients := s.clients[row.id := row]))
  {
    var t := s.(clients := s.clients[row.id := row]);
    forall pid | pid in t.remotes && Agrees(s, pid) ensures Agrees(t, pid) {}
  }

  /** An application without visible clients may change or disappear. */
  lemma EmptyAppKeeps(s: State, app: string, row: Application)
    requires Consistent(s) && forall id :: id in s.clients && s.clients[id].app == app ==> !s.clients[id].Visible()
    ensures Consistent(s.(apps := s.apps[app := row]))
  {
    var t := s.(apps := s.apps[app := row]);
    forall pid | pid in t.remotes && Agrees(s, pid) ensures Agrees(t, pid) {}
  }

  /** A row may leave the visible stage when nothing at the provider relies on it, or a job
      or the torn set remembers it. */
  lemma HiddenRowKeeps(s: State, row: Client, torn: set<string>)
    requires Consistent(s) && row.id in s.clients && !row.Visible() && s.torn <= torn
    requires row.remote == s.clients[row.id].remote
    requires forall pid :: pid in s.remotes && s.remotes[pid].local == row.id ==>
      Named(s.jobs, pid, row.id) || row.id in torn
    ensures Consistent(s.(clients := s.clients[row.id := row], torn := torn))
  {
    var t := s.(clients := s.clients[row.id := row], torn := torn);
    forall pid | pid in t.remotes
      ensures Agrees(t, pid) || Named(t.jobs, pid, t.remotes[pid].local) || t.remotes[pid].local in t.torn
    {
      if s.remotes[pid].local != row.id && Agrees(s, pid) { assert Agrees(t, pid); }
    }
  }

  /** A provider client that a job names may appear. */
  lemma NamedRemoteKeeps(s: State, pid: nat, local: string, enabled: bool)
    requires Consistent(s) && pid !in s.remotes && Named(s.jobs, pid, local)
    requires forall id :: id in s.clients ==> s.clients[id].remote != Some(pid)
    ensures Consistent(s.(remotes := s.remotes[pid := Remote(local, enabled)]))
  {
    var t := s.(remotes := s.remotes[pid := Remote(local, enabled)]);
    forall p | p in s.remotes && Agrees(s, p) ensures Agrees(t, p) {}
  }

  /** A row becomes visible together with its new, enabled provider client. */
  lemma ProvisionedKeeps(s: State, row: Client, app: Application, pid: nat)
    requires Consistent(s) && row.id in s.clients && !s.clients[row.id].Visible() && row.remote == Some(pid)
    requires pid !in s.remotes && forall id :: id in s.clients ==> s.clients[id].remote != Some(pid)
    requires s.clients[row.id].remote.None?
    requires row.status.Active? && row.Visible() && app.Visible() && app.status.Active?
    requires row.app in s.apps && (s.apps[row.app] == app ||
      forall id :: id in s.clients && s.clients[id].app == row.app ==> !s.clients[id].Visible())
    ensures Consistent(s.(apps := s.apps[row.app := app], clients := s.clients[row.id := row],
                          remotes := s.remotes[pid := Remote(row.id, true)]))
  {
    var t := s.(apps := s.apps[row.app := app], clients := s.clients[row.id := row],
                remotes := s.remotes[pid := Remote(row.id, true)]);
    assert Agrees(t, pid);
    forall p | p in s.remotes
      ensures Agrees(t, p) || Named(t.jobs, p, t.remotes[p].local) || t.remotes[p].local in t.torn
    {
      if Agrees(s, p) { assert s.remotes[p].local != row.id; assert Agrees(t, p); }
    }
  }

  /** One client switched at the provider and in its row. */
  function ClientSwitched(s: State, id: string, enable: bool): State
    requires id in s.clients
  {
    var row := s.clients[id];
    s.(clients := s.clients[id := row.(status := Target(enable), version := row.version + 1)],
       remotes := if row.remote.Some? then Switched(s.remotes, {row.remote.value}, enable) else s.remotes)
  }

  /** Only the one client changes, in its row and at the provider. */
  lemma ClientSwitchedExactly(s: State, id: string, enable: bool)
    requires id in s.clients && Linked(s)
    ensures var t := ClientSwitched(s, id, enable);
      && t.clients == s.clients[id := s.clients[id].(status := t.clients[id].status,
                                                     version := s.clients[id].version + 1)]
      && (t.clients[id].status == Active <==> enable)
      && t == s.(clients := t.clients, remotes := t.remotes) && t.remotes.Keys == s.remotes.Keys
      && (forall pid :: pid in s.remotes ==>
            t.remotes[pid] == if s.clients[id].remote == Some(pid) then Remote(id, enable) else s.remotes[pid])
    ensures CanSwitch(s.clients[id].status, enable) <==> (s.clients[id].status == Active <==> !enable)
  {
  }

  lemma ClientSwitchKeeps(s: State, id: string, enable: bool)
    requires Consistent(s) && id in s.clients && s.clients[id].Visible()
    requires enable ==> AppActive(s, s.clients[id].app)
    ensures Consistent(ClientSwitched(s, id, enable))
  {
    var t := ClientSwitched(s, id, enable);
    forall pid | pid in t.remotes
      ensures Agrees(t, pid) || Named(t.jobs, pid, t.remotes[pid].local) || t.remotes[pid].local in t.torn
    {
      if Agrees(s, pid) { assert Agrees(t, pid); }
    }
  }
}
