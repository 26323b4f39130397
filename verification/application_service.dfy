/** The application management saga (backend/internal/applications/service.go) over the
    local store and the provisioner of fakeprovisioner.go. Both misbehave as their scripts
    say: any local write and any provider call may fail. */
module ApplicationService {
  import opened Outcomes
  import opened Applications

  /** A provider call works, is refused without effect, or gets no answer, before or after
      it took effect. An unanswered enable or disable is taken to have had no effect. */
  datatype ProviderFault = Accepted | Refused | LostBefore | LostAfter

  datatype ProvisionError = ProviderRefused | OutcomeUnknown

  ghost function Pids(rows: seq<Client>): set<nat> {
    set i | 0 <= i < |rows| && rows[i].remote.Some? :: rows[i].remote.value
  }

  predicate IsListed(c: Client, app: string, provisionedOnly: bool) {
    c.app == app && !c.deleted && (provisionedOnly ==> c.stage.Provisioned?)
  }

  /** FakeProvisioner. */
  class FakeProvisioner {
    var clients: map<nat, Remote>
    var byKey: map<string, nat>
    var counter: nat
    var calls: nat
    const script: nat -> ProviderFault

    constructor (faults: nat -> ProviderFault)
      ensures clients == map[] && byKey == map[] && counter == calls == 0 && script == faults
    {
      clients, byKey, counter, calls := map[], map[], 0, 0;
      script := faults;
    }

    ghost predicate Calm()
      reads this
    {
      forall n: nat :: n >= calls ==> script(n).Accepted?
    }

    /** ProvisionClient: a known idempotency key gets its first answer again; a new one gets
        a fresh, enabled client, unless the call failed before taking effect. */
    method ProvisionClient(key: string) returns (r: Result<nat, ProvisionError>)
      modifies this
      ensures old(Calm()) ==> Calm() && r.Success?
      ensures r.Success? && key in old(byKey) ==> r.value == old(byKey)[key]
      ensures (clients == old(clients) && byKey == old(byKey) && counter == old(counter))
        || (key !in old(byKey) && counter == old(counter) + 1
            && clients == old(clients)[counter := Remote(key, true)] && byKey == old(byKey)[key := counter])
      ensures key !in old(byKey) ==>
        match r
        case Success(pid) => pid == counter == old(counter) + 1
        case Failure(ProviderRefused) => clients == old(clients)
        case Failure(OutcomeUnknown) => true
      ensures key !in old(byKey) ==>
        && calls == old(calls) + 1
        && match script(old(calls))
           case Accepted => r.Success?
           case Refused => r == Failure(ProviderRefused)
           case _ => r == Failure(OutcomeUnknown)
    {
      if key in byKey { return Success(byKey[key]); }
      var fault := script(calls);
      calls := calls + 1;
      if fault.Refused? { return Failure(ProviderRefused); }
      if fault.LostBefore? { return Failure(OutcomeUnknown); }
      counter := counter + 1;
      clients := clients[counter := Remote(key, true)];
      byKey := byKey[key := counter];
      r := if fault.LostAfter? then Failure(OutcomeUnknown) else Success(counter);
    }

    /** EnableClient and DisableClient. */
    method SwitchClient(pid: nat, enable: bool) returns (ok: bool)
      modifies this`clients, this`calls
      ensures clients == if ok then Switched(old(clients), {pid}, enable) else old(clients)
      ensures ok ==> pid in old(clients)
      ensures old(Calm()) ==> Calm() && (ok <==> pid in old(clients))
    {
      var fault := script(calls);
      calls := calls + 1;
      if !fault.Accepted? { return false; }
      if pid !in clients { return false; }
      clients := clients[pid := clients[pid].(enabled := enable)];
      ok := true;
    }

    /** DeleteClient: removing what is already gone succeeds. */
    method DeleteClient(pid: nat) returns (ok: bool)
      modifies this`clients, this`calls
      ensures ok ==> clients == old(clients) - {pid}
      ensures !ok ==> clients == old(clients) || clients == old(clients) - {pid}
      ensures old(Calm()) ==> Calm() && ok
      ensures calls == old(calls) + 1
    {
      var fault := script(calls);
      calls := calls + 1;
      if fault.Accepted? || fault.LostAfter? { clients := clients - {pid}; }
      ok := fault.Accepted?;
    }
  }

  predicate IsDeleting(c: Client) { c.stage.Deleting? || c.stage.DeleteFailed? }

  predicate NoLiveClients(clients: map<string, Client>, app: string) {
    forall id :: id in clients && clients[id].app == app ==> clients[id].deleted
  }

  function Completed(c: Client, pid: nat): Client {
    c.(stage := Provisioned, remote := Some(pid), version := c.version + 1)
  }

  function CompletedApp(a: Application): Application { a.(stage := Provisioned, version := a.version + 1) }

  /** The Store contract, as the Postgres repositories keep it: every write is a guarded
      update that misses when its guard does, and is subject to one scripted fault. */
  class ApplicationStore {
    var apps: map<string, Application>
    var clients: map<string, Client>
    var jobs: seq<Job>
    var writes: nat
    const script: nat -> Fault

    constructor (faults: nat -> Fault)
      ensures apps == map[] && clients == map[] && jobs == [] && writes == 0 && script == faults
    {
      apps, clients, jobs, writes := map[], map[], [], 0;
      script := faults;
    }

    ghost predicate Calm()
      reads this
    {
      forall n: nat :: n >= writes ==> script(n).Works?
    }

    /** One write: hit says whether its guard matched, applied whether it is in the store
        afterwards, and ok what the caller is told. */
    method Write(hit: bool) returns (applied: bool, ok: bool)
      modifies this`writes
      ensures writes == old(writes) + 1
      ensures applied <==> hit && !script(old(writes)).FailsBefore?
      ensures ok <==> hit && script(old(writes)).Works?
      ensures old(Calm()) ==> Calm()
    {
      var fault := script(writes);
      writes := writes + 1;
      applied := hit && !fault.FailsBefore?;
      ok := hit && fault.Works?;
    }

    /** CreateReconciliationJob; job writes are taken to succeed. */
    method CreateReconciliationJob(job: Job)
      modifies this`jobs
      ensures jobs == old(jobs) + [job]
    {
      jobs := jobs + [job];
    }

    method GetApplication(app: string) returns (r: Option<Application>)
      ensures r == if app in apps && apps[app].Visible() then Some(apps[app]) else None
    {
      r := if app in apps && apps[app].Visible() then Some(apps[app]) else None;
    }

    method GetClient(app: string, id: string) returns (r: Option<Client>)
      ensures r == if id in clients && clients[id].app == app && clients[id].Visible() then Some(clients[id]) else None
    {
      r := if id in clients && clients[id].app == app && clients[id].Visible() then Some(clients[id]) else None;
    }

    /** ListClientsByApplication (provisioned rows only) and ListLiveClientsByApplication. */
    method ListClients(app: string, provisionedOnly: bool) returns (rows: seq<Client>)
      requires forall id :: id in clients ==> clients[id].id == id
      ensures forall i :: 0 <= i < |rows| ==>
        rows[i].id in clients && clients[rows[i].id] == rows[i] && IsListed(rows[i], app, provisionedOnly)
      ensures forall id :: id in clients && IsListed(clients[id], app, provisionedOnly) ==> clients[id] in rows
      ensures forall i, j :: 0 <= i < j < |rows| ==> rows[i].id != rows[j].id
    {
      rows := [];
      var rest := clients.Keys;
      while rest != {}
        invariant rest <= clients.Keys
        invariant forall i :: 0 <= i < |rows| ==>
          rows[i].id in clients.Keys - rest && clients[rows[i].id] == rows[i] && IsListed(rows[i], app, provisionedOnly)
        invariant forall id :: id in clients.Keys - rest && IsListed(clients[id], app, provisionedOnly) ==>
            clients[id] in rows
        invariant forall i, j :: 0 <= i < j < |rows| ==> rows[i].id != rows[j].id
        decreases rest
      {
        var id :| id in rest;
        rest := rest - {id};
        if IsListed(clients[id], app, provisionedOnly) { rows := rows + [clients[id]]; }
      }
    }

    method SetApplicationStatus(app: string, status: Status, version: nat) returns (ok: bool)
      modifies this`apps, this`writes
      ensures var hit := app in old(apps) && old(apps)[app].Visible() && old(apps)[app].version == version;
        && (apps == old(apps)
            || (hit && apps == old(apps)[app := old(apps)[app].(status := status, version := version + 1)]))
        && (ok ==> hit && apps == old(apps)[app := old(apps)[app].(status := status, version := version + 1)])
        && (old(Calm()) ==> Calm() && (ok <==> hit))
        && writes == old(writes) + 1
    {
      var hit := app in apps && apps[app].Visible() && apps[app].version == version;
      var applied;
      applied, ok := Write(hit);
      if applied { apps := apps[app := apps[app].(status := status, version := version + 1)]; }
    }

    method SetClientStatus(id: string, status: Status, version: nat) returns (ok: bool)
      modifies this`clients, this`writes
      ensures var hit := id in old(clients) && old(clients)[id].Visible() && old(clients)[id].version == version;
        && (clients == old(clients)
            || (hit && clients == old(clients)[id := old(clients)[id].(status := status, version := version + 1)]))
        && (ok ==> hit && clients == old(clients)[id := old(clients)[id].(status := status, version := version + 1)])
        && (old(Calm()) ==> Calm() && (ok <==> hit))
        && writes == old(writes) + 1
    {
      var hit := id in clients && clients[id].Visible() && clients[id].version == version;
      var applied;
      applied, ok := Write(hit);
      if applied { clients := clients[id := clients[id].(status := status, version := version + 1)]; }
    }

    /** CreateApplicationWithInitialClient and CreateClientWithOperation: both rows, or the
        client row alone. */
    method InsertRows(app: string, newApp: Option<Application>, row: Client) returns (ok: bool)
      modifies this`apps, this`clients, this`writes
      ensures var hit := row.id !in old(clients) && (newApp.Some? ==> app !in old(apps));
        var grown := if newApp.Some? then old(apps)[app := newApp.value] else old(apps);
        && ((clients == old(clients) && apps == old(apps))
            || (hit && clients == old(clients)[row.id := row] && apps == grown))
        && (ok ==> hit && clients == old(clients)[row.id := row] && apps == grown)
        && (hit && script(old(writes)).Works? ==> ok)
        && (old(Calm()) ==> Calm() && (ok <==> hit))
        && writes == old(writes) + 1
    {
      var hit := row.id !in clients && (newApp.Some? ==> app !in apps);
      var applied;
      applied, ok := Write(hit);
      if applied {
        clients := clients[row.id := row];
        if newApp.Some? { apps := apps[app := newApp.value]; }
      }
    }

    /** CompleteInitialProvisioning and CompleteClientProvisioning: one transaction flips
        the client row, and the application row with it when it is new. */
    method CompleteProvisioning(app: string, withApp: bool, id: string, pid: nat) returns (ok: bool)
      modifies this`apps, this`clients, this`writes
      ensures var hit := id in old(clients) && old(clients)[id].stage.Provisioning? && !old(clients)[id].deleted
                         && (withApp ==>
                               app in old(apps) && old(apps)[app].stage.Provisioning? && !old(apps)[app].deleted);
        && ((clients == old(clients) && apps == old(apps))
            || (hit && clients == old(clients)[id := Completed(old(clients)[id], pid)]
                && apps == if withApp then old(apps)[app := CompletedApp(old(apps)[app])] else old(apps)))
        && (ok ==>
              && hit && clients == old(clients)[id := Completed(old(clients)[id], pid)]
              && apps == if withApp then old(apps)[app := CompletedApp(old(apps)[app])] else old(apps))
        && (hit && script(old(writes)).Works? ==> ok)
        && (hit && script(old(writes)).FailsAfter? ==>
              && !ok && clients == old(clients)[id := Completed(old(clients)[id], pid)]
              && apps == if withApp then old(apps)[app := CompletedApp(old(apps)[app])] else old(apps))
        && writes == old(writes) + 1
        && (old(Calm()) ==> Calm() && (ok <==> hit))
    {
      var hit := id in clients && clients[id].stage.Provisioning? && !clients[id].deleted
                 && (withApp ==> app in apps && apps[app].stage.Provisioning? && !apps[app].deleted);
      var applied;
      applied, ok := Write(hit);
      if applied {
        clients := clients[id := Completed(clients[id], pid)];
        if withApp { apps := apps[app := CompletedApp(apps[app])]; }
      }
    }

    /** MarkInitialProvisioningFailed and MarkClientProvisioningFailed. */
    method MarkProvisioningFailed(app: string, withApp: bool, id: string)
      modifies this`apps, this`clients, this`writes
      ensures clients == old(clients) || (id in old(clients) && old(clients)[id].stage.Provisioning?
                && clients == old(clients)[id := old(clients)[id].(stage := ProvisioningFailed)])
      ensures apps == old(apps) || (withApp && app in old(apps) && old(apps)[app].stage.Provisioning?
                && apps == old(apps)[app := old(apps)[app].(stage := ProvisioningFailed)])
      ensures old(Calm()) ==>
        && Calm()
        && (id in old(clients) && old(clients)[id].stage.Provisioning? ==> clients[id].stage.ProvisioningFailed?)
        && (withApp && app in old(apps) && old(apps)[app].stage.Provisioning? ==> apps[app].stage.ProvisioningFailed?)
    {
      var applied, _ := Write(true);
      if applied {
        if id in clients && clients[id].stage.Provisioning? {
          clients := clients[id := clients[id].(stage := ProvisioningFailed)];
        }
        if withApp && app in apps && apps[app].stage.Provisioning? {
          apps := apps[app := apps[app].(stage := ProvisioningFailed)];
        }
      }
    }

    /** MarkClientDeleting and MarkClientDeletingRetry: any live row may be armed, from the
        stages the source names for each. */
    method MarkClientDeleting(id: string, again: bool) returns (ok: bool)
      modifies this`clients, this`writes
      ensures var hit := id in old(clients) && !old(clients)[id].deleted && (again <==> IsDeleting(old(clients)[id]));
        && (clients == old(clients) || (hit && clients == old(clients)[id := old(clients)[id].(stage := Deleting)]))
        && (ok ==> hit && clients == old(clients)[id := old(clients)[id].(stage := Deleting)])
        && (script(old(writes)).FailsBefore? ==> !ok && clients == old(clients))
        && (hit && script(old(writes)).Works? ==> ok)
        && (!ok && clients != old(clients) ==> script(old(writes)).FailsAfter?)
        && (hit && script(old(writes)).FailsAfter? ==>
            !ok && clients == old(clients)[id := old(clients)[id].(stage := Deleting)])
        && (old(Calm()) ==> Calm() && (ok <==> hit))
        && writes == old(writes) + 1
    {
      var hit := id in clients && !clients[id].deleted && (again <==> IsDeleting(clients[id]));
      var applied;
      applied, ok := Write(hit);
      if applied { clients := clients[id := clients[id].(stage := Deleting)]; }
    }

    method CompleteClientDeletion(id: string) returns (ok: bool)
      modifies this`clients, this`writes
      ensures var hit := id in old(clients) && old(clients)[id].stage.Deleting?;
        && (clients == old(clients) || (hit && clients == old(clients)[id := old(clients)[id].(deleted := true)]))
        && (ok ==> hit && clients == old(clients)[id := old(clients)[id].(deleted := true)])
        && (old(Calm()) ==> Calm() && (ok <==> hit))
    {
      var hit := id in clients && clients[id].stage.Deleting?;
      var applied;
      applied, ok := Write(hit);
      if applied { clients := clients[id := clients[id].(deleted := true)]; }
    }

    method MarkClientDeleteFailed(id: string)
      modifies this`clients, this`writes
      ensures clients == old(clients) || (id in old(clients) && old(clients)[id].stage.Deleting?
                && clients == old(clients)[id := old(clients)[id].(stage := DeleteFailed)])
      ensures old(Calm()) ==> Calm()
    {
      var applied, _ := Write(id in clients && clients[id].stage.Deleting?);
      if applied { clients := clients[id := clients[id].(stage := DeleteFailed)]; }
    }

    /** DeleteApplication misses while a live client remains. */
    method DeleteApplication(app: string, version: nat) returns (ok: bool)
      modifies this`apps, this`writes
      ensures var hit := app in old(apps) && old(apps)[app].Visible() && old(apps)[app].version == version
                         && NoLiveClients(old(clients), app);
        && (apps == old(apps) || (hit && apps == old(apps)[app := old(apps)[app].(deleted := true)]))
        && (ok ==> hit && apps == old(apps)[app := old(apps)[app].(deleted := true)])
        && (old(Calm()) ==> Calm() && (ok <==> hit))
    {
      var hit := app in apps && apps[app].Visible() && apps[app].version == version
                 && NoLiveClients(clients, app);
      var applied;
      applied, ok := Write(hit);
      if applied { apps := apps[app := apps[app].(deleted := true)]; }
    }
  }

  /** The job that asks for a client to be brought to a status. */
  function DriftJob(app: string, c: Client, desired: Status): Job { Job(app, c.id, c.remote, Some(desired)) }

  ghost predicate JobsOf(app: string, rows: seq<Client>, desired: Status, jobs: seq<Job>) {
    forall i :: 0 <= i < |jobs| ==> exists k :: 0 <= k < |rows| && jobs[i] == DriftJob(app, rows[k], desired)
  }

  lemma NewJobNames(jobs: seq<Job>, more: seq<Job>, job: Job, pid: nat)
    requires job in more
    ensures Named(jobs + more, pid, job.client)
  {
    var i :| 0 <= i < |more| && more[i] == job;
    assert (jobs + more)[|jobs| + i] == job;
  }

  /** What is left to do after an interrupted fan-out: every switched client is either
      switched back off or has its job among the new ones, and there are no others. */
  ghost predicate Recovered(s: State, app: string, switched: seq<Client>, enable: bool, desired: Status,
      remotes: map<nat, Remote>, more: seq<Job>)
  {
    && remotes.Keys == s.remotes.Keys && JobsOf(app, switched, desired, more)
    && (forall pid :: pid in s.remotes && pid !in Pids(switched) ==> remotes[pid] == s.remotes[pid])
    && (forall k :: 0 <= k < |switched| && switched[k].remote.Some? && switched[k].remote.value in s.remotes ==>
          var pid := switched[k].remote.value;
          || (enable && remotes[pid] == s.remotes[pid].(enabled := false))
          || (remotes[pid] == s.remotes[pid].(enabled := enable) && DriftJob(app, switched[k], desired) in more))
  }

  lemma RecoveredKeeps(s: State, app: string, switched: seq<Client>, enable: bool, desired: Status,
      remotes: map<nat, Remote>, more: seq<Job>)
    requires Consistent(s) && SwitchAllowed(s, app, enable)
    requires Recovered(s, app, switched, enable, desired, remotes, more)
    requires forall k :: 0 <= k < |switched| ==>
      switched[k].id in s.clients && s.clients[switched[k].id] == switched[k] && IsTarget(switched[k], app, enable)
    ensures Consistent(s.(remotes := remotes, jobs := s.jobs + more))
  {
    var jobs := s.jobs + more;
    forall pid | pid in s.remotes && remotes[pid] != s.remotes[pid]
      ensures var local := s.remotes[pid].local;
        && local in s.clients && s.clients[local].app == app
        && remotes[pid].local == local
        && (remotes[pid].enabled ==> s.clients[local].status.Active?)
        && (Named(jobs, pid, local) || (!remotes[pid].enabled && s.apps[app].status.Disabled?))
    {
      assert pid in Pids(switched);
      var k :| 0 <= k < |switched| && switched[k].remote == Some(pid);
      assert s.remotes[pid].local == switched[k].id;
      if DriftJob(app, switched[k], desired) in more {
        NewJobNames(s.jobs, more, DriftJob(app, switched[k], desired), pid);
      }
    }
    InterruptedKeeps(s, remotes, jobs);
  }

  // ---- The service ----

  /** Clients already switched: targets, all known to the provider. */
  ghost predicate FannedOut(s: State, app: string, enable: bool, switched: seq<Client>) {
    && SomeRemotes(switched)
    && (forall k :: 0 <= k < |switched| ==>
          && switched[k].id in s.clients && s.clients[switched[k].id] == switched[k]
          && IsTarget(switched[k], app, enable) && switched[k].remote.value in s.remotes)
  }

  /** Every new job asks for a target of the switch to be brought to the given status. */
  ghost predicate JobsForTargets(s: State, t: State, app: string, enable: bool, desired: Status) {
    && s.jobs <= t.jobs
    && forall i :: |s.jobs| <= i < |t.jobs| ==>
         && t.jobs[i].client in s.clients && IsTarget(s.clients[t.jobs[i].client], app, enable)
         && t.jobs[i] == DriftJob(app, s.clients[t.jobs[i].client], desired)
  }

  /** A fan-out that stopped short: the application stays as it was. Of its targets a failed
      enabling leaves some disabled, and enabled only those a new job wants disabled; a failed
      disabling leaves some disabled, each with a new job that wants just that. */
  ghost predicate StoppedShort(s: State, t: State, app: string, enable: bool) {
    && t.(remotes := s.remotes, jobs := s.jobs) == s && JobsForTargets(s, t, app, enable, Disabled)
    && t.remotes.Keys == s.remotes.Keys
    && forall pid :: pid in s.remotes && t.remotes[pid] != s.remotes[pid] ==>
         var local := s.remotes[pid].local;
         && t.remotes[pid].local == local && local in s.clients
         && IsTarget(s.clients[local], app, enable) && s.clients[local].remote == Some(pid)
         && (t.remotes[pid].enabled ==> enable)
         && (!enable || t.remotes[pid].enabled ==> Job(app, local, Some(pid), Some(Disabled)) in t.jobs[|s.jobs|..])
  }

  /** A switch the provider took completely and the local commit did not confirm: every
      target has a new job for the new status. */
  ghost predicate Unconfirmed(s: State, t: State, app: string, enable: bool)
    requires app in s.apps
  {
    && (t.apps == s.apps || t.apps == WithStatus(s, app, enable))
    && t.(apps := s.apps, jobs := s.jobs) == SwitchedApp(s, app, enable).(apps := s.apps)
    && JobsForTargets(s, t, app, enable, Target(enable))
    && forall id :: id in s.clients && IsTarget(s.clients[id], app, enable) ==>
         Job(app, id, s.clients[id].remote, Some(Target(enable))) in t.jobs[|s.jobs|..]
  }

  /** Everything a caller of SetStatus can rely on, faults or not; committed says whether the
      local commit was attempted. */
  ghost predicate SwitchOutcome(s: State, t: State, app: string, enable: bool, committed: bool, ok: bool) {
    if !SwitchAllowed(s, app, enable) then !ok && !committed && t == s
    else if !committed then !ok && StoppedShort(s, t, app, enable)
    else Targets(s, app, enable) <= s.remotes.Keys
         && if ok then t == SwitchedApp(s, app, enable) else Unconfirmed(s, t, app, enable)
  }

  ghost predicate ClientSwitchAllowed(s: State, app: string, id: string, enable: bool) {
    && app in s.apps && s.apps[app].Visible() && (enable ==> s.apps[app].status.Active?)
    && id in s.clients && s.clients[id].app == app && s.clients[id].Visible() && CanSwitch(s.clients[id].status, enable)
  }

  /** A client row waiting for its provider resource, with its application. */
  ghost predicate Pending(s: State, app: string, withApp: bool, id: string) {
    && app in s.apps && s.apps[app].status.Active? && !s.apps[app].deleted
    && (if withApp then s.apps[app].stage.Provisioning? && NoVisibleClients(s, app) else s.apps[app].stage.Provisioned?)
    && id in s.clients && s.clients[id].app == app && s.clients[id].status.Active?
    && s.clients[id].stage.Provisioning? && !s.clients[id].deleted && s.clients[id].remote.None?
  }

  ghost predicate NoVisibleClients(s: State, app: string) {
    forall id :: id in s.clients && s.clients[id].app == app ==> !s.clients[id].Visible()
  }

  ghost predicate NewRemote(s: State, pid: nat) {
    pid !in s.remotes && forall id :: id in s.clients ==> s.clients[id].remote != Some(pid)
  }

  ghost function AfterProvision(s: State, app: string, withApp: bool, id: string, pid: nat): State
    requires app in s.apps && id in s.clients
  {
    s.(apps := if withApp then s.apps[app := CompletedApp(s.apps[app])] else s.apps,
       clients := s.clients[id := Completed(s.clients[id], pid)],
       remotes := s.remotes[pid := Remote(id, true)])
  }

  /** A visible client whose provider resource a compensation removed. */
  ghost predicate Orphaned(s: State, app: string, id: string) {
    && app in s.apps && s.apps[app].Visible() && s.apps[app].status.Active?
    && id in s.clients && s.clients[id].Visible() && s.clients[id].app == app
    && s.clients[id].remote.Some? && s.clients[id].remote.value !in s.remotes
  }

  /** A client that was just created. */
  ghost predicate Created(s: State, app: string, id: string) {
    && app in s.apps && s.apps[app].Visible() && s.apps[app].status.Active?
    && id in s.clients && s.clients[id].Visible() && s.clients[id].app == app
    && s.clients[id].remote.Some? && s.clients[id].remote.value in s.remotes
    && s.remotes[s.clients[id].remote.value] == Remote(id, true)
  }

  /** A creation adds at most its own rows, one provider client and jobs; a success is a
      visible, enabled client. */
  ghost predicate CreateOutcome(s: State, t: State, app: string, withApp: bool, id: string, ok: bool) {
    && t.torn == s.torn && s.jobs <= t.jobs
    && t.apps.Keys == s.apps.Keys && t.clients.Keys == s.clients.Keys
    && (forall a :: a in s.apps && (a != app || !withApp) ==> t.apps[a] == s.apps[a])
    && (forall c :: c in s.clients && c != id ==> t.clients[c] == s.clients[c])
    && (forall pid :: pid in s.remotes ==> pid in t.remotes && t.remotes[pid] == s.remotes[pid])
    && (forall pid :: pid in t.remotes && pid !in s.remotes ==> t.remotes[pid] == Remote(id, true))
    && (ok ==> t.jobs == s.jobs && Created(t, app, id))
  }

  /** What becomes of the provisioning call: a refusal leaves no trace at the provider and no
      job, an outcome nobody knows leaves the job that names the client; both mark the rows as
      failed, if the store does as it is told. After a success only a provider client that
      could not be removed again leaves a job. */
  ghost predicate ProvisionTold(s: State, t: State, app: string, withApp: bool, id: string, pid: nat,
      fault: ProviderFault, calm: bool, ok: bool)
  {
    match fault
    case Accepted =>
      ok || (t.jobs == s.jobs && t.remotes == s.remotes) || t.jobs == s.jobs + [Job(app, id, Some(pid), None)]
    case Refused => !ok && t.jobs == s.jobs && t.remotes == s.remotes && (calm ==> MarkedFailed(t, app, withApp, id))
    case _ => !ok && t.jobs == s.jobs + [Job(app, id, None, None)] && (calm ==> MarkedFailed(t, app, withApp, id))
  }

  ghost predicate MarkedFailed(t: State, app: string, withApp: bool, id: string) {
    && id in t.clients && t.clients[id].stage.ProvisioningFailed?
    && (withApp ==> app in t.apps && t.apps[app].stage.ProvisioningFailed?)
  }

  lemma ProvisionedRowKeeps(s: State, app: string, withApp: bool, id: string, pid: nat)
    requires Consistent(s) && Pending(s, app, withApp, id) && NewRemote(s, pid)
    ensures Consistent(AfterProvision(s, app, withApp, id, pid))
  {
    var row := Completed(s.clients[id], pid);
    var parent := if withApp then CompletedApp(s.apps[app]) else s.apps[app];
    ProvisionedKeeps(s, row, parent, pid);
    assert s.apps[app := s.apps[app]] == s.apps;
  }

  /** An application that does not exist has no visible clients. */
  lemma NoStrayClients(s: State, app: string, id: string)
    requires Linked(s) && app !in s.apps
    ensures forall c :: c in s.clients && s.clients[c].app == app ==> !s.clients[c].Visible()
  {
  }

  lemma ProvisionedOutcome(s: State, app: string, withApp: bool, id: string, pid: nat)
    requires Pending(s, app, withApp, id) && NewRemote(s, pid)
    ensures CreateOutcome(s, AfterProvision(s, app, withApp, id, pid), app, withApp, id, true)
  {
  }

  lemma CompensatedOutcome(s: State, t: State, app: string, withApp: bool, id: string, pid: nat)
    requires Pending(s, app, withApp, id) && NewRemote(s, pid)
    requires var full := AfterProvision(s, app, withApp, id, pid);
      && t.torn == s.torn && s.jobs <= t.jobs
      && ((t.apps == s.apps && t.clients == s.clients) || (t.apps == full.apps && t.clients == full.clients))
      && (t.remotes == s.remotes || t.remotes == full.remotes - {pid} || t.remotes == full.remotes)
    ensures CreateOutcome(s, t, app, withApp, id, false)
  {
  }

  /** What a failed provisioning leaves: the rows as they were or marked failed, and either
      nothing at the provider or a client that a new job names. */
  lemma ProvisionFailedKeeps(s: State, t: State, app: string, withApp: bool, id: string, pid: nat)
    requires Consistent(s) && Pending(s, app, withApp, id) && t.torn == s.torn && s.jobs <= t.jobs
    requires t.clients == s.clients || t.clients == s.clients[id := s.clients[id].(stage := ProvisioningFailed)]
    requires t.apps == s.apps || (withApp && t.apps == s.apps[app := s.apps[app].(stage := ProvisioningFailed)])
    requires t.remotes == s.remotes
      || (NewRemote(s, pid) && t.remotes == s.remotes[pid := Remote(id, true)] && Named(t.jobs, pid, id))
    ensures Consistent(t)
  {
    var s1 := s.(jobs := t.jobs);
    MoreJobsKeep(s, t.jobs);
    var s2 := s1.(remotes := t.remotes);
    if t.remotes != s.remotes { NamedRemoteKeeps(s1, pid, id, true); }
    assert Consistent(s2);
    var s3 := s2.(clients := t.clients);
    if t.clients != s.clients {
      HiddenRowKeeps(s2, t.clients[id], s2.torn);
    }
    assert Consistent(s3);
    assert t == s3.(apps := t.apps);
    if t.apps != s.apps { EmptyAppKeeps(s3, app, t.apps[app]); }
  }

  /** What a compensation leaves: no provider client, or one that a new job names. */
  lemma CompensatedKeeps(s: State, t: State, app: string, withApp: bool, id: string, pid: nat)
    requires Consistent(s) && Pending(s, app, withApp, id) && NewRemote(s, pid)
    requires Consistent(AfterProvision(s, app, withApp, id, pid))
    requires var full := AfterProvision(s, app, withApp, id, pid);
      && t.torn == s.torn && s.jobs <= t.jobs
      && ((t.apps == s.apps && t.clients == s.clients) || (t.apps == full.apps && t.clients == full.clients))
      && (t.remotes == s.remotes || t.remotes == full.remotes - {pid}
          || (t.remotes == full.remotes && Named(t.jobs, pid, id)))
    ensures Consistent(t)
  {
    var full := AfterProvision(s, app, withApp, id, pid);
    assert full.remotes - {pid} == s.remotes;
    if t.clients == s.clients {
      MoreJobsKeep(s, t.jobs);
      if t.remotes != s.remotes { NamedRemoteKeeps(s.(jobs := t.jobs), pid, id, true); }
      assert t == s.(jobs := t.jobs).(remotes := t.remotes);
    } else {
      MoreJobsKeep(full, t.jobs);
      if t.remotes != full.remotes { RemovedKeeps(full.(jobs := t.jobs), pid); }
      assert t == full.(jobs := t.jobs).(remotes := t.remotes);
    }
  }

  /** What the deletion of an armed row comes to: a failure always leaves its own job. */
  ghost predicate DeleteOutcome(s: State, t: State, app: string, c: Client, ok: bool) {
    && t.torn == s.torn && t.apps == s.apps
    && t.jobs == (if ok then s.jobs else s.jobs + [Job(app, c.id, c.remote, None)])
    && t.clients.Keys == s.clients.Keys + {c.id} && (t.clients[c.id].deleted || IsDeleting(t.clients[c.id]))
    && (forall id :: id in s.clients && id != c.id ==> t.clients[id] == s.clients[id])
    && t.clients[c.id].(stage := c.stage, deleted := false) == c
    && (forall pid :: pid in t.remotes ==> pid in s.remotes && t.remotes[pid] == s.remotes[pid])
    && (ok ==> t.clients[c.id].deleted && (c.remote.Some? ==> c.remote.value !in t.remotes))
  }

  lemma DeletedKeeps(s: State, t: State, c: Client, row: Client)
    requires Consistent(s) && c.id in s.clients && s.clients[c.id] == c
    requires row.id == c.id && !row.Visible() && row.remote == c.remote
    requires t.apps == s.apps && t.torn == s.torn && t.clients == s.clients[c.id := row] && s.jobs <= t.jobs
    requires t.remotes == s.remotes || (c.remote.Some? && t.remotes == s.remotes - {c.remote.value})
    requires c.remote.Some? && c.remote.value in t.remotes ==> Named(t.jobs, c.remote.value, c.id)
    ensures Consistent(t)
  {
    var s1 := s.(jobs := t.jobs);
    MoreJobsKeep(s, t.jobs);
    var s2 := s1.(remotes := t.remotes);
    if t.remotes != s.remotes { RemovedKeeps(s1, c.remote.value); }
    assert Consistent(s2);
    forall pid | pid in s2.remotes && s2.remotes[pid].local == c.id
      ensures Named(s2.jobs, pid, c.id) || c.id in s2.torn
    {
      assert Agrees(s2, pid) ==> c.remote == Some(pid);
    }
    HiddenRowKeeps(s2, row, s2.torn);
    assert t == s2.(clients := t.clients, torn := s2.torn);
  }

  /** The jobs of a fan-out are for its targets. */
  lemma JobsAreForTargets(s: State, t: State, app: string, switched: seq<Client>, enable: bool, desired: Status,
      more: seq<Job>)
    requires FannedOut(s, app, enable, switched) && JobsOf(app, switched, desired, more) && t.jobs == s.jobs + more
    ensures JobsForTargets(s, t, app, enable, desired)
  {
    forall i | |s.jobs| <= i < |t.jobs|
      ensures t.jobs[i].client in s.clients && IsTarget(s.clients[t.jobs[i].client], app, enable)
        && t.jobs[i] == DriftJob(app, s.clients[t.jobs[i].client], desired)
    {
      assert t.jobs[i] == more[i - |s.jobs|];
      var k :| 0 <= k < |switched| && t.jobs[i] == DriftJob(app, switched[k], desired);
    }
  }

  lemma EveryTargetHasJob(s: State, app: string, switched: seq<Client>, enable: bool, more: seq<Job>)
    requires Linked(s) && FannedOut(s, app, enable, switched) && Pids(switched) == Targets(s, app, enable)
    requires forall k :: 0 <= k < |switched| ==> DriftJob(app, switched[k], Target(enable)) in more
    ensures forall id :: id in s.clients && IsTarget(s.clients[id], app, enable) ==>
      Job(app, id, s.clients[id].remote, Some(Target(enable))) in more
  {
    forall id | id in s.clients && IsTarget(s.clients[id], app, enable)
      ensures Job(app, id, s.clients[id].remote, Some(Target(enable))) in more
    {
      assert s.clients[id].remote.value in Pids(switched);
      var k :| 0 <= k < |switched| && switched[k].remote == s.clients[id].remote;
      assert s.remotes[switched[k].remote.value].local == id;
      assert DriftJob(app, switched[k], Target(enable)) in more;
    }
  }

  lemma RecoveredShort(s: State, app: string, switched: seq<Client>, enable: bool, remotes: map<nat, Remote>,
      more: seq<Job>)
    requires Linked(s) && FannedOut(s, app, enable, switched)
    requires Recovered(s, app, switched, enable, Disabled, remotes, more)
    ensures StoppedShort(s, s.(remotes := remotes, jobs := s.jobs + more), app, enable)
  {
    var t := s.(remotes := remotes, jobs := s.jobs + more);
    assert t.jobs[|s.jobs|..] == more;
    JobsAreForTargets(s, t, app, switched, enable, Disabled, more);
    forall pid | pid in s.remotes && t.remotes[pid] != s.remotes[pid]
      ensures var local := s.remotes[pid].local;
        && t.remotes[pid].local == local && local in s.clients
        && IsTarget(s.clients[local], app, enable) && s.clients[local].remote == Some(pid)
        && (t.remotes[pid].enabled ==> enable)
        && (!enable || t.remotes[pid].enabled ==> Job(app, local, Some(pid), Some(Disabled)) in more)
    {
      assert pid in Pids(switched);
      var k :| 0 <= k < |switched| && switched[k].remote == Some(pid);
      assert s.remotes[pid].local == switched[k].id;
    }
  }

  lemma SwitchOneMore(s: State, app: string, enable: bool, switched: seq<Client>, c: Client)
    requires Linked(s) && FannedOut(s, app, enable, switched)
    requires c.id in s.clients && s.clients[c.id] == c && IsTarget(c, app, enable) && c.remote.value in s.remotes
    requires c !in switched
    ensures FannedOut(s, app, enable, switched + [c])
    ensures Switched(Switched(s.remotes, Pids(switched), enable), {c.remote.value}, enable)
            == Switched(s.remotes, Pids(switched + [c]), enable)
  {
    var more := switched + [c];
    assert Pids(more) == Pids(switched) + {c.remote.value} by {
      assert forall k :: 0 <= k < |switched| ==> more[k] == switched[k];
      assert more[|switched|] == c;
    }
    forall k | 0 <= k < |switched| ensures switched[k].remote != c.remote {
      assert switched[k] in switched && s.remotes[switched[k].remote.value].local == switched[k].id;
      assert s.remotes[c.remote.value].local == c.id;
    }
  }

  lemma AllTargets(s: State, app: string, enable: bool, list: seq<Client>, switched: seq<Client>)
    requires FannedOut(s, app, enable, switched)
    requires forall id :: id in s.clients && IsListed(s.clients[id], app, true) ==> s.clients[id] in list
    requires forall j :: 0 <= j < |list| && IsTarget(list[j], app, enable) ==> list[j] in switched
    ensures Pids(switched) == Targets(s, app, enable)
  {
    forall pid | pid in Targets(s, app, enable) ensures pid in Pids(switched) {
      var id :| id in s.clients && IsTarget(s.clients[id], app, enable) && s.clients[id].remote.value == pid;
      assert s.clients[id] in switched;
    }
  }

  /** Clients the provider knows, each by its own identifier. */
  ghost predicate SomeRemotes(rows: seq<Client>) {
    && (forall k :: 0 <= k < |rows| ==> rows[k].remote.Some?)
    && (forall j, k :: 0 <= j < k < |rows| ==> rows[j].remote != rows[k].remote)
  }

  /** The provider counts its clients, and is only asked for clients that have a row. */
  ghost predicate Counted(clients: map<string, Client>, pids: set<nat>, counter: nat, keys: set<string>) {
    && (forall pid :: pid in pids ==> pid <= counter)
    && (forall id :: id in clients && clients[id].remote.Some? ==> clients[id].remote.value <= counter)
    && (forall key :: key in keys ==> key in clients)
  }

  /** The same rows, of which one may have got its provider client; rows on their way out are
      as they were. */
  ghost predicate RowsKept(before: map<string, Client>, after: map<string, Client>, pid: nat) {
    && after.Keys == before.Keys
    && (forall c :: c in after ==> after[c].remote == before[c].remote || after[c].remote == Some(pid))
    && (forall c :: c in before && (before[c].deleted || IsDeleting(before[c])) ==> after[c] == before[c])
  }

  /** One new provider client, for one row, keeps the count and hides nothing. */
  lemma CountedMore(before: map<string, Client>, after: map<string, Client>, pids: set<nat>, more: set<nat>,
      counter: nat, next: nat, keys: set<string>, moreKeys: set<string>, id: string, torn: set<string>)
    requires Counted(before, pids, counter, keys) && TornHidden(before, torn) && counter <= next && id in before
    requires RowsKept(before, after, next) && more <= pids + {next} && moreKeys <= keys + {id}
    ensures Counted(after, more, next, moreKeys) && TornHidden(after, torn)
  {
  }

  class Service {
    const store: ApplicationStore
    const provisioner: FakeProvisioner

    /** Clients whose mark for deletion was committed behind the caller's back. */
    ghost var torn: set<string>

    constructor (applications: ApplicationStore, provider: FakeProvisioner)
      requires applications.apps == map[] && applications.clients == map[] && applications.jobs == []
      requires provider.clients == map[] && provider.byKey == map[]
      ensures store == applications && provisioner == provider && torn == {} && Valid()
    {
      store, provisioner, torn := applications, provider, {};
    }

    ghost function Now(): State
      reads this, store, provisioner
    {
      State(store.apps, store.clients, store.jobs, provisioner.clients, torn)
    }

    ghost predicate Valid()
      reads this, store, provisioner
    {
      && Consistent(Now())
      && Counted(store.clients, provisioner.clients.Keys, provisioner.counter, provisioner.byKey.Keys)
      && TornHidden(store.clients, torn)
    }

    ghost predicate Calm()
      reads store, provisioner
    {
      store.Calm() && provisioner.Calm()
    }

    /** recordProviderDrift. */
    method RecordProviderDrift(app: string, c: Client, desired: Status)
      modifies store`jobs
      ensures store.jobs == old(store.jobs) + [DriftJob(app, c, desired)]
    {
      store.CreateReconciliationJob(Job(app, c.id, c.remote, Some(desired)));
    }

    /** One job for every switched client. */
    method RecordDrifts(app: string, switched: seq<Client>, desired: Status) returns (ghost more: seq<Job>)
      modifies store`jobs
      ensures store.jobs == old(store.jobs) + more && JobsOf(app, switched, desired, more)
      ensures forall k :: 0 <= k < |switched| ==> DriftJob(app, switched[k], desired) in more
    {
      more := [];
      for k := 0 to |switched|
        invariant store.jobs == old(store.jobs) + more && JobsOf(app, switched, desired, more)
        invariant forall j :: 0 <= j < k ==> DriftJob(app, switched[j], desired) in more
      {
        RecordProviderDrift(app, switched[k], desired);
        more := more + [DriftJob(app, switched[k], desired)];
      }
    }

    /** recoverPartialStatusSwitch. A partial enable is switched off again, with a job for
        every client that could not be; a partial disable stays, with a job for each. */
    method RecoverPartialStatusSwitch(app: string, switched: seq<Client>, enable: bool, ghost s: State)
      returns (ghost more: seq<Job>)
      requires provisioner.clients == Switched(s.remotes, Pids(switched), enable) && store.jobs == s.jobs
      requires SomeRemotes(switched)
      modifies store`jobs, provisioner`clients, provisioner`calls
      ensures Recovered(s, app, switched, enable, Disabled, provisioner.clients, more) && store.jobs == s.jobs + more
      ensures old(provisioner.Calm()) ==>
        provisioner.Calm() && (enable && Pids(switched) <= s.remotes.Keys ==> more == [])
    {
      if !enable {
        more := RecordDrifts(app, switched, Disabled);
      } else {
        more := RollBack(app, switched, s);
      }
    }

    /** The rollback loop of a partial enable. */
    method RollBack(app: string, switched: seq<Client>, ghost s: State) returns (ghost more: seq<Job>)
      requires provisioner.clients == Switched(s.remotes, Pids(switched), true) && store.jobs == s.jobs
      requires SomeRemotes(switched)
      modifies store`jobs, provisioner`clients, provisioner`calls
      ensures Recovered(s, app, switched, true, Disabled, provisioner.clients, more) && store.jobs == s.jobs + more
      ensures old(provisioner.Calm()) ==>
        provisioner.Calm() && (Pids(switched) <= s.remotes.Keys ==> more == [])
    {
      more := [];
      for k := 0 to |switched|
        invariant store.jobs == s.jobs + more && JobsOf(app, switched, Disabled, more)
        invariant old(provisioner.Calm()) ==>
          provisioner.Calm() && (Pids(switched) <= s.remotes.Keys ==> more == [])
        invariant provisioner.clients.Keys == s.remotes.Keys
        invariant forall pid :: pid in s.remotes && pid !in Pids(switched) ==>
            provisioner.clients[pid] == s.remotes[pid]
        invariant forall j :: 0 <= j < |switched| && switched[j].remote.value in s.remotes ==>
          var pid := switched[j].remote.value;
          if j < k then
            || provisioner.clients[pid] == s.remotes[pid].(enabled := false)
            || (provisioner.clients[pid] == s.remotes[pid].(enabled := true)
                && DriftJob(app, switched[j], Disabled) in more)
          else provisioner.clients[pid] == s.remotes[pid].(enabled := true)
      {
        assert switched[k].remote.value in Pids(switched);
        var done := provisioner.SwitchClient(switched[k].remote.value, false);
        if !done {
          RecordProviderDrift(app, switched[k], Disabled);
          more := more + [DriftJob(app, switched[k], Disabled)];
        }
      }
    }

    /** The fan-out loop of SetStatus; it stops at the first client that cannot be switched. */
    method FanOut(app: string, list: seq<Client>, enable: bool, ghost s: State)
      returns (switched: seq<Client>, failed: bool)
      requires s.remotes == provisioner.clients && Linked(s)
      requires forall i :: 0 <= i < |list| ==>
        list[i].id in s.clients && s.clients[list[i].id] == list[i] && IsListed(list[i], app, true)
      requires forall id :: id in s.clients && IsListed(s.clients[id], app, true) ==> s.clients[id] in list
      requires forall i, j :: 0 <= i < j < |list| ==> list[i].id != list[j].id
      modifies provisioner`clients, provisioner`calls
      ensures provisioner.clients == Switched(s.remotes, Pids(switched), enable)
      ensures FannedOut(s, app, enable, switched)
      ensures !failed ==> Pids(switched) == Targets(s, app, enable)
      ensures !failed ==> Targets(s, app, enable) <= s.remotes.Keys
      ensures old(provisioner.Calm()) ==>
        provisioner.Calm() && (Targets(s, app, enable) <= s.remotes.Keys ==> !failed)
    {
      switched := [];
      for i := 0 to |list|
        invariant provisioner.clients == Switched(s.remotes, Pids(switched), enable)
        invariant FannedOut(s, app, enable, switched)
        invariant forall k :: 0 <= k < |switched| ==> switched[k] in list[..i]
        invariant forall j :: 0 <= j < i && IsTarget(list[j], app, enable) ==> list[j] in switched
        invariant old(provisioner.Calm()) ==> provisioner.Calm()
      {
        var c := list[i];
        if c.remote.Some? && (enable ==> c.status.Active?) {
          assert c.remote.value in Targets(s, app, enable);
          var done := provisioner.SwitchClient(c.remote.value, enable);
          if !done { return switched, true; }
          SwitchOneMore(s, app, enable, switched, c);
          switched := switched + [c];
        }
      }
      failed := false;
      AllTargets(s, app, enable, list, switched);
    }

    /** SetStatus. A success is the complete switch. A failure of the fan-out leaves the local
        status as it was and undoes a partial enabling, without any job if the provider does
        as it is told; a failure of the commit leaves one job for each target. Without faults
        it succeeds exactly when the transition is allowed and the provider knows every
        target. */
    method SetStatus(app: string, enable: bool) returns (ok: bool)
      requires Valid()
      modifies store`apps, store`jobs, store`writes, provisioner`clients, provisioner`calls
      ensures Valid()
      ensures SwitchOutcome(old(Now()), Now(), app, enable, store.writes != old(store.writes), ok)
      ensures old(provisioner.Calm()) && enable && store.writes == old(store.writes) ==> Now().jobs == old(Now()).jobs
      ensures old(Calm()) ==> Calm()
      ensures old(Calm()) ==>
        (ok <==> SwitchAllowed(old(Now()), app, enable) && Targets(old(Now()), app, enable) <= old(Now()).remotes.Keys)
    {
      ghost var s := Now();
      var row := store.GetApplication(app);
      if row.None? || !CanSwitch(row.value.status, enable) { return false; }
      ok := SwitchEverywhere(app, row.value, enable, s);
    }

    /** An allowed switch: the provider first, then the local commit. */
    method SwitchEverywhere(app: string, row: Application, enable: bool, ghost s: State) returns (ok: bool)
      requires Now() == s && Consistent(s) && SwitchAllowed(s, app, enable) && s.apps[app] == row
      modifies store`apps, store`jobs, store`writes, provisioner`clients, provisioner`calls
      ensures Consistent(Now()) && SwitchOutcome(s, Now(), app, enable, store.writes != old(store.writes), ok)
      ensures old(provisioner.Calm()) && enable && store.writes == old(store.writes) ==> store.jobs == s.jobs
      ensures old(Calm()) ==> Calm() && (ok <==> Targets(s, app, enable) <= s.remotes.Keys)
    {
      var list := store.ListClients(app, true);
      var switched, failed := FanOut(app, list, enable, s);
      if failed {
        GiveUp(app, switched, enable, s);
        ok := false;
      } else {
        ok := CommitSwitch(app, row, switched, enable, s);
      }
    }

    /** The failed fan-out. */
    method GiveUp(app: string, switched: seq<Client>, enable: bool, ghost s: State)
      requires Consistent(s) && SwitchAllowed(s, app, enable) && FannedOut(s, app, enable, switched)
      requires Now() == s.(remotes := Switched(s.remotes, Pids(switched), enable))
      modifies store`jobs, provisioner`clients, provisioner`calls
      ensures Consistent(Now()) && StoppedShort(s, Now(), app, enable)
      ensures old(provisioner.Calm()) ==> provisioner.Calm() && (enable ==> store.jobs == s.jobs)
    {
      ghost var more := RecoverPartialStatusSwitch(app, switched, enable, s);
      RecoveredKeeps(s, app, switched, enable, Disabled, provisioner.clients, more);
      assert Now() == s.(remotes := provisioner.clients, jobs := s.jobs + more);
      RecoveredShort(s, app, switched, enable, provisioner.clients, more);
    }

    /** The local commit after a complete fan-out. */
    method CommitSwitch(app: string, row: Application, switched: seq<Client>, enable: bool, ghost s: State)
      returns (ok: bool)
      requires Consistent(s) && SwitchAllowed(s, app, enable) && s.apps[app] == row
        && FannedOut(s, app, enable, switched)
      requires Now() == s.(remotes := Switched(s.remotes, Targets(s, app, enable), enable))
      requires Pids(switched) == Targets(s, app, enable) <= s.remotes.Keys
      modifies store`apps, store`jobs, store`writes
      ensures Consistent(Now()) && SwitchOutcome(s, Now(), app, enable, true, ok)
      ensures store.writes == old(store.writes) + 1
      ensures old(store.Calm()) ==> store.Calm() && ok
    {
      SwitchKeeps(s, app, enable);
      ok := store.SetApplicationStatus(app, Target(enable), row.version);
      if !ok { CommitFailed(app, switched, enable, s); }
      assert ok ==> Now() == SwitchedApp(s, app, enable);
    }

    /** The jobs of a switch that the provider took but the local commit did not confirm. */
    method CommitFailed(app: string, switched: seq<Client>, enable: bool, ghost s: State)
      requires Consistent(s) && SwitchAllowed(s, app, enable) && FannedOut(s, app, enable, switched)
      requires Now() == s.(apps := store.apps, remotes := Switched(s.remotes, Targets(s, app, enable), enable))
      requires store.apps == s.apps || store.apps == WithStatus(s, app, enable)
      requires Pids(switched) == Targets(s, app, enable)
      modifies store`jobs
      ensures Consistent(Now()) && Unconfirmed(s, Now(), app, enable)
    {
      ghost var more := RecordDrifts(app, switched, Target(enable));
      JobsAreForTargets(s, Now(), app, switched, enable, Target(enable), more);
      EveryTargetHasJob(s, app, switched, enable, more);
      assert store.jobs[|s.jobs|..] == more;
      if store.apps == s.apps {
        RecoveredKeeps(s, app, switched, enable, Target(enable), provisioner.clients, more);
        assert Now() == s.(remotes := provisioner.clients, jobs := s.jobs + more);
      } else {
        SwitchKeeps(s, app, enable);
        MoreJobsKeep(SwitchedApp(s, app, enable), store.jobs);
        assert Now() == SwitchedApp(s, app, enable).(jobs := store.jobs);
      }
    }

    /** SetClientStatus. */
    method SetClientStatus(app: string, id: string, enable: bool) returns (ok: bool)
      requires Valid()
      modifies store`clients, store`jobs, store`writes, provisioner`clients, provisioner`calls
      ensures Valid()
      ensures var s := old(Now());
        && Now().torn == s.torn && Now().apps == s.apps && s.jobs <= Now().jobs
        && (ok ==> ClientSwitchAllowed(s, app, id, enable) && Now() == ClientSwitched(s, id, enable))
        && (!ok ==> Now().clients == s.clients
                    || (ClientSwitchAllowed(s, app, id, enable)
                        && Now().clients == ClientSwitched(s, id, enable).clients))
        && (Now().remotes == s.remotes
            || (ClientSwitchAllowed(s, app, id, enable) && Now().remotes == ClientSwitched(s, id, enable).remotes))
      ensures store.writes == old(store.writes) ==> !ok && Now() == old(Now())
      ensures store.writes != old(store.writes) ==>
        var s := old(Now());
        && ClientSwitchAllowed(s, app, id, enable) && Now().remotes == ClientSwitched(s, id, enable).remotes
        && Now().jobs == if ok || s.clients[id].remote.None? then s.jobs
                         else s.jobs + [Job(app, id, s.clients[id].remote, Some(Target(enable)))]
    {
      ghost var s := Now();
      var parent := store.GetApplication(app);
      if parent.None? { return false; }
      var row := store.GetClient(app, id);
      if row.None? { return false; }
      if enable && !parent.value.status.Active? { return false; }
      if !CanSwitch(row.value.status, enable) { return false; }
      if row.value.remote.Some? {
        var done := provisioner.SwitchClient(row.value.remote.value, enable);
        if !done { return false; }
      }
      ok := CommitClientSwitch(app, row.value, enable, s);
    }

    method CommitClientSwitch(app: string, row: Client, enable: bool, ghost s: State) returns (ok: bool)
      requires Consistent(s) && ClientSwitchAllowed(s, app, row.id, enable) && s.clients[row.id] == row
      requires Now() == s.(remotes := ClientSwitched(s, row.id, enable).remotes)
      modifies store`clients, store`jobs, store`writes
      ensures Consistent(Now()) && s.jobs <= store.jobs
      ensures store.writes == old(store.writes) + 1
      ensures Now().jobs == if ok || row.remote.None? then s.jobs
                            else s.jobs + [Job(app, row.id, row.remote, Some(Target(enable)))]
      ensures ok ==> Now() == ClientSwitched(s, row.id, enable)
      ensures Now().clients == s.clients || Now().clients == ClientSwitched(s, row.id, enable).clients
    {
      ClientSwitchKeeps(s, row.id, enable);
      ok := store.SetClientStatus(row.id, Target(enable), row.version);
      if !ok && row.remote.Some? {
        RecordProviderDrift(app, row, Target(enable));
        NewJobNames(s.jobs, [DriftJob(app, row, Target(enable))], DriftJob(app, row, Target(enable)), row.remote.value);
      }
      ghost var t := ClientSwitched(s, row.id, enable);
      if store.clients == s.clients {
        if row.remote.Some? {
          InterruptedKeeps(s, provisioner.clients, store.jobs);
        }
        assert Now() == s.(remotes := provisioner.clients, jobs := store.jobs);
      } else {
        MoreJobsKeep(t, store.jobs);
        assert Now() == t.(jobs := store.jobs);
      }
    }

    /** The second half of both creations, once the rows exist: provision, then complete, or
        compensate. */
    method FinishProvisioning(app: string, withApp: bool, id: string) returns (ok: bool)
      requires Valid() && id !in provisioner.byKey && Pending(Now(), app, withApp, id)
      modifies store`apps, store`clients, store`jobs, store`writes, provisioner
      ensures Valid()
      ensures CreateOutcome(old(Now()), Now(), app, withApp, id, ok)
      ensures old(Calm()) ==> ok && Calm()
      ensures old(provisioner.Calm()) && store.script(old(store.writes)).FailsAfter? ==>
        !ok && Orphaned(Now(), app, id) && store.writes == old(store.writes) + 1 && provisioner.Calm()
      ensures old(provisioner.Calm()) && store.script(old(store.writes)).Works? ==>
        ok && store.writes == old(store.writes) + 1 && provisioner.Calm()
      ensures provisioner.calls > old(provisioner.calls)
      ensures ProvisionTold(old(Now()), Now(), app, withApp, id, provisioner.counter,
                            provisioner.script(old(provisioner.calls)), old(store.Calm()), ok)
    {
      ghost var s := Now();
      var result := provisioner.ProvisionClient(id);
      assert provisioner.byKey.Keys <= old(provisioner.byKey.Keys) + {id};
      match result {
        case Failure(error) =>
          ProvisionFailed(app, withApp, id, error, s);
          ok := false;
        case Success(pid) =>
          ok := CompleteOrCompensate(app, withApp, id, pid, s);
      }
      CountedMore(s.clients, store.clients, s.remotes.Keys, provisioner.clients.Keys, old(provisioner.counter),
        provisioner.counter, old(provisioner.byKey.Keys), provisioner.byKey.Keys, id, torn);
    }

    /** The rows are marked failed; an unknown outcome leaves a job that names the client. */
    method ProvisionFailed(app: string, withApp: bool, id: string, error: ProvisionError, ghost s: State)
      requires Consistent(s) && Pending(s, app, withApp, id) && Now() == s.(remotes := provisioner.clients)
      requires provisioner.clients == s.remotes
        || (error.OutcomeUnknown? && NewRemote(s, provisioner.counter)
            && provisioner.clients == s.remotes[provisioner.counter := Remote(id, true)])
      modifies store`apps, store`clients, store`jobs, store`writes
      ensures Consistent(Now()) && CreateOutcome(s, Now(), app, withApp, id, false)
      ensures RowsKept(s.clients, store.clients, provisioner.counter)
      ensures store.jobs == if error.OutcomeUnknown? then s.jobs + [Job(app, id, None, None)] else s.jobs
      ensures old(store.Calm()) ==> MarkedFailed(Now(), app, withApp, id)
    {
      store.MarkProvisioningFailed(app, withApp, id);
      if error.OutcomeUnknown? {
        store.CreateReconciliationJob(Job(app, id, None, None));
        assert store.jobs[|s.jobs|].client == id;
      }
      ProvisionFailedKeeps(s, Now(), app, withApp, id, provisioner.counter);
    }

    method CompleteOrCompensate(app: string, withApp: bool, id: string, pid: nat, ghost s: State) returns (ok: bool)
      requires Consistent(s) && Pending(s, app, withApp, id) && NewRemote(s, pid)
      requires Now() == s.(remotes := s.remotes[pid := Remote(id, true)])
      modifies store`apps, store`clients, store`jobs, store`writes, provisioner`clients, provisioner`calls
      ensures Consistent(Now()) && CreateOutcome(s, Now(), app, withApp, id, ok)
      ensures RowsKept(s.clients, store.clients, pid) && provisioner.clients.Keys <= s.remotes.Keys + {pid}
      ensures old(provisioner.Calm()) && store.script(old(store.writes)).FailsAfter? ==>
        !ok && Orphaned(Now(), app, id) && store.writes == old(store.writes) + 1 && provisioner.Calm()
      ensures old(provisioner.Calm()) && store.script(old(store.writes)).Works? ==>
        ok && store.writes == old(store.writes) + 1 && provisioner.Calm()
      ensures old(Calm()) ==> ok && Calm()
      ensures provisioner.calls >= old(provisioner.calls)
      ensures ok || (store.jobs == s.jobs && provisioner.clients == s.remotes)
        || store.jobs == s.jobs + [Job(app, id, Some(pid), None)]
    {
      ProvisionedRowKeeps(s, app, withApp, id, pid);
      ProvisionedOutcome(s, app, withApp, id, pid);
      ok := store.CompleteProvisioning(app, withApp, id, pid);
      assert ok ==> Now() == AfterProvision(s, app, withApp, id, pid);
      if !ok { Compensate(app, withApp, id, pid, s); }
    }

    /** compensateProvision itself: the provider client goes, or a job names it. */
    method RemoveOrphan(app: string, id: string, pid: nat)
      modifies store`jobs, provisioner`clients, provisioner`calls
      ensures provisioner.calls == old(provisioner.calls) + 1
      ensures (store.jobs == old(store.jobs) && provisioner.clients == old(provisioner.clients) - {pid})
              || (store.jobs == old(store.jobs) + [Job(app, id, Some(pid), None)]
                  && (provisioner.clients == old(provisioner.clients) - {pid}
                      || (provisioner.clients == old(provisioner.clients) && Named(store.jobs, pid, id))))
      ensures old(provisioner.Calm()) ==>
        provisioner.Calm() && provisioner.clients == old(provisioner.clients) - {pid} && store.jobs == old(store.jobs)
    {
      ghost var jobs := store.jobs;
      var done := provisioner.DeleteClient(pid);
      if !done {
        store.CreateReconciliationJob(Job(app, id, Some(pid), None));
        assert store.jobs[|jobs|].client == id;
      }
    }

    /** compensateProvision, after a local completion that failed or was not confirmed. */
    method Compensate(app: string, withApp: bool, id: string, pid: nat, ghost s: State)
      requires Consistent(s) && Pending(s, app, withApp, id) && NewRemote(s, pid)
      requires Consistent(AfterProvision(s, app, withApp, id, pid))
      requires Now() == s.(remotes := s.remotes[pid := Remote(id, true)])
               || Now() == AfterProvision(s, app, withApp, id, pid)
      modifies store`jobs, provisioner`clients, provisioner`calls
      ensures Consistent(Now()) && CreateOutcome(s, Now(), app, withApp, id, false)
      ensures provisioner.clients == s.remotes[pid := Remote(id, true)] || provisioner.clients == s.remotes
      ensures (store.jobs == s.jobs && provisioner.clients == s.remotes)
              || store.jobs == s.jobs + [Job(app, id, Some(pid), None)]
      ensures provisioner.calls == old(provisioner.calls) + 1
      ensures old(provisioner.Calm()) ==> store.jobs == s.jobs && provisioner.clients == s.remotes && provisioner.Calm()
    {
      RemoveOrphan(app, id, pid);
      CompensatedKeeps(s, Now(), app, withApp, id, pid);
      CompensatedOutcome(s, Now(), app, withApp, id, pid);
    }

    /** CreateWithInitialClient, with the identifiers the generator drew. */
    method CreateWithInitialClient(app: string, id: string) returns (ok: bool)
      requires Valid()
      modifies store`apps, store`clients, store`jobs, store`writes, provisioner
      ensures Valid() && torn == old(torn) && old(store.jobs) <= store.jobs
      ensures ok ==>
        && app !in old(store.apps) && id !in old(store.clients)
        && Created(Now(), app, id) && store.clients.Keys == old(store.clients.Keys) + {id}
      ensures old(Calm()) ==> Calm() && (ok <==> app !in old(store.apps) && id !in old(store.clients))
      ensures app !in old(store.apps) && id !in old(store.clients) && old(provisioner.Calm())
              && store.script(old(store.writes)).Works? && store.script(old(store.writes) + 1).FailsAfter? ==>
        && !ok && Orphaned(Now(), app, id) && store.writes == old(store.writes) + 2 && provisioner.Calm()
      ensures app !in old(store.apps) && id !in old(store.clients) && old(provisioner.Calm())
              && store.script(old(store.writes)).Works? && store.script(old(store.writes) + 1).Works? ==>
        && ok && store.jobs == old(store.jobs) && store.apps[app].status.Active?
        && store.writes == old(store.writes) + 2 && provisioner.Calm()
      ensures if provisioner.calls == old(provisioner.calls)
              then !ok && Now().jobs == old(Now()).jobs && Now().remotes == old(Now()).remotes
              else ProvisionTold(old(Now()), Now(), app, true, id, provisioner.counter,
                                 provisioner.script(old(provisioner.calls)), old(store.Calm()), ok)
    {
      ghost var s := Now();
      ok := StartApplication(app, id);
      if !ok { return; }
      ok := FinishProvisioning(app, true, id);
    }

    /** The two new rows of an application, both still provisioning. */
    method StartApplication(app: string, id: string) returns (ok: bool)
      requires Valid()
      modifies store`apps, store`clients, store`writes
      ensures Valid() && torn == old(torn) && store.writes == old(store.writes) + 1
      ensures ok ==>
        && app !in old(store.apps) && id !in old(store.clients)
        && Pending(Now(), app, true, id) && store.clients.Keys == old(store.clients.Keys) + {id}
      ensures app !in old(store.apps) && id !in old(store.clients) && store.script(old(store.writes)).Works? ==> ok
      ensures old(store.Calm()) ==> store.Calm()
    {
      ghost var s := Now();
      var parent := Application(Active, Provisioning, false, 1);
      var row := Client(id, app, Active, Provisioning, false, None, 1);
      ok := store.InsertRows(app, Some(parent), row);
      if id !in s.clients && app !in s.apps {
        NewAppKeeps(s, app, parent);
        NewClientKeeps(s.(apps := s.apps[app := parent]), row);
        NoStrayClients(s, app, id);
        assert Now() == s || Now() == s.(apps := s.apps[app := parent]).(clients := s.clients[id := row]);
      }
    }

    /** CreateClient: never under a disabled application. */
    method CreateClient(app: string, id: string) returns (ok: bool)
      requires Valid()
      modifies store`apps, store`clients, store`jobs, store`writes, provisioner
      ensures Valid() && torn == old(torn) && old(store.jobs) <= store.jobs && store.apps == old(store.apps)
      ensures ok ==> AppActive(old(Now()), app) && id !in old(store.clients) && Created(Now(), app, id)
      ensures old(Calm()) ==> Calm()
      ensures old(Calm()) ==>
        (ok <==>
           && app in old(store.apps) && old(store.apps)[app].Visible() && AppActive(old(Now()), app)
           && id !in old(store.clients))
      ensures if provisioner.calls == old(provisioner.calls)
              then !ok && Now().jobs == old(Now()).jobs && Now().remotes == old(Now()).remotes
              else ProvisionTold(old(Now()), Now(), app, false, id, provisioner.counter,
                                 provisioner.script(old(provisioner.calls)), old(store.Calm()), ok)
    {
      ghost var s := Now();
      var parent := store.GetApplication(app);
      if parent.None? || !parent.value.status.Active? { return false; }
      var row := Client(id, app, Active, Provisioning, false, None, 1);
      ok := store.InsertRows(app, None, row);
      if id !in s.clients {
        NewClientKeeps(s, row);
        assert Now() == s || Now() == s.(clients := s.clients[id := row]);
      }
      if !ok { return; }
      ok := FinishProvisioning(app, false, id);
    }

    /** deleteClient: the row is armed, the provider client removed, the row deleted; any
        failure after the arming leaves a job that names the client. */
    method DeleteLive(app: string, c: Client) returns (ok: bool)
      requires Valid() && c.id in store.clients && store.clients[c.id] == c && !c.deleted
      modifies this`torn, store`clients, store`jobs, store`writes, provisioner`clients, provisioner`calls
      ensures Valid() && old(store.jobs) <= store.jobs
      ensures store.clients.Keys == old(store.clients.Keys)
      ensures forall id :: id in store.clients && id != c.id ==> store.clients[id] == old(store.clients)[id]
      ensures store.clients[c.id].(stage := c.stage, deleted := false) == c
      ensures ok ==> store.clients[c.id].deleted && (c.remote.Some? ==> c.remote.value !in provisioner.clients)
      ensures ok ==> torn == old(torn) && store.jobs == old(store.jobs)
      ensures torn ==
        old(torn) + (if store.script(old(store.writes)).FailsAfter? && !c.stage.Deleting? then {c.id} else {})
      ensures store.script(old(store.writes)).FailsBefore? ==> !ok && Now() == old(Now())
      ensures store.script(old(store.writes)).Works? && !ok ==>
        store.jobs == old(store.jobs) + [Job(app, c.id, c.remote, None)]
      ensures store.script(old(store.writes)).FailsAfter? ==>
        && !ok && provisioner.clients == old(provisioner.clients) && store.jobs == old(store.jobs)
        && store.writes == old(store.writes) + 1 && provisioner.calls == old(provisioner.calls)
        && store.clients == old(store.clients)[c.id := c.(stage := Deleting)]
      ensures old(Calm()) ==> Calm() && ok
    {
      ghost var s := Now();
      var armed := store.MarkClientDeleting(c.id, IsDeleting(c));
      if !armed {
        if store.clients != s.clients {
          torn := torn + {c.id};
          HiddenRowKeeps(s, store.clients[c.id], torn);
        }
        assert Now() == s || Now() == s.(clients := store.clients, torn := torn);
        return false;
      }
      ok := RemoveArmed(app, c, s);
    }

    /** The deletion of an armed row. */
    method RemoveArmed(app: string, c: Client, ghost s: State) returns (ok: bool)
      requires Consistent(s) && c.id in s.clients && s.clients[c.id] == c
      requires Now() == s.(clients := s.clients[c.id := c.(stage := Deleting)]) && !c.deleted
      modifies store`clients, store`jobs, store`writes, provisioner`clients, provisioner`calls
      ensures Consistent(Now()) && DeleteOutcome(s, Now(), app, c, ok)
      ensures old(Calm()) ==> Calm() && ok
    {
      var gone := true;
      if c.remote.Some? { gone := provisioner.DeleteClient(c.remote.value); }
      ok := FinishDeletion(app, c, gone, s);
    }

    /** The local end of a deletion: the row goes, or is parked with a job. */
    method FinishDeletion(app: string, c: Client, gone: bool, ghost s: State) returns (ok: bool)
      requires Consistent(s) && c.id in s.clients && s.clients[c.id] == c && !c.deleted
      requires Now() == s.(clients := s.clients[c.id := c.(stage := Deleting)], remotes := provisioner.clients)
      requires provisioner.clients == s.remotes
        || (c.remote.Some? && provisioner.clients == s.remotes - {c.remote.value})
      requires gone && c.remote.Some? ==> c.remote.value !in provisioner.clients
      modifies store`clients, store`jobs, store`writes
      ensures Consistent(Now()) && DeleteOutcome(s, Now(), app, c, ok)
      ensures old(store.Calm()) ==> store.Calm() && (gone ==> ok)
    {
      ok := false;
      if gone { ok := store.CompleteClientDeletion(c.id); }
      if !ok {
        store.MarkClientDeleteFailed(c.id);
        store.CreateReconciliationJob(Job(app, c.id, c.remote, None));
        assert store.jobs[|s.jobs|].client == c.id;
      }
      DeletedKeeps(s, Now(), c, store.clients[c.id]);
    }

    /** DeleteClient, which also retries earlier failed deletions. */
    method DeleteClient(app: string, id: string) returns (ok: bool)
      requires Valid()
      modifies this`torn, store`clients, store`jobs, store`writes, provisioner`clients, provisioner`calls
      ensures Valid() && old(store.jobs) <= store.jobs
      ensures ok ==> id in store.clients && store.clients[id].deleted
      ensures ok <== old(Calm()) && id in old(store.clients) && IsListed(old(store.clients)[id], app, false)
      ensures torn != old(torn) ==> store.script(old(store.writes)).FailsAfter?
      ensures !(id in old(store.clients) && IsListed(old(store.clients)[id], app, false)) ==> !ok && Now() == old(Now())
      ensures store.script(old(store.writes)).FailsBefore? ==> !ok && Now() == old(Now())
      ensures id in old(store.clients) && IsListed(old(store.clients)[id], app, false)
              && store.script(old(store.writes)).Works? && !ok ==>
        store.jobs == old(store.jobs) + [Job(app, id, old(store.clients)[id].remote, None)]
      ensures id in old(store.clients) && IsListed(old(store.clients)[id], app, false)
              && store.script(old(store.writes)).FailsAfter? ==>
        && Now().remotes == old(Now()).remotes && Now().jobs == old(Now()).jobs
        && store.writes == old(store.writes) + 1 && provisioner.calls == old(provisioner.calls)
        && store.clients == old(store.clients)[id := old(store.clients)[id].(stage := Deleting)]
    {
      var rows := store.ListClients(app, false);
      for i := 0 to |rows|
        invariant forall j :: 0 <= j < i ==> rows[j].id != id
      {
        if rows[i].id == id {
          ok := DeleteLive(app, rows[i]);
          return;
        }
      }
      ok := false;
    }

    /** Delete: every live client first, and the application only when none is left. */
    method Delete(app: string) returns (ok: bool)
      requires Valid()
      modifies this`torn, store`apps, store`clients, store`jobs, store`writes, provisioner`clients, provisioner`calls
      ensures Valid() && old(store.jobs) <= store.jobs
      ensures ok ==> store.apps != old(store.apps)
      ensures store.apps == old(store.apps)
        || (NoLiveClients(store.clients, app) && app in old(store.apps) && old(store.apps)[app].Visible()
            && store.apps == old(store.apps)[app := old(store.apps)[app].(deleted := true)])
      ensures (forall n: nat :: !store.script(n).FailsAfter?) ==> torn == old(torn)
      ensures ok <== old(Calm()) && app in old(store.apps) && old(store.apps)[app].Visible()
    {
      var parent := store.GetApplication(app);
      if parent.None? { return false; }
      var rows := store.ListClients(app, false);
      ok := DeleteRows(app, rows);
      if !ok { return; }
      ghost var s := Now();
      ok := store.DeleteApplication(app, parent.value.version);
      if store.apps != s.apps { EmptyAppKeeps(s, app, store.apps[app]); }
      assert Now() == s.(apps := store.apps);
    }

    method DeleteRows(app: string, rows: seq<Client>) returns (ok: bool)
      requires Valid()
      requires forall i :: 0 <= i < |rows| ==>
        rows[i].id in store.clients && store.clients[rows[i].id] == rows[i] && IsListed(rows[i], app, false)
      requires forall id :: id in store.clients && IsListed(store.clients[id], app, false) ==> store.clients[id] in rows
      requires forall i, j :: 0 <= i < j < |rows| ==> rows[i].id != rows[j].id
      modifies this`torn, store`clients, store`jobs, store`writes, provisioner`clients, provisioner`calls
      ensures Valid() && old(store.jobs) <= store.jobs
      ensures ok ==> NoLiveClients(store.clients, app)
      ensures (forall n: nat :: !store.script(n).FailsAfter?) ==> torn == old(torn)
      ensures old(Calm()) ==> Calm() && ok
    {
      for i := 0 to |rows|
        invariant Valid() && old(store.jobs) <= store.jobs
        invariant forall j :: i <= j < |rows| ==> rows[j].id in store.clients && store.clients[rows[j].id] == rows[j]
        invariant forall id :: id in store.clients && store.clients[id].app == app && !store.clients[id].deleted ==>
          store.clients[id] in rows[i..]
        invariant old(Calm()) ==> Calm()
        invariant (forall n: nat :: !store.script(n).FailsAfter?) ==> torn == old(torn)
      {
        ghost var before := store.clients;
        ok := DeleteLive(app, rows[i]);
        if !ok { return; }
        forall id | id in store.clients && store.clients[id].app == app && !store.clients[id].deleted
          ensures store.clients[id] in rows[i + 1..]
        {
          assert before[id] in rows[i..] && before[id] != rows[i];
        }
      }
      ok := true;
    }
  }

  // ---- Whole runs ----

  datatype Command =
    | CreateApp(app: string, id: string)
    | AddClient(app: string, id: string)
    | SwitchApp(app: string, enable: bool)
    | SwitchClient(app: string, id: string, enable: bool)
    | RemoveClient(app: string, id: string)
    | RemoveApp(app: string)

  /** Any sequence of administrative calls, whatever the two scripts make fail: afterwards
      every provider client is enabled exactly when its application and its row are active,
      or is named by a reconciliation job, exactly unless its row was torn by an ambiguous
      mark for deletion and no job names it. Without such marks that never happens. */
  method Administer(service: Service, commands: seq<Command>)
    requires service.Valid()
    modifies service`torn, service.store`apps, service.store`clients, service.store`jobs, service.store`writes,
             service.provisioner
    ensures service.Valid()
    ensures Accounted(service.Now()) && SwitchedOff(service.Now()) && DriftIsTorn(service.Now())
    ensures (forall n: nat :: !service.store.script(n).FailsAfter?) ==> service.torn == old(service.torn)
    ensures old(service.store.jobs) <= service.store.jobs
  {
    for i := 0 to |commands|
      invariant service.Valid() && old(service.store.jobs) <= service.store.jobs
      invariant (forall n: nat :: !service.store.script(n).FailsAfter?) ==> service.torn == old(service.torn)
    {
      var _ := Execute(service, commands[i]);
    }
    DriftExactly(service.Now());
  }

  method Execute(service: Service, command: Command) returns (ok: bool)
    requires service.Valid()
    modifies service`torn, service.store`apps, service.store`clients, service.store`jobs, service.store`writes,
             service.provisioner
    ensures service.Valid() && old(service.store.jobs) <= service.store.jobs
    ensures (forall n: nat :: !service.store.script(n).FailsAfter?) ==> service.torn == old(service.torn)
  {
    match command {
      case CreateApp(app, id) => ok := service.CreateWithInitialClient(app, id);
      case AddClient(app, id) => ok := service.CreateClient(app, id);
      case SwitchApp(app, enable) => ok := service.SetStatus(app, enable);
      case SwitchClient(app, id, enable) => ok := service.SetClientStatus(app, id, enable);
      case RemoveClient(app, id) => ok := service.DeleteClient(app, id);
      case RemoveApp(app) => ok := service.Delete(app);
    }
  }

  /** After any such run, one application switch that meets no fault brings the provider in
      line for every client of the application the provider knows. It succeeds exactly when
      the transition is allowed and the provider knows every target. */
  method RestoreAfter(service: Service, commands: seq<Command>, app: string, enable: bool) returns (ok: bool)
    requires service.Valid()
    modifies service`torn, service.store`apps, service.store`clients, service.store`jobs, service.store`writes,
             service.provisioner
    ensures service.Valid()
    ensures ok ==> Restored(service.Now(), app)
  {
    Administer(service, commands);
    ghost var s := service.Now();
    ok := service.SetStatus(app, enable);
    if ok { SwitchRestores(s, app, enable); }
  }

  /** A service with one application and one client, whose third local write will commit
      although its caller sees an error. */
  method OneClient() returns (service: Service)
    ensures fresh(service) && fresh(service.store) && fresh(service.provisioner)
    ensures service.Valid() && service.provisioner.Calm() && service.store.writes == 2
    ensures forall n: nat :: service.store.script(n) == if n == 2 then FailsAfter else Works
    ensures Created(service.Now(), "a", "c") && service.Now().jobs == []
    ensures service.Now().clients.Keys == {"c"}
  {
    var store := new ApplicationStore((n: nat) => if n == 2 then FailsAfter else Works);
    var provisioner := new FakeProvisioner((n: nat) => Accepted);
    service := new Service(store, provisioner);
    var created := service.CreateWithInitialClient("a", "c");
  }

  /** A deletion whose mark commits although the caller sees an error. */
  method TearDeletion() returns (service: Service, ghost pid: nat)
    ensures fresh(service) && fresh(service.store) && fresh(service.provisioner)
    ensures service.Valid() && service.Calm()
    ensures var s := service.Now();
      && s.jobs == [] && SwitchAllowed(s, "a", false) && Targets(s, "a", false) == {}
      && pid in s.remotes && s.remotes[pid] == Remote("c", true)
  {
    service := OneClient();
    pid := service.store.clients["c"].remote.value;
    var deleted := service.DeleteClient("a", "c");
  }

  /** The torn case is real. After TearDeletion one application switch without faults
      succeeds: the application is disabled, its client is still enabled at the provider,
      and no job says so. */
  method TornDeletionDrifts() returns (service: Service, ok: bool)
    ensures service.Valid() && ok
    ensures var s := service.Now();
      && s.jobs == [] && "a" in s.apps && s.apps["a"].status.Disabled?
      && exists pid :: pid in s.remotes && s.remotes[pid] == Remote("c", true)
  {
    ghost var pid;
    service, pid := TearDeletion();
    ok := service.SetStatus("a", false);
    assert service.Now().remotes[pid] == Remote("c", true);
  }

  /** SetStatus is not always available: a creation whose completion commits although the
      caller sees an error is compensated at the provider, and leaves a visible client that
      no fault-free switch of its application gets past. */
  method AmbiguousCompletionBlocksSwitch() returns (service: Service, ghost s: State, ok: bool)
    ensures service.Valid() && !ok
    ensures SwitchAllowed(s, "a", false) && Orphaned(s, "a", "c")
  {
    var store := new ApplicationStore((n: nat) => if n == 1 then FailsAfter else Works);
    var provisioner := new FakeProvisioner((n: nat) => Accepted);
    service := new Service(store, provisioner);
    var created := service.CreateWithInitialClient("a", "c");
    s := service.Now();
    assert IsTarget(s.clients["c"], "a", false);
    assert s.clients["c"].remote.value in Targets(s, "a", false);
    ok := service.SetStatus("a", false);
  }
}
