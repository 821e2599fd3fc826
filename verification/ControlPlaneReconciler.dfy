/** The reconciler as it is written: it edits its copy of the ControlPlane in place
    and calls the API as it goes. Every method is shown to be a stretch of the pass
    machine, so that all that holds of the machine holds of it. */
module ControlPlaneReconciler {
  import opened Wrappers
  import opened EnvVars
  import opened ControlPlaneEnv
  import opened Conditions
  import opened Metadata
  import opened Deployments
  import opened Cluster
  import opened ControlPlaneObjects
  import opened ControlPlanePass
  import opened ControlPlaneClient

  /** The pass from `w` on is the pass from `w'` on, some calls later. */
  ghost predicate Continues(cfg: Config, key: Key, script: nat -> Choice, w: World, i: nat, w': World, i': nat) {
    Run(cfg, key, w, script, i) == Run(cfg, key, w', script, i')
  }

  lemma RunStep(cfg: Config, key: Key, script: nat -> Choice, w: World, i: nat)
    ensures w.proc.pc.Done? ==> Run(cfg, key, w, script, i) == w
    ensures !w.proc.pc.Done? ==>
              Continues(cfg, key, script, w, i,
                        Step(cfg, key, w.(state := script(i).disturb(w.state)), script(i)), i + 1)
  {
  }

  /** How a pass goes on after the stage of a kind. */
  function AfterStage(p: Proc, kind: Kind, changed: bool, found: Option<Listed>, error: Option<Error>, now: int): Proc {
    if error.Some? then Stop(p, Failed(error.value))
    else if changed || found.None? then AfterOwned(p, kind)
    else AfterKind(p, kind, found.value.ref.name, found.value.content.body, now)
  }

  class Reconciler {
    const client: ApiClient
    const cfg: Config

    constructor (client: ApiClient, cfg: Config)
      ensures this.client == client && this.cfg == cfg
    {
      this.client, this.cfg := client, cfg;
    }

    /** Writes the status if its conditions say something else. */
    method UpdateStatus(key: Key, cp: ControlPlaneCopy, ghost p: Proc) returns (error: Option<Error>)
      requires p.pc.GetStatus? && p.cp == cp.Value()
      modifies client
      ensures var result := if error.None? then Finished else RetryOnConflict(p.pc.retry, error.value);
              Continues(cfg, key, client.script, World(old(client.state), p), old(client.calls),
                        World(client.state, Stop(p, result)), client.calls)
    {
      hide Run, Cluster.UpdateStatus, NeedsUpdate, Meaning, Unique;
      RunStep(cfg, key, client.script, World(client.state, p), client.calls);
      var current := client.Get(key);
      if current.Err? && current.error != NotFound {
        return Some(current.error);
      }
      var stored := new ConditionsAware(if current.Ok? then current.value.conditions else []);
      var needed := StatusNeedsUpdate(stored, cp.status);
      if needed {
        RunStep(cfg, key, client.script, World(client.state, p.(pc := PutStatus(p.pc.retry))), client.calls);
        error := client.StatusUpdate(key, cp.Value());
        return error;
      }
      return None;
    }

    /** Deletes all owned objects of a cluster-wide kind, and goes on if one fails. */
    method EnsureOwnedDeleted(kind: Kind, cp: ControlPlaneCopy, ghost key: Key, ghost p: Proc) returns (failed: bool)
      requires client.Valid() && ClusterWide(kind)
      requires p.cp == cp.Value() && p.pc == if kind == ClusterRoles then ListRoles else ListBindings
      modifies client
      ensures var p' := if failed then Stop(p, Failed(Unavailable))
                        else if kind == ClusterRoles then AfterRoles(p) else AfterBindings(p);
              Continues(cfg, key, client.script, World(old(client.state), p), old(client.calls),
                        World(client.state, p'), client.calls)
    {
      hide Run, AfterRoles, AfterBindings, Cluster.DeleteObject, ListOwned;
      ghost var w, i0 := World(client.state, p), client.calls;
      RunStep(cfg, key, client.script, w, i0);
      var listed := client.ListForOwner(kind, None, CONTROL_PLANE_VALUE, cp.meta.uid);
      if listed.Err? {
        return true;
      }
      ghost var todo := Refs(listed.value);
      assert todo[0..] == todo;
      failed := false;
      for i := 0 to |listed.value|
        invariant Continues(cfg, key, client.script, w, i0, World(client.state, Left(p, kind, todo[i..], failed)),
                            client.calls)
      {
        LeftStep(cfg, key, client.script, World(client.state, Left(p, kind, todo[i..], failed)), p, kind, todo[i..],
                 failed,
                 client.calls);
        var error := client.Delete(listed.value[i].ref);
        if error.Some? && error.value != NotFound {
          failed := true;
        }
        assert todo[i..][1..] == todo[i + 1..];
      }
    }

    method Amend(ref: Ref, repaired: Object, ghost key: Key, ghost p: Proc) returns (error: Option<Error>)
      modifies client
      ensures Continues(cfg, key, client.script, World(old(client.state), p.(pc := UpdateOwned(ref, repaired))),
                        old(client.calls),
                        World(client.state, AfterStage(p, ref.kind, true, None, error, 0)), client.calls)
    {
      hide Run, UpdateObject;
      RunStep(cfg, key, client.script, World(client.state, p.(pc := UpdateOwned(ref, repaired))), client.calls);
      error := client.Store(ref, repaired);
    }

    method Add(kind: Kind, generated: Object, ghost key: Key, ghost p: Proc) returns (error: Option<Error>)
      modifies client
      ensures Continues(cfg, key, client.script, World(old(client.state), p.(pc := CreateOwned(kind, generated))),
                        old(client.calls),
                        World(client.state, AfterStage(p, kind, true, None, error, 0)), client.calls)
    {
      hide Run, CreateObject;
      RunStep(cfg, key, client.script, World(client.state, p.(pc := CreateOwned(kind, generated))), client.calls);
      error := client.Create(kind, generated);
    }

    /** Service account, role and binding: exactly one, with the wanted metadata. */
    method EnsureOwned(kind: Kind, cp: ControlPlaneCopy, names: Names, ghost key: Key, ghost p: Proc)
      returns (changed: bool, found: Option<Listed>, error: Option<Error>)
      requires client.Valid() && (kind == ServiceAccounts || ClusterWide(kind))
      requires p == Proc(ListKind(kind), cp.Value(), names)
      modifies client
      ensures error.None? && !changed ==> found.Some?
      ensures Continues(cfg, key, client.script, World(old(client.state), p), old(client.calls),
                        World(client.state, AfterStage(p, kind, changed, found, error, client.Now())), client.calls)
    {
      hide Run, ListOwned, RepairedObject, ObjectNeedsRepair, GeneratedMeta, NeedsRepair, Repaired, AfterKind;
      RunStep(cfg, key, client.script, World(client.state, p), client.calls);
      var listed := client.ListForOwner(kind, Scope(kind, cp.meta.namespace), CONTROL_PLANE_VALUE, cp.meta.uid);
      if listed.Err? {
        return false, None, Some(listed.error);
      }
      if |listed.value| > 1 {
        return false, None, Some(TooMany);
      }
      var generated := Generated(cfg, kind, cp.Value(), names);
      if generated.None? {
        return false, None, Some(Unsupported);
      }
      if |listed.value| == 1 {
        var existing := listed.value[0];
        var updated, meta := EnsureObjectMetaIsUpdated(existing.content.meta, generated.value.meta);
        PlainRepair(existing.content, generated.value, p.cp);
        if updated {
          error := Amend(existing.ref, existing.content.(meta := meta), key, p);
          return true, Some(existing), error;
        }
        return false, Some(existing), None;
      }
      error := Add(kind, generated.value, key, p);
      return true, None, error;
    }

    /** The certificate: a missing one is signed by the authority before it is stored. */
    method EnsureCertificate(cp: ControlPlaneCopy, names: Names, ghost key: Key, ghost p: Proc)
      returns (changed: bool, found: Option<Listed>, error: Option<Error>)
      requires client.Valid() && p == Proc(ListKind(Secrets), cp.Value(), names)
      modifies client
      ensures error.None? && !changed ==> found.Some?
      ensures Continues(cfg, key, client.script, World(old(client.state), p), old(client.calls),
                        World(client.state, AfterStage(p, Secrets, changed, found, error, client.Now())), client.calls)
    {
      hide Run, ListOwned, GeneratedMeta, NeedsRepair, Repaired, AfterKind, RepairedObject, ObjectNeedsRepair;
      RunStep(cfg, key, client.script, World(client.state, p), client.calls);
      var listed := client.ListForOwner(Secrets, None, CONTROL_PLANE_VALUE, cp.meta.uid);
      if listed.Err? {
        return false, None, Some(listed.error);
      }
      if |listed.value| > 1 {
        return false, None, Some(TooMany);
      }
      var generated := Object(GeneratedMeta(cfg, Secrets, cp.Value()), Plain);
      if |listed.value| == 1 {
        var existing := listed.value[0];
        var updated, meta := EnsureObjectMetaIsUpdated(existing.content.meta, generated.meta);
        PlainRepair(existing.content, generated, p.cp);
        if updated {
          error := Amend(existing.ref, existing.content.(meta := meta), key, p);
          return true, Some(existing), error;
        }
        return false, Some(existing), None;
      }
      RunStep(cfg, key, client.script, World(client.state, p.(pc := GetAuthority(generated))), client.calls);
      error := client.Read();
      if error.Some? {
        return false, None, error;
      }
      error := Add(Secrets, generated, key, p);
      return error.None?, None, error;
    }

    /** The Deployment, repaired in place if it exists. */
    method EnsureDeployment(cp: ControlPlaneCopy, names: Names, ghost key: Key, ghost p: Proc)
      returns (changed: bool, found: Option<Listed>, error: Option<Error>)
      requires client.Valid() && p == Proc(ListKind(Deployments), cp.Value(), names)
      modifies client
      ensures error.None? && !changed ==> found.Some?
      ensures Continues(cfg, key, client.script, World(old(client.state), p), old(client.calls),
                        World(client.state, AfterStage(p, Deployments, changed, found, error, client.Now())),
                        client.calls)
    {
      hide Run, ListOwned, GeneratedMeta, GeneratedWorkload, NeedsRepair, Repaired, AfterKind;
      hide RepairedBody, BodyNeedsRepair;
      RunStep(cfg, key, client.script, World(client.state, p), client.calls);
      var listed := client.ListForOwner(Deployments, Some(cp.meta.namespace), CONTROL_PLANE_VALUE, cp.meta.uid);
      if listed.Err? {
        return false, None, Some(listed.error);
      }
      if |listed.value| > 1 {
        return false, None, Some(TooMany);
      }
      var generated := Object(GeneratedMeta(cfg, Deployments, cp.Value()),
                              Workload(GeneratedWorkload(cp.Value(), names), DeploymentStatus(0, 0)));
      if |listed.value| == 1 {
        var existing := listed.value[0];
        var relabelled, meta := EnsureObjectMetaIsUpdated(existing.content.meta, generated.meta);
        var edited, body := RepairBody(existing.content.body, cp, names);
        if relabelled || edited {
          error := Amend(existing.ref, Object(meta, body), key, p);
          return true, Some(existing), error;
        }
        return false, Some(existing), None;
      }
      error := Add(Deployments, generated, key, p);
      return true, None, error;
    }

    /** Edits the containers and the scale of a Deployment in memory. */
    method RepairBody(existing: Body, cp: ControlPlaneCopy, names: Names) returns (edited: bool, body: Body)
      ensures var generated := Workload(GeneratedWorkload(cp.Value(), names), DeploymentStatus(0, 0));
              && edited == BodyNeedsRepair(existing, generated, cp.Value())
              && body == RepairedBody(existing, generated, cp.Value())
    {
      hide RepairedSpec, Settled;
      var wanted := GeneratedWorkload(cp.Value(), names);
      assert wanted.containers[0].name == MAIN_CONTAINER;
      if !existing.Workload? {
        return false, existing;
      }
      var deployment := Unpacked(existing.spec);
      var generated := Unpacked(wanted);
      var dataPlaneIsSet := cp.options.dataPlane.Some? && cp.options.dataPlane.value != "";
      edited := deployment.Repair(generated, cp.options.env, cp.envFrom, dataPlaneIsSet);
      body := existing.(spec := deployment.Value());
    }

    /** A write of the ControlPlane that ends the pass. */
    method Put(key: Key, cp: ControlPlaneCopy, retry: bool, ghost p: Proc) returns (result: Result)
      requires p.cp == cp.Value()
      modifies client
      ensures Continues(cfg, key, client.script, World(old(client.state), p.(pc := PutControlPlane(retry))),
                        old(client.calls),
                        World(client.state, Stop(p, result)), client.calls)
    {
      hide Run, UpdateControlPlane;
      RunStep(cfg, key, client.script, World(client.state, p.(pc := PutControlPlane(retry))), client.calls);
      var reply := client.Update(key, cp.Value());
      result := if reply.Ok? then Finished
                else if retry && reply.error == Conflict then Requeued else Failed(reply.error);
    }

    /** Deletion: bindings, their finalizer, roles, their finalizer. */
    method CleanUp(key: Key, cp: ControlPlaneCopy, ghost p: Proc) returns (result: Result, ghost q: Proc)
      requires client.Valid() && p.pc == ListBindings && p.cp == cp.Value()
      modifies client, cp
      ensures q.pc == Done(result)
      ensures Continues(cfg, key, client.script, World(old(client.state), p), old(client.calls),
                        World(client.state, q), client.calls)
    {
      hide Run;
      var failed := EnsureOwnedDeleted(ClusterRoleBindings, cp, key, p);
      if failed {
        return Failed(Unavailable), Stop(p, Failed(Unavailable));
      }
      var finalizers, changed := RemoveFinalizer(cp.meta.finalizers, CLEANUP_BINDING);
      WithoutRemovesOne(cp.meta.finalizers, CLEANUP_BINDING);
      if changed {
        cp.meta := cp.meta.(finalizers := finalizers);
        ghost var p1 := p.(cp := cp.Value());
        result := Put(key, cp, false, p1);
        return result, Stop(p1, result);
      }
      failed := EnsureOwnedDeleted(ClusterRoles, cp, key, p.(pc := ListRoles));
      if failed {
        return Failed(Unavailable), Stop(p, Failed(Unavailable));
      }
      finalizers, changed := RemoveFinalizer(cp.meta.finalizers, CLEANUP_ROLE);
      WithoutRemovesOne(cp.meta.finalizers, CLEANUP_ROLE);
      if changed {
        cp.meta := cp.meta.(finalizers := finalizers);
        ghost var p1 := p.(cp := cp.Value());
        result := Put(key, cp, false, p1);
        return result, Stop(p1, result);
      }
      return Finished, Stop(p, Finished);
    }

    /** The owned objects, stage by stage, and the conclusion on readiness. */
    method EnsureObjects(key: Key, cp: ControlPlaneCopy, dataPlaneIsSet: bool, ghost p: Proc)
      returns (result: Result, ghost q: Proc)
      requires client.Valid() && p == Proc(ListKind(ServiceAccounts), cp.Value(), Names("", "", ""))
      requires dataPlaneIsSet <==> DataPlaneIsSet(cp.Value())
      modifies client, cp.status
      ensures q.pc == Done(result)
      ensures Continues(cfg, key, client.script, World(old(client.state), p), old(client.calls),
                        World(client.state, q), client.calls)
    {
      hide Run;
      ghost var p1 := p;
      var names := Names("", "", "");
      var changed, account, error := EnsureOwned(ServiceAccounts, cp, names, key, p1);
      if changed || error.Some? {
        result := if error.Some? then Failed(error.value) else Finished;
        return result, AfterStage(p1, ServiceAccounts, changed, account, error, 0);
      }
      names := names.(account := account.value.ref.name);
      p1 := p1.(names := names, pc := ListKind(ClusterRoles));
      var role;
      changed, role, error := EnsureOwned(ClusterRoles, cp, names, key, p1);
      if changed || error.Some? {
        result := if error.Some? then Failed(error.value) else Finished;
        return result, AfterStage(p1, ClusterRoles, changed, role, error, 0);
      }
      names := names.(role := role.value.ref.name);
      p1 := p1.(names := names, pc := ListKind(ClusterRoleBindings));
      var binding;
      changed, binding, error := EnsureOwned(ClusterRoleBindings, cp, names, key, p1);
      if changed || error.Some? {
        result := if error.Some? then Failed(error.value) else Finished;
        return result, AfterStage(p1, ClusterRoleBindings, changed, binding, error, 0);
      }
      p1 := p1.(pc := ListKind(Secrets));
      var certificate;
      changed, certificate, error := EnsureCertificate(cp, names, key, p1);
      if changed || error.Some? {
        result := if error.Some? then Failed(error.value) else Finished;
        return result, AfterStage(p1, Secrets, changed, certificate, error, 0);
      }
      names := names.(certificate := certificate.value.ref.name);
      p1 := p1.(names := names, pc := ListKind(Deployments));
      result, q := EnsureRunning(key, cp, names, dataPlaneIsSet, p1);
    }

    /** The Deployment and, once it serves, the status. */
    method EnsureRunning(key: Key, cp: ControlPlaneCopy, names: Names, dataPlaneIsSet: bool, ghost p: Proc)
      returns (result: Result, ghost q: Proc)
      requires client.Valid() && p == Proc(ListKind(Deployments), cp.Value(), names)
      requires dataPlaneIsSet <==> DataPlaneIsSet(cp.Value())
      modifies client, cp.status
      ensures q.pc == Done(result)
      ensures Continues(cfg, key, client.script, World(old(client.state), p), old(client.calls),
                        World(client.state, q), client.calls)
    {
      hide Run, WithProvisioned;
      var changed, found, error := EnsureDeployment(cp, names, key, p);
      if error.Some? {
        return Failed(error.value), Stop(p, Failed(error.value));
      }
      if changed {
        if !dataPlaneIsSet {
          ghost var p1 := p.(pc := GetStatus(false));
          error := UpdateStatus(key, cp, p1);
          result := if error.Some? then Failed(error.value) else Finished;
          return result, Stop(p1, result);
        }
        return Finished, Stop(p, Finished);
      }
      var body := found.value.content.body;
      if !body.Workload? || body.status.replicas == 0 || body.status.available < body.status.replicas {
        return Finished, Stop(p, Finished);
      }
      cp.EnsureIsMarkedProvisioned(client.Now());
      ghost var p2 := p.(cp := cp.Value(), pc := GetStatus(true));
      error := UpdateStatus(key, cp, p2);
      result := if error.None? then Finished else if error.value == Conflict then Requeued else Failed(error.value);
      q := Stop(p2, result);
    }

    /** What follows the DataPlane in the environment; a write refreshes the copy. */
    method EnsureDataPlaneConfiguration(key: Key, cp: ControlPlaneCopy, service: string, ghost p: Proc)
      returns (error: Option<Error>)
      requires p.cp == cp.Value()
      modifies client, cp, cp.options, cp.status
      ensures var isSet, namespace := DataPlaneIsSet(p.cp), p.cp.meta.namespace;
              var p1 := p.(cp := p.cp.(env := Followed(p.cp.env, isSet, namespace, service)), pc := PutEnvironment);
              if Follows(p.cp.env, isSet, namespace, service) then
                && error.None? && cp.Value() == p.cp
                && client.state == old(client.state) && client.calls == old(client.calls)
              else
                Continues(cfg, key, client.script, World(old(client.state), p1), old(client.calls),
                          World(client.state, if error.Some? then Stop(p1, RetryOnConflict(true, error.value))
                                              else AfterEnvironment(p1, cp.Value(), client.Now())), client.calls)
    {
      hide Run, Followed, Follows, AfterEnvironment, UpdateControlPlane;
      FollowedChanges(cp.options.env, DataPlaneIsSet(p.cp), cp.meta.namespace, service);
      var changed := cp.options.SetEnvOnDataPlaneChange(cp.meta.namespace, service);
      if changed {
        RunStep(cfg, key, client.script, World(client.state, p.(cp := cp.Value(), pc := PutEnvironment)), client.calls);
        var reply := client.Update(key, cp.Value());
        if reply.Err? {
          return Some(reply.error);
        }
        cp.Refresh(reply.value);
      }
      return None;
    }

    /** The environment: defaults first, then what follows the DataPlane. */
    method EnsureEnvironment(key: Key, cp: ControlPlaneCopy, service: string, ghost p: Proc)
      returns (result: Result, ghost q: Proc)
      requires client.Valid() && p == Start().(cp := cp.Value())
      modifies client, cp, cp.options, cp.status
      ensures q.pc == Done(result)
      ensures Continues(cfg, key, client.script, World(old(client.state), AfterService(p, service, old(client.Now()))),
                        old(client.calls), World(client.state, q), client.calls)
    {
      hide Run, Defaulted, DefaultsHold, Followed, Follows, WithDataPlaneStatus;
      var changed := cp.options.SetControlPlaneDefaults(cp.meta.namespace, service, {});
      ghost var p1 := p.(cp := cp.Value());
      if changed {
        result := Put(key, cp, true, p1);
        return result, Stop(p1, result);
      }
      var error := EnsureDataPlaneConfiguration(key, cp, service, p1);
      if error.Some? {
        result := if error.value == Conflict then Requeued else Failed(error.value);
        p1 := p1.(cp := p1.cp.(env := Followed(p1.cp.env, DataPlaneIsSet(p1.cp), p1.cp.meta.namespace, service)));
        return result, Stop(p1, result);
      }
      var dataPlaneIsSet := cp.EnsureDataPlaneStatus(client.Now());
      p1 := Proc(ListKind(ServiceAccounts), cp.Value(), Names("", "", ""));
      result, q := EnsureObjects(key, cp, dataPlaneIsSet, p1);
    }

    /** The name of the Service of the referenced DataPlane. */
    method DataPlaneServiceName(cp: ControlPlaneCopy, ghost key: Key, ghost p: Proc) returns (got: Outcome<string>)
      requires client.Valid() && p.cp == cp.Value() && p.pc == GetDataPlane && DataPlaneIsSet(cp.Value())
      modifies client
      ensures Continues(cfg, key, client.script, World(old(client.state), p), old(client.calls),
                        World(client.state, if got.Err? then Stop(p, Failed(got.error))
                                            else AfterService(p, got.value, client.Now())), client.calls)
    {
      hide Run, AfterService, ListOwned;
      RunStep(cfg, key, client.script, World(client.state, p), client.calls);
      var dataPlane := client.FindDataPlane(Key(cp.meta.namespace, cp.options.dataPlane.value));
      if dataPlane.Err? {
        return Err(dataPlane.error);
      }
      RunStep(cfg, key, client.script, World(client.state, p.(pc := ListServices(dataPlane.value))), client.calls);
      var services := client.ListForOwner(Services, Some(cp.meta.namespace), DATA_PLANE_VALUE, dataPlane.value);
      if services.Err? {
        return Err(services.error);
      }
      if |services.value| > 1 {
        return Err(TooMany);
      }
      if |services.value| == 0 {
        return Err(NotFound);
      }
      AfterServiceIgnoresPc(p.(pc := ListServices(dataPlane.value)), p, services.value[0].ref.name, client.Now());
      return Ok(services.value[0].ref.name);
    }

    /** Scheduling, the DataPlane, the environment and the owned objects. */
    method Provision(key: Key, cp: ControlPlaneCopy, ghost p: Proc) returns (result: Result, ghost q: Proc)
      requires client.Valid() && p == Start().(cp := cp.Value())
      modifies client, cp, cp.options, cp.status
      ensures q.pc == Done(result)
      ensures Continues(cfg, key, client.script,
                        World(old(client.state), AfterFinalizers(Start(), p.cp, old(client.Now()))),
                        old(client.calls), World(client.state, q), client.calls)
    {
      hide Run, AfterService, WithScheduled;
      var scheduled := cp.EnsureIsMarkedScheduled(client.Now());
      if scheduled {
        ghost var p1 := p.(cp := cp.Value(), pc := GetStatus(false));
        var error := UpdateStatus(key, cp, p1);
        result := if error.Some? then Failed(error.value) else Finished;
        return result, Stop(p1, result);
      }
      var service := "";
      if cp.options.dataPlane.Some? && cp.options.dataPlane.value != "" {
        var got := DataPlaneServiceName(cp, key, p.(pc := GetDataPlane));
        if got.Err? {
          return Failed(got.error), Stop(p, Failed(got.error));
        }
        service := got.value;
        AfterServiceIgnoresPc(p.(pc := GetDataPlane), p, service, client.Now());
      }
      result, q := EnsureEnvironment(key, cp, service, p);
    }

    /** A pass for a live ControlPlane. */
    method Sustain(key: Key, cp: ControlPlaneCopy) returns (result: Result, ghost q: Proc)
      requires client.Valid() && cp.meta.deletion.None?
      modifies client, cp, cp.options, cp.status
      ensures q.pc == Done(result)
      ensures Continues(cfg, key, client.script,
                        World(old(client.state), AfterGet(Start(), old(cp.Value()), old(client.Now()))),
                        old(client.calls), World(client.state, q), client.calls)
    {
      hide Run, AfterFinalizers, WithFinalizers;
      WithFinalizersAddsMissing(cp.meta.finalizers, [CLEANUP_ROLE, CLEANUP_BINDING]);
      var finalizers, added := EnsureFinalizers(cp.meta.finalizers, [CLEANUP_ROLE, CLEANUP_BINDING]);
      if added {
        cp.meta := cp.meta.(finalizers := finalizers);
        ghost var p := Start().(cp := cp.Value());
        result := Put(key, cp, false, p);
        return result, Stop(p, result);
      }
      cp.status.InitReady(client.Now());
      result, q := Provision(key, cp, Start().(cp := cp.Value()));
    }

    /** One pass. Whatever others do between its calls, and however these fare, it
        leaves the cluster, and ends, exactly as the machine does. */
    method Reconcile(key: Key) returns (result: Result)
      requires client.Valid()
      modifies client
      ensures var end := Run(cfg, key, World(old(client.state), Start()), client.script, old(client.calls));
              client.state == end.state && end.proc.pc == Done(result)
    {
      hide Run, AfterFinalizers, WithFinalizers;
      RunStep(cfg, key, client.script, World(client.state, Start()), client.calls);
      var got := client.Get(key);
      ghost var q := Stop(Start(), if got.Err? && got.error == NotFound then Finished else Failed(Unavailable));
      if got.Err? {
        result := if got.error == NotFound then Finished else Failed(got.error);
      } else {
        var cp := new ControlPlaneCopy(got.value);
        if cp.meta.deletion.Some? {
          if cp.meta.deletion.value > client.Now() {
            result, q := Requeued, Stop(Start(), Requeued);
          } else {
            result, q := CleanUp(key, cp, Start().(cp := cp.Value(), pc := ListBindings));
          }
        } else {
          result, q := Sustain(key, cp);
        }
      }
      RunStep(cfg, key, client.script, World(client.state, q), client.calls);
    }
  }

  /** The deletion loop over either cluster-wide kind. */
  function Left(p: Proc, kind: Kind, todo: seq<Ref>, failed: bool): Proc {
    if kind == ClusterRoles then RolesLeft(p, todo, failed) else BindingsLeft(p, todo, failed)
  }

  lemma LeftStep(cfg: Config, key: Key, script: nat -> Choice, w: World, p: Proc, kind: Kind, todo: seq<Ref>,
                 failed: bool, i: nat)
    requires ClusterWide(kind) && todo != [] && w.proc == Left(p, kind, todo, failed)
    ensures var s := script(i).disturb(w.state);
            Continues(cfg, key, script, w, i,
                      World(Landed(s, DeleteObject(s, todo[0]), script(i).fault),
                            Left(p, kind, todo[1..], DeleteFailed(s, todo[0], script(i).fault, failed))), i + 1)
  {
    hide Run, AfterRoles, AfterBindings, DeleteObject, DeleteFailed;
    RunStep(cfg, key, script, w, i);
    LeftIgnoresPc(p, w.proc, kind, todo[1..]);
  }

  lemma LeftIgnoresPc(p: Proc, q: Proc, kind: Kind, todo: seq<Ref>)
    requires p.cp == q.cp && p.names == q.names
    ensures forall failed :: Left(p, kind, todo, failed) == Left(q, kind, todo, failed)
  {
    hide Without;
  }

  /** Kinds without a pod template are repaired in their metadata only. */
  lemma PlainRepair(existing: Object, generated: Object, cp: ControlPlane)
    requires !generated.body.Workload?
    ensures RepairedObject(existing, generated, cp) == existing.(meta := Repaired(existing.meta, generated.meta))
    ensures ObjectNeedsRepair(existing, generated, cp) <==> NeedsRepair(existing.meta, generated.meta)
  {
  }

  /** The object graph of a Deployment spec, in fresh memory. */
  method Unpacked(spec: DeploymentSpec) returns (deployment: DeploymentObject)
    ensures fresh(deployment) && fresh(deployment.containers)
    ensures deployment.Valid() && deployment.Value() == spec
  {
    var containers: seq<PodContainer> := [];
    for i := 0 to |spec.containers|
      invariant |containers| == i && fresh(containers)
      invariant forall j, k | 0 <= j < k < i :: containers[j] != containers[k]
      invariant forall j | 0 <= j < i :: containers[j].Value() == spec.containers[j]
    {
      var container := new PodContainer(spec.containers[i]);
      containers := containers + [container];
    }
    deployment := new DeploymentObject(spec.replicas, spec.serviceAccount, spec.certificate, containers);
    assert Values(containers) == spec.containers;
  }
}
