/** What was seen before a status that says "provisioned" is written, over all runs,
    with failing calls, restarts and any interference. */
module ControlPlaneServed {
  import opened Wrappers
  import opened Conditions
  import opened Metadata
  import opened Deployments
  import opened Cluster
  import opened ControlPlaneObjects
  import opened ControlPlanePass
  import opened ControlPlaneGoals
  import opened ControlPlaneRuns
  import opened ControlPlaneOwnership
  import opened ControlPlaneConclusion
  import opened ControlPlaneRunning
  import opened ControlPlaneConvergence

  /** Until a pass has seen everything it has in memory that provisioning is not done. */
  predicate Cautious(p: Proc) {
    match p.pc
    case ListKind(kind) => IsStage(kind) && SaysNotProvisioned(p.cp.conditions)
    case GetAuthority(_) => SaysNotProvisioned(p.cp.conditions)
    case CreateOwned(_, _) => SaysNotProvisioned(p.cp.conditions)
    case UpdateOwned(_, _) => SaysNotProvisioned(p.cp.conditions)
    case GetStatus(retry) => retry || SaysNotProvisioned(p.cp.conditions)
    case PutStatus(retry) => retry || SaysNotProvisioned(p.cp.conditions)
    case _ => true
  }

  /** The pass is about to conclude. */
  predicate Concluding(pc: Pc) {
    (pc.GetStatus? && pc.retry) || (pc.PutStatus? && pc.retry)
  }

  /** A Deployment of the ControlPlane is as wanted, has replicas, and all of them are
      available. */
  ghost predicate ServesWanted(s: State, cp: ControlPlane) {
    exists r ::
      && Belongs(s, r, cp.meta.uid) && IsWanted(s, r, cp)
      && var status := s.objects[r].body.status;
         status.replicas != 0 && status.replicas <= status.available
  }

  // ---------------------------------------------------------------------------
  // Steps
  // ---------------------------------------------------------------------------

  lemma AfterServiceCautious(p: Proc, service: string, now: int)
    ensures Cautious(AfterService(p, service, now)) && !Concluding(AfterService(p, service, now).pc)
  {
    hide WithDataPlaneStatus, SaysNotProvisioned;
    var defaulted := ControlPlaneEnv.Defaulted(p.cp.env, p.cp.meta.namespace, service, {});
    AfterEnvironmentCautious(p, p.cp.(env := defaulted), now);
  }

  lemma AfterEnvironmentCautious(p: Proc, cp: ControlPlane, now: int)
    ensures Cautious(AfterEnvironment(p, cp, now)) && !Concluding(AfterEnvironment(p, cp, now).pc)
  {
    hide WithDataPlaneStatus;
    MarkingSaysNo(cp.conditions, DataPlaneIsSet(cp), now);
  }

  lemma AfterGetCautious(p: Proc, cp: ControlPlane, now: int)
    ensures Cautious(AfterGet(p, cp, now)) && !Concluding(AfterGet(p, cp, now).pc)
  {
    hide AfterService, WithScheduled;
    var reset := WithReadyReset(cp.conditions, now);
    MarkingSaysNo(reset, false, now);
    AfterServiceCautious(p.(cp := cp.(conditions := reset)), "", now);
  }

  /** A pass comes to its conclusion only past a Deployment that is as wanted and serves. */
  lemma AfterListServes(cfg: Config, s: State, p: Proc, kind: Kind, now: int)
    requires p.pc == ListKind(kind) && Cautious(p)
    ensures var next := AfterList(cfg, s, p, kind, Owned(s, kind, p.cp), now);
            Cautious(next) && (Concluding(next.pc) ==> kind == Deployments && ServesWanted(s, next.cp))
  {
    hide ObjectNeedsRepair, RepairedObject, Owned, Belongs, WithProvisioned, Settled, GeneratedMeta;
    hide SaysNotProvisioned;
    var items := Owned(s, kind, p.cp);
    var next := AfterList(cfg, s, p, kind, items, now);
    if Concluding(next.pc) {
      assert items[0] in items;
      ListedBelongs(s, p.cp, kind, items[0]);
      UnrepairedIsWanted(cfg, s.objects[items[0]], p.cp, p.names);
      assert IsWanted(s, items[0], next.cp);
    }
  }

  /** Listing the Deployments leads to the conclusion exactly if there is one, it needs no
      repair, and it has replicas all of which are available. */
  lemma ListConcludes(cfg: Config, key: Key, s: State, p: Proc, ch: Choice)
    requires p.pc == ListKind(Deployments) && ch.fault == Served
    ensures Step(cfg, key, World(s, p), ch).proc.pc == GetStatus(true) <==>
            && KindSettled(cfg, s, p.cp, Deployments)
            && var body := SettledBody(cfg, s, p.cp, Deployments);
               body.Workload? && body.status.replicas != 0 && body.status.replicas <= body.status.available
  {
    hide ObjectNeedsRepair, RepairedObject, Owned, GeneratedBody, GeneratedMeta, WithProvisioned;
    var items := Owned(s, Deployments, p.cp);
    if |items| == 1 && items[0] in s.objects {
      RepairIgnoresNames(cfg, s.objects[items[0]], p.cp, Deployments, p.names);
    }
  }

  lemma StepServes(cfg: Config, key: Key, w: World, ch: Choice)
    requires Cautious(w.proc)
    ensures var p' := Step(cfg, key, w, ch).proc;
            && Cautious(p')
            && (Concluding(p'.pc) ==>
                  if Concluding(w.proc.pc) then p'.cp == w.proc.cp
                  else w.proc.pc == ListKind(Deployments) && ServesWanted(w.state, p'.cp))
  {
    hide AfterService, AfterEnvironment, AfterGet, AfterList, Owned, NeedsUpdate, UpdateControlPlane;
    hide Cluster.UpdateStatus, CreateObject, UpdateObject, DeleteObject, SaysNotProvisioned, Without, ServesWanted;
    var s, p := w.state, w.proc;
    match p.pc
    case GetControlPlane =>
      if key in s.controlPlanes {
        AfterGetCautious(p, s.controlPlanes[key], ch.now);
      }
    case ListServices(uid) =>
      var services := ListOwned(s, Services, Some(p.cp.meta.namespace), DATA_PLANE_VALUE, uid);
      if |services| == 1 {
        AfterServiceCautious(p, services[0].name, ch.now);
      }
    case ListKind(kind) => AfterListServes(cfg, s, p, kind, ch.now);
    case PutEnvironment =>
      var reply := UpdateControlPlane(s, key, p.cp);
      if reply.Accepted? {
        AfterEnvironmentCautious(p, reply.value, ch.now);
      }
    case _ =>
  }

  // ---------------------------------------------------------------------------
  // Runs
  // ---------------------------------------------------------------------------

  /** At `j`, in the very pass that is in flight at `i`, a worker listed the Deployments,
      and one of its ControlPlane was as wanted and served. */
  ghost predicate ServedAt(run: seq<System>, events: seq<Event>, j: int, i: nat, key: Key, cp: ControlPlane)
    requires i < |run| == |events| + 1
  {
    && 0 <= j < i && ServesWanted(run[j].state, cp)
    && key in run[j].workers && run[j].workers[key].pc == ListKind(Deployments)
    && forall m | j <= m < i :: events[m] != Begin(key)
  }

  lemma {:induction false} RunsAreCautious(cfg: Config, run: seq<System>, events: seq<Event>, i: nat, key: Key)
    requires IsRun(cfg, run, events) && i < |run| && key in run[i].workers
    ensures Cautious(run[i].workers[key])
    ensures Concluding(run[i].workers[key].pc) ==> exists j :: ServedAt(run, events, j, i, key, run[i].workers[key].cp)
  {
    hide Step, Environment, ServesWanted, SaysNotProvisioned, Cautious;
    assert i > 0;
    var before, e := run[i - 1], events[i - 1];
    assert Next(cfg, before, e, run[i]) by {
      assert run[i - 1 + 1] == run[i];
    }
    if e == Begin(key) {
      StartIsCautious();
    } else {
      RunsAreCautious(cfg, run, events, i - 1, key);
      var p, p' := before.workers[key], run[i].workers[key];
      if e.Call? && e.worker == key {
        StepServes(cfg, key, World(before.state, p), e.choice);
      }
      if Concluding(p'.pc) {
        if Concluding(p.pc) {
          var j :| ServedAt(run, events, j, i - 1, key, p.cp);
          assert ServedAt(run, events, j, i, key, p'.cp);
        } else {
          assert ServedAt(run, events, i - 1, i, key, p'.cp);
        }
      }
    }
  }

  lemma StartIsCautious()
    ensures Cautious(Start()) && !Concluding(Start().pc)
  {
  }

  /** In every run, whenever a worker is about to write a status that says anything but
      "not provisioned", it saw in this pass a Deployment of its ControlPlane that was as
      its copy wants it and served. */
  lemma ConclusionsWereServed(cfg: Config, run: seq<System>, events: seq<Event>, i: nat, key: Key)
    requires IsRun(cfg, run, events) && i < |run|
    requires key in run[i].workers && run[i].workers[key].pc.PutStatus?
    requires !SaysNotProvisioned(run[i].workers[key].cp.conditions)
    ensures exists j :: ServedAt(run, events, j, i, key, run[i].workers[key].cp)
  {
    hide ServedAt, Next, Initial, SaysNotProvisioned;
    RunsAreCautious(cfg, run, events, i, key);
  }

  lemma DetachedServesNothing(s: State, cp: ControlPlane)
    requires ScaledDown(s) && !DataPlaneIsSet(cp)
    ensures !ServesWanted(s, cp)
  {
    hide Belongs;
  }

  /** In every run in which Deployments without wanted replicas report none, whatever a
      worker is about to write without a DataPlane says "not provisioned". */
  lemma NeverConcludesDetached(cfg: Config, run: seq<System>, events: seq<Event>, i: nat, key: Key)
    requires IsRun(cfg, run, events) && i < |run|
    requires forall j | 0 <= j < i :: ScaledDown(run[j].state)
    requires key in run[i].workers && run[i].workers[key].pc.PutStatus?
    requires !DataPlaneIsSet(run[i].workers[key].cp)
    ensures SaysNotProvisioned(run[i].workers[key].cp.conditions)
  {
    hide ScaledDown, ServesWanted, Next, Initial, SaysNotProvisioned;
    if !SaysNotProvisioned(run[i].workers[key].cp.conditions) {
      ConclusionsWereServed(cfg, run, events, i, key);
      var j :| ServedAt(run, events, j, i, key, run[i].workers[key].cp);
      DetachedServesNothing(run[j].state, run[i].workers[key].cp);
    }
  }
}
