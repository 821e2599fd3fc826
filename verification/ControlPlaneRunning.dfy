/** What the container runs when a status that says "provisioned" is written, over all
    runs in which nobody else edits the Deployment. */
module ControlPlaneRunning {
  import opened Wrappers
  import opened EnvVars
  import opened ControlPlaneEnv
  import opened Conditions
  import opened Metadata
  import opened Deployments
  import opened Cluster
  import opened ControlPlaneObjects
  import opened ControlPlanePass
  import opened ControlPlaneGoals
  import opened ControlPlaneRuns
  import opened ControlPlaneOwnership
  import opened ControlPlaneWiring
  import opened ControlPlaneConclusion

  /** The environment follows the DataPlane to some Service of it, or is without one. */
  ghost predicate Published(cp: ControlPlane) {
    exists service :: Follows(cp.env, DataPlaneIsSet(cp), cp.meta.namespace, service)
  }

  /** With a DataPlane the controller is told where to publish this Service and where to
      reach its administration, and without one neither. */
  predicate Publishes(cp: ControlPlane, service: string) {
    if cp.dataPlane.Some? && cp.dataPlane.value != "" then
      && ValueByName(cp.env, "CONTROLLER_PUBLISH_SERVICE") == cp.meta.namespace + "/" + service
      && ValueByName(cp.env, "CONTROLLER_APISIX_ADMIN_URL") ==
         "https://" + service + "." + cp.meta.namespace + ".svc:9444"
    else
      ValueByName(cp.env, "CONTROLLER_PUBLISH_SERVICE") == ValueByName(cp.env, "CONTROLLER_APISIX_ADMIN_URL") == ""
  }

  /** The Deployment is as this ControlPlane wants it. */
  predicate IsWanted(s: State, r: Ref, cp: ControlPlane) {
    && r in s.objects && r.kind == Deployments && s.objects[r].body.Workload?
    && Settled(s.objects[r].body.spec, cp.env, cp.envFrom, DataPlaneIsSet(cp))
  }

  ghost predicate HasWanted(s: State, cp: ControlPlane) {
    exists r :: Belongs(s, r, cp.meta.uid) && IsWanted(s, r, cp)
  }

  ghost predicate Running(s: State, p: Proc) {
    match p.pc
    case ListKind(_) => Published(p.cp)
    case GetStatus(retry) => retry ==> Published(p.cp) && HasWanted(s, p.cp)
    case PutStatus(retry) => retry ==> Published(p.cp) && HasWanted(s, p.cp)
    case _ => true
  }

  /** Nobody edits the Deployments of stored ControlPlanes; their status may move. */
  ghost predicate Unedited(s: State, s': State) {
    forall k, r | k in s.controlPlanes && k in s'.controlPlanes
                  && s.controlPlanes[k].meta.uid == s'.controlPlanes[k].meta.uid
                  && Belongs(s, r, s.controlPlanes[k].meta.uid) && r.kind == Deployments ::
      SameSpec(s, s', r, s.controlPlanes[k].meta.uid)
  }

  ghost predicate SameSpec(s: State, s': State, r: Ref, uid: Uid) {
    Belongs(s, r, uid) && s.objects[r].body.Workload? ==>
      Belongs(s', r, uid) && s'.objects[r].body.Workload? && s'.objects[r].body.spec == s.objects[r].body.spec
  }

  // ---------------------------------------------------------------------------
  // Stability
  // ---------------------------------------------------------------------------

  lemma RunningStable(s: State, s': State, p: Proc)
    requires Running(s, p)
    requires forall r | Belongs(s, r, p.cp.meta.uid) && r.kind == Deployments :: SameSpec(s, s', r, p.cp.meta.uid)
    ensures Running(s', p)
  {
    hide Marked, OwnedBy, Published, Settled;
    if HasWanted(s, p.cp) {
      var r :| Belongs(s, r, p.cp.meta.uid) && IsWanted(s, r, p.cp);
      assert IsWanted(s', r, p.cp);
    }
  }

  lemma UnrestingRuns(s: State, s': State, p: Proc)
    requires Running(s, p) && !Rests(p.pc)
    ensures Running(s', p)
  {
  }

  lemma UneditedThroughout(s: State, s': State, key: Key, uid: Uid)
    requires Unedited(s, s') && Holds(s, key, uid, CLEANUP_ROLE) && Holds(s', key, uid, CLEANUP_ROLE)
    ensures forall r | Belongs(s, r, uid) && r.kind == Deployments :: SameSpec(s, s', r, uid)
  {
    hide Belongs, SameSpec;
    forall r | Belongs(s, r, uid) && r.kind == Deployments
      ensures SameSpec(s, s', r, uid)
    {
      assert Belongs(s, r, s.controlPlanes[key].meta.uid);
    }
  }

  lemma UntouchedIsUnedited(s: State, s': State, uid: Uid)
    requires forall r | Belongs(s, r, uid) :: Belongs(s', r, uid) && s'.objects[r] == s.objects[r]
    ensures forall r | Belongs(s, r, uid) :: SameSpec(s, s', r, uid)
  {
    hide Belongs;
  }

  // ---------------------------------------------------------------------------
  // Steps
  // ---------------------------------------------------------------------------

  lemma AfterServicePublishes(s: State, p: Proc, service: string, now: int)
    ensures Running(s, AfterService(p, service, now))
  {
    hide Defaulted, DefaultsHold, Followed, Follows, WithDataPlaneStatus;
    var next := AfterService(p, service, now);
    if next.pc.ListKind? {
      assert Follows(next.cp.env, DataPlaneIsSet(next.cp), next.cp.meta.namespace, service);
    }
  }

  /** Where the environment is to be written, it is one that follows the DataPlane. */
  ghost predicate WritesPublished(p: Proc) {
    p.pc.PutEnvironment? ==> Published(p.cp)
  }

  lemma AfterServiceWrites(p: Proc, service: string, now: int)
    ensures WritesPublished(AfterService(p, service, now))
  {
    hide Defaulted, DefaultsHold, Followed, Follows, WithDataPlaneStatus;
    var cp := p.cp;
    var defaulted := Defaulted(cp.env, cp.meta.namespace, service, {});
    FollowedSettles(defaulted, DataPlaneIsSet(cp), cp.meta.namespace, service);
    var next := AfterService(p, service, now);
    if next.pc.PutEnvironment? {
      assert Follows(next.cp.env, DataPlaneIsSet(next.cp), next.cp.meta.namespace, service);
    }
  }

  lemma AfterGetPublishes(s: State, p: Proc, cp: ControlPlane, now: int)
    ensures Running(s, AfterGet(p, cp, now)) && WritesPublished(AfterGet(p, cp, now))
  {
    hide AfterService, WithScheduled;
    var reset := WithReadyReset(cp.conditions, now);
    AfterServicePublishes(s, p.(cp := cp.(conditions := reset)), "", now);
    AfterServiceWrites(p.(cp := cp.(conditions := reset)), "", now);
  }

  lemma AfterReplyPublishes(s: State, p: Proc, cp: ControlPlane, now: int)
    requires Published(p.cp) && cp.env == p.cp.env && cp.dataPlane == p.cp.dataPlane
    requires cp.meta.namespace == p.cp.meta.namespace
    ensures Running(s, AfterEnvironment(p, cp, now))
  {
    hide Follows, WithDataPlaneStatus;
    var next := AfterEnvironment(p, cp, now).cp;
    var service :| Follows(p.cp.env, DataPlaneIsSet(p.cp), p.cp.meta.namespace, service);
    assert Follows(next.env, DataPlaneIsSet(next), next.meta.namespace, service);
  }

  lemma UnrepairedIsWanted(cfg: Config, existing: Object, cp: ControlPlane, names: Names)
    requires existing.body.Workload?
    requires !ObjectNeedsRepair(existing, Generated(cfg, Deployments, cp, names).value, cp)
    ensures Settled(existing.body.spec, cp.env, cp.envFrom, DataPlaneIsSet(cp))
  {
    var generated := GeneratedWorkload(cp, names).containers;
    assert generated[0].name == MAIN_CONTAINER;
  }

  lemma AfterListRuns(cfg: Config, s: State, p: Proc, kind: Kind, now: int)
    requires p.pc == ListKind(kind) && IsStage(kind) && Running(s, p)
    ensures Running(s, AfterList(cfg, s, p, kind, Owned(s, kind, p.cp), now))
    ensures WritesPublished(AfterList(cfg, s, p, kind, Owned(s, kind, p.cp), now))
  {
    hide ObjectNeedsRepair, RepairedObject, Owned, Belongs, WithProvisioned, Settled, Follows, GeneratedMeta;
    var items := Owned(s, kind, p.cp);
    var next := AfterList(cfg, s, p, kind, items, now);
    if next.pc.ListKind? || next.pc.GetStatus? {
      var service :| Follows(p.cp.env, DataPlaneIsSet(p.cp), p.cp.meta.namespace, service);
      assert Follows(next.cp.env, DataPlaneIsSet(next.cp), next.cp.meta.namespace, service);
      assert items[0] in items;
      ListedBelongs(s, p.cp, kind, items[0]);
      if next.pc.GetStatus? {
        UnrepairedIsWanted(cfg, s.objects[items[0]], p.cp, p.names);
        assert IsWanted(s, items[0], next.cp);
      }
    }
  }

  lemma StepRuns(cfg: Config, key: Key, w: World, ch: Choice)
    requires ProcInv(w.state, key, w.proc) && StateInv(w.state)
    requires Gathered(w.state, key, w.proc) && Running(w.state, w.proc) && WritesPublished(w.proc)
    ensures Running(Step(cfg, key, w, ch).state, Step(cfg, key, w, ch).proc)
    ensures WritesPublished(Step(cfg, key, w, ch).proc)
  {
    hide AfterService, AfterEnvironment, AfterGet, AfterList, Owned, NeedsUpdate, Cluster.UpdateStatus, Published;
    hide CreateObject, UpdateObject, DeleteObject, Complete, HasKind, HasWanted, SaysNotProvisioned, Without;
    hide StateInv, Follows, WithDataPlaneStatus;
    var s, p := w.state, w.proc;
    match p.pc
    case GetControlPlane =>
      if key in s.controlPlanes {
        AfterGetPublishes(s, p, s.controlPlanes[key], ch.now);
      }
    case ListServices(uid) =>
      var services := ListOwned(s, Services, Some(p.cp.meta.namespace), DATA_PLANE_VALUE, uid);
      if |services| == 1 {
        AfterServicePublishes(s, p, services[0].name, ch.now);
        AfterServiceWrites(p, services[0].name, ch.now);
      }
    case ListKind(kind) => AfterListRuns(cfg, s, p, kind, ch.now);
    case PutEnvironment =>
      var reply := UpdateControlPlane(s, key, p.cp);
      if reply.Accepted? {
        ReplyIsSent(s, key, p.cp);
        AfterReplyPublishes(reply.state, p, reply.value, ch.now);
        AfterEnvironmentLists(p, reply.value, ch.now);
      }
    case _ =>
  }

  lemma AfterEnvironmentLists(p: Proc, cp: ControlPlane, now: int)
    ensures AfterEnvironment(p, cp, now).pc == ListKind(ServiceAccounts)
  {
  }

  lemma ReplyIsSent(s: State, key: Key, cp: ControlPlane)
    requires StateInv(s) && Identified(s, key, cp) && UpdateControlPlane(s, key, cp).Accepted?
    ensures var value := UpdateControlPlane(s, key, cp).value;
            value.env == cp.env && value.dataPlane == cp.dataPlane && value.meta.namespace == cp.meta.namespace
  {
  }

  // ---------------------------------------------------------------------------
  // Runs
  // ---------------------------------------------------------------------------

  /** Every worker is where it should be, what it is about to write included. */
  ghost predicate AllRun(sys: System) {
    forall k | k in sys.workers :: Running(sys.state, sys.workers[k]) && WritesPublished(sys.workers[k])
  }

  lemma OthersKeepRunning(cfg: Config, sys: System, sys': System)
    requires ConclusionInv(cfg, sys) && AllRun(sys) && Next(cfg, sys, Others, sys')
    requires Unedited(sys.state, sys'.state)
    ensures AllRun(sys')
  {
    hide Single, Placed, CallInv, Wired, WiresReady, Environment, Unedited, StateInv, ProcInv, Gathered, Identified;
    hide Secured, Tolerable, Running, WritesPublished, SameSpec;
    forall k | k in sys'.workers
      ensures Running(sys'.state, sys'.workers[k])
    {
      var p := sys.workers[k];
      if Rests(p.pc) {
        RestingIsSecured(sys.state, k, p);
        EnvironmentTolerable(sys.state, sys'.state, k, p.cp);
        HeldThroughout(sys.state, sys'.state, k, p.cp.meta.uid);
        UneditedThroughout(sys.state, sys'.state, k, p.cp.meta.uid);
        RunningStable(sys.state, sys'.state, p);
      } else {
        UnrestingRuns(sys.state, sys'.state, p);
      }
    }
  }

  lemma CallKeepsRunning(cfg: Config, sys: System, key: Key, ch: Choice, sys': System)
    requires ConclusionInv(cfg, sys) && AllRun(sys) && Next(cfg, sys, Call(key, ch), sys')
    ensures AllRun(sys')
  {
    hide Step, Single, Placed, CallInv, Wired, WiresReady, StateInv, ProcInv, AtHome, Gathered, Secured, Running;
    hide WritesPublished, SameSpec;
    var w := World(sys.state, sys.workers[key]);
    var s, s' := sys.state, sys'.state;
    assert DueIsOwn(s, w.proc);
    StepRuns(cfg, key, w, ch);
    StaysHome(cfg, key, w, ch);
    if w.proc.pc.Done? || w.proc.pc.GetControlPlane? {
      IdleTouchesNothing(cfg, key, w, ch);
    }
    forall k | k in sys'.workers && k != key
      ensures Running(s', sys'.workers[k]) && WritesPublished(sys'.workers[k])
    {
      var p := sys.workers[k];
      if Rests(p.pc) {
        RestingIsSecured(s, k, p);
        ForeignObjectsStay(s, s', key, w.proc, k, p.cp.meta.uid);
        UntouchedIsUnedited(s, s', p.cp.meta.uid);
        RunningStable(s, s', p);
      } else {
        UnrestingRuns(s, s', p);
      }
    }
  }

  /** Peaceful events in which nobody else edits Deployments. */
  ghost predicate HandsOff(sys: System, e: Event, sys': System) {
    Peaceful(sys, e, sys') && (e.Others? ==> Unedited(sys.state, sys'.state))
  }

  lemma NextKeepsRunning(cfg: Config, sys: System, e: Event, sys': System)
    requires ConclusionInv(cfg, sys) && AllRun(sys) && Next(cfg, sys, e, sys') && HandsOff(sys, e, sys')
    ensures AllRun(sys')
  {
    hide ConclusionInv, Step, Environment, Peaceful, Unedited;
    match e
    case Others => OthersKeepRunning(cfg, sys, sys');
    case Begin(key) =>
      hide Running;
      forall k | k in sys'.workers
        ensures Running(sys'.state, sys'.workers[k]) && WritesPublished(sys'.workers[k])
      {
        if k == key {
          StartRuns(sys'.state);
        }
      }
    case Call(key, ch) => CallKeepsRunning(cfg, sys, key, ch, sys');
  }

  lemma StartRuns(s: State)
    ensures Running(s, Start()) && WritesPublished(Start())
  {
  }

  lemma {:induction false} RunsKeepRunning(cfg: Config, run: seq<System>, events: seq<Event>, i: nat)
    requires IsRun(cfg, run, events) && i < |run|
    requires forall j | 0 <= j < |events| :: HandsOff(run[j], events[j], run[j + 1])
    ensures ConclusionInv(cfg, run[i]) && AllRun(run[i])
  {
    hide ConclusionInv, Next, Peaceful, Unedited;
    RunsKeepConclusion(cfg, run, events, i);
    if i > 0 {
      RunsKeepRunning(cfg, run, events, i - 1);
      assert run[i - 1 + 1] == run[i];
      assert HandsOff(run[i - 1], events[i - 1], run[i]);
      NextKeepsRunning(cfg, run[i - 1], events[i - 1], run[i]);
    }
  }

  /** In such runs, whenever a worker is about to write a status that says anything but
      "not provisioned", there is a Deployment of its ControlPlane whose main container
      runs the environment that the pass has in memory. With a DataPlane that
      environment publishes a Service under its namespace, and without one none. */
  lemma ConclusionsRun(cfg: Config, run: seq<System>, events: seq<Event>, i: nat, key: Key)
    requires IsRun(cfg, run, events) && i < |run|
    requires forall j | 0 <= j < |events| :: HandsOff(run[j], events[j], run[j + 1])
    requires key in run[i].workers && run[i].workers[key].pc.PutStatus?
    requires !SaysNotProvisioned(run[i].workers[key].cp.conditions)
    ensures var s, cp := run[i].state, run[i].workers[key].cp;
            && (exists r :: Belongs(s, r, cp.meta.uid) && IsWanted(s, r, cp))
            && (exists service :: Publishes(cp, service))
  {
    hide Belongs, WiringInv, Next, Peaceful, Unedited, HasKind, IsWanted;
    RunsKeepRunning(cfg, run, events, i);
    var s, p := run[i].state, run[i].workers[key];
    assert Gathered(s, key, p) && Running(s, p);
    var service :| Follows(p.cp.env, DataPlaneIsSet(p.cp), p.cp.meta.namespace, service);
    assert Publishes(p.cp, service);
  }
}
