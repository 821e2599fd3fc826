/** What becomes of the image of a Deployment and of the names by which it refers to
    other objects: they are given to it when it is made, and then left alone. */
module ControlPlaneRollout {
  import opened Wrappers
  import opened ControlPlaneEnv
  import opened Conditions
  import opened Metadata
  import opened Deployments
  import opened Cluster
  import opened ControlPlaneObjects
  import opened ControlPlanePass
  import opened ControlPlaneGoals
  import opened ControlPlaneStages
  import opened ControlPlaneRuns
  import opened ControlPlaneOwnership
  import opened ControlPlaneWiring
  import opened ControlPlaneConvergence

  /** The image that the main container runs. */
  function ImageOf(body: Body): Option<string> {
    if body.Workload? && HasMain(body.spec.containers) then Some(Main(body.spec).image) else None
  }

  /** Is on the owner lists of the ControlPlane with this UID. */
  predicate Found(o: Object, uid: Uid) {
    Carries(o.meta, CONTROLLED_LABEL, CONTROL_PLANE_VALUE) && OwnedBy(o.meta, uid)
  }

  /** The same identity, and the same image asked for. */
  predicate Like(a: ControlPlane, b: ControlPlane) {
    && a.image == b.image && a.version == b.version
    && a.meta.uid == b.meta.uid && a.meta.namespace == b.meta.namespace
  }

  /** The names stay, and so do the rules, and so does the image, unless there was no main
      container. */
  predicate Kept(before: Object, after: Object, cp: ControlPlane) {
    && WiresOf(after.body) == WiresOf(before.body)
    && (before.body.Workload? || after.body == before.body)
    && (|| ImageOf(after.body) == ImageOf(before.body)
        || (ImageOf(before.body) == None && ImageOf(after.body) == Some(ControllerImage(cp))))
    && (Found(after, cp.meta.uid) <==> Found(before, cp.meta.uid))
  }

  /** A Deployment runs the image that is asked for, a role has the rules for it. */
  predicate AsAsked(cfg: Config, kind: Kind, body: Body, cp: ControlPlane) {
    && (kind == Deployments ==> ImageOf(body) == Some(ControllerImage(cp)))
    && (kind == ClusterRoles ==> GeneratedBody(cfg, kind, cp, NONAMES) == Some(body))
  }

  /** Nothing goes that is not cluster-wide, what stays is kept, and what is new is as
      asked for. */
  ghost predicate Rolls(cfg: Config, s: State, s': State, cp: ControlPlane) {
    && (forall r: Ref | !ClusterWide(r.kind) && r in s.objects :: r in s'.objects)
    && (forall r: Ref | r in s.objects && r in s'.objects :: Kept(s.objects[r], s'.objects[r], cp))
    && (forall r: Ref | r in s'.objects && r !in s.objects :: AsAsked(cfg, r.kind, s'.objects[r].body, cp))
  }

  /** What a worker is about to store keeps what is there, if it is still the same. */
  predicate Careful(cfg: Config, s: State, p: Proc) {
    match p.pc
    case GetAuthority(secret) => AsAsked(cfg, Secrets, secret.body, p.cp)
    case CreateOwned(kind, o) => AsAsked(cfg, kind, o.body, p.cp)
    case UpdateOwned(r, o) =>
      r in s.objects && s.objects[r].meta.revision == o.meta.revision ==> Kept(s.objects[r], o, p.cp)
    case DeleteBindings(todo, _) => forall r | r in todo :: r.kind == ClusterRoleBindings
    case DeleteRoles(todo, _) => forall r | r in todo :: r.kind == ClusterRoles
    case _ => true
  }

  // ---------------------------------------------------------------------------
  // Steps
  // ---------------------------------------------------------------------------

  lemma RepairKeepsImage(existing: DeploymentSpec, cp: ControlPlane, names: Names)
    ensures var generated := GeneratedWorkload(cp, names);
            && HasMain(generated.containers)
            && var repaired := RepairedSpec(existing, generated, cp.env, cp.envFrom, DataPlaneIsSet(cp));
               && HasMain(repaired.containers)
               && Main(repaired).image == if HasMain(existing.containers) then Main(existing).image
                                          else ControllerImage(cp)
  {
    var generated := GeneratedWorkload(cp, names);
    assert generated.containers[0].name == MAIN_CONTAINER;
    MainIndexIsFirst(generated.containers, 0);
    var containers := if HasMain(existing.containers) then existing.containers else generated.containers;
    var repaired := RepairedSpec(existing, generated, cp.env, cp.envFrom, DataPlaneIsSet(cp));
    MainIndexIsFirst(repaired.containers, MainIndex(containers));
  }

  lemma RepairKeeps(cfg: Config, existing: Object, kind: Kind, cp: ControlPlane, names: Names)
    requires Generated(cfg, kind, cp, names).Some? && Found(existing, cp.meta.uid)
    ensures Kept(existing, RepairedObject(existing, Generated(cfg, kind, cp, names).value, cp), cp)
  {
    var generated := Generated(cfg, kind, cp, names).value;
    assert generated.meta.owners[0] == OwnerOf(cp);
    if existing.body.Workload? && generated.body.Workload? {
      RepairKeepsImage(existing.body.spec, cp, names);
    }
  }

  lemma GeneratedIsAsAsked(cfg: Config, kind: Kind, cp: ControlPlane, names: Names)
    requires Generated(cfg, kind, cp, names).Some?
    ensures AsAsked(cfg, kind, Generated(cfg, kind, cp, names).value.body, cp)
  {
    if kind == Deployments {
      var containers := GeneratedWorkload(cp, names).containers;
      assert containers[0].name == MAIN_CONTAINER;
      MainIndexIsFirst(containers, 0);
    }
  }

  lemma ListedIsFound(s: State, cp: ControlPlane, kind: Kind, r: Ref)
    requires r in Owned(s, kind, cp)
    ensures r.kind == kind && r in s.objects && Found(s.objects[r], cp.meta.uid)
  {
    ListOwnedIsOwnedRefs(s, kind, Scope(kind, cp.meta.namespace), CONTROL_PLANE_VALUE, cp.meta.uid);
  }

  lemma AfterListCareful(cfg: Config, s: State, p: Proc, kind: Kind, now: int)
    ensures Careful(cfg, s, AfterList(cfg, s, p, kind, Owned(s, kind, p.cp), now))
  {
    hide ObjectNeedsRepair, RepairedObject, Owned, Generated, Kept, AsAsked, WithProvisioned, Found;
    var items := Owned(s, kind, p.cp);
    var generated := Generated(cfg, kind, p.cp, p.names);
    if |items| == 1 && generated.Some? {
      assert items[0] in items;
      ListedIsFound(s, p.cp, kind, items[0]);
      RepairKeeps(cfg, s.objects[items[0]], kind, p.cp, p.names);
    } else if |items| == 0 && generated.Some? {
      GeneratedIsAsAsked(cfg, kind, p.cp, p.names);
    }
  }

  lemma LeftCareful(cfg: Config, s: State, p: Proc, todo: seq<Ref>, failed: bool)
    ensures (forall r | r in todo :: r.kind == ClusterRoleBindings) ==> Careful(cfg, s, BindingsLeft(p, todo, failed))
    ensures (forall r | r in todo :: r.kind == ClusterRoles) ==> Careful(cfg, s, RolesLeft(p, todo, failed))
  {
    hide Without;
  }

  lemma ServiceCareful(cfg: Config, s: State, p: Proc, service: string, now: int)
    ensures Careful(cfg, s, AfterService(p, service, now))
  {
  }

  lemma GetCareful(cfg: Config, s: State, p: Proc, cp: ControlPlane, now: int)
    ensures Careful(cfg, s, AfterGet(p, cp, now))
  {
    hide AfterService;
    ServiceCareful(cfg, s, p.(cp := cp.(conditions := WithReadyReset(cp.conditions, now))), "", now);
  }

  lemma ReadCareful(cfg: Config, key: Key, s: State, p: Proc, now: int)
    requires Careful(cfg, s, p)
    ensures Careful(cfg, s, ReadStep(cfg, key, s, p, now))
  {
    hide AfterService, AfterGet, AfterList, BindingsLeft, RolesLeft, Owned, Kept, AsAsked;
    match p.pc
    case GetControlPlane =>
      if key in s.controlPlanes {
        GetCareful(cfg, s, p, s.controlPlanes[key], now);
      }
    case ListBindings =>
      forall r | r in Owned(s, ClusterRoleBindings, p.cp) {
        ListedIsFound(s, p.cp, ClusterRoleBindings, r);
      }
      LeftCareful(cfg, s, p, Owned(s, ClusterRoleBindings, p.cp), false);
    case ListRoles =>
      forall r | r in Owned(s, ClusterRoles, p.cp) {
        ListedIsFound(s, p.cp, ClusterRoles, r);
      }
      LeftCareful(cfg, s, p, Owned(s, ClusterRoles, p.cp), false);
    case ListServices(uid) =>
      var services := ListOwned(s, Services, Some(p.cp.meta.namespace), DATA_PLANE_VALUE, uid);
      if |services| == 1 {
        ServiceCareful(cfg, s, p, services[0].name, now);
      }
    case ListKind(kind) => AfterListCareful(cfg, s, p, kind, now);
    case _ =>
  }

  lemma EnvironmentCareful(cfg: Config, s: State, p: Proc, cp: ControlPlane, now: int)
    ensures Careful(cfg, s, AfterEnvironment(p, cp, now))
  {
  }

  lemma NothingRolls(cfg: Config, s: State, s': State, cp: ControlPlane)
    requires s'.objects == s.objects
    ensures Rolls(cfg, s, s', cp)
  {
  }

  /** A step in which the state rolls and the worker stays careful. */
  ghost predicate StepIsCareful(cfg: Config, w: World, w': World) {
    Careful(cfg, w'.state, w'.proc) && Rolls(cfg, w.state, w'.state, w.proc.cp)
  }

  lemma UntouchedIsKept(s: State, cp: ControlPlane)
    ensures forall r | r in s.objects :: Kept(s.objects[r], s.objects[r], cp)
  {
  }

  lemma CreateRolls(cfg: Config, w: World, ch: Choice)
    requires Careful(cfg, w.state, w.proc) && w.proc.pc.CreateOwned?
    ensures StepIsCareful(cfg, w, CreateStep(w, ch))
  {
    hide Kept, AsAsked;
    UntouchedIsKept(w.state, w.proc.cp);
  }

  lemma UpdateRolls(cfg: Config, w: World, ch: Choice)
    requires Careful(cfg, w.state, w.proc) && w.proc.pc.UpdateOwned?
    ensures StepIsCareful(cfg, w, UpdateStep(w, ch))
  {
    hide ControllerImage;
  }

  lemma DeleteRolls(cfg: Config, w: World, ch: Choice)
    requires Careful(cfg, w.state, w.proc) && (w.proc.pc.DeleteBindings? || w.proc.pc.DeleteRoles?)
    ensures w.proc.pc.DeleteBindings? ==> StepIsCareful(cfg, w, DeleteBindingsStep(w, ch))
    ensures w.proc.pc.DeleteRoles? ==> StepIsCareful(cfg, w, DeleteRolesStep(w, ch))
  {
    hide Kept, AsAsked, BindingsLeft, RolesLeft;
    var s, p := w.state, w.proc;
    UntouchedIsKept(s, p.cp);
    if p.pc.DeleteBindings? && p.pc.bindings != [] {
      LeftCareful(cfg, DeleteBindingsStep(w, ch).state, p, p.pc.bindings[1..],
                  DeleteFailed(s, p.pc.bindings[0], ch.fault, p.pc.failed));
    } else if p.pc.DeleteRoles? && p.pc.roles != [] {
      LeftCareful(cfg, DeleteRolesStep(w, ch).state, p, p.pc.roles[1..],
                  DeleteFailed(s, p.pc.roles[0], ch.fault, p.pc.failed));
    }
  }

  lemma PutRolls(cfg: Config, key: Key, w: World, ch: Choice)
    ensures w.proc.pc.PutControlPlane? ==> StepIsCareful(cfg, w, PutControlPlaneStep(key, w, ch))
    ensures w.proc.pc.PutStatus? ==> StepIsCareful(cfg, w, PutStatusStep(key, w, ch))
    ensures w.proc.pc.PutEnvironment? ==> StepIsCareful(cfg, w, PutEnvironmentStep(key, w, ch))
  {
    hide AfterEnvironment, UpdateControlPlane, Cluster.UpdateStatus, Rolls;
    ControlPlaneWrites(key, w, ch);
    if w.proc.pc.PutControlPlane? {
      NothingRolls(cfg, w.state, PutControlPlaneStep(key, w, ch).state, w.proc.cp);
    } else if w.proc.pc.PutStatus? {
      NothingRolls(cfg, w.state, PutStatusStep(key, w, ch).state, w.proc.cp);
    } else if w.proc.pc.PutEnvironment? {
      NothingRolls(cfg, w.state, PutEnvironmentStep(key, w, ch).state, w.proc.cp);
      var reply := UpdateControlPlane(w.state, key, w.proc.cp);
      if reply.Accepted? {
        EnvironmentCareful(cfg, PutEnvironmentStep(key, w, ch).state, w.proc, reply.value, ch.now);
      }
    }
  }

  /** Every call leaves the images and names of existing Deployments alone. */
  lemma StepRolls(cfg: Config, key: Key, w: World, ch: Choice)
    requires Careful(cfg, w.state, w.proc)
    ensures StepIsCareful(cfg, w, Step(cfg, key, w, ch))
  {
    hide ReadStep, NeedsUpdate, PutControlPlaneStep, PutEnvironmentStep, PutStatusStep, CreateStep, UpdateStep;
    hide DeleteBindingsStep, DeleteRolesStep, ControllerImage, Rolls;
    NothingRolls(cfg, w.state, w.state, w.proc.cp);
    match w.proc.pc
    case PutControlPlane(_) => PutRolls(cfg, key, w, ch);
    case PutEnvironment => PutRolls(cfg, key, w, ch);
    case PutStatus(_) => PutRolls(cfg, key, w, ch);
    case DeleteBindings(_, _) => DeleteRolls(cfg, w, ch);
    case DeleteRoles(_, _) => DeleteRolls(cfg, w, ch);
    case CreateOwned(_, _) => CreateRolls(cfg, w, ch);
    case UpdateOwned(_, _) => UpdateRolls(cfg, w, ch);
    case GetStatus(_) =>
    case Done(_) =>
    case _ => ReadCareful(cfg, key, w.state, w.proc, ch.now);
  }

  // ---------------------------------------------------------------------------
  // Runs
  // ---------------------------------------------------------------------------

  lemma CarefulStable(cfg: Config, s: State, s': State, key: Key, p: Proc)
    requires ProcInv(s, key, p) && Careful(cfg, s, p) && Tolerable(s, s', key, p.cp.meta.uid)
    ensures Careful(cfg, s', p)
  {
    hide Identified, Secured, SafeToPut, Kept, AsAsked, WellGenerated, Belongs;
  }

  lemma {:induction false} RunsAreCareful(cfg: Config, run: seq<System>, events: seq<Event>, i: nat)
    requires IsRun(cfg, run, events) && i < |run|
    ensures forall k | k in run[i].workers :: Careful(cfg, run[i].state, run[i].workers[k])
  {
    hide Step, Environment, StateInv, ProcInv, Careful, Tolerable, Identified, Rolls;
    if i > 0 {
      var sys, e, sys' := run[i - 1], events[i - 1], run[i];
      RunsAreCareful(cfg, run, events, i - 1);
      RunsKeepInv(cfg, run, events, i - 1);
      assert Next(cfg, sys, e, sys') by {
        assert run[i - 1 + 1] == run[i];
      }
      forall k | k in sys'.workers
        ensures Careful(cfg, sys'.state, sys'.workers[k])
      {
        match e
        case Others => OthersStayCareful(cfg, sys.state, sys'.state, k, sys.workers[k]);
        case Begin(key) =>
          if k == key {
            StartCareful(cfg, sys'.state);
          }
        case Call(key, ch) =>
          var w := World(sys.state, sys.workers[key]);
          if k == key {
            StepRolls(cfg, key, w, ch);
          } else {
            StepKeepsInv(cfg, key, w, ch);
            CallStaysCareful(cfg, sys.state, sys'.state, key, k, sys.workers[k]);
          }
      }
    }
  }

  lemma StartCareful(cfg: Config, s: State)
    ensures Careful(cfg, s, Start())
  {
  }

  lemma OthersStayCareful(cfg: Config, s: State, s': State, k: Key, p: Proc)
    requires StateInv(s) && Environment(s, s') && ProcInv(s, k, p) && Careful(cfg, s, p)
    ensures Careful(cfg, s', p)
  {
    hide Environment, StateInv, Tolerable, Kept, AsAsked, Identified, PcInv;
    if !p.pc.Done? && !p.pc.GetControlPlane? {
      EnvironmentTolerable(s, s', k, p.cp);
      CarefulStable(cfg, s, s', k, p);
    }
  }

  lemma CallStaysCareful(cfg: Config, s: State, s': State, key: Key, k: Key, p: Proc)
    requires Courteous(s, s', key) && k != key && ProcInv(s, k, p) && Careful(cfg, s, p)
    ensures Careful(cfg, s', p)
  {
    hide Tolerable, Kept, AsAsked, Identified, PcInv;
    if !p.pc.Done? && !p.pc.GetControlPlane? {
      assert Tolerable(s, s', k, p.cp.meta.uid);
      CarefulStable(cfg, s, s', k, p);
    }
  }

  /** In every run, no call of a worker changes the image of a Deployment's main container,
      the rules of a role, or the names by which an object refers to others: they are what
      was asked for when the object was made, and a new image comes in only where there is
      no main container. */
  lemma NothingIsRolledOut(cfg: Config, run: seq<System>, events: seq<Event>, i: nat)
    requires IsRun(cfg, run, events) && i < |events| && events[i].Call?
    ensures events[i].worker in run[i].workers
    ensures Rolls(cfg, run[i].state, run[i + 1].state, run[i].workers[events[i].worker].cp)
  {
    hide Step, Rolls, ControllerImage, Careful;
    RunsAreCareful(cfg, run, events, i);
    var key := events[i].worker;
    assert Next(cfg, run[i], events[i], run[i + 1]);
    StepRolls(cfg, key, World(run[i].state, run[i].workers[key]), events[i].choice);
  }
}
