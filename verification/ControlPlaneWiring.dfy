/** How the objects of a ControlPlane refer to each other, over all runs in which
    nobody else takes them away or rewires them. */
module ControlPlaneWiring {
  import opened Wrappers
  import opened Conditions
  import opened Metadata
  import opened Cluster
  import opened ControlPlaneObjects
  import opened ControlPlanePass
  import opened ControlPlaneRuns
  import opened ControlPlaneOwnership

  /** The names by which an object refers to others. */
  datatype Wires =
    | NoWires
    | BindingWires(role: string, account: string, accountNamespace: string)
    | WorkloadWires(serviceAccount: string, certificate: string)

  function WiresOf(body: Body): Wires {
    match body
    case Binding(role, account, namespace) => BindingWires(role, account, namespace)
    case Workload(spec, _) => WorkloadWires(spec.serviceAccount, spec.certificate)
    case _ => NoWires
  }

  function RefIn(kind: Kind, namespace: string, name: string): Ref {
    Ref(kind, if ClusterWide(kind) then "" else namespace, name)
  }

  /** Every name leads to an object of the same ControlPlane. */
  ghost predicate Connected(s: State, kind: Kind, wires: Wires, uid: Uid, namespace: string) {
    && (kind == ClusterRoleBindings && wires.BindingWires? ==>
          && wires.accountNamespace == namespace
          && Belongs(s, RefIn(ClusterRoles, namespace, wires.role), uid)
          && Belongs(s, RefIn(ServiceAccounts, namespace, wires.account), uid))
    && (kind == Deployments && wires.WorkloadWires? ==>
          && Belongs(s, RefIn(ServiceAccounts, namespace, wires.serviceAccount), uid)
          && Belongs(s, RefIn(Secrets, namespace, wires.certificate), uid))
  }

  ghost predicate Wired(s: State) {
    forall k, r | k in s.controlPlanes && Belongs(s, r, s.controlPlanes[k].meta.uid) ::
      Connected(s, r.kind, WiresOf(s.objects[r].body), s.controlPlanes[k].meta.uid, k.namespace)
  }

  /** The names that a pass has collected lead to objects of its ControlPlane. */
  ghost predicate WiresReady(s: State, p: Proc) {
    var uid, namespace := p.cp.meta.uid, p.cp.meta.namespace;
    var account := Belongs(s, RefIn(ServiceAccounts, namespace, p.names.account), uid);
    match p.pc
    case ListKind(kind) =>
      && (kind != ServiceAccounts ==> account)
      && (kind == ClusterRoleBindings ==> Belongs(s, RefIn(ClusterRoles, namespace, p.names.role), uid))
      && (kind == Deployments ==> Belongs(s, RefIn(Secrets, namespace, p.names.certificate), uid))
    case GetAuthority(secret) => secret.body == Plain
    case CreateOwned(kind, o) => Connected(s, kind, WiresOf(o.body), uid, namespace)
    case UpdateOwned(r, o) =>
      r in s.objects && s.objects[r].meta.revision == o.meta.revision ==>
        WiresOf(o.body) == WiresOf(s.objects[r].body)
    case _ => true
  }

  ghost predicate WiringInv(cfg: Config, sys: System) {
    && OwnershipInv(cfg, sys) && Aimed(sys) && Wired(sys.state)
    && forall k | k in sys.workers :: WiresReady(sys.state, sys.workers[k])
  }

  /** The objects of stored ControlPlanes stay, with their mark and their wires. */
  ghost predicate Undisturbing(s: State, s': State) {
    forall k, r | k in s.controlPlanes && k in s'.controlPlanes
                  && s.controlPlanes[k].meta.uid == s'.controlPlanes[k].meta.uid
                  && Belongs(s, r, s.controlPlanes[k].meta.uid) ::
      StaysAs(s, s', r, s.controlPlanes[k].meta.uid)
  }

  ghost predicate StaysAs(s: State, s': State, r: Ref, uid: Uid) {
    Belongs(s, r, uid) ==> Belongs(s', r, uid) && WiresOf(s'.objects[r].body) == WiresOf(s.objects[r].body)
  }

  // ---------------------------------------------------------------------------
  // Stability
  // ---------------------------------------------------------------------------

  lemma ConnectedStable(s: State, s': State, kind: Kind, wires: Wires, uid: Uid, namespace: string)
    requires Connected(s, kind, wires, uid, namespace)
    requires forall r | Belongs(s, r, uid) :: Belongs(s', r, uid)
    ensures Connected(s', kind, wires, uid, namespace)
  {
    hide Belongs;
  }

  /** What a pass has collected stays good while the objects of its ControlPlane do. */
  lemma ReadyStable(s: State, s': State, key: Key, p: Proc)
    requires ProcInv(s, key, p) && WiresReady(s, p) && Tolerable(s, s', key, p.cp.meta.uid)
    requires forall r | Belongs(s, r, p.cp.meta.uid) :: Belongs(s', r, p.cp.meta.uid)
    ensures WiresReady(s', p)
  {
    hide Belongs, SafeToPut, Secured, Identified, WellGenerated;
    if p.pc.CreateOwned? {
      ConnectedStable(s, s', p.pc.newKind, WiresOf(p.pc.created.body), p.cp.meta.uid, p.cp.meta.namespace);
    }
  }

  /** As long as the ControlPlane is stored, its objects stay. */
  lemma StoredThroughout(s: State, s': State, key: Key, uid: Uid)
    requires Undisturbing(s, s') && Holds(s, key, uid, CLEANUP_ROLE) && Holds(s', key, uid, CLEANUP_ROLE)
    ensures forall r | Belongs(s, r, uid) :: Belongs(s', r, uid)
  {
    hide Belongs;
    forall r | Belongs(s, r, uid)
      ensures Belongs(s', r, uid)
    {
      assert StaysAs(s, s', r, s.controlPlanes[key].meta.uid);
    }
  }

  // ---------------------------------------------------------------------------
  // Steps
  // ---------------------------------------------------------------------------

  lemma FoundLeads(cfg: Config, s: State, key: Key, cp: ControlPlane, kind: Kind, r: Ref)
    requires Placed(cfg, s) && Identified(s, key, cp) && Secured(s, key, cp) && r in Owned(s, kind, cp)
    ensures r == RefIn(kind, cp.meta.namespace, r.name) && Belongs(s, r, cp.meta.uid)
  {
    ListedBelongs(s, cp, kind, r);
    assert Holds(s, key, cp.meta.uid, CLEANUP_ROLE);
    assert LiesRight(cfg, r, s.objects[r].meta, key.namespace);
  }

  lemma RepairKeepsWires(existing: Object, generated: Object, cp: ControlPlane)
    ensures WiresOf(RepairedObject(existing, generated, cp).body) == WiresOf(existing.body)
    ensures RepairedObject(existing, generated, cp).meta.revision == existing.meta.revision
  {
  }

  lemma GeneratedIsConnected(cfg: Config, s: State, p: Proc, kind: Kind)
    requires p.pc == ListKind(kind) && WiresReady(s, p) && Generated(cfg, kind, p.cp, p.names).Some?
    ensures Connected(s, kind, WiresOf(Generated(cfg, kind, p.cp, p.names).value.body), p.cp.meta.uid,
                      p.cp.meta.namespace)
    ensures kind == Secrets ==> Generated(cfg, kind, p.cp, p.names).value.body == Plain
  {
    hide Belongs, GeneratedMeta;
  }

  lemma AfterListReady(cfg: Config, s: State, key: Key, p: Proc, kind: Kind, now: int)
    requires Placed(cfg, s) && Identified(s, key, p.cp) && Secured(s, key, p.cp)
    requires p.pc == ListKind(kind) && WiresReady(s, p)
    ensures WiresReady(s, AfterList(cfg, s, p, kind, Owned(s, kind, p.cp), now))
  {
    hide ObjectNeedsRepair, Generated, RepairedObject, Owned, Placed, Secured, Identified, Belongs, Connected;
    var items := Owned(s, kind, p.cp);
    if |items| <= 1 && Generated(cfg, kind, p.cp, p.names).Some? {
      GeneratedIsConnected(cfg, s, p, kind);
      if |items| == 1 {
        assert items[0] in items;
        FoundLeads(cfg, s, key, p.cp, kind, items[0]);
        if items[0] in s.objects {
          RepairKeepsWires(s.objects[items[0]], Generated(cfg, kind, p.cp, p.names).value, p.cp);
        }
      }
    }
  }

  lemma ReadReady(cfg: Config, key: Key, s: State, p: Proc, now: int)
    requires StateInv(s) && ProcInv(s, key, p) && Placed(cfg, s) && WiresReady(s, p)
    requires p.pc.GetControlPlane? || p.pc.ListBindings? || p.pc.ListRoles? || p.pc.GetDataPlane?
             || p.pc.ListServices? || p.pc.ListKind? || p.pc.GetAuthority?
    ensures WiresReady(s, ReadStep(cfg, key, s, p, now))
  {
    hide AfterService, AfterList, Owned, Placed, StateInv, Belongs, Connected;
    match p.pc
    case GetControlPlane =>
      if key in s.controlPlanes {
        AfterGetReady(s, p, s.controlPlanes[key], now);
      }
    case ListServices(uid) =>
      var services := ListOwned(s, Services, Some(p.cp.meta.namespace), DATA_PLANE_VALUE, uid);
      if |services| == 1 {
        AfterServiceReady(s, p, services[0].name, now);
      }
    case ListKind(kind) => AfterListReady(cfg, s, key, p, kind, now);
    case GetAuthority(secret) => PlainIsConnected(s, Secrets, p.cp.meta.uid, p.cp.meta.namespace);
    case _ =>
  }

  lemma PlainIsConnected(s: State, kind: Kind, uid: Uid, namespace: string)
    ensures Connected(s, kind, NoWires, uid, namespace)
  {
  }

  lemma AfterServiceReady(s: State, p: Proc, service: string, now: int)
    ensures WiresReady(s, AfterService(p, service, now))
  {
    hide Belongs, Connected;
  }

  lemma AfterGetReady(s: State, p: Proc, cp: ControlPlane, now: int)
    ensures WiresReady(s, AfterGet(p, cp, now))
  {
    hide AfterService, Belongs, Connected;
    var ready := cp.(conditions := WithReadyReset(cp.conditions, now));
    AfterServiceReady(s, p.(cp := ready), "", now);
  }

  lemma OneOwner(s: State, r: Ref, a: Uid, b: Uid)
    requires StateInv(s) && Belongs(s, r, a) && Belongs(s, r, b)
    ensures a == b
  {
    assert WellMarked(s, r);
  }

  /** Storing a connected object under a name of one's own disconnects nothing. */
  lemma StoreKeepsWires(s: State, key: Key, cp: ControlPlane, r: Ref, o: Object, s': State)
    requires StateInv(s) && Wired(s) && Identified(s, key, cp) && WellGenerated(r.kind, o, cp)
    requires Connected(s, r.kind, WiresOf(o.body), cp.meta.uid, cp.meta.namespace)
    requires r in s.objects ==> Belongs(s, r, cp.meta.uid)
    requires s' == s.(revision := s.revision + 1, objects := s.objects[r := o])
    ensures Wired(s') && forall q, uid: Uid | Belongs(s, q, uid) :: Belongs(s', q, uid)
  {
    hide Connected;
    assert o.meta.owners[0] == OwnerOf(cp);
    assert Belongs(s', r, cp.meta.uid);
    forall q, uid: Uid | Belongs(s, q, uid)
      ensures Belongs(s', q, uid)
    {
      if q == r {
        OneOwner(s, r, uid, cp.meta.uid);
      }
    }
    forall k, q | k in s'.controlPlanes && Belongs(s', q, s'.controlPlanes[k].meta.uid)
      ensures Connected(s', q.kind, WiresOf(s'.objects[q].body), s'.controlPlanes[k].meta.uid, k.namespace)
    {
      var uid := s'.controlPlanes[k].meta.uid;
      if q == r {
        assert uid == cp.meta.uid && k == key;
      } else {
        assert Belongs(s, q, uid);
      }
      ConnectedStable(s, s', q.kind, WiresOf(s'.objects[q].body), uid, k.namespace);
    }
  }

  lemma ConnectedWithout(s: State, s': State, kind: Kind, wires: Wires, uid: Uid, namespace: string, r: Ref)
    requires Connected(s, kind, wires, uid, namespace) && s'.objects == s.objects - {r}
    requires r.kind == ClusterRoleBindings
             || (r.kind == ClusterRoles && (kind == ClusterRoleBindings ==> !Belongs(s, r, uid)))
    ensures Connected(s', kind, wires, uid, namespace)
  {
    hide Marked, OwnedBy;
  }

  /** Deleting a binding, or a role that no binding of its owner is left for,
      disconnects nothing. */
  lemma DeleteKeepsWires(s: State, uid: Uid, r: Ref, s': State)
    requires StateInv(s) && Wired(s) && s'.objects == s.objects - {r} && s'.controlPlanes == s.controlPlanes
    requires r.kind == ClusterRoleBindings
             || (r.kind == ClusterRoles && Belongs(s, r, uid) && NoneLeft(s, ClusterRoleBindings, uid))
    ensures Wired(s')
  {
    hide StateInv, Connected, Marked, OwnedBy;
    forall k, q | k in s'.controlPlanes && Belongs(s', q, s'.controlPlanes[k].meta.uid)
      ensures Connected(s', q.kind, WiresOf(s'.objects[q].body), s'.controlPlanes[k].meta.uid, k.namespace)
    {
      var owner := s'.controlPlanes[k].meta.uid;
      assert Belongs(s, q, owner);
      if q.kind == ClusterRoleBindings && r.kind == ClusterRoles && Belongs(s, r, owner) {
        OneOwner(s, r, owner, uid);
      }
      ConnectedWithout(s, s', q.kind, WiresOf(s'.objects[q].body), owner, k.namespace, r);
    }
  }

  /** Changing ControlPlanes disconnects nothing. */
  lemma KeysKeepWires(s: State, key: Key, s': State)
    requires Wired(s) && s'.objects == s.objects && OnlyThisKey(s, s', key)
    ensures Wired(s')
  {
    hide Connected;
    forall k, q | k in s'.controlPlanes && Belongs(s', q, s'.controlPlanes[k].meta.uid)
      ensures Connected(s', q.kind, WiresOf(s'.objects[q].body), s'.controlPlanes[k].meta.uid, k.namespace)
    {
      assert k != key ==> k in s'.controlPlanes - {key};
      assert Belongs(s, q, s'.controlPlanes[k].meta.uid);
      ConnectedStable(s, s', q.kind, WiresOf(s'.objects[q].body), s'.controlPlanes[k].meta.uid, k.namespace);
    }
  }

  ghost predicate DueIsOwn(s: State, p: Proc) {
    forall r | r in Due(p.pc) && r in s.objects :: Belongs(s, r, p.cp.meta.uid)
  }

  lemma CreateKeepsWires(key: Key, w: World, ch: Choice)
    requires StateInv(w.state) && ProcInv(w.state, key, w.proc) && w.proc.pc.CreateOwned?
    requires Wired(w.state) && WiresReady(w.state, w.proc)
    ensures Wired(CreateStep(w, ch).state) && WiresReady(CreateStep(w, ch).state, CreateStep(w, ch).proc)
  {
    hide Wired, StateInv, Connected, Identified, Secured;
    var s, kind, o := w.state, w.proc.pc.newKind, w.proc.pc.created;
    var reply := CreateObject(s, kind, o, ch.suffix);
    if reply.Accepted? {
      StoreKeepsWires(s, key, w.proc.cp, Ref(kind, o.meta.namespace, o.meta.generateName + ch.suffix),
                      reply.value, reply.state);
    }
  }

  lemma UpdateKeepsWires(key: Key, w: World, ch: Choice)
    requires StateInv(w.state) && ProcInv(w.state, key, w.proc) && w.proc.pc.UpdateOwned?
    requires Wired(w.state) && WiresReady(w.state, w.proc)
    ensures Wired(UpdateStep(w, ch).state) && WiresReady(UpdateStep(w, ch).state, UpdateStep(w, ch).proc)
  {
    hide StateInv, Connected;
    var s, r, o, cp := w.state, w.proc.pc.ref, w.proc.pc.updated, w.proc.cp;
    var reply := UpdateObject(s, r, o);
    if reply.Accepted? {
      assert Holds(s, key, cp.meta.uid, CLEANUP_ROLE);
      assert Connected(s, r.kind, WiresOf(s.objects[r].body), cp.meta.uid, key.namespace);
      assert WiresOf(reply.value.body) == WiresOf(s.objects[r].body);
      StoreKeepsWires(s, key, cp, r, reply.value, reply.state);
    }
  }

  lemma DeletionKeepsWires(cfg: Config, key: Key, w: World, ch: Choice)
    requires StateInv(w.state) && ProcInv(w.state, key, w.proc) && (w.proc.pc.DeleteBindings? || w.proc.pc.DeleteRoles?)
    requires CallInv(cfg, w.state, w.proc) && Wired(w.state) && DueIsOwn(w.state, w.proc)
    ensures var w' := Step(cfg, key, w, ch); Wired(w'.state) && WiresReady(w'.state, w'.proc)
  {
    hide Wired, StateInv, Connected, SafeToPut, BindingsLeft, RolesLeft, DeleteObject, WiresReady;
    var due := Due(w.proc.pc);
    var s' := Step(cfg, key, w, ch).state;
    Deletions(w, ch);
    DueReady(s', w.proc, if due == [] then [] else due[1..]);
    if due == [] {
      StoppedReady(s', w.proc);
    } else if s'.objects == w.state.objects {
      KeysKeepWires(w.state, key, s');
    } else {
      assert due[0] in due;
      DeleteKeepsWires(w.state, w.proc.cp.meta.uid, due[0], s');
    }
  }

  lemma DueReady(s: State, p: Proc, todo: seq<Ref>)
    ensures forall failed :: WiresReady(s, BindingsLeft(p, todo, failed)) && WiresReady(s, RolesLeft(p, todo, failed))
  {
    hide Without, Connected;
  }

  lemma StoppedReady(s: State, p: Proc)
    ensures WiresReady(s, Stop(p, Finished))
  {
  }

  lemma StepKeepsWires(cfg: Config, key: Key, w: World, ch: Choice)
    requires StateInv(w.state) && ProcInv(w.state, key, w.proc) && CallInv(cfg, w.state, w.proc) && Placed(cfg, w.state)
    requires Wired(w.state) && WiresReady(w.state, w.proc) && DueIsOwn(w.state, w.proc)
    ensures var w' := Step(cfg, key, w, ch); Wired(w'.state) && WiresReady(w'.state, w'.proc)
  {
    hide ReadStep, Wired, StateInv, Placed, Connected, ProcInv, CallInv, DueIsOwn, NeedsUpdate, UpdateControlPlane;
    hide UpdateStatus, CreateStep, UpdateStep, DeleteBindingsStep, DeleteRolesStep, Belongs;
    match w.proc.pc
    case CreateOwned(_, _) => CreateKeepsWires(key, w, ch);
    case UpdateOwned(_, _) => UpdateKeepsWires(key, w, ch);
    case DeleteBindings(_, _) => DeletionKeepsWires(cfg, key, w, ch);
    case DeleteRoles(_, _) => DeletionKeepsWires(cfg, key, w, ch);
    case PutControlPlane(_) =>
      ControlPlaneWrites(key, w, ch);
      KeysKeepWires(w.state, key, Step(cfg, key, w, ch).state);
    case PutEnvironment =>
      ControlPlaneWrites(key, w, ch);
      KeysKeepWires(w.state, key, Step(cfg, key, w, ch).state);
    case PutStatus(_) =>
      ControlPlaneWrites(key, w, ch);
      KeysKeepWires(w.state, key, Step(cfg, key, w, ch).state);
    case GetStatus(_) =>
    case Done(_) =>
    case _ => ReadReady(cfg, key, w.state, w.proc, ch.now);
  }

  // ---------------------------------------------------------------------------
  // Runs
  // ---------------------------------------------------------------------------

  lemma EnvironmentKeepsWires(s: State, s': State)
    requires StateInv(s) && Wired(s) && Environment(s, s') && Undisturbing(s, s')
    ensures Wired(s')
  {
    hide Connected;
    EnvironmentIsFewer(s, s');
    forall k, q | k in s'.controlPlanes && Belongs(s', q, s'.controlPlanes[k].meta.uid)
      ensures Connected(s', q.kind, WiresOf(s'.objects[q].body), s'.controlPlanes[k].meta.uid, k.namespace)
    {
      var uid := s'.controlPlanes[k].meta.uid;
      MarkedBefore(s.objects[q].meta, s'.objects[q].meta);
      assert WellMarked(s, q);
      assert Belongs(s, q, uid) && uid <= s.revision;
      assert k in s.controlPlanes && s.controlPlanes[k].meta.uid == uid;
      assert StaysAs(s, s', q, uid);
      forall r | Belongs(s, r, uid)
        ensures Belongs(s', r, uid)
      {
        assert StaysAs(s, s', r, uid);
      }
      ConnectedStable(s, s', q.kind, WiresOf(s.objects[q].body), uid, k.namespace);
    }
  }

  predicate Collects(pc: Pc) {
    pc.ListKind? || pc.GetAuthority? || pc.CreateOwned? || pc.UpdateOwned?
  }

  lemma IdleIsReady(s: State, p: Proc)
    requires !Collects(p.pc)
    ensures WiresReady(s, p)
  {
  }

  /** A worker leaves the objects of all other ControlPlanes in place. */
  lemma ForeignObjectsStay(s: State, s': State, key: Key, p: Proc, k: Key, uid: Uid)
    requires StateInv(s) && AtHome(s, s', key, p) && DueIsOwn(s, p)
    requires p.pc.Done? || p.pc.GetControlPlane? ==> s'.objects == s.objects
    requires ProcInv(s, key, p) && Holds(s, k, uid, CLEANUP_ROLE) && k != key
    ensures forall r | Belongs(s, r, uid) :: Belongs(s', r, uid) && s'.objects[r] == s.objects[r]
  {
    hide StateInv, SafeToPut, WellGenerated;
    forall r | Belongs(s, r, uid)
      ensures Belongs(s', r, uid) && s'.objects[r] == s.objects[r]
    {
      if Touched(s, s', r) {
        OneOwner(s, r, p.cp.meta.uid, uid);
      }
    }
  }

  lemma IdleTouchesNothing(cfg: Config, key: Key, w: World, ch: Choice)
    requires w.proc.pc.Done? || w.proc.pc.GetControlPlane?
    ensures Step(cfg, key, w, ch).state == w.state
  {
    hide ReadStep;
  }

  /** The moves of one event, restricted to those that rewire nothing. */
  ghost predicate Peaceful(sys: System, e: Event, sys': System) {
    NoReuse(sys, sys') && (e.Others? ==> Undisturbing(sys.state, sys'.state))
  }

  lemma OthersKeepWiring(cfg: Config, sys: System, sys': System)
    requires WiringInv(cfg, sys) && Next(cfg, sys, Others, sys') && Peaceful(sys, Others, sys')
    ensures Wired(sys'.state)
    ensures forall k | k in sys'.workers :: WiresReady(sys'.state, sys'.workers[k])
  {
    hide Single, Placed, CallInv, Wired, WiresReady, Environment, Undisturbing, StateInv, ProcInv;
    EnvironmentKeepsWires(sys.state, sys'.state);
    forall k | k in sys'.workers
      ensures WiresReady(sys'.state, sys'.workers[k])
    {
      var p := sys.workers[k];
      if Collects(p.pc) {
        CollectingIsIdentified(sys.state, k, p);
        EnvironmentTolerable(sys.state, sys'.state, k, p.cp);
        HeldThroughout(sys.state, sys'.state, k, p.cp.meta.uid);
        StoredThroughout(sys.state, sys'.state, k, p.cp.meta.uid);
        ReadyStable(sys.state, sys'.state, k, p);
      } else {
        IdleIsReady(sys'.state, p);
      }
    }
  }

  lemma CollectingIsIdentified(s: State, k: Key, p: Proc)
    requires ProcInv(s, k, p) && Collects(p.pc)
    ensures Identified(s, k, p.cp) && Holds(s, k, p.cp.meta.uid, CLEANUP_ROLE)
  {
  }

  lemma HeldThroughout(s: State, s': State, key: Key, uid: Uid)
    requires Tolerable(s, s', key, uid) && Holds(s, key, uid, CLEANUP_ROLE)
    ensures Holds(s', key, uid, CLEANUP_ROLE)
  {
  }

  lemma CallKeepsWiring(cfg: Config, sys: System, key: Key, ch: Choice, sys': System)
    requires WiringInv(cfg, sys) && Next(cfg, sys, Call(key, ch), sys')
    ensures Wired(sys'.state)
    ensures forall k | k in sys'.workers :: WiresReady(sys'.state, sys'.workers[k])
  {
    hide Step, Single, Placed, CallInv, Wired, WiresReady, StateInv, ProcInv, AtHome, Tolerable, Identified;
    var w := World(sys.state, sys.workers[key]);
    var s, s' := sys.state, sys'.state;
    assert DueIsOwn(s, w.proc);
    StepKeepsWires(cfg, key, w, ch);
    StepKeepsInv(cfg, key, w, ch);
    StaysHome(cfg, key, w, ch);
    if w.proc.pc.Done? || w.proc.pc.GetControlPlane? {
      IdleTouchesNothing(cfg, key, w, ch);
    }
    forall k | k in sys'.workers && k != key
      ensures WiresReady(s', sys'.workers[k])
    {
      var p := sys.workers[k];
      if Collects(p.pc) {
        CollectingIsIdentified(s, k, p);
        ForeignObjectsStay(s, s', key, w.proc, k, p.cp.meta.uid);
        ReadyStable(s, s', k, p);
      } else {
        IdleIsReady(s', p);
      }
    }
  }

  lemma NextKeepsWiring(cfg: Config, sys: System, e: Event, sys': System)
    requires WiringInv(cfg, sys) && Next(cfg, sys, e, sys') && Peaceful(sys, e, sys')
    ensures WiringInv(cfg, sys')
  {
    hide OwnershipInv, Aimed, Wired, WiresReady, Step, Environment;
    NextKeepsOrder(cfg, sys, e, sys');
    StaysAimed(cfg, sys, e, sys');
    match e
    case Others => OthersKeepWiring(cfg, sys, sys');
    case Begin(key) => IdleIsReady(sys'.state, Start());
    case Call(key, ch) => CallKeepsWiring(cfg, sys, key, ch, sys');
  }

  lemma {:induction false} RunsKeepWiring(cfg: Config, run: seq<System>, events: seq<Event>, i: nat)
    requires IsRun(cfg, run, events) && i < |run|
    requires forall j | 0 <= j < |events| :: Peaceful(run[j], events[j], run[j + 1])
    ensures WiringInv(cfg, run[i])
  {
    hide WiringInv, Next, Peaceful, Initial;
    if i == 0 {
      RunsKeepOrder(cfg, run, events, 0);
      InitialWiring(cfg, run[0]);
    } else {
      RunsKeepWiring(cfg, run, events, i - 1);
      assert run[i - 1 + 1] == run[i];
      NextKeepsWiring(cfg, run[i - 1], events[i - 1], run[i]);
    }
  }

  lemma InitialWiring(cfg: Config, sys: System)
    requires Initial(sys) && OwnershipInv(cfg, sys)
    ensures WiringInv(cfg, sys)
  {
  }

  /** In every state of every peaceful run, every object of a stored ControlPlane that
      refers to others refers to objects of the same ControlPlane. */
  lemma ReferencesLead(cfg: Config, run: seq<System>, events: seq<Event>, i: nat, key: Key, r: Ref)
    requires IsRun(cfg, run, events) && i < |run|
    requires forall j | 0 <= j < |events| :: Peaceful(run[j], events[j], run[j + 1])
    requires key in run[i].state.controlPlanes
    requires Belongs(run[i].state, r, run[i].state.controlPlanes[key].meta.uid)
    ensures var s := run[i].state;
            Connected(s, r.kind, WiresOf(s.objects[r].body), s.controlPlanes[key].meta.uid, key.namespace)
    ensures Single(cfg, run[i].state)
  {
    hide Belongs, Single, Placed, CallInv, WiresReady, Inv, Aimed, Connected, Next, Initial;
    RunsKeepWiring(cfg, run, events, i);
  }

  /** The ServiceAccount and the certificate that a Deployment names exist. */
  lemma DeploymentIsWired(cfg: Config, run: seq<System>, events: seq<Event>, i: nat, key: Key, deployment: Ref)
    requires IsRun(cfg, run, events) && i < |run|
    requires forall j | 0 <= j < |events| :: Peaceful(run[j], events[j], run[j + 1])
    requires key in run[i].state.controlPlanes && deployment.kind == Deployments
    requires Belongs(run[i].state, deployment, run[i].state.controlPlanes[key].meta.uid)
    ensures var s, uid := run[i].state, run[i].state.controlPlanes[key].meta.uid;
            var body := s.objects[deployment].body;
            body.Workload? ==>
              && Belongs(s, Ref(ServiceAccounts, key.namespace, body.spec.serviceAccount), uid)
              && Belongs(s, Ref(Secrets, key.namespace, body.spec.certificate), uid)
  {
    hide Belongs, Single, Next, Initial;
    ReferencesLead(cfg, run, events, i, key, deployment);
  }

  /** The role and the ServiceAccount that a binding names exist. */
  lemma BindingIsWired(cfg: Config, run: seq<System>, events: seq<Event>, i: nat, key: Key, binding: Ref)
    requires IsRun(cfg, run, events) && i < |run|
    requires forall j | 0 <= j < |events| :: Peaceful(run[j], events[j], run[j + 1])
    requires key in run[i].state.controlPlanes && binding.kind == ClusterRoleBindings
    requires Belongs(run[i].state, binding, run[i].state.controlPlanes[key].meta.uid)
    ensures var s, uid := run[i].state, run[i].state.controlPlanes[key].meta.uid;
            var body := s.objects[binding].body;
            body.Binding? ==>
              && Belongs(s, Ref(ClusterRoles, "", body.role), uid)
              && Belongs(s, Ref(ServiceAccounts, key.namespace, body.account), uid)
              && body.accountNamespace == key.namespace
  {
    hide Belongs, Single, Next, Initial;
    ReferencesLead(cfg, run, events, i, key, binding);
  }

  /** Where both exist, the binding gives its role to the very account that the
      Deployment runs under. */
  lemma Wiring(cfg: Config, run: seq<System>, events: seq<Event>, i: nat, key: Key, deployment: Ref, binding: Ref)
    requires IsRun(cfg, run, events) && i < |run|
    requires forall j | 0 <= j < |events| :: Peaceful(run[j], events[j], run[j + 1])
    requires key in run[i].state.controlPlanes
    requires Belongs(run[i].state, deployment, run[i].state.controlPlanes[key].meta.uid)
    requires Belongs(run[i].state, binding, run[i].state.controlPlanes[key].meta.uid)
    requires deployment.kind == Deployments && binding.kind == ClusterRoleBindings
    ensures var s := run[i].state;
            var workload, bound := s.objects[deployment].body, s.objects[binding].body;
            workload.Workload? && bound.Binding? ==> bound.account == workload.spec.serviceAccount
  {
    hide Belongs, Next, Initial;
    ReferencesLead(cfg, run, events, i, key, deployment);
    ReferencesLead(cfg, run, events, i, key, binding);
  }
}
