/** Who owns what, over all runs: no ControlPlane ever has two objects of a kind,
    and a worker touches only what belongs to its own ControlPlane. */
module ControlPlaneOwnership {
  import opened Wrappers
  import opened Conditions
  import opened Metadata
  import opened Cluster
  import opened ControlPlaneObjects
  import opened ControlPlanePass
  import opened ControlPlaneRuns

  // ---------------------------------------------------------------------------
  // The invariant
  // ---------------------------------------------------------------------------

  /** What a stage creates of the kind is found again by its listing. */
  predicate Listable(cfg: Config, kind: Kind) {
    kind != Secrets || cfg.secretsLabelled
  }

  ghost predicate Single(cfg: Config, s: State) {
    forall r, q, uid | Belongs(s, r, uid) && Belongs(s, q, uid) && r.kind == q.kind && Listable(cfg, r.kind) :: r == q
  }

  /** Lies in the namespace of the ControlPlane, unless cluster-wide, with the label
      that the listing asks for. */
  predicate LiesRight(cfg: Config, r: Ref, meta: Meta, namespace: string) {
    && r.namespace == (if ClusterWide(r.kind) then "" else namespace)
    && (Listable(cfg, r.kind) ==> Carries(meta, CONTROLLED_LABEL, CONTROL_PLANE_VALUE))
  }

  ghost predicate Placed(cfg: Config, s: State) {
    forall k, r | k in s.controlPlanes && Belongs(s, r, s.controlPlanes[k].meta.uid) ::
      LiesRight(cfg, r, s.objects[r].meta, k.namespace)
  }

  /** A generated object that lies right once stored, the only one of its kind. */
  ghost predicate Newcomer(cfg: Config, s: State, kind: Kind, o: Object, cp: ControlPlane) {
    && LiesRight(cfg, Ref(kind, o.meta.namespace, ""), o.meta, cp.meta.namespace)
    && (Listable(cfg, kind) ==> NoneLeft(s, kind, cp.meta.uid))
  }

  ghost predicate CallInv(cfg: Config, s: State, p: Proc) {
    match p.pc
    case GetAuthority(secret) => Newcomer(cfg, s, Secrets, secret, p.cp)
    case CreateOwned(kind, o) => Newcomer(cfg, s, kind, o, p.cp)
    case UpdateOwned(r, o) => Listable(cfg, r.kind) ==> Carries(o.meta, CONTROLLED_LABEL, CONTROL_PLANE_VALUE)
    case DeleteBindings(todo, _) => forall r | r in todo :: r.kind == ClusterRoleBindings
    case DeleteRoles(todo, _) => forall r | r in todo :: r.kind == ClusterRoles
    case _ => true
  }

  ghost predicate OwnershipInv(cfg: Config, sys: System) {
    && Inv(sys) && Single(cfg, sys.state) && Placed(cfg, sys.state)
    && forall k | k in sys.workers :: CallInv(cfg, sys.state, sys.workers[k])
  }

  // ---------------------------------------------------------------------------
  // Stability
  // ---------------------------------------------------------------------------

  lemma CallStable(cfg: Config, s: State, s': State, key: Key, p: Proc)
    requires CallInv(cfg, s, p) && (p.pc.Done? || p.pc.GetControlPlane? || Tolerable(s, s', key, p.cp.meta.uid))
    ensures CallInv(cfg, s', p)
  {
  }

  /** Objects of a state are among those of another, by what the mark says. */
  ghost predicate Fewer(s: State, s': State) {
    forall r | r in s'.objects && Marked(s'.objects[r].meta) ::
      && r in s.objects && s.objects[r].meta.owners == s'.objects[r].meta.owners
      && (Carries(s.objects[r].meta, CONTROLLED_LABEL, CONTROL_PLANE_VALUE) <==>
          Carries(s'.objects[r].meta, CONTROLLED_LABEL, CONTROL_PLANE_VALUE))
  }

  lemma FewerStaysPlaced(cfg: Config, s: State, s': State)
    requires StateInv(s) && Single(cfg, s) && Placed(cfg, s) && Fewer(s, s')
    requires forall k | k in s'.controlPlanes ::
               || (k in s.controlPlanes && s.controlPlanes[k].meta.uid == s'.controlPlanes[k].meta.uid)
               || s'.controlPlanes[k].meta.uid > s.revision
    ensures Single(cfg, s') && Placed(cfg, s')
  {
    forall r, uid: Uid | Belongs(s', r, uid)
      ensures Belongs(s, r, uid) && uid <= s.revision
      ensures Carries(s.objects[r].meta, CONTROLLED_LABEL, CONTROL_PLANE_VALUE) <==>
              Carries(s'.objects[r].meta, CONTROLLED_LABEL, CONTROL_PLANE_VALUE)
    {
      MarkedBefore(s.objects[r].meta, s'.objects[r].meta);
      assert WellMarked(s, r);
    }
  }

  // ---------------------------------------------------------------------------
  // Steps
  // ---------------------------------------------------------------------------

  lemma NoneListedNoneLeft(cfg: Config, s: State, key: Key, cp: ControlPlane, kind: Kind)
    requires Placed(cfg, s) && Identified(s, key, cp) && Secured(s, key, cp) && Listable(cfg, kind)
    requires Owned(s, kind, cp) == []
    ensures NoneLeft(s, kind, cp.meta.uid)
  {
    var scope := Scope(kind, cp.meta.namespace);
    ListOwnedIsOwnedRefs(s, kind, scope, CONTROL_PLANE_VALUE, cp.meta.uid);
    assert Holds(s, key, cp.meta.uid, CLEANUP_ROLE);
    forall r | Belongs(s, r, cp.meta.uid) && r.kind == kind
      ensures r in OwnedRefs(s, kind, scope, CONTROL_PLANE_VALUE, cp.meta.uid)
    {
      assert LiesRight(cfg, r, s.objects[r].meta, key.namespace);
    }
  }

  lemma GeneratedLiesRight(cfg: Config, kind: Kind, cp: ControlPlane, names: Names, existing: Object)
    requires Generated(cfg, kind, cp, names).Some?
    ensures var o := Generated(cfg, kind, cp, names).value;
            && LiesRight(cfg, Ref(kind, o.meta.namespace, ""), o.meta, cp.meta.namespace)
            && (Listable(cfg, kind) ==>
                  Carries(RepairedObject(existing, o, cp).meta, CONTROLLED_LABEL, CONTROL_PLANE_VALUE))
  {
    hide GeneratedBody, RepairedBody;
  }

  lemma AfterListCalls(cfg: Config, s: State, key: Key, p: Proc, kind: Kind, now: int)
    requires Placed(cfg, s) && Identified(s, key, p.cp) && Secured(s, key, p.cp)
    ensures CallInv(cfg, s, AfterList(cfg, s, p, kind, Owned(s, kind, p.cp), now))
  {
    hide ObjectNeedsRepair, Generated, RepairedObject, Owned, LiesRight, Placed, Secured, Identified;
    var items := Owned(s, kind, p.cp);
    if |items| <= 1 && Generated(cfg, kind, p.cp, p.names).Some? {
      var existing := if |items| == 1 && items[0] in s.objects then s.objects[items[0]] else Object(p.cp.meta, Plain);
      GeneratedLiesRight(cfg, kind, p.cp, p.names, existing);
      if items == [] {
        if Listable(cfg, kind) {
          NoneListedNoneLeft(cfg, s, key, p.cp, kind);
        }
      } else {
        assert items[0] in items;
        ListedBelongs(s, p.cp, kind, items[0]);
      }
    }
  }

  lemma ListedKind(s: State, kind: Kind, cp: ControlPlane)
    ensures forall r | r in Owned(s, kind, cp) :: r.kind == kind
  {
    forall r | r in Owned(s, kind, cp) {
      ListedBelongs(s, cp, kind, r);
    }
  }

  lemma ReadCalls(cfg: Config, key: Key, s: State, p: Proc, now: int)
    requires StateInv(s) && ProcInv(s, key, p) && Placed(cfg, s) && CallInv(cfg, s, p)
    requires p.pc.GetControlPlane? || p.pc.ListBindings? || p.pc.ListRoles? || p.pc.GetDataPlane?
             || p.pc.ListServices? || p.pc.ListKind? || p.pc.GetAuthority?
    ensures CallInv(cfg, s, ReadStep(cfg, key, s, p, now))
  {
    hide AfterService, AfterList, Owned, Placed, StateInv, Newcomer;
    match p.pc
    case GetControlPlane =>
      if key in s.controlPlanes {
        AfterGetCalls(cfg, s, p, s.controlPlanes[key], now);
      }
    case ListBindings => ListedKind(s, ClusterRoleBindings, p.cp);
    case ListRoles => ListedKind(s, ClusterRoles, p.cp);
    case ListServices(uid) =>
      var services := ListOwned(s, Services, Some(p.cp.meta.namespace), DATA_PLANE_VALUE, uid);
      if |services| == 1 {
        AfterServiceCalls(cfg, s, p, services[0].name, now);
      }
    case ListKind(kind) => AfterListCalls(cfg, s, key, p, kind, now);
    case _ =>
  }

  lemma AfterServiceCalls(cfg: Config, s: State, p: Proc, service: string, now: int)
    ensures CallInv(cfg, s, AfterService(p, service, now))
  {
  }

  lemma AfterGetCalls(cfg: Config, s: State, p: Proc, cp: ControlPlane, now: int)
    ensures CallInv(cfg, s, AfterGet(p, cp, now))
  {
    hide AfterService;
    var ready := cp.(conditions := WithReadyReset(cp.conditions, now));
    AfterServiceCalls(cfg, s, p.(cp := ready), "", now);
  }

  /** Storing an object of the ControlPlane that lies right keeps the order. */
  lemma StoreKeepsOrder(cfg: Config, s: State, key: Key, cp: ControlPlane, r: Ref, o: Object, s': State)
    requires Single(cfg, s) && Placed(cfg, s) && Identified(s, key, cp) && WellGenerated(r.kind, o, cp)
    requires LiesRight(cfg, r, o.meta, cp.meta.namespace)
    requires Belongs(s, r, cp.meta.uid) || (Listable(cfg, r.kind) ==> NoneLeft(s, r.kind, cp.meta.uid))
    requires s' == s.(revision := s.revision + 1, objects := s.objects[r := o])
    ensures Single(cfg, s') && Placed(cfg, s')
  {
    hide LiesRight;
    assert o.meta.owners[0] == OwnerOf(cp);
    forall q, uid: Uid | Belongs(s', q, uid)
      ensures if q == r then uid == cp.meta.uid else Belongs(s, q, uid)
    {
    }
    forall k, q | k in s'.controlPlanes && Belongs(s', q, s'.controlPlanes[k].meta.uid)
      ensures LiesRight(cfg, q, s'.objects[q].meta, k.namespace)
    {
      var uid := s'.controlPlanes[k].meta.uid;
      assert if q == r then uid == cp.meta.uid else Belongs(s, q, uid);
      if q == r {
        assert k == key;
      }
    }
  }

  /** What one step of a worker has to establish. */
  ghost predicate StepOrders(cfg: Config, w: World, w': World) {
    Single(cfg, w'.state) && Placed(cfg, w'.state) && CallInv(cfg, w'.state, w'.proc)
  }

  lemma CreateOrders(cfg: Config, key: Key, w: World, ch: Choice)
    requires StateInv(w.state) && ProcInv(w.state, key, w.proc) && w.proc.pc.CreateOwned?
    requires Single(cfg, w.state) && Placed(cfg, w.state) && CallInv(cfg, w.state, w.proc)
    ensures StepOrders(cfg, w, CreateStep(w, ch))
  {
    hide Single, Placed, StateInv, Identified, Secured;
    var s, kind, o := w.state, w.proc.pc.newKind, w.proc.pc.created;
    var reply := CreateObject(s, kind, o, ch.suffix);
    if reply.Accepted? {
      StoreKeepsOrder(cfg, s, key, w.proc.cp, Ref(kind, o.meta.namespace, o.meta.generateName + ch.suffix),
                      reply.value, reply.state);
    }
  }

  lemma UpdateOrders(cfg: Config, key: Key, w: World, ch: Choice)
    requires StateInv(w.state) && ProcInv(w.state, key, w.proc) && w.proc.pc.UpdateOwned?
    requires Single(cfg, w.state) && Placed(cfg, w.state) && CallInv(cfg, w.state, w.proc)
    ensures StepOrders(cfg, w, UpdateStep(w, ch))
  {
    hide Single, StateInv;
    var s, r, o, cp := w.state, w.proc.pc.ref, w.proc.pc.updated, w.proc.cp;
    var reply := UpdateObject(s, r, o);
    if reply.Accepted? {
      assert Holds(s, key, cp.meta.uid, CLEANUP_ROLE);
      assert LiesRight(cfg, r, s.objects[r].meta, key.namespace);
      StoreKeepsOrder(cfg, s, key, cp, r, reply.value, reply.state);
    }
  }

  /** Of the ControlPlanes, at most the one of this key differs, and not its UID. */
  ghost predicate OnlyThisKey(s: State, s': State, key: Key) {
    && s'.controlPlanes - {key} == s.controlPlanes - {key}
    && (key in s'.controlPlanes ==>
          key in s.controlPlanes && s.controlPlanes[key].meta.uid == s'.controlPlanes[key].meta.uid)
  }

  lemma ControlPlaneWrites(key: Key, w: World, ch: Choice)
    ensures w.proc.pc.PutControlPlane? ==>
              var s' := PutControlPlaneStep(key, w, ch).state;
              s'.objects == w.state.objects && OnlyThisKey(w.state, s', key)
    ensures var s' := PutEnvironmentStep(key, w, ch).state;
            s'.objects == w.state.objects && OnlyThisKey(w.state, s', key)
    ensures w.proc.pc.PutStatus? ==>
              var s' := PutStatusStep(key, w, ch).state;
              s'.objects == w.state.objects && OnlyThisKey(w.state, s', key)
  {
    hide AfterEnvironment;
  }

  lemma Deletions(w: World, ch: Choice)
    ensures w.proc.pc.DeleteBindings? && w.proc.pc.bindings != [] ==>
              var s' := DeleteBindingsStep(w, ch).state;
              && s'.controlPlanes == w.state.controlPlanes
              && (s'.objects == w.state.objects || s'.objects == w.state.objects - {w.proc.pc.bindings[0]})
    ensures w.proc.pc.DeleteRoles? && w.proc.pc.roles != [] ==>
              var s' := DeleteRolesStep(w, ch).state;
              && s'.controlPlanes == w.state.controlPlanes
              && (s'.objects == w.state.objects || s'.objects == w.state.objects - {w.proc.pc.roles[0]})
  {
    hide BindingsLeft, RolesLeft;
  }

  /** What a step other than a write of an object can do to the objects: take away
      one that is due. */
  lemma OtherSteps(cfg: Config, key: Key, w: World, ch: Choice)
    requires !w.proc.pc.CreateOwned? && !w.proc.pc.UpdateOwned?
    ensures var s' := Step(cfg, key, w, ch).state;
            && OnlyThisKey(w.state, s', key)
            && (s'.objects == w.state.objects
                || exists r | r in Due(w.proc.pc) :: s'.objects == w.state.objects - {r})
  {
    hide ReadStep, AfterEnvironment, BindingsLeft, RolesLeft, NeedsUpdate, PutControlPlaneStep, PutEnvironmentStep;
    hide PutStatusStep, UpdateControlPlane, UpdateStatus, DeleteObject;
    ControlPlaneWrites(key, w, ch);
    Deletions(w, ch);
  }

  /** The objects that the deletion loop still has before it. */
  function Due(pc: Pc): seq<Ref> {
    if pc.DeleteBindings? then pc.bindings else if pc.DeleteRoles? then pc.roles else []
  }

  lemma OtherStepsOrder(cfg: Config, key: Key, w: World, ch: Choice)
    requires !w.proc.pc.CreateOwned? && !w.proc.pc.UpdateOwned?
    ensures var s' := Step(cfg, key, w, ch).state;
            && Fewer(w.state, s')
            && forall k | k in s'.controlPlanes ::
                 k in w.state.controlPlanes && w.state.controlPlanes[k].meta.uid == s'.controlPlanes[k].meta.uid
  {
    hide Step;
    OtherSteps(cfg, key, w, ch);
    var s' := Step(cfg, key, w, ch).state;
    forall k | k in s'.controlPlanes
      ensures k in w.state.controlPlanes && w.state.controlPlanes[k].meta.uid == s'.controlPlanes[k].meta.uid
    {
      assert k != key ==> k in s'.controlPlanes - {key};
    }
  }

  lemma StepKeepsOrder(cfg: Config, key: Key, w: World, ch: Choice)
    requires StateInv(w.state) && ProcInv(w.state, key, w.proc)
    requires Single(cfg, w.state) && Placed(cfg, w.state) && CallInv(cfg, w.state, w.proc)
    ensures StepOrders(cfg, w, Step(cfg, key, w, ch))
  {
    hide ReadStep, Single, Placed, StateInv, ProcInv, NeedsUpdate, UpdateControlPlane, UpdateStatus, CreateStep;
    hide UpdateStep;
    if w.proc.pc.CreateOwned? {
      CreateOrders(cfg, key, w, ch);
    } else if w.proc.pc.UpdateOwned? {
      UpdateOrders(cfg, key, w, ch);
    } else {
      OtherStepsOrder(cfg, key, w, ch);
      FewerStaysPlaced(cfg, w.state, Step(cfg, key, w, ch).state);
      if w.proc.pc.GetControlPlane? || w.proc.pc.ListBindings? || w.proc.pc.ListRoles? || w.proc.pc.GetDataPlane?
         || w.proc.pc.ListServices? || w.proc.pc.ListKind? || w.proc.pc.GetAuthority? {
        ReadCalls(cfg, key, w.state, w.proc, ch.now);
      }
    }
  }

  // ---------------------------------------------------------------------------
  // Runs
  // ---------------------------------------------------------------------------

  lemma NextKeepsOrder(cfg: Config, sys: System, e: Event, sys': System)
    requires OwnershipInv(cfg, sys) && Next(cfg, sys, e, sys')
    ensures OwnershipInv(cfg, sys')
  {
    hide Single, Placed, CallInv, Step;
    NextKeepsInv(cfg, sys, e, sys');
    match e
    case Others =>
      EnvironmentIsFewer(sys.state, sys'.state);
      FewerStaysPlaced(cfg, sys.state, sys'.state);
      forall k | k in sys'.workers
        ensures CallInv(cfg, sys'.state, sys'.workers[k])
      {
        var p := sys.workers[k];
        if !p.pc.Done? && !p.pc.GetControlPlane? {
          EnvironmentTolerable(sys.state, sys'.state, k, p.cp);
        }
        CallStable(cfg, sys.state, sys'.state, k, p);
      }
    case Begin(key) => FreshCall(cfg, sys.state);
    case Call(key, ch) =>
      var w := World(sys.state, sys.workers[key]);
      StepKeepsOrder(cfg, key, w, ch);
      StepKeepsInv(cfg, key, w, ch);
      forall k | k in sys'.workers && k != key
        ensures CallInv(cfg, sys'.state, sys'.workers[k])
      {
        CallStable(cfg, sys.state, sys'.state, k, sys.workers[k]);
      }
  }

  lemma FreshCall(cfg: Config, s: State)
    ensures CallInv(cfg, s, Start())
  {
  }

  lemma EnvironmentIsFewer(s: State, s': State)
    requires StateInv(s) && Environment(s, s')
    ensures Fewer(s, s')
    ensures forall k | k in s'.controlPlanes ::
              || (k in s.controlPlanes && s.controlPlanes[k].meta.uid == s'.controlPlanes[k].meta.uid)
              || s'.controlPlanes[k].meta.uid > s.revision
  {
  }

  lemma {:induction false} RunsKeepOrder(cfg: Config, run: seq<System>, events: seq<Event>, i: nat)
    requires IsRun(cfg, run, events) && i < |run|
    ensures OwnershipInv(cfg, run[i])
  {
    hide OwnershipInv, Next, Inv;
    if i == 0 {
      RunsKeepInv(cfg, run, events, 0);
      InitialOrder(cfg, run[0]);
    } else {
      RunsKeepOrder(cfg, run, events, i - 1);
      NextKeepsOrder(cfg, run[i - 1], events[i - 1], run[i]);
    }
  }

  lemma InitialOrder(cfg: Config, sys: System)
    requires Initial(sys) && Inv(sys)
    ensures OwnershipInv(cfg, sys)
  {
  }

  /** In every state of every run, a ControlPlane has at most one object of each kind
      (of certificates only if they are labelled), so its lists never have two. */
  lemma AtMostOne(cfg: Config, run: seq<System>, events: seq<Event>, i: nat, kind: Kind, cp: ControlPlane)
    requires IsRun(cfg, run, events) && i < |run| && Listable(cfg, kind)
    ensures forall r, q | Belongs(run[i].state, r, cp.meta.uid) && Belongs(run[i].state, q, cp.meta.uid)
                          && r.kind == q.kind == kind :: r == q
    ensures |Owned(run[i].state, kind, cp)| <= 1
  {
    RunsKeepOrder(cfg, run, events, i);
    var s := run[i].state;
    var items := Owned(s, kind, cp);
    ListOwnedIsOwnedRefs(s, kind, Scope(kind, cp.meta.namespace), CONTROL_PLANE_VALUE, cp.meta.uid);
    if |items| > 1 {
      assert items[0] in items && items[1] in items && items[0] != items[1];
      ListedBelongs(s, cp, kind, items[0]);
      ListedBelongs(s, cp, kind, items[1]);
    }
  }

  // ---------------------------------------------------------------------------
  // Workers stay at home
  // ---------------------------------------------------------------------------

  ghost predicate Touched(s: State, s': State, r: Ref) {
    (r in s.objects) != (r in s'.objects) || (r in s.objects && r in s'.objects && s.objects[r] != s'.objects[r])
  }

  /** A step changes no other ControlPlane. What it creates or changes belongs to its
      own afterwards, and did so before if it was there. What it deletes is due, and
      a role goes only when no binding is left. */
  ghost predicate AtHome(s: State, s': State, key: Key, p: Proc) {
    var uid := p.cp.meta.uid;
    && OnlyThisKey(s, s', key)
    && forall r | Touched(s, s', r) ::
         if r in s'.objects then Belongs(s', r, uid) && (r in s.objects ==> Belongs(s, r, uid))
         else && r in Due(p.pc) && ClusterWide(r.kind)
              && (r.kind == ClusterRoles ==> NoneLeft(s, ClusterRoleBindings, uid))
  }

  lemma StoresAtHome(s: State, key: Key, p: Proc, r: Ref, o: Object, s': State)
    requires WellGenerated(r.kind, o, p.cp) && (r in s.objects ==> Belongs(s, r, p.cp.meta.uid))
    requires s' == s.(revision := s.revision + 1, objects := s.objects[r := o])
    ensures AtHome(s, s', key, p)
  {
    assert o.meta.owners[0] == OwnerOf(p.cp);
    assert Belongs(s', r, p.cp.meta.uid);
  }

  lemma StaysHome(cfg: Config, key: Key, w: World, ch: Choice)
    requires StateInv(w.state) && ProcInv(w.state, key, w.proc) && CallInv(cfg, w.state, w.proc)
    ensures AtHome(w.state, Step(cfg, key, w, ch).state, key, w.proc)
  {
    hide StateInv, Identified, Secured, SafeToPut;
    match w.proc.pc
    case CreateOwned(kind, o) =>
      var reply := CreateObject(w.state, kind, o, ch.suffix);
      if reply.Accepted? {
        StoresAtHome(w.state, key, w.proc, Ref(kind, o.meta.namespace, o.meta.generateName + ch.suffix), reply.value,
                     reply.state);
      }
    case UpdateOwned(r, o) =>
      var reply := UpdateObject(w.state, r, o);
      if reply.Accepted? {
        StoresAtHome(w.state, key, w.proc, r, reply.value, reply.state);
      }
    case _ =>
      hide Step;
      OtherSteps(cfg, key, w, ch);
  }

  /** Over all runs, every call of a worker stays at home. */
  lemma WorkersStayHome(cfg: Config, run: seq<System>, events: seq<Event>, i: nat)
    requires IsRun(cfg, run, events) && i < |events| && events[i].Call?
    ensures var key := events[i].worker;
            key in run[i].workers && AtHome(run[i].state, run[i + 1].state, key, run[i].workers[key])
  {
    hide AtHome, Step, Single, Placed, StateInv, CallInv, ProcInv;
    var key := events[i].worker;
    RunsKeepOrder(cfg, run, events, i);
    assert Next(cfg, run[i], events[i], run[i + 1]);
    StaysHome(cfg, key, World(run[i].state, run[i].workers[key]), events[i].choice);
  }

  /** Nobody makes an object under a name that a deletion loop has before it. */
  ghost predicate NoReuse(sys: System, sys': System) {
    forall k, r | k in sys.workers && r in Due(sys.workers[k].pc) && r in sys'.state.objects ::
      && r in sys.state.objects
      && (Marked(sys.state.objects[r].meta) ==> Marked(sys'.state.objects[r].meta))
      && sys'.state.objects[r].meta.owners == sys.state.objects[r].meta.owners
  }

  /** What is due, if it is still there, belongs to the worker's ControlPlane. */
  ghost predicate Aimed(sys: System) {
    forall k, r | k in sys.workers && r in Due(sys.workers[k].pc) && r in sys.state.objects ::
      Belongs(sys.state, r, sys.workers[k].cp.meta.uid)
  }

  lemma DueAfterStep(cfg: Config, key: Key, w: World, ch: Choice, r: Ref)
    requires r in Due(Step(cfg, key, w, ch).proc.pc)
    ensures Step(cfg, key, w, ch).proc.cp.meta.uid == w.proc.cp.meta.uid
    ensures r in Due(w.proc.pc) || (Step(cfg, key, w, ch).state == w.state && Belongs(w.state, r, w.proc.cp.meta.uid))
  {
    hide AfterService, AfterEnvironment, AfterList, Owned, NeedsUpdate, UpdateControlPlane, UpdateStatus, Belongs;
    hide CreateObject, UpdateObject, DeleteObject, WithFinalizers, Without, AfterFinalizers;
    match w.proc.pc
    case ListBindings => DueIsListed(w.state, ClusterRoleBindings, w.proc.cp);
    case ListRoles => DueIsListed(w.state, ClusterRoles, w.proc.cp);
    case GetControlPlane =>
      if key in w.state.controlPlanes {
        NothingDue(w.proc, w.state.controlPlanes[key], ch.now);
      }
    case ListServices(uid) =>
      var services := ListOwned(w.state, Services, Some(w.proc.cp.meta.namespace), DATA_PLANE_VALUE, uid);
      if |services| == 1 {
        NothingDueWithService(w.proc, services[0].name, ch.now);
      }
    case ListKind(kind) => NothingDueForKind(cfg, w.state, w.proc, kind, Owned(w.state, kind, w.proc.cp), ch.now);
    case PutEnvironment =>
      var reply := UpdateControlPlane(w.state, key, w.proc.cp);
      if reply.Accepted? {
        NothingDueThen(w.proc, reply.value, ch.now);
      }
    case _ =>
  }

  lemma DueIsListed(s: State, kind: Kind, cp: ControlPlane)
    ensures forall r | r in Owned(s, kind, cp) :: Belongs(s, r, cp.meta.uid)
  {
    forall r | r in Owned(s, kind, cp) {
      ListedBelongs(s, cp, kind, r);
    }
  }

  lemma NothingDueThen(p: Proc, cp: ControlPlane, now: int)
    ensures Due(AfterEnvironment(p, cp, now).pc) == []
  {
  }

  lemma NothingDueWithService(p: Proc, service: string, now: int)
    ensures Due(AfterService(p, service, now).pc) == []
  {
  }

  lemma NothingDue(p: Proc, cp: ControlPlane, now: int)
    ensures Due(AfterGet(p, cp, now).pc) == []
  {
    hide AfterService;
    var ready := cp.(conditions := WithReadyReset(cp.conditions, now));
    NothingDueWithService(p.(cp := ready), "", now);
  }

  lemma NothingDueForKind(cfg: Config, s: State, p: Proc, kind: Kind, items: seq<Ref>, now: int)
    ensures Due(AfterList(cfg, s, p, kind, items, now).pc) == []
  {
    hide Generated, ObjectNeedsRepair, RepairedObject;
  }

  lemma {:induction false} RunsStayAimed(cfg: Config, run: seq<System>, events: seq<Event>, i: nat)
    requires IsRun(cfg, run, events) && i < |run|
    requires forall j | 0 <= j < |events| :: NoReuse(run[j], run[j + 1])
    ensures Aimed(run[i])
  {
    if i > 0 {
      RunsStayAimed(cfg, run, events, i - 1);
      assert NoReuse(run[i - 1], run[i]) && Next(cfg, run[i - 1], events[i - 1], run[i]) by {
        assert run[i - 1 + 1] == run[i];
      }
      StaysAimed(cfg, run[i - 1], events[i - 1], run[i]);
    }
  }

  lemma StaysAimed(cfg: Config, sys: System, e: Event, sys': System)
    requires Aimed(sys) && NoReuse(sys, sys') && Next(cfg, sys, e, sys')
    ensures Aimed(sys')
  {
    hide Step, Environment;
    forall k, r | k in sys'.workers && r in Due(sys'.workers[k].pc) && r in sys'.state.objects
      ensures Belongs(sys'.state, r, sys'.workers[k].cp.meta.uid)
    {
      if e.Call? && e.worker == k {
        DueAfterStep(cfg, k, World(sys.state, sys.workers[k]), e.choice, r);
      }
    }
  }

  /** As long as no name is made anew while it is due for deletion, workers delete
      nothing that does not belong to their own ControlPlane. */
  lemma DeletionsHitTheirOwn(cfg: Config, run: seq<System>, events: seq<Event>, i: nat, r: Ref)
    requires IsRun(cfg, run, events) && i < |events| && events[i].Call?
    requires forall j | 0 <= j < |events| :: NoReuse(run[j], run[j + 1])
    requires r in run[i].state.objects && r !in run[i + 1].state.objects
    ensures var key := events[i].worker;
            key in run[i].workers && Belongs(run[i].state, r, run[i].workers[key].cp.meta.uid)
  {
    WorkersStayHome(cfg, run, events, i);
    RunsStayAimed(cfg, run, events, i);
    assert Touched(run[i].state, run[i + 1].state, r);
  }

  /** Without that assumption they do: from any reachable state with a binding or a role
      due next, others delete it and make an object of their own under its name, and the
      worker deletes that. */
  lemma ReusedNameIsDeleted(cfg: Config, sys: System, key: Key, r: Ref, rest: seq<Ref>, failed: bool, foreign: Object)
    returns (gone: System, reused: System, end: System)
    requires Inv(sys) && key in sys.workers
    requires sys.workers[key].pc == DeleteBindings([r] + rest, failed)
             || sys.workers[key].pc == DeleteRoles([r] + rest, failed)
    requires r in sys.state.objects && !Marked(foreign.meta) && foreign.meta.revision == sys.state.revision + 2
    ensures Next(cfg, sys, Others, gone) && Next(cfg, gone, Others, reused)
    ensures Next(cfg, reused, Call(key, Quiet(0, "")), end)
    ensures r in reused.state.objects && forall uid :: !Belongs(reused.state, r, uid)
    ensures r !in end.state.objects && !NoReuse(gone, reused)
  {
    hide Step, Environment, KeysFit, Due, CallInv, ProcInv, Marked;
    var s := sys.state;
    gone := sys.(state := s.(revision := s.revision + 1, objects := s.objects - {r}));
    reused := sys.(state := s.(revision := s.revision + 2, objects := s.objects[r := foreign]));
    EnvironmentMovesOne(s, gone.state, r);
    assert r !in gone.state.objects;
    assert reused.state.objects == gone.state.objects[r := foreign];
    EnvironmentMovesOne(gone.state, reused.state, r);
    DeletedUnseen(cfg, key, reused.state, sys.workers[key], r, rest, failed);
    var w := Step(cfg, key, World(reused.state, sys.workers[key]), Quiet(0, ""));
    end := System(w.state, sys.workers[key := w.proc]);
  }

  /** A deletion loop looks at nothing but the name. */
  lemma DeletedUnseen(cfg: Config, key: Key, s: State, p: Proc, r: Ref, rest: seq<Ref>, failed: bool)
    requires r in s.objects
    requires p.pc == DeleteBindings([r] + rest, failed) || p.pc == DeleteRoles([r] + rest, failed)
    ensures r in Due(p.pc) && r !in Step(cfg, key, World(s, p), Quiet(0, "")).state.objects
  {
    hide AfterBindings, AfterRoles;
    assert ([r] + rest)[0] == r;
  }

  /** Others may take an object away, or put one of their own in a free place. */
  lemma EnvironmentMovesOne(s: State, s': State, r: Ref)
    requires KeysFit(s) && forall q | q in s.objects :: s.objects[q].meta.revision <= s.revision
    requires s'.controlPlanes == s.controlPlanes && s'.revision == s.revision + 1
    requires || s'.objects == s.objects - {r}
             || (&& r in s'.objects && s'.objects == s.objects[r := s'.objects[r]]
                 && !Marked(s'.objects[r].meta) && s'.objects[r].meta.revision == s'.revision)
    ensures Environment(s, s') && KeysFit(s')
    ensures forall q | q in s'.objects :: s'.objects[q].meta.revision <= s'.revision
  {
    hide Marked;
  }
}
