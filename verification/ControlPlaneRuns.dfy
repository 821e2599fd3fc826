/** Runs of the whole system: one worker per ControlPlane, each in the middle of a
    pass, interleaved call by call with users and other controllers, with calls
    that fail and operators that restart. */
module ControlPlaneRuns {
  import opened Wrappers
  import opened ControlPlaneEnv
  import opened Conditions
  import opened Metadata
  import opened Cluster
  import opened ControlPlaneObjects
  import opened ControlPlanePass

  datatype System = System(state: State, workers: map<Key, Proc>)

  // ---------------------------------------------------------------------------
  // The rest of the cluster
  // ---------------------------------------------------------------------------

  /** Bears the operator's mark: its label, or an owner that is a ControlPlane. */
  predicate Marked(meta: Meta) {
    || Carries(meta, CONTROLLED_LABEL, CONTROL_PLANE_VALUE)
    || exists ref | ref in meta.owners :: ref.kind == CONTROL_PLANE_KIND
  }

  /** A stored ControlPlane that still carries a finalizer. */
  predicate Holds(s: State, key: Key, uid: Uid, finalizer: string) {
    key in s.controlPlanes && s.controlPlanes[key].meta.uid == uid
    && finalizer in s.controlPlanes[key].meta.finalizers
  }

  /** What users may do to one ControlPlane: anything to its spec and status, ask
      for its deletion, touch foreign finalizers, but not the operator's own. */
  ghost predicate UserEdit(before: ControlPlane, after: ControlPlane) {
    && after.meta.uid == before.meta.uid
    && (before.meta.deletion.Some? ==> after.meta.deletion.Some?)
    && forall f | f in {CLEANUP_ROLE, CLEANUP_BINDING} :: f in before.meta.finalizers ==> f in after.meta.finalizers
  }

  /** Any number of moves by users and other controllers. They take fresh revisions
      and UIDs, remove a ControlPlane only without the operator's finalizers, and
      neither forge the operator's mark nor change it in part; they may delete
      marked objects and edit everything else about them. */
  ghost predicate Environment(s: State, s': State) {
    && s.revision <= s'.revision
    && (forall k | k in s'.controlPlanes ::
          var after := s'.controlPlanes[k];
          && after.meta.namespace == k.namespace && after.meta.name == k.name
          && after.meta.uid <= s'.revision && after.meta.revision <= s'.revision
          && (|| (k in s.controlPlanes && after == s.controlPlanes[k])
              || (k in s.controlPlanes && UserEdit(s.controlPlanes[k], after) && s.revision < after.meta.revision)
              || (s.revision < after.meta.uid && s.revision < after.meta.revision)))
    && (forall k, k' | k in s'.controlPlanes && k' in s'.controlPlanes && k != k' ::
          s'.controlPlanes[k].meta.uid != s'.controlPlanes[k'].meta.uid)
    && (forall k, f | k in s.controlPlanes && f in {CLEANUP_ROLE, CLEANUP_BINDING} ::
          Holds(s, k, s.controlPlanes[k].meta.uid, f) ==> Holds(s', k, s.controlPlanes[k].meta.uid, f))
    && (forall r | r in s'.objects ::
          var after := s'.objects[r];
          && after.meta.revision <= s'.revision
          && (after.meta.revision <= s.revision ==> r in s.objects && s.objects[r] == after)
          && (Marked(after.meta) ==>
                && r in s.objects && s.objects[r].meta.owners == after.meta.owners
                && (Carries(s.objects[r].meta, CONTROLLED_LABEL, CONTROL_PLANE_VALUE) <==>
                    Carries(after.meta, CONTROLLED_LABEL, CONTROL_PLANE_VALUE))))
  }

  // ---------------------------------------------------------------------------
  // Runs
  // ---------------------------------------------------------------------------

  datatype Event =
    | Others                                  // the environment moves
    | Begin(key: Key)                         // a worker starts a pass, or restarts
    | Call(worker: Key, choice: Choice)       // a worker makes its next call

  ghost predicate Next(cfg: Config, sys: System, e: Event, sys': System) {
    match e
    case Others => sys'.workers == sys.workers && Environment(sys.state, sys'.state)
    case Begin(key) => sys' == sys.(workers := sys.workers[key := Start()])
    case Call(key, choice) =>
      && key in sys.workers
      && var w := Step(cfg, key, World(sys.state, sys.workers[key]), choice);
         sys' == System(w.state, sys.workers[key := w.proc])
  }

  /** No ControlPlane's objects exist yet and no pass is in flight. */
  ghost predicate Initial(sys: System) {
    && sys.workers == map[]
    && (forall r | r in sys.state.objects ::
          !Marked(sys.state.objects[r].meta) && sys.state.objects[r].meta.revision <= sys.state.revision)
    && KeysFit(sys.state)
  }

  ghost predicate IsRun(cfg: Config, run: seq<System>, events: seq<Event>) {
    && |run| == |events| + 1
    && Initial(run[0])
    && forall i | 0 <= i < |events| :: Next(cfg, run[i], events[i], run[i + 1])
  }

  // ---------------------------------------------------------------------------
  // The invariant
  // ---------------------------------------------------------------------------

  ghost predicate KeysFit(s: State) {
    && (forall k | k in s.controlPlanes ::
          var cp := s.controlPlanes[k];
          && cp.meta.namespace == k.namespace && cp.meta.name == k.name
          && cp.meta.uid <= s.revision && cp.meta.revision <= s.revision)
    && (forall k, k' | k in s.controlPlanes && k' in s.controlPlanes && k != k' ::
          s.controlPlanes[k].meta.uid != s.controlPlanes[k'].meta.uid)
  }

  /** The finalizer that stands for the clean-up of a cluster-wide kind. */
  function CleanupOf(kind: Kind): string
    requires ClusterWide(kind)
  {
    if kind == ClusterRoles then CLEANUP_ROLE else CLEANUP_BINDING
  }

  ghost predicate Guarded(s: State, uid: Uid, finalizer: string) {
    exists k :: Holds(s, k, uid, finalizer)
  }

  /** Marked objects have one owner, a ControlPlane, and can be listed. */
  ghost predicate WellMarked(s: State, r: Ref) {
    r in s.objects && Marked(s.objects[r].meta) ==>
      var meta := s.objects[r].meta;
      && |meta.owners| == 1 && meta.owners[0].kind == CONTROL_PLANE_KIND && meta.owners[0].uid <= s.revision
      && (r.kind != Secrets ==> Carries(meta, CONTROLLED_LABEL, CONTROL_PLANE_VALUE))
  }

  /** No cluster-wide object outlives its ControlPlane or the finalizer for it. */
  ghost predicate NoLeak(s: State) {
    forall r | r in s.objects && ClusterWide(r.kind) && Marked(s.objects[r].meta) ::
      forall owner | owner in s.objects[r].meta.owners :: Guarded(s, owner.uid, CleanupOf(r.kind))
  }

  ghost predicate StateInv(s: State) {
    && KeysFit(s)
    && (forall r | r in s.objects :: WellMarked(s, r) && s.objects[r].meta.revision <= s.revision)
    && NoLeak(s)
  }

  /** Is marked as owned by the ControlPlane with this UID. */
  predicate Belongs(s: State, r: Ref, uid: Uid) {
    r in s.objects && Marked(s.objects[r].meta) && OwnedBy(s.objects[r].meta, uid)
  }

  ghost predicate NoneLeft(s: State, kind: Kind, uid: Uid) {
    forall r :: Belongs(s, r, uid) ==> r.kind != kind
  }

  /** The in-memory object is of this key and its UID is stored nowhere else. */
  ghost predicate Identified(s: State, key: Key, cp: ControlPlane) {
    && cp.meta.namespace == key.namespace && cp.meta.name == key.name
    && cp.meta.uid <= s.revision && cp.meta.revision <= s.revision
    && (forall k | k in s.controlPlanes && s.controlPlanes[k].meta.uid == cp.meta.uid :: k == key)
  }

  predicate UpToDate(s: State, key: Key, cp: ControlPlane) {
    key in s.controlPlanes && s.controlPlanes[key].meta.revision == cp.meta.revision
  }

  /** Writing the in-memory finalizers over the stored ones drops a clean-up
      finalizer only when there is nothing left to clean up. */
  ghost predicate SafeToPut(s: State, key: Key, cp: ControlPlane) {
    UpToDate(s, key, cp) ==>
      && s.controlPlanes[key].meta.uid == cp.meta.uid
      && forall kind | ClusterWide(kind) && Holds(s, key, cp.meta.uid, CleanupOf(kind)) ::
           CleanupOf(kind) in cp.meta.finalizers || NoneLeft(s, kind, cp.meta.uid)
  }

  /** Both finalizers are stored and in memory: clean-up is assured. */
  ghost predicate Secured(s: State, key: Key, cp: ControlPlane) {
    forall f | f in {CLEANUP_ROLE, CLEANUP_BINDING} :: Holds(s, key, cp.meta.uid, f) && f in cp.meta.finalizers
  }

  ghost predicate WellGenerated(kind: Kind, o: Object, cp: ControlPlane) {
    && o.meta.owners == [OwnerOf(cp)]
    && (kind != Secrets ==> Carries(o.meta, CONTROLLED_LABEL, CONTROL_PLANE_VALUE))
  }

  ghost predicate PcInv(s: State, key: Key, pc: Pc, cp: ControlPlane) {
    match pc
    case PutControlPlane(_) => SafeToPut(s, key, cp)
    case PutEnvironment => SafeToPut(s, key, cp) && Secured(s, key, cp)
    case GetDataPlane => SafeToPut(s, key, cp) && Secured(s, key, cp)
    case ListServices(_) => SafeToPut(s, key, cp) && Secured(s, key, cp)
    case ListKind(_) => Secured(s, key, cp)
    case GetAuthority(secret) => Secured(s, key, cp) && WellGenerated(Secrets, secret, cp)
    case CreateOwned(kind, o) => Secured(s, key, cp) && WellGenerated(kind, o, cp)
    case UpdateOwned(r, o) =>
      && Secured(s, key, cp) && WellGenerated(r.kind, o, cp)
      && (r in s.objects && s.objects[r].meta.revision == o.meta.revision ==> Belongs(s, r, cp.meta.uid))
      && o.meta.revision <= s.revision
    case ListBindings => SafeToPut(s, key, cp)
    case DeleteBindings(todo, failed) =>
      && SafeToPut(s, key, cp)
      && (!failed ==> forall r :: Belongs(s, r, cp.meta.uid) && r.kind == ClusterRoleBindings ==> r in todo)
    case ListRoles => SafeToPut(s, key, cp) && NoneLeft(s, ClusterRoleBindings, cp.meta.uid)
    case DeleteRoles(todo, failed) =>
      && SafeToPut(s, key, cp) && NoneLeft(s, ClusterRoleBindings, cp.meta.uid)
      && (!failed ==> forall r :: Belongs(s, r, cp.meta.uid) && r.kind == ClusterRoles ==> r in todo)
    case _ => true
  }

  ghost predicate ProcInv(s: State, key: Key, p: Proc) {
    p.pc.Done? || p.pc.GetControlPlane? || (Identified(s, key, p.cp) && PcInv(s, key, p.pc, p.cp))
  }

  ghost predicate Inv(sys: System) {
    && StateInv(sys.state)
    && forall k | k in sys.workers :: ProcInv(sys.state, k, sys.workers[k])
  }

  // ---------------------------------------------------------------------------
  // What a pass relies on
  // ---------------------------------------------------------------------------

  /** Moves of others that the pass for `uid` at `key` can live with. */
  ghost predicate Tolerable(s: State, s': State, key: Key, uid: Uid) {
    && s.revision <= s'.revision
    && (key in s'.controlPlanes && s'.controlPlanes[key].meta.revision <= s.revision ==>
          key in s.controlPlanes && s'.controlPlanes[key] == s.controlPlanes[key])
    && (forall f | f in {CLEANUP_ROLE, CLEANUP_BINDING} :: Holds(s, key, uid, f) ==> Holds(s', key, uid, f))
    && (forall k | k in s'.controlPlanes && s'.controlPlanes[k].meta.uid == uid :: k == key)
    && (forall r | Belongs(s', r, uid) :: Belongs(s, r, uid))
    && (forall r | r in s'.objects && s'.objects[r].meta.revision <= s.revision ::
          r in s.objects && s'.objects[r] == s.objects[r])
  }

  lemma ProcStable(s: State, s': State, key: Key, p: Proc)
    requires ProcInv(s, key, p) && Tolerable(s, s', key, p.cp.meta.uid)
    ensures ProcInv(s', key, p)
  {
    var uid := p.cp.meta.uid;
    if !p.pc.Done? && !p.pc.GetControlPlane? {
      assert Identified(s', key, p.cp);
      forall kind | NoneLeft(s, kind, uid)
        ensures NoneLeft(s', kind, uid)
      {
      }
      assert SafeToPut(s, key, p.cp) ==> SafeToPut(s', key, p.cp) by {
        if SafeToPut(s, key, p.cp) && UpToDate(s', key, p.cp) {
          assert s'.controlPlanes[key] == s.controlPlanes[key];
        }
      }
      assert Secured(s, key, p.cp) ==> Secured(s', key, p.cp);
    }
  }

  lemma EnvironmentTolerable(s: State, s': State, key: Key, cp: ControlPlane)
    requires StateInv(s) && Environment(s, s') && Identified(s, key, cp)
    ensures Tolerable(s, s', key, cp.meta.uid)
  {
    var uid := cp.meta.uid;
    forall r | Belongs(s', r, uid)
      ensures Belongs(s, r, uid)
    {
      assert WellMarked(s, r);
      assert Marked(s'.objects[r].meta);
      assert s.objects[r].meta.owners == s'.objects[r].meta.owners;
      assert Marked(s.objects[r].meta);
    }
  }

  lemma EnvironmentKeepsState(s: State, s': State)
    requires StateInv(s) && Environment(s, s')
    ensures StateInv(s')
  {
    forall r | r in s'.objects && Marked(s'.objects[r].meta)
      ensures WellMarked(s', r)
      ensures forall owner | owner in s'.objects[r].meta.owners && ClusterWide(r.kind) ::
                Guarded(s', owner.uid, CleanupOf(r.kind))
    {
      assert r in s.objects && s.objects[r].meta.owners == s'.objects[r].meta.owners;
      MarkedBefore(s.objects[r].meta, s'.objects[r].meta);
      assert WellMarked(s, r);
      forall owner | owner in s'.objects[r].meta.owners && ClusterWide(r.kind)
        ensures Guarded(s', owner.uid, CleanupOf(r.kind))
      {
        assert Guarded(s, owner.uid, CleanupOf(r.kind));
        var k :| Holds(s, k, owner.uid, CleanupOf(r.kind));
        assert Holds(s', k, owner.uid, CleanupOf(r.kind));
      }
    }
  }

  lemma MarkedBefore(before: Meta, after: Meta)
    requires before.owners == after.owners
    requires Carries(before, CONTROLLED_LABEL, CONTROL_PLANE_VALUE) <==>
             Carries(after, CONTROLLED_LABEL, CONTROL_PLANE_VALUE)
    ensures Marked(before) <==> Marked(after)
  {
  }

  // ---------------------------------------------------------------------------
  // Writes
  // ---------------------------------------------------------------------------

  /** A write by the pass at `key` disturbs no pass at another key. */
  ghost predicate Courteous(s: State, s': State, key: Key) {
    forall k: Key, cp: ControlPlane | k != key && Identified(s, k, cp) :: Tolerable(s, s', k, cp.meta.uid)
  }

  /** Untouched objects stay guarded if the finalizers with work left are kept. */
  lemma UntouchedStayGuarded(s: State, s': State, r: Ref)
    requires StateInv(s) && s.revision <= s'.revision
    requires r in s.objects && r in s'.objects && s.objects[r] == s'.objects[r]
    requires forall k, uid, kind | ClusterWide(kind) && Holds(s, k, uid, CleanupOf(kind)) && !NoneLeft(s, kind, uid) ::
               Holds(s', k, uid, CleanupOf(kind))
    ensures WellMarked(s', r) && s'.objects[r].meta.revision <= s'.revision
    ensures ClusterWide(r.kind) && Marked(s'.objects[r].meta) ==>
              forall owner | owner in s'.objects[r].meta.owners :: Guarded(s', owner.uid, CleanupOf(r.kind))
  {
    assert WellMarked(s, r);
    if ClusterWide(r.kind) && Marked(s.objects[r].meta) {
      forall owner | owner in s.objects[r].meta.owners
        ensures Guarded(s', owner.uid, CleanupOf(r.kind))
      {
        var k :| Holds(s, k, owner.uid, CleanupOf(r.kind));
        assert Belongs(s, r, owner.uid);
        assert Holds(s', k, owner.uid, CleanupOf(r.kind));
      }
    }
  }

  lemma PutKeepsKeys(s: State, key: Key, cp: ControlPlane)
    requires KeysFit(s) && UpdateControlPlane(s, key, cp).Accepted?
    ensures var s' := UpdateControlPlane(s, key, cp).state;
            && KeysFit(s') && s'.revision == s.revision + 1 && s'.objects == s.objects
            && s'.controlPlanes.Keys <= s.controlPlanes.Keys
            && (forall k | k in s.controlPlanes && k != key ::
                  k in s'.controlPlanes && s'.controlPlanes[k] == s.controlPlanes[k])
            && (key in s'.controlPlanes ==>
                  && s'.controlPlanes[key].meta.uid == s.controlPlanes[key].meta.uid
                  && s'.controlPlanes[key].meta.finalizers == cp.meta.finalizers
                  && s'.controlPlanes[key].meta.revision == s.revision + 1)
            && (key !in s'.controlPlanes ==> cp.meta.finalizers == [])
  {
  }

  lemma PutKeeps(s: State, key: Key, cp: ControlPlane)
    requires StateInv(s) && SafeToPut(s, key, cp)
    requires UpdateControlPlane(s, key, cp).Accepted?
    ensures var s' := UpdateControlPlane(s, key, cp).state;
            StateInv(s') && Courteous(s, s', key)
  {
    CleanupNamesDiffer();
    PutKeepsKeys(s, key, cp);
    var s' := UpdateControlPlane(s, key, cp).state;
    forall k, uid, kind | ClusterWide(kind) && Holds(s, k, uid, CleanupOf(kind)) && !NoneLeft(s, kind, uid)
      ensures Holds(s', k, uid, CleanupOf(kind))
    {
    }
    forall r | r in s'.objects {
      UntouchedStayGuarded(s, s', r);
    }
    forall k: Key, other: ControlPlane | k != key && Identified(s, k, other)
      ensures Tolerable(s, s', k, other.meta.uid)
    {
      assert forall r :: Belongs(s', r, other.meta.uid) ==> Belongs(s, r, other.meta.uid);
    }
  }

  lemma StatusKeeps(s: State, key: Key, cp: ControlPlane)
    requires StateInv(s) && UpdateStatus(s, key, cp).Accepted?
    ensures var s' := UpdateStatus(s, key, cp).state;
            StateInv(s') && Courteous(s, s', key)
  {
    var s' := UpdateStatus(s, key, cp).state;
    assert forall k, uid, f :: Holds(s, k, uid, f) ==> Holds(s', k, uid, f);
    forall r | r in s'.objects {
      UntouchedStayGuarded(s, s', r);
    }
    forall k: Key, other: ControlPlane | k != key && Identified(s, k, other)
      ensures Tolerable(s, s', k, other.meta.uid)
    {
      assert forall r :: Belongs(s', r, other.meta.uid) ==> Belongs(s, r, other.meta.uid);
    }
  }

  /** Storing an object that belongs to a secured ControlPlane is safe. */
  lemma StoreKeeps(s: State, key: Key, cp: ControlPlane, r: Ref, o: Object, s': State)
    requires StateInv(s) && Identified(s, key, cp) && Secured(s, key, cp) && WellGenerated(r.kind, o, cp)
    requires o.meta.revision == s.revision + 1
    requires s' == s.(revision := s.revision + 1, objects := s.objects[r := o])
    ensures StateInv(s') && Courteous(s, s', key)
  {
    assert o.meta.owners[0] == OwnerOf(cp);
    assert forall k, uid, f :: Holds(s, k, uid, f) ==> Holds(s', k, uid, f);
    assert ClusterWide(r.kind) ==> Holds(s', key, cp.meta.uid, CleanupOf(r.kind));
    forall q | q in s'.objects
      ensures WellMarked(s', q) && s'.objects[q].meta.revision <= s'.revision
      ensures ClusterWide(q.kind) && Marked(s'.objects[q].meta) ==>
                forall owner | owner in s'.objects[q].meta.owners :: Guarded(s', owner.uid, CleanupOf(q.kind))
    {
      if q != r {
        UntouchedStayGuarded(s, s', q);
      }
    }
    forall k: Key, other: ControlPlane | k != key && Identified(s, k, other)
      ensures Tolerable(s, s', k, other.meta.uid)
    {
      assert Holds(s, key, cp.meta.uid, CLEANUP_ROLE);
      assert other.meta.uid != cp.meta.uid;
      assert !Belongs(s', r, other.meta.uid);
    }
  }

  lemma DeleteKeeps(s: State, key: Key, r: Ref)
    requires StateInv(s) && DeleteObject(s, r).Accepted?
    ensures var s' := DeleteObject(s, r).state;
            StateInv(s') && Courteous(s, s', key)
  {
    var s' := DeleteObject(s, r).state;
    assert forall k, uid, f :: Holds(s, k, uid, f) ==> Holds(s', k, uid, f);
    forall q | q in s'.objects {
      UntouchedStayGuarded(s, s', q);
    }
    forall k: Key, other: ControlPlane | k != key && Identified(s, k, other)
      ensures Tolerable(s, s', k, other.meta.uid)
    {
    }
  }

  // ---------------------------------------------------------------------------
  // Steps
  // ---------------------------------------------------------------------------

  /** What one step of the pass at `key` has to establish. */
  ghost predicate StepKeeps(key: Key, w: World, w': World) {
    StateInv(w'.state) && ProcInv(w'.state, key, w'.proc) && Courteous(w.state, w'.state, key)
  }

  lemma NothingWritten(s: State, key: Key)
    requires StateInv(s)
    ensures Courteous(s, s, key)
  {
  }

  lemma AfterServiceKeeps(s: State, key: Key, p: Proc, service: string, now: int)
    requires Identified(s, key, p.cp) && SafeToPut(s, key, p.cp) && Secured(s, key, p.cp)
    ensures ProcInv(s, key, AfterService(p, service, now))
  {
    hide Defaulted, DefaultsHold, Followed, Follows, WithDataPlaneStatus;
  }

  lemma AfterGetKeeps(s: State, key: Key, p: Proc, now: int)
    requires StateInv(s) && key in s.controlPlanes
    ensures ProcInv(s, key, AfterGet(p, s.controlPlanes[key], now))
  {
    hide Defaulted, DefaultsHold, Followed, Follows, WithDataPlaneStatus, WithScheduled, AfterService;
    var cp := s.controlPlanes[key];
    var wanted := [CLEANUP_ROLE, CLEANUP_BINDING];
    WithFinalizersAddsMissing(cp.meta.finalizers, wanted);
    assert wanted[0] == CLEANUP_ROLE && wanted[1] == CLEANUP_BINDING;
    assert Identified(s, key, cp);
    if cp.meta.deletion.None? && WithFinalizers(cp.meta.finalizers, wanted) == cp.meta.finalizers {
      var ready := cp.(conditions := WithReadyReset(cp.conditions, now));
      assert Secured(s, key, ready) && SafeToPut(s, key, ready) && Identified(s, key, ready);
      AfterServiceKeeps(s, key, p.(cp := ready), "", now);
    }
  }

  lemma AfterBindingsKeeps(s: State, key: Key, p: Proc)
    requires Identified(s, key, p.cp) && SafeToPut(s, key, p.cp) && NoneLeft(s, ClusterRoleBindings, p.cp.meta.uid)
    ensures ProcInv(s, key, AfterBindings(p))
  {
    CleanupNamesDiffer();
    WithoutRemovesOne(p.cp.meta.finalizers, CLEANUP_BINDING);
  }

  lemma AfterRolesKeeps(s: State, key: Key, p: Proc)
    requires Identified(s, key, p.cp) && SafeToPut(s, key, p.cp) && NoneLeft(s, ClusterRoles, p.cp.meta.uid)
    ensures ProcInv(s, key, AfterRoles(p))
  {
    CleanupNamesDiffer();
    WithoutRemovesOne(p.cp.meta.finalizers, CLEANUP_ROLE);
  }

  /** The listing of a kind misses nothing that belongs to the ControlPlane. */
  lemma ListingIsComplete(s: State, key: Key, cp: ControlPlane, kind: Kind, r: Ref)
    requires StateInv(s) && Belongs(s, r, cp.meta.uid) && r.kind == kind && ClusterWide(kind)
    ensures r in Owned(s, kind, cp)
  {
    ListOwnedIsOwnedRefs(s, kind, None, CONTROL_PLANE_VALUE, cp.meta.uid);
    assert WellMarked(s, r);
  }

  lemma GeneratedIsWell(cfg: Config, kind: Kind, cp: ControlPlane, names: Names, existing: Object)
    requires Generated(cfg, kind, cp, names).Some?
    ensures WellGenerated(kind, Generated(cfg, kind, cp, names).value, cp)
    ensures WellGenerated(kind, RepairedObject(existing, Generated(cfg, kind, cp, names).value, cp), cp)
  {
    hide GeneratedBody, RepairedBody;
  }

  lemma AfterListKeeps(cfg: Config, s: State, key: Key, p: Proc, kind: Kind, items: seq<Ref>, now: int)
    requires StateInv(s) && Identified(s, key, p.cp) && Secured(s, key, p.cp)
    requires |items| == 1 ==> items[0].kind == kind && Belongs(s, items[0], p.cp.meta.uid)
    ensures ProcInv(s, key, AfterList(cfg, s, p, kind, items, now))
  {
    hide ObjectNeedsRepair, Generated, RepairedBody, Secured, Belongs, WellGenerated, NoLeak, KeysFit, WellMarked;
    if |items| <= 1 && Generated(cfg, kind, p.cp, p.names).Some? {
      var existing := if |items| == 1 && items[0] in s.objects then s.objects[items[0]] else Object(p.cp.meta, Plain);
      GeneratedIsWell(cfg, kind, p.cp, p.names, existing);
    }
  }

  lemma ListedBelongs(s: State, cp: ControlPlane, kind: Kind, r: Ref)
    requires r in Owned(s, kind, cp)
    ensures r.kind == kind && Belongs(s, r, cp.meta.uid)
  {
    ListOwnedIsOwnedRefs(s, kind, Scope(kind, cp.meta.namespace), CONTROL_PLANE_VALUE, cp.meta.uid);
  }

  lemma ReadKeeps(cfg: Config, key: Key, s: State, p: Proc, now: int)
    requires StateInv(s) && ProcInv(s, key, p)
    requires p.pc.GetControlPlane? || p.pc.ListBindings? || p.pc.ListRoles? || p.pc.GetDataPlane?
             || p.pc.ListServices? || p.pc.ListKind? || p.pc.GetAuthority?
    ensures ProcInv(s, key, ReadStep(cfg, key, s, p, now))
  {
    hide Defaulted, DefaultsHold, Followed, Follows, AfterService, AfterList, AfterGet, Generated;
    match p.pc
    case GetControlPlane =>
      if key in s.controlPlanes {
        AfterGetKeeps(s, key, p, now);
      }
    case ListBindings =>
      forall r | Belongs(s, r, p.cp.meta.uid) && r.kind == ClusterRoleBindings
        ensures r in Owned(s, ClusterRoleBindings, p.cp)
      {
        ListingIsComplete(s, key, p.cp, ClusterRoleBindings, r);
      }
      if Owned(s, ClusterRoleBindings, p.cp) == [] {
        AfterBindingsKeeps(s, key, p);
      }
    case ListRoles =>
      forall r | Belongs(s, r, p.cp.meta.uid) && r.kind == ClusterRoles
        ensures r in Owned(s, ClusterRoles, p.cp)
      {
        ListingIsComplete(s, key, p.cp, ClusterRoles, r);
      }
      if Owned(s, ClusterRoles, p.cp) == [] {
        AfterRolesKeeps(s, key, p);
      }
    case ListServices(uid) =>
      var services := ListOwned(s, Services, Some(p.cp.meta.namespace), DATA_PLANE_VALUE, uid);
      if |services| == 1 {
        AfterServiceKeeps(s, key, p, services[0].name, now);
      }
    case ListKind(kind) =>
      var items := Owned(s, kind, p.cp);
      if |items| == 1 {
        assert items[0] in items;
        ListedBelongs(s, p.cp, kind, items[0]);
      }
      AfterListKeeps(cfg, s, key, p, kind, items, now);
    case _ =>
  }

  /** One deletion leaves less to delete, and nothing else moves. */
  lemma DeletionProgress(s: State, key: Key, cp: ControlPlane, kind: Kind, todo: seq<Ref>, fault: Fault, failed: bool)
    requires StateInv(s) && Identified(s, key, cp) && SafeToPut(s, key, cp) && todo != []
    requires !failed ==> forall r :: Belongs(s, r, cp.meta.uid) && r.kind == kind ==> r in todo
    ensures var s' := Landed(s, DeleteObject(s, todo[0]), fault);
            && StateInv(s') && Courteous(s, s', key) && Identified(s', key, cp) && SafeToPut(s', key, cp)
            && (forall r :: Belongs(s', r, cp.meta.uid) ==> Belongs(s, r, cp.meta.uid))
            && (!DeleteFailed(s, todo[0], fault, failed) ==>
                  forall r :: Belongs(s', r, cp.meta.uid) && r.kind == kind ==> r in todo[1..])
  {
    hide StateInv, Marked, OwnedBy, Courteous;
    assert todo == [todo[0]] + todo[1..];
    NothingWritten(s, key);
    if DeleteObject(s, todo[0]).Accepted? {
      DeleteKeeps(s, key, todo[0]);
    }
  }

  lemma DeleteBindingsKeeps(key: Key, w: World, ch: Choice)
    requires StateInv(w.state) && ProcInv(w.state, key, w.proc) && w.proc.pc.DeleteBindings?
    ensures StepKeeps(key, w, DeleteBindingsStep(w, ch))
  {
    var s, p := w.state, w.proc;
    var todo := p.pc.bindings;
    if todo == [] {
      NothingWritten(s, key);
    } else {
      DeletionProgress(s, key, p.cp, ClusterRoleBindings, todo, ch.fault, p.pc.failed);
      var s' := Landed(s, DeleteObject(s, todo[0]), ch.fault);
      if !DeleteFailed(s, todo[0], ch.fault, p.pc.failed) && todo[1..] == [] {
        AfterBindingsKeeps(s', key, p);
      }
    }
  }

  lemma DeleteRolesKeeps(key: Key, w: World, ch: Choice)
    requires StateInv(w.state) && ProcInv(w.state, key, w.proc) && w.proc.pc.DeleteRoles?
    ensures StepKeeps(key, w, DeleteRolesStep(w, ch))
  {
    var s, p := w.state, w.proc;
    var todo := p.pc.roles;
    if todo == [] {
      NothingWritten(s, key);
    } else {
      DeletionProgress(s, key, p.cp, ClusterRoles, todo, ch.fault, p.pc.failed);
      var s' := Landed(s, DeleteObject(s, todo[0]), ch.fault);
      if !DeleteFailed(s, todo[0], ch.fault, p.pc.failed) && todo[1..] == [] {
        AfterRolesKeeps(s', key, p);
      }
    }
  }

  lemma PutControlPlaneKeeps(key: Key, w: World, ch: Choice)
    requires StateInv(w.state) && ProcInv(w.state, key, w.proc) && w.proc.pc.PutControlPlane?
    ensures StepKeeps(key, w, PutControlPlaneStep(key, w, ch))
  {
    NothingWritten(w.state, key);
    if UpdateControlPlane(w.state, key, w.proc.cp).Accepted? {
      PutKeeps(w.state, key, w.proc.cp);
    }
  }

  lemma PutEnvironmentKeeps(key: Key, w: World, ch: Choice)
    requires StateInv(w.state) && ProcInv(w.state, key, w.proc) && w.proc.pc.PutEnvironment?
    ensures StepKeeps(key, w, PutEnvironmentStep(key, w, ch))
  {
    hide WithDataPlaneStatus;
    NothingWritten(w.state, key);
    var reply := UpdateControlPlane(w.state, key, w.proc.cp);
    if reply.Accepted? {
      PutKeeps(w.state, key, w.proc.cp);
      assert Holds(w.state, key, w.proc.cp.meta.uid, CLEANUP_ROLE);
      assert Secured(reply.state, key, reply.value);
      assert Identified(reply.state, key, reply.value);
    }
  }

  lemma PutStatusKeeps(key: Key, w: World, ch: Choice)
    requires StateInv(w.state) && w.proc.pc.PutStatus?
    ensures StepKeeps(key, w, PutStatusStep(key, w, ch))
  {
    NothingWritten(w.state, key);
    if UpdateStatus(w.state, key, w.proc.cp).Accepted? {
      StatusKeeps(w.state, key, w.proc.cp);
    }
  }

  lemma CreateKeeps(key: Key, w: World, ch: Choice)
    requires StateInv(w.state) && ProcInv(w.state, key, w.proc) && w.proc.pc.CreateOwned?
    ensures StepKeeps(key, w, CreateStep(w, ch))
  {
    var s, kind, o := w.state, w.proc.pc.newKind, w.proc.pc.created;
    NothingWritten(s, key);
    var reply := CreateObject(s, kind, o, ch.suffix);
    if reply.Accepted? {
      StoreKeeps(s, key, w.proc.cp, Ref(kind, o.meta.namespace, o.meta.generateName + ch.suffix), reply.value,
                 reply.state);
    }
  }

  lemma UpdateKeeps(key: Key, w: World, ch: Choice)
    requires StateInv(w.state) && ProcInv(w.state, key, w.proc) && w.proc.pc.UpdateOwned?
    ensures StepKeeps(key, w, UpdateStep(w, ch))
  {
    var s, r, o := w.state, w.proc.pc.ref, w.proc.pc.updated;
    NothingWritten(s, key);
    var reply := UpdateObject(s, r, o);
    if reply.Accepted? {
      StoreKeeps(s, key, w.proc.cp, r, reply.value, reply.state);
    }
  }

  lemma StepKeepsInv(cfg: Config, key: Key, w: World, ch: Choice)
    requires StateInv(w.state) && ProcInv(w.state, key, w.proc)
    ensures StepKeeps(key, w, Step(cfg, key, w, ch))
  {
    hide ReadStep, UpdateControlPlane, UpdateStatus, CreateObject, UpdateObject, DeleteObject, NeedsUpdate;
    hide AfterEnvironment, PutControlPlaneStep, PutEnvironmentStep, PutStatusStep, CreateStep, UpdateStep;
    hide DeleteBindingsStep, DeleteRolesStep;
    NothingWritten(w.state, key);
    match w.proc.pc
    case PutControlPlane(_) => PutControlPlaneKeeps(key, w, ch);
    case PutEnvironment => PutEnvironmentKeeps(key, w, ch);
    case GetStatus(_) =>
    case PutStatus(_) => PutStatusKeeps(key, w, ch);
    case CreateOwned(_, _) => CreateKeeps(key, w, ch);
    case UpdateOwned(_, _) => UpdateKeeps(key, w, ch);
    case DeleteBindings(_, _) => DeleteBindingsKeeps(key, w, ch);
    case DeleteRoles(_, _) => DeleteRolesKeeps(key, w, ch);
    case Done(_) =>
    case _ => ReadKeeps(cfg, key, w.state, w.proc, ch.now);
  }

  // ---------------------------------------------------------------------------
  // The theorem
  // ---------------------------------------------------------------------------

  lemma NextKeepsInv(cfg: Config, sys: System, e: Event, sys': System)
    requires Inv(sys) && Next(cfg, sys, e, sys')
    ensures Inv(sys')
  {
    match e
    case Others =>
      EnvironmentKeepsState(sys.state, sys'.state);
      forall k | k in sys.workers && !sys.workers[k].pc.Done? && !sys.workers[k].pc.GetControlPlane?
        ensures ProcInv(sys'.state, k, sys.workers[k])
      {
        EnvironmentTolerable(sys.state, sys'.state, k, sys.workers[k].cp);
        ProcStable(sys.state, sys'.state, k, sys.workers[k]);
      }
    case Begin(key) =>
    case Call(key, ch) =>
      var w := World(sys.state, sys.workers[key]);
      StepKeepsInv(cfg, key, w, ch);
      forall k | k in sys.workers && k != key && !sys.workers[k].pc.Done? && !sys.workers[k].pc.GetControlPlane?
        ensures ProcInv(sys'.state, k, sys.workers[k])
      {
        assert Identified(sys.state, k, sys.workers[k].cp);
        ProcStable(sys.state, sys'.state, k, sys.workers[k]);
      }
  }

  lemma {:induction false} RunsKeepInv(cfg: Config, run: seq<System>, events: seq<Event>, i: nat)
    requires IsRun(cfg, run, events) && i < |run|
    ensures Inv(run[i])
  {
    if i == 0 {
      assert StateInv(run[0].state);
    } else {
      RunsKeepInv(cfg, run, events, i - 1);
      NextKeepsInv(cfg, run[i - 1], events[i - 1], run[i]);
    }
  }

  /** In every state of every run, a ClusterRole or ClusterRoleBinding that is
      owned by a ControlPlane exists only while that ControlPlane is stored and
      carries the finalizer for it. */
  lemma NothingLeaks(cfg: Config, run: seq<System>, events: seq<Event>, i: nat)
    requires IsRun(cfg, run, events) && i < |run|
    ensures NoLeak(run[i].state)
  {
    RunsKeepInv(cfg, run, events, i);
  }

  /** So once a ControlPlane is gone, nothing cluster-wide is left of it. */
  lemma GoneMeansGone(cfg: Config, run: seq<System>, events: seq<Event>, i: nat, uid: Uid)
    requires IsRun(cfg, run, events) && i < |run|
    requires forall k | k in run[i].state.controlPlanes :: run[i].state.controlPlanes[k].meta.uid != uid
    ensures NoneLeft(run[i].state, ClusterRoles, uid) && NoneLeft(run[i].state, ClusterRoleBindings, uid)
  {
    RunsKeepInv(cfg, run, events, i);
    forall r | Belongs(run[i].state, r, uid)
      ensures !ClusterWide(r.kind)
    {
      var owner :| owner in run[i].state.objects[r].meta.owners && owner.uid == uid;
    }
  }
}
