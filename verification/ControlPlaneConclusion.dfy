/** What a status that says "provisioned" is worth when it is written, over all runs
    in which nobody else takes the objects of a ControlPlane away. */
module ControlPlaneConclusion {
  import opened Wrappers
  import opened Conditions
  import opened Metadata
  import opened Cluster
  import opened ControlPlaneObjects
  import opened ControlPlanePass
  import opened ControlPlaneGoals
  import opened ControlPlaneRuns
  import opened ControlPlaneOwnership
  import opened ControlPlaneWiring

  predicate SaysNotProvisioned(conditions: seq<Condition>) {
    Find(conditions, PROVISIONED).Some? && Find(conditions, PROVISIONED).value.status == StatusFalse
  }

  ghost predicate HasKind(s: State, kind: Kind, uid: Uid) {
    exists r :: Belongs(s, r, uid) && r.kind == kind
  }

  /** Both finalizers are stored, and there is an object of every kind. */
  ghost predicate Complete(s: State, key: Key, cp: ControlPlane) {
    && Identified(s, key, cp) && Secured(s, key, cp)
    && forall kind | IsStage(kind) :: HasKind(s, kind, cp.meta.uid)
  }

  /** What a pass has seen so far is there; until it has seen everything, it has in
      memory that provisioning is not done. */
  ghost predicate Gathered(s: State, key: Key, p: Proc) {
    match p.pc
    case ListKind(kind) =>
      && IsStage(kind) && SaysNotProvisioned(p.cp.conditions)
      && forall k | IsStage(k) && Order(k) < Order(kind) :: HasKind(s, k, p.cp.meta.uid)
    case GetAuthority(_) => SaysNotProvisioned(p.cp.conditions)
    case CreateOwned(_, _) => SaysNotProvisioned(p.cp.conditions)
    case UpdateOwned(_, _) => SaysNotProvisioned(p.cp.conditions)
    case GetStatus(retry) => if retry then Complete(s, key, p.cp) else SaysNotProvisioned(p.cp.conditions)
    case PutStatus(retry) => if retry then Complete(s, key, p.cp) else SaysNotProvisioned(p.cp.conditions)
    case _ => true
  }

  ghost predicate ConclusionInv(cfg: Config, sys: System) {
    && WiringInv(cfg, sys)
    && forall k | k in sys.workers :: Gathered(sys.state, k, sys.workers[k])
  }

  // ---------------------------------------------------------------------------
  // Stability
  // ---------------------------------------------------------------------------

  /** Workers whose next call rests on objects seen before. */
  predicate Rests(pc: Pc) {
    pc.ListKind? || (pc.GetStatus? && pc.retry) || (pc.PutStatus? && pc.retry)
  }

  lemma RestingIsSecured(s: State, key: Key, p: Proc)
    requires ProcInv(s, key, p) && Gathered(s, key, p) && Rests(p.pc)
    ensures Identified(s, key, p.cp) && Secured(s, key, p.cp) && Holds(s, key, p.cp.meta.uid, CLEANUP_ROLE)
  {
    hide Belongs;
  }

  lemma GatheredStable(s: State, s': State, key: Key, p: Proc)
    requires ProcInv(s, key, p) && Gathered(s, key, p) && Rests(p.pc) && Tolerable(s, s', key, p.cp.meta.uid)
    requires forall r | Belongs(s, r, p.cp.meta.uid) :: Belongs(s', r, p.cp.meta.uid)
    ensures Gathered(s', key, p)
  {
    hide Belongs;
    RestingIsSecured(s, key, p);
    assert Identified(s', key, p.cp) && Secured(s', key, p.cp);
    assert forall kind :: HasKind(s, kind, p.cp.meta.uid) ==> HasKind(s', kind, p.cp.meta.uid);
  }

  lemma UnrestingIsGathered(s: State, s': State, key: Key, p: Proc)
    requires Gathered(s, key, p) && !Rests(p.pc)
    ensures Gathered(s', key, p)
  {
    hide Belongs;
  }

  // ---------------------------------------------------------------------------
  // Steps
  // ---------------------------------------------------------------------------

  lemma MarkingSaysNo(conditions: seq<Condition>, dataPlaneIsSet: bool, now: int)
    ensures SaysNotProvisioned(WithDataPlaneStatus(conditions, dataPlaneIsSet, now))
    ensures Find(WithDataPlaneStatus(conditions, dataPlaneIsSet, now), "Provisioned").value.reason ==
            if dataPlaneIsSet then "PodsNotReady" else "NoDataplane"
    ensures SaysNotProvisioned(WithScheduled(conditions, now))
  {
    MarkingSaysWhether(conditions, dataPlaneIsSet, now, "");
    SchedulingSays(conditions, now, "");
  }

  lemma AfterEnvironmentGathered(s: State, key: Key, p: Proc, cp: ControlPlane, now: int)
    ensures Gathered(s, key, AfterEnvironment(p, cp, now))
  {
    hide WithDataPlaneStatus;
    MarkingSaysNo(cp.conditions, DataPlaneIsSet(cp), now);
  }

  lemma AfterServiceGathered(s: State, key: Key, p: Proc, service: string, now: int)
    ensures Gathered(s, key, AfterService(p, service, now))
  {
    hide AfterEnvironment, Complete, HasKind;
    var defaulted := ControlPlaneEnv.Defaulted(p.cp.env, p.cp.meta.namespace, service, {});
    AfterEnvironmentGathered(s, key, p, p.cp.(env := defaulted), now);
  }

  lemma AfterGetGathered(s: State, key: Key, p: Proc, cp: ControlPlane, now: int)
    ensures Gathered(s, key, AfterGet(p, cp, now))
  {
    hide AfterService, WithScheduled, Complete, HasKind;
    var reset := WithReadyReset(cp.conditions, now);
    MarkingSaysNo(reset, false, now);
    AfterServiceGathered(s, key, p.(cp := cp.(conditions := reset)), "", now);
  }

  lemma OrderTellsKinds(a: Kind, b: Kind)
    requires IsStage(a) && IsStage(b) && Order(a) == Order(b)
    ensures a == b
  {
  }

  /** The stage of a kind with one object hands over what was gathered. */
  lemma AfterKindGathered(s: State, key: Key, p: Proc, kind: Kind, name: string, body: Body, now: int)
    requires Identified(s, key, p.cp) && Secured(s, key, p.cp) && p.pc == ListKind(kind) && Gathered(s, key, p)
    requires HasKind(s, kind, p.cp.meta.uid)
    ensures Gathered(s, key, AfterKind(p, kind, name, body, now))
  {
    hide Belongs, HasKind, WithProvisioned, SaysNotProvisioned;
    forall k | IsStage(k) && Order(k) == Order(kind) {
      OrderTellsKinds(k, kind);
    }
  }

  lemma AfterListGathered(cfg: Config, s: State, key: Key, p: Proc, kind: Kind, now: int)
    requires Identified(s, key, p.cp) && Secured(s, key, p.cp) && p.pc == ListKind(kind) && Gathered(s, key, p)
    ensures Gathered(s, key, AfterList(cfg, s, p, kind, Owned(s, kind, p.cp), now))
  {
    hide Generated, ObjectNeedsRepair, RepairedObject, Owned, Belongs, Secured, Identified, AfterKind;
    var items := Owned(s, kind, p.cp);
    if |items| == 1 {
      assert items[0] in items;
      ListedBelongs(s, p.cp, kind, items[0]);
      assert HasKind(s, kind, p.cp.meta.uid);
      if items[0] in s.objects {
        AfterKindGathered(s, key, p, kind, items[0].name, s.objects[items[0]].body, now);
      }
    }
  }

  lemma StepGathered(cfg: Config, key: Key, w: World, ch: Choice)
    requires ProcInv(w.state, key, w.proc) && Gathered(w.state, key, w.proc)
    ensures Gathered(Step(cfg, key, w, ch).state, key, Step(cfg, key, w, ch).proc)
  {
    hide AfterService, AfterEnvironment, AfterGet, AfterList, Owned, NeedsUpdate, UpdateControlPlane;
    hide Cluster.UpdateStatus;
    hide CreateObject, UpdateObject, DeleteObject, Complete, HasKind, SaysNotProvisioned, Without;
    var s, p := w.state, w.proc;
    match p.pc
    case GetControlPlane =>
      if key in s.controlPlanes {
        AfterGetGathered(s, key, p, s.controlPlanes[key], ch.now);
      }
    case ListServices(uid) =>
      var services := ListOwned(s, Services, Some(p.cp.meta.namespace), DATA_PLANE_VALUE, uid);
      if |services| == 1 {
        AfterServiceGathered(s, key, p, services[0].name, ch.now);
      }
    case ListKind(kind) => AfterListGathered(cfg, s, key, p, kind, ch.now);
    case PutEnvironment =>
      var reply := UpdateControlPlane(s, key, p.cp);
      if reply.Accepted? {
        AfterEnvironmentGathered(reply.state, key, p, reply.value, ch.now);
      }
    case _ =>
  }

  // ---------------------------------------------------------------------------
  // Runs
  // ---------------------------------------------------------------------------

  lemma OthersKeepGathered(cfg: Config, sys: System, sys': System)
    requires ConclusionInv(cfg, sys) && Next(cfg, sys, Others, sys') && Peaceful(sys, Others, sys')
    ensures forall k | k in sys'.workers :: Gathered(sys'.state, k, sys'.workers[k])
  {
    hide Single, Placed, CallInv, Wired, WiresReady, Environment, Undisturbing, StateInv, ProcInv, Gathered, Identified;
    hide Secured, Tolerable;
    forall k | k in sys'.workers
      ensures Gathered(sys'.state, k, sys'.workers[k])
    {
      var p := sys.workers[k];
      if Rests(p.pc) {
        RestingIsSecured(sys.state, k, p);
        EnvironmentTolerable(sys.state, sys'.state, k, p.cp);
        HeldThroughout(sys.state, sys'.state, k, p.cp.meta.uid);
        StoredThroughout(sys.state, sys'.state, k, p.cp.meta.uid);
        GatheredStable(sys.state, sys'.state, k, p);
      } else {
        UnrestingIsGathered(sys.state, sys'.state, k, p);
      }
    }
  }

  lemma CallKeepsGathered(cfg: Config, sys: System, key: Key, ch: Choice, sys': System)
    requires ConclusionInv(cfg, sys) && Next(cfg, sys, Call(key, ch), sys')
    ensures forall k | k in sys'.workers :: Gathered(sys'.state, k, sys'.workers[k])
  {
    hide Step, Single, Placed, CallInv, Wired, WiresReady, StateInv, ProcInv, AtHome, Tolerable, Identified, Gathered;
    hide Secured;
    var w := World(sys.state, sys.workers[key]);
    var s, s' := sys.state, sys'.state;
    assert DueIsOwn(s, w.proc);
    StepGathered(cfg, key, w, ch);
    StepKeepsInv(cfg, key, w, ch);
    StaysHome(cfg, key, w, ch);
    if w.proc.pc.Done? || w.proc.pc.GetControlPlane? {
      IdleTouchesNothing(cfg, key, w, ch);
    }
    forall k | k in sys'.workers && k != key
      ensures Gathered(s', k, sys'.workers[k])
    {
      var p := sys.workers[k];
      if Rests(p.pc) {
        RestingIsSecured(s, k, p);
        ForeignObjectsStay(s, s', key, w.proc, k, p.cp.meta.uid);
        GatheredStable(s, s', k, p);
      } else {
        UnrestingIsGathered(s, s', k, p);
      }
    }
  }

  lemma NextKeepsConclusion(cfg: Config, sys: System, e: Event, sys': System)
    requires ConclusionInv(cfg, sys) && Next(cfg, sys, e, sys') && Peaceful(sys, e, sys')
    ensures ConclusionInv(cfg, sys')
  {
    hide WiringInv, Gathered, Step, Environment, Peaceful;
    NextKeepsWiring(cfg, sys, e, sys');
    match e
    case Others => OthersKeepGathered(cfg, sys, sys');
    case Begin(key) => StartGathered(sys'.state, key);
    case Call(key, ch) => CallKeepsGathered(cfg, sys, key, ch, sys');
  }

  lemma StartGathered(s: State, key: Key)
    ensures Gathered(s, key, Start())
  {
  }

  lemma {:induction false} RunsKeepConclusion(cfg: Config, run: seq<System>, events: seq<Event>, i: nat)
    requires IsRun(cfg, run, events) && i < |run|
    requires forall j | 0 <= j < |events| :: Peaceful(run[j], events[j], run[j + 1])
    ensures ConclusionInv(cfg, run[i])
  {
    hide WiringInv, Next, Peaceful;
    if i == 0 {
      RunsKeepWiring(cfg, run, events, 0);
    } else {
      RunsKeepConclusion(cfg, run, events, i - 1);
      assert run[i - 1 + 1] == run[i];
      NextKeepsConclusion(cfg, run[i - 1], events[i - 1], run[i]);
    }
  }

  /** In peaceful runs, whenever a worker is about to write a status that says anything
      but "not provisioned", its ControlPlane is stored with both finalizers and there
      is exactly one object of every kind (of certificates if they are labelled). */
  lemma ConclusionsAreHonest(cfg: Config, run: seq<System>, events: seq<Event>, i: nat, key: Key)
    requires IsRun(cfg, run, events) && i < |run|
    requires forall j | 0 <= j < |events| :: Peaceful(run[j], events[j], run[j + 1])
    requires key in run[i].workers && run[i].workers[key].pc.PutStatus?
    requires !SaysNotProvisioned(run[i].workers[key].cp.conditions)
    ensures var s, cp := run[i].state, run[i].workers[key].cp;
            && key in s.controlPlanes && s.controlPlanes[key].meta.uid == cp.meta.uid
            && CLEANUP_ROLE in s.controlPlanes[key].meta.finalizers
            && CLEANUP_BINDING in s.controlPlanes[key].meta.finalizers
            && forall kind | IsStage(kind) ::
                 && HasKind(s, kind, cp.meta.uid)
                 && (Listable(cfg, kind) ==>
                       forall r, q | Belongs(s, r, cp.meta.uid) && Belongs(s, q, cp.meta.uid)
                                     && r.kind == q.kind == kind :: r == q)
  {
    hide Belongs, WiringInv, Next, Peaceful, HasKind;
    RunsKeepConclusion(cfg, run, events, i);
    var s, cp := run[i].state, run[i].workers[key].cp;
    assert Gathered(s, key, run[i].workers[key]);
    assert Holds(s, key, cp.meta.uid, CLEANUP_ROLE) && Holds(s, key, cp.meta.uid, CLEANUP_BINDING);
    forall kind | IsStage(kind) && Listable(cfg, kind) {
      AtMostOne(cfg, run, events, i, kind, cp);
    }
  }
}
