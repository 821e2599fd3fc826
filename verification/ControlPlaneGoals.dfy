/** The goals of the reconciler in the order of its stages, and how the stage of
    one kind of owned object behaves in an undisturbed pass. */
module ControlPlaneGoals {
  import opened Wrappers
  import opened EnvVars
  import opened ControlPlaneEnv
  import opened Conditions
  import opened Metadata
  import opened Deployments
  import opened Cluster
  import opened ControlPlaneObjects
  import opened ControlPlanePass

  const NONAMES := Names("", "", "")

  /** The kinds of owned objects in the order of their stages. */
  predicate IsStage(kind: Kind) {
    kind != Services
  }

  function NextKind(kind: Kind): Kind {
    match kind
    case ServiceAccounts => ClusterRoles
    case ClusterRoles => ClusterRoleBindings
    case ClusterRoleBindings => Secrets
    case _ => Deployments
  }

  function Order(kind: Kind): nat {
    match kind
    case ServiceAccounts => 5
    case ClusterRoles => 6
    case ClusterRoleBindings => 7
    case Secrets => 8
    case _ => 9
  }

  /** Exactly one object of the kind is found, and it needs no repair. */
  ghost predicate KindSettled(cfg: Config, s: State, cp: ControlPlane, kind: Kind) {
    var items := Owned(s, kind, cp);
    && |items| == 1 && items[0] in s.objects
    && Generated(cfg, kind, cp, NONAMES).Some?
    && !ObjectNeedsRepair(s.objects[items[0]], Generated(cfg, kind, cp, NONAMES).value, cp)
  }

  /** The first kind from `kind` on that is not settled, as a stage number. */
  ghost function KindStage(cfg: Config, s: State, cp: ControlPlane, kind: Kind): (stage: nat)
    requires IsStage(kind)
    ensures Order(kind) <= stage <= 10
    decreases 10 - Order(kind)
  {
    if !KindSettled(cfg, s, cp, kind) then Order(kind)
    else if kind == Deployments then 10
    else KindStage(cfg, s, cp, NextKind(kind))
  }

  /** The body of the object that a settled kind has. */
  ghost function SettledBody(cfg: Config, s: State, cp: ControlPlane, kind: Kind): Body
    requires KindSettled(cfg, s, cp, kind)
  {
    s.objects[Owned(s, kind, cp)[0]].body
  }

  // ---------------------------------------------------------------------------
  // What a stage depends on
  // ---------------------------------------------------------------------------

  /** The same up to conditions and resource version. */
  predicate SameWants(a: ControlPlane, b: ControlPlane) {
    b == a.(conditions := b.conditions, meta := a.meta.(revision := b.meta.revision))
  }

  lemma RepairIgnoresNames(cfg: Config, o: Object, cp: ControlPlane, kind: Kind, names: Names)
    ensures Generated(cfg, kind, cp, names).Some? <==> Generated(cfg, kind, cp, NONAMES).Some?
    ensures Generated(cfg, kind, cp, names).Some? ==>
              (ObjectNeedsRepair(o, Generated(cfg, kind, cp, names).value, cp) <==>
               ObjectNeedsRepair(o, Generated(cfg, kind, cp, NONAMES).value, cp))
  {
    if kind == Deployments {
      var a, b := GeneratedWorkload(cp, names).containers, GeneratedWorkload(cp, NONAMES).containers;
      assert a[0].name == MAIN_CONTAINER && b[0].name == MAIN_CONTAINER;
    }
  }

  lemma SettledIgnoresStatus(cfg: Config, s: State, a: ControlPlane, b: ControlPlane, kind: Kind)
    requires SameWants(a, b)
    ensures KindSettled(cfg, s, a, kind) <==> KindSettled(cfg, s, b, kind)
  {
    assert Generated(cfg, kind, a, NONAMES) == Generated(cfg, kind, b, NONAMES);
    assert Owned(s, kind, a) == Owned(s, kind, b);
  }

  /** Nothing but objects of one kind differs. */
  ghost predicate OnlyKindMoved(s: State, s': State, kind: Kind) {
    && s'.dataPlanes == s.dataPlanes
    && forall r: Ref | r.kind != kind ::
         (r in s.objects <==> r in s'.objects) && (r in s.objects ==> s.objects[r] == s'.objects[r])
  }

  lemma ListIgnoresOtherKinds(s: State, s': State, moved: Kind, kind: Kind, scope: Option<string>, value: string,
                              uid: Uid)
    requires OnlyKindMoved(s, s', moved) && kind != moved
    ensures ListOwned(s, kind, scope, value, uid) == ListOwned(s', kind, scope, value, uid)
  {
    assert Labelled(s, kind, scope, value) == Labelled(s', kind, scope, value);
    ListingIsEnumeration(Labelled(s, kind, scope, value));
    SameItems(s, s', Listing(Labelled(s, kind, scope, value)), uid);
  }

  lemma {:induction false} SameItems(s: State, s': State, items: seq<Ref>, uid: Uid)
    requires forall r | r in items :: r in s.objects && r in s'.objects && s.objects[r] == s'.objects[r]
    ensures OwnedItems(s, items, uid) == OwnedItems(s', items, uid)
  {
    if items != [] {
      SameItems(s, s', items[1..], uid);
    }
  }

  lemma SettledIgnoresOtherKinds(cfg: Config, s: State, s': State, moved: Kind, cp: ControlPlane, kind: Kind)
    requires OnlyKindMoved(s, s', moved) && kind != moved
    ensures KindSettled(cfg, s, cp, kind) <==> KindSettled(cfg, s', cp, kind)
  {
    ListIgnoresOtherKinds(s, s', moved, kind, Scope(kind, cp.meta.namespace), CONTROL_PLANE_VALUE, cp.meta.uid);
    var items := Owned(s, kind, cp);
    if |items| == 1 {
      assert items[0] in items;
      ListOwnedIsOwnedRefs(s, kind, Scope(kind, cp.meta.namespace), CONTROL_PLANE_VALUE, cp.meta.uid);
    }
  }

  // ---------------------------------------------------------------------------
  // Creating and updating settle a kind
  // ---------------------------------------------------------------------------

  lemma CreateSettles(cfg: Config, s: State, cp: ControlPlane, kind: Kind, names: Names, suffix: string)
    requires IsStage(kind) && (kind == Secrets ==> cfg.secretsLabelled)
    requires Owned(s, kind, cp) == [] && Generated(cfg, kind, cp, names).Some?
    requires CreateObject(s, kind, Generated(cfg, kind, cp, names).value, suffix).Accepted?
    ensures var s' := CreateObject(s, kind, Generated(cfg, kind, cp, names).value, suffix).state;
            && KindSettled(cfg, s', cp, kind) && OnlyKindMoved(s, s', kind)
            && s'.controlPlanes == s.controlPlanes && s'.revision == s.revision + 1
  {
    var o := Generated(cfg, kind, cp, names).value;
    var r := Ref(kind, o.meta.namespace, o.meta.generateName + suffix);
    var s' := CreateObject(s, kind, o, suffix).state;
    var scope := Scope(kind, cp.meta.namespace);
    var uid := cp.meta.uid;
    SingleOwned(s, kind, scope, CONTROL_PLANE_VALUE, uid, r);
    assert o.meta.owners[0].uid == uid;
    assert OwnedRefs(s', kind, scope, CONTROL_PLANE_VALUE, uid) == {r} by {
      assert r in Labelled(s', kind, scope, CONTROL_PLANE_VALUE);
      assert OwnedBy(s'.objects[r].meta, uid);
      assert forall q | q in OwnedRefs(s', kind, scope, CONTROL_PLANE_VALUE, uid) && q != r ::
               q in OwnedRefs(s, kind, scope, CONTROL_PLANE_VALUE, uid);
    }
    SingleOwned(s', kind, scope, CONTROL_PLANE_VALUE, uid, r);
    GeneratedIsSettled(cfg, kind, cp, names, NONAMES);
  }

  lemma UpdateSettles(cfg: Config, s: State, cp: ControlPlane, kind: Kind, names: Names, r: Ref)
    requires IsStage(kind)
    requires Owned(s, kind, cp) == [r] && r in s.objects && Generated(cfg, kind, cp, names).Some?
    ensures var repaired := RepairedObject(s.objects[r], Generated(cfg, kind, cp, names).value, cp);
            && UpdateObject(s, r, repaired).Accepted?
            && var s' := UpdateObject(s, r, repaired).state;
               && KindSettled(cfg, s', cp, kind) && OnlyKindMoved(s, s', kind)
               && s'.controlPlanes == s.controlPlanes && s'.revision == s.revision + 1
  {
    var o := Generated(cfg, kind, cp, names).value;
    var repaired := RepairedObject(s.objects[r], o, cp);
    var s' := UpdateObject(s, r, repaired).state;
    var scope := Scope(kind, cp.meta.namespace);
    var uid := cp.meta.uid;
    SingleOwned(s, kind, scope, CONTROL_PLANE_VALUE, uid, r);
    assert r in OwnedRefs(s, kind, scope, CONTROL_PLANE_VALUE, uid);
    assert o.meta.owners[0].uid == uid;
    assert OwnedRefs(s', kind, scope, CONTROL_PLANE_VALUE, uid) == {r} by {
      assert OwnedBy(s'.objects[r].meta, uid);
      assert r in Labelled(s', kind, scope, CONTROL_PLANE_VALUE);
      assert forall q | q in OwnedRefs(s', kind, scope, CONTROL_PLANE_VALUE, uid) && q != r ::
               q in OwnedRefs(s, kind, scope, CONTROL_PLANE_VALUE, uid);
    }
    SingleOwned(s', kind, scope, CONTROL_PLANE_VALUE, uid, r);
    ObjectRepairSettles(s.objects[r], o, cp);
    RepairIgnoresNames(cfg, repaired, cp, kind, names);
    RepairIgnoresStored(s'.objects[r], repaired, Generated(cfg, kind, cp, NONAMES).value, cp);
  }

  /** What the server adds on storing does not ask for a repair. */
  lemma RepairIgnoresStored(stored: Object, sent: Object, generated: Object, cp: ControlPlane)
    requires stored.meta.owners == sent.meta.owners && stored.meta.labels == sent.meta.labels
    requires stored.body == sent.body
             || (stored.body.Workload? && sent.body.Workload? && stored.body.spec == sent.body.spec)
    ensures ObjectNeedsRepair(stored, generated, cp) <==> ObjectNeedsRepair(sent, generated, cp)
  {
  }
}
