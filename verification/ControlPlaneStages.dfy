/** The stages of owned objects in an undisturbed pass, run to its end, and the
    conditions that a pass works with on the way. */
module ControlPlaneStages {
  import opened Wrappers
  import opened EnvVars
  import opened ControlPlaneEnv
  import opened Conditions
  import opened Metadata
  import opened Deployments
  import opened Cluster
  import opened ControlPlaneObjects
  import opened ControlPlanePass
  import opened ControlPlaneGoals

  // ---------------------------------------------------------------------------
  // The stages of owned objects, run to the end of the pass
  // ---------------------------------------------------------------------------

  /** The in-memory object is the stored one up to environment and conditions. */
  ghost predicate Fits(s: State, key: Key, cp: ControlPlane) {
    && key in s.controlPlanes
    && var stored := s.controlPlanes[key];
       && cp.meta == stored.meta
       && Unique(stored.conditions) && Find(stored.conditions, PROVISIONED).Some?
       && Unique(cp.conditions) && Find(cp.conditions, PROVISIONED).Some?
  }

  /** Of the ControlPlanes, at most the status of one differs. */
  ghost predicate OnlyStatusMoved(s: State, s': State, key: Key) {
    && key in s.controlPlanes && key in s'.controlPlanes
    && s'.controlPlanes == s.controlPlanes[key := s'.controlPlanes[key]]
    && SameWants(s.controlPlanes[key], s'.controlPlanes[key])
    && Unique(s'.controlPlanes[key].conditions) && Find(s'.controlPlanes[key].conditions, PROVISIONED).Some?
  }

  /** The stored status after an `updateStatus` with these conditions. */
  function StatusWritten(s: State, key: Key, cp: ControlPlane): State
    requires key in s.controlPlanes
  {
    if NeedsUpdate(s.controlPlanes[key].conditions, cp.conditions) then Landed(s, UpdateStatus(s, key, cp), Served)
    else s
  }

  lemma StatusRun(cfg: Config, key: Key, s: State, p: Proc, ch: Choice)
    requires p.pc.GetStatus? && ch.fault == Served && key in s.controlPlanes
    ensures Finish(cfg, key, World(s, p), ch).state == StatusWritten(s, key, p.cp)
  {
    hide Finish, Writes, NeedsUpdate;
    var w := World(s, p);
    var w1 := Step(cfg, key, w, ch);
    FinishStep(cfg, key, w, ch);
    FinishStep(cfg, key, w1, ch);
    if w1.proc.pc.PutStatus? {
      FinishStep(cfg, key, Step(cfg, key, w1, ch), ch);
    }
  }

  lemma StatusWrittenMovesStatus(s: State, key: Key, cp: ControlPlane)
    requires Fits(s, key, cp)
    ensures OnlyStatusMoved(s, StatusWritten(s, key, cp), key)
    ensures StatusWritten(s, key, cp).objects == s.objects && StatusWritten(s, key, cp).dataPlanes == s.dataPlanes
    ensures Meaning(StatusWritten(s, key, cp).controlPlanes[key].conditions) == Meaning(cp.conditions)
  {
    NeedsUpdateIsDifference(s.controlPlanes[key].conditions, cp.conditions);
  }

  /** What the stage of an unsettled kind does if it writes at all. */
  ghost predicate Repairs(cfg: Config, s: State, s': State, key: Key, cp: ControlPlane, kind: Kind) {
    && KindSettled(cfg, s', cp, kind) && OnlyKindMoved(s, s', kind) && OnlyStatusMoved(s, s', key)
    && s'.revision > s.revision
    && (var before, after := s.controlPlanes[key].conditions, s'.controlPlanes[key].conditions;
        if kind == Deployments && !DataPlaneIsSet(cp) then Meaning(after) == Meaning(cp.conditions)
        else after == before)
  }

  /** The end of a pass after its write of an owned object. */
  lemma AfterOwnedRun(cfg: Config, key: Key, s: State, s1: State, p: Proc, kind: Kind, ch: Choice)
    requires ch.fault == Served && Fits(s, key, p.cp)
    requires KindSettled(cfg, s1, p.cp, kind) && OnlyKindMoved(s, s1, kind)
    requires s1.controlPlanes == s.controlPlanes && s1.revision == s.revision + 1
    ensures Repairs(cfg, s, Finish(cfg, key, World(s1, AfterOwned(p, kind)), ch).state, key, p.cp, kind)
  {
    if kind == Deployments && !DataPlaneIsSet(p.cp) {
      var q := p.(pc := GetStatus(false));
      StatusRun(cfg, key, s1, q, ch);
      StatusWrittenMovesStatus(s1, key, p.cp);
      var s2 := StatusWritten(s1, key, p.cp);
      assert Owned(s2, kind, p.cp) == Owned(s1, kind, p.cp) by {
        SameItemsAndLabels(s1, s2, kind, p.cp);
      }
    }
  }

  lemma SameItemsAndLabels(s: State, s': State, kind: Kind, cp: ControlPlane)
    requires s.objects == s'.objects
    ensures Owned(s, kind, cp) == Owned(s', kind, cp)
  {
    var scope := Scope(kind, cp.meta.namespace);
    assert Labelled(s, kind, scope, CONTROL_PLANE_VALUE) == Labelled(s', kind, scope, CONTROL_PLANE_VALUE);
    ListingIsEnumeration(Labelled(s, kind, scope, CONTROL_PLANE_VALUE));
    SameItems(s, s', Listing(Labelled(s, kind, scope, CONTROL_PLANE_VALUE)), cp.meta.uid);
  }

  /** No reason, other than a name collision, for the stage of a kind to fail. */
  ghost predicate KindHealthy(cfg: Config, s: State, cp: ControlPlane, kind: Kind) {
    |Owned(s, kind, cp)| <= 1 && Generated(cfg, kind, cp, NONAMES).Some?
  }

  predicate NameIsFree(cfg: Config, s: State, cp: ControlPlane, kind: Kind, suffix: string) {
    var meta := GeneratedMeta(cfg, kind, cp);
    Ref(kind, meta.namespace, meta.generateName + suffix) !in s.objects
  }

  /** The stage of the kind, if it has work to do, succeeds. */
  ghost predicate Repairable(cfg: Config, s: State, cp: ControlPlane, kind: Kind, suffix: string) {
    KindHealthy(cfg, s, cp, kind) && (Owned(s, kind, cp) == [] ==> NameIsFree(cfg, s, cp, kind, suffix))
  }

  lemma CreateRun(cfg: Config, key: Key, s: State, p: Proc, kind: Kind, ch: Choice)
    requires IsStage(kind) && ch.fault == Served && (kind == Secrets ==> cfg.secretsLabelled) && Fits(s, key, p.cp)
    requires Owned(s, kind, p.cp) == [] && Generated(cfg, kind, p.cp, p.names).Some?
    requires p.pc == CreateOwned(kind, Generated(cfg, kind, p.cp, p.names).value)
    ensures var s' := Finish(cfg, key, World(s, p), ch).state;
            if NameIsFree(cfg, s, p.cp, kind, ch.suffix) then Repairs(cfg, s, s', key, p.cp, kind) else s' == s
  {
    hide Finish, Writes, KindSettled, Repairs, GeneratedBody, GeneratedMeta, AfterOwned;
    var w := World(s, p);
    var w1 := Step(cfg, key, w, ch);
    FinishStep(cfg, key, w, ch);
    FinishStep(cfg, key, w1, ch);
    if NameIsFree(cfg, s, p.cp, kind, ch.suffix) {
      CreateSettles(cfg, s, p.cp, kind, p.names, ch.suffix);
      AfterOwnedRun(cfg, key, s, w1.state, p, kind, ch);
    }
  }

  lemma UpdateRun(cfg: Config, key: Key, s: State, p: Proc, r: Ref, o: Object, ch: Choice)
    requires ch.fault == Served && Fits(s, key, p.cp) && p.pc == UpdateOwned(r, o)
    requires UpdateObject(s, r, o).Accepted?
    requires var s1 := UpdateObject(s, r, o).state;
             && KindSettled(cfg, s1, p.cp, r.kind) && OnlyKindMoved(s, s1, r.kind)
             && s1.controlPlanes == s.controlPlanes && s1.revision == s.revision + 1
    ensures Repairs(cfg, s, Finish(cfg, key, World(s, p), ch).state, key, p.cp, r.kind)
  {
    hide Finish, Writes, KindSettled, Repairs, AfterOwned;
    var w := World(s, p);
    var w1 := Step(cfg, key, w, ch);
    FinishStep(cfg, key, w, ch);
    AfterOwnedRun(cfg, key, s, w1.state, p, r.kind, ch);
  }

  /** A kind with one object in need of repair is repaired. */
  lemma UnsettledUpdate(cfg: Config, key: Key, s: State, p: Proc, kind: Kind, ch: Choice)
    requires IsStage(kind) && ch.fault == Served && Fits(s, key, p.cp)
    requires p.pc == ListKind(kind) && !KindSettled(cfg, s, p.cp, kind)
    requires KindHealthy(cfg, s, p.cp, kind) && |Owned(s, kind, p.cp)| == 1
    ensures Repairs(cfg, s, Finish(cfg, key, World(s, p), ch).state, key, p.cp, kind)
  {
    hide Finish, Writes, Repairs, Generated, ObjectNeedsRepair, RepairedObject, AfterKind, UpdateObject, Fits;
    var r := Owned(s, kind, p.cp)[0];
    assert Owned(s, kind, p.cp) == [r] && r in Owned(s, kind, p.cp);
    ListOwnedIsOwnedRefs(s, kind, Scope(kind, p.cp.meta.namespace), CONTROL_PLANE_VALUE, p.cp.meta.uid);
    RepairIgnoresNames(cfg, s.objects[r], p.cp, kind, p.names);
    UpdateSettles(cfg, s, p.cp, kind, p.names, r);
    var w := World(s, p);
    FinishStep(cfg, key, w, ch);
    UpdateRun(cfg, key, s, Step(cfg, key, w, ch).proc, r, Step(cfg, key, w, ch).proc.pc.updated, ch);
  }

  /** A kind without objects gets one, unless the name of it is taken. */
  lemma UnsettledCreate(cfg: Config, key: Key, s: State, p: Proc, kind: Kind, ch: Choice)
    requires IsStage(kind) && ch.fault == Served && (kind == Secrets ==> cfg.secretsLabelled) && Fits(s, key, p.cp)
    requires p.pc == ListKind(kind) && KindHealthy(cfg, s, p.cp, kind) && Owned(s, kind, p.cp) == []
    ensures var s' := Finish(cfg, key, World(s, p), ch).state;
            if NameIsFree(cfg, s, p.cp, kind, ch.suffix) then Repairs(cfg, s, s', key, p.cp, kind) else s' == s
  {
    hide Finish, Writes, Repairs, Generated, ObjectNeedsRepair, AfterKind, NameIsFree, Fits;
    RepairIgnoresNames(cfg, Object(p.cp.meta, Plain), p.cp, kind, p.names);
    var w := World(s, p);
    var w1 := Step(cfg, key, w, ch);
    FinishStep(cfg, key, w, ch);
    if kind == Secrets {
      FinishStep(cfg, key, w1, ch);
      CreateRun(cfg, key, s, Step(cfg, key, w1, ch).proc, kind, ch);
    } else {
      CreateRun(cfg, key, s, w1.proc, kind, ch);
    }
  }

  /** No certificate is found, and a new one will not be found either. */
  ghost predicate Lost(cfg: Config, s: State, cp: ControlPlane) {
    !cfg.secretsLabelled && Owned(s, Secrets, cp) == []
  }

  /** One more certificate is stored, and none is found. */
  ghost predicate Piles(s: State, s': State, cp: ControlPlane) {
    && s'.controlPlanes == s.controlPlanes && s'.revision == s.revision + 1
    && OnlyKindMoved(s, s', Secrets) && Owned(s', Secrets, cp) == []
  }

  lemma NewCertificate(cfg: Config, key: Key, s: State, p: Proc, ch: Choice)
    requires ch.fault == Served && p.pc == ListKind(Secrets) && Owned(s, Secrets, p.cp) == []
    ensures Generated(cfg, Secrets, p.cp, p.names) == Some(Object(GeneratedMeta(cfg, Secrets, p.cp), Plain))
    ensures Finish(cfg, key, World(s, p), ch).state ==
            Landed(s, CreateObject(s, Secrets, Object(GeneratedMeta(cfg, Secrets, p.cp), Plain), ch.suffix), Served)
  {
    hide Finish, Writes, GeneratedMeta, CreateObject, Owned, AfterOwned, Landed;
    var o := Object(GeneratedMeta(cfg, Secrets, p.cp), Plain);
    var p1, p2 := p.(pc := GetAuthority(o)), p.(pc := CreateOwned(Secrets, o));
    assert Step(cfg, key, World(s, p), ch) == World(s, p1);
    FinishStep(cfg, key, World(s, p), ch);
    assert Step(cfg, key, World(s, p1), ch) == World(s, p2);
    FinishStep(cfg, key, World(s, p1), ch);
    CertificateStored(cfg, key, s, p2, ch);
  }

  lemma CertificateStored(cfg: Config, key: Key, s: State, p: Proc, ch: Choice)
    requires ch.fault == Served && p.pc.CreateOwned? && p.pc.newKind == Secrets
    ensures Finish(cfg, key, World(s, p), ch).state ==
            Landed(s, CreateObject(s, Secrets, p.pc.created, ch.suffix), Served)
  {
    hide Finish, Writes, CreateObject, Landed;
    FinishStep(cfg, key, World(s, p), ch);
    FinishStep(cfg, key, Step(cfg, key, World(s, p), ch), ch);
  }

  lemma UnlabelledIsNotFound(cfg: Config, s: State, cp: ControlPlane, suffix: string)
    requires !cfg.secretsLabelled && Owned(s, Secrets, cp) == [] && NameIsFree(cfg, s, cp, Secrets, suffix)
    ensures var reply := CreateObject(s, Secrets, Object(GeneratedMeta(cfg, Secrets, cp), Plain), suffix);
            && reply.Accepted? && OnlyKindMoved(s, reply.state, Secrets) && reply.state.controlPlanes == s.controlPlanes
            && Owned(reply.state, Secrets, cp) == []
  {
    var o := Object(GeneratedMeta(cfg, Secrets, cp), Plain);
    var s', uid := CreateObject(s, Secrets, o, suffix).state, cp.meta.uid;
    var r := Ref(Secrets, o.meta.namespace, o.meta.generateName + suffix);
    SingleOwned(s, Secrets, None, CONTROL_PLANE_VALUE, uid, r);
    SingleOwned(s', Secrets, None, CONTROL_PLANE_VALUE, uid, r);
    assert !Carries(s'.objects[r].meta, CONTROLLED_LABEL, CONTROL_PLANE_VALUE);
    assert OwnedRefs(s', Secrets, None, CONTROL_PLANE_VALUE, uid) <=
           OwnedRefs(s, Secrets, None, CONTROL_PLANE_VALUE, uid);
  }

  lemma SecretNames(cfg: Config, s: State, a: ControlPlane, b: ControlPlane, suffix: string)
    requires a.meta == b.meta
    ensures NameIsFree(cfg, s, a, Secrets, suffix) <==> NameIsFree(cfg, s, b, Secrets, suffix)
    ensures NameIsFree(cfg, s, a, Secrets, suffix) <==>
            CreateObject(s, Secrets, Object(GeneratedMeta(cfg, Secrets, a), Plain), suffix).Accepted?
  {
  }

  lemma UnsettledLost(cfg: Config, key: Key, s: State, p: Proc, ch: Choice)
    requires ch.fault == Served && p.pc == ListKind(Secrets) && Lost(cfg, s, p.cp)
    ensures var s' := Finish(cfg, key, World(s, p), ch).state;
            if NameIsFree(cfg, s, p.cp, Secrets, ch.suffix) then Piles(s, s', p.cp) else s' == s
  {
    hide Finish, Writes, GeneratedMeta, NameIsFree, OnlyKindMoved, Owned;
    NewCertificate(cfg, key, s, p, ch);
    SecretNames(cfg, s, p.cp, p.cp, ch.suffix);
    if NameIsFree(cfg, s, p.cp, Secrets, ch.suffix) {
      UnlabelledIsNotFound(cfg, s, p.cp, ch.suffix);
    }
  }

  /** What the stage of an unsettled kind comes to. */
  ghost predicate StageOutcome(cfg: Config, s: State, s': State, key: Key, cp: ControlPlane, kind: Kind,
                               suffix: string) {
    if !Repairable(cfg, s, cp, kind, suffix) then s' == s
    else if kind == Secrets && Lost(cfg, s, cp) then Piles(s, s', cp)
    else Repairs(cfg, s, s', key, cp, kind)
  }

  /** The stage of an unsettled kind repairs it, or ends the pass without any write if
      it cannot; a lost certificate is stored once more. */
  lemma UnsettledKind(cfg: Config, key: Key, s: State, p: Proc, kind: Kind, ch: Choice)
    requires IsStage(kind) && ch.fault == Served && Fits(s, key, p.cp)
    requires p.pc == ListKind(kind) && !KindSettled(cfg, s, p.cp, kind)
    ensures StageOutcome(cfg, s, Finish(cfg, key, World(s, p), ch).state, key, p.cp, kind, ch.suffix)
  {
    hide Finish, Writes, Repairs, Piles, Generated, KindSettled, ObjectNeedsRepair, NameIsFree, Fits;
    if !KindHealthy(cfg, s, p.cp, kind) {
      var w := World(s, p);
      RepairIgnoresNames(cfg, Object(p.cp.meta, Plain), p.cp, kind, p.names);
      FinishStep(cfg, key, w, ch);
      FinishStep(cfg, key, Step(cfg, key, w, ch), ch);
    } else if |Owned(s, kind, p.cp)| == 1 {
      UnsettledUpdate(cfg, key, s, p, kind, ch);
    } else if kind == Secrets && Lost(cfg, s, p.cp) {
      UnsettledLost(cfg, key, s, p, ch);
    } else {
      UnsettledCreate(cfg, key, s, p, kind, ch);
    }
  }

  /** The stage of a settled kind hands over to the next one. */
  lemma SettledKind(cfg: Config, key: Key, s: State, p: Proc, kind: Kind, ch: Choice) returns (name: string)
    requires IsStage(kind) && ch.fault == Served
    requires p.pc == ListKind(kind) && KindSettled(cfg, s, p.cp, kind)
    ensures var w' := World(s, AfterKind(p, kind, name, SettledBody(cfg, s, p.cp, kind), ch.now));
            && Finish(cfg, key, World(s, p), ch) == Finish(cfg, key, w', ch)
            && Writes(cfg, key, World(s, p), ch) == Writes(cfg, key, w', ch)
  {
    hide Finish, Writes;
    var items := Owned(s, kind, p.cp);
    name := items[0].name;
    var w := World(s, p);
    RepairIgnoresNames(cfg, s.objects[items[0]], p.cp, kind, p.names);
    FinishStep(cfg, key, w, ch);
    WritesStep(cfg, key, w, ch);
  }

  /** The end of a pass that found every kind settled. */
  ghost function Concluded(cfg: Config, s: State, key: Key, cp: ControlPlane, now: int): State
    requires key in s.controlPlanes && KindSettled(cfg, s, cp, Deployments)
  {
    var body := SettledBody(cfg, s, cp, Deployments);
    if body.Workload? && Serving(body.status) then
      StatusWritten(s, key, cp.(conditions := WithProvisioned(cp.conditions, now)))
    else s
  }

  /** The stages from `kind` on: the first unsettled kind is repaired, or, if there
      is none, readiness is concluded. */
  lemma {:induction false} KindsRun(cfg: Config, key: Key, s: State, p: Proc, kind: Kind, ch: Choice)
    requires IsStage(kind) && ch.fault == Served && Fits(s, key, p.cp)
    requires p.pc == ListKind(kind)
    ensures var s' := Finish(cfg, key, World(s, p), ch).state;
            var stage := KindStage(cfg, s, p.cp, kind);
            && (stage < 10 ==> StageOutcome(cfg, s, s', key, p.cp, KindOf(stage), ch.suffix))
            && (stage == 10 ==>
                  && KindSettled(cfg, s, p.cp, Deployments)
                  && s' == Concluded(cfg, s, key, p.cp, ch.now))
    decreases 10 - Order(kind)
  {
    hide Finish, Writes, KindSettled, StageOutcome, WithProvisioned;
    if !KindSettled(cfg, s, p.cp, kind) {
      UnsettledKind(cfg, key, s, p, kind, ch);
    } else {
      var name := SettledKind(cfg, key, s, p, kind, ch);
      var body := SettledBody(cfg, s, p.cp, kind);
      var next := AfterKind(p, kind, name, body, ch.now);
      if kind != Deployments {
        KindsRun(cfg, key, s, next, NextKind(kind), ch);
      } else if body.Workload? && Serving(body.status) {
        StatusRun(cfg, key, s, next, ch);
      } else {
        FinishStep(cfg, key, World(s, next), ch);
      }
    }
  }

  lemma StatusWriteShows(s: State, key: Key, cp: ControlPlane)
    requires key in s.controlPlanes && s.controlPlanes[key].meta.revision == cp.meta.revision
    ensures NeedsUpdate(s.controlPlanes[key].conditions, cp.conditions) ==> StatusWritten(s, key, cp) != s
  {
    hide NeedsUpdate;
  }

  /** With every kind settled, a pass that leaves the cluster as it is calls for no
      change of it. */
  lemma {:induction false} KindsReadOnly(cfg: Config, key: Key, s: State, p: Proc, kind: Kind, ch: Choice)
    requires IsStage(kind) && ch.fault == Served && Fits(s, key, p.cp) && p.pc == ListKind(kind)
    requires KindStage(cfg, s, p.cp, kind) == 10 && KindSettled(cfg, s, p.cp, Deployments)
    requires Concluded(cfg, s, key, p.cp, ch.now) == s
    ensures Writes(cfg, key, World(s, p), ch) == 0
    decreases 10 - Order(kind)
  {
    hide Finish, Writes, KindSettled, WithProvisioned, NeedsUpdate;
    var name := SettledKind(cfg, key, s, p, kind, ch);
    var body := SettledBody(cfg, s, p.cp, kind);
    var next := AfterKind(p, kind, name, body, ch.now);
    if kind != Deployments {
      KindsReadOnly(cfg, key, s, next, NextKind(kind), ch);
    } else {
      StatusWriteShows(s, key, p.cp.(conditions := WithProvisioned(p.cp.conditions, ch.now)));
      WritesStep(cfg, key, World(s, next), ch);
      WritesStep(cfg, key, Step(cfg, key, World(s, next), ch), ch);
    }
  }

  function KindOf(stage: nat): (kind: Kind)
    ensures IsStage(kind)
  {
    if stage == 5 then ServiceAccounts
    else if stage == 6 then ClusterRoles
    else if stage == 7 then ClusterRoleBindings
    else if stage == 8 then Secrets
    else Deployments
  }

  lemma KindStageDone(cfg: Config, s: State, cp: ControlPlane, kind: Kind)
    requires IsStage(kind) && KindStage(cfg, s, cp, kind) == 10
    ensures KindSettled(cfg, s, cp, Deployments) && KindSettled(cfg, s, cp, kind)
    decreases 10 - Order(kind)
  {
    if kind != Deployments {
      KindStageDone(cfg, s, cp, NextKind(kind));
    }
  }

  /** Once a kind is settled, the first unsettled kind comes later. */
  lemma {:induction false} KindStageRises(cfg: Config, s: State, s': State, cp: ControlPlane, cp': ControlPlane,
                                          kind: Kind, moved: Kind)
    requires IsStage(kind) && IsStage(moved) && OnlyKindMoved(s, s', moved) && SameWants(cp, cp')
    requires KindStage(cfg, s, cp, kind) == Order(moved) && KindSettled(cfg, s', cp, moved)
    ensures KindStage(cfg, s', cp', kind) > Order(moved)
    decreases 10 - Order(kind)
  {
    hide KindSettled, SameWants, OnlyKindMoved;
    SettledIgnoresStatus(cfg, s', cp, cp', kind);
    if kind != moved {
      SettledIgnoresOtherKinds(cfg, s, s', moved, cp, kind);
      KindStageRises(cfg, s, s', cp, cp', NextKind(kind), moved);
    }
  }

  /** A kind that stays unsettled stays the first unsettled one. */
  lemma {:induction false} KindStageStays(cfg: Config, s: State, s': State, cp: ControlPlane, kind: Kind, moved: Kind)
    requires IsStage(kind) && IsStage(moved) && OnlyKindMoved(s, s', moved)
    requires KindStage(cfg, s, cp, kind) == Order(moved) && !KindSettled(cfg, s', cp, moved)
    ensures KindStage(cfg, s', cp, kind) == Order(moved)
    decreases 10 - Order(kind)
  {
    hide KindSettled, OnlyKindMoved;
    if kind != moved {
      SettledIgnoresOtherKinds(cfg, s, s', moved, cp, kind);
      KindStageStays(cfg, s, s', cp, NextKind(kind), moved);
    }
  }

  lemma {:induction false} KindStageSame(cfg: Config, s: State, s': State, cp: ControlPlane, cp': ControlPlane,
                                         kind: Kind)
    requires IsStage(kind) && s'.objects == s.objects && SameWants(cp, cp')
    ensures KindStage(cfg, s', cp', kind) == KindStage(cfg, s, cp, kind)
    ensures KindSettled(cfg, s', cp', kind) <==> KindSettled(cfg, s, cp, kind)
    decreases 10 - Order(kind)
  {
    SettledIgnoresStatus(cfg, s', cp, cp', kind);
    SameItemsAndLabels(s, s', kind, cp);
    if kind != Deployments {
      KindStageSame(cfg, s, s', cp, cp', NextKind(kind));
    }
  }

  /** Health does not depend on the environment, the conditions or the version. */
  lemma HealthIgnoresRest(cfg: Config, s: State, a: ControlPlane, b: ControlPlane, kind: Kind, suffix: string)
    requires a.meta.name == b.meta.name && a.meta.namespace == b.meta.namespace && a.meta.uid == b.meta.uid
    requires a.image == b.image
    ensures KindHealthy(cfg, s, a, kind) <==> KindHealthy(cfg, s, b, kind)
    ensures NameIsFree(cfg, s, a, kind, suffix) <==> NameIsFree(cfg, s, b, kind, suffix)
    ensures Repairable(cfg, s, a, kind, suffix) <==> Repairable(cfg, s, b, kind, suffix)
  {
    assert Owned(s, kind, a) == Owned(s, kind, b);
  }

  // ---------------------------------------------------------------------------
  // Conditions along a pass
  // ---------------------------------------------------------------------------

  lemma PutFinds(conditions: seq<Condition>, c: Condition, ctype: string)
    ensures Find(Put(conditions, c), ctype).Some? <==> ctype == c.ctype || Find(conditions, ctype).Some?
    ensures Unique(conditions) ==> Unique(Put(conditions, c))
  {
    PutMeaning(conditions, c);
    MeaningIsFind(conditions, ctype);
    MeaningIsFind(Put(conditions, c), ctype);
  }

  /** The meaning that a concluded pass asks for. */
  function ConcludedMeaning(m: map<string, Verdict>): map<string, Verdict> {
    var provisioned := m[PROVISIONED := VerdictOf(ProvisionedCondition(0))];
    provisioned[READY := ReadyVerdict(provisioned)]
  }

  lemma ConclusionForgets(m: map<string, Verdict>, m': map<string, Verdict>)
    requires m'.Keys - {PROVISIONED, READY} == m.Keys - {PROVISIONED, READY}
    requires forall t | t in m && t != PROVISIONED && t != READY :: t in m' && m'[t] == m[t]
    ensures ConcludedMeaning(m') == ConcludedMeaning(m)
  {
    var verdict := VerdictOf(ProvisionedCondition(0));
    var a, b := m[PROVISIONED := verdict], m'[PROVISIONED := verdict];
    assert forall t | t != READY :: t in a <==> t in b by {
      forall t | t != READY
        ensures t in a <==> t in b
      {
        if t != PROVISIONED {
          assert t in m <==> t in m.Keys - {PROVISIONED, READY};
          assert t in m' <==> t in m'.Keys - {PROVISIONED, READY};
        }
      }
    }
    assert AllOthersMeanTrue(a) <==> AllOthersMeanTrue(b);
    assert ConcludedMeaning(m).Keys == ConcludedMeaning(m').Keys;
  }

  /** Whatever was said before, concluding twice says the same as once. */
  lemma ConclusionIdempotent(m: map<string, Verdict>)
    ensures ConcludedMeaning(ConcludedMeaning(m)) == ConcludedMeaning(m)
  {
    ConclusionForgets(m, ConcludedMeaning(m));
  }

  lemma ProvisionedMeaning(conditions: seq<Condition>, now: int)
    requires Unique(conditions)
    ensures Unique(WithProvisioned(conditions, now))
    ensures Meaning(WithProvisioned(conditions, now)) == ConcludedMeaning(Meaning(conditions))
  {
    PutMeaning(conditions, ProvisionedCondition(now));
    ReadyEvaluated(Put(conditions, ProvisionedCondition(now)), now);
    assert VerdictOf(ProvisionedCondition(now)) == VerdictOf(ProvisionedCondition(0));
  }

  /** The conditions that a pass has in memory when it looks at owned objects
      differ from the stored ones only in Ready and Provisioned. */
  lemma MarkedMeaning(conditions: seq<Condition>, dataPlaneIsSet: bool, now: int)
    requires Unique(conditions)
    ensures var marked := WithDataPlaneStatus(conditions, dataPlaneIsSet, now);
            && Unique(marked) && Find(marked, PROVISIONED).Some?
            && SaysWhether(conditions, marked, dataPlaneIsSet)
            && ConcludedMeaning(Meaning(marked)) == ConcludedMeaning(Meaning(conditions))
  {
    var wanted := DataPlaneCondition(dataPlaneIsSet, now);
    var marked := WithDataPlaneStatus(conditions, dataPlaneIsSet, now);
    MarkingSaysWhether(conditions, dataPlaneIsSet, now, "");
    PutMeaning(conditions, wanted);
    PutFinds(conditions, wanted, PROVISIONED);
    MeaningIsFind(marked, PROVISIONED);
    if marked != conditions {
      assert Meaning(marked)[PROVISIONED] == VerdictOf(wanted);
    }
    ConclusionForgets(Meaning(conditions), Meaning(marked));
  }

  lemma ReadyResetMeaning(conditions: seq<Condition>, now: int)
    requires Unique(conditions)
    ensures var reset := WithReadyReset(conditions, now);
            && Unique(reset)
            && Find(reset, PROVISIONED) == Find(conditions, PROVISIONED)
            && ConcludedMeaning(Meaning(reset)) == ConcludedMeaning(Meaning(conditions))
  {
    assert READY != PROVISIONED by { assert |READY| != |PROVISIONED|; }
    PutMeaning(conditions, NotReadyYet(now));
    ReadyReset(conditions, now, PROVISIONED);
    PutFinds(conditions, NotReadyYet(now), PROVISIONED);
    ConclusionForgets(Meaning(conditions), Meaning(WithReadyReset(conditions, now)));
  }
}
