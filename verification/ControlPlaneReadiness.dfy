/** When a stored "provisioned" is taken back, and when it stays though it is no longer
    true. */
module ControlPlaneReadiness {
  import opened Wrappers
  import opened ControlPlaneEnv
  import opened Conditions
  import opened Deployments
  import opened Metadata
  import opened Cluster
  import opened ControlPlaneObjects
  import opened ControlPlanePass
  import opened ControlPlaneGoals
  import opened ControlPlaneStages
  import opened ControlPlaneConvergence

  // ---------------------------------------------------------------------------
  // Readiness that is not taken back
  // ---------------------------------------------------------------------------

  lemma {:induction false} SettledToTheEnd(cfg: Config, s: State, cp: ControlPlane, kind: Kind)
    requires IsStage(kind) && forall k | IsStage(k) :: KindSettled(cfg, s, cp, k)
    ensures KindStage(cfg, s, cp, kind) == 10
    decreases 10 - Order(kind)
  {
    hide KindSettled;
    assert KindSettled(cfg, s, cp, kind);
    if kind != Deployments {
      SettledToTheEnd(cfg, s, cp, NextKind(kind));
    }
  }

  /** The cluster after the pods of a Deployment went down. */
  function PodsDown(s: State, r: Ref): State
    requires r in s.objects && s.objects[r].body.Workload?
  {
    var o := s.objects[r];
    var down := Object(o.meta.(revision := s.revision + 1), o.body.(status := DeploymentStatus(1, 0)));
    s.(revision := s.revision + 1, objects := s.objects[r := down])
  }

  lemma PodsDownStaysSettled(cfg: Config, s: State, cp: ControlPlane, r: Ref)
    requires Owned(s, Deployments, cp) == [r] && r in s.objects && s.objects[r].body.Workload?
    requires KindSettled(cfg, s, cp, Deployments)
    ensures OnlyKindMoved(s, PodsDown(s, r), Deployments)
    ensures Owned(PodsDown(s, r), Deployments, cp) == [r] && KindSettled(cfg, PodsDown(s, r), cp, Deployments)
    ensures SettledBody(cfg, PodsDown(s, r), cp, Deployments) == PodsDown(s, r).objects[r].body
  {
    hide ObjectNeedsRepair, GeneratedBody, GeneratedMeta;
    var s', scope, uid := PodsDown(s, r), Scope(Deployments, cp.meta.namespace), cp.meta.uid;
    SingleOwned(s, Deployments, scope, CONTROL_PLANE_VALUE, uid, r);
    assert r in OwnedRefs(s, Deployments, scope, CONTROL_PLANE_VALUE, uid);
    assert OwnedRefs(s', Deployments, scope, CONTROL_PLANE_VALUE, uid) ==
           OwnedRefs(s, Deployments, scope, CONTROL_PLANE_VALUE, uid);
    SingleOwned(s', Deployments, scope, CONTROL_PLANE_VALUE, uid, r);
    RepairIgnoresStored(s'.objects[r], s.objects[r], Generated(cfg, Deployments, cp, NONAMES).value, cp);
  }

  /** Whatever is in place and says so can get there: once the pods go down nothing
      serves, the stored status still says that it is provisioned, and no pass changes
      anything. */
  lemma StaleReadinessArises(cfg: Config, s: State, key: Key, now: int, suffix: string) returns (r: Ref)
    requires InPlace(cfg, s, key) && Stage(cfg, s, key) == 11
    ensures r in s.objects && s.objects[r].body.Workload?
    ensures var s' := PodsDown(s, r);
            && Steady(s', key) && Stage(cfg, s', key) == 11 && s'.controlPlanes == s.controlPlanes
            && Owned(s', Deployments, s'.controlPlanes[key]) == [r]
            && s'.objects[r].body.status.available < s'.objects[r].body.status.replicas
            && SaysProvisioned(s'.controlPlanes[key])
            && Pass(cfg, key, s', now, suffix) == s'
  {
    hide Pass, LateStage, KindStage, Meaning, ConcludedMeaning, KindSettled, Owned, StatusCurrent, SettledBody;
    var cp, want := s.controlPlanes[key], Effective(s, key);
    QuietMeansReady(cfg, s, key);
    MeaningIsFind(cp.conditions, PROVISIONED);
    r := TheDeployment(cfg, s, key);
    var s' := PodsDown(s, r);
    PodsDownStaysSettled(cfg, s, want, r);
    OwnedIgnoresEnv(s', Deployments, cp, want);
    PodsDownIsStill(cfg, s, s', key);
    StaleReadiness(cfg, s', key, now, suffix);
  }

  /** Where everything is in place there is one Deployment. */
  lemma TheDeployment(cfg: Config, s: State, key: Key) returns (r: Ref)
    requires InPlace(cfg, s, key)
    ensures r in s.objects && s.objects[r].body.Workload? && Owned(s, Deployments, Effective(s, key)) == [r]
    ensures forall kind | IsStage(kind) :: KindSettled(cfg, s, Effective(s, key), kind)
  {
    hide LateStage, KindStage, Owned;
    var want := Effective(s, key);
    forall kind | IsStage(kind) {
      AllKindsSettled(cfg, s, want, ServiceAccounts, kind);
    }
    r := Owned(s, Deployments, want)[0];
    assert Owned(s, Deployments, want) == [r];
  }

  lemma OwnedIgnoresEnv(s: State, kind: Kind, cp: ControlPlane, want: ControlPlane)
    requires cp.meta == want.meta
    ensures Owned(s, kind, cp) == Owned(s, kind, want)
  {
  }

  lemma PodsDownIsStill(cfg: Config, s: State, s': State, key: Key)
    requires Steady(s, key) && Gated(s, key) && s'.controlPlanes == s.controlPlanes
    requires OnlyKindMoved(s, s', Deployments) && KindSettled(cfg, s', Effective(s, key), Deployments)
    requires forall kind | IsStage(kind) :: KindSettled(cfg, s, Effective(s, key), kind)
    ensures Steady(s', key) && Gated(s', key) && Effective(s', key) == Effective(s, key)
    ensures Stage(cfg, s', key) >= 10
  {
    hide KindSettled, KindStage;
    var cp, want := s.controlPlanes[key], Effective(s, key);
    ServiceUnmoved(s, s', Deployments, cp, cp);
    forall kind | IsStage(kind)
      ensures KindSettled(cfg, s', want, kind)
    {
      if kind != Deployments {
        SettledIgnoresOtherKinds(cfg, s, s', Deployments, want, kind);
      }
    }
    SettledToTheEnd(cfg, s', want, ServiceAccounts);
  }

  // ---------------------------------------------------------------------------
  // When a stored "provisioned" is taken back
  // ---------------------------------------------------------------------------

  /** No DataPlane is set, the entries of one are all that may be wrong with the
      environment, and of the owned objects the Deployment is the first that is not as
      wanted, and can be repaired. */
  ghost predicate Demotes(cfg: Config, s: State, key: Key, suffix: string)
    requires Steady(s, key)
  {
    var cp := s.controlPlanes[key];
    && !DataPlaneIsSet(cp) && FinalizersStored(cp) && DefaultsHold(cp.env, cp.meta.namespace, "", {})
    && KindStage(cfg, s, Detached(cp), ServiceAccounts) == 9
    && Repairable(cfg, s, Detached(cp), Deployments, suffix)
  }

  /** The status says that no DataPlane is set. */
  predicate SaysDetached(cp: ControlPlane) {
    Says(cp.conditions, "Provisioned", Verdict(StatusFalse, "NoDataplane", "DataPlane is not set"))
  }

  lemma LateTakesBack(cfg: Config, s: State, s': State, key: Key, suffix: string)
    requires Steady(s, key) && Gated(s, key) && SaysProvisioned(s.controlPlanes[key])
    requires LateOutcome(cfg, s, s', key, suffix)
    ensures key in s'.controlPlanes
    ensures !SaysProvisioned(s'.controlPlanes[key]) <==>
            && !DataPlaneIsSet(s.controlPlanes[key])
            && KindStage(cfg, s, Effective(s, key), ServiceAccounts) == 9
            && Repairable(cfg, s, Effective(s, key), Deployments, suffix)
    ensures !SaysProvisioned(s'.controlPlanes[key]) ==> SaysDetached(s'.controlPlanes[key])
  {
    hide Gated, KindStage, KindSettled, StatusCurrent, Effective, Repairable, Lost, InPlace;
    hide ServiceOf;
    if Stage(cfg, s, key) == 10 {
      MeaningIsFind(s'.controlPlanes[key].conditions, PROVISIONED);
    }
  }

  lemma DetachedIsEffective(s: State, key: Key)
    requires Steady(s, key) && Gated(s, key) && !DataPlaneIsSet(s.controlPlanes[key])
    ensures Effective(s, key) == Detached(s.controlPlanes[key])
  {
    hide Defaulted, Followed, Follows, DefaultsHold;
    var cp := s.controlPlanes[key];
    FollowedChanges(Defaulted(cp.env, cp.meta.namespace, "", {}), false, cp.meta.namespace, "");
  }

  lemma RepairableAlike(cfg: Config, s: State, s': State, a: ControlPlane, b: ControlPlane, suffix: string)
    requires s'.objects == s.objects && SameWants(a, b)
    ensures KindStage(cfg, s', b, ServiceAccounts) == KindStage(cfg, s, a, ServiceAccounts)
    ensures Repairable(cfg, s', b, Deployments, suffix) <==> Repairable(cfg, s, a, Deployments, suffix)
  {
    hide KindStage, KindSettled;
    KindStageSame(cfg, s, s', a, b, ServiceAccounts);
    HealthIgnoresRest(cfg, s', a, b, Deployments, suffix);
    SameItemsAndLabels(s, s', Deployments, a);
  }

  /** Ready says what it said. */
  predicate ReadyAsBefore(before: ControlPlane, after: ControlPlane) {
    var was, now := Find(before.conditions, "Ready"), Find(after.conditions, "Ready");
    (was.Some? <==> now.Some?) && (was.Some? ==> VerdictOf(was.value) == VerdictOf(now.value))
  }

  /** A pass takes back a stored "provisioned" exactly in this one situation, and then the
      status says why. Ready goes to false with it, except in a pass that has to remove the
      entries of the DataPlane first: its write brings the stored conditions back into
      memory, so that a Ready that was true stays true. */
  lemma TakesBack(cfg: Config, s: State, key: Key, now: int, suffix: string)
    requires Steady(s, key) && SaysProvisioned(s.controlPlanes[key])
    ensures var s' := Pass(cfg, key, s, now, suffix);
            && key in s'.controlPlanes && (!SaysProvisioned(s'.controlPlanes[key]) <==> Demotes(cfg, s, key, suffix))
            && (!SaysProvisioned(s'.controlPlanes[key]) ==>
                  && SaysDetached(s'.controlPlanes[key])
                  && if Stage(cfg, s, key) == 4 then ReadyAsBefore(s.controlPlanes[key], s'.controlPlanes[key])
                     else Says(s'.controlPlanes[key].conditions, "Ready", NOT_READY))
  {
    hide Finish, Writes, LateStage, KindStage, Gated, LateOutcome, Repairable, Moves, Effective, Detached, Advanced;
    hide Lost, SaysProvisioned;
    var ch := Quiet(now, suffix);
    match Stage(cfg, s, key)
    case 1 =>
      StageOne(cfg, s, key, ch);
      SaysTheSame(s, Pass(cfg, key, s, now, suffix), key);
    case 2 => ProvisionedIsScheduled(s.controlPlanes[key]);
    case 3 =>
      StageThree(cfg, s, key, ch);
      SaysTheSame(s, Pass(cfg, key, s, now, suffix), key);
    case 4 =>
      var s1 := DetachedPass(cfg, s, key, ch);
      SaysTheSame(s, s1, key);
      LateTakesBack(cfg, s1, Pass(cfg, key, s, now, suffix), key, suffix);
      RepairableAlike(cfg, s, s1, Detached(s.controlPlanes[key]), Effective(s1, key), suffix);
    case _ =>
      LatePass(cfg, s, key, ch);
      LateTakesBack(cfg, s, Pass(cfg, key, s, now, suffix), key, suffix);
      if !DataPlaneIsSet(s.controlPlanes[key]) {
        DetachedIsEffective(s, key);
      }
  }

  /** So there are passes after which a status says that it is ready, though it is not
      provisioned. */
  lemma ReadyOutlivesProvisioned(cfg: Config, s: State, key: Key, now: int, suffix: string)
    requires Steady(s, key) && SaysProvisioned(s.controlPlanes[key]) && Demotes(cfg, s, key, suffix)
    requires Stage(cfg, s, key) == 4 && HasStatus(s.controlPlanes[key].conditions, "Ready", StatusTrue)
    ensures var s' := Pass(cfg, key, s, now, suffix);
            && key in s'.controlPlanes
            && HasStatus(s'.controlPlanes[key].conditions, "Ready", StatusTrue)
            && HasStatus(s'.controlPlanes[key].conditions, "Provisioned", StatusFalse)
  {
    hide Pass, Stage, Demotes;
    TakesBack(cfg, s, key, now, suffix);
  }

  predicate HasStatus(conditions: seq<Condition>, ctype: string, status: Status) {
    var found := Find(conditions, ctype);
    found.Some? && found.value.status == status
  }

  lemma SaysTheSame(s: State, s': State, key: Key)
    requires SameConditions(s, s', key)
    ensures SaysProvisioned(s'.controlPlanes[key]) <==> SaysProvisioned(s.controlPlanes[key])
  {
  }

  lemma ProvisionedIsScheduled(cp: ControlPlane)
    requires SaysProvisioned(cp)
    ensures Find(cp.conditions, PROVISIONED).Some?
  {
  }

  /** Where the one status write that says so was lost, a "provisioned" without a
      DataPlane stays: once everything is as wanted no pass writes. */
  lemma StaleWithoutDataPlane(cfg: Config, s: State, key: Key, now: int, suffix: string)
    requires Steady(s, key) && Stage(cfg, s, key) >= 10
    requires !DataPlaneIsSet(s.controlPlanes[key]) && ScaledDown(s)
    ensures Pass(cfg, key, s, now, suffix) == s
  {
    hide Pass, KindStage, Defaulted, Meaning, ConcludedMeaning;
    PassProgress(cfg, s, key, now, suffix);
    DetachedIsNotInPlace(cfg, s, key);
  }
}
