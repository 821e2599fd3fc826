/** What undisturbed passes achieve: they meet the goals one after the other, in
    the order of the stages, and then stop writing. */
module ControlPlaneConvergence {
  import opened Wrappers
  import opened EnvVars
  import opened ControlPlaneEnv
  import opened Conditions
  import opened Metadata
  import opened Deployments
  import opened Cluster
  import opened ControlPlaneObjects
  import opened ControlPlanePass
  import opened ControlPlaneGoals
  import opened ControlPlaneStages

  // ---------------------------------------------------------------------------
  // Stages of a pass
  // ---------------------------------------------------------------------------

  /** The name of the DataPlane's Service, empty without a DataPlane; absent when
      the reference cannot be followed. */
  ghost function ServiceOf(s: State, cp: ControlPlane): Option<string> {
    if !DataPlaneIsSet(cp) then Some("")
    else
      var dataPlane := Key(cp.meta.namespace, cp.dataPlane.value);
      if dataPlane !in s.dataPlanes then None
      else
        var services := ListOwned(s, Services, Some(cp.meta.namespace), DATA_PLANE_VALUE, s.dataPlanes[dataPlane]);
        if |services| == 1 then Some(services[0].name) else None
  }

  /** A live ControlPlane whose DataPlane, if it has one, is exposed. */
  ghost predicate Steady(s: State, key: Key) {
    && key in s.controlPlanes
    && var cp := s.controlPlanes[key];
       && cp.meta.deletion.None?
       && Unique(cp.conditions)
       && ServiceOf(s, cp).Some?
       && (DataPlaneIsSet(cp) ==> cp.meta.namespace != "" && ServiceOf(s, cp).value != "")
  }

  /** The ControlPlane with the environment that a pass works with. */
  ghost function Effective(s: State, key: Key): ControlPlane
    requires Steady(s, key)
  {
    var cp := s.controlPlanes[key];
    cp.(env := Defaulted(cp.env, cp.meta.namespace, ServiceOf(s, cp).value, {}))
  }

  ghost predicate StatusCurrent(cfg: Config, s: State, key: Key)
    requires Steady(s, key) && KindSettled(cfg, s, Effective(s, key), Deployments)
  {
    var m := Meaning(s.controlPlanes[key].conditions);
    var body := SettledBody(cfg, s, Effective(s, key), Deployments);
    body.Workload? && Serving(body.status) ==> m == ConcludedMeaning(m)
  }

  /** What a status says while the rest is not ready. */
  const NOT_READY := Verdict(StatusFalse, "DependenciesNotReady", "There are other conditions that are not yet ready")

  ghost predicate FinalizersStored(cp: ControlPlane) {
    && "apisix-operator.apisix.apache.org/cleanup-clusterrole" in cp.meta.finalizers
    && "apisix-operator.apisix.apache.org/cleanup-clusterrolebinding" in cp.meta.finalizers
  }

  /** Finalizers, scheduling and environment are in order. */
  ghost predicate Gated(s: State, key: Key)
    requires Steady(s, key)
  {
    var cp := s.controlPlanes[key];
    var service := ServiceOf(s, cp).value;
    && FinalizersStored(cp)
    && Find(cp.conditions, PROVISIONED).Some?
    && DefaultsHold(cp.env, cp.meta.namespace, service, {})
    && Follows(Effective(s, key).env, DataPlaneIsSet(cp), cp.meta.namespace, service)
  }

  /** The first unsettled kind; 10 if only the status is left, 11 if nothing is. */
  ghost function LateStage(cfg: Config, s: State, key: Key): (stage: nat)
    requires Steady(s, key)
    ensures 5 <= stage <= 11
    ensures KindStage(cfg, s, Effective(s, key), ServiceAccounts) < 10 ==>
              stage == KindStage(cfg, s, Effective(s, key), ServiceAccounts)
    ensures KindStage(cfg, s, Effective(s, key), ServiceAccounts) == 10 ==>
              && KindSettled(cfg, s, Effective(s, key), Deployments)
              && stage == if StatusCurrent(cfg, s, key) then 11 else 10
  {
    var kinds := KindStage(cfg, s, Effective(s, key), ServiceAccounts);
    if kinds < 10 then kinds
    else
      KindStageDone(cfg, s, Effective(s, key), ServiceAccounts);
      if StatusCurrent(cfg, s, key) then 11 else 10
  }

  /** The first goal that is not met: finalizers, scheduling, defaults, DataPlane
      environment, the five owned objects, status; 11 when all are met. */
  ghost function Stage(cfg: Config, s: State, key: Key): (stage: nat)
    requires Steady(s, key)
    ensures 1 <= stage <= 11
    ensures stage >= 5 <==> Gated(s, key)
    ensures Gated(s, key) ==> stage == LateStage(cfg, s, key)
  {
    var cp := s.controlPlanes[key];
    var service := ServiceOf(s, cp).value;
    if !FinalizersStored(cp) then 1
    else if Find(cp.conditions, PROVISIONED).None? then 2
    else if !DefaultsHold(cp.env, cp.meta.namespace, service, {}) then 3
    else if !Follows(Effective(s, key).env, DataPlaneIsSet(cp), cp.meta.namespace, service) then 4
    else LateStage(cfg, s, key)
  }

  /** The in-memory object of a pass that turns to the owned objects: stored but
      for the environment it works with and the conditions it marks. */
  ghost predicate Works(s: State, key: Key, cp: ControlPlane)
    requires Steady(s, key)
  {
    && Fits(s, key, cp) && SameWants(Effective(s, key), cp)
    && SaysWhether(s.controlPlanes[key].conditions, cp.conditions, DataPlaneIsSet(cp))
    && ConcludedMeaning(Meaning(cp.conditions)) == ConcludedMeaning(Meaning(s.controlPlanes[key].conditions))
  }

  // ---------------------------------------------------------------------------
  // The head of a pass
  // ---------------------------------------------------------------------------

  lemma GetRun(cfg: Config, s: State, key: Key, ch: Choice)
    requires key in s.controlPlanes && ch.fault == Served
    ensures var w' := World(s, AfterGet(Start(), s.controlPlanes[key], ch.now));
            && Finish(cfg, key, World(s, Start()), ch) == Finish(cfg, key, w', ch)
            && Writes(cfg, key, World(s, Start()), ch) == Writes(cfg, key, w', ch)
  {
    hide Finish, Writes, AfterGet;
    WritesStep(cfg, key, World(s, Start()), ch);
    FinishStep(cfg, key, World(s, Start()), ch);
  }

  /** Following the DataPlane reference to the name of its Service. */
  lemma DataPlaneRun(cfg: Config, s: State, key: Key, cp: ControlPlane, ch: Choice)
    requires DataPlaneIsSet(cp) && ServiceOf(s, cp).Some? && ch.fault == Served
    ensures var w, w' := World(s, Start().(cp := cp, pc := GetDataPlane)),
                         World(s, AfterService(Start().(cp := cp), ServiceOf(s, cp).value, ch.now));
            && Finish(cfg, key, w, ch) == Finish(cfg, key, w', ch)
            && Writes(cfg, key, w, ch) == Writes(cfg, key, w', ch)
  {
    hide Finish, Writes, AfterService;
    var w := World(s, Start().(cp := cp, pc := GetDataPlane));
    var w1 := Step(cfg, key, w, ch);
    FinishStep(cfg, key, w, ch);
    assert w1.proc.pc.ListServices?;
    var w2 := Step(cfg, key, w1, ch);
    FinishStep(cfg, key, w1, ch);
    WritesStep(cfg, key, w, ch);
    WritesStep(cfg, key, w1, ch);
    assert w2 == World(s, AfterService(w1.proc, ServiceOf(s, cp).value, ch.now));
    AfterServiceIgnoresPc(w1.proc, Start().(cp := cp), ServiceOf(s, cp).value, ch.now);
  }

  /** A pass that is past the gates computes with the DataPlane's Service. */
  lemma ServiceRun(cfg: Config, s: State, key: Key, ch: Choice)
    requires Steady(s, key) && ch.fault == Served
    requires FinalizersStored(s.controlPlanes[key]) && Find(s.controlPlanes[key].conditions, PROVISIONED).Some?
    ensures var cp := s.controlPlanes[key];
            var ready := cp.(conditions := WithReadyReset(cp.conditions, ch.now));
            var w' := World(s, AfterService(Start().(cp := ready), ServiceOf(s, cp).value, ch.now));
            && Finish(cfg, key, World(s, Start()), ch) == Finish(cfg, key, w', ch)
            && Writes(cfg, key, World(s, Start()), ch) == Writes(cfg, key, w', ch)
  {
    var cp := s.controlPlanes[key];
    var ready := cp.(conditions := WithReadyReset(cp.conditions, ch.now));
    GetRun(cfg, s, key, ch);
    FinalizersComplete(cp);
    ReadyResetMeaning(cp.conditions, ch.now);
    assert AfterGet(Start(), cp, ch.now) == AfterFinalizers(Start(), ready, ch.now);
    if DataPlaneIsSet(cp) {
      assert ServiceOf(s, ready) == ServiceOf(s, cp);
      DataPlaneRun(cfg, s, key, ready, ch);
    }
  }

  lemma FinalizersComplete(cp: ControlPlane)
    ensures FinalizersStored(cp) <==>
            WithFinalizers(cp.meta.finalizers, [CLEANUP_ROLE, CLEANUP_BINDING]) == cp.meta.finalizers
    ensures FinalizersStored(
              cp.(meta := cp.meta.(finalizers := WithFinalizers(cp.meta.finalizers, [CLEANUP_ROLE, CLEANUP_BINDING]))))
  {
    var wanted := [CLEANUP_ROLE, CLEANUP_BINDING];
    WithFinalizersAddsMissing(cp.meta.finalizers, wanted);
    assert wanted[0] in wanted && wanted[1] in wanted;
  }

  // ---------------------------------------------------------------------------
  // Progress
  // ---------------------------------------------------------------------------

  lemma ServiceUnmoved(s: State, s': State, kind: Kind, cp: ControlPlane, cp': ControlPlane)
    requires OnlyKindMoved(s, s', kind) && IsStage(kind)
    requires cp'.dataPlane == cp.dataPlane && cp'.meta.namespace == cp.meta.namespace
    ensures ServiceOf(s', cp') == ServiceOf(s, cp)
  {
    if DataPlaneIsSet(cp) {
      var dataPlane := Key(cp.meta.namespace, cp.dataPlane.value);
      if dataPlane in s.dataPlanes {
        ListIgnoresOtherKinds(s, s', kind, Services, Some(cp.meta.namespace), DATA_PLANE_VALUE,
                              s.dataPlanes[dataPlane]);
      }
    }
  }

  /** The same ControlPlane as its users see it: finalizers are only appended, and
      environment entries of other names keep their content and order. */
  predicate SameIntent(a: ControlPlane, b: ControlPlane) {
    && b == a.(env := b.env, conditions := b.conditions,
               meta := a.meta.(finalizers := b.meta.finalizers, revision := b.meta.revision))
    && a.meta.finalizers <= b.meta.finalizers
    && Drop(b.env, MANAGED) == Drop(a.env, MANAGED)
  }

  /** Of one kind only the objects are moved, and then exactly one is found, or none if
      it is a certificate that is not found again. */
  ghost predicate MovesKind(s: State, s': State, kind: Kind, cp: ControlPlane) {
    && IsStage(kind) && OnlyKindMoved(s, s', kind)
    && (|| s'.objects == s.objects
        || |Owned(s', kind, cp)| == 1
        || (kind == Secrets && Owned(s', kind, cp) == []))
  }

  /** All that one pass moves: its ControlPlane, and objects of one kind. */
  ghost predicate Moves(s: State, s': State, key: Key) {
    && s'.revision > s.revision
    && key in s.controlPlanes && key in s'.controlPlanes
    && s'.controlPlanes == s.controlPlanes[key := s'.controlPlanes[key]]
    && SameIntent(s.controlPlanes[key], s'.controlPlanes[key])
    && exists kind :: MovesKind(s, s', kind, s'.controlPlanes[key])
  }

  /** The state moved on to a later stage. */
  ghost predicate Advanced(cfg: Config, s: State, s': State, key: Key)
    requires Steady(s, key)
  {
    && Steady(s', key) && Stage(cfg, s', key) > Stage(cfg, s, key) && Moves(s, s', key)
    && (Lost(cfg, s, s.controlPlanes[key]) <==> Lost(cfg, s', s'.controlPlanes[key]))
  }

  /** One more certificate is stored that is not found, and all is as it was. */
  ghost predicate Piled(cfg: Config, s: State, s': State, key: Key)
    requires Steady(s, key)
  {
    && Steady(s', key) && Gated(s', key) && Stage(cfg, s', key) == 8 && Moves(s, s', key)
    && Lost(cfg, s', s'.controlPlanes[key]) && s'.controlPlanes == s.controlPlanes
  }

  lemma ControlPlaneMoves(cfg: Config, s: State, s': State, key: Key)
    requires s'.revision > s.revision && key in s.controlPlanes && key in s'.controlPlanes
    requires s'.controlPlanes == s.controlPlanes[key := s'.controlPlanes[key]]
    requires SameIntent(s.controlPlanes[key], s'.controlPlanes[key])
    requires s'.objects == s.objects && s'.dataPlanes == s.dataPlanes
    ensures Moves(s, s', key)
    ensures Lost(cfg, s, s.controlPlanes[key]) <==> Lost(cfg, s', s'.controlPlanes[key])
  {
    assert OnlyKindMoved(s, s', Secrets);
    assert MovesKind(s, s', Secrets, s'.controlPlanes[key]);
    SameItemsAndLabels(s, s', Secrets, s.controlPlanes[key]);
    assert Owned(s', Secrets, s.controlPlanes[key]) == Owned(s', Secrets, s'.controlPlanes[key]);
  }

  /** The status is as before, or it says that provisioning is not done. */
  ghost predicate Modest(s: State, s': State, key: Key) {
    && key in s.controlPlanes && key in s'.controlPlanes
    && var before, after := s.controlPlanes[key].conditions, s'.controlPlanes[key].conditions;
       after == before || SaysNo(s', key)
  }

  ghost predicate SaysNo(s: State, key: Key) {
    && key in s.controlPlanes
    && var found := Find(s.controlPlanes[key].conditions, PROVISIONED);
       found.Some? && found.value.status == StatusFalse
  }

  ghost predicate SameConditions(s: State, s': State, key: Key) {
    && key in s.controlPlanes && key in s'.controlPlanes
    && s'.controlPlanes[key].conditions == s.controlPlanes[key].conditions
  }

  lemma PutRun(cfg: Config, s: State, key: Key, p: Proc, ch: Choice)
    requires p.pc.PutControlPlane? && ch.fault == Served
    ensures Finish(cfg, key, World(s, p), ch).state == Landed(s, UpdateControlPlane(s, key, p.cp), Served)
  {
    var w := World(s, p);
    FinishStep(cfg, key, w, ch);
  }

  lemma StageOne(cfg: Config, s: State, key: Key, ch: Choice)
    requires Steady(s, key) && Stage(cfg, s, key) == 1 && ch.fault == Served
    ensures var s' := Finish(cfg, key, World(s, Start()), ch).state;
            Advanced(cfg, s, s', key) && SameConditions(s, s', key)
  {
    hide Finish, Writes;
    var cp := s.controlPlanes[key];
    var finalizers := WithFinalizers(cp.meta.finalizers, [CLEANUP_ROLE, CLEANUP_BINDING]);
    var next := cp.(meta := cp.meta.(finalizers := finalizers));
    GetRun(cfg, s, key, ch);
    FinalizersComplete(cp);
    WithFinalizersAddsMissing(cp.meta.finalizers, [CLEANUP_ROLE, CLEANUP_BINDING]);
    var p := Start().(cp := next, pc := PutControlPlane(false));
    PutRun(cfg, s, key, p, ch);
    var s' := UpdateControlPlane(s, key, next).state;
    ControlPlaneMoves(cfg, s, s', key);
    ServiceUnmoved(s, s', Secrets, cp, s'.controlPlanes[key]);
  }

  lemma StageTwo(cfg: Config, s: State, key: Key, ch: Choice)
    requires Steady(s, key) && Stage(cfg, s, key) == 2 && ch.fault == Served
    ensures var s' := Finish(cfg, key, World(s, Start()), ch).state;
            Advanced(cfg, s, s', key) && Modest(s, s', key)
    ensures var conditions := Finish(cfg, key, World(s, Start()), ch).state.controlPlanes[key].conditions;
            && Find(conditions, "Provisioned").Some? && Find(conditions, "Ready").Some?
            && VerdictOf(Find(conditions, "Provisioned").value) ==
               Verdict(StatusFalse, "PodsNotReady", "ControlPlane resource is scheduled for provisioning")
            && VerdictOf(Find(conditions, "Ready").value) == NOT_READY
  {
    hide Finish, Writes, DefaultsHold, Follows, Defaulted, LateStage, NeedsUpdate, Moves;
    var cp := s.controlPlanes[key];
    var reset := WithReadyReset(cp.conditions, ch.now);
    var next := cp.(conditions := WithScheduled(reset, ch.now));
    GetRun(cfg, s, key, ch);
    FinalizersComplete(cp);
    ReadyResetMeaning(cp.conditions, ch.now);
    var mark := NewCondition(PROVISIONED, StatusFalse, PODS_NOT_READY,
                             "ControlPlane resource is scheduled for provisioning", ch.now);
    PutFinds(reset, mark, PROVISIONED);
    PutMeaning(reset, mark);
    StatusRun(cfg, key, s, Start().(cp := next, pc := GetStatus(false)), ch);
    MeaningIsFind(cp.conditions, PROVISIONED);
    MeaningIsFind(next.conditions, PROVISIONED);
    NeedsUpdateIsDifference(cp.conditions, next.conditions);
    ReadyReset(cp.conditions, ch.now, "");
    SchedulingSays(reset, ch.now, READY);
    assert READY != PROVISIONED by { assert |READY| != |PROVISIONED|; }
    var s' := StatusWritten(s, key, next);
    ControlPlaneMoves(cfg, s, s', key);
    ServiceUnmoved(s, s', Secrets, cp, s'.controlPlanes[key]);
  }

  lemma StageThree(cfg: Config, s: State, key: Key, ch: Choice)
    requires Steady(s, key) && Stage(cfg, s, key) == 3 && ch.fault == Served
    ensures var s' := Finish(cfg, key, World(s, Start()), ch).state;
            Advanced(cfg, s, s', key) && SameConditions(s, s', key)
  {
    hide Finish, Writes;
    var cp := s.controlPlanes[key];
    var service := ServiceOf(s, cp).value;
    var ready := cp.(conditions := WithReadyReset(cp.conditions, ch.now));
    ServiceRun(cfg, s, key, ch);
    var p := AfterService(Start().(cp := ready), service, ch.now);
    PutRun(cfg, s, key, p, ch);
    var s' := UpdateControlPlane(s, key, p.cp).state;
    DefaultedKeepsOthers(cp.env, cp.meta.namespace, service, {});
    DefaultedHolds(cp.env, cp.meta.namespace, service, {});
    ControlPlaneMoves(cfg, s, s', key);
    ServiceUnmoved(s, s', Secrets, cp, s'.controlPlanes[key]);
  }

  // ---------------------------------------------------------------------------
  // The owned objects and the conclusion
  // ---------------------------------------------------------------------------

  /** Past the gates and the environment, whatever an undisturbed pass still does
      to the ControlPlane is to its status. */
  lemma LaterStagesKeep(s: State, s': State, key: Key, kind: Kind)
    requires Steady(s, key) && Gated(s, key) && IsStage(kind)
    requires OnlyKindMoved(s, s', kind) && OnlyStatusMoved(s, s', key)
    ensures Steady(s', key) && Gated(s', key)
    ensures SameWants(Effective(s, key), Effective(s', key))
  {
    hide Defaulted, DefaultsHold, Follows;
    ServiceUnmoved(s, s', kind, s.controlPlanes[key], s'.controlPlanes[key]);
  }

  /** The last goal that is missing is to conclude on the status. */
  ghost predicate Concludes(s: State, s': State, key: Key) {
    && s'.objects == s.objects && OnlyStatusMoved(s, s', key)
    && Meaning(s'.controlPlanes[key].conditions) == ConcludedMeaning(Meaning(s.controlPlanes[key].conditions))
  }

  /** Nothing is left to do, or what is left cannot be done. */
  ghost predicate Stuck(cfg: Config, s: State, key: Key, suffix: string)
    requires Steady(s, key)
  {
    var stage := Stage(cfg, s, key);
    stage == 11 || (5 <= stage <= 9 && !Repairable(cfg, s, Effective(s, key), KindOf(stage), suffix))
  }

  /** Everything is there, as wanted, and the controller serves. */
  ghost predicate InPlace(cfg: Config, s: State, key: Key) {
    && Steady(s, key) && Gated(s, key) && Stage(cfg, s, key) >= 10
    && var body := SettledBody(cfg, s, Effective(s, key), Deployments);
       body.Workload? && Serving(body.status)
  }

  /** What comes of a pass once it turns to the owned objects. */
  ghost predicate LateOutcome(cfg: Config, s: State, s': State, key: Key, suffix: string)
    requires Steady(s, key)
  {
    if Stuck(cfg, s, key, suffix) then s' == s
    else if Stage(cfg, s, key) == 8 && Lost(cfg, s, s.controlPlanes[key]) then Piled(cfg, s, s', key)
    else
      && Advanced(cfg, s, s', key)
      && if Stage(cfg, s, key) == 10 then Concludes(s, s', key) && InPlace(cfg, s', key)
         else Demoted(cfg, s, s', key)
  }

  /** The status says that no DataPlane is set after the stage of the Deployment if that is
      so, and is as before after the stages of the other objects. */
  ghost predicate Demoted(cfg: Config, s: State, s': State, key: Key)
    requires Steady(s, key)
  {
    if Stage(cfg, s, key) == 9 && !DataPlaneIsSet(s.controlPlanes[key]) then
      key in s'.controlPlanes && SaysWhether(s.controlPlanes[key].conditions, s'.controlPlanes[key].conditions, false)
    else SameConditions(s, s', key)
  }

  lemma RepairMoves(cfg: Config, s: State, s': State, key: Key, cp: ControlPlane, kind: Kind)
    requires Steady(s, key) && Works(s, key, cp) && IsStage(kind) && Repairs(cfg, s, s', key, cp, kind)
    ensures Moves(s, s', key)
  {
    assert Owned(s', kind, cp) == Owned(s', kind, s'.controlPlanes[key]);
    assert MovesKind(s, s', kind, s'.controlPlanes[key]);
  }

  /** Only a kind that is repaired comes to be found. */
  lemma RepairLosesNothing(cfg: Config, s: State, s': State, key: Key, cp: ControlPlane, kind: Kind)
    requires Steady(s, key) && Works(s, key, cp) && IsStage(kind) && Repairs(cfg, s, s', key, cp, kind)
    requires kind == Secrets ==> !Lost(cfg, s, cp)
    ensures Lost(cfg, s, s.controlPlanes[key]) <==> Lost(cfg, s', s'.controlPlanes[key])
  {
    assert Owned(s, Secrets, cp) == Owned(s, Secrets, s.controlPlanes[key]);
    assert Owned(s', Secrets, cp) == Owned(s', Secrets, s'.controlPlanes[key]);
    if kind != Secrets {
      ListIgnoresOtherKinds(s, s', kind, Secrets, None, CONTROL_PLANE_VALUE, cp.meta.uid);
    }
  }

  /** A certificate that is stored once more and not found leaves all as it was. */
  lemma PilesStay(cfg: Config, s: State, s': State, key: Key, cp: ControlPlane)
    requires Steady(s, key) && Gated(s, key) && Works(s, key, cp) && Stage(cfg, s, key) == 8
    requires Lost(cfg, s, cp) && Piles(s, s', cp)
    ensures Piled(cfg, s, s', key)
  {
    hide KindStage, Defaulted, DefaultsHold, Follows;
    var stored, want := s.controlPlanes[key], Effective(s, key);
    ServiceUnmoved(s, s', Secrets, stored, stored);
    assert Owned(s', Secrets, cp) == Owned(s', Secrets, stored);
    assert Owned(s', Secrets, cp) == Owned(s', Secrets, want);
    KindStageStays(cfg, s, s', want, ServiceAccounts, Secrets);
    assert MovesKind(s, s', Secrets, stored);
  }

  lemma LostIgnoresRest(cfg: Config, s: State, a: ControlPlane, b: ControlPlane)
    requires a.meta.uid == b.meta.uid && a.meta.namespace == b.meta.namespace
    ensures Lost(cfg, s, a) <==> Lost(cfg, s, b)
  {
    assert Owned(s, Secrets, a) == Owned(s, Secrets, b);
  }

  lemma WorksAsSet(s: State, key: Key, cp: ControlPlane)
    requires Steady(s, key) && Works(s, key, cp)
    ensures DataPlaneIsSet(cp) <==> DataPlaneIsSet(s.controlPlanes[key])
  {
  }

  /** Repairing a Deployment without a DataPlane stores what the pass has in memory. */
  lemma RepairSays(cfg: Config, s: State, s': State, key: Key, cp: ControlPlane, kind: Kind)
    requires Repairs(cfg, s, s', key, cp, kind)
    ensures key in s'.controlPlanes
    ensures kind == Deployments && !DataPlaneIsSet(cp) ==>
              Meaning(s'.controlPlanes[key].conditions) == Meaning(cp.conditions)
  {
    hide Meaning;
  }

  lemma RepairAdvances(cfg: Config, s: State, s': State, key: Key, cp: ControlPlane, kind: Kind)
    requires Steady(s, key) && Gated(s, key) && Works(s, key, cp) && IsStage(kind)
    requires Stage(cfg, s, key) == Order(kind) && Repairs(cfg, s, s', key, cp, kind)
    requires kind == Secrets ==> !Lost(cfg, s, cp)
    ensures Advanced(cfg, s, s', key) && Demoted(cfg, s, s', key)
  {
    hide Gated, Stage, LateStage, Effective, KindStage, KindSettled, StatusCurrent, ConcludedMeaning, Meaning;
    var want := Effective(s, key);
    LaterStagesKeep(s, s', key, kind);
    SettledIgnoresStatus(cfg, s', want, cp, kind);
    KindStageRises(cfg, s, s', want, Effective(s', key), ServiceAccounts, kind);
    RepairMoves(cfg, s, s', key, cp, kind);
    RepairLosesNothing(cfg, s, s', key, cp, kind);
    WorksAsSet(s, key, cp);
    MeaningIsFind(cp.conditions, PROVISIONED);
    MeaningIsFind(s'.controlPlanes[key].conditions, PROVISIONED);
  }

  /** The status write that concludes leaves the status as concluded. */
  lemma ConclusionWritten(s: State, key: Key, cp: ControlPlane, now: int)
    requires Steady(s, key) && Works(s, key, cp)
    ensures var stored := Meaning(s.controlPlanes[key].conditions);
            var s' := StatusWritten(s, key, cp.(conditions := WithProvisioned(cp.conditions, now)));
            && (stored == ConcludedMeaning(stored) ==> s' == s)
            && (stored != ConcludedMeaning(stored) ==> s'.revision == s.revision + 1)
            && Concludes(s, s', key) && s'.dataPlanes == s.dataPlanes
  {
    hide Meaning, NeedsUpdate, WithProvisioned, ConcludedMeaning;
    ProvisionedMeaning(cp.conditions, now);
    FindAfterConclusion(cp.conditions, now);
    var done := cp.(conditions := WithProvisioned(cp.conditions, now));
    NeedsUpdateIsDifference(s.controlPlanes[key].conditions, done.conditions);
    StatusWrittenMovesStatus(s, key, done);
  }

  lemma FindAfterConclusion(conditions: seq<Condition>, now: int)
    requires Unique(conditions)
    ensures Find(WithProvisioned(conditions, now), PROVISIONED).Some?
  {
    ProvisionedMeaning(conditions, now);
    MeaningIsFind(WithProvisioned(conditions, now), PROVISIONED);
  }

  /** A concluded status is current. */
  lemma ConclusionAdvances(cfg: Config, s: State, s': State, key: Key)
    requires Steady(s, key) && Gated(s, key) && Stage(cfg, s, key) == 10
    requires Concludes(s, s', key) && s'.dataPlanes == s.dataPlanes
    requires s'.revision > s.revision
    ensures Advanced(cfg, s, s', key) && InPlace(cfg, s', key)
  {
    hide Gated, Stage, LateStage, Effective, KindStage, KindSettled, ConcludedMeaning, Meaning, Steady;
    LaterStagesKeep(s, s', key, Secrets);
    KindStageSame(cfg, s, s', Effective(s, key), Effective(s', key), ServiceAccounts);
    KindStageSame(cfg, s, s', Effective(s, key), Effective(s', key), Deployments);
    ConclusionIdempotent(Meaning(s.controlPlanes[key].conditions));
    assert Owned(s', Deployments, Effective(s', key)) == Owned(s, Deployments, Effective(s, key)) by {
      SameItemsAndLabels(s, s', Deployments, Effective(s, key));
      assert Owned(s', Deployments, Effective(s, key)) == Owned(s', Deployments, Effective(s', key));
    }
    ControlPlaneMoves(cfg, s, s', key);
  }

  lemma LateRun(cfg: Config, s: State, key: Key, p: Proc, ch: Choice)
    requires Steady(s, key) && Gated(s, key) && Works(s, key, p.cp)
    requires p.pc == ListKind(ServiceAccounts) && ch.fault == Served
    ensures LateOutcome(cfg, s, Finish(cfg, key, World(s, p), ch).state, key, ch.suffix)
    ensures Stage(cfg, s, key) == 9 && !DataPlaneIsSet(p.cp) && !Stuck(cfg, s, key, ch.suffix) ==>
              var s' := Finish(cfg, key, World(s, p), ch).state;
              key in s'.controlPlanes && Meaning(s'.controlPlanes[key].conditions) == Meaning(p.cp.conditions)
  {
    hide Finish, Writes, Gated, Stage, LateStage, KindStage, KindSettled, ConcludedMeaning, Meaning;
    hide Repairable, Repairs, Piles, Piled, Lost, Concludes, Demoted, StatusWritten, Defaulted, Advanced;
    var want, kind := Effective(s, key), KindOf(Stage(cfg, s, key));
    KindStageSame(cfg, s, s, want, p.cp, ServiceAccounts);
    KindsRun(cfg, key, s, p, ServiceAccounts, ch);
    HealthIgnoresRest(cfg, s, want, p.cp, kind, ch.suffix);
    var s' := Finish(cfg, key, World(s, p), ch).state;
    if Stage(cfg, s, key) >= 10 {
      SameBody(cfg, s, want, p.cp);
      ConclusionWritten(s, key, p.cp, ch.now);
      if Stage(cfg, s, key) == 10 {
        ConclusionAdvances(cfg, s, s', key);
      }
    } else {
      LostIgnoresRest(cfg, s, p.cp, s.controlPlanes[key]);
      if Stuck(cfg, s, key, ch.suffix) {
      } else if kind == Secrets && Lost(cfg, s, p.cp) {
        PilesStay(cfg, s, s', key, p.cp);
      } else {
        RepairAdvances(cfg, s, s', key, p.cp, kind);
        RepairSays(cfg, s, s', key, p.cp, kind);
      }
    }
  }

  lemma SameBody(cfg: Config, s: State, a: ControlPlane, b: ControlPlane)
    requires SameWants(a, b) && KindSettled(cfg, s, a, Deployments) && KindSettled(cfg, s, b, Deployments)
    ensures SettledBody(cfg, s, a, Deployments) == SettledBody(cfg, s, b, Deployments)
  {
    assert Owned(s, Deployments, a) == Owned(s, Deployments, b);
  }

  /** A pass that finds finalizers, scheduling and environment in order turns to
      the owned objects. */
  lemma WorkingRun(cfg: Config, s: State, key: Key, ch: Choice) returns (p: Proc)
    requires Steady(s, key) && Gated(s, key) && ch.fault == Served
    ensures Works(s, key, p.cp) && p.pc == ListKind(ServiceAccounts)
    ensures Says(p.cp.conditions, "Ready", NOT_READY)
    ensures Finish(cfg, key, World(s, Start()), ch) == Finish(cfg, key, World(s, p), ch)
    ensures Writes(cfg, key, World(s, Start()), ch) == Writes(cfg, key, World(s, p), ch)
  {
    hide Finish, Writes, Defaulted, DefaultsHold, Follows, WithReadyReset, WithDataPlaneStatus, Meaning;
    hide ConcludedMeaning;
    var cp := s.controlPlanes[key];
    var reset := WithReadyReset(cp.conditions, ch.now);
    ServiceRun(cfg, s, key, ch);
    ReadyResetMeaning(cp.conditions, ch.now);
    ReadyReset(cp.conditions, ch.now, "");
    assert READY != PROVISIONED by { assert |READY| != |PROVISIONED|; }
    MarkingSaysWhether(reset, DataPlaneIsSet(cp), ch.now, READY);
    MarkedMeaning(reset, DataPlaneIsSet(cp), ch.now);
    var works := Effective(s, key).(conditions := WithDataPlaneStatus(reset, DataPlaneIsSet(cp), ch.now));
    p := Start().(cp := works, pc := ListKind(ServiceAccounts));
  }

  lemma LatePass(cfg: Config, s: State, key: Key, ch: Choice)
    requires Steady(s, key) && Gated(s, key) && ch.fault == Served
    ensures LateOutcome(cfg, s, Finish(cfg, key, World(s, Start()), ch).state, key, ch.suffix)
    ensures Stage(cfg, s, key) == 9 && !DataPlaneIsSet(s.controlPlanes[key]) && !Stuck(cfg, s, key, ch.suffix) ==>
              var s' := Finish(cfg, key, World(s, Start()), ch).state;
              key in s'.controlPlanes && Says(s'.controlPlanes[key].conditions, "Ready", NOT_READY)
  {
    hide Finish, Writes, LateOutcome, Steady, Gated, Works, Stuck, Stage;
    var p := WorkingRun(cfg, s, key, ch);
    LateRun(cfg, s, key, p, ch);
    WorksAsSet(s, key, p.cp);
    var s' := Finish(cfg, key, World(s, Start()), ch).state;
    if key in s'.controlPlanes {
      MeaningIsFind(s'.controlPlanes[key].conditions, READY);
      MeaningIsFind(p.cp.conditions, READY);
    }
  }

  /** The entry of the type says this. */
  predicate Says(conditions: seq<Condition>, ctype: string, verdict: Verdict) {
    var found := Find(conditions, ctype);
    found.Some? && VerdictOf(found.value) == verdict
  }

  // ---------------------------------------------------------------------------
  // The environment after its DataPlane is gone
  // ---------------------------------------------------------------------------

  /** The ControlPlane with both writers applied, no DataPlane being set. */
  function Detached(cp: ControlPlane): ControlPlane {
    cp.(env := Followed(Defaulted(cp.env, cp.meta.namespace, "", {}), false, cp.meta.namespace, ""))
  }

  lemma DetachedStored(cfg: Config, s: State, key: Key, cp: ControlPlane)
    requires Steady(s, key) && !DataPlaneIsSet(s.controlPlanes[key])
    requires FinalizersStored(s.controlPlanes[key]) && Find(s.controlPlanes[key].conditions, PROVISIONED).Some?
    requires cp.meta == s.controlPlanes[key].meta
    requires cp == Detached(s.controlPlanes[key]).(conditions := cp.conditions)
    ensures var reply := UpdateControlPlane(s, key, cp);
            && reply.Accepted? && Steady(reply.state, key) && Gated(reply.state, key) && Moves(s, reply.state, key)
            && reply.value == reply.state.controlPlanes[key] == Effective(reply.state, key)
            && reply.state.objects == s.objects && reply.state.dataPlanes == s.dataPlanes
            && reply.value.conditions == s.controlPlanes[key].conditions && !DataPlaneIsSet(reply.value)
            && (Lost(cfg, s, s.controlPlanes[key]) <==> Lost(cfg, reply.state, reply.value))
  {
    hide Followed, Defaulted, DefaultsHold;
    var stored := s.controlPlanes[key];
    var namespace := stored.meta.namespace;
    WritersSettleWhenUnset(stored.env, namespace, {});
    DefaultedKeepsOthers(stored.env, namespace, "", {});
    FollowedKeepsOthers(Defaulted(stored.env, namespace, "", {}), false, namespace, "");
    ControlPlaneMoves(cfg, s, UpdateControlPlane(s, key, cp).state, key);
  }

  lemma MovesCompose(s: State, s1: State, s': State, key: Key)
    requires Moves(s, s1, key) && Moves(s1, s', key) && s1.objects == s.objects && s1.dataPlanes == s.dataPlanes
    ensures Moves(s, s', key)
  {
    var kind :| MovesKind(s1, s', kind, s'.controlPlanes[key]);
    assert MovesKind(s, s', kind, s'.controlPlanes[key]);
  }

  /** If the stage of the Deployment writes the status, it leaves Ready as it was. */
  ghost predicate ReadyStays(cfg: Config, s: State, s': State, key: Key, suffix: string)
    requires Steady(s, key)
  {
    Stage(cfg, s, key) == 9 && !DataPlaneIsSet(s.controlPlanes[key]) && !Stuck(cfg, s, key, suffix) ==>
      && key in s'.controlPlanes
      && var was := Find(s.controlPlanes[key].conditions, "Ready");
         var now := Find(s'.controlPlanes[key].conditions, "Ready");
         && (was.Some? <==> now.Some?) && (was.Some? ==> VerdictOf(was.value) == VerdictOf(now.value))
  }

  /** The write that removes the entries of a DataPlane is not the last of its
      pass: the pass goes on with the owned objects. */
  lemma DetachedRun(cfg: Config, s: State, key: Key, p: Proc, ch: Choice)
    requires Steady(s, key) && !DataPlaneIsSet(s.controlPlanes[key]) && p.pc == PutEnvironment
    requires FinalizersStored(s.controlPlanes[key]) && Find(s.controlPlanes[key].conditions, PROVISIONED).Some?
    requires p.cp.meta == s.controlPlanes[key].meta
    requires p.cp == Detached(s.controlPlanes[key]).(conditions := p.cp.conditions)
    requires ch.fault == Served
    ensures var s1 := UpdateControlPlane(s, key, p.cp).state;
            && Steady(s1, key) && Gated(s1, key)
            && LateOutcome(cfg, s1, Finish(cfg, key, World(s, p), ch).state, key, ch.suffix)
            && ReadyStays(cfg, s1, Finish(cfg, key, World(s, p), ch).state, key, ch.suffix)
  {
    hide Finish, Writes, Followed, Defaulted, DefaultsHold, WithDataPlaneStatus, UpdateControlPlane, LateStage, Stage;
    hide Moves, Gated, Meaning, ConcludedMeaning, LateOutcome, Detached;
    DetachedStored(cfg, s, key, p.cp);
    FinishStep(cfg, key, World(s, p), ch);
    var reply := UpdateControlPlane(s, key, p.cp);
    MarkedMeaning(reply.value.conditions, false, ch.now);
    assert READY != PROVISIONED by { assert |READY| != |PROVISIONED|; }
    MarkingSaysWhether(reply.value.conditions, false, ch.now, READY);
    var q := AfterEnvironment(p, reply.value, ch.now);
    LateRun(cfg, reply.state, key, q, ch);
    var s' := Finish(cfg, key, World(s, p), ch).state;
    MeaningIsFind(q.cp.conditions, READY);
    if key in s'.controlPlanes {
      MeaningIsFind(s'.controlPlanes[key].conditions, READY);
    }
  }

  lemma DetachedOutcome(cfg: Config, s: State, s1: State, s': State, key: Key, suffix: string)
    requires Steady(s, key) && Stage(cfg, s, key) == 4 && Steady(s1, key) && Gated(s1, key)
    requires LateOutcome(cfg, s1, s', key, suffix) && Moves(s, s1, key)
    requires s1.objects == s.objects && s1.dataPlanes == s.dataPlanes
    requires key in s.controlPlanes && key in s1.controlPlanes
    requires s1.controlPlanes[key].conditions == s.controlPlanes[key].conditions
    requires Lost(cfg, s, s.controlPlanes[key]) <==> Lost(cfg, s1, s1.controlPlanes[key])
    ensures Advanced(cfg, s, s', key)
    ensures Modest(s, s', key) || (s'.objects == s.objects && InPlace(cfg, s', key))
  {
    hide Moves, Gated, InPlace, Meaning, ConcludedMeaning, LateStage, Stage, Effective, Steady, OnlyStatusMoved;
    hide Repairable, Lost;
    if s' != s1 {
      MovesCompose(s, s1, s', key);
    }
  }

  /** A pass at the fourth stage stores the environment without the entries of a
      DataPlane, and then goes on as any pass from that state. */
  lemma DetachedPass(cfg: Config, s: State, key: Key, ch: Choice) returns (s1: State)
    requires Steady(s, key) && Stage(cfg, s, key) == 4 && ch.fault == Served
    ensures !DataPlaneIsSet(s.controlPlanes[key]) && Moves(s, s1, key)
    ensures s1.objects == s.objects && s1.dataPlanes == s.dataPlanes && SameConditions(s, s1, key)
    ensures Steady(s1, key) && Gated(s1, key) && !DataPlaneIsSet(s1.controlPlanes[key])
    ensures SameWants(Detached(s.controlPlanes[key]), Effective(s1, key))
    ensures Lost(cfg, s, s.controlPlanes[key]) <==> Lost(cfg, s1, s1.controlPlanes[key])
    ensures LateOutcome(cfg, s1, Finish(cfg, key, World(s, Start()), ch).state, key, ch.suffix)
    ensures ReadyStays(cfg, s1, Finish(cfg, key, World(s, Start()), ch).state, key, ch.suffix)
  {
    hide Finish, Writes, Followed, Defaulted, DefaultsHold, WithReadyReset, LateStage;
    hide Moves, Gated, InPlace, LateOutcome, ReadyStays;
    var stored := s.controlPlanes[key];
    if DataPlaneIsSet(stored) {
      WritersAgreeWhenSet(stored.env, stored.meta.namespace, ServiceOf(s, stored).value, {});
      assert false;
    }
    ServiceRun(cfg, s, key, ch);
    var p := Start().(cp := Detached(stored).(conditions := WithReadyReset(stored.conditions, ch.now)),
                      pc := PutEnvironment);
    DetachedStored(cfg, s, key, p.cp);
    DetachedRun(cfg, s, key, p, ch);
    s1 := UpdateControlPlane(s, key, p.cp).state;
  }

  lemma StageFour(cfg: Config, s: State, key: Key, ch: Choice)
    requires Steady(s, key) && Stage(cfg, s, key) == 4 && ch.fault == Served
    ensures var s' := Finish(cfg, key, World(s, Start()), ch).state;
            && Advanced(cfg, s, s', key)
            && (Modest(s, s', key) || (s'.objects == s.objects && InPlace(cfg, s', key)))
  {
    hide Finish, Writes, LateStage, Moves, Gated, InPlace, LateOutcome, Advanced, Modest, Lost, Steady, Effective;
    var s1 := DetachedPass(cfg, s, key, ch);
    DetachedOutcome(cfg, s, s1, Finish(cfg, key, World(s, Start()), ch).state, key, ch.suffix);
  }

  // ---------------------------------------------------------------------------
  // Whole passes
  // ---------------------------------------------------------------------------

  lemma EarlyPass(cfg: Config, s: State, key: Key, ch: Choice)
    requires Steady(s, key) && Stage(cfg, s, key) < 5 && ch.fault == Served
    ensures var s' := Finish(cfg, key, World(s, Start()), ch).state;
            && Advanced(cfg, s, s', key)
            && (Modest(s, s', key) || (s'.objects == s.objects && InPlace(cfg, s', key)))
  {
    hide Finish, Writes, Gated, LateStage, Advanced, InPlace, Steady;
    match Stage(cfg, s, key)
    case 1 => StageOne(cfg, s, key, ch);
    case 2 => StageTwo(cfg, s, key, ch);
    case 3 => StageThree(cfg, s, key, ch);
    case _ => StageFour(cfg, s, key, ch);
  }

  /** An undisturbed pass on a live ControlPlane either writes nothing, which is
      exactly when nothing is left to do or what is left cannot be done, or it
      reaches a later stage, or it stores a certificate that is not found again. It
      concludes only what it has put in place. */
  lemma PassProgress(cfg: Config, s: State, key: Key, now: int, suffix: string)
    requires Steady(s, key)
    ensures var s' := Pass(cfg, key, s, now, suffix);
            && (s' == s <==> Stuck(cfg, s, key, suffix))
            && (s' != s ==>
                  if Stage(cfg, s, key) == 8 && Lost(cfg, s, s.controlPlanes[key]) then Piled(cfg, s, s', key)
                  else Advanced(cfg, s, s', key))
            && (Modest(s, s', key) || (s'.objects == s.objects && InPlace(cfg, s', key)))
  {
    hide Finish, Writes, Gated, Stage, LateStage, Moves, Meaning, ConcludedMeaning, Repairable, InPlace, Lost;
    hide Says, KindSettled, StatusCurrent, OnlyStatusMoved, Effective, ServiceOf;
    var ch := Quiet(now, suffix);
    if Stage(cfg, s, key) < 5 {
      EarlyPass(cfg, s, key, ch);
    } else {
      LatePass(cfg, s, key, ch);
    }
    assert Moves(s, Pass(cfg, key, s, now, suffix), key) ==> Pass(cfg, key, s, now, suffix) != s by {
      MovesIsMove(s, Pass(cfg, key, s, now, suffix), key);
    }
  }

  lemma MovesIsMove(s: State, s': State, key: Key)
    ensures Moves(s, s', key) ==> s' != s
  {
  }

  /** At the last stage a pass only reads: it makes no call that asks for a change. */
  lemma LastStageReadsOnly(cfg: Config, s: State, key: Key, now: int, suffix: string)
    requires Steady(s, key) && Stage(cfg, s, key) == 11
    ensures Writes(cfg, key, World(s, Start()), Quiet(now, suffix)) == 0
  {
    hide Finish, Writes, Gated, Stage, LateStage, KindSettled, Meaning, ConcludedMeaning, Concluded, Defaulted;
    hide StageOutcome, Modest, InPlace;
    var ch, want := Quiet(now, suffix), Effective(s, key);
    var p := WorkingRun(cfg, s, key, ch);
    KindStageSame(cfg, s, s, want, p.cp, ServiceAccounts);
    KindsRun(cfg, key, s, p, ServiceAccounts, ch);
    PassProgress(cfg, s, key, now, suffix);
    KindsReadOnly(cfg, key, s, p, ServiceAccounts, ch);
  }

  /** While the DataPlane or its Service cannot be found, nothing is written. */
  lemma UnexposedWaits(cfg: Config, s: State, key: Key, now: int, suffix: string)
    requires key in s.controlPlanes && s.controlPlanes[key].meta.deletion.None?
    requires FinalizersStored(s.controlPlanes[key]) && Find(s.controlPlanes[key].conditions, PROVISIONED).Some?
    requires ServiceOf(s, s.controlPlanes[key]).None?
    ensures Pass(cfg, key, s, now, suffix) == s
  {
    hide Finish, Writes, AfterService, WithFinalizers;
    var ch, cp := Quiet(now, suffix), s.controlPlanes[key];
    var reset := WithReadyReset(cp.conditions, now);
    GetRun(cfg, s, key, ch);
    FinalizersComplete(cp);
    PutFinds(cp.conditions, NotReadyYet(now), PROVISIONED);
    var w := World(s, Start().(cp := cp.(conditions := reset), pc := GetDataPlane));
    FinishStep(cfg, key, w, ch);
    var w1 := Step(cfg, key, w, ch);
    FinishStep(cfg, key, w1, ch);
    if w1.proc.pc.ListServices? {
      FinishStep(cfg, key, Step(cfg, key, w1, ch), ch);
    }
  }

  // ---------------------------------------------------------------------------
  // Convergence
  // ---------------------------------------------------------------------------

  /** At most one owned object of each kind, and an image with a known role. */
  ghost predicate Healthy(cfg: Config, s: State, key: Key) {
    && key in s.controlPlanes
    && forall kind | IsStage(kind) :: KindHealthy(cfg, s, s.controlPlanes[key], kind)
  }

  ghost predicate NamesFree(cfg: Config, s: State, key: Key, suffix: string) {
    && key in s.controlPlanes
    && forall kind | IsStage(kind) :: NameIsFree(cfg, s, s.controlPlanes[key], kind, suffix)
  }

  lemma HealthKept(cfg: Config, s: State, s': State, key: Key)
    requires Moves(s, s', key) && Healthy(cfg, s, key)
    ensures Healthy(cfg, s', key)
  {
    hide SameIntent;
    var cp, cp' := s.controlPlanes[key], s'.controlPlanes[key];
    var moved :| MovesKind(s, s', moved, cp');
    forall kind | IsStage(kind)
      ensures KindHealthy(cfg, s', cp', kind)
    {
      SameIntentIdentity(cp, cp');
      HealthIgnoresRest(cfg, s, cp, cp', kind, "");
      if kind != moved {
        ListIgnoresOtherKinds(s, s', moved, kind, Scope(kind, cp'.meta.namespace), CONTROL_PLANE_VALUE, cp'.meta.uid);
      } else {
        assert KindHealthy(cfg, s, cp, moved);
        if s'.objects == s.objects {
          SameItemsAndLabels(s, s', moved, cp');
        }
      }
    }
  }

  lemma SameIntentIdentity(a: ControlPlane, b: ControlPlane)
    requires SameIntent(a, b)
    ensures a.meta.name == b.meta.name && a.meta.namespace == b.meta.namespace && a.meta.uid == b.meta.uid
    ensures a.image == b.image
  {
  }

  lemma HealthyIsNotStuck(cfg: Config, s: State, key: Key, suffix: string)
    requires Steady(s, key) && Healthy(cfg, s, key) && NamesFree(cfg, s, key, suffix)
    ensures Stuck(cfg, s, key, suffix) <==> Stage(cfg, s, key) == 11
  {
    hide KindHealthy, NameIsFree, Stage;
    var kind := KindOf(Stage(cfg, s, key));
    HealthIgnoresRest(cfg, s, s.controlPlanes[key], Effective(s, key), kind, suffix);
    assert KindHealthy(cfg, s, s.controlPlanes[key], kind) && NameIsFree(cfg, s, s.controlPlanes[key], kind, suffix);
  }

  /** What a pass takes from outside: the clock, and the suffix for a new name. */
  datatype Tick = Tick(now: int, suffix: string)

  /** The state after undisturbed passes, one for each tick. */
  ghost function Passes(cfg: Config, key: Key, s: State, ticks: seq<Tick>): State
    decreases |ticks|
  {
    if ticks == [] then s else Passes(cfg, key, Pass(cfg, key, s, ticks[0].now, ticks[0].suffix), ticks[1..])
  }

  /** In every pass the server picks a suffix that makes a new name. */
  ghost predicate NeverClashes(cfg: Config, key: Key, s: State, ticks: seq<Tick>)
    decreases |ticks|
  {
    ticks == [] || (&& NamesFree(cfg, s, key, ticks[0].suffix)
                    && NeverClashes(cfg, key, Pass(cfg, key, s, ticks[0].now, ticks[0].suffix), ticks[1..]))
  }

  /** What many passes keep. */
  ghost predicate Keeps(s: State, s': State, key: Key) {
    && key in s.controlPlanes && key in s'.controlPlanes
    && SameIntent(s.controlPlanes[key], s'.controlPlanes[key])
    && s'.controlPlanes == s.controlPlanes[key := s'.controlPlanes[key]] && s'.dataPlanes == s.dataPlanes
  }

  lemma KeepsComposes(s: State, s1: State, s': State, key: Key)
    requires Moves(s, s1, key) && Keeps(s1, s', key)
    ensures Keeps(s, s', key)
  {
  }

  /** Where no certificate will be found, the stage of the certificate is the last. */
  lemma LostStops(cfg: Config, s: State, key: Key)
    requires Steady(s, key) && Lost(cfg, s, s.controlPlanes[key])
    ensures Stage(cfg, s, key) <= 8
  {
    hide Gated, Defaulted, ServiceOf;
    var want := Effective(s, key);
    assert Owned(s, Secrets, want) == Owned(s, Secrets, s.controlPlanes[key]);
    assert KindStage(cfg, s, want, Secrets) == 8;
    assert KindStage(cfg, s, want, ClusterRoleBindings) <= 8;
    assert KindStage(cfg, s, want, ClusterRoles) <= 8;
    assert KindStage(cfg, s, want, ServiceAccounts) <= 8;
  }

  lemma OnePass(cfg: Config, key: Key, s: State, now: int, suffix: string)
    requires Steady(s, key) && Healthy(cfg, s, key) && NamesFree(cfg, s, key, suffix)
    ensures var s' := Pass(cfg, key, s, now, suffix);
            && Steady(s', key) && Healthy(cfg, s', key)
            && (Lost(cfg, s, s.controlPlanes[key]) <==> Lost(cfg, s', s'.controlPlanes[key]))
            && (if Stage(cfg, s, key) == 11 then s' == s
                else && Moves(s, s', key)
                     && if Stage(cfg, s, key) == 8 && Lost(cfg, s, s.controlPlanes[key]) then Stage(cfg, s', key) == 8
                        else Stage(cfg, s', key) > Stage(cfg, s, key))
  {
    hide Pass, Stage, Stuck, Steady, Modest, InPlace, NamesFree, Healthy, Moves, Lost, Gated;
    PassProgress(cfg, s, key, now, suffix);
    HealthyIsNotStuck(cfg, s, key, suffix);
    if Stage(cfg, s, key) != 11 {
      HealthKept(cfg, s, Pass(cfg, key, s, now, suffix), key);
    }
  }

  /** How far passes have come: to the last stage, at least one stage further in each,
      or to the stage of a certificate that will not be found. */
  ghost predicate Reaches(cfg: Config, s: State, s': State, key: Key, n: nat)
    requires Steady(s, key) && Steady(s', key)
  {
    || Stage(cfg, s', key) == 11
    || Stage(cfg, s', key) >= Stage(cfg, s, key) + n
    || (Lost(cfg, s, s.controlPlanes[key]) && Stage(cfg, s', key) == 8)
  }

  /** Each pass raises the stage until it is 11, or 8 if the certificate is lost: in a
      healthy cluster, whose server finds new names, `n` passes reach at least `n`
      stages further. */
  lemma {:induction false} PassesAdvance(cfg: Config, key: Key, s: State, ticks: seq<Tick>)
    requires Steady(s, key) && Healthy(cfg, s, key) && NeverClashes(cfg, key, s, ticks)
    ensures var s' := Passes(cfg, key, s, ticks);
            && Steady(s', key) && Keeps(s, s', key) && Reaches(cfg, s, s', key, |ticks|)
            && (Lost(cfg, s, s.controlPlanes[key]) <==> Lost(cfg, s', s'.controlPlanes[key]))
    decreases |ticks|
  {
    hide Pass, Stage, ServiceOf, NamesFree, Healthy, Moves, Lost;
    if ticks == [] {
      SteadyKeeps(s, key);
    } else {
      var s1 := Pass(cfg, key, s, ticks[0].now, ticks[0].suffix);
      var s' := Passes(cfg, key, s1, ticks[1..]);
      OnePass(cfg, key, s, ticks[0].now, ticks[0].suffix);
      PassesAdvance(cfg, key, s1, ticks[1..]);
      if Lost(cfg, s, s.controlPlanes[key]) {
        LostStops(cfg, s, key);
        LostStops(cfg, s', key);
      }
      if Stage(cfg, s, key) != 11 {
        KeepsComposes(s, s1, s', key);
      }
    }
  }

  lemma SteadyKeeps(s: State, key: Key)
    requires Steady(s, key)
    ensures Keeps(s, s, key)
  {
  }

  /** Ten passes bring a live ControlPlane to the last stage exactly if new certificates
      get the label or one with the label is there; otherwise they end up at the stage
      of the certificate. At the last stage every further pass leaves the cluster
      exactly as it is. */
  lemma Converges(cfg: Config, key: Key, s: State, ticks: seq<Tick>, later: Tick)
    requires Steady(s, key) && Healthy(cfg, s, key)
    requires NeverClashes(cfg, key, s, ticks) && |ticks| >= 10
    ensures var s' := Passes(cfg, key, s, ticks);
            && Steady(s', key) && Keeps(s, s', key)
            && (Stage(cfg, s', key) == 11 <==>
                  cfg.secretsLabelled || Owned(s, Secrets, s.controlPlanes[key]) != [])
            && (Stage(cfg, s', key) != 11 ==> Stage(cfg, s', key) == 8)
            && (Stage(cfg, s', key) == 11 ==> Pass(cfg, key, s', later.now, later.suffix) == s')
  {
    hide Pass, Stage, Modest, InPlace, NeverClashes, Healthy, Passes, Keeps;
    PassesAdvance(cfg, key, s, ticks);
    var s' := Passes(cfg, key, s, ticks);
    if Lost(cfg, s, s.controlPlanes[key]) {
      LostStops(cfg, s', key);
    }
    PassProgress(cfg, s', key, later.now, later.suffix);
  }

  // ---------------------------------------------------------------------------
  // What the last stage and a True status say
  // ---------------------------------------------------------------------------

  lemma {:induction false} AllKindsSettled(cfg: Config, s: State, cp: ControlPlane, from: Kind, kind: Kind)
    requires IsStage(from) && IsStage(kind) && Order(from) <= Order(kind) && KindStage(cfg, s, cp, from) == 10
    ensures KindSettled(cfg, s, cp, kind)
    decreases 10 - Order(from)
  {
    if from != kind {
      AllKindsSettled(cfg, s, cp, NextKind(from), kind);
    }
  }

  /** The one owned Deployment has replicas, all of them available, and its main container
      runs this environment. */
  ghost predicate Runs(s: State, cp: ControlPlane, env: seq<EnvVar>) {
    var items := Owned(s, Deployments, cp);
    && |items| == 1 && items[0] in s.objects && s.objects[items[0]].body.Workload?
    && var spec := s.objects[items[0]].body.spec;
       && HasMain(spec.containers) && Main(spec).env == env && Main(spec).envFrom == cp.envFrom
       && (DataPlaneIsSet(cp) <==> spec.replicas != Some(0))
       && var status := s.objects[items[0]].body.status;
          status.replicas != 0 && status.replicas <= status.available
  }

  /** A pass of a ControlPlane with a DataPlane that writes Provisioned=True does so
      with both finalizers stored, exactly one owned object of each kind, and the
      container running the defaulted environment, published through the Service
      of the DataPlane. */
  lemma ProvisionedMeansInPlace(cfg: Config, s: State, key: Key, now: int, suffix: string)
    requires Steady(s, key)
    ensures key in Pass(cfg, key, s, now, suffix).controlPlanes
    ensures var s' := Pass(cfg, key, s, now, suffix);
            var cp, cp' := s.controlPlanes[key], s'.controlPlanes[key];
            var service := ServiceOf(s, cp).value;
            cp'.conditions != cp.conditions && SaysProvisioned(cp') ==>
              && FinalizersStored(cp')
              && (forall kind | IsStage(kind) :: |Owned(s', kind, cp')| == 1)
              && Runs(s', cp', Defaulted(cp'.env, cp'.meta.namespace, service, {}))
              && (DataPlaneIsSet(cp') ==>
                    var env := Defaulted(cp'.env, cp'.meta.namespace, service, {});
                    && ValueByName(env, "CONTROLLER_PUBLISH_SERVICE") == cp.meta.namespace + "/" + service
                    && ValueByName(env, "CONTROLLER_APISIX_ADMIN_URL") ==
                       "https://" + service + "." + cp.meta.namespace + ".svc:9444")
  {
    hide Pass, Stuck, Defaulted, LateStage, KindStage;
    PassProgress(cfg, s, key, now, suffix);
    var s' := Pass(cfg, key, s, now, suffix);
    if InPlace(cfg, s', key) && Steady(s', key) && s' != s {
      InPlaceMeans(cfg, s', key);
      assert ServiceOf(s', s'.controlPlanes[key]) == ServiceOf(s, s.controlPlanes[key]) by {
        SameService(s, s', key);
      }
    }
  }

  predicate SaysProvisioned(cp: ControlPlane) {
    Find(cp.conditions, PROVISIONED).Some? && Find(cp.conditions, PROVISIONED).value.status == StatusTrue
  }

  lemma SameService(s: State, s': State, key: Key)
    requires Moves(s, s', key)
    ensures ServiceOf(s', s'.controlPlanes[key]) == ServiceOf(s, s.controlPlanes[key])
  {
    hide SameIntent;
    var cp, cp' := s.controlPlanes[key], s'.controlPlanes[key];
    var moved :| MovesKind(s, s', moved, cp');
    assert cp'.dataPlane == cp.dataPlane && cp'.meta.namespace == cp.meta.namespace by {
      SameIntentDataPlane(cp, cp');
    }
    ServiceUnmoved(s, s', moved, cp, cp');
  }

  lemma SameIntentDataPlane(a: ControlPlane, b: ControlPlane)
    requires SameIntent(a, b)
    ensures a.dataPlane == b.dataPlane && a.meta.namespace == b.meta.namespace
  {
  }

  lemma SettledRuns(cfg: Config, s: State, key: Key)
    requires Steady(s, key) && KindSettled(cfg, s, Effective(s, key), Deployments)
    requires var body := SettledBody(cfg, s, Effective(s, key), Deployments);
             body.Workload? && Serving(body.status)
    ensures Runs(s, s.controlPlanes[key], Effective(s, key).env)
  {
    hide Defaulted, ServiceOf;
    var want := Effective(s, key);
    var generated := GeneratedWorkload(want, NONAMES).containers;
    assert generated[0].name == MAIN_CONTAINER;
    assert Owned(s, Deployments, want) == Owned(s, Deployments, s.controlPlanes[key]);
  }

  lemma InPlaceMeans(cfg: Config, s: State, key: Key)
    requires InPlace(cfg, s, key)
    ensures var cp := s.controlPlanes[key];
            var env := Effective(s, key).env;
            && FinalizersStored(cp)
            && (forall kind | IsStage(kind) :: |Owned(s, kind, cp)| == 1)
            && Runs(s, cp, env)
            && (DataPlaneIsSet(cp) ==>
                  var service := ServiceOf(s, cp).value;
                  && ValueByName(env, "CONTROLLER_PUBLISH_SERVICE") == cp.meta.namespace + "/" + service
                  && ValueByName(env, "CONTROLLER_APISIX_ADMIN_URL") ==
                     "https://" + service + "." + cp.meta.namespace + ".svc:9444")
  {
    hide Defaulted, DefaultsHold, LateStage, Stage, Runs, KindStage;
    var want, cp := Effective(s, key), s.controlPlanes[key];
    forall kind | IsStage(kind)
      ensures |Owned(s, kind, cp)| == 1
    {
      AllKindsSettled(cfg, s, want, ServiceAccounts, kind);
      assert Owned(s, kind, want) == Owned(s, kind, cp);
    }
    SettledRuns(cfg, s, key);
  }

  /** Deployments without wanted replicas report none. */
  ghost predicate ScaledDown(s: State) {
    forall r | r in s.objects && s.objects[r].body.Workload? ::
      s.objects[r].body.spec.replicas == Some(0) ==> s.objects[r].body.status.replicas == 0
  }

  lemma DetachedIsNotInPlace(cfg: Config, s: State, key: Key)
    requires key in s.controlPlanes && !DataPlaneIsSet(s.controlPlanes[key]) && ScaledDown(s)
    ensures !InPlace(cfg, s, key)
  {
    hide Defaulted, LateStage, KindStage;
    if InPlace(cfg, s, key) {
      InPlaceMeans(cfg, s, key);
    }
  }

  /** Without a DataPlane no pass writes Provisioned=True. */
  lemma NeverProvisionedDetached(cfg: Config, s: State, key: Key, now: int, suffix: string)
    requires Steady(s, key) && ScaledDown(s) && !DataPlaneIsSet(s.controlPlanes[key])
    ensures var s' := Pass(cfg, key, s, now, suffix);
            && key in s'.controlPlanes
            && (s'.controlPlanes[key].conditions == s.controlPlanes[key].conditions
                || !SaysProvisioned(s'.controlPlanes[key]))
  {
    hide Pass, Stuck, Defaulted, LateStage, KindStage, InPlace, SameIntent;
    PassProgress(cfg, s, key, now, suffix);
    var s' := Pass(cfg, key, s, now, suffix);
    if s' != s && s'.objects == s.objects {
      SameIntentDataPlane(s.controlPlanes[key], s'.controlPlanes[key]);
      DetachedIsNotInPlace(cfg, s', key);
    }
  }

  /** At the last stage with all replicas available the stored status says so, and
      Ready is true exactly if every other condition is. */
  lemma QuietMeansReady(cfg: Config, s: State, key: Key)
    requires Steady(s, key) && Stage(cfg, s, key) == 11
    requires var body := SettledBody(cfg, s, Effective(s, key), Deployments);
             body.Workload? && body.status.replicas != 0 && body.status.replicas <= body.status.available
    ensures var m := Meaning(s.controlPlanes[key].conditions);
            && "Provisioned" in m
            && m["Provisioned"] == Verdict(StatusTrue, "PodsReady", "pods for all Deployments are ready")
            && "Ready" in m
            && (m["Ready"].status == StatusTrue <==> forall t | t in m && t != "Ready" :: m[t].status == StatusTrue)
  {
    hide LateStage, Meaning, Effective;
    assert READY != PROVISIONED by { assert |READY| != |PROVISIONED|; }
    var m := Meaning(s.controlPlanes[key].conditions);
    var provisioned := m[PROVISIONED := VerdictOf(ProvisionedCondition(0))];
    assert m == ConcludedMeaning(m);
    assert forall t | t != READY :: t in m <==> t in provisioned;
    assert forall t | t != READY && t in m :: m[t] == provisioned[t];
  }

  /** A readiness once stored is not taken back: when the Deployment has no replicas, or
      some that are not available, while everything else is in order, no pass writes,
      whatever the status. */
  lemma StaleReadiness(cfg: Config, s: State, key: Key, now: int, suffix: string)
    requires Steady(s, key) && Stage(cfg, s, key) >= 10
    requires var body := SettledBody(cfg, s, Effective(s, key), Deployments);
             body.Workload? && (body.status.replicas == 0 || body.status.available < body.status.replicas)
    ensures Stage(cfg, s, key) == 11 && Pass(cfg, key, s, now, suffix) == s
  {
    hide Pass, Effective;
    PassProgress(cfg, s, key, now, suffix);
  }
}
