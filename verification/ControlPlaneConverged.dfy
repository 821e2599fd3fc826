/** Exactly when the objects that undisturbed passes arrive at are as asked for and refer
    to each other. */
module ControlPlaneConverged {
  import opened Wrappers
  import opened ControlPlaneEnv
  import opened Conditions
  import opened Metadata
  import opened Deployments
  import opened Cluster
  import opened ControlPlaneObjects
  import opened ControlPlanePass
  import opened ControlPlaneGoals
  import opened ControlPlaneStages
  import opened ControlPlaneWiring
  import opened ControlPlaneConvergence
  import opened ControlPlaneRollout

  /** A call that is made for a ControlPlane that is not under deletion. */
  predicate IsLive(pc: Pc) {
    !pc.ListBindings? && !pc.DeleteBindings? && !pc.ListRoles? && !pc.DeleteRoles?
  }

  /** A pass at the key works for this ControlPlane, which is not under deletion. */
  predicate Tracks(s: State, key: Key, p: Proc, cp: ControlPlane) {
    && (key in s.controlPlanes ==> Like(s.controlPlanes[key], cp) && s.controlPlanes[key].meta.deletion.None?)
    && IsLive(p.pc) && (!p.pc.GetControlPlane? && !p.pc.Done? ==> Like(p.cp, cp))
  }

  /** One object of the kind is found, and this is its name. */
  ghost predicate FoundAs(s: State, kind: Kind, cp: ControlPlane, name: string) {
    |Owned(s, kind, cp)| == 1 && Owned(s, kind, cp)[0].name == name
  }

  /** The names in an object are those of the objects that are found. */
  ghost predicate LeadsTo(s: State, body: Body, cp: ControlPlane) {
    match body
    case Binding(role, account, namespace) =>
      FoundAs(s, ClusterRoles, cp, role) && FoundAs(s, ServiceAccounts, cp, account) && namespace == cp.meta.namespace
    case Workload(spec, _) =>
      FoundAs(s, ServiceAccounts, cp, spec.serviceAccount) && FoundAs(s, Secrets, cp, spec.certificate)
    case _ => true
  }

  predicate Fitting(kind: Kind, body: Body) {
    (body.Binding? ==> kind == ClusterRoleBindings) && (body.Workload? ==> kind == Deployments)
  }

  /** What a pass has collected are the names of the objects that are found. */
  ghost predicate Collected(s: State, p: Proc, cp: ControlPlane) {
    match p.pc
    case ListKind(kind) =>
      && (kind != ServiceAccounts ==> FoundAs(s, ServiceAccounts, cp, p.names.account))
      && (kind == ClusterRoleBindings ==> FoundAs(s, ClusterRoles, cp, p.names.role))
      && (kind == Deployments ==> FoundAs(s, Secrets, cp, p.names.certificate))
    case GetAuthority(secret) => secret.body == Plain
    case CreateOwned(kind, o) => LeadsTo(s, o.body, cp) && Fitting(kind, o.body)
    case _ => true
  }

  // ---------------------------------------------------------------------------
  // Steps
  // ---------------------------------------------------------------------------

  lemma OwnedAlike(s: State, kind: Kind, a: ControlPlane, b: ControlPlane)
    requires a.meta.uid == b.meta.uid && a.meta.namespace == b.meta.namespace
    ensures Owned(s, kind, a) == Owned(s, kind, b)
  {
  }

  lemma AfterListCollected(cfg: Config, s: State, p: Proc, kind: Kind, now: int, cp: ControlPlane)
    requires p.pc == ListKind(kind) && Like(p.cp, cp) && Collected(s, p, cp)
    ensures var next := AfterList(cfg, s, p, kind, Owned(s, kind, p.cp), now);
            Collected(s, next, cp) && IsLive(next.pc) && (!next.pc.Done? ==> Like(next.cp, cp))
  {
    hide ObjectNeedsRepair, RepairedObject, Owned, GeneratedMeta, WithProvisioned;
    OwnedAlike(s, kind, p.cp, cp);
  }

  lemma AfterServiceTracks(s: State, p: Proc, service: string, now: int, cp: ControlPlane)
    requires Like(p.cp, cp)
    ensures var next := AfterService(p, service, now); Like(next.cp, cp) && IsLive(next.pc) && Collected(s, next, cp)
  {
    hide Defaulted, DefaultsHold, Followed, Follows, WithDataPlaneStatus;
  }

  lemma AfterGetTracks(s: State, p: Proc, stored: ControlPlane, now: int, cp: ControlPlane)
    requires Like(stored, cp) && stored.meta.deletion.None?
    ensures var next := AfterGet(p, stored, now);
            (next.pc.Done? || Like(next.cp, cp)) && IsLive(next.pc) && Collected(s, next, cp)
  {
    hide AfterService;
    AfterServiceTracks(s, p.(cp := stored.(conditions := WithReadyReset(stored.conditions, now))), "", now, cp);
  }

  lemma ReadTracks(cfg: Config, key: Key, s: State, p: Proc, now: int, cp: ControlPlane)
    requires Tracks(s, key, p, cp) && Collected(s, p, cp)
    ensures Tracks(s, key, ReadStep(cfg, key, s, p, now), cp) && Collected(s, ReadStep(cfg, key, s, p, now), cp)
  {
    hide AfterService, AfterGet, AfterList, Owned, FoundAs;
    match p.pc
    case GetControlPlane =>
      if key in s.controlPlanes {
        AfterGetTracks(s, p, s.controlPlanes[key], now, cp);
      }
    case ListServices(uid) =>
      var services := ListOwned(s, Services, Some(p.cp.meta.namespace), DATA_PLANE_VALUE, uid);
      if |services| == 1 {
        AfterServiceTracks(s, p, services[0].name, now, cp);
      }
    case ListKind(kind) => AfterListCollected(cfg, s, p, kind, now, cp);
    case _ =>
  }

  lemma EnvironmentTracks(s: State, p: Proc, reply: ControlPlane, now: int, cp: ControlPlane)
    requires Like(reply, cp)
    ensures var next := AfterEnvironment(p, reply, now);
            Like(next.cp, cp) && IsLive(next.pc) && Collected(s, next, cp)
  {
    hide WithDataPlaneStatus;
  }

  lemma StepTracks(cfg: Config, key: Key, w: World, ch: Choice, cp: ControlPlane)
    requires Tracks(w.state, key, w.proc, cp) && Collected(w.state, w.proc, cp)
    ensures var w' := Step(cfg, key, w, ch); Tracks(w'.state, key, w'.proc, cp) && Collected(w'.state, w'.proc, cp)
  {
    hide ReadStep, AfterEnvironment, NeedsUpdate, LeadsTo, FoundAs, Without;
    match w.proc.pc
    case PutEnvironment =>
      var reply := UpdateControlPlane(w.state, key, w.proc.cp);
      if reply.Accepted? {
        EnvironmentTracks(Landed(w.state, reply, ch.fault), w.proc, reply.value, ch.now, cp);
      }
    case PutControlPlane(_) =>
    case GetStatus(_) =>
    case PutStatus(_) =>
    case CreateOwned(_, _) =>
    case UpdateOwned(_, _) =>
    case Done(_) =>
    case _ => ReadTracks(cfg, key, w.state, w.proc, ch.now, cp);
  }

  lemma LeadsOnObjects(s: State, s': State, body: Body, cp: ControlPlane)
    requires s'.objects == s.objects
    ensures LeadsTo(s', body, cp) <==> LeadsTo(s, body, cp)
  {
    SameItemsAndLabels(s, s', ServiceAccounts, cp);
    SameItemsAndLabels(s, s', ClusterRoles, cp);
    SameItemsAndLabels(s, s', Secrets, cp);
  }

  /** New objects name objects that are found. */
  ghost predicate NewLead(s: State, s': State, cp: ControlPlane) {
    forall r | r in s'.objects && r !in s.objects :: LeadsTo(s', s'.objects[r].body, cp)
  }

  predicate Ending(pc: Pc) {
    pc.GetStatus? || pc.PutStatus? || pc.Done?
  }

  /** A new object of one kind moves nothing on the lists of others. */
  lemma LeadsPastKind(s: State, s': State, kind: Kind, body: Body, cp: ControlPlane)
    requires OnlyKindMoved(s, s', kind) && Fitting(kind, body) && LeadsTo(s, body, cp)
    ensures LeadsTo(s', body, cp)
  {
    forall other | other in {ServiceAccounts, ClusterRoles, Secrets} && other != kind
      ensures Owned(s', other, cp) == Owned(s, other, cp)
    {
      ListIgnoresOtherKinds(s, s', kind, other, Scope(other, cp.meta.namespace), CONTROL_PLANE_VALUE, cp.meta.uid);
    }
  }

  lemma CreateLeads(w: World, ch: Choice, cp: ControlPlane)
    requires w.proc.pc.CreateOwned? && Collected(w.state, w.proc, cp)
    ensures NewLead(w.state, CreateStep(w, ch).state, cp) && Ending(CreateStep(w, ch).proc.pc)
    ensures w.state.objects.Keys <= CreateStep(w, ch).state.objects.Keys
  {
    hide LeadsTo, Fitting;
    var s', kind := CreateStep(w, ch).state, w.proc.pc.newKind;
    if s' != w.state {
      assert OnlyKindMoved(w.state, s', kind);
      LeadsPastKind(w.state, s', kind, w.proc.pc.created.body, cp);
    }
  }

  lemma NoneNew(s: State, s': State, cp: ControlPlane)
    requires s'.objects.Keys <= s.objects.Keys
    ensures NewLead(s, s', cp)
  {
  }

  lemma UpdateMakesNothing(w: World, ch: Choice)
    requires w.proc.pc.UpdateOwned?
    ensures UpdateStep(w, ch).state.objects.Keys == w.state.objects.Keys && Ending(UpdateStep(w, ch).proc.pc)
  {
  }

  lemma StepLeads(cfg: Config, key: Key, w: World, ch: Choice, cp: ControlPlane)
    requires IsLive(w.proc.pc) && Collected(w.state, w.proc, cp)
    ensures var w' := Step(cfg, key, w, ch);
            && NewLead(w.state, w'.state, cp) && w.state.objects.Keys <= w'.state.objects.Keys
            && (w'.state.objects == w.state.objects || Ending(w'.proc.pc))
            && (Ending(w.proc.pc) ==> w'.state.objects == w.state.objects && Ending(w'.proc.pc))
            && (w.proc.pc.GetControlPlane? ==> w'.state == w.state)
  {
    hide ReadStep, AfterEnvironment, NeedsUpdate, NewLead, UpdateControlPlane, Cluster.UpdateStatus, CreateStep;
    hide UpdateStep, Collected;
    var w' := Step(cfg, key, w, ch);
    ControlPlaneOwnership.ControlPlaneWrites(key, w, ch);
    if w.proc.pc.CreateOwned? {
      CreateLeads(w, ch, cp);
    } else {
      if w.proc.pc.UpdateOwned? {
        UpdateMakesNothing(w, ch);
      }
      NoneNew(w.state, w'.state, cp);
    }
  }

  // ---------------------------------------------------------------------------
  // Passes
  // ---------------------------------------------------------------------------

  /** What a pass, or several, do to the objects of a ControlPlane. */
  ghost predicate Carried(cfg: Config, s: State, s': State, cp: ControlPlane) {
    s.objects.Keys <= s'.objects.Keys && Rolls(cfg, s, s', cp) && NewLead(s, s', cp)
  }

  lemma {:induction false} EndingMovesNothing(cfg: Config, key: Key, w: World, ch: Choice, cp: ControlPlane)
    requires Ending(w.proc.pc)
    ensures Finish(cfg, key, w, ch).state.objects == w.state.objects
    decreases Rank(w.proc.pc), Todo(w.proc.pc)
  {
    hide Step, NewLead;
    if !w.proc.pc.Done? {
      StepMovesOn(cfg, key, w, ch);
      StepLeads(cfg, key, w, ch, cp);
      EndingMovesNothing(cfg, key, Step(cfg, key, w, ch), ch, cp);
    }
  }

  lemma CarriedOn(cfg: Config, s: State, s1: State, s': State, cp: ControlPlane)
    requires Carried(cfg, s, s1, cp) && s'.objects == s1.objects
    ensures Carried(cfg, s, s', cp)
  {
    hide Kept, AsAsked, LeadsTo;
    forall r | r in s1.objects {
      LeadsOnObjects(s1, s', s1.objects[r].body, cp);
    }
  }

  lemma CarriedBack(cfg: Config, s: State, s1: State, s': State, cp: ControlPlane)
    requires s1.objects == s.objects && Carried(cfg, s1, s', cp)
    ensures Carried(cfg, s, s', cp)
  {
    hide Kept, AsAsked, LeadsTo;
  }

  lemma RollsAlike(cfg: Config, s: State, s': State, a: ControlPlane, b: ControlPlane)
    requires Like(a, b) && Rolls(cfg, s, s', a)
    ensures Rolls(cfg, s, s', b)
  {
    hide ImageOf, WiresOf, Found;
  }

  lemma {:induction false} FinishCarries(cfg: Config, key: Key, w: World, ch: Choice, cp: ControlPlane)
    requires Careful(cfg, w.state, w.proc) && Tracks(w.state, key, w.proc, cp) && Collected(w.state, w.proc, cp)
    ensures Carried(cfg, w.state, Finish(cfg, key, w, ch).state, cp)
    decreases Rank(w.proc.pc), Todo(w.proc.pc)
  {
    hide Step, NewLead, Rolls, Careful, Collected, Like;
    var w1, s' := Step(cfg, key, w, ch), Finish(cfg, key, w, ch).state;
    if w.proc.pc.Done? {
      NothingCarried(cfg, w.state, cp);
    } else {
      StepMovesOn(cfg, key, w, ch);
      StepRolls(cfg, key, w, ch);
      StepTracks(cfg, key, w, ch, cp);
      StepLeads(cfg, key, w, ch, cp);
      if w1.state.objects == w.state.objects {
        FinishCarries(cfg, key, w1, ch, cp);
        CarriedBack(cfg, w.state, w1.state, s', cp);
      } else {
        RollsAlike(cfg, w.state, w1.state, w.proc.cp, cp);
        EndingMovesNothing(cfg, key, w1, ch, cp);
        CarriedOn(cfg, w.state, w1.state, s', cp);
      }
    }
  }

  lemma NothingCarried(cfg: Config, s: State, cp: ControlPlane)
    ensures Carried(cfg, s, s, cp)
  {
    hide Rolls;
    NothingRolls(cfg, s, s, cp);
  }

  lemma PassCarries(cfg: Config, key: Key, s: State, now: int, suffix: string, cp: ControlPlane)
    requires key in s.controlPlanes && Like(s.controlPlanes[key], cp) && s.controlPlanes[key].meta.deletion.None?
    ensures Carried(cfg, s, Pass(cfg, key, s, now, suffix), cp)
  {
    hide Finish, Carried, Like;
    FinishCarries(cfg, key, World(s, Start()), Quiet(now, suffix), cp);
  }

  lemma FoundIsListed(s: State, kind: Kind, cp: ControlPlane)
    ensures forall r :: r in Owned(s, kind, cp) <==>
              && r in s.objects && r.kind == kind && Found(s.objects[r], cp.meta.uid)
              && (Scope(kind, cp.meta.namespace).Some? ==> r.namespace == cp.meta.namespace)
  {
    ListOwnedIsOwnedRefs(s, kind, Scope(kind, cp.meta.namespace), CONTROL_PLANE_VALUE, cp.meta.uid);
  }

  /** What is found stays found. */
  lemma ListedStays(cfg: Config, s: State, s': State, kind: Kind, cp: ControlPlane)
    requires s.objects.Keys <= s'.objects.Keys && Rolls(cfg, s, s', cp)
    requires |Owned(s, kind, cp)| == 1 && |Owned(s', kind, cp)| <= 1
    ensures Owned(s', kind, cp) == Owned(s, kind, cp)
  {
    hide Found, Owned, ImageOf, WiresOf, AsAsked;
    FoundIsListed(s, kind, cp);
    FoundIsListed(s', kind, cp);
    var r := Owned(s, kind, cp)[0];
    assert r in Owned(s, kind, cp) && Kept(s.objects[r], s'.objects[r], cp);
    assert r in Owned(s', kind, cp);
  }

  lemma KeptAsAsked(cfg: Config, kind: Kind, before: Object, after: Object, cp: ControlPlane)
    requires Kept(before, after, cp)
    ensures AsAsked(cfg, kind, after.body, cp) <==>
            || AsAsked(cfg, kind, before.body, cp)
            || (kind == Deployments && ImageOf(before.body) == None && ImageOf(after.body) != None)
  {
    hide ImageOf;
  }

  lemma KeptTwice(a: Object, b: Object, c: Object, cp: ControlPlane)
    requires Kept(a, b, cp) && Kept(b, c, cp)
    ensures Kept(a, c, cp)
  {
    hide ImageOf, Found;
  }

  lemma RollsCompose(cfg: Config, s: State, s1: State, s': State, cp: ControlPlane)
    requires Rolls(cfg, s, s1, cp) && Rolls(cfg, s1, s', cp)
    requires s.objects.Keys <= s1.objects.Keys <= s'.objects.Keys
    ensures Rolls(cfg, s, s', cp)
  {
    hide Kept, AsAsked;
    forall r | r in s.objects
      ensures Kept(s.objects[r], s'.objects[r], cp)
    {
      KeptTwice(s.objects[r], s1.objects[r], s'.objects[r], cp);
    }
    forall r | r in s'.objects && r !in s.objects
      ensures AsAsked(cfg, r.kind, s'.objects[r].body, cp)
    {
      if r in s1.objects {
        KeptAsAsked(cfg, r.kind, s1.objects[r], s'.objects[r], cp);
      }
    }
  }

  lemma KeptLeads(s: State, before: Object, after: Object, cp: ControlPlane)
    requires Kept(before, after, cp)
    ensures LeadsTo(s, after.body, cp) <==> LeadsTo(s, before.body, cp)
  {
    hide FoundAs, ImageOf, Found;
  }

  /** At most one object of each kind is found. */
  ghost predicate Few(s: State, cp: ControlPlane) {
    forall kind | IsStage(kind) :: |Owned(s, kind, cp)| <= 1
  }

  lemma LeadsStay(cfg: Config, s: State, s': State, body: Body, cp: ControlPlane)
    requires s.objects.Keys <= s'.objects.Keys && Rolls(cfg, s, s', cp) && LeadsTo(s, body, cp) && Few(s', cp)
    ensures LeadsTo(s', body, cp)
  {
    hide Rolls, Owned;
    forall kind | kind in {ServiceAccounts, ClusterRoles, Secrets} && |Owned(s, kind, cp)| == 1
      ensures Owned(s', kind, cp) == Owned(s, kind, cp)
    {
      assert |Owned(s', kind, cp)| <= 1;
      ListedStays(cfg, s, s', kind, cp);
    }
  }

  lemma CarriedCompose(cfg: Config, s: State, s1: State, s': State, cp: ControlPlane)
    requires Carried(cfg, s, s1, cp) && Carried(cfg, s1, s', cp) && Few(s', cp)
    ensures Carried(cfg, s, s', cp)
  {
    hide LeadsTo, Kept, AsAsked, Few;
    RollsCompose(cfg, s, s1, s', cp);
    forall r | r in s'.objects && r !in s.objects
      ensures LeadsTo(s', s'.objects[r].body, cp)
    {
      if r in s1.objects {
        LeadsStay(cfg, s1, s', s1.objects[r].body, cp);
        KeptLeads(s', s1.objects[r], s'.objects[r], cp);
      }
    }
  }

  lemma CarriedAlike(cfg: Config, s: State, s': State, a: ControlPlane, b: ControlPlane)
    requires Like(a, b) && Carried(cfg, s, s', a)
    ensures Carried(cfg, s, s', b)
  {
    hide Rolls;
    RollsAlike(cfg, s, s', a, b);
    OwnedAlike(s', ServiceAccounts, a, b);
    OwnedAlike(s', ClusterRoles, a, b);
    OwnedAlike(s', Secrets, a, b);
  }

  lemma {:induction false} PassesCarry(cfg: Config, key: Key, s: State, ticks: seq<Tick>)
    requires Steady(s, key) && Healthy(cfg, s, key) && NeverClashes(cfg, key, s, ticks)
    ensures var s' := Passes(cfg, key, s, ticks);
            Healthy(cfg, s', key) && Carried(cfg, s, s', s.controlPlanes[key])
    decreases |ticks|
  {
    hide Pass, ServiceOf, NamesFree, Healthy, Lost, Carried, Stage, Moves, Few;
    var cp := s.controlPlanes[key];
    if ticks == [] {
      NothingCarried(cfg, s, cp);
    } else {
      var s1 := Pass(cfg, key, s, ticks[0].now, ticks[0].suffix);
      var s' := Passes(cfg, key, s1, ticks[1..]);
      OnePass(cfg, key, s, ticks[0].now, ticks[0].suffix);
      PassCarries(cfg, key, s, ticks[0].now, ticks[0].suffix, cp);
      PassesCarry(cfg, key, s1, ticks[1..]);
      if Stage(cfg, s, key) != 11 {
        MovesAlike(s, s1, key);
      }
      CarriedAlike(cfg, s1, s', s1.controlPlanes[key], cp);
      PassesAdvance(cfg, key, s1, ticks[1..]);
      HealthyLists(cfg, s', key, cp);
      CarriedCompose(cfg, s, s1, s', cp);
    }
  }

  lemma MovesAlike(s: State, s': State, key: Key)
    requires Moves(s, s', key)
    ensures Like(s'.controlPlanes[key], s.controlPlanes[key])
  {
  }

  lemma HealthyLists(cfg: Config, s: State, key: Key, cp: ControlPlane)
    requires Healthy(cfg, s, key) && Like(s.controlPlanes[key], cp)
    ensures Few(s, cp)
  {
    var stored := s.controlPlanes[key];
    forall kind | IsStage(kind)
      ensures |Owned(s, kind, cp)| <= 1
    {
      assert KindHealthy(cfg, s, stored, kind);
      OwnedAlike(s, kind, stored, cp);
    }
  }

  // ---------------------------------------------------------------------------
  // The converged objects
  // ---------------------------------------------------------------------------

  lemma LastStageHasAll(cfg: Config, s: State, key: Key, kind: Kind)
    requires Steady(s, key) && Stage(cfg, s, key) == 11 && IsStage(kind)
    ensures var items := Owned(s, kind, s.controlPlanes[key]);
            && |items| == 1 && items[0] in s.objects
            && (kind == Deployments && s.objects[items[0]].body.Workload? ==>
                  ImageOf(s.objects[items[0]].body).Some?)
  {
    hide KindStage, Defaulted, ServiceOf;
    var want := Effective(s, key);
    OwnedAlike(s, kind, s.controlPlanes[key], want);
    AllKindsSettled(cfg, s, want, ServiceAccounts, kind);
    var generated := GeneratedWorkload(want, NONAMES).containers;
    assert generated[0].name == MAIN_CONTAINER;
  }

  lemma CarriedObject(cfg: Config, s: State, s': State, kind: Kind, cp: ControlPlane)
    requires Carried(cfg, s, s', cp) && |Owned(s, kind, cp)| <= 1 && |Owned(s', kind, cp)| == 1
    ensures var before, after := Owned(s, kind, cp), Owned(s', kind, cp);
            && after[0] in s'.objects
            && (if before == [] then
                  AsAsked(cfg, kind, s'.objects[after[0]].body, cp) && LeadsTo(s', s'.objects[after[0]].body, cp)
                else
                  && after == before && before[0] in s.objects
                  && Kept(s.objects[before[0]], s'.objects[before[0]], cp))
  {
    hide Owned, ImageOf, LeadsTo, WiresOf, Found, AsAsked;
    var before, after := Owned(s, kind, cp), Owned(s', kind, cp);
    FoundIsListed(s, kind, cp);
    FoundIsListed(s', kind, cp);
    assert after[0] in after;
    if before == [] {
      assert after[0] !in before;
    } else {
      ListedStays(cfg, s, s', kind, cp);
      assert before[0] in before;
    }
  }

  /** What undisturbed passes arrive at, for each kind of object. The one that was there
      stays, or else there is a new one. A Deployment runs the image that is asked for, and
      a role has the rules for it, exactly if it is new, or was so before, or, of
      Deployments, had no main container: a change of the image reaches neither. A binding
      or Deployment refers to the objects that are found exactly if it is new or its names
      were theirs already. */
  lemma ConvergedObjects(cfg: Config, key: Key, s: State, ticks: seq<Tick>, kind: Kind)
    requires Steady(s, key) && Healthy(cfg, s, key) && IsStage(kind)
    requires NeverClashes(cfg, key, s, ticks) && |ticks| >= 10
    requires cfg.secretsLabelled || Owned(s, Secrets, s.controlPlanes[key]) != []
    ensures var s', cp := Passes(cfg, key, s, ticks), s.controlPlanes[key];
            var before, after := Owned(s, kind, cp), Owned(s', kind, cp);
            && |after| == 1 && after[0] in s'.objects
            && (before != [] ==> after == before && before[0] in s.objects)
            && var body := s'.objects[after[0]].body;
               (kind == Deployments ==> body.Workload?) ==>
                 && (AsAsked(cfg, kind, body, cp) <==>
                       || before == [] || AsAsked(cfg, kind, s.objects[before[0]].body, cp)
                       || (kind == Deployments && ImageOf(s.objects[before[0]].body) == None))
                 && (LeadsTo(s', body, cp) <==> before == [] || LeadsTo(s', s.objects[before[0]].body, cp))
  {
    hide Pass, Stage, NeverClashes, Healthy, Passes, ServiceOf, Owned, ImageOf, LeadsTo, Carried, SameIntent, Kept;
    hide AsAsked, Lost;
    var s', cp := Passes(cfg, key, s, ticks), s.controlPlanes[key];
    Converges(cfg, key, s, ticks, Tick(0, ""));
    PassesCarry(cfg, key, s, ticks);
    LastStageHasAll(cfg, s', key, kind);
    KeepsAlike(s, s', key);
    OwnedAlike(s', kind, s'.controlPlanes[key], cp);
    LikeItself(cp);
    HealthyLists(cfg, s, key, cp);
    assert |Owned(s, kind, cp)| <= 1;
    CarriedObject(cfg, s, s', kind, cp);
    var before := Owned(s, kind, cp);
    if before != [] {
      KeptAsAsked(cfg, kind, s.objects[before[0]], s'.objects[before[0]], cp);
      KeptLeads(s', s.objects[before[0]], s'.objects[before[0]], cp);
    }
  }

  lemma LikeItself(cp: ControlPlane)
    ensures Like(cp, cp)
  {
  }

  lemma KeepsAlike(s: State, s': State, key: Key)
    requires Keeps(s, s', key)
    ensures Like(s'.controlPlanes[key], s.controlPlanes[key])
  {
  }
}
