/** How passes end: with success, with an error, or with a request for another pass. */
module ControlPlaneResults {
  import opened Wrappers
  import opened ControlPlaneEnv
  import opened Conditions
  import opened Metadata
  import opened Deployments
  import opened Cluster
  import opened ControlPlaneObjects
  import opened ControlPlanePass
  import opened ControlPlaneGoals
  import opened ControlPlaneStages
  import opened ControlPlaneConvergence
  import opened ControlPlaneReadiness

  // ---------------------------------------------------------------------------
  // Single calls
  // ---------------------------------------------------------------------------

  /** A deletion that is served never fails the loop, whether the object was still there or
      not; any other does, once the loop has gone through all objects. */
  lemma DeletionAnswers(cfg: Config, key: Key, s: State, p: Proc, r: Ref, rest: seq<Ref>, failed: bool, ch: Choice)
    requires p.pc == DeleteBindings([r] + rest, failed) || p.pc == DeleteRoles([r] + rest, failed)
    ensures var w' := Step(cfg, key, World(s, p), ch);
            var failed' := failed || ch.fault != Served;
            && (ch.fault != NotDelivered ==> r !in w'.state.objects)
            && (ch.fault == NotDelivered ==> w'.state == s)
            && if rest != [] then
                 w'.proc.pc ==
                 if p.pc.DeleteBindings? then DeleteBindings(rest, failed') else DeleteRoles(rest, failed')
               else (w'.proc.pc.Done? && w'.proc.pc.result.Failed?) <==> failed'
  {
    assert ([r] + rest)[0] == r && ([r] + rest)[1..] == rest;
  }

  /** A write of the ControlPlane or of its status meets an answer that depends on the stored
      revision alone. A conflict asks for another pass where a retry is wanted, and is an
      error elsewhere; every other refusal is an error everywhere. */
  lemma WriteAnswers(cfg: Config, key: Key, s: State, p: Proc, retry: bool, ch: Choice)
    requires p.pc == PutControlPlane(retry) || p.pc == PutStatus(retry) || (p.pc == PutEnvironment && retry)
    ensures var pc' := Step(cfg, key, World(s, p), ch).proc.pc;
            if ch.fault != Served then pc' == Done(Failed(Unavailable))
            else if key !in s.controlPlanes then pc' == Done(Failed(NotFound))
            else if s.controlPlanes[key].meta.revision != p.cp.meta.revision then
              pc' == Done(if retry then Requeued else Failed(Conflict))
            else pc' == if p.pc == PutEnvironment then ListKind(ServiceAccounts) else Done(Finished)
  {
    hide WithDataPlaneStatus;
  }

  /** A write of an owned object that is refused ends the pass with an error, a conflict
      included; otherwise the pass is over, but for the status without a DataPlane. */
  lemma OwnedWriteAnswers(cfg: Config, key: Key, s: State, p: Proc, r: Ref, o: Object, ch: Choice)
    requires || p.pc == UpdateOwned(r, o)
             || (p.pc == CreateOwned(r.kind, o) && r.namespace == o.meta.namespace
                 && r.name == o.meta.generateName + ch.suffix)
    ensures var pc' := Step(cfg, key, World(s, p), ch).proc.pc;
            if ch.fault != Served then pc' == Done(Failed(Unavailable))
            else if p.pc.CreateOwned? && r in s.objects then pc' == Done(Failed(AlreadyExists))
            else if p.pc.UpdateOwned? && r !in s.objects then pc' == Done(Failed(NotFound))
            else if p.pc.UpdateOwned? && s.objects[r].meta.revision != o.meta.revision then
              pc' == Done(Failed(Conflict))
            else if r.kind == Deployments && (p.cp.dataPlane == None || p.cp.dataPlane == Some("")) then
              pc' == GetStatus(false)
            else pc' == Done(Finished)
  {
  }

  /** A read that is not served ends the pass with an error, and writes nothing. */
  lemma FailedReadsEnd(cfg: Config, key: Key, s: State, p: Proc, ch: Choice)
    requires ch.fault != Served && !IsWrite(p.pc) && !p.pc.Done?
    ensures Step(cfg, key, World(s, p), ch) == World(s, p.(pc := Done(Failed(Unavailable))))
  {
  }

  /** A certificate is stored only right after the authority was read. */
  lemma AuthorityFirst(cfg: Config, key: Key, s: State, p: Proc, ch: Choice)
    requires p.pc != Step(cfg, key, World(s, p), ch).proc.pc
    requires p.pc.ListKind? ==> IsStage(p.pc.kind)
    ensures var pc' := Step(cfg, key, World(s, p), ch).proc.pc;
            pc'.CreateOwned? && pc'.newKind == Secrets ==> p.pc == GetAuthority(pc'.created) && ch.fault == Served
  {
    hide Defaulted, DefaultsHold, Followed, Follows, WithDataPlaneStatus, WithProvisioned, Owned, Without, Generated;
    hide ObjectNeedsRepair, RepairedObject, NeedsUpdate, UpdateControlPlane, UpdateStatus, DeleteObject, Find;
    hide WithFinalizers, CreateObject, UpdateObject;
  }

  /** Before its status is written a ControlPlane is read afresh; if it says the same, or the
      call fails, nothing is written, and one that is gone counts as saying nothing. */
  lemma StatusReadAnswers(cfg: Config, key: Key, s: State, p: Proc, retry: bool, ch: Choice)
    requires p.pc == GetStatus(retry) && Unique(p.cp.conditions)
    requires key in s.controlPlanes ==> Unique(s.controlPlanes[key].conditions)
    ensures var w' := Step(cfg, key, World(s, p), ch);
            var stored := if key in s.controlPlanes then s.controlPlanes[key].conditions else [];
            && w'.state == s
            && w'.proc.pc == if ch.fault != Served then Done(Failed(Unavailable))
                             else if Meaning(stored) == Meaning(p.cp.conditions) then Done(Finished)
                             else PutStatus(retry)
  {
    NeedsUpdateIsDifference(if key in s.controlPlanes then s.controlPlanes[key].conditions else [], p.cp.conditions);
  }

  /** What the list of a kind has: the objects with the operator's label and an owner
      reference to the ControlPlane, of its namespace for ServiceAccounts and Deployments,
      and of all namespaces for certificates. */
  lemma ListHas(s: State, kind: Kind, cp: ControlPlane, r: Ref)
    ensures r in Owned(s, kind, cp) <==>
            && r in s.objects && r.kind == kind
            && (kind in {ServiceAccounts, Deployments, Services} ==> r.namespace == cp.meta.namespace)
            && "apisix.apache.org/apisix-operator" in s.objects[r].meta.labels
            && s.objects[r].meta.labels["apisix.apache.org/apisix-operator"] == "controlplane"
            && exists owner | owner in s.objects[r].meta.owners :: owner.uid == cp.meta.uid
  {
    ListOwnedIsOwnedRefs(s, kind, Scope(kind, cp.meta.namespace), CONTROL_PLANE_VALUE, cp.meta.uid);
  }

  /** A retry is wanted for the environment and for the conclusion, but not for finalizers
      or for scheduling. */
  lemma WhoRetries(p: Proc, cp: ControlPlane, now: int)
    ensures var pc := AfterGet(p, cp, now).pc;
            && (pc.PutControlPlane? ==>
                  (pc.retry <==> CLEANUP_ROLE in cp.meta.finalizers && CLEANUP_BINDING in cp.meta.finalizers))
            && (pc.GetStatus? ==> !pc.retry)
    ensures var pc := AfterBindings(p).pc; pc.PutControlPlane? ==> !pc.retry
    ensures var pc := AfterRoles(p).pc; pc.PutControlPlane? ==> !pc.retry
  {
    hide Defaulted, DefaultsHold, Followed, Follows, WithDataPlaneStatus, Find, Without;
    FinalizersComplete(cp);
  }

  // ---------------------------------------------------------------------------
  // Undisturbed passes
  // ---------------------------------------------------------------------------

  /** How the stage of an unsettled kind ends. */
  ghost function KindResult(cfg: Config, s: State, cp: ControlPlane, kind: Kind, suffix: string): Result {
    if |Owned(s, kind, cp)| > 1 then Failed(TooMany)
    else if kind == ClusterRoles && cfg.roleFor(ImageVersion(cp.image)) == None then Failed(Unsupported)
    else if Owned(s, kind, cp) == [] && !NameIsFree(cfg, s, cp, kind, suffix) then Failed(AlreadyExists)
    else Finished
  }

  lemma StatusEnds(cfg: Config, key: Key, s: State, p: Proc, ch: Choice)
    requires p.pc.GetStatus? && ch.fault == Served
    requires key in s.controlPlanes && s.controlPlanes[key].meta.revision == p.cp.meta.revision
    ensures Finish(cfg, key, World(s, p), ch).proc.pc == Done(Finished)
  {
    hide Finish, NeedsUpdate;
    var w := World(s, p);
    var w1 := Step(cfg, key, w, ch);
    FinishStep(cfg, key, w, ch);
    FinishStep(cfg, key, w1, ch);
    if w1.proc.pc.PutStatus? {
      FinishStep(cfg, key, Step(cfg, key, w1, ch), ch);
    }
  }

  lemma AfterOwnedEnds(cfg: Config, key: Key, s: State, p: Proc, kind: Kind, ch: Choice)
    requires ch.fault == Served && Fits(s, key, p.cp)
    ensures Finish(cfg, key, World(s, AfterOwned(p, kind)), ch).proc.pc == Done(Finished)
  {
    hide Finish;
    FinishStep(cfg, key, World(s, AfterOwned(p, kind)), ch);
    if kind == Deployments && !DataPlaneIsSet(p.cp) {
      StatusEnds(cfg, key, s, p.(pc := GetStatus(false)), ch);
    }
  }

  lemma CreateEnds(cfg: Config, key: Key, s: State, p: Proc, kind: Kind, ch: Choice)
    requires ch.fault == Served && Fits(s, key, p.cp) && Generated(cfg, kind, p.cp, p.names).Some?
    requires p.pc == CreateOwned(kind, Generated(cfg, kind, p.cp, p.names).value)
    ensures Finish(cfg, key, World(s, p), ch).proc.pc ==
            Done(if NameIsFree(cfg, s, p.cp, kind, ch.suffix) then Finished else Failed(AlreadyExists))
  {
    hide Finish, GeneratedBody, GeneratedMeta, AfterOwned;
    var w := World(s, p);
    var w1 := Step(cfg, key, w, ch);
    FinishStep(cfg, key, w, ch);
    FinishStep(cfg, key, w1, ch);
    if NameIsFree(cfg, s, p.cp, kind, ch.suffix) {
      AfterOwnedEnds(cfg, key, w1.state, p, kind, ch);
    }
  }

  lemma UpdateEnds(cfg: Config, key: Key, s: State, p: Proc, r: Ref, o: Object, ch: Choice)
    requires ch.fault == Served && Fits(s, key, p.cp) && p.pc == UpdateOwned(r, o)
    requires r in s.objects && s.objects[r].meta.revision == o.meta.revision
    ensures Finish(cfg, key, World(s, p), ch).proc.pc == Done(Finished)
  {
    hide Finish, AfterOwned;
    var w := World(s, p);
    FinishStep(cfg, key, w, ch);
    AfterOwnedEnds(cfg, key, Step(cfg, key, w, ch).state, p, r.kind, ch);
  }

  lemma SeveralEnd(cfg: Config, key: Key, s: State, p: Proc, kind: Kind, ch: Choice)
    requires ch.fault == Served && p.pc == ListKind(kind) && |Owned(s, kind, p.cp)| > 1
    ensures Finish(cfg, key, World(s, p), ch).proc.pc == Done(Failed(TooMany))
  {
    hide Finish, Generated, ObjectNeedsRepair, RepairedObject, AfterKind, Owned;
    FinishStep(cfg, key, World(s, p), ch);
    FinishStep(cfg, key, Step(cfg, key, World(s, p), ch), ch);
  }

  lemma UnsettledEnds(cfg: Config, key: Key, s: State, p: Proc, kind: Kind, ch: Choice)
    requires IsStage(kind) && ch.fault == Served && Fits(s, key, p.cp)
    requires p.pc == ListKind(kind) && !KindSettled(cfg, s, p.cp, kind)
    ensures Finish(cfg, key, World(s, p), ch).proc.pc == Done(KindResult(cfg, s, p.cp, kind, ch.suffix))
  {
    hide Finish, GeneratedMeta, RepairedObject, ObjectNeedsRepair, AfterKind, Fits, NameIsFree;
    if |Owned(s, kind, p.cp)| > 1 {
      SeveralEnd(cfg, key, s, p, kind, ch);
      return;
    }
    var w := World(s, p);
    var w1 := Step(cfg, key, w, ch);
    FinishStep(cfg, key, w, ch);
    FinishStep(cfg, key, w1, ch);
    var items := Owned(s, kind, p.cp);
    if |items| == 1 {
      assert items[0] in items;
      ListOwnedIsOwnedRefs(s, kind, Scope(kind, p.cp.meta.namespace), CONTROL_PLANE_VALUE, p.cp.meta.uid);
      RepairIgnoresNames(cfg, s.objects[items[0]], p.cp, kind, p.names);
      RepairKeepsRevision(s.objects[items[0]], p.cp);
      if w1.proc.pc.UpdateOwned? {
        UpdateEnds(cfg, key, s, w1.proc, items[0], w1.proc.pc.updated, ch);
      }
    } else if w1.proc.pc.GetAuthority? {
      FinishStep(cfg, key, Step(cfg, key, w1, ch), ch);
      CreateEnds(cfg, key, s, Step(cfg, key, w1, ch).proc, kind, ch);
    } else if w1.proc.pc.CreateOwned? {
      CreateEnds(cfg, key, s, w1.proc, kind, ch);
    }
  }

  lemma RepairKeepsRevision(existing: Object, cp: ControlPlane)
    ensures forall generated :: RepairedObject(existing, generated, cp).meta.revision == existing.meta.revision
  {
  }

  lemma {:induction false} KindsEnd(cfg: Config, key: Key, s: State, p: Proc, kind: Kind, ch: Choice)
    requires IsStage(kind) && ch.fault == Served && Fits(s, key, p.cp) && p.pc == ListKind(kind)
    ensures var stage := KindStage(cfg, s, p.cp, kind);
            Finish(cfg, key, World(s, p), ch).proc.pc ==
            Done(if stage < 10 then KindResult(cfg, s, p.cp, KindOf(stage), ch.suffix) else Finished)
    decreases 10 - Order(kind)
  {
    hide Finish, Writes, KindSettled, KindResult, WithProvisioned;
    if !KindSettled(cfg, s, p.cp, kind) {
      UnsettledEnds(cfg, key, s, p, kind, ch);
    } else {
      var name := SettledKind(cfg, key, s, p, kind, ch);
      var next := AfterKind(p, kind, name, SettledBody(cfg, s, p.cp, kind), ch.now);
      if kind != Deployments {
        KindsEnd(cfg, key, s, next, NextKind(kind), ch);
      } else if next.pc.GetStatus? {
        StatusEnds(cfg, key, s, next, ch);
      } else {
        FinishStep(cfg, key, World(s, next), ch);
      }
    }
  }

  /** The result of the owned objects: that of the first unsettled kind. */
  ghost function LateResult(cfg: Config, s: State, cp: ControlPlane, suffix: string): Result {
    var stage := KindStage(cfg, s, cp, ServiceAccounts);
    if stage < 10 then KindResult(cfg, s, cp, KindOf(stage), suffix) else Finished
  }

  lemma LateResultAlike(cfg: Config, s: State, s': State, a: ControlPlane, b: ControlPlane, suffix: string)
    requires s'.objects == s.objects && SameWants(a, b)
    ensures LateResult(cfg, s', b, suffix) == LateResult(cfg, s, a, suffix)
  {
    hide KindStage, KindSettled;
    var kind := KindOf(KindStage(cfg, s, a, ServiceAccounts));
    KindStageSame(cfg, s, s', a, b, ServiceAccounts);
    HealthIgnoresRest(cfg, s', a, b, kind, suffix);
    SameItemsAndLabels(s, s', kind, a);
    assert Owned(s', kind, b) == Owned(s', kind, a);
  }

  lemma PutEnds(cfg: Config, key: Key, s: State, p: Proc, ch: Choice)
    requires p.pc.PutControlPlane? && ch.fault == Served
    requires key in s.controlPlanes && s.controlPlanes[key].meta.revision == p.cp.meta.revision
    ensures Finish(cfg, key, World(s, p), ch).proc.pc == Done(Finished)
  {
    hide Finish;
    FinishStep(cfg, key, World(s, p), ch);
    FinishStep(cfg, key, Step(cfg, key, World(s, p), ch), ch);
  }

  lemma EarlyEnds(cfg: Config, s: State, key: Key, ch: Choice)
    requires Steady(s, key) && Stage(cfg, s, key) < 4 && ch.fault == Served
    ensures Finish(cfg, key, World(s, Start()), ch).proc.pc == Done(Finished)
  {
    hide Finish, Writes, Defaulted, DefaultsHold, Followed, Follows, LateStage, WithReadyReset, WithScheduled;
    var cp := s.controlPlanes[key];
    var reset := WithReadyReset(cp.conditions, ch.now);
    FinalizersComplete(cp);
    ReadyResetMeaning(cp.conditions, ch.now);
    match Stage(cfg, s, key)
    case 1 =>
      GetRun(cfg, s, key, ch);
      PutEnds(cfg, key, s, AfterGet(Start(), cp, ch.now), ch);
    case 2 =>
      GetRun(cfg, s, key, ch);
      StatusEnds(cfg, key, s, AfterGet(Start(), cp, ch.now), ch);
    case _ =>
      ServiceRun(cfg, s, key, ch);
      PutEnds(cfg, key, s, AfterService(Start().(cp := cp.(conditions := reset)), ServiceOf(s, cp).value, ch.now), ch);
  }

  lemma LateEnds(cfg: Config, s: State, key: Key, ch: Choice)
    requires Steady(s, key) && Gated(s, key) && ch.fault == Served
    ensures Finish(cfg, key, World(s, Start()), ch).proc.pc ==
            Done(LateResult(cfg, s, Effective(s, key), ch.suffix))
  {
    hide Finish, Writes, Gated, KindStage, LateResult;
    var p := WorkingRun(cfg, s, key, ch);
    KindsEnd(cfg, key, s, p, ServiceAccounts, ch);
    LateResultAlike(cfg, s, s, Effective(s, key), p.cp, ch.suffix);
    assert LateResult(cfg, s, p.cp, ch.suffix) ==
           var stage := KindStage(cfg, s, p.cp, ServiceAccounts);
           if stage < 10 then KindResult(cfg, s, p.cp, KindOf(stage), ch.suffix) else Finished by {
      LateResultIs(cfg, s, p.cp, ch.suffix);
    }
  }

  lemma LateResultIs(cfg: Config, s: State, cp: ControlPlane, suffix: string)
    ensures LateResult(cfg, s, cp, suffix) ==
            var stage := KindStage(cfg, s, cp, ServiceAccounts);
            if stage < 10 then KindResult(cfg, s, cp, KindOf(stage), suffix) else Finished
  {
  }

  /** After the entries of a DataPlane are removed the pass ends as the owned objects do. */
  lemma DetachedEnds(cfg: Config, s: State, key: Key, ch: Choice)
    requires Steady(s, key) && Stage(cfg, s, key) == 4 && ch.fault == Served
    ensures !DataPlaneIsSet(s.controlPlanes[key])
    ensures Finish(cfg, key, World(s, Start()), ch).proc.pc ==
            Done(LateResult(cfg, s, Detached(s.controlPlanes[key]), ch.suffix))
  {
    hide Finish, Writes, Followed, Defaulted, DefaultsHold, WithReadyReset, LateStage, KindStage, WithDataPlaneStatus;
    hide Gated, Moves, Meaning, ConcludedMeaning, KindResult;
    var stored := s.controlPlanes[key];
    if DataPlaneIsSet(stored) {
      WritersAgreeWhenSet(stored.env, stored.meta.namespace, ServiceOf(s, stored).value, {});
      assert false;
    }
    ServiceRun(cfg, s, key, ch);
    var p := Start().(cp := Detached(stored).(conditions := WithReadyReset(stored.conditions, ch.now)),
                      pc := PutEnvironment);
    DetachedStored(cfg, s, key, p.cp);
    FinishStep(cfg, key, World(s, p), ch);
    var reply := UpdateControlPlane(s, key, p.cp);
    MarkedMeaning(reply.value.conditions, false, ch.now);
    var q := AfterEnvironment(p, reply.value, ch.now);
    KindsEnd(cfg, key, reply.state, q, ServiceAccounts, ch);
    LateResultAlike(cfg, s, reply.state, Detached(stored), q.cp, ch.suffix);
  }

  /** An undisturbed pass of a live ControlPlane ends well, except that the first owned kind
      that is not as wanted ends it with an error if it has several objects, no rules, or a
      name that is taken. */
  lemma PassEnds(cfg: Config, s: State, key: Key, now: int, suffix: string)
    requires Steady(s, key)
    ensures var cp := s.controlPlanes[key];
            var want := if Stage(cfg, s, key) == 4 then Detached(cp) else Effective(s, key);
            Finish(cfg, key, World(s, Start()), Quiet(now, suffix)).proc.pc ==
            Done(if Stage(cfg, s, key) < 4 then Finished else LateResult(cfg, s, want, suffix))
  {
    hide Finish, Gated, LateStage, LateResult, Effective, Detached;
    var ch := Quiet(now, suffix);
    if Stage(cfg, s, key) < 4 {
      EarlyEnds(cfg, s, key, ch);
    } else if Stage(cfg, s, key) == 4 {
      DetachedEnds(cfg, s, key, ch);
    } else {
      LateEnds(cfg, s, key, ch);
    }
  }

  /** The DataPlane exists and owns several Services. */
  ghost predicate SeveralServices(s: State, dataPlane: Key) {
    && dataPlane in s.dataPlanes
    && |ListOwned(s, Services, Some(dataPlane.namespace), "dataplane", s.dataPlanes[dataPlane])| > 1
  }

  /** Where the DataPlane or its one Service cannot be found, the pass says which is amiss,
      and within the grace period of a deletion it asks for another pass. */
  lemma OtherwiseEnds(cfg: Config, s: State, key: Key, now: int, suffix: string)
    ensures var result := Finish(cfg, key, World(s, Start()), Quiet(now, suffix)).proc.pc;
            && (key !in s.controlPlanes ==> result == Done(Finished))
            && (key in s.controlPlanes ==>
                  var cp := s.controlPlanes[key];
                  && (cp.meta.deletion.Some? && cp.meta.deletion.value > now ==> result == Done(Requeued))
                  && (cp.meta.deletion.None? && FinalizersStored(cp) && Find(cp.conditions, "Provisioned").Some?
                      && ServiceOf(s, cp) == None ==>
                        var dataPlane := Key(cp.meta.namespace, cp.dataPlane.value);
                        result == Done(Failed(if SeveralServices(s, dataPlane) then TooMany else NotFound))))
  {
    hide Finish, Writes, AfterService, WithFinalizers, AfterFinalizers;
    var ch := Quiet(now, suffix);
    var w := World(s, Start());
    FinishStep(cfg, key, w, ch);
    if key !in s.controlPlanes {
      FinishStep(cfg, key, Step(cfg, key, w, ch), ch);
    } else {
      var cp := s.controlPlanes[key];
      if cp.meta.deletion.Some? && cp.meta.deletion.value > now {
        FinishStep(cfg, key, Step(cfg, key, w, ch), ch);
      } else if cp.meta.deletion.None? && FinalizersStored(cp) && Find(cp.conditions, PROVISIONED).Some?
                && ServiceOf(s, cp) == None {
        UnexposedEnds(cfg, s, key, ch);
      }
    }
  }

  lemma UnexposedEnds(cfg: Config, s: State, key: Key, ch: Choice)
    requires key in s.controlPlanes && s.controlPlanes[key].meta.deletion.None? && ch.fault == Served
    requires FinalizersStored(s.controlPlanes[key]) && Find(s.controlPlanes[key].conditions, PROVISIONED).Some?
    requires ServiceOf(s, s.controlPlanes[key]).None?
    ensures var cp := s.controlPlanes[key];
            var dataPlane := Key(cp.meta.namespace, cp.dataPlane.value);
            Finish(cfg, key, World(s, Start()), ch).proc.pc ==
            Done(Failed(if SeveralServices(s, dataPlane) then TooMany else NotFound))
  {
    hide Finish, Writes, AfterService, WithFinalizers;
    var cp := s.controlPlanes[key];
    var reset := WithReadyReset(cp.conditions, ch.now);
    GetRun(cfg, s, key, ch);
    FinalizersComplete(cp);
    PutFinds(cp.conditions, NotReadyYet(ch.now), PROVISIONED);
    var w := World(s, Start().(cp := cp.(conditions := reset), pc := GetDataPlane));
    FinishStep(cfg, key, w, ch);
    var w1 := Step(cfg, key, w, ch);
    FinishStep(cfg, key, w1, ch);
    if w1.proc.pc.ListServices? {
      FinishStep(cfg, key, Step(cfg, key, w1, ch), ch);
    }
  }
}
