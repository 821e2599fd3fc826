/** What undisturbed passes do with a ControlPlane under deletion: two of them
    clean up its cluster-wide objects and give up the operator's finalizers. */
module ControlPlaneDeletion {
  import opened Wrappers
  import opened Metadata
  import opened Cluster
  import opened ControlPlaneObjects
  import opened ControlPlanePass
  import opened ControlPlaneRuns
  import opened ControlPlaneGoals
  import opened ControlPlaneStages
  import opened ControlPlaneConvergence

  // ---------------------------------------------------------------------------
  // The deletion loops
  // ---------------------------------------------------------------------------

  /** The state after deleting the objects in turn; absent ones are skipped. */
  function Deleted(s: State, todo: seq<Ref>): State
    decreases |todo|
  {
    if todo == [] then s else Deleted(Landed(s, DeleteObject(s, todo[0]), Served), todo[1..])
  }

  lemma {:induction false} DeletedRemoves(s: State, todo: seq<Ref>)
    ensures Deleted(s, todo).controlPlanes == s.controlPlanes && Deleted(s, todo).dataPlanes == s.dataPlanes
    ensures forall r :: r in Deleted(s, todo).objects <==> r in s.objects && r !in todo
    ensures forall r | r in Deleted(s, todo).objects :: Deleted(s, todo).objects[r] == s.objects[r]
    decreases |todo|
  {
    if todo == [] {
    } else {
      DeletedRemoves(Landed(s, DeleteObject(s, todo[0]), Served), todo[1..]);
      assert todo == [todo[0]] + todo[1..];
    }
  }

  lemma {:induction false} BindingsRun(cfg: Config, key: Key, s: State, p: Proc, todo: seq<Ref>, ch: Choice)
    requires ch.fault == Served
    ensures Finish(cfg, key, World(s, BindingsLeft(p, todo, false)), ch) ==
            Finish(cfg, key, World(Deleted(s, todo), AfterBindings(p)), ch)
    decreases |todo|
  {
    hide Finish, Writes, AfterBindings;
    if todo == [] {
    } else {
      FinishStep(cfg, key, World(s, BindingsLeft(p, todo, false)), ch);
      var q := p.(pc := DeleteBindings(todo, false));
      BindingsIgnorePc(p, q, todo[1..]);
      BindingsRun(cfg, key, Landed(s, DeleteObject(s, todo[0]), Served), p, todo[1..], ch);
    }
  }

  lemma BindingsIgnorePc(p: Proc, q: Proc, todo: seq<Ref>)
    requires p.cp == q.cp && p.names == q.names
    ensures BindingsLeft(p, todo, false) == BindingsLeft(q, todo, false)
  {
    hide Without;
  }

  lemma {:induction false} RolesRun(cfg: Config, key: Key, s: State, p: Proc, todo: seq<Ref>, ch: Choice)
    requires ch.fault == Served
    ensures Finish(cfg, key, World(s, RolesLeft(p, todo, false)), ch) ==
            Finish(cfg, key, World(Deleted(s, todo), AfterRoles(p)), ch)
    decreases |todo|
  {
    hide Finish, Writes, AfterRoles;
    if todo == [] {
    } else {
      FinishStep(cfg, key, World(s, RolesLeft(p, todo, false)), ch);
      var q := p.(pc := DeleteRoles(todo, false));
      RolesIgnorePc(p, q, todo[1..]);
      RolesRun(cfg, key, Landed(s, DeleteObject(s, todo[0]), Served), p, todo[1..], ch);
    }
  }

  lemma RolesIgnorePc(p: Proc, q: Proc, todo: seq<Ref>)
    requires p.cp == q.cp && p.names == q.names
    ensures RolesLeft(p, todo, false) == RolesLeft(q, todo, false)
  {
    hide Without;
  }

  // ---------------------------------------------------------------------------
  // One pass
  // ---------------------------------------------------------------------------

  /** The state without the owned objects of a kind. */
  ghost function Swept(s: State, kind: Kind, cp: ControlPlane): State {
    Deleted(s, Owned(s, kind, cp))
  }

  lemma SweptLeavesNone(s: State, kind: Kind, cp: ControlPlane)
    ensures Owned(Swept(s, kind, cp), kind, cp) == [] && OnlyKindMoved(s, Swept(s, kind, cp), kind)
    ensures Swept(s, kind, cp).controlPlanes == s.controlPlanes
    ensures forall r :: r in Swept(s, kind, cp).objects <==> r in s.objects && r !in Owned(s, kind, cp)
    ensures forall r | r in Swept(s, kind, cp).objects :: Swept(s, kind, cp).objects[r] == s.objects[r]
    ensures Owned(s, kind, cp) == [] ==> Swept(s, kind, cp) == s
  {
    var s' := Swept(s, kind, cp);
    var scope, uid := Scope(kind, cp.meta.namespace), cp.meta.uid;
    DeletedRemoves(s, Owned(s, kind, cp));
    ListOwnedIsOwnedRefs(s, kind, scope, CONTROL_PLANE_VALUE, uid);
    ListOwnedIsOwnedRefs(s', kind, scope, CONTROL_PLANE_VALUE, uid);
    assert forall r | r in OwnedRefs(s', kind, scope, CONTROL_PLANE_VALUE, uid) ::
             r in OwnedRefs(s, kind, scope, CONTROL_PLANE_VALUE, uid);
    assert OwnedRefs(s', kind, scope, CONTROL_PLANE_VALUE, uid) == {};
  }

  function GivesUp(cp: ControlPlane, finalizer: string): ControlPlane {
    cp.(meta := cp.meta.(finalizers := Without(cp.meta.finalizers, finalizer)))
  }

  /** The write that drops a finalizer, if it was there. */
  function Dropped(s: State, key: Key, finalizer: string): State
    requires key in s.controlPlanes
  {
    var cp := s.controlPlanes[key];
    if finalizer in cp.meta.finalizers then Landed(s, UpdateControlPlane(s, key, GivesUp(cp, finalizer)), Served) else s
  }

  /** A pass past the grace period: bindings first; roles only once the finalizer
      for the bindings is gone. */
  ghost function DeletionPass(s: State, key: Key): State
    requires key in s.controlPlanes
  {
    var cp := s.controlPlanes[key];
    var s1 := Swept(s, ClusterRoleBindings, cp);
    SweptLeavesNone(s, ClusterRoleBindings, cp);
    if CLEANUP_BINDING in cp.meta.finalizers then Dropped(s1, key, CLEANUP_BINDING)
    else
      SweptLeavesNone(s1, ClusterRoles, cp);
      Dropped(Swept(s1, ClusterRoles, cp), key, CLEANUP_ROLE)
  }

  lemma RolesPart(cfg: Config, s: State, key: Key, p: Proc, ch: Choice)
    requires key in s.controlPlanes && p.cp == s.controlPlanes[key] && p.pc == ListRoles && ch.fault == Served
    ensures Swept(s, ClusterRoles, p.cp).controlPlanes == s.controlPlanes
    ensures Finish(cfg, key, World(s, p), ch).state == Dropped(Swept(s, ClusterRoles, p.cp), key, CLEANUP_ROLE)
  {
    hide Finish, Writes, RolesLeft, UpdateControlPlane, Deleted, Without, Owned;
    SweptLeavesNone(s, ClusterRoles, p.cp);
    var s1 := Swept(s, ClusterRoles, p.cp);
    FinishStep(cfg, key, World(s, p), ch);
    RolesRun(cfg, key, s, p, Owned(s, ClusterRoles, p.cp), ch);
    WithoutRemovesOne(p.cp.meta.finalizers, CLEANUP_ROLE);
    FinishStep(cfg, key, World(s1, AfterRoles(p)), ch);
    if CLEANUP_ROLE in p.cp.meta.finalizers {
      PutRun(cfg, s1, key, AfterRoles(p), ch);
    }
  }

  lemma BindingsPart(cfg: Config, s: State, key: Key, p: Proc, ch: Choice)
    requires key in s.controlPlanes && p.cp == s.controlPlanes[key] && p.pc == ListBindings && ch.fault == Served
    ensures Finish(cfg, key, World(s, p), ch).state == DeletionPass(s, key)
  {
    hide Finish, Writes, BindingsLeft, UpdateControlPlane, Deleted, Without, Owned;
    SweptLeavesNone(s, ClusterRoleBindings, p.cp);
    var s1 := Swept(s, ClusterRoleBindings, p.cp);
    FinishStep(cfg, key, World(s, p), ch);
    BindingsRun(cfg, key, s, p, Owned(s, ClusterRoleBindings, p.cp), ch);
    WithoutRemovesOne(p.cp.meta.finalizers, CLEANUP_BINDING);
    if CLEANUP_BINDING in p.cp.meta.finalizers {
      PutRun(cfg, s1, key, AfterBindings(p), ch);
    } else {
      RolesPart(cfg, s1, key, AfterBindings(p), ch);
    }
  }

  /** A pass before the end of the grace period writes nothing, and one after it is
      a deletion pass. */
  lemma PassUnderDeletion(cfg: Config, s: State, key: Key, now: int, suffix: string)
    requires key in s.controlPlanes && s.controlPlanes[key].meta.deletion.Some?
    ensures Pass(cfg, key, s, now, suffix) ==
            if s.controlPlanes[key].meta.deletion.value > now then s else DeletionPass(s, key)
  {
    hide Finish, Writes, DeletionPass, AfterFinalizers;
    var ch, cp := Quiet(now, suffix), s.controlPlanes[key];
    GetRun(cfg, s, key, ch);
    var w := World(s, AfterGet(Start(), cp, now));
    FinishStep(cfg, key, w, ch);
    if cp.meta.deletion.value <= now {
      BindingsPart(cfg, s, key, w.proc, ch);
    }
  }

  /** A pass for a key that is gone writes nothing. */
  lemma PassOnNothing(cfg: Config, s: State, key: Key, now: int, suffix: string)
    requires key !in s.controlPlanes
    ensures Pass(cfg, key, s, now, suffix) == s
  {
    hide Finish, Writes;
    var w := World(s, Start());
    FinishStep(cfg, key, w, Quiet(now, suffix));
    FinishStep(cfg, key, Step(cfg, key, w, Quiet(now, suffix)), Quiet(now, suffix));
  }

  // ---------------------------------------------------------------------------
  // Two passes
  // ---------------------------------------------------------------------------

  /** Exactly the objects in `gone` went, and the finalizers of the ControlPlane are
      these; it is no longer stored if there are none. */
  ghost predicate Cleaned(s: State, s': State, key: Key, gone: set<Ref>, finalizers: seq<string>) {
    && key in s.controlPlanes && s'.dataPlanes == s.dataPlanes
    && s'.objects == s.objects - gone
    && s'.controlPlanes - {key} == s.controlPlanes - {key}
    && (key in s'.controlPlanes <==> finalizers != [])
    && (key in s'.controlPlanes ==>
          var cp, cp' := s.controlPlanes[key], s'.controlPlanes[key];
          cp' == cp.(meta := cp.meta.(finalizers := finalizers, revision := cp'.meta.revision)))
  }

  ghost function OwnedSet(s: State, kind: Kind, cp: ControlPlane): set<Ref> {
    OwnedRefs(s, kind, Scope(kind, cp.meta.namespace), CONTROL_PLANE_VALUE, cp.meta.uid)
  }

  lemma SweptCleans(s: State, key: Key, kind: Kind, cp: ControlPlane)
    requires key in s.controlPlanes && s.controlPlanes[key].meta.finalizers != []
    ensures Cleaned(s, Swept(s, kind, cp), key, OwnedSet(s, kind, cp), s.controlPlanes[key].meta.finalizers)
    ensures OwnedSet(Swept(s, kind, cp), kind, cp) == {}
    ensures OwnedSet(s, kind, cp) == {} <==> Owned(s, kind, cp) == []
    ensures Owned(s, kind, cp) == [] ==> Swept(s, kind, cp) == s
  {
    SweptLeavesNone(s, kind, cp);
    DeletedRemoves(s, Owned(s, kind, cp));
    ListOwnedIsOwnedRefs(s, kind, Scope(kind, cp.meta.namespace), CONTROL_PLANE_VALUE, cp.meta.uid);
    ListOwnedIsOwnedRefs(Swept(s, kind, cp), kind, Scope(kind, cp.meta.namespace), CONTROL_PLANE_VALUE, cp.meta.uid);
    assert Swept(s, kind, cp).objects == s.objects - OwnedSet(s, kind, cp);
  }

  lemma DroppedCleans(s: State, key: Key, finalizer: string)
    requires key in s.controlPlanes && s.controlPlanes[key].meta.finalizers != []
    requires s.controlPlanes[key].meta.deletion.Some?
    ensures Cleaned(s, Dropped(s, key, finalizer), key, {}, Without(s.controlPlanes[key].meta.finalizers, finalizer))
    ensures finalizer !in s.controlPlanes[key].meta.finalizers ==> Dropped(s, key, finalizer) == s
  {
    WithoutRemovesOne(s.controlPlanes[key].meta.finalizers, finalizer);
    assert s.objects - {} == s.objects;
  }

  lemma CleanedComposes(s: State, s1: State, s': State, key: Key, gone: set<Ref>, more: set<Ref>,
                        middle: seq<string>, finalizers: seq<string>)
    requires Cleaned(s, s1, key, gone, middle) && Cleaned(s1, s', key, more, finalizers)
    ensures Cleaned(s, s', key, gone + more, finalizers)
  {
    assert s.objects - (gone + more) == (s.objects - gone) - more;
  }

  /** Other kinds, and what is owned of them, are left alone by a clean-up. */
  lemma CleanedKeepsOwned(s: State, s': State, key: Key, gone: set<Ref>, finalizers: seq<string>, kind: Kind,
                          cp: ControlPlane, cp': ControlPlane)
    requires Cleaned(s, s', key, gone, finalizers) && forall r | r in gone :: r.kind != kind
    requires cp'.meta.uid == cp.meta.uid && cp'.meta.namespace == cp.meta.namespace
    ensures OwnedSet(s', kind, cp') == OwnedSet(s, kind, cp)
  {
  }

  lemma FirstPass(s: State, key: Key)
    requires key in s.controlPlanes && s.controlPlanes[key].meta.deletion.Some?
    requires CLEANUP_BINDING in s.controlPlanes[key].meta.finalizers
    ensures var cp := s.controlPlanes[key];
            var bindings := OwnedSet(s, ClusterRoleBindings, cp);
            && Cleaned(s, DeletionPass(s, key), key, bindings,
                       Without(cp.meta.finalizers, "apisix-operator.apisix.apache.org/cleanup-clusterrolebinding"))
            && OwnedSet(DeletionPass(s, key), ClusterRoleBindings, cp) == {}
            && OwnedSet(DeletionPass(s, key), ClusterRoles, cp) == OwnedSet(s, ClusterRoles, cp)
  {
    hide Swept, Dropped, Owned, Without, OwnedSet;
    var cp := s.controlPlanes[key];
    var fs, gone := cp.meta.finalizers, OwnedSet(s, ClusterRoleBindings, cp);
    var s1 := Swept(s, ClusterRoleBindings, cp);
    SweptCleans(s, key, ClusterRoleBindings, cp);
    SweptLeavesNone(s, ClusterRoleBindings, cp);
    DroppedCleans(s1, key, CLEANUP_BINDING);
    var s2, left := Dropped(s1, key, CLEANUP_BINDING), Without(fs, CLEANUP_BINDING);
    CleanedComposes(s, s1, s2, key, gone, {}, fs, left);
    assert gone + {} == gone;
    CleanedKeepsOwned(s1, s2, key, {}, left, ClusterRoleBindings, cp, cp);
    OwnedSetKind(s, ClusterRoleBindings, cp);
    CleanedKeepsOwned(s, s2, key, gone, left, ClusterRoles, cp, cp);
  }

  lemma OwnedSetKind(s: State, kind: Kind, cp: ControlPlane)
    ensures forall r | r in OwnedSet(s, kind, cp) :: r.kind == kind
  {
  }

  /** With the finalizer for the bindings gone, one pass finishes the clean-up. */
  lemma SecondPass(s: State, key: Key)
    requires key in s.controlPlanes && s.controlPlanes[key].meta.deletion.Some?
    requires s.controlPlanes[key].meta.finalizers != []
    requires CLEANUP_BINDING !in s.controlPlanes[key].meta.finalizers
    ensures var cp := s.controlPlanes[key];
            var gone := OwnedSet(s, ClusterRoleBindings, cp) + OwnedSet(s, ClusterRoles, cp);
            Cleaned(s, DeletionPass(s, key), key, gone,
                    Without(cp.meta.finalizers, "apisix-operator.apisix.apache.org/cleanup-clusterrole"))
    ensures var cp := s.controlPlanes[key];
            OwnedSet(s, ClusterRoleBindings, cp) + OwnedSet(s, ClusterRoles, cp) == {} ==>
              CLEANUP_ROLE !in cp.meta.finalizers ==> DeletionPass(s, key) == s
  {
    hide Swept, Dropped, Owned, Without, OwnedSet;
    var cp := s.controlPlanes[key];
    var fs, bindings, roles := cp.meta.finalizers, OwnedSet(s, ClusterRoleBindings, cp), OwnedSet(s, ClusterRoles, cp);
    var s1 := Swept(s, ClusterRoleBindings, cp);
    SweptCleans(s, key, ClusterRoleBindings, cp);
    SweptLeavesNone(s, ClusterRoleBindings, cp);
    OwnedSetKind(s, ClusterRoleBindings, cp);
    CleanedKeepsOwned(s, s1, key, bindings, fs, ClusterRoles, cp, cp);
    var s2 := Swept(s1, ClusterRoles, cp);
    SweptCleans(s1, key, ClusterRoles, cp);
    SweptLeavesNone(s1, ClusterRoles, cp);
    CleanedComposes(s, s1, s2, key, bindings, roles, fs, fs);
    DroppedCleans(s2, key, CLEANUP_ROLE);
    CleanedComposes(s, s2, Dropped(s2, key, CLEANUP_ROLE), key, bindings + roles, {}, fs, Without(fs, CLEANUP_ROLE));
    assert bindings + roles + {} == bindings + roles;
  }

  /** Past the grace period two passes delete exactly the cluster-wide objects of the
      ControlPlane and take away exactly the operator's two finalizers; all other
      finalizers stay in order, and if there are none the ControlPlane is gone. A
      third pass finds nothing to do. */
  lemma DeletionTerminates(cfg: Config, s: State, key: Key, first: Tick, second: Tick, third: Tick)
    requires key in s.controlPlanes && s.controlPlanes[key].meta.finalizers != []
    requires var deletion := s.controlPlanes[key].meta.deletion;
             deletion.Some? && deletion.value <= first.now && deletion.value <= second.now
    requires Owned(s, ClusterRoles, s.controlPlanes[key]) != [] ==> CLEANUP_ROLE in s.controlPlanes[key].meta.finalizers
    ensures var s' := Passes(cfg, key, s, [first, second]);
            var cp := s.controlPlanes[key];
            && Cleaned(s, s', key, OwnedSet(s, ClusterRoleBindings, cp) + OwnedSet(s, ClusterRoles, cp),
                       Without(Without(cp.meta.finalizers,
                                       "apisix-operator.apisix.apache.org/cleanup-clusterrolebinding"),
                               "apisix-operator.apisix.apache.org/cleanup-clusterrole"))
            && Pass(cfg, key, s', third.now, third.suffix) == s'
  {
    hide Pass, DeletionPass, OwnedSet, Without;
    var s1, s' := Pass(cfg, key, s, first.now, first.suffix), Passes(cfg, key, s, [first, second]);
    assert s' == Pass(cfg, key, s1, second.now, second.suffix) by {
      assert [first, second][1..] == [second] && [second][1..] == [];
      assert Passes(cfg, key, s1, [second]) == Pass(cfg, key, s1, second.now, second.suffix);
    }
    PassUnderDeletion(cfg, s, key, first.now, first.suffix);
    if CLEANUP_BINDING in s.controlPlanes[key].meta.finalizers {
      BindingsFirst(cfg, s, key, second, third);
    } else {
      BindingsAlready(cfg, s, key, second, third);
    }
  }

  /** After a clean-up that took everything, a pass finds nothing to do. */
  lemma NothingLeftToClean(cfg: Config, s: State, s': State, key: Key, gone: set<Ref>, finalizers: seq<string>,
                           later: Tick)
    requires Cleaned(s, s', key, gone, finalizers) && s.controlPlanes[key].meta.deletion.Some?
    requires gone ==
             OwnedSet(s, ClusterRoleBindings, s.controlPlanes[key]) + OwnedSet(s, ClusterRoles, s.controlPlanes[key])
    requires CLEANUP_BINDING !in finalizers && CLEANUP_ROLE !in finalizers
    ensures Pass(cfg, key, s', later.now, later.suffix) == s'
  {
    hide Pass, DeletionPass;
    if key in s'.controlPlanes {
      var cp' := s'.controlPlanes[key];
      assert OwnedSet(s', ClusterRoleBindings, cp') == {};
      assert OwnedSet(s', ClusterRoles, cp') == {};
      PassUnderDeletion(cfg, s', key, later.now, later.suffix);
      SecondPass(s', key);
    } else {
      PassOnNothing(cfg, s', key, later.now, later.suffix);
    }
  }

  lemma BindingsAlready(cfg: Config, s: State, key: Key, second: Tick, third: Tick)
    requires key in s.controlPlanes && s.controlPlanes[key].meta.deletion.Some?
    requires s.controlPlanes[key].meta.finalizers != []
    requires CLEANUP_BINDING !in s.controlPlanes[key].meta.finalizers
    ensures var cp := s.controlPlanes[key];
            var s1 := DeletionPass(s, key);
            && Cleaned(s, s1, key, OwnedSet(s, ClusterRoleBindings, cp) + OwnedSet(s, ClusterRoles, cp),
                       Without(Without(cp.meta.finalizers, CLEANUP_BINDING), CLEANUP_ROLE))
            && Pass(cfg, key, s1, second.now, second.suffix) == s1 && Pass(cfg, key, s1, third.now, third.suffix) == s1
  {
    hide Pass, DeletionPass, OwnedSet, Without;
    var cp, s1 := s.controlPlanes[key], DeletionPass(s, key);
    SecondPass(s, key);
    WithoutRemovesOne(cp.meta.finalizers, CLEANUP_BINDING);
    WithoutRemovesOne(cp.meta.finalizers, CLEANUP_ROLE);
    var gone := OwnedSet(s, ClusterRoleBindings, cp) + OwnedSet(s, ClusterRoles, cp);
    NothingLeftToClean(cfg, s, s1, key, gone, Without(cp.meta.finalizers, CLEANUP_ROLE), second);
    NothingLeftToClean(cfg, s, s1, key, gone, Without(cp.meta.finalizers, CLEANUP_ROLE), third);
  }

  lemma BindingsFirst(cfg: Config, s: State, key: Key, second: Tick, third: Tick)
    requires key in s.controlPlanes && s.controlPlanes[key].meta.deletion.Some?
    requires s.controlPlanes[key].meta.deletion.value <= second.now
    requires CLEANUP_BINDING in s.controlPlanes[key].meta.finalizers
    requires Owned(s, ClusterRoles, s.controlPlanes[key]) != [] ==> CLEANUP_ROLE in s.controlPlanes[key].meta.finalizers
    ensures var cp := s.controlPlanes[key];
            var s' := Pass(cfg, key, DeletionPass(s, key), second.now, second.suffix);
            && Cleaned(s, s', key, OwnedSet(s, ClusterRoleBindings, cp) + OwnedSet(s, ClusterRoles, cp),
                       Without(Without(cp.meta.finalizers, CLEANUP_BINDING), CLEANUP_ROLE))
            && Pass(cfg, key, s', third.now, third.suffix) == s'
  {
    hide Pass, DeletionPass, OwnedSet, Without, Owned;
    var cp, s1 := s.controlPlanes[key], DeletionPass(s, key);
    var bindings, roles := OwnedSet(s, ClusterRoleBindings, cp), OwnedSet(s, ClusterRoles, cp);
    var left := Without(cp.meta.finalizers, CLEANUP_BINDING);
    FirstPass(s, key);
    WithoutRemovesOne(cp.meta.finalizers, CLEANUP_BINDING);
    WithoutRemovesOne(left, CLEANUP_ROLE);
    SweptCleans(s, key, ClusterRoles, cp);
    if left != [] {
      var cp1 := s1.controlPlanes[key];
      SameOwnedSets(s1, cp, cp1);
      PassUnderDeletion(cfg, s1, key, second.now, second.suffix);
      SecondPass(s1, key);
      assert {} + roles == roles;
      CleanedComposes(s, s1, DeletionPass(s1, key), key, bindings, roles, left, Without(left, CLEANUP_ROLE));
    } else {
      CleanupNamesDiffer();
      PassOnNothing(cfg, s1, key, second.now, second.suffix);
      assert bindings + {} == bindings;
    }
    NothingLeftToClean(cfg, s, Pass(cfg, key, s1, second.now, second.suffix), key, bindings + roles,
                       Without(left, CLEANUP_ROLE), third);
  }

  lemma SameOwnedSets(s: State, a: ControlPlane, b: ControlPlane)
    requires a.meta.uid == b.meta.uid && a.meta.namespace == b.meta.namespace
    ensures OwnedSet(s, ClusterRoleBindings, a) == OwnedSet(s, ClusterRoleBindings, b)
    ensures OwnedSet(s, ClusterRoles, a) == OwnedSet(s, ClusterRoles, b)
  {
  }

  /** In every state of every run, a ControlPlane that has roles carries the finalizer
      for them, as `DeletionTerminates` asks for. */
  lemma RolesAreGuarded(cfg: Config, run: seq<System>, events: seq<Event>, i: nat, key: Key)
    requires IsRun(cfg, run, events) && i < |run| && key in run[i].state.controlPlanes
    ensures var cp := run[i].state.controlPlanes[key];
            Owned(run[i].state, ClusterRoles, cp) != [] ==> CLEANUP_ROLE in cp.meta.finalizers
  {
    RunsKeepInv(cfg, run, events, i);
    var s, cp := run[i].state, run[i].state.controlPlanes[key];
    if Owned(s, ClusterRoles, cp) != [] {
      var r := Owned(s, ClusterRoles, cp)[0];
      assert r in Owned(s, ClusterRoles, cp);
      ListedBelongs(s, cp, ClusterRoles, r);
      var owner :| owner in s.objects[r].meta.owners && owner.uid == cp.meta.uid;
      var k :| Holds(s, k, owner.uid, CLEANUP_ROLE);
    }
  }
}
