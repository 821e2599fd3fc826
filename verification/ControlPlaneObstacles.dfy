/** Ways in which a ControlPlane never gets what it should: a certificate that is
    stored without the label it is looked for by, and an image for which there are no
    role rules. */
module ControlPlaneObstacles {
  import opened Wrappers
  import opened Conditions
  import opened Deployments
  import opened Metadata
  import opened Cluster
  import opened ControlPlaneObjects
  import opened ControlPlanePass
  import opened ControlPlaneGoals
  import opened ControlPlaneStages
  import opened ControlPlaneConvergence

  // ---------------------------------------------------------------------------
  // Certificates without the managed label
  // ---------------------------------------------------------------------------

  /** Service account, role and binding are in order, and no certificate is found. */
  ghost predicate AtCertificates(cfg: Config, s: State, key: Key) {
    && Steady(s, key) && Gated(s, key)
    && KindSettled(cfg, s, Effective(s, key), ServiceAccounts)
    && KindSettled(cfg, s, Effective(s, key), ClusterRoles)
    && KindSettled(cfg, s, Effective(s, key), ClusterRoleBindings)
    && Owned(s, Secrets, Effective(s, key)) == []
  }

  /** The Secrets of a ControlPlane, with or without the label. */
  ghost function SecretsOf(s: State, uid: Uid): set<Ref> {
    set r | r in s.objects && r.kind == Secrets && OwnedBy(s.objects[r].meta, uid)
  }

  /** The settled stages hand over to the stage of the certificate. */
  lemma ToCertificates(cfg: Config, key: Key, s: State, p: Proc, ch: Choice) returns (q: Proc)
    requires ch.fault == Served && p.pc == ListKind(ServiceAccounts)
    requires KindSettled(cfg, s, p.cp, ServiceAccounts) && KindSettled(cfg, s, p.cp, ClusterRoles)
    requires KindSettled(cfg, s, p.cp, ClusterRoleBindings)
    ensures q.pc == ListKind(Secrets) && q.cp == p.cp
    ensures Finish(cfg, key, World(s, p), ch) == Finish(cfg, key, World(s, q), ch)
  {
    hide Finish, Writes, KindSettled;
    var account := SettledKind(cfg, key, s, p, ServiceAccounts, ch);
    var p1 := p.(names := p.names.(account := account), pc := ListKind(ClusterRoles));
    var role := SettledKind(cfg, key, s, p1, ClusterRoles, ch);
    var p2 := p1.(names := p1.names.(role := role), pc := ListKind(ClusterRoleBindings));
    var binding := SettledKind(cfg, key, s, p2, ClusterRoleBindings, ch);
    q := p2.(pc := ListKind(Secrets));
  }

  lemma OneMoreIsCounted(cfg: Config, s: State, cp: ControlPlane, suffix: string)
    requires NameIsFree(cfg, s, cp, Secrets, suffix)
    ensures |SecretsOf(CreateObject(s, Secrets, Object(GeneratedMeta(cfg, Secrets, cp), Plain), suffix).state,
                       cp.meta.uid)|
            == |SecretsOf(s, cp.meta.uid)| + 1
  {
    hide GeneratedLabels;
    var o := Object(GeneratedMeta(cfg, Secrets, cp), Plain);
    var s', uid := CreateObject(s, Secrets, o, suffix).state, cp.meta.uid;
    var r := Ref(Secrets, o.meta.namespace, o.meta.generateName + suffix);
    assert o.meta.owners[0].uid == uid;
    CountOne(s, s', uid, r);
  }

  lemma CountOne(s: State, s': State, uid: Uid, r: Ref)
    requires r !in s.objects && r.kind == Secrets && r in s'.objects && OwnedBy(s'.objects[r].meta, uid)
    requires s'.objects == s.objects[r := s'.objects[r]]
    ensures |SecretsOf(s', uid)| == |SecretsOf(s, uid)| + 1
  {
    hide OwnedBy;
    assert SecretsOf(s', uid) == SecretsOf(s, uid) + {r};
  }

  /** A pass at the stage of an unlabelled certificate stores one more Secret and is
      at that stage again; with a clashing name it does nothing. */
  lemma OneMoreSecret(cfg: Config, key: Key, s: State, now: int, suffix: string)
    requires AtCertificates(cfg, s, key) && !cfg.secretsLabelled
    ensures var s' := Pass(cfg, key, s, now, suffix);
            if NameIsFree(cfg, s, s.controlPlanes[key], Secrets, suffix) then
              && AtCertificates(cfg, s', key) && s'.controlPlanes == s.controlPlanes
              && Owned(s', Deployments, s.controlPlanes[key]) == Owned(s, Deployments, s.controlPlanes[key])
              && |SecretsOf(s', s.controlPlanes[key].meta.uid)| == |SecretsOf(s, s.controlPlanes[key].meta.uid)| + 1
            else s' == s
  {
    hide Finish, Writes, KindSettled, Gated, GeneratedMeta, CreateObject, Meaning, ConcludedMeaning, SecretsOf;
    var ch, cp, want := Quiet(now, suffix), s.controlPlanes[key], Effective(s, key);
    var p := WorkingRun(cfg, s, key, ch);
    SettledIgnoresStatus(cfg, s, want, p.cp, ServiceAccounts);
    SettledIgnoresStatus(cfg, s, want, p.cp, ClusterRoles);
    SettledIgnoresStatus(cfg, s, want, p.cp, ClusterRoleBindings);
    var q := ToCertificates(cfg, key, s, p, ch);
    assert Owned(s, Secrets, p.cp) == Owned(s, Secrets, want);
    NewCertificate(cfg, key, s, q, ch);
    SecretNames(cfg, s, q.cp, cp, suffix);
    if NameIsFree(cfg, s, cp, Secrets, suffix) {
      UnlabelledIsNotFound(cfg, s, p.cp, suffix);
      OneMoreIsCounted(cfg, s, p.cp, suffix);
      CertificatesAgain(cfg, key, s, Pass(cfg, key, s, now, suffix));
    }
  }

  lemma CertificatesAgain(cfg: Config, key: Key, s: State, s': State)
    requires AtCertificates(cfg, s, key) && OnlyKindMoved(s, s', Secrets) && s'.controlPlanes == s.controlPlanes
    requires Owned(s', Secrets, s.controlPlanes[key]) == []
    ensures AtCertificates(cfg, s', key)
    ensures Owned(s', Deployments, s.controlPlanes[key]) == Owned(s, Deployments, s.controlPlanes[key])
  {
    var cp, want := s.controlPlanes[key], Effective(s, key);
    ServiceUnmoved(s, s', Secrets, cp, cp);
    SettledIgnoresOtherKinds(cfg, s, s', Secrets, want, ServiceAccounts);
    SettledIgnoresOtherKinds(cfg, s, s', Secrets, want, ClusterRoles);
    SettledIgnoresOtherKinds(cfg, s, s', Secrets, want, ClusterRoleBindings);
    ListIgnoresOtherKinds(s, s', Secrets, Deployments, Scope(Deployments, cp.meta.namespace), CONTROL_PLANE_VALUE,
                          cp.meta.uid);
  }

  /** So `n` passes store `n` Secrets and never get to the Deployment. */
  lemma {:induction false} SecretsPileUp(cfg: Config, key: Key, s: State, ticks: seq<Tick>)
    requires AtCertificates(cfg, s, key) && !cfg.secretsLabelled && NeverClashes(cfg, key, s, ticks)
    ensures var s', cp := Passes(cfg, key, s, ticks), s.controlPlanes[key];
            && AtCertificates(cfg, s', key) && s'.controlPlanes == s.controlPlanes
            && |SecretsOf(s', cp.meta.uid)| == |SecretsOf(s, cp.meta.uid)| + |ticks|
            && Owned(s', Deployments, cp) == Owned(s, Deployments, cp)
    decreases |ticks|
  {
    hide Pass, SecretsOf, NameIsFree, Owned;
    if ticks == [] {
    } else {
      OneMoreSecret(cfg, key, s, ticks[0].now, ticks[0].suffix);
      SecretsPileUp(cfg, key, Pass(cfg, key, s, ticks[0].now, ticks[0].suffix), ticks[1..]);
    }
  }

  /** At the stage of a certificate that will not be found, nothing before it is open. */
  lemma LostIsAtCertificates(cfg: Config, s: State, key: Key)
    requires Steady(s, key) && Stage(cfg, s, key) == 8 && Lost(cfg, s, s.controlPlanes[key])
    ensures AtCertificates(cfg, s, key)
  {
    hide Gated, KindSettled;
    var want := Effective(s, key);
    assert Owned(s, Secrets, want) == Owned(s, Secrets, s.controlPlanes[key]);
    assert KindStage(cfg, s, want, ServiceAccounts) == 8;
    assert KindStage(cfg, s, want, ClusterRoles) == 8;
    assert KindStage(cfg, s, want, ClusterRoleBindings) == 8;
  }

  /** From any live ControlPlane without a labelled certificate, unlabelled ones pile up
      for ever: once ten passes are over, each further pass stores another one, and the
      Deployments stay as they are. */
  lemma LostForEver(cfg: Config, key: Key, s: State, first: seq<Tick>, further: seq<Tick>)
    requires Steady(s, key) && Healthy(cfg, s, key) && Lost(cfg, s, s.controlPlanes[key])
    requires NeverClashes(cfg, key, s, first) && |first| >= 10
    requires NeverClashes(cfg, key, Passes(cfg, key, s, first), further)
    ensures var s1, cp := Passes(cfg, key, s, first), s.controlPlanes[key];
            var s' := Passes(cfg, key, s1, further);
            && |SecretsOf(s', cp.meta.uid)| == |SecretsOf(s1, cp.meta.uid)| + |further|
            && Owned(s', Deployments, cp) == Owned(s1, Deployments, cp)
  {
    hide Pass, Passes, NeverClashes, Healthy, Stage, SecretsOf, AtCertificates;
    Converges(cfg, key, s, first, Tick(0, ""));
    var s1 := Passes(cfg, key, s, first);
    var cp, cp1 := s.controlPlanes[key], s1.controlPlanes[key];
    LostIgnoresRest(cfg, s1, cp1, cp);
    PassesAdvance(cfg, key, s, first);
    LostIsAtCertificates(cfg, s1, key);
    SecretsPileUp(cfg, key, s1, further);
    assert forall t: State :: Owned(t, Deployments, cp) == Owned(t, Deployments, cp1);
  }

  // ---------------------------------------------------------------------------
  // Images without role rules
  // ---------------------------------------------------------------------------

  /** A ControlPlane whose image has no role rules never gets past the stage of its
      ClusterRole, and once there every pass leaves the cluster as it is. */
  lemma UnsupportedImageStops(cfg: Config, key: Key, s: State, now: int, suffix: string)
    requires Steady(s, key)
    requires cfg.roleFor(ImageVersion(s.controlPlanes[key].image)) == None
    ensures Stage(cfg, s, key) <= 6
    ensures Stage(cfg, s, key) == 6 ==> Pass(cfg, key, s, now, suffix) == s
  {
    hide Pass, ImageVersion, Gated;
    assert Generated(cfg, ClusterRoles, Effective(s, key), NONAMES) == None;
    assert KindStage(cfg, s, Effective(s, key), ServiceAccounts) <= 6;
    PassProgress(cfg, s, key, now, suffix);
  }

  lemma {:induction false} SplitWhole(s: string, separator: char)
    requires separator !in s
    ensures Split(s, separator) == [s]
  {
    if s != "" {
      SplitWhole(s[1..], separator);
      assert s == [s[0]] + s[1..];
    }
  }

  lemma {:induction false} SplitFirst(s: string, separator: char, rest: string)
    requires separator !in s
    ensures Split(s + [separator] + rest, separator) == [s] + Split(rest, separator)
  {
    if s == "" {
      assert (s + [separator] + rest)[1..] == rest;
    } else {
      SplitFirst(s[1..], separator, rest);
      assert (s + [separator] + rest)[1..] == s[1..] + [separator] + rest;
      assert s == [s[0]] + s[1..];
    }
  }

  lemma {:induction false} SplitInOne(s: string, separator: char)
    ensures |Split(s, separator)| == 1 <==> separator !in s
  {
    if s != "" {
      SplitInOne(s[1..], separator);
      assert s == [s[0]] + s[1..];
    }
  }

  lemma {:induction false} FirstOf(s: string, c: char) returns (i: nat)
    requires c in s
    ensures i < |s| && s[i] == c && c !in s[..i]
  {
    if s[0] == c {
      i := 0;
    } else {
      assert s == [s[0]] + s[1..];
      var j := FirstOf(s[1..], c);
      i := j + 1;
      assert s[..i] == [s[0]] + s[1..][..j];
    }
  }

  /** The tag decides on the rules: what follows the one colon of the image, except that
      "latest" stands for one fixed version, and so does an image with no colon or with
      several. Without an image the version asked for is "latest". */
  lemma TagDecides(image: string)
    ensures ImageVersion(None) == ImageVersion(Some("")) == "latest"
    ensures image != "" && ':' !in image ==> ImageVersion(Some(image)) == "2.5.0"
    ensures forall i | 0 <= i < |image| && image[i] == ':' ::
              ImageVersion(Some(image)) ==
              if ':' in image[..i] || ':' in image[i + 1..] || image[i + 1..] == "latest" then "2.5.0"
              else image[i + 1..]
  {
    if ':' !in image {
      SplitWhole(image, ':');
    } else {
      var first := FirstOf(image, ':');
      var rest := image[first + 1..];
      assert image == image[..first] + [':'] + rest;
      SplitFirst(image[..first], ':', rest);
      SplitInOne(rest, ':');
      if ':' !in rest {
        SplitWhole(rest, ':');
      }
      assert forall k | 0 <= k < first :: image[..first][k] != ':';
      forall i | 0 <= i < |image| && image[i] == ':' && i != first
        ensures ':' in rest && ':' in image[..i]
      {
        assert rest[i - first - 1] == ':' && image[..i][first] == ':';
      }
    }
  }
}
