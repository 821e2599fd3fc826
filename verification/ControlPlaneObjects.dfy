/** What the ControlPlane controller wants: the objects it generates, what it
    repairs on existing ones, and the conditions it marks. */
module ControlPlaneObjects {
  import opened Wrappers
  import opened EnvVars
  import opened Conditions
  import opened Metadata
  import opened Deployments
  import opened Cluster

  const CLEANUP_ROLE := "apisix-operator.apisix.apache.org/cleanup-clusterrole"
  const CLEANUP_BINDING := "apisix-operator.apisix.apache.org/cleanup-clusterrolebinding"

  lemma CleanupNamesDiffer()
    ensures CLEANUP_ROLE != CLEANUP_BINDING
  {
    assert |CLEANUP_ROLE| != |CLEANUP_BINDING|;
  }

  const PROVISIONED := "Provisioned"
  const PODS_NOT_READY := "PodsNotReady"
  const PODS_READY := "PodsReady"
  const NO_DATA_PLANE := "NoDataplane"

  /** `secretsLabelled`: whether a created certificate gets the managed label that
      its listing asks for. `roleFor`: the role rules for an image version. */
  datatype Config = Config(secretsLabelled: bool, roleFor: string -> Option<string>)

  /** The names of the objects found so far in a pass. */
  datatype Names = Names(account: string, role: string, certificate: string)

  predicate DataPlaneIsSet(cp: ControlPlane) {
    cp.dataPlane.Some? && cp.dataPlane.value != ""
  }

  // ---------------------------------------------------------------------------
  // Role selection
  // ---------------------------------------------------------------------------

  function Split(s: string, separator: char): (parts: seq<string>)
    ensures |parts| >= 1
  {
    if s == "" then [""]
    else
      var parts := Split(s[1..], separator);
      if s[0] == separator then [""] + parts else [[s[0]] + parts[0]] + parts[1..]
  }

  /** The version whose role rules an image needs. */
  function ImageVersion(image: Option<string>): string {
    if image.None? || image.value == "" then "latest"
    else
      var parts := Split(image.value, ':');
      if |parts| != 2 || parts[1] == "latest" then "2.5.0" else parts[1]
  }

  // ---------------------------------------------------------------------------
  // Generated objects
  // ---------------------------------------------------------------------------

  function OwnerOf(cp: ControlPlane): OwnerRef {
    OwnerRef(CONTROL_PLANE_KIND, cp.meta.name, cp.meta.uid)
  }

  predicate ClusterWide(kind: Kind) {
    kind == ClusterRoles || kind == ClusterRoleBindings
  }

  /** Where the owned objects of a kind are looked for. */
  function Scope(kind: Kind, namespace: string): Option<string> {
    if ClusterWide(kind) || kind == Secrets then None else Some(namespace)
  }

  function GeneratedLabels(cfg: Config, kind: Kind, name: string): map<string, string> {
    if kind != Secrets then map["app" := name, CONTROLLED_LABEL := CONTROL_PLANE_VALUE]
    else if cfg.secretsLabelled then map[CONTROLLED_LABEL := CONTROL_PLANE_VALUE]
    else map[]
  }

  function GeneratedMeta(cfg: Config, kind: Kind, cp: ControlPlane): Meta {
    Meta(if ClusterWide(kind) then "" else cp.meta.namespace,
         "",
         if kind == ClusterRoles then cp.meta.name + "-" else "controlplane-" + cp.meta.name + "-",
         0, 0,
         GeneratedLabels(cfg, kind, cp.meta.name),
         [OwnerOf(cp)],
         [],
         None)
  }

  function ControllerImage(cp: ControlPlane): string {
    if cp.image.None? then "apache/apisix-ingress-controller:latest"
    else if cp.version.None? then cp.image.value
    else cp.image.value + ":" + cp.version.value
  }

  function GeneratedWorkload(cp: ControlPlane, names: Names): DeploymentSpec {
    DeploymentSpec(if DataPlaneIsSet(cp) then None else Some(0), names.account, names.certificate,
                   [Container(MAIN_CONTAINER, ControllerImage(cp), cp.env, cp.envFrom)])
  }

  function GeneratedBody(cfg: Config, kind: Kind, cp: ControlPlane, names: Names): Option<Body> {
    match kind
    case ClusterRoles =>
      var rules := cfg.roleFor(ImageVersion(cp.image));
      if rules.None? then None else Some(Rules(rules.value))
    case ClusterRoleBindings => Some(Binding(names.role, names.account, cp.meta.namespace))
    case Deployments => Some(Workload(GeneratedWorkload(cp, names), DeploymentStatus(0, 0)))
    case _ => Some(Plain)
  }

  /** The object a stage wants; absent when no role supports the image. */
  function Generated(cfg: Config, kind: Kind, cp: ControlPlane, names: Names): Option<Object> {
    var body := GeneratedBody(cfg, kind, cp, names);
    if body.None? then None else Some(Object(GeneratedMeta(cfg, kind, cp), body.value))
  }

  /** The Deployment that is made: one container with the image that is asked for, and no
      scale of its own exactly while a DataPlane is set. */
  lemma NewDeployment(cfg: Config, cp: ControlPlane, names: Names)
    ensures var o := Generated(cfg, Deployments, cp, names);
            && o.Some? && o.value.body.Workload?
            && var spec := o.value.body.spec;
               && spec.replicas == (if cp.dataPlane == None || cp.dataPlane == Some("") then Some(0) else None)
               && spec.serviceAccount == names.account && spec.certificate == names.certificate
               && |spec.containers| == 1 && spec.containers[0].name == "controller"
               && spec.containers[0].env == cp.env && spec.containers[0].envFrom == cp.envFrom
               && (cp.image == None ==> spec.containers[0].image == "apache/apisix-ingress-controller:latest")
               && (cp.image != None && cp.version == None ==> Some(spec.containers[0].image) == cp.image)
               && (cp.image != None && cp.version != None ==>
                     spec.containers[0].image == cp.image.value + ":" + cp.version.value)
  {
  }

  /** Every object that is made carries the name of its ControlPlane in its own, is owned by
      it alone, and, but for certificates, is labelled for the list of its kind. */
  lemma NewObject(cfg: Config, kind: Kind, cp: ControlPlane, names: Names)
    requires Generated(cfg, kind, cp, names).Some?
    ensures var meta := Generated(cfg, kind, cp, names).value.meta;
            && meta.owners == [OwnerRef("ControlPlane", cp.meta.name, cp.meta.uid)]
            && meta.namespace == (if kind == ClusterRoles || kind == ClusterRoleBindings then "" else cp.meta.namespace)
            && meta.generateName ==
               (if kind == ClusterRoles then cp.meta.name + "-" else "controlplane-" + cp.meta.name + "-")
            && (kind != Secrets ==>
                  meta.labels == map["app" := cp.meta.name, "apisix.apache.org/apisix-operator" := "controlplane"])
  {
  }

  // ---------------------------------------------------------------------------
  // Repair
  // ---------------------------------------------------------------------------

  function RepairedBody(existing: Body, generated: Body, cp: ControlPlane): Body {
    if existing.Workload? && generated.Workload? && HasMain(generated.spec.containers) then
      existing.(spec := RepairedSpec(existing.spec, generated.spec, cp.env, cp.envFrom, DataPlaneIsSet(cp)))
    else existing
  }

  predicate BodyNeedsRepair(existing: Body, generated: Body, cp: ControlPlane) {
    && existing.Workload? && generated.Workload? && HasMain(generated.spec.containers)
    && !Settled(existing.spec, cp.env, cp.envFrom, DataPlaneIsSet(cp))
  }

  predicate ObjectNeedsRepair(existing: Object, generated: Object, cp: ControlPlane) {
    NeedsRepair(existing.meta, generated.meta) || BodyNeedsRepair(existing.body, generated.body, cp)
  }

  function RepairedObject(existing: Object, generated: Object, cp: ControlPlane): Object {
    Object(Repaired(existing.meta, generated.meta), RepairedBody(existing.body, generated.body, cp))
  }

  /** One repair of any owned object is enough. */
  lemma ObjectRepairSettles(existing: Object, generated: Object, cp: ControlPlane)
    ensures !ObjectNeedsRepair(RepairedObject(existing, generated, cp), generated, cp)
    ensures ObjectNeedsRepair(existing, generated, cp) <==> RepairedObject(existing, generated, cp) != existing
  {
    RepairSettles(existing.meta, generated.meta);
    if existing.body.Workload? && generated.body.Workload? && HasMain(generated.body.spec.containers) {
      RepairReachesGoal(existing.body.spec, generated.body.spec, cp.env, cp.envFrom, DataPlaneIsSet(cp));
    }
  }

  /** A freshly created object needs no repair, whatever names it was given. */
  lemma GeneratedIsSettled(cfg: Config, kind: Kind, cp: ControlPlane, names: Names, later: Names)
    requires Generated(cfg, kind, cp, names).Some?
    ensures Generated(cfg, kind, cp, later).Some?
    ensures !ObjectNeedsRepair(Generated(cfg, kind, cp, names).value, Generated(cfg, kind, cp, later).value, cp)
  {
    if kind == Deployments {
      var containers := GeneratedWorkload(cp, names).containers;
      assert containers[0].name == MAIN_CONTAINER;
      MainIndexIsFirst(containers, 0);
    }
  }

  // ---------------------------------------------------------------------------
  // Conditions
  // ---------------------------------------------------------------------------

  function WithScheduled(conditions: seq<Condition>, now: int): seq<Condition> {
    Put(conditions, NewCondition(PROVISIONED, StatusFalse, PODS_NOT_READY,
                                 "ControlPlane resource is scheduled for provisioning", now))
  }

  function DataPlaneCondition(dataPlaneIsSet: bool, now: int): Condition {
    if dataPlaneIsSet then
      NewCondition(PROVISIONED, StatusFalse, PODS_NOT_READY,
                   "DataPlane was set, ControlPlane resource is scheduled for provisioning", now)
    else
      NewCondition(PROVISIONED, StatusFalse, NO_DATA_PLANE, "DataPlane is not set", now)
  }

  /** Marks whether a DataPlane is set, unless status and reason already say so. */
  function WithDataPlaneStatus(conditions: seq<Condition>, dataPlaneIsSet: bool, now: int): seq<Condition> {
    var wanted := DataPlaneCondition(dataPlaneIsSet, now);
    var present := Find(conditions, PROVISIONED);
    if present.None? || present.value.status != wanted.status || present.value.reason != wanted.reason
    then Put(conditions, wanted) else conditions
  }

  /** The list says whether a DataPlane is set: Provisioned is false, for this reason, and
      in these words unless it was false for this reason before. */
  predicate SaysWhether(before: seq<Condition>, after: seq<Condition>, dataPlaneIsSet: bool) {
    var was, now := Find(before, "Provisioned"), Find(after, "Provisioned");
    var reason := if dataPlaneIsSet then "PodsNotReady" else "NoDataplane";
    && now.Some?
    && VerdictOf(now.value) ==
       if was.Some? && was.value.status == StatusFalse && was.value.reason == reason then VerdictOf(was.value)
       else Verdict(StatusFalse, reason,
                    if dataPlaneIsSet then "DataPlane was set, ControlPlane resource is scheduled for provisioning"
                    else "DataPlane is not set")
  }

  /** Marking any list, with or without repeats, makes it say so, and leaves the rest. */
  lemma MarkingSaysWhether(conditions: seq<Condition>, dataPlaneIsSet: bool, now: int, other: string)
    ensures SaysWhether(conditions, WithDataPlaneStatus(conditions, dataPlaneIsSet, now), dataPlaneIsSet)
    ensures other != "Provisioned" ==>
              Find(WithDataPlaneStatus(conditions, dataPlaneIsSet, now), other) == Find(conditions, other)
  {
    PutIsFound(conditions, DataPlaneCondition(dataPlaneIsSet, now));
    if other != PROVISIONED {
      PutLeavesOthers(conditions, DataPlaneCondition(dataPlaneIsSet, now), other);
    }
  }

  /** Scheduling says that the pods are not ready yet. */
  lemma SchedulingSays(conditions: seq<Condition>, now: int, other: string)
    ensures var found := Find(WithScheduled(conditions, now), "Provisioned");
            && found.Some?
            && VerdictOf(found.value) == Verdict(StatusFalse, "PodsNotReady",
                                                 "ControlPlane resource is scheduled for provisioning")
    ensures other != "Provisioned" ==> Find(WithScheduled(conditions, now), other) == Find(conditions, other)
  {
    var c := NewCondition(PROVISIONED, StatusFalse, PODS_NOT_READY,
                          "ControlPlane resource is scheduled for provisioning", now);
    PutIsFound(conditions, c);
    if other != PROVISIONED {
      PutLeavesOthers(conditions, c, other);
    }
  }

  /** Concluding says that the pods are ready. */
  lemma ConcludingSays(conditions: seq<Condition>, now: int)
    ensures var found := Find(WithProvisioned(conditions, now), "Provisioned");
            && found.Some?
            && VerdictOf(found.value) == Verdict(StatusTrue, "PodsReady", "pods for all Deployments are ready")
  {
    assert READY != PROVISIONED by { assert |READY| != |PROVISIONED|; }
    var c := ProvisionedCondition(now);
    PutIsFound(conditions, c);
    PutLeavesOthers(Put(conditions, c),
                    if AllOthersTrue(Put(conditions, c)) then NewCondition(READY, StatusTrue, RESOURCE_READY, "", now)
                    else NotReadyYet(now), PROVISIONED);
  }

  function ProvisionedCondition(now: int): Condition {
    NewCondition(PROVISIONED, StatusTrue, PODS_READY, "pods for all Deployments are ready", now)
  }

  function WithProvisioned(conditions: seq<Condition>, now: int): seq<Condition> {
    WithReadyEvaluated(Put(conditions, ProvisionedCondition(now)), now)
  }
}
