/** The repair of an existing controller Deployment, edited in place through a
    reference to its main container. */
module Deployments {
  import opened Wrappers
  import opened EnvVars

  const MAIN_CONTAINER := "controller"

  datatype Container = Container(name: string, image: string, env: seq<EnvVar>, envFrom: seq<EnvFromSource>)

  /** The members of a Deployment spec that the controller generates or repairs. */
  datatype DeploymentSpec = DeploymentSpec(
    replicas: Option<int>, serviceAccount: string, certificate: string, containers: seq<Container>)

  datatype DeploymentStatus = DeploymentStatus(replicas: int, available: int)

  predicate HasMain(containers: seq<Container>) {
    exists i | 0 <= i < |containers| :: containers[i].name == MAIN_CONTAINER
  }

  /** The first container with the main name. */
  function MainIndex(containers: seq<Container>): (i: nat)
    requires HasMain(containers)
    ensures i < |containers| && containers[i].name == MAIN_CONTAINER
    ensures forall k | 0 <= k < i :: containers[k].name != MAIN_CONTAINER
  {
    if containers[0].name == MAIN_CONTAINER then 0 else 1 + MainIndex(containers[1..])
  }

  function Main(spec: DeploymentSpec): Container
    requires HasMain(spec.containers)
  {
    spec.containers[MainIndex(spec.containers)]
  }

  /** The goal of the repair: the main container runs the wanted environment and
      the Deployment is scaled to nothing exactly while no DataPlane is set. */
  predicate Settled(spec: DeploymentSpec, env: seq<EnvVar>, envFrom: seq<EnvFromSource>, dataPlaneIsSet: bool) {
    && HasMain(spec.containers)
    && Main(spec).env == env
    && Main(spec).envFrom == envFrom
    && (dataPlaneIsSet <==> spec.replicas != Some(0))
  }

  function RepairedReplicas(replicas: Option<int>, dataPlaneIsSet: bool): Option<int> {
    if !dataPlaneIsSet then Some(0) else if replicas == Some(0) then None else replicas
  }

  /** The repaired spec. Only a missing main container takes anything but the
      environment from the generated containers; the names of the service account
      and of the certificate are never touched. */
  function RepairedSpec(existing: DeploymentSpec, generated: DeploymentSpec, env: seq<EnvVar>,
                        envFrom: seq<EnvFromSource>, dataPlaneIsSet: bool): DeploymentSpec
    requires HasMain(generated.containers)
  {
    var containers := if HasMain(existing.containers) then existing.containers else generated.containers;
    var main := MainIndex(containers);
    existing.(
      replicas := RepairedReplicas(existing.replicas, dataPlaneIsSet),
      containers := containers[main := containers[main].(env := env, envFrom := envFrom)])
  }

  lemma {:induction false} MainIndexIsFirst(containers: seq<Container>, i: nat)
    requires i < |containers| && containers[i].name == MAIN_CONTAINER
    requires forall k | 0 <= k < i :: containers[k].name != MAIN_CONTAINER
    ensures HasMain(containers) && MainIndex(containers) == i
  {
  }

  /** One repair reaches the goal from any Deployment and then has nothing left
      to do. Without a DataPlane it scales to nothing; with one, it takes that back and
      leaves the scale to the server, while a user's own scale survives. Sidecars and the
      image survive it wherever the main container was present. */
  lemma RepairReachesGoal(existing: DeploymentSpec, generated: DeploymentSpec, env: seq<EnvVar>,
                          envFrom: seq<EnvFromSource>, dataPlaneIsSet: bool)
    requires HasMain(generated.containers)
    ensures var repaired := RepairedSpec(existing, generated, env, envFrom, dataPlaneIsSet);
            && Settled(repaired, env, envFrom, dataPlaneIsSet)
            && (Settled(existing, env, envFrom, dataPlaneIsSet) <==> repaired == existing)
            && RepairedSpec(repaired, generated, env, envFrom, dataPlaneIsSet) == repaired
    ensures HasMain(existing.containers) ==>
              var repaired := RepairedSpec(existing, generated, env, envFrom, dataPlaneIsSet);
              var main := MainIndex(existing.containers);
              && |repaired.containers| == |existing.containers|
              && repaired.containers[main] == existing.containers[main].(env := env, envFrom := envFrom)
              && (forall i | 0 <= i < |existing.containers| && i != main ::
                    repaired.containers[i] == existing.containers[i])
    ensures var repaired := RepairedSpec(existing, generated, env, envFrom, dataPlaneIsSet);
            && repaired.serviceAccount == existing.serviceAccount && repaired.certificate == existing.certificate
            && (!dataPlaneIsSet ==> repaired.replicas == Some(0))
            && (dataPlaneIsSet && existing.replicas == Some(0) ==> repaired.replicas == None)
            && (dataPlaneIsSet && existing.replicas != Some(0) ==> repaired.replicas == existing.replicas)
    ensures !HasMain(existing.containers) ==>
              var repaired := RepairedSpec(existing, generated, env, envFrom, dataPlaneIsSet);
              var main := MainIndex(generated.containers);
              repaired.containers ==
              generated.containers[main := generated.containers[main].(env := env, envFrom := envFrom)]
  {
    var repaired := RepairedSpec(existing, generated, env, envFrom, dataPlaneIsSet);
    var containers := if HasMain(existing.containers) then existing.containers else generated.containers;
    var main := MainIndex(containers);
    MainIndexIsFirst(repaired.containers, main);
    assert RepairedSpec(repaired, generated, env, envFrom, dataPlaneIsSet).containers == repaired.containers;
    if Settled(existing, env, envFrom, dataPlaneIsSet) {
      assert repaired.containers == existing.containers;
    }
  }

  /** Scaled to nothing and back, a Deployment has no scale of its own, whatever it was. */
  lemma ScaledToNothingAndBack(existing: DeploymentSpec, generated: DeploymentSpec, env: seq<EnvVar>,
                               envFrom: seq<EnvFromSource>, later: seq<EnvVar>)
    requires HasMain(generated.containers)
    ensures var down := RepairedSpec(existing, generated, env, envFrom, false);
            var up := RepairedSpec(down, generated, later, envFrom, true);
            && down.replicas == Some(0) && up.replicas == None
            && up == RepairedSpec(existing.(replicas := None), generated, later, envFrom, true)
  {
    RepairReachesGoal(existing, generated, env, envFrom, false);
    var down := RepairedSpec(existing, generated, env, envFrom, false);
    RepairReachesGoal(down, generated, later, envFrom, true);
    var containers := if HasMain(existing.containers) then existing.containers else generated.containers;
    MainIndexIsFirst(down.containers, MainIndex(containers));
  }

  // ---------------------------------------------------------------------------
  // The object graph that is edited in place
  // ---------------------------------------------------------------------------

  class PodContainer {
    const name: string
    const image: string
    var env: seq<EnvVar>
    var envFrom: seq<EnvFromSource>

    constructor (value: Container)
      ensures Value() == value
    {
      name, image, env, envFrom := value.name, value.image, value.env, value.envFrom;
    }

    function Value(): Container
      reads this
    {
      Container(name, image, env, envFrom)
    }
  }

  function Values(containers: seq<PodContainer>): (values: seq<Container>)
    reads containers
    ensures |values| == |containers|
    ensures forall i | 0 <= i < |containers| :: values[i] == containers[i].Value()
  {
    seq(|containers|, i requires 0 <= i < |containers| reads containers => containers[i].Value())
  }

  class DeploymentObject {
    var replicas: Option<int>
    var serviceAccount: string
    var certificate: string
    var containers: seq<PodContainer>

    constructor (replicas: Option<int>, serviceAccount: string, certificate: string, containers: seq<PodContainer>)
      ensures this.replicas == replicas && this.serviceAccount == serviceAccount
      ensures this.certificate == certificate && this.containers == containers
    {
      this.replicas, this.serviceAccount, this.certificate := replicas, serviceAccount, certificate;
      this.containers := containers;
    }

    /** The slots of the container list are separate pieces of memory. */
    ghost predicate Valid()
      reads this
    {
      forall i, j | 0 <= i < j < |containers| :: containers[i] != containers[j]
    }

    function Value(): DeploymentSpec
      reads this, containers
    {
      DeploymentSpec(replicas, serviceAccount, certificate, Values(containers))
    }

    /** A reference into the container list, so that edits show in the Deployment. */
    method GetPodContainerByName(name: string) returns (found: PodContainer?)
      ensures found == null <==> forall i | 0 <= i < |containers| :: containers[i].name != name
      ensures found != null ==>
                exists i :: && 0 <= i < |containers| && containers[i] == found && found.name == name
                            && forall k | 0 <= k < i :: containers[k].name != name
    {
      for i := 0 to |containers|
        invariant forall k | 0 <= k < i :: containers[k].name != name
      {
        if containers[i].name == name {
          return containers[i];
        }
      }
      return null;
    }

    /** The main container; the whole set is replaced if it lacks one. */
    method EnsureMainContainer(generated: DeploymentObject)
      returns (container: PodContainer, ghost main: nat, replaced: bool)
      requires generated != this && HasMain(generated.Value().containers)
      modifies this`containers
      ensures replaced <==> !HasMain(old(Value()).containers)
      ensures containers == if replaced then generated.containers else old(containers)
      ensures HasMain(Values(containers)) && main == MainIndex(Values(containers))
      ensures main < |containers| && containers[main] == container
    {
      replaced := false;
      ghost var before := Values(containers);
      var found := GetPodContainerByName(MAIN_CONTAINER);
      if found == null {
        assert !HasMain(before);
        containers := generated.containers;
        replaced := true;
        ghost var at := MainIndex(Values(containers));
        assert containers[at].name == MAIN_CONTAINER;
        found := GetPodContainerByName(MAIN_CONTAINER);
      }
      container := found;
      main :| && 0 <= main < |containers| && containers[main] == container
              && forall k | 0 <= k < main :: containers[k].name != MAIN_CONTAINER;
      MainIndexIsFirst(Values(containers), main);
    }

    /** Scales to nothing without a DataPlane, and back when one was set. */
    method Scale(container: PodContainer, env: seq<EnvVar>, dataPlaneIsSet: bool) returns (updated: bool)
      modifies this`replicas, container`env
      ensures replicas == RepairedReplicas(old(replicas), dataPlaneIsSet)
      ensures !dataPlaneIsSet ==> replicas == Some(0)
      ensures dataPlaneIsSet ==> replicas == if old(replicas) == Some(0) then None else old(replicas)
      ensures updated <==> replicas != old(replicas)
      ensures container.env == old(container.env) || (updated && container.env == env)
    {
      updated := false;
      if !dataPlaneIsSet && replicas != Some(0) {
        replicas := Some(0);
        updated := true;
      } else if dataPlaneIsSet && replicas == Some(0) {
        replicas := None;
        if |container.env| > 0 {
          container.env := env;
        }
        updated := true;
      }
    }

    /** Purges direct edits of the environment. */
    method PurgeEdits(container: PodContainer, env: seq<EnvVar>, envFrom: seq<EnvFromSource>) returns (updated: bool)
      modifies container
      ensures container.env == env && container.envFrom == envFrom
      ensures updated <==> old(container.env) != env || old(container.envFrom) != envFrom
    {
      updated := false;
      if container.env != env {
        container.env := env;
        updated := true;
      }
      if container.envFrom != envFrom {
        container.envFrom := envFrom;
        updated := true;
      }
    }

    /** Scale and environment, through the reference to the slot at `main`. */
    method EditInPlace(container: PodContainer, ghost main: nat, env: seq<EnvVar>, envFrom: seq<EnvFromSource>,
                       dataPlaneIsSet: bool) returns (updated: bool)
      requires Valid() && main < |containers| && containers[main] == container
      modifies this`replicas, container
      ensures replicas == RepairedReplicas(old(replicas), dataPlaneIsSet)
      ensures Values(containers) ==
              old(Values(containers))[main := old(container.Value()).(env := env, envFrom := envFrom)]
      ensures updated <==> replicas != old(replicas) || old(container.env) != env || old(container.envFrom) != envFrom
    {
      ghost var slots := Values(containers);
      var scaled := Scale(container, env, dataPlaneIsSet);
      var purged := PurgeEdits(container, env, envFrom);
      updated := scaled || purged;
      OneSlotEdited(containers, main, slots, env, envFrom);
    }

    /** The repair of an existing Deployment; `updated` asks for an API write. */
    method Repair(generated: DeploymentObject, env: seq<EnvVar>, envFrom: seq<EnvFromSource>, dataPlaneIsSet: bool)
      returns (updated: bool)
      requires Valid() && generated.Valid() && generated != this
      requires HasMain(generated.Value().containers)
      modifies this`replicas, this`containers, containers, generated.containers
      ensures Valid()
      ensures Value() == RepairedSpec(old(Value()), old(generated.Value()), env, envFrom, dataPlaneIsSet)
      ensures updated <==> !Settled(old(Value()), env, envFrom, dataPlaneIsSet)
    {
      hide RepairedSpec, Settled, RepairedReplicas, MainIndex;
      ghost var before, wanted := Value(), generated.Value();
      var container, main, replaced := EnsureMainContainer(generated);
      RepairInParts(before, wanted, Values(containers), main, replaced, env, envFrom, dataPlaneIsSet);
      var edited := EditInPlace(container, main, env, envFrom, dataPlaneIsSet);
      updated := replaced || edited;
    }
  }

  lemma RepairInParts(before: DeploymentSpec, wanted: DeploymentSpec, slots: seq<Container>, main: nat, replaced: bool,
                      env: seq<EnvVar>, envFrom: seq<EnvFromSource>, dataPlaneIsSet: bool)
    requires HasMain(wanted.containers) && (replaced <==> !HasMain(before.containers))
    requires slots == if replaced then wanted.containers else before.containers
    requires HasMain(slots) && main == MainIndex(slots)
    ensures RepairedSpec(before, wanted, env, envFrom, dataPlaneIsSet) ==
            DeploymentSpec(RepairedReplicas(before.replicas, dataPlaneIsSet), before.serviceAccount, before.certificate,
                           slots[main := slots[main].(env := env, envFrom := envFrom)])
    ensures Settled(before, env, envFrom, dataPlaneIsSet) <==>
            && !replaced && RepairedReplicas(before.replicas, dataPlaneIsSet) == before.replicas
            && slots[main].env == env && slots[main].envFrom == envFrom
  {
  }

  /** Editing through the reference is an update at the index of its slot. */
  lemma OneSlotEdited(containers: seq<PodContainer>, main: nat, slots: seq<Container>,
                      env: seq<EnvVar>, envFrom: seq<EnvFromSource>)
    requires main < |containers| == |slots|
    requires containers[main].Value() == slots[main].(env := env, envFrom := envFrom)
    requires forall i | 0 <= i < |containers| && i != main :: containers[i].Value() == slots[i]
    ensures Values(containers) == slots[main := slots[main].(env := env, envFrom := envFrom)]
  {
  }
}
