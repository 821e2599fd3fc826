/** The stored cluster and the calls of its API server.

    One counter hands out both resource versions and UIDs. Every write takes the
    next number, so a stale copy of an object is told apart by its revision, and
    a UID is never handed out twice. */
module Cluster {
  import opened Wrappers
  import opened EnvVars
  import opened Conditions
  import opened Metadata
  import opened Deployments

  datatype Key = Key(namespace: string, name: string)

  datatype ControlPlane = ControlPlane(
    meta: Meta,
    image: Option<string>,
    version: Option<string>,
    env: seq<EnvVar>,
    envFrom: seq<EnvFromSource>,
    dataPlane: Option<string>,
    conditions: seq<Condition>)

  datatype Kind = ServiceAccounts | ClusterRoles | ClusterRoleBindings | Secrets | Deployments | Services

  /** Cluster-wide kinds have the empty namespace. */
  datatype Ref = Ref(kind: Kind, namespace: string, name: string)

  datatype Body =
    | Plain
    | Rules(version: string)
    | Binding(role: string, account: string, accountNamespace: string)
    | Workload(spec: DeploymentSpec, status: DeploymentStatus)

  datatype Object = Object(meta: Meta, body: Body)

  datatype State = State(
    revision: nat,
    controlPlanes: map<Key, ControlPlane>,
    dataPlanes: map<Key, Uid>,
    objects: map<Ref, Object>)

  datatype Error = NotFound | Conflict | AlreadyExists | Unavailable | Unsupported | TooMany

  /** The answer of the server: what it stored and returned, or why it refused. */
  datatype Reply<T> = Accepted(state: State, value: T) | Refused(error: Error)

  // ---------------------------------------------------------------------------
  // ControlPlanes
  // ---------------------------------------------------------------------------

  /** A write of metadata and spec. The status is a subresource and stays; an
      object under deletion goes once its last finalizer is gone. */
  function UpdateControlPlane(s: State, key: Key, cp: ControlPlane): Reply<ControlPlane> {
    if key !in s.controlPlanes then Refused(NotFound)
    else
      var stored := s.controlPlanes[key];
      if stored.meta.revision != cp.meta.revision then Refused(Conflict)
      else
        var next := cp.(
          meta := stored.meta.(labels := cp.meta.labels, owners := cp.meta.owners,
                               finalizers := cp.meta.finalizers, revision := s.revision + 1),
          conditions := stored.conditions);
        var rest := if next.meta.deletion.Some? && next.meta.finalizers == [] then s.controlPlanes - {key}
                    else s.controlPlanes[key := next];
        Accepted(s.(revision := s.revision + 1, controlPlanes := rest), next)
  }

  /** A write of the status alone. */
  function UpdateStatus(s: State, key: Key, cp: ControlPlane): Reply<ControlPlane> {
    if key !in s.controlPlanes then Refused(NotFound)
    else
      var stored := s.controlPlanes[key];
      if stored.meta.revision != cp.meta.revision then Refused(Conflict)
      else
        var next := stored.(meta := stored.meta.(revision := s.revision + 1), conditions := cp.conditions);
        Accepted(s.(revision := s.revision + 1, controlPlanes := s.controlPlanes[key := next]), next)
  }

  // ---------------------------------------------------------------------------
  // Owned objects
  // ---------------------------------------------------------------------------

  /** Stores a generated object under its name prefix and a suffix picked by the
      server. */
  function CreateObject(s: State, kind: Kind, obj: Object, suffix: string): Reply<Object> {
    var ref := Ref(kind, obj.meta.namespace, obj.meta.generateName + suffix);
    if ref in s.objects then Refused(AlreadyExists)
    else
      var next := obj.(meta := obj.meta.(name := ref.name, uid := s.revision + 1, revision := s.revision + 1));
      Accepted(s.(revision := s.revision + 1, objects := s.objects[ref := next]), next)
  }

  function KeepStatus(body: Body, stored: Body): Body {
    if body.Workload? && stored.Workload? then body.(status := stored.status) else body
  }

  function UpdateObject(s: State, ref: Ref, obj: Object): Reply<Object> {
    if ref !in s.objects then Refused(NotFound)
    else
      var stored := s.objects[ref];
      if stored.meta.revision != obj.meta.revision then Refused(Conflict)
      else
        var next := Object(obj.meta.(uid := stored.meta.uid, revision := s.revision + 1),
                           KeepStatus(obj.body, stored.body));
        Accepted(s.(revision := s.revision + 1, objects := s.objects[ref := next]), next)
  }

  function DeleteObject(s: State, ref: Ref): Reply<()> {
    if ref !in s.objects then Refused(NotFound)
    else Accepted(s.(revision := s.revision + 1, objects := s.objects - {ref}), ())
  }

  // ---------------------------------------------------------------------------
  // Listing
  // ---------------------------------------------------------------------------

  /** The objects of a kind, in a namespace or in all, with the managed label. */
  function Labelled(s: State, kind: Kind, scope: Option<string>, value: string): set<Ref> {
    set ref | ref in s.objects && ref.kind == kind && (scope.Some? ==> ref.namespace == scope.value)
              && Carries(s.objects[ref].meta, CONTROLLED_LABEL, value)
  }

  function OwnedRefs(s: State, kind: Kind, scope: Option<string>, value: string, uid: Uid): set<Ref> {
    set ref | ref in Labelled(s, kind, scope, value) && OwnedBy(s.objects[ref].meta, uid)
  }

  /** The order in which the server lists a set of objects: any, but fixed. */
  ghost function Listing(refs: set<Ref>): seq<Ref> {
    if refs == {} then [] else var ref :| ref in refs; [ref] + Listing(refs - {ref})
  }

  /** The listed objects with an owner reference to `uid`, in listing order. */
  function OwnedItems(s: State, items: seq<Ref>, uid: Uid): seq<Ref> {
    if items == [] then []
    else if items[0] in s.objects && OwnedBy(s.objects[items[0]].meta, uid) then
      [items[0]] + OwnedItems(s, items[1..], uid)
    else OwnedItems(s, items[1..], uid)
  }

  ghost function ListOwned(s: State, kind: Kind, scope: Option<string>, value: string, uid: Uid): seq<Ref> {
    OwnedItems(s, Listing(Labelled(s, kind, scope, value)), uid)
  }

  ghost predicate NoRepeats(refs: seq<Ref>) {
    forall i, j | 0 <= i < j < |refs| :: refs[i] != refs[j]
  }

  lemma {:induction false} ListingIsEnumeration(refs: set<Ref>)
    ensures NoRepeats(Listing(refs))
    ensures forall r :: r in Listing(refs) <==> r in refs
  {
    if refs != {} {
      var rest := refs - {Listing(refs)[0]};
      assert Listing(refs) == [Listing(refs)[0]] + Listing(rest);
      ListingIsEnumeration(rest);
    }
  }

  lemma {:induction false} OwnedItemsAreThoseOwned(s: State, items: seq<Ref>, uid: Uid)
    ensures forall r :: r in OwnedItems(s, items, uid) <==>
            r in items && r in s.objects && OwnedBy(s.objects[r].meta, uid)
    ensures NoRepeats(items) ==> NoRepeats(OwnedItems(s, items, uid))
  {
    if items != [] {
      OwnedItemsAreThoseOwned(s, items[1..], uid);
      assert items == [items[0]] + items[1..];
      if NoRepeats(items) {
        assert NoRepeats(items[1..]);
        assert items[0] !in items[1..];
      }
    }
  }

  /** The owner lists are enumerations of the owned, labelled objects. */
  lemma ListOwnedIsOwnedRefs(s: State, kind: Kind, scope: Option<string>, value: string, uid: Uid)
    ensures NoRepeats(ListOwned(s, kind, scope, value, uid))
    ensures forall r :: r in ListOwned(s, kind, scope, value, uid) <==> r in OwnedRefs(s, kind, scope, value, uid)
    ensures |ListOwned(s, kind, scope, value, uid)| == |OwnedRefs(s, kind, scope, value, uid)|
  {
    var labelled := Labelled(s, kind, scope, value);
    ListingIsEnumeration(labelled);
    OwnedItemsAreThoseOwned(s, Listing(labelled), uid);
    SizeOfEnumeration(ListOwned(s, kind, scope, value, uid), OwnedRefs(s, kind, scope, value, uid));
  }

  lemma {:induction false} SizeOfEnumeration(refs: seq<Ref>, members: set<Ref>)
    requires NoRepeats(refs) && forall r :: r in refs <==> r in members
    ensures |refs| == |members|
  {
    if refs == [] {
      assert members == {};
    } else {
      var rest := members - {refs[0]};
      assert refs == [refs[0]] + refs[1..];
      assert refs[0] !in refs[1..];
      SizeOfEnumeration(refs[1..], rest);
      assert members == rest + {refs[0]};
    }
  }

  /** A list of one element is the list of the one owned object. */
  lemma SingleOwned(s: State, kind: Kind, scope: Option<string>, value: string, uid: Uid, ref: Ref)
    ensures ListOwned(s, kind, scope, value, uid) == [ref] <==> OwnedRefs(s, kind, scope, value, uid) == {ref}
    ensures ListOwned(s, kind, scope, value, uid) == [] <==> OwnedRefs(s, kind, scope, value, uid) == {}
  {
    ListOwnedIsOwnedRefs(s, kind, scope, value, uid);
    var owned := ListOwned(s, kind, scope, value, uid);
    if OwnedRefs(s, kind, scope, value, uid) == {ref} {
      assert |owned| == 1 && owned[0] in owned;
    }
    if owned == [ref] {
      assert forall r :: r in OwnedRefs(s, kind, scope, value, uid) <==> r == ref;
    }
  }

  /** The filter loop shared by all the owner lists. */
  method FilterOwned(s: State, items: seq<Ref>, uid: Uid) returns (owned: seq<Ref>)
    requires forall r | r in items :: r in s.objects
    ensures owned == OwnedItems(s, items, uid)
  {
    owned := [];
    for i := 0 to |items|
      invariant owned + OwnedItems(s, items[i..], uid) == OwnedItems(s, items, uid)
    {
      var mine := IsOwnedByRefUid(s.objects[items[i]].meta, uid);
      assert items[i..][1..] == items[i + 1..];
      if mine {
        owned := owned + [items[i]];
      }
    }
  }
}
