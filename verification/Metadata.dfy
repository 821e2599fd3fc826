/** Object metadata: finalizer lists, owner references and labels. */
module Metadata {
  import opened Wrappers

  type Uid = nat

  const CONTROLLED_LABEL := "apisix.apache.org/apisix-operator"
  const CONTROL_PLANE_VALUE := "controlplane"
  const DATA_PLANE_VALUE := "dataplane"
  const CONTROL_PLANE_KIND := "ControlPlane"

  datatype OwnerRef = OwnerRef(kind: string, name: string, uid: Uid)

  datatype Meta = Meta(
    namespace: string,
    name: string,
    generateName: string,
    uid: Uid,
    revision: nat,
    labels: map<string, string>,
    owners: seq<OwnerRef>,
    finalizers: seq<string>,
    deletion: Option<int>)

  // ---------------------------------------------------------------------------
  // Finalizers
  // ---------------------------------------------------------------------------

  function WithFinalizer(finalizers: seq<string>, wanted: string): seq<string> {
    if wanted in finalizers then finalizers else finalizers + [wanted]
  }

  /** The list with every wanted finalizer that was missing appended in turn. */
  function WithFinalizers(finalizers: seq<string>, wanted: seq<string>): seq<string>
    decreases |wanted|
  {
    if wanted == [] then finalizers else WithFinalizers(WithFinalizer(finalizers, wanted[0]), wanted[1..])
  }

  function Without(finalizers: seq<string>, unwanted: string): seq<string> {
    if finalizers == [] then []
    else if finalizers[0] == unwanted then Without(finalizers[1..], unwanted)
    else [finalizers[0]] + Without(finalizers[1..], unwanted)
  }

  /** What was there stays there, in front; everything wanted is there; and the
      list changes exactly when something was missing. */
  lemma {:induction false} WithFinalizersAddsMissing(finalizers: seq<string>, wanted: seq<string>)
    ensures finalizers <= WithFinalizers(finalizers, wanted)
    ensures forall f :: f in WithFinalizers(finalizers, wanted) <==> f in finalizers || f in wanted
    ensures WithFinalizers(finalizers, wanted) == finalizers <==> forall f | f in wanted :: f in finalizers
    decreases |wanted|
  {
    if wanted != [] {
      var first := WithFinalizer(finalizers, wanted[0]);
      WithFinalizersAddsMissing(first, wanted[1..]);
      assert wanted == [wanted[0]] + wanted[1..];
      assert wanted[0] in first;
      if wanted[0] !in finalizers {
        assert |first| <= |WithFinalizers(finalizers, wanted)|;
      }
    }
  }

  /** Exactly the unwanted finalizer goes; the others keep their order, so the
      list is unchanged exactly when the unwanted one was absent. */
  lemma {:induction false} WithoutRemovesOne(finalizers: seq<string>, unwanted: string)
    ensures forall f :: f in Without(finalizers, unwanted) <==> f in finalizers && f != unwanted
    ensures |Without(finalizers, unwanted)| <= |finalizers|
    ensures unwanted !in finalizers <==> Without(finalizers, unwanted) == finalizers
  {
    if finalizers != [] {
      WithoutRemovesOne(finalizers[1..], unwanted);
      assert finalizers == [finalizers[0]] + finalizers[1..];
    }
  }

  lemma {:induction false} WithoutConcat(a: seq<string>, b: seq<string>, unwanted: string)
    ensures Without(a + b, unwanted) == Without(a, unwanted) + Without(b, unwanted)
  {
    if a == [] {
      assert a + b == b;
    } else {
      assert (a + b)[1..] == a[1..] + b;
      WithoutConcat(a[1..], b, unwanted);
    }
  }

  method EnsureFinalizers(finalizers: seq<string>, wanted: seq<string>) returns (updated: seq<string>, added: bool)
    ensures updated == WithFinalizers(finalizers, wanted)
    ensures added <==> exists f | f in wanted :: f !in finalizers
  {
    updated, added := finalizers, false;
    for i := 0 to |wanted|
      invariant WithFinalizers(updated, wanted[i..]) == WithFinalizers(finalizers, wanted)
      invariant finalizers <= updated
      invariant added <==> updated != finalizers
    {
      var present := false;
      for j := 0 to |updated|
        invariant present <==> wanted[i] in updated[..j]
      {
        if updated[j] == wanted[i] {
          present := true;
          break;
        }
      }
      assert updated[..|updated|] == updated;
      assert present <==> wanted[i] in updated;
      assert wanted[i..][1..] == wanted[i + 1..];
      if !present {
        updated := updated + [wanted[i]];
        added := true;
      }
    }
    WithFinalizersAddsMissing(finalizers, wanted);
  }

  method RemoveFinalizer(finalizers: seq<string>, unwanted: string) returns (updated: seq<string>, changed: bool)
    ensures updated == Without(finalizers, unwanted)
    ensures changed <==> unwanted in finalizers
  {
    var kept: seq<string> := [];
    changed := false;
    for i := 0 to |finalizers|
      invariant kept == Without(finalizers[..i], unwanted)
      invariant changed <==> unwanted in finalizers[..i]
    {
      WithoutConcat(finalizers[..i], [finalizers[i]], unwanted);
      assert finalizers[..i + 1] == finalizers[..i] + [finalizers[i]];
      if finalizers[i] == unwanted {
        changed := true;
        continue;
      }
      kept := kept + [finalizers[i]];
    }
    assert finalizers[..|finalizers|] == finalizers;
    WithoutRemovesOne(finalizers, unwanted);
    updated := if changed then kept else finalizers;
  }

  // ---------------------------------------------------------------------------
  // Owners and labels
  // ---------------------------------------------------------------------------

  predicate OwnedBy(meta: Meta, uid: Uid) {
    exists ref | ref in meta.owners :: ref.uid == uid
  }

  predicate Carries(meta: Meta, key: string, value: string) {
    key in meta.labels && meta.labels[key] == value
  }

  function WithOwner(owners: seq<OwnerRef>, owner: OwnerRef): seq<OwnerRef> {
    if exists ref | ref in owners :: ref.uid == owner.uid then owners else owners + [owner]
  }

  /** The generated owners and labels, over whatever else is on the object. */
  function Repaired(existing: Meta, generated: Meta): Meta {
    existing.(owners := generated.owners, labels := existing.labels + generated.labels)
  }

  /** A repair is needed iff the owners or one of the generated labels differ. */
  predicate NeedsRepair(existing: Meta, generated: Meta) {
    || existing.owners != generated.owners
    || exists l | l in generated.labels :: !Carries(existing, l, generated.labels[l])
  }

  /** Repairing reports a change iff one is needed, keeps foreign labels, and
      leaves nothing to repair. */
  lemma RepairSettles(existing: Meta, generated: Meta)
    ensures NeedsRepair(existing, generated) <==> Repaired(existing, generated) != existing
    ensures !NeedsRepair(Repaired(existing, generated), generated)
    ensures forall l | l in existing.labels && l !in generated.labels ::
              Carries(Repaired(existing, generated), l, existing.labels[l])
  {
    var repaired := Repaired(existing, generated);
    if !NeedsRepair(existing, generated) {
      assert repaired.labels == existing.labels;
    }
  }

  method SetOwner(owners: seq<OwnerRef>, owner: OwnerRef) returns (updated: seq<OwnerRef>)
    ensures updated == WithOwner(owners, owner)
    ensures owners <= updated <= owners + [owner]
    ensures updated == owners <==> exists ref | ref in owners :: ref.uid == owner.uid
    ensures exists ref | ref in updated :: ref.uid == owner.uid
  {
    var found := false;
    for i := 0 to |owners|
      invariant found <==> exists k | 0 <= k < i :: owners[k].uid == owner.uid
    {
      if owners[i].uid == owner.uid {
        found := true;
      }
    }
    updated := owners;
    if !found {
      updated := owners + [owner];
      assert updated[|owners|] == owner;
    }
  }

  method IsOwnedByRefUid(meta: Meta, uid: Uid) returns (owned: bool)
    ensures owned <==> OwnedBy(meta, uid)
  {
    for i := 0 to |meta.owners|
      invariant forall k | 0 <= k < i :: meta.owners[k].uid != uid
    {
      if meta.owners[i].uid == uid {
        return true;
      }
    }
    return false;
  }

  /** Labels are written into a copied map; writing into the copy of an absent
      map would abort, which is the caller's obligation here. */
  method EnsureObjectMetaIsUpdated(existing: Meta, generated: Meta) returns (toUpdate: bool, updated: Meta)
    requires existing.labels != map[] || generated.labels == map[]
    ensures updated == Repaired(existing, generated)
    ensures toUpdate <==> NeedsRepair(existing, generated)
  {
    var labels := existing.labels;
    var todo := generated.labels.Keys;
    while todo != {}
      invariant todo <= generated.labels.Keys
      invariant labels.Keys == existing.labels.Keys + (generated.labels.Keys - todo)
      invariant forall l | l in labels ::
                  labels[l] == if l in generated.labels.Keys - todo then generated.labels[l] else existing.labels[l]
      decreases todo
    {
      var l :| l in todo;
      labels := labels[l := generated.labels[l]];
      todo := todo - {l};
    }
    assert labels == existing.labels + generated.labels;
    updated := existing.(owners := generated.owners, labels := labels);
    toUpdate := existing.owners != updated.owners || existing.labels != updated.labels;
    RepairSettles(existing, generated);
  }
}
