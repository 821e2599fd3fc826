/** Marking a DataPlane as not provisioned, by a loop that overwrites entries of the
    status in place instead of setting the condition as a ControlPlane does. */
module DataPlaneStatus {
  import opened Wrappers
  import opened Conditions

  const PROVISIONED := "Provisioned"

  predicate SameCondition(a: Condition, b: Condition) {
    a.ctype == b.ctype && VerdictOf(a) == VerdictOf(b)
  }

  /** Entries of the type of `c` that say something else, overwritten by `c`. */
  function Overwritten(conditions: seq<Condition>, c: Condition): (r: seq<Condition>)
    ensures |r| == |conditions|
    ensures forall i | 0 <= i < |r| :: r[i].ctype == conditions[i].ctype
  {
    if conditions == [] then []
    else
      [if conditions[0].ctype == c.ctype && !SameCondition(c, conditions[0]) then c else conditions[0]]
      + Overwritten(conditions[1..], c)
  }

  function Marked(conditions: seq<Condition>, c: Condition): seq<Condition> {
    if Find(conditions, c.ctype).None? then conditions + [c] else Overwritten(conditions, c)
  }

  lemma {:induction false} OverwrittenMeaning(conditions: seq<Condition>, c: Condition)
    ensures Meaning(Overwritten(conditions, c)) ==
            if Find(conditions, c.ctype).Some? then Meaning(conditions)[c.ctype := VerdictOf(c)]
            else Meaning(conditions)
  {
    if conditions != [] {
      var rest := conditions[1..];
      OverwrittenMeaning(rest, c);
      assert Overwritten(conditions, c)[1..] == Overwritten(rest, c);
      MeaningIsFind(rest, c.ctype);
    }
  }

  lemma {:induction false} OverwrittenAt(conditions: seq<Condition>, c: Condition, i: nat)
    requires i < |conditions|
    ensures Overwritten(conditions, c)[i] ==
            if conditions[i].ctype == c.ctype && !SameCondition(c, conditions[i]) then c else conditions[i]
  {
    if i > 0 {
      OverwrittenAt(conditions[1..], c, i - 1);
    }
  }

  /** The list is touched exactly if some entry of the type says something else. */
  lemma OverwrittenChanges(conditions: seq<Condition>, c: Condition)
    ensures Overwritten(conditions, c) != conditions <==>
            exists i | 0 <= i < |conditions| :: conditions[i].ctype == c.ctype && !SameCondition(c, conditions[i])
  {
    hide Overwritten;
    forall i | 0 <= i < |conditions| {
      OverwrittenAt(conditions, c, i);
    }
  }

  /** On lists without repeated types the loop refines setting the condition: the
      meaning is the same, and the list is touched exactly when a comparison of the
      two statuses would ask for a write. */
  lemma MarkingRefinesPut(conditions: seq<Condition>, c: Condition)
    requires Unique(conditions)
    ensures Unique(Marked(conditions, c))
    ensures Meaning(Marked(conditions, c)) == Meaning(Put(conditions, c))
    ensures Marked(conditions, c) != conditions <==> NeedsUpdate(conditions, Marked(conditions, c))
    ensures NeedsUpdate(conditions, Marked(conditions, c)) <==> NeedsUpdate(conditions, Put(conditions, c))
  {
    var marked := Marked(conditions, c);
    PutMeaning(conditions, c);
    OverwrittenMeaning(conditions, c);
    FindIsMember(conditions, c.ctype);
    MeaningIsFind(conditions, c.ctype);
    if Find(conditions, c.ctype).None? {
      AppendMeaning(conditions, c);
      assert |marked| != |conditions|;
    } else {
      OneOfAType(conditions, c);
    }
    NeedsUpdateIsDifference(conditions, marked);
    NeedsUpdateIsDifference(conditions, Put(conditions, c));
  }

  lemma OneOfAType(conditions: seq<Condition>, c: Condition)
    requires Unique(conditions) && Find(conditions, c.ctype).Some?
    ensures Overwritten(conditions, c) == conditions <==> VerdictOf(Find(conditions, c.ctype).value) == VerdictOf(c)
  {
    hide Overwritten, Find;
    OverwrittenChanges(conditions, c);
    FindIsMember(conditions, c.ctype);
    forall i | 0 <= i < |conditions| && conditions[i].ctype == c.ctype
      ensures conditions[i] == Find(conditions, c.ctype).value
    {
      UniqueFindsEach(conditions, i);
    }
  }

  lemma FoundIsFind(conditions: seq<Condition>, ctype: string)
    ensures Find(conditions, ctype).Some? <==> exists i | 0 <= i < |conditions| :: conditions[i].ctype == ctype
  {
    FindIsMember(conditions, ctype);
  }

  class DataPlane {
    var generation: int
    var conditions: seq<Condition>

    constructor (generation: int, conditions: seq<Condition>)
      ensures this.generation == generation && this.conditions == conditions
    {
      this.generation, this.conditions := generation, conditions;
    }

    /** `shouldUpdate` asks for a write of the status. */
    method EnsureIsMarkedNotProvisioned(reason: string, message: string, now: int) returns (shouldUpdate: bool)
      modifies this`conditions
      ensures var c := Condition(PROVISIONED, StatusFalse, reason, message, generation, now);
              && conditions == Marked(old(conditions), c)
              && (shouldUpdate <==> conditions != old(conditions))
              && (Unique(old(conditions)) ==> (shouldUpdate <==> NeedsUpdate(old(conditions), conditions)))
    {
      hide Overwritten, Find, Meaning, NeedsUpdate;
      ghost var before := conditions;
      var c := Condition(PROVISIONED, StatusFalse, reason, message, generation, now);
      var conditionFound := false;
      shouldUpdate := false;
      for i := 0 to |conditions|
        invariant |conditions| == |before|
        invariant forall k | 0 <= k < i :: conditions[k] == Overwritten(before, c)[k]
        invariant forall k | i <= k < |before| :: conditions[k] == before[k]
        invariant conditionFound <==> exists k | 0 <= k < i :: before[k].ctype == PROVISIONED
        invariant shouldUpdate <==>
                    exists k | 0 <= k < i :: before[k].ctype == PROVISIONED && !SameCondition(c, before[k])
      {
        OverwrittenAt(before, c, i);
        if conditions[i].ctype == PROVISIONED {
          conditionFound := true;
          if !SameCondition(c, conditions[i]) {
            conditions := conditions[i := c];
            shouldUpdate := true;
          }
        }
      }
      assert conditions == Overwritten(before, c);
      FoundIsFind(before, PROVISIONED);
      OverwrittenChanges(before, c);
      if !conditionFound {
        conditions := conditions + [c];
        shouldUpdate := true;
      }
      if Unique(before) {
        MarkingRefinesPut(before, c);
      }
    }
  }
}
