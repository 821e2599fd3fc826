/** Status conditions: a list that the API declares to be a map keyed by type.
    `Meaning` is that map without the bookkeeping members (generation and
    transition time); the decision whether a status has to be written is an
    equality of meanings. */
module Conditions {
  import opened Wrappers

  datatype Status = StatusTrue | StatusFalse | StatusUnknown

  datatype Condition = Condition(
    ctype: string, status: Status, reason: string, message: string, generation: int, time: int)

  datatype Verdict = Verdict(status: Status, reason: string, message: string)

  const READY := "Ready"
  const DEPENDENCIES_NOT_READY := "DependenciesNotReady"
  const RESOURCE_READY := "ResourceReady"
  const DEPENDENCIES_NOT_READY_MESSAGE := "There are other conditions that are not yet ready"

  function NewCondition(ctype: string, status: Status, reason: string, message: string, now: int): Condition {
    Condition(ctype, status, reason, message, 0, now)
  }

  function VerdictOf(c: Condition): Verdict {
    Verdict(c.status, c.reason, c.message)
  }

  /** No two entries have the same type. */
  ghost predicate Unique(conditions: seq<Condition>) {
    forall i, j | 0 <= i < j < |conditions| :: conditions[i].ctype != conditions[j].ctype
  }

  function Find(conditions: seq<Condition>, ctype: string): Option<Condition> {
    if conditions == [] then None
    else if conditions[0].ctype == ctype then Some(conditions[0])
    else Find(conditions[1..], ctype)
  }

  /** What the list says, per type; the first entry of a type counts. */
  function Meaning(conditions: seq<Condition>): map<string, Verdict> {
    if conditions == [] then map[]
    else Meaning(conditions[1..])[conditions[0].ctype := VerdictOf(conditions[0])]
  }

  function Others(conditions: seq<Condition>, ctype: string): seq<Condition> {
    if conditions == [] then []
    else if conditions[0].ctype == ctype then Others(conditions[1..], ctype)
    else [conditions[0]] + Others(conditions[1..], ctype)
  }

  /** The list with the entries of the type of `c` replaced by `c`, put last. */
  function Put(conditions: seq<Condition>, c: Condition): seq<Condition> {
    Others(conditions, c.ctype) + [c]
  }

  predicate AllOthersTrue(conditions: seq<Condition>) {
    forall c | c in conditions :: c.ctype != READY ==> c.status == StatusTrue
  }

  function NotReadyYet(now: int): Condition {
    NewCondition(READY, StatusFalse, DEPENDENCIES_NOT_READY, DEPENDENCIES_NOT_READY_MESSAGE, now)
  }

  function WithReadyReset(conditions: seq<Condition>, now: int): seq<Condition> {
    Put(conditions, NotReadyYet(now))
  }

  function WithReadyEvaluated(conditions: seq<Condition>, now: int): seq<Condition> {
    Put(conditions, if AllOthersTrue(conditions) then NewCondition(READY, StatusTrue, RESOURCE_READY, "", now)
                    else NotReadyYet(now))
  }

  /** The comparison that decides on a status write. */
  predicate NeedsUpdate(current: seq<Condition>, updated: seq<Condition>) {
    || |current| != |updated|
    || exists i | 0 <= i < |current| ::
         var u := Find(updated, current[i].ctype);
         u.None? || VerdictOf(u.value) != VerdictOf(current[i])
  }

  // ---------------------------------------------------------------------------
  // Lists and their meaning
  // ---------------------------------------------------------------------------

  lemma {:induction false} MeaningIsFind(conditions: seq<Condition>, ctype: string)
    ensures ctype in Meaning(conditions) <==> Find(conditions, ctype).Some?
    ensures ctype in Meaning(conditions) ==>
              Meaning(conditions)[ctype] == VerdictOf(Find(conditions, ctype).value)
  {
    if conditions != [] {
      MeaningIsFind(conditions[1..], ctype);
    }
  }

  lemma {:induction false} FindIsMember(conditions: seq<Condition>, ctype: string)
    ensures Find(conditions, ctype).Some? <==> exists c :: c in conditions && c.ctype == ctype
    ensures Find(conditions, ctype).Some? ==>
              Find(conditions, ctype).value in conditions && Find(conditions, ctype).value.ctype == ctype
  {
    if conditions != [] {
      FindIsMember(conditions[1..], ctype);
      assert conditions == [conditions[0]] + conditions[1..];
    }
  }

  lemma {:induction false} UniqueFindsEach(conditions: seq<Condition>, i: nat)
    requires Unique(conditions) && i < |conditions|
    ensures Find(conditions, conditions[i].ctype) == Some(conditions[i])
  {
    if i > 0 {
      assert conditions[0].ctype != conditions[i].ctype;
      UniqueFindsEach(conditions[1..], i - 1);
    }
  }

  lemma {:induction false} MeaningSize(conditions: seq<Condition>)
    requires Unique(conditions)
    ensures |Meaning(conditions).Keys| == |conditions|
  {
    if conditions != [] {
      var rest := conditions[1..];
      MeaningSize(rest);
      MeaningIsFind(rest, conditions[0].ctype);
      FindIsMember(rest, conditions[0].ctype);
      assert Meaning(conditions).Keys == Meaning(rest).Keys + {conditions[0].ctype};
    }
  }

  lemma NoLargerSuperset(a: set<string>, b: set<string>)
    requires a <= b && |b| <= |a|
    ensures a == b
  {
    assert |b| == |a| + |b - a| by {
      assert b == a + (b - a);
    }
  }

  lemma {:induction false} MeaningIsNoLarger(conditions: seq<Condition>)
    ensures |Meaning(conditions).Keys| <= |conditions|
  {
    if conditions != [] {
      MeaningIsNoLarger(conditions[1..]);
      assert Meaning(conditions).Keys == Meaning(conditions[1..]).Keys + {conditions[0].ctype};
    }
  }

  /** If the current list has no repeats, no difference is missed, whatever the
      updated list is. */
  lemma UniqueMissesNothing(current: seq<Condition>, updated: seq<Condition>)
    requires Unique(current) && !NeedsUpdate(current, updated)
    ensures Meaning(current) == Meaning(updated)
  {
    var a, b := Meaning(current), Meaning(updated);
    MeaningSize(current);
    MeaningIsNoLarger(updated);
    forall t | t in a
      ensures t in b && b[t] == a[t]
    {
      MeaningIsFind(current, t);
      MeaningIsFind(updated, t);
      FindIsMember(current, t);
    }
    NoLargerSuperset(a.Keys, b.Keys);
  }

  /** On lists without repeated types, "no write needed" means exactly that both
      lists say the same: no order, no timestamp and no generation matters. */
  lemma NeedsUpdateIsDifference(current: seq<Condition>, updated: seq<Condition>)
    requires Unique(current) && Unique(updated)
    ensures NeedsUpdate(current, updated) <==> Meaning(current) != Meaning(updated)
  {
    if Meaning(current) == Meaning(updated) {
      MeaningSize(current);
      MeaningSize(updated);
      forall i | 0 <= i < |current|
        ensures var u := Find(updated, current[i].ctype); u.Some? && VerdictOf(u.value) == VerdictOf(current[i])
      {
        UniqueFindsEach(current, i);
        MeaningIsFind(current, current[i].ctype);
        MeaningIsFind(updated, current[i].ctype);
      }
    }
    if !NeedsUpdate(current, updated) {
      UniqueMissesNothing(current, updated);
    }
  }

  /** Entries of one type say the same. */
  ghost predicate Agreeing(conditions: seq<Condition>) {
    forall i, j | 0 <= i < j < |conditions| && conditions[i].ctype == conditions[j].ctype ::
      VerdictOf(conditions[i]) == VerdictOf(conditions[j])
  }

  /** Repeats that disagree always ask for a write. */
  lemma DisagreementNeedsUpdate(current: seq<Condition>, updated: seq<Condition>)
    requires !Agreeing(current)
    ensures NeedsUpdate(current, updated)
  {
    hide Find;
    var i, j :| && 0 <= i < j < |current| && current[i].ctype == current[j].ctype
                && VerdictOf(current[i]) != VerdictOf(current[j]);
  }

  /** A type that no entry has. */
  function FreshType(conditions: seq<Condition>): (longer: string)
    ensures forall c | c in conditions :: |c.ctype| < |longer|
  {
    if conditions == [] then "x"
    else
      var rest := FreshType(conditions[1..]);
      assert conditions == [conditions[0]] + conditions[1..];
      conditions[0].ctype + rest
  }

  /** An agreeing list that repeats a type, with the repeated entry replaced by one of
      a new type, passes as unchanged. */
  lemma RepeatsHideAChange(current: seq<Condition>, i: nat, j: nat, c: Condition)
    requires Agreeing(current) && i < j < |current| && current[i].ctype == current[j].ctype
    requires forall d | d in current :: d.ctype != c.ctype
    ensures !NeedsUpdate(current, current[j := c]) && Meaning(current) != Meaning(current[j := c])
  {
    hide Find, Meaning;
    var updated := current[j := c];
    forall k | 0 <= k < |current|
      ensures var u := Find(updated, current[k].ctype); u.Some? && VerdictOf(u.value) == VerdictOf(current[k])
    {
      var t := current[k].ctype;
      FindIsMember(updated, t);
      var at := if k == j then i else k;
      assert updated[at] == current[at] && updated[at] in updated;
      var found := Find(updated, t).value;
      var l :| 0 <= l < |updated| && updated[l] == found;
      assert current[k] in current && l != j;
      assert current[l] == found;
      SameTypeSameVerdict(current, k, l);
    }
    MeaningIsFind(updated, c.ctype);
    FindIsMember(updated, c.ctype);
    MeaningIsFind(current, c.ctype);
    FindIsMember(current, c.ctype);
    assert updated[j] in updated;
  }

  lemma SameTypeSameVerdict(conditions: seq<Condition>, k: nat, l: nat)
    requires Agreeing(conditions) && k < |conditions| && l < |conditions|
    requires conditions[k].ctype == conditions[l].ctype
    ensures VerdictOf(conditions[k]) == VerdictOf(conditions[l])
  {
  }

  /** The comparison can miss a difference exactly if the current list repeats a type
      and its entries of each type agree. */
  lemma NeedsUpdateMissesWithRepeats(current: seq<Condition>)
    ensures (exists updated :: !NeedsUpdate(current, updated) && Meaning(current) != Meaning(updated))
            <==> !Unique(current) && Agreeing(current)
  {
    hide Meaning, NeedsUpdate;
    forall updated: seq<Condition> | !NeedsUpdate(current, updated) && Meaning(current) != Meaning(updated)
      ensures !Unique(current) && Agreeing(current)
    {
      if Unique(current) {
        UniqueMissesNothing(current, updated);
      }
      if !Agreeing(current) {
        DisagreementNeedsUpdate(current, updated);
      }
    }
    if !Unique(current) && Agreeing(current) {
      var i, j :| 0 <= i < j < |current| && current[i].ctype == current[j].ctype;
      var c := Condition(FreshType(current), StatusTrue, "", "", 0, 0);
      RepeatsHideAChange(current, i, j, c);
    }
  }

  /** Said without maps: no write is needed exactly if the lists are equally long and each
      entry has one of its type that says the same. */
  lemma NeedsUpdateIsMismatch(current: seq<Condition>, updated: seq<Condition>)
    requires Unique(current) && Unique(updated)
    ensures !NeedsUpdate(current, updated) <==>
            && |current| == |updated|
            && forall c | c in current ::
                 exists u | u in updated ::
                   u.ctype == c.ctype && u.status == c.status && u.reason == c.reason && u.message == c.message
  {
    hide Unique;
    forall c | c in current
      ensures (exists u | u in updated ::
                 u.ctype == c.ctype && u.status == c.status && u.reason == c.reason && u.message == c.message)
              <==> Find(updated, c.ctype).Some? && VerdictOf(Find(updated, c.ctype).value) == VerdictOf(c)
    {
      FindIsMember(updated, c.ctype);
      if u :| u in updated && u.ctype == c.ctype {
        OneOfEachType(updated, u);
      }
    }
    forall i | 0 <= i < |current|
      ensures current[i] in current
    {
    }
  }

  lemma OneOfEachType(conditions: seq<Condition>, c: Condition)
    requires Unique(conditions) && c in conditions
    ensures Find(conditions, c.ctype) == Some(c)
    ensures forall d | d in conditions && d.ctype == c.ctype :: d == c
  {
    forall d | d in conditions && d.ctype == c.ctype
      ensures Find(conditions, c.ctype) == Some(d)
    {
      var i :| 0 <= i < |conditions| && conditions[i] == d;
      UniqueFindsEach(conditions, i);
    }
  }

  // ---------------------------------------------------------------------------
  // Setting a condition
  // ---------------------------------------------------------------------------

  lemma {:induction false} OthersConcat(a: seq<Condition>, b: seq<Condition>, ctype: string)
    ensures Others(a + b, ctype) == Others(a, ctype) + Others(b, ctype)
  {
    if a == [] {
      assert a + b == b;
    } else {
      assert (a + b)[1..] == a[1..] + b;
      OthersConcat(a[1..], b, ctype);
    }
  }

  lemma {:induction false} OthersMembers(conditions: seq<Condition>, ctype: string)
    ensures forall c :: c in Others(conditions, ctype) <==> c in conditions && c.ctype != ctype
  {
    if conditions != [] {
      OthersMembers(conditions[1..], ctype);
      assert conditions == [conditions[0]] + conditions[1..];
    }
  }

  lemma {:induction false} OthersUnique(conditions: seq<Condition>, ctype: string)
    requires Unique(conditions)
    ensures Unique(Others(conditions, ctype))
  {
    if conditions != [] {
      OthersUnique(conditions[1..], ctype);
      OthersMembers(conditions[1..], ctype);
      var rest := Others(conditions[1..], ctype);
      assert forall i | 0 <= i < |rest| :: rest[i] in conditions[1..];
    }
  }

  lemma {:induction false} OthersMeaning(conditions: seq<Condition>, ctype: string)
    ensures Meaning(Others(conditions, ctype)) == Meaning(conditions) - {ctype}
  {
    if conditions != [] {
      OthersMeaning(conditions[1..], ctype);
      if conditions[0].ctype != ctype {
        assert Others(conditions, ctype)[1..] == Others(conditions[1..], ctype);
      }
    }
  }

  lemma {:induction false} AppendMeaning(conditions: seq<Condition>, c: Condition)
    requires forall d | d in conditions :: d.ctype != c.ctype
    ensures Meaning(conditions + [c]) == Meaning(conditions)[c.ctype := VerdictOf(c)]
  {
    if conditions != [] {
      assert (conditions + [c])[1..] == conditions[1..] + [c];
      AppendMeaning(conditions[1..], c);
    }
  }

  /** Setting a condition updates the meaning at its type and nowhere else, and
      keeps the list a map. */
  lemma PutMeaning(conditions: seq<Condition>, c: Condition)
    ensures Meaning(Put(conditions, c)) == Meaning(conditions)[c.ctype := VerdictOf(c)]
    ensures Unique(conditions) ==> Unique(Put(conditions, c))
  {
    OthersMembers(conditions, c.ctype);
    OthersMeaning(conditions, c.ctype);
    AppendMeaning(Others(conditions, c.ctype), c);
    if Unique(conditions) {
      OthersUnique(conditions, c.ctype);
      var others := Others(conditions, c.ctype);
      assert forall i | 0 <= i < |others| :: others[i] in others;
    }
  }

  lemma {:induction false} FindLast(conditions: seq<Condition>, c: Condition)
    requires forall d | d in conditions :: d.ctype != c.ctype
    ensures Find(conditions + [c], c.ctype) == Some(c)
  {
    if conditions != [] {
      assert (conditions + [c])[1..] == conditions[1..] + [c];
      FindLast(conditions[1..], c);
    }
  }

  /** A condition that was set is the one found, even in a list with repeats. */
  lemma PutIsFound(conditions: seq<Condition>, c: Condition)
    ensures Find(Put(conditions, c), c.ctype) == Some(c)
  {
    OthersMembers(conditions, c.ctype);
    FindLast(Others(conditions, c.ctype), c);
  }

  lemma {:induction false} OthersFind(conditions: seq<Condition>, ctype: string, other: string)
    requires other != ctype
    ensures Find(Others(conditions, ctype), other) == Find(conditions, other)
  {
    if conditions != [] {
      OthersFind(conditions[1..], ctype, other);
      if conditions[0].ctype != ctype {
        assert Others(conditions, ctype)[1..] == Others(conditions[1..], ctype);
      }
    }
  }

  lemma {:induction false} FindPastLast(conditions: seq<Condition>, c: Condition, other: string)
    requires other != c.ctype
    ensures Find(conditions + [c], other) == Find(conditions, other)
  {
    if conditions != [] {
      assert (conditions + [c])[1..] == conditions[1..] + [c];
      FindPastLast(conditions[1..], c, other);
    }
  }

  /** What is found under another type is not touched, even in a list with repeats. */
  lemma PutLeavesOthers(conditions: seq<Condition>, c: Condition, other: string)
    requires other != c.ctype
    ensures Find(Put(conditions, c), other) == Find(conditions, other)
  {
    OthersFind(conditions, c.ctype, other);
    FindPastLast(Others(conditions, c.ctype), c, other);
  }

  /** The reset sets Ready to false, whatever the list was, and leaves the rest. */
  lemma ReadyReset(conditions: seq<Condition>, now: int, other: string)
    ensures var found := Find(WithReadyReset(conditions, now), "Ready");
            && found.Some?
            && VerdictOf(found.value) == Verdict(StatusFalse, "DependenciesNotReady",
                                                 "There are other conditions that are not yet ready")
    ensures other != "Ready" ==> Find(WithReadyReset(conditions, now), other) == Find(conditions, other)
  {
    PutIsFound(conditions, NotReadyYet(now));
    if other != READY {
      PutLeavesOthers(conditions, NotReadyYet(now), other);
    }
  }

  /** All conditions but Ready are true, read off the meaning. */
  predicate AllOthersMeanTrue(m: map<string, Verdict>) {
    forall t | t in m :: t != READY ==> m[t].status == StatusTrue
  }

  lemma AllOthersTrueIsMeaning(conditions: seq<Condition>)
    requires Unique(conditions)
    ensures AllOthersTrue(conditions) <==> AllOthersMeanTrue(Meaning(conditions))
  {
    var m := Meaning(conditions);
    if AllOthersTrue(conditions) {
      forall t | t in m && t != READY
        ensures m[t].status == StatusTrue
      {
        MeaningIsFind(conditions, t);
        FindIsMember(conditions, t);
      }
    }
    if AllOthersMeanTrue(m) {
      forall c | c in conditions && c.ctype != READY
        ensures c.status == StatusTrue
      {
        var i :| 0 <= i < |conditions| && conditions[i] == c;
        UniqueFindsEach(conditions, i);
        MeaningIsFind(conditions, c.ctype);
      }
    }
  }

  function ReadyVerdict(m: map<string, Verdict>): Verdict {
    if AllOthersMeanTrue(m) then Verdict(StatusTrue, RESOURCE_READY, "")
    else Verdict(StatusFalse, DEPENDENCIES_NOT_READY, DEPENDENCIES_NOT_READY_MESSAGE)
  }

  /** After evaluation, Ready is true exactly when every other condition is. */
  lemma ReadyEvaluated(conditions: seq<Condition>, now: int)
    requires Unique(conditions)
    ensures var evaluated := WithReadyEvaluated(conditions, now);
            && Unique(evaluated)
            && Meaning(evaluated) == Meaning(conditions)[READY := ReadyVerdict(Meaning(conditions))]
            && Meaning(evaluated)["Ready"] ==
               (if forall c | c in conditions && c.ctype != "Ready" :: c.status == StatusTrue
                then Verdict(StatusTrue, "ResourceReady", "")
                else Verdict(StatusFalse, "DependenciesNotReady", "There are other conditions that are not yet ready"))
            && (Meaning(evaluated)[READY].status == StatusTrue <==> AllOthersMeanTrue(Meaning(evaluated)))
  {
    AllOthersTrueIsMeaning(conditions);
    var verdict := if AllOthersTrue(conditions) then NewCondition(READY, StatusTrue, RESOURCE_READY, "", now)
                   else NotReadyYet(now);
    PutMeaning(conditions, verdict);
    var m := Meaning(conditions);
    var m' := Meaning(WithReadyEvaluated(conditions, now));
    assert m' == m[READY := ReadyVerdict(m)];
    assert forall t | t != READY :: t in m <==> t in m';
    assert forall t | t in m && t != READY :: m[t] == m'[t];
  }

  // ---------------------------------------------------------------------------
  // The loops of the source, over a resource that carries conditions
  // ---------------------------------------------------------------------------

  class ConditionsAware {
    var conditions: seq<Condition>

    constructor (conditions: seq<Condition>)
      ensures this.conditions == conditions
    {
      this.conditions := conditions;
    }

    method SetCondition(c: Condition)
      modifies this`conditions
      ensures conditions == Put(old(conditions), c)
      ensures conditions != [] && conditions[|conditions| - 1] == c
      ensures forall d | d in conditions :: d == c || (d in old(conditions) && d.ctype != c.ctype)
      ensures forall d | d in old(conditions) && d.ctype != c.ctype :: d in conditions
    {
      OthersMembers(conditions, c.ctype);
      var kept: seq<Condition> := [];
      for i := 0 to |conditions|
        invariant conditions == old(conditions)
        invariant kept == Others(conditions[..i], c.ctype)
      {
        OthersConcat(conditions[..i], [conditions[i]], c.ctype);
        assert conditions[..i + 1] == conditions[..i] + [conditions[i]];
        if conditions[i].ctype != c.ctype {
          kept := kept + [conditions[i]];
        }
      }
      assert conditions[..|conditions|] == conditions;
      conditions := kept + [c];
    }

    method GetCondition(ctype: string) returns (found: Option<Condition>)
      ensures found == Find(conditions, ctype)
    {
      for i := 0 to |conditions|
        invariant Find(conditions, ctype) == Find(conditions[i..], ctype)
      {
        if conditions[i].ctype == ctype {
          return Some(conditions[i]);
        }
        assert conditions[i..][1..] == conditions[i + 1..];
      }
      return None;
    }

    method IsReady() returns (ready: bool)
      ensures ready <==> READY in Meaning(conditions) && Meaning(conditions)[READY].status == StatusTrue
    {
      MeaningIsFind(conditions, READY);
      for i := 0 to |conditions|
        invariant Find(conditions, READY) == Find(conditions[i..], READY)
      {
        if conditions[i].ctype == READY {
          return conditions[i].status == StatusTrue;
        }
        assert conditions[i..][1..] == conditions[i + 1..];
      }
      return false;
    }

    method AreAllConditionsReady() returns (ready: bool)
      ensures ready <==> AllOthersTrue(conditions)
      ensures ready <==> forall c | c in conditions && c.ctype != "Ready" :: c.status == StatusTrue
    {
      for i := 0 to |conditions|
        invariant AllOthersTrue(conditions[..i])
      {
        if conditions[i].ctype != READY && conditions[i].status != StatusTrue {
          assert conditions[i] in conditions;
          return false;
        }
        assert conditions[..i + 1] == conditions[..i] + [conditions[i]];
      }
      assert conditions[..|conditions|] == conditions;
      return true;
    }

    method InitReady(now: int)
      modifies this`conditions
      ensures conditions == WithReadyReset(old(conditions), now)
    {
      SetCondition(NotReadyYet(now));
    }

    method SetReady(now: int)
      modifies this`conditions
      ensures conditions == WithReadyEvaluated(old(conditions), now)
    {
      var ready := AreAllConditionsReady();
      if ready {
        SetCondition(NewCondition(READY, StatusTrue, RESOURCE_READY, "", now));
      } else {
        SetCondition(NotReadyYet(now));
      }
    }
  }

  method StatusNeedsUpdate(current: ConditionsAware, updated: ConditionsAware) returns (needed: bool)
    ensures needed <==> NeedsUpdate(current.conditions, updated.conditions)
    ensures Unique(current.conditions) && Unique(updated.conditions) ==>
              (needed <==> Meaning(current.conditions) != Meaning(updated.conditions))
  {
    if Unique(current.conditions) && Unique(updated.conditions) {
      NeedsUpdateIsDifference(current.conditions, updated.conditions);
    }
    if |current.conditions| != |updated.conditions| {
      return true;
    }
    for i := 0 to |current.conditions|
      invariant forall k | 0 <= k < i ::
                  var u := Find(updated.conditions, current.conditions[k].ctype);
                  u.Some? && VerdictOf(u.value) == VerdictOf(current.conditions[k])
    {
      var c := current.conditions[i];
      var found := updated.GetCondition(c.ctype);
      if found.None? {
        return true;
      }
      var u := found.value;
      if u.reason != c.reason || u.message != c.message || u.status != c.status {
        return true;
      }
    }
    return false;
  }
}
