/** The order in which environment entries are sorted: by name and value run
    together, with a sort that promises nothing about equal keys. */
module EnvOrder {
  import opened EnvVars

  /** Lexicographic order of texts. */
  predicate Before(a: string, b: string) {
    b != "" && (a == "" || a[0] < b[0] || (a[0] == b[0] && Before(a[1..], b[1..])))
  }

  function Text(v: EnvVar): string {
    v.name + v.value
  }

  predicate Less(a: EnvVar, b: EnvVar) {
    Before(Text(a), Text(b))
  }

  lemma {:induction false} BeforeIsTotal(a: string, b: string)
    ensures Before(a, b) || Before(b, a) || a == b
    ensures !(Before(a, b) && Before(b, a)) && !Before(a, a)
  {
    if a != "" && b != "" {
      BeforeIsTotal(a[1..], b[1..]);
      BeforeIsTotal(a[1..], a[1..]);
      assert a == [a[0]] + a[1..] && b == [b[0]] + b[1..];
    } else if a != "" {
      BeforeIsTotal(a[1..], a[1..]);
    }
  }

  lemma {:induction false} BeforeIsTransitive(a: string, b: string, c: string)
    requires !Before(b, a) && !Before(c, b)
    ensures !Before(c, a)
  {
    if a != "" && b != "" && c != "" && a[0] == b[0] == c[0] {
      BeforeIsTransitive(a[1..], b[1..], c[1..]);
    }
  }

  /** The first text is the second one cut short, or has the smaller character where they
      first differ. */
  ghost predicate Ascending(a: string, b: string) {
    a <= b || exists k | 0 <= k < |a| && k < |b| :: a[..k] == b[..k] && a[k] < b[k]
  }

  lemma {:induction false} AscendingIsNotBefore(a: string, b: string)
    ensures !Before(b, a) <==> Ascending(a, b)
  {
    if a != "" && b != "" && a[0] == b[0] {
      AscendingIsNotBefore(a[1..], b[1..]);
      AscendingTails(a, b);
    } else if a != "" && b != "" && a[0] < b[0] {
      assert a[..0] == b[..0];
    }
  }

  lemma AscendingTails(a: string, b: string)
    requires a != "" && b != "" && a[0] == b[0]
    ensures Ascending(a, b) <==> Ascending(a[1..], b[1..])
  {
    assert a == [a[0]] + a[1..] && b == [b[0]] + b[1..];
    if k :| 0 <= k < |a| && k < |b| && a[..k] == b[..k] && a[k] < b[k] {
      assert k > 0 && a[1..][..k - 1] == a[..k][1..] && b[1..][..k - 1] == b[..k][1..];
      assert a[1..][k - 1] < b[1..][k - 1];
    }
    if k :| 0 <= k < |a| - 1 && k < |b| - 1 && a[1..][..k] == b[1..][..k] && a[1..][k] < b[1..][k] {
      assert a[..k + 1] == [a[0]] + a[1..][..k] && b[..k + 1] == [b[0]] + b[1..][..k];
      assert a[k + 1] < b[k + 1];
    }
  }

  /** Sorted means that name and value, run together, ascend. */
  lemma SortedAscends(env: seq<EnvVar>)
    ensures Sorted(env) <==>
            forall i, j | 0 <= i < j < |env| :: Ascending(env[i].name + env[i].value, env[j].name + env[j].value)
  {
    hide Ascending, Before;
    forall i, j | 0 <= i < j < |env|
      ensures !Less(env[j], env[i]) <==> Ascending(env[i].name + env[i].value, env[j].name + env[j].value)
    {
      AscendingIsNotBefore(Text(env[i]), Text(env[j]));
    }
  }

  /** No later entry is less than an earlier one. */
  ghost predicate Sorted(env: seq<EnvVar>) {
    forall i, j | 0 <= i < j < |env| :: !Less(env[j], env[i])
  }

  /** Entries that the order does not tell apart are the same. */
  ghost predicate NoTwins(env: seq<EnvVar>) {
    forall v, u | v in env && u in env && Text(v) == Text(u) :: v == u
  }

  lemma SameHead(a: seq<EnvVar>, b: seq<EnvVar>)
    requires Sorted(a) && Sorted(b) && multiset(a) == multiset(b) && NoTwins(a) && a != [] && b != []
    ensures a[0] == b[0]
  {
    hide Before, Text;
    assert a[0] in multiset(b) && b[0] in multiset(a);
    assert b[0] in a && a[0] in b;
    BeforeIsTotal(Text(a[0]), Text(b[0]));
  }

  lemma TailOfPermutation(a: seq<EnvVar>)
    requires a != []
    ensures multiset(a[1..]) == multiset(a) - multiset{a[0]}
  {
    assert a == [a[0]] + a[1..];
  }

  lemma TailKeepsOrder(a: seq<EnvVar>)
    requires a != []
    ensures Sorted(a) ==> Sorted(a[1..])
    ensures NoTwins(a) ==> NoTwins(a[1..])
  {
    hide Less, Text;
    assert forall v | v in a[1..] :: v in a;
  }

  /** Without twins, the sorted arrangement of given entries is unique. */
  lemma {:induction false} SortedIsUnique(a: seq<EnvVar>, b: seq<EnvVar>)
    requires Sorted(a) && Sorted(b) && multiset(a) == multiset(b) && NoTwins(a)
    ensures a == b
  {
    hide Sorted, NoTwins;
    assert |multiset(a)| == |multiset(b)|;
    if a != [] {
      SameHead(a, b);
      TailOfPermutation(a);
      TailOfPermutation(b);
      TailKeepsOrder(a);
      TailKeepsOrder(b);
      SortedIsUnique(a[1..], b[1..]);
      assert a == [a[0]] + a[1..] && b == [b[0]] + b[1..];
    }
  }

  /** Puts an entry before the first one that it is less than. */
  function Inserted(env: seq<EnvVar>, v: EnvVar): seq<EnvVar> {
    if env == [] || Less(v, env[0]) then [v] + env else [env[0]] + Inserted(env[1..], v)
  }

  lemma SortedBehind(v: EnvVar, env: seq<EnvVar>)
    requires Sorted(env) && forall u | u in env :: !Less(u, v)
    ensures Sorted([v] + env)
  {
    hide Less;
  }

  lemma HeadIsLeast(env: seq<EnvVar>, v: EnvVar)
    requires Sorted(env) && env != [] && !Less(env[0], v)
    ensures forall u | u in env :: !Less(u, v)
  {
    hide Less;
    forall u | u in env
      ensures !Less(u, v)
    {
      var k :| 0 <= k < |env| && env[k] == u;
      if k > 0 {
        NotLessIsTransitive(v, env[0], u);
      }
    }
  }

  lemma {:induction false} InsertedIsPermutation(env: seq<EnvVar>, v: EnvVar)
    ensures multiset(Inserted(env, v)) == multiset(env) + multiset{v}
  {
    hide Less;
    if env != [] {
      InsertedIsPermutation(env[1..], v);
      assert env == [env[0]] + env[1..];
    }
  }

  lemma {:induction false} InsertedIsSorted(env: seq<EnvVar>, v: EnvVar)
    requires Sorted(env)
    ensures Sorted(Inserted(env, v))
  {
    hide Less, Sorted;
    if env == [] {
      SortedBehind(v, env);
    } else if Less(v, env[0]) {
      LessIsOneWay(v, env[0]);
      HeadIsLeast(env, v);
      SortedBehind(v, env);
    } else {
      TailKeepsOrder(env);
      InsertedIsSorted(env[1..], v);
      forall u | u in Inserted(env[1..], v)
        ensures !Less(u, env[0])
      {
        InsertedIsPermutation(env[1..], v);
        assert u in multiset(env[1..]) + multiset{v};
        NoneBeforeHead(env, u);
      }
      SortedBehind(env[0], Inserted(env[1..], v));
    }
  }

  lemma NoneBeforeHead(env: seq<EnvVar>, u: EnvVar)
    requires Sorted(env) && env != []
    ensures u in env[1..] ==> !Less(u, env[0])
  {
    hide Less;
  }

  /** Any entries can be arranged. */
  lemma {:induction false} ArrangementExists(entries: multiset<EnvVar>) returns (env: seq<EnvVar>)
    ensures Sorted(env) && multiset(env) == entries
  {
    if entries == multiset{} {
      env := [];
    } else {
      var v :| v in entries;
      var rest := ArrangementExists(entries - multiset{v});
      InsertedIsSorted(rest, v);
      InsertedIsPermutation(rest, v);
      env := Inserted(rest, v);
    }
  }

  function Swapped(env: seq<EnvVar>, i: nat, j: nat): seq<EnvVar>
    requires i < |env| && j < |env|
  {
    env[i := env[j]][j := env[i]]
  }

  lemma SwappedIsPermutation(env: seq<EnvVar>, i: nat, j: nat)
    requires i < |env| && j < |env|
    ensures multiset(Swapped(env, i, j)) == multiset(env)
  {
  }

  /** Two different entries of the same key may stand either way. */
  lemma TwinsMaySwap(a: seq<EnvVar>, i: nat, j: nat)
    requires Sorted(a) && i < |a| && j < |a| && Text(a[i]) == Text(a[j]) && a[i] != a[j]
    ensures Sorted(Swapped(a, i, j)) && multiset(Swapped(a, i, j)) == multiset(a) && Swapped(a, i, j) != a
  {
    hide Before, Text;
    var b := Swapped(a, i, j);
    SwappedIsPermutation(a, i, j);
    assert forall k | 0 <= k < |a| :: Text(b[k]) == Text(a[k]);
    assert forall k, l | 0 <= k < l < |a| :: Less(b[l], b[k]) <==> Less(a[l], a[k]);
    assert b[i] == a[j];
  }

  /** An unstable sort has one possible result exactly if there are no twins. */
  lemma TwinsAreAmbiguous(a: seq<EnvVar>)
    requires Sorted(a)
    ensures NoTwins(a) <==> forall b | Sorted(b) && multiset(b) == multiset(a) :: b == a
  {
    hide Sorted, Text;
    if NoTwins(a) {
      forall b | Sorted(b) && multiset(b) == multiset(a)
        ensures b == a
      {
        SortedIsUnique(a, b);
      }
    } else {
      var v, u :| v in a && u in a && Text(v) == Text(u) && v != u;
      var i :| 0 <= i < |a| && a[i] == v;
      var j :| 0 <= j < |a| && a[j] == u;
      TwinsMaySwap(a, i, j);
    }
  }

  // ---------------------------------------------------------------------------
  // Sorting by comparisons and swaps
  // ---------------------------------------------------------------------------

  /** A list that is sorted in place through the three operations of a sortable. */
  class SortableEnvVars {
    var env: seq<EnvVar>

    constructor (env: seq<EnvVar>)
      ensures this.env == env
    {
      this.env := env;
    }

    method Precedes(i: nat, j: nat) returns (less: bool)
      requires i < |env| && j < |env|
      ensures less <==> Less(env[i], env[j])
    {
      less := Before(env[i].name + env[i].value, env[j].name + env[j].value);
    }

    method Swap(i: nat, j: nat)
      requires i < |env| && j < |env|
      modifies this
      ensures env == Swapped(old(env), i, j) && multiset(env) == multiset(old(env))
    {
      SwappedIsPermutation(env, i, j);
      env := env[i := env[j]][j := env[i]];
    }

    /** Some sort; callers rely on nothing but what is ensured here. */
    method Sort()
      modifies this
      ensures Sorted(env) && multiset(env) == multiset(old(env))
      ensures forall i, j | 0 <= i < j < |env| ::
                Ascending(env[i].name + env[i].value, env[j].name + env[j].value)
    {
      hide Less, Ascending;
      var i := 0;
      while i < |env|
        invariant 0 <= i <= |env|
        invariant Sorted(env[..i]) && multiset(env) == multiset(old(env))
      {
        Insert(i);
        i := i + 1;
      }
      assert env[..|env|] == env;
      SortedAscends(env);
    }

    /** Moves the entry at `i` down into the sorted entries before it. */
    method Insert(i: nat)
      requires i < |env| && Sorted(env[..i])
      modifies this
      ensures |env| == |old(env)| && Sorted(env[..i + 1]) && multiset(env) == multiset(old(env))
    {
      hide Less;
      var j := i;
      ghost var moving := env[i];
      while j > 0
        invariant 0 <= j <= i < |env| == |old(env)| && env[j] == moving
        invariant multiset(env) == multiset(old(env))
        invariant forall k, l | 0 <= k < l <= i && k != j && l != j :: !Less(env[l], env[k])
        invariant forall l | j < l <= i :: !Less(env[l], moving)
      {
        var less := Precedes(j, j - 1);
        if !less {
          break;
        }
        LessIsOneWay(env[j], env[j - 1]);
        Swap(j, j - 1);
        j := j - 1;
      }
      forall k | 0 <= k < j
        ensures !Less(moving, env[k])
      {
        if k < j - 1 {
          NotLessIsTransitive(env[k], env[j - 1], moving);
        }
      }
    }
  }

  lemma LessIsOneWay(a: EnvVar, b: EnvVar)
    requires Less(a, b)
    ensures !Less(b, a)
  {
    BeforeIsTotal(Text(a), Text(b));
  }

  lemma NotLessIsTransitive(a: EnvVar, b: EnvVar, c: EnvVar)
    requires !Less(b, a) && !Less(c, b)
    ensures !Less(c, a)
  {
    BeforeIsTransitive(Text(a), Text(b), Text(c));
  }
}
