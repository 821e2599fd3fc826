/** What defaulting, which sorts all entries, does to the answer of the admission check. */
module DataPlaneRepeats {
  import opened Wrappers
  import opened EnvVars
  import opened EnvOrder
  import opened Cluster
  import opened DataPlaneDefaults
  import opened DataPlaneValidation

  // ---------------------------------------------------------------------------
  // The mode named at most once
  // ---------------------------------------------------------------------------

  /** At most one entry names the mode. */
  ghost predicate NamedOnce(env: seq<EnvVar>) {
    forall i, j | 0 <= i < j < |env| :: !(env[i].name == env[j].name == APISIX_DATABASE)
  }

  lemma {:induction false} SingleEntryScan(store: Store, codec: Codec, namespace: string, env: seq<EnvVar>, i: nat)
    requires NamedOnce(env) && i < |env| && env[i].name == APISIX_DATABASE
    ensures ScanEnv(store, codec, namespace, env) == ScanVar(store, codec, namespace, env[i], NOTHING)
    decreases |env|
  {
    hide ScanVar;
    var front := env[..|env| - 1];
    if i == |env| - 1 {
      assert forall j | 0 <= j < |front| :: front[j].name != APISIX_DATABASE by {
        assert forall j | 0 <= j < |front| :: front[j] == env[j];
      }
      UnnamedScansToNothing(store, codec, namespace, front);
    } else {
      assert front[i] == env[i];
      SingleEntryScan(store, codec, namespace, front, i);
      assert env[|env| - 1].name != APISIX_DATABASE;
      if ScanEnv(store, codec, namespace, front).Scanned? {
        OtherNamesPass(store, codec, namespace, env[|env| - 1], ScanEnv(store, codec, namespace, front).mode);
      }
    }
  }

  lemma CountedTwice(env: seq<EnvVar>, i: nat, j: nat)
    requires i < j < |env| && env[i] == env[j]
    ensures multiset(env)[env[i]] >= 2
  {
    assert env == env[..j] + env[j..];
    assert env[i] in env[..j] && env[j] in env[j..];
    assert multiset(env) == multiset(env[..j]) + multiset(env[j..]);
  }

  lemma CountedOnce(env: seq<EnvVar>, i: nat)
    requires NamedOnce(env) && i < |env| && env[i].name == APISIX_DATABASE
    ensures multiset(env)[env[i]] == 1
  {
    var front, back := env[..i], env[i + 1..];
    assert env == front + [env[i]] + back;
    assert multiset(env) == multiset(front) + multiset{env[i]} + multiset(back);
    assert env[i] !in front && env[i] !in back;
  }

  /** After defaulting exactly one entry names the mode: the user's or the default. */
  lemma DefaultingNamesOnce(env: seq<EnvVar>, out: seq<EnvVar>) returns (i: nat)
    requires IsDefaulting(env, out) && NamedOnce(env)
    ensures NamedOnce(out) && i < |out| && out[i].name == APISIX_DATABASE
    ensures if Names(env) then out[i] in env else out[i] == Literal(APISIX_DATABASE, "off")
  {
    hide Sorted;
    Members(env, out);
    var absent := AbsentDefaults(env, DEFAULTS.Keys);
    var v: EnvVar;
    if Names(env) {
      var k :| 0 <= k < |env| && env[k].name == APISIX_DATABASE;
      v := env[k];
      CountedOnce(env, k);
      assert v !in absent;
    } else {
      v := DefaultVar(APISIX_DATABASE);
      assert v in absent && v !in env;
    }
    assert multiset(out)[v] == 1;
    assert v in out;
    i :| 0 <= i < |out| && out[i] == v;
    forall j, l | 0 <= j < l < |out| && out[j].name == out[l].name == APISIX_DATABASE
      ensures false
    {
      assert out[j] in out && out[l] in out;
      OnlyNamed(env, out[j], v);
      OnlyNamed(env, out[l], v);
      CountedTwice(out, j, l);
    }
  }

  lemma OnlyNamed(env: seq<EnvVar>, u: EnvVar, v: EnvVar)
    requires NamedOnce(env) && u.name == v.name == APISIX_DATABASE
    requires u in env || u in AbsentDefaults(env, DEFAULTS.Keys)
    requires v in env || v in AbsentDefaults(env, DEFAULTS.Keys)
    ensures u == v
  {
    if u in env && v in env {
      var i :| 0 <= i < |env| && env[i] == u;
      var j :| 0 <= j < |env| && env[j] == v;
    }
  }

  /** If at most one entry names the mode, defaulting keeps accepted options accepted,
      however the defaults are visited and sorted. */
  lemma DefaultingKeepsValidity(store: Store, codec: Codec, namespace: string, env: seq<EnvVar>, out: seq<EnvVar>,
                                envFrom: seq<EnvFromSource>)
    requires IsDefaulting(env, out) && NamedOnce(env)
    requires Validated(store, codec, namespace, env, envFrom).None?
    ensures Validated(store, codec, namespace, out, envFrom).None?
  {
    hide IsDefaulting, ScanEnv, ScanEnvFrom;
    var i := DefaultingNamesOnce(env, out);
    SingleEntryScan(store, codec, namespace, out, i);
    if Names(env) {
      var k :| 0 <= k < |env| && env[k] == out[i];
      SingleEntryScan(store, codec, namespace, env, k);
    }
  }

  lemma {:induction false} BeforeSkipsPrefix(prefix: string, a: string, b: string)
    ensures Before(prefix + a, prefix + b) <==> Before(a, b)
  {
    if prefix == "" {
      assert prefix + a == a && prefix + b == b;
    } else {
      assert (prefix + a)[1..] == prefix[1..] + a && (prefix + b)[1..] == prefix[1..] + b;
      BeforeSkipsPrefix(prefix[1..], a, b);
    }
  }

  // ---------------------------------------------------------------------------
  // The mode named by a literal
  // ---------------------------------------------------------------------------

  /** Some entry names the mode with a literal; entries with a source have no value. */
  predicate SomeLiteral(env: seq<EnvVar>) {
    exists v | v in env :: v.name == APISIX_DATABASE && v.value != ""
  }

  /** "off" is among the literals, and none comes after it. */
  ghost predicate LiteralsPass(env: seq<EnvVar>) {
    && (exists v | v in env :: v.name == APISIX_DATABASE && v.value == "off")
    && (forall v | v in env && v.name == APISIX_DATABASE :: Ascending(v.value, "off"))
  }

  lemma LastIsGreatest(out: seq<EnvVar>, i: int, v: EnvVar)
    requires Sorted(out) && LastEntry(out, i) && v in out && v.name == APISIX_DATABASE
    ensures !Before(out[i].value, v.value)
  {
    var k :| 0 <= k < |out| && out[k] == v;
    BeforeSkipsPrefix(APISIX_DATABASE, out[i].value, v.value);
    if k == i {
      BeforeIsTotal(v.value, v.value);
    }
  }

  /** With a literal mode among several the sort puts a literal last, after all entries
      that refer to a key: the defaulted options are accepted iff "off" is among the
      literals, none is greater, and all references exist. */
  lemma SortingDecides(store: Store, codec: Codec, namespace: string, env: seq<EnvVar>, out: seq<EnvVar>,
                       envFrom: seq<EnvFromSource>)
    requires IsDefaulting(env, out) && SomeLiteral(env)
    ensures Validated(store, codec, namespace, out, envFrom).None? <==>
            (forall v | v in env :: Exists(store, namespace, v)) && LiteralsPass(env)
  {
    hide IsDefaulting, ScanEnv, Before, Ascending;
    forall v | v in env {
      AscendingIsNotBefore(v.value, "off");
    }
    SortedOutcome(env, out);
    Members(env, out);
    if v :| v in env && !Exists(store, namespace, v) {
      assert v in out;
      DanglingFails(store, codec, namespace, out, v);
      return;
    }
    NoDefaultMode(env, out);
    var i := LastEntryExists(out);
    assert out[i] in out && out[i] in env;
    var literal :| literal in env && literal.name == APISIX_DATABASE && literal.value != "";
    LastIsGreatest(out, i, literal);
    EmptyComesFirst(out[i].value, literal.value);
    DefaultsExist(store, namespace, env, out);
    LastEntryDecides(store, codec, namespace, out, i);
    forall v | v in env && v.name == APISIX_DATABASE
      ensures !Before(out[i].value, v.value)
    {
      LastIsGreatest(out, i, v);
    }
    if exists v | v in env :: v.name == APISIX_DATABASE && v.value == "off" {
      BeforeIsTotal("off", out[i].value);
    }
  }

  lemma EmptyComesFirst(a: string, b: string)
    requires b != "" && !Before(a, b)
    ensures a != ""
  {
  }

  lemma DefaultsExist(store: Store, namespace: string, env: seq<EnvVar>, out: seq<EnvVar>)
    requires IsDefaulting(env, out) && forall v | v in env :: Exists(store, namespace, v)
    ensures forall v | v in out :: Exists(store, namespace, v)
  {
    Members(env, out);
  }

  lemma SortedOutcome(env: seq<EnvVar>, out: seq<EnvVar>)
    requires IsDefaulting(env, out)
    ensures Sorted(out)
  {
  }

  lemma NoDefaultMode(env: seq<EnvVar>, out: seq<EnvVar>)
    requires IsDefaulting(env, out) && Names(env)
    ensures Names(out) && forall v | v in out && v.name == APISIX_DATABASE :: v in env
  {
    Members(env, out);
    var u :| u in env && u.name == APISIX_DATABASE;
    assert u in out;
  }

  // ---------------------------------------------------------------------------
  // The mode named by references alone
  // ---------------------------------------------------------------------------

  /** The entry names the mode and refers to a key. */
  predicate Refers(v: EnvVar) {
    && v.name == APISIX_DATABASE && v.value == "" && v.valueFrom.Some?
    && (v.valueFrom.value.configMapKeyRef.Some? || v.valueFrom.value.secretKeyRef.Some?)
  }

  predicate LastReference(env: seq<EnvVar>, i: int) {
    0 <= i < |env| && Refers(env[i]) && forall j | i < j < |env| :: !Refers(env[j])
  }

  lemma ReferenceScans(store: Store, codec: Codec, namespace: string, v: EnvVar, mode: Mode)
    requires v.name == APISIX_DATABASE ==> v.value == ""
    ensures ScanVar(store, codec, namespace, v, mode) ==
            if Refers(v) then ScanVar(store, codec, namespace, v, NOTHING) else Scanned(mode)
  {
  }

  /** Without a literal the last reference decides the scan; without any nothing is found. */
  lemma {:induction false} LastReferenceDecides(store: Store, codec: Codec, namespace: string, env: seq<EnvVar>)
    requires !SomeLiteral(env) && forall v | v in env :: Exists(store, namespace, v)
    ensures forall i | LastReference(env, i) ::
              ScanEnv(store, codec, namespace, env) == ScanVar(store, codec, namespace, env[i], NOTHING)
    ensures (forall v | v in env :: !Refers(v)) ==> ScanEnv(store, codec, namespace, env) == Scanned(NOTHING)
  {
    hide Exists, ScanVar, Refers;
    if env != [] {
      var front, last := env[..|env| - 1], env[|env| - 1];
      assert last in env && forall v | v in front :: v in env;
      LastReferenceDecides(store, codec, namespace, front);
      ExistingNeverFail(store, codec, namespace, front);
      ReferenceScans(store, codec, namespace, last, ScanEnv(store, codec, namespace, front).mode);
      forall i | LastReference(env, i) && i < |env| - 1
        ensures LastReference(front, i) && front[i] == env[i]
      {
      }
    }
  }

  lemma {:induction false} LastReferenceExists(env: seq<EnvVar>) returns (i: nat)
    requires exists v | v in env :: Refers(v)
    ensures LastReference(env, i)
  {
    hide Refers;
    var front := env[..|env| - 1];
    assert env == front + [env[|env| - 1]];
    if Refers(env[|env| - 1]) {
      i := |env| - 1;
    } else {
      i := LastReferenceExists(front);
    }
  }

  /** The reference, if it is the last, leads to an accepted mode, or to none while the
      sources are accepted. */
  predicate ReferencePasses(store: Store, codec: Codec, namespace: string, envFrom: seq<EnvFromSource>, v: EnvVar) {
    var scan := ScanVar(store, codec, namespace, v, NOTHING);
    if scan.Failed? || scan.mode.found then Verdict(scan).None? else SourcesPass(store, codec, namespace, envFrom)
  }

  /** References have equal keys, so each may come to be the last one. */
  lemma AnyReferenceMayBeLast(env: seq<EnvVar>, out: seq<EnvVar>, v: EnvVar) returns (other: seq<EnvVar>, i: nat)
    requires IsDefaulting(env, out) && v in out && Refers(v)
    ensures IsDefaulting(env, other) && LastReference(other, i) && other[i] == v
  {
    hide AbsentDefaults;
    i := LastReferenceExists(out);
    var k :| 0 <= k < |out| && out[k] == v;
    assert Text(out[k]) == Text(out[i]);
    if out[k] == out[i] {
      other := out;
    } else {
      TwinsMaySwap(out, k, i);
      other := Swapped(out, k, i);
    }
  }

  lemma NoLiteralComesIn(env: seq<EnvVar>, out: seq<EnvVar>)
    requires IsDefaulting(env, out) && Names(env) && !SomeLiteral(env)
    ensures !SomeLiteral(out) && forall v :: (v in out && Refers(v)) <==> (v in env && Refers(v))
  {
    hide IsDefaulting, AbsentDefaults;
    NoDefaultMode(env, out);
    Members(env, out);
  }

  lemma OutcomeAccepted(store: Store, codec: Codec, namespace: string, out: seq<EnvVar>, envFrom: seq<EnvFromSource>)
    requires !SomeLiteral(out) && forall v | v in out :: Exists(store, namespace, v)
    ensures var accepted := Validated(store, codec, namespace, out, envFrom).None?;
            && (forall i | LastReference(out, i) ::
                  accepted <==> ReferencePasses(store, codec, namespace, envFrom, out[i]))
            && ((forall v | v in out :: !Refers(v)) ==> (accepted <==> SourcesPass(store, codec, namespace, envFrom)))
  {
    hide Exists, ScanVar, ScanEnv, ScanEnvFrom, Refers, SomeLiteral;
    LastReferenceDecides(store, codec, namespace, out);
  }

  /** However the defaults are visited and sorted, the outcome is accepted. */
  ghost predicate AlwaysAccepted(store: Store, codec: Codec, namespace: string, env: seq<EnvVar>,
                                 envFrom: seq<EnvFromSource>) {
    forall out | IsDefaulting(env, out) :: Validated(store, codec, namespace, out, envFrom).None?
  }

  /** Every reference passes, or, if there is none, the sources do. */
  predicate ReferencesPass(store: Store, codec: Codec, namespace: string, env: seq<EnvVar>,
                           envFrom: seq<EnvFromSource>) {
    && (forall v | v in env && Refers(v) :: ReferencePasses(store, codec, namespace, envFrom, v))
    && ((forall v | v in env :: !Refers(v)) ==> SourcesPass(store, codec, namespace, envFrom))
  }

  /** With the mode named by references alone, the sort may put any of them last. */
  lemma ReferencesDecide(store: Store, codec: Codec, namespace: string, env: seq<EnvVar>, envFrom: seq<EnvFromSource>)
    requires Names(env) && !SomeLiteral(env) && forall v | v in env :: Exists(store, namespace, v)
    ensures AlwaysAccepted(store, codec, namespace, env, envFrom) <==>
            ReferencesPass(store, codec, namespace, env, envFrom)
  {
    hide IsDefaulting, Validated, Exists, Names, SomeLiteral, Refers, ReferencePasses, SourcesPass;
    forall out | IsDefaulting(env, out)
      ensures !SomeLiteral(out) && forall v | v in out :: Exists(store, namespace, v)
      ensures forall v :: (v in out && Refers(v)) <==> (v in env && Refers(v))
    {
      NoLiteralComesIn(env, out);
      DefaultsExist(store, namespace, env, out);
    }
    var out := OutcomeExists(env);
    OutcomeAccepted(store, codec, namespace, out, envFrom);
    if AlwaysAccepted(store, codec, namespace, env, envFrom) {
      forall v | v in env && Refers(v)
        ensures ReferencePasses(store, codec, namespace, envFrom, v)
      {
        assert v in out;
        var other, i := AnyReferenceMayBeLast(env, out, v);
        OutcomeAccepted(store, codec, namespace, other, envFrom);
      }
    }
    if ReferencesPass(store, codec, namespace, env, envFrom) {
      forall other | IsDefaulting(env, other)
        ensures Validated(store, codec, namespace, other, envFrom).None?
      {
        OutcomeAccepted(store, codec, namespace, other, envFrom);
        if v :| v in other && Refers(v) {
          var i := LastReferenceExists(other);
          assert other[i] in other;
        }
      }
    }
  }

  // ---------------------------------------------------------------------------
  // The theorem
  // ---------------------------------------------------------------------------

  /** For all options: what comes of defaulting is accepted, however the defaults are
      visited and sorted, exactly if no entry names the mode, or all references exist
      and the literals pass, or, without a literal, each single reference does. */
  lemma DefaultingAccepted(store: Store, codec: Codec, namespace: string, env: seq<EnvVar>,
                           envFrom: seq<EnvFromSource>)
    ensures AlwaysAccepted(store, codec, namespace, env, envFrom) <==>
            || !Names(env)
            || (&& (forall v | v in env :: Exists(store, namespace, v))
                && if SomeLiteral(env) then LiteralsPass(env)
                   else ReferencesPass(store, codec, namespace, env, envFrom))
  {
    hide IsDefaulting, Validated, Exists, ReferencesPass, LiteralsPass;
    var out := OutcomeExists(env);
    if !Names(env) {
      forall other | IsDefaulting(env, other)
        ensures Validated(store, codec, namespace, other, envFrom).None?
      {
        UnnamedIsAccepted(store, codec, namespace, env, other, envFrom);
      }
    } else if v :| v in env && !Exists(store, namespace, v) {
      DanglingIsRefused(store, codec, namespace, env, out, envFrom, v);
    } else if SomeLiteral(env) {
      forall other | IsDefaulting(env, other) {
        SortingDecides(store, codec, namespace, env, other, envFrom);
      }
    } else {
      ReferencesDecide(store, codec, namespace, env, envFrom);
    }
  }

  /** The default is the only entry that names the mode. */
  lemma UnnamedIsAccepted(store: Store, codec: Codec, namespace: string, env: seq<EnvVar>, out: seq<EnvVar>,
                          envFrom: seq<EnvFromSource>)
    requires IsDefaulting(env, out) && !Names(env)
    ensures Validated(store, codec, namespace, out, envFrom).None?
  {
    hide IsDefaulting, ScanEnv, ScanEnvFrom;
    var i := DefaultingNamesOnce(env, out);
    SingleEntryScan(store, codec, namespace, out, i);
  }

  lemma DanglingIsRefused(store: Store, codec: Codec, namespace: string, env: seq<EnvVar>, out: seq<EnvVar>,
                          envFrom: seq<EnvFromSource>, v: EnvVar)
    requires IsDefaulting(env, out) && v in env && !Exists(store, namespace, v)
    ensures Validated(store, codec, namespace, out, envFrom).Some?
  {
    hide IsDefaulting, ScanEnv, ScanEnvFrom, Exists;
    Members(env, out);
    DanglingFails(store, codec, namespace, out, v);
  }

  // ---------------------------------------------------------------------------
  // What is refused after it was accepted
  // ---------------------------------------------------------------------------

  /** A literal mode followed by "off" is accepted as given, and still is after
      defaulting exactly if it does not come after "off": "etcd" passes, "postgres" does
      not. */
  lemma OvertakenLiteral(store: Store, codec: Codec, namespace: string, mode: string)
    requires mode != ""
    ensures var env := [Literal("APISIX_DATABASE", mode), Literal("APISIX_DATABASE", "off")];
            && Validated(store, codec, namespace, env, []).None?
            && (AlwaysAccepted(store, codec, namespace, env, []) <==> Ascending(mode, "off"))
    ensures Ascending("etcd", "off") && !Ascending("postgres", "off")
  {
    hide IsDefaulting, ScanEnv, Ascending;
    var env := [Literal(APISIX_DATABASE, mode), Literal(APISIX_DATABASE, "off")];
    LastEntryDecides(store, codec, namespace, env, 1);
    DefaultingAccepted(store, codec, namespace, env, []);
    assert env[0] in env && env[1] in env;
    BeforeIsTotal("off", "off");
    AscendingIsNotBefore("off", "off");
    AscendingIsNotBefore("etcd", "off");
    AscendingIsNotBefore("postgres", "off");
  }

  /** Two keys of one config map, the last "off", are accepted as given, and still are
      after defaulting exactly if the first holds an allowed mode as well. */
  lemma OvertakenReference(codec: Codec, namespace: string, mode: string)
    ensures var store := Store(map[Key(namespace, "m") := map["a" := mode, "b" := "off"]], map[]);
            var env := [KeyOf("a"), KeyOf("b")];
            && Validated(store, codec, namespace, env, []).None?
            && (AlwaysAccepted(store, codec, namespace, env, []) <==> ModeAllowed(mode))
  {
    hide IsDefaulting, ScanEnv;
    var store := Store(map[Key(namespace, "m") := map["a" := mode, "b" := "off"]], map[]);
    var env := [KeyOf("a"), KeyOf("b")];
    LastEntryDecides(store, codec, namespace, env, 1);
    DefaultingAccepted(store, codec, namespace, env, []);
    assert env[0] in env && env[1] in env;
  }

  function KeyOf(key: string): EnvVar {
    Sourced(APISIX_DATABASE, EnvVarSource(None, None, Some(KeySelector("m", key, false)), None))
  }
}
