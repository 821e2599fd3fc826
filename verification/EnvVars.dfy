/** Environment variable lists of a container, and the list rewrites that the
    ControlPlane controller applies to them. Lists may hold several entries of
    one name; lookups read the first one. */
module EnvVars {
  import opened Wrappers

  datatype FieldSelector = FieldSelector(apiVersion: string, fieldPath: string)

  /** A key of a config map or secret; if it is optional, neither need exist. */
  datatype KeySelector = KeySelector(name: string, key: string, optional: bool)

  /** All of a config map or secret, which need not exist if it is optional. */
  datatype SourceSelector = SourceSelector(name: string, optional: bool)

  /** Every member is an independent optional pointer, as in the API type. */
  datatype EnvVarSource = EnvVarSource(
    fieldRef: Option<FieldSelector>,
    resourceFieldRef: Option<string>,
    configMapKeyRef: Option<KeySelector>,
    secretKeyRef: Option<KeySelector>)

  datatype EnvVar = EnvVar(name: string, value: string, valueFrom: Option<EnvVarSource>)

  datatype EnvFromSource = EnvFromSource(
    prefix: string, configMapRef: Option<SourceSelector>, secretRef: Option<SourceSelector>)

  function Literal(name: string, value: string): EnvVar {
    EnvVar(name, value, None)
  }

  function Sourced(name: string, source: EnvVarSource): EnvVar {
    EnvVar(name, "", Some(source))
  }

  /** The value of the first entry called `name`, or the empty string. */
  function ValueByName(env: seq<EnvVar>, name: string): string {
    if env == [] then "" else if env[0].name == name then env[0].value else ValueByName(env[1..], name)
  }

  /** The source of the first entry called `name`, if there is one. */
  function SourceByName(env: seq<EnvVar>, name: string): Option<EnvVarSource> {
    if env == [] then None else if env[0].name == name then env[0].valueFrom else SourceByName(env[1..], name)
  }

  /** The first entry of a name is the one that counts, and without one nothing is found. */
  lemma {:induction false} FirstEntryCounts(env: seq<EnvVar>, i: nat, name: string)
    requires i <= |env| && forall k | 0 <= k < i :: env[k].name != name
    ensures i < |env| && env[i].name == name ==>
              ValueByName(env, name) == env[i].value && SourceByName(env, name) == env[i].valueFrom
    ensures i == |env| ==> ValueByName(env, name) == "" && SourceByName(env, name) == None
  {
    if i > 0 {
      FirstEntryCounts(env[1..], i - 1, name);
    }
  }

  /** The entries whose names are outside `names`, in their order. */
  function Drop(env: seq<EnvVar>, names: set<string>): seq<EnvVar> {
    if env == [] then []
    else if env[0].name in names then Drop(env[1..], names)
    else [env[0]] + Drop(env[1..], names)
  }

  /** All entries of the name of `v` replaced by `v` itself, put last. */
  function Replace(env: seq<EnvVar>, v: EnvVar): seq<EnvVar> {
    Drop(env, {v.name}) + [v]
  }

  lemma {:induction false} DropConcat(a: seq<EnvVar>, b: seq<EnvVar>, names: set<string>)
    ensures Drop(a + b, names) == Drop(a, names) + Drop(b, names)
  {
    if a == [] {
      assert a + b == b;
    } else {
      assert (a + b)[1..] == a[1..] + b;
      DropConcat(a[1..], b, names);
    }
  }

  lemma {:induction false} DropDrop(env: seq<EnvVar>, first: set<string>, second: set<string>)
    ensures Drop(Drop(env, first), second) == Drop(env, first + second)
  {
    if env != [] {
      DropDrop(env[1..], first, second);
      if env[0].name !in first {
        assert Drop(env, first)[1..] == Drop(env[1..], first);
      }
    }
  }

  lemma {:induction false} DropNothing(env: seq<EnvVar>, names: set<string>)
    requires forall i | 0 <= i < |env| :: env[i].name !in names
    ensures Drop(env, names) == env
  {
    if env != [] {
      DropNothing(env[1..], names);
    }
  }

  /** Dropping other names leaves both lookups of a name alone. */
  lemma {:induction false} DropKeepsLookups(env: seq<EnvVar>, names: set<string>, name: string)
    requires name !in names
    ensures ValueByName(Drop(env, names), name) == ValueByName(env, name)
    ensures SourceByName(Drop(env, names), name) == SourceByName(env, name)
  {
    if env != [] {
      DropKeepsLookups(env[1..], names, name);
      if env[0].name !in names {
        assert Drop(env, names)[1..] == Drop(env[1..], names);
      }
    }
  }

  /** A dropped name is looked up as absent. */
  lemma {:induction false} DropRemovesLookups(env: seq<EnvVar>, names: set<string>, name: string)
    requires name in names
    ensures ValueByName(Drop(env, names), name) == ""
    ensures SourceByName(Drop(env, names), name) == None
  {
    if env != [] {
      DropRemovesLookups(env[1..], names, name);
      if env[0].name !in names {
        assert Drop(env, names)[1..] == Drop(env[1..], names);
      }
    }
  }

  /** Entries appended under other names do not shadow a lookup. */
  lemma {:induction false} AppendKeepsLookups(env: seq<EnvVar>, v: EnvVar, name: string)
    requires v.name != name
    ensures ValueByName(env + [v], name) == ValueByName(env, name)
    ensures SourceByName(env + [v], name) == SourceByName(env, name)
  {
    if env != [] {
      assert (env + [v])[1..] == env[1..] + [v];
      AppendKeepsLookups(env[1..], v, name);
    }
  }

  lemma {:induction false} AppendIsFound(env: seq<EnvVar>, v: EnvVar)
    requires forall i | 0 <= i < |env| :: env[i].name != v.name
    ensures ValueByName(env + [v], v.name) == v.value
    ensures SourceByName(env + [v], v.name) == v.valueFrom
  {
    if env != [] {
      assert (env + [v])[1..] == env[1..] + [v];
      AppendIsFound(env[1..], v);
    }
  }

  lemma {:induction false} DropRemovesNames(env: seq<EnvVar>, names: set<string>)
    ensures forall i | 0 <= i < |Drop(env, names)| :: Drop(env, names)[i].name !in names
  {
    if env != [] {
      DropRemovesNames(env[1..], names);
    }
  }

  /** `Replace` sets the lookups of its own name and leaves all others alone. */
  lemma ReplaceLookups(env: seq<EnvVar>, v: EnvVar, name: string)
    ensures ValueByName(Replace(env, v), name) == if name == v.name then v.value else ValueByName(env, name)
    ensures SourceByName(Replace(env, v), name) == if name == v.name then v.valueFrom else SourceByName(env, name)
  {
    if name == v.name {
      DropRemovesNames(env, {v.name});
      AppendIsFound(Drop(env, {v.name}), v);
    } else {
      AppendKeepsLookups(Drop(env, {v.name}), v, name);
      DropKeepsLookups(env, {v.name}, name);
    }
  }

  /** `Replace` only touches entries of its own name. */
  lemma ReplaceDrop(env: seq<EnvVar>, v: EnvVar, names: set<string>)
    requires v.name in names
    ensures Drop(Replace(env, v), names) == Drop(env, names)
  {
    DropConcat(Drop(env, {v.name}), [v], names);
    DropDrop(env, {v.name}, names);
    assert {v.name} + names == names;
    assert Drop([v], names) == [];
  }

  // ---------------------------------------------------------------------------
  // The loops of the source
  // ---------------------------------------------------------------------------

  method EnvValueByName(env: seq<EnvVar>, name: string) returns (value: string)
    ensures value == ValueByName(env, name)
  {
    for i := 0 to |env|
      invariant ValueByName(env, name) == ValueByName(env[i..], name)
    {
      if env[i].name == name {
        return env[i].value;
      }
      assert env[i..][1..] == env[i + 1..];
    }
    return "";
  }

  method EnvVarSourceByName(env: seq<EnvVar>, name: string) returns (source: Option<EnvVarSource>)
    ensures source == SourceByName(env, name)
  {
    for i := 0 to |env|
      invariant SourceByName(env, name) == SourceByName(env[i..], name)
    {
      if env[i].name == name {
        return env[i].valueFrom;
      }
      assert env[i..][1..] == env[i + 1..];
    }
    return None;
  }

  method RejectEnvByName(env: seq<EnvVar>, name: string) returns (kept: seq<EnvVar>)
    ensures kept == Drop(env, {name})
  {
    kept := [];
    for i := 0 to |env|
      invariant kept == Drop(env[..i], {name})
    {
      DropConcat(env[..i], [env[i]], {name});
      assert env[..i + 1] == env[..i] + [env[i]];
      if env[i].name != name {
        kept := kept + [env[i]];
      }
    }
    assert env[..|env|] == env;
  }

  method UpdateEnv(env: seq<EnvVar>, name: string, value: string) returns (updated: seq<EnvVar>)
    ensures updated == Replace(env, Literal(name, value))
  {
    var kept := [];
    for i := 0 to |env|
      invariant kept == Drop(env[..i], {name})
    {
      DropConcat(env[..i], [env[i]], {name});
      assert env[..i + 1] == env[..i] + [env[i]];
      if env[i].name != name {
        kept := kept + [env[i]];
      }
    }
    assert env[..|env|] == env;
    updated := kept + [Literal(name, value)];
  }

  method UpdateEnvSource(env: seq<EnvVar>, name: string, source: EnvVarSource) returns (updated: seq<EnvVar>)
    ensures updated == Replace(env, Sourced(name, source))
  {
    var kept := [];
    for i := 0 to |env|
      invariant kept == Drop(env[..i], {name})
    {
      DropConcat(env[..i], [env[i]], {name});
      assert env[..i + 1] == env[..i] + [env[i]];
      if env[i].name != name {
        kept := kept + [env[i]];
      }
    }
    assert env[..|env|] == env;
    updated := kept + [Sourced(name, source)];
  }
}
