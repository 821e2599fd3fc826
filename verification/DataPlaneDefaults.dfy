/** The defaults of a DataPlane's environment: appended in whatever order the map
    of defaults is visited, then sorted by an unstable sort. */
module DataPlaneDefaults {
  import opened Wrappers
  import opened EnvVars
  import opened EnvOrder

  const APISIX_DATABASE := "APISIX_DATABASE"

  const DEFAULTS: map<string, string> := map[
    "APISIX_ADMIN_ACCESS_LOG" := "/dev/stdout",
    "APISIX_ADMIN_ERROR_LOG" := "/dev/stderr",
    "APISIX_ADMIN_GUI_ACCESS_LOG" := "/dev/stdout",
    "APISIX_ADMIN_GUI_ERROR_LOG" := "/dev/stderr",
    "APISIX_CLUSTER_LISTEN" := "off",
    APISIX_DATABASE := "off",
    "APISIX_NGINX_WORKER_PROCESSES" := "2",
    "APISIX_PLUGINS" := "bundled",
    "APISIX_PORTAL_API_ACCESS_LOG" := "/dev/stdout",
    "APISIX_PORTAL_API_ERROR_LOG" := "/dev/stderr",
    "APISIX_PORT_MAPS" := "80:8000, 443:8443",
    "APISIX_PROXY_ACCESS_LOG" := "/dev/stdout",
    "APISIX_PROXY_ERROR_LOG" := "/dev/stderr",
    "APISIX_PROXY_LISTEN" := "0.0.0.0:9000 reuseport backlog=16384, 0.0.0.0:9443 http2 ssl reuseport backlog=16384",
    "APISIX_STATUS_LISTEN" := "0.0.0.0:9100",
    "APISIX_ADMIN_LISTEN" := "0.0.0.0:9444 ssl reuseport backlog=16384",
    "APISIX_ADMIN_SSL_CERT" := "/var/cluster-certificate/tls.crt",
    "APISIX_ADMIN_SSL_CERT_KEY" := "/var/cluster-certificate/tls.key",
    "APISIX_NGINX_ADMIN_SSL_CLIENT_CERTIFICATE" := "/var/cluster-certificate/ca.crt",
    "APISIX_NGINX_ADMIN_SSL_VERIFY_CLIENT" := "on",
    "APISIX_NGINX_ADMIN_SSL_VERIFY_DEPTH" := "3"]

  // ---------------------------------------------------------------------------
  // The outcome of defaulting
  // ---------------------------------------------------------------------------

  predicate Present(env: seq<EnvVar>, name: string) {
    exists v | v in env :: v.name == name
  }

  function DefaultVar(name: string): EnvVar
    requires name in DEFAULTS
  {
    Literal(name, DEFAULTS[name])
  }

  /** Exactly the defaults that the user did not set. */
  function AbsentDefaults(env: seq<EnvVar>, names: set<string>): set<EnvVar>
    requires names <= DEFAULTS.Keys
  {
    set name | name in names && !Present(env, name) :: DefaultVar(name)
  }

  /** The possible outcomes: all user entries and the absent defaults, sorted. */
  ghost predicate IsDefaulting(env: seq<EnvVar>, out: seq<EnvVar>) {
    Sorted(out) && multiset(out) == multiset(env) + multiset(AbsentDefaults(env, DEFAULTS.Keys))
  }

  lemma OutcomeExists(env: seq<EnvVar>) returns (out: seq<EnvVar>)
    ensures IsDefaulting(env, out)
  {
    out := ArrangementExists(multiset(env) + multiset(AbsentDefaults(env, DEFAULTS.Keys)));
  }

  lemma Members(env: seq<EnvVar>, out: seq<EnvVar>)
    requires IsDefaulting(env, out)
    ensures forall v :: v in out <==> v in env || v in AbsentDefaults(env, DEFAULTS.Keys)
  {
    forall v
      ensures v in out <==> v in env || v in AbsentDefaults(env, DEFAULTS.Keys)
    {
      assert v in out <==> v in multiset(out);
      assert v in env <==> v in multiset(env);
    }
  }

  /** All that goes into the outcome. */
  function Entries(env: seq<EnvVar>): set<EnvVar> {
    (set v | v in env) + AbsentDefaults(env, DEFAULTS.Keys)
  }

  /** Among the user entries and the absent defaults no two different ones share name
      and value run together. */
  ghost predicate Twinless(env: seq<EnvVar>) {
    forall v, u | v in Entries(env) && u in Entries(env) && Text(v) == Text(u) :: v == u
  }

  lemma TwinlessOutcome(env: seq<EnvVar>, out: seq<EnvVar>)
    requires IsDefaulting(env, out)
    ensures Twinless(env) <==> NoTwins(out)
  {
    hide Text, AbsentDefaults, IsDefaulting;
    Members(env, out);
    assert forall v :: v in out <==> v in Entries(env);
  }

  /** However the map is visited and whatever the sort does with equal keys, there is
      one outcome exactly if the entries are twinless. */
  lemma OneOutcome(env: seq<EnvVar>, out: seq<EnvVar>)
    requires IsDefaulting(env, out)
    ensures Twinless(env) <==> forall other | IsDefaulting(env, other) :: other == out
  {
    hide Sorted, NoTwins, Twinless, AbsentDefaults;
    TwinlessOutcome(env, out);
    TwinsAreAmbiguous(out);
    if forall other | IsDefaulting(env, other) :: other == out {
      forall b | Sorted(b) && multiset(b) == multiset(out)
        ensures b == out
      {
        assert IsDefaulting(env, b);
      }
    }
  }

  /** In an outcome no default is absent, so its own outcomes are its sortings. */
  lemma OutcomesOfOutcome(env: seq<EnvVar>, once: seq<EnvVar>)
    requires IsDefaulting(env, once)
    ensures forall twice :: IsDefaulting(once, twice) <==> Sorted(twice) && multiset(twice) == multiset(once)
  {
    hide Sorted;
    Members(env, once);
    forall name | name in DEFAULTS
      ensures Present(once, name)
    {
      if !Present(env, name) {
        assert DefaultVar(name) in AbsentDefaults(env, DEFAULTS.Keys);
      } else {
        var v :| v in env && v.name == name;
        assert v in once;
      }
    }
    assert AbsentDefaults(once, DEFAULTS.Keys) == {};
    assert multiset(once) + multiset(AbsentDefaults(once, DEFAULTS.Keys)) == multiset(once);
  }

  /** Defaulting what was defaulted changes nothing, again exactly if the entries that
      the user gave, with the defaults that were absent, are twinless. */
  lemma DefaultingIsIdempotent(env: seq<EnvVar>, once: seq<EnvVar>)
    requires IsDefaulting(env, once)
    ensures IsDefaulting(once, once)
    ensures Twinless(env) <==> forall twice | IsDefaulting(once, twice) :: twice == once
  {
    hide NoTwins, Twinless, AbsentDefaults;
    TwinlessOutcome(env, once);
    TwinsAreAmbiguous(once);
    OutcomesOfOutcome(env, once);
    if forall twice | IsDefaulting(once, twice) :: twice == once {
      forall b | Sorted(b) && multiset(b) == multiset(once)
        ensures b == once
      {
        assert IsDefaulting(once, b);
      }
    }
  }

  ghost predicate UniqueNames(env: seq<EnvVar>) {
    forall i, j | 0 <= i < j < |env| :: env[i].name != env[j].name
  }

  /** User entries survive as they are, and no default comes beside them. */
  lemma UserValuesSurvive(env: seq<EnvVar>, out: seq<EnvVar>, v: EnvVar)
    requires IsDefaulting(env, out) && UniqueNames(env) && v in out
    ensures Present(env, v.name) ==> v in env
    ensures ValueByName(out, v.name) == v.value && SourceByName(out, v.name) == v.valueFrom
  {
    Members(env, out);
    forall u | u in out && u.name == v.name
      ensures u == v
    {
      if u in env && v in env {
        var i :| 0 <= i < |env| && env[i] == u;
        var j :| 0 <= j < |env| && env[j] == v;
      }
    }
    OnlyEntryIsFound(out, v);
  }

  lemma {:induction false} OnlyEntryIsFound(env: seq<EnvVar>, v: EnvVar)
    requires v in env && forall u | u in env && u.name == v.name :: u == v
    ensures ValueByName(env, v.name) == v.value && SourceByName(env, v.name) == v.valueFrom
  {
    if env[0].name == v.name {
      assert env[0] in env;
    } else {
      assert env == [env[0]] + env[1..];
      OnlyEntryIsFound(env[1..], v);
    }
  }

  // ---------------------------------------------------------------------------
  // The loops of the source
  // ---------------------------------------------------------------------------

  method IsEnvVarPresent(wanted: EnvVar, env: seq<EnvVar>) returns (found: bool)
    ensures found <==> Present(env, wanted.name)
  {
    found := false;
    for i := 0 to |env|
      invariant found <==> exists k | 0 <= k < i :: env[k].name == wanted.name
    {
      if wanted.name == env[i].name {
        found := true;
      }
    }
  }

  /** Looking at one more default: it counts iff the user did not set it. */
  lemma OneMoreDefault(env: seq<EnvVar>, seen: set<string>, name: string)
    requires seen <= DEFAULTS.Keys && name in DEFAULTS.Keys && name !in seen
    ensures var before, after := AbsentDefaults(env, seen), AbsentDefaults(env, seen + {name});
            if Present(env, name) then after == before
            else DefaultVar(name) !in before && after == before + {DefaultVar(name)}
  {
    var before, after := AbsentDefaults(env, seen), AbsentDefaults(env, seen + {name});
    if Present(env, name) {
      assert after == before;
    } else {
      assert DefaultVar(name).name == name;
      assert after == before + {DefaultVar(name)};
    }
  }

  lemma PresentSoFar(env: seq<EnvVar>, sofar: seq<EnvVar>, seen: set<string>, name: string)
    requires seen <= DEFAULTS.Keys && name !in seen
    requires multiset(sofar) == multiset(env) + multiset(AbsentDefaults(env, seen))
    ensures Present(sofar, name) <==> Present(env, name)
  {
    forall v
      ensures v in sofar <==> v in env || v in AbsentDefaults(env, seen)
    {
      assert v in sofar <==> v in multiset(sofar);
      assert v in env <==> v in multiset(env);
    }
  }

  class DataPlaneOptions {
    var env: seq<EnvVar>
    var envFrom: seq<EnvFromSource>

    constructor (env: seq<EnvVar>, envFrom: seq<EnvFromSource>)
      ensures this.env == env && this.envFrom == envFrom
    {
      this.env, this.envFrom := env, envFrom;
    }

    /** Visits the defaults in any order, then sorts. */
    method SetDataPlaneDefaults()
      modifies this`env
      ensures IsDefaulting(old(env), env)
      ensures forall i, j | 0 <= i < j < |env| ::
                Ascending(env[i].name + env[i].value, env[j].name + env[j].value)
    {
      hide Before, Ascending;
      var todo := DEFAULTS.Keys;
      assert AbsentDefaults(env, DEFAULTS.Keys - todo) == {};
      while todo != {}
        invariant todo <= DEFAULTS.Keys
        invariant multiset(env) == multiset(old(env)) + multiset(AbsentDefaults(old(env), DEFAULTS.Keys - todo))
        decreases todo
      {
        var name :| name in todo;
        ghost var seen := DEFAULTS.Keys - todo;
        OneMoreDefault(old(env), seen, name);
        PresentSoFar(old(env), env, seen, name);
        todo := todo - {name};
        assert DEFAULTS.Keys - todo == seen + {name};
        var default := Literal(name, DEFAULTS[name]);
        var present := IsEnvVarPresent(default, env);
        if !present {
          env := env + [default];
        }
      }
      assert DEFAULTS.Keys - todo == DEFAULTS.Keys;
      var sortable := new SortableEnvVars(env);
      sortable.Sort();
      env := sortable.env;
    }
  }
}
