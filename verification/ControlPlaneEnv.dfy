/** The two writers of a ControlPlane's environment: the defaults applied in
    every pass, and the entries that follow the referenced DataPlane. Both
    rewrite one list in place, so what matters is that neither ever has work
    left after itself or after the other: otherwise every pass would write. */
module ControlPlaneEnv {
  import opened Wrappers
  import opened EnvVars

  const POD_NAMESPACE := "POD_NAMESPACE"
  const POD_NAME := "POD_NAME"
  const PUBLISH_SERVICE := "CONTROLLER_PUBLISH_SERVICE"
  const ADMIN_URL := "CONTROLLER_APISIX_ADMIN_URL"
  const CLIENT_CERT := "CONTROLLER_APISIX_ADMIN_TLS_CLIENT_CERT_FILE"
  const CLIENT_KEY := "CONTROLLER_APISIX_ADMIN_TLS_CLIENT_KEY_FILE"
  const CA_CERT := "CONTROLLER_APISIX_ADMIN_CA_CERT_FILE"

  const MANAGED := {POD_NAMESPACE, POD_NAME, PUBLISH_SERVICE, ADMIN_URL, CLIENT_CERT, CLIENT_KEY, CA_CERT}

  function FieldSource(path: string): EnvVarSource {
    EnvVarSource(Some(FieldSelector("v1", path)), None, None, None)
  }

  function PublishService(service: string, namespace: string): string {
    namespace + "/" + service
  }

  function AdminUrl(service: string, namespace: string): string {
    "https://" + service + "." + namespace + ".svc:9444"
  }

  function EnsureSource(env: seq<EnvVar>, name: string, source: EnvVarSource): seq<EnvVar> {
    if SourceByName(env, name) == Some(source) then env else Replace(env, Sourced(name, source))
  }

  function EnsureValue(env: seq<EnvVar>, name: string, value: string): seq<EnvVar> {
    if ValueByName(env, name) == value then env else Replace(env, Literal(name, value))
  }

  function ReplaceUnless(env: seq<EnvVar>, v: EnvVar, kept: set<string>): seq<EnvVar> {
    if v.name in kept then env else Replace(env, v)
  }

  /** The certificate paths, rewritten in every pass without being reported. */
  function WithCertificates(env: seq<EnvVar>, kept: set<string>): seq<EnvVar> {
    var e1 := ReplaceUnless(env, Literal(CLIENT_CERT, "/var/cluster-certificate/tls.crt"), kept);
    var e2 := ReplaceUnless(e1, Literal(CLIENT_KEY, "/var/cluster-certificate/tls.key"), kept);
    ReplaceUnless(e2, Literal(CA_CERT, "/var/cluster-certificate/ca.crt"), kept)
  }

  function WithPodFields(env: seq<EnvVar>): seq<EnvVar> {
    EnsureSource(EnsureSource(env, POD_NAMESPACE, FieldSource("metadata.namespace")),
                 POD_NAME, FieldSource("metadata.name"))
  }

  function WithService(env: seq<EnvVar>, namespace: string, service: string, kept: set<string>): seq<EnvVar> {
    if namespace == "" || service == "" then env
    else
      var e1 := if PUBLISH_SERVICE in kept then env
                else EnsureValue(env, PUBLISH_SERVICE, PublishService(service, namespace));
      if ADMIN_URL in kept then e1 else EnsureValue(e1, ADMIN_URL, AdminUrl(service, namespace))
  }

  /** The list after the defaults; `kept` names the entries not to override. */
  function Defaulted(env: seq<EnvVar>, namespace: string, service: string, kept: set<string>): seq<EnvVar> {
    WithCertificates(WithService(WithPodFields(env), namespace, service, kept), kept)
  }

  /** What the source reports as "nothing changed": the four lookups it compares
      are right. The certificate paths are not among them. */
  predicate DefaultsHold(env: seq<EnvVar>, namespace: string, service: string, kept: set<string>) {
    && SourceByName(env, POD_NAMESPACE) == Some(FieldSource("metadata.namespace"))
    && SourceByName(env, POD_NAME) == Some(FieldSource("metadata.name"))
    && (namespace != "" && service != "" ==>
          && (PUBLISH_SERVICE !in kept ==> ValueByName(env, PUBLISH_SERVICE) == PublishService(service, namespace))
          && (ADMIN_URL !in kept ==> ValueByName(env, ADMIN_URL) == AdminUrl(service, namespace)))
  }

  function RejectIfSet(env: seq<EnvVar>, name: string): seq<EnvVar> {
    if ValueByName(env, name) != "" then Drop(env, {name}) else env
  }

  /** The list after following the DataPlane reference. */
  function Followed(env: seq<EnvVar>, dataPlaneIsSet: bool, namespace: string, service: string): seq<EnvVar> {
    if dataPlaneIsSet then
      EnsureValue(EnsureValue(env, PUBLISH_SERVICE, PublishService(service, namespace)),
                  ADMIN_URL, AdminUrl(service, namespace))
    else
      RejectIfSet(RejectIfSet(env, PUBLISH_SERVICE), ADMIN_URL)
  }

  /** What the second writer reports as "nothing changed". */
  predicate Follows(env: seq<EnvVar>, dataPlaneIsSet: bool, namespace: string, service: string) {
    && ValueByName(env, PUBLISH_SERVICE) == (if dataPlaneIsSet then PublishService(service, namespace) else "")
    && ValueByName(env, ADMIN_URL) == (if dataPlaneIsSet then AdminUrl(service, namespace) else "")
  }

  lemma ManagedNamesDiffer()
    ensures |POD_NAMESPACE| == 13 && |POD_NAME| == 8 && |PUBLISH_SERVICE| == 26 && |ADMIN_URL| == 27
    ensures |CLIENT_CERT| == 44 && |CLIENT_KEY| == 43 && |CA_CERT| == 36
  {
  }

  // ---------------------------------------------------------------------------
  // Normal form of the certificate entries
  // ---------------------------------------------------------------------------

  function CertificateVars(kept: set<string>): seq<EnvVar> {
    (if CLIENT_CERT in kept then [] else [Literal(CLIENT_CERT, "/var/cluster-certificate/tls.crt")]) +
    (if CLIENT_KEY in kept then [] else [Literal(CLIENT_KEY, "/var/cluster-certificate/tls.key")]) +
    (if CA_CERT in kept then [] else [Literal(CA_CERT, "/var/cluster-certificate/ca.crt")])
  }

  /** A block of entries at the end of a list, once in each name of `names`. */
  lemma ReplaceAtEnd(front: seq<EnvVar>, tail: seq<EnvVar>, names: set<string>, v: EnvVar)
    requires forall i | 0 <= i < |tail| :: tail[i].name != v.name
    ensures Replace(Drop(front, names) + tail, v) == Drop(front, names + {v.name}) + (tail + [v])
  {
    DropConcat(Drop(front, names), tail, {v.name});
    DropDrop(front, names, {v.name});
    DropNothing(tail, {v.name});
  }

  lemma CertificatesNormalForm(env: seq<EnvVar>, kept: set<string>)
    ensures WithCertificates(env, kept) ==
            Drop(env, {CLIENT_CERT, CLIENT_KEY, CA_CERT} - kept) + CertificateVars(kept)
  {
    ManagedNamesDiffer();
    var v1 := Literal(CLIENT_CERT, "/var/cluster-certificate/tls.crt");
    var v2 := Literal(CLIENT_KEY, "/var/cluster-certificate/tls.key");
    var v3 := Literal(CA_CERT, "/var/cluster-certificate/ca.crt");
    var n1 := {CLIENT_CERT} - kept;
    var n2 := {CLIENT_CERT, CLIENT_KEY} - kept;
    var t1 := if CLIENT_CERT in kept then [] else [v1];
    var t2 := t1 + if CLIENT_KEY in kept then [] else [v2];
    DropNothing(env, {});
    assert ReplaceUnless(env, v1, kept) == Drop(env, n1) + t1 by {
      ReplaceAtEnd(env, [], {}, v1);
      assert Drop(env, {}) + [] == env;
      assert CLIENT_CERT in kept ==> n1 == {};
      assert CLIENT_CERT !in kept ==> n1 == {} + {CLIENT_CERT};
      assert [] + [v1] == [v1];
    }
    assert ReplaceUnless(Drop(env, n1) + t1, v2, kept) == Drop(env, n2) + t2 by {
      ReplaceAtEnd(env, t1, n1, v2);
      assert CLIENT_KEY in kept ==> n2 == n1;
      assert CLIENT_KEY !in kept ==> n2 == n1 + {CLIENT_KEY};
      assert t1 + [] == t1;
    }
    assert ReplaceUnless(Drop(env, n2) + t2, v3, kept) ==
           Drop(env, {CLIENT_CERT, CLIENT_KEY, CA_CERT} - kept) + CertificateVars(kept) by {
      ReplaceAtEnd(env, t2, n2, v3);
      assert CA_CERT in kept ==> {CLIENT_CERT, CLIENT_KEY, CA_CERT} - kept == n2;
      assert CA_CERT !in kept ==> {CLIENT_CERT, CLIENT_KEY, CA_CERT} - kept == n2 + {CA_CERT};
      assert t2 + [] == t2;
    }
  }

  lemma CertificateVarsNames(kept: set<string>)
    ensures Drop(CertificateVars(kept), {CLIENT_CERT, CLIENT_KEY, CA_CERT} - kept) == []
    ensures forall i | 0 <= i < |CertificateVars(kept)| ::
              CertificateVars(kept)[i].name in {CLIENT_CERT, CLIENT_KEY, CA_CERT}
  {
    var names := {CLIENT_CERT, CLIENT_KEY, CA_CERT} - kept;
    var vars := CertificateVars(kept);
    assert forall i | 0 <= i < |vars| :: vars[i].name in names;
    DropEverything(vars, names);
  }

  lemma {:induction false} DropEverything(env: seq<EnvVar>, names: set<string>)
    requires forall i | 0 <= i < |env| :: env[i].name in names
    ensures Drop(env, names) == []
  {
    if env != [] {
      DropEverything(env[1..], names);
    }
  }

  /** The certificate entries settle after one rewrite, as an exact list. */
  lemma CertificatesIdempotent(env: seq<EnvVar>, kept: set<string>)
    ensures WithCertificates(WithCertificates(env, kept), kept) == WithCertificates(env, kept)
  {
    var names := {CLIENT_CERT, CLIENT_KEY, CA_CERT} - kept;
    CertificatesNormalForm(env, kept);
    CertificatesNormalForm(WithCertificates(env, kept), kept);
    DropConcat(Drop(env, names), CertificateVars(kept), names);
    DropDrop(env, names, names);
    assert names + names == names;
    CertificateVarsNames(kept);
  }

  lemma CertificatesKeepLookups(env: seq<EnvVar>, kept: set<string>, name: string)
    requires name !in {CLIENT_CERT, CLIENT_KEY, CA_CERT}
    ensures ValueByName(WithCertificates(env, kept), name) == ValueByName(env, name)
    ensures SourceByName(WithCertificates(env, kept), name) == SourceByName(env, name)
  {
    var e1 := ReplaceUnless(env, Literal(CLIENT_CERT, "/var/cluster-certificate/tls.crt"), kept);
    var e2 := ReplaceUnless(e1, Literal(CLIENT_KEY, "/var/cluster-certificate/tls.key"), kept);
    ReplaceLookups(env, Literal(CLIENT_CERT, "/var/cluster-certificate/tls.crt"), name);
    ReplaceLookups(e1, Literal(CLIENT_KEY, "/var/cluster-certificate/tls.key"), name);
    ReplaceLookups(e2, Literal(CA_CERT, "/var/cluster-certificate/ca.crt"), name);
  }

  // ---------------------------------------------------------------------------
  // The defaults
  // ---------------------------------------------------------------------------

  lemma PodFieldsLookups(env: seq<EnvVar>, name: string)
    ensures name != POD_NAMESPACE && name != POD_NAME ==>
              ValueByName(WithPodFields(env), name) == ValueByName(env, name)
    ensures SourceByName(WithPodFields(env), POD_NAMESPACE) == Some(FieldSource("metadata.namespace"))
    ensures SourceByName(WithPodFields(env), POD_NAME) == Some(FieldSource("metadata.name"))
  {
    ManagedNamesDiffer();
    var v1 := Sourced(POD_NAMESPACE, FieldSource("metadata.namespace"));
    var v2 := Sourced(POD_NAME, FieldSource("metadata.name"));
    var e1 := EnsureSource(env, POD_NAMESPACE, FieldSource("metadata.namespace"));
    ReplaceLookups(env, v1, name);
    ReplaceLookups(env, v1, POD_NAMESPACE);
    ReplaceLookups(e1, v2, name);
    ReplaceLookups(e1, v2, POD_NAMESPACE);
    ReplaceLookups(e1, v2, POD_NAME);
  }

  lemma EnsureValueLookups(env: seq<EnvVar>, name: string, value: string, other: string)
    ensures ValueByName(EnsureValue(env, name, value), other) ==
            if other == name then value else ValueByName(env, other)
    ensures other != name ==> SourceByName(EnsureValue(env, name, value), other) == SourceByName(env, other)
  {
    ReplaceLookups(env, Literal(name, value), other);
  }

  lemma ServiceLookups(env: seq<EnvVar>, namespace: string, service: string, kept: set<string>)
    ensures SourceByName(WithService(env, namespace, service, kept), POD_NAMESPACE) == SourceByName(env, POD_NAMESPACE)
    ensures SourceByName(WithService(env, namespace, service, kept), POD_NAME) == SourceByName(env, POD_NAME)
    ensures namespace != "" && service != "" && PUBLISH_SERVICE !in kept ==>
              ValueByName(WithService(env, namespace, service, kept), PUBLISH_SERVICE) ==
              PublishService(service, namespace)
    ensures namespace != "" && service != "" && ADMIN_URL !in kept ==>
              ValueByName(WithService(env, namespace, service, kept), ADMIN_URL) == AdminUrl(service, namespace)
  {
    ManagedNamesDiffer();
    var publish, url := PublishService(service, namespace), AdminUrl(service, namespace);
    var e1 := if PUBLISH_SERVICE in kept then env else EnsureValue(env, PUBLISH_SERVICE, publish);
    forall name | name in {POD_NAMESPACE, POD_NAME, PUBLISH_SERVICE, ADMIN_URL}
      ensures ValueByName(EnsureValue(env, PUBLISH_SERVICE, publish), name) ==
              if name == PUBLISH_SERVICE then publish else ValueByName(env, name)
      ensures name != PUBLISH_SERVICE ==>
                SourceByName(EnsureValue(env, PUBLISH_SERVICE, publish), name) == SourceByName(env, name)
      ensures ValueByName(EnsureValue(e1, ADMIN_URL, url), name) ==
              if name == ADMIN_URL then url else ValueByName(e1, name)
      ensures name != ADMIN_URL ==> SourceByName(EnsureValue(e1, ADMIN_URL, url), name) == SourceByName(e1, name)
    {
      EnsureValueLookups(env, PUBLISH_SERVICE, publish, name);
      EnsureValueLookups(e1, ADMIN_URL, url, name);
    }
  }

  /** One application establishes every lookup the source checks. */
  lemma DefaultedHolds(env: seq<EnvVar>, namespace: string, service: string, kept: set<string>)
    ensures DefaultsHold(Defaulted(env, namespace, service, kept), namespace, service, kept)
  {
    ManagedNamesDiffer();
    var e1 := WithPodFields(env);
    var e2 := WithService(e1, namespace, service, kept);
    PodFieldsLookups(env, POD_NAME);
    ServiceLookups(e1, namespace, service, kept);
    CertificatesKeepLookups(e2, kept, POD_NAMESPACE);
    CertificatesKeepLookups(e2, kept, POD_NAME);
    CertificatesKeepLookups(e2, kept, PUBLISH_SERVICE);
    CertificatesKeepLookups(e2, kept, ADMIN_URL);
  }

  /** Where nothing is reported as changed, only the certificate paths move. */
  lemma DefaultedWhenHolding(env: seq<EnvVar>, namespace: string, service: string, kept: set<string>)
    requires DefaultsHold(env, namespace, service, kept)
    ensures Defaulted(env, namespace, service, kept) == WithCertificates(env, kept)
  {
  }

  /** The defaults applied twice give exactly the list of applying them once,
      and the second application reports nothing, for any list and any `kept`. */
  lemma DefaultedIdempotent(env: seq<EnvVar>, namespace: string, service: string, kept: set<string>)
    ensures DefaultsHold(Defaulted(env, namespace, service, kept), namespace, service, kept)
    ensures Defaulted(Defaulted(env, namespace, service, kept), namespace, service, kept) ==
            Defaulted(env, namespace, service, kept)
  {
    DefaultedHolds(env, namespace, service, kept);
    DefaultedWhenHolding(Defaulted(env, namespace, service, kept), namespace, service, kept);
    CertificatesIdempotent(WithService(WithPodFields(env), namespace, service, kept), kept);
  }

  lemma UnlessLookups(env: seq<EnvVar>, v: EnvVar, kept: set<string>, name: string)
    ensures ValueByName(ReplaceUnless(env, v, kept), name) ==
            if name == v.name && name !in kept then v.value else ValueByName(env, name)
  {
    ReplaceLookups(env, v, name);
  }

  lemma CertificateLookups(env: seq<EnvVar>, kept: set<string>, name: string)
    ensures ValueByName(WithCertificates(env, kept), name) ==
            if name in kept then ValueByName(env, name)
            else if name == CLIENT_CERT then "/var/cluster-certificate/tls.crt"
            else if name == CLIENT_KEY then "/var/cluster-certificate/tls.key"
            else if name == CA_CERT then "/var/cluster-certificate/ca.crt"
            else ValueByName(env, name)
  {
    ManagedNamesDiffer();
    var e1 := ReplaceUnless(env, Literal(CLIENT_CERT, "/var/cluster-certificate/tls.crt"), kept);
    var e2 := ReplaceUnless(e1, Literal(CLIENT_KEY, "/var/cluster-certificate/tls.key"), kept);
    UnlessLookups(env, Literal(CLIENT_CERT, "/var/cluster-certificate/tls.crt"), kept, name);
    UnlessLookups(e1, Literal(CLIENT_KEY, "/var/cluster-certificate/tls.key"), kept, name);
    UnlessLookups(e2, Literal(CA_CERT, "/var/cluster-certificate/ca.crt"), kept, name);
  }

  /** What the container finds under each managed name after the defaults. */
  lemma DefaultedLookups(env: seq<EnvVar>, namespace: string, service: string, kept: set<string>)
    ensures var defaulted := Defaulted(env, namespace, service, kept);
            && SourceByName(defaulted, "POD_NAMESPACE") ==
               Some(EnvVarSource(Some(FieldSelector("v1", "metadata.namespace")), None, None, None))
            && SourceByName(defaulted, "POD_NAME") ==
               Some(EnvVarSource(Some(FieldSelector("v1", "metadata.name")), None, None, None))
            && (namespace != "" && service != "" && "CONTROLLER_PUBLISH_SERVICE" !in kept ==>
                  ValueByName(defaulted, "CONTROLLER_PUBLISH_SERVICE") == namespace + "/" + service)
            && (namespace != "" && service != "" && "CONTROLLER_APISIX_ADMIN_URL" !in kept ==>
                  ValueByName(defaulted, "CONTROLLER_APISIX_ADMIN_URL") ==
                  "https://" + service + "." + namespace + ".svc:9444")
            && (forall name | name in {"CONTROLLER_PUBLISH_SERVICE", "CONTROLLER_APISIX_ADMIN_URL"}
                              && (namespace == "" || service == "" || name in kept) ::
                  ValueByName(defaulted, name) == ValueByName(env, name))
            && ("CONTROLLER_APISIX_ADMIN_TLS_CLIENT_CERT_FILE" !in kept ==>
                  ValueByName(defaulted, "CONTROLLER_APISIX_ADMIN_TLS_CLIENT_CERT_FILE") ==
                  "/var/cluster-certificate/tls.crt")
            && ("CONTROLLER_APISIX_ADMIN_TLS_CLIENT_KEY_FILE" !in kept ==>
                  ValueByName(defaulted, "CONTROLLER_APISIX_ADMIN_TLS_CLIENT_KEY_FILE") ==
                  "/var/cluster-certificate/tls.key")
            && ("CONTROLLER_APISIX_ADMIN_CA_CERT_FILE" !in kept ==>
                  ValueByName(defaulted, "CONTROLLER_APISIX_ADMIN_CA_CERT_FILE") == "/var/cluster-certificate/ca.crt")
  {
    hide WithCertificates;
    ManagedNamesDiffer();
    DefaultedHolds(env, namespace, service, kept);
    var before := WithService(WithPodFields(env), namespace, service, kept);
    CertificateLookups(before, kept, CLIENT_CERT);
    CertificateLookups(before, kept, CLIENT_KEY);
    CertificateLookups(before, kept, CA_CERT);
    forall name | name in {PUBLISH_SERVICE, ADMIN_URL} && (namespace == "" || service == "" || name in kept)
      ensures ValueByName(Defaulted(env, namespace, service, kept), name) == ValueByName(env, name)
    {
      PodFieldsLookups(env, name);
      var e1 := WithPodFields(env);
      EnsureValueLookups(e1, PUBLISH_SERVICE, PublishService(service, namespace), name);
      var e2 := if PUBLISH_SERVICE in kept then e1
                else EnsureValue(e1, PUBLISH_SERVICE, PublishService(service, namespace));
      EnsureValueLookups(e2, ADMIN_URL, AdminUrl(service, namespace), name);
      CertificatesKeepLookups(before, kept, name);
    }
  }

  /** What it finds after following the DataPlane: nothing if none is set. */
  lemma FollowedLookups(env: seq<EnvVar>, dataPlaneIsSet: bool, namespace: string, service: string)
    ensures var followed := Followed(env, dataPlaneIsSet, namespace, service);
            && ValueByName(followed, "CONTROLLER_PUBLISH_SERVICE") ==
               (if dataPlaneIsSet then namespace + "/" + service else "")
            && ValueByName(followed, "CONTROLLER_APISIX_ADMIN_URL") ==
               (if dataPlaneIsSet then "https://" + service + "." + namespace + ".svc:9444" else "")
  {
    FollowedSettles(env, dataPlaneIsSet, namespace, service);
  }

  lemma PodFieldsKeepOthers(env: seq<EnvVar>)
    ensures Drop(WithPodFields(env), MANAGED) == Drop(env, MANAGED)
  {
    ReplaceDrop(env, Sourced(POD_NAMESPACE, FieldSource("metadata.namespace")), MANAGED);
    ReplaceDrop(EnsureSource(env, POD_NAMESPACE, FieldSource("metadata.namespace")),
                Sourced(POD_NAME, FieldSource("metadata.name")), MANAGED);
  }

  lemma ServiceKeepsOthers(env: seq<EnvVar>, namespace: string, service: string, kept: set<string>)
    ensures Drop(WithService(env, namespace, service, kept), MANAGED) == Drop(env, MANAGED)
  {
    var publish := Literal(PUBLISH_SERVICE, PublishService(service, namespace));
    var url := Literal(ADMIN_URL, AdminUrl(service, namespace));
    ReplaceDrop(env, publish, MANAGED);
    ReplaceDrop(env, url, MANAGED);
    ReplaceDrop(Replace(env, publish), url, MANAGED);
  }

  /** Entries of any other name keep their content and their order. */
  lemma DefaultedKeepsOthers(env: seq<EnvVar>, namespace: string, service: string, kept: set<string>)
    ensures Drop(Defaulted(env, namespace, service, kept), MANAGED) == Drop(env, MANAGED)
  {
    PodFieldsKeepOthers(env);
    ServiceKeepsOthers(WithPodFields(env), namespace, service, kept);
    CertificatesKeepOthers(WithService(WithPodFields(env), namespace, service, kept), kept);
  }

  lemma CertificatesKeepOthers(env: seq<EnvVar>, kept: set<string>)
    ensures Drop(WithCertificates(env, kept), MANAGED) == Drop(env, MANAGED)
  {
    var v1 := Literal(CLIENT_CERT, "/var/cluster-certificate/tls.crt");
    var v2 := Literal(CLIENT_KEY, "/var/cluster-certificate/tls.key");
    var e1 := ReplaceUnless(env, v1, kept);
    ReplaceDrop(env, v1, MANAGED);
    ReplaceDrop(e1, v2, MANAGED);
    ReplaceDrop(ReplaceUnless(e1, v2, kept), Literal(CA_CERT, "/var/cluster-certificate/ca.crt"), MANAGED);
  }

  /** The report "nothing changed" does not say that the list is untouched: it
      is untouched exactly when the certificate entries are already the last
      ones, in order, and occur nowhere else. */
  lemma SilentRewrite(env: seq<EnvVar>, namespace: string, service: string, kept: set<string>)
    requires DefaultsHold(env, namespace, service, kept)
    ensures Defaulted(env, namespace, service, kept) == env <==> CertificatesLast(env, kept)
  {
    DefaultedWhenHolding(env, namespace, service, kept);
    CertificatesNormalForm(env, kept);
  }

  // ---------------------------------------------------------------------------
  // The two writers together
  // ---------------------------------------------------------------------------

  /** The second writer settles in one application and then leaves the list. */
  lemma FollowedSettles(env: seq<EnvVar>, dataPlaneIsSet: bool, namespace: string, service: string)
    ensures var followed := Followed(env, dataPlaneIsSet, namespace, service);
            && Follows(followed, dataPlaneIsSet, namespace, service)
            && Followed(followed, dataPlaneIsSet, namespace, service) == followed
  {
    ManagedNamesDiffer();
    var publish, url := PublishService(service, namespace), AdminUrl(service, namespace);
    if dataPlaneIsSet {
      var e1 := EnsureValue(env, PUBLISH_SERVICE, publish);
      EnsureValueLookups(env, PUBLISH_SERVICE, publish, PUBLISH_SERVICE);
      EnsureValueLookups(e1, ADMIN_URL, url, PUBLISH_SERVICE);
      EnsureValueLookups(e1, ADMIN_URL, url, ADMIN_URL);
    } else {
      var e1 := RejectIfSet(env, PUBLISH_SERVICE);
      DropRemovesLookups(env, {PUBLISH_SERVICE}, PUBLISH_SERVICE);
      DropKeepsLookups(e1, {ADMIN_URL}, PUBLISH_SERVICE);
      DropRemovesLookups(e1, {ADMIN_URL}, ADMIN_URL);
    }
  }

  /** The second writer changes the list exactly when a lookup is wrong. */
  lemma FollowedChanges(env: seq<EnvVar>, dataPlaneIsSet: bool, namespace: string, service: string)
    ensures Follows(env, dataPlaneIsSet, namespace, service) <==>
            Followed(env, dataPlaneIsSet, namespace, service) == env
  {
    FollowedSettles(env, dataPlaneIsSet, namespace, service);
  }

  /** The second writer never disturbs the pod fields or the certificates. */
  lemma FollowedKeepsPodFields(env: seq<EnvVar>, dataPlaneIsSet: bool, namespace: string, service: string, name: string)
    requires name != PUBLISH_SERVICE && name != ADMIN_URL
    ensures SourceByName(Followed(env, dataPlaneIsSet, namespace, service), name) == SourceByName(env, name)
    ensures ValueByName(Followed(env, dataPlaneIsSet, namespace, service), name) == ValueByName(env, name)
  {
    var publish, url := PublishService(service, namespace), AdminUrl(service, namespace);
    if dataPlaneIsSet {
      EnsureValueLookups(env, PUBLISH_SERVICE, publish, name);
      EnsureValueLookups(EnsureValue(env, PUBLISH_SERVICE, publish), ADMIN_URL, url, name);
    } else {
      DropKeepsLookups(env, {PUBLISH_SERVICE}, name);
      DropKeepsLookups(RejectIfSet(env, PUBLISH_SERVICE), {ADMIN_URL}, name);
    }
  }

  /** Neither does it touch entries of other names, or their order. */
  lemma FollowedKeepsOthers(env: seq<EnvVar>, dataPlaneIsSet: bool, namespace: string, service: string)
    ensures Drop(Followed(env, dataPlaneIsSet, namespace, service), MANAGED) == Drop(env, MANAGED)
  {
    var publish := Literal(PUBLISH_SERVICE, PublishService(service, namespace));
    if dataPlaneIsSet {
      ReplaceDrop(env, publish, MANAGED);
      ReplaceDrop(EnsureValue(env, PUBLISH_SERVICE, publish.value),
                  Literal(ADMIN_URL, AdminUrl(service, namespace)), MANAGED);
    } else {
      DropDrop(env, {PUBLISH_SERVICE}, MANAGED);
      DropDrop(RejectIfSet(env, PUBLISH_SERVICE), {ADMIN_URL}, MANAGED);
      assert {PUBLISH_SERVICE} + MANAGED == MANAGED && {ADMIN_URL} + MANAGED == MANAGED;
    }
  }

  /** With a DataPlane set, and a named namespace and Service, the first writer
      leaves no work for the second one. */
  lemma WritersAgreeWhenSet(env: seq<EnvVar>, namespace: string, service: string, kept: set<string>)
    requires namespace != "" && service != ""
    requires PUBLISH_SERVICE !in kept && ADMIN_URL !in kept
    ensures var defaulted := Defaulted(env, namespace, service, kept);
            && Follows(defaulted, true, namespace, service)
            && Followed(defaulted, true, namespace, service) == defaulted
            && ValueByName(defaulted, "CONTROLLER_PUBLISH_SERVICE") == namespace + "/" + service
            && ValueByName(defaulted, "CONTROLLER_APISIX_ADMIN_URL") ==
               "https://" + service + "." + namespace + ".svc:9444"
  {
    DefaultedHolds(env, namespace, service, kept);
  }

  /** Following the DataPlane never makes the defaults report a change again. */
  lemma FollowedKeepsDefaults(env: seq<EnvVar>, dataPlaneIsSet: bool, namespace: string, service: string)
    requires DefaultsHold(env, namespace, service, {})
    requires !dataPlaneIsSet ==> service == ""
    ensures DefaultsHold(Followed(env, dataPlaneIsSet, namespace, service), namespace, service, {})
  {
    ManagedNamesDiffer();
    FollowedKeepsPodFields(env, dataPlaneIsSet, namespace, service, POD_NAMESPACE);
    FollowedKeepsPodFields(env, dataPlaneIsSet, namespace, service, POD_NAME);
  }

  /** The certificate entries are the last ones, in order, and nowhere else. */
  predicate CertificatesLast(env: seq<EnvVar>, kept: set<string>) {
    env == Drop(env, {CLIENT_CERT, CLIENT_KEY, CA_CERT} - kept) + CertificateVars(kept)
  }

  lemma CertificatesEndUpLast(env: seq<EnvVar>, kept: set<string>)
    ensures CertificatesLast(WithCertificates(env, kept), kept)
  {
    CertificatesIdempotent(env, kept);
    CertificatesNormalForm(WithCertificates(env, kept), kept);
  }

  lemma RejectKeepsCertificatesLast(env: seq<EnvVar>, kept: set<string>, name: string)
    requires CertificatesLast(env, kept)
    requires name !in {CLIENT_CERT, CLIENT_KEY, CA_CERT}
    ensures CertificatesLast(RejectIfSet(env, name), kept)
  {
    var names, vars := {CLIENT_CERT, CLIENT_KEY, CA_CERT} - kept, CertificateVars(kept);
    CertificateVarsNames(kept);
    DropConcat(Drop(env, names), vars, {name});
    DropNothing(vars, {name});
    DropDrop(env, names, {name});
    DropDrop(env, {name}, names);
    assert names + {name} == {name} + names;
  }

  /** Without a DataPlane, one round of both writers is a fixed point of both,
      and both lookups are empty in it. */
  lemma WritersSettleWhenUnset(env: seq<EnvVar>, namespace: string, kept: set<string>)
    ensures var settled := Followed(Defaulted(env, namespace, "", kept), false, namespace, "");
            && DefaultsHold(settled, namespace, "", kept)
            && Defaulted(settled, namespace, "", kept) == settled
            && Followed(settled, false, namespace, "") == settled
            && ValueByName(settled, PUBLISH_SERVICE) == "" && ValueByName(settled, ADMIN_URL) == ""
  {
    ManagedNamesDiffer();
    var defaulted := Defaulted(env, namespace, "", kept);
    var settled := Followed(defaulted, false, namespace, "");
    DefaultedHolds(env, namespace, "", kept);
    FollowedSettles(defaulted, false, namespace, "");
    FollowedKeepsPodFields(defaulted, false, namespace, "", POD_NAMESPACE);
    FollowedKeepsPodFields(defaulted, false, namespace, "", POD_NAME);
    CertificatesEndUpLast(WithService(WithPodFields(env), namespace, "", kept), kept);
    RejectKeepsCertificatesLast(defaulted, kept, PUBLISH_SERVICE);
    RejectKeepsCertificatesLast(RejectIfSet(defaulted, PUBLISH_SERVICE), kept, ADMIN_URL);
    SilentRewrite(settled, namespace, "", kept);
  }

  /** The lookups that the defaults compare in turn are those of the first list. */
  lemma DefaultsLookAhead(env: seq<EnvVar>, namespace: string, service: string, kept: set<string>)
    ensures SourceByName(EnsureSource(env, POD_NAMESPACE, FieldSource("metadata.namespace")), POD_NAME) ==
            SourceByName(env, POD_NAME)
    ensures ValueByName(WithPodFields(env), PUBLISH_SERVICE) == ValueByName(env, PUBLISH_SERVICE)
    ensures ValueByName(WithPodFields(env), ADMIN_URL) == ValueByName(env, ADMIN_URL)
    ensures ValueByName(EnsureValue(WithPodFields(env), PUBLISH_SERVICE, PublishService(service, namespace)), ADMIN_URL)
            == ValueByName(env, ADMIN_URL)
  {
    ManagedNamesDiffer();
    ReplaceLookups(env, Sourced(POD_NAMESPACE, FieldSource("metadata.namespace")), POD_NAME);
    PodFieldsLookups(env, PUBLISH_SERVICE);
    PodFieldsLookups(env, ADMIN_URL);
    EnsureValueLookups(WithPodFields(env), PUBLISH_SERVICE, PublishService(service, namespace), ADMIN_URL);
  }

  // ---------------------------------------------------------------------------
  // The options object that both writers edit in place
  // ---------------------------------------------------------------------------

  class DeploymentOptions {
    var env: seq<EnvVar>
    var dataPlane: Option<string>

    constructor (env: seq<EnvVar>, dataPlane: Option<string>)
      ensures this.env == env && this.dataPlane == dataPlane
    {
      this.env := env;
      this.dataPlane := dataPlane;
    }

    method SetControlPlaneDefaults(namespace: string, service: string, kept: set<string>) returns (changed: bool)
      modifies this`env
      ensures env == Defaulted(old(env), namespace, service, kept)
      ensures changed <==> !DefaultsHold(old(env), namespace, service, kept)
      ensures namespace != "" && service != "" && "CONTROLLER_APISIX_ADMIN_URL" !in kept ==>
                ValueByName(env, "CONTROLLER_APISIX_ADMIN_URL") == "https://" + service + "." + namespace + ".svc:9444"
      ensures namespace != "" && service != "" && "CONTROLLER_PUBLISH_SERVICE" !in kept ==>
                ValueByName(env, "CONTROLLER_PUBLISH_SERVICE") == namespace + "/" + service
    {
      DefaultedLookups(env, namespace, service, kept);
      DefaultsLookAhead(env, namespace, service, kept);
      changed := SetPodFields();
      if namespace != "" && service != "" {
        var serviceChanged := SetServiceEntries(namespace, service, kept);
        changed := changed || serviceChanged;
      }
      SetCertificatePaths(kept);
    }

    method SetPodFields() returns (changed: bool)
      modifies this`env
      ensures env == WithPodFields(old(env))
      ensures changed <==> !(&& SourceByName(old(env), POD_NAMESPACE) == Some(FieldSource("metadata.namespace"))
                             && SourceByName(old(env), POD_NAME) == Some(FieldSource("metadata.name")))
    {
      DefaultsLookAhead(env, "", "", {});
      changed := false;
      var source := EnvVarSourceByName(env, POD_NAMESPACE);
      if source != Some(FieldSource("metadata.namespace")) {
        env := UpdateEnvSource(env, POD_NAMESPACE, FieldSource("metadata.namespace"));
        changed := true;
      }
      source := EnvVarSourceByName(env, POD_NAME);
      if source != Some(FieldSource("metadata.name")) {
        env := UpdateEnvSource(env, POD_NAME, FieldSource("metadata.name"));
        changed := true;
      }
    }

    method SetServiceEntries(namespace: string, service: string, kept: set<string>) returns (changed: bool)
      requires namespace != "" && service != ""
      modifies this`env
      ensures env == WithService(old(env), namespace, service, kept)
      ensures changed <==>
              || (PUBLISH_SERVICE !in kept
                  && ValueByName(old(env), PUBLISH_SERVICE) != PublishService(service, namespace))
              || (ADMIN_URL !in kept && ValueByName(old(env), ADMIN_URL) != AdminUrl(service, namespace))
    {
      ManagedNamesDiffer();
      EnsureValueLookups(env, PUBLISH_SERVICE, PublishService(service, namespace), ADMIN_URL);
      changed := false;
      if PUBLISH_SERVICE !in kept {
        var value := EnvValueByName(env, PUBLISH_SERVICE);
        if value != PublishService(service, namespace) {
          env := UpdateEnv(env, PUBLISH_SERVICE, PublishService(service, namespace));
          changed := true;
        }
      }
      if ADMIN_URL !in kept {
        var value := EnvValueByName(env, ADMIN_URL);
        if value != AdminUrl(service, namespace) {
          env := UpdateEnv(env, ADMIN_URL, AdminUrl(service, namespace));
          changed := true;
        }
      }
    }

    method SetCertificatePaths(kept: set<string>)
      modifies this`env
      ensures env == WithCertificates(old(env), kept)
    {
      if CLIENT_CERT !in kept {
        env := UpdateEnv(env, CLIENT_CERT, "/var/cluster-certificate/tls.crt");
      }
      if CLIENT_KEY !in kept {
        env := UpdateEnv(env, CLIENT_KEY, "/var/cluster-certificate/tls.key");
      }
      if CA_CERT !in kept {
        env := UpdateEnv(env, CA_CERT, "/var/cluster-certificate/ca.crt");
      }
    }

    method SetEnvOnDataPlaneChange(namespace: string, service: string) returns (changed: bool)
      modifies this`env
      ensures var isSet := dataPlane.Some? && dataPlane.value != "";
              && env == Followed(old(env), isSet, namespace, service)
              && (changed <==> !Follows(old(env), isSet, namespace, service))
              && ValueByName(env, "CONTROLLER_PUBLISH_SERVICE") == (if isSet then namespace + "/" + service else "")
              && ValueByName(env, "CONTROLLER_APISIX_ADMIN_URL") ==
                 (if isSet then "https://" + service + "." + namespace + ".svc:9444" else "")
    {
      FollowedLookups(env, dataPlane.Some? && dataPlane.value != "", namespace, service);
      ManagedNamesDiffer();
      changed := false;
      ghost var start := env;
      var value := EnvValueByName(env, PUBLISH_SERVICE);
      if dataPlane.Some? && dataPlane.value != "" {
        if value != PublishService(service, namespace) {
          env := UpdateEnv(env, PUBLISH_SERVICE, PublishService(service, namespace));
          changed := true;
        }
        EnsureValueLookups(start, PUBLISH_SERVICE, PublishService(service, namespace), ADMIN_URL);
        value := EnvValueByName(env, ADMIN_URL);
        if value != AdminUrl(service, namespace) {
          env := UpdateEnv(env, ADMIN_URL, AdminUrl(service, namespace));
          changed := true;
        }
      } else {
        if value != "" {
          env := RejectEnvByName(env, PUBLISH_SERVICE);
          changed := true;
        }
        DropKeepsLookups(start, {PUBLISH_SERVICE}, ADMIN_URL);
        value := EnvValueByName(env, ADMIN_URL);
        if value != "" {
          env := RejectEnvByName(env, ADMIN_URL);
          changed := true;
        }
      }
    }
  }
}
