/** The admission check of a DataPlane: only the database-less mode is allowed. It
    scans the entries and sources that could set the mode, and is compared here
    with the value that the container will see. */
module DataPlaneValidation {
  import opened Wrappers
  import opened EnvVars
  import opened Cluster
  import opened EnvOrder
  import opened DataPlaneDefaults

  /** The contents of config maps and secrets. */
  datatype Store = Store(configMaps: map<Key, map<string, string>>, secrets: map<Key, map<string, string>>)

  /** The two decodings that are applied to the contents of secrets. */
  datatype Codec = Codec(std: string -> Option<string>, rawStd: string -> Option<string>)

  datatype ValidationError =
    | MissingConfigMap(name: string)
    | MissingSecret(name: string)
    | ModeNotSupported(mode: string)

  /** A mode as the scan goes on; `found` may be reset by a later entry. */
  datatype Mode = Mode(value: string, found: bool)

  datatype Scan = Scanned(mode: Mode) | Failed(error: ValidationError)

  const NOTHING := Mode("", false)

  // ---------------------------------------------------------------------------
  // Lookups
  // ---------------------------------------------------------------------------

  function FromConfigMapKey(store: Store, namespace: string, ref: KeySelector): Scan {
    var key := Key(namespace, ref.name);
    if key !in store.configMaps then Failed(MissingConfigMap(ref.name))
    else
      var data := store.configMaps[key];
      Scanned(if ref.key in data && data[ref.key] != "" then Mode(data[ref.key], true) else NOTHING)
  }

  function FromSecretKey(store: Store, codec: Codec, namespace: string, ref: KeySelector): Scan {
    var key := Key(namespace, ref.name);
    if key !in store.secrets then Failed(MissingSecret(ref.name))
    else
      var data := store.secrets[key];
      if ref.key in data && data[ref.key] != "" && codec.std(data[ref.key]).Some?
      then Scanned(Mode(codec.std(data[ref.key]).value, true))
      else Scanned(NOTHING)
  }

  /** The text without the prefix, or all of it if that is no prefix. */
  function TrimPrefix(text: string, prefix: string): string {
    if prefix <= text then text[|prefix|..] else text
  }

  function FromConfigMap(store: Store, namespace: string, prefix: string, name: string): Scan {
    var key := Key(namespace, name);
    if key !in store.configMaps then Failed(MissingConfigMap(name))
    else
      var data, suffix := store.configMaps[key], TrimPrefix(APISIX_DATABASE, prefix);
      Scanned(if suffix in data then Mode(data[suffix], true) else NOTHING)
  }

  function FromSecret(store: Store, codec: Codec, namespace: string, prefix: string, name: string): Scan {
    var key := Key(namespace, name);
    if key !in store.secrets then Failed(MissingSecret(name))
    else
      var data, suffix := store.secrets[key], TrimPrefix(APISIX_DATABASE, prefix);
      if suffix in data && codec.rawStd(data[suffix]).Some? then Scanned(Mode(codec.rawStd(data[suffix]).value, true))
      else Scanned(NOTHING)
  }

  // ---------------------------------------------------------------------------
  // Scans
  // ---------------------------------------------------------------------------

  function ScanSource(store: Store, codec: Codec, namespace: string, source: EnvVarSource, mode: Mode): Scan {
    var first := if source.configMapKeyRef.Some? then FromConfigMapKey(store, namespace, source.configMapKeyRef.value)
                 else Scanned(mode);
    if first.Failed? || source.secretKeyRef.None? then first
    else FromSecretKey(store, codec, namespace, source.secretKeyRef.value)
  }

  function ScanVar(store: Store, codec: Codec, namespace: string, v: EnvVar, mode: Mode): Scan {
    if v.name != APISIX_DATABASE then Scanned(mode)
    else if v.value != "" then Scanned(Mode(v.value, true))
    else if v.valueFrom.None? then Scanned(mode)
    else ScanSource(store, codec, namespace, v.valueFrom.value, mode)
  }

  /** The first failure, or the mode after all entries. */
  function ScanEnv(store: Store, codec: Codec, namespace: string, env: seq<EnvVar>): Scan {
    if env == [] then Scanned(NOTHING)
    else
      var prior := ScanEnv(store, codec, namespace, env[..|env| - 1]);
      if prior.Failed? then prior else ScanVar(store, codec, namespace, env[|env| - 1], prior.mode)
  }

  function ScanFrom(store: Store, codec: Codec, namespace: string, f: EnvFromSource, mode: Mode): Scan {
    if !(f.prefix <= APISIX_DATABASE) then Scanned(mode)
    else
      var first := if f.configMapRef.Some? then FromConfigMap(store, namespace, f.prefix, f.configMapRef.value.name)
                   else Scanned(mode);
      if first.Failed? || f.secretRef.None? then first
      else FromSecret(store, codec, namespace, f.prefix, f.secretRef.value.name)
  }

  function ScanEnvFrom(store: Store, codec: Codec, namespace: string, envFrom: seq<EnvFromSource>): Scan {
    if envFrom == [] then Scanned(NOTHING)
    else
      var prior := ScanEnvFrom(store, codec, namespace, envFrom[..|envFrom| - 1]);
      if prior.Failed? then prior else ScanFrom(store, codec, namespace, envFrom[|envFrom| - 1], prior.mode)
  }

  predicate ModeAllowed(mode: string) {
    mode == "" || mode == "off"
  }

  function Verdict(scan: Scan): Option<ValidationError> {
    if scan.Failed? then Some(scan.error)
    else if ModeAllowed(scan.mode.value) then None else Some(ModeNotSupported(scan.mode.value))
  }

  /** The sources alone would be accepted. */
  predicate SourcesPass(store: Store, codec: Codec, namespace: string, envFrom: seq<EnvFromSource>) {
    Verdict(ScanEnvFrom(store, codec, namespace, envFrom)).None?
  }

  /** The error of the check; none if the options are accepted. */
  function Validated(store: Store, codec: Codec, namespace: string, env: seq<EnvVar>, envFrom: seq<EnvFromSource>)
    : Option<ValidationError>
  {
    var scan := ScanEnv(store, codec, namespace, env);
    if scan.Failed? || scan.mode.found then Verdict(scan) else Verdict(ScanEnvFrom(store, codec, namespace, envFrom))
  }

  // ---------------------------------------------------------------------------
  // What the container sees
  // ---------------------------------------------------------------------------

  /** The value of a key, where secrets hold it in the decoding given. */
  function Content(data: map<string, string>, key: string, decode: string -> Option<string>): Option<string> {
    if key in data then decode(data[key]) else None
  }

  function Verbatim(text: string): Option<string> {
    Some(text)
  }

  /** The value an entry gives, if its reference can be resolved. */
  function EntryValue(store: Store, codec: Codec, namespace: string, v: EnvVar): Option<string> {
    if v.value != "" || v.valueFrom.None? then Some(v.value)
    else
      var source := v.valueFrom.value;
      if source.configMapKeyRef.Some? then
        var ref := source.configMapKeyRef.value;
        if Key(namespace, ref.name) in store.configMaps
        then Content(store.configMaps[Key(namespace, ref.name)], ref.key, Verbatim) else None
      else if source.secretKeyRef.Some? then
        var ref := source.secretKeyRef.value;
        if Key(namespace, ref.name) in store.secrets
        then Content(store.secrets[Key(namespace, ref.name)], ref.key, codec.std) else None
      else None
  }

  /** What a source adds under the name of the mode: the value of a key that makes
      the name when the prefix is put before it. */
  ghost predicate Gives(store: Store, codec: Codec, namespace: string, f: EnvFromSource, value: string) {
    exists key: string | f.prefix + key == APISIX_DATABASE ::
      || (f.configMapRef.Some? && Key(namespace, f.configMapRef.value.name) in store.configMaps
          && Content(store.configMaps[Key(namespace, f.configMapRef.value.name)], key, Verbatim) == Some(value))
      || (f.configMapRef.None? && f.secretRef.Some? && Key(namespace, f.secretRef.value.name) in store.secrets
          && Content(store.secrets[Key(namespace, f.secretRef.value.name)], key, codec.rawStd) == Some(value))
  }

  predicate Names(env: seq<EnvVar>) {
    exists v | v in env :: v.name == APISIX_DATABASE
  }

  predicate HasKey(data: map<Key, map<string, string>>, namespace: string, ref: KeySelector) {
    Key(namespace, ref.name) in data && ref.key in data[Key(namespace, ref.name)]
  }

  /** An optional reference that leads nowhere; the container passes over the entry. */
  predicate Skips(store: Store, namespace: string, v: EnvVar) {
    && v.value == "" && v.valueFrom.Some?
    && var source := v.valueFrom.value;
       if source.configMapKeyRef.Some? then
         source.configMapKeyRef.value.optional && !HasKey(store.configMaps, namespace, source.configMapKeyRef.value)
       else
         && source.secretKeyRef.Some? && source.secretKeyRef.value.optional
         && !HasKey(store.secrets, namespace, source.secretKeyRef.value)
  }

  /** Entries win over sources, and in both lists the last one wins. */
  ghost predicate Effective(store: Store, codec: Codec, namespace: string, env: seq<EnvVar>,
                            envFrom: seq<EnvFromSource>,
                            value: string) {
    || (exists i | 0 <= i < |env| ::
          && env[i].name == APISIX_DATABASE && EntryValue(store, codec, namespace, env[i]) == Some(value)
          && forall j | i < j < |env| :: env[j].name == APISIX_DATABASE ==> Skips(store, namespace, env[j]))
    || (&& (forall v | v in env && v.name == APISIX_DATABASE :: Skips(store, namespace, v))
        && exists i | 0 <= i < |envFrom| ::
             && Gives(store, codec, namespace, envFrom[i], value)
             && forall j, other | i < j < |envFrom| :: !Gives(store, codec, namespace, envFrom[j], other))
  }

  /** The container runs without a database. */
  ghost predicate Databaseless(store: Store, codec: Codec, namespace: string, env: seq<EnvVar>,
                               envFrom: seq<EnvFromSource>) {
    forall value | Effective(store, codec, namespace, env, envFrom, value) :: ModeAllowed(value)
  }

  /** The one key that makes the name with a prefix is what is left of the name. */
  lemma SuffixIsTheKey(prefix: string, key: string)
    ensures prefix + key == APISIX_DATABASE <==> prefix <= APISIX_DATABASE && key == TrimPrefix(APISIX_DATABASE, prefix)
  {
    if prefix + key == APISIX_DATABASE {
      assert prefix == (prefix + key)[..|prefix|] && key == (prefix + key)[|prefix|..];
    }
  }

  // ---------------------------------------------------------------------------
  // Where the check agrees with the container
  // ---------------------------------------------------------------------------

  predicate LastEntry(env: seq<EnvVar>, i: int) {
    0 <= i < |env| && env[i].name == APISIX_DATABASE && forall j | i < j < |env| :: env[j].name != APISIX_DATABASE
  }

  predicate LastMatch(envFrom: seq<EnvFromSource>, i: int) {
    && 0 <= i < |envFrom| && envFrom[i].prefix <= APISIX_DATABASE
    && forall j | i < j < |envFrom| :: !(envFrom[j].prefix <= APISIX_DATABASE)
  }

  /** What the entry refers to exists. */
  predicate Exists(store: Store, namespace: string, v: EnvVar) {
    v.name == APISIX_DATABASE && v.value == "" && v.valueFrom.Some? ==>
      var source := v.valueFrom.value;
      && (source.configMapKeyRef.Some? ==> Key(namespace, source.configMapKeyRef.value.name) in store.configMaps)
      && (source.secretKeyRef.Some? ==> Key(namespace, source.secretKeyRef.value.name) in store.secrets)
  }

  /** A non-empty literal, or one reference to a non-empty key that can be decoded. */
  predicate Decides(store: Store, codec: Codec, namespace: string, v: EnvVar) {
    || v.value != ""
    || (&& v.valueFrom.Some?
        && v.valueFrom.value.configMapKeyRef.Some? != v.valueFrom.value.secretKeyRef.Some?
        && var scan := ScanSource(store, codec, namespace, v.valueFrom.value, NOTHING);
           scan.Scanned? && scan.mode.found)
  }

  predicate OneSource(f: EnvFromSource) {
    f.configMapRef.Some? != f.secretRef.Some?
  }

  /** One source, and it exists, if the prefix fits. */
  predicate SourceExists(store: Store, namespace: string, f: EnvFromSource) {
    f.prefix <= APISIX_DATABASE ==>
      && OneSource(f)
      && (f.configMapRef.Some? ==> Key(namespace, f.configMapRef.value.name) in store.configMaps)
      && (f.secretRef.Some? ==> Key(namespace, f.secretRef.value.name) in store.secrets)
  }

  /** The source holds a value for the name of the mode. */
  predicate Supplies(store: Store, codec: Codec, namespace: string, f: EnvFromSource) {
    var scan := ScanFrom(store, codec, namespace, f, NOTHING);
    scan.Scanned? && scan.mode.found
  }

  lemma {:induction false} UnnamedScansToNothing(store: Store, codec: Codec, namespace: string, env: seq<EnvVar>)
    requires !Names(env)
    ensures ScanEnv(store, codec, namespace, env) == Scanned(NOTHING)
  {
    if env != [] {
      assert forall v | v in env[..|env| - 1] :: v in env;
      UnnamedScansToNothing(store, codec, namespace, env[..|env| - 1]);
      assert env[|env| - 1] in env;
    }
  }

  lemma {:induction false} ExistingNeverFail(store: Store, codec: Codec, namespace: string, env: seq<EnvVar>)
    requires forall v | v in env :: Exists(store, namespace, v)
    ensures ScanEnv(store, codec, namespace, env).Scanned?
  {
    if env != [] {
      assert forall v | v in env[..|env| - 1] :: v in env;
      ExistingNeverFail(store, codec, namespace, env[..|env| - 1]);
      assert Exists(store, namespace, env[|env| - 1]);
    }
  }

  /** One missing reference fails the whole scan. */
  lemma DanglingFails(store: Store, codec: Codec, namespace: string, env: seq<EnvVar>, v: EnvVar)
    requires v in env && !Exists(store, namespace, v)
    ensures ScanEnv(store, codec, namespace, env).Failed?
  {
    var k :| 0 <= k < |env| && env[k] == v;
    assert env[..k + 1][..k] == env[..k];
    ScanEnvPrefix(store, codec, namespace, env, k + 1);
  }

  lemma DecidedValue(store: Store, codec: Codec, namespace: string, v: EnvVar, mode: Mode)
    requires v.name == APISIX_DATABASE && Decides(store, codec, namespace, v)
    ensures EntryValue(store, codec, namespace, v).Some?
    ensures ScanVar(store, codec, namespace, v, mode) ==
            Scanned(Mode(EntryValue(store, codec, namespace, v).value, true))
  {
  }

  /** The scan of the entries is decided by the last one that names the mode. */
  lemma {:induction false} LastEntryDecides(store: Store, codec: Codec, namespace: string, env: seq<EnvVar>, i: int)
    requires LastEntry(env, i) && Decides(store, codec, namespace, env[i])
    requires forall v | v in env :: Exists(store, namespace, v)
    ensures EntryValue(store, codec, namespace, env[i]).Some?
    ensures ScanEnv(store, codec, namespace, env) ==
            Scanned(Mode(EntryValue(store, codec, namespace, env[i]).value, true))
    decreases |env|
  {
    hide Decides, Exists, EntryValue, ScanVar;
    var front := env[..|env| - 1];
    assert forall v | v in front :: v in env;
    if i == |env| - 1 {
      ExistingNeverFail(store, codec, namespace, front);
      DecidedValue(store, codec, namespace, env[i], ScanEnv(store, codec, namespace, front).mode);
    } else {
      assert front[i] == env[i];
      LastEntryDecides(store, codec, namespace, front, i);
      OtherNamesPass(store, codec, namespace, env[|env| - 1], ScanEnv(store, codec, namespace, front).mode);
    }
  }

  lemma OtherNamesPass(store: Store, codec: Codec, namespace: string, v: EnvVar, mode: Mode)
    requires v.name != APISIX_DATABASE
    ensures ScanVar(store, codec, namespace, v, mode) == Scanned(mode)
  {
  }

  lemma {:induction false} LastEntryExists(env: seq<EnvVar>) returns (i: nat)
    requires Names(env)
    ensures LastEntry(env, i)
  {
    var front := env[..|env| - 1];
    assert env == front + [env[|env| - 1]];
    if env[|env| - 1].name == APISIX_DATABASE {
      i := |env| - 1;
    } else {
      i := LastEntryExists(front);
    }
  }

  /** The last entry that names the mode, if it is not passed over, is what is seen. */
  lemma LastEntryIsSeen(store: Store, codec: Codec, namespace: string, env: seq<EnvVar>, envFrom: seq<EnvFromSource>,
                        i: int, value: string)
    requires LastEntry(env, i) && !Skips(store, namespace, env[i])
    ensures Effective(store, codec, namespace, env, envFrom, value) <==>
            EntryValue(store, codec, namespace, env[i]) == Some(value)
  {
    hide Skips, EntryValue, Gives;
    assert env[i] in env;
  }

  lemma DecidedIsNotSkipped(store: Store, codec: Codec, namespace: string, v: EnvVar)
    requires Decides(store, codec, namespace, v)
    ensures !Skips(store, namespace, v)
  {
  }

  /** With entries that name the mode: accepted iff the container is without one. */
  lemma AgreesOnEntries(store: Store, codec: Codec, namespace: string, env: seq<EnvVar>, envFrom: seq<EnvFromSource>)
    requires Names(env) && forall v | v in env :: Exists(store, namespace, v)
    requires forall i | LastEntry(env, i) :: Decides(store, codec, namespace, env[i])
    ensures Validated(store, codec, namespace, env, envFrom).None? <==>
            Databaseless(store, codec, namespace, env, envFrom)
  {
    hide Exists, Decides, EntryValue, ScanEnv, ModeAllowed, Effective, Skips;
    var i := LastEntryExists(env);
    LastEntryDecides(store, codec, namespace, env, i);
    DecidedIsNotSkipped(store, codec, namespace, env[i]);
    forall value {
      LastEntryIsSeen(store, codec, namespace, env, envFrom, i, value);
    }
  }

  lemma {:induction false} UnmatchedScansToNothing(store: Store, codec: Codec, namespace: string,
                                                   envFrom: seq<EnvFromSource>)
    requires forall f | f in envFrom :: !(f.prefix <= APISIX_DATABASE)
    ensures ScanEnvFrom(store, codec, namespace, envFrom) == Scanned(NOTHING)
  {
    if envFrom != [] {
      assert forall f | f in envFrom[..|envFrom| - 1] :: f in envFrom;
      UnmatchedScansToNothing(store, codec, namespace, envFrom[..|envFrom| - 1]);
      assert envFrom[|envFrom| - 1] in envFrom;
    }
  }

  lemma {:induction false} ExistingSourcesNeverFail(store: Store, codec: Codec, namespace: string,
                                                    envFrom: seq<EnvFromSource>)
    requires forall f | f in envFrom :: SourceExists(store, namespace, f)
    ensures ScanEnvFrom(store, codec, namespace, envFrom).Scanned?
  {
    if envFrom != [] {
      assert forall f | f in envFrom[..|envFrom| - 1] :: f in envFrom;
      ExistingSourcesNeverFail(store, codec, namespace, envFrom[..|envFrom| - 1]);
      assert SourceExists(store, namespace, envFrom[|envFrom| - 1]);
    }
  }

  /** The scan of the sources is decided by the last one whose prefix fits, even if
      it holds nothing. */
  lemma {:induction false} LastMatchDecides(store: Store, codec: Codec, namespace: string,
                                            envFrom: seq<EnvFromSource>, i: int)
    requires LastMatch(envFrom, i) && forall f | f in envFrom :: SourceExists(store, namespace, f)
    ensures ScanEnvFrom(store, codec, namespace, envFrom) == ScanFrom(store, codec, namespace, envFrom[i], NOTHING)
    decreases |envFrom|
  {
    var front := envFrom[..|envFrom| - 1];
    assert forall f | f in front :: f in envFrom;
    if i == |envFrom| - 1 {
      ExistingSourcesNeverFail(store, codec, namespace, front);
      assert SourceExists(store, namespace, envFrom[i]);
    } else {
      assert front[i] == envFrom[i];
      LastMatchDecides(store, codec, namespace, front, i);
    }
  }

  lemma {:induction false} LastMatchExists(envFrom: seq<EnvFromSource>) returns (i: nat)
    requires exists f | f in envFrom :: f.prefix <= APISIX_DATABASE
    ensures LastMatch(envFrom, i)
  {
    var front := envFrom[..|envFrom| - 1];
    assert envFrom == front + [envFrom[|envFrom| - 1]];
    if envFrom[|envFrom| - 1].prefix <= APISIX_DATABASE {
      i := |envFrom| - 1;
    } else {
      i := LastMatchExists(front);
    }
  }

  /** A source gives what its scan finds, and nothing if the prefix does not fit. */
  lemma ScannedIsGiven(store: Store, codec: Codec, namespace: string, f: EnvFromSource, value: string)
    requires SourceExists(store, namespace, f)
    ensures Gives(store, codec, namespace, f, value) <==>
            f.prefix <= APISIX_DATABASE && ScanFrom(store, codec, namespace, f, NOTHING) == Scanned(Mode(value, true))
  {
    var key := TrimPrefix(APISIX_DATABASE, f.prefix);
    SuffixIsTheKey(f.prefix, key);
    forall other | f.prefix + other == APISIX_DATABASE
      ensures other == key
    {
      SuffixIsTheKey(f.prefix, other);
    }
  }

  lemma AgreesOnSources(store: Store, codec: Codec, namespace: string, env: seq<EnvVar>, envFrom: seq<EnvFromSource>)
    requires !Names(env) && forall f | f in envFrom :: SourceExists(store, namespace, f)
    requires forall i | LastMatch(envFrom, i) :: Supplies(store, codec, namespace, envFrom[i])
    ensures Validated(store, codec, namespace, env, envFrom).None? <==>
            Databaseless(store, codec, namespace, env, envFrom)
  {
    hide SourceExists, ScanFrom, ScanEnv, ScanEnvFrom, Gives, ModeAllowed;
    UnnamedScansToNothing(store, codec, namespace, env);
    forall f, value | f in envFrom {
      ScannedIsGiven(store, codec, namespace, f, value);
    }
    if exists f | f in envFrom :: f.prefix <= APISIX_DATABASE {
      var i := LastMatchExists(envFrom);
      LastMatchDecides(store, codec, namespace, envFrom, i);
      var value := ScanFrom(store, codec, namespace, envFrom[i], NOTHING).mode.value;
      assert Gives(store, codec, namespace, envFrom[i], value);
      assert Effective(store, codec, namespace, env, envFrom, value);
    } else {
      UnmatchedScansToNothing(store, codec, namespace, envFrom);
      NothingIsAllowed();
    }
  }

  lemma NothingIsAllowed()
    ensures ModeAllowed(NOTHING.value)
  {
  }

  /** With secrets read in the decoding that the check applies, it is right whenever all
      references exist and the last entry that names the mode, or else the last source
      whose prefix fits, decides. */
  lemma AgreesWhenDecoded(store: Store, codec: Codec, namespace: string, env: seq<EnvVar>, envFrom: seq<EnvFromSource>)
    requires forall v | v in env :: Exists(store, namespace, v)
    requires forall i | LastEntry(env, i) :: Decides(store, codec, namespace, env[i])
    requires !Names(env) ==> forall f | f in envFrom :: SourceExists(store, namespace, f)
    requires !Names(env) ==> forall i | LastMatch(envFrom, i) :: Supplies(store, codec, namespace, envFrom[i])
    ensures Validated(store, codec, namespace, env, envFrom).None? <==>
            Databaseless(store, codec, namespace, env, envFrom)
  {
    hide Exists, Decides, SourceExists, Supplies, Validated, Databaseless;
    if Names(env) {
      AgreesOnEntries(store, codec, namespace, env, envFrom);
    } else {
      AgreesOnSources(store, codec, namespace, env, envFrom);
    }
  }

  /** A last source that fits by its prefix but holds nothing hides all sources before
      it from the check, so that the check agrees with the container exactly if the
      last source that fits holds a value or the container is without a database. */
  lemma HiddenSources(store: Store, codec: Codec, namespace: string, env: seq<EnvVar>, envFrom: seq<EnvFromSource>)
    requires !Names(env) && forall f | f in envFrom :: SourceExists(store, namespace, f)
    ensures (Validated(store, codec, namespace, env, envFrom).None? <==>
             Databaseless(store, codec, namespace, env, envFrom))
            <==> (|| (forall i | LastMatch(envFrom, i) :: Supplies(store, codec, namespace, envFrom[i]))
                  || Databaseless(store, codec, namespace, env, envFrom))
  {
    hide Databaseless, ScanEnv, ScanEnvFrom;
    if forall i | LastMatch(envFrom, i) :: Supplies(store, codec, namespace, envFrom[i]) {
      AgreesOnSources(store, codec, namespace, env, envFrom);
    } else {
      var i :| LastMatch(envFrom, i) && !Supplies(store, codec, namespace, envFrom[i]);
      UnnamedScansToNothing(store, codec, namespace, env);
      LastMatchDecides(store, codec, namespace, envFrom, i);
      assert SourceExists(store, namespace, envFrom[i]);
    }
  }

  // ---------------------------------------------------------------------------
  // What errors say
  // ---------------------------------------------------------------------------

  /** An error names an object that is referred to and does not exist, or a mode that is
      neither empty nor "off". */
  ghost predicate TellsTheTruth(store: Store, namespace: string, env: seq<EnvVar>, envFrom: seq<EnvFromSource>,
                                error: ValidationError) {
    match error
    case MissingConfigMap(name) =>
      && Key(namespace, name) !in store.configMaps
      && (|| (exists v | v in env :: v.valueFrom.Some? && v.valueFrom.value.configMapKeyRef.Some?
                                     && v.valueFrom.value.configMapKeyRef.value.name == name)
          || (exists f | f in envFrom :: f.configMapRef.Some? && f.configMapRef.value.name == name))
    case MissingSecret(name) =>
      && Key(namespace, name) !in store.secrets
      && (|| (exists v | v in env :: v.valueFrom.Some? && v.valueFrom.value.secretKeyRef.Some?
                                     && v.valueFrom.value.secretKeyRef.value.name == name)
          || (exists f | f in envFrom :: f.secretRef.Some? && f.secretRef.value.name == name))
    case ModeNotSupported(mode) => mode != "" && mode != "off"
  }

  lemma {:induction false} EntryErrors(store: Store, codec: Codec, namespace: string, env: seq<EnvVar>)
    ensures var scan := ScanEnv(store, codec, namespace, env);
            scan.Failed? ==> TellsTheTruth(store, namespace, env, [], scan.error)
  {
    if env != [] {
      var front := env[..|env| - 1];
      EntryErrors(store, codec, namespace, front);
      assert forall v | v in front :: v in env;
      assert env[|env| - 1] in env;
    }
  }

  lemma {:induction false} SourceErrors(store: Store, codec: Codec, namespace: string, envFrom: seq<EnvFromSource>)
    ensures var scan := ScanEnvFrom(store, codec, namespace, envFrom);
            scan.Failed? ==> TellsTheTruth(store, namespace, [], envFrom, scan.error)
  {
    if envFrom != [] {
      var front := envFrom[..|envFrom| - 1];
      SourceErrors(store, codec, namespace, front);
      assert forall f | f in front :: f in envFrom;
      assert envFrom[|envFrom| - 1] in envFrom;
    }
  }

  lemma ErrorsAreTrue(store: Store, codec: Codec, namespace: string, env: seq<EnvVar>, envFrom: seq<EnvFromSource>)
    ensures var error := Validated(store, codec, namespace, env, envFrom);
            error.Some? ==> TellsTheTruth(store, namespace, env, envFrom, error.value)
  {
    hide ScanEnv, ScanEnvFrom;
    EntryErrors(store, codec, namespace, env);
    SourceErrors(store, codec, namespace, envFrom);
  }

  // ---------------------------------------------------------------------------
  // The loops of the source
  // ---------------------------------------------------------------------------

  /** The three results of the source's helpers are a scan. */
  predicate Returns(scan: Scan, dbMode: string, found: bool, error: Option<ValidationError>) {
    match scan
    case Failed(e) => error == Some(e)
    case Scanned(mode) => error.None? && dbMode == mode.value && found == mode.found
  }

  class Validator {
    const store: Store
    const codec: Codec

    constructor (store: Store, codec: Codec)
      ensures this.store == store && this.codec == codec
    {
      this.store, this.codec := store, codec;
    }

    method ValueFromConfigMapKeyRef(namespace: string, ref: KeySelector)
      returns (dbMode: string, found: bool, error: Option<ValidationError>)
      ensures Returns(FromConfigMapKey(store, namespace, ref), dbMode, found, error)
    {
      if Key(namespace, ref.name) !in store.configMaps {
        return "", false, Some(MissingConfigMap(ref.name));
      }
      var data := store.configMaps[Key(namespace, ref.name)];
      if ref.key in data && data[ref.key] != "" {
        return data[ref.key], true, None;
      }
      return "", false, None;
    }

    method ValueFromSecretRef(namespace: string, ref: KeySelector)
      returns (dbMode: string, found: bool, error: Option<ValidationError>)
      ensures Returns(FromSecretKey(store, codec, namespace, ref), dbMode, found, error)
    {
      if Key(namespace, ref.name) !in store.secrets {
        return "", false, Some(MissingSecret(ref.name));
      }
      var data := store.secrets[Key(namespace, ref.name)];
      if ref.key in data && |data[ref.key]| > 0 {
        var decoded := codec.std(data[ref.key]);
        if decoded.Some? {
          return decoded.value, true, None;
        }
      }
      return "", false, None;
    }

    method DbModeFromConfigMapRef(namespace: string, prefix: string, name: string)
      returns (dbMode: string, found: bool, error: Option<ValidationError>)
      ensures Returns(FromConfigMap(store, namespace, prefix, name), dbMode, found, error)
    {
      if Key(namespace, name) !in store.configMaps {
        return "", false, Some(MissingConfigMap(name));
      }
      var data := store.configMaps[Key(namespace, name)];
      var suffix := TrimPrefix(APISIX_DATABASE, prefix);
      if suffix in data {
        return data[suffix], true, None;
      }
      return "", false, None;
    }

    method DbModeFromSecretRef(namespace: string, prefix: string, name: string)
      returns (dbMode: string, found: bool, error: Option<ValidationError>)
      ensures Returns(FromSecret(store, codec, namespace, prefix, name), dbMode, found, error)
    {
      if Key(namespace, name) !in store.secrets {
        return "", false, Some(MissingSecret(name));
      }
      var data := store.secrets[Key(namespace, name)];
      var suffix := TrimPrefix(APISIX_DATABASE, prefix);
      if suffix !in data {
        return "", false, None;
      }
      var decoded := codec.rawStd(data[suffix]);
      if decoded.Some? {
        return decoded.value, true, None;
      }
      return "", false, None;
    }

    method DbModeFromEnv(namespace: string, env: seq<EnvVar>)
      returns (dbMode: string, found: bool, error: Option<ValidationError>)
      ensures Returns(ScanEnv(store, codec, namespace, env), dbMode, found, error)
    {
      hide FromConfigMapKey, FromSecretKey;
      dbMode, found, error := "", false, None;
      for i := 0 to |env|
        invariant error.None? && Returns(ScanEnv(store, codec, namespace, env[..i]), dbMode, found, error)
      {
        assert env[..i + 1][..i] == env[..i];
        ScanEnvPrefix(store, codec, namespace, env, i + 1);
        var v := env[i];
        if v.name == APISIX_DATABASE {
          if v.value != "" {
            dbMode, found := v.value, true;
          } else if v.valueFrom.Some? {
            if v.valueFrom.value.configMapKeyRef.Some? {
              dbMode, found, error := ValueFromConfigMapKeyRef(namespace, v.valueFrom.value.configMapKeyRef.value);
              if error.Some? {
                return "", false, error;
              }
            }
            if v.valueFrom.value.secretKeyRef.Some? {
              dbMode, found, error := ValueFromSecretRef(namespace, v.valueFrom.value.secretKeyRef.value);
              if error.Some? {
                return "", false, error;
              }
            }
          }
        }
      }
      assert env[..|env|] == env;
    }

    method DbModeFromEnvFrom(namespace: string, envFrom: seq<EnvFromSource>)
      returns (dbMode: string, found: bool, error: Option<ValidationError>)
      ensures Returns(ScanEnvFrom(store, codec, namespace, envFrom), dbMode, found, error)
    {
      hide FromConfigMap, FromSecret;
      dbMode, found, error := "", false, None;
      for i := 0 to |envFrom|
        invariant error.None? && Returns(ScanEnvFrom(store, codec, namespace, envFrom[..i]), dbMode, found, error)
      {
        assert envFrom[..i + 1][..i] == envFrom[..i];
        ScanEnvFromPrefix(store, codec, namespace, envFrom, i + 1);
        var f := envFrom[i];
        if f.prefix <= APISIX_DATABASE {
          if f.configMapRef.Some? {
            dbMode, found, error := DbModeFromConfigMapRef(namespace, f.prefix, f.configMapRef.value.name);
            if error.Some? {
              return "", false, error;
            }
          }
          if f.secretRef.Some? {
            dbMode, found, error := DbModeFromSecretRef(namespace, f.prefix, f.secretRef.value.name);
            if error.Some? {
              return "", false, error;
            }
          }
        }
      }
      assert envFrom[..|envFrom|] == envFrom;
    }

    method ValidateDeployOptions(namespace: string, options: DataPlaneOptions) returns (error: Option<ValidationError>)
      ensures error == Validated(store, codec, namespace, options.env, options.envFrom)
    {
      hide ScanEnv, ScanEnvFrom;
      var dbMode, found;
      dbMode, found, error := DbModeFromEnv(namespace, options.env);
      if error.Some? {
        return error;
      }
      if !found {
        dbMode, found, error := DbModeFromEnvFrom(namespace, options.envFrom);
        if error.Some? {
          return error;
        }
      }
      if dbMode != "" && dbMode != "off" {
        return Some(ModeNotSupported(dbMode));
      }
      return None;
    }
  }

  /** A failed prefix of the entries fails the whole scan in the same way. */
  lemma {:induction false} ScanEnvPrefix(store: Store, codec: Codec, namespace: string, env: seq<EnvVar>, n: nat)
    requires n <= |env|
    ensures ScanEnv(store, codec, namespace, env[..n]).Failed? ==>
              ScanEnv(store, codec, namespace, env) == ScanEnv(store, codec, namespace, env[..n])
    decreases |env|
  {
    if n == |env| {
      assert env[..n] == env;
    } else {
      var front := env[..|env| - 1];
      assert front[..n] == env[..n];
      ScanEnvPrefix(store, codec, namespace, front, n);
    }
  }

  lemma {:induction false} ScanEnvFromPrefix(store: Store, codec: Codec, namespace: string,
                                             envFrom: seq<EnvFromSource>, n: nat)
    requires n <= |envFrom|
    ensures ScanEnvFrom(store, codec, namespace, envFrom[..n]).Failed? ==>
              ScanEnvFrom(store, codec, namespace, envFrom) == ScanEnvFrom(store, codec, namespace, envFrom[..n])
    decreases |envFrom|
  {
    if n == |envFrom| {
      assert envFrom[..n] == envFrom;
    } else {
      var front := envFrom[..|envFrom| - 1];
      assert front[..n] == envFrom[..n];
      ScanEnvFromPrefix(store, codec, namespace, front, n);
    }
  }
}
