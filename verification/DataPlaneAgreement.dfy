/** Exactly where the admission check of a DataPlane agrees with its container, which
    reads secrets as they are. */
module DataPlaneAgreement {
  import opened Wrappers
  import opened EnvVars
  import opened Cluster
  import opened DataPlaneDefaults
  import opened DataPlaneValidation

  /** Secrets as the container sees them. */
  const PLAIN := Codec(Verbatim, Verbatim)

  /** All references that are not optional lead somewhere; else no container starts. */
  predicate Starts(store: Store, namespace: string, env: seq<EnvVar>, envFrom: seq<EnvFromSource>) {
    && (forall v | v in env :: EntryStarts(store, namespace, v))
    && (forall f | f in envFrom :: SourceStarts(store, namespace, f))
  }

  predicate EntryStarts(store: Store, namespace: string, v: EnvVar) {
    v.value == "" && v.valueFrom.Some? ==>
      var config, secret := v.valueFrom.value.configMapKeyRef, v.valueFrom.value.secretKeyRef;
      && (config.Some? ==> config.value.optional || HasKey(store.configMaps, namespace, config.value))
      && (secret.Some? ==> secret.value.optional || HasKey(store.secrets, namespace, secret.value))
  }

  predicate SourceStarts(store: Store, namespace: string, f: EnvFromSource) {
    && (f.configMapRef.Some? ==>
          f.configMapRef.value.optional || Key(namespace, f.configMapRef.value.name) in store.configMaps)
    && (f.secretRef.Some? ==> f.secretRef.value.optional || Key(namespace, f.secretRef.value.name) in store.secrets)
  }

  /** If a container starts, it is without a database exactly if the check accepts. */
  ghost predicate Agrees(store: Store, codec: Codec, namespace: string, env: seq<EnvVar>, envFrom: seq<EnvFromSource>) {
    Starts(store, namespace, env, envFrom) ==>
      (Validated(store, codec, namespace, env, envFrom).None? <==> Databaseless(store, PLAIN, namespace, env, envFrom))
  }

  // ---------------------------------------------------------------------------
  // Entries
  // ---------------------------------------------------------------------------

  /** An entry that names the mode: a text, a text in a secret, an empty text, a key that
      is not there, or nothing that the check looks at. */
  datatype Reading = Text(text: string) | Coded(text: string) | Blank | Skipped | Silent

  predicate OneReference(v: EnvVar) {
    v.valueFrom.Some? ==> v.valueFrom.value.configMapKeyRef.None? || v.valueFrom.value.secretKeyRef.None?
  }

  function ReadingOf(store: Store, namespace: string, v: EnvVar): Reading {
    if v.value != "" then Text(v.value)
    else if v.valueFrom.None? then Silent
    else if v.valueFrom.value.configMapKeyRef.Some? then
      var ref := v.valueFrom.value.configMapKeyRef.value;
      if !HasKey(store.configMaps, namespace, ref) then Skipped
      else
        var text := store.configMaps[Key(namespace, ref.name)][ref.key];
        if text == "" then Blank else Text(text)
    else if v.valueFrom.value.secretKeyRef.Some? then
      var ref := v.valueFrom.value.secretKeyRef.value;
      if !HasKey(store.secrets, namespace, ref) then Skipped
      else
        var text := store.secrets[Key(namespace, ref.name)][ref.key];
        if text == "" then Blank else Coded(text)
    else Silent
  }

  /** The condition on the last entry that names the mode. A text decides for both
      sides. In a secret the check decodes it first, and turns to the sources if that
      fails. With an empty text the container is without a database, while the check turns
      to the sources, or, if it is a literal, keeps to what earlier entries said. Where an
      optional key is missing the check turns to the sources as well, and the container
      to the entries before. */
  ghost predicate EntryAgrees(store: Store, codec: Codec, namespace: string, env: seq<EnvVar>,
                              envFrom: seq<EnvFromSource>, i: int)
    requires 0 <= i < |env|
  {
    match ReadingOf(store, namespace, env[i])
    case Text(_) => true
    case Coded(text) =>
      if codec.std(text).Some? then ModeAllowed(codec.std(text).value) <==> ModeAllowed(text)
      else SourcesPass(store, codec, namespace, envFrom) <==> ModeAllowed(text)
    case Blank => SourcesPass(store, codec, namespace, envFrom)
    case Skipped =>
      SourcesPass(store, codec, namespace, envFrom) <==> Databaseless(store, PLAIN, namespace, env[..i], envFrom)
    case Silent =>
      var earlier := ScanEnv(store, codec, namespace, env[..i]);
      if earlier.Scanned? && earlier.mode.found then ModeAllowed(earlier.mode.value)
      else SourcesPass(store, codec, namespace, envFrom)
  }

  /** The scan of all entries is that of the last one that names the mode, after those
      before it. */
  lemma {:induction false} LastEntryScans(store: Store, codec: Codec, namespace: string, env: seq<EnvVar>, i: int)
    requires LastEntry(env, i) && forall v | v in env :: Exists(store, namespace, v)
    ensures ScanEnv(store, codec, namespace, env[..i]).Scanned?
    ensures ScanEnv(store, codec, namespace, env) ==
            ScanVar(store, codec, namespace, env[i], ScanEnv(store, codec, namespace, env[..i]).mode)
    decreases |env|
  {
    hide Exists, ScanVar;
    var front := env[..|env| - 1];
    assert forall v | v in front :: v in env;
    if i == |env| - 1 {
      ExistingNeverFail(store, codec, namespace, front);
    } else {
      assert front[i] == env[i] && front[..i] == env[..i];
      LastEntryScans(store, codec, namespace, front, i);
      ExistingNeverFail(store, codec, namespace, front);
      OtherNamesPass(store, codec, namespace, env[|env| - 1], ScanEnv(store, codec, namespace, front).mode);
    }
  }

  lemma ContainerReadsLast(store: Store, namespace: string, env: seq<EnvVar>, envFrom: seq<EnvFromSource>, i: int)
    requires LastEntry(env, i) && !Skips(store, namespace, env[i])
    ensures var value := EntryValue(store, PLAIN, namespace, env[i]);
            Databaseless(store, PLAIN, namespace, env, envFrom) <==> value.None? || ModeAllowed(value.value)
  {
    hide EntryValue, ModeAllowed, Effective, Skips;
    forall value {
      LastEntryIsSeen(store, PLAIN, namespace, env, envFrom, i, value);
    }
  }

  lemma SkippedIsUnseen(store: Store, namespace: string, env: seq<EnvVar>, envFrom: seq<EnvFromSource>, i: int,
                        value: string)
    requires LastEntry(env, i) && Skips(store, namespace, env[i])
    ensures Effective(store, PLAIN, namespace, env, envFrom, value) <==>
            Effective(store, PLAIN, namespace, env[..i], envFrom, value)
  {
  }

  /** An entry that is passed over changes nothing. */
  lemma ContainerSkipsLast(store: Store, namespace: string, env: seq<EnvVar>, envFrom: seq<EnvFromSource>, i: int)
    requires LastEntry(env, i) && Skips(store, namespace, env[i])
    ensures Databaseless(store, PLAIN, namespace, env, envFrom) <==>
            Databaseless(store, PLAIN, namespace, env[..i], envFrom)
  {
    hide ModeAllowed, Effective, Skips;
    forall value {
      SkippedIsUnseen(store, namespace, env, envFrom, i, value);
    }
  }

  lemma ReadingOfValue(store: Store, namespace: string, v: EnvVar)
    requires OneReference(v) && EntryStarts(store, namespace, v)
    ensures var reading, value := ReadingOf(store, namespace, v), EntryValue(store, PLAIN, namespace, v);
            && (reading.Skipped? <==> Skips(store, namespace, v))
            && (if reading.Text? || reading.Coded? then value == Some(reading.text)
                else value.None? || value == Some(""))
  {
  }

  lemma ReadingOfScan(store: Store, codec: Codec, namespace: string, v: EnvVar, mode: Mode)
    requires OneReference(v) && v.name == APISIX_DATABASE && Exists(store, namespace, v)
    ensures ScanVar(store, codec, namespace, v, mode) ==
            match ReadingOf(store, namespace, v)
            case Text(text) => Scanned(Mode(text, true))
            case Coded(text) => Scanned(if codec.std(text).Some? then Mode(codec.std(text).value, true) else NOTHING)
            case Blank => Scanned(NOTHING)
            case Skipped => Scanned(NOTHING)
            case Silent => Scanned(mode)
  {
  }

  lemma AgreesWithEntry(store: Store, codec: Codec, namespace: string, env: seq<EnvVar>, envFrom: seq<EnvFromSource>,
                        i: int)
    requires LastEntry(env, i) && OneReference(env[i]) && forall v | v in env :: Exists(store, namespace, v)
    ensures Agrees(store, codec, namespace, env, envFrom) <==>
            (Starts(store, namespace, env, envFrom) ==> EntryAgrees(store, codec, namespace, env, envFrom, i))
  {
    hide ScanEnv, ScanEnvFrom, ScanVar, Exists, OneReference, EntryValue, ReadingOf, Databaseless, EntryStarts;
    hide SourceStarts, Skips;
    assert env[i] in env;
    if Starts(store, namespace, env, envFrom) {
      LastEntryScans(store, codec, namespace, env, i);
      ReadingOfValue(store, namespace, env[i]);
      ReadingOfScan(store, codec, namespace, env[i], ScanEnv(store, codec, namespace, env[..i]).mode);
      if Skips(store, namespace, env[i]) {
        ContainerSkipsLast(store, namespace, env, envFrom, i);
      } else {
        ContainerReadsLast(store, namespace, env, envFrom, i);
      }
    }
  }

  // ---------------------------------------------------------------------------
  // Sources
  // ---------------------------------------------------------------------------

  /** What a source holds under the name of the mode, if anything. */
  function Held(store: Store, namespace: string, f: EnvFromSource): Option<string> {
    var suffix := TrimPrefix(APISIX_DATABASE, f.prefix);
    if f.configMapRef.Some? then
      var key := Key(namespace, f.configMapRef.value.name);
      if key in store.configMaps && suffix in store.configMaps[key] then Some(store.configMaps[key][suffix]) else None
    else if f.secretRef.Some? then
      var key := Key(namespace, f.secretRef.value.name);
      if key in store.secrets && suffix in store.secrets[key] then Some(store.secrets[key][suffix]) else None
    else None
  }

  /** The condition on the last source whose prefix fits. What a config map holds decides
      for both sides, while the check decodes what a secret holds. If it holds nothing
      the check accepts, and the container has what the sources before it give. */
  ghost predicate SourceAgrees(store: Store, codec: Codec, namespace: string, env: seq<EnvVar>,
                               envFrom: seq<EnvFromSource>, i: int)
    requires 0 <= i < |envFrom|
  {
    var held := Held(store, namespace, envFrom[i]);
    if held.None? then Databaseless(store, PLAIN, namespace, env, envFrom[..i])
    else if envFrom[i].configMapRef.Some? then true
    else
      var decoded := codec.rawStd(held.value);
      (decoded.None? || ModeAllowed(decoded.value)) <==> ModeAllowed(held.value)
  }

  lemma HeldIsGiven(store: Store, namespace: string, f: EnvFromSource, value: string)
    requires SourceExists(store, namespace, f)
    ensures Gives(store, PLAIN, namespace, f, value) <==>
            f.prefix <= APISIX_DATABASE && Held(store, namespace, f) == Some(value)
  {
    hide Gives;
    ScannedIsGiven(store, PLAIN, namespace, f, value);
  }

  lemma HeldIsScanned(store: Store, codec: Codec, namespace: string, f: EnvFromSource)
    requires SourceExists(store, namespace, f) && f.prefix <= APISIX_DATABASE
    ensures var held := Held(store, namespace, f);
            ScanFrom(store, codec, namespace, f, NOTHING) ==
            if held.None? then Scanned(NOTHING)
            else if f.configMapRef.Some? then Scanned(Mode(held.value, true))
            else
              var decoded := codec.rawStd(held.value);
              Scanned(if decoded.Some? then Mode(decoded.value, true) else NOTHING)
  {
  }

  /** Sources after the last fitting one give nothing. */
  lemma ContainerReadsSource(store: Store, namespace: string, env: seq<EnvVar>, envFrom: seq<EnvFromSource>, i: int)
    requires !Names(env) && LastMatch(envFrom, i) && forall f | f in envFrom :: SourceExists(store, namespace, f)
    ensures Databaseless(store, PLAIN, namespace, env, envFrom) <==>
            var held := Held(store, namespace, envFrom[i]);
            if held.Some? then ModeAllowed(held.value) else Databaseless(store, PLAIN, namespace, env, envFrom[..i])
  {
    hide Gives, Held, SourceExists, ModeAllowed;
    forall f, value | f in envFrom {
      HeldIsGiven(store, namespace, f, value);
    }
    assert envFrom[i] in envFrom;
    var held := Held(store, namespace, envFrom[i]);
    if held.Some? {
      assert Gives(store, PLAIN, namespace, envFrom[i], held.value);
      assert Effective(store, PLAIN, namespace, env, envFrom, held.value);
    } else {
      forall value
        ensures Effective(store, PLAIN, namespace, env, envFrom, value) <==>
                Effective(store, PLAIN, namespace, env, envFrom[..i], value)
      {
        SameWithoutRest(store, namespace, env, envFrom, i, value);
      }
    }
  }

  lemma SameWithoutRest(store: Store, namespace: string, env: seq<EnvVar>, envFrom: seq<EnvFromSource>, i: int,
                        value: string)
    requires !Names(env) && 0 <= i < |envFrom|
    requires forall j, v | i <= j < |envFrom| :: !Gives(store, PLAIN, namespace, envFrom[j], v)
    ensures Effective(store, PLAIN, namespace, env, envFrom, value) <==>
            Effective(store, PLAIN, namespace, env, envFrom[..i], value)
  {
    hide Gives;
    var front := envFrom[..i];
    if Effective(store, PLAIN, namespace, env, envFrom, value) {
      var k :| && 0 <= k < |envFrom| && Gives(store, PLAIN, namespace, envFrom[k], value)
               && forall j, other | k < j < |envFrom| :: !Gives(store, PLAIN, namespace, envFrom[j], other);
      assert front[k] == envFrom[k];
    }
    if Effective(store, PLAIN, namespace, env, front, value) {
      var k :| && 0 <= k < |front| && Gives(store, PLAIN, namespace, front[k], value)
               && forall j, other | k < j < |front| :: !Gives(store, PLAIN, namespace, front[j], other);
      assert front[k] == envFrom[k];
      forall j, other | k < j < |envFrom|
        ensures !Gives(store, PLAIN, namespace, envFrom[j], other)
      {
        assert j < i ==> envFrom[j] == front[j];
      }
    }
  }

  lemma AgreesWithSource(store: Store, codec: Codec, namespace: string, env: seq<EnvVar>, envFrom: seq<EnvFromSource>,
                         i: int)
    requires !Names(env) && LastMatch(envFrom, i) && forall f | f in envFrom :: SourceExists(store, namespace, f)
    ensures Agrees(store, codec, namespace, env, envFrom) <==>
            (Starts(store, namespace, env, envFrom) ==> SourceAgrees(store, codec, namespace, env, envFrom, i))
  {
    hide ScanEnv, ScanEnvFrom, ScanFrom, SourceExists, Held, Databaseless, Starts;
    assert envFrom[i] in envFrom;
    UnnamedScansToNothing(store, codec, namespace, env);
    LastMatchDecides(store, codec, namespace, envFrom, i);
    HeldIsScanned(store, codec, namespace, envFrom[i]);
    ContainerReadsSource(store, namespace, env, envFrom, i);
  }

  lemma AgreesWithoutSource(store: Store, codec: Codec, namespace: string, env: seq<EnvVar>,
                            envFrom: seq<EnvFromSource>)
    requires !Names(env) && forall f | f in envFrom :: SourceExists(store, namespace, f)
    requires forall f | f in envFrom :: !(f.prefix <= APISIX_DATABASE)
    ensures Agrees(store, codec, namespace, env, envFrom)
  {
    hide ScanEnv, ScanEnvFrom, Gives, SourceExists, Starts;
    UnnamedScansToNothing(store, codec, namespace, env);
    UnmatchedScansToNothing(store, codec, namespace, envFrom);
    forall f, value | f in envFrom {
      HeldIsGiven(store, namespace, f, value);
    }
  }

  // ---------------------------------------------------------------------------
  // References that lead nowhere
  // ---------------------------------------------------------------------------

  /** An entry for the mode refers to an object that does not exist, or, without such an
      entry, a source does whose prefix fits. */
  predicate Dangles(store: Store, namespace: string, env: seq<EnvVar>, envFrom: seq<EnvFromSource>) {
    || (exists v | v in env :: !Exists(store, namespace, v))
    || (!Names(env) && exists f | f in envFrom :: !SourceExists(store, namespace, f))
  }

  lemma DanglingSourceFails(store: Store, codec: Codec, namespace: string, envFrom: seq<EnvFromSource>,
                            f: EnvFromSource)
    requires f in envFrom && OneSource(f) && !SourceExists(store, namespace, f)
    ensures ScanEnvFrom(store, codec, namespace, envFrom).Failed?
  {
    var k :| 0 <= k < |envFrom| && envFrom[k] == f;
    assert envFrom[..k + 1][..k] == envFrom[..k];
    ScanEnvFromPrefix(store, codec, namespace, envFrom, k + 1);
  }

  /** The check refuses, even where the reference is optional. */
  lemma DanglingIsRefused(store: Store, codec: Codec, namespace: string, env: seq<EnvVar>, envFrom: seq<EnvFromSource>)
    requires Dangles(store, namespace, env, envFrom) && forall f | f in envFrom :: OneSource(f)
    ensures Validated(store, codec, namespace, env, envFrom).Some?
  {
    hide ScanEnv, ScanEnvFrom, Exists, SourceExists, OneSource;
    if v :| v in env && !Exists(store, namespace, v) {
      DanglingFails(store, codec, namespace, env, v);
    } else {
      var f :| f in envFrom && !SourceExists(store, namespace, f);
      UnnamedScansToNothing(store, codec, namespace, env);
      DanglingSourceFails(store, codec, namespace, envFrom, f);
    }
  }

  // ---------------------------------------------------------------------------
  // The theorem, and what slips through
  // ---------------------------------------------------------------------------

  /** For all options whose references are to one object each, as the API demands: the
      check agrees with the container exactly if no container starts, or if one reference
      dangles and there is a database, or else under the condition on the last entry that
      names the mode, or on the last source whose prefix fits. */
  lemma CheckAgrees(store: Store, codec: Codec, namespace: string, env: seq<EnvVar>, envFrom: seq<EnvFromSource>)
    requires (forall v | v in env :: OneReference(v)) && forall f | f in envFrom :: OneSource(f)
    ensures Agrees(store, codec, namespace, env, envFrom) <==>
            (Starts(store, namespace, env, envFrom) ==>
               if Dangles(store, namespace, env, envFrom) then !Databaseless(store, PLAIN, namespace, env, envFrom)
               else if Names(env) then
                 forall i | LastEntry(env, i) :: EntryAgrees(store, codec, namespace, env, envFrom, i)
               else forall i | LastMatch(envFrom, i) :: SourceAgrees(store, codec, namespace, env, envFrom, i))
  {
    hide EntryAgrees, SourceAgrees, Exists, OneReference, SourceExists, Starts, Databaseless, Validated, OneSource;
    if Dangles(store, namespace, env, envFrom) {
      DanglingIsRefused(store, codec, namespace, env, envFrom);
    } else if Names(env) {
      var i := LastEntryExists(env);
      AgreesWithEntry(store, codec, namespace, env, envFrom, i);
    } else if exists f | f in envFrom :: f.prefix <= APISIX_DATABASE {
      var i := LastMatchExists(envFrom);
      AgreesWithSource(store, codec, namespace, env, envFrom, i);
    } else {
      AgreesWithoutSource(store, codec, namespace, env, envFrom);
    }
  }

  /** A source that fits by its prefix and holds nothing, put last, makes the check
      accept, and changes nothing for the container. */
  lemma HiddenDatabase(store: Store, codec: Codec, namespace: string, envFrom: seq<EnvFromSource>, f: EnvFromSource)
    requires forall g | g in envFrom + [f] :: SourceExists(store, namespace, g)
    requires f.prefix <= APISIX_DATABASE && Held(store, namespace, f).None?
    ensures Validated(store, codec, namespace, [], envFrom + [f]).None?
    ensures Databaseless(store, PLAIN, namespace, [], envFrom + [f]) <==>
            Databaseless(store, PLAIN, namespace, [], envFrom)
  {
    hide ScanEnvFrom, SourceExists, Held, Databaseless;
    var all, i := envFrom + [f], |envFrom|;
    assert all[i] == f && all[i] in all && all[..i] == envFrom;
    assert LastMatch(all, i);
    LastMatchDecides(store, codec, namespace, all, i);
    HeldIsScanned(store, codec, namespace, f);
    ContainerReadsSource(store, namespace, [], all, i);
  }

  /** Any mode can hide in this way: of two config maps the second lacks the key. */
  lemma AnyModeHides(codec: Codec, namespace: string, mode: string)
    ensures var a, b := Key(namespace, "a"), Key(namespace, "b");
            var store := Store(map[a := map[APISIX_DATABASE := mode], b := map[]], map[]);
            var envFrom := [AllOf("a"), AllOf("b")];
            && Validated(store, codec, namespace, [], envFrom).None?
            && (Databaseless(store, PLAIN, namespace, [], envFrom) <==> ModeAllowed(mode))
  {
    var a, b := Key(namespace, "a"), Key(namespace, "b");
    assert "a" != "b";
    var store := Store(map[a := map[APISIX_DATABASE := mode], b := map[]], map[]);
    HiddenDatabase(store, codec, namespace, [AllOf("a")], AllOf("b"));
    ContainerReadsSource(store, namespace, [], [AllOf("a")], 0);
    assert [AllOf("a")] + [AllOf("b")] == [AllOf("a"), AllOf("b")];
  }

  function AllOf(name: string): EnvFromSource {
    EnvFromSource("", Some(SourceSelector(name, false)), None)
  }

  /** A mode in a secret and nothing else: the check agrees with the container exactly
      if the text means the same to both, be it that it does not decode, or that it
      decodes to another mode. */
  lemma PlainSecretsSlipThrough(codec: Codec, namespace: string, text: string)
    ensures var store := Store(map[], map[Key(namespace, "s") := map["k" := text]]);
            var env := [Sourced(APISIX_DATABASE, EnvVarSource(None, None, None, Some(KeySelector("s", "k", false))))];
            Agrees(store, codec, namespace, env, []) <==>
            ((text == "" || codec.std(text).None? || ModeAllowed(codec.std(text).value)) <==> ModeAllowed(text))
  {
    var store := Store(map[], map[Key(namespace, "s") := map["k" := text]]);
    var v := Sourced(APISIX_DATABASE, EnvVarSource(None, None, None, Some(KeySelector("s", "k", false))));
    AgreesWithEntry(store, codec, namespace, [v], [], 0);
  }

  /** A database followed by an empty literal: the check refuses what the container would
      run without one. */
  lemma EmptyLiteralIsRefused(store: Store, codec: Codec, namespace: string, mode: string)
    requires !ModeAllowed(mode)
    ensures var env := [Literal(APISIX_DATABASE, mode), Literal(APISIX_DATABASE, "")];
            && Validated(store, codec, namespace, env, []) == Some(ModeNotSupported(mode))
            && Databaseless(store, PLAIN, namespace, env, [])
  {
    var env := [Literal(APISIX_DATABASE, mode), Literal(APISIX_DATABASE, "")];
    assert env[..1] == [Literal(APISIX_DATABASE, mode)];
    LastEntryScans(store, codec, namespace, env, 1);
    LastEntryDecides(store, codec, namespace, env[..1], 0);
    ContainerReadsLast(store, namespace, env, [], 1);
  }

  /** An empty text that is referred to, put last: the container has no database, while
      the check turns to the sources, and so refuses it if they give one. */
  lemma BlankTextIsPassedOver(store: Store, codec: Codec, namespace: string, env: seq<EnvVar>,
                              envFrom: seq<EnvFromSource>, v: EnvVar)
    requires forall u | u in env + [v] :: Exists(store, namespace, u)
    requires v.name == APISIX_DATABASE && OneReference(v) && ReadingOf(store, namespace, v) == Blank
    ensures Databaseless(store, PLAIN, namespace, env + [v], envFrom)
    ensures Validated(store, codec, namespace, env + [v], envFrom).None? <==>
            SourcesPass(store, codec, namespace, envFrom)
  {
    hide ScanEnv, ScanEnvFrom, Databaseless, Exists;
    var all, i := env + [v], |env|;
    assert all[i] == v && all[i] in all && LastEntry(all, i);
    LastEntryScans(store, codec, namespace, all, i);
    ReadingOfScan(store, codec, namespace, v, ScanEnv(store, codec, namespace, all[..i]).mode);
    BlankIsAllowed(store, namespace, v);
    ContainerReadsLast(store, namespace, all, envFrom, i);
  }

  lemma BlankIsAllowed(store: Store, namespace: string, v: EnvVar)
    requires ReadingOf(store, namespace, v) == Blank
    ensures !Skips(store, namespace, v) && EntryValue(store, PLAIN, namespace, v) == Some("")
  {
  }

  /** An optional key that is missing, put last: for the container nothing changes, while
      the check forgets the entries before and turns to the sources, or refuses if there
      is no such object. */
  lemma MissingKeyHidesEntries(store: Store, codec: Codec, namespace: string, env: seq<EnvVar>,
                               envFrom: seq<EnvFromSource>, v: EnvVar)
    requires forall u | u in env :: Exists(store, namespace, u)
    requires v.name == APISIX_DATABASE && OneReference(v) && Skips(store, namespace, v)
    ensures Databaseless(store, PLAIN, namespace, env + [v], envFrom) <==>
            Databaseless(store, PLAIN, namespace, env, envFrom)
    ensures Validated(store, codec, namespace, env + [v], envFrom).None? <==>
            Exists(store, namespace, v) && SourcesPass(store, codec, namespace, envFrom)
  {
    hide ScanEnv, ScanEnvFrom, Databaseless, Exists;
    var all, i := env + [v], |env|;
    assert all[i] == v && all[i] in all && all[..i] == env && LastEntry(all, i);
    ContainerSkipsLast(store, namespace, all, envFrom, i);
    if Exists(store, namespace, v) {
      LastEntryScans(store, codec, namespace, all, i);
      ReadingOfScan(store, codec, namespace, v, ScanEnv(store, codec, namespace, env).mode);
    } else {
      DanglingFails(store, codec, namespace, all, v);
    }
  }

  /** A database and then an optional key that is missing are accepted. */
  lemma AnyModeIsForgotten(codec: Codec, namespace: string, mode: string)
    requires mode != ""
    ensures var store := Store(map[Key(namespace, "m") := map[]], map[]);
            var missing := EnvVarSource(None, None, Some(KeySelector("m", "k", true)), None);
            var env := [Literal(APISIX_DATABASE, mode), Sourced(APISIX_DATABASE, missing)];
            && Starts(store, namespace, env, []) && Validated(store, codec, namespace, env, []).None?
            && (Databaseless(store, PLAIN, namespace, env, []) <==> ModeAllowed(mode))
  {
    hide Databaseless;
    var store := Store(map[Key(namespace, "m") := map[]], map[]);
    var missing := EnvVarSource(None, None, Some(KeySelector("m", "k", true)), None);
    var literal, v := Literal(APISIX_DATABASE, mode), Sourced(APISIX_DATABASE, missing);
    assert [literal] + [v] == [literal, v];
    MissingKeyHidesEntries(store, codec, namespace, [literal], [], v);
    ContainerReadsLast(store, namespace, [literal], [], 0);
  }
}
