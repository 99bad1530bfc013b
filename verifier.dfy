/**
 * The verifier's configuration store and check registry
 * (pkg/chartverifier/verifier/verifier.go): four typed flag maps, a
 * per-check enabled status, whitelist validation in a fixed order, and the
 * guard and option projection of Run. The check catalog is given to the
 * verifier when it is created; Helm's value merging and the check executor
 * are function parameters of Run.
 */
module ChartVerifier {

  import opened Common
  import opened ReportTypes
  import opened Profiles

  const ApiVersion := "1.0.0"

  // String flag keys
  const KubeApiServer := "kube-apiserver"
  const KubeAsUser := "kube-as-user"
  const KubeCaFile := "kube-ca-file"
  const KubeContext := "kube-context"
  const KubeToken := "kube-token"
  const KubeConfig := "kubeconfig"
  const Namespace := "namespace"
  const OpenshiftVersion := "openshift-version"
  const RegistryConfig := "registry-config"
  const RepositoryConfig := "repository-config"
  const RepositoryCache := "repository-cache"
  const Config := "config"
  const ChartValues := "chart-values"
  const KubeAsGroups := "kube-as-group"

  // Values flag keys
  const ChartSet := "chart-set"
  const ChartSetFile := "chart-set-file"
  const ChartSetString := "chart-set-string"
  const CommandSet := "set"

  // Boolean flag keys
  const ProviderDelivery := "provider-delivery"
  const SuppressErrorLog := "suppress-error-log"

  // Duration flag keys
  const Timeout := "timeout"

  /** The whitelists, one per flag map. */
  const StringKeys: seq<string> := [KubeApiServer, KubeAsUser, KubeCaFile, KubeConfig, KubeContext,
    KubeToken, Namespace, OpenshiftVersion, RegistryConfig, RepositoryConfig, RepositoryCache, Config,
    ChartValues, KubeAsGroups]
  const ValuesKeys: seq<string> := [CommandSet, ChartSet, ChartSetFile, ChartSetString]
  const BooleanKeys: seq<string> := [ProviderDelivery, SuppressErrorLog]
  const DurationKeys: seq<string> := [Timeout]

  // ---------------------------------------------------------------------
  // Specification of the registry and the validators

  ghost predicate KeysValid<V>(m: map<string, V>, whitelist: seq<string>)
  {
    forall k :: k in m ==> k in whitelist
  }

  ghost predicate ChecksValid(status: map<string, bool>, catalog: seq<string>)
  {
    forall c :: c in status ==> c in catalog
  }

  /** The names whose status is Enabled = true. */
  function EnabledSet(status: map<string, bool>): set<string>
  {
    set c | c in status && status[c]
  }

  /** The status map EnableChecks leaves: with names, every catalog check is
      first disabled and then every named check enabled; without names,
      every catalog check is enabled. */
  function EnableSpec(status: map<string, bool>, catalog: seq<string>, names: seq<string>): map<string, bool>
  {
    if |names| > 0 then status + Constant(Elems(catalog), false) + Constant(Elems(names), true)
    else status + Constant(Elems(catalog), true)
  }

  /** The status map UnEnableChecks leaves: with names, every catalog check is
      first enabled and then every named check disabled; without names, the
      map is left as it was. */
  function UnEnableSpec(status: map<string, bool>, catalog: seq<string>, names: seq<string>): map<string, bool>
  {
    if |names| > 0 then status + Constant(Elems(catalog), true) + Constant(Elems(names), false)
    else status
  }

  /** The keys of `m`, lower-cased. */
  function LowerKeys(m: map<string, string>): set<string>
  {
    set k | k in m :: Lower(k)
  }

  /** `after` is `before` with every supplied entry written under its
      lower-cased key; when two supplied keys differ only in case, one of
      them (unspecified which) supplies the value. */
  ghost predicate MergedLowered(before: map<string, string>, supplied: map<string, string>, after: map<string, string>)
  {
    && after.Keys == before.Keys + LowerKeys(supplied)
    && (forall l :: l in after && l !in LowerKeys(supplied) ==> after[l] == before[l])
    && (forall l :: l in LowerKeys(supplied) ==>
          exists k :: k in supplied && Lower(k) == l && after[l] == supplied[k])
  }

  /** The "name=value" text mapToStringSlice produces for one entry. */
  function Assignment(name: string, value: string): string
  {
    name + "=" + value
  }

  /** `s` lists the entries of `m` as assignments in the order `keys` visits
      them, each key exactly once. */
  ghost predicate ListsInOrder(s: seq<string>, m: map<string, string>, keys: seq<string>)
  {
    && Distinct(keys)
    && Elems(keys) == m.Keys
    && |s| == |keys|
    && forall i :: 0 <= i < |s| ==> keys[i] in m && s[i] == Assignment(keys[i], m[keys[i]])
  }

  /** `s` lists the entries of `m` as assignments, each entry once, in some order. */
  ghost predicate Lists(s: seq<string>, m: map<string, string>)
  {
    exists keys :: ListsInOrder(s, m, keys)
  }

  /** A sequence without repeats has as many distinct elements as positions. */
  lemma {:induction false} DistinctElemsCard(keys: seq<string>)
    requires Distinct(keys)
    ensures |Elems(keys)| == |keys|
  {
    if keys != [] {
      var n := |keys| - 1;
      assert Distinct(keys[..n]);
      DistinctElemsCard(keys[..n]);
      assert Elems(keys) == Elems(keys[..n]) + {keys[n]};
      assert keys[n] !in Elems(keys[..n]);
    }
  }

  /** A listing has one assignment per entry: every entry's assignment is in
      it, and every element is some entry's assignment. */
  lemma ListsCovers(s: seq<string>, m: map<string, string>)
    requires Lists(s, m)
    ensures |s| == |m|
    ensures forall k :: k in m ==> Assignment(k, m[k]) in s
    ensures forall x :: x in s ==> exists k :: k in m && x == Assignment(k, m[k])
  {
    var keys :| ListsInOrder(s, m, keys);
    DistinctElemsCard(keys);
    forall k | k in m
      ensures Assignment(k, m[k]) in s
    {
      assert k in Elems(keys);
      var i :| 0 <= i < |keys| && keys[i] == k;
      assert s[i] == Assignment(k, m[k]);
    }
  }

  // ---------------------------------------------------------------------
  // Lemmas about the registry

  /** A non-empty enable list over a catalog-only status map leaves exactly
      the catalog as keys and exactly the listed checks enabled. */
  lemma EnableIsAllowList(status: map<string, bool>, catalog: seq<string>, names: seq<string>)
    requires |names| > 0
    requires ChecksValid(status, catalog)
    requires forall n :: n in names ==> n in catalog
    ensures EnableSpec(status, catalog, names).Keys == Elems(catalog)
    ensures EnabledSet(EnableSpec(status, catalog, names)) == Elems(names)
    ensures ChecksValid(EnableSpec(status, catalog, names), catalog)
  {
    var r := EnableSpec(status, catalog, names);
    assert r.Keys == Elems(catalog) by {
      assert status.Keys <= Elems(catalog);
    }
  }

  /** A listed name outside the catalog becomes a new, enabled status entry,
      which validation then rejects. */
  lemma EnableUnknownNameRejected(status: map<string, bool>, catalog: seq<string>, names: seq<string>, n: string)
    requires n in names && n !in catalog
    ensures n in EnableSpec(status, catalog, names) && EnableSpec(status, catalog, names)[n]
    ensures !ChecksValid(EnableSpec(status, catalog, names), catalog)
  {
  }

  /** An empty enable list enables the whole catalog; doing it twice is the same as once. */
  lemma EnableEmptyResets(status: map<string, bool>, catalog: seq<string>)
    ensures Elems(catalog) <= EnabledSet(EnableSpec(status, catalog, []))
    ensures EnableSpec(EnableSpec(status, catalog, []), catalog, []) == EnableSpec(status, catalog, [])
  {
  }

  /** A non-empty disable list over a catalog-only status map leaves every
      catalog check enabled except the listed ones. */
  lemma UnEnableIsDenyList(status: map<string, bool>, catalog: seq<string>, names: seq<string>)
    requires |names| > 0
    requires ChecksValid(status, catalog)
    requires forall n :: n in names ==> n in catalog
    ensures UnEnableSpec(status, catalog, names).Keys == Elems(catalog)
    ensures EnabledSet(UnEnableSpec(status, catalog, names)) == Elems(catalog) - Elems(names)
  {
    var r := UnEnableSpec(status, catalog, names);
    assert r.Keys == Elems(catalog) by {
      assert status.Keys <= Elems(catalog);
    }
  }

  /** When no two supplied keys differ only in case, every supplied entry is
      found under its lower-cased key. */
  lemma MergedCaseDistinct(before: map<string, string>, supplied: map<string, string>, after: map<string, string>)
    requires MergedLowered(before, supplied, after)
    requires forall k1, k2 :: k1 in supplied && k2 in supplied && Lower(k1) == Lower(k2) ==> k1 == k2
    ensures forall k :: k in supplied ==> Lower(k) in after && after[Lower(k)] == supplied[k]
  {
    forall k | k in supplied
      ensures Lower(k) in after && after[Lower(k)] == supplied[k]
    {
      assert Lower(k) in LowerKeys(supplied);
      var k' :| k' in supplied && Lower(k') == Lower(k) && after[Lower(k)] == supplied[k'];
    }
  }

  lemma LowerKeysUpdate(m: map<string, string>, k: string, v: string)
    ensures LowerKeys(m[k := v]) == LowerKeys(m) + {Lower(k)}
  {
    forall l | l in LowerKeys(m[k := v])
      ensures l in LowerKeys(m) + {Lower(k)}
    {
      var k' :| k' in m[k := v] && Lower(k') == l;
      if k' != k {
        assert k' in m;
      }
    }
    forall l | l in LowerKeys(m)
      ensures l in LowerKeys(m[k := v])
    {
      var k' :| k' in m && Lower(k') == l;
      assert k' in m[k := v];
    }
    assert k in m[k := v];
  }

  /** One iteration of SetValues' merge loop keeps MergedLowered. */
  lemma MergeStep(before: map<string, string>, done: map<string, string>, inner: map<string, string>,
                  k: string, v: string)
    requires MergedLowered(before, done, inner)
    requires k !in done
    ensures MergedLowered(before, done[k := v], inner[Lower(k) := v])
  {
    var done', inner' := done[k := v], inner[Lower(k) := v];
    LowerKeysUpdate(done, k, v);
    assert inner'.Keys == before.Keys + LowerKeys(done');
    forall l | l in inner' && l !in LowerKeys(done')
      ensures inner'[l] == before[l]
    {
      assert l != Lower(k) && l !in LowerKeys(done);
    }
    forall l | l in LowerKeys(done')
      ensures exists k' :: k' in done' && Lower(k') == l && inner'[l] == done'[k']
    {
      if l == Lower(k) {
        assert k in done' && inner'[l] == done'[k];
      } else {
        assert l in LowerKeys(done);
        var k' :| k' in done && Lower(k') == l && inner[l] == done[k'];
        assert k' in done' && inner'[l] == done'[k'];
      }
    }
  }

  // ---------------------------------------------------------------------
  // Validators

  /** validateBooleanKeys, validateDurationKeys, validateStringKeys and
      validateValuesKeys: some error iff a key lies outside the whitelist.
      Go visits the keys in an unspecified order and the last invalid key
      seen names the error, so the model chooses the order. */
  method ValidateKeys<V>(m: map<string, V>, whitelist: seq<string>, kind: FlagKind) returns (err: Option<Error>)
    ensures err.None? <==> KeysValid(m, whitelist)
    ensures err.Some? ==> err.value.InvalidKey? && err.value.kind == kind
                          && err.value.key in m && err.value.key !in whitelist
  {
    err := None;
    var pending := m.Keys;
    while pending != {}
      invariant pending <= m.Keys
      invariant err.None? <==> (forall k :: k in m && k !in pending ==> k in whitelist)
      invariant err.Some? ==> err.value.InvalidKey? && err.value.kind == kind
                              && err.value.key in m && err.value.key !in whitelist
      decreases pending
    {
      var key :| key in pending;
      var found := false;
      var i := 0;
      while i < |whitelist|
        invariant 0 <= i <= |whitelist|
        invariant !found && key !in whitelist[..i]
      {
        if whitelist[i] == key {
          found := true;
          break;
        }
        i := i + 1;
      }
      assert found <==> key in whitelist by {
        if !found { assert whitelist[..i] == whitelist; }
      }
      if !found {
        err := Some(InvalidKey(kind, key));
      }
      pending := pending - {key};
    }
  }

  /** validateChecks: some error iff a status entry names a check outside
      the catalog; the loop stops at the first such name it visits. */
  method ValidateChecks(status: map<string, bool>, catalog: seq<string>) returns (err: Option<Error>)
    ensures err.None? <==> ChecksValid(status, catalog)
    ensures err.Some? ==> err.value.InvalidCheckName? && err.value.name in status
                          && err.value.name !in catalog
  {
    var pending := status.Keys;
    while pending != {}
      invariant pending <= status.Keys
      invariant forall c :: c in status && c !in pending ==> c in catalog
      decreases pending
    {
      var name :| name in pending;
      var isValid := false;
      var i := 0;
      while i < |catalog|
        invariant 0 <= i <= |catalog|
        invariant !isValid && name !in catalog[..i]
      {
        if name == catalog[i] {
          isValid := true;
          break;
        }
        i := i + 1;
      }
      if !isValid {
        assert catalog[..i] == catalog;
        return Some(InvalidCheckName(name));
      }
      pending := pending - {name};
    }
    return None;
  }

  /** mapToStringSlice: every entry as "name=value", in Go's unspecified map order. */
  method MapToStringSlice(m: map<string, string>) returns (s: seq<string>)
    ensures Lists(s, m)
  {
    s := [];
    ghost var keys: seq<string> := [];
    var pending := m.Keys;
    while pending != {}
      invariant pending <= m.Keys
      invariant Distinct(keys)
      invariant Elems(keys) == m.Keys - pending
      invariant |s| == |keys|
      invariant forall i :: 0 <= i < |s| ==> keys[i] in m && s[i] == Assignment(keys[i], m[keys[i]])
      decreases pending
    {
      var name :| name in pending;
      assert forall i :: 0 <= i < |keys| ==> keys[i] in Elems(keys);
      s := s + [Assignment(name, m[name])];
      assert Elems(keys + [name]) == Elems(keys) + {name};
      keys := keys + [name];
      pending := pending - {name};
    }
    assert ListsInOrder(s, m, keys);
  }

  // ---------------------------------------------------------------------
  // What Run hands to the collaborators

  /** The Helm value options Run builds before merging (values.Options). */
  datatype HelmValueOptions = HelmValueOptions(
    values: seq<string>,        // from the chart-set values
    fileValues: seq<string>,    // from the chart-set-file values
    stringValues: seq<string>,  // from the chart-set-string values
    valueFiles: seq<string>)    // the chart-values string flag

  /** The Helm environment settings setHelmEnv writes (cli.EnvSettings). */
  datatype HelmEnv = HelmEnv(
    kubeApiServer: string, kubeAsUser: string, kubeCaFile: string, kubeConfig: string,
    kubeContext: string, kubeToken: string, namespace: string, registryConfig: string,
    repositoryConfig: string, repositoryCache: string, kubeAsGroups: seq<string>)

  /** The string keys setHelmEnv reads only the first value of. */
  const HelmSingleKeys: seq<string> := [KubeApiServer, KubeAsUser, KubeCaFile, KubeConfig,
    KubeContext, KubeToken, Namespace, RegistryConfig, RepositoryConfig, RepositoryCache]

  /** setHelmEnv can index `value[0]` for every single-value key present. */
  predicate HelmEnvDefined(stringFlags: map<string, seq<string>>)
  {
    forall k :: k in stringFlags && k in HelmSingleKeys ==> |stringFlags[k]| > 0
  }

  /** The first value under `key` if present, else `default`. */
  function FirstOr(stringFlags: map<string, seq<string>>, key: string, default: string): string
    requires key in stringFlags ==> |stringFlags[key]| > 0
  {
    if key in stringFlags then stringFlags[key][0] else default
  }

  /** The settings after setHelmEnv: each Helm key present overrides the
      matching default, kube-as-group with its whole list. */
  function HelmEnvOf(defaults: HelmEnv, stringFlags: map<string, seq<string>>): HelmEnv
    requires HelmEnvDefined(stringFlags)
  {
    HelmEnv(
      FirstOr(stringFlags, KubeApiServer, defaults.kubeApiServer),
      FirstOr(stringFlags, KubeAsUser, defaults.kubeAsUser),
      FirstOr(stringFlags, KubeCaFile, defaults.kubeCaFile),
      FirstOr(stringFlags, KubeConfig, defaults.kubeConfig),
      FirstOr(stringFlags, KubeContext, defaults.kubeContext),
      FirstOr(stringFlags, KubeToken, defaults.kubeToken),
      FirstOr(stringFlags, Namespace, defaults.namespace),
      FirstOr(stringFlags, RegistryConfig, defaults.registryConfig),
      FirstOr(stringFlags, RepositoryConfig, defaults.repositoryConfig),
      FirstOr(stringFlags, RepositoryCache, defaults.repositoryCache),
      if KubeAsGroups in stringFlags then stringFlags[KubeAsGroups] else defaults.kubeAsGroups)
  }

  /** One case of setHelmEnv's switch: the setting `key` names takes `value`;
      any other key changes nothing. */
  function SetHelmSetting(env: HelmEnv, key: string, value: seq<string>): HelmEnv
    requires key in HelmSingleKeys ==> |value| > 0
  {
    if key == KubeApiServer then env.(kubeApiServer := value[0])
    else if key == KubeAsUser then env.(kubeAsUser := value[0])
    else if key == KubeCaFile then env.(kubeCaFile := value[0])
    else if key == KubeConfig then env.(kubeConfig := value[0])
    else if key == KubeContext then env.(kubeContext := value[0])
    else if key == KubeToken then env.(kubeToken := value[0])
    else if key == Namespace then env.(namespace := value[0])
    else if key == RegistryConfig then env.(registryConfig := value[0])
    else if key == RepositoryConfig then env.(repositoryConfig := value[0])
    else if key == RepositoryCache then env.(repositoryCache := value[0])
    else if key == KubeAsGroups then env.(kubeAsGroups := value)
    else env
  }

  /** setHelmEnv: visits the string flags in Go's unspecified map order and
      applies each one's case of the switch; the result is the same for
      every order. */
  method SetHelmEnv(defaults: HelmEnv, stringFlags: map<string, seq<string>>) returns (env: HelmEnv)
    requires HelmEnvDefined(stringFlags)
    ensures env == HelmEnvOf(defaults, stringFlags)
  {
    env := defaults;
    var pending := stringFlags.Keys;
    while pending != {}
      invariant pending <= stringFlags.Keys
      invariant env == HelmEnvOf(defaults, map k | k in stringFlags && k !in pending :: stringFlags[k])
      decreases pending
    {
      var key :| key in pending;
      ghost var before := map k | k in stringFlags && k !in pending :: stringFlags[k];
      pending := pending - {key};
      ghost var after := map k | k in stringFlags && k !in pending :: stringFlags[k];
      assert after == before[key := stringFlags[key]];
      HelmEnvStep(defaults, before, key, stringFlags[key]);
      env := SetHelmSetting(env, key, stringFlags[key]);
    }
    assert stringFlags == map k | k in stringFlags && k !in pending :: stringFlags[k];
  }

  /** Applying one more key's case to the settings of the keys seen so far
      gives the settings of them all. */
  lemma HelmEnvStep(defaults: HelmEnv, seen: map<string, seq<string>>, key: string, value: seq<string>)
    requires HelmEnvDefined(seen) && key !in seen
    requires key in HelmSingleKeys ==> |value| > 0
    ensures HelmEnvDefined(seen[key := value])
    ensures HelmEnvOf(defaults, seen[key := value]) == SetHelmSetting(HelmEnvOf(defaults, seen), key, value)
  {
  }

  /** With no string flags the settings stay the defaults; a key outside the
      switch, such as openshift-version or chart-values, never changes them. */
  lemma HelmEnvIgnoresOtherKeys(defaults: HelmEnv, stringFlags: map<string, seq<string>>, key: string, value: seq<string>)
    requires HelmEnvDefined(stringFlags)
    requires key !in HelmSingleKeys && key != KubeAsGroups
    ensures HelmEnvOf(defaults, map[]) == defaults
    ensures HelmEnvDefined(stringFlags[key := value])
    ensures HelmEnvOf(defaults, stringFlags[key := value]) == HelmEnvOf(defaults, stringFlags)
  {
  }

  /** The options handed to the check executor (api.RunOptions). */
  datatype RunOptions = RunOptions(
    chartUri: string,
    values: map<string, string>,     // Helm's merged values
    overrides: map<string, string>,  // the "set" values
    checksToRun: seq<string>,
    openShiftVersion: string,
    providerDelivery: bool,
    suppressErrorLog: bool,
    clientTimeout: int,
    apiVersion: string)

  class Verifier {
    const catalog: seq<string>
    var booleanFlags: map<string, bool>
    var durationFlags: map<string, int>
    var stringFlags: map<string, seq<string>>
    var valuesFlags: map<string, map<string, string>>
    var checks: map<string, bool>
    var chartUri: string
    var report: Option<Report>

    /** NewVerifier / initialize: all catalog checks enabled, both boolean
        flags false, the default profile recorded under the "set" values, no
        report. */
    constructor (catalog: seq<string>, profiles: ProfileSource)
      ensures this.catalog == catalog
      ensures booleanFlags == map[ProviderDelivery := false, SuppressErrorLog := false]
      ensures durationFlags == map[] && stringFlags == map[]
      ensures valuesFlags == map[CommandSet := map[profiles.vendorTypeKey := profiles.defaultVendorType,
                                                   profiles.versionKey := profiles.defaultVersion]]
      ensures checks == Constant(Elems(catalog), true)
      ensures EnabledSet(checks) == Elems(catalog)
      ensures chartUri == "" && report == None
    {
      var status: map<string, bool> := map[];
      for i := 0 to |catalog|
        invariant status == Constant(Elems(catalog[..i]), true)
      {
        assert Elems(catalog[..i + 1]) == Elems(catalog[..i]) + {catalog[i]} by {
          assert catalog[..i + 1] == catalog[..i] + [catalog[i]];
        }
        status := status[catalog[i] := true];
      }
      assert catalog[..|catalog|] == catalog;
      this.catalog := catalog;
      stringFlags := map[];
      valuesFlags := map[];
      booleanFlags := map[ProviderDelivery := false, SuppressErrorLog := false];
      durationFlags := map[];
      checks := status;
      chartUri := "";
      report := None;
      new;
      SetValues(CommandSet, map[profiles.vendorTypeKey := profiles.defaultVendorType,
                                profiles.versionKey := profiles.defaultVersion]);
    }

    /** Overwrites the boolean flag; nothing else changes. */
    method SetBoolean(key: string, value: bool)
      modifies this`booleanFlags
      ensures booleanFlags == old(booleanFlags)[key := value]
    {
      booleanFlags := booleanFlags[key := value];
    }

    /** Overwrites the duration flag; nothing else changes. */
    method SetDuration(key: string, duration: int)
      modifies this`durationFlags
      ensures durationFlags == old(durationFlags)[key := duration]
    {
      durationFlags := durationFlags[key := duration];
    }

    /** Overwrites the string-list flag; nothing else changes. */
    method SetString(key: string, value: seq<string>)
      modifies this`stringFlags
      ensures stringFlags == old(stringFlags)[key := value]
    {
      stringFlags := stringFlags[key := value];
    }

    /** For a values key already present, merges the supplied entries into
        it under lower-cased keys; for a new key, stores the supplied map as
        it is. */
    method SetValues(key: string, values: map<string, string>)
      modifies this`valuesFlags
      ensures key !in old(valuesFlags) ==> valuesFlags == old(valuesFlags)[key := values]
      ensures key in old(valuesFlags) ==>
        && valuesFlags.Keys == old(valuesFlags).Keys
        && (forall k :: k in valuesFlags && k != key ==> valuesFlags[k] == old(valuesFlags)[k])
        && MergedLowered(old(valuesFlags)[key], values, valuesFlags[key])
    {
      if key in valuesFlags {
        var before := valuesFlags[key];
        var inner := before;
        var pending := values.Keys;
        ghost var done: map<string, string> := map[];
        while pending != {}
          invariant pending <= values.Keys
          invariant done == values - pending
          invariant MergedLowered(before, done, inner)
          invariant valuesFlags == old(valuesFlags)
          decreases pending
        {
          var k :| k in pending;
          MergeStep(before, done, inner, k, values[k]);
          inner := inner[Lower(k) := values[k]];
          done := done[k := values[k]];
          pending := pending - {k};
        }
        assert done == values;
        valuesFlags := valuesFlags[key := inner];
      } else {
        valuesFlags := valuesFlags[key := values];
      }
    }

    /** With names: an allow-list over the catalog. Without: the whole catalog enabled. */
    method EnableChecks(names: seq<string>)
      modifies this`checks
      ensures checks == EnableSpec(old(checks), catalog, names)
    {
      if |names| > 0 {
        SetAll(catalog, false);
        SetAll(names, true);
      } else {
        SetAll(catalog, true);
      }
    }

    /** With names: a deny-list over the catalog. Without: no change. */
    method UnEnableChecks(names: seq<string>)
      modifies this`checks
      ensures checks == UnEnableSpec(old(checks), catalog, names)
    {
      if |names| > 0 {
        SetAll(catalog, true);
        SetAll(names, false);
      }
    }

    /** One loop of EnableChecks / UnEnableChecks: the status of every listed name set to `enabled`. */
    method SetAll(names: seq<string>, enabled: bool)
      modifies this`checks
      ensures checks == old(checks) + Constant(Elems(names), enabled)
    {
      var i := 0;
      while i < |names|
        invariant 0 <= i <= |names|
        invariant checks == old(checks) + Constant(Elems(names[..i]), enabled)
      {
        assert Elems(names[..i + 1]) == Elems(names[..i]) + {names[i]} by {
          assert names[..i + 1] == names[..i] + [names[i]];
        }
        checks := checks[names[i] := enabled];
        i := i + 1;
      }
      assert names[..i] == names;
    }

    ghost predicate InputsValid()
      reads this`booleanFlags, this`durationFlags, this`stringFlags, this`valuesFlags, this`checks
    {
      && KeysValid(booleanFlags, BooleanKeys)
      && ChecksValid(checks, catalog)
      && KeysValid(durationFlags, DurationKeys)
      && KeysValid(valuesFlags, ValuesKeys)
      && KeysValid(stringFlags, StringKeys)
    }

    /** `e` reports a violation of the first failing validator, in the order
        boolean, checks, duration, values, string. */
    ghost predicate IsFirstFailure(e: Error)
      reads this`booleanFlags, this`durationFlags, this`stringFlags, this`valuesFlags, this`checks
    {
      if !KeysValid(booleanFlags, BooleanKeys) then
        e.InvalidKey? && e.kind == BooleanFlag && e.key in booleanFlags && e.key !in BooleanKeys
      else if !ChecksValid(checks, catalog) then
        e.InvalidCheckName? && e.name in checks && e.name !in catalog
      else if !KeysValid(durationFlags, DurationKeys) then
        e.InvalidKey? && e.kind == DurationFlag && e.key in durationFlags && e.key !in DurationKeys
      else if !KeysValid(valuesFlags, ValuesKeys) then
        e.InvalidKey? && e.kind == ValuesFlag && e.key in valuesFlags && e.key !in ValuesKeys
      else if !KeysValid(stringFlags, StringKeys) then
        e.InvalidKey? && e.kind == StringFlag && e.key in stringFlags && e.key !in StringKeys
      else
        false
    }

    /** checkInputs: no error iff all five validators pass; otherwise the
        error of the first one that fails. */
    method CheckInputs() returns (err: Option<Error>)
      ensures err.None? <==> InputsValid()
      ensures err.Some? ==> IsFirstFailure(err.value)
    {
      err := ValidateKeys(booleanFlags, BooleanKeys, BooleanFlag);
      if err.None? {
        err := ValidateChecks(checks, catalog);
      }
      if err.None? {
        err := ValidateKeys(durationFlags, DurationKeys, DurationFlag);
      }
      if err.None? {
        err := ValidateKeys(valuesFlags, ValuesKeys, ValuesFlag);
      }
      if err.None? {
        err := ValidateKeys(stringFlags, StringKeys, StringFlag);
      }
    }

    /** `h` is what Run builds from the values and string flags for Helm. */
    ghost predicate IsHelmOptions(h: HelmValueOptions)
      reads this`booleanFlags, this`durationFlags, this`stringFlags, this`valuesFlags, this`checks
    {
      && (if ChartSet in valuesFlags then Lists(h.values, valuesFlags[ChartSet]) else h.values == [])
      && (if ChartSetFile in valuesFlags then Lists(h.fileValues, valuesFlags[ChartSetFile]) else h.fileValues == [])
      && (if ChartSetString in valuesFlags then Lists(h.stringValues, valuesFlags[ChartSetString]) else h.stringValues == [])
      && h.valueFiles == (if ChartValues in stringFlags then stringFlags[ChartValues] else [])
    }

    /** `o` is the projection of the configuration Run hands to the executor. */
    ghost predicate IsHandedOptions(o: RunOptions, uri: string)
      requires OpenshiftVersion in stringFlags ==> |stringFlags[OpenshiftVersion]| > 0
      reads this`booleanFlags, this`durationFlags, this`stringFlags, this`valuesFlags, this`checks
    {
      && o.chartUri == uri
      && o.overrides == (if CommandSet in valuesFlags then valuesFlags[CommandSet] else map[])
      && Distinct(o.checksToRun)
      && Elems(o.checksToRun) == EnabledSet(checks)
      && o.openShiftVersion == (if OpenshiftVersion in stringFlags then stringFlags[OpenshiftVersion][0] else "")
      && o.providerDelivery == (ProviderDelivery in booleanFlags && booleanFlags[ProviderDelivery])
      && o.suppressErrorLog == (SuppressErrorLog in booleanFlags && booleanFlags[SuppressErrorLog])
      && o.clientTimeout == (if Timeout in durationFlags then durationFlags[Timeout] else 0)
      && o.apiVersion == ApiVersion
    }

    /** The Helm value options Run assembles from the chart-set,
        chart-set-file and chart-set-string values and the chart-values
        files. */
    method HelmOptions() returns (h: HelmValueOptions)
      ensures IsHelmOptions(h)
    {
      h := HelmValueOptions([], [], [], []);
      if ChartSet in valuesFlags {
        var s := MapToStringSlice(valuesFlags[ChartSet]);
        h := h.(values := s);
      }
      if ChartSetFile in valuesFlags {
        var s := MapToStringSlice(valuesFlags[ChartSetFile]);
        h := h.(fileValues := s);
      }
      if ChartSetString in valuesFlags {
        var s := MapToStringSlice(valuesFlags[ChartSetString]);
        h := h.(stringValues := s);
      }
      if ChartValues in stringFlags {
        h := h.(valueFiles := stringFlags[ChartValues]);
      }
    }

    /** The checks Run hands to the executor: every status entry with
        Enabled = true, each once, in Go's unspecified map order. */
    method ChecksToRun() returns (toRun: seq<string>)
      ensures Distinct(toRun)
      ensures Elems(toRun) == EnabledSet(checks)
    {
      toRun := [];
      var pending := checks.Keys;
      while pending != {}
        invariant pending <= checks.Keys
        invariant Distinct(toRun)
        invariant Elems(toRun) == EnabledSet(checks) - pending
        decreases pending
      {
        var name :| name in pending;
        if checks[name] {
          assert name !in Elems(toRun);
          assert Elems(toRun + [name]) == Elems(toRun) + {name};
          toRun := toRun + [name];
        }
        pending := pending - {name};
      }
    }

    /** Run: rejects an empty chart URI before anything else, validates the
        configuration before any collaborator is called, hands the executor
        exactly the enabled checks, and records the report only on success.
        Helm's merge sees the value options and the environment settings
        setHelmEnv derives from `defaults` (cli.New) and the string flags.
        `handed` is the options the executor received, if it was called. */
    method Run(uri: string, defaults: HelmEnv,
               merge: (HelmValueOptions, HelmEnv) -> Result<map<string, string>>,
               execute: RunOptions -> Result<Report>)
      returns (err: Option<Error>, handed: Option<RunOptions>, ghost helm: HelmValueOptions)
      requires |uri| > 0 && InputsValid() && OpenshiftVersion in stringFlags ==> |stringFlags[OpenshiftVersion]| > 0
      requires |uri| > 0 && InputsValid() ==> HelmEnvDefined(stringFlags)
      modifies this`chartUri, this`report
      ensures |uri| == 0 ==> err == Some(MissingChartUri) && handed == None
                             && chartUri == old(chartUri) && report == old(report)
      ensures |uri| > 0 ==> chartUri == uri
      ensures |uri| > 0 && !InputsValid() ==> err.Some? && IsFirstFailure(err.value) && handed == None
      ensures handed.None? ==> err.Some? && report == old(report)
      ensures |uri| > 0 && InputsValid() ==> IsHelmOptions(helm)
      ensures handed.None? && |uri| > 0 && InputsValid() ==> merge(helm, HelmEnvOf(defaults, stringFlags)) == Err(err.value)
      ensures handed.Some? ==> |uri| > 0 && InputsValid() && IsHandedOptions(handed.value, uri)
      ensures handed.Some? ==> merge(helm, HelmEnvOf(defaults, stringFlags)) == Ok(handed.value.values)
      ensures handed.Some? ==>
                match execute(handed.value)
                case Ok(rep) => err == None && report == Some(rep)
                case Err(e) => err == Some(e) && report == old(report)
    {
      handed := None;
      helm := HelmValueOptions([], [], [], []);
      if |uri| == 0 {
        err := Some(MissingChartUri);
        return;
      }
      chartUri := uri;

      err := CheckInputs();
      if err.Some? {
        return;
      }

      var settings := SetHelmEnv(defaults, stringFlags);
      var h := HelmOptions();
      helm := h;
      var merged := merge(h, settings);
      if merged.Err? {
        err := Some(merged.error);
        return;
      }
      var options := HandedOptions(uri, merged.value);
      handed := Some(options);
      var outcome := execute(options);
      if outcome.Err? {
        err := Some(outcome.error);
        return;
      }
      report := Some(outcome.value);
    }

    /** The projection of the configuration onto the executor's options. */
    method HandedOptions(uri: string, values: map<string, string>) returns (options: RunOptions)
      requires OpenshiftVersion in stringFlags ==> |stringFlags[OpenshiftVersion]| > 0
      ensures IsHandedOptions(options, uri) && options.values == values
    {
      var toRun := ChecksToRun();
      options := RunOptions(
        uri,
        values,
        if CommandSet in valuesFlags then valuesFlags[CommandSet] else map[],
        toRun,
        if OpenshiftVersion in stringFlags then stringFlags[OpenshiftVersion][0] else "",
        ProviderDelivery in booleanFlags && booleanFlags[ProviderDelivery],
        SuppressErrorLog in booleanFlags && booleanFlags[SuppressErrorLog],
        if Timeout in durationFlags then durationFlags[Timeout] else 0,
        ApiVersion);
    }
  }
}
