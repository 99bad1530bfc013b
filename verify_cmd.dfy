/**
 * The check-selection helpers of the verify command (cmd/verify.go):
 * turning the --enable / --disable lists into catalog check names, parsing
 * "key=value" settings into a map, and the selection branches of the
 * command's run function.
 */
module VerifyCmd {

  import opened Common
  import opened Profiles
  import opened ChartVerifier

  // ---------------------------------------------------------------------
  // convertChecks

  /** The catalog entries equal to `name`, in catalog order: what the inner
      loop of convertChecks appends for one requested name. */
  function MatchesIn(name: string, catalog: seq<string>): seq<string>
  {
    if catalog == [] then []
    else MatchesIn(name, catalog[..|catalog| - 1]) + (if catalog[|catalog| - 1] == name then [name] else [])
  }

  /** What convertChecks accumulates for a list of requested names. */
  function ConvertAll(checks: seq<string>, catalog: seq<string>): seq<string>
  {
    if checks == [] then []
    else ConvertAll(checks[..|checks| - 1], catalog) + MatchesIn(checks[|checks| - 1], catalog)
  }

  /** The index of the first requested name outside the catalog, or |checks| if there is none. */
  function FirstUnknown(checks: seq<string>, catalog: seq<string>): (j: nat)
    ensures j <= |checks|
    ensures forall i :: 0 <= i < j ==> checks[i] in catalog
    ensures j < |checks| ==> checks[j] !in catalog
  {
    if checks == [] then 0
    else if checks[0] !in catalog then 0
    else 1 + FirstUnknown(checks[1..], catalog)
  }

  /** The result of convertChecks: the names gathered up to the first
      unknown one, and an error naming it if there is one. */
  function Converted(checks: seq<string>, catalog: seq<string>): (seq<string>, Option<Error>)
  {
    var j := FirstUnknown(checks, catalog);
    if j == |checks| then (ConvertAll(checks, catalog), None)
    else (ConvertAll(checks[..j], catalog), Some(InvalidSelectedCheck(checks[j])))
  }

  lemma {:induction false} MatchesInAbsent(name: string, catalog: seq<string>)
    requires name !in catalog
    ensures MatchesIn(name, catalog) == []
  {
    if catalog != [] {
      MatchesInAbsent(name, catalog[..|catalog| - 1]);
    }
  }

  /** With a duplicate-free catalog, a known name matches exactly once. */
  lemma {:induction false} MatchesInDistinct(name: string, catalog: seq<string>)
    requires Distinct(catalog)
    requires name in catalog
    ensures MatchesIn(name, catalog) == [name]
  {
    var front := catalog[..|catalog| - 1];
    if catalog[|catalog| - 1] == name {
      assert name !in front;
      MatchesInAbsent(name, front);
    } else {
      assert name in front;
      MatchesInDistinct(name, front);
    }
  }

  /** With a duplicate-free catalog and only known names, convertChecks
      returns the requested names, in the requested order. */
  lemma {:induction false} ConvertAllIdentity(checks: seq<string>, catalog: seq<string>)
    requires Distinct(catalog)
    requires forall i :: 0 <= i < |checks| ==> checks[i] in catalog
    ensures ConvertAll(checks, catalog) == checks
  {
    if checks != [] {
      var n := |checks| - 1;
      ConvertAllIdentity(checks[..n], catalog);
      MatchesInDistinct(checks[n], catalog);
      assert checks == checks[..n] + [checks[n]];
    }
  }

  /** Whatever the catalog, the known names convert to the same set of names. */
  lemma {:induction false} ConvertAllElems(checks: seq<string>, catalog: seq<string>)
    requires forall i :: 0 <= i < |checks| ==> checks[i] in catalog
    ensures Elems(ConvertAll(checks, catalog)) == Elems(checks)
  {
    if checks != [] {
      var n := |checks| - 1;
      ConvertAllElems(checks[..n], catalog);
      MatchesInElems(checks[n], catalog);
      assert checks == checks[..n] + [checks[n]];
      assert Elems(checks) == Elems(checks[..n]) + {checks[n]};
    }
  }

  lemma {:induction false} MatchesInElems(name: string, catalog: seq<string>)
    requires name in catalog
    ensures Elems(MatchesIn(name, catalog)) == {name}
  {
    var front := catalog[..|catalog| - 1];
    if name in front {
      MatchesInElems(name, front);
    } else {
      MatchesInAbsent(name, front);
    }
  }

  /** convertChecks: fails on the first requested name outside the catalog,
      otherwise returns the catalog entries matching the requested names. */
  method ConvertChecks(checks: seq<string>, catalog: seq<string>) returns (names: seq<string>, err: Option<Error>)
    ensures (names, err) == Converted(checks, catalog)
  {
    names := [];
    var i := 0;
    while i < |checks|
      invariant 0 <= i <= |checks|
      invariant forall k :: 0 <= k < i ==> checks[k] in catalog
      invariant names == ConvertAll(checks[..i], catalog)
    {
      var check := checks[i];
      var found := false;
      var j := 0;
      while j < |catalog|
        invariant 0 <= j <= |catalog|
        invariant found <==> check in catalog[..j]
        invariant names == ConvertAll(checks[..i], catalog) + MatchesIn(check, catalog[..j])
      {
        assert catalog[..j + 1][..j] == catalog[..j];
        if check == catalog[j] {
          names := names + [catalog[j]];
          found := true;
        }
        j := j + 1;
      }
      assert catalog[..j] == catalog;
      if !found {
        MatchesInAbsent(check, catalog);
        return names, Some(InvalidSelectedCheck(check));
      }
      assert checks[..i + 1][..i] == checks[..i];
      i := i + 1;
    }
    assert checks[..i] == checks;
    return names, None;
  }

  /** convertChecks' outcome: an error exactly when some requested name is
      outside the catalog; on success, with a duplicate-free catalog, the
      requested names unchanged. */
  lemma ConvertedContract(checks: seq<string>, catalog: seq<string>)
    requires Distinct(catalog)
    ensures Converted(checks, catalog).1.None? <==> forall i :: 0 <= i < |checks| ==> checks[i] in catalog
    ensures Converted(checks, catalog).1.None? ==> Converted(checks, catalog).0 == checks
  {
    if FirstUnknown(checks, catalog) == |checks| {
      ConvertAllIdentity(checks, catalog);
    }
  }

  // ---------------------------------------------------------------------
  // buildChecks

  /** buildChecks: the two lists are mutually exclusive; the non-empty one is
      converted into its own slot and the other slot stays empty. */
  method BuildChecks(enabled: seq<string>, unEnabled: seq<string>, catalog: seq<string>)
    returns (enabledChecks: seq<string>, unEnabledChecks: seq<string>, err: Option<Error>)
    ensures |enabled| > 0 && |unEnabled| > 0 ==>
              enabledChecks == [] && unEnabledChecks == [] && err == Some(ConflictingSelection)
    ensures |enabled| > 0 && |unEnabled| == 0 ==>
              (enabledChecks, err) == Converted(enabled, catalog) && unEnabledChecks == []
    ensures |enabled| == 0 && |unEnabled| > 0 ==>
              (unEnabledChecks, err) == Converted(unEnabled, catalog) && enabledChecks == []
    ensures |enabled| == 0 && |unEnabled| == 0 ==>
              enabledChecks == [] && unEnabledChecks == [] && err == None
  {
    enabledChecks, unEnabledChecks := [], [];
    if |enabled| > 0 && |unEnabled| > 0 {
      err := Some(ConflictingSelection);
    } else if |enabled| > 0 {
      enabledChecks, err := ConvertChecks(enabled, catalog);
    } else if |unEnabled| > 0 {
      unEnabledChecks, err := ConvertChecks(unEnabled, catalog);
    } else {
      err := None;
    }
  }

  /** buildChecks fails exactly when both lists are given or the given one
      names a check outside the catalog. */
  lemma BuildChecksFailsIff(enabled: seq<string>, unEnabled: seq<string>, catalog: seq<string>)
    ensures var selected := if |enabled| > 0 then enabled else unEnabled;
            ((|enabled| > 0 && |unEnabled| > 0) || Converted(selected, catalog).1.Some?)
            <==> ((|enabled| > 0 && |unEnabled| > 0) || exists i :: 0 <= i < |selected| && selected[i] !in catalog)
  {
    var selected := if |enabled| > 0 then enabled else unEnabled;
    if FirstUnknown(selected, catalog) < |selected| {
      assert selected[FirstUnknown(selected, catalog)] !in catalog;
    }
  }

  // ---------------------------------------------------------------------
  // convertToMap

  ghost predicate AllAssignments(values: seq<string>)
  {
    forall i :: 0 <= i < |values| ==> '=' in values[i]
  }

  /** The map key of a "k=v" element: the text before the first '=', lower-cased. */
  function KeyOf(v: string): string
  {
    Lower(Split(v, '=')[0])
  }

  /** The map value of a "k=v" element: the text between the first '=' and
      the next one (or the end), which is what parts[1] of strings.Split is. */
  function ValueOf(v: string): string
    requires '=' in v
  {
    SplitHasTwoParts(v, '=');
    Split(v, '=')[1]
  }

  /** The map convertToMap builds: each element written in turn, so a later
      element replaces an earlier one with the same key. */
  function ToMap(values: seq<string>): map<string, string>
    requires AllAssignments(values)
  {
    if values == [] then map[]
    else ToMap(values[..|values| - 1])[KeyOf(values[|values| - 1]) := ValueOf(values[|values| - 1])]
  }

  /** convertToMap. Every element must contain '=' (Go indexes parts[1]). */
  method ConvertToMap(values: seq<string>) returns (valueMap: map<string, string>)
    requires AllAssignments(values)
    ensures valueMap == ToMap(values)
  {
    valueMap := map[];
    for i := 0 to |values|
      invariant valueMap == ToMap(values[..i])
    {
      assert values[..i + 1][..i] == values[..i];
      var parts := Split(values[i], '=');
      SplitHasTwoParts(values[i], '=');
      valueMap := valueMap[Lower(parts[0]) := parts[1]];
    }
    assert values[..|values|] == values;
  }

  /** The keys of the map are exactly the lower-cased keys of the elements. */
  lemma {:induction false} ToMapKeys(values: seq<string>)
    requires AllAssignments(values)
    ensures ToMap(values).Keys == set i | 0 <= i < |values| :: KeyOf(values[i])
  {
    if values != [] {
      var n := |values| - 1;
      ToMapKeys(values[..n]);
      var front := set i | 0 <= i < n :: KeyOf(values[..n][i]);
      assert front == set i | 0 <= i < n :: KeyOf(values[i]);
      assert (set i | 0 <= i < |values| :: KeyOf(values[i])) == front + {KeyOf(values[n])};
    }
  }

  /** An element whose key no later element repeats supplies the value for
      that key: when keys collide, the later element wins. */
  lemma {:induction false} ToMapLaterWins(values: seq<string>, j: nat)
    requires AllAssignments(values)
    requires j < |values|
    requires forall i :: j < i < |values| ==> KeyOf(values[i]) != KeyOf(values[j])
    ensures KeyOf(values[j]) in ToMap(values)
    ensures ToMap(values)[KeyOf(values[j])] == ValueOf(values[j])
  {
    var n := |values| - 1;
    if j < n {
      ToMapLaterWins(values[..n], j);
    }
  }

  /** Splitting "k=v" with no '=' inside k or v gives back k and v. */
  lemma {:induction false} SplitAssignment(k: string, v: string)
    requires '=' !in k && '=' !in v
    ensures Split(k + "=" + v, '=') == [k, v]
  {
    if k == [] {
      assert k + "=" + v == ['='] + v;
      SplitNoSeparator(v, '=');
    } else {
      SplitAssignment(k[1..], v);
      assert (k + "=" + v)[1..] == k[1..] + "=" + v;
      assert [k[0]] + k[1..] == k;
    }
  }

  lemma {:induction false} SplitNoSeparator(s: string, sep: char)
    requires sep !in s
    ensures Split(s, sep) == [s]
  {
    if s != [] {
      SplitNoSeparator(s[1..], sep);
      assert [s[0]] + s[1..] == s;
    }
  }

  /** convertToMap reads back what mapToStringSlice writes: an assignment
      "k=v" whose parts hold no '=' yields the lower-cased k and v. */
  lemma AssignmentRoundTrip(k: string, v: string)
    requires '=' !in k && '=' !in v
    ensures '=' in Assignment(k, v)
    ensures KeyOf(Assignment(k, v)) == Lower(k) && ValueOf(Assignment(k, v)) == v
  {
    SplitAssignment(k, v);
    assert Assignment(k, v)[|k|] == '=';
  }

  // ---------------------------------------------------------------------
  // The selection branches of the verify command

  /** Check selection: EnableChecks when the enabled list is non-empty, else
      UnEnableChecks when the disabled list is non-empty, else neither. */
  method SelectChecks(v: Verifier, enabled: seq<string>, unEnabled: seq<string>)
    modifies v`checks
    ensures v.checks == if |enabled| > 0 then EnableSpec(old(v.checks), v.catalog, enabled)
                        else if |unEnabled| > 0 then UnEnableSpec(old(v.checks), v.catalog, unEnabled)
                        else old(v.checks)
  {
    if |enabled| > 0 {
      v.EnableChecks(enabled);
    } else if |unEnabled| > 0 {
      v.UnEnableChecks(unEnabled);
    }
  }

  /** The check-selection part of the verify command: build the lists,
      create a verifier and apply the selection. On success the verifier's
      statuses cover exactly the catalog, and the enabled checks are the
      --enable list, or the catalog minus the --disable list, or the whole
      catalog. */
  method ConfigureChecks(enabledFlag: seq<string>, disabledFlag: seq<string>,
                         catalog: seq<string>, profiles: ProfileSource)
    returns (v: Verifier?, err: Option<Error>)
    ensures err.Some? <==> v == null
    ensures |enabledFlag| > 0 && |disabledFlag| > 0 ==> err == Some(ConflictingSelection)
    ensures v != null ==> fresh(v) && v.catalog == catalog && v.checks.Keys == Elems(catalog)
    ensures v != null && |enabledFlag| > 0 ==> EnabledSet(v.checks) == Elems(enabledFlag)
    ensures v != null && |enabledFlag| == 0 && |disabledFlag| > 0 ==>
              EnabledSet(v.checks) == Elems(catalog) - Elems(disabledFlag)
    ensures v != null && |enabledFlag| == 0 && |disabledFlag| == 0 ==> EnabledSet(v.checks) == Elems(catalog)
  {
    var enabledChecks, unEnabledChecks, checksErr := BuildChecks(enabledFlag, disabledFlag, catalog);
    if checksErr.Some? {
      return null, checksErr;
    }
    v := new Verifier(catalog, profiles);
    ghost var initial := v.checks;
    if |enabledFlag| > 0 {
      ConvertAllElems(enabledFlag, catalog);
      assert enabledFlag[0] in Elems(enabledChecks);
      assert forall n :: n in enabledChecks ==> n in Elems(enabledFlag);
      EnableIsAllowList(initial, catalog, enabledChecks);
    } else if |disabledFlag| > 0 {
      ConvertAllElems(disabledFlag, catalog);
      assert disabledFlag[0] in Elems(unEnabledChecks);
      assert forall n :: n in unEnabledChecks ==> n in Elems(disabledFlag);
      UnEnableIsDenyList(initial, catalog, unEnabledChecks);
    }
    SelectChecks(v, enabledChecks, unEnabledChecks);
    err := None;
  }
}
