/**
 * Shared vocabulary of the chart-verifier model: optional values, results
 * carrying the engine's errors, and the string helpers (ASCII lower-casing,
 * splitting on a separator) that the configuration code relies on.
 */
module Common {

  datatype Option<T> = None | Some(value: T)

  /** The kind of flag map a configuration key belongs to. */
  datatype FlagKind = BooleanFlag | DurationFlag | StringFlag | ValuesFlag

  /** Every error the engine can return. */
  datatype Error =
    | InvalidKey(kind: FlagKind, key: string)   // a flag key outside its whitelist
    | InvalidCheckName(name: string)            // a status entry outside the check catalog
    | MissingChartUri                           // Run called with an empty chart URI
    | ConflictingSelection                      // --enable and --disable both given
    | InvalidSelectedCheck(name: string)        // a selected check outside the catalog
    | NoReport                                  // a summary requested with no report attached
    | Foreign(message: string)                  // returned unchanged by a collaborator

  datatype Result<T> = Ok(value: T) | Err(error: Error)

  /** The two structured text encodings; anything other than "json" selects YAML. */
  datatype Format = Json | Yaml

  function FormatFor(flag: string): (f: Format)
    ensures f == Json <==> flag == "json"
  {
    if flag == "json" then Json else Yaml
  }

  function Elems<T>(s: seq<T>): set<T>
  {
    set x | x in s
  }

  ghost predicate Distinct<T>(s: seq<T>)
  {
    forall i, j :: 0 <= i < j < |s| ==> s[i] != s[j]
  }

  /** A map giving every key of `keys` the same value. */
  function Constant<K, V>(keys: set<K>, v: V): (m: map<K, V>)
    ensures m.Keys == keys
    ensures forall k :: k in m ==> m[k] == v
  {
    map k | k in keys :: v
  }

  // ---------------------------------------------------------------------
  // ASCII lower-casing

  function LowerChar(c: char): char
  {
    if 'A' <= c <= 'Z' then (c as int + 32) as char else c
  }

  /** The character is not an ASCII upper-case letter. */
  predicate NotUpper(c: char)
  {
    !('A' <= c <= 'Z')
  }

  /** The string with every ASCII upper-case letter replaced by its lower-case form. */
  function Lower(s: string): (r: string)
    ensures |r| == |s|
    ensures forall i :: 0 <= i < |s| ==> r[i] == LowerChar(s[i])
    ensures forall i :: 0 <= i < |r| ==> NotUpper(r[i])
  {
    if s == [] then [] else [LowerChar(s[0])] + Lower(s[1..])
  }

  // ---------------------------------------------------------------------
  // Splitting on a separator, as Go's strings.Split does for a one-character
  // separator: the parts between consecutive separators, "" included.

  function Count(s: string, c: char): nat
  {
    if s == [] then 0 else (if s[0] == c then 1 else 0) + Count(s[1..], c)
  }

  function Split(s: string, sep: char): (parts: seq<string>)
    ensures |parts| == Count(s, sep) + 1
    ensures forall i :: 0 <= i < |parts| ==> sep !in parts[i]
  {
    if s == [] then [""]
    else if s[0] == sep then [""] + Split(s[1..], sep)
    else
      var rest := Split(s[1..], sep);
      [[s[0]] + rest[0]] + rest[1..]
  }

  /** The parts glued back together with the separator (strings.Join). */
  function Join(parts: seq<string>, sep: char): string
    requires |parts| >= 1
  {
    if |parts| == 1 then parts[0] else parts[0] + [sep] + Join(parts[1..], sep)
  }

  /** Splitting loses nothing: joining the parts gives back the input. */
  lemma {:induction false} SplitJoin(s: string, sep: char)
    ensures Join(Split(s, sep), sep) == s
  {
    if s == [] {
    } else if s[0] == sep {
      SplitJoin(s[1..], sep);
      assert [""] + Split(s[1..], sep) == Split(s, sep);
      assert Split(s, sep)[1..] == Split(s[1..], sep);
      assert s == [sep] + s[1..];
    } else {
      SplitJoin(s[1..], sep);
      var rest := Split(s[1..], sep);
      if |rest| == 1 {
        assert Join(Split(s, sep), sep) == [s[0]] + rest[0];
      } else {
        assert Split(s, sep)[1..] == rest[1..];
        assert Join(rest, sep) == rest[0] + [sep] + Join(rest[1..], sep);
      }
      assert s == [s[0]] + s[1..];
    }
  }

  /** A string holding the separator splits into at least two parts. */
  lemma {:induction false} SplitHasTwoParts(s: string, sep: char)
    requires sep in s
    ensures |Split(s, sep)| >= 2
  {
    if s[0] != sep {
      assert sep in s[1..];
      SplitHasTwoParts(s[1..], sep);
    }
  }
}
