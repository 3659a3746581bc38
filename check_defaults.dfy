/**
 * The consistency check between the settings metadata and the default
 * settings: it cuts the defaults' `settings:` block out of the defaults
 * source text, collects the keys there and reports every setting id that
 * has no default key. It exits with 2 when the block cannot be found, 1
 * when some id lacks a default and 0 otherwise. The two regular-expression
 * scans are not modelled: the ids are given, and the keys are a function of
 * the cut-out block.
 */
module CheckDefaults {
  import opened Base
  import opened Seqs

  /** `pat` occurs in `s` at position `i`. */
  predicate OccursAt(s: string, pat: string, i: nat)
  {
    i + |pat| <= |s| && s[i..i + |pat|] == pat
  }

  /** The first position at or after `from` where `pat` occurs. */
  function FindFrom(s: string, pat: string, from: nat): (r: Option<nat>)
    requires from <= |s|
    ensures r.Some? ==> from <= r.value <= |s| && OccursAt(s, pat, r.value)
    ensures r.Some? ==> forall j :: from <= j < r.value ==> !OccursAt(s, pat, j)
    ensures r.None? ==> forall j :: from <= j <= |s| ==> !OccursAt(s, pat, j)
    decreases |s| - from
  {
    if OccursAt(s, pat, from) then Some(from)
    else if from == |s| then None
    else FindFrom(s, pat, from + 1)
  }

  /** `s.indexOf(pat)`, absent when it is not found. */
  function Find(s: string, pat: string): (r: Option<nat>)
    ensures r.Some? ==> OccursAt(s, pat, r.value) && forall j :: 0 <= j < r.value ==> !OccursAt(s, pat, j)
    ensures r.None? ==> forall j :: 0 <= j <= |s| ==> !OccursAt(s, pat, j)
  {
    FindFrom(s, pat, 0)
  }

  /** `s.split(sep)[0]`: the text before the first separator, or all of it. */
  function FirstPiece(s: string, sep: string): (r: string)
    requires sep != ""
    ensures |r| <= |s| && r == s[..|r|]
    ensures forall j :: 0 <= j < |r| ==> !OccursAt(s, sep, j)
    ensures |r| < |s| ==> OccursAt(s, sep, |r|)
  {
    var f := Find(s, sep);
    if f.Some? then s[..f.value] else s
  }

  /**
   * `s.split(sep)[1]`: absent when `sep` does not occur; otherwise the text
   * between its first and second occurrences, or to the end.
   */
  function SecondPiece(s: string, sep: string): (r: Option<string>)
    requires sep != ""
    ensures r.None? <==> Find(s, sep).None?
    ensures r.Some? ==> var start := Find(s, sep).value + |sep|;
      start <= |s| && r.value == FirstPiece(s[start..], sep)
  {
    var f := Find(s, sep);
    if f.None? then None
    else Some(FirstPiece(s[f.value + |sep|..], sep))
  }

  /** `ids.filter(id => !keys.includes(id))`. */
  function Missing(ids: seq<string>, keys: seq<string>): seq<string>
  {
    Filter(ids, id => id !in keys)
  }

  /**
   * The missing ids are exactly the ids without a key, in their original
   * order.
   */
  lemma MissingSpec(ids: seq<string>, keys: seq<string>)
    ensures forall i :: 0 <= i < |Missing(ids, keys)| ==> Missing(ids, keys)[i] !in keys
    ensures forall id :: id in Missing(ids, keys) <==> id in ids && id !in keys
    ensures IsSubseq(Missing(ids, keys), ids)
  {
    FilterIsSubseq(ids, id => id !in keys);
    forall id | id in ids && id !in keys
      ensures id in Missing(ids, keys)
    {
      var i :| 0 <= i < |ids| && ids[i] == id;
    }
    forall id | id in Missing(ids, keys)
      ensures id in ids && id !in keys
    {
      var i :| 0 <= i < |Missing(ids, keys)| && Missing(ids, keys)[i] == id;
    }
  }

  datatype Report = Report(exitCode: int, missing: seq<string>)

  /** The defaults block the key scan runs over, if the check finds one. */
  function DefaultsBody(defaultsSrc: string): (r: Option<string>)
    ensures r.Some? ==>
      (&& SecondPiece(defaultsSrc, "settings:").Some?
       && SecondPiece(defaultsSrc, "settings:").value != ""
       && r.value == FirstPiece(SecondPiece(defaultsSrc, "settings:").value, "},"))
    ensures r.None? <==> SecondPiece(defaultsSrc, "settings:") in {None, Some("")}
  {
    var section := SecondPiece(defaultsSrc, "settings:");
    if section.None? || section.value == "" then None
    else Some(FirstPiece(section.value, "},"))
  }

  /** The whole check, given the setting ids and the key scan. */
  function Check(ids: seq<string>, defaultsSrc: string, keysOf: string -> seq<string>): (r: Report)
    ensures DefaultsBody(defaultsSrc).None? ==> r == Report(2, [])
    ensures DefaultsBody(defaultsSrc).Some? ==>
      && r.missing == Missing(ids, keysOf(DefaultsBody(defaultsSrc).value))
      && (r.exitCode == 1 <==> r.missing != [])
      && (r.exitCode == 0 <==> r.missing == [])
  {
    var body := DefaultsBody(defaultsSrc);
    if body.None? then Report(2, [])
    else
      var missing := Missing(ids, keysOf(body.value));
      if missing != [] then Report(1, missing) else Report(0, [])
  }

  /**
   * Once the block is found, the check fails exactly when some id has no
   * key, and it names every such id.
   */
  lemma ExitOneIffSomeIdLacksKey(ids: seq<string>, defaultsSrc: string, keysOf: string -> seq<string>)
    requires DefaultsBody(defaultsSrc).Some?
    ensures var keys := keysOf(DefaultsBody(defaultsSrc).value);
      && (Check(ids, defaultsSrc, keysOf).exitCode == 1 <==> exists id :: id in ids && id !in keys)
      && (Check(ids, defaultsSrc, keysOf).exitCode == 0 <==> forall id :: id in ids ==> id in keys)
      && forall id :: id in ids && id !in keys ==> id in Check(ids, defaultsSrc, keysOf).missing
  {
    var keys := keysOf(DefaultsBody(defaultsSrc).value);
    MissingSpec(ids, keys);
    var m := Missing(ids, keys);
    if m != [] {
      assert m[0] in m;
    }
  }

  /** Without any `settings:` in the defaults text the check exits with 2. */
  lemma NoSettingsBlockExitsTwo(ids: seq<string>, defaultsSrc: string, keysOf: string -> seq<string>)
    requires forall j :: 0 <= j <= |defaultsSrc| ==> !OccursAt(defaultsSrc, "settings:", j)
    ensures Check(ids, defaultsSrc, keysOf) == Report(2, [])
  {
  }
}
