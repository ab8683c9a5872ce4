/**
 * The process input/output card: how Keep locations of files and directories
 * become a collection part and a path, how directory locations are
 * normalised, how an array of files with secondary files is flattened into
 * display values, and when the card shows itself as loading.
 */
module ProcessIOCard {
  import opened Common
  import opened Strings

  const KeepPrefix := "keep:"

  /** A CWL file or directory: its location, and for a file its secondary files (absent reads as none). */
  datatype File = File(location: Option<string>, secondaryFiles: seq<File>)

  /** The text a template literal prints for an optional string. */
  function Printed(s: Option<string>): string
  {
    if s.Some? then s.value else "undefined"
  }

  /**
   * `getKeepUrl`: a `keep:` location without its prefix; otherwise, with a
   * non-empty portable data hash, the hash, `/` and the location; otherwise
   * the location, or `""` when there is none.
   */
  function GetKeepUrl(location: Option<string>, pdh: Option<string>): (url: string)
    ensures location.Some? && StartsWith(location.value, KeepPrefix) ==> KeepPrefix + url == location.value
    ensures !(location.Some? && StartsWith(location.value, KeepPrefix)) && pdh.Some? && pdh.value != "" ==>
      url == pdh.value + "/" + Printed(location)
    ensures !(location.Some? && StartsWith(location.value, KeepPrefix)) && !(pdh.Some? && pdh.value != "") ==>
      url == if location.Some? then location.value else ""
  {
    if location.Some? && StartsWith(location.value, KeepPrefix) then location.value[|KeepPrefix|..]
    else if pdh.Some? && pdh.value != "" then pdh.value + "/" + Printed(location)
    else if location.Some? then location.value
    else ""
  }

  /** `getResourcePdhUrl`: the first `/`-separated part of the Keep URL, or `""`. */
  function GetResourcePdhUrl(location: Option<string>, pdh: Option<string>): (part: string)
    ensures '/' !in part
    ensures StartsWith(GetKeepUrl(location, pdh), part)
  {
    var keepUrl := GetKeepUrl(location, pdh);
    SplitHead(keepUrl, '/');
    if keepUrl != "" then Split(keepUrl, '/')[0] else ""
  }

  /**
   * The path `KeepUrlPath` derives: the Keep URL without its first part,
   * re-joined with `/`; that is, what follows the URL's first `/`, and
   * nothing when it has none.
   */
  function KeepUrlPath(location: Option<string>, pdh: Option<string>): (path: string)
    ensures '/' !in GetKeepUrl(location, pdh) ==> path == ""
  {
    var keepUrl := GetKeepUrl(location, pdh);
    var parts := if keepUrl != "" then Split(keepUrl, '/') else [];
    if |parts| > 1 then Join(parts[1..], '/') else ""
  }

  /**
   * The path as `KeepUrlPath` displays it: `/` for the empty path, any other
   * path as it is; a path other than `/` is what follows the collection part
   * and a `/` in the Keep URL.
   */
  function DisplayedPath(location: Option<string>, pdh: Option<string>): (shown: string)
    ensures shown != ""
    ensures KeepUrlPath(location, pdh) == "" ==> shown == "/"
    ensures KeepUrlPath(location, pdh) != "" ==> shown == KeepUrlPath(location, pdh)
    ensures shown != "/" ==> GetKeepUrl(location, pdh) == GetResourcePdhUrl(location, pdh) + "/" + shown
  {
    KeepUrlParts(location, pdh);
    var path := KeepUrlPath(location, pdh);
    if path != "" then path else "/"
  }

  /**
   * The collection part and the path make up the Keep URL: with a `/` in it,
   * the URL is the part, `/` and the path; without one the path is empty and
   * the URL is the part.
   */
  lemma KeepUrlParts(location: Option<string>, pdh: Option<string>)
    ensures var url := GetKeepUrl(location, pdh);
      var part := GetResourcePdhUrl(location, pdh);
      var path := KeepUrlPath(location, pdh);
      if '/' in url then url == part + "/" + path else url == part && path == ""
  {
    var url := GetKeepUrl(location, pdh);
    SplitHead(url, '/');
  }

  /** Splitting text that starts with a separator-free piece and a separator. */
  lemma {:induction false} SplitAfterFirst(a: string, b: string, sep: char)
    requires sep !in a
    ensures Split(a + [sep] + b, sep) == [a] + Split(b, sep)
    decreases |a|
  {
    if a == [] {
      assert [sep] + b == a + [sep] + b;
      assert ([sep] + b)[1..] == b;
    } else {
      assert (a + [sep] + b)[1..] == a[1..] + [sep] + b;
      SplitAfterFirst(a[1..], b, sep);
      assert [a[0]] + a[1..] == a;
    }
  }

  /**
   * A file referred to as `keep:<hash>/<path>`, or by a relative location
   * beside a hash with no `/`, shows that hash as its collection and the
   * location as its path.
   */
  lemma KeepUrlOfCollectionFile(hash: string, path: string, keepLocation: bool)
    requires hash != "" && '/' !in hash
    requires !keepLocation ==> !StartsWith(path, KeepPrefix)
    ensures var location := if keepLocation then KeepPrefix + hash + "/" + path else path;
      var pdh := if keepLocation then None else Some(hash);
      GetResourcePdhUrl(Some(location), pdh) == hash && KeepUrlPath(Some(location), pdh) == path
  {
    var location := if keepLocation then KeepPrefix + hash + "/" + path else path;
    var pdh := if keepLocation then None else Some(hash);
    var url := GetKeepUrl(Some(location), pdh);
    if keepLocation {
      assert StartsWith(location, KeepPrefix);
      assert KeepPrefix + url == KeepPrefix + (hash + "/" + path);
    }
    assert url == hash + ['/'] + path;
    SplitAfterFirst(hash, path, '/');
    JoinSplit(path, '/');
  }

  /**
   * `normalizeDirectoryLocation`: a missing or empty location is kept;
   * otherwise the location gets a trailing `/` unless it has one.
   */
  function NormalizeDirectoryLocation(location: Option<string>): (normalized: Option<string>)
    ensures location.None? || location.value == "" ==> normalized == location
    ensures location.Some? && location.value != "" ==>
      && normalized.Some? && EndsWith(normalized.value, "/")
      && StartsWith(normalized.value, location.value)
      && |normalized.value| <= |location.value| + 1
    ensures location.Some? && EndsWith(location.value, "/") ==> normalized == location
  {
    if location.None? || location.value == "" then location
    else if EndsWith(location.value, "/") then location
    else Some(location.value + "/")
  }

  /** Normalising twice is normalising once. */
  lemma NormalizeIdempotent(location: Option<string>)
    ensures NormalizeDirectoryLocation(NormalizeDirectoryLocation(location)) == NormalizeDirectoryLocation(location)
  {
  }

  /** `isExternalValue`: the value has a `$import` or `$include` key. */
  function IsExternalValue(keys: seq<string>): (external: bool)
    ensures external <==> exists i :: 0 <= i < |keys| && (keys[i] == "$import" || keys[i] == "$include")
  {
    "$import" in keys || "$include" in keys
  }

  /**
   * A display value: a file, whether it is a secondary file, and the hash
   * whose prefix it hides (`""` hides nothing); or the "No value" marker.
   */
  datatype IOValue = FileValue(file: File, secondary: bool, hiddenPdh: string) | EmptyValue

  /** The hash shown for the first main file, or `""` when there is no first main file. */
  function FirstMainFilePdh(mains: seq<Option<File>>, pdh: Option<string>): string
  {
    if |mains| > 0 && mains[0].Some? then GetResourcePdhUrl(mains[0].value.location, pdh) else ""
  }

  /** The values of secondary files: flagged secondary, hiding the first hash. */
  function SecondaryValues(secondaries: seq<File>, firstPdh: string): (values: seq<IOValue>)
    ensures |values| == |secondaries|
  {
    seq(|secondaries|, j requires 0 <= j < |secondaries| => FileValue(secondaries[j], true, firstPdh))
  }

  /**
   * The values one element of the array contributes: the main file (unless
   * it is null), hiding the first hash unless it is the first, then its
   * secondary files, hiding the first hash.
   */
  function EntryValues(mains: seq<Option<File>>, i: nat, firstPdh: string): (values: seq<IOValue>)
    requires i < |mains|
  {
    var secondaries := if mains[i].Some? then mains[i].value.secondaryFiles else [];
    (if mains[i].Some? then [FileValue(mains[i].value, false, if i > 0 then firstPdh else "")] else [])
      + SecondaryValues(secondaries, firstPdh)
  }

  /** The values of the first `n` elements, in order. */
  function Flattened(mains: seq<Option<File>>, n: nat, firstPdh: string): seq<IOValue>
    requires n <= |mains|
  {
    if n == 0 then [] else Flattened(mains, n - 1, firstPdh) + EntryValues(mains, n - 1, firstPdh)
  }

  /** The number of non-null main files among the first `n`. */
  function MainCount(mains: seq<Option<File>>, n: nat): nat
    requires n <= |mains|
  {
    if n == 0 then 0 else MainCount(mains, n - 1) + (if mains[n - 1].Some? then 1 else 0)
  }

  /** The number of secondary files of the non-null main files among the first `n`. */
  function SecondaryCount(mains: seq<Option<File>>, n: nat): nat
    requires n <= |mains|
  {
    if n == 0 then 0
    else SecondaryCount(mains, n - 1) + (if mains[n - 1].Some? then |mains[n - 1].value.secondaryFiles| else 0)
  }

  /** How many values are flagged as secondary files, and how many are not. */
  function SecondaryFlags(values: seq<IOValue>, secondary: bool): nat
  {
    if values == [] then 0
    else
      var last := values[|values| - 1];
      SecondaryFlags(values[..|values| - 1], secondary) + (if last.FileValue? && last.secondary == secondary then 1 else 0)
  }

  lemma {:induction false} SecondaryFlagsAppend(a: seq<IOValue>, b: seq<IOValue>, secondary: bool)
    ensures SecondaryFlags(a + b, secondary) == SecondaryFlags(a, secondary) + SecondaryFlags(b, secondary)
    decreases |b|
  {
    if b != [] {
      assert (a + b)[..|a + b| - 1] == a + b[..|b| - 1];
      SecondaryFlagsAppend(a, b[..|b| - 1], secondary);
    } else {
      assert a + b == a;
    }
  }

  lemma {:induction false} SecondaryFlagsOf(files: seq<File>, hidden: string, secondary: bool)
    ensures SecondaryFlags(SecondaryValues(files, hidden), secondary) == if secondary then |files| else 0
    decreases |files|
  {
    if files != [] {
      var values := SecondaryValues(files, hidden);
      var init := files[..|files| - 1];
      assert values[..|values| - 1] == SecondaryValues(init, hidden);
      SecondaryFlagsOf(init, hidden, secondary);
    }
  }

  /** One element of the array gives one main value when it is not null, then its secondary values. */
  lemma EntryFlags(mains: seq<Option<File>>, i: nat, firstPdh: string)
    requires i < |mains|
    ensures SecondaryFlags(EntryValues(mains, i, firstPdh), false) == if mains[i].Some? then 1 else 0
    ensures SecondaryFlags(EntryValues(mains, i, firstPdh), true)
         == if mains[i].Some? then |mains[i].value.secondaryFiles| else 0
    ensures EntryValues(mains, i, firstPdh) == [] <==> mains[i].None?
  {
    var secondaries := if mains[i].Some? then mains[i].value.secondaryFiles else [];
    var secs := SecondaryValues(secondaries, firstPdh);
    var head := if mains[i].Some? then [FileValue(mains[i].value, false, if i > 0 then firstPdh else "")] else [];
    assert EntryValues(mains, i, firstPdh) == head + secs;
    SecondaryFlagsAppend(head, secs, false);
    SecondaryFlagsAppend(head, secs, true);
    SecondaryFlagsOf(secondaries, firstPdh, false);
    SecondaryFlagsOf(secondaries, firstPdh, true);
    if head != [] {
      assert SecondaryFlags(head, false) == 1 by { assert head[..0] == []; }
      assert SecondaryFlags(head, true) == 0 by { assert head[..0] == []; }
    }
  }

  /** Every non-null main file among the first `n` gives one value not flagged secondary. */
  lemma {:induction false} FlattenedMainCount(mains: seq<Option<File>>, n: nat, firstPdh: string)
    requires n <= |mains|
    ensures SecondaryFlags(Flattened(mains, n, firstPdh), false) == MainCount(mains, n)
  {
    if n > 0 {
      FlattenedMainCount(mains, n - 1, firstPdh);
      SecondaryFlagsAppend(Flattened(mains, n - 1, firstPdh), EntryValues(mains, n - 1, firstPdh), false);
      EntryFlags(mains, n - 1, firstPdh);
    }
  }

  /** Every secondary file of the first `n` main files gives one value flagged secondary. */
  lemma {:induction false} FlattenedSecondaryCount(mains: seq<Option<File>>, n: nat, firstPdh: string)
    requires n <= |mains|
    ensures SecondaryFlags(Flattened(mains, n, firstPdh), true) == SecondaryCount(mains, n)
  {
    if n > 0 {
      FlattenedSecondaryCount(mains, n - 1, firstPdh);
      SecondaryFlagsAppend(Flattened(mains, n - 1, firstPdh), EntryValues(mains, n - 1, firstPdh), true);
      EntryFlags(mains, n - 1, firstPdh);
    }
  }

  /** The flattening of the first `n` elements is empty exactly when they are all null. */
  lemma {:induction false} FlattenedEmpty(mains: seq<Option<File>>, n: nat, firstPdh: string)
    requires n <= |mains|
    ensures Flattened(mains, n, firstPdh) == [] <==> forall i :: 0 <= i < n ==> mains[i].None?
  {
    if n > 0 {
      FlattenedEmpty(mains, n - 1, firstPdh);
      EntryFlags(mains, n - 1, firstPdh);
    }
  }

  /**
   * Every non-null main file gives one value not flagged secondary and every
   * secondary file one value flagged secondary; the flattening is empty
   * exactly when every main file is null.
   */
  lemma FlattenedCounts(mains: seq<Option<File>>, n: nat, firstPdh: string)
    requires n <= |mains|
    ensures SecondaryFlags(Flattened(mains, n, firstPdh), false) == MainCount(mains, n)
    ensures SecondaryFlags(Flattened(mains, n, firstPdh), true) == SecondaryCount(mains, n)
    ensures Flattened(mains, n, firstPdh) == [] <==> forall i :: 0 <= i < n ==> mains[i].None?
  {
    FlattenedMainCount(mains, n, firstPdh);
    FlattenedSecondaryCount(mains, n, firstPdh);
    FlattenedEmpty(mains, n, firstPdh);
  }

  /** The first non-null main file comes first and hides nothing. */
  lemma FlattenedFirst(mains: seq<Option<File>>, firstPdh: string)
    requires |mains| > 0 && mains[0].Some?
    ensures var values := Flattened(mains, |mains|, firstPdh);
      |values| > 0 && values[0] == FileValue(mains[0].value, false, "")
  {
    FlattenedPrefix(mains, 1, |mains|, firstPdh);
    assert Flattened(mains, 1, firstPdh) == EntryValues(mains, 0, firstPdh);
  }

  /** The values of a shorter prefix of the array come first. */
  lemma {:induction false} FlattenedPrefix(mains: seq<Option<File>>, m: nat, n: nat, firstPdh: string)
    requires m <= n <= |mains|
    ensures |Flattened(mains, m, firstPdh)| <= |Flattened(mains, n, firstPdh)|
    ensures Flattened(mains, n, firstPdh)[..|Flattened(mains, m, firstPdh)|] == Flattened(mains, m, firstPdh)
    decreases n
  {
    if m < n {
      FlattenedPrefix(mains, m, n - 1, firstPdh);
      var short := Flattened(mains, m, firstPdh);
      var mid := Flattened(mains, n - 1, firstPdh);
      assert Flattened(mains, n, firstPdh)[..|mid|] == mid;
      assert Flattened(mains, n, firstPdh)[..|short|] == mid[..|short|];
    }
  }

  /**
   * The file-array branch of `getIOParamDisplayValue`: a loop appends the
   * values of each main file and its secondary files; an empty result becomes
   * a single "No value".
   */
  method FileArrayValues(mainFiles: Option<seq<Option<File>>>, pdh: Option<string>) returns (values: seq<IOValue>)
    ensures var mains := if mainFiles.Some? then mainFiles.value else [];
      var flat := Flattened(mains, |mains|, FirstMainFilePdh(mains, pdh));
      values == if flat == [] then [EmptyValue] else flat
  {
    var mains := if mainFiles.Some? then mainFiles.value else [];
    var firstPdh := FirstMainFilePdh(mains, pdh);
    var fileArrayValues: seq<IOValue> := [];
    for i := 0 to |mains|
      invariant fileArrayValues == Flattened(mains, i, firstPdh)
    {
      fileArrayValues := PushEntry(fileArrayValues, mains, i, firstPdh);
    }
    values := if fileArrayValues == [] then [EmptyValue] else fileArrayValues;
  }

  /** One turn of the loop: appends a non-null main file, then its secondary files. */
  method PushEntry(values: seq<IOValue>, mains: seq<Option<File>>, i: nat, firstPdh: string) returns (r: seq<IOValue>)
    requires i < |mains|
    ensures r == values + EntryValues(mains, i, firstPdh)
  {
    r := values;
    if mains[i].Some? {
      var main := FileValue(mains[i].value, false, if i > 0 then firstPdh else "");
      r := r + [main];
      r := PushSecondaries(r, mains[i].value.secondaryFiles, firstPdh);
      assert r == values + ([main] + SecondaryValues(mains[i].value.secondaryFiles, firstPdh));
    } else {
      assert EntryValues(mains, i, firstPdh) == [];
    }
  }

  /** Appends the values of secondary files, one at a time. */
  method PushSecondaries(values: seq<IOValue>, secondaries: seq<File>, firstPdh: string) returns (r: seq<IOValue>)
    ensures r == values + SecondaryValues(secondaries, firstPdh)
  {
    r := values;
    var j := 0;
    while j < |secondaries|
      invariant 0 <= j <= |secondaries|
      invariant r == values + seq(j, k requires 0 <= k < j => FileValue(secondaries[k], true, firstPdh))
    {
      r := r + [FileValue(secondaries[j], true, firstPdh)];
      j := j + 1;
    }
  }

  /** Which card: inputs or outputs. */
  datatype CardType = Input | Output

  /**
   * Whether a sub-process card shows itself as loading: the raw value or the
   * parameters are still missing, and there are neither input mounts (on an
   * input card) nor an output collection (on an output card).
   */
  function SubProcessLoading(rawLoaded: bool, paramsLoaded: bool, cardType: CardType, mountCount: Option<nat>, outputUuid: Option<string>): (loading: bool)
    ensures loading ==> !rawLoaded || !paramsLoaded
    ensures cardType == Input && mountCount.Some? && mountCount.value > 0 ==> !loading
    ensures cardType == Output && outputUuid.Some? && outputUuid.value != "" ==> !loading
    ensures ((!rawLoaded || !paramsLoaded)
             && !(cardType == Input && mountCount.Some? && mountCount.value > 0)
             && !(cardType == Output && outputUuid.Some? && outputUuid.value != "")) ==> loading
  {
    var loading := !rawLoaded || !paramsLoaded;
    var hasInputMounts := cardType == Input && mountCount.Some? && mountCount.value > 0;
    var hasOutputCollection := cardType == Output && outputUuid.Some? && outputUuid.value != "";
    loading && !hasOutputCollection && !hasInputMounts
  }
}
