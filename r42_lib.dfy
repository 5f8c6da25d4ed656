/** `convert_path_to_backup`: a workfile path `<base>_v<digits>.<ext>` is renamed to
    `<base>_<NNN>.<ext>` in the same folder, where NNN is one more than the largest
    number found in the folder's unversioned file names. */
module R42Lib {
  import opened Wrappers
  import opened Strings
  import opened PosixPath

  // ---------------------------------------------------------------------------------
  // The sibling names

  /** `re.search(r"v(?=\d)", name, re.IGNORECASE)` succeeds at `i`. */
  predicate VersionMarkAt(name: string, i: int) {
    0 <= i < |name| - 1 && (name[i] == 'v' || name[i] == 'V') && IsDigit(name[i + 1])
  }

  predicate HasVersionMark(name: string) {
    exists i :: 0 <= i < |name| - 1 && VersionMarkAt(name, i)
  }

  /** The last maximal run of digits, as `[start, end)`: `re.findall(r"\d+", name)[-1]`. */
  function LastDigitRun(s: string): (r: Option<(nat, nat)>)
    ensures r.Some? ==> var (a, b) := r.value;
              && a < b <= |s| && AllDigits(s[a..b])
              && (a == 0 || !IsDigit(s[a - 1]))
              && forall k :: b <= k < |s| ==> !IsDigit(s[k])
    ensures r.None? ==> forall k :: 0 <= k < |s| ==> !IsDigit(s[k])
  {
    if s == [] then None
    else if IsDigit(s[|s| - 1]) then
      var a := |s| - DigitSuffix(s);
      Some((a, |s|))
    else
      var r := LastDigitRun(s[..|s| - 1]);
      if r.Some? then
        RunOfInit(s, r.value.0, r.value.1);
        r
      else
        NoDigitInInit(s);
        r
  }

  /** A run that is last in `s` without its final non-digit is last in `s`. */
  lemma RunOfInit(s: string, a: nat, b: nat)
    requires s != [] && !IsDigit(s[|s| - 1])
    requires var t := s[..|s| - 1];
             && a < b <= |t| && AllDigits(t[a..b]) && (a == 0 || !IsDigit(t[a - 1]))
             && forall k :: b <= k < |t| ==> !IsDigit(t[k])
    ensures AllDigits(s[a..b]) && (a == 0 || !IsDigit(s[a - 1]))
    ensures forall k :: b <= k < |s| ==> !IsDigit(s[k])
  {
    var t := s[..|s| - 1];
    assert t[a..b] == s[a..b];
    forall k | b <= k < |s| ensures !IsDigit(s[k]) {
      if k < |t| { assert t[k] == s[k]; }
    }
  }

  /** A digit-free `s` without its final non-digit is digit-free. */
  lemma NoDigitInInit(s: string)
    requires s != [] && !IsDigit(s[|s| - 1])
    requires var t := s[..|s| - 1]; forall k :: 0 <= k < |t| ==> !IsDigit(t[k])
    ensures forall k :: 0 <= k < |s| ==> !IsDigit(s[k])
  {
    var t := s[..|s| - 1];
    forall k | 0 <= k < |s| ensures !IsDigit(s[k]) {
      if k < |t| { assert t[k] == s[k]; }
    }
  }

  /** The length of the longest all-digit suffix. */
  function DigitSuffix(s: string): (n: nat)
    ensures n <= |s| && AllDigits(s[|s| - n..]) && (n == |s| || !IsDigit(s[|s| - n - 1]))
  {
    if s == [] || !IsDigit(s[|s| - 1]) then 0
    else
      var n := DigitSuffix(s[..|s| - 1]);
      SuffixSnoc(s, n);
      n + 1
  }

  /** One more digit at the end of an all-digit suffix. */
  lemma SuffixSnoc(s: string, n: nat)
    requires s != [] && n < |s| && IsDigit(s[|s| - 1]) && AllDigits(s[..|s| - 1][|s| - 1 - n..])
    ensures AllDigits(s[|s| - (n + 1)..])
  {
    var t := s[|s| - (n + 1)..];
    forall k | 0 <= k < |t| ensures IsDigit(t[k]) {
      if k < n {
        assert t[k] == s[..|s| - 1][|s| - 1 - n..][k];
      }
    }
  }

  /** The numbers the loop collects, in listing order: names with a version mark are
      skipped, names without digits add nothing. */
  function Numbers(names: seq<string>): seq<nat> {
    if names == [] then []
    else
      var name := names[|names| - 1];
      var prev := Numbers(names[..|names| - 1]);
      if HasVersionMark(name) then prev
      else match LastDigitRun(name)
        case None => prev
        case Some((a, b)) => prev + [DecimalValue(name[a..b])]
  }

  /** The loop over `os.listdir(directory_name)`. */
  method CollectNumbers(names: seq<string>) returns (numbers: seq<nat>)
    ensures numbers == Numbers(names)
  {
    numbers := [];
    var i := 0;
    while i < |names|
      invariant 0 <= i <= |names|
      invariant numbers == Numbers(names[..i])
    {
      assert names[..i + 1][..i] == names[..i];
      var name := names[i];
      if !HasVersionMark(name) {
        var run := LastDigitRun(name);
        if run.Some? {
          numbers := numbers + [DecimalValue(name[run.value.0..run.value.1])];
        }
      }
      i := i + 1;
    }
    assert names[..i] == names;
  }

  /** A name with `v` or `V` right before a digit contributes no number. */
  lemma VersionedNamesIgnored(names: seq<string>, name: string)
    requires HasVersionMark(name)
    ensures Numbers(names + [name]) == Numbers(names)
  {
    assert (names + [name])[..|names|] == names;
  }

  /** Any other name contributes the value of its last digit run, or nothing without digits. */
  lemma UnversionedNameCounted(names: seq<string>, name: string)
    requires !HasVersionMark(name)
    ensures LastDigitRun(name).None? ==> Numbers(names + [name]) == Numbers(names)
    ensures LastDigitRun(name).Some? ==>
              Numbers(names + [name]) == Numbers(names) + [DecimalValue(name[LastDigitRun(name).value.0..LastDigitRun(name).value.1])]
  {
    assert (names + [name])[..|names|] == names;
  }

  /** `max(numbers) if numbers else 1`. */
  function MaxOr(numbers: seq<nat>, default: nat): (r: nat)
    ensures numbers == [] ==> r == default
    ensures numbers != [] ==> r in numbers && forall x :: x in numbers ==> x <= r
  {
    if numbers == [] then default
    else if |numbers| == 1 then numbers[0]
    else
      var m := MaxOr(numbers[1..], default);
      assert forall x :: x in numbers ==> x == numbers[0] || x in numbers[1..];
      if numbers[0] >= m then numbers[0] else m
  }

  /** `str(max_number + 1).zfill(3)`: one more than every candidate (2 without any),
      written with at least three digits. */
  function NextNumber(numbers: seq<nat>): (t: string)
    ensures AllDigits(t) && |t| >= 3
    ensures |t| == 3 || t[0] != '0'
    ensures numbers == [] ==> DecimalValue(t) == 2
    ensures forall x :: x in numbers ==> x < DecimalValue(t)
    ensures numbers != [] ==> DecimalValue(t) - 1 in numbers
  {
    ZeroPaddedValue(MaxOr(numbers, 1) + 1, 3);
    ZeroPadded(MaxOr(numbers, 1) + 1, 3)
  }

  // ---------------------------------------------------------------------------------
  // re.match(r"(.*)_v(\d+)(\..*)", base_name)

  /** The number of digits starting at `j`. */
  function DigitRun(s: string, j: nat): (n: nat)
    requires j <= |s|
    ensures j + n <= |s| && AllDigits(s[j..j + n]) && (j + n == |s| || !IsDigit(s[j + n]))
    decreases |s| - j
  {
    if j < |s| && IsDigit(s[j]) then
      var n := DigitRun(s, j + 1);
      assert s[j..j + 1 + n] == [s[j]] + s[j + 1..j + 1 + n];
      1 + n
    else 0
  }

  /** The pattern can match with its first group ending at `i`: `.` matches no newline,
      the digit run must be followed by `.` (a shorter run would be followed by a digit). */
  predicate MatchAt(s: string, i: nat) {
    && i + 2 <= |s| && s[i] == '_' && s[i + 1] == 'v' && '\n' !in s[..i]
    && var n := DigitRun(s, i + 2); n > 0 && i + 2 + n < |s| && s[i + 2 + n] == '.'
  }

  /** The greedy first group backtracks from the longest candidate: the largest `i < k`
      at which the rest can match. */
  function LastMatchBelow(s: string, k: nat): (r: Option<nat>)
    ensures r.Some? ==> r.value < k && MatchAt(s, r.value)
    ensures forall j: nat :: j < k && (r.None? || r.value < j) ==> !MatchAt(s, j)
  {
    if k == 0 then None
    else if MatchAt(s, k - 1) then Some(k - 1)
    else LastMatchBelow(s, k - 1)
  }

  /** The first newline at or after `j`, or the end. */
  function LineEnd(s: string, j: nat): (e: nat)
    requires j <= |s|
    ensures j <= e <= |s| && '\n' !in s[j..e] && (e == |s| || s[e] == '\n')
    decreases |s| - j
  {
    if j == |s| || s[j] == '\n' then j
    else
      var e := LineEnd(s, j + 1);
      assert s[j..e] == [s[j]] + s[j + 1..e];
      e
  }

  datatype VersionParts = VersionParts(base: string, version: string, ext: string)

  /** The three groups, when the pattern matches at the start of `s`. */
  function VersionMatch(s: string): Option<VersionParts> {
    var r := LastMatchBelow(s, |s|);
    if r.None? then None else Some(PartsAt(s, r.value))
  }

  /** The groups of the match whose first group ends at `i`: the digit run after `_v`, and
      the rest of the line from the `.` on. */
  function PartsAt(s: string, i: nat): (m: VersionParts)
    requires MatchAt(s, i)
    ensures |m.base| == i
  {
    var j := i + 2 + DigitRun(s, i + 2);
    VersionParts(s[..i], s[i + 2..j], s[j..LineEnd(s, j + 1)])
  }

  /** The groups read back as a prefix of the name: base, `_v`, a non-empty digit run,
      then an extension starting with `.`; no later `_v<digits>.` exists. */
  lemma VersionMatchShape(s: string)
    requires VersionMatch(s).Some?
    ensures var m := VersionMatch(s).value;
            && StartsWith(s, m.base + "_v" + m.version + m.ext)
            && m.version != [] && AllDigits(m.version)
            && m.ext != [] && m.ext[0] == '.' && '\n' !in m.ext
            && forall j: nat :: |m.base| < j < |s| ==> !MatchAt(s, j)
  {
    var i := LastMatchBelow(s, |s|).value;
    PartsAtPrefix(s, i);
    PartsAtGroups(s, i);
  }

  lemma PartsAtPrefix(s: string, i: nat)
    requires MatchAt(s, i)
    ensures var m := PartsAt(s, i); StartsWith(s, m.base + "_v" + m.version + m.ext)
  {
    var j := i + 2 + DigitRun(s, i + 2);
    var e := LineEnd(s, j + 1);
    var m := PartsAt(s, i);
    GroupsJoin(s, i, j, e, m.base, m.version, m.ext);
  }

  lemma PartsAtGroups(s: string, i: nat)
    requires MatchAt(s, i)
    ensures var m := PartsAt(s, i);
            && m.version != [] && AllDigits(m.version)
            && m.ext != [] && m.ext[0] == '.' && '\n' !in m.ext
  {
    var j := i + 2 + DigitRun(s, i + 2);
    ExtShape(s, j, LineEnd(s, j + 1));
  }

  /** A `.` followed by the rest of its line is a non-empty extension without a newline. */
  lemma ExtShape(s: string, j: nat, e: nat)
    requires j < e <= |s| && s[j] == '.' && '\n' !in s[j + 1..e]
    ensures s[j..e] != [] && s[j..e][0] == '.' && '\n' !in s[j..e]
  {
    assert s[j..e] == [s[j]] + s[j + 1..e];
  }

  lemma GroupsJoin(s: string, i: nat, j: nat, e: nat, base: string, version: string, ext: string)
    requires i + 2 <= j <= e <= |s| && s[i] == '_' && s[i + 1] == 'v'
    requires base == s[..i] && version == s[i + 2..j] && ext == s[j..e]
    ensures StartsWith(s, base + "_v" + version + ext)
  {
    assert s[..i] + "_v" == s[..i + 2];
    assert s[..i + 2] + s[i + 2..j] == s[..j];
    assert s[..j] + s[j..e] == s[..e];
  }

  // ---------------------------------------------------------------------------------
  // convert_path_to_backup

  /** The backup path for `filePath`, given the names `os.listdir` returns for its folder. */
  function BackupPath(filePath: string, siblings: seq<string>): (r: string)
    ensures VersionMatch(Basename(filePath)).None? ==> r == filePath
  {
    match VersionMatch(Basename(filePath))
    case None => filePath
    case Some(m) => Join(Dirname(filePath), m.base + "_" + NextNumber(Numbers(siblings)) + m.ext)
  }

  /** The groups of a slash-free name hold no slash. */
  lemma PartsHaveNoSlash(b: string)
    requires '/' !in b && VersionMatch(b).Some?
    ensures var m := VersionMatch(b).value;
            '/' !in m.base && '/' !in m.ext
  {
    var i := LastMatchBelow(b, |b|).value;
    PartsAtAvoid(b, i, '/');
  }

  /** A character absent from the name is absent from the base and the extension. */
  lemma PartsAtAvoid(s: string, i: nat, c: char)
    requires MatchAt(s, i) && c !in s
    ensures c !in PartsAt(s, i).base && c !in PartsAt(s, i).ext
  {
    var j := i + 2 + DigitRun(s, i + 2);
    SliceAvoids(s, 0, i, c);
    SliceAvoids(s, j, LineEnd(s, j + 1), c);
  }

  lemma SliceAvoids(s: string, lo: nat, hi: nat, c: char)
    requires lo <= hi <= |s| && c !in s
    ensures c !in s[lo..hi]
  {
    forall k | 0 <= k < hi - lo ensures s[lo..hi][k] != c { assert s[lo..hi][k] == s[lo + k]; }
  }

  /** The backup stays in the folder of the original path, and its name is the base, `_`,
      the new number and the extension, the version digits left out. */
  lemma BackupInSameFolder(filePath: string, siblings: seq<string>)
    ensures Dirname(BackupPath(filePath, siblings)) == Dirname(filePath)
    ensures VersionMatch(Basename(filePath)).Some? ==>
              var m := VersionMatch(Basename(filePath)).value;
              Basename(BackupPath(filePath, siblings)) == m.base + "_" + NextNumber(Numbers(siblings)) + m.ext
  {
    if VersionMatch(Basename(filePath)).Some? {
      var m := VersionMatch(Basename(filePath)).value;
      var name := m.base + "_" + NextNumber(Numbers(siblings)) + m.ext;
      BasenameShape(filePath);
      PartsHaveNoSlash(Basename(filePath));
      assert '/' !in NextNumber(Numbers(siblings)) by {
        var t := NextNumber(Numbers(siblings));
        forall k | 0 <= k < |t| ensures t[k] != '/' { assert IsDigit(t[k]); }
      }
      assert '/' !in name;
      DirnameOfJoin(Dirname(filePath), name);
      BasenameOfJoin(Dirname(filePath), name);
    }
  }

  /** `convert_path_to_backup`, with `os.listdir` given as `listdir`. */
  method ConvertPathToBackup(filePath: string, listdir: string -> seq<string>) returns (newPath: string)
    ensures newPath == BackupPath(filePath, listdir(Dirname(filePath)))
  {
    var directoryName := Dirname(filePath);
    var baseName := Basename(filePath);
    var numbers := CollectNumbers(listdir(directoryName));
    var maxNumber := MaxOr(numbers, 1);
    var padded := ZeroPadded(maxNumber + 1, 3);
    var m := VersionMatch(baseName);
    if m.Some? {
      newPath := Join(directoryName, m.value.base + "_" + padded + m.value.ext);
    } else {
      newPath := filePath;
    }
  }
}
