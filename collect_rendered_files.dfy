/** The existing-frames collector: with `creator_attributes["frames"]` set, files already
    rendered next to each render-queue output path are grouped by extension and turned
    into representations, and the expected file names are listed for the validator. */
module CollectRenderedFiles {
  import opened Wrappers
  import opened Strings
  import opened PosixPath
  import opened PublishData

  // ---------------------------------------------------------------------------------
  // _normalize_path

  /** After Effects may report `/c/Users/...` on Windows: the leading slashes are dropped
      and `:` is put before the first remaining `/` (Python's slicing rules included, so
      a `find` of -1 splits before the last character). Elsewhere the path is kept. */
  function NormalizePath(path: string, windows: bool): (r: string)
    ensures !(windows && StartsWith(path, "/")) ==> r == path
  {
    if windows && StartsWith(path, "/") then
      var p := LStrip(path, '/');
      var i := Find(p, '/');
      Slice(p, 0, i) + ":" + Slice(p, i, |p|)
    else path
  }

  lemma {:induction false} LStripRepeat(k: nat, t: string, c: char)
    requires t == [] || t[0] != c
    ensures LStrip(Repeat(c, k) + t, c) == t
    decreases k
  {
    if k > 0 {
      assert (Repeat(c, k) + t)[1..] == Repeat(c, k - 1) + t;
      LStripRepeat(k - 1, t, c);
    } else {
      assert Repeat(c, k) + t == t;
    }
  }

  /** The first `c` of `d + [c] + t`, when `d` has none, is at `|d|`. */
  lemma {:induction false} FindAfter(d: string, c: char, t: string)
    requires c !in d
    ensures Find(d + [c] + t, c) == |d|
    decreases |d|
  {
    if d != [] {
      assert (d + [c] + t)[1..] == d[1..] + [c] + t;
      FindAfter(d[1..], c, t);
    }
  }

  /** A stripped path with a slash at `i` gets the colon at `i`. */
  lemma NormalizeSplit(path: string, p: string, i: nat)
    requires StartsWith(path, "/") && LStrip(path, '/') == p && Find(p, '/') == i
    ensures NormalizePath(path, true) == p[..i] + ":" + p[i..]
  {
  }

  /** `/c/Users/x` becomes `c:/Users/x`: any number of leading slashes, then a drive part
      without slashes, gets the colon before the slash that follows the drive part. */
  lemma NormalizeDrivePath(k: nat, drive: string, rest: string)
    requires k >= 1 && drive != [] && '/' !in drive
    ensures NormalizePath(Repeat('/', k) + drive + "/" + rest, true) == drive + ":/" + rest
  {
    var p := drive + "/" + rest;
    var path := Repeat('/', k) + p;
    assert Repeat('/', k) + drive + "/" + rest == path;
    StripLeading(k, p);
    FindAfter(drive, '/', rest);
    NormalizeSplit(path, p, |drive|);
    ColonAfterDrive(drive, rest);
  }

  lemma ColonAfterDrive(drive: string, rest: string)
    ensures var p := drive + "/" + rest; p[..|drive|] + ":" + p[|drive|..] == drive + ":/" + rest
  {
    var p := drive + "/" + rest;
    assert p[..|drive|] == drive;
    assert p[|drive|..] == "/" + rest;
  }

  /** Leading slashes in front of a path that starts with something else. */
  lemma StripLeading(k: nat, p: string)
    requires k >= 1 && (p == [] || p[0] != '/')
    ensures StartsWith(Repeat('/', k) + p, "/") && LStrip(Repeat('/', k) + p, '/') == p
  {
    var path := Repeat('/', k) + p;
    assert path[0] == '/';
    assert path[..1] == "/";
    LStripRepeat(k, p, '/');
  }

  /** As written, a Windows path with one component and no further slash puts the colon
      before its last character: `/c` becomes `:c`. */
  lemma NormalizeNoSecondSlash(k: nat, drive: string)
    requires k >= 1 && drive != [] && '/' !in drive
    ensures NormalizePath(Repeat('/', k) + drive, true) == drive[..|drive| - 1] + ":" + [drive[|drive| - 1]]
  {
    var path := Repeat('/', k) + drive;
    StripLeading(k, drive);
    NormalizeNoSlash(path, drive);
  }

  /** A stripped path without a slash: `find` gives -1 and both slices end one short. */
  lemma NormalizeNoSlash(path: string, p: string)
    requires StartsWith(path, "/") && LStrip(path, '/') == p && p != [] && '/' !in p
    ensures NormalizePath(path, true) == p[..|p| - 1] + ":" + [p[|p| - 1]]
  {
    assert Find(p, '/') == -1;
    SliceBeforeLast(p);
  }

  /** Python's `p[:-1]` and `p[-1:]`. */
  lemma SliceBeforeLast(p: string)
    requires p != []
    ensures Slice(p, 0, -1) == p[..|p| - 1] && Slice(p, -1, |p|) == [p[|p| - 1]]
  {
    assert p[|p| - 1..|p|] == [p[|p| - 1]];
  }

  // ---------------------------------------------------------------------------------
  // The `[###]` frame group of `_add_expected_files`

  /** The number of `#` characters starting at index `j`. */
  function HashRun(s: string, j: nat): (n: nat)
    requires j <= |s|
    ensures j + n <= |s| && AllChar(s[j..j + n], '#') && (j + n == |s| || s[j + n] != '#')
    decreases |s| - j
  {
    if j < |s| && s[j] == '#' then
      var n := HashRun(s, j + 1);
      assert s[j..j + 1 + n] == [s[j]] + s[j + 1..j + 1 + n];
      1 + n
    else 0
  }

  /** The text `[`, `n` times `#`, `]`. */
  function Pattern(n: nat): (r: string)
    ensures |r| == n + 2
  {
    "[" + Repeat('#', n) + "]"
  }

  /** `\[#*\]` matches at index `i`, the group holding `n` hashes. */
  predicate GroupAt(s: string, i: nat, n: nat) {
    OccursAt(s, Pattern(n), i)
  }

  /** A run of exactly `n` hashes at `j`, ended by something else, is what `HashRun` counts. */
  lemma {:induction false} HashRunExact(s: string, j: nat, n: nat)
    requires j + n < |s| && AllChar(s[j..j + n], '#') && s[j + n] != '#'
    ensures HashRun(s, j) == n
    decreases n
  {
    if n > 0 {
      assert s[j] == s[j..j + n][0];
      assert s[j + 1..j + n] == s[j..j + n][1..];
      HashRunExact(s, j + 1, n - 1);
    }
  }

  /** `\[#*\]` matches at `i` with `n` hashes exactly when `s[i]` is `[`, the hash run after
      it has length `n`, and `]` follows the run: the run is forced. */
  lemma GroupAtIff(s: string, i: nat, n: nat)
    ensures GroupAt(s, i, n) <==> (i + 1 + n < |s| && s[i] == '[' && HashRun(s, i + 1) == n && s[i + 1 + n] == ']')
  {
    if i + 1 + n < |s| {
      var w := s[i..i + n + 2];
      assert w == [s[i]] + s[i + 1..i + 1 + n] + [s[i + 1 + n]];
      if GroupAt(s, i, n) {
        GroupAtHashes(s, i, n);
      }
      if s[i] == '[' && HashRun(s, i + 1) == n && s[i + 1 + n] == ']' {
        assert s[i + 1..i + 1 + n] == Repeat('#', n) by {
          assert forall k :: 0 <= k < n ==> s[i + 1..i + 1 + n][k] == Repeat('#', n)[k];
        }
        assert w == ['['] + Repeat('#', n) + [']'];
      }
    }
  }

  lemma GroupAtHashes(s: string, i: nat, n: nat)
    requires i + 1 + n < |s| && GroupAt(s, i, n)
    ensures s[i] == '[' && HashRun(s, i + 1) == n && s[i + 1 + n] == ']'
  {
    var w := s[i..i + n + 2];
    var pat := Pattern(n);
    assert w == pat;
    assert w == [s[i]] + s[i + 1..i + 1 + n] + [s[i + 1 + n]];
    assert pat == ['['] + Repeat('#', n) + [']'];
    assert s[i + 1..i + 1 + n] == w[1..n + 1];
    assert pat[1..n + 1] == Repeat('#', n);
    HashRunExact(s, i + 1, n);
  }

  datatype Group = Group(start: nat, hashes: nat)

  /** `re.search(r"\[#*\]", s)` from index `from` on: the leftmost match. */
  function FindGroupFrom(s: string, from: nat): (r: Option<Group>)
    ensures r.Some? ==> from <= r.value.start && GroupAt(s, r.value.start, r.value.hashes)
    ensures forall i: nat, n: nat :: from <= i && (r.None? || i < r.value.start) ==> !GroupAt(s, i, n)
    decreases |s| - from
  {
    if from >= |s| then None
    else
      var n := HashRun(s, from + 1);
      GroupAtIff(s, from, n);
      if s[from] == '[' && from + 1 + n < |s| && s[from + 1 + n] == ']' then
        Some(Group(from, n))
      else
        var r := FindGroupFrom(s, from + 1);
        assert forall m: nat :: !GroupAt(s, from, m) by {
          forall m: nat ensures !GroupAt(s, from, m) {
            GroupAtIff(s, from, m);
          }
        }
        r
  }

  /** `re.search(r"\[#*\]", s)`. */
  function FindGroup(s: string): (r: Option<Group>)
    ensures r.Some? ==> GroupAt(s, r.value.start, r.value.hashes)
    ensures forall i: nat, n: nat :: (r.None? || i < r.value.start) ==> !GroupAt(s, i, n)
  {
    FindGroupFrom(s, 0)
  }

  /** `"%0*d" % (width, frame)`, which never contains `[`, `#` or `]`. */
  lemma FrameTextAvoidsPattern(frame: int, width: nat, n: nat)
    ensures var t := ZeroPadded(frame, width);
            t != [] && forall k :: 0 <= k < |Pattern(n)| ==> Pattern(n)[k] !in t
  {
    var t := ZeroPadded(frame, width);
    ZeroPaddedAlphabet(frame, width);
    forall k | 0 <= k < |Pattern(n)| ensures Pattern(n)[k] !in t {
      var c := Pattern(n)[k];
      assert c == '[' || c == '#' || c == ']';
      forall j | 0 <= j < |t| ensures t[j] != c {
        assert IsDigit(t[j]) || t[j] == '-';
      }
    }
  }

  // ---------------------------------------------------------------------------------
  // _add_expected_files

  /** The number of frames in `range(frameStart, frameEnd + 1)`. */
  function FrameCount(frameStart: int, frameEnd: int): nat {
    if frameEnd < frameStart then 0 else frameEnd - frameStart + 1
  }

  /** What `_add_expected_files` appends for the (unquoted) path: the path itself when it
      has no frame group; otherwise one entry per frame, and since the loop keeps replacing
      in the already replaced path, every entry is the first one, where each occurrence of
      the group text holds `frameStart` padded to the number of hashes. */
  function ExpectedFor(path: string, frameStart: int, frameEnd: int): (r: seq<string>)
    ensures FindGroup(path).None? ==> r == [path]
    ensures FindGroup(path).Some? ==> |r| == FrameCount(frameStart, frameEnd)
  {
    match FindGroup(path)
    case None => [path]
    case Some(g) =>
      var first := ReplaceAll(path, Pattern(g.hashes), ZeroPadded(frameStart, g.hashes));
      seq(FrameCount(frameStart, frameEnd), _ => first)
  }

  /** The collapse: every entry of a frame sequence is the first entry, whose group text is
      gone and which differs from the path outside the group only by the inserted digits. */
  lemma ExpectedCollapse(path: string, frameStart: int, frameEnd: int, k: nat)
    requires FindGroup(path).Some? && k < FrameCount(frameStart, frameEnd)
    ensures var g := FindGroup(path).value;
            var r := ExpectedFor(path, frameStart, frameEnd);
            && r[k] == r[0]
            && r[0] == ReplaceAll(path, Pattern(g.hashes), ZeroPadded(frameStart, g.hashes))
            && !Occurs(r[0], Pattern(g.hashes))
  {
    var g := FindGroup(path).value;
    FrameTextAvoidsPattern(frameStart, g.hashes, g.hashes);
    ReplaceAllRemovesPattern(path, Pattern(g.hashes), ZeroPadded(frameStart, g.hashes));
  }

  /** `_add_expected_files`, with `urllib.parse.unquote` given as `unquote`: the loop
      reassigns the path it replaces in, which the contract shows to be the collapse. */
  method AddExpectedFiles(path0: string, frameStart: int, frameEnd: int, unquote: string -> string,
                          expected0: seq<string>)
    returns (expected: seq<string>)
    ensures expected == expected0 + ExpectedFor(unquote(path0), frameStart, frameEnd)
  {
    var path := unquote(path0);
    ghost var original := path;
    var group := FindGroup(path);
    if group.None? {
      expected := expected0 + [path];
      return;
    }
    var pat := Pattern(group.value.hashes);
    var width := group.value.hashes;
    ghost var first := ReplaceAll(original, pat, ZeroPadded(frameStart, width));
    ghost var count := FrameCount(frameStart, frameEnd);
    FrameTextAvoidsPattern(frameStart, width, width);
    ReplaceAllRemovesPattern(original, pat, ZeroPadded(frameStart, width));
    expected := expected0;
    var frame := frameStart;
    while frame < frameEnd + 1
      invariant frameStart <= frame <= if frameEnd < frameStart then frameStart else frameEnd + 1
      invariant frame == frameStart ==> path == original
      invariant frame > frameStart ==> path == first
      invariant expected == expected0 + seq(frame - frameStart, _ => first)
      decreases frameEnd + 1 - frame
    {
      FrameTextAvoidsPattern(frame, width, width);
      if frame > frameStart {
        ReplaceAllAbsent(path, pat, ZeroPadded(frame, width));
      }
      path := ReplaceAll(path, pat, ZeroPadded(frame, width));
      expected := expected + [path];
      frame := frame + 1;
    }
    assert seq(frame - frameStart, _ => first) == ExpectedFor(original, frameStart, frameEnd);
  }

  // ---------------------------------------------------------------------------------
  // Grouping by extension (`files_by_ext`, a defaultdict of lists)

  datatype ExtGroup = ExtGroup(ext: string, files: seq<string>)

  function Exts(groups: seq<ExtGroup>): (r: seq<string>)
    ensures |r| == |groups| && forall k :: 0 <= k < |r| ==> r[k] == groups[k].ext
  {
    if groups == [] then [] else [groups[0].ext] + Exts(groups[1..])
  }

  /** `files_by_ext[ext].append(f)`: a new key goes last, an existing one keeps its place. */
  function AddFile(groups: seq<ExtGroup>, ext: string, f: string): (r: seq<ExtGroup>)
    ensures ext !in Exts(groups) ==> r == groups + [ExtGroup(ext, [f])]
  {
    if groups == [] then [ExtGroup(ext, [f])]
    else if groups[0].ext == ext then [groups[0].(files := groups[0].files + [f])] + groups[1..]
    else
      assert Exts(groups) == [groups[0].ext] + Exts(groups[1..]);
      [groups[0]] + AddFile(groups[1..], ext, f)
  }

  lemma {:induction false} AddFileToLast(groups: seq<ExtGroup>, ext: string, files: seq<string>, f: string)
    requires ext !in Exts(groups)
    ensures AddFile(groups + [ExtGroup(ext, files)], ext, f) == groups + [ExtGroup(ext, files + [f])]
    decreases |groups|
  {
    if groups != [] {
      var g, rest, l := groups[0], groups[1..], groups + [ExtGroup(ext, files)];
      assert Exts(groups) == [g.ext] + Exts(rest);
      assert g.ext != ext && ext !in Exts(rest);
      assert l[0] == g && l[1..] == rest + [ExtGroup(ext, files)];
      AddFileToLast(rest, ext, files, f);
      assert AddFile(l, ext, f) == [g] + (rest + [ExtGroup(ext, files + [f])]);
      assert [g] + (rest + [ExtGroup(ext, files + [f])]) == groups + [ExtGroup(ext, files + [f])];
    } else {
      assert groups + [ExtGroup(ext, files)] == [ExtGroup(ext, files)];
    }
  }

  /** The names of `fs` ending with `ext`, in order. */
  function Matching(fs: seq<string>, ext: string): seq<string> {
    if fs == [] then []
    else Matching(fs[..|fs| - 1], ext) + (if EndsWith(fs[|fs| - 1], ext) then [fs[|fs| - 1]] else [])
  }

  /** A listed name is grouped exactly when it ends with the extension text. */
  lemma {:induction false} MatchingMembers(fs: seq<string>, ext: string)
    ensures forall f :: f in Matching(fs, ext) <==> f in fs && EndsWith(f, ext)
    ensures |Matching(fs, ext)| <= |fs|
    decreases |fs|
  {
    if fs != [] {
      var init := fs[..|fs| - 1];
      MatchingMembers(init, ext);
      assert fs == init + [fs[|fs| - 1]];
    }
  }

  /** The loop over `os.listdir(folder)`: every name ending with `ext` is appended. */
  function AddFiles(groups: seq<ExtGroup>, ext: string, fs: seq<string>): seq<ExtGroup> {
    if fs == [] then groups
    else
      var g := AddFiles(groups, ext, fs[..|fs| - 1]);
      if EndsWith(fs[|fs| - 1], ext) then AddFile(g, ext, fs[|fs| - 1]) else g
  }

  /** For an extension not seen before, the listing adds one group at the end holding the
      matching names in listing order, or nothing when no name matches. */
  lemma {:induction false} AddFilesFresh(groups: seq<ExtGroup>, ext: string, fs: seq<string>)
    requires ext !in Exts(groups)
    ensures AddFiles(groups, ext, fs)
            == if Matching(fs, ext) == [] then groups else groups + [ExtGroup(ext, Matching(fs, ext))]
    decreases |fs|
  {
    if fs != [] {
      var init := fs[..|fs| - 1];
      AddFilesFresh(groups, ext, init);
      var last := fs[|fs| - 1];
      var m := Matching(init, ext);
      if EndsWith(last, ext) {
        assert Matching(fs, ext) == m + [last];
        if m != [] {
          AddFileToLast(groups, ext, m, last);
        } else {
          assert AddFiles(groups, ext, fs) == AddFile(groups, ext, last) == groups + [ExtGroup(ext, [last])];
          assert m + [last] == [last];
        }
      } else {
        assert Matching(fs, ext) == m;
      }
    }
  }

  /** The loop over `os.listdir(folder)`. */
  method GroupFiles(groups0: seq<ExtGroup>, ext: string, names: seq<string>) returns (groups: seq<ExtGroup>)
    ensures groups == AddFiles(groups0, ext, names)
  {
    groups := groups0;
    var j := 0;
    while j < |names|
      invariant 0 <= j <= |names|
      invariant groups == AddFiles(groups0, ext, names[..j])
    {
      assert names[..j + 1][..j] == names[..j];
      if EndsWith(names[j], ext) {
        groups := AddFile(groups, ext, names[j]);
      }
      j := j + 1;
    }
    assert names[..j] == names;
  }

  // ---------------------------------------------------------------------------------
  // The loop over `render_queue_file_paths`

  /** What the collector learns from outside Python: the platform, `os.path.exists`,
      `os.listdir` and `urllib.parse.unquote`. */
  datatype Host = Host(windows: bool, pathExists: string -> bool, listdir: string -> seq<string>,
                       unquote: string -> string)

  /** `files_by_ext`, `folders_by_ext` and `expected_files` after some paths. */
  datatype Scan = Scan(groups: seq<ExtGroup>, folders: map<string, string>, expected: seq<string>)

  /** The extension text a render-queue path is grouped under: the `splitext` tail of the
      basename, leading dots stripped. */
  function QueueExtension(p: string): string {
    LStrip(SplitExt(Basename(p)).1, '.')
  }

  /** What one render-queue path amounts to: its folder (after normalisation), whether that
      exists, its extension text, what `_add_expected_files` appends for it and the
      folder's listing. */
  datatype PathInfo = PathInfo(folder: string, folderExists: bool, ext: string, expected: seq<string>,
                               listing: seq<string>)

  function InfoOf(raw: string, h: Host, frameStart: int, frameEnd: int): PathInfo {
    var p := NormalizePath(raw, h.windows);
    var folder := Dirname(p);
    PathInfo(folder, h.pathExists(folder), QueueExtension(p), ExpectedFor(h.unquote(p), frameStart, frameEnd),
             h.listdir(folder))
  }

  function Infos(paths: seq<string>, h: Host, frameStart: int, frameEnd: int): (r: seq<PathInfo>)
    ensures |r| == |paths| && forall k :: 0 <= k < |r| ==> r[k] == InfoOf(paths[k], h, frameStart, frameEnd)
  {
    seq(|paths|, k requires 0 <= k < |paths| => InfoOf(paths[k], h, frameStart, frameEnd))
  }

  /** The tables in the shape the loop keeps them: every grouped extension has a folder,
      appears once and has at least one file. */
  predicate WellFormed(st: Scan) {
    && (forall k :: 0 <= k < |st.groups| ==> st.groups[k].ext in st.folders && st.groups[k].files != [])
    && (forall k, l :: 0 <= k < l < |st.groups| ==> st.groups[k].ext != st.groups[l].ext)
  }

  /** One render-queue path: skipped when its folder is missing, an error carrying the
      extension when that extension was seen before, else its files are grouped. The
      expected files are added before the check, but are lost with the error. */
  function ScanStep(st: Scan, info: PathInfo): Result<Scan, string> {
    if !info.folderExists then Ok(st)
    else if info.ext in st.folders then Err(info.ext)
    else Ok(Scan(AddFiles(st.groups, info.ext, info.listing), st.folders[info.ext := info.folder],
                 st.expected + info.expected))
  }

  /** The loop over the render-queue paths, in order; the first repeated extension stops it. */
  function ScanInfos(infos: seq<PathInfo>): Result<Scan, string> {
    if infos == [] then Ok(Scan([], map[], []))
    else match ScanInfos(infos[..|infos| - 1])
      case Err(e) => Err(e)
      case Ok(st) => ScanStep(st, infos[|infos| - 1])
  }

  /** A path whose folder exists groups its matching listed files under a new extension:
      one group at the end when some name ends with the extension text, none otherwise. */
  lemma ScanStepGroups(st: Scan, info: PathInfo)
    requires WellFormed(st) && ScanStep(st, info).Ok?
    ensures var st' := ScanStep(st, info).value;
            var m := Matching(info.listing, info.ext);
            && WellFormed(st')
            && (!info.folderExists ==> st' == st)
            && (info.folderExists ==>
                  && st'.folders == st.folders[info.ext := info.folder]
                  && st'.groups == (if m == [] then st.groups else st.groups + [ExtGroup(info.ext, m)])
                  && st'.expected == st.expected + info.expected)
  {
    if info.folderExists {
      var ext := info.ext;
      assert ext !in Exts(st.groups) by {
        forall k | 0 <= k < |st.groups| ensures Exts(st.groups)[k] != ext {
          assert st.groups[k].ext in st.folders;
        }
      }
      AddFilesFresh(st.groups, ext, info.listing);
    }
  }

  lemma {:induction false} ScanWellFormed(infos: seq<PathInfo>)
    requires ScanInfos(infos).Ok?
    ensures WellFormed(ScanInfos(infos).value)
    decreases |infos|
  {
    if infos != [] {
      var init := infos[..|infos| - 1];
      ScanWellFormed(init);
      ScanStepGroups(ScanInfos(init).value, infos[|infos| - 1]);
    }
  }

  /** Every path whose folder exists has had its extension recorded, and recorded
      extensions stay recorded. */
  lemma {:induction false} ScanRecordsExt(infos: seq<PathInfo>, i: nat)
    requires i < |infos| && ScanInfos(infos).Ok? && infos[i].folderExists
    ensures infos[i].ext in ScanInfos(infos).value.folders
    decreases |infos|
  {
    var init := infos[..|infos| - 1];
    if i < |infos| - 1 {
      assert init[i] == infos[i];
      ScanRecordsExt(init, i);
    }
  }

  lemma {:induction false} ScanStopsAtError(infos: seq<PathInfo>, i: nat)
    requires i <= |infos| && ScanInfos(infos[..i]).Err?
    ensures ScanInfos(infos) == ScanInfos(infos[..i])
    decreases |infos|
  {
    if i < |infos| {
      var init := infos[..|infos| - 1];
      assert init[..i] == infos[..i];
      ScanStopsAtError(init, i);
    } else {
      assert infos[..i] == infos;
    }
  }

  /** Two render-queue paths with existing folders and the same extension raise
      `KnownPublishError`, whatever lies between or after them. */
  lemma DuplicateExtensionFails(infos: seq<PathInfo>, i: nat, j: nat)
    requires i < j < |infos| && infos[i].folderExists && infos[j].folderExists
    requires infos[i].ext == infos[j].ext
    ensures ScanInfos(infos).Err?
  {
    var pre := infos[..j];
    assert infos[..j + 1][..j] == pre;
    if ScanInfos(pre).Ok? {
      assert pre[i] == infos[i];
      ScanRecordsExt(pre, i);
    }
    assert ScanInfos(infos[..j + 1]).Err?;
    ScanStopsAtError(infos, j + 1);
  }

  /** Without an error, the expected files are the concatenation, in path order, of what
      each existing-folder path expands to; paths whose folder is missing add nothing. */
  lemma {:induction false} ScanExpected(infos: seq<PathInfo>)
    requires ScanInfos(infos).Ok?
    ensures ScanInfos(infos).value.expected == ExpectedOfInfos(infos)
    decreases |infos|
  {
    if infos != [] {
      ScanExpected(infos[..|infos| - 1]);
    }
  }

  function ExpectedOfInfos(infos: seq<PathInfo>): seq<string> {
    if infos == [] then []
    else
      var last := infos[|infos| - 1];
      ExpectedOfInfos(infos[..|infos| - 1]) + (if last.folderExists then last.expected else [])
  }

  /** One render-queue path of the loop in `process`. */
  method ScanOne(st: Scan, raw: string, h: Host, frameStart: int, frameEnd: int)
    returns (r: Result<Scan, string>)
    ensures r == ScanStep(st, InfoOf(raw, h, frameStart, frameEnd))
  {
    var p := NormalizePath(raw, h.windows);
    var folder := Dirname(p);
    if !h.pathExists(folder) {
      return Ok(st);
    }
    var ext := QueueExtension(p);
    var expected := AddExpectedFiles(p, frameStart, frameEnd, h.unquote, st.expected);
    if ext in st.folders {
      return Err(ext);
    }
    var folders := st.folders[ext := folder];
    var groups := GroupFiles(st.groups, ext, h.listdir(folder));
    r := Ok(Scan(groups, folders, expected));
  }

  // ---------------------------------------------------------------------------------
  // Representations and `process`

  /** The representation of one extension group: a single file is a bare name; the
      `review` tag goes on the first representation only, when the instance is reviewed. */
  function RepresentationFor(g: ExtGroup, folder: string, frameStart: int, frameEnd: int, tagged: bool): Representation {
    Representation(g.ext, g.ext, if |g.files| == 1 then OneFile(g.files[0]) else FileList(g.files),
                   folder, Some(frameStart), Some(frameEnd), if tagged then Some(["review"]) else None)
  }

  /** One representation per extension group, in group order. */
  function Representations(groups: seq<ExtGroup>, folders: map<string, string>, frameStart: int, frameEnd: int,
                           review: bool): (r: seq<Representation>)
    requires forall k :: 0 <= k < |groups| ==> groups[k].ext in folders
    ensures |r| == |groups|
    ensures forall k :: 0 <= k < |r| ==>
              && r[k].name == groups[k].ext && r[k].ext == groups[k].ext
              && r[k].files.AsList() == groups[k].files
              && (r[k].files.OneFile? <==> |groups[k].files| == 1)
              && r[k].stagingDir == folders[groups[k].ext]
              && r[k].frameStart == Some(frameStart) && r[k].frameEnd == Some(frameEnd)
              && (r[k].tags.Some? <==> review && k == 0)
              && (r[k].tags.Some? ==> r[k].tags.value == ["review"])
  {
    seq(|groups|, k requires 0 <= k < |groups| =>
      RepresentationFor(groups[k], folders[groups[k].ext], frameStart, frameEnd, review && k == 0))
  }

  /** What `process` writes into the instance data. */
  datatype Written = Unchanged | Write(representations: seq<Representation>, expectedFiles: seq<string>)
                   | DuplicateExtension(ext: string)

  /** `process`: nothing happens unless existing frames are to be used; a repeated extension
      raises before anything is written; no grouped file writes nothing. */
  function ExistingFrames(useExistingFrames: bool, paths: seq<string>, frameStart: int, frameEnd: int,
                          review: bool, h: Host): (r: Written)
    ensures !useExistingFrames ==> r == Unchanged
    ensures r.Write? ==> r.representations != []
  {
    if !useExistingFrames then Unchanged
    else match ScanInfos(Infos(paths, h, frameStart, frameEnd))
      case Err(ext) => DuplicateExtension(ext)
      case Ok(st) =>
        ScanWellFormed(Infos(paths, h, frameStart, frameEnd));
        if st.groups == [] then Unchanged
        else Write(Representations(st.groups, st.folders, frameStart, frameEnd, review), st.expected)
  }

  /** Builds the representations list, one group at a time. */
  method BuildRepresentations(groups: seq<ExtGroup>, folders: map<string, string>, frameStart: int, frameEnd: int,
                              review: bool)
    returns (representations: seq<Representation>)
    requires forall k :: 0 <= k < |groups| ==> groups[k].ext in folders
    ensures representations == Representations(groups, folders, frameStart, frameEnd, review)
  {
    representations := [];
    var k := 0;
    while k < |groups|
      invariant 0 <= k <= |groups|
      invariant representations == Representations(groups[..k], folders, frameStart, frameEnd, review)
    {
      var first := representations == [];
      representations := representations
        + [RepresentationFor(groups[k], folders[groups[k].ext], frameStart, frameEnd, review && first)];
      k := k + 1;
    }
    assert groups[..k] == groups;
  }

  lemma ScanInfosStep(infos: seq<PathInfo>, i: nat, st: Scan)
    requires i < |infos| && ScanInfos(infos[..i]) == Ok(st)
    ensures ScanInfos(infos[..i + 1]) == ScanStep(st, infos[i])
  {
    assert infos[..i + 1][..i] == infos[..i];
  }

  /** The loop over `render_queue_file_paths` in `process`. */
  method ScanAll(paths: seq<string>, h: Host, frameStart: int, frameEnd: int) returns (r: Result<Scan, string>)
    ensures r == ScanInfos(Infos(paths, h, frameStart, frameEnd))
  {
    ghost var infos := Infos(paths, h, frameStart, frameEnd);
    var st := Scan([], map[], []);
    var i := 0;
    while i < |paths|
      invariant 0 <= i <= |paths|
      invariant ScanInfos(infos[..i]) == Ok(st)
    {
      ghost var info := infos[i];
      assert info == InfoOf(paths[i], h, frameStart, frameEnd);
      var next := ScanOne(st, paths[i], h, frameStart, frameEnd);
      ScanInfosStep(infos, i, st);
      if next.Err? {
        ScanStopsAtError(infos, i + 1);
        return next;
      }
      st := next.value;
      i := i + 1;
    }
    assert infos[..i] == infos;
    r := Ok(st);
  }

  /** `CollectExistingFrames.process` on the render instance. */
  method Process(inst: Instance, h: Host) returns (w: Written)
    modifies inst
    ensures w == ExistingFrames(inst.useExistingFrames, inst.renderQueueFilePaths, inst.frameStart,
                                inst.frameEnd, inst.review, h)
    ensures w.Write? ==> inst.representations == Some(w.representations) && inst.expectedFiles == Some(w.expectedFiles)
    ensures !w.Write? ==> inst.representations == old(inst.representations) && inst.expectedFiles == old(inst.expectedFiles)
  {
    if !inst.useExistingFrames {
      return Unchanged;
    }
    var r := ScanAll(inst.renderQueueFilePaths, h, inst.frameStart, inst.frameEnd);
    if r.Err? {
      return DuplicateExtension(r.error);
    }
    var st := r.value;
    ScanWellFormed(Infos(inst.renderQueueFilePaths, h, inst.frameStart, inst.frameEnd));
    if st.groups == [] {
      return Unchanged;
    }
    var representations := BuildRepresentations(st.groups, st.folders, inst.frameStart, inst.frameEnd, inst.review);
    inst.representations := Some(representations);
    inst.expectedFiles := Some(st.expected);
    w := Write(representations, st.expected);
  }
}
