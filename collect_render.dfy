/** The render-instance collector (`plugins/publish/collect_render.py`): which source
    instances become render instances, their families, their output folder and the files a
    render is expected to produce. The host stub's answers are inputs. */
module CollectRender {
  import opened Wrappers
  import opened Strings
  import opened PosixPath

  /** Digits of a frame number in an expected file name. */
  const PaddingWidth: nat := 6

  // ---------------------------------------------------------------------------
  // Output folder and expected files

  /** The workfile's name without its extension. */
  function Stem(source: string): string {
    SplitExt(Basename(source)).0
  }

  /** `_get_output_dir`: `<workfile folder>/renders/aftereffects/<workfile stem>`. */
  function OutputDir(source: string): string {
    Join(Join(Join(Dirname(source), "renders"), "aftereffects"), Stem(source))
  }

  /** Three joins of relative names are one join of the names put together with `/`. */
  lemma JoinRenders(d: string, stem: string)
    requires '/' !in stem
    ensures Join(Join(Join(d, "renders"), "aftereffects"), stem) == Join(d, "renders/aftereffects/" + stem)
  {
    JoinTwice(d, "renders", "aftereffects");
    assert "renders" + "/" + "aftereffects" == "renders/aftereffects";
    assert stem == [] || stem[0] != '/';
    JoinTwice(d, "renders/aftereffects", stem);
    assert "renders/aftereffects" + "/" + stem == "renders/aftereffects/" + stem;
  }

  /** The stem is a non-empty name without `/` whenever the workfile has a name. */
  lemma StemShape(source: string)
    ensures '/' !in Stem(source)
    ensures Basename(source) != [] ==> Stem(source) != []
  {
    var b := Basename(source);
    var stem := Stem(source);
    assert stem <= b by {
      assert SplitExt(b).0 + SplitExt(b).1 == b;
    }
    assert '/' !in stem by {
      BasenameShape(source);
      forall k | 0 <= k < |stem| ensures stem[k] != '/' { assert stem[k] == b[k]; }
    }
    if b != [] {
      SplitExtStem(b);
    }
  }

  /** The output folder is `renders/aftereffects/<stem>` joined onto the workfile's folder,
      and for a workfile with a name it is a well-formed folder (no trailing `/`). */
  lemma OutputDirShape(source: string)
    ensures OutputDir(source) == Join(Dirname(source), "renders/aftereffects/" + Stem(source))
    ensures StartsWith(OutputDir(source), Dirname(source))
    ensures Basename(source) != [] ==> DirShape(OutputDir(source))
  {
    StemShape(source);
    RendersDir(Dirname(source), Stem(source));
  }

  lemma RendersDir(d: string, stem: string)
    requires '/' !in stem
    ensures Join(Join(Join(d, "renders"), "aftereffects"), stem) == Join(d, "renders/aftereffects/" + stem)
    ensures StartsWith(Join(d, "renders/aftereffects/" + stem), d)
    ensures stem != [] ==> DirShape(Join(d, "renders/aftereffects/" + stem))
  {
    JoinRenders(d, stem);
    var rest := "renders/aftereffects/" + stem;
    assert rest[0] == 'r';
    JoinShape(d, rest);
    if stem != [] {
      var r := Join(d, rest);
      assert EndsWith(r, rest);
      assert r[|r| - 1] == rest[|rest| - 1] == stem[|stem| - 1];
      assert stem[|stem| - 1] in stem;
    }
  }

  /** The expected files' extension: the source path's extension without its dots. */
  function Extension(fileName: string): (ext: string)
    ensures var e := SplitExt(Basename(fileName)).1; ext == if e == [] then [] else e[1..]
    ensures NoDotOrSlash(ext)
  {
    var e := SplitExt(Basename(fileName)).1;
    if e == [] then RemoveChar(e, '.')
    else
      NoDotOrSlashAvoids(e[1..]);
      RemoveLeadingChar(e, '.');
      RemoveChar(e, '.')
  }

  /** What names the expected files: the output folder, the product, the version and the
      instance's frame range. */
  datatype Naming = Naming(base: string, productName: string, version: int, start: int, end: int)

  /** `"{productName}_v{version:03d}.{ext}"`: the one file of a movie output. */
  function SingleFileName(productName: string, version: int, ext: string): string {
    productName + "_v" + ZeroPadded(version, 3) + "." + ext
  }

  /** `"{productName}_v{version:03d}.{frame:06}.{ext}"`: one frame of an image sequence. */
  function FrameFileName(productName: string, version: int, frame: int, ext: string): string {
    productName + "_v" + ZeroPadded(version, 3) + "." + ZeroPadded(frame, PaddingWidth) + "." + ext
  }

  /** The path of one frame's file. */
  function FrameFile(n: Naming, ext: string, frame: int): string {
    Join(n.base, FrameFileName(n.productName, n.version, frame, ext))
  }

  /** `f` of every frame `start..end`, ascending. */
  function Frames<T>(f: int -> T, start: int, end: int): (r: seq<T>)
    ensures |r| == if end < start then 0 else end - start + 1
    decreases end - start
  {
    if end < start then [] else Frames(f, start, end - 1) + [f(end)]
  }

  /** The `k`-th entry is the one of frame `start + k`. */
  lemma {:induction false} FramesAt<T>(f: int -> T, start: int, end: int, k: nat)
    requires k < |Frames(f, start, end)|
    ensures Frames(f, start, end)[k] == f(start + k)
    decreases end - start
  {
    if k < end - start {
      FramesAt(f, start, end - 1, k);
    }
  }

  /** Frames `start..end` of a sequence output, ascending. */
  function FrameFiles(n: Naming, ext: string, end: int): (r: seq<string>)
    ensures |r| == if end < n.start then 0 else end - n.start + 1
  {
    Frames(frame => FrameFile(n, ext, frame), n.start, end)
  }

  /** The `k`-th file of a sequence output is frame `start + k`: one file per frame, ascending. */
  lemma FrameFilesAt(n: Naming, ext: string, end: int)
    ensures forall k :: 0 <= k < |FrameFiles(n, ext, end)| ==> FrameFiles(n, ext, end)[k] == FrameFile(n, ext, n.start + k)
  {
    forall k | 0 <= k < |FrameFiles(n, ext, end)| ensures FrameFiles(n, ext, end)[k] == FrameFile(n, ext, n.start + k) {
      FramesAt(frame => FrameFile(n, ext, frame), n.start, end, k);
    }
  }

  /** The number of frames in the instance's range: `end - start + 1`, or none. */
  function FrameCount(n: Naming): nat {
    if n.end < n.start then 0 else n.end - n.start + 1
  }

  /** The files one render-queue output path is expected to produce. */
  function QueuePathFiles(n: Naming, path: string): (r: seq<string>)
    ensures |r| == if '#' !in path then 1 else FrameCount(n)
  {
    if '#' !in path then [Join(n.base, SingleFileName(n.productName, n.version, Extension(path)))]
    else FrameFiles(n, Extension(path), n.end)
  }

  /** `f` applied to every path, the results concatenated in order. */
  function FlatMap(f: string -> seq<string>, paths: seq<string>): seq<string> {
    if paths == [] then []
    else FlatMap(f, paths[..|paths| - 1]) + f(paths[|paths| - 1])
  }

  lemma {:induction false} FlatMapAppend(f: string -> seq<string>, a: seq<string>, b: seq<string>)
    ensures FlatMap(f, a + b) == FlatMap(f, a) + FlatMap(f, b)
    decreases |b|
  {
    if b == [] {
      assert a + b == a;
    } else {
      var b', x := b[..|b| - 1], b[|b| - 1];
      assert (a + b)[..|a + b| - 1] == a + b';
      assert (a + b)[|a + b| - 1] == x;
      FlatMapAppend(f, a, b');
      var fa, fb' := FlatMap(f, a), FlatMap(f, b');
      assert FlatMap(f, a + b) == (fa + fb') + f(x);
      assert FlatMap(f, b) == fb' + f(x);
      assert (fa + fb') + f(x) == fa + (fb' + f(x));
    }
  }

  lemma {:induction false} FlatMapMember(f: string -> seq<string>, paths: seq<string>, x: string)
    requires x in FlatMap(f, paths)
    ensures exists k :: 0 <= k < |paths| && x in f(paths[k])
    decreases |paths|
  {
    var n := |paths| - 1;
    if x !in f(paths[n]) {
      FlatMapMember(f, paths[..n], x);
      var k :| 0 <= k < n && x in f(paths[..n][k]);
      assert paths[..n][k] == paths[k];
    }
  }

  /** The expected files of all render-queue paths, in render-queue order. */
  function ExpectedFiles(n: Naming, paths: seq<string>): seq<string> {
    FlatMap(p => QueuePathFiles(n, p), paths)
  }

  /** How many of `paths` are single-file (movie) outputs, without a `#`. */
  function SingleCount(paths: seq<string>): (c: nat)
    ensures c <= |paths|
  {
    if paths == [] then 0
    else SingleCount(paths[..|paths| - 1]) + if '#' !in paths[|paths| - 1] then 1 else 0
  }

  /** The length of a flat map when each single path gives one entry and each other path
      gives `frames`. */
  lemma {:induction false} FlatMapCount(f: string -> seq<string>, paths: seq<string>, frames: nat)
    requires forall p :: |f(p)| == if '#' !in p then 1 else frames
    ensures |FlatMap(f, paths)| == SingleCount(paths) + (|paths| - SingleCount(paths)) * frames
    decreases |paths|
  {
    if paths != [] {
      var m := |paths| - 1;
      FlatMapCount(f, paths[..m], frames);
      var s, c := SingleCount(paths[..m]), SingleCount(paths);
      var k := m - s;
      assert |FlatMap(f, paths)| == |FlatMap(f, paths[..m])| + |f(paths[m])|;
      if '#' !in paths[m] {
        assert c == s + 1 && |paths| - c == k;
      } else {
        assert c == s && |paths| - c == k + 1;
        MulSucc(k, frames);
      }
    }
  }

  lemma MulSucc(k: int, x: int)
    ensures (k + 1) * x == k * x + x
  {
  }

  /** The number of expected files: one per single path plus one per frame per sequence path. */
  lemma ExpectedFilesCount(n: Naming, paths: seq<string>)
    ensures |ExpectedFiles(n, paths)| == SingleCount(paths) + (|paths| - SingleCount(paths)) * FrameCount(n)
  {
    var f := p => QueuePathFiles(n, p);
    forall p ensures |f(p)| == if '#' !in p then 1 else FrameCount(n) {
      assert f(p) == QueuePathFiles(n, p);
    }
    FlatMapCount(f, paths, FrameCount(n));
  }

  /** The expected files of `a + b` are those of `a`, then those of `b`. */
  lemma ExpectedFilesAppend(n: Naming, a: seq<string>, b: seq<string>)
    ensures ExpectedFiles(n, a + b) == ExpectedFiles(n, a) + ExpectedFiles(n, b)
  {
    FlatMapAppend(p => QueuePathFiles(n, p), a, b);
  }

  lemma ExpectedFilesStep(n: Naming, paths: seq<string>, i: nat)
    requires i < |paths|
    ensures ExpectedFiles(n, paths[..i + 1]) == ExpectedFiles(n, paths[..i]) + QueuePathFiles(n, paths[i])
  {
    assert paths[..i + 1][..i] == paths[..i];
  }

  /** An expected file's own name never holds a `/` when the product name does not. */
  lemma FileNamesFlat(productName: string, version: int, frame: int, ext: string)
    requires '/' !in productName && NoDotOrSlash(ext)
    ensures '/' !in SingleFileName(productName, version, ext) && SingleFileName(productName, version, ext) != []
    ensures '/' !in FrameFileName(productName, version, frame, ext) && FrameFileName(productName, version, frame, ext) != []
  {
    ZeroPaddedAlphabet(version, 3);
    ZeroPaddedAlphabet(frame, PaddingWidth);
    var v, f := ZeroPadded(version, 3), ZeroPadded(frame, PaddingWidth);
    assert '/' !in v by { forall k | 0 <= k < |v| ensures v[k] != '/' { } }
    assert '/' !in f by { forall k | 0 <= k < |f| ensures f[k] != '/' { } }
    assert '/' !in ext by { forall k | 0 <= k < |ext| ensures ext[k] != '/' { } }
  }

  /** Every file of one render-queue path lies directly in the folder the naming uses. */
  lemma QueuePathFilesInDir(n: Naming, path: string)
    requires DirShape(n.base) && '/' !in n.productName
    ensures forall f :: f in QueuePathFiles(n, path) ==> Dirname(f) == n.base
  {
    var ext := Extension(path);
    if '#' !in path {
      SingleFileInDir(n, ext);
    } else {
      FrameFilesInDir(n, ext, n.end);
    }
  }

  /** The one file of a movie output lies directly in the folder the naming uses. */
  lemma SingleFileInDir(n: Naming, ext: string)
    requires DirShape(n.base) && '/' !in n.productName && NoDotOrSlash(ext)
    ensures Dirname(Join(n.base, SingleFileName(n.productName, n.version, ext))) == n.base
  {
    FileNamesFlat(n.productName, n.version, n.start, ext);
    DirnameOfJoin(n.base, SingleFileName(n.productName, n.version, ext));
  }

  /** Every frame file lies directly in the folder the naming uses. */
  lemma FrameFilesInDir(n: Naming, ext: string, end: int)
    requires DirShape(n.base) && '/' !in n.productName && NoDotOrSlash(ext)
    ensures forall f :: f in FrameFiles(n, ext, end) ==> Dirname(f) == n.base
  {
    var f := frame => FrameFile(n, ext, frame);
    forall frame ensures Dirname(f(frame)) == n.base {
      FrameFileInDir(n, ext, frame);
    }
    FramesAll(f, n.start, end, file => Dirname(file) == n.base);
  }

  /** A property every frame's entry has holds of every entry of the sequence. */
  lemma {:induction false} FramesAll<T>(f: int -> T, start: int, end: int, p: T -> bool)
    requires forall frame :: p(f(frame))
    ensures forall x :: x in Frames(f, start, end) ==> p(x)
    decreases end - start
  {
    if start <= end {
      FramesAll(f, start, end - 1, p);
    }
  }

  lemma FrameFileInDir(n: Naming, ext: string, frame: int)
    requires DirShape(n.base) && '/' !in n.productName && NoDotOrSlash(ext)
    ensures Dirname(FrameFile(n, ext, frame)) == n.base
  {
    FileNamesFlat(n.productName, n.version, frame, ext);
    DirnameOfJoin(n.base, FrameFileName(n.productName, n.version, frame, ext));
  }

  /** Every expected file lies directly in the output folder of the workfile. */
  lemma ExpectedFilesInOutputDir(source: string, productName: string, version: int, start: int, end: int,
                                 paths: seq<string>)
    requires Basename(source) != [] && '/' !in productName
    ensures var n := Naming(OutputDir(source), productName, version, start, end);
            forall f :: f in ExpectedFiles(n, paths) ==> Dirname(f) == OutputDir(source)
  {
    OutputDirShape(source);
    ExpectedFilesInDir(Naming(OutputDir(source), productName, version, start, end), paths);
  }

  lemma ExpectedFilesInDir(n: Naming, paths: seq<string>)
    requires DirShape(n.base) && '/' !in n.productName
    ensures forall f :: f in ExpectedFiles(n, paths) ==> Dirname(f) == n.base
  {
    forall f | f in ExpectedFiles(n, paths) ensures Dirname(f) == n.base {
      FlatMapMember(p => QueuePathFiles(n, p), paths, f);
      var k :| 0 <= k < |paths| && f in QueuePathFiles(n, paths[k]);
      QueuePathFilesInDir(n, paths[k]);
    }
  }

  // ---------------------------------------------------------------------------
  // Family lists

  /** `if family not in families: families.append(family)`. */
  function AddFamily(families: seq<string>, family: string): (r: seq<string>)
    ensures family in r && families <= r && |r| <= |families| + 1
    ensures forall y :: y in r <==> y in families || y == family
  {
    if family in families then families else families + [family]
  }

  /** Adding a family that is already there changes nothing, so a repeat is harmless. */
  lemma AddFamilyIdempotent(families: seq<string>, family: string)
    ensures AddFamily(AddFamily(families, family), family) == AddFamily(families, family)
  {
  }

  /** The index of the first `x` in `s`. */
  function IndexOf(s: seq<string>, x: string): (i: nat)
    requires x in s
    ensures i < |s| && s[i] == x && x !in s[..i]
  {
    if s[0] == x then 0
    else
      var j := IndexOf(s[1..], x);
      assert s[1..][..j] == s[1..j + 1];
      j + 1
  }

  /** `list.remove(x)`: the first `x` is taken out, nothing else moves. */
  function RemoveFirst(s: seq<string>, x: string): (r: seq<string>)
    requires x in s
    ensures |r| == |s| - 1
    ensures multiset(r) == multiset(s) - multiset{x}
  {
    var i := IndexOf(s, x);
    assert s == s[..i] + [s[i]] + s[i + 1..];
    s[..i] + s[i + 1..]
  }

  /** The families of a farm render: `render.farm` added once and one `review` removed. */
  function FarmFamilies(families: seq<string>): seq<string> {
    var f := AddFamily(families, "render.farm");
    if "review" in f then RemoveFirst(f, "review") else f
  }

  /** A farm render carries `render.farm`, one `review` fewer than before, and every other
      family it had. */
  lemma FarmFamiliesEffect(families: seq<string>)
    ensures "render.farm" in FarmFamilies(families)
    ensures multiset(FarmFamilies(families))["review"]
         == if "review" in families then multiset(families)["review"] - 1 else 0
    ensures forall y :: y != "review" ==> (y in FarmFamilies(families) <==> y in families || y == "render.farm")
  {
    var f := AddFamily(families, "render.farm");
    AddFamilyCount(families, "render.farm", "review");
    if "review" in f {
      RemoveFirstKeepsOthers(f, "review");
    }
  }

  /** Adding one family leaves the count of every other family as it was. */
  lemma AddFamilyCount(families: seq<string>, family: string, y: string)
    requires y != family
    ensures multiset(AddFamily(families, family))[y] == multiset(families)[y]
  {
    if family !in families {
      assert multiset(families + [family]) == multiset(families) + multiset{family};
    }
  }

  /** Removing the first `x` keeps every other value present or absent as before. */
  lemma RemoveFirstKeepsOthers(s: seq<string>, x: string)
    requires x in s
    ensures forall y :: y != x ==> (y in RemoveFirst(s, x) <==> y in s)
  {
    var r := RemoveFirst(s, x);
    forall y | y != x ensures y in r <==> y in s {
      assert y in r <==> multiset(r)[y] > 0;
      assert y in s <==> multiset(s)[y] > 0;
    }
  }

  /** The families a render target leaves on a render instance. */
  function TargetFamilies(renderTarget: string, families: seq<string>): seq<string> {
    if renderTarget == "local" then AddFamily(families, "render.local")
    else if renderTarget == "farm" then FarmFamilies(families)
    else families
  }

  // ---------------------------------------------------------------------------
  // Render instances

  /** The project entity handed to local renders; only its identity matters here. */
  datatype ProjectEntity = ProjectEntity(name: string)

  /** The render instance built for one source instance. */
  class AERenderInstance {
    const productName: string
    const version: int
    const source: string
    const folderPath: string
    const task: Option<string>
    const frameStart: int
    const frameEnd: int
    const fps: int
    const resolutionWidth: int
    const resolutionHeight: int
    const appVersion: string
    const review: bool
    const renderQueueFilePaths: seq<string>
    const outputDir: string
    const compName: string
    const compId: int
    var families: seq<string>
    var renderer: Option<string>
    var farm: bool
    var stagingDir: Option<string>
    var projectEntity: Option<ProjectEntity>

    constructor (productName: string, version: int, source: string, folderPath: string, task: Option<string>,
                 frameStart: int, frameEnd: int, fps: int, resolutionWidth: int, resolutionHeight: int,
                 appVersion: string, families: seq<string>, renderQueueFilePaths: seq<string>,
                 outputDir: string, compName: string, compId: int)
      ensures this.productName == productName && this.version == version && this.source == source
      ensures this.folderPath == folderPath && this.task == task
      ensures this.frameStart == frameStart && this.frameEnd == frameEnd && this.fps == fps
      ensures this.resolutionWidth == resolutionWidth && this.resolutionHeight == resolutionHeight
      ensures this.appVersion == appVersion && this.families == families
      ensures this.review == ("review" in families)
      ensures this.renderQueueFilePaths == renderQueueFilePaths
      ensures this.outputDir == outputDir
      ensures this.compName == compName && this.compId == compId
      ensures renderer == None && !farm && stagingDir == None && projectEntity == None
    {
      this.productName := productName;
      this.version := version;
      this.source := source;
      this.folderPath := folderPath;
      this.task := task;
      this.frameStart := frameStart;
      this.frameEnd := frameEnd;
      this.fps := fps;
      this.resolutionWidth := resolutionWidth;
      this.resolutionHeight := resolutionHeight;
      this.appVersion := appVersion;
      this.review := "review" in families;
      this.renderQueueFilePaths := renderQueueFilePaths;
      this.outputDir := outputDir;
      this.compName := compName;
      this.compId := compId;
      this.families := families;
      this.renderer := None;
      this.farm := false;
      this.stagingDir := None;
      this.projectEntity := None;
    }

    /** `_update_for_local`: a fresh staging folder, the project entity and `render.local`. */
    method UpdateForLocal(project: ProjectEntity, tempDir: string)
      modifies this
      ensures families == AddFamily(old(families), "render.local")
      ensures stagingDir == Some(tempDir) && projectEntity == Some(project)
      ensures renderer == old(renderer) && farm == old(farm)
    {
      stagingDir := Some(tempDir);
      projectEntity := Some(project);
      var fam := "render.local";
      if fam !in families {
        families := families + [fam];
      }
    }

    /** The farm branch: `render.farm` once, the `aerender` renderer, `farm` set, and one
        `review` removed so that no review is extracted locally. */
    method UpdateForFarm()
      modifies this
      ensures families == FarmFamilies(old(families))
      ensures renderer == Some("aerender") && farm
      ensures stagingDir == old(stagingDir) && projectEntity == old(projectEntity)
    {
      var fam := "render.farm";
      if fam !in families {
        families := families + [fam];
      }
      renderer := Some("aerender");
      farm := true;
      if "review" in families {
        families := RemoveFirst(families, "review");
      }
    }
  }

  /** The naming of a render instance's expected files. */
  function NamingOf(inst: AERenderInstance): Naming
    reads inst
  {
    Naming(OutputDir(inst.source), inst.productName, inst.version, inst.frameStart, inst.frameEnd)
  }

  /** `get_expected_files` for one render instance. */
  method GetExpectedFiles(inst: AERenderInstance) returns (files: seq<string>)
    ensures files == ExpectedFiles(NamingOf(inst), inst.renderQueueFilePaths)
  {
    var n := Naming(OutputDir(inst.source), inst.productName, inst.version, inst.frameStart, inst.frameEnd);
    files := ExpectedFilesFor(n, inst.renderQueueFilePaths);
  }

  /** The loop of `get_expected_files` over the render-queue paths. */
  method ExpectedFilesFor(n: Naming, paths: seq<string>) returns (files: seq<string>)
    ensures files == ExpectedFiles(n, paths)
  {
    files := [];
    var i := 0;
    while i < |paths|
      invariant 0 <= i <= |paths|
      invariant files == ExpectedFiles(n, paths[..i])
    {
      var more := QueuePathFilesFor(n, paths[i]);
      ExpectedFilesStep(n, paths, i);
      files := files + more;
      i := i + 1;
    }
    assert paths[..i] == paths;
  }

  /** The files of one render-queue path: a single movie file, or one file per frame. */
  method QueuePathFilesFor(n: Naming, fileName: string) returns (files: seq<string>)
    ensures files == QueuePathFiles(n, fileName)
  {
    var ext := Extension(fileName);
    if '#' !in fileName {
      files := [Join(n.base, SingleFileName(n.productName, n.version, ext))];
    } else {
      files := FrameFilesFor(n, ext);
    }
  }

  /** The loop over `range(start, end + 1)`: one file per frame. */
  method FrameFilesFor(n: Naming, ext: string) returns (files: seq<string>)
    ensures files == FrameFiles(n, ext, n.end)
  {
    files := FramesFor(frame => FrameFile(n, ext, frame), n.start, n.end);
  }

  /** The loop over `range(start, end + 1)`, where `f` gives one frame's entry. */
  method FramesFor<T>(f: int -> T, start: int, end: int) returns (r: seq<T>)
    ensures r == Frames(f, start, end)
  {
    r := [];
    var frame := start;
    while frame < end + 1
      invariant start <= frame <= if end < start then start else end + 1
      invariant r == Frames(f, start, frame - 1)
    {
      r := r + [f(frame)];
      frame := frame + 1;
    }
  }

  // ---------------------------------------------------------------------------
  // get_instances

  /** A publish instance as the creator left it (the entries `get_instances` reads).
      `members` holds the composition ids already converted with `int`. */
  datatype SourceInstance = SourceInstance(
    active: bool,
    productType: string,
    members: seq<int>,
    instanceId: Option<string>,
    task: Option<string>,
    families: Option<seq<string>>,
    productName: string,
    folderPath: string,
    renderTarget: string)

  /** `get_comp_properties`: timing of a composition; durations are whole frames here. */
  datatype CompInfo = CompInfo(frameStart: int, framesDuration: int, frameRate: int)

  /** One output module of a composition's render queue. */
  datatype RenderItem = RenderItem(fileName: string, width: int, height: int)

  /** Why collection stops: `IndexError` on empty members, `PublishValidationError` on an
      empty render queue, `ValueError` when the composition is missing. */
  datatype CollectError = NoMembers | NoRenderQueue(compId: int) | NoComposition(compId: int)

  /** Only active `render`/`renderLocal` instances are rendered. */
  predicate Selected(s: SourceInstance) {
    s.active && (s.productType == "render" || s.productType == "renderLocal")
  }

  /** The instance's families with `render` appended. */
  function InitialFamilies(s: SourceInstance): seq<string> {
    s.families.GetOr([]) + ["render"]
  }

  /** The stub's answers: `get_comp_properties` (a missing id is a falsy answer),
      `get_render_info` and the compositions of `get_items`, by composition id. */
  datatype HostAnswers = HostAnswers(
    compInfo: map<int, CompInfo>,
    renderInfo: map<int, seq<RenderItem>>,
    compositions: map<int, string>)

  /** What the stub says about one selected instance. */
  datatype Plan = Plan(source: SourceInstance, compId: int, info: CompInfo, queue: seq<RenderItem>, compName: string)

  /** What one source instance amounts to. */
  datatype Step = Skip | Orphan(id: string) | Build(plan: Plan) | Fail(err: CollectError)

  /** The id removed for an orphaned instance: its `instance_id`, or else the composition id. */
  function OrphanId(s: SourceInstance, compId: int): string {
    if s.instanceId.Some? && s.instanceId.value != "" then s.instanceId.value else IntToString(compId)
  }

  function StepFor(s: SourceInstance, host: HostAnswers): Step {
    if !Selected(s) then Skip
    else if s.members == [] then Fail(NoMembers)
    else
      var compId := s.members[0];
      if compId !in host.compInfo then Orphan(OrphanId(s, compId))
      else if compId !in host.renderInfo || host.renderInfo[compId] == [] then Fail(NoRenderQueue(compId))
      else if compId !in host.compositions then Fail(NoComposition(compId))
      else Build(Plan(s, compId, host.compInfo[compId], host.renderInfo[compId], host.compositions[compId]))
  }

  /** The plans so far (or the error that stopped collection) and the ids removed so far. */
  datatype Outcome = Outcome(plans: Result<seq<Plan>, CollectError>, removed: seq<string>)

  /** One more source instance: nothing changes once collection has failed. */
  function Advance(o: Outcome, step: Step): Outcome {
    if o.plans.Err? then o
    else match step
      case Skip => o
      case Orphan(id) => o.(removed := o.removed + [id])
      case Build(p) => o.(plans := Ok(o.plans.value + [p]))
      case Fail(e) => o.(plans := Err(e))
  }

  /** The outcome of `get_instances` over the context's instances, in order. */
  function Collected(sources: seq<SourceInstance>, host: HostAnswers): Outcome {
    if sources == [] then Outcome(Ok([]), [])
    else Advance(Collected(sources[..|sources| - 1], host), StepFor(sources[|sources| - 1], host))
  }

  lemma CollectedStep(sources: seq<SourceInstance>, i: nat, host: HostAnswers)
    requires i < |sources|
    ensures Collected(sources[..i + 1], host) == Advance(Collected(sources[..i], host), StepFor(sources[i], host))
  {
    assert sources[..i + 1][..i] == sources[..i];
  }

  /** Every planned render comes from a selected source instance whose composition has a
      render queue: unselected instances never produce a render instance. */
  lemma {:induction false} PlansAreSelected(sources: seq<SourceInstance>, host: HostAnswers)
    ensures var o := Collected(sources, host);
            o.plans.Ok? ==> forall p :: p in o.plans.value ==>
              p.source in sources && Selected(p.source) && p.queue != [] && p.source.members != []
              && p.compId == p.source.members[0]
    decreases |sources|
  {
    if sources != [] {
      var init := sources[..|sources| - 1];
      PlansAreSelected(init, host);
      assert forall x :: x in init ==> x in sources;
    }
  }

  /** Skipping: an unselected instance adds nothing, removes nothing and raises nothing. */
  lemma UnselectedIgnored(sources: seq<SourceInstance>, s: SourceInstance, host: HostAnswers)
    requires !Selected(s)
    ensures Collected(sources + [s], host) == Collected(sources, host)
  {
    assert (sources + [s])[..|sources + [s]| - 1] == sources;
  }

  /** Once a step fails, every longer prefix ends with that failure and removes no more. */
  lemma {:induction false} CollectedStopsAtError(sources: seq<SourceInstance>, i: nat, host: HostAnswers)
    requires i <= |sources| && Collected(sources[..i], host).plans.Err?
    ensures Collected(sources, host) == Collected(sources[..i], host)
    decreases |sources|
  {
    if i < |sources| {
      var init := sources[..|sources| - 1];
      assert init[..i] == sources[..i];
      CollectedStopsAtError(init, i, host);
    } else {
      assert sources[..i] == sources;
    }
  }

  /** The render instance `inst` is the one built from `p`, and `tempfile.mkdtemp` has been
      called `j` times before it. */
  predicate Matches(inst: AERenderInstance, p: Plan, ctx: RenderContext, j: nat)
    reads inst
  {
    MatchesFixed(inst, p, ctx) && MatchesTarget(inst, p, ctx, j)
  }

  /** A plan whose render target is `local` calls `tempfile.mkdtemp` once. */
  predicate IsLocal(p: Plan) {
    p.source.renderTarget == "local"
  }

  /** How many of the first `k` plans are local: the number of `tempfile.mkdtemp` calls
      made before plan `k` is built. */
  function LocalBefore(plans: seq<Plan>, k: nat): (c: nat)
    requires k <= |plans|
    ensures c <= k
  {
    if k == 0 then 0 else LocalBefore(plans, k - 1) + (if IsLocal(plans[k - 1]) then 1 else 0)
  }

  /** A plan appended after the others does not change the counts before it. */
  lemma {:induction false} LocalBeforeAppend(plans: seq<Plan>, p: Plan, k: nat)
    requires k <= |plans|
    ensures LocalBefore(plans + [p], k) == LocalBefore(plans, k)
  {
    if k > 0 {
      LocalBeforeAppend(plans, p, k - 1);
      assert (plans + [p])[k - 1] == plans[k - 1];
    }
  }

  /** A local plan before position `k2` makes the count of local plans grow past it. */
  lemma {:induction false} LocalBeforeGrows(plans: seq<Plan>, k1: nat, k2: nat)
    requires k1 < k2 <= |plans| && IsLocal(plans[k1])
    ensures LocalBefore(plans, k1) < LocalBefore(plans, k2)
    decreases k2
  {
    if k2 > k1 + 1 {
      LocalBeforeGrows(plans, k1, k2 - 1);
    }
  }

  /** Local instances get pairwise different staging folders when `tempfile.mkdtemp` never
      hands out the same folder twice. */
  lemma LocalFoldersDistinct(plans: seq<Plan>, mkdtemp: nat -> string, k1: nat, k2: nat)
    requires forall a: nat, b: nat :: a != b ==> mkdtemp(a) != mkdtemp(b)
    requires k1 < |plans| && k2 < |plans| && k1 != k2 && IsLocal(plans[k1]) && IsLocal(plans[k2])
    ensures mkdtemp(LocalBefore(plans, k1)) != mkdtemp(LocalBefore(plans, k2))
  {
    if k1 < k2 {
      LocalBeforeGrows(plans, k1, k2);
    } else {
      LocalBeforeGrows(plans, k2, k1);
    }
  }

  /** The entries set when the instance is created. */
  predicate MatchesFixed(inst: AERenderInstance, p: Plan, ctx: RenderContext) {
    var s := p.source;
    && p.queue != []
    && inst.productName == s.productName
    && inst.version == ctx.version
    && inst.source == ctx.currentFile
    && inst.folderPath == s.folderPath
    && inst.task == s.task
    && inst.frameStart == p.info.frameStart
    && inst.frameEnd == p.info.frameStart + p.info.framesDuration - 1
    && inst.fps == p.info.frameRate
    && inst.resolutionWidth == p.queue[0].width
    && inst.resolutionHeight == p.queue[0].height
    && inst.appVersion == Slice(ctx.appVersion, 0, 4)
    && inst.review == ("review" in InitialFamilies(s))
    && inst.renderQueueFilePaths == FileNames(p.queue)
    && inst.outputDir == OutputDir(ctx.currentFile)
    && inst.compName == p.compName
    && inst.compId == p.compId
  }

  /** The entries the render target decides. */
  predicate MatchesTarget(inst: AERenderInstance, p: Plan, ctx: RenderContext, j: nat)
    reads inst
  {
    var s := p.source;
    && inst.families == TargetFamilies(s.renderTarget, InitialFamilies(s))
    && inst.farm == (s.renderTarget == "farm")
    && inst.renderer == (if s.renderTarget == "farm" then Some("aerender") else None)
    && inst.stagingDir == (if s.renderTarget == "local" then Some(ctx.mkdtemp(j)) else None)
    && inst.projectEntity == (if s.renderTarget == "local" then Some(ctx.project) else None)
  }

  /** `item.file_name` of every output module, in order. */
  function FileNames(queue: seq<RenderItem>): (r: seq<string>)
    ensures |r| == |queue| && forall k :: 0 <= k < |r| ==> r[k] == queue[k].fileName
  {
    if queue == [] then [] else [queue[0].fileName] + FileNames(queue[1..])
  }

  /** The context entries every render instance shares: the host's version string, the
      workfile, the version and the project entity; `mkdtemp(j)` is the folder that call
      number `j` (from 0) of `tempfile.mkdtemp` creates. */
  datatype RenderContext = RenderContext(appVersion: string, currentFile: string, version: int,
                                         project: ProjectEntity, mkdtemp: nat -> string)

  /** The body of the loop in `get_instances` for an instance that gets rendered. */
  method BuildInstance(p: Plan, ctx: RenderContext, j: nat) returns (inst: AERenderInstance)
    requires p.queue != []
    ensures fresh(inst) && Matches(inst, p, ctx, j)
  {
    var s := p.source;
    var families := InitialFamilies(s);
    var first := p.queue[0];
    var appVersion := Slice(ctx.appVersion, 0, 4);
    var fileNames := FileNames(p.queue);
    var outputDir := OutputDir(ctx.currentFile);
    inst := new AERenderInstance(s.productName, ctx.version, ctx.currentFile, s.folderPath, s.task,
                                 p.info.frameStart, p.info.frameStart + p.info.framesDuration - 1,
                                 p.info.frameRate, first.width, first.height,
                                 appVersion, families, fileNames, outputDir, p.compName, p.compId);
    assert MatchesFixed(inst, p, ctx);
    ApplyTarget(inst, s.renderTarget, ctx, j);
  }

  /** The branch on the render target: `_update_for_local`, the farm settings, or nothing. */
  method ApplyTarget(inst: AERenderInstance, renderTarget: string, ctx: RenderContext, j: nat)
    requires inst.renderer == None && !inst.farm && inst.stagingDir == None && inst.projectEntity == None
    modifies inst
    ensures inst.families == TargetFamilies(renderTarget, old(inst.families))
    ensures inst.farm == (renderTarget == "farm")
    ensures inst.renderer == (if renderTarget == "farm" then Some("aerender") else None)
    ensures inst.stagingDir == (if renderTarget == "local" then Some(ctx.mkdtemp(j)) else None)
    ensures inst.projectEntity == (if renderTarget == "local" then Some(ctx.project) else None)
  {
    if renderTarget == "local" {
      var tempDir := ctx.mkdtemp(j);
      inst.UpdateForLocal(ctx.project, tempDir);
    } else if renderTarget == "farm" {
      inst.UpdateForFarm();
    }
  }

  /** Build the render instance of `p` and put it after the others; `temps` counts the
      `tempfile.mkdtemp` calls made so far. */
  method AppendInstance(instances0: seq<AERenderInstance>, ghost plans: seq<Plan>, p: Plan, ctx: RenderContext,
                        temps0: nat)
    returns (instances: seq<AERenderInstance>, temps: nat)
    requires p.queue != [] && |instances0| == |plans| && temps0 == LocalBefore(plans, |plans|)
    requires forall k {:trigger instances0[k]} :: 0 <= k < |instances0| ==> Matches(instances0[k], plans[k], ctx, LocalBefore(plans, k))
    ensures |instances| == |plans| + 1 && temps == LocalBefore(plans + [p], |plans| + 1)
    ensures forall k {:trigger instances[k]} :: 0 <= k < |instances| ==>
              Matches(instances[k], (plans + [p])[k], ctx, LocalBefore(plans + [p], k))
  {
    var inst := BuildInstance(p, ctx, temps0);
    instances := instances0 + [inst];
    temps := if p.source.renderTarget == "local" then temps0 + 1 else temps0;
    MatchesExtend(instances0, plans, inst, p, ctx);
  }

  /** The instances built so far, followed by the one built from `p` after them. */
  lemma MatchesExtend(instances0: seq<AERenderInstance>, plans: seq<Plan>, inst: AERenderInstance, p: Plan,
                      ctx: RenderContext)
    requires |instances0| == |plans| && Matches(inst, p, ctx, LocalBefore(plans, |plans|))
    requires forall k {:trigger instances0[k]} :: 0 <= k < |instances0| ==> Matches(instances0[k], plans[k], ctx, LocalBefore(plans, k))
    ensures LocalBefore(plans + [p], |plans| + 1) == LocalBefore(plans, |plans|) + (if IsLocal(p) then 1 else 0)
    ensures forall k {:trigger (instances0 + [inst])[k]} :: 0 <= k < |instances0| + 1 ==>
              Matches((instances0 + [inst])[k], (plans + [p])[k], ctx, LocalBefore(plans + [p], k))
  {
    LocalBeforeAppend(plans, p, |plans|);
    forall k | 0 <= k < |instances0| + 1
      ensures Matches((instances0 + [inst])[k], (plans + [p])[k], ctx, LocalBefore(plans + [p], k))
    {
      LocalBeforeAppend(plans, p, k);
      if k < |instances0| {
        MatchesSame(instances0[k], (instances0 + [inst])[k], plans[k], (plans + [p])[k], ctx,
                    LocalBefore(plans, k), LocalBefore(plans + [p], k));
      }
    }
  }

  /** `Matches` of equal arguments. */
  lemma MatchesSame(a: AERenderInstance, a': AERenderInstance, p: Plan, p': Plan, ctx: RenderContext, j: nat, j': nat)
    requires a == a' && p == p' && j == j' && Matches(a, p, ctx, j)
    ensures Matches(a', p', ctx, j')
  {
  }

  /** The body of the loop in `get_instances` for one source instance: skip it, remove its
      orphaned id, fail, or build its render instance. */
  method CollectOne(s: SourceInstance, host: HostAnswers, ctx: RenderContext,
                    instances0: seq<AERenderInstance>, ghost plans0: seq<Plan>, removed0: seq<string>, temps0: nat)
    returns (failed: Option<CollectError>, instances: seq<AERenderInstance>, ghost plans: seq<Plan>,
             removed: seq<string>, temps: nat)
    requires |instances0| == |plans0| && temps0 == LocalBefore(plans0, |plans0|)
    requires forall k {:trigger instances0[k]} :: 0 <= k < |instances0| ==> Matches(instances0[k], plans0[k], ctx, LocalBefore(plans0, k))
    ensures Advance(Outcome(Ok(plans0), removed0), StepFor(s, host))
         == if failed.Some? then Outcome(Err(failed.value), removed) else Outcome(Ok(plans), removed)
    ensures |instances| == |plans| && temps == LocalBefore(plans, |plans|)
    ensures forall k {:trigger instances[k]} :: 0 <= k < |instances| ==> Matches(instances[k], plans[k], ctx, LocalBefore(plans, k))
  {
    failed, instances, plans, removed, temps := None, instances0, plans0, removed0, temps0;
    if !s.active || !(s.productType == "render" || s.productType == "renderLocal") {
      return;
    }
    if s.members == [] {
      failed := Some(NoMembers);
      return;
    }
    var compId := s.members[0];
    if compId !in host.compInfo {
      removed := removed + [OrphanId(s, compId)];
      return;
    }
    if compId !in host.renderInfo || host.renderInfo[compId] == [] {
      failed := Some(NoRenderQueue(compId));
      return;
    }
    if compId !in host.compositions {
      failed := Some(NoComposition(compId));
      return;
    }
    var p := Plan(s, compId, host.compInfo[compId], host.renderInfo[compId], host.compositions[compId]);
    instances, temps := AppendInstance(instances, plans, p, ctx, temps);
    plans := plans + [p];
  }

  /** `get_instances`: one render instance per selected instance, in context order, plus the
      ids of orphaned instances the stub is asked to remove. The k-th render instance, when
      local, stages into the folder of the next `tempfile.mkdtemp` call. */
  method GetInstances(sources: seq<SourceInstance>, host: HostAnswers, ctx: RenderContext)
    returns (r: Result<seq<AERenderInstance>, CollectError>, removed: seq<string>)
    ensures var o := Collected(sources, host);
            && removed == o.removed
            && (r.Ok? <==> o.plans.Ok?)
            && (r.Err? ==> r.error == o.plans.error)
            && (r.Ok? ==> |r.value| == |o.plans.value|
                          && forall k {:trigger r.value[k]} :: 0 <= k < |r.value| ==>
                               Matches(r.value[k], o.plans.value[k], ctx, LocalBefore(o.plans.value, k)))
    ensures (forall a: nat, b: nat :: a != b ==> ctx.mkdtemp(a) != ctx.mkdtemp(b)) && r.Ok? ==>
              forall k1, k2 :: 0 <= k1 < k2 < |r.value| && r.value[k1].stagingDir.Some? && r.value[k2].stagingDir.Some?
                ==> r.value[k1].stagingDir != r.value[k2].stagingDir
  {
    var instances: seq<AERenderInstance> := [];
    ghost var plans: seq<Plan> := [];
    removed := [];
    var temps := 0;
    var i := 0;
    while i < |sources|
      invariant 0 <= i <= |sources|
      invariant Collected(sources[..i], host) == Outcome(Ok(plans), removed)
      invariant |instances| == |plans| && temps == LocalBefore(plans, |plans|)
      invariant forall k {:trigger instances[k]} :: 0 <= k < |instances| ==> Matches(instances[k], plans[k], ctx, LocalBefore(plans, k))
    {
      CollectedStep(sources, i, host);
      var failed;
      failed, instances, plans, removed, temps := CollectOne(sources[i], host, ctx, instances, plans, removed, temps);
      if failed.Some? {
        CollectedStopsAtError(sources, i + 1, host);
        return Err(failed.value), removed;
      }
      i := i + 1;
    }
    assert sources[..i] == sources;
    r := Ok(instances);
    if forall a: nat, b: nat :: a != b ==> ctx.mkdtemp(a) != ctx.mkdtemp(b) {
      StagingDirsDistinct(instances, plans, ctx);
    }
  }

  /** Built instances whose `tempfile.mkdtemp` calls never repeat a folder stage into
      pairwise different folders. */
  lemma StagingDirsDistinct(instances: seq<AERenderInstance>, plans: seq<Plan>, ctx: RenderContext)
    requires forall a: nat, b: nat :: a != b ==> ctx.mkdtemp(a) != ctx.mkdtemp(b)
    requires |instances| == |plans|
    requires forall k {:trigger instances[k]} :: 0 <= k < |instances| ==> Matches(instances[k], plans[k], ctx, LocalBefore(plans, k))
    ensures forall k1, k2 :: 0 <= k1 < k2 < |instances| && instances[k1].stagingDir.Some? && instances[k2].stagingDir.Some?
              ==> instances[k1].stagingDir != instances[k2].stagingDir
  {
    forall k1, k2 | 0 <= k1 < k2 < |instances| && instances[k1].stagingDir.Some? && instances[k2].stagingDir.Some?
      ensures instances[k1].stagingDir != instances[k2].stagingDir
    {
      assert MatchesTarget(instances[k1], plans[k1], ctx, LocalBefore(plans, k1));
      assert MatchesTarget(instances[k2], plans[k2], ctx, LocalBefore(plans, k2));
      LocalFoldersDistinct(plans, ctx.mkdtemp, k1, k2);
    }
  }
}
