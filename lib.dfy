/** Naming, scene-settings and background-layer helpers of the After Effects host
    (`api/lib.py`). The host stub is replaced by recorded calls and by inputs. */
module AeLib {
  import opened Wrappers
  import opened Strings
  import opened PosixPath

  // ---------------------------------------------------------------------------
  // get_unique_layer_name

  /** `s[..end]` ends with `_` followed by exactly three digits. */
  predicate SuffixEndsAt(s: string, end: int) {
    4 <= end <= |s| && s[end - 4] == '_' && IsDigit(s[end - 3]) && IsDigit(s[end - 2]) && IsDigit(s[end - 1])
  }

  /** `re.sub(r'_\d{3}$', '', s)`: removes one `_NNN` at the end; as in Python, `$` also
      matches just before a final newline. */
  function StripLayerSuffix(s: string): string {
    if SuffixEndsAt(s, |s|) then s[..|s| - 4]
    else if |s| >= 1 && s[|s| - 1] == '\n' && SuffixEndsAt(s, |s| - 1) then s[..|s| - 5] + "\n"
    else s
  }

  /** How many of `layers` reduce to `name` once their `_NNN` suffix is removed. */
  function Occurrences(layers: seq<string>, name: string): nat {
    if layers == [] then 0
    else Occurrences(layers[..|layers| - 1], name)
         + (if StripLayerSuffix(layers[|layers| - 1]) == name then 1 else 0)
  }

  /** `name`, `_` and `k` zero-filled to three digits, as `get_unique_layer_name` formats it. */
  function NumberedName(name: string, k: nat): string {
    name + "_" + PadLeft(NatToString(k), 3, '0')
  }

  /** The next free numbered name: `name_` and one more than the number of layers that
      reduce to `name`, zero-padded to three digits. */
  method GetUniqueLayerName(layers: seq<string>, name: string) returns (r: string)
    ensures r == NumberedName(name, Occurrences(layers, name) + 1)
  {
    var names := CountLayerNames(layers);
    var occurrences := if name in names then names[name] else 0;
    r := NumberedName(name, occurrences + 1);
  }

  /** The loop of `get_unique_layer_name`: the dictionary from each reduced layer name to
      the number of layers that reduce to it. */
  method CountLayerNames(layers: seq<string>) returns (names: map<string, nat>)
    ensures forall k :: k in names ==> names[k] == Occurrences(layers, k)
    ensures forall k :: k !in names ==> Occurrences(layers, k) == 0
  {
    names := map[];
    var i := 0;
    while i < |layers|
      invariant 0 <= i <= |layers|
      invariant Counts(names, layers[..i])
    {
      var layerName := StripLayerSuffix(layers[i]);
      ghost var before := names;
      if layerName in names {
        names := names[layerName := names[layerName] + 1];
      } else {
        names := names[layerName := 1];
      }
      CountsStep(layers, i, before, names);
      i := i + 1;
    }
    assert layers[..i] == layers;
  }

  /** The dictionary the loop builds: for every name seen so far, how many layers reduce
      to it; names not in the dictionary occur nowhere. */
  ghost predicate Counts(names: map<string, nat>, layers: seq<string>) {
    && (forall k :: k in names ==> names[k] == Occurrences(layers, k))
    && (forall k :: k !in names ==> Occurrences(layers, k) == 0)
  }

  /** One turn of the loop counts one more layer. */
  lemma CountsStep(layers: seq<string>, i: nat, before: map<string, nat>, after: map<string, nat>)
    requires i < |layers| && Counts(before, layers[..i])
    requires var n := StripLayerSuffix(layers[i]);
             after == before[n := if n in before then before[n] + 1 else 1]
    ensures Counts(after, layers[..i + 1])
  {
    forall k | k in after ensures after[k] == Occurrences(layers[..i + 1], k) {
      OccurrencesStep(layers, i, k);
    }
    forall k | k !in after ensures Occurrences(layers[..i + 1], k) == 0 {
      OccurrencesStep(layers, i, k);
    }
  }

  lemma OccurrencesStep(layers: seq<string>, i: nat, name: string)
    requires i < |layers|
    ensures Occurrences(layers[..i + 1], name)
         == Occurrences(layers[..i], name) + (if StripLayerSuffix(layers[i]) == name then 1 else 0)
  {
    assert layers[..i + 1][..i] == layers[..i];
  }

  /** With no layer reducing to `name`, the first name handed out is `name_001`. */
  lemma FirstNumberedName(layers: seq<string>, name: string)
    requires forall i :: 0 <= i < |layers| ==> StripLayerSuffix(layers[i]) != name
    ensures NumberedName(name, Occurrences(layers, name) + 1) == name + "_001"
  {
    OccurrencesZero(layers, name);
    NumberedNameOne(name);
  }

  lemma NumberedNameOne(name: string)
    ensures NumberedName(name, 1) == name + "_001"
  {
    assert NatToString(1) == "1";
    var z := Repeat('0', 2);
    assert z == "00" by { assert z[0] == '0' && z[1] == '0'; }
    assert PadLeft("1", 3, '0') == "001";
  }

  lemma {:induction false} OccurrencesZero(layers: seq<string>, name: string)
    requires forall i :: 0 <= i < |layers| ==> StripLayerSuffix(layers[i]) != name
    ensures Occurrences(layers, name) == 0
  {
    if layers != [] {
      OccurrencesZero(layers[..|layers| - 1], name);
    }
  }

  /** Inserting one more layer anywhere adds one to the count when it reduces to `name`,
      and nothing otherwise. */
  lemma {:induction false} OccurrencesInsert(a: seq<string>, layer: string, b: seq<string>, name: string)
    ensures Occurrences(a + [layer] + b, name)
         == Occurrences(a + b, name) + (if StripLayerSuffix(layer) == name then 1 else 0)
    decreases |b|
  {
    if b == [] {
      assert a + [layer] + b == a + [layer] by { assert b == []; }
      assert a + b == a;
      OccurrencesSnoc(a, layer, name);
    } else {
      var b', x := b[..|b| - 1], b[|b| - 1];
      var l, r := a + [layer] + b', a + b';
      OccurrencesInsert(a, layer, b', name);
      SnocSplit(a + [layer], b);
      SnocSplit(a, b);
      OccurrencesSnocBoth(l, r, x, name, if StripLayerSuffix(layer) == name then 1 else 0);
    }
  }

  lemma SnocSplit<T>(p: seq<T>, b: seq<T>)
    requires b != []
    ensures p + b == (p + b[..|b| - 1]) + [b[|b| - 1]]
  {
    assert b == b[..|b| - 1] + [b[|b| - 1]];
  }

  lemma OccurrencesSnocBoth(l: seq<string>, r: seq<string>, x: string, name: string, c: nat)
    requires Occurrences(l, name) == Occurrences(r, name) + c
    ensures Occurrences(l + [x], name) == Occurrences(r + [x], name) + c
  {
    OccurrencesSnoc(l, x, name);
    OccurrencesSnoc(r, x, name);
  }

  lemma OccurrencesSnoc(s: seq<string>, x: string, name: string)
    ensures Occurrences(s + [x], name) == Occurrences(s, name) + (if StripLayerSuffix(x) == name then 1 else 0)
  {
    assert (s + [x])[..|s|] == s;
  }

  /** The numbered name reduces back to `name` while the number has three digits, so the
      name handed out is counted the next time. */
  lemma NumberedNameStrips(name: string, k: nat)
    requires 1 <= k <= 999
    ensures StripLayerSuffix(NumberedName(name, k)) == name
  {
    NatToStringLength(k, 3);
    var digits := PadLeft(NatToString(k), 3, '0');
    assert |digits| == 3;
    assert AllDigits(digits);
    var s := NumberedName(name, k);
    assert s == name + "_" + digits;
    assert SuffixEndsAt(s, |s|);
    assert s[..|s| - 4] == name;
  }

  // ---------------------------------------------------------------------------
  // get_entity_attributes

  /** `attrib.get(key, 0)`. */
  function Attribute(attrib: map<string, int>, key: string): int {
    if key in attrib then attrib[key] else 0
  }

  /** The dictionary `get_entity_attributes` returns; its eight keys are fixed, so it is a
      record here. */
  datatype EntitySettings = EntitySettings(
    fps: int, frameStart: int, frameEnd: int, handleStart: int, handleEnd: int,
    resolutionWidth: int, resolutionHeight: int, duration: int)

  /** The scene settings of an entity: its seven attributes (0 when absent) and the
      duration of the frame range with both handles. */
  function EntityAttributes(attrib: map<string, int>): (r: EntitySettings)
    ensures r.fps == Attribute(attrib, "fps") && r.resolutionWidth == Attribute(attrib, "resolutionWidth")
    ensures r.resolutionHeight == Attribute(attrib, "resolutionHeight")
    ensures r.frameStart == Attribute(attrib, "frameStart") && r.frameEnd == Attribute(attrib, "frameEnd")
    ensures r.handleStart == Attribute(attrib, "handleStart") && r.handleEnd == Attribute(attrib, "handleEnd")
    // the duration counts every frame from the first handle frame to the last one
    ensures (r.frameStart - r.handleStart) + r.duration - 1 == r.frameEnd + r.handleEnd
  {
    var frameStart := Attribute(attrib, "frameStart");
    var frameEnd := Attribute(attrib, "frameEnd");
    var handleStart := Attribute(attrib, "handleStart");
    var handleEnd := Attribute(attrib, "handleEnd");
    EntitySettings(
      Attribute(attrib, "fps"), frameStart, frameEnd, handleStart, handleEnd,
      Attribute(attrib, "resolutionWidth"), Attribute(attrib, "resolutionHeight"),
      (frameEnd - frameStart + 1) + handleStart + handleEnd)
  }

  // ---------------------------------------------------------------------------
  // set_settings

  /** The arguments of `set_comp_properties`; `None` stands for Python's `None`. */
  datatype CompProperties = CompProperties(
    frameStart: Option<int>, duration: Option<int>, fps: Option<int>,
    width: Option<int>, height: Option<int>)

  /** The calls `set_settings` makes on the host stub, in order. */
  datatype StubCall =
    | GetSelectedItems
    | SetCompProperties(compId: int, props: CompProperties)
    | PrintMsg(text: string)

  const NoSelectionMessage: string := "Select at least one composition to apply settings."

  /** What is sent for every composition: frame values only when `frames` is set, the
      resolution only when `resolution` is set. */
  function SettingsFor(frames: bool, resolution: bool, attrib: map<string, int>): (p: CompProperties)
    ensures frames ==> p.frameStart == Some(Attribute(attrib, "frameStart") - Attribute(attrib, "handleStart"))
    ensures frames ==> p.duration == Some(EntityAttributes(attrib).duration)
    ensures frames ==> p.fps == Some(Attribute(attrib, "fps"))
    ensures !frames ==> p.frameStart.None? && p.duration.None? && p.fps.None?
    ensures resolution ==> p.width == Some(Attribute(attrib, "resolutionWidth"))
    ensures resolution ==> p.height == Some(Attribute(attrib, "resolutionHeight"))
    ensures !resolution ==> p.width.None? && p.height.None?
  {
    var settings := EntityAttributes(attrib);
    CompProperties(
      if frames then Some(settings.frameStart - settings.handleStart) else None,
      if frames then Some(settings.duration) else None,
      if frames then Some(settings.fps) else None,
      if resolution then Some(settings.resolutionWidth) else None,
      if resolution then Some(settings.resolutionHeight) else None)
  }

  /** The message text built before the compositions are visited. */
  function SettingsMessage(frames: bool, resolution: bool, attrib: map<string, int>): string {
    var settings := EntityAttributes(attrib);
    (if frames then
       "frame start:" + IntToString(settings.frameStart - settings.handleStart)
       + ", duration:" + IntToString(settings.duration)
       + ", fps:" + IntToString(settings.fps)
     else "")
    + (if resolution then
         "width:" + IntToString(settings.resolutionWidth)
         + " and height:" + IntToString(settings.resolutionHeight)
       else "")
  }

  /** The calls made for `ids`, one `set_comp_properties` per id and, when `printMsg`, a
      message after each; every message is prefixed to the previous one. */
  function CompCalls(ids: seq<int>, msg: string, props: CompProperties, printMsg: bool): seq<StubCall> {
    if ids == [] then []
    else
      var m := CompMessage(ids[0], msg);
      CompStep(ids[0], m, props, printMsg) + CompCalls(ids[1..], m, props, printMsg)
  }

  /** The message printed after composition `id`. */
  function CompMessage(id: int, msg: string): string {
    "Setting for comp " + IntToString(id) + " " + msg
  }

  /** The calls made for one composition. */
  function CompStep(id: int, m: string, props: CompProperties, printMsg: bool): seq<StubCall> {
    [SetCompProperties(id, props)] + (if printMsg then [PrintMsg(m)] else [])
  }

  /** The composition ids of the `set_comp_properties` calls, in call order. */
  function SetCompIds(calls: seq<StubCall>): seq<int> {
    if calls == [] then []
    else (if calls[0].SetCompProperties? then [calls[0].compId] else []) + SetCompIds(calls[1..])
  }

  /** The composition ids targeted: `compIds`, or the current selection when it is empty. */
  function TargetIds(compIds: seq<int>, selected: seq<int>): seq<int> {
    if compIds != [] then compIds else selected
  }

  /** `set_settings`: the stub calls made, given the entity's attributes and what the stub
      reports as the selected compositions. */
  method SetSettings(frames: bool, resolution: bool, compIds: seq<int>, printMsg: bool,
                     attrib: map<string, int>, selected: seq<int>)
    returns (calls: seq<StubCall>)
    ensures calls == (if compIds == [] then [GetSelectedItems] else [])
                     + (if TargetIds(compIds, selected) == [] then [PrintMsg(NoSelectionMessage)]
                        else CompCalls(TargetIds(compIds, selected), SettingsMessage(frames, resolution, attrib),
                                       SettingsFor(frames, resolution, attrib), printMsg))
    ensures SetCompIds(calls) == TargetIds(compIds, selected)
    ensures forall c :: c in calls && c.SetCompProperties? ==> c.props == SettingsFor(frames, resolution, attrib)
  {
    var props := SettingsFor(frames, resolution, attrib);
    var msg := SettingsMessage(frames, resolution, attrib);
    var head: seq<StubCall> := [];
    var ids := compIds;
    if ids == [] {
      head := [GetSelectedItems];
      ids := selected;
    }
    assert SetCompIds(head) == [] by {
      if head != [] { assert head[1..] == []; }
    }
    var tail: seq<StubCall>;
    if ids == [] {
      tail := [PrintMsg(NoSelectionMessage)];
      assert tail[1..] == [];
    } else {
      tail := CompCallsFor(ids, msg, props, printMsg);
      CompCallsTargets(ids, msg, props, printMsg);
    }
    calls := head + tail;
    SetCompIdsAppend(head, tail);
  }

  /** The loop of `set_settings` over the composition ids. */
  method CompCallsFor(ids: seq<int>, msg0: string, props: CompProperties, printMsg: bool)
    returns (calls: seq<StubCall>)
    ensures calls == CompCalls(ids, msg0, props, printMsg)
  {
    calls := [];
    var msg := msg0;
    var i := 0;
    while i < |ids|
      invariant 0 <= i <= |ids|
      invariant CompCalls(ids, msg0, props, printMsg) == calls + CompCalls(ids[i..], msg, props, printMsg)
    {
      var m := CompMessage(ids[i], msg);
      var step := CompStep(ids[i], m, props, printMsg);
      CompCallsInvariant(ids, i, msg0, msg, calls, props, printMsg);
      calls := calls + step;
      msg := m;
      i := i + 1;
    }
    assert ids[i..] == [];
    assert calls + [] == calls;
  }

  /** One turn of the loop keeps its invariant. */
  lemma CompCallsInvariant(ids: seq<int>, i: nat, msg0: string, msg: string, calls: seq<StubCall>,
                           props: CompProperties, printMsg: bool)
    requires i < |ids|
    requires CompCalls(ids, msg0, props, printMsg) == calls + CompCalls(ids[i..], msg, props, printMsg)
    ensures var m := CompMessage(ids[i], msg);
            CompCalls(ids, msg0, props, printMsg)
            == (calls + CompStep(ids[i], m, props, printMsg)) + CompCalls(ids[i + 1..], m, props, printMsg)
  {
    var m := CompMessage(ids[i], msg);
    CompCallsStep(ids, i, msg, props, printMsg);
    AppendAssoc(calls, CompStep(ids[i], m, props, printMsg), CompCalls(ids[i + 1..], m, props, printMsg));
  }

  lemma CompCallsStep(ids: seq<int>, i: nat, msg: string, props: CompProperties, printMsg: bool)
    requires i < |ids|
    ensures var m := CompMessage(ids[i], msg);
      CompCalls(ids[i..], msg, props, printMsg)
      == CompStep(ids[i], m, props, printMsg) + CompCalls(ids[i + 1..], m, props, printMsg)
  {
    assert ids[i..][1..] == ids[i + 1..];
  }

  lemma {:induction false} SetCompIdsAppend(a: seq<StubCall>, b: seq<StubCall>)
    ensures SetCompIds(a + b) == SetCompIds(a) + SetCompIds(b)
    decreases |a|
  {
    if a == [] {
      assert a + b == b;
    } else {
      SetCompIdsAppend(a[1..], b);
      ConsAppend(a, b);
      AppendAssoc(if a[0].SetCompProperties? then [a[0].compId] else [], SetCompIds(a[1..]), SetCompIds(b));
    }
  }

  /** Exactly one `set_comp_properties` per id, in list order, each with the same values. */
  lemma {:induction false} CompCallsTargets(ids: seq<int>, msg: string, props: CompProperties, printMsg: bool)
    ensures SetCompIds(CompCalls(ids, msg, props, printMsg)) == ids
    ensures forall c :: c in CompCalls(ids, msg, props, printMsg) && c.SetCompProperties? ==> c.props == props
    ensures |CompCalls(ids, msg, props, printMsg)| == if printMsg then 2 * |ids| else |ids|
    decreases |ids|
  {
    if ids != [] {
      var m := CompMessage(ids[0], msg);
      CompCallsTargets(ids[1..], m, props, printMsg);
      var first := CompStep(ids[0], m, props, printMsg);
      SetCompIdsAppend(first, CompCalls(ids[1..], m, props, printMsg));
      CompStepShape(ids[0], m, props, printMsg);
      assert ids == [ids[0]] + ids[1..];
    }
  }

  /** One composition's calls: one `set_comp_properties` with the shared values, and the
      message when asked for. */
  lemma CompStepShape(id: int, m: string, props: CompProperties, printMsg: bool)
    ensures SetCompIds(CompStep(id, m, props, printMsg)) == [id]
    ensures forall c :: c in CompStep(id, m, props, printMsg) && c.SetCompProperties? ==> c.props == props
    ensures |CompStep(id, m, props, printMsg)| == if printMsg then 2 else 1
  {
    var first := CompStep(id, m, props, printMsg);
    if printMsg {
      assert first[1..] == [PrintMsg(m)];
      assert SetCompIds(first[1..]) == [] by { assert first[1..][1..] == []; }
    } else {
      assert first[1..] == [];
    }
  }

  // ---------------------------------------------------------------------------
  // get_background_layers

  /** A node of the background JSON: `filename` is `""` when absent, `children` is `None`
      when the key is missing. */
  datatype BgNode = BgNode(filename: string, children: Option<seq<BgNode>>)

  /** The `KeyError` raised when a node without a filename has no `children` key. */
  datatype JsonError = MissingChildren

  /** The folder joined to the file name, backslashes turned into slashes. */
  function LayerPath(folder: string, filename: string): (r: string)
    ensures '\\' !in r
  {
    ReplaceChar(Join(folder, filename), '\\', '/')
  }

  /** The paths of the nodes in `layers` that have a file name, in order. */
  function FilePaths(folder: string, layers: seq<BgNode>): seq<string> {
    if layers == [] then []
    else FilePaths(folder, layers[..|layers| - 1])
         + (var last := layers[|layers| - 1];
            if last.filename != "" then [LayerPath(folder, last.filename)] else [])
  }

  /** The paths one top-level child contributes: its own file, or else its children's. */
  function ChildPaths(folder: string, child: BgNode): Result<seq<string>, JsonError> {
    if child.filename != "" then Ok([LayerPath(folder, child.filename)])
    else match child.children
      case None => Err(MissingChildren)
      case Some(layers) => Ok(FilePaths(folder, layers))
  }

  /** The paths of all top-level children, in JSON order; the first failure wins. */
  function BackgroundPaths(folder: string, children: seq<BgNode>): Result<seq<string>, JsonError> {
    if children == [] then Ok([])
    else match BackgroundPaths(folder, children[..|children| - 1])
      case Err(e) => Err(e)
      case Ok(paths) =>
        match ChildPaths(folder, children[|children| - 1])
        case Err(e) => Err(e)
        case Ok(more) => Ok(paths + more)
  }

  /** `get_background_layers` on the already parsed JSON of the file at `fileUrl`. */
  method GetBackgroundLayers(fileUrl: string, data: BgNode) returns (r: Result<seq<string>, JsonError>)
    ensures r == match data.children
                 case None => Err(MissingChildren)
                 case Some(children) => BackgroundPaths(Dirname(fileUrl), children)
  {
    if data.children.None? {
      return Err(MissingChildren);
    }
    var children := data.children.value;
    var layers: seq<string> := [];
    var folder := Dirname(fileUrl);
    var i := 0;
    while i < |children|
      invariant 0 <= i <= |children|
      invariant BackgroundPaths(folder, children[..i]) == Ok(layers)
    {
      var child := children[i];
      if child.filename == "" && child.children.None? {
        BackgroundPathsFailAt(folder, children, i);
        return Err(MissingChildren);
      }
      BackgroundPathsStep(folder, children, i);
      if child.filename != "" {
        layers := layers + [LayerPath(folder, child.filename)];
      } else {
        layers := AppendFilePaths(folder, layers, child.children.value);
      }
      i := i + 1;
    }
    assert children[..i] == children;
    r := Ok(layers);
  }

  /** The inner loop of `get_background_layers` over one child's children. */
  method AppendFilePaths(folder: string, layers0: seq<string>, grand: seq<BgNode>) returns (layers: seq<string>)
    ensures layers == layers0 + FilePaths(folder, grand)
  {
    layers := layers0;
    var j := 0;
    while j < |grand|
      invariant 0 <= j <= |grand|
      invariant layers == layers0 + FilePaths(folder, grand[..j])
    {
      assert grand[..j + 1][..j] == grand[..j];
      if grand[j].filename != "" {
        layers := layers + [LayerPath(folder, grand[j].filename)];
      }
      j := j + 1;
    }
    assert grand[..j] == grand;
  }

  lemma BackgroundPathsFailAt(folder: string, children: seq<BgNode>, i: nat)
    requires i < |children| && children[i].filename == "" && children[i].children.None?
    ensures BackgroundPaths(folder, children) == Err(MissingChildren)
  {
    BackgroundPathsFails(folder, children);
    var r := BackgroundPaths(folder, children);
    assert r.Err?;
    assert r.error == MissingChildren by { assert r.error.MissingChildren?; }
  }

  lemma BackgroundPathsStep(folder: string, children: seq<BgNode>, i: nat)
    requires i < |children| && BackgroundPaths(folder, children[..i]).Ok?
    requires ChildPaths(folder, children[i]).Ok?
    ensures BackgroundPaths(folder, children[..i + 1])
         == Ok(BackgroundPaths(folder, children[..i]).value + ChildPaths(folder, children[i]).value)
  {
    assert children[..i + 1][..i] == children[..i];
  }

  /** Output order follows JSON order: the paths of `a + b` are those of `a`, then of `b`. */
  lemma {:induction false} BackgroundPathsAppend(folder: string, a: seq<BgNode>, b: seq<BgNode>)
    requires BackgroundPaths(folder, a).Ok? && BackgroundPaths(folder, b).Ok?
    ensures BackgroundPaths(folder, a + b)
         == Ok(BackgroundPaths(folder, a).value + BackgroundPaths(folder, b).value)
    decreases |b|
  {
    if b == [] {
      assert a + b == a;
      assert BackgroundPaths(folder, a).value + [] == BackgroundPaths(folder, a).value;
    } else {
      var b', x := b[..|b| - 1], b[|b| - 1];
      assert b == b' + [x];
      AppendAssoc(a, b', [x]);
      BackgroundPathsSnoc(folder, b', x);
      var rb', rx := BackgroundPaths(folder, b'), ChildPaths(folder, x);
      assert rb'.Ok? && rx.Ok?;
      BackgroundPathsAppend(folder, a, b');
      BackgroundPathsSnoc(folder, a + b', x);
      var pa := BackgroundPaths(folder, a).value;
      AppendAssoc(pa, rb'.value, rx.value);
    }
  }

  lemma ConsAppend<T>(a: seq<T>, b: seq<T>)
    requires a != []
    ensures (a + b)[0] == a[0] && (a + b)[1..] == a[1..] + b
  {
  }

  lemma AppendAssoc<T>(x: seq<T>, y: seq<T>, z: seq<T>)
    ensures (x + y) + z == x + (y + z)
  {
  }

  /** One more top-level child. */
  lemma BackgroundPathsSnoc(folder: string, s: seq<BgNode>, x: BgNode)
    ensures BackgroundPaths(folder, s + [x])
         == match BackgroundPaths(folder, s)
            case Err(e) => Err(e)
            case Ok(paths) =>
              match ChildPaths(folder, x)
              case Err(e) => Err(e)
              case Ok(more) => Ok(paths + more)
  {
    assert (s + [x])[..|s|] == s;
  }

  /** The traversal fails exactly when some top-level child has neither a file name nor a
      `children` key. */
  lemma {:induction false} BackgroundPathsFails(folder: string, children: seq<BgNode>)
    ensures BackgroundPaths(folder, children).Err?
        <==> exists i :: 0 <= i < |children| && children[i].filename == "" && children[i].children.None?
    decreases |children|
  {
    if children != [] {
      var init := children[..|children| - 1];
      BackgroundPathsFails(folder, init);
      forall i | 0 <= i < |init| ensures init[i] == children[i] { }
    }
  }
}
