/** The collector that adds the workfile itself as an `aep` representation. */
module CollectWorkfile {
  import opened Wrappers
  import opened Strings
  import opened PosixPath
  import opened PublishData

  /** The workfile representation: named and typed `aep`, the scene file by its basename,
      staged in the scene file's folder; it writes no frame range and no tags. */
  function WorkfileRepresentation(currentFile: string): (r: Representation)
    ensures r.name == "aep" && r.ext == "aep"
    ensures r.files == OneFile(Basename(currentFile)) && r.stagingDir == Dirname(currentFile)
    ensures r.frameStart.None? && r.frameEnd.None? && r.tags.None?
  {
    Representation("aep", "aep", OneFile(Basename(currentFile)), Dirname(currentFile), None, None, None)
  }

  /** The two halves come from the workfile path: the file is a slash-free tail of it and
      the staging folder a head of it that ends before that tail. */
  lemma WorkfileSplit(currentFile: string)
    ensures var r := WorkfileRepresentation(currentFile);
            && '/' !in r.files.file
            && EndsWith(currentFile, r.files.file)
            && StartsWith(currentFile, r.stagingDir)
            && |r.stagingDir| + |r.files.file| <= |currentFile|
  {
    BasenameShape(currentFile);
  }

  /** `CollectWorkfile.process`: the representations list is created when absent, its
      entries are kept in order and exactly one entry is appended. */
  method Process(inst: Instance, currentFile: string)
    modifies inst
    ensures inst.representations == Some(old(inst.representations).GetOr([]) + [WorkfileRepresentation(currentFile)])
    ensures inst.expectedFiles == old(inst.expectedFiles)
  {
    var stagingDir := Dirname(currentFile);
    var sceneFile := Basename(currentFile);
    var representations := if inst.representations.Some? then inst.representations.value else [];
    inst.representations := Some(representations + [Representation("aep", "aep", OneFile(sceneFile), stagingDir, None, None, None)]);
  }
}
