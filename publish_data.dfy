/** The entries of a pyblish instance's `data` dictionary that the After Effects publish
    plugins read and write. */
module PublishData {
  import opened Wrappers

  /** A representation's `files` entry: a bare file name, or a list of file names. */
  datatype RepreFiles = OneFile(file: string) | FileList(files: seq<string>)
  {
    /** The files as a list; a bare name counts as a one-element list. */
    function AsList(): seq<string> {
      match this
      case OneFile(f) => [f]
      case FileList(fs) => fs
    }
  }

  /** One representation dictionary. Keys the plugin does not write are `None`. */
  datatype Representation = Representation(
    name: string,
    ext: string,
    files: RepreFiles,
    stagingDir: string,
    frameStart: Option<int>,
    frameEnd: Option<int>,
    tags: Option<seq<string>>)

  /** The render instance's `data`: the entries that were filled by earlier collectors are
      read-only here, `representations` and `expectedFiles` are written (`None` while absent). */
  class Instance {
    /** `creator_attributes["frames"]`: publish frames that already exist on disk. */
    const useExistingFrames: bool
    /** `creator_attributes["render_target"]`. */
    const renderTarget: string
    const renderQueueFilePaths: seq<string>
    const frameStart: int
    const frameEnd: int
    const review: bool
    var representations: Option<seq<Representation>>
    var expectedFiles: Option<seq<string>>

    constructor (useExistingFrames: bool, renderTarget: string, renderQueueFilePaths: seq<string>,
                 frameStart: int, frameEnd: int, review: bool,
                 representations: Option<seq<Representation>>, expectedFiles: Option<seq<string>>)
      ensures this.useExistingFrames == useExistingFrames && this.renderTarget == renderTarget
      ensures this.renderQueueFilePaths == renderQueueFilePaths
      ensures this.frameStart == frameStart && this.frameEnd == frameEnd && this.review == review
      ensures this.representations == representations && this.expectedFiles == expectedFiles
    {
      this.useExistingFrames := useExistingFrames;
      this.renderTarget := renderTarget;
      this.renderQueueFilePaths := renderQueueFilePaths;
      this.frameStart := frameStart;
      this.frameEnd := frameEnd;
      this.review := review;
      this.representations := representations;
      this.expectedFiles := expectedFiles;
    }
  }
}
