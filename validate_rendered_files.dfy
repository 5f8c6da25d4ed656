/** The validator for instances that publish frames rendered beforehand: every expected
    file name must be among the collected representation files. */
module ValidateRenderedFiles {
  import opened Wrappers
  import opened PosixPath
  import opened PublishData

  datatype Outcome =
    | Skipped
    | Passed
    /** `PublishValidationError`, listing the expected names not collected. */
    | Missing(names: set<string>)
    /** A `KeyError`: the instance data has no such entry. */
    | MissingKey(key: string)

  /** The expected set: the basenames of `expectedFiles`. */
  function ExpectedNames(expected: seq<string>): (r: set<string>)
    ensures forall p :: p in expected ==> Basename(p) in r
    ensures forall n :: n in r ==> exists p :: p in expected && Basename(p) == n
  {
    set p | p in expected :: Basename(p)
  }

  /** The files of all representations, in order; a bare name counts as one file. */
  function CollectedFiles(reps: seq<Representation>): seq<string> {
    if reps == [] then [] else CollectedFiles(reps[..|reps| - 1]) + reps[|reps| - 1].files.AsList()
  }

  /** A file is collected exactly when some representation lists it. */
  lemma CollectedFilesMembers(reps: seq<Representation>)
    ensures forall f :: f in CollectedFiles(reps) <==> exists k :: 0 <= k < |reps| && f in reps[k].files.AsList()
  {
    forall f ensures f in CollectedFiles(reps) <==> exists k :: 0 <= k < |reps| && f in reps[k].files.AsList() {
      CollectedFile(reps, f);
    }
  }

  lemma CollectedFile(reps: seq<Representation>, f: string)
    ensures f in CollectedFiles(reps) <==> exists k :: 0 <= k < |reps| && f in reps[k].files.AsList()
  {
    if f in CollectedFiles(reps) {
      var k := CollectedFrom(reps, f);
    }
    if exists k :: 0 <= k < |reps| && f in reps[k].files.AsList() {
      var k :| 0 <= k < |reps| && f in reps[k].files.AsList();
      CollectedAt(reps, k, f);
    }
  }

  /** A collected file comes from some representation. */
  lemma {:induction false} CollectedFrom(reps: seq<Representation>, f: string) returns (k: nat)
    requires f in CollectedFiles(reps)
    ensures k < |reps| && f in reps[k].files.AsList()
    decreases |reps|
  {
    var init, last := reps[..|reps| - 1], reps[|reps| - 1];
    if f in CollectedFiles(init) {
      k := CollectedFrom(init, f);
      assert reps[k] == init[k];
    } else {
      k := |reps| - 1;
    }
  }

  /** Every file of every representation is collected. */
  lemma {:induction false} CollectedAt(reps: seq<Representation>, k: nat, f: string)
    requires k < |reps| && f in reps[k].files.AsList()
    ensures f in CollectedFiles(reps)
    decreases |reps|
  {
    var init := reps[..|reps| - 1];
    if k < |init| {
      assert init[k] == reps[k];
      CollectedAt(init, k, f);
    }
  }

  /** `ValidateRenderedFiles.process`: nothing unless the render target is `frames`. */
  function Validate(renderTarget: string, expectedFiles: Option<seq<string>>,
                    representations: Option<seq<Representation>>): (r: Outcome)
    ensures renderTarget != "frames" ==> r == Skipped
    ensures r.Missing? ==> r.names != {}
  {
    if renderTarget != "frames" then Skipped
    else if expectedFiles.None? then MissingKey("expectedFiles")
    else if representations.None? then MissingKey("representations")
    else
      var missing := ExpectedNames(expectedFiles.value) - set f | f in CollectedFiles(representations.value);
      if missing != {} then Missing(missing) else Passed
  }

  /** The validator fails exactly when some expected file's basename is not collected,
      and then reports exactly those basenames. */
  lemma FailsIffMissing(expected: seq<string>, reps: seq<Representation>)
    ensures var r := Validate("frames", Some(expected), Some(reps));
            && (r.Missing? <==> exists p :: p in expected && Basename(p) !in CollectedFiles(reps))
            && (r.Missing? ==> forall n :: n in r.names <==> n in ExpectedNames(expected) && n !in CollectedFiles(reps))
            && (!r.Missing? ==> r == Passed)
  {
    var missing := ExpectedNames(expected) - set f | f in CollectedFiles(reps);
    if p :| p in expected && Basename(p) !in CollectedFiles(reps) {
      assert Basename(p) in missing;
    }
  }

  /** More collected files never make the validator fail. */
  lemma ExtraFilesHarmless(expected: seq<string>, reps: seq<Representation>, extra: seq<Representation>)
    requires Validate("frames", Some(expected), Some(reps)) == Passed
    ensures Validate("frames", Some(expected), Some(reps + extra)) == Passed
  {
    FailsIffMissing(expected, reps);
    FailsIffMissing(expected, reps + extra);
    CollectedFilesMembers(reps);
    CollectedFilesMembers(reps + extra);
    forall p | p in expected ensures Basename(p) in CollectedFiles(reps + extra) {
      var k :| 0 <= k < |reps| && Basename(p) in reps[k].files.AsList();
      assert (reps + extra)[k] == reps[k];
    }
  }

  /** The outcome depends only on which paths are expected and which files are collected:
      not on their order and not on repetitions. */
  lemma OrderAndDuplicatesIrrelevant(e1: seq<string>, e2: seq<string>, r1: seq<Representation>, r2: seq<Representation>)
    requires forall p :: p in e1 <==> p in e2
    requires forall f :: f in CollectedFiles(r1) <==> f in CollectedFiles(r2)
    ensures Validate("frames", Some(e1), Some(r1)) == Validate("frames", Some(e2), Some(r2))
  {
    assert ExpectedNames(e1) == ExpectedNames(e2);
    assert (set f | f in CollectedFiles(r1)) == (set f | f in CollectedFiles(r2));
  }

  /** The loop that extends `collected_files`. */
  method CollectFiles(reps: seq<Representation>) returns (collected: seq<string>)
    ensures collected == CollectedFiles(reps)
  {
    collected := [];
    var k := 0;
    while k < |reps|
      invariant 0 <= k <= |reps|
      invariant collected == CollectedFiles(reps[..k])
    {
      assert reps[..k + 1][..k] == reps[..k];
      var files := match reps[k].files
        case OneFile(f) => [f]
        case FileList(fs) => fs;
      collected := collected + files;
      k := k + 1;
    }
    assert reps[..k] == reps;
  }

  /** `ValidateRenderedFiles.process` on the instance; it changes nothing. */
  method Process(inst: Instance) returns (r: Outcome)
    ensures r == Validate(inst.renderTarget, inst.expectedFiles, inst.representations)
  {
    if inst.renderTarget != "frames" {
      return Skipped;
    }
    if inst.expectedFiles.None? {
      return MissingKey("expectedFiles");
    }
    if inst.representations.None? {
      return MissingKey("representations");
    }
    var expected := set p | p in inst.expectedFiles.value :: Basename(p);
    var collected := CollectFiles(inst.representations.value);
    var missing := expected - set f | f in collected;
    if missing != {} {
      return Missing(missing);
    }
    return Passed;
  }
}
