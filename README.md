# ayon-aftereffects: a Dafny model of the addon's sequential logic

The After Effects addon for AYON has two halves. The host-facing half is a scripting stub, pyblish
and ayon_core. Around it sits a layer of plain sequential logic, and this project models that
layer:

- The naming and frame-range helpers of `api/lib.py`: unique layer names, entity
  attributes, the stub calls of `set_settings`, and the background JSON traversal.
- The render collector `collect_render.py`: which source instances become render instances,
  their families for local and farm targets, the output folder, and the expected file names.
- The existing-frames collector `collect_rendered_files.py`: Windows path
  normalisation, `[###]` expansion, grouping by extension, and the representations.
- The validators `validate_rendered_files.py` and `validate_instance_in_context.py`, and the
  repair action of the latter.
- The workfile collector `collect_workfile.py`.
- `convert_path_to_backup` of `api/r42_lib.py`.
- The launcher of `api/launch_logic.py`, which works in steps:
  - the start timer's steps bring up the server, then the process, then the connection;
  - `find_available_port` searches for a free port;
  - the main-thread callback queue is drained by the loop timer;
  - `set_context` writes the environment, and the tool and settings routes queue callbacks.
- The launch environment defaults and hook paths of `addon.py`.

Every stub, host, filesystem and OS call is an input of the model:

- the stub's answers are maps;
- `os.listdir`, `os.path.exists`, `urllib.parse.unquote` and `port_occupied` are function
  parameters;
- `platform.system()` is a flag;
- the successive calls of `tempfile.mkdtemp()` are a function from the call's number to the
  folder it creates;
- the liveness of the server, the process and the stub is one observation passed to each
  timer tick.

Python's string and path built-ins that the code relies on are defined once, in two modules:

- `Strings`: `str(int)`, `zfill`, `str.replace`, `lstrip`, `endswith` and slicing with
  negative indices;
- `PosixPath`: `os.path.dirname`, `basename`, `join` and `splitext`, as in `posixpath`.

Objects that the source changes in place are classes:

- the render instance;
- the instance data of the publish plugins;
- the created instances and the create context;
- the launcher, its web server and the class-level callback deque;
- the environment dictionaries.

Their methods are proved against functions of the old state. The two quirks of the source are
modelled as written:

- The port-search guard at `launch_logic.py:300` is `>` where `>=` would stop in time. All
  thirteen alternatives being taken therefore ends in an `IndexError` outcome, never `None`;
  `LaunchLogic.FirstFreePort` proves this.
- The frame expansion of `collect_rendered_files.py:120-124` replaces inside the already
  replaced path. Every expanded entry is therefore the first one;
  `CollectRenderedFiles.ExpectedCollapse` proves this.

## Model

| member | source | states |
|---|---|---|
| AeLib.GetUniqueLayerName | client/ayon_aftereffects/api/lib.py:42-62 | the result is `name_` followed by one more than the number of layers whose name, with one trailing `_NNN` removed, is `name`, formatted to three digits |
| AeLib.CountLayerNames | client/ayon_aftereffects/api/lib.py:53-59 | the dictionary built by the loop maps every reduced name to the number of layers that reduce to it, and a name absent from it is reduced from no layer |
| AeLib.FirstNumberedName | client/ayon_aftereffects/api/lib.py:60-62 | when no layer reduces to `name`, the name handed out is `name_001` |
| AeLib.OccurrencesInsert | client/ayon_aftereffects/api/lib.py:54-60 | inserting a layer anywhere raises the count for `name` by one when it reduces to `name` and leaves it unchanged otherwise, so layers of other names never change the result |
| AeLib.NumberedNameStrips | client/ayon_aftereffects/api/lib.py:55-62 | a handed-out `name_NNN` with `NNN` up to 999 reduces back to `name`, so it is counted on the next call |
| AeLib.EntityAttributes | client/ayon_aftereffects/api/lib.py:103-122 | every attribute is echoed under its own key, an absent one as 0, and the duration covers the range from `frameStart - handleStart` to `frameEnd + handleEnd` inclusive |
| AeLib.SettingsFor | client/ayon_aftereffects/api/lib.py:139-155 | with `frames`, the stub gets frame start `frameStart - handleStart`, the duration and the fps, and otherwise `None` for all three; with `resolution`, it gets the width and height, and otherwise `None` for both |
| AeLib.SetSettings | client/ayon_aftereffects/api/lib.py:125-171 | without composition ids the selection is asked for; an empty target list prints the no-selection message and sets nothing; otherwise exactly one `set_comp_properties` per target id in list order, all with the same values |
| AeLib.CompCallsFor | client/ayon_aftereffects/api/lib.py:165-171 | the loop makes the calls of the call-list specification, with the message growing by one `Setting for comp` prefix per composition |
| AeLib.CompCallsTargets | client/ayon_aftereffects/api/lib.py:165-171 | the ids of the `set_comp_properties` calls are the given ids in order, each call carries the shared values, and there is one `print_msg` per call when `print_msg` is set |
| AeLib.GetBackgroundLayers | client/ayon_aftereffects/api/lib.py:81-93 | the result is the traversal of the top-level children, with a missing `children` key being a `KeyError` |
| AeLib.AppendFilePaths | client/ayon_aftereffects/api/lib.py:88-92 | the inner loop appends, in order, the path of every grandchild that has a file name |
| AeLib.LayerPath | client/ayon_aftereffects/api/lib.py:85-92 | a layer path holds no backslash |
| AeLib.BackgroundPathsAppend | client/ayon_aftereffects/api/lib.py:81-92 | output order follows JSON order: the paths of two runs of children are those of the first run followed by those of the second |
| AeLib.BackgroundPathsFails | client/ayon_aftereffects/api/lib.py:84-88 | the traversal fails exactly when some top-level child has neither a file name nor a `children` key |
| CollectRender.OutputDirShape | client/ayon_aftereffects/plugins/publish/collect_render.py:208-226 | the output folder is `renders/aftereffects/<workfile stem>` joined onto the workfile's folder, it starts with that folder, and it is a folder path without a trailing slash |
| CollectRender.Extension | client/ayon_aftereffects/plugins/publish/collect_render.py:184-185 | the extension is the basename's `splitext` extension without its leading dot, and it holds neither a dot nor a slash |
| CollectRender.QueuePathFiles | client/ayon_aftereffects/plugins/publish/collect_render.py:187-205 | a path without `#` gives exactly one file, and a path with `#` gives one file per frame of the instance's range |
| CollectRender.FrameFilesAt | client/ayon_aftereffects/plugins/publish/collect_render.py:195-205 | the `k`-th file of a sequence output is the one of frame `start + k`: one file per frame, ascending, the frame zero-padded to the six digits of `padding_width` |
| CollectRender.ExpectedFilesCount | client/ayon_aftereffects/plugins/publish/collect_render.py:183-205 | the number of expected files is the number of single paths plus the number of sequence paths times `max(0, end - start + 1)` |
| CollectRender.ExpectedFilesAppend | client/ayon_aftereffects/plugins/publish/collect_render.py:183-205 | the expected files follow render-queue order: those of two runs of paths are those of the first run, then those of the second |
| CollectRender.ExpectedFilesInOutputDir | client/ayon_aftereffects/plugins/publish/collect_render.py:181-205 | every expected file lies directly in `dirname(source)/renders/aftereffects/<stem of source>` |
| CollectRender.FileNamesFlat | client/ayon_aftereffects/plugins/publish/collect_render.py:186-202 | the file names `{product}_v{version:03d}.{ext}` and `{product}_v{version:03d}.{frame:06}.{ext}` are non-empty and hold no slash |
| CollectRender.GetExpectedFiles | client/ayon_aftereffects/plugins/publish/collect_render.py:165-206 | the method returns the expected files of the instance's naming and render-queue paths |
| CollectRender.ExpectedFilesFor | client/ayon_aftereffects/plugins/publish/collect_render.py:183-205 | the loop over the render-queue paths concatenates, in order, the files of each path |
| CollectRender.QueuePathFilesFor | client/ayon_aftereffects/plugins/publish/collect_render.py:184-205 | one path gives the single movie file or the frame files, as the specification says |
| CollectRender.FrameFilesFor | client/ayon_aftereffects/plugins/publish/collect_render.py:196-205 | the loop over `range(start, end + 1)` gives the frame files in ascending order |
| CollectRender.FramesFor | client/ayon_aftereffects/plugins/publish/collect_render.py:196-205 | a loop over `range(start, end + 1)` yields the entry of every frame in ascending order, one per frame |
| CollectRender.AddFamily | client/ayon_aftereffects/plugins/publish/collect_render.py:232-234 | afterwards the family is present, the old list is a prefix of the new one, at most one entry is added, and nothing else changes |
| CollectRender.AddFamilyIdempotent | client/ayon_aftereffects/plugins/publish/collect_render.py:232-234 | adding a family twice is the same as adding it once |
| CollectRender.RemoveFirst | client/ayon_aftereffects/plugins/publish/collect_render.py:157-159 | `list.remove` takes out exactly one occurrence and keeps every other entry |
| CollectRender.FarmFamiliesEffect | client/ayon_aftereffects/plugins/publish/collect_render.py:151-159 | a farm render carries `render.farm` and one `review` fewer than before, or none when there was none, and every other family is present exactly when it was before |
| CollectRender.AERenderInstance.UpdateForLocal | client/ayon_aftereffects/plugins/publish/collect_render.py:228-236 | the staging folder is the fresh temporary folder, the project entity is set, `render.local` is added once, and renderer and farm are kept |
| CollectRender.AERenderInstance.UpdateForFarm | client/ayon_aftereffects/plugins/publish/collect_render.py:151-159 | the families become the farm families, the renderer is `aerender`, `farm` is set, and the local fields are kept |
| CollectRender.AERenderInstance.constructor | client/ayon_aftereffects/plugins/publish/collect_render.py:105-137 | every field of the new instance is the given value, `review` says whether `review` is among the families, and no target-specific field is set yet |
| CollectRender.FileNames | client/ayon_aftereffects/plugins/publish/collect_render.py:134 | `render_queue_file_paths` is the file name of every output module, in order |
| CollectRender.PlansAreSelected | client/ayon_aftereffects/plugins/publish/collect_render.py:68-99 | every planned render comes from an active `render`/`renderLocal` source instance whose first member's composition has a non-empty render queue |
| CollectRender.UnselectedIgnored | client/ayon_aftereffects/plugins/publish/collect_render.py:69-74 | an inactive instance, or one of another product type, adds no render instance, removes nothing and raises nothing |
| CollectRender.CollectedStopsAtError | client/ayon_aftereffects/plugins/publish/collect_render.py:76-142 | once an instance raises, collection ends with that error, however many instances follow |
| CollectRender.BuildInstance | client/ayon_aftereffects/plugins/publish/collect_render.py:101-159 | the new render instance carries the product, the context's version and workfile, the timing as `frameStart .. frameStart + duration - 1`, the first output module's resolution, four characters of the app version, the `review` flag and the output folder, and its target entries are those of the render target |
| CollectRender.ApplyTarget | client/ayon_aftereffects/plugins/publish/collect_render.py:147-159 | a local target applies `_update_for_local`, a farm target the farm settings, and any other target changes nothing |
| CollectRender.CollectOne | client/ayon_aftereffects/plugins/publish/collect_render.py:68-161 | one source instance is skipped, removed as an orphan by its instance id or its composition id, fails, or adds the render instance built from its plan |
| CollectRender.GetInstances | client/ayon_aftereffects/plugins/publish/collect_render.py:53-163 | the method returns one render instance per plan of the collection specification, in context order, or its first error, together with the orphaned ids removed; the j-th local instance stages into the folder of the j-th `tempfile.mkdtemp` call, so local staging folders are pairwise different when `mkdtemp` never repeats a folder |
| CollectRender.LocalFoldersDistinct | client/ayon_aftereffects/plugins/publish/collect_render.py:228-231 | two different local plans are given different `tempfile.mkdtemp` calls, hence different folders when `mkdtemp` never repeats one |
| CollectRenderedFiles.NormalizePath | client/ayon_aftereffects/plugins/publish/collect_rendered_files.py:127-135 | on any other platform, or for a path without a leading slash, the path is returned unchanged |
| CollectRenderedFiles.NormalizeDrivePath | client/ayon_aftereffects/plugins/publish/collect_rendered_files.py:130-133 | on Windows, any number of leading slashes, a drive part and `/rest` become `drive:/rest` |
| CollectRenderedFiles.NormalizeNoSecondSlash | client/ayon_aftereffects/plugins/publish/collect_rendered_files.py:132-133 | as written, a Windows path with no slash after the drive part gets the colon before its last character, because `find` returns -1 |
| CollectRenderedFiles.GroupAtIff | client/ayon_aftereffects/plugins/publish/collect_rendered_files.py:108 | `\[#*\]` matches at an index with `n` hashes exactly when a `[`, a run of exactly `n` hashes and a `]` stand there |
| CollectRenderedFiles.FindGroup | client/ayon_aftereffects/plugins/publish/collect_rendered_files.py:108-114 | the returned group is a match, and no match starts before it; `None` means there is no match at all |
| CollectRenderedFiles.ExpectedFor | client/ayon_aftereffects/plugins/publish/collect_rendered_files.py:107-124 | a path without a frame group is expected once, unchanged; a path with one gives exactly one entry per frame of the range |
| CollectRenderedFiles.ExpectedCollapse | client/ayon_aftereffects/plugins/publish/collect_rendered_files.py:114-124 | every entry equals the first, which is the path with every occurrence of the group text replaced by `frameStart` padded to the number of hashes, and no occurrence of the group text is left |
| CollectRenderedFiles.AddExpectedFiles | client/ayon_aftereffects/plugins/publish/collect_rendered_files.py:105-124 | the loop, which reassigns the path it replaces in, appends exactly the entries of the specification to the expected files |
| CollectRenderedFiles.AddFile | client/ayon_aftereffects/plugins/publish/collect_rendered_files.py:72 | appending under a new extension adds one group at the end |
| CollectRenderedFiles.AddFileToLast | client/ayon_aftereffects/plugins/publish/collect_rendered_files.py:72 | appending under the last extension extends that group's list and leaves the others |
| CollectRenderedFiles.MatchingMembers | client/ayon_aftereffects/plugins/publish/collect_rendered_files.py:69-72 | a listed file is grouped under an extension exactly when its name ends with that extension text |
| CollectRenderedFiles.AddFilesFresh | client/ayon_aftereffects/plugins/publish/collect_rendered_files.py:67-72 | the listing of a folder for a new extension adds one group at the end with the matching names in listing order, or no group when none match |
| CollectRenderedFiles.GroupFiles | client/ayon_aftereffects/plugins/publish/collect_rendered_files.py:69-72 | the loop over `os.listdir` builds the grouping of the specification |
| CollectRenderedFiles.ScanStepGroups | client/ayon_aftereffects/plugins/publish/collect_rendered_files.py:43-72 | a path whose folder is missing changes nothing; otherwise its folder is recorded, its matching files form a new group at the end, its expected files are appended, and the tables stay well formed |
| CollectRenderedFiles.ScanWellFormed | client/ayon_aftereffects/plugins/publish/collect_rendered_files.py:60-72 | after the loop, every grouped extension appears once, has a folder and has at least one file |
| CollectRenderedFiles.ScanStopsAtError | client/ayon_aftereffects/plugins/publish/collect_rendered_files.py:60-65 | once the loop raises, the outcome is that error, whatever paths follow |
| CollectRenderedFiles.DuplicateExtensionFails | client/ayon_aftereffects/plugins/publish/collect_rendered_files.py:60-65 | two render-queue paths with existing folders and the same extension raise `KnownPublishError`, whatever lies between or after them |
| CollectRenderedFiles.ScanExpected | client/ayon_aftereffects/plugins/publish/collect_rendered_files.py:47-58 | without an error, the expected files are those of every existing-folder path, in path order, and a skipped path adds none |
| CollectRenderedFiles.ScanOne | client/ayon_aftereffects/plugins/publish/collect_rendered_files.py:44-72 | one turn of the loop over the render-queue paths does what the step specification says |
| CollectRenderedFiles.ScanAll | client/ayon_aftereffects/plugins/publish/collect_rendered_files.py:43-72 | the loop over the render-queue paths gives the scan of the specification, stopping at the first repeated extension |
| CollectRenderedFiles.Representations | client/ayon_aftereffects/plugins/publish/collect_rendered_files.py:78-100 | there is one representation per extension group, in group order, each with that extension as name and ext, its files (a bare name when single), its folder and the frame range; only the first carries `tags=["review"]`, and only when the instance is reviewed |
| CollectRenderedFiles.BuildRepresentations | client/ayon_aftereffects/plugins/publish/collect_rendered_files.py:78-100 | the loop builds exactly the representations of the specification |
| CollectRenderedFiles.ExistingFrames | client/ayon_aftereffects/plugins/publish/collect_rendered_files.py:33-103 | with `frames` falsy nothing changes, and whatever is written holds at least one representation |
| CollectRenderedFiles.Process | client/ayon_aftereffects/plugins/publish/collect_rendered_files.py:33-103 | `representations` and `expectedFiles` are written exactly when files were grouped and no duplicate extension was found; otherwise both stay as they were |
| ValidateRenderedFiles.ExpectedNames | client/ayon_aftereffects/plugins/publish/validate_rendered_files.py:40-41 | the expected set is exactly the set of basenames of `expectedFiles` |
| ValidateRenderedFiles.CollectedFilesMembers | client/ayon_aftereffects/plugins/publish/validate_rendered_files.py:42-50 | a file is collected exactly when some representation lists it, a bare string counting as a one-element list |
| ValidateRenderedFiles.CollectFiles | client/ayon_aftereffects/plugins/publish/validate_rendered_files.py:42-48 | the loop collects the files of every representation in order |
| ValidateRenderedFiles.Validate | client/ayon_aftereffects/plugins/publish/validate_rendered_files.py:29-66 | nothing happens unless the render target is `frames`, and a failure names at least one missing file |
| ValidateRenderedFiles.FailsIffMissing | client/ayon_aftereffects/plugins/publish/validate_rendered_files.py:52-66 | `PublishValidationError` is raised exactly when some expected basename is not collected, and it reports exactly those basenames; otherwise the check passes |
| ValidateRenderedFiles.ExtraFilesHarmless | client/ayon_aftereffects/plugins/publish/validate_rendered_files.py:52 | more collected files never make a passing check fail |
| ValidateRenderedFiles.OrderAndDuplicatesIrrelevant | client/ayon_aftereffects/plugins/publish/validate_rendered_files.py:40-50 | the outcome depends neither on the order nor on repetitions in the expected files and collected files |
| ValidateRenderedFiles.Process | client/ayon_aftereffects/plugins/publish/validate_rendered_files.py:29-66 | the plugin's outcome on the instance data is that of the specification, a missing data entry being a `KeyError` |
| ValidateInstanceInContext.GetContext | client/ayon_aftereffects/plugins/publish/validate_instance_in_context.py:85-88 | the result is the context's folder path and task |
| ValidateInstanceInContext.Check | client/ayon_aftereffects/plugins/publish/validate_instance_in_context.py:34-68 | an inactive instance is never rejected; an active one is rejected exactly when its folder path or task differs from the context's, and the error carries both pairs |
| ValidateInstanceInContext.Repair | client/ayon_aftereffects/plugins/publish/validate_instance_in_context.py:71-82 | the created instance gets the context's folder path and task, the changes are saved once, validation then passes, and other created instances are untouched; a missing id is a `KeyError` and an unknown one fails |
| CollectWorkfile.WorkfileRepresentation | client/ayon_aftereffects/plugins/publish/collect_workfile.py:15-25 | the representation is named and typed `aep`, holds the workfile's basename, and is staged in its folder |
| CollectWorkfile.WorkfileSplit | client/ayon_aftereffects/plugins/publish/collect_workfile.py:15-17 | the file is a slash-free tail of the workfile path, and the staging folder is a head of it that ends before that tail |
| CollectWorkfile.Process | client/ayon_aftereffects/plugins/publish/collect_workfile.py:14-25 | the representations list is created when absent, its entries are kept in order, and exactly one entry is appended |
| R42Lib.LastDigitRun | client/ayon_aftereffects/api/r42_lib.py:136-138 | the result is the last maximal run of digits, as `re.findall(r"\d+")[-1]` finds it, or none when the name has no digit |
| R42Lib.CollectNumbers | client/ayon_aftereffects/api/r42_lib.py:130-138 | the loop over the listing collects the numbers of the specification, in listing order |
| R42Lib.VersionedNamesIgnored | client/ayon_aftereffects/api/r42_lib.py:133-135 | a sibling with `v` or `V` directly before a digit contributes no number |
| R42Lib.UnversionedNameCounted | client/ayon_aftereffects/api/r42_lib.py:136-138 | any other sibling contributes the value of its last digit run, or nothing when it has no digits |
| R42Lib.MaxOr | client/ayon_aftereffects/api/r42_lib.py:140 | the result is the maximum of the numbers, or the default when there are none |
| R42Lib.NextNumber | client/ayon_aftereffects/api/r42_lib.py:140-141 | the new number is exactly three digits, or more without a leading zero, and is one more than the largest candidate, or 2 with none, so it exceeds every candidate |
| R42Lib.VersionMatchShape | client/ayon_aftereffects/api/r42_lib.py:144-146 | a match reads back as base, `_v`, a non-empty digit run and an extension starting with `.`, and by greediness no later `_v<digits>.` can end the base |
| R42Lib.BackupPath | client/ayon_aftereffects/api/r42_lib.py:150-151 | a basename that does not match is returned as the unchanged path |
| R42Lib.BackupInSameFolder | client/ayon_aftereffects/api/r42_lib.py:127-149 | the result lies in the folder of the input, and a matching basename becomes `<base>_<NNN><ext>` without the version digits |
| R42Lib.ConvertPathToBackup | client/ayon_aftereffects/api/r42_lib.py:126-151 | the method returns the backup path of the specification for the listing of the file's folder |
| LaunchLogic.PortSearchFrom | client/ayon_aftereffects/api/launch_logic.py:294-312 | from an alternative index on, an occupied port leads to the first free remaining alternative, or to `IndexError` exactly when all remaining ones are occupied, and never to `None` |
| LaunchLogic.FirstFreePort | client/ayon_aftereffects/api/launch_logic.py:294-312 | the result is the first free port in the order: initial port, 8097, …, 8109; with all of them occupied it is `IndexError`, because the `>` guard cannot return `None` |
| LaunchLogic.FindAvailablePort | client/ayon_aftereffects/api/launch_logic.py:287-312 | the loop ends with the search's outcome, the server's port and the thread's port stay equal, and a found port is the server's port |
| LaunchLogic.HostConnected | client/ayon_aftereffects/api/launch_logic.py:166-179 | the result is `False` exactly when the process is not running, `True` exactly when it runs and a stub is obtained, and `None` otherwise |
| LaunchLogic.ExitState | client/ayon_aftereffects/api/launch_logic.py:192-206 | after exit both timers are stopped, the server is stopped, a spawned process is killed, and the application has exited |
| LaunchLogic.StartState | client/ayon_aftereffects/api/launch_logic.py:185-190 | `start` is idempotent: once started, further calls change nothing; the first call starts the start timer |
| LaunchLogic.InitServerState | client/ayon_aftereffects/api/launch_logic.py:254-285 | initialising the server creates the server record and touches neither the process, the timers, nor the exit flag |
| LaunchLogic.StartProcessState | client/ayon_aftereffects/api/launch_logic.py:314-335 | a spawned process gets the arguments and `WEBSOCKET_URL` naming the server's port; when the spawn fails, the launcher exits |
| LaunchLogic.StartTick | client/ayon_aftereffects/api/launch_logic.py:225-252 | the first tick only creates the server; a process is spawned only by a tick that sees the server running, is never replaced, and gets the server's port; the loop timer starts only when the host is connected; a dead process makes a waiting launcher exit; a tick that finds the server not running returns at once and changes nothing, so a server that stops while the launcher waits for the host never makes it exit |
| LaunchLogic.SpawnAtMostOnce | client/ayon_aftereffects/api/launch_logic.py:237-241 | whatever the observations, over any number of start ticks the host process is spawned at most once, and never once one exists |
| LaunchLogic.AfterDrain | client/ayon_aftereffects/api/launch_logic.py:217-223 | after draining, the launcher exits when the process is not running, or else when the server is not running, and otherwise nothing changes |
| LaunchLogic.CallbackQueue.Push | client/ayon_aftereffects/api/launch_logic.py:181-183 | `execute_in_main_thread` appends the callback at the back of the queue |
| LaunchLogic.Drain | client/ayon_aftereffects/api/launch_logic.py:211-215 | the drain runs exactly the callbacks queued when it began, oldest first, and what they enqueue stays queued |
| LaunchLogic.DrainStep | client/ayon_aftereffects/api/launch_logic.py:213-215 | one turn of the drain runs the oldest callback and puts what it enqueues last |
| LaunchLogic.TwoDrains | client/ayon_aftereffects/api/launch_logic.py:211-215 | callbacks enqueued during a tick run on the next one: when those enqueue nothing, two drains empty the queue |
| LaunchLogic.ProcessLauncher.constructor | client/ayon_aftereffects/api/launch_logic.py:122-144 | a new launcher has not started, both timers are stopped, and it has no server and no process |
| LaunchLogic.ProcessLauncher.Start | client/ayon_aftereffects/api/launch_logic.py:185-190 | the launcher's new state is that of `start` |
| LaunchLogic.ProcessLauncher.Exit | client/ayon_aftereffects/api/launch_logic.py:192-206 | the launcher's new state is that of `exit` |
| LaunchLogic.ProcessLauncher.InitServer | client/ayon_aftereffects/api/launch_logic.py:254-285 | the launcher's new state and outcome are those of `_init_server`: a found port starts the server, and `IndexError` leaves it unstarted |
| LaunchLogic.ProcessLauncher.StartProcess | client/ayon_aftereffects/api/launch_logic.py:314-335 | the launcher's new state is that of `_start_process` |
| LaunchLogic.ProcessLauncher.OnStartProcessTimer | client/ayon_aftereffects/api/launch_logic.py:225-252 | the launcher's new state and outcome are those of the start tick |
| LaunchLogic.ProcessLauncher.OnLoopTimer | client/ayon_aftereffects/api/launch_logic.py:208-223 | the tick drains the queue's snapshot and then exits as the after-drain rule says |
| LaunchLogic.ContextVars | client/ayon_aftereffects/api/launch_logic.py:370-375 | each of the project, folder and task keys is overwritten exactly when its argument is truthy, and every other key is untouched |
| LaunchLogic.SetContext | client/ayon_aftereffects/api/launch_logic.py:359-375 | the environment becomes the one of the specification |
| LaunchLogic.ToolRoute | client/ayon_aftereffects/api/launch_logic.py:413-422 | showing the named tool is queued for the main thread, and the route answers `nothing` |
| LaunchLogic.SettingsRoute | client/ayon_aftereffects/api/launch_logic.py:424-432 | `set_settings(frames, resolution)` is queued for the main thread, and the route answers `nothing` |
| Addon.AddImplementationEnvs | client/ayon_aftereffects/addon.py:15-23 | the environment is updated in place to the defaults applied in order |
| Addon.WithDefaultsAt | client/ayon_aftereffects/addon.py:17-23 | a key no default names is untouched; a default's key keeps a non-empty value and takes the default when absent or empty |
| Addon.DefaultsApplied | client/ayon_aftereffects/addon.py:17-23 | afterwards `AYON_LOG_NO_COLORS` and `WEBSOCKET_URL` both hold non-empty values (their old value, or `1` and `ws://localhost:8097/ws/`), and every other key is untouched |
| Addon.DefaultsIdempotent | client/ayon_aftereffects/addon.py:15-23 | applying the defaults twice is the same as applying them once |
| Addon.WorkfileExtensions | client/ayon_aftereffects/addon.py:25-26 | the workfile extensions are `[".aep"]` |
| Addon.LaunchHookPaths | client/ayon_aftereffects/addon.py:28-33 | the result is empty exactly when the app's host name is not `aftereffects`; otherwise it is one path named `hooks` inside the addon's folder |

## Left out

- Windows `ntpath` semantics are not modelled. All paths follow `posixpath`, except for the
  explicit Windows branch of `_normalize_path`.
- Regular-expression `\d` is ASCII digits here. Python 3 also matches other Unicode digits.
- The float frame rate and the `round()` of the frame end (`collect_render.py:88-89`) are
  modelled as integers: the frame end is `frameStart + framesDuration - 1`.
- `int(inst.data["members"][0])` is left out: the members are already integers.
- `urllib.parse.unquote` is an abstract function parameter.
- I/O and the host are parameters or outcomes of the model:
  - `open` and `json.load` of the background file: the parsed document is a parameter.
  - `os.listdir`, `os.path.exists`, `tempfile.mkdtemp` and `platform.system()`: parameters.
  - The stub's answers: parameters.
  - The `remove_instance` calls: a returned list of ids.
- Qt timers, `subprocess`, `asyncio` and the websocket RPC are not modelled. Timers are flags.
  The server's, the process's and the stub's liveness form one observation per tick.
  `WebServerTool` and `ws_stub` are not part of this model.
- The start tick returns as soon as the server is not running (`launch_logic.py:234-235`), so the
  `or not self.websocket_server_is_running` of the liveness check (`launch_logic.py:248-252`) is
  never true when it is reached. A server that stops while the launcher waits for the host leaves
  the launcher ticking without exit. The model keeps this, and `LaunchLogic.StartTick` states it.
  Only a server that was started and not stopped can be observed running.
- Callbacks are data, and their effect is only what they enqueue. Exceptions raised by a
  callback are not modelled.
- LaunchLogic.ProcessLauncher.InitServer: the `port is None` branch (sending the context
  change, then exit) cannot be reached, as `LaunchLogic.FirstFreePort` proves. The method
  marks it unreachable, and the `InitServerState` function states it for completeness.
- The launcher's log messages and console output are left out.
- `main`, `show_tool_by_name`, `show_script_editor`, `ping`, `read` and the placeholder and
  template routes of `launch_logic.py` are left out. They are plumbing into Qt, ayon_core or
  the template builder. The routes that only call `_tool_route` or `_settings_route` are
  covered by those two.
- AeLib.SetSettings: frame rates are integers here. AYON's `fps` is a float, so the source sends
  rates such as 23.976 that the model cannot represent, and its message prints `fps:25.0` where
  `AeLib.SettingsMessage` prints `fps:25`.
- AeLib.EntityAttributes: every attribute is an integer, `fps` included; the source's
  attributes may be floats (`lib.py:95`).
- `set_settings` without an entity reads the current task entity from ayon_core. Here the
  attributes are a parameter. The stub's `get_selected_items` answer is also a parameter.
- `get_entity_attributes` takes the `attrib` dictionary; the `entity["attrib"]` lookup is
  left out.
- Missing dictionary keys in the instance or context data are `KeyError` outcomes only where
  the branch matters:
  - the background `children`;
  - `expectedFiles` and `representations` in the validator;
  - `instance_id` in the repair action.

  Elsewhere the entries are fields of the data.
- The list aliasing at `collect_render.py:102-103` is not modelled: the render instance's
  families are a copy. In the source, `families` is the source instance's own list, so
  appending `render` also changes the source instance.
- The label, `time`, `attachTo`, `setMembers`, the tile fields and `publish_attributes` of
  the render instance are constants of the source that carry no logic. They are not
  modelled.
- ValidateInstanceInContext.Check: the active flag is an input. `OptionalPyblishPluginMixin.is_active`
  is not part of this model. The error's message texts are left out.
- ValidateRenderedFiles.Validate: the error's message text (the sorted folders and names) is
  left out. Only the missing names are kept.
- The rest of `api/r42_lib.py` is not modelled. It calls anatomy, ayon_api, uuid and clocks.
- The helpers of `api/lib.py` that need the stub, pyblish or shutil are not modelled:
  `save_copy`, `update_all_reviews`, `publish_in_test`, `find_close_plugin` and
  `maintained_selection`.
- `publish_in_test` and `get_launch_script_path` of `addon.py` are not modelled: a test hook
  and a constant path.
- The loaders, the pre-launch hook and the server settings are not modelled: stub calls,
  archive I/O and declarative schemas.
