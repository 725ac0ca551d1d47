# CorbeauSplat core, modelled in Dafny

CorbeauSplat turns photos or videos into a Gaussian-splatting dataset. It lays out a
project, extracts frames with ffmpeg, copies and optionally upscales the images, and runs
COLMAP (or GLOMAP): feature extraction, matching, mapping, optional undistortion. It then
writes a descriptor for the Brush trainer. Around that pipeline sit launchers for Brush,
Apple ML Sharp, a 360° frame extractor and a multi-video 4DGS preparation, the Brush
worker's dataset-root and PLY-rename rules, the host heuristics (Apple Silicon, threads,
device, binary lookup), and two scripts: the dependency installer and a Python 3.9
back-porter.

The model treats the outside world as given values. A process is the lines it prints
and its exit code. A cancel callback or stop flag is the poll from which it reads true.
The file system is a map from path to entry, and directory listings and walks are
sequences. Each operation becomes a function over these values. Where the program
changes state step by step (the COLMAP engine, the 4DGS engine, the Brush worker, the
launchers' process field, the scripts' loops), it becomes a class or method with loops
and invariants, proved to follow the function of the same step.

Files, one module each:

- `text.dfy` (`Text`): Python `str` operations.
- `paths.dfy` (`Paths`): `os.path` and `pathlib` on POSIX paths.
- `host.dfy` (`Host`): the machine as values.
- `system.dfy` (`HostSystem`): `app/core/system.py`.
- `colmap.dfy`, `colmap_pipeline.dfy` and `engine.dfy` (`Colmap`, `ColmapPipeline`, `ColmapEngineObject`): `app/core/engine.py`. They hold the pure rules, the stages as functions, and the engine as an object.
- `workers.dfy` (`BrushWorkers`): `app/gui/workers.py`.
- `brush.dfy` (`BrushTrainer`): `app/core/brush_engine.py`.
- `sharp.dfy` (`Sharp`): `app/core/sharp_engine.py`.
- `extractor360.dfy` (`Extractor360`): `app/core/extractor_360_engine.py`.
- `four_dgs.dfy` (`FourDGS`): `app/core/four_dgs_engine.py`.
- `setup_deps.dfy` (`SetupDependencies`): `app/scripts/setup_dependencies.py`.
- `migrate.dfy` (`MigratePy39`): `app/scripts/migrate_to_py39.py`.

Behaviours of the code as written that a reader may not expect:

- `tr` is never imported in `app/core/engine.py`. Every branch that would return the translated cancel message raises `NameError` instead, and the handler answers "Arrete par l'utilisateur" only when its own poll reads true.
- A cancel seen while images are being prepared ends the run with the preparation failure, not the cancel message.
- `resolve_dataset_root` tests text suffixes, not path components: "/d/mysparse" resolves to "/d", and resolving is not idempotent in general.
- The fallback walk in `handle_ply_rename` does not skip a file that already has the target name.
- A name that already ends in ".ply.ply" keeps that ending after sanitising.
- `_get_sharp_cmd` can settle on the program next to `sys.executable` while `is_installed` says no.
- In the 360 extractor, a `]` between the first `[` and the `%]` hides the progress value of the line.

## Model

| member | source | states |
|---|---|---|
| HostSystem.IsAppleSilicon | app/core/system.py:12-14 | true exactly when the platform is "Darwin" on an "arm64" machine |
| HostSystem.OptimalThreads | app/core/system.py:17-28 | on Apple Silicon the count stays within 1..n and below n when n ≥ 2; for n > 4 it is floor(4n/5), for n ≤ 4 it is max(1, n-1); elsewhere n, or 4 when the count is unknown |
| HostSystem.UnknownCoresOnSilicon | app/core/system.py:23-25 | an unknown core count on Apple Silicon is taken as 8, giving 6 threads |
| HostSystem.FirstExecutable | app/core/system.py:39-49 | the index of the first executable candidate, with no executable one before it; none when no candidate is executable |
| HostSystem.ResolveBinary | app/core/system.py:30-51 | engines/<name>, then (for colmap only) the COLMAP.app bundle binary, then the PATH lookup, first match wins |
| HostSystem.ResolveBinaryNone | app/core/system.py:30-51 | no result exactly when no local candidate is executable and the name is not on PATH |
| HostSystem.Device | app/core/system.py:53-60 | "mps" iff Apple Silicon; "cuda" iff not Apple Silicon and nvidia-smi is on PATH; "cpu" otherwise |
| HostSystem.CheckDependencies | app/core/system.py:72-90 | a subsequence of [ffmpeg, colmap, send2trash]; ffmpeg and colmap listed iff their lookup fails, send2trash iff it cannot be imported |
| Colmap.BinaryOr | app/core/engine.py:31-33 | a found, non-empty binary path is used; with none found, the bare program name |
| Colmap.MakeSetup | app/core/engine.py:16-33 | the engine's Apple Silicon flag, thread count and the three binaries are those of the host detection and binary lookup |
| Colmap.Flag01 | app/core/engine.py:376 | "1" exactly for true, "0" exactly for false |
| Colmap.PairsFlatten | app/core/engine.py:371-382 | a flag/value list written flat reads back as the same pairs |
| Colmap.ReadsBack | app/core/engine.py:371-382 | with distinct flags, every flag of a flattened option list reads back its own value |
| Colmap.FeatureExtractionArgv | app/core/engine.py:370-383 | 20 tokens: the colmap binary, "feature_extractor", then nine flag/value pairs |
| Colmap.FeatureExtractionReadsBack | app/core/engine.py:371-382 | each feature_extractor flag carries its parameter: database, images, camera model, single camera iff set, thread count, size and feature limits, affine shape and pooling iff set |
| Colmap.MatchingArgv | app/core/engine.py:385-407 | 12 tokens starting with the colmap binary |
| Colmap.MatchingChoice | app/core/engine.py:385-407 | "sequential_matcher" iff matcher_type is "sequential", "exhaustive_matcher" for every other value, with the same flags either way |
| Colmap.MapperArgv | app/core/engine.py:409-440 | starts with the GLOMAP binary when use_glomap is set, else the colmap binary, then "mapper" |
| Colmap.MapperReadsBack | app/core/engine.py:409-440 | database, image and output paths always read back; GLOMAP gets exactly those three flags; COLMAP also gets min_num_matches |
| Colmap.UndistorterArgv | app/core/engine.py:442-452 | 12 tokens: the colmap binary, "image_undistorter", five flag/value pairs |
| Colmap.UndistorterReadsBack | app/core/engine.py:442-452 | images path, input <sparse>/0, the output path and output type COLMAP read back |
| Colmap.BrushConfigPointsAtModel | app/core/engine.py:454-476 | dataset type colmap; with undistortion, images and sparse paths lie under the undistorter's output dense/; otherwise the images dir and the undistorter's own input sparse/0 |
| Colmap.VideoPrefix | app/core/engine.py:159-160 | keeps only alphanumerics, '_' and '-' of the stem, never adding a character; that it keeps every such character, in order, is stated by VideoPrefixChar, VideoPrefixAppend and VideoPrefixCounts |
| Colmap.VideoPrefixKeepsClean | app/core/engine.py:160 | a stem made only of kept characters is its own prefix |
| Colmap.VideoPrefixIdempotent | app/core/engine.py:160 | filtering twice gives the same prefix |
| Colmap.VideoPrefixChar | app/core/engine.py:160 | one character is kept exactly when it is alphanumeric, '_' or '-' |
| Colmap.VideoPrefixAppend | app/core/engine.py:160 | the prefix of a concatenation is the concatenation of the prefixes, so the filter keeps every allowed character in order |
| Colmap.VideoPrefixCounts | app/core/engine.py:160 | every allowed character occurs in the prefix as often as in the stem, and no other character occurs |
| Colmap.FfmpegArgvShape | app/core/engine.py:281-295 | ffmpeg binary first, -hwaccel videotoolbox iff Apple Silicon, and the command ends with -i video -vf fps=F -qscale:v 2 and the output pattern |
| Colmap.Matches | app/core/engine.py:180-183 | a file is taken for an extension iff it is in the tree, is a file, has that extension and is not a .mask.png |
| Colmap.SelectImagesMembers | app/core/engine.py:178-183 | a path is selected iff it is a file named *.jpg, *.jpeg or *.png whose lower-cased name does not end in .mask.png |
| Colmap.TargetName | app/core/engine.py:197-201 | images/<name>, or images/<parent>_<name> when that target already exists |
| Colmap.Trashable | app/core/engine.py:497-499 | every listed entry except the one named "images" |
| Colmap.DeleteProjectContent | app/core/engine.py:490-506 | a missing target gives (false, "Le dossier n'existe pas"); a target that is a file gives false with the NotADirectoryError text that `iterdir` raises; otherwise true, and the trashed entries are exactly the listing without "images" and without the entries whose own trash call fails, in listing order; nothing is ever trashed on false |
| Colmap.TrashableAppend | app/core/engine.py:497-504 | scanning one more entry adds it to the trash list unless it is "images" |
| ColmapPipeline.VideoJobs | app/core/engine.py:147-160 | one extraction job per "\|" segment, in order, each for the stripped segment |
| ColmapPipeline.CopyProgress | app/core/engine.py:205-207 | the copy-phase value 5 + int(i/total*15) stays within 5..19 |
| ColmapPipeline.CopyReport | app/core/engine.py:205-207 | a progress report only for every tenth file and the last one, carrying the copy-phase value |
| ColmapPipeline.CopyProgressRises | app/core/engine.py:205-207 | the copy-phase value never falls from one file to the next |
| ColmapPipeline.InputsOf | app/core/engine.py:143-147 | the video branch is taken iff input_type is "video"; one job per "\|" segment of the input text |
| ColmapPipeline.UpscaleInputs | app/core/engine.py:255 | a source file is upscaled iff its lower-cased suffix is .jpg, .png or .jpeg |
| ColmapPipeline.StagesOf | app/core/engine.py:117-125 | an undistortion stage exists iff undistort_images is set |
| ColmapPipeline.LayoutFs | app/core/engine.py:54-60 | the project, images and checkpoints directories are added and every existing entry is kept |
| ColmapPipeline.PollFacts | app/core/engine.py:46-47 | a poll only counts itself, reads the cancellation schedule, and does nothing else |
| ColmapPipeline.LinesFacts | app/core/engine.py:347-351 | reading output lines polls once per line, stops at the first poll that reads true, and leaves files and launches alone; never true without a cancellation |
| ColmapPipeline.CommandFacts | app/core/engine.py:331-368 | run_command launches exactly its argv, reports no progress, fails once a cancel is seen, and succeeds when nobody cancels and the tool exits 0 |
| ColmapPipeline.VideosFacts | app/core/engine.py:150-167 | a cancel seen makes the video step fail; missing videos are skipped, so with all extractions succeeding (or none to run) and no cancel the step succeeds |
| ColmapPipeline.VideosLaunches | app/core/engine.py:150-167 | extractions run in segment order over the existing videos only, stopping at the first failure; all of them on success |
| ColmapPipeline.CopyFacts | app/core/engine.py:192-210 | the copy loop never launches a process, fails on a cancel seen, keeps every file, and succeeds without a cancel when the sources exist |
| ColmapPipeline.CopyItems | app/core/engine.py:192-203 | the files copied are a prefix of the selection, all of it on success |
| ColmapPipeline.CopyProgressFacts | app/core/engine.py:205-207 | copy-phase progress is non-decreasing and within 5..19 |
| ColmapPipeline.UpscaleLoopItems | app/core/engine.py:258-263 | the images upscaled are a prefix of the sorted sources, all of them on success |
| ColmapPipeline.UpscaleFacts | app/core/engine.py:221-273 | the upscale step launches nothing and reports no progress; it succeeds without a cancel unless the upscaler is installed and its model fails to load |
| ColmapPipeline.UpscaleItems | app/core/engine.py:234-267 | an existing images_src means nothing is upscaled; otherwise a successful run upscales the whole sorted queue |
| ColmapPipeline.PrepareFacts | app/core/engine.py:141-219 | image preparation fails on a cancel seen, keeps every file, and succeeds when nobody cancels and every tool succeeds |
| ColmapPipeline.PrepareEffects | app/core/engine.py:141-219 | launches follow the extraction plan, progress stays within 5..19 and rises, and a successful copy copies exactly the selected images |
| ColmapPipeline.HandlerFacts | app/core/engine.py:90-139 | the exception handler (reached because `tr` is undefined) answers "Arrete par l'utilisateur" iff the poll it makes reads true, else the NameError text |
| ColmapPipeline.StageSound | app/core/engine.py:89-112 | a stage ends with its own failure message or the cancel message, and with the cancel message exactly when a poll read true |
| ColmapPipeline.StageEffects | app/core/engine.py:89-112 | a stage launches at most its own argv, reports no progress, and launched it when it succeeded |
| ColmapPipeline.StageCompletes | app/core/engine.py:89-112 | with no cancel and tools that succeed, a stage succeeds |
| ColmapPipeline.UndistortSound | app/core/engine.py:116-125 | the undistortion stage fails with "Echec undistortion" or the cancel message, the latter exactly when a poll read true |
| ColmapPipeline.UndistortEffects | app/core/engine.py:116-125 | the undistortion stage launches at most the undistorter and always does when it succeeds |
| ColmapPipeline.FinishSound | app/core/engine.py:116-135 | the tail of run ends in undistortion failure, cancellation or "Dataset cree" |
| ColmapPipeline.FinishEffects | app/core/engine.py:116-135 | the tail reports 95 then 100, and 100 and the Brush config only on success |
| ColmapPipeline.FinishCompletes | app/core/engine.py:116-133 | with no cancel and tools that succeed, the tail creates the dataset |
| ColmapPipeline.MapPhaseEffects | app/core/engine.py:107-135 | from the mapper on, launches follow the plan and progress is a prefix of 90, 95, 100 |
| ColmapPipeline.MatchPhaseEffects | app/core/engine.py:98-135 | from matching on, launches follow the plan and progress is a prefix of 75, 90, 95, 100 |
| ColmapPipeline.ExtractPhaseEffects | app/core/engine.py:89-135 | from feature extraction on, launches follow the plan and progress is a prefix of 50, 75, 90, 95, 100 |
| ColmapPipeline.ReconstructFacts | app/core/engine.py:87-135 | the reconstruction launches extractor, matcher, mapper, then the undistorter in that order, stopping at the first failure, and reports a prefix of 25, 50, 75, 90, 95, 100, all of it exactly on success |
| ColmapPipeline.ReconstructCompletes | app/core/engine.py:87-133 | with no cancel and tools that succeed, the reconstruction creates the dataset |
| ColmapPipeline.MilestonePrefix | app/core/engine.py:87-132 | any prefix of the milestones rises, stays within them, and contains 100 only when it is all of them |
| ColmapPipeline.RunShape | app/core/engine.py:49-71 | a missing input returns right after the layout, with nothing else done; otherwise the run is preparation, upscale, reconstruction in sequence |
| ColmapPipeline.RunValidation | app/core/engine.py:64-70 | "Entrée introuvable" iff a non-video input is missing; "Vidéo introuvable" iff a video input without "\|" is missing; "\|"-joined input is not checked up front |
| ColmapPipeline.RunSound | app/core/engine.py:49-139 | once a poll reads true nothing more is launched, copied, upscaled or reported; a cancelled run returns the cancel, preparation or upscale failure message, and the NameError text never escapes |
| ColmapPipeline.RunLaunches | app/core/engine.py:49-135 | the processes launched are a prefix of the planned sequence, all of it on success |
| ColmapPipeline.RunProgress | app/core/engine.py:87-207 | progress never goes down, copy values lie in 5..19 below the milestones, the milestones come in order, and 100 is reported exactly on success |
| ColmapPipeline.RunCompletes | app/core/engine.py:49-133 | an existing input, no cancel, tools that succeed and a loadable upscale model give "Dataset cree" for the project directory |
| ColmapEngineObject.Engine.constructor | app/core/engine.py:16-28 | the engine starts with no poll, no launch, no current process and an empty trace |
| ColmapEngineObject.Engine.IsCancelled | app/core/engine.py:46-47 | one poll of the cancellation callback, as the poll function specifies |
| ColmapEngineObject.Engine.RunCommand | app/core/engine.py:331-368 | the loop over output lines follows CommandF: launch, one poll per line, a final poll, success iff not cancelled and exit 0; no process is left current |
| ColmapEngineObject.Engine.ExtractVideos | app/core/engine.py:150-167 | the loop over "\|" segments follows VideosF |
| ColmapEngineObject.Engine.CollectImages | app/core/engine.py:178-183 | the three extension scans return exactly the selected images |
| ColmapEngineObject.Engine.MatchFiles | app/core/engine.py:181-183 | one rglob scan returns the files of that extension that are not masks, in walk order |
| ColmapEngineObject.Engine.CopyImages | app/core/engine.py:192-210 | the copy loop follows CopyF: poll, copy to the collision-free target, report progress |
| ColmapEngineObject.Engine.PrepareImages | app/core/engine.py:141-219 | image preparation follows PrepareF |
| ColmapEngineObject.Engine.UpscaleImages | app/core/engine.py:258-265 | the upscale loop follows UpscaleLoopF |
| ColmapEngineObject.Engine.RunUpscale | app/core/engine.py:221-273 | the upscale step follows UpscaleF |
| ColmapEngineObject.Engine.Stage | app/core/engine.py:89-112 | one reconstruction stage follows StageF |
| ColmapEngineObject.Engine.Undistort | app/core/engine.py:116-125 | the undistortion stage follows UndistortF |
| ColmapEngineObject.Engine.CreateBrushConfig | app/core/engine.py:454-476 | writing the config adds one event and changes nothing else |
| ColmapEngineObject.Engine.Finish | app/core/engine.py:116-135 | the tail of run follows FinishF |
| ColmapEngineObject.Engine.Reconstruct | app/core/engine.py:87-135 | the four stages follow ReconstructF |
| ColmapEngineObject.Engine.Run | app/core/engine.py:49-139 | run returns (success, message) with success exactly for "Dataset cree", and its state and trace are those of RunWith, so every Run lemma applies |
| Host.StopF | app/core/brush_engine.py:71-78 | a running process that has not exited is signalled (the process group on Unix, terminate on Windows), waited for and no longer runs; otherwise nothing is signalled and the process is unchanged |
| Host.StopTwice | app/core/sharp_engine.py:104-111 | a second stop after the first signals nothing |
| BrushTrainer.TrainArgv | app/core/brush_engine.py:23-46 | the command starts with the binary and `--export-path <output>` and ends with the input path |
| BrushTrainer.TrainCommand | app/core/brush_engine.py:19-20 | training fails, with the source's message, exactly when no brush binary was resolved; otherwise the command is TrainArgv |
| BrushTrainer.TrainArgvDecodes | app/core/brush_engine.py:27-46 | the command reads back into binary, output, the emitted step count and SH degree (omitted when 0 or absent), the viewer flag, the custom words and the input |
| BrushTrainer.TrainArgvMiddle | app/core/brush_engine.py:29-43 | between the export path and the input lie exactly the option flags and the custom words |
| BrushTrainer.DeviceIgnored | app/core/brush_engine.py:35-37 | the device option has no effect on the command |
| BrushTrainer.DefaultTrainArgv | app/core/brush_engine.py:15 | the default options give `--total-steps 30000 --sh-degree 3` and no viewer |
| BrushTrainer.BrushEngine.constructor | app/core/brush_engine.py:11-13 | a launcher starts with the resolved binary and no process |
| BrushTrainer.BrushEngine.Train | app/core/brush_engine.py:15-69 | the result is TrainCommand; on success the launched process is current, on failure the process is unchanged |
| BrushTrainer.BrushEngine.Stop | app/core/brush_engine.py:71-78 | the new process and the signals sent follow StopF |
| BrushWorkers.ResolveByComponents | app/gui/workers.py:38-54 | resolving a path equals the decision on its normalised components |
| BrushWorkers.ResolveOfRender | app/gui/workers.py:44-54 | on an already normal path, resolution is decided by its last components |
| BrushWorkers.ResolveSparseZero | app/gui/workers.py:47-48 | a path ending in components `sparse`, `0` resolves two levels up |
| BrushWorkers.ResolveSparse | app/gui/workers.py:51-52 | a path whose last component is `sparse` resolves one level up |
| BrushWorkers.ResolveChanges | app/gui/workers.py:44-54 | the resolved path differs from the normalised path iff the latter ends with "sparse/0" or "sparse" as text |
| BrushWorkers.ResolveIdempotent | app/gui/workers.py:38-54 | resolving again changes nothing when the first result is non-empty and does not itself end in "sparse" |
| BrushWorkers.ResolveMySparse | app/gui/workers.py:51-52 | the textual suffix test also climbs out of a folder named "mysparse" |
| BrushWorkers.ResolveNotIdempotent | app/gui/workers.py:47-52 | "/a/sparse/sparse/0" resolves to "/a/sparse", which resolves again to "/a" |
| BrushWorkers.ResolveToEmpty | app/gui/workers.py:44-52 | "sparse" resolves to the empty path and "" normalises to "." |
| BrushWorkers.SanitizePlyName | app/gui/workers.py:103-106 | the name keeps only its last path component and gains ".ply" unless it already ends so |
| BrushWorkers.SanitizeNoDoubleSuffix | app/gui/workers.py:105-106 | ".ply.ply" can only come from a basename that already had it |
| BrushWorkers.SanitizeIdempotent | app/gui/workers.py:103-106 | sanitising twice is sanitising once |
| BrushWorkers.CandidateSound | app/gui/workers.py:124-127 | every candidate of a directory listing is an eligible ".ply" file of that directory, with its on-disk mtime |
| BrushWorkers.CandidateComplete | app/gui/workers.py:124-127 | every eligible file of the listing is a candidate |
| BrushWorkers.LatestWins | app/gui/workers.py:128-130 | the strict-greater scan keeps the previous choice when nothing is newer, and otherwise picks the first candidate of greatest mtime above the previous one |
| BrushWorkers.LatestAppend | app/gui/workers.py:132-147 | scanning two lists in turn is scanning their concatenation |
| BrushWorkers.PreferredSkipsTarget | app/gui/workers.py:125 | the preferred folders never propose the target name, and only ".ply" files |
| BrushWorkers.PickFromPreferred | app/gui/workers.py:132-137 | when a preferred folder holds a file newer than 0, the pick is the newest of them and the walk is not used |
| BrushWorkers.PickFromWalk | app/gui/workers.py:137-147 | otherwise the pick is the newest walked ".ply" file, or nothing |
| BrushWorkers.CheckDir | app/gui/workers.py:120-130 | the loop over one listing follows the specification scan Latest |
| BrushWorkers.CheckPreferred | app/gui/workers.py:110-134 | the loop over the three search paths follows Latest over the preferred candidates |
| BrushWorkers.CheckWalk | app/gui/workers.py:137-147 | the nested loop over the walk follows Latest over the walked candidates |
| BrushWorkers.FindPly | app/gui/workers.py:108-147 | the found file is PickPly |
| BrushWorkers.WalkMayPickTarget | app/gui/workers.py:141-147 | the fallback walk does not skip the target name: a lone "scene.ply" is picked to be moved onto itself |
| BrushWorkers.RenameOf | app/gui/workers.py:149-157 | one log line always; one move iff a file was found and the move did not fail, to `<output>/<name>` |
| BrushWorkers.RenameF | app/gui/workers.py:97-157 | no name means no log and no move; a move goes from PickPly's file to the output folder under the sanitised name |
| BrushWorkers.PickNewest | app/gui/workers.py:116-147 | a picked file is a winner of the preferred scan, or of the walk when the preferred folders offered nothing |
| BrushWorkers.AdjustLog | app/gui/workers.py:63-66 | a line is logged iff resolution changed the input, and it names both paths |
| BrushWorkers.StreamLogsPrefix | app/gui/workers.py:79-83 | the logged lines are the stripped output lines in order; without cancellation and empty lines all are logged, one poll each; cancellation bounds what is logged |
| BrushWorkers.RunVerdict | app/gui/workers.py:60-95 | the run succeeds iff a binary exists, the launch does not fail and the exit code is 0; without a binary the source's message is reported and nothing is launched |
| BrushWorkers.FailureMessageReadsBack | app/gui/workers.py:92 | the exit code reads back from the failure message |
| BrushWorkers.RunFailureCode | app/gui/workers.py:86-92 | a non-zero exit reports its code and renames nothing |
| BrushWorkers.RunRenameOnlyOnSuccess | app/gui/workers.py:88-89 | a file is moved only after a successful exit, and the disk never changes the verdict or the message |
| BrushWorkers.RunTrainsResolved | app/gui/workers.py:63-76 | a launched command trains on the resolved dataset root |
| BrushWorkers.ReadStream | app/gui/workers.py:79-83 | the read loop follows Stream |
| BrushWorkers.Rename | app/gui/workers.py:97-157 | the rename method follows RenameF |
| BrushWorkers.BrushWorker.constructor | app/gui/workers.py:31-36 | the worker keeps its paths and parameters and starts with empty logs |
| BrushWorkers.BrushWorker.HandlePlyRename | app/gui/workers.py:97-157 | appends RenameF's log and moves, nothing else changes |
| BrushWorkers.BrushWorker.ReadOutput | app/gui/workers.py:78-85 | appends Stream's lines and advances the polls as Stream says |
| BrushWorkers.BrushWorker.Run | app/gui/workers.py:60-95 | verdict, message, log, moves, launches and polls are those of RunF |
| FourDGS.Poll | app/core/four_dgs_engine.py:23-24 | a read of `stop_requested` is true iff it was already set or `stop()` has been called by then; one read more, nothing else changes |
| FourDGS.StreamF | app/core/four_dgs_engine.py:213-224 | the output loop reads the flag at least once, starts nothing, and a set flag stays set |
| FourDGS.CmdF | app/core/four_dgs_engine.py:201-227 | a command starts at most itself and makes no directory |
| FourDGS.CmdStopped | app/core/four_dgs_engine.py:202 | with the flag set, `_run_cmd` returns -1 at once, starts nothing and logs nothing |
| FourDGS.CmdExitCode | app/core/four_dgs_engine.py:205-224 | a result other than -1 is the exit code of the command, which was started |
| FourDGS.StreamResult | app/core/four_dgs_engine.py:213-224 | the loop ends with -1 or the exit code; without a stop and with no empty line it logs every line and returns the exit code |
| FourDGS.FrameArgv | app/core/four_dgs_engine.py:38-44 | the ffmpeg command reads the video, sets the frame rate and writes `%05d.jpg` into the output directory |
| FourDGS.FrameRateReadsBack | app/core/four_dgs_engine.py:41 | the frame rate reads back from its `fps=` filter |
| FourDGS.ExtractF | app/core/four_dgs_engine.py:31-56 | extraction keeps a set stop flag set |
| FourDGS.KilledByNamedSignal | app/core/four_dgs_engine.py:54-55 | an ffmpeg killed by a known signal logs "Command '[…]' died with <Signals.NAME: n>." |
| FourDGS.KilledByUnknownSignal | app/core/four_dgs_engine.py:54-55 | an ffmpeg killed by an unknown signal number logs "died with unknown signal n." |
| FourDGS.ExitedNonZero | app/core/four_dgs_engine.py:54-55 | an ffmpeg exiting with a positive code logs "returned non-zero exit status n." |
| FourDGS.SignalNames | app/core/four_dgs_engine.py:54-55 | 15 is SIGTERM, 9 is SIGKILL, and no number from 32 up names a signal |
| FourDGS.ExtractSucceeds | app/core/four_dgs_engine.py:31-56 | extraction succeeds iff it was not stopped and ffmpeg exits 0; ffmpeg starts iff it was not stopped; stopped, it starts nothing and fails |
| FourDGS.ExtractStarted | app/core/four_dgs_engine.py:35-52 | an unstopped extraction starts exactly the ffmpeg command |
| FourDGS.ExtractorArgv | app/core/four_dgs_engine.py:69-83 | the feature extractor command; its GPU is switched off iff the host is Apple Silicon |
| FourDGS.MatcherArgv | app/core/four_dgs_engine.py:97-102 | the exhaustive matcher command; its GPU is switched off iff the host is Apple Silicon |
| FourDGS.MapperArgv | app/core/four_dgs_engine.py:108-117 | the mapper writes into `<root>/sparse` and ends with the thread count |
| FourDGS.ColmapStages | app/core/four_dgs_engine.py:67-119 | there are three COLMAP stages |
| FourDGS.StagesF | app/core/four_dgs_engine.py:85-121 | the stages make no directory and keep a set stop flag set |
| FourDGS.StagesInOrder | app/core/four_dgs_engine.py:85-121 | the commands started are a prefix of the stages in order, and all of them when the stages succeed |
| FourDGS.StagesSucceeded | app/core/four_dgs_engine.py:85-121 | success means every stage ran and exited 0 |
| FourDGS.ColmapF | app/core/four_dgs_engine.py:58-121 | `run_colmap` keeps a set stop flag set |
| FourDGS.ColmapStopped | app/core/four_dgs_engine.py:60 | stopped, `run_colmap` fails and starts and makes nothing |
| FourDGS.VideoFilter | app/core/four_dgs_engine.py:142-143 | the kept names are exactly the listed names with a video extension, in any case |
| FourDGS.Videos | app/core/four_dgs_engine.py:143-144 | the scanned videos are sorted and are a permutation of the filtered names |
| FourDGS.Pad2ReadsBack | app/core/four_dgs_engine.py:158 | the two-digit padding of an index reads back as that index |
| FourDGS.CamNameReadsBack | app/core/four_dgs_engine.py:158 | the camera name is `cam_` followed by its index |
| FourDGS.CamNamesDistinct | app/core/four_dgs_engine.py:158 | different videos get different camera directories |
| FourDGS.CamNameTwoDigits | app/core/four_dgs_engine.py:158 | below 100 a camera name has six characters |
| FourDGS.ExtractAllF | app/core/four_dgs_engine.py:156-164 | the extraction loop keeps a set stop flag set |
| FourDGS.FrameArgvs | app/core/four_dgs_engine.py:156-164 | one ffmpeg command per remaining video |
| FourDGS.ExtractAllInOrder | app/core/four_dgs_engine.py:156-164 | the commands started are a prefix of the videos' ffmpeg commands in sorted order, and all of them when every extraction succeeds |
| FourDGS.FinishF | app/core/four_dgs_engine.py:176-199 | the last step always ends in a verdict; which command decides it (ns-process-data when on PATH, else run_colmap) is stated by FinishChoice, and that it only adds to the commands started by FinishGrows |
| FourDGS.FinishChoice | app/core/four_dgs_engine.py:176-199 | with ns-process-data on PATH only its command runs and decides the result; otherwise `run_colmap` on the output folder does |
| FourDGS.FinishGrows | app/core/four_dgs_engine.py:176-199 | the last step only adds commands |
| FourDGS.ProcessNoVideos | app/core/four_dgs_engine.py:141-148 | a folder without videos fails after logging the scan and "no video", with nothing started or made |
| FourDGS.ProcessStopped | app/core/four_dgs_engine.py:157 | stopped beforehand, nothing is started and the run fails |
| FourDGS.ProcessExtractsAll | app/core/four_dgs_engine.py:123-199 | success means there were videos and every video's ffmpeg command was started, in sorted order, before anything else |
| FourDGS.VideosExtractsAll | app/core/four_dgs_engine.py:152-199 | once the videos are found, success means every video's ffmpeg command was started, in order, before anything else |
| FourDGS.FourDGSEngine.constructor | app/core/four_dgs_engine.py:11-17 | the binaries fall back to "ffmpeg" and "colmap"; no stop, no poll, nothing started |
| FourDGS.FourDGSEngine.Stop | app/core/four_dgs_engine.py:23-24 | sets the stop flag and nothing else |
| FourDGS.FourDGSEngine.ReadStop | app/core/four_dgs_engine.py:33 | one read of the flag, as Poll specifies |
| FourDGS.FourDGSEngine.RunCmd | app/core/four_dgs_engine.py:201-227 | follows CmdF |
| FourDGS.FourDGSEngine.ReadProcess | app/core/four_dgs_engine.py:213-224 | the output loop follows StreamF |
| FourDGS.FourDGSEngine.ReadLine | app/core/four_dgs_engine.py:213-222 | one turn of the output loop: a set flag ends it with -1, the end of the output with the exit code, any other line is logged stripped and leaves the rest of StreamF |
| FourDGS.FourDGSEngine.ExtractFrames | app/core/four_dgs_engine.py:31-56 | follows ExtractF |
| FourDGS.FourDGSEngine.RunFfmpeg | app/core/four_dgs_engine.py:35-56 | after the flag was read unset, follows FfmpegF: the output directory is made, ffmpeg started, a non-zero code logged |
| FourDGS.FourDGSEngine.RunStage | app/core/four_dgs_engine.py:85 | one stage: on exit 0 the rest of StagesF remains, otherwise StagesF's failure is reached |
| FourDGS.FourDGSEngine.RunColmap | app/core/four_dgs_engine.py:58-121 | follows ColmapF |
| FourDGS.FourDGSEngine.RunStages | app/core/four_dgs_engine.py:84-121 | the three stages run in order, each after its header, following StagesF: the first non-zero code ends the run with False |
| FourDGS.FourDGSEngine.ExtractVideos | app/core/four_dgs_engine.py:156-164 | the loop over videos follows ExtractAllF |
| FourDGS.FourDGSEngine.ExtractVideo | app/core/four_dgs_engine.py:157-164 | one turn of the loop: a stop ends it with False, a failed extraction ends it with that verdict, a success leaves the remaining videos of ExtractAllF |
| FourDGS.FourDGSEngine.Finish | app/core/four_dgs_engine.py:176-199 | follows FinishF |
| FourDGS.FourDGSEngine.ProcessDataset | app/core/four_dgs_engine.py:123-199 | follows ProcessF |
| FourDGS.FourDGSEngine.ProcessVideos | app/core/four_dgs_engine.py:152-199 | follows ProcessVideosF: the image directory is made, the videos are extracted in order, and the COLMAP steps run only after every extraction succeeded |
| Extractor360.ExtractorArgv | app/core/extractor_360_engine.py:39-44 | the command starts with the venv interpreter, the script, `--input <input>` and `--output <output>` |
| Extractor360.ArgvDecodes | app/core/extractor_360_engine.py:39-81 | the command reads back into interpreter, script, paths and every option given, with `--motion-threshold` only when adaptive mode is on |
| Extractor360.OptionsDecode | app/core/extractor_360_engine.py:46-81 | the option words read back into the options they came from |
| Extractor360.SwitchesDecode | app/core/extractor_360_engine.py:71-81 | the switch words read back into the AI mask, AI skip and adaptive switches, with the motion threshold only after `--adaptive` |
| Extractor360.BeforeFirst | app/core/extractor_360_engine.py:125 | the piece before the first `%]` is a prefix of the text, ends where `%]` first occurs, or is the whole text when there is none |
| Extractor360.BeforeFirstAt | app/core/extractor_360_engine.py:125 | at the first occurrence of the pattern the piece ends there |
| Extractor360.ProgressValue | app/core/extractor_360_engine.py:119-128 | a progress value is reported only for lines that contain `%`, `[` and `%]` |
| Extractor360.ProgressReads | app/core/extractor_360_engine.py:123-126 | a line of the form `… [ NN%] …` reports NN |
| Extractor360.ProgressHidden | app/core/extractor_360_engine.py:125-128 | when the text after the first `[` holds a `]` before the next `[`, the parse fails and nothing is reported, even if a later `[NN%]` follows |
| Extractor360.ParsePadded | app/core/extractor_360_engine.py:126 | leading spaces do not change the number that is read |
| Extractor360.StreamSound | app/core/extractor_360_engine.py:105-114 | the run stops iff the cancel callback fires before the output ends; the lines shown are the non-blank stripped lines read before it |
| Extractor360.StreamCancelled | app/core/extractor_360_engine.py:105-109 | the cancel callback stops the loop iff it fires before the output ends |
| Extractor360.StreamShown | app/core/extractor_360_engine.py:110-114 | the logged lines are the non-blank stripped lines read before cancellation |
| Extractor360.NonBlank | app/core/extractor_360_engine.py:110-111 | blank lines are skipped |
| Extractor360.ProgressesAppend | app/core/extractor_360_engine.py:119-126 | progress values are reported line by line, in order |
| Extractor360.RunF | app/core/extractor_360_engine.py:30-130 | without the venv and the script, the run fails, starts nothing and logs only the error; otherwise the command started is ExtractorArgv |
| Extractor360.RunVerdict | app/core/extractor_360_engine.py:30-130 | the run succeeds iff it is installed, not cancelled and exits 0; it stops the engine iff it is cancelled |
| Extractor360.RunLogsAll | app/core/extractor_360_engine.py:83-130 | uncancelled, the log is the command line followed by every non-blank output line, and the progress values are those of these lines |
| Extractor360.ReadOutput | app/core/extractor_360_engine.py:105-128 | the read loop follows StreamF, with logging and progress reports only when their callbacks are present |
| Extractor360.Extractor360Engine.constructor | app/core/extractor_360_engine.py:10-16 | the engine keeps its interpreter and script paths, not stopped and with no process |
| Extractor360.Extractor360Engine.Stop | app/core/extractor_360_engine.py:108 | sets the stop flag and keeps the process |
| Extractor360.Extractor360Engine.RunExtraction | app/core/extractor_360_engine.py:30-130 | verdict, log and progress are RunF's; the process started becomes current; cancellation sets the stop flag |
| Sharp.SharpCmd | app/core/sharp_engine.py:14-45 | the launcher is either one program or an interpreter running `-m sharp.cli` |
| Sharp.FirstApplicableIsFirst | app/core/sharp_engine.py:14-45 | the first applicable candidate of the search wins, or the fallback when none applies |
| Sharp.SharpCmdIsFirstMatch | app/core/sharp_engine.py:20-45 | the search tries, in order, the dedicated venv program, its interpreter, the program next to `sys.executable`, `sharp` on PATH, then `sys.executable -m sharp.cli` |
| Sharp.SharpCmdRunnable | app/core/sharp_engine.py:20-45 | a chosen program is executable or found on PATH; a chosen interpreter exists or is `sys.executable` |
| Sharp.FoundProgramInstalled | app/core/sharp_engine.py:46-63 | when the search settles on the dedicated program or on `sharp` from PATH, `is_installed` agrees |
| Sharp.NextSharpNotInstalled | app/core/sharp_engine.py:30-35 | with only the program next to `sys.executable` present, the search runs it while `is_installed` says no |
| Sharp.PredictArgv | app/core/sharp_engine.py:69-82 | the command is the launcher followed by `predict -i <input> -o <output>` |
| Sharp.PredictArgvDecodes | app/core/sharp_engine.py:71-82 | the words after the launcher read back into input, output, the checkpoint if non-empty, the device unless "default" or empty, and the verbose flag |
| Sharp.OptionsDecode | app/core/sharp_engine.py:75-82 | the option words read back in order: checkpoint, device, verbose |
| Sharp.PredictDefaults | app/core/sharp_engine.py:65 | the default arguments add no option |
| Sharp.SharpEngine.constructor | app/core/sharp_engine.py:10-12 | a launcher starts with no process |
| Sharp.SharpEngine.Predict | app/core/sharp_engine.py:65-102 | the started process runs PredictArgv on the search's launcher, becomes current, and its command line is printed |
| Sharp.SharpEngine.Stop | app/core/sharp_engine.py:104-111 | the new process and the signals sent follow StopF |
| SetupDependencies.RelaxLine | app/scripts/setup_dependencies.py:186-187 | relaxing keeps a line's length and leaves any line that does not pin torch or torchvision unchanged |
| SetupDependencies.RelaxRequirements | app/scripts/setup_dependencies.py:182-188 | the loop writes one line per line read, each relaxed as RelaxLine says |
| SetupDependencies.RelaxOne | app/scripts/setup_dependencies.py:186-187 | one line is relaxed as RelaxLine says |
| SetupDependencies.RelaxOnlyLoosens | app/scripts/setup_dependencies.py:187 | replacing `==` by `>=` only turns some `=` into `>` and keeps the length |
| SetupDependencies.RelaxedStart | app/scripts/setup_dependencies.py:186-187 | a pinned `name==` line becomes a `name>=` line |
| SetupDependencies.RelaxIdempotent | app/scripts/setup_dependencies.py:182-188 | relaxing twice is relaxing once |
| SetupDependencies.LoosenedNotPinned | app/scripts/setup_dependencies.py:186 | a loosened line no longer counts as pinned |
| SetupDependencies.RemoteVersion | app/scripts/setup_dependencies.py:59-67 | a failed command gives None; otherwise None exactly when the stripped output is empty; a version is always a non-empty word without whitespace |
| SetupDependencies.RemoteVersionFirstWord | app/scripts/setup_dependencies.py:61-64 | on any output, None exactly when it is all whitespace, and otherwise the first word of `output.split()` |
| SetupDependencies.RemoteVersionOfHash | app/scripts/setup_dependencies.py:62-64 | the output `<hash>\t HEAD` gives the hash |
| SetupDependencies.LocalVersion | app/scripts/setup_dependencies.py:69-76 | a local version is known iff the version file exists |
| SetupDependencies.SaveLocalVersion | app/scripts/setup_dependencies.py:78-84 | a non-empty version is written to a writable file and no other file changes; otherwise nothing changes |
| SetupDependencies.SavedVersionReadsBack | app/scripts/setup_dependencies.py:59-84 | a fetched version that is saved reads back unchanged |
| SetupDependencies.SavedWordReadsBack | app/scripts/setup_dependencies.py:69-84 | any non-empty version without whitespace that is written to the version file reads back unchanged |
| SetupDependencies.ManageEngine | app/scripts/setup_dependencies.py:418-454 | an installation always targets the remote version |
| SetupDependencies.SkipComesFirst | app/scripts/setup_dependencies.py:424-427 | a skip variable equal to 1 returns before anything else happens |
| SetupDependencies.UpdateOfferedIff | app/scripts/setup_dependencies.py:444-448 | the update question is asked iff the engine is installed, both versions are known and differ, and stdin is a terminal |
| SetupDependencies.InstallOnlyOnYes | app/scripts/setup_dependencies.py:435-451 | installation runs iff on a terminal the answer is "y" to a missing engine or an available update |
| SetupDependencies.CustomCheckIff | app/scripts/setup_dependencies.py:450-454 | the custom check runs iff the engine is installed, no installation runs and a check was given |
| SetupDependencies.NoUpdateAfterSave | app/scripts/setup_dependencies.py:429-454 | once the fetched version is saved, the next run offers no update and installs nothing |
| SetupDependencies.LoadConfig | app/scripts/setup_dependencies.py:15-23 | an existing config that parses gives its parsed value; a missing or unparseable one gives `{}` |
| SetupDependencies.FeatureEnabledIff | app/scripts/setup_dependencies.py:494-517 | a feature is on iff its nested "enabled" or its flat key is truthy; the lookup raises iff the config or its section is not a dictionary |
| SetupDependencies.NoConfigAllOff | app/scripts/setup_dependencies.py:495-519 | without a config file Sharp and Upscale are off |
| MigratePy39.FirstBreak | app/scripts/migrate_to_py39.py:13 | the first line-break character of a text, or none in it |
| MigratePy39.SplitLines | app/scripts/migrate_to_py39.py:13 | `splitlines()` cuts at every Python line boundary: no line it returns holds a break |
| MigratePy39.LinesRejoin | app/scripts/migrate_to_py39.py:13-49 | on a text whose only breaks are `\n`, joining the lines with `\n` gives back the text minus one trailing newline |
| MigratePy39.FutureAfterLStrip | app/scripts/migrate_to_py39.py:23 | the future-import test skips leading whitespace |
| MigratePy39.FutureIsStripped | app/scripts/migrate_to_py39.py:23 | a line is a future import iff its stripped form starts with `from __future__` |
| MigratePy39.FutureMarkAt | app/scripts/migrate_to_py39.py:22-23 | the future marks hold the future-import test of each line |
| MigratePy39.ImportMarkAt | app/scripts/migrate_to_py39.py:26 | the import marks hold the import test of each line |
| MigratePy39.FirstMarked | app/scripts/migrate_to_py39.py:36-40 | the first marked line, or none |
| MigratePy39.LastMarked | app/scripts/migrate_to_py39.py:22-25 | the last marked line, or none |
| MigratePy39.InsertIndex | app/scripts/migrate_to_py39.py:21-40 | the insertion point lies within the file |
| MigratePy39.InsertAfterFuture | app/scripts/migrate_to_py39.py:22-25 | with a future import, the new import goes right after the last one |
| MigratePy39.InsertAtImport | app/scripts/migrate_to_py39.py:26-40 | without a future import, the new import goes at the first import line, or at line 0 when there is none |
| MigratePy39.ScanFuture | app/scripts/migrate_to_py39.py:22-29 | the first loop finds a future import iff there is one, ends after the last one, and leaves 0 when there is neither a future nor a plain import |
| MigratePy39.FindInsertIndex | app/scripts/migrate_to_py39.py:13-40 | the two loops compute InsertIndex |
| MigratePy39.Needed | app/scripts/migrate_to_py39.py:43-45 | `Union` is needed iff the file does not mention it, likewise `Optional`, in that order |
| MigratePy39.InsertAt | app/scripts/migrate_to_py39.py:48 | `lines.insert` puts the line at its index and shifts the rest by one |
| MigratePy39.PatchF | app/scripts/migrate_to_py39.py:5-111 | the file is written iff its content changed |
| MigratePy39.PatchFile | app/scripts/migrate_to_py39.py:5-111 | the patch follows PatchF, with the regex rewrites as parameters |
| MigratePy39.Settle | app/scripts/migrate_to_py39.py:74-88 | the loop whose body only copies the content ends with the content unchanged after one pass, or none on an empty file |
| MigratePy39.NothingToDo | app/scripts/migrate_to_py39.py:43-49 | a file that mentions both names is left alone when the rewrites find nothing |
| MigratePy39.WrittenIff | app/scripts/migrate_to_py39.py:43-49 | without rewrites, a file is written iff an import was needed |
| MigratePy39.MentionSurvives | app/scripts/migrate_to_py39.py:13-49 | a word without line breaks that the file mentions is still mentioned after the import is added |
| MigratePy39.ImportsSettle | app/scripts/migrate_to_py39.py:43-49 | after the import is added, no import is needed any more: patching again adds nothing |

## Left out

- Real process spawning, output streaming, signals and waits are not performed. A process is its printed lines and exit code. The signals that `stop` sends are recorded (Host.StopF). The `terminate()` that a cancelled output loop sends (app/core/engine.py:305, app/core/engine.py:349, app/core/four_dgs_engine.py:215) is not recorded: the model records only that the loop ends there. The 5-second terminate/kill wait of `ColmapEngine.stop` (app/core/engine.py:478-487) is not modelled: it is OS and thread plumbing.
- Concurrency is not modelled. Another thread's `stop` or cancel is the poll index from which the flag reads true, which makes the flag monotone by construction.
- Exceptions raised by `Popen` or by file operations are modelled only where the source catches them and turns them into a result: a missing program, a failed move or a failed trash call. Other I/O errors are not modelled.
- File-system side effects act on an abstract path map: copies, `mkdir`, send2trash and the JSON dump. Listing and walk order (`iterdir`, `rglob`, `os.walk`) are inputs.
- ColmapPipeline.UpscaleF: the move of `images` to `images_src` (app/core/engine.py:239) is modelled only as the creation of `images_src` plus the event `MovedToSources`. The files are not moved in the map, and the upscaled images are not written. `Oracles.sourceListing`, the listing of `images_src`, is an input that is not tied to what was moved.
- ColmapPipeline: the pipeline's log text is not modelled. This covers the missing-video warning (app/core/engine.py:155), "Extraction video (i/n)" (app/core/engine.py:162), the video-extraction failure line (app/core/engine.py:165), the ffmpeg line filter and the messages it logs (app/core/engine.py:307-326), and the header, output and verdict lines of `run_command` (app/core/engine.py:333-365). The copy, upscale and step messages are not modelled either. The model records instead the launches, polls, copies, progress values, the move, each upscaled image and the written configuration, as `Event`s.
- `shlex.split` is not modelled. Brush's custom arguments are given as the tokens it yields.
- BrushTrainer.TrainArgvDecodes: requires that the first custom token is not one of the flags `train` writes, because otherwise the command line is ambiguous to read back.
- Modification times are integers, not floats.
- HostSystem.OptimalThreads: `int(n*0.8)` is modelled as floor(4n/5). This is exact for every core count a machine reports, but float rounding is not modelled.
- ColmapPipeline.CopyProgress: `5 + int(i/total*15)` is modelled as 5 + (15i) div total, without float rounding.
- Colmap.VideoPrefix: `str.isalnum` is modelled on ASCII letters and digits only, because Unicode character categories are out of scope. `str.lower` is likewise ASCII.
- The upscale engine (`app/core/upscale_engine.py`, torch and Real-ESRGAN) is not part of this model. Whether it is installed and whether its model loads are inputs. The source ignores the result of each `upscale_image` call (app/core/engine.py:262), and the model records each call only as an `Upscaled` event.
- The GUI (`app/gui/**` apart from `BrushWorker`), `main.py`, `verify_integrity.py` and `app/core/base_engine.py` are not part of this model. The worker's Qt signals become its log lines and final verdict.
- Extractor360.Extractor360Engine.RunExtraction: the parameters are given as the text `str()` makes of their values, so Python's formatting of numbers is not modelled. The `PYTHONPATH` override and the working directory of the process are left out.
- Sharp.SharpEngine.Predict: the copied environment and the `preexec_fn` are not modelled. The printed command line is recorded.
- Sharp.Installed: whether the `sharp` module can be imported (`importlib.util.find_spec`) is an input.
- SetupDependencies.ManageEngine: the installers (git, brew, cargo, npm, cmake, pip), the messages printed, and `install_func` and `custom_check` themselves are not modelled. The decision records whether each would be called. The user's answer to `input()` is an input.
- SetupDependencies.LocalVersion: a version file that exists but cannot be read is not modelled. JSON values in the configuration do not include floats.
- The sequence of calls in `main` of `app/scripts/setup_dependencies.py` is not modelled, apart from the feature-flag lookup and the skip rule of `manage_engine`.
- MigratePy39.PatchFile: the regular-expression rewrites (app/scripts/migrate_to_py39.py:62-63, 92-94) are given as functions on the text, because `re` is out of scope. Reading and writing the file, the printed message, and `main`'s walk over a directory are not modelled.
- The `has_union` and `has_optional` flags of `patch_file` (app/scripts/migrate_to_py39.py:18-19) are computed but never used, so they are not modelled.
- MigratePy39.LinesRejoin: the round trip is stated only for text whose line breaks are all `\n`. Other breaks (`\r\n`, `\r`, form feed and the rest) are normalised to `\n` by the rejoin.
- Colmap.DeleteProjectContent: the "Failed to trash" line printed for an entry that send2trash refuses is not modelled. The refused names are an input.
- FourDGS.ListRepr: Python's `repr` of a list is modelled only for strings that contain no `'` and no `\`. For those, `repr` switches to double quotes or escapes characters, and the model does not. FourDGS.SignalName follows the macOS signal numbering (1 to 31).
