# OpenNFS bootstrap: a verified model

OpenNFS is an engine that reuses the data of installed Need for Speed games. Its entry point,
`src/main.cpp`, starts the engine in four stages:

1. It reads `key=value` options from the command line.
2. It creates the two working directories, the car path and the track path. Their values are
   assumed here to be `./assets/car/` and `./assets/tracks/`.
3. It picks one of three modes: the Vulkan renderer, genetic-algorithm training, or the OpenGL
   rendering loop.
4. In rendering mode it catalogues the installed games under the resource root (assumed here to
   be `../resources/`) and then runs the selection loop. The loop loads the selected track and car, hands them to the renderer, and takes
   the renderer's answer as the next selection. It stops when that selection names the `UNKNOWN`
   edition.

The catalogue step classifies each child of the resource root by substring tests on its name.
- An edition folder (NFS 2 Special Edition, NFS 2, NFS 3 PlayStation, NFS 3 Hot Pursuit, NFS 4 High
  Stakes) is resolved by that edition's layout rule: which sub-folders must exist, which entries
  are tracks and cars, and how those names are rewritten.
- The shared folders `lanes`, `misc` and `sfx` set flags, and all three must be present.
- Any other name is only warned about.

The model has one module per concern:

| module | models |
|---|---|
| `Wrappers` | the `Option` and `Result` types |
| `Config` | the constants of the engine's configuration |
| `Text` | `find`, `rfind` and `replace_extension("")` |
| `Editions` | the edition tags and the folder classifier |
| `Errors` | every fatal condition |
| `Storage` | the filesystem as a map from directory paths to their ordered entries, and `InitDirectories` |
| `Arguments` | `ParseCommandLineArgs` |
| `Layouts` | the per-edition layout rules |
| `Assets` | `PopulateAssets` |
| `Selection` | the selection loop |
| `Bootstrap` | `main`, the constructor's dispatch, `run` and `train` |

Code that changes state in the source is imperative here:
- the parser loop, the catalogue loop and the selection loop are `method`s with loop invariants;
- the per-edition scans are straight-line methods;
- the filesystem is a `class` whose `InitDirectories` modifies it.

Each method is proved equal to a specification function. The properties below are proved about
those functions.

The outside world becomes parameters:
- whether the OpenGL window can be opened is a boolean;
- the renderer is the recorded sequence of selections its sessions return;
- the track loader, the car loader and the training ground are recorded as events in a trace.

## Model

| member | source | states |
|---|---|---|
| `Arguments.ParsedArgs` | src/main.cpp:364-379 | defines the parse as a fold: each token, in order, splits at its first '=' and sets its key over the map built so far; the first malformed token's error ends the fold |
| `Arguments.SplitToken` | src/main.cpp:369-374 | a token splits exactly when it has an '=' with something before the first one; the key is the text before the first '=' and holds no '=', the value is everything after it; otherwise the error is MissingDelimiter (no '=') or MissingKey (empty key) |
| `Arguments.ParseCommandLineArgs` | src/main.cpp:364-379 | the loop computes exactly `ParsedArgs`: each token applied in turn over the map so far, aborting at the first malformed token |
| `Arguments.ParsedArgsStaysFailed` | src/main.cpp:368-376 | once a prefix of the tokens fails, the whole parse fails with that same error |
| `Arguments.ParsedArgsSucceeds` | src/main.cpp:368-376 | parsing succeeds if and only if every token is well formed |
| `Arguments.ParsedArgsFirstError` | src/main.cpp:368-376 | a failed parse reports the error of the first malformed token, and every token before it is well formed |
| `Arguments.ParsedArgsStep` | src/main.cpp:375 | a successful parse is the parse of all but the last token, with the last token's key set to its value |
| `Arguments.KeysStep` | src/main.cpp:372 | the key set of a token list is the key set of all but its last token, plus the last token's key |
| `Arguments.ParsedArgsKeys` | src/main.cpp:364-379 | a successful parse has exactly the tokens' keys, so a key given twice gives one entry |
| `Arguments.ParsedArgsLastWins` | src/main.cpp:375 | every token's key is in the map, and it holds the token's value when no later token repeats the key (the last assignment wins) |
| `Text.ContainsTransitive` | src/main.cpp:206 | substring occurrence is transitive, which is what makes the edition tokens' nesting matter |
| `Text.IndexOf` | src/main.cpp:370 | `find('=')`: none exactly when the character is absent; otherwise the position holds it and no earlier position does |
| `Text.LastIndexOf` | src/main.cpp:217 | the last occurrence: none exactly when the character is absent; otherwise the position holds it and no later position does |
| `Text.StripExtension` | src/main.cpp:217 | Boost.Filesystem v3 `replace_extension("")` gives a prefix of the name; the name is unchanged when it has no '.' or is "." or ".."; otherwise the cut is at the last '.' |
| `Text.StripExtensionOfBackup` | src/main.cpp:237 | only the final extension is removed: "A.TRK.bak" becomes "A.TRK" |
| `Text.StripExtensionOfTrack` | src/main.cpp:256 | "TR00.TRK" becomes "TR00" |
| `Editions.Classify` | src/main.cpp:206-352 | the classification chain never tags a folder with UNKNOWN |
| `Editions.FirstMatchAt` | src/main.cpp:206-352 | one step of the reference first-match classifier over the priority table |
| `Editions.ClassifyIsFirstMatch` | src/main.cpp:206-352 | the else-if chain equals first-match over the ordered table NFS_2_SE, NFS_2, NFS_3_PS1, NFS_3, NFS_4, lanes, misc, sfx |
| `Editions.ClassifyEdition` | src/main.cpp:206-339 | a folder gets an edition's tag if and only if that edition's token occurs in its name and no token earlier in the chain does |
| `Editions.TokenNesting` | src/main.cpp:206-265 | the NFS 2 token occurs inside the NFS 2 Special Edition token, and the NFS 3 token inside the NFS 3 PlayStation token |
| `Editions.SpecificEditionWins` | src/main.cpp:206-265 | a Special Edition folder also matches NFS 2 but is tagged NFS_2_SE; a PlayStation NFS 3 folder (not NFS 2) also matches NFS 3 but is tagged NFS_3_PS1 |
| `Editions.EditionBeforeShared` | src/main.cpp:206-352 | a folder is an edition exactly when its name mentions an edition token; it is lanes, misc or sfx only when it mentions no edition and no earlier shared token; otherwise it is unrecognised |
| `Storage.Join` | src/main.cpp:210 | the edition folder's path is the root joined to its name: plain concatenation when the root is empty or ends in '/', and a '/' between them otherwise |
| `Storage.Children` | src/main.cpp:202 | iterating a directory gives its entries in order; iterating a missing one fails with CannotIterate |
| `Storage.Initialised` | src/main.cpp:184-191 | after start-up both working directories exist, every existing directory keeps its entries, and the created ones are empty |
| `Storage.InitialisedIdempotent` | src/main.cpp:184-191 | creating the working directories again changes nothing |
| `Storage.FileSystem.CreateDirectories` | src/main.cpp:186 | afterwards the path exists; an existing path and every other directory are unchanged |
| `Storage.FileSystem.InitDirectories` | src/main.cpp:184-191 | the new filesystem is `Initialised` of the old: both working directories exist and nothing that existed changes |
| `Layouts.Collect` | src/main.cpp:215-219 | defines one directory loop's findings: the entries its filter admits, renamed, in directory order; it keeps no more names than the directory holds |
| `Layouts.CollectAppend` | src/main.cpp:215-219 | a scan over two runs of entries is the scan of the first followed by the scan of the second |
| `Layouts.CollectMembers` | src/main.cpp:215-219 | a scan yields exactly the renamed entries that its filter admits |
| `Layouts.CollectEverything` | src/main.cpp:273-275 | an unfiltered scan with no renaming yields the directory's entries, in order |
| `Layouts.CollectEverythingPrefixed` | src/main.cpp:289-291 | an unfiltered prefixed scan yields every entry, in order, behind the prefix |
| `Layouts.Steps` | src/main.cpp:206-339 | defines each edition's layout rule as an ordered list of existence checks (each with its own error) and scans (path, filter, renaming, tracks or cars), in source order |
| `Layouts.Layout` | src/main.cpp:206-339 | defines an edition folder's entry: its rule's steps performed in order on an empty entry with the folder's tag, stopping at the first that aborts |
| `Layouts.RunStepsAt` | src/main.cpp:206-339 | running a layout rule from step i performs step i and either aborts with its error or goes on from step i+1 |
| `Layouts.PerformExisting` | src/main.cpp:212-219 | a check or scan of an existing path succeeds; a scan appends that path's filtered and renamed entries |
| `Layouts.PerformMissing` | src/main.cpp:212-213 | a check of a missing path aborts with its error; a scan of a missing path fails with CannotIterate |
| `Layouts.CheckedScan` | src/main.cpp:268-275 | a check of a path that exists, followed by a scan of it, appends what the scan finds |
| `Layouts.CheckedTrackAndCarScans` | src/main.cpp:268-286 | the opening track-check, track-scan, car-check and car-scan of the NFS 3 and NFS 4 rules: a missing track or car folder aborts with its own error; otherwise the rest of the rule runs on the tracks and filtered cars found |
| `Layouts.RunStepsEnd` | src/main.cpp:206-339 | a layout rule with no steps left returns the entry it has built |
| `Layouts.Nfs2SeLayout` | src/main.cpp:206-226 | NFS 2 SE: a missing track or car folder aborts, track folder first; tracks are the track folder's `.TRK` entries without their extension; there are no cars |
| `Layouts.Nfs2Layout` | src/main.cpp:227-250 | NFS 2: a missing track or car folder aborts, track folder first; tracks are the `.TRK` entries and cars the `.GEO` entries, each without its extension |
| `Layouts.Nfs3Ps1Layout` | src/main.cpp:251-264 | NFS 3 PS1: the edition folder itself is scanned twice, for `.TRK` tracks and `.GEO` cars, each without its extension; nothing else is required |
| `Layouts.Nfs3TrafficScans` | src/main.cpp:288-298 | the NFS 3 traffic scans: a missing `traffic/` or `traffic/pursuit/` fails with CannotIterate; otherwise every traffic entry behind "traffic/", then the pursuit entries lacking "PURSUIT" behind "traffic/pursuit/" |
| `Layouts.Nfs3Entry` | src/main.cpp:265-298 | defines the NFS 3 branch directly: missing track folder, then missing car folder, then missing `traffic/` or `traffic/pursuit/` fail in that order; otherwise the track entries and the three car scans, concatenated |
| `Layouts.Nfs3Layout` | src/main.cpp:265-298 | NFS 3: the step table's rule equals the direct statement: track and car folders required, every track entry kept as is, cars lacking "traffic", then all traffic cars and the non-"PURSUIT" pursuit cars, prefixed |
| `Layouts.Nfs4TrafficScans` | src/main.cpp:322-339 | the NFS 4 scans of `TRAFFIC/` (lacking both "CHOPPERS" and "PURSUIT"), then `TRAFFIC/CHOPPERS/` and `TRAFFIC/PURSUIT/` (everything), each behind its own prefix; a missing one fails with CannotIterate |
| `Layouts.Nfs4Entry` | src/main.cpp:299-339 | defines the NFS 4 branch directly: missing track folder, car folder, `TRAFFIC/`, `TRAFFIC/CHOPPERS/` or `TRAFFIC/PURSUIT/` fail in that order; otherwise the track entries and the four car scans, concatenated |
| `Layouts.Nfs4Layout` | src/main.cpp:299-339 | NFS 4: the step table's rule equals the direct statement: track and car folders required, every track entry kept, cars lacking "TRAFFIC", then the three traffic scans, prefixed |
| `Layouts.ScanDir` | src/main.cpp:215-219 | one directory loop: it succeeds exactly when the path exists; the result is the filtered, renamed entries in order; otherwise it fails with CannotIterate |
| `Layouts.ResolveNfs2Se` | src/main.cpp:206-226 | the straight-line NFS 2 SE code computes exactly the edition's layout rule |
| `Layouts.ResolveNfs2` | src/main.cpp:227-250 | the straight-line NFS 2 code computes exactly the edition's layout rule |
| `Layouts.ResolveNfs3Ps1` | src/main.cpp:251-264 | the straight-line NFS 3 PS1 code computes exactly the edition's layout rule |
| `Layouts.ResolveNfs3` | src/main.cpp:265-298 | the straight-line NFS 3 code computes exactly the result that `Nfs3Layout` proves equal to the rule |
| `Layouts.ResolveNfs4` | src/main.cpp:299-339 | the straight-line NFS 4 code computes exactly the result that `Nfs4Layout` proves equal to the rule |
| `Layouts.ResolveLayout` | src/main.cpp:206-339 | for every real edition tag the edition's code computes exactly `Layout`, the step-table rule |
| `Assets.Visit` | src/main.cpp:203-353 | defines one iteration of the root loop: an edition folder appends its layout or aborts with the layout's error; lanes, misc and sfx set their flags; anything else changes nothing |
| `Assets.Discover` | src/main.cpp:202-354 | defines the root loop: the entries visited in order from nothing found, stopping at the first failure |
| `Assets.Catalog` | src/main.cpp:193-361 | defines PopulateAssets's result: the root's entries, the loop over them, then the lanes, misc and sfx checks in that order |
| `Assets.EditionFolders` | src/main.cpp:353 | the edition folders among the root's entries, in order, are no more than the entries |
| `Assets.DiscoverStep` | src/main.cpp:202-354 | one more iteration of the root loop: a failure so far stays, otherwise the next entry is visited |
| `Assets.DiscoverStaysFailed` | src/main.cpp:202-354 | once an edition folder aborts, the whole loop ends with that error |
| `Assets.RunStepsKeepsTag` | src/main.cpp:203-207 | a layout rule never changes the tag of the entry it builds |
| `Assets.VisitSucceeds` | src/main.cpp:202-354 | one iteration succeeds exactly when the entry is not an edition folder whose layout aborts |
| `Assets.VisitEntries` | src/main.cpp:353 | a successful iteration appends the resolved entry for an edition folder and leaves the entries alone otherwise |
| `Assets.VisitFails` | src/main.cpp:212-224 | a failed iteration is an edition folder whose layout aborts, with the layout's error |
| `Assets.AllResolveStep` | src/main.cpp:202-354 | all entries resolve exactly when all but the last do and the last does |
| `Assets.DiscoverSucceeds` | src/main.cpp:202-354 | the root loop succeeds if and only if every edition folder's layout succeeds |
| `Assets.DiscoverEntries` | src/main.cpp:353 | a successful loop records one entry per edition folder, in root order; each carries its folder's tag and is that folder's resolved layout |
| `Assets.DiscoverFirstFailure` | src/main.cpp:202-354 | a failed loop reports the error of the first edition folder whose layout aborts; every entry before it resolved |
| `Assets.PresentStep` | src/main.cpp:340-348 | a folder kind is present among the entries exactly when it is among all but the last, or the last entry has it |
| `Assets.VisitFlag` | src/main.cpp:340-348 | an iteration sets the lanes, misc or sfx flag exactly when it was set or the entry has that kind |
| `Assets.DiscoverFlags` | src/main.cpp:198-200 | after the loop each shared-folder flag is set if and only if some entry of that kind is in the root |
| `Assets.Recognised` | src/main.cpp:349-351 | the entries with a meaning for the loop are no more than all the entries |
| `Assets.DiscoverIgnoresUnrecognised` | src/main.cpp:349-351 | unrecognised entries are only warned about: removing them from the root changes nothing |
| `Assets.CatalogOutcome` | src/main.cpp:193-361 | a missing root fails with CannotIterate; otherwise success holds exactly when every edition folder resolves and lanes, misc and sfx are all present; a missing shared folder is reported in the order lanes, misc, sfx |
| `Assets.CatalogEntries` | src/main.cpp:353-360 | a successful catalogue needs an existing root, and holds one entry per edition folder, in root order, each its folder's resolved layout |
| `Assets.PopulateAssets` | src/main.cpp:193-361 | the loop computes exactly `Catalog`: the root's entries visited in order, then the three shared-folder checks |
| `Selection.InitialSelection` | src/main.cpp:62-66 | the first selection is from NFS 3; the car and the track come from `car=` and `track=`, or default to "diab" and "trk001" |
| `Selection.Trace` | src/main.cpp:69-81 | defines the calls of consecutive sessions: for each selection in turn, its track load, its car load and its render |
| `Selection.Sessions` | src/main.cpp:69-81 | the number of sessions is less than the number of recorded selections |
| `Selection.SessionsStopAtUnknown` | src/main.cpp:69 | every selection before the session count has a known track tag; when the count stops early, it stops at an UNKNOWN track tag |
| `Selection.TraceShape` | src/main.cpp:72-80 | each session makes exactly three calls: the track load, the car load, the render, with that session's selection |
| `Selection.TraceLoadsListedTracks` | src/main.cpp:72 | every track load is of the track tag of a selection the loop ran |
| `Selection.NoUnknownTrackLoaded` | src/main.cpp:69-72 | the loop never loads a track whose tag is UNKNOWN |
| `Selection.SelectionLoop` | src/main.cpp:69-81 | the while loop runs `Sessions` sessions and makes exactly their calls, and it reports whether it stopped on an UNKNOWN track tag |
| `Bootstrap.Index` | src/main.cpp:38-45 | `operator[]` returns the stored value, or inserts and returns the empty string, and leaves every other entry alone |
| `Bootstrap.Dispatch` | src/main.cpp:38-49 | defines the constructor's choice: `renderer` looked up first, and `mode` only when it is not Vulkan, each lookup inserting an empty value when absent |
| `Bootstrap.DispatchChoice` | src/main.cpp:38-49 | the Vulkan renderer is chosen exactly when `renderer` is "vulkan" or "vk", whatever `mode` says; training exactly when it is not and `mode` is "train"; rendering otherwise; an absent key reads as empty |
| `Bootstrap.DispatchKeys` | src/main.cpp:38-45 | the lookups add only `renderer` and, unless Vulkan was chosen, `mode`, with empty values; every given setting is kept |
| `Bootstrap.DispatchKeepsSelection` | src/main.cpp:38-66 | the lookups do not change the car and track that rendering starts from |
| `Bootstrap.Run` | src/main.cpp:52-85 | `run()` fails if the window cannot be opened, or with the catalogue's error if the catalogue fails; otherwise its trace is the selection loop's from the command-line selection, and it succeeds once a selection names UNKNOWN |
| `Bootstrap.Train` | src/main.cpp:87-107 | `train()` fails if the window cannot be opened; otherwise it loads track "trk008" and car "diab" of NFS 3 and runs one training session |
| `Bootstrap.Launch` | src/main.cpp:34-50 | `main`: a malformed option ends the process uncaught before any directory is touched; otherwise the working directories are created and the chosen mode's outcome follows: Vulkan fails, training is `Train`, rendering is `Run` on the looked-up parameters and the initialised disk |

## Left out

- The OpenGL window (`InitOpenGL`, GLFW, GLEW): only whether it opens is modelled, as the `graphicsReady` parameter. `glfwTerminate` is not modelled.
- The Vulkan renderer in builds with `VULKAN_BUILD`: only the build without it is modelled, where the request fails with NoVulkanSupport.
- `TrackLoader::LoadTrack`, `CarLoader::LoadCar`, `Renderer` and `TrainingGround` are collaborators outside this model. Their calls are recorded as trace events. The renderer is the recorded sequence of selections it returns. What the renderer reads from the catalogue is not recorded.
- `Selection.SelectionLoop`: when the recorded selections run out before an UNKNOWN track tag, the loop stops and `Run` reports `StillRendering`. The real loop would go on asking the renderer.
- Logging (`LOG`) and the "Unknown folder" warning are left out, because they do not change behaviour.
- `std::stoi` on `xres`/`yres` is left out, because the window size only reaches `InitOpenGL`, which is a parameter here. A malformed or out-of-range value makes `std::stoi` throw a `std::logic_error`, which `main`'s handler for `std::runtime_error` does not catch, so the process ends uncaught. That termination is not modelled. The defaults 1920 and 1080 are recorded in `Config`.
- The values of `ToString(tag)`, `RESOURCE_PATH`, `CAR_PATH`, `TRACK_PATH` and the per-edition sub-paths: their definitions are not part of this model, so the values in `Config` are assumed. The proofs rely only on the NFS 2 token occurring in the NFS 2 SE token, and the NFS 3 token in the NFS 3 PS1 token.
- The `ASSERT` macro is not part of this model. It is taken to throw a runtime error that ends everything after it: an `Error` value in a `Result`.
- `ParseCommandLineArgs` runs before `main`'s try block, so its failure is modelled as `Terminated`, not as `ExitFailure`.
- `Text.StripExtension` follows Boost.Filesystem version 3, where the extension of a name starting with '.' (such as ".TRK") is the whole name, so the name becomes empty. Version 4 treats such a name as having no extension; that behaviour is not modelled.
- Paths are compared as exact strings. `boost::filesystem` path normalisation (repeated or trailing separators, `.` and `..`) is not modelled; the edition sub-paths are appended as text.
- Regular files are not told apart from directories. A directory is any key of the filesystem map, and its entries are names, whether or not they are directories themselves. The code iterates every entry of the resource root; no edition folder is required to be a directory, so a file with an edition token in its name fails when its layout is resolved.
- `Storage.FileSystem.CreateDirectories`: creating missing parent directories is not modelled. A failure to create, such as a permission error, is not modelled either.
- Iteration order is that of the map's entry lists. Boost leaves the order unspecified, so any fixed order is allowed.

