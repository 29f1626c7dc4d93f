/**
  The process entry and the OpenNFS constructor: parse the command line, create the working
  directories, then pick the Vulkan renderer, training mode or rendering mode from the
  parameters (src/main.cpp, main, the OpenNFS constructor, run and train).
*/
module Bootstrap {
  import opened Wrappers
  import opened Editions
  import opened Errors
  import opened Storage
  import opened Arguments
  import opened Layouts
  import opened Assets
  import opened Selection
  import opened Config

  datatype Mode = VulkanRenderer | Training | Rendering

  /** How the process ends. */
  datatype Status =
    | ExitSuccess                 // EXIT_SUCCESS after the constructor returns
    | ExitFailure(error: Error)   // a failure caught by main, EXIT_FAILURE
    | Terminated(error: Error)    // a command-line failure, raised before main's try block
    | StillRendering              // the recorded renders ran out before an UNKNOWN track tag

  /**
    `parameters[key]` on a `std::map`: the stored value, and the map afterwards, in which a
    missing key has been inserted with the empty string.
  */
  function Index(parameters: Parameters, key: string): (r: (string, Parameters))
    ensures r.1.Keys == parameters.Keys + {key}
    ensures forall k | k in parameters :: r.1[k] == parameters[k]
    ensures r.0 == r.1[key]
    ensures key !in parameters ==> r.0 == ""
  {
    if key in parameters then (parameters[key], parameters) else ("", parameters[key := ""])
  }

  /** The constructor's choice of mode, with the parameter map its two lookups leave behind. */
  function Dispatch(parameters: Parameters): (Mode, Parameters) {
    var (renderer, afterRenderer) := Index(parameters, "renderer");
    if renderer == "vulkan" || renderer == "vk" then (VulkanRenderer, afterRenderer)
    else
      var (mode, afterMode) := Index(afterRenderer, "mode");
      (if mode == "train" then Training else Rendering, afterMode)
  }

  /** The value a lookup sees: the stored one, or the empty string that operator[] inserts. */
  function Setting(parameters: Parameters, key: string): string {
    if key in parameters then parameters[key] else ""
  }

  /**
    The Vulkan renderer wins whenever `renderer` is `vulkan` or `vk`, whatever `mode` says; training
    needs `mode=train`; everything else renders. An absent key reads as the empty string.
  */
  lemma DispatchChoice(parameters: Parameters)
    ensures var renderer, mode := Setting(parameters, "renderer"), Setting(parameters, "mode");
            var vulkan := renderer == "vulkan" || renderer == "vk";
            (Dispatch(parameters).0 == VulkanRenderer <==> vulkan) &&
            (Dispatch(parameters).0 == Training <==> !vulkan && mode == "train") &&
            (Dispatch(parameters).0 == Rendering <==> !vulkan && mode != "train")
  {
  }

  /**
    The lookups only ever add `renderer` and `mode` with empty values (`mode` only when the
    renderer is not Vulkan); every given setting, `car` and `track` among them, is kept.
  */
  lemma DispatchKeys(parameters: Parameters)
    ensures var after := Dispatch(parameters).1;
            after.Keys == parameters.Keys + {"renderer"} + (if Dispatch(parameters).0 == VulkanRenderer then {} else {"mode"}) &&
            (forall k | k in parameters :: after[k] == parameters[k]) &&
            (forall k | k in after && k !in parameters :: after[k] == "")
  {
  }

  /** The lookups do not change which car and track rendering starts from. */
  lemma DispatchKeepsSelection(parameters: Parameters)
    ensures InitialSelection(Dispatch(parameters).1) == InitialSelection(parameters)
  {
    DispatchKeys(parameters);
  }

  /** What `run()` may end in: the outcome of each of its stages, from window to selection loop. */
  predicate RunEnds(parameters: Parameters, dirs: Dirs, graphicsReady: bool, renders: seq<AssetData>,
                    status: Status, trace: seq<Event>) {
    if !graphicsReady then status == ExitFailure(GraphicsUnavailable) && trace == []
    else
      var catalog := Catalog(dirs, RESOURCE_PATH);
      if catalog.Failure? then status == ExitFailure(catalog.error) && trace == []
      else
        var sels := [InitialSelection(parameters)] + renders;
        var n := Sessions(sels);
        trace == Trace(sels[..n]) &&
        status == if sels[n].trackTag == UNKNOWN then ExitSuccess else StillRendering
  }

  /**
    `run()`: open the window (`graphicsReady` says whether InitOpenGL succeeds), build the catalog
    from the resource root, then run the selection loop from the command line's selection.
  */
  method Run(parameters: Parameters, dirs: Dirs, graphicsReady: bool, renders: seq<AssetData>)
      returns (status: Status, trace: seq<Event>)
    ensures RunEnds(parameters, dirs, graphicsReady, renders, status, trace)
  {
    if !graphicsReady {
      return ExitFailure(GraphicsUnavailable), [];
    }
    var installedNFS := PopulateAssets(dirs, RESOURCE_PATH);
    if installedNFS.Failure? {
      return ExitFailure(installedNFS.error), [];
    }
    var loadedAssets := InitialSelection(parameters);
    var sessions, finished;
    trace, sessions, finished := SelectionLoop(loadedAssets, renders);
    status := if finished then ExitSuccess else StillRendering;
  }

  /** `train()`: open the window, then one load of the fixed training selection and one training session. */
  method Train(graphicsReady: bool) returns (status: Status, trace: seq<Event>)
    ensures !graphicsReady ==> status == ExitFailure(GraphicsUnavailable) && trace == []
    ensures graphicsReady ==> status == ExitSuccess &&
                              trace == [LoadTrack(NFS_3, "trk008"), LoadCar(NFS_3, "diab"), TrainSession(TrainingSelection)]
  {
    if !graphicsReady {
      return ExitFailure(GraphicsUnavailable), [];
    }
    var trainingAssets := TrainingSelection;
    trace := [LoadTrack(trainingAssets.trackTag, trainingAssets.track),
              LoadCar(trainingAssets.carTag, trainingAssets.car),
              TrainSession(trainingAssets)];
    status := ExitSuccess;
  }

  /**
    `main`: parse the command line; then, inside the try block, the constructor creates the working
    directories and dispatches. A failure inside the try block ends as EXIT_FAILURE.
  */
  method Launch(args: seq<string>, disk: FileSystem, graphicsReady: bool, renders: seq<AssetData>)
      returns (status: Status, trace: seq<Event>)
    modifies disk
    ensures ParsedArgs(args).Failure? ==>
              status == Terminated(ParsedArgs(args).error) && trace == [] && disk.dirs == old(disk.dirs)
    ensures ParsedArgs(args).Success? ==>
              var dispatched := Dispatch(ParsedArgs(args).value);
              disk.dirs == Initialised(old(disk.dirs)) &&
              (dispatched.0 == VulkanRenderer ==> status == ExitFailure(NoVulkanSupport) && trace == []) &&
              (dispatched.0 == Training ==>
                 status == (if graphicsReady then ExitSuccess else ExitFailure(GraphicsUnavailable)) &&
                 trace == (if graphicsReady then [LoadTrack(NFS_3, "trk008"), LoadCar(NFS_3, "diab"), TrainSession(TrainingSelection)] else [])) &&
              (dispatched.0 == Rendering ==>
                 RunEnds(dispatched.1, disk.dirs, graphicsReady, renders, status, trace))
  {
    var parameters := ParseCommandLineArgs(args);
    if parameters.Failure? {
      return Terminated(parameters.error), [];
    }
    disk.InitDirectories();
    var (mode, looked) := Dispatch(parameters.value);
    match mode {
      case VulkanRenderer =>
        status, trace := ExitFailure(NoVulkanSupport), [];
      case Training =>
        status, trace := Train(graphicsReady);
      case Rendering =>
        status, trace := Run(looked, disk.dirs, graphicsReady, renders);
    }
  }
}
