/**
  The filesystem as the bootstrap sees it: each existing directory path mapped to its children's
  names, in the order the directory iterator yields them.
*/
module Storage {
  import opened Wrappers
  import opened Errors
  import opened Config

  type Dirs = map<string, seq<string>>

  /** `path(dir) / name`: a separator is inserted unless `dir` is empty or already ends with one. */
  function Join(dir: string, name: string): (p: string)
    ensures p == dir + name || p == dir + "/" + name
    ensures dir == [] || dir[|dir| - 1] == '/' ==> p == dir + name
    ensures dir != [] && dir[|dir| - 1] != '/' ==> p == dir + "/" + name
  {
    if dir == [] || dir[|dir| - 1] == '/' then dir + name else dir + "/" + name
  }

  /** Iterating a directory yields its children in order; iterating a missing one throws. */
  function Children(fs: Dirs, path: string): (r: Result<seq<string>, Error>)
    ensures r.Success? <==> path in fs
    ensures r.Success? ==> r.value == fs[path]
    ensures r.Failure? ==> r.error == CannotIterate(path)
  {
    if path in fs then Success(fs[path]) else Failure(CannotIterate(path))
  }

  /** The filesystem after both working directories have been made to exist. */
  function Initialised(fs: Dirs): (r: Dirs)
    ensures r.Keys == fs.Keys + {CAR_PATH, TRACK_PATH}
    ensures forall p :: p in fs ==> r[p] == fs[p]
    ensures forall p :: p in r && p !in fs ==> r[p] == []
  {
    var withCars := if CAR_PATH in fs then fs else fs[CAR_PATH := []];
    if TRACK_PATH in withCars then withCars else withCars[TRACK_PATH := []]
  }

  /** Creating the working directories a second time changes nothing. */
  lemma InitialisedIdempotent(fs: Dirs)
    ensures Initialised(Initialised(fs)) == Initialised(fs)
  {
    var once := Initialised(fs);
    assert Initialised(once).Keys == once.Keys;
  }

  /** The mutable filesystem. */
  class FileSystem {
    var dirs: Dirs

    constructor (initial: Dirs)
      ensures dirs == initial
    {
      dirs := initial;
    }

    /** `boost::filesystem::exists(path)` for a directory. */
    function Exists(path: string): bool
      reads this
    {
      path in dirs
    }

    /** `boost::filesystem::create_directories(path)`: afterwards `path` exists, nothing else changes. */
    method CreateDirectories(path: string)
      modifies this
      ensures dirs == if path in old(dirs) then old(dirs) else old(dirs)[path := []]
    {
      if path !in dirs {
        dirs := dirs[path := []];
      }
    }

    /** InitDirectories: create each working directory if it is missing. */
    method InitDirectories()
      modifies this
      ensures dirs == Initialised(old(dirs))
      ensures CAR_PATH in dirs && TRACK_PATH in dirs
      ensures forall p :: p in old(dirs) ==> p in dirs && dirs[p] == old(dirs)[p]
    {
      if !Exists(CAR_PATH) {
        CreateDirectories(CAR_PATH);
      }
      if !Exists(TRACK_PATH) {
        CreateDirectories(TRACK_PATH);
      }
    }
  }
}
