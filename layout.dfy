/**
  The layout resolver: each edition's fixed sub-paths, filters and prefixes, turned into the ordered
  track and car lists of one catalog entry (src/main.cpp, the edition branches of PopulateAssets).
*/
module Layouts {
  import opened Wrappers
  import opened Text
  import opened Editions
  import opened Errors
  import opened Storage
  import opened Config

  /** One installed edition: its tag and the track and car identifiers found for it, in discovery order. */
  datatype NeedForSpeed = NeedForSpeed(tag: Tag, tracks: seq<string>, cars: seq<string>)

  /** Which directory entries a scan keeps; every test is a substring test on the entry's name. */
  datatype Filter =
    | All
    | Containing(token: string)
    | Lacking(token: string)
    | LackingEither(first: string, second: string)

  predicate Admits(filter: Filter, name: string) {
    match filter
    case All => true
    case Containing(t) => Contains(name, t)
    case Lacking(t) => !Contains(name, t)
    case LackingEither(a, b) => !Contains(name, a) && !Contains(name, b)
  }

  /** How a kept entry's name becomes an identifier. */
  datatype Rename = AsIs | StripExt | Prefixed(prefix: string)

  function Renamed(rename: Rename, name: string): string {
    match rename
    case AsIs => name
    case StripExt => StripExtension(name)
    case Prefixed(p) => p + name
  }

  /** The identifiers one scan over `names` appends, in the order of `names`; a scan keeps no more entries than it reads. */
  function Collect(names: seq<string>, filter: Filter, rename: Rename): (r: seq<string>)
    ensures |r| <= |names|
    decreases |names|
  {
    if names == [] then []
    else
      var last := names[|names| - 1];
      Collect(names[..|names| - 1], filter, rename) + if Admits(filter, last) then [Renamed(rename, last)] else []
  }

  /** A scan over two runs of entries is the scan of the first followed by the scan of the second. */
  lemma {:induction false} CollectAppend(a: seq<string>, b: seq<string>, filter: Filter, rename: Rename)
    ensures Collect(a + b, filter, rename) == Collect(a, filter, rename) + Collect(b, filter, rename)
    decreases |b|
  {
    if b == [] {
      assert a + b == a;
    } else {
      var n := |b| - 1;
      assert (a + b)[..|a + b| - 1] == a + b[..n];
      assert (a + b)[|a + b| - 1] == b[n];
      CollectAppend(a, b[..n], filter, rename);
    }
  }

  /** A scan yields exactly the renamed entries the filter admits. */
  lemma {:induction false} CollectMembers(names: seq<string>, filter: Filter, rename: Rename, x: string)
    ensures x in Collect(names, filter, rename) <==>
              exists i | 0 <= i < |names| :: Admits(filter, names[i]) && x == Renamed(rename, names[i])
    decreases |names|
  {
    if names != [] {
      var n := |names| - 1;
      var init := names[..n];
      CollectMembers(init, filter, rename, x);
      assert forall i | 0 <= i < n :: init[i] == names[i];
      if x in Collect(names, filter, rename) && x !in Collect(init, filter, rename) {
        assert Admits(filter, names[n]) && x == Renamed(rename, names[n]);
      }
    }
  }

  /** An unfiltered scan without renaming yields the directory's entries themselves, in order. */
  lemma {:induction false} CollectEverything(names: seq<string>)
    ensures Collect(names, All, AsIs) == names
    decreases |names|
  {
    if names != [] {
      var n := |names| - 1;
      CollectEverything(names[..n]);
      assert names == names[..n] + [names[n]];
    }
  }

  /** An unfiltered prefixed scan yields every entry, in order, behind the prefix. */
  lemma {:induction false} CollectEverythingPrefixed(names: seq<string>, prefix: string)
    ensures |Collect(names, All, Prefixed(prefix))| == |names|
    ensures forall i | 0 <= i < |names| :: Collect(names, All, Prefixed(prefix))[i] == prefix + names[i]
    decreases |names|
  {
    if names != [] {
      var n := |names| - 1;
      CollectEverythingPrefixed(names[..n], prefix);
      assert forall i | 0 <= i < n :: names[..n][i] == names[i];
    }
  }

  /** Where a scan's identifiers go. */
  datatype Target = Tracks | Cars

  /** One action of an edition's layout rule. */
  datatype Step =
    | Require(path: string, missing: Error)                              // abort unless `path` exists
    | Scan(path: string, filter: Filter, rename: Rename, into: Target)   // iterate `path`, append what is kept

  /**
    The layout rule of each edition, in the order PopulateAssets performs it; `dir` is the
    edition folder's path.
  */
  function Steps(tag: Tag, dir: string): seq<Step> {
    match tag
    case NFS_2_SE =>
      var track, car := dir + NFS_2_SE_TRACK_PATH, dir + NFS_2_SE_CAR_PATH;
      [Require(track, MissingTrackFolder(NFS_2_SE, track)),
       Scan(track, Containing(".TRK"), StripExt, Tracks),
       Require(car, MissingCarFolder(NFS_2_SE, car))]
    case NFS_2 =>
      var track, car := dir + NFS_2_TRACK_PATH, dir + NFS_2_CAR_PATH;
      [Require(track, MissingTrackFolder(NFS_2, track)),
       Scan(track, Containing(".TRK"), StripExt, Tracks),
       Require(car, MissingCarFolder(NFS_2, car)),
       Scan(car, Containing(".GEO"), StripExt, Cars)]
    case NFS_3_PS1 =>
      [Scan(dir, Containing(".TRK"), StripExt, Tracks),
       Scan(dir, Containing(".GEO"), StripExt, Cars)]
    case NFS_3 =>
      var track, car := dir + NFS_3_TRACK_PATH, dir + NFS_3_CAR_PATH;
      [Require(track, MissingTrackFolder(NFS_3, track)),
       Scan(track, All, AsIs, Tracks),
       Require(car, MissingCarFolder(NFS_3, car)),
       Scan(car, Lacking("traffic"), AsIs, Cars),
       Scan(car + "traffic/", All, Prefixed("traffic/"), Cars),
       Scan(car + "traffic/" + "pursuit/", Lacking("PURSUIT"), Prefixed("traffic/pursuit/"), Cars)]
    case NFS_4 =>
      var track, car := dir + NFS_4_TRACK_PATH, dir + NFS_4_CAR_PATH;
      [Require(track, MissingTrackFolder(NFS_4, track)),
       Scan(track, All, AsIs, Tracks),
       Require(car, MissingCarFolder(NFS_4, car)),
       Scan(car, Lacking("TRAFFIC"), AsIs, Cars),
       Scan(car + "TRAFFIC/", LackingEither("CHOPPERS", "PURSUIT"), Prefixed("TRAFFIC/"), Cars),
       Scan(car + "TRAFFIC/" + "CHOPPERS/", All, Prefixed("TRAFFIC/CHOPPERS/"), Cars),
       Scan(car + "TRAFFIC/" + "PURSUIT/", All, Prefixed("TRAFFIC/PURSUIT/"), Cars)]
    case UNKNOWN => []
  }

  /** The effect of one step on the entry being built. */
  function Perform(fs: Dirs, step: Step, entry: NeedForSpeed): Result<NeedForSpeed, Error> {
    match step
    case Require(path, missing) =>
      if path in fs then Success(entry) else Failure(missing)
    case Scan(path, filter, rename, into) =>
      var names :- Children(fs, path);
      Success(Appended(entry, into, Collect(names, filter, rename)))
  }

  /** The entry with `found` added at the end of its track or car list. */
  function Appended(entry: NeedForSpeed, into: Target, found: seq<string>): NeedForSpeed {
    if into == Tracks then entry.(tracks := entry.tracks + found) else entry.(cars := entry.cars + found)
  }

  /** The steps performed in order, stopping at the first that aborts. */
  function RunSteps(fs: Dirs, steps: seq<Step>, entry: NeedForSpeed): Result<NeedForSpeed, Error>
    decreases |steps|
  {
    if steps == [] then Success(entry)
    else
      var next :- Perform(fs, steps[0], entry);
      RunSteps(fs, steps[1..], next)
  }

  /** The catalog entry an edition folder yields, or the abort its layout rule hits. */
  function Layout(fs: Dirs, dir: string, tag: Tag): Result<NeedForSpeed, Error> {
    RunSteps(fs, Steps(tag, dir), NeedForSpeed(tag, [], []))
  }

  /** Running the steps from position `i` begins with step `i`. */
  lemma RunStepsAt(fs: Dirs, steps: seq<Step>, i: nat, entry: NeedForSpeed)
    requires i < |steps|
    ensures var r := Perform(fs, steps[i], entry);
            RunSteps(fs, steps[i..], entry) == if r.Failure? then Failure(r.error) else RunSteps(fs, steps[i + 1..], r.value)
  {
    assert steps[i..][1..] == steps[i + 1..];
  }

  /** A step whose path exists succeeds: a check passes, a scan appends what it keeps. */
  lemma PerformExisting(fs: Dirs, step: Step, entry: NeedForSpeed)
    requires step.path in fs
    ensures Perform(fs, step, entry) ==
              if step.Require? then Success(entry)
              else Success(Appended(entry, step.into, Collect(fs[step.path], step.filter, step.rename)))
  {
  }

  /** A step whose path is missing aborts: a check with its own error, a scan as a failed iteration. */
  lemma PerformMissing(fs: Dirs, step: Step, entry: NeedForSpeed)
    requires step.path !in fs
    ensures Perform(fs, step, entry) == Failure(if step.Require? then step.missing else CannotIterate(step.path))
  {
  }

  /** A check that passes followed by a scan of the same path: the scan's findings are appended. */
  lemma CheckedScan(fs: Dirs, steps: seq<Step>, i: nat, entry: NeedForSpeed)
    requires i + 1 < |steps|
    requires steps[i].Require? && steps[i + 1].Scan? && steps[i + 1].path == steps[i].path
    requires steps[i].path in fs
    ensures var scan := steps[i + 1];
            RunSteps(fs, steps[i..], entry) ==
              RunSteps(fs, steps[i + 2..], Appended(entry, scan.into, Collect(fs[scan.path], scan.filter, scan.rename)))
  {
    RunStepsAt(fs, steps, i, entry);
    PerformExisting(fs, steps[i], entry);
    RunStepsAt(fs, steps, i + 1, entry);
    PerformExisting(fs, steps[i + 1], entry);
  }

  /**
    The opening of the NFS 3 and NFS 4 rules: check the track path, take all its entries as
    tracks, check the car path, take its entries that `carFilter` admits as cars.
  */
  lemma CheckedTrackAndCarScans(fs: Dirs, steps: seq<Step>, tag: Tag, track: string, car: string, carFilter: Filter)
    requires |steps| >= 4
    requires steps[0] == Require(track, MissingTrackFolder(tag, track)) && steps[1] == Scan(track, All, AsIs, Tracks)
    requires steps[2] == Require(car, MissingCarFolder(tag, car)) && steps[3] == Scan(car, carFilter, AsIs, Cars)
    ensures RunSteps(fs, steps, NeedForSpeed(tag, [], [])) ==
              if track !in fs then Failure(MissingTrackFolder(tag, track))
              else if car !in fs then Failure(MissingCarFolder(tag, car))
              else RunSteps(fs, steps[4..], NeedForSpeed(tag, fs[track], Collect(fs[car], carFilter, AsIs)))
  {
    var e0 := NeedForSpeed(tag, [], []);
    assert steps[0..] == steps;
    RunStepsAt(fs, steps, 0, e0);
    if track !in fs {
      PerformMissing(fs, steps[0], e0);
      return;
    }
    var e1 := NeedForSpeed(tag, fs[track], []);
    assert RunSteps(fs, steps, e0) == RunSteps(fs, steps[2..], e1) by {
      CheckedScan(fs, steps, 0, e0);
      CollectEverything(fs[track]);
      assert Appended(e0, Tracks, fs[track]) == e1;
    }
    RunStepsAt(fs, steps, 2, e1);
    if car !in fs {
      PerformMissing(fs, steps[2], e1);
      return;
    }
    var e3 := NeedForSpeed(tag, fs[track], Collect(fs[car], carFilter, AsIs));
    assert RunSteps(fs, steps[2..], e1) == RunSteps(fs, steps[4..], e3) by {
      CheckedScan(fs, steps, 2, e1);
      assert Appended(e1, Cars, Collect(fs[car], carFilter, AsIs)) == e3;
    }
  }

  /** Nothing is left to run. */
  lemma RunStepsEnd(fs: Dirs, steps: seq<Step>, entry: NeedForSpeed)
    ensures RunSteps(fs, steps[|steps|..], entry) == Success(entry)
  {
    assert steps[|steps|..] == [];
  }

  /**
    NFS 2 Special Edition: both sub-paths must exist (the car path too, though nothing is read
    from it); tracks are the `.TRK` entries of the track path with their last extension removed;
    there are no cars.
  */
  lemma Nfs2SeLayout(fs: Dirs, dir: string)
    ensures var track, car := dir + NFS_2_SE_TRACK_PATH, dir + NFS_2_SE_CAR_PATH;
            Layout(fs, dir, NFS_2_SE) ==
              if track !in fs then Failure(MissingTrackFolder(NFS_2_SE, track))
              else if car !in fs then Failure(MissingCarFolder(NFS_2_SE, car))
              else Success(NeedForSpeed(NFS_2_SE, Collect(fs[track], Containing(".TRK"), StripExt), []))
  {
    var s := Steps(NFS_2_SE, dir);
    var e := NeedForSpeed(NFS_2_SE, [], []);
    assert s[0..] == s && |s| == 3;
    RunStepsAt(fs, s, 0, e);
    if s[0].path !in fs {
      PerformMissing(fs, s[0], e);
      return;
    }
    PerformExisting(fs, s[0], e);
    e := Perform(fs, s[0], e).value;
    RunStepsAt(fs, s, 1, e);
    PerformExisting(fs, s[1], e);
    e := Perform(fs, s[1], e).value;
    RunStepsAt(fs, s, 2, e);
    if s[2].path !in fs {
      PerformMissing(fs, s[2], e);
      return;
    }
    PerformExisting(fs, s[2], e);
    e := Perform(fs, s[2], e).value;
    RunStepsEnd(fs, s, e);
    assert e.tracks == Collect(fs[dir + NFS_2_SE_TRACK_PATH], Containing(".TRK"), StripExt) && e.cars == [];
  }

  /**
    NFS 2: both sub-paths must exist; tracks are the `.TRK` entries of the track path and cars the
    `.GEO` entries of the car path, each with its last extension removed, in scan order.
  */
  lemma Nfs2Layout(fs: Dirs, dir: string)
    ensures var track, car := dir + NFS_2_TRACK_PATH, dir + NFS_2_CAR_PATH;
            Layout(fs, dir, NFS_2) ==
              if track !in fs then Failure(MissingTrackFolder(NFS_2, track))
              else if car !in fs then Failure(MissingCarFolder(NFS_2, car))
              else Success(NeedForSpeed(NFS_2, Collect(fs[track], Containing(".TRK"), StripExt),
                                                Collect(fs[car], Containing(".GEO"), StripExt)))
  {
    var s := Steps(NFS_2, dir);
    var e := NeedForSpeed(NFS_2, [], []);
    assert s[0..] == s && |s| == 4;
    RunStepsAt(fs, s, 0, e);
    if s[0].path !in fs {
      PerformMissing(fs, s[0], e);
      return;
    }
    PerformExisting(fs, s[0], e);
    e := Perform(fs, s[0], e).value;
    RunStepsAt(fs, s, 1, e);
    PerformExisting(fs, s[1], e);
    e := Perform(fs, s[1], e).value;
    RunStepsAt(fs, s, 2, e);
    if s[2].path !in fs {
      PerformMissing(fs, s[2], e);
      return;
    }
    PerformExisting(fs, s[2], e);
    e := Perform(fs, s[2], e).value;
    RunStepsAt(fs, s, 3, e);
    PerformExisting(fs, s[3], e);
    e := Perform(fs, s[3], e).value;
    RunStepsEnd(fs, s, e);
    assert e.tracks == Collect(fs[dir + NFS_2_TRACK_PATH], Containing(".TRK"), StripExt);
    assert e.cars == Collect(fs[dir + NFS_2_CAR_PATH], Containing(".GEO"), StripExt);
  }

  /**
    NFS 3 on PlayStation: both lists come from the edition folder itself, with no existence check
    beyond the iteration: `.TRK` entries as tracks, `.GEO` entries as cars, extensions removed.
  */
  lemma Nfs3Ps1Layout(fs: Dirs, dir: string)
    ensures Layout(fs, dir, NFS_3_PS1) ==
              if dir !in fs then Failure(CannotIterate(dir))
              else Success(NeedForSpeed(NFS_3_PS1, Collect(fs[dir], Containing(".TRK"), StripExt),
                                                   Collect(fs[dir], Containing(".GEO"), StripExt)))
  {
    var s := Steps(NFS_3_PS1, dir);
    var e := NeedForSpeed(NFS_3_PS1, [], []);
    assert s[0..] == s && |s| == 2;
    RunStepsAt(fs, s, 0, e);
    if s[0].path !in fs {
      PerformMissing(fs, s[0], e);
      return;
    }
    PerformExisting(fs, s[0], e);
    e := Perform(fs, s[0], e).value;
    RunStepsAt(fs, s, 1, e);
    PerformExisting(fs, s[1], e);
    e := Perform(fs, s[1], e).value;
    RunStepsEnd(fs, s, e);
    assert e.tracks == Collect(fs[dir], Containing(".TRK"), StripExt);
    assert e.cars == Collect(fs[dir], Containing(".GEO"), StripExt);
  }

  /**
    NFS 3: tracks are every entry of the track path, unchanged. Cars are, in this order, the
    car-path entries whose name lacks "traffic", every entry of `traffic/` behind the prefix
    "traffic/", and the entries of `traffic/pursuit/` lacking "PURSUIT" behind "traffic/pursuit/".
    Only the track and car paths are checked; a missing nested folder fails its iteration.
    CollectEverythingPrefixed spells out the unfiltered `traffic/` scan.
  */
  function Nfs3Entry(fs: Dirs, dir: string): Result<NeedForSpeed, Error> {
    var track, car := dir + NFS_3_TRACK_PATH, dir + NFS_3_CAR_PATH;
    var traffic, pursuit := car + "traffic/", car + "traffic/" + "pursuit/";
    if track !in fs then Failure(MissingTrackFolder(NFS_3, track))
    else if car !in fs then Failure(MissingCarFolder(NFS_3, car))
    else if traffic !in fs then Failure(CannotIterate(traffic))
    else if pursuit !in fs then Failure(CannotIterate(pursuit))
    else Success(NeedForSpeed(NFS_3, fs[track],
                   Collect(fs[car], Lacking("traffic"), AsIs) +
                   Collect(fs[traffic], All, Prefixed("traffic/")) +
                   Collect(fs[pursuit], Lacking("PURSUIT"), Prefixed("traffic/pursuit/"))))
  }

  /** The NFS 3 step table computes exactly Nfs3Entry. */
  lemma Nfs3Layout(fs: Dirs, dir: string)
    ensures Layout(fs, dir, NFS_3) == Nfs3Entry(fs, dir)
  {
    var track, car := dir + NFS_3_TRACK_PATH, dir + NFS_3_CAR_PATH;
    var s := Steps(NFS_3, dir);
    CheckedTrackAndCarScans(fs, s, NFS_3, track, car, Lacking("traffic"));
    var tracks := if track in fs then fs[track] else [];
    var cars := if car in fs then Collect(fs[car], Lacking("traffic"), AsIs) else [];
    Nfs3TrafficScans(fs, car, s, NeedForSpeed(NFS_3, tracks, cars));
  }

  /** The two nested scans of the NFS 3 car folder, run after the top-level car scan. */
  lemma Nfs3TrafficScans(fs: Dirs, car: string, s: seq<Step>, e: NeedForSpeed)
    requires |s| == 6
    requires s[4] == Scan(car + "traffic/", All, Prefixed("traffic/"), Cars)
    requires s[5] == Scan(car + "traffic/" + "pursuit/", Lacking("PURSUIT"), Prefixed("traffic/pursuit/"), Cars)
    ensures var traffic, pursuit := car + "traffic/", car + "traffic/" + "pursuit/";
            RunSteps(fs, s[4..], e) ==
              if traffic !in fs then Failure(CannotIterate(traffic))
              else if pursuit !in fs then Failure(CannotIterate(pursuit))
              else Success(e.(cars := e.cars +
                             Collect(fs[traffic], All, Prefixed("traffic/")) +
                             Collect(fs[pursuit], Lacking("PURSUIT"), Prefixed("traffic/pursuit/"))))
  {
    var e4 := e;
    RunStepsAt(fs, s, 4, e4);
    if s[4].path !in fs {
      PerformMissing(fs, s[4], e4);
      return;
    }
    PerformExisting(fs, s[4], e4);
    var e5 := Perform(fs, s[4], e4).value;
    RunStepsAt(fs, s, 5, e5);
    if s[5].path !in fs {
      PerformMissing(fs, s[5], e5);
      return;
    }
    PerformExisting(fs, s[5], e5);
    var e6 := Perform(fs, s[5], e5).value;
    RunStepsEnd(fs, s, e6);
  }

  /** The three nested scans of the NFS 4 car folder, run after the top-level car scan. */
  lemma Nfs4TrafficScans(fs: Dirs, car: string, s: seq<Step>, e: NeedForSpeed)
    requires |s| == 7
    requires s[4] == Scan(car + "TRAFFIC/", LackingEither("CHOPPERS", "PURSUIT"), Prefixed("TRAFFIC/"), Cars)
    requires s[5] == Scan(car + "TRAFFIC/" + "CHOPPERS/", All, Prefixed("TRAFFIC/CHOPPERS/"), Cars)
    requires s[6] == Scan(car + "TRAFFIC/" + "PURSUIT/", All, Prefixed("TRAFFIC/PURSUIT/"), Cars)
    ensures var traffic, choppers, pursuit := car + "TRAFFIC/", car + "TRAFFIC/" + "CHOPPERS/", car + "TRAFFIC/" + "PURSUIT/";
            RunSteps(fs, s[4..], e) ==
              if traffic !in fs then Failure(CannotIterate(traffic))
              else if choppers !in fs then Failure(CannotIterate(choppers))
              else if pursuit !in fs then Failure(CannotIterate(pursuit))
              else Success(e.(cars := e.cars +
                             Collect(fs[traffic], LackingEither("CHOPPERS", "PURSUIT"), Prefixed("TRAFFIC/")) +
                             Collect(fs[choppers], All, Prefixed("TRAFFIC/CHOPPERS/")) +
                             Collect(fs[pursuit], All, Prefixed("TRAFFIC/PURSUIT/"))))
  {
    var e4 := e;
    RunStepsAt(fs, s, 4, e4);
    if s[4].path !in fs {
      PerformMissing(fs, s[4], e4);
      return;
    }
    PerformExisting(fs, s[4], e4);
    var e5 := Perform(fs, s[4], e4).value;
    RunStepsAt(fs, s, 5, e5);
    if s[5].path !in fs {
      PerformMissing(fs, s[5], e5);
      return;
    }
    PerformExisting(fs, s[5], e5);
    var e6 := Perform(fs, s[5], e5).value;
    RunStepsAt(fs, s, 6, e6);
    if s[6].path !in fs {
      PerformMissing(fs, s[6], e6);
      return;
    }
    PerformExisting(fs, s[6], e6);
    var e7 := Perform(fs, s[6], e6).value;
    RunStepsEnd(fs, s, e7);
  }

  /**
    NFS 4: tracks are every entry of the track path, unchanged. Cars are, in this order, the
    car-path entries lacking "TRAFFIC", the `TRAFFIC/` entries lacking both "CHOPPERS" and
    "PURSUIT" behind "TRAFFIC/", every `TRAFFIC/CHOPPERS/` entry behind "TRAFFIC/CHOPPERS/" and
    every `TRAFFIC/PURSUIT/` entry behind "TRAFFIC/PURSUIT/" (CollectEverythingPrefixed spells out
    the unfiltered scans).
  */
  function Nfs4Entry(fs: Dirs, dir: string): Result<NeedForSpeed, Error> {
    var track, car := dir + NFS_4_TRACK_PATH, dir + NFS_4_CAR_PATH;
    var traffic, choppers, pursuit := car + "TRAFFIC/", car + "TRAFFIC/" + "CHOPPERS/", car + "TRAFFIC/" + "PURSUIT/";
    if track !in fs then Failure(MissingTrackFolder(NFS_4, track))
    else if car !in fs then Failure(MissingCarFolder(NFS_4, car))
    else if traffic !in fs then Failure(CannotIterate(traffic))
    else if choppers !in fs then Failure(CannotIterate(choppers))
    else if pursuit !in fs then Failure(CannotIterate(pursuit))
    else Success(NeedForSpeed(NFS_4, fs[track],
                   Collect(fs[car], Lacking("TRAFFIC"), AsIs) +
                   Collect(fs[traffic], LackingEither("CHOPPERS", "PURSUIT"), Prefixed("TRAFFIC/")) +
                   Collect(fs[choppers], All, Prefixed("TRAFFIC/CHOPPERS/")) +
                   Collect(fs[pursuit], All, Prefixed("TRAFFIC/PURSUIT/"))))
  }

  /** The NFS 4 step table computes exactly Nfs4Entry. */
  lemma Nfs4Layout(fs: Dirs, dir: string)
    ensures Layout(fs, dir, NFS_4) == Nfs4Entry(fs, dir)
  {
    var track, car := dir + NFS_4_TRACK_PATH, dir + NFS_4_CAR_PATH;
    var s := Steps(NFS_4, dir);
    CheckedTrackAndCarScans(fs, s, NFS_4, track, car, Lacking("TRAFFIC"));
    var tracks := if track in fs then fs[track] else [];
    var cars := if car in fs then Collect(fs[car], Lacking("TRAFFIC"), AsIs) else [];
    Nfs4TrafficScans(fs, car, s, NeedForSpeed(NFS_4, tracks, cars));
  }

  /**
    One `directory_iterator` loop of PopulateAssets: iterate `path`, and for each entry the filter
    admits append its renamed name, in iteration order.
  */
  method ScanDir(fs: Dirs, path: string, filter: Filter, rename: Rename) returns (r: Result<seq<string>, Error>)
    ensures r.Success? <==> path in fs
    ensures r.Success? ==> r.value == Collect(fs[path], filter, rename)
    ensures r.Failure? ==> r.error == CannotIterate(path)
  {
    if path !in fs {
      return Failure(CannotIterate(path));
    }
    var entries := fs[path];
    var found: seq<string> := [];
    for i := 0 to |entries|
      invariant found == Collect(entries[..i], filter, rename)
    {
      assert entries[..i + 1][..i] == entries[..i];
      if Admits(filter, entries[i]) {
        found := found + [Renamed(rename, entries[i])];
      }
    }
    assert entries[..|entries|] == entries;
    return Success(found);
  }

  /** The NFS 2 Special Edition branch of PopulateAssets. */
  method ResolveNfs2Se(fs: Dirs, dir: string) returns (r: Result<NeedForSpeed, Error>)
    ensures r == Layout(fs, dir, NFS_2_SE)
  {
    Nfs2SeLayout(fs, dir);
    var tracks: seq<string> := [];
    var trackBasePath := dir + NFS_2_SE_TRACK_PATH;
    if trackBasePath !in fs {
      return Failure(MissingTrackFolder(NFS_2_SE, trackBasePath));
    }
    var trackScan := ScanDir(fs, trackBasePath, Containing(".TRK"), StripExt);
    tracks := tracks + trackScan.value;
    var carBasePath := dir + NFS_2_SE_CAR_PATH;
    if carBasePath !in fs {
      return Failure(MissingCarFolder(NFS_2_SE, carBasePath));
    }
    assert tracks == Collect(fs[trackBasePath], Containing(".TRK"), StripExt);
    r := Success(NeedForSpeed(NFS_2_SE, tracks, []));
  }

  /** The NFS 2 branch of PopulateAssets. */
  method ResolveNfs2(fs: Dirs, dir: string) returns (r: Result<NeedForSpeed, Error>)
    ensures r == Layout(fs, dir, NFS_2)
  {
    Nfs2Layout(fs, dir);
    var tracks: seq<string> := [];
    var cars: seq<string> := [];
    var trackBasePath := dir + NFS_2_TRACK_PATH;
    if trackBasePath !in fs {
      return Failure(MissingTrackFolder(NFS_2, trackBasePath));
    }
    var trackScan := ScanDir(fs, trackBasePath, Containing(".TRK"), StripExt);
    tracks := tracks + trackScan.value;
    var carBasePath := dir + NFS_2_CAR_PATH;
    if carBasePath !in fs {
      return Failure(MissingCarFolder(NFS_2, carBasePath));
    }
    var carScan := ScanDir(fs, carBasePath, Containing(".GEO"), StripExt);
    cars := cars + carScan.value;
    assert tracks == Collect(fs[trackBasePath], Containing(".TRK"), StripExt);
    assert cars == Collect(fs[carBasePath], Containing(".GEO"), StripExt);
    r := Success(NeedForSpeed(NFS_2, tracks, cars));
  }

  /** The NFS 3 PlayStation branch of PopulateAssets. */
  method ResolveNfs3Ps1(fs: Dirs, dir: string) returns (r: Result<NeedForSpeed, Error>)
    ensures r == Layout(fs, dir, NFS_3_PS1)
  {
    Nfs3Ps1Layout(fs, dir);
    var tracks: seq<string> := [];
    var cars: seq<string> := [];
    var trackScan :- ScanDir(fs, dir, Containing(".TRK"), StripExt);
    tracks := tracks + trackScan;
    var carScan := ScanDir(fs, dir, Containing(".GEO"), StripExt);
    cars := cars + carScan.value;
    assert tracks == Collect(fs[dir], Containing(".TRK"), StripExt);
    assert cars == Collect(fs[dir], Containing(".GEO"), StripExt);
    r := Success(NeedForSpeed(NFS_3_PS1, tracks, cars));
  }

  /** The NFS 3 branch of PopulateAssets. */
  method ResolveNfs3(fs: Dirs, dir: string) returns (r: Result<NeedForSpeed, Error>)
    ensures r == Nfs3Entry(fs, dir)
  {
    var tracks: seq<string> := [];
    var cars: seq<string> := [];
    var trackBasePath := dir + NFS_3_TRACK_PATH;
    if trackBasePath !in fs {
      return Failure(MissingTrackFolder(NFS_3, trackBasePath));
    }
    var trackScan := ScanDir(fs, trackBasePath, All, AsIs);
    CollectEverything(fs[trackBasePath]);
    tracks := tracks + trackScan.value;
    var carBasePath := dir + NFS_3_CAR_PATH;
    if carBasePath !in fs {
      return Failure(MissingCarFolder(NFS_3, carBasePath));
    }
    var carScan := ScanDir(fs, carBasePath, Lacking("traffic"), AsIs);
    cars := cars + carScan.value;
    assert cars == carScan.value;
    var trafficScan :- ScanDir(fs, carBasePath + "traffic/", All, Prefixed("traffic/"));
    cars := cars + trafficScan;
    var pursuitScan :- ScanDir(fs, carBasePath + "traffic/" + "pursuit/", Lacking("PURSUIT"), Prefixed("traffic/pursuit/"));
    cars := cars + pursuitScan;
    assert tracks == fs[trackBasePath];
    assert cars == carScan.value + trafficScan + pursuitScan;
    r := Success(NeedForSpeed(NFS_3, tracks, cars));
  }

  /** The NFS 4 branch of PopulateAssets. */
  method ResolveNfs4(fs: Dirs, dir: string) returns (r: Result<NeedForSpeed, Error>)
    ensures r == Nfs4Entry(fs, dir)
  {
    var tracks: seq<string> := [];
    var cars: seq<string> := [];
    var trackBasePath := dir + NFS_4_TRACK_PATH;
    if trackBasePath !in fs {
      return Failure(MissingTrackFolder(NFS_4, trackBasePath));
    }
    var trackScan := ScanDir(fs, trackBasePath, All, AsIs);
    CollectEverything(fs[trackBasePath]);
    tracks := tracks + trackScan.value;
    var carBasePath := dir + NFS_4_CAR_PATH;
    if carBasePath !in fs {
      return Failure(MissingCarFolder(NFS_4, carBasePath));
    }
    var carScan := ScanDir(fs, carBasePath, Lacking("TRAFFIC"), AsIs);
    cars := cars + carScan.value;
    assert cars == carScan.value;
    var trafficScan :- ScanDir(fs, carBasePath + "TRAFFIC/", LackingEither("CHOPPERS", "PURSUIT"), Prefixed("TRAFFIC/"));
    cars := cars + trafficScan;
    var chopperScan :- ScanDir(fs, carBasePath + "TRAFFIC/" + "CHOPPERS/", All, Prefixed("TRAFFIC/CHOPPERS/"));
    cars := cars + chopperScan;
    var pursuitScan :- ScanDir(fs, carBasePath + "TRAFFIC/" + "PURSUIT/", All, Prefixed("TRAFFIC/PURSUIT/"));
    cars := cars + pursuitScan;
    assert tracks == fs[trackBasePath];
    assert cars == carScan.value + trafficScan + chopperScan + pursuitScan;
    r := Success(NeedForSpeed(NFS_4, tracks, cars));
  }

  /** The edition branches of PopulateAssets: the catalog entry for the edition folder at `dir`. */
  method ResolveLayout(fs: Dirs, dir: string, tag: Tag) returns (r: Result<NeedForSpeed, Error>)
    requires tag != UNKNOWN
    ensures r == Layout(fs, dir, tag)
  {
    match tag {
      case NFS_2_SE => r := ResolveNfs2Se(fs, dir);
      case NFS_2 => r := ResolveNfs2(fs, dir);
      case NFS_3_PS1 => r := ResolveNfs3Ps1(fs, dir);
      case NFS_3 => r := ResolveNfs3(fs, dir); Nfs3Layout(fs, dir);
      case NFS_4 => r := ResolveNfs4(fs, dir); Nfs4Layout(fs, dir);
    }
  }
}
