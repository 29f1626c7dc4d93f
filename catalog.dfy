/**
  The catalog builder: one pass over the resource root's children, classifying each name, adding
  one entry per edition folder and noting the shared folders, then insisting that `lanes`, `misc`
  and `sfx` were all seen (src/main.cpp, PopulateAssets).
*/
module Assets {
  import opened Wrappers
  import opened Editions
  import opened Errors
  import opened Storage
  import opened Layouts

  /** What the pass over the root has gathered so far: `installedNFS` and the three flags. */
  datatype Discovery = Discovery(installed: seq<NeedForSpeed>, hasLanes: bool, hasMisc: bool, hasSfx: bool)

  const NothingFound := Discovery([], false, false, false)

  /** One iteration of the root loop, for the child `name` of `root`. */
  function Visit(fs: Dirs, root: string, d: Discovery, name: string): Result<Discovery, Error> {
    match Classify(name)
    case Edition(tag) =>
      var entry :- Layout(fs, Join(root, name), tag);
      Success(d.(installed := d.installed + [entry]))
    case Lanes => Success(d.(hasLanes := true))
    case Misc => Success(d.(hasMisc := true))
    case Sfx => Success(d.(hasSfx := true))
    case Unrecognised => Success(d)
  }

  /** The root loop over `names`, in order; the first failing edition folder ends it. */
  function Discover(fs: Dirs, root: string, names: seq<string>): Result<Discovery, Error>
    decreases |names|
  {
    if names == [] then Success(NothingFound)
    else
      var d :- Discover(fs, root, names[..|names| - 1]);
      Visit(fs, root, d, names[|names| - 1])
  }

  /** PopulateAssets as a value: the installed editions, or the condition that aborted discovery. */
  function Catalog(fs: Dirs, root: string): Result<seq<NeedForSpeed>, Error> {
    var names :- Children(fs, root);
    var d :- Discover(fs, root, names);
    if !d.hasLanes then Failure(MissingSharedFolder("lanes"))
    else if !d.hasMisc then Failure(MissingSharedFolder("misc"))
    else if !d.hasSfx then Failure(MissingSharedFolder("sfx"))
    else Success(d.installed)
  }

  /** The names among `names` that are edition folders, in order. */
  function EditionFolders(names: seq<string>): (r: seq<string>)
    ensures |r| <= |names|
    decreases |names|
  {
    if names == [] then []
    else
      var last := names[|names| - 1];
      EditionFolders(names[..|names| - 1]) + (if Classify(last).Edition? then [last] else [])
  }

  /** The child `name` of `root` is not an edition folder, or its layout resolves. */
  predicate Resolves(fs: Dirs, root: string, name: string) {
    Classify(name).Edition? ==> Layout(fs, Join(root, name), Classify(name).tag).Success?
  }

  /** One more name: the loop so far, then one iteration unless it has already failed. */
  lemma DiscoverStep(fs: Dirs, root: string, names: seq<string>, i: nat)
    requires i < |names|
    ensures var prev := Discover(fs, root, names[..i]);
            Discover(fs, root, names[..i + 1]) ==
              if prev.Failure? then Failure(prev.error) else Visit(fs, root, prev.value, names[i])
  {
    assert names[..i + 1][..i] == names[..i] && names[..i + 1][i] == names[i];
  }

  /** Once the loop has failed on a prefix of the names, it fails with that error on every longer prefix. */
  lemma {:induction false} DiscoverStaysFailed(fs: Dirs, root: string, names: seq<string>, k: nat)
    requires k <= |names|
    requires Discover(fs, root, names[..k]).Failure?
    ensures Discover(fs, root, names) == Discover(fs, root, names[..k])
    decreases |names| - k
  {
    if k < |names| {
      assert names[..k + 1][..k] == names[..k];
      DiscoverStaysFailed(fs, root, names, k + 1);
    } else {
      assert names[..k] == names;
    }
  }

  /** A resolved layout keeps the tag it was resolved for. */
  lemma {:induction false} RunStepsKeepsTag(fs: Dirs, steps: seq<Step>, entry: NeedForSpeed)
    requires RunSteps(fs, steps, entry).Success?
    ensures RunSteps(fs, steps, entry).value.tag == entry.tag
    decreases |steps|
  {
    if steps != [] {
      var next := Perform(fs, steps[0], entry);
      assert next.Success? && next.value.tag == entry.tag;
      RunStepsKeepsTag(fs, steps[1..], next.value);
    }
  }

  /** One iteration succeeds exactly when the name is not an edition folder that fails to resolve. */
  lemma VisitSucceeds(fs: Dirs, root: string, d: Discovery, name: string)
    ensures Visit(fs, root, d, name).Success? <==> Resolves(fs, root, name)
  {
  }

  /**
    A successful iteration appends the folder's resolved layout when the name is an edition folder,
    and leaves the entries alone otherwise.
  */
  lemma VisitEntries(fs: Dirs, root: string, d: Discovery, name: string)
    requires Visit(fs, root, d, name).Success?
    ensures var after := Visit(fs, root, d, name).value.installed;
            if Classify(name).Edition? then
              Layout(fs, Join(root, name), Classify(name).tag).Success? &&
              after == d.installed + [Layout(fs, Join(root, name), Classify(name).tag).value]
            else after == d.installed
  {
  }

  /** A failed iteration is an edition folder whose layout aborts, with the layout's error. */
  lemma VisitFails(fs: Dirs, root: string, d: Discovery, name: string)
    requires Visit(fs, root, d, name).Failure?
    ensures Classify(name).Edition?
    ensures Layout(fs, Join(root, name), Classify(name).tag) == Failure(Visit(fs, root, d, name).error)
  {
  }

  /** Every name resolves exactly when all but the last do and the last does. */
  lemma AllResolveStep(fs: Dirs, root: string, names: seq<string>)
    requires names != []
    ensures var init, last := names[..|names| - 1], names[|names| - 1];
            (forall i | 0 <= i < |names| :: Resolves(fs, root, names[i])) <==>
              (forall i | 0 <= i < |init| :: Resolves(fs, root, init[i])) && Resolves(fs, root, last)
  {
    var init := names[..|names| - 1];
    assert forall i | 0 <= i < |init| :: init[i] == names[i];
  }

  /** Discovery succeeds exactly when every edition folder's layout resolves. */
  lemma {:induction false} DiscoverSucceeds(fs: Dirs, root: string, names: seq<string>)
    ensures Discover(fs, root, names).Success? <==> forall i | 0 <= i < |names| :: Resolves(fs, root, names[i])
    decreases |names|
  {
    if names != [] {
      var init, last := names[..|names| - 1], names[|names| - 1];
      DiscoverSucceeds(fs, root, init);
      AllResolveStep(fs, root, names);
      var prev := Discover(fs, root, init);
      if prev.Success? {
        assert Discover(fs, root, names) == Visit(fs, root, prev.value, last);
        VisitSucceeds(fs, root, prev.value, last);
      }
    }
  }

  /**
    A successful discovery records one entry per edition folder, in root order, each being that
    folder's resolved layout under the tag its name classifies as.
  */
  lemma {:induction false} DiscoverEntries(fs: Dirs, root: string, names: seq<string>)
    requires Discover(fs, root, names).Success?
    ensures var d, folders := Discover(fs, root, names).value, EditionFolders(names);
            |d.installed| == |folders| &&
            forall j | 0 <= j < |folders| ::
              Classify(folders[j]).Edition? &&
              d.installed[j].tag == Classify(folders[j]).tag &&
              Layout(fs, Join(root, folders[j]), Classify(folders[j]).tag) == Success(d.installed[j])
    decreases |names|
  {
    if names != [] {
      var init, last := names[..|names| - 1], names[|names| - 1];
      var prev := Discover(fs, root, init);
      assert prev.Success?;
      DiscoverEntries(fs, root, init);
      VisitEntries(fs, root, prev.value, last);
      var folders := EditionFolders(init);
      assert EditionFolders(names) == folders + (if Classify(last).Edition? then [last] else []);
      if Classify(last).Edition? {
        var tag := Classify(last).tag;
        RunStepsKeepsTag(fs, Steps(tag, Join(root, last)), NeedForSpeed(tag, [], []));
      }
    }
  }

  /**
    A failed discovery reports the error of the first edition folder whose layout does not resolve;
    every folder before it resolved.
  */
  lemma {:induction false} DiscoverFirstFailure(fs: Dirs, root: string, names: seq<string>)
    requires Discover(fs, root, names).Failure?
    ensures exists i | 0 <= i < |names| ::
              (forall j | 0 <= j < i :: Resolves(fs, root, names[j])) &&
              Classify(names[i]).Edition? &&
              Layout(fs, Join(root, names[i]), Classify(names[i]).tag) == Failure(Discover(fs, root, names).error)
    decreases |names|
  {
    var init, last := names[..|names| - 1], names[|names| - 1];
    var prev := Discover(fs, root, init);
    if prev.Failure? {
      DiscoverFirstFailure(fs, root, init);
      var i :| 0 <= i < |init| &&
               (forall j | 0 <= j < i :: Resolves(fs, root, init[j])) &&
               Classify(init[i]).Edition? &&
               Layout(fs, Join(root, init[i]), Classify(init[i]).tag) == Failure(prev.error);
      assert forall j | 0 <= j <= i :: names[j] == init[j];
    } else {
      DiscoverSucceeds(fs, root, init);
      assert forall j | 0 <= j < |init| :: names[j] == init[j];
      assert Discover(fs, root, names) == Visit(fs, root, prev.value, last);
      VisitFails(fs, root, prev.value, last);
    }
  }

  /** Some name among `names` classifies as `k`. */
  predicate Present(names: seq<string>, k: FolderKind) {
    exists i | 0 <= i < |names| :: Classify(names[i]) == k
  }

  /** A kind is present among the names exactly when it is among all but the last, or is the last's. */
  lemma PresentStep(names: seq<string>, k: FolderKind)
    requires names != []
    ensures Present(names, k) <==> Present(names[..|names| - 1], k) || Classify(names[|names| - 1]) == k
  {
    var init := names[..|names| - 1];
    if Present(init, k) {
      var i :| 0 <= i < |init| && Classify(init[i]) == k;
      assert names[i] == init[i];
    }
    if Present(names, k) {
      var i :| 0 <= i < |names| && Classify(names[i]) == k;
      if i < |init| {
        assert names[i] == init[i];
      }
    }
  }

  /** The flag `d` keeps for the shared folder kind `k`. */
  function Seen(d: Discovery, k: FolderKind): bool {
    match k
    case Lanes => d.hasLanes
    case Misc => d.hasMisc
    case Sfx => d.hasSfx
    case _ => false
  }

  /** One iteration sets the flag of a shared kind exactly when the name classifies as that kind. */
  lemma VisitFlag(fs: Dirs, root: string, d: Discovery, name: string, k: FolderKind)
    requires k == Lanes || k == Misc || k == Sfx
    requires Visit(fs, root, d, name).Success?
    ensures Seen(Visit(fs, root, d, name).value, k) <==> Seen(d, k) || Classify(name) == k
  {
  }

  /**
    Each shared flag is set exactly when some name classifies as that shared folder. A name that
    carries an edition token never sets a flag, since it classifies as the edition.
  */
  lemma {:induction false} DiscoverFlags(fs: Dirs, root: string, names: seq<string>, k: FolderKind)
    requires k == Lanes || k == Misc || k == Sfx
    requires Discover(fs, root, names).Success?
    ensures Seen(Discover(fs, root, names).value, k) <==> Present(names, k)
    decreases |names|
  {
    if names != [] {
      var init, last := names[..|names| - 1], names[|names| - 1];
      var prev := Discover(fs, root, init);
      assert prev.Success?;
      DiscoverFlags(fs, root, init, k);
      VisitFlag(fs, root, prev.value, last, k);
      PresentStep(names, k);
    }
  }

  /** The names among `names` that carry any meaning for discovery, in order. */
  function Recognised(names: seq<string>): (r: seq<string>)
    ensures |r| <= |names|
    decreases |names|
  {
    if names == [] then []
    else
      var last := names[|names| - 1];
      Recognised(names[..|names| - 1]) + (if Classify(last) != Unrecognised then [last] else [])
  }

  /** Unrecognised folders are only warned about: removing them from the root changes nothing. */
  lemma {:induction false} DiscoverIgnoresUnrecognised(fs: Dirs, root: string, names: seq<string>)
    ensures Discover(fs, root, Recognised(names)) == Discover(fs, root, names)
    decreases |names|
  {
    if names != [] {
      var init, last := names[..|names| - 1], names[|names| - 1];
      DiscoverIgnoresUnrecognised(fs, root, init);
      var r := Recognised(names);
      if Classify(last) != Unrecognised {
        assert r == Recognised(init) + [last];
        assert r[..|r| - 1] == Recognised(init) && r[|r| - 1] == last;
      } else {
        assert r == Recognised(init);
        var prev := Discover(fs, root, init);
        if prev.Success? {
          assert Visit(fs, root, prev.value, last) == prev;
        }
      }
    }
  }

  /**
    The outcome of PopulateAssets: it succeeds exactly when the root can be iterated, every edition
    folder resolves and each of `lanes`, `misc` and `sfx` is seen; a missing shared folder is
    reported in the order lanes, misc, sfx, and only once every edition folder has resolved.
  */
  lemma CatalogOutcome(fs: Dirs, root: string)
    ensures root !in fs ==> Catalog(fs, root) == Failure(CannotIterate(root))
    ensures root in fs ==>
              var names := fs[root];
              var complete := forall i | 0 <= i < |names| :: Resolves(fs, root, names[i]);
              (Catalog(fs, root).Success? <==> complete && Present(names, Lanes) && Present(names, Misc) && Present(names, Sfx)) &&
              (complete && !Present(names, Lanes) ==> Catalog(fs, root) == Failure(MissingSharedFolder("lanes"))) &&
              (complete && Present(names, Lanes) && !Present(names, Misc) ==> Catalog(fs, root) == Failure(MissingSharedFolder("misc"))) &&
              (complete && Present(names, Lanes) && Present(names, Misc) && !Present(names, Sfx) ==> Catalog(fs, root) == Failure(MissingSharedFolder("sfx")))
  {
    if root in fs {
      DiscoverSucceeds(fs, root, fs[root]);
      if Discover(fs, root, fs[root]).Success? {
        DiscoverFlags(fs, root, fs[root], Lanes);
        DiscoverFlags(fs, root, fs[root], Misc);
        DiscoverFlags(fs, root, fs[root], Sfx);
      }
    }
  }

  /**
    A successful catalog holds one entry per edition folder of the root, in root order: the layout
    of that folder under the tag its name classifies as.
  */
  lemma CatalogEntries(fs: Dirs, root: string)
    requires Catalog(fs, root).Success?
    ensures root in fs
    ensures var cat, folders := Catalog(fs, root).value, EditionFolders(fs[root]);
            |cat| == |folders| &&
            forall j | 0 <= j < |folders| ::
              Classify(folders[j]).Edition? &&
              cat[j].tag == Classify(folders[j]).tag &&
              Layout(fs, Join(root, folders[j]), Classify(folders[j]).tag) == Success(cat[j])
  {
    DiscoverEntries(fs, root, fs[root]);
  }

  /**
    PopulateAssets: iterate the resource root once, resolving each edition folder's layout and
    setting the shared flags, then check the flags.
  */
  method PopulateAssets(fs: Dirs, root: string) returns (r: Result<seq<NeedForSpeed>, Error>)
    ensures r == Catalog(fs, root)
  {
    if root !in fs {
      return Failure(CannotIterate(root));
    }
    var names := fs[root];
    var installedNFS: seq<NeedForSpeed> := [];
    var hasLanes, hasMisc, hasSfx := false, false, false;
    for i := 0 to |names|
      invariant Discover(fs, root, names[..i]) == Success(Discovery(installedNFS, hasLanes, hasMisc, hasSfx))
    {
      var name := names[i];
      DiscoverStep(fs, root, names, i);
      match Classify(name) {
        case Edition(tag) =>
          var currentNFS := ResolveLayout(fs, Join(root, name), tag);
          if currentNFS.Failure? {
            DiscoverStaysFailed(fs, root, names, i + 1);
            assert names[..|names|] == names;
            return Failure(currentNFS.error);
          }
          installedNFS := installedNFS + [currentNFS.value];
        case Lanes => hasLanes := true;
        case Misc => hasMisc := true;
        case Sfx => hasSfx := true;
        case Unrecognised =>
      }
    }
    assert names[..|names|] == names;
    if !hasLanes {
      return Failure(MissingSharedFolder("lanes"));
    }
    if !hasMisc {
      return Failure(MissingSharedFolder("misc"));
    }
    if !hasSfx {
      return Failure(MissingSharedFolder("sfx"));
    }
    return Success(installedNFS);
  }
}
