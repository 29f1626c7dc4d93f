/**
  The selection loop of rendering mode: load the selected track and car, hand them to the renderer,
  and go round again with the selection the renderer returns, until that selection's track tag is
  UNKNOWN (src/main.cpp, OpenNFS::run and OpenNFS::train). The renderer is an oracle: the sequence
  of selections its sessions return, in order.
*/
module Selection {
  import opened Editions
  import opened Arguments

  /** `AssetData`: which car and which track, each with the edition it comes from. */
  datatype AssetData = AssetData(carTag: Tag, car: string, trackTag: Tag, track: string)

  /** What the loop asks of its collaborators, in order. */
  datatype Event =
    | LoadTrack(tag: Tag, name: string)    // TrackLoader::LoadTrack
    | LoadCar(tag: Tag, name: string)      // CarLoader::LoadCar
    | Render(selection: AssetData)         // one Renderer session on what was just loaded
    | TrainSession(selection: AssetData)   // the TrainingGround session of training mode

  const DEFAULT_CAR := "diab"
  const DEFAULT_TRACK := "trk001"

  /** The first selection of rendering mode: NFS 3 assets, named by `car=` and `track=` when given. */
  function InitialSelection(parameters: Parameters): (a: AssetData)
    ensures a.carTag == NFS_3 && a.trackTag == NFS_3
    ensures "car" in parameters ==> a.car == parameters["car"]
    ensures "car" !in parameters ==> a.car == DEFAULT_CAR
    ensures "track" in parameters ==> a.track == parameters["track"]
    ensures "track" !in parameters ==> a.track == DEFAULT_TRACK
  {
    AssetData(NFS_3, if "car" in parameters then parameters["car"] else DEFAULT_CAR,
              NFS_3, if "track" in parameters then parameters["track"] else DEFAULT_TRACK)
  }

  /** The fixed selection of training mode, whatever the command line says. */
  const TrainingSelection := AssetData(NFS_3, "diab", NFS_3, "trk008")

  /** The collaborator calls of one session on `a`: the track load, the car load, the render. */
  function SessionEvents(a: AssetData): seq<Event> {
    [LoadTrack(a.trackTag, a.track), LoadCar(a.carTag, a.car), Render(a)]
  }

  /** The calls of consecutive sessions on `sels`. */
  function Trace(sels: seq<AssetData>): seq<Event>
    decreases |sels|
  {
    if sels == [] then [] else Trace(sels[..|sels| - 1]) + SessionEvents(sels[|sels| - 1])
  }

  /**
    How many sessions run over the selections `sels` (the initial one, then each render's result):
    each selection with a known track tag is loaded and rendered, and its render yields the next;
    the first with an UNKNOWN track tag runs none. The last selection of `sels` has no recorded
    render, so the count stops before it.
  */
  function Sessions(sels: seq<AssetData>): (n: nat)
    requires |sels| >= 1
    ensures n < |sels|
    decreases |sels|
  {
    if sels[0].trackTag == UNKNOWN || |sels| == 1 then 0 else 1 + Sessions(sels[1..])
  }

  /**
    The meaning of Sessions: every selection before the count has a known track tag, and the
    count stops at the first UNKNOWN track tag, whatever the car tag, or at the end of the record.
  */
  lemma {:induction false} SessionsStopAtUnknown(sels: seq<AssetData>)
    requires |sels| >= 1
    ensures forall i | 0 <= i < Sessions(sels) :: sels[i].trackTag != UNKNOWN
    ensures Sessions(sels) < |sels| - 1 ==> sels[Sessions(sels)].trackTag == UNKNOWN
    decreases |sels|
  {
    if sels[0].trackTag != UNKNOWN && |sels| > 1 {
      SessionsStopAtUnknown(sels[1..]);
      assert forall i | 1 <= i < |sels| :: sels[i] == sels[1..][i - 1];
    }
  }

  /** The calls of `n` sessions: three per session, in the order track, car, render. */
  lemma {:induction false} TraceShape(sels: seq<AssetData>)
    ensures |Trace(sels)| == 3 * |sels|
    ensures forall i | 0 <= i < |sels| ::
              Trace(sels)[3 * i] == LoadTrack(sels[i].trackTag, sels[i].track) &&
              Trace(sels)[3 * i + 1] == LoadCar(sels[i].carTag, sels[i].car) &&
              Trace(sels)[3 * i + 2] == Render(sels[i])
    decreases |sels|
  {
    if sels != [] {
      var init := sels[..|sels| - 1];
      TraceShape(init);
      assert forall i | 0 <= i < |init| :: init[i] == sels[i];
    }
  }

  /** Sessions on selections with known track tags load only tracks with known tags. */
  lemma {:induction false} TraceLoadsListedTracks(sels: seq<AssetData>)
    ensures forall e | e in Trace(sels) && e.LoadTrack? :: exists i | 0 <= i < |sels| :: e.tag == sels[i].trackTag
    decreases |sels|
  {
    if sels != [] {
      var init := sels[..|sels| - 1];
      TraceLoadsListedTracks(init);
      forall e | e in Trace(sels) && e.LoadTrack?
        ensures exists i | 0 <= i < |sels| :: e.tag == sels[i].trackTag
      {
        if e in Trace(init) {
          var i :| 0 <= i < |init| && e.tag == init[i].trackTag;
          assert sels[i] == init[i];
        } else {
          assert e in SessionEvents(sels[|sels| - 1]);
          assert e.tag == sels[|sels| - 1].trackTag;
        }
      }
    }
  }

  /** No session loads a track whose tag is UNKNOWN. */
  lemma NoUnknownTrackLoaded(sels: seq<AssetData>)
    requires |sels| >= 1
    ensures forall e | e in Trace(sels[..Sessions(sels)]) && e.LoadTrack? :: e.tag != UNKNOWN
  {
    var ran := sels[..Sessions(sels)];
    SessionsStopAtUnknown(sels);
    TraceLoadsListedTracks(ran);
    assert forall i | 0 <= i < |ran| :: ran[i] == sels[i];
  }

  /**
    The `while (loadedAssets.trackTag != UNKNOWN)` loop, run against the recorded renders. It
    returns the collaborator calls made, the number of sessions, and whether it ended on an
    UNKNOWN track tag rather than on the end of the record.
  */
  method SelectionLoop(initial: AssetData, renders: seq<AssetData>)
      returns (trace: seq<Event>, sessions: nat, finished: bool)
    ensures var sels := [initial] + renders;
            sessions == Sessions(sels) &&
            trace == Trace(sels[..sessions]) &&
            (finished <==> sels[sessions].trackTag == UNKNOWN)
  {
    ghost var sels := [initial] + renders;
    var loadedAssets := initial;
    trace, sessions := [], 0;
    while loadedAssets.trackTag != UNKNOWN && sessions < |renders|
      invariant sessions <= |renders|
      invariant loadedAssets == sels[sessions]
      invariant Sessions(sels) == sessions + Sessions(sels[sessions..])
      invariant trace == Trace(sels[..sessions])
      decreases |renders| - sessions
    {
      assert sels[..sessions + 1][..sessions] == sels[..sessions];
      assert sels[sessions..][1..] == sels[sessions + 1..];
      trace := trace + SessionEvents(loadedAssets);
      loadedAssets := renders[sessions];
      sessions := sessions + 1;
    }
    finished := loadedAssets.trackTag == UNKNOWN;
  }
}
