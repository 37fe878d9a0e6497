/** Stand-ins for the browser media objects the classrooms and the signaling
    coordinator handle: `MediaStreamTrack` (its `enabled` flag and `stop()`),
    `MediaStream` (its fixed list of tracks) and the `<video>` element behind a
    React ref. Media capture itself is not modelled. */
module Media {

  datatype TrackKind = Audio | Video

  /** A `MediaStreamTrack`: its kind never changes; `enabled` mutes it; `stop()`
      ends it for good. */
  class MediaTrack {
    const kind: TrackKind
    var enabled: bool
    var ended: bool

    constructor (kind: TrackKind)
      ensures this.kind == kind && enabled && !ended
    {
      this.kind := kind;
      enabled := true;
      ended := false;
    }

    /** `track.stop()`: the track ends; `enabled` is untouched. */
    method Stop()
      modifies this`ended
      ensures ended
    {
      ended := true;
    }
  }

  /** The tracks of `ts` of kind `k`, in their order in `ts` (`getVideoTracks()`,
      `getAudioTracks()`). */
  function OfKind(ts: seq<MediaTrack>, k: TrackKind): (r: seq<MediaTrack>)
    ensures |r| <= |ts|
    ensures forall t :: t in r ==> t in ts && t.kind == k
    ensures forall t :: t in ts && t.kind == k ==> t in r
    ensures |r| > 0 ==> exists i :: 0 <= i < |ts| && ts[i] == r[0] && forall j :: 0 <= j < i ==> ts[j].kind != k
  {
    if ts == [] then []
    else if ts[0].kind == k then [ts[0]] + OfKind(ts[1..], k)
    else
      var rest := OfKind(ts[1..], k);
      assert |rest| > 0 ==> exists i :: 0 <= i < |ts| && ts[i] == rest[0] && forall j :: 0 <= j < i ==> ts[j].kind != k by {
        if |rest| > 0 {
          var i :| 0 <= i < |ts[1..]| && ts[1..][i] == rest[0] && forall j :: 0 <= j < i ==> ts[1..][j].kind != k;
          assert ts[i + 1] == rest[0];
          assert forall j :: 0 <= j < i + 1 ==> ts[j].kind != k by {
            forall j | 0 <= j < i + 1 ensures ts[j].kind != k {
              if j > 0 { assert ts[j] == ts[1..][j - 1]; }
            }
          }
        }
      }
      rest
  }

  /** A `MediaStream` with its tracks (`getTracks()`). */
  class MediaStream {
    const tracks: seq<MediaTrack>

    constructor (tracks: seq<MediaTrack>)
      ensures this.tracks == tracks
    {
      this.tracks := tracks;
    }

    function VideoTracks(): seq<MediaTrack> {
      OfKind(tracks, Video)
    }

    function AudioTracks(): seq<MediaTrack> {
      OfKind(tracks, Audio)
    }
  }

  /** The tracks of a possibly absent stream. */
  function TracksOf(s: MediaStream?): seq<MediaTrack> {
    if s == null then [] else s.tracks
  }

  /** The first track of kind `k` of a possibly absent stream, as a frame. */
  function FirstTrackOf(s: MediaStream?, k: TrackKind): set<MediaTrack> {
    if s != null && |OfKind(s.tracks, k)| > 0 then {OfKind(s.tracks, k)[0]} else {}
  }

  /** `stream.getTracks().forEach(track => track.stop())`: every track ends, and
      no track's `enabled` flag changes. */
  method StopAll(ts: seq<MediaTrack>)
    modifies ts
    ensures forall t :: t in ts ==> t.ended
    ensures forall t :: t in ts ==> t.enabled == old(t.enabled)
  {
    var i := 0;
    while i < |ts|
      invariant 0 <= i <= |ts|
      invariant forall j :: 0 <= j < i ==> ts[j].ended
      invariant forall t :: t in ts ==> t.enabled == old(t.enabled)
    {
      ts[i].Stop();
      i := i + 1;
    }
  }

  /** The `<video>` element a React ref points at: `mounted` is `ref.current !== null`;
      `srcObject` is the stream it shows. */
  class VideoElement {
    var mounted: bool
    var srcObject: MediaStream?

    constructor ()
      ensures mounted && srcObject == null
    {
      mounted := true;
      srcObject := null;
    }
  }
}
