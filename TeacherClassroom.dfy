/** The local state of the teacher's classroom page (src/components/TeacherClassroom.tsx):
    the session clock, the camera and microphone toggles, the recording buffer,
    and the mount/unmount effect that joins and leaves the signaling session as
    the offering side. React state setters become field assignments; each event
    handler, timer tick and browser callback is a method. */
module TeacherClassroom {
  import opened Wrappers
  import opened Media
  import opened Signaling

  /** One chunk a `MediaRecorder` hands over (`BlobEvent.data`), kept opaque. */
  datatype Blob = Blob(bytes: seq<bv8>)

  /** A `MediaRecorder` on a stream. */
  class Recorder {
    const stream: MediaStream
    var recording: bool

    /** `new MediaRecorder(stream)` followed by `start()`. */
    constructor (stream: MediaStream)
      ensures this.stream == stream && recording
    {
      this.stream := stream;
      recording := true;
    }

    /** `stop()`. */
    method Stop()
      modifies this`recording
      ensures !recording
    {
      recording := false;
    }
  }

  class TeacherRoom {
    /** `localVideoRef`. */
    const localVideo: VideoElement
    var localStream: MediaStream?
    var isVideoOn: bool
    var isAudioOn: bool
    var isRecording: bool
    /** `mediaRecorderRef.current`. */
    var recorder: Recorder?
    /** `recordedChunks.current`. */
    var recordedChunks: seq<Blob>
    var sessionTime: nat
    /** Whether the one-second interval is running. */
    var ticking: bool
    /** The cleanup the mount effect registered, with the `localStream` it captured
        (None: no cleanup registered). */
    var cleanup: Option<MediaStream?>
    /** The last `navigate(...)` target. */
    var route: Option<string>

    /** The first render: camera and microphone shown as on, nothing recorded, the
        clock at zero. */
    constructor (localVideo: VideoElement)
      ensures this.localVideo == localVideo
      ensures localStream == null && isVideoOn && isAudioOn && !isRecording
      ensures recorder == null && recordedChunks == [] && sessionTime == 0
      ensures !ticking && cleanup == None && route == None
    {
      this.localVideo := localVideo;
      localStream := null;
      isVideoOn, isAudioOn, isRecording := true, true, false;
      recorder := null;
      recordedChunks := [];
      sessionTime := 0;
      ticking := false;
      cleanup := None;
      route := None;
    }

    /** The mount effect. Without a room code it navigates to `/` and registers
        nothing. Otherwise it calls `setupWebRTC(code, localVideoRef,
        setLocalStream, true)` (teacher role: no `ontrack` handler is installed),
        starts the clock, and registers a cleanup that captures `localStream` as
        it is at this moment. Media acquisition and attendee polling are asynchronous and
        arrive as `OnLocalStream` and (not modelled) fetch results. */
    method Mount(rtc: Coordinator, code: Option<string>, fault: SetupFault)
      requires rtc.Valid()
      modifies this`route, this`ticking, this`cleanup, rtc, rtc.peerConnection, rtc.stompClient
      ensures rtc.Valid() && rtc.outbox == old(rtc.outbox)
      ensures MissingCode(code) ==>
        route == Some("/") && ticking == old(ticking) && cleanup == old(cleanup) && unchanged(rtc)
      ensures !MissingCode(code) ==> route == old(route) && ticking && cleanup == Some(localStream)
      ensures !MissingCode(code) && old(rtc.Busy(code.value)) ==> unchanged(rtc)
      ensures rtc.peerConnection == null || rtc.peerConnection == old(rtc.peerConnection) || fresh(rtc.peerConnection)
      ensures rtc.stompClient == null || rtc.stompClient == old(rtc.stompClient) || fresh(rtc.stompClient)
      ensures !MissingCode(code) && !old(rtc.Busy(code.value)) ==>
        rtc.activeCode == (if SetupCompletes(fault, true) then code else None) &&
        (fault != PeerConnectionThrows ==> fresh(rtc.peerConnection) && rtc.peerConnection.trackView == null)
      ensures !MissingCode(code) && !old(rtc.Busy(code.value)) ==>
        rtc.mediaRequests == old(rtc.mediaRequests) + (if fault == NoFault then multiset{code.value} else multiset{})
    {
      if MissingCode(code) {
        route := Some("/");
        return;
      }
      rtc.Setup(code.value, localVideo, true, fault);
      ticking := true;
      cleanup := Some(localStream);
    }

    /** `startLocalStream` resolved: the stream becomes `localStream` and is shown
        in the local video when it is mounted. */
    method OnLocalStream(stream: MediaStream)
      modifies this`localStream, localVideo`srcObject
      ensures localStream == stream
      ensures old(localVideo.mounted) ==> localVideo.srcObject == stream
      ensures !old(localVideo.mounted) ==> localVideo.srcObject == old(localVideo.srcObject)
    {
      localStream := stream;
      if localVideo.mounted {
        localVideo.srcObject := stream;
      }
    }

    /** The teacher path of `setupWebRTC` got its media for the pending request
        of `code`: `setLocalStream(stream)`, then the coordinator adds the tracks
        to the current peer connection, shows the stream in the local video and
        creates the offer for `code`. */
    method OnSetupMedia(rtc: Coordinator, code: string, stream: MediaStream, offerSdp: string)
      requires rtc.Valid() && code in rtc.mediaRequests
      modifies this`localStream, rtc`outbox, rtc`mediaRequests, rtc.peerConnection, localVideo`srcObject
      ensures rtc.Valid() && localStream == stream
      ensures rtc.mediaRequests == old(rtc.mediaRequests) - multiset{code}
      ensures old(localVideo.mounted) ==> localVideo.srcObject == stream
      ensures !old(localVideo.mounted) ==> localVideo.srcObject == old(localVideo.srcObject)
      ensures rtc.peerConnection != null ==>
        rtc.peerConnection.State() == old(rtc.peerConnection.State()).(
          senders := old(rtc.peerConnection.senders) + stream.tracks,
          localDescription := if rtc.Connected() then Some(Description(OfferSdp, Some(offerSdp)))
                              else old(rtc.peerConnection.localDescription))
      ensures rtc.outbox == old(rtc.outbox) + (if rtc.Ready() then [Outbound(SignalAddress(code), OfferSignal(offerSdp))] else [])
    {
      localStream := stream;
      rtc.OnLocalMedia(code, stream, localVideo, offerSdp);
    }

    /** One tick of the one-second interval: the clock advances by exactly one. */
    method Tick()
      requires ticking
      modifies this`sessionTime
      ensures sessionTime == old(sessionTime) + 1
    {
      sessionTime := sessionTime + 1;
    }

    /** `toggleVideo`: with a stream that has a video track, flips the first video
        track's `enabled` and shows the new value; otherwise does nothing. */
    method ToggleVideo()
      modifies this`isVideoOn, FirstTrackOf(localStream, Video)
      ensures localStream == null || |localStream.VideoTracks()| == 0 ==> isVideoOn == old(isVideoOn)
      ensures localStream != null && |localStream.VideoTracks()| > 0 ==>
        var t := localStream.VideoTracks()[0];
        t.enabled == !old(t.enabled) && t.ended == old(t.ended) && isVideoOn == t.enabled
    {
      if localStream != null {
        var videoTracks := localStream.VideoTracks();
        if |videoTracks| > 0 {
          var videoTrack := videoTracks[0];
          videoTrack.enabled := !videoTrack.enabled;
          isVideoOn := videoTrack.enabled;
        }
      }
    }

    /** `toggleAudio`: as `ToggleVideo`, for the first audio track. */
    method ToggleAudio()
      modifies this`isAudioOn, FirstTrackOf(localStream, Audio)
      ensures localStream == null || |localStream.AudioTracks()| == 0 ==> isAudioOn == old(isAudioOn)
      ensures localStream != null && |localStream.AudioTracks()| > 0 ==>
        var t := localStream.AudioTracks()[0];
        t.enabled == !old(t.enabled) && t.ended == old(t.ended) && isAudioOn == t.enabled
    {
      if localStream != null {
        var audioTracks := localStream.AudioTracks();
        if |audioTracks| > 0 {
          var audioTrack := audioTracks[0];
          audioTrack.enabled := !audioTrack.enabled;
          isAudioOn := audioTrack.enabled;
        }
      }
    }

    /** `startRecording`: without a local stream nothing happens; otherwise a new
        recorder on the stream starts and the page shows it is recording. The
        chunks already buffered are kept. */
    method StartRecording()
      modifies this`recorder, this`isRecording
      ensures localStream == null ==> recorder == old(recorder) && isRecording == old(isRecording)
      ensures localStream != null ==>
        fresh(recorder) && recorder.stream == localStream && recorder.recording && isRecording
    {
      if localStream == null {
        return;
      }
      var r := new Recorder(localStream);
      recorder := r;
      isRecording := true;
    }

    /** `ondataavailable` of a recorder: the chunk is appended at the end. */
    method OnDataAvailable(chunk: Blob)
      requires recorder != null
      modifies this`recordedChunks
      ensures recordedChunks == old(recordedChunks) + [chunk]
    {
      recordedChunks := recordedChunks + [chunk];
    }

    /** `stopRecording`: the recorder, if any, stops; the page shows it is not
        recording. */
    method StopRecording()
      modifies this`isRecording, recorder
      ensures !isRecording
      ensures recorder != null ==> !recorder.recording
    {
      if recorder != null {
        recorder.Stop();
      }
      isRecording := false;
    }

    /** `uploadRecording`, the recorder's `onstop`: the upload carries every buffered
        chunk in order; `uploadOk` and `saveOk` are the server's answers to the two
        requests. Whatever they are, the buffer is empty afterwards. */
    method UploadRecording(uploadOk: bool, saveOk: bool) returns (uploaded: seq<Blob>, saved: bool)
      requires recorder != null
      modifies this`recordedChunks
      ensures uploaded == old(recordedChunks)
      ensures saved <==> uploadOk && saveOk
      ensures recordedChunks == []
    {
      uploaded := recordedChunks;
      saved := uploadOk && saveOk;
      recordedChunks := [];
    }

    /** `endSession`: stops every track of the local stream, closes the signaling
        session, then navigates to `/`. */
    method EndSession(rtc: Coordinator)
      requires rtc.Valid()
      modifies this`route, TracksOf(localStream), rtc, rtc.peerConnection, rtc.stompClient
      ensures forall t :: t in TracksOf(localStream) ==> t.ended
      ensures rtc.Valid() && rtc.TornDown() && rtc.outbox == old(rtc.outbox)
      ensures old(rtc.peerConnection) != null ==> old(rtc.peerConnection).closed
      ensures old(rtc.Connected()) ==> old(rtc.stompClient).disconnected
      ensures route == Some("/")
    {
      if localStream != null {
        StopAll(localStream.tracks);
      }
      rtc.Close();
      route := Some("/");
    }

    /** The cleanup of the mount effect, AS WRITTEN: it stops the tracks of the
        stream the effect captured when it ran, not of the current `localStream`,
        then closes the signaling session. */
    method Unmount(rtc: Coordinator)
      requires rtc.Valid()
      modifies this`ticking, rtc, rtc.peerConnection, rtc.stompClient,
        if cleanup.Some? then TracksOf(cleanup.value) else []
      ensures rtc.Valid()
      ensures cleanup.None? ==> ticking == old(ticking) && unchanged(rtc)
      ensures cleanup.Some? ==>
        !ticking && rtc.TornDown() && forall t :: t in TracksOf(cleanup.value) ==> t.ended
      ensures cleanup.Some? && old(rtc.peerConnection) != null ==> old(rtc.peerConnection).closed
      ensures cleanup.Some? && old(rtc.Connected()) ==> old(rtc.stompClient).disconnected
    {
      if cleanup.Some? {
        ticking := false;
        if cleanup.value != null {
          StopAll(cleanup.value.tracks);
        }
        rtc.Close();
      }
    }

    /** The cleanup as evidently intended: the tracks of the stream the page holds
        when it unmounts are stopped. */
    method UnmountCurrent(rtc: Coordinator)
      requires rtc.Valid()
      modifies this`ticking, rtc, rtc.peerConnection, rtc.stompClient, TracksOf(localStream)
      ensures rtc.Valid()
      ensures cleanup.None? ==> ticking == old(ticking) && unchanged(rtc)
      ensures cleanup.Some? ==>
        !ticking && rtc.TornDown() && forall t :: t in TracksOf(localStream) ==> t.ended
      ensures cleanup.Some? && old(rtc.peerConnection) != null ==> old(rtc.peerConnection).closed
      ensures cleanup.Some? && old(rtc.Connected()) ==> old(rtc.stompClient).disconnected
    {
      if cleanup.Some? {
        ticking := false;
        if localStream != null {
          StopAll(localStream.tracks);
        }
        rtc.Close();
      }
    }
  }

  /** Toggling the camera twice restores the track and the indicator. */
  method ToggleVideoTwice(room: TeacherRoom)
    requires room.localStream != null && |room.localStream.VideoTracks()| > 0
    modifies room`isVideoOn, FirstTrackOf(room.localStream, Video)
    ensures var t := room.localStream.VideoTracks()[0];
      t.enabled == old(t.enabled) && room.isVideoOn == t.enabled
  {
    room.ToggleVideo();
    room.ToggleVideo();
  }

  /** Chunks delivered while recording are uploaded in delivery order, and the
      buffer is empty afterwards. */
  method RecordAndUpload(room: TeacherRoom, a: Blob, b: Blob, uploadOk: bool, saveOk: bool)
    returns (uploaded: seq<Blob>)
    requires room.localStream != null && room.recordedChunks == []
    modifies room`recorder, room`isRecording, room`recordedChunks
    ensures uploaded == [a, b] && room.recordedChunks == [] && !room.isRecording
  {
    room.StartRecording();
    room.OnDataAvailable(a);
    room.OnDataAvailable(b);
    room.StopRecording();
    var saved;
    uploaded, saved := room.UploadRecording(uploadOk, saveOk);
  }

  /** The mount effect's cleanup captures `localStream` as it was when the effect
      ran, which on the first mount is the initial null: a camera stream that
      arrives afterwards is never stopped when the page unmounts. */
  method StaleCleanupLeavesCameraOn(rtc: Coordinator, video: VideoElement, code: string, camera: MediaStream)
    returns (room: TeacherRoom)
    requires rtc.Valid() && code != ""
    requires forall t :: t in camera.tracks ==> !t.ended
    modifies rtc, rtc.peerConnection, rtc.stompClient, video`srcObject
    ensures room.localStream == camera && rtc.TornDown()
    ensures forall t :: t in camera.tracks ==> !t.ended
  {
    room := new TeacherRoom(video);
    room.Mount(rtc, Some(code), NoFault);
    room.OnLocalStream(camera);
    room.Unmount(rtc);
  }

  /** With the intended cleanup the same sequence stops every camera track. */
  method CurrentCleanupStopsCamera(rtc: Coordinator, video: VideoElement, code: string, camera: MediaStream)
    returns (room: TeacherRoom)
    requires rtc.Valid() && code != ""
    modifies rtc, rtc.peerConnection, rtc.stompClient, video`srcObject, camera.tracks
    ensures room.localStream == camera && rtc.TornDown()
    ensures forall t :: t in camera.tracks ==> t.ended
  {
    room := new TeacherRoom(video);
    room.Mount(rtc, Some(code), NoFault);
    room.OnLocalStream(camera);
    room.UnmountCurrent(rtc);
  }
}
