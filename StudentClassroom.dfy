/** The local state of the student's classroom page (src/components/StudentClassroom.tsx):
    the session clock, the camera and microphone toggles, leaving the class, and
    the mount/unmount effect that joins and leaves the signaling session as the
    answering side. */
module StudentClassroom {
  import opened Wrappers
  import opened Media
  import opened Signaling

  class StudentRoom {
    /** `localVideoRef`: the student's own camera, and (through `ontrack`) the
        teacher's stream. */
    const localVideo: VideoElement
    var localStream: MediaStream?
    var isVideoOn: bool
    var isAudioOn: bool
    var sessionTime: nat
    /** Whether the one-second interval is running. */
    var ticking: bool
    /** The cleanup the mount effect registered, with the `localStream` it captured
        (None: no cleanup registered). */
    var cleanup: Option<MediaStream?>
    /** The last `navigate(...)` target. */
    var route: Option<string>

    /** The first render: camera and microphone shown as on, the clock at zero. */
    constructor (localVideo: VideoElement)
      ensures this.localVideo == localVideo
      ensures localStream == null && isVideoOn && isAudioOn && sessionTime == 0
      ensures !ticking && cleanup == None && route == None
    {
      this.localVideo := localVideo;
      localStream := null;
      isVideoOn, isAudioOn := true, true;
      sessionTime := 0;
      ticking := false;
      cleanup := None;
      route := None;
    }

    /** The mount effect. Without a room code it navigates to `/` and registers
        nothing. Otherwise it calls `setupWebRTC(code, localVideoRef,
        setLocalStream, false)` (student role: the `ontrack` handler writes to the
        local video, and no media is requested for the peer connection), starts the
        clock, and registers a cleanup that captures `localStream` as it is at this
        moment. The attendance request, media acquisition and attendee polling are
        asynchronous and arrive as `OnJoinFailed`, `OnLocalStream` and (not
        modelled) fetch results. */
    method Mount(rtc: Coordinator, code: Option<string>, fault: SetupFault)
      requires rtc.Valid()
      modifies this`route, this`ticking, this`cleanup, rtc, rtc.peerConnection, rtc.stompClient
      ensures rtc.Valid() && rtc.outbox == old(rtc.outbox)
      ensures MissingCode(code) ==>
        route == Some("/") && ticking == old(ticking) && cleanup == old(cleanup) && unchanged(rtc)
      ensures !MissingCode(code) ==> route == old(route) && ticking && cleanup == Some(localStream)
      ensures !MissingCode(code) && old(rtc.Busy(code.value)) ==> unchanged(rtc)
      ensures rtc.peerConnection == null || rtc.peerConnection == old(rtc.peerConnection) || fresh(rtc.peerConnection)
      ensures rtc.stompClient == null || rtc.stompClient == old(rtc.stompClient) || fresh(rtc.stompClient)
      ensures !MissingCode(code) && !old(rtc.Busy(code.value)) ==>
        rtc.activeCode == (if SetupCompletes(fault, false) then code else None) &&
        (fault != PeerConnectionThrows ==>
          fresh(rtc.peerConnection) &&
          rtc.peerConnection.trackView == (if fault == SocketThrows then null else localVideo))
      ensures rtc.mediaRequests == old(rtc.mediaRequests)
    {
      if MissingCode(code) {
        route := Some("/");
        return;
      }
      rtc.Setup(code.value, localVideo, false, fault);
      ticking := true;
      cleanup := Some(localStream);
    }

    /** The attendance request failed: navigate to `/`. */
    method OnJoinFailed()
      modifies this`route
      ensures route == Some("/")
    {
      route := Some("/");
    }

    /** `startLocalStream` resolved: the stream becomes `localStream` and is shown
        in the local video when it is mounted. */
    method OnLocalStream(stream: MediaStream)
      modifies this`localStream, localVideo`srcObject
      ensures localStream == stream
      ensures old(localVideo.mounted) ==> localVideo.srcObject == stream
      ensures !old(localVideo.mounted) ==> localVideo.srcObject == old(localVideo.srcObject)
    {
      localStream := stream;
      if localVideo.mounted {
        localVideo.srcObject := stream;
      }
    }

    /** One tick of the one-second interval: the clock advances by exactly one. */
    method Tick()
      requires ticking
      modifies this`sessionTime
      ensures sessionTime == old(sessionTime) + 1
    {
      sessionTime := sessionTime + 1;
    }

    /** `toggleVideo`: with a stream, flips its first video track's `enabled` and
        shows the new value; without one does nothing. The source reads
        `getVideoTracks()[0]` unchecked, so a stream must have a video track. */
    method ToggleVideo()
      requires localStream != null ==> |localStream.VideoTracks()| > 0
      modifies this`isVideoOn, FirstTrackOf(localStream, Video)
      ensures localStream == null ==> isVideoOn == old(isVideoOn)
      ensures localStream != null ==>
        var t := localStream.VideoTracks()[0];
        t.enabled == !old(t.enabled) && t.ended == old(t.ended) && isVideoOn == t.enabled
    {
      if localStream != null {
        var videoTrack := localStream.VideoTracks()[0];
        videoTrack.enabled := !videoTrack.enabled;
        isVideoOn := videoTrack.enabled;
      }
    }

    /** `toggleAudio`: as `ToggleVideo`, for the first audio track. */
    method ToggleAudio()
      requires localStream != null ==> |localStream.AudioTracks()| > 0
      modifies this`isAudioOn, FirstTrackOf(localStream, Audio)
      ensures localStream == null ==> isAudioOn == old(isAudioOn)
      ensures localStream != null ==>
        var t := localStream.AudioTracks()[0];
        t.enabled == !old(t.enabled) && t.ended == old(t.ended) && isAudioOn == t.enabled
    {
      if localStream != null {
        var audioTrack := localStream.AudioTracks()[0];
        audioTrack.enabled := !audioTrack.enabled;
        isAudioOn := audioTrack.enabled;
      }
    }

    /** `leaveClassroom`: stops every track of the local stream, closes the
        signaling session, then navigates to `/dashboard`. */
    method Leave(rtc: Coordinator)
      requires rtc.Valid()
      modifies this`route, TracksOf(localStream), rtc, rtc.peerConnection, rtc.stompClient
      ensures forall t :: t in TracksOf(localStream) ==> t.ended
      ensures rtc.Valid() && rtc.TornDown() && rtc.outbox == old(rtc.outbox)
      ensures old(rtc.peerConnection) != null ==> old(rtc.peerConnection).closed
      ensures old(rtc.Connected()) ==> old(rtc.stompClient).disconnected
      ensures route == Some("/dashboard")
    {
      if localStream != null {
        StopAll(localStream.tracks);
      }
      rtc.Close();
      route := Some("/dashboard");
    }

    /** The cleanup of the mount effect, AS WRITTEN: it stops the tracks of the
        stream the effect captured when it ran, not of the current `localStream`,
        then closes the signaling session. */
    method Unmount(rtc: Coordinator)
      requires rtc.Valid()
      modifies this`ticking, rtc, rtc.peerConnection, rtc.stompClient,
        if cleanup.Some? then TracksOf(cleanup.value) else []
      ensures rtc.Valid()
      ensures cleanup.None? ==> ticking == old(ticking) && unchanged(rtc)
      ensures cleanup.Some? ==>
        !ticking && rtc.TornDown() && forall t :: t in TracksOf(cleanup.value) ==> t.ended
      ensures cleanup.Some? && old(rtc.peerConnection) != null ==> old(rtc.peerConnection).closed
      ensures cleanup.Some? && old(rtc.Connected()) ==> old(rtc.stompClient).disconnected
    {
      if cleanup.Some? {
        ticking := false;
        if cleanup.value != null {
          StopAll(cleanup.value.tracks);
        }
        rtc.Close();
      }
    }

    /** The cleanup as evidently intended: the tracks of the stream the page holds
        when it unmounts are stopped. */
    method UnmountCurrent(rtc: Coordinator)
      requires rtc.Valid()
      modifies this`ticking, rtc, rtc.peerConnection, rtc.stompClient, TracksOf(localStream)
      ensures rtc.Valid()
      ensures cleanup.None? ==> ticking == old(ticking) && unchanged(rtc)
      ensures cleanup.Some? ==>
        !ticking && rtc.TornDown() && forall t :: t in TracksOf(localStream) ==> t.ended
      ensures cleanup.Some? && old(rtc.peerConnection) != null ==> old(rtc.peerConnection).closed
      ensures cleanup.Some? && old(rtc.Connected()) ==> old(rtc.stompClient).disconnected
    {
      if cleanup.Some? {
        ticking := false;
        if localStream != null {
          StopAll(localStream.tracks);
        }
        rtc.Close();
      }
    }
  }

  /** Toggling the microphone twice restores the track and the indicator. */
  method ToggleAudioTwice(room: StudentRoom)
    requires room.localStream != null && |room.localStream.AudioTracks()| > 0
    modifies room`isAudioOn, FirstTrackOf(room.localStream, Audio)
    ensures var t := room.localStream.AudioTracks()[0];
      t.enabled == old(t.enabled) && room.isAudioOn == t.enabled
  {
    room.ToggleAudio();
    room.ToggleAudio();
  }

  /** The student's mount effect has the same stale capture as the teacher's: a
      camera stream that arrives after mounting is not stopped on unmount. */
  method StaleCleanupLeavesCameraOn(rtc: Coordinator, video: VideoElement, code: string, camera: MediaStream)
    returns (room: StudentRoom)
    requires rtc.Valid() && code != ""
    requires forall t :: t in camera.tracks ==> !t.ended
    modifies rtc, rtc.peerConnection, rtc.stompClient, video`srcObject
    ensures room.localStream == camera && rtc.TornDown()
    ensures forall t :: t in camera.tracks ==> !t.ended
  {
    room := new StudentRoom(video);
    room.Mount(rtc, Some(code), NoFault);
    room.OnLocalStream(camera);
    room.Unmount(rtc);
  }

  /** With the intended cleanup the same sequence stops every camera track. */
  method CurrentCleanupStopsCamera(rtc: Coordinator, video: VideoElement, code: string, camera: MediaStream)
    returns (room: StudentRoom)
    requires rtc.Valid() && code != ""
    modifies rtc, rtc.peerConnection, rtc.stompClient, video`srcObject, camera.tracks
    ensures room.localStream == camera && rtc.TornDown()
    ensures forall t :: t in camera.tracks ==> t.ended
  {
    room := new StudentRoom(video);
    room.Mount(rtc, Some(code), NoFault);
    room.OnLocalStream(camera);
    room.UnmountCurrent(rtc);
  }
}
