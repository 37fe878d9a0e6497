/** The signaling coordinator of src/components/WebRTC.tsx: one process-wide
    instance holding the current peer connection, the STOMP relay client, a
    "connecting" flag and the room code of the active session. The peer connection
    and the relay client are modelled by small stand-in classes recording exactly
    what the coordinator does to them; every STOMP `send` is appended to `outbox`.
    Each asynchronous callback the source registers is a separate method that the
    environment may call at any time, in a sequential setting. */
module Signaling {
  import opened Wrappers
  import opened Media

  /** The SockJS endpoint of the relay. */
  const RelayEndpoint := "http://localhost:8080/ws"
  /** The one ICE server in the peer connection's configuration. */
  const StunServer := "stun:stun.l.google.com:19302"

  /** The topic a room's inbound signals arrive on. */
  function SignalTopic(code: string): string {
    "/topic/signal/" + code
  }

  /** The address a room's outbound signals are sent to. */
  function SignalAddress(code: string): string {
    "/app/signal/" + code
  }

  /** An ICE candidate descriptor (`RTCIceCandidateInit`), kept opaque. */
  datatype IceCandidate = IceCandidate(init: string)

  /** `SignalData`, the JSON body of a signaling message. Its `type` is compared
      with `===` against "offer", "answer" and "candidate"; `sdp` and `candidate`
      are optional. */
  datatype SignalData = SignalData(kind: string, sdp: Option<string>, candidate: Option<IceCandidate>)

  /** A message body as delivered on the subscribed topic: either it parses as JSON
      or `JSON.parse` throws. */
  datatype Inbound = Unparseable | Parsed(signal: SignalData)

  /** One STOMP `send`: destination and JSON body. */
  datatype Outbound = Outbound(destination: string, signal: SignalData)

  datatype SdpType = OfferSdp | AnswerSdp

  /** An `RTCSessionDescription`. */
  datatype Description = Description(sdpType: SdpType, sdp: Option<string>)

  /** Where a synchronous exception interrupts `setupWebRTC`: the
      `RTCPeerConnection` constructor, the `SockJS` constructor, or (on the
      teacher path only) the `navigator.mediaDevices.getUserMedia` call. */
  datatype SetupFault = NoFault | PeerConnectionThrows | SocketThrows | MediaDevicesThrows

  function OfferSignal(sdp: string): SignalData {
    SignalData("offer", Some(sdp), None)
  }

  function AnswerSignal(sdp: string): SignalData {
    SignalData("answer", Some(sdp), None)
  }

  function CandidateSignal(c: IceCandidate): SignalData {
    SignalData("candidate", None, Some(c))
  }

  /** The mutable state of a peer connection, as one value. */
  datatype PeerState = PeerState(
    closed: bool,
    localDescription: Option<Description>,
    remoteDescription: Option<Description>,
    remoteCandidates: seq<IceCandidate>,
    senders: seq<MediaTrack>,
    iceRoom: Option<string>,
    trackView: VideoElement?)

  /** Stand-in for an `RTCPeerConnection`: the descriptions applied to it, the
      remote candidates added, the local tracks added, and its two event handlers.
      `iceRoom` is the room code the `onicecandidate` handler was installed for
      (None: no handler); `trackView` is the element the `ontrack` handler writes
      to (null: no handler). */
  class PeerConnection {
    const iceServers: seq<string>
    var closed: bool
    var localDescription: Option<Description>
    var remoteDescription: Option<Description>
    var remoteCandidates: seq<IceCandidate>
    var senders: seq<MediaTrack>
    var iceRoom: Option<string>
    var trackView: VideoElement?

    function State(): PeerState
      reads this
    {
      PeerState(closed, localDescription, remoteDescription, remoteCandidates, senders, iceRoom, trackView)
    }

    /** `new RTCPeerConnection({ iceServers: [{ urls: StunServer }] })`. */
    constructor ()
      ensures iceServers == [StunServer]
      ensures State() == PeerState(false, None, None, [], [], None, null)
    {
      iceServers := [StunServer];
      closed := false;
      localDescription := None;
      remoteDescription := None;
      remoteCandidates := [];
      senders := [];
      iceRoom := None;
      trackView := null;
    }

    /** `close()`. */
    method Close()
      modifies this`closed
      ensures closed
    {
      closed := true;
    }

    /** `tracks.forEach(track => addTrack(track, stream))`: one sender per track, in
        order. `addTrack` throws `InvalidStateError` on a closed connection, so the
        connection must be open. */
    method AddTracks(ts: seq<MediaTrack>)
      requires !closed
      modifies this`senders
      ensures senders == old(senders) + ts
    {
      var i := 0;
      while i < |ts|
        invariant 0 <= i <= |ts|
        invariant senders == old(senders) + ts[..i]
      {
        senders := senders + [ts[i]];
        i := i + 1;
      }
    }

    /** The `ontrack` event (src/components/WebRTC.tsx:91-95, student path): when a
        handler is installed and its element is mounted, the element shows the
        event's first stream (`undefined`, here null, when the event has none).
        Every firing replaces what was shown; nothing is coalesced. */
    method OnTrack(streams: seq<MediaStream>)
      modifies trackView
      ensures trackView != null && old(trackView.mounted) ==>
        trackView.srcObject == (if |streams| > 0 then streams[0] else null) && trackView.mounted
      ensures trackView != null && !old(trackView.mounted) ==> unchanged(trackView)
    {
      if trackView != null && trackView.mounted {
        trackView.srcObject := if |streams| > 0 then streams[0] else null;
      }
    }
  }

  /** Stand-in for the STOMP client over SockJS. `room` is the room code captured
      by the connect callbacks registered when it was created. */
  class StompClient {
    const endpoint: string
    const room: string
    var connected: bool
    var disconnected: bool
    var subscriptions: seq<string>

    constructor (room: string)
      ensures endpoint == RelayEndpoint && this.room == room
      ensures !connected && !disconnected && subscriptions == []
    {
      endpoint := RelayEndpoint;
      this.room := room;
      connected := false;
      disconnected := false;
      subscriptions := [];
    }

    /** `disconnect(...)`: the library clears `connected` synchronously. */
    method Disconnect()
      modifies this`connected, this`disconnected
      ensures !connected && disconnected
    {
      connected := false;
      disconnected := true;
    }
  }

  /** The room code taken from the route is missing: undefined or empty (`!code`). */
  predicate MissingCode(code: Option<string>) {
    code.None? || code.value == ""
  }

  /** Whether `setupWebRTC` runs to its end without a synchronous exception. */
  predicate SetupCompletes(fault: SetupFault, isTeacher: bool) {
    fault == NoFault || (fault == MediaDevicesThrows && !isTeacher)
  }

  /** `webRTCInstance` and the functions that use it. */
  class Coordinator {
    var peerConnection: PeerConnection?
    var stompClient: StompClient?
    var isConnecting: bool
    var activeCode: Option<string>
    /** Every STOMP `send`, oldest first. */
    var outbox: seq<Outbound>
    /** The room codes of the teacher-path `getUserMedia` requests whose promise
        has not yet settled; only these can deliver a stream to the offering step. */
    ghost var mediaRequests: multiset<string>

    /** The current peer connection is never a closed one, the current client never
        a disconnected one, and while a setup is in flight there is a room code, a
        peer connection and a client that has not yet connected. The first clause is
        why `addTrack` in `OnLocalMedia` never meets a closed connection. */
    ghost predicate Valid()
      reads this, peerConnection, stompClient
    {
      && (peerConnection != null ==> !peerConnection.closed)
      && (stompClient != null ==> !stompClient.disconnected)
      && (isConnecting ==> activeCode.Some? && peerConnection != null && stompClient != null && !stompClient.connected)
    }

    /** `webRTCInstance.stompClient?.connected`. */
    predicate Connected()
      reads this, stompClient
    {
      stompClient != null && stompClient.connected
    }

    /** The guard of `setupWebRTC`: a setup is in flight, or the session for `code`
        is already connected. */
    predicate Busy(code: string)
      reads this, stompClient
    {
      isConnecting || (Connected() && activeCode == Some(code))
    }

    /** The guard of `createOffer` and `handleSignal`. */
    predicate Ready()
      reads this, stompClient
    {
      peerConnection != null && Connected()
    }

    /** The state `closeWebRTC` leaves behind. */
    predicate TornDown()
      reads this, stompClient
    {
      peerConnection == null && !Connected() && !isConnecting && activeCode == None
    }

    /** The module's initial `webRTCInstance`. */
    constructor ()
      ensures Valid() && TornDown()
      ensures stompClient == null && outbox == [] && mediaRequests == multiset{}
    {
      peerConnection := null;
      stompClient := null;
      isConnecting := false;
      activeCode := None;
      outbox := [];
      mediaRequests := multiset{};
    }

    /** `closeWebRTC`: closes and drops the peer connection, disconnects and drops
        the client only if it is connected, and clears the flag and the room code.
        Nothing else about the dropped objects changes, and a pending media request
        still settles later. From a torn-down state it changes nothing, so calling
        it twice is calling it once. */
    method Close()
      requires Valid()
      modifies this, peerConnection, stompClient
      ensures Valid() && TornDown()
      ensures outbox == old(outbox) && mediaRequests == old(mediaRequests)
      ensures old(peerConnection) != null ==> old(peerConnection).closed
      ensures old(peerConnection) != null ==>
        old(peerConnection).State() == old(peerConnection.State()).(closed := true)
      ensures old(Connected()) ==> stompClient == null && old(stompClient).disconnected && !old(stompClient).connected
      ensures old(Connected()) ==> old(stompClient).subscriptions == old(stompClient.subscriptions)
      ensures !old(Connected()) ==> stompClient == old(stompClient)
      ensures !old(Connected()) && old(stompClient) != null ==> unchanged(old(stompClient))
      ensures old(TornDown()) ==> unchanged(this)
    {
      if peerConnection != null {
        peerConnection.Close();
        peerConnection := null;
      }
      if stompClient != null && stompClient.connected {
        stompClient.Disconnect();
        stompClient := null;
      }
      isConnecting := false;
      activeCode := None;
    }

    /** `setupWebRTC(code, videoRef, setLocalStream, isTeacher)`. When busy it
        changes nothing at all. Otherwise, if connected (necessarily under another
        room code) it first closes the session; then it marks a setup in flight for
        `code`, creates a fresh peer connection and a fresh client for `code`, and
        installs the handlers: the teacher path starts media acquisition (whose
        outcome is `OnLocalMedia`), the student path installs `ontrack`; both then
        install `onicecandidate`. A synchronous exception at `fault` abandons the
        rest and clears the flag and the room code, keeping whatever was already
        created. Nothing is sent. A client that is dropped before it connected is
        left as it is (its connect callbacks may still fire). */
    method Setup(code: string, video: VideoElement, isTeacher: bool, fault: SetupFault)
      requires Valid()
      modifies this, peerConnection, stompClient
      ensures Valid()
      ensures outbox == old(outbox)
      ensures mediaRequests ==
        old(mediaRequests) + (if !old(Busy(code)) && isTeacher && fault == NoFault then multiset{code} else multiset{})
      ensures old(Busy(code)) ==> unchanged(this)
      ensures old(Busy(code)) && old(peerConnection) != null ==> unchanged(old(peerConnection))
      ensures old(Busy(code)) && old(stompClient) != null ==> unchanged(old(stompClient))
      ensures !old(Busy(code)) && old(Connected()) ==>
        old(stompClient).disconnected && !old(stompClient).connected &&
        (old(peerConnection) != null ==> old(peerConnection).closed)
      ensures !old(Busy(code)) && old(Connected()) ==>
        old(stompClient).subscriptions == old(stompClient.subscriptions) &&
        (old(peerConnection) != null ==>
          old(peerConnection).State() == old(peerConnection.State()).(closed := true))
      ensures !old(Busy(code)) && !old(Connected()) && old(peerConnection) != null ==>
        unchanged(old(peerConnection))
      ensures !old(Busy(code)) && !old(Connected()) && old(stompClient) != null ==>
        unchanged(old(stompClient))
      ensures !old(Busy(code)) ==>
        isConnecting == SetupCompletes(fault, isTeacher) &&
        activeCode == (if SetupCompletes(fault, isTeacher) then Some(code) else None)
      ensures !old(Busy(code)) && fault == PeerConnectionThrows ==>
        peerConnection == (if old(Connected()) then null else old(peerConnection))
      ensures !old(Busy(code)) && fault in {PeerConnectionThrows, SocketThrows} ==>
        stompClient == (if old(Connected()) then null else old(stompClient))
      ensures !old(Busy(code)) && fault != PeerConnectionThrows ==>
        fresh(peerConnection) && peerConnection.iceServers == [StunServer] &&
        peerConnection.State() == PeerState(false, None, None, [], [],
          if SetupCompletes(fault, isTeacher) then Some(code) else None,
          if fault != SocketThrows && !isTeacher then video else null)
      ensures !old(Busy(code)) && fault !in {PeerConnectionThrows, SocketThrows} ==>
        fresh(stompClient) && stompClient.endpoint == RelayEndpoint && stompClient.room == code &&
        !stompClient.connected && !stompClient.disconnected && stompClient.subscriptions == []
    {
      if isConnecting || (Connected() && activeCode == Some(code)) {
        return;
      }
      if Connected() && activeCode != Some(code) {
        Close();
      }
      Open(code, video, isTeacher, fault);
    }

    /** The part of `setupWebRTC` past its guard and the room switch: marks a
        setup in flight for `code`, then creates the peer connection and the client
        and installs the handlers, stopping at `fault`; only a teacher setup that
        reaches `getUserMedia` leaves a media request pending. Only the
        coordinator's own fields change; the previous peer connection and client
        are left as they are. */
    method Open(code: string, video: VideoElement, isTeacher: bool, fault: SetupFault)
      requires Valid() && !isConnecting
      modifies this`isConnecting, this`activeCode, this`peerConnection, this`stompClient, this`mediaRequests
      ensures Valid()
      ensures mediaRequests == old(mediaRequests) + (if isTeacher && fault == NoFault then multiset{code} else multiset{})
      ensures isConnecting == SetupCompletes(fault, isTeacher)
      ensures activeCode == (if SetupCompletes(fault, isTeacher) then Some(code) else None)
      ensures fault == PeerConnectionThrows ==> peerConnection == old(peerConnection)
      ensures fault in {PeerConnectionThrows, SocketThrows} ==> stompClient == old(stompClient)
      ensures fault != PeerConnectionThrows ==>
        fresh(peerConnection) && peerConnection.iceServers == [StunServer] &&
        peerConnection.State() == PeerState(false, None, None, [], [],
          if SetupCompletes(fault, isTeacher) then Some(code) else None,
          if fault != SocketThrows && !isTeacher then video else null)
      ensures fault !in {PeerConnectionThrows, SocketThrows} ==>
        fresh(stompClient) && stompClient.endpoint == RelayEndpoint && stompClient.room == code &&
        !stompClient.connected && !stompClient.disconnected && stompClient.subscriptions == []
    {
      isConnecting := true;
      activeCode := Some(code);
      if fault == PeerConnectionThrows {
        isConnecting := false;
        activeCode := None;
        return;
      }
      var pc := new PeerConnection();
      peerConnection := pc;
      if fault == SocketThrows {
        isConnecting := false;
        activeCode := None;
        return;
      }
      var client := new StompClient(code);
      stompClient := client;
      InstallHandlers(pc, code, video, isTeacher, fault == MediaDevicesThrows);
    }

    /** The handler part of `setupWebRTC`, once the peer connection and the client
        exist: the teacher requests media (`mediaThrows`: `navigator.mediaDevices`
        is missing and the access throws, which abandons the rest and clears the
        flag and the room code), the student installs `ontrack` on `video`, and
        both then install `onicecandidate` for `code`. */
    method InstallHandlers(pc: PeerConnection, code: string, video: VideoElement, isTeacher: bool, mediaThrows: bool)
      modifies pc`iceRoom, pc`trackView, this`isConnecting, this`activeCode, this`mediaRequests
      ensures isTeacher && mediaThrows ==> !isConnecting && activeCode == None
      ensures !(isTeacher && mediaThrows) ==> isConnecting == old(isConnecting) && activeCode == old(activeCode)
      ensures mediaRequests == old(mediaRequests) + (if isTeacher && !mediaThrows then multiset{code} else multiset{})
      ensures pc.State() == old(pc.State()).(
        iceRoom := if isTeacher && mediaThrows then old(pc.iceRoom) else Some(code),
        trackView := if isTeacher then old(pc.trackView) else video)
    {
      if isTeacher {
        if mediaThrows {
          isConnecting := false;
          activeCode := None;
          return;
        }
        mediaRequests := mediaRequests + multiset{code};
      } else {
        pc.trackView := video;
      }
      pc.iceRoom := Some(code);
    }

    /** The connect-success callback of `client`: the library marks it connected;
        the flag is cleared, the room code kept, and the CURRENT client subscribes
        to the topic of the room `client` was created for. */
    method OnConnected(client: StompClient)
      requires Valid()
      modifies this`isConnecting, client, stompClient
      ensures Valid()
      ensures client.connected && !isConnecting
      ensures client.disconnected == old(client.disconnected)
      ensures client != stompClient ==> client.subscriptions == old(client.subscriptions)
      ensures stompClient != null ==>
        stompClient.subscriptions == old(stompClient.subscriptions) + [SignalTopic(client.room)] &&
        stompClient.disconnected == old(stompClient.disconnected)
      ensures stompClient != null && stompClient != client ==> stompClient.connected == old(stompClient.connected)
    {
      client.connected := true;
      isConnecting := false;
      if stompClient != null {
        stompClient.subscriptions := stompClient.subscriptions + [SignalTopic(client.room)];
      }
    }

    /** The connect-failure callback of `client`: it is not connected, and both
        the flag and the room code are cleared. The peer connection and the client
        are left in place. */
    method OnConnectFailed(client: StompClient)
      requires Valid()
      modifies this`isConnecting, this`activeCode, client`connected
      ensures Valid()
      ensures !client.connected && !isConnecting && activeCode == None
    {
      client.connected := false;
      isConnecting := false;
      activeCode := None;
    }

    /** `createOffer(code)`: with a peer connection and a connected client, applies
        the offer as the local description and sends exactly one `offer` to the
        room's address; otherwise does nothing. */
    method CreateOffer(code: string, offerSdp: string)
      requires Valid()
      modifies this`outbox, peerConnection
      ensures Valid()
      ensures !Ready() ==> outbox == old(outbox) && (peerConnection != null ==> unchanged(peerConnection))
      ensures Ready() ==>
        peerConnection.State() == old(peerConnection.State()).(localDescription := Some(Description(OfferSdp, Some(offerSdp)))) &&
        outbox == old(outbox) + [Outbound(SignalAddress(code), OfferSignal(offerSdp))]
    {
      if peerConnection == null || !Connected() {
        return;
      }
      peerConnection.localDescription := Some(Description(OfferSdp, Some(offerSdp)));
      outbox := outbox + [Outbound(SignalAddress(code), OfferSignal(offerSdp))];
    }

    /** `handleSignal(signal, code)`: with a peer connection and a connected client,
        an `offer` becomes the remote description, the answer the local one, and
        exactly one `answer` goes to the room's address; an `answer` only becomes
        the remote description; a `candidate` is added when it carries one; any
        other type does nothing. Offers and answers are applied whatever
        descriptions are already set. */
    method HandleSignal(signal: SignalData, code: string, answerSdp: string)
      requires Valid()
      modifies this`outbox, peerConnection
      ensures Valid()
      ensures !Ready() ==> outbox == old(outbox) && (peerConnection != null ==> unchanged(peerConnection))
      ensures Ready() && signal.kind == "offer" ==>
        peerConnection.State() == old(peerConnection.State()).(
          remoteDescription := Some(Description(OfferSdp, signal.sdp)),
          localDescription := Some(Description(AnswerSdp, Some(answerSdp)))) &&
        outbox == old(outbox) + [Outbound(SignalAddress(code), AnswerSignal(answerSdp))]
      ensures Ready() && signal.kind == "answer" ==>
        peerConnection.State() == old(peerConnection.State()).(remoteDescription := Some(Description(AnswerSdp, signal.sdp))) &&
        outbox == old(outbox)
      ensures Ready() && signal.kind == "candidate" ==>
        peerConnection.State() == old(peerConnection.State()).(
          remoteCandidates := old(peerConnection.remoteCandidates) + (if signal.candidate.Some? then [signal.candidate.value] else [])) &&
        outbox == old(outbox)
      ensures Ready() && signal.kind !in {"offer", "answer", "candidate"} ==>
        unchanged(peerConnection) && outbox == old(outbox)
    {
      if peerConnection == null || !Connected() {
        return;
      }
      if signal.kind == "offer" {
        peerConnection.remoteDescription := Some(Description(OfferSdp, signal.sdp));
        peerConnection.localDescription := Some(Description(AnswerSdp, Some(answerSdp)));
        outbox := outbox + [Outbound(SignalAddress(code), AnswerSignal(answerSdp))];
      } else if signal.kind == "answer" {
        peerConnection.remoteDescription := Some(Description(AnswerSdp, signal.sdp));
      } else if signal.kind == "candidate" && signal.candidate.Some? {
        peerConnection.remoteCandidates := peerConnection.remoteCandidates + [signal.candidate.value];
      }
    }

    /** The subscription callback for room `code`: a body that does not parse is
        dropped with no effect; one that parses goes to `HandleSignal`. */
    method OnMessage(code: string, body: Inbound, answerSdp: string)
      requires Valid()
      modifies this`outbox, peerConnection
      ensures Valid()
      ensures body.Unparseable? ==> outbox == old(outbox) && (peerConnection != null ==> unchanged(peerConnection))
      ensures body.Parsed? && !Ready() ==> outbox == old(outbox) && (peerConnection != null ==> unchanged(peerConnection))
      ensures body.Parsed? && Ready() && body.signal.kind == "offer" ==>
        peerConnection.State() == old(peerConnection.State()).(
          remoteDescription := Some(Description(OfferSdp, body.signal.sdp)),
          localDescription := Some(Description(AnswerSdp, Some(answerSdp)))) &&
        outbox == old(outbox) + [Outbound(SignalAddress(code), AnswerSignal(answerSdp))]
      ensures body.Parsed? && Ready() && body.signal.kind == "answer" ==>
        peerConnection.State() == old(peerConnection.State()).(remoteDescription := Some(Description(AnswerSdp, body.signal.sdp))) &&
        outbox == old(outbox)
      ensures body.Parsed? && Ready() && body.signal.kind == "candidate" ==>
        peerConnection.State() == old(peerConnection.State()).(
          remoteCandidates := old(peerConnection.remoteCandidates) +
            (if body.signal.candidate.Some? then [body.signal.candidate.value] else [])) &&
        outbox == old(outbox)
      ensures body.Parsed? && Ready() && body.signal.kind !in {"offer", "answer", "candidate"} ==>
        unchanged(peerConnection) && outbox == old(outbox)
    {
      match body
      case Unparseable =>
      case Parsed(signal) =>
        HandleSignal(signal, code, answerSdp);
    }

    /** The `onicecandidate` event of `pc`: a non-null candidate is forwarded as a
        `candidate` to the address of the room the handler was installed for,
        provided a handler is installed and the current client is connected;
        otherwise it is dropped. */
    method OnIceCandidate(pc: PeerConnection, candidate: Option<IceCandidate>)
      modifies this`outbox
      ensures candidate.Some? && pc.iceRoom.Some? && Connected() ==>
        outbox == old(outbox) + [Outbound(SignalAddress(pc.iceRoom.value), CandidateSignal(candidate.value))]
      ensures !(candidate.Some? && pc.iceRoom.Some? && Connected()) ==> outbox == old(outbox)
    {
      if candidate.Some? && pc.iceRoom.Some? && Connected() {
        outbox := outbox + [Outbound(SignalAddress(pc.iceRoom.value), CandidateSignal(candidate.value))];
      }
    }

    /** Teacher path, media granted (src/components/WebRTC.tsx:81-88): the pending
        request for `code` settles, every track of `stream` is added to the current
        peer connection, the mounted element shows `stream`, then
        `createOffer(code)` runs. Only a teacher setup leaves a request pending, so
        a student coordinator never gets here. Handing `stream` to the component's
        `setLocalStream` is the component's part
        (`TeacherClassroom.TeacherRoom.OnSetupMedia`). */
    method OnLocalMedia(code: string, stream: MediaStream, video: VideoElement, offerSdp: string)
      requires Valid() && code in mediaRequests
      modifies this`outbox, this`mediaRequests, peerConnection, video`srcObject
      ensures Valid()
      ensures mediaRequests == old(mediaRequests) - multiset{code}
      ensures old(video.mounted) ==> video.srcObject == stream
      ensures !old(video.mounted) ==> video.srcObject == old(video.srcObject)
      ensures peerConnection != null ==>
        peerConnection.State() == old(peerConnection.State()).(
          senders := old(peerConnection.senders) + stream.tracks,
          localDescription := if Connected() then Some(Description(OfferSdp, Some(offerSdp)))
                              else old(peerConnection.localDescription))
      ensures outbox == old(outbox) + (if Ready() then [Outbound(SignalAddress(code), OfferSignal(offerSdp))] else [])
    {
      mediaRequests := mediaRequests - multiset{code};
      if peerConnection != null {
        peerConnection.AddTracks(stream.tracks);
      }
      if video.mounted {
        video.srcObject := stream;
      }
      CreateOffer(code, offerSdp);
    }

    /** Teacher path, media refused (src/components/WebRTC.tsx:89): the pending
        request for `code` settles and the rejection is only logged. */
    method OnMediaRejected(code: string)
      requires code in mediaRequests
      modifies this`mediaRequests
      ensures mediaRequests == old(mediaRequests) - multiset{code}
    {
      mediaRequests := mediaRequests - multiset{code};
    }
  }
}
