/** Sequences of coordinator calls, and what they are proved to leave behind. */
module SignalingScenarios {
  import opened Wrappers
  import opened Media
  import opened Signaling

  /** A second `setupWebRTC` while the first is still connecting changes nothing,
      whatever room it names: one peer connection is created, not two. */
  method SetupWhileConnecting(rtc: Coordinator, code: string, other: string, video: VideoElement, isTeacher: bool)
    returns (pc: PeerConnection?)
    requires rtc.Valid() && !rtc.Busy(code)
    modifies rtc, rtc.peerConnection, rtc.stompClient
    ensures rtc.Valid()
    ensures fresh(pc) && rtc.peerConnection == pc
    ensures rtc.isConnecting && rtc.activeCode == Some(code)
  {
    rtc.Setup(code, video, isTeacher, NoFault);
    pc := rtc.peerConnection;
    rtc.Setup(other, video, isTeacher, NoFault);
  }

  /** Once connected to `code`, a setup for `code` again changes nothing; a setup
      for another room closes the first session (its peer connection closed, its
      client disconnected) and starts a fresh one. */
  method SwitchRooms(rtc: Coordinator, code: string, other: string, video: VideoElement, isTeacher: bool)
    returns (first: PeerConnection?, firstClient: StompClient?)
    requires rtc.Valid() && !rtc.Busy(code) && other != code
    modifies rtc, rtc.peerConnection, rtc.stompClient
    ensures rtc.Valid()
    ensures first != null && first.closed
    ensures firstClient != null && firstClient.disconnected && !firstClient.connected
    ensures fresh(rtc.peerConnection) && rtc.peerConnection != first
    ensures fresh(rtc.stompClient) && rtc.stompClient != firstClient && rtc.stompClient.room == other
    ensures rtc.isConnecting && rtc.activeCode == Some(other)
  {
    rtc.Setup(code, video, isTeacher, NoFault);
    first, firstClient := rtc.peerConnection, rtc.stompClient;
    rtc.OnConnected(firstClient);
    rtc.Setup(code, video, isTeacher, NoFault);
    assert rtc.peerConnection == first && rtc.Connected();
    rtc.Setup(other, video, isTeacher, NoFault);
  }

  /** After the relay refuses the connection the coordinator is idle again, so a
      retry for the same room goes ahead with a fresh peer connection and client.
      The peer connection of the failed attempt is dropped without being closed. */
  method RetryAfterConnectFailure(rtc: Coordinator, code: string, video: VideoElement, isTeacher: bool)
    returns (failed: PeerConnection?)
    requires rtc.Valid() && !rtc.Busy(code)
    modifies rtc, rtc.peerConnection, rtc.stompClient
    ensures rtc.Valid()
    ensures failed != null && !failed.closed && rtc.peerConnection != failed
    ensures fresh(rtc.peerConnection) && fresh(rtc.stompClient)
    ensures rtc.isConnecting && rtc.activeCode == Some(code)
  {
    rtc.Setup(code, video, isTeacher, NoFault);
    failed := rtc.peerConnection;
    rtc.OnConnectFailed(rtc.stompClient);
    assert !rtc.Busy(code);
    rtc.Setup(code, video, isTeacher, NoFault);
  }

  /** `closeWebRTC` twice leaves the state the first call left. */
  method CloseTwice(rtc: Coordinator)
    requires rtc.Valid()
    modifies rtc, rtc.peerConnection, rtc.stompClient
    ensures rtc.Valid() && rtc.TornDown()
  {
    rtc.Close();
    ghost var peer, client, connecting, code, sent :=
      rtc.peerConnection, rtc.stompClient, rtc.isConnecting, rtc.activeCode, rtc.outbox;
    rtc.Close();
    assert rtc.peerConnection == peer && rtc.stompClient == client;
    assert rtc.isConnecting == connecting && rtc.activeCode == code && rtc.outbox == sent;
  }

  /** A teacher and a student join room `code`, each relay client connects, the
      teacher's camera is granted, and each side's message is delivered to the
      other: the teacher sends exactly one offer, the student exactly one answer,
      and both peer connections end with the offer and the answer applied. */
  method Handshake(code: string, teacherView: VideoElement, studentView: VideoElement,
                   camera: MediaStream, offerSdp: string, answerSdp: string)
    returns (teacher: Coordinator, student: Coordinator)
    modifies teacherView, studentView
    ensures teacher.peerConnection != null && student.peerConnection != null
    ensures teacher.outbox == [Outbound(SignalAddress(code), OfferSignal(offerSdp))]
    ensures student.outbox == [Outbound(SignalAddress(code), AnswerSignal(answerSdp))]
    ensures teacher.peerConnection.localDescription == Some(Description(OfferSdp, Some(offerSdp)))
    ensures teacher.peerConnection.remoteDescription == Some(Description(AnswerSdp, Some(answerSdp)))
    ensures student.peerConnection.remoteDescription == Some(Description(OfferSdp, Some(offerSdp)))
    ensures student.peerConnection.localDescription == Some(Description(AnswerSdp, Some(answerSdp)))
    ensures teacher.peerConnection.senders == camera.tracks
  {
    teacher := Join(code, teacherView, true);
    student := Join(code, studentView, false);
    teacher.OnLocalMedia(code, camera, teacherView, offerSdp);
    assert teacher.outbox == [Outbound(SignalAddress(code), OfferSignal(offerSdp))];
    student.HandleSignal(teacher.outbox[0].signal, code, answerSdp);
    assert student.outbox == [Outbound(SignalAddress(code), AnswerSignal(answerSdp))];
    teacher.HandleSignal(student.outbox[0].signal, code, answerSdp);
  }

  /** A fresh coordinator whose setup for `code` completed and whose client then connected. */
  method Join(code: string, view: VideoElement, isTeacher: bool) returns (rtc: Coordinator)
    ensures fresh(rtc) && rtc.Valid() && rtc.Ready() && rtc.outbox == []
    ensures fresh(rtc.peerConnection) && fresh(rtc.stompClient)
    ensures rtc.peerConnection.State() == PeerState(false, None, None, [], [], Some(code), if isTeacher then null else view)
    ensures !rtc.isConnecting && rtc.activeCode == Some(code)
    ensures rtc.mediaRequests == if isTeacher then multiset{code} else multiset{}
  {
    rtc := new Coordinator();
    rtc.Setup(code, view, isTeacher, NoFault);
    rtc.OnConnected(rtc.stompClient);
  }
}
