/**
 * The video call screen (`VideoCall.js`): one peer connection per visit,
 * the signalling handlers that drive it, screen sharing by swapping the
 * sent video track, the mute and camera switches, and the side panels for
 * chat and invitations.
 */
module VideoCall {
  import opened Base
  import opened Js
  import opened Signaling
  import opened Effects
  import opened Rtc
  import CallPage

  // ------------------------------------------------- who sends the offer

  /**
   * The guard before the screen sends its own offer, as written: the
   * signed-in user's numeric id against the route's `friendId`, which is a
   * string, under `!==`. A number is never strictly equal to a string.
   */
  predicate OffersAsWritten(selfId: int, friendId: string)
  {
    Num(selfId) != Str(friendId)
  }

  /** The guard as intended: the route does not name the signed-in user. */
  predicate Offers(selfId: int, friendId: string)
  {
    IntToString(selfId) != friendId
  }

  /** As written, the guard lets user 5 send an offer to the route `/video-call/5`, i.e. to itself. */
  lemma OffersAsWrittenToSelf()
    ensures OffersAsWritten(5, "5") && !Offers(5, "5")
  {
    assert IntToString(5) == "5";
  }

  /** The intended guard holds for the route of another user and only for it. */
  lemma OffersIffOtherUser(selfId: int, other: int)
    ensures Offers(selfId, IntToString(other)) <==> selfId != other
  {
    if !Offers(selfId, IntToString(other)) {
      IntToStringInjective(selfId, other);
    }
  }

  // ------------------------------------------------- mute and camera

  /**
   * A track switch: whether the track is enabled, and the flag the screen
   * shows (`isMuted` for audio, `isCameraOff` for video).
   */
  datatype Switch = Switch(trackEnabled: bool, flagOn: bool)

  /** The track does what the flag says: enabled exactly when the flag is off. */
  predicate InStep(s: Switch)
  {
    s.trackEnabled == !s.flagOn
  }

  /** `toggleMute` / `toggleCamera` as written: the track gets `!flag` from before the flip. */
  function FlipAsWritten(s: Switch): (r: Switch)
    ensures r.flagOn == !s.flagOn
  {
    Switch(!s.flagOn, !s.flagOn)
  }

  /** The toggle as intended: the track gets the new flag's negation. */
  function Flip(s: Switch): (r: Switch)
    ensures r.flagOn == !s.flagOn
  {
    Switch(s.flagOn, !s.flagOn)
  }

  /**
   * As written, every press leaves track and flag disagreeing: from the
   * initial state (track on, not muted) one press shows "muted" while the
   * microphone stays on.
   */
  lemma FlipAsWrittenLeavesStep(s: Switch)
    ensures !InStep(FlipAsWritten(s))
    ensures s == Switch(true, false) ==> FlipAsWritten(s) == Switch(true, true)
  {
  }

  /** The intended toggle always leaves track and flag in step, and from such a state pressing twice changes nothing. */
  lemma FlipKeepsStep(s: Switch)
    ensures InStep(Flip(s))
    ensures InStep(s) ==> Flip(Flip(s)) == s
  {
  }

  // ------------------------------------------------- panels

  /** The chat and invite panels: `(isChatVisible, isInviteVisible)`. */
  datatype Panels = Panels(chat: bool, invite: bool)

  /** `toggleChat`: flip the chat panel and hide the invite panel. */
  function ToggleChat(p: Panels): (r: Panels)
    ensures r.chat == !p.chat && !r.invite
  {
    Panels(!p.chat, false)
  }

  /** `toggleInvite`: flip the invite panel and hide the chat panel. */
  function ToggleInvite(p: Panels): (r: Panels)
    ensures r.invite == !p.invite && !r.chat
  {
    Panels(false, !p.invite)
  }

  /** At most one panel is open after either toggle, whatever was open before. */
  lemma PanelsExclusive(p: Panels)
    ensures !(ToggleChat(p).chat && ToggleChat(p).invite)
    ensures !(ToggleInvite(p).chat && ToggleInvite(p).invite)
    ensures ToggleChat(ToggleChat(p)).chat == p.chat && ToggleInvite(ToggleInvite(p)).invite == p.invite
  {
  }

  // ------------------------------------------------- the screen

  /** What a shared screen track's `onended` handler closes over. */
  datatype ScreenShare = ScreenShare(screen: Track, camera: Option<Track>, restore: Stream)

  class Call {
    /** The route parameter `friendId`, a string. */
    const friendId: string
    const self: User
    /** `peerConnectionRef.current`. */
    var pc: PeerConnection?
    /** The connection the socket handlers of the last completed setup close over. */
    var conn: PeerConnection?
    /** Whether the `ice-candidate`, `call-user`, `call-accepted` and `end-call` handlers are registered. */
    var listening: bool
    /** `localVideoRef.current.srcObject`: the stream shown as the local picture. */
    var shown: Option<Stream>
    /** The `onended` handler of the last shared screen track, until it fires. */
    var screenShare: Option<ScreenShare>
    /** The tracks whose `enabled` is false; every other track is enabled. */
    var disabled: set<Track>
    var isScreenSharing: bool
    var isMuted: bool
    var isCameraOff: bool
    var panels: Panels
    var messages: seq<ChatMessage>
    var newMessage: string
    var friends: seq<CallPage.Friend>
    var outbox: seq<Effect<()>>

    constructor (friendId: string, self: User)
      ensures this.friendId == friendId && this.self == self
      ensures pc == null && conn == null && !listening && shown == None && screenShare == None && disabled == {}
      ensures !isScreenSharing && !isMuted && !isCameraOff && panels == Panels(false, false)
      ensures messages == [] && newMessage == "" && friends == [] && outbox == []
    {
      this.friendId := friendId;
      this.self := self;
      pc := null;
      conn := null;
      listening := false;
      shown := None;
      screenShare := None;
      disabled := {};
      isScreenSharing := false;
      isMuted := false;
      isCameraOff := false;
      panels := Panels(false, false);
      messages := [];
      newMessage := "";
      friends := [];
      outbox := [];
    }

    /**
     * `setupPeerConnection`: unless a connection exists, create one, show
     * and send the captured tracks (`media`; `None`: capture rejects and
     * setup stops there), register the signalling handlers, and, when the
     * route names another user, set `offer` as local description and send
     * it to that user.
     */
    method Setup(media: Option<Stream>, offer: SessionDescription)
      modifies this`pc, this`conn, this`listening, this`shown, this`outbox
      ensures old(pc) != null ==> pc == old(pc) && conn == old(conn) && listening == old(listening) && shown == old(shown) && outbox == old(outbox)
      ensures old(pc) == null ==> fresh(pc) && !pc.closed && pc.remoteDescription == None && pc.candidates == []
      ensures old(pc) == null && media.None? ==>
        pc.senders == [] && pc.localDescription == None
        && conn == old(conn) && listening == old(listening) && shown == old(shown) && outbox == old(outbox)
      ensures old(pc) == null && media.Some? ==>
        conn == pc && listening && shown == media && pc.senders == media.value
      ensures old(pc) == null && media.Some? && Offers(self.id, friendId) ==>
        pc.localDescription == Some(offer)
        && outbox == old(outbox) + [Emit(CallUser(Str(friendId), Num(self.id), offer, None))]
      ensures old(pc) == null && media.Some? && !Offers(self.id, friendId) ==>
        pc.localDescription == None && outbox == old(outbox)
    {
      if pc != null {
        return;
      }
      var c := new PeerConnection();
      pc := c;
      if media.None? {
        return;
      }
      shown := media;
      c.AddTracks(media.value);
      conn := c;
      listening := true;
      if Offers(self.id, friendId) {
        c.SetLocalDescription(offer);
        outbox := outbox + [Emit(CallUser(Str(friendId), Num(self.id), c.localDescription.value, None))];
      }
    }

    /** `endCall`: close and drop the connection, tell the friend, go to the dashboard. */
    method EndCall()
      modifies this`pc, this`outbox, pc
      ensures pc == null
      ensures old(pc) != null ==> old(pc).closed
      ensures old(pc) != null ==>
        old(pc).localDescription == old(pc.localDescription) && old(pc).remoteDescription == old(pc.remoteDescription)
        && old(pc).senders == old(pc.senders) && old(pc).candidates == old(pc.candidates)
      ensures outbox == old(outbox) + [Emit(Signaling.EndCall(Str(friendId))), Navigate("/dashboard")]
    {
      if pc != null {
        pc.Close();
        pc := null;
      }
      outbox := outbox + [Emit(Signaling.EndCall(Str(friendId))), Navigate("/dashboard")];
    }

    /** The setup effect's cleanup: close and drop the connection and stop listening. */
    method Cleanup()
      modifies this`pc, this`listening, pc
      ensures pc == null && !listening
      ensures old(pc) != null ==> old(pc).closed
      ensures old(pc) != null ==>
        old(pc).localDescription == old(pc.localDescription) && old(pc).remoteDescription == old(pc.remoteDescription)
        && old(pc).senders == old(pc.senders) && old(pc).candidates == old(pc.candidates)
    {
      if pc != null {
        pc.Close();
        pc := null;
      }
      listening := false;
    }

    /** The connection's `onicecandidate`: a present candidate is sent to the friend. */
    method LocalIceCandidate(c: Option<Candidate>)
      modifies this`outbox
      ensures conn != null && c.Some? ==> outbox == old(outbox) + [Emit(IceCandidate(Str(friendId), Num(self.id), c.value))]
      ensures !(conn != null && c.Some?) ==> outbox == old(outbox)
    {
      if conn != null && c.Some? {
        outbox := outbox + [Emit(IceCandidate(Str(friendId), Num(self.id), c.value))];
      }
    }

    /** An `ice-candidate` event. */
    method RemoteIceCandidate(c: Option<Candidate>)
      modifies conn
      ensures listening && conn != null ==>
        conn.candidates == (if c.Some? && !conn.closed then old(conn.candidates) + [c.value] else old(conn.candidates))
      ensures conn != null ==> unchanged(conn`closed, conn`localDescription, conn`remoteDescription, conn`senders)
      ensures !listening && conn != null ==> unchanged(conn)
    {
      if listening && conn != null {
        conn.OnRemoteCandidate(c);
      }
    }

    /**
     * A `call-user` event on this screen: an offer from someone else is
     * answered on an open connection with `answer`, which is sent back.
     */
    method RemoteOffer(from: JsId, signal: SessionDescription, answer: SessionDescription)
      modifies this`outbox, conn
      ensures var taken := listening && conn != null && from != Num(self.id) && signal.kind == "offer" && !conn.closed;
        && (taken ==>
              conn.remoteDescription == Some(signal) && conn.localDescription == Some(answer)
              && outbox == old(outbox) + [Emit(Signaling.AcceptCall(from, Num(self.id), answer))])
        && (!taken ==> outbox == old(outbox) && (conn != null ==> unchanged(conn)))
      ensures conn != null ==> unchanged(conn`closed, conn`senders, conn`candidates)
    {
      if listening && conn != null && from != Num(self.id) && signal.kind == "offer" && !conn.closed {
        conn.SetRemoteDescription(signal);
        conn.SetLocalDescription(answer);
        outbox := outbox + [Emit(Signaling.AcceptCall(from, Num(self.id), conn.localDescription.value))];
      }
    }

    /** A `call-accepted` event: the answer is set on an open connection. */
    method RemoteAnswer(signal: SessionDescription)
      modifies conn
      ensures listening && conn != null && !conn.closed ==> conn.remoteDescription == Some(signal)
      ensures conn != null ==> unchanged(conn`closed, conn`localDescription, conn`senders, conn`candidates)
      ensures !(listening && conn != null && !conn.closed) && conn != null ==> unchanged(conn)
    {
      if listening && conn != null && !conn.closed {
        conn.SetRemoteDescription(signal);
      }
    }

    /** An `end-call` event: the screen ends its side of the call. */
    method RemoteEndCall()
      modifies this`pc, this`outbox, pc
      ensures listening ==> pc == null && outbox == old(outbox) + [Emit(Signaling.EndCall(Str(friendId))), Navigate("/dashboard")]
      ensures listening && old(pc) != null ==> old(pc).closed
      ensures listening && old(pc) != null ==>
        old(pc).localDescription == old(pc.localDescription) && old(pc).remoteDescription == old(pc.remoteDescription)
        && old(pc).senders == old(pc.senders) && old(pc).candidates == old(pc.candidates)
      ensures !listening ==> pc == old(pc) && outbox == old(outbox) && (pc != null ==> unchanged(pc))
    {
      if listening {
        EndCall();
      }
    }

    /**
     * `toggleScreenShare`. Starting: the senders carrying the shown stream's
     * camera track switch to `screen` (the display capture's first track),
     * the screen is shown, and its `onended` is armed. Stopping: every video
     * sender switches to the video track of `camera` (a fresh capture), which
     * is shown. Without a shown stream or a connection the handler throws
     * before it changes anything.
     */
    method ToggleScreenShare(screen: Track, camera: Stream)
      requires FirstOfKind(camera, Video).Some?
      modifies this`shown, this`screenShare, this`isScreenSharing, pc
      ensures pc != null ==> unchanged(pc`closed, pc`localDescription, pc`remoteDescription, pc`candidates)
      ensures !old(isScreenSharing) && old(shown).Some? && pc != null ==>
        var video := FirstOfKind(old(shown).value, Video);
        && pc.senders == (if video.Some? then SwapTrack(old(pc.senders), video.value, screen) else old(pc.senders))
        && screenShare == Some(ScreenShare(screen, video, old(shown).value))
        && shown == Some([screen]) && isScreenSharing
      ensures old(isScreenSharing) && pc != null ==>
        && pc.senders == SwapKind(old(pc.senders), Video, FirstOfKind(camera, Video).value)
        && shown == Some(camera) && !isScreenSharing && screenShare == old(screenShare)
      ensures (!old(isScreenSharing) && old(shown).None?) || pc == null ==>
        shown == old(shown) && screenShare == old(screenShare) && isScreenSharing == old(isScreenSharing)
        && (pc != null ==> unchanged(pc))
    {
      if !isScreenSharing {
        if shown.None? || pc == null {
          return;
        }
        var local := shown.value;
        var video := FirstOfKind(local, Video);
        if video.Some? {
          pc.ReplaceSenderTrack(video.value, screen);
        }
        screenShare := Some(ScreenShare(screen, video, local));
        shown := Some([screen]);
        isScreenSharing := true;
      } else {
        var video := FirstOfKind(camera, Video).value;
        if pc == null {
          return;
        }
        pc.ReplaceKindTrack(Video, video);
        shown := Some(camera);
        isScreenSharing := false;
      }
    }

    /**
     * The shared screen track ends: senders carrying it go back to the
     * camera track it replaced, the old picture comes back and sharing is
     * off. The track ends once, so its handler does not run again.
     */
    method ScreenEnded()
      modifies this`shown, this`screenShare, this`isScreenSharing, pc
      ensures pc != null ==> unchanged(pc`closed, pc`localDescription, pc`remoteDescription, pc`candidates)
      ensures old(screenShare).Some? && pc != null ==>
        var s := old(screenShare).value;
        && pc.senders == (if s.camera.Some? then SwapTrack(old(pc.senders), s.screen, s.camera.value) else old(pc.senders))
        && shown == Some(s.restore) && !isScreenSharing && screenShare == None
      ensures old(screenShare).None? || pc == null ==>
        shown == old(shown) && screenShare == old(screenShare) && isScreenSharing == old(isScreenSharing)
        && (pc != null ==> unchanged(pc))
    {
      if screenShare.None? || pc == null {
        return;
      }
      var s := screenShare.value;
      if s.camera.Some? {
        pc.ReplaceSenderTrack(s.screen, s.camera.value);
      }
      shown := Some(s.restore);
      isScreenSharing := false;
      screenShare := None;
    }

    /**
     * `toggleMute` / `toggleCamera` on the first track of kind `k` of the
     * shown stream, corrected so that the track follows the new flag; with
     * no shown stream or no such track the handler throws and nothing
     * changes.
     */
    method ToggleTrack(k: Kind)
      modifies this`disabled, this`isMuted, this`isCameraOff
      ensures var t := if shown.Some? then FirstOfKind(shown.value, k) else None;
        && (t.Some? && k == Audio ==>
              Switch(t.value !in disabled, isMuted) == Flip(Switch(t.value !in old(disabled), old(isMuted)))
              && isCameraOff == old(isCameraOff))
        && (t.Some? && k == Video ==>
              Switch(t.value !in disabled, isCameraOff) == Flip(Switch(t.value !in old(disabled), old(isCameraOff)))
              && isMuted == old(isMuted))
        && (t.Some? ==> forall u :: u != t.value ==> (u in disabled <==> u in old(disabled)))
        && (t.None? ==> disabled == old(disabled) && isMuted == old(isMuted) && isCameraOff == old(isCameraOff))
    {
      if shown.None? {
        return;
      }
      var t := FirstOfKind(shown.value, k);
      if t.None? {
        return;
      }
      var flag := if k == Audio then isMuted else isCameraOff;
      var next := Flip(Switch(t.value !in disabled, flag));
      disabled := if next.trackEnabled then disabled - {t.value} else disabled + {t.value};
      if k == Audio {
        isMuted := next.flagOn;
      } else {
        isCameraOff := next.flagOn;
      }
    }

    /** `toggleChat`. */
    method ToggleChatPanel()
      modifies this`panels
      ensures panels == ToggleChat(old(panels))
    {
      panels := ToggleChat(panels);
    }

    /** `toggleInvite`. */
    method ToggleInvitePanel()
      modifies this`panels
      ensures panels == ToggleInvite(old(panels))
    {
      panels := ToggleInvite(panels);
    }

    /** The friends fetch: a failed request keeps the list. */
    method LoadFriends(reply: Reply<seq<CallPage.Friend>>)
      modifies this`friends
      ensures friends == if reply.Ok? then reply.value else old(friends)
    {
      if reply.Ok? {
        friends := reply.value;
      }
    }

    /** A `receive-message` event: the line is appended. */
    method ReceiveMessage(m: ChatMessage)
      modifies this`messages
      ensures messages == old(messages) + [m]
    {
      messages := messages + [m];
    }

    /** `sendMessage`: the draft goes to the friend under the sender's name, is appended locally, and is cleared. */
    method SendMessage()
      modifies this`messages, this`newMessage, this`outbox
      ensures var m := ChatMessage(Str(friendId), Num(self.id), old(newMessage), DisplayName(self));
        && outbox == old(outbox) + [Emit(Signaling.SendMessage(m))]
        && messages == old(messages) + [m]
        && newMessage == ""
    {
      var m := ChatMessage(Str(friendId), Num(self.id), newMessage, DisplayName(self));
      outbox := outbox + [Emit(Signaling.SendMessage(m))];
      messages := messages + [m];
      newMessage := "";
    }

    /** `inviteParticipant(id)`: invite a friend from the list into the call. */
    method InviteParticipant(to: int)
      modifies this`outbox
      ensures outbox == old(outbox) + [Emit(Signaling.InviteParticipant(Num(to), Num(self.id)))]
    {
      outbox := outbox + [Emit(Signaling.InviteParticipant(Num(to), Num(self.id)))];
    }
  }
}
