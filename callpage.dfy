/**
 * The call page (`CallPage.js`): the friend list, and placing a call to a
 * friend by creating a peer connection, sending the offer and relaying ICE
 * candidates both ways.
 */
module CallPage {
  import opened Base
  import opened Js
  import opened Signaling
  import opened Effects
  import opened Rtc

  /** A friend as the friends endpoint returns one. */
  datatype Friend = Friend(id: int, displayName: Option<string>, name: string)

  /** The label of a friend's row: `display_name || name`. */
  function FriendLabel(f: Friend): (r: string)
    ensures Truthy(f.displayName) ==> r == f.displayName.value
    ensures !Truthy(f.displayName) ==> r == f.name
  {
    OrElse(f.displayName, f.name)
  }

  /** No two entries of `s` are the same object. */
  ghost predicate Distinct(s: seq<PeerConnection>)
  {
    forall i, j :: 0 <= i < j < |s| ==> s[i] != s[j]
  }

  class Page {
    var friends: seq<Friend>
    var calling: bool
    /** `peerConnectionRef.current`: the connection of the latest call. */
    var pc: PeerConnection?
    /** Whether the page's `call-accepted` handler is registered. */
    var acceptedHandler: bool
    /**
     * The connections whose `ice-candidate` handlers are registered, oldest
     * first; each call adds one and none is ever removed.
     */
    var iceTargets: seq<PeerConnection>
    /** The (`to`, `from`) ids the latest call's `onicecandidate` sends with. */
    var iceRoute: Option<(int, int)>
    var outbox: seq<Effect<()>>

    ghost predicate Valid()
      reads this
    {
      Distinct(iceTargets)
    }

    constructor ()
      ensures Valid()
      ensures friends == [] && !calling && pc == null && !acceptedHandler
      ensures iceTargets == [] && iceRoute == None && outbox == []
    {
      friends := [];
      calling := false;
      pc := null;
      acceptedHandler := false;
      iceTargets := [];
      iceRoute := None;
      outbox := [];
    }

    /**
     * The mount effect: without a user, go to the login page; without a
     * connection, do nothing; otherwise load the friends (a failed request
     * keeps the list) and listen for `call-accepted`.
     */
    method Mount(user: Option<User>, isConnected: bool, friendsReply: Reply<seq<Friend>>)
      modifies this`friends, this`acceptedHandler, this`outbox
      ensures user.None? ==>
        outbox == old(outbox) + [Navigate("/login")] && friends == old(friends) && acceptedHandler == old(acceptedHandler)
      ensures user.Some? && !isConnected ==>
        outbox == old(outbox) && friends == old(friends) && acceptedHandler == old(acceptedHandler)
      ensures user.Some? && isConnected ==>
        && outbox == old(outbox) && acceptedHandler
        && friends == (if friendsReply.Ok? then friendsReply.value else old(friends))
    {
      if user.None? {
        outbox := outbox + [Navigate("/login")];
        return;
      }
      if !isConnected {
        return;
      }
      if friendsReply.Ok? {
        friends := friendsReply.value;
      }
      acceptedHandler := true;
    }

    /**
     * The effect's cleanup: stop listening for `call-accepted` and close the
     * latest connection. The source returns this cleanup only from an effect
     * run that got past its user and `isConnected` guards; the model runs it
     * unconditionally. After a guarded-out run the listening flag is already
     * off, so the two differ only if a connection was opened meanwhile: the
     * model closes it, the source leaves it open.
     */
    method Unmount()
      modifies this`acceptedHandler, pc
      ensures !acceptedHandler
      ensures pc != null ==> pc.closed
      ensures pc != null ==> unchanged(pc`localDescription, pc`remoteDescription, pc`senders, pc`candidates)
    {
      acceptedHandler := false;
      if pc != null {
        pc.Close();
      }
    }

    /**
     * A `call-accepted` event: the answer goes to the latest connection and
     * the page moves to the call. With no connection yet the handler throws
     * before it navigates.
     */
    method CallAccepted(signal: SessionDescription, from: JsId)
      modifies this`outbox, pc
      ensures acceptedHandler && pc != null ==>
        && pc.remoteDescription == (if pc.closed then old(pc.remoteDescription) else Some(signal))
        && outbox == old(outbox) + [Navigate(VideoCallPath(from))]
      ensures !(acceptedHandler && pc != null) ==> outbox == old(outbox)
      ensures pc != null ==> unchanged(pc`closed, pc`localDescription, pc`senders, pc`candidates)
    {
      if acceptedHandler && pc != null {
        pc.SetRemoteDescription(signal);
        outbox := outbox + [Navigate(VideoCallPath(from))];
      }
    }

    /**
     * `handleCall(friendId)`: with a connection, mark the page as calling,
     * create the call's peer connection, add the captured tracks, set the
     * offer as local description and send it to the friend with the
     * caller's display name; then relay this connection's candidates.
     * `media` is what `getUserMedia` yields (`None`: it rejects) and `offer`
     * what `createOffer` yields. A rejected capture, or a missing user when
     * the offer is sent, ends the call attempt where it happens.
     */
    method HandleCall(friendId: int, user: Option<User>, isConnected: bool, media: Option<Stream>, offer: SessionDescription)
      requires Valid()
      modifies this`calling, this`pc, this`iceTargets, this`iceRoute, this`outbox
      ensures Valid()
      ensures !isConnected ==>
        pc == old(pc) && calling == old(calling) && outbox == old(outbox) && iceTargets == old(iceTargets) && iceRoute == old(iceRoute)
      ensures isConnected ==> calling && fresh(pc) && !pc.closed && pc.remoteDescription == None && pc.candidates == []
      ensures isConnected && media.None? ==>
        pc.senders == [] && pc.localDescription == None && outbox == old(outbox) && iceTargets == old(iceTargets) && iceRoute == old(iceRoute)
      ensures isConnected && media.Some? ==> pc.senders == media.value && pc.localDescription == Some(offer)
      ensures isConnected && media.Some? && user.None? ==>
        outbox == old(outbox) && iceTargets == old(iceTargets) && iceRoute == old(iceRoute)
      ensures isConnected && media.Some? && user.Some? ==>
        && outbox == old(outbox) + [Emit(CallUser(Num(friendId), Num(user.value.id), offer, Some(DisplayName(user.value))))]
        && iceTargets == old(iceTargets) + [pc]
        && iceRoute == Some((friendId, user.value.id))
    {
      if !isConnected {
        return;
      }
      calling := true;
      var conn := new PeerConnection();
      pc := conn;
      if media.None? {
        return;
      }
      conn.AddTracks(media.value);
      conn.SetLocalDescription(offer);
      if user.None? {
        return;
      }
      outbox := outbox + [Emit(CallUser(Num(friendId), Num(user.value.id), conn.localDescription.value, Some(DisplayName(user.value))))];
      iceRoute := Some((friendId, user.value.id));
      iceTargets := iceTargets + [conn];
    }

    /** The latest connection's `onicecandidate`: a present candidate is sent to the friend. */
    method LocalIceCandidate(c: Option<Candidate>)
      modifies this`outbox
      ensures iceRoute.Some? && c.Some? ==>
        outbox == old(outbox) + [Emit(IceCandidate(Num(iceRoute.value.0), Num(iceRoute.value.1), c.value))]
      ensures !(iceRoute.Some? && c.Some?) ==> outbox == old(outbox)
    {
      if iceRoute.Some? && c.Some? {
        outbox := outbox + [Emit(IceCandidate(Num(iceRoute.value.0), Num(iceRoute.value.1), c.value))];
      }
    }

    /**
     * An `ice-candidate` event: every handler registered so far runs, so a
     * present candidate reaches each of those connections that is not closed.
     */
    method RemoteIceCandidate(c: Option<Candidate>)
      requires Valid()
      modifies iceTargets
      ensures forall j :: 0 <= j < |iceTargets| ==> iceTargets[j].closed == old(iceTargets[j].closed)
      ensures forall j :: 0 <= j < |iceTargets| ==>
        && iceTargets[j].localDescription == old(iceTargets[j].localDescription)
        && iceTargets[j].remoteDescription == old(iceTargets[j].remoteDescription)
        && iceTargets[j].senders == old(iceTargets[j].senders)
      ensures forall j :: 0 <= j < |iceTargets| ==>
        iceTargets[j].candidates ==
          if c.Some? && !iceTargets[j].closed then old(iceTargets[j].candidates) + [c.value] else old(iceTargets[j].candidates)
    {
      var i := 0;
      while i < |iceTargets|
        invariant 0 <= i <= |iceTargets|
        invariant forall j :: 0 <= j < i ==>
          iceTargets[j].candidates ==
            if c.Some? && !iceTargets[j].closed then old(iceTargets[j].candidates) + [c.value] else old(iceTargets[j].candidates)
        invariant forall j :: i <= j < |iceTargets| ==> iceTargets[j].candidates == old(iceTargets[j].candidates)
        invariant forall j :: 0 <= j < |iceTargets| ==> iceTargets[j].closed == old(iceTargets[j].closed)
        invariant forall j :: 0 <= j < |iceTargets| ==>
          && iceTargets[j].localDescription == old(iceTargets[j].localDescription)
          && iceTargets[j].remoteDescription == old(iceTargets[j].remoteDescription)
          && iceTargets[j].senders == old(iceTargets[j].senders)
      {
        iceTargets[i].OnRemoteCandidate(c);
        i := i + 1;
      }
    }
  }
}
