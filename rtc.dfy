/**
 * The browser's peer connection, reduced to what the call screens read and
 * change: whether it is closed, its two description slots, the track each
 * of its senders carries, and the remote ICE candidates applied to it.
 */
module Rtc {
  import opened Base
  import opened Signaling

  datatype Kind = Audio | Video

  /** A media track; two tracks are `===` exactly when they are equal here. */
  datatype Track = Track(id: nat, kind: Kind)

  /** A captured media stream: its tracks in `getTracks()` order. */
  type Stream = seq<Track>

  /** `stream.getAudioTracks()[0]` / `stream.getVideoTracks()[0]`. */
  function FirstOfKind(s: Stream, k: Kind): (r: Option<Track>)
    ensures r.Some? ==> r.value in s && r.value.kind == k
    ensures r.None? ==> forall t :: t in s ==> t.kind != k
  {
    if s == [] then None else if s[0].kind == k then Some(s[0]) else FirstOfKind(s[1..], k)
  }

  /** The sender tracks after `senders.forEach(s => { if (s.track === from) s.replaceTrack(to) })`. */
  function SwapTrack(senders: seq<Track>, from: Track, to: Track): seq<Track>
  {
    seq(|senders|, i requires 0 <= i < |senders| => if senders[i] == from then to else senders[i])
  }

  /** The sender tracks after `senders.forEach(s => { if (s.track.kind === k) s.replaceTrack(to) })`. */
  function SwapKind(senders: seq<Track>, k: Kind, to: Track): seq<Track>
  {
    seq(|senders|, i requires 0 <= i < |senders| => if senders[i].kind == k then to else senders[i])
  }

  /**
   * Swapping the camera track out for a screen track that no sender carried
   * yet, and then back, restores every sender's track.
   */
  lemma {:induction false} SwapTrackRoundTrip(senders: seq<Track>, camera: Track, screen: Track)
    requires screen !in senders
    ensures SwapTrack(SwapTrack(senders, camera, screen), screen, camera) == senders
  {
    var once := SwapTrack(senders, camera, screen);
    var twice := SwapTrack(once, screen, camera);
    forall i | 0 <= i < |senders| ensures twice[i] == senders[i] {
      assert senders[i] != screen;
    }
  }

  /** A swap only touches the senders that carried `from`; audio senders survive a video swap. */
  lemma SwapTrackTouchesOnly(senders: seq<Track>, from: Track, to: Track, i: nat)
    requires i < |senders| && senders[i] != from
    ensures SwapTrack(senders, from, to)[i] == senders[i]
  {
  }

  /** After a swap by kind, no sender of that kind carries anything but `to`; others are unchanged. */
  lemma SwapKindEffect(senders: seq<Track>, k: Kind, to: Track)
    ensures |SwapKind(senders, k, to)| == |senders|
    ensures forall i :: 0 <= i < |senders| && senders[i].kind == k ==> SwapKind(senders, k, to)[i] == to
    ensures forall i :: 0 <= i < |senders| && senders[i].kind != k ==> SwapKind(senders, k, to)[i] == senders[i]
  {
  }

  class PeerConnection {
    var closed: bool
    var localDescription: Option<SessionDescription>
    var remoteDescription: Option<SessionDescription>
    /** `getSenders().map(s => s.track)`. */
    var senders: seq<Track>
    /** Remote candidates passed to `addIceCandidate`, in order. */
    var candidates: seq<Candidate>

    /** `new RTCPeerConnection(...)`. */
    constructor ()
      ensures !closed && localDescription == None && remoteDescription == None
      ensures senders == [] && candidates == []
    {
      closed := false;
      localDescription := None;
      remoteDescription := None;
      senders := [];
      candidates := [];
    }

    /** `close()`. */
    method Close()
      modifies this`closed
      ensures closed
    {
      closed := true;
    }

    /** `setLocalDescription(d)`; a closed connection rejects it. */
    method SetLocalDescription(d: SessionDescription)
      modifies this`localDescription
      ensures localDescription == if old(closed) then old(localDescription) else Some(d)
    {
      if !closed {
        localDescription := Some(d);
      }
    }

    /** `setRemoteDescription(d)`; a closed connection rejects it. */
    method SetRemoteDescription(d: SessionDescription)
      modifies this`remoteDescription
      ensures remoteDescription == if old(closed) then old(remoteDescription) else Some(d)
    {
      if !closed {
        remoteDescription := Some(d);
      }
    }

    /** `addIceCandidate(c)`; a closed connection rejects it. */
    method AddIceCandidate(c: Candidate)
      modifies this`candidates
      ensures candidates == if old(closed) then old(candidates) else old(candidates) + [c]
    {
      if !closed {
        candidates := candidates + [c];
      }
    }

    /**
     * The `ice-candidate` handler both call screens register: a present
     * candidate is added unless the connection is closed.
     */
    method OnRemoteCandidate(c: Option<Candidate>)
      modifies this`candidates
      ensures candidates == if c.Some? && !closed then old(candidates) + [c.value] else old(candidates)
    {
      if c.Some? && !closed {
        AddIceCandidate(c.value);
      }
    }

    /** `stream.getTracks().forEach(t => addTrack(t, stream))`, skipped once closed. */
    method AddTracks(stream: Stream)
      modifies this`senders
      ensures senders == if closed then old(senders) else old(senders) + stream
    {
      var i := 0;
      while i < |stream|
        invariant 0 <= i <= |stream|
        invariant senders == if closed then old(senders) else old(senders) + stream[..i]
      {
        if !closed {
          senders := senders + [stream[i]];
        }
        i := i + 1;
      }
    }

    /** `getSenders().forEach(s => { if (s.track === from) s.replaceTrack(to) })`. */
    method ReplaceSenderTrack(from: Track, to: Track)
      modifies this`senders
      ensures senders == SwapTrack(old(senders), from, to)
    {
      var i := 0;
      while i < |senders|
        invariant 0 <= i <= |senders| == |old(senders)|
        invariant forall j :: 0 <= j < i ==> senders[j] == SwapTrack(old(senders), from, to)[j]
        invariant forall j :: i <= j < |senders| ==> senders[j] == old(senders)[j]
      {
        if senders[i] == from {
          senders := senders[i := to];
        }
        i := i + 1;
      }
    }

    /** `getSenders().forEach(s => { if (s.track.kind === k) s.replaceTrack(to) })`. */
    method ReplaceKindTrack(k: Kind, to: Track)
      modifies this`senders
      ensures senders == SwapKind(old(senders), k, to)
    {
      var i := 0;
      while i < |senders|
        invariant 0 <= i <= |senders| == |old(senders)|
        invariant forall j :: 0 <= j < i ==> senders[j] == SwapKind(old(senders), k, to)[j]
        invariant forall j :: i <= j < |senders| ==> senders[j] == old(senders)[j]
      {
        if senders[i].kind == k {
          senders := senders[i := to];
        }
        i := i + 1;
      }
    }
  }
}
