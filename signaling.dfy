/**
 * The socket events the call screens exchange through the relay server.
 * Session descriptions and ICE candidates are opaque values.
 */
module Signaling {
  import opened Base
  import opened Js

  /** An `RTCSessionDescription`: its `type` (`'offer'`, `'answer'`, ...) and its SDP text. */
  datatype SessionDescription = SessionDescription(kind: string, sdp: string)

  /** An ICE candidate, never inspected. */
  type Candidate = string

  /** The payload of an incoming `call-user` event. */
  datatype IncomingCall = IncomingCall(from: JsId, signal: SessionDescription, displayName: Option<string>)

  /** A chat line, as sent by `send-message` and received by `receive-message`. */
  datatype ChatMessage = ChatMessage(to: JsId, from: JsId, text: string, name: string)

  /** A message the client emits on the socket, tagged by its event name. */
  datatype Message =
    | CallUser(to: JsId, from: JsId, signal: SessionDescription, displayName: Option<string>)
    | AcceptCall(to: JsId, from: JsId, signal: SessionDescription)
    | IceCandidate(to: JsId, from: JsId, candidate: Candidate)
    | EndCall(to: JsId)
    | SendMessage(chat: ChatMessage)
    | InviteParticipant(to: JsId, from: JsId)

  /** The signed-in user as the call screens read it (`user.user`). */
  datatype User = User(id: int, displayName: Option<string>, email: string)

  /** `user.user.display_name || user.user.email`. */
  function DisplayName(u: User): string
  {
    OrElse(u.displayName, u.email)
  }

  /** The route `/video-call/<id>` the call screens navigate to. */
  function VideoCallPath(peer: JsId): string
  {
    "/video-call/" + Show(peer)
  }
}

/**
 * What a handler does to the world outside its own state, in the order it
 * does it: a socket emit, a router navigation, or a REST request whose
 * shape is particular to the screen (`R`).
 */
module Effects {
  import opened Signaling

  datatype Effect<R> = Emit(msg: Message) | Navigate(path: string) | Request(req: R)
}
