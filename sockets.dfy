/**
 * The socket layer of the call feature: the process-wide manager that owns
 * at most one socket (`WebSocketManager.js`) and the provider that opens it
 * for the signed-in user and holds the one incoming-call slot
 * (`WebSocketProvider.js`).
 */
module Sockets {
  import opened Base
  import opened Js
  import opened Signaling
  import opened Effects

  /**
   * A socket.io client socket. It is opened for one user id and is not
   * connected until the transport reports it; `connected` is what
   * `socket.connected` reads.
   */
  class Socket {
    const userId: JsId
    var connected: bool

    /** `io(url, { query: { userId } })`. */
    constructor (userId: JsId)
      ensures this.userId == userId && !connected
    {
      this.userId := userId;
      connected := false;
    }

    /** The transport's `connect` event. */
    method TransportConnected()
      modifies this`connected
      ensures connected
    {
      connected := true;
    }

    /** `socket.disconnect()`. */
    method Disconnect()
      modifies this`connected
      ensures !connected
    {
      connected := false;
    }
  }

  /** `WebSocketManager`: the one nullable `socket` field. */
  class Manager {
    var socket: Socket?

    constructor ()
      ensures socket == null
    {
      socket := null;
    }

    /**
     * `connect(userId)`: opens a new socket for `userId` unless a connected
     * one is already there, in which case nothing changes, even when that
     * socket was opened for another user.
     */
    method Connect(userId: JsId)
      modifies this`socket
      ensures old(socket) == null || !old(socket.connected) ==>
        fresh(socket) && socket.userId == userId && !socket.connected
      ensures old(socket) != null && old(socket.connected) ==> socket == old(socket)
    {
      if socket == null || !socket.connected {
        socket := new Socket(userId);
      }
    }

    /** `disconnect()`: disconnects and drops the socket; without one it does nothing. */
    method Disconnect()
      modifies this`socket, socket
      ensures socket == null
      ensures old(socket) != null ==> !old(socket).connected
    {
      if socket != null {
        socket.Disconnect();
        socket := null;
      }
    }

    /** `getSocket()`. */
    function GetSocket(): (r: Socket?)
      reads this
      ensures r == socket
    {
      socket
    }
  }

  /** The provider's state and the effects it has caused (`Effect<()>`: it makes no REST requests). */
  class Provider {
    const manager: Manager
    var user: Option<User>
    var isConnected: bool
    var incomingCall: Option<IncomingCall>
    var outbox: seq<Effect<()>>

    constructor (manager: Manager)
      ensures this.manager == manager && user == None && !isConnected && incomingCall == None && outbox == []
    {
      this.manager := manager;
      user := None;
      isConnected := false;
      incomingCall := None;
      outbox := [];
    }

    /** The `[user]` effect: connects only for a signed-in user with a truthy id. */
    method UserChanged(u: Option<User>)
      modifies this`user, this`isConnected, manager`socket
      ensures user == u
      ensures u.Some? && u.value.id != 0 ==> isConnected && manager.socket != null
      ensures u.Some? && u.value.id != 0 && old(manager.socket) != null && old(manager.socket.connected) ==>
        manager.socket == old(manager.socket)
      ensures u.Some? && u.value.id != 0 && (old(manager.socket) == null || !old(manager.socket.connected)) ==>
        fresh(manager.socket) && manager.socket.userId == Num(u.value.id)
      ensures !(u.Some? && u.value.id != 0) ==> isConnected == old(isConnected) && manager.socket == old(manager.socket)
    {
      user := u;
      if u.Some? && u.value.id != 0 {
        manager.Connect(Num(u.value.id));
        isConnected := true;
      }
    }

    /** The effect's cleanup: disconnect, then `isConnected` is false. */
    method Cleanup()
      modifies this`isConnected, manager`socket, manager.socket
      ensures manager.socket == null && !isConnected
      ensures old(manager.socket) != null ==> !old(manager.socket).connected
    {
      manager.Disconnect();
      isConnected := false;
    }

    /** A `call-user` event: the payload takes the slot, replacing any call still pending. */
    method OnCallUser(call: IncomingCall)
      modifies this`incomingCall
      ensures incomingCall == Some(call) && PromptOpen()
    {
      incomingCall := Some(call);
    }

    /** A `call-accepted` event: go to the call with the user who accepted. */
    method OnCallAccepted(signal: SessionDescription, from: JsId)
      modifies this`outbox
      ensures outbox == old(outbox) + [Navigate(VideoCallPath(from))]
    {
      outbox := outbox + [Navigate(VideoCallPath(from))];
    }

    /**
     * `acceptCall`: with a pending call, a socket and a signed-in user, answers
     * the caller with its own offer, clears the slot and goes to the call.
     * Otherwise nothing changes (a missing socket or user throws inside the
     * `try` before any state is written).
     */
    method AcceptCall()
      modifies this`incomingCall, this`outbox
      ensures old(incomingCall).Some? && manager.socket != null && user.Some? ==>
        var call := old(incomingCall).value;
        && outbox == old(outbox) + [Emit(Signaling.AcceptCall(call.from, Num(user.value.id), call.signal)), Navigate(VideoCallPath(call.from))]
        && incomingCall == None && !PromptOpen()
      ensures !(old(incomingCall).Some? && manager.socket != null && user.Some?) ==>
        outbox == old(outbox) && incomingCall == old(incomingCall)
    {
      if incomingCall.Some? {
        if manager.socket == null || user.None? {
          return;
        }
        var call := incomingCall.value;
        outbox := outbox + [Emit(Signaling.AcceptCall(call.from, Num(user.value.id), call.signal))];
        incomingCall := None;
        outbox := outbox + [Navigate(VideoCallPath(call.from))];
      }
    }

    /** `rejectCall`: clears the slot and tells nobody. */
    method RejectCall()
      modifies this`incomingCall
      ensures incomingCall == None && !PromptOpen()
    {
      if incomingCall.Some? {
        incomingCall := None;
      }
    }

    /** `isOpen={!!incomingCall}`. */
    predicate PromptOpen()
      reads this
    {
      incomingCall.Some?
    }
  }
}
