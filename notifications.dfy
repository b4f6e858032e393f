/**
 * The notification context (`NotificationContext.js`): the list of the
 * user's notifications, loaded from the server, from which an entry is
 * removed once the server has accepted the action taken on it.
 */
module Notifications {
  import opened Base
  import opened Effects
  import EntityLists

  /** The user who sent a friend request, when the server includes one. */
  datatype Requester = Requester(displayName: string)

  /** The friend request a `friend_request` notification refers to. */
  datatype FriendRequest = FriendRequest(user: Option<Requester>)

  datatype Notification = Notification(
    id: int,
    read: bool,
    notificationType: string,
    friendRequest: Option<FriendRequest>,
    friendRequestId: Option<int>,
    content: string)

  function NotificationId(n: Notification): int { n.id }

  /** The server calls the context makes. */
  datatype Call =
    | FetchNotifications
    | MarkAsRead(id: int)
    | RespondToFriendRequest(id: int, friendRequestId: Option<int>, response: string)
    | RespondToTeamInvite(id: int, response: string)

  /** `prev.filter(n => n.id !== id)`: what a successful action leaves. */
  function Without(s: seq<Notification>, id: int): (r: seq<Notification>)
    ensures forall n :: n in r <==> n in s && n.id != id
  {
    EntityLists.RemoveWhereSound(s, NotificationId, id);
    EntityLists.RemoveWhere(s, NotificationId, id)
  }

  class Context {
    var notifications: seq<Notification>
    var outbox: seq<Effect<Call>>

    constructor ()
      ensures notifications == [] && outbox == []
    {
      notifications := [];
      outbox := [];
    }

    /** `fetchNotifications`: a reply replaces the list; a failure leaves it. */
    method Fetch(reply: Reply<seq<Notification>>)
      modifies this
      ensures outbox == old(outbox) + [Request(FetchNotifications)]
      ensures notifications == if reply.Ok? then reply.value else old(notifications)
    {
      outbox := outbox + [Request(FetchNotifications)];
      if reply.Ok? {
        notifications := reply.value;
      }
    }

    /** `markAsRead(id)`: once the server accepts, every entry with that id leaves the list. */
    method MarkAsRead(id: int, reply: Reply<()>)
      modifies this
      ensures outbox == old(outbox) + [Request(Call.MarkAsRead(id))]
      ensures notifications == if reply.Ok? then Without(old(notifications), id) else old(notifications)
    {
      outbox := outbox + [Request(Call.MarkAsRead(id))];
      if reply.Ok? {
        notifications := Without(notifications, id);
      }
    }

    /** `respondToFriendRequest(id, friendRequestId, response)`: removal only after the server accepts. */
    method RespondToFriendRequest(id: int, friendRequestId: Option<int>, response: string, reply: Reply<()>)
      modifies this
      ensures outbox == old(outbox) + [Request(Call.RespondToFriendRequest(id, friendRequestId, response))]
      ensures notifications == if reply.Ok? then Without(old(notifications), id) else old(notifications)
    {
      outbox := outbox + [Request(Call.RespondToFriendRequest(id, friendRequestId, response))];
      if reply.Ok? {
        notifications := Without(notifications, id);
      }
    }

    /** `respondToTeamInvite(id, response)`: removal only after the server accepts. */
    method RespondToTeamInvite(id: int, response: string, reply: Reply<()>)
      modifies this
      ensures outbox == old(outbox) + [Request(Call.RespondToTeamInvite(id, response))]
      ensures notifications == if reply.Ok? then Without(old(notifications), id) else old(notifications)
    {
      outbox := outbox + [Request(Call.RespondToTeamInvite(id, response))];
      if reply.Ok? {
        notifications := Without(notifications, id);
      }
    }
  }
}

/**
 * The notification list (`NotificationList.js`): the unread entries, each
 * with the buttons its type calls for.
 */
module NotificationList {
  import opened Base
  import opened Notifications
  import opened Effects
  import EntityLists

  /** `notifications.filter(n => !n.read)`. */
  function Unread(s: seq<Notification>): (r: seq<Notification>)
    ensures |r| <= |s|
  {
    if s == [] then []
    else Unread(s[..|s| - 1]) + (if s[|s| - 1].read then [] else [s[|s| - 1]])
  }

  /** Exactly the unread notifications are shown. */
  lemma {:induction false} UnreadMembers(s: seq<Notification>)
    ensures forall n :: n in Unread(s) <==> n in s && !n.read
  {
    if s != [] {
      UnreadMembers(s[..|s| - 1]);
      assert s == s[..|s| - 1] + [s[|s| - 1]];
    }
  }

  /** The filter keeps list order: it distributes over concatenation. */
  lemma {:induction false} UnreadConcat(a: seq<Notification>, b: seq<Notification>)
    ensures Unread(a + b) == Unread(a) + Unread(b)
  {
    if b == [] {
      assert a + b == a;
    } else {
      assert (a + b)[..|a + b| - 1] == a + b[..|b| - 1];
      UnreadConcat(a, b[..|b| - 1]);
    }
  }

  /**
   * After a successful action on entry `id`, the shown list is the one shown
   * before with that entry taken out, in the same order.
   */
  lemma {:induction false} UnreadWithout(s: seq<Notification>, id: int)
    ensures Unread(Without(s, id)) == Without(Unread(s), id)
  {
    if s != [] {
      var init, last := s[..|s| - 1], s[|s| - 1];
      assert s == init + [last];
      UnreadWithout(init, id);
      EntityLists.RemoveWhereConcat(init, [last], NotificationId, id);
      UnreadConcat(Without(init, id), Without([last], id));
      UnreadConcat(init, [last]);
      EntityLists.RemoveWhereConcat(Unread(init), Unread([last]), NotificationId, id);
      assert Unread([last]) == (if last.read then [] else [last]) by {
        assert [last][..0] == [];
      }
      assert Unread(Without([last], id)) == Without(Unread([last]), id) by {
        if last.id == id {
          assert Without([last], id) == [];
        } else {
          assert Without([last], id) == [last];
        }
      }
    }
  }

  /** A button's action: a call into the context. */
  datatype Action =
    | Respond(id: int, friendRequestId: Option<int>, response: string)
    | RespondInvite(id: int, response: string)
    | MarkRead(id: int)

  /** A friend request whose sender the server included. */
  predicate HasRequester(n: Notification)
  {
    n.notificationType == "friend_request" && n.friendRequest.Some? && n.friendRequest.value.user.Some?
  }

  /** The buttons of one entry, in display order. */
  function ActionsFor(n: Notification): (r: seq<Action>)
    ensures forall a :: a in r ==> a.id == n.id
  {
    if HasRequester(n) then
      [Respond(n.id, n.friendRequestId, "accept"), Respond(n.id, n.friendRequestId, "decline")]
    else if n.notificationType == "team_invite" then
      [RespondInvite(n.id, "accept"), RespondInvite(n.id, "decline")]
    else
      [MarkRead(n.id)]
  }

  /**
   * Accept and Decline answer a friend request exactly when it carries its
   * sender; a team invite gets the invite answers; everything else,
   * including a friend request without a sender, only Mark as Read.
   */
  lemma ActionsForCases(n: Notification)
    ensures HasRequester(n) <==> (exists a :: a in ActionsFor(n) && a.Respond?)
    ensures (!HasRequester(n) && n.notificationType == "team_invite") <==> (exists a :: a in ActionsFor(n) && a.RespondInvite?)
    ensures ActionsFor(n) == [MarkRead(n.id)] <==> !HasRequester(n) && n.notificationType != "team_invite"
    ensures HasRequester(n) || n.notificationType == "team_invite" ==>
      |ActionsFor(n)| == 2 && ActionsFor(n)[0].response == "accept" && ActionsFor(n)[1].response == "decline"
  {
    var r := ActionsFor(n);
    if HasRequester(n) {
      assert r[0] in r && r[0].Respond?;
    } else if n.notificationType == "team_invite" {
      assert r[0] in r && r[0].RespondInvite?;
    }
  }

  /** The server call a button's handler makes, with the ids and the answer it passes on. */
  function CallOf(a: Action): (r: Call)
    ensures !r.FetchNotifications? && r.id == a.id
    ensures a.Respond? <==> r.RespondToFriendRequest?
    ensures a.RespondInvite? <==> r.RespondToTeamInvite?
    ensures a.MarkRead? <==> r.MarkAsRead?
  {
    match a
    case Respond(id, frid, response) => Call.RespondToFriendRequest(id, frid, response)
    case RespondInvite(id, response) => Call.RespondToTeamInvite(id, response)
    case MarkRead(id) => Call.MarkAsRead(id)
  }

  /**
   * Every button of an entry calls the server about that entry: a friend
   * request's buttons pass its request id, and Accept and Decline differ
   * only in the answer they send.
   */
  lemma ButtonCalls(n: Notification)
    ensures forall a :: a in ActionsFor(n) ==> CallOf(a).id == n.id
    ensures HasRequester(n) ==>
      CallOf(ActionsFor(n)[0]) == Call.RespondToFriendRequest(n.id, n.friendRequestId, "accept")
      && CallOf(ActionsFor(n)[1]) == Call.RespondToFriendRequest(n.id, n.friendRequestId, "decline")
    ensures !HasRequester(n) && n.notificationType == "team_invite" ==>
      CallOf(ActionsFor(n)[0]) == Call.RespondToTeamInvite(n.id, "accept")
      && CallOf(ActionsFor(n)[1]) == Call.RespondToTeamInvite(n.id, "decline")
    ensures !HasRequester(n) && n.notificationType != "team_invite" ==>
      ActionsFor(n) == [MarkRead(n.id)] && CallOf(MarkRead(n.id)) == Call.MarkAsRead(n.id)
  {
  }

  /** What pressing a button does to the context, given the server's reply. */
  method Press(ctx: Context, a: Action, reply: Reply<()>)
    modifies ctx
    ensures ctx.outbox == old(ctx.outbox) + [Request(CallOf(a))]
    ensures ctx.notifications == if reply.Ok? then Without(old(ctx.notifications), a.id) else old(ctx.notifications)
  {
    match a
    case Respond(id, frid, response) => ctx.RespondToFriendRequest(id, frid, response, reply);
    case RespondInvite(id, response) => ctx.RespondToTeamInvite(id, response, reply);
    case MarkRead(id) => ctx.MarkAsRead(id, reply);
  }
}
