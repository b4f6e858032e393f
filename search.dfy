/**
 * The user search in the navigation bar (`SearchButton.js`): search by a
 * term, open a user's profile, look up the friendship status and send a
 * friend request.
 */
module Search {
  import opened Base
  import opened Js
  import opened Effects

  /** A user as the search endpoint returns one. */
  datatype Profile = Profile(id: int, displayName: string, pictureUrl: Option<string>)

  /** The server calls the search makes. */
  datatype Call = SearchUsers(term: string) | GetFriendshipStatus(userId: int) | SendFriendRequest(userId: int)

  /** `isFriend`, `friendRequestSent`, `friendRequestReceived`. */
  datatype Flags = Flags(isFriend: bool, requestSent: bool, requestReceived: bool)

  predicate NoFlag(f: Flags) { !f.isFriend && !f.requestSent && !f.requestReceived }

  /** The flags a friendship status string sets. */
  function StatusFlags(status: string): Flags
  {
    Flags(status == "friends", status == "request_sent", status == "request_received")
  }

  /**
   * Each of the three known statuses sets its own flag and no other; any
   * other status sets none.
   */
  lemma StatusFlagsExclusive(status: string)
    ensures var f := StatusFlags(status);
      && !(f.isFriend && f.requestSent) && !(f.isFriend && f.requestReceived) && !(f.requestSent && f.requestReceived)
      && (NoFlag(f) <==> status !in {"friends", "request_sent", "request_received"})
  {
    assert "friends" != "request_sent" by { assert |"friends"| != |"request_sent"|; }
    assert "friends" != "request_received" by { assert |"friends"| != |"request_received"|; }
    assert "request_sent" != "request_received" by { assert "request_sent"[8] != "request_received"[8]; }
  }

  /** The alert shown when a friend request fails with `message`. */
  function RequestFailedAlert(message: string): (r: string)
    ensures message == "Friend request already sent or received." ==> r == message
    ensures message != "Friend request already sent or received." ==> r == "Failed to send friend request: " + message
  {
    if message == "Friend request already sent or received." then message
    else "Failed to send friend request: " + message
  }

  /** The two alerts a failed request can show are told apart by their text. */
  lemma RequestFailedAlertDistinct(message: string)
    ensures RequestFailedAlert(message) != "Friend request sent!"
  {
    var r := RequestFailedAlert(message);
    if message == "Friend request already sent or received." {
      assert r[15] != "Friend request sent!"[15];
    } else {
      assert r[1] != "Friend request sent!"[1];
    }
  }

  /** Whether the profile offers "Add Friend". */
  predicate ShowAddFriend(currentUser: Option<int>, selected: Option<Profile>, f: Flags)
  {
    currentUser.Some? && (selected.None? || selected.value.id != currentUser.value) && NoFlag(f)
  }

  class SearchButton {
    var showSearchModal: bool
    var searchTerm: string
    var searchResults: seq<Profile>
    var selectedUser: Option<Profile>
    var showProfileModal: bool
    var flags: Flags
    /** `currentUser.user.id`, when someone is signed in. */
    var currentUser: Option<int>
    var alerts: seq<string>
    var outbox: seq<Effect<Call>>

    constructor (currentUser: Option<int>)
      ensures this.currentUser == currentUser
      ensures !showSearchModal && searchTerm == "" && searchResults == [] && selectedUser == None
      ensures !showProfileModal && flags == Flags(false, false, false) && alerts == [] && outbox == []
    {
      this.currentUser := currentUser;
      showSearchModal := false;
      searchTerm := "";
      searchResults := [];
      selectedUser := None;
      showProfileModal := false;
      flags := Flags(false, false, false);
      alerts := [];
      outbox := [];
    }

    /** `handleSearchChange`: the input's value becomes the search term. */
    method SearchChange(value: string)
      modifies this`searchTerm
      ensures searchTerm == value
    {
      searchTerm := value;
    }

    /** `handleSearch`: a blank term sends nothing; otherwise a reply replaces the results. */
    method HandleSearch(reply: Reply<seq<Profile>>)
      modifies this`searchResults, this`outbox
      ensures Blank(searchTerm) ==> searchResults == old(searchResults) && outbox == old(outbox)
      ensures !Blank(searchTerm) ==>
        && outbox == old(outbox) + [Request(SearchUsers(searchTerm))]
        && searchResults == (if reply.Ok? then reply.value else old(searchResults))
    {
      TrimEmptyIffBlank(searchTerm);
      if Trim(searchTerm) == "" {
        return;
      }
      outbox := outbox + [Request(SearchUsers(searchTerm))];
      if reply.Ok? {
        searchResults := reply.value;
      }
    }

    /** `checkFriendStatus(userId)`: a status sets the flags; a failure leaves them. */
    method CheckFriendStatus(userId: int, reply: Reply<string>)
      modifies this`flags, this`outbox
      ensures outbox == old(outbox) + [Request(GetFriendshipStatus(userId))]
      ensures flags == if reply.Ok? then StatusFlags(reply.value) else old(flags)
    {
      outbox := outbox + [Request(GetFriendshipStatus(userId))];
      if reply.Ok? {
        flags := StatusFlags(reply.value);
      }
    }

    /** `handleUserClick(user)`: open the profile, look up the status, close the search. */
    method HandleUserClick(user: Profile, statusReply: Reply<string>)
      modifies this`selectedUser, this`showProfileModal, this`flags, this`outbox, this`showSearchModal
      ensures selectedUser == Some(user) && showProfileModal && !showSearchModal
      ensures outbox == old(outbox) + [Request(GetFriendshipStatus(user.id))]
      ensures flags == if statusReply.Ok? then StatusFlags(statusReply.value) else old(flags)
    {
      selectedUser := Some(user);
      showProfileModal := true;
      CheckFriendStatus(user.id, statusReply);
      showSearchModal := false;
    }

    /** `handleAddFriend(userId)`: success marks the request as sent; either way an alert says what happened. */
    method HandleAddFriend(userId: int, reply: Reply<()>)
      modifies this`flags, this`alerts, this`outbox
      ensures outbox == old(outbox) + [Request(SendFriendRequest(userId))]
      ensures reply.Ok? ==> alerts == old(alerts) + ["Friend request sent!"] && flags == old(flags).(requestSent := true)
      ensures reply.Failed? ==> alerts == old(alerts) + [RequestFailedAlert(reply.message)] && flags == old(flags)
    {
      outbox := outbox + [Request(SendFriendRequest(userId))];
      if reply.Ok? {
        alerts := alerts + ["Friend request sent!"];
        flags := flags.(requestSent := true);
      } else {
        alerts := alerts + [RequestFailedAlert(reply.message)];
      }
    }

    /** `handleCloseProfileModal`: close the profile and forget the user and every flag. */
    method CloseProfileModal()
      modifies this`showProfileModal, this`selectedUser, this`flags
      ensures !showProfileModal && selectedUser == None && NoFlag(flags)
      ensures !AddFriendShown() <==> currentUser.None?
    {
      showProfileModal := false;
      selectedUser := None;
      flags := Flags(false, false, false);
    }

    /** The "Add Friend" button's condition on the current state. */
    predicate AddFriendShown()
      reads this
    {
      ShowAddFriend(currentUser, selectedUser, flags)
    }
  }

  /**
   * After a successful friend request, the profile no longer offers "Add
   * Friend", whatever it offered before.
   */
  lemma SentRequestHidesAddFriend(currentUser: Option<int>, selected: Option<Profile>, f: Flags)
    ensures !ShowAddFriend(currentUser, selected, f.(requestSent := true))
  {
  }

  /** A user never sees "Add Friend" on their own profile, nor on a friend's. */
  lemma AddFriendNotForSelfOrFriend(me: int, selected: Profile, status: string)
    ensures !ShowAddFriend(Some(me), Some(selected), StatusFlags(status)) <==>
      selected.id == me || status in {"friends", "request_sent", "request_received"}
  {
    StatusFlagsExclusive(status);
  }
}
