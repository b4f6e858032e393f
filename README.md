# Student project manager client — a Dafny model

This project models the core of a React single-page client for students. The client
covers courses, assignments, team projects and one-to-one video calls.

What the model covers:

- the Kanban board and its drag-and-drop status changes;
- the dashboard calendar and its "featured modules";
- the list pages and their create, update, delete and claim handlers: modules, assignments, teams, projects, project assignments;
- the notification store;
- the user search and friend-request button;
- the session kept in browser storage, and the sign-up form;
- the socket connection manager and the provider that rings on an incoming call;
- the two call screens, which exchange offers, answers, ICE candidates and chat lines through the relay server.

Every screen whose handlers update component state is a `class`:

- React state becomes fields.
- Each handler becomes a method with a `modifies` frame and its whole new state in its `ensures`.
- An awaited server reply becomes a `Reply<T>` parameter, either `Ok(value)` or `Failed(message)`.
- Everything a handler does to the world goes to an `outbox` field of `Effect`s, in order. An effect is a socket emit, a router navigation, or a REST request the screen declares.
- A `TypeError` thrown inside a `try` leaves the state as the `catch` leaves it.

Pure logic is functions and lemmas:

- building the board;
- the day buckets and module ranking;
- filters;
- the truthiness rules;
- the small JavaScript primitives the code relies on, in module `Js`: `String(n)`, `parseInt`, `split`, `includes`, `trim`, `||` on optional strings, and ids that are numbers in one place and route strings in another.

Shared modules:

| module | content |
|---|---|
| `Base` | `Option`, `Reply` |
| `Js` | the JavaScript primitives above |
| `EntityLists` | `list.map(x => x.id === id ? y : x)` as `ReplaceWhere`, and `list.filter(x => x.id !== id)` as `RemoveWhere`, with their laws |
| `Signaling` | socket messages |
| `Effects` | outbox entries |
| `Rtc` | a peer connection reduced to its closed flag, description slots, sender tracks and applied remote candidates |

## Model

| member | source | states |
|---|---|---|
| Js.IntToStringInjective | src/components/AuthenticatedPages/Kanban.js:42-43 | two ids with the same decimal spelling are equal, so a card key names one assignment |
| Js.ParseIntOfString | src/components/AuthenticatedPages/Projects.js:53-54 | `parseInt(String(n))` gives `n` back for every integer |
| Js.SplitAtFirstSeparator | src/components/AuthenticatedPages/Kanban.js:157 | splitting `a + '-' + b`, with no dash in `a`, yields `a` and then the pieces of `b` |
| Js.IncludesIff | src/components/AuthenticatedPages/Kanban.js:162 | `includes` holds exactly when the part occurs at some index |
| Js.MissingCharNotIncluded | src/components/AuthenticatedPages/Kanban.js:162 | a string cannot include a part containing a character the string lacks |
| Js.TrimEmptyIffBlank | src/components/NavBars/SearchButton.js:31 | `trim() === ''` exactly when the string is empty or all white space |
| EntityLists.ReplaceWhereAt | src/components/AuthenticatedPages/Teams.js:67 | replacing by id keeps the length, puts the new record at every index whose id matches, and keeps every other record |
| EntityLists.ReplaceWhereAbsent | src/components/AuthenticatedPages/Modules.js:69 | replacing an id that no record carries changes nothing |
| EntityLists.ReplaceWhereKeepsIds | src/components/AuthenticatedPages/ProjectDetails.js:99-101 | replacing by the new record's own id leaves the sequence of ids unchanged |
| EntityLists.ReplaceWhereIdempotent | src/components/AuthenticatedPages/Assignments.js:91 | replacing twice equals replacing once |
| EntityLists.RemoveWhereSound | src/components/AuthenticatedPages/Teams.js:90 | after removal no record has the id; the length drops by the number of matches; a record survives exactly when it was present with another id |
| EntityLists.RemoveWhereConcat | src/components/AuthenticatedPages/Projects.js:99 | removal distributes over concatenation |
| EntityLists.RemoveWhereIdempotent | src/components/AuthenticatedPages/Modules.js:52 | removing twice equals removing once |
| EntityLists.RemoveWhereAbsent | src/components/AuthenticatedPages/ProjectDetails.js:111 | removing an absent id changes nothing |
| EntityLists.AppendThenRemove | src/components/AuthenticatedPages/Modules.js:42 | removing a freshly appended record whose id was absent restores the list |
| EntityLists.CountIdAppend | src/components/AuthenticatedPages/Projects.js:87 | appending a record adds one match for its own id and none for other ids |
| Kanban.ProcessAssignments | src/components/AuthenticatedPages/Kanban.js:39-55 | the loop writes exactly the entries of the reference map `TaskMap`, a later duplicate overwriting an earlier one, over whatever `tasks` held |
| Kanban.TagsHaveNoDash | src/components/AuthenticatedPages/Kanban.js:57-62 | none of the six list tags contains a dash |
| Kanban.TaskKeyTag | src/components/AuthenticatedPages/Kanban.js:42 | the part of a card key before its first dash is the card's tag |
| Kanban.TaskKeyRecoversId | src/components/AuthenticatedPages/Kanban.js:157 | `draggableId.split('-')[1]` is the decimal spelling of the assignment id (ids are non-negative) |
| Kanban.TaskKeyInjective | src/components/AuthenticatedPages/Kanban.js:42 | different (tag, id) pairs give different card keys |
| Kanban.TaskMapDomain | src/components/AuthenticatedPages/Kanban.js:39-55 | a list writes exactly the keys of its cards, each card carrying the list's tag |
| Kanban.TaskMapTagged | src/components/AuthenticatedPages/Kanban.js:42-47 | every card written from a list carries that list's tag, and its key starts with that tag |
| Kanban.InitialTasksTagged | src/components/AuthenticatedPages/Kanban.js:57-62 | after all six lists, every card's tag is the prefix of its key |
| Kanban.ListedCard | src/components/AuthenticatedPages/Kanban.js:70-89 | a key listed for a list names a card with that list's tag |
| Kanban.InitialColumnCard | src/components/AuthenticatedPages/Kanban.js:64-93 | every id in a column names a card whose tag belongs to that column |
| Kanban.InitialColumnsShape | src/components/AuthenticatedPages/Kanban.js:64-93 | the board has columns 1-3 titled "To Do", "In Progress" and "Done", each keyed by its own id |
| Kanban.InitialBoardListed | src/components/AuthenticatedPages/Kanban.js:64-93 | every listed id has a card |
| Kanban.InitialBoardInOwnColumn | src/components/AuthenticatedPages/Kanban.js:64-93 | every card sits in the column of its status |
| Kanban.SpliceStart | src/components/AuthenticatedPages/Kanban.js:115-116 | `splice` clamps its start into the array and keeps an in-range start |
| Kanban.RemoveAtTakesOut | src/components/AuthenticatedPages/Kanban.js:115 | `splice(i, 1)` in range removes exactly the element at `i` (length and multiset) |
| Kanban.InsertAtPuts | src/components/AuthenticatedPages/Kanban.js:116 | `splice(i, 0, x)` adds exactly `x`, at index `i` when `i` is in range |
| Kanban.SpliceMembers | src/components/AuthenticatedPages/Kanban.js:114-116 | the two splices add no id other than the dragged one |
| Kanban.IgnoredDropChangesNothing | src/components/AuthenticatedPages/Kanban.js:102-108 | a drop without a destination, or onto its own place, leaves the columns unchanged |
| Kanban.WithinColumnMove | src/components/AuthenticatedPages/Kanban.js:113-130 | a move inside a column permutes that column, puts the card at the destination index, and leaves every other column alone |
| Kanban.CrossColumnMove | src/components/AuthenticatedPages/Kanban.js:133-154 | a move across columns keeps the union of the two columns' ids, puts the card in the finish column at the destination index, and leaves the third column alone |
| Kanban.DropKeepsListed | src/components/AuthenticatedPages/Kanban.js:99-154 | if every listed id had a card before a drop of a known card, it still has one after |
| Kanban.RevertRestores | src/components/AuthenticatedPages/Kanban.js:167-178 | the rollback after a refused update restores the columns exactly |
| Kanban.RoutesByTag | src/components/AuthenticatedPages/Kanban.js:161-166 | the project endpoint is used exactly when the tag contains "project"; the status sent is the finish column's title |
| Kanban.RequestCarriesAssignmentId | src/components/AuthenticatedPages/Kanban.js:156-166 | the status request carries the dragged assignment's own id |
| Kanban.Board.constructor | src/components/AuthenticatedPages/Kanban.js:17-21 | the board starts empty |
| Kanban.Board.Load | src/components/AuthenticatedPages/Kanban.js:25-93 | the loaded board is the reference `InitialTasks` and `InitialColumns` plus the fixed column order; the board invariant holds |
| Kanban.Board.OnDragEnd | src/components/AuthenticatedPages/Kanban.js:99-179 | the columns become `AfterDrop`; a cross-column move of a known card sends one status request and, when the request fails, ends with the two columns restored; the board invariant is kept, and a board listing only known cards still does so after a drop of a known card |
| Dashboard.UpcomingMembers | src/components/AuthenticatedPages/Dashboard.js:28-30 | an assignment is kept exactly when it is due now or later |
| Dashboard.UpcomingConcat | src/components/AuthenticatedPages/Dashboard.js:28-30 | the filter distributes over concatenation |
| Dashboard.OnDayMembers | src/components/AuthenticatedPages/Dashboard.js:33-40 | a day's bucket holds exactly the assignments due that day |
| Dashboard.GroupByDay | src/components/AuthenticatedPages/Dashboard.js:33-40 | the loop builds, for every day key, the in-order list of that day's assignments; no bucket is empty |
| Dashboard.SelectedIsDay | src/components/AuthenticatedPages/Dashboard.js:66-71 | the assignments shown for a picked date are exactly those due that day |
| Dashboard.TileClassNamePrecedence | src/components/AuthenticatedPages/Dashboard.js:83-92 | "marked" exactly for month-view tiles with assignments; "other-month" exactly for unmarked month-view tiles of another month; plain otherwise |
| Dashboard.CountByModule | src/components/AuthenticatedPages/Dashboard.js:45-52 | the count map holds exactly the module ids that occur, each with its number of occurrences |
| Dashboard.InsertKeeps | src/components/AuthenticatedPages/Dashboard.js:54-58 | inserting into a descending list keeps it descending and adds exactly the element |
| Dashboard.InsertStable | src/components/AuthenticatedPages/Dashboard.js:54-58 | insertion places a module after every module with an equal count |
| Dashboard.SortByCountCorrect | src/components/AuthenticatedPages/Dashboard.js:54-58 | the reference sort is descending by count, a permutation, and stable (equal counts keep their order) |
| Dashboard.InsertSplit | src/components/AuthenticatedPages/Dashboard.js:54-58 | insertion puts the element right after the last module whose count is at least its own |
| Dashboard.InsertStep | src/components/AuthenticatedPages/Dashboard.js:54-58 | one pass of in-place insertion turns the sorted prefix plus the next element into their sorted insertion, leaving the rest alone |
| Dashboard.SortModules | src/components/AuthenticatedPages/Dashboard.js:54-58 | the in-place array sort leaves the array equal to the stable reference sort by descending count |
| Dashboard.FeaturedAreTop | src/components/AuthenticatedPages/Dashboard.js:60 | at most four modules are featured, and none ranks below an unfeatured one |
| Dashboard.InsertLast | src/components/AuthenticatedPages/Dashboard.js:54-58 | a module whose count is no larger than any other goes last |
| Dashboard.FeaturedFixture | src/tests/Dashboard.test.js:11-23 | with the test's five modules and three assignments, the featured modules are modules 1 to 4, in order |
| Dashboard.Page.constructor | src/components/AuthenticatedPages/Dashboard.js:8-14 | the page starts empty on today's date |
| Dashboard.Page.FetchData | src/components/AuthenticatedPages/Dashboard.js:17-61 | the page keeps the upcoming assignments, marks each day with exactly its assignments, sorts the modules by their counts over all fetched assignments, and features the first four |
| Dashboard.Page.OnDateChange | src/components/AuthenticatedPages/Dashboard.js:66-71 | the picked date and its day key are stored, and the shown assignments are that day's bucket or none |
| Rtc.FirstOfKind | src/components/AuthenticatedPages/VideoCall.js:163 | the first track of a kind is a track of the stream with that kind; none exists only when no track has that kind |
| Rtc.SwapTrackRoundTrip | src/components/AuthenticatedPages/VideoCall.js:165-176 | swapping the camera out for a new screen track and back restores every sender |
| Rtc.SwapTrackTouchesOnly | src/components/AuthenticatedPages/VideoCall.js:165-169 | a sender that did not carry the replaced track keeps its track |
| Rtc.SwapKindEffect | src/components/AuthenticatedPages/VideoCall.js:187-191 | a swap by kind puts the new track on every sender of that kind and leaves the others |
| Rtc.PeerConnection.constructor | src/components/AuthenticatedPages/CallPage.js:59-63 | a new connection is open, with no descriptions, senders or candidates |
| Rtc.PeerConnection.Close | src/components/AuthenticatedPages/VideoCall.js:29-33 | the connection is closed |
| Rtc.PeerConnection.SetLocalDescription | src/components/AuthenticatedPages/CallPage.js:69-70 | an open connection stores the description; a closed one keeps its old one |
| Rtc.PeerConnection.SetRemoteDescription | src/components/AuthenticatedPages/VideoCall.js:92-100 | an open connection stores the remote description; a closed one keeps its old one |
| Rtc.PeerConnection.AddIceCandidate | src/components/AuthenticatedPages/VideoCall.js:71-75 | an open connection appends the candidate |
| Rtc.PeerConnection.OnRemoteCandidate | src/components/AuthenticatedPages/CallPage.js:91-97 | a present candidate is appended exactly when the connection is open |
| Rtc.PeerConnection.AddTracks | src/components/AuthenticatedPages/VideoCall.js:55-59 | an open connection gains a sender for each track, in order |
| Rtc.PeerConnection.ReplaceSenderTrack | src/components/AuthenticatedPages/VideoCall.js:165-169 | the senders become the reference `SwapTrack` of the old senders |
| Rtc.PeerConnection.ReplaceKindTrack | src/components/AuthenticatedPages/VideoCall.js:187-191 | the senders become the reference `SwapKind` of the old senders |
| Sockets.Socket.constructor | src/services/WebSocketManager.js:10-13 | a new socket is for the given user and not yet connected |
| Sockets.Socket.TransportConnected | src/services/WebSocketManager.js:15-17 | the socket is connected |
| Sockets.Socket.Disconnect | src/services/WebSocketManager.js:36 | the socket is disconnected |
| Sockets.Manager.constructor | src/services/WebSocketManager.js:4-6 | the manager starts with no socket |
| Sockets.Manager.Connect | src/services/WebSocketManager.js:8-32 | a fresh socket for the user replaces a missing or disconnected one; a connected socket is kept, whoever it was opened for |
| Sockets.Manager.Disconnect | src/services/WebSocketManager.js:34-39 | the socket is dropped, and an old socket is disconnected |
| Sockets.Manager.GetSocket | src/services/WebSocketManager.js:41-43 | returns the current socket |
| Sockets.Provider.constructor | src/context/WebSocketProvider.js:11-13 | no user, not connected, no incoming call |
| Sockets.Provider.UserChanged | src/context/WebSocketProvider.js:16-25 | a user with a truthy id connects (a socket exists and the flag is set); otherwise connection state is untouched |
| Sockets.Provider.Cleanup | src/context/WebSocketProvider.js:27-35 | the socket is dropped and disconnected, and the flag is cleared |
| Sockets.Provider.OnCallUser | src/context/WebSocketProvider.js:42-45 | the incoming call is stored, replacing any earlier one, and the prompt opens |
| Sockets.Provider.OnCallAccepted | src/context/WebSocketProvider.js:47-50 | navigates to the caller's call screen |
| Sockets.Provider.AcceptCall | src/context/WebSocketProvider.js:70-84 | with a call, a socket and a user: emits accept-call back to the caller with the offer, clears the prompt, navigates to the call screen; otherwise nothing changes |
| Sockets.Provider.RejectCall | src/context/WebSocketProvider.js:86-91 | the prompt closes |
| CallPage.FriendLabel | src/components/AuthenticatedPages/CallPage.js:110 | the display name when it is non-empty, else the name |
| CallPage.Page.constructor | src/components/AuthenticatedPages/CallPage.js:12-15 | no friends, not calling, no connection |
| CallPage.Page.Mount | src/components/AuthenticatedPages/CallPage.js:17-41 | no user: navigate to login; not connected: nothing; otherwise the friends reply is loaded and the accepted-call handler registered |
| CallPage.Page.Unmount | src/components/AuthenticatedPages/CallPage.js:43-48 | the handler is removed and the current connection closed, its descriptions, senders and candidates kept (the cleanup runs whether or not the mount effect passed its guards) |
| CallPage.Page.CallAccepted | src/components/AuthenticatedPages/CallPage.js:35-39 | the answer becomes the remote description (unless closed) and the screen navigates to the call route |
| CallPage.Page.HandleCall | src/components/AuthenticatedPages/CallPage.js:51-98 | when connected: a fresh connection carrying the camera tracks and the offer, one call-user emit with the caller's display name or email, and the connection listening for remote candidates; when not connected: nothing (connection, flag, outbox, relay targets and route all unchanged) |
| CallPage.Page.LocalIceCandidate | src/components/AuthenticatedPages/CallPage.js:80-85 | a present local candidate is emitted to the called friend |
| CallPage.Page.RemoteIceCandidate | src/components/AuthenticatedPages/CallPage.js:91-97 | every connection this page ever opened gets a present candidate unless it is closed; nothing else on those connections changes |
| VideoCall.OffersAsWrittenToSelf | src/components/AuthenticatedPages/VideoCall.js:106 | the guard as written holds for user 5 on route "5", where the intended guard fails |
| VideoCall.OffersIffOtherUser | src/components/AuthenticatedPages/VideoCall.js:106-114 | the corrected guard sends an offer exactly when the route names another user |
| VideoCall.FlipAsWritten | src/components/AuthenticatedPages/VideoCall.js:198-208 | the flag is flipped |
| VideoCall.Flip | src/components/AuthenticatedPages/VideoCall.js:198-208 | the flag is flipped |
| VideoCall.FlipAsWrittenLeavesStep | src/components/AuthenticatedPages/VideoCall.js:198-208 | as written, every press leaves the track on exactly when the flag says off; from the start state one press gives "muted" with the track still on |
| VideoCall.FlipKeepsStep | src/components/AuthenticatedPages/VideoCall.js:198-208 | corrected, every press leaves the track on exactly when the flag is off, and two presses undo each other |
| VideoCall.ToggleChat | src/components/AuthenticatedPages/VideoCall.js:210-213 | chat visibility flips and the invite panel closes |
| VideoCall.ToggleInvite | src/components/AuthenticatedPages/VideoCall.js:215-218 | invite visibility flips and the chat closes |
| VideoCall.PanelsExclusive | src/components/AuthenticatedPages/VideoCall.js:210-218 | after either toggle the two panels are never both open; toggling twice restores that panel |
| VideoCall.Call.constructor | src/components/AuthenticatedPages/VideoCall.js:15-27 | no connection, nothing shared, not muted, camera on, panels closed, no messages |
| VideoCall.Call.Setup | src/components/AuthenticatedPages/VideoCall.js:39-118 | an existing connection: nothing; otherwise a fresh connection, then (with media) the local stream on show and as senders, the listeners set, and one call-user offer exactly when the corrected guard holds |
| VideoCall.Call.EndCall | src/components/AuthenticatedPages/VideoCall.js:29-36 | the connection is closed and dropped with its descriptions, senders and candidates kept; emits end-call to the friend and navigates to the dashboard |
| VideoCall.Call.Cleanup | src/components/AuthenticatedPages/VideoCall.js:122-131 | the connection is closed and dropped with its descriptions, senders and candidates kept; the listeners are removed |
| VideoCall.Call.LocalIceCandidate | src/components/AuthenticatedPages/VideoCall.js:65-69 | a present candidate is emitted to the friend |
| VideoCall.Call.RemoteIceCandidate | src/components/AuthenticatedPages/VideoCall.js:71-75 | a present candidate is added while listening and open |
| VideoCall.Call.RemoteOffer | src/components/AuthenticatedPages/VideoCall.js:77-90 | an offer from another user on an open connection is set as remote, answered, and the answer emitted back; otherwise nothing changes |
| VideoCall.Call.RemoteAnswer | src/components/AuthenticatedPages/VideoCall.js:92-100 | an answer on an open connection becomes the remote description |
| VideoCall.Call.RemoteEndCall | src/components/AuthenticatedPages/VideoCall.js:102-104 | while listening, the peer's end-call ends the call like the local button (the old connection closed, its other fields kept); otherwise nothing changes |
| VideoCall.Call.ToggleScreenShare | src/components/AuthenticatedPages/VideoCall.js:158-196 | starting: the camera sender now carries the screen track, the screen is shown, and what to restore is remembered; stopping: every video sender carries the new camera track, which is shown |
| VideoCall.Call.ScreenEnded | src/components/AuthenticatedPages/VideoCall.js:171-179 | the screen track's sender gets the camera track back, the camera stream is shown again, and sharing stops |
| VideoCall.Call.ToggleTrack | src/components/AuthenticatedPages/VideoCall.js:198-208 | (corrected) the muted or camera-off flag flips and the first track of that kind is left enabled exactly when the new flag is off; no other track or flag changes |
| VideoCall.Call.ToggleChatPanel | src/components/AuthenticatedPages/VideoCall.js:210-213 | panels become `ToggleChat` of the old panels |
| VideoCall.Call.ToggleInvitePanel | src/components/AuthenticatedPages/VideoCall.js:215-218 | panels become `ToggleInvite` of the old panels |
| VideoCall.Call.LoadFriends | src/components/AuthenticatedPages/VideoCall.js:140-144 | friends become the reply, or stay on failure |
| VideoCall.Call.ReceiveMessage | src/components/AuthenticatedPages/VideoCall.js:146-156 | the message is appended |
| VideoCall.Call.SendMessage | src/components/AuthenticatedPages/VideoCall.js:220-230 | the typed text goes out to the friend under the sender's display name or email, is appended locally, and the input clears |
| VideoCall.Call.InviteParticipant | src/components/AuthenticatedPages/VideoCall.js:232-234 | emits invite-participant to the chosen friend from this user |
| Notifications.Without | src/components/AuthenticatedPages/NotificationContext.js:25 | a notification stays exactly when its id differs |
| Notifications.Context.constructor | src/components/AuthenticatedPages/NotificationContext.js:7 | no notifications |
| Notifications.Context.Fetch | src/components/AuthenticatedPages/NotificationContext.js:9-16 | the list becomes the reply, or stays on failure |
| Notifications.Context.MarkAsRead | src/components/AuthenticatedPages/NotificationContext.js:22-29 | the request is sent; on success the notification leaves the list |
| Notifications.Context.RespondToFriendRequest | src/components/AuthenticatedPages/NotificationContext.js:31-38 | the response is sent with both ids; on success the notification leaves the list |
| Notifications.Context.RespondToTeamInvite | src/components/AuthenticatedPages/NotificationContext.js:40-47 | the response is sent; on success the notification leaves the list |
| NotificationList.Unread | src/components/AuthenticatedPages/NotificationList.js:12 | the unread list is no longer than the list |
| NotificationList.UnreadMembers | src/components/AuthenticatedPages/NotificationList.js:12 | a notification is shown exactly when it is in the list and unread |
| NotificationList.UnreadConcat | src/components/AuthenticatedPages/NotificationList.js:12 | the filter distributes over concatenation |
| NotificationList.UnreadWithout | src/components/AuthenticatedPages/NotificationList.js:12 | removing by id and filtering unread commute, so a handled notification disappears from the modal |
| NotificationList.ActionsFor | src/components/AuthenticatedPages/NotificationList.js:20-63 | every button acts on its own notification's id |
| NotificationList.ActionsForCases | src/components/AuthenticatedPages/NotificationList.js:22-62 | accept/decline a friend request exactly when it has a requester; accept/decline an invite exactly for a team invite without one; only "Mark as Read" otherwise |
| NotificationList.CallOf | src/components/AuthenticatedPages/NotificationList.js:35-59 | each button kind calls its own context function (friend request, team invite, mark as read) with the button's notification id |
| NotificationList.ButtonCalls | src/components/AuthenticatedPages/NotificationList.js:22-63 | a friend request's Accept and Decline call `respondToFriendRequest` with the entry's id, its request id and `accept` or `decline`; a team invite's call `respondToTeamInvite`; any other entry's single button calls `markAsRead` with its id |
| NotificationList.Press | src/components/AuthenticatedPages/NotificationList.js:35-59 | pressing a button sends the server call `CallOf` names for it (the entry's id, its friend-request id, the answer) and removes that notification on success, keeping the list on failure |
| Search.StatusFlagsExclusive | src/components/NavBars/SearchButton.js:47-56 | at most one friendship flag is set, and none exactly for an unknown status |
| Search.RequestFailedAlert | src/components/NavBars/SearchButton.js:63-70 | the duplicate-request message is shown as is; any other is prefixed with "Failed to send friend request: " |
| Search.RequestFailedAlertDistinct | src/components/NavBars/SearchButton.js:58-70 | a failure alert never reads as the success alert |
| Search.SearchButton.constructor | src/components/NavBars/SearchButton.js:7-23 | an empty search and no flags |
| Search.SearchButton.SearchChange | src/components/NavBars/SearchButton.js:25-27 | the typed value becomes the search term |
| Search.SearchButton.HandleSearch | src/components/NavBars/SearchButton.js:29-38 | a blank term sends nothing; otherwise the search is sent and results become the reply |
| Search.SearchButton.CheckFriendStatus | src/components/NavBars/SearchButton.js:47-56 | the flags become those of the returned status, or stay on failure |
| Search.SearchButton.HandleUserClick | src/components/NavBars/SearchButton.js:40-45 | the user is selected, the profile opens, the search closes, and the status is checked |
| Search.SearchButton.HandleAddFriend | src/components/NavBars/SearchButton.js:58-71 | success alerts and marks the request sent; failure alerts with `RequestFailedAlert` and keeps the flags |
| Search.SearchButton.CloseProfileModal | src/components/NavBars/SearchButton.js:73-79 | closes the profile, clears the selection and every flag |
| Search.SentRequestHidesAddFriend | src/components/NavBars/SearchButton.js:139 | once a request is sent the add-friend button is hidden |
| Search.AddFriendNotForSelfOrFriend | src/components/NavBars/SearchButton.js:139 | for a signed-in user, the button is hidden exactly for oneself or a user with a known friendship status |
| AuthService.RegisterPayload | src/services/authService.js:11-19 | the confirmation sent equals the password, with email and display name as given |
| AuthService.Current | src/services/authService.js:39-53 | a session is returned exactly when one is stored with a truthy, unexpired token |
| AuthService.Evicted | src/services/authService.js:39-53 | only a stored session with a truthy but expired token is removed; other keys are untouched |
| AuthService.CurrentStable | src/services/authService.js:39-53 | reading the session again gives the same answer and evicts nothing more |
| AuthService.ExpiredStaysGone | src/services/authService.js:43-49 | once no session is current, none becomes current later without a new login |
| AuthService.LoginThenCurrent | src/services/authService.js:23-53 | a stored live session is current until logout, after which none is |
| AuthService.Service.constructor | src/services/authService.js:30 | the service starts over the given storage |
| AuthService.Service.Register | src/services/authService.js:11-21 | sends `RegisterPayload` and returns the reply |
| AuthService.Service.Login | src/services/authService.js:23-33 | sends the sign-in; stores the session exactly when the reply succeeds with a truthy token |
| AuthService.Service.Logout | src/services/authService.js:35-37 | the session key is removed and nothing else |
| AuthService.Service.GetCurrentUser | src/services/authService.js:39-53 | returns `Current` of the old storage and leaves `Evicted` of it |
| Register.Form.constructor | src/components/Auth/Register.js:6-10 | an empty form, no error |
| Register.Form.HandleRegister | src/components/Auth/Register.js:14-26 | mismatched passwords give "Passwords do not match" and no request; otherwise the registration is sent, then the screen navigates to login or shows the error message |
| Modules.Find | src/components/AuthenticatedPages/ProjectDetails.js:57 | a found module is in the list with the id; none exactly when no module has the id |
| Modules.ColorFor | src/components/AuthenticatedPages/Assignments.js:50-53 | white when no module has the id |
| Modules.ColorForFirstMatch | src/components/AuthenticatedPages/ProjectDetails.js:56-59 | the colour of the first module with the id |
| Modules.Page.constructor | src/components/AuthenticatedPages/Modules.js:17-19 | no modules, the blank form with the first palette colour, nothing edited |
| Modules.Page.Load | src/components/AuthenticatedPages/Modules.js:21-31 | modules become the reply, or stay on failure |
| Modules.Page.Create | src/components/AuthenticatedPages/Modules.js:38-47 | sends the form; success appends the module and resets the form; failure changes nothing |
| Modules.Page.Delete | src/components/AuthenticatedPages/Modules.js:49-56 | sends the delete; success removes that id |
| Modules.Page.Edit | src/components/AuthenticatedPages/Modules.js:58-60 | the module becomes current and fills the form |
| Modules.Page.Update | src/components/AuthenticatedPages/Modules.js:65-75 | with nothing edited, nothing happens; otherwise the update is sent and, on success, the module is replaced by id, the form reset and editing ends |
| Modules.Page.Submit | src/components/AuthenticatedPages/Modules.js:129 | dispatches to update while editing, to create otherwise: the matching request is sent; success resets the form, stops editing and replaces or appends the returned module; failure leaves the list, the form and the edited module as they were |
| Teams.FriendChoices | src/components/AuthenticatedPages/Teams.js:31 | one option per friend |
| Teams.Values | src/components/AuthenticatedPages/Teams.js:63 | one id per option |
| Teams.FriendChoicesFaithful | src/components/AuthenticatedPages/Teams.js:31 | the options carry the friends' ids, in order, captioned by display name |
| Teams.Preselect | src/components/AuthenticatedPages/Teams.js:46 | no more preselected than offered |
| Teams.PreselectMembers | src/components/AuthenticatedPages/Teams.js:46 | an option is preselected exactly when its id is a team member's |
| Teams.PreselectConcat | src/components/AuthenticatedPages/Teams.js:46 | the filter distributes over concatenation |
| Teams.ValuesMembers | src/components/AuthenticatedPages/Teams.js:63 | an id is sent exactly when some selected option carries it |
| Teams.PreselectRoundTrip | src/components/AuthenticatedPages/Teams.js:46-63 | opening a team and saving unchanged sends exactly the members who are friends |
| Teams.Managed | src/components/AuthenticatedPages/Teams.js:122 | edit and delete appear exactly on teams the user owns |
| Teams.Page.constructor | src/components/AuthenticatedPages/Teams.js:13-21 | no teams or friends, modals closed, no error |
| Teams.Page.Load | src/components/AuthenticatedPages/Teams.js:24-39 | teams, then friend options, are loaded; a failure of either sets "Failed to fetch teams" |
| Teams.Page.ShowModal | src/components/AuthenticatedPages/Teams.js:41-53 | editing a team fills its name and preselects its friends; a new team starts blank; the modal opens |
| Teams.Page.CloseModal | src/components/AuthenticatedPages/Teams.js:55-58 | the selection clears and the modal closes |
| Teams.Page.Submit | src/components/AuthenticatedPages/Teams.js:60-78 | sends the name and selected ids; success replaces the team by id or appends it and resets the form; failure, or an edit with no selected team, keeps everything |
| Teams.Page.ShowDeleteModal | src/components/AuthenticatedPages/Teams.js:80-83 | the team is selected and the delete modal opens |
| Teams.Page.CloseDeleteModal | src/components/AuthenticatedPages/Teams.js:85 | the delete modal closes |
| Teams.Page.DeleteTeam | src/components/AuthenticatedPages/Teams.js:87-95 | with a selected team, sends the delete; success removes it by id and closes the modal |
| Teams.Page.TeamClick | src/components/AuthenticatedPages/Teams.js:97-99 | navigates to the team's projects |
| Projects.PayloadOfFormOf | src/components/AuthenticatedPages/Projects.js:47-80 | saving a project opened for edit sends its own values, numbers intact |
| Projects.PayloadOfEmptyForm | src/components/AuthenticatedPages/Projects.js:56-79 | the blank form sends NaN for grade weight and module |
| Projects.Page.constructor | src/components/AuthenticatedPages/Projects.js:10-20 | an empty page for the team |
| Projects.Page.Load | src/components/AuthenticatedPages/Projects.js:23-45 | projects (or "Failed to fetch projects") and modules are loaded independently |
| Projects.Page.ShowModal | src/components/AuthenticatedPages/Projects.js:47-66 | the form shows the project and remembers its id, or is blank for a new one |
| Projects.Page.CloseModal | src/components/AuthenticatedPages/Projects.js:68 | the modal closes |
| Projects.Page.Submit | src/components/AuthenticatedPages/Projects.js:70-94 | a truthy edit id sends an update and replaces by that id; otherwise creates, appends and navigates to the new project; the modal closes only on success |
| Projects.Page.Delete | src/components/AuthenticatedPages/Projects.js:96-103 | sends the delete; success removes that id |
| Projects.Page.Open | src/components/AuthenticatedPages/Projects.js:117 | navigates to the project |
| Projects.UntouchedEditKeepsList | src/components/AuthenticatedPages/Projects.js:84 | an update that returns the stored project leaves the list as it was |
| ProjectDetails.Claimable | src/components/AuthenticatedPages/ProjectDetails.js:237 | the claim button appears exactly on unclaimed assignments |
| ProjectDetails.ClaimedNotOffered | src/components/AuthenticatedPages/ProjectDetails.js:127-136 | after a successful claim the claimed assignment no longer offers the button; others are unchanged |
| ProjectDetails.Page.constructor | src/components/AuthenticatedPages/ProjectDetails.js:12-21 | an empty page with a cleared form |
| ProjectDetails.Page.Load | src/components/AuthenticatedPages/ProjectDetails.js:23-54 | project, assignments and modules are loaded independently |
| ProjectDetails.Page.ModuleColor | src/components/AuthenticatedPages/ProjectDetails.js:56-59 | white when no module has the id |
| ProjectDetails.Page.ShowModal | src/components/AuthenticatedPages/ProjectDetails.js:61 | the modal opens |
| ProjectDetails.Page.CloseModal | src/components/AuthenticatedPages/ProjectDetails.js:62-70 | the modal closes and the form clears |
| ProjectDetails.Page.EditClick | src/components/AuthenticatedPages/ProjectDetails.js:117-125 | the assignment is selected, its fields fill the form, editing starts |
| ProjectDetails.Page.Create | src/components/AuthenticatedPages/ProjectDetails.js:72-87 | sends the form unassigned; success appends and clears the form; failure keeps the form |
| ProjectDetails.Page.Update | src/components/AuthenticatedPages/ProjectDetails.js:89-106 | with a selection, sends the form with the selection's assignee; success replaces by the returned id and clears the form; with nothing selected or on failure the list, selection, form fields and modal flags are unchanged |
| ProjectDetails.Page.Delete | src/components/AuthenticatedPages/ProjectDetails.js:108-115 | sends the delete; success removes that id |
| ProjectDetails.Page.Claim | src/components/AuthenticatedPages/ProjectDetails.js:127-136 | sends the claim; success replaces the requested id with the claimed record |
| Assignments.DefaultDraft | src/components/AuthenticatedPages/Assignments.js:20-30 | the blank draft: status "To Do", no parent, no module, empty texts, both dates now |
| Assignments.TopLevel | src/components/AuthenticatedPages/Assignments.js:270 | no more listed than stored |
| Assignments.TopLevelMembers | src/components/AuthenticatedPages/Assignments.js:270 | an assignment is listed exactly when its parent id is not truthy |
| Assignments.TopLevelAppend | src/components/AuthenticatedPages/Assignments.js:69-270 | a created assignment is listed last exactly when it has no parent |
| Assignments.DeleteFromListed | src/components/AuthenticatedPages/Assignments.js:115-270 | after a delete, the listed assignments are the ones listed before less that id, in the same order |
| Assignments.Page.constructor | src/components/AuthenticatedPages/Assignments.js:11-30 | empty, loading, blank draft |
| Assignments.Page.Load | src/components/AuthenticatedPages/Assignments.js:33-48 | assignments, then modules, are loaded; a failure of either sets "Error fetching assignments"; loading ends either way |
| Assignments.Page.ModuleColor | src/components/AuthenticatedPages/Assignments.js:50-53 | white when no module has the id |
| Assignments.Page.Create | src/components/AuthenticatedPages/Assignments.js:65-85 | sends the draft to its module; success appends, resets the draft and closes the form; failure sets "Error creating assignment" |
| Assignments.Page.Update | src/components/AuthenticatedPages/Assignments.js:87-108 | with a selection, sends the draft; success replaces by id and resets; failure, or no selection, sets "Error updating assignment" |
| Assignments.Page.BeginDelete | src/components/AuthenticatedPages/Assignments.js:111 | the assignment is marked as being deleted |
| Assignments.Page.FinishDelete | src/components/AuthenticatedPages/Assignments.js:112-121 | sends the delete; success removes that id, failure sets "Error deleting assignment"; the mark clears either way |
| Assignments.Page.AssignmentClick | src/components/AuthenticatedPages/Assignments.js:124-127 | the assignment is selected and its details open |
| Assignments.Page.EditClick | src/components/AuthenticatedPages/Assignments.js:129-144 | the assignment is selected, its fields fill the draft, the edit form opens |
| Assignments.Page.Listed | src/components/AuthenticatedPages/Assignments.js:270 | exactly the stored assignments without a truthy parent id |

## Left out

- Rendering, CSS classes other than the calendar tile class, modals' markup, `console` logging, and Jest tests beyond the dashboard fixture.
- Asynchrony: each handler runs to completion atomically, with its awaited replies given as parameters. Interleavings of overlapping requests, stale closures and React's batching are not modelled.
- The relay server, the browser's media capture and the ICE machinery: captured streams, offers, answers and candidates are parameters.
- `src/components/AuthenticatedPages/NotificationButton.js`, `Profile.js`, `Login.js`, `AuthContext.js`, the services other than `authService.js` and `WebSocketManager.js`, and the public pages are not part of this model.
- Kanban: the card's `user` field, and the `moduleMap` the loader builds but never reads.
- Kanban.Board.OnDragEnd: the board-wide "no card lost" invariant is stated per move (`WithinColumnMove`, `CrossColumnMove`), not as one multiset over all columns.
- Kanban: ids are keys of plain JavaScript objects; the string coercion of those keys is modelled only for the card keys.
- Dashboard: the `moduleColors` map (only written, never read on the page) and `renderTileContent`, which draws an icon on marked month tiles.
- Dashboard: date parsing and `toDateString` are abstract. Due dates are timestamps, `now` is a parameter, and the day key is a function parameter.
- Js: `parseInt` is modelled for radix 10 without the `0x` prefix and without values past 2^53.
- Sockets.Manager.Connect: the transport's own connect, reconnect and error events are not modelled beyond the `connected` flag.
- CallPage and VideoCall: the socket is assumed present whenever they emit; a call on a missing socket would throw before any state change.
- VideoCall.Call.Cleanup: `socket.off(event)` with no handler argument also removes other screens' listeners for the same event (the provider's `call-user` and `call-accepted`, the call page's `ice-candidate`). The model only clears this screen's listening flag.
- CallPage.Page.LocalIceCandidate: only the latest call's route is kept; local candidates still produced by an earlier call's connection are not modelled.
- Rtc.PeerConnection: signalling-state validity (for example setting an answer without a pending offer) is not modelled; only the closed state rejects operations.
- VideoCall.Call.Setup: the call-user emission is guarded by the corrected `Offers`, so the model never sends an offer to the route's own user; the source as written always sends it (see Findings, `OffersAsWritten`).
- VideoCall.Call.ToggleTrack: the track is set from the corrected `Flip`, so it is enabled exactly when the flag is off after the press; the source as written sets it from the flag's old value (see Findings, `FlipAsWritten`).
- VideoCall: showing the remote stream (`ontrack`, `remoteStream`) is left out.
- VideoCall.Call.ScreenEnded: when the camera stream had no video track, the source calls `replaceTrack(undefined)`; the model then leaves the senders as they are.
- VideoCall.Call.ScreenEnded: only the latest screen share's `onended` is kept. Stopping a share from the button does not stop the screen track, so in the source an earlier share's handler stays armed and, when that track ends later, shows its own camera stream again and clears `isScreenSharing` even while a later share runs.
- Form input handlers are not modelled as members. The form state they write is a plain field that the submit handlers read. This covers `handleInputChange` (Modules.js:33-36), `handleChange` and `handleDateChange` (Assignments.js:55-63), and the field setters bound to inputs in Teams (`setTeamName`, `setSelectedUsers`), Projects, ProjectDetails and VideoCall (`setNewMessage`).
- VideoCall.Call.ToggleScreenShare requires the fresh camera capture to contain a video track. The source asks `getUserMedia` for `{ video: true, audio: true }`, and a capture that cannot deliver video rejects instead of resolving, so the handler never reaches `replaceTrack`. The senders model holds tracks, not empty slots, so a `replaceTrack(undefined)` that would clear the video senders is not represented.
- Modules.Page.Edit: opening the bootstrap modal is left out. The `id` field the form copies from the module is dropped from the draft.
- AuthService: `jwtDecode` is abstract (a function parameter from token to expiry in seconds); a token that fails to decode is not modelled.
- Assignments: the form's string-typed fields (`course_module_id: ''`) are modelled as optional values, and `new Date()` as a `now` parameter.
- CallPage's "Calling..." state and VideoCall's friend list are only rendered; the model stores them and proves nothing beyond that.

## Findings

| source | as written | input that shows it | evidently intended | confidence | as-written member | corrected member |
|---|---|---|---|---|---|---|
| src/components/AuthenticatedPages/VideoCall.js:198-208 | `toggleMute` and `toggleCamera` set the track's `enabled` to the negation of the flag's old value, then flip the flag | the start state: audio track enabled, not muted; one press of mute gives muted with the track still enabled, and every later press keeps the two out of step | the track is enabled exactly when the flag is off after the press | medium, not executed | VideoCall.FlipAsWritten / VideoCall.FlipAsWrittenLeavesStep | VideoCall.Flip / VideoCall.FlipKeepsStep |
| src/components/AuthenticatedPages/VideoCall.js:106 | `user.user.id !== friendId` compares the numeric user id with the string route parameter, so it is always true | user 5 on the route `/video-call/5` | send an offer only when the route names another user | medium, not executed | VideoCall.OffersAsWritten / VideoCall.OffersAsWrittenToSelf | VideoCall.Offers / VideoCall.OffersIffOtherUser |
