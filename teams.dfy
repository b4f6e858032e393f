/**
 * The teams page (`Teams.js`): the user's teams, a form that creates a
 * team or edits one with a selection of friends as members, deletion, and
 * the rule that only a team's owner may edit or delete it.
 */
module Teams {
  import opened Base
  import opened Js
  import opened Effects
  import EntityLists

  datatype Team = Team(id: int, name: string, userIds: seq<int>, ownerId: int)

  function TeamId(t: Team): int { t.id }

  /** A friend as the friends endpoint returns one. */
  datatype Friend = Friend(id: int, displayName: string)

  /** An entry of the member picker: `{ value, label } (`label` as `caption`)`. */
  datatype Choice = Choice(value: int, caption: string)

  /** The `team` object sent on create and update. */
  datatype TeamData = TeamData(name: string, userIds: seq<int>)

  /** The server calls of the page. */
  datatype Call = FetchTeams | GetFriends | UpdateTeam(id: int, data: TeamData) | CreateTeam(data: TeamData) | DeleteTeam(id: int)

  /** `friends.map(f => ({ value: f.id, label: f.display_name }))`. */
  function FriendChoices(fs: seq<Friend>): (r: seq<Choice>)
    ensures |r| == |fs|
  {
    seq(|fs|, i requires 0 <= i < |fs| => Choice(fs[i].id, fs[i].displayName))
  }

  /** `selected.map(c => c.value)`. */
  function Values(cs: seq<Choice>): (r: seq<int>)
    ensures |r| == |cs|
  {
    seq(|cs|, i requires 0 <= i < |cs| => cs[i].value)
  }

  /** Every friend gets one entry, in fetched order, carrying its id and name. */
  lemma FriendChoicesFaithful(fs: seq<Friend>)
    ensures Values(FriendChoices(fs)) == seq(|fs|, i requires 0 <= i < |fs| => fs[i].id)
    ensures forall i :: 0 <= i < |fs| ==> FriendChoices(fs)[i].caption == fs[i].displayName
  {
  }

  /** `friends.filter(f => team.user_ids.includes(f.value))`. */
  function Preselect(cs: seq<Choice>, userIds: seq<int>): (r: seq<Choice>)
    ensures |r| <= |cs|
  {
    if cs == [] then []
    else Preselect(cs[..|cs| - 1], userIds) + (if cs[|cs| - 1].value in userIds then [cs[|cs| - 1]] else [])
  }

  /** The preselection holds exactly the friends that are members. */
  lemma {:induction false} PreselectMembers(cs: seq<Choice>, userIds: seq<int>)
    ensures forall c :: c in Preselect(cs, userIds) <==> c in cs && c.value in userIds
  {
    if cs != [] {
      PreselectMembers(cs[..|cs| - 1], userIds);
      assert cs == cs[..|cs| - 1] + [cs[|cs| - 1]];
    }
  }

  /** The preselection keeps the friends' order: it distributes over concatenation. */
  lemma {:induction false} PreselectConcat(a: seq<Choice>, b: seq<Choice>, userIds: seq<int>)
    ensures Preselect(a + b, userIds) == Preselect(a, userIds) + Preselect(b, userIds)
  {
    if b == [] {
      assert a + b == a;
    } else {
      assert (a + b)[..|a + b| - 1] == a + b[..|b| - 1];
      PreselectConcat(a, b[..|b| - 1], userIds);
    }
  }

  lemma ValuesMembers(cs: seq<Choice>)
    ensures forall v :: v in Values(cs) <==> exists c :: c in cs && c.value == v
  {
    forall v | v in Values(cs) ensures exists c :: c in cs && c.value == v {
      var i :| 0 <= i < |cs| && Values(cs)[i] == v;
      assert cs[i] in cs;
    }
    forall v | exists c :: c in cs && c.value == v ensures v in Values(cs) {
      var c :| c in cs && c.value == v;
      var i :| 0 <= i < |cs| && cs[i] == c;
      assert Values(cs)[i] == v;
    }
  }

  /**
   * Saving an edited team without touching the selection sends as members
   * exactly those members of the team that are among the user's friends.
   */
  lemma PreselectRoundTrip(cs: seq<Choice>, userIds: seq<int>)
    ensures forall v :: v in Values(Preselect(cs, userIds)) <==> v in userIds && v in Values(cs)
  {
    PreselectMembers(cs, userIds);
    ValuesMembers(cs);
    ValuesMembers(Preselect(cs, userIds));
  }

  /** The owner gate: edit and delete controls appear for the team's owner only. */
  predicate CanManage(t: Team, me: int)
  {
    t.ownerId == me
  }

  /** The teams the signed-in user may edit or delete. */
  function Managed(teams: seq<Team>, me: int): (r: seq<Team>)
    ensures forall t :: t in r <==> t in teams && CanManage(t, me)
  {
    if teams == [] then []
    else
      var rest := Managed(teams[1..], me);
      assert forall t :: t in teams <==> t == teams[0] || t in teams[1..];
      if CanManage(teams[0], me) then [teams[0]] + rest else rest
  }

  class Page {
    var teams: seq<Team>
    var showModal: bool
    var showDeleteModal: bool
    var editMode: bool
    var teamName: string
    var friends: seq<Choice>
    var selectedUsers: seq<Choice>
    var selectedTeam: Option<Team>
    var error: string
    var outbox: seq<Effect<Call>>

    constructor ()
      ensures teams == [] && !showModal && !showDeleteModal && !editMode && teamName == ""
      ensures friends == [] && selectedUsers == [] && selectedTeam == None && error == "" && outbox == []
    {
      teams := [];
      showModal := false;
      showDeleteModal := false;
      editMode := false;
      teamName := "";
      friends := [];
      selectedUsers := [];
      selectedTeam := None;
      error := "";
      outbox := [];
    }

    /**
     * The initial fetch: the teams, then the friends as picker entries. A
     * failure of either sets the error; after a failed teams fetch the
     * friends are not asked for.
     */
    method Load(teamsReply: Reply<seq<Team>>, friendsReply: Reply<seq<Friend>>)
      modifies this`teams, this`friends, this`error, this`outbox
      ensures teamsReply.Failed? ==>
        outbox == old(outbox) + [Request(FetchTeams)] && teams == old(teams) && friends == old(friends) && error == "Failed to fetch teams"
      ensures teamsReply.Ok? ==>
        outbox == old(outbox) + [Request(FetchTeams), Request(GetFriends)] && teams == teamsReply.value
      ensures teamsReply.Ok? && friendsReply.Ok? ==> friends == FriendChoices(friendsReply.value) && error == old(error)
      ensures teamsReply.Ok? && friendsReply.Failed? ==> friends == old(friends) && error == "Failed to fetch teams"
    {
      outbox := outbox + [Request(FetchTeams)];
      if teamsReply.Failed? {
        error := "Failed to fetch teams";
        return;
      }
      teams := teamsReply.value;
      outbox := outbox + [Request(GetFriends)];
      if friendsReply.Failed? {
        error := "Failed to fetch teams";
        return;
      }
      friends := FriendChoices(friendsReply.value);
    }

    /** `handleShowModal(team)`: edit a team with its friend members preselected, or start an empty one. */
    method ShowModal(team: Option<Team>)
      modifies this`editMode, this`selectedTeam, this`teamName, this`selectedUsers, this`showModal
      ensures showModal
      ensures team.Some? ==>
        editMode && selectedTeam == team && teamName == team.value.name
        && selectedUsers == Preselect(friends, team.value.userIds)
      ensures team.None? ==> !editMode && selectedTeam == old(selectedTeam) && teamName == "" && selectedUsers == []
    {
      if team.Some? {
        editMode := true;
        selectedTeam := team;
        teamName := team.value.name;
        selectedUsers := Preselect(friends, team.value.userIds);
      } else {
        editMode := false;
        teamName := "";
        selectedUsers := [];
      }
      showModal := true;
    }

    /** `handleCloseModal`. */
    method CloseModal()
      modifies this`selectedTeam, this`showModal
      ensures selectedTeam == None && !showModal
    {
      selectedTeam := None;
      showModal := false;
    }

    /**
     * `handleCreateOrUpdateTeam`: sends the name and the selected member ids,
     * in selection order; an update replaces the team with the returned id,
     * a create appends the new team; both then reset and close the form. A
     * failure changes nothing, and so does an edit with no selected team
     * (the handler throws inside its `try`).
     */
    method Submit(reply: Reply<Team>)
      modifies this`teams, this`teamName, this`selectedUsers, this`selectedTeam, this`showModal, this`outbox
      ensures var data := TeamData(old(teamName), Values(old(selectedUsers)));
        && (editMode && old(selectedTeam).Some? ==> outbox == old(outbox) + [Request(UpdateTeam(old(selectedTeam).value.id, data))])
        && (!editMode ==> outbox == old(outbox) + [Request(CreateTeam(data))])
      ensures editMode && old(selectedTeam).None? ==>
        outbox == old(outbox) && teams == old(teams) && teamName == old(teamName) && selectedUsers == old(selectedUsers)
        && selectedTeam == old(selectedTeam) && showModal == old(showModal)
      ensures (!editMode || old(selectedTeam).Some?) && reply.Ok? ==>
        && teams == (if editMode then EntityLists.ReplaceWhere(old(teams), TeamId, reply.value.id, reply.value) else old(teams) + [reply.value])
        && teamName == "" && selectedUsers == [] && selectedTeam == None && !showModal
      ensures reply.Failed? ==>
        teams == old(teams) && teamName == old(teamName) && selectedUsers == old(selectedUsers)
        && selectedTeam == old(selectedTeam) && showModal == old(showModal)
    {
      var data := TeamData(teamName, Values(selectedUsers));
      if editMode {
        if selectedTeam.None? {
          return;
        }
        outbox := outbox + [Request(UpdateTeam(selectedTeam.value.id, data))];
        if reply.Failed? {
          return;
        }
        teams := EntityLists.ReplaceWhere(teams, TeamId, reply.value.id, reply.value);
      } else {
        outbox := outbox + [Request(CreateTeam(data))];
        if reply.Failed? {
          return;
        }
        teams := teams + [reply.value];
      }
      teamName := "";
      selectedUsers := [];
      CloseModal();
    }

    /** `handleShowDeleteModal(team)`. */
    method ShowDeleteModal(team: Team)
      modifies this`selectedTeam, this`showDeleteModal
      ensures selectedTeam == Some(team) && showDeleteModal
    {
      selectedTeam := Some(team);
      showDeleteModal := true;
    }

    /** `handleCloseDeleteModal`. */
    method CloseDeleteModal()
      modifies this`showDeleteModal
      ensures !showDeleteModal
    {
      showDeleteModal := false;
    }

    /**
     * `handleDeleteTeam`: once the server accepts, the selected team's id
     * leaves the list and the dialog closes; a failure, or no selected team,
     * changes nothing.
     */
    method DeleteTeam(reply: Reply<()>)
      modifies this`teams, this`showDeleteModal, this`outbox
      ensures selectedTeam.None? ==> teams == old(teams) && showDeleteModal == old(showDeleteModal) && outbox == old(outbox)
      ensures selectedTeam.Some? ==> outbox == old(outbox) + [Request(Call.DeleteTeam(selectedTeam.value.id))]
      ensures selectedTeam.Some? && reply.Ok? ==>
        teams == EntityLists.RemoveWhere(old(teams), TeamId, selectedTeam.value.id) && !showDeleteModal
      ensures reply.Failed? ==> teams == old(teams) && showDeleteModal == old(showDeleteModal)
    {
      if selectedTeam.None? {
        return;
      }
      outbox := outbox + [Request(Call.DeleteTeam(selectedTeam.value.id))];
      if reply.Ok? {
        teams := EntityLists.RemoveWhere(teams, TeamId, selectedTeam.value.id);
        CloseDeleteModal();
      }
    }

    /** `handleTeamClick(id)`: go to the team's projects. */
    method TeamClick(teamId: int)
      modifies this`outbox
      ensures outbox == old(outbox) + [Navigate("/teams/" + IntToString(teamId) + "/projects")]
    {
      outbox := outbox + [Navigate("/teams/" + IntToString(teamId) + "/projects")];
    }
  }
}
