/** The teams store: a cache of team records fetched from the server, with
    one loading flag and one error slot, and the reducer cases that the
    seven team operations' pending, fulfilled and rejected outcomes run. */
module TeamsSlice {
  import opened JsValue
  import opened JsArray
  import opened Rejection

  /** A team member as the server returns it; any field may be missing. */
  datatype Member = Member(userId: Option<string>, email: Option<string>, role: Option<string>)

  /** A team record: server-assigned `_id`, a name, and a member list that
      the server may leave out. */
  datatype Team = Team(id: string, name: string, members: Option<seq<Member>>)

  /** A member's identity, `member.userId || member.email`: a missing or
      empty user id falls back to the email. */
  function Identity(m: Member): (r: Option<string>)
    ensures Truthy(m.userId) ==> r == m.userId
    ensures !Truthy(m.userId) ==> r == m.email
  {
    Or(m.userId, m.email)
  }

  // ---------------------------------------------------------------------
  // The tests and per-element updates the fulfilled cases use
  // ---------------------------------------------------------------------

  function HasId(id: string): Team -> bool
  {
    (t: Team) => t.id == id
  }

  function OtherThan(id: string): Team -> bool
  {
    (t: Team) => t.id != id
  }

  function IdentityIsNot(key: Option<string>): Member -> bool
  {
    (m: Member) => Identity(m) != key
  }

  function SameIdentity(u: Member): Member -> bool
  {
    (m: Member) => Identity(m) == Identity(u)
  }

  /** The team's members, or the empty list the add case creates first. */
  function MembersOrEmpty(t: Team): seq<Member>
  {
    if t.members.Some? then t.members.value else []
  }

  /** Push a member onto a team's list, creating the list when absent. */
  function AppendMember(m: Member): Team -> Team
  {
    (t: Team) => t.(members := Some(MembersOrEmpty(t) + [m]))
  }

  /** Drop the members whose identity is `key`; a team without a member
      list is left alone. */
  function DropMember(key: Option<string>): Team -> Team
  {
    (t: Team) => if t.members.None? then t else t.(members := Some(Filter(t.members.value, IdentityIsNot(key))))
  }

  /** Replace the first member with the same identity as `u` by `u`; a team
      without a member list is left alone. */
  function ReplaceMember(u: Member): Team -> Team
  {
    (t: Team) => if t.members.None? then t else t.(members := Some(UpdateFirst(t.members.value, SameIdentity(u), Const(u))))
  }

  // ---------------------------------------------------------------------
  // What each fulfilled case does to the team list
  // ---------------------------------------------------------------------

  /** `updateTeam.fulfilled`: the first team with the payload's id becomes
      the payload. Every position keeps its id, and every team with another
      id is kept as it was. */
  function UpdatedTeam(teams: seq<Team>, team: Team): (r: seq<Team>)
    ensures |r| == |teams|
    ensures forall i :: 0 <= i < |teams| ==> r[i].id == teams[i].id
    ensures forall i :: 0 <= i < |teams| && teams[i].id != team.id ==> r[i] == teams[i]
  {
    UpdateFirst(teams, HasId(team.id), Const(team))
  }

  /** `deleteTeam.fulfilled`: the teams whose id differs from the deleted
      one. No team with that id remains. */
  function DeletedTeam(teams: seq<Team>, id: string): (r: seq<Team>)
    ensures |r| <= |teams|
    ensures forall i :: 0 <= i < |r| ==> r[i].id != id
  {
    Filter(teams, OtherThan(id))
  }

  /** `addMemberToTeam.fulfilled`: push the member onto the first team with
      `teamId`. Every position keeps its id, and every team with another id
      is kept as it was. */
  function AddedMember(teams: seq<Team>, teamId: string, m: Member): (r: seq<Team>)
    ensures |r| == |teams|
    ensures forall i :: 0 <= i < |teams| ==> r[i].id == teams[i].id
    ensures forall i :: 0 <= i < |teams| && teams[i].id != teamId ==> r[i] == teams[i]
  {
    UpdateFirst(teams, HasId(teamId), AppendMember(m))
  }

  /** `removeMemberFromTeam.fulfilled`: filter the first team with `teamId`.
      Every position keeps its id, and every team with another id is kept
      as it was. */
  function RemovedMember(teams: seq<Team>, teamId: string, key: Option<string>): (r: seq<Team>)
    ensures |r| == |teams|
    ensures forall i :: 0 <= i < |teams| ==> r[i].id == teams[i].id
    ensures forall i :: 0 <= i < |teams| && teams[i].id != teamId ==> r[i] == teams[i]
  {
    UpdateFirst(teams, HasId(teamId), DropMember(key))
  }

  /** `updateMemberRole.fulfilled`: replace a member in the first team with
      `teamId`. Every position keeps its id, and every team with another id
      is kept as it was. */
  function UpdatedRole(teams: seq<Team>, teamId: string, u: Member): (r: seq<Team>)
    ensures |r| == |teams|
    ensures forall i :: 0 <= i < |teams| ==> r[i].id == teams[i].id
    ensures forall i :: 0 <= i < |teams| && teams[i].id != teamId ==> r[i] == teams[i]
  {
    UpdateFirst(teams, HasId(teamId), ReplaceMember(u))
  }

  // ---------------------------------------------------------------------
  // Well-formedness: unique team ids, unique member identities per team
  // ---------------------------------------------------------------------

  ghost predicate UniqueIds(teams: seq<Team>)
  {
    forall i, j :: 0 <= i < j < |teams| ==> teams[i].id != teams[j].id
  }

  ghost predicate UniqueIdentities(ms: seq<Member>)
  {
    forall i, j :: 0 <= i < j < |ms| ==> Identity(ms[i]) != Identity(ms[j])
  }

  ghost predicate TeamWellFormed(t: Team)
  {
    t.members.Some? ==> UniqueIdentities(t.members.value)
  }

  /** The data-layer invariant: no two teams share an id, and within a team
      no two members share an identity. */
  ghost predicate WellFormed(teams: seq<Team>)
  {
    UniqueIds(teams) && forall i :: 0 <= i < |teams| ==> TeamWellFormed(teams[i])
  }

  // ---------------------------------------------------------------------
  // Properties of the fulfilled cases
  // ---------------------------------------------------------------------

  /** Updating a team touches only the first team with the payload's id:
      length and every other team are kept, and an unknown id is a no-op. */
  lemma UpdatedTeamReplacesFirstMatch(teams: seq<Team>, team: Team)
    ensures var r := UpdatedTeam(teams, team);
      && |r| == |teams|
      && ((forall i :: 0 <= i < |teams| ==> teams[i].id != team.id) ==> r == teams)
      && (forall i :: 0 <= i < |teams| && teams[i].id != team.id ==> r[i] == teams[i])
      && forall i :: 0 <= i < |teams| && teams[i].id == team.id ==>
           r[i] == (if (forall j :: 0 <= j < i ==> teams[j].id != team.id) then team else teams[i])
  {
  }

  /** Deleting removes every team with the id, keeps all others in their
      order and multiplicity, and a second delete changes nothing. */
  lemma DeletedTeamRemovesExactly(teams: seq<Team>, id: string)
    ensures var r := DeletedTeam(teams, id);
      && (forall i :: 0 <= i < |r| ==> r[i].id != id)
      && (forall t: Team :: t.id != id ==> multiset(r)[t] == multiset(teams)[t])
      && IsSubsequence(r, teams)
      && DeletedTeam(r, id) == r
  {
    forall t: Team | t.id != id
      ensures multiset(DeletedTeam(teams, id))[t] == multiset(teams)[t]
    {
      FilterCounts(teams, OtherThan(id), t);
    }
    FilterIsSubsequence(teams, OtherThan(id));
    FilterIdempotent(teams, OtherThan(id));
  }

  /** Adding a member pushes it onto the first team with the id (on an empty
      list when the team had none); no other team changes, and an unknown
      team id is a no-op. */
  lemma AddedMemberAppends(teams: seq<Team>, teamId: string, m: Member)
    ensures var r := AddedMember(teams, teamId, m); var k := FindIndex(teams, HasId(teamId));
      && |r| == |teams|
      && (k == -1 ==> r == teams)
      && (k != -1 ==>
            && r[k].id == teams[k].id && r[k].name == teams[k].name
            && r[k].members == Some(MembersOrEmpty(teams[k]) + [m])
            && forall j :: 0 <= j < |teams| && j != k ==> r[j] == teams[j])
  {
  }

  /** Removing a member keeps exactly the members of the first matching team
      whose identity differs from `key`; nothing else changes, and nothing
      at all changes when the team or its member list is missing. */
  lemma RemovedMemberKeepsOthers(teams: seq<Team>, teamId: string, key: Option<string>)
    ensures var r := RemovedMember(teams, teamId, key); var k := FindIndex(teams, HasId(teamId));
      && |r| == |teams|
      && ((k == -1 || teams[k].members.None?) ==> r == teams)
      && (k != -1 && teams[k].members.Some? ==>
            && r[k].id == teams[k].id && r[k].name == teams[k].name
            && r[k].members.Some?
            && (forall x :: 0 <= x < |r[k].members.value| ==> Identity(r[k].members.value[x]) != key)
            && (forall mem: Member :: Identity(mem) != key ==>
                  multiset(r[k].members.value)[mem] == multiset(teams[k].members.value)[mem])
            && IsSubsequence(r[k].members.value, teams[k].members.value)
            && forall j :: 0 <= j < |teams| && j != k ==> r[j] == teams[j])
  {
    var k := FindIndex(teams, HasId(teamId));
    if k != -1 && teams[k].members.Some? {
      var ms := teams[k].members.value;
      forall mem | Identity(mem) != key
        ensures multiset(Filter(ms, IdentityIsNot(key)))[mem] == multiset(ms)[mem]
      {
        FilterCounts(ms, IdentityIsNot(key), mem);
      }
      FilterIsSubsequence(ms, IdentityIsNot(key));
    }
  }

  /** Removing the same member twice is removing it once. */
  lemma RemovedMemberIdempotent(teams: seq<Team>, teamId: string, key: Option<string>)
    ensures RemovedMember(RemovedMember(teams, teamId, key), teamId, key) == RemovedMember(teams, teamId, key)
  {
    var r := RemovedMember(teams, teamId, key);
    var k := FindIndex(teams, HasId(teamId));
    if k != -1 {
      assert HasId(teamId)(r[k]);
      assert FindIndex(r, HasId(teamId)) == k;
      if teams[k].members.Some? {
        FilterIdempotent(teams[k].members.value, IdentityIsNot(key));
      }
    } else {
      assert r == teams;
    }
  }

  /** Updating a role replaces only the first member with the updated
      member's identity; the member count and every other member are kept,
      and a missing team, member list or member is a no-op. */
  lemma UpdatedRoleReplacesFirstMatch(teams: seq<Team>, teamId: string, u: Member)
    ensures var r := UpdatedRole(teams, teamId, u); var k := FindIndex(teams, HasId(teamId));
      && |r| == |teams|
      && (forall j :: 0 <= j < |teams| && j != k ==> r[j] == teams[j])
      && ((k == -1 || teams[k].members.None?) ==> r == teams)
      && (k != -1 && teams[k].members.Some? ==>
            var ms := teams[k].members.value; var mi := FindIndex(ms, SameIdentity(u));
            && r[k].id == teams[k].id && r[k].name == teams[k].name
            && r[k].members.Some? && |r[k].members.value| == |ms|
            && (mi == -1 ==> r[k] == teams[k])
            && (mi != -1 ==> r[k].members.value == ms[mi := u])
            && (mi != -1 ==> Identity(ms[mi]) == Identity(u)))
  {
  }

  // ---------------------------------------------------------------------
  // Which cases keep the data-layer invariant
  // ---------------------------------------------------------------------

  /** A member-list update at the first team with `teamId` that keeps every
      team's id, and whose per-team update keeps a team well formed, keeps
      the whole list well formed. */
  lemma UpdateFirstKeepsWellFormed(teams: seq<Team>, teamId: string, f: Team -> Team)
    requires WellFormed(teams)
    requires var k := FindIndex(teams, HasId(teamId));
      k != -1 ==> f(teams[k]).id == teams[k].id && TeamWellFormed(f(teams[k]))
    ensures WellFormed(UpdateFirst(teams, HasId(teamId), f))
  {
  }

  /** Removing members keeps a list free of duplicate identities. */
  lemma DropMemberKeepsWellFormed(t: Team, key: Option<string>)
    requires TeamWellFormed(t)
    ensures TeamWellFormed(DropMember(key)(t)) && DropMember(key)(t).id == t.id
  {
    if t.members.Some? {
      FilterKeepsUniqueIdentities(t.members.value, IdentityIsNot(key));
    }
  }

  /** Any filter of a list free of duplicate identities is free of them. */
  lemma {:induction false} FilterKeepsUniqueIdentities(ms: seq<Member>, p: Member -> bool)
    requires UniqueIdentities(ms)
    ensures UniqueIdentities(Filter(ms, p))
    decreases |ms|
  {
    if ms != [] {
      var rest := Filter(ms[1..], p);
      FilterKeepsUniqueIdentities(ms[1..], p);
      if p(ms[0]) {
        forall x | 0 <= x < |rest|
          ensures Identity(ms[0]) != Identity(rest[x])
        {
          FilterCounts(ms[1..], p, rest[x]);
          assert rest[x] in multiset(rest);
          assert rest[x] in ms[1..];
        }
      }
    }
  }

  /** Appending a team keeps the list well formed exactly when the new team
      is itself well formed and its id is not taken: the reducer does not
      check, so this rests on the server. */
  lemma CreatedTeamWellFormed(teams: seq<Team>, team: Team)
    requires WellFormed(teams)
    ensures WellFormed(teams + [team]) <==>
      TeamWellFormed(team) && forall i :: 0 <= i < |teams| ==> teams[i].id != team.id
  {
    var r := teams + [team];
    assert r[|teams|] == team;
    assert forall i :: 0 <= i < |teams| ==> r[i] == teams[i];
    if WellFormed(r) {
      assert TeamWellFormed(r[|teams|]);
      forall i | 0 <= i < |teams|
        ensures teams[i].id != team.id
      {
        assert r[i].id != r[|teams|].id;
      }
    }
  }

  /** Replacing the first team with the payload's id by a well-formed
      payload keeps the list well formed. */
  lemma UpdatedTeamKeepsWellFormed(teams: seq<Team>, team: Team)
    requires WellFormed(teams) && TeamWellFormed(team)
    ensures WellFormed(UpdatedTeam(teams, team))
  {
  }

  /** Deleting teams keeps the list well formed. */
  lemma DeletedTeamKeepsWellFormed(teams: seq<Team>, id: string)
    requires WellFormed(teams)
    ensures WellFormed(DeletedTeam(teams, id))
  {
    var r := DeletedTeam(teams, id);
    forall i | 0 <= i < |r|
      ensures r[i] in teams
    {
      FilterCounts(teams, OtherThan(id), r[i]);
      assert r[i] in multiset(r);
    }
    forall i, j | 0 <= i < j < |r|
      ensures r[i].id != r[j].id
    {
      FilterKeepsDistinct(teams, OtherThan(id), i, j);
    }
  }

  /** A filter of a list without duplicate ids has none either. */
  lemma {:induction false} FilterKeepsDistinct(teams: seq<Team>, p: Team -> bool, i: int, j: int)
    requires UniqueIds(teams)
    requires 0 <= i < j < |Filter(teams, p)|
    ensures Filter(teams, p)[i].id != Filter(teams, p)[j].id
    decreases |teams|
  {
    var rest := Filter(teams[1..], p);
    if p(teams[0]) {
      if i == 0 {
        var x := rest[j - 1];
        FilterCounts(teams[1..], p, x);
        assert x in multiset(rest);
        assert x in teams[1..];
      } else {
        FilterKeepsDistinct(teams[1..], p, i - 1, j - 1);
      }
    } else {
      FilterKeepsDistinct(teams[1..], p, i, j);
    }
  }

  /** Adding a member keeps the list well formed exactly when the team is
      missing or does not yet hold a member with the same identity: the
      reducer appends without checking. */
  lemma AddedMemberWellFormed(teams: seq<Team>, teamId: string, m: Member)
    requires WellFormed(teams)
    ensures var k := FindIndex(teams, HasId(teamId));
      WellFormed(AddedMember(teams, teamId, m)) <==>
        (k == -1 || forall x :: 0 <= x < |MembersOrEmpty(teams[k])| ==> Identity(MembersOrEmpty(teams[k])[x]) != Identity(m))
  {
    var k := FindIndex(teams, HasId(teamId));
    if k != -1 {
      var ms := MembersOrEmpty(teams[k]);
      var t' := AppendMember(m)(teams[k]);
      assert t'.members.value == ms + [m];
      assert (ms + [m])[|ms|] == m;
      if forall x :: 0 <= x < |ms| ==> Identity(ms[x]) != Identity(m) {
        assert forall x :: 0 <= x < |ms| ==> (ms + [m])[x] == ms[x];
        UpdateFirstKeepsWellFormed(teams, teamId, AppendMember(m));
      } else {
        var x :| 0 <= x < |ms| && Identity(ms[x]) == Identity(m);
        var r := AddedMember(teams, teamId, m);
        assert r[k] == t';
        assert (ms + [m])[x] == ms[x];
        assert !TeamWellFormed(r[k]);
      }
    }
  }

  /** Removing members keeps the list well formed. */
  lemma RemovedMemberKeepsWellFormed(teams: seq<Team>, teamId: string, key: Option<string>)
    requires WellFormed(teams)
    ensures WellFormed(RemovedMember(teams, teamId, key))
  {
    var k := FindIndex(teams, HasId(teamId));
    if k != -1 {
      DropMemberKeepsWellFormed(teams[k], key);
    }
    UpdateFirstKeepsWellFormed(teams, teamId, DropMember(key));
  }

  /** Replacing a member by one with the same identity keeps the list well
      formed. */
  lemma UpdatedRoleKeepsWellFormed(teams: seq<Team>, teamId: string, u: Member)
    requires WellFormed(teams)
    ensures WellFormed(UpdatedRole(teams, teamId, u))
  {
  }

  /** A team holding one member `u1`: removing `u1` empties the list, and
      removing it again changes nothing. */
  lemma RemoveOnlyMemberExample()
    ensures var u1 := Member(Some("u1"), None, Some("Member"));
      var teams := [Team("t1", "Alpha", Some([u1]))];
      var once := RemovedMember(teams, "t1", Some("u1"));
      && once == [Team("t1", "Alpha", Some([]))]
      && RemovedMember(once, "t1", Some("u1")) == once
  {
  }

  // ---------------------------------------------------------------------
  // The seven operations' rejection messages
  // ---------------------------------------------------------------------

  datatype TeamsThunk =
    | FetchTeams | CreateTeam | UpdateTeam | DeleteTeam
    | AddMemberToTeam | RemoveMemberFromTeam | UpdateMemberRole

  /** The message each operation rejects with when the server sent none. */
  function ServerFallback(op: TeamsThunk): string
  {
    match op
    case FetchTeams => "Failed to fetch teams."
    case CreateTeam => "Failed to create team."
    case UpdateTeam => "Failed to update team."
    case DeleteTeam => "Failed to delete team."
    case AddMemberToTeam => "Failed to add member to team."
    case RemoveMemberFromTeam => "Failed to remove member from team."
    case UpdateMemberRole => "Failed to update member role."
  }

  /** The value an operation's `catch` rejects with. */
  function RejectValue(op: TeamsThunk, e: HttpError): (r: string)
    ensures r != ""
    ensures e.response.Some? ==> r == OrElse(e.response.value.message, ServerFallback(op))
    ensures e.response.None? && e.request ==> r == NoResponseMessage
    ensures e.response.None? && !e.request ==> r == DiagnosticPrefix + e.message + "."
  {
    ClassifyIsTruthy(e, ServerFallback(op), ".");
    Classify(e, ServerFallback(op), ".")
  }

  // ---------------------------------------------------------------------
  // The store and its reducer cases
  // ---------------------------------------------------------------------

  class TeamsStore {
    var teams: seq<Team>
    var isLoading: bool
    var error: Option<string>

    /** `initialState`: no teams, not loading, no error. */
    constructor ()
      ensures teams == [] && !isLoading && error == None
    {
      teams := [];
      isLoading := false;
      error := None;
    }

    /** `clearTeamsError`: only the error slot changes. */
    method ClearTeamsError()
      modifies this
      ensures error == None
      ensures teams == old(teams) && isLoading == old(isLoading)
    {
      error := None;
    }

    /** The pending case of every operation: loading, error cleared. */
    method Pending()
      modifies this
      ensures isLoading && error == None
      ensures teams == old(teams)
    {
      isLoading := true;
      error := None;
    }

    /** The rejected case of every operation: the payload becomes the error,
        the teams are left as they were. */
    method Rejected(payload: Option<string>)
      modifies this
      ensures !isLoading && error == payload
      ensures teams == old(teams)
    {
      isLoading := false;
      error := payload;
    }

    /** `fetchTeams.fulfilled`: the fetched list replaces the cache. */
    method FetchTeamsFulfilled(fetched: seq<Team>)
      modifies this
      ensures !isLoading && teams == fetched
      ensures error == old(error)
    {
      isLoading := false;
      teams := fetched;
    }

    /** `createTeam.fulfilled`: the returned team is pushed at the end. */
    method CreateTeamFulfilled(team: Team)
      modifies this
      ensures !isLoading && teams == old(teams) + [team]
      ensures error == old(error)
    {
      isLoading := false;
      teams := teams + [team];
    }

    /** `updateTeam.fulfilled`: the first team with the payload's id is
        replaced by the payload. */
    method UpdateTeamFulfilled(team: Team)
      modifies this
      ensures !isLoading && teams == UpdatedTeam(old(teams), team)
      ensures error == old(error)
    {
      isLoading := false;
      var index := FindIndex(teams, HasId(team.id));
      if index != -1 {
        teams := teams[index := team];
      }
    }

    /** `deleteTeam.fulfilled`: every team with the id is filtered out. */
    method DeleteTeamFulfilled(id: string)
      modifies this
      ensures !isLoading && teams == DeletedTeam(old(teams), id)
      ensures error == old(error)
    {
      isLoading := false;
      teams := Filter(teams, OtherThan(id));
    }

    /** `addMemberToTeam.fulfilled`: the member is pushed onto the first team
        with the id, after giving that team an empty list if it had none. */
    method AddMemberFulfilled(teamId: string, member: Member)
      modifies this
      ensures !isLoading && teams == AddedMember(old(teams), teamId, member)
      ensures error == old(error)
    {
      isLoading := false;
      var teamIndex := FindIndex(teams, HasId(teamId));
      if teamIndex != -1 {
        if teams[teamIndex].members.None? {
          teams := teams[teamIndex := teams[teamIndex].(members := Some([]))];
        }
        teams := teams[teamIndex := teams[teamIndex].(members := Some(teams[teamIndex].members.value + [member]))];
      }
    }

    /** `removeMemberFromTeam.fulfilled`: in the first team with the id, if it
        has a member list, the members whose identity is `userId` are
        filtered out. */
    method RemoveMemberFulfilled(teamId: string, userId: Option<string>)
      modifies this
      ensures !isLoading && teams == RemovedMember(old(teams), teamId, userId)
      ensures error == old(error)
    {
      isLoading := false;
      var teamIndex := FindIndex(teams, HasId(teamId));
      if teamIndex != -1 && teams[teamIndex].members.Some? {
        teams := teams[teamIndex := teams[teamIndex].(members := Some(Filter(teams[teamIndex].members.value, IdentityIsNot(userId))))];
      }
    }

    /** `updateMemberRole.fulfilled`: in the first team with the id, if it has
        a member list, the first member with the updated member's identity
        is replaced by the updated member. */
    method UpdateMemberRoleFulfilled(teamId: string, updated: Member)
      modifies this
      ensures !isLoading && teams == UpdatedRole(old(teams), teamId, updated)
      ensures error == old(error)
    {
      isLoading := false;
      var teamIndex := FindIndex(teams, HasId(teamId));
      if teamIndex != -1 && teams[teamIndex].members.Some? {
        var members := teams[teamIndex].members.value;
        var memberIndex := FindIndex(members, SameIdentity(updated));
        if memberIndex != -1 {
          teams := teams[teamIndex := teams[teamIndex].(members := Some(members[memberIndex := updated]))];
        }
      }
    }
  }

  /** A create that fails with a server message: the store's error is that
      message and its teams are the ones it had before. */
  method CreateTeamRejectedScenario(existing: seq<Team>) returns (store: TeamsStore)
    ensures store.error == Some("Name required")
    ensures store.teams == existing && !store.isLoading
  {
    store := new TeamsStore();
    store.FetchTeamsFulfilled(existing);
    store.Pending();
    var failure := HttpError(Some(ErrorResponse(400, Some("Name required"))), true, "Request failed with status code 400");
    store.Rejected(Some(RejectValue(CreateTeam, failure)));
  }
}
