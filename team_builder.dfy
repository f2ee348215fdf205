/**
 * The team edits of the team builder page: raising or lowering a role's head
 * count, adding a role from the role table, and listing the roles that can
 * still be added. Each edit builds a new list; nothing is updated in place.
 *
 * The functions take the role table as a parameter; the page always passes
 * `Estimator.RolesDatabase`.
 */
module TeamBuilder {
  import opened Wrappers
  import opened Seqs
  import opened Domain
  import opened Estimator

  /** `member => member.roleId === roleId`. */
  function MemberWithRole(roleId: string): TeamMember -> bool {
    (m: TeamMember) => m.roleId == roleId
  }

  /** `member => ({ ...member, count: member.count + change })`. */
  function CountPlus(change: int): TeamMember -> TeamMember {
    (m: TeamMember) => m.(count := m.count + change)
  }

  /** `member => member.count > 0`. */
  function Staffed(): TeamMember -> bool {
    (m: TeamMember) => m.count > 0
  }

  /** No role appears twice in the team. */
  predicate DistinctRoles(team: seq<TeamMember>) {
    forall i, j :: 0 <= i < j < |team| ==> team[i].roleId != team[j].roleId
  }

  /** The shape every team on the page keeps: one entry per role, each with a positive head count. */
  predicate WellFormed(team: seq<TeamMember>) {
    DistinctRoles(team) && forall i :: 0 <= i < |team| ==> team[i].count > 0
  }

  /** The roles of the estimator's teams are told apart by their first letter. */
  predicate InitialsDistinct(team: seq<TeamMember>) {
    && (forall i :: 0 <= i < |team| ==> team[i].roleId != [] && team[i].count > 0)
    && (forall i, j :: 0 <= i < j < |team| ==> team[i].roleId[0] != team[j].roleId[0])
  }

  lemma InitialsMakeWellFormed(team: seq<TeamMember>)
    requires InitialsDistinct(team)
    ensures WellFormed(team)
  {
    forall i, j | 0 <= i < j < |team| ensures team[i].roleId != team[j].roleId {
      assert team[i].roleId[0] != team[j].roleId[0];
    }
  }

  lemma SuggestedWellFormed(category: ProjectCategory)
    ensures WellFormed(SuggestedTeam(category))
  {
    InitialsMakeWellFormed(SuggestedTeam(category));
  }

  lemma MvpStarterWellFormed(category: ProjectCategory)
    ensures WellFormed(MvpStarter(category))
  {
    InitialsMakeWellFormed(MvpStarter(category));
  }

  lemma BalancedGrowthWellFormed(category: ProjectCategory)
    ensures WellFormed(BalancedGrowth(category))
  {
    InitialsMakeWellFormed(BalancedGrowth(category));
  }

  lemma FastTrackWellFormed(category: ProjectCategory)
    ensures WellFormed(FastTrack(category))
  {
    InitialsMakeWellFormed(FastTrack(category));
  }

  /** Every team the estimator proposes, suggested or alternative, already has the shape the page keeps. */
  lemma TemplatesWellFormed(category: ProjectCategory)
    ensures WellFormed(SuggestedTeam(category))
    ensures forall name :: name in Alternatives(category) ==> WellFormed(Alternatives(category)[name])
  {
    SuggestedWellFormed(category);
    MvpStarterWellFormed(category);
    BalancedGrowthWellFormed(category);
    FastTrackWellFormed(category);
  }

  // ---------------------------------------------------------------------------
  // handleTeamChange
  // ---------------------------------------------------------------------------

  /** `handleTeamChange(roleId, change)`: adjust the matching member, then drop every member left without staff. */
  function TeamChange(team: seq<TeamMember>, roleId: string, change: int): (r: seq<TeamMember>)
    requires change == 1 || change == -1
    ensures forall i :: 0 <= i < |r| ==> r[i].count > 0
  {
    Filter(MapWhere(team, MemberWithRole(roleId), CountPlus(change)), Staffed())
  }

  /** Filtering by a predicate every element satisfies keeps the sequence. */
  lemma {:induction false} FilterKeepsAll(s: seq<TeamMember>, p: TeamMember -> bool)
    requires forall i :: 0 <= i < |s| ==> p(s[i])
    ensures Filter(s, p) == s
  {
    if |s| > 0 {
      FilterKeepsAll(s[1..], p);
    }
  }

  /** In a team with distinct roles only the member at `k` matches, so only it is adjusted. */
  lemma AdjustedAt(team: seq<TeamMember>, roleId: string, change: int, k: nat)
    requires DistinctRoles(team) && k < |team| && team[k].roleId == roleId
    ensures MapWhere(team, MemberWithRole(roleId), CountPlus(change)) ==
      team[k := team[k].(count := team[k].count + change)]
  {
    var mapped := MapWhere(team, MemberWithRole(roleId), CountPlus(change));
    forall i | 0 <= i < |team| && i != k
      ensures mapped[i] == team[i]
    {
      assert !MemberWithRole(roleId)(team[i]);
    }
  }

  /** In a team with distinct roles, only the member of the named role is touched: its count moves by exactly `change`, and it leaves the team when that leaves it unstaffed. */
  lemma TeamChangeAt(team: seq<TeamMember>, roleId: string, change: int, k: nat)
    requires change == 1 || change == -1
    requires WellFormed(team) && k < |team| && team[k].roleId == roleId
    ensures team[k].count + change > 0 ==>
      TeamChange(team, roleId, change) == team[k := team[k].(count := team[k].count + change)]
    ensures team[k].count + change <= 0 ==>
      TeamChange(team, roleId, change) == team[..k] + team[k + 1..]
  {
    var changed := team[k := team[k].(count := team[k].count + change)];
    AdjustedAt(team, roleId, change, k);
    if team[k].count + change > 0 {
      FilterKeepsAll(changed, Staffed());
    } else {
      DropUnstaffed(team, changed, k);
    }
  }

  /** Filtering out the one unstaffed member of an otherwise staffed team removes just it. */
  lemma DropUnstaffed(team: seq<TeamMember>, changed: seq<TeamMember>, k: nat)
    requires k < |team| == |changed| && changed[k].count <= 0
    requires forall i :: 0 <= i < |team| ==> team[i].count > 0
    requires forall i :: 0 <= i < |team| && i != k ==> changed[i] == team[i]
    ensures Filter(changed, Staffed()) == team[..k] + team[k + 1..]
  {
    var before, after := team[..k], team[k + 1..];
    assert changed == before + [changed[k]] + after;
    FilterSkips(before, changed[k], after, Staffed());
    assert forall i :: 0 <= i < |before| ==> before[i] == team[i];
    FilterKeepsAll(before, Staffed());
    assert forall i :: 0 <= i < |after| ==> after[i] == team[k + 1 + i];
    FilterKeepsAll(after, Staffed());
  }

  /** An element the predicate rejects vanishes from the filtered sequence. */
  lemma FilterSkips(a: seq<TeamMember>, x: TeamMember, b: seq<TeamMember>, p: TeamMember -> bool)
    requires !p(x)
    ensures Filter(a + [x] + b, p) == Filter(a, p) + Filter(b, p)
  {
    FilterRejectsOne(x, p);
    FilterAppend(a + [x], b, p);
    FilterAppend(a, [x], p);
    assert Filter(a, p) + [] == Filter(a, p);
  }

  lemma FilterRejectsOne(x: TeamMember, p: TeamMember -> bool)
    requires !p(x)
    ensures Filter([x], p) == []
  {
    assert [x][1..] == [];
  }

  /** A role that is not in a well-formed team leaves it unchanged. */
  lemma TeamChangeAbsent(team: seq<TeamMember>, roleId: string, change: int)
    requires change == 1 || change == -1
    requires WellFormed(team) && forall i :: 0 <= i < |team| ==> team[i].roleId != roleId
    ensures TeamChange(team, roleId, change) == team
  {
    assert MapWhere(team, MemberWithRole(roleId), CountPlus(change)) == team;
    FilterKeepsAll(team, Staffed());
  }

  /** Dropping one member keeps the roles distinct and the counts positive. */
  lemma RemovalKeepsWellFormed(team: seq<TeamMember>, k: nat)
    requires WellFormed(team) && k < |team|
    ensures WellFormed(team[..k] + team[k + 1..])
  {
    var r := team[..k] + team[k + 1..];
    forall i, j | 0 <= i < j < |r|
      ensures r[i].roleId != r[j].roleId
    {
      var i' := if i < k then i else i + 1;
      var j' := if j < k then j else j + 1;
      assert r[i] == team[i'] && r[j] == team[j'];
    }
    forall i | 0 <= i < |r|
      ensures r[i].count > 0
    {
      assert r[i] == team[if i < k then i else i + 1];
    }
  }

  /** Adjusting a member to a positive count keeps the roles distinct and the counts positive. */
  lemma AdjustKeepsWellFormed(team: seq<TeamMember>, k: nat, change: int)
    requires WellFormed(team) && k < |team| && team[k].count + change > 0
    ensures WellFormed(team[k := team[k].(count := team[k].count + change)])
  {
    var r := team[k := team[k].(count := team[k].count + change)];
    assert forall i :: 0 <= i < |r| ==> r[i].roleId == team[i].roleId;
  }

  /** Every head-count change keeps a well-formed team well-formed. */
  lemma TeamChangeKeepsWellFormed(team: seq<TeamMember>, roleId: string, change: int)
    requires change == 1 || change == -1
    requires WellFormed(team)
    ensures WellFormed(TeamChange(team, roleId, change))
  {
    var k := FindIndex(team, MemberWithRole(roleId));
    if k.None? {
      TeamChangeAbsent(team, roleId, change);
    } else {
      TeamChangeAt(team, roleId, change, k.value);
      if team[k.value].count + change <= 0 {
        RemovalKeepsWellFormed(team, k.value);
      } else {
        AdjustKeepsWellFormed(team, k.value, change);
      }
    }
  }

  // ---------------------------------------------------------------------------
  // handleAddRole
  // ---------------------------------------------------------------------------

  /** `handleAddRole`: nothing without a selection or for a role already in the team; otherwise the role's table entry joins at the end with one head. */
  function AddRole(roles: seq<TeamRole>, team: seq<TeamMember>, roleToAdd: string): seq<TeamMember> {
    if roleToAdd == "" || Any(team, MemberWithRole(roleToAdd)) then team
    else match RoleIn(roles, roleToAdd)
      case None => team
      case Some(roleData) => team + [TeamMember(roleData.id, roleData.name, 1)]
  }

  /** The team grows exactly when a role is selected, is absent from the team and is in the table; it then grows by one member of that role with one head, at the end. */
  lemma AddRoleEffect(roles: seq<TeamRole>, team: seq<TeamMember>, roleToAdd: string)
    ensures var added := roleToAdd != "" && !Any(team, MemberWithRole(roleToAdd)) && RoleIn(roles, roleToAdd).Some?;
      (added ==> AddRole(roles, team, roleToAdd) ==
                 team + [TeamMember(roleToAdd, RoleIn(roles, roleToAdd).value.name, 1)]) &&
      (!added ==> AddRole(roles, team, roleToAdd) == team)
  {
    if roleToAdd != "" && !Any(team, MemberWithRole(roleToAdd)) && RoleIn(roles, roleToAdd).Some? {
      assert MemberWithRole(roleToAdd)(TeamMember(RoleIn(roles, roleToAdd).value.id, "", 1)) by {
        assert RoleWithId(roleToAdd)(RoleIn(roles, roleToAdd).value);
      }
    }
  }

  /** Adding a role keeps a well-formed team well-formed: the new role was absent, and it starts with one head. */
  lemma AddRoleKeepsWellFormed(roles: seq<TeamRole>, team: seq<TeamMember>, roleToAdd: string)
    requires WellFormed(team)
    ensures WellFormed(AddRole(roles, team, roleToAdd))
  {
    AddRoleEffect(roles, team, roleToAdd);
    var r := AddRole(roles, team, roleToAdd);
    if r != team {
      assert forall i :: 0 <= i < |team| ==> team[i].roleId != roleToAdd;
      assert r[|team|].roleId == roleToAdd;
      assert forall i :: 0 <= i < |team| ==> r[i] == team[i];
    }
  }

  // ---------------------------------------------------------------------------
  // availableRolesToAdd
  // ---------------------------------------------------------------------------

  /** `role => !currentTeam.some(member => member.roleId === role.id)`. */
  function NotInTeam(team: seq<TeamMember>): TeamRole -> bool {
    (role: TeamRole) => !Any(team, MemberWithRole(role.id))
  }

  /** `availableRolesToAdd`. */
  function AvailableRolesToAdd(roles: seq<TeamRole>, team: seq<TeamMember>): seq<TeamRole> {
    Filter(roles, NotInTeam(team))
  }

  /** A role is offered exactly when it is in the table and no member has its id, and the offers keep the table's order. */
  lemma AvailableRolesExactly(roles: seq<TeamRole>, team: seq<TeamMember>, role: TeamRole)
    ensures role in AvailableRolesToAdd(roles, team) <==>
      role in roles && forall i :: 0 <= i < |team| ==> team[i].roleId != role.id
    ensures IsSubsequence(AvailableRolesToAdd(roles, team), roles)
  {
    var offered := AvailableRolesToAdd(roles, team);
    if role in offered {
      var j :| 0 <= j < |offered| && offered[j] == role;
      assert NotInTeam(team)(offered[j]);
      assert forall i :: 0 <= i < |team| ==> team[i].roleId != role.id;
    }
    if role in roles && forall i :: 0 <= i < |team| ==> team[i].roleId != role.id {
      var j :| 0 <= j < |roles| && roles[j] == role;
      assert NotInTeam(team)(roles[j]);
    }
  }

  /** Adding an offered role (one the table lists under its own id) makes the team grow by exactly that role and stops offering it. */
  lemma AddingOfferedRole(roles: seq<TeamRole>, team: seq<TeamMember>, role: TeamRole)
    requires role in AvailableRolesToAdd(roles, team)
    requires role.id != "" && RoleIn(roles, role.id) == Some(role)
    ensures AddRole(roles, team, role.id) == team + [TeamMember(role.id, role.name, 1)]
    ensures role !in AvailableRolesToAdd(roles, AddRole(roles, team, role.id))
  {
    AvailableRolesExactly(roles, team, role);
    var grown := team + [TeamMember(role.id, role.name, 1)];
    assert grown[|team|].roleId == role.id;
    AvailableRolesExactly(roles, grown, role);
  }

  /** A role whose last head is removed is offered again. */
  lemma RemovedRoleOfferedAgain(roles: seq<TeamRole>, team: seq<TeamMember>, k: nat, role: TeamRole)
    requires WellFormed(team) && k < |team| && team[k].count == 1
    requires role in roles && role.id == team[k].roleId
    ensures role in AvailableRolesToAdd(roles, TeamChange(team, role.id, -1))
  {
    TeamChangeAt(team, role.id, -1, k);
    var r := TeamChange(team, role.id, -1);
    forall i | 0 <= i < |r|
      ensures r[i].roleId != role.id
    {
      assert r[i] == team[if i < k then i else i + 1];
    }
    AvailableRolesExactly(roles, r, role);
  }
}
