/**
 * The team estimator of the team builder: a fixed table of roles (weekly
 * hours, hourly cost, work units delivered per week), a template per project
 * category (total work units, suggested team, alternatives), and the
 * integer-only estimate of weeks and cost for a team.
 */
module Estimator {
  import opened Wrappers
  import opened Seqs
  import opened Domain

  datatype TeamRole = TeamRole(
    id: string, name: string, skills: seq<string>,
    avgWeeklyHours: nat, costPerHour: nat, workUnitsPerWeek: nat)

  /** The roles a team can be built from. */
  const RolesDatabase: seq<TeamRole> := [
    TeamRole("fe-dev", "Frontend Dev", ["React", "Next.js"], 40, 80, 10),
    TeamRole("be-dev", "Backend Dev", ["Node.js", "APIs"], 40, 85, 10),
    TeamRole("designer", "UI/UX Designer", ["Figma", "Prototyping"], 30, 65, 8),
    TeamRole("qa", "QA Engineer", ["Testing", "Automation"], 25, 55, 6),
    TeamRole("marketing", "Growth Marketer", ["SEO", "Content"], 35, 70, 9)
  ]

  /** What a project category needs and which teams are suggested for it. */
  datatype ProjectTemplate = ProjectTemplate(
    workUnits: nat, team: seq<TeamMember>, explanation: string,
    comparison: map<string, seq<TeamMember>>)

  function FrontendDevs(n: int): TeamMember { TeamMember("fe-dev", "Frontend Dev", n) }
  function BackendDevs(n: int): TeamMember { TeamMember("be-dev", "Backend Dev", n) }
  function Designers(n: int): TeamMember { TeamMember("designer", "UI/UX Designer", n) }
  function QaEngineers(n: int): TeamMember { TeamMember("qa", "QA Engineer", n) }
  function Marketers(n: int): TeamMember { TeamMember("marketing", "Growth Marketer", n) }

  /** The template of each project category. */
  function TemplateFor(category: ProjectCategory): ProjectTemplate {
    ProjectTemplate(WorkUnitsFor(category), SuggestedTeam(category), Explanation(category), Alternatives(category))
  }

  /** The total work a project of the category needs. */
  function WorkUnitsFor(category: ProjectCategory): nat {
    match category
    case SaaS => 200
    case ECommerce => 180
    case MobileApp => 250
    case MarketingCampaign => 80
  }

  function SuggestedTeam(category: ProjectCategory): seq<TeamMember> {
    match category
    case SaaS => [FrontendDevs(1), BackendDevs(1), Designers(1)]
    case ECommerce => [FrontendDevs(1), BackendDevs(1), QaEngineers(1)]
    case MobileApp => [FrontendDevs(2), BackendDevs(1), Designers(1)]
    case MarketingCampaign => [Marketers(1), Designers(1)]
  }

  function Explanation(category: ProjectCategory): string {
    match category
    case SaaS =>
      "Because your project is a SaaS dashboard, we prioritized a strong frontend and backend balance. Adding a designer accelerates usability."
    case ECommerce =>
      "For an e-commerce site, reliability is key. We've included a QA Engineer to ensure a smooth checkout process alongside core developers."
    case MobileApp =>
      "Mobile apps require a heavy focus on user interface. We've suggested two frontend developers to accelerate UI development and iteration."
    case MarketingCampaign =>
      "A successful marketing campaign relies on great content and visuals. This lean team is optimized for creative output and reaching your audience."
  }

  /** The smallest team offered for comparison. */
  function MvpStarter(category: ProjectCategory): seq<TeamMember> {
    match category
    case SaaS => [FrontendDevs(1), BackendDevs(1)]
    case ECommerce => [FrontendDevs(1), BackendDevs(1)]
    case MobileApp => [FrontendDevs(1), BackendDevs(1)]
    case MarketingCampaign => [Marketers(1)]
  }

  function BalancedGrowth(category: ProjectCategory): seq<TeamMember> {
    match category
    case SaaS => [FrontendDevs(1), BackendDevs(1), Designers(1)]
    case ECommerce => [FrontendDevs(1), BackendDevs(1), QaEngineers(1)]
    case MobileApp => [FrontendDevs(2), BackendDevs(1), Designers(1)]
    case MarketingCampaign => [Marketers(1), Designers(1)]
  }

  /** The largest team offered for comparison. */
  function FastTrack(category: ProjectCategory): seq<TeamMember> {
    match category
    case SaaS => [FrontendDevs(2), BackendDevs(1), Designers(1), QaEngineers(1)]
    case ECommerce => [FrontendDevs(2), BackendDevs(1), Designers(1), QaEngineers(1)]
    case MobileApp => [FrontendDevs(2), BackendDevs(2), Designers(1), QaEngineers(1)]
    case MarketingCampaign => [Marketers(2), Designers(1), FrontendDevs(1)]
  }

  /** The three alternative teams offered for comparison, by name. */
  function Alternatives(category: ProjectCategory): map<string, seq<TeamMember>> {
    map["MVP Starter" := MvpStarter(category),
        "Balanced Growth" := BalancedGrowth(category),
        "Fast-Track" := FastTrack(category)]
  }

  // ---------------------------------------------------------------------------
  // Weekly output and cost of a team
  // ---------------------------------------------------------------------------

  /** `r => r.id === roleId`. */
  function RoleWithId(roleId: string): TeamRole -> bool {
    (r: TeamRole) => r.id == roleId
  }

  /** `roles.find(r => r.id === roleId)`. */
  function RoleIn(roles: seq<TeamRole>, roleId: string): Option<TeamRole> {
    Find(roles, RoleWithId(roleId))
  }

  /*
   * The sums below are stated for any role table; the application always
   * uses `RolesDatabase`.
   */

  /** What one member adds to the weekly work units: nothing for a role the table does not know. */
  function MemberWorkUnits(roles: seq<TeamRole>, m: TeamMember): int {
    match RoleIn(roles, m.roleId)
    case None => 0
    case Some(r) => r.workUnitsPerWeek * m.count
  }

  /** What one member adds to the weekly cost: nothing for a role the table does not know. */
  function MemberWeeklyCost(roles: seq<TeamRole>, m: TeamMember): int {
    match RoleIn(roles, m.roleId)
    case None => 0
    case Some(r) => r.costPerHour * r.avgWeeklyHours * m.count
  }

  /** The sum of the members' weekly work units. */
  function WeeklyWorkUnits(roles: seq<TeamRole>, team: seq<TeamMember>): int {
    if team == [] then 0 else WeeklyWorkUnits(roles, team[..|team| - 1]) + MemberWorkUnits(roles, team[|team| - 1])
  }

  /** The sum of the members' weekly costs. */
  function WeeklyCost(roles: seq<TeamRole>, team: seq<TeamMember>): int {
    if team == [] then 0 else WeeklyCost(roles, team[..|team| - 1]) + MemberWeeklyCost(roles, team[|team| - 1])
  }

  /** `calculateTeamPerformance`, and the loop `runSimulation` repeats: one pass over the team, accumulating both sums. */
  method CalculateTeamPerformance(team: seq<TeamMember>) returns (weeklyWorkUnits: int, weeklyCost: int)
    ensures weeklyWorkUnits == WeeklyWorkUnits(RolesDatabase, team)
    ensures weeklyCost == WeeklyCost(RolesDatabase, team)
  {
    weeklyWorkUnits, weeklyCost := SumOver(RolesDatabase, team);
  }

  /** The loop of `calculateTeamPerformance`, over a given role table. */
  method SumOver(roles: seq<TeamRole>, team: seq<TeamMember>) returns (weeklyWorkUnits: int, weeklyCost: int)
    ensures weeklyWorkUnits == WeeklyWorkUnits(roles, team)
    ensures weeklyCost == WeeklyCost(roles, team)
  {
    weeklyWorkUnits := 0;
    weeklyCost := 0;
    var i := 0;
    while i < |team|
      invariant 0 <= i <= |team|
      invariant weeklyWorkUnits == WeeklyWorkUnits(roles, team[..i])
      invariant weeklyCost == WeeklyCost(roles, team[..i])
    {
      var member := team[i];
      var roleData := RoleIn(roles, member.roleId);
      if roleData.Some? {
        weeklyWorkUnits := weeklyWorkUnits + roleData.value.workUnitsPerWeek * member.count;
        weeklyCost := weeklyCost + roleData.value.costPerHour * roleData.value.avgWeeklyHours * member.count;
      }
      assert team[..i + 1][..i] == team[..i];
      i := i + 1;
    }
    assert team[..i] == team;
  }

  /** Both sums distribute over concatenation: a team's output is its parts' output added up. */
  lemma {:induction false} WeeklyAppend(roles: seq<TeamRole>, a: seq<TeamMember>, b: seq<TeamMember>)
    ensures WeeklyWorkUnits(roles, a + b) == WeeklyWorkUnits(roles, a) + WeeklyWorkUnits(roles, b)
    ensures WeeklyCost(roles, a + b) == WeeklyCost(roles, a) + WeeklyCost(roles, b)
    decreases |b|
  {
    if b == [] {
      assert a + b == a;
    } else {
      var b' := b[..|b| - 1];
      assert (a + b)[..|a + b| - 1] == a + b';
      assert (a + b)[|a + b| - 1] == b[|b| - 1];
      WeeklyAppend(roles, a, b');
    }
  }

  /** Members whose role the table does not know contribute nothing. */
  lemma {:induction false} UnknownRolesContributeNothing(roles: seq<TeamRole>, team: seq<TeamMember>)
    requires forall i :: 0 <= i < |team| ==> RoleIn(roles, team[i].roleId).None?
    ensures WeeklyWorkUnits(roles, team) == 0 && WeeklyCost(roles, team) == 0
  {
    if team != [] {
      UnknownRolesContributeNothing(roles, team[..|team| - 1]);
    }
  }

  /** With no negative head counts, neither sum is negative. */
  lemma {:induction false} WeeklyNonNegative(roles: seq<TeamRole>, team: seq<TeamMember>)
    requires forall i :: 0 <= i < |team| ==> team[i].count >= 0
    ensures WeeklyWorkUnits(roles, team) >= 0 && WeeklyCost(roles, team) >= 0
  {
    if team != [] {
      WeeklyNonNegative(roles, team[..|team| - 1]);
      MemberNonNegative(roles, team[|team| - 1]);
    }
  }

  lemma MemberNonNegative(roles: seq<TeamRole>, m: TeamMember)
    requires m.count >= 0
    ensures MemberWorkUnits(roles, m) >= 0 && MemberWeeklyCost(roles, m) >= 0
  {
    match RoleIn(roles, m.roleId)
    case None =>
    case Some(r) =>
      var hours := r.costPerHour * r.avgWeeklyHours;
      assert hours >= 0;
      assert r.workUnitsPerWeek * m.count >= 0;
      assert hours * m.count >= 0;
  }

  // ---------------------------------------------------------------------------
  // The estimate
  // ---------------------------------------------------------------------------

  /** `weeklyWorkUnits > 0 ? Math.ceil(totalWorkUnits / weeklyWorkUnits) : 0`, on integers. */
  function EstimatedWeeks(totalWorkUnits: nat, weeklyWorkUnits: int): nat {
    if weeklyWorkUnits > 0 then (totalWorkUnits + weeklyWorkUnits - 1) / weeklyWorkUnits else 0
  }

  /** The estimate is the ceiling: the least number of whole weeks whose output reaches the total. */
  lemma EstimatedWeeksIsCeiling(totalWorkUnits: nat, weeklyWorkUnits: int)
    requires weeklyWorkUnits > 0
    ensures EstimatedWeeks(totalWorkUnits, weeklyWorkUnits) * weeklyWorkUnits >= totalWorkUnits
    ensures (EstimatedWeeks(totalWorkUnits, weeklyWorkUnits) - 1) * weeklyWorkUnits < totalWorkUnits
  {
    var t, w := totalWorkUnits, weeklyWorkUnits;
    var q := (t + w - 1) / w;
    var r := (t + w - 1) % w;
    assert t + w - 1 == q * w + r;
    assert (q - 1) * w == q * w - w;
  }

  /** No count of whole weeks that reaches the total is smaller than the estimate. */
  lemma CeilingIsLeast(totalWorkUnits: nat, weeklyWorkUnits: int, weeks: nat)
    requires weeklyWorkUnits > 0 && weeks * weeklyWorkUnits >= totalWorkUnits
    ensures EstimatedWeeks(totalWorkUnits, weeklyWorkUnits) <= weeks
  {
    var w := weeklyWorkUnits;
    var e: int := EstimatedWeeks(totalWorkUnits, w);
    EstimatedWeeksIsCeiling(totalWorkUnits, w);
    FactorCancels(e - 1, weeks, w);
  }

  lemma FactorCancels(a: int, b: int, w: int)
    requires w > 0 && a * w < b * w
    ensures a < b
  {
    assert (b - a) * w == b * w - a * w;
  }

  /** Without any weekly output there is no estimate. */
  lemma NoOutputNoWeeks(totalWorkUnits: nat, weeklyWorkUnits: int)
    requires weeklyWorkUnits <= 0
    ensures EstimatedWeeks(totalWorkUnits, weeklyWorkUnits) == 0
  {
  }

  /** Weeks never exceed the whole work: each week delivers at least one unit. */
  lemma WeeksBounded(totalWorkUnits: nat, weeklyWorkUnits: int)
    ensures EstimatedWeeks(totalWorkUnits, weeklyWorkUnits) <= totalWorkUnits
  {
    if weeklyWorkUnits > 0 {
      assert totalWorkUnits * weeklyWorkUnits >= totalWorkUnits;
      CeilingIsLeast(totalWorkUnits, weeklyWorkUnits, totalWorkUnits);
    }
  }

  /** A team that delivers more per week never needs more weeks. */
  lemma MoreOutputNoMoreWeeks(totalWorkUnits: nat, slower: int, faster: int)
    requires 0 < slower <= faster
    ensures EstimatedWeeks(totalWorkUnits, faster) <= EstimatedWeeks(totalWorkUnits, slower)
  {
    var s := EstimatedWeeks(totalWorkUnits, slower);
    EstimatedWeeksIsCeiling(totalWorkUnits, slower);
    assert s * faster >= s * slower;
    CeilingIsLeast(totalWorkUnits, faster, s);
  }

  datatype Estimate = Estimate(estimatedWeeks: nat, estimatedCost: int)

  /** The estimate for a team on a project of a category: whole weeks to finish the category's work, each paid in full. */
  function Simulated(roles: seq<TeamRole>, team: seq<TeamMember>, category: ProjectCategory): Estimate {
    var weeks := EstimatedWeeks(WorkUnitsFor(category), WeeklyWorkUnits(roles, team));
    Estimate(weeks, weeks * WeeklyCost(roles, team))
  }

  /** `runSimulation`: the estimate from `RolesDatabase`. */
  method RunSimulation(team: seq<TeamMember>, project: ProjectDetails) returns (estimate: Estimate)
    ensures estimate == Simulated(RolesDatabase, team, project.category)
  {
    estimate := SimulateWith(RolesDatabase, team, project.category);
  }

  /** The body of `runSimulation`, over a given role table. */
  method SimulateWith(roles: seq<TeamRole>, team: seq<TeamMember>, category: ProjectCategory) returns (estimate: Estimate)
    ensures estimate == Simulated(roles, team, category)
  {
    var totalWorkUnits := WorkUnitsFor(category);
    var weeklyWorkUnits, weeklyCost := SumOver(roles, team);
    var estimatedWeeks: nat := if weeklyWorkUnits > 0 then (totalWorkUnits + weeklyWorkUnits - 1) / weeklyWorkUnits else 0;
    estimate := Estimate(estimatedWeeks, estimatedWeeks * weeklyCost);
  }

  /** A team without a single known role gets no estimate at all: zero weeks, zero cost. */
  lemma UnknownTeamGetsNothing(roles: seq<TeamRole>, team: seq<TeamMember>, category: ProjectCategory)
    requires forall i :: 0 <= i < |team| ==> RoleIn(roles, team[i].roleId).None?
    ensures Simulated(roles, team, category) == Estimate(0, 0)
  {
    UnknownRolesContributeNothing(roles, team);
  }

  /** Adding a member of an unknown role changes neither weeks nor cost. */
  lemma UnknownMemberIgnored(roles: seq<TeamRole>, team: seq<TeamMember>, m: TeamMember, category: ProjectCategory)
    requires RoleIn(roles, m.roleId).None?
    ensures Simulated(roles, team + [m], category) == Simulated(roles, team, category)
  {
    WeeklyAppend(roles, team, [m]);
    assert [m][..0] == [];
  }

  /** Adding a member with a positive head count, to a team that already produces something, never lengthens the estimate. */
  lemma AddingStaffNeverSlows(roles: seq<TeamRole>, team: seq<TeamMember>, m: TeamMember, category: ProjectCategory)
    requires WeeklyWorkUnits(roles, team) > 0 && m.count > 0
    ensures Simulated(roles, team + [m], category).estimatedWeeks <= Simulated(roles, team, category).estimatedWeeks
  {
    WeeklyAppend(roles, team, [m]);
    assert [m][..0] == [];
    MemberNonNegative(roles, m);
    MoreOutputNoMoreWeeks(WorkUnitsFor(category), WeeklyWorkUnits(roles, team), WeeklyWorkUnits(roles, team + [m]));
  }

  /** What `generateTeamSuggestion` returns. */
  datatype SimulationResult = SimulationResult(
    team: seq<TeamMember>, estimatedWeeks: nat, estimatedCost: int,
    aiExplanation: string, comparisonOptions: map<string, seq<TeamMember>>)

  /** `generateTeamSuggestion`: the category's suggested team, estimated exactly as `runSimulation` would estimate it. */
  method GenerateTeamSuggestion(project: ProjectDetails) returns (result: SimulationResult)
    ensures result.team == SuggestedTeam(project.category)
    ensures result.aiExplanation == Explanation(project.category)
    ensures result.comparisonOptions == Alternatives(project.category)
    ensures Estimate(result.estimatedWeeks, result.estimatedCost) == Simulated(RolesDatabase, result.team, project.category)
  {
    var template := TemplateFor(project.category);
    var estimate := SimulateWith(RolesDatabase, template.team, project.category);
    result := SimulationResult(template.team, estimate.estimatedWeeks, estimate.estimatedCost,
                               template.explanation, template.comparison);
  }

  /** One frontend developer: 10 units a week, 80 an hour for 40 hours. */
  lemma OneFrontendDev()
    ensures MemberWorkUnits(RolesDatabase, FrontendDevs(1)) == 10
    ensures MemberWeeklyCost(RolesDatabase, FrontendDevs(1)) == 3200
  {
    assert RoleWithId("fe-dev")(RolesDatabase[0]);
    assert RoleIn(RolesDatabase, "fe-dev") == Some(RolesDatabase[0]);
  }

  /** One backend developer: 10 units a week, 85 an hour for 40 hours. */
  lemma OneBackendDev()
    ensures MemberWorkUnits(RolesDatabase, BackendDevs(1)) == 10
    ensures MemberWeeklyCost(RolesDatabase, BackendDevs(1)) == 3400
  {
    assert !RoleWithId("be-dev")(RolesDatabase[0]) by {
      assert RolesDatabase[0].id[0] != "be-dev"[0];
    }
    assert RoleWithId("be-dev")(RolesDatabase[1]);
    assert RoleIn(RolesDatabase, "be-dev") == Some(RolesDatabase[1]);
  }

  /** One designer: 8 units a week, 65 an hour for 30 hours. */
  lemma OneDesigner()
    ensures MemberWorkUnits(RolesDatabase, Designers(1)) == 8
    ensures MemberWeeklyCost(RolesDatabase, Designers(1)) == 1950
  {
    assert !RoleWithId("designer")(RolesDatabase[0]) by {
      assert RolesDatabase[0].id[0] != "designer"[0];
    }
    assert !RoleWithId("designer")(RolesDatabase[1]) by {
      assert RolesDatabase[1].id[0] != "designer"[0];
    }
    assert RoleWithId("designer")(RolesDatabase[2]);
    assert RoleIn(RolesDatabase, "designer") == Some(RolesDatabase[2]);
  }

  /** The sums over a three-member team, member by member. */
  lemma WeeklyOfThree(roles: seq<TeamRole>, a: TeamMember, b: TeamMember, c: TeamMember)
    ensures WeeklyWorkUnits(roles, [a, b, c]) ==
      MemberWorkUnits(roles, a) + MemberWorkUnits(roles, b) + MemberWorkUnits(roles, c)
    ensures WeeklyCost(roles, [a, b, c]) ==
      MemberWeeklyCost(roles, a) + MemberWeeklyCost(roles, b) + MemberWeeklyCost(roles, c)
  {
    assert [a, b, c][..2] == [a, b];
    assert [a, b][..1] == [a];
    assert [a][..0] == [];
    assert WeeklyWorkUnits(roles, [a]) == MemberWorkUnits(roles, a);
    assert WeeklyCost(roles, [a]) == MemberWeeklyCost(roles, a);
    assert WeeklyWorkUnits(roles, [a, b]) == MemberWorkUnits(roles, a) + MemberWorkUnits(roles, b);
    assert WeeklyCost(roles, [a, b]) == MemberWeeklyCost(roles, a) + MemberWeeklyCost(roles, b);
  }

  /** The SaaS suggestion delivers 28 work units a week at 8550 a week: 8 weeks, 68400 in all. */
  lemma SaasSuggestion()
    ensures Simulated(RolesDatabase, SuggestedTeam(SaaS), SaaS) == Estimate(8, 68400)
  {
    OneFrontendDev();
    OneBackendDev();
    OneDesigner();
    WeeklyOfThree(RolesDatabase, FrontendDevs(1), BackendDevs(1), Designers(1));
    assert EstimatedWeeks(200, 28) == 8;
  }
}
