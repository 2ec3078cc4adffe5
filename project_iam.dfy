/** Granting a role on a project to exactly a list of members
    (metadata/api/organization/internal/gcp_project_iam.py). */
module ProjectIam {
  import opened Common
  import opened Cloud

  /** The policy with the role's members replaced: the first binding for the role takes `members`
      (any later binding for it is left as it is), and a role without a binding gets one at the end. */
  function WithRoleMembers(bindings: seq<Binding>, role: string, members: seq<string>): seq<Binding>
  {
    if bindings == [] then [Binding(role, members)]
    else if bindings[0].role == role then [Binding(role, members)] + bindings[1..]
    else [bindings[0]] + WithRoleMembers(bindings[1..], role, members)
  }

  /** The index of the first binding for a role. */
  function FirstWithRole(bindings: seq<Binding>, role: string): (r: Option<nat>)
    ensures r.Some? ==> r.value < |bindings| && bindings[r.value].role == role &&
                        forall j :: 0 <= j < r.value ==> bindings[j].role != role
    ensures r.None? ==> forall j :: 0 <= j < |bindings| ==> bindings[j].role != role
  {
    if bindings == [] then None
    else if bindings[0].role == role then Some(0)
    else match FirstWithRole(bindings[1..], role)
      case None => None
      case Some(i) => Some(i + 1)
  }

  /** The new policy differs from the old one in exactly one place: the role's first binding now
      holds `members`, or a binding for it was added at the end. */
  lemma {:induction false} WithRoleMembersReplacesFirst(bindings: seq<Binding>, role: string, members: seq<string>)
    ensures match FirstWithRole(bindings, role)
      case Some(i) => WithRoleMembers(bindings, role, members) == bindings[i := Binding(role, members)]
      case None => WithRoleMembers(bindings, role, members) == bindings + [Binding(role, members)]
    decreases |bindings|
  {
    if bindings != [] && bindings[0].role != role {
      WithRoleMembersReplacesFirst(bindings[1..], role, members);
      match FirstWithRole(bindings[1..], role)
      case Some(i) =>
        assert [bindings[0]] + bindings[1..][i := Binding(role, members)] == bindings[i + 1 := Binding(role, members)];
      case None =>
        assert [bindings[0]] + (bindings[1..] + [Binding(role, members)]) == bindings + [Binding(role, members)];
    }
  }

  /** Setting the same members twice is setting them once. */
  lemma {:induction false} WithRoleMembersIdempotent(bindings: seq<Binding>, role: string, members: seq<string>)
    ensures WithRoleMembers(WithRoleMembers(bindings, role, members), role, members)
         == WithRoleMembers(bindings, role, members)
    decreases |bindings|
  {
    if bindings != [] && bindings[0].role != role {
      var rest := WithRoleMembers(bindings[1..], role, members);
      WithRoleMembersIdempotent(bindings[1..], role, members);
      assert ([bindings[0]] + rest)[1..] == rest;
    }
  }

  /** Afterwards the role's first binding holds exactly `members`, and every other role's bindings
      are untouched. */
  lemma RoleHoldsMembers(bindings: seq<Binding>, role: string, members: seq<string>)
    ensures var r := WithRoleMembers(bindings, role, members);
      FirstWithRole(r, role).Some? && r[FirstWithRole(r, role).value].members == members && |r| >= |bindings| &&
      forall j :: 0 <= j < |bindings| && bindings[j].role != role ==> r[j] == bindings[j]
  {
    WithRoleMembersReplacesFirst(bindings, role, members);
    var r := WithRoleMembers(bindings, role, members);
    match FirstWithRole(bindings, role)
    case Some(i) =>
      assert r[i].role == role && forall j :: 0 <= j < i ==> r[j].role != role;
    case None =>
      assert r[|bindings|].role == role && forall j :: 0 <= j < |bindings| ==> r[j].role != role;
  }

  function ProjectResource(projectId: string): string
  {
    "projects/" + projectId
  }

  /** The one call `set_role_members` makes from state `s`. */
  function RoleMembersCall(s: State, projectId: string, role: string, members: seq<string>): Effect
  {
    var resource := ProjectResource(projectId);
    SetIamPolicy(resource, WithRoleMembers(PolicyIn(s, resource), role, members))
  }

  /** `set_role_members`: reads the project's policy, replaces the role's members and writes the
      policy back. */
  method SetRoleMembers(cloud: Client, projectId: string, role: string, members: seq<string>) returns (outcome: Outcome)
    requires cloud.Valid()
    modifies cloud`state, cloud`trace
    ensures cloud.Valid()
    ensures var call := RoleMembersCall(old(cloud.state), projectId, role, members);
      if call in cloud.failing then outcome == Fail(CollaboratorFailure) && cloud.trace == old(cloud.trace)
      else outcome == Pass && cloud.trace == old(cloud.trace) + [call] && cloud.state == Apply(old(cloud.state), call)
  {
    var resource := ProjectResource(projectId);
    var policy := cloud.Policy(resource);
    outcome := cloud.Perform(SetIamPolicy(resource, WithRoleMembers(policy, role, members)));
  }

  /** After a successful call the project's role has exactly the members. */
  lemma SetRoleMembersGrants(s: State, projectId: string, role: string, members: seq<string>)
    ensures var p := PolicyIn(Apply(s, RoleMembersCall(s, projectId, role, members)), ProjectResource(projectId));
      FirstWithRole(p, role).Some? && p[FirstWithRole(p, role).value].members == members
  {
    RoleHoldsMembers(PolicyIn(s, ProjectResource(projectId)), role, members);
  }
}
