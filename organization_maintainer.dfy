/** The pass that grants organizations their project role (metadata/api/organization/maintainer.py):
    every organization not yet `SUCCESS` has the client-admin role on its project set to exactly its
    principals, then is marked `SUCCESS` and committed; a policy write that raises ends the pass,
    leaving that organization and the later ones as they were. */
module OrganizationMaintainer {
  import opened Common
  import opened EntityStatus
  import opened Cloud
  import opened Apps
  import opened ProjectIam

  /** The custom role granted on an organization's project. */
  function AdminRole(projectId: string): string
  {
    ProjectResource(projectId) + "/roles/gametuner.clientAdmin"
  }

  /** The organizations the pass takes up, in order: those whose status is not `SUCCESS`. */
  function Pending(all: seq<Organization>): (r: seq<Organization>)
    reads set o | o in all
    ensures forall i :: 0 <= i < |r| ==> r[i] in all && r[i].status != Success
  {
    if all == [] then []
    else
      assert forall i :: 1 <= i < |all| ==> all[i] == all[1..][i - 1];
      (if all[0].status != Success then [all[0]] else []) + Pending(all[1..])
  }

  /** Every organization not yet `SUCCESS` is taken up, and only those. */
  lemma {:induction false} PendingIsTheUnfinished(all: seq<Organization>)
    ensures forall o :: o in Pending(all) <==> o in all && o.status != Success
  {
    if all != [] {
      PendingIsTheUnfinished(all[1..]);
      assert forall o :: o in all <==> o == all[0] || o in all[1..];
    }
  }

  /** The policy writes of a pass over `orgs` that goes through, starting from `s`: each one reads
      the project's policy as the writes before it left it. */
  function RoleCalls(s: State, orgs: seq<Organization>): (r: seq<Effect>)
    ensures |r| == |orgs|
  {
    if orgs == [] then []
    else
      var prev := RoleCalls(s, orgs[..|orgs| - 1]);
      var o := orgs[|orgs| - 1];
      prev + [RoleMembersCall(Replay(s, prev), o.gcpProjectId, AdminRole(o.gcpProjectId), o.principals)]
  }

  /** The write for `orgs[i]`, once the ones before it went through. */
  function NextCall(s: State, orgs: seq<Organization>, i: nat): Effect
    requires i < |orgs|
  {
    RoleMembersCall(Replay(s, RoleCalls(s, orgs[..i])), orgs[i].gcpProjectId, AdminRole(orgs[i].gcpProjectId),
                    orgs[i].principals)
  }

  lemma RoleCallsNext(s: State, orgs: seq<Organization>, i: nat)
    requires i < |orgs|
    ensures RoleCalls(s, orgs[..i + 1]) == RoleCalls(s, orgs[..i]) + [NextCall(s, orgs, i)]
  {
    assert orgs[..i + 1][..i] == orgs[..i];
  }

  /** The writes of a longer pass begin with those of a shorter one. */
  lemma {:induction false} RoleCallsPrefix(s: State, orgs: seq<Organization>, k: nat)
    requires k <= |orgs|
    ensures RoleCalls(s, orgs)[..k] == RoleCalls(s, orgs[..k])
    decreases |orgs|
  {
    if k < |orgs| {
      var n := |orgs| - 1;
      RoleCallsPrefix(s, orgs[..n], k);
      assert orgs[..n][..k] == orgs[..k];
    } else {
      assert orgs[..k] == orgs;
    }
  }

  /** The `i`-th write of the pass is the one for `orgs[i]`, and it leaves the project's
      client-admin role with exactly that organization's principals, in order. */
  lemma {:induction false} RoleCallGrants(s: State, orgs: seq<Organization>, i: nat)
    requires i < |orgs|
    ensures RoleCalls(s, orgs)[i] == NextCall(s, orgs, i)
    ensures var before := Replay(s, RoleCalls(s, orgs)[..i]);
      var call := RoleCalls(s, orgs)[i];
      var project := ProjectResource(orgs[i].gcpProjectId);
      var p := PolicyIn(Apply(before, call), project);
      && call == SetIamPolicy(project, WithRoleMembers(PolicyIn(before, project), AdminRole(orgs[i].gcpProjectId),
                                                       orgs[i].principals))
      && FirstWithRole(p, AdminRole(orgs[i].gcpProjectId)).Some?
      && p[FirstWithRole(p, AdminRole(orgs[i].gcpProjectId)).value].members == orgs[i].principals
  {
    RoleCallsPrefix(s, orgs, i + 1);
    RoleCallsPrefix(s, orgs, i);
    RoleCallsNext(s, orgs, i);
    var calls := RoleCalls(s, orgs);
    assert calls[i] == calls[..i + 1][i];
    assert calls[..i] == calls[..i + 1][..i];
    SetRoleMembersGrants(Replay(s, RoleCalls(s, orgs[..i])), orgs[i].gcpProjectId, AdminRole(orgs[i].gcpProjectId),
                         orgs[i].principals);
  }

  /** How many organizations a pass gets through before a policy write raises. */
  function Granted(s: State, orgs: seq<Organization>, failing: set<Effect>): (k: nat)
    ensures k <= |orgs|
    ensures Passes(RoleCalls(s, orgs[..k]), failing)
    ensures k < |orgs| ==> NextCall(s, orgs, k) in failing
  {
    if orgs == [] then 0
    else
      var n := |orgs| - 1;
      var k := Granted(s, orgs[..n], failing);
      assert orgs[..n][..k] == orgs[..k];
      if k < n then
        k
      else if NextCall(s, orgs, n) in failing then
        n
      else
        RoleCallsNext(s, orgs, n);
        assert orgs[..n + 1] == orgs;
        n + 1
  }

  /** The write for `orgs[j]` is among those of a pass over more than `j` organizations. */
  lemma NextCallIssued(s: State, orgs: seq<Organization>, j: nat, i: nat)
    requires j < i <= |orgs|
    ensures NextCall(s, orgs, j) in RoleCalls(s, orgs[..i])
  {
    RoleCallsPrefix(s, orgs[..i], j + 1);
    assert orgs[..i][..j + 1] == orgs[..j + 1];
    RoleCallsNext(s, orgs, j);
    assert RoleCalls(s, orgs[..i])[j] == RoleCalls(s, orgs[..i])[..j + 1][j];
  }

  /** `Granted` is the first organization whose write raises. */
  lemma GrantedIsFirstRefusal(s: State, orgs: seq<Organization>, failing: set<Effect>, i: nat)
    requires i <= |orgs| && Passes(RoleCalls(s, orgs[..i]), failing)
    requires i < |orgs| ==> NextCall(s, orgs, i) in failing
    ensures Granted(s, orgs, failing) == i
  {
    var k := Granted(s, orgs, failing);
    if k < i {
      NextCallIssued(s, orgs, k, i);
    } else if i < k {
      NextCallIssued(s, orgs, i, k);
    }
  }

  /** The writes the pass issues once it has handled the first `i` pending organizations. */
  function Issued(s: State, pending: seq<Organization>, dryRun: bool, i: nat): seq<Effect>
    requires i <= |pending|
  {
    if dryRun then [] else RoleCalls(s, pending[..i])
  }

  /** How many pending organizations the pass marks: all in a dry run, else those before the first
      failing write. */
  function Handled(s: State, pending: seq<Organization>, dryRun: bool, failing: set<Effect>): (r: nat)
    ensures r <= |pending|
  {
    if dryRun then |pending| else Granted(s, pending, failing)
  }

  /** Before turn `i` the cloud holds what the writes for `pending[..i]` made of `s0`. */
  lemma StateBefore(start: State, t0: seq<Effect>, s0: State, pending: seq<Organization>, i: nat)
    requires i <= |pending| && Replay(start, t0) == s0
    ensures Replay(start, t0 + RoleCalls(s0, pending[..i])) == Replay(s0, RoleCalls(s0, pending[..i]))
  {
    ReplayAppend(start, t0, RoleCalls(s0, pending[..i]));
  }

  /** After a write that went through at turn `i`, the trace holds the writes for `pending[..i + 1]`. */
  lemma TraceAfter(s0: State, pending: seq<Organization>, i: nat, failing: set<Effect>, t0: seq<Effect>)
    requires i < |pending| && Passes(RoleCalls(s0, pending[..i]), failing) && NextCall(s0, pending, i) !in failing
    ensures t0 + RoleCalls(s0, pending[..i]) + [NextCall(s0, pending, i)] == t0 + RoleCalls(s0, pending[..i + 1])
    ensures Passes(RoleCalls(s0, pending[..i + 1]), failing)
  {
    RoleCallsNext(s0, pending, i);
  }

  /** The state of the cloud and of the organizations once the pass has handled `pending[..i]`. */
  ghost predicate HandledUpTo(pending: seq<Organization>, cloud: Client, t0: seq<Effect>, s0: State, dryRun: bool,
                              now: Timestamp, i: nat, handled: set<Organization>)
    reads cloud, set o | o in pending
  {
    i <= |pending| && cloud.Valid() &&
    cloud.trace == t0 + Issued(s0, pending, dryRun, i) && Replay(cloud.start, t0) == s0 &&
    Passes(Issued(s0, pending, dryRun, i), cloud.failing) &&
    handled == Members(pending[..i]) &&
    forall o :: o in handled ==> o.status == Success && o.statusUpdatedAt == now
  }

  /** One turn of the loop, for `pending[i]`: the role grant unless in a dry run, then the status. */
  method Turn(pending: seq<Organization>, cloud: Client, dryRun: bool, now: Timestamp, i: nat,
              ghost t0: seq<Effect>, ghost s0: State, ghost handled: set<Organization>) returns (outcome: Outcome)
    requires i < |pending| && HandledUpTo(pending, cloud, t0, s0, dryRun, now, i, handled)
    modifies cloud`state, cloud`trace, pending[i]
    ensures outcome.Pass? ==> HandledUpTo(pending, cloud, t0, s0, dryRun, now, i + 1, handled + {pending[i]})
    ensures outcome.Fail? ==>
      && !dryRun && outcome == Fail(CollaboratorFailure) && HandledUpTo(pending, cloud, t0, s0, dryRun, now, i, handled)
      && NextCall(s0, pending, i) in cloud.failing
      && pending[i].status == old(pending[i].status) && pending[i].statusUpdatedAt == old(pending[i].statusUpdatedAt)
  {
    var o := pending[i];
    if !dryRun {
      StateBefore(cloud.start, t0, s0, pending, i);
      var role := AdminRole(o.gcpProjectId);
      outcome := SetRoleMembers(cloud, o.gcpProjectId, role, o.principals);
      if outcome.Fail? {
        return;
      }
      TraceAfter(s0, pending, i, cloud.failing, t0);
    }
    o.SetStatus(Success, now);
    outcome := Pass;
    MembersNext(pending, i);
  }

  /** The loop of `process_non_success` over the organizations it selected; `done` counts the
      organizations it marked. */
  method ProcessAll(pending: seq<Organization>, cloud: Client, dryRun: bool, now: Timestamp)
    returns (outcome: Outcome, ghost done: nat)
    requires cloud.Valid()
    modifies cloud`state, cloud`trace, set o | o in pending
    ensures cloud.Valid() && done <= |pending|
    ensures outcome == (if done == |pending| then Pass else Fail(CollaboratorFailure))
    ensures done < |pending| ==> !dryRun && NextCall(old(cloud.state), pending, done) in cloud.failing
    ensures Passes(Issued(old(cloud.state), pending, dryRun, done), cloud.failing)
    ensures cloud.trace == old(cloud.trace) + Issued(old(cloud.state), pending, dryRun, done)
    ensures forall o :: o in pending[..done] ==> o.status == Success && o.statusUpdatedAt == now
    ensures forall o :: o in pending && o !in pending[..done] ==>
      o.status == old(o.status) && o.statusUpdatedAt == old(o.statusUpdatedAt)
  {
    ghost var t0, s0 := cloud.trace, cloud.state;
    ghost var handled: set<Organization> := {};
    outcome := Pass;
    var i := 0;
    assert t0 + Issued(s0, pending, dryRun, 0) == t0;
    while i < |pending|
      invariant HandledUpTo(pending, cloud, t0, s0, dryRun, now, i, handled) && outcome == Pass
      invariant forall o :: o in pending && o !in handled ==> o.status == old(o.status) && o.statusUpdatedAt == old(o.statusUpdatedAt)
    {
      outcome := Turn(pending, cloud, dryRun, now, i, t0, s0, handled);
      if outcome.Fail? {
        done := i;
        return;
      }
      handled := handled + {pending[i]};
      i := i + 1;
    }
    done := i;
    assert pending[..|pending|] == pending;
  }

  /** A pass that stops at the first failing write has marked `Handled` organizations. */
  lemma HandledIsWhereItStopped(s: State, pending: seq<Organization>, dryRun: bool, failing: set<Effect>, done: nat)
    requires done <= |pending| && Passes(Issued(s, pending, dryRun, done), failing)
    requires done < |pending| ==> !dryRun && NextCall(s, pending, done) in failing
    ensures Handled(s, pending, dryRun, failing) == done
  {
    if !dryRun {
      GrantedIsFirstRefusal(s, pending, failing, done);
    }
  }

  /** `process_non_success`. The organizations handled before a failing write are `SUCCESS`; every
      other one is as it was. In a dry run no policy is written and every pending organization is
      marked. */
  method ProcessNonSuccess(all: seq<Organization>, cloud: Client, dryRun: bool, now: Timestamp) returns (outcome: Outcome)
    requires cloud.Valid()
    modifies cloud`state, cloud`trace, set o | o in all
    ensures cloud.Valid()
    ensures var pending := old(Pending(all)); var done := Handled(old(cloud.state), pending, dryRun, cloud.failing);
      && outcome == (if done == |pending| then Pass else Fail(CollaboratorFailure))
      && cloud.trace == old(cloud.trace) + Issued(old(cloud.state), pending, dryRun, done)
      && (forall o :: o in pending[..done] ==> o.status == Success && o.statusUpdatedAt == now)
      && (forall o :: o in all && o !in pending[..done] ==>
            o.status == old(o.status) && o.statusUpdatedAt == old(o.statusUpdatedAt))
  {
    var pending := Pending(all);
    ghost var s0 := cloud.state;
    ghost var done;
    outcome, done := ProcessAll(pending, cloud, dryRun, now);
    HandledIsWhereItStopped(s0, pending, dryRun, cloud.failing, done);
  }
}
