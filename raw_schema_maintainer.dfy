/** The pass that publishes raw schemas (metadata/api/raw_schema/maintainer.py): every raw schema not
    yet `SUCCESS` is uploaded to the registry bucket as it is, then marked `SUCCESS` and committed;
    an upload that raises ends the pass, leaving that raw schema and the later ones as they were. */
module RawSchemaMaintainer {
  import opened Common
  import opened EntityStatus
  import opened Cloud
  import opened Schemas

  /** The raw schemas the pass takes up, in order: those whose status is not `SUCCESS`. */
  function Pending(all: seq<RawSchema>): (r: seq<RawSchema>)
    reads set x | x in all
    ensures forall i :: 0 <= i < |r| ==> r[i] in all && r[i].status != Success
  {
    if all == [] then []
    else
      assert forall i :: 1 <= i < |all| ==> all[i] == all[1..][i - 1];
      (if all[0].status != Success then [all[0]] else []) + Pending(all[1..])
  }

  /** Every raw schema not yet `SUCCESS` is taken up, and only those, in the order of `all`. */
  lemma {:induction false} PendingIsTheUnfinished(all: seq<RawSchema>)
    ensures forall x :: x in Pending(all) <==> x in all && x.status != Success
  {
    if all != [] {
      PendingIsTheUnfinished(all[1..]);
      assert forall x :: x in all <==> x == all[0] || x in all[1..];
    }
  }

  /** The uploads, one per raw schema, of its document to its own path. */
  function Uploads(pending: seq<RawSchema>): (r: seq<Effect>)
    ensures |r| == |pending| && forall i :: 0 <= i < |pending| ==> r[i] == Upload(pending[i].path, pending[i].schema)
  {
    seq(|pending|, i requires 0 <= i < |pending| => Upload(pending[i].path, pending[i].schema))
  }

  /** The uploads the pass has issued once it has handled the first `i` pending raw schemas. */
  ghost function Issued(pending: seq<RawSchema>, dryRun: bool, i: nat): seq<Effect>
    requires i <= |pending|
  {
    if dryRun then [] else Uploads(pending)[..i]
  }

  /** A turn that went through adds its upload, which did not fail, to what was issued. */
  lemma IssuedNext(pending: seq<RawSchema>, dryRun: bool, failing: set<Effect>, i: nat)
    requires i < |pending| && Passes(Issued(pending, dryRun, i), failing)
    requires !dryRun ==> Upload(pending[i].path, pending[i].schema) !in failing
    ensures Issued(pending, dryRun, i + 1) ==
      Issued(pending, dryRun, i) + (if dryRun then [] else [Upload(pending[i].path, pending[i].schema)])
    ensures Passes(Issued(pending, dryRun, i + 1), failing)
  {
    if !dryRun {
      var calls := Uploads(pending);
      assert calls[..i + 1] == calls[..i] + [calls[i]];
    }
  }

  /** The uploads the whole pass would make: none in a dry run. */
  function Calls(pending: seq<RawSchema>, dryRun: bool): (r: seq<Effect>)
    ensures |r| == if dryRun then 0 else |pending|
  {
    if dryRun then [] else Uploads(pending)
  }

  /** How many pending raw schemas the pass marks: all in a dry run, else those before the first
      failing upload. */
  function Handled(pending: seq<RawSchema>, dryRun: bool, failing: set<Effect>): (r: nat)
    ensures r <= |pending|
  {
    if dryRun then |pending| else Reached(Uploads(pending), failing)
  }

  /** An upload that fails at turn `i` is the first failure of the whole plan. */
  lemma StopsAt(pending: seq<RawSchema>, failing: set<Effect>, i: nat)
    requires i < |pending| && Passes(Issued(pending, false, i), failing)
    requires Upload(pending[i].path, pending[i].schema) in failing
    ensures Handled(pending, false, failing) == i
    ensures RunOutcome(Calls(pending, false), failing) == Fail(CollaboratorFailure)
  {
    var calls := Uploads(pending);
    assert forall j :: 0 <= j < i ==> calls[j] in calls[..i];
    ReachedIsFirstFailure(calls, failing, i);
  }

  /** When every turn went through, the whole plan did. */
  lemma RanThrough(pending: seq<RawSchema>, dryRun: bool, failing: set<Effect>)
    requires Passes(Issued(pending, dryRun, |pending|), failing)
    ensures Handled(pending, dryRun, failing) == |pending|
    ensures RunOutcome(Calls(pending, dryRun), failing) == Pass
  {
    if !dryRun {
      var calls := Uploads(pending);
      assert calls[..|calls|] == calls;
      assert forall j :: 0 <= j < |calls| ==> calls[j] in calls;
      ReachedIsFirstFailure(calls, failing, |calls|);
    }
  }

  /** The state of the cloud and of the raw schemas once the pass has handled `pending[..i]`. */
  ghost predicate HandledUpTo(pending: seq<RawSchema>, cloud: Client, t0: seq<Effect>, dryRun: bool, now: Timestamp,
                               i: nat, handled: set<RawSchema>)
    reads cloud, set x | x in pending
  {
    i <= |pending| && cloud.Valid() &&
    cloud.trace == t0 + Issued(pending, dryRun, i) && Passes(Issued(pending, dryRun, i), cloud.failing) &&
    handled == Members(pending[..i]) &&
    forall x :: x in handled ==> x.status == Success && x.statusUpdatedAt == now
  }

  /** One turn of the loop, for `pending[i]`: the upload unless in a dry run, then the status. */
  method Turn(pending: seq<RawSchema>, cloud: Client, dryRun: bool, now: Timestamp, i: nat,
              ghost t0: seq<Effect>, ghost handled: set<RawSchema>) returns (outcome: Outcome)
    requires i < |pending| && HandledUpTo(pending, cloud, t0, dryRun, now, i, handled)
    modifies cloud`state, cloud`trace, pending[i]
    ensures outcome.Pass? ==> HandledUpTo(pending, cloud, t0, dryRun, now, i + 1, handled + {pending[i]})
    ensures outcome.Fail? ==>
      && !dryRun && outcome == Fail(CollaboratorFailure) && HandledUpTo(pending, cloud, t0, dryRun, now, i, handled)
      && Upload(pending[i].path, pending[i].schema) in cloud.failing
      && pending[i].status == old(pending[i].status) && pending[i].statusUpdatedAt == old(pending[i].statusUpdatedAt)
  {
    var x := pending[i];
    if !dryRun {
      outcome := cloud.Perform(Upload(x.path, x.schema));
      if outcome.Fail? {
        return;
      }
    }
    x.SetStatus(Success, now);
    outcome := Pass;
    IssuedNext(pending, dryRun, cloud.failing, i);
    MembersNext(pending, i);
  }

  /** The loop of `process_non_success` over the raw schemas it selected; `done` counts the raw
      schemas it marked. */
  method ProcessAll(pending: seq<RawSchema>, cloud: Client, dryRun: bool, now: Timestamp)
    returns (outcome: Outcome, ghost done: nat)
    requires cloud.Valid()
    modifies cloud`state, cloud`trace, set x | x in pending
    ensures cloud.Valid() && done <= |pending|
    ensures outcome == (if done == |pending| then Pass else Fail(CollaboratorFailure))
    ensures done < |pending| ==> !dryRun && Upload(pending[done].path, pending[done].schema) in cloud.failing
    ensures Passes(Issued(pending, dryRun, done), cloud.failing)
    ensures cloud.trace == old(cloud.trace) + Issued(pending, dryRun, done)
    ensures forall x :: x in pending[..done] ==> x.status == Success && x.statusUpdatedAt == now
    ensures forall x :: x in pending && x !in pending[..done] ==>
      x.status == old(x.status) && x.statusUpdatedAt == old(x.statusUpdatedAt)
  {
    ghost var t0 := cloud.trace;
    ghost var handled: set<RawSchema> := {};
    outcome := Pass;
    var i := 0;
    while i < |pending|
      invariant HandledUpTo(pending, cloud, t0, dryRun, now, i, handled) && outcome == Pass
      invariant forall x :: x in pending && x !in handled ==> x.status == old(x.status) && x.statusUpdatedAt == old(x.statusUpdatedAt)
    {
      outcome := Turn(pending, cloud, dryRun, now, i, t0, handled);
      if outcome.Fail? {
        done := i;
        return;
      }
      handled := handled + {pending[i]};
      i := i + 1;
    }
    done := i;
    assert pending[..|pending|] == pending;
  }

  /** A pass that stops at the first failing upload has marked `Handled` raw schemas, and its outcome
      is that of the whole plan of uploads. */
  lemma HandledIsWhereItStopped(pending: seq<RawSchema>, dryRun: bool, failing: set<Effect>, done: nat)
    requires done <= |pending| && Passes(Issued(pending, dryRun, done), failing)
    requires done < |pending| ==> !dryRun && Upload(pending[done].path, pending[done].schema) in failing
    ensures Handled(pending, dryRun, failing) == done
    ensures RunOutcome(Calls(pending, dryRun), failing) == if done == |pending| then Pass else Fail(CollaboratorFailure)
  {
    if done < |pending| {
      StopsAt(pending, failing, done);
    } else {
      RanThrough(pending, dryRun, failing);
    }
  }

  /** `process_non_success`. The raw schemas handled before a failing upload stay `SUCCESS`; every
      other one is as it was. In a dry run nothing is uploaded and every pending raw schema is marked. */
  method ProcessNonSuccess(all: seq<RawSchema>, cloud: Client, dryRun: bool, now: Timestamp) returns (outcome: Outcome)
    requires cloud.Valid()
    modifies cloud`state, cloud`trace, set x | x in all
    ensures cloud.Valid()
    ensures outcome == RunOutcome(Calls(old(Pending(all)), dryRun), cloud.failing)
    ensures var pending := old(Pending(all)); var done := Handled(pending, dryRun, cloud.failing);
      cloud.trace == old(cloud.trace) + Issued(pending, dryRun, done) &&
      (forall x :: x in pending[..done] ==> x.status == Success && x.statusUpdatedAt == now) &&
      (forall x :: x in all && x !in pending[..done] ==> x.status == old(x.status) && x.statusUpdatedAt == old(x.statusUpdatedAt))
  {
    var pending := Pending(all);
    ghost var done;
    outcome, done := ProcessAll(pending, cloud, dryRun, now);
    HandledIsWhereItStopped(pending, dryRun, cloud.failing, done);
  }
}
