/**
 The integration driver as a program that may stop anywhere (Integration#resume in
 libexec/workspace-integration.rb). A crash loses what was not saved; the next run
 starts from the journal on disk, while other sessions use the ledger.
 */
module IntegrationDriver {
  import opened Wrappers
  import opened MachinePolicy
  import opened Ledger
  import opened LedgerRuns
  import opened LedgerGuarantees
  import opened LedgerReceipts
  import opened IntegrationJournal
  import opened IntegrationMeaning

  /** What #settled finds among the jobs of a phase; a stale one is named by its place. */
  datatype View = Missing | Stale(at: nat) | Broken | Open | AllLanded

  predicate Present(value: Journal, ledger: State, name: JobName) {
    name in value.jobs && value.jobs[name] in ledger.jobs
  }

  predicate InState(value: Journal, ledger: State, name: JobName, states: set<JobState>) {
    Present(value, ledger, name) && ledger.jobs[value.jobs[name]].state in states
  }

  /** The rest of #settled: the first stale job comes before a broken one, and only then all must have succeeded. */
  method Look(value: Journal, ledger: State, names: seq<JobName>) returns (view: View)
    ensures view.Missing? <==> exists k :: 0 <= k < |names| && !Present(value, ledger, names[k])
    ensures view.Stale? <==>
      && (forall k :: 0 <= k < |names| ==> Present(value, ledger, names[k]))
      && exists k :: 0 <= k < |names| && InState(value, ledger, names[k], {NeedsRefresh})
    ensures view.Stale? ==>
      && view.at < |names| && InState(value, ledger, names[view.at], {NeedsRefresh})
      && forall k :: 0 <= k < view.at ==> !InState(value, ledger, names[k], {NeedsRefresh})
    ensures view.Broken? <==>
      && (forall k :: 0 <= k < |names| ==>
            Present(value, ledger, names[k]) && !InState(value, ledger, names[k], {NeedsRefresh}))
      && exists k :: 0 <= k < |names| && InState(value, ledger, names[k], {Failed, Canceled, Reconciling})
    ensures view.AllLanded? <==> forall k :: 0 <= k < |names| ==> Landed(value, ledger, names[k])
  {
    for k := 0 to |names|
      invariant forall i :: 0 <= i < k ==> Present(value, ledger, names[i])
    {
      if names[k] !in value.jobs || value.jobs[names[k]] !in ledger.jobs {
        return Missing;
      }
    }
    for k := 0 to |names|
      invariant forall i :: 0 <= i < k ==> !InState(value, ledger, names[i], {NeedsRefresh})
    {
      if ledger.jobs[value.jobs[names[k]]].state.NeedsRefresh? {
        return Stale(k);
      }
    }
    for k := 0 to |names|
      invariant forall i :: 0 <= i < k ==> !InState(value, ledger, names[i], {Failed, Canceled, Reconciling})
    {
      var state := ledger.jobs[value.jobs[names[k]]].state;
      if state.Failed? || state.Canceled? || state.Reconciling? {
        assert InState(value, ledger, names[k], {Failed, Canceled, Reconciling});
        return Broken;
      }
    }
    for k := 0 to |names|
      invariant forall i :: 0 <= i < k ==> Landed(value, ledger, names[i])
    {
      if !ledger.jobs[value.jobs[names[k]]].state.Succeeded? {
        return Open;
      }
    }
    view := AllLanded;
  }

  function MergeNames(items: seq<Item>): seq<JobName> {
    seq(|items|, k requires 0 <= k < |items| => MergeOf(items[k].repository))
  }

  lemma OwnTarget(items: seq<Item>, k: nat)
    requires k < |items| && DistinctItems(items)
    ensures Targets(items, items[k].repository) == {(items[k].repository, items[k].target)}
  {
    assert items[k] in items;
    forall item | item in items && item.repository == items[k].repository ensures item == items[k] {
      var i :| 0 <= i < |items| && items[i] == item;
    }
  }

  lemma SavedIsIntended(items: seq<Item>, value: Journal, name: StepName)
    requires name in value.steps && value.steps[name].action.Some? && !name.SubmitMerges?
    ensures Intended(items, value, name).Some?
  {
  }

  // ---------------------------------------------------------------- what the phases ask fits

  lemma MergeApprovalFits(plan: Plan, value: Journal, k: nat, reviewed: Id)
    requires k < |plan.items| && DistinctItems(plan.items)
    requires PreparedId(value, PrepareMerge(plan.items[k].repository), reviewed)
    ensures Fits(plan, value, ApproveMerge(plan.items[k].repository),
      Approve(false, {(plan.items[k].repository, plan.items[k].target)}, {}, reviewed, None))
  {
    OwnTarget(plan.items, k);
  }

  lemma RefreshApprovalFits(plan: Plan, value: Journal, p: Pending, snapshot: Snapshot)
    requires PreparedAs(value, PrepareRefresh(p.repository, p.revision), snapshot)
    ensures Fits(plan, value, ApproveRefresh(p.repository, p.revision),
      Approve(false, Targets(plan.items, p.repository), {}, snapshot.id, None))
  {
  }

  lemma RefreshFits(plan: Plan, value: Journal, p: Pending, snapshot: Snapshot, approval: Id)
    requires value.phase.Merging? && MergeOf(p.repository) in value.jobs && value.jobs[MergeOf(p.repository)] == p.job
    requires PreparedAs(value, PrepareRefresh(p.repository, p.revision), snapshot)
    requires Answered(value, ApproveRefresh(p.repository, p.revision), approval)
    ensures Fits(plan, value, RefreshMerge(p.repository, p.revision), Refresh(p.job, p.revision, snapshot, approval))
  {
  }

  lemma DeployApprovalFits(plan: Plan, value: Journal, profile: bool, snapshot: Snapshot)
    requires PreparedAs(value, PrepareDeploy(profile), snapshot)
    ensures Fits(plan, value, ApproveDeploy(profile), Approve(true, {}, Scope(plan.machine), snapshot.id, None))
  {
  }

  lemma ReserveFits(plan: Plan, value: Journal, approval: Id)
    requires Answered(value, ApproveDeploy(false), approval)
    ensures Fits(plan, value, StepName.ReserveMachine, Reserve(plan.machine, approval))
  {
  }

  lemma ActivationFits(plan: Plan, value: Journal, profile: bool, draft: Draft)
    requires value.phase.Deploy? && value.reservation.Some? && draft.reservation == value.reservation
    requires draft.kind == if profile then ProfileActivate else MachineActivate
    requires PreparedAs(value, PrepareDeploy(profile), draft.snapshot)
    requires Answered(value, ApproveDeploy(profile), draft.approval)
    requires if profile then SystemJob in value.jobs && draft.dependsOn == [Known(value.jobs[SystemJob])]
      else draft.dependsOn == []
    ensures Fits(plan, value, SubmitDeploy(profile), Submit(draft))
  {
  }

  lemma SameSteps(a: Journal, b: Journal, c: Journal)
    requires Extends(a, b) && c.steps == b.steps
    ensures Extends(a, c)
  {
  }

  lemma PreparedOn(a: Journal, b: Journal, name: StepName, snapshot: Snapshot)
    requires Extends(a, b) && PreparedAs(a, name, snapshot)
    ensures PreparedAs(b, name, snapshot)
  {
  }

  lemma FinishFits(plan: Plan, value: Journal, r: Id, expected: nat, final: set<Integrated>)
    requires value.phase.Completing? && value.reservation == Some(r)
    ensures Fits(plan, value, FinishRun, Finish(r, expected, final))
  {
  }

  /** The refresh was answered, and the operation is what was prepared and approved for it. */
  predicate RefreshSaved(value: Journal, p: Pending) {
    && RefreshMerge(p.repository, p.revision) in value.steps
    && value.steps[RefreshMerge(p.repository, p.revision)].result.Some? && p.repository in value.operations
    && value.operations[p.repository].snapshot.Some? && value.operations[p.repository].approval.Some?
    && PreparedAs(value, PrepareRefresh(p.repository, p.revision), value.operations[p.repository].snapshot.value)
    && Answered(value, ApproveRefresh(p.repository, p.revision), value.operations[p.repository].approval.value)
  }

  /** Merges are prepared and approved anew after a deployment; every other step stays. */
  ghost predicate PreparedAnew(before: Journal, after: Journal) {
    && after.operations == map[]
    && (forall n :: n in after.steps <==> n in before.steps && !n.PrepareMerge? && !n.ApproveMerge?)
    && forall n :: n in after.steps ==> after.steps[n] == before.steps[n]
  }

  /** All merges are known, and one waits for a new snapshot. */
  ghost predicate Refreshable(plan: Plan, value: Journal, ledger: State) {
    && (forall k :: 0 <= k < |plan.items| ==> Present(value, ledger, MergeOf(plan.items[k].repository)))
    && exists k :: 0 <= k < |plan.items| &&
                   InState(value, ledger, MergeOf(plan.items[k].repository), {NeedsRefresh})
  }

  /** Where a turn that ends well leads, given the ledger it looked at. */
  ghost predicate Advances(plan: Plan, before: Journal, after: Journal, seen: State) {
    match before.phase
    case Prepare => after.phase == if plan.mode == DeployFirst && !before.deployed then Deploy else Submitting
    case Submitting => after.phase == Merging
    case Merging =>
      if before.pending.None? &&
        (forall k :: 0 <= k < |plan.items| ==> Landed(before, seen, MergeOf(plan.items[k].repository)))
      then after.phase == if plan.mode == IntegrateFirst then Deploy else Completing
      else
        && after.phase == Merging && after.pending.None?
        && (before.pending.Some? ==> RefreshSaved(after, before.pending.value))
    case Deploy => after.phase == Deploying
    case Deploying =>
      if Landed(before, seen, SystemJob) && Landed(before, seen, ProfileJob)
      then
        && after.deployed && after.phase == (if plan.mode == DeployFirst then Prepare else Completing)
        && (plan.mode == DeployFirst ==> PreparedAnew(before, after))
      else after.phase == Deploying
    case Completing => after.phase == Done
    case Done => after == before
  }

  lemma DoneStays(plan: Plan, value: Journal, seen: State)
    requires value.phase == Done
    ensures Advances(plan, value, value, seen)
  {
  }

  class Driver {
    const norm: Norm
    const plan: Plan
    var disk: Journal
    var ledger: State
    var issued: set<Id>
    ghost var applied: seq<Id>     // identities under which the ledger took an effect, in order

    ghost predicate Valid()
      reads this
    {
      Keeps(disk) && AppliedOnce(ledger, issued, applied) && Reached(norm, ledger) && DistinctItems(plan.items)
    }

    ghost predicate Keeps(value: Journal)
      reads this
    {
      Kept(plan, value, ledger, issued)
    }

    constructor (norm: Norm, plan: Plan, ledger: State)
      requires Reached(norm, ledger) && DistinctItems(plan.items)
      ensures Valid() && disk == Journal(Prepare, false, map[], map[], map[], None, None) && this.ledger == ledger
      ensures this.plan == plan && this.norm == norm
    {
      this.norm, this.plan, this.ledger := norm, plan, ledger;
      disk, issued, applied := Journal(Prepare, false, map[], map[], map[], None, None), {}, [];
      NewIsSane(plan, ledger);
    }

    /** Write the journal; a crash leaves the old or the new one. */
    method Save(value: Journal) returns (ok: bool)
      requires Valid() && Keeps(value)
      modifies this`disk
      ensures Valid() && Keeps(value) && (ok ==> disk == value)
    {
      hide Kept, Reached, AppliedOnce, DistinctItems, Fits, AskedFor, Intended;
      var written: bool := *;
      ok := *;
      if written || ok {
        disk := value;
      }
    }

    /** Other sessions use the ledger under identities of their own. */
    method Others(ghost value: Journal)
      requires Valid() && Keeps(value)
      modifies this`ledger
      ensures Valid() && Keeps(value)
    {
      var ops: seq<Op> := *;
      if Foreign(ops, issued) {
        hide Kept, Run, Foreign, Reached, AppliedOnce, DistinctItems;
        KeptForeign(norm, plan, disk, ledger, issued, ops);
        KeptForeign(norm, plan, value, ledger, issued, ops);
        ForeignKeeps(norm, ledger, ops, issued);
        AppliedElsewhere(ledger, Run(norm, ledger, ops), issued, applied);
        ReachedOn(norm, ledger, ops);
        ledger := Run(norm, ledger, ops);
      }
    }

    /** The first half of #step: the identity is on disk before the caller can use it. */
    method Begin(value: Journal, name: StepName) returns (ok: bool, next: Journal)
      requires Valid() && Keeps(value) && (name.SubmitMerges? ==> value.phase.Submitting?)
      modifies this`disk, this`issued
      ensures Valid() && Keeps(next) && (ok ==> disk == next && name in next.steps)
      ensures next == value.(steps := next.steps) && Extends(value, next)
      ensures (SubmitMerges in next.steps ==> SubmitMerges in value.steps || name.SubmitMerges?)
    {
      hide Kept, Reached, AppliedOnce, DistinctItems, Fits, AskedFor, Intended;
      next := value;
      if name !in value.steps {
        var id: nat := *;
        if id in issued || id in ledger.receipts {
          ok := false;
          return;
        }
        KeptNewStep(plan, value, ledger, issued, name, id);
        KeptMore(plan, disk, ledger, issued, issued + {id});
        AppliedUnder(ledger, issued, applied, id);
        next := value.(steps := value.steps[name := Entry(id, None, None)]);
        issued := issued + {id};
      }
      ok := Save(next);
    }

    /** Make the request of a saved step, unless admission refuses or the process dies; a reply may be lost. */
    method Ask(value: Journal, name: StepName) returns (ok: bool, reply: Reply)
      requires Valid() && Keeps(value) && disk == value && name in value.steps && value.steps[name].result.None?
      requires Intended(plan.items, value, name).Some?
      modifies this`ledger, this`applied
      ensures Valid() && Keeps(value)
      ensures ok ==>
                && value.steps[name].request in ledger.receipts
                && ledger.receipts[value.steps[name].request] == Receipt(plan.owner,
                  Intended(plan.items, value, name).value, reply)
    {
      hide Kept, Reached, AppliedOnce, DistinctItems, Perform, Fits, Intended;
      Others(value);
      var out: Outside := *;
      var admitted: bool := *;
      ok, reply := false, BatchReply([]);
      if !admitted {
        return;
      }
      KeptAsked(plan, value, ledger, issued, name, out);
      AskedReached(norm, ledger, plan.owner, value.steps[name].request, Intended(plan.items, value, name).value, out);
      var t := Perform(ledger, plan.owner, value.steps[name].request, Intended(plan.items, value, name).value, out);
      applied := AppliedMore(ledger, t.0, issued, applied, value.steps[name].request);
      ledger := t.0;
      if t.1.Success? {
        ok, reply := *, t.1.value;
      }
    }

    /** A step with its identity and input on disk; one that was answered before is left alone. */
    method GiveInput(value: Journal, name: StepName, fields: Action) returns (ok: bool, next: Journal)
      requires Valid() && Keeps(value) && !name.SubmitMerges? && Fits(plan, value, name, fields)
      modifies this`disk, this`issued
      ensures Valid() && Keeps(next) && next == value.(steps := next.steps) && Extends(value, next)
      ensures ok ==>
        disk == next && name in next.steps && (next.steps[name].result.Some? || next.steps[name].action.Some?)
      ensures SubmitMerges in next.steps ==> SubmitMerges in value.steps
    {
      hide Kept, Reached, AppliedOnce, DistinctItems, Fits, AskedFor, Intended;
      ok, next := Begin(value, name);
      if !ok || next.steps[name].result.Some? {
        return;
      }
      if next.steps[name].action.None? {
        FitsOn(plan, value, next, name, fields);
        KeptInput(plan, next, ledger, issued, name, fields);
        next := next.(steps := next.steps[name := next.steps[name].(action := Some(fields))]);
      }
      ok := Save(next);
    }

    /** #mutation: the identity, then the input, then the request, then its reply. */
    method Mutation(value: Journal, name: StepName, fields: Action) returns (ok: bool, next: Journal, reply: Reply)
      requires Valid() && Keeps(value) && !name.SubmitMerges? && Fits(plan, value, name, fields)
      modifies this
      ensures Valid() && Keeps(next) && next == value.(steps := next.steps) && Extends(value, next)
      ensures ok ==>
        && disk == next && name in next.steps && next.steps[name].result == Some(Replied(reply))
        && next.steps[name].action.Some?
      ensures SubmitMerges in next.steps ==> SubmitMerges in value.steps
    {
      hide Kept, Reached, AppliedOnce, DistinctItems, Fits, AskedFor, Intended;
      reply := BatchReply([]);
      ok, next := GiveInput(value, name, fields);
      if !ok {
        return;
      }
      if next.steps[name].result.Some? {
        if next.steps[name].result.value.Prepared? {
          ok := false;
        } else {
          reply := next.steps[name].result.value.reply;
          ReplyWasAsked(plan, next, ledger, issued, name);
        }
        return;
      }
      SavedIsIntended(plan.items, next, name);
      ok, reply := Ask(next, name);
      if !ok {
        return;
      }
      AskedForIntended(plan.items, next, name);
      ghost var given := next;
      ok, next := SaveReply(next, name, reply);
      ExtendsOn(value, given, next);
    }

    method SaveReply(value: Journal, name: StepName, reply: Reply) returns (ok: bool, next: Journal)
      requires Valid() && Keeps(value) && name in value.steps && value.steps[name].request in ledger.receipts
      requires ledger.receipts[value.steps[name].request].owner == plan.owner
      requires ledger.receipts[value.steps[name].request].reply == reply
      requires AskedFor(plan.items, name, value.steps[name], ledger.receipts[value.steps[name].request].action)
      requires value.steps[name].result.None?
      modifies this`disk
      ensures Valid() && Keeps(next) && (ok ==> disk == next) && Extends(value, next)
      ensures next == value.(steps := value.steps[name := value.steps[name].(result := Some(Replied(reply)))])
    {
      hide Kept, Reached, AppliedOnce, DistinctItems, Fits, AskedFor, Intended;
      KeptResult(plan, value, ledger, issued, name, Replied(reply));
      next := value.(steps := value.steps[name := value.steps[name].(result := Some(Replied(reply)))]);
      ok := Save(next);
    }

    /** A step outside the ledger: the prepared snapshot is kept once it was saved. */
    method PrepareStep(value: Journal, name: StepName) returns (ok: bool, next: Journal, snapshot: Snapshot)
      requires Valid() && Keeps(value) && !name.SubmitMerges?
      modifies this
      ensures Valid() && Keeps(next) && next == value.(steps := next.steps) && Extends(value, next)
      ensures ok ==> disk == next && name in next.steps && next.steps[name].result == Some(Prepared(snapshot))
      ensures SubmitMerges in next.steps ==> SubmitMerges in value.steps
    {
      hide Kept, Reached, AppliedOnce, DistinctItems, Fits, AskedFor, Intended;
      snapshot := *;
      ok, next := Begin(value, name);
      if !ok {
        return;
      }
      if next.steps[name].result.Some? {
        if next.steps[name].result.value.Replied? {
          ok := false;
        } else {
          snapshot := next.steps[name].result.value.snapshot;
        }
        return;
      }
      Others(next);
      var prepared: bool := *;
      if !prepared {
        ok := false;
        return;
      }
      KeptResult(plan, next, ledger, issued, name, Prepared(snapshot));
      next := next.(steps := next.steps[name := next.steps[name].(result := Some(Prepared(snapshot)))]);
      ok := Save(next);
    }

    /** The batch: its input is not saved, so it has to come out the same on every attempt. */
    method SubmitBatchStep(value: Journal) returns (ok: bool, next: Journal, reply: Reply)
      requires Valid() && Keeps(value) && value.phase.Submitting?
      modifies this
      ensures Valid() && Keeps(next) && next == value.(steps := next.steps) && Extends(value, next)
      ensures ok ==>
        disk == next && SubmitMerges in next.steps && next.steps[SubmitMerges].result == Some(Replied(reply))
    {
      hide Kept, Reached, AppliedOnce, DistinctItems, Fits, AskedFor, Intended;
      reply := BatchReply([]);
      ok, next := Begin(value, SubmitMerges);
      if !ok {
        return;
      }
      if next.steps[SubmitMerges].result.Some? {
        if next.steps[SubmitMerges].result.value.Prepared? {
          ok := false;
        } else {
          reply := next.steps[SubmitMerges].result.value.reply;
        }
        return;
      }
      if Intended(plan.items, next, SubmitMerges).None? {
        ok := false;
        return;
      }
      ok, reply := Ask(next, SubmitMerges);
      if !ok {
        return;
      }
      AskedForIntended(plan.items, next, SubmitMerges);
      ok, next := SaveReply(next, SubmitMerges, reply);
    }

    // -------------------------------------------------------------- the phases

    /** Prepare and approve one merge. */
    method PrepareOne(value: Journal, k: nat) returns (ok: bool, next: Journal)
      requires Valid() && Keeps(value) && value.phase.Prepare? && k < |plan.items|
      modifies this
      ensures Valid() && Keeps(next) && next.phase.Prepare? && next.deployed == value.deployed
    {
      hide Kept, Reached, AppliedOnce, DistinctItems, Fits, AskedFor, Intended;
      var item := plan.items[k];
      var name := item.repository;
      ok, next := true, value;
      if OperationOf(next, name).snapshot.None? {
        var snapshot;
        ok, next, snapshot := PrepareStep(next, PrepareMerge(name));
        if !ok {
          return;
        }
        OperationIsPrepared(plan, next, ledger, issued, name);
        var operation := OperationOf(next, name).(snapshot := Some(snapshot));
        KeptOperation(plan, next, ledger, issued, name, operation);
        next := next.(operations := next.operations[name := operation]);
        ok := Save(next);
        if !ok {
          return;
        }
      }
      if OperationOf(next, name).approval.None? {
        var reply;
        var reviewed := OperationOf(next, name).snapshot.value.id;
        OperationIsPrepared(plan, next, ledger, issued, name);
        MergeApprovalFits(plan, next, k, reviewed);
        ok, next, reply := Mutation(next, ApproveMerge(name),
          Approve(false, {(name, item.target)}, {}, reviewed, None));
        if !ok || !reply.Reply? {
          ok := false;
          return;
        }
        OperationIsPrepared(plan, next, ledger, issued, name);
        var operation := OperationOf(next, name).(approval := Some(reply.id));
        KeptOperation(plan, next, ledger, issued, name, operation);
        next := next.(operations := next.operations[name := operation]);
        ok := Save(next);
      }
    }

    method PreparePhase(value: Journal) returns (ok: bool, next: Journal)
      requires Valid() && Keeps(value) && value.phase.Prepare?
      modifies this
      ensures Valid() && Keeps(next) && (ok ==> Advances(plan, value, next, ledger))
    {
      hide Kept, Reached, AppliedOnce, DistinctItems, Fits, AskedFor, Intended;
      ok, next := true, value;
      for k := 0 to |plan.items|
        invariant Valid() && Keeps(next) && next.phase.Prepare? && next.deployed == value.deployed
      {
        ok, next := PrepareOne(next, k);
        if !ok {
          return;
        }
      }
      KeptPrepared(plan, next, ledger, issued);
      next := next.(phase := if plan.mode.DeployFirst? && !next.deployed then Deploy else Submitting);
    }

    method SubmitPhase(value: Journal) returns (ok: bool, next: Journal)
      requires Valid() && Keeps(value) && value.phase.Submitting?
      modifies this
      ensures Valid() && Keeps(next) && (ok ==> Advances(plan, value, next, ledger))
    {
      hide Kept, Reached, AppliedOnce, Fits, AskedFor, Intended;
      var reply;
      ok, next, reply := SubmitBatchStep(value);
      if !ok {
        return;
      }
      if !reply.BatchReply? || |reply.ids| != |plan.items| {
        ok := false;
        return;
      }
      var submitted := next;
      for k := 0 to |plan.items|
        invariant Valid() && Keeps(next) && next.steps == submitted.steps && next.phase.Submitting?
        invariant forall i :: 0 <= i < k ==>
          && MergeOf(plan.items[i].repository) in next.jobs
          && next.jobs[MergeOf(plan.items[i].repository)] == reply.ids[i]
      {
        KeptMergeJob(plan, next, ledger, issued, plan.items[k].repository, reply.ids[k]);
        next := next.(jobs := next.jobs[MergeOf(plan.items[k].repository) := reply.ids[k]]);
      }
      KeptSubmitted(plan, next, ledger, issued);
      next := next.(phase := Merging);
    }

    /** #settled for the merges: recover a pending refresh first, then look at the jobs. */
    method MergingPhase(value: Journal) returns (ok: bool, next: Journal, ghost seen: State)
      requires Valid() && Keeps(value) && value.phase.Merging?
      modifies this
      ensures Valid() && Keeps(next) && (ok ==> Advances(plan, value, next, seen))
      ensures ok && value.pending.None? && Refreshable(plan, value, seen) ==>
        exists p: Pending :: p.job in seen.jobs && p.revision == seen.jobs[p.job].revision && RefreshSaved(next, p)
    {
      hide Kept, Reached, AppliedOnce, DistinctItems, Fits, AskedFor, Intended;
      next := value;
      Others(next);
      seen := ledger;
      if next.pending.Some? {
        ok, next := ResumeRefresh(next);
        return;
      }
      var names := MergeNames(plan.items);
      var view := Look(next, ledger, names);
      ok := view.Open? || view.AllLanded?;
      assert forall k :: 0 <= k < |plan.items| ==> names[k] == MergeOf(plan.items[k].repository);
      if view.Stale? {
        var name := plan.items[view.at].repository;
        var job := next.jobs[MergeOf(name)];
        var pending := Some(Pending.Pending(name, job, ledger.jobs[job].revision, None));
        KeptPending(plan, next, ledger, issued, pending);
        next := next.(pending := pending);
        ok := Save(next);
        if !ok {
          return;
        }
        ok, next := ResumeRefresh(next);
        return;
      }
      if view.AllLanded? {
        KeptMerged(plan, next, ledger, issued);
        next := next.(phase := if plan.mode.IntegrateFirst? then Deploy else Completing);
      }
    }

    /** #resume_refresh: prepare, approve and refresh one stale merge under the revision it was found at. */
    method ResumeRefresh(value: Journal) returns (ok: bool, next: Journal)
      requires Valid() && Keeps(value) && value.phase.Merging? && value.pending.Some?
      modifies this
      ensures Valid() && Keeps(next)
      ensures ok ==> next.phase.Merging? && next.pending.None? && RefreshSaved(next, value.pending.value)
    {
      hide Kept, Reached, AppliedOnce, DistinctItems, Fits, AskedFor, Intended;
      var snapshot, approval, reply;
      ok, next, snapshot := RefreshSnapshot(value);
      if !ok {
        return;
      }
      var p := value.pending.value;
      ok, next, approval := RefreshApproval(next, p, snapshot);
      if !ok {
        return;
      }
      PendingIsOurs(plan, next, ledger, issued);
      RefreshFits(plan, next, p, snapshot, approval);
      ok, next, reply := Mutation(next, RefreshMerge(p.repository, p.revision),
        Refresh(p.job, p.revision, snapshot, approval));
      if !ok {
        return;
      }
      KeptOperation(plan, next, ledger, issued, p.repository, Operation(Some(snapshot), Some(approval)));
      next := next.(operations := next.operations[p.repository := Operation(Some(snapshot), Some(approval))]);
      KeptPending(plan, next, ledger, issued, None);
      next := next.(pending := None);
      ok := Save(next);
    }

    method RefreshApproval(value: Journal, p: Pending, snapshot: Snapshot)
      returns (ok: bool, next: Journal, approval: Id)
      requires Valid() && Keeps(value) && value.phase.Merging?
      requires value.pending == Some(p.(snapshot := Some(snapshot)))
      requires PreparedAs(value, PrepareRefresh(p.repository, p.revision), snapshot)
      modifies this
      ensures Valid() && Keeps(next) && next == value.(steps := next.steps)
      ensures ok ==>
        && PreparedAs(next, PrepareRefresh(p.repository, p.revision), snapshot)
        && Answered(next, ApproveRefresh(p.repository, p.revision), approval)
    {
      hide Kept, Reached, AppliedOnce, DistinctItems, Fits, AskedFor, Intended;
      approval := 0;
      var reply;
      RefreshApprovalFits(plan, value, p, snapshot);
      ok, next, reply := Mutation(value, ApproveRefresh(p.repository, p.revision),
        Approve(false, Targets(plan.items, p.repository), {}, snapshot.id, None));
      if !ok || !reply.Reply? {
        ok := false;
        return;
      }
      PreparedOn(value, next, PrepareRefresh(p.repository, p.revision), snapshot);
      approval := reply.id;
    }

    /** The first half: prepare the refresh, once. */
    method RefreshSnapshot(value: Journal) returns (ok: bool, next: Journal, snapshot: Snapshot)
      requires Valid() && Keeps(value) && value.phase.Merging? && value.pending.Some?
      modifies this
      ensures Valid() && Keeps(next)
      ensures ok ==>
        && next.phase.Merging? && next.pending == Some(value.pending.value.(snapshot := Some(snapshot)))
        && PreparedAs(next, PrepareRefresh(value.pending.value.repository, value.pending.value.revision), snapshot)
    {
      hide Kept, Reached, AppliedOnce, DistinctItems, Fits, AskedFor, Intended;
      var p := value.pending.value;
      ok, next := true, value;
      PendingIsOurs(plan, next, ledger, issued);
      if p.snapshot.Some? {
        snapshot := p.snapshot.value;
        return;
      }
      ok, next, snapshot := PrepareStep(next, PrepareRefresh(p.repository, p.revision));
      if !ok {
        return;
      }
      KeptPending(plan, next, ledger, issued, Some(p.(snapshot := Some(snapshot))));
      next := next.(pending := Some(p.(snapshot := Some(snapshot))));
      ok := Save(next);
    }

    /** Prepare and approve the machine and the profile, reserve the machine once, and submit both activations. */
    method DeployPhase(value: Journal) returns (ok: bool, next: Journal)
      requires Valid() && Keeps(value) && value.phase.Deploy?
      modifies this
      ensures Valid() && Keeps(next) && (ok ==> Advances(plan, value, next, ledger))
    {
      hide Kept, Reached, AppliedOnce, DistinctItems, Fits, AskedFor, Intended;
      var system, profile, first, second, reservation;
      ok, next, system := PrepareStep(value, PrepareDeploy(false));
      if !ok {
        return;
      }
      var prepared := next;
      ok, next, profile := PrepareStep(next, PrepareDeploy(true));
      if !ok {
        return;
      }
      PreparedOn(prepared, next, PrepareDeploy(false), system);
      ok, next, first := ApproveActivation(next, false, system);
      if !ok {
        return;
      }
      ok, next, second := ApproveActivation(next, true, profile);
      if !ok {
        return;
      }
      ok, next, reservation := ReserveOnce(next, first);
      if !ok {
        return;
      }
      ok, next := SubmitActivations(next, reservation, system, profile, first, second);
    }

    method ApproveActivation(value: Journal, profile: bool, snapshot: Snapshot)
      returns (ok: bool, next: Journal, approval: Id)
      requires Valid() && Keeps(value) && value.phase.Deploy? && PreparedAs(value, PrepareDeploy(profile), snapshot)
      modifies this
      ensures Valid() && Keeps(next) && next == value.(steps := next.steps) && Extends(value, next)
      ensures ok ==> Answered(next, ApproveDeploy(profile), approval)
    {
      hide Kept, Reached, AppliedOnce, DistinctItems, Fits, AskedFor, Intended;
      approval := 0;
      var reply;
      DeployApprovalFits(plan, value, profile, snapshot);
      ok, next, reply := Mutation(value, ApproveDeploy(profile), Approve(true, {}, Scope(plan.machine), snapshot.id,
        None));
      if !ok || !reply.Reply? {
        ok := false;
        return;
      }
      approval := reply.id;
    }

    /** The reservation given with the request, or the one this run asks for. */
    method ReserveOnce(value: Journal, approval: Id) returns (ok: bool, next: Journal, reservation: Id)
      requires Valid() && Keeps(value) && value.phase.Deploy? && Answered(value, ApproveDeploy(false), approval)
      modifies this
      ensures Valid() && Keeps(next) && next.phase.Deploy? && (ok ==> next.reservation == Some(reservation))
      ensures Extends(value, next)
    {
      hide Kept, Reached, AppliedOnce, DistinctItems, Fits, AskedFor, Intended;
      ok, next, reservation := true, value, 0;
      if plan.given.Some? {
        reservation := plan.given.value;
      } else {
        var reply;
        ReserveFits(plan, value, approval);
        ok, next, reply := Mutation(value, StepName.ReserveMachine, Reserve(plan.machine, approval));
        if !ok || !reply.Reply? {
          ok := false;
          return;
        }
        reservation := reply.id;
      }
      KeptReservation(plan, next, ledger, issued, reservation);
      next := next.(reservation := Some(reservation));
    }

    /** The machine first, the profile after it. */
    method SubmitActivations(value: Journal, reservation: Id, system: Snapshot, profile: Snapshot, first: Id,
        second: Id)
      returns (ok: bool, next: Journal)
      requires Valid() && Keeps(value) && value.phase.Deploy? && value.reservation == Some(reservation)
      requires PreparedAs(value, PrepareDeploy(false), system) && Answered(value, ApproveDeploy(false), first)
      requires PreparedAs(value, PrepareDeploy(true), profile) && Answered(value, ApproveDeploy(true), second)
      modifies this
      ensures Valid() && Keeps(next) && (ok ==> next.phase.Deploying?)
    {
      hide Kept, Reached, AppliedOnce, DistinctItems, Fits, AskedFor, Intended;
      ok, next := SubmitActivation(value, false,
        Draft("system", MachineActivate, [], first, Some(reservation), system));
      if !ok {
        return;
      }
      PreparedOn(value, next, PrepareDeploy(true), profile);
      ok, next := SubmitActivation(next, true,
        Draft("profile", ProfileActivate, [Known(next.jobs[SystemJob])], second, Some(reservation), profile));
      if !ok {
        return;
      }
      KeptSubmittedDeploy(plan, next, ledger, issued);
      next := next.(phase := Deploying);
    }

    method SubmitActivation(value: Journal, profile: bool, draft: Draft) returns (ok: bool, next: Journal)
      requires Valid() && Keeps(value) && value.phase.Deploy? && value.reservation.Some?
      requires draft.reservation == value.reservation
      requires draft.kind == if profile then ProfileActivate else MachineActivate
      requires PreparedAs(value, PrepareDeploy(profile), draft.snapshot)
      requires Answered(value, ApproveDeploy(profile), draft.approval)
      requires if profile then SystemJob in value.jobs && draft.dependsOn == [Known(value.jobs[SystemJob])]
        else draft.dependsOn == []
      modifies this
      ensures Valid() && Keeps(next) && Extends(value, next)
      ensures ok ==> next.phase.Deploy? && next.reservation == value.reservation
      ensures ok && !profile ==> SystemJob in next.jobs
    {
      hide Kept, Reached, AppliedOnce, DistinctItems, Fits, AskedFor, Intended, PreparedAs, Extends;
      ActivationFits(plan, value, profile, draft);
      var reply;
      ok, next, reply := Mutation(value, SubmitDeploy(profile), Submit(draft));
      if !ok || !reply.Reply? {
        ok := false;
        return;
      }
      KeptDeployJob(plan, next, ledger, issued, profile, reply.id);
      SameSteps(value, next, next.(jobs := next.jobs[if profile then ProfileJob else SystemJob := reply.id]));
      next := next.(jobs := next.jobs[if profile then ProfileJob else SystemJob := reply.id]);
    }

    /** After the deployment: a run that deploys first drops its merge preparations and makes new ones. */
    method DeployingPhase(value: Journal) returns (ok: bool, next: Journal, ghost seen: State)
      requires Valid() && Keeps(value) && value.phase.Deploying?
      modifies this
      ensures Valid() && Keeps(next) && (ok ==> Advances(plan, value, next, seen))
    {
      hide Kept, Reached, AppliedOnce, DistinctItems, Fits, AskedFor, Intended;
      next := value;
      Others(next);
      seen := ledger;
      var names := [SystemJob, ProfileJob];
      var view := Look(next, ledger, names);
      ok := view.Open? || view.AllLanded?;
      assert names[0] == SystemJob && names[1] == ProfileJob;
      if view.AllLanded? {
        next := AfterDeployment(next);
        ok := Save(next);
      }
    }

    method AfterDeployment(value: Journal) returns (next: Journal)
      requires Valid() && Keeps(value) && value.phase.Deploying?
      requires Landed(value, ledger, SystemJob) && Landed(value, ledger, ProfileJob)
      ensures Valid() && Keeps(next)
      ensures next.deployed && next.phase == (if plan.mode == DeployFirst then Prepare else Completing)
      ensures plan.mode == DeployFirst ==> PreparedAnew(value, next)
    {
      hide Sane, JournalSound, Reached, AppliedOnce, DistinctItems, Landed;
      if plan.mode.DeployFirst? {
        next := value.(deployed := true, phase := Prepare, operations := map[],
                       steps := map n | n in value.steps && !n.PrepareMerge? && !n.ApproveMerge? :: value.steps[n]);
        FewerSteps(plan.items, plan.mode, plan.owner, value, next, ledger, issued);
      } else {
        next := value.(deployed := true, phase := Completing);
        OtherFields(plan.items, plan.mode, plan.owner, value, next, ledger, issued);
      }
      SaneDeployed(plan, value, next, ledger);
    }

    /** #complete: release the reservation under the revision first read for it. */
    method CompletePhase(value: Journal, final: set<Integrated>) returns (ok: bool, next: Journal)
      requires Valid() && Keeps(value) && value.phase.Completing?
      modifies this
      ensures Valid() && Keeps(next) && (ok ==> Advances(plan, value, next, ledger))
    {
      hide Kept, Reached, AppliedOnce, DistinctItems, Fits, AskedFor, Intended;
      ok, next := true, value;
      if plan.completes {
        Others(next);
        var reply;
        if value.reservation.None? || value.reservation.value !in ledger.reservations {
          ok := false;
          return;
        }
        var r := value.reservation.value;
        FinishFits(plan, next, r, ledger.reservations[r].revision, final);
        ok, next, reply := Mutation(next, FinishRun, Finish(r, ledger.reservations[r].revision, final));
        if !ok {
          return;
        }
      }
      KeptDone(plan, next, ledger, issued);
      next := next.(phase := Done);
    }

    /** One turn of #resume: load the journal, advance one phase, save, whether or not the phase failed. */
    method Resume(final: set<Integrated>) returns (ok: bool, ghost seen: State)
      requires Valid()
      modifies this
      ensures Valid() && (ok ==> Advances(plan, old(disk), disk, seen))
    {
      hide Kept, Reached, AppliedOnce, DistinctItems, Advances;
      var value := disk;
      seen := ledger;
      match value.phase {
        case Prepare => ok, value := PreparePhase(value); seen := ledger;
        case Submitting => ok, value := SubmitPhase(value); seen := ledger;
        case Merging => ok, value, seen := MergingPhase(value);
        case Deploy => ok, value := DeployPhase(value); seen := ledger;
        case Deploying => ok, value, seen := DeployingPhase(value);
        case Completing => ok, value := CompletePhase(value, final); seen := ledger;
        case Done =>
          ok := true;
          DoneStays(plan, value, seen);
          return;
      }
      var survived: bool := *;
      if survived {
        var saved := Save(value);
        ok := ok && saved;
      } else {
        ok := false;
      }
    }

    /** Stop anywhere and resume, any number of times. */
    method Drive(turns: nat, final: set<Integrated>)
      requires Valid()
      modifies this
      ensures Valid() && forall i, k :: 0 <= i < k < |applied| ==> applied[i] != applied[k]
      ensures forall name ::
        name in disk.steps && disk.steps[name].result.Some? && disk.steps[name].result.value.Replied? ==>
          TookEffectOnce(ledger, applied, disk.steps[name])
      ensures forall name, out :: name in disk.steps && disk.steps[name].result.None? ==>
        Replays(plan.items, plan.owner, disk, ledger, name, out)
      ensures Promises(plan, disk, ledger)
      ensures forall name :: Asked(disk, name) ==> Fits(plan, disk, name, disk.steps[name].action.value)
    {
      for n := 0 to turns
        invariant Valid()
      {
        var ok, seen := Resume(final);
      }
      AskedFits(plan, disk, ledger);
      hide Sane, Good, Reached, Promises, Fits;
      KeptPromises(norm, plan, disk, ledger, issued);
      forall name | name in disk.steps && disk.steps[name].result.Some? && disk.steps[name].result.value.Replied?
        ensures TookEffectOnce(ledger, applied, disk.steps[name])
      {
        EachStepOnce(plan.items, plan.mode, plan.owner, disk, ledger, issued, applied, name);
      }
      forall name, out | name in disk.steps && disk.steps[name].result.None?
        ensures Replays(plan.items, plan.owner, disk, ledger, name, out)
      {
        ResumedIsAnswered(plan.items, plan.mode, plan.owner, disk, ledger, issued, name, out);
      }
    }
  }

  lemma AskedFits(plan: Plan, value: Journal, ledger: State)
    requires Sane(plan, value, ledger)
    ensures forall name :: Asked(value, name) ==> Fits(plan, value, name, value.steps[name].action.value)
  {
    hide JobsNamed, Landings, Fits;
  }
}
