/**
 What the journal of an integration run means on the ledger: which jobs its phases
 have behind them, what each saved step asks, and what a run that is done has done.
 */
module IntegrationMeaning {
  import opened Wrappers
  import opened MachinePolicy
  import opened Ledger
  import opened LedgerRuns
  import opened LedgerLaws
  import opened LedgerReceipts
  import opened IntegrationJournal

  /** The request of a run: items, machine, a reservation given with it, whether it ends in a release. */
  datatype Plan = Plan(items: seq<Item>, mode: Mode, owner: Id, machine: string, given: Option<Id>, completes: bool)

  /** The batch has been submitted in this pass over the phases. */
  predicate PastBatch(mode: Mode, value: Journal) {
    value.phase in {Merging, Completing, Done} || (mode == IntegrateFirst && value.phase in {Deploy, Deploying})
  }

  /** The merges are behind the run. */
  predicate AfterMerges(mode: Mode, value: Journal) {
    value.phase in {Completing, Done} || (mode == IntegrateFirst && value.phase in {Deploy, Deploying})
  }

  /** The saved reply of the step names the identity. */
  predicate Answered(value: Journal, name: StepName, id: Id) {
    && name in value.steps && value.steps[name].result.Some? && value.steps[name].result.value.Replied?
    && value.steps[name].result.value.reply.Reply? && value.steps[name].result.value.reply.id == id
  }

  /** The step prepared this snapshot. */
  predicate PreparedAs(value: Journal, name: StepName, snapshot: Snapshot) {
    name in value.steps && value.steps[name].result == Some(Prepared(snapshot))
  }

  /** The step prepared the snapshot of this identity. */
  predicate PreparedId(value: Journal, name: StepName, id: Id) {
    name in value.steps && value.steps[name].result.Some? && value.steps[name].result.value.Prepared? &&
    value.steps[name].result.value.snapshot.id == id
  }

  /** Until the batch is out, its merges are what was prepared and approved for them. */
  ghost predicate OperationsNamed(plan: Plan, value: Journal) {
    !PastBatch(plan.mode, value) ==>
      forall r :: r in value.operations ==> OperationFits(value, r, value.operations[r])
  }

  predicate OperationFits(value: Journal, repository: string, operation: Operation) {
    && (operation.snapshot.Some? ==> PreparedAs(value, PrepareMerge(repository), operation.snapshot.value))
    && (operation.approval.Some? ==> Answered(value, ApproveMerge(repository), operation.approval.value))
  }

  /** The merges the journal knows are those of the saved reply of the batch, item by item. */
  ghost predicate BatchNamed(items: seq<Item>, value: Journal) {
    && SubmitMerges in value.steps && value.steps[SubmitMerges].result.Some?
    && value.steps[SubmitMerges].result.value.Replied? && value.steps[SubmitMerges].result.value.reply.BatchReply?
    && var ids := value.steps[SubmitMerges].result.value.reply.ids;
    && |ids| == |items|
    && forall k :: 0 <= k < |items| ==>
         MergeOf(items[k].repository) in value.jobs && value.jobs[MergeOf(items[k].repository)] == ids[k]
  }

  ghost predicate JobsNamed(plan: Plan, value: Journal) {
    && (PastBatch(plan.mode, value) ==> BatchNamed(plan.items, value))
    && (SystemJob in value.jobs ==> Answered(value, SubmitDeploy(false), value.jobs[SystemJob]))
    && (ProfileJob in value.jobs ==> Answered(value, SubmitDeploy(true), value.jobs[ProfileJob]))
    && (value.reservation.Some? ==>
          if plan.given.Some? then value.reservation == plan.given
          else Answered(value, StepName.ReserveMachine, value.reservation.value))
    && (value.pending.Some? ==> value.phase == Merging && PendingFits(value, value.pending.value))
  }

  /** A refresh under way is of a merge of this run, for the snapshot it prepared. */
  predicate PendingFits(value: Journal, p: Pending) {
    && MergeOf(p.repository) in value.jobs && value.jobs[MergeOf(p.repository)] == p.job
    && (p.snapshot.Some? ==> PreparedAs(value, PrepareRefresh(p.repository, p.revision), p.snapshot.value))
  }

  function Scope(machine: string): set<MachineScope> {
    {MachineScope(machine, false, {MachineActivate, ProfileActivate})}
  }

  /**
   What a step may ask: an approval of exactly its own branch or machine for the snapshot it prepared, a job of that
   snapshot under that approval, its own job under its revision, the release.
   */
  predicate Fits(plan: Plan, value: Journal, name: StepName, action: Action) {
    match name
    case ApproveMerge(repository) =>
      && action.Approve? && !action.deploy && action.merges == Targets(plan.items, repository) && action.machines == {}
      && PreparedId(value, PrepareMerge(repository), action.reviewed)
    case ApproveRefresh(repository, revision) =>
      && action.Approve? && !action.deploy && action.merges == Targets(plan.items, repository) && action.machines == {}
      && PreparedId(value, PrepareRefresh(repository, revision), action.reviewed)
    case RefreshMerge(repository, revision) =>
      && action.Refresh? && action.expected == revision && PastBatch(plan.mode, value)
      && MergeOf(repository) in value.jobs && action.job == value.jobs[MergeOf(repository)]
      && PreparedAs(value, PrepareRefresh(repository, revision), action.snapshot)
      && Answered(value, ApproveRefresh(repository, revision), action.approval)
    case ApproveDeploy(profile) =>
      && action.Approve? && action.deploy && action.merges == {} && action.machines == Scope(plan.machine)
      && PreparedId(value, PrepareDeploy(profile), action.reviewed)
    case ReserveMachine =>
      action.Reserve? && action.machine == plan.machine && Answered(value, ApproveDeploy(false), action.approval)
    case SubmitDeploy(profile) =>
      && action.Submit? && action.draft.kind == (if profile then ProfileActivate else MachineActivate)
      && value.reservation.Some? && action.draft.reservation == value.reservation
      && PreparedAs(value, PrepareDeploy(profile), action.draft.snapshot)
      && Answered(value, ApproveDeploy(profile), action.draft.approval)
      && (value.deployed || value.phase in {Deploy, Deploying})
      && (if profile then SystemJob in value.jobs && action.draft.dependsOn == [Known(value.jobs[SystemJob])]
          else action.draft.dependsOn == [])
    case FinishRun =>
      && action.Finish? && value.reservation == Some(action.reservation) && value.phase in {Completing, Done}
    case _ => false
  }

  ghost predicate StepsFit(plan: Plan, value: Journal) {
    forall n :: n in value.steps && value.steps[n].action.Some? ==> Fits(plan, value, n, value.steps[n].action.value)
  }

  /** The job of the journal has succeeded in the ledger. */
  predicate Landed(value: Journal, ledger: State, name: JobName) {
    && name in value.jobs && value.jobs[name] in ledger.jobs
    && ledger.jobs[value.jobs[name]].state == Succeeded
  }

  ghost predicate Landings(plan: Plan, value: Journal, ledger: State) {
    && (AfterMerges(plan.mode, value) ==>
          forall k :: 0 <= k < |plan.items| ==> Landed(value, ledger, MergeOf(plan.items[k].repository)))
    && (value.deployed ==> Landed(value, ledger, SystemJob) && Landed(value, ledger, ProfileJob))
  }

  predicate PhasesFit(plan: Plan, value: Journal) {
    && (value.phase in {Deploy, Deploying} ==> plan.mode != MergeOnly)
    && (value.phase in {Completing, Done} && plan.mode != MergeOnly ==> value.deployed)
    && (value.phase in {Submitting, Merging} && plan.mode == DeployFirst ==> value.deployed)
    && (value.deployed && plan.mode == IntegrateFirst ==> value.phase in {Completing, Done})
    && (value.deployed ==> plan.mode != MergeOnly)
    && (value.phase == Done && plan.completes ==>
          && FinishRun in value.steps && value.steps[FinishRun].action.Some? && value.steps[FinishRun].result.Some?
          && value.steps[FinishRun].result.value.Replied?)
  }

  /** The journal means what its phase says. */
  ghost predicate Sane(plan: Plan, value: Journal, ledger: State) {
    && JobsNamed(plan, value) && OperationsNamed(plan, value) && StepsFit(plan, value)
    && Landings(plan, value, ledger) && PhasesFit(plan, value)
  }

  lemma NewIsSane(plan: Plan, ledger: State)
    ensures Sane(plan, Journal(Prepare, false, map[], map[], map[], None, None), ledger)
  {
  }

  // ---------------------------------------------------------------- the ledger moves on

  /** What succeeded stays so. */
  ghost predicate Later(a: State, b: State) {
    forall j :: j in a.jobs && a.jobs[j].state == Succeeded ==> j in b.jobs && b.jobs[j].state == Succeeded
  }

  lemma ContinuesLater(a: State, b: State, touched: set<Id>)
    requires JobsContinue(a.jobs, b.jobs, touched)
    ensures Later(a, b)
  {
    forall j | j in a.jobs && a.jobs[j].state == Succeeded ensures j in b.jobs && b.jobs[j].state == Succeeded {
      assert Continues(a.jobs[j], b.jobs[j]);
    }
  }

  lemma SaneLater(plan: Plan, value: Journal, a: State, b: State)
    requires Sane(plan, value, a) && Later(a, b)
    ensures Sane(plan, value, b)
  {
  }

  lemma RunsLater(norm: Norm, s: State, ops: seq<Op>)
    ensures Later(s, Run(norm, s, ops))
  {
    RunContinues(norm, s, ops);
    hide Run;
    ContinuesLater(s, Run(norm, s, ops), TouchedIn(ops));
  }

  lemma AskedLater(s: State, owner: Id, request: Id, action: Action, out: Outside)
    ensures Later(s, Perform(s, owner, request, action, out).0)
  {
    PerformContinues(s, owner, request, action, out);
    hide Perform;
    ContinuesLater(s, Perform(s, owner, request, action, out).0, Touched(action, out));
  }

  /** A request is a transaction of the ledger. */
  lemma AskedReached(norm: Norm, s: State, owner: Id, request: Id, action: Action, out: Outside)
    requires Reached(norm, s)
    ensures Reached(norm, Perform(s, owner, request, action, out).0)
  {
    var op := Op.Request(owner, request, action, out);
    NextRequest(norm, s, op);
    ReachedOn(norm, s, [op]);
    OneStep(norm, s, op);
    hide Perform, Run, Next;
  }

  lemma OneStep(norm: Norm, s: State, op: Op)
    ensures Run(norm, s, [op]) == Next(norm, s, op)
  {
    hide Next;
    assert [op][1..] == [];
  }

  // ---------------------------------------------------------------- the journal moves on

  /** Steps are only added, and what a step has been given or answered stays. */
  ghost predicate Extends(a: Journal, b: Journal) {
    forall n :: n in a.steps ==>
      && n in b.steps && b.steps[n].request == a.steps[n].request
      && (a.steps[n].action.Some? ==> b.steps[n].action == a.steps[n].action)
      && (a.steps[n].result.Some? ==> b.steps[n].result == a.steps[n].result)
  }

  lemma ExtendsOn(a: Journal, b: Journal, c: Journal)
    requires Extends(a, b) && Extends(b, c)
    ensures Extends(a, c)
  {
  }

  lemma BatchNamedOn(items: seq<Item>, a: Journal, b: Journal)
    requires Extends(a, b) && b.jobs == a.jobs && BatchNamed(items, a)
    ensures BatchNamed(items, b)
  {
  }

  /** More steps, each asking what fits. */
  lemma SaneSteps(plan: Plan, value: Journal, next: Journal, ledger: State)
    requires Sane(plan, value, ledger) && Extends(value, next) && next == value.(steps := next.steps)
    requires forall n :: n in next.steps && next.steps[n].action.Some? &&
                         (n !in value.steps || value.steps[n].action.None?) ==>
      Fits(plan, next, n, next.steps[n].action.value)
    ensures Sane(plan, next, ledger)
  {
    if PastBatch(plan.mode, value) {
      BatchNamedOn(plan.items, value, next);
    }
    assert PastBatch(plan.mode, next) == PastBatch(plan.mode, value);
    hide BatchNamed, Landed, PastBatch;
  }

  lemma SaneOperation(plan: Plan, value: Journal, repository: string, operation: Operation, ledger: State)
    requires Sane(plan, value, ledger)
    requires PastBatch(plan.mode, value) || OperationFits(value, repository, operation)
    ensures Sane(plan, value.(operations := value.operations[repository := operation]), ledger)
  {
    var next := value.(operations := value.operations[repository := operation]);
    assert forall r, o :: OperationFits(next, r, o) == OperationFits(value, r, o);
    forall n | n in next.steps && next.steps[n].action.Some? ensures Fits(plan, next, n, next.steps[n].action.value) {
      assert Fits(plan, value, n, value.steps[n].action.value);
    }
    hide OperationFits, Fits;
    assert BatchNamed(plan.items, next) == BatchNamed(plan.items, value);
  }

  /** Preparation is over: the run deploys first, or submits its merges. */
  lemma SanePrepared(plan: Plan, value: Journal, ledger: State)
    requires Sane(plan, value, ledger) && value.phase == Prepare
    ensures Sane(plan, value.(phase := if plan.mode.DeployFirst? && !value.deployed then Deploy else Submitting),
      ledger)
  {
  }

  /** The batch is saved, and its jobs are the merges. */
  lemma SaneSubmitted(plan: Plan, value: Journal, ledger: State)
    requires Sane(plan, value, ledger) && value.phase == Submitting && BatchNamed(plan.items, value)
    ensures Sane(plan, value.(phase := Merging), ledger)
  {
    var next := value.(phase := Merging);
    assert BatchNamed(plan.items, next);
    hide BatchNamed;
  }

  lemma SaneMergeJob(plan: Plan, value: Journal, repository: string, job: Id, ledger: State)
    requires Sane(plan, value, ledger) && value.phase == Submitting
    ensures Sane(plan, value.(jobs := value.jobs[MergeOf(repository) := job]), ledger)
  {
  }

  lemma SaneMerged(plan: Plan, value: Journal, ledger: State)
    requires Sane(plan, value, ledger) && value.phase == Merging && value.pending.None?
    requires forall k :: 0 <= k < |plan.items| ==> Landed(value, ledger, MergeOf(plan.items[k].repository))
    ensures Sane(plan, value.(phase := if plan.mode.IntegrateFirst? then Deploy else Completing), ledger)
  {
    var next := value.(phase := if plan.mode.IntegrateFirst? then Deploy else Completing);
    assert BatchNamed(plan.items, value) && BatchNamed(plan.items, next);
    hide BatchNamed;
    assert forall name :: Landed(next, ledger, name) == Landed(value, ledger, name);
  }

  lemma SanePending(plan: Plan, value: Journal, pending: Option<Pending>, ledger: State)
    requires Sane(plan, value, ledger) && value.phase == Merging
    requires pending.Some? ==> PendingFits(value, pending.value)
    ensures Sane(plan, value.(pending := pending), ledger)
  {
    var next := value.(pending := pending);
    assert BatchNamed(plan.items, next) == BatchNamed(plan.items, value);
    hide BatchNamed;
  }

  lemma SaneReservation(plan: Plan, value: Journal, r: Id, ledger: State)
    requires Sane(plan, value, ledger)
    requires if plan.given.Some? then plan.given.value == r else Answered(value, StepName.ReserveMachine, r)
    ensures Sane(plan, value.(reservation := Some(r)), ledger)
  {
    var next := value.(reservation := Some(r));
    assert value.reservation.Some? ==> value.reservation == Some(r);
    assert BatchNamed(plan.items, next) == BatchNamed(plan.items, value);
    forall n | n in next.steps && next.steps[n].action.Some? ensures Fits(plan, next, n, next.steps[n].action.value) {
      assert Fits(plan, value, n, value.steps[n].action.value);
    }
    hide BatchNamed, Fits;
  }

  lemma SaneDeployJob(plan: Plan, value: Journal, profile: bool, job: Id, ledger: State)
    requires Sane(plan, value, ledger) && Answered(value, SubmitDeploy(profile), job)
    ensures Sane(plan, value.(jobs := value.jobs[if profile then ProfileJob else SystemJob := job]), ledger)
  {
    var name := if profile then ProfileJob else SystemJob;
    var next := value.(jobs := value.jobs[name := job]);
    assert name in value.jobs ==> value.jobs[name] == job;
    assert BatchNamed(plan.items, next) == BatchNamed(plan.items, value);
    forall n | n in next.steps && next.steps[n].action.Some? ensures Fits(plan, next, n, next.steps[n].action.value) {
      assert Fits(plan, value, n, value.steps[n].action.value);
    }
    hide BatchNamed, Fits;
  }

  lemma SaneSubmittedDeploy(plan: Plan, value: Journal, ledger: State)
    requires Sane(plan, value, ledger) && value.phase == Deploy
    ensures Sane(plan, value.(phase := Deploying), ledger)
  {
    var next := value.(phase := Deploying);
    assert BatchNamed(plan.items, next) == BatchNamed(plan.items, value);
    hide BatchNamed;
  }

  /** The deployment landed; a run that deploys first goes back to prepare its merges. */
  lemma SaneDeployed(plan: Plan, value: Journal, next: Journal, ledger: State)
    requires Sane(plan, value, ledger) && value.phase == Deploying
    requires Landed(value, ledger, SystemJob) && Landed(value, ledger, ProfileJob)
    requires next == value.(deployed := true, phase := next.phase, operations := next.operations, steps := next.steps)
    requires next.phase == if plan.mode.DeployFirst? then Prepare else Completing
    requires if plan.mode.DeployFirst? then next.operations == map[] && forall n :: n in next.steps ==> !n.ApproveMerge?
      else next.steps == value.steps && next.operations == value.operations
    requires forall n :: n in next.steps ==> n in value.steps && next.steps[n] == value.steps[n]
    requires forall n :: n in value.steps && !n.PrepareMerge? && !n.ApproveMerge? ==> n in next.steps
    ensures Sane(plan, next, ledger)
  {
    assert BatchNamed(plan.items, value) ==> BatchNamed(plan.items, next);
    forall n | n in next.steps && next.steps[n].action.Some? ensures Fits(plan, next, n, next.steps[n].action.value) {
      assert Fits(plan, value, n, value.steps[n].action.value);
      DeployedFits(plan, value, next, n, next.steps[n].action.value);
    }
    hide BatchNamed, Fits, OperationFits;
  }

  lemma DeployedFits(plan: Plan, value: Journal, next: Journal, name: StepName, action: Action)
    requires Fits(plan, value, name, action) && value.phase == Deploying
    requires next == value.(deployed := true, phase := next.phase, operations := next.operations, steps := next.steps)
    requires next.phase == if plan.mode.DeployFirst? then Prepare else Completing
    requires forall n :: n in value.steps && !n.PrepareMerge? && !n.ApproveMerge? ==>
      n in next.steps && next.steps[n] == value.steps[n]
    requires plan.mode.DeployFirst? ==> !name.ApproveMerge?
    requires !plan.mode.DeployFirst? ==> next.steps == value.steps
    ensures Fits(plan, next, name, action)
  {
  }

  lemma SaneDone(plan: Plan, value: Journal, ledger: State)
    requires Sane(plan, value, ledger) && value.phase == Completing
    requires plan.completes ==>
      && FinishRun in value.steps && value.steps[FinishRun].action.Some? && value.steps[FinishRun].result.Some?
      && value.steps[FinishRun].result.value.Replied?
    ensures Sane(plan, value.(phase := Done), ledger)
  {
    var next := value.(phase := Done);
    assert BatchNamed(plan.items, next) == BatchNamed(plan.items, value);
    hide BatchNamed;
  }

  // ---------------------------------------------------------------- both invariants together

  /** The steps of the journal are sound, and it means what its phase says. */
  ghost predicate Kept(plan: Plan, value: Journal, ledger: State, issued: set<Id>) {
    Good(plan.items, plan.mode, plan.owner, value, ledger, issued) && Sane(plan, value, ledger)
  }

  predicate DistinctItems(items: seq<Item>) {
    forall i, k :: 0 <= i < k < |items| ==> items[i].repository != items[k].repository
  }

  lemma KeptMore(plan: Plan, value: Journal, ledger: State, issued: set<Id>, more: set<Id>)
    requires Kept(plan, value, ledger, issued) && issued <= more
    ensures Kept(plan, value, ledger, more)
  {
    hide Good, Sane;
    GoodMore(plan.items, plan.mode, plan.owner, value, ledger, issued, more);
  }

  lemma KeptNewStep(plan: Plan, value: Journal, ledger: State, issued: set<Id>, name: StepName, id: Id)
    requires Kept(plan, value, ledger, issued) && name !in value.steps && id !in issued && id !in ledger.receipts
    requires name.SubmitMerges? ==> value.phase.Submitting?
    ensures var next := value.(steps := value.steps[name := Entry(id, None, None)]);
      Kept(plan, next, ledger, issued + {id}) && Extends(value, next)
  {
    hide Good, Sane, Fits;
    NewStep(plan.items, plan.mode, plan.owner, value, ledger, issued, name, id);
    SaneSteps(plan, value, value.(steps := value.steps[name := Entry(id, None, None)]), ledger);
  }

  lemma FitsOn(plan: Plan, value: Journal, next: Journal, name: StepName, action: Action)
    requires Fits(plan, value, name, action) && next == value.(steps := next.steps) && Extends(value, next)
    ensures Fits(plan, next, name, action)
  {
  }

  lemma KeptInput(plan: Plan, value: Journal, ledger: State, issued: set<Id>, name: StepName, fields: Action)
    requires Kept(plan, value, ledger, issued) && name in value.steps && value.steps[name].action.None?
    requires !name.SubmitMerges? && Fits(plan, value, name, fields)
    ensures var next := value.(steps := value.steps[name := value.steps[name].(action := Some(fields))]);
      Kept(plan, next, ledger, issued) && Extends(value, next)
  {
    hide Good, Sane, Fits;
    var next := value.(steps := value.steps[name := value.steps[name].(action := Some(fields))]);
    GivenInput(plan.items, plan.mode, plan.owner, value, ledger, issued, name, fields);
    FitsOn(plan, value, next, name, fields);
    SaneSteps(plan, value, next, ledger);
  }

  lemma KeptResult(plan: Plan, value: Journal, ledger: State, issued: set<Id>, name: StepName, result: StepResult)
    requires Kept(plan, value, ledger, issued) && name in value.steps && value.steps[name].result.None?
    requires result.Replied? ==>
      var q := value.steps[name].request;
      && q in ledger.receipts && ledger.receipts[q].owner == plan.owner && ledger.receipts[q].reply == result.reply
      && AskedFor(plan.items, name, value.steps[name], ledger.receipts[q].action)
    ensures var next := value.(steps := value.steps[name := value.steps[name].(result := Some(result))]);
      Kept(plan, next, ledger, issued) && Extends(value, next)
  {
    hide Good, Sane, Fits, AskedFor;
    var next := value.(steps := value.steps[name := value.steps[name].(result := Some(result))]);
    GivenResult(plan.items, plan.mode, plan.owner, value, ledger, issued, name, result);
    SaneSteps(plan, value, next, ledger);
  }

  lemma KeptForeign(norm: Norm, plan: Plan, value: Journal, ledger: State, issued: set<Id>, ops: seq<Op>)
    requires Kept(plan, value, ledger, issued) && Foreign(ops, issued)
    ensures Kept(plan, value, Run(norm, ledger, ops), issued)
  {
    hide Good, Sane, Run, Foreign, Later;
    Outlives(plan.items, plan.mode, plan.owner, value, norm, ledger, ops, issued);
    RunsLater(norm, ledger, ops);
    SaneLater(plan, value, ledger, Run(norm, ledger, ops));
  }

  lemma KeptAsked(plan: Plan, value: Journal, ledger: State, issued: set<Id>, name: StepName, out: Outside)
    requires Kept(plan, value, ledger, issued) && name in value.steps && value.steps[name].result.None?
    requires Intended(plan.items, value, name).Some?
    ensures var q, action := value.steps[name].request, Intended(plan.items, value, name).value;
      var t := Perform(ledger, plan.owner, q, action, out);
      && Kept(plan, value, t.0, issued) && q in issued
      && (t.1.Success? ==> q in t.0.receipts && t.0.receipts[q] == Receipt(plan.owner, action, t.1.value))
      && (forall p :: p in ledger.receipts ==> p in t.0.receipts)
      && (forall p :: p in t.0.receipts && p !in ledger.receipts ==> p == q)
  {
    hide Good, Sane, Perform, Intended, Later;
    var q, action := value.steps[name].request, Intended(plan.items, value, name).value;
    RequestKeeps(plan.items, plan.mode, plan.owner, value, ledger, issued, name, out);
    RequestKnown(plan.items, plan.mode, plan.owner, value, ledger, issued, name);
    AskedLater(ledger, plan.owner, q, action, out);
    SaneLater(plan, value, ledger, Perform(ledger, plan.owner, q, action, out).0);
  }

  lemma ReplyWasAsked(plan: Plan, value: Journal, ledger: State, issued: set<Id>, name: StepName)
    requires Kept(plan, value, ledger, issued) && name in value.steps
    requires value.steps[name].result.Some? && value.steps[name].result.value.Replied? && !name.SubmitMerges?
    ensures value.steps[name].action.Some?
  {
    assert EntrySound(plan.items, plan.owner, value, ledger, name);
  }

  lemma AskedForIntended(items: seq<Item>, value: Journal, name: StepName)
    requires name in value.steps && Intended(items, value, name).Some?
    ensures AskedFor(items, name, value.steps[name], Intended(items, value, name).value)
  {
    if name.SubmitMerges? {
      DraftsAreMerges(items, value);
    }
  }

  lemma KeptOperation(plan: Plan, value: Journal, ledger: State, issued: set<Id>, repository: string,
      operation: Operation)
    requires Kept(plan, value, ledger, issued) && (value.phase.Prepare? || value.phase.Merging?)
    requires value.phase.Merging? || OperationFits(value, repository, operation)
    ensures Kept(plan, value.(operations := value.operations[repository := operation]), ledger, issued)
  {
    hide Sane, JournalSound, OperationFits;
    var next := value.(operations := value.operations[repository := operation]);
    OtherFields(plan.items, plan.mode, plan.owner, value, next, ledger, issued);
    SaneOperation(plan, value, repository, operation, ledger);
  }

  lemma KeptPrepared(plan: Plan, value: Journal, ledger: State, issued: set<Id>)
    requires Kept(plan, value, ledger, issued) && value.phase == Prepare
    ensures Kept(plan, value.(phase := if plan.mode.DeployFirst? && !value.deployed then Deploy else Submitting),
      ledger, issued)
  {
    hide Sane, JournalSound;
    var next := value.(phase := if plan.mode.DeployFirst? && !value.deployed then Deploy else Submitting);
    OtherFields(plan.items, plan.mode, plan.owner, value, next, ledger, issued);
    SanePrepared(plan, value, ledger);
  }

  lemma KeptMergeJob(plan: Plan, value: Journal, ledger: State, issued: set<Id>, repository: string, job: Id)
    requires Kept(plan, value, ledger, issued) && value.phase == Submitting
    ensures Kept(plan, value.(jobs := value.jobs[MergeOf(repository) := job]), ledger, issued)
  {
    hide Sane, JournalSound;
    var next := value.(jobs := value.jobs[MergeOf(repository) := job]);
    OtherFields(plan.items, plan.mode, plan.owner, value, next, ledger, issued);
    SaneMergeJob(plan, value, repository, job, ledger);
  }

  lemma KeptSubmitted(plan: Plan, value: Journal, ledger: State, issued: set<Id>)
    requires Kept(plan, value, ledger, issued) && value.phase == Submitting && BatchNamed(plan.items, value)
    ensures Kept(plan, value.(phase := Merging), ledger, issued)
  {
    assert value.steps[SubmitMerges].result.Some?;
    hide Sane, JournalSound, BatchNamed;
    OtherFields(plan.items, plan.mode, plan.owner, value, value.(phase := Merging), ledger, issued);
    SaneSubmitted(plan, value, ledger);
  }

  lemma KeptMerged(plan: Plan, value: Journal, ledger: State, issued: set<Id>)
    requires Kept(plan, value, ledger, issued) && value.phase == Merging && value.pending.None?
    requires forall k :: 0 <= k < |plan.items| ==> Landed(value, ledger, MergeOf(plan.items[k].repository))
    ensures Kept(plan, value.(phase := if plan.mode.IntegrateFirst? then Deploy else Completing), ledger, issued)
  {
    hide Sane, JournalSound, Landed;
    var next := value.(phase := if plan.mode.IntegrateFirst? then Deploy else Completing);
    OtherFields(plan.items, plan.mode, plan.owner, value, next, ledger, issued);
    SaneMerged(plan, value, ledger);
  }

  lemma KeptPending(plan: Plan, value: Journal, ledger: State, issued: set<Id>, pending: Option<Pending>)
    requires Kept(plan, value, ledger, issued) && value.phase == Merging
    requires pending.Some? ==> PendingFits(value, pending.value)
    ensures Kept(plan, value.(pending := pending), ledger, issued)
  {
    hide Sane, JournalSound;
    OtherFields(plan.items, plan.mode, plan.owner, value, value.(pending := pending), ledger, issued);
    SanePending(plan, value, pending, ledger);
  }

  lemma OperationIsPrepared(plan: Plan, value: Journal, ledger: State, issued: set<Id>, repository: string)
    requires Kept(plan, value, ledger, issued) && value.phase == Prepare
    ensures OperationFits(value, repository, OperationOf(value, repository))
  {
    hide Good, StepsFit, Landings, JobsNamed, OperationFits;
    NothingFits(value, repository);
  }

  lemma NothingFits(value: Journal, repository: string)
    ensures OperationFits(value, repository, Operation(None, None))
  {
  }

  lemma PendingIsOurs(plan: Plan, value: Journal, ledger: State, issued: set<Id>)
    requires Kept(plan, value, ledger, issued) && value.pending.Some?
    ensures PendingFits(value, value.pending.value)
  {
    hide Good, StepsFit, Landings;
  }

  lemma KeptReservation(plan: Plan, value: Journal, ledger: State, issued: set<Id>, r: Id)
    requires Kept(plan, value, ledger, issued)
    requires if plan.given.Some? then plan.given.value == r else Answered(value, StepName.ReserveMachine, r)
    ensures Kept(plan, value.(reservation := Some(r)), ledger, issued)
  {
    hide Sane, JournalSound;
    OtherFields(plan.items, plan.mode, plan.owner, value, value.(reservation := Some(r)), ledger, issued);
    SaneReservation(plan, value, r, ledger);
  }

  lemma KeptDeployJob(plan: Plan, value: Journal, ledger: State, issued: set<Id>, profile: bool, job: Id)
    requires Kept(plan, value, ledger, issued) && Answered(value, SubmitDeploy(profile), job)
    ensures Kept(plan, value.(jobs := value.jobs[if profile then ProfileJob else SystemJob := job]), ledger, issued)
  {
    hide Sane, JournalSound, Answered;
    var next := value.(jobs := value.jobs[if profile then ProfileJob else SystemJob := job]);
    OtherFields(plan.items, plan.mode, plan.owner, value, next, ledger, issued);
    SaneDeployJob(plan, value, profile, job, ledger);
  }

  lemma KeptSubmittedDeploy(plan: Plan, value: Journal, ledger: State, issued: set<Id>)
    requires Kept(plan, value, ledger, issued) && value.phase == Deploy
    ensures Kept(plan, value.(phase := Deploying), ledger, issued)
  {
    hide Sane, JournalSound;
    OtherFields(plan.items, plan.mode, plan.owner, value, value.(phase := Deploying), ledger, issued);
    SaneSubmittedDeploy(plan, value, ledger);
  }

  lemma KeptDone(plan: Plan, value: Journal, ledger: State, issued: set<Id>)
    requires Kept(plan, value, ledger, issued) && value.phase == Completing
    requires plan.completes ==>
      && FinishRun in value.steps && value.steps[FinishRun].action.Some? && value.steps[FinishRun].result.Some?
      && value.steps[FinishRun].result.value.Replied?
    ensures Kept(plan, value.(phase := Done), ledger, issued)
  {
    hide Sane, JournalSound;
    OtherFields(plan.items, plan.mode, plan.owner, value, value.(phase := Done), ledger, issued);
    SaneDone(plan, value, ledger);
  }

  // ---------------------------------------------------------------- what follows for the ledger

  /** The job of the journal is one of the owner's, of this kind, and has succeeded. */
  predicate Did(plan: Plan, value: Journal, ledger: State, name: JobName, kind: Kind) {
    && name in value.jobs && value.jobs[name] in ledger.jobs
    && var job := ledger.jobs[value.jobs[name]];
       job.owner == plan.owner && job.kind == kind && job.state == Succeeded
  }

  ghost predicate AllMerged(plan: Plan, value: Journal, ledger: State) {
    forall k :: 0 <= k < |plan.items| ==> Did(plan, value, ledger, MergeOf(plan.items[k].repository), Merge)
  }

  predicate BothActivated(plan: Plan, value: Journal, ledger: State) {
    Did(plan, value, ledger, SystemJob, MachineActivate) && Did(plan, value, ledger, ProfileJob, ProfileActivate)
  }

  /** The input of the step is saved, so it may have been asked. */
  predicate Asked(value: Journal, name: StepName) {
    name in value.steps && value.steps[name].action.Some?
  }

  /** What a saved journal promises of the ledger. */
  ghost predicate Promises(plan: Plan, value: Journal, ledger: State) {
    && (value.phase in {Completing, Done} ==> AllMerged(plan, value, ledger))
    && (value.phase in {Completing, Done} && plan.mode != MergeOnly ==> BothActivated(plan, value, ledger))
    && (value.deployed ==> BothActivated(plan, value, ledger))
    && (plan.mode == IntegrateFirst && (exists p :: Asked(value, SubmitDeploy(p))) ==> AllMerged(plan, value, ledger))
    && (plan.mode == DeployFirst && SubmitMerges in value.steps ==> BothActivated(plan, value, ledger))
    && (plan.mode == MergeOnly ==> forall p :: !Asked(value, SubmitDeploy(p)))
    && (value.phase == Done && plan.completes ==>
          && value.reservation.Some? && value.reservation.value in ledger.reservations
          && ledger.reservations[value.reservation.value].owner == plan.owner
          && ledger.reservations[value.reservation.value].state == Released)
  }

  lemma MergesDid(plan: Plan, value: Journal, ledger: State, issued: set<Id>)
    requires Good(plan.items, plan.mode, plan.owner, value, ledger, issued) && Sane(plan, value, ledger)
    requires ReceiptsVouch(ledger) && AfterMerges(plan.mode, value)
    ensures AllMerged(plan, value, ledger)
  {
    assert BatchNamed(plan.items, value);
    assert EntrySound(plan.items, plan.owner, value, ledger, SubmitMerges);
    var e := value.steps[SubmitMerges];
    assert Vouches(ledger, ledger.receipts[e.request]);
    var drafts := ledger.receipts[e.request].action.drafts;
    forall k | 0 <= k < |plan.items|
      ensures Did(plan, value, ledger, MergeOf(plan.items[k].repository), Merge)
    {
      assert Landed(value, ledger, MergeOf(plan.items[k].repository));
      assert MadeFrom(ledger, plan.owner, drafts[k], e.result.value.reply.ids[k]);
    }
  }

  lemma ActivationDid(plan: Plan, value: Journal, ledger: State, issued: set<Id>, profile: bool)
    requires Good(plan.items, plan.mode, plan.owner, value, ledger, issued) && Sane(plan, value, ledger)
    requires ReceiptsVouch(ledger) && value.deployed
    ensures Did(plan, value, ledger, if profile then ProfileJob else SystemJob,
      if profile then ProfileActivate else MachineActivate)
  {
    var step := SubmitDeploy(profile);
    var name := if profile then ProfileJob else SystemJob;
    assert Landed(value, ledger, name) && Answered(value, step, value.jobs[name]);
    assert EntrySound(plan.items, plan.owner, value, ledger, step);
    var e := value.steps[step];
    assert Vouches(ledger, ledger.receipts[e.request]);
    assert Fits(plan, value, step, e.action.value);
  }

  lemma ReleaseDid(plan: Plan, value: Journal, ledger: State, issued: set<Id>)
    requires Good(plan.items, plan.mode, plan.owner, value, ledger, issued) && Sane(plan, value, ledger)
    requires ReceiptsVouch(ledger) && value.phase == Done && plan.completes
    ensures value.reservation.Some? && value.reservation.value in ledger.reservations
    ensures ledger.reservations[value.reservation.value].owner == plan.owner
    ensures ledger.reservations[value.reservation.value].state == Released
  {
    assert EntrySound(plan.items, plan.owner, value, ledger, FinishRun);
    var e := value.steps[FinishRun];
    assert Vouches(ledger, ledger.receipts[e.request]);
    assert Fits(plan, value, FinishRun, e.action.value);
  }

  /** A deployment that may have been asked for is under way or done. */
  lemma AskedDeploys(plan: Plan, value: Journal, ledger: State, profile: bool)
    requires Sane(plan, value, ledger) && Asked(value, SubmitDeploy(profile))
    ensures value.deployed || value.phase in {Deploy, Deploying}
  {
    hide JobsNamed, Landings;
    assert Fits(plan, value, SubmitDeploy(profile), value.steps[SubmitDeploy(profile)].action.value);
  }

  lemma PhasesPromise(plan: Plan, value: Journal, ledger: State)
    requires PhasesFit(plan, value) && Shaped(plan.mode, value)
    requires AfterMerges(plan.mode, value) ==> AllMerged(plan, value, ledger)
    requires value.deployed ==> BothActivated(plan, value, ledger)
    requires value.phase == Done && plan.completes ==>
      && value.reservation.Some? && value.reservation.value in ledger.reservations
      && ledger.reservations[value.reservation.value].owner == plan.owner
      && ledger.reservations[value.reservation.value].state == Released
    requires forall p :: Asked(value, SubmitDeploy(p)) ==> value.deployed || value.phase in {Deploy, Deploying}
    requires plan.mode == MergeOnly ==> !value.deployed
    ensures Promises(plan, value, ledger)
  {
    hide AllMerged, BothActivated, Asked;
  }

  /** A journal that is kept promises what its phase says, in every ledger it is kept with. */
  lemma KeptPromises(norm: Norm, plan: Plan, value: Journal, ledger: State, issued: set<Id>)
    requires Kept(plan, value, ledger, issued) && Reached(norm, ledger)
    ensures Promises(plan, value, ledger)
  {
    ReachedVouches(norm, ledger);
    KeptBoth(plan, value, ledger, issued);
    hide *;
    if AfterMerges(plan.mode, value) {
      MergesDid(plan, value, ledger, issued);
    }
    if value.deployed {
      ActivationDid(plan, value, ledger, issued, false);
      ActivationDid(plan, value, ledger, issued, true);
      BothDid(plan, value, ledger);
    }
    if value.phase == Done && plan.completes {
      ReleaseDid(plan, value, ledger, issued);
    }
    forall p | Asked(value, SubmitDeploy(p)) ensures value.deployed || value.phase in {Deploy, Deploying} {
      AskedDeploys(plan, value, ledger, p);
    }
    KeptParts(plan, value, ledger, issued);
    PhasesPromise(plan, value, ledger);
  }

  lemma KeptBoth(plan: Plan, value: Journal, ledger: State, issued: set<Id>)
    requires Kept(plan, value, ledger, issued)
    ensures Good(plan.items, plan.mode, plan.owner, value, ledger, issued) && Sane(plan, value, ledger)
  {
    hide Good, Sane;
  }

  lemma BothDid(plan: Plan, value: Journal, ledger: State)
    requires Did(plan, value, ledger, SystemJob, MachineActivate)
    requires Did(plan, value, ledger, ProfileJob, ProfileActivate)
    ensures BothActivated(plan, value, ledger)
  {
  }

  lemma KeptParts(plan: Plan, value: Journal, ledger: State, issued: set<Id>)
    requires Good(plan.items, plan.mode, plan.owner, value, ledger, issued) && Sane(plan, value, ledger)
    ensures PhasesFit(plan, value) && Shaped(plan.mode, value) && (plan.mode == MergeOnly ==> !value.deployed)
  {
    hide JobsNamed, StepsFit, Landings, JournalSound;
  }
}
