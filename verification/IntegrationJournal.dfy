/**
 The journal of an integration run (libexec/workspace-integration.rb): every ledger
 mutation gets a saved request identity and saved input before it is made, and its
 reply is saved before anything builds on it.
 */
module IntegrationJournal {
  import opened Wrappers
  import opened MachinePolicy
  import opened Ledger
  import opened LedgerRuns
  import opened LedgerGuarantees

  datatype Mode = MergeOnly | DeployFirst | IntegrateFirst

  datatype Item = Item(repository: string, target: string, dependsOn: seq<string>)

  datatype StepName =
    | PrepareMerge(repository: string) | ApproveMerge(repository: string)
    | PrepareRefresh(repository: string, revision: nat) | ApproveRefresh(repository: string, revision: nat)
    | RefreshMerge(repository: string, revision: nat)
    | PrepareDeploy(profile: bool) | ApproveDeploy(profile: bool) | ReserveMachine | SubmitDeploy(profile: bool)
    | SubmitMerges | FinishRun

  datatype StepResult = Prepared(snapshot: Snapshot) | Replied(reply: Reply)

  /** One step of the journal: its request identity, the input it was given, and its result. */
  datatype Entry = Entry(request: Id, action: Option<Action>, result: Option<StepResult>)

  datatype Operation = Operation(snapshot: Option<Snapshot>, approval: Option<Id>)

  datatype Phase = Prepare | Submitting | Merging | Deploy | Deploying | Completing | Done

  datatype Pending = Pending(repository: string, job: Id, revision: nat, snapshot: Option<Snapshot>)

  datatype JobName = MergeOf(repository: string) | SystemJob | ProfileJob

  datatype Journal = Journal(
    phase: Phase, deployed: bool, steps: map<StepName, Entry>, operations: map<string, Operation>,
      jobs: map<JobName, Id>,
    pending: Option<Pending>, reservation: Option<Id>)

  function OperationOf(value: Journal, repository: string): Operation {
    if repository in value.operations then value.operations[repository] else Operation(None, None)
  }

  /** The jobs of the batch are computed anew from the saved operations each time. */
  function BatchDrafts(items: seq<Item>, value: Journal): Option<seq<Draft>> {
    if items == [] then Some([])
    else
      var o := OperationOf(value, items[0].repository);
      var rest := BatchDrafts(items[1..], value);
      if o.snapshot.None? || o.approval.None? || rest.None? then None
      else
        Some([Draft(items[0].repository, Merge, Keys(items[0].dependsOn), o.approval.value, None,
          o.snapshot.value)] + rest.value)
  }

  function Targets(items: seq<Item>, repository: string): set<(string, string)> {
    set item | item in items && item.repository == repository :: (repository, item.target)
  }

  function Keys(names: seq<string>): seq<Dependency> {
    seq(|names|, k requires 0 <= k < |names| => Keyed(names[k]))
  }

  /** What a step of the journal asks of the ledger. */
  function Intended(items: seq<Item>, value: Journal, name: StepName): Option<Action>
    requires name in value.steps
  {
    if name.SubmitMerges? then
      match BatchDrafts(items, value) case Some(drafts) => Some(SubmitBatch(drafts)) case None => None
    else value.steps[name].action
  }

  // ---------------------------------------------------------------- the invariant

  ghost predicate EntrySound(items: seq<Item>, owner: Id, value: Journal, ledger: State, name: StepName)
    requires name in value.steps
  {
    var e := value.steps[name];
    && (e.request in ledger.receipts && e.result.None? ==>
          Intended(items, value, name).Some? && ledger.receipts[e.request].owner == owner
            && ledger.receipts[e.request].action == Intended(items, value, name).value)
    && (e.result.Some? && e.result.value.Replied? ==>
          e.request in ledger.receipts && ledger.receipts[e.request].owner == owner
            && ledger.receipts[e.request].reply == e.result.value.reply
            && AskedFor(items, name, e, ledger.receipts[e.request].action))
  }

  /** The action is what the step asked for: the saved input, or for the batch one merge for each item. */
  predicate AskedFor(items: seq<Item>, name: StepName, e: Entry, action: Action) {
    if name.SubmitMerges? then action.SubmitBatch? && MergesOf(items, action.drafts) else e.action == Some(action)
  }

  /** One merge for each item, in order, after the merges of the repositories it depends on. */
  predicate MergesOf(items: seq<Item>, drafts: seq<Draft>) {
    && |drafts| == |items|
    && forall k :: 0 <= k < |items| ==>
         && drafts[k].key == items[k].repository && drafts[k].kind == Merge && drafts[k].reservation.None?
         && drafts[k].dependsOn == Keys(items[k].dependsOn)
  }

  lemma {:induction false} DraftsAreMerges(items: seq<Item>, value: Journal)
    requires BatchDrafts(items, value).Some?
    ensures MergesOf(items, BatchDrafts(items, value).value)
    decreases items
  {
    if items != [] {
      DraftsAreMerges(items[1..], value);
      var drafts := BatchDrafts(items, value).value;
      var rest := BatchDrafts(items[1..], value).value;
      forall k | 0 < k < |items| ensures drafts[k] == rest[k - 1] && items[k] == items[1..][k - 1] {
      }
    }
  }

  /**
   Steps have different identities; what the ledger recorded under one is what the step asks for, and its saved reply is
   the first one.
   */
  ghost predicate JournalSound(items: seq<Item>, owner: Id, value: Journal, ledger: State, issued: set<Id>) {
    && (forall n :: n in value.steps ==> value.steps[n].request in issued && EntrySound(items, owner, value, ledger, n))
    && forall m, n :: m in value.steps && n in value.steps && m != n ==>
      value.steps[m].request != value.steps[n].request
  }

  predicate Foreign(ops: seq<Op>, issued: set<Id>) {
    forall op :: op in ops && op.Request? ==> op.request !in issued
  }

  lemma {:induction false} ForeignKeeps(norm: Norm, ledger: State, ops: seq<Op>, issued: set<Id>)
    requires Foreign(ops, issued)
    ensures var t := Run(norm, ledger, ops);
            forall q :: q in issued ==> (q in t.receipts <==> q in ledger.receipts) && (q in ledger.receipts ==>
              t.receipts[q] == ledger.receipts[q])
    decreases ops
  {
    hide Next;
    if ops != [] {
      ForeignStep(norm, ledger, ops[0], issued);
      ForeignKeeps(norm, Next(norm, ledger, ops[0]), ops[1..], issued);
    }
  }

  lemma ForeignStep(norm: Norm, ledger: State, op: Op, issued: set<Id>)
    requires op.Request? ==> op.request !in issued
    ensures var t := Next(norm, ledger, op);
            forall q :: q in issued ==> (q in t.receipts <==> q in ledger.receipts) && (q in ledger.receipts ==>
              t.receipts[q] == ledger.receipts[q])
  {
    hide Perform, CanGrant, CanPark, Settle, MovedAttempt, TickClaim, Acquire, ChangeClaim, NotifyClaim,
      ClearNotification, Deliver, DeliveryFailed, Enqueue, Grant, Transition, NotifyRun, Remind;
    hide Register, Fenced, BindLifecycle, BindRevival, CompleteLifecycle, Revived;
    if op.Request? {
      PerformRecords(ledger, op.owner, op.request, op.action, op.out);
    }
  }

  lemma SoundAgain(items: seq<Item>, owner: Id, value: Journal, ledger: State, later: State, issued: set<Id>)
    requires JournalSound(items, owner, value, ledger, issued)
    requires forall q :: q in issued ==> (q in later.receipts <==> q in ledger.receipts) && (q in ledger.receipts ==>
      later.receipts[q] == ledger.receipts[q])
    ensures JournalSound(items, owner, value, later, issued)
  {
    forall n | n in value.steps ensures EntrySound(items, owner, value, later, n) {
      assert EntrySound(items, owner, value, ledger, n);
    }
  }

  /** The batch is outstanding only in its own phase, so the operations it was computed from cannot change under it. */
  predicate Shaped(mode: Mode, value: Journal) {
    SubmitMerges in value.steps ==>
      && (value.steps[SubmitMerges].result.None? ==> value.phase.Submitting?)
      && !value.phase.Prepare? && (value.phase.Deploy? || value.phase.Deploying? ==> mode.IntegrateFirst?)
  }

  predicate BatchOpen(value: Journal) {
    SubmitMerges in value.steps && value.steps[SubmitMerges].result.None?
  }

  ghost predicate Good(items: seq<Item>, mode: Mode, owner: Id, value: Journal, ledger: State, issued: set<Id>) {
    JournalSound(items, owner, value, ledger, issued) && Shaped(mode, value)
  }

  /** Changes outside the steps; the operations may change while no batch is outstanding. */
  lemma OtherFields(items: seq<Item>, mode: Mode, owner: Id, value: Journal, next: Journal, ledger: State,
      issued: set<Id>)
    requires Good(items, mode, owner, value, ledger, issued) && next.steps == value.steps && Shaped(mode, next)
    requires next.operations == value.operations || !BatchOpen(value)
    ensures Good(items, mode, owner, next, ledger, issued)
  {
    forall n | n in next.steps ensures EntrySound(items, owner, next, ledger, n) {
      assert EntrySound(items, owner, value, ledger, n);
      if n.SubmitMerges? && next.operations == value.operations {
        SameDrafts(items, value, next);
      }
    }
  }

  lemma {:induction false} SameDrafts(items: seq<Item>, value: Journal, next: Journal)
    requires next.operations == value.operations
    ensures BatchDrafts(items, next) == BatchDrafts(items, value)
    decreases items
  {
    if items != [] {
      SameDrafts(items[1..], value, next);
    }
  }

  /** Dropping steps. */
  lemma FewerSteps(items: seq<Item>, mode: Mode, owner: Id, value: Journal, next: Journal, ledger: State,
      issued: set<Id>)
    requires Good(items, mode, owner, value, ledger, issued) && Shaped(mode, next)
    requires next.steps.Keys <= value.steps.Keys && (forall n :: n in next.steps ==> next.steps[n] == value.steps[n])
    requires SubmitMerges !in next.steps
    ensures Good(items, mode, owner, next, ledger, issued)
  {
    forall n | n in next.steps ensures EntrySound(items, owner, next, ledger, n) {
      assert EntrySound(items, owner, value, ledger, n);
    }
  }

  /** A new step with an identity nobody has used. */
  lemma NewStep(items: seq<Item>, mode: Mode, owner: Id, value: Journal, ledger: State, issued: set<Id>, name: StepName,
      id: Id)
    requires Good(items, mode, owner, value, ledger, issued) && name !in value.steps && id !in issued
    requires id !in ledger.receipts
    requires name.SubmitMerges? ==> value.phase.Submitting?
    ensures Good(items, mode, owner, value.(steps := value.steps[name := Entry(id, None, None)]), ledger, issued + {id})
  {
    var next := value.(steps := value.steps[name := Entry(id, None, None)]);
    SameDrafts(items, value, next);
    forall n | n in next.steps
      ensures next.steps[n].request in issued + {id} && EntrySound(items, owner, next, ledger, n)
    {
      if n != name {
        assert EntrySound(items, owner, value, ledger, n);
      }
    }
  }

  /** The input of a step that has not been requested yet. */
  lemma GivenInput(items: seq<Item>, mode: Mode, owner: Id, value: Journal, ledger: State, issued: set<Id>,
      name: StepName, action: Action)
    requires Good(items, mode, owner, value, ledger, issued) && name in value.steps && value.steps[name].action.None?
    requires !name.SubmitMerges?
    ensures Good(items, mode, owner, value.(steps := value.steps[name := value.steps[name].(action := Some(action))]),
      ledger, issued)
  {
    var next := value.(steps := value.steps[name := value.steps[name].(action := Some(action))]);
    SameDrafts(items, value, next);
    forall n | n in next.steps ensures EntrySound(items, owner, next, ledger, n) {
      assert EntrySound(items, owner, value, ledger, n);
    }
  }

  /** The result of a step: the reply the ledger recorded under its identity, or a prepared snapshot. */
  lemma GivenResult(items: seq<Item>, mode: Mode, owner: Id, value: Journal, ledger: State, issued: set<Id>,
      name: StepName, result: StepResult)
    requires Good(items, mode, owner, value, ledger, issued) && name in value.steps
    requires result.Replied? ==>
               var q := value.steps[name].request;
                 q in ledger.receipts && ledger.receipts[q].owner == owner && ledger.receipts[q].reply == result.reply
                 && AskedFor(items, name, value.steps[name], ledger.receipts[q].action)
    ensures Good(items, mode, owner, value.(steps := value.steps[name := value.steps[name].(result := Some(result))]),
      ledger, issued)
  {
    var next := value.(steps := value.steps[name := value.steps[name].(result := Some(result))]);
    SameDrafts(items, value, next);
    forall n | n in next.steps ensures EntrySound(items, owner, next, ledger, n) {
      assert EntrySound(items, owner, value, ledger, n);
    }
  }

  /** Asking the ledger for what the saved step intends. */
  lemma RequestKeeps(items: seq<Item>, mode: Mode, owner: Id, value: Journal, ledger: State, issued: set<Id>,
      name: StepName, out: Outside)
    requires Good(items, mode, owner, value, ledger, issued) && name in value.steps && value.steps[name].result.None?
    requires Intended(items, value, name).Some?
    ensures var q, action := value.steps[name].request, Intended(items, value, name).value;
            var t := Perform(ledger, owner, q, action, out);
            && Good(items, mode, owner, value, t.0, issued)
            && (t.1.Success? ==> q in t.0.receipts && t.0.receipts[q] == Receipt(owner, action, t.1.value))
            && (q in ledger.receipts ==> t.0 == ledger && t.1 == Success(ledger.receipts[q].reply))
            && (q !in ledger.receipts && t.1.Refused? ==> t.0 == ledger)
            && (forall p :: p in ledger.receipts ==> p in t.0.receipts)
            && (forall p :: p in t.0.receipts && p !in ledger.receipts ==> p == q)
  {
    var q, action := value.steps[name].request, Intended(items, value, name).value;
    assert EntrySound(items, owner, value, ledger, name);
    PerformRecords(ledger, owner, q, action, out);
    var t := Perform(ledger, owner, q, action, out);
    hide Perform;
    forall n | n in value.steps ensures EntrySound(items, owner, value, t.0, n) {
      assert EntrySound(items, owner, value, ledger, n);
    }
  }

  lemma PerformRecords(ledger: State, owner: Id, request: Id, action: Action, out: Outside)
    ensures var t := Perform(ledger, owner, request, action, out);
            && (request in ledger.receipts ==> t.0 == ledger)
            && (t.1.Refused? ==> t.0 == ledger)
            && (t.1.Success? && request !in ledger.receipts ==>
              t.0.receipts == ledger.receipts[request := Receipt(owner, action, t.1.value)])
            && (
              request in ledger.receipts && ledger.receipts[request].owner == owner &&
              ledger.receipts[request].action == action ==>
                t.1 == Success(ledger.receipts[request].reply))
  {
    hide Effect;
    if owner in ledger.owners {
      EffectReceipts(ledger, owner, action, out);
    }
  }

  lemma Outlives(items: seq<Item>, mode: Mode, owner: Id, value: Journal, norm: Norm, ledger: State, ops: seq<Op>,
      issued: set<Id>)
    requires Good(items, mode, owner, value, ledger, issued) && Foreign(ops, issued)
    ensures Good(items, mode, owner, value, Run(norm, ledger, ops), issued)
  {
    ForeignKeeps(norm, ledger, ops, issued);
    SoundAgain(items, owner, value, ledger, Run(norm, ledger, ops), issued);
  }

  lemma GoodMore(items: seq<Item>, mode: Mode, owner: Id, value: Journal, ledger: State, issued: set<Id>, more: set<Id>)
    requires Good(items, mode, owner, value, ledger, issued) && issued <= more
    ensures Good(items, mode, owner, value, ledger, more)
  {
    hide EntrySound;
  }

  /**
   Asking again for a step whose reply was lost is never refused as a reuse: the ledger answers with the first reply and
   stays as it was.
   */
  ghost predicate Replays(items: seq<Item>, owner: Id, value: Journal, ledger: State, name: StepName, out: Outside)
    requires name in value.steps
  {
    var q := value.steps[name].request;
    q in ledger.receipts ==>
      && Intended(items, value, name).Some?
      && Perform(ledger, owner, q, Intended(items, value, name).value, out) == (ledger,
        Success(ledger.receipts[q].reply))
  }

  lemma ResumedIsAnswered(items: seq<Item>, mode: Mode, owner: Id, value: Journal, ledger: State, issued: set<Id>,
      name: StepName, out: Outside)
    requires Good(items, mode, owner, value, ledger, issued) && name in value.steps && value.steps[name].result.None?
    ensures Replays(items, owner, value, ledger, name, out)
  {
    assert EntrySound(items, owner, value, ledger, name);
    hide Good, Intended;
    if Intended(items, value, name).Some? {
      PerformRecords(ledger, owner, value.steps[name].request, Intended(items, value, name).value, out);
    }
  }

  lemma RequestKnown(items: seq<Item>, mode: Mode, owner: Id, value: Journal, ledger: State, issued: set<Id>,
      name: StepName)
    requires Good(items, mode, owner, value, ledger, issued) && name in value.steps
    ensures value.steps[name].request in issued
  {
    hide EntrySound;
  }

  /** No identity has taken effect twice. */
  ghost predicate AppliedOnce(ledger: State, issued: set<Id>, applied: seq<Id>) {
    && (forall q :: q in applied <==> q in ledger.receipts && q in issued)
    && forall i, k :: 0 <= i < k < |applied| ==> applied[i] != applied[k]
  }

  /** The request of a step is applied at one place of the history, and the ledger answers it with the saved reply. */
  ghost predicate TookEffectOnce(ledger: State, applied: seq<Id>, e: Entry)
    requires e.result.Some? && e.result.value.Replied?
  {
    && (exists i :: 0 <= i < |applied| && applied[i] == e.request && forall k ::
      0 <= k < |applied| && applied[k] == applied[i] ==> k == i)
    && e.request in ledger.receipts && ledger.receipts[e.request].reply == e.result.value.reply
  }

  /** A step whose reply was saved took effect exactly once, and the saved reply is the one the ledger gave then. */
  lemma EachStepOnce(items: seq<Item>, mode: Mode, owner: Id, value: Journal, ledger: State, issued: set<Id>,
      applied: seq<Id>, name: StepName)
    requires Good(items, mode, owner, value, ledger, issued) && AppliedOnce(ledger, issued, applied)
    requires name in value.steps && value.steps[name].result.Some? && value.steps[name].result.value.Replied?
    ensures TookEffectOnce(ledger, applied, value.steps[name])
  {
    assert EntrySound(items, owner, value, ledger, name);
    assert value.steps[name].request in applied;
    var i :| 0 <= i < |applied| && applied[i] == value.steps[name].request;
    forall k | 0 <= k < |applied| && applied[k] == applied[i] ensures k == i {
    }
  }

  lemma AppliedElsewhere(ledger: State, later: State, issued: set<Id>, applied: seq<Id>)
    requires AppliedOnce(ledger, issued, applied)
    requires forall q :: q in issued ==> (q in later.receipts <==> q in ledger.receipts)
    ensures AppliedOnce(later, issued, applied)
  {
  }

  lemma AppliedUnder(ledger: State, issued: set<Id>, applied: seq<Id>, id: Id)
    requires AppliedOnce(ledger, issued, applied) && id !in ledger.receipts
    ensures AppliedOnce(ledger, issued + {id}, applied)
  {
  }

  /** An effect is noted under an identity that had none. */
  lemma AppliedMore(ledger: State, later: State, issued: set<Id>, applied: seq<Id>, q: Id) returns (more: seq<Id>)
    requires AppliedOnce(ledger, issued, applied) && q in issued
    requires forall p :: p in ledger.receipts ==> p in later.receipts
    requires forall p :: p in later.receipts && p !in ledger.receipts ==> p == q
    ensures AppliedOnce(later, issued, more)
    ensures more == if q in later.receipts && q !in ledger.receipts then applied + [q] else applied
  {
    more := applied;
    if q in later.receipts && q !in ledger.receipts {
      more := applied + [q];
      assert forall i :: 0 <= i < |applied| ==> applied[i] in applied;
    }
  }
}
