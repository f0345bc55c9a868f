/**
 What lasts in the ledger: the identity of a job and the end it came to, and what was
 integrated on a machine.
 */
module LedgerLaws {
  import opened Wrappers
  import opened MachinePolicy
  import opened Ledger
  import opened LedgerInvariant
  import opened LedgerFencing
  import opened LedgerRuns
  import opened LedgerLifecycles

  predicate SameWork(s: State, t: State) {
    t.jobs == s.jobs && t.reservations == s.reservations
  }

  // ---------------------------------------------------------------- jobs

  /** Whose job it is, what it does and what it waits for never change; a job that ended never changes at all. */
  predicate Continues(a: Job, b: Job) {
    && b.owner == a.owner && b.kind == a.kind && b.dependsOn == a.dependsOn && b.reservation == a.reservation
    && b.sequence == a.sequence
    && (a.state.Succeeded? || a.state.Failed? || a.state.Canceled? ==> b == a)
  }

  /** The job has what was prepared and approved for it, and no new attempt of it began. */
  predicate Undisturbed(a: Job, b: Job) {
    && b.snapshot == a.snapshot && b.resources == a.resources && b.approval == a.approval
    && (Active(b.state) ==> Active(a.state) && b.attempt == a.attempt)
  }

  /** Every job goes on; outside `touched` none is new, none has another input, and none starts. */
  ghost predicate JobsContinue(a: Jobs, b: Jobs, touched: set<Id>) {
    && (forall j :: j in a ==> j in b && Continues(a[j], b[j]) && (j in touched || Undisturbed(a[j], b[j])))
    && forall j :: j in b ==> j in a || j in touched
  }

  lemma OneContinues(a: Jobs, j: Id, v: Job, touched: set<Id>)
    requires if j in a then Continues(a[j], v) && (j in touched || Undisturbed(a[j], v)) else j in touched
    ensures JobsContinue(a, a[j := v], touched)
  {
  }

  lemma ContinueOn(a: Jobs, b: Jobs, c: Jobs, first: set<Id>, later: set<Id>)
    requires JobsContinue(a, b, first) && JobsContinue(b, c, later)
    ensures JobsContinue(a, c, first + later)
  {
  }

  lemma ContinueStill(a: Jobs, b: Jobs, c: Jobs)
    requires JobsContinue(a, b, {}) && JobsContinue(b, c, {})
    ensures JobsContinue(a, c, {})
  {
  }

  lemma ReplaceContinues(s: State, j: Id, job: Job, state: JobState, reason: Option<string>, routed: set<Id>,
      touched: set<Id>)
    requires job.owner in s.owners && j in s.jobs && !Terminal(s.jobs[j].state)
    requires Continues(s.jobs[j], job) && (j in touched || Undisturbed(s.jobs[j], Moved(job, state, reason)))
    ensures JobsContinue(s.jobs, Replace(s, j, job, state, reason, routed).jobs, touched)
  {
    hide SameOwners, SameRecords, Announce, Announced;
    OneContinues(s.jobs, j, Moved(job, state, reason), touched);
  }

  lemma SettleContinues(s: State, j: Id, attempt: Id, outcome: Outcome, error: Option<string>, routed: set<Id>)
    ensures JobsContinue(s.jobs, OrSame(s, Settle(s, j, attempt, outcome, error, routed)).jobs, {})
  {
    hide SettledReservations, SameOwners, SameRecords, Replace, JobsContinue;
    SameContinues(s.jobs, {});
    if CurrentAttempt(s, j, attempt) && SettledReservations(s, s.jobs[j], attempt, outcome).Success? {
      var rs := SettledReservations(s, s.jobs[j], attempt, outcome).value;
      ReplaceContinues(s.(reservations := rs), j, s.jobs[j].(result := Some(outcome)), Settled(outcome), error, routed,
        {});
    }
  }

  lemma SameContinues(a: Jobs, touched: set<Id>)
    ensures JobsContinue(a, a, touched)
  {
  }

  lemma MoveContinues(s: State, j: Id, attempt: Id, state: JobState, reason: Option<string>, routed: set<Id>)
    ensures JobsContinue(s.jobs, MovedAttempt(s, j, attempt, state, reason, routed).jobs, {})
  {
    hide SameOwners, SameRecords, Replace, JobsContinue;
    SameContinues(s.jobs, {});
    if CurrentAttempt(s, j, attempt) {
      ReplaceContinues(s, j, s.jobs[j], state, reason, routed, {});
    }
  }

  lemma ParkContinues(s: State, j: Id, state: JobState, reason: Option<string>, routed: set<Id>)
    requires KnownJob(s, j) && !Terminal(s.jobs[j].state) && !Active(state)
    ensures JobsContinue(s.jobs, Transition(s, j, state, reason, routed).jobs, {})
  {
    hide SameOwners, SameRecords, Replace, JobsContinue;
    ReplaceContinues(s, j, s.jobs[j], state, reason, routed, {});
  }

  lemma QueueContinues(s: State, j: Id)
    requires j in s.jobs && !Terminal(s.jobs[j].state)
    ensures JobsContinue(s.jobs, Enqueue(s, j).jobs, {})
  {
    hide SameOwners, SameRecords, JobsContinue;
    SameContinues(s.jobs, {});
    OneContinues(s.jobs, j, s.jobs[j].(readySequence := Some(s.next)), {});
  }

  lemma StartContinues(norm: Norm, s: State, j: Id, attempt: Id, routed: set<Id>)
    requires CanGrant(norm, s, j)
    ensures JobsContinue(s.jobs, Grant(s, j, attempt, routed).jobs, {j})
  {
    var job := s.jobs[j];
    assert !Terminal(job.state);
    hide CanGrant, SameOwners, SameRecords, ReservedFor, Announce;
    OneContinues(s.jobs, j, Moved(job.(attempt := Some(attempt)), Claimed, None), {j});
  }

  lemma {:induction false} CreateContinues(s: State, owner: Id, drafts: seq<Draft>, ids: map<string, Id>,
      minted: seq<Id>, resources: seq<seq<Resource>>)
    ensures var t := CreateJobs(s, owner, drafts, ids, minted, resources);
      t.Success? ==> JobsContinue(s.jobs, t.value.0.jobs, Those(minted))
    decreases drafts
  {
    hide JobsContinue, CanCreate, Resolve, FreshId, CreateJob;
    SameContinues(s.jobs, Those(minted));
    if drafts != [] && minted != [] && resources != [] && FreshId(s, minted[0]) {
      var deps := Resolve(drafts[0].dependsOn, ids);
      if deps.Some? {
        var s1 := CreateJob(s, owner, drafts[0], deps.value, resources[0], minted[0]);
        CreatedContinues(s, owner, drafts[0], deps.value, resources[0], minted[0]);
        var known := ids[drafts[0].key := minted[0]];
        CreateContinues(s1, owner, drafts[1..], known, minted[1..], resources[1..]);
        if CreateJobs(s1, owner, drafts[1..], known, minted[1..], resources[1..]).Success? {
          ContinueOn(s.jobs, s1.jobs,
            CreateJobs(s1, owner, drafts[1..], known, minted[1..], resources[1..]).value.0.jobs, {minted[0]},
            Those(minted[1..]));
          assert {minted[0]} + Those(minted[1..]) == Those(minted);
        }
      }
    }
  }

  lemma CreatedContinues(s: State, owner: Id, draft: Draft, dependsOn: seq<Id>, resources: seq<Resource>, id: Id)
    requires FreshId(s, id)
    ensures JobsContinue(s.jobs, CreateJob(s, owner, draft, dependsOn, resources, id).jobs, {id})
  {
  }

  lemma ReserveLeavesJobs(s: State, owner: Id, machine: string, approval: Id, minted: seq<Id>)
    ensures var t := ReserveMachine(s, owner, machine, approval, minted); t.Success? ==> t.value.0.jobs == s.jobs
  {
    hide OwnReservations, FreshId;
  }

  lemma FinishLeavesJobs(s: State, owner: Id, r: Id, proofs: set<Integrated>, routed: set<Id>)
    requires r in s.reservations && owner in s.owners
    ensures FinishReservation(s, owner, r, proofs, routed).jobs == s.jobs
  {
    hide Additions, FrontierAt, Announce;
  }

  /** The jobs a request may add, or whose input it may replace. */
  function Touched(action: Action, out: Outside): set<Id> {
    match action
    case Refresh(j, _, _, _) => {j}
    case Submit(_) => Those(out.minted)
    case SubmitBatch(_) => Those(out.minted)
    case _ => {}
  }

  lemma ChangeContinues(s: State, owner: Id, action: Action, out: Outside)
    requires owner in s.owners && (action.Cancel? || action.Refresh?)
    ensures var t := Effect(s, owner, action, out);
      t.Success? ==> JobsContinue(s.jobs, t.value.0.jobs, Touched(action, out))
  {
    hide SameOwners, SameRecords, Replace, JobsContinue, CreateJobs, ReserveMachine, FinishReservation, CanFinish,
      Distinct;
    if Changeable(s, owner, action.job, action.expected) {
      var job := s.jobs[action.job];
      if action.Cancel? {
        ReplaceContinues(s, action.job, job, Canceled, Some(action.reason), out.routed, {});
      } else if |out.resources| == 1 {
        ReplaceContinues(s, action.job, job.(snapshot := action.snapshot, resources := out.resources[0],
          approval := action.approval, readySequence := None), WaitingApproval, None, out.routed, {action.job});
      }
    }
  }

  lemma EffectContinues(s: State, owner: Id, action: Action, out: Outside)
    requires owner in s.owners
    ensures var t := Effect(s, owner, action, out);
      t.Success? ==> JobsContinue(s.jobs, t.value.0.jobs, Touched(action, out))
  {
    if action.Cancel? || action.Refresh? {
      ChangeContinues(s, owner, action, out);
    }
    hide SameOwners, SameRecords, Replace, JobsContinue, CreateJobs, ReserveMachine, FinishReservation, CanFinish,
      Distinct, Changeable, Transition, RefreshJob, FreshId;
    SameContinues(s.jobs, {});
    match action
    case Reserve(machine, approval) => ReserveLeavesJobs(s, owner, machine, approval, out.minted);
    case Submit(draft) => CreateContinues(s, owner, [draft], map[], out.minted, out.resources);
    case SubmitBatch(drafts) => CreateContinues(s, owner, drafts, map[], out.minted, out.resources);
    case Finish(r, expected, _) =>
      if r in s.reservations { FinishLeavesJobs(s, owner, r, out.proofs, out.routed); }
    case _ =>
  }

  lemma PerformContinues(s: State, owner: Id, request: Id, action: Action, out: Outside)
    ensures JobsContinue(s.jobs, Perform(s, owner, request, action, out).0.jobs, Touched(action, out))
  {
    hide Effect, JobsContinue;
    SameContinues(s.jobs, Touched(action, out));
    if owner in s.owners {
      EffectContinues(s, owner, action, out);
    }
  }

  function TouchedBy(op: Op): set<Id> {
    match op
    case Request(_, _, action, out) => Touched(action, out)
    case Start(j, _, _) => {j}
    case _ => {}
  }

  lemma JobOpContinues(norm: Norm, s: State, op: Op)
    requires op.Request? || op.Park? || op.QueueJob? || op.Start? || op.MoveAttempt? || op.SettleAttempt?
    ensures JobsContinue(s.jobs, Next(norm, s, op).jobs, TouchedBy(op))
  {
    hide SameOwners, SameRecords, Perform, CanGrant, Settle, OrSame, MovedAttempt, Grant, Transition, Enqueue,
      JobsContinue;
    SameContinues(s.jobs, TouchedBy(op));
    match op
    case Request(owner, request, action, out) => PerformContinues(s, owner, request, action, out);
    case Park(j, state, reason, routed) => if CanPark(s, j, state) { ParkContinues(s, j, state, reason, routed); }
    case QueueJob(j) => if j in s.jobs && !Terminal(s.jobs[j].state) { QueueContinues(s, j); }
    case Start(j, attempt, routed) => if CanGrant(norm, s, j) { StartContinues(norm, s, j, attempt, routed); }
    case MoveAttempt(j, attempt, state, reason, routed) => MoveContinues(s, j, attempt, state, reason, routed);
    case SettleAttempt(j, attempt, outcome, error, routed) => SettleContinues(s, j, attempt, outcome, error, routed);
  }

  // ---------------------------------------------------------------- lifecycle transactions

  lemma CancelingContinues(jobs: Jobs, o: Id)
    ensures JobsContinue(jobs, CanceledJobs(jobs, o), {})
  {
  }

  lemma {:induction false} FencingContinues(s: State, ids: seq<Id>, command: Command)
    ensures var t := FenceOwners(s, ids, command); t.Success? ==> JobsContinue(s.jobs, t.value.jobs, {})
    decreases ids
  {
    hide JobsContinue, FencedReservations, ParkedEvents, RaisedFence, CanceledJobs, SameRecords;
    SameContinues(s.jobs, {});
    if ids != [] && ids[0] in s.owners {
      var s1 := FenceOwner(s, ids[0], command);
      CancelingContinues(s.jobs, ids[0]);
      FencingContinues(s1, ids[1..], command);
      if FenceOwners(s1, ids[1..], command).Success? {
        ContinueStill(s.jobs, s1.jobs, FenceOwners(s1, ids[1..], command).value.jobs);
      }
    }
  }

  lemma {:induction false} BindingLeavesWork(s: State, ids: seq<Id>, operation: Id)
    ensures var t := BoundFences(s, ids, operation); t.Success? ==> SameWork(s, t.value)
    decreases ids
  {
    hide SameRecords;
    if ids != [] && ids[0] in s.owners && s.owners[ids[0]].fence.Some? {
      var f := s.owners[ids[0]].fence.value;
      BindingLeavesWork(s.(owners := s.owners[ids[0] := s.owners[ids[0]].(fence := Some(f.(operation :=
        Some(operation))))]), ids[1..], operation);
    }
  }

  lemma CompletingOneLeavesJobs(s: State, o: Id, command: Command)
    requires o in s.owners && s.owners[o].fence.Some?
    ensures CompleteOwner(s, o, command).jobs == s.jobs
  {
    hide SameRecords, ReleasedReservations, Completed;
  }

  lemma {:induction false} CompletingLeavesJobs(s: State, bindings: seq<Binding>, command: Command, operation: Id,
      done: bool)
    ensures var t := CompleteOwners(s, bindings, command, operation, done); t.Success? ==> t.value.jobs == s.jobs
    decreases bindings
  {
    hide IdleOwners, CompleteOwner, SameRecords;
    if bindings != [] && bindings[0].id in s.owners {
      var owner := s.owners[bindings[0].id];
      if owner.identity != bindings[0].identity || owner.fence.None? || owner.fence.value.operation != Some(operation) {
        CompletingLeavesJobs(s, bindings[1..], command, operation, done);
      } else {
        CompletingOneLeavesJobs(s, bindings[0].id, command);
        CompletingLeavesJobs(CompleteOwner(s, bindings[0].id, command), bindings[1..], command, operation, done);
      }
    }
  }

  lemma {:induction false} RevivingLeavesWork(s: State, bindings: seq<Binding>, archive: Option<Id>)
    ensures var t := ReviveOwners(s, bindings, archive); t.Success? ==> SameWork(s, t.value)
    decreases bindings
  {
    hide SameRecords;
    if bindings != [] && bindings[0].id in s.owners {
      assert SameWork(s, ReviveOwner(s, bindings[0].id));
      hide ReviveOwner;
      RevivingLeavesWork(ReviveOwner(s, bindings[0].id), bindings[1..], archive);
    }
  }

  lemma SyncLeavesWork(s: State)
    ensures SameWork(s, Sync(s))
  {
    hide SameOwners, SameRecords, WithdrawnClaims;
  }

  lemma BindContinues(s: State, workspace: string, slug: string, command: Command, operation: Id, ids: seq<Id>,
      capacity: bool)
    ensures JobsContinue(s.jobs,
      OrSame(s, BindLifecycle(s, workspace, slug, command, operation, ids, capacity)).jobs, {})
  {
    hide FenceOwners, BoundFences, IdleOwners, Distinct, Sync, Bindings, SameOwners, SameRecords, JobsContinue;
    SameContinues(s.jobs, {});
    SyncLeavesWork(s);
    FencingContinues(s, ids, command);
    if FenceOwners(s, ids, command).Success? {
      var s1 := FenceOwners(s, ids, command).value;
      BindingLeavesWork(s1, ids, operation);
      var s2 := BoundFences(s1, ids, operation);
      if s2.Success? && forall i :: i in ids ==> i in s2.value.owners {
        SyncLeavesWork(s2.value.(lifecycles := s2.value.lifecycles[operation := Lifecycle(workspace, slug, command,
          Bindings(s2.value, ids), None, false)]));
      }
    }
  }

  lemma RaisingContinues(s: State, command: Command, ids: seq<Id>)
    ensures JobsContinue(s.jobs, Fenced(s, command, ids).jobs, {})
  {
    hide FenceOwners, IdleOwners, Distinct, Sync, SameOwners, SameRecords, JobsContinue;
    SameContinues(s.jobs, {});
    FencingContinues(s, ids, command);
    if FenceOwners(s, ids, command).Success? {
      SyncLeavesWork(FenceOwners(s, ids, command).value);
    }
  }

  lemma RevivalLeavesWork(s: State, workspace: string, slug: string, operation: Id, archive: Id, capacity: bool)
    ensures SameWork(s, OrSame(s, BindRevival(s, workspace, slug, operation, archive, capacity)))
  {
    hide Sync, SameOwners, SameRecords;
    SyncLeavesWork(s);
    if archive in s.lifecycles {
      SyncLeavesWork(s.(lifecycles := s.lifecycles[operation := Lifecycle(workspace, slug, Revive,
        s.lifecycles[archive].owners, Some(archive), false)]));
    }
  }

  lemma CompletionLeavesJobs(s: State, workspace: string, slug: string, command: Command, operation: Id)
    ensures OrSame(s, CompleteLifecycle(s, workspace, slug, command, operation)).jobs == s.jobs
  {
    hide CompleteOwners, Sync, SameOwners, SameRecords;
    SyncLeavesWork(s);
    if operation in s.lifecycles {
      var l := s.lifecycles[operation];
      CompletingLeavesJobs(s, l.owners, command, operation, l.completed);
      var s1 := CompleteOwners(s, l.owners, command, operation, l.completed);
      if s1.Success? {
        SyncLeavesWork(s1.value.(lifecycles := s1.value.lifecycles[operation := l.(completed := true)]));
      }
    }
  }

  lemma LiftLeavesWork(s: State, workspace: string, slug: string, operation: Id)
    ensures SameWork(s, OrSame(s, Revived(s, workspace, slug, operation)))
  {
    hide ReviveOwners, Sync, SameOwners, SameRecords;
    SyncLeavesWork(s);
    if operation in s.lifecycles {
      var l := s.lifecycles[operation];
      RevivingLeavesWork(s, l.owners, l.archive);
      var s1 := ReviveOwners(s, l.owners, l.archive);
      if s1.Success? {
        SyncLeavesWork(s1.value.(lifecycles := s1.value.lifecycles[operation := l.(completed := true)]));
      }
    }
  }

  lemma RegisterLeavesWork(s: State, id: Id, record: Owner)
    ensures SameWork(s, Register(s, id, record))
  {
    hide SameRecords, KnownIdentity, SameWork;
    assert SameWork(s, s) && SameWork(s, s.(owners := s.owners[id := record])) by {
      WorkApart(s, s.owners[id := record], s.claims);
    }
  }

  lemma WorkApart(s: State, owners: Owners, claims: Claims)
    ensures SameWork(s, s) && SameWork(s, s.(owners := owners)) && SameWork(s, s.(claims := claims))
  {
  }

  lemma LifecycleOpContinues(norm: Norm, s: State, op: Op)
    requires !Ordinary(op)
    ensures JobsContinue(s.jobs, Next(norm, s, op).jobs, {})
  {
    hide JobsContinue, BindLifecycle, BindRevival, CompleteLifecycle, Revived, Fenced, OrSame, Register;
    SameContinues(s.jobs, {});
    match op
    case RegisterOwner(id, record) => RegisterLeavesWork(s, id, record);
    case RaiseFences(command, ids) => RaisingContinues(s, command, ids);
    case Bind(workspace, slug, command, operation, ids, capacity) =>
      BindContinues(s, workspace, slug, command, operation, ids, capacity);
    case BindRevive(workspace, slug, operation, archive, capacity) =>
      RevivalLeavesWork(s, workspace, slug, operation, archive, capacity);
    case Complete(workspace, slug, command, operation) =>
      CompletionLeavesJobs(s, workspace, slug, command, operation);
    case Lift(workspace, slug, operation) => LiftLeavesWork(s, workspace, slug, operation);
  }

  // ---------------------------------------------------------------- claims and notifications

  lemma AcquireLeavesWork(norm: Norm, s: State, owner: Id, id: Id, request: ClaimRequest, resources: seq<Resource>,
      wait: bool, grant: bool, capacity: bool)
    ensures SameWork(s, Acquire(norm, s, owner, id, request, resources, wait, grant, capacity).0)
  {
    hide Blocked, LiveOwner, SameOwners, SameRecords, SameWork;
    var s1 := NewClaim(s, owner, id, request, resources);
    WorkApart(s, s.owners, s1.claims);
    WorkApart(s, s.owners, SetHeld(s1, id, 1, false).claims);
  }

  lemma TickLeavesWork(norm: Norm, s: State, owner: Id, c: Id)
    ensures SameWork(s, TickClaim(norm, s, owner, c))
  {
    hide Blocked, LiveOwner, SameOwners, SameRecords;
  }

  lemma EndingLeavesWork(s: State, owner: Id, c: Id, release: bool)
    ensures SameWork(s, ChangeClaim(s, owner, c, release).0)
  {
    hide SameOwners, SameRecords, LiveOwner, SameWork;
    WorkApart(s, s.owners, s.claims);
    if c in s.claims {
      WorkApart(s, s.owners, s.claims[c := s.claims[c].(state := if release then Dropped else Withdrawn,
        notify := false, revision := s.claims[c].revision + 1)]);
    }
  }

  lemma EventsLeaveWork(s: State, e: EventId)
    ensures SameWork(s, Deliver(s, e)) && SameWork(s, DeliveryFailed(s, e)) && SameWork(s, Remind(s, e))
  {
    hide LiveOwner, SameOwners, SameRecords;
  }

  lemma NotifyLeavesWork(s: State, owner: Id, c: Id, routed: set<Id>)
    ensures SameWork(s, NotifyClaim(s, owner, c, routed))
  {
    hide LiveOwner, SameOwners, SameRecords, Announce;
  }

  lemma ClearLeavesWork(s: State, c: Id)
    ensures SameWork(s, ClearNotification(s, c))
  {
    hide SameOwners, SameRecords;
  }

  lemma NoticeLeavesWork(s: State, owner: Id, run: Id, generation: Id, complete: bool)
    ensures SameWork(s, NotifyRun(s, owner, run, generation, complete))
  {
    hide LiveOwner, SameOwners, SameRecords, Announce;
  }

  predicate OfJobs(op: Op) {
    op.Request? || op.Park? || op.QueueJob? || op.Start? || op.MoveAttempt? || op.SettleAttempt?
  }

  lemma ClaimOpLeavesWork(norm: Norm, s: State, op: Op)
    requires Ordinary(op) && !OfJobs(op)
    ensures SameWork(s, Next(norm, s, op))
  {
    hide SameOwners, SameRecords, Deliver, DeliveryFailed, NotifyClaim, ClearNotification, NotifyRun, Remind,
      ChangeClaim, Acquire, TickClaim;
    match op
    case SetSuspended(_) =>
    case DeliverEvent(e) => EventsLeaveWork(s, e);
    case FailEvent(e) => EventsLeaveWork(s, e);
    case Reminder(e) => EventsLeaveWork(s, e);
    case AcquireClaim(owner, id, claim, resources, wait, grant, capacity) =>
      AcquireLeavesWork(norm, s, owner, id, claim, resources, wait, grant, capacity);
    case Tick(owner, c) => TickLeavesWork(norm, s, owner, c);
    case EndClaim(owner, c, release) => EndingLeavesWork(s, owner, c, release);
    case Notify(owner, c, routed) => NotifyLeavesWork(s, owner, c, routed);
    case Notified(c) => ClearLeavesWork(s, c);
    case Notice(owner, run, generation, complete) => NoticeLeavesWork(s, owner, run, generation, complete);
  }

  // ---------------------------------------------------------------- reservations

  /**
   Outside the settlement of an attempt a deployment history never changes, what was released stays released, and what
   is blocked by an unknown outcome stays blocked; a new reservation has no history.
   */
  ghost predicate Steady(a: Reservations, b: Reservations) {
    && (forall r :: r in a ==> r in b && SteadyOne(a[r], b[r]))
    && forall r :: r in b && r !in a ==> b[r].history == []
  }

  predicate SteadyOne(a: Reservation, b: Reservation) {
    && b == a.(state := b.state, revision := b.revision) && (a.state == Released ==> b == a)
    && (AnyUnknown(a.history) && a.state == BlockedRecovery ==> b.state == BlockedRecovery)
  }

  lemma SameSteady(a: Reservations)
    ensures Steady(a, a)
  {
  }

  lemma SteadyOn(a: Reservations, b: Reservations, c: Reservations)
    requires Steady(a, b) && Steady(b, c)
    ensures Steady(a, c)
  {
  }

  lemma ReplaceLeaves(s: State, j: Id, job: Job, state: JobState, reason: Option<string>, routed: set<Id>)
    requires job.owner in s.owners
    ensures Replace(s, j, job, state, reason, routed).reservations == s.reservations
  {
    hide SameOwners, SameRecords, Announce, Moved;
  }

  lemma MoveLeaves(s: State, j: Id, attempt: Id, state: JobState, reason: Option<string>, routed: set<Id>)
    ensures MovedAttempt(s, j, attempt, state, reason, routed).reservations == s.reservations
  {
    hide SameOwners, SameRecords, Replace;
    if CurrentAttempt(s, j, attempt) {
      ReplaceLeaves(s, j, s.jobs[j], state, reason, routed);
    }
  }

  lemma ParkLeaves(s: State, j: Id, state: JobState, reason: Option<string>, routed: set<Id>)
    requires KnownJob(s, j)
    ensures Transition(s, j, state, reason, routed).reservations == s.reservations
  {
    hide SameOwners, SameRecords, Replace;
    ReplaceLeaves(s, j, s.jobs[j], state, reason, routed);
  }

  lemma QueueLeaves(s: State, j: Id)
    requires j in s.jobs
    ensures Enqueue(s, j).reservations == s.reservations
  {
    hide SameOwners, SameRecords;
  }

  lemma GrantSteady(s: State, j: Id, attempt: Id, routed: set<Id>)
    requires KnownJob(s, j)
    ensures Steady(s.reservations, Grant(s, j, attempt, routed).reservations)
  {
    hide SameOwners, SameRecords, Announce, Moved;
  }

  lemma FinishSteady(s: State, owner: Id, r: Id, expected: nat, proofs: set<Integrated>, routed: set<Id>)
    requires CanFinish(s, owner, r, expected) && owner in s.owners
    ensures Steady(s.reservations, FinishReservation(s, owner, r, proofs, routed).reservations)
  {
    hide Additions, FrontierAt, Announce;
  }

  lemma ReserveAdds(s: State, owner: Id, machine: string, approval: Id, minted: seq<Id>)
    ensures var t := ReserveMachine(s, owner, machine, approval, minted);
      t.Success? && t.value.0.reservations != s.reservations ==>
        && |minted| == 1 && minted[0] !in s.reservations
        && t.value.0.reservations == s.reservations[minted[0] := Reservation(owner, machine, Requested, 1, s.next, [])]
  {
    hide OwnReservations;
  }

  lemma ReserveSteady(s: State, owner: Id, machine: string, approval: Id, minted: seq<Id>)
    ensures var t := ReserveMachine(s, owner, machine, approval, minted);
      t.Success? ==> Steady(s.reservations, t.value.0.reservations)
  {
    hide ReserveMachine, AnyUnknown;
    ReserveAdds(s, owner, machine, approval, minted);
    SameSteady(s.reservations);
  }

  lemma ChangeLeaves(s: State, owner: Id, action: Action, out: Outside)
    requires owner in s.owners && (action.Cancel? || action.Refresh?)
    ensures var t := Effect(s, owner, action, out); t.Success? ==> t.value.0.reservations == s.reservations
  {
    hide SameOwners, SameRecords, Replace, CreateJobs, ReserveMachine, FinishReservation, CanFinish, Distinct;
    if Changeable(s, owner, action.job, action.expected) {
      var job := s.jobs[action.job];
      if action.Cancel? {
        ReplaceLeaves(s, action.job, job, Canceled, Some(action.reason), out.routed);
      } else if |out.resources| == 1 {
        ReplaceLeaves(s, action.job, job.(snapshot := action.snapshot, resources := out.resources[0],
          approval := action.approval, readySequence := None), WaitingApproval, None, out.routed);
      }
    }
  }

  lemma EffectSteady(s: State, owner: Id, action: Action, out: Outside)
    requires owner in s.owners
    ensures var t := Effect(s, owner, action, out); t.Success? ==> Steady(s.reservations, t.value.0.reservations)
  {
    hide SameOwners, SameRecords, Replace, Steady, CreateJobs, ReserveMachine, FinishReservation, CanFinish, Distinct,
      Changeable, Transition, RefreshJob, FreshId;
    SameSteady(s.reservations);
    if action.Cancel? || action.Refresh? {
      ChangeLeaves(s, owner, action, out);
    } else if action.Reserve? {
      ReserveSteady(s, owner, action.machine, action.approval, out.minted);
    } else if action.Finish? && CanFinish(s, owner, action.reservation, action.expected) {
      FinishSteady(s, owner, action.reservation, action.expected, out.proofs, out.routed);
    }
  }

  lemma PerformSteady(s: State, owner: Id, request: Id, action: Action, out: Outside)
    ensures Steady(s.reservations, Perform(s, owner, request, action, out).0.reservations)
  {
    hide Effect, Steady;
    SameSteady(s.reservations);
    if owner in s.owners {
      EffectSteady(s, owner, action, out);
    }
  }

  lemma JobOpSteady(norm: Norm, s: State, op: Op)
    requires OfJobs(op) && !op.SettleAttempt?
    ensures Steady(s.reservations, Next(norm, s, op).reservations)
  {
    hide SameOwners, SameRecords, Perform, CanGrant, Settle, OrSame, MovedAttempt, Grant, Transition, Enqueue, Steady;
    SameSteady(s.reservations);
    match op
    case Request(owner, request, action, out) => PerformSteady(s, owner, request, action, out);
    case Park(j, state, reason, routed) => if CanPark(s, j, state) { ParkLeaves(s, j, state, reason, routed); }
    case QueueJob(j) => if j in s.jobs { QueueLeaves(s, j); }
    case Start(j, attempt, routed) =>
      if CanGrant(norm, s, j) {
        GrantKnown(norm, s, j);
        GrantSteady(s, j, attempt, routed);
      }
    case MoveAttempt(j, attempt, state, reason, routed) => MoveLeaves(s, j, attempt, state, reason, routed);
  }

  lemma GrantKnown(norm: Norm, s: State, j: Id)
    requires CanGrant(norm, s, j)
    ensures KnownJob(s, j)
  {
  }

  lemma FencedSteady(a: Reservations, b: Reservations, ids: set<Id>, command: Command)
    requires ReservationsFenced(a, b, ids, command)
    requires forall r :: r in a && a[r].state == Requested ==> a[r].history == []
    ensures Steady(a, b)
  {
  }

  lemma RaisingSteady(s: State, command: Command, ids: seq<Id>)
    requires forall r :: r in s.reservations && s.reservations[r].state == Requested ==> s.reservations[r].history == []
    ensures Steady(s.reservations, Fenced(s, command, ids).reservations)
  {
    hide Fenced, MayBeFenced, OwnersFenced, JobsFenced, ReservationsFenced, EventsFenced, ClaimsWithdrawn, Steady;
    FenceMeans(s, command, ids);
    SameSteady(s.reservations);
    if MayBeFenced(s, command, ids) {
      FencedSteady(s.reservations, Fenced(s, command, ids).reservations, Those(ids), command);
    }
  }

  lemma BindSteady(s: State, workspace: string, slug: string, command: Command, operation: Id, ids: seq<Id>,
      capacity: bool)
    requires forall r :: r in s.reservations && s.reservations[r].state == Requested ==> s.reservations[r].history == []
    ensures Steady(s.reservations,
      OrSame(s, BindLifecycle(s, workspace, slug, command, operation, ids, capacity)).reservations)
  {
    SameSteady(s.reservations);
    SyncLeavesWork(s);
    if operation !in s.lifecycles && ids != [] {
      hide MayBeFenced, ReservationsFenced, Steady, BindLifecycle;
      if BindLifecycle(s, workspace, slug, command, operation, ids, capacity).Success? {
        BindMeans(s, workspace, slug, command, operation, ids, capacity);
        hide FencesBound, JobsFenced, EventsFenced, ClaimsWithdrawn, ReceiptOf, SameRecords;
        FencedSteady(s.reservations,
          BindLifecycle(s, workspace, slug, command, operation, ids, capacity).value.reservations, Those(ids), command);
      }
    } else {
      hide Sync, Steady, FenceOwners, BoundFences;
    }
  }

  lemma CompleteOneSteady(s: State, o: Id, command: Command)
    requires o in s.owners && s.owners[o].fence.Some? && (command.Archive? ==> IdleOwners(s, {o}))
    ensures Steady(s.reservations, CompleteOwner(s, o, command).reservations)
  {
    hide SameRecords, Completed, AnyUnknown;
    SameSteady(s.reservations);
  }

  lemma {:induction false} CompletingSteady(s: State, bindings: seq<Binding>, command: Command, operation: Id,
      done: bool)
    ensures var t := CompleteOwners(s, bindings, command, operation, done);
      t.Success? ==> Steady(s.reservations, t.value.reservations)
    decreases bindings
  {
    hide IdleOwners, CompleteOwner, SameRecords, Steady;
    SameSteady(s.reservations);
    if bindings != [] && bindings[0].id in s.owners {
      var owner := s.owners[bindings[0].id];
      if owner.identity != bindings[0].identity || owner.fence.None? || owner.fence.value.operation != Some(operation) {
        CompletingSteady(s, bindings[1..], command, operation, done);
      } else if !command.Archive? || IdleOwners(s, {bindings[0].id}) {
        var s1 := CompleteOwner(s, bindings[0].id, command);
        CompleteOneSteady(s, bindings[0].id, command);
        CompletingSteady(s1, bindings[1..], command, operation, done);
        if CompleteOwners(s1, bindings[1..], command, operation, done).Success? {
          SteadyOn(s.reservations, s1.reservations,
            CompleteOwners(s1, bindings[1..], command, operation, done).value.reservations);
        }
      }
    }
  }

  lemma CompletionSteady(s: State, workspace: string, slug: string, command: Command, operation: Id)
    ensures Steady(s.reservations,
      OrSame(s, CompleteLifecycle(s, workspace, slug, command, operation)).reservations)
  {
    hide CompleteOwners, Sync, SameOwners, SameRecords, Steady;
    SameSteady(s.reservations);
    SyncLeavesWork(s);
    if operation in s.lifecycles {
      var l := s.lifecycles[operation];
      CompletingSteady(s, l.owners, command, operation, l.completed);
      var s1 := CompleteOwners(s, l.owners, command, operation, l.completed);
      if s1.Success? {
        SyncLeavesWork(s1.value.(lifecycles := s1.value.lifecycles[operation := l.(completed := true)]));
      }
    }
  }

  lemma LifecycleOpSteady(norm: Norm, s: State, op: Op)
    requires !Ordinary(op)
    requires forall r :: r in s.reservations && s.reservations[r].state == Requested ==> s.reservations[r].history == []
    ensures Steady(s.reservations, Next(norm, s, op).reservations)
  {
    hide Steady, BindLifecycle, BindRevival, CompleteLifecycle, Revived, Fenced, OrSame, Register;
    SameSteady(s.reservations);
    match op
    case RegisterOwner(id, record) => RegisterLeavesWork(s, id, record);
    case RaiseFences(command, ids) => RaisingSteady(s, command, ids);
    case Bind(workspace, slug, command, operation, ids, capacity) =>
      BindSteady(s, workspace, slug, command, operation, ids, capacity);
    case BindRevive(workspace, slug, operation, archive, capacity) =>
      RevivalLeavesWork(s, workspace, slug, operation, archive, capacity);
    case Complete(workspace, slug, command, operation) => CompletionSteady(s, workspace, slug, command, operation);
    case Lift(workspace, slug, operation) => LiftLeavesWork(s, workspace, slug, operation);
  }

  lemma NextSteady(norm: Norm, s: State, op: Op)
    requires Sound(norm, s) && !op.SettleAttempt?
    ensures Steady(s.reservations, Next(norm, s, op).reservations)
  {
    hide Steady, Next;
    if !Ordinary(op) {
      hide JobsSound, MachinesExclusive, JobsExclusive, ProtocolsExclusive, ClaimsExclusive, ClaimsSound, FencedQuiet,
        EventsSound, LifecyclesSound, Bound;
      LifecycleOpSteady(norm, s, op);
    } else if OfJobs(op) {
      JobOpSteady(norm, s, op);
    } else {
      ClaimOpLeavesWork(norm, s, op);
      SameSteady(s.reservations);
    }
  }

  /** No transaction forgets a job, gives it to somebody else, changes what it waits for, or revives it once ended. */
  lemma NextContinues(norm: Norm, s: State, op: Op)
    ensures JobsContinue(s.jobs, Next(norm, s, op).jobs, TouchedBy(op))
  {
    hide JobsContinue, Next;
    if !Ordinary(op) {
      LifecycleOpContinues(norm, s, op);
    } else if OfJobs(op) {
      JobOpContinues(norm, s, op);
    } else {
      ClaimOpLeavesWork(norm, s, op);
      SameContinues(s.jobs, {});
    }
  }

  function TouchedIn(ops: seq<Op>): set<Id>
    decreases ops
  {
    if ops == [] then {} else TouchedBy(ops[0]) + TouchedIn(ops[1..])
  }

  lemma {:induction false} RunContinues(norm: Norm, s: State, ops: seq<Op>)
    ensures JobsContinue(s.jobs, Run(norm, s, ops).jobs, TouchedIn(ops))
    decreases ops
  {
    hide JobsContinue, Next;
    if ops == [] {
      SameContinues(s.jobs, {});
    } else {
      NextContinues(norm, s, ops[0]);
      RunContinues(norm, Next(norm, s, ops[0]), ops[1..]);
      ContinueOn(s.jobs, Next(norm, s, ops[0]).jobs, Run(norm, s, ops).jobs, TouchedBy(ops[0]), TouchedIn(ops[1..]));
    }
  }
}
