/**
 Whole runs of the ledger: every locked transaction is an operation, a run is any
 sequence of them from the empty ledger, and the safety properties hold in every
 state a run can reach.
 */
module LedgerRuns {
  import opened Wrappers
  import opened MachinePolicy
  import opened Ledger
  import opened LedgerInvariant
  import opened LedgerSafety
  import opened LedgerFencing
  import opened LedgerClaims

  /** Parking, queueing and starting a job are the steps of a scheduler pass; the others are whole transactions. */
  datatype Op =
    | RegisterOwner(id: Id, record: Owner)
    | SetSuspended(on: bool)
    | Request(owner: Id, request: Id, action: Action, out: Outside)
    | Park(job: Id, state: JobState, reason: Option<string>, routed: set<Id>)
    | QueueJob(job: Id)
    | Start(job: Id, attempt: Id, routed: set<Id>)
    | MoveAttempt(job: Id, attempt: Id, state: JobState, reason: Option<string>, routed: set<Id>)
    | SettleAttempt(job: Id, attempt: Id, outcome: Outcome, error: Option<string>, routed: set<Id>)
    | RaiseFences(command: Command, ids: seq<Id>)
    | Bind(workspace: string, slug: string, command: Command, operation: Id, ids: seq<Id>, capacity: bool)
    | BindRevive(workspace: string, slug: string, operation: Id, archive: Id, capacity: bool)
    | Complete(workspace: string, slug: string, command: Command, operation: Id)
    | Lift(workspace: string, slug: string, operation: Id)
    | DeliverEvent(event: EventId)
    | FailEvent(event: EventId)
    | AcquireClaim(owner: Id, id: Id, claim: ClaimRequest, resources: seq<Resource>, wait: bool, grant: bool,
      capacity: bool)
    | Tick(owner: Id, claimId: Id)
    | EndClaim(owner: Id, claimId: Id, release: bool)
    | Notify(owner: Id, claimId: Id, routed: set<Id>)
    | Notified(claimId: Id)
    | Notice(owner: Id, run: Id, generation: Id, complete: bool)
    | Reminder(event: EventId)

  /** A refused transaction changes nothing. */
  function OrSame(s: State, r: Result<State>): State {
    match r case Success(t) => t case Refused(_) => s
  }

  predicate KnownIdentity(s: State, identity: Id) {
    exists o :: o in s.owners && s.owners[o].identity == identity
  }

  function Register(s: State, id: Id, record: Owner): (r: State)
    ensures SameRecords(s, r)
  {
    if id in s.owners || record.fence.Some? || KnownIdentity(s, record.identity) then s
    else s.(owners := s.owners[id := record])
  }

  /** The worker, its supervisor or a lost reply moves a current attempt. */
  function MovedAttempt(s: State, j: Id, attempt: Id, state: JobState, reason: Option<string>,
      routed: set<Id>): (r: State)
    ensures SameOwners(s, r) && SameRecords(s, r)
  {
    if CurrentAttempt(s, j, attempt) && (state.Reconciling? || (state.Running? && s.jobs[j].state.Claimed?)) then
      Transition(s, j, state, reason, routed)
    else s
  }

  predicate MayFence(s: State, command: Command, ids: seq<Id>) {
    !command.Revive? && Distinct(ids) && IdleOwners(s, set i | i in ids) && FenceOwners(s, ids, command).Success?
  }

  function Fenced(s: State, command: Command, ids: seq<Id>): (r: State)
    ensures SameRecords(s, r)
  {
    if MayFence(s, command, ids)
    then Sync(FenceOwners(s, ids, command).value) else s
  }

  function Next(norm: Norm, s: State, op: Op): State {
    match op
    case RegisterOwner(id, record) => Register(s, id, record)
    case SetSuspended(on) => s.(suspended := on)
    case Request(owner, request, action, out) => Perform(s, owner, request, action, out).0
    case Park(j, state, reason, routed) => if CanPark(s, j, state) then Transition(s, j, state, reason, routed) else s
    case QueueJob(j) => if j in s.jobs && !Terminal(s.jobs[j].state) && !Active(s.jobs[j].state) then Enqueue(s, j)
      else s
    case Start(j, attempt, routed) => if CanGrant(norm, s, j) then Grant(s, j, attempt, routed) else s
    case MoveAttempt(j, attempt, state, reason, routed) => MovedAttempt(s, j, attempt, state, reason, routed)
    case SettleAttempt(j, attempt, outcome, error, routed) => OrSame(s, Settle(s, j, attempt, outcome, error, routed))
    case RaiseFences(command, ids) => Fenced(s, command, ids)
    case Bind(workspace, slug, command, operation, ids, capacity) =>
      OrSame(s, BindLifecycle(s, workspace, slug, command, operation, ids, capacity))
    case BindRevive(workspace, slug, operation, archive, capacity) =>
      OrSame(s, BindRevival(s, workspace, slug, operation, archive, capacity))
    case Complete(workspace, slug, command, operation) =>
      OrSame(s, CompleteLifecycle(s, workspace, slug, command, operation))
    case Lift(workspace, slug, operation) => OrSame(s, Revived(s, workspace, slug, operation))
    case DeliverEvent(e) => Deliver(s, e)
    case FailEvent(e) => DeliveryFailed(s, e)
    case AcquireClaim(owner, id, claim, resources, wait, grant, capacity) =>
      Acquire(norm, s, owner, id, claim, resources, wait, grant, capacity).0
    case Tick(owner, c) => TickClaim(norm, s, owner, c)
    case EndClaim(owner, c, release) => ChangeClaim(s, owner, c, release).0
    case Notify(owner, c, routed) => NotifyClaim(s, owner, c, routed)
    case Notified(c) => ClearNotification(s, c)
    case Notice(owner, run, generation, complete) => NotifyRun(s, owner, run, generation, complete)
    case Reminder(e) => Remind(s, e)
  }

  function Run(norm: Norm, s: State, ops: seq<Op>): State
    decreases ops
  {
    if ops == [] then s else Run(norm, Next(norm, s, ops[0]), ops[1..])
  }

  lemma {:induction false} RunAppend(norm: Norm, s: State, ops: seq<Op>, op: Op)
    ensures Run(norm, s, ops + [op]) == Next(norm, Run(norm, s, ops), op)
    decreases ops
  {
    hide Next;
    if ops == [] {
      assert ([] + [op])[1..] == [];
    } else {
      assert (ops + [op])[1..] == ops[1..] + [op];
      RunAppend(norm, Next(norm, s, ops[0]), ops[1..], op);
    }
  }

  lemma {:induction false} RunConcat(norm: Norm, s: State, a: seq<Op>, b: seq<Op>)
    ensures Run(norm, s, a + b) == Run(norm, Run(norm, s, a), b)
    decreases a
  {
    hide Next;
    if a == [] {
      assert a + b == b;
    } else {
      assert (a + b)[1..] == a[1..] + b;
      RunConcat(norm, Next(norm, s, a[0]), a[1..], b);
    }
  }

  ghost predicate Sound(norm: Norm, s: State) {
    Inv(norm, s) && Bound(s.owners, s.lifecycles)
  }

  // ---------------------------------------------------------------- every step keeps the invariant

  lemma RegisterKeeps(norm: Norm, s: State, id: Id, record: Owner)
    requires Sound(norm, s)
    ensures var t := Register(s, id, record); Sound(norm, t) && (Silent(s) ==> Silent(t))
  {
    if Register(s, id, record) != s {
      var b := s.owners[id := record];
      RegisteredParts(s.owners, b, s.next, s.reservations, s.jobs, s.claims, id);
      RegisteredEvents(s.owners, b, s.outbox, s.lifecycles, id);
      hide JobsSound, ReservationsSound, MachinesExclusive, JobsExclusive, ProtocolsExclusive, ClaimsExclusive,
        ClaimsSound, FencedQuiet, EventsSound, LifecyclesSound, QuietOutbox;
    }
  }

  lemma RegisteredParts(a: Owners, b: Owners, next: nat, reservations: Reservations, jobs: Jobs, claims: Claims, id: Id)
    requires id !in a && id in b && b == a[id := b[id]] && b[id].fence.None?
    requires JobsSound(a, next, reservations, jobs) && ReservationsSound(a, next, reservations)
    requires ClaimsSound(a, claims)
    requires FencedQuiet(a, jobs, claims, reservations)
    ensures JobsSound(b, next, reservations, jobs) && ReservationsSound(b, next, reservations) && ClaimsSound(b, claims)
    ensures FencedQuiet(b, jobs, claims, reservations)
  {
    forall j | j in jobs ensures JobSound(b, next, reservations, jobs, jobs[j]) {
      assert JobSound(a, next, reservations, jobs, jobs[j]);
    }
  }

  lemma RegisteredEvents(a: Owners, b: Owners, outbox: Outbox, lifecycles: map<Id, Lifecycle>, id: Id)
    requires id !in a && id in b && b == a[id := b[id]] && b[id].fence.None?
    requires EventsSound(a, outbox) && LifecyclesSound(a, lifecycles)
    ensures EventsSound(b, outbox) && LifecyclesSound(b, lifecycles)
    ensures QuietOutbox(a, outbox) ==> QuietOutbox(b, outbox)
  {
    forall l | l in lifecycles ensures BindingsKnown(b, lifecycles[l].owners) {
      assert BindingsKnown(a, lifecycles[l].owners);
    }
  }

  lemma MovedAttemptKeeps(norm: Norm, s: State, j: Id, attempt: Id, state: JobState, reason: Option<string>,
      routed: set<Id>)
    requires Inv(norm, s)
    ensures var t := MovedAttempt(s, j, attempt, state, reason, routed); Inv(norm, t) && (Silent(s) ==> Silent(t))
  {
    hide Inv, Silent;
    if MovedAttempt(s, j, attempt, state, reason, routed) != s {
      PendingUnfenced(norm, s, j);
      ReplaceKeeps(norm, s, j, s.jobs[j], state, reason, routed);
    }
  }

  lemma FencedKeeps(norm: Norm, s: State, command: Command, ids: seq<Id>)
    requires Sound(norm, s)
    ensures var t := Fenced(s, command, ids); Sound(norm, t) && (Silent(s) ==> Silent(t))
  {
    var t := FenceOwners(s, ids, command);
    SyncIdle(norm, s);
    hide Inv, Silent, Sync, IdleOwners, FenceOwners, Bound;
    if !command.Revive? && IdleOwners(s, set i | i in ids) && t.Success? {
      FenceOwnersKeep(norm, s, ids, command);
      FenceOwnersLifecycles(s, ids, command);
      SyncKeeps(t.value);
      FenceOwnersStayBound(s, ids, command, s.lifecycles);
    }
  }

  lemma SyncKeeps(s: State)
    ensures Silent(Sync(s)) == Silent(s) && Sync(s).owners == s.owners && Sync(s).lifecycles == s.lifecycles
  {
  }

  lemma {:induction false} FenceOwnersStayBound(s: State, ids: seq<Id>, command: Command,
      lifecycles: map<Id, Lifecycle>)
    requires Bound(s.owners, lifecycles)
    ensures var t := FenceOwners(s, ids, command); t.Success? ==> Bound(t.value.owners, lifecycles)
    decreases ids
  {
    hide Bound, FenceOwner, FencedFor;
    if ids != [] && ids[0] in s.owners {
      FenceOwnerBound(s, ids[0], command, lifecycles, ids[0]);
      FenceOwnersStayBound(FenceOwner(s, ids[0], command), ids[1..], command, lifecycles);
    }
  }

  /** The operations that touch neither owners nor lifecycles. */
  predicate Ordinary(op: Op) {
    !op.RegisterOwner? && !op.RaiseFences? && !op.Bind? && !op.BindRevive? && !op.Complete? && !op.Lift?
  }

  lemma EffectFrame(s: State, owner: Id, action: Action, out: Outside)
    requires owner in s.owners
    ensures var t := Effect(s, owner, action, out); t.Success? ==> SameOwners(s, t.value.0)
  {
    hide CreateJobs, CanFinish, Changeable, Moved, Announce, Additions, OwnReservations, Distinct, FreshId, FrontierAt;
  }

  lemma PerformFrame(s: State, owner: Id, request: Id, action: Action, out: Outside)
    ensures SameOwners(s, Perform(s, owner, request, action, out).0)
  {
    hide Effect;
    if owner in s.owners {
      EffectFrame(s, owner, action, out);
    }
  }

  lemma OrdinaryFrame(norm: Norm, s: State, op: Op)
    requires Ordinary(op)
    ensures SameOwners(s, Next(norm, s, op))
  {
    hide CanGrant, CanPark, Perform, Settle, MovedAttempt, TickClaim, Acquire, ChangeClaim, NotifyClaim,
      ClearNotification, Deliver, DeliveryFailed, Enqueue, Grant, Transition, NotifyRun, Remind;
    if op.Request? {
      PerformFrame(s, op.owner, op.request, op.action, op.out);
    }
  }

  lemma OrdinaryKeeps(norm: Norm, s: State, op: Op)
    requires Inv(norm, s) && Ordinary(op)
    ensures Inv(norm, Next(norm, s, op))
    ensures Silent(s) && !(op.FailEvent? && StaleRetry(s, op.event)) ==> Silent(Next(norm, s, op))
  {
    hide Inv, Silent, CanGrant, CanPark, Perform, Settle, MovedAttempt, TickClaim, Acquire, ChangeClaim, NotifyClaim,
      ClearNotification, Deliver, DeliveryFailed, StaleRetry, Enqueue, Grant, Transition, NotifyRun, Remind;
    match op
    case SetSuspended(on) => SuspendKeeps(norm, s, on);
    case Request(owner, request, action, out) => PerformKeeps(norm, s, owner, request, action, out);
    case Park(j, state, reason, routed) => if CanPark(s, j, state) { ParkKeeps(norm, s, j, state, reason, routed); }
    case QueueJob(j) => if j in s.jobs && !Terminal(s.jobs[j].state) && !Active(s.jobs[j].state) { EnqueueKeeps(norm, s,
      j); }
    case Start(j, attempt, routed) => if CanGrant(norm, s, j) { GrantKeeps(norm, s, j, attempt, routed); }
    case MoveAttempt(j, attempt, state, reason, routed) =>
      MovedAttemptKeeps(norm, s, j, attempt, state, reason, routed);
    case SettleAttempt(j, attempt, outcome, error, routed) => SettleKeeps(norm, s, j, attempt, outcome, error, routed);
    case DeliverEvent(e) => DeliverKeeps(norm, s, e);
    case FailEvent(e) => FailKeeps(norm, s, e);
    case AcquireClaim(owner, id, claim, resources, wait, grant, capacity) =>
      AcquireKeeps(norm, s, owner, id, claim, resources, wait, grant, capacity);
    case Tick(owner, c) => TickKeeps(norm, s, owner, c);
    case EndClaim(owner, c, release) => ChangeKeeps(norm, s, owner, c, release);
    case Notify(owner, c, routed) => NotifyKeeps(norm, s, owner, c, routed);
    case Notified(c) => ClearKeeps(norm, s, c);
    case Notice(owner, run, generation, complete) => NotifyRunKeeps(norm, s, owner, run, generation, complete);
    case Reminder(e) => RemindKeeps(norm, s, e);
  }

  lemma SuspendKeeps(norm: Norm, s: State, on: bool)
    requires Inv(norm, s)
    ensures Inv(norm, s.(suspended := on)) && (Silent(s) ==> Silent(s.(suspended := on)))
  {
  }

  lemma FailKeeps(norm: Norm, s: State, e: EventId)
    requires Inv(norm, s)
    ensures Inv(norm, DeliveryFailed(s, e))
    ensures Silent(s) && !StaleRetry(s, e) ==> Silent(DeliveryFailed(s, e))
  {
    hide JobsSound, ReservationsSound, MachinesExclusive, JobsExclusive, ProtocolsExclusive, ClaimsExclusive,
      ClaimsSound, FencedQuiet, LifecyclesSound, QuietOutbox, StaleRetry;
    if Silent(s) {
      RetryExact(s, e);
    }
  }

  lemma NextKeeps(norm: Norm, s: State, op: Op)
    requires Sound(norm, s)
    ensures Sound(norm, Next(norm, s, op))
    ensures Silent(s) && !(op.FailEvent? && StaleRetry(s, op.event)) ==> Silent(Next(norm, s, op))
  {
    hide Inv, Silent, Bound, StaleRetry, Register, Fenced, BindLifecycle, BindRevival, CompleteLifecycle, Revived;
    if Ordinary(op) {
      OrdinaryKeeps(norm, s, op);
      OrdinaryFrame(norm, s, op);
    } else {
      LifecycleKeeps(norm, s, op);
    }
  }

  lemma LifecycleKeeps(norm: Norm, s: State, op: Op)
    requires Sound(norm, s) && !Ordinary(op)
    ensures Sound(norm, Next(norm, s, op)) && (Silent(s) ==> Silent(Next(norm, s, op)))
  {
    hide Inv, Silent, Bound, Register, Fenced, BindLifecycle, BindRevival, CompleteLifecycle, Revived;
    match op
    case RegisterOwner(id, record) => RegisterKeeps(norm, s, id, record);
    case RaiseFences(command, ids) => FencedKeeps(norm, s, command, ids);
    case Bind(workspace, slug, command, operation, ids, capacity) =>
      BindLifecycleKeeps(norm, s, workspace, slug, command, operation, ids, capacity);
      BindLifecycleBound(s, workspace, slug, command, operation, ids, capacity);
    case BindRevive(workspace, slug, operation, archive, capacity) =>
      BindRevivalKeeps(norm, s, workspace, slug, operation, archive, capacity);
      BindRevivalBound(s, workspace, slug, operation, archive, capacity);
    case Complete(workspace, slug, command, operation) =>
      CompleteLifecycleKeeps(norm, s, workspace, slug, command, operation);
    case Lift(workspace, slug, operation) => RevivedKeeps(norm, s, workspace, slug, operation);
  }

  lemma BindRevivalBound(s: State, workspace: string, slug: string, operation: Id, archive: Id, capacity: bool)
    requires Bound(s.owners, s.lifecycles)
    ensures var t := BindRevival(s, workspace, slug, operation, archive, capacity); t.Success? ==>
      Bound(t.value.owners, t.value.lifecycles)
  {
    hide Bound, WithdrawnClaims;
    if operation !in s.lifecycles && archive in s.lifecycles {
      AddLifecycle(s.owners, s.lifecycles, operation,
        Lifecycle(workspace, slug, Revive, s.lifecycles[archive].owners, Some(archive), false));
    }
  }

  lemma AddLifecycle(owners: Owners, lifecycles: map<Id, Lifecycle>, operation: Id, l: Lifecycle)
    requires Bound(owners, lifecycles) && operation !in lifecycles
    ensures Bound(owners, lifecycles[operation := l])
  {
  }

  /** No delivery of the run failed after the same event had been delivered and its owner fenced. */
  predicate NoStaleRetry(norm: Norm, s: State, ops: seq<Op>)
    decreases ops
  {
    ops == [] || (!(ops[0].FailEvent? && StaleRetry(s, ops[0].event))
      && NoStaleRetry(norm, Next(norm, s, ops[0]), ops[1..]))
  }

  /** Every reachable state is sound; fenced owners stay silent unless a late failure wakes them. */
  lemma {:induction false} RunKeeps(norm: Norm, s: State, ops: seq<Op>)
    requires Sound(norm, s)
    ensures Sound(norm, Run(norm, s, ops))
    ensures Silent(s) && NoStaleRetry(norm, s, ops) ==> Silent(Run(norm, s, ops))
    decreases ops
  {
    hide Sound, Silent, Next, StaleRetry;
    if ops != [] {
      NextKeeps(norm, s, ops[0]);
      RunKeeps(norm, Next(norm, s, ops[0]), ops[1..]);
    }
  }
}
