/**
 The order of the claim queue over every transaction of the ledger
 (libexec/workspace-coordination-claims.rb).
 */
module LedgerQueue {
  import opened Wrappers
  import opened MachinePolicy
  import opened Ledger
  import opened LedgerInvariant
  import opened LedgerClaims
  import opened LedgerRuns

  /** Only claims that were held are held afterwards. */
  ghost predicate GrantsNothing(a: Claims, b: Claims) {
    forall c :: c in b && b[c].state.Held? ==> c in a && a[c].state.Held?
  }

  lemma {:induction false} FencingGrantsNothing(s: State, ids: seq<Id>, command: Command)
    ensures var t := FenceOwners(s, ids, command); t.Success? ==> t.value.claims == s.claims
    decreases ids
  {
    if ids != [] && ids[0] in s.owners {
      assert FenceOwner(s, ids[0], command).claims == s.claims;
      hide FenceOwner;
      FencingGrantsNothing(FenceOwner(s, ids[0], command), ids[1..], command);
    }
  }

  lemma {:induction false} BindingGrantsNothing(s: State, ids: seq<Id>, operation: Id)
    ensures var t := BoundFences(s, ids, operation); t.Success? ==> t.value.claims == s.claims
    decreases ids
  {
    if ids != [] && ids[0] in s.owners && s.owners[ids[0]].fence.Some? {
      var f := s.owners[ids[0]].fence.value;
      var next := s.(owners := s.owners[ids[0] := s.owners[ids[0]].(fence := Some(f.(operation := Some(operation))))]);
      BindingGrantsNothing(next, ids[1..], operation);
    }
  }

  lemma CompletingOneGrantsNothing(s: State, o: Id, command: Command)
    requires o in s.owners && s.owners[o].fence.Some?
    ensures CompleteOwner(s, o, command).claims == s.claims
  {
  }

  lemma {:induction false} CompletingGrantsNothing(s: State, bindings: seq<Binding>, command: Command, operation: Id,
      done: bool)
    ensures var t := CompleteOwners(s, bindings, command, operation, done); t.Success? ==> t.value.claims == s.claims
    decreases bindings
  {
    hide IdleOwners, CompleteOwner;
    if bindings != [] && bindings[0].id in s.owners {
      var owner := s.owners[bindings[0].id];
      if owner.identity != bindings[0].identity || owner.fence.None? || owner.fence.value.operation != Some(operation) {
        CompletingGrantsNothing(s, bindings[1..], command, operation, done);
      } else {
        CompletingOneGrantsNothing(s, bindings[0].id, command);
        CompletingGrantsNothing(CompleteOwner(s, bindings[0].id, command), bindings[1..], command, operation, done);
      }
    }
  }

  lemma {:induction false} RevivingGrantsNothing(s: State, bindings: seq<Binding>, archive: Option<Id>)
    ensures var t := ReviveOwners(s, bindings, archive); t.Success? ==> t.value.claims == s.claims
    decreases bindings
  {
    if bindings != [] && bindings[0].id in s.owners {
      assert ReviveOwner(s, bindings[0].id).claims == s.claims;
      hide ReviveOwner;
      RevivingGrantsNothing(ReviveOwner(s, bindings[0].id), bindings[1..], archive);
    }
  }

  lemma EffectGrantsNothing(s: State, owner: Id, action: Action, out: Outside)
    requires owner in s.owners
    ensures var t := Effect(s, owner, action, out); t.Success? ==> t.value.0.claims == s.claims
  {
    hide CreateJobs, CanFinish, Changeable, Moved, Announce, Additions, OwnReservations, Distinct, FreshId, FrontierAt;
  }

  lemma PerformGrantsNothing(s: State, owner: Id, request: Id, action: Action, out: Outside)
    ensures Perform(s, owner, request, action, out).0.claims == s.claims
  {
    if owner in s.owners {
      EffectGrantsNothing(s, owner, action, out);
    }
    hide Effect;
  }

  lemma SyncGrantsNothing(s: State)
    ensures GrantsNothing(s.claims, Sync(s).claims)
  {
  }

  lemma WithdrawingGrantsNothing(owners: Owners, claims: Claims)
    ensures GrantsNothing(claims, WithdrawnClaims(owners, claims))
  {
  }

  lemma RaisingGrantsNothing(s: State, command: Command, ids: seq<Id>)
    ensures GrantsNothing(s.claims, Fenced(s, command, ids).claims)
  {
    hide FenceOwners, IdleOwners, Distinct, Sync;
    FencingGrantsNothing(s, ids, command);
    if FenceOwners(s, ids, command).Success? {
      SyncGrantsNothing(FenceOwners(s, ids, command).value);
    }
  }

  lemma BindGrantsNothing(s: State, workspace: string, slug: string, command: Command, operation: Id, ids: seq<Id>,
      capacity: bool)
    ensures GrantsNothing(s.claims, OrSame(s, BindLifecycle(s, workspace, slug, command, operation, ids,
      capacity)).claims)
  {
    hide FenceOwners, BoundFences, IdleOwners, Distinct, WithdrawnClaims;
    SyncGrantsNothing(s);
    FencingGrantsNothing(s, ids, command);
    if FenceOwners(s, ids, command).Success? {
      var t := BoundFences(FenceOwners(s, ids, command).value, ids, operation);
      BindingGrantsNothing(FenceOwners(s, ids, command).value, ids, operation);
      if t.Success? {
        WithdrawingGrantsNothing(t.value.owners, t.value.claims);
      }
    }
  }

  lemma BindRevivalGrantsNothing(s: State, workspace: string, slug: string, operation: Id, archive: Id, capacity: bool)
    ensures GrantsNothing(s.claims, OrSame(s, BindRevival(s, workspace, slug, operation, archive, capacity)).claims)
  {
    hide WithdrawnClaims;
    SyncGrantsNothing(s);
  }

  lemma CompleteGrantsNothing(s: State, workspace: string, slug: string, command: Command, operation: Id)
    ensures GrantsNothing(s.claims, OrSame(s, CompleteLifecycle(s, workspace, slug, command, operation)).claims)
  {
    hide CompleteOwners, Sync;
    SyncGrantsNothing(s);
    if operation in s.lifecycles {
      var l := s.lifecycles[operation];
      CompletingGrantsNothing(s, l.owners, command, operation, l.completed);
      var u := CompleteOwners(s, l.owners, command, operation, l.completed);
      if u.Success? {
        SyncGrantsNothing(u.value.(lifecycles := u.value.lifecycles[operation := l.(completed := true)]));
      }
    }
  }

  lemma LiftGrantsNothing(s: State, workspace: string, slug: string, operation: Id)
    ensures GrantsNothing(s.claims, OrSame(s, Revived(s, workspace, slug, operation)).claims)
  {
    hide ReviveOwners, Sync;
    SyncGrantsNothing(s);
    if operation in s.lifecycles {
      var l := s.lifecycles[operation];
      RevivingGrantsNothing(s, l.owners, l.archive);
      var u := ReviveOwners(s, l.owners, l.archive);
      if u.Success? {
        SyncGrantsNothing(u.value.(lifecycles := u.value.lifecycles[operation := l.(completed := true)]));
      }
    }
  }

  lemma LifecycleGrantsNothing(norm: Norm, s: State, op: Op)
    requires !Ordinary(op)
    ensures GrantsNothing(s.claims, Next(norm, s, op).claims)
  {
    hide GrantsNothing, BindLifecycle, BindRevival, CompleteLifecycle, Revived, Fenced, OrSame;
    match op
    case RegisterOwner(id, record) => RegisterGrantsNothing(s, id, record);
    case RaiseFences(command, ids) => RaisingGrantsNothing(s, command, ids);
    case Bind(workspace, slug, command, operation, ids, capacity) =>
      BindGrantsNothing(s, workspace, slug, command, operation, ids, capacity);
    case BindRevive(workspace, slug, operation, archive, capacity) =>
      BindRevivalGrantsNothing(s, workspace, slug, operation, archive, capacity);
    case Complete(workspace, slug, command, operation) =>
      CompleteGrantsNothing(s, workspace, slug, command, operation);
    case Lift(workspace, slug, operation) => LiftGrantsNothing(s, workspace, slug, operation);
  }

  lemma RegisterGrantsNothing(s: State, id: Id, record: Owner)
    ensures GrantsNothing(s.claims, Register(s, id, record).claims)
  {
  }

  lemma AttemptsGrantNothing(s: State, j: Id, attempt: Id, state: JobState, reason: Option<string>, outcome: Outcome,
      routed: set<Id>)
    ensures MovedAttempt(s, j, attempt, state, reason, routed).claims == s.claims
    ensures OrSame(s, Settle(s, j, attempt, outcome, reason, routed)).claims == s.claims
  {
    hide SettledReservations, Moved, Announce, SameOwners, SameRecords;
  }

  lemma StartGrantsNothing(norm: Norm, s: State, j: Id, attempt: Id, routed: set<Id>)
    requires CanGrant(norm, s, j)
    ensures Grant(s, j, attempt, routed).claims == s.claims
  {
  }

  lemma ReplacingGrantsNothing(claims: Claims, c: Id, claim: Claim)
    requires c in claims && !claim.state.Held?
    ensures GrantsNothing(claims, claims[c := claim])
  {
  }

  lemma EndingGrantsNothing(s: State, owner: Id, c: Id, release: bool)
    ensures GrantsNothing(s.claims, ChangeClaim(s, owner, c, release).0.claims)
  {
    hide SameOwners, SameRecords, GrantsNothing;
    NothingChanged(s.claims);
    if !LiveOwner(s, owner) || c !in s.claims || s.claims[c].owner != owner {
      assert ChangeClaim(s, owner, c, release).0 == s;
    } else {
      var destination := if release then Dropped else Withdrawn;
      var item := s.claims[c];
      ReplacingGrantsNothing(s.claims, c, item.(state := destination, notify := false, revision := item.revision + 1));
    }
  }

  lemma NothingChanged(claims: Claims)
    ensures GrantsNothing(claims, claims)
  {
  }

  lemma DeliveringGrantsNothing(s: State, e: EventId)
    ensures Deliver(s, e).claims == s.claims
  {
    hide SameOwners, SameRecords;
  }

  lemma FailingGrantsNothing(s: State, e: EventId)
    ensures DeliveryFailed(s, e).claims == s.claims
  {
    hide SameOwners, SameRecords;
  }

  lemma NotifyingGrantsNothing(s: State, owner: Id, c: Id, routed: set<Id>)
    ensures NotifyClaim(s, owner, c, routed).claims == s.claims
  {
    hide SameOwners, SameRecords, LiveOwner, Announce;
  }

  lemma NoticeGrantsNothing(s: State, owner: Id, run: Id, generation: Id, complete: bool)
    ensures NotifyRun(s, owner, run, generation, complete).claims == s.claims
  {
    hide SameOwners, SameRecords, LiveOwner, Announce;
  }

  lemma RemindingGrantsNothing(s: State, e: EventId)
    ensures Remind(s, e).claims == s.claims
  {
    hide SameOwners, SameRecords, LiveOwner;
  }

  lemma ClearingGrantsNothing(s: State, c: Id)
    ensures GrantsNothing(s.claims, ClearNotification(s, c).claims)
  {
    hide SameOwners, SameRecords;
  }

  lemma ParkingGrantsNothing(s: State, j: Id, state: JobState, reason: Option<string>, routed: set<Id>)
    requires KnownJob(s, j)
    ensures Transition(s, j, state, reason, routed).claims == s.claims
  {
    hide SameOwners, SameRecords, Announce, Moved;
  }

  lemma QueueingGrantsNothing(s: State, j: Id)
    requires j in s.jobs
    ensures Enqueue(s, j).claims == s.claims
  {
    hide SameOwners, SameRecords;
  }

  lemma JobGrantsNothing(norm: Norm, s: State, op: Op)
    requires op.Request? || op.Park? || op.QueueJob? || op.Start? || op.MoveAttempt? || op.SettleAttempt?
    ensures Next(norm, s, op).claims == s.claims
  {
    hide SameOwners, SameRecords, Perform, CanGrant, Settle, OrSame, MovedAttempt, Grant, Transition, Enqueue, Terminal,
      Active;
    match op
    case Request(owner, request, action, out) => PerformGrantsNothing(s, owner, request, action, out);
    case Park(j, state, reason, routed) =>
      if CanPark(s, j, state) { ParkingGrantsNothing(s, j, state, reason, routed); }
    case QueueJob(j) => if j in s.jobs { QueueingGrantsNothing(s, j); }
    case Start(j, attempt, routed) => if CanGrant(norm, s, j) { StartGrantsNothing(norm, s, j, attempt, routed); }
    case MoveAttempt(j, attempt, state, reason, routed) =>
      AttemptsGrantNothing(s, j, attempt, state, reason, NotApplied, routed);
    case SettleAttempt(j, attempt, outcome, error, routed) =>
      AttemptsGrantNothing(s, j, attempt, Ready, error, outcome, routed);
  }

  lemma OrdinaryGrantsNothing(norm: Norm, s: State, op: Op)
    requires Ordinary(op) && !op.AcquireClaim? && !op.Tick?
    ensures GrantsNothing(s.claims, Next(norm, s, op).claims)
  {
    hide SameOwners, SameRecords, Perform, CanGrant, CanPark, Settle, OrSame, MovedAttempt, Grant, Transition, Enqueue,
      Terminal, Active, Deliver, DeliveryFailed, NotifyClaim, ClearNotification, NotifyRun, Remind, ChangeClaim,
      Register, Acquire, TickClaim, Fenced, BindLifecycle, BindRevival, CompleteLifecycle, Revived;
    match op
    case EndClaim(owner, c, release) => EndingGrantsNothing(s, owner, c, release);
    case DeliverEvent(e) => DeliveringGrantsNothing(s, e);
    case FailEvent(e) => FailingGrantsNothing(s, e);
    case Notify(owner, c, routed) => NotifyingGrantsNothing(s, owner, c, routed);
    case Notified(c) => ClearingGrantsNothing(s, c);
    case Notice(owner, run, generation, complete) => NoticeGrantsNothing(s, owner, run, generation, complete);
    case Reminder(e) => RemindingGrantsNothing(s, e);
    case SetSuspended(_) =>
    case _ => JobGrantsNothing(norm, s, op);
  }

  /**
   No transaction of any kind grants a claim while an earlier claim, or any claim waiting when it was requested,
   overlaps it and could be granted itself.
   */
  lemma GrantsKeepOrder(norm: Norm, s: State, op: Op, c: Id, other: Id)
    requires Sound(norm, s) && Grantable(norm, s, other)
    requires c in s.claims ==> !s.claims[c].state.Held? && s.claims[other].sequence < s.claims[c].sequence
    requires c in Next(norm, s, op).claims
    requires Keys(norm, Next(norm, s, op).claims[c].resources) * Keys(norm, s.claims[other].resources) != {}
    ensures !Next(norm, s, op).claims[c].state.Held?
  {
    hide SameOwners, SameRecords, Perform, CanGrant, CanPark, Settle, OrSame, MovedAttempt, Grant, Transition, Enqueue,
      Terminal, Active, Deliver, DeliveryFailed, NotifyClaim, ClearNotification, NotifyRun, Remind, ChangeClaim,
      Register, Acquire, TickClaim, Fenced, BindLifecycle, BindRevival, CompleteLifecycle, Revived;
    hide JobsSound, ReservationsSound, MachinesExclusive, JobsExclusive, ProtocolsExclusive, ClaimsExclusive,
      ClaimsSound, FencedQuiet, EventsSound, LifecyclesSound, Free, Keys;
    if !Ordinary(op) {
      LifecycleGrantsNothing(norm, s, op);
    } else if op.Tick? {
      TickInOrder(norm, s, op.owner, op.claimId, c, other);
    } else if op.AcquireClaim? {
      AcquireInOrder(norm, s, op.owner, op.id, op.claim, op.resources, op.wait, op.grant, op.capacity, c, other);
    } else {
      OrdinaryGrantsNothing(norm, s, op);
    }
  }

  lemma TickInOrder(norm: Norm, s: State, owner: Id, tick: Id, c: Id, other: Id)
    requires Grantable(norm, s, other) && c in TickClaim(norm, s, owner, tick).claims
    requires c in s.claims ==> !s.claims[c].state.Held? && s.claims[other].sequence < s.claims[c].sequence
    requires Keys(norm, TickClaim(norm, s, owner, tick).claims[c].resources) * Keys(norm,
      s.claims[other].resources) != {}
    ensures !TickClaim(norm, s, owner, tick).claims[c].state.Held?
  {
    if c == tick && c in s.claims {
      NeverOvertakes(norm, s, owner, c, other);
    }
    hide Blocked, Keys, Grantable;
  }

  lemma AcquireInOrder(norm: Norm, s: State, owner: Id, id: Id, request: ClaimRequest, resources: seq<Resource>,
      wait: bool, grant: bool, capacity: bool, c: Id, other: Id)
    requires ClaimsSound(s.owners, s.claims) && Grantable(norm, s, other)
    requires c in s.claims ==> !s.claims[c].state.Held?
    requires var t := Acquire(norm, s, owner, id, request, resources, wait, grant, capacity).0;
      c in t.claims && Keys(norm, t.claims[c].resources) * Keys(norm, s.claims[other].resources) != {}
    ensures !Acquire(norm, s, owner, id, request, resources, wait, grant, capacity).0.claims[c].state.Held?
  {
    hide Blocked, Keys, Grantable, ClaimsSound, LiveOwner, SameOwners, SameRecords;
    if c !in s.claims {
      NewRequestYields(norm, s, owner, id, request, resources, wait, grant, capacity, other);
    }
  }
}
