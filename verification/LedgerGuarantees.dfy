/**
 What a reader may rely on in every state the ledger can reach.
 */
module LedgerGuarantees {
  import opened Wrappers
  import opened MachinePolicy
  import opened Ledger
  import opened LedgerInvariant
  import opened LedgerSafety
  import opened LedgerFencing
  import opened LedgerClaims
  import opened LedgerRuns

  lemma Reachable(norm: Norm, ops: seq<Op>)
    ensures Sound(norm, Run(norm, Empty, ops))
    ensures NoStaleRetry(norm, Empty, ops) ==> Silent(Run(norm, Empty, ops))
  {
    EmptyInv(norm);
    RunKeeps(norm, Empty, ops);
  }

  // ---------------------------------------------------------------- one holder per resource

  datatype Holder = JobHolder(job: Id) | ClaimHolder(claim: Id)

  ghost predicate Holds(norm: Norm, s: State, h: Holder, resource: Resource) {
    match h
    case JobHolder(j) => j in s.jobs && Active(s.jobs[j].state) && resource in Keys(norm, s.jobs[j].resources)
    case ClaimHolder(c) => c in s.claims && s.claims[c].state.Held? && resource in Keys(norm, s.claims[c].resources)
  }

  /** Under any names, a resource has at most one holder among the active jobs and the held claims. */
  lemma OneHolder(norm: Norm, ops: seq<Op>, resource: Resource, a: Holder, b: Holder)
    requires Holds(norm, Run(norm, Empty, ops), a, resource) && Holds(norm, Run(norm, Empty, ops), b, resource)
    ensures a == b
  {
    Reachable(norm, ops);
    hide JobsSound, ReservationsSound, MachinesExclusive, ClaimsSound, FencedQuiet, EventsSound, LifecyclesSound, Bound,
      Run, Keys;
  }

  /** The normal form of an installed package, as a function. */
  function Installed(a: Aliases): Norm {
    r => Normal(a, r)
  }

  /** The holder names the resource itself. */
  predicate Names(s: State, h: Holder, r: Resource) {
    match h
    case JobHolder(j) => j in s.jobs && Active(s.jobs[j].state) && r in s.jobs[j].resources
    case ClaimHolder(c) => c in s.claims && s.claims[c].state.Held? && r in s.claims[c].resources
  }

  lemma NamesHold(a: Aliases, s: State, h: Holder, r: Resource)
    requires Names(s, h, r)
    ensures Holds(Installed(a), s, h, Normal(a, r))
  {
    assert Installed(a)(r) == Normal(a, r);
  }

  /**
   Jobs and claims that name one thing exclude each other: their names lead to one name along any chains of aliases, in
   either spelling of a repository.
   */
  lemma NamesExcludeEachOther(a: Aliases, ops: seq<Op>, x: Resource, y: Resource, m: nat, n: nat, g: Holder, h: Holder)
    requires Wellfounded(a) && MachineNames(a)
    requires Steps(a, Spelling(x), m) == Steps(a, Spelling(y), n)
    requires var s := Run(Installed(a), Empty, ops); Names(s, g, x) && Names(s, h, y)
    ensures g == h
  {
    var s := Run(Installed(a), Empty, ops);
    ChainContends(a, Spelling(x), m);
    ChainContends(a, Spelling(y), n);
    NamesHold(a, s, g, x);
    NamesHold(a, s, h, y);
    OneHolder(Installed(a), ops, Normal(a, x), g, h);
  }

  lemma {:induction false} ChainContends(a: Aliases, r: Resource, n: nat)
    requires Wellfounded(a) && MachineNames(a)
    ensures Normal(a, Steps(a, r, n)) == Normal(a, r)
    decreases n
  {
    if n != 0 && r in a {
      AliasContends(a, r);
      ChainContends(a, a[r], n - 1);
    }
  }

  /** A machine, under any of its names, has at most one reservation between its request and its release. */
  lemma OneReservationPerMachine(norm: Norm, ops: seq<Op>, r: Id, q: Id)
    requires var s := Run(norm, Empty, ops);
             && r in s.reservations && Occupied(s.reservations[r].state)
             && q in s.reservations && Occupied(s.reservations[q].state)
             && norm(Machine(s.reservations[r].machine)) == norm(Machine(s.reservations[q].machine))
    ensures r == q
  {
    Reachable(norm, ops);
    hide JobsSound, ReservationsSound, JobsExclusive, ClaimsExclusive, ProtocolsExclusive, ClaimsSound, FencedQuiet,
      EventsSound, LifecyclesSound, Bound, Run;
  }

  /** Place `x` among the resources of an active job. */
  ghost predicate Claims(s: State, j: Id, x: nat) {
    j in s.jobs && Active(s.jobs[j].state) && x < |s.jobs[j].resources|
  }

  /**
   The overlap checks made before every write: they compare raw names of jobs and reservations, and normal forms of
   claims.
   */
  ghost predicate OverlapChecks(norm: Norm, s: State) {
    && (forall i, j, x: nat, y: nat :: Claims(s, i, x) && Claims(s, j, y) && (i != j || x != y) ==>
      s.jobs[i].resources[x] != s.jobs[j].resources[y])
    && (forall r, q ::
          r in s.reservations && q in s.reservations && r != q &&
          Occupied(s.reservations[r].state) && Occupied(s.reservations[q].state) ==>
            s.reservations[r].machine != s.reservations[q].machine)
    && (forall b, c :: b in s.claims && c in s.claims && b != c ==> s.claims[b].sequence != s.claims[c].sequence)
    && ClaimsExclusive(norm, s.claims)
  }

  lemma SoundPassesChecks(norm: Norm, s: State)
    requires Inv(norm, s)
    ensures OverlapChecks(norm, s)
  {
    RawJobsDistinct(norm, s);
    hide JobsSound, ProtocolsExclusive, FencedQuiet, EventsSound, LifecyclesSound;
  }

  lemma RawJobsDistinct(norm: Norm, s: State)
    requires Inv(norm, s)
    ensures forall i, j, x: nat, y: nat :: Claims(s, i, x) && Claims(s, j, y) && (i != j || x != y) ==>
      s.jobs[i].resources[x] != s.jobs[j].resources[y]
  {
    hide ReservationsSound, MachinesExclusive, ClaimsExclusive, ProtocolsExclusive, ClaimsSound, FencedQuiet,
      EventsSound, LifecyclesSound;
    forall i, j, x: nat, y: nat | Claims(s, i, x) && Claims(s, j, y) && (i != j || x != y)
      ensures s.jobs[i].resources[x] != s.jobs[j].resources[y]
    {
      if i != j {
        assert norm(s.jobs[i].resources[x]) in Keys(norm, s.jobs[i].resources);
        assert norm(s.jobs[j].resources[y]) in Keys(norm, s.jobs[j].resources);
      } else {
        assert JobSound(s.owners, s.next, s.reservations, s.jobs, s.jobs[i]);
      }
    }
  }

  /** No transaction is ever refused by the overlap checks of the validators. */
  lemma ChecksNeverRefuse(norm: Norm, ops: seq<Op>, op: Op)
    ensures OverlapChecks(norm, Next(norm, Run(norm, Empty, ops), op))
  {
    hide Next, Run, OverlapChecks, Inv;
    Reachable(norm, ops);
    NextKeeps(norm, Run(norm, Empty, ops), op);
    SoundPassesChecks(norm, Next(norm, Run(norm, Empty, ops), op));
  }

  // ---------------------------------------------------------------- the machine frontier

  /** An active attempt that deploys to a machine. */
  ghost predicate Deploying(norm: Norm, s: State, j: Id, machine: Resource) {
    && j in s.jobs && Active(s.jobs[j].state) && s.jobs[j].reservation.Some?
    && s.jobs[j].reservation.value in s.reservations
    && norm(Machine(s.reservations[s.jobs[j].reservation.value].machine)) == machine
  }

  lemma NoHistoryNoAdditions(proofs: set<Integrated>)
    ensures Additions([], proofs) == {}
  {
  }

  /** Releasing a reservation never changes the frontier of a machine on which an attempt is active. */
  lemma FinishLeavesFrontier(norm: Norm, s: State, owner: Id, r: Id, expected: nat, proofs: set<Integrated>,
      routed: set<Id>, j: Id, m: string)
    requires Inv(norm, s) && owner in s.owners && CanFinish(s, owner, r, expected)
    requires Deploying(norm, s, j, norm(Machine(m)))
    ensures FrontierAt(FinishReservation(s, owner, r, proofs, routed), m) == FrontierAt(s, m)
  {
    hide ReservationsSound, MachinesExclusive, JobsExclusive, ClaimsExclusive, ProtocolsExclusive, ClaimsSound,
      FencedQuiet, EventsSound, LifecyclesSound, Additions;
    assert JobSound(s.owners, s.next, s.reservations, s.jobs, s.jobs[j]);
    var v := s.reservations[r];
    if v.machine == m {
      RequestedOnly(norm, s, s.jobs[j].reservation.value, r);
      NoHistoryNoAdditions(proofs);
    }
  }

  /** Beside an occupied reservation of the same machine there are only requests, which have deployed nothing. */
  lemma RequestedOnly(norm: Norm, s: State, occupied: Id, r: Id)
    requires Inv(norm, s) && occupied in s.reservations && r in s.reservations && r != occupied
    requires Occupied(s.reservations[occupied].state) && !s.reservations[r].state.Released?
    requires norm(Machine(s.reservations[r].machine)) == norm(Machine(s.reservations[occupied].machine))
    ensures s.reservations[r].state.Requested? && s.reservations[r].history == []
  {
    hide JobsSound, JobsExclusive, ClaimsExclusive, ProtocolsExclusive, ClaimsSound, FencedQuiet, EventsSound,
      LifecyclesSound;
  }

  lemma EffectLeavesFrontier(norm: Norm, s: State, owner: Id, action: Action, out: Outside, j: Id, m: string)
    requires Inv(norm, s) && owner in s.owners && Deploying(norm, s, j, norm(Machine(m)))
    ensures var t := Effect(s, owner, action, out); t.Success? ==> FrontierAt(t.value.0, m) == FrontierAt(s, m)
  {
    hide Inv, CreateJobs, CanFinish, FinishReservation, Changeable, Moved, Announce, OwnReservations, Distinct, FreshId;
    if action.Finish? && CanFinish(s, owner, action.reservation, action.expected) {
      FinishLeavesFrontier(norm, s, owner, action.reservation, action.expected, out.proofs, out.routed, j, m);
    }
  }

  /** While an attempt on a machine is active, no transaction changes what is integrated on that machine. */
  lemma FrontierFixed(norm: Norm, s: State, op: Op, j: Id, m: string)
    requires Sound(norm, s) && Deploying(norm, s, j, norm(Machine(m)))
    ensures FrontierAt(Next(norm, s, op), m) == FrontierAt(s, m)
  {
    hide Inv, Bound, Deploying, Effect, CanGrant, CanPark, Settle, MovedAttempt, TickClaim, Acquire, ChangeClaim,
      NotifyClaim, ClearNotification, Deliver, DeliveryFailed, Enqueue, Grant, Transition, NotifyRun, Remind;
    hide Register, Fenced, BindLifecycle, BindRevival, CompleteLifecycle, Revived;
    if op.Request? && op.owner in s.owners {
      EffectLeavesFrontier(norm, s, op.owner, op.action, op.out, j, m);
    }
  }

  ghost predicate StaysDeploying(norm: Norm, s: State, ops: seq<Op>, j: Id, machine: Resource)
    decreases ops
  {
    Deploying(norm, s, j, machine) && (ops == [] || StaysDeploying(norm, Next(norm, s, ops[0]), ops[1..], j, machine))
  }

  /** The frontier read when an attempt was admitted is still the frontier when it settles. */
  lemma {:induction false} FrontierFixedThroughout(norm: Norm, s: State, ops: seq<Op>, j: Id, m: string)
    requires Sound(norm, s) && StaysDeploying(norm, s, ops, j, norm(Machine(m)))
    ensures FrontierAt(Run(norm, s, ops), m) == FrontierAt(s, m)
    decreases ops
  {
    hide Sound, Deploying, Next, FrontierAt;
    if ops != [] {
      FrontierFixed(norm, s, ops[0], j, m);
      NextKeeps(norm, s, ops[0]);
      FrontierFixedThroughout(norm, Next(norm, s, ops[0]), ops[1..], j, m);
    }
  }

  /** The approval covers the machine. */
  predicate CoversMachine(s: State, owner: Id, machine: string, approval: Id) {
    && approval in s.approvals && s.approvals[approval].owner == owner && s.approvals[approval].deploy
    && exists m :: m in s.approvals[approval].machines && m.machine == machine
  }

  /** Asking again for a machine one has, or has asked for, finds that very reservation and changes nothing. */
  lemma ReserveFindsItsOwn(norm: Norm, s: State, owner: Id, machine: string, approval: Id, minted: Id, r: Id)
    requires Sound(norm, s) && r in OwnReservations(s, owner, machine)
    requires CoversMachine(s, owner, machine, approval) && FreshId(s, minted)
    ensures ReserveMachine(s, owner, machine, approval, [minted]) == Success((s, Reply(r, s.reservations[r].revision)))
  {
    OneReservation(norm, s, owner, machine, r);
    hide Sound;
  }

  // ---------------------------------------------------------------- dependencies

  /** Each job of the path depends on the next one. */
  ghost predicate DependencyPath(jobs: Jobs, path: seq<Id>) {
    && |path| > 0 && (forall k :: 0 <= k < |path| ==> path[k] in jobs)
    && forall k :: 0 <= k < |path| - 1 ==> path[k + 1] in jobs[path[k]].dependsOn
  }

  /** A job that runs or ran has all its direct and indirect dependencies behind it. */
  lemma {:induction false} AllDependenciesDone(norm: Norm, s: State, path: seq<Id>, k: nat)
    requires Sound(norm, s) && DependencyPath(s.jobs, path) && 0 < k < |path|
    requires Active(s.jobs[path[0]].state) || s.jobs[path[0]].state.Succeeded?
    ensures s.jobs[path[k]].state.Succeeded? && s.jobs[path[k]].sequence < s.jobs[path[0]].sequence
    decreases k
  {
    hide ReservationsSound, MachinesExclusive, JobsExclusive, ClaimsExclusive, ProtocolsExclusive, ClaimsSound,
      FencedQuiet, EventsSound, LifecyclesSound, Bound;
    assert JobSound(s.owners, s.next, s.reservations, s.jobs, s.jobs[path[k - 1]]);
    if k > 1 {
      AllDependenciesDone(norm, s, path, k - 1);
    }
    assert path[k] in s.jobs[path[k - 1]].dependsOn;
  }

  /** Dependencies have smaller sequences, so no job depends on itself, however indirectly. */
  lemma {:induction false} DependenciesDescend(norm: Norm, s: State, path: seq<Id>, k: nat)
    requires Sound(norm, s) && DependencyPath(s.jobs, path) && 0 < k < |path|
    ensures s.jobs[path[k]].sequence < s.jobs[path[0]].sequence && path[k] != path[0]
    decreases k
  {
    hide ReservationsSound, MachinesExclusive, JobsExclusive, ClaimsExclusive, ProtocolsExclusive, ClaimsSound,
      FencedQuiet, EventsSound, LifecyclesSound, Bound;
    assert JobSound(s.owners, s.next, s.reservations, s.jobs, s.jobs[path[k - 1]]);
    if k > 1 {
      DependenciesDescend(norm, s, path, k - 1);
    }
    assert path[k] in s.jobs[path[k - 1]].dependsOn;
  }

  // ---------------------------------------------------------------- request receipts

  /** Recorded requests keep their receipts. */
  ghost predicate Remembers(s: State, t: State) {
    forall q :: q in s.receipts ==> q in t.receipts && t.receipts[q] == s.receipts[q]
  }

  lemma EffectReceipts(s: State, owner: Id, action: Action, out: Outside)
    requires owner in s.owners
    ensures var t := Effect(s, owner, action, out); t.Success? ==> t.value.0.receipts == s.receipts
  {
    hide CreateJobs, CanFinish, Changeable, Moved, Announce, Additions, OwnReservations, Distinct, FreshId, FrontierAt;
  }

  lemma PerformRemembers(s: State, owner: Id, request: Id, action: Action, out: Outside)
    ensures var t := Perform(s, owner, request, action, out);
            && Remembers(s, t.0)
            && (t.1.Success? ==> request in t.0.receipts && t.0.receipts[request] == Receipt(owner, action, t.1.value))
  {
    hide Effect;
    if owner in s.owners {
      EffectReceipts(s, owner, action, out);
    }
  }

  lemma NextRemembers(norm: Norm, s: State, op: Op)
    ensures Remembers(s, Next(norm, s, op))
  {
    hide Perform, CanGrant, CanPark, Settle, MovedAttempt, TickClaim, Acquire, ChangeClaim, NotifyClaim,
      ClearNotification, Deliver, DeliveryFailed, Enqueue, Grant, Transition, NotifyRun, Remind;
    hide Register, Fenced, BindLifecycle, BindRevival, CompleteLifecycle, Revived;
    if op.Request? {
      PerformRemembers(s, op.owner, op.request, op.action, op.out);
    }
  }

  lemma {:induction false} RunRemembers(norm: Norm, s: State, ops: seq<Op>)
    ensures Remembers(s, Run(norm, s, ops))
    decreases ops
  {
    hide Next;
    if ops != [] {
      NextRemembers(norm, s, ops[0]);
      RunRemembers(norm, Next(norm, s, ops[0]), ops[1..]);
    }
  }

  /** However much happens in between, repeating an accepted request returns its first reply and changes nothing. */
  lemma ReplayReturnsFirstReply(norm: Norm, s: State, owner: Id, request: Id, action: Action, out: Outside,
      ops: seq<Op>, again: Outside)
    requires Perform(s, owner, request, action, out).1.Success?
    ensures var first := Perform(s, owner, request, action, out);
            var later := Run(norm, first.0, ops);
            Perform(later, owner, request, action, again) == (later, first.1)
  {
    var first := Perform(s, owner, request, action, out);
    PerformRemembers(s, owner, request, action, out);
    RunRemembers(norm, first.0, ops);
    hide Effect, Run;
  }

  /** Reusing an accepted request identity for another owner or other input is refused and changes nothing. */
  lemma ReuseIsRefused(norm: Norm, s: State, owner: Id, request: Id, action: Action, out: Outside, ops: seq<Op>,
      other: Id, changed: Action, again: Outside)
    requires Perform(s, owner, request, action, out).1.Success?
    requires other != owner || changed != action
    ensures var later := Run(norm, Perform(s, owner, request, action, out).0, ops);
            && Perform(later, other, request, changed, again).0 == later
            && Perform(later, other, request, changed, again).1.Refused?
  {
    var first := Perform(s, owner, request, action, out);
    PerformRemembers(s, owner, request, action, out);
    RunRemembers(norm, first.0, ops);
    hide Effect, Run;
  }

  // ---------------------------------------------------------------- fences

  /**
   While an owner is fenced it has nothing running, nothing claimed and nothing to send; once archived it holds no
   machine.
   */
  lemma FencedIsQuiet(norm: Norm, ops: seq<Op>, o: Id)
    requires var s := Run(norm, Empty, ops); o in s.owners && s.owners[o].fence.Some?
    ensures var s := Run(norm, Empty, ops);
            && JobsQuiet(s.jobs, o) && ClaimsQuiet(s.claims, o)
              && (Archived(s.owners[o].fence) ==> AllReleased(s.reservations, o))
            && (NoStaleRetry(norm, Empty, ops) ==>
                  forall e :: e in s.outbox && s.outbox[e].owner == o ==>
                    s.outbox[e].state.Parked? || s.outbox[e].state.Delivered?)
  {
    Reachable(norm, ops);
    hide JobsSound, ReservationsSound, MachinesExclusive, JobsExclusive, ClaimsExclusive, ProtocolsExclusive,
      ClaimsSound, LifecyclesSound, Bound, Run, NoStaleRetry;
  }

  /** An owner that is fenced stays so. */
  ghost predicate StaysFenced(a: Owners, b: Owners, o: Id) {
    o in a && a[o].fence.Some? ==> o in b && b[o].fence.Some?
  }

  lemma {:induction false} FencingStays(s: State, ids: seq<Id>, command: Command, o: Id)
    ensures var t := FenceOwners(s, ids, command); t.Success? ==> StaysFenced(s.owners, t.value.owners, o)
    decreases ids
  {
    if ids != [] && ids[0] in s.owners {
      var t := FenceOwner(s, ids[0], command);
      assert StaysFenced(s.owners, t.owners, o);
      FencingStays(t, ids[1..], command, o);
    }
  }

  lemma {:induction false} BindingStays(s: State, ids: seq<Id>, operation: Id, o: Id)
    ensures var t := BoundFences(s, ids, operation); t.Success? ==> StaysFenced(s.owners, t.value.owners, o)
    decreases ids
  {
    if ids != [] && ids[0] in s.owners && s.owners[ids[0]].fence.Some? {
      var f := s.owners[ids[0]].fence.value;
      BindingStays(s.(owners := s.owners[ids[0] := s.owners[ids[0]].(fence := Some(f.(operation := Some(operation))))]),
        ids[1..], operation, o);
    }
  }

  lemma CompletingOneStays(s: State, i: Id, command: Command, o: Id)
    requires i in s.owners && s.owners[i].fence.Some?
    ensures StaysFenced(s.owners, CompleteOwner(s, i, command).owners, o)
  {
  }

  lemma {:induction false} CompletingStays(s: State, bindings: seq<Binding>, command: Command, operation: Id,
      done: bool, o: Id)
    ensures var t := CompleteOwners(s, bindings, command, operation, done); t.Success? ==>
      StaysFenced(s.owners, t.value.owners, o)
    decreases bindings
  {
    hide IdleOwners, CompleteOwner;
    if bindings != [] && bindings[0].id in s.owners {
      var owner := s.owners[bindings[0].id];
      if owner.identity != bindings[0].identity || owner.fence.None? || owner.fence.value.operation != Some(operation) {
        CompletingStays(s, bindings[1..], command, operation, done, o);
      } else {
        CompletingOneStays(s, bindings[0].id, command, o);
        CompletingStays(CompleteOwner(s, bindings[0].id, command), bindings[1..], command, operation, done, o);
      }
    }
  }

  /** The fence of an owner, as the archive that a revival lifts must have left it. */
  ghost predicate LiftedBy(owner: Owner, bindings: seq<Binding>, o: Id, archive: Option<Id>) {
    && owner.fence.Some? && owner.fence.value.completed && owner.fence.value.operation == archive
    && Binding(o, owner.identity) in bindings
  }

  lemma RevivesOther(s: State, i: Id, o: Id)
    requires i in s.owners && o in s.owners && i != o
    ensures o in ReviveOwner(s, i).owners && ReviveOwner(s, i).owners[o] == s.owners[o]
  {
    hide ReleasedEvents;
  }

  lemma {:induction false} RevivalLifts(s: State, bindings: seq<Binding>, archive: Option<Id>, o: Id)
    requires o in s.owners && s.owners[o].fence.Some?
    ensures var t := ReviveOwners(s, bindings, archive);
            t.Success? ==> o in t.value.owners && (t.value.owners[o].fence.Some? || LiftedBy(s.owners[o], bindings, o,
              archive))
    decreases bindings
  {
    hide ReviveOwner;
    if bindings != [] && bindings[0].id in s.owners && bindings[0].id != o {
      RevivesOther(s, bindings[0].id, o);
      RevivalLifts(ReviveOwner(s, bindings[0].id), bindings[1..], archive, o);
    }
  }

  /** What a lifted fence proves: the operation revives exactly the completed archive that fenced this incarnation. */
  ghost predicate RevivesArchiveOf(s: State, op: Op, o: Id)
    requires o in s.owners
  {
    && op.Lift? && op.operation in s.lifecycles
    && var l := s.lifecycles[op.operation];
    && l.command.Revive? && l.archive.Some? && l.archive.value in s.lifecycles
    && var a := s.lifecycles[l.archive.value];
    && a.command.Archive? && a.completed
    && LiftedBy(s.owners[o], a.owners, o, l.archive) && s.owners[o].fence.value.command.Archive?
  }

  lemma BindStays(s: State, workspace: string, slug: string, command: Command, operation: Id, ids: seq<Id>,
      capacity: bool, o: Id)
    ensures var t := BindLifecycle(s, workspace, slug, command, operation, ids, capacity); t.Success? ==>
      StaysFenced(s.owners, t.value.owners, o)
  {
    hide IdleOwners, FenceOwners, BoundFences, Bindings, Distinct, WithdrawnClaims;
    FencingStays(s, ids, command, o);
    if FenceOwners(s, ids, command).Success? {
      BindingStays(FenceOwners(s, ids, command).value, ids, operation, o);
    }
  }

  lemma CompleteStays(s: State, workspace: string, slug: string, command: Command, operation: Id, o: Id)
    ensures var t := CompleteLifecycle(s, workspace, slug, command, operation); t.Success? ==>
      StaysFenced(s.owners, t.value.owners, o)
  {
    hide CompleteOwners, WithdrawnClaims;
    if operation in s.lifecycles {
      CompletingStays(s, s.lifecycles[operation].owners, command, operation, s.lifecycles[operation].completed, o);
    }
  }

  lemma RaisingStays(s: State, command: Command, ids: seq<Id>, o: Id)
    ensures StaysFenced(s.owners, Fenced(s, command, ids).owners, o)
  {
    hide IdleOwners, FenceOwners, Distinct, WithdrawnClaims;
    FencingStays(s, ids, command, o);
  }

  lemma RegisteringStays(s: State, id: Id, record: Owner, o: Id)
    ensures StaysFenced(s.owners, Register(s, id, record).owners, o)
  {
  }

  lemma BindRevivalStays(s: State, workspace: string, slug: string, operation: Id, archive: Id, capacity: bool)
    ensures var t := BindRevival(s, workspace, slug, operation, archive, capacity); t.Success? ==>
      t.value.owners == s.owners
  {
    hide WithdrawnClaims;
    assert Sync(s).owners == s.owners;
  }

  lemma LifecycleStaysFenced(norm: Norm, s: State, op: Op, o: Id)
    requires !Ordinary(op) && !op.Lift?
    ensures StaysFenced(s.owners, Next(norm, s, op).owners, o)
  {
    hide Register, Fenced, BindLifecycle, BindRevival, CompleteLifecycle, Revived;
    match op
    case RegisterOwner(id, record) => RegisteringStays(s, id, record, o);
    case RaiseFences(command, ids) => RaisingStays(s, command, ids, o);
    case Bind(workspace, slug, command, operation, ids, capacity) =>
      BindStays(s, workspace, slug, command, operation, ids, capacity, o);
    case BindRevive(workspace, slug, operation, archive, capacity) =>
      BindRevivalStays(s, workspace, slug, operation, archive, capacity);
    case Complete(workspace, slug, command, operation) => CompleteStays(s, workspace, slug, command, operation, o);
  }

  /** What a revival does to the owners. */
  lemma RevivedOwners(s: State, workspace: string, slug: string, operation: Id)
    ensures var t := Revived(s, workspace, slug, operation);
            t.Success? && t.value.owners != s.owners ==>
              && operation in s.lifecycles && s.lifecycles[operation].command.Revive?
              && var u := ReviveOwners(s, s.lifecycles[operation].owners, s.lifecycles[operation].archive);
              u.Success? && t.value.owners == u.value.owners
  {
    hide ReviveOwners;
  }

  lemma LiftIsOfArchive(norm: Norm, s: State, op: Op, o: Id)
    requires Sound(norm, s) && o in s.owners && op.Lift? && op.operation in s.lifecycles
    requires s.lifecycles[op.operation].command.Revive?
    requires LiftedBy(s.owners[o], s.lifecycles[op.operation].owners, o, s.lifecycles[op.operation].archive)
    ensures RevivesArchiveOf(s, op, o)
  {
    hide JobsSound, ReservationsSound, MachinesExclusive, JobsExclusive, ClaimsExclusive, ProtocolsExclusive,
      ClaimsSound, FencedQuiet, EventsSound, BindingsKnown;
  }

  lemma RevivalLiftsArchive(norm: Norm, s: State, workspace: string, slug: string, operation: Id, o: Id)
    requires Sound(norm, s) && o in s.owners && s.owners[o].fence.Some?
    ensures var t := Revived(s, workspace, slug, operation);
            t.Success? ==> o in t.value.owners && (t.value.owners[o].fence.Some? || RevivesArchiveOf(s,
              Lift(workspace, slug, operation), o))
  {
    hide *;
    RevivedOwners(s, workspace, slug, operation);
    var t := Revived(s, workspace, slug, operation);
    if t.Success? && t.value.owners != s.owners {
      var l := s.lifecycles[operation];
      RevivalLifts(s, l.owners, l.archive, o);
      if t.value.owners[o].fence.None? {
        LiftIsOfArchive(norm, s, Lift(workspace, slug, operation), o);
      }
    }
  }

  /** A fence leaves an owner only through the revival of the completed archive that raised it. */
  lemma FenceLeavesOnlyByRevival(norm: Norm, s: State, op: Op, o: Id)
    requires Sound(norm, s) && o in s.owners && s.owners[o].fence.Some?
    ensures o in Next(norm, s, op).owners
    ensures Next(norm, s, op).owners[o].fence.None? ==> RevivesArchiveOf(s, op, o)
  {
    if Ordinary(op) {
      hide Next;
      OrdinaryFrame(norm, s, op);
    } else if !op.Lift? {
      hide Next;
      LifecycleStaysFenced(norm, s, op, o);
    } else {
      hide Revived, RevivesArchiveOf, Sound;
      RevivalLiftsArchive(norm, s, op.workspace, op.slug, op.operation, o);
    }
  }

  /** The first completion of an archive releases every machine of the owners it names. */
  lemma ArchiveReleases(norm: Norm, s: State, workspace: string, slug: string, operation: Id, b: Binding)
    requires Sound(norm, s) && operation in s.lifecycles && !s.lifecycles[operation].completed
    requires b in s.lifecycles[operation].owners
    ensures var t := CompleteLifecycle(s, workspace, slug, Archive, operation);
            t.Success? ==>
              && b.id in t.value.owners && Archived(t.value.owners[b.id].fence)
                && AllReleased(t.value.reservations, b.id)
              && t.value.lifecycles[operation].completed
  {
    var l := s.lifecycles[operation];
    var t := CompleteLifecycle(s, workspace, slug, Archive, operation);
    if t.Success? {
      CompleteLifecycleKeeps(norm, s, workspace, slug, Archive, operation);
      OwnersKnown(norm, s, operation, b);
      CompletesAll(s, l.owners, Archive, operation, b.id);
      hide JobsSound, ReservationsSound, MachinesExclusive, JobsExclusive, ClaimsExclusive, ProtocolsExclusive,
        ClaimsSound, EventsSound, LifecyclesSound, CompleteOwners, WithdrawnClaims;
    }
  }

  lemma OwnersKnown(norm: Norm, s: State, operation: Id, b: Binding)
    requires Inv(norm, s) && operation in s.lifecycles && b in s.lifecycles[operation].owners
    ensures b.id in s.owners && s.owners[b.id].identity == b.identity
  {
    hide JobsSound, ReservationsSound, MachinesExclusive, JobsExclusive, ClaimsExclusive, ProtocolsExclusive,
      ClaimsSound, FencedQuiet, EventsSound;
    assert BindingsKnown(s.owners, s.lifecycles[operation].owners);
  }

  ghost predicate StillBound(s: State, bindings: seq<Binding>, operation: Id) {
    forall b :: b in bindings ==>
      && b.id in s.owners && s.owners[b.id].identity == b.identity
      && s.owners[b.id].fence.Some? && s.owners[b.id].fence.value.operation == Some(operation)
  }

  /** Nothing can make an archive or delete wait once its fences are up: while they are, completing it succeeds. */
  lemma {:induction false} CompletionSucceeds(norm: Norm, s: State, bindings: seq<Binding>, command: Command,
      operation: Id, done: bool)
    requires Sound(norm, s) && operation in s.lifecycles && s.lifecycles[operation].command == command
    requires StillBound(s, bindings, operation)
    ensures CompleteOwners(s, bindings, command, operation, done).Success?
    decreases bindings
  {
    hide Inv, IdleOwners;
    if bindings != [] {
      var b := bindings[0];
      FencedIsIdle(norm, s, b.id);
      CompleteOwnerKeeps(norm, s, b.id, command);
      CompleteOwnerBound(s, b.id, command);
      CompletionSucceeds(norm, CompleteOwner(s, b.id, command), bindings[1..], command, operation, done);
    }
  }
}
