/**
 What a lifecycle fence does to the records of an owner, said on their fields: which
 jobs end, which reservations are blocked or released, and what becomes of events and
 claims (Store#fence and #bind_lifecycle in libexec/workspace-coordination.rb).
 */
module LedgerLifecycles {
  import opened Wrappers
  import opened MachinePolicy
  import opened Ledger
  import opened LedgerInvariant
  import opened LedgerRuns

  function Those(ids: seq<Id>): set<Id> {
    set i | i in ids
  }

  // ---------------------------------------------------------------- one record

  /** What ended stays; what had not is canceled. */
  predicate JobFenced(a: Job, b: Job) {
    if a.state in {Succeeded, Failed, Canceled} then b == a
    else b == a.(state := Canceled, revision := a.revision + 1)
  }

  /**
   An archive leaves a request in the queue and blocks everything else; a delete releases what nothing was deployed on
   and blocks the rest.
   */
  predicate ReservationFenced(a: Reservation, b: Reservation, command: Command) {
    if a.state == Released then b == a
    else
      && b == a.(state := b.state, revision := a.revision + 1)
      && (command == Archive ==> b.state == if a.state == Requested then Requested else BlockedRecovery)
      && (command != Archive ==> b.state == if |a.history| == 0 then Released else BlockedRecovery)
  }

  predicate EventFenced(a: Event, b: Event) {
    b.owner == a.owner && b.state == if a.state == Delivered then Delivered else Parked
  }

  /** A fence already raised by the same command stays as it is; any other is replaced by a fresh one. */
  predicate OwnerFenced(a: Owner, b: Owner, command: Command) {
    && b == a.(fence := b.fence) && b.fence.Some?
    && if a.fence.Some? && a.fence.value.command == command then b.fence == a.fence
       else b.fence.value == Fence(command, false, None)
  }

  // ---------------------------------------------------------------- all records of some owners

  ghost predicate JobsFenced(a: Jobs, b: Jobs, ids: set<Id>) {
    && b.Keys == a.Keys
    && forall j :: j in a ==> if a[j].owner in ids then JobFenced(a[j], b[j]) else b[j] == a[j]
  }

  ghost predicate ReservationsFenced(a: Reservations, b: Reservations, ids: set<Id>, command: Command) {
    && b.Keys == a.Keys
    && forall r :: r in a ==> if a[r].owner in ids then ReservationFenced(a[r], b[r], command) else b[r] == a[r]
  }

  ghost predicate EventsFenced(a: Outbox, b: Outbox, ids: set<Id>) {
    && b.Keys == a.Keys
    && forall e :: e in a ==> if a[e].owner in ids then EventFenced(a[e], b[e]) else b[e] == a[e]
  }

  ghost predicate OwnersFenced(a: Owners, b: Owners, ids: set<Id>, command: Command) {
    && b.Keys == a.Keys && ids <= a.Keys
    && forall o :: o in a ==> if o in ids then OwnerFenced(a[o], b[o], command) else b[o] == a[o]
  }

  ghost predicate FencesRaised(s: State, t: State, ids: set<Id>, command: Command) {
    && OwnersFenced(s.owners, t.owners, ids, command) && JobsFenced(s.jobs, t.jobs, ids)
    && ReservationsFenced(s.reservations, t.reservations, ids, command) && EventsFenced(s.outbox, t.outbox, ids)
    && t == s.(owners := t.owners, jobs := t.jobs, reservations := t.reservations, outbox := t.outbox)
  }

  lemma OneFenced(s: State, o: Id, command: Command)
    requires o in s.owners
    ensures FencesRaised(s, FenceOwner(s, o, command), {o}, command)
  {
    OwnJobsFenced(s.jobs, o);
    OwnReservationsFenced(s.reservations, o, command);
    OwnEventsFenced(s.outbox, o);
    hide SameRecords, JobsFenced, ReservationsFenced, EventsFenced, CanceledJobs, FencedReservations, ParkedEvents;
  }

  lemma OwnJobsFenced(jobs: Jobs, o: Id)
    ensures JobsFenced(jobs, CanceledJobs(jobs, o), {o})
  {
  }

  lemma OwnReservationsFenced(reservations: Reservations, o: Id, command: Command)
    ensures ReservationsFenced(reservations, FencedReservations(reservations, o, command), {o}, command)
  {
  }

  lemma OwnEventsFenced(outbox: Outbox, o: Id)
    ensures EventsFenced(outbox, ParkedEvents(outbox, o), {o})
  {
  }

  lemma NoneFenced(s: State, command: Command)
    ensures FencesRaised(s, s, {}, command) && MayRaise(s.owners, [], command)
  {
  }

  lemma OwnersTwice(a: Owners, b: Owners, c: Owners, o: Id, ids: set<Id>, command: Command)
    requires o !in ids && OwnersFenced(a, b, {o}, command) && OwnersFenced(b, c, ids, command)
    ensures OwnersFenced(a, c, {o} + ids, command)
  {
  }

  lemma JobsTwice(a: Jobs, b: Jobs, c: Jobs, o: Id, ids: set<Id>)
    requires o !in ids && JobsFenced(a, b, {o}) && JobsFenced(b, c, ids)
    ensures JobsFenced(a, c, {o} + ids)
  {
  }

  lemma ReservationsTwice(a: Reservations, b: Reservations, c: Reservations, o: Id, ids: set<Id>, command: Command)
    requires o !in ids && ReservationsFenced(a, b, {o}, command) && ReservationsFenced(b, c, ids, command)
    ensures ReservationsFenced(a, c, {o} + ids, command)
  {
  }

  lemma EventsTwice(a: Outbox, b: Outbox, c: Outbox, o: Id, ids: set<Id>)
    requires o !in ids && EventsFenced(a, b, {o}) && EventsFenced(b, c, ids)
    ensures EventsFenced(a, c, {o} + ids)
  {
  }

  lemma FencedTwice(s: State, t: State, u: State, o: Id, ids: set<Id>, command: Command)
    requires o !in ids && FencesRaised(s, t, {o}, command) && FencesRaised(t, u, ids, command)
    ensures FencesRaised(s, u, {o} + ids, command)
  {
    hide OwnersFenced, JobsFenced, ReservationsFenced, EventsFenced;
    OwnersTwice(s.owners, t.owners, u.owners, o, ids, command);
    JobsTwice(s.jobs, t.jobs, u.jobs, o, ids);
    ReservationsTwice(s.reservations, t.reservations, u.reservations, o, ids, command);
    EventsTwice(s.outbox, t.outbox, u.outbox, o, ids);
  }

  /** Nobody is fenced by another command that is still under way. */
  predicate MayRaise(owners: Owners, ids: seq<Id>, command: Command) {
    forall k :: 0 <= k < |ids| ==>
      && ids[k] in owners
      && (owners[ids[k]].fence.Some? && owners[ids[k]].fence.value.command != command ==>
            owners[ids[k]].fence.value.completed)
  }

  lemma RestMayRaise(a: Owners, b: Owners, ids: seq<Id>, command: Command)
    requires ids != [] && Distinct(ids) && OwnersFenced(a, b, {ids[0]}, command)
    ensures MayRaise(a, ids[1..], command) <==> MayRaise(b, ids[1..], command)
    ensures MayRaise(a, ids, command) <==>
      MayRaise(a, ids[1..], command) && (a[ids[0]].fence.Some? && a[ids[0]].fence.value.command != command ==>
        a[ids[0]].fence.value.completed)
  {
    forall k | 0 <= k < |ids[1..]| ensures ids[1..][k] != ids[0] && ids[1..][k] == ids[k + 1] {
    }
    if MayRaise(a, ids, command) {
      forall k | 0 <= k < |ids[1..]|
        ensures ids[1..][k] in a && (a[ids[1..][k]].fence.Some? && a[ids[1..][k]].fence.value.command != command ==>
          a[ids[1..][k]].fence.value.completed)
      {
        assert ids[1..][k] == ids[k + 1];
      }
    }
  }

  /** Fences are raised for all owners or for none, and do to every record what a fence does. */
  lemma {:induction false} FencingExact(s: State, ids: seq<Id>, command: Command)
    requires Distinct(ids)
    ensures var t := FenceOwners(s, ids, command);
      && (t.Success? <==> MayRaise(s.owners, ids, command))
      && (t.Success? ==> FencesRaised(s, t.value, Those(ids), command))
    decreases ids
  {
    hide FenceOwner, JobsFenced, ReservationsFenced, EventsFenced, OwnersFenced, MayRaise, Distinct, SameRecords;
    if ids == [] {
      NoneFenced(s, command);
      assert Those(ids) == {};
    } else if ids[0] in s.owners {
      var s1 := FenceOwner(s, ids[0], command);
      OneFenced(s, ids[0], command);
      RestMayRaise(s.owners, s1.owners, ids, command);
      FirstApart(ids);
      FencingExact(s1, ids[1..], command);
      hide FencesRaised;
      if FenceOwners(s1, ids[1..], command).Success? {
        FencedTwice(s, s1, FenceOwners(s1, ids[1..], command).value, ids[0], Those(ids[1..]), command);
      }
    } else {
      UnknownRefused(s, ids, command);
    }
  }

  lemma UnknownRefused(s: State, ids: seq<Id>, command: Command)
    requires ids != [] && ids[0] !in s.owners
    ensures !MayRaise(s.owners, ids, command)
  {
  }

  lemma FirstApart(ids: seq<Id>)
    requires ids != [] && Distinct(ids)
    ensures Distinct(ids[1..]) && ids[0] !in Those(ids[1..])
    ensures Those(ids) == {ids[0]} + Those(ids[1..])
  {
    forall k | 0 <= k < |ids[1..]| ensures ids[1..][k] != ids[0] {
      assert ids[1..][k] == ids[k + 1];
    }
  }

  // ---------------------------------------------------------------- the transactions

  /** The owners have no claim, no job that owns resources, and no deployment whose outcome is unknown. */
  predicate Idle(s: State, ids: seq<Id>) {
    && (forall c :: c in s.claims && s.claims[c].owner in ids ==> s.claims[c].state != Held)
    && (forall j :: j in s.jobs && s.jobs[j].owner in ids ==> s.jobs[j].state !in {Claimed, Running, Reconciling})
    && forall r :: r in s.reservations && s.reservations[r].owner in ids && s.reservations[r].state != Released ==>
         forall i :: 0 <= i < |s.reservations[r].history| ==> s.reservations[r].history[i].outcome != Unknown
  }

  lemma IdleIs(s: State, ids: seq<Id>)
    ensures Idle(s, ids) <==> IdleOwners(s, Those(ids))
  {
    assert forall o :: o in ids <==> o in Those(ids);
  }

  /** Waiting claims of fenced owners are withdrawn; other claims stay. */
  ghost predicate ClaimsWithdrawn(owners: Owners, a: Claims, b: Claims) {
    && b.Keys == a.Keys
    && forall c :: c in a ==>
         if a[c].state == Waiting && a[c].owner in owners && owners[a[c].owner].fence.Some? then
           b[c] == a[c].(state := Withdrawn, notify := false, revision := a[c].revision + 1)
         else b[c] == a[c]
  }

  lemma SyncWithdraws(s: State)
    ensures Sync(s) == s.(claims := Sync(s).claims) && ClaimsWithdrawn(s.owners, s.claims, Sync(s).claims)
  {
  }

  /** When fences may be raised for an archive or a delete. */
  predicate MayBeFenced(s: State, command: Command, ids: seq<Id>) {
    && command != Revive && (forall i, k :: 0 <= i < k < |ids| ==> ids[i] != ids[k]) && Idle(s, ids)
    && MayRaise(s.owners, ids, command)
  }

  /** Fencing succeeds exactly when it may, and does to every record what a fence does. */
  lemma FenceMeans(s: State, command: Command, ids: seq<Id>)
    ensures MayFence(s, command, ids) <==> MayBeFenced(s, command, ids)
    ensures var t := Fenced(s, command, ids);
      if MayBeFenced(s, command, ids) then
        && FencesRaised(s, t.(claims := s.claims), Those(ids), command)
        && ClaimsWithdrawn(t.owners, s.claims, t.claims)
      else t == s
  {
    IdleIs(s, ids);
    if Distinct(ids) {
      FencingExact(s, ids, command);
    }
    hide Idle, IdleOwners, FencesRaised, MayRaise, FenceOwners, ClaimsWithdrawn;
    if MayFence(s, command, ids) {
      var t := FenceOwners(s, ids, command).value;
      SyncWithdraws(t);
      hide Sync;
      assert t.claims == s.claims by {
        ClaimsApart(s, t, Those(ids), command);
      }
      assert Sync(t).(claims := s.claims) == t;
    }
  }

  lemma ClaimsApart(s: State, t: State, ids: set<Id>, command: Command)
    requires FencesRaised(s, t, ids, command)
    ensures t.claims == s.claims
  {
    hide OwnersFenced, JobsFenced, ReservationsFenced, EventsFenced;
  }

  // ---------------------------------------------------------------- bound to an operation

  ghost predicate OwnersBound(a: Owners, b: Owners, ids: set<Id>, operation: Id) {
    && b.Keys == a.Keys
    && forall o :: o in a ==>
         if o in ids then
           && a[o].fence.Some? && a[o].fence.value.operation in {None, Some(operation)}
           && b[o] == a[o].(fence := Some(a[o].fence.value.(operation := Some(operation))))
         else b[o] == a[o]
  }

  lemma OwnersBoundTwice(a: Owners, b: Owners, c: Owners, o: Id, ids: set<Id>, operation: Id)
    requires o !in ids && OwnersBound(a, b, {o}, operation) && OwnersBound(b, c, ids, operation)
    ensures OwnersBound(a, c, {o} + ids, operation)
  {
  }

  lemma {:induction false} BindingMeans(s: State, ids: seq<Id>, operation: Id)
    requires Distinct(ids) && BoundFences(s, ids, operation).Success?
    ensures var t := BoundFences(s, ids, operation).value;
      t == s.(owners := t.owners) && OwnersBound(s.owners, t.owners, Those(ids), operation)
    decreases ids
  {
    hide SameRecords, Distinct;
    if ids == [] {
      assert Those(ids) == {};
    } else {
      var f := s.owners[ids[0]].fence.value;
      var b := s.owners[ids[0] := s.owners[ids[0]].(fence := Some(f.(operation := Some(operation))))];
      assert OwnersBound(s.owners, b, {ids[0]}, operation);
      hide OwnersBound;
      FirstApart(ids);
      BindingMeans(s.(owners := b), ids[1..], operation);
      OwnersBoundTwice(s.owners, b, BoundFences(s, ids, operation).value.owners, ids[0], Those(ids[1..]), operation);
    }
  }

  /** The fences of a first binding name its command and operation. */
  ghost predicate FencesBound(a: Owners, b: Owners, ids: set<Id>, command: Command, operation: Id) {
    && b.Keys == a.Keys
    && forall o :: o in a ==>
         if o in ids then
           && b[o] == a[o].(fence := b[o].fence) && b[o].fence.Some? && b[o].fence.value.command == command
           && b[o].fence.value.operation == Some(operation)
         else b[o] == a[o]
  }

  lemma RaisedThenBound(a: Owners, b: Owners, c: Owners, ids: set<Id>, command: Command, operation: Id)
    requires OwnersFenced(a, b, ids, command) && OwnersBound(b, c, ids, operation)
    ensures FencesBound(a, c, ids, command, operation)
  {
  }

  /** Owners, identities and operation as the receipt of a lifecycle operation names them. */
  predicate ReceiptOf(l: Lifecycle, owners: Owners, workspace: string, slug: string, command: Command, ids: seq<Id>) {
    && l.workspace == workspace && l.slug == slug && l.command == command && l.archive.None? && !l.completed
    && |l.owners| == |ids|
    && forall k :: 0 <= k < |ids| ==>
         l.owners[k].id == ids[k] && ids[k] in owners && l.owners[k].identity == owners[ids[k]].identity
  }

  /** The owners are fenced under the operation, and its receipt names them. */
  ghost predicate BoundAs(s: State, t: State, workspace: string, slug: string, command: Command, operation: Id,
      ids: seq<Id>) {
    && FencesBound(s.owners, t.owners, Those(ids), command, operation) && JobsFenced(s.jobs, t.jobs, Those(ids))
    && ReservationsFenced(s.reservations, t.reservations, Those(ids), command)
    && EventsFenced(s.outbox, t.outbox, Those(ids)) && ClaimsWithdrawn(t.owners, s.claims, t.claims)
    && operation in t.lifecycles && t.lifecycles == s.lifecycles[operation := t.lifecycles[operation]]
    && ReceiptOf(t.lifecycles[operation], s.owners, workspace, slug, command, ids)
    && SameRecords(s, t)
  }

  /** A first binding fences its owners, binds their fences and enters the receipt. */
  lemma BindMeans(s: State, workspace: string, slug: string, command: Command, operation: Id, ids: seq<Id>,
      capacity: bool)
    requires operation !in s.lifecycles && ids != []
    requires Ledger.BindLifecycle(s, workspace, slug, command, operation, ids, capacity).Success?
    ensures capacity && MayBeFenced(s, command, ids)
    ensures var t := Ledger.BindLifecycle(s, workspace, slug, command, operation, ids, capacity).value;
      BoundAs(s, t, workspace, slug, command, operation, ids)
  {
    IdleIs(s, ids);
    FencingExact(s, ids, command);
    var s1 := FenceOwners(s, ids, command).value;
    BindingMeans(s1, ids, operation);
    var s2 := BoundFences(s1, ids, operation).value;
    RaisedThenBound(s.owners, s1.owners, s2.owners, Those(ids), command, operation);
    var s3 := s2.(lifecycles := s2.lifecycles[operation := Lifecycle(workspace, slug, command, Bindings(s2, ids), None,
      false)]);
    SyncWithdraws(s3);
    BoundReceipt(s, s2, workspace, slug, command, operation, ids);
    hide Idle, IdleOwners, MayRaise, FenceOwners, BoundFences, ClaimsWithdrawn, Sync, Bindings, OwnersFenced,
      JobsFenced, ReservationsFenced, EventsFenced, OwnersBound, FencesBound, ReceiptOf;
  }

  lemma BoundReceipt(s: State, t: State, workspace: string, slug: string, command: Command, operation: Id,
      ids: seq<Id>)
    requires FencesBound(s.owners, t.owners, Those(ids), command, operation)
    requires forall i :: i in ids ==> i in t.owners
    ensures ReceiptOf(Lifecycle(workspace, slug, command, Bindings(t, ids), None, false), s.owners, workspace, slug,
      command, ids)
  {
    forall k | 0 <= k < |ids| ensures ids[k] in Those(ids) {
    }
  }

  // ---------------------------------------------------------------- revival

  function BoundIds(bindings: seq<Binding>): set<Id> {
    set b | b in bindings :: b.id
  }

  ghost predicate FencesLifted(a: Owners, b: Owners, ids: set<Id>, archive: Option<Id>) {
    && b.Keys == a.Keys && ids <= a.Keys
    && forall o :: o in a ==>
         if o in ids then
           && a[o].fence.Some? && a[o].fence.value.completed && a[o].fence.value.operation == archive
           && b[o] == a[o].(fence := None)
         else b[o] == a[o]
  }

  ghost predicate EventsFreed(a: Outbox, b: Outbox, ids: set<Id>) {
    && b.Keys == a.Keys
    && forall e :: e in a ==>
         b[e] == if a[e].owner in ids && a[e].state == Parked then a[e].(state := Pending) else a[e]
  }

  lemma LiftedTwice(a: Owners, b: Owners, c: Owners, o: Id, ids: set<Id>, archive: Option<Id>)
    requires FencesLifted(a, b, {o}, archive) && FencesLifted(b, c, ids, archive)
    ensures FencesLifted(a, c, {o} + ids, archive)
  {
  }

  lemma FreedTwice(a: Outbox, b: Outbox, c: Outbox, o: Id, ids: set<Id>)
    requires EventsFreed(a, b, {o}) && EventsFreed(b, c, ids)
    ensures EventsFreed(a, c, {o} + ids)
  {
  }

  /** A revival lifts completed fences of the archive and sends what was parked; it restores nothing else. */
  lemma {:induction false} RevivingMeans(s: State, bindings: seq<Binding>, archive: Option<Id>)
    requires ReviveOwners(s, bindings, archive).Success?
    ensures var t := ReviveOwners(s, bindings, archive).value;
      && t == s.(owners := t.owners, outbox := t.outbox)
      && FencesLifted(s.owners, t.owners, BoundIds(bindings), archive)
      && EventsFreed(s.outbox, t.outbox, BoundIds(bindings))
    decreases bindings
  {
    if bindings == [] {
      assert BoundIds(bindings) == {};
    } else {
      var o, s1 := bindings[0].id, ReviveOwner(s, bindings[0].id);
      assert FencesLifted(s.owners, s1.owners, {o}, archive) && EventsFreed(s.outbox, s1.outbox, {o});
      assert BoundIds(bindings) == {o} + BoundIds(bindings[1..]);
      RevivingMeans(s1, bindings[1..], archive);
      hide FencesLifted, EventsFreed, BoundIds, ReleasedEvents;
      var t := ReviveOwners(s, bindings, archive).value;
      LiftedTwice(s.owners, s1.owners, t.owners, o, BoundIds(bindings[1..]), archive);
      FreedTwice(s.outbox, s1.outbox, t.outbox, o, BoundIds(bindings[1..]));
    }
  }

  /** A revival lifts the fences its receipt names, frees their events and marks the receipt; nothing else returns. */
  ghost predicate RevivedAs(s: State, t: State, operation: Id)
    requires operation in s.lifecycles
  {
    var l := s.lifecycles[operation];
    && FencesLifted(s.owners, t.owners, BoundIds(l.owners), l.archive)
    && EventsFreed(s.outbox, t.outbox, BoundIds(l.owners))
    && ClaimsWithdrawn(t.owners, s.claims, t.claims)
    && t.lifecycles == s.lifecycles[operation := l.(completed := true)]
    && t == s.(owners := t.owners, outbox := t.outbox, claims := t.claims, lifecycles := t.lifecycles)
  }

  lemma ReviveMeans(s: State, workspace: string, slug: string, operation: Id)
    ensures var r := Revived(s, workspace, slug, operation);
      r.Success? && operation in s.lifecycles && !s.lifecycles[operation].completed ==> RevivedAs(s, r.value, operation)
  {
    var r := Revived(s, workspace, slug, operation);
    if r.Success? && operation in s.lifecycles && !s.lifecycles[operation].completed {
      var l := s.lifecycles[operation];
      RevivingMeans(s, l.owners, l.archive);
      var s1 := ReviveOwners(s, l.owners, l.archive).value;
      SyncWithdraws(s1.(lifecycles := s1.lifecycles[operation := l.(completed := true)]));
      hide ReviveOwners, FencesLifted, EventsFreed, ClaimsWithdrawn, Sync, SameRecords, SameOwners;
    }
  }

  // ---------------------------------------------------------------- completion

  /** The named incarnations whose fence belongs to the operation. */
  function Bearers(owners: Owners, bindings: seq<Binding>, operation: Id): set<Id> {
    set b | b in bindings && b.id in owners && owners[b.id].identity == b.identity &&
            owners[b.id].fence.Some? && owners[b.id].fence.value.operation == Some(operation) :: b.id
  }

  ghost predicate OwnersCompleted(a: Owners, b: Owners, ids: set<Id>) {
    && b.Keys == a.Keys
    && forall o :: o in a ==>
         if o in ids then a[o].fence.Some? && b[o] == a[o].(fence := Some(a[o].fence.value.(completed := true)))
         else b[o] == a[o]
  }

  ghost predicate ReservationsReleased(a: Reservations, b: Reservations, ids: set<Id>) {
    && b.Keys == a.Keys
    && forall r :: r in a ==>
         if a[r].owner in ids && a[r].state != Released
         then b[r] == a[r].(state := Released, revision := a[r].revision + 1) else b[r] == a[r]
  }

  /** Completing an archive completes the fences of its owners and releases their machines; a delete only the former. */
  ghost predicate FencesCompleted(s: State, t: State, ids: set<Id>, command: Command) {
    && OwnersCompleted(s.owners, t.owners, ids)
    && (command == Archive ==> ReservationsReleased(s.reservations, t.reservations, ids))
    && (command != Archive ==> t.reservations == s.reservations)
    && t == s.(owners := t.owners, reservations := t.reservations)
  }

  lemma CompletedTwice(s: State, t: State, u: State, o: Id, ids: set<Id>, command: Command)
    requires FencesCompleted(s, t, {o}, command) && FencesCompleted(t, u, ids, command)
    ensures FencesCompleted(s, u, {o} + ids, command)
  {
    OwnersCompletedTwice(s.owners, t.owners, u.owners, o, ids);
    if command == Archive {
      ReleasedTwice(s.reservations, t.reservations, u.reservations, o, ids);
    }
    hide OwnersCompleted, ReservationsReleased;
  }

  lemma OwnersCompletedTwice(a: Owners, b: Owners, c: Owners, o: Id, ids: set<Id>)
    requires OwnersCompleted(a, b, {o}) && OwnersCompleted(b, c, ids)
    ensures OwnersCompleted(a, c, {o} + ids)
  {
  }

  lemma ReleasedTwice(a: Reservations, b: Reservations, c: Reservations, o: Id, ids: set<Id>)
    requires ReservationsReleased(a, b, {o}) && ReservationsReleased(b, c, ids)
    ensures ReservationsReleased(a, c, {o} + ids)
  {
  }

  lemma OneCompleted(s: State, o: Id, command: Command)
    requires o in s.owners && s.owners[o].fence.Some?
    ensures FencesCompleted(s, CompleteOwner(s, o, command), {o}, command)
  {
    hide SameRecords;
  }

  lemma BearersStay(a: Owners, b: Owners, bindings: seq<Binding>, operation: Id, o: Id)
    requires OwnersCompleted(a, b, {o})
    ensures Bearers(b, bindings, operation) == Bearers(a, bindings, operation)
  {
  }

  lemma FirstBearer(owners: Owners, bindings: seq<Binding>, operation: Id)
    requires bindings != []
    ensures Bearers(owners, bindings, operation) ==
      Bearers(owners, bindings[..1], operation) + Bearers(owners, bindings[1..], operation)
  {
    assert bindings == bindings[..1] + bindings[1..];
  }

  lemma {:induction false} CompletingMeans(s: State, bindings: seq<Binding>, command: Command, operation: Id,
      done: bool)
    requires CompleteOwners(s, bindings, command, operation, done).Success?
    ensures FencesCompleted(s, CompleteOwners(s, bindings, command, operation, done).value,
      Bearers(s.owners, bindings, operation), command)
    decreases bindings
  {
    hide SameRecords, IdleOwners;
    if bindings == [] {
      assert Bearers(s.owners, bindings, operation) == {};
    } else {
      var b, rest := bindings[0], bindings[1..];
      FirstBearer(s.owners, bindings, operation);
      if s.owners[b.id].identity != b.identity || s.owners[b.id].fence.None? ||
        s.owners[b.id].fence.value.operation != Some(operation)
      {
        assert Bearers(s.owners, bindings[..1], operation) == {};
        hide FencesCompleted, CompleteOwner, Bearers;
        CompletingMeans(s, rest, command, operation, done);
      } else {
        assert Bearers(s.owners, bindings[..1], operation) == {b.id};
        var s1 := CompleteOwner(s, b.id, command);
        OneCompleted(s, b.id, command);
        BearersStay(s.owners, s1.owners, rest, operation, b.id);
        hide FencesCompleted, CompleteOwner, Bearers;
        CompletingMeans(s1, rest, command, operation, done);
        CompletedTwice(s, s1, CompleteOwners(s1, rest, command, operation, done).value, b.id,
          Bearers(s.owners, rest, operation), command);
      }
    }
  }

  /** A completion marks its receipt and completes the fences of exactly the owners that still bear the operation. */
  ghost predicate CompletedAs(s: State, t: State, operation: Id)
    requires operation in s.lifecycles
  {
    var l := s.lifecycles[operation];
    && FencesCompleted(s, t.(claims := s.claims, lifecycles := s.lifecycles), Bearers(s.owners, l.owners, operation),
         l.command)
    && ClaimsWithdrawn(t.owners, s.claims, t.claims)
    && t.lifecycles == s.lifecycles[operation := l.(completed := true)]
  }

  lemma CompletionMeans(s: State, workspace: string, slug: string, command: Command, operation: Id)
    ensures var r := CompleteLifecycle(s, workspace, slug, command, operation);
      r.Success? && operation in s.lifecycles ==> CompletedAs(s, r.value, operation)
  {
    var r := CompleteLifecycle(s, workspace, slug, command, operation);
    if r.Success? && operation in s.lifecycles {
      var l := s.lifecycles[operation];
      CompletingMeans(s, l.owners, command, operation, l.completed);
      var s1 := CompleteOwners(s, l.owners, command, operation, l.completed).value;
      var s2 := s1.(lifecycles := s1.lifecycles[operation := l.(completed := true)]);
      SyncWithdraws(s2);
      CompletedApart(s, s1, Bearers(s.owners, l.owners, operation), command);
      hide CompleteOwners, FencesCompleted, ClaimsWithdrawn, Sync, SameRecords, SameOwners, Bearers;
      assert r.value.(claims := s.claims, lifecycles := s.lifecycles) == s1;
    }
  }

  lemma CompletedApart(s: State, t: State, ids: set<Id>, command: Command)
    requires FencesCompleted(s, t, ids, command)
    ensures t.claims == s.claims && t.lifecycles == s.lifecycles
  {
    hide OwnersCompleted, ReservationsReleased;
  }

  // ---------------------------------------------------------------- binding a revival

  /** A revival may be bound to a completed archive of the same session, with capacity for its receipt. */
  predicate MayBindRevival(s: State, workspace: string, slug: string, archive: Id, capacity: bool) {
    && archive in s.lifecycles && s.lifecycles[archive].completed && s.lifecycles[archive].command == Archive
    && s.lifecycles[archive].workspace == workspace && s.lifecycles[archive].slug == slug && capacity
  }

  /** A first binding to a known archive enters a receipt with the archive's owners, or is refused. */
  lemma RevivalMeans(s: State, workspace: string, slug: string, operation: Id, archive: Id, capacity: bool)
    requires operation !in s.lifecycles && archive in s.lifecycles
    ensures var r := BindRevival(s, workspace, slug, operation, archive, capacity);
      && (r.Success? <==> MayBindRevival(s, workspace, slug, archive, capacity))
      && (r.Success? ==>
            && r.value == s.(lifecycles := s.lifecycles[operation := Lifecycle(workspace, slug, Revive,
                 s.lifecycles[archive].owners, Some(archive), false)], claims := r.value.claims)
            && ClaimsWithdrawn(s.owners, s.claims, r.value.claims))
  {
    SyncWithdraws(s.(lifecycles := s.lifecycles[operation := Lifecycle(workspace, slug, Revive,
      s.lifecycles[archive].owners, Some(archive), false)]));
    hide Sync, ClaimsWithdrawn, SameRecords, SameOwners;
  }
}
