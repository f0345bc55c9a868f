/**
 Lifecycle fences: what raising, completing and lifting a fence keeps.
 Between raising a fence and the end of its transaction the waiting claims of the
 owner are still to be withdrawn, so these facts speak of the synchronized state.
 */
module LedgerFencing {
  import opened Wrappers
  import opened MachinePolicy
  import opened Ledger
  import opened LedgerInvariant

  /** Synchronizing a sound state changes nothing. */
  lemma SyncIdle(norm: Norm, s: State)
    requires Inv(norm, s)
    ensures Sync(s) == s
  {
    forall c | c in s.claims && s.claims[c].state.Waiting?
      ensures s.claims[c].owner in s.owners && s.owners[s.claims[c].owner].fence.None?
    {
    }
    assert WithdrawnClaims(s.owners, s.claims) == s.claims;
  }

  // ---------------------------------------------------------------- raising a fence

  ghost predicate SameIdentities(a: Owners, b: Owners) {
    a.Keys == b.Keys && forall o :: o in a ==> a[o].identity == b[o].identity
  }

  lemma IdentitiesKeep(a: Owners, b: Owners, outbox: Outbox, lifecycles: map<Id, Lifecycle>)
    requires SameIdentities(a, b) && EventsSound(a, outbox) && LifecyclesSound(a, lifecycles)
    ensures EventsSound(b, outbox) && LifecyclesSound(b, lifecycles)
  {
    forall l | l in lifecycles ensures BindingsKnown(b, lifecycles[l].owners) {
      assert BindingsKnown(a, lifecycles[l].owners);
    }
  }

  /** Withdrawing changes neither who owns a claim, nor its place, nor what is held. */
  lemma WithdrawnSame(owners: Owners, claims: Claims)
    ensures var w := WithdrawnClaims(owners, claims);
            && w.Keys == claims.Keys && |w| == |claims|
            && forall c :: c in claims ==>
                 && w[c].owner == claims[c].owner && w[c].sequence == claims[c].sequence
                   && w[c].resources == claims[c].resources
                 && (w[c].state.Held? <==> claims[c].state.Held?)
  {
    var w := WithdrawnClaims(owners, claims);
    assert w.Keys == claims.Keys;
    assert |w| == |w.Keys| && |claims| == |claims.Keys|;
  }

  /** What the exclusion facts say of the claims is the same before and after withdrawing. */
  lemma WithdrawKeeps(norm: Norm, owners: Owners, after: Owners, jobs: Jobs, claims: Claims)
    requires var w := WithdrawnClaims(owners, claims);
             ClaimsSound(owners, w) && ClaimsExclusive(norm, w) && ProtocolsExclusive(norm, jobs, w)
    requires owners.Keys == after.Keys
    ensures var v := WithdrawnClaims(after, claims);
            ClaimsSound(after, v) && ClaimsExclusive(norm, v) && ProtocolsExclusive(norm, jobs, v)
  {
    WithdrawnSame(owners, claims);
    WithdrawnSame(after, claims);
    hide WithdrawnClaims;
    var w, v := WithdrawnClaims(owners, claims), WithdrawnClaims(after, claims);
    assert v.Keys == w.Keys;
    assert forall c :: c in v ==> v[c].owner == w[c].owner && v[c].sequence == w[c].sequence;
    assert forall c :: c in v ==> v[c].resources == w[c].resources && (v[c].state.Held? <==> w[c].state.Held?);
  }

  lemma FencedJobs(norm: Norm, owners: Owners, after: Owners, next: nat, reservations: Reservations, jobs: Jobs,
      claims: Claims, o: Id, command: Command)
    requires JobsSound(owners, next, reservations, jobs) && JobsExclusive(norm, jobs)
    requires ProtocolsExclusive(norm, jobs, claims)
    requires owners.Keys == after.Keys
    requires forall j :: j in jobs && jobs[j].owner == o ==> !Active(jobs[j].state)
    ensures JobsSound(after, next, FencedReservations(reservations, o, command), CanceledJobs(jobs, o))
    ensures JobsExclusive(norm, CanceledJobs(jobs, o)) && ProtocolsExclusive(norm, CanceledJobs(jobs, o), claims)
  {
    hide *;
    CanceledSound(owners, after, next, reservations, jobs, o, command);
    CanceledExclusive(norm, jobs, claims, o);
  }

  lemma CanceledSound(owners: Owners, after: Owners, next: nat, reservations: Reservations, jobs: Jobs, o: Id,
      command: Command)
    requires JobsSound(owners, next, reservations, jobs) && owners.Keys == after.Keys
    requires forall j :: j in jobs && jobs[j].owner == o ==> !Active(jobs[j].state)
    ensures JobsSound(after, next, FencedReservations(reservations, o, command), CanceledJobs(jobs, o))
  {
    var rs, js := FencedReservations(reservations, o, command), CanceledJobs(jobs, o);
    forall j | j in js ensures JobSound(after, next, rs, js, js[j]) {
      CanceledJobSound(owners, after, next, reservations, jobs, o, command, j);
    }
  }

  lemma CanceledJobSound(owners: Owners, after: Owners, next: nat, reservations: Reservations, jobs: Jobs, o: Id,
      command: Command, j: Id)
    requires JobsSound(owners, next, reservations, jobs) && owners.Keys == after.Keys && j in jobs
    requires jobs[j].owner == o ==> !Active(jobs[j].state)
    ensures JobSound(after, next, FencedReservations(reservations, o, command), CanceledJobs(jobs, o),
              CanceledJobs(jobs, o)[j])
  {
    assert JobSound(owners, next, reservations, jobs, jobs[j]);
    hide JobsSound;
  }

  lemma CanceledExclusive(norm: Norm, jobs: Jobs, claims: Claims, o: Id)
    requires JobsExclusive(norm, jobs) && ProtocolsExclusive(norm, jobs, claims)
    ensures JobsExclusive(norm, CanceledJobs(jobs, o)) && ProtocolsExclusive(norm, CanceledJobs(jobs, o), claims)
  {
    hide Keys;
  }

  lemma FencedMachines(norm: Norm, owners: Owners, after: Owners, next: nat, reservations: Reservations, o: Id,
      command: Command)
    requires ReservationsSound(owners, next, reservations) && MachinesExclusive(norm, reservations)
    requires owners.Keys == after.Keys
    ensures var rs := FencedReservations(reservations, o, command);
            ReservationsSound(after, next, rs) && MachinesExclusive(norm, rs)
  {
    var rs := FencedReservations(reservations, o, command);
    forall r | r in rs
      ensures Occupied(rs[r].state) ==> Occupied(reservations[r].state)
      ensures rs[r].state.Requested? ==> rs[r].history == []
      ensures reservations[r].state.Released? ==> rs[r].state.Released?
    {
    }
    forall r, q | r in rs && q in rs && r != q ensures Separate(rs[r], rs[q]) {
      assert Separate(reservations[r], reservations[q]);
    }
  }

  lemma FencedOwnerQuiet(owners: Owners, jobs: Jobs, claims: Claims, reservations: Reservations, o: Id,
      command: Command)
    requires FencedQuiet(owners, jobs, WithdrawnClaims(owners, claims), reservations) && o in owners
    requires forall c :: c in claims && claims[c].owner == o ==> !claims[c].state.Held?
    requires ReservationsQuiet(reservations, o)
    ensures var after := owners[o := owners[o].(fence := Some(RaisedFence(owners[o].fence, command)))];
            FencedQuiet(after, CanceledJobs(jobs, o), WithdrawnClaims(after, claims),
              FencedReservations(reservations, o, command))
  {
    var after := owners[o := owners[o].(fence := Some(RaisedFence(owners[o].fence, command)))];
    var js, w, v, rs := CanceledJobs(jobs, o), WithdrawnClaims(after, claims), WithdrawnClaims(owners, claims),
      FencedReservations(reservations, o, command);
    forall p | p in after && after[p].fence.Some?
      ensures JobsQuiet(js, p) && ClaimsQuiet(w, p) && ReservationsQuiet(rs, p)
      ensures (Archived(after[p].fence) ==> AllReleased(rs, p))
    {
      if p != o {
        assert JobsQuiet(jobs, p) && ClaimsQuiet(v, p) && ReservationsQuiet(reservations, p);
        assert forall c :: c in w && w[c].owner == p ==> w[c] == v[c];
      } else if Archived(after[o].fence) {
        assert owners[o].fence == after[o].fence;
        assert AllReleased(reservations, o);
      }
    }
  }

  lemma FenceOwnerKeeps(norm: Norm, s: State, o: Id, command: Command)
    requires Inv(norm, Sync(s)) && o in s.owners && IdleOwners(s, {o})
    ensures var t := FenceOwner(s, o, command);
            Inv(norm, Sync(t)) && (Silent(s) ==> Silent(t)) && SameIdentities(s.owners, t.owners)
  {
    var t := FenceOwner(s, o, command);
    IdleOwner(s, o);
    assert SameIdentities(s.owners, t.owners);
    ParkedSilent(s.owners, t.owners, s.outbox, o);
    hide JobsSound, ReservationsSound, MachinesExclusive, JobsExclusive, ProtocolsExclusive, ClaimsExclusive,
      ClaimsSound, FencedQuiet, EventsSound, LifecyclesSound, QuietOutbox, IdleOwners, SameIdentities;
    FencedJobs(norm, s.owners, t.owners, s.next, s.reservations, s.jobs, WithdrawnClaims(s.owners, s.claims), o,
      command);
    FencedMachines(norm, s.owners, t.owners, s.next, s.reservations, o, command);
    FencedOwnerQuiet(s.owners, s.jobs, s.claims, s.reservations, o, command);
    IdentitiesKeep(s.owners, t.owners, s.outbox, s.lifecycles);
    WithdrawKeeps(norm, s.owners, t.owners, t.jobs, s.claims);
  }

  lemma IdleOwner(s: State, o: Id)
    requires IdleOwners(s, {o})
    ensures ReservationsQuiet(s.reservations, o)
    ensures forall j :: j in s.jobs && s.jobs[j].owner == o ==> !Active(s.jobs[j].state)
    ensures forall c :: c in s.claims && s.claims[c].owner == o ==> !s.claims[c].state.Held?
  {
  }

  lemma ParkedSilent(owners: Owners, after: Owners, outbox: Outbox, o: Id)
    requires o in owners && o in after && after == owners[o := after[o]]
    ensures EventsSound(owners, outbox) ==> EventsSound(after, ParkedEvents(outbox, o))
    ensures QuietOutbox(owners, outbox) ==> QuietOutbox(after, ParkedEvents(outbox, o))
  {
  }

  lemma {:induction false} FenceOwnersKeep(norm: Norm, s: State, ids: seq<Id>, command: Command)
    requires Inv(norm, Sync(s)) && IdleOwners(s, set i | i in ids)
    ensures var t := FenceOwners(s, ids, command);
            t.Success? ==>
              && Inv(norm, Sync(t.value)) && (Silent(s) ==> Silent(t.value))
              && SameIdentities(s.owners, t.value.owners)
    decreases ids
  {
    hide Inv, Silent, Sync, IdleOwners, FenceOwner, SameIdentities;
    if ids == [] {
      SameSelf(s.owners);
    } else if ids[0] in s.owners {
      FewerIdle(s, set i | i in ids, {ids[0]});
      FenceOwnerKeeps(norm, s, ids[0], command);
      FenceKeepsIdle(s, ids[0], command, set i | i in ids);
      var s1 := FenceOwner(s, ids[0], command);
      FewerIdle(s1, set i | i in ids, set i | i in ids[1..]);
      FenceOwnersKeep(norm, s1, ids[1..], command);
      var t := FenceOwners(s1, ids[1..], command);
      if t.Success? {
        SameTrans(s.owners, s1.owners, t.value.owners);
      }
    }
  }

  lemma SameSelf(a: Owners)
    ensures SameIdentities(a, a)
  {
  }

  lemma SameTrans(a: Owners, b: Owners, c: Owners)
    requires SameIdentities(a, b) && SameIdentities(b, c)
    ensures SameIdentities(a, c)
  {
  }

  lemma FewerIdle(s: State, ids: set<Id>, some: set<Id>)
    requires IdleOwners(s, ids) && some <= ids
    ensures IdleOwners(s, some)
  {
  }

  lemma FenceKeepsIdle(s: State, o: Id, command: Command, ids: set<Id>)
    requires o in s.owners && IdleOwners(s, ids)
    ensures IdleOwners(FenceOwner(s, o, command), ids)
  {
  }

  // ---------------------------------------------------------------- relabelling fences

  /** The same owners are fenced, and no owner became archived. */
  ghost predicate SameFences(a: Owners, b: Owners) {
    && SameIdentities(a, b)
    && forall o :: o in a ==> (a[o].fence.Some? <==> b[o].fence.Some?) && (Archived(b[o].fence) ==>
      Archived(a[o].fence))
  }

  lemma RelabelKeeps(norm: Norm, s: State, owners: Owners)
    requires Inv(norm, Sync(s)) && SameFences(s.owners, owners)
    ensures Inv(norm, Sync(s.(owners := owners))) && (Silent(s) ==> Silent(s.(owners := owners)))
  {
    hide JobsSound, ReservationsSound, MachinesExclusive, JobsExclusive, ProtocolsExclusive, ClaimsExclusive,
      ClaimsSound, FencedQuiet, EventsSound, LifecyclesSound;
    assert WithdrawnClaims(owners, s.claims) == WithdrawnClaims(s.owners, s.claims);
    RelabelParts(s.owners, owners, s.next, s.reservations, s.jobs, WithdrawnClaims(s.owners, s.claims));
    IdentitiesKeep(s.owners, owners, s.outbox, s.lifecycles);
  }

  lemma RelabelParts(a: Owners, b: Owners, next: nat, reservations: Reservations, jobs: Jobs, claims: Claims)
    requires SameFences(a, b)
    requires JobsSound(a, next, reservations, jobs) && ReservationsSound(a, next, reservations)
    requires ClaimsSound(a, claims)
    requires FencedQuiet(a, jobs, claims, reservations)
    ensures JobsSound(b, next, reservations, jobs) && ReservationsSound(b, next, reservations) && ClaimsSound(b, claims)
    ensures FencedQuiet(b, jobs, claims, reservations)
  {
    forall j | j in jobs ensures JobSound(b, next, reservations, jobs, jobs[j]) {
      assert JobSound(a, next, reservations, jobs, jobs[j]);
    }
  }

  lemma {:induction false} BoundFencesKeep(norm: Norm, s: State, ids: seq<Id>, operation: Id)
    requires Inv(norm, Sync(s))
    ensures var t := BoundFences(s, ids, operation);
            t.Success? ==>
              && Inv(norm, Sync(t.value)) && (Silent(s) ==> Silent(t.value))
              && SameIdentities(s.owners, t.value.owners) && t.value.lifecycles == s.lifecycles
    decreases ids
  {
    hide Inv, Silent, Sync;
    if ids != [] && ids[0] in s.owners && s.owners[ids[0]].fence.Some? {
      var f := s.owners[ids[0]].fence.value;
      var owners := s.owners[ids[0] := s.owners[ids[0]].(fence := Some(f.(operation := Some(operation))))];
      RelabelKeeps(norm, s, owners);
      BoundFencesKeep(norm, s.(owners := owners), ids[1..], operation);
    }
  }

  lemma NewLifecycle(norm: Norm, s: State, operation: Id, l: Lifecycle)
    requires Inv(norm, Sync(s)) && BindingsKnown(s.owners, l.owners)
    requires operation in s.lifecycles ==>
               var a := s.lifecycles[operation]; a.command == l.command && a.owners == l.owners && (a.completed ==>
                 l.completed)
    requires l.command.Revive? ==> OfArchive(s.lifecycles, l)
    ensures Inv(norm, Sync(s.(lifecycles := s.lifecycles[operation := l])))
  {
    hide JobsSound, ReservationsSound, MachinesExclusive, JobsExclusive, ProtocolsExclusive, ClaimsExclusive,
      ClaimsSound, FencedQuiet, EventsSound, WithdrawnClaims;
  }

  lemma BindLifecycleKeeps(norm: Norm, s: State, workspace: string, slug: string, command: Command, operation: Id,
      ids: seq<Id>, capacity: bool)
    requires Inv(norm, s)
    ensures var t := BindLifecycle(s, workspace, slug, command, operation, ids, capacity);
            t.Success? ==> Inv(norm, t.value) && (Silent(s) ==> Silent(t.value))
  {
    hide Inv, Silent, Sync, IdleOwners, FenceOwners, BoundFences, Bindings, Distinct;
    SyncIdle(norm, s);
    if operation !in s.lifecycles && ids != [] && !command.Revive? && IdleOwners(s, set i | i in ids) {
      FenceOwnersKeep(norm, s, ids, command);
      var t := FenceOwners(s, ids, command);
      if t.Success? {
        FenceOwnersLifecycles(s, ids, command);
        BoundFencesKeep(norm, t.value, ids, operation);
        var u := BoundFences(t.value, ids, operation);
        if u.Success? && forall i :: i in ids ==> i in u.value.owners {
          RecordLifecycle(norm, u.value, workspace, slug, command, operation, ids);
        }
      }
    }
  }

  lemma RecordLifecycle(norm: Norm, s: State, workspace: string, slug: string, command: Command, operation: Id,
      ids: seq<Id>)
    requires Inv(norm, Sync(s)) && !command.Revive? && operation !in s.lifecycles
    requires forall i :: i in ids ==> i in s.owners
    ensures var t := Sync(s.(lifecycles := s.lifecycles[operation := Lifecycle(workspace, slug, command,
      Bindings(s, ids), None, false)]));
            Inv(norm, t) && (Silent(s) ==> Silent(t))
  {
    hide Inv;
    NewLifecycle(norm, s, operation, Lifecycle(workspace, slug, command, Bindings(s, ids), None, false));
  }

  lemma {:induction false} FenceOwnersLifecycles(s: State, ids: seq<Id>, command: Command)
    ensures var t := FenceOwners(s, ids, command); t.Success? ==> t.value.lifecycles == s.lifecycles
    decreases ids
  {
    if ids != [] && ids[0] in s.owners {
      FenceOwnersLifecycles(FenceOwner(s, ids[0], command), ids[1..], command);
    }
  }

  lemma BindRevivalKeeps(norm: Norm, s: State, workspace: string, slug: string, operation: Id, archive: Id,
      capacity: bool)
    requires Inv(norm, s)
    ensures var t := BindRevival(s, workspace, slug, operation, archive, capacity);
            t.Success? ==> Inv(norm, t.value) && (Silent(s) ==> Silent(t.value))
  {
    hide JobsSound, ReservationsSound, MachinesExclusive, JobsExclusive, ProtocolsExclusive, ClaimsExclusive,
      ClaimsSound, FencedQuiet, EventsSound, WithdrawnClaims, QuietOutbox;
    SyncIdle(norm, s);
    if operation !in s.lifecycles && archive in s.lifecycles {
      var a := s.lifecycles[archive];
      if a.completed && a.command.Archive? {
        NewLifecycle(norm, s, operation, Lifecycle(workspace, slug, Revive, a.owners, Some(archive), false));
      }
    }
  }

  // ---------------------------------------------------------------- completing and lifting a fence

  /** A fenced owner is idle, so completing its archive never has to wait. */
  lemma FencedIsIdle(norm: Norm, s: State, o: Id)
    requires Inv(norm, s) && o in s.owners && s.owners[o].fence.Some?
    ensures IdleOwners(s, {o})
  {
    assert JobsQuiet(s.jobs, o) && ClaimsQuiet(s.claims, o) && ReservationsQuiet(s.reservations, o);
  }

  lemma ReleaseParts(norm: Norm, owners: Owners, next: nat, reservations: Reservations, jobs: Jobs, o: Id)
    requires JobsSound(owners, next, reservations, jobs) && ReservationsSound(owners, next, reservations)
    requires MachinesExclusive(norm, reservations) && JobsQuiet(jobs, o)
    ensures var rs := ReleasedReservations(reservations, o);
            JobsSound(owners, next, rs, jobs) && ReservationsSound(owners, next, rs) && MachinesExclusive(norm, rs)
  {
    var rs := ReleasedReservations(reservations, o);
    forall j | j in jobs ensures JobSound(owners, next, rs, jobs, jobs[j]) {
      assert JobSound(owners, next, reservations, jobs, jobs[j]);
    }
    forall r, q | r in rs && q in rs && r != q ensures Separate(rs[r], rs[q]) {
      assert Separate(reservations[r], reservations[q]);
    }
  }

  lemma ReleaseQuiet(owners: Owners, jobs: Jobs, claims: Claims, reservations: Reservations, o: Id)
    requires FencedQuiet(owners, jobs, claims, reservations)
    ensures FencedQuiet(owners, jobs, claims, ReleasedReservations(reservations, o))
    ensures AllReleased(ReleasedReservations(reservations, o), o)
  {
    var rs := ReleasedReservations(reservations, o);
    forall p | p in owners && owners[p].fence.Some?
      ensures ReservationsQuiet(rs, p) && (Archived(owners[p].fence) ==> AllReleased(rs, p))
    {
      assert ReservationsQuiet(reservations, p);
    }
  }

  /** Completing the fence of an owner without machines keeps every fenced owner quiet. */
  lemma CompleteFence(owners: Owners, next: nat, reservations: Reservations, jobs: Jobs, claims: Claims, o: Id)
    requires JobsSound(owners, next, reservations, jobs) && ReservationsSound(owners, next, reservations)
    requires ClaimsSound(owners, claims)
    requires FencedQuiet(owners, jobs, claims, reservations) && o in owners && owners[o].fence.Some?
    requires owners[o].fence.value.command.Archive? ==> AllReleased(reservations, o)
    ensures var after := Completed(owners, o);
            && SameIdentities(owners, after)
            && JobsSound(after, next, reservations, jobs) && ReservationsSound(after, next, reservations)
              && ClaimsSound(after, claims)
            && FencedQuiet(after, jobs, claims, reservations)
  {
    var after := Completed(owners, o);
    forall j | j in jobs ensures JobSound(after, next, reservations, jobs, jobs[j]) {
      assert JobSound(owners, next, reservations, jobs, jobs[j]);
    }
  }

  lemma CompletedSilent(owners: Owners, outbox: Outbox, o: Id)
    requires o in owners && owners[o].fence.Some?
    ensures QuietOutbox(owners, outbox) ==> QuietOutbox(Completed(owners, o), outbox)
  {
  }

  lemma CompleteOwnerKeeps(norm: Norm, s: State, o: Id, command: Command)
    requires Inv(norm, s) && o in s.owners && s.owners[o].fence.Some? && s.owners[o].fence.value.command == command
    ensures var t := CompleteOwner(s, o, command);
            && Inv(norm, t) && (Silent(s) ==> Silent(t)) && SameIdentities(s.owners, t.owners)
  {
    var rs := if command.Archive? then ReleasedReservations(s.reservations, o) else s.reservations;
    assert JobsQuiet(s.jobs, o);
    hide JobsSound, ReservationsSound, MachinesExclusive, JobsExclusive, ProtocolsExclusive, ClaimsExclusive,
      ClaimsSound, FencedQuiet, EventsSound, LifecyclesSound, QuietOutbox;
    ReleaseParts(norm, s.owners, s.next, s.reservations, s.jobs, o);
    ReleaseQuiet(s.owners, s.jobs, s.claims, s.reservations, o);
    CompleteFence(s.owners, s.next, rs, s.jobs, s.claims, o);
    IdentitiesKeep(s.owners, Completed(s.owners, o), s.outbox, s.lifecycles);
    CompletedSilent(s.owners, s.outbox, o);
  }

  /** The operation a fence is bound to is a recorded lifecycle of the same command. */
  ghost predicate Bound(owners: Owners, lifecycles: map<Id, Lifecycle>) {
    forall o :: o in owners && owners[o].fence.Some? && owners[o].fence.value.operation.Some? ==>
      var f := owners[o].fence.value;
      f.operation.value in lifecycles && lifecycles[f.operation.value].command == f.command
  }

  lemma {:induction false} CompleteOwnersKeep(norm: Norm, s: State, bindings: seq<Binding>, command: Command,
      operation: Id, done: bool)
    requires Inv(norm, s) && Bound(s.owners, s.lifecycles) && operation in s.lifecycles
    requires s.lifecycles[operation].command == command
    ensures var t := CompleteOwners(s, bindings, command, operation, done);
            t.Success? ==>
              && Inv(norm, t.value) && (Silent(s) ==> Silent(t.value)) && t.value.lifecycles == s.lifecycles
              && SameIdentities(s.owners, t.value.owners) && Bound(t.value.owners, s.lifecycles)
    decreases bindings
  {
    hide Inv, Silent, SameIdentities, CompleteOwner, IdleOwners;
    if bindings == [] {
      SameSelf(s.owners);
    } else if bindings[0].id in s.owners {
      var b, owner := bindings[0], s.owners[bindings[0].id];
      if owner.identity != b.identity || owner.fence.None? || owner.fence.value.operation != Some(operation) {
        if done {
          CompleteOwnersKeep(norm, s, bindings[1..], command, operation, done);
        }
      } else {
        CompleteOwnerKeeps(norm, s, b.id, command);
        CompleteOwnerBound(s, b.id, command);
        var s1 := CompleteOwner(s, b.id, command);
        hide Bound;
        CompleteOwnersKeep(norm, s1, bindings[1..], command, operation, done);
        var t := CompleteOwners(s1, bindings[1..], command, operation, done);
        if t.Success? {
          SameTrans(s.owners, s1.owners, t.value.owners);
        }
      }
    }
  }

  lemma CompleteOwnerBound(s: State, o: Id, command: Command)
    requires o in s.owners && s.owners[o].fence.Some? && Bound(s.owners, s.lifecycles)
    ensures var t := CompleteOwner(s, o, command); Bound(t.owners, t.lifecycles) && t.lifecycles == s.lifecycles
  {
  }

  /** The first completion of a lifecycle completes the fence of every owner it names. */
  lemma {:induction false} CompletesAll(s: State, bindings: seq<Binding>, command: Command, operation: Id, o: Id)
    requires o in s.owners
    ensures var t := CompleteOwners(s, bindings, command, operation, false);
            t.Success? ==>
              && o in t.value.owners
              && (CompletedBy(s.owners[o].fence, operation) || (exists b :: b in bindings && b.id == o) ==>
                CompletedBy(t.value.owners[o].fence, operation))
    decreases bindings
  {
    hide CompletedBy, CompleteOwner, IdleOwners;
    if bindings != [] && bindings[0].id in s.owners {
      var owner := s.owners[bindings[0].id];
      if owner.identity == bindings[0].identity && owner.fence.Some? && owner.fence.value.operation == Some(operation) {
        CompletesOne(s, bindings[0].id, command, operation, o);
        CompletesAll(CompleteOwner(s, bindings[0].id, command), bindings[1..], command, operation, o);
      }
    }
  }

  lemma CompletesOne(s: State, i: Id, command: Command, operation: Id, o: Id)
    requires i in s.owners && o in s.owners && s.owners[i].fence.Some?
    requires s.owners[i].fence.value.operation == Some(operation)
    ensures var t := CompleteOwner(s, i, command);
            && o in t.owners
            && (CompletedBy(s.owners[o].fence, operation) || o == i ==> CompletedBy(t.owners[o].fence, operation))
  {
  }

  predicate CompletedBy(fence: Option<Fence>, operation: Id) {
    fence.Some? && fence.value.completed && fence.value.operation == Some(operation)
  }

  lemma CompleteLifecycleKeeps(norm: Norm, s: State, workspace: string, slug: string, command: Command, operation: Id)
    requires Inv(norm, s) && Bound(s.owners, s.lifecycles)
    ensures var t := CompleteLifecycle(s, workspace, slug, command, operation);
            t.Success? ==> Inv(norm, t.value) && (Silent(s) ==> Silent(t.value)) && Bound(t.value.owners,
              t.value.lifecycles)
  {
    hide Inv, Silent, Sync, Bound, CompleteOwners, BindingsKnown, OfArchive;
    SyncIdle(norm, s);
    if operation in s.lifecycles && s.lifecycles[operation].command == command {
      var l := s.lifecycles[operation];
      CompleteOwnersKeep(norm, s, l.owners, command, operation, l.completed);
      var t := CompleteOwners(s, l.owners, command, operation, l.completed);
      if t.Success? {
        KnownBindings(norm, s, t.value.owners, operation);
        ClosedLifecycle(norm, t.value, operation);
      }
    }
  }

  lemma KnownBindings(norm: Norm, s: State, owners: Owners, operation: Id)
    requires Inv(norm, s) && SameIdentities(s.owners, owners) && operation in s.lifecycles
    ensures BindingsKnown(owners, s.lifecycles[operation].owners)
    ensures s.lifecycles[operation].command.Revive? ==> OfArchive(s.lifecycles, s.lifecycles[operation])
  {
    hide JobsSound, ReservationsSound, MachinesExclusive, JobsExclusive, ProtocolsExclusive, ClaimsExclusive,
      ClaimsSound, FencedQuiet, EventsSound;
    assert BindingsKnown(s.owners, s.lifecycles[operation].owners);
  }

  lemma {:induction false} FenceOwnersBound(s: State, ids: seq<Id>, command: Command, lifecycles: map<Id, Lifecycle>,
      o: Id)
    requires Bound(s.owners, lifecycles) && o in s.owners
    ensures var t := FenceOwners(s, ids, command);
            t.Success? ==>
              && Bound(t.value.owners, lifecycles) && o in t.value.owners
              && (FencedFor(s.owners[o].fence, command) || o in ids ==> FencedFor(t.value.owners[o].fence, command))
    decreases ids
  {
    hide Bound, FenceOwner, FencedFor;
    if ids != [] && ids[0] in s.owners {
      FenceOwnerBound(s, ids[0], command, lifecycles, o);
      FenceOwnersBound(FenceOwner(s, ids[0], command), ids[1..], command, lifecycles, o);
    }
  }

  lemma FenceOwnerBound(s: State, i: Id, command: Command, lifecycles: map<Id, Lifecycle>, o: Id)
    requires Bound(s.owners, lifecycles) && i in s.owners && o in s.owners
    ensures var t := FenceOwner(s, i, command);
            && Bound(t.owners, lifecycles) && o in t.owners
            && (FencedFor(s.owners[o].fence, command) || o == i ==> FencedFor(t.owners[o].fence, command))
  {
    hide CanceledJobs, FencedReservations, ParkedEvents;
  }

  predicate FencedFor(fence: Option<Fence>, command: Command) {
    fence.Some? && fence.value.command == command
  }

  lemma {:induction false} BoundFencesBound(s: State, ids: seq<Id>, operation: Id, lifecycles: map<Id, Lifecycle>)
    requires Bound(s.owners, lifecycles) && operation in lifecycles
    requires forall i :: i in ids && i in s.owners ==> FencedFor(s.owners[i].fence, lifecycles[operation].command)
    ensures var t := BoundFences(s, ids, operation); t.Success? ==> Bound(t.value.owners, lifecycles)
    decreases ids
  {
    if ids != [] && ids[0] in s.owners && s.owners[ids[0]].fence.Some? {
      var f := s.owners[ids[0]].fence.value;
      var owners := s.owners[ids[0] := s.owners[ids[0]].(fence := Some(f.(operation := Some(operation))))];
      BoundFencesBound(s.(owners := owners), ids[1..], operation, lifecycles);
    }
  }

  /** Every fence stays bound to a recorded lifecycle of its own command. */
  lemma BindLifecycleBound(s: State, workspace: string, slug: string, command: Command, operation: Id, ids: seq<Id>,
      capacity: bool)
    requires Bound(s.owners, s.lifecycles)
    ensures var t := BindLifecycle(s, workspace, slug, command, operation, ids, capacity);
            t.Success? ==> Bound(t.value.owners, t.value.lifecycles)
  {
    hide IdleOwners, FenceOwners, BoundFences, Bindings, Distinct, WithdrawnClaims, Bound;
    var t := FenceOwners(s, ids, command);
    if operation !in s.lifecycles && ids != [] && t.Success? {
      FenceOwnersLifecycles(s, ids, command);
      var u := BoundFences(t.value, ids, operation);
      if u.Success? && forall i :: i in ids ==> i in u.value.owners {
        BoundFencesOwners(t.value, ids, operation);
        FreshLifecycleBound(s, ids, command, operation,
          Lifecycle(workspace, slug, command, Bindings(u.value, ids), None, false));
      }
    }
  }

  lemma FreshLifecycleBound(s: State, ids: seq<Id>, command: Command, operation: Id, l: Lifecycle)
    requires Bound(s.owners, s.lifecycles) && operation !in s.lifecycles && l.command == command && ids != []
    ensures var t := FenceOwners(s, ids, command);
            t.Success? ==> var u := BoundFences(t.value, ids, operation);
            u.Success? ==> Bound(u.value.owners, s.lifecycles[operation := l])
  {
    var t := FenceOwners(s, ids, command);
    if t.Success? {
      var lifecycles := s.lifecycles[operation := l];
      FenceOwnersOwners(s, ids, command);
      assert Bound(s.owners, lifecycles);
      hide FenceOwners, BoundFences, Bound;
      forall o | o in s.owners
        ensures Bound(t.value.owners, lifecycles) && (o in ids ==> FencedFor(t.value.owners[o].fence, command))
      {
        FenceOwnersBound(s, ids, command, lifecycles, o);
      }
      BoundFencesBound(t.value, ids, operation, lifecycles);
    }
  }

  lemma {:induction false} BoundFencesOwners(s: State, ids: seq<Id>, operation: Id)
    ensures var t := BoundFences(s, ids, operation);
            t.Success? ==> t.value.owners.Keys == s.owners.Keys && t.value.lifecycles == s.lifecycles
    decreases ids
  {
    if ids != [] && ids[0] in s.owners && s.owners[ids[0]].fence.Some? {
      var f := s.owners[ids[0]].fence.value;
      BoundFencesOwners(s.(owners := s.owners[ids[0] := s.owners[ids[0]].(fence := Some(f.(operation :=
        Some(operation))))]), ids[1..], operation);
    }
  }

  lemma {:induction false} FenceOwnersOwners(s: State, ids: seq<Id>, command: Command)
    ensures var t := FenceOwners(s, ids, command);
            t.Success? ==> t.value.owners.Keys == s.owners.Keys && (ids != [] ==> ids[0] in s.owners)
    decreases ids
  {
    if ids != [] && ids[0] in s.owners {
      FenceOwnersOwners(FenceOwner(s, ids[0], command), ids[1..], command);
    }
  }

  // ---------------------------------------------------------------- lifting fences

  lemma LiftedParts(owners: Owners, next: nat, reservations: Reservations, jobs: Jobs, claims: Claims, o: Id)
    requires JobsSound(owners, next, reservations, jobs) && ReservationsSound(owners, next, reservations)
    requires ClaimsSound(owners, claims)
    requires FencedQuiet(owners, jobs, claims, reservations) && o in owners
    ensures var after := owners[o := owners[o].(fence := None)];
            && SameIdentities(owners, after)
            && JobsSound(after, next, reservations, jobs) && ReservationsSound(after, next, reservations)
              && ClaimsSound(after, claims)
            && FencedQuiet(after, jobs, claims, reservations)
  {
    var after := owners[o := owners[o].(fence := None)];
    forall j | j in jobs ensures JobSound(after, next, reservations, jobs, jobs[j]) {
      assert JobSound(owners, next, reservations, jobs, jobs[j]);
    }
  }

  lemma LiftedEvents(owners: Owners, outbox: Outbox, o: Id)
    requires o in owners && EventsSound(owners, outbox)
    ensures var after := owners[o := owners[o].(fence := None)];
            && EventsSound(after, ReleasedEvents(outbox, o))
            && (QuietOutbox(owners, outbox) ==> QuietOutbox(after, ReleasedEvents(outbox, o)))
  {
  }

  lemma ReviveOwnerKeeps(norm: Norm, s: State, o: Id)
    requires Inv(norm, s) && o in s.owners
    ensures var t := ReviveOwner(s, o);
            && Inv(norm, t) && (Silent(s) ==> Silent(t)) && SameIdentities(s.owners, t.owners)
            && (Bound(s.owners, s.lifecycles) ==> Bound(t.owners, t.lifecycles)) && t.lifecycles == s.lifecycles
  {
    hide JobsSound, ReservationsSound, MachinesExclusive, JobsExclusive, ProtocolsExclusive, ClaimsExclusive,
      ClaimsSound, FencedQuiet, EventsSound, LifecyclesSound, QuietOutbox;
    LiftedParts(s.owners, s.next, s.reservations, s.jobs, s.claims, o);
    LiftedEvents(s.owners, s.outbox, o);
    IdentitiesKeep(s.owners, s.owners[o := s.owners[o].(fence := None)], s.outbox, s.lifecycles);
  }

  lemma {:induction false} ReviveOwnersKeep(norm: Norm, s: State, bindings: seq<Binding>, archive: Option<Id>)
    requires Inv(norm, s) && Bound(s.owners, s.lifecycles)
    ensures var t := ReviveOwners(s, bindings, archive);
            t.Success? ==>
              && Inv(norm, t.value) && (Silent(s) ==> Silent(t.value)) && t.value.lifecycles == s.lifecycles
              && SameIdentities(s.owners, t.value.owners) && Bound(t.value.owners, s.lifecycles)
    decreases bindings
  {
    hide Inv, Silent, SameIdentities, ReviveOwner, Bound;
    if bindings == [] {
      SameSelf(s.owners);
    } else if bindings[0].id in s.owners {
      ReviveOwnerKeeps(norm, s, bindings[0].id);
      var s1 := ReviveOwner(s, bindings[0].id);
      ReviveOwnersKeep(norm, s1, bindings[1..], archive);
      var t := ReviveOwners(s1, bindings[1..], archive);
      if t.Success? {
        SameTrans(s.owners, s1.owners, t.value.owners);
      }
    }
  }

  lemma RevivedKeeps(norm: Norm, s: State, workspace: string, slug: string, operation: Id)
    requires Inv(norm, s) && Bound(s.owners, s.lifecycles)
    ensures var t := Revived(s, workspace, slug, operation);
            t.Success? ==> Inv(norm, t.value) && (Silent(s) ==> Silent(t.value)) && Bound(t.value.owners,
              t.value.lifecycles)
  {
    hide Inv, Silent, Sync, Bound, ReviveOwners, BindingsKnown, OfArchive;
    SyncIdle(norm, s);
    if operation in s.lifecycles && s.lifecycles[operation].command.Revive? {
      var l := s.lifecycles[operation];
      ReviveOwnersKeep(norm, s, l.owners, l.archive);
      var t := ReviveOwners(s, l.owners, l.archive);
      if t.Success? {
        KnownBindings(norm, s, t.value.owners, operation);
        ClosedLifecycle(norm, t.value, operation);
      }
    }
  }

  /** Marking a recorded lifecycle completed. */
  lemma ClosedLifecycle(norm: Norm, s: State, operation: Id)
    requires Inv(norm, s) && operation in s.lifecycles && BindingsKnown(s.owners, s.lifecycles[operation].owners)
    requires s.lifecycles[operation].command.Revive? ==> OfArchive(s.lifecycles, s.lifecycles[operation])
    ensures var t := s.(lifecycles := s.lifecycles[operation := s.lifecycles[operation].(completed := true)]);
            && Inv(norm, Sync(t)) && (Silent(s) ==> Silent(Sync(t)))
            && (Bound(s.owners, s.lifecycles) ==> Bound(Sync(t).owners, Sync(t).lifecycles))
  {
    SyncIdle(norm, s);
    NewLifecycle(norm, s, operation, s.lifecycles[operation].(completed := true));
    hide Inv;
  }
}
