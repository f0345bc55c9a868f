/**
 The inductive invariant of the ledger, stated on its parts, and the facts about
 parts from which its preservation by every transaction follows.
 */
module LedgerInvariant {
  import opened Wrappers
  import opened MachinePolicy
  import opened Ledger

  type Owners = map<Id, Owner>
  type Jobs = map<Id, Job>
  type Reservations = map<Id, Reservation>
  type Claims = map<Id, Claim>
  type Outbox = map<EventId, Event>

  // ---------------------------------------------------------------- the invariant

  ghost predicate JobSound(owners: Owners, next: nat, reservations: Reservations, jobs: Jobs, job: Job) {
    && job.owner in owners && job.sequence < next && Distinct(job.resources)
    && (forall d :: d in job.dependsOn ==> d in jobs && jobs[d].owner == job.owner && jobs[d].sequence < job.sequence)
    && (Active(job.state) || job.state.Succeeded? ==> forall d :: d in job.dependsOn ==> jobs[d].state.Succeeded?)
    && (Active(job.state) ==> job.attempt.Some?)
    && (job.reservation.Some? ==> job.reservation.value in reservations && Backed(reservations[job.reservation.value],
      job))
  }

  /** The reservation a job needs belongs to the same owner, outlives the job, and is occupied while the job runs. */
  ghost predicate Backed(v: Reservation, job: Job) {
    && v.owner == job.owner
    && (!Terminal(job.state) ==> !v.state.Released?)
    && (Active(job.state) ==> Occupied(v.state))
  }

  /** Records refer to records that exist; dependencies are earlier and, once a job has run, done. */
  ghost predicate JobsSound(owners: Owners, next: nat, reservations: Reservations, jobs: Jobs) {
    forall j :: j in jobs ==> JobSound(owners, next, reservations, jobs, jobs[j])
  }

  ghost predicate ReservationsSound(owners: Owners, next: nat, reservations: Reservations) {
    && (forall r :: r in reservations ==>
          && reservations[r].owner in owners && reservations[r].sequence < next
          && (reservations[r].state.Requested? ==> reservations[r].history == []))
    && (forall r, q :: r in reservations && q in reservations && r != q ==> Separate(reservations[r], reservations[q]))
  }

  /** Two reservations have different places, and one owner has one unreleased reservation of a machine name. */
  ghost predicate Separate(a: Reservation, b: Reservation) {
    && a.sequence != b.sequence
    && (a.owner == b.owner && a.machine == b.machine ==> a.state.Released? || b.state.Released?)
  }

  /** At most one reservation of a machine, under any of its names, is past its request and not released. */
  ghost predicate MachinesExclusive(norm: Norm, reservations: Reservations) {
    forall r, q ::
      r in reservations && q in reservations && r != q &&
      Occupied(reservations[r].state) && Occupied(reservations[q].state) ==>
        norm(Machine(reservations[r].machine)) != norm(Machine(reservations[q].machine))
  }

  ghost predicate JobsExclusive(norm: Norm, jobs: Jobs) {
    forall i, j :: i in jobs && j in jobs && i != j && Active(jobs[i].state) && Active(jobs[j].state)
      ==> Keys(norm, jobs[i].resources) !! Keys(norm, jobs[j].resources)
  }

  ghost predicate ProtocolsExclusive(norm: Norm, jobs: Jobs, claims: Claims) {
    forall j, c :: j in jobs && c in claims && Active(jobs[j].state) && claims[c].state.Held?
      ==> Keys(norm, jobs[j].resources) !! Keys(norm, claims[c].resources)
  }

  ghost predicate ClaimsExclusive(norm: Norm, claims: Claims) {
    forall b, c :: b in claims && c in claims && b != c && claims[b].state.Held? && claims[c].state.Held?
      ==> Keys(norm, claims[b].resources) !! Keys(norm, claims[c].resources)
  }

  ghost predicate ClaimsSound(owners: Owners, claims: Claims) {
    && (forall c :: c in claims ==> claims[c].owner in owners && 1 <= claims[c].sequence <= |claims|)
    && (forall b, c :: b in claims && c in claims && b != c ==> claims[b].sequence != claims[c].sequence)
  }

  ghost predicate JobsQuiet(jobs: Jobs, o: Id) {
    forall j :: j in jobs && jobs[j].owner == o ==> Terminal(jobs[j].state)
  }

  ghost predicate ClaimsQuiet(claims: Claims, o: Id) {
    forall c :: c in claims && claims[c].owner == o ==> claims[c].state.Dropped? || claims[c].state.Withdrawn?
  }

  ghost predicate ReservationsQuiet(reservations: Reservations, o: Id) {
    forall r :: r in reservations && reservations[r].owner == o && !reservations[r].state.Released? ==>
      !AnyUnknown(reservations[r].history)
  }

  ghost predicate AllReleased(reservations: Reservations, o: Id) {
    forall r :: r in reservations && reservations[r].owner == o ==> reservations[r].state.Released?
  }

  ghost predicate Archived(fence: Option<Fence>) {
    fence.Some? && fence.value.completed && fence.value.command.Archive?
  }

  /**
   While an owner is fenced its jobs are terminal, it has no claim, and no deployment of it is uncertain; once archived
   it holds no machine.
   */
  ghost predicate FencedQuiet(owners: Owners, jobs: Jobs, claims: Claims, reservations: Reservations) {
    forall o :: o in owners && owners[o].fence.Some? ==>
      && JobsQuiet(jobs, o) && ClaimsQuiet(claims, o) && ReservationsQuiet(reservations, o)
      && (Archived(owners[o].fence) ==> AllReleased(reservations, o))
  }

  ghost predicate EventsSound(owners: Owners, outbox: Outbox) {
    forall e :: e in outbox ==> outbox[e].owner in owners
  }

  /** Nothing of a fenced owner is waiting to be sent. */
  ghost predicate QuietOutbox(owners: Owners, outbox: Outbox) {
    forall e :: e in outbox && outbox[e].owner in owners && owners[outbox[e].owner].fence.Some?
      ==> outbox[e].state.Parked? || outbox[e].state.Delivered?
  }

  /** Lifecycle receipts name retained incarnations, and a revival names the owners of a completed archive. */
  ghost predicate LifecyclesSound(owners: Owners, lifecycles: map<Id, Lifecycle>) {
    && (forall l :: l in lifecycles ==> BindingsKnown(owners, lifecycles[l].owners))
    && (forall l :: l in lifecycles && lifecycles[l].command.Revive? ==> OfArchive(lifecycles, lifecycles[l]))
  }

  ghost predicate BindingsKnown(owners: Owners, bindings: seq<Binding>) {
    forall k :: 0 <= k < |bindings| ==>
      bindings[k].id in owners && owners[bindings[k].id].identity == bindings[k].identity
  }

  ghost predicate OfArchive(lifecycles: map<Id, Lifecycle>, l: Lifecycle) {
    && l.archive.Some? && l.archive.value in lifecycles
    && var a := lifecycles[l.archive.value]; a.command.Archive? && a.completed && a.owners == l.owners
  }

  ghost predicate Inv(norm: Norm, s: State) {
    && JobsSound(s.owners, s.next, s.reservations, s.jobs)
    && ReservationsSound(s.owners, s.next, s.reservations)
    && MachinesExclusive(norm, s.reservations)
    && JobsExclusive(norm, s.jobs) && ProtocolsExclusive(norm, s.jobs, s.claims) && ClaimsExclusive(norm, s.claims)
    && ClaimsSound(s.owners, s.claims)
    && FencedQuiet(s.owners, s.jobs, s.claims, s.reservations)
    && EventsSound(s.owners, s.outbox)
    && LifecyclesSound(s.owners, s.lifecycles)
  }

  ghost predicate Silent(s: State) {
    QuietOutbox(s.owners, s.outbox)
  }

  lemma EmptyInv(norm: Norm)
    ensures Inv(norm, Empty) && Silent(Empty)
  {
  }

  // ---------------------------------------------------------------- one job changes

  /** A change of one job that gives it nothing new to own. */
  ghost predicate Calm(a: Job, b: Job) {
    && b.owner == a.owner && b.dependsOn == a.dependsOn && b.reservation == a.reservation && b.sequence == a.sequence
    && Distinct(b.resources) && !Terminal(a.state)
    && (Active(b.state) ==> Active(a.state) && b.resources == a.resources && b.attempt.Some?)
    && (b.state.Succeeded? ==> Active(a.state))
  }

  lemma CalmJob(norm: Norm, owners: Owners, next: nat, reservations: Reservations, jobs: Jobs, claims: Claims, j: Id,
      b: Job)
    requires JobsSound(owners, next, reservations, jobs) && JobsExclusive(norm, jobs)
    requires ProtocolsExclusive(norm, jobs, claims)
    requires j in jobs && Calm(jobs[j], b)
    ensures JobsSound(owners, next, reservations, jobs[j := b])
    ensures JobsExclusive(norm, jobs[j := b]) && ProtocolsExclusive(norm, jobs[j := b], claims)
  {
    var after := jobs[j := b];
    forall i | i in after ensures JobSound(owners, next, reservations, after, after[i]) {
      assert JobSound(owners, next, reservations, jobs, jobs[i]);
    }
  }

  lemma MoreTime(owners: Owners, next: nat, later: nat, reservations: Reservations, jobs: Jobs)
    requires JobsSound(owners, next, reservations, jobs) && ReservationsSound(owners, next, reservations)
    requires next <= later
    ensures JobsSound(owners, later, reservations, jobs) && ReservationsSound(owners, later, reservations)
  {
    forall j | j in jobs ensures JobSound(owners, later, reservations, jobs, jobs[j]) {
      assert JobSound(owners, next, reservations, jobs, jobs[j]);
    }
  }

  /** A change of one owner's job leaves every fenced owner quiet when that owner is not fenced. */
  lemma UnfencedJob(owners: Owners, jobs: Jobs, claims: Claims, reservations: Reservations, j: Id, b: Job)
    requires FencedQuiet(owners, jobs, claims, reservations)
    requires b.owner in owners && owners[b.owner].fence.None?
    ensures FencedQuiet(owners, jobs[j := b], claims, reservations)
  {
  }

  lemma UnfencedReservation(owners: Owners, jobs: Jobs, claims: Claims, reservations: Reservations, r: Id,
      v: Reservation)
    requires FencedQuiet(owners, jobs, claims, reservations)
    requires v.owner in owners && owners[v.owner].fence.None?
    ensures FencedQuiet(owners, jobs, claims, reservations[r := v])
  {
  }

  lemma UnfencedClaim(owners: Owners, jobs: Jobs, claims: Claims, reservations: Reservations, c: Id, v: Claim)
    requires FencedQuiet(owners, jobs, claims, reservations)
    requires v.owner in owners && owners[v.owner].fence.None?
    ensures FencedQuiet(owners, jobs, claims[c := v], reservations)
  {
  }

  /** A fenced owner has nothing the scheduler could touch. */
  lemma PendingUnfenced(norm: Norm, s: State, j: Id)
    requires Inv(norm, s) && j in s.jobs && !Terminal(s.jobs[j].state)
    ensures s.jobs[j].owner in s.owners && s.owners[s.jobs[j].owner].fence.None?
    ensures JobSound(s.owners, s.next, s.reservations, s.jobs, s.jobs[j])
  {
    assert JobSound(s.owners, s.next, s.reservations, s.jobs, s.jobs[j]);
  }

  lemma NewEvent(owners: Owners, outbox: Outbox, o: Id, id: EventId, routed: set<Id>)
    requires EventsSound(owners, outbox) && o in owners
    ensures EventsSound(owners, Announce(owners, outbox, o, id, routed))
    ensures owners[o].fence.None? && QuietOutbox(owners, outbox) ==>
      QuietOutbox(owners, Announce(owners, outbox, o, id, routed))
  {
  }

  /** A job starts to own resources that nobody else owns. */
  lemma OwningJob(norm: Norm, s: State, j: Id, b: Job)
    requires JobsExclusive(norm, s.jobs) && ProtocolsExclusive(norm, s.jobs, s.claims)
    requires j in s.jobs && !Active(s.jobs[j].state) && b.resources == s.jobs[j].resources
    requires Keys(norm, b.resources) !! ActiveKeys(norm, s) + HeldKeys(norm, s)
    ensures JobsExclusive(norm, s.jobs[j := b]) && ProtocolsExclusive(norm, s.jobs[j := b], s.claims)
  {
    forall i | i in s.jobs && Active(s.jobs[i].state) ensures Keys(norm, s.jobs[i].resources) <= ActiveKeys(norm, s) {
    }
    forall c | c in s.claims && s.claims[c].state.Held? ensures Keys(norm, s.claims[c].resources) <= HeldKeys(norm, s) {
    }
  }

  /** A requested reservation that becomes reserved stays alone on its machine. */
  lemma ReservedForKeeps(norm: Norm, owners: Owners, next: nat, reservations: Reservations, jobs: Jobs, claims: Claims,
      r: Id)
    requires ReservationsSound(owners, next, reservations) && MachinesExclusive(norm, reservations)
    requires r in reservations && JobsSound(owners, next, reservations, jobs)
    requires FencedQuiet(owners, jobs, claims, reservations)
    requires owners[reservations[r].owner].fence.None?
    requires forall q ::
      q in reservations && q != r &&
      norm(Machine(reservations[q].machine)) == norm(Machine(reservations[r].machine)) ==>
        !Occupied(reservations[q].state)
    ensures var after := ReservedFor(reservations, Some(r));
            && ReservationsSound(owners, next, after) && MachinesExclusive(norm, after)
              && JobsSound(owners, next, after, jobs)
            && FencedQuiet(owners, jobs, claims, after)
  {
    hide JobsSound, MachinesExclusive, FencedQuiet;
    if reservations[r].state.Requested? {
      var v := reservations[r].(state := Reserved, revision := reservations[r].revision + 1);
      ReservationChanges(norm, owners, next, reservations, jobs, claims, r, v);
    }
  }

  /** Any legal change of one reservation of an owner that is not fenced. */
  ghost predicate LegalReservation(norm: Norm, reservations: Reservations, jobs: Jobs, r: Id, v: Reservation)
    requires r in reservations
  {
    var a := reservations[r];
    && v.owner == a.owner && v.machine == a.machine && v.sequence == a.sequence
    && (a.state.Released? ==> v.state.Released?) && (v.state.Requested? ==> v.history == [])
    && (Occupied(v.state) && !Occupied(a.state) ==>
          forall q ::
            q in reservations && q != r && norm(Machine(reservations[q].machine)) == norm(Machine(a.machine)) ==>
              !Occupied(reservations[q].state))
    && (Occupied(v.state) || (!Occupied(a.state) && !v.state.Released?) || JobsQuiet(jobs, a.owner))
  }

  lemma ReservationChanges(norm: Norm, owners: Owners, next: nat, reservations: Reservations, jobs: Jobs,
      claims: Claims, r: Id, v: Reservation)
    requires ReservationsSound(owners, next, reservations) && MachinesExclusive(norm, reservations)
    requires JobsSound(owners, next, reservations, jobs) && FencedQuiet(owners, jobs, claims, reservations)
    requires r in reservations && LegalReservation(norm, reservations, jobs, r, v) && owners[v.owner].fence.None?
    ensures ReservationsSound(owners, next, reservations[r := v]) && MachinesExclusive(norm, reservations[r := v])
    ensures JobsSound(owners, next, reservations[r := v], jobs)
    ensures FencedQuiet(owners, jobs, claims, reservations[r := v])
  {
    var after := reservations[r := v];
    forall j | j in jobs ensures JobSound(owners, next, after, jobs, jobs[j]) {
      assert JobSound(owners, next, reservations, jobs, jobs[j]);
    }
    UnfencedReservation(owners, jobs, claims, reservations, r, v);
  }

  // ---------------------------------------------------------------- scheduler steps

  lemma ReplaceKeeps(norm: Norm, s: State, j: Id, job: Job, state: JobState, reason: Option<string>, routed: set<Id>)
    requires Inv(norm, s) && j in s.jobs && Calm(s.jobs[j], Moved(job, state, reason)) && job.owner == s.jobs[j].owner
    ensures job.owner in s.owners
    ensures Inv(norm, Replace(s, j, job, state, reason, routed))
    ensures Silent(s) ==> Silent(Replace(s, j, job, state, reason, routed))
  {
    hide JobsSound, ReservationsSound, MachinesExclusive, JobsExclusive, ProtocolsExclusive, ClaimsExclusive,
      ClaimsSound, FencedQuiet, EventsSound, LifecyclesSound, QuietOutbox;
    PendingUnfenced(norm, s, j);
    var b := Moved(job, state, reason);
    CalmJob(norm, s.owners, s.next, s.reservations, s.jobs, s.claims, j, b);
    UnfencedJob(s.owners, s.jobs, s.claims, s.reservations, j, b);
    NewEvent(s.owners, s.outbox, job.owner, EventId(job.owner, j, Some(job.snapshot.id), OfJob(state)), routed);
  }

  lemma ParkKeeps(norm: Norm, s: State, j: Id, state: JobState, reason: Option<string>, routed: set<Id>)
    requires Inv(norm, s) && CanPark(s, j, state)
    ensures Inv(norm, Transition(s, j, state, reason, routed))
    ensures Silent(s) ==> Silent(Transition(s, j, state, reason, routed))
  {
    hide Inv, Silent;
    PendingUnfenced(norm, s, j);
    ReplaceKeeps(norm, s, j, s.jobs[j], state, reason, routed);
  }

  lemma EnqueueKeeps(norm: Norm, s: State, j: Id)
    requires Inv(norm, s) && j in s.jobs && !Terminal(s.jobs[j].state) && !Active(s.jobs[j].state)
    ensures Inv(norm, Enqueue(s, j))
    ensures Silent(s) ==> Silent(Enqueue(s, j))
  {
    hide JobsSound, ReservationsSound, MachinesExclusive, JobsExclusive, ProtocolsExclusive, ClaimsExclusive,
      ClaimsSound, FencedQuiet, EventsSound, LifecyclesSound, QuietOutbox;
    PendingUnfenced(norm, s, j);
    if s.jobs[j].readySequence.None? {
      var b := s.jobs[j].(readySequence := Some(s.next));
      CalmJob(norm, s.owners, s.next, s.reservations, s.jobs, s.claims, j, b);
      UnfencedJob(s.owners, s.jobs, s.claims, s.reservations, j, b);
      MoreTime(s.owners, s.next, s.next + 1, s.reservations, s.jobs[j := b]);
    }
  }

  lemma GrantedJobSound(norm: Norm, s: State, j: Id, reservations: Reservations, b: Job)
    requires CanGrant(norm, s, j) && JobsSound(s.owners, s.next, reservations, s.jobs)
    requires b == Moved(s.jobs[j].(attempt := b.attempt), Claimed, None) && b.attempt.Some?
    requires s.jobs[j].reservation.Some? ==>
      s.jobs[j].reservation.value in reservations && Occupied(reservations[s.jobs[j].reservation.value].state)
    ensures JobsSound(s.owners, s.next, reservations, s.jobs[j := b])
  {
    var after := s.jobs[j := b];
    forall i | i in after ensures JobSound(s.owners, s.next, reservations, after, after[i]) {
      assert JobSound(s.owners, s.next, reservations, s.jobs, s.jobs[i]);
    }
  }

  lemma GrantFacts(norm: Norm, s: State, j: Id)
    requires Inv(norm, s) && CanGrant(norm, s, j)
    ensures KnownJob(s, j) && !Terminal(s.jobs[j].state)
    ensures !Active(s.jobs[j].state) && Keys(norm, s.jobs[j].resources) !! ActiveKeys(norm, s) + HeldKeys(norm, s)
    ensures s.jobs[j].owner in s.owners && s.owners[s.jobs[j].owner].fence.None?
    ensures s.jobs[j].reservation.Some? ==>
              var r := s.jobs[j].reservation.value;
              && r in s.reservations && s.reservations[r].owner == s.jobs[j].owner && !s.reservations[r].state.Released?
              && forall q ::
                   q in s.reservations && q != r &&
                   norm(Machine(s.reservations[q].machine)) == norm(Machine(s.reservations[r].machine)) ==>
                     !Occupied(s.reservations[q].state)
  {
    PendingUnfenced(norm, s, j);
    if s.jobs[j].reservation.Some? {
      assert forall q :: q in SameMachine(norm, s, s.jobs[j].reservation.value) ==> !Occupied(s.reservations[q].state);
    }
  }

  lemma GrantKeeps(norm: Norm, s: State, j: Id, attempt: Id, routed: set<Id>)
    requires Inv(norm, s) && CanGrant(norm, s, j)
    ensures Inv(norm, Grant(s, j, attempt, routed))
    ensures Silent(s) ==> Silent(Grant(s, j, attempt, routed))
  {
    hide JobsSound, ReservationsSound, MachinesExclusive, JobsExclusive, ProtocolsExclusive, ClaimsExclusive,
      ClaimsSound, FencedQuiet, EventsSound, LifecyclesSound, QuietOutbox;
    hide CanGrant;
    GrantFacts(norm, s, j);
    var job := s.jobs[j];
    var b := Moved(job.(attempt := Some(attempt)), Claimed, None);
    var rs := ReservedFor(s.reservations, job.reservation);
    if job.reservation.Some? {
      ReservedForKeeps(norm, s.owners, s.next, s.reservations, s.jobs, s.claims, job.reservation.value);
      NewEvent(s.owners, s.outbox, job.owner, EventId(job.owner, job.reservation.value, None, OnHeld), routed);
    }
    GrantedJobSound(norm, s, j, rs, b);
    OwningJob(norm, s, j, b);
    UnfencedJob(s.owners, s.jobs, s.claims, rs, j, b);
  }
}
