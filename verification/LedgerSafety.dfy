/**
 Every locked transaction of the ledger keeps the invariant, so every run does.
 */
module LedgerSafety {
  import opened Wrappers
  import opened MachinePolicy
  import opened Ledger
  import opened LedgerInvariant

  // ---------------------------------------------------------------- attempts

  /** Settling keeps a reservation past its request. */
  lemma RecordedLegal(norm: Norm, reservations: Reservations, jobs: Jobs, r: Id, record: Record)
    requires r in reservations && Occupied(reservations[r].state)
    ensures var v := Recorded(reservations[r], record); v.Success? ==>
      LegalReservation(norm, reservations, jobs, r, v.value)
  {
  }

  lemma SettledReservationKeeps(norm: Norm, s: State, j: Id, attempt: Id, outcome: Outcome)
    requires Inv(norm, s) && CurrentAttempt(s, j, attempt)
    ensures var rs := SettledReservations(s, s.jobs[j], attempt, outcome);
            rs.Success? ==> Inv(norm, s.(reservations := rs.value)) && (Silent(s) ==>
              Silent(s.(reservations := rs.value)))
  {
    hide JobsSound, ReservationsSound, MachinesExclusive, JobsExclusive, ProtocolsExclusive, ClaimsExclusive,
      ClaimsSound, FencedQuiet, EventsSound, LifecyclesSound, QuietOutbox;
    PendingUnfenced(norm, s, j);
    var rs := SettledReservations(s, s.jobs[j], attempt, outcome);
    if rs.Success? && rs.value != s.reservations {
      var r := s.jobs[j].reservation.value;
      var record := Record(attempt, s.jobs[j].kind, s.jobs[j].snapshot.coverage, outcome, false);
      RecordedLegal(norm, s.reservations, s.jobs, r, record);
      hide Recorded, LegalReservation;
      ReservationChanges(norm, s.owners, s.next, s.reservations, s.jobs, s.claims, r, rs.value[r]);
    }
  }

  lemma SettleKeeps(norm: Norm, s: State, j: Id, attempt: Id, outcome: Outcome, error: Option<string>, routed: set<Id>)
    requires Inv(norm, s)
    ensures var t := Settle(s, j, attempt, outcome, error, routed); t.Success? ==>
      Inv(norm, t.value) && (Silent(s) ==> Silent(t.value))
  {
    hide Inv, Silent, SettledReservations, Replace;
    if CurrentAttempt(s, j, attempt) {
      PendingUnfenced(norm, s, j);
      SettledReservationKeeps(norm, s, j, attempt, outcome);
      var rs := SettledReservations(s, s.jobs[j], attempt, outcome);
      if rs.Success? {
        ReplaceKeeps(norm, s.(reservations := rs.value), j, s.jobs[j].(result := Some(outcome)), Settled(outcome),
          error, routed);
      }
    }
  }

  // ---------------------------------------------------------------- owner requests

  lemma CreateJobKeeps(norm: Norm, s: State, owner: Id, draft: Draft, dependsOn: seq<Id>, resources: seq<Resource>,
      id: Id)
    requires Inv(norm, s) && owner in s.owners && s.owners[owner].fence.None?
    requires id !in s.jobs && CanCreate(s, owner, draft, dependsOn, resources)
    ensures Inv(norm, CreateJob(s, owner, draft, dependsOn, resources, id))
    ensures CreateJob(s, owner, draft, dependsOn, resources, id).owners == s.owners
    ensures Silent(s) ==> Silent(CreateJob(s, owner, draft, dependsOn, resources, id))
  {
    var job := CreateJob(s, owner, draft, dependsOn, resources, id).jobs[id];
    NewJob(norm, s.owners, s.next, s.reservations, s.jobs, s.claims, id, job);
    hide JobsSound, ReservationsSound, MachinesExclusive, JobsExclusive, ProtocolsExclusive, ClaimsExclusive,
      ClaimsSound, FencedQuiet, EventsSound, LifecyclesSound, QuietOutbox;
    UnfencedJob(s.owners, s.jobs, s.claims, s.reservations, id, job);
    MoreTime(s.owners, s.next, s.next + 1, s.reservations, s.jobs);
  }

  lemma NewJob(norm: Norm, owners: Owners, next: nat, reservations: Reservations, jobs: Jobs, claims: Claims, id: Id,
      job: Job)
    requires JobsSound(owners, next, reservations, jobs) && JobsExclusive(norm, jobs)
    requires ProtocolsExclusive(norm, jobs, claims)
    requires id !in jobs && job.owner in owners && job.sequence == next && Distinct(job.resources) && !Active(job.state)
    requires !job.state.Succeeded?
    requires forall d :: d in job.dependsOn ==> d in jobs && jobs[d].owner == job.owner
    requires job.reservation.Some? ==>
      job.reservation.value in reservations && Backed(reservations[job.reservation.value], job)
    ensures JobsSound(owners, next + 1, reservations, jobs[id := job]) && JobsExclusive(norm, jobs[id := job])
    ensures ProtocolsExclusive(norm, jobs[id := job], claims)
  {
    var after := jobs[id := job];
    forall i | i in after ensures JobSound(owners, next + 1, reservations, after, after[i]) {
      if i == id {
        forall d | d in job.dependsOn ensures after[d].sequence < job.sequence {
          assert JobSound(owners, next, reservations, jobs, jobs[d]);
        }
      } else {
        assert JobSound(owners, next, reservations, jobs, jobs[i]);
      }
    }
  }

  lemma {:induction false} CreateJobsKeep(norm: Norm, s: State, owner: Id, drafts: seq<Draft>, ids: map<string, Id>,
      minted: seq<Id>, resources: seq<seq<Resource>>)
    requires Inv(norm, s) && owner in s.owners && s.owners[owner].fence.None?
    ensures var t := CreateJobs(s, owner, drafts, ids, minted, resources);
            t.Success? ==> Inv(norm, t.value.0) && (Silent(s) ==> Silent(t.value.0))
    decreases drafts
  {
    hide Inv, Silent, CanCreate, CreateJob, Resolve;
    if drafts != [] && minted != [] && resources != [] && FreshId(s, minted[0]) {
      var deps := Resolve(drafts[0].dependsOn, ids);
      if deps.Some? && CanCreate(s, owner, drafts[0], deps.value, resources[0]) {
        CreateJobKeeps(norm, s, owner, drafts[0], deps.value, resources[0], minted[0]);
        var s1 := CreateJob(s, owner, drafts[0], deps.value, resources[0], minted[0]);
        CreateJobsKeep(norm, s1, owner, drafts[1..], ids[drafts[0].key := minted[0]], minted[1..], resources[1..]);
      }
    }
  }

  lemma NewReservation(norm: Norm, owners: Owners, next: nat, reservations: Reservations, jobs: Jobs, claims: Claims,
      id: Id, v: Reservation)
    requires ReservationsSound(owners, next, reservations) && MachinesExclusive(norm, reservations)
    requires JobsSound(owners, next, reservations, jobs) && FencedQuiet(owners, jobs, claims, reservations)
    requires id !in reservations && v.owner in owners && owners[v.owner].fence.None? && v.sequence == next
    requires v.state.Requested? && v.history == []
    requires forall r ::
      r in reservations && reservations[r].owner == v.owner && reservations[r].machine == v.machine ==>
        reservations[r].state.Released?
    ensures ReservationsSound(owners, next + 1, reservations[id := v]) && MachinesExclusive(norm, reservations[id := v])
    ensures JobsSound(owners, next + 1, reservations[id := v], jobs)
    ensures FencedQuiet(owners, jobs, claims, reservations[id := v])
  {
    var after := reservations[id := v];
    forall j | j in jobs ensures JobSound(owners, next + 1, after, jobs, jobs[j]) {
      assert JobSound(owners, next, reservations, jobs, jobs[j]);
    }
    UnfencedReservation(owners, jobs, claims, reservations, id, v);
  }

  lemma ReserveKeeps(norm: Norm, s: State, owner: Id, machine: string, approval: Id, minted: seq<Id>)
    requires Inv(norm, s) && owner in s.owners && s.owners[owner].fence.None?
    ensures var t := ReserveMachine(s, owner, machine, approval, minted);
            t.Success? ==> Inv(norm, t.value.0) && (Silent(s) ==> Silent(t.value.0))
  {
    hide JobsSound, ReservationsSound, MachinesExclusive, JobsExclusive, ProtocolsExclusive, ClaimsExclusive,
      ClaimsSound, FencedQuiet, EventsSound, LifecyclesSound, QuietOutbox;
    if |minted| == 1 && FreshId(s, minted[0]) && OwnReservations(s, owner, machine) == {} {
      var v := Reservation(owner, machine, Requested, 1, s.next, []);
      forall r | r in s.reservations && s.reservations[r].owner == owner && s.reservations[r].machine == machine
        ensures s.reservations[r].state.Released?
      {
        assert r !in OwnReservations(s, owner, machine);
      }
      NewReservation(norm, s.owners, s.next, s.reservations, s.jobs, s.claims, minted[0], v);
    }
  }

  /** A requested reservation has deployed nothing, so its owner always finds the one it has. */
  lemma OneReservation(norm: Norm, s: State, owner: Id, machine: string, r: Id)
    requires Inv(norm, s) && r in OwnReservations(s, owner, machine)
    ensures OwnReservations(s, owner, machine) == {r}
  {
  }

  lemma FinishKeeps(norm: Norm, s: State, owner: Id, r: Id, expected: nat, proofs: set<Integrated>, routed: set<Id>)
    requires Inv(norm, s) && owner in s.owners && s.owners[owner].fence.None? && CanFinish(s, owner, r, expected)
    ensures var t := FinishReservation(s, owner, r, proofs, routed); Inv(norm, t) && (Silent(s) ==> Silent(t))
  {
    hide JobsSound, ReservationsSound, MachinesExclusive, JobsExclusive, ProtocolsExclusive, ClaimsExclusive,
      ClaimsSound, FencedQuiet, EventsSound, LifecyclesSound, QuietOutbox;
    var v := s.reservations[r].(state := Released, revision := s.reservations[r].revision + 1);
    assert JobsQuiet(s.jobs, owner);
    ReservationChanges(norm, s.owners, s.next, s.reservations, s.jobs, s.claims, r, v);
    NewEvent(s.owners, s.outbox, owner, EventId(owner, r, None, OnReleased), routed);
  }

  lemma ChangeableKeeps(norm: Norm, s: State, owner: Id, j: Id, expected: nat, job: Job, state: JobState,
      reason: Option<string>, routed: set<Id>)
    requires Inv(norm, s) && Changeable(s, owner, j, expected) && !Active(state) && !state.Succeeded?
    requires job == s.jobs[j].(snapshot := job.snapshot, resources := job.resources, approval := job.approval,
      readySequence := job.readySequence)
    requires job.resources == s.jobs[j].resources || Distinct(job.resources)
    ensures KnownJob(s, j) && job.owner in s.owners
    ensures var t := Replace(s, j, job, state, reason, routed); Inv(norm, t) && (Silent(s) ==> Silent(t))
  {
    hide Inv, Silent;
    PendingUnfenced(norm, s, j);
    ReplaceKeeps(norm, s, j, job, state, reason, routed);
  }

  lemma ApproveKeeps(norm: Norm, s: State, owner: Id, action: Action, out: Outside)
    requires Inv(norm, s) && action.Approve? && owner in s.owners && s.owners[owner].fence.None?
    ensures var t := Effect(s, owner, action, out); t.Success? ==>
      Inv(norm, t.value.0) && (Silent(s) ==> Silent(t.value.0))
  {
    hide JobsSound, ReservationsSound, MachinesExclusive, JobsExclusive, ProtocolsExclusive, ClaimsExclusive,
      ClaimsSound, FencedQuiet, EventsSound, LifecyclesSound, QuietOutbox, CreateJobs, ReserveMachine, Transition,
      RefreshJob, FinishReservation, SameOwners, SameRecords;
  }

  lemma EffectKeeps(norm: Norm, s: State, owner: Id, action: Action, out: Outside)
    requires Inv(norm, s) && owner in s.owners && s.owners[owner].fence.None?
    ensures var t := Effect(s, owner, action, out); t.Success? ==>
      Inv(norm, t.value.0) && (Silent(s) ==> Silent(t.value.0))
  {
    hide Inv, Silent;
    match action
    case Approve(_, _, _, _, _) =>
      ApproveKeeps(norm, s, owner, action, out);
    case Reserve(machine, approval) =>
      ReserveKeeps(norm, s, owner, machine, approval, out.minted);
    case Submit(draft) =>
      CreateJobsKeep(norm, s, owner, [draft], map[], out.minted, out.resources);
    case SubmitBatch(drafts) =>
      CreateJobsKeep(norm, s, owner, drafts, map[], out.minted, out.resources);
    case Cancel(j, expected, reason) =>
      if Changeable(s, owner, j, expected) {
        ChangeableKeeps(norm, s, owner, j, expected, s.jobs[j], Canceled, Some(reason), out.routed);
      }
    case Refresh(j, expected, snapshot, approval) =>
      if Changeable(s, owner, j, expected) && |out.resources| == 1 && Distinct(out.resources[0]) {
        var job := s.jobs[j].(snapshot := snapshot, resources := out.resources[0], approval := approval,
          readySequence := None);
        ChangeableKeeps(norm, s, owner, j, expected, job, WaitingApproval, None, out.routed);
      }
    case Finish(r, expected, final) =>
      if CanFinish(s, owner, r, expected) {
        FinishKeeps(norm, s, owner, r, expected, out.proofs, out.routed);
      }
    case Acknowledge(_) =>
    case Bootstrap(_) =>
  }

  lemma PerformKeeps(norm: Norm, s: State, owner: Id, request: Id, action: Action, out: Outside)
    requires Inv(norm, s)
    ensures var t := Perform(s, owner, request, action, out).0; Inv(norm, t) && (Silent(s) ==> Silent(t))
  {
    hide JobsSound, ReservationsSound, MachinesExclusive, JobsExclusive, ProtocolsExclusive, ClaimsExclusive,
      ClaimsSound, FencedQuiet, EventsSound, LifecyclesSound, QuietOutbox;
    hide Effect;
    if request !in s.receipts && owner in s.owners && s.owners[owner].fence.None? {
      EffectKeeps(norm, s, owner, action, out);
    }
  }
}
