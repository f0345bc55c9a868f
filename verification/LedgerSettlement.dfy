/**
 Where the outcome of an attempt leads, said on the records: the job, its reservation,
 and what its owner can still do (libexec/workspace-coordination-execution.rb).
 */
module LedgerSettlement {
  import opened Wrappers
  import opened MachinePolicy
  import opened Ledger
  import opened LedgerInvariant
  import opened LedgerRuns
  import opened LedgerLaws
  import opened LedgerRequests

  // ---------------------------------------------------------------- the job

  /** A worker's attempt that still counts. */
  predicate Counts(s: State, j: Id, attempt: Id) {
    && j in s.jobs && s.jobs[j].owner in s.owners && s.jobs[j].attempt == Some(attempt)
    && s.jobs[j].state in {Claimed, Running, Reconciling}
  }

  /** The end, or the place from which the owner goes on, that each outcome leads to. */
  predicate LeadsTo(outcome: Outcome, state: JobState) {
    && (outcome == Applied ==> state == Succeeded)
    && (outcome == NotApplied ==> state == Failed)
    && (outcome == BaselineChanged ==> state == NeedsRefresh)
    && (outcome == Unknown ==> state == Reconciling)
  }

  /** The job was settled: only its result, state and reason changed, and its resources are still its own. */
  predicate JobSettled(s: State, t: State, j: Id, outcome: Outcome, error: Option<string>) {
    && j in s.jobs && j in t.jobs && LeadsTo(outcome, t.jobs[j].state)
    && t.jobs == s.jobs[j := s.jobs[j].(result := Some(outcome), state := t.jobs[j].state, reason := error,
         revision := t.jobs[j].revision)]
    && s.jobs[j].revision <= t.jobs[j].revision <= s.jobs[j].revision + 1
    && (s.jobs[j].state != t.jobs[j].state ==> t.jobs[j].revision == s.jobs[j].revision + 1)
  }

  /** The move is announced, unless nothing moved. */
  ghost predicate SettlementTold(s: State, t: State, j: Id, error: Option<string>, routed: set<Id>)
    requires j in s.jobs && j in t.jobs && s.jobs[j].owner in s.owners
  {
    if t.jobs[j].state == s.jobs[j].state && error == s.jobs[j].reason then t.outbox == s.outbox
    else Tells(s, t, s.jobs[j].owner, EventId(s.jobs[j].owner, j, Some(s.jobs[j].snapshot.id),
           OfJob(t.jobs[j].state)), routed)
  }

  // ---------------------------------------------------------------- the deployment history

  /** The first record of the attempt is at place `i`. */
  ghost predicate RecordAt(history: seq<Record>, attempt: Id, i: int) {
    0 <= i < |history| && history[i].attempt == attempt && forall k :: 0 <= k < i ==> history[k].attempt != attempt
  }

  predicate Uncertain(history: seq<Record>) {
    exists i :: 0 <= i < |history| && history[i].outcome == Unknown
  }

  /** An unknown outcome may be found applied once; any other second outcome of an attempt contradicts the first. */
  ghost predicate Contradicts(history: seq<Record>, attempt: Id, outcome: Outcome) {
    exists i :: RecordAt(history, attempt, i) && history[i].outcome != outcome &&
                !(history[i].outcome == Unknown && outcome == Applied && !history[i].disposed)
  }

  /** The reservation after an attempt that applied or may have applied. */
  ghost predicate HistorySettled(v: Reservation, w: Reservation, attempt: Id, kind: Kind, coverage: set<string>,
      outcome: Outcome) {
    && w == v.(history := w.history, state := w.state, revision := w.revision)
    && ((forall i :: !RecordAt(v.history, attempt, i)) ==>
          && w.history == v.history + [Record(attempt, kind, coverage, outcome, false)]
          && w.state == (if outcome == Applied then DeployedReview else BlockedRecovery)
          && w.revision == v.revision + 1)
    && forall i :: RecordAt(v.history, attempt, i) ==>
         if v.history[i].outcome == outcome then w == v
         else
           && w.history == v.history[i := v.history[i].(outcome := outcome, disposed := true)]
           && w.state == (if Uncertain(w.history) then BlockedRecovery else DeployedReview)
           && w.revision == v.revision + 1
  }

  lemma HistoryExact(v: Reservation, record: Record)
    requires record.outcome == Applied || record.outcome == Unknown
    ensures Recorded(v, record).Success? <==> !Contradicts(v.history, record.attempt, record.outcome)
    ensures Recorded(v, record).Success? && !record.disposed ==>
      HistorySettled(v, Recorded(v, record).value, record.attempt, record.kind, record.coverage, record.outcome)
  {
    var i := FindRecord(v.history, record.attempt);
    if i < |v.history| {
      assert RecordAt(v.history, record.attempt, i);
      forall k | RecordAt(v.history, record.attempt, k) ensures k == i {
      }
    } else {
      assert forall k :: !RecordAt(v.history, record.attempt, k);
    }
  }

  /** The reservation whose history an outcome of the job enters. */
  predicate Deploys(s: State, j: Id, outcome: Outcome)
    requires j in s.jobs
  {
    && s.jobs[j].reservation.Some? && s.jobs[j].reservation.value in s.reservations
    && (outcome == Applied || outcome == Unknown)
  }

  /** Reservations after the settlement of a job. */
  ghost predicate ReservationsSettled(s: State, t: State, j: Id, attempt: Id, outcome: Outcome)
    requires j in s.jobs
  {
    if Deploys(s, j, outcome) then
      var r := s.jobs[j].reservation.value;
      && r in t.reservations && t.reservations == s.reservations[r := t.reservations[r]]
      && HistorySettled(s.reservations[r], t.reservations[r], attempt, s.jobs[j].kind, s.jobs[j].snapshot.coverage,
           outcome)
    else t.reservations == s.reservations
  }

  /** When a settlement is accepted: a current attempt whose outcome does not contradict what is known of it. */
  ghost predicate MaySettle(s: State, j: Id, attempt: Id, outcome: Outcome) {
    && Counts(s, j, attempt)
    && (Deploys(s, j, outcome) ==>
          !Contradicts(s.reservations[s.jobs[j].reservation.value].history, attempt, outcome))
  }

  lemma ReservationsExact(s: State, j: Id, attempt: Id, outcome: Outcome)
    requires j in s.jobs
    ensures var r := SettledReservations(s, s.jobs[j], attempt, outcome);
      && (r.Success? <==>
            (Deploys(s, j, outcome) ==>
              !Contradicts(s.reservations[s.jobs[j].reservation.value].history, attempt, outcome)))
      && (r.Success? ==> ReservationsSettled(s, s.(reservations := r.value), j, attempt, outcome))
  {
    hide Recorded, Contradicts, HistorySettled;
    if Deploys(s, j, outcome) {
      HistoryExact(s.reservations[s.jobs[j].reservation.value],
        Record(attempt, s.jobs[j].kind, s.jobs[j].snapshot.coverage, outcome, false));
    }
  }

  lemma ReplaceSettles(s: State, rs: Reservations, j: Id, outcome: Outcome, error: Option<string>, routed: set<Id>)
    requires j in s.jobs && s.jobs[j].owner in s.owners
    ensures var t := Replace(s.(reservations := rs), j, s.jobs[j].(result := Some(outcome)), Settled(outcome), error,
        routed);
      && JobSettled(s, t, j, outcome, error) && t.reservations == rs && SettlementTold(s, t, j, error, routed)
      && t == s.(jobs := t.jobs, reservations := rs, outbox := t.outbox)
  {
    hide SameOwners, SameRecords;
  }

  /** A settlement is accepted exactly when it may be, and leads the job and its reservation where its outcome says. */
  lemma OutcomeLeads(s: State, j: Id, attempt: Id, outcome: Outcome, error: Option<string>, routed: set<Id>)
    ensures var r := Settle(s, j, attempt, outcome, error, routed);
      && (r.Success? <==> MaySettle(s, j, attempt, outcome))
      && (r.Success? ==>
            && JobSettled(s, r.value, j, outcome, error) && ReservationsSettled(s, r.value, j, attempt, outcome)
            && SettlementTold(s, r.value, j, error, routed)
            && r.value == s.(jobs := r.value.jobs, reservations := r.value.reservations, outbox := r.value.outbox))
  {
    CountsIs(s, j, attempt);
    if Counts(s, j, attempt) {
      ReservationsExact(s, j, attempt, outcome);
      hide *;
      if SettledReservations(s, s.jobs[j], attempt, outcome).Success? {
        SettlesTo(s, j, attempt, outcome, error, routed);
      } else {
        SettleRefused(s, j, attempt, outcome, error, routed);
      }
      MayIs(s, j, attempt, outcome);
    } else {
      hide SettledReservations, Replace, JobSettled, HistorySettled, Contradicts, SettlementTold, ReservationsSettled,
        CurrentAttempt;
    }
  }

  lemma MayIs(s: State, j: Id, attempt: Id, outcome: Outcome)
    requires Counts(s, j, attempt)
    ensures j in s.jobs
    ensures MaySettle(s, j, attempt, outcome) <==>
      (Deploys(s, j, outcome) ==>
        !Contradicts(s.reservations[s.jobs[j].reservation.value].history, attempt, outcome))
  {
    hide Contradicts;
  }

  lemma SettleRefused(s: State, j: Id, attempt: Id, outcome: Outcome, error: Option<string>, routed: set<Id>)
    requires j in s.jobs && SettledReservations(s, s.jobs[j], attempt, outcome).Refused?
    ensures Settle(s, j, attempt, outcome, error, routed).Refused?
  {
    hide SettledReservations;
  }

  lemma SettlesTo(s: State, j: Id, attempt: Id, outcome: Outcome, error: Option<string>, routed: set<Id>)
    requires CurrentAttempt(s, j, attempt) && SettledReservations(s, s.jobs[j], attempt, outcome).Success?
    requires var rs := SettledReservations(s, s.jobs[j], attempt, outcome).value;
      ReservationsSettled(s, s.(reservations := rs), j, attempt, outcome)
    ensures var r := Settle(s, j, attempt, outcome, error, routed);
      && r.Success? && JobSettled(s, r.value, j, outcome, error)
      && ReservationsSettled(s, r.value, j, attempt, outcome)
      && j in r.value.jobs && SettlementTold(s, r.value, j, error, routed)
      && r.value == s.(jobs := r.value.jobs, reservations := r.value.reservations, outbox := r.value.outbox)
  {
    var rs := SettledReservations(s, s.jobs[j], attempt, outcome).value;
    ReplaceSettles(s, rs, j, outcome, error, routed);
    var t := Replace(s.(reservations := rs), j, s.jobs[j].(result := Some(outcome)), Settled(outcome), error, routed);
    assert Settle(s, j, attempt, outcome, error, routed) == Success(t) by {
      hide SettledReservations, Replace;
    }
    SettledAlike(s, s.(reservations := rs), t, j, attempt, outcome);
    SettledKnown(s, t, j, outcome, error);
    hide *;
  }

  lemma SettledKnown(s: State, t: State, j: Id, outcome: Outcome, error: Option<string>)
    requires JobSettled(s, t, j, outcome, error)
    ensures j in s.jobs && j in t.jobs
  {
  }

  lemma SettledAlike(s: State, t: State, u: State, j: Id, attempt: Id, outcome: Outcome)
    requires j in s.jobs && ReservationsSettled(s, t, j, attempt, outcome) && u.reservations == t.reservations
    ensures ReservationsSettled(s, u, j, attempt, outcome)
  {
  }

  lemma CountsIs(s: State, j: Id, attempt: Id)
    ensures CurrentAttempt(s, j, attempt) <==> Counts(s, j, attempt)
  {
  }

  // ---------------------------------------------------------------- moves of an attempt

  /** A current attempt is started from its claim, or becomes uncertain; nothing else moves it. */
  predicate MayMove(s: State, j: Id, attempt: Id, state: JobState) {
    Counts(s, j, attempt) && (state == Reconciling || (state == Running && s.jobs[j].state == Claimed))
  }

  /** Only state, reason and revision of the job change, and the move is told. */
  ghost predicate AttemptMoved(s: State, t: State, j: Id, state: JobState, reason: Option<string>, routed: set<Id>) {
    && j in s.jobs && j in t.jobs && s.jobs[j].owner in s.owners
    && t == s.(jobs := s.jobs[j := s.jobs[j].(state := state, reason := reason, revision := t.jobs[j].revision)],
               outbox := t.outbox)
    && t.jobs[j].revision == s.jobs[j].revision + (if state == s.jobs[j].state && reason == s.jobs[j].reason then 0
         else 1)
    && if state == Reconciling && !(state == s.jobs[j].state && reason == s.jobs[j].reason)
       then Tells(s, t, s.jobs[j].owner, EventId(s.jobs[j].owner, j, Some(s.jobs[j].snapshot.id), OfJob(state)), routed)
       else t.outbox == s.outbox
  }

  lemma MoveMeans(s: State, j: Id, attempt: Id, state: JobState, reason: Option<string>, routed: set<Id>)
    ensures var t := MovedAttempt(s, j, attempt, state, reason, routed);
      if MayMove(s, j, attempt, state) then AttemptMoved(s, t, j, state, reason, routed) else t == s
  {
    assert CurrentAttempt(s, j, attempt) <==> Counts(s, j, attempt);
    hide SameOwners, SameRecords;
    if MayMove(s, j, attempt, state) {
      var t := MovedAttempt(s, j, attempt, state, reason, routed);
      if t.outbox != s.outbox {
        AnnounceTells(s, t, s.jobs[j].owner, EventId(s.jobs[j].owner, j, Some(s.jobs[j].snapshot.id), OfJob(state)),
          routed);
      }
    }
  }

  // ---------------------------------------------------------------- what the owner can do next

  /** After a changed baseline the owner refreshes the job under its new revision, and it waits again. */
  lemma ChangedBaselineIsRefreshed(s: State, j: Id, attempt: Id, error: Option<string>, routed: set<Id>, request: Id,
      snapshot: Snapshot, approval: Id, out: Outside)
    requires MaySettle(s, j, attempt, BaselineChanged) && s.owners[s.jobs[j].owner].fence.None?
    requires request !in s.receipts && Prepared(out) && out.capacity
    ensures var t := Settle(s, j, attempt, BaselineChanged, error, routed);
      && t.Success? && j in t.value.jobs
      && var (u, r) := Perform(t.value, s.jobs[j].owner, request,
             Refresh(j, t.value.jobs[j].revision, snapshot, approval), out);
         && r.Success? && j in u.jobs && u.jobs[j].state == WaitingApproval && u.jobs[j].snapshot == snapshot
         && u.jobs[j].resources == out.resources[0] && u.jobs[j].approval == approval
         && u.jobs[j].dependsOn == s.jobs[j].dependsOn
  {
    OutcomeLeads(s, j, attempt, BaselineChanged, error, routed);
    hide Settle, Perform, Contradicts, HistorySettled;
    var t := Settle(s, j, attempt, BaselineChanged, error, routed).value;
    RefreshStartsOver(t, s.jobs[j].owner, request, j, t.jobs[j].revision, snapshot, approval, out);
  }

  /** After an attempt that was not applied, no later cancellation or refresh of the job is ever accepted. */
  lemma NotAppliedIsFinal(norm: Norm, s: State, j: Id, attempt: Id, error: Option<string>, routed: set<Id>,
      ops: seq<Op>, owner: Id, request: Id, expected: nat, reason: string, snapshot: Snapshot, approval: Id,
      out: Outside)
    requires MaySettle(s, j, attempt, NotApplied)
    ensures var t := Settle(s, j, attempt, NotApplied, error, routed);
      && t.Success?
      && var u := Run(norm, t.value, ops);
         && j in u.jobs && u.jobs[j].state == Failed && u.jobs[j].result == Some(NotApplied)
         && (request !in u.receipts ==>
               && Perform(u, owner, request, Cancel(j, expected, reason), out).1.Refused?
               && Perform(u, owner, request, Refresh(j, expected, snapshot, approval), out).1.Refused?)
  {
    OutcomeLeads(s, j, attempt, NotApplied, error, routed);
    hide Settle, Perform, Run, Contradicts, HistorySettled;
    var t := Settle(s, j, attempt, NotApplied, error, routed).value;
    RunContinues(norm, t, ops);
    var u := Run(norm, t, ops);
    if request !in u.receipts {
      CancellationEnds(u, owner, request, j, expected, reason, out);
      RefreshStartsOver(u, owner, request, j, expected, snapshot, approval, out);
    }
  }
}
