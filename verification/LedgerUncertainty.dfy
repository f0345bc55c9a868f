/**
 A deployment whose outcome is unknown blocks its machine until it is found out: how far
 the ledger keeps that (settlement in libexec/workspace-coordination-execution.rb).
 */
module LedgerUncertainty {
  import opened Wrappers
  import opened MachinePolicy
  import opened Ledger
  import opened LedgerInvariant
  import opened LedgerRuns
  import opened LedgerLaws
  import opened LedgerRequests
  import opened LedgerSettlement

  /** While any record is unknown, the reservation is blocked. */
  ghost predicate UnknownBlocks(reservations: Reservations) {
    forall r :: r in reservations && Uncertain(reservations[r].history) ==> reservations[r].state == BlockedRecovery
  }

  /** Another attempt on the reservation is entered as applied while the outcome of an earlier one is unknown. */
  ghost predicate Hides(s: State, op: Op) {
    && op.SettleAttempt? && op.outcome == Applied && Counts(s, op.job, op.attempt)
    && s.jobs[op.job].reservation.Some? && s.jobs[op.job].reservation.value in s.reservations
    && var v := s.reservations[s.jobs[op.job].reservation.value];
       Uncertain(v.history) && forall i :: 0 <= i < |v.history| ==> v.history[i].attempt != op.attempt
  }

  // ---------------------------------------------------------------- exactly when the block is lost

  lemma SteadyBlocks(a: Reservations, b: Reservations)
    requires Steady(a, b) && UnknownBlocks(a)
    ensures UnknownBlocks(b)
  {
    forall r | r in b && Uncertain(b[r].history) ensures b[r].state == BlockedRecovery {
      assert r in a && SteadyOne(a[r], b[r]) && AnyUnknown(a[r].history);
    }
  }

  ghost predicate Unheard(history: seq<Record>, attempt: Id) {
    forall i :: 0 <= i < |history| ==> history[i].attempt != attempt
  }

  lemma FirstRecord(history: seq<Record>, attempt: Id)
    ensures Unheard(history, attempt) <==> forall i :: !RecordAt(history, attempt, i)
  {
    var i := FindRecord(history, attempt);
    if i < |history| {
      assert RecordAt(history, attempt, i);
    }
  }

  lemma SettledHides(v: Reservation, w: Reservation, attempt: Id, kind: Kind, coverage: set<string>, outcome: Outcome)
    requires outcome == Applied || outcome == Unknown
    requires HistorySettled(v, w, attempt, kind, coverage, outcome)
    requires Uncertain(v.history) ==> v.state == BlockedRecovery
    ensures (Uncertain(w.history) ==> w.state == BlockedRecovery) <==>
      !(outcome == Applied && Uncertain(v.history) && Unheard(v.history, attempt))
  {
    FirstRecord(v.history, attempt);
    if Unheard(v.history, attempt) {
      assert forall i :: !RecordAt(v.history, attempt, i);
      assert w.history[|v.history|].outcome == outcome;
      if i :| 0 <= i < |v.history| && v.history[i].outcome == Unknown {
        assert w.history[i].outcome == Unknown;
      }
    } else {
      var i :| RecordAt(v.history, attempt, i);
    }
  }

  lemma OneBlocked(a: Reservations, b: Reservations, r: Id)
    requires r in a && r in b && b == a[r := b[r]] && UnknownBlocks(a)
    ensures UnknownBlocks(b) <==> (Uncertain(b[r].history) ==> b[r].state == BlockedRecovery)
  {
  }

  lemma OneUnknown(a: Reservations, r: Id)
    requires r in a && UnknownBlocks(a)
    ensures Uncertain(a[r].history) ==> a[r].state == BlockedRecovery
  {
  }

  lemma SettleExact(s: State, j: Id, attempt: Id, outcome: Outcome, error: Option<string>, routed: set<Id>)
    requires UnknownBlocks(s.reservations)
    ensures UnknownBlocks(OrSame(s, Settle(s, j, attempt, outcome, error, routed)).reservations) <==>
      !Hides(s, SettleAttempt(j, attempt, outcome, error, routed))
  {
    OutcomeLeads(s, j, attempt, outcome, error, routed);
    hide Settle, JobSettled, SettlementTold, UnknownBlocks, Uncertain, HistorySettled;
    if Counts(s, j, attempt) && Deploys(s, j, outcome) {
      var r := s.jobs[j].reservation.value;
      var v := s.reservations[r];
      FirstRecord(v.history, attempt);
      assert Unheard(v.history, attempt) ==> !Contradicts(v.history, attempt, outcome);
      if MaySettle(s, j, attempt, outcome) {
        OneUnknown(s.reservations, r);
        var t := Settle(s, j, attempt, outcome, error, routed).value;
        SettledHides(v, t.reservations[r], attempt, s.jobs[j].kind, s.jobs[j].snapshot.coverage, outcome);
        OneBlocked(s.reservations, t.reservations, r);
      }
    }
  }

  /** One step from a sound ledger loses the block exactly by entering an applied attempt over an unknown one. */
  lemma UnknownStepExact(norm: Norm, s: State, op: Op)
    requires Sound(norm, s) && UnknownBlocks(s.reservations)
    ensures UnknownBlocks(Next(norm, s, op).reservations) <==> !Hides(s, op)
  {
    hide Sound, UnknownBlocks, Steady;
    if op.SettleAttempt? {
      SettleExact(s, op.job, op.attempt, op.outcome, op.error, op.routed);
    } else {
      hide Next;
      NextSteady(norm, s, op);
      SteadyBlocks(s.reservations, Next(norm, s, op).reservations);
    }
  }

  /** Over whole runs: unknown outcomes block their machines throughout if and only if no step hides one. */
  lemma {:induction false} UnknownThroughoutExact(norm: Norm, ops: seq<Op>)
    ensures (forall k :: 0 <= k <= |ops| ==> UnknownBlocks(Run(norm, Empty, ops[..k]).reservations)) <==>
      forall k :: 0 <= k < |ops| ==> !Hides(Run(norm, Empty, ops[..k]), ops[k])
    decreases |ops|
  {
    hide Next, UnknownBlocks, Hides;
    if ops == [] {
      NothingUnknown(norm);
    } else {
      var n := |ops| - 1;
      var shorter := ops[..n];
      UnknownThroughoutExact(norm, shorter);
      forall k | 0 <= k <= n ensures shorter[..k] == ops[..k] {
      }
      assert ops[..|ops|] == ops && shorter + [ops[n]] == ops;
      RunAppend(norm, Empty, shorter, ops[n]);
      EmptySound(norm, shorter);
      var s := Run(norm, Empty, shorter);
      if UnknownBlocks(s.reservations) {
        UnknownStepExact(norm, s, ops[n]);
      }
      hide Run;
      assert forall k :: 0 <= k < n ==> shorter[k] == ops[k];
      assert ops[..n] == shorter;
      LastOne(norm, ops, n);
    }
  }

  lemma LastOne(norm: Norm, ops: seq<Op>, n: nat)
    requires n + 1 == |ops|
    ensures (forall k :: 0 <= k <= n + 1 ==> UnknownBlocks(Run(norm, Empty, ops[..k]).reservations)) <==>
      (forall k :: 0 <= k <= n ==> UnknownBlocks(Run(norm, Empty, ops[..k]).reservations)) &&
      UnknownBlocks(Run(norm, Empty, ops[..n + 1]).reservations)
  {
    hide Run, UnknownBlocks;
  }

  lemma NothingUnknown(norm: Norm)
    ensures UnknownBlocks(Run(norm, Empty, []).reservations)
  {
  }

  lemma EmptySound(norm: Norm, ops: seq<Op>)
    ensures Sound(norm, Run(norm, Empty, ops))
  {
    EmptyInv(norm);
    assert Sound(norm, Empty);
    hide Sound, Run;
    RunKeeps(norm, Empty, ops);
  }

  // ---------------------------------------------------------------- when refreshes keep the machine

  /** A refresh of a deployment prepares the machine of its reservation again. */
  predicate KeepsMachine(s: State, op: Op) {
    op.Request? && op.action.Refresh? && op.action.job in s.jobs && |op.out.resources| == 1 &&
    s.jobs[op.action.job].reservation.Some? && s.jobs[op.action.job].reservation.value in s.reservations ==>
      Machine(s.reservations[s.jobs[op.action.job].reservation.value].machine) in op.out.resources[0]
  }

  /** The job names the machine of its reservation, and while it is active no other attempt's outcome is unknown. */
  predicate Alone(reservations: Reservations, job: Job) {
    job.reservation.Some? && job.reservation.value in reservations ==>
      var v := reservations[job.reservation.value];
      && (!Terminal(job.state) ==> Machine(v.machine) in job.resources)
      && (Active(job.state) ==>
            forall i :: 0 <= i < |v.history| && v.history[i].outcome == Unknown ==>
              Some(v.history[i].attempt) == job.attempt)
  }

  ghost predicate AllAlone(s: State) {
    forall j :: j in s.jobs ==> Alone(s.reservations, s.jobs[j])
  }

  /** A job that a step did not touch stays alone when its reservation keeps its history. */
  lemma UntouchedAlone(a: Reservations, b: Reservations, x: Job, y: Job)
    requires Continues(x, y) && Undisturbed(x, y) && Alone(a, x) && Steady(a, b)
    requires x.reservation.Some? ==> x.reservation.value in a
    ensures Alone(b, y)
  {
  }

  lemma RefreshAlone(s: State, op: Op)
    requires op.Request? && op.action.Refresh? && AllAlone(s) && UnknownBlocks(s.reservations) && KeepsMachine(s, op)
    ensures AllAlone(Perform(s, op.owner, op.request, op.action, op.out).0)
  {
    if op.request !in s.receipts {
      RefreshStartsOver(s, op.owner, op.request, op.action.job, op.action.expected, op.action.snapshot,
        op.action.approval, op.out);
    }
    hide Perform, UnknownBlocks;
  }

  lemma SubmitAlone(s: State, t: State, owner: Id, drafts: seq<Draft>, resources: seq<seq<Resource>>, made: seq<Id>)
    requires AllAlone(s) && Submitted(s, t, owner, drafts, map[], resources, made)
    requires forall k :: 0 <= k < |drafts| ==> Backs(s, owner, drafts[k], resources[k])
    ensures AllAlone(t)
  {
    hide AllDepend;
    forall j | j in t.jobs ensures Alone(t.reservations, t.jobs[j]) {
      if j !in s.jobs {
        var k :| 0 <= k < |made| && made[k] == j;
        assert Made(t.jobs[made[k]], owner, drafts[k], resources[k], s.next + k);
        assert Backs(s, owner, drafts[k], resources[k]);
      }
    }
  }

  lemma SubmissionAlone(s: State, op: Op)
    requires op.Request? && (op.action.Submit? || op.action.SubmitBatch?) && AllAlone(s)
    ensures AllAlone(Perform(s, op.owner, op.request, op.action, op.out).0)
  {
    var (t, r) := Perform(s, op.owner, op.request, op.action, op.out);
    if op.request !in s.receipts && r.Success? {
      FirstRequest(s, op.owner, op.request, op.action, op.out);
      hide Perform, AllAlone, Submitted, CreateJobs;
      if op.action.Submit? {
        DraftIsSubmitted(s, op.owner, op.request, op.action.draft, op.out);
        BatchIsBacked(s, op.owner, [op.action.draft], map[], op.out.minted, op.out.resources);
        SubmitAlone(s, t.(receipts := s.receipts), op.owner, [op.action.draft], op.out.resources, [r.value.id]);
      } else {
        BatchIsSubmitted(s, op.owner, op.request, op.action.drafts, op.out);
        BatchIsBacked(s, op.owner, op.action.drafts, map[], op.out.minted, op.out.resources);
        SubmitAlone(s, t.(receipts := s.receipts), op.owner, op.action.drafts, op.out.resources, r.value.ids);
      }
      SameAlone(t.(receipts := s.receipts), t);
    } else {
      FirstRefused(s, op.owner, op.request, op.action, op.out);
    }
  }

  lemma FirstRefused(s: State, owner: Id, request: Id, action: Action, out: Outside)
    ensures var (t, r) := Perform(s, owner, request, action, out); request in s.receipts || r.Refused? ==> t == s
  {
    hide Effect;
  }

  lemma SameAlone(s: State, t: State)
    requires AllAlone(s) && t.jobs == s.jobs && t.reservations == s.reservations
    ensures AllAlone(t)
  {
  }

  lemma StartAlone(norm: Norm, s: State, j: Id, attempt: Id, routed: set<Id>)
    requires CanGrant(norm, s, j) && AllAlone(s) && UnknownBlocks(s.reservations)
    ensures AllAlone(Grant(s, j, attempt, routed))
  {
    GrantSteady(s, j, attempt, routed);
    var t := Grant(s, j, attempt, routed);
    assert t.jobs == s.jobs[j := t.jobs[j]];
    hide SameOwners, SameRecords, Approved, Keys, ActiveKeys, HeldKeys, SameMachine, Announce;
    forall i | i in t.jobs ensures Alone(t.reservations, t.jobs[i]) {
      assert Alone(s.reservations, s.jobs[i]);
    }
  }

  lemma QuietStepAlone(norm: Norm, s: State, op: Op)
    requires Sound(norm, s) && AllAlone(s) && !op.SettleAttempt? && TouchedBy(op) == {}
    ensures AllAlone(Next(norm, s, op))
  {
    hide Next, Sound, Continues, Undisturbed, Steady, Alone;
    NextContinues(norm, s, op);
    NextSteady(norm, s, op);
    var t := Next(norm, s, op);
    forall j | j in t.jobs ensures Alone(t.reservations, t.jobs[j]) {
      JobBacked(norm, s, j);
      UntouchedAlone(s.reservations, t.reservations, s.jobs[j], t.jobs[j]);
    }
  }

  lemma JobBacked(norm: Norm, s: State, j: Id)
    requires Sound(norm, s) && j in s.jobs
    ensures s.jobs[j].reservation.Some? ==> s.jobs[j].reservation.value in s.reservations
  {
    assert JobSound(s.owners, s.next, s.reservations, s.jobs, s.jobs[j]);
  }

  /** Two active jobs never share a reservation whose machine both name. */
  lemma NoOtherActive(norm: Norm, s: State, j: Id, i: Id)
    requires Sound(norm, s) && AllAlone(s) && j in s.jobs && i in s.jobs && i != j
    requires Active(s.jobs[j].state) && Active(s.jobs[i].state)
    requires s.jobs[j].reservation.Some? && s.jobs[j].reservation.value in s.reservations
    ensures s.jobs[i].reservation != s.jobs[j].reservation
  {
    if s.jobs[i].reservation == s.jobs[j].reservation {
      NamesKey(norm, s, i);
      NamesKey(norm, s, j);
      hide *;
      KeysApart(norm, s, j, i);
    }
  }

  lemma NamesKey(norm: Norm, s: State, j: Id)
    requires AllAlone(s) && j in s.jobs && Active(s.jobs[j].state)
    requires s.jobs[j].reservation.Some? && s.jobs[j].reservation.value in s.reservations
    ensures norm(Machine(s.reservations[s.jobs[j].reservation.value].machine)) in Keys(norm, s.jobs[j].resources)
  {
    assert Alone(s.reservations, s.jobs[j]);
  }

  lemma KeysApart(norm: Norm, s: State, j: Id, i: Id)
    requires Sound(norm, s) && j in s.jobs && i in s.jobs && i != j
    requires Active(s.jobs[j].state) && Active(s.jobs[i].state)
    ensures Keys(norm, s.jobs[j].resources) !! Keys(norm, s.jobs[i].resources)
  {
    assert JobsExclusive(norm, s.jobs);
  }

  lemma SettledAlone(a: Reservations, b: Reservations, x: Job, y: Job, attempt: Id, outcome: Outcome)
    requires Alone(a, x) && x.attempt == Some(attempt) && Active(x.state)
    requires y.reservation == x.reservation && y.resources == x.resources && y.attempt == x.attempt
    requires Active(y.state) ==> outcome == Unknown
    requires x.reservation.Some? && x.reservation.value in a && x.reservation.value in b
    requires outcome == Applied || outcome == Unknown
    requires HistorySettled(a[x.reservation.value], b[x.reservation.value], attempt, x.kind, x.snapshot.coverage,
               outcome)
    ensures Alone(b, y)
  {
    var v, w := a[x.reservation.value], b[x.reservation.value];
    FirstRecord(v.history, attempt);
    if !Unheard(v.history, attempt) {
      var i :| RecordAt(v.history, attempt, i);
    }
  }

  lemma SettleAlone(norm: Norm, s: State, j: Id, attempt: Id, outcome: Outcome, error: Option<string>,
      routed: set<Id>)
    requires Sound(norm, s) && AllAlone(s)
    ensures AllAlone(OrSame(s, Settle(s, j, attempt, outcome, error, routed)))
  {
    OutcomeLeads(s, j, attempt, outcome, error, routed);
    if MaySettle(s, j, attempt, outcome) {
      var t := Settle(s, j, attempt, outcome, error, routed).value;
      hide *;
      AfterSettlement(s, t, j, attempt, outcome, error);
      forall i | i in t.jobs ensures Alone(t.reservations, t.jobs[i]) {
        OneSettledAlone(norm, s, t, j, attempt, outcome, error, i);
      }
      AllAloneNow(t);
    }
  }

  lemma AfterSettlement(s: State, t: State, j: Id, attempt: Id, outcome: Outcome, error: Option<string>)
    requires MaySettle(s, j, attempt, outcome) && JobSettled(s, t, j, outcome, error)
    ensures j in s.jobs && Counts(s, j, attempt) && t.jobs.Keys == s.jobs.Keys
  {
  }

  lemma OneSettledAlone(norm: Norm, s: State, t: State, j: Id, attempt: Id, outcome: Outcome, error: Option<string>,
      i: Id)
    requires Sound(norm, s) && AllAlone(s) && Counts(s, j, attempt) && i in s.jobs && i in t.jobs
    requires JobSettled(s, t, j, outcome, error) && ReservationsSettled(s, t, j, attempt, outcome)
    ensures Alone(t.reservations, t.jobs[i])
  {
    hide HistorySettled, Sound, AllAlone;
    AloneAt(s, i);
    AloneAt(s, j);
    if Deploys(s, j, outcome) {
      if i == j {
        hide Alone;
        SettledAlone(s.reservations, t.reservations, s.jobs[j], t.jobs[j], attempt, outcome);
      } else {
        if Active(s.jobs[i].state) {
          NoOtherActive(norm, s, j, i);
        }
        MachineStays(s.reservations[s.jobs[j].reservation.value], t.reservations[s.jobs[j].reservation.value],
          attempt, s.jobs[j].kind, s.jobs[j].snapshot.coverage, outcome);
      }
    }
  }

  lemma AloneAt(s: State, j: Id)
    requires AllAlone(s) && j in s.jobs
    ensures Alone(s.reservations, s.jobs[j])
  {
  }

  lemma AllAloneNow(s: State)
    requires forall j :: j in s.jobs ==> Alone(s.reservations, s.jobs[j])
    ensures AllAlone(s)
  {
  }

  lemma MachineStays(v: Reservation, w: Reservation, attempt: Id, kind: Kind, coverage: set<string>, outcome: Outcome)
    requires HistorySettled(v, w, attempt, kind, coverage, outcome)
    ensures w.machine == v.machine
  {
  }

  lemma StepAlone(norm: Norm, s: State, op: Op)
    requires Sound(norm, s) && AllAlone(s) && UnknownBlocks(s.reservations) && KeepsMachine(s, op)
    ensures AllAlone(Next(norm, s, op))
  {
    hide Sound, AllAlone, UnknownBlocks, Settle, Grant, CanGrant, KeepsMachine;
    if op.SettleAttempt? {
      SettleAlone(norm, s, op.job, op.attempt, op.outcome, op.error, op.routed);
    } else if op.Start? {
      if CanGrant(norm, s, op.job) {
        StartAlone(norm, s, op.job, op.attempt, op.routed);
      }
    } else if op.Request? && op.action.Refresh? {
      hide Perform;
      RefreshAlone(s, op);
    } else if op.Request? && (op.action.Submit? || op.action.SubmitBatch?) {
      hide Perform;
      SubmissionAlone(s, op);
    } else {
      hide Next;
      QuietStepAlone(norm, s, op);
    }
  }

  /** What is alone hides nothing. */
  lemma AloneHidesNothing(s: State, op: Op)
    requires AllAlone(s)
    ensures !Hides(s, op)
  {
    if op.SettleAttempt? && op.job in s.jobs {
      AloneAt(s, op.job);
    }
    hide AllAlone;
  }

  /** Over whole runs whose refreshes keep the machine, every unknown outcome blocks its machine. */
  lemma {:induction false} UnknownBlocksWhenKept(norm: Norm, ops: seq<Op>)
    requires forall k :: 0 <= k < |ops| ==> KeepsMachine(Run(norm, Empty, ops[..k]), ops[k])
    ensures UnknownBlocks(Run(norm, Empty, ops).reservations) && AllAlone(Run(norm, Empty, ops))
    decreases |ops|
  {
    if ops != [] {
      hide Next, UnknownBlocks, AllAlone, Run, KeepsMachine, Sound, Hides;
      var n := |ops| - 1;
      var shorter := ops[..n];
      assert shorter + [ops[n]] == ops && forall k :: 0 <= k <= n ==> shorter[..k] == ops[..k];
      forall k | 0 <= k < n ensures KeepsMachine(Run(norm, Empty, shorter[..k]), shorter[k]) {
        assert KeepsMachine(Run(norm, Empty, ops[..k]), ops[k]);
      }
      UnknownBlocksWhenKept(norm, shorter);
      EmptySound(norm, shorter);
      RunAppend(norm, Empty, shorter, ops[n]);
      var s := Run(norm, Empty, shorter);
      assert KeepsMachine(s, ops[n]);
      AloneHidesNothing(s, ops[n]);
      UnknownStepExact(norm, s, ops[n]);
      StepAlone(norm, s, ops[n]);
    }
  }
}
