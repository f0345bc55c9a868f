/**
 What the receipt of an accepted request vouches for in every later ledger: the jobs it
 submitted, the reservation it asked for, the machine it released.
 */
module LedgerReceipts {
  import opened Wrappers
  import opened MachinePolicy
  import opened Ledger
  import opened LedgerInvariant
  import opened LedgerRuns
  import opened LedgerLaws
  import opened LedgerRequests
  import opened LedgerSettlement
  import opened LedgerGuarantees

  // ---------------------------------------------------------------- reservations last

  /** A reservation keeps its owner and machine, and what was released stays released. */
  ghost predicate ReservationsLast(a: Reservations, b: Reservations) {
    forall r :: r in a ==>
      && r in b && b[r].owner == a[r].owner && b[r].machine == a[r].machine
      && (a[r].state == Released ==> b[r].state == Released)
  }

  lemma SteadyLasts(a: Reservations, b: Reservations)
    requires Steady(a, b)
    ensures ReservationsLast(a, b)
  {
  }

  lemma SettleLasts(norm: Norm, s: State, j: Id, attempt: Id, outcome: Outcome, error: Option<string>,
      routed: set<Id>)
    requires Sound(norm, s)
    ensures ReservationsLast(s.reservations, OrSame(s, Settle(s, j, attempt, outcome, error, routed)).reservations)
  {
    OutcomeLeads(s, j, attempt, outcome, error, routed);
    hide Settle, JobSettled, SettlementTold, Contradicts, HistorySettled;
    if MaySettle(s, j, attempt, outcome) && Deploys(s, j, outcome) {
      var r := s.jobs[j].reservation.value;
      var t := Settle(s, j, attempt, outcome, error, routed).value;
      assert JobSound(s.owners, s.next, s.reservations, s.jobs, s.jobs[j]);
      SettledLasts(s.reservations[r], t.reservations[r], attempt, s.jobs[j].kind, s.jobs[j].snapshot.coverage, outcome);
    }
  }

  lemma SettledLasts(v: Reservation, w: Reservation, attempt: Id, kind: Kind, coverage: set<string>, outcome: Outcome)
    requires HistorySettled(v, w, attempt, kind, coverage, outcome)
    ensures w.owner == v.owner && w.machine == v.machine
  {
  }

  lemma StepLasts(norm: Norm, s: State, op: Op)
    requires Sound(norm, s)
    ensures ReservationsLast(s.reservations, Next(norm, s, op).reservations)
  {
    hide Sound, ReservationsLast, Settle, Steady;
    if op.SettleAttempt? {
      SettleLasts(norm, s, op.job, op.attempt, op.outcome, op.error, op.routed);
    } else {
      hide Next;
      NextSteady(norm, s, op);
      SteadyLasts(s.reservations, Next(norm, s, op).reservations);
    }
  }

  // ---------------------------------------------------------------- receipts

  /** The job was submitted by the owner as this draft. */
  predicate MadeFrom(s: State, owner: Id, draft: Draft, j: Id) {
    j in s.jobs && s.jobs[j].owner == owner && s.jobs[j].kind == draft.kind &&
    s.jobs[j].reservation == draft.reservation
  }

  predicate Vouches(s: State, r: Receipt) {
    match r.action
    case Submit(draft) => r.reply.Reply? && MadeFrom(s, r.owner, draft, r.reply.id)
    case SubmitBatch(drafts) =>
      && r.reply.BatchReply? && |r.reply.ids| == |drafts|
      && forall k :: 0 <= k < |drafts| ==> MadeFrom(s, r.owner, drafts[k], r.reply.ids[k])
    case Reserve(machine, _) =>
      && r.reply.Reply? && r.reply.id in s.reservations && s.reservations[r.reply.id].owner == r.owner
      && s.reservations[r.reply.id].machine == machine
    case Finish(id, _, _) =>
      id in s.reservations && s.reservations[id].owner == r.owner && s.reservations[id].state == Released
    case _ => true
  }

  ghost predicate ReceiptsVouch(s: State) {
    forall q :: q in s.receipts ==> Vouches(s, s.receipts[q])
  }

  lemma VouchesOn(s: State, t: State, r: Receipt, touched: set<Id>)
    requires JobsContinue(s.jobs, t.jobs, touched) && ReservationsLast(s.reservations, t.reservations)
    requires Vouches(s, r)
    ensures Vouches(t, r)
  {
    forall j | j in s.jobs ensures j in t.jobs && Continues(s.jobs[j], t.jobs[j]) {
    }
  }

  lemma BatchVouches(s: State, t: State, owner: Id, drafts: seq<Draft>, resources: seq<seq<Resource>>, made: seq<Id>)
    requires Submitted(s, t, owner, drafts, map[], resources, made)
    ensures forall k :: 0 <= k < |drafts| ==> MadeFrom(t, owner, drafts[k], made[k])
  {
    hide AllDepend, OnlyAdds;
    forall k | 0 <= k < |drafts| ensures MadeFrom(t, owner, drafts[k], made[k]) {
      assert Made(t.jobs[made[k]], owner, drafts[k], resources[k], s.next + k);
    }
  }

  lemma ReserveReply(s: State, owner: Id, machine: string, approval: Id, minted: seq<Id>)
    ensures var t := ReserveMachine(s, owner, machine, approval, minted);
      t.Success? ==>
        && t.value.1.Reply? && t.value.1.id in t.value.0.reservations
        && t.value.0.reservations[t.value.1.id].owner == owner
        && t.value.0.reservations[t.value.1.id].machine == machine
  {
    assert forall r :: OwnReservations(s, owner, machine) == {r} ==> r in OwnReservations(s, owner, machine);
  }

  /** The receipt of a first request vouches for what the request did. */
  lemma NewReceiptVouches(s: State, owner: Id, request: Id, action: Action, out: Outside)
    requires request !in s.receipts
    ensures var (t, r) := Perform(s, owner, request, action, out);
      r.Success? ==> Vouches(t, Receipt(owner, action, r.value))
  {
    var (t, r) := Perform(s, owner, request, action, out);
    if r.Success? {
      FirstRequest(s, owner, request, action, out);
      hide Perform, CreateJobs, Submitted, Changeable, Replace;
      match action
      case Submit(draft) =>
        DraftIsSubmitted(s, owner, request, draft, out);
        BatchVouches(s, t.(receipts := s.receipts), owner, [draft], out.resources, [r.value.id]);
        assert MadeFrom(t.(receipts := s.receipts), owner, [draft][0], [r.value.id][0]);
      case SubmitBatch(drafts) =>
        BatchIsSubmitted(s, owner, request, drafts, out);
        BatchVouches(s, t.(receipts := s.receipts), owner, drafts, out.resources, r.value.ids);
        forall k | 0 <= k < |drafts| ensures MadeFrom(t, owner, drafts[k], r.value.ids[k]) {
          assert MadeFrom(t.(receipts := s.receipts), owner, drafts[k], r.value.ids[k]);
        }
      case Reserve(machine, approval) =>
        ReserveReply(s, owner, machine, approval, out.minted);
        hide ReserveMachine;
      case Finish(id, expected, final) =>
        FinishReleases(s, owner, request, id, expected, final, out);
      case _ =>
    }
  }

  /** Only an accepted first request adds a receipt, and none changes. */
  lemma ReceiptsStep(norm: Norm, s: State, op: Op)
    ensures var t := Next(norm, s, op);
      forall q :: q in t.receipts ==>
        if q in s.receipts then t.receipts[q] == s.receipts[q]
        else
          && op.Request? && op.request == q && Perform(s, op.owner, q, op.action, op.out).1.Success?
          && t.receipts[q] == Receipt(op.owner, op.action, Perform(s, op.owner, q, op.action, op.out).1.value)
  {
    hide SameOwners, CanGrant, CanPark, Settle, MovedAttempt, TickClaim, Acquire, ChangeClaim, NotifyClaim,
      ClearNotification, Deliver, DeliveryFailed, Enqueue, Grant, Transition, NotifyRun, Remind;
    hide Register, Fenced, BindLifecycle, BindRevival, CompleteLifecycle, Revived, Perform;
    if op.Request? {
      RequestReceipts(s, op.owner, op.request, op.action, op.out);
    }
  }

  lemma RequestReceipts(s: State, owner: Id, request: Id, action: Action, out: Outside)
    ensures var (t, r) := Perform(s, owner, request, action, out);
      forall q :: q in t.receipts ==>
        if q in s.receipts then t.receipts[q] == s.receipts[q]
        else q == request && r.Success? && t.receipts[q] == Receipt(owner, action, r.value)
  {
    hide Effect;
    if owner in s.owners {
      EffectReceipts(s, owner, action, out);
    }
  }

  lemma StepVouches(norm: Norm, s: State, op: Op)
    requires Sound(norm, s) && ReceiptsVouch(s)
    ensures ReceiptsVouch(Next(norm, s, op))
  {
    var t := Next(norm, s, op);
    ReceiptsStep(norm, s, op);
    StepLasts(norm, s, op);
    NextContinues(norm, s, op);
    if op.Request? && op.request !in s.receipts {
      NewReceiptVouches(s, op.owner, op.request, op.action, op.out);
    }
    NextRequest(norm, s, op);
    hide Next, Perform, Vouches, Sound, JobsContinue, ReservationsLast;
    forall q | q in t.receipts ensures Vouches(t, t.receipts[q]) {
      if q in s.receipts {
        VouchesOn(s, t, s.receipts[q], TouchedBy(op));
      }
    }
  }

  lemma NextRequest(norm: Norm, s: State, op: Op)
    ensures op.Request? ==> Next(norm, s, op) == Perform(s, op.owner, op.request, op.action, op.out).0
  {
    hide Perform;
  }

  // ---------------------------------------------------------------- reachable ledgers

  /** Some run of transactions from the empty ledger leads here. */
  ghost predicate Reached(norm: Norm, s: State) {
    exists ops :: s == Run(norm, Empty, ops)
  }

  lemma {:induction false} RunVouches(norm: Norm, ops: seq<Op>)
    ensures Sound(norm, Run(norm, Empty, ops)) && ReceiptsVouch(Run(norm, Empty, ops))
    decreases |ops|
  {
    hide Next, ReceiptsVouch, Sound;
    if ops == [] {
      EmptyVouches(norm);
    } else {
      var n := |ops| - 1;
      assert ops[..n] + [ops[n]] == ops;
      RunVouches(norm, ops[..n]);
      RunAppend(norm, Empty, ops[..n], ops[n]);
      StepVouches(norm, Run(norm, Empty, ops[..n]), ops[n]);
      NextKeeps(norm, Run(norm, Empty, ops[..n]), ops[n]);
    }
  }

  lemma EmptyVouches(norm: Norm)
    ensures Sound(norm, Run(norm, Empty, [])) && ReceiptsVouch(Run(norm, Empty, []))
  {
    EmptyInv(norm);
  }

  /** In every reachable ledger each receipt vouches for what its request did. */
  lemma ReachedVouches(norm: Norm, s: State)
    requires Reached(norm, s)
    ensures Sound(norm, s) && ReceiptsVouch(s)
  {
    hide Run, Sound, ReceiptsVouch;
    var ops :| s == Run(norm, Empty, ops);
    RunVouches(norm, ops);
  }

  lemma ReachedOn(norm: Norm, s: State, ops: seq<Op>)
    requires Reached(norm, s)
    ensures Reached(norm, Run(norm, s, ops))
  {
    hide Run;
    var before :| s == Run(norm, Empty, before);
    RunConcat(norm, Empty, before, ops);
  }
}
