/**
 An unknown deployment that no longer blocks its machine (refresh in
 libexec/workspace-coordination.rb, settlement in -execution.rb): a whole run of the
 ledger in which one of two deployments of a reservation is refreshed for another
 machine, both run together, and the applied one hides the unknown one.
 */
module HiddenUnknown {
  import opened Wrappers
  import opened MachinePolicy
  import opened Ledger
  import opened LedgerInvariant
  import opened LedgerRuns
  import opened LedgerSettlement
  import opened LedgerUncertainty

  const SESSION := Owner(7, "/w", "s", false, None)
  const ALLOWED := MachineScope("m", false, {MachineActivate})
  const PREPARED := Snapshot(5, "r", "t", {}, None)
  const WANTED := Draft("a", MachineActivate, [], 1, Some(2), PREPARED)
  const APPROVING := Action.Approve(true, {}, {ALLOWED}, 5, None)
  const RESERVING := Action.Reserve("m", 1)
  const MOVING := Action.Refresh(4, 1, PREPARED, 1)

  function Given(minted: seq<Id>, resources: seq<seq<Resource>>): Outside {
    Outside(minted, resources, {}, true, {}, true)
  }

  const APPROVED := map[10 := Receipt(0, APPROVING, Reply(1, 1))]
  const RESERVED := APPROVED[11 := Receipt(0, RESERVING, Reply(2, 1))]
  const FIRST := RESERVED[12 := Receipt(0, Submit(WANTED), Reply(3, 1))]
  const SECOND := FIRST[13 := Receipt(0, Submit(WANTED), Reply(4, 1))]
  const MOVED := SECOND[14 := Receipt(0, MOVING, Reply(4, 1))]

  /** The ledger with the approval, the reservation of machine m, and the given jobs. */
  function Story(next: nat, reservation: Option<Reservation>, jobs: Jobs, receipts: map<Id, Receipt>): State {
    Empty.(next := next, owners := map[0 := SESSION],
           approvals := map[1 := Approval(0, true, {}, {ALLOWED}, 5, None)],
           reservations := if reservation.Some? then map[2 := reservation.value] else map[],
           jobs := jobs, receipts := receipts)
  }

  function Place(state: ReservationState, revision: nat, history: seq<Record>): Option<Reservation> {
    Some(Reservation(0, "m", state, revision, 1, history))
  }

  function Deployment(resource: string, sequence: nat, state: JobState, revision: nat, ready: Option<nat>,
      attempt: Option<Id>, result: Option<Outcome>): Job {
    Job(0, MachineActivate, [], 1, Some(2), PREPARED, [Machine(resource)], state, None, revision, sequence, ready,
      attempt, result)
  }

  function Heard(attempt: Id, outcome: Outcome): Record {
    Record(attempt, MachineActivate, {}, outcome, false)
  }

  const START := [
    RegisterOwner(0, SESSION),
    Request(0, 10, APPROVING, Given([1], [])),
    Request(0, 11, RESERVING, Given([2], [])),
    Request(0, 12, Submit(WANTED), Given([3], [[Machine("m")]])),
    Request(0, 13, Submit(WANTED), Given([4], [[Machine("m")]])),
    Request(0, 14, MOVING, Given([], [[Machine("n")]]))
  ]

  /** One scheduler pass finds both ready and grants both. */
  const PASS := [
    QueueJob(3), Park(3, Ready, None, {}), QueueJob(4), Park(4, Ready, None, {}), Start(3, 20, {}), Start(4, 21, {})
  ]

  const HEARD := [SettleAttempt(3, 20, Unknown, None, {}), SettleAttempt(4, 21, Applied, None, {})]

  lemma Step(norm: Norm, s: State, before: seq<Op>, op: Op, t: State)
    requires Run(norm, Empty, before) == s && Next(norm, s, op) == t
    ensures Run(norm, Empty, before + [op]) == t
  {
    RunAppend(norm, Empty, before, op);
  }

  lemma Registers(norm: Norm)
    ensures Next(norm, Empty, START[0]) == Empty.(owners := map[0 := SESSION])
  {
    hide Perform, Settle, CanGrant, Transition, MovedAttempt, Acquire, TickClaim, ChangeClaim, SameRecords;
  }

  lemma Asks(norm: Norm, s: State, request: Id, action: Action, out: Outside)
    ensures Next(norm, s, Request(0, request, action, out)) == Perform(s, 0, request, action, out).0
  {
    hide Perform;
  }

  /** A first request of the session takes effect and leaves its receipt. */
  lemma Answered(s: State, request: Id, action: Action, out: Outside, t: State, reply: Reply)
    requires s.owners == map[0 := SESSION] && request !in s.receipts && out.capacity
    requires Effect(s, 0, action, out) == Success((t, reply))
    ensures Perform(s, 0, request, action, out).0
      == t.(receipts := t.receipts[request := Receipt(0, action, reply)])
  {
    hide Effect;
  }

  lemma Approves(norm: Norm)
    ensures Next(norm, Empty.(owners := map[0 := SESSION]), START[1]) == Story(1, None, map[], APPROVED)
  {
    var s := Empty.(owners := map[0 := SESSION]);
    var t := s.(approvals := map[1 := Approval(0, true, {}, {ALLOWED}, 5, None)]);
    assert Effect(s, 0, APPROVING, Given([1], [])) == Success((t, Reply(1, 1)));
    hide Next, Perform, Effect;
    Asks(norm, s, 10, APPROVING, Given([1], []));
    Answered(s, 10, APPROVING, Given([1], []), t, Reply(1, 1));
    assert APPROVED == map[][10 := Receipt(0, APPROVING, Reply(1, 1))];
  }

  lemma Reserves(norm: Norm)
    ensures Next(norm, Story(1, None, map[], APPROVED), START[2])
      == Story(2, Place(Requested, 1, []), map[], RESERVED)
  {
    var s := Story(1, None, map[], APPROVED);
    var t := Story(2, Place(Requested, 1, []), map[], APPROVED);
    assert OwnReservations(s, 0, "m") == {};
    assert ALLOWED in s.approvals[1].machines;
    hide OwnReservations, Next, Perform;
    assert ReserveMachine(s, 0, "m", 1, [2]) == Success((t, Reply(2, 1)));
    hide ReserveMachine;
    Asks(norm, s, 11, RESERVING, Given([2], []));
    Answered(s, 11, RESERVING, Given([2], []), t, Reply(2, 1));
  }

  function Waits(resource: string, sequence: nat): Job {
    Deployment(resource, sequence, WaitingApproval, 1, None, None, None)
  }

  lemma MayCreate(s: State, id: Id, next: nat, jobs: Jobs, receipts: map<Id, Receipt>)
    requires s == Story(next, Place(Requested, 1, []), jobs, receipts) && |PendingJobs(s)| < MaxPending
    ensures CanCreate(s, 0, WANTED, [], [Machine("m")])
    ensures CreateJob(s, 0, WANTED, [], [Machine("m")], id)
      == Story(next + 1, Place(Requested, 1, []), jobs[id := Waits("m", next)], receipts)
  {
    hide PendingJobs;
    assert Machine("m") in [Machine("m")];
  }

  lemma OneCreated(s: State, id: Id, next: nat, jobs: Jobs, receipts: map<Id, Receipt>)
    requires s == Story(next, Place(Requested, 1, []), jobs, receipts) && FreshId(s, id)
    requires |PendingJobs(s)| < MaxPending
    ensures CreateJobs(s, 0, [WANTED], map[], [id], [[Machine("m")]])
      == Success((Story(next + 1, Place(Requested, 1, []), jobs[id := Waits("m", next)], receipts), [id]))
  {
    var resources := [[Machine("m")]];
    var s1 := CreateJob(s, 0, WANTED, [], resources[0], id);
    MayCreate(s, id, next, jobs, receipts);
    assert Resolve(WANTED.dependsOn, map[]) == Some([]);
    hide CanCreate, FreshId, PendingJobs, CreateJob, Resolve, Story;
    assert [WANTED][1..] == [] && [id][1..] == [] && resources[1..] == [];
    assert CreateJobs(s1, 0, [], map[]["a" := id], [], []) == Success((s1, []));
    assert [id] + [] == [id];
  }

  lemma Submits(norm: Norm, id: Id, next: nat, jobs: Jobs, receipts: map<Id, Receipt>, request: Id)
    requires request !in receipts
    ensures var s := Story(next, Place(Requested, 1, []), jobs, receipts);
      |PendingJobs(s)| < MaxPending && FreshId(s, id) ==>
        Next(norm, s, Request(0, request, Submit(WANTED), Given([id], [[Machine("m")]])))
        == Story(next + 1, Place(Requested, 1, []), jobs[id := Waits("m", next)],
             receipts[request := Receipt(0, Submit(WANTED), Reply(id, 1))])
  {
    var s := Story(next, Place(Requested, 1, []), jobs, receipts);
    if |PendingJobs(s)| < MaxPending && FreshId(s, id) {
      OneCreated(s, id, next, jobs, receipts);
      hide CreateJobs, PendingJobs, Next, Perform;
      var out := Given([id], [[Machine("m")]]);
      var t := Story(next + 1, Place(Requested, 1, []), jobs[id := Waits("m", next)], receipts);
      assert Effect(s, 0, Submit(WANTED), out) == Success((t, Reply(id, 1)));
      hide Effect;
      Asks(norm, s, request, Submit(WANTED), out);
      Answered(s, request, Submit(WANTED), out, t, Reply(id, 1));
    }
  }

  lemma SubmitsFirst(norm: Norm)
    ensures Next(norm, Story(2, Place(Requested, 1, []), map[], RESERVED), START[3])
      == Story(3, Place(Requested, 1, []), map[3 := Waits("m", 2)], FIRST)
  {
    assert PendingJobs(Story(2, Place(Requested, 1, []), map[], RESERVED)) == {};
    hide Next, PendingJobs;
    Submits(norm, 3, 2, map[], RESERVED, 12);
    assert map[][3 := Waits("m", 2)] == map[3 := Waits("m", 2)];
  }

  lemma SubmitsSecond(norm: Norm)
    ensures Next(norm, Story(3, Place(Requested, 1, []), map[3 := Waits("m", 2)], FIRST), START[4])
      == Story(4, Place(Requested, 1, []), Both(Waits("m", 2), Waits("m", 3)), SECOND)
  {
    assert PendingJobs(Story(3, Place(Requested, 1, []), map[3 := Waits("m", 2)], FIRST)) == {3};
    hide Next, PendingJobs;
    Submits(norm, 4, 3, map[3 := Waits("m", 2)], FIRST, 13);
    assert map[3 := Waits("m", 2)][4 := Waits("m", 3)] == Both(Waits("m", 2), Waits("m", 3));
  }

  lemma Refreshes(norm: Norm)
    ensures Next(norm, Story(4, Place(Requested, 1, []), Both(Waits("m", 2), Waits("m", 3)), SECOND), START[5])
      == Story(4, Place(Requested, 1, []), Both(Waits("m", 2), Waits("n", 3)), MOVED)
  {
    var s := Story(4, Place(Requested, 1, []), Both(Waits("m", 2), Waits("m", 3)), SECOND);
    var t := Story(4, Place(Requested, 1, []), Both(Waits("m", 2), Waits("n", 3)), SECOND);
    hide Next, Perform;
    Renewed(s, t);
    hide Effect;
    Asks(norm, s, 14, MOVING, Given([], [[Machine("n")]]));
    Answered(s, 14, MOVING, Given([], [[Machine("n")]]), t, Reply(4, 1));
  }

  lemma Renewed(s: State, t: State)
    requires s == Story(4, Place(Requested, 1, []), Both(Waits("m", 2), Waits("m", 3)), SECOND)
    requires t == Story(4, Place(Requested, 1, []), Both(Waits("m", 2), Waits("n", 3)), SECOND)
    ensures Effect(s, 0, MOVING, Given([], [[Machine("n")]])) == Success((t, Reply(4, 1)))
  {
    hide CreateJobs, ReserveMachine, FinishReservation, CanFinish, SameRecords, SameOwners;
    assert Both(Waits("m", 2), Waits("m", 3))[4 := Waits("n", 3)] == Both(Waits("m", 2), Waits("n", 3));
  }

  function Both(a: Job, b: Job): Jobs {
    map[3 := a, 4 := b]
  }

  function Ordered(resource: string, sequence: nat, state: JobState, revision: nat, ready: nat): Job {
    Deployment(resource, sequence, state, revision, Some(ready), None, None)
  }

  lemma QueuesNext(norm: Norm, s: State, j: Id)
    requires CanPark(s, j, Ready)
    ensures j in s.jobs && Next(norm, s, QueueJob(j)) == Enqueue(s, j)
    ensures Next(norm, s, Park(j, Ready, None, {})) == Transition(s, j, Ready, None, {})
  {
    hide Enqueue, Transition;
  }

  /** A waiting deployment takes its place and becomes ready; the session has no thread to tell. */
  lemma BecomesReady(norm: Norm, next: nat, jobs: Jobs, j: Id, resource: string, sequence: nat)
    requires j in jobs && jobs[j] == Waits(resource, sequence)
    ensures var a := Ordered(resource, sequence, WaitingApproval, 1, next);
      && Next(norm, Story(next, Place(Requested, 1, []), jobs, MOVED), QueueJob(j))
        == Story(next + 1, Place(Requested, 1, []), jobs[j := a], MOVED)
      && Next(norm, Story(next + 1, Place(Requested, 1, []), jobs[j := a], MOVED), Park(j, Ready, None, {}))
        == Story(next + 1, Place(Requested, 1, []), jobs[j := Ordered(resource, sequence, Ready, 2, next)], MOVED)
  {
    var a := Ordered(resource, sequence, WaitingApproval, 1, next);
    var s, t := Story(next, Place(Requested, 1, []), jobs, MOVED),
      Story(next + 1, Place(Requested, 1, []), jobs[j := a], MOVED);
    hide Next;
    QueuesNext(norm, s, j);
    QueuesNext(norm, t, j);
    assert jobs[j := a][j := Ordered(resource, sequence, Ready, 2, next)]
      == jobs[j := Ordered(resource, sequence, Ready, 2, next)];
  }

  lemma Queues(norm: Norm)
    ensures Next(norm, Story(4, Place(Requested, 1, []), Both(Waits("m", 2), Waits("n", 3)), MOVED), PASS[0])
      == Story(5, Place(Requested, 1, []), Both(Ordered("m", 2, WaitingApproval, 1, 4), Waits("n", 3)), MOVED)
    ensures Next(norm, Story(5, Place(Requested, 1, []), Both(Ordered("m", 2, WaitingApproval, 1, 4), Waits("n", 3)),
        MOVED), PASS[1])
      == Story(5, Place(Requested, 1, []), Both(Ordered("m", 2, Ready, 2, 4), Waits("n", 3)), MOVED)
  {
    var jobs := Both(Waits("m", 2), Waits("n", 3));
    assert jobs[3 := Ordered("m", 2, WaitingApproval, 1, 4)] == Both(Ordered("m", 2, WaitingApproval, 1, 4),
      Waits("n", 3));
    assert jobs[3 := Ordered("m", 2, Ready, 2, 4)] == Both(Ordered("m", 2, Ready, 2, 4), Waits("n", 3));
    assert jobs[3] == Waits("m", 2);
    hide *;
    BecomesReady(norm, 4, jobs, 3, "m", 2);
  }

  lemma QueuesToo(norm: Norm)
    ensures Next(norm, Story(5, Place(Requested, 1, []), Both(Ordered("m", 2, Ready, 2, 4), Waits("n", 3)), MOVED),
        PASS[2])
      == Story(6, Place(Requested, 1, []), Both(Ordered("m", 2, Ready, 2, 4), Ordered("n", 3, WaitingApproval, 1, 5)),
           MOVED)
    ensures Next(norm, Story(6, Place(Requested, 1, []), Both(Ordered("m", 2, Ready, 2, 4),
        Ordered("n", 3, WaitingApproval, 1, 5)), MOVED), PASS[3])
      == Story(6, Place(Requested, 1, []), Both(Ordered("m", 2, Ready, 2, 4), Ordered("n", 3, Ready, 2, 5)), MOVED)
  {
    var first := Ordered("m", 2, Ready, 2, 4);
    var jobs := Both(first, Waits("n", 3));
    assert jobs[4 := Ordered("n", 3, WaitingApproval, 1, 5)] == Both(first, Ordered("n", 3, WaitingApproval, 1, 5));
    assert jobs[4 := Ordered("n", 3, Ready, 2, 5)] == Both(first, Ordered("n", 3, Ready, 2, 5));
    assert jobs[4] == Waits("n", 3);
    hide *;
    BecomesReady(norm, 5, jobs, 4, "n", 3);
  }

  function Runs(resource: string, sequence: nat, state: JobState, revision: nat, attempt: Id,
      result: Option<Outcome>): Job {
    Deployment(resource, sequence, state, revision, Some(sequence + 2), Some(attempt), result)
  }

  lemma MayStart(norm: Norm, s: State, j: Id)
    requires s.owners == map[0 := SESSION] && s.approvals == map[1 := Approval(0, true, {}, {ALLOWED}, 5, None)]
    requires 2 in s.reservations && s.reservations.Keys == {2} && s.reservations[2].machine == "m"
    requires s.reservations[2].state == Requested || s.reservations[2].state == Reserved
    requires j in s.jobs && (j == 3 || j == 4) && s.claims == map[]
    requires s.jobs[j] == Ordered(if j == 3 then "m" else "n", if j == 3 then 2 else 3, Ready, 2,
      if j == 3 then 4 else 5)
    requires Keys(norm, s.jobs[j].resources) !! ActiveKeys(norm, s)
    ensures CanGrant(norm, s, j)
  {
    assert HeldKeys(norm, s) == {} && SameMachine(norm, s, 2) == {};
    assert ALLOWED in s.approvals[1].machines;
  }

  lemma StartsNext(norm: Norm, s: State, j: Id, attempt: Id)
    requires CanGrant(norm, s, j)
    ensures KnownJob(s, j) && Next(norm, s, Start(j, attempt, {})) == Grant(s, j, attempt, {})
  {
    hide Grant;
  }

  lemma Starts(norm: Norm)
    ensures Next(norm, Story(6, Place(Requested, 1, []), Both(Ordered("m", 2, Ready, 2, 4),
        Ordered("n", 3, Ready, 2, 5)), MOVED), PASS[4])
      == Story(6, Place(Reserved, 2, []), Both(Runs("m", 2, Claimed, 3, 20, None), Ordered("n", 3, Ready, 2, 5)), MOVED)
  {
    var s := Story(6, Place(Requested, 1, []), Both(Ordered("m", 2, Ready, 2, 4), Ordered("n", 3, Ready, 2, 5)), MOVED);
    assert ActiveKeys(norm, s) == {};
    MayStart(norm, s, 3);
    hide CanGrant, ActiveKeys, Next;
    StartsNext(norm, s, 3, 20);
    GrantsFirst(s);
  }

  lemma GrantsFirst(s: State)
    requires s == Story(6, Place(Requested, 1, []), Both(Ordered("m", 2, Ready, 2, 4), Ordered("n", 3, Ready, 2, 5)),
      MOVED)
    ensures KnownJob(s, 3) && Grant(s, 3, 20, {})
      == Story(6, Place(Reserved, 2, []), Both(Runs("m", 2, Claimed, 3, 20, None), Ordered("n", 3, Ready, 2, 5)), MOVED)
  {
  }

  lemma StartsToo(norm: Norm)
    requires norm(Machine("m")) != norm(Machine("n"))
    ensures Next(norm, Story(6, Place(Reserved, 2, []), Both(Runs("m", 2, Claimed, 3, 20, None),
        Ordered("n", 3, Ready, 2, 5)), MOVED), PASS[5])
      == Story(6, Place(Reserved, 2, []), Both(Runs("m", 2, Claimed, 3, 20, None), Runs("n", 3, Claimed, 3, 21, None)),
           MOVED)
  {
    var s := Story(6, Place(Reserved, 2, []), Both(Runs("m", 2, Claimed, 3, 20, None), Ordered("n", 3, Ready, 2, 5)),
      MOVED);
    OnlyFirst(norm, s);
    MayStart(norm, s, 4);
    hide CanGrant, ActiveKeys, Keys, Next;
    StartsNext(norm, s, 4, 21);
    GrantsSecond(s);
  }

  lemma OnlyFirst(norm: Norm, s: State)
    requires norm(Machine("m")) != norm(Machine("n"))
    requires s.jobs == Both(Runs("m", 2, Claimed, 3, 20, None), Ordered("n", 3, Ready, 2, 5))
    ensures Keys(norm, s.jobs[4].resources) !! ActiveKeys(norm, s)
  {
    forall k | k in ActiveKeys(norm, s) ensures k == norm(Machine("m")) {
    }
    assert Keys(norm, s.jobs[4].resources) == {norm(Machine("n"))};
  }

  lemma GrantsSecond(s: State)
    requires s == Story(6, Place(Reserved, 2, []), Both(Runs("m", 2, Claimed, 3, 20, None),
      Ordered("n", 3, Ready, 2, 5)), MOVED)
    ensures KnownJob(s, 4) && Grant(s, 4, 21, {})
      == Story(6, Place(Reserved, 2, []), Both(Runs("m", 2, Claimed, 3, 20, None), Runs("n", 3, Claimed, 3, 21, None)),
           MOVED)
  {
  }

  function Before(): State {
    Story(6, Place(BlockedRecovery, 3, [Heard(20, Unknown)]),
      Both(Runs("m", 2, Reconciling, 4, 20, Some(Unknown)), Runs("n", 3, Claimed, 3, 21, None)), MOVED)
  }

  function After(): State {
    Story(6, Place(DeployedReview, 4, [Heard(20, Unknown), Heard(21, Applied)]),
      Both(Runs("m", 2, Reconciling, 4, 20, Some(Unknown)), Runs("n", 3, Succeeded, 4, 21, Some(Applied))), MOVED)
  }

  lemma SettlesNext(norm: Norm, s: State, j: Id, attempt: Id, outcome: Outcome)
    ensures Next(norm, s, SettleAttempt(j, attempt, outcome, None, {}))
      == OrSame(s, Settle(s, j, attempt, outcome, None, {}))
  {
    hide Settle, OrSame;
  }

  lemma IsUnknown(norm: Norm)
    ensures Next(norm, Story(6, Place(Reserved, 2, []), Both(Runs("m", 2, Claimed, 3, 20, None),
        Runs("n", 3, Claimed, 3, 21, None)), MOVED), HEARD[0]) == Before()
  {
    var s := Story(6, Place(Reserved, 2, []), Both(Runs("m", 2, Claimed, 3, 20, None),
      Runs("n", 3, Claimed, 3, 21, None)), MOVED);
    SettlesNext(norm, s, 3, 20, Unknown);
    RecordsUnknown(s);
    hide Next, SettledReservations, Settle, Before, Story;
    SettledStory(s);
  }

  lemma RecordsUnknown(s: State)
    requires s == Story(6, Place(Reserved, 2, []), Both(Runs("m", 2, Claimed, 3, 20, None),
      Runs("n", 3, Claimed, 3, 21, None)), MOVED)
    ensures SettledReservations(s, s.jobs[3], 20, Unknown)
      == Success(map[2 := Reservation(0, "m", BlockedRecovery, 3, 1, [Heard(20, Unknown)])])
  {
    assert FindRecord([], 20) == 0 && [] + [Heard(20, Unknown)] == [Heard(20, Unknown)];
    assert s.reservations[2 := Reservation(0, "m", BlockedRecovery, 3, 1, [Heard(20, Unknown)])]
      == map[2 := Reservation(0, "m", BlockedRecovery, 3, 1, [Heard(20, Unknown)])];
  }

  lemma SettledStory(s: State)
    requires s == Story(6, Place(Reserved, 2, []), Both(Runs("m", 2, Claimed, 3, 20, None),
      Runs("n", 3, Claimed, 3, 21, None)), MOVED)
    requires SettledReservations(s, s.jobs[3], 20, Unknown)
      == Success(map[2 := Reservation(0, "m", BlockedRecovery, 3, 1, [Heard(20, Unknown)])])
    ensures Settle(s, 3, 20, Unknown, None, {}) == Success(Before())
  {
    hide SettledReservations;
    assert s.jobs[3 := Runs("m", 2, Reconciling, 4, 20, Some(Unknown))]
      == Both(Runs("m", 2, Reconciling, 4, 20, Some(Unknown)), Runs("n", 3, Claimed, 3, 21, None));
  }

  lemma IsApplied(norm: Norm)
    ensures Next(norm, Before(), HEARD[1]) == After()
  {
    SettlesNext(norm, Before(), 4, 21, Applied);
    hide Next;
    var h := [Heard(20, Unknown)];
    assert h[1..] == [] && FindRecord([], 21) == 0 && FindRecord(h, 21) == 1;
    assert h + [Heard(21, Applied)] == [Heard(20, Unknown), Heard(21, Applied)];
    assert Before().jobs[4 := Runs("n", 3, Succeeded, 4, 21, Some(Applied))] == After().jobs;
    assert Before().reservations[2 := After().reservations[2]] == After().reservations;
  }

  lemma StartRun(norm: Norm)
    ensures Run(norm, Empty, START)
      == Story(4, Place(Requested, 1, []), Both(Waits("m", 2), Waits("n", 3)), MOVED)
  {
    assert Run(norm, Empty, []) == Empty;
    var a := START;
    assert a == [] + [a[0]] + [a[1]] + [a[2]] + [a[3]] + [a[4]] + [a[5]];
    assert Both(Waits("m", 2), Waits("m", 3)) == map[3 := Waits("m", 2), 4 := Waits("m", 3)];
    hide *;
    Registers(norm);
    Step(norm, Empty, [], a[0], Empty.(owners := map[0 := SESSION]));
    Approves(norm);
    Step(norm, Empty.(owners := map[0 := SESSION]), [] + [a[0]], a[1], Story(1, None, map[], APPROVED));
    Reserves(norm);
    Step(norm, Story(1, None, map[], APPROVED), [] + [a[0]] + [a[1]], a[2],
      Story(2, Place(Requested, 1, []), map[], RESERVED));
    SubmitsFirst(norm);
    Step(norm, Story(2, Place(Requested, 1, []), map[], RESERVED), [] + [a[0]] + [a[1]] + [a[2]], a[3],
      Story(3, Place(Requested, 1, []), map[3 := Waits("m", 2)], FIRST));
    SubmitsSecond(norm);
    Step(norm, Story(3, Place(Requested, 1, []), map[3 := Waits("m", 2)], FIRST),
      [] + [a[0]] + [a[1]] + [a[2]] + [a[3]], a[4],
      Story(4, Place(Requested, 1, []), Both(Waits("m", 2), Waits("m", 3)), SECOND));
    Refreshes(norm);
    Step(norm, Story(4, Place(Requested, 1, []), Both(Waits("m", 2), Waits("m", 3)), SECOND),
      [] + [a[0]] + [a[1]] + [a[2]] + [a[3]] + [a[4]], a[5],
      Story(4, Place(Requested, 1, []), Both(Waits("m", 2), Waits("n", 3)), MOVED));
  }

  /** The same pass grants both, since they name different machines. */
  lemma PassRun(norm: Norm)
    requires norm(Machine("m")) != norm(Machine("n"))
    ensures Run(norm, Empty, START + PASS)
      == Story(6, Place(Reserved, 2, []), Both(Runs("m", 2, Claimed, 3, 20, None), Runs("n", 3, Claimed, 3, 21, None)),
           MOVED)
  {
    var z, a := START, PASS;
    assert z + a == z + [a[0]] + [a[1]] + [a[2]] + [a[3]] + [a[4]] + [a[5]];
    hide *;
    StartRun(norm);
    Queues(norm);
    Step(norm, Story(4, Place(Requested, 1, []), Both(Waits("m", 2), Waits("n", 3)), MOVED), z, a[0],
      Story(5, Place(Requested, 1, []), Both(Ordered("m", 2, WaitingApproval, 1, 4), Waits("n", 3)), MOVED));
    Step(norm, Story(5, Place(Requested, 1, []), Both(Ordered("m", 2, WaitingApproval, 1, 4), Waits("n", 3)), MOVED),
      z + [a[0]], a[1],
      Story(5, Place(Requested, 1, []), Both(Ordered("m", 2, Ready, 2, 4), Waits("n", 3)), MOVED));
    QueuesToo(norm);
    Step(norm, Story(5, Place(Requested, 1, []), Both(Ordered("m", 2, Ready, 2, 4), Waits("n", 3)), MOVED),
      z + [a[0]] + [a[1]], a[2],
      Story(6, Place(Requested, 1, []), Both(Ordered("m", 2, Ready, 2, 4), Ordered("n", 3, WaitingApproval, 1, 5)),
        MOVED));
    Step(norm, Story(6, Place(Requested, 1, []), Both(Ordered("m", 2, Ready, 2, 4),
        Ordered("n", 3, WaitingApproval, 1, 5)), MOVED), z + [a[0]] + [a[1]] + [a[2]], a[3],
      Story(6, Place(Requested, 1, []), Both(Ordered("m", 2, Ready, 2, 4), Ordered("n", 3, Ready, 2, 5)), MOVED));
    Starts(norm);
    Step(norm, Story(6, Place(Requested, 1, []), Both(Ordered("m", 2, Ready, 2, 4), Ordered("n", 3, Ready, 2, 5)),
        MOVED), z + [a[0]] + [a[1]] + [a[2]] + [a[3]], a[4],
      Story(6, Place(Reserved, 2, []), Both(Runs("m", 2, Claimed, 3, 20, None), Ordered("n", 3, Ready, 2, 5)), MOVED));
    StartsToo(norm);
    Step(norm, Story(6, Place(Reserved, 2, []), Both(Runs("m", 2, Claimed, 3, 20, None), Ordered("n", 3, Ready, 2, 5)),
        MOVED), z + [a[0]] + [a[1]] + [a[2]] + [a[3]] + [a[4]], a[5],
      Story(6, Place(Reserved, 2, []), Both(Runs("m", 2, Claimed, 3, 20, None), Runs("n", 3, Claimed, 3, 21, None)),
        MOVED));
  }

  /** The first attempt's outcome is unknown and its machine blocked; the second is applied, and the block is gone. */
  lemma AppliedHidesUnknown(norm: Norm)
    requires norm(Machine("m")) != norm(Machine("n"))
    ensures UnknownBlocks(Run(norm, Empty, START + PASS + [HEARD[0]]).reservations)
    ensures Hides(Run(norm, Empty, START + PASS + [HEARD[0]]), HEARD[1])
    ensures var s := Run(norm, Empty, START + PASS + HEARD);
      2 in s.reservations && Uncertain(s.reservations[2].history) && s.reservations[2].state == DeployedReview
  {
    var z := START + PASS;
    assert z + HEARD == z + [HEARD[0]] + [HEARD[1]];
    Ends(norm);
    hide *;
    PassRun(norm);
    IsUnknown(norm);
    Step(norm, Story(6, Place(Reserved, 2, []), Both(Runs("m", 2, Claimed, 3, 20, None),
      Runs("n", 3, Claimed, 3, 21, None)), MOVED), z, HEARD[0], Before());
    IsApplied(norm);
    Step(norm, Before(), z + [HEARD[0]], HEARD[1], After());
  }

  lemma Ends(norm: Norm)
    ensures UnknownBlocks(Before().reservations) && Hides(Before(), HEARD[1])
    ensures var s := After();
      2 in s.reservations && Uncertain(s.reservations[2].history) && s.reservations[2].state == DeployedReview
  {
    var h := Before().reservations[2].history;
    assert h[0].outcome == Unknown && After().reservations[2].history[0].outcome == Unknown;
  }
}
