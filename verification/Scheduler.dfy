/**
 One scheduler pass (Engine#claim_ready): every candidate is examined in sequence
 order, then the ready ones are granted in ready order while slots last.
 */
module Scheduler {
  import opened Wrappers
  import opened MachinePolicy
  import opened Ledger
  import opened Admission
  import opened LedgerInvariant
  import opened LedgerSafety
  import opened LedgerRuns

  /** The jobs a pass looks at: neither finished, nor admitted, nor waiting for a new snapshot. */
  predicate Candidate(job: Job) {
    !Terminal(job.state) && !Active(job.state) && !job.state.NeedsRefresh?
  }

  function Candidates(s: State): set<Id> {
    set j | j in s.jobs && Candidate(s.jobs[j])
  }

  /** A job that could use a requested reservation; `stopped` are the jobs of a paused background integration. */
  predicate Contender(s: State, stopped: set<Id>, j: Id)
    requires j in s.jobs
  {
    j !in stopped && Approved(s, s.jobs[j]) && DependenciesDone(s, s.jobs[j])
  }

  /**
   Another reservation of the machine is occupied, an earlier request of it has a contender, or this one needs recovery.
   */
  predicate MachineOwned(norm: Norm, s: State, stopped: set<Id>, r: Id)
    requires r in s.reservations
  {
    || s.reservations[r].state.BlockedRecovery?
    || (exists q :: q in SameMachine(norm, s, r) && Occupied(s.reservations[q].state))
    || EarlierRequest(norm, s, stopped, r)
  }

  predicate EarlierRequest(norm: Norm, s: State, stopped: set<Id>, r: Id)
    requires r in s.reservations
  {
    exists q :: q in SameMachine(norm, s, r) && s.reservations[q].state.Requested? &&
                s.reservations[q].sequence < s.reservations[r].sequence &&
                exists c :: c in Candidates(s) && s.jobs[c].reservation == Some(q) && Contender(s, stopped, c)
  }

  /** Where a pass that starts from `s` leaves a candidate before anything is granted. */
  function Verdict(norm: Norm, s: State, stopped: set<Id>, j: Id): JobState
    requires j in s.jobs
  {
    var job := s.jobs[j];
    if j in stopped then WaitingDependency
    else if job.owner !in s.owners || s.owners[job.owner].fence.Some? || !Approved(s, job) then WaitingApproval
    else if !DependenciesDone(s, job) then WaitingDependency
    else if job.reservation.Some? && job.reservation.value in s.reservations
      && MachineOwned(norm, s, stopped, job.reservation.value) then WaitingResource
    else if Keys(norm, job.resources) * (HeldKeys(norm, s) + ActiveKeys(norm, s)) != {} then WaitingResource
    else Ready
  }

  /** Whether the pass gives the candidate its place in the ready order. */
  predicate Queues(norm: Norm, s: State, stopped: set<Id>, j: Id)
    requires j in s.jobs
  {
    var job := s.jobs[j];
    && j !in stopped && job.owner in s.owners && s.owners[job.owner].fence.None? && Approved(s, job)
    && DependenciesDone(s, job)
    && !(job.reservation.Some? && job.reservation.value in s.reservations
         && MachineOwned(norm, s, stopped, job.reservation.value))
    && Keys(norm, job.resources) * HeldKeys(norm, s) == {}
  }

  /** The reason the pass gives for where it leaves the candidate. */
  function Why(norm: Norm, s: State, stopped: set<Id>, j: Id): Option<string>
    requires j in s.jobs
  {
    var job := s.jobs[j];
    if j in stopped then Some("integration_paused")
    else if job.owner !in s.owners || s.owners[job.owner].fence.Some? || !Approved(s, job) then
      Some("approval_required")
    else if !DependenciesDone(s, job) then Some("dependency_pending")
    else if job.reservation.Some? && job.reservation.value in s.reservations
      && MachineOwned(norm, s, stopped, job.reservation.value) then Some("machine_owned")
    else if Keys(norm, job.resources) * HeldKeys(norm, s) != {} then Some("resource_claim_held")
    else if Keys(norm, job.resources) * ActiveKeys(norm, s) != {} then Some("execution_busy")
    else None
  }

  /** A job without what examining it may change. */
  function Shape(job: Job): Job {
    job.(state := Ready, reason := None, revision := 0, readySequence := None)
  }

  ghost predicate ParkedJob(a: Job, b: Job) {
    if Candidate(a) then Shape(b) == Shape(a) && Candidate(b) else b == a
  }

  ghost predicate JobsParked(a: Jobs, b: Jobs) {
    a.Keys == b.Keys && forall j :: j in a ==> ParkedJob(a[j], b[j])
  }

  /** `t` differs from `s` only in where its candidates wait. */
  ghost predicate OnlyParked(s: State, t: State) {
    && SameOwners(s, t) && SameRecords(s, t) && t.reservations == s.reservations && t.claims == s.claims
      && t.suspended == s.suspended
    && JobsParked(s.jobs, t.jobs)
  }

  lemma ParkedSame(norm: Norm, s: State, t: State, stopped: set<Id>, j: Id)
    requires OnlyParked(s, t) && j in s.jobs
    ensures Approved(t, t.jobs[j]) == Approved(s, s.jobs[j])
    ensures DependenciesDone(t, t.jobs[j]) == DependenciesDone(s, s.jobs[j])
    ensures Contender(t, stopped, j) == Contender(s, stopped, j)
    ensures t.jobs[j].owner == s.jobs[j].owner && t.jobs[j].reservation == s.jobs[j].reservation
    ensures t.jobs[j].resources == s.jobs[j].resources
  {
    assert forall d :: d in s.jobs ==> ParkedJob(s.jobs[d], t.jobs[d]);
    forall d | d in s.jobs ensures t.jobs[d].state.Succeeded? == s.jobs[d].state.Succeeded? {
    }
  }

  lemma ParkedKeys(norm: Norm, s: State, t: State)
    requires OnlyParked(s, t)
    ensures ActiveKeys(norm, t) == ActiveKeys(norm, s) && HeldKeys(norm, t) == HeldKeys(norm, s)
    ensures Candidates(t) == Candidates(s)
  {
    forall j | j in s.jobs
      ensures t.jobs[j].resources == s.jobs[j].resources && Active(t.jobs[j].state) == Active(s.jobs[j].state)
    {
      ParkedSame(norm, s, t, {}, j);
    }
  }

  /** Examining does not depend on the order: the verdict is the same on every intermediate ledger. */
  lemma VerdictStable(norm: Norm, s: State, t: State, stopped: set<Id>, j: Id)
    requires OnlyParked(s, t) && j in s.jobs
    ensures Verdict(norm, t, stopped, j) == Verdict(norm, s, stopped, j)
    ensures Why(norm, t, stopped, j) == Why(norm, s, stopped, j)
    ensures Queues(norm, t, stopped, j) == Queues(norm, s, stopped, j)
  {
    ParkedKeys(norm, s, t);
    ParkedSame(norm, s, t, stopped, j);
    var job := s.jobs[j];
    if job.reservation.Some? && job.reservation.value in s.reservations {
      OwnedStable(norm, s, t, stopped, job.reservation.value);
    }
    OwnersParked(s, t);
    hide Approved, DependenciesDone, MachineOwned, OnlyParked, Keys, HeldKeys, ActiveKeys;
  }

  lemma OwnersParked(s: State, t: State)
    requires OnlyParked(s, t)
    ensures t.owners == s.owners && t.reservations == s.reservations && t.jobs.Keys == s.jobs.Keys
  {
  }

  lemma OwnedStable(norm: Norm, s: State, t: State, stopped: set<Id>, r: Id)
    requires OnlyParked(s, t) && r in s.reservations
    ensures MachineOwned(norm, t, stopped, r) == MachineOwned(norm, s, stopped, r)
  {
    EarlierStable(norm, s, t, stopped, r);
    hide EarlierRequest;
  }

  lemma EarlierStable(norm: Norm, s: State, t: State, stopped: set<Id>, r: Id)
    requires OnlyParked(s, t) && r in s.reservations
    ensures EarlierRequest(norm, t, stopped, r) == EarlierRequest(norm, s, stopped, r)
  {
    ParkedKeys(norm, s, t);
    forall c | c in s.jobs
      ensures Contender(t, stopped, c) == Contender(s, stopped, c) && t.jobs[c].reservation == s.jobs[c].reservation
    {
      ParkedSame(norm, s, t, stopped, c);
    }
    assert SameMachine(norm, t, r) == SameMachine(norm, s, r);
    hide OnlyParked, Contender, Candidates, SameMachine;
  }

  // ---------------------------------------------------------------- what the verdict means

  lemma CoveredIs(s: State, job: Job)
    ensures Approved(s, job) <==> Covered(s, job)
  {
  }

  lemma BehindIs(s: State, job: Job)
    ensures DependenciesDone(s, job) <==> Behind(s, job)
  {
  }

  lemma ContendsIs(s: State, stopped: set<Id>, c: Id)
    requires c in s.jobs
    ensures Contends(s, stopped, c) <==> c in Candidates(s) && Contender(s, stopped, c)
  {
    CoveredIs(s, s.jobs[c]);
    BehindIs(s, s.jobs[c]);
    hide Approved, Covered, DependenciesDone, Behind;
  }

  lemma MachineIs(norm: Norm, s: State, stopped: set<Id>, r: Id)
    requires r in s.reservations
    ensures MachineOwned(norm, s, stopped, r) <==> !MachineFree(norm, s, stopped, r)
  {
    forall c | c in s.jobs ensures Contends(s, stopped, c) <==> c in Candidates(s) && Contender(s, stopped, c) {
      ContendsIs(s, stopped, c);
    }
    assert forall c :: c in Candidates(s) ==> c in s.jobs;
    hide Contends, Contender, Candidates;
    forall q | q in s.reservations
      ensures q in SameMachine(norm, s, r) <==> q != r && OneMachine(norm, s.reservations[q], s.reservations[r])
    {
    }
    assert forall q :: q in SameMachine(norm, s, r) ==> q in s.reservations;
    hide SameMachine, OneMachine;
  }

  lemma MeetIs(norm: Norm, a: seq<Resource>, b: seq<Resource>)
    ensures Meet(norm, a, b) <==> Keys(norm, a) * Keys(norm, b) != {}
  {
    if Meet(norm, a, b) {
      var x, y :| x in a && y in b && norm(x) == norm(y);
      assert norm(x) in Keys(norm, a) * Keys(norm, b);
    }
  }

  lemma UnclaimedIs(norm: Norm, s: State, resources: seq<Resource>)
    ensures Keys(norm, resources) * HeldKeys(norm, s) == {} <==> Unclaimed(norm, s, resources)
  {
    if !Unclaimed(norm, s, resources) {
      var c, x, y :| c in s.claims && s.claims[c].state == Held && x in s.claims[c].resources && y in resources &&
                     norm(x) == norm(y);
      assert norm(x) in Keys(norm, resources) * HeldKeys(norm, s);
    }
  }

  lemma UntakenIs(norm: Norm, s: State, resources: seq<Resource>)
    ensures Keys(norm, resources) * ActiveKeys(norm, s) == {} <==> Untaken(norm, s, resources)
  {
    if !Untaken(norm, s, resources) {
      var j, x, y :| j in s.jobs && Active(s.jobs[j].state) && x in s.jobs[j].resources && y in resources &&
                     norm(x) == norm(y);
      assert norm(x) in Keys(norm, resources) * ActiveKeys(norm, s);
    }
  }

  lemma DisjointBoth(mine: set<Resource>, held: set<Resource>, active: set<Resource>)
    ensures mine * (held + active) == {} <==> mine * held == {} && mine * active == {}
  {
    assert mine * (held + active) == mine * held + mine * active;
  }

  /** Verdict, reason and place say of a candidate what the records say of it. */
  lemma VerdictMeans(norm: Norm, s: State, stopped: set<Id>, j: Id)
    requires j in s.jobs
    ensures Belongs(norm, s, stopped, j, Verdict(norm, s, stopped, j), Why(norm, s, stopped, j))
    ensures Queues(norm, s, stopped, j) <==> MayQueue(norm, s, stopped, j)
    ensures Verdict(norm, s, stopped, j) == Ready <==> MayRun(norm, s, stopped, j)
  {
    var job := s.jobs[j];
    CoveredIs(s, job);
    BehindIs(s, job);
    if job.reservation.Some? && job.reservation.value in s.reservations {
      MachineIs(norm, s, stopped, job.reservation.value);
    }
    UnclaimedIs(norm, s, job.resources);
    UntakenIs(norm, s, job.resources);
    DisjointBoth(Keys(norm, job.resources), HeldKeys(norm, s), ActiveKeys(norm, s));
    hide Approved, Covered, DependenciesDone, Behind, MachineOwned, MachineFree, Keys, HeldKeys, ActiveKeys, Unclaimed,
      Untaken;
  }

  // ---------------------------------------------------------------- orders

  function Place(s: State, ready: bool, j: Id): nat
    requires j in s.jobs
  {
    if !ready then s.jobs[j].sequence else if s.jobs[j].readySequence.Some? then s.jobs[j].readySequence.value else 0
  }

  predicate Before(s: State, ready: bool, i: Id, j: Id)
    requires i in s.jobs && j in s.jobs
  {
    Place(s, ready, i) < Place(s, ready, j) || (Place(s, ready, i) == Place(s, ready, j) && i < j)
  }

  /** `order` lists `ids` in order of sequence or of ready sequence, ties by identity. */
  ghost predicate Listed(s: State, ready: bool, ids: set<Id>, order: seq<Id>)
    requires ids <= s.jobs.Keys
  {
    && (forall j :: j in order <==> j in ids)
    && forall i, k :: 0 <= i < k < |order| ==> order[i] in ids && order[k] in ids && Before(s, ready, order[i],
      order[k])
  }

  method Order(s: State, ready: bool, ids: set<Id>) returns (order: seq<Id>)
    requires ids <= s.jobs.Keys
    ensures Listed(s, ready, ids, order)
  {
    order := [];
    var rest := ids;
    while rest != {}
      invariant rest <= ids && Listed(s, ready, ids - rest, order)
      invariant forall i, j :: 0 <= i < |order| && j in rest ==> order[i] in ids && Before(s, ready, order[i], j)
      decreases |rest|
    {
      var first := First(s, ready, rest);
      order, rest := order + [first], rest - {first};
    }
  }

  method First(s: State, ready: bool, ids: set<Id>) returns (first: Id)
    requires ids <= s.jobs.Keys && ids != {}
    ensures first in ids && forall j :: j in ids && j != first ==> Before(s, ready, first, j)
  {
    first :| first in ids;
    var rest := ids - {first};
    while rest != {}
      invariant rest <= ids && first in ids && first !in rest
      invariant forall j :: j in ids - rest && j != first ==> Before(s, ready, first, j)
      decreases |rest|
    {
      var j :| j in rest;
      ghost var seen := ids - rest;
      assert Before(s, ready, j, first) || Before(s, ready, first, j);
      if Before(s, ready, j, first) {
        forall x | x in seen && x != first ensures Before(s, ready, j, x) {
          assert Before(s, ready, first, x);
        }
        first := j;
      }
      rest := rest - {j};
    }
  }

  // ---------------------------------------------------------------- the first loop

  lemma JobsParkedStep(a: Jobs, b: Jobs, j: Id, v: Job)
    requires JobsParked(a, b) && j in a && ParkedJob(a[j], v)
    ensures JobsParked(a, b[j := v])
  {
    hide ParkedJob;
  }

  lemma StillParked(a: Job, b: Job, state: JobState, reason: Option<string>, place: nat)
    requires ParkedJob(a, b) && Candidate(a)
    ensures Candidate(b) && ParkedJob(a, b.(readySequence := Some(place)))
    ensures !Terminal(state) && !Active(state) && !state.NeedsRefresh? ==> ParkedJob(a, Moved(b, state, reason))
  {
  }

  lemma StepParked(s: State, t: State, j: Id, state: JobState, reason: Option<string>, routed: set<Id>)
    requires OnlyParked(s, t) && j in s.jobs && Candidate(s.jobs[j]) && s.jobs[j].owner in s.owners
    requires !Terminal(state) && !Active(state) && !state.NeedsRefresh?
    ensures CanPark(t, j, state)
    ensures var u := Transition(t, j, state, reason, routed);
            && OnlyParked(s, u) && u.jobs == t.jobs[j := Moved(t.jobs[j], state, reason)]
  {
    assert ParkedJob(s.jobs[j], t.jobs[j]);
    StillParked(s.jobs[j], t.jobs[j], state, reason, 0);
    JobsParkedStep(s.jobs, t.jobs, j, Moved(t.jobs[j], state, reason));
    hide JobsParked, ParkedJob, Announce, Moved;
  }

  lemma StepQueued(s: State, t: State, j: Id)
    requires OnlyParked(s, t) && j in s.jobs && Candidate(s.jobs[j])
    ensures j in t.jobs && Candidate(t.jobs[j])
    ensures var u := Enqueue(t, j);
            && OnlyParked(s, u) && j in u.jobs && u.jobs == t.jobs[j := u.jobs[j]] && u.jobs[j].readySequence.Some?
  {
    hide Candidate, Shape;
    assert ParkedJob(s.jobs[j], t.jobs[j]);
    StillParked(s.jobs[j], t.jobs[j], Ready, None, t.next);
    hide ParkedJob;
    if t.jobs[j].readySequence.None? {
      JobsParkedStep(s.jobs, t.jobs, j, t.jobs[j].(readySequence := Some(t.next)));
      hide JobsParked;
    } else {
      hide OnlyParked;
      assert t.jobs == t.jobs[j := t.jobs[j]];
    }
  }

  /** A candidate after it was examined: where it waits, why, and its place in the ready order, which it takes once. */
  ghost predicate Judgement(norm: Norm, s: State, stopped: set<Id>, j: Id, b: Job)
    requires j in s.jobs
  {
    var a := s.jobs[j];
    && b == a.(state := b.state, reason := b.reason, readySequence := b.readySequence, revision := b.revision)
    && b.state == Verdict(norm, s, stopped, j) && b.reason == Why(norm, s, stopped, j)
    && b.revision == a.revision + (if b.state == a.state && b.reason == a.reason then 0 else 1)
    && (b.readySequence.Some? <==> a.readySequence.Some? || Queues(norm, s, stopped, j))
    && (a.readySequence.Some? ==> b.readySequence == a.readySequence)
  }

  /** The pass gave the job its place. */
  predicate TookPlace(s: State, t: State, j: Id) {
    j in s.jobs && j in t.jobs && s.jobs[j].readySequence.None? && t.jobs[j].readySequence.Some?
  }

  /** New places come after all old ones, in the order of examination. */
  ghost predicate PlacesGiven(s: State, t: State, order: seq<Id>, n: nat)
    requires n <= |order|
  {
    && s.next <= t.next
    && (forall k :: 0 <= k < n && TookPlace(s, t, order[k]) ==>
          s.next <= t.jobs[order[k]].readySequence.value < t.next)
    && forall i, k :: 0 <= i < k < n && TookPlace(s, t, order[i]) && TookPlace(s, t, order[k]) ==>
         t.jobs[order[i]].readySequence.value < t.jobs[order[k]].readySequence.value
  }

  /** Where the first `n` candidates of the order stand after they were examined. */
  ghost predicate Judged(norm: Norm, s: State, t: State, stopped: set<Id>, order: seq<Id>, n: nat)
    requires n <= |order|
  {
    && (forall k :: 0 <= k < n ==>
          && order[k] in s.jobs && order[k] in t.jobs
          && Judgement(norm, s, stopped, order[k], t.jobs[order[k]]))
    && (forall k :: n <= k < |order| ==>
          order[k] in s.jobs && order[k] in t.jobs && t.jobs[order[k]] == s.jobs[order[k]])
  }

  lemma OrderDistinct(s: State, order: seq<Id>)
    requires Listed(s, false, Candidates(s), order)
    ensures forall i, k :: 0 <= i < k < |order| ==> order[i] != order[k]
  {
    forall i, k | 0 <= i < k < |order| ensures order[i] != order[k] {
      assert Before(s, false, order[i], order[k]);
    }
  }

  lemma JudgedMore(norm: Norm, s: State, t: State, u: State, stopped: set<Id>, order: seq<Id>, n: nat)
    requires n < |order| && Judged(norm, s, t, stopped, order, n) && Listed(s, false, Candidates(s), order)
    requires order[n] in u.jobs && u.jobs == t.jobs[order[n] := u.jobs[order[n]]]
    requires order[n] in s.jobs && Judgement(norm, s, stopped, order[n], u.jobs[order[n]])
    ensures Judged(norm, s, u, stopped, order, n + 1)
  {
    OrderDistinct(s, order);
    hide Judgement, Listed;
  }

  lemma PlacesMore(s: State, t: State, u: State, order: seq<Id>, n: nat)
    requires n < |order| && PlacesGiven(s, t, order, n) && Listed(s, false, Candidates(s), order)
    requires order[n] in t.jobs && order[n] in u.jobs && u.jobs == t.jobs[order[n] := u.jobs[order[n]]]
    requires t.next <= u.next
    requires TookPlace(s, u, order[n]) ==> u.jobs[order[n]].readySequence == Some(t.next) && u.next == t.next + 1
    ensures PlacesGiven(s, u, order, n + 1)
  {
    OrderDistinct(s, order);
    hide Listed;
  }

  /** The branches of the first loop: where a candidate goes, why, and whether it takes its place in the ready order. */
  method Judge(norm: Norm, t: State, stopped: set<Id>, j: Id)
    returns (state: JobState, reason: Option<string>, queued: bool)
    requires j in t.jobs && t.jobs[j].owner in t.owners
    ensures state == Verdict(norm, t, stopped, j) && reason == Why(norm, t, stopped, j)
    ensures queued <==> Queues(norm, t, stopped, j)
  {
    hide Approved, DependenciesDone, MachineOwned;
    var job := t.jobs[j];
    state, reason, queued := Ready, None, false;
    if j in stopped {
      state, reason := WaitingDependency, Some("integration_paused");
    } else if t.owners[job.owner].fence.Some? || !Approved(t, job) {
      state, reason := WaitingApproval, Some("approval_required");
    } else if !DependenciesDone(t, job) {
      state, reason := WaitingDependency, Some("dependency_pending");
    } else if job.reservation.Some? && job.reservation.value in t.reservations
      && MachineOwned(norm, t, stopped, job.reservation.value) {
      state, reason := WaitingResource, Some("machine_owned");
    } else {
      var held, active := Keys(norm, job.resources) * HeldKeys(norm, t),
        Keys(norm, job.resources) * ActiveKeys(norm, t);
      assert Keys(norm, job.resources) * (HeldKeys(norm, t) + ActiveKeys(norm, t)) == held + active;
      if held != {} {
        state, reason := WaitingResource, Some("resource_claim_held");
      } else {
        queued := true;
        if active != {} {
          state, reason := WaitingResource, Some("execution_busy");
        }
      }
    }
  }

  /** Examine one candidate; `t` is the ledger as the pass has left it so far. */
  method ExamineOne(norm: Norm, ghost s: State, t: State, stopped: set<Id>, j: Id, routed: set<Id>)
    returns (u: State, ghost ops: seq<Op>)
    requires Inv(norm, s) && OnlyParked(s, t) && j in s.jobs && Candidate(s.jobs[j]) && j in t.jobs
    requires t.jobs[j] == s.jobs[j]
    ensures OnlyParked(s, u) && j in u.jobs && u.jobs == t.jobs[j := u.jobs[j]]
    ensures Judgement(norm, s, stopped, j, u.jobs[j]) && t.next <= u.next
    ensures TookPlace(s, u, j) ==> u.jobs[j].readySequence == Some(t.next) && u.next == t.next + 1
    ensures u == Run(norm, t, ops)
  {
    hide Inv, OnlyParked, Verdict;
    PendingUnfenced(norm, s, j);
    VerdictStable(norm, s, t, stopped, j);
    SameParts(s, t);
    assert t.jobs == t.jobs[j := t.jobs[j]] && Run(norm, t, []) == t;
    VerdictWaits(norm, t, stopped, j);
    hide *;
    var state, reason, queued := Judge(norm, t, stopped, j);
    u, ops := t, [];
    if queued {
      u, ops := QueueOne(norm, s, t, j);
    }
    ghost var queuedState := u;
    u, ops := ParkOne(norm, s, t, u, j, state, reason, routed, ops);
    Overwritten(t.jobs, queuedState.jobs, u.jobs, j);
    JudgementMade(norm, s, t, queuedState, u, stopped, j, state, reason, queued);
  }

  lemma JudgementMade(norm: Norm, s: State, t: State, q: State, u: State, stopped: set<Id>, j: Id, state: JobState,
      reason: Option<string>, queued: bool)
    requires j in s.jobs && j in t.jobs && j in q.jobs && j in u.jobs && t.jobs[j] == s.jobs[j]
    requires state == Verdict(norm, s, stopped, j) && reason == Why(norm, s, stopped, j)
    requires queued <==> Queues(norm, s, stopped, j)
    requires queued ==>
      && q.jobs[j] == t.jobs[j].(readySequence := q.jobs[j].readySequence)
      && (if t.jobs[j].readySequence.Some? then q.jobs[j] == t.jobs[j] && q.next == t.next
          else q.jobs[j].readySequence == Some(t.next) && q.next == t.next + 1)
    requires !queued ==> q == t
    requires u.jobs[j] == Moved(q.jobs[j], state, reason) && u.next == q.next
    ensures Judgement(norm, s, stopped, j, u.jobs[j]) && t.next <= u.next
    ensures TookPlace(s, u, j) ==> u.jobs[j].readySequence == Some(t.next) && u.next == t.next + 1
  {
    hide Verdict, Why, Queues;
  }

  lemma VerdictWaits(norm: Norm, s: State, stopped: set<Id>, j: Id)
    requires j in s.jobs
    ensures var v := Verdict(norm, s, stopped, j); !Terminal(v) && !Active(v) && !v.NeedsRefresh?
  {
  }

  lemma Overwritten(a: Jobs, b: Jobs, c: Jobs, j: Id)
    requires j in a && j in b && j in c && b == a[j := b[j]] && c == b[j := c[j]]
    ensures c == a[j := c[j]]
  {
  }

  method QueueOne(norm: Norm, ghost s: State, t: State, j: Id) returns (u: State, ghost ops: seq<Op>)
    requires OnlyParked(s, t) && j in s.jobs && Candidate(s.jobs[j])
    ensures OnlyParked(s, u) && j in t.jobs && j in u.jobs && u.jobs == t.jobs[j := u.jobs[j]]
    ensures u.jobs[j] == t.jobs[j].(readySequence := u.jobs[j].readySequence)
    ensures if t.jobs[j].readySequence.Some? then u.jobs[j] == t.jobs[j] && u.next == t.next
      else u.jobs[j].readySequence == Some(t.next) && u.next == t.next + 1
    ensures u == Run(norm, t, ops)
  {
    StepQueued(s, t, j);
    hide OnlyParked, SameOwners, SameRecords;
    u, ops := Enqueue(t, j), [QueueJob(j)];
    RunAppend(norm, t, [], QueueJob(j));
    assert [] + [QueueJob(j)] == ops;
  }

  method ParkOne(norm: Norm, ghost s: State, ghost t: State, u: State, j: Id, state: JobState, reason: Option<string>,
      routed: set<Id>, ghost before: seq<Op>)
    returns (v: State, ghost ops: seq<Op>)
    requires OnlyParked(s, u) && j in s.jobs && Candidate(s.jobs[j]) && s.jobs[j].owner in s.owners
    requires u == Run(norm, t, before)
    requires !Terminal(state) && !Active(state) && !state.NeedsRefresh?
    ensures OnlyParked(s, v) && j in u.jobs && j in v.jobs && v.jobs == u.jobs[j := v.jobs[j]]
    ensures v.jobs[j] == Moved(u.jobs[j], state, reason) && v.next == u.next
    ensures v == Run(norm, t, ops)
  {
    StepParked(s, u, j, state, reason, routed);
    RunAppend(norm, t, before, Park(j, state, reason, routed));
    hide Run, OnlyParked, CanPark;
    v, ops := Transition(u, j, state, reason, routed), before + [Park(j, state, reason, routed)];
  }

  lemma SameParts(s: State, t: State)
    requires OnlyParked(s, t)
    ensures t.owners == s.owners && t.jobs.Keys == s.jobs.Keys
  {
  }

  lemma JudgedNone(norm: Norm, s: State, stopped: set<Id>, order: seq<Id>)
    requires Listed(s, false, Candidates(s), order)
    ensures OnlyParked(s, s) && Judged(norm, s, s, stopped, order, 0) && PlacesGiven(s, s, order, 0)
  {
    hide Judgement;
    forall k | 0 <= k < |order| ensures order[k] in s.jobs {
      assert order[k] in order;
    }
  }

  /** The next candidate has not been touched yet. */
  lemma NextCandidate(norm: Norm, s: State, t: State, stopped: set<Id>, order: seq<Id>, n: nat)
    requires n < |order| && Judged(norm, s, t, stopped, order, n) && Listed(s, false, Candidates(s), order)
    ensures order[n] in s.jobs && Candidate(s.jobs[order[n]]) && order[n] in t.jobs
    ensures t.jobs[order[n]] == s.jobs[order[n]]
  {
    hide Judgement;
    assert order[n] in order;
  }

  /** What a whole examination says of a waiting job, on the records of the ledger before it. */
  ghost predicate Examined(norm: Norm, s: State, t: State, stopped: set<Id>, j: Id)
    requires j in s.jobs && j in t.jobs
  {
    var a, b := s.jobs[j], t.jobs[j];
    && Belongs(norm, s, stopped, j, b.state, b.reason) && (b.state == Ready <==> MayRun(norm, s, stopped, j))
    && b == a.(state := b.state, reason := b.reason, readySequence := b.readySequence, revision := b.revision)
    && b.revision == a.revision + (if b.state == a.state && b.reason == a.reason then 0 else 1)
    && (b.readySequence.Some? <==> a.readySequence.Some? || MayQueue(norm, s, stopped, j))
    && (a.readySequence.Some? ==> b.readySequence == a.readySequence)
  }

  /** Jobs that take their place in one pass do so behind all others, in the order they were submitted. */
  ghost predicate FirstComeFirst(s: State, t: State) {
    && (forall j :: TookPlace(s, t, j) ==> s.next <= t.jobs[j].readySequence.value < t.next)
    && forall i, j ::
         TookPlace(s, t, i) && TookPlace(s, t, j) &&
         (s.jobs[i].sequence < s.jobs[j].sequence || (s.jobs[i].sequence == s.jobs[j].sequence && i < j)) ==>
           t.jobs[i].readySequence.value < t.jobs[j].readySequence.value
  }

  lemma JudgementMeans(norm: Norm, s: State, t: State, stopped: set<Id>, j: Id)
    requires j in s.jobs && j in t.jobs && Judgement(norm, s, stopped, j, t.jobs[j])
    ensures Examined(norm, s, t, stopped, j)
  {
    VerdictMeans(norm, s, stopped, j);
    hide Verdict, Why, Queues, Belongs, MayRun, MayQueue;
  }

  lemma PlaceOf(s: State, order: seq<Id>, x: nat, y: nat)
    requires Listed(s, false, Candidates(s), order) && x < |order| && y < |order|
    requires order[x] in s.jobs && order[y] in s.jobs && Before(s, false, order[x], order[y])
    ensures x < y
  {
  }

  lemma OrderOfPlaces(s: State, t: State, order: seq<Id>)
    requires Listed(s, false, Candidates(s), order) && PlacesGiven(s, t, order, |order|) && OnlyParked(s, t)
    ensures FirstComeFirst(s, t)
  {
    forall j | TookPlace(s, t, j) ensures j in order {
      assert ParkedJob(s.jobs[j], t.jobs[j]);
    }
    hide OnlyParked;
    forall i, j | TookPlace(s, t, i) && TookPlace(s, t, j) && Before(s, false, i, j)
      ensures t.jobs[i].readySequence.value < t.jobs[j].readySequence.value
    {
      var x :| 0 <= x < |order| && order[x] == i;
      var y :| 0 <= y < |order| && order[y] == j;
      PlaceOf(s, order, x, y);
    }
  }

  /**
   The first loop: every waiting job ends where the records of the ledger before the pass say it belongs, in whatever
   order they are examined.
   */
  method Examine(norm: Norm, s: State, stopped: set<Id>, routed: set<Id>) returns (t: State, ghost ops: seq<Op>)
    requires Inv(norm, s)
    ensures OnlyParked(s, t) && t == Run(norm, s, ops)
    ensures forall j :: j in Candidates(s) ==>
              j in t.jobs && t.jobs[j].state == Verdict(norm, s, stopped, j)
    ensures forall j :: j in s.jobs && AwaitsTurn(s.jobs[j].state) ==>
              j in t.jobs && Examined(norm, s, t, stopped, j)
    ensures FirstComeFirst(s, t)
  {
    var order := Order(s, false, Candidates(s));
    t, ops := s, [];
    JudgedNone(norm, s, stopped, order);
    assert Run(norm, s, []) == s;
    for i := 0 to |order|
      invariant OnlyParked(s, t) && t == Run(norm, s, ops) && Judged(norm, s, t, stopped, order, i)
      invariant PlacesGiven(s, t, order, i)
    {
      hide *;
      NextCandidate(norm, s, t, stopped, order, i);
      var u, more := ExamineOne(norm, s, t, stopped, order[i], routed);
      JudgedMore(norm, s, t, u, stopped, order, i);
      PlacesMore(s, t, u, order, i);
      RunConcat(norm, s, ops, more);
      t, ops := u, ops + more;
    }
    OrderOfPlaces(s, t, order);
    AllExamined(norm, s, t, stopped, order);
    hide *;
  }

  lemma AllExamined(norm: Norm, s: State, t: State, stopped: set<Id>, order: seq<Id>)
    requires Listed(s, false, Candidates(s), order) && Judged(norm, s, t, stopped, order, |order|)
    ensures forall j :: j in Candidates(s) ==>
              j in s.jobs && j in t.jobs && t.jobs[j].state == Verdict(norm, s, stopped, j)
    ensures forall j :: j in s.jobs && AwaitsTurn(s.jobs[j].state) ==>
              j in t.jobs && Examined(norm, s, t, stopped, j)
  {
    hide Verdict, Why, Queues;
    forall j | j in Candidates(s) ensures j in s.jobs && j in t.jobs && Judgement(norm, s, stopped, j, t.jobs[j]) {
      var k :| 0 <= k < |order| && order[k] == j;
    }
    hide Judged, Listed;
    forall j | j in s.jobs && AwaitsTurn(s.jobs[j].state) ensures j in t.jobs && Examined(norm, s, t, stopped, j) {
      assert j in Candidates(s);
      JudgementMeans(norm, s, t, stopped, j);
    }
  }

  // ---------------------------------------------------------------- the second loop

  /** What the pass has done to one reservation: a request of a granted job became reserved. */
  ghost predicate PassedReservation(s: State, granted: set<Id>, r: Id, v: Reservation)
    requires r in s.reservations && granted <= s.jobs.Keys
  {
    var a := s.reservations[r];
    || v == a
    || (a.state.Requested? && v == a.(state := Reserved, revision := a.revision + 1) && exists g ::
      g in granted && s.jobs[g].reservation == Some(r))
  }

  const TOO_LARGE := Some("worker_request_too_large")

  ghost predicate PassedJob(a: Job, b: Job, granted: bool, refused: bool) {
    if granted then b == Moved(a.(attempt := b.attempt), Claimed, None)
    else if refused then b == Moved(a, NeedsRefresh, TOO_LARGE)
    else b == a
  }

  /** `t` is `s` after the pass granted some ready jobs and refused others. */
  ghost predicate Passed(s: State, t: State, granted: set<Id>, refused: set<Id>) {
    && SameOwners(s, t) && SameRecords(s, t) && t.claims == s.claims && t.jobs.Keys == s.jobs.Keys
      && t.reservations.Keys == s.reservations.Keys
    && granted <= s.jobs.Keys
    && (forall j :: j in s.jobs ==> PassedJob(s.jobs[j], t.jobs[j], j in granted, j in refused))
    && (forall r :: r in s.reservations ==> PassedReservation(s, granted, r, t.reservations[r]))
  }

  /** A job the first loop left ready. */
  ghost predicate Judicious(norm: Norm, s: State, stopped: set<Id>, j: Id) {
    j in s.jobs && s.jobs[j].state.Ready? && Verdict(norm, s, stopped, j).Ready?
  }

  lemma JudiciousFacts(norm: Norm, s: State, stopped: set<Id>, j: Id)
    requires Judicious(norm, s, stopped, j)
    ensures j in Candidates(s) && Contender(s, stopped, j)
    ensures s.jobs[j].owner in s.owners && s.owners[s.jobs[j].owner].fence.None?
    ensures Keys(norm, s.jobs[j].resources) * (HeldKeys(norm, s) + ActiveKeys(norm, s)) == {}
    ensures s.jobs[j].reservation.Some? && s.jobs[j].reservation.value in s.reservations ==>
              var r := s.jobs[j].reservation.value;
              && !EarlierRequest(norm, s, stopped, r) && !s.reservations[r].state.BlockedRecovery?
              && forall q :: q in SameMachine(norm, s, r) ==> !Occupied(s.reservations[q].state)
  {
    hide Approved, DependenciesDone, EarlierRequest, SameMachine, Keys, HeldKeys, ActiveKeys;
  }

  lemma LaterRequestWaits(norm: Norm, s: State, stopped: set<Id>, i: Id, q: Id, r: Id)
    requires i in Candidates(s) && Contender(s, stopped, i) && s.jobs[i].reservation == Some(q)
    requires q in s.reservations && r in s.reservations && q != r
    requires norm(Machine(s.reservations[q].machine)) == norm(Machine(s.reservations[r].machine))
    requires s.reservations[q].state.Requested? && s.reservations[q].sequence < s.reservations[r].sequence
    ensures EarlierRequest(norm, s, stopped, r)
  {
    assert q in SameMachine(norm, s, r);
  }

  /** Two ready jobs never wait on different requests for one machine. */
  lemma OneRequestPerMachine(norm: Norm, s: State, stopped: set<Id>, i: Id, j: Id)
    requires Inv(norm, s) && Judicious(norm, s, stopped, i) && Judicious(norm, s, stopped, j)
    requires s.jobs[i].reservation.Some? && s.jobs[j].reservation.Some?
    requires s.jobs[i].reservation.value in s.reservations && s.jobs[j].reservation.value in s.reservations
    requires s.reservations[s.jobs[i].reservation.value].state.Requested?
    ensures s.jobs[i].reservation == s.jobs[j].reservation
      || s.jobs[i].reservation.value !in SameMachine(norm, s, s.jobs[j].reservation.value)
  {
    var q, r := s.jobs[i].reservation.value, s.jobs[j].reservation.value;
    PendingUnfenced(norm, s, j);
    JudiciousFacts(norm, s, stopped, i);
    JudiciousFacts(norm, s, stopped, j);
    hide Inv, Judicious, Contender, EarlierRequest, Candidates;
    if q in SameMachine(norm, s, r) {
      assert r in SameMachine(norm, s, q);
      RequestOrder(norm, s, q, r);
      if s.reservations[q].sequence < s.reservations[r].sequence {
        LaterRequestWaits(norm, s, stopped, i, q, r);
      } else {
        LaterRequestWaits(norm, s, stopped, j, r, q);
      }
    }
  }

  lemma RequestOrder(norm: Norm, s: State, q: Id, r: Id)
    requires Inv(norm, s) && q in s.reservations && r in s.reservations && q != r
    ensures s.reservations[q].sequence != s.reservations[r].sequence
  {
    hide JobsSound, MachinesExclusive, JobsExclusive, ProtocolsExclusive, ClaimsExclusive, ClaimsSound, FencedQuiet,
      EventsSound, LifecyclesSound;
    assert Separate(s.reservations[q], s.reservations[r]);
  }

  /** No grant of the pass has occupied another reservation of the machine a ready job needs. */
  lemma MachineStillFree(norm: Norm, s: State, t: State, stopped: set<Id>, granted: set<Id>, refused: set<Id>, j: Id,
      q: Id)
    requires Inv(norm, s) && Passed(s, t, granted, refused) && Judicious(norm, s, stopped, j)
    requires forall g :: g in granted ==> Judicious(norm, s, stopped, g)
    requires s.jobs[j].reservation.Some? && s.jobs[j].reservation.value in s.reservations
    requires q in SameMachine(norm, s, s.jobs[j].reservation.value)
    ensures !Occupied(t.reservations[q].state)
  {
    JudiciousFacts(norm, s, stopped, j);
    assert PassedReservation(s, granted, q, t.reservations[q]);
    hide Inv, Judicious, SameMachine, Contender, EarlierRequest, Candidates;
    if t.reservations[q] != s.reservations[q] {
      var g :| g in granted && s.jobs[g].reservation == Some(q);
      OneRequestPerMachine(norm, s, stopped, g, j);
    }
  }

  lemma PassedApproved(s: State, t: State, granted: set<Id>, refused: set<Id>, j: Id)
    requires Passed(s, t, granted, refused) && j in s.jobs && j !in granted && j !in refused
    requires forall i :: i in granted + refused ==> i in s.jobs && s.jobs[i].state.Ready?
    ensures t.jobs[j] == s.jobs[j]
    ensures Approved(t, t.jobs[j]) == Approved(s, s.jobs[j])
    ensures DependenciesDone(t, t.jobs[j]) == DependenciesDone(s, s.jobs[j])
  {
    assert PassedJob(s.jobs[j], t.jobs[j], false, false);
    forall d | d in s.jobs ensures t.jobs[d].state.Succeeded? == s.jobs[d].state.Succeeded? {
      assert PassedJob(s.jobs[d], t.jobs[d], d in granted, d in refused);
    }
    if s.jobs[j].reservation.Some? && s.jobs[j].reservation.value in s.reservations {
      assert PassedReservation(s, granted, s.jobs[j].reservation.value, t.reservations[s.jobs[j].reservation.value]);
    }
  }

  lemma SameMachinePassed(norm: Norm, s: State, t: State, granted: set<Id>, refused: set<Id>, r: Id)
    requires Passed(s, t, granted, refused) && r in s.reservations
    ensures r in t.reservations && SameMachine(norm, t, r) == SameMachine(norm, s, r)
    ensures t.reservations[r].state.BlockedRecovery? == s.reservations[r].state.BlockedRecovery?
    ensures t.reservations[r].state.Released? == s.reservations[r].state.Released?
  {
    forall q | q in s.reservations
      ensures t.reservations[q].machine == s.reservations[q].machine
      ensures t.reservations[q].state == s.reservations[q].state || (s.reservations[q].state.Requested?
        && t.reservations[q].state.Reserved?)
    {
      assert PassedReservation(s, granted, q, t.reservations[q]);
    }
  }

  lemma ReservationStillFree(norm: Norm, s: State, t: State, stopped: set<Id>, granted: set<Id>, refused: set<Id>,
      j: Id)
    requires Inv(norm, s) && Passed(s, t, granted, refused) && Judicious(norm, s, stopped, j)
    requires s.jobs[j].reservation.Some?
    requires forall g :: g in granted ==> Judicious(norm, s, stopped, g)
    ensures var r := s.jobs[j].reservation.value;
            && r in t.reservations && !t.reservations[r].state.BlockedRecovery? && !t.reservations[r].state.Released?
            && forall q :: q in SameMachine(norm, t, r) ==> !Occupied(t.reservations[q].state)
  {
    hide Inv, SameMachine, Verdict, Passed;
    PendingUnfenced(norm, s, j);
    JudiciousFacts(norm, s, stopped, j);
    var r := s.jobs[j].reservation.value;
    SameMachinePassed(norm, s, t, granted, refused, r);
    hide *;
    forall q | q in SameMachine(norm, t, r) ensures q in t.reservations && !Occupied(t.reservations[q].state) {
      InMachine(norm, t, r, q);
      MachineStillFree(norm, s, t, stopped, granted, refused, j, q);
    }
  }

  lemma InMachine(norm: Norm, s: State, r: Id, q: Id)
    requires r in s.reservations && q in SameMachine(norm, s, r)
    ensures q in s.reservations
  {
  }

  /** Whatever the pass granted before, a ready job whose resources are not busy may own them. */
  lemma StillGrantable(norm: Norm, s: State, t: State, stopped: set<Id>, granted: set<Id>, refused: set<Id>, j: Id)
    requires Inv(norm, s) && Passed(s, t, granted, refused) && Judicious(norm, s, stopped, j) && j !in granted
    requires j !in refused
    requires forall g :: g in granted + refused ==> Judicious(norm, s, stopped, g)
    requires Keys(norm, s.jobs[j].resources) !! ActiveKeys(norm, t) + HeldKeys(norm, t)
    ensures j in t.jobs && t.jobs[j] == s.jobs[j] && CanGrant(norm, t, j)
  {
    JudiciousFacts(norm, s, stopped, j);
    PassedApproved(s, t, granted, refused, j);
    if s.jobs[j].reservation.Some? {
      ReservationStillFree(norm, s, t, stopped, granted, refused, j);
    }
    hide Inv, SameMachine, EarlierRequest, Candidates, Verdict, Approved, DependenciesDone, Keys, ActiveKeys, HeldKeys,
      PassedJob, PassedReservation, SameRecords, Occupied;
  }

  lemma GrantPasses(norm: Norm, s: State, t: State, granted: set<Id>, refused: set<Id>, j: Id, attempt: Id,
      routed: set<Id>)
    requires Passed(s, t, granted, refused) && j in s.jobs && j !in granted && j !in refused && KnownJob(t, j)
    ensures Passed(s, Grant(t, j, attempt, routed), granted + {j}, refused)
  {
    var u := Grant(t, j, attempt, routed);
    assert PassedJob(s.jobs[j], t.jobs[j], false, false);
    forall i | i in s.jobs ensures PassedJob(s.jobs[i], u.jobs[i], i in granted + {j}, i in refused) {
      assert PassedJob(s.jobs[i], t.jobs[i], i in granted, i in refused);
    }
    forall r | r in s.reservations ensures PassedReservation(s, granted + {j}, r, u.reservations[r]) {
      assert PassedReservation(s, granted, r, t.reservations[r]);
      if u.reservations[r] != t.reservations[r] {
        assert j in granted + {j} && s.jobs[j].reservation == Some(r);
      }
    }
  }

  lemma RefusalPasses(s: State, t: State, granted: set<Id>, refused: set<Id>, j: Id,
      routed: set<Id>)
    requires Passed(s, t, granted, refused) && j in s.jobs && j !in granted && j !in refused && KnownJob(t, j)
    requires s.jobs[j].state.Ready?
    ensures Passed(s, Transition(t, j, NeedsRefresh, TOO_LARGE, routed), granted, refused + {j})
  {
    var u := Transition(t, j, NeedsRefresh, TOO_LARGE, routed);
    assert PassedJob(s.jobs[j], t.jobs[j], false, false);
    forall i | i in s.jobs ensures PassedJob(s.jobs[i], u.jobs[i], i in granted, i in refused + {j}) {
      assert PassedJob(s.jobs[i], t.jobs[i], i in granted, i in refused);
    }
    forall r | r in s.reservations ensures PassedReservation(s, granted, r, u.reservations[r]) {
      assert PassedReservation(s, granted, r, t.reservations[r]);
    }
  }

  /** The jobs that take an execution slot. */
  function Working(s: State): set<Id> {
    set j | j in s.jobs && (s.jobs[j].state.Claimed? || s.jobs[j].state.Running?)
  }

  lemma GrantOccupies(norm: Norm, t: State, j: Id, attempt: Id, routed: set<Id>)
    requires KnownJob(t, j) && t.jobs[j].state.Ready?
    ensures var u := Grant(t, j, attempt, routed);
            && ActiveKeys(norm, u) == ActiveKeys(norm, t) + Keys(norm, t.jobs[j].resources)
            && HeldKeys(norm, u) == HeldKeys(norm, t)
            && |Working(u)| == |Working(t)| + 1
  {
    var u := Grant(t, j, attempt, routed);
    assert forall i :: i in t.jobs && i != j ==> u.jobs[i] == t.jobs[i];
    forall k | k in ActiveKeys(norm, t) ensures k in ActiveKeys(norm, u) {
      var i, r :| i in t.jobs && Active(t.jobs[i].state) && r in t.jobs[i].resources && norm(r) == k;
      OwnedKey(norm, u, i, r);
    }
    forall r | r in t.jobs[j].resources ensures norm(r) in ActiveKeys(norm, u) {
      OwnedKey(norm, u, j, r);
    }
    forall k | k in ActiveKeys(norm, u) ensures k in ActiveKeys(norm, t) + Keys(norm, t.jobs[j].resources) {
      var i, r :| i in u.jobs && Active(u.jobs[i].state) && r in u.jobs[i].resources && norm(r) == k;
    }
    assert Working(u) == Working(t) + {j};
  }

  lemma OwnedKey(norm: Norm, s: State, j: Id, r: Resource)
    requires j in s.jobs && Active(s.jobs[j].state) && r in s.jobs[j].resources
    ensures norm(r) in ActiveKeys(norm, s)
  {
  }

  lemma RefusalOccupies(norm: Norm, t: State, j: Id, reason: Option<string>, routed: set<Id>)
    requires KnownJob(t, j) && t.jobs[j].state.Ready?
    ensures var u := Transition(t, j, NeedsRefresh, reason, routed);
            ActiveKeys(norm, u) == ActiveKeys(norm, t) && HeldKeys(norm, u) == HeldKeys(norm, t)
              && Working(u) == Working(t)
  {
    var u := Transition(t, j, NeedsRefresh, reason, routed);
    assert forall i :: i in t.jobs && i != j ==> u.jobs[i] == t.jobs[i];
  }

  /** Another owner or workspace admits its own jobs; this pass only keeps their place. */
  predicate Local(s: State, ownerId: Option<Id>, workspace: string, j: Id)
    requires KnownJob(s, j)
  {
    (ownerId.None? || s.jobs[j].owner == ownerId.value) && s.owners[s.jobs[j].owner].workspace == workspace
  }

  predicate Overlap(norm: Norm, s: State, i: Id, j: Id)
    requires i in s.jobs && j in s.jobs
  {
    Keys(norm, s.jobs[i].resources) * Keys(norm, s.jobs[j].resources) != {}
  }

  ghost predicate AllReady(norm: Norm, s: State, stopped: set<Id>, order: seq<Id>) {
    && (forall k :: 0 <= k < |order| ==> Judicious(norm, s, stopped, order[k]))
    && forall i, k :: 0 <= i < k < |order| ==> order[i] != order[k]
  }

  /** An earlier job of the order that overlaps place `x` was granted, or its place was kept. */
  ghost predicate Yielded(norm: Norm, s: State, order: seq<Id>, taken: set<Id>, x: nat)
    requires x < |order| && forall k :: 0 <= k < |order| ==> order[k] in s.jobs
  {
    exists w :: 0 <= w < x && order[w] in taken && Overlap(norm, s, order[w], order[x])
  }

  function Slots(s: State): nat {
    if |Working(s)| <= 4 then 4 - |Working(s)| else 0
  }

  /** Everything busy was busy before the pass or belongs to a job that was granted or whose place was kept. */
  ghost predicate Accounted(norm: Norm, s: State, order: seq<Id>, taken: set<Id>, busy: set<Resource>, n: nat)
    requires n <= |order| && forall k :: 0 <= k < |order| ==> order[k] in s.jobs
  {
    forall k :: k in busy ==>
      k in ActiveKeys(norm, s) + HeldKeys(norm, s) || exists w ::
        0 <= w < n && order[w] in taken && k in Keys(norm, s.jobs[order[w]].resources)
  }

  lemma BusyYields(norm: Norm, s: State, stopped: set<Id>, order: seq<Id>, taken: set<Id>, busy: set<Resource>, n: nat)
    requires AllReady(norm, s, stopped, order) && n < |order| && Accounted(norm, s, order, taken, busy, n)
    requires Keys(norm, s.jobs[order[n]].resources) * busy != {}
    ensures Yielded(norm, s, order, taken, n)
  {
    JudiciousFacts(norm, s, stopped, order[n]);
    hide Judicious, Keys, ActiveKeys, HeldKeys;
    var k :| k in Keys(norm, s.jobs[order[n]].resources) * busy;
    NotBusy(Keys(norm, s.jobs[order[n]].resources), HeldKeys(norm, s), ActiveKeys(norm, s), k);
    var w :| 0 <= w < n && order[w] in taken && k in Keys(norm, s.jobs[order[w]].resources);
    assert k in Keys(norm, s.jobs[order[w]].resources) * Keys(norm, s.jobs[order[n]].resources);
  }

  lemma NotBusy(mine: set<Resource>, held: set<Resource>, active: set<Resource>, k: Resource)
    requires mine * (held + active) == {} && k in mine
    ensures k !in active + held
  {
    assert k in held + active ==> k in mine * (held + active);
  }

  lemma AccountMore(norm: Norm, s: State, order: seq<Id>, taken: set<Id>, busy: set<Resource>, n: nat)
    requires n < |order| && (forall k :: 0 <= k < |order| ==> order[k] in s.jobs)
    requires Accounted(norm, s, order, taken, busy, n)
    ensures Accounted(norm, s, order, taken, busy, n + 1)
    ensures Accounted(norm, s, order, taken + {order[n]}, busy + Keys(norm, s.jobs[order[n]].resources), n + 1)
  {
    hide Keys, ActiveKeys, HeldKeys;
    forall k | k in busy && k !in ActiveKeys(norm, s) + HeldKeys(norm, s)
      ensures exists w :: 0 <= w < n + 1 && order[w] in taken && k in Keys(norm, s.jobs[order[w]].resources)
    {
      var w :| 0 <= w < n && order[w] in taken && k in Keys(norm, s.jobs[order[w]].resources);
    }
  }

  /** What the pass decided so far: which jobs it granted, which it refused as too large, and whose place it kept. */
  datatype Decided = Decided(granted: set<Id>, refused: set<Id>, kept: set<Id>)

  /** Place `x` of the order was decided, or an earlier job that overlaps it was granted or kept its place. */
  ghost predicate Served(norm: Norm, s: State, order: seq<Id>, d: Decided, x: nat)
    requires x < |order| && forall k :: 0 <= k < |order| ==> order[k] in s.jobs
  {
    order[x] in d.granted + d.refused + d.kept || Yielded(norm, s, order, d.granted + d.kept, x)
  }

  /**
   Nobody before a granted job is passed over, unless it yields; before place `n` the others are served or the slots ran
   out.
   */
  ghost predicate InOrder(norm: Norm, s: State, order: seq<Id>, d: Decided, n: nat, full: bool)
    requires n <= |order| && forall k :: 0 <= k < |order| ==> order[k] in s.jobs
  {
    && (forall x :: 0 <= x < n ==> Served(norm, s, order, d, x) || full)
    && forall x, y :: 0 <= x < y < n && order[y] in d.granted ==> Served(norm, s, order, d, x)
  }

  ghost predicate Placed(order: seq<Id>, d: Decided, n: nat)
    requires n <= |order|
  {
    (forall j :: j in d.granted + d.refused + d.kept ==> j in order[..n]) && d.granted !! d.refused + d.kept
  }

  function Limit(s: State): nat {
    if |Working(s)| <= 4 then 4 else |Working(s)|
  }

  ghost predicate Progress(norm: Norm, s: State, stopped: set<Id>, order: seq<Id>, n: nat, t: State, d: Decided,
      busy: set<Resource>, slots: nat)
  {
    && AllReady(norm, s, stopped, order) && n <= |order| && Placed(order, d, n)
    && Passed(s, t, d.granted, d.refused)
    && ActiveKeys(norm, t) + HeldKeys(norm, t) <= busy && Accounted(norm, s, order, d.granted + d.kept, busy, n)
    && |Working(t)| + slots == Limit(s)
    && InOrder(norm, s, order, d, n, slots == 0)
  }

  lemma ServedMore(norm: Norm, s: State, order: seq<Id>, d: Decided, e: Decided, n: nat, full: bool, later: bool)
    requires full ==> later
    requires n < |order| && (forall k :: 0 <= k < |order| ==> order[k] in s.jobs) && InOrder(norm, s, order, d, n, full)
    requires d.granted <= e.granted && d.refused <= e.refused && d.kept <= e.kept
    requires Served(norm, s, order, e, n) || full
    requires e.granted == d.granted || (!full && e.granted == d.granted + {order[n]})
    requires order[n] !in d.granted && forall k :: 0 <= k < n ==> order[k] != order[n]
    ensures InOrder(norm, s, order, e, n + 1, later)
  {
    hide Overlap;
    forall x | 0 <= x < n && Served(norm, s, order, d, x) ensures Served(norm, s, order, e, x) {
      if Yielded(norm, s, order, d.granted + d.kept, x) {
        assert Yielded(norm, s, order, e.granted + e.kept, x);
      }
    }
  }

  lemma PlacedMore(order: seq<Id>, d: Decided, n: nat)
    requires n < |order| && Placed(order, d, n) && forall i, k :: 0 <= i < k < |order| ==> order[i] != order[k]
    ensures order[n] !in d.granted + d.refused + d.kept && Placed(order, d, n + 1)
    ensures Placed(order, d.(kept := d.kept + {order[n]}), n + 1)
    ensures Placed(order, d.(refused := d.refused + {order[n]}), n + 1)
    ensures Placed(order, d.(granted := d.granted + {order[n]}), n + 1)
  {
    assert order[..n + 1] == order[..n] + [order[n]];
  }

  /** The next job of the order is passed over. */
  lemma SkipStep(norm: Norm, s: State, stopped: set<Id>, order: seq<Id>, n: nat, t: State, d: Decided,
      busy: set<Resource>, slots: nat)
    requires Progress(norm, s, stopped, order, n, t, d, busy, slots) && n < |order|
    requires slots == 0 || Keys(norm, s.jobs[order[n]].resources) * busy != {}
    ensures Progress(norm, s, stopped, order, n + 1, t, d, busy, slots)
  {
    AccountMore(norm, s, order, d.granted + d.kept, busy, n);
    PlacedMore(order, d, n);
    if slots != 0 {
      BusyYields(norm, s, stopped, order, d.granted + d.kept, busy, n);
    }
    ServedMore(norm, s, order, d, d, n, slots == 0, slots == 0);
    hide Judicious, Accounted, InOrder, Placed, Passed, Keys, ActiveKeys, HeldKeys, Yielded, Working;
  }

  /** The next job belongs to another pass: its place is kept. */
  lemma KeepStep(norm: Norm, s: State, stopped: set<Id>, order: seq<Id>, n: nat, t: State, d: Decided,
      busy: set<Resource>, slots: nat)
    requires Progress(norm, s, stopped, order, n, t, d, busy, slots) && n < |order| && slots > 0
    ensures Progress(norm, s, stopped, order, n + 1, t, d.(kept := d.kept + {order[n]}),
      busy + Keys(norm, s.jobs[order[n]].resources), slots)
  {
    hide Accounted, InOrder, Placed, Passed, Keys, ActiveKeys, HeldKeys, Yielded, Working, Inv, Verdict;
    var e := d.(kept := d.kept + {order[n]});
    AccountMore(norm, s, order, d.granted + d.kept, busy, n);
    PlacedMore(order, d, n);
    ServedMore(norm, s, order, d, e, n, false, false);
    assert d.granted + d.kept + {order[n]} == e.granted + e.kept;
  }

  /** The job at place `n` is still as the pass found it. */
  lemma Untouched(norm: Norm, s: State, stopped: set<Id>, order: seq<Id>, n: nat, t: State, d: Decided)
    requires Inv(norm, s) && AllReady(norm, s, stopped, order) && n < |order| && Placed(order, d, n)
    requires Passed(s, t, d.granted, d.refused)
    ensures var j := order[n];
            && j !in d.granted && j !in d.refused && KnownJob(t, j) && KnownJob(s, j) && t.jobs[j] == s.jobs[j]
              && s.jobs[j].state.Ready?
            && forall i :: i in d.granted + d.refused ==> Judicious(norm, s, stopped, i)
  {
    hide Verdict, Inv, PassedReservation;
    PlacedMore(order, d, n);
    PendingUnfenced(norm, s, order[n]);
    PassedApproved(s, t, d.granted, d.refused, order[n]);
  }

  /** The next job does not fit into a worker request. */
  lemma RefuseStep(norm: Norm, s: State, stopped: set<Id>, order: seq<Id>, n: nat, t: State, d: Decided,
      busy: set<Resource>, slots: nat, routed: set<Id>)
    requires Inv(norm, s) && Progress(norm, s, stopped, order, n, t, d, busy, slots) && n < |order| && slots > 0
    ensures CanPark(t, order[n], NeedsRefresh)
    ensures Progress(norm, s, stopped, order, n + 1, Transition(t, order[n], NeedsRefresh, TOO_LARGE, routed),
      d.(refused := d.refused + {order[n]}), busy, slots)
  {
    hide Accounted, InOrder, Placed, Passed, Keys, ActiveKeys, HeldKeys, Working, Transition, Inv, Served, AllReady;
    var e := d.(refused := d.refused + {order[n]});
    Untouched(norm, s, stopped, order, n, t, d);
    AllReadyFacts(norm, s, stopped, order);
    AccountMore(norm, s, order, d.granted + d.kept, busy, n);
    PlacedMore(order, d, n);
    AlreadyDecided(norm, s, order, e, n);
    ServedMore(norm, s, order, d, e, n, false, false);
    RefusalPasses(s, t, d.granted, d.refused, order[n], routed);
    RefusalOccupies(norm, t, order[n], TOO_LARGE, routed);
  }

  lemma AllReadyFacts(norm: Norm, s: State, stopped: set<Id>, order: seq<Id>)
    requires AllReady(norm, s, stopped, order)
    ensures forall k :: 0 <= k < |order| ==> order[k] in s.jobs
    ensures forall i, k :: 0 <= i < k < |order| ==> order[i] != order[k]
  {
  }

  lemma AlreadyDecided(norm: Norm, s: State, order: seq<Id>, d: Decided, n: nat)
    requires n < |order| && (forall k :: 0 <= k < |order| ==> order[k] in s.jobs)
    requires order[n] in d.granted + d.refused + d.kept
    ensures Served(norm, s, order, d, n)
  {
  }

  /** The next job is granted. */
  lemma GrantStep(norm: Norm, s: State, stopped: set<Id>, order: seq<Id>, n: nat, t: State, d: Decided,
      busy: set<Resource>, slots: nat, attempt: Id, routed: set<Id>)
    requires Inv(norm, s) && Progress(norm, s, stopped, order, n, t, d, busy, slots) && n < |order| && slots > 0
    requires Keys(norm, s.jobs[order[n]].resources) * busy == {}
    ensures CanGrant(norm, t, order[n])
    ensures Progress(norm, s, stopped, order, n + 1, Grant(t, order[n], attempt, routed),
      d.(granted := d.granted + {order[n]}),
                     busy + Keys(norm, s.jobs[order[n]].resources), slots - 1)
  {
    hide Accounted, InOrder, Placed, Passed, Keys, ActiveKeys, HeldKeys, Working, Grant, Inv, Served, AllReady,
      CanGrant;
    var e := d.(granted := d.granted + {order[n]});
    Untouched(norm, s, stopped, order, n, t, d);
    AllReadyFacts(norm, s, stopped, order);
    assert Judicious(norm, s, stopped, order[n]) by {
      NthReady(norm, s, stopped, order, n);
    }
    AccountMore(norm, s, order, d.granted + d.kept, busy, n);
    assert d.granted + d.kept + {order[n]} == e.granted + e.kept;
    PlacedMore(order, d, n);
    AlreadyDecided(norm, s, order, e, n);
    ServedMore(norm, s, order, d, e, n, false, slots == 1);
    DisjointPart(Keys(norm, s.jobs[order[n]].resources), ActiveKeys(norm, t) + HeldKeys(norm, t), busy);
    StillGrantable(norm, s, t, stopped, d.granted, d.refused, order[n]);
    GrantPasses(norm, s, t, d.granted, d.refused, order[n], attempt, routed);
    GrantOccupies(norm, t, order[n], attempt, routed);
  }

  lemma NthReady(norm: Norm, s: State, stopped: set<Id>, order: seq<Id>, n: nat)
    requires AllReady(norm, s, stopped, order) && n < |order|
    ensures Judicious(norm, s, stopped, order[n])
  {
  }

  lemma DisjointPart(a: set<Resource>, b: set<Resource>, c: set<Resource>)
    requires b <= c && a * c == {}
    ensures a !! b
  {
    forall x | x in a ensures x !in b {
      assert x in b ==> x in a * c;
    }
  }

  /** Granted jobs are this pass's own and fit a request, refused ones are its own and do not, kept ones are others'. */
  ghost predicate Mine(s: State, ownerId: Option<Id>, workspace: string, tooLarge: set<Id>, d: Decided) {
    && (forall j :: j in d.granted ==> KnownJob(s, j) && Local(s, ownerId, workspace, j) && j !in tooLarge)
    && (forall j :: j in d.refused ==> KnownJob(s, j) && Local(s, ownerId, workspace, j) && j in tooLarge)
    && forall j :: j in d.kept ==> KnownJob(s, j) && !Local(s, ownerId, workspace, j)
  }

  lemma MoreMine(s: State, ownerId: Option<Id>, workspace: string, tooLarge: set<Id>, d: Decided, j: Id)
    requires Mine(s, ownerId, workspace, tooLarge, d) && KnownJob(s, j)
    ensures !Local(s, ownerId, workspace, j) ==>
      Mine(s, ownerId, workspace, tooLarge, d.(kept := d.kept + {j}))
    ensures Local(s, ownerId, workspace, j) && j in tooLarge ==>
      Mine(s, ownerId, workspace, tooLarge, d.(refused := d.refused + {j}))
    ensures Local(s, ownerId, workspace, j) && j !in tooLarge ==>
      Mine(s, ownerId, workspace, tooLarge, d.(granted := d.granted + {j}))
  {
    hide Local;
  }

  /** No two jobs that were granted or keep their place overlap. */
  ghost predicate TakenApart(norm: Norm, s: State, order: seq<Id>, d: Decided, busy: set<Resource>, n: nat)
    requires n <= |order|
  {
    && (forall x :: 0 <= x < n && order[x] in d.granted + d.kept ==>
          order[x] in s.jobs && Keys(norm, s.jobs[order[x]].resources) <= busy)
    && forall x, y :: 0 <= x < y < n && order[x] in d.granted + d.kept && order[y] in d.granted + d.kept ==>
         order[x] in s.jobs && order[y] in s.jobs && !Overlap(norm, s, order[x], order[y])
  }

  lemma ApartSkip(norm: Norm, s: State, order: seq<Id>, d: Decided, e: Decided, busy: set<Resource>, n: nat)
    requires n < |order| && TakenApart(norm, s, order, d, busy, n) && order[n] !in d.granted + d.kept
    requires e.granted == d.granted && e.kept == d.kept
    ensures TakenApart(norm, s, order, e, busy, n + 1)
  {
    hide Keys, Overlap;
  }

  lemma ApartTake(norm: Norm, s: State, order: seq<Id>, d: Decided, e: Decided, busy: set<Resource>, n: nat)
    requires n < |order| && order[n] in s.jobs && TakenApart(norm, s, order, d, busy, n)
    requires forall k :: 0 <= k < n ==> order[k] != order[n]
    requires Keys(norm, s.jobs[order[n]].resources) * busy == {}
    requires e.granted + e.kept == d.granted + d.kept + {order[n]}
    ensures TakenApart(norm, s, order, e, busy + Keys(norm, s.jobs[order[n]].resources), n + 1)
  {
    var mine := Keys(norm, s.jobs[order[n]].resources);
    forall x | 0 <= x < n && order[x] in e.granted + e.kept ensures !Overlap(norm, s, order[x], order[n]) {
      assert order[x] in d.granted + d.kept;
      DisjointPart(mine, Keys(norm, s.jobs[order[x]].resources), busy);
      assert Keys(norm, s.jobs[order[x]].resources) * mine == {};
    }
  }

  /** Every granted job runs under the attempt minted for it. */
  ghost predicate Attempted(t: State, granted: set<Id>, attempts: Id -> Id) {
    forall j :: j in granted ==> j in t.jobs && t.jobs[j].attempt == Some(attempts(j))
  }

  lemma AttemptedMore(t: State, u: State, granted: set<Id>, j: Id, attempts: Id -> Id)
    requires Attempted(t, granted, attempts) && j in t.jobs && j in u.jobs && u.jobs == t.jobs[j := u.jobs[j]]
    requires j !in granted
    ensures Attempted(u, granted, attempts)
    ensures u.jobs[j].attempt == Some(attempts(j)) ==> Attempted(u, granted + {j}, attempts)
  {
  }

  lemma GrantChanges(t: State, j: Id, attempt: Id, routed: set<Id>)
    requires KnownJob(t, j)
    ensures var u := Grant(t, j, attempt, routed);
      j in u.jobs && u.jobs == t.jobs[j := u.jobs[j]] && u.jobs[j].attempt == Some(attempt)
  {
  }

  lemma RefusalChanges(t: State, j: Id, reason: Option<string>, routed: set<Id>)
    requires KnownJob(t, j)
    ensures var u := Transition(t, j, NeedsRefresh, reason, routed);
      j in u.jobs && u.jobs == t.jobs[j := u.jobs[j]]
  {
  }

  /** One turn of the second loop. */
  method GrantOne(norm: Norm, ghost s: State, ghost stopped: set<Id>, ghost order: seq<Id>, ghost n: nat, j: Id,
      t: State, ghost d: Decided, busy: set<Resource>, slots: nat, ownerId: Option<Id>, workspace: string,
      tooLarge: set<Id>, attempts: Id -> Id, routed: set<Id>)
    returns (u: State, ghost e: Decided, busyAfter: set<Resource>, slotsAfter: nat, claimed: bool, ghost ops: seq<Op>)
    requires Inv(norm, s) && Progress(norm, s, stopped, order, n, t, d, busy, slots) && n < |order| && order[n] == j
    requires Mine(s, ownerId, workspace, tooLarge, d) && TakenApart(norm, s, order, d, busy, n)
    requires Attempted(t, d.granted, attempts)
    ensures Progress(norm, s, stopped, order, n + 1, u, e, busyAfter, slotsAfter) && u == Run(norm, t, ops)
    ensures Mine(s, ownerId, workspace, tooLarge, e) && TakenApart(norm, s, order, e, busyAfter, n + 1)
    ensures Attempted(u, e.granted, attempts)
    ensures e.granted == if claimed then d.granted + {j} else d.granted
  {
    hide *;
    RunNothing(norm, t);
    ProgressFacts(norm, s, stopped, order, n, t, d, busy, slots);
    var keys := Keys(norm, t.jobs[j].resources);
    u, e, busyAfter, slotsAfter, claimed, ops := t, d, busy, slots, false, [];
    MoreMine(s, ownerId, workspace, tooLarge, d, j);
    if slots == 0 || keys * busy != {} {
      SkipStep(norm, s, stopped, order, n, t, d, busy, slots);
      ApartSkip(norm, s, order, d, d, busy, n);
    } else if !Local(t, ownerId, workspace, j) {
      KeepStep(norm, s, stopped, order, n, t, d, busy, slots);
      busyAfter, e := busy + keys, d.(kept := d.kept + {j});
      ApartTake(norm, s, order, d, e, busy, n);
    } else if j in tooLarge {
      RefuseStep(norm, s, stopped, order, n, t, d, busy, slots, routed);
      ParkIsNext(norm, t, j, NeedsRefresh, TOO_LARGE, routed);
      RunAppend(norm, t, [], Park(j, NeedsRefresh, TOO_LARGE, routed));
      assert [] + [Park(j, NeedsRefresh, TOO_LARGE, routed)] == [Park(j, NeedsRefresh, TOO_LARGE, routed)];
      u, e, ops := Transition(t, j, NeedsRefresh, TOO_LARGE, routed), d.(refused := d.refused + {j}),
        [Park(j, NeedsRefresh, TOO_LARGE, routed)];
      ApartSkip(norm, s, order, d, e, busy, n);
      RefusalChanges(t, j, TOO_LARGE, routed);
      AttemptedMore(t, u, d.granted, j, attempts);
    } else {
      var attempt := attempts(j);
      GrantStep(norm, s, stopped, order, n, t, d, busy, slots, attempt, routed);
      StartIsNext(norm, t, j, attempt, routed);
      RunAppend(norm, t, [], Start(j, attempt, routed));
      assert [] + [Start(j, attempt, routed)] == [Start(j, attempt, routed)];
      u, e, ops := Grant(t, j, attempt, routed), d.(granted := d.granted + {j}), [Start(j, attempt, routed)];
      busyAfter, slotsAfter, claimed := busy + keys, slots - 1, true;
      ApartTake(norm, s, order, d, e, busy, n);
      GrantChanges(t, j, attempt, routed);
      AttemptedMore(t, u, d.granted, j, attempts);
    }
  }

  /** The second loop: grant in ready order while slots last, keeping the place of jobs that others must admit. */
  method GrantReady(norm: Norm, s: State, stopped: set<Id>, order: seq<Id>, ownerId: Option<Id>, workspace: string,
      tooLarge: set<Id>,
                    attempts: Id -> Id, routed: set<Id>)
    returns (t: State, claimed: seq<Id>, ghost d: Decided, ghost ops: seq<Op>)
    requires Inv(norm, s) && AllReady(norm, s, stopped, order)
    ensures t == Run(norm, s, ops) && Passed(s, t, d.granted, d.refused)
    ensures (forall j :: j in claimed <==> j in d.granted) && Mine(s, ownerId, workspace, tooLarge, d)
    ensures Attempted(t, d.granted, attempts)
    ensures forall x, y :: 0 <= x < y < |order| && order[x] in d.granted + d.kept && order[y] in d.granted + d.kept ==>
      order[x] in s.jobs && order[y] in s.jobs && !Overlap(norm, s, order[x], order[y])
    ensures |Working(t)| <= Limit(s) && Placed(order, d, |order|)
    ensures (forall k :: 0 <= k < |order| ==> order[k] in s.jobs)
    ensures InOrder(norm, s, order, d, |order|, |Working(t)| == Limit(s))
  {
    hide *;
    var busy, slots := ActiveKeys(norm, s) + HeldKeys(norm, s), Slots(s);
    t, claimed, d, ops := s, [], Decided({}, {}, {}), [];
    StartPass(norm, s, stopped, order);
    NothingMine(norm, s, ownerId, workspace, tooLarge, order, busy, attempts);
    RunNothing(norm, s);
    for i := 0 to |order|
      invariant Progress(norm, s, stopped, order, i, t, d, busy, slots) && t == Run(norm, s, ops)
      invariant (forall j :: j in claimed <==> j in d.granted) && Mine(s, ownerId, workspace, tooLarge, d)
      invariant TakenApart(norm, s, order, d, busy, i) && Attempted(t, d.granted, attempts)
    {
      ghost var more;
      var now;
      t, d, busy, slots, now, more := GrantOne(norm, s, stopped, order, i, order[i], t, d, busy, slots, ownerId,
        workspace, tooLarge, attempts, routed);
      RunConcat(norm, s, ops, more);
      ops := ops + more;
      if now {
        claimed := claimed + [order[i]];
      }
    }
    PassEnds(norm, s, stopped, order, t, d, busy, slots);
    AllApart(norm, s, order, d, busy);
  }

  lemma RunNothing(norm: Norm, s: State)
    ensures Run(norm, s, []) == s
  {
  }

  lemma NothingMine(norm: Norm, s: State, ownerId: Option<Id>, workspace: string, tooLarge: set<Id>, order: seq<Id>,
      busy: set<Resource>, attempts: Id -> Id)
    ensures var d := Decided({}, {}, {});
      && Mine(s, ownerId, workspace, tooLarge, d) && TakenApart(norm, s, order, d, busy, 0)
      && Attempted(s, d.granted, attempts)
  {
  }

  lemma AllApart(norm: Norm, s: State, order: seq<Id>, d: Decided, busy: set<Resource>)
    requires TakenApart(norm, s, order, d, busy, |order|)
    ensures forall x, y :: 0 <= x < y < |order| && order[x] in d.granted + d.kept && order[y] in d.granted + d.kept ==>
      order[x] in s.jobs && order[y] in s.jobs && !Overlap(norm, s, order[x], order[y])
  {
    hide Keys, Overlap;
  }

  lemma PassEnds(norm: Norm, s: State, stopped: set<Id>, order: seq<Id>, t: State, d: Decided, busy: set<Resource>,
      slots: nat)
    requires Progress(norm, s, stopped, order, |order|, t, d, busy, slots)
    ensures Passed(s, t, d.granted, d.refused) && |Working(t)| <= Limit(s) && Placed(order, d, |order|)
    ensures (forall k :: 0 <= k < |order| ==> order[k] in s.jobs)
    ensures InOrder(norm, s, order, d, |order|, |Working(t)| == Limit(s))
  {
    hide Passed, Placed, Working, ActiveKeys, HeldKeys, Accounted, Verdict, Served;
  }

  lemma ParkIsNext(norm: Norm, s: State, j: Id, state: JobState, reason: Option<string>, routed: set<Id>)
    requires CanPark(s, j, state)
    ensures Next(norm, s, Park(j, state, reason, routed)) == Transition(s, j, state, reason, routed)
  {
    hide Transition;
  }

  lemma StartIsNext(norm: Norm, s: State, j: Id, attempt: Id, routed: set<Id>)
    requires CanGrant(norm, s, j)
    ensures KnownJob(s, j) && Next(norm, s, Start(j, attempt, routed)) == Grant(s, j, attempt, routed)
  {
    hide Grant;
  }

  lemma ProgressFacts(norm: Norm, s: State, stopped: set<Id>, order: seq<Id>, n: nat, t: State, d: Decided,
      busy: set<Resource>, slots: nat)
    requires Inv(norm, s) && Progress(norm, s, stopped, order, n, t, d, busy, slots) && n < |order|
    ensures var j := order[n]; KnownJob(s, j) && KnownJob(t, j) && t.jobs[j] == s.jobs[j]
    ensures forall ownerId, workspace ::
      Local(t, ownerId, workspace, order[n]) == Local(s, ownerId, workspace, order[n])
    ensures order[n] !in d.granted + d.refused + d.kept && forall k :: 0 <= k < n ==> order[k] != order[n]
  {
    Untouched(norm, s, stopped, order, n, t, d);
    PlacedMore(order, d, n);
    assert t.owners == s.owners;
  }

  lemma StartPass(norm: Norm, s: State, stopped: set<Id>, order: seq<Id>)
    requires AllReady(norm, s, stopped, order)
    ensures Progress(norm, s, stopped, order, 0, s, Decided({}, {}, {}), ActiveKeys(norm, s) + HeldKeys(norm, s),
      Slots(s))
  {
    hide Verdict, ActiveKeys, HeldKeys, Keys;
  }
}
