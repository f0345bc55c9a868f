/**
 The coordination ledger and the claim file as one value, and the effect of every
 locked transaction on it (libexec/workspace-coordination.rb, -claims.rb,
 -execution.rb). A refused transaction leaves the state as it was.

 `norm` is the normal form of a resource name; module MachinePolicy supplies it.
 */
module Ledger {
  import opened Wrappers
  import opened MachinePolicy

  type Id = nat
  type Norm = Resource -> Resource

  datatype JobState =
    | WaitingApproval | WaitingDependency | WaitingResource | Ready
    | Claimed | Running | NeedsRefresh | Reconciling
    | Succeeded | Failed | Canceled

  predicate Terminal(s: JobState) {
    s.Succeeded? || s.Failed? || s.Canceled?
  }

  /** The states that own resources. */
  predicate Active(s: JobState) {
    s.Claimed? || s.Running? || s.Reconciling?
  }

  predicate Announced(s: JobState) {
    s.Ready? || s.NeedsRefresh? || s.Reconciling? || s.Succeeded? || s.Failed?
  }

  datatype Kind = Merge | MachineActivate | ProfileActivate

  datatype Snapshot = Snapshot(id: Id, repository: string, target: string, coverage: set<string>,
    changeScope: Option<string>)

  datatype Outcome = Applied | NotApplied | BaselineChanged | Unknown

  datatype Job = Job(
    owner: Id, kind: Kind, dependsOn: seq<Id>, approval: Id, reservation: Option<Id>, snapshot: Snapshot,
    resources: seq<Resource>, state: JobState, reason: Option<string>, revision: nat, sequence: nat,
    readySequence: Option<nat>, attempt: Option<Id>, result: Option<Outcome>)

  /** `Reserved` is written "held" in the ledger file. */
  datatype ReservationState = Requested | Reserved | DeployedReview | Closing | Released | BlockedRecovery

  predicate Occupied(s: ReservationState) {
    !s.Requested? && !s.Released?
  }

  datatype Record = Record(attempt: Id, kind: Kind, coverage: set<string>, outcome: Outcome, disposed: bool)

  datatype Reservation = Reservation(
    owner: Id, machine: string, state: ReservationState, revision: nat, sequence: nat, history: seq<Record>)

  datatype Command = Archive | Delete | Revive

  datatype Fence = Fence(command: Command, completed: bool, operation: Option<Id>)

  datatype Owner = Owner(identity: Id, workspace: string, slug: string, thread: bool, fence: Option<Fence>)

  datatype MachineScope = MachineScope(machine: string, reboot: bool, actions: set<Kind>)

  datatype Approval = Approval(
    owner: Id, deploy: bool, merges: set<(string, string)>, machines: set<MachineScope>, reviewed: Id,
      iteration: Option<string>)

  datatype Topic = OfJob(state: JobState) | OnHeld | OnReleased | OfRun(complete: bool)

  /** The digest of owner, item, snapshot and state, taken as injective. */
  datatype EventId = EventId(owner: Id, item: Id, snapshot: Option<Id>, topic: Topic)

  /** `Parked` is written "held" in the ledger file. */
  datatype EventState = Pending | Retry | Parked | Delivered

  datatype Event = Event(owner: Id, state: EventState)

  datatype Binding = Binding(id: Id, identity: Id)

  datatype Lifecycle = Lifecycle(
    workspace: string, slug: string, command: Command, owners: seq<Binding>, archive: Option<Id>, completed: bool)

  datatype Integrated = Integrated(repository: string, target: string, head: Id)

  datatype FrontierItem = FrontierItem(proof: Integrated, kind: Kind)

  /** `Dropped` is written "released" and `Withdrawn` "canceled" in the claim file. */
  datatype ClaimState = Waiting | Held | Dropped | Withdrawn

  datatype ClaimRequest = ClaimRequest(repositories: seq<string>, machines: seq<string>, purpose: string)

  datatype Claim = Claim(
    owner: Id, request: ClaimRequest, resources: seq<Resource>, state: ClaimState, revision: nat, sequence: nat,
      notify: bool)

  datatype Dependency = Known(id: Id) | Keyed(key: string)

  datatype Draft = Draft(key: string, kind: Kind, dependsOn: seq<Dependency>, approval: Id, reservation: Option<Id>,
    snapshot: Snapshot)

  datatype Action =
    | Approve(deploy: bool, merges: set<(string, string)>, machines: set<MachineScope>, reviewed: Id,
      iteration: Option<string>)
    | Reserve(machine: string, approval: Id)
    | Submit(draft: Draft)
    | SubmitBatch(drafts: seq<Draft>)
    | Cancel(job: Id, expected: nat, reason: string)
    | Refresh(job: Id, expected: nat, snapshot: Snapshot, approval: Id)
    | Finish(reservation: Id, expected: nat, final: set<Integrated>)
    | Acknowledge(event: EventId)
    | Bootstrap(jobs: seq<Id>)

  datatype Reply = Reply(id: Id, revision: nat) | BatchReply(ids: seq<Id>) | Acknowledged(event: EventId)

  /** The digest of a request, taken as injective, is the request. */
  datatype Receipt = Receipt(owner: Id, action: Action, reply: Reply)

  datatype State = State(
    next: nat, suspended: bool, owners: map<Id, Owner>, approvals: map<Id, Approval>,
      reservations: map<Id, Reservation>,
    jobs: map<Id, Job>, outbox: map<EventId, Event>, receipts: map<Id, Receipt>,
      frontier: map<string, set<FrontierItem>>,
    lifecycles: map<Id, Lifecycle>, claims: map<Id, Claim>)

  const Empty := State(1, false, map[], map[], map[], map[], map[], map[], map[], map[], map[])

  function Keys(norm: Norm, resources: seq<Resource>): set<Resource> {
    set r | r in resources :: norm(r)
  }

  function ActiveKeys(norm: Norm, s: State): set<Resource> {
    set j, r | j in s.jobs && Active(s.jobs[j].state) && r in s.jobs[j].resources :: norm(r)
  }

  function HeldKeys(norm: Norm, s: State): set<Resource> {
    set c, r | c in s.claims && s.claims[c].state.Held? && r in s.claims[c].resources :: norm(r)
  }

  function OccupiedKeys(norm: Norm, s: State): set<Resource> {
    set r | r in s.reservations && Occupied(s.reservations[r].state) :: norm(Machine(s.reservations[r].machine))
  }

  /** Only lifecycle transactions and registration touch owners and lifecycle receipts. */
  predicate SameOwners(s: State, t: State) {
    t.owners == s.owners && t.lifecycles == s.lifecycles
  }

  /** Only owner requests touch approvals, request receipts and the machine frontier. */
  predicate SameRecords(s: State, t: State) {
    t.approvals == s.approvals && t.receipts == s.receipts && t.frontier == s.frontier
  }

  // ---------------------------------------------------------------- events and job transitions

  /** One semantic event per identity; items routed to a background integration stay silent. */
  function Announce(owners: map<Id, Owner>, outbox: map<EventId, Event>, owner: Id, id: EventId,
      routed: set<Id>): (r: map<EventId, Event>)
    requires owner in owners
    ensures r == outbox || (id !in outbox && r == outbox[id := Event(owner, Pending)])
  {
    if !owners[owner].thread || id.item in routed || id in outbox then outbox else outbox[id := Event(owner, Pending)]
  }

  predicate KnownJob(s: State, j: Id) {
    j in s.jobs && s.jobs[j].owner in s.owners
  }

  function Moved(job: Job, state: JobState, reason: Option<string>): Job {
    if job.state == state && job.reason == reason then job
    else job.(state := state, reason := reason, revision := job.revision + 1)
  }

  function Transition(s: State, j: Id, state: JobState, reason: Option<string>, routed: set<Id>): (r: State)
    requires KnownJob(s, j)
    ensures SameOwners(s, r) && SameRecords(s, r)
  {
    Replace(s, j, s.jobs[j], state, reason, routed)
  }

  /** Store the changed fields of a job and move it to a state, announcing the move. */
  function Replace(s: State, j: Id, job: Job, state: JobState, reason: Option<string>, routed: set<Id>): (r: State)
    requires job.owner in s.owners
    ensures SameOwners(s, r) && SameRecords(s, r)
  {
    s.(jobs := s.jobs[j := Moved(job, state, reason)],
       outbox := if Announced(state) && !(job.state == state && job.reason == reason)
                 then Announce(s.owners, s.outbox, job.owner,
                   EventId(job.owner, j, Some(job.snapshot.id), OfJob(state)), routed)
                 else s.outbox)
  }

  // ---------------------------------------------------------------- scheduling steps

  predicate Approved(s: State, job: Job) {
    && job.approval in s.approvals
    && var a := s.approvals[job.approval];
    && a.owner == job.owner
    && (if job.kind.Merge? then !a.deploy && (job.snapshot.repository, job.snapshot.target) in a.merges
        else
          && job.reservation.Some? && job.reservation.value in s.reservations
          && a.deploy
          && exists m :: m in a.machines && !m.reboot && job.kind in m.actions &&
               m.machine == s.reservations[job.reservation.value].machine)
    && (a.reviewed == job.snapshot.id || (a.iteration.Some? && a.iteration.value != ""
      && a.iteration == job.snapshot.changeScope))
  }

  predicate DependenciesDone(s: State, job: Job) {
    forall d :: d in job.dependsOn ==> d in s.jobs && s.jobs[d].state.Succeeded?
  }

  function SameMachine(norm: Norm, s: State, r: Id): set<Id>
    requires r in s.reservations
  {
    set q | q in s.reservations && q != r
      && norm(Machine(s.reservations[q].machine)) == norm(Machine(s.reservations[r].machine))
  }

  /** Move a job between the states that own nothing. */
  predicate CanPark(s: State, j: Id, state: JobState) {
    && KnownJob(s, j)
    && !Terminal(s.jobs[j].state) && !Active(s.jobs[j].state)
    && !Terminal(state) && !Active(state)
  }

  /** Give a job its place in the ready order, once. */
  function Enqueue(s: State, j: Id): (r: State)
    requires j in s.jobs
    ensures SameOwners(s, r) && SameRecords(s, r)
  {
    if s.jobs[j].readySequence.Some? then s
    else s.(jobs := s.jobs[j := s.jobs[j].(readySequence := Some(s.next))], next := s.next + 1)
  }

  /** What makes it safe to let a job own its resources. */
  predicate CanGrant(norm: Norm, s: State, j: Id) {
    && KnownJob(s, j)
    && var job := s.jobs[j];
    && !Terminal(job.state) && !Active(job.state)
    && s.owners[job.owner].fence.None? && Approved(s, job) && DependenciesDone(s, job)
    && Keys(norm, job.resources) !! ActiveKeys(norm, s) + HeldKeys(norm, s)
    && (job.reservation.Some? ==>
          && job.reservation.value in s.reservations
          && !s.reservations[job.reservation.value].state.BlockedRecovery?
          && !s.reservations[job.reservation.value].state.Released?
          && forall q :: q in SameMachine(norm, s, job.reservation.value) ==> !Occupied(s.reservations[q].state))
  }

  function ReservedFor(reservations: map<Id, Reservation>, r: Option<Id>): map<Id, Reservation> {
    if r.None? || r.value !in reservations || !reservations[r.value].state.Requested? then reservations
    else reservations[r.value := reservations[r.value].(state := Reserved,
      revision := reservations[r.value].revision + 1)]
  }

  /** The job owns its resources; its requested reservation becomes reserved and is announced. */
  function Grant(s: State, j: Id, attempt: Id, routed: set<Id>): (r: State)
    requires KnownJob(s, j)
    ensures SameOwners(s, r) && SameRecords(s, r)
  {
    var job := s.jobs[j];
    s.(jobs := s.jobs[j := Moved(job.(attempt := Some(attempt)), Claimed, None)],
       reservations := ReservedFor(s.reservations, job.reservation),
       outbox := if ReservedFor(s.reservations, job.reservation) == s.reservations then s.outbox
                 else Announce(s.owners, s.outbox, job.owner, EventId(job.owner, job.reservation.value, None, OnHeld),
                   routed))
  }

  // ---------------------------------------------------------------- attempts

  function Settled(outcome: Outcome): JobState {
    match outcome
    case Applied => Succeeded
    case BaselineChanged => NeedsRefresh
    case NotApplied => Failed
    case Unknown => Reconciling
  }

  /** Index of the history record of an attempt, or the length of the history. */
  function FindRecord(history: seq<Record>, attempt: Id): (i: nat)
    ensures i <= |history|
    ensures i < |history| ==> history[i].attempt == attempt
    ensures forall k :: 0 <= k < i ==> history[k].attempt != attempt
  {
    if history == [] || history[0].attempt == attempt then 0 else 1 + FindRecord(history[1..], attempt)
  }

  predicate AnyUnknown(history: seq<Record>) {
    exists i :: 0 <= i < |history| && history[i].outcome.Unknown?
  }

  /** The deployment history after an attempt that applied or may have applied. */
  function Recorded(v: Reservation, record: Record): Result<Reservation> {
    var i := FindRecord(v.history, record.attempt);
    if i == |v.history| then
      Success(v.(history := v.history + [record], state := if record.outcome.Applied? then DeployedReview
        else BlockedRecovery,
                 revision := v.revision + 1))
    else if v.history[i].outcome == record.outcome then Success(v)
    else if !v.history[i].outcome.Unknown? || !record.outcome.Applied? || v.history[i].disposed then
      Refused("deployment history has an unsupported repeated disposition")
    else
      var h := v.history[i := v.history[i].(outcome := record.outcome, disposed := true)];
      Success(v.(history := h, state := if AnyUnknown(h) then BlockedRecovery else DeployedReview,
        revision := v.revision + 1))
  }

  predicate CurrentAttempt(s: State, j: Id, attempt: Id) {
    KnownJob(s, j) && s.jobs[j].attempt == Some(attempt) && Active(s.jobs[j].state)
  }

  function SettledReservations(s: State, job: Job, attempt: Id, outcome: Outcome): Result<map<Id, Reservation>> {
    if job.reservation.None? || job.reservation.value !in s.reservations || !(outcome.Applied? || outcome.Unknown?)
      then Success(s.reservations)
    else
      match Recorded(s.reservations[job.reservation.value],
        Record(attempt, job.kind, job.snapshot.coverage, outcome, false))
      case Refused(e) => Refused(e)
      case Success(v) => Success(s.reservations[job.reservation.value := v])
  }

  function Settle(s: State, j: Id, attempt: Id, outcome: Outcome, error: Option<string>,
      routed: set<Id>): (r: Result<State>)
    ensures r.Success? ==> SameOwners(s, r.value) && SameRecords(s, r.value)
  {
    if !CurrentAttempt(s, j, attempt) then Refused("attempt is not current")
    else
      match SettledReservations(s, s.jobs[j], attempt, outcome)
      case Refused(e) => Refused(e)
      case Success(rs) =>
        Success(Replace(s.(reservations := rs), j, s.jobs[j].(result := Some(outcome)), Settled(outcome), error,
          routed))
  }

  // ---------------------------------------------------------------- owner requests

  /**
   What a request needs from outside the ledger: fresh identities, prepared resources, Git proofs, free capacity, and
   whether the journal of a background integration agrees with an acknowledgement.
   */
  datatype Outside = Outside(minted: seq<Id>, resources: seq<seq<Resource>>, proofs: set<Integrated>, capacity: bool,
    routed: set<Id>, agreed: bool)

  predicate FreshId(s: State, id: Id) {
    id !in s.jobs && id !in s.reservations && id !in s.approvals
  }

  function Resolve(deps: seq<Dependency>, ids: map<string, Id>): Option<seq<Id>> {
    if deps == [] then Some([])
    else
      var rest := Resolve(deps[1..], ids);
      var head := match deps[0] case Known(id) => Some(id) case Keyed(k) => if k in ids then Some(ids[k]) else None;
      if head.None? || rest.None? then None else Some([head.value] + rest.value)
  }

  predicate Distinct<T(==)>(xs: seq<T>) {
    forall i, k :: 0 <= i < k < |xs| ==> xs[i] != xs[k]
  }

  const MaxPending := 4096

  function PendingJobs(s: State): set<Id> {
    set j | j in s.jobs && !Terminal(s.jobs[j].state)
  }

  predicate CanCreate(s: State, owner: Id, draft: Draft, dependsOn: seq<Id>, resources: seq<Resource>) {
    && |PendingJobs(s)| < MaxPending
    && Distinct(dependsOn) && (forall d :: d in dependsOn ==> d in s.jobs && s.jobs[d].owner == owner)
    && (if draft.kind.Merge? then draft.reservation.None?
        else
          && draft.reservation.Some? && draft.reservation.value in s.reservations
          && s.reservations[draft.reservation.value].owner == owner
          && !s.reservations[draft.reservation.value].state.Released?
          && Machine(s.reservations[draft.reservation.value].machine) in resources)
    && Distinct(resources)
  }

  function CreateJob(s: State, owner: Id, draft: Draft, dependsOn: seq<Id>, resources: seq<Resource>, id: Id): State {
    s.(jobs := s.jobs[id := Job(owner, draft.kind, dependsOn, draft.approval, draft.reservation, draft.snapshot,
      resources,
                                WaitingApproval, None, 1, s.next, None, None, None)],
       next := s.next + 1)
  }

  /** Drafts in order; a dependency may name the key of an earlier draft. */
  function CreateJobs(s: State, owner: Id, drafts: seq<Draft>, ids: map<string, Id>, minted: seq<Id>,
      resources: seq<seq<Resource>>): (r: Result<(State, seq<Id>)>)
    ensures r.Success? ==> r.value.0 == s.(jobs := r.value.0.jobs, next := r.value.0.next)
    decreases drafts
  {
    if drafts == [] then Success((s, []))
    else if minted == [] || resources == [] || !FreshId(s, minted[0]) then Refused("no fresh identity")
    else
      var deps := Resolve(drafts[0].dependsOn, ids);
      if deps.None? || !CanCreate(s, owner, drafts[0], deps.value, resources[0]) then Refused("invalid operation")
      else
        var s1 := CreateJob(s, owner, drafts[0], deps.value, resources[0], minted[0]);
        match CreateJobs(s1, owner, drafts[1..], ids[drafts[0].key := minted[0]], minted[1..], resources[1..])
        case Refused(e) => Refused(e)
        case Success(v) => Success((v.0, [minted[0]] + v.1))
  }

  function OwnReservations(s: State, owner: Id, machine: string): set<Id> {
    set r | r in s.reservations && s.reservations[r].owner == owner && s.reservations[r].machine == machine
      && !s.reservations[r].state.Released?
  }

  /** The last history record of a kind names what that surface now covers. */
  function LastCoverage(history: seq<Record>, kind: Kind): set<string> {
    if history == [] then {}
    else if history[|history| - 1].kind == kind then history[|history| - 1].coverage
    else LastCoverage(history[..|history| - 1], kind)
  }

  function Additions(history: seq<Record>, proofs: set<Integrated>): set<FrontierItem> {
    set k, p |
      k in {Merge, MachineActivate, ProfileActivate} && p in proofs && p.repository in LastCoverage(history, k) ::
      FrontierItem(p, k)
  }

  function FrontierAt(s: State, machine: string): set<FrontierItem> {
    if machine in s.frontier then s.frontier[machine] else {}
  }

  function ReserveMachine(s: State, owner: Id, machine: string, approval: Id, minted: seq<Id>): Result<(State, Reply)> {
    if approval !in s.approvals || s.approvals[approval].owner != owner || !s.approvals[approval].deploy then
      Refused("machine reservation requires the owner deployment approval")
    else if !exists m :: m in s.approvals[approval].machines && m.machine == machine then
      Refused("deployment approval does not cover this machine")
    else if |minted| != 1 || !FreshId(s, minted[0]) then Refused("no fresh identity")
    else if r :| r in s.reservations && OwnReservations(s, owner, machine) == {r} then
      Success((s, Reply(r, s.reservations[r].revision)))
    else if OwnReservations(s, owner, machine) != {} then Refused("ambiguous reservation")
    else
      Success((s.(reservations := s.reservations[minted[0] := Reservation(owner, machine, Requested, 1, s.next, [])],
        next := s.next + 1),
               Reply(minted[0], 1)))
  }

  /** A job its owner may still cancel or refresh. */
  predicate Changeable(s: State, owner: Id, j: Id, expected: nat) {
    && KnownJob(s, j) && s.jobs[j].owner == owner && s.jobs[j].revision == expected
    && !Active(s.jobs[j].state) && !Terminal(s.jobs[j].state)
  }

  function RefreshJob(s: State, j: Id, snapshot: Snapshot, approval: Id, resources: seq<Resource>,
      routed: set<Id>): State
    requires KnownJob(s, j)
  {
    Replace(s, j, s.jobs[j].(snapshot := snapshot, resources := resources, approval := approval, readySequence := None),
      WaitingApproval, None, routed)
  }

  predicate CanFinish(s: State, owner: Id, r: Id, expected: nat) {
    && r in s.reservations && s.reservations[r].owner == owner && s.reservations[r].revision == expected
    && !s.reservations[r].state.Released? && !s.reservations[r].state.BlockedRecovery?
    && forall j :: j in s.jobs && s.jobs[j].owner == owner ==> Terminal(s.jobs[j].state)
  }

  function FinishReservation(s: State, owner: Id, r: Id, proofs: set<Integrated>, routed: set<Id>): State
    requires r in s.reservations && owner in s.owners
  {
    var v := s.reservations[r];
    s.(reservations := s.reservations[r := v.(state := Released, revision := v.revision + 1)],
       frontier := s.frontier[v.machine := FrontierAt(s, v.machine) + Additions(v.history, proofs)],
       outbox := Announce(s.owners, s.outbox, owner, EventId(owner, r, None, OnReleased), routed))
  }

  function Effect(s: State, owner: Id, action: Action, out: Outside): Result<(State, Reply)>
    requires owner in s.owners
  {
    match action
    case Approve(deploy, merges, machines, reviewed, iteration) =>
      if |out.minted| != 1 || !FreshId(s, out.minted[0]) then Refused("no fresh identity")
      else Success((s.(approvals := s.approvals[out.minted[0] := Approval(owner, deploy, merges, machines, reviewed,
        iteration)]), Reply(out.minted[0], 1)))
    case Reserve(machine, approval) => ReserveMachine(s, owner, machine, approval, out.minted)
    case Submit(draft) =>
      (match CreateJobs(s, owner, [draft], map[], out.minted, out.resources)
       case Refused(e) => Refused(e)
       case Success(v) => if |v.1| == 1 then Success((v.0, Reply(v.1[0], 1))) else Refused("no fresh identity"))
    case SubmitBatch(drafts) =>
      (match CreateJobs(s, owner, drafts, map[], out.minted, out.resources)
       case Refused(e) => Refused(e)
       case Success(v) => Success((v.0, BatchReply(v.1))))
    case Cancel(j, expected, reason) =>
      if Changeable(s, owner, j, expected) then Success((Transition(s, j, Canceled, Some(reason), out.routed),
        Reply(j, expected + 1))) else Refused("operation cannot be canceled")
    case Refresh(j, expected, snapshot, approval) =>
      if Changeable(s, owner, j, expected) && |out.resources| == 1 && Distinct(out.resources[0]) then
        var t := RefreshJob(s, j, snapshot, approval, out.resources[0], out.routed);
        Success((t, Reply(j, t.jobs[j].revision)))
      else Refused("operation cannot be refreshed")
    case Finish(r, expected, final) =>
      if CanFinish(s, owner, r, expected) then Success((FinishReservation(s, owner, r, out.proofs, out.routed),
        Reply(r, expected + 1)))
      else Refused("reservation cannot be released")
    case Acknowledge(event) => if out.agreed then Success((s, Acknowledged(event))) else Refused("another action")
    case Bootstrap(jobs) => Success((s, BatchReply(jobs)))
  }

  /** A request identity is used once; its receipt answers every later use. */
  function Perform(s: State, owner: Id, request: Id, action: Action, out: Outside): (State, Result<Reply>) {
    if request in s.receipts then
      if s.receipts[request].owner == owner && s.receipts[request].action == action
        then (s, Success(s.receipts[request].reply))
      else (s, Refused("requestId was reused for different input"))
    else if owner !in s.owners || s.owners[owner].fence.Some?
      then (s, Refused("session is fenced by a lifecycle operation"))
    else
      match Effect(s, owner, action, out)
      case Refused(e) => (s, Refused(e))
      case Success((s1, reply)) =>
        if !action.Cancel? && !action.Finish? && !out.capacity
          then (s, Refused("coordination admission capacity exhausted"))
        else (s1.(receipts := s1.receipts[request := Receipt(owner, action, reply)]), Success(reply))
  }

  // ---------------------------------------------------------------- lifecycle fences

  predicate IdleOwners(s: State, ids: set<Id>) {
    && (forall c :: c in s.claims && s.claims[c].owner in ids ==> !s.claims[c].state.Held?)
    && (forall j :: j in s.jobs && s.jobs[j].owner in ids ==> !Active(s.jobs[j].state))
    && (forall r :: r in s.reservations && s.reservations[r].owner in ids && !s.reservations[r].state.Released? ==>
      !AnyUnknown(s.reservations[r].history))
  }

  function FencedReservation(v: Reservation, command: Command): ReservationState {
    if command.Archive? then if v.state.Requested? then Requested else BlockedRecovery
    else if v.history == [] then Released else BlockedRecovery
  }

  function CanceledJobs(jobs: map<Id, Job>, o: Id): map<Id, Job> {
    map j | j in jobs ::
      if jobs[j].owner == o && !Terminal(jobs[j].state)
        then jobs[j].(state := Canceled, revision := jobs[j].revision + 1) else jobs[j]
  }

  function FencedReservations(reservations: map<Id, Reservation>, o: Id, command: Command): map<Id, Reservation> {
    map r | r in reservations ::
      if reservations[r].owner == o && !reservations[r].state.Released? then
        reservations[r].(state := FencedReservation(reservations[r], command), revision := reservations[r].revision + 1)
      else reservations[r]
  }

  function ParkedEvents(outbox: map<EventId, Event>, o: Id): map<EventId, Event> {
    map e | e in outbox :: if outbox[e].owner == o && !outbox[e].state.Delivered? then outbox[e].(state := Parked)
      else outbox[e]
  }

  function RaisedFence(fence: Option<Fence>, command: Command): Fence {
    if fence.Some? && fence.value.command == command then fence.value else Fence(command, false, None)
  }

  function FenceOwner(s: State, o: Id, command: Command): (r: State)
    requires o in s.owners
    ensures SameRecords(s, r)
  {
    s.(owners := s.owners[o := s.owners[o].(fence := Some(RaisedFence(s.owners[o].fence, command)))],
       jobs := CanceledJobs(s.jobs, o),
       reservations := FencedReservations(s.reservations, o, command),
       outbox := ParkedEvents(s.outbox, o))
  }

  function FenceOwners(s: State, ids: seq<Id>, command: Command): (r: Result<State>)
    ensures r.Success? ==> SameRecords(s, r.value)
    decreases ids
  {
    if ids == [] then Success(s)
    else if ids[0] !in s.owners then Refused("unknown owner")
    else
      var f := s.owners[ids[0]].fence;
      if f.Some? && f.value.command != command && !f.value.completed
        then Refused("coordination lifecycle intent requires another command")
      else FenceOwners(FenceOwner(s, ids[0], command), ids[1..], command)
  }

  /** Waiting claims of a fenced owner are withdrawn at the end of every ledger transaction. */
  function Sync(s: State): (r: State)
    ensures SameOwners(s, r) && SameRecords(s, r)
  {
    s.(claims := WithdrawnClaims(s.owners, s.claims))
  }

  function WithdrawnClaims(owners: map<Id, Owner>, claims: map<Id, Claim>): map<Id, Claim> {
    map c | c in claims ::
      if claims[c].state.Waiting? && claims[c].owner in owners && owners[claims[c].owner].fence.Some? then
        claims[c].(state := Withdrawn, notify := false, revision := claims[c].revision + 1)
      else claims[c]
  }

  function BoundFences(s: State, ids: seq<Id>, operation: Id): (r: Result<State>)
    ensures r.Success? ==> SameRecords(s, r.value)
    decreases ids
  {
    if ids == [] then Success(s)
    else if ids[0] !in s.owners || s.owners[ids[0]].fence.None? then Refused("missing fence")
    else
      var owner := s.owners[ids[0]];
      if owner.fence.value.operation.Some? && owner.fence.value.operation != Some(operation) then
        Refused("lifecycle fence belongs to another operation")
      else
        BoundFences(s.(owners := s.owners[ids[0] := owner.(fence := Some(owner.fence.value.(operation :=
          Some(operation))))]), ids[1..], operation)
  }

  function Bindings(s: State, ids: seq<Id>): seq<Binding>
    requires forall i :: i in ids ==> i in s.owners
  {
    seq(|ids|, k requires 0 <= k < |ids| => Binding(ids[k], s.owners[ids[k]].identity))
  }

  /** Fence the given incarnations for one archive or delete operation and record its receipt. */
  function BindLifecycle(s: State, workspace: string, slug: string, command: Command, operation: Id, ids: seq<Id>,
      capacity: bool): (r: Result<State>)
    ensures r.Success? ==> SameRecords(s, r.value)
  {
    if operation in s.lifecycles then
      if s.lifecycles[operation].workspace == workspace && s.lifecycles[operation].slug == slug
        && s.lifecycles[operation].command == command
      then Success(Sync(s)) else Refused("lifecycle receipt identity changed")
    else if ids == [] then Success(Sync(s))
    else if command.Revive? || !Distinct(ids) || !IdleOwners(s, set i | i in ids)
      then Refused("lifecycle waits for coordinated work")
    else
      match FenceOwners(s, ids, command)
      case Refused(e) => Refused(e)
      case Success(s1) =>
        match BoundFences(s1, ids, operation)
        case Refused(e) => Refused(e)
        case Success(s2) =>
          if !capacity || exists i :: i in ids && i !in s2.owners
            then Refused("coordination admission capacity exhausted")
          else Success(Sync(s2.(lifecycles := s2.lifecycles[operation := Lifecycle(workspace, slug, command,
            Bindings(s2, ids), None, false)])))
  }

  function BindRevival(s: State, workspace: string, slug: string, operation: Id, archive: Id,
      capacity: bool): (r: Result<State>)
    ensures r.Success? ==> SameRecords(s, r.value)
  {
    if operation in s.lifecycles then
      if s.lifecycles[operation].workspace == workspace && s.lifecycles[operation].slug == slug
        && s.lifecycles[operation].command.Revive?
      then Success(Sync(s)) else Refused("revival receipt identity changed")
    else if archive !in s.lifecycles then Success(Sync(s))
    else
      var a := s.lifecycles[archive];
      if !a.completed || a.workspace != workspace || a.slug != slug || !a.command.Archive?
        then Refused("revival archive identity changed")
      else if !capacity then Refused("coordination admission capacity exhausted")
      else Success(Sync(s.(lifecycles := s.lifecycles[operation := Lifecycle(workspace, slug, Revive, a.owners,
        Some(archive), false)])))
  }

  function ReleasedReservations(reservations: map<Id, Reservation>, o: Id): map<Id, Reservation> {
    map r | r in reservations ::
      if reservations[r].owner == o && !reservations[r].state.Released? then
        reservations[r].(state := Released, revision := reservations[r].revision + 1)
      else reservations[r]
  }

  function Completed(owners: map<Id, Owner>, o: Id): map<Id, Owner>
    requires o in owners && owners[o].fence.Some?
  {
    owners[o := owners[o].(fence := Some(owners[o].fence.value.(completed := true)))]
  }

  function CompleteOwner(s: State, o: Id, command: Command): (r: State)
    requires o in s.owners && s.owners[o].fence.Some?
    ensures SameRecords(s, r)
  {
    s.(owners := Completed(s.owners, o),
       reservations := if command.Archive? then ReleasedReservations(s.reservations, o) else s.reservations)
  }

  /** Complete the fences of the bound incarnations; an archive also releases their reservations. */
  function CompleteOwners(s: State, bindings: seq<Binding>, command: Command, operation: Id,
      done: bool): (r: Result<State>)
    ensures r.Success? ==> SameRecords(s, r.value)
    decreases bindings
  {
    if bindings == [] then Success(s)
    else
      var b := bindings[0];
      if b.id !in s.owners then Refused("unknown owner")
      else
        var owner := s.owners[b.id];
        if owner.identity != b.identity || owner.fence.None? || owner.fence.value.operation != Some(operation) then
          if done then CompleteOwners(s, bindings[1..], command, operation, done)
            else Refused("lifecycle completion owner changed")
        else if command.Archive? && !IdleOwners(s, {b.id}) then Refused("lifecycle waits for coordinated work")
        else CompleteOwners(CompleteOwner(s, b.id, command), bindings[1..], command, operation, done)
  }

  function CompleteLifecycle(s: State, workspace: string, slug: string, command: Command,
      operation: Id): (r: Result<State>)
    ensures r.Success? ==> SameRecords(s, r.value)
  {
    if operation !in s.lifecycles then Success(Sync(s))
    else
      var l := s.lifecycles[operation];
      if l.workspace != workspace || l.slug != slug || l.command != command
        then Refused("lifecycle completion identity changed")
      else
        match CompleteOwners(s, l.owners, command, operation, l.completed)
        case Refused(e) => Refused(e)
        case Success(s1) => Success(Sync(s1.(lifecycles := s1.lifecycles[operation := l.(completed := true)])))
  }

  function ReleasedEvents(outbox: map<EventId, Event>, o: Id): map<EventId, Event> {
    map e | e in outbox :: if outbox[e].owner == o && outbox[e].state.Parked? then outbox[e].(state := Pending)
      else outbox[e]
  }

  function ReviveOwner(s: State, o: Id): (r: State)
    requires o in s.owners
    ensures SameRecords(s, r)
  {
    s.(owners := s.owners[o := s.owners[o].(fence := None)], outbox := ReleasedEvents(s.outbox, o))
  }

  function ReviveOwners(s: State, bindings: seq<Binding>, archive: Option<Id>): (r: Result<State>)
    ensures r.Success? ==> SameRecords(s, r.value) && r.value.owners.Keys == s.owners.Keys
    decreases bindings
  {
    if bindings == [] then Success(s)
    else
      var b := bindings[0];
      if b.id !in s.owners then Refused("unknown owner")
      else
        var owner := s.owners[b.id];
        if owner.identity != b.identity || owner.fence.None? || owner.fence.value.operation != archive
          || !owner.fence.value.completed then
          Refused("revival owner incarnation changed")
        else ReviveOwners(ReviveOwner(s, b.id), bindings[1..], archive)
  }

  function Revived(s: State, workspace: string, slug: string, operation: Id): (r: Result<State>)
    ensures r.Success? ==> SameRecords(s, r.value)
  {
    if operation !in s.lifecycles then Success(Sync(s))
    else
      var l := s.lifecycles[operation];
      if l.workspace != workspace || l.slug != slug || !l.command.Revive?
        then Refused("revival receipt identity changed")
      else if l.completed then Success(Sync(s))
      else
        match ReviveOwners(s, l.owners, l.archive)
        case Refused(e) => Refused(e)
        case Success(s1) => Success(Sync(s1.(lifecycles := s1.lifecycles[operation := l.(completed := true)])))
  }

  // ---------------------------------------------------------------- notification delivery

  function Deliver(s: State, e: EventId): (r: State)
    ensures SameOwners(s, r) && SameRecords(s, r)
  {
    if e in s.outbox then s.(outbox := s.outbox[e := s.outbox[e].(state := Delivered)]) else s
  }

  /** A failed delivery is retried later unless the event was parked meanwhile. */
  function DeliveryFailed(s: State, e: EventId): (r: State)
    ensures SameOwners(s, r) && SameRecords(s, r)
  {
    if e in s.outbox && !s.outbox[e].state.Parked? then s.(outbox := s.outbox[e := s.outbox[e].(state := Retry)]) else s
  }

  /** The notice that a generation of a background integration is complete or needs attention. */
  function NotifyRun(s: State, owner: Id, run: Id, generation: Id, complete: bool): (r: State)
    ensures SameOwners(s, r) && SameRecords(s, r)
  {
    if !LiveOwner(s, owner) then s
    else
      s.(outbox := Announce(s.owners, s.outbox, owner, EventId(owner, run, Some(generation), OfRun(complete)), {}))
  }

  /** A delivered notice that nobody acknowledged is sent again while its owner is live. */
  function Remind(s: State, e: EventId): (r: State)
    ensures SameOwners(s, r) && SameRecords(s, r)
  {
    if e in s.outbox && s.outbox[e].state.Delivered? && LiveOwner(s, s.outbox[e].owner)
    then s.(outbox := s.outbox[e := s.outbox[e].(state := Retry)]) else s
  }

  // ---------------------------------------------------------------- resource claims

  predicate LiveOwner(s: State, owner: Id) {
    owner in s.owners && s.owners[owner].fence.None? && !s.suspended
  }

  /** Everything a new claim must not touch: active jobs, occupied machines, held claims. */
  function Busy(norm: Norm, s: State): set<Resource> {
    ActiveKeys(norm, s) + OccupiedKeys(norm, s) + HeldKeys(norm, s)
  }

  predicate Free(norm: Norm, s: State, c: Id)
    requires c in s.claims
  {
    Keys(norm, s.claims[c].resources) !! Busy(norm, s)
  }

  /** An earlier waiting claim that could itself be granted keeps its place. */
  predicate Overtakes(norm: Norm, s: State, c: Id, other: Id)
    requires c in s.claims && other in s.claims
  {
    && other != c && s.claims[other].state.Waiting? && s.claims[other].sequence < s.claims[c].sequence
    && Free(norm, s, other)
    && Keys(norm, s.claims[c].resources) * Keys(norm, s.claims[other].resources) != {}
  }

  predicate Blocked(norm: Norm, s: State, c: Id)
    requires c in s.claims
  {
    !Free(norm, s, c) || exists o :: o in s.claims && Overtakes(norm, s, c, o)
  }

  function NewClaim(s: State, owner: Id, id: Id, request: ClaimRequest, resources: seq<Resource>): State {
    s.(claims := s.claims[id := Claim(owner, request, resources, Waiting, 1, |s.claims| + 1, false)])
  }

  function SetHeld(s: State, c: Id, revision: nat, notify: bool): State
    requires c in s.claims
  {
    s.(claims := s.claims[c := s.claims[c].(state := Held, revision := revision, notify := notify)])
  }

  /**
   Acquire: the exact request is answered from its record, otherwise it is queued and granted when nothing blocks it.
   */
  function Acquire(norm: Norm, s: State, owner: Id, id: Id, request: ClaimRequest, resources: seq<Resource>, wait: bool,
      grant: bool, capacity: bool): (r: (State, Result<Claim>))
    ensures SameOwners(s, r.0) && SameRecords(s, r.0)
  {
    if !LiveOwner(s, owner) then (s, Refused("resource owner is fenced or coordination is suspended"))
    else if id in s.claims then
      if s.claims[id].owner == owner && s.claims[id].request == request then (s, Success(s.claims[id]))
      else (s, Refused("claim requestId reused with changed input or owner"))
    else
      var s1 := NewClaim(s, owner, id, request, resources);
      var blocked := !grant || Blocked(norm, s1, id);
      if blocked && !wait then (s, Refused("retained preparation waits for resource ownership"))
      else if !capacity then (s, Refused("coordination admission capacity exhausted"))
      else
        var s2 := if blocked then s1 else SetHeld(s1, id, 1, false);
        (s2, Success(s2.claims[id]))
  }

  /** Grant one waiting claim of a live owner when nothing blocks it. */
  function TickClaim(norm: Norm, s: State, owner: Id, c: Id): (r: State)
    ensures SameOwners(s, r) && SameRecords(s, r)
  {
    if !LiveOwner(s, owner) || c !in s.claims || s.claims[c].owner != owner || !s.claims[c].state.Waiting?
      || Blocked(norm, s, c) then s
    else SetHeld(s, c, s.claims[c].revision + 1, true)
  }

  /** Announce a granted claim, then forget that it is still to be announced. */
  function NotifyClaim(s: State, owner: Id, c: Id, routed: set<Id>): (r: State)
    ensures SameOwners(s, r) && SameRecords(s, r)
  {
    if !LiveOwner(s, owner) || c !in s.claims || !s.claims[c].state.Held? then s
    else s.(outbox := Announce(s.owners, s.outbox, owner, EventId(owner, c, None, OnHeld), routed))
  }

  function ClearNotification(s: State, c: Id): (r: State)
    ensures SameOwners(s, r) && SameRecords(s, r)
  {
    if c !in s.claims then s else s.(claims := s.claims[c := s.claims[c].(notify := false)])
  }

  function ChangeClaim(s: State, owner: Id, c: Id, release: bool): (r: (State, Result<Claim>))
    ensures SameOwners(s, r.0) && SameRecords(s, r.0)
  {
    if !LiveOwner(s, owner) then (s, Refused("resource owner is fenced or coordination is suspended"))
    else if c !in s.claims || s.claims[c].owner != owner
      then (s, Refused("claim belongs to another session incarnation"))
    else
      var item := s.claims[c];
      var destination := if release then Dropped else Withdrawn;
      if item.state == destination then (s, Success(item))
      else if item.state != (if release then Held else Waiting) then (s, Refused("claim is in another state"))
      else
        var changed := item.(state := destination, notify := false, revision := item.revision + 1);
        (s.(claims := s.claims[c := changed]), Success(changed))
  }
}
