/**
 The byte reserve of the ledger (recovery_growth and admission_capacity! in
 libexec/workspace-coordination.rb) on encoded sizes. Admission leaves room for what an
 accepted operation may still add without being admitted again.
 */
module RecoveryReserve {
  import opened Wrappers

  const MAX_LEDGER: nat := 16 * 1024 * 1024
  const RESERVE: nat := 2 * 1024 * 1024
  const MAX_RESULT: nat := 16 * 1024

  /** Largest size of the counters, state and attempt of one record, and of the counters at the top of the ledger. */
  const MAX_MISC: nat := 512
  const MAX_TOP: nat := 64

  /** Bytes of an event or receipt beside its own text: its key and the punctuation around it. */
  const EVENT_KEY: nat := 64
  const RECEIPT_KEY: nat := 256

  /** An event: its text and identities, its state and counters, its three sealed artifacts, and its last error. */
  const MAX_TEXT: nat := 6144
  const EVENT_MISC: nat := 64
  const SEALED: nat := 256
  const MAX_ERROR: nat := 4096 + 16

  /** The most bytes a new event comes to occupy. */
  const EVENT_CEILING: nat := EVENT_KEY + MAX_TEXT + EVENT_MISC + SEALED + MAX_ERROR

  /** Waiting or ready; claimed or running; reconciling; needing a refresh; terminal. */
  datatype Stage = Queued | Active | Uncertain | Outdated | Ended

  /** The announced states that already have an event for the current snapshot. */
  datatype Said = Said(ready: bool, outdated: bool, uncertain: bool, succeeded: bool, failed: bool)

  /**
   Encoded sizes of a job. `misc` is its state, counters and attempt; `record` the history record of its attempt. Events
   go to an owner with a thread, unless a background integration takes them.
   */
  datatype JobSize = JobSize(
    fixed: nat, misc: nat, result: nat, reason: nat, stage: Stage, deploys: bool, skeleton: nat, record: Option<nat>,
    thread: bool, routed: bool, said: Said)

  datatype Hold = Requested | Owned | Released

  /** Encoded sizes of a reservation; `proofs` bounds the proofs for deployed inputs its owner does not own. */
  datatype ReservationSize = ReservationSize(
    fixed: nat, misc: nat, hold: Hold, proofs: nat, thread: bool, routed: bool, heldSaid: bool, releasedSaid: bool)

  datatype EventSize = EventSize(text: nat, misc: nat, sealed: nat, error: nat, key: nat, delivered: bool)

  datatype Sizes = Sizes(
    fixed: nat, top: nat, jobs: seq<JobSize>, reservations: seq<ReservationSize>, events: seq<EventSize>,
    receipts: seq<nat>,
    claims: nat,             // claims whose grant is still to be announced; they are kept in another file
    runs: nat,               // announcements that unfinished background integrations may make in their generation
    open: bool)              // some background integration is unfinished

  function SumOf<T>(xs: seq<T>, f: T -> nat): nat {
    if xs == [] then 0 else f(xs[0]) + SumOf(xs[1..], f)
  }

  lemma {:induction false} SumUpdate<T>(xs: seq<T>, i: nat, x: T, f: T -> nat)
    requires i < |xs|
    ensures SumOf(xs[i := x], f) + f(xs[i]) == SumOf(xs, f) + f(x)
  {
    if i > 0 {
      assert xs[i := x][1..] == xs[1..][i - 1 := x];
      SumUpdate(xs[1..], i - 1, x, f);
    } else {
      assert xs[i := x][1..] == xs[1..];
    }
  }

  lemma {:induction false} SumAppend<T>(xs: seq<T>, x: T, f: T -> nat)
    ensures SumOf(xs + [x], f) == SumOf(xs, f) + f(x)
  {
    if xs == [] {
      assert ([] + [x])[1..] == [];
    } else {
      assert (xs + [x])[1..] == xs[1..] + [x];
      SumAppend(xs[1..], x, f);
    }
  }

  lemma {:induction false} SumBetween<T>(xs: seq<T>, f: T -> nat, g: T -> nat, h: T -> nat)
    requires forall i :: 0 <= i < |xs| ==> f(xs[i]) <= g(xs[i]) <= f(xs[i]) + h(xs[i])
    ensures SumOf(xs, f) <= SumOf(xs, g) <= SumOf(xs, f) + SumOf(xs, h)
  {
    if xs != [] {
      assert f(xs[0]) <= g(xs[0]) <= f(xs[0]) + h(xs[0]);
      SumBetween(xs[1..], f, g, h);
    }
  }

  lemma {:induction false} SumSame<T>(xs: seq<T>, f: T -> nat, g: T -> nat)
    requires forall i :: 0 <= i < |xs| ==> f(xs[i]) == g(xs[i])
    ensures SumOf(xs, f) == SumOf(xs, g)
  {
    if xs != [] {
      assert f(xs[0]) == g(xs[0]);
      SumSame(xs[1..], f, g);
    }
  }

  lemma {:induction false} SumConstant<T>(xs: seq<T>, x: T, f: T -> nat)
    requires forall i :: 0 <= i < |xs| ==> xs[i] == x
    ensures SumOf(xs, f) == |xs| * f(x)
  {
    if xs != [] {
      SumConstant(xs[1..], x, f);
    }
  }

  // ---------------------------------------------------------------- size and growth

  function RecordBytes(j: JobSize): nat {
    if j.record.Some? then j.record.value + 1 else 0
  }

  function JobBytes(j: JobSize): nat {
    j.fixed + j.misc + j.result + j.reason + RecordBytes(j)
  }

  function ReservationBytes(r: ReservationSize): nat {
    r.fixed + r.misc
  }

  function EventText(e: EventSize): nat {
    e.text + e.misc + e.sealed + e.error
  }

  function EventBytes(e: EventSize): nat {
    e.key + EventText(e)
  }

  function Itself(n: nat): nat {
    n
  }

  function Size(l: Sizes): nat {
    l.fixed + l.top + SumOf(l.jobs, JobBytes) + SumOf(l.reservations, ReservationBytes) + SumOf(l.events, EventBytes)
    + SumOf(l.receipts, Itself)
  }

  function Up(n: int): nat {
    if n > 0 then n else 0
  }

  function One(yes: bool): nat {
    if yes then 1 else 0
  }

  /** The announced states without an event. */
  function Unsaid(s: Said): nat {
    One(!s.ready) + One(!s.outdated) + One(!s.uncertain) + One(!s.succeeded) + One(!s.failed)
  }

  /** The amount one pending job is budgeted. */
  function JobGrowth(j: JobSize): nat {
    if j.stage.Ended? then 0
    else
      Up(MAX_RESULT - j.result) + Up(MAX_RESULT - j.reason) + MAX_RESULT + RECEIPT_KEY + 1024
      + (if j.deploys then Up(j.skeleton + 2 * MAX_RESULT + 256 - if j.record.Some? then j.record.value else 0) else 0)
      + (if j.thread then Unsaid(j.said) else 0) * (MAX_RESULT + EVENT_KEY)
  }

  /** The proofs of a completion: those of the request, and those for inputs that are not owned. */
  function Proofs(r: ReservationSize): nat {
    2 * MAX_RESULT + r.proofs
  }

  function ReservationGrowth(r: ReservationSize): nat {
    if r.hold.Released? then 0
    else
      MAX_RESULT + 3 * Proofs(r) + MAX_RESULT + 256 + 1024
      + (if r.thread then One(!r.heldSaid) + One(!r.releasedSaid) else 0) * (MAX_RESULT + EVENT_KEY)
  }

  /** A delivered event is budgeted nothing. */
  function EventGrowth(e: EventSize): nat {
    if e.delivered then 0 else Up(MAX_RESULT - EventText(e))
  }

  /** recovery_growth */
  function Growth(l: Sizes): nat {
    SumOf(l.jobs, JobGrowth) + SumOf(l.reservations, ReservationGrowth) + SumOf(l.events, EventGrowth)
    + (l.claims + l.runs) * (MAX_RESULT + EVENT_KEY)
  }

  /** admission_capacity! */
  predicate Admitted(l: Sizes) {
    |l.receipts| <= 16384 && Size(l) + 1 + Growth(l) <= MAX_LEDGER - RESERVE
  }

  // ---------------------------------------------------------------- the ceiling

  /** A record as it is first entered, and what a later disposition of it adds. */
  function FreshRecord(j: JobSize): nat {
    j.skeleton + MAX_RESULT
  }

  const DISPOSITION: nat := MAX_RESULT + 256

  /** Field bounds that every written ledger was checked for; only a job that succeeded has a disposed record. */
  predicate JobBounded(j: JobSize) {
    && j.misc <= MAX_MISC && j.result <= MAX_RESULT && j.reason <= MAX_RESULT
    && (j.record.Some? ==>
          && j.deploys && j.record.value <= FreshRecord(j) + if j.stage.Ended? then DISPOSITION else 0)
  }

  predicate EventBounded(e: EventSize) {
    e.text <= MAX_TEXT && e.misc <= EVENT_MISC && e.sealed <= SEALED && e.error <= MAX_ERROR && e.key <= EVENT_KEY
  }

  predicate Bounded(l: Sizes) {
    && l.top <= MAX_TOP
    && (forall i :: 0 <= i < |l.jobs| ==> JobBounded(l.jobs[i]))
    && (forall i :: 0 <= i < |l.reservations| ==> l.reservations[i].misc <= MAX_MISC)
    && forall i :: 0 <= i < |l.events| ==> EventBounded(l.events[i])
  }

  /** An event is still to come for a state. */
  predicate Owed(thread: bool, routed: bool, said: bool) {
    thread && !routed && !said
  }

  predicate JobOwes(j: JobSize, said: bool) {
    Owed(j.thread, j.routed, said)
  }

  /** What a cancellation leaves of a job, with its receipt. */
  function CancelCeiling(j: JobSize): nat {
    j.fixed + MAX_MISC + j.result + MAX_RESULT + RecordBytes(j) + MAX_RESULT + RECEIPT_KEY
  }

  /**
   The most an attempt leaves behind: a last event for the lost worker, and then either a deployment found applied after
   all, with its disposition and its event, or a changed baseline, with its event and the receipt of a cancellation.
   */
  function AttemptCeiling(j: JobSize): nat {
    j.fixed + MAX_MISC + 2 * MAX_RESULT
    + (if !j.deploys then 0 else 1 + if j.record.Some? then j.record.value else FreshRecord(j))
    + MAX_RESULT + RECEIPT_KEY
    + (One(JobOwes(j, j.said.uncertain)) + One(Concluding(j))) * EVENT_CEILING
  }

  predicate Concluding(j: JobSize) {
    JobOwes(j, j.said.outdated) || (j.deploys && JobOwes(j, j.said.succeeded))
  }

  /** The most bytes a job can still come to occupy, with its events and receipt. */
  function JobCeiling(j: JobSize): nat {
    match j.stage
    case Ended => JobBytes(j)
    case Outdated => CancelCeiling(j)
    case Queued =>
      if j.record.Some? then CancelCeiling(j)
      else AttemptCeiling(j) + One(JobOwes(j, j.said.ready)) * EVENT_CEILING
    case _ => AttemptCeiling(j)
  }

  predicate OwesHeld(r: ReservationSize) {
    r.hold.Requested? && Owed(r.thread, r.routed, r.heldSaid)
  }

  predicate OwesReleased(r: ReservationSize) {
    Owed(r.thread, r.routed, r.releasedSaid)
  }

  /** The same for a reservation: its completion, what that adds to the frontier, and its receipt. */
  function ReservationCeiling(r: ReservationSize): nat {
    if r.hold.Released? then ReservationBytes(r)
    else
      r.fixed + MAX_MISC + MAX_RESULT + 3 * Proofs(r) + (MAX_RESULT + RECEIPT_KEY)
      + (One(OwesHeld(r)) + One(OwesReleased(r))) * EVENT_CEILING
  }

  function EventCeiling(e: EventSize): nat {
    e.key + e.text + EVENT_MISC + SEALED + MAX_ERROR
  }

  function Ceiling(l: Sizes): nat {
    l.fixed + MAX_TOP + SumOf(l.jobs, JobCeiling) + SumOf(l.reservations, ReservationCeiling)
    + SumOf(l.events, EventCeiling) + SumOf(l.receipts, Itself) + (l.claims + l.runs) * EVENT_CEILING
  }

  /** What a delivered event may still grow by, although nothing was budgeted for it. */
  function Unbudgeted(e: EventSize): nat {
    if e.delivered then Up(EventCeiling(e) - EventBytes(e)) else 0
  }

  function EventRoom(e: EventSize): nat {
    EventGrowth(e) + Unbudgeted(e)
  }

  lemma JobBetween(j: JobSize)
    requires JobBounded(j)
    ensures JobBytes(j) <= JobCeiling(j) <= JobBytes(j) + JobGrowth(j)
  {
  }

  lemma JobsBetween(jobs: seq<JobSize>)
    requires forall i :: 0 <= i < |jobs| ==> JobBounded(jobs[i])
    ensures SumOf(jobs, JobBytes) <= SumOf(jobs, JobCeiling) <= SumOf(jobs, JobBytes) + SumOf(jobs, JobGrowth)
  {
    hide SumOf, JobBounded, JobBytes, JobCeiling, JobGrowth;
    forall i | 0 <= i < |jobs|
      ensures JobBytes(jobs[i]) <= JobCeiling(jobs[i]) <= JobBytes(jobs[i]) + JobGrowth(jobs[i])
    {
      JobBetween(jobs[i]);
    }
    SumBetween(jobs, JobBytes, JobCeiling, JobGrowth);
  }

  lemma ReservationsBetween(reservations: seq<ReservationSize>)
    requires forall i :: 0 <= i < |reservations| ==> reservations[i].misc <= MAX_MISC
    ensures SumOf(reservations, ReservationBytes) <= SumOf(reservations, ReservationCeiling)
    ensures SumOf(reservations, ReservationCeiling)
            <= SumOf(reservations, ReservationBytes) + SumOf(reservations, ReservationGrowth)
  {
    SumBetween(reservations, ReservationBytes, ReservationCeiling, ReservationGrowth);
  }

  lemma EventsBetween(events: seq<EventSize>)
    requires forall i :: 0 <= i < |events| ==> EventBounded(events[i])
    ensures SumOf(events, EventBytes) <= SumOf(events, EventCeiling)
    ensures SumOf(events, EventCeiling)
            <= SumOf(events, EventBytes) + SumOf(events, EventGrowth) + SumOf(events, Unbudgeted)
  {
    forall i | 0 <= i < |events|
      ensures EventBytes(events[i]) <= EventCeiling(events[i]) <= EventBytes(events[i]) + EventRoom(events[i])
    {
      assert EventBounded(events[i]);
    }
    SumBetween(events, EventBytes, EventCeiling, EventRoom);
    SumSplit(events);
  }

  /** The ceiling is what admission checked, the counters at the top, and what delivered events may grow by. */
  lemma CeilingBetween(l: Sizes)
    requires Bounded(l)
    ensures Size(l) <= Ceiling(l) <= Size(l) + Growth(l) + MAX_TOP + SumOf(l.events, Unbudgeted)
  {
    hide SumOf, JobBounded, EventBounded;
    JobsBetween(l.jobs);
    ReservationsBetween(l.reservations);
    EventsBetween(l.events);
  }

  lemma {:induction false} SumSplit(events: seq<EventSize>)
    ensures SumOf(events, EventRoom) == SumOf(events, EventGrowth) + SumOf(events, Unbudgeted)
  {
    if events != [] {
      SumSplit(events[1..]);
    }
  }

  // ---------------------------------------------------------------- what needs no admission

  datatype Outcome = Applied | NotApplied | BaselineChanged | Unknown

  datatype Step =
    | CountUp(top: nat)
    | MoveJob(job: nat, stage: Stage, misc: nat, reason: nat, event: Option<EventSize>)
    | SettleJob(job: nat, outcome: Outcome, misc: nat, reason: nat, result: nat, record: Option<nat>,
        event: Option<EventSize>)
    | CancelJob(job: nat, misc: nat, reason: nat, receipt: nat)
    | FenceJob(job: nat, misc: nat)
    | HoldReservation(reservation: nat, misc: nat, event: Option<EventSize>)
    | TouchReservation(reservation: nat, misc: nat)
    | DropReservation(reservation: nat, misc: nat)
    | FinishReservation(reservation: nat, misc: nat, request: nat, proofs: nat, additions: nat, receipt: nat,
        event: Option<EventSize>)
    | AnnounceClaim(announcement: EventSize)
    | ForgetClaim
    | AnnounceRun(announcement: EventSize)
    | Resume  // an unfinished background integration starts a new generation, which is announced anew
    | Attend(place: nat, misc: nat, sealed: nat, error: nat, delivered: bool)  // prepare, deliver, fail or park
    | SendAgain(place: nat, misc: nat, error: nat)  // a delivered event is reminded of, or its delivery fails late

  predicate NewEvent(event: Option<EventSize>, owed: bool) {
    event.Some? ==> owed && !event.value.delivered && EventBounded(event.value)
  }

  /** The moves outside a settlement. A job whose attempt is in the history is not claimed again before its refresh. */
  predicate MayMove(j: JobSize, stage: Stage) {
    match j.stage
    case Queued => stage.Queued? || (j.record.None? && (stage.Active? || stage.Outdated?))
    case Active => stage.Active? || stage.Uncertain?
    case Uncertain => stage.Uncertain?
    case _ => false
  }

  /** The moves that are announced: to ready, to needing a refresh and to reconciling. */
  predicate MoveOwes(j: JobSize, stage: Stage) {
    match stage
    case Queued => j.record.None? && JobOwes(j, j.said.ready)
    case Outdated => JobOwes(j, j.said.outdated)
    case Uncertain => JobOwes(j, j.said.uncertain)
    case _ => false
  }

  predicate OutcomeOwes(j: JobSize, outcome: Outcome) {
    match outcome
    case Applied => JobOwes(j, j.said.succeeded)
    case NotApplied => JobOwes(j, j.said.failed)
    case BaselineChanged => JobOwes(j, j.said.outdated)
    case Unknown => JobOwes(j, j.said.uncertain)
  }

  /** An applied or unknown deployment is entered once; one found applied later gets a disposition. */
  predicate Recorded(j: JobSize, outcome: Outcome, record: Option<nat>) {
    if !j.deploys || outcome.NotApplied? || outcome.BaselineChanged? then record == j.record
    else if j.record.None? then record.Some? && record.value <= FreshRecord(j)
    else if outcome.Applied? then record.Some? && record.value <= j.record.value + DISPOSITION
    else record == j.record
  }

  /** What the validators and the states allow. */
  predicate Allowed(l: Sizes, step: Step) {
    match step
    case CountUp(top) => top <= MAX_TOP
    case MoveJob(i, stage, misc, reason, event) =>
      && i < |l.jobs| && MayMove(l.jobs[i], stage) && misc <= MAX_MISC && reason <= MAX_RESULT
      && NewEvent(event, MoveOwes(l.jobs[i], stage))
    case SettleJob(i, outcome, misc, reason, result, record, event) =>
      && i < |l.jobs| && (l.jobs[i].stage.Active? || l.jobs[i].stage.Uncertain?)
      && misc <= MAX_MISC && reason <= MAX_RESULT && result <= MAX_RESULT
      && Recorded(l.jobs[i], outcome, record) && NewEvent(event, OutcomeOwes(l.jobs[i], outcome))
    case CancelJob(i, misc, reason, receipt) =>
      && i < |l.jobs| && (l.jobs[i].stage.Queued? || l.jobs[i].stage.Outdated?)
      && misc <= MAX_MISC && reason <= MAX_RESULT && receipt <= MAX_RESULT + RECEIPT_KEY
    case FenceJob(i, misc) =>
      i < |l.jobs| && (l.jobs[i].stage.Queued? || l.jobs[i].stage.Outdated?) && misc <= MAX_MISC
    case HoldReservation(r, misc, event) =>
      && r < |l.reservations| && l.reservations[r].hold.Requested? && misc <= MAX_MISC
      && NewEvent(event, OwesHeld(l.reservations[r]))
    case TouchReservation(r, misc) => r < |l.reservations| && l.reservations[r].hold.Owned? && misc <= MAX_MISC
    case DropReservation(r, misc) => r < |l.reservations| && !l.reservations[r].hold.Released? && misc <= MAX_MISC
    case FinishReservation(r, misc, request, proofs, additions, receipt, event) =>
      && r < |l.reservations| && !l.reservations[r].hold.Released? && misc <= MAX_MISC
      && request <= MAX_RESULT && proofs <= Proofs(l.reservations[r]) && additions <= 2 * Proofs(l.reservations[r])
      && receipt <= MAX_RESULT + RECEIPT_KEY && NewEvent(event, OwesReleased(l.reservations[r]))
    case AnnounceClaim(event) => NewEvent(Some(event), l.claims > 0)
    case ForgetClaim => l.claims > 0
    case AnnounceRun(event) => NewEvent(Some(event), l.runs > 0)
    case Resume => l.open
    case Attend(e, misc, sealed, error, _) =>
      e < |l.events| && !l.events[e].delivered && misc <= EVENT_MISC && sealed <= SEALED && error <= MAX_ERROR
    case SendAgain(e, misc, error) =>
      e < |l.events| && l.events[e].delivered && misc <= EVENT_MISC && error <= MAX_ERROR
  }

  function Appended(events: seq<EventSize>, event: Option<EventSize>): seq<EventSize> {
    if event.Some? then events + [event.value] else events
  }

  function MovedTo(j: JobSize, stage: Stage, announced: bool): JobSize {
    var s := j.said;
    j.(stage := stage,
       said := if !announced then s
               else match stage
                 case Queued => s.(ready := true)
                 case Outdated => s.(outdated := true)
                 case Uncertain => s.(uncertain := true)
                 case _ => s)
  }

  function SettledTo(j: JobSize, outcome: Outcome, announced: bool): JobSize {
    var s := j.said;
    match outcome
    case Applied => j.(stage := Ended, said := s.(succeeded := s.succeeded || announced))
    case NotApplied => j.(stage := Ended, said := s.(failed := s.failed || announced))
    case BaselineChanged => j.(stage := Outdated, said := s.(outdated := s.outdated || announced))
    case Unknown => j.(stage := Uncertain, said := s.(uncertain := s.uncertain || announced))
  }

  function SetJob(l: Sizes, i: nat, j: JobSize, event: Option<EventSize>): Sizes
    requires i < |l.jobs|
  {
    l.(jobs := l.jobs[i := j], events := Appended(l.events, event))
  }

  function SetReservation(l: Sizes, i: nat, r: ReservationSize, event: Option<EventSize>): Sizes
    requires i < |l.reservations|
  {
    l.(reservations := l.reservations[i := r], events := Appended(l.events, event))
  }

  function Apply(l: Sizes, step: Step): Sizes
    requires Allowed(l, step)
  {
    match step
    case CountUp(top) => l.(top := top)
    case MoveJob(i, stage, misc, reason, event) =>
      SetJob(l, i, MovedTo(l.jobs[i], stage, event.Some?).(misc := misc, reason := reason), event)
    case SettleJob(i, outcome, misc, reason, result, record, event) =>
      SetJob(l, i, SettledTo(l.jobs[i], outcome, event.Some?)
        .(misc := misc, reason := reason, result := result, record := record), event)
    case CancelJob(i, misc, reason, receipt) =>
      SetJob(l, i, l.jobs[i].(misc := misc, reason := reason, stage := Ended), None)
        .(receipts := l.receipts + [receipt])
    case FenceJob(i, misc) => SetJob(l, i, l.jobs[i].(misc := misc, stage := Ended), None)
    case HoldReservation(r, misc, event) =>
      var a := l.reservations[r];
      SetReservation(l, r, a.(misc := misc, hold := Owned, heldSaid := a.heldSaid || event.Some?), event)
    case TouchReservation(r, misc) => SetReservation(l, r, l.reservations[r].(misc := misc), None)
    case DropReservation(r, misc) =>
      SetReservation(l, r, l.reservations[r].(misc := misc, hold := Released), None)
    case FinishReservation(r, misc, request, proofs, additions, receipt, event) =>
      var a := l.reservations[r];
      SetReservation(l, r, a.(fixed := a.fixed + request + proofs, misc := misc, hold := Released,
        releasedSaid := a.releasedSaid || event.Some?), event)
        .(fixed := l.fixed + additions, receipts := l.receipts + [receipt])
    case AnnounceClaim(event) => l.(claims := l.claims - 1, events := l.events + [event])
    case ForgetClaim => l.(claims := l.claims - 1)
    case AnnounceRun(event) => l.(runs := l.runs - 1, events := l.events + [event])
    case Resume => l.(runs := l.runs + 1)
    case Attend(e, misc, sealed, error, delivered) =>
      l.(events := l.events[e := l.events[e].(misc := misc, sealed := sealed, error := error, delivered := delivered)])
    case SendAgain(e, misc, error) =>
      l.(events := l.events[e := l.events[e].(misc := misc, error := error, delivered := false)])
  }

  lemma AppendedCeiling(events: seq<EventSize>, event: Option<EventSize>, owed: bool)
    requires NewEvent(event, owed)
    ensures SumOf(Appended(events, event), EventCeiling)
            <= SumOf(events, EventCeiling) + One(event.Some?) * EVENT_CEILING
  {
    if event.Some? {
      SumAppend(events, event.value, EventCeiling);
    }
  }

  lemma MovedJob(a: JobSize, stage: Stage, misc: nat, reason: nat, announced: bool)
    requires JobBounded(a) && MayMove(a, stage) && misc <= MAX_MISC && reason <= MAX_RESULT
    requires announced ==> MoveOwes(a, stage)
    ensures var b := MovedTo(a, stage, announced).(misc := misc, reason := reason);
      JobCeiling(b) + One(announced) * EVENT_CEILING <= JobCeiling(a)
  {
  }

  lemma AppliedJob(a: JobSize, misc: nat, reason: nat, result: nat, record: Option<nat>, announced: bool)
    requires JobBounded(a) && (a.stage.Active? || a.stage.Uncertain?)
    requires misc <= MAX_MISC && reason <= MAX_RESULT && result <= MAX_RESULT && Recorded(a, Applied, record)
    requires announced ==> OutcomeOwes(a, Applied)
    ensures var b := SettledTo(a, Applied, announced)
        .(misc := misc, reason := reason, result := result, record := record);
      JobCeiling(b) + One(announced) * EVENT_CEILING <= JobCeiling(a)
  {
  }

  lemma UnappliedJob(a: JobSize, outcome: Outcome, misc: nat, reason: nat, result: nat, record: Option<nat>,
      announced: bool)
    requires JobBounded(a) && (a.stage.Active? || a.stage.Uncertain?)
    requires misc <= MAX_MISC && reason <= MAX_RESULT && result <= MAX_RESULT && Recorded(a, outcome, record)
    requires announced ==> OutcomeOwes(a, outcome)
    requires !outcome.Applied?
    ensures var b := SettledTo(a, outcome, announced)
        .(misc := misc, reason := reason, result := result, record := record);
      JobCeiling(b) + One(announced) * EVENT_CEILING <= JobCeiling(a)
  {
  }

  lemma EndedJob(a: JobSize, misc: nat, reason: nat)
    requires JobBounded(a) && (a.stage.Queued? || a.stage.Outdated?) && misc <= MAX_MISC && reason <= MAX_RESULT
    ensures JobCeiling(a.(misc := misc, reason := reason, stage := Ended)) + MAX_RESULT + RECEIPT_KEY <= JobCeiling(a)
  {
  }

  lemma MovedReservation(a: ReservationSize, b: ReservationSize, announced: bool)
    requires !a.hold.Released? && b.misc <= MAX_MISC && b.proofs == a.proofs && b.fixed == a.fixed
    requires b.thread == a.thread && b.routed == a.routed && b.releasedSaid == a.releasedSaid
    requires b.hold.Released? || (b.hold.Owned? && (announced ==> OwesHeld(a)))
    requires b.hold.Released? ==> !announced
    ensures ReservationCeiling(b) + One(announced) * EVENT_CEILING <= ReservationCeiling(a)
  {
  }

  lemma FinishedReservation(a: ReservationSize, b: ReservationSize, announced: bool)
    requires !a.hold.Released? && b.hold.Released? && b.misc <= MAX_MISC
    requires b.fixed <= a.fixed + MAX_RESULT + Proofs(a) && (announced ==> OwesReleased(a))
    ensures ReservationCeiling(b) + One(announced) * EVENT_CEILING + 2 * Proofs(a) + MAX_RESULT + RECEIPT_KEY
            <= ReservationCeiling(a)
  {
  }

  lemma JobStaysBounded(l: Sizes, step: Step)
    requires Bounded(l) && Allowed(l, step) && (step.MoveJob? || step.SettleJob? || step.CancelJob? || step.FenceJob?)
    ensures JobBounded(Apply(l, step).jobs[step.job])
  {
    assert JobBounded(l.jobs[step.job]);
  }

  lemma StepKeepsBounds(l: Sizes, step: Step)
    requires Bounded(l) && Allowed(l, step)
    ensures Bounded(Apply(l, step))
  {
    if step.MoveJob? || step.SettleJob? || step.CancelJob? || step.FenceJob? {
      JobStaysBounded(l, step);
    }
    hide JobBounded, MovedTo, SettledTo, MayMove, MoveOwes, OutcomeOwes, Recorded, OwesHeld, OwesReleased;
  }

  lemma MoveKeeps(l: Sizes, step: Step)
    requires Bounded(l) && Allowed(l, step) && (step.MoveJob? || step.SettleJob?)
    ensures Ceiling(Apply(l, step)) <= Ceiling(l)
  {
    assert JobBounded(l.jobs[step.job]);
    hide JobCeiling, ReservationCeiling, EventCeiling, SumOf, Appended, JobBounded, MayMove, MoveOwes, OutcomeOwes,
      Recorded, MovedTo, SettledTo;
    var t, i := Apply(l, step), step.job;
    SumUpdate(l.jobs, i, t.jobs[i], JobCeiling);
    if step.MoveJob? {
      MovedJob(l.jobs[i], step.stage, step.misc, step.reason, step.event.Some?);
      AppendedCeiling(l.events, step.event, MoveOwes(l.jobs[i], step.stage));
    } else {
      if step.outcome.Applied? {
        AppliedJob(l.jobs[i], step.misc, step.reason, step.result, step.record, step.event.Some?);
      } else {
        UnappliedJob(l.jobs[i], step.outcome, step.misc, step.reason, step.result, step.record, step.event.Some?);
      }
      AppendedCeiling(l.events, step.event, OutcomeOwes(l.jobs[i], step.outcome));
    }
  }

  lemma EndingKeeps(l: Sizes, step: Step)
    requires Bounded(l) && Allowed(l, step) && (step.CancelJob? || step.FenceJob?)
    ensures Ceiling(Apply(l, step)) <= Ceiling(l)
  {
    assert JobBounded(l.jobs[step.job]);
    var t, i := Apply(l, step), step.job;
    EndedJob(l.jobs[i], step.misc, t.jobs[i].reason);
    hide JobCeiling, ReservationCeiling, EventCeiling, SumOf, JobBounded;
    SumUpdate(l.jobs, i, t.jobs[i], JobCeiling);
    if step.CancelJob? {
      SumAppend(l.receipts, step.receipt, Itself);
    }
  }

  lemma ReservationStepKeeps(l: Sizes, step: Step)
    requires Allowed(l, step)
    requires step.HoldReservation? || step.TouchReservation? || step.DropReservation? || step.FinishReservation?
    ensures Ceiling(Apply(l, step)) <= Ceiling(l)
  {
    hide JobCeiling, ReservationCeiling, EventCeiling, SumOf, Appended, Proofs, OwesHeld, OwesReleased;
    var t, r := Apply(l, step), step.reservation;
    SumUpdate(l.reservations, r, t.reservations[r], ReservationCeiling);
    if step.FinishReservation? {
      FinishedReservation(l.reservations[r], t.reservations[r], step.event.Some?);
      AppendedCeiling(l.events, step.event, OwesReleased(l.reservations[r]));
      SumAppend(l.receipts, step.receipt, Itself);
    } else {
      var event := if step.HoldReservation? then step.event else None;
      MovedReservation(l.reservations[r], t.reservations[r], event.Some?);
      AppendedCeiling(l.events, event, OwesHeld(l.reservations[r]));
    }
  }

  /** Only a resume raises the ceiling, by one event, and the field bounds stay. */
  lemma StepKeepsCeiling(l: Sizes, step: Step)
    requires Bounded(l) && Allowed(l, step)
    ensures Bounded(Apply(l, step)) && Ceiling(Apply(l, step)) <= Ceiling(l) + One(step.Resume?) * EVENT_CEILING
  {
    StepKeepsBounds(l, step);
    hide JobCeiling, ReservationCeiling, EventCeiling, SumOf, Appended, Proofs;
    var t := Apply(l, step);
    match step
    case CountUp(_) =>
    case MoveJob(_, _, _, _, _) => MoveKeeps(l, step);
    case SettleJob(_, _, _, _, _, _, _) => MoveKeeps(l, step);
    case CancelJob(_, _, _, _) => EndingKeeps(l, step);
    case FenceJob(_, _) => EndingKeeps(l, step);
    case HoldReservation(_, _, _) => ReservationStepKeeps(l, step);
    case TouchReservation(_, _) => ReservationStepKeeps(l, step);
    case DropReservation(_, _) => ReservationStepKeeps(l, step);
    case FinishReservation(_, _, _, _, _, _, _) => ReservationStepKeeps(l, step);
    case AnnounceClaim(event) => AppendedOne(l.events, event);
    case ForgetClaim =>
    case AnnounceRun(event) => AppendedOne(l.events, event);
    case Resume =>
    case Attend(e, _, _, _, _) => Attended(l.events, e, t.events[e]);
    case SendAgain(e, _, _) => Attended(l.events, e, t.events[e]);
  }

  lemma AppendedOne(events: seq<EventSize>, event: EventSize)
    requires EventBounded(event)
    ensures SumOf(events + [event], EventCeiling) <= SumOf(events, EventCeiling) + EVENT_CEILING
  {
    SumAppend(events, event, EventCeiling);
  }

  lemma Attended(events: seq<EventSize>, e: nat, b: EventSize)
    requires e < |events| && b.text == events[e].text && b.key == events[e].key
    ensures SumOf(events[e := b], EventCeiling) == SumOf(events, EventCeiling)
  {
    SumUpdate(events, e, b, EventCeiling);
  }

  // ---------------------------------------------------------------- whole runs

  function Run(l: Sizes, steps: seq<Step>): Sizes
    requires Possible(l, steps)
    decreases steps
  {
    if steps == [] then l else Run(Apply(l, steps[0]), steps[1..])
  }

  /** Every step is allowed where it happens; none is admitted anew. */
  predicate Possible(l: Sizes, steps: seq<Step>)
    decreases steps
  {
    steps == [] || (Allowed(l, steps[0]) && Possible(Apply(l, steps[0]), steps[1..]))
  }

  function Resumes(steps: seq<Step>): nat {
    if steps == [] then 0 else One(steps[0].Resume?) + Resumes(steps[1..])
  }

  /** However recovery goes on, with at most `n` resumes, the ledger can be written. */
  ghost predicate FitsWith(l: Sizes, n: nat) {
    forall steps :: Possible(l, steps) && Resumes(steps) <= n ==> Size(Run(l, steps)) <= MAX_LEDGER
  }

  ghost predicate AlwaysFits(l: Sizes) {
    FitsWith(l, 0)
  }

  lemma {:induction false} RunKeepsCeiling(l: Sizes, steps: seq<Step>)
    requires Bounded(l) && Possible(l, steps)
    ensures Bounded(Run(l, steps)) && Ceiling(Run(l, steps)) <= Ceiling(l) + Resumes(steps) * EVENT_CEILING
    decreases steps
  {
    hide Bounded, Ceiling, Allowed, Apply;
    if steps != [] {
      StepKeepsCeiling(l, steps[0]);
      RunKeepsCeiling(Apply(l, steps[0]), steps[1..]);
    }
  }

  // ---------------------------------------------------------------- a run that reaches the ceiling

  const FULL := EventSize(MAX_TEXT, EVENT_MISC, SEALED, MAX_ERROR, EVENT_KEY, false)

  predicate EventFull(e: EventSize) {
    EventBytes(e) == EventCeiling(e)
  }

  /** How many steps a record is away from its ceiling. */
  function JobLeft(j: JobSize): nat {
    match j.stage
    case Queued =>
      4 + if j.record.Some? then 0
          else One(JobOwes(j, j.said.ready)) + One(JobOwes(j, j.said.uncertain)) + One(j.deploys)
    case Active => 3 + One(JobOwes(j, j.said.uncertain)) + One(j.deploys && j.record.None?)
    case Uncertain => 2 + One(JobOwes(j, j.said.uncertain)) + One(j.deploys && j.record.None?)
    case Outdated => 1
    case Ended => 0
  }

  function ReservationLeft(r: ReservationSize): nat {
    match r.hold
    case Requested => 2
    case Owned => 1
    case Released => 0
  }

  function EventLeft(e: EventSize): nat {
    if EventFull(e) then 0 else if e.delivered then 2 else 1
  }

  function Left(l: Sizes): nat {
    (if l.top < MAX_TOP then 1 else 0) + SumOf(l.jobs, JobLeft) + SumOf(l.reservations, ReservationLeft)
    + SumOf(l.events, EventLeft) + l.claims + l.runs
  }

  /** A step towards the ceiling, which stays where it is. */
  ghost predicate Rises(l: Sizes, step: Step) {
    Allowed(l, step) && Ceiling(Apply(l, step)) == Ceiling(l) && Left(Apply(l, step)) < Left(l)
  }

  lemma FullAppended(events: seq<EventSize>)
    ensures SumOf(events + [FULL], EventCeiling) == SumOf(events, EventCeiling) + EVENT_CEILING
    ensures SumOf(events + [FULL], EventLeft) == SumOf(events, EventLeft)
  {
    SumAppend(events, FULL, EventCeiling);
    SumAppend(events, FULL, EventLeft);
  }

  function Told(owed: bool): Option<EventSize> {
    if owed then Some(FULL) else None
  }

  /** The way of one job to its ceiling. */
  function JobStep(l: Sizes, i: nat): Step
    requires i < |l.jobs|
  {
    var j := l.jobs[i];
    match j.stage
    case Queued =>
      if j.record.Some? then CancelJob(i, MAX_MISC, MAX_RESULT, MAX_RESULT + RECEIPT_KEY)
      else if JobOwes(j, j.said.ready) then MoveJob(i, Queued, MAX_MISC, 0, Some(FULL))
      else MoveJob(i, Active, MAX_MISC, 0, None)
    case Active => AttemptStep(j, i)
    case Uncertain => AttemptStep(j, i)
    case _ => CancelJob(i, MAX_MISC, MAX_RESULT, MAX_RESULT + RECEIPT_KEY)
  }

  function AttemptStep(j: JobSize, i: nat): Step {
    if JobOwes(j, j.said.uncertain) then MoveJob(i, Uncertain, MAX_MISC, 0, Some(FULL))
    else if j.deploys && j.record.None? then
      SettleJob(i, Unknown, MAX_MISC, 0, MAX_RESULT, Some(FreshRecord(j)), None)
    else if j.deploys && !JobOwes(j, j.said.outdated) && JobOwes(j, j.said.succeeded) then
      SettleJob(i, Applied, MAX_MISC, MAX_RESULT, MAX_RESULT, Some(j.record.value + DISPOSITION), Some(FULL))
    else
      SettleJob(i, BaselineChanged, MAX_MISC, MAX_RESULT, MAX_RESULT, j.record, Told(JobOwes(j, j.said.outdated)))
  }

  /** A job that comes closer to its ceiling, less the event it told, brings the ledger closer. */
  lemma Risen(l: Sizes, step: Step)
    requires Allowed(l, step) && (step.MoveJob? || step.SettleJob?) && (step.event.Some? ==> step.event.value == FULL)
    requires var a, b := l.jobs[step.job], Apply(l, step).jobs[step.job];
      JobCeiling(b) + One(step.event.Some?) * EVENT_CEILING == JobCeiling(a) && JobLeft(b) < JobLeft(a)
    ensures Rises(l, step)
  {
    hide SumOf, JobCeiling, JobLeft, EventCeiling, EventLeft, ReservationCeiling, ReservationLeft, MayMove, MoveOwes,
      OutcomeOwes, Recorded, MovedTo, SettledTo;
    var t, i := Apply(l, step), step.job;
    SumUpdate(l.jobs, i, t.jobs[i], JobCeiling);
    SumUpdate(l.jobs, i, t.jobs[i], JobLeft);
    FullAppended(l.events);
  }

  lemma QueuedRises(l: Sizes, i: nat)
    requires i < |l.jobs| && l.jobs[i].stage.Queued? && l.jobs[i].record.None? && JobBounded(l.jobs[i])
    ensures Rises(l, JobStep(l, i))
  {
    Risen(l, JobStep(l, i));
  }

  lemma LosingRises(l: Sizes, i: nat)
    requires i < |l.jobs| && (l.jobs[i].stage.Active? || l.jobs[i].stage.Uncertain?)
    requires JobOwes(l.jobs[i], l.jobs[i].said.uncertain)
    ensures Rises(l, JobStep(l, i))
  {
    Risen(l, JobStep(l, i));
  }

  lemma RecordingRises(l: Sizes, i: nat)
    requires i < |l.jobs| && (l.jobs[i].stage.Active? || l.jobs[i].stage.Uncertain?)
    requires !JobOwes(l.jobs[i], l.jobs[i].said.uncertain) && l.jobs[i].deploys && l.jobs[i].record.None?
    ensures Rises(l, JobStep(l, i))
  {
    Risen(l, JobStep(l, i));
  }

  lemma ConcludingRises(l: Sizes, i: nat)
    requires i < |l.jobs| && (l.jobs[i].stage.Active? || l.jobs[i].stage.Uncertain?) && JobBounded(l.jobs[i])
    requires !JobOwes(l.jobs[i], l.jobs[i].said.uncertain) && (l.jobs[i].deploys ==> l.jobs[i].record.Some?)
    ensures Rises(l, JobStep(l, i))
  {
    Risen(l, JobStep(l, i));
  }

  lemma CancelingRises(l: Sizes, i: nat)
    requires i < |l.jobs| && JobBounded(l.jobs[i])
    requires l.jobs[i].stage.Outdated? || (l.jobs[i].stage.Queued? && l.jobs[i].record.Some?)
    ensures Rises(l, JobStep(l, i))
  {
    hide SumOf;
    var t := Apply(l, JobStep(l, i));
    SumUpdate(l.jobs, i, t.jobs[i], JobCeiling);
    SumUpdate(l.jobs, i, t.jobs[i], JobLeft);
    var receipt: nat := MAX_RESULT + RECEIPT_KEY;
    SumAppend(l.receipts, receipt, Itself);
  }

  lemma JobRises(l: Sizes, i: nat)
    requires Bounded(l) && i < |l.jobs| && !l.jobs[i].stage.Ended?
    ensures Rises(l, JobStep(l, i))
  {
    assert JobBounded(l.jobs[i]);
    hide *;
    var j := l.jobs[i];
    if j.stage.Outdated? || (j.stage.Queued? && j.record.Some?) {
      CancelingRises(l, i);
    } else if j.stage.Queued? {
      QueuedRises(l, i);
    } else if JobOwes(j, j.said.uncertain) {
      LosingRises(l, i);
    } else if j.deploys && j.record.None? {
      RecordingRises(l, i);
    } else {
      ConcludingRises(l, i);
    }
  }

  function ReservationStep(l: Sizes, i: nat): Step
    requires i < |l.reservations|
  {
    var r := l.reservations[i];
    if r.hold.Requested? then HoldReservation(i, MAX_MISC, Told(OwesHeld(r)))
    else FinishReservation(i, MAX_MISC, MAX_RESULT, Proofs(r), 2 * Proofs(r), MAX_RESULT + RECEIPT_KEY,
      Told(OwesReleased(r)))
  }

  lemma HoldingRises(l: Sizes, i: nat)
    requires i < |l.reservations| && l.reservations[i].hold.Requested?
    ensures Rises(l, ReservationStep(l, i))
  {
    hide SumOf;
    var t := Apply(l, ReservationStep(l, i));
    SumUpdate(l.reservations, i, t.reservations[i], ReservationCeiling);
    SumUpdate(l.reservations, i, t.reservations[i], ReservationLeft);
    FullAppended(l.events);
  }

  lemma FinishingRises(l: Sizes, i: nat)
    requires i < |l.reservations| && l.reservations[i].hold.Owned?
    ensures Rises(l, ReservationStep(l, i))
  {
    hide SumOf;
    var t := Apply(l, ReservationStep(l, i));
    SumUpdate(l.reservations, i, t.reservations[i], ReservationCeiling);
    SumUpdate(l.reservations, i, t.reservations[i], ReservationLeft);
    var receipt: nat := MAX_RESULT + RECEIPT_KEY;
    SumAppend(l.receipts, receipt, Itself);
    FullAppended(l.events);
  }

  lemma ReservationRises(l: Sizes, i: nat)
    requires i < |l.reservations| && !l.reservations[i].hold.Released?
    ensures Rises(l, ReservationStep(l, i))
  {
    hide *;
    if l.reservations[i].hold.Requested? {
      HoldingRises(l, i);
    } else {
      FinishingRises(l, i);
    }
  }

  function EventStep(l: Sizes, i: nat): Step
    requires i < |l.events|
  {
    if l.events[i].delivered then SendAgain(i, EVENT_MISC, MAX_ERROR)
      else Attend(i, EVENT_MISC, SEALED, MAX_ERROR, false)
  }

  lemma EventRises(l: Sizes, i: nat)
    requires Bounded(l) && i < |l.events| && !EventFull(l.events[i])
    ensures Rises(l, EventStep(l, i))
  {
    var step := EventStep(l, i);
    assert Allowed(l, step);
    var t := Apply(l, step);
    hide SumOf, Bounded;
    SumUpdate(l.events, i, t.events[i], EventCeiling);
    SumUpdate(l.events, i, t.events[i], EventLeft);
  }

  /** Where nothing rises any more, the size is the ceiling. */
  lemma FullAtCeiling(l: Sizes)
    requires Bounded(l) && l.top >= MAX_TOP && l.claims == 0 && l.runs == 0
    requires forall i :: 0 <= i < |l.jobs| ==> l.jobs[i].stage.Ended?
    requires forall i :: 0 <= i < |l.reservations| ==> l.reservations[i].hold.Released?
    requires forall i :: 0 <= i < |l.events| ==> EventFull(l.events[i])
    ensures Size(l) == Ceiling(l)
  {
    SumSame(l.jobs, JobBytes, JobCeiling);
    SumSame(l.reservations, ReservationBytes, ReservationCeiling);
    SumSame(l.events, EventBytes, EventCeiling);
  }

  lemma OtherRises(l: Sizes)
    requires Bounded(l)
    ensures l.top < MAX_TOP ==> Rises(l, CountUp(MAX_TOP))
    ensures l.claims > 0 ==> Rises(l, AnnounceClaim(FULL))
    ensures l.runs > 0 ==> Rises(l, AnnounceRun(FULL))
  {
    hide SumOf, Bounded;
    FullAppended(l.events);
  }

  lemma NextStep(l: Sizes) returns (step: Option<Step>)
    requires Bounded(l)
    ensures if step.Some? then Rises(l, step.value) && !step.value.Resume? else Size(l) == Ceiling(l)
  {
    OtherRises(l);
    hide Bounded, Rises, Size, Ceiling, JobStep, ReservationStep, EventStep, EventFull;
    if i :| 0 <= i < |l.jobs| && !l.jobs[i].stage.Ended? {
      JobRises(l, i);
      return Some(JobStep(l, i));
    }
    if i :| 0 <= i < |l.reservations| && !l.reservations[i].hold.Released? {
      ReservationRises(l, i);
      return Some(ReservationStep(l, i));
    }
    if i :| 0 <= i < |l.events| && !EventFull(l.events[i]) {
      EventRises(l, i);
      return Some(EventStep(l, i));
    }
    if l.top < MAX_TOP {
      return Some(CountUp(MAX_TOP));
    } else if l.claims > 0 {
      return Some(AnnounceClaim(FULL));
    } else if l.runs > 0 {
      return Some(AnnounceRun(FULL));
    }
    FullAtCeiling(l);
    step := None;
  }

  lemma {:induction false} Saturate(l: Sizes) returns (steps: seq<Step>)
    requires Bounded(l)
    ensures Possible(l, steps) && Size(Run(l, steps)) == Ceiling(l) && Resumes(steps) == 0
    decreases Left(l)
  {
    hide Size, Ceiling, Left, Apply, Allowed, Bounded;
    var step := NextStep(l);
    steps := [];
    if step.Some? {
      StepKeepsBounds(l, step.value);
      var rest := Saturate(Apply(l, step.value));
      steps := [step.value] + rest;
      assert steps[1..] == rest;
    }
  }

  lemma ResumeRaises(l: Sizes)
    requires l.open
    ensures var t := Apply(l, Resume);
      t.open && (Bounded(l) ==> Bounded(t)) && Ceiling(t) == Ceiling(l) + EVENT_CEILING
  {
  }

  lemma {:induction false} SaturateWith(l: Sizes, n: nat) returns (steps: seq<Step>)
    requires Bounded(l) && (n > 0 ==> l.open)
    ensures Possible(l, steps) && Size(Run(l, steps)) == Ceiling(l) + n * EVENT_CEILING && Resumes(steps) == n
    decreases n
  {
    hide Size, Ceiling, Bounded;
    if n == 0 {
      steps := Saturate(l);
    } else {
      ResumeRaises(l);
      var rest := SaturateWith(Apply(l, Resume), n - 1);
      steps := [Resume] + rest;
      assert steps[1..] == rest;
    }
  }

  /** The exact condition under which no recovery is ever refused for size, whatever is delivered late or again. */
  lemma ReserveExact(l: Sizes, n: nat)
    requires Bounded(l) && (n > 0 ==> l.open)
    ensures FitsWith(l, n) <==> Ceiling(l) + n * EVENT_CEILING <= MAX_LEDGER
  {
    hide Size, Ceiling, Bounded, Run, Possible;
    if Ceiling(l) + n * EVENT_CEILING <= MAX_LEDGER {
      forall steps | Possible(l, steps) && Resumes(steps) <= n ensures Size(Run(l, steps)) <= MAX_LEDGER {
        RunKeepsCeiling(l, steps);
        CeilingBetween(Run(l, steps));
      }
    } else {
      var steps := SaturateWith(l, n);
    }
  }

  /** No reserve is enough for an unfinished background integration that is resumed 1577 times. */
  lemma ResumesOverflow(l: Sizes)
    requires Bounded(l) && l.open
    ensures !FitsWith(l, MAX_LEDGER / EVENT_CEILING + 1)
  {
    hide FitsWith, Ceiling;
    ReserveExact(l, MAX_LEDGER / EVENT_CEILING + 1);
  }

  /** After admission the fixed reserve has to carry only what delivered events may grow by. */
  lemma AdmittedFits(l: Sizes)
    requires Bounded(l) && Admitted(l) && SumOf(l.events, Unbudgeted) + MAX_TOP <= RESERVE + 1
    ensures AlwaysFits(l)
  {
    hide FitsWith;
    CeilingBetween(l);
    ReserveExact(l, 0);
  }

  /** Ledgers with up to 472 delivered events are safe, whatever their sizes. */
  lemma FewDeliveredFit(l: Sizes)
    requires Bounded(l) && Admitted(l) && SumOf(l.events, Delivered) <= 472
    ensures AlwaysFits(l)
  {
    hide AlwaysFits, Admitted, Bounded;
    DeliveredCost(l.events);
    AdmittedFits(l);
  }

  function Delivered(e: EventSize): nat {
    if e.delivered then 1 else 0
  }

  lemma {:induction false} DeliveredCost(events: seq<EventSize>)
    ensures SumOf(events, Unbudgeted) <= SumOf(events, Delivered) * (EVENT_MISC + SEALED + MAX_ERROR)
  {
    if events != [] {
      DeliveredCost(events[1..]);
    }
  }

  // ---------------------------------------------------------------- how repeated deliveries break the bound

  const DELIVERED := EventSize(700, 32, 240, 12, EVENT_KEY, true)
  const EVENTS: nat := 520

  /** An admitted ledger with 520 delivered events of about a thousand bytes each. */
  const CROWDED := Sizes(MAX_LEDGER - RESERVE - 1 - EVENTS * (984 + EVENT_KEY), 0, [], [], seq(EVENTS, i => DELIVERED),
    [], 0, 0, false)

  lemma RepeatedDeliveriesOverflow()
    ensures Bounded(CROWDED) && Admitted(CROWDED) && !AlwaysFits(CROWDED)
  {
    hide FitsWith;
    SumConstant(CROWDED.events, DELIVERED, EventBytes);
    SumConstant(CROWDED.events, DELIVERED, EventGrowth);
    SumConstant(CROWDED.events, DELIVERED, EventCeiling);
    ReserveExact(CROWDED, 0);
  }
}
