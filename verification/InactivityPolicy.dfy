/**
 Automatic archival (libexec/workspace-auto-archive.rb): a session becomes eligible after
 a quiet period. Only the start of the period is stored, so what it means over a whole run
 of observations is proved here.
 */
module InactivityPolicy {
  import opened Wrappers

  /** Clock readings, finer than the whole seconds that are stored. */
  type Time = nat
  type Second = nat
  type Dimension = nat
  type Value = nat
  type Identity = nat

  const TICKS_PER_SECOND: nat := 1_000_000_000

  function Stamp(now: Time): Second {
    now / TICKS_PER_SECOND
  }

  predicate Reached(now: Time, second: Second) {
    now >= second * TICKS_PER_SECOND
  }

  datatype Tier = Complete | Merged | Empty

  function Delay(tier: Tier): Second {
    match tier
    case Complete => 86_400
    case Merged => 604_800
    case Empty => 1_209_600
  }

  datatype Snapshot = Snapshot(
    identity: Identity,
    root: Option<Identity>,
    known: bool,                        // conversation activity could be read
    idle: bool,
    unreadable: bool,                   // some dimension could not be read
    dimensions: map<Dimension, Value>,  // those that could
    tier: Option<Tier>,
    clear: bool)                        // nothing else stands in the way

  datatype Policy = Policy(enabled: bool, epoch: Option<Second>)

  datatype State = State(
    identity: Option<Identity>,
    hold: bool,
    versioned: bool,
    fingerprinted: bool,
    dimensions: map<Dimension, Value>,
    idle: Option<bool>,
    idleSince: Option<Second>,
    continuityLost: bool,
    resetAt: Option<Second>,
    policyEpoch: Option<Second>,
    eligibleAt: Option<Second>,
    eligible: bool)

  const INITIAL := Fresh(None, false)

  function Fresh(identity: Option<Identity>, hold: bool): State {
    State(identity, hold, false, false, map[], None, None, false, None, None, None, false)
  }

  // ---------------------------------------------------------------- one observation

  /** bind: an observation of another identity starts from nothing, except a legacy hold. */
  function Bind(previous: State, identity: Identity, root: Option<Identity>, known: bool): State {
    if previous.identity == Some(identity) then previous
    else
      var legacy := !previous.versioned && known && root.Some? && previous.identity == root;
      Fresh(Some(identity), legacy && previous.hold)
  }

  function Bound(previous: State, s: Snapshot): State {
    Bind(previous, s.identity, s.root, s.known)
  }

  /** A readable dimension differs from the one retained for this identity. */
  predicate ReadableChanged(state: State, s: Snapshot) {
    exists d :: d in s.dimensions && (d !in state.dimensions || state.dimensions[d] != s.dimensions[d])
  }

  predicate Baseline(state: State) {
    state.versioned && state.fingerprinted
  }

  predicate Changed(state: State, s: Snapshot, policy: Policy) {
    || ReadableChanged(state, s) || state.policyEpoch != policy.epoch || state.resetAt.Some?
    || state.continuityLost || (state.idle == Some(false) && s.idle)
  }

  /** The whole sample can be trusted. */
  predicate Sound(s: Snapshot) {
    s.known && !s.unreadable
  }

  /** Where the quiet period starts after the observation. */
  function QuietFrom(state: State, s: Snapshot, policy: Policy, now: Time): Option<Second> {
    var since :=
      if !s.known then None
      else if !s.unreadable && (!Baseline(state) || Changed(state, s, policy) || state.idleSince.None?)
        then Some(Stamp(now))
      else if s.unreadable && Baseline(state) && ReadableChanged(state, s) then Some(Stamp(now))
      else state.idleSince;
    if since.Some? && !Reached(now, since.value) then Some(Stamp(now)) else since
  }

  function EligibleAt(since: Option<Second>, tier: Option<Tier>): Option<Second> {
    if since.Some? && tier.Some? then Some(since.value + Delay(tier.value)) else None
  }

  predicate Eligible(state: State, s: Snapshot, policy: Policy, now: Time) {
    var at := EligibleAt(QuietFrom(state, s, policy, now), s.tier);
    && Sound(s) && s.idle && s.clear && policy.enabled && !state.hold
    && at.Some? && Reached(now, at.value)
  }

  function Observe(previous: State, s: Snapshot, policy: Policy, now: Time): State {
    var state := Bound(previous, s);
    var since := QuietFrom(state, s, policy, now);
    State(
      identity := Some(s.identity),
      hold := state.hold,
      versioned := true,
      fingerprinted := state.fingerprinted || Sound(s),
      dimensions := state.dimensions + s.dimensions,
      idle := Some(s.idle),
      idleSince := since,
      continuityLost := !s.known || (s.unreadable && state.continuityLost),
      resetAt := if Sound(s) then None else state.resetAt,
      policyEpoch := policy.epoch,
      eligibleAt := EligibleAt(since, s.tier),
      eligible := Eligible(state, s, policy, now))
  }

  /** The record a hold or release applies to. */
  function CurrentState(previous: State, identity: Identity, root: Option<Identity>): State {
    if !previous.versioned && root.Some? && previous.identity == root then previous.(identity := Some(identity))
    else Bind(previous, identity, None, false)
  }

  function SetHold(previous: State, identity: Identity, root: Option<Identity>, held: bool, now: Time): State {
    var state := CurrentState(previous, identity, root);
    state.(resetAt := if state.hold && !held then Some(Stamp(now)) else state.resetAt,
           hold := held, eligible := false, eligibleAt := None)
  }

  /** A failed scan: only unknown activity ends the period. */
  function Failed(state: State, unknown: bool): State {
    if unknown then state.(continuityLost := true, idleSince := None, eligibleAt := None, eligible := false)
    else state.(eligible := false)
  }

  function Reset(state: State, now: Time): State {
    state.(resetAt := Some(Stamp(now)), eligible := false, eligibleAt := None)
  }

  /** The stored record of one session. */
  class Session {
    var state: State

    constructor ()
      ensures state == INITIAL
    {
      state := INITIAL;
    }

    /** Policy.observe: the start of the period and whether continuity is lost. */
    static method Period(record: State, s: Snapshot, policy: Policy, now: Time)
      returns (since: Option<Second>, lost: bool)
      ensures since == QuietFrom(record, s, policy, now)
      ensures lost == (!s.known || (s.unreadable && record.continuityLost))
    {
      hide ReadableChanged, Stamp, Reached;
      var changed := Changed(record, s, policy);
      since, lost := record.idleSince, record.continuityLost;
      if !s.known {
        since, lost := None, true;
      } else if !s.unreadable && (!Baseline(record) || changed || record.idleSince.None?) {
        since, lost := Some(Stamp(now)), false;
      } else if Baseline(record) && ReadableChanged(record, s) {
        since := Some(Stamp(now));
      }
      if since.Some? && !Reached(now, since.value) {
        since := Some(Stamp(now));
      }
    }

    /** Policy.observe, the rest of the record. `vetoed` stands for the proofs made after it. */
    method Scan(s: Snapshot, policy: Policy, now: Time, vetoed: bool)
      modifies this
      ensures state == Observe(old(state), s, policy, now).(eligible := state.eligible)
      ensures state.eligible <==> Eligible(Bound(old(state), s), s, policy, now) && !vetoed
    {
      hide Bind, Bound, QuietFrom, EligibleAt, Reached;
      var record := Bound(state, s);
      var since, lost := Period(record, s, policy, now);
      var at := EligibleAt(since, s.tier);
      var eligible := s.known && s.idle && !s.unreadable && at.Some? && s.clear && policy.enabled && !record.hold
        && Reached(now, at.value);
      state := record.(
        identity := Some(s.identity), versioned := true, idle := Some(s.idle),
        dimensions := record.dimensions + s.dimensions,
        idleSince := since, continuityLost := lost, policyEpoch := policy.epoch,
        eligibleAt := at, eligible := eligible && !vetoed);
      if Sound(s) {
        state := state.(resetAt := None, fingerprinted := true);
      }
    }

    method Hold(identity: Identity, root: Option<Identity>, held: bool, now: Time)
      modifies this
      ensures state == SetHold(old(state), identity, root, held, now)
    {
      state := CurrentState(state, identity, root);
      if state.hold && !held {
        state := state.(resetAt := Some(Stamp(now)));
      }
      state := state.(hold := held, eligible := false, eligibleAt := None);
    }

    /** The failure branch of a scan. */
    method Fail(unknown: bool)
      modifies this
      ensures state == Failed(old(state), unknown)
    {
      if unknown {
        state := state.(continuityLost := true, idleSince := None, eligibleAt := None);
      }
      state := state.(eligible := false);
    }
  }

  // ---------------------------------------------------------------- runs

  datatype Event =
    | Observation(snapshot: Snapshot, policy: Policy, now: Time)
    | Failure(unknown: bool, now: Time)
    | Holding(identity: Identity, root: Option<Identity>, held: bool, now: Time)
    | Revival(now: Time)

  function Step(state: State, e: Event): State {
    match e
    case Observation(s, policy, now) => Observe(state, s, policy, now)
    case Failure(unknown, _) => Failed(state, unknown)
    case Holding(identity, root, held, now) => SetHold(state, identity, root, held, now)
    case Revival(now) => Reset(state, now)
  }

  function Run(start: State, events: seq<Event>): State {
    if events == [] then start else Step(Run(start, events[..|events| - 1]), events[|events| - 1])
  }

  /** What has to start a new quiet period. */
  predicate Disturbs(state: State, e: Event) {
    match e
    case Observation(s, _, _) => !s.known || ReadableChanged(Bound(state, s), s)
    case Failure(unknown, _) => unknown
    case Holding(identity, root, held, _) => CurrentState(state, identity, root).hold && !held
    case Revival(_) => true
  }

  ghost predicate Ordered(events: seq<Event>) {
    forall j, k :: 0 <= j < k < |events| ==> events[j].now <= events[k].now
  }

  /** A period never starts before it was observed from a complete sample. */
  predicate Based(state: State) {
    state.idleSince.Some? ==> Baseline(state)
  }

  /** The quiet period starts no earlier than the second, or is bound to start anew. */
  predicate QuietSince(state: State, second: Second) {
    state.idleSince.None? || second <= state.idleSince.value || state.resetAt.Some? || state.continuityLost
  }

  lemma StampGrows(a: Time, b: Time)
    requires a <= b
    ensures Stamp(a) <= Stamp(b)
  {
  }

  lemma StepBased(state: State, e: Event)
    requires Based(state)
    ensures Based(Step(state, e))
  {
  }

  lemma DisturbanceCounts(state: State, e: Event)
    requires Based(state) && Disturbs(state, e)
    ensures QuietSince(Step(state, e), Stamp(e.now))
  {
  }

  lemma QuietStays(state: State, e: Event, second: Second)
    requires QuietSince(state, second) && second <= Stamp(e.now)
    ensures QuietSince(Step(state, e), second)
  {
  }

  lemma {:induction false} RunIsQuiet(events: seq<Event>, k: nat)
    requires Ordered(events) && k < |events|
    ensures Based(Run(INITIAL, events[..k])) && Based(Run(INITIAL, events))
    ensures Disturbs(Run(INITIAL, events[..k]), events[k]) ==> QuietSince(Run(INITIAL, events), Stamp(events[k].now))
    decreases |events|
  {
    var n := |events| - 1;
    RunBased(events[..k]);
    RunBased(events);
    RunBased(events[..n]);
    if k == n {
      if Disturbs(Run(INITIAL, events[..k]), events[k]) {
        DisturbanceCounts(Run(INITIAL, events[..k]), events[k]);
      }
    } else if Disturbs(Run(INITIAL, events[..k]), events[k]) {
      assert events[..n][..k] == events[..k];
      RunIsQuiet(events[..n], k);
      StampGrows(events[k].now, events[n].now);
      QuietStays(Run(INITIAL, events[..n]), events[n], Stamp(events[k].now));
    }
  }

  lemma {:induction false} RunBased(events: seq<Event>)
    ensures Based(Run(INITIAL, events))
  {
    if events != [] {
      RunBased(events[..|events| - 1]);
      StepBased(Run(INITIAL, events[..|events| - 1]), events[|events| - 1]);
    }
  }

  /**
   Over any run: whatever had to start a new quiet period, a sample of unknown activity, a
   readable change, a failed read, a release or a revival, lies the tier's delay earlier.
   */
  lemma EligibleIsQuiet(events: seq<Event>, s: Snapshot, policy: Policy, now: Time, k: nat)
    requires Ordered(events + [Observation(s, policy, now)]) && k < |events|
    requires Observe(Run(INITIAL, events), s, policy, now).eligible
    requires Disturbs(Run(INITIAL, events[..k]), events[k])
    ensures s.tier.Some? && Stamp(events[k].now) + Delay(s.tier.value) <= Stamp(now)
    ensures events[k].now + Delay(s.tier.value) * TICKS_PER_SECOND < now + TICKS_PER_SECOND
  {
    var all := events + [Observation(s, policy, now)];
    assert all[..|events|] == events && all[k] == events[k] && all[..k] == events[..k];
    assert forall j :: 0 <= j < |events| ==> events[j] == all[j];
    RunIsQuiet(events, k);
    var second := Stamp(events[k].now);
    StampGrows(events[k].now, all[|events|].now);
    QuietStays(Run(INITIAL, events), all[|events|], second);
    var state := Observe(Run(INITIAL, events), s, policy, now);
    assert state.resetAt.None? && !state.continuityLost;
    assert second <= state.idleSince.value;
    assert now >= (state.idleSince.value + Delay(s.tier.value)) * TICKS_PER_SECOND;
    StampGrows((state.idleSince.value + Delay(s.tier.value)) * TICKS_PER_SECOND, now);
  }

  // ---------------------------------------------------------------- what stands in the way

  /** The session is held: it was, and since then it was neither released nor replaced. */
  ghost predicate Held(events: seq<Event>, identity: Identity) {
    exists k :: 0 <= k < |events| && HeldAt(events, identity, k)
  }

  ghost predicate HeldAt(events: seq<Event>, identity: Identity, k: int)
    requires 0 <= k < |events|
  {
    && events[k].Holding? && events[k].identity == identity && events[k].held
    && forall j :: k < j < |events| ==> LeavesHeld(events[j], identity)
  }

  predicate LeavesHeld(e: Event, identity: Identity) {
    && (e.Observation? ==> e.snapshot.identity == identity)
    && (e.Holding? ==> e.identity == identity && e.held)
  }

  lemma {:induction false} HeldIsRecorded(events: seq<Event>, identity: Identity, k: nat)
    requires k < |events| && HeldAt(events, identity, k)
    ensures Run(INITIAL, events).identity == Some(identity) && Run(INITIAL, events).hold
    decreases |events|
  {
    var n := |events| - 1;
    if k < n {
      assert forall j :: k < j < n ==> LeavesHeld(events[j], identity);
      HeldIsRecorded(events[..n], identity, k);
      assert LeavesHeld(events[n], identity);
    }
  }

  /**
   Over any run: a session is eligible only by a complete sample of an idle session that nothing else stands in the way
   of, under an enabled policy, with a tier, and never while it is held.
   */
  lemma EligibleMeans(events: seq<Event>)
    requires Run(INITIAL, events).eligible
    ensures events != [] && events[|events| - 1].Observation?
    ensures var e := events[|events| - 1];
      && e.policy.enabled && e.snapshot.known && !e.snapshot.unreadable && e.snapshot.idle && e.snapshot.clear
      && e.snapshot.tier.Some? && !Held(events, e.snapshot.identity)
  {
    var n := |events| - 1;
    var e := events[n];
    if Held(events, e.snapshot.identity) {
      var k :| 0 <= k < |events| && HeldAt(events, e.snapshot.identity, k);
      HeldBefore(events, e.snapshot.identity, k);
    }
  }

  lemma HeldBefore(events: seq<Event>, identity: Identity, k: nat)
    requires k < |events| && HeldAt(events, identity, k) && events[|events| - 1].Observation?
    ensures Run(INITIAL, events[..|events| - 1]).identity == Some(identity)
    ensures Run(INITIAL, events[..|events| - 1]).hold && LeavesHeld(events[|events| - 1], identity)
  {
    var n := |events| - 1;
    assert forall j :: k < j < n ==> LeavesHeld(events[j], identity);
    HeldIsRecorded(events[..n], identity, k);
  }

  // ---------------------------------------------------------------- the period does accrue

  /** A period is under way and nothing is bound to end it. */
  predicate Settled(state: State) {
    Baseline(state) && state.idleSince.Some? && state.resetAt.None? && !state.continuityLost
  }

  /** Nothing happened: the same session, the same readable dimensions, the same policy. */
  predicate Calm(state: State, e: Event) {
    match e
    case Observation(s, policy, _) =>
      && state.identity == Some(s.identity) && s.known && !ReadableChanged(state, s)
      && policy.epoch == state.policyEpoch && !(state.idle == Some(false) && s.idle)
    case Failure(unknown, _) => !unknown
    case Holding(identity, _, held, _) => state.identity == Some(identity) && held
    case Revival(_) => false
  }

  ghost predicate CalmRun(start: State, events: seq<Event>) {
    forall k :: 0 <= k < |events| ==> Calm(Run(start, events[..k]), events[k])
  }

  lemma CalmStepKeeps(state: State, e: Event)
    requires Settled(state) && Calm(state, e) && Reached(e.now, state.idleSince.value)
    ensures Settled(Step(state, e)) && Step(state, e).idleSince == state.idleSince
  {
  }

  lemma {:induction false} CalmRunKeeps(start: State, events: seq<Event>)
    requires Settled(start) && CalmRun(start, events)
    requires forall e :: e in events ==> Reached(e.now, start.idleSince.value)
    ensures Settled(Run(start, events)) && Run(start, events).idleSince == start.idleSince
  {
    if events != [] {
      var n := |events| - 1;
      forall k | 0 <= k < n ensures Calm(Run(start, events[..n][..k]), events[..n][k]) {
        assert events[..n][..k] == events[..k];
      }
      CalmRunKeeps(start, events[..n]);
      assert events[n] in events;
      CalmStepKeeps(Run(start, events[..n]), events[n]);
    }
  }

  /**
   While nothing happens, missed proofs and failed scans included, the session becomes eligible exactly when its delay
   is over.
   */
  lemma QuietIsRewarded(start: State, events: seq<Event>, s: Snapshot, policy: Policy, now: Time)
    requires Settled(start) && CalmRun(start, events + [Observation(s, policy, now)])
    requires forall e :: e in events ==> Reached(e.now, start.idleSince.value)
    requires Reached(now, start.idleSince.value)
    requires s.tier.Some? && s.clear && s.idle && !s.unreadable && policy.enabled && !Run(start, events).hold
    ensures Observe(Run(start, events), s, policy, now).eligible <==>
      Reached(now, start.idleSince.value + Delay(s.tier.value))
  {
    var all := events + [Observation(s, policy, now)];
    assert all[..|events|] == events;
    forall k | 0 <= k < |events| ensures Calm(Run(start, events[..k]), events[k]) {
      assert all[..k] == events[..k] && all[k] == events[k];
    }
    CalmRunKeeps(start, events);
    assert Calm(Run(start, all[..|events|]), all[|events|]);
    CalmStepKeeps(Run(start, events), Observation(s, policy, now));
  }

  // ---------------------------------------------------------------- enabling again

  /**
   The first sample after the policy was enabled again starts a new period exactly when it is
   complete, of unknown activity, or readably changed; the new epoch is recorded either way.
   */
  lemma EnablingRestarts(state: State, s: Snapshot, policy: Policy, now: Time)
    requires Based(state) && Bound(state, s).policyEpoch != policy.epoch
    requires !QuietSince(Bound(state, s), Stamp(now))
    ensures QuietSince(Observe(state, s, policy, now), Stamp(now)) <==>
      !s.known || !s.unreadable || ReadableChanged(Bound(state, s), s)
    ensures Observe(state, s, policy, now).policyEpoch == policy.epoch
  {
    var state' := Bound(state, s);
    if s.known && s.unreadable && !ReadableChanged(state', s) {
      assert state'.idleSince.value < Stamp(now);
      assert Reached(now, state'.idleSince.value);
    }
  }

  /** So after one incomplete sample an old period still counts: the session is eligible at once. */
  lemma EnablingForgotten(state: State, s: Snapshot, policy: Policy, now: Time, later: Time)
    requires Settled(state) && !state.hold && state.identity == Some(s.identity) && state.idle == Some(true)
    requires Sound(s) && s.idle && s.clear && s.tier.Some? && policy.enabled && !ReadableChanged(state, s)
    requires policy.epoch == Some(Stamp(now)) && state.policyEpoch != policy.epoch && now <= later
    requires Reached(now, state.idleSince.value + Delay(s.tier.value))
    ensures Observe(Observe(state, s.(unreadable := true), policy, now), s, policy, later).eligible
  {
    var partial := s.(unreadable := true);
    assert !ReadableChanged(state, partial);
    var next := Observe(state, partial, policy, now);
    assert next.idleSince == state.idleSince && next.policyEpoch == policy.epoch;
    assert !ReadableChanged(next, s) && !Changed(next, s, policy);
  }

  lemma EnablingForgottenConcretely()
    ensures exists events, s, policy, now ::
      && Ordered(events + [Observation(s, policy, now)]) && policy.epoch.Some? && s.tier.Some?
      && Observe(Run(INITIAL, events), s, policy, now).eligible
      && Stamp(now) < policy.epoch.value + Delay(s.tier.value)
  {
    var s := Snapshot(1, None, true, true, false, map[], Some(Complete), true);
    var partial := s.(unreadable := true);
    var before, after := Policy(true, Some(0)), Policy(true, Some(90_000));
    var now := 90_000 * TICKS_PER_SECOND;
    var first, second := Observation(s, before, 0), Observation(partial, after, now);
    var start := Run(INITIAL, [first]);
    assert start == Step(INITIAL, first) by {
      assert [first][..0] == [];
      assert Run(INITIAL, [first][..0]) == INITIAL;
    }
    assert start.idleSince == Some(0) && start.policyEpoch == Some(0);
    EnablingForgotten(start, s, after, now, now);
    assert Run(INITIAL, [first, second]) == Step(start, second) by {
      assert [first, second][..1] == [first];
    }
    assert Ordered([first, second] + [Observation(s, after, now)]);
  }
}
