/**
 The store as its callers use it: one object holding the ledger and the claim file,
 one method per locked transaction. A transaction works on a copy and writes it back.
 */
module Coordination {
  import opened Wrappers
  import opened MachinePolicy
  import opened Ledger
  import opened LedgerInvariant
  import opened LedgerSafety
  import opened LedgerFencing
  import opened LedgerClaims
  import opened LedgerRuns
  import opened LedgerRequests
  import opened LedgerSettlement
  import opened Admission
  import opened ClaimMeaning
  import opened LedgerLifecycles
  import opened Scheduler

  // ---------------------------------------------------------------- facts about whole passes

  /** The candidates a pass finds ready, after it examined all of them. */
  function ReadyJobs(s: State): set<Id> {
    set j | j in s.jobs && s.jobs[j].state.Ready?
  }

  /** What one scheduler pass from `s` did: `examined` is the ledger between its two loops. */
  ghost predicate PassOutcome(norm: Norm, s: State, stopped: set<Id>, examined: State, order: seq<Id>, t: State,
      d: Decided) {
    && OnlyParked(s, examined)
    && (forall j :: j in Candidates(s) ==> j in examined.jobs && examined.jobs[j].state == Verdict(norm, s, stopped, j))
    && Listed(examined, true, ReadyJobs(examined), order)
    && (forall k :: 0 <= k < |order| ==> order[k] in examined.jobs)
    && Passed(examined, t, d.granted, d.refused) && Placed(order, d, |order|)
    && InOrder(norm, examined, order, d, |order|, |Working(t)| == Limit(s))
    && |Working(t)| <= Limit(s)
  }

  lemma ReadyOrder(norm: Norm, s: State, examined: State, stopped: set<Id>, order: seq<Id>)
    requires OnlyParked(s, examined) && Listed(examined, true, ReadyJobs(examined), order)
    requires forall j :: j in Candidates(s) ==>
      j in examined.jobs && examined.jobs[j].state == Verdict(norm, s, stopped, j)
    ensures AllReady(norm, examined, stopped, order)
  {
    forall k | 0 <= k < |order| ensures Judicious(norm, examined, stopped, order[k]) {
      var j := order[k];
      assert j in order && j in ReadyJobs(examined);
      assert ParkedJob(s.jobs[j], examined.jobs[j]);
      VerdictStable(norm, s, examined, stopped, j);
    }
    forall i, k | 0 <= i < k < |order| ensures order[i] != order[k] {
      assert Before(examined, true, order[i], order[k]);
    }
  }

  lemma SameWorking(s: State, t: State)
    requires OnlyParked(s, t)
    ensures Working(t) == Working(s) && Limit(t) == Limit(s)
  {
    forall j | j in s.jobs
      ensures (t.jobs[j].state.Claimed? || t.jobs[j].state.Running?) == (s.jobs[j].state.Claimed?
        || s.jobs[j].state.Running?)
    {
      assert ParkedJob(s.jobs[j], t.jobs[j]);
    }
  }

  // ---------------------------------------------------------------- what a pass means for the waiting jobs

  /** Both are ready, and `i` took its place before `j`. */
  predicate Precedes(s: State, i: Id, j: Id) {
    && i in s.jobs && j in s.jobs && s.jobs[i].state == Ready && s.jobs[j].state == Ready
    && s.jobs[i].readySequence.Some? && s.jobs[j].readySequence.Some?
    && (s.jobs[i].readySequence.value < s.jobs[j].readySequence.value ||
        (s.jobs[i].readySequence.value == s.jobs[j].readySequence.value && i < j))
  }

  predicate Collide(norm: Norm, s: State, i: Id, j: Id) {
    i in s.jobs && j in s.jobs && Meet(norm, s.jobs[i].resources, s.jobs[j].resources)
  }

  /** An earlier ready job that was claimed, or whose place is kept for another pass, has one of the resources. */
  ghost predicate GivesWay(norm: Norm, examined: State, d: Decided, j: Id) {
    exists i :: i in d.granted + d.kept && Precedes(examined, i, j) && Collide(norm, examined, i, j)
  }

  /** Four jobs work already. */
  predicate NoSlot(s: State) {
    |set j | j in s.jobs && (s.jobs[j].state == Claimed || s.jobs[j].state == Running)| >= 4
  }

  /** Every ready job is decided as its owner, its size and its place say, unless no slot is left or it gives way. */
  ghost predicate FairPass(norm: Norm, examined: State, t: State, d: Decided) {
    && (forall j :: j in examined.jobs && examined.jobs[j].state == Ready ==>
          j in d.granted + d.refused + d.kept || NoSlot(t) || GivesWay(norm, examined, d, j))
    && (forall j :: j in d.granted + d.refused + d.kept ==> j in examined.jobs && examined.jobs[j].state == Ready)
    && (forall i, j :: i in d.granted + d.kept && j in d.granted + d.kept && i != j ==> !Collide(norm, examined, i, j))
    && (forall j :: j in examined.jobs ==> j in t.jobs && Disposed(d, j, examined.jobs[j], t.jobs[j]))
  }

  /** What the second loop did to a job: a granted one owns its resources, one too large must be prepared again. */
  predicate Disposed(d: Decided, j: Id, a: Job, b: Job) {
    if j in d.granted then
      b == a.(state := Claimed, reason := None, attempt := b.attempt, revision := a.revision + 1)
    else if j in d.refused then
      b == a.(state := NeedsRefresh, reason := Some("worker_request_too_large"), revision := a.revision + 1)
    else b == a
  }

  lemma ServedMeans(norm: Norm, s: State, order: seq<Id>, t: State, d: Decided, j: Id)
    requires Listed(s, true, ReadyJobs(s), order) && (forall k :: 0 <= k < |order| ==> order[k] in s.jobs)
    requires forall i :: i in s.jobs && s.jobs[i].state == Ready ==> s.jobs[i].readySequence.Some?
    requires InOrder(norm, s, order, d, |order|, |Working(t)| == Limit(s)) && j in s.jobs && s.jobs[j].state == Ready
    ensures j in d.granted + d.refused + d.kept || NoSlot(t) || GivesWay(norm, s, d, j)
  {
    assert j in ReadyJobs(s) && j in order;
    var x :| 0 <= x < |order| && order[x] == j;
    if |Working(t)| == Limit(s) {
      assert Working(t) == set j | j in t.jobs && (t.jobs[j].state == Claimed || t.jobs[j].state == Running);
    } else {
      assert Served(norm, s, order, d, x);
      if Yielded(norm, s, order, d.granted + d.kept, x) {
        var w :| 0 <= w < x && order[w] in d.granted + d.kept && Overlap(norm, s, order[w], order[x]);
        assert Before(s, true, order[w], order[x]);
        assert order[w] in ReadyJobs(s);
        MeetIs(norm, s.jobs[order[w]].resources, s.jobs[j].resources);
        hide Keys, Meet;
        assert Precedes(s, order[w], j) && Collide(norm, s, order[w], j);
      }
    }
  }

  lemma ApartMeans(norm: Norm, s: State, order: seq<Id>, d: Decided, i: Id, j: Id)
    requires forall x, y ::
      0 <= x < y < |order| && order[x] in d.granted + d.kept && order[y] in d.granted + d.kept ==>
        order[x] in s.jobs && order[y] in s.jobs && !Overlap(norm, s, order[x], order[y])
    requires i in order && j in order && i != j && i in d.granted + d.kept && j in d.granted + d.kept
    ensures !Collide(norm, s, i, j)
  {
    var x :| 0 <= x < |order| && order[x] == i;
    var y :| 0 <= y < |order| && order[y] == j;
    if i in s.jobs && j in s.jobs {
      MeetIs(norm, s.jobs[i].resources, s.jobs[j].resources);
      KeysCommute(Keys(norm, s.jobs[i].resources), Keys(norm, s.jobs[j].resources));
      hide Keys, Meet;
      assert x < y || y < x;
    }
  }

  lemma KeysCommute(a: set<Resource>, b: set<Resource>)
    ensures a * b == b * a
  {
  }

  lemma PassedMeans(s: State, t: State, d: Decided)
    requires Passed(s, t, d.granted, d.refused)
    requires forall j :: j in d.granted + d.refused ==> j in s.jobs && s.jobs[j].state == Ready
    ensures forall j :: j in s.jobs ==> j in t.jobs && Disposed(d, j, s.jobs[j], t.jobs[j])
  {
    forall j | j in s.jobs ensures Disposed(d, j, s.jobs[j], t.jobs[j]) {
      assert PassedJob(s.jobs[j], t.jobs[j], j in d.granted, j in d.refused);
      assert j in d.granted + d.refused ==> s.jobs[j].state == Ready;
    }
  }

  lemma PlacedReady(s: State, order: seq<Id>, d: Decided)
    requires Listed(s, true, ReadyJobs(s), order) && Placed(order, d, |order|)
    ensures forall j :: j in d.granted + d.refused + d.kept ==> j in order && j in s.jobs && s.jobs[j].state == Ready
  {
    assert order[..|order|] == order;
    forall j | j in d.granted + d.refused + d.kept ensures j in order && j in s.jobs && s.jobs[j].state == Ready {
      assert j in order && j in ReadyJobs(s);
    }
  }

  lemma PassIsFair(norm: Norm, s: State, order: seq<Id>, t: State, d: Decided)
    requires Listed(s, true, ReadyJobs(s), order) && (forall k :: 0 <= k < |order| ==> order[k] in s.jobs)
    requires forall i :: i in s.jobs && s.jobs[i].state == Ready ==> s.jobs[i].readySequence.Some?
    requires InOrder(norm, s, order, d, |order|, |Working(t)| == Limit(s)) && Placed(order, d, |order|)
    requires Passed(s, t, d.granted, d.refused)
    requires forall x, y ::
      0 <= x < y < |order| && order[x] in d.granted + d.kept && order[y] in d.granted + d.kept ==>
        order[x] in s.jobs && order[y] in s.jobs && !Overlap(norm, s, order[x], order[y])
    ensures FairPass(norm, s, t, d)
  {
    PlacedReady(s, order, d);
    PassedMeans(s, t, d);
    forall i, j | i in d.granted + d.kept && j in d.granted + d.kept && i != j ensures !Collide(norm, s, i, j) {
      ApartMeans(norm, s, order, d, i, j);
    }
    hide InOrder, NoSlot, GivesWay, Overlap, Collide, Listed, Passed, Placed, Disposed, Working, Limit;
    forall j | j in s.jobs && s.jobs[j].state == Ready
      ensures j in d.granted + d.refused + d.kept || NoSlot(t) || GivesWay(norm, s, d, j)
    {
      ServedMeans(norm, s, order, t, d, j);
    }
  }

  /** The job may run, belongs to this pass and fits a worker request. */
  ghost predicate MayClaim(norm: Norm, s: State, stopped: set<Id>, ownerId: Option<Id>, workspace: string,
      tooLarge: set<Id>, j: Id) {
    && KnownJob(s, j) && AwaitsTurn(s.jobs[j].state) && MayRun(norm, s, stopped, j)
    && (ownerId.Some? ==> s.jobs[j].owner == ownerId.value) && s.owners[s.jobs[j].owner].workspace == workspace
    && j !in tooLarge
  }

  lemma ClaimMeans(norm: Norm, s: State, examined: State, t: State, stopped: set<Id>, ownerId: Option<Id>,
      workspace: string, tooLarge: set<Id>, attempts: Id -> Id, d: Decided, j: Id)
    requires OnlyParked(s, examined) && FairPass(norm, examined, t, d) && Attempted(t, d.granted, attempts)
    requires Mine(examined, ownerId, workspace, tooLarge, d)
    requires forall i :: i in s.jobs && AwaitsTurn(s.jobs[i].state) ==>
      i in examined.jobs && Examined(norm, s, examined, stopped, i)
    ensures MayClaim(norm, s, stopped, ownerId, workspace, tooLarge, j) ==>
      j in d.granted || NoSlot(t) || GivesWay(norm, examined, d, j)
    ensures j in d.granted ==>
      && MayClaim(norm, s, stopped, ownerId, workspace, tooLarge, j)
      && j in t.jobs && t.jobs[j].state == Claimed && t.jobs[j].attempt == Some(attempts(j))
  {
    if j in s.jobs {
      assert ParkedJob(s.jobs[j], examined.jobs[j]);
    }
    hide MayRun, GivesWay, NoSlot, MayQueue, Belongs, Collide;
    if j in s.jobs && AwaitsTurn(s.jobs[j].state) {
      assert Examined(norm, s, examined, stopped, j);
    }
  }

  /** At most four jobs work. */
  predicate FourWork(s: State) {
    |set j | j in s.jobs && (s.jobs[j].state == Claimed || s.jobs[j].state == Running)| <= 4
  }

  lemma SlotsHold(s: State, t: State)
    requires |Working(t)| <= Limit(s)
    ensures FourWork(s) ==> FourWork(t)
  {
    assert Working(s) == set j | j in s.jobs && (s.jobs[j].state == Claimed || s.jobs[j].state == Running);
    assert Working(t) == set j | j in t.jobs && (t.jobs[j].state == Claimed || t.jobs[j].state == Running);
  }

  // ---------------------------------------------------------------- facts about ticking one owner's claims

  lemma BusyGrows(norm: Norm, s: State, owner: Id, d: Id)
    ensures Busy(norm, s) <= Busy(norm, TickClaim(norm, s, owner, d))
  {
    hide Blocked;
    var t := TickClaim(norm, s, owner, d);
    forall k | k in HeldKeys(norm, s) ensures k in HeldKeys(norm, t) {
      var c, r :| c in s.claims && s.claims[c].state.Held? && r in s.claims[c].resources && norm(r) == k;
      assert c in t.claims && t.claims[c] == s.claims[c];
    }
  }

  /** A later grant never unblocks an earlier claim. */
  lemma BlockedStays(norm: Norm, s: State, owner: Id, d: Id, c: Id)
    requires ClaimsSound(s.owners, s.claims) && c in s.claims && d in s.claims
    requires s.claims[c].sequence < s.claims[d].sequence
    requires Blocked(norm, s, c)
    ensures c in TickClaim(norm, s, owner, d).claims && Blocked(norm, TickClaim(norm, s, owner, d), c)
  {
    var t := TickClaim(norm, s, owner, d);
    BusyGrows(norm, s, owner, d);
    if t != s && Free(norm, s, c) {
      var o :| o in s.claims && Overtakes(norm, s, c, o);
      StillOvertakes(norm, s, owner, d, c, o);
      assert o in t.claims && Overtakes(norm, t, c, o);
    }
  }

  lemma StillOvertakes(norm: Norm, s: State, owner: Id, d: Id, c: Id, o: Id)
    requires c in s.claims && d in s.claims && o in s.claims && s.claims[c].sequence < s.claims[d].sequence
    requires Overtakes(norm, s, c, o) && TickClaim(norm, s, owner, d) != s
    ensures o in TickClaim(norm, s, owner, d).claims && c in TickClaim(norm, s, owner, d).claims
    ensures Overtakes(norm, TickClaim(norm, s, owner, d), c, o)
  {
    var t := TickClaim(norm, s, owner, d);
    assert !Overtakes(norm, s, d, o);
    Apart(Keys(norm, s.claims[d].resources), Keys(norm, s.claims[o].resources));
    assert HeldKeys(norm, t) <= HeldKeys(norm, s) + Keys(norm, s.claims[d].resources);
  }

  /** The waiting claims of one owner. */
  function WaitingOf(s: State, owner: Id): set<Id> {
    set c | c in s.claims && s.claims[c].owner == owner && s.claims[c].state.Waiting?
  }

  ghost predicate InSequence(s: State, order: seq<Id>) {
    && (forall k :: 0 <= k < |order| ==> order[k] in s.claims)
    && forall i, k :: 0 <= i < k < |order| ==> s.claims[order[i]].sequence < s.claims[order[k]].sequence
  }

  /** Ticks change nothing of a claim but its state, its revision and whether it is to be announced. */
  ghost predicate OnlyTicked(s: State, t: State) {
    && SameOwners(s, t) && t.claims.Keys == s.claims.Keys && t.suspended == s.suspended
    && forall c :: c in s.claims ==>
         && t.claims[c] == s.claims[c].(state := t.claims[c].state, revision := t.claims[c].revision,
           notify := t.claims[c].notify)
         && (t.claims[c].state == s.claims[c].state || (s.claims[c].state.Waiting? && t.claims[c].state.Held?))
  }

  lemma TickedMore(norm: Norm, s: State, t: State, owner: Id, c: Id)
    requires OnlyTicked(s, t) && c in s.claims
    ensures OnlyTicked(s, TickClaim(norm, t, owner, c))
  {
    hide Blocked;
  }

  /** A claim that its own tick left waiting is blocked. */
  lemma TickedOrBlocked(norm: Norm, s: State, owner: Id, c: Id)
    requires LiveOwner(s, owner) && c in s.claims && s.claims[c].owner == owner
    ensures var t := TickClaim(norm, s, owner, c); c in t.claims && (t.claims[c].state.Waiting? ==> Blocked(norm, t, c))
  {
    hide Blocked;
  }

  // ---------------------------------------------------------------- loops over values

  function Prefixed(done: seq<Id>, r: Result<(State, seq<Id>)>): Result<(State, seq<Id>)> {
    match r case Success(v) => Success((v.0, done + v.1)) case Refused(e) => Refused(e)
  }

  lemma PrefixedNothing(r: Result<(State, seq<Id>)>)
    ensures Prefixed([], r) == r
  {
    match r
    case Success(v) => assert [] + v.1 == v.1;
    case Refused(_) =>
  }

  lemma PrefixedMore(done: seq<Id>, id: Id, r: Result<(State, seq<Id>)>)
    ensures Prefixed(done, Prefixed([id], r)) == Prefixed(done + [id], r)
  {
    match r
    case Success(v) => assert done + ([id] + v.1) == done + [id] + v.1;
    case Refused(_) =>
  }

  lemma CreateOneMore(s: State, owner: Id, drafts: seq<Draft>, ids: map<string, Id>, minted: seq<Id>,
      resources: seq<seq<Resource>>)
    requires drafts != [] && minted != [] && resources != [] && FreshId(s, minted[0])
    requires var deps := Resolve(drafts[0].dependsOn, ids);
      deps.Some? && CanCreate(s, owner, drafts[0], deps.value, resources[0])
    ensures var deps := Resolve(drafts[0].dependsOn, ids);
            var s1 := CreateJob(s, owner, drafts[0], deps.value, resources[0], minted[0]);
            CreateJobs(s, owner, drafts, ids, minted, resources)
            == Prefixed([minted[0]], CreateJobs(s1, owner, drafts[1..], ids[drafts[0].key := minted[0]], minted[1..],
              resources[1..]))
  {
    hide CanCreate, Resolve, CreateJob, FreshId;
  }

  /** The drafts of a batch in order; each may depend on keys of earlier ones. */
  method CreateAll(s: State, owner: Id, drafts: seq<Draft>, minted: seq<Id>, resources: seq<seq<Resource>>)
    returns (r: Result<(State, seq<Id>)>)
    ensures r == CreateJobs(s, owner, drafts, map[], minted, resources)
    ensures r.Success? ==> Submitted(s, r.value.0, owner, drafts, map[], resources, r.value.1)
  {
    hide CanCreate, Resolve, CreateJob, FreshId, Submitted;
    var data := s;
    var ids: map<string, Id> := map[];
    var done: seq<Id> := [];
    PrefixedNothing(CreateJobs(s, owner, drafts, map[], minted, resources));
    assert drafts[0..] == drafts && minted[0..] == minted && resources[0..] == resources;
    for i := 0 to |drafts|
      invariant i <= |minted| && i <= |resources|
      invariant CreateJobs(s, owner, drafts, map[], minted, resources)
                == Prefixed(done, CreateJobs(data, owner, drafts[i..], ids, minted[i..], resources[i..]))
    {
      if i == |minted| || i == |resources| || !FreshId(data, minted[i]) {
        return Refused("no fresh identity");
      }
      var dependsOn := Resolve(drafts[i].dependsOn, ids);
      if dependsOn.None? || !CanCreate(data, owner, drafts[i], dependsOn.value, resources[i]) {
        return Refused("invalid operation");
      }
      CreateOneMore(data, owner, drafts[i..], ids, minted[i..], resources[i..]);
      assert drafts[i..][1..] == drafts[i + 1..] && minted[i..][1..] == minted[i + 1..]
        && resources[i..][1..] == resources[i + 1..];
      var s1 := CreateJob(data, owner, drafts[i], dependsOn.value, resources[i], minted[i]);
      PrefixedMore(done, minted[i], CreateJobs(s1, owner, drafts[i + 1..], ids[drafts[i].key := minted[i]],
        minted[i + 1..], resources[i + 1..]));
      data, ids, done := s1, ids[drafts[i].key := minted[i]], done + [minted[i]];
    }
    assert done + [] == done;
    r := Success((data, done));
    BatchSubmits(s, owner, drafts, map[], minted, resources);
  }

  /** Raise the fence of every named owner, or of none. */
  method FenceAll(s: State, ids: seq<Id>, command: Command) returns (r: Result<State>)
    ensures r == FenceOwners(s, ids, command)
  {
    hide FenceOwner;
    var data := s;
    for i := 0 to |ids|
      invariant FenceOwners(s, ids, command) == FenceOwners(data, ids[i..], command)
    {
      if ids[i] !in data.owners {
        return Refused("unknown owner");
      }
      var fence := data.owners[ids[i]].fence;
      if fence.Some? && fence.value.command != command && !fence.value.completed {
        return Refused("coordination lifecycle intent requires another command");
      }
      assert ids[i..][1..] == ids[i + 1..];
      data := FenceOwner(data, ids[i], command);
    }
    r := Success(data);
  }

  /** Bind every raised fence to the operation, or none. */
  method BindAll(s: State, ids: seq<Id>, operation: Id) returns (r: Result<State>)
    ensures r == BoundFences(s, ids, operation)
  {
    var data := s;
    for i := 0 to |ids|
      invariant BoundFences(s, ids, operation) == BoundFences(data, ids[i..], operation)
    {
      if ids[i] !in data.owners || data.owners[ids[i]].fence.None? {
        return Refused("missing fence");
      }
      var owner := data.owners[ids[i]];
      if owner.fence.value.operation.Some? && owner.fence.value.operation != Some(operation) {
        return Refused("lifecycle fence belongs to another operation");
      }
      assert ids[i..][1..] == ids[i + 1..];
      data := data.(owners := data.owners[ids[i] := owner.(fence := Some(owner.fence.value.(operation :=
        Some(operation))))]);
    }
    r := Success(data);
  }

  /** Complete the fences a lifecycle receipt names. */
  method CompleteAll(s: State, bindings: seq<Binding>, command: Command, operation: Id, done: bool)
    returns (r: Result<State>)
    ensures r == CompleteOwners(s, bindings, command, operation, done)
  {
    hide CompleteOwner, IdleOwners;
    var data := s;
    for i := 0 to |bindings|
      invariant CompleteOwners(s, bindings, command, operation, done) == CompleteOwners(data, bindings[i..], command,
        operation, done)
    {
      assert bindings[i..][1..] == bindings[i + 1..];
      var b := bindings[i];
      if b.id !in data.owners {
        return Refused("unknown owner");
      }
      var owner := data.owners[b.id];
      if owner.identity != b.identity || owner.fence.None? || owner.fence.value.operation != Some(operation) {
        if !done {
          return Refused("lifecycle completion owner changed");
        }
      } else if command.Archive? && !IdleOwners(data, {b.id}) {
        return Refused("lifecycle waits for coordinated work");
      } else {
        data := CompleteOwner(data, b.id, command);
      }
    }
    r := Success(data);
  }

  /** Lift the fences of the owners a completed archive names. */
  method ReviveAll(s: State, bindings: seq<Binding>, archive: Option<Id>) returns (r: Result<State>)
    ensures r == ReviveOwners(s, bindings, archive)
  {
    hide ReviveOwner;
    var data := s;
    for i := 0 to |bindings|
      invariant ReviveOwners(s, bindings, archive) == ReviveOwners(data, bindings[i..], archive)
    {
      var b := bindings[i];
      if b.id !in data.owners {
        return Refused("unknown owner");
      }
      var owner := data.owners[b.id];
      if owner.identity != b.identity || owner.fence.None? || owner.fence.value.operation != archive
        || !owner.fence.value.completed {
        return Refused("revival owner incarnation changed");
      }
      assert bindings[i..][1..] == bindings[i + 1..];
      data := ReviveOwner(data, b.id);
    }
    r := Success(data);
  }

  method FindAttempt(history: seq<Record>, attempt: Id) returns (i: nat)
    ensures i == FindRecord(history, attempt)
  {
    i := 0;
    while i < |history| && history[i].attempt != attempt
      invariant i <= |history| && FindRecord(history, attempt) == i + FindRecord(history[i..], attempt)
    {
      assert history[i..][1..] == history[i + 1..];
      i := i + 1;
    }
  }

  method StillUnknown(history: seq<Record>) returns (unknown: bool)
    ensures unknown <==> AnyUnknown(history)
  {
    unknown := false;
    for k := 0 to |history|
      invariant unknown <==> exists n :: 0 <= n < k && history[n].outcome.Unknown?
    {
      unknown := unknown || history[k].outcome.Unknown?;
    }
  }

  /** Enter the outcome of an attempt into the deployment history of its reservation. */
  method RecordDeployment(v: Reservation, record: Record) returns (r: Result<Reservation>)
    ensures r == Recorded(v, record)
    ensures record.outcome == Applied || record.outcome == Unknown ==>
      (r.Success? <==> !Contradicts(v.history, record.attempt, record.outcome))
    ensures (record.outcome == Applied || record.outcome == Unknown) && !record.disposed && r.Success? ==>
      HistorySettled(v, r.value, record.attempt, record.kind, record.coverage, record.outcome)
  {
    if record.outcome == Applied || record.outcome == Unknown {
      HistoryExact(v, record);
    }
    hide FindRecord, AnyUnknown, Contradicts, HistorySettled;
    var i := FindAttempt(v.history, record.attempt);
    if i == |v.history| {
      return Success(v.(history := v.history + [record], state := if record.outcome.Applied? then DeployedReview
        else BlockedRecovery,
                        revision := v.revision + 1));
    }
    var existing := v.history[i];
    if existing.outcome == record.outcome {
      return Success(v);
    }
    if !existing.outcome.Unknown? || !record.outcome.Applied? || existing.disposed {
      return Refused("deployment history has an unsupported repeated disposition");
    }
    var history := v.history[i := existing.(outcome := record.outcome, disposed := true)];
    var unknown := StillUnknown(history);
    r := Success(v.(history := history, state := if unknown then BlockedRecovery else DeployedReview,
      revision := v.revision + 1));
  }

  /** The waiting claims of an owner by sequence. */
  method ClaimOrder(s: State, owner: Id) returns (order: seq<Id>)
    requires ClaimsSound(s.owners, s.claims)
    ensures InSequence(s, order) && forall c :: c in order <==> c in WaitingOf(s, owner)
  {
    order := [];
    var all := WaitingOf(s, owner);
    WaitingKnown(s, owner);
    hide WaitingOf, ClaimsSound;
    var rest := all;
    while rest != {}
      invariant rest <= all && InSequence(s, order)
      invariant forall c :: c in order <==> c in all && c !in rest
      invariant forall k, c :: 0 <= k < |order| && c in rest ==>
        order[k] in s.claims && s.claims[order[k]].sequence < s.claims[c].sequence
      decreases |rest|
    {
      var first := Earliest(s, rest);
      order, rest := order + [first], rest - {first};
    }
  }

  lemma WaitingKnown(s: State, owner: Id)
    ensures WaitingOf(s, owner) <= s.claims.Keys
  {
  }

  method Earliest(s: State, ids: set<Id>) returns (first: Id)
    requires ids <= s.claims.Keys && ids != {} && ClaimsSound(s.owners, s.claims)
    ensures first in ids && forall c :: c in ids && c != first ==> s.claims[first].sequence < s.claims[c].sequence
  {
    first :| first in ids;
    var rest := ids - {first};
    while rest != {}
      invariant rest <= ids && first in ids && first !in rest
      invariant forall c :: c in ids - rest && c != first ==> s.claims[first].sequence < s.claims[c].sequence
      decreases |rest|
    {
      var c :| c in rest;
      if s.claims[c].sequence < s.claims[first].sequence {
        first := c;
      }
      rest := rest - {c};
    }
  }

  /** Tick every waiting claim of a live owner, in order of sequence. */
  method TickAll(norm: Norm, s: State, owner: Id) returns (t: State, ghost ops: seq<Op>)
    requires ClaimsSound(s.owners, s.claims)
    ensures t == Run(norm, s, ops) && OnlyTicked(s, t)
    ensures LiveOwner(s, owner) ==>
      forall c :: c in t.claims && t.claims[c].owner == owner && t.claims[c].state.Waiting? ==> Blocked(norm, t, c)
  {
    var order := ClaimOrder(s, owner);
    t, ops := s, [];
    for i := 0 to |order|
      invariant t == Run(norm, s, ops) && OnlyTicked(s, t)
      invariant LiveOwner(s, owner) ==>
                  forall k :: 0 <= k < i ==> order[k] in t.claims && (t.claims[order[k]].state.Waiting? ==>
                    Blocked(norm, t, order[k]))
    {
      hide *;
      t, ops := TickNext(norm, s, t, owner, order, i, ops);
    }
    TickedAll(norm, s, t, owner, order);
  }

  method TickNext(norm: Norm, ghost s: State, t: State, owner: Id, order: seq<Id>, i: nat, ghost before: seq<Op>)
    returns (u: State, ghost ops: seq<Op>)
    requires ClaimsSound(s.owners, s.claims) && InSequence(s, order) && i < |order|
    requires (forall c :: c in order <==> c in WaitingOf(s, owner))
    requires t == Run(norm, s, before) && OnlyTicked(s, t)
    requires LiveOwner(s, owner) ==>
               forall k :: 0 <= k < i ==> order[k] in t.claims && (t.claims[order[k]].state.Waiting? ==>
                 Blocked(norm, t, order[k]))
    ensures u == Run(norm, s, ops) && OnlyTicked(s, u)
    ensures LiveOwner(s, owner) ==>
              forall k :: 0 <= k < i + 1 ==> order[k] in u.claims && (u.claims[order[k]].state.Waiting? ==>
                Blocked(norm, u, order[k]))
  {
    hide *;
    var c := order[i];
    FirstOfOrder(s, owner, order, i);
    TickedMore(norm, s, t, owner, c);
    RunAppend(norm, s, before, Tick(owner, c));
    TickIsNext(norm, t, owner, c);
    TurnBlocked(norm, s, t, owner, order, i);
    u, ops := TickClaim(norm, t, owner, c), before + [Tick(owner, c)];
  }

  lemma FirstOfOrder(s: State, owner: Id, order: seq<Id>, i: nat)
    requires i < |order| && forall c :: c in order <==> c in WaitingOf(s, owner)
    ensures order[i] in s.claims
  {
    assert order[i] in order;
  }

  lemma TickIsNext(norm: Norm, s: State, owner: Id, c: Id)
    ensures Next(norm, s, Tick(owner, c)) == TickClaim(norm, s, owner, c)
  {
    hide TickClaim;
  }

  lemma EarlierStays(norm: Norm, s: State, owner: Id, d: Id, c: Id)
    requires ClaimsSound(s.owners, s.claims) && c in s.claims && d in s.claims
    requires s.claims[c].sequence < s.claims[d].sequence
    requires s.claims[c].state.Waiting? ==> Blocked(norm, s, c)
    ensures var t := TickClaim(norm, s, owner, d); c in t.claims && (t.claims[c].state.Waiting? ==> Blocked(norm, t, c))
  {
    if s.claims[c].state.Waiting? {
      BlockedStays(norm, s, owner, d, c);
    } else {
      hide Blocked, ClaimsSound;
    }
  }

  lemma TurnBlocked(norm: Norm, s: State, t: State, owner: Id, order: seq<Id>, i: nat)
    requires ClaimsSound(s.owners, s.claims) && InSequence(s, order) && i < |order|
    requires (forall c :: c in order <==> c in WaitingOf(s, owner))
    requires OnlyTicked(s, t)
    requires LiveOwner(s, owner) ==>
               forall k :: 0 <= k < i ==> order[k] in t.claims && (t.claims[order[k]].state.Waiting? ==>
                 Blocked(norm, t, order[k]))
    ensures var u := TickClaim(norm, t, owner, order[i]);
            LiveOwner(s, owner) ==>
              forall k :: 0 <= k < i + 1 ==> order[k] in u.claims && (u.claims[order[k]].state.Waiting? ==>
                Blocked(norm, u, order[k]))
  {
    hide *;
    if LiveOwner(s, owner) {
      StillOrdered(s, t, owner, order, i);
      TickedOrBlocked(norm, t, owner, order[i]);
      forall k | 0 <= k < i
        ensures var u := TickClaim(norm, t, owner, order[i]);
          order[k] in u.claims && (u.claims[order[k]].state.Waiting? ==> Blocked(norm, u, order[k]))
      {
        EarlierStays(norm, t, owner, order[i], order[k]);
      }
    }
  }

  lemma StillOrdered(s: State, t: State, owner: Id, order: seq<Id>, i: nat)
    requires ClaimsSound(s.owners, s.claims) && InSequence(s, order) && i < |order|
    requires (forall c :: c in order <==> c in WaitingOf(s, owner))
    requires OnlyTicked(s, t) && LiveOwner(s, owner)
    ensures ClaimsSound(t.owners, t.claims) && LiveOwner(t, owner) && order[i] in t.claims
    ensures t.claims[order[i]].owner == owner
    ensures forall k :: 0 <= k < i ==> order[k] in t.claims && t.claims[order[k]].sequence < t.claims[order[i]].sequence
  {
    assert order[i] in order;
    assert |t.claims.Keys| == |s.claims.Keys|;
    assert forall c :: c in s.claims ==>
      t.claims[c].sequence == s.claims[c].sequence && t.claims[c].owner == s.claims[c].owner;
  }

  lemma TickedAll(norm: Norm, s: State, t: State, owner: Id, order: seq<Id>)
    requires OnlyTicked(s, t) && forall c :: c in order <==> c in WaitingOf(s, owner)
    requires LiveOwner(s, owner) ==>
               forall k :: 0 <= k < |order| ==> order[k] in t.claims && (t.claims[order[k]].state.Waiting? ==>
                 Blocked(norm, t, order[k]))
    ensures LiveOwner(s, owner) ==>
      forall c :: c in t.claims && t.claims[c].owner == owner && t.claims[c].state.Waiting? ==> Blocked(norm, t, c)
  {
    hide Blocked;
    if LiveOwner(s, owner) {
      forall c | c in t.claims && t.claims[c].owner == owner && t.claims[c].state.Waiting? ensures Blocked(norm, t, c) {
        assert c in WaitingOf(s, owner) && c in order;
        var k :| 0 <= k < |order| && order[k] == c;
      }
    }
  }

  /** Release a held claim or cancel a waiting one; repeating either returns the settled claim. */
  method Ended(s: State, owner: Id, c: Id, release: bool) returns (t: State, r: Result<Claim>)
    ensures (t, r) == ChangeClaim(s, owner, c, release)
  {
    hide LiveOwner;
    t := s;
    if !LiveOwner(s, owner) {
      return s, Refused("resource owner is fenced or coordination is suspended");
    }
    if c !in s.claims || s.claims[c].owner != owner {
      return s, Refused("claim belongs to another session incarnation");
    }
    var item, destination, expected := s.claims[c], if release then Dropped else Withdrawn, if release then Held
      else Waiting;
    if item.state == destination {
      return s, Success(item);
    }
    if item.state != expected {
      return s, Refused("claim is in another state");
    }
    item := item.(state := destination, notify := false, revision := item.revision + 1);
    t, r := s.(claims := s.claims[c := item]), Success(item);
  }

  // ---------------------------------------------------------------- what each transaction leaves behind

  lemma MutateSound(norm: Norm, s: State, owner: Id, request: Id, action: Action, out: Outside)
    requires Sound(norm, s)
    ensures Sound(norm, Perform(s, owner, request, action, out).0)
  {
    hide Sound, Perform;
    NextKeeps(norm, s, Request(owner, request, action, out));
  }

  lemma MoveSound(norm: Norm, s: State, job: Id, attempt: Id, state: JobState, reason: Option<string>, routed: set<Id>)
    requires Sound(norm, s)
    ensures Sound(norm, MovedAttempt(s, job, attempt, state, reason, routed))
  {
    hide Sound, MovedAttempt;
    NextKeeps(norm, s, Op.MoveAttempt(job, attempt, state, reason, routed));
  }

  lemma SettleSound(norm: Norm, s: State, job: Id, attempt: Id, outcome: Outcome, error: Option<string>,
      routed: set<Id>)
    requires Sound(norm, s)
    ensures Sound(norm, OrSame(s, Settle(s, job, attempt, outcome, error, routed)))
  {
    hide Sound, Settle;
    NextKeeps(norm, s, SettleAttempt(job, attempt, outcome, error, routed));
  }

  lemma FenceSound(norm: Norm, s: State, command: Command, ids: seq<Id>)
    requires Sound(norm, s)
    ensures Sound(norm, Fenced(s, command, ids))
  {
    hide Sound, Fenced;
    NextKeeps(norm, s, RaiseFences(command, ids));
  }

  lemma BindSound(norm: Norm, s: State, workspace: string, slug: string, command: Command, operation: Id, ids: seq<Id>,
      capacity: bool)
    requires Sound(norm, s)
    ensures Sound(norm, OrSame(s, BindLifecycle(s, workspace, slug, command, operation, ids, capacity)))
  {
    hide Sound, BindLifecycle;
    NextKeeps(norm, s, Bind(workspace, slug, command, operation, ids, capacity));
  }

  lemma RevivalSound(norm: Norm, s: State, workspace: string, slug: string, operation: Id, archive: Id, capacity: bool)
    requires Sound(norm, s)
    ensures Sound(norm, OrSame(s, BindRevival(s, workspace, slug, operation, archive, capacity)))
  {
    hide Sound, BindRevival;
    NextKeeps(norm, s, BindRevive(workspace, slug, operation, archive, capacity));
  }

  lemma CompleteSound(norm: Norm, s: State, workspace: string, slug: string, command: Command, operation: Id)
    requires Sound(norm, s)
    ensures Sound(norm, OrSame(s, CompleteLifecycle(s, workspace, slug, command, operation)))
  {
    hide Sound, CompleteLifecycle;
    NextKeeps(norm, s, Complete(workspace, slug, command, operation));
  }

  lemma LiftSound(norm: Norm, s: State, workspace: string, slug: string, operation: Id)
    requires Sound(norm, s)
    ensures Sound(norm, OrSame(s, Revived(s, workspace, slug, operation)))
  {
    hide Sound, Revived;
    NextKeeps(norm, s, Lift(workspace, slug, operation));
  }

  lemma AcquireSound(norm: Norm, s: State, owner: Id, id: Id, request: ClaimRequest, resources: seq<Resource>,
      wait: bool, grant: bool, capacity: bool)
    requires Sound(norm, s)
    ensures Sound(norm, Acquire(norm, s, owner, id, request, resources, wait, grant, capacity).0)
  {
    hide Sound, Acquire;
    NextKeeps(norm, s, Op.AcquireClaim(owner, id, request, resources, wait, grant, capacity));
  }

  lemma EndSound(norm: Norm, s: State, owner: Id, c: Id, release: bool)
    requires Sound(norm, s)
    ensures Sound(norm, ChangeClaim(s, owner, c, release).0)
  {
    hide Sound, ChangeClaim;
    NextKeeps(norm, s, Op.EndClaim(owner, c, release));
  }

  lemma DeliverySound(norm: Norm, s: State, event: EventId, delivered: bool)
    requires Sound(norm, s)
    ensures var t := if delivered then Deliver(s, event) else DeliveryFailed(s, event);
            Sound(norm, t) && (Silent(s) && (delivered || !StaleRetry(s, event)) ==> Silent(t))
  {
    hide Sound, Silent, StaleRetry, Deliver, DeliveryFailed;
    NextKeeps(norm, s, if delivered then DeliverEvent(event) else FailEvent(event));
  }

  // ---------------------------------------------------------------- the store

  lemma TakeOrSame(s: State, r: Result<State>)
    ensures OrSame(s, r) == if r.Success? then r.value else s
  {
  }

  /** The body of Store#bind_lifecycle: fence the owners, bind the fences, then enter the receipt. */
  method BindData(s: State, workspace: string, slug: string, command: Command, operation: Id, ids: seq<Id>,
      capacity: bool)
    returns (r: Result<State>)
    ensures r == Ledger.BindLifecycle(s, workspace, slug, command, operation, ids, capacity)
  {
    hide IdleOwners, FenceOwners, BoundFences, Sync, Bindings, Distinct, SameOwners, SameRecords;
    if operation in s.lifecycles {
      var saved := s.lifecycles[operation];
      if saved.workspace != workspace || saved.slug != slug || saved.command != command {
        return Refused("lifecycle receipt identity changed");
      }
      return Success(Sync(s));
    }
    if ids == [] {
      return Success(Sync(s));
    }
    if command.Revive? || !Distinct(ids) || !IdleOwners(s, set i | i in ids) {
      return Refused("lifecycle waits for coordinated work");
    }
    var fenced := FenceAll(s, ids, command);
    if fenced.Refused? {
      return Refused(fenced.reason);
    }
    var bound := BindAll(fenced.value, ids, operation);
    if bound.Refused? {
      return Refused(bound.reason);
    }
    var data := bound.value;
    if !capacity || exists i :: i in ids && i !in data.owners {
      return Refused("coordination admission capacity exhausted");
    }
    r := Success(Sync(data.(lifecycles := data.lifecycles[operation := Lifecycle(workspace, slug, command,
      Bindings(data, ids), None, false)])));
  }

  class Store {
    const norm: Norm
    var disk: State

    constructor (norm: Norm)
      ensures Sound(norm, disk) && this.norm == norm && disk == Empty
    {
      EmptyInv(norm);
      this.norm, disk := norm, Empty;
    }

    /**
     Store#request around Engine#mutate, #submit_batch and #finish: answer from the receipt, or act once and record it.
     */
    method Mutate(owner: Id, request: Id, action: Action, out: Outside) returns (r: Result<Reply>)
      requires Sound(norm, disk)
      modifies this
      ensures Sound(norm, disk)
      ensures (disk, r) == Perform(old(disk), owner, request, action, out)
    {
      MutateSound(norm, disk, owner, request, action, out);
      hide Sound, Effect;
      if request in disk.receipts {
        var receipt := disk.receipts[request];
        if receipt.owner != owner || receipt.action != action {
          return Refused("requestId was reused for different input");
        }
        return Success(receipt.reply);
      }
      if owner !in disk.owners || disk.owners[owner].fence.Some? {
        return Refused("session is fenced by a lifecycle operation");
      }
      var effect := ApplyAction(disk, owner, action, out);
      if effect.Refused? {
        return Refused(effect.reason);
      }
      var (data, reply) := effect.value;
      if !action.Cancel? && !action.Finish? && !out.capacity {
        return Refused("coordination admission capacity exhausted");
      }
      disk := data.(receipts := data.receipts[request := Receipt(owner, action, reply)]);
      r := Success(reply);
    }

    static method ApplyAction(s: State, owner: Id, action: Action, out: Outside) returns (r: Result<(State, Reply)>)
      requires owner in s.owners
      ensures r == Effect(s, owner, action, out)
    {
      if action.SubmitBatch? {
        hide CreateJobs;
        var created := CreateAll(s, owner, action.drafts, out.minted, out.resources);
        match created
        case Refused(e) => r := Refused(e);
        case Success(v) => r := Success((v.0, BatchReply(v.1)));
      } else {
        r := Effect(s, owner, action, out);
      }
    }

    /**
     Engine#claim_ready. `stopped` are the jobs of paused integrations, `tooLarge` those whose worker request is too
     large.
     */
    method ClaimReady(ownerId: Option<Id>, workspace: string, stopped: set<Id>, tooLarge: set<Id>, attempts: Id -> Id,
        routed: set<Id>)
      returns (claimed: seq<Id>, ghost examined: State, ghost order: seq<Id>, ghost d: Decided, ghost ops: seq<Op>)
      requires Sound(norm, disk)
      modifies this
      ensures Sound(norm, disk) && disk == Run(norm, old(disk), ops)
      ensures old(disk).suspended ==> disk == old(disk) && claimed == []
      ensures !old(disk).suspended ==> PassOutcome(norm, old(disk), stopped, examined, order, disk, d)
      ensures !old(disk).suspended ==>
        forall j :: j in old(disk).jobs && AwaitsTurn(old(disk).jobs[j].state) ==>
          j in examined.jobs && Examined(norm, old(disk), examined, stopped, j)
      ensures !old(disk).suspended ==> FirstComeFirst(old(disk), examined) && FairPass(norm, examined, disk, d)
      ensures !old(disk).suspended ==>
        forall j :: MayClaim(norm, old(disk), stopped, ownerId, workspace, tooLarge, j) ==>
          j in claimed || NoSlot(disk) || GivesWay(norm, examined, d, j)
      ensures forall j :: j in claimed ==>
        && MayClaim(norm, old(disk), stopped, ownerId, workspace, tooLarge, j)
        && j in disk.jobs && disk.jobs[j].state == Claimed && disk.jobs[j].attempt == Some(attempts(j))
      ensures FourWork(old(disk)) ==> FourWork(disk)
      ensures !old(disk).suspended ==>
        && (forall j :: j in claimed <==> j in d.granted) && Mine(examined, ownerId, workspace, tooLarge, d)
        && Attempted(disk, d.granted, attempts)
    {
      hide *;
      claimed, examined, order, d, ops := [], disk, [], Decided({}, {}, {}), [];
      if disk.suspended {
        RunNothing(norm, disk);
        return;
      }
      SoundInv(norm, disk);
      var data, parks := Examine(norm, disk, stopped, routed);
      examined := data;
      PassKeeps(norm, disk, parks);
      SoundInv(norm, data);
      ReadyKnown(data);
      var ready := Order(data, true, ReadyJobs(data));
      order := ready;
      ReadyOrder(norm, disk, data, stopped, ready);
      SameWorking(disk, data);
      ReadyHavePlaces(norm, disk, data, stopped);
      ghost var grants;
      data, claimed, d, grants := GrantReady(norm, data, stopped, ready, ownerId, workspace, tooLarge, attempts,
        routed);
      RunConcat(norm, disk, parks, grants);
      ops := parks + grants;
      PassKeeps(norm, disk, ops);
      PassDone(norm, disk, stopped, examined, order, data, d);
      PassIsFair(norm, examined, order, data, d);
      SlotsHold(disk, data);
      forall j {
        ClaimMeans(norm, disk, examined, data, stopped, ownerId, workspace, tooLarge, attempts, d, j);
      }
      disk := data;
    }

    /** The state changes of #reconcile_attempts and #dispatch for one claimed job and its current attempt. */
    method MoveAttempt(job: Id, attempt: Id, state: JobState, reason: Option<string>, routed: set<Id>)
      requires Sound(norm, disk)
      modifies this
      ensures Sound(norm, disk) && disk == MovedAttempt(old(disk), job, attempt, state, reason, routed)
      ensures if MayMove(old(disk), job, attempt, state)
        then AttemptMoved(old(disk), disk, job, state, reason, routed) else disk == old(disk)
    {
      MoveSound(norm, disk, job, attempt, state, reason, routed);
      MoveMeans(disk, job, attempt, state, reason, routed);
      hide Sound, Transition, MayMove, AttemptMoved;
      if CurrentAttempt(disk, job, attempt) && (state.Reconciling? || (state.Running?
        && disk.jobs[job].state.Claimed?)) {
        disk := Transition(disk, job, state, reason, routed);
      }
    }

    /**
     The settlement of #reconcile_attempts: the result, the move of the job, and the deployment history of its
     reservation.
     */
    method Reconcile(job: Id, attempt: Id, outcome: Outcome, error: Option<string>, routed: set<Id>)
      returns (r: Result<()>)
      requires Sound(norm, disk)
      modifies this
      ensures Sound(norm, disk) && disk == OrSame(old(disk), Settle(old(disk), job, attempt, outcome, error, routed))
      ensures r.Success? <==> MaySettle(old(disk), job, attempt, outcome)
      ensures r.Success? ==> JobSettled(old(disk), disk, job, outcome, error)
      ensures r.Success? ==> ReservationsSettled(old(disk), disk, job, attempt, outcome)
      ensures r.Success? ==> SettlementTold(old(disk), disk, job, error, routed)
      ensures r.Refused? ==> disk == old(disk)
    {
      SettleSound(norm, disk, job, attempt, outcome, error, routed);
      OutcomeLeads(disk, job, attempt, outcome, error, routed);
      hide Sound, Recorded, Replace, Contradicts, HistorySettled, MaySettle, JobSettled, ReservationsSettled,
        SettlementTold;
      if !CurrentAttempt(disk, job, attempt) {
        return Refused("attempt is not current");
      }
      var data, current := disk, disk.jobs[job];
      if current.reservation.Some? && current.reservation.value in data.reservations
        && (outcome.Applied? || outcome.Unknown?) {
        var record := Record(attempt, current.kind, current.snapshot.coverage, outcome, false);
        var recorded := RecordDeployment(data.reservations[current.reservation.value], record);
        if recorded.Refused? {
          return Refused(recorded.reason);
        }
        data := data.(reservations := data.reservations[current.reservation.value := recorded.value]);
      }
      disk := Replace(data, job, current.(result := Some(outcome)), Settled(outcome), error, routed);
      r := Success(());
    }

    /** Store#fence. */
    method Fence(command: Command, ids: seq<Id>) returns (r: Result<()>)
      requires Sound(norm, disk)
      modifies this
      ensures Sound(norm, disk) && disk == Fenced(old(disk), command, ids)
      ensures r.Success? <==> MayBeFenced(old(disk), command, ids)
      ensures r.Success? ==>
        && FencesRaised(old(disk), disk.(claims := old(disk).claims), Those(ids), command)
        && ClaimsWithdrawn(disk.owners, old(disk).claims, disk.claims)
      ensures r.Refused? ==> disk == old(disk)
    {
      FenceSound(norm, disk, command, ids);
      FenceMeans(disk, command, ids);
      hide Sound, IdleOwners, FenceOwners, Sync, MayBeFenced, FencesRaised, ClaimsWithdrawn;
      if command.Revive? || !Distinct(ids) || !IdleOwners(disk, set i | i in ids) {
        return Refused("lifecycle waits for coordinated work");
      }
      var fenced := FenceAll(disk, ids, command);
      if fenced.Refused? {
        return Refused(fenced.reason);
      }
      disk := Sync(fenced.value);
      r := Success(());
    }

    /** Store#bind_lifecycle; `ids` are the owners of the incarnation found on disk. */
    method BindLifecycle(workspace: string, slug: string, command: Command, operation: Id, ids: seq<Id>, capacity: bool)
      returns (r: Result<()>)
      requires Sound(norm, disk)
      modifies this
      ensures Sound(norm, disk)
      ensures disk == OrSame(old(disk), Ledger.BindLifecycle(old(disk), workspace, slug, command, operation, ids,
        capacity))
      ensures r.Success? <==>
        Ledger.BindLifecycle(old(disk), workspace, slug, command, operation, ids, capacity).Success?
      ensures r.Success? && operation !in old(disk).lifecycles && ids != [] ==>
        && MayBeFenced(old(disk), command, ids)
        && BoundAs(old(disk), disk, workspace, slug, command, operation, ids)
    {
      hide *;
      BindSound(norm, disk, workspace, slug, command, operation, ids, capacity);
      var bound := BindData(disk, workspace, slug, command, operation, ids, capacity);
      TakeOrSame(disk, bound);
      if bound.Success? && operation !in disk.lifecycles && ids != [] {
        BindMeans(disk, workspace, slug, command, operation, ids, capacity);
      }
      if bound.Refused? {
        return Refused(bound.reason);
      }
      disk, r := bound.value, Success(());
    }

    /** Store#bind_revival. */
    method BindRevival(workspace: string, slug: string, operation: Id, archive: Id, capacity: bool)
      returns (r: Result<()>)
      requires Sound(norm, disk)
      modifies this
      ensures Sound(norm, disk)
      ensures disk == OrSame(old(disk), Ledger.BindRevival(old(disk), workspace, slug, operation, archive, capacity))
      ensures r.Success? <==>
        Ledger.BindRevival(old(disk), workspace, slug, operation, archive, capacity).Success?
      ensures operation !in old(disk).lifecycles && archive in old(disk).lifecycles ==>
        && (r.Success? <==> MayBindRevival(old(disk), workspace, slug, archive, capacity))
        && (r.Success? ==>
              && disk == old(disk).(lifecycles := old(disk).lifecycles[operation := Lifecycle(workspace, slug,
                   Command.Revive, old(disk).lifecycles[archive].owners, Some(archive), false)], claims := disk.claims)
              && ClaimsWithdrawn(disk.owners, old(disk).claims, disk.claims))
    {
      RevivalSound(norm, disk, workspace, slug, operation, archive, capacity);
      if operation !in disk.lifecycles && archive in disk.lifecycles {
        RevivalMeans(disk, workspace, slug, operation, archive, capacity);
      }
      hide Sound, Sync, ClaimsWithdrawn;
      if operation in disk.lifecycles {
        var saved := disk.lifecycles[operation];
        if saved.workspace != workspace || saved.slug != slug || !saved.command.Revive? {
          return Refused("revival receipt identity changed");
        }
        disk, r := Sync(disk), Success(());
        return;
      }
      if archive !in disk.lifecycles {
        disk, r := Sync(disk), Success(());
        return;
      }
      var source := disk.lifecycles[archive];
      if !source.completed || source.workspace != workspace || source.slug != slug || !source.command.Archive? {
        return Refused("revival archive identity changed");
      }
      if !capacity {
        return Refused("coordination admission capacity exhausted");
      }
      disk := Sync(disk.(lifecycles := disk.lifecycles[operation := Lifecycle(workspace, slug, Command.Revive,
        source.owners, Some(archive), false)]));
      r := Success(());
    }

    /** Store#lifecycle_completed. */
    method LifecycleCompleted(workspace: string, slug: string, command: Command, operation: Id) returns (r: Result<()>)
      requires Sound(norm, disk)
      modifies this
      ensures Sound(norm, disk)
      ensures disk == OrSame(old(disk), CompleteLifecycle(old(disk), workspace, slug, command, operation))
      ensures r.Success? <==> CompleteLifecycle(old(disk), workspace, slug, command, operation).Success?
      ensures r.Success? && operation in old(disk).lifecycles ==> CompletedAs(old(disk), disk, operation)
    {
      CompleteSound(norm, disk, workspace, slug, command, operation);
      CompletionMeans(disk, workspace, slug, command, operation);
      hide Sound, CompleteOwners, Sync, CompletedAs;
      if operation !in disk.lifecycles {
        disk, r := Sync(disk), Success(());
        return;
      }
      var receipt := disk.lifecycles[operation];
      if receipt.workspace != workspace || receipt.slug != slug || receipt.command != command {
        return Refused("lifecycle completion identity changed");
      }
      var completed := CompleteAll(disk, receipt.owners, command, operation, receipt.completed);
      if completed.Refused? {
        return Refused(completed.reason);
      }
      var data := completed.value;
      disk := Sync(data.(lifecycles := data.lifecycles[operation := receipt.(completed := true)]));
      r := Success(());
    }

    /** Store#revived, after the revival is bound. */
    method Revived(workspace: string, slug: string, operation: Id) returns (r: Result<()>)
      requires Sound(norm, disk)
      modifies this
      ensures Sound(norm, disk) && disk == OrSame(old(disk), Ledger.Revived(old(disk), workspace, slug, operation))
      ensures r.Success? <==> Ledger.Revived(old(disk), workspace, slug, operation).Success?
      ensures r.Success? && operation in old(disk).lifecycles && !old(disk).lifecycles[operation].completed ==>
        RevivedAs(old(disk), disk, operation)
    {
      LiftSound(norm, disk, workspace, slug, operation);
      ReviveMeans(disk, workspace, slug, operation);
      hide Sound, ReviveOwners, Sync, RevivedAs;
      if operation !in disk.lifecycles {
        disk, r := Sync(disk), Success(());
        return;
      }
      var saved := disk.lifecycles[operation];
      if saved.workspace != workspace || saved.slug != slug || !saved.command.Revive? {
        return Refused("revival receipt identity changed");
      }
      if saved.completed {
        disk, r := Sync(disk), Success(());
        return;
      }
      var lifted := ReviveAll(disk, saved.owners, saved.archive);
      if lifted.Refused? {
        return Refused(lifted.reason);
      }
      var data := lifted.value;
      disk := Sync(data.(lifecycles := data.lifecycles[operation := saved.(completed := true)]));
      r := Success(());
    }

    /** Engine#create_resource_claim_ready; the resources of the request are resolved outside the lock. */
    method AcquireClaim(owner: Id, id: Id, request: ClaimRequest, resources: seq<Resource>, wait: bool, grant: bool,
        capacity: bool)
      returns (r: Result<Claim>)
      requires Sound(norm, disk)
      modifies this
      ensures Sound(norm, disk)
      ensures (disk, r) == Acquire(norm, old(disk), owner, id, request, resources, wait, grant, capacity)
      ensures Acquired(norm, old(disk), disk, r, owner, id, request, resources, wait, grant, capacity)
    {
      AcquireSound(norm, disk, owner, id, request, resources, wait, grant, capacity);
      AcquireMeans(norm, disk, owner, id, request, resources, wait, grant, capacity);
      hide Sound, Blocked, Acquired;
      if !LiveOwner(disk, owner) {
        return Refused("resource owner is fenced or coordination is suspended");
      }
      if id in disk.claims {
        var saved := disk.claims[id];
        if saved.owner != owner || saved.request != request {
          return Refused("claim requestId reused with changed input or owner");
        }
        return Success(saved);
      }
      var data := NewClaim(disk, owner, id, request, resources);
      var blocked := !grant || Blocked(norm, data, id);
      if blocked && !wait {
        return Refused("retained preparation waits for resource ownership");
      }
      if !capacity {
        return Refused("coordination admission capacity exhausted");
      }
      if !blocked {
        data := SetHeld(data, id, 1, false);
      }
      disk, r := data, Success(data.claims[id]);
    }

    /** The first loop of Engine#tick_claims_ready: afterwards nothing the owner still waits for could be granted. */
    method TickClaims(owner: Id) returns (ghost ops: seq<Op>)
      requires Sound(norm, disk)
      modifies this
      ensures Sound(norm, disk) && disk == Run(norm, old(disk), ops) && OnlyTicked(old(disk), disk)
      ensures LiveOwner(old(disk), owner) ==>
                forall c :: c in disk.claims && disk.claims[c].owner == owner && disk.claims[c].state.Waiting? ==>
                  !MayHold(norm, disk, c)
    {
      hide *;
      SoundInv(norm, disk);
      var data;
      data, ops := TickAll(norm, disk, owner);
      PassKeeps(norm, disk, ops);
      forall c | c in data.claims ensures Blocked(norm, data, c) <==> !MayHold(norm, data, c) {
        MayHoldIs(norm, data, c);
      }
      disk := data;
    }

    /** Engine#change_claim. */
    method EndClaim(owner: Id, c: Id, release: bool) returns (r: Result<Claim>)
      requires Sound(norm, disk)
      modifies this
      ensures Sound(norm, disk)
      ensures (disk, r) == ChangeClaim(old(disk), owner, c, release)
      ensures EndedAs(old(disk), disk, r, owner, c, release)
    {
      EndSound(norm, disk, owner, c, release);
      EndMeans(disk, owner, c, release);
      hide Sound, ChangeClaim, EndedAs;
      var data;
      data, r := Ended(disk, owner, c, release);
      disk := data;
    }

    /**
     The last transactions of #deliver_notifications for one event: the receipt of a delivery, or the record of a
     failure.
     */
    method FinishDelivery(event: EventId, delivered: bool)
      requires Sound(norm, disk)
      modifies this
      ensures Sound(norm, disk)
      ensures disk == if delivered then Deliver(old(disk), event) else DeliveryFailed(old(disk), event)
      ensures Silent(old(disk)) && (delivered || !StaleRetry(old(disk), event)) ==> Silent(disk)
      ensures event !in old(disk).outbox ==> disk == old(disk)
      ensures event in old(disk).outbox ==>
        var a := old(disk).outbox[event];
        disk == old(disk).(outbox := old(disk).outbox[event := Event(a.owner,
          if delivered then Delivered else if a.state == Parked then Parked else Retry)])
    {
      DeliverySound(norm, disk, event, delivered);
      hide Sound, Silent, StaleRetry;
      if event in disk.outbox && (delivered || !disk.outbox[event].state.Parked?) {
        disk := disk.(outbox := disk.outbox[event := disk.outbox[event].(state := if delivered then Delivered
          else Retry)]);
      }
    }

    /** #background_notice, whose guard has found the owner live. */
    method Notice(owner: Id, run: Id, generation: Id, complete: bool)
      requires Sound(norm, disk)
      modifies this
      ensures Sound(norm, disk) && disk == NotifyRun(old(disk), owner, run, generation, complete)
      ensures Silent(old(disk)) ==> Silent(disk)
      ensures disk == old(disk).(outbox := disk.outbox) && (!Live(old(disk), owner) ==> disk == old(disk))
      ensures Live(old(disk), owner) ==>
        Tells(old(disk), disk, owner, EventId(owner, run, Some(generation), OfRun(complete)), {})
    {
      NoticeSound(norm, disk, Op.Notice(owner, run, generation, complete));
      hide Sound, Silent;
      var e := EventId(owner, run, Some(generation), OfRun(complete));
      if LiveOwner(disk, owner) && disk.owners[owner].thread && e !in disk.outbox {
        disk := disk.(outbox := disk.outbox[e := Event(owner, Pending)]);
      }
    }

    /** The transaction of #remind_integrations for one handoff that is due. */
    method SendAgain(event: EventId)
      requires Sound(norm, disk)
      modifies this
      ensures Sound(norm, disk) && disk == Remind(old(disk), event)
      ensures Silent(old(disk)) ==> Silent(disk)
      ensures disk == if event in old(disk).outbox && old(disk).outbox[event].state == Delivered &&
        Live(old(disk), old(disk).outbox[event].owner)
        then old(disk).(outbox := old(disk).outbox[event := Event(old(disk).outbox[event].owner, Retry)]) else old(disk)
    {
      NoticeSound(norm, disk, Reminder(event));
      hide Sound, Silent;
      if event in disk.outbox && disk.outbox[event].state.Delivered? && LiveOwner(disk, disk.outbox[event].owner) {
        disk := disk.(outbox := disk.outbox[event := disk.outbox[event].(state := Retry)]);
      }
    }
  }

  lemma NoticeSound(norm: Norm, s: State, op: Op)
    requires Sound(norm, s) && (op.Notice? || op.Reminder?)
    ensures Sound(norm, Next(norm, s, op)) && (Silent(s) ==> Silent(Next(norm, s, op)))
  {
    hide Sound, Silent, NotifyRun, Remind;
    NextKeeps(norm, s, op);
  }

  lemma SoundInv(norm: Norm, s: State)
    requires Sound(norm, s)
    ensures Inv(norm, s) && ClaimsSound(s.owners, s.claims)
  {
    hide JobsSound, ReservationsSound, MachinesExclusive, JobsExclusive, ProtocolsExclusive, ClaimsExclusive,
      ClaimsSound, FencedQuiet, EventsSound, LifecyclesSound;
  }

  lemma PassKeeps(norm: Norm, s: State, ops: seq<Op>)
    requires Sound(norm, s)
    ensures Sound(norm, Run(norm, s, ops))
  {
    hide *;
    RunKeeps(norm, s, ops);
  }

  lemma ReadyHavePlaces(norm: Norm, s: State, t: State, stopped: set<Id>)
    requires OnlyParked(s, t)
    requires forall j :: j in s.jobs && AwaitsTurn(s.jobs[j].state) ==>
      j in t.jobs && Examined(norm, s, t, stopped, j)
    ensures forall j :: j in t.jobs && t.jobs[j].state == Ready ==> t.jobs[j].readySequence.Some?
  {
    forall j | j in t.jobs && t.jobs[j].state == Ready ensures t.jobs[j].readySequence.Some? {
      assert ParkedJob(s.jobs[j], t.jobs[j]);
      assert Examined(norm, s, t, stopped, j);
    }
  }

  lemma ReadyKnown(s: State)
    ensures ReadyJobs(s) <= s.jobs.Keys
  {
  }

  lemma PassDone(norm: Norm, s: State, stopped: set<Id>, examined: State, order: seq<Id>, t: State, d: Decided)
    requires OnlyParked(s, examined) && Limit(examined) == Limit(s)
    requires forall j :: j in Candidates(s) ==>
      j in examined.jobs && examined.jobs[j].state == Verdict(norm, s, stopped, j)
    requires ReadyJobs(examined) <= examined.jobs.Keys && Listed(examined, true, ReadyJobs(examined), order)
    requires forall k :: 0 <= k < |order| ==> order[k] in examined.jobs
    requires Passed(examined, t, d.granted, d.refused) && Placed(order, d, |order|) && |Working(t)| <= Limit(examined)
    requires InOrder(norm, examined, order, d, |order|, |Working(t)| == Limit(examined))
    ensures PassOutcome(norm, s, stopped, examined, order, t, d)
  {
    hide OnlyParked, Verdict, Listed, ReadyJobs, Passed, Placed, InOrder, Working, Limit;
  }
}
