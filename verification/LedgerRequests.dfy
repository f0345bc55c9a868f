/**
 What the requests of an owner do, said on the fields of the records and not through
 the functions that compute them: the jobs of a batch, a release of a machine, the
 approvals, reservations, cancellations and refreshes.
 */
module LedgerRequests {
  import opened Wrappers
  import opened MachinePolicy
  import opened Ledger
  import opened LedgerInvariant
  import opened LedgerRuns
  import opened LedgerLaws

  // ---------------------------------------------------------------- the jobs of a batch

  /** The last draft before place `k` with the key. */
  ghost predicate LastBefore(drafts: seq<Draft>, k: int, key: string, i: int)
    requires k <= |drafts|
  {
    0 <= i < k && drafts[i].key == key && forall h :: i < h < k ==> drafts[h].key != key
  }

  /** What a dependency of draft `k` means: a known job, or that of the last earlier draft with the key. */
  ghost predicate Meant(drafts: seq<Draft>, made: seq<Id>, known: map<string, Id>, k: int, dependency: Dependency,
      job: Id)
    requires k <= |drafts| == |made|
  {
    match dependency
    case Known(id) => job == id
    case Keyed(key) =>
      || (exists i :: LastBefore(drafts, k, key, i) && job == made[i])
      || ((forall i :: 0 <= i < k ==> drafts[i].key != key) && key in known && job == known[key])
  }

  /** A job as its draft asks for it. */
  predicate Made(job: Job, owner: Id, draft: Draft, resources: seq<Resource>, sequence: nat) {
    && job.owner == owner && job.kind == draft.kind && job.approval == draft.approval
    && job.reservation == draft.reservation && job.snapshot == draft.snapshot && job.resources == resources
    && job.state.WaitingApproval? && job.reason.None? && job.revision == 1 && job.sequence == sequence
    && job.readySequence.None? && job.attempt.None? && job.result.None?
  }

  ghost predicate DependsAsMeant(drafts: seq<Draft>, made: seq<Id>, known: map<string, Id>, k: int, job: Job)
    requires 0 <= k < |drafts| == |made|
  {
    && |job.dependsOn| == |drafts[k].dependsOn|
    && forall x :: 0 <= x < |job.dependsOn| ==>
         Meant(drafts, made, known, k, drafts[k].dependsOn[x], job.dependsOn[x])
  }

  /** The jobs `made` are new, and nothing else changed. */
  ghost predicate OnlyAdds(a: Jobs, b: Jobs, made: seq<Id>) {
    && (forall i, k :: 0 <= i < k < |made| ==> made[i] != made[k])
    && (forall k :: 0 <= k < |made| ==> made[k] !in a && made[k] in b)
    && (forall j :: j in a ==> j in b && b[j] == a[j])
    && (forall j :: j in b ==> j in a || j in made)
  }

  ghost predicate AllMade(jobs: Jobs, owner: Id, drafts: seq<Draft>, resources: seq<seq<Resource>>, next: nat,
      made: seq<Id>)
    requires |made| == |drafts| <= |resources|
  {
    forall k :: 0 <= k < |made| ==>
      made[k] in jobs && Made(jobs[made[k]], owner, drafts[k], resources[k], next + k)
  }

  ghost predicate AllDepend(jobs: Jobs, drafts: seq<Draft>, known: map<string, Id>, made: seq<Id>)
    requires |made| == |drafts|
  {
    forall k :: 0 <= k < |made| ==> made[k] in jobs && DependsAsMeant(drafts, made, known, k, jobs[made[k]])
  }

  /** One new job for each draft, in order, and no other change. */
  ghost predicate Submitted(s: State, t: State, owner: Id, drafts: seq<Draft>, known: map<string, Id>,
      resources: seq<seq<Resource>>, made: seq<Id>) {
    && |made| == |drafts| <= |resources|
    && t == s.(jobs := t.jobs, next := s.next + |drafts|) && OnlyAdds(s.jobs, t.jobs, made)
    && AllMade(t.jobs, owner, drafts, resources, s.next, made) && AllDepend(t.jobs, drafts, known, made)
  }

  lemma {:induction false} ResolvedDependencies(deps: seq<Dependency>, ids: map<string, Id>)
    ensures var r := Resolve(deps, ids);
      r.Some? ==>
        && |r.value| == |deps|
        && forall x :: 0 <= x < |deps| ==>
          match deps[x]
          case Known(id) => r.value[x] == id
          case Keyed(key) => key in ids && r.value[x] == ids[key]
    decreases deps
  {
    if deps != [] {
      ResolvedDependencies(deps[1..], ids);
    }
  }

  lemma FirstMeant(drafts: seq<Draft>, made: seq<Id>, known: map<string, Id>, deps: seq<Id>)
    requires drafts != [] && |made| == |drafts| && Resolve(drafts[0].dependsOn, known) == Some(deps)
    ensures |deps| == |drafts[0].dependsOn|
    ensures forall x :: 0 <= x < |deps| ==> Meant(drafts, made, known, 0, drafts[0].dependsOn[x], deps[x])
  {
    ResolvedDependencies(drafts[0].dependsOn, known);
  }

  /** A dependency meant in the rest of a batch is meant in the whole. */
  lemma RestMeant(drafts: seq<Draft>, made: seq<Id>, known: map<string, Id>, k: nat, dependency: Dependency, job: Id)
    requires drafts != [] && |made| == |drafts| && k < |drafts| - 1
    requires Meant(drafts[1..], made[1..], known[drafts[0].key := made[0]], k, dependency, job)
    ensures Meant(drafts, made, known, k + 1, dependency, job)
  {
    if dependency.Keyed? {
      var key := dependency.key;
      var rest := drafts[1..];
      if i :| LastBefore(rest, k, key, i) && job == made[1..][i] {
        assert drafts[i + 1] == rest[i];
        forall h | i + 1 < h < k + 1 ensures drafts[h].key != key {
          assert drafts[h] == rest[h - 1];
        }
        assert LastBefore(drafts, k + 1, key, i + 1);
      } else {
        forall h | 1 <= h < k + 1 ensures drafts[h].key != key {
          assert drafts[h] == rest[h - 1];
        }
        if drafts[0].key == key {
          assert LastBefore(drafts, k + 1, key, 0);
        }
      }
    }
  }

  lemma {:induction false} BatchSubmits(s: State, owner: Id, drafts: seq<Draft>, known: map<string, Id>,
      minted: seq<Id>, resources: seq<seq<Resource>>)
    requires CreateJobs(s, owner, drafts, known, minted, resources).Success?
    ensures var r := CreateJobs(s, owner, drafts, known, minted, resources).value;
      Submitted(s, r.0, owner, drafts, known, resources, r.1)
    decreases drafts
  {
    if drafts != [] {
      var deps := Resolve(drafts[0].dependsOn, known).value;
      var s1 := CreateJob(s, owner, drafts[0], deps, resources[0], minted[0]);
      var known1 := known[drafts[0].key := minted[0]];
      BatchSubmits(s1, owner, drafts[1..], known1, minted[1..], resources[1..]);
      var rest := CreateJobs(s1, owner, drafts[1..], known1, minted[1..], resources[1..]).value;
      FirstMeant(drafts, [minted[0]] + rest.1, known, deps);
      FirstSubmitted(s, owner, drafts, known, deps, minted[0], resources, rest.0, rest.1);
    }
  }

  lemma FirstAdds(a: Jobs, b: Jobs, id: Id, job: Job, made: seq<Id>)
    requires id !in a && OnlyAdds(a[id := job], b, made)
    ensures OnlyAdds(a, b, [id] + made) && b[id] == job
  {
    var all := [id] + made;
    forall k | 0 <= k < |all| ensures all[k] !in a && all[k] in b {
      assert id in a[id := job];
    }
    forall j | j in b ensures j in a || j in all {
      if j !in a && j != id {
        assert j in made;
        var k :| 0 <= k < |made| && made[k] == j;
        assert all[k + 1] == j;
      }
    }
  }

  lemma FirstMade(jobs: Jobs, owner: Id, drafts: seq<Draft>, resources: seq<seq<Resource>>, next: nat, id: Id,
      made: seq<Id>)
    requires drafts != [] && |made| == |drafts| - 1 < |resources|
    requires AllMade(jobs, owner, drafts[1..], resources[1..], next + 1, made)
    requires id in jobs && Made(jobs[id], owner, drafts[0], resources[0], next)
    ensures AllMade(jobs, owner, drafts, resources, next, [id] + made)
  {
    var all := [id] + made;
    hide Made;
    forall k | 0 <= k < |all| ensures all[k] in jobs && Made(jobs[all[k]], owner, drafts[k], resources[k], next + k) {
      if k > 0 {
        assert Made(jobs[made[k - 1]], owner, drafts[1..][k - 1], resources[1..][k - 1], next + 1 + (k - 1));
      }
    }
  }

  lemma FirstDepends(jobs: Jobs, drafts: seq<Draft>, known: map<string, Id>, id: Id, made: seq<Id>)
    requires drafts != [] && |made| == |drafts| - 1
    requires AllDepend(jobs, drafts[1..], known[drafts[0].key := id], made)
    requires id in jobs && DependsAsMeant(drafts, [id] + made, known, 0, jobs[id])
    ensures AllDepend(jobs, drafts, known, [id] + made)
  {
    var all := [id] + made;
    assert all[1..] == made;
    hide DependsAsMeant;
    forall k | 0 <= k < |all| ensures all[k] in jobs && DependsAsMeant(drafts, all, known, k, jobs[all[k]]) {
      if k > 0 {
        assert all[k] == made[k - 1];
        RestDepends(drafts, all, known, k, jobs[all[k]]);
      }
    }
  }

  lemma FirstSubmitted(s: State, owner: Id, drafts: seq<Draft>, known: map<string, Id>, deps: seq<Id>, id: Id,
      resources: seq<seq<Resource>>, t: State, made: seq<Id>)
    requires drafts != [] && resources != [] && id !in s.jobs
    requires Submitted(CreateJob(s, owner, drafts[0], deps, resources[0], id), t, owner, drafts[1..],
               known[drafts[0].key := id], resources[1..], made)
    requires |deps| == |drafts[0].dependsOn|
    requires forall x :: 0 <= x < |deps| ==>
      Meant(drafts, [id] + made, known, 0, drafts[0].dependsOn[x], deps[x])
    ensures Submitted(s, t, owner, drafts, known, resources, [id] + made)
  {
    var s1 := CreateJob(s, owner, drafts[0], deps, resources[0], id);
    assert s1.jobs == s.jobs[id := s1.jobs[id]] && s1.next == s.next + 1;
    hide Meant, OnlyAdds, AllMade, AllDepend;
    FirstAdds(s.jobs, t.jobs, id, s1.jobs[id], made);
    assert id in t.jobs by {
      assert OnlyAdds(s.jobs, t.jobs, [id] + made);
      AddsFirst(s.jobs, t.jobs, [id] + made);
    }
    FirstMade(t.jobs, owner, drafts, resources, s.next, id, made);
    FirstDepends(t.jobs, drafts, known, id, made);
  }

  lemma AddsFirst(a: Jobs, b: Jobs, made: seq<Id>)
    requires OnlyAdds(a, b, made) && made != []
    ensures made[0] in b
  {
  }

  lemma RestDepends(drafts: seq<Draft>, made: seq<Id>, known: map<string, Id>, k: nat, job: Job)
    requires 0 < k < |drafts| == |made|
    requires DependsAsMeant(drafts[1..], made[1..], known[drafts[0].key := made[0]], k - 1, job)
    ensures DependsAsMeant(drafts, made, known, k, job)
  {
    hide Meant;
    assert drafts[1..][k - 1] == drafts[k];
    forall x | 0 <= x < |job.dependsOn|
      ensures Meant(drafts, made, known, k, drafts[k].dependsOn[x], job.dependsOn[x])
    {
      RestMeant(drafts, made, known, k - 1, drafts[k].dependsOn[x], job.dependsOn[x]);
    }
  }

  /** A deployment of a batch needs the owner's reservation, and prepared the machine of it. */
  predicate Backs(s: State, owner: Id, draft: Draft, resources: seq<Resource>) {
    if draft.kind == Merge then draft.reservation.None?
    else
      && draft.reservation.Some? && draft.reservation.value in s.reservations
      && s.reservations[draft.reservation.value].owner == owner
      && s.reservations[draft.reservation.value].state != Released
      && Machine(s.reservations[draft.reservation.value].machine) in resources
  }

  lemma {:induction false} BatchIsBacked(s: State, owner: Id, drafts: seq<Draft>, known: map<string, Id>,
      minted: seq<Id>, resources: seq<seq<Resource>>)
    requires CreateJobs(s, owner, drafts, known, minted, resources).Success?
    ensures |drafts| <= |resources|
    ensures forall k :: 0 <= k < |drafts| ==> Backs(s, owner, drafts[k], resources[k])
    decreases drafts
  {
    if drafts != [] {
      var deps := Resolve(drafts[0].dependsOn, known).value;
      assert Backs(s, owner, drafts[0], resources[0]);
      var s1 := CreateJob(s, owner, drafts[0], deps, resources[0], minted[0]);
      BatchIsBacked(s1, owner, drafts[1..], known[drafts[0].key := minted[0]], minted[1..], resources[1..]);
      forall k | 0 < k < |drafts| ensures Backs(s, owner, drafts[k], resources[k]) {
        assert Backs(s1, owner, drafts[1..][k - 1], resources[1..][k - 1]);
      }
    }
  }

  // ---------------------------------------------------------------- one request

  /** The owner may ask: it is known and not fenced. */
  predicate MayAsk(s: State, owner: Id) {
    owner in s.owners && s.owners[owner].fence.None?
  }

  /** A first request: it is refused, or its effect is entered with its receipt. */
  lemma FirstRequest(s: State, owner: Id, request: Id, action: Action, out: Outside)
    requires request !in s.receipts
    ensures var (t, r) := Perform(s, owner, request, action, out);
      && (r.Success? <==>
            MayAsk(s, owner) && Effect(s, owner, action, out).Success? &&
            (out.capacity || action.Cancel? || action.Finish?))
      && (r.Success? ==>
            var effect := Effect(s, owner, action, out).value;
            r.value == effect.1 && t == effect.0.(receipts := effect.0.receipts[request := Receipt(owner, action,
              effect.1)]))
      && (r.Refused? ==> t == s)
  {
    hide Effect;
  }

  /** One event may be new: that of an owner with a thread whose item no background integration takes. */
  ghost predicate Tells(s: State, t: State, owner: Id, id: EventId, routed: set<Id>)
    requires owner in s.owners
  {
    && (forall e :: e in t.outbox <==> e in s.outbox || (e == id && s.owners[owner].thread && id.item !in routed))
    && forall e :: e in t.outbox ==> t.outbox[e] == if e in s.outbox then s.outbox[e] else Event(owner, Pending)
  }

  lemma AnnounceTells(s: State, t: State, owner: Id, id: EventId, routed: set<Id>)
    requires owner in s.owners && t.outbox == Announce(s.owners, s.outbox, owner, id, routed)
    ensures Tells(s, t, owner, id, routed)
  {
  }

  // ---------------------------------------------------------------- the release of a machine

  predicate InFrontier(s: State, machine: string, item: FrontierItem) {
    machine in s.frontier && item in s.frontier[machine]
  }

  /** The last record of the kind is at place `i`. */
  ghost predicate LastOfKind(history: seq<Record>, kind: Kind, i: int) {
    0 <= i < |history| && history[i].kind == kind && forall k :: i < k < |history| ==> history[k].kind != kind
  }

  /** A release enters the proofs of what the last deployment of each kind covered. */
  ghost predicate Enters(v: Reservation, proofs: set<Integrated>, item: FrontierItem) {
    && item.proof in proofs
    && exists i :: LastOfKind(v.history, item.kind, i) && item.proof.repository in v.history[i].coverage
  }

  /** The reservation may be released: it is current, certain, and none of the owner's jobs is open. */
  predicate MayFinish(s: State, owner: Id, r: Id, expected: nat) {
    && r in s.reservations && s.reservations[r].owner == owner && s.reservations[r].revision == expected
    && s.reservations[r].state != Released && s.reservations[r].state != BlockedRecovery
    && forall j :: j in s.jobs && s.jobs[j].owner == owner ==>
         s.jobs[j].state == Succeeded || s.jobs[j].state == Failed || s.jobs[j].state == Canceled
  }

  /** Only the reservation and the frontier of its machine changed, as a release changes them. */
  ghost predicate Finished(s: State, t: State, owner: Id, r: Id, proofs: set<Integrated>, routed: set<Id>)
    requires r in s.reservations && owner in s.owners
  {
    var v := s.reservations[r];
    && Tells(s, t, owner, EventId(owner, r, None, OnReleased), routed)
    && t.jobs == s.jobs && t.claims == s.claims && t.approvals == s.approvals && t.owners == s.owners
    && t.reservations == s.reservations[r := v.(state := Released, revision := v.revision + 1)]
    && (forall item :: InFrontier(t, v.machine, item) <==> InFrontier(s, v.machine, item) || Enters(v, proofs, item))
    && forall m, item :: m != v.machine ==> (InFrontier(t, m, item) <==> InFrontier(s, m, item))
  }

  lemma {:induction false} LastCovers(history: seq<Record>, kind: Kind, repository: string)
    ensures repository in LastCoverage(history, kind) <==>
      exists i :: LastOfKind(history, kind, i) && repository in history[i].coverage
    decreases history
  {
    var n := |history|;
    if n > 0 {
      if history[n - 1].kind == kind {
        assert LastOfKind(history, kind, n - 1);
      } else {
        var shorter := history[..n - 1];
        LastCovers(shorter, kind, repository);
        if i :| LastOfKind(shorter, kind, i) && repository in shorter[i].coverage {
          assert LastOfKind(history, kind, i);
        }
        if i :| LastOfKind(history, kind, i) && repository in history[i].coverage {
          assert LastOfKind(shorter, kind, i);
        }
      }
    }
  }

  lemma AddsEntering(v: Reservation, proofs: set<Integrated>, item: FrontierItem)
    ensures item in Additions(v.history, proofs) <==> Enters(v, proofs, item)
  {
    LastCovers(v.history, item.kind, item.proof.repository);
    assert item == FrontierItem(item.proof, item.kind);
  }

  lemma ReleaseEnters(s: State, owner: Id, r: Id, proofs: set<Integrated>, routed: set<Id>)
    requires r in s.reservations && owner in s.owners
    ensures Finished(s, FinishReservation(s, owner, r, proofs, routed), owner, r, proofs, routed)
  {
    var v, t := s.reservations[r], FinishReservation(s, owner, r, proofs, routed);
    AnnounceTells(s, t, owner, EventId(owner, r, None, OnReleased), routed);
    hide Additions, Enters, Announce, Tells;
    forall item ensures InFrontier(t, v.machine, item) <==> InFrontier(s, v.machine, item) || Enters(v, proofs, item) {
      AddsEntering(v, proofs, item);
    }
  }

  /** A first finish is accepted exactly when the machine may be released, and releases it. */
  lemma FinishReleases(s: State, owner: Id, request: Id, r: Id, expected: nat, final: set<Integrated>, out: Outside)
    requires request !in s.receipts
    ensures var (t, reply) := Perform(s, owner, request, Finish(r, expected, final), out);
      && (reply.Success? <==> MayAsk(s, owner) && MayFinish(s, owner, r, expected))
      && (reply.Success? ==>
            Finished(s, t, owner, r, out.proofs, out.routed) && reply.value == Reply(r, expected + 1))
      && (reply.Refused? ==> t == s)
  {
    FirstRequest(s, owner, request, Finish(r, expected, final), out);
    assert MayAsk(s, owner) ==> (CanFinish(s, owner, r, expected) <==> MayFinish(s, owner, r, expected));
    if MayAsk(s, owner) && r in s.reservations {
      ReleaseEnters(s, owner, r, out.proofs, out.routed);
    }
    hide Perform, FinishReservation, CanFinish, MayFinish, Tells;
  }

  /** The operation that enters the item: a first finish of a reservation of the machine. */
  ghost predicate EntersBy(s: State, op: Op, machine: string, item: FrontierItem) {
    && op.Request? && op.action.Finish? && op.request !in s.receipts
    && MayAsk(s, op.owner) && MayFinish(s, op.owner, op.action.reservation, op.action.expected)
    && s.reservations[op.action.reservation].machine == machine
    && Enters(s.reservations[op.action.reservation], op.out.proofs, item)
  }

  lemma EffectFrontier(s: State, owner: Id, action: Action, out: Outside)
    requires owner in s.owners && !action.Finish?
    ensures var t := Effect(s, owner, action, out); t.Success? ==> t.value.0.frontier == s.frontier
  {
    hide CreateJobs, Changeable, Replace, OwnReservations, Distinct, FreshId;
  }

  /** What is integrated on a machine stays so, and only a release adds to it. */
  lemma FrontierStep(norm: Norm, s: State, op: Op, machine: string, item: FrontierItem)
    ensures InFrontier(Next(norm, s, op), machine, item) <==>
      InFrontier(s, machine, item) || EntersBy(s, op, machine, item)
  {
    hide SameOwners, Effect, CanGrant, CanPark, Settle, MovedAttempt, TickClaim, Acquire, ChangeClaim, NotifyClaim,
      ClearNotification, Deliver, DeliveryFailed, Enqueue, Grant, Transition, NotifyRun, Remind;
    hide Register, Fenced, BindLifecycle, BindRevival, CompleteLifecycle, Revived, MayFinish, Enters, Finished;
    if op.Request? && op.request !in s.receipts {
      RequestFrontier(s, op.owner, op.request, op.action, op.out, machine, item);
    }
  }

  lemma RequestFrontier(s: State, owner: Id, request: Id, action: Action, out: Outside, machine: string,
      item: FrontierItem)
    requires request !in s.receipts
    ensures InFrontier(Perform(s, owner, request, action, out).0, machine, item) <==>
      InFrontier(s, machine, item) || EntersBy(s, Op.Request(owner, request, action, out), machine, item)
  {
    FirstRequest(s, owner, request, action, out);
    if action.Finish? {
      FinishReleases(s, owner, request, action.reservation, action.expected, action.final, out);
    } else if owner in s.owners {
      EffectFrontier(s, owner, action, out);
    }
    hide Perform, Effect, MayFinish, Enters;
  }

  /** Over whole runs: an item of the frontier was entered by a release of the machine, and none ever leaves. */
  lemma {:induction false} FrontierFromReleases(norm: Norm, ops: seq<Op>, machine: string, item: FrontierItem)
    ensures InFrontier(Run(norm, Empty, ops), machine, item) <==>
      exists k :: 0 <= k < |ops| && EntersBy(Run(norm, Empty, ops[..k]), ops[k], machine, item)
    decreases |ops|
  {
    hide Next, EntersBy;
    if ops != [] {
      var n := |ops| - 1;
      var shorter := ops[..n];
      assert shorter + [ops[n]] == ops;
      RunAppend(norm, Empty, shorter, ops[n]);
      FrontierStep(norm, Run(norm, Empty, shorter), ops[n], machine, item);
      FrontierFromReleases(norm, shorter, machine, item);
      forall k | 0 <= k < n ensures shorter[..k] == ops[..k] && shorter[k] == ops[k] {
      }
      if k :| 0 <= k < n && EntersBy(Run(norm, Empty, shorter[..k]), shorter[k], machine, item) {
        assert EntersBy(Run(norm, Empty, ops[..k]), ops[k], machine, item);
      }
    }
  }

  // ---------------------------------------------------------------- approvals and reservations

  /** An approval is stored as it was given, and nothing else changes. */
  lemma ApprovalIsStored(s: State, owner: Id, request: Id, deploy: bool, merges: set<(string, string)>,
      machines: set<MachineScope>, reviewed: Id, iteration: Option<string>, out: Outside)
    requires request !in s.receipts
    ensures var action := Approve(deploy, merges, machines, reviewed, iteration);
      var (t, r) := Perform(s, owner, request, action, out);
      r.Success? ==>
        && r.value.Reply? && FreshId(s, r.value.id)
        && t == s.(approvals := s.approvals[r.value.id := t.approvals[r.value.id]],
                   receipts := s.receipts[request := Receipt(owner, action, r.value)])
        && t.approvals[r.value.id].owner == owner && t.approvals[r.value.id].deploy == deploy
        && t.approvals[r.value.id].merges == merges && t.approvals[r.value.id].machines == machines
        && t.approvals[r.value.id].reviewed == reviewed && t.approvals[r.value.id].iteration == iteration
  {
    hide FreshId;
    FirstRequest(s, owner, request, Approve(deploy, merges, machines, reviewed, iteration), out);
    hide Perform;
  }

  /** The approval is one of the owner for deployments, and names the machine. */
  predicate Permits(s: State, owner: Id, machine: string, approval: Id) {
    && approval in s.approvals && s.approvals[approval].owner == owner && s.approvals[approval].deploy
    && exists m :: m in s.approvals[approval].machines && m.machine == machine
  }

  /** A request for a machine that the owner has none of yet: it is queued behind every earlier request. */
  lemma ReservationIsRequested(s: State, owner: Id, request: Id, machine: string, approval: Id, out: Outside)
    requires request !in s.receipts
    requires forall r ::
      r in s.reservations && s.reservations[r].owner == owner && s.reservations[r].machine == machine ==>
        s.reservations[r].state == Released
    ensures var action := Reserve(machine, approval);
      var (t, r) := Perform(s, owner, request, action, out);
      && (r.Success? <==>
            MayAsk(s, owner) && Permits(s, owner, machine, approval) && |out.minted| == 1 &&
            FreshId(s, out.minted[0]) && out.capacity)
      && (r.Success? ==>
            && r.value == Reply(out.minted[0], 1)
            && t.reservations == s.reservations[out.minted[0] := t.reservations[out.minted[0]]]
            && t.reservations[out.minted[0]] == Reservation(owner, machine, Requested, 1, s.next, [])
            && t == s.(reservations := t.reservations, next := s.next + 1,
                       receipts := s.receipts[request := Receipt(owner, action, r.value)]))
  {
    FirstRequest(s, owner, request, Reserve(machine, approval), out);
    assert OwnReservations(s, owner, machine) == {};
    hide Perform, FreshId, OwnReservations;
  }

  // ---------------------------------------------------------------- cancellations and refreshes

  /** The owner may still cancel or refresh its job under the revision it knows. */
  predicate MayChange(s: State, owner: Id, j: Id, expected: nat) {
    && j in s.jobs && s.jobs[j].owner == owner && s.jobs[j].revision == expected
    && s.jobs[j].state in {WaitingApproval, WaitingDependency, WaitingResource, Ready, NeedsRefresh}
  }

  lemma MayChangeIs(s: State, owner: Id, j: Id, expected: nat)
    requires MayAsk(s, owner)
    ensures MayChange(s, owner, j, expected) <==> Changeable(s, owner, j, expected)
  {
  }

  /** A first cancellation is accepted exactly under the current revision of an open job, and ends it silently. */
  lemma CancellationEnds(s: State, owner: Id, request: Id, j: Id, expected: nat, reason: string, out: Outside)
    requires request !in s.receipts
    ensures var action := Cancel(j, expected, reason);
      var (t, r) := Perform(s, owner, request, action, out);
      && (r.Success? <==> MayAsk(s, owner) && MayChange(s, owner, j, expected))
      && (r.Success? ==>
            && r.value == Reply(j, expected + 1)
            && t == s.(jobs := s.jobs[j := s.jobs[j].(state := Canceled, reason := Some(reason),
                         revision := expected + 1)],
                       receipts := s.receipts[request := Receipt(owner, action, r.value)]))
      && (r.Refused? ==> t == s)
  {
    FirstRequest(s, owner, request, Cancel(j, expected, reason), out);
    if MayAsk(s, owner) {
      MayChangeIs(s, owner, j, expected);
    }
    hide Perform, MayChange, SameOwners, SameRecords;
  }

  /** The input of a refresh: the resources of one prepared snapshot. */
  predicate Prepared(out: Outside) {
    && |out.resources| == 1
    && forall i, k :: 0 <= i < k < |out.resources[0]| ==> out.resources[0][i] != out.resources[0][k]
  }

  /** A first refresh replaces snapshot, resources and approval, takes the place in the ready order, and starts over. */
  lemma RefreshStartsOver(s: State, owner: Id, request: Id, j: Id, expected: nat, snapshot: Snapshot, approval: Id,
      out: Outside)
    requires request !in s.receipts
    ensures var action := Refresh(j, expected, snapshot, approval);
      var (t, r) := Perform(s, owner, request, action, out);
      && (r.Success? <==> MayAsk(s, owner) && MayChange(s, owner, j, expected) && Prepared(out) && out.capacity)
      && (r.Success? ==>
            && j in t.jobs && r.value == Reply(j, t.jobs[j].revision)
            && (t.jobs[j].revision == if s.jobs[j].state == WaitingApproval && s.jobs[j].reason == None then expected
                  else expected + 1)
            && t == s.(jobs := s.jobs[j := s.jobs[j].(snapshot := snapshot, resources := out.resources[0],
                         approval := approval, readySequence := None, state := WaitingApproval, reason := None,
                         revision := t.jobs[j].revision)],
                       receipts := s.receipts[request := Receipt(owner, action, r.value)]))
      && (r.Refused? ==> t == s)
  {
    FirstRequest(s, owner, request, Refresh(j, expected, snapshot, approval), out);
    if MayAsk(s, owner) {
      MayChangeIs(s, owner, j, expected);
    }
    hide Perform, MayChange, SameOwners, SameRecords;
  }

  // ---------------------------------------------------------------- submissions

  /** What a draft without keys must meet on the ledger. */
  predicate Admissible(s: State, owner: Id, draft: Draft, resources: seq<Resource>) {
    && |PendingJobs(s)| < 4096
    && (forall x :: 0 <= x < |draft.dependsOn| ==>
          && draft.dependsOn[x].Known? && draft.dependsOn[x].id in s.jobs
          && s.jobs[draft.dependsOn[x].id].owner == owner)
    && (forall x, y :: 0 <= x < y < |draft.dependsOn| ==> draft.dependsOn[x] != draft.dependsOn[y])
    && (draft.kind == Merge ==> draft.reservation.None?)
    && (draft.kind != Merge ==>
          && draft.reservation.Some? && draft.reservation.value in s.reservations
          && s.reservations[draft.reservation.value].owner == owner
          && s.reservations[draft.reservation.value].state != Released
          && Machine(s.reservations[draft.reservation.value].machine) in resources)
    && forall x, y :: 0 <= x < y < |resources| ==> resources[x] != resources[y]
  }

  lemma {:induction false} KnownResolve(deps: seq<Dependency>)
    ensures Resolve(deps, map[]).Some? <==> forall x :: 0 <= x < |deps| ==> deps[x].Known?
    decreases deps
  {
    if deps != [] {
      KnownResolve(deps[1..]);
      if forall x :: 0 <= x < |deps[1..]| ==> deps[1..][x].Known? {
        forall x | 1 <= x < |deps| ensures deps[x].Known? {
          assert deps[x] == deps[1..][x - 1];
        }
      }
    }
  }

  lemma AdmissibleIs(s: State, owner: Id, draft: Draft, resources: seq<Resource>)
    ensures Admissible(s, owner, draft, resources) <==>
      var deps := Resolve(draft.dependsOn, map[]);
      deps.Some? && CanCreate(s, owner, draft, deps.value, resources)
  {
    KnownResolve(draft.dependsOn);
    var deps := Resolve(draft.dependsOn, map[]);
    if deps.Some? {
      ResolvedDependencies(draft.dependsOn, map[]);
      assert forall x :: 0 <= x < |deps.value| ==> deps.value[x] in deps.value;
    }
    hide PendingJobs;
  }

  /** A first submission is accepted exactly when its draft is admissible. */
  lemma SubmissionExact(s: State, owner: Id, request: Id, draft: Draft, out: Outside)
    requires request !in s.receipts
    ensures Perform(s, owner, request, Submit(draft), out).1.Success? <==>
      && MayAsk(s, owner) && out.capacity && out.minted != [] && FreshId(s, out.minted[0]) && out.resources != []
      && Admissible(s, owner, draft, out.resources[0])
  {
    FirstRequest(s, owner, request, Submit(draft), out);
    OneDraft(s, owner, draft, out.minted, out.resources);
    hide Perform, Admissible, CreateJobs, FreshId;
  }

  lemma OneDraft(s: State, owner: Id, draft: Draft, minted: seq<Id>, resources: seq<seq<Resource>>)
    ensures var r := CreateJobs(s, owner, [draft], map[], minted, resources);
      && (r.Success? <==>
            minted != [] && resources != [] && FreshId(s, minted[0]) && Admissible(s, owner, draft, resources[0]))
      && (r.Success? ==> |r.value.1| == 1)
  {
    if resources != [] {
      AdmissibleIs(s, owner, draft, resources[0]);
    }
    hide Admissible, CanCreate, Resolve, FreshId, CreateJob;
    assert [draft][1..] == [];
  }

  // ---------------------------------------------------------------- what a submission means for every later run

  /** In whatever state, a job that owns resources or succeeded has its dependency behind it. */
  predicate Follows(s: State, j: Id, d: Id) {
    && j in s.jobs
    && (s.jobs[j].state in {Claimed, Running, Reconciling, Succeeded} ==> d in s.jobs && s.jobs[d].state == Succeeded)
  }

  lemma DependencyFollows(norm: Norm, s: State, j: Id, d: Id)
    requires Sound(norm, s) && j in s.jobs && d in s.jobs[j].dependsOn
    ensures Follows(s, j, d)
  {
    assert JobSound(s.owners, s.next, s.reservations, s.jobs, s.jobs[j]);
  }

  /** What a job was submitted with holds for ever: it never runs before a dependency has succeeded. */
  lemma SubmittedOrderHolds(norm: Norm, s: State, owner: Id, request: Id, drafts: seq<Draft>, out: Outside,
      ops: seq<Op>, k: nat, x: nat)
    requires Sound(norm, s) && request !in s.receipts
    requires Perform(s, owner, request, SubmitBatch(drafts), out).1.Success?
    requires k < |drafts| && x < |drafts[k].dependsOn|
    ensures var (t, r) := Perform(s, owner, request, SubmitBatch(drafts), out);
      && r.value.BatchReply? && |r.value.ids| == |drafts|
      && exists d :: Meant(drafts, r.value.ids, map[], k, drafts[k].dependsOn[x], d) &&
                     Follows(Run(norm, t, ops), r.value.ids[k], d)
  {
    var (t, r) := Perform(s, owner, request, SubmitBatch(drafts), out);
    BatchIsSubmitted(s, owner, request, drafts, out);
    NextKeeps(norm, s, Op.Request(owner, request, SubmitBatch(drafts), out));
    hide Perform, Sound, Meant, Follows;
    var j := r.value.ids[k];
    assert j in t.jobs && DependsAsMeant(drafts, r.value.ids, map[], k, t.jobs[j]);
    var d := t.jobs[j].dependsOn[x];
    LaterFollows(norm, t, ops, j, d);
  }

  lemma LaterFollows(norm: Norm, t: State, ops: seq<Op>, j: Id, d: Id)
    requires Sound(norm, t) && j in t.jobs && d in t.jobs[j].dependsOn
    ensures Follows(Run(norm, t, ops), j, d)
  {
    RunContinues(norm, t, ops);
    RunKeeps(norm, t, ops);
    hide Sound, Run, Follows;
    DependencyFollows(norm, Run(norm, t, ops), j, d);
  }

  /** An accepted first batch adds the jobs its reply names, as its drafts ask for them. */
  lemma BatchIsSubmitted(s: State, owner: Id, request: Id, drafts: seq<Draft>, out: Outside)
    requires request !in s.receipts
    ensures var (t, r) := Perform(s, owner, request, SubmitBatch(drafts), out);
      r.Success? ==>
        && r.value.BatchReply?
        && Submitted(s, t.(receipts := s.receipts), owner, drafts, map[], out.resources, r.value.ids)
        && t.receipts == s.receipts[request := Receipt(owner, SubmitBatch(drafts), r.value)]
  {
    FirstRequest(s, owner, request, SubmitBatch(drafts), out);
    if CreateJobs(s, owner, drafts, map[], out.minted, out.resources).Success? {
      BatchSubmits(s, owner, drafts, map[], out.minted, out.resources);
    }
    hide Perform, CreateJobs, AllMade, AllDepend, OnlyAdds;
  }

  /** An accepted first submission adds the one job its reply names, as its draft asks for it. */
  lemma DraftIsSubmitted(s: State, owner: Id, request: Id, draft: Draft, out: Outside)
    requires request !in s.receipts
    ensures var (t, r) := Perform(s, owner, request, Submit(draft), out);
      r.Success? ==>
        && r.value.Reply?
        && Submitted(s, t.(receipts := s.receipts), owner, [draft], map[], out.resources, [r.value.id])
        && t.receipts == s.receipts[request := Receipt(owner, Submit(draft), r.value)]
  {
    FirstRequest(s, owner, request, Submit(draft), out);
    if CreateJobs(s, owner, [draft], map[], out.minted, out.resources).Success? {
      BatchSubmits(s, owner, [draft], map[], out.minted, out.resources);
      var ids := CreateJobs(s, owner, [draft], map[], out.minted, out.resources).value.1;
      assert |ids| == 1 ==> ids == [ids[0]];
    }
    hide Perform, CreateJobs, AllMade, AllDepend, OnlyAdds;
  }
}
