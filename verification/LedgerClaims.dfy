/**
 Resource claims and notification delivery: what they keep, in which order waiting
 claims are granted, and why the queue never stalls.
 */
module LedgerClaims {
  import opened Wrappers
  import opened MachinePolicy
  import opened Ledger
  import opened LedgerInvariant

  // ---------------------------------------------------------------- what claim transactions keep

  lemma NewClaimKeeps(norm: Norm, s: State, owner: Id, id: Id, request: ClaimRequest, resources: seq<Resource>)
    requires Inv(norm, s) && LiveOwner(s, owner) && id !in s.claims
    ensures Inv(norm, NewClaim(s, owner, id, request, resources))
    ensures Silent(s) ==> Silent(NewClaim(s, owner, id, request, resources))
  {
    var c := Claim(owner, request, resources, Waiting, 1, |s.claims| + 1, false);
    UnfencedClaim(s.owners, s.jobs, s.claims, s.reservations, id, c);
    AddedClaim(norm, s.owners, s.jobs, s.claims, id, c);
    hide JobsSound, ReservationsSound, MachinesExclusive, JobsExclusive, ProtocolsExclusive, ClaimsExclusive,
      ClaimsSound, FencedQuiet, EventsSound, LifecyclesSound, QuietOutbox;
  }

  lemma AddedClaim(norm: Norm, owners: Owners, jobs: Jobs, claims: Claims, id: Id, c: Claim)
    requires ClaimsSound(owners, claims) && ClaimsExclusive(norm, claims) && ProtocolsExclusive(norm, jobs, claims)
    requires id !in claims && c.owner in owners && c.sequence == |claims| + 1 && c.state.Waiting?
    ensures ClaimsSound(owners, claims[id := c]) && ClaimsExclusive(norm, claims[id := c])
    ensures ProtocolsExclusive(norm, jobs, claims[id := c])
  {
  }

  /** A claim that changes state without becoming held, or becomes held on free resources. */
  lemma ChangedClaim(norm: Norm, s: State, c: Id, v: Claim)
    requires Inv(norm, s) && c in s.claims && LiveOwner(s, v.owner)
    requires v.owner == s.claims[c].owner && v.sequence == s.claims[c].sequence && v.resources == s.claims[c].resources
    requires v.state.Held? && !s.claims[c].state.Held? ==> Free(norm, s, c)
    ensures var t := s.(claims := s.claims[c := v]); Inv(norm, t) && (Silent(s) ==> Silent(t))
  {
    UnfencedClaim(s.owners, s.jobs, s.claims, s.reservations, c, v);
    ExclusiveClaim(norm, s, c, v);
    hide JobsSound, ReservationsSound, MachinesExclusive, JobsExclusive, ProtocolsExclusive, ClaimsExclusive,
      ClaimsSound, FencedQuiet, EventsSound, LifecyclesSound, QuietOutbox;
  }

  lemma FreeMeans(norm: Norm, s: State, c: Id)
    requires c in s.claims && Free(norm, s, c)
    ensures forall j :: j in s.jobs && Active(s.jobs[j].state) ==>
      Keys(norm, s.jobs[j].resources) !! Keys(norm, s.claims[c].resources)
    ensures forall b :: b in s.claims && s.claims[b].state.Held? ==>
      Keys(norm, s.claims[b].resources) !! Keys(norm, s.claims[c].resources)
  {
    forall j | j in s.jobs && Active(s.jobs[j].state) ensures Keys(norm, s.jobs[j].resources) <= ActiveKeys(norm, s) {
    }
    forall b | b in s.claims && s.claims[b].state.Held? ensures Keys(norm, s.claims[b].resources) <= HeldKeys(norm, s) {
    }
  }

  lemma SameOrder(owners: Owners, claims: Claims, c: Id, v: Claim)
    requires ClaimsSound(owners, claims) && c in claims && v.owner == claims[c].owner
    requires v.sequence == claims[c].sequence
    ensures ClaimsSound(owners, claims[c := v])
  {
    var after := claims[c := v];
    assert after.Keys == claims.Keys && |after| == |after.Keys| && |claims| == |claims.Keys|;
  }

  lemma ExclusiveClaim(norm: Norm, s: State, c: Id, v: Claim)
    requires ClaimsSound(s.owners, s.claims) && ClaimsExclusive(norm, s.claims)
    requires ProtocolsExclusive(norm, s.jobs, s.claims)
    requires c in s.claims && v.owner == s.claims[c].owner && v.sequence == s.claims[c].sequence
    requires v.resources == s.claims[c].resources
    requires v.state.Held? && !s.claims[c].state.Held? ==> Free(norm, s, c)
    ensures var after := s.claims[c := v];
            ClaimsSound(s.owners, after) && ClaimsExclusive(norm, after) && ProtocolsExclusive(norm, s.jobs, after)
  {
    SameOrder(s.owners, s.claims, c, v);
    if v.state.Held? && !s.claims[c].state.Held? {
      FreeMeans(norm, s, c);
    }
    hide ClaimsSound, Free, Keys;
  }

  lemma AcquireKeeps(norm: Norm, s: State, owner: Id, id: Id, request: ClaimRequest, resources: seq<Resource>,
      wait: bool, grant: bool, capacity: bool)
    requires Inv(norm, s)
    ensures var t := Acquire(norm, s, owner, id, request, resources, wait, grant, capacity).0;
      Inv(norm, t) && (Silent(s) ==> Silent(t))
  {
    hide Inv, Silent, Overtakes, Free;
    if LiveOwner(s, owner) && id !in s.claims {
      NewClaimKeeps(norm, s, owner, id, request, resources);
      var s1 := NewClaim(s, owner, id, request, resources);
      if !Blocked(norm, s1, id) {
        ChangedClaim(norm, s1, id, s1.claims[id].(state := Held, revision := 1, notify := false));
      }
    }
  }

  lemma TickKeeps(norm: Norm, s: State, owner: Id, c: Id)
    requires Inv(norm, s)
    ensures var t := TickClaim(norm, s, owner, c); Inv(norm, t) && (Silent(s) ==> Silent(t))
  {
    hide Inv, Silent, Overtakes, Free;
    if LiveOwner(s, owner) && c in s.claims && s.claims[c].owner == owner && s.claims[c].state.Waiting?
      && !Blocked(norm, s, c) {
      ChangedClaim(norm, s, c, s.claims[c].(state := Held, revision := s.claims[c].revision + 1, notify := true));
    }
  }

  lemma ChangeKeeps(norm: Norm, s: State, owner: Id, c: Id, release: bool)
    requires Inv(norm, s)
    ensures var t := ChangeClaim(s, owner, c, release).0; Inv(norm, t) && (Silent(s) ==> Silent(t))
  {
    hide Inv, Silent, Free;
    if LiveOwner(s, owner) && c in s.claims && s.claims[c].owner == owner {
      var destination := if release then Dropped else Withdrawn;
      ChangedClaim(norm, s, c, s.claims[c].(state := destination, notify := false,
        revision := s.claims[c].revision + 1));
    }
  }

  lemma NotifyKeeps(norm: Norm, s: State, owner: Id, c: Id, routed: set<Id>)
    requires Inv(norm, s)
    ensures var t := NotifyClaim(s, owner, c, routed); Inv(norm, t) && (Silent(s) ==> Silent(t))
  {
    hide JobsSound, ReservationsSound, MachinesExclusive, JobsExclusive, ProtocolsExclusive, ClaimsExclusive,
      ClaimsSound, FencedQuiet, EventsSound, LifecyclesSound, QuietOutbox;
    if LiveOwner(s, owner) {
      NewEvent(s.owners, s.outbox, owner, EventId(owner, c, None, OnHeld), routed);
    }
  }

  lemma ClearKeeps(norm: Norm, s: State, c: Id)
    requires Inv(norm, s)
    ensures var t := ClearNotification(s, c); Inv(norm, t) && (Silent(s) ==> Silent(t))
  {
    if c in s.claims {
      ClearedParts(norm, s.owners, s.jobs, s.claims, s.reservations, c);
    }
    hide JobsSound, ReservationsSound, MachinesExclusive, JobsExclusive, ProtocolsExclusive, ClaimsExclusive,
      ClaimsSound, FencedQuiet, EventsSound, LifecyclesSound, QuietOutbox;
  }

  lemma ClearedParts(norm: Norm, owners: Owners, jobs: Jobs, claims: Claims, reservations: Reservations, c: Id)
    requires ClaimsSound(owners, claims) && ClaimsExclusive(norm, claims) && ProtocolsExclusive(norm, jobs, claims)
    requires FencedQuiet(owners, jobs, claims, reservations) && c in claims
    ensures var after := claims[c := claims[c].(notify := false)];
            && ClaimsSound(owners, after) && ClaimsExclusive(norm, after) && ProtocolsExclusive(norm, jobs, after)
            && FencedQuiet(owners, jobs, after, reservations)
  {
    var after := claims[c := claims[c].(notify := false)];
    SameOrder(owners, claims, c, after[c]);
    hide ClaimsSound, Keys;
    forall o | o in owners && owners[o].fence.Some? ensures ClaimsQuiet(after, o) {
      assert ClaimsQuiet(claims, o);
    }
  }

  // ---------------------------------------------------------------- delivery

  lemma DeliverKeeps(norm: Norm, s: State, e: EventId)
    requires Inv(norm, s)
    ensures var t := Deliver(s, e); Inv(norm, t) && (Silent(s) ==> Silent(t))
  {
    hide JobsSound, ReservationsSound, MachinesExclusive, JobsExclusive, ProtocolsExclusive, ClaimsExclusive,
      ClaimsSound, FencedQuiet, LifecyclesSound;
  }

  lemma NotifyRunKeeps(norm: Norm, s: State, owner: Id, run: Id, generation: Id, complete: bool)
    requires Inv(norm, s)
    ensures var t := NotifyRun(s, owner, run, generation, complete); Inv(norm, t) && (Silent(s) ==> Silent(t))
  {
    hide JobsSound, ReservationsSound, MachinesExclusive, JobsExclusive, ProtocolsExclusive, ClaimsExclusive,
      ClaimsSound, FencedQuiet, EventsSound, LifecyclesSound, QuietOutbox;
    if LiveOwner(s, owner) {
      NewEvent(s.owners, s.outbox, owner, EventId(owner, run, Some(generation), OfRun(complete)), {});
    }
  }

  lemma RemindKeeps(norm: Norm, s: State, e: EventId)
    requires Inv(norm, s)
    ensures var t := Remind(s, e); Inv(norm, t) && (Silent(s) ==> Silent(t))
  {
    hide JobsSound, ReservationsSound, MachinesExclusive, JobsExclusive, ProtocolsExclusive, ClaimsExclusive,
      ClaimsSound, FencedQuiet, LifecyclesSound;
  }

  /** The event was delivered before its owner was fenced: the one case in which recording a failure is wrong. */
  predicate StaleRetry(s: State, e: EventId) {
    && e in s.outbox && s.outbox[e].state.Delivered?
    && s.outbox[e].owner in s.owners && s.owners[s.outbox[e].owner].fence.Some?
  }

  /** Recording a failed delivery keeps fenced owners quiet exactly when the event was not delivered meanwhile. */
  lemma DeliveryFailedExact(norm: Norm, s: State, e: EventId)
    requires Inv(norm, s) && Silent(s)
    ensures Inv(norm, DeliveryFailed(s, e))
    ensures Silent(DeliveryFailed(s, e)) <==> !StaleRetry(s, e)
  {
    RetryExact(s, e);
    hide JobsSound, ReservationsSound, MachinesExclusive, JobsExclusive, ProtocolsExclusive, ClaimsExclusive,
      ClaimsSound, FencedQuiet, LifecyclesSound, QuietOutbox, StaleRetry;
  }

  lemma RetryExact(s: State, e: EventId)
    requires Silent(s)
    ensures Silent(DeliveryFailed(s, e)) <==> !StaleRetry(s, e)
  {
    var t := DeliveryFailed(s, e);
    if StaleRetry(s, e) {
      assert e in t.outbox && t.outbox[e].state.Retry?;
    }
  }

  // ---------------------------------------------------------------- the claim queue

  /** A waiting claim that could be granted now. */
  predicate Grantable(norm: Norm, s: State, c: Id) {
    c in s.claims && s.claims[c].state.Waiting? && Free(norm, s, c)
  }

  /** No claim transaction grants a claim over an earlier overlapping claim that was itself free. */
  lemma NeverOvertakes(norm: Norm, s: State, owner: Id, c: Id, other: Id)
    requires Grantable(norm, s, other) && c in s.claims && !s.claims[c].state.Held?
    requires s.claims[other].sequence < s.claims[c].sequence
    requires Keys(norm, s.claims[c].resources) * Keys(norm, s.claims[other].resources) != {}
    ensures !TickClaim(norm, s, owner, c).claims[c].state.Held?
  {
    if s.claims[c].state.Waiting? {
      assert Overtakes(norm, s, c, other);
    }
  }

  /** A new request is last in the queue, so it never takes what a waiting claim could have. */
  lemma NewRequestYields(norm: Norm, s: State, owner: Id, id: Id, request: ClaimRequest, resources: seq<Resource>,
      wait: bool, grant: bool, capacity: bool, other: Id)
    requires ClaimsSound(s.owners, s.claims) && Grantable(norm, s, other) && id !in s.claims
    requires Keys(norm, resources) * Keys(norm, s.claims[other].resources) != {}
    ensures var t := Acquire(norm, s, owner, id, request, resources, wait, grant, capacity).0;
            id in t.claims ==> t.claims[id].state.Waiting?
  {
    hide SameOwners, SameRecords, Keys, Busy;
    var s1 := NewClaim(s, owner, id, request, resources);
    SameBusy(norm, s, s1);
    assert Overtakes(norm, s1, id, other);
  }

  lemma Apart(a: set<Resource>, b: set<Resource>)
    ensures a * b == {} <==> a !! b
  {
    if a * b == {} {
      forall r | r in a ensures r !in b {
        assert r in b ==> r in a * b;
      }
    }
  }

  /** Waiting claims make nothing busy. */
  lemma SameBusy(norm: Norm, s: State, t: State)
    requires t.jobs == s.jobs && t.reservations == s.reservations
    requires forall c :: c in s.claims && s.claims[c].state.Held? ==> c in t.claims && t.claims[c] == s.claims[c]
    requires forall c :: c in t.claims && t.claims[c].state.Held? ==> c in s.claims && t.claims[c] == s.claims[c]
    ensures Busy(norm, t) == Busy(norm, s)
  {
    assert HeldKeys(norm, t) == HeldKeys(norm, s);
  }

  /** The free waiting claim with the least sequence. */
  ghost predicate FirstFree(norm: Norm, s: State, c: Id) {
    && Grantable(norm, s, c)
    && forall o :: Grantable(norm, s, o) && o != c ==> s.claims[c].sequence < s.claims[o].sequence
  }

  /** Whenever some waiting claim is free there is a first one, and nothing blocks it. */
  lemma QueueNeverStalls(norm: Norm, s: State, c: Id) returns (first: Id)
    requires ClaimsSound(s.owners, s.claims) && Grantable(norm, s, c)
    ensures FirstFree(norm, s, first) && s.claims[first].sequence <= s.claims[c].sequence && !Blocked(norm, s, first)
    ensures LiveOwner(s, s.claims[first].owner) ==>
      TickClaim(norm, s, s.claims[first].owner, first).claims[first].state.Held?
    decreases s.claims[c].sequence
  {
    if o :| o in s.claims && Grantable(norm, s, o) && s.claims[o].sequence < s.claims[c].sequence {
      first := QueueNeverStalls(norm, s, o);
    } else {
      first := c;
    }
  }

  /** A later grant leaves a free claim free, so the first free claim keeps its turn until it is granted or given up. */
  lemma FirstKeepsItsTurn(norm: Norm, s: State, owner: Id, c: Id, first: Id)
    requires ClaimsSound(s.owners, s.claims) && FirstFree(norm, s, first) && c in s.claims && c != first
    ensures Grantable(norm, TickClaim(norm, s, owner, c), first)
  {
    var t := TickClaim(norm, s, owner, c);
    if t != s {
      assert Grantable(norm, s, c) && s.claims[first].sequence < s.claims[c].sequence;
      assert !Overtakes(norm, s, c, first);
      Apart(Keys(norm, s.claims[c].resources), Keys(norm, s.claims[first].resources));
      assert HeldKeys(norm, t) <= HeldKeys(norm, s) + Keys(norm, s.claims[c].resources);
    }
  }

  /**
   When ticking has no effect any more, every claim still waiting wants something busy: no claim waits only for another
   waiting claim.
   */
  lemma QuietQueue(norm: Norm, s: State, c: Id)
    requires ClaimsSound(s.owners, s.claims) && c in s.claims && s.claims[c].state.Waiting?
    requires forall b :: b in s.claims && s.claims[b].state.Waiting? ==> TickClaim(norm, s, s.claims[b].owner, b) == s
    requires forall b :: b in s.claims && s.claims[b].state.Waiting? ==> LiveOwner(s, s.claims[b].owner)
    ensures Keys(norm, s.claims[c].resources) * Busy(norm, s) != {}
  {
    if Grantable(norm, s, c) {
      var first := QueueNeverStalls(norm, s, c);
    }
    assert !Free(norm, s, c);
    Apart(Keys(norm, s.claims[c].resources), Busy(norm, s));
  }
}
